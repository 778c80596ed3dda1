/** Python's decimal conversions: `str(n)`, `int(text)` and `format(n, ",")`. */
module Numerals {
  import opened Wrappers
  import opened Text

  predicate IsDigit(c: char)
  {
    '0' <= c <= '9'
  }

  predicate AllDigits(s: string)
  {
    forall i :: 0 <= i < |s| ==> IsDigit(s[i])
  }

  function DigitValue(c: char): nat
    requires IsDigit(c)
  {
    c as int - '0' as int
  }

  function DigitChar(d: nat): (c: char)
    requires d < 10
    ensures IsDigit(c) && DigitValue(c) == d
  {
    ('0' as int + d) as char
  }

  function Pow10(k: nat): nat
  {
    if k == 0 then 1 else 10 * Pow10(k - 1)
  }

  /** `str(n)` for a natural number: no sign, no leading zero. */
  function NatToString(n: nat): (r: string)
    ensures r != [] && AllDigits(r)
    ensures |r| > 1 ==> r[0] != '0'
    decreases n
  {
    if n < 10 then [DigitChar(n)] else NatToString(n / 10) + [DigitChar(n % 10)]
  }

  /** `str(n)` for any integer. */
  function IntToString(n: int): string
  {
    if n < 0 then "-" + NatToString(-n) else NatToString(n)
  }

  /** The number a string of decimal digits denotes. */
  function DigitsValue(s: string): nat
    requires AllDigits(s)
    decreases |s|
  {
    if s == [] then 0 else DigitsValue(s[..|s| - 1]) * 10 + DigitValue(s[|s| - 1])
  }

  lemma {:induction false} NatToStringValue(n: nat)
    ensures DigitsValue(NatToString(n)) == n
    decreases n
  {
    if n >= 10 {
      NatToStringValue(n / 10);
      var s := NatToString(n);
      assert s[..|s| - 1] == NatToString(n / 10);
    }
  }

  lemma {:induction false} DigitsValueConcat(a: string, b: string)
    requires AllDigits(a) && AllDigits(b)
    ensures AllDigits(a + b)
    ensures DigitsValue(a + b) == DigitsValue(a) * Pow10(|b|) + DigitsValue(b)
    decreases |b|
  {
    if b == [] {
      assert a + b == a;
    } else {
      var b' := b[..|b| - 1];
      var d := DigitValue(b[|b| - 1]);
      assert (a + b)[..|a + b| - 1] == a + b';
      assert (a + b)[|a + b| - 1] == b[|b| - 1];
      DigitsValueConcat(a, b');
      var x, p, y := DigitsValue(a), Pow10(|b'|), DigitsValue(b');
      assert DigitsValue(a + b) == (x * p + y) * 10 + d;
      assert DigitsValue(b) == y * 10 + d;
      assert Pow10(|b|) == p * 10;
      MulAddShift(x, p, y, d);
    }
  }

  lemma MulAddShift(x: int, p: int, y: int, d: int)
    ensures (x * p + y) * 10 + d == x * (p * 10) + (y * 10 + d)
  {
  }

  /** The digits Python's `int()` accepts after an optional sign: ASCII
      digits, with single underscores allowed between two digits. */
  predicate IsDigitGroups(s: string)
  {
    && s != []
    && IsDigit(s[0]) && IsDigit(s[|s| - 1])
    && (forall i :: 0 <= i < |s| ==> IsDigit(s[i]) || s[i] == '_')
    && (forall i :: 0 <= i < |s| - 1 ==> !(s[i] == '_' && s[i + 1] == '_'))
  }

  /** `int(text)`: surrounding whitespace is ignored; `None` stands for the
      `ValueError` Python raises on anything that is not an integer literal. */
  function ParseInt(text: string): (r: Option<int>)
    ensures r.Some? ==> Strip(text) != []
  {
    var t := Strip(text);
    if t == [] then None
    else
      var body := if t[0] == '-' || t[0] == '+' then t[1..] else t;
      if IsDigitGroups(body) then
        var digits := Without(body, '_');
        WithoutUnderscoresAllDigits(body);
        var v: int := DigitsValue(digits);
        Some(if t[0] == '-' then -v else v)
      else None
  }

  lemma {:induction false} WithoutUnderscoresAllDigits(s: string)
    requires forall i :: 0 <= i < |s| ==> IsDigit(s[i]) || s[i] == '_'
    ensures AllDigits(Without(s, '_'))
    decreases |s|
  {
    if s != [] {
      WithoutUnderscoresAllDigits(s[1..]);
    }
  }

  /** `int(str(n)) == n`. */
  lemma {:induction false} ParseIntOfIntToString(n: int)
    ensures ParseInt(IntToString(n)) == Some(n)
  {
    var m: nat := if n < 0 then -n else n;
    var t := IntToString(n);
    StripIntToString(n);
    var body := if t[0] == '-' || t[0] == '+' then t[1..] else t;
    BodyOfIntToString(n);
    assert body == NatToString(m);
    ParseDigitsBody(body);
    NatToStringValue(m);
  }

  lemma {:induction false} StripIntToString(n: int)
    ensures Strip(IntToString(n)) == IntToString(n)
  {
    var t := IntToString(n);
    var digits := NatToString(if n < 0 then -n else n);
    assert t == (if n < 0 then "-" else "") + digits;
    assert IsDigit(t[|t| - 1]) && (IsDigit(t[0]) || t[0] == '-');
    StripUnpadded(t);
  }

  lemma {:induction false} BodyOfIntToString(n: int)
    ensures var t := IntToString(n);
      t != [] && (if t[0] == '-' || t[0] == '+' then t[1..] else t) == NatToString(if n < 0 then -n else n)
      && (t[0] == '-' <==> n < 0)
  {
    var digits := NatToString(if n < 0 then -n else n);
    assert IsDigit(digits[0]);
  }

  lemma {:induction false} ParseDigitsBody(body: string)
    requires body != [] && AllDigits(body)
    ensures IsDigitGroups(body) && Without(body, '_') == body
  {
  }

  /** Three digits, zero padded. */
  function Pad3(r: nat): (s: string)
    requires r < 1000
    ensures |s| == 3 && AllDigits(s) && DigitsValue(s) == r
  {
    var s := [DigitChar(r / 100), DigitChar(r / 10 % 10), DigitChar(r % 10)];
    assert s[..2][..1] == [s[0]] && [s[0]][..0] == [];
    assert DigitsValue([s[0]]) == r / 100;
    assert DigitsValue(s[..2]) == (r / 100) * 10 + r / 10 % 10;
    assert DigitsValue(s) == ((r / 100) * 10 + r / 10 % 10) * 10 + r % 10;
    s
  }

  /** `format(n, ",")` for a natural number: groups of three digits from
      the right, separated by commas. */
  function Grouped(n: nat): string
    decreases n
  {
    if n < 1000 then NatToString(n) else Grouped(n / 1000) + "," + Pad3(n % 1000)
  }

  /** `format(n, ",")` for any integer. */
  function GroupedInt(n: int): string
  {
    if n < 0 then "-" + Grouped(-n) else Grouped(n)
  }

  /** Removing the commas of `format(n, ",")` leaves the digits of `n`. */
  lemma {:induction false} GroupedWithoutCommas(n: nat)
    ensures Without(Grouped(n), ',') != [] && AllDigits(Without(Grouped(n), ','))
    ensures DigitsValue(Without(Grouped(n), ',')) == n
    decreases n
  {
    if n < 1000 {
      assert Grouped(n) == NatToString(n);
      DigitsHaveNoComma(NatToString(n));
      NatToStringValue(n);
    } else {
      var q, r := n / 1000, n % 1000;
      assert Grouped(n) == Grouped(q) + "," + Pad3(r);
      GroupedWithoutCommas(q);
      var a := Without(Grouped(q), ',');
      WithoutGroupStep(Grouped(q), Pad3(r));
      DigitsValueConcat(a, Pad3(r));
      assert Pow10(3) == 1000;
      assert DigitsValue(a + Pad3(r)) == q * 1000 + r;
    }
  }

  lemma DigitsHaveNoComma(s: string)
    requires AllDigits(s)
    ensures Without(s, ',') == s
  {
    assert forall i :: 0 <= i < |s| ==> s[i] != ',';
  }

  lemma {:induction false} WithoutGroupStep(g: string, p: string)
    requires AllDigits(p)
    ensures Without(g + "," + p, ',') == Without(g, ',') + p
  {
    WithoutConcat(g + ",", p, ',');
    WithoutConcat(g, ",", ',');
    assert Without(",", ',') == [];
    DigitsHaveNoComma(p);
  }

  lemma GroupedHasNoSpecials(n: nat)
    ensures forall i :: 0 <= i < |Grouped(n)| ==> IsDigit(Grouped(n)[i]) || Grouped(n)[i] == ','
    decreases n
  {
    if n >= 1000 {
      GroupedHasNoSpecials(n / 1000);
    }
  }
  /** `int(text)` followed by the menus' `<= 0` check: `None` for any text
      that is not a positive integer. */
  function PositiveQuantity(text: string): (q: Option<int>)
    ensures q.Some? <==> ParseInt(text).Some? && ParseInt(text).value > 0
    ensures q.Some? ==> q.value == ParseInt(text).value && q.value > 0
  {
    match ParseInt(text)
    case Some(n) => if n <= 0 then None else Some(n)
    case None => None
  }

  /** The text of a number is accepted exactly when the number is positive,
      and then gives that number back. */
  lemma PositiveQuantityOfIntToString(n: int)
    ensures PositiveQuantity(IntToString(n)) == if n > 0 then Some(n) else None
  {
    ParseIntOfIntToString(n);
  }

  /** `int(text.strip())` and `int(text)` agree: `int` strips the text itself. */
  lemma ParseIntOfStripped(text: string)
    ensures ParseInt(Strip(text)) == ParseInt(text)
  {
    var t := Strip(text);
    StripUnpadded(t);
  }

  /** `int()` of a non-empty run of ASCII digits is the number they denote. */
  lemma ParseIntOfDigits(s: string)
    requires s != [] && AllDigits(s)
    ensures ParseInt(s) == Some(DigitsValue(s))
  {
    StripUnpadded(s);
    ParseDigitsBody(s);
  }
}
