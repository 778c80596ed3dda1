/** `parse_order_lines`: a line-oriented parser for `category:item:variant xN`
    order text, priced against the catalog, failing on the first bad line. */
module OrderUtils {
  import opened Wrappers
  import opened Text
  import opened Numerals
  import opened Dicts
  import opened Catalog

  datatype ParsedItem = ParsedItem(
    category: string, item: string, variant: string,
    quantity: int, price: int, subtotal: int)

  /** Why a line was refused: the `ValueError`s the parser raises itself,
      and the ones Python raises for a bad unpack or a bad `int()`. */
  datatype Reason =
    | MissingQuantityFormat
    | WrongFieldCount(got: nat)
    | InvalidQuantity(text: string)
    | UnknownCategory(category: string)
    | UnknownItem(item: string, inCategory: string)
    | UnknownVariant(variant: string, forItem: string)
    | NoVariantSupport(item: string)

  datatype LineError = LineError(lineNum: nat, line: string, reason: Reason)

  /** `({"items": ..., "total": ...}, None)` or `(None, message)`. */
  datatype ParseResult = Parsed(items: seq<ParsedItem>, total: int) | Failed(error: LineError)

  /** `round(base / 3)` on an integer: `base / 3` never ends in .5, so this
      is the nearest integer, computed with floor division. */
  function SellPrice(base: int): (p: int)
    ensures 3 * p - 1 <= base <= 3 * p + 1
  {
    (base + 1) / 3
  }

  /** No other integer is as close to `base / 3`. */
  lemma SellPriceUnique(base: int, q: int)
    requires 3 * q - 1 <= base <= 3 * q + 1
    ensures q == SellPrice(base)
  {
  }

  /** The unit price: a third, rounded, in `"sell"` mode, the base otherwise. */
  function UnitPrice(mode: string, base: int): (p: int)
    ensures mode == "sell" ==> 3 * p - 1 <= base <= 3 * p + 1
    ensures mode != "sell" ==> p == base
  {
    if mode == "sell" then SellPrice(base) else base
  }

  /** The catalog checks of one line: the category, then the item, then the
      variant (a key of a variant map, or `default` in any case for a single
      price). */
  function LookupPrice(data: PriceData, category: string, item: string, variant: string): (r: Result<int, Reason>)
    ensures !HasKey(data, category) ==> r == Err(UnknownCategory(category))
    ensures HasKey(data, category) && !HasKey(Get(data, category).value, item) ==> r == Err(UnknownItem(item, category))
    ensures r.Err? ==> r.error.UnknownCategory? || r.error.UnknownItem? || r.error.UnknownVariant? || r.error.NoVariantSupport?
    ensures r.Ok? ==> HasKey(data, category) && HasKey(Get(data, category).value, item)
    ensures r.Ok? ==> var entry := Get(Get(data, category).value, item).value;
      (entry.Variants? ==> Get(entry.prices, variant) == Some(r.value))
      && (entry.Price? ==> Lower(variant) == "default" && entry.amount == r.value)
  {
    match Get(data, category)
    case None => Err(UnknownCategory(category))
    case Some(items) =>
      var entry: Option<ItemEntry> := Get(items, item);
      match entry
      case None => Err(UnknownItem(item, category))
      case Some(Variants(ps)) =>
        (match Get(ps, variant)
         case None => Err(UnknownVariant(variant, item))
         case Some(p) => Ok(p))
      case Some(Price(p)) =>
        if Lower(variant) != "default" then Err(NoVariantSupport(item)) else Ok(p)
  }

  /** `line.rsplit(" x", 1)` after the `" x" in line` check: the text before
      and after the last " x". */
  function CutAtLastX(line: string): (r: Option<(string, string)>)
    ensures r.None? <==> !Contains(line, " x")
  {
    match LastIndexOf(line, " x")
    case None => None
    case Some(i) => Some((line[..i], line[i + 2..]))
  }

  /** The cut puts the line back together, and no " x" is left after it. */
  lemma CutAtLastXParts(line: string)
    requires Contains(line, " x")
    ensures var (left, quantityText) := CutAtLastX(line).value;
      line == left + " x" + quantityText && !Contains(quantityText, " x")
  {
    var i := LastIndexOf(line, " x").value;
    assert line == line[..i] + " x" + line[i + 2..];
    NoLaterOccurrence(line, " x", i);
  }

  lemma NoLaterOccurrence(s: string, sub: string, i: nat)
    requires sub != [] && OccursAt(s, sub, i)
    requires forall j :: i < j ==> !OccursAt(s, sub, j)
    ensures !Contains(s[i + |sub|..], sub)
  {
    var tail := s[i + |sub|..];
    forall j | 0 <= j <= |tail| - |sub| ensures !OccursAt(tail, sub, j) {
      if OccursAt(tail, sub, j) {
        assert tail[j..j + |sub|] == s[i + |sub| + j..i + |sub| + j + |sub|];
        assert OccursAt(s, sub, i + |sub| + j);
      }
    }
  }

  /** `category, item, variant = map(str.strip, left.split(":"))`. */
  function SplitFields(left: string): (r: Result<(string, string, string), Reason>)
    ensures r.Err? <==> |Split(left, ":")| != 3
    ensures r.Err? ==> r.error == WrongFieldCount(|Split(left, ":")|)
    ensures r.Ok? ==> var f := Split(left, ":");
      r.value == (Strip(f[0]), Strip(f[1]), Strip(f[2]))
  {
    var fields := Split(left, ":");
    if |fields| != 3 then Err(WrongFieldCount(|fields|))
    else Ok((Strip(fields[0]), Strip(fields[1]), Strip(fields[2])))
  }

  /** One line of the loop body: cut at the last " x", split the left part
      into three stripped fields, parse the quantity, look up the price. */
  function ParseLine(data: PriceData, mode: string, line: string): (r: Result<ParsedItem, Reason>)
    ensures !Contains(line, " x") <==> r == Err(MissingQuantityFormat)
    ensures r.Ok? ==> r.value.subtotal == r.value.price * r.value.quantity
    ensures r.Ok? ==> var base := LookupPrice(data, r.value.category, r.value.item, r.value.variant);
      base.Ok? && r.value.price == UnitPrice(mode, base.value)
  {
    match CutAtLastX(line)
    case None => Err(MissingQuantityFormat)
    case Some((left, quantityText)) =>
      match SplitFields(left)
      case Err(e) => Err(e)
      case Ok((category, item, variant)) =>
        // `int(quantity_str.strip())`; `int` strips surrounding whitespace itself
        match ParseInt(quantityText)
        case None => Err(InvalidQuantity(Strip(quantityText)))
        case Some(quantity) =>
          match LookupPrice(data, category, item, variant)
          case Err(e) => Err(e)
          case Ok(base) =>
            var price := UnitPrice(mode, base);
            Ok(ParsedItem(category, item, variant, quantity, price, price * quantity))
  }

  /** The outcome of each line under a given line parser, in order. */
  function OutcomesOf(parse: string -> Result<ParsedItem, Reason>, lines: seq<string>): (r: seq<Result<ParsedItem, Reason>>)
    ensures |r| == |lines| && forall k :: 0 <= k < |lines| ==> r[k] == parse(lines[k])
  {
    seq(|lines|, k requires 0 <= k < |lines| => parse(lines[k]))
  }

  /** The outcome of each line, in order. */
  function Outcomes(data: PriceData, mode: string, lines: seq<string>): (r: seq<Result<ParsedItem, Reason>>)
    ensures |r| == |lines|
  {
    OutcomesOf(line => ParseLine(data, mode, line), lines)
  }

  lemma OutcomeAt(data: PriceData, mode: string, lines: seq<string>, k: nat)
    requires k < |lines|
    ensures Outcomes(data, mode, lines)[k] == ParseLine(data, mode, lines[k])
  {
  }

  lemma AllOutcomes(data: PriceData, mode: string, lines: seq<string>)
    ensures forall k :: 0 <= k < |lines| ==> Outcomes(data, mode, lines)[k] == ParseLine(data, mode, lines[k])
  {
    forall k | 0 <= k < |lines| {
      OutcomeAt(data, mode, lines, k);
    }
  }

  /** The parser's state after the first `n` line outcomes: the loop stops at
      the first error, numbering lines from 1. */
  function Collect(lines: seq<string>, outcomes: seq<Result<ParsedItem, Reason>>, n: nat): ParseResult
    requires n <= |lines| == |outcomes|
  {
    if n == 0 then Parsed([], 0)
    else match Collect(lines, outcomes, n - 1)
      case Failed(e) => Failed(e)
      case Parsed(items, total) =>
        match outcomes[n - 1]
        case Err(reason) => Failed(LineError(n, lines[n - 1], reason))
        case Ok(it) => Parsed(items + [it], total + it.subtotal)
  }

  function ParseLines(data: PriceData, mode: string, lines: seq<string>): ParseResult
  {
    Collect(lines, Outcomes(data, mode, lines), |lines|)
  }

  function SumSubtotals(items: seq<ParsedItem>): int
    decreases |items|
  {
    if items == [] then 0 else SumSubtotals(items[..|items| - 1]) + items[|items| - 1].subtotal
  }

  /** `parse_order_lines(order_text, mode)`, with the catalog passed in. */
  method ParseOrderLines(data: PriceData, orderText: string, mode: string) returns (result: ParseResult)
    ensures result == ParseLines(data, mode, SplitLines(Strip(orderText)))
  {
    var orderLines := SplitLines(Strip(orderText));
    var parseLine := line => ParseLine(data, mode, line);
    result := ParseEachLine(orderLines, parseLine);
    assert OutcomesOf(parseLine, orderLines) == Outcomes(data, mode, orderLines);
  }

  /** The loop of `parse_order_lines` over the lines of the order text;
      `parseLine` is the loop body's parse of one line (`ParseLine` on the
      catalog and mode). */
  method ParseEachLine(orderLines: seq<string>, parseLine: string -> Result<ParsedItem, Reason>)
    returns (result: ParseResult)
    ensures result == Collect(orderLines, OutcomesOf(parseLine, orderLines), |orderLines|)
  {
    ghost var outcomes := OutcomesOf(parseLine, orderLines);
    var parsedItems: seq<ParsedItem> := [];
    var total := 0;
    var lineNum := 0;
    while lineNum < |orderLines|
      invariant 0 <= lineNum <= |orderLines|
      invariant Collect(orderLines, outcomes, lineNum) == Parsed(parsedItems, total)
    {
      var line := orderLines[lineNum];
      var outcome := parseLine(line);
      if outcome.Err? {
        result := Failed(LineError(lineNum + 1, line, outcome.error));
        CollectErr(orderLines, outcomes, lineNum, parsedItems, total);
        FailurePersists(orderLines, outcomes, lineNum + 1, |orderLines|);
        return;
      }
      CollectOk(orderLines, outcomes, lineNum, parsedItems, total);
      parsedItems := parsedItems + [outcome.value];
      total := total + outcome.value.subtotal;
      lineNum := lineNum + 1;
    }
    result := Parsed(parsedItems, total);
  }

  // ------------------------------------------------------------ lemmas

  /** One more line that parses: its item is appended and its subtotal added. */
  lemma CollectOk(lines: seq<string>, outcomes: seq<Result<ParsedItem, Reason>>, n: nat,
                  items: seq<ParsedItem>, total: int)
    requires n < |lines| == |outcomes| && outcomes[n].Ok?
    requires Collect(lines, outcomes, n) == Parsed(items, total)
    ensures Collect(lines, outcomes, n + 1) == Parsed(items + [outcomes[n].value], total + outcomes[n].value.subtotal)
  {
  }

  /** One more line that fails: the parse fails with the 1-based line
      number, the line and the reason. */
  lemma CollectErr(lines: seq<string>, outcomes: seq<Result<ParsedItem, Reason>>, n: nat,
                   items: seq<ParsedItem>, total: int)
    requires n < |lines| == |outcomes| && outcomes[n].Err?
    requires Collect(lines, outcomes, n) == Parsed(items, total)
    ensures Collect(lines, outcomes, n + 1) == Failed(LineError(n + 1, lines[n], outcomes[n].error))
  {
  }

  /** Once a line has failed, later lines change nothing (the early return). */
  lemma {:induction false} FailurePersists(lines: seq<string>, outcomes: seq<Result<ParsedItem, Reason>>, n: nat, m: nat)
    requires n <= m <= |lines| == |outcomes|
    requires Collect(lines, outcomes, n).Failed?
    ensures Collect(lines, outcomes, m) == Collect(lines, outcomes, n)
    decreases m - n
  {
    if n < m {
      FailurePersists(lines, outcomes, n, m - 1);
    }
  }

  /** Success after `n` lines iff each of them parsed. */
  lemma {:induction false} CollectParsedIff(lines: seq<string>, outcomes: seq<Result<ParsedItem, Reason>>, n: nat)
    requires n <= |lines| == |outcomes|
    ensures Collect(lines, outcomes, n).Parsed? <==> forall k :: 0 <= k < n ==> outcomes[k].Ok?
  {
    if n > 0 {
      CollectParsedIff(lines, outcomes, n - 1);
    }
  }

  /** On success the items are the line outcomes in input order, and the
      total is the sum of their subtotals. */
  lemma {:induction false} CollectParsedItems(lines: seq<string>, outcomes: seq<Result<ParsedItem, Reason>>, n: nat)
    requires n <= |lines| == |outcomes|
    requires Collect(lines, outcomes, n).Parsed?
    ensures |Collect(lines, outcomes, n).items| == n
    ensures forall k :: 0 <= k < n ==> outcomes[k].Ok? && Collect(lines, outcomes, n).items[k] == outcomes[k].value
    ensures Collect(lines, outcomes, n).total == SumSubtotals(Collect(lines, outcomes, n).items)
  {
    if n > 0 {
      var p := Collect(lines, outcomes, n - 1);
      assert p.Parsed? && outcomes[n - 1].Ok?;
      CollectParsedItems(lines, outcomes, n - 1);
      var items := p.items + [outcomes[n - 1].value];
      assert Collect(lines, outcomes, n) == Parsed(items, p.total + outcomes[n - 1].value.subtotal);
      assert items[..|items| - 1] == p.items;
    }
  }

  /** Failure: the error names the first line that does not parse, by its
      1-based number, with that line and its reason. */
  lemma {:induction false} CollectFailed(lines: seq<string>, outcomes: seq<Result<ParsedItem, Reason>>, n: nat)
    requires n <= |lines| == |outcomes|
    requires Collect(lines, outcomes, n).Failed?
    ensures var e := Collect(lines, outcomes, n).error;
      && 1 <= e.lineNum <= n
      && e.line == lines[e.lineNum - 1]
      && outcomes[e.lineNum - 1] == Err(e.reason)
      && forall k :: 0 <= k < e.lineNum - 1 ==> outcomes[k].Ok?
  {
    if Collect(lines, outcomes, n - 1).Failed? {
      CollectFailed(lines, outcomes, n - 1);
    } else {
      CollectParsedIff(lines, outcomes, n - 1);
    }
  }

  /** The whole parse succeeds iff every line parses; it then lists one item
      per line, in order, with the sum of their subtotals as total. */
  lemma ParsedIffAllLinesParse(data: PriceData, mode: string, lines: seq<string>)
    ensures ParseLines(data, mode, lines).Parsed? <==> forall k :: 0 <= k < |lines| ==> ParseLine(data, mode, lines[k]).Ok?
    ensures ParseLines(data, mode, lines).Parsed? ==>
      var p := ParseLines(data, mode, lines);
      && |p.items| == |lines|
      && (forall k :: 0 <= k < |lines| ==> p.items[k] == ParseLine(data, mode, lines[k]).value)
      && p.total == SumSubtotals(p.items)
  {
    var outcomes := Outcomes(data, mode, lines);
    AllOutcomes(data, mode, lines);
    CollectParsedIff(lines, outcomes, |lines|);
    if ParseLines(data, mode, lines).Parsed? {
      CollectParsedItems(lines, outcomes, |lines|);
    }
  }

  /** A failed parse reports the first bad line, numbered from 1. */
  lemma FailedAtFirstBadLine(data: PriceData, mode: string, lines: seq<string>)
    requires ParseLines(data, mode, lines).Failed?
    ensures var e := ParseLines(data, mode, lines).error;
      && 1 <= e.lineNum <= |lines|
      && e.line == lines[e.lineNum - 1]
      && ParseLine(data, mode, e.line) == Err(e.reason)
      && forall k :: 0 <= k < e.lineNum - 1 ==> ParseLine(data, mode, lines[k]).Ok?
  {
    var outcomes := Outcomes(data, mode, lines);
    AllOutcomes(data, mode, lines);
    CollectFailed(lines, outcomes, |lines|);
  }

  /** Empty or whitespace-only order text yields no items and a zero total. */
  lemma EmptyOrderText(data: PriceData, orderText: string, mode: string)
    requires forall i :: 0 <= i < |orderText| ==> IsSpace(orderText[i])
    ensures ParseLines(data, mode, SplitLines(Strip(orderText))) == Parsed([], 0)
  {
    StripAllSpace(orderText);
  }

  /** A line written as `category:item:variant xN` parses back to its parts
      for any integer `N`, negative and zero included: the quantity is only
      required to be an integer. */
  lemma ParseLineRoundTrip(data: PriceData, mode: string, category: string, item: string, variant: string, n: int)
    requires Plain(category) && Plain(item) && Plain(variant)
    requires LookupPrice(data, category, item, variant).Ok?
    ensures var price := UnitPrice(mode, LookupPrice(data, category, item, variant).value);
      ParseLine(data, mode, category + ":" + item + ":" + variant + " x" + IntToString(n))
      == Ok(ParsedItem(category, item, variant, n, price, price * n))
  {
    var left := category + ":" + item + ":" + variant;
    CutBeforeNumber(left, n);
    FieldsOfPlain(category, item, variant);
    StripIntToString(n);
    ParseIntOfIntToString(n);
  }

  /** A catalog name that survives the line format unchanged: no ":" and no
      surrounding whitespace. */
  predicate Plain(s: string)
  {
    NoColon(s) && (s != [] ==> !IsSpace(s[0]) && !IsSpace(s[|s| - 1]))
  }

  predicate NoColon(s: string)
  {
    forall i :: 0 <= i < |s| ==> s[i] != ':'
  }

  lemma FieldsOfPlain(category: string, item: string, variant: string)
    requires Plain(category) && Plain(item) && Plain(variant)
    ensures SplitFields(category + ":" + item + ":" + variant) == Ok((category, item, variant))
  {
    SplitThree(category, item, variant);
    StripUnpadded(category);
    StripUnpadded(item);
    StripUnpadded(variant);
  }

  lemma SplitThree(category: string, item: string, variant: string)
    requires NoColon(category) && NoColon(item) && NoColon(variant)
    ensures Split(category + ":" + item + ":" + variant, ":") == [category, item, variant]
  {
    var rest := item + ":" + variant;
    assert category + ":" + item + ":" + variant == category + ":" + rest;
    SplitTwo(item, variant);
    SplitAfterColon(category, rest);
  }

  lemma SplitTwo(item: string, variant: string)
    requires NoColon(item) && NoColon(variant)
    ensures Split(item + ":" + variant, ":") == [item, variant]
  {
    NoCharNoContains(variant, ':');
    SplitWithoutSep(variant, ":");
    SplitAfterColon(item, variant);
  }

  lemma SplitAfterColon(first: string, rest: string)
    requires NoColon(first)
    ensures Split(first + ":" + rest, ":") == [first] + Split(rest, ":")
  {
    var colon := ":";
    assert colon[0] == ':';
    SplitAfterClean(first, colon, rest);
  }

  /** The last " x" of `left + " x" + str(n)` is the one before the number. */
  lemma CutBeforeNumber(left: string, n: int)
    ensures CutAtLastX(left + " x" + IntToString(n)) == Some((left, IntToString(n)))
  {
    var digits := IntToString(n);
    var line := left + " x" + digits;
    LastCutBeforeNumber(left, n);
    assert line[..|left|] == left && line[|left| + 2..] == digits;
  }

  lemma LastCutBeforeNumber(left: string, n: int)
    ensures LastIndexOf(left + " x" + IntToString(n), " x") == Some(|left|)
  {
    var line := left + " x" + IntToString(n);
    assert line[|left|..|left| + 2] == " x";
    NoSpaceInIntToString(n);
    NoCutAfter(left, IntToString(n));
    LastIndexOfIsLast(line, " x", |left|);
  }

  /** With no space after the " x", no later " x" can start. */
  lemma NoCutAfter(left: string, tail: string)
    requires forall k :: 0 <= k < |tail| ==> tail[k] != ' '
    ensures forall j :: |left| < j ==> !OccursAt(left + " x" + tail, " x", j)
  {
    var line := left + " x" + tail;
    forall j | |left| < j < |line| ensures line[j] != ' ' {
      if j > |left| + 1 {
        assert line[j] == tail[j - |left| - 2];
      }
    }
    forall j | |left| < j && j + 2 <= |line| ensures !OccursAt(line, " x", j) {
      assert line[j..j + 2][0] == line[j];
    }
  }

  lemma NoSpaceInIntToString(n: int)
    ensures forall k :: 0 <= k < |IntToString(n)| ==> IntToString(n)[k] != ' '
  {
    var body := NatToString(if n < 0 then -n else n);
    assert AllDigits(body);
    assert IntToString(n) == (if n < 0 then "-" else "") + body;
  }

  // ------------------------------------------------------------ messages

  function ReasonText(r: Reason): string
  {
    match r
    case MissingQuantityFormat => "Missing 'x' quantity format"
    case WrongFieldCount(got) =>
      if got < 3 then "not enough values to unpack (expected 3, got " + NatToString(got) + ")"
      else "too many values to unpack (expected 3)"
    case InvalidQuantity(t) => "invalid literal for int() with base 10: '" + t + "'"
    case UnknownCategory(c) => "Unknown category '" + c + "'"
    case UnknownItem(i, c) => "Unknown item '" + i + "' in category '" + c + "'"
    case UnknownVariant(v, i) => "Unknown variant '" + v + "' for item '" + i + "'"
    case NoVariantSupport(i) => "Item '" + i + "' does not support variants"
  }

  /** The message a failed line produces: its 1-based number, the line in
      quotes, an em dash, then the reason. */
  function ErrorMessage(e: LineError): (m: string)
    ensures StartsWith(m, "Error on line " + NatToString(e.lineNum) + ": '" + e.line + "'")
  {
    "Error on line " + NatToString(e.lineNum) + ": '" + e.line + "' \U{2014} " + ReasonText(e.reason)
  }
}
