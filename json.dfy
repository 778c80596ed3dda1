/** Python dictionaries as insertion-ordered association lists, and the JSON
    values the bot loads from its data files. */
module Dicts {
  import opened Wrappers

  /** A dictionary with string keys, in insertion order. A Python dict never
      holds a key twice; where a list below has a repeated key, the first
      entry is the one looked up. */
  type Dict<V> = seq<(string, V)>

  /** `list(d.keys())`. */
  function Keys<V>(d: Dict<V>): (r: seq<string>)
    ensures |r| == |d|
    ensures forall i :: 0 <= i < |d| ==> r[i] == d[i].0
  {
    seq(|d|, i requires 0 <= i < |d| => d[i].0)
  }

  /** `k in d`. */
  predicate HasKey<V>(d: Dict<V>, k: string)
  {
    exists i | 0 <= i < |d| :: d[i].0 == k
  }

  /** `d.get(k)`, with `None` for a missing key. */
  function Get<V>(d: Dict<V>, k: string): (r: Option<V>)
    ensures r.Some? <==> HasKey(d, k)
    ensures r.Some? ==> exists i :: 0 <= i < |d| && d[i] == (k, r.value)
    decreases |d|
  {
    if d == [] then None
    else if d[0].0 == k then Some(d[0].1)
    else
      var r := Get(d[1..], k);
      assert forall i :: 0 <= i < |d| - 1 ==> d[1..][i] == d[i + 1];
      assert HasKey(d, k) ==> HasKey(d[1..], k) by {
        if HasKey(d, k) {
          var i :| 0 <= i < |d| && d[i].0 == k;
          assert i > 0 && d[1..][i - 1].0 == k;
        }
      }
      r
  }
}

module Json {
  import opened Wrappers
  import opened Dicts

  /** A JSON value as `json.load` returns it. Numbers are integers here. */
  datatype Value =
    | Null
    | Bool(b: bool)
    | Num(n: int)
    | Str(s: string)
    | List(items: seq<Value>)
    | Object(fields: Dict<Value>)

  /** Python's truth value of a loaded value (`if v:`). */
  predicate PyTruthy(v: Value)
  {
    match v
    case Null => false
    case Bool(b) => b
    case Num(n) => n != 0
    case Str(s) => s != []
    case List(xs) => xs != []
    case Object(fs) => fs != []
  }

  /** JavaScript's truth value: every array and object is truthy. */
  predicate JsTruthy(v: Value)
  {
    match v
    case Null => false
    case Bool(b) => b
    case Num(n) => n != 0
    case Str(s) => s != []
    case List(_) => true
    case Object(_) => true
  }

  /** `typeof v === 'object'` (true of null, arrays and objects). */
  predicate JsTypeofObject(v: Value)
  {
    v.Null? || v.List? || v.Object?
  }
  /** `s * n` for a Python string or list: `n` copies of `s` one after the
      other, and nothing for `n <= 0`. */
  function Repeat<T>(s: seq<T>, n: int): (r: seq<T>)
    ensures n <= 0 ==> r == []
    ensures n > 0 ==> |r| == |s| * n
    decreases n
  {
    if n <= 0 then []
    else
      var rest := Repeat(s, n - 1);
      assert |s| * n == |s| + |s| * (n - 1);
      s + rest
  }

  /** `s * (a + b) == s * a + s * b` for non-negative counts. */
  lemma {:induction false} RepeatAdd<T>(s: seq<T>, a: int, b: int)
    requires a >= 0 && b >= 0
    ensures Repeat(s, a + b) == Repeat(s, a) + Repeat(s, b)
    decreases a
  {
    if a > 0 {
      RepeatAdd(s, a - 1, b);
      assert Repeat(s, a + b) == s + Repeat(s, a - 1 + b);
    }
  }

  /** Python's `v * n` for a loaded value and an integer: numbers multiply
      (a boolean counts as 0 or 1), strings and lists repeat, and `None` or a
      dict raises `TypeError`. */
  function Times(v: Value, n: int): (r: Option<Value>)
    ensures r.None? <==> v.Null? || v.Object?
    ensures v.Num? ==> r == Some(Num(v.n * n))
    ensures v.Bool? ==> r == Some(Num(if v.b then n else 0))
    ensures v.Str? ==> r.Some? && r.value.Str? && r.value.s == Repeat(v.s, n)
    ensures v.List? ==> r.Some? && r.value.List? && r.value.items == Repeat(v.items, n)
  {
    match v
    case Null => None
    case Bool(b) => Some(Num(if b then n else 0))
    case Num(k) => Some(Num(k * n))
    case Str(s) => Some(Str(Repeat(s, n)))
    case List(xs) => Some(List(Repeat(xs, n)))
    case Object(_) => None
  }

  /** The values an `int` can be added to with `+` (`0 + True == 1`). */
  predicate Addable(v: Value)
  {
    v.Num? || v.Bool?
  }

  /** The integer an addable value adds. */
  function IntValue(v: Value): int
    requires Addable(v)
  {
    if v.Num? then v.n else if v.b then 1 else 0
  }
}
