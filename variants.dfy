/** Variant rules shared by the menus: `get_variants` / `variant_exists`
    (Python) and their JavaScript twins `getVariants` / `variantExists`. */
module VariantUtils {
  import opened Wrappers
  import opened Text
  import opened Numerals
  import opened Dicts
  import opened Json

  // ------------------------------------------------------------ Python

  /** `get_variants(item_data)`: the keys of a dict, otherwise `["Default"]`. */
  function GetVariants(itemData: Value): (r: seq<string>)
    ensures r == [] <==> itemData == Object([])
    ensures itemData.Object? ==> |r| == |itemData.fields|
  {
    if itemData.Object? then Keys(itemData.fields) else ["Default"]
  }

  lemma GetVariantsOfDict(fields: Dict<Value>)
    ensures forall i :: 0 <= i < |fields| ==> GetVariants(Object(fields))[i] == fields[i].0
  {
  }

  lemma GetVariantsOfNonDict(v: Value)
    requires !v.Object?
    ensures GetVariants(v) == ["Default"]
  {
  }

  /** `variant_exists(variants, user_choice)`: `None` and `""` never match;
      otherwise some variant equals the choice once both are lower-cased. */
  predicate VariantExists(variants: seq<string>, userChoice: Option<string>)
  {
    match userChoice
    case None => false
    case Some(c) => c != [] && exists i | 0 <= i < |variants| :: Lower(variants[i]) == Lower(c)
  }

  lemma VariantExistsIgnoresCase(variants: seq<string>, c: string, d: string)
    requires Lower(c) == Lower(d)
    ensures VariantExists(variants, Some(c)) == VariantExists(variants, Some(d))
  {
  }

  lemma VariantExistsNeedsVariants(c: Option<string>)
    ensures !VariantExists([], c)
  {
  }

  // -------------------------------------------------------- JavaScript

  /** A key `Object.keys` treats as an array index: the canonical decimal
      form of an integer below 2^32 - 1. */
  predicate IsArrayIndexKey(k: string)
  {
    k != [] && AllDigits(k) && (|k| > 1 ==> k[0] != '0') && DigitsValue(k) < 0xFFFF_FFFF
  }

  function KeyValue(k: string): nat
  {
    if AllDigits(k) then DigitsValue(k) else 0
  }

  /** The array-index keys, in their original order. */
  function IndexKeys(ks: seq<string>): (r: seq<string>)
    ensures forall i :: 0 <= i < |r| ==> IsArrayIndexKey(r[i])
    decreases |ks|
  {
    if ks == [] then []
    else (if IsArrayIndexKey(ks[0]) then [ks[0]] else []) + IndexKeys(ks[1..])
  }

  /** The other keys, in their original order. */
  function OtherKeys(ks: seq<string>): seq<string>
    decreases |ks|
  {
    if ks == [] then []
    else (if IsArrayIndexKey(ks[0]) then [] else [ks[0]]) + OtherKeys(ks[1..])
  }

  lemma {:induction false} IndexAndOtherKeysPartition(ks: seq<string>)
    ensures multiset(IndexKeys(ks)) + multiset(OtherKeys(ks)) == multiset(ks)
    decreases |ks|
  {
    if ks != [] {
      IndexAndOtherKeysPartition(ks[1..]);
      assert ks == [ks[0]] + ks[1..];
    }
  }

  lemma {:induction false} NoIndexKeys(ks: seq<string>)
    requires forall i :: 0 <= i < |ks| ==> !IsArrayIndexKey(ks[i])
    ensures IndexKeys(ks) == [] && OtherKeys(ks) == ks
    decreases |ks|
  {
    if ks != [] {
      NoIndexKeys(ks[1..]);
    }
  }

  predicate SortedByValue(s: seq<string>)
  {
    forall i, j :: 0 <= i < j < |s| ==> KeyValue(s[i]) <= KeyValue(s[j])
  }

  function InsertByValue(k: string, s: seq<string>): (r: seq<string>)
    ensures |r| == |s| + 1
    decreases |s|
  {
    if s == [] || KeyValue(k) <= KeyValue(s[0]) then [k] + s
    else
      assert s == [s[0]] + s[1..];
      [s[0]] + InsertByValue(k, s[1..])
  }

  /** Inserting a key adds exactly that key. */
  lemma {:induction false} InsertAddsKey(k: string, s: seq<string>)
    ensures multiset(InsertByValue(k, s)) == multiset(s) + multiset([k])
    decreases |s|
  {
    if s != [] && KeyValue(k) > KeyValue(s[0]) {
      InsertAddsKey(k, s[1..]);
      assert s == [s[0]] + s[1..];
    }
  }

  /** The smaller of the new key and the old first key comes first. */
  lemma InsertHead(k: string, s: seq<string>)
    requires s != []
    ensures InsertByValue(k, s)[0] == (if KeyValue(k) <= KeyValue(s[0]) then k else s[0])
  {
  }

  lemma {:induction false} InsertKeepsSorted(k: string, s: seq<string>)
    requires SortedByValue(s)
    ensures SortedByValue(InsertByValue(k, s))
    decreases |s|
  {
    if s != [] && KeyValue(k) > KeyValue(s[0]) {
      var tail := s[1..];
      InsertKeepsSorted(k, tail);
      var rest := InsertByValue(k, tail);
      if tail != [] {
        InsertHead(k, tail);
      }
      assert KeyValue(s[0]) <= KeyValue(rest[0]);
      var r := InsertByValue(k, s);
      assert r == [s[0]] + rest;
      forall i, j | 0 <= i < j < |r| ensures KeyValue(r[i]) <= KeyValue(r[j]) {
        assert r[j] == rest[j - 1];
        if i > 0 {
          assert r[i] == rest[i - 1];
        } else if j > 1 {
          assert KeyValue(rest[0]) <= KeyValue(rest[j - 1]);
        }
      }
    }
  }

  function SortByValue(s: seq<string>): (r: seq<string>)
    ensures multiset(r) == multiset(s)
    ensures SortedByValue(r)
    decreases |s|
  {
    if s == [] then []
    else
      assert s == [s[0]] + s[1..];
      InsertKeepsSorted(s[0], SortByValue(s[1..]));
      InsertAddsKey(s[0], SortByValue(s[1..]));
      InsertByValue(s[0], SortByValue(s[1..]))
  }

  /** `Object.keys(obj)`: array-index keys first in ascending numeric order,
      then the other keys in insertion order. */
  function ObjectKeys(fields: Dict<Value>): (r: seq<string>)
    ensures multiset(r) == multiset(Keys(fields))
  {
    IndexAndOtherKeysPartition(Keys(fields));
    SortByValue(IndexKeys(Keys(fields))) + OtherKeys(Keys(fields))
  }

  /** `Object.keys(array)`: the indices as decimal strings. */
  function ArrayKeys(n: nat): (r: seq<string>)
    ensures |r| == n && forall i :: 0 <= i < n ==> r[i] == NatToString(i)
  {
    seq(n, i requires 0 <= i < n => NatToString(i))
  }

  /** `getVariants(itemData)`. */
  function GetVariantsJs(itemData: Value): seq<string>
  {
    if JsTruthy(itemData) && JsTypeofObject(itemData) then
      match itemData
      case Object(fields) => ObjectKeys(fields)
      case List(items) => ArrayKeys(|items|)
      case _ => ["Default"]
    else ["Default"]
  }

  /** `variants.some(v => v.toLowerCase() === choice)`. */
  predicate SomeLowerEquals(variants: seq<string>, choice: string)
    decreases |variants|
  {
    variants != [] && (Lower(variants[0]) == choice || SomeLowerEquals(variants[1..], choice))
  }

  /** `variantExists(variants, userChoice)`; `null`, `undefined` and `""`
      are falsy. */
  predicate VariantExistsJs(variants: seq<string>, userChoice: Option<string>)
  {
    match userChoice
    case None => false
    case Some(c) => c != [] && SomeLowerEquals(variants, Lower(c))
  }

  // ------------------------------------------------------- the two twins

  lemma {:induction false} SomeLowerEqualsIff(variants: seq<string>, choice: string)
    ensures SomeLowerEquals(variants, choice) <==> exists i | 0 <= i < |variants| :: Lower(variants[i]) == choice
    decreases |variants|
  {
    if variants != [] {
      SomeLowerEqualsIff(variants[1..], choice);
      if SomeLowerEquals(variants[1..], choice) {
        var i :| 0 <= i < |variants| - 1 && Lower(variants[1..][i]) == choice;
        assert Lower(variants[i + 1]) == choice;
      }
      if exists i | 0 <= i < |variants| :: Lower(variants[i]) == choice {
        var i :| 0 <= i < |variants| && Lower(variants[i]) == choice;
        if i > 0 {
          assert Lower(variants[1..][i - 1]) == choice;
        }
      }
    }
  }

  /** The JavaScript `variantExists` and the Python `variant_exists` give
      the same answer on every list of names and every choice. */
  lemma VariantExistsTwinsAgree(variants: seq<string>, userChoice: Option<string>)
    ensures VariantExistsJs(variants, userChoice) == VariantExists(variants, userChoice)
  {
    if userChoice.Some? {
      SomeLowerEqualsIff(variants, Lower(userChoice.value));
    }
  }

  /** The two `getVariants` agree on everything except arrays and objects
      with array-index keys. */
  lemma GetVariantsTwinsAgree(v: Value)
    requires !v.List?
    requires v.Object? ==> forall i :: 0 <= i < |v.fields| ==> !IsArrayIndexKey(v.fields[i].0)
    ensures GetVariantsJs(v) == GetVariants(v)
  {
    if v.Object? {
      NoIndexKeys(Keys(v.fields));
    }
  }

  /** On a non-empty array they differ: JavaScript lists the indices. */
  lemma GetVariantsTwinsDifferOnArrays(items: seq<Value>)
    requires items != []
    ensures GetVariantsJs(List(items)) != GetVariants(List(items))
    ensures GetVariantsJs(List(items))[0] == "0"
  {
    assert GetVariantsJs(List(items))[0] == NatToString(0) == "0";
  }

  /** A falsy value (`null`, `false`, `0`, `""`) and every truthy primitive
      yields `["Default"]`. */
  lemma GetVariantsJsPrimitives(v: Value)
    requires !v.List? && !v.Object?
    ensures GetVariantsJs(v) == ["Default"]
  {
  }
}
