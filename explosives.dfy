/** What both explosive scanners read from the order ledger, and the
    keyword rule they count with. */
module Explosives {
  import opened Wrappers
  import opened Text
  import opened Json
  import opened Dicts

  /** The watched item names. */
  const Keywords: seq<string> := ["40mm Explosive Grenade", "M79", "Plastic Explosives", "Landmines", "Claymores"]

  /** One entry of an order's `items` list; a missing key is `None`. */
  datatype LineEntry = LineEntry(item: Option<string>, quantity: Option<int>)

  /** One ledger order as the scanners read it: `order_id`, `confirmed` and
      `paid` as loaded (`Null` when missing), and its `items` (empty when
      missing). */
  datatype Order = Order(orderId: Value, confirmed: Value, paid: Value, items: seq<LineEntry>)

  /** The ledger: each user id (as text) maps to that user's list of orders. */
  type Ledger = Dict<seq<Order>>

  /** `any(keyword.lower() in name.lower() for keyword in EXPLOSIVE_KEYWORDS)`. */
  predicate IsExplosive(name: string)
  {
    exists k | 0 <= k < |Keywords| :: Contains(Lower(name), Lower(Keywords[k]))
  }

  /** The rule ignores case: a name and its lower-case form are alike. */
  lemma {:induction false} IsExplosiveIgnoresCase(name: string)
    ensures IsExplosive(Lower(name)) <==> IsExplosive(name)
  {
    LowerIdempotent(name);
  }

  /** Lower-casing keeps an occurrence. */
  lemma {:induction false} LowerKeepsContains(s: string, sub: string)
    requires Contains(s, sub)
    ensures Contains(Lower(s), Lower(sub))
  {
    var i :| 0 <= i <= |s| - |sub| && OccursAt(s, sub, i);
    var ls, lsub := Lower(s), Lower(sub);
    forall j | 0 <= j < |sub| ensures ls[i + j] == lsub[j] {
      assert s[i..i + |sub|][j] == sub[j];
    }
    assert ls[i..i + |sub|] == lsub;
    assert OccursAt(ls, lsub, i);
  }

  /** A name that mentions a keyword as written is explosive. */
  lemma {:induction false} KeywordMakesExplosive(name: string, k: nat)
    requires k < |Keywords| && Contains(name, Keywords[k])
    ensures IsExplosive(name)
  {
    LowerKeepsContains(name, Keywords[k]);
  }

  /** A missing item name (`""`) never matches. */
  lemma {:induction false} EmptyNameIsHarmless()
    ensures !IsExplosive("")
  {
    forall k | 0 <= k < |Keywords| ensures !Contains(Lower(""), Lower(Keywords[k])) {
      assert |Lower(Keywords[k])| > 0;
    }
  }

  /** The name the rule reads: `item.get("item", "")`. */
  function NameOf(e: LineEntry): string
  {
    e.item.GetOr("")
  }

  /** The quantity the rule adds: `int(item.get("quantity", default))`. */
  function QuantityOf(e: LineEntry, defaultQty: int): int
  {
    e.quantity.GetOr(defaultQty)
  }

  /** The sum of the quantities of the explosive entries, a missing
      quantity counting as `defaultQty`. */
  function ExplosiveCount(items: seq<LineEntry>, defaultQty: int): int
    decreases |items|
  {
    if items == [] then 0
    else
      var e := items[|items| - 1];
      ExplosiveCount(items[..|items| - 1], defaultQty) + (if IsExplosive(NameOf(e)) then QuantityOf(e, defaultQty) else 0)
  }

  /** Counts over two lists put together add up. */
  lemma {:induction false} ExplosiveCountConcat(a: seq<LineEntry>, b: seq<LineEntry>, defaultQty: int)
    ensures ExplosiveCount(a + b, defaultQty) == ExplosiveCount(a, defaultQty) + ExplosiveCount(b, defaultQty)
    decreases |b|
  {
    if b == [] {
      assert a + b == a;
    } else {
      assert (a + b)[..|a + b| - 1] == a + b[..|b| - 1];
      ExplosiveCountConcat(a, b[..|b| - 1], defaultQty);
    }
  }

  /** Adding an entry that does not match leaves the count as it was. */
  lemma {:induction false} NonMatchingEntryAddsNothing(items: seq<LineEntry>, e: LineEntry, defaultQty: int)
    requires !IsExplosive(NameOf(e))
    ensures ExplosiveCount(items + [e], defaultQty) == ExplosiveCount(items, defaultQty)
  {
    assert (items + [e])[..|items|] == items;
  }

  /** How many explosive entries have no quantity. */
  function MissingQuantities(items: seq<LineEntry>): nat
    decreases |items|
  {
    if items == [] then 0
    else
      var e := items[|items| - 1];
      MissingQuantities(items[..|items| - 1]) + (if IsExplosive(NameOf(e)) && e.quantity.None? then 1 else 0)
  }

  /** The two scanners' counts differ by the number of explosive entries
      without a quantity: each counts 1 in one scanner and 0 in the other.
      With every quantity present they agree. */
  lemma {:induction false} ScannerCountsDiffer(items: seq<LineEntry>)
    ensures ExplosiveCount(items, 1) == ExplosiveCount(items, 0) + MissingQuantities(items)
    ensures (forall k :: 0 <= k < |items| ==> items[k].quantity.Some?) ==>
      ExplosiveCount(items, 1) == ExplosiveCount(items, 0)
    decreases |items|
  {
    if items != [] {
      ScannerCountsDiffer(items[..|items| - 1]);
      assert (forall k :: 0 <= k < |items| ==> items[k].quantity.Some?) ==> MissingQuantities(items) == 0 by {
        if forall k :: 0 <= k < |items| ==> items[k].quantity.Some? {
          NoMissingQuantities(items);
        }
      }
    }
  }

  lemma {:induction false} NoMissingQuantities(items: seq<LineEntry>)
    requires forall k :: 0 <= k < |items| ==> items[k].quantity.Some?
    ensures MissingQuantities(items) == 0
    decreases |items|
  {
    if items != [] {
      NoMissingQuantities(items[..|items| - 1]);
    }
  }

  /** The orders of the ledger, in order, each with its user's key. */
  function Flatten(data: Ledger): seq<(string, Order)>
    decreases |data|
  {
    if data == [] then [] else Flatten(data[..|data| - 1]) + UserOrders(data[|data| - 1].0, data[|data| - 1].1)
  }

  /** The orders of one user, each with the user's key. */
  function UserOrders(user: string, orders: seq<Order>): (r: seq<(string, Order)>)
    ensures |r| == |orders| && forall k :: 0 <= k < |r| ==> r[k] == (user, orders[k])
  {
    seq(|orders|, k requires 0 <= k < |orders| => (user, orders[k]))
  }

  lemma UserOrdersStep(user: string, orders: seq<Order>, j: nat)
    requires j < |orders|
    ensures UserOrders(user, orders[..j + 1]) == UserOrders(user, orders[..j]) + [(user, orders[j])]
  {
  }

  /** The alert posted for a player; each scanner writes its own final
      characters. */
  function AlertText(mention: string, ending: string): string
  {
    "@everyone stay frosty! " + mention + " has just bought enough boom to waltz through your front door! " + ending
  }
}
