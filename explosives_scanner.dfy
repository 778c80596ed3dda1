/** The periodic explosives check that keeps its alerted order ids in a
    tracker list: each confirmed and paid order with at least three
    explosives is announced once. */
module ExplosivesScanner {
  import opened Wrappers
  import opened Text
  import opened Json
  import opened Dicts
  import opened Numerals
  import opened Users
  import opened Explosives

  /** `extract_explosive_count(items)`: a missing quantity counts 0. */
  method ExtractExplosiveCount(items: seq<LineEntry>) returns (total: int)
    ensures total == ExplosiveCount(items, 0)
  {
    total := 0;
    var k := 0;
    while k < |items|
      invariant 0 <= k <= |items|
      invariant total == ExplosiveCount(items[..k], 0)
    {
      var entry := items[k];
      var name := Lower(entry.item.GetOr(""));
      var quantity := entry.quantity.GetOr(0);
      IsExplosiveIgnoresCase(NameOf(entry));
      if IsExplosive(name) {
        total := total + quantity;
      }
      assert items[..k + 1][..k] == items[..k];
      k := k + 1;
    }
    assert items[..k] == items;
  }

  /** `get_player_mention(user_id)` on the ledger's key. */
  function GetPlayerMention(userKey: string): string
  {
    "<@" + userKey + ">"
  }

  /** The alert's last character, the collision emoji U+1F4A5. */
  const AlertEnding := "\U{1F4A5}"

  /** A ledger key that is a user's decimal id mentions that user. */
  lemma {:induction false} KeyMentionIsUserMention(u: UserId)
    ensures GetPlayerMention(IntToString(u)) == Mention(u)
  {
  }

  /** What the scan has posted so far, and the tracker list. */
  datatype ScanState = ScanState(alerts: seq<string>, tracker: seq<Value>)

  /** An order is announced when it has a truthy id not yet tracked, is
      confirmed and paid, and counts at least three explosives. */
  predicate Fires(order: Order, tracker: seq<Value>)
  {
    && PyTruthy(order.orderId) && order.orderId !in tracker
    && PyTruthy(order.confirmed) && PyTruthy(order.paid)
    && ExplosiveCount(order.items, 0) >= 3
  }

  /** One order of the scan. */
  function Step(s: ScanState, p: (string, Order)): ScanState
  {
    if Fires(p.1, s.tracker)
    then ScanState(s.alerts + [AlertText(GetPlayerMention(p.0), AlertEnding)], s.tracker + [p.1.orderId])
    else s
  }

  /** The scan over the ledger's orders, in order. */
  function Scan(pairs: seq<(string, Order)>, s: ScanState): ScanState
    decreases |pairs|
  {
    if pairs == [] then s else Step(Scan(pairs[..|pairs| - 1], s), pairs[|pairs| - 1])
  }

  /** The body of `check_explosive_orders` over the loaded ledger and
      tracker: without the alert channel nothing is posted or saved;
      otherwise the alerts are posted and the grown tracker is saved. */
  method CheckExplosiveOrders(data: Ledger, tracker: seq<Value>, channelFound: bool)
    returns (alerts: seq<string>, saved: Option<seq<Value>>)
    ensures !channelFound ==> alerts == [] && saved == None
    ensures channelFound ==>
      saved.Some? && ScanState(alerts, saved.value) == Scan(Flatten(data), ScanState([], tracker))
  {
    if !channelFound {
      return [], None;
    }
    var alertedIds := tracker;
    alerts := [];
    var i := 0;
    while i < |data|
      invariant 0 <= i <= |data|
      invariant ScanState(alerts, alertedIds) == Scan(Flatten(data[..i]), ScanState([], tracker))
    {
      var user := data[i].0;
      var orders := data[i].1;
      var j := 0;
      assert Flatten(data[..i]) + UserOrders(user, orders[..0]) == Flatten(data[..i]);
      while j < |orders|
        invariant 0 <= j <= |orders|
        invariant ScanState(alerts, alertedIds)
          == Scan(Flatten(data[..i]) + UserOrders(user, orders[..j]), ScanState([], tracker))
      {
        var order := orders[j];
        ghost var pre := ScanState(alerts, alertedIds);
        var orderId := order.orderId;
        if PyTruthy(orderId) && orderId !in alertedIds && PyTruthy(order.confirmed) && PyTruthy(order.paid) {
          var explosiveTotal := ExtractExplosiveCount(order.items);
          if explosiveTotal >= 3 {
            var mention := GetPlayerMention(user);
            alerts := alerts + [AlertText(mention, AlertEnding)];
            alertedIds := alertedIds + [orderId];
          }
        }
        assert ScanState(alerts, alertedIds) == Step(pre, (user, order));
        NextOrder(Flatten(data[..i]), user, orders, j, ScanState([], tracker));
        j := j + 1;
      }
      assert orders[..j] == orders;
      assert data[..i + 1][..i] == data[..i];
      i := i + 1;
    }
    assert data[..i] == data;
    saved := Some(alertedIds);
  }

  /** The inner loop's next order is the scan's next step. */
  lemma NextOrder(done: seq<(string, Order)>, user: string, orders: seq<Order>, j: nat, s: ScanState)
    requires j < |orders|
    ensures Scan(done + UserOrders(user, orders[..j + 1]), s)
      == Step(Scan(done + UserOrders(user, orders[..j]), s), (user, orders[j]))
  {
    var before := done + UserOrders(user, orders[..j]);
    UserOrdersStep(user, orders, j);
    assert done + UserOrders(user, orders[..j + 1]) == before + [(user, orders[j])];
    ScanSnoc(before, (user, orders[j]), s);
  }

  /** Scanning one more order is one more step. */
  lemma ScanSnoc(pairs: seq<(string, Order)>, p: (string, Order), s: ScanState)
    ensures Scan(pairs + [p], s) == Step(Scan(pairs, s), p)
  {
    assert (pairs + [p])[..|pairs|] == pairs;
  }

  /** The tracker and the alerts only grow, one tracked id per alert. */
  lemma {:induction false} ScanGrows(pairs: seq<(string, Order)>, s: ScanState)
    ensures s.tracker <= Scan(pairs, s).tracker && s.alerts <= Scan(pairs, s).alerts
    ensures |Scan(pairs, s).alerts| - |s.alerts| == |Scan(pairs, s).tracker| - |s.tracker|
    decreases |pairs|
  {
    if pairs != [] {
      ScanGrows(pairs[..|pairs| - 1], s);
      StepGrows(Scan(pairs[..|pairs| - 1], s), pairs[|pairs| - 1]);
    }
  }

  /** One step adds an alert exactly when it adds a tracked id. */
  lemma StepGrows(s: ScanState, p: (string, Order))
    ensures s.tracker <= Step(s, p).tracker && s.alerts <= Step(s, p).alerts
    ensures |Step(s, p).alerts| - |s.alerts| == |Step(s, p).tracker| - |s.tracker|
  {
    if Fires(p.1, s.tracker) {
      var m := AlertText(GetPlayerMention(p.0), AlertEnding);
      assert Step(s, p) == ScanState(s.alerts + [m], s.tracker + [p.1.orderId]);
    }
  }

  predicate Distinct(t: seq<Value>)
  {
    forall i, j :: 0 <= i < j < |t| ==> t[i] != t[j]
  }

  /** No id is tracked twice, so no order id is announced twice. */
  lemma {:induction false} ScanKeepsDistinct(pairs: seq<(string, Order)>, s: ScanState)
    requires Distinct(s.tracker)
    ensures Distinct(Scan(pairs, s).tracker)
    decreases |pairs|
  {
    if pairs != [] {
      ScanKeepsDistinct(pairs[..|pairs| - 1], s);
    }
  }

  /** A confirmed, paid order with a truthy id and at least three
      explosives. */
  predicate Qualifies(order: Order)
  {
    && PyTruthy(order.orderId) && PyTruthy(order.confirmed) && PyTruthy(order.paid)
    && ExplosiveCount(order.items, 0) >= 3
  }

  /** Every id of `t` from position `from` on is the id of a qualifying
      order of `pairs`. */
  predicate IdsQualify(pairs: seq<(string, Order)>, from: nat, t: seq<Value>)
  {
    forall k :: from <= k < |t| ==>
      exists i :: 0 <= i < |pairs| && pairs[i].1.orderId == t[k] && Qualifies(pairs[i].1)
  }

  /** Every id the scan adds belongs to a qualifying order of the ledger. */
  lemma {:induction false} TrackedOrdersQualify(pairs: seq<(string, Order)>, s: ScanState)
    ensures IdsQualify(pairs, |s.tracker|, Scan(pairs, s).tracker)
    decreases |pairs|
  {
    if pairs != [] {
      var init := pairs[..|pairs| - 1];
      var p := pairs[|pairs| - 1];
      var before := Scan(init, s);
      TrackedOrdersQualify(init, s);
      ScanGrows(init, s);
      assert Scan(pairs, s) == Step(before, p);
      var t := Step(before, p).tracker;
      forall k | |s.tracker| <= k < |t|
        ensures exists i :: 0 <= i < |pairs| && pairs[i].1.orderId == t[k] && Qualifies(pairs[i].1)
      {
        if k < |before.tracker| {
          assert t[k] == before.tracker[k];
          var i :| 0 <= i < |init| && init[i].1.orderId == before.tracker[k] && Qualifies(init[i].1);
          assert pairs[i] == init[i];
        } else {
          assert Fires(p.1, before.tracker) && t[k] == p.1.orderId;
          assert pairs[|pairs| - 1] == p;
        }
      }
      assert IdsQualify(pairs, |s.tracker|, t);
    }
  }

  /** An order that does not fire against a tracker does not fire against
      a tracker holding more ids. */
  lemma QuietStaysQuiet(order: Order, t: seq<Value>, u: seq<Value>)
    requires t <= u && !Fires(order, t)
    ensures !Fires(order, u)
  {
    if order.orderId in t {
      var i :| 0 <= i < |t| && t[i] == order.orderId;
      assert u[i] == order.orderId;
    }
  }

  /** After a scan, no order of the ledger fires any more. */
  lemma {:induction false} NoneFireAfterScan(pairs: seq<(string, Order)>, s: ScanState)
    ensures forall k :: 0 <= k < |pairs| ==> !Fires(pairs[k].1, Scan(pairs, s).tracker)
    decreases |pairs|
  {
    if pairs != [] {
      var init := pairs[..|pairs| - 1];
      NoneFireAfterScan(init, s);
      var before := Scan(init, s);
      var after := Scan(pairs, s);
      var p := pairs[|pairs| - 1];
      assert before.tracker <= after.tracker;
      forall k | 0 <= k < |pairs| ensures !Fires(pairs[k].1, after.tracker) {
        if k < |pairs| - 1 {
          assert pairs[k] == init[k];
          QuietStaysQuiet(pairs[k].1, before.tracker, after.tracker);
        } else if Fires(p.1, before.tracker) {
          assert after.tracker[|after.tracker| - 1] == p.1.orderId;
        } else {
          assert after == before;
        }
      }
    }
  }

  lemma {:induction false} QuietScan(pairs: seq<(string, Order)>, s: ScanState)
    requires forall k :: 0 <= k < |pairs| ==> !Fires(pairs[k].1, s.tracker)
    ensures Scan(pairs, s) == s
    decreases |pairs|
  {
    if pairs != [] {
      QuietScan(pairs[..|pairs| - 1], s);
    }
  }

  /** Scanning the same ledger again posts nothing and tracks nothing new:
      each order is announced at most once. */
  lemma RescanIsQuiet(data: Ledger, tracker: seq<Value>)
    ensures var first := Scan(Flatten(data), ScanState([], tracker));
      Scan(Flatten(data), ScanState([], first.tracker)) == ScanState([], first.tracker)
  {
    var first := Scan(Flatten(data), ScanState([], tracker));
    NoneFireAfterScan(Flatten(data), ScanState([], tracker));
    QuietScan(Flatten(data), ScanState([], first.tracker));
  }

  /** An order below the threshold is neither announced nor tracked, so it
      stays eligible for later scans. */
  lemma BelowThresholdNotTracked(s: ScanState, p: (string, Order))
    requires ExplosiveCount(p.1.items, 0) < 3
    ensures Step(s, p) == s
  {
  }
}
