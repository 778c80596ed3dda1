/** The explosives check run by `ExplosiveScanner`, which keeps the alerted
    order ids in a set on the scanner object and counts a missing quantity
    as 1. */
module ScannerTask {
  import opened Wrappers
  import opened Text
  import opened Json
  import opened Dicts
  import opened Numerals
  import opened Users
  import opened Explosives
  import ExplosivesScanner

  /** The alert's last characters as the scheduled scanner writes them:
      U+00F0 U+0178 U+2019 U+00A5, the UTF-8 bytes of the collision emoji
      read as Windows-1252. */
  const AlertEnding := "\U{F0}\U{178}\U{2019}\U{A5}"

  /** The inner counting loop of `scan_explosives`: a missing quantity
      counts 1. */
  method CountExplosives(items: seq<LineEntry>) returns (count: int)
    ensures count == ExplosiveCount(items, 1)
  {
    count := 0;
    var k := 0;
    while k < |items|
      invariant 0 <= k <= |items|
      invariant count == ExplosiveCount(items[..k], 1)
    {
      var item := items[k];
      var name := Lower(item.item.GetOr(""));
      var qty := item.quantity.GetOr(1);
      IsExplosiveIgnoresCase(NameOf(item));
      if IsExplosive(name) {
        count := count + qty;
      }
      assert items[..k + 1][..k] == items[..k];
      k := k + 1;
    }
    assert items[..k] == items;
  }

  /** The alerted set, the alerts posted, and whether the scan stopped on
      an error. */
  datatype TaskState = TaskState(alerted: set<Value>, alerts: seq<string>, crashed: bool)

  /** An order is announced when its id (`Null` when missing) is not in the
      set, it is confirmed and paid, and it counts at least three
      explosives. */
  predicate Fires(order: Order, alerted: set<Value>)
  {
    && order.orderId !in alerted
    && PyTruthy(order.confirmed) && PyTruthy(order.paid)
    && ExplosiveCount(order.items, 1) >= 3
  }

  /** One order of the scan. The player is fetched by `int(user_id)`; a key
      that is not an integer raises and ends the scan. */
  function Step(s: TaskState, p: (string, Order)): TaskState
  {
    if s.crashed || !Fires(p.1, s.alerted) then s
    else match ParseInt(p.0)
      case None => s.(crashed := true)
      case Some(uid) => TaskState(s.alerted + {p.1.orderId}, s.alerts + [AlertText(Mention(uid), AlertEnding)], false)
  }

  /** The scan over the ledger's orders, in order. */
  function Scan(pairs: seq<(string, Order)>, s: TaskState): TaskState
    decreases |pairs|
  {
    if pairs == [] then s else Step(Scan(pairs[..|pairs| - 1], s), pairs[|pairs| - 1])
  }

  /** The inner loop's next order is the scan's next step. */
  lemma NextOrder(user: string, orders: seq<Order>, j: nat, s: TaskState)
    requires j < |orders|
    ensures Scan(UserOrders(user, orders[..j + 1]), s) == Step(Scan(UserOrders(user, orders[..j]), s), (user, orders[j]))
  {
    UserOrdersStep(user, orders, j);
    ScanSnoc(UserOrders(user, orders[..j]), (user, orders[j]), s);
  }

  /** Scanning one more order is one more step. */
  lemma ScanSnoc(pairs: seq<(string, Order)>, p: (string, Order), s: TaskState)
    ensures Scan(pairs + [p], s) == Step(Scan(pairs, s), p)
  {
    assert (pairs + [p])[..|pairs|] == pairs;
  }

  /** Scanning two runs of orders one after the other is scanning both. */
  lemma {:induction false} ScanConcat(a: seq<(string, Order)>, b: seq<(string, Order)>, s: TaskState)
    ensures Scan(a + b, s) == Scan(b, Scan(a, s))
    decreases |b|
  {
    if b == [] {
      assert a + b == a;
    } else {
      assert (a + b)[..|a + b| - 1] == a + b[..|b| - 1];
      ScanConcat(a, b[..|b| - 1], s);
    }
  }

  /** Once the scan has stopped, nothing more happens. */
  lemma {:induction false} CrashedScanStays(pairs: seq<(string, Order)>, s: TaskState)
    requires s.crashed
    ensures Scan(pairs, s) == s
    decreases |pairs|
  {
    if pairs != [] {
      CrashedScanStays(pairs[..|pairs| - 1], s);
    }
  }

  /** The ledger flattened is the flattening of its parts. */
  lemma {:induction false} FlattenConcat(a: Ledger, b: Ledger)
    ensures Flatten(a + b) == Flatten(a) + Flatten(b)
    decreases |b|
  {
    if b == [] {
      assert a + b == a;
    } else {
      var init, last := b[..|b| - 1], b[|b| - 1];
      assert (a + b)[..|a + b| - 1] == a + init;
      assert (a + b)[|a + b| - 1] == last;
      FlattenConcat(a, init);
      assert Flatten(a + b) == Flatten(a + init) + UserOrders(last.0, last.1);
      assert Flatten(b) == Flatten(init) + UserOrders(last.0, last.1);
    }
  }

  lemma UserOrdersSplit(user: string, orders: seq<Order>, j: nat)
    requires j <= |orders|
    ensures UserOrders(user, orders) == UserOrders(user, orders[..j]) + UserOrders(user, orders[j..])
  {
  }

  /** A scan that has stopped stays stopped whatever follows. */
  lemma {:induction false} StopIsFinal(done: seq<(string, Order)>, rest: seq<(string, Order)>, s: TaskState)
    requires Scan(done, s).crashed
    ensures Scan(done + rest, s) == Scan(done, s)
  {
    ScanConcat(done, rest, s);
    CrashedScanStays(rest, Scan(done, s));
  }

  /** A stop at order `j` of a user's orders ends the scan of them. */
  lemma UserStop(user: string, orders: seq<Order>, j: nat, s: TaskState)
    requires j < |orders| && Scan(UserOrders(user, orders[..j + 1]), s).crashed
    ensures Scan(UserOrders(user, orders), s) == Scan(UserOrders(user, orders[..j + 1]), s)
  {
    UserOrdersSplit(user, orders, j + 1);
    StopIsFinal(UserOrders(user, orders[..j + 1]), UserOrders(user, orders[j + 1..]), s);
  }

  /** The outer loop's next user is the scan of that user's orders. */
  lemma NextUser(data: Ledger, i: nat, s: TaskState)
    requires i < |data|
    ensures Scan(Flatten(data[..i + 1]), s) == Scan(UserOrders(data[i].0, data[i].1), Scan(Flatten(data[..i]), s))
  {
    assert data[..i + 1][..i] == data[..i];
    ScanConcat(Flatten(data[..i]), UserOrders(data[i].0, data[i].1), s);
  }

  /** A stop while scanning user `i` ends the scan of the whole ledger. */
  lemma LedgerStop(data: Ledger, i: nat, s: TaskState)
    requires i < |data| && Scan(Flatten(data[..i + 1]), s).crashed
    ensures Scan(Flatten(data), s) == Scan(Flatten(data[..i + 1]), s)
  {
    assert data == data[..i + 1] + data[i + 1..];
    FlattenConcat(data[..i + 1], data[i + 1..]);
    StopIsFinal(Flatten(data[..i + 1]), Flatten(data[i + 1..]), s);
  }

  /** The inner loop of `scan_explosives` over one user's orders, from the
      alerted set and alerts so far; `stopped` is set when `int(user_id)`
      raises. */
  method ScanUserOrders(userId: string, orders: seq<Order>, alerted0: set<Value>, alerts0: seq<string>)
    returns (alerted: set<Value>, alerts: seq<string>, stopped: bool)
    ensures TaskState(alerted, alerts, stopped) == Scan(UserOrders(userId, orders), TaskState(alerted0, alerts0, false))
  {
    alerted, alerts, stopped := alerted0, alerts0, false;
    ghost var init := TaskState(alerted0, alerts0, false);
    var j := 0;
    assert UserOrders(userId, orders[..0]) == [];
    while j < |orders|
      invariant 0 <= j <= |orders|
      invariant TaskState(alerted, alerts, false) == Scan(UserOrders(userId, orders[..j]), init)
    {
      var order := orders[j];
      ghost var pre := TaskState(alerted, alerts, false);
      NextOrder(userId, orders, j, init);
      if order.orderId !in alerted && PyTruthy(order.confirmed) && PyTruthy(order.paid) {
        var count := CountExplosives(order.items);
        if count >= 3 {
          var uid := ParseInt(userId);
          if uid.None? {
            assert Step(pre, (userId, order)) == pre.(crashed := true);
            stopped := true;
            UserStop(userId, orders, j, init);
            return;
          }
          alerts := alerts + [AlertText(Mention(uid.value), AlertEnding)];
          alerted := alerted + {order.orderId};
        }
      }
      assert TaskState(alerted, alerts, false) == Step(pre, (userId, order));
      j := j + 1;
    }
    assert orders[..j] == orders;
  }

  /** `ExplosiveScanner`: the alerted set lives as long as the scanner. */
  class ExplosiveScanner {
    var alreadyAlerted: set<Value>

    constructor()
      ensures |alreadyAlerted| == 0
    {
      alreadyAlerted := {};
    }

    /** `scan_explosives` over the loaded ledger (`None` when the file is
        missing or cannot be loaded): without a ledger or an alert channel
        nothing happens; otherwise the orders are scanned in order, and a
        ledger key that is not an integer stops the scan where it is met. */
    method ScanExplosives(data: Option<Ledger>, channelFound: bool) returns (alerts: seq<string>, crashed: bool)
      modifies this
      ensures data.None? || !channelFound ==> alerts == [] && !crashed && alreadyAlerted == old(alreadyAlerted)
      ensures data.Some? && channelFound ==>
        TaskState(alreadyAlerted, alerts, crashed) == Scan(Flatten(data.value), TaskState(old(alreadyAlerted), [], false))
    {
      alerts := [];
      crashed := false;
      if data.None? || !channelFound {
        return;
      }
      var ledger := data.value;
      var alerted := alreadyAlerted;
      ghost var init := TaskState(alerted, [], false);
      var i := 0;
      while i < |ledger|
        invariant 0 <= i <= |ledger|
        invariant TaskState(alerted, alerts, false) == Scan(Flatten(ledger[..i]), init)
      {
        var userId := ledger[i].0;
        var orders := ledger[i].1;
        var stopped;
        NextUser(ledger, i, init);
        alerted, alerts, stopped := ScanUserOrders(userId, orders, alerted, alerts);
        if stopped {
          crashed := true;
          alreadyAlerted := alerted;
          LedgerStop(ledger, i, init);
          return;
        }
        i := i + 1;
      }
      assert ledger[..i] == ledger;
      alreadyAlerted := alerted;
    }
  }

  /** The alerted set only grows, and an announced id is in it. */
  lemma {:induction false} AlertedGrows(pairs: seq<(string, Order)>, s: TaskState)
    ensures s.alerted <= Scan(pairs, s).alerted
    ensures s.alerts <= Scan(pairs, s).alerts
    decreases |pairs|
  {
    if pairs != [] {
      AlertedGrows(pairs[..|pairs| - 1], s);
      StepGrows(Scan(pairs[..|pairs| - 1], s), pairs[|pairs| - 1]);
    }
  }

  /** One step only adds to the alerted set and the alerts. */
  lemma StepGrows(s: TaskState, p: (string, Order))
    ensures s.alerted <= Step(s, p).alerted && s.alerts <= Step(s, p).alerts
  {
    if !s.crashed && Fires(p.1, s.alerted) && ParseInt(p.0).Some? {
      var m := AlertText(Mention(ParseInt(p.0).value), AlertEnding);
      assert Step(s, p) == TaskState(s.alerted + {p.1.orderId}, s.alerts + [m], false);
    }
  }

  /** An announced order without an id puts `Null` in the set; from then on
      no order without an id is announced. */
  lemma IdlessAlertBlocksIdless(s: TaskState, p: (string, Order), later: Order)
    requires p.1.orderId == Null && later.orderId == Null
    requires |Step(s, p).alerts| > |s.alerts|
    ensures Null in Step(s, p).alerted
    ensures !Fires(later, Step(s, p).alerted)
  {
  }

  /** After a scan that did not stop, no order of the ledger fires. */
  lemma {:induction false} NoneFireAfterScan(pairs: seq<(string, Order)>, s: TaskState)
    requires !Scan(pairs, s).crashed
    ensures forall k :: 0 <= k < |pairs| ==> !Fires(pairs[k].1, Scan(pairs, s).alerted)
    decreases |pairs|
  {
    if pairs != [] {
      var init := pairs[..|pairs| - 1];
      var before := Scan(init, s);
      NoneFireAfterScan(init, s);
      AlertedGrows(init, s);
      var after := Scan(pairs, s);
      assert after == Step(before, pairs[|pairs| - 1]);
      assert before.alerted <= after.alerted;
      forall k | 0 <= k < |pairs| ensures !Fires(pairs[k].1, Scan(pairs, s).alerted) {
        if k < |pairs| - 1 {
          assert pairs[k] == init[k];
        }
      }
    }
  }

  lemma {:induction false} QuietScan(pairs: seq<(string, Order)>, s: TaskState)
    requires !s.crashed
    requires forall k :: 0 <= k < |pairs| ==> !Fires(pairs[k].1, s.alerted)
    ensures Scan(pairs, s) == s
    decreases |pairs|
  {
    if pairs != [] {
      QuietScan(pairs[..|pairs| - 1], s);
    }
  }

  /** A second scan of the same ledger by the same scanner announces
      nothing, when the first did not stop. */
  lemma RescanIsQuiet(data: Ledger, alerted: set<Value>)
    requires !Scan(Flatten(data), TaskState(alerted, [], false)).crashed
    ensures var first := Scan(Flatten(data), TaskState(alerted, [], false));
      Scan(Flatten(data), TaskState(first.alerted, [], false)) == TaskState(first.alerted, [], false)
  {
    var first := Scan(Flatten(data), TaskState(alerted, [], false));
    NoneFireAfterScan(Flatten(data), TaskState(alerted, [], false));
    QuietScan(Flatten(data), TaskState(first.alerted, [], false));
  }

  /** For an order with an id and every quantity given, the two scanners
      decide alike on the same alerted ids. */
  lemma FiresLikeTrackerScan(order: Order, tracker: seq<Value>)
    requires PyTruthy(order.orderId)
    requires forall k :: 0 <= k < |order.items| ==> order.items[k].quantity.Some?
    ensures Fires(order, set v | v in tracker) <==> ExplosivesScanner.Fires(order, tracker)
  {
    ScannerCountsDiffer(order.items);
  }

  /** For the user of a decimal ledger key, the two scanners' alerts agree
      up to their final characters, which differ: this one ends in the
      mis-decoded bytes of the collision emoji, the other in the emoji. */
  lemma MentionsAgree(u: UserId)
    ensures ParseInt(IntToString(u)) == Some(u)
    ensures var here := AlertText(Mention(u), AlertEnding);
      var there := AlertText(ExplosivesScanner.GetPlayerMention(IntToString(u)), ExplosivesScanner.AlertEnding);
      here != there && here[..|here| - |AlertEnding|] == there[..|there| - |ExplosivesScanner.AlertEnding|]
  {
    ParseIntOfIntToString(u);
    ExplosivesScanner.KeyMentionIsUserMention(u);
    var here := AlertText(Mention(u), AlertEnding);
    assert here[|here| - 1] != ExplosivesScanner.AlertEnding[0];
  }
}
