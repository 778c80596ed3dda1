/** `/paytrader`: a player reports payment for their confirmed order, which
    turns the order's ledger record from confirmed to paid. */
module PayTrader {
  import opened Wrappers
  import opened Json
  import opened Numerals
  import opened Users

  /** One record of the order ledger, keyed by the player's id as text.
      `confirmed` and `paid` are read for their truth value. */
  datatype OrderRecord = OrderRecord(
    confirmed: Value,
    paid: Value,
    confirmedBy: string,
    total: Value,
    paymentMessageId: Option<int>)

  /** The ledger: `orders[str(user_id)]` is one record. */
  type Orders = map<string, OrderRecord>

  /** The ledger key of a player: `str(interaction.user.id)`. */
  function LedgerKey(user: UserId): string
  {
    IntToString(user)
  }

  /** The player has a record that is confirmed and not yet paid. */
  predicate HasUnpaidConfirmed(orders: Orders, key: string)
  {
    key in orders && PyTruthy(orders[key].confirmed) && !PyTruthy(orders[key].paid)
  }

  /** Every paid record is also confirmed. */
  predicate PaidOnlyIfConfirmed(orders: Orders)
  {
    forall k | k in orders :: PyTruthy(orders[k].paid) ==> PyTruthy(orders[k].confirmed)
  }

  /** The ledger update of a successful payment report: the player's record
      becomes paid and remembers the notice's message id; nothing else in
      the ledger changes. Paying again is then refused, and paid records
      stay confirmed. */
  function MarkPaid(orders: Orders, key: string, messageId: int): (r: Orders)
    requires HasUnpaidConfirmed(orders, key)
    ensures r.Keys == orders.Keys
    ensures forall k | k in orders && k != key :: r[k] == orders[k]
    ensures && r[key].confirmed == orders[key].confirmed
            && r[key].confirmedBy == orders[key].confirmedBy
            && r[key].total == orders[key].total
    ensures PyTruthy(r[key].paid) && r[key].paymentMessageId == Some(messageId)
    ensures !HasUnpaidConfirmed(r, key)
    ensures PaidOnlyIfConfirmed(orders) ==> PaidOnlyIfConfirmed(r)
  {
    orders[key := orders[key].(paid := Bool(true), paymentMessageId := Some(messageId))]
  }

  /** The notice posted to the trader-orders channel. */
  function PaymentNotice(adminId: string, player: UserId): string
  {
    "<@" + adminId + "> payment has been sent from " + Mention(player) + " for their trader order."
  }

  /** What the command answers. */
  datatype Outcome =
    | WrongChannel
    | NoUnpaidOrder
    | Crashed
    | PaymentSent(notice: string)

  /** The command's decision on a ledger, without its effect: which outcome
      a player gets. */
  function PayOutcome(orders: Orders, channelId: int, economyChannelId: int, user: UserId,
                      traderChannelFound: bool): (o: Outcome)
    ensures channelId != economyChannelId ==> o == WrongChannel
    ensures channelId == economyChannelId && !HasUnpaidConfirmed(orders, LedgerKey(user)) ==> o == NoUnpaidOrder
    ensures o.PaymentSent? <==>
      channelId == economyChannelId && HasUnpaidConfirmed(orders, LedgerKey(user)) && traderChannelFound
    ensures o.PaymentSent? ==> o.notice == PaymentNotice(orders[LedgerKey(user)].confirmedBy, user)
  {
    var key := LedgerKey(user);
    if channelId != economyChannelId then WrongChannel
    else if !HasUnpaidConfirmed(orders, key) then NoUnpaidOrder
    else if !traderChannelFound then Crashed
    else PaymentSent(PaymentNotice(orders[key].confirmedBy, user))
  }

  /** A second report right after a successful one is refused. */
  lemma {:induction false} SecondPaymentRefused(orders: Orders, economyChannelId: int, user: UserId,
                                                found: bool, messageId: int)
    requires PayOutcome(orders, economyChannelId, economyChannelId, user, true).PaymentSent?
    ensures PayOutcome(MarkPaid(orders, LedgerKey(user), messageId), economyChannelId, economyChannelId, user, found)
      == NoUnpaidOrder
  {
    assert HasUnpaidConfirmed(orders, LedgerKey(user));
    assert !HasUnpaidConfirmed(MarkPaid(orders, LedgerKey(user), messageId), LedgerKey(user));
  }

  /** The command with the ledger it loads and saves. The trader-orders
      channel lookup and the id of the posted notice are passed in. */
  class PayTraderCommand {
    var orders: Orders

    constructor(orders: Orders)
      ensures this.orders == orders
    {
      this.orders := orders;
    }

    /** `paytrader`: outside the economy channel, or without a confirmed
        unpaid record, nothing changes. Otherwise the notice is posted and
        the record is marked paid. Without the trader-orders channel, `send`
        is called on `None` and fails before the ledger is saved. */
    method Pay(channelId: int, economyChannelId: int, user: UserId,
               traderChannelFound: bool, messageId: int) returns (o: Outcome)
      modifies this
      ensures o == PayOutcome(old(orders), channelId, economyChannelId, user, traderChannelFound)
      ensures o.PaymentSent? ==> orders == MarkPaid(old(orders), LedgerKey(user), messageId)
      ensures !o.PaymentSent? ==> orders == old(orders)
      ensures PaidOnlyIfConfirmed(old(orders)) ==> PaidOnlyIfConfirmed(orders)
    {
      if channelId != economyChannelId {
        return WrongChannel;
      }
      var userKey := IntToString(user);
      if !(userKey in orders) || !PyTruthy(orders[userKey].confirmed) || PyTruthy(orders[userKey].paid) {
        return NoUnpaidOrder;
      }
      var adminId := orders[userKey].confirmedBy;
      if !traderChannelFound {
        return Crashed;
      }
      var notice := PaymentNotice(adminId, user);
      var record := orders[userKey];
      orders := orders[userKey := record.(paid := Bool(true), paymentMessageId := Some(messageId))];
      o := PaymentSent(notice);
    }
  }
}
