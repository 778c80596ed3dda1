/** The sell menu: the sell-side price check, the variant matcher, the
    quantity modal that builds a cart line, and the submit and cancel buttons
    of `SellTraderView`. */
module SellTrader {
  import opened Wrappers
  import opened Text
  import opened Numerals
  import opened Dicts
  import opened Catalog
  import opened Users
  import opened SessionManager
  import OrderUtils
  import Trader
  import VariantUtils

  /** Whether the sell menu's `get_price` gives a price, and which catalog
      price it starts from (its float division is not modelled). A variant
      map's price is checked for truth, so a price of 0 counts as none; a
      single price is used for `default` in any case, 0 included. */
  function SellBasePrice(data: PriceData, category: string, item: string, variant: string): (r: Trader.PriceLookup)
    ensures r.KeyError? <==> !Trader.InCatalog(data, category, item)
  {
    if !Trader.InCatalog(data, category, item) then Trader.KeyError
    else match Trader.EntryOf(data, category, item)
      case Variants(ps) =>
        (match Get(ps, variant)
         case Some(p) => if p != 0 then Trader.Found(p) else Trader.NoPrice
         case None => Trader.NoPrice)
      case Price(p) => if Lower(variant) == "default" then Trader.Found(p) else Trader.NoPrice
  }

  /** The sell menu's price check differs from the buy menu's in one case
      only: a variant priced 0, which the sell menu treats as unpriced. */
  lemma SellBaseVersusBuyPrice(data: PriceData, category: string, item: string, variant: string)
    ensures SellBasePrice(data, category, item, variant) != Trader.GetPrice(data, category, item, variant)
      <==> (&& Trader.InCatalog(data, category, item)
            && Trader.EntryOf(data, category, item).Variants?
            && Trader.GetPrice(data, category, item, variant) == Trader.Found(0))
    ensures SellBasePrice(data, category, item, variant).Found? ==>
      SellBasePrice(data, category, item, variant) == Trader.GetPrice(data, category, item, variant)
  {
  }

  /** Some variant equals `chosen` once both are lower-cased. */
  predicate HasCaseMatch(variants: seq<string>, chosen: string)
  {
    exists i | 0 <= i < |variants| :: Lower(variants[i]) == Lower(chosen)
  }

  /** `next((v for v in variants if v.lower() == chosen.lower()), chosen)`:
      the first variant equal to the choice up to case, else the choice. */
  function MatchVariant(variants: seq<string>, chosen: string): (r: string)
    ensures Lower(r) == Lower(chosen)
    ensures !HasCaseMatch(variants, chosen) ==> r == chosen
    ensures HasCaseMatch(variants, chosen) ==>
      exists i | 0 <= i < |variants| :: variants[i] == r
        && forall j | 0 <= j < i :: Lower(variants[j]) != Lower(chosen)
    decreases |variants|
  {
    if variants == [] then chosen
    else if Lower(variants[0]) == Lower(chosen) then variants[0]
    else
      var r := MatchVariant(variants[1..], chosen);
      assert HasCaseMatch(variants, chosen) ==> HasCaseMatch(variants[1..], chosen) by {
        if HasCaseMatch(variants, chosen) {
          var i :| 0 <= i < |variants| && Lower(variants[i]) == Lower(chosen);
          assert i > 0 && variants[1..][i - 1] == variants[i];
        }
      }
      assert HasCaseMatch(variants[1..], chosen) ==>
        exists i | 0 <= i < |variants| :: variants[i] == r
          && forall j | 0 <= j < i :: Lower(variants[j]) != Lower(chosen) by {
        if HasCaseMatch(variants[1..], chosen) {
          var i :| 0 <= i < |variants| - 1 && variants[1..][i] == r
            && forall j | 0 <= j < i :: Lower(variants[1..][j]) != Lower(chosen);
          assert variants[i + 1] == r;
          forall j | 0 <= j < i + 1 ensures Lower(variants[j]) != Lower(chosen) {
            if j > 0 {
              assert variants[j] == variants[1..][j - 1];
            }
          }
        }
      }
      r
  }

  /** The matched variant is one of the catalog's exactly when the choice
      passes `variant_exists`. */
  lemma MatchVariantIffVariantExists(variants: seq<string>, chosen: string)
    requires chosen != []
    ensures MatchVariant(variants, chosen) in variants <==> VariantUtils.VariantExists(variants, Some(chosen))
  {
    var r := MatchVariant(variants, chosen);
    if r in variants {
      var i :| 0 <= i < |variants| && variants[i] == r;
      assert Lower(variants[i]) == Lower(chosen);
    }
  }

  /** What `ItemSelect.callback` shows next. */
  datatype ItemStep = QuantityModalFor(variant: string) | VariantMenu(options: seq<string>)

  /** `ItemSelect.callback`: an item whose only variant is `"Default"` goes
      straight to the quantity modal with `"Default"`; any other item first
      gets a variant select. */
  function ItemChosen(data: PriceData, category: string, item: string): (s: ItemStep)
    ensures s.QuantityModalFor? <==> Trader.VariantOptions(data, category, item) == ["Default"]
    ensures s.QuantityModalFor? ==> s.variant == "Default"
    ensures s.VariantMenu? ==> s.options == Trader.VariantOptions(data, category, item)
  {
    var variants := Trader.VariantOptions(data, category, item);
    if variants == ["Default"] then QuantityModalFor("Default") else VariantMenu(variants)
  }

  /** An item with a single price skips the variant step; so does one whose
      only variant is named `"Default"`. */
  lemma SinglePriceSkipsVariantMenu(data: PriceData, category: string, item: string)
    requires Trader.InCatalog(data, category, item)
    requires Trader.EntryOf(data, category, item).Price?
      || Keys(Trader.EntryOf(data, category, item).prices) == ["Default"]
    ensures ItemChosen(data, category, item) == QuantityModalFor("Default")
  {
  }

  // ----------------------------------------------------------- the cart

  /** The sum of `price * quantity` over the lines. */
  function PriceTimesQuantity(items: seq<OrderUtils.ParsedItem>): int
    decreases |items|
  {
    if items == [] then 0
    else PriceTimesQuantity(items[..|items| - 1]) + items[|items| - 1].price * items[|items| - 1].quantity
  }

  /** For lines built by the quantity modal, the total owed (the sum of the
      subtotals) is the sum of price times quantity. */
  lemma {:induction false} TotalOwedIsPriceTimesQuantity(items: seq<OrderUtils.ParsedItem>)
    requires forall k :: 0 <= k < |items| ==> items[k].subtotal == items[k].price * items[k].quantity
    ensures OrderUtils.SumSubtotals(items) == PriceTimesQuantity(items)
    decreases |items|
  {
    if items != [] {
      TotalOwedIsPriceTimesQuantity(items[..|items| - 1]);
    }
  }

  /** The summary line of one cart line, with the subtotal grouped by commas. */
  function SellLineText(it: OrderUtils.ParsedItem): string
  {
    "- " + it.item + " (" + it.variant + ") x" + IntToString(it.quantity) + " = $" + GroupedInt(it.subtotal) + "\n"
  }

  /** The summary lines of the cart, in order. */
  function SellLinesText(items: seq<OrderUtils.ParsedItem>): string
    decreases |items|
  {
    if items == [] then [] else SellLinesText(items[..|items| - 1]) + SellLineText(items[|items| - 1])
  }

  function SummaryHeader(seller: UserId): string
  {
    Mention(seller) + " would like to sell the following items:\n"
  }

  /** The summary loop of `submit_order`: a header, one line per cart line,
      and the total owed. */
  method SellSummary(seller: UserId, items: seq<OrderUtils.ParsedItem>, total: int) returns (summary: string)
    ensures summary == SummaryHeader(seller) + SellLinesText(items) + "**Total Owed: $" + GroupedInt(total) + "**"
  {
    var lines := "";
    var k := 0;
    while k < |items|
      invariant 0 <= k <= |items|
      invariant lines == SellLinesText(items[..k])
    {
      lines := lines + SellLineText(items[k]);
      assert items[..k + 1][..k] == items[..k];
      k := k + 1;
    }
    assert items[..k] == items;
    summary := SummaryHeader(seller) + lines + "**Total Owed: $" + GroupedInt(total) + "**";
  }

  /** The payout command posted after the summary. */
  function GiveCommand(seller: UserId, total: int): string
  {
    "give user:" + IntToString(seller) + " amount:" + IntToString(total) + " account:cash"
  }

  /** What a handler of the sell menu answers. */
  datatype Outcome =
    | NotYourSession
    | SessionExpired
    | CategoriesShown(categories: seq<string>)
    | InvalidQuantity
    | Crashed
    | ItemAdded(line: OrderUtils.ParsedItem)
    | CartEmpty
    | OrderSubmitted(message: string, giveCommand: string, total: int)
    | OrderCanceled

  /** The line the modal adds, or why it adds none: the quantity must be a
      positive integer, the variant is matched against the catalog's up to
      case, and the matched variant must have a sell price. `sellPrice`
      stands for `round(base_price / 3)`. */
  function SellLine(data: PriceData, category: string, item: string, variant: string,
                    text: string, sellPrice: nat): (r: Result<OrderUtils.ParsedItem, Outcome>)
    ensures PositiveQuantity(text).None? ==> r == Err(InvalidQuantity)
    ensures r.Err? ==> r.error == InvalidQuantity || r.error == Crashed
    ensures r.Ok? ==>
      && PositiveQuantity(text) == Some(r.value.quantity)
      && r.value.category == category && r.value.item == item
      && r.value.variant == MatchVariant(Trader.VariantOptions(data, category, item), variant)
      && SellBasePrice(data, category, item, r.value.variant).Found?
      && r.value.price == sellPrice && r.value.subtotal == sellPrice * r.value.quantity
    ensures PositiveQuantity(text).Some? ==>
      var base := SellBasePrice(data, category, item, MatchVariant(Trader.VariantOptions(data, category, item), variant));
      (r.Ok? <==> base.Found?) && (r == Err(Crashed) <==> base.KeyError?)
  {
    match PositiveQuantity(text)
    case None => Err(InvalidQuantity)
    case Some(quantity) =>
      var matched := MatchVariant(Trader.VariantOptions(data, category, item), variant);
      match SellBasePrice(data, category, item, matched)
      case KeyError => Err(Crashed)
      case NoPrice => Err(InvalidQuantity)
      case Found(_) => Ok(OrderUtils.ParsedItem(category, item, matched, quantity, sellPrice, sellPrice * quantity))
  }

  /** `SellQuantityModal`: the quantity form for one chosen item. */
  class SellQuantityModal {
    const data: PriceData
    const store: SessionStore<OrderUtils.ParsedItem>
    const userId: UserId
    const category: string
    const item: string
    var variant: string

    constructor(data: PriceData, store: SessionStore<OrderUtils.ParsedItem>, userId: UserId,
                category: string, item: string, variant: string)
      ensures this.data == data && this.store == store && this.userId == userId
      ensures this.category == category && this.item == item && this.variant == variant
    {
      this.data := data;
      this.store := store;
      this.userId := userId;
      this.category := category;
      this.item := item;
      this.variant := variant;
    }

    /** `on_submit`: an inactive session is cleared; otherwise the line of
        `SellLine` is appended to the user's cart and the modal keeps the
        matched variant. Errors leave the cart as it was. */
    method OnSubmit(active: bool, text: string, sellPrice: nat) returns (o: Outcome)
      modifies this, store
      ensures !active ==> o == SessionExpired && store.cache == Clear(old(store.cache), userId) && variant == old(variant)
      ensures active ==>
        var r := SellLine(data, category, item, old(variant), text, sellPrice);
        && (r.Err? ==> o == r.error && store.cache == old(store.cache) && variant == old(variant))
        && (r.Ok? ==> o == ItemAdded(r.value) && store.cache == Add(old(store.cache), userId, r.value)
                      && variant == r.value.variant)
    {
      if !active {
        store.ClearSession(userId);
        return SessionExpired;
      }
      var quantity := ParseInt(text);
      if quantity.None? || quantity.value <= 0 {
        return InvalidQuantity;
      }
      var variants := Trader.VariantOptions(data, category, item);
      var matchedVariant := MatchVariant(variants, variant);
      var basePrice := SellBasePrice(data, category, item, matchedVariant);
      if basePrice.KeyError? {
        return Crashed;
      }
      if basePrice.NoPrice? {
        return InvalidQuantity;
      }
      var subtotal := sellPrice * quantity.value;
      variant := matchedVariant;
      var line := OrderUtils.ParsedItem(category, item, variant, quantity.value, sellPrice, subtotal);
      store.AddItem(userId, line);
      o := ItemAdded(line);
    }
  }

  /** `SellTraderView`: one user's sell menu. `is_session_active`, which the
      session store does not define, is passed in. */
  class SellTraderView {
    const data: PriceData
    const store: SessionStore<OrderUtils.ParsedItem>
    const userId: UserId

    constructor(data: PriceData, store: SessionStore<OrderUtils.ParsedItem>, userId: UserId)
      ensures this.data == data && this.store == store && this.userId == userId
    {
      this.data := data;
      this.store := store;
      this.userId := userId;
    }

    /** `add_item` (the button): the owner of an active session is shown the
        categories; an inactive session is cleared. */
    method AddItem(actor: UserId, active: bool) returns (o: Outcome)
      modifies store
      ensures actor != userId ==> o == NotYourSession && store.cache == old(store.cache)
      ensures actor == userId && !active ==> o == SessionExpired && store.cache == Clear(old(store.cache), userId)
      ensures actor == userId && active ==> o == CategoriesShown(Keys(data)) && store.cache == old(store.cache)
    {
      if actor != userId {
        return NotYourSession;
      }
      if !active {
        store.ClearSession(userId);
        return SessionExpired;
      }
      o := CategoriesShown(Keys(data));
    }

    /** `submit_order`: an empty cart is refused; otherwise the summary and
        the payout command are posted, for the sum of the subtotals, and the
        session is cleared. Without the orders channel, `send` is called on
        `None` and fails before the session is cleared. */
    method SubmitOrder(actor: UserId, active: bool, channelFound: bool, mentionRoles: string) returns (o: Outcome)
      modifies store
      ensures actor != userId ==> o == NotYourSession && store.cache == old(store.cache)
      ensures actor == userId && !active ==> o == SessionExpired && store.cache == Clear(old(store.cache), userId)
      ensures actor == userId && active && Items(old(store.cache), userId) == [] ==>
        o == CartEmpty && store.cache == old(store.cache)
      ensures actor == userId && active && Items(old(store.cache), userId) != [] && !channelFound ==>
        o == Crashed && store.cache == old(store.cache)
      ensures actor == userId && active && Items(old(store.cache), userId) != [] && channelFound ==>
        var items := Items(old(store.cache), userId);
        && o.OrderSubmitted? && o.total == OrderUtils.SumSubtotals(items)
        && o.message == SummaryHeader(actor) + SellLinesText(items) + "**Total Owed: $" + GroupedInt(o.total) + "**"
                        + "\n\n" + mentionRoles
        && o.giveCommand == GiveCommand(actor, o.total)
        && store.cache == Clear(old(store.cache), userId)
    {
      if actor != userId {
        return NotYourSession;
      }
      if !active {
        store.ClearSession(userId);
        return SessionExpired;
      }
      var items := store.GetSessionItems(userId);
      if items == [] {
        return CartEmpty;
      }
      var total := OrderUtils.SumSubtotals(items);
      var summary := SellSummary(actor, items, total);
      if !channelFound {
        return Crashed;
      }
      var message := summary + "\n\n" + mentionRoles;
      var give := "give user:" + IntToString(actor) + " amount:" + IntToString(total) + " account:cash";
      store.ClearSession(userId);
      o := OrderSubmitted(message, give, total);
    }

    /** `cancel_order`: the owner's session is cleared, active or not. */
    method CancelOrder(actor: UserId) returns (o: Outcome)
      modifies store
      ensures actor != userId ==> o == NotYourSession && store.cache == old(store.cache)
      ensures actor == userId ==> o == OrderCanceled && store.cache == Clear(old(store.cache), userId)
    {
      if actor != userId {
        return NotYourSession;
      }
      store.ClearSession(userId);
      o := OrderCanceled;
    }
  }
}
