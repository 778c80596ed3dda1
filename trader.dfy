/** The buy menu: catalog lookups, the category/item/variant selects, and the
    add, view-cart and confirm-purchase buttons of `TraderView`. */
module Trader {
  import opened Wrappers
  import opened Text
  import opened Numerals
  import opened Dicts
  import opened Json
  import opened Catalog
  import opened Users
  import opened SessionManager
  import VariantUtils
  import OrderUtils

  /** `get_items_in_category(category)`: the category's items in catalog
      order; none for an unknown category. */
  function GetItemsInCategory(data: PriceData, category: string): (r: seq<string>)
    ensures !HasKey(data, category) ==> r == []
    ensures HasKey(data, category) ==>
      var items := Get(data, category).value;
      |r| == |items| && forall j :: 0 <= j < |r| ==> r[j] == items[j].0
  {
    Keys(Get(data, category).GetOr([]))
  }

  /** What `get_price` gives: a price, `None`, or the `KeyError` that
      `PRICE_DATA[category][item]` raises for a name not in the catalog. */
  datatype PriceLookup = Found(price: int) | NoPrice | KeyError

  /** The catalog holds `item` under `category`. */
  predicate InCatalog(data: PriceData, category: string, item: string)
  {
    HasKey(data, category) && HasKey(Get(data, category).value, item)
  }

  /** The catalog entry of an item that is in the catalog. */
  function EntryOf(data: PriceData, category: string, item: string): ItemEntry
    requires InCatalog(data, category, item)
  {
    Get(Get(data, category).value, item).value
  }

  /** `get_price(category, item, variant)`: for a variant map, the variant's
      price looked up exactly as written (case matters); for a single price,
      that price when the variant is `default` in any case. */
  function GetPrice(data: PriceData, category: string, item: string, variant: string): (r: PriceLookup)
    ensures r.KeyError? <==> !InCatalog(data, category, item)
    ensures InCatalog(data, category, item) && EntryOf(data, category, item).Variants? ==>
      var ps := EntryOf(data, category, item).prices;
      (r.Found? <==> HasKey(ps, variant)) && (r.Found? ==> Get(ps, variant) == Some(r.price))
    ensures InCatalog(data, category, item) && EntryOf(data, category, item).Price? ==>
      (r.Found? <==> Lower(variant) == "default")
      && (r.Found? ==> r.price == EntryOf(data, category, item).amount)
  {
    if !InCatalog(data, category, item) then KeyError
    else match EntryOf(data, category, item)
      case Variants(ps) =>
        (match Get(ps, variant)
         case Some(p) => Found(p)
         case None => NoPrice)
      case Price(p) => if Lower(variant) == "default" then Found(p) else NoPrice
  }

  /** The buy menu prices a selection exactly as the order-text parser does:
      the same price, and a `KeyError` where the parser reports an unknown
      category or item. */
  lemma GetPriceAgreesWithParser(data: PriceData, category: string, item: string, variant: string)
    ensures forall p :: (GetPrice(data, category, item, variant) == Found(p)
                         <==> OrderUtils.LookupPrice(data, category, item, variant) == Wrappers.Ok(p))
    ensures GetPrice(data, category, item, variant).KeyError?
      <==> (OrderUtils.LookupPrice(data, category, item, variant).Err?
            && (OrderUtils.LookupPrice(data, category, item, variant).error.UnknownCategory?
                || OrderUtils.LookupPrice(data, category, item, variant).error.UnknownItem?))
  {
  }

  /** The variants the item select offers: `get_variants` of the item's
      catalog value. */
  function VariantOptions(data: PriceData, category: string, item: string): (r: seq<string>)
    ensures InCatalog(data, category, item) && EntryOf(data, category, item).Price? ==> r == ["Default"]
    ensures InCatalog(data, category, item) && EntryOf(data, category, item).Variants? ==>
      r == Keys(EntryOf(data, category, item).prices)
  {
    var r := VariantUtils.GetVariants(LookupValue(data, category, item));
    assert InCatalog(data, category, item) && EntryOf(data, category, item).Variants? ==>
      r == Keys(EntryOf(data, category, item).prices) by {
      if InCatalog(data, category, item) && EntryOf(data, category, item).Variants? {
        VariantKeysOfEntry(EntryOf(data, category, item).prices);
      }
    }
    r
  }

  /** An item listed by the item select never makes `get_price` raise. */
  lemma ListedItemsAreInCatalog(data: PriceData, category: string, j: nat)
    requires j < |GetItemsInCategory(data, category)|
    ensures InCatalog(data, category, GetItemsInCategory(data, category)[j])
  {
    var items := Get(data, category).value;
    assert items[j].0 == GetItemsInCategory(data, category)[j];
  }

  /** Every variant the variant select offers has a price, so "Invalid
      variant selected." cannot follow a choice made from the menus. */
  lemma OfferedVariantsArePriced(data: PriceData, category: string, item: string, j: nat)
    requires InCatalog(data, category, item)
    requires j < |VariantOptions(data, category, item)|
    ensures GetPrice(data, category, item, VariantOptions(data, category, item)[j]).Found?
  {
    match EntryOf(data, category, item)
    case Variants(ps) =>
      assert VariantOptions(data, category, item)[j] == ps[j].0;
    case Price(_) =>
      assert Lower("Default") == "default";
  }

  // ------------------------------------------------------------ the cart

  /** A buy-cart line as the cart views read it: `quantity`, `item`,
      `variant` and `price`. */
  datatype TraderLine = TraderLine(quantity: int, item: string, variant: string, price: int)

  /** `sum(item['quantity'] * item['price'] for item in cart)`. */
  function TraderTotal(cart: seq<TraderLine>): int
    decreases |cart|
  {
    if cart == [] then 0
    else TraderTotal(cart[..|cart| - 1]) + cart[|cart| - 1].quantity * cart[|cart| - 1].price
  }

  /** The total of two carts put together is the sum of their totals. */
  lemma {:induction false} TraderTotalConcat(a: seq<TraderLine>, b: seq<TraderLine>)
    ensures TraderTotal(a + b) == TraderTotal(a) + TraderTotal(b)
    decreases |b|
  {
    if b == [] {
      assert a + b == a;
    } else {
      assert (a + b)[..|a + b| - 1] == a + b[..|b| - 1];
      TraderTotalConcat(a, b[..|b| - 1]);
    }
  }

  function TraderLineText(l: TraderLine): string
  {
    IntToString(l.quantity) + "x " + l.item + " (" + l.variant + ") - " + IntToString(l.price) + " coins each"
  }

  /** The cart listing: one line per cart line, joined by newlines. */
  function CartDetails(cart: seq<TraderLine>): string
  {
    Join(seq(|cart|, k requires 0 <= k < |cart| => TraderLineText(cart[k])), "\n")
  }

  function TotalText(total: int): string
  {
    "**Total: " + IntToString(total) + " coins**"
  }

  /** What a handler of the buy menu answers. */
  datatype Outcome =
    | NotYourSession
    | SessionExpired
    | CategoriesShown(categories: seq<string>)
    | InvalidVariant
    | Crashed
    | CartEmpty
    | CartShown(text: string, total: int)
    | PurchasePosted(orderText: string, total: int)

  /** `VariantSelect.callback`: a variant without a price is refused. Any
      other variant reaches `session_manager.add_item(self.user_id, category,
      item, variant, price)`, which fails before it can store anything: the
      select has no `user_id`, and the store's `add_item` takes two
      arguments, not five. So no choice ever changes the cart. */
  function VariantChosen(data: PriceData, category: string, item: string, variant: string): (o: Outcome)
    ensures o == InvalidVariant <==> GetPrice(data, category, item, variant).NoPrice?
    ensures o != InvalidVariant ==> o == Crashed
  {
    match GetPrice(data, category, item, variant)
    case NoPrice => InvalidVariant
    case _ => Crashed
  }

  /** Through the menus, choosing a variant never gives "Invalid variant
      selected.", so every such choice ends in the failing `add_item` call. */
  lemma MenuChoiceNeverAddsToCart(data: PriceData, category: string, j: nat, k: nat)
    requires j < |GetItemsInCategory(data, category)|
    requires k < |VariantOptions(data, category, GetItemsInCategory(data, category)[j])|
    ensures var item := GetItemsInCategory(data, category)[j];
      VariantChosen(data, category, item, VariantOptions(data, category, item)[k]) == Crashed
  {
    var item := GetItemsInCategory(data, category)[j];
    ListedItemsAreInCatalog(data, category, j);
    OfferedVariantsArePriced(data, category, item, k);
  }

  /** `TraderView`: one user's buy menu. `get_cart` and `is_session_active`,
      which the session store does not define, are passed in as the cart the
      handler reads and whether the session is active. */
  class TraderView {
    const data: PriceData
    const store: SessionStore<TraderLine>
    const userId: UserId

    constructor(data: PriceData, store: SessionStore<TraderLine>, userId: UserId)
      ensures this.data == data && this.store == store && this.userId == userId
    {
      this.data := data;
      this.store := store;
      this.userId := userId;
    }

    /** `add_item` (the button): the owner of an active session is shown the
        categories; an inactive session is cleared. */
    method AddItem(actor: UserId, active: bool) returns (o: Outcome)
      modifies store
      ensures actor != userId ==> o == NotYourSession && store.cache == old(store.cache)
      ensures actor == userId && !active ==> o == SessionExpired && store.cache == Clear(old(store.cache), userId)
      ensures actor == userId && active ==> o == CategoriesShown(Keys(data)) && store.cache == old(store.cache)
    {
      if actor != userId {
        return NotYourSession;
      }
      if !active {
        store.ClearSession(userId);
        return SessionExpired;
      }
      o := CategoriesShown(Keys(data));
    }

    /** `view_cart`: the listing and its total, for the owner of a
        non-empty cart; nothing changes. */
    method ViewCart(actor: UserId, cart: seq<TraderLine>) returns (o: Outcome)
      ensures actor != userId ==> o == NotYourSession
      ensures actor == userId && cart == [] ==> o == CartEmpty
      ensures actor == userId && cart != [] ==>
        && o.CartShown? && o.total == TraderTotal(cart)
        && o.text == "**Your Cart:**\n" + CartDetails(cart) + "\n\n" + TotalText(o.total)
    {
      if actor != userId {
        return NotYourSession;
      }
      if cart == [] {
        return CartEmpty;
      }
      var totalCost := TraderTotal(cart);
      o := CartShown("**Your Cart:**\n" + CartDetails(cart) + "\n\n" + TotalText(totalCost), totalCost);
    }

    /** `confirm_purchase`: the order is posted with its total and the
        session is cleared. Without the orders channel, `send` is called on
        `None` and fails before the session is cleared. */
    method ConfirmPurchase(actor: UserId, cart: seq<TraderLine>, channelFound: bool) returns (o: Outcome)
      modifies store
      ensures actor != userId ==> o == NotYourSession && store.cache == old(store.cache)
      ensures actor == userId && cart == [] ==> o == CartEmpty && store.cache == old(store.cache)
      ensures actor == userId && cart != [] && !channelFound ==> o == Crashed && store.cache == old(store.cache)
      ensures actor == userId && cart != [] && channelFound ==>
        && o.PurchasePosted? && o.total == TraderTotal(cart)
        && o.orderText == "**New Purchase Order from " + Mention(userId) + ":**\n" + CartDetails(cart) + "\n\n" + TotalText(o.total)
        && store.cache == Clear(old(store.cache), userId)
    {
      if actor != userId {
        return NotYourSession;
      }
      if cart == [] {
        return CartEmpty;
      }
      var totalCost := TraderTotal(cart);
      if !channelFound {
        return Crashed;
      }
      var orderText := "**New Purchase Order from " + Mention(userId) + ":**\n" + CartDetails(cart) + "\n\n" + TotalText(totalCost);
      store.ClearSession(userId);
      o := PurchasePosted(orderText, totalCost);
    }
  }
}
