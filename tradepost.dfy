/** The trade-post menu: its catalog helpers, the cart summary, the selection
    state kept by the dropdowns, and the submit, remove and cancel buttons. */
module TradePost {
  import opened Wrappers
  import opened Text
  import opened Numerals
  import opened Dicts
  import opened Json
  import opened Users
  import opened SessionManager

  /** The `categories` object of the trade-post catalog: category -> item ->
      the item's JSON value (normally a map from variant to price). */
  type TpData = Dict<Dict<Value>>

  // ------------------------------------------------------ catalog helpers

  /** `tp_get_categories()`. */
  function TpGetCategories(data: TpData): (r: seq<string>)
    ensures |r| == |data|
    ensures forall c :: c in r <==> HasKey(data, c)
  {
    var r := Keys(data);
    assert forall c :: c in r ==> HasKey(data, c);
    assert forall c :: HasKey(data, c) ==> c in r by {
      forall c | HasKey(data, c) ensures c in r {
        var i :| 0 <= i < |data| && data[i].0 == c;
        assert r[i] == c;
      }
    }
    r
  }

  /** Some entry of `sub` has key `k` and a dict as its value. */
  predicate IsDictEntry(sub: Dict<Value>, k: string)
  {
    exists i | 0 <= i < |sub| :: sub[i].0 == k && sub[i].1.Object?
  }

  /** `[k for k, v in sub.items() if isinstance(v, dict)]`. */
  function DictEntries(sub: Dict<Value>): (r: seq<string>)
    ensures |r| <= |sub|
    ensures forall k :: k in r <==> IsDictEntry(sub, k)
    decreases |sub|
  {
    if sub == [] then []
    else
      var rest := DictEntries(sub[1..]);
      assert forall k :: IsDictEntry(sub[1..], k) ==> IsDictEntry(sub, k) by {
        forall k | IsDictEntry(sub[1..], k) ensures IsDictEntry(sub, k) {
          var i :| 0 <= i < |sub| - 1 && sub[1..][i].0 == k && sub[1..][i].1.Object?;
          assert sub[i + 1] == sub[1..][i];
        }
      }
      assert forall k :: IsDictEntry(sub, k) && k != sub[0].0 ==> IsDictEntry(sub[1..], k) by {
        forall k | IsDictEntry(sub, k) && k != sub[0].0 ensures IsDictEntry(sub[1..], k) {
          var i :| 0 <= i < |sub| && sub[i].0 == k && sub[i].1.Object?;
          assert i > 0 && sub[1..][i - 1] == sub[i];
        }
      }
      (if sub[0].1.Object? then [sub[0].0] else []) + rest
  }

  /** The kept keys are in the sub-dictionary's order: keeping distributes
      over putting two runs of entries one after the other. */
  lemma {:induction false} DictEntriesConcat(a: Dict<Value>, b: Dict<Value>)
    ensures DictEntries(a + b) == DictEntries(a) + DictEntries(b)
    decreases |a|
  {
    if a != [] {
      assert (a + b)[0] == a[0];
      assert (a + b)[1..] == a[1..] + b;
      DictEntriesConcat(a[1..], b);
    } else {
      assert a + b == b;
    }
  }

  /** A single entry is kept exactly when its value is a dict. */
  lemma DictEntriesOfOne(k: string, v: Value)
    ensures DictEntries([(k, v)]) == if v.Object? then [k] else []
  {
    assert [(k, v)][1..] == [];
  }

  /** `tp_get_items(category)`: the items of the category whose value is a
      dict; none for an unknown category. */
  function TpGetItems(data: TpData, category: string): (r: seq<string>)
    ensures !HasKey(data, category) ==> r == []
    ensures HasKey(data, category) ==> forall k :: k in r <==> IsDictEntry(Get(data, category).value, k)
  {
    DictEntries(Get(data, category).GetOr([]))
  }

  /** `tp_get_item_data(category, item)`: `{}` when either is missing (a
      selection not made yet is `None`, which is no key of the catalog). */
  function TpGetItemData(data: TpData, category: Option<string>, item: Option<string>): (r: Value)
    ensures category.None? || item.None? ==> r == Object([])
    ensures r != Object([]) ==>
      && category.Some? && item.Some? && HasKey(data, category.value)
      && Get(Get(data, category.value).value, item.value) == Some(r)
    ensures (&& category.Some? && item.Some? && HasKey(data, category.value)
             && HasKey(Get(data, category.value).value, item.value))
      ==> Get(Get(data, category.value).value, item.value) == Some(r)
  {
    match (category, item)
    case (Some(c), Some(i)) => Get(Get(data, c).GetOr([]), i).GetOr(Object([]))
    case _ => Object([])
  }

  /** `tp_get_variant_price(item_data, variant)`: the variant's own price,
      else the `"Default"` price, else `None`; `None` for anything but a
      dict. A JSON `null` stands for Python's `None` here, so a price stored
      as `null` reads as no price, as it does in the source. */
  function TpGetVariantPrice(itemData: Value, variant: string): (r: Value)
    ensures !itemData.Object? ==> r == Null
    ensures itemData.Object? && HasKey(itemData.fields, variant) ==> Get(itemData.fields, variant) == Some(r)
    ensures itemData.Object? && !HasKey(itemData.fields, variant) && HasKey(itemData.fields, "Default")
      ==> Get(itemData.fields, "Default") == Some(r)
    ensures itemData.Object? && !HasKey(itemData.fields, variant) && !HasKey(itemData.fields, "Default")
      ==> r == Null
  {
    match itemData
    case Object(fields) =>
      (match Get(fields, variant)
       case Some(p) => p
       case None => Get(fields, "Default").GetOr(Null))
    case _ => Null
  }

  // ------------------------------------------------------------ the cart

  /** One cart line: `{category, item, variant, qty, unit, total}`. The unit
      is whatever the catalog holds for the variant, and the total is Python's
      `unit * qty` of it, so either may be a string or a list. */
  datatype CartLine = CartLine(category: string, item: string, variant: string, qty: int, unit: Value, total: Value)

  /** `fmt_cart` can add the line's total to an integer. */
  predicate Summable(it: CartLine)
  {
    Addable(it.total)
  }

  predicate AllSummable(items: seq<CartLine>)
  {
    forall k :: 0 <= k < |items| ==> Summable(items[k])
  }

  lemma SummablePrefix(items: seq<CartLine>, n: nat)
    requires AllSummable(items) && n <= |items|
    ensures AllSummable(items[..n])
  {
    assert forall k :: 0 <= k < n ==> items[..n][k] == items[k];
  }

  /** `str()` of an addable total. */
  function TotalText(v: Value): string
    requires Addable(v)
  {
    if v.Num? then IntToString(v.n) else if v.b then "True" else "False"
  }

  /** The ` (variant)` suffix of a summary line, left out for `"Default"`. */
  function VariantSuffix(v: string): (s: string)
    ensures s == [] <==> v == "Default"
    ensures s != [] ==> s == " (" + v + ")"
  {
    if v != "Default" then " (" + v + ")" else ""
  }

  /** The bullet, dash and check mark of the trade-post texts, as the
      source writes them: the UTF-8 bytes of U+2022, U+2014 and U+2705 read
      as Windows-1252. */
  const Bullet := "\U{E2}\U{20AC}\U{A2}"
  const Dash := "\U{E2}\U{20AC}\U{201D}"
  const CheckMark := "\U{E2}\U{153}\U{2026}"

  function CartLineText(it: CartLine): string
    requires Summable(it)
  {
    Bullet + " " + it.item + VariantSuffix(it.variant) + " x" + IntToString(it.qty) + " " + Dash + " " + TotalText(it.total)
  }

  /** The summary lines, one per cart line. */
  function CartLinesText(items: seq<CartLine>): (r: seq<string>)
    requires AllSummable(items)
    ensures |r| == |items|
    decreases |items|
  {
    if items == [] then []
    else
      SummablePrefix(items, |items| - 1);
      CartLinesText(items[..|items| - 1]) + [CartLineText(items[|items| - 1])]
  }

  /** Summary line `k` shows cart line `k`. */
  lemma {:induction false} CartLinesTextAt(items: seq<CartLine>, k: nat)
    requires AllSummable(items) && k < |items|
    ensures CartLinesText(items)[k] == CartLineText(items[k])
    decreases |items|
  {
    if k < |items| - 1 {
      var init := items[..|items| - 1];
      assert init[k] == items[k];
      assert forall j :: 0 <= j < |init| ==> init[j] == items[j];
      CartLinesTextAt(init, k);
    }
  }

  /** The sum of the lines' `total` fields. */
  function CartTotal(items: seq<CartLine>): int
    requires AllSummable(items)
    decreases |items|
  {
    if items == [] then 0
    else
      SummablePrefix(items, |items| - 1);
      CartTotal(items[..|items| - 1]) + IntValue(items[|items| - 1].total)
  }

  /** The total of two carts put together is the sum of their totals. */
  lemma {:induction false} CartTotalConcat(a: seq<CartLine>, b: seq<CartLine>)
    requires AllSummable(a) && AllSummable(b)
    ensures AllSummable(a + b)
    ensures CartTotal(a + b) == CartTotal(a) + CartTotal(b)
    decreases |b|
  {
    assert forall k :: 0 <= k < |a + b| ==> (a + b)[k] == if k < |a| then a[k] else b[k - |a|];
    if b == [] {
      assert a + b == a;
    } else {
      var init := b[..|b| - 1];
      assert forall k :: 0 <= k < |init| ==> init[k] == b[k];
      assert (a + b)[..|a + b| - 1] == a + init;
      CartTotalConcat(a, init);
    }
  }

  /** When each line's unit is a number and its total is the unit price
      times the quantity, as the menu builds them from numeric prices, the
      cart total is the sum of those products. */
  lemma {:induction false} CartTotalOfPricedLines(items: seq<CartLine>)
    requires forall k :: 0 <= k < |items| ==> items[k].unit.Num? && items[k].total == Num(items[k].unit.n * items[k].qty)
    ensures AllSummable(items)
    ensures CartTotal(items) == UnitTimesQty(items)
    decreases |items|
  {
    if items != [] {
      var init := items[..|items| - 1];
      assert forall k :: 0 <= k < |init| ==> init[k] == items[k];
      CartTotalOfPricedLines(init);
    }
  }

  function UnitTimesQty(items: seq<CartLine>): int
    requires forall k :: 0 <= k < |items| ==> items[k].unit.Num?
    decreases |items|
  {
    if items == [] then 0
    else
      var init := items[..|items| - 1];
      assert forall k :: 0 <= k < |init| ==> init[k] == items[k];
      UnitTimesQty(init) + items[|items| - 1].unit.n * items[|items| - 1].qty
  }

  /** One more summable line extends the summary and the total. */
  lemma CartStep(items: seq<CartLine>, k: nat)
    requires k < |items| && AllSummable(items[..k]) && Summable(items[k])
    ensures AllSummable(items[..k + 1])
    ensures CartLinesText(items[..k + 1]) == CartLinesText(items[..k]) + [CartLineText(items[k])]
    ensures CartTotal(items[..k + 1]) == CartTotal(items[..k]) + IntValue(items[k].total)
  {
    assert items[..k + 1][..k] == items[..k];
    assert forall j :: 0 <= j < k + 1 ==> items[..k + 1][j] == if j < k then items[..k][j] else items[k];
  }

  const CartTotalLabel := "\n**Cart Total:** "

  /** `fmt_cart(items)`: one line per item, then the total line, joined by
      newlines; the total is the sum of the lines' totals. A total that is a
      string, a list, `None` or a dict makes `total += it['total']` raise
      `TypeError`, which is `None` here. */
  method FmtCart(items: seq<CartLine>) returns (r: Option<(string, int)>)
    ensures r.None? <==> !AllSummable(items)
    ensures r.Some? ==> AllSummable(items) && r.value.1 == CartTotal(items)
    ensures r.Some? ==> (AllSummable(items) &&
      r.value.0 == Join(CartLinesText(items) + [CartTotalLabel + IntToString(CartTotal(items))], "\n"))
  {
    var lines: seq<string> := [];
    var total := 0;
    var k := 0;
    while k < |items|
      invariant 0 <= k <= |items|
      invariant AllSummable(items[..k])
      invariant lines == CartLinesText(items[..k])
      invariant total == CartTotal(items[..k])
    {
      var it := items[k];
      if !Summable(it) {
        return None;
      }
      CartStep(items, k);
      lines := lines + [CartLineText(it)];
      total := total + IntValue(it.total);
      k := k + 1;
    }
    assert items[..k] == items;
    lines := lines + [CartTotalLabel + IntToString(total)];
    r := Some((Join(lines, "\n"), total));
  }

  // ------------------------------------------------------- the selection

  /** `view_ref.state`: the category, item and variant picked so far. */
  datatype Selection = Selection(category: Option<string>, item: Option<string>, variant: Option<string>)

  datatype Level = CategoryLevel | ItemLevel | VariantLevel

  /** What `add_current_selection` makes of the selection and a quantity:
      no price, a price that `unit * qty` refuses (a dict), or the line. */
  datatype Priced = NoPrice | UnitNotMultipliable | Line(line: CartLine)

  /** The price lookup of `add_current_selection`: the variant defaults to
      `"Default"`, the unit price comes from `tp_get_variant_price`, and the
      line's total is Python's unit price times quantity. */
  function PriceSelection(data: TpData, state: Selection, qty: int): (r: Priced)
    ensures var unit := TpGetVariantPrice(TpGetItemData(data, state.category, state.item), state.variant.GetOr("Default"));
      && (r.NoPrice? <==> unit.Null?)
      && (r.UnitNotMultipliable? <==> unit.Object?)
      && (r.Line? ==> r.line.unit == unit && Times(unit, qty) == Some(r.line.total))
    ensures r.Line? ==>
      && state.category == Some(r.line.category) && state.item == Some(r.line.item)
      && r.line.variant == state.variant.GetOr("Default") && r.line.qty == qty
  {
    var v := state.variant.GetOr("Default");
    var itemData := TpGetItemData(data, state.category, state.item);
    var unit := TpGetVariantPrice(itemData, v);
    match Times(unit, qty)
    case None => if unit.Null? then NoPrice else UnitNotMultipliable
    case Some(total) =>
      assert itemData != Object([]);
      Line(CartLine(state.category.value, state.item.value, v, qty, unit, total))
  }

  /** A price stored as the text `"200"`, bought twice, gives the line total
      `"200200"`: Python repeats the string. */
  lemma TextPriceRepeats(data: TpData, state: Selection)
    requires TpGetVariantPrice(TpGetItemData(data, state.category, state.item), state.variant.GetOr("Default")) == Str("200")
    ensures PriceSelection(data, state, 2).Line?
    ensures PriceSelection(data, state, 2).line.total == Str("200200")
  {
    RepeatAdd("200", 1, 1);
    assert Repeat("200", 1) == "200";
  }

  // ----------------------------------------------------------- the view

  /** What a handler of the view answers. */
  datatype Outcome =
    | NotYourSession
    | MenuRefreshed(description: string)
    | QuantityAsked
    | InvalidQuantity
    | NoPriceFound
    | Crashed
    | CartEmpty
    | ChannelNotFound
    | OrderPlaced(orderText: string, total: int)
    | ItemRemoved(item: string, description: string)
    | SessionCanceled

  const EmptyCartDescription := "Use the dropdowns to add items."

  /** The message posted to the trade-post orders channel. */
  function OrderText(customer: UserId, body: string): string
  {
    "**Trade Post Order**\n**Customer:** " + Mention(customer) + "\n\n" + body
    + "\n\n_please confirm this message with a " + CheckMark + " when the order is ready_"
  }

  /** `TradePostView`: one user's trade-post menu, over the shared cart store. */
  class TradePostView {
    const data: TpData
    const store: SessionStore<CartLine>
    const userId: UserId
    var state: Selection
    /** Set by `self.stop()`. */
    var stopped: bool

    constructor(data: TpData, store: SessionStore<CartLine>, userId: UserId)
      ensures this.data == data && this.store == store && this.userId == userId
      ensures state == Selection(None, None, None) && !stopped
    {
      this.data := data;
      this.store := store;
      this.userId := userId;
      state := Selection(None, None, None);
      stopped := false;
    }

    /** `refresh`, for what it does to the cart: it calls `start_session`
        before reading the cart, so the cart is emptied and the summary is
        always the one for an empty cart. */
    method Refresh() returns (description: string)
      modifies store
      ensures store.cache == Start(old(store.cache), userId)
      ensures description == EmptyCartDescription
    {
      store.StartSession(userId);
      var items := store.GetSessionItems(userId);
      assert items == [];
      description := EmptyCartDescription;
    }

    /** `DynamicDropdown.callback`: a category starts a new selection, an
        item or a variant is added to it. */
    method Callback(actor: UserId, level: Level, choice: string) returns (o: Outcome)
      modifies this, store
      ensures stopped == old(stopped)
      ensures actor != userId ==> o == NotYourSession && state == old(state) && store.cache == old(store.cache)
      ensures actor == userId && level == CategoryLevel ==>
        && state == Selection(Some(choice), None, None)
        && store.cache == Start(old(store.cache), userId)
        && o == MenuRefreshed(EmptyCartDescription)
      ensures actor == userId && level == ItemLevel ==>
        && state == old(state).(item := Some(choice))
        && store.cache == Start(old(store.cache), userId)
        && o == MenuRefreshed(EmptyCartDescription)
      ensures actor == userId && level == VariantLevel ==>
        && state == old(state).(variant := Some(choice))
        && store.cache == old(store.cache)
        && o == QuantityAsked
    {
      if actor != userId {
        return NotYourSession;
      }
      match level
      case CategoryLevel =>
        state := Selection(Some(choice), None, None);
        var description := Refresh();
        o := MenuRefreshed(description);
      case ItemLevel =>
        state := state.(item := Some(choice));
        var description := Refresh();
        o := MenuRefreshed(description);
      case VariantLevel =>
        state := state.(variant := Some(choice));
        o := QuantityAsked;
    }

    /** The write-back in `add_current_selection`: `start_session`, then the
        fresh (empty) list with the new line appended is stored. */
    method PersistLine(line: CartLine)
      modifies store
      ensures store.cache == old(store.cache)[userId := [line]]
    {
      ghost var before := store.cache;
      store.StartSession(userId);
      assert store.cache == Start(before, userId);
      var items := store.GetSessionItems(userId);
      assert items == [];
      items := items + [line];
      assert items == [line];
      ghost var mid := store.cache;
      store.SetSessionItems(userId, items);
      assert store.cache == mid[userId := [line]];
      assert store.cache == Start(before, userId)[userId := [line]];
    }

    /** `add_current_selection(qty)`: no change without a price; a dict
        price makes `unit * qty` raise `TypeError` before anything is
        stored; otherwise the line is stored, and the refresh that follows
        empties the cart. */
    method AddCurrentSelection(qty: int) returns (o: Outcome)
      modifies store
      ensures var p := PriceSelection(data, state, qty);
        && (p.NoPrice? ==> o == NoPriceFound && store.cache == old(store.cache))
        && (p.UnitNotMultipliable? ==> o == Crashed && store.cache == old(store.cache))
        && (p.Line? ==> o == MenuRefreshed(EmptyCartDescription) && store.cache == Start(old(store.cache), userId))
    {
      match PriceSelection(data, state, qty)
      case NoPrice =>
        o := NoPriceFound;
      case UnitNotMultipliable =>
        o := Crashed;
      case Line(line) =>
        PersistLine(line);
        var description := Refresh();
        o := MenuRefreshed(description);
    }

    /** `QuantityModal.on_submit`: only the session's owner, and only a
        positive integer, reaches `add_current_selection`. */
    method OnQuantitySubmit(actor: UserId, text: string) returns (o: Outcome)
      modifies store
      ensures actor != userId ==> o == NotYourSession && store.cache == old(store.cache)
      ensures actor == userId && PositiveQuantity(text).None? ==> o == InvalidQuantity && store.cache == old(store.cache)
      ensures actor == userId && PositiveQuantity(text).Some? ==>
        var p := PriceSelection(data, state, PositiveQuantity(text).value);
        && (p.NoPrice? ==> o == NoPriceFound && store.cache == old(store.cache))
        && (p.UnitNotMultipliable? ==> o == Crashed && store.cache == old(store.cache))
        && (p.Line? ==> o == MenuRefreshed(EmptyCartDescription) && store.cache == Start(old(store.cache), userId))
    {
      if actor != userId {
        return NotYourSession;
      }
      ParseIntOfStripped(text);
      var q := PositiveQuantity(Strip(text));
      if q.None? {
        return InvalidQuantity;
      }
      o := AddCurrentSelection(q.value);
    }

    /** `_submit`: an empty cart posts nothing; a total `fmt_cart` cannot
        add ends the handler with `TypeError`; otherwise the order is posted
        with the cart summary and the session ends. */
    method Submit(actor: UserId, channelFound: bool) returns (o: Outcome)
      modifies this, store
      ensures state == old(state)
      ensures actor != userId ==> o == NotYourSession && store.cache == old(store.cache) && stopped == old(stopped)
      ensures actor == userId && Items(old(store.cache), userId) == [] ==>
        o == CartEmpty && store.cache == old(store.cache) && stopped == old(stopped)
      ensures actor == userId && Items(old(store.cache), userId) != [] && !AllSummable(Items(old(store.cache), userId)) ==>
        o == Crashed && store.cache == old(store.cache) && stopped == old(stopped)
      ensures (actor == userId && Items(old(store.cache), userId) != [] && AllSummable(Items(old(store.cache), userId)) &&
        !channelFound) ==>
        o == ChannelNotFound && store.cache == old(store.cache) && stopped == old(stopped)
      ensures (actor == userId && Items(old(store.cache), userId) != [] && AllSummable(Items(old(store.cache), userId)) &&
        channelFound) ==>
        var items := Items(old(store.cache), userId);
        && o.OrderPlaced? && o.total == CartTotal(items)
        && o.orderText == OrderText(actor, Join(CartLinesText(items) + [CartTotalLabel + IntToString(o.total)], "\n"))
        && store.cache == Clear(old(store.cache), userId) && stopped
    {
      if actor != userId {
        return NotYourSession;
      }
      var items := store.GetSessionItems(userId);
      if items == [] {
        return CartEmpty;
      }
      var cart := FmtCart(items);
      if cart.None? {
        return Crashed;
      }
      var (body, total) := cart.value;
      var orderText := OrderText(actor, body);
      if !channelFound {
        return ChannelNotFound;
      }
      store.EndSession(userId);
      o := OrderPlaced(orderText, total);
      stopped := true;
    }

    /** The pop and write-back in `_remove`. */
    method DropLastLine() returns (removed: CartLine)
      requires Items(store.cache, userId) != []
      modifies store
      ensures var old_items := Items(old(store.cache), userId);
        && removed == old_items[|old_items| - 1]
        && store.cache == old(store.cache)[userId := old_items[..|old_items| - 1]]
    {
      var items := store.GetSessionItems(userId);
      removed := items[|items| - 1];
      items := items[..|items| - 1];
      store.SetSessionItems(userId, items);
    }

    /** `_remove`: an empty cart is left alone; otherwise the last line is
        dropped, and the refresh that follows empties the cart. */
    method Remove(actor: UserId) returns (o: Outcome)
      modifies store
      ensures actor != userId ==> o == NotYourSession && store.cache == old(store.cache)
      ensures actor == userId && Items(old(store.cache), userId) == [] ==> o == CartEmpty && store.cache == old(store.cache)
      ensures actor == userId && Items(old(store.cache), userId) != [] ==>
        var items := Items(old(store.cache), userId);
        && o == ItemRemoved(items[|items| - 1].item, EmptyCartDescription)
        && store.cache == Start(old(store.cache), userId)
    {
      if actor != userId {
        return NotYourSession;
      }
      var items := store.GetSessionItems(userId);
      if items == [] {
        return CartEmpty;
      }
      var removed := DropLastLine();
      var description := Refresh();
      o := ItemRemoved(removed.item, description);
    }

    /** `_cancel`: the session ends and the view stops. */
    method Cancel(actor: UserId) returns (o: Outcome)
      modifies this, store
      ensures state == old(state)
      ensures actor != userId ==> o == NotYourSession && store.cache == old(store.cache) && stopped == old(stopped)
      ensures actor == userId ==> o == SessionCanceled && store.cache == Clear(old(store.cache), userId) && stopped
    {
      if actor != userId {
        return NotYourSession;
      }
      store.EndSession(userId);
      o := SessionCanceled;
      stopped := true;
    }
  }

  /** Whatever the cart held, after an item is added the trade-post cart is
      empty: `start_session` in the write-back and again in the refresh
      discards every line, the new one included. */
  lemma AddThenRefreshEmptiesCart(cache: Cache<CartLine>, u: UserId, line: CartLine)
    ensures Items(Start(cache[u := [line]], u), u) == []
    ensures Start(cache[u := [line]], u) == Start(cache, u)
  {
  }
}
