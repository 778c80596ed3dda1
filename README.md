# Trader-Bot core, modelled in Dafny

Trader-Bot is a Discord bot for a game economy. Players build carts from a
nested price catalog (category → item → price or variant → price), submit
buy, sell and trade-post orders to an orders channel, and report payments.
Admins confirm orders with a ✅ reaction, and two periodic scanners announce
orders that buy three or more explosives.

This project models the deterministic logic under the Discord glue:

- the cart session store (`SessionManager`);
- the catalog lookups and variant rules, in both the Python and the
  JavaScript twin (`VariantUtils`, `Trader`, `TradePost`, `SellTrader`);
- the order-text parser `parse_order_lines` (`OrderUtils`);
- the cart handlers of the three menus: quantity checks, append,
  remove-last, cancel, submit and totals (`TradePost`, `Trader`,
  `SellTrader`);
- the `/paytrader` confirmed→paid ledger transition (`PayTrader`);
- the ✅ reaction handler's guards, its parsing of the player and the total,
  and its rewrite of the message (`ReactionHandler`);
- the explosive-alert rule of the root scanner (`ExplosivesScanner`) and of
  the scheduled scanner (`ScannerTask`), with their shared keyword count
  (`Explosives`).

Shared modules:

- `Wrappers`: `Option` and `Result`.
- `Text`: Python's string operations on ASCII text. These are `lower`, `in`,
  `startswith`, `split`, `rsplit`, `replace`, `strip`, `rstrip` and
  `splitlines`.
- `Numerals`: `int()` on text, `str()` of an integer, and the `f"{n:,}"`
  thousands grouping.
- `Dicts` and `Json`: a dictionary as an insertion-ordered association list,
  JSON values, and Python and JavaScript truthiness.
- `Catalog` and `Users`: the price catalog, and a user's mention `<@id>`.

Each view, modal and scanner with state is a `class`. Each handler is a
method that returns an `Outcome` and states the new cart or ledger in its
`ensures`. Loops of the source are methods with loop invariants, proved
against prefix-recursive specification functions. The Discord effects are
outcome values, and a channel lookup is a boolean parameter. These effects
are sending, editing, reacting and fetching.

A channel lookup that finds no channel is modelled as a crash. The source
then calls `send` on `None`, so the handler fails before any later state
change. The trade-post submit is the exception: it checks for the channel
and answers. `is_session_active` and `get_cart` are called by the views but
not defined by the store module. They are parameters here: whether the
session is active, and the cart the handler reads. `set_session_items`
stores the list as the user's cart, and `end_session` clears it.

Some source files hold mis-decoded UTF-8 in string literals: the bytes of
an emoji or punctuation mark read as Windows-1252. The model writes every
literal it uses as the source has it, so the trade-post bullet, dash and
check mark and the scheduled scanner's final characters are those
mis-decoded sequences, while the root scanner ends its alert in 💥.

## Model

| member | source | states |
|---|---|---|
| SessionManager.Start | utils/session_manager.py:7-8 | after `start_session(u)` the user has an entry and an empty cart, whatever was there; every other user's entry is unchanged |
| SessionManager.Add | utils/session_manager.py:10-11 | `add_item(u, it)` keeps the old cart as a prefix and puts `it` at its end; a user without an entry gets `[it]`; other users are unchanged |
| SessionManager.Clear | utils/session_manager.py:16-17 | after `clear_session(u)` the user has no entry and reads `[]`; clearing an absent user changes nothing; other users are unchanged |
| SessionManager.StartThenAdd | utils/session_manager.py:7-11 | `start_session` followed by k `add_item` calls leaves exactly those k items, in insertion order |
| SessionManager.AddAllLeavesOthers | utils/session_manager.py:10-11 | any run of `add_item` calls for one user leaves every other user's cart as it was |
| SessionManager.SessionStore.constructor | utils/session_manager.py:5 | the cache starts empty |
| SessionManager.SessionStore.StartSession | utils/session_manager.py:7-8 | the cache becomes `Start` of the old cache |
| SessionManager.SessionStore.AddItem | utils/session_manager.py:10-11 | the cache becomes `Add` of the old cache (`setdefault` then `append`) |
| SessionManager.SessionStore.GetSessionItems | utils/session_manager.py:13-14 | returns the user's cart, `[]` for a user with no entry, and changes nothing |
| SessionManager.SessionStore.ClearSession | utils/session_manager.py:16-17 | the cache becomes `Clear` of the old cache (`pop(u, None)`) |
| SessionManager.SessionStore.SetSessionItems | commands/tradepost.py:154 | stores the given list as the user's cart and changes nothing else |
| SessionManager.SessionStore.EndSession | commands/tradepost.py:216 | drops the user's cart like `clear_session` |
| VariantUtils.GetVariants | utils/variant_utils.py:3-11 | the result is empty exactly for an empty dict; a dict gives one name per key |
| VariantUtils.GetVariantsOfDict | utils/variant_utils.py:9-10 | a dict gives exactly its keys in insertion order |
| VariantUtils.GetVariantsOfNonDict | utils/variant_utils.py:11 | every non-dict value gives `["Default"]` |
| VariantUtils.VariantExistsIgnoresCase | utils/variant_utils.py:23-24 | two choices that lower-case alike get the same answer |
| VariantUtils.VariantExistsNeedsVariants | utils/variant_utils.py:21-24 | an empty variant list never matches, whatever the choice |
| VariantUtils.IndexAndOtherKeysPartition | utils/variantUtils.js:4 | the array-index keys and the other keys together are the object's keys |
| VariantUtils.NoIndexKeys | utils/variantUtils.js:4 | without array-index keys, `Object.keys` order is insertion order |
| VariantUtils.InsertAddsKey | utils/variantUtils.js:4 | inserting a key adds exactly that key |
| VariantUtils.InsertKeepsSorted | utils/variantUtils.js:4 | inserting by numeric value keeps the index keys ascending |
| VariantUtils.SortByValue | utils/variantUtils.js:4 | the index keys come out ascending by value and are a permutation of the input |
| VariantUtils.ObjectKeys | utils/variantUtils.js:3-4 | `Object.keys` of an object is a permutation of its keys |
| VariantUtils.ArrayKeys | utils/variantUtils.js:3-4 | `Object.keys` of an array lists the indices `"0"`, `"1"`, … as decimal text |
| VariantUtils.SomeLowerEqualsIff | utils/variantUtils.js:12 | `variants.some(v => v.toLowerCase() === choice)` holds iff some variant lower-cases to the choice |
| VariantUtils.VariantExistsTwinsAgree | utils/variantUtils.js:9-13 | the JavaScript `variantExists` equals the Python `variant_exists` on every list and every choice, `None` and `""` included |
| VariantUtils.GetVariantsTwinsAgree | utils/variantUtils.js:1-7 | the two `getVariants` agree on every non-array value whose keys are not array indices |
| VariantUtils.GetVariantsTwinsDifferOnArrays | utils/variantUtils.js:3-4 | on a non-empty array they differ: JavaScript lists `"0"` first, Python gives `["Default"]` |
| VariantUtils.GetVariantsJsPrimitives | utils/variantUtils.js:3-6 | a falsy value and every truthy primitive give `["Default"]` |
| OrderUtils.SellPrice | utils/order_utils.py:46 | `round(base/3)` as an integer: the nearest integer to base/3, for integer bases (exact division; see Left out) |
| OrderUtils.SellPriceUnique | utils/order_utils.py:46 | that nearest integer is the only one within a third of base/3 |
| OrderUtils.UnitPrice | utils/order_utils.py:46 | mode `"sell"` gives the sell price; any other mode gives the base price |
| OrderUtils.LookupPrice | utils/order_utils.py:32-44 | unknown category, unknown item, unknown variant and no-variant-support errors; a found price is the variant's price or the scalar for `default` in any case |
| OrderUtils.CutAtLastX | utils/order_utils.py:25-28 | no result exactly when the line lacks `" x"` |
| OrderUtils.CutAtLastXParts | utils/order_utils.py:28 | the line is left + `" x"` + quantity text, and the quantity text holds no `" x"` (the cut is at the last one) |
| OrderUtils.SplitFields | utils/order_utils.py:29 | an error exactly when `split(":")` does not give three fields; otherwise the three stripped fields |
| OrderUtils.ParseLine | utils/order_utils.py:24-57 | a missing `" x"` is exactly the missing-format error; a parsed line's price is the unit price of its looked-up base and its subtotal is price × quantity |
| OrderUtils.Outcomes | utils/order_utils.py:22-60 | one outcome per line |
| OrderUtils.OutcomeAt | utils/order_utils.py:22-60 | outcome k is the parse of line k |
| OrderUtils.AllOutcomes | utils/order_utils.py:22-60 | every outcome is the parse of its line |
| OrderUtils.ParseOrderLines | utils/order_utils.py:15-62 | the method equals the fail-fast fold over the stripped text's lines |
| OrderUtils.ParseEachLine | utils/order_utils.py:18-62 | the loop, with the parse of one line as a parameter, returns the fold of the line outcomes: at the first error the numbered failure, otherwise the item list and running total |
| OrderUtils.CollectOk | utils/order_utils.py:57-60 | one more line that parses appends its item and adds its subtotal |
| OrderUtils.CollectErr | utils/order_utils.py:24-56 | one more line that fails ends the parse with its 1-based line number, the line and the reason |
| OrderUtils.FailurePersists | utils/order_utils.py:59-60 | once a line fails, later lines change nothing |
| OrderUtils.CollectParsedIff | utils/order_utils.py:22-62 | the fold succeeds iff every line parsed |
| OrderUtils.CollectParsedItems | utils/order_utils.py:49-62 | on success, one item per line in input order, and the total is the sum of the subtotals |
| OrderUtils.CollectFailed | utils/order_utils.py:59-60 | on failure, the reported line is the first that failed, with its 1-based number and its reason |
| OrderUtils.ParsedIffAllLinesParse | utils/order_utils.py:15-62 | the parse succeeds iff every line parses; then items are the lines' items in order and the total is the sum of subtotals |
| OrderUtils.FailedAtFirstBadLine | utils/order_utils.py:22-60 | a failed parse names the first line that does not parse, its 1-based number and its reason |
| OrderUtils.EmptyOrderText | utils/order_utils.py:17-62 | blank or whitespace-only text parses to no items and total 0 |
| OrderUtils.ParseLineRoundTrip | utils/order_utils.py:25-57 | `category:item:variant xN` parses back to exactly those fields and N, for every integer N, zero and negatives included |
| OrderUtils.FieldsOfPlain | utils/order_utils.py:29 | three fields without colons or edge spaces split back to themselves |
| OrderUtils.CutBeforeNumber | utils/order_utils.py:28 | appending `" x"` and a number cuts back to the left part and the number's text |
| OrderUtils.ErrorMessage | utils/order_utils.py:60 | the message starts `Error on line n: '<line>'` with the 1-based line number |
| Catalog.ToValue | utils/order_utils.py:37 | a catalog entry loads as a dict exactly when it has variants |
| Catalog.VariantKeysOfEntry | commands/trader.py:69-70 | the variant names of a loaded entry are its price map's keys |
| Users.Mention | commands/tradepost.py:199 | a mention is `<…>` made of mention characters only |
| TradePost.TpGetCategories | commands/tradepost.py:28-29 | one name per category; a name is listed iff it is a category |
| TradePost.DictEntries | commands/tradepost.py:34 | a key is kept iff its value is a dict |
| TradePost.DictEntriesConcat | commands/tradepost.py:34 | the comprehension keeps the dictionary's order: keeping distributes over two runs of entries put one after the other |
| TradePost.DictEntriesOfOne | commands/tradepost.py:34 | one entry is kept exactly when its value is a dict |
| TradePost.TpGetItems | commands/tradepost.py:31-34 | an unknown category gives `[]`; otherwise exactly the keys whose values are dicts |
| TradePost.TpGetItemData | commands/tradepost.py:36-37 | a missing category or item gives `{}`; a non-empty result is the stored item data |
| TradePost.TpGetVariantPrice | commands/tradepost.py:39-47 | non-dict data gives `None`; otherwise the variant's price, else the `"Default"` price, else `None` |
| TradePost.VariantSuffix | commands/tradepost.py:54 | the suffix is empty exactly for `"Default"`, otherwise ` (variant)` |
| TradePost.CartLinesText | commands/tradepost.py:53-55 | one summary line per cart line |
| TradePost.CartLinesTextAt | commands/tradepost.py:53-55 | summary line k shows cart line k |
| TradePost.CartTotalConcat | commands/tradepost.py:52-56 | two carts whose totals `+=` accepts give a cart that it accepts, and the cart total of both is the sum of their totals |
| TradePost.CartTotalOfPricedLines | commands/tradepost.py:148 | for lines built from numeric prices with total = unit × qty, `fmt_cart` can add every total, and the cart total is the sum of unit × qty |
| TradePost.CartStep | commands/tradepost.py:52-56 | one more addable line appends its summary line and adds its total |
| TradePost.FmtCart | commands/tradepost.py:49-58 | `fmt_cart` raises `TypeError` exactly when some line's total is not a number or a boolean; otherwise its total is the sum of the lines' totals, and the body is the lines followed by the total line, joined by newlines |
| TradePost.PriceSelection | commands/tradepost.py:140-148 | no price exactly when `tp_get_variant_price` gives `None`; a dict price is one `unit * qty` refuses; otherwise the line keeps the selection's category and item, the variant defaulting to `"Default"`, the unit as stored and Python's `unit * qty` as its total |
| TradePost.TextPriceRepeats | commands/tradepost.py:148 | a price stored as the text `"200"`, bought twice, gives the line total `"200200"` |
| Json.Repeat | commands/tradepost.py:148 | `s * n` is empty for n ≤ 0 and otherwise n times as long as s |
| Json.RepeatAdd | commands/tradepost.py:148 | `s * (a + b) == s * a + s * b` for non-negative counts |
| Json.Times | commands/tradepost.py:148 | Python's `unit * qty`: numbers and booleans multiply, strings and lists repeat, `None` and dicts raise `TypeError` |
| TradePost.TradePostView.constructor | commands/tradepost.py:130-138 | the view starts with an empty selection, not stopped |
| TradePost.TradePostView.Refresh | commands/tradepost.py:158-175 | `refresh` calls `start_session`, so the cart is reset to `[]` and the description is the empty-cart text |
| TradePost.TradePostView.Callback | commands/tradepost.py:111-127 | another user is refused with no change; a category replaces the selection with the category alone; an item or variant sets that field; category and item refresh (reset the cart) |
| TradePost.TradePostView.PersistLine | commands/tradepost.py:150-154 | after `start_session`, read, append and write back, the cart is exactly the new line |
| TradePost.TradePostView.AddCurrentSelection | commands/tradepost.py:140-156 | no price means no cart change; a dict price raises `TypeError` with no cart change; any other price's line is stored and the refresh then empties the cart |
| TradePost.TradePostView.OnQuantitySubmit | commands/tradepost.py:69-79 | another user or a quantity that is not an integer > 0 is refused with no cart change; otherwise the answer and the cart are those of adding the current selection: no price, a `TypeError` on a dict price, or the refreshed empty cart |
| TradePost.TradePostView.Submit | commands/tradepost.py:187-219 | another user, an empty cart, a line total `fmt_cart` cannot add (a `TypeError`) or a missing channel change nothing; otherwise the order text carries the cart body and total, the session ends and the view stops |
| TradePost.TradePostView.DropLastLine | commands/tradepost.py:229-230 | `items.pop()` returns the last line and stores the rest |
| TradePost.TradePostView.Remove | commands/tradepost.py:221-232 | another user or an empty cart changes nothing; otherwise the last line's item is reported and the refresh resets the cart |
| TradePost.TradePostView.Cancel | commands/tradepost.py:234-240 | another user is refused; the owner's session ends and the view stops |
| TradePost.AddThenRefreshEmptiesCart | commands/tradepost.py:151-166 | storing a line and then refreshing leaves an empty cart, as if nothing had been added |
| Trader.GetItemsInCategory | commands/trader.py:26-27 | an unknown category gives `[]`; otherwise its keys in catalog order |
| Trader.GetPrice | commands/trader.py:30-34 | `KeyError` exactly off the catalog; a variant map's price is found iff the exact (case-sensitive) key exists; a scalar is found iff the variant is `default` in any case |
| Trader.GetPriceAgreesWithParser | commands/trader.py:30-34 | the buy menu prices a selection exactly as the order-text parser does, and raises where the parser reports an unknown category or item |
| Trader.VariantOptions | commands/trader.py:69-71 | a single price offers `["Default"]`; a variant map offers its keys |
| Trader.ListedItemsAreInCatalog | commands/trader.py:60 | an item offered by the item select never makes `get_price` raise |
| Trader.OfferedVariantsArePriced | commands/trader.py:70-81 | every variant offered by the variant select has a price |
| Trader.TraderTotalConcat | commands/trader.py:118 | the total of two carts together is the sum of their totals |
| Trader.VariantChosen | commands/trader.py:77-86 | "Invalid variant selected." exactly when there is no price; any other choice reaches the five-argument `add_item` call and fails |
| Trader.MenuChoiceNeverAddsToCart | commands/trader.py:58-86 | every choice made through the menus ends in the failing `add_item`, so the buy cart never grows |
| Trader.TraderView.constructor | commands/trader.py:38-41 | the view belongs to the given user |
| Trader.TraderView.AddItem | commands/trader.py:44-51 | another user is refused; an inactive session is cleared; otherwise the categories are shown with no change |
| Trader.TraderView.ViewCart | commands/trader.py:107-122 | another user is refused; an empty cart answers "empty"; otherwise the listing and the total of quantity × price |
| Trader.TraderView.ConfirmPurchase | commands/trader.py:125-150 | another user or an empty cart changes nothing; a missing channel fails before the clear; otherwise the order is posted with the total and the session is cleared |
| SellTrader.SellBasePrice | commands/selltrader.py:26-30 | `KeyError` exactly off the catalog; a variant priced 0 counts as none |
| SellTrader.SellBaseVersusBuyPrice | commands/selltrader.py:26-30 | the sell check differs from the buy `get_price` only for a variant priced 0; a sell price found is the buy price |
| SellTrader.MatchVariant | commands/selltrader.py:171-173 | the match lower-cases like the choice; it is the first variant equal up to case, else the choice itself |
| SellTrader.MatchVariantIffVariantExists | commands/selltrader.py:171-173 | for a non-empty choice the match is a catalog variant iff `variant_exists` holds |
| SellTrader.ItemChosen | commands/selltrader.py:66-99 | the quantity modal with `"Default"` comes exactly when the variants are `["Default"]`; otherwise the variant menu lists them |
| SellTrader.SinglePriceSkipsVariantMenu | commands/selltrader.py:72-75 | an item with a single price, or only a `"Default"` variant, skips the variant step |
| SellTrader.TotalOwedIsPriceTimesQuantity | commands/selltrader.py:125 | for lines the modal built, the sum of subtotals is the sum of price × quantity |
| SellTrader.SellSummary | commands/selltrader.py:126-129 | the loop's summary is the header, one line per cart line, then the grouped total owed |
| SellTrader.SellLine | commands/selltrader.py:164-189 | a quantity that is not an integer > 0 is refused; the line uses the matched variant and the sell price, with subtotal = price × quantity; it is accepted iff a base price is found, and the lookup raises exactly off the catalog |
| SellTrader.SellQuantityModal.constructor | commands/selltrader.py:151-157 | the modal holds the given user, category, item and variant |
| SellTrader.SellQuantityModal.OnSubmit | commands/selltrader.py:159-195 | an inactive session is cleared; a refused line changes nothing; an accepted line is appended to the cart and the modal's variant becomes the matched one |
| SellTrader.SellTraderView.constructor | commands/selltrader.py:33-36 | the view belongs to the given user |
| SellTrader.SellTraderView.AddItem | commands/selltrader.py:38-47 | another user is refused; an inactive session is cleared; otherwise the categories are shown |
| SellTrader.SellTraderView.SubmitOrder | commands/selltrader.py:113-138 | another user or an empty cart changes nothing; an inactive session is cleared; a missing channel fails before the clear; otherwise the summary, the `give` command and the total of the subtotals are posted and the session is cleared |
| SellTrader.SellTraderView.CancelOrder | commands/selltrader.py:140-145 | another user is refused; the owner's session is always cleared |
| PayTrader.MarkPaid | commands/paytrader.py:56-57 | only the user's record changes: it becomes paid with the notice's id; confirmed and the other fields are kept; paying again is refused; paid ⇒ confirmed is preserved |
| PayTrader.PayOutcome | commands/paytrader.py:33-53 | outside the economy channel the command is refused; without a confirmed unpaid record there is no order; the notice is sent exactly when both guards pass and the channel exists |
| PayTrader.SecondPaymentRefused | commands/paytrader.py:40-56 | a second report right after a successful one finds no unpaid order |
| PayTrader.PayTraderCommand.constructor | commands/paytrader.py:39 | the command holds the loaded ledger |
| PayTrader.PayTraderCommand.Pay | commands/paytrader.py:33-58 | the ledger is marked paid exactly when the notice is sent and is otherwise unchanged; paid ⇒ confirmed is preserved |
| ReactionHandler.PlayerMention | handlers/reaction_handler.py:39 | the text after `"Order for "` on the first line, with no trailing colon; none where the indexing fails |
| ReactionHandler.FirstLineWith | handlers/reaction_handler.py:40 | the first line containing the text, none iff no line does |
| ReactionHandler.OnReaction | handlers/reaction_handler.py:14-53 | the event is handled iff channel, emoji, admin role and not-already-confirmed all hold; a message not starting `Order for` only gets the reaction swap; an order message whose mention or total line cannot be read fails after the swap and is not edited, and only then; an edit uses the banner; the player is notified iff the mention, the total line, the economy channel and `int(total)` all succeed |
| ReactionHandler.ConfirmedContentIsMarked | handlers/reaction_handler.py:44-47 | the edited content contains `✅ Confirmed by` |
| ReactionHandler.RepeatedReactionIgnored | handlers/reaction_handler.py:29-47 | once the message is edited, any later reaction on it is ignored |
| ReactionHandler.HeadingMention | handlers/reaction_handler.py:39 | the heading `Order for <@id>:` splits and trims back to the mention |
| ReactionHandler.PlayerMentionOfHeading | handlers/reaction_handler.py:39 | a message headed `Order for <@id>:` yields that player's mention |
| ReactionHandler.TotalValueOfTotalLine | handlers/reaction_handler.py:41 | a `**Total: $1,234**` line reads back as the number shown |
| ReactionHandler.OrderMessageLines | handlers/reaction_handler.py:37-39 | an order message splits into its heading, details and total line, and yields its player |
| ReactionHandler.TotalLinesFirst | handlers/reaction_handler.py:40 | when no detail line contains `Total:`, the total line is the one found |
| ReactionHandler.ConfirmingAnOrderMessage | handlers/reaction_handler.py:37-53 | an admin's ✅ on a well-formed order message edits it and tells the named player the message's total |
| Explosives.IsExplosiveIgnoresCase | explosives_scanner.py:36-38 | the keyword rule gives the same answer on a name and its lower-case form |
| Explosives.KeywordMakesExplosive | explosives_scanner.py:38 | a name containing a keyword as written matches |
| Explosives.LowerKeepsContains | explosives_scanner.py:38 | lower-casing keeps an occurrence |
| Explosives.EmptyNameIsHarmless | explosives_scanner.py:36 | a missing item name (`""`) never matches |
| Explosives.ExplosiveCountConcat | explosives_scanner.py:33-40 | the count over two lists together is the sum of their counts |
| Explosives.NonMatchingEntryAddsNothing | explosives_scanner.py:38-39 | an entry that does not match leaves the count unchanged |
| Explosives.ScannerCountsDiffer | tasks/explosives_scanner.py:49 | the scheduled scanner's count exceeds the root scanner's by the number of explosive entries with no quantity; with all quantities given the two agree |
| Explosives.UserOrders | explosives_scanner.py:58-59 | one user's orders in order, each paired with the user's key |
| ExplosivesScanner.ExtractExplosiveCount | explosives_scanner.py:33-40 | the loop's total is the keyword count with a missing quantity counting 0 |
| ExplosivesScanner.KeyMentionIsUserMention | explosives_scanner.py:42-43 | the mention built from a decimal user key is that user's mention |
| ExplosivesScanner.CheckExplosiveOrders | explosives_scanner.py:48-75 | without the channel nothing is posted or saved; otherwise the nested loops' alerts and saved tracker are the scan of the ledger's orders in order |
| ExplosivesScanner.ScanGrows | explosives_scanner.py:68-73 | the tracker and the alerts only grow, one tracked id per alert |
| ExplosivesScanner.ScanKeepsDistinct | explosives_scanner.py:60-73 | a tracker without repeats stays without repeats, so no id is alerted twice |
| ExplosivesScanner.TrackedOrdersQualify | explosives_scanner.py:60-73 | every id the scan tracks belongs to a confirmed, paid order with a truthy id and at least three explosives |
| ExplosivesScanner.QuietStaysQuiet | explosives_scanner.py:61 | an order skipped against a tracker is skipped against any longer tracker |
| ExplosivesScanner.NoneFireAfterScan | explosives_scanner.py:58-73 | after a scan no order of the ledger qualifies against the new tracker |
| ExplosivesScanner.RescanIsQuiet | explosives_scanner.py:58-75 | scanning the same ledger with the saved tracker posts nothing and tracks nothing new |
| ExplosivesScanner.BelowThresholdNotTracked | explosives_scanner.py:67-73 | an order below three explosives is neither alerted nor tracked, so it stays eligible |
| ScannerTask.CountExplosives | tasks/explosives_scanner.py:46-51 | the loop's count is the keyword count with a missing quantity counting 1 |
| ScannerTask.ScanConcat | tasks/explosives_scanner.py:39-56 | scanning two runs of orders in turn is scanning both |
| ScannerTask.CrashedScanStays | tasks/explosives_scanner.py:54 | once `int(user_id)` has raised, nothing more happens |
| ScannerTask.FlattenConcat | tasks/explosives_scanner.py:39-40 | the ledger's orders are the orders of its parts in order |
| ScannerTask.StopIsFinal | tasks/explosives_scanner.py:54 | a scan that stopped stays stopped whatever orders follow |
| ScannerTask.ExplosiveScanner.constructor | tasks/explosives_scanner.py:15-17 | the alerted set starts empty |
| ScannerTask.ScanUserOrders | tasks/explosives_scanner.py:40-56 | the inner loop over one user's orders ends with the alerted set, the alerts and the stop of scanning those orders, returning at the first failed `int(user_id)` |
| ScannerTask.LedgerStop | tasks/explosives_scanner.py:54 | a stop while scanning one user's orders is the outcome of the whole ledger's scan |
| ScannerTask.ExplosiveScanner.ScanExplosives | tasks/explosives_scanner.py:24-56 | without a ledger or the channel nothing changes; otherwise the alerted set, the alerts and the stop are the scan of the ledger's orders |
| ScannerTask.AlertedGrows | tasks/explosives_scanner.py:56 | the alerted set and the alerts only grow |
| ScannerTask.IdlessAlertBlocksIdless | tasks/explosives_scanner.py:41-56 | alerting an order without an id puts `None` in the set, and then no order without an id is alerted |
| ScannerTask.NoneFireAfterScan | tasks/explosives_scanner.py:39-56 | after a scan that did not stop, no order of the ledger fires against the set |
| ScannerTask.RescanIsQuiet | tasks/explosives_scanner.py:39-56 | a second scan of the same ledger by the same scanner alerts nothing |
| ScannerTask.FiresLikeTrackerScan | tasks/explosives_scanner.py:41-53 | for an order with an id and every quantity given, the two scanners decide alike on the same alerted ids |
| ScannerTask.MentionsAgree | tasks/explosives_scanner.py:54-55 | for a decimal user key the two scanners' alerts are equal up to their final characters, which differ: the emoji in one, its mis-decoded bytes in the other |
| Numerals.NatToString | commands/trader.py:116 | `str(n)` is non-empty decimal digits without a leading zero |
| Numerals.NatToStringValue | commands/trader.py:116 | the digits of `str(n)` read back as n |
| Numerals.ParseInt | utils/order_utils.py:30 | `int(text)` succeeds only on text that is not blank (ASCII digits; see Left out) |
| Numerals.ParseIntOfIntToString | utils/order_utils.py:30 | `int(str(n)) == n` for every integer |
| Numerals.ParseIntOfStripped | commands/tradepost.py:73 | `int` of stripped text equals `int` of the text |
| Numerals.ParseIntOfDigits | handlers/reaction_handler.py:52 | a run of decimal digits parses to its value |
| Numerals.Pad3 | commands/selltrader.py:128 | a group after a comma is three digits of the group's value |
| Numerals.GroupedWithoutCommas | handlers/reaction_handler.py:41 | `f"{n:,}"` with the commas removed is the digits of n |
| Numerals.GroupedHasNoSpecials | commands/selltrader.py:129 | `f"{n:,}"` holds only digits and commas |
| Numerals.PositiveQuantity | commands/tradepost.py:72-77 | a quantity exactly when `int` succeeds with a value > 0, and then that value |
| Numerals.PositiveQuantityOfIntToString | commands/selltrader.py:165-167 | the text of n is accepted iff n > 0, as n |
| Text.Lower | utils/variant_utils.py:23 | `lower()` keeps the length and lower-cases each character |
| Text.LowerIdempotent | utils/variant_utils.py:23-24 | lower-casing twice is lower-casing once |
| Text.LastIndexOf | utils/order_utils.py:28 | the last occurrence, none exactly when there is none |
| Text.Split | utils/order_utils.py:29 | `split(sep)` gives pieces without the separator that join back to the text; two or more pieces iff the separator occurs |
| Text.Strip | utils/order_utils.py:29 | `strip()` is no longer than the text and starts and ends with a non-space |
| Text.StripRemovesOnlySpace | utils/order_utils.py:29 | `strip()` removes only leading and trailing whitespace |
| Text.StripAllSpace | utils/order_utils.py:17 | blank text strips to `""` |
| Text.TrimEndChar | handlers/reaction_handler.py:39 | `rstrip(":")` keeps a prefix, removes only colons, and leaves no trailing colon |
| Text.SplitLines | utils/order_utils.py:17 | `splitlines()` is empty exactly for empty text |
| Text.SplitLinesHaveNoBreaks | utils/order_utils.py:17 | no line of `splitlines()` holds a line break |
| Text.SplitLinesOfJoin | handlers/reaction_handler.py:39-40 | joining break-free lines with newlines and splitting gives the lines back |
| Text.ReplaceInsertsPrefix | handlers/reaction_handler.py:44-46 | replacing an occurring pattern inserts the replacement text |
| Text.ReplaceCharByNothing | handlers/reaction_handler.py:41 | `replace(",", "")` removes every comma |

## Left out

- Discord transport is left out: views, selects, modals, embeds, component
  rebuilding, `interaction.response`, `followup`, `fetch_message`, reactions,
  `message.edit` and `fetch_user`. Handlers return outcome values, and
  channel lookups are boolean parameters.
- File and JSON I/O is left out: `load_orders`, `save_orders`,
  `load_price_data`, `load_tracker`, `save_tracker`, `load_file` and the
  import-time catalog loads. Loaded data is passed in as parameters.
  `utils/clientStorage.py` and `utils/trader_logger.py` are not part of this
  model.
- Configuration loading from the environment or `config.json` is left out.
  Channel ids, admin roles and mention roles are parameters.
- The `TradePostCommand`, `TraderCommand` and `SellTraderCommand` entry
  commands, `bot.py`, `commands/clearorders.py` and the reminder tasks are
  not part of this model.
- The periodic task machinery is left out: `tasks.loop`, `before_loop`,
  `cog_unload` and the interleaving of handlers.
- SellTrader.SellLine: the sell price is a non-negative integer parameter.
  The float `round(price / 3, 2)` of `get_price` and the second
  `round(base_price / 3)` are floating point and are not modelled. Only
  whether `get_price` gives a price is modelled.
- SellTrader.SellQuantityModal.OnSubmit: `is_session_active` is a boolean
  parameter, because the store module does not define it.
- Trader.TraderView.ViewCart: the cart is a parameter standing for
  `get_cart`, which the store module does not define. The same holds for
  `Trader.TraderView.ConfirmPurchase`.
- SessionManager.SessionStore.SetSessionItems: `set_session_items`,
  `end_session`, `get_session` and `log` are not defined by the store
  module. The first two are modelled as storing and clearing the cart. The
  last two have no effect on the cart and are left out.
- SessionManager.SessionStore: the source keeps one module-level dict for
  every command. Each view here has a store of its own line type, so mixing
  line shapes between menus is not modelled.
- TradePost.TradePostView.Refresh: only its effect on the cart is modelled.
  That effect is the `start_session` reset and the empty-cart description.
  The embed for a non-empty cart is never reached after that reset.
- PayTrader.PayTraderCommand.Pay: every ledger record is taken to hold
  `confirmed`, `paid`, `confirmed_by` and `total`, so a missing field's
  `KeyError` is not modelled. `confirmed_by` is kept as the text it prints
  as. `total` is read but not used.
- ReactionHandler.OnReaction: the message's content is an input, not a
  fetch. An unknown guild and an unknown member are both `None`. A missing
  economy channel and a failing `int()` both end after the edit.
- ReactionHandler.OrderMessage: no module of this model produces the
  `Order for` messages the handler parses. The shape is a definition, and
  the handler's behaviour on it is proved as a lemma.
- Explosives.QuantityOf: a present `quantity` is taken to be an integer, so
  `int()` of a string or float quantity is not modelled. JSON equality
  between `1`, `1.0` and `True` is not modelled either.
- ExplosivesScanner.CheckExplosiveOrders: the outer `try`/`except` and its
  log line are left out. With integer quantities nothing in the modelled
  body raises.
- ScannerTask.ExplosiveScanner.ScanExplosives: `int(user_id)` on a key that
  is not an integer stops the scan. `fetch_user` of an unknown user and any
  other exception are left out. The alert names the user as `<@id>`.
- Text.Lower: `lower()` covers ASCII letters only; Unicode case mapping is
  left out. `strip()` and `splitlines()` follow Python's Unicode whitespace
  and line-break sets.
- Numerals.ParseInt: `int()` accepts only ASCII digits here. Python also
  accepts every other Unicode decimal digit (`"１２"` is 12); the set depends
  on the Unicode version of the Python that runs the bot, and is left out.
- OrderUtils.SellPrice: `round(base_price / 3)` divides in floating point.
  The model is the exact nearest integer. Once base/3 reaches 2^51 the
  double and its round-half-to-even can be off by one, and past the float
  range `/` raises `OverflowError`; neither is modelled.
- TradePost.TradePostView.Submit: `add_reaction` with the mis-decoded red
  circle is taken to succeed. If Discord refuses that string, the handler
  stops before `end_session` and the cart is kept, which the contract does
  not state.
- SellTrader.SellTraderView.SubmitOrder: likewise `add_reaction` with the
  mis-decoded string at commands/selltrader.py:133 is taken to succeed;
  it comes before the `give` command and `clear_session`.
- TradePost.CartLineText, TradePost.OrderText, Explosives.AlertText: these
  texts use the literals as written, mis-decoded characters included. The
  replies that hold such literals (the "order placed" message at
  commands/tradepost.py:218 and the "session canceled" message at
  commands/tradepost.py:239) and the reaction at commands/selltrader.py:133
  are outcomes here, not strings.
- ScannerTask.MentionsAgree: the two scanners' alerts differ in their final
  characters, because only the root scanner's literal is the real emoji.
