# Storefront bot database and payment decisions, in Dafny

This project models the state-holding core of `nnd.py`, a Telegram storefront
bot. The bot keeps one in-memory `Database`. It holds:

- a catalog of categories and products;
- a cart per user;
- a user record per user (balance, total spent, order count) and one shared
  transaction log;
- two maps of payments waiting for an admin's decision: deposits keyed by
  transaction id, orders keyed by order id.

On top of the database sit the chat handlers that move money. A user can top
up the balance or pay for the cart with an external method. Either way they
send a screenshot, and the payment waits in the pending maps until an admin
confirms or rejects it. A user can also pay the cart from the balance. That
debits the balance at once and files the order for the admin.

Modules, one per concern:

- `Common` (common.dfy): `Option`, Python's substring test `sub in s`, and the
  decimal rendering of an integer.
- `Catalog` (catalog.dfy): products and categories, lookup by id, id
  allocation (`max(ids, default=0) + 1`), the filtering list comprehensions.
- `Carts` (carts.dfy): cart lines in insertion order, the sum of price ×
  quantity, the outcome of `add_to_cart` and the effect of adding or removing
  one unit.
- `Ledger` (ledger.dfy): user records and the transaction log as one value.
  `Open` is `get_user`, `Credit` is `add_balance`, `Debit` is
  `deduct_balance`. The invariant `Consistent` says that entry ids run 1..n
  and that every record equals what replaying the log yields.
- `Registry` (registry.dfy): the records of the two pending maps and the item
  list copied from a cart into an order.
- `Store` (store.dfy): the class `Database`. Its methods update its fields in
  place and are specified by the functions above. `Valid()` holds across every
  method: a consistent ledger, cart totals equal to their sums, and distinct
  catalog ids.
- `Handlers` (handlers.dfy): the handlers' effects on the database with the
  messaging removed. That covers the deposit limit check, starting a deposit
  or an external payment, filing a payment when the screenshot arrives,
  checkout from the balance, and the four admin decisions.

Money is a Dafny `real`, so sums and the discount are exact. The behaviours
below are modelled as the code has them:

- The deposit filed for the admin always carries 1000. The amount that
  passed the limit check is dropped when the conversation state is cleared.
- An order paid from the balance is debited before any admin sees it. Only a
  rejection gives the money back. The refund restores the balance, but not the
  total spent or the order count.
- Confirming an order changes nothing but the pending map. The cart was
  already emptied when the order was filed.
- Checkout from the balance does not re-check that the cart is empty.
- The "С баланса бота" button of the payment choice sends `pay_balance`.
  Only the external-payment handler matches it, and it answers "unknown
  method", because "balance" is not a configured method key.
- Pending payments never expire. A user may have several at once, and
  nothing is locked.

## Model

| member | source | states |
|---|---|---|
| Common.NatToString | nnd.py:1406 | the decimal rendering of the discount percent in the payment note: digits only, no leading zero, and denoting the number |
| Common.Contains | nnd.py:1919 | Python's `sub in s` on strings: true exactly when `sub` occurs at some position of `s` |
| Catalog.FindProduct | nnd.py:272-276 | `get_product`: a result is a listed product with that id; no result exactly when no listed product has that id |
| Catalog.FindCategory | nnd.py:257-261 | `get_category`: a result is a listed category with that id; no result exactly when none has it |
| Catalog.MaxId | nnd.py:264 | `max(ids, default=0)`: 0 for no ids, otherwise an upper bound of the ids that is one of them |
| Catalog.NextId | nnd.py:264 | the id a new category or product gets: 1 for an empty list, otherwise above every existing id and one more than the largest |
| Catalog.ProductsInCategory | nnd.py:269-270 | `get_products_by_category`: exactly the listed products of that category, and the whole list, in its order, when every product is in it |
| Catalog.ProductsInCategoryConcat | nnd.py:269-270 | the listing of two catalog parts is the listing of the first followed by that of the second, so the listing keeps catalog order |
| Catalog.WithoutProduct | nnd.py:292-296 | the list `delete_product` rebuilds: exactly the products with another id, shorter exactly when a product with that id was listed, and the list itself when none was |
| Catalog.WithoutProductConcat | nnd.py:294 | deleting from two catalog parts deletes from each and keeps the first part before the second |
| Catalog.WithoutProductAt | nnd.py:292-296 | with distinct ids, deleting the id of the product at position i leaves exactly the products before it followed by those after it |
| Catalog.NextIdKeepsDistinct | nnd.py:263-290 | appending an entry under the allocated id keeps the ids distinct |
| Catalog.FilterSpec | nnd.py:270 | the list comprehension holds exactly the accepted entries, is no longer than its input, and as long exactly when every entry is accepted |
| Catalog.FilterConcat | nnd.py:270 | the comprehension over a concatenation is the comprehension over each part, in order |
| Catalog.FilterKeepsAll | nnd.py:294 | a comprehension that accepts every entry returns its input unchanged, order included |
| Catalog.FilterKeepsDistinct | nnd.py:292-296 | filtering the product list keeps its ids distinct |
| Catalog.DistinctTail | nnd.py:292-296 | in a list with distinct ids, the rest of the list has distinct ids and none equals the first entry's |
| Carts.AddVerdict | nnd.py:304-317 | `add_to_cart`'s outcome: "not found" exactly when no product has the id; "sold out" exactly when its stock is at most 0; added exactly when stock is positive and the cart holds less than the stock; otherwise "only N available" with N the stock |
| Carts.CartTotal | nnd.py:324-325 | the sum of price × quantity over the lines: 0 for no lines and never negative when no price is; `CartTotalUpdate`, `CartTotalAppend` and `CartTotalDelete` give how it moves |
| Carts.AddOne | nnd.py:314-322 | the line list after an accepted add: the product ids stay as they were when the product has a line, otherwise its id is appended at the end; `AddOneEffect` gives the quantities and the sum |
| Carts.RemoveOne | nnd.py:330-334 | the line list after a removal: unchanged without a line, otherwise at most one line shorter; `RemoveOneEffect` gives the quantities and the sum |
| Carts.AddOneLines | nnd.py:314-322 | an add keeps every line's product record and position; only the product's own line differs, and a new line is appended last with the catalog record at quantity 1 |
| Carts.RemoveOneLines | nnd.py:330-334 | a removal keeps every other line and its position; a line above 1 stays in place one unit lower, and a deleted line closes up with the later lines moving down one |
| Carts.CartTotalUpdate | nnd.py:324-325 | changing one line changes the cart sum by the difference of that line's price × quantity |
| Carts.CartTotalAppend | nnd.py:324-325 | appending a line adds its price × quantity to the sum |
| Carts.CartTotalDelete | nnd.py:336-339 | deleting a line subtracts its price × quantity from the sum |
| Carts.UpdateLine | nnd.py:314-325 | replacing a line by one for the same product keeps one line per product, gives that product the new quantity, keeps every other quantity, and changes the sum by the difference of the two lines |
| Carts.AppendLine | nnd.py:319-325 | appending a line for a product without a line keeps one line per product, gives it the line's quantity, keeps every other quantity, and adds the line's price × quantity to the sum |
| Carts.DeleteLine | nnd.py:330-340 | deleting a line keeps one line per product, leaves its product with quantity 0, keeps every other quantity, and subtracts its price × quantity from the sum |
| Carts.AddOneEffect | nnd.py:314-325 | adding one unit keeps one line per product with quantities ≥ 1, raises that product's quantity by 1 (from 0 when it had no line), leaves every other quantity alone, and raises the sum by one unit price |
| Carts.RemoveOneEffect | nnd.py:328-342 | removing one unit of a product that has a line lowers its quantity by 1, deleting the line at 1, leaves every other quantity alone, and lowers the sum by one unit price |
| Carts.AddOneWithinStock | nnd.py:311-317 | when every line is within stock, an add that the stock check lets through keeps every line within its product's stock |
| Carts.RemoveOneWithinStock | nnd.py:328-342 | a removal keeps every line within its product's stock |
| Carts.CartAfterAdd | nnd.py:304-326 | the cart `add_to_cart` leaves: itself when the add is refused, otherwise at most one line longer with its total recomputed as the sum; `CartAfterAddEffect` gives its meaning |
| Carts.CartAfterRemove | nnd.py:328-342 | the cart `remove_from_cart` leaves: itself without a line, otherwise at most one line shorter with the total equal to the sum, the 0 for an emptied cart included; `CartAfterRemoveEffect` gives its meaning |
| Carts.CartAfterAddEffect | nnd.py:304-326 | the cart `add_to_cart` leaves keeps its cached total equal to its sum and is within stock when the old one was; a refused add leaves the cart as it was; an accepted one raises that product's quantity by 1 and no other, and the total by one unit price |
| Carts.CartAfterRemoveEffect | nnd.py:328-342 | the cart `remove_from_cart` leaves keeps its cached total equal to its sum (0 for no lines) and is within stock when the old one was; without a line nothing changes; with one, that quantity goes down by 1 (the line goes at 1) and no other, and the total goes down by its unit price |
| Ledger.Credit | nnd.py:173-189 | `add_balance`: registers the user, raises the balance by the amount and appends one entry, keeping the old log as its prefix; `CreditEffect` and `CreditKeepsConsistent` give the rest |
| Ledger.Debit | nnd.py:194-217 | `deduct_balance`: registers the user; when the balance covers the amount, lowers it by the amount to a balance ≥ 0 and appends one entry, otherwise leaves balance and log alone; the old log stays a prefix; `DebitFailureEffect`, `DebitSuccessEffect` and `DebitKeepsConsistent` give the rest |
| Ledger.Open | nnd.py:157-167 | `get_user`: an unknown id gets a zero record; every existing record and the log stay as they were |
| Ledger.ReplayOfStranger | nnd.py:157-167 | a user with no log entries replays to the zero record `get_user` creates |
| Ledger.ReplayAppend | nnd.py:173-217 | one more log entry changes only its own user's replay, by its own amount (and one more order for a purchase) |
| Ledger.AccountIsReplay | nnd.py:157-167 | in a consistent ledger, the record `get_user` returns (registered or freshly zero) equals the replay of the log for that user |
| Ledger.OpenKeepsConsistent | nnd.py:157-167 | registering a user keeps every record equal to its replay of the log |
| Ledger.AppendKeepsConsistent | nnd.py:173-217 | appending the next-numbered entry while setting its user's record (registered or not) to the new replay keeps the ledger consistent |
| Ledger.CreditKeepsConsistent | nnd.py:173-189 | `add_balance` keeps the ledger consistent |
| Ledger.DebitKeepsConsistent | nnd.py:194-217 | `deduct_balance` keeps the ledger consistent, when it fails and when it goes ahead |
| Ledger.CreditEffect | nnd.py:173-189 | a credit raises that balance by exactly the amount, changes no other record, and appends one deposit entry numbered log length + 1 |
| Ledger.DebitFailureEffect | nnd.py:194-200 | a debit over the balance leaves balance, total spent, order count and the log unchanged; at most the user is registered |
| Ledger.DebitSuccessEffect | nnd.py:202-217 | a debit within the balance lowers it by the amount, raises total spent by it and the order count by 1, appends one purchase entry of minus the amount, and leaves a balance ≥ 0 |
| Ledger.CreditThenDebit | nnd.py:173-217 | crediting an amount to a non-negative balance makes a debit of the same amount possible; afterwards the balance is as before and the two new entries sum to zero |
| Ledger.DebitThenRefund | nnd.py:194-217 | refunding a debit restores the balance but keeps the added spend and order |
| Registry.OrderItems | nnd.py:1392-1400 | the order's item list has one item per cart line, in line order, with that line's product id, name, price and quantity |
| Registry.OrderItemsTotal | nnd.py:1392-1400 | the copied items add up to the cart total they were taken from |
| Store.Database.constructor | nnd.py:78-105 | a start without saved files: no users, log, carts, products or pending payments; the three default categories; discount 5%, deposit limits 100 and 50000 |
| Store.Database.GetUser | nnd.py:157-167 | returns the user's record, or a zero record that it registers; the ledger becomes `Open` of the old one |
| Store.Database.GetUserBalance | nnd.py:169-171 | the user's balance, registering an unknown user at zero |
| Store.Database.AddBalance | nnd.py:173-192 | always succeeds; the ledger becomes `Credit` of the old one and stays consistent |
| Store.Database.DeductBalance | nnd.py:194-221 | succeeds exactly when the balance covers the amount, with the source's two messages; the ledger becomes `Debit` of the old one and stays consistent |
| Store.Database.AddPendingDeposit | nnd.py:223-226 | the deposit map gains (or overwrites) the entry under that id |
| Store.Database.GetPendingDeposit | nnd.py:228-230 | the entry under that id, present exactly when the id is in the map |
| Store.Database.RemovePendingDeposit | nnd.py:232-236 | the id is gone from the map; a missing id changes nothing |
| Store.Database.AddPendingOrder | nnd.py:238-241 | the order map gains (or overwrites) the entry under that id |
| Store.Database.GetPendingOrder | nnd.py:243-245 | the entry under that id, present exactly when the id is in the map |
| Store.Database.RemovePendingOrder | nnd.py:247-251 | the id is gone from the map; a missing id changes nothing |
| Store.Database.AddCategory | nnd.py:263-267 | appends a category under an id above every existing one and keeps category ids distinct |
| Store.Database.AddProduct | nnd.py:278-290 | appends a product under an id above every existing one (stock 9999 by default) and keeps product ids distinct |
| Store.Database.DeleteProduct | nnd.py:292-296 | keeps exactly the products with another id, in their order (the product at the deleted position is cut out and the rest close up), and answers true exactly when a product with that id was listed |
| Store.Database.GetCart | nnd.py:299-302 | the user's cart, creating an empty one for a user without a cart |
| Store.Database.AddToCart | nnd.py:304-326 | the outcome is `AddVerdict` of the user's cart; the user's cart becomes `CartAfterAdd` of it (created when missing, also on a refused add) and no other user's cart changes |
| Store.Database.RemoveFromCart | nnd.py:328-342 | true exactly when the product has a line in the user's cart; that cart becomes `CartAfterRemove` of it (created when missing) and no other user's cart changes |
| Store.Database.ClearCart | nnd.py:344-346 | an existing cart becomes empty with total 0 and no cart is created, so a second call changes nothing |
| Handlers.DisplayName | nnd.py:1213 | `username or "без username"`: a non-empty handle is kept, otherwise the placeholder, never empty |
| Handlers.CheckDepositAmount | nnd.py:1147-1167 | accepted exactly when min ≤ amount ≤ max; "too small" exactly below the minimum; "too large" exactly above the maximum and not below the minimum |
| Handlers.StartDeposit | nnd.py:1190-1218 | a deposit draft exactly when the method key is configured; its amount is always 1000, whatever was entered, and its username is the display name |
| Handlers.StartExternalPayment | nnd.py:1459-1506 | an unknown method is refused before the cart is read; an empty cart is refused; otherwise the draft holds the cart's total and its item copy, which add up to that total |
| Handlers.SubmitScreenshot | nnd.py:1557-1679 | a deposit draft is filed as a pending deposit with nothing else changed; a purchase draft is filed as a pending order without discount and the user's cart is emptied; no account changes |
| Handlers.DiscountedTotal | nnd.py:1383-1386 | the amount charged from the balance: the total less `total * percent / 100`, which equals the total scaled to the remaining percentage, and the total itself at 0% |
| Handlers.BalanceOrder | nnd.py:1414-1424 | the `order_data` a balance checkout files: its user, name and id, the discounted total, a payment method a rejection refunds, the percent, amount and original total of the discount (amount + charge = original total), and items adding up to the cart total |
| Handlers.DiscountedTotalBounds | nnd.py:1383-1386 | with a discount of at most 100%, the charged amount lies between 0 and the cart total |
| Handlers.ConfirmBalancePayment | nnd.py:1375-1430 | succeeds exactly when the balance covers the discounted total; the ledger becomes `Debit` of that amount; on failure no order is filed and no cart emptied; on success the order is filed with method "Баланс бота" and the discount record, and the cart is emptied |
| Handlers.ChargeCart | nnd.py:1378-1411 | reads the user's cart (creating it when missing) and debits the discounted total: succeeds exactly when the balance covers it, and the ledger becomes `Debit` of that amount |
| Handlers.FileBalanceOrder | nnd.py:1414-1430 | after the debit, the order is filed under its id and the user's cart is emptied |
| Handlers.BalanceButtonKeyIsUnknown | nnd.py:1458-1466 | the method key the balance button yields, "balance", is none of the configured keys, so the external-payment handler refuses it as unknown |
| Handlers.RefundableMethods | nnd.py:1422 | "Баланс бота" contains "Баланс"; no configured external method name does |
| Handlers.ConfirmDeposit | nnd.py:1695-1723 | a non-admin gets "access denied" and nothing changes; a missing id gets "not found" and nothing changes; otherwise the ledger becomes `Credit` of the filed amount and the entry is removed |
| Handlers.RejectDeposit | nnd.py:1762-1783 | the same access and lookup outcomes; otherwise only the entry is removed |
| Handlers.ConfirmOrder | nnd.py:1823-1845 | the same access and lookup outcomes; otherwise only the entry is removed |
| Handlers.RejectOrder | nnd.py:1897-1927 | the same access and lookup outcomes; otherwise the order total is credited back exactly when the method contains "Баланс", and the entry is removed |
| Handlers.ConfirmDepositTwice | nnd.py:1707-1723 | a second confirmation of the same deposit finds nothing, so the amount is credited at most once |
| Handlers.BalanceCheckoutRejected | nnd.py:1919-1927 | a balance checkout that an admin rejects leaves the balance as before but total spent and order count raised, two log entries added, the cart empty and the order gone |

## Left out

- Saving to and loading from the JSON files (`load_data`, `save_products_data`, `save_users_data`) is file I/O. Saves are no-ops here. The constructor models only a start without saved files.
- Settings read from a saved file are left out. Checkout falls back to a 10% discount when the settings lack the key; the model always has the field.
- All chat I/O is left out: messages, alerts, message edits, keyboards and text formatting. The only effect kept from `send_to_payment_channel` and `send_to_order_channel` is their `add_pending_*` call.
- The conversation state store (`set_state`, `update_data`, `get_data`, `clear`) is framework state. The payment data travels as an explicit `PaymentDraft` value. The screenshot handler's branch for an unknown payment type has no counterpart, because a draft is always one of the two kinds.
- Timestamps and the ids built from them (`DEP_…`, `ORD_…`) are taken as caller-supplied strings.
- Floating-point rounding is left out. Money is exact `real` arithmetic.
- Parsing the typed deposit amount (`float(...)`, comma to dot) is left out. `CheckDepositAmount` receives the number. A `real` cannot be "nan", which `float` accepts and which passes both limit comparisons in the source.
- Exceptions and the `try`/`except` fallbacks are left out, and so is the polling loop.
- Each handler is modelled as one atomic step. The interleaving of concurrently running handlers at their `await` points is left out. For example, a second tap on the balance payment button while the first is awaiting `send_to_order_channel` charges the same cart again before `clear_cart` runs.
- The views are left out: profile, history, cart view, the checkout screens, admin statistics and listings. They read and format. Their only effect on state is that the profile, cart view and checkout screens create the user record and the cart on first use through `get_user`, `get_user_balance` and `get_cart`, which `Store.Database.GetUser`, `Store.Database.GetUserBalance` and `Store.Database.GetCart` model.
- Registration and last-activity dates in user records are left out, being clock values.
- The `get_user_balance` calls that only feed notifications are left out.
- Store.Database.Valid: "every cart line is within stock" is not an invariant of the database, because `add_product` can hand out again the id of a deleted product with the largest id, and a cart line may still refer to that id. `Carts.CartAfterAddEffect` and `Carts.CartAfterRemoveEffect` instead state that a cart change keeps the property.
- Handlers.DiscountedTotalBounds: holds for discounts up to 100%. Settings are not range-checked in the source.
