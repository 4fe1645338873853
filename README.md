# ServeX order, session and payment workflow in Dafny

ServeX is a restaurant table-ordering system. A diner scans the QR code on a table, which
issues a short-lived table session token. The diner browses the menu, fills a cart and places
an order. The order is then paid through the online gateway or confirmed for cash at the
counter, and its progress is tracked in real time. Kitchen staff move paid orders through
PREPARING, READY and SERVED. Admins manage the menu and the tables.

This project models the core of that system and proves properties of the model:

- **Backend** (`orders.dfy`, `payments.dfy`, `tables.dfy`, `menu.dfy`, `cleanup.dfy`,
  `auth.dfy`):
  - the route handlers, with the database held in memory as the class `Database.Store`;
  - the cleanup sweep, and the authentication middleware.
  Every handler is a method whose postcondition gives the status code of each guard, in
  source order, and the complete new state. Each handler preserves `Store.Valid`, the
  cross-request invariant. It says:
  - a table has at most one CREATED order;
  - every stored order has sanitised lines and server-computed amounts;
  - every payment charges its order's total;
  - an order has at most one PENDING payment;
  - session tokens, and table numbers, are unique.
- **Document types** (`models.dfy`, `pricing.dfy`, `money.dfy`): the schema defaults, the
  status enumerations and the session-token generator. Money is integer paise, and
  `Math.round(x * 100) / 100` becomes exact round-half-up to the nearest paisa.
- **Client** (`cart.dfy`, `utils.dfy`, `kitchen.dfy`, `tracking.dfy`, `menupage.dfy`,
  `menumanagement.dfy`, `tablemanagement.dfy`, `app.dfy`):
  - the cart store;
  - the session-storage helpers;
  - the list reducers of the kitchen dashboard and the admin pages;
  - the order tracker, the menu filter, the tag text field and the route guard.
  Stateful pieces are classes whose methods are specified by pure functions. The properties
  are proved about those functions.
- **Shared helpers**: `wrappers.dfy`, `strings.dfy`, `collections.dfy`.

Order status includes CANCELLED. The cleanup job writes it, although the order schema's enum
leaves it out (`Models.SchemaEnumOmitsCancelled`). PENDING_CASH is declared by the schema, but
no route writes it, and `Store.Valid` records that. The status PATCH writes any of PAID,
PREPARING, READY and SERVED whatever the current status is, as the code does. The client cart
(SGST and CGST at 2.5% each) and the server (5% tax plus 5% service charge) price an order
differently. Both rules are modelled, and `Cart.TaxRulesDiffer` shows that they disagree.

Foreign inputs are parameters:
- the clock reading `now`;
- the 32 random bytes of a session token;
- the id-generator output on the client;
- the gateway order id (`None` when the gateway call fails);
- the validity of the gateway signature;
- the JWT verification, as a function from token to user id;
- the QR image renderer and its base URL;
- the answer to a confirmation dialog.

Socket notifications are recorded in a ghost event log, `Store.events`.

## Model

| member | source | states |
|---|---|---|
| Models.ParseStatus | backend/src/models/Order.ts:18 | a status string is read as a status only when that status has exactly this name |
| Models.ParseStatusName | backend/src/models/Order.ts:18 | every status is read back from its own name, so the seven names are distinct |
| Models.SchemaEnumOmitsCancelled | backend/src/models/Order.ts:43 | the schema enum holds the name of every status except CANCELLED, and not CANCELLED |
| Models.NewOrder | backend/src/models/Order.ts:36-49 | a created order has status CREATED, method ONLINE and no payment, with the given table, lines, session and time |
| Models.NewSession | backend/src/models/TableSession.ts:13-19 | a new session is ACTIVE, with last activity at its creation time and the given token and expiry |
| Models.HexDigit | backend/src/models/TableSession.ts:27 | a nibble becomes one lower-case hex character |
| Models.HexValue | backend/src/models/TableSession.ts:27 | a hex character's value is a nibble whose digit is that character |
| Models.ToHex | backend/src/models/TableSession.ts:27 | hex encoding yields two hex characters per byte |
| Models.FromHexToHex | backend/src/models/TableSession.ts:26-28 | decoding the hex text gives the bytes back, so different random bytes give different tokens |
| Models.GenerateSessionToken | backend/src/models/TableSession.ts:26-28 | a token from 32 random bytes is 64 lower-case hex characters |
| Models.NewPayment | backend/src/models/Payment.ts:16-25 | a new payment has gateway razorpay, currency INR, no gateway payment id or signature, and the given order, gateway order, amount and status |
| Models.NewTable | backend/src/models/Table.ts:13-19 | a new table is active, with empty QR fields and capacity 4 unless one is given |
| Models.NewMenuItem | backend/src/models/MenuItem.ts:16-25 | every optional menu field takes its schema default when absent: empty description and image, available, 15 minutes, no tags |
| Money.RoundHalfUp | backend/src/routes/orders.ts:107 | the result is within half a unit of n/d, and a half rounds up |
| Money.RoundHalfUpUnique | backend/src/routes/orders.ts:107 | the rounded value is the only integer within that half unit |
| Money.RoundHalfUpWhole | backend/src/routes/orders.ts:109 | rounding an amount that is already whole keeps it |
| Money.Share | backend/src/routes/orders.ts:107-108 | a share num/den of an amount is the nearest paisa to amount × num/den |
| Money.ShareBounds | backend/src/routes/orders.ts:107-108 | a share at a rate of at most one, of a non-negative amount, lies between zero and the amount |
| Pricing.SubtotalAppend | backend/src/routes/orders.ts:106 | the subtotal of concatenated lines is the sum of their subtotals |
| Pricing.SubtotalNonNegative | backend/src/routes/orders.ts:106 | lines with non-negative prices and positive quantities have a non-negative subtotal |
| Pricing.Tax | backend/src/routes/orders.ts:107 | tax is 5% of the subtotal, to the nearest paisa, halves up |
| Pricing.ServiceCharge | backend/src/routes/orders.ts:108 | the service charge is 5% of the subtotal, to the nearest paisa, halves up |
| Pricing.Total | backend/src/routes/orders.ts:109 | the total is exactly subtotal + tax + service charge, because rounding a whole sum keeps it |
| Pricing.TotalBounds | backend/src/routes/orders.ts:106-109 | tax equals the service charge and lies between zero and the subtotal, so the total lies between the subtotal and three times it |
| Database.Store.SaveNewOrder | backend/src/routes/orders.ts:112-128 | a CREATED order is stored under a fresh id and its session is extended to now + 30 min; the invariant holds when the table had no CREATED order |
| Database.OrderUpdateKeepsInvariants | backend/src/routes/payments.ts:52 | setting an order PAID (or any status other than CREATED and PENDING_CASH) with its payment fields keeps every order and payment invariant |
| Database.PaymentSucceededKeepsInvariants | backend/src/routes/payments.ts:49 | marking a payment SUCCESS keeps every payment invariant |
| OrdersRoute.RateLimit | backend/src/routes/orders.ts:19-34 | no record, or a window that has ended, starts a window of one allowed attempt ending 10 minutes later; inside a window an attempt is allowed iff fewer than 5 were counted, and only an allowed attempt is counted |
| OrdersRoute.WindowCap | backend/src/routes/orders.ts:28-33 | attempts inside an open window are allowed exactly while it has room, and the count stops at 5 with the window end unchanged |
| OrdersRoute.AtMostFivePerWindow | backend/src/routes/orders.ts:16-34 | a window opened by a fresh attempt admits min(number of attempts, 5) attempts before its end, so never more than 5 |
| OrdersRoute.OrderRouter.CheckTableRateLimit | backend/src/routes/orders.ts:19-34 | decides one attempt by the rule above and stores that table's new record, leaving the other tables' records |
| OrdersRoute.OrderRouter.CreateOrder | backend/src/routes/orders.ts:37-135 | the guards in source order (400 bad table, 401 no token, 401 no live session, 429 rate limit, 400 with the existing CREATED order's id, 400 no lines, 400 unavailable or repeated items), each leaving the store untouched; an attempt that passed the session guards stays counted; past every guard a CREATED order with catalogue prices is stored and the session extended, or 500 untouched when a catalogue name is empty; one CREATED order per table is kept |
| OrdersRoute.MatchingSession | backend/src/routes/orders.ts:52-57 | finds a session of this table with this token that is ACTIVE and expires strictly after now, and finds none exactly when no session qualifies |
| OrdersRoute.UnpaidOrder | backend/src/routes/orders.ts:69-72 | finds a CREATED order of the table, and finds none exactly when there is none |
| OrdersRoute.ClampQuantity | backend/src/routes/orders.ts:100 | the quantity lies in [1, 99]: kept inside the range, 99 above it, 1 below it or when not a number |
| OrdersRoute.BuildLines | backend/src/routes/orders.ts:94-104 | one stored line per request line, in order, each built from the request and its catalogue item |
| OrdersRoute.BuiltLinesSanitised | backend/src/routes/orders.ts:94-104 | every stored line keeps the requested id, takes the catalogue name and price, has quantity in [1, 99] and instructions of at most 500 characters |
| OrdersRoute.ClientPriceIgnored | backend/src/routes/orders.ts:101 | the price and name the client sends have no effect on the stored line |
| OrdersRoute.AvailableCountCheck | backend/src/routes/orders.ts:86-91 | the count comparison passes iff every line names an available item and no item is named twice |
| OrdersRoute.PlacedOrder | backend/src/routes/orders.ts:106-123 | the stored order is CREATED, has the rebuilt lines and server-side amounts, and has name and phone cut to 100 and 20 characters |
| OrdersRoute.FindOrder | backend/src/routes/orders.ts:151-159 | 200 with the order iff the id is stored, else 404 |
| OrdersRoute.PatchStatus | backend/src/routes/orders.ts:165-168 | a status is accepted iff it is PAID, PREPARING, READY or SERVED |
| OrdersRoute.CompleteTableSessions | backend/src/routes/orders.ts:180-185 | afterwards the table has no ACTIVE session; its ACTIVE sessions became COMPLETED and nothing else changed |
| OrdersRoute.UpdateStatus | backend/src/routes/orders.ts:162-191 | 400 for another status, 404 for an unknown order; otherwise the status is written whatever it was, one status event is logged, and SERVED completes the table's active sessions |
| OrdersRoute.KitchenOrders | backend/src/routes/orders.ts:141-143 | exactly the PAID, PREPARING and READY orders, each once, by ascending creation time |
| OrdersRoute.SortedByCreated | backend/src/routes/orders.ts:143 | a list sorted by either creation-time comparator is ordered by the orders' creation times |
| OrdersRoute.CreatedOrdersArePreorders | backend/src/routes/orders.ts:143 | both creation-time comparators used for sorting are total and transitive |
| OrdersRoute.AdminSorted | backend/src/routes/orders.ts:197-199 | exactly the orders matching the status filter, each once, newest first |
| OrdersRoute.CeilDiv | backend/src/routes/orders.ts:201 | the page count is the least number of pages of `limit` that hold `total` |
| OrdersRoute.Skip | backend/src/routes/orders.ts:199 | the number skipped is (page - 1) × limit, never negative |
| OrdersRoute.Window | backend/src/routes/orders.ts:199 | at most `limit` consecutive entries starting at `skip`; a full window when there is room, the rest when fewer remain, none past the end |
| OrdersRoute.AdminOrders | backend/src/routes/orders.ts:194-205 | the page holds the matching orders from index (page - 1) × limit onwards, at most `limit` of them; total is their number and pages = ceil(total / limit) |
| OrdersRoute.AdminOrdersQuery | backend/src/routes/orders.ts:196-201 | an absent page is 1 and an absent limit is 20; with neither, the first min(total, 20) matching orders, newest first |
| OrdersRoute.SkipOfIndex | backend/src/routes/orders.ts:199 | every index i is at position i mod limit of page i div limit + 1 |
| OrdersRoute.PageHolds | backend/src/routes/orders.ts:199-201 | every matching order appears on its page at its position |
| PaymentsRoute.PendingPayment | backend/src/routes/payments.ts:24 | finds a PENDING payment of the order, and finds none exactly when there is none |
| PaymentsRoute.PaymentByGatewayOrder | backend/src/routes/payments.ts:49 | finds a payment with that gateway order id, and finds none exactly when there is none |
| PaymentsRoute.CreatePayment | backend/src/routes/payments.ts:16-41 | 404 unknown order, 400 not CREATED, the existing PENDING payment handed out again with nothing created, else exactly one new PENDING payment of the order total (500 when the gateway fails) |
| PaymentsRoute.VerifyPayment | backend/src/routes/payments.ts:43-63 | 400 on a bad signature, 404 when no payment has the gateway order id; otherwise that payment becomes SUCCESS and the order named in the request becomes PAID with that payment, whatever its status and whichever order the payment is for, with order:new and a status update logged; an unknown order id still answers 200 |
| PaymentsRoute.ConfirmCash | backend/src/routes/payments.ts:65-88 | 404 unknown order, 400 not CREATED; otherwise PAID with method CASH, order:new and a status update logged, nothing else changed |
| PaymentsRoute.ConfirmCashTwice | backend/src/routes/payments.ts:70 | a second cash confirmation after a successful one is refused with 400, and the events are logged once |
| TablesRoute.AllTables | backend/src/routes/tables.ts:12-19 | every table once, by ascending table number |
| TablesRoute.TableSessionOf | backend/src/routes/tables.ts:33-34 | finds a session of the table, and finds none exactly when it has none |
| TablesRoute.ScanTable | backend/src/routes/tables.ts:22-57 | 404 unknown table, 400 inactive, both touching nothing; otherwise the table's session is upserted ACTIVE with a fresh 64-hex token expiring in 30 min, older tokens stop matching, and a token held elsewhere fails with 500; nothing else changes and no event is logged |
| TablesRoute.ValidateSession | backend/src/routes/tables.ts:60-83 | 400 without a token; 200 iff an ACTIVE session of the table holds the token and expires after now, which is then extended by 30 min with nothing else changed and no event logged; else 401 |
| TablesRoute.QrData | backend/src/services/qrcode.ts:7-10 | a table's link is the base URL followed by /t/ and the id |
| TablesRoute.QrDataInjective | backend/src/services/qrcode.ts:7-10 | different tables get different links |
| TablesRoute.CreateTable | backend/src/routes/tables.ts:86-100 | 400 when the number or capacity is not positive or the number is taken; else a new active table with its QR link and image (201) |
| TablesRoute.ApplyTablePatch | backend/src/routes/tables.ts:105 | every field in the body overwrites the table's, and absent fields keep their values |
| TablesRoute.UpdateTable | backend/src/routes/tables.ts:103-111 | 404 unknown table, 500 when the new number is another table's; otherwise the patched table is stored, with nothing else changed and no event logged |
| TablesRoute.DeleteTable | backend/src/routes/tables.ts:114-124 | 404 unknown table; otherwise the table and exactly its sessions are removed, its orders stay, and no event is logged |
| TablesRoute.ExpireTableSessions | backend/src/routes/tables.ts:136 | every session of the table becomes EXPIRED, and other sessions are untouched |
| TablesRoute.RegenerateQr | backend/src/routes/tables.ts:127-141 | 404 unknown table; otherwise a new QR and every session of the table EXPIRED, so no token validates for it; no event is logged |
| MenuRoute.ItemLeIsPreorder | backend/src/routes/menu.ts:12 | ordering by category and then name is total and transitive |
| MenuRoute.AvailableMenu | backend/src/routes/menu.ts:7-17 | exactly the available items of the requested category (all when none is given), each once, sorted by category and then name |
| MenuRoute.Categories | backend/src/routes/menu.ts:19-26 | every category of any item, available or not, each once |
| MenuRoute.FindItem | backend/src/routes/menu.ts:28-36 | 200 with the item iff the id is stored, else 404 |
| MenuRoute.CreateMenuItem | backend/src/routes/menu.ts:38-45 | without a name, category and price the schema rejects the body (500); otherwise a new item with the schema defaults is stored (201) |
| MenuRoute.ApplyMenuPatch | backend/src/routes/menu.ts:49 | every field in the body overwrites the item's, and absent fields keep their values |
| MenuRoute.EmptyPatchIsIdentity | backend/src/routes/menu.ts:49 | an empty patch changes nothing |
| MenuRoute.PatchMenuItem | backend/src/routes/menu.ts:47-55 | 404 unknown item; otherwise the patched item is stored, with nothing else changed and no event logged |
| MenuRoute.ToggleAvailability | backend/src/routes/menu.ts:57-67 | 404 unknown item; 500 with nothing written when the stored item has an empty name or category, which `save()` validation rejects; otherwise only `isAvailable` flips |
| MenuRoute.ToggleTwice | backend/src/routes/menu.ts:57-67 | toggling twice restores the menu, and both calls answer alike |
| MenuRoute.DeleteMenuItem | backend/src/routes/menu.ts:69-77 | 404 unknown item; otherwise exactly that item is removed, with nothing else changed and no event logged |
| Cleanup.ExpireSessions | backend/src/jobs/cleanup.ts:13-16 | every ACTIVE session with expiry before now becomes EXPIRED, and every other session is unchanged |
| Cleanup.CancelAbandoned | backend/src/jobs/cleanup.ts:23-27 | every CREATED order older than 15 minutes becomes CANCELLED, and every other order is unchanged |
| Cleanup.SweepIdempotent | backend/src/jobs/cleanup.ts:13-27 | a second sweep with the same clock reading changes nothing |
| Cleanup.ExpiryBoundary | backend/src/jobs/cleanup.ts:14 | a session expiring exactly now stays ACTIVE in the sweep, yet order creation and validation already refuse it |
| Cleanup.RunCleanup | backend/src/jobs/cleanup.ts:8-36 | one sweep expires the lapsed sessions and cancels the abandoned orders, keeping every invariant and touching nothing else |
| Cleanup.ExpireKeepsInvariants | backend/src/jobs/cleanup.ts:13-16 | expiring sessions keeps tokens unique and one session per table |
| Cleanup.CancelKeepsInvariants | backend/src/jobs/cleanup.ts:24-27 | cancelling keeps one CREATED order per table, the order amounts and the payment links |
| Cleanup.RunCleanupTwice | backend/src/jobs/cleanup.ts:39-42 | two sweeps with the same clock reading leave the state of one, with tables, menu, payments and events untouched |
| Auth.BearerToken | backend/src/middleware/auth.ts:22-23 | a token exists iff the header starts with "Bearer" and has a second space-separated field, and it is that field |
| Auth.BearerRoundTrip | backend/src/middleware/auth.ts:22-23 | "Bearer " followed by a token without spaces gives that token back |
| Auth.Protect | backend/src/middleware/auth.ts:19-38 | the request passes iff there is a non-empty token that verifies to a known active user, who is then attached; every refusal is 401 and leaves the request as it was |
| Auth.Authorize | backend/src/middleware/auth.ts:40-47 | the request passes iff there is a user whose role is listed, else 403 |
| Auth.StaffScopes | backend/src/routes/orders.ts:138 | kitchen staff pass the kitchen routes and are refused the admin-only ones; admins pass both |
| Cart.SumsAppend | frontend/src/store/cartStore.ts:47-51 | appending a line adds its price × quantity to the subtotal and its quantity to the item count |
| Cart.Gst | frontend/src/store/cartStore.ts:48-49 | SGST and CGST are each 2.5% of the subtotal, to the nearest paisa, halves up |
| Cart.CartTotal | frontend/src/store/cartStore.ts:50 | the total is exactly the subtotal plus both GST halves |
| Cart.TaxRulesDiffer | frontend/src/store/cartStore.ts:48-50 | on Rs 100 the cart's `CartTotal` is Rs 105 while the server's `Pricing.Total` is Rs 110 |
| Cart.UpdateLines | frontend/src/store/cartStore.ts:37 | lines with the id are transformed, others kept, with length and order unchanged |
| Cart.UpdateSums | frontend/src/store/cartStore.ts:37 | changing the one line with an id changes the sums by that line's difference |
| Cart.AddLine | frontend/src/store/cartStore.ts:34-39 | an id already in the cart bumps only its line; a new id is appended with quantity 1 and no instructions |
| Cart.AddLineProperties | frontend/src/store/cartStore.ts:34-39 | adding keeps the ids unique and the quantities positive, adds exactly one to the item count, and leaves the item in the cart |
| Cart.RemoveLines | frontend/src/store/cartStore.ts:40 | exactly the lines of other ids remain, in their order |
| Cart.RemoveLinesProperties | frontend/src/store/cartStore.ts:40 | removing keeps ids unique and leaves one line fewer iff the id was present |
| Cart.UpdateQuantity | frontend/src/store/cartStore.ts:41-44 | a quantity of 0 or less removes the line; a positive one is set on the matching line only, and no line is ever added |
| Cart.UpdateQuantityValid | frontend/src/store/cartStore.ts:41-44 | setting a quantity keeps ids unique and quantities positive |
| Cart.UpdateInstructions | frontend/src/store/cartStore.ts:45 | only the matching line's instructions change |
| Cart.UpdateInstructionsValid | frontend/src/store/cartStore.ts:45 | setting instructions keeps the cart valid |
| Cart.ExpiryWindow | frontend/src/store/cartStore.ts:52-56 | a non-empty cart touched at t is expired iff more than 15 minutes have strictly passed |
| Cart.CartStore.constructor | frontend/src/store/cartStore.ts:30-32 | an empty cart with no table and no recorded activity |
| Cart.CartStore.SetTableId | frontend/src/store/cartStore.ts:33 | sets the table and last activity, keeping the lines |
| Cart.CartStore.AddItem | frontend/src/store/cartStore.ts:34-39 | the lines become AddLine of the old lines, the item count grows by one, and activity is now |
| Cart.CartStore.RemoveItem | frontend/src/store/cartStore.ts:40 | the lines become RemoveLines of the old lines, and activity is now |
| Cart.CartStore.SetQuantity | frontend/src/store/cartStore.ts:41-44 | the lines become UpdateQuantity of the old lines, and activity is now |
| Cart.CartStore.SetInstructions | frontend/src/store/cartStore.ts:45 | the lines become UpdateInstructions of the old lines, and activity is now |
| Cart.CartStore.ClearCart | frontend/src/store/cartStore.ts:46 | no lines and no recorded activity; the table stays |
| Cart.CartStore.CheckExpiry | frontend/src/store/cartStore.ts:57-63 | returns true iff the cart was expired, and then it is cleared; otherwise nothing changes; afterwards it is not expired |
| ClientUtils.LabelInjective | frontend/src/lib/utils.ts:28-35 | different counts or units never print the same label, and no label reads "Just now" |
| ClientUtils.JustNow | frontend/src/lib/utils.ts:29-30 | "Just now" iff less than a minute has elapsed, future dates included |
| ClientUtils.TimeAgoBucket | frontend/src/lib/utils.ts:28-35 | from one minute on the label names a count and unit whose bucket holds the elapsed time |
| ClientUtils.BucketUnique | frontend/src/lib/utils.ts:28-35 | an elapsed time lies in one bucket only |
| ClientUtils.TimeAgoLabel | frontend/src/lib/utils.ts:28-35 | the label is "n units ago" iff the elapsed time falls in that bucket (minutes below an hour, hours below a day, then days) |
| ClientUtils.StatusText | frontend/src/lib/utils.ts:42-45 | an unknown status is shown as it is |
| ClientUtils.StatusTextDistinct | frontend/src/lib/utils.ts:42-45 | each of the seven statuses has its own wording, different from its raw name |
| ClientUtils.StatusColor | frontend/src/lib/utils.ts:37-40 | an unknown status gets badge-primary |
| ClientUtils.StatusColorGroups | frontend/src/lib/utils.ts:37-40 | warning for CREATED, PENDING_CASH and PREPARING; success for READY and SERVED; error for CANCELLED; primary for PAID |
| ClientUtils.KeysDistinct | frontend/src/lib/utils.ts:4-22 | token keys and session-id keys never collide, and each is one key per table |
| ClientUtils.SetThenGet | frontend/src/lib/utils.ts:4-10 | after storing a token for a table, reading that table gives it and other tables read as before |
| ClientUtils.ClearThenGet | frontend/src/lib/utils.ts:4-14 | after clearing a table, reading it gives null and other tables read as before |
| ClientUtils.StoredId | frontend/src/lib/utils.ts:17-22 | a stored session id counts iff present and non-empty |
| ClientUtils.SessionStorage.GetSessionToken | frontend/src/lib/utils.ts:4-6 | the token stored for the table, or null |
| ClientUtils.SessionStorage.SetSessionToken | frontend/src/lib/utils.ts:8-10 | stores the token under the table's key only |
| ClientUtils.SessionStorage.ClearSessionToken | frontend/src/lib/utils.ts:12-14 | removes the table's token key only |
| ClientUtils.SessionStorage.GetSessionId | frontend/src/lib/utils.ts:17-22 | a stored non-empty id is returned unchanged; otherwise the generated id is stored and returned; afterwards the key holds the returned id |
| ClientUtils.SessionStorage.GetSessionIdTwice | frontend/src/lib/utils.ts:17-22 | two calls in a row return the same id |
| Kitchen.GetNext | frontend/src/pages/kitchen/Dashboard.tsx:40 | a successor exists iff the status is PAID, PREPARING or READY, and it is a status name |
| Kitchen.NextChain | frontend/src/pages/kitchen/Dashboard.tsx:40 | PAID, then PREPARING, then READY, then SERVED, which has no successor |
| Kitchen.OrderArrived | frontend/src/pages/kitchen/Dashboard.tsx:34 | the new order is put first and the list grows by one |
| Kitchen.Relabel | frontend/src/pages/kitchen/Dashboard.tsx:35 | only the matching order's status changes, in place |
| Kitchen.StatusUpdated | frontend/src/pages/kitchen/Dashboard.tsx:35 | no SERVED order remains, every unserved relabelled order remains, nothing else appears, the remaining cards keep their order, and SERVED removes that id |
| Kitchen.AfterHandleUpdate | frontend/src/pages/kitchen/Dashboard.tsx:39 | SERVED removes exactly that id locally, keeping the rest in order; any other status leaves the list |
| Kitchen.ServedEchoAgrees | frontend/src/pages/kitchen/Dashboard.tsx:35-39 | local removal followed by the server's SERVED echo gives what the echo alone gives |
| Kitchen.StatusCount | frontend/src/pages/kitchen/Dashboard.tsx:71 | a counter never exceeds the number of cards |
| Kitchen.StatsCoverList | frontend/src/pages/kitchen/Dashboard.tsx:65-71 | on kitchen statuses only, the three counters add up to the number of cards |
| Kitchen.ArrivalCounts | frontend/src/pages/kitchen/Dashboard.tsx:34 | a new order adds one to its own status's counter only |
| Kitchen.KitchenBoard.constructor | frontend/src/pages/kitchen/Dashboard.tsx:26-27 | the list starts as the fetched kitchen listing |
| Kitchen.KitchenBoard.OnOrderNew | frontend/src/pages/kitchen/Dashboard.tsx:34 | the list becomes OrderArrived of the old list |
| Kitchen.KitchenBoard.OnStatusUpdate | frontend/src/pages/kitchen/Dashboard.tsx:35 | the list becomes StatusUpdated of the old list |
| Kitchen.KitchenBoard.HandleUpdate | frontend/src/pages/kitchen/Dashboard.tsx:39 | the list becomes AfterHandleUpdate of the old list |
| Kitchen.KitchenBoard.ServeThenEcho | frontend/src/pages/kitchen/Dashboard.tsx:35-39 | serving and then receiving the echo leaves the list the echo alone would |
| Tracking.StepIndex | frontend/src/pages/OrderTracking.tsx:39 | the first position of the status among the steps, or -1 iff it is not a step |
| Tracking.DonePrefix | frontend/src/pages/OrderTracking.tsx:74-76 | step i is lit iff i <= the status's position, so the lit steps are a prefix; a status off the tracker lights none |
| Tracking.CreatedAndServed | frontend/src/pages/OrderTracking.tsx:74-76 | CREATED lights no step and SERVED lights all four |
| Tracking.KitchenAdvancesOneStep | frontend/src/pages/OrderTracking.tsx:8 | the kitchen's advance button moves an order exactly one step along the customer's tracker |
| Tracking.View | frontend/src/pages/OrderTracking.tsx:61 | the counter panel shows iff the status is PENDING_CASH; otherwise the lit steps |
| Tracking.TrackingPage.constructor | frontend/src/pages/OrderTracking.tsx:16 | the page holds its order id and the order loaded for it, if any |
| Tracking.TrackingPage.OnStatusUpdate | frontend/src/pages/OrderTracking.tsx:23 | only an event for this page's loaded order changes it, and only its status |
| MenuPage.FilteredItems | frontend/src/pages/Menu.tsx:24-27 | exactly the items of the chosen category (or All) whose lower-cased name contains the lower-cased search, in menu order |
| MenuPage.ShowAll | frontend/src/pages/Menu.tsx:24-27 | All with no search shows the whole menu |
| MenuPage.SearchesNameOnly | frontend/src/pages/Menu.tsx:26 | description and tags do not affect the filter |
| MenuPage.SearchIgnoresCase | frontend/src/pages/Menu.tsx:26 | a match stays a match with the search text lower-cased |
| MenuPage.CategoryBar | frontend/src/pages/Menu.tsx:21 | All followed by the server's categories |
| MenuPage.FirstLine | frontend/src/pages/Menu.tsx:28 | the first cart line with the id, or -1 iff there is none |
| MenuPage.AddShownIffAbsent | frontend/src/pages/Menu.tsx:137 | in a valid cart the Add button shows iff the item has no line |
| MenuPage.FirstLineSameIds | frontend/src/pages/Menu.tsx:28 | carts with the same ids in the same positions find the same first line |
| MenuPage.MinusAtOneRemoves | frontend/src/pages/Menu.tsx:156 | minus at quantity 1 removes the line and Add shows again |
| MenuPage.StepsByOne | frontend/src/pages/Menu.tsx:156-158 | plus adds one and minus above 1 takes one away, on the item's line |
| MenuAdmin.ParseTags | frontend/src/pages/admin/MenuManagement.tsx:29 | every parsed tag is non-empty, trimmed and comma-free |
| MenuAdmin.ParseJoinAfter | frontend/src/pages/admin/MenuManagement.tsx:21-29 | leading spaces and then the joined tags parse back to the tags |
| MenuAdmin.TagsRoundTrip | frontend/src/pages/admin/MenuManagement.tsx:21-29 | parse(join(tags, ", ")) = tags when every tag is non-empty, trimmed and comma-free |
| MenuAdmin.ParseIsStable | frontend/src/pages/admin/MenuManagement.tsx:21-29 | saving an unedited form again keeps the tags the first save produced |
| MenuAdmin.ParsePrice | frontend/src/pages/admin/MenuManagement.tsx:29 | text without a leading '-' that reads as a price reads as a non-negative one |
| MenuAdmin.PriceRoundTrip | frontend/src/pages/admin/MenuManagement.tsx:21-29 | a price shown in the form reads back as the same price |
| MenuAdmin.SubmitData | frontend/src/pages/admin/MenuManagement.tsx:29 | the text fields are sent as typed and the tags are canonical |
| MenuAdmin.UneditedSaveKeepsItem | frontend/src/pages/admin/MenuManagement.tsx:20-29 | opening an item and saving sends its own fields back when its tags are canonical |
| MenuAdmin.ToggleItem | frontend/src/pages/admin/MenuManagement.tsx:39 | only the matching item's availability flips |
| MenuAdmin.ToggleTwice | frontend/src/pages/admin/MenuManagement.tsx:39 | toggling twice restores the list |
| MenuAdmin.DeleteItem | frontend/src/pages/admin/MenuManagement.tsx:40 | exactly the items with that id go, and the rest keep their order |
| MenuAdmin.MenuManagementPage.constructor | frontend/src/pages/admin/MenuManagement.tsx:11-15 | the fetched items, no edit target, an empty form and a closed dialog |
| MenuAdmin.MenuManagementPage.OpenModal | frontend/src/pages/admin/MenuManagement.tsx:20-24 | an item fills the form from its fields; no item empties every field and the edit target; the dialog opens |
| MenuAdmin.MenuManagementPage.HandleToggle | frontend/src/pages/admin/MenuManagement.tsx:39 | the items become ToggleItem of the old ones, and the form is kept |
| MenuAdmin.MenuManagementPage.HandleDelete | frontend/src/pages/admin/MenuManagement.tsx:40 | a confirmed delete applies DeleteItem; a cancelled one changes nothing |
| TableAdmin.CountsCoverTables | frontend/src/pages/admin/TableManagement.tsx:35 | active plus inactive equals the number of tables |
| TableAdmin.ToggleTable | frontend/src/pages/admin/TableManagement.tsx:27 | only the matching table's `isActive` flips |
| TableAdmin.ToggleMovesCount | frontend/src/pages/admin/TableManagement.tsx:27 | after a toggle the counts still cover every table |
| TableAdmin.DeleteTable | frontend/src/pages/admin/TableManagement.tsx:28 | exactly the tables with that id go, and the rest keep their order |
| TableAdmin.SetQrUrl | frontend/src/pages/admin/TableManagement.tsx:67 | only the matching table's QR image changes |
| TableAdmin.HostLen | frontend/src/pages/admin/TableManagement.tsx:66 | the longest prefix without a '/' |
| TableAdmin.RewriteQrText | frontend/src/pages/admin/TableManagement.tsx:66 | text not starting with http:// is shown unchanged |
| TableAdmin.RewriteLink | frontend/src/pages/admin/TableManagement.tsx:66 | http:// followed by a host and a path shows the same path under the public origin |
| TableAdmin.RewriteTableLink | frontend/src/pages/admin/TableManagement.tsx:66 | a table link made on a plain-http base shows /t/ and the id under the public origin |
| TableAdmin.RewriteIdempotent | frontend/src/pages/admin/TableManagement.tsx:66 | rewriting twice is rewriting once |
| TableAdmin.TableManagementPage.constructor | frontend/src/pages/admin/TableManagement.tsx:9-17 | the fetched tables and no open QR dialog |
| TableAdmin.TableManagementPage.HandleToggle | frontend/src/pages/admin/TableManagement.tsx:27 | the tables become ToggleTable of the old ones |
| TableAdmin.TableManagementPage.HandleDelete | frontend/src/pages/admin/TableManagement.tsx:28 | a confirmed delete applies DeleteTable; a cancelled one changes nothing |
| TableAdmin.TableManagementPage.Regenerate | frontend/src/pages/admin/TableManagement.tsx:67 | the table of the open dialog, in the list and in the dialog, takes the new image |
| AppRoutes.ProtectedRoute | frontend/src/App.tsx:17-22 | children render iff there is a non-empty token and a user whose role is allowed (any role when no list is given); otherwise /login |
| AppRoutes.Match | frontend/src/App.tsx:26-44 | a redirect goes only to /admin/menu or /login |
| AppRoutes.TrailingSlashIgnored | frontend/src/App.tsx:26-44 | a path with trailing slashes matches the same route as without them |
| AppRoutes.CaseIgnored | frontend/src/App.tsx:26-44 | a path matches the same route as its ASCII lower-cased form |
| AppRoutes.KitchenAnyCase | frontend/src/App.tsx:35 | /Kitchen/ matches the guarded kitchen route, not the fallback to /login |
| AppRoutes.StaffScreensGuarded | frontend/src/App.tsx:35-42 | the kitchen screen needs a signed-in admin or kitchen user, and every admin screen a signed-in admin |
| AppRoutes.Redirects | frontend/src/App.tsx:37-43 | /admin lands on the menu page for an admin, and unknown paths land on /login |
| AppRoutes.ClientGuardsMatchServer | frontend/src/App.tsx:35-36 | the client's role lists for /kitchen and /admin admit the same roles as the server's `authorize` on the routes behind them |

## Left out

- Database engine: Mongoose queries, indexes, `populate`, timestamps and the seed script. Collections are maps, and the unique indexes are predicates in `Store.Valid`. A write that would break such an index is modelled as the 500 it causes.
- The order of `findOne` and `distinct` results is not modelled. The first matching key in insertion order stands for the database's choice.
- Socket.IO rooms and delivery. Emitted events live in the ghost log `Store.events`. The client reducers take the event payload as a parameter.
- Razorpay, the HMAC signature check, JWT signing and verification, and bcrypt are foreign calls. They are parameters or are outside this model. The User model is not part of this model.
- QR image rendering is a function parameter. `generateTableQRUrl` is modelled with its base URL as a parameter.
- Random token bytes and `generateSessionId` are parameters. `GetSessionId` requires a non-empty generated id, because the generator always produces a '-'.
- OrdersRoute.BuildLines: instructions are cut to 500 Unicode characters. The source's `substring` counts UTF-16 code units, so text with characters outside the Basic Multilingual Plane keeps fewer characters there, and a cut may split a surrogate pair, which a Dafny `char` cannot hold.
- OrdersRoute.BuiltLinesSanitised: the bound of 500 counts Unicode characters, not UTF-16 code units, for the reason given for `BuildLines`.
- OrdersRoute.PlacedOrder: the customer's name and phone are cut to 100 and 20 Unicode characters, not UTF-16 code units, for the reason given for `BuildLines`.
- Strings.Truncate: counts Unicode characters where `substring` counts UTF-16 code units, for the reason given for `BuildLines`.
- Strings.ToLower: lower-cases the ASCII letters only. JavaScript's `toLowerCase` maps every Unicode letter, and its full case mapping is outside this model.
- MenuPage.FilteredItems: the search ignores the case of ASCII letters only, because `Strings.ToLower` does. In the browser "é" also finds "CAFÉ".
- MenuPage.SearchIgnoresCase: holds for the case of ASCII letters only, for the reason given for `FilteredItems`.
- AppRoutes.Match: paths are given as their percent-decoded '/'-separated segments. React Router's decoding and basename handling are not modelled.
- Floating point is not modelled. Amounts are whole paise, and `parseInt` of a line quantity is given as an optional integer.
- MenuAdmin.ParsePrice: reads only an optionally signed run of digits. It does not model `parseFloat` of decimals, exponents or trailing text, because prices are whole numbers here.
- MenuAdmin.PriceText: prints whole prices only, because fractional prices are not modelled.
- OrdersRoute.AdminOrders: requires page >= 1 and limit >= 1. The defaults for absent parameters are applied by `AdminOrdersQuery`. `Number()` of other query values gives 0, negative or NaN, and what the database driver does with those is outside this model.
- `formatPrice`, `formatDate` and the presentation of every page (Intl formatting, toasts, styling, sounds) are left out. So are the `avgOrderValue` division and the analytics route.
- The express-rate-limit middleware, axios interceptors, server wiring and the zod `validate` middleware are library code. The table schema is modelled as the predicate `ValidTableRequest`, whose failure answers 400.
- Timers and concurrency are left out: the five-minute cleanup interval, the client's periodic expiry check, and interleaved requests. The one-CREATED-order rule is proved for requests handled one after another only.
- The client pages' server calls (fetching, `handleSubmit`'s create or update, `handleCreate` on the table page) are left out. The pages are modelled by their local list and form updates. The confirmation dialog's answer is a parameter.
- ClientUtils.StatusText and ClientUtils.StatusColor: object-prototype keys such as "toString" are treated as unknown statuses. In the browser they would find a prototype member instead.
- ClientUtils.TimeAgo: an unparsable date, which gives NaN in the browser, is not modelled, because dates are integer times here.
- Login, Analytics, TableLanding, the admin Orders list view, Cart and Payment pages, and the layout and footer components are presentation or navigation, and are left out.
