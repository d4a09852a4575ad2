# Restaurant device fleet — a Dafny model

This project models the core of a restaurant system built around mC-Connect
table devices: small screens with one button, one per table.

- **The webhook server** (`webhook-server/server.js`) keeps one `Device` object per table. Each device has its own graph of four screens: promotion, menu, pay and help.
  - A button press moves the device along an edge of its current screen.
  - An idle timer takes the screen's idle edge.
  - Every move refreshes the table balance, renders a frame (main area plus a footer bar with a wrapped caption and a "Balance: $X.XX" label) and pushes it to the device cloud.
  - The `/webhook` route dispatches the device events.
  - Promotions rotate through one index shared by every device.
- **The dashboard's data route** (`api/data/route.js`) turns GET and POST requests into SQL statements with `?` placeholders and the values bound to them.
- **Four dashboard pages**:
  - the kitchen/bar board (back-of-house);
  - the floor view (front-of-house);
  - the customer payment page (pay);
  - the device table (mc-connects).

The modules follow the source files:

| module | file | models |
|---|---|---|
| `ScreenGraph` | `screen_graph.dfy` | the `Screen` class, the wiring of a device's four screens, and the transition table the wiring follows |
| `Render` | `render.dfy` | the footer bar, caption wrapping, balance label, promotion rotation (the `Promotions` class) and the frame each screen draws |
| `Fleet` | `fleet.dfy` | the `Device` class and its idle timer, the registry, the webhook router and handlers, and start-up |
| `DataApi` | `data_api.dfy` | the data route: validation, statement selection, value binding, responses |
| `BackOfHouse` | `back_of_house.dfy` | the status codec, the board filter, the local update after a status change |
| `FrontOfHouse` | `front_of_house.dfy` | tables and orders from the listings, table and area filters, the local updates, the payment requests |
| `Pay` | `pay.dfy` | combining orders per item (a loop), the undelivered flag, the tip dialog, the payment |
| `McConnects` | `mc_connects.dfy` | the comparator and sorted copy, the sort toggle, the add/edit dialogs and their requests |
| `Text`, `Lists`, `Wrappers` | `text.dfy`, `lists.dfy`, `wrappers.dfy` | JavaScript string and array operations the core relies on (`split`, `join`, `toLowerCase`, `trim`, `filter`), and `Option` |

The server's objects are Dafny classes whose methods update their fields:

- `Screen` edges are set after construction, which is how the promotion screen's idle edge points to itself.
- A `Device` holds its screen, its active flag, its timer, its balance and its last frame.
- The registry is a class with `seq` fields.
- The shared promotion list and index form a class.

The outside world is an `Env` object. It holds:

- the balance the table query answers for each device;
- the text width of the footer font;
- an outbox of the payloads pushed to the device cloud.

The idle timer is a slot with a generation number. Clearing it retires the generation, so a cleared timer that fires anyway does nothing. Callbacks run to completion one after another.

The dashboard pages are pure computations over the page state. They are modelled as functions, except the per-item combining loop on the pay page, which is a method proved against a recursive definition.

Where the code and the design description of the system differ, the model follows the code:

- `setScreen` arms the idle timer whenever the new screen has an idle edge. It does not check for an idle time above 0, or for an active device (`server.js:162-168`).
- A push-switch or image-updated event for an unknown device id dereferences `undefined` and throws (`server.js:76`, `server.js:86`). It is not ignored silently. `Fleet.HandlePushSwitch` returns a `Thrown` outcome and changes nothing.
- A press whose code has no edge is still a move to the same screen. It re-renders and pushes, as the design also says.

## Model

| member | source | states |
|---|---|---|
| Text.JoinSplit | webhook-server/server.js:314 | Splitting a caption on spaces and joining the words again gives the caption back. |
| Text.ToLower | mc-connect-dashboard/src/app/back-of-house/page.tsx:86 | `toLowerCase` restricted to ASCII: it keeps the length, maps each character on its own, and no upper-case ASCII letter survives. Other letters are kept as they are; see Left out. |
| Text.TrimEmptyIffAllSpace | mc-connect-dashboard/src/app/mc-connects/page.tsx:275 | `trim()` leaves nothing exactly when every character is JavaScript white space. |
| Lists.Filter | mc-connect-dashboard/src/app/front-of-house/page.tsx:107 | `filter` keeps only elements that pass the test, every passing element appears in the result, and the result is no longer than the input. |
| Lists.FilterCounts | mc-connect-dashboard/src/app/front-of-house/page.tsx:107 | `filter` keeps each passing element as many times as it occurs, and drops every other element. |
| Lists.FilterIsSubsequence | mc-connect-dashboard/src/app/front-of-house/page.tsx:107 | The elements `filter` keeps stay in their original order. |
| ScreenGraph.Screen.constructor | webhook-server/server.js:222-228 | A new screen holds the given render routine, the three edges and the idle time. |
| ScreenGraph.Screen.SetSingle | webhook-server/server.js:234-236 | Sets the short-press edge and no other edge. |
| ScreenGraph.Screen.SetHold | webhook-server/server.js:242-244 | Sets the long-press edge and no other edge. |
| ScreenGraph.Screen.SetIdle | webhook-server/server.js:250-252 | Sets the idle edge and no other edge. |
| ScreenGraph.Screen.ButtonPress | webhook-server/server.js:258-268 | Code 1 follows the short-press edge and code 129 the long-press edge when that edge is set. Any other code, or a missing edge, stays on the same screen. |
| ScreenGraph.BuildGraph | webhook-server/server.js:478-489 | Creates four new, distinct screens wired as promotion, menu, pay and help. The edges and idle times (20 s, 40 s, 40 s, 0) are stated in `Wired`. |
| ScreenGraph.StepMatchesTable | webhook-server/server.js:258-268 | On a wired graph, a button press moves exactly as the written-out transition table `NextPage` says. |
| ScreenGraph.IdleMatchesTable | webhook-server/server.js:478-489 | Every wired screen's idle edge and idle time agree with the table `IdlePage`. |
| ScreenGraph.Walk | webhook-server/server.js:180-184 | A sequence of presses never leaves the device's four screens. |
| ScreenGraph.WalkMatchesTable | webhook-server/server.js:180-184 | Any sequence of presses on the object graph lands where the transition table predicts. |
| ScreenGraph.ScriptedSession | webhook-server/server.js:493 | After the start-up press 5, the presses 1, 1, 129, 129, 1, 129 end on the help screen. |
| Render.FormatCents | webhook-server/server.js:344 | `toFixed(2)` gives at least four characters, with a point and two digits at the end and no other point. |
| Render.FormatCentsRoundTrip | webhook-server/server.js:344 | The formatted amount reads back as the balance it came from, so formatting loses nothing. |
| Render.BalanceLabelReadsBack | webhook-server/server.js:344 | The corner label is "Balance: $" followed by an amount that reads back as the balance. |
| Render.WrapCaptionProperties | webhook-server/server.js:314-331 | The wrapped lines are never empty as a list. Joined, they give the caption plus one space. The first word is never moved off the first line. |
| Render.WrapCaption | webhook-server/server.js:314-331 | The wrap loop computes `Wrap` of the words, and its lines join back to the caption plus one space. |
| Render.DrawMenuBar | webhook-server/server.js:279-345 | The footer records the caption, invert flag, arrow, height 100 and balance. Its lines rebuild the caption, and its label reads back as the balance. |
| Render.PromotionsOf | webhook-server/server.js:359-362 | One promotion per menu row, in row order, titled "<name> for $<price>". |
| Render.NextPromoIndex | webhook-server/server.js:369-371 | An empty list leaves the index alone. Otherwise the next index is in range. |
| Render.RotationAdvances | webhook-server/server.js:371 | After k renders of the promotion screen, the shared index has moved on by k modulo the list length. |
| Render.RotationFullCycle | webhook-server/server.js:371 | One render per promotion brings the shared index back to where it started. |
| Render.Promotions.constructor | webhook-server/server.js:348-349 | The promotion list starts empty, with index 0. |
| Render.Promotions.Load | webhook-server/server.js:352-364 | A successful menu query replaces the list. A failed one keeps it. The index is untouched. |
| Render.Promotions.DrawPromoMain | webhook-server/server.js:366-391 | Shows the promotion at the index and advances the index by one modulo the length. An empty list shows "No promotions available". |
| Render.Generate | webhook-server/server.js:254-256 | Draws the frame `ViewFrame` gives for the screen and the balance. Only the promotion screen moves the shared index. |
| Fleet.BalanceFrom | webhook-server/server.js:198-210 | The cached balance is the first row's balance, or 0 on an error or when no row matches. |
| Fleet.Device.constructor | webhook-server/server.js:147-156 | A new device is active, with no timer and balance 0. It is appended to the registry. |
| Fleet.Device.ClearTimeout | webhook-server/server.js:175-178 | The pending timer is dropped and its generation retired. Nothing else changes. |
| Fleet.Device.SetActive | webhook-server/server.js:193-195 | Sets the active flag and nothing else. |
| Fleet.Device.UpdateBalance | webhook-server/server.js:198-210 | The balance becomes `BalanceFrom` of this device's query answer. Nothing else changes. |
| Fleet.Device.PushCanvasToDevice | webhook-server/server.js:186-191 | When the device is active, exactly one payload is pushed, addressed to this device only, with led 2 and buzzer 150/250/0. When it is inactive, nothing is pushed. |
| Fleet.Device.SetScreen | webhook-server/server.js:158-173 | `ScreenSet`: the new screen, and a fresh timer exactly when it has an idle edge, with delay idleTime*1000. Also the refreshed balance, the frame drawn with it, and one push when active. |
| Fleet.Device.ProcessButtonPress | webhook-server/server.js:180-184 | When active, the device moves along the screen's edge for the code. An unmapped code re-renders the same screen. When inactive, nothing changes. |
| Fleet.Device.FireTimer | webhook-server/server.js:163-167 | A cleared timer does nothing. The current timer is spent, and it moves an active device along the idle edge of the screen that armed it. |
| Fleet.Registry.constructor | webhook-server/server.js:137 | The registry starts with no devices. |
| Fleet.Registry.AddDevice | webhook-server/server.js:143-145 | Appends the device to the list. |
| Fleet.Registry.AddCustomerFacing | webhook-server/server.js:492 | Appends the device to the customer-facing list. |
| Fleet.Registry.Find | webhook-server/server.js:139-141 | `getDeviceById` finds the first device with the id, or nothing exactly when no device has it. |
| Fleet.FirstIndex | webhook-server/server.js:140 | The index of the first device with the id, or nothing when there is none. |
| Fleet.Route | webhook-server/server.js:45-66 | The four known titles get their handler. Any other title gets none. |
| Fleet.RouteTitleRoundTrip | webhook-server/server.js:45-66 | Each handler is reached by its own title. |
| Fleet.HandlePushSwitch | webhook-server/server.js:73-81 | An unknown id throws. An active device takes the press. An inactive device and all other devices are unchanged. |
| Fleet.HandleImageUpdated | webhook-server/server.js:83-88 | An unknown id throws. Otherwise the device becomes active and nothing else changes. |
| Fleet.Webhook | webhook-server/server.js:37-70 | An unknown title gets 400 and changes nothing. The disconnection and battery titles get 200 and change nothing. push-switch-on and image-updated give their handlers' whole new state: the device's fields, every other device unchanged, and an unknown id throwing with nothing changed. |
| Fleet.ImageUpdatedTwice | webhook-server/server.js:83-88 | Two image-updated events leave the same state as one: the device active, everything else as before, and both answered alike. |
| Fleet.NewTableDevice | webhook-server/server.js:465-492 | One new device per table, on its own wired graph. Its QR codes encode the table's order and pay addresses. It is registered and listed as customer-facing. |
| Fleet.StartDevice | webhook-server/server.js:491-493 | After the start-up press 5, the device is on the promotion screen with a 20 s timer. It shows the promotion frame with its balance, and exactly one payload has been pushed. |
| Fleet.StartFleet | webhook-server/server.js:454-497 | A failed query starts no device and pushes nothing. Otherwise each row, in order, gets its own new device, distinct from the others. Each is active on a promotion screen that idles to itself, with Timer(1, screen, 20000) and its table's balance. Its frame shows the promotion the rotation had reached for that row. The outbox gains exactly one payload per row, in row order. |
| DataApi.Prop | mc-connect-dashboard/src/app/api/data/route.js:149 | Reading a property of null or undefined fails. Any other value gives its field or undefined. |
| DataApi.Destructure | mc-connect-dashboard/src/app/api/data/route.js:149 | Destructuring the body fails exactly on null or undefined. Otherwise it yields one value per key, in key order. |
| DataApi.Bindings | mc-connect-dashboard/src/app/api/data/route.js:205 | Each placeholder is bound, in order, to the value at its position. Placeholders beyond the values stay unbound, and extra values are ignored. |
| DataApi.InsertOrdersSql | mc-connect-dashboard/src/app/api/data/route.js:186-189 | The insert for n items has 3n placeholders. |
| DataApi.InsertOrdersText | mc-connect-dashboard/src/app/api/data/route.js:186-189 | The insert's text is the head followed by n groups "(?, ?, ?, 0)" joined by ", ". |
| DataApi.PlanGet | mc-connect-dashboard/src/app/api/data/route.js:8-59 | getTableInfo without a table is 400 "Table number is required", and an unknown type is 400 "Invalid type". A query runs exactly otherwise, bound to [table] when a table is given. |
| DataApi.GetQueriesDistinct | mc-connect-dashboard/src/app/api/data/route.js:22-59 | Different GET types run different statements. |
| DataApi.GetPlaceholders | mc-connect-dashboard/src/app/api/data/route.js:41-45 | getOrders has its WHERE clause exactly when a table is given. getOrders and getTableInfo bind the table to their placeholder. The other statements have no placeholder. |
| DataApi.TranslateStatus | mc-connect-dashboard/src/app/api/data/route.js:112-125 | The codes 0 to 3 give New, Preparing, ReadyToDeliver and Delivered. Any other value gives "Unknown". |
| DataApi.StatusCode | mc-connect-dashboard/src/app/api/data/route.js:112-125 | The inverse of `TranslateStatus` on the four names. |
| DataApi.TranslateStatusRoundTrip | mc-connect-dashboard/src/app/api/data/route.js:112-125 | A stored value reads back as a code exactly when it is one of 0 to 3, and then as that same code. |
| DataApi.Get | mc-connect-dashboard/src/app/api/data/route.js:63-109 | A rejected request gets 400 and a database error gets 500. The answer is 200 exactly when the query ran. getTableInfo answers the first row, or undefined when there is none. |
| DataApi.OrdersResponse | mc-connect-dashboard/src/app/api/data/route.js:67-77 | getOrders returns one order per row. Its id and orderNumber are both the row's id, its area is copied, and its stored status is translated to a name. |
| DataApi.ItemValues | mc-connect-dashboard/src/app/api/data/route.js:190 | The values of addOrders: 3 per item, failing exactly when some item is null or undefined. |
| DataApi.ItemValuesLayout | mc-connect-dashboard/src/app/api/data/route.js:190 | Item i contributes the table id, its itemId and its destination at 3i, 3i+1 and 3i+2. |
| DataApi.UpdateTableInfoAsWritten | mc-connect-dashboard/src/app/api/data/route.js:173-178 | As written, updateTableInfo runs whenever the body is an object. It passes four values to a statement with two placeholders. |
| DataApi.UpdateTableInfoAsWrittenMisbinds | mc-connect-dashboard/src/app/api/data/route.js:176-177 | As written, Help binds to `total` and TableID to the formatted balance. |
| DataApi.UpdateTableInfoAsWrittenExample | mc-connect-dashboard/src/app/api/data/route.js:176-177 | The reset body of table 7 binds Help = 0 and TableID = "0.00", so table 7 is never reset. |
| DataApi.UpdateTableInfoPlan | mc-connect-dashboard/src/app/api/data/route.js:173-178 | Corrected: Help binds to `help` and TableID to the body's `tableId`. |
| DataApi.PostStatement | mc-connect-dashboard/src/app/api/data/route.js:147-191 | The statement of each type as the route writes it, updateTableInfo's four values included. A recognised type never rejects. It crashes only on a null or undefined body, or inside addOrders. |
| DataApi.PlanPost | mc-connect-dashboard/src/app/api/data/route.js:132-200 | The route as written. updateTableInfo without a table is 400 "Table number is required", and an unknown type is 400 "Invalid type". Nothing else is rejected. |
| DataApi.PostBindsEveryPlaceholder | mc-connect-dashboard/src/app/api/data/route.js:147-191 | As written, a statement gets exactly one value per placeholder, in order, exactly when its type is not updateTableInfo. |
| DataApi.PlanPostCorrected | mc-connect-dashboard/src/app/api/data/route.js:132-200 | Corrected route: it rejects and crashes exactly as the route does. It differs only in binding `[help, tableId]` for an accepted updateTableInfo. |
| DataApi.PostCorrectedBindsEveryPlaceholder | mc-connect-dashboard/src/app/api/data/route.js:147-191 | With the correction, every POST statement gets exactly one value per placeholder, in order. |
| DataApi.UpdateOrderStatusStores | mc-connect-dashboard/src/app/api/data/route.js:163-167 | "Delivered" is stored as 3. Any other status is stored as sent, against the order id. |
| DataApi.AddOrdersPlan | mc-connect-dashboard/src/app/api/data/route.js:184-191 | addOrders crashes exactly when items is not an array or has a null item. Otherwise it inserts one row group per item with that item's values. |
| DataApi.Post | mc-connect-dashboard/src/app/api/data/route.js:204-221 | A rejection gets 400 with its message, a crash throws, and a database error gets 500. The answer is `{success: true}` exactly when the statement ran. |
| BackOfHouse.TranslateStatus | mc-connect-dashboard/src/app/back-of-house/page.tsx:51-64 | Only "Preparing", "ReadyToDeliver" and "Delivered" read as something other than New. Unknown names are New. |
| BackOfHouse.TranslateStatusToInt | mc-connect-dashboard/src/app/back-of-house/page.tsx:89-102 | Every status has a code from 0 to 3, and 3 exactly for Delivered. |
| BackOfHouse.StatusCodecRoundTrip | mc-connect-dashboard/src/app/back-of-house/page.tsx:51-102 | A status sent as its code and listed again by the data route reads back as itself. |
| BackOfHouse.StoredCodeRoundTrip | mc-connect-dashboard/src/app/back-of-house/page.tsx:51-102 | Stored codes 0 to 3 survive the route and the board. Anything else comes back as 0. |
| BackOfHouse.FilteredOrders | mc-connect-dashboard/src/app/back-of-house/page.tsx:84-87 | The filter throws exactly when an undelivered order has a null area and the selection is not "all". Otherwise the board has no delivered order and, unless "all" is selected, only the selected area, in list order. |
| BackOfHouse.BoardCounts | mc-connect-dashboard/src/app/back-of-house/page.tsx:84-87 | The board keeps each order it shows as many times as the list holds it, and nothing else. |
| BackOfHouse.UpdateOrderStatus | mc-connect-dashboard/src/app/back-of-house/page.tsx:114-121 | On an ok response, only the orders with the id get the new status. Otherwise the list is unchanged. |
| BackOfHouse.DeliveredLeavesBoard | mc-connect-dashboard/src/app/back-of-house/page.tsx:84-121 | After a Delivered update is accepted, the filter still does not throw if it did not before. That order is off the board, and every other order on the board stays. |
| BackOfHouse.StatusRequestStored | mc-connect-dashboard/src/app/back-of-house/page.tsx:106-114 | The route stores the code against the order, and the board reads it back as the status sent. The response is ok exactly when the database accepts. |
| FrontOfHouse.TableOf | mc-connect-dashboard/src/app/front-of-house/page.tsx:76-81 | A table from the device listing asks for help exactly when `Help[0]` is 1. Otherwise it is Available, with no orders. |
| FrontOfHouse.StatusOf | mc-connect-dashboard/src/app/front-of-house/page.tsx:97-100 | Every status name other than New, Preparing and ReadyToDeliver reads as Delivered. |
| FrontOfHouse.StoredStatusOnFloor | mc-connect-dashboard/src/app/front-of-house/page.tsx:97-100 | A stored status shows as Delivered on the floor unless it is code 0, 1 or 2. |
| FrontOfHouse.AreaOf | mc-connect-dashboard/src/app/front-of-house/page.tsx:102 | A missing or empty area is Unknown, "bar" in any case is Bar, and anything else is Kitchen. |
| FrontOfHouse.OrdersAt | mc-connect-dashboard/src/app/front-of-house/page.tsx:107 | A table's orders are exactly the orders with its number, in list order. |
| FrontOfHouse.TablesWithOrders | mc-connect-dashboard/src/app/front-of-house/page.tsx:106-113 | Each table gets exactly its own orders. It is Dining exactly when it has some, and otherwise keeps its status. |
| FrontOfHouse.FloorStatus | mc-connect-dashboard/src/app/front-of-house/page.tsx:76-113 | From the two listings, a table is Dining iff some order lists it. Otherwise it is HelpRequested iff `Help[0]` is 1, else Available. |
| FrontOfHouse.ToggleTableSelection | mc-connect-dashboard/src/app/front-of-house/page.tsx:128-134 | Toggling flips the table's membership, leaves every other table alone, and appends a table that was absent. |
| FrontOfHouse.ToggleTwice | mc-connect-dashboard/src/app/front-of-house/page.tsx:128-134 | Toggling twice restores membership, and restores the list itself when the table was absent. |
| FrontOfHouse.FilteredTables | mc-connect-dashboard/src/app/front-of-house/page.tsx:144-148 | All tables in filter mode or with nothing selected. Otherwise exactly the selected tables, in floor order. |
| FrontOfHouse.FilteredOrders | mc-connect-dashboard/src/app/front-of-house/page.tsx:150-152 | Exactly the orders whose lower-cased area name is the selection, in list order. |
| FrontOfHouse.AreaSelection | mc-connect-dashboard/src/app/front-of-house/page.tsx:150-152 | Selecting "bar" shows exactly the bar orders, and "kitchen" exactly the kitchen orders. |
| FrontOfHouse.UpdateOrderStatus | mc-connect-dashboard/src/app/front-of-house/page.tsx:189-194 | Only the orders with the id get the new status, before any request is sent. |
| FrontOfHouse.DeliveredRequestStored | mc-connect-dashboard/src/app/front-of-house/page.tsx:212-218 | Delivering an order stores code 3, which the floor reads back as Delivered. |
| FrontOfHouse.PayForTable | mc-connect-dashboard/src/app/front-of-house/page.tsx:245-248 | Only the paid table is emptied and set to Available. Exactly its orders are removed, and the rest keep their order. |
| FrontOfHouse.PaymentResetRefused | mc-connect-dashboard/src/app/front-of-house/page.tsx:227-242 | As written, the table's orders are deleted but the reset is answered 400 "Table number is required", whatever the database says. |
| FrontOfHouse.PageFixAloneMisbinds | mc-connect-dashboard/src/app/front-of-house/page.tsx:236-242 | Naming the table alone is not enough. The route as written accepts the reset but binds Help = 0 and TableID = "0.00". |
| FrontOfHouse.PaymentResetAccepted | mc-connect-dashboard/src/app/front-of-house/page.tsx:236-242 | Corrected page and route: with the table named and the route's values corrected, the reset binds Help = 0 for exactly that table. It is ok iff the database accepts. |
| Pay.FindItem | mc-connect-dashboard/src/app/pay/page.tsx:37 | `find` returns the first entry with the item id, or nothing exactly when no entry has it. |
| Pay.CombineOrders | mc-connect-dashboard/src/app/pay/page.tsx:36-44 | The reduce loop computes `CombinedOrders`. Its entries have pairwise-distinct item ids, and their quantities add up to the number of rows. |
| Pay.FirstOccurrencesDistinct | mc-connect-dashboard/src/app/pay/page.tsx:36-44 | Each item id is listed once, and every row's item id is listed. |
| Pay.CountOutside | mc-connect-dashboard/src/app/pay/page.tsx:36-44 | An item that is not listed has no rows. |
| Pay.CombinedItems | mc-connect-dashboard/src/app/pay/page.tsx:36-44 | One entry per item, in order of first appearance, each holding a row of its item. |
| Pay.CombinedCounts | mc-connect-dashboard/src/app/pay/page.tsx:39-41 | Each entry's quantity is the number of rows of its item. |
| Pay.CombinedTotal | mc-connect-dashboard/src/app/pay/page.tsx:39-41 | The quantities add up to the number of rows. |
| Pay.CombinedSummary | mc-connect-dashboard/src/app/pay/page.tsx:36-44 | All of the above together: distinct items in first-appearance order, each counting its rows, and totals that match. |
| Pay.ListedRowsLackStatus | mc-connect-dashboard/src/app/api/data/route.js:67-77 | No row of the order listing has a field named `Status`. |
| Pay.UndeliveredWheneverListed | mc-connect-dashboard/src/app/pay/page.tsx:116 | `hasUndeliveredOrders` is true exactly when the listing is non-empty, whatever the stored statuses. |
| Pay.ConfirmTip | mc-connect-dashboard/src/app/pay/page.tsx:122-125 | The edited tip is adopted and the dialog is closed. Nothing else changes. |
| Pay.ConfirmTipIdempotent | mc-connect-dashboard/src/app/pay/page.tsx:122-125 | Confirming twice is confirming once. |
| Pay.PayForTable | mc-connect-dashboard/src/app/pay/page.tsx:129-153 | After both requests complete, the orders are empty, the balance is 0, the tip is 20 and the thank-you dialog is open. A thrown request sets only the error. |
| Pay.PayForTableIdempotent | mc-connect-dashboard/src/app/pay/page.tsx:147-150 | Paying again after a completed payment changes nothing. |
| Pay.PaymentResetRefused | mc-connect-dashboard/src/app/pay/page.tsx:131-150 | As written, the orders are deleted but the reset is answered 400, and the page still shows the thank-you dialog. |
| Pay.PageFixAloneMisbinds | mc-connect-dashboard/src/app/pay/page.tsx:139-145 | Naming the table alone is not enough. The route as written accepts the reset but binds Help = 0 and TableID = "0.00". |
| Pay.PaymentResetAccepted | mc-connect-dashboard/src/app/pay/page.tsx:139-145 | Corrected page and route: with the table named and the route's values corrected, the reset binds Help = false for exactly that table. It is ok iff the database accepts. |
| McConnects.FormattedDevices | mc-connect-dashboard/src/app/mc-connects/page.tsx:48-54 | One device per listed row, in order, with battery 100, screen "QR Menu" and status "Online". |
| McConnects.StringLessTrichotomy | mc-connect-dashboard/src/app/mc-connects/page.tsx:68-69 | For two strings, exactly one of less-than, greater-than or equal holds. |
| McConnects.StringLessTransitive | mc-connect-dashboard/src/app/mc-connects/page.tsx:68-69 | The string `<` is transitive. |
| McConnects.KeyTrichotomy | mc-connect-dashboard/src/app/mc-connects/page.tsx:65-70 | On each key, exactly one of less-than, greater-than or equal holds. |
| McConnects.Compare | mc-connect-dashboard/src/app/mc-connects/page.tsx:62-71 | No config gives 0. Otherwise 0 exactly on equal keys, and below 0 exactly when a's key is smaller (asc) or larger (desc). |
| McConnects.CompareDescNegatesAsc | mc-connect-dashboard/src/app/mc-connects/page.tsx:68-70 | The descending comparator is the negation of the ascending one on the same key. |
| McConnects.CompareAntisymmetric | mc-connect-dashboard/src/app/mc-connects/page.tsx:62-71 | Swapping the two devices negates the comparator. |
| McConnects.CompareTransitive | mc-connect-dashboard/src/app/mc-connects/page.tsx:62-71 | The comparator's "not after" relation is transitive. |
| McConnects.SortedPairwise | mc-connect-dashboard/src/app/mc-connects/page.tsx:62-71 | In a sorted list, no device comes after any later device, not only after its neighbour. |
| McConnects.Insert | mc-connect-dashboard/src/app/mc-connects/page.tsx:62 | Inserting into a sorted list keeps it sorted and adds exactly that device. |
| McConnects.SortedDevices | mc-connect-dashboard/src/app/mc-connects/page.tsx:62-71 | The sorted copy is a permutation of the devices, ordered by the comparator. |
| McConnects.InsertUnsorted | mc-connect-dashboard/src/app/mc-connects/page.tsx:62-63 | With no config, insertion puts the device last. |
| McConnects.UnsortedKeepsOrder | mc-connect-dashboard/src/app/mc-connects/page.tsx:62-63 | With no sort config, the table shows the devices in listing order. |
| McConnects.RequestSort | mc-connect-dashboard/src/app/mc-connects/page.tsx:73-79 | The key is the clicked one. The direction is desc exactly when the same key was sorted asc. |
| McConnects.RequestSortAlternates | mc-connect-dashboard/src/app/mc-connects/page.tsx:73-79 | Clicking the same header twice turns the direction round and negates every comparison. |
| McConnects.Shown | mc-connect-dashboard/src/app/mc-connects/page.tsx:62 | The table shows a sorted permutation of the page's devices. The page's own list is a separate value and is not changed. |
| McConnects.AddEnabledIff | mc-connect-dashboard/src/app/mc-connects/page.tsx:275 | Add Device is enabled exactly when the id has a non-space character and the table number is positive. |
| McConnects.OpenAdd | mc-connect-dashboard/src/app/mc-connects/page.tsx:156-159 | Add opens the dialog with table number devices.length + 1 and changes nothing else. |
| McConnects.AddRequestStored | mc-connect-dashboard/src/app/mc-connects/page.tsx:132-141 | The route inserts the entered table number and id, and the response is ok exactly when the database accepts. |
| McConnects.HandleAdd | mc-connect-dashboard/src/app/mc-connects/page.tsx:143-149 | The dialog is closed, the id is cleared, and the table number is the old device count + 1. The list is reloaded only on ok. |
| McConnects.AddDisabledAfterAdd | mc-connect-dashboard/src/app/mc-connects/page.tsx:147-148 | After an add, the button is disabled until an id is typed again. |
| McConnects.EditClick | mc-connect-dashboard/src/app/mc-connects/page.tsx:81-85 | Edit selects the device and opens the dialog on its table number. |
| McConnects.EditRequestsStored | mc-connect-dashboard/src/app/mc-connects/page.tsx:87-119 | Delete removes the selected device's row. Save moves the device to the edited table number. |
| McConnects.CloseEdit | mc-connect-dashboard/src/app/mc-connects/page.tsx:99-127 | The edit dialog is closed with nothing selected. The list is reloaded only when a request was sent and answered ok. |

## Left out

- MySQL itself: every query is a parameter of the model. The data route receives a `DbAnswer` (rows or an error), the server's balance query a `BalanceQuery`, the promotion query a `MenuQuery`, and the start-up query a `TableQuery`.
- How the database coerces a bound value, for example the status string the floor view sends for statuses other than Delivered, is not part of this model.
- SQL text is written as the pieces between placeholders, with the template literal's line breaks and indentation left out. Statement identity and placeholder counts are what the model compares.
- Canvas drawing: positions, fonts, colours, the arrow strokes and pixels. A frame is a record of what is drawn. Text width in the footer font is a parameter (`Render.TextWidth`).
- QR code generation: a QR image is a record of the encoded value and size. Generation errors and the two unused module-level QR images (`server.js:113-129`) are left out.
- The HTTPS request to the device cloud: a push appends its payload to the outbox. Transport errors and the API key are left out, and the content-length header is not modelled.
- Real time: `setTimeout` is a timer slot, and when it fires is the caller's choice (`Fleet.Device.FireTimer`). Concurrency between webhook requests and timers is not modelled. Callbacks run one at a time, to completion.
- `handleAppDisconnection` and `handleBatteryCapacity` only log. They are modelled as answering 200 and changing nothing. Logging everywhere is left out.
- Money as floating point: balances on the server are integer cents. The `parseFloat` of the stored balance is taken as already done.
- `DataApi.FormattedBalance`: does not model `parseFloat`'s acceptance of a numeric prefix, signs, decimals or exponents. It reads an integer or a string of digits and gives "NaN" otherwise. It only matters for the as-written binding of the finding below.
- Front-of-house: the tip arithmetic, the running balance sent as `updateTableBalance` (`front-of-house/page.tsx:198-209`) and the order balance text (`page.tsx:101`) are not part of this model.
- Pay page: the subtotal, tip amount and total (`pay/page.tsx:118-127`) are not part of this model.
- JSON numbers are integers (`DataApi.Value.Num`). Decimal prices and balances in JSON bodies are not represented.
- JavaScript's `<` on strings compares UTF-16 code units. The model compares characters, which agrees outside surrogate pairs.
- Numeric inputs that parse to NaN or to fractions (`Number(e.target.value)`) are not represented: table numbers are integers.
- `Help[0]` of the device listing is taken as the value read at index 0 of the help column. How the driver encodes that column is not part of this model.
- React plumbing is not part of this model: `fetch`, `useEffect`, polling intervals, re-renders, and the stale `devices` captured by the handlers. `McConnects.HandleAdd` uses the device count from before the reload, as the closure does.
- The page loads: the listings arriving and replacing page state are modelled only through the listing functions (`FormattedDevices`, `TableOf`, `OrderOf`, `ListedRows`), not as page state transitions. Fetch errors that set the error text are not part of this model.
- Malformed JSON request bodies (`req.json()` failing) are not represented. A body is a `Value`, and destructuring null or undefined throws as in JavaScript.
- The `-1` default of `translateStatusToInt` (`back-of-house/page.tsx:99-100`) cannot be reached: the enum has four members, so the model has no such case.
- Other pages (devices, order, settings, the sidebar and the layout), the database connection settings and credentials are not part of this model.
- Text.ToLower: lower-cases ASCII letters only. JavaScript's `toLowerCase` also maps other letters, such as the Kelvin sign to `k`, and some to two code units ('İ'). So an area such as "\u212Aitchen" passes the back-of-house "kitchen" filter (`page.tsx:86`) but not `BackOfHouse.OnBoard`. The length is not kept in general either. The front-of-house area test against "bar" is unaffected, since no non-ASCII letter lower-cases to `b`, `a` or `r`.
- McConnects.SortedDevices: the engine's sort algorithm is not specified by the language beyond the result being sorted, a permutation and stable. The model uses an insertion sort with those properties. Stability is stated only for the case with no sort config (`McConnects.UnsortedKeepsOrder`).
- McConnects.Shown: the JavaScript sorts a copy so that `devices` is not reordered. In the model sequences are values, so the page's list cannot change; there is nothing further to state.

## Findings

| source | as written | input that shows it | evidently intended | confidence | as-written member | corrected member |
|---|---|---|---|---|---|---|
| mc-connect-dashboard/src/app/api/data/route.js:173-178 | four values `[total, formattedBalance, help, tableId]` for a statement with two placeholders (`Help = ?`, `TableID = ?`) | body `{tableId: 7, total: 0, balance: 0, help: false}` binds Help = 0 and TableID = "0.00", so table 7 is not reset | values `[help, tableId]`; the route as written is `DataApi.PlanPost`, the corrected route `DataApi.PlanPostCorrected` | high; not executed | DataApi.UpdateTableInfoAsWrittenExample | DataApi.UpdateTableInfoPlan |
| mc-connect-dashboard/src/app/front-of-house/page.tsx:236-242 | the reset is posted to `type=updateTableInfo` without a `table` parameter, which the route refuses with 400 (route.js:132-139) | paying table 7 deletes its orders, but the reset is answered 400 "Table number is required", so the help flag and balance stay | post to `type=updateTableInfo&table=<id>`, together with the route fix of the row above: with the page fix alone, the route binds TableID "0.00" (`FrontOfHouse.PageFixAloneMisbinds`) | high; not executed | FrontOfHouse.PaymentResetRefused | FrontOfHouse.PaymentResetAccepted |
| mc-connect-dashboard/src/app/pay/page.tsx:139-145 | the same reset without a `table` parameter; `fetch` does not throw on 400, so the thank-you dialog opens anyway | paying at `?table=7` deletes the orders, gets 400 on the reset, and still shows "Thank You!" | post to `type=updateTableInfo&table=<table>`, together with the route fix of the first row: with the page fix alone, the route binds TableID "0.00" (`Pay.PageFixAloneMisbinds`) | high; not executed | Pay.PaymentResetRefused | Pay.PaymentResetAccepted |

A second oddity is not a finding, because nothing reads the flag. On the pay page, `hasUndeliveredOrders` tests `order.Status`. The order listing names that field `status` (route.js:75). So the flag is true for every non-empty listing (`Pay.UndeliveredWheneverListed`), but the page never shows it.
