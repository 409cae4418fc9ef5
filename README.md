# RestaurantPro core, modelled in Dafny

RestaurantPro is a restaurant ordering and reservation web application: a React client
(menu, cart, checkout, reservations, an admin area for orders, menu and settings) and an
Express server with an in-memory store and a WebSocket channel that pushes order,
reservation and menu events to open admin screens. This project models the parts of it
that decide things, and proves what they promise:

- **The cart** (`Cart`, `CartButtons`, `OrderPage`): the cart reducer with its seven
  actions, the derived count, subtotal, delivery fee, tax and total, the +/- buttons of a
  cart line, and the checkout guards and order payload. Money is integer cents; tax is the
  exact `real` 825/10000 of the subtotal.
- **The in-memory store** (`Storage`, `Tables`, `Schema`): the `MemStorage` class, with one
  `map<int, Record>` per table and one id counter per table. It has its seeding constructor,
  create, patch-merge update, delete, the filtered queries, the case-insensitive user
  lookups and `updateSettings`. A table lists its records in ascending id order, which is
  the insertion order of the JavaScript `Map` here.
- **The server's decisions** (`Routes`, `Hub`): the live client list (append on connect,
  splice on close, broadcast to open connections, ping answered by pong) as the class
  `ClientRegistry`. Also the `isAuthenticated`/`isAdmin` gates, the 401/404/403 order of
  checks, owner-or-admin access, list scoping, the user-id override, order-item creation,
  and broadcasting only after success.
- **The client's message dispatch** (`Socket`): the handler registry as the class
  `MessageHandlers`, with `onMessage`, its unsubscribe closure, and `handleMessage`.
- **The admin order screens** (`OrderCard`, `OrderManagement`, `Dashboard`, `Recency`):
  badge variants, status captions, the quick-action state machine, the dropdown, tab
  filtering, the in-place newest-first sort of the shown array, the toast rule, and the
  dashboard figures.
- **Small string logic** (`ReservationForm`, `Navigation`, `SettingsPage`, `Text`): the
  reservation time slots (nested loops) and request body, the active-item rule of both
  bottom bars, and the hex colour check with the settings request body.

The model takes the source's form: `MemStorage`, the client list and the handler registry
are classes whose methods carry `modifies` clauses. `generateTimeSlots`, the order-item
loop, `broadcastToAdmins`, `handleMessage` and the array sort are methods with loops.
Everything else is a function, with lemmas about it.

Two behaviours of the code are worth stating up front, because the model follows them:

- Tax is not rounded (`client/src/context/CartContext.tsx:182`), so `Cart.Tax` is exact.
- Order creation is not atomic (`server/routes.ts:464-482`). The order is stored before its
  items are checked, and the items are stored one by one. An invalid item ends the
  request with 400. The order stays stored, and so do the items before the invalid one.
  `Routes.CreateOrderItems` and `Routes.CreateOrderRoute` state the resulting order-item
  listing for both outcomes.

## Model

| member | source | states |
|---|---|---|
| Cart.AddExisting | client/src/context/CartContext.tsx:105-115 | ADD_ITEM for an item already in the cart raises the first line holding it by exactly one; the length, every other line and the three other fields are unchanged |
| Cart.AddNew | client/src/context/CartContext.tsx:116-122 | ADD_ITEM for an item not in the cart appends one line of quantity 1 at the end and changes nothing else |
| Cart.RemoveKeepsOthers | client/src/context/CartContext.tsx:125-130 | after REMOVE_ITEM a line is in the cart exactly when it was before and holds another item; the result is a sub-multiset and the other fields are unchanged |
| Cart.RemoveAbsent | client/src/context/CartContext.tsx:125-130 | removing an item that is not in the cart leaves the state as it was |
| Cart.UpdateNonPositiveRemoves | client/src/context/CartContext.tsx:132-140 | UPDATE_QUANTITY with a quantity of 0 or less is the same as REMOVE_ITEM |
| Cart.UpdatePositiveSets | client/src/context/CartContext.tsx:141-146 | UPDATE_QUANTITY with a positive quantity keeps every line's item and position and sets the quantity only on lines of that item |
| Cart.UpdateAbsent | client/src/context/CartContext.tsx:132-146 | updating an item that is not in the cart changes nothing |
| Cart.SettersOnlyTheirField | client/src/context/CartContext.tsx:149-159 | each of the three setters changes only its own field; the lines are untouched |
| Cart.ClearForgets | client/src/context/CartContext.tsx:161-168 | CLEAR_CART gives the same state whatever came before (no lines, delivery, cash, empty address), and clearing twice is clearing once |
| Cart.ReducePreservesWellFormed | client/src/context/CartContext.tsx:103-172 | every action keeps the lines' items distinct and every quantity positive |
| Cart.CartCountConcat | client/src/context/CartContext.tsx:179 | the item count of two runs of lines is the sum of their counts |
| Cart.SubtotalConcat | client/src/context/CartContext.tsx:180 | the subtotal of two runs of lines is the sum of their subtotals |
| Cart.BumpLine | client/src/context/CartContext.tsx:179-180 | raising one line by d raises the count by d and the subtotal by d times that line's price |
| Cart.AddItemTotals | client/src/context/CartContext.tsx:105-122 | ADD_ITEM raises the count by one and the subtotal by the price of the line it bumps, or of the new item |
| Cart.DeliveryFee | client/src/context/CartContext.tsx:181 | the fee is 0 or 399 cents, and 399 exactly for a delivery under 3500 cents |
| Cart.Tax | client/src/context/CartContext.tsx:182 | tax is exactly 8.25% of the subtotal, unrounded, and lies between 0 and the subtotal for a non-negative subtotal |
| Cart.TotalBounds | client/src/context/CartContext.tsx:181-183 | the total lies between subtotal plus tax and that plus 3.99; for pickup it is exactly 1.0825 times the subtotal |
| CartButtons.IncrementRaisesByOne | client/src/components/CartItem.tsx:12-14 | "+" raises the clicked line by exactly one and changes no other line or field |
| CartButtons.DecrementOfOneRemoves | client/src/components/CartItem.tsx:16-18 | "-" on a line of one removes that line and keeps the others in order |
| CartButtons.DecrementLowersByOne | client/src/components/CartItem.tsx:19-21 | "-" on a line of q > 1 leaves q - 1 (never 0) and changes no other line or field |
| CartButtons.ButtonsKeepWellFormed | client/src/components/CartItem.tsx:12-22 | both buttons keep items distinct and quantities positive |
| OrderPage.PlaceOrder | client/src/pages/Order.tsx:60-95 | a signed-out user gets the sign-in refusal before any other check; a delivery with an absent or empty address is refused; a signed-in pickup always submits |
| OrderPage.PayloadItems | client/src/pages/Order.tsx:87-91 | one payload item per cart line, in cart order, with the line's menu item id, quantity and current price |
| OrderPage.PayloadFromCart | client/src/pages/Order.tsx:80-92 | the payload is pending and carries the cart's total, method and lines; its address is null exactly for pickup; paymentCompleted is false exactly for cash |
| OrderPage.ClearOnlyOnSuccess | client/src/pages/Order.tsx:41-56 | the cart is emptied after a successful order and left intact after a failed one |
| Storage.MemStorage.constructor | server/storage.ts:93-122 | a new store holds the admin account, the four categories, the three dishes, the settings and the two locations, with every counter one past the last id used |
| Storage.MemStorage.InitializeDefaultData | server/storage.ts:124-182 | seeding with the category awaited fills categories 1-4, menu items 1-3 under "Main Courses" (id 2), settings 1 and locations 1-2 |
| Storage.MemStorage.InitializeDefaultDataAsWritten | server/storage.ts:124-182 | seeding as the code stands fills the same tables, but stores the three dishes with an undefined category id |
| Storage.MemStorage.SeedCategories | server/storage.ts:126-129 | four categories take the next four ids in order; the second is "Main Courses" |
| Storage.MemStorage.SeedMenuItems | server/storage.ts:131-158 | the three dishes take the next three ids, under the category id given, which may be undefined |
| Storage.MemStorage.SeedLocations | server/storage.ts:169-181 | the two locations take the next two ids |
| Storage.MemStorage.GetUser | server/storage.ts:185-187 | a user is found exactly when the id is a key, and it carries that id |
| Storage.MemStorage.GetUserByUsername | server/storage.ts:189-193 | the first user in listing order whose username equals the name ignoring case, or none exactly when no user matches |
| Storage.MemStorage.GetUserByEmail | server/storage.ts:195-199 | the first user whose email equals the given one ignoring case, or none exactly when no user matches |
| Storage.MemStorage.CreateUser | server/storage.ts:201-206 | the new user takes the counter as id, the counter goes up by one, and the user is listed last |
| Storage.MemStorage.GetCategory | server/storage.ts:213-215 | a category is found exactly when the id is a key |
| Storage.MemStorage.GetCategoryByName | server/storage.ts:217-221 | the first category whose name matches ignoring case, or none exactly when none matches |
| Storage.MemStorage.CreateCategory | server/storage.ts:227-232 | the counter is the new id, then goes up by one; the category is listed last |
| Storage.MemStorage.UpdateCategory | server/storage.ts:234-241 | a missing id gives none and changes nothing; otherwise the patch is merged into that record alone, which keeps its place in the listing |
| Storage.MemStorage.DeleteCategory | server/storage.ts:243-245 | true exactly when the id was present; afterwards the id is gone and the rest keep their order |
| Storage.MemStorage.GetMenuItem | server/storage.ts:248-250 | a menu item is found exactly when the id is a key |
| Storage.MemStorage.GetMenuItemsByCategory | server/storage.ts:252-256 | exactly the listed menu items whose category id matches |
| Storage.MemStorage.CreateMenuItem | server/storage.ts:262-267 | the counter is the new id, then goes up by one; the item is listed last |
| Storage.MemStorage.UpdateMenuItem | server/storage.ts:269-276 | a missing id changes nothing; otherwise fields absent from the patch are kept, fields in it overwritten, other keys untouched |
| Storage.MemStorage.DeleteMenuItem | server/storage.ts:278-280 | true exactly when the id was present; afterwards it is gone |
| Storage.MemStorage.GetOrder | server/storage.ts:283-285 | an order is found exactly when the id is a key |
| Storage.MemStorage.GetOrdersByUser | server/storage.ts:287-291 | exactly the listed orders of that user |
| Storage.MemStorage.GetActiveOrders | server/storage.ts:297-301 | exactly the listed orders whose status is neither "completed" nor "cancelled" |
| Storage.MemStorage.CreateOrder | server/storage.ts:303-312 | the counter is the new id, the caller's clock the creation time; the order is listed last |
| Storage.MemStorage.UpdateOrder | server/storage.ts:314-321 | a missing id changes nothing; otherwise the patch is merged into that order alone |
| Storage.MemStorage.DeleteOrder | server/storage.ts:323-325 | true exactly when the id was present; afterwards it is gone |
| Storage.MemStorage.GetOrderItems | server/storage.ts:328-332 | exactly the listed order items of that order |
| Storage.MemStorage.CreateOrderItem | server/storage.ts:334-339 | the counter is the new id, then goes up by one; the item is listed last |
| Storage.MemStorage.DeleteOrderItem | server/storage.ts:341-343 | true exactly when the id was present; afterwards it is gone |
| Storage.MemStorage.GetReservation | server/storage.ts:346-348 | a reservation is found exactly when the id is a key |
| Storage.MemStorage.GetReservationsByUser | server/storage.ts:350-354 | exactly the listed reservations of that user |
| Storage.MemStorage.GetActiveReservations | server/storage.ts:360-364 | exactly the listed reservations whose status is neither "completed" nor "cancelled" (a missing status counts as active) |
| Storage.MemStorage.CreateReservation | server/storage.ts:366-371 | the counter is the new id, then goes up by one; the reservation is listed last |
| Storage.MemStorage.UpdateReservation | server/storage.ts:373-380 | a missing id changes nothing; otherwise the patch is merged into that reservation alone |
| Storage.MemStorage.DeleteReservation | server/storage.ts:382-384 | true exactly when the id was present; afterwards it is gone |
| Storage.MemStorage.UpdateSettings | server/storage.ts:391-406 | with no settings a record is created under the next settings id; otherwise the patch is merged into the existing record and the counter stays |
| Storage.NewSettings | server/storage.ts:393-400 | a created settings record is named by the patch, or "Restaurant" when the name is absent or empty, and always has theme settings |
| Storage.MemStorage.GetLocation | server/storage.ts:409-411 | a location is found exactly when the id is a key |
| Storage.MemStorage.CreateLocation | server/storage.ts:417-422 | the counter is the new id, then goes up by one; the location is listed last |
| Storage.MemStorage.UpdateLocation | server/storage.ts:424-431 | a missing id changes nothing; otherwise the patch is merged into that location alone |
| Storage.MemStorage.DeleteLocation | server/storage.ts:433-435 | true exactly when the id was present; afterwards it is gone |
| Storage.ListingsAscend | server/storage.ts:102-109 | on every table the listed ids are distinct, strictly increasing and below the counter, so each new id exceeds every id in use |
| Storage.SeededUsersAndCategoriesListed | server/storage.ts:112-129 | a new store lists the admin, then Starters, Main Courses, Desserts and Drinks with ids 1 to 4 |
| Storage.SeededItemsAndLocationsListed | server/storage.ts:131-181 | a new store lists Grilled Salmon, Pasta Pomodoro and Filet Mignon, then Downtown and Uptown |
| Storage.FreshStoreMainCourses | server/storage.ts:252-256 | on a new store "Main Courses" lists the three dishes in order and every other category lists none |
| Storage.SeedCategoryIdAsWritten | server/storage.ts:127-137 | as written, the id stored on the seeded dishes matches no category id |
| Storage.SeedCategoryId | server/storage.ts:127-137 | with the category awaited, the seeded dishes are listed under "Main Courses" |
| Storage.AsWrittenSeedingListsNoDish | server/storage.ts:252-256 | on a store seeded as the code stands, the three dishes are listed, yet `getMenuItemsByCategory` returns no dish for any category, "Main Courses" included |
| Schema.OrderPatchKeepsIdentity | server/storage.ts:314-321 | merging a typed patch (`Partial<InsertOrder>`) never changes an order's id or creation time |
| Schema.StatusPatchOnlyStatus | server/routes.ts:500-531 | an empty patch changes nothing, and a status-only body changes only the status |
| Schema.OrderPatchIdempotent | server/storage.ts:314-321 | merging the same patch twice is merging it once |
| Schema.OrderPatchCompose | server/storage.ts:314-321 | merging p and then q is merging p overlaid by q |
| Hub.ClientRegistry.constructor | server/routes.ts:35 | the client list starts empty and nothing has been sent |
| Hub.ClientRegistry.Connect | server/routes.ts:37-59 | a connecting socket is appended to the list and is sent the connection frame only when open |
| Hub.ClientRegistry.Close | server/routes.ts:49-54 | the first listing of the socket is removed |
| Hub.CloseRemovesOneListing | server/routes.ts:49-54 | closing removes one listing of the socket and keeps the others in order; an unlisted socket changes nothing |
| Hub.ClientRegistry.Broadcast | server/routes.ts:63-69 | the frames sent are the broadcast fan-out over the current list |
| Hub.FanoutReachesOpenClients | server/routes.ts:63-69 | the broadcast reaches exactly the listed clients that are open, in list order, each with the event |
| Hub.ClientRegistry.HandleMessage | server/routes.ts:72-80 | a "ping" gets one pong, sent only to its sender; any other type sends nothing |
| Routes.IsAuthenticated | server/routes.ts:149-154 | a signed-in caller passes; anyone else gets 401 |
| Routes.IsAdmin | server/routes.ts:157-162 | only a signed-in admin passes; anyone else gets 403, a signed-out caller included |
| Routes.FindId | server/routes.ts:435-439 | a record is found exactly when the path segment parses as an integer that is a key |
| Routes.ParseOrder | server/routes.ts:459-464 | an order body is accepted exactly when its required fields are present, and always takes the caller's user id |
| Routes.ParseOrderItem | server/routes.ts:472-479 | an item is accepted exactly when menu item, quantity and price are present; it takes the new order's id and the request's values |
| Routes.ParseReservation | server/routes.ts:583-589 | a reservation body is accepted exactly when its required fields are present, and always takes the caller's user id |
| Routes.ListOrders | server/routes.ts:408-422 | 401 when signed out; all orders for an admin; exactly the caller's own orders otherwise |
| Routes.ListActiveOrders | server/routes.ts:424-431 | 403 unless a signed-in admin; then exactly the active orders |
| Routes.FetchOrder | server/routes.ts:433-453 | 401, then 404 for a missing id, then 403 unless owner or admin; an owner or admin asking for an existing id always gets 200 with the order and exactly its items |
| Routes.ListReservations | server/routes.ts:534-548 | 401 when signed out; all reservations for an admin; exactly the caller's own otherwise |
| Routes.ListActiveReservations | server/routes.ts:550-557 | 403 unless a signed-in admin; then exactly the active reservations |
| Routes.FetchReservation | server/routes.ts:559-577 | 401, then 404, then 403 unless owner or admin; an owner or admin asking for an existing id always gets 200 with the reservation |
| Routes.FirstInvalid | server/routes.ts:471-479 | the index where the item loop stops: every item before it is valid, and it is the number of items or the index of an invalid item |
| Routes.CreatedItems | server/routes.ts:472-481 | the records made from valid items: one per item, in order, each with the new order's id and the item's fields, with consecutive ids |
| Routes.CreateOrderItems | server/routes.ts:468-482 | the order-item listing grows by exactly the records of the items before the first invalid one, and the counter by their number; a result is returned exactly when every item is valid, and it is those records, each stored under its own id |
| Tables.ListedIsStored | server/storage.ts:328-339 | in a well-formed table a record is listed exactly when it is stored under its own id, so a listing determines what is stored |
| Routes.CreateOrderRoute | server/routes.ts:455-498 | 401 or 400 on a bad order, with nothing stored; otherwise the order is stored under the next id for the caller and the item listing grows by the items before the first invalid one; 201 with the order and all its items and one broadcast exactly when every item is valid, otherwise 400 and no broadcast |
| Routes.UpdateOrderRoute | server/routes.ts:500-531 | 401, then 404, then 403; an owner or admin updating an existing order always succeeds: 200, the patch is merged, stored and broadcast; failures change and send nothing |
| Routes.CreateReservationRoute | server/routes.ts:579-603 | 401, 400 on a bad body, else 201 with the reservation stored for the caller and broadcast |
| Routes.UpdateReservationRoute | server/routes.ts:605-641 | 401, then 404, then 403; an owner or admin updating an existing reservation always succeeds: 200, the patch is merged, stored and broadcast; failures change and send nothing |
| Routes.UpdateMenuItemRoute | server/routes.ts:346-387 | 403 unless admin, 404 for a missing id; an admin updating an existing item always gets 200, with the patch merged, stored and broadcast; failures send nothing |
| Routes.DeleteMenuItemRoute | server/routes.ts:389-405 | 403 unless admin, 404 for a missing id; an admin deleting an existing item always gets 200, with the item deleted and the deletion broadcast; failures send nothing |
| Socket.MessageHandlers.constructor | client/src/lib/socket.ts:7 | no handler is registered and no call has been made |
| Socket.MessageHandlers.OnMessage | client/src/lib/socket.ts:76-82 | the type's list is created if absent and the handler appended at its end; no other type changes |
| Socket.MessageHandlers.Unsubscribe | client/src/lib/socket.ts:84-89 | the first listing of the handler in its type's list is removed; other types are unchanged |
| Socket.UnsubscribeEffect | client/src/lib/socket.ts:84-89 | unsubscribing touches only its own type, removes the first listing and keeps the rest in order, and does nothing when the handler is no longer listed |
| Socket.SubscribeThenUnsubscribe | client/src/lib/socket.ts:76-89 | subscribing a new handler and then unsubscribing it restores that type's list |
| Socket.MessageHandlers.HandleMessage | client/src/lib/socket.ts:93-99 | every handler registered for the type is called with the data, in registration order; a type without handlers calls nothing |
| Socket.Invocations | client/src/lib/socket.ts:97 | one call per listed handler, in list order, each with the data |
| OrderCard.BadgeVariant | client/src/components/admin/OrderItem.tsx:20-35 | "secondary" exactly for a status outside the five known ones |
| OrderCard.BadgeVariantsDistinct | client/src/components/admin/OrderItem.tsx:20-35 | the five known statuses get five different variants |
| OrderCard.FormatStatus | client/src/components/admin/OrderItem.tsx:38-45 | "out_for_delivery" reads "Delivery"; any other status has its first character upper-cased and the rest kept |
| OrderCard.FormatKnownStatuses | client/src/components/admin/OrderItem.tsx:38-45 | the five statuses read Pending, Processing, Delivery, Completed, Cancelled |
| OrderCard.QuickActions | client/src/components/admin/OrderItem.tsx:95-138 | a non-admin sees no actions, and there are never more than two |
| OrderCard.QuickActionTransitions | client/src/components/admin/OrderItem.tsx:97-138 | pending offers processing and cancelled; processing offers out_for_delivery for a delivery and completed otherwise; out_for_delivery offers completed; other statuses offer nothing |
| OrderCard.QuickActionsMoveForward | client/src/components/admin/OrderItem.tsx:97-138 | every quick action moves a known status forward, apart from declining a pending order |
| OrderCard.DropdownReachesEveryStatus | client/src/components/admin/OrderItem.tsx:141-157 | the admin dropdown offers exactly the five known statuses |
| OrderCard.HandleStatusChange | client/src/components/admin/OrderItem.tsx:62-66 | a request is made exactly when a callback is given, with the card's own order id and the chosen status |
| OrderCard.DropdownRequestsChosenStatus | client/src/components/admin/OrderItem.tsx:62-66 | from the dropdown any order can be sent to any known status, terminal or not |
| OrderManagement.FilteredOrders | client/src/pages/admin/OrderManagement.tsx:88-109 | a selecting tab shows only orders passing its test; any other tab shows all orders |
| OrderManagement.ShownOrders | client/src/pages/admin/OrderManagement.tsx:91-108 | each named tab shows exactly the fetched orders of its status; "active" those pending, processing or out for delivery; any other tab all |
| OrderManagement.TabShowsSubMultiset | client/src/pages/admin/OrderManagement.tsx:88-109 | every tab shows a sub-multiset of the fetched orders |
| OrderManagement.ActiveTabAgreesWithStore | client/src/pages/admin/OrderManagement.tsx:102-105 | over the five known statuses the "active" tab agrees with the store's active-order test |
| OrderManagement.ActiveTabDisagreesOffVocabulary | client/src/pages/admin/OrderManagement.tsx:102-105 | a status outside the five is active to the store but not shown on the "active" tab |
| OrderManagement.SortInPlace | client/src/pages/admin/OrderManagement.tsx:112-114 | the array ends newest first and holds the same orders |
| OrderManagement.InsertAt | client/src/pages/admin/OrderManagement.tsx:112-114 | one insertion step extends the sorted prefix by one and keeps the orders |
| OrderManagement.SortedOrders | client/src/pages/admin/OrderManagement.tsx:112-114 | a selecting tab sorts a new array and leaves the fetched one as it was; any other tab sorts the fetched array itself; either way the shown orders are the tab's, newest first |
| OrderManagement.OnOrderCreated | client/src/pages/admin/OrderManagement.tsx:37-47 | a new order always refetches, and shows a toast exactly when the "active" tab is not open |
| OrderManagement.OnOrderUpdated | client/src/pages/admin/OrderManagement.tsx:49-51 | an updated order refetches without a toast |
| Recency.Insert | client/src/pages/admin/Dashboard.tsx:81-83 | inserting into a newest-first list keeps it newest first and adds exactly that order |
| Recency.SortNewestFirst | client/src/pages/admin/Dashboard.tsx:81-83 | the sorted copy is newest first and a permutation of the input |
| Dashboard.ComputeStats | client/src/pages/admin/Dashboard.tsx:69-73 | the order count is the list's length, the revenue the sum of totals, and the open count lies between 0 and the order count |
| Dashboard.RevenueConcat | client/src/pages/admin/Dashboard.tsx:70 | the revenue of two lists is the sum of their revenues |
| Dashboard.RevenuePermutation | client/src/pages/admin/Dashboard.tsx:70 | the revenue does not depend on the order of the list |
| Dashboard.RevenueBounds | client/src/pages/admin/Dashboard.tsx:70 | with no negative totals the revenue is at least any one order's total |
| Dashboard.ActiveOrdersCounted | client/src/pages/admin/Dashboard.tsx:71-73 | the open count counts each open order once, and equals the order count exactly when no order is completed or cancelled |
| Dashboard.ActiveOrdersMatchStore | client/src/pages/admin/Dashboard.tsx:71-73 | over the whole store the open count equals the length of the store's active-order list |
| Dashboard.RecentAreNewest | client/src/pages/admin/Dashboard.tsx:81-86 | the recent list holds min(3, n) of the orders, newest first, and no order left out is newer than one shown |
| ReservationForm.GenerateTimeSlots | client/src/components/ReservationForm.tsx:112-124 | the nested loops produce exactly the slots of hours 17 to 21, on the hour and then the half hour |
| ReservationForm.SlotsBetweenIndexed | client/src/components/ReservationForm.tsx:114-121 | a span of hours yields two slots per hour, slot 2j on the hour and 2j+1 at half past |
| ReservationForm.EveningSlot | client/src/components/ReservationForm.tsx:116-119 | an evening slot's value is zero-padded "HH:MM" on the hour or half hour naming its own time, and its caption is that value's 12-hour form with "PM" |
| ReservationForm.SlotsAreHalfHours | client/src/components/ReservationForm.tsx:112-124 | ten slots; slot 2j+half is 17:00 plus j hours and half a half hour, so the values strictly increase from "17:00" to "21:30", and every caption is its 12-hour form, "5:00 PM" to "9:30 PM" |
| ReservationForm.SubmitReservation | client/src/components/ReservationForm.tsx:82-103 | no request when signed out; otherwise a pending body with the form's fields, the party size parsed, and special requests defaulting to "" |
| ReservationForm.SubmittedDateAndSize | client/src/components/ReservationForm.tsx:95-97 | the body's date is the form's date, "T", the chosen slot's clock time and ":00"; a party size typed as a number arrives as that number |
| Navigation.CustomerActiveRule | client/src/components/BottomNavigation.tsx:26-34 | "/" is active only at exactly "/"; any other item exactly when the location starts with its path |
| Navigation.CustomerAtMostOneActive | client/src/components/BottomNavigation.tsx:17-34 | at most one of the five customer items is active, wherever the location is |
| Navigation.OrderBadge | client/src/components/BottomNavigation.tsx:19 | a badge is shown exactly when the count is positive, and it shows the count |
| Navigation.BadgeShowsCart | client/src/components/BottomNavigation.tsx:19 | with positive quantities, the Order item has a badge exactly when the cart has a line |
| Navigation.AdminActiveRule | client/src/components/admin/AdminNavigation.tsx:16-24 | Dashboard only at exactly "/admin"; Menu, Orders and Settings exactly when the location starts with their path |
| Navigation.OrderPageLightsOrders | client/src/components/admin/AdminNavigation.tsx:8-24 | "/admin/orders/5" lights Orders and no other admin item |
| Navigation.AdminAtMostOneActive | client/src/components/admin/AdminNavigation.tsx:8-24 | at most one admin item is active, wherever the location is |
| Navigation.AdminInactiveElsewhere | client/src/components/admin/AdminNavigation.tsx:8-24 | no admin item is active outside "/admin" |
| SettingsPage.ColourPatternMeans | client/src/pages/admin/SettingsPage.tsx:36 | the colour pattern accepts exactly "#" followed by three or six hexadecimal digits of either case |
| SettingsPage.BadColoursRefused | client/src/pages/admin/SettingsPage.tsx:36 | no "#", a length other than 4 or 7, or a non-hex character is refused |
| SettingsPage.FallbackColourAccepted | client/src/pages/admin/SettingsPage.tsx:69 | the fallback "#8D4E00" passes the pattern |
| SettingsPage.SettingsErrors | client/src/pages/admin/SettingsPage.tsx:34-37 | the form is valid exactly when the name is non-empty and the colour matches; an empty name reports "HandPlatter name is required" |
| SettingsPage.FormDefaults | client/src/pages/admin/SettingsPage.tsx:67-83 | without settings the form starts empty with the fallback colour; otherwise with the stored name and any stored colour |
| SettingsPage.DefaultColourAccepted | client/src/pages/admin/SettingsPage.tsx:69-82 | whenever the fallback colour is used, the form's colour passes the pattern |
| SettingsPage.SubmitSettings | client/src/pages/admin/SettingsPage.tsx:139-149 | a request is sent exactly when the form is valid |
| SettingsPage.SubmittedBody | client/src/pages/admin/SettingsPage.tsx:140-146 | the body always starts with name and primaryColor, and has a "logo" field exactly when a file was chosen, as its third and last field |
| Text.ParseIntOfNatToString | server/routes.ts:435 | parseInt reads back a non-negative integer printed in decimal |

## Left out

- I/O and foreign libraries: the Express app, Passport sessions and login, express-session, multer uploads and static serving, the PayPal routes and `JSON.parse`/`JSON.stringify`. Requests reach the model as already-parsed bodies (`Option` fields for absent keys), and responses leave it as a status and a value.
- The WebSocket transport, the client's `initializeSocket`/`sendMessage` and their reconnect timers. A connection is an abstract id, and whether it is open is a set the caller passes in; a frame sent is recorded in `ClientRegistry.sent`.
- Socket.MessageHandlers.HandleMessage: a handler is an abstract id, and a call is recorded in `calls`. What a handler does is outside the model, including a handler that subscribes or unsubscribes while `forEach` runs.
- localStorage loading and saving of the cart, and every toast, redirect and query invalidation (the model records only whether they happen).
- Floating point: prices are integer cents and tax and totals are exact reals, so IEEE rounding and `Intl.NumberFormat` currency display are not modelled.
- The zod insert schemas and form validators other than the colour pattern. Their field-presence checks are modelled as `Option` fields (`Routes.ParseOrder`, `Routes.ParseOrderItem`, `Routes.ParseReservation`); type coercion, email format and the other validators of LoginForm, SignupForm, ContactForm, MenuItemForm, AdminMenuForm and the reservation form are not.
- Dates and clocks: `createdAt` and the reservation date are integers supplied by the caller, the "pong" time is a parameter, and the dashboard's "today's reservations" count (`toDateString`) is not modelled.
- Recency.SortNewestFirst: `createdAt` is compared as an integer, not as a parsed date string.
- OrderManagement.SortInPlace: proves the newest-first order and the permutation, not the stability of `Array.prototype.sort` for equal timestamps.
- OrderCard.FormatStatus: upper-cases ASCII letters only; `toUpperCase` on other scripts is not modelled.
- Storage.MemStorage.GetUserByUsername: the case-insensitive match folds ASCII letters only. `toLowerCase` folds every script, so "É" matches "é" in the code but not in the model.
- Storage.MemStorage.GetUserByEmail: the same ASCII-only case folding as `GetUserByUsername`.
- Storage.MemStorage.GetCategoryByName: the same ASCII-only case folding as `GetUserByUsername`.
- Routes.UpdateOrderRoute: the patch holds only the typed fields of `InsertOrder`. The route passes the raw `req.body` (`server/routes.ts:514`), and the spread of `server/storage.ts:318` copies every key. So a body carrying `id` or `createdAt` rewrites them, and extra keys and ill-typed values are stored too. None of this is modelled.
- Routes.UpdateReservationRoute: the patch holds only the typed fields of `InsertReservation`. Other keys, ill-typed values and the `new Date(req.body.date)` conversion (`server/routes.ts:619-624`) are not modelled.
- Routes.UpdateMenuItemRoute: the patch holds only the typed fields of `InsertMenuItem`. Other keys, and the `parseFloat`/`parseInt`/`=== 'true'` conversions of `server/routes.ts:355-365`, are not modelled.
- Schema.OrderPatchKeepsIdentity: holds for callers that pass a typed `Partial<InsertOrder>` (`server/storage.ts:44`), not for the raw body the PUT route passes. For the same reason, the well-formedness of `Storage.MemStorage.Valid`, that every record's id equals its key, holds for the store's typed API only.
- Socket.MessageHandlers.OnMessage: `messageHandlers` is a plain object, so a type named after an `Object.prototype` member ("constructor", "toString") finds a non-array there, and `push` and `forEach` throw. The model's map has no such keys.
- Dashboard sorts a spread copy of the fetched array. `Dashboard.RecentOrders` is a function on a sequence, so the fetched orders cannot change by construction.
- The category and location routes, settings routes, auth routes and the menu-item read and create routes are not modelled: they repeat the store operations above behind the same gates, and the store operations are.
- React rendering, hooks and routing, and the pages and components not named above, are not part of this model.

## Findings

| source | as written | input that shows it | evidently intended | confidence | as-written member | corrected member |
|---|---|---|---|---|---|---|
| server/storage.ts:127-137 | `createCategory` is `async`, and `initializeDefaultData` calls it without `await`, so `mains` is a Promise and `mains.id` is `undefined` on all three seeded dishes | a fresh store: `getMenuItemsByCategory(2)` (Main Courses) lists no dish, and neither does any other category | the dishes carry the id of "Main Courses" (2) and are listed under it | high (not executed) | Storage.AsWrittenSeedingListsNoDish | Storage.FreshStoreMainCourses |

`Storage.MemStorage.InitializeDefaultDataAsWritten` seeds the store as the code stands.
It stores the dishes with the undefined category id of `Storage.SeedCategoryIdAsWritten`, and
`Storage.AsWrittenSeedingListsNoDish` proves that no category then lists them. The rest of
the model uses the corrected behaviour. The constructor calls
`Storage.MemStorage.InitializeDefaultData`, which stores the id of "Main Courses" on the
dishes, and `Storage.FreshStoreMainCourses` proves that they are listed under it.
