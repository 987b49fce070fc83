# Ferretería storefront — a Dafny model

This project models the client-side logic of an online hardware store for Cuba. It is a React single-page application whose data lives in a hosted Postgres backend. The model covers the parts of the application that decide something:

- **Shopping cart** (`cart_store.dfy`, `cart_page.dfy`, `product_page.dfy`). The cart store's add/remove/update/clear operations are methods on a class whose `items` field they replace. The item and price totals are functions. The cart page's "+"/"−"/remove/clear handlers and the product page's quantity stepper are also modelled. Proved: an add never pushes a line past the stock it was given, product ids stay unique, and one click changes the item total by exactly one or not at all.
- **Checkout** (`checkout.dfy`). The three-step wizard, the address rules, the delivery slot and the order placement. Placement writes the order, then its lines, then one stock decrement per line. It writes no status-history row. It has no rollback, and the model keeps it that way.
- **Wishlist** (`wishlist.dfy`). Membership, add (prepend), remove (filter) and toggle.
- **Order status** (`order_notifications.dfy`, `admin_orders.dfy`, `orders_page.dfy`, `order_status_timeline.dfy`, `admin_dashboard.dfy`):
  - the realtime status-change notifier, which remembers the last status per order;
  - the admin order board: its status table, timeline, buttons that may be chosen, search and counters;
  - the customer's order history;
  - the sorted status history;
  - the dashboard's counters, pie, lowest-stock bars and per-category tally.
- **Administration** (`admin_users.dfy`, `admin_categories.dfy`, `admin_products.dfy`). The gestor role switch, the category slug generator and form, and the product form with its image upload.
- **Accounts** (`register.dfy`, `profile.dfy`, `cuba.dfy`). The two-step registration, the profile form, the password change that re-authenticates first, and the province/municipality table with its pair of selects.
- **Browsing** (`catalog.dfy`, `reviews.dfy`, `star_rating.dfy`, `pagination.dfy`, `routes.dfy`). The catalog search and chips, the review block with its distribution bars and form, the star row, the page selector, and the route table with its three guards.

`domain.dfy` holds the records of the backend's tables. `text.dfy` has the string helpers the pages use: ASCII lower-casing, substring search, trimming, number printing, and string length and slicing in UTF-16 code units as JavaScript counts them. `seqs.dfy` has filter and count with their lemmas.

Modelling conventions:

- Money is integer cents and timestamps are integers.
- Every backend call is a parameter. The method receives the call's error or its rows, or returns the write it would send. The same goes for the clock, the signed-in session and the e-mail check of the form library.
- Handlers that change state are methods of a class whose fields are the component's state. The pure expressions are functions.
- Each method's `ensures` gives the complete new state. The lemmas beside it prove what the page promises.

## Model

| member | source | states |
|---|---|---|
| CartStore.FindLine | src/store/cartStore.ts:22 | a found index is a line of the cart |
| CartStore.WithAdded | src/store/cartStore.ts:20-36 | definition of the add-or-reject list; its promises are CartStore.AddItemNewLine, CartStore.AddItemExistingLine, CartStore.AddItemKeepsIdsUnique and CartStore.AddItemTotal |
| CartStore.TotalItems | src/store/cartStore.ts:56 | definition of the item total; CartStore.TotalItemsAppend, CartStore.TotalItemsUpdateAt and CartStore.ClearTotals state how it moves |
| CartStore.TotalPrice | src/store/cartStore.ts:58-60 | definition of the price total; CartStore.TotalPriceAppend and Checkout.OrderLinesSumToTotal relate it to the order |
| CartStore.FindLineFirst | src/store/cartStore.ts:22 | the index found is the first line with the product id; none is found exactly when no line has it |
| CartStore.SetQuantityLines | src/store/cartStore.ts:28-30 | same length; every line with the id gets the new quantity, every other line is unchanged |
| CartStore.WithoutProductDrops | src/store/cartStore.ts:39 | no line with the id remains and the list never grows |
| CartStore.Cart.constructor | src/store/cartStore.ts:18 | the cart starts empty |
| CartStore.Cart.AddItem | src/store/cartStore.ts:20-36 | the new list is the add-or-reject result for the old list (merge into the existing line or append, each only within the passed stock) |
| CartStore.Cart.RemoveItem | src/store/cartStore.ts:38-40 | the new list is the old one without the product's lines |
| CartStore.Cart.UpdateQuantity | src/store/cartStore.ts:42-52 | a quantity of 0 or less removes the product; a positive one is set on its lines without a stock check |
| CartStore.Cart.ClearCart | src/store/cartStore.ts:54 | the cart is empty |
| CartStore.TotalItemsAppend | src/store/cartStore.ts:56 | the item total of two lists joined is the sum of their totals |
| CartStore.TotalPriceAppend | src/store/cartStore.ts:58-60 | the price total of two lists joined is the sum of their totals |
| CartStore.TotalItemsUpdateAt | src/store/cartStore.ts:56 | changing one line's quantity changes the item total by the difference |
| CartStore.SetQuantityUnique | src/store/cartStore.ts:28-30 | with unique ids, setting a present id's quantity changes that one line only |
| CartStore.FindUniqueLine | src/store/cartStore.ts:22 | with unique ids, looking up line k's product id finds line k |
| CartStore.AddItemNewLine | src/store/cartStore.ts:32-35 | an absent product is appended at the end when its quantity fits the stock, otherwise the cart is unchanged |
| CartStore.AddItemExistingLine | src/store/cartStore.ts:24-31 | a present product's line grows by the quantity, keeping its stored product record, when the new total fits the passed stock; otherwise nothing changes |
| CartStore.AddItemKeepsIdsUnique | src/store/cartStore.ts:22-35 | adding keeps the product ids unique |
| CartStore.AddItemTouchedLineBounds | src/store/cartStore.ts:24-35 | with a quantity of at least 1, the line an accepted add touches ends between 1 and the passed stock |
| CartStore.RaiseLineTotal | src/store/cartStore.ts:25-31 | raising one line by q changes the cart and raises the item total by exactly q |
| CartStore.AddItemTotal | src/store/cartStore.ts:20-36 | an add either leaves cart and item total as they were, or raises the item total by exactly the quantity |
| CartStore.AddItemUnchangedTotalIffRejected | src/store/cartStore.ts:20-36 | the item total is unchanged exactly when the add was rejected |
| CartStore.RemoveAbsent | src/store/cartStore.ts:38-40 | removing an absent id changes nothing |
| CartStore.RemovePresent | src/store/cartStore.ts:38-40 | removing the unique line k leaves the lines before and after it, in order |
| CartStore.RemoveKeepsOthers | src/store/cartStore.ts:38-40 | removal never invents lines and keeps every line of another product |
| CartStore.UpdateNonPositiveRemoves | src/store/cartStore.ts:43-46 | a quantity of 0 or less is exactly a removal |
| CartStore.UpdatePositiveSets | src/store/cartStore.ts:47-51 | a positive quantity replaces that one line's quantity and nothing else |
| CartStore.UpdateQuantityCanExceedStock | src/store/cartStore.ts:42-52 | the store itself lets a line go above its stock |
| CartStore.ClearTotals | src/store/cartStore.ts:54-60 | an empty cart has item and price totals of 0 |
| CartPage.CheckoutTarget | src/pages/CartPage.tsx:27-37 | definition of the button's decision (checkout only for a signed-in user, at /checkout); CartPage.CheckoutGateMatchesRoute proves it is the route guard's decision |
| CartPage.CheckoutGateMatchesRoute | src/pages/CartPage.tsx:27-37 | once the session has loaded, the cart sends the visitor to /checkout exactly when the route table shows the checkout page there, and withholds it exactly when that route redirects to the sign-in page |
| CartPage.CartView.constructor | src/pages/CartPage.tsx:14 | the confirmation dialog starts closed |
| CartPage.CartView.Plus | src/pages/CartPage.tsx:138-148 | at stock the cart is unchanged with a stock warning; otherwise the line is set one higher with an update notice |
| CartPage.CartView.Minus | src/pages/CartPage.tsx:126-131 | the line is set one lower (removed at 1), with a notice only while it stays positive |
| CartPage.CartView.HandleRemove | src/pages/CartPage.tsx:16-19 | the product's line is removed and a removal notice names it |
| CartPage.CartView.AskClearCart | src/pages/CartPage.tsx:90 | the header button only opens the dialog |
| CartPage.CartView.HandleClearCart | src/pages/CartPage.tsx:21-25 | confirming empties the cart and closes the dialog |
| CartPage.CartView.CancelClearCart | src/pages/CartPage.tsx:70 | cancelling closes the dialog and leaves the cart alone |
| CartPage.CartView.HandleCheckout | src/pages/CartPage.tsx:27-37 | without a user only a sign-in warning, with one the way to /checkout |
| CartPage.PlusKeepsInStock | src/pages/CartPage.tsx:138-148 | "+" keeps every line within 1..stock and the ids unique |
| CartPage.PlusRaisesByOne | src/pages/CartPage.tsx:138-148 | "+" refuses at stock, otherwise raises that line alone by one and the item total by one |
| CartPage.PlusAccepted | src/pages/CartPage.tsx:146 | below stock, "+" changes only line k, to one unit more |
| CartPage.MinusAtOneRemoves | src/pages/CartPage.tsx:126-127 | "-" at quantity 1 drops the line; above 1 it lowers only that line by one |
| CartPage.DialogOnlyConfirmClears | src/pages/CartPage.tsx:62-71 | any sequence of dialog events without a confirm leaves the cart intact |
| CartPage.DialogAskThen | src/pages/CartPage.tsx:62-90 | ask-then-confirm empties the cart; ask-then-cancel keeps it |
| ProductPage.MaxQty | src/pages/ProductPage.tsx:98 | the stepper's ceiling is the smaller of the stock and 99 |
| ProductPage.LevelExactlyOne | src/pages/ProductPage.tsx:96-97 | for a stock of 0 or more exactly one badge applies: out of stock at 0, low at 1..5, available above 5 |
| ProductPage.SelectorShown | src/pages/ProductPage.tsx:229 | definition of the condition; ProductPage.ShownStepperHasRoom ties it to the stock badge and to a stepper ceiling of at least 1 |
| ProductPage.ShownStepperHasRoom | src/pages/ProductPage.tsx:96-98 | the selector is shown exactly when the stepper can offer at least one unit, and exactly when the badge is not "out of stock" |
| ProductPage.StepInRange | src/pages/ProductPage.tsx:237-248 | one click keeps the quantity in [1, maxQty]: "-" lowers it except at 1, "+" raises it except at maxQty |
| ProductPage.Steps | src/pages/ProductPage.tsx:237-248 | definition of a click sequence; ProductPage.StepsInRange states its range |
| ProductPage.StepsInRange | src/pages/ProductPage.tsx:19 | from a quantity in [1, maxQty], any click sequence stays there for a product in stock |
| ProductPage.ProductView.constructor | src/pages/ProductPage.tsx:19 | the quantity starts at 1 |
| ProductPage.ProductView.Click | src/pages/ProductPage.tsx:236-252 | the quantity becomes the clamped step result |
| ProductPage.ProductView.HandleAdd | src/pages/ProductPage.tsx:22-42 | without a product nothing happens; otherwise the store add runs and the stock warning is shown exactly when the item total did not move |
| Checkout.GoTo | src/pages/CheckoutPage.tsx:82-85 | definition of one step change; Checkout.BackUndoesForward proves going back to the step one came from restores the state, with the direction reversed |
| Checkout.BackUndoesForward | src/pages/CheckoutPage.tsx:82-85 | a forward move has direction +1, and moving back to the previous step gives the old state with direction -1 |
| Checkout.AddressValid | src/pages/CheckoutPage.tsx:25-29 | definition of the address schema; Checkout.AddressRules exhibits what it accepts and refuses |
| Checkout.AddressRules | src/pages/CheckoutPage.tsx:25-29 | an address of 10 characters with an 8-digit phone passes; a phone with a dash, a 7-digit phone and an 8-character address are each refused |
| Checkout.AddressValidInBmp | src/pages/CheckoutPage.tsx:25-29 | for an address without characters outside the Basic Multilingual Plane, the schema holds exactly when the address has 10 characters and the phone 8, all digits |
| Checkout.AstralAddressPasses | src/pages/CheckoutPage.tsx:25-29 | the bounds count UTF-16 code units: a nine-character address ending in an emoji is ten units long and passes |
| Checkout.Transition | src/pages/CheckoutPage.tsx:88-97 | the step stays or moves by one; the address changes only by submitting a valid one, the slot only by picking it, the payment only by choosing it |
| Checkout.Run | src/pages/CheckoutPage.tsx:82-97 | a changed payment after a sequence of events is the value of one of its payment choices |
| Checkout.TransitionKeepsInv | src/pages/CheckoutPage.tsx:88-97 | every event keeps the wizard invariant, and the step moves only 1→2 on a valid address, 2→3 with a slot, and back 2→1 and 3→2 |
| Checkout.RunKeepsInv | src/pages/CheckoutPage.tsx:82-97 | every event sequence keeps the invariant, so step 3 always has a saved valid address and a slot |
| Checkout.InitialInv | src/pages/CheckoutPage.tsx:51-52 | the wizard starts in a state that meets the invariant |
| Checkout.OrderRequest | src/pages/CheckoutPage.tsx:105-121 | definition of the order row; Checkout.OrderTotalIsLineSum proves its total is the sum of the lines inserted with it |
| Checkout.OrderLines | src/pages/CheckoutPage.tsx:132-139 | one order line per cart line in cart order, with the product's id, name, price, the quantity and subtotal = price × quantity |
| Checkout.OrderLinesSumToTotal | src/pages/CheckoutPage.tsx:132-139 | the lines' subtotals add up to the cart's price total |
| Checkout.OrderTotalIsLineSum | src/pages/CheckoutPage.tsx:105-139 | the inserted order's total equals the sum of its inserted lines |
| Checkout.StockWrites | src/pages/CheckoutPage.tsx:152-157 | one write per line, in order, of the snapshot's stock minus the quantity; within the cart's stock bound no write is negative and each lowers the stock |
| Checkout.CheckoutView.constructor | src/pages/CheckoutPage.tsx:51-56 | the wizard starts at step 1 with no slot, payment or address, not loading and with no error |
| Checkout.CheckoutView.Dispatch | src/pages/CheckoutPage.tsx:82-97 | the wizard state moves as the transition function says |
| Checkout.CheckoutView.HandleOrder | src/pages/CheckoutPage.tsx:100-162 | nothing without a payment, an address and a profile; a failed order insert or items insert sets its message and keeps the cart; only after both succeed are the stock writes issued, the cart cleared and the order page opened |
| Wishlist.IsWishlisted | src/hooks/useWishlist.ts:30-33 | a product is wishlisted exactly when some row has its product id |
| Wishlist.Without | src/hooks/useWishlist.ts:54 | no row of the product remains, every row of another product is kept, and nothing is added |
| Wishlist.TempItem | src/hooks/useWishlist.ts:40-45 | definition of the temporary row; Wishlist.TempIdsDistinct proves two products never get the same temporary id |
| Wishlist.TempIdsDistinct | src/hooks/useWishlist.ts:40-45 | temporary rows for different products have different ids |
| Wishlist.Toggled | src/hooks/useWishlist.ts:79-85 | the toggled list has the product wishlisted exactly when the old one did not, and grows by at most one row |
| Wishlist.WishlistHook.constructor | src/hooks/useWishlist.ts:6-7 | the list starts empty and loading |
| Wishlist.WishlistHook.Fetch | src/hooks/useWishlist.ts:10-25 | without a user the list is emptied; with one it becomes the fetched rows, or empty when none came back; loading ends either way |
| Wishlist.WishlistHook.Add | src/hooks/useWishlist.ts:36-59 | without a user nothing changes; otherwise the temporary row is prepended and, on a refused insert, every row of the product is filtered out again; on success the list is refetched |
| Wishlist.WishlistHook.Remove | src/hooks/useWishlist.ts:62-76 | without a user nothing changes; otherwise every row of the product is dropped, and a refused delete refetches |
| Wishlist.WishlistHook.ToggleOptimistic | src/hooks/useWishlist.ts:79-85 | the list becomes the toggled list: the product filtered out when present, the temporary row prepended otherwise |
| Wishlist.AddPrepends | src/hooks/useWishlist.ts:46 | after the optimistic add the old rows follow the new one and the product is wishlisted |
| Wishlist.WithoutAbsent | src/hooks/useWishlist.ts:66 | removing a product without rows changes nothing |
| Wishlist.WithoutAppend | src/hooks/useWishlist.ts:54 | the filter distributes over concatenation |
| Wishlist.RevertAfterAdd | src/hooks/useWishlist.ts:46-55 | reverting a refused add drops the temporary row and also any row of the product that was there before |
| Wishlist.WithoutKeepsUnique | src/hooks/useWishlist.ts:66 | the filter keeps rows one per product |
| Wishlist.ToggleFlips | src/hooks/useWishlist.ts:79-85 | the optimistic toggle flips whether the product is wishlisted, leaves every other product as it was and never creates a duplicate |
| OrderNotifications.StatusMessage | src/hooks/useOrderNotifications.ts:6-11 | a message exists exactly for confirmed, on_the_way, delivered and cancelled |
| OrderNotifications.ChannelName | src/hooks/useOrderNotifications.ts:18-21 | definition of the channel name; OrderNotifications.ChannelsDistinct proves two users never share a channel |
| OrderNotifications.ChannelsDistinct | src/hooks/useOrderNotifications.ts:18-21 | different users subscribe to differently named channels |
| OrderNotifications.Handle | src/hooks/useOrderNotifications.ts:30-48 | a payload with a status records it for its order and adds at most that order's key; one without a status changes nothing and shows nothing |
| OrderNotifications.Stream | src/hooks/useOrderNotifications.ts:30-48 | a run of payloads shows at most one toast per payload, and the record ends with the last payload's status when it has one |
| OrderNotifications.Notifier.constructor | src/hooks/useOrderNotifications.ts:15 | no status is recorded at first |
| OrderNotifications.Notifier.OnPayload | src/hooks/useOrderNotifications.ts:30-48 | the record and the toast are what the handler function gives for the old record |
| OrderNotifications.NotifiesOnlyOnChange | src/hooks/useOrderNotifications.ts:33-41 | a toast is shown exactly for a non-empty status that differs from the recorded one and has a message |
| OrderNotifications.RecordsEveryChange | src/hooks/useOrderNotifications.ts:36-38 | a change is recorded for its order even without a message; anything else leaves the record alone; other orders' entries never change |
| OrderNotifications.PendingIsSilent | src/hooks/useOrderNotifications.ts:6-11 | a pending update is recorded but shows no toast |
| OrderNotifications.TwiceNotifiesOnce | src/hooks/useOrderNotifications.ts:36-38 | the second delivery of the same payload is silent and changes nothing |
| OrderNotifications.RepeatsNotifyOnce | src/hooks/useOrderNotifications.ts:30-48 | any number of copies of one payload give at most one toast and record what the first one records |
| OrderNotifications.RepeatsSilent | src/hooks/useOrderNotifications.ts:36 | once a payload's status is recorded, any further copies are silent and change nothing |
| AdminOrders.StatusesWellFormed | src/pages/admin/AdminOrders.tsx:15-61 | the five rows carry the backend's strings for their statuses and no value repeats |
| AdminOrders.NonCancelledIsFilter | src/pages/admin/AdminOrders.tsx:63 | the table without 'cancelled' is pending, confirmed, on the way, delivered, in that order |
| AdminOrders.FindEntry | src/pages/admin/AdminOrders.tsx:72 | the first row with the value, or none exactly when no row has it |
| AdminOrders.GetStatus | src/pages/admin/AdminOrders.tsx:71-73 | the result is always one of the table's rows |
| AdminOrders.GetStatusRoundTrip | src/pages/admin/AdminOrders.tsx:71-73 | a status's own string finds its own row; a string of no status falls back to Pendiente |
| AdminOrders.StepIndex | src/pages/admin/AdminOrders.tsx:406-407 | the position in the live statuses, -1 exactly for cancelled |
| AdminOrders.TimelinePrefix | src/pages/admin/AdminOrders.tsx:405-409 | the done steps are a prefix of the timeline, and the current step is the only one matching the order's status |
| AdminOrders.ShowsTimeline | src/pages/admin/AdminOrders.tsx:393 | definition of the condition; AdminOrders.TimelineHasCurrent proves the timeline is shown exactly when one of its steps is the current one |
| AdminOrders.TimelineHasCurrent | src/pages/admin/AdminOrders.tsx:393-409 | the timeline shows exactly when some of its four steps is current, and then the step at the status's index is |
| AdminOrders.Selectable | src/pages/admin/AdminOrders.tsx:438-480 | the current status is never offered, and nothing is offered exactly when the order is final or an update runs |
| AdminOrders.SelectableIsEveryOther | src/pages/admin/AdminOrders.tsx:438-480 | a status can be chosen exactly when the order is not delivered or cancelled, no update is running, and it differs from the current one; backward moves are allowed |
| AdminOrders.Filtered | src/pages/admin/AdminOrders.tsx:543-554 | an order stays, in order, exactly when it passes the status filter and the search over id, client name, address and phone |
| AdminOrders.FilteredIsChained | src/pages/admin/AdminOrders.tsx:543-554 | the single filter gives the same list as the page's two chained filters |
| AdminOrders.FilteredAllBlank | src/pages/admin/AdminOrders.tsx:545-546 | 'all' with a blank search keeps every order |
| AdminOrders.OrderStats | src/pages/admin/AdminOrders.tsx:570-574 | definition of the three counters; AdminOrders.StatsParts states what they add up to |
| AdminOrders.StatsParts | src/pages/admin/AdminOrders.tsx:570-574 | 'En curso' counts confirmed plus on-the-way orders, and the three counters together never exceed the list |
| AdminOrders.StatusCountsSum | src/pages/admin/AdminOrders.tsx:15-61 | the counts per status of the five add up to the number of orders |
| AdminOrders.ItemCountOfPlacedOrder | src/pages/admin/AdminOrders.tsx:110 | the card's item count for an order placed from a cart equals the cart's item total |
| AdminOrders.AdminOrdersView.constructor | src/pages/admin/AdminOrders.tsx:538-539 | no order is open and no update is running |
| AdminOrders.AdminOrdersView.BeginStatusChange | src/pages/admin/AdminOrders.tsx:557 | the chosen status is marked as updating; the open order is unchanged |
| AdminOrders.AdminOrdersView.FinishStatusChange | src/pages/admin/AdminOrders.tsx:558-567 | the spinner stops; an error gives its message and changes nothing; on success the open order takes the new status only when it is the one updated |
| OrdersPage.Visible | src/pages/OrdersPage.tsx:400-402 | 'all' shows the whole history; any other key shows, in order, exactly the orders whose status string is that key |
| OrdersPage.ChipCount | src/pages/OrdersPage.tsx:442-444 | a chip's number is the length of the list that chip shows |
| OrdersPage.ChipIsStatusCount | src/pages/OrdersPage.tsx:442-444 | a status chip counts exactly the orders in that status |
| OrdersPage.ChipsSumToAll | src/pages/OrdersPage.tsx:391-398 | the five status chips add up to the 'Todos' chip |
| OrdersPage.ActiveIsThreeChips | src/pages/OrdersPage.tsx:404-406 | the active badge is the pending, confirmed and on-the-way chips added together |
| OrdersPage.FindKey | src/pages/OrdersPage.tsx:92 | the first position holding the key, or -1 exactly when the key is absent |
| OrdersPage.StripMatchesStatus | src/pages/OrdersPage.tsx:77-114 | for a live order the strip's current step holds its status, the done steps are a prefix, the current step is done, and the positions agree with the admin timeline |
| OrdersPage.Pieces | src/pages/OrdersPage.tsx:235 | one "name ×qty" piece per line, in order |
| OrdersPage.SummaryAppend | src/pages/OrdersPage.tsx:235 | a one-line order shows just its piece; one more line adds one separator and its piece at the end |
| OrderStatusTimeline.SortedPairwise | src/components/orders/OrderStatusTimeline.tsx:67-69 | in the sorted copy every earlier entry is no later than any later one |
| OrderStatusTimeline.Insert | src/components/orders/OrderStatusTimeline.tsx:67-69 | inserting into a sorted list keeps it sorted and one longer, and puts the new entry first or keeps the old first entry |
| OrderStatusTimeline.InsertPermutes | src/components/orders/OrderStatusTimeline.tsx:67-69 | inserting adds exactly that entry: the result is the old entries plus the new one, as a multiset |
| OrderStatusTimeline.SortByTime | src/components/orders/OrderStatusTimeline.tsx:67-69 | the copy is sorted by change time and is a permutation of the history |
| OrderStatusTimeline.SortSortedIsIdentity | src/components/orders/OrderStatusTimeline.tsx:67-69 | a history already in time order is shown unchanged |
| OrderStatusTimeline.RowAt | src/components/orders/OrderStatusTimeline.tsx:79-132 | definition of one row; OrderStatusTimeline.CurrentIffLatest and OrderStatusTimeline.AtMostOneCurrent state where the current mark falls |
| OrderStatusTimeline.Rows | src/components/orders/OrderStatusTimeline.tsx:79 | one row per history entry |
| OrderStatusTimeline.ShowsConnector | src/components/orders/OrderStatusTimeline.tsx:74 | the connector line is drawn exactly when there are two or more entries |
| OrderStatusTimeline.AtMostOneCurrent | src/components/orders/OrderStatusTimeline.tsx:82-83 | no two rows are current; a current row is the last one and carries the order's status |
| OrderStatusTimeline.CurrentIffLatest | src/components/orders/OrderStatusTimeline.tsx:67-83 | some row is marked current exactly when the history is not empty and its latest entry has the order's current status |
| OrderStatusTimeline.CaptionsDistinct | src/components/orders/OrderStatusTimeline.tsx:12-54 | two configured statuses never share a caption |
| OrderStatusTimeline.RowsInTimeOrder | src/components/orders/OrderStatusTimeline.tsx:67-79 | the rows show the entries ascending by time, each entry exactly once |
| AdminDashboard.RevenueIsDeliveredOnly | src/pages/admin/AdminDashboard.tsx:161-163 | revenue adds an order's total exactly when that order is delivered |
| AdminDashboard.NoDeliveredNoRevenue | src/pages/admin/AdminDashboard.tsx:161-163 | with no delivered order the revenue is 0 |
| AdminDashboard.ComputeStats | src/pages/admin/AdminDashboard.tsx:155-160 | pending plus delivered orders never exceed the order count, which is the list's length; the product counters never exceed the product list |
| AdminDashboard.ScreenOf | src/pages/admin/AdminDashboard.tsx:214-232 | definition of the screen choice; AdminDashboard.Dashboard.FetchAll and its constructor keep the invariant that the charts screen always has the stats of the fetched lists |
| AdminDashboard.Dashboard.constructor | src/pages/admin/AdminDashboard.tsx:125-128 | there are no stats yet, the lists are empty and the page is loading |
| AdminDashboard.Dashboard.FetchAll | src/pages/admin/AdminDashboard.tsx:132-171 | a failed query or a thrown request sets the error and keeps the old stats and lists; otherwise the lists are the rows (none for null) and the stats are computed from them |
| AdminDashboard.AllSlices | src/pages/admin/AdminDashboard.tsx:179-182 | one slice per status, in the given order |
| AdminDashboard.EverySliceListed | src/pages/admin/AdminDashboard.tsx:31-37 | every status has a slice in the label-order list |
| AdminDashboard.StatusCountIsFilterLength | src/pages/admin/AdminDashboard.tsx:181 | a slice's value, counted order by order, is the length of the orders filtered by that status |
| AdminDashboard.StatusCountsAddUp | src/pages/admin/AdminDashboard.tsx:179-182 | the five status counts add up to the number of orders |
| AdminDashboard.AllSlicesSum | src/pages/admin/AdminDashboard.tsx:179-182 | before the empty slices are dropped, the five slices add up to the number of orders |
| AdminDashboard.StatusData | src/pages/admin/AdminDashboard.tsx:179-183 | the pie keeps the label order, has only non-empty slices, and has the slice of every status with at least one order |
| AdminDashboard.SliceSumDropsZeros | src/pages/admin/AdminDashboard.tsx:183 | dropping empty slices does not change their sum |
| AdminDashboard.PieCoversAllOrders | src/pages/admin/AdminDashboard.tsx:179-183 | the pie's slices add up to the number of orders |
| AdminDashboard.InsertByStock | src/pages/admin/AdminDashboard.tsx:187 | inserting into an ascending list keeps it ascending and one longer, and puts the new product first or keeps the old first product |
| AdminDashboard.InsertByStockPermutes | src/pages/admin/AdminDashboard.tsx:187 | inserting adds exactly that product: the result is the old products plus the new one, as a multiset |
| AdminDashboard.SortByStock | src/pages/admin/AdminDashboard.tsx:187 | the result is ascending by stock and a permutation of the input |
| AdminDashboard.StockPairwise | src/pages/admin/AdminDashboard.tsx:187 | in the sorted list no earlier product has more stock than a later one |
| AdminDashboard.ShortName | src/pages/admin/AdminDashboard.tsx:190 | a name of at most 18 UTF-16 code units is kept; a longer one becomes a prefix of it of 17 or 18 code units followed by the ellipsis, and one more character of the name would pass 18 |
| AdminDashboard.ShortNameShape | src/pages/admin/AdminDashboard.tsx:190 | a label has at most 19 code units, and equals the name exactly when the name has at most 18, or has 19 and already ends in the ellipsis |
| AdminDashboard.ShortNameInBmp | src/pages/admin/AdminDashboard.tsx:190 | a long name without characters outside the Basic Multilingual Plane becomes exactly its first 18 characters and the ellipsis |
| Text.Utf16Length | src/pages/admin/AdminDashboard.tsx:190 | `length` counts UTF-16 code units: at least one and at most two per character; Text.Utf16LengthInBmp and Text.AstralCountsTwo say which |
| Text.Utf16LengthInBmp | src/pages/admin/AdminDashboard.tsx:190 | without characters outside the Basic Multilingual Plane, the length in code units is the number of characters |
| Text.AstralCountsTwo | src/pages/admin/AdminDashboard.tsx:190 | a character outside the Basic Multilingual Plane is two code units long |
| Text.Utf16Cut | src/pages/admin/AdminDashboard.tsx:190 | where `slice(0, n)` ends: the prefix fits in n code units and every longer prefix does not |
| AdminDashboard.Bars | src/pages/admin/AdminDashboard.tsx:189-193 | one bar per product, in order |
| AdminDashboard.LowestStock | src/pages/admin/AdminDashboard.tsx:185-188 | definition of the lowest-stock list; AdminDashboard.LowestStockProperties and AdminDashboard.NoLowerStockLeftOut state its promises |
| AdminDashboard.StockData | src/pages/admin/AdminDashboard.tsx:185-193 | definition of the bar list; AdminDashboard.StockDataProperties states its promises |
| AdminDashboard.LowestStockProperties | src/pages/admin/AdminDashboard.tsx:185-188 | at most 8 products, each an active product of the input, in ascending stock; 8 of them, or all the active ones when fewer |
| AdminDashboard.BarsFollow | src/pages/admin/AdminDashboard.tsx:189-193 | each bar carries its product's stock and the colour of its stock band, and ascending products give ascending bars |
| AdminDashboard.StockDataProperties | src/pages/admin/AdminDashboard.tsx:185-193 | at most 8 bars, all active products in ascending stock; red exactly up to 5, amber exactly from 6 to 15; 8 bars or all the active products when fewer |
| AdminDashboard.NoLowerStockLeftOut | src/pages/admin/AdminDashboard.tsx:185-188 | an active product with less stock than the last bar has a bar |
| AdminDashboard.Names | src/pages/admin/AdminDashboard.tsx:198 | each product's category name, or 'Sin categoría' |
| AdminDashboard.Dedup | src/pages/admin/AdminDashboard.tsx:201 | the distinct names, each once, exactly those that occur |
| AdminDashboard.TallyStep | src/pages/admin/AdminDashboard.tsx:197-200 | counting one more name keeps the keys, the tallies and the total correct |
| AdminDashboard.CategoryData | src/pages/admin/AdminDashboard.tsx:195-202 | each category name of any product appears once, with the number of products under it; the order is that in which the tally first meets each name (see "Left out") |
| AdminUsers.Filtered | src/pages/admin/AdminUsers.tsx:27-32 | a profile stays, in order, exactly when the lower-cased query is in its lower-cased name, province or municipality, or the raw query is in its phone |
| AdminUsers.EmptySearchKeepsAll | src/pages/admin/AdminUsers.tsx:27-32 | an empty query lists everyone |
| AdminUsers.RoleCountsSum | src/pages/admin/AdminUsers.tsx:34-36 | customers, admins and gestores add up to the number of users |
| AdminUsers.RoleLabel | src/pages/admin/AdminUsers.tsx:67-71 | definition of the badge text; AdminUsers.BadgeAndSwitchAgree relates it to the role switch and the route guards |
| AdminUsers.ShowsBadge | src/pages/admin/AdminUsers.tsx:145 | definition of the badge condition; AdminUsers.BadgeAndSwitchAgree relates it to the role switch and the route guards |
| AdminUsers.ShowsSwitch | src/pages/admin/AdminUsers.tsx:171-196 | definition of the switch condition; AdminUsers.BadgeAndSwitchAgree relates it to the role switch and the route guards |
| AdminUsers.BadgeAndSwitchAgree | src/pages/admin/AdminUsers.tsx:145-196 | the switch is shown exactly for the roles the toggle can change; the staff badge is shown exactly for users the administrator or gestor guard lets through; no two roles share a label |
| AdminUsers.NewRole | src/pages/admin/AdminUsers.tsx:39-41 | no new role exactly for an admin; otherwise a role that is neither admin nor the old one |
| AdminUsers.ToggleTwice | src/pages/admin/AdminUsers.tsx:41 | toggling a non-admin twice gives the original role back |
| AdminUsers.ReplaceById | src/pages/admin/AdminUsers.tsx:63 | every entry with the updated id becomes the updated profile; the others stay in place |
| AdminUsers.ReplaceKeepsIds | src/pages/admin/AdminUsers.tsx:63 | the replacement keeps every id in its position |
| AdminUsers.ReplaceShiftsCounts | src/pages/admin/AdminUsers.tsx:34-36 | with unique ids, a successful toggle moves exactly one user from the old role's counter to the new one's |
| AdminUsers.ReplaceAbsent | src/pages/admin/AdminUsers.tsx:63 | replacing an id absent from the list changes nothing |
| AdminUsers.UsersView.constructor | src/pages/admin/AdminUsers.tsx:8-12 | no users, nothing selected, not updating, loading |
| AdminUsers.UsersView.Fetch | src/pages/admin/AdminUsers.tsx:14-23 | the list is the rows, or empty for null, and loading ends |
| AdminUsers.UsersView.RoleToggle | src/pages/admin/AdminUsers.tsx:38-65 | an admin is left alone and nothing is written; otherwise the other role is written; an error changes neither the list nor the selection; on success both show the new role, with the matching toast |
| AdminCategories.FoldChar | src/pages/admin/AdminCategories.tsx:28-30 | slug characters and spaces are kept, upper-case ASCII letters are lowered, and the Spanish accented vowels and ñ lose their mark |
| AdminCategories.Fold | src/pages/admin/AdminCategories.tsx:28-30 | the case and accent folding, character by character |
| AdminCategories.KeepSlugChars | src/pages/admin/AdminCategories.tsx:31 | only a–z, 0–9, '-' and white space remain |
| AdminCategories.SkipSpaces | src/pages/admin/AdminCategories.tsx:33 | the rest after the leading run of white space, which starts with a non-space |
| AdminCategories.Collapse | src/pages/admin/AdminCategories.tsx:33 | the result has no white space; each character is a '-' or comes from the input |
| AdminCategories.ToSlug | src/pages/admin/AdminCategories.tsx:26-34 | the slug is never longer than the name; AdminCategories.ToSlugChars and AdminCategories.ToSlugIdempotent state its alphabet and its idempotence |
| AdminCategories.ToSlugChars | src/pages/admin/AdminCategories.tsx:26-34 | whatever the name, the slug contains only a–z, 0–9 and '-' |
| AdminCategories.CollapseRun | src/pages/admin/AdminCategories.tsx:33 | a run of white space before a non-space becomes exactly one '-' |
| AdminCategories.SkipRun | src/pages/admin/AdminCategories.tsx:33 | skipping a blank run lands exactly on what follows it |
| AdminCategories.CollapseKeeps | src/pages/admin/AdminCategories.tsx:33 | a non-space character is copied as it is |
| AdminCategories.CollapseNoSpaces | src/pages/admin/AdminCategories.tsx:33 | text without white space is left alone |
| AdminCategories.ToSlugIdempotent | src/pages/admin/AdminCategories.tsx:26-34 | the slug of a slug is itself |
| AdminCategories.SlugValid | src/pages/admin/AdminCategories.tsx:16-19 | definition of the slug rule; AdminCategories.GeneratedSlugPattern and AdminCategories.ShortNameShortSlug apply it to generated slugs |
| AdminCategories.FormValid | src/pages/admin/AdminCategories.tsx:15-19 | definition of the schema, with the name counted in UTF-16 code units; AdminCategories.PaddedNamePasses, AdminCategories.AstralNamePasses and AdminCategories.CategoryForm.Submit state what it lets through |
| AdminCategories.GeneratedSlugPattern | src/pages/admin/AdminCategories.tsx:16-19 | a generated slug passes the slug rule exactly when it has at least two characters |
| AdminCategories.ShortNameShortSlug | src/pages/admin/AdminCategories.tsx:15-19 | the one-letter name 'a' gives the slug 'a', which the rule refuses |
| AdminCategories.ValidSlugIsTrimmed | src/pages/admin/AdminCategories.tsx:96 | trimming a valid slug in the payload changes nothing |
| AdminCategories.PaddedNamePasses | src/pages/admin/AdminCategories.tsx:15-95 | the length rule sees the untrimmed name: ' a' passes and is saved as 'a' |
| AdminCategories.AstralNamePasses | src/pages/admin/AdminCategories.tsx:15 | a name of one character outside the Basic Multilingual Plane is two code units long and passes the length rule |
| AdminCategories.ToPayload | src/pages/admin/AdminCategories.tsx:94-98 | name and slug trimmed; the description dropped exactly when missing or blank, else trimmed |
| AdminCategories.SaveErrorText | src/pages/admin/AdminCategories.tsx:107-113 | definition of the message choice; AdminCategories.DuplicateAnywhere proves any message containing 'duplicate' or 'unique' is replaced by the fixed text |
| AdminCategories.DuplicateAnywhere | src/pages/admin/AdminCategories.tsx:107-113 | a server message with 'duplicate' or 'unique' anywhere in it is shown as the fixed duplicate message |
| AdminCategories.CategoryForm.constructor | src/pages/admin/AdminCategories.tsx:54-62 | closed, not editing, nothing to delete, not saving or deleting, empty form |
| AdminCategories.CategoryForm.OpenCreate | src/pages/admin/AdminCategories.tsx:67-71 | the form opens blank for a new category, and the blank values become what a later reset returns to |
| AdminCategories.CategoryForm.OpenEdit | src/pages/admin/AdminCategories.tsx:74-82 | the form opens with the category's own fields (a missing description as ''), and those values become what a later reset returns to |
| AdminCategories.CategoryForm.Cancel | src/pages/admin/AdminCategories.tsx:85-89 | the form closes, the edited category is forgotten, and the fields go back to the values last loaded |
| AdminCategories.CategoryForm.OnNameInput | src/pages/admin/AdminCategories.tsx:216-222 | the name is stored; the slug follows the name only when creating |
| AdminCategories.CategoryForm.Submit | src/pages/admin/AdminCategories.tsx:92-122 | an invalid form does nothing; otherwise the trimmed payload is written as an update or an insert; an error keeps the form open with its message; success closes it with the created or updated toast |
| AdminCategories.CategoryForm.AskDelete | src/pages/admin/AdminCategories.tsx:356 | the confirmation opens for that category |
| AdminCategories.CategoryForm.CancelDelete | src/pages/admin/AdminCategories.tsx:158 | cancelling the confirmation closes it and changes nothing else |
| AdminCategories.CategoryForm.ConfirmDelete | src/pages/admin/AdminCategories.tsx:125-140 | nothing without a target; otherwise that category is deleted, the in-use message or the success toast is shown, and the confirmation closes |
| AdminProducts.Parsed | src/pages/admin/AdminProducts.tsx:19 | definition of the default for a missing active flag; AdminProducts.ParsedIdempotent proves parsing twice changes nothing and never decides acceptance |
| AdminProducts.ParsedIdempotent | src/pages/admin/AdminProducts.tsx:19 | parsing a parsed form gives the same form, and parsing never changes whether the schema accepts it |
| AdminProducts.BlankFormIncomplete | src/pages/admin/AdminProducts.tsx:13-41 | the create form's start values fail the schema, with the product active by default |
| AdminProducts.EditForm | src/pages/admin/AdminProducts.tsx:46-55 | definition of the edit values; AdminProducts.UnchangedEditWritesBack proves saving them unchanged writes the product's own fields back |
| AdminProducts.EditNeedsCategory | src/pages/admin/AdminProducts.tsx:18-53 | a product without a category cannot be saved until one is chosen |
| AdminProducts.Extension | src/pages/admin/AdminProducts.tsx:88 | a dot-free suffix of the file name that is the whole name or follows a dot |
| AdminProducts.ExtensionWithoutDot | src/pages/admin/AdminProducts.tsx:88 | a name without a dot is its own extension |
| AdminProducts.ExtensionAfterLastDot | src/pages/admin/AdminProducts.tsx:88 | the extension is exactly what follows the last dot |
| AdminProducts.UploadName | src/pages/admin/AdminProducts.tsx:88 | definition of the stored file name; AdminProducts.UploadNameKeepsExtension states its shape |
| AdminProducts.UploadNameKeepsExtension | src/pages/admin/AdminProducts.tsx:88 | a file stem.ext is stored as the time, a dot and ext, whatever dots the stem holds |
| AdminProducts.KeptImageUrl | src/pages/admin/AdminProducts.tsx:84 | definition of the image kept without a new file; AdminProducts.UnchangedEditWritesBack proves an edit without a file keeps the product's image |
| AdminProducts.SavedUrl | src/pages/admin/AdminProducts.tsx:84-102 | definition of the saved image; AdminProducts.FailedUploadWritesNothing and AdminProducts.SaveWritesOnce state what an upload decides |
| AdminProducts.SaveWrite | src/pages/admin/AdminProducts.tsx:106-114 | definition of the write; AdminProducts.UnchangedEditWritesBack and AdminProducts.SaveToastNamesWrite relate it to the edited product and the toast |
| AdminProducts.SaveToast | src/pages/admin/AdminProducts.tsx:107-113 | definition of the toast; AdminProducts.SaveToastNamesWrite proves its title names the write that was made |
| AdminProducts.InvalidFormDoesNothing | src/pages/admin/AdminProducts.tsx:13-20 | a form the schema refuses uploads, writes and refetches nothing and stays open |
| AdminProducts.FailedUploadWritesNothing | src/pages/admin/AdminProducts.tsx:87-98 | a failed upload, tried under the time-and-extension name, writes nothing, does not refetch, and keeps the form open |
| AdminProducts.SaveWritesOnce | src/pages/admin/AdminProducts.tsx:82-119 | otherwise exactly one write with the parsed form and the new or kept image; the form closes even when the write fails; only a successful write refetches |
| AdminProducts.SubmitOutcome | src/pages/admin/AdminProducts.tsx:82-119 | an upload happens exactly for a valid form with a file; the form closes exactly when a write is made; a refetch follows only a successful write; a toast is shown exactly for a valid form |
| AdminProducts.UnchangedEditWritesBack | src/pages/admin/AdminProducts.tsx:46-114 | saving an edit unchanged and without a file updates the same product with its own name, price, stock, category, active flag and image; a missing description is saved as '' |
| AdminProducts.SaveToastNamesWrite | src/pages/admin/AdminProducts.tsx:106-113 | for a valid form whose upload did not fail, the toast speaks of an update exactly when the write is an update, and of a creation exactly when it is an insert |
| AdminProducts.ProductForm.constructor | src/pages/admin/AdminProducts.tsx:28-37 | closed, not editing, no file, not uploading, nothing to delete |
| AdminProducts.ProductForm.OpenCreate | src/pages/admin/AdminProducts.tsx:39-44 | the form opens blank with no file, and the blank values become what a later reset returns to |
| AdminProducts.ProductForm.OpenEdit | src/pages/admin/AdminProducts.tsx:46-58 | the form opens with the product's values and no file, and those values become what a later reset returns to |
| AdminProducts.ProductForm.ChooseFile | src/pages/admin/AdminProducts.tsx:214 | the chosen file becomes the first file picked, or none when the choice is cleared; nothing else changes |
| AdminProducts.ProductForm.Cancel | src/pages/admin/AdminProducts.tsx:231 | the Cancel button hides the form and keeps its values, its file and the edited product |
| AdminProducts.ProductForm.Submit | src/pages/admin/AdminProducts.tsx:82-119 | an invalid form changes nothing; a valid one ends with uploading false and the state following the submit outcome; on closing the form goes back to the values last loaded |
| AdminProducts.ProductForm.AskDelete | src/pages/admin/AdminProducts.tsx:32 | the confirmation opens for that product |
| AdminProducts.ProductForm.CancelDelete | src/pages/admin/AdminProducts.tsx:135 | cancelling the confirmation closes it and changes nothing else |
| AdminProducts.ProductForm.ConfirmDelete | src/pages/admin/AdminProducts.tsx:60-71 | nothing without a target; otherwise the product is deleted, the error or success toast is shown, and the confirmation closes |
| AdminProducts.ToggleToast | src/pages/admin/AdminProducts.tsx:73-80 | definition of the toast; AdminProducts.ToggleToastAnnouncesWrite ties its title to the value written |
| AdminProducts.WrittenActive | src/hooks/useAdmin.ts:58-61 | definition: the hook writes the negation of the flag it is given |
| AdminProducts.ToggleWrite | src/pages/admin/AdminProducts.tsx:73-76 | the toggle writes to the product's own row the opposite of its current active flag |
| AdminProducts.ToggleToastAnnouncesWrite | src/pages/admin/AdminProducts.tsx:73-80 | a successful toggle's toast announces the state that was written, and names the product |
| Register.Step2Errors | src/pages/RegisterPage.tsx:20-29 | each field is reported exactly when its own rule fails, lengths counted in UTF-16 code units; Register.Step2ValidIff states when the step is accepted |
| Register.Step2ValidIff | src/pages/RegisterPage.tsx:20-29 | step 2 is accepted exactly when province and municipality are chosen, the address has 10 code units, the password 6, and the confirmation matches |
| Register.SignUpFor | src/pages/RegisterPage.tsx:75-87 | definition of the request; Register.SignUpKeepsBothSteps proves both steps' data can be read back out of it |
| Register.SignUpKeepsBothSteps | src/pages/RegisterPage.tsx:75-87 | for an accepted step 2, the request carries every field of step 1 and of step 2, so nothing entered is lost |
| Register.PhoneMustBeDigits | src/pages/RegisterPage.tsx:17 | a phone containing a non-digit never passes step 1 |
| Register.RegisterView.constructor | src/pages/RegisterPage.tsx:43-47 | step 1, sliding forward, no saved data, not loading, no server error |
| Register.RegisterView.SubmitStep1 | src/pages/RegisterPage.tsx:57-61 | a valid step 1 is saved and the wizard moves forward to step 2; an invalid one changes nothing |
| Register.RegisterView.Back | src/pages/RegisterPage.tsx:64-67 | back to step 1, sliding backwards, with the saved data kept |
| Register.RegisterView.ChooseProvince | src/pages/RegisterPage.tsx:191-194 | the new province is set and the municipality cleared |
| Register.RegisterView.SubmitStep2 | src/pages/RegisterPage.tsx:70-97 | nothing happens without a valid step 2 and saved step 1; otherwise the combined sign-up is sent; an error shows its toast; success goes to /verify-email |
| ProfilePage.FormOf | src/pages/ProfilePage.tsx:59-69 | definition of the loaded form; ProfilePage.FormRoundTrip proves it and the row update are inverse |
| ProfilePage.Applied | src/pages/ProfilePage.tsx:72-82 | the update writes the form's fields and never changes the row's id or role |
| ProfilePage.FormRoundTrip | src/pages/ProfilePage.tsx:59-82 | saving the loaded form unchanged leaves the row as it was, and loading a saved row shows the form that was saved |
| ProfilePage.RoleLabel | src/pages/ProfilePage.tsx:116-120 | Cliente without a profile; otherwise the same label the admin users page gives the role |
| ProfilePage.ProfileView.constructor | src/pages/ProfilePage.tsx:38-69 | the form holds the loaded profile, or is blank without one; the password form is empty; nothing is saving |
| ProfilePage.ProfileView.ChooseProvince | src/pages/ProfilePage.tsx:231-234 | the address tab's province changes and the municipality is cleared, as the shared select rule says |
| ProfilePage.ProfileView.SaveProfile | src/pages/ProfilePage.tsx:72-82 | an invalid form does nothing; a valid one is written to the loaded profile's row, followed by the error or success toast |
| ProfilePage.ProfileView.SavePassword | src/pages/ProfilePage.tsx:85-108 | an invalid form does nothing; otherwise sign in again with the current password first; a failed sign-in stops before any update; the new password is sent only after it, and only a successful update clears the form |
| Cuba.Keys | src/utils/cuba.ts:20 | the table's keys, in order |
| Cuba.Lookup | src/utils/cuba.ts:22-24 | the first matching entry's municipalities, or [] for a key not in the table |
| Cuba.TableEntriesNonEmpty | src/utils/cuba.ts:1-18 | sixteen provinces, each with at least one municipality |
| Cuba.LookupNonEmptyIffListed | src/utils/cuba.ts:22-24 | when every entry is non-empty, a lookup is non-empty exactly for a listed key |
| Cuba.ListedIffHasMunicipalities | src/utils/cuba.ts:20-24 | a province is offered exactly when it has municipalities |
| Cuba.NoProvinceNoMunicipalities | src/utils/cuba.ts:22-24 | the empty placeholder has no municipalities |
| Cuba.IslaDeLaJuventud | src/utils/cuba.ts:17 | Isla de la Juventud is a province whose only municipality is Nueva Gerona |
| Cuba.PickResetsMunicipality | src/pages/RegisterPage.tsx:191-215 | choosing a province clears the municipality; a municipality picked from its options pairs with that province, which is then a listed one |
| Cuba.PickProvince | src/pages/RegisterPage.tsx:191-194 | definition of the province choice; Cuba.PickResetsMunicipality states its effect |
| Cuba.MunicipalityOptions | src/pages/RegisterPage.tsx:196-215 | definition of the options; Cuba.PickResetsMunicipality and Cuba.ListedIffHasMunicipalities state what they hold |
| Catalog.Filtered | src/pages/CatalogPage.tsx:12-15 | a product stays, in order, exactly when the lower-cased query is in its lower-cased name or description |
| Catalog.EmptySearchKeepsAll | src/pages/CatalogPage.tsx:12-15 | an empty search shows every fetched product |
| Catalog.ContainsExtended | src/pages/CatalogPage.tsx:13-14 | text containing q followed by more contains q |
| Catalog.LowerAppend | src/pages/CatalogPage.tsx:13-14 | lower-casing distributes over concatenation |
| Catalog.LongerSearchNarrows | src/pages/CatalogPage.tsx:12-15 | what a longer query shows, its prefix query shows too |
| Catalog.ChipValue | src/pages/CatalogPage.tsx:40-52 | definition of the value a chip sets; Catalog.ExactlyOneChipActive proves a click highlights that chip and no other |
| Catalog.Chips | src/pages/CatalogPage.tsx:38-58 | definition of the chip row; Catalog.ExactlyOneChipActive and Catalog.UnknownSelectionNoChip state which chip is highlighted |
| Catalog.ClickedChipActive | src/pages/CatalogPage.tsx:40-56 | a clicked chip is highlighted; "Todos" is highlighted on arrival; another chip shares the highlight only when its slug is 'todos' |
| Catalog.ExactlyOneChipActive | src/pages/CatalogPage.tsx:38-58 | with distinct slugs, none of them "todos", the value set by clicking any chip highlights exactly that chip |
| Catalog.UnknownSelectionNoChip | src/pages/CatalogPage.tsx:38-58 | a selection that no chip sets highlights no chip |
| StarRating.Round | src/components/ui/StarRating.tsx:23 | `Math.round` lands within half a unit of its argument, with halves rounding up |
| StarRating.LookOf | src/components/ui/StarRating.tsx:23-24 | definition of one star's look; StarRating.FilledIsPrefix and StarRating.AtMostOneHalf state the row's shape |
| StarRating.Stars | src/components/ui/StarRating.tsx:22-24 | definition of the row; StarRating.FilledIsPrefix, StarRating.AtMostOneHalf and StarRating.WholeValue state its shape |
| StarRating.FilledIsPrefix | src/components/ui/StarRating.tsx:23 | a full star has only full stars before it |
| StarRating.AtMostOneHalf | src/components/ui/StarRating.tsx:23-24 | at most one star is half filled, the one right after the filled ones |
| StarRating.WholeValue | src/components/ui/StarRating.tsx:22-24 | a whole value v from 0 to max fills exactly the first v stars and no half star |
| StarRating.AriaLabel | src/components/ui/StarRating.tsx:33 | "1 estrella" for the first star, the rating followed by "estrellas" for the others |
| StarRating.Clicked | src/components/ui/StarRating.tsx:30-31 | definition of a click's report; StarRating.ClickInRange proves every star reports a rating from 1 to max |
| StarRating.ClickInRange | src/components/ui/StarRating.tsx:22-31 | every star of the row reports a rating from 1 to max |
| ProductReviews.RatingCount | src/components/products/ProductReviews.tsx:58 | how many reviews gave that star, never more than there are |
| ProductReviews.RatingCountIsFilterLength | src/components/products/ProductReviews.tsx:58 | the count, taken review by review, is the length of the reviews filtered by that star |
| ProductReviews.RatingCountNil | src/components/products/ProductReviews.tsx:58 | no reviews count 0 for every star |
| ProductReviews.RatingCountCons | src/components/products/ProductReviews.tsx:58 | one more review adds one to its own star's count only |
| ProductReviews.BarFor | src/components/products/ProductReviews.tsx:56-60 | definition of one bar; ProductReviews.BarWidth and ProductReviews.PctBounds state its width |
| ProductReviews.BarWidth | src/components/products/ProductReviews.tsx:59 | with reviews, a bar's width times the total is its count times 100: the count's share in percent |
| ProductReviews.Distribution | src/components/products/ProductReviews.tsx:56-60 | definition of the five bars; ProductReviews.DistributionCoversReviews and ProductReviews.DistributionPctSum state that they cover every review and fill 100 percent |
| ProductReviews.CountSumFive | src/components/products/ProductReviews.tsx:56-60 | five bars' counts add up term by term |
| ProductReviews.DistributionCountSum | src/components/products/ProductReviews.tsx:56-60 | the bars' counts are the per-star counts added up |
| ProductReviews.StarTotalIsLength | src/components/products/ProductReviews.tsx:56-60 | with every rating from 1 to 5, each review falls in exactly one star |
| ProductReviews.DistributionCoversReviews | src/components/products/ProductReviews.tsx:56-60 | with every rating from 1 to 5, the bar counts add up to the number of reviews |
| ProductReviews.FractionAtMostOne | src/components/products/ProductReviews.tsx:59 | a count no larger than the total gives a share from 0 to 1 |
| ProductReviews.PctBounds | src/components/products/ProductReviews.tsx:59 | when the total is the number of reviews, every bar is 0 to 100 percent wide |
| ProductReviews.PctSumFive | src/components/products/ProductReviews.tsx:56-60 | five bars' widths add up term by term |
| ProductReviews.FractionsAddUp | src/components/products/ProductReviews.tsx:59 | shares of a total whose parts make up that total add up to 100 percent |
| ProductReviews.DistributionPctSum | src/components/products/ProductReviews.tsx:56-60 | with at least one review, all rated 1 to 5, and the total equal to the number of reviews, the bars fill exactly 100 percent |
| ProductReviews.DashIffEmptyBars | src/components/products/ProductReviews.tsx:56-73 | when the count is the number of reviews, all rated 1 to 5, the headline is a dash exactly when all five bars count 0 |
| ProductReviews.HeadlineOf | src/components/products/ProductReviews.tsx:73 | definition of the headline; ProductReviews.DashIffEmptyBars proves the dash shows exactly when every bar is empty |
| ProductReviews.PanelOf | src/components/products/ProductReviews.tsx:100-190 | exactly one of four panels: the sign-in prompt without a user, the form when open, the own rating when there is a review and the form is closed, the write button otherwise |
| ProductReviews.SubmitDisabled | src/components/products/ProductReviews.tsx:177 | definition of the disabled button; ProductReviews.ReviewForm.Submit proves a submission is sent exactly when the button would be enabled |
| ProductReviews.ReviewForm.constructor | src/components/products/ProductReviews.tsx:25-36 | the form starts from the visitor's own review (rating and comment), or 0 and '' without one, closed and not saving |
| ProductReviews.ReviewForm.OpenEdit | src/components/products/ProductReviews.tsx:114-118 | the own review's rating and comment are reloaded and the form opens |
| ProductReviews.ReviewForm.OpenWrite | src/components/products/ProductReviews.tsx:126 | the form opens and nothing else changes |
| ProductReviews.ReviewForm.Cancel | src/components/products/ProductReviews.tsx:170 | the form closes and nothing else changes |
| ProductReviews.ReviewForm.Rate | src/components/products/ProductReviews.tsx:148-153 | the clicked star becomes the chosen rating |
| ProductReviews.ReviewForm.Submit | src/components/products/ProductReviews.tsx:38-53 | with no star chosen, a warning and nothing sent; otherwise the rating and comment are sent; an error keeps the form open with its message; success closes it with the thank-you or updated toast |
| Routes.PrivateRoute | src/App.tsx:27-31 | definition of the guard; Routes.GuardsAgree, Routes.NoRolePassesBoth and Routes.ProtectedMatchesPrivate state how the guards relate |
| Routes.AdminRoute | src/App.tsx:33-37 | definition of the guard; Routes.GuardsAgree, Routes.NoRolePassesBoth and Routes.ProtectedMatchesPrivate state how the guards relate |
| Routes.GestorRoute | src/App.tsx:39-43 | definition of the guard; Routes.GuardsAgree, Routes.NoRolePassesBoth and Routes.ProtectedMatchesPrivate state how the guards relate |
| Routes.NoRolePassesBoth | src/App.tsx:33-43 | no session passes both the administrator and the gestor guard |
| Routes.ProtectedRoute | src/components/layout/ProtectedRoute.tsx:9-27 | definition of the guard; Routes.GuardsAgree, Routes.NoRolePassesBoth and Routes.ProtectedMatchesPrivate state how the guards relate |
| Routes.ProtectedMatchesPrivate | src/components/layout/ProtectedRoute.tsx:9-27 | without adminOnly the component lets through exactly the sessions the private guard does |
| Routes.GuardsAgree | src/components/layout/ProtectedRoute.tsx:9-27 | the layout guard with the admin flag renders exactly when the administrator guard does; the staff guards render only for signed-in users; the admin-only layout guard is stricter than the plain one |
| Routes.FirstMatch | src/App.tsx:48-85 | the first route whose pattern matches the path, or none exactly when no route matches |
| Routes.FirstMatchIsFirst | src/App.tsx:48-85 | the route found is the first of the table that matches: every route before it fails to match |
| Routes.FirstMatchAppend | src/App.tsx:48-85 | on two tables one after the other, a match in the first wins, and the second is searched only when the first has none |
| Routes.FirstMatchSkips | src/App.tsx:48-85 | when the first k routes miss, the search starts at route k |
| Routes.Resolve | src/App.tsx:48-85 | the 404 route exactly when no route of the table matches; otherwise a matching route of the table |
| Routes.ViewOf | src/App.tsx:48-85 | definition of what is shown; Routes.PrivatePagesNeedUser, Routes.AdminPagesNeedAdmin, Routes.ProductEditorNeedsStaff and Routes.CheckoutRoute state what each path shows to whom |
| Routes.GuardsWaitWhileLoading | src/App.tsx:27-43 | a guarded page shows only the loading text while the session loads |
| Routes.AdminAreaClosed | src/App.tsx:70-75 | once loaded, a non-administrator is sent home from anything behind the administrator guard |
| Routes.TableGuards | src/App.tsx:48-85 | each route carries the guard its page needs; the product editor sits behind the administrator guard under /admin and the gestor guard under /gestor; the only forward is /gestor to /gestor/products, behind the gestor guard |
| Routes.GuardOf | src/App.tsx:48-85 | definition of the guard each page demands; Routes.TableGuards proves the table follows it |
| Routes.ResolvedGuarded | src/App.tsx:48-85 | whatever the path, the route it resolves to is guarded as its page demands |
| Routes.PrivatePagesNeedUser | src/App.tsx:59-65 | checkout, the orders list, an order's page and the profile are shown only to a signed-in user, after loading |
| Routes.AdminPagesNeedAdmin | src/App.tsx:70-75 | the dashboard, the order board and the user list are shown only to an administrator, after loading |
| Routes.ProductEditorNeedsStaff | src/App.tsx:73-80 | the product editor is shown only to an administrator or a gestor; the gestor index forward only to a gestor, and it goes to /gestor/products |
| Routes.CheckoutRoute | src/App.tsx:59 | "/checkout" resolves to the checkout page behind the private guard |
| Routes.CheckoutInShop | src/App.tsx:48-59 | no sign-in route takes "/checkout", and the fourth shop route is the first one that does |
| Routes.DeepPathsNotFound | src/App.tsx:84 | a path with more than two segments lands on the 404 page |
| Routes.CaseInsensitive | src/App.tsx:48-85 | a path resolves to the same route as its lower-cased form |
| Routes.FirstMatchSame | src/App.tsx:48-85 | two paths that every route treats alike resolve alike |
| Domain.StatusValueInjective | src/types/index.ts:38 | distinct statuses are stored as distinct strings |
| Pagination.Range | src/components/ui/Pagination.tsx:15 | pages 1 to n in order, none for n below 1 |
| Pagination.Pages | src/components/ui/Pagination.tsx:14-24 | definition of the entries; Pagination.PagesWellFormed, Pagination.PagesShowNeighbours and Pagination.ManyPagesSeven state their shape |
| Pagination.FewPagesAllShown | src/components/ui/Pagination.tsx:15 | up to seven pages are all listed, in order, with no dots |
| Pagination.ManyPagesSeven | src/components/ui/Pagination.tsx:17-23 | past seven pages exactly seven entries, from page 1 to the last page |
| Pagination.PagesWellFormed | src/components/ui/Pagination.tsx:14-24 | for a current page in range the numbers increase, every '...' sits between two numbers and hides at least one page, and the current page is listed |
| Pagination.PagesShowNeighbours | src/components/ui/Pagination.tsx:14-24 | the first page, the last page and the current page's neighbours are always listed |
| Pagination.Requested | src/components/ui/Pagination.tsx:29-69 | definition of the page each control asks for; Pagination.ArrowsStayInRange, Pagination.ArrowsRoundTrip and Pagination.ShownNumbersInRange state its promises |
| Pagination.ArrowsStayInRange | src/components/ui/Pagination.tsx:29-69 | from a page in range the arrows only ask for pages in range |
| Pagination.ArrowsRoundTrip | src/components/ui/Pagination.tsx:29-69 | next after previous, and previous after next, come back to the same page |
| Pagination.ShownNumbersInRange | src/components/ui/Pagination.tsx:29-69 | every number shown asks for itself, a page between 1 and the last |

## Left out

- Backend calls (database, storage, auth, realtime channels) are not executed. Their results are parameters, and writes are returned as values. Concurrent and interleaved callbacks are not modelled; each handler runs to completion on the state it started from.
- `src/hooks/useAuth.tsx`, `src/hooks/useAuth.ts`, `src/hooks/useProducts.ts` and `src/hooks/useReviews.ts` are not part of this model. They are session plumbing and thin create/read/update/delete wrappers. The session, the profile, the review list with its count and average, and each wrapper's error are inputs.
- `src/hooks/useAdmin.ts` is modelled only for the value `toggleActive` writes. Its other calls are thin create/read/update/delete wrappers, modelled as the writes the pages return.
- The review average (a floating-point mean), `toFixed` formatting, the order progress fraction and the "reseña(s)" plural label are not modelled. The distribution bars use exact `real` arithmetic instead of binary floating point, and so does StarRating: its `value` is a `real`, and `Math.round` and the 0.25 half-star test work on exact reals, so a value whose floating-point form rounds differently is not modelled.
- Dates and the clock: `toLocaleDateString` formatting, the dashboard's last-seven-days chart (`getLast7Days`/`groupByDay`) and `Date.now()`. The upload name takes the current time as a parameter.
- Timers and animation: framer-motion, the dashboard's animated counters, and the home and 404 pages' effects.
- Browser APIs: the theme store, local storage, the network status hook, the confirm dialog's focus and keyboard handling, and share/clipboard.
- The form library's e-mail check is a boolean parameter. Its numeric coercion of price and stock is not modelled; the form holds integers, with the price in cents.
- Presentation-only files, and `src/utils/cuba-locations.ts`, which no modelled file imports. CartSidebar, ProductCard and WishlistPage repeat the cart and stock rules of the cart and product pages and are not modelled separately.
- Lower-casing is ASCII only. `toSlug`'s Unicode decomposition is modelled for the Spanish accented vowels, ü and ñ; any other non-ASCII letter is dropped rather than stripped of its mark. White space is the ASCII set, without JavaScript's other Unicode spaces.
- Lookups into plain JavaScript objects (`STATUS_MESSAGES[status]`, `CUBA_PROVINCES[province]`, `STATUS_CONFIG[status]`) are modelled as lookups of the listed keys. Inherited keys such as "constructor" are not modelled.
- AdminDashboard.ShortName: where `slice(0, 18)` ends in the middle of a surrogate pair, JavaScript keeps the pair's first half as the 18th code unit of the label. A Dafny string holds only whole characters, so the model drops that half, and such a label has 17 code units before the ellipsis, not 18. What AdminDashboard.ShortNameShape states holds for both.
- AdminDashboard.CategoryData: the tally is a map, not a JavaScript object. `Object.entries` lists integer-like keys (a category named "2024", say) first in ascending order, and `map[cat]` on a plain object also sees inherited keys such as "constructor". Neither is modelled: the listed order is the order in which names first appear, and every name starts from 0.
- Routing takes the first route of the table, in declaration order, that matches the path's non-empty segments. The router's own ranking, trailing slashes and query strings are not modelled. Of the concrete URLs, only "/checkout" is resolved by a lemma.
- OrderStatusTimeline.SortByTime: the sort on `changed_at` is proved to give an ascending permutation of the history. That it keeps equal timestamps in their original order is not proved.
- AdminDashboard.SortByStock: the ascending order and the permutation are proved; stability for equal stock is not.
- The profile and registration forms' field-level messages are not modelled. Only which fields fail, and whether the form is accepted, are.
- AdminCategories.CategoryForm.Submit: `saving` is true only while the write is awaited. The model has no await, so only the value it is reset to afterwards is stated.
