# Furniture storefront core in Dafny

This project models the client-side logic of a furniture workshop's web
storefront. Customers browse a catalogue, configure custom pieces, keep a
cart, pay a 50% deposit at checkout, and follow the order through production.
The logic is written as TypeScript inside React pages and one hook. Here it
is stated and proved in Dafny:

- `types.dfy` (`Types`) holds the domain values: order statuses, furniture
  categories and types, wood, finish, extra, product, the tagged cart line
  (`Standard` | `Custom`, each with an optional payload), the custom
  configuration and the order. It also holds the two label tables.
- `cart.dfy` (`Cart`) models the cart. The aggregates are item count,
  subtotal, an unrounded 50% deposit and the remaining balance. There are
  five operations:
  - add a product, merging into the first standard line for the same product;
  - add a custom piece, never merging;
  - set a quantity (below one it removes);
  - remove;
  - clear.
  Each operation is a function from the old list to the new one, and the
  `CartStore` class holds the list. Its methods are proved to produce exactly
  that new list.
- `customize.dfy` (`Customize`) models the configurator:
  - the per-type dimension table;
  - the price formula and its closed form;
  - the rounded deposit;
  - the wizard's "can advance" rule;
  - the toggle-set of extras;
  - the wizard state as a class, whose methods are the page's setters, its
    default-dimension effect, its navigation and its add-to-cart handler.
- `checkout.dfy` (`Checkout`) models checkout:
  - the shipping and payment form rules;
  - the records the payment handler writes (order row, item rows, service
    order with its technical specification, notification), in the order they
    are written;
  - when the cart is cleared.
  The database is not called. The handler returns the records it writes, and
  the result of the order insert, the only insert whose result is inspected,
  is a parameter.
- `order_detail.dfy` (`OrderTracking`) models order tracking: the six-step
  status progression, the done / current / pending classification of each
  timeline step, and the paid marks.
- `products.dfy` (`Catalog`) models the catalogue filter (case-insensitive
  search, category, four price buckets) and the add button.

Prices and dimensions are exact `real` numbers. `Math.round` is written out as
round-half-up (`RoundHalfUp`). Quantities and stock are unbounded integers.
Identifiers, order numbers and the current time come from the caller as
parameters.

A 200×90×75 cm dining table has a volume of 1.35 m³ and a surface of
7.95 m². With a wood at €800/m³ and a finish at €40/m² its price is €6162
(`Customize.DiningTableFixture`).

Form lengths are counted as JavaScript counts them, in UTF-16 code units
(`Checkout.Utf16Length`). A character outside the Basic Multilingual Plane
counts twice, so a name made of one emoji meets the two-character minimum
(`Checkout.AstralNameAccepted`).

A custom cart line without its configuration has no order-item row, as the
code skips it. It also makes the service-order specification fail, because the
code dereferences the missing configuration. That failure happens after the
order row and the item rows are written, so the model then writes no service
order and no notification, and leaves the cart as it was
(`Checkout.Submit`, `Checkout.ClearsCartOnlyOnSuccess`).

## Model

| member | source | states |
|---|---|---|
| Types.AllOrderStatuses | src/lib/types.ts:5-12 | there are seven order statuses, pairwise distinct |
| Types.AllOrderStatusesComplete | src/lib/types.ts:5-12 | every order status is one of those seven |
| Types.AllFurnitureTypes | src/lib/types.ts:22-28 | there are six furniture types, pairwise distinct |
| Types.AllFurnitureTypesComplete | src/lib/types.ts:22-28 | every furniture type is one of those six |
| Types.OrderStatusLabel | src/lib/types.ts:214-222 | the Spanish status labels; stated by `OrderStatusLabelsDistinct` |
| Types.OrderStatusLabelsDistinct | src/lib/types.ts:214-222 | every status has a non-empty label, and different statuses have different labels |
| Types.FurnitureTypeLabel | src/lib/types.ts:234-241 | the Spanish furniture-type labels; stated by `FurnitureTypeLabelsDistinct` |
| Types.FurnitureTypeLabelsDistinct | src/lib/types.ts:234-241 | every furniture type has a non-empty label, and different types have different labels |
| Cart.ItemCount | src/hooks/useCart.tsx:38 | the sum of the line quantities; stated by `ItemCountAppend`, `ItemCountUpdate` and `ItemCountAtLeastLines` |
| Cart.Subtotal | src/hooks/useCart.tsx:39 | the sum of the line totals; stated by `SubtotalAppend`, `SubtotalUpdate` and `SubtotalNonNegative` |
| Cart.DepositAmount | src/hooks/useCart.tsx:40 | the cart deposit is exactly half the subtotal, with no rounding |
| Cart.RemainingBalance | src/hooks/useCart.tsx:41 | the balance equals the deposit, and deposit plus balance is the subtotal |
| Cart.ItemCountAtLeastLines | src/hooks/useCart.tsx:38 | with every quantity at least one, the item count is at least the number of lines |
| Cart.SubtotalNonNegative | src/hooks/useCart.tsx:39-41 | with no negative line total, subtotal, deposit and balance are not negative |
| Cart.ItemCountAppend | src/hooks/useCart.tsx:38 | the item count of two lists joined is the sum of their counts |
| Cart.SubtotalAppend | src/hooks/useCart.tsx:39 | the subtotal of two lists joined is the sum of their subtotals |
| Cart.ItemCountUpdate | src/hooks/useCart.tsx:38 | replacing one line changes the item count by the difference of the two quantities |
| Cart.SubtotalUpdate | src/hooks/useCart.tsx:39 | replacing one line changes the subtotal by the difference of the two totals |
| Cart.FirstStandardIndex | src/hooks/useCart.tsx:45-47 | the result is -1 exactly when no standard line carries the product; otherwise it is the first such line |
| Cart.FindStandardIndex | src/hooks/useCart.tsx:45-47 | the left-to-right scan returns that first standard line for the product, or -1 |
| Cart.WithStandardAdded | src/hooks/useCart.tsx:43-70 | the list after adding a product; stated by `AddStandardMergesIntoFirst`, `AddStandardAppendsNewLine` and `AddStandardTotals` |
| Cart.AddStandardMergesIntoFirst | src/hooks/useCart.tsx:49-58 | with a standard line for the product, the first one gains the quantity; its id, product, unit price and position are kept and its total is repriced; all other lines and the length are unchanged |
| Cart.AddStandardAppendsNewLine | src/hooks/useCart.tsx:61-70 | with no standard line for the product, exactly one line is appended with the quantity, unit price = base price and total = base price × quantity |
| Cart.AddStandardTotals | src/hooks/useCart.tsx:43-70 | on a cart whose every line total is its unit price × quantity, adding raises the item count by the quantity, and the subtotal by quantity × the unit price of the line it lands on (the base price for a new line) |
| Cart.AddStandardTotalsAt | src/hooks/useCart.tsx:43-70 | the same totals, assuming only that the line the addition merges into is priced |
| Cart.AppendTotals | src/hooks/useCart.tsx:70 | appending a line adds its quantity to the item count and its total to the subtotal |
| Cart.MergeTotals | src/hooks/useCart.tsx:50-57 | merging into line k raises the count by the quantity and the subtotal by quantity × that line's unit price |
| Cart.MergedTotal | src/hooks/useCart.tsx:54-56 | the merged line's total is the old total plus unit price × added quantity |
| Cart.RepeatedAddsMerge | src/hooks/useCart.tsx:43-70 | adding a new product twice gives one line with the summed quantity, priced on that sum |
| Cart.AddCustomAppendsOneLine | src/hooks/useCart.tsx:76-86 | a custom piece is always appended as one line with quantity 1 and unit price = total = price; count +1, subtotal + price |
| Cart.WithoutItem | src/hooks/useCart.tsx:114-115 | removal keeps exactly the lines whose id differs, and the list never grows |
| Cart.WithoutItemDistributes | src/hooks/useCart.tsx:115 | removal works line by line, so the kept lines stay in their relative order |
| Cart.WithoutUnknownItem | src/hooks/useCart.tsx:115 | removing an id that no line carries leaves the list identical |
| Cart.QuantityBelowOneRemoves | src/hooks/useCart.tsx:90-94 | setting a quantity below one is exactly removal, for custom lines too |
| Cart.WithQuantitySet | src/hooks/useCart.tsx:90-112 | the list after setting a quantity; stated by `QuantityBelowOneRemoves`, `QuantitySetUpdatesStandardLines` and `QuantitySetUnknownId` |
| Cart.QuantitySetUpdatesStandardLines | src/hooks/useCart.tsx:96-111 | at quantity ≥ 1, a standard line with the id takes the quantity and is repriced; custom lines and other ids are unchanged; length and order are kept |
| Cart.QuantitySetUnknownId | src/hooks/useCart.tsx:96-111 | setting the quantity of an unknown id leaves the list identical |
| Cart.StandardAddKeepsLinesPriced | src/hooks/useCart.tsx:43-70 | adding a product keeps total = unit price × quantity on every line |
| Cart.RemovalKeepsLinesPriced | src/hooks/useCart.tsx:114-115 | removal keeps total = unit price × quantity on every line |
| Cart.QuantitySetKeepsLinesPriced | src/hooks/useCart.tsx:90-111 | setting a quantity keeps total = unit price × quantity on every line |
| Cart.OperationsKeepLinesPriced | src/hooks/useCart.tsx:43-122 | every operation, clear included, keeps total = unit price × quantity on every line |
| Cart.MixedCartTotals | src/hooks/useCart.tsx:38-41 | two pieces at 100 plus a custom piece at 250 give count 3, subtotal 450, deposit 225 and balance 225 |
| Cart.CartStore.constructor | src/hooks/useCart.tsx:29-32 | the cart starts from the stored list as given |
| Cart.CartStore.AddStandardItem | src/hooks/useCart.tsx:43-71 | the new list is `WithStandardAdded` of the old one |
| Cart.CartStore.AddCustomItem | src/hooks/useCart.tsx:76-88 | the new list is the old one with the custom line appended |
| Cart.CartStore.UpdateQuantity | src/hooks/useCart.tsx:90-112 | the new list is `WithQuantitySet` of the old one: a removal below one, otherwise the line-by-line map |
| Cart.CartStore.RemoveItem | src/hooks/useCart.tsx:114-117 | the new list is `WithoutItem` of the old one, the filter that keeps every other line in order |
| Cart.CartStore.ClearCart | src/hooks/useCart.tsx:119-122 | the cart is empty |
| Customize.MinDimensions | src/pages/CustomizePage.tsx:33-40 | every type's default (minimum) dimensions are positive |
| Customize.MaxDimensions | src/pages/CustomizePage.tsx:33-40 | every type's shown range is positive and non-empty in all three dimensions |
| Customize.ComplexityMultiplier | src/pages/CustomizePage.tsx:115-122 | the complexity factor of every type lies between 1.0 and 1.6 |
| Customize.RoundHalfUp | src/pages/CustomizePage.tsx:130 | the result is the integer within half a unit below or above its argument, with halves going up |
| Customize.RoundHalfUpMonotone | src/pages/CustomizePage.tsx:130 | rounding preserves order |
| Customize.CalculatePrice | src/pages/CustomizePage.tsx:104-105 | the price is 0 while the type, the wood or the finish is unset |
| Customize.Regroup | src/pages/CustomizePage.tsx:107-128 | the cost sum scaled by complexity, margin and overhead equals 1.495 × complexity × (volume × (wood + 1000) + surface × finish + extras) |
| Customize.UnroundedPriceRegrouped | src/pages/CustomizePage.tsx:111-128 | for any volume and surface, the unrounded price (material + labour at 40 h/m³ × €25/h + finish + extras, times complexity, margin 30 % and overhead 15 %) equals the closed form |
| Customize.PriceClosedForm | src/pages/CustomizePage.tsx:104-131 | a complete configuration's price is the rounded closed form: each m³ costs its wood plus €1000 labour, each m² its finish, extras are flat, all scaled by 1.495 × complexity |
| Customize.ClosedFormMonotone | src/pages/CustomizePage.tsx:107-128 | with non-negative costs, the closed form grows with volume and surface |
| Customize.DiningTableFixture | src/pages/CustomizePage.tsx:104-131 | a 200×90×75 dining table at wood 800 and finish 40 has 1.35 m³, 7.95 m² and price 6162 |
| Customize.PriceIgnoresMultiplierAndExtrasOrder | src/pages/CustomizePage.tsx:107-130 | the wood's displayed price multiplier and the order of the extras do not change the price |
| Customize.ExtrasCostAppend | src/pages/CustomizePage.tsx:124 | the extras cost of two selections joined is the sum of their costs |
| Customize.ExtrasCostRemove | src/pages/CustomizePage.tsx:124 | the extras cost is one extra's price plus the cost of the others |
| Customize.ExtrasCostPermutation | src/pages/CustomizePage.tsx:124 | two selections with the same extras in any order cost the same |
| Customize.VolumeAndSurfaceMonotone | src/pages/CustomizePage.tsx:107-108 | volume and surface do not decrease when no dimension decreases |
| Customize.PriceMonotoneInDimensions | src/pages/CustomizePage.tsx:104-131 | with non-negative costs, enlarging any dimensions never lowers the price |
| Customize.PriceMonotoneInExtras | src/pages/CustomizePage.tsx:124-130 | adding an extra with a non-negative price never lowers the price |
| Customize.Deposit | src/pages/CustomizePage.tsx:134 | the configurator deposit is half the price rounded half up: twice it is the price or the price + 1 |
| Customize.BalanceShownAddsUpOnlyForEvenPrices | src/pages/CustomizePage.tsx:546-551 | the deposit and the balance as shown add up to the price exactly when the price is even |
| Customize.BalanceShownOverstatesOddPrice | src/pages/CustomizePage.tsx:546-551 | at price 101 the page shows deposit 51 and balance 51, which do not add up to 101 |
| Customize.BalanceOnDelivery | src/pages/CustomizePage.tsx:134 | the corrected balance plus the deposit is the price, and the balance is half the price rounded down |
| Customize.CanProceed | src/pages/CustomizePage.tsx:136-151 | the wizard's "can advance" switch on the current step; its behaviour is stated by `CanProceedRules` |
| Customize.CanProceedRules | src/pages/CustomizePage.tsx:136-151 | step 1 passes iff a type is chosen, step 3 iff a wood is, step 4 iff a finish is, so a non-zero price implies steps 1, 3 and 4 can be passed; step 2 passes iff all dimensions are positive, with no check against the type's range; step 5 always passes; steps outside 1..5 never do |
| Customize.WithoutExtraId | src/pages/CustomizePage.tsx:183 | the filtered selection keeps exactly the extras with a different id |
| Customize.WithoutExtraIdKeepsUnique | src/pages/CustomizePage.tsx:183 | filtering keeps the ids pairwise distinct |
| Customize.WithoutAbsentExtraId | src/pages/CustomizePage.tsx:183 | filtering out an id that is not selected leaves the selection identical |
| Customize.WithoutExtraIdDistributes | src/pages/CustomizePage.tsx:183 | filtering works extra by extra, keeping their order |
| Customize.Toggled | src/pages/CustomizePage.tsx:180-186 | the selection after clicking an extra: removed by id when selected, appended otherwise; its behaviour is stated by the toggle lemmas below |
| Customize.ToggleKeepsIdsUnique | src/pages/CustomizePage.tsx:180-186 | toggling keeps the selected ids pairwise distinct |
| Customize.ToggleFlipsSelection | src/pages/CustomizePage.tsx:180-186 | after a toggle the extra's id is selected exactly when it was not before |
| Customize.ToggleTwiceRestoresAbsent | src/pages/CustomizePage.tsx:180-186 | toggling an unselected extra twice restores the selection exactly |
| Customize.ToggleTwiceRestoresPresentIds | src/pages/CustomizePage.tsx:180-186 | toggling a selected extra twice restores the set of selected ids, with that extra moved to the end |
| Customize.DefaultDimensionsPassStepTwo | src/pages/CustomizePage.tsx:88-99 | a type's default dimensions pass step 2 (that they lie within the type's range is `MaxDimensions`'s contract) |
| Customize.Configurator.constructor | src/pages/CustomizePage.tsx:51-57 | the wizard starts blank on step 1 |
| Customize.Configurator.SelectType | src/pages/CustomizePage.tsx:88-99 | choosing a type sets it; the dimensions become that type's minimums only when the type changed |
| Customize.Configurator.SetLength | src/pages/CustomizePage.tsx:291 | the length takes the typed value, unclamped; width and height are kept |
| Customize.Configurator.SetWidth | src/pages/CustomizePage.tsx:306 | the width takes the typed value, unclamped; length and height are kept |
| Customize.Configurator.SetHeight | src/pages/CustomizePage.tsx:321 | the height takes the typed value, unclamped; length and width are kept |
| Customize.Configurator.SelectWood | src/pages/CustomizePage.tsx:347 | the wood is set and nothing else changes |
| Customize.Configurator.SelectFinish | src/pages/CustomizePage.tsx:382 | the finish is set and nothing else changes |
| Customize.Configurator.SetNotes | src/pages/CustomizePage.tsx:448 | the notes are set and nothing else changes |
| Customize.Configurator.ToggleExtra | src/pages/CustomizePage.tsx:180-186 | the selection becomes its toggle, and the ids stay distinct |
| Customize.Configurator.Next | src/pages/CustomizePage.tsx:467-471 | the step advances by one exactly when it is below 5 and can be passed |
| Customize.Configurator.Back | src/pages/CustomizePage.tsx:459-463 | the step goes back by one except on step 1 |
| Customize.Configurator.GoToStep | src/pages/CustomizePage.tsx:211 | only an earlier step can be jumped to |
| Customize.Configurator.HandleAddToCart | src/pages/CustomizePage.tsx:153-178 | with type, wood and finish chosen, the configuration (notes included) is appended to the cart at the current price and the wizard resets to blank; otherwise nothing changes |
| Customize.Configurator.ClickAddToCart | src/pages/CustomizePage.tsx:467-479 | on step 5 with a non-zero price, the selection is complete and the piece is added; otherwise nothing changes |
| Checkout.Utf16Length | src/pages/CheckoutPage.tsx:33-47 | a string's JavaScript length is between its number of characters and twice that, and positive for non-empty text |
| Checkout.Utf16LengthOfPlainText | src/pages/CheckoutPage.tsx:33-47 | text of Basic Multilingual Plane characters has one code unit per character |
| Checkout.ShippingErrors | src/pages/CheckoutPage.tsx:33-39 | at most five field errors are reported |
| Checkout.ShippingAccepted | src/pages/CheckoutPage.tsx:33-39 | shipping is accepted iff name ≥ 2, phone ≥ 9, address ≥ 5, city ≥ 2 and postal code ≥ 4 UTF-16 code units; each of the five fields is reported iff its own rule fails |
| Checkout.AstralNameAccepted | src/pages/CheckoutPage.tsx:34 | a one-character emoji name is two code units long and is not reported |
| Checkout.PaymentErrors | src/pages/CheckoutPage.tsx:41-47 | at most five field errors are reported |
| Checkout.PaymentAccepted | src/pages/CheckoutPage.tsx:41-47 | payment is accepted iff card number = 16, month = 2, year = 2, CVV 3–4 and name ≥ 2 UTF-16 code units; each of the five fields is reported iff its own rule fails |
| Checkout.NewOrderRow | src/pages/CheckoutPage.tsx:110-128 | the order row copies the cart subtotal, so subtotal = deposit + balance with deposit = balance; status deposit-paid, deposit paid now, delivery on the UTC day 28 days later |
| Checkout.DeliveryFourWeeksLater | src/pages/CheckoutPage.tsx:127 | adding 28 days of milliseconds moves the UTC day by exactly 28, at any time of day |
| Checkout.StoredNotes | src/pages/CheckoutPage.tsx:159 | missing or empty notes are stored as null, other notes unchanged |
| Checkout.ExtraIdList | src/pages/CheckoutPage.tsx:158 | the stored extras are the selected extras' ids, in order |
| Checkout.ItemRow | src/pages/CheckoutPage.tsx:135-161 | a row is written iff the line has its product or configuration; it copies the prices; a standard row copies product id and quantity; a custom row has quantity 1, copies type, wood id, finish id and the three dimensions, lists the extras' ids in order and stores empty notes as null |
| Checkout.ItemRows | src/pages/CheckoutPage.tsx:135-162 | the item rows in cart order; stated by `ItemRowsAppend`, `ItemRowsAtMostOnePerLine` and `ItemRowsOnePerLine` |
| Checkout.ItemRowsAppend | src/pages/CheckoutPage.tsx:135-162 | rows are produced line by line in cart order |
| Checkout.ItemRowsAtMostOnePerLine | src/pages/CheckoutPage.tsx:135-162 | at most one row per cart line; lines without payload write none |
| Checkout.ItemRowsOnePerLine | src/pages/CheckoutPage.tsx:135-162 | when every line has its payload, row i is exactly the row of line i |
| Checkout.Specs | src/pages/CheckoutPage.tsx:165-170 | the specification exists iff every custom line has its configuration; then it has one entry per line, in order, with its kind, quantity and unit price, named by the product's name for a standard line (none without a product) and by the furniture type's label for a custom one |
| Checkout.Submit | src/pages/CheckoutPage.tsx:103-203 | the records a payment writes and whether it clears the cart; stated by `ClearsCartOnlyOnSuccess` and `ServiceOrderMatchesOrder` |
| Checkout.ClearsCartOnlyOnSuccess | src/pages/CheckoutPage.tsx:103-203 | the cart is cleared iff the order insert succeeded and every custom line is configured; the order row is always written first, a failed order insert writes nothing else, and the item rows follow in cart order |
| Checkout.ServiceOrderMatchesOrder | src/pages/CheckoutPage.tsx:172-193 | on success, the service order repeats the order row's three totals (total = deposit + balance), has 21 production days, carries the stored order number as QR data and one spec entry per line; the notification comes last |
| Checkout.CheckoutSession.constructor | src/pages/CheckoutPage.tsx:62-64 | checkout starts on the review step, idle, with no shipping data |
| Checkout.CheckoutSession.ContinueToShipping | src/pages/CheckoutPage.tsx:290 | review moves to the shipping step |
| Checkout.CheckoutSession.BackToReview | src/pages/CheckoutPage.tsx:381 | shipping goes back to review |
| Checkout.CheckoutSession.BackToShipping | src/pages/CheckoutPage.tsx:486 | payment goes back to shipping, keeping the shipping data |
| Checkout.CheckoutSession.SubmitShipping | src/pages/CheckoutPage.tsx:98-101 | accepted shipping values are saved and the payment step opens; rejected ones change nothing |
| Checkout.CheckoutSession.SubmitPayment | src/pages/CheckoutPage.tsx:103-203 | rejected card details or missing shipping data change nothing; otherwise the written records are those of `Submit`, the cart is emptied exactly when `Submit` clears it, and processing ends |
| OrderTracking.StatusSteps | src/pages/OrderDetailPage.tsx:30-37 | the progression has six distinct statuses and excludes cancellation |
| OrderTracking.LiveStatusIsAStep | src/pages/OrderDetailPage.tsx:30-37 | every status except cancellation is in the progression |
| OrderTracking.IndexOf | src/pages/OrderDetailPage.tsx:121 | the result is -1 iff the status is absent; otherwise it is the position of its first occurrence |
| OrderTracking.CurrentStepIndex | src/pages/OrderDetailPage.tsx:121 | the current index is -1 exactly for a cancelled order, and otherwise the status's position in the progression |
| OrderTracking.StepIndexInjective | src/pages/OrderDetailPage.tsx:121 | distinct live statuses have distinct positions |
| OrderTracking.Timeline | src/pages/OrderDetailPage.tsx:154-188 | a cancelled order has no timeline; any other order has six steps |
| OrderTracking.ViewOf | src/pages/OrderDetailPage.tsx:158-186 | one step's view: its status is the step's; done iff before the current step, current iff at it, pending iff after it; highlighted iff not pending; only the last step lacks a connector, which is highlighted iff the step is done |
| OrderTracking.TimelineClassifiesSteps | src/pages/OrderDetailPage.tsx:158-186 | exactly one step is current (the order's status); earlier steps are done and later ones pending with their 1-based number; a circle is highlighted iff its step is not pending; connector i is highlighted iff step i is done; the last step has no connector |
| OrderTracking.ProgressKeepsDoneSteps | src/pages/OrderDetailPage.tsx:163-174 | a step done at one status is done at every later status |
| OrderTracking.TimelineEnds | src/pages/OrderDetailPage.tsx:158-186 | a delivered order shows five done steps and the last current; a new quote shows step 1 current and the rest pending |
| OrderTracking.DepositMark | src/pages/OrderDetailPage.tsx:300-304 | the deposit shows a check iff paid and "(Pendiente)" iff unpaid |
| OrderTracking.BalanceMark | src/pages/OrderDetailPage.tsx:309-312 | the balance shows a check iff paid and nothing otherwise |
| Catalog.LowerChar | src/pages/ProductsPage.tsx:58-59 | A–Z map to a–z, other characters are unchanged, and no upper-case letter remains |
| Catalog.ToLower | src/pages/ProductsPage.tsx:58-59 | lower-casing keeps the length and maps every character |
| Catalog.ToLowerIdempotent | src/pages/ProductsPage.tsx:58-59 | lower-casing twice equals lower-casing once |
| Catalog.IncludedPartOccurs | src/pages/ProductsPage.tsx:58-59 | when `includes` holds, a position where the query occurs is produced |
| Catalog.OccurringPartIncluded | src/pages/ProductsPage.tsx:58-59 | a query occurring at any position is found by `includes` |
| Catalog.IncludesAtSomePosition | src/pages/ProductsPage.tsx:58-59 | `includes` holds iff the query occurs at some position of the text |
| Catalog.SearchIgnoresQueryCase | src/pages/ProductsPage.tsx:56-59 | the search result does not depend on the case of the query |
| Catalog.NameOccurrenceMatches | src/pages/ProductsPage.tsx:56-59 | a product whose lower-cased name contains the lower-cased query matches |
| Catalog.CategoryKey | src/pages/ProductsPage.tsx:22-29 | no category key is "all" |
| Catalog.CategorySelectsOne | src/pages/ProductsPage.tsx:61-62 | selecting a category's key keeps exactly the products of that category |
| Catalog.BucketOf | src/pages/ProductsPage.tsx:64-73 | every price falls in one of the four buckets |
| Catalog.PriceBucketsPartition | src/pages/ProductsPage.tsx:64-73 | a product matches a bucket iff it is the bucket of its price; "all" matches every product and any other selection none |
| Catalog.MatchesSearch | src/pages/ProductsPage.tsx:56-59 | the search predicate; stated by `SearchIgnoresQueryCase`, `NameOccurrenceMatches` and `IncludesAtSomePosition` |
| Catalog.MatchesCategory | src/pages/ProductsPage.tsx:61-62 | the category predicate; stated by `CategorySelectsOne` |
| Catalog.MatchesPrice | src/pages/ProductsPage.tsx:64-73 | the price-range predicate; stated by `PriceBucketsPartition` |
| Catalog.FilterProducts | src/pages/ProductsPage.tsx:55-76 | the shown products are exactly the loaded ones passing search, category and price, and never more than were loaded |
| Catalog.FilterKeepsOrder | src/pages/ProductsPage.tsx:55-76 | filtering keeps the loaded order |
| Catalog.DefaultFiltersShowAll | src/pages/ProductsPage.tsx:55-76 | with an empty search and both selectors on "all", every product is shown, in order |
| Catalog.ClickAdd | src/pages/ProductsPage.tsx:192-196 | an enabled button (stock ≠ 0) adds one unit of the product to the cart; a disabled one changes nothing |

## Left out

- Database access, the data-loading queries, routing, toasts, animation and
  markup are I/O or presentation. The checkout model returns the records it
  would write instead of calling the database.
- The results of the order-item, service-order and notification inserts are
  never inspected by the code, so the model does not take them as inputs.
- Reading and writing the cart in browser storage, and the unchecked parse of
  the stored list, are browser I/O. `Cart.CartStore.constructor` takes the
  stored list as given.
- Line ids and order and service-order numbers are built from the clock in
  the code. Here they are parameters, and nothing assumes they are unique.
- Prices use exact reals, not IEEE-754 doubles. Rounding error in the price
  formula and in the unrounded cart deposit is not modelled.
- A non-numeric dimension input (NaN) is not modelled. Dimensions are reals,
  and the range shown for each type is not enforced, as in the code.
- Lower-casing in the search is ASCII only. Unicode case mapping is not
  modelled.
- The pages' navigation guards (no user, empty cart), the loading state of
  the catalogue, and the server-side filter on active products and their
  sort order are not modelled.
- The text of the confirmation message is left out, because it formats
  numbers for a locale. The notification keeps its kind, title and links.
- The order's delivery date is modelled as a UTC day number, not as a
  formatted date string. The deposit timestamp is kept in milliseconds.
- Status colours, category labels and date formatting on the order page are
  presentation.
- The cost-sheet record is declared but never read, because pricing hardcodes
  its constants.
- No order lifecycle guard is modelled. Nothing in the code changes an
  order's status after it is created.
- The cart page's ± buttons only call `UpdateQuantity` with the quantity ± 1,
  which is covered by the cart model.
- Sign-in, contact, home, about, how-it-works and order-list pages, the
  header, the footer and the generated database typings are outside this
  model.
- The item count and the subtotal are summed from the front of the list,
  while the code folds from the left. With exact numbers the two are equal.

## Findings

| source | as written | input that shows it | evidently intended | confidence | as-written member | corrected member |
|---|---|---|---|---|---|---|
| src/pages/CustomizePage.tsx:550-551 | the "Saldo en Entrega" (balance on delivery) line shows `deposit` | price €101: deposit €51 and balance shown €51, €102 in all | balance = price − deposit (€50), so that deposit and balance add up to the price | high, not executed | Customize.BalanceShownOverstatesOddPrice | Customize.BalanceOnDelivery |
