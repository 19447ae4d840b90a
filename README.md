# OnlineShop cart, order and stock workflow in Dafny

This project models the core of the OnlineShop Express/Mongoose backend:

- the derived values of a product (discounted price, stock status), its slug hook and its rating average;
- the cart aggregate: lines, totals recomputed on every save, and the model helpers;
- the cart request handlers: get with pruning, add, update, remove, clear and count;
- the order aggregate: status and payment-method enums, the order-number hook and the status-history hook;
- the order request handlers: create (checkout), get, pay, cancel and the admin status update;
- adding a product review;
- the page arithmetic of the product listing.

The database is one in-memory store, the class `Controllers.Shop`. Its maps hold products, one cart per user and orders as values. A handler loads a document, changes it and saves it. A loaded document is a fresh object of class `ProductModel.ProductDoc`, `CartModel.CartDoc` or `OrderModel.OrderDoc`, and its `Save` runs the schema's pre-save hooks. The handler then writes the saved value back. Each handler is one sequential step.

- `Shop.Valid()` is the store invariant. Every product satisfies its schema bounds and has at most one review per user. Every cart has valid lines, totals that match them and distinct line ids. Every order satisfies the order schema and has its number.
- Every handler keeps `Valid()`. Each one states its result and its new state for every error path and for success, as a function of the old state.
- Request data arrive as parameters. A missing body field is `None`. ObjectIds come from a counter, `nextId`. The clock and the random order-number suffix are a `Clock` value.
- Prices, discounts and averages are exact `real`s. Stock and quantities are unbounded integers, so stock can be negative.

Modules:

| module | file |
|---|---|
| `Common` | common.dfy |
| `ProductModel` | product.dfy |
| `CartModel` | cart.dfy |
| `OrderModel` | order.dfy |
| `Inventory` | inventory.dfy |
| `Pagination` | pagination.dfy |
| `Controllers` | controllers.dfy |
| `Scenarios` | scenarios.dfy |

`Inventory` holds the stock checks and the `$inc` loops of checkout and cancel. `Scenarios` holds request sequences whose outcomes follow from the handlers' contracts.

The model reproduces these behaviours of the code:

- A line whose product has a 100% discount stores the full price, because of `discountedPrice || price`.
- The quantity-0 branch of `updateCartItem` is unreachable.
- `trim("-")` trims whitespace only, so a slug can end in `-`.
- Checkout checks each line against the current stock, not the total per product. With duplicate product lines, stock can go below 0 (`Inventory.DuplicateLinesOversell`). With distinct products it cannot (`Inventory.ReserveKeepsStockNonNegative`).
- The admin status update allows any status from any other.

## Model

| member | source | states |
|---|---|---|
| ProductModel.DiscountedPrice | backend/models/Product.js:151-156 | With no discount the price itself; otherwise price·(100 − discount)/100. Within the schema bounds it lies in [0, price], and it is 0 at a 100% discount. |
| ProductModel.StockStatusOf | backend/models/Product.js:159-163 | Out of stock iff stock is 0; low stock iff stock ≠ 0 and stock ≤ threshold; in stock iff stock ≠ 0 and stock > threshold. |
| ProductModel.ToLower | backend/models/Product.js:169 | Same length; every character is mapped by the ASCII lower-casing. |
| ProductModel.Dashify | backend/models/Product.js:170 | Same length; letters and digits are kept and every other character becomes `-`. |
| ProductModel.DropDashes | backend/models/Product.js:171 | Removes exactly the leading dashes: the result is a suffix that does not start with `-`, and everything removed was `-`. |
| ProductModel.CollapseDashes | backend/models/Product.js:171 | Empty iff the input is empty; keeps the first character; only uses characters of the input; never has two dashes in a row. |
| ProductModel.DropDashesAround | backend/models/Product.js:171 | A run of leading dashes ends at the first other character. |
| ProductModel.CollapseAround | backend/models/Product.js:171 | A character other than `-` splits the collapse: the result is the collapse of what precedes it, the character, then the collapse of what follows. |
| ProductModel.CollapseDashRun | backend/models/Product.js:171 | A non-empty run of dashes becomes exactly one `-`. With CollapseAround this fixes the result on every input. |
| ProductModel.TrimWithoutSpace | backend/models/Product.js:172 | `trim` leaves a string without whitespace unchanged, so `trim("-")` removes no dash. |
| ProductModel.Slugify | backend/models/Product.js:168-172 | The slug is the lower-cased, dashified, collapsed name, so the final `trim` removes nothing. It has only lower-case letters, digits and `-`, never `--`, is no longer than the name, and is empty iff the name is. |
| ProductModel.SlugKeepsLettersAndDigits | backend/models/Product.js:168-172 | Without its dashes, the slug is exactly the name's letters and digits, lower-cased, in order. |
| ProductModel.CollapseSlug | backend/models/Product.js:171 | Collapsing dashes leaves a string without `--` unchanged. |
| ProductModel.SlugifyIdempotent | backend/models/Product.js:168-172 | Slugifying a slug gives the same slug. |
| ProductModel.CollapseKeepsLastDash | backend/models/Product.js:171 | Collapsing runs of dashes keeps a final `-`. |
| ProductModel.SlugKeepsTrailingDash | backend/models/Product.js:170-172 | A name ending in anything but an ASCII letter or digit gets a slug ending in `-`: `trim("-")` does not remove it. |
| ProductModel.RoundedTenths | backend/models/Product.js:187-188 | `Math.round(10·total/n)`: the integer k with 2nk − n ≤ 20·total < 2nk + n. |
| ProductModel.SumRatingsBounds | backend/models/Product.js:114-119 | With ratings in 1..5, the sum lies between the count and 5·count. |
| ProductModel.TenthsBounds | backend/models/Product.js:187-188 | A rounded mean of ratings in 1..5 lies in 1.0..5.0 (10..50 tenths). |
| ProductModel.AverageRating | backend/models/Product.js:178-191 | 0 with no reviews; in [1, 5] when every rating is in 1..5. |
| ProductModel.AverageOfEqualRatings | backend/models/Product.js:183-188 | When all ratings equal v, the average is exactly v. |
| ProductModel.ReviewedBy | backend/controllers/productController.js:213-215 | True iff some review was written by the user. |
| ProductModel.ReviewsByAppend | backend/controllers/productController.js:228 | Appending a review adds one to its author's review count and leaves every other user's count unchanged. |
| ProductModel.ReviewsByZero | backend/controllers/productController.js:213-219 | A user has no review iff `ReviewedBy` is false. |
| ProductModel.AppendNewReviewer | backend/controllers/productController.js:212-228 | Appending a review by a user with no review keeps at most one review per user, and that user then has exactly one. |
| ProductModel.ProductDoc.Load | backend/controllers/productController.js:204 | The loaded document holds the stored product, with the name unmodified. |
| ProductModel.ProductDoc.SetName | backend/models/Product.js:5-10 | The `trim` setter stores the trimmed name. The name counts as modified iff it already was, or the trimmed name differs from the current one (`isModified`, line 167). |
| ProductModel.ProductDoc.CalculateAverageRating | backend/models/Product.js:178-191 | Sets the average to `AverageRating(reviews)` and the count to the number of reviews; nothing else changes. |
| ProductModel.ProductDoc.Save | backend/models/Product.js:166-175 | The slug is recomputed iff the name was modified and is otherwise kept; nothing else changes. |
| CartModel.EmptyCart | backend/models/Cart.js:110-114 | No lines, both totals 0, and consistent. |
| CartModel.TotalsNonNegative | backend/models/Cart.js:36-45 | With valid lines, the item total is at least the number of lines and the amount is ≥ 0. |
| CartModel.TotalsAppend | backend/models/Cart.js:58-65 | Both totals add over concatenation. |
| CartModel.TotalsReplace | backend/models/Cart.js:58-65 | Replacing one line changes the totals by exactly the difference of that line's contribution. |
| CartModel.TotalsMerge | backend/models/Cart.js:58-65 | Raising line i's quantity raises the totals by that quantity, priced at line i's price. |
| CartModel.TotalsPush | backend/models/Cart.js:58-65 | Pushing a line raises the totals by its quantity and its price times quantity. |
| CartModel.RemoveAt | backend/controllers/cartController.js:198 | `splice(i, 1)`: one line fewer, the lines before i unchanged, those after shifted down by one. |
| CartModel.TotalsRemoveAt | backend/controllers/cartController.js:198 | Removing a line lowers the totals by exactly that line's quantity and amount. |
| CartModel.LinesValidRemoveAt | backend/controllers/cartController.js:198 | Removing a line keeps the lines valid. |
| CartModel.FindLine | backend/models/Cart.js:72-74 | `findIndex`: −1 or the index of a matching line, with no match before it (none at all when −1). |
| CartModel.FoundByIdIsUnique | backend/controllers/cartController.js:191-193 | With distinct ids, a found line is the only one with that id. |
| CartModel.WithoutProduct | backend/models/Cart.js:103-107 | `filter`: keeps exactly the lines of other products. |
| CartModel.WithoutProductAppend | backend/models/Cart.js:103-107 | Removal distributes over concatenation, so the kept lines keep their order and each appears once. |
| CartModel.WithoutProductOne | backend/models/Cart.js:103-107 | A single line is kept iff it is for another product. With WithoutProductAppend this fixes the result on every input. |
| CartModel.AddedItemsEffect | backend/models/Cart.js:71-85 | The first line for the product gains the quantity and keeps its id, product and price. Otherwise exactly one line {new id, product, quantity, price} is pushed at the end. The other lines are unchanged, and the totals grow by the quantity and its amount. |
| CartModel.AddedItemsValid | backend/models/Cart.js:71-85 | A quantity ≥ 1 at a price ≥ 0 keeps the lines valid. |
| CartModel.QuantityUpdatedEffect | backend/models/Cart.js:88-100 | An absent product leaves the lines unchanged. Quantity ≤ 0 removes exactly the found line (`splice`), keeping the others in order. Otherwise only the found line changes, and only in its quantity. The item total is adjusted in both cases. |
| CartModel.WithoutProductTotals | backend/models/Cart.js:103-107 | Removing a product lowers the item total by that product's quantity, leaving none of it. |
| CartModel.WithoutProductValid | backend/models/Cart.js:103-107 | Removing a product keeps the lines valid. |
| CartModel.CartDoc.Load | backend/controllers/cartController.js:69 | The loaded document holds the stored cart. |
| CartModel.CartDoc.Create | backend/controllers/cartController.js:20 | A new cart for the user, with no lines. |
| CartModel.CartDoc.Save | backend/models/Cart.js:57-68 | Sets totalItems to Σ quantity and totalAmount to Σ price·quantity, leaves the lines alone, and the totals are ≥ 0. |
| CartModel.CartDoc.AddItem | backend/models/Cart.js:71-85 | The lines become `AddedItems` of the old lines (see AddedItemsEffect); nothing else changes. |
| CartModel.CartDoc.UpdateItemQuantity | backend/models/Cart.js:88-100 | The lines become `QuantityUpdated` of the old lines (see QuantityUpdatedEffect). |
| CartModel.CartDoc.RemoveItem | backend/models/Cart.js:103-107 | The lines become those of the other products. |
| CartModel.CartDoc.ClearCart | backend/models/Cart.js:110-114 | No lines and both totals 0. |
| OrderModel.ParseStatus | backend/models/Order.js:110-122 | Recognises exactly the six status names. |
| OrderModel.ParseStatusName | backend/models/Order.js:110-122 | Parsing a status's name gives back that status. |
| OrderModel.ParsePaymentMethod | backend/models/Order.js:56-66 | Recognises exactly the five payment-method names. |
| OrderModel.ParsePaymentMethodName | backend/models/Order.js:56-66 | Parsing a payment method's name gives back that method. |
| OrderModel.OrderNumber | backend/models/Order.js:172-174 | The order number starts with `ORD-`. |
| OrderModel.HistoryAfterSave | backend/models/Order.js:180-188 | The old history is kept as a prefix. Exactly one entry is appended iff the order is not new and its status changed, and that entry is the new status. |
| OrderModel.NewOrder | backend/models/Order.js:110-143 | A new order is pending, unpaid, undelivered, has an empty history and no number, and so does not yet satisfy the schema. |
| OrderModel.SaveValidatingFirst | backend/models/Order.js:139-143 | Saving with the validators first succeeds iff the order already satisfies the schema, number included. |
| OrderModel.CreateFailsValidation | backend/models/Order.js:139-143 | With validators first, saving any new order fails schema validation. |
| OrderModel.OrderDoc.Load | backend/controllers/orderController.js:145 | The loaded document holds the stored order, is not new, and its saved status is the current one. |
| OrderModel.OrderDoc.Create | backend/controllers/orderController.js:54-63 | The document holds `NewOrder` of the request's fields and is new. |
| OrderModel.OrderDoc.Save | backend/models/Order.js:170-188 | The number is set only when absent and never overwritten. The history follows `HistoryAfterSave`. Nothing else changes, and afterwards the order is no longer new. |
| Inventory.FirstFailureNoneIff | backend/controllers/orderController.js:32-52 | No line fails iff every line's product exists, is active and has at least the line's quantity. |
| Inventory.CheckOrderLines | backend/controllers/orderController.js:32-52 | The loop returns the first line's failure, and none iff every line is in stock. |
| Inventory.IncStock | backend/controllers/orderController.js:67-69 | `$inc` changes only that product's stock, by exactly delta. A missing id changes nothing. |
| Inventory.Shifted | backend/controllers/orderController.js:66-70 | The `$inc` loop keeps the set of products. |
| Inventory.ShiftedStep | backend/controllers/orderController.js:66-70 | One more line is one more `$inc`. |
| Inventory.ShiftedEffect | backend/controllers/orderController.js:66-70 | Each product's stock moves by exactly the total quantity of its lines, down on checkout and up on cancel. Nothing else changes. |
| Inventory.ReleaseUndoesReserve | backend/controllers/orderController.js:66-70 | Cancelling restores exactly the stock that checkout took. |
| Inventory.ShiftedKeepsBounds | backend/controllers/orderController.js:66-70 | Stock moves keep the price and discount bounds. |
| Inventory.DemandOfDistinct | backend/controllers/orderController.js:66-70 | With distinct products, a product's total demand is its one line's quantity, or 0. |
| Inventory.ReserveKeepsStockNonNegative | backend/controllers/orderController.js:44 | When every line is in stock and the products are distinct, checkout leaves no stock below 0. |
| Inventory.DuplicateLinesOversell | backend/controllers/orderController.js:44 | Two lines of one unit of a product with stock 1 each pass the check, and checkout leaves stock −1. |
| Pagination.IntOr | backend/controllers/productController.js:53-54 | `parseInt(x) \|\| d`: the parsed value unless it is absent, unparsable or 0, and d then. |
| Pagination.CeilDiv | backend/controllers/productController.js:91 | `Math.ceil(a / b)`: the q with (q−1)·b < a ≤ q·b for b > 0. |
| Pagination.Paginate | backend/controllers/productController.js:55-79 | Page, limit and total are echoed. The start index given to `skip` is (page − 1)·limit. A next link points to page+1 and a prev link to page−1. pages·limit is the least multiple of limit that covers total. |
| Pagination.PaginateQuery | backend/controllers/productController.js:53-54 | Page and limit default to 1 and 10; a missing page gives start index 0. |
| Pagination.LinksFollowPageCount | backend/controllers/productController.js:55-79 | For page, limit ≥ 1, the start index is ≥ 0. There is a next link iff page < pages, and a prev link iff page > 1. |
| Controllers.CartPrice | backend/controllers/cartController.js:89-90 | `discountedPrice \|\| price`: within [0, price]; the discounted price below 100% discount; the full price at 100%. |
| Controllers.FreeOnlyAtFullDiscount | backend/controllers/cartController.js:89-90 | Below 100% discount the discounted price is 0 only for a free product. |
| Controllers.AddedToCartEffect | backend/controllers/cartController.js:75-97 | The item total grows by the quantity. The found line gets the new quantity and the current price, or one line is pushed. Other lines are unchanged. |
| Controllers.AddedToCartValid | backend/controllers/cartController.js:75-97 | A quantity ≥ 1 at a price ≥ 0 keeps the lines valid. |
| Controllers.AddedToCartKeepsIds | backend/controllers/cartController.js:92-96 | A pushed line's fresh id keeps line ids distinct. |
| Controllers.Pruned | backend/controllers/cartController.js:24-27 | Keeps exactly the lines whose product exists, is active and has stock > 0. |
| Controllers.PrunedAppend | backend/controllers/cartController.js:24-27 | Pruning distributes over concatenation, so the kept lines keep their order and each appears once. |
| Controllers.PrunedOne | backend/controllers/cartController.js:24-27 | A single line is kept iff its product is sellable. With PrunedAppend this fixes the result on every input. |
| Controllers.PrunedLinesValid | backend/controllers/cartController.js:24-27 | Pruning keeps the lines valid. |
| Controllers.PrunedDistinct | backend/controllers/cartController.js:24-27 | Pruning keeps line ids distinct. |
| Controllers.PlacedOrder | backend/controllers/orderController.js:54-63 | The created order is pending, unpaid, undelivered, with no history, the request's user and lines, and a generated number. |
| Controllers.MergeIntoCart | backend/controllers/cartController.js:74-99 | Fails with insufficient stock iff held + added exceeds stock. Otherwise the lines are `AddedToCart`, the totals are consistent and the item total grows by the quantity. |
| Controllers.PaidStatus | backend/controllers/orderController.js:167-169 | After payment the status is never pending, and any status other than pending is kept. |
| Controllers.PayDoc | backend/controllers/orderController.js:158-171 | Paid with the time and result; pending becomes processing. History gains one entry iff the order was pending. |
| Controllers.CancelDoc | backend/controllers/orderController.js:204-213 | The order becomes cancelled, with exactly one history entry appended. |
| Controllers.SetStatusDoc | backend/controllers/orderController.js:291-302 | Sets the status. A non-empty tracking number replaces the old one. Delivered sets the flag and time. Old history is kept. |
| Controllers.ReviewDoc | backend/controllers/productController.js:228-231 | Appends the review, recomputes the average and count, and keeps the slug. |
| Controllers.Shop.GetCart | backend/controllers/cartController.js:9-36 | Creates an empty cart when none exists. Otherwise keeps exactly the sellable lines. The cart is consistent, and nothing else changes. |
| Controllers.Shop.AddToCart | backend/controllers/cartController.js:41-116 | Fails in the handler's order: no product id, quantity < 1, unknown product, inactive product, stock below held + added; the cart is then unchanged. Otherwise the cart holds `AddedToCart` of its lines and its item total grows by the quantity. The id counter advances by one iff a line was pushed. |
| Controllers.Shop.PutInCart | backend/controllers/cartController.js:68-99 | Gets or creates the cart, merges the line and writes it back. The id counter advances by one iff a line was pushed, and not at all on a merge. |
| Controllers.Shop.UpdateCartItem | backend/controllers/cartController.js:121-178 | Quantity absent or ≤ 0 gives 400, a missing cart or line 404, a missing product 404, too little stock 400. Otherwise that line gets the quantity and current price, and the line count is unchanged. |
| Controllers.Shop.RemoveFromCart | backend/controllers/cartController.js:183-216 | A missing cart or line gives 404 with nothing changed. Otherwise exactly that line is removed and the item total drops by its quantity. |
| Controllers.Shop.ClearCart | backend/controllers/cartController.js:221-237 | A missing cart gives 404. Otherwise the cart becomes empty with totals 0. |
| Controllers.Shop.CartItemCount | backend/controllers/cartController.js:242-252 | The stored item total, or 0 without a cart; never negative; nothing is created. |
| Controllers.Shop.CreateOrder | backend/controllers/orderController.js:10-83 | Empty items, then missing address or payment method, then the first failing line, then the schema: each fails with no change. On success every line was in stock, a new order id holds `PlacedOrder`, stock is `Shifted` down, and the user's cart is emptied. |
| Controllers.Shop.PlaceOrder | backend/controllers/orderController.js:54-76 | The committing half: saves the order with its number, decrements stock per line and empties the cart. |
| Controllers.Shop.ShiftStock | backend/controllers/orderController.js:66-70 | The `$inc` loop: stock becomes `Shifted` of the old stock; nothing else changes. |
| Controllers.Shop.GetOrder | backend/controllers/orderController.js:118-139 | Missing gives 404; neither owner nor admin gives 401; otherwise the stored order. |
| Controllers.Shop.PayOrder | backend/controllers/orderController.js:144-178 | 404 or 401 as for get. Otherwise the order is paid and pending becomes processing, with the history from the hook. Stock and carts are unchanged. |
| Controllers.Shop.CancelOrder | backend/controllers/orderController.js:183-220 | 404 or 401 as for get; any status but pending or processing gives 400 with nothing changed. Otherwise the order is cancelled with one history entry, and every line's quantity goes back to stock. |
| Controllers.Shop.UpdateOrderStatus | backend/controllers/orderController.js:267-309 | 404 for a missing order, 400 for a name outside the six statuses. Otherwise the status is set from any status. The tracking number changes only if supplied. Delivered sets the flag. The history is from the hook. |
| Controllers.Shop.AddProductReview | backend/controllers/productController.js:195-238 | An invalid rating or comment gives 400, an unknown product 404, an existing review by the user 400, and a negative stock a validation error, with nothing changed. Otherwise one review is appended and the average and count are recomputed. The user then has exactly one review. |
| Scenarios.RenameProduct | backend/models/Product.js:5-10 | For a product within every schema bound (price, discount, stock ≥ 0, average rating in 1..5) and a new name that is non-empty after trimming and at most 100 characters, renaming and saving stores the trimmed name and the slug of that name. Assigning the stored name and saving changes nothing, the slug included. |
| Scenarios.RedShoeTrimmed | backend/models/Product.js:8 | The name " Red Shoe " is stored as "Red Shoe". |
| Scenarios.RedShoeSlug | backend/models/Product.js:168-172 | The name "Red Shoe" gets the slug "red-shoe". |
| Scenarios.AddThenOversell | backend/controllers/cartController.js:41-116 | Adding 2 of a product with stock 5 at price 10 gives one line and totals 2 and 20. A further 10 is refused and the cart is unchanged. |
| Scenarios.CancelTwice | backend/controllers/orderController.js:197-211 | After a successful cancel a second one is refused, and stock was restored once. |
| Scenarios.CheckoutThree | backend/controllers/orderController.js:10-83 | Ordering 3 of a product with stock 5 creates the first order: pending, the user's, with that line. 2 pieces remain. |
| Scenarios.CheckoutThenCancel | backend/controllers/orderController.js:10-83 | Ordering 3 of stock 5 leaves 2. Cancelling restores 5, and cancelling again is refused. |
| Scenarios.CancelShipped | backend/controllers/orderController.js:197-202 | A shipped order cannot be cancelled and the stock stays as it was. |

## Findings

| source | as written | input that shows it | evidently intended | confidence | as-written member | corrected member |
|---|---|---|---|---|---|---|
| backend/models/Order.js:170-177 | `orderNumber` is `required` (line 142) but generated in a `pre("save")` hook. Mongoose runs the schema validators before the pre-save hooks, so `Order.create` in `createOrder` is refused for want of an order number. | Any valid `createOrder` request: the new order has no number when the validators run. | The hook gives the number before validation, and the order is created. | not executed; depends on Mongoose running validation before pre-save hooks | OrderModel.CreateFailsValidation | Controllers.Shop.PlaceOrder |

The rest of the model uses the corrected order of work: `OrderModel.OrderDoc.Save` runs the number hook, and `Controllers.Shop.CreateOrder` fails with a schema error only for input the schema refuses.

## Left out

- Routes, middleware, the auth, user and category controllers, and the seeder: Express and database plumbing with no logic of the core.
- The Joi validators are not modelled as a library. The review validator's bounds (rating 1..5, comment non-empty and at most 1000 characters) are `ReviewInputValid`. The order validator is not wired into the order route; `createOrder` relies on the Order schema, modelled by `OrderInputValid`.
- `getOrderStats`, the query rewriting and sorting of `getProducts`, `searchProducts`, `getUserOrders` and `getAllOrders`: Mongo query semantics. Only their page arithmetic is modelled, by `Pagination`.
- `populate`, response bodies and HTTP status codes: a handler returns an error kind instead of a status. The status a schema-validation error gets depends on the error handler, which is not part of this model.
- Timestamps (`createdAt`, `updatedAt`, `lastModified`, review `createdAt`): time-only fields.
- Concurrency and atomicity: each handler is one sequential step, so interleaved requests and partially applied `$inc` loops are not modelled.
- Floating point: prices, discounts and averages are exact reals, so float rounding of `price * quantity` sums is not modelled. The one `Math.round` is modelled exactly.
- Request bodies whose fields are not numbers (strings, `NaN`): quantities, ratings and ids are integers or absent.
- ProductModel.ToLower: lower-cases ASCII letters only. `toLowerCase` follows Unicode, and a few characters lower-case into ASCII: U+212A KELVIN SIGN becomes `k`, and U+0130 (capital I with dot above) becomes `i` followed by U+0307. The code then keeps the `k` or `i` in the slug, but the model turns the whole character into `-`.
- ProductModel.ProductDoc.Save: none of the schema's field rules is checked at save. The unchecked rules are the name's `required` and `maxlength` 100 (Product.js:7, :9), `price` min 0 (:23), `discount` 0..100 (:31-32), `stock` min 0 (:65) and `averageRating` 1..5 (:95-96). The save validates every field, not only the changed ones, so the code refuses the save of a product that breaks any of them. One example is a product with no reviews, whose `averageRating` is the default 0. The one handler that saves a product, `Controllers.Shop.AddProductReview`, checks the stock minimum itself. Its new average lies in 1..5, and the store keeps price and discount within bounds. `Scenarios.RenameProduct` requires a product and a new name that meet every rule, and so does not model the refusal.
- ProductModel.Slugify: because of the ToLower gap, the model's slug differs from the code's for names with U+212A or U+0130. "No longer than the name" is a fact of the model only: U+0130 gives the code a two-character slug `i-` from one character.
- Controllers.Shop.UpdateCartItem: the `quantity === 0` removal branch is not modelled, because the guard before it already refuses 0.
- Controllers.CancelDoc: the status is set at the save rather than before the stock loop, because nothing reads the unsaved order in between.
- Controllers.Shop.AddProductReview: of the product validators run by the save, only the stock minimum is modelled. Price and discount stay within bounds in a stored product, and the new average lies in [1, 5] (`ProductModel.AverageRating`).
- ObjectIds are integers and compared as such, not through `toString()`.
- Cart lines are read with product ids only; the `populate` that `getCart` uses to read each line's product becomes a lookup in the product map.
