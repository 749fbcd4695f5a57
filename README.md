# Rabbit storefront: carts, checkouts and orders in Dafny

This project models the core of the Rabbit storefront backend and one of its admin
reducers, and proves properties of the model:

- **Cart store** (`CartRoutes`). Guest and signed-in carts hold line items keyed by
  (productId, size, color). Add, set-quantity and remove recompute `totalPrice` as
  Σ price × quantity. At sign-in the guest cart is merged into the user's cart.
- **Checkout sessions** (`CheckoutRoutes`, schema in `CheckoutModel`). A session moves
  from pending to paid to finalized. Finalize turns a paid session into exactly one
  order and deletes the buyer's cart.
- **Order ledger** (`AdminOrderRoutes`, schema in `OrderModel`). The admin status
  update ties `isDelivered` and `deliveredAt` to the requested status. An admin can
  also delete an order.
- **Admin order list** (`AdminOrderSlice`). The front-end state holds the fetched
  orders, the totals derived from them, and loading and error flags.
- **Product listing and update** (`Products`, `ProductAdmin`). The filter and sort
  built from the query string, the field-by-field merge of a product update, and
  the pagination arithmetic of the admin listing.
- `JsValues` holds the JavaScript conversions the handlers depend on:
  - `Number`, `parseInt`, `split`, lower-casing;
  - the decimal rendering of `Date.now()`.
- `Lifecycle` strings the pieces together end to end.

Modelling conventions:

- Each Mongo collection is a field of a class and each handler a method on it:
  - carts are a `seq`, so that `findOne` means "first match";
  - checkouts, orders and products are `map`s keyed by id.
- A handler is one atomic step.
- Request values follow JavaScript truthiness:
  - an absent or falsy string is `""`;
  - an absent number, object or list is `None`.
- Prices are integer cents. Timestamps and generated guest ids come in as parameters.
- Mongoose behaviour that decides outcomes is written out:
  - defaults and required fields;
  - the `status` enumeration;
  - `min` on item quantities;
  - strict mode dropping fields the schema lacks.
- Each reply is `Ok(body)` or `Fail(status, message)`, with the source's status codes
  and messages.

Where the code and the behaviour described for the system disagree, the model follows
the code:

- Adding to a cart does not check that the quantity is at least 1.
- Finalizing a missing checkout answers 400 "Checkout is not found", not 404.
- Paying a checkout that is already finalized is accepted. It overwrites `paidAt`
  and `paymentDetails`.
- `paymentDetails` is passed to `Order.create`, but the order schema has no such
  field, so orders do not keep it.
- A cart can belong to a user and a guest at once: a signed-in add that carries both
  ids creates such a cart. This is what the second finding below turns on.
- An empty guest cart at merge answers 404 "Guest cart is empty". A merge that finds
  neither cart answers 404 "Guest cart not found".

## Model

| member | source | states |
|---|---|---|
| JsValues.Decimal | backend/routes/cartRoutes.js:70 | The rendered timestamp in a generated guest id is a non-empty run of decimal digits |
| JsValues.DecimalRoundTrip | backend/routes/cartRoutes.js:70 | Reading the rendered digits back gives the timestamp, so different timestamps give different guest ids |
| JsValues.DigitRun | backend/routes/productAdminRoutes.js:25-26 | The digit run `parseInt` reads is the longest all-digit prefix |
| JsValues.ParseIntOfDecimal | backend/routes/productAdminRoutes.js:25-26 | `parseInt` of a decimal number, signed or not, reads that number and ignores any text after a non-digit |
| JsValues.ToNumberOfDecimal | backend/routes/productRoutes.js:198-201 | `Number` of a decimal string is its value |
| JsValues.Split | backend/routes/productRoutes.js:176 | `split` gives at least one piece, and no piece contains the separator |
| JsValues.JoinSplit | backend/routes/productRoutes.js:175-185 | Splitting loses nothing: joining the pieces gives the parameter back |
| JsValues.SplitJoin | backend/routes/productRoutes.js:175-185 | Splitting the join of separator-free pieces gives exactly those pieces |
| Products.BuildQuery | backend/routes/productRoutes.js:195-203 | The price filter exists iff minPrice or maxPrice is given; `$gte` exists iff minPrice is given and `$lte` iff maxPrice is |
| Products.QueryMeansParams | backend/routes/productRoutes.js:167-203 | A product matches the built query iff it meets every given parameter. Collection and category filter unless 'all' (any case). Material, brand and size are membership in the comma-split list. Color is membership. Gender is exact. Numeric price bounds compare with `Number` of the parameter; a non-numeric bound never gets this far (see Products.Find) |
| Products.Find | backend/routes/productRoutes.js:195-243 | `Product.find(query).sort(sort)` fails with 500 exactly when sortBy is "featured" or a given price bound is not a number. The "featured" failure carries Mongoose's invalid-sort-value message; otherwise it is the price cast error. Without a failure it selects exactly the catalog products the parameters admit |
| Products.MaterialListIsLossless | backend/routes/productRoutes.js:175-177 | The material list in the query joins back to the parameter |
| Products.BuildSort | backend/routes/productRoutes.js:213-234 | The sort is empty exactly when sortBy is not one of featured, newest, priceAsc, priceDesc, popularity. featured gives isFeatured `true` (a value Mongoose refuses as a direction, so Products.Find fails), newest on createdAt descending, priceAsc and priceDesc on price ascending and descending, popularity on rating descending |
| Products.SortNamesDistinct | backend/routes/productRoutes.js:213-234 | The five sort names give five different sorts |
| Products.LimitOf | backend/routes/productRoutes.js:237 | A non-zero limit is the numeric value of the parameter; a non-numeric parameter gives 0, meaning no limit |
| Products.LimitOfDecimal | backend/routes/productRoutes.js:237 | A decimal limit is taken as is; an absent or non-numeric one becomes 0 |
| Products.ApplyUpdate | backend/routes/productRoutes.js:93-111 | A price of 0 keeps the old price because 0 is falsy; `false` for isFeatured or isPublished is kept |
| Products.UpdateIdempotent | backend/routes/productRoutes.js:93-111 | Applying the same update twice gives the same product as applying it once |
| Products.EmptyUpdateKeeps | backend/routes/productRoutes.js:93-111 | An update that sends no fields leaves the product unchanged |
| Products.ProductStore.Update | backend/routes/productRoutes.js:91-118 | A missing id answers 404 "Product not found" and changes nothing; otherwise the merged product is saved under that id and returned |
| Products.ProductStore.Delete | backend/routes/productRoutes.js:132-136 | A missing id answers 404; otherwise exactly that product is removed |
| ProductAdmin.CeilDiv | backend/routes/productAdminRoutes.js:40 | `Math.ceil(a / b)`: for b > 0 the least r with a ≤ r·b; for b < 0 the same with both signs flipped |
| ProductAdmin.Window | backend/routes/productAdminRoutes.js:33 | `.skip(s).limit(l)` returns at most l items, none once s reaches the end |
| ProductAdmin.ListProducts | backend/routes/productAdminRoutes.js:23-51 | Paginates iff both page and limit parse. Page and limit are echoed back and totalItems is the count. For a positive limit, totalPages = ⌈count/limit⌉ and the page holds the window at skip (page−1)·limit. Without pagination every product is returned |
| ProductAdmin.PageOf | backend/routes/productAdminRoutes.js:30-43 | totalPages is present iff limit ≠ 0 (otherwise JSON null); the ceiling bounds and the window hold for a positive limit |
| ProductAdmin.EveryItemOnAPage | backend/routes/productAdminRoutes.js:30-40 | Every product is on some page numbered from 1 to totalPages |
| ProductAdmin.PagesPastTheEndAreEmpty | backend/routes/productAdminRoutes.js:30-40 | A page beyond totalPages is empty |
| CheckoutModel.CastItem | backend/models/Checkout.js:5-36 | An item is accepted iff it has productId, name, image and price, and its quantity (default 1) is at least 1 |
| CheckoutModel.CastInputOf | backend/models/Checkout.js:5-36 | A valid item, sent again, is stored unchanged |
| CheckoutModel.InputOfCast | backend/models/Checkout.js:5-36 | Casting is idempotent |
| CheckoutModel.CastItems | backend/models/Checkout.js:47 | One invalid item rejects the whole list; otherwise each item is cast in place |
| CheckoutModel.NewCheckout | backend/models/Checkout.js:41-103 | Created iff there is a user, every item is valid and the address is complete. Defaults: unpaid, "pending", not finalized, no timestamps. The given fields are copied; totalPrice defaults to 0 |
| OrderModel.NewOrder | backend/models/Order.js:31-105 | Created iff there is a user and a paymentMethod, the items are valid, the address is complete and the status is in the enumeration. Defaults: status "processing", unpaid, undelivered, "pending", total 0. Every field given is stored as given |
| OrderModel.CheckoutItemsAreOrderItems | backend/models/Order.js:3-29 | Every valid checkout item is a valid order item; an order item may have a quantity below 1 |
| OrderModel.CanceledIsNotAStatus | backend/models/Order.js:101-105 | "cancelled" is a status and "canceled" is not |
| CartRoutes.KeyIndex | backend/routes/cartRoutes.js:37-42 | `findIndex` on (productId, size, color) gives the first matching item, or -1 when none matches |
| CartRoutes.FindCart | backend/routes/cartRoutes.js:11 | `Cart.findOne` gives the first cart the query matches, or none |
| CartRoutes.Lookup | backend/routes/cartRoutes.js:9-16 | `getCart` looks up the user id when one is given, else the guest id. A cart found is the first cart that identity owns. The result is -1 exactly when that identity has no cart or neither id is given |
| CartRoutes.DeleteFirst | backend/routes/cartRoutes.js:228 | `findOneAndDelete` removes the first matching cart and keeps the others in order; with no match nothing changes |
| CartRoutes.Reprice | backend/routes/cartRoutes.js:60-62 | After repricing, the saved total equals Σ price × quantity over the given items, which become the cart's items; the owners are kept |
| CartRoutes.Snapshot | backend/routes/cartRoutes.js:47-55 | A new item carries the requested key and quantity, plus the product's name, first image and price at this instant |
| CartRoutes.NewCart | backend/routes/cartRoutes.js:66-83 | A cart created by add holds the one item, with total price × quantity. It belongs to the user when one is given. Its guestId is the given one or "guest_" followed by the timestamp |
| CartRoutes.SumConcat | backend/routes/cartRoutes.js:60-62 | The `reduce` sum distributes over concatenation |
| CartRoutes.TotalBump | backend/routes/cartRoutes.js:44-45 | Adding q to an existing item raises only that item's quantity. The list length, the other items, the keys and their uniqueness are kept, and the total rises by price × q |
| CartRoutes.TotalSetQuantity | backend/routes/cartRoutes.js:114-115 | Setting a quantity changes that item only, keeps the keys unique and moves the total by price × (new − old) |
| CartRoutes.RemoveAtShifts | backend/routes/cartRoutes.js:117 | `splice(i, 1)` drops entry i and keeps every other entry in order |
| CartRoutes.TotalRemoveAt | backend/routes/cartRoutes.js:152-155 | Removing an item lowers the total by its subtotal |
| CartRoutes.TotalAppend | backend/routes/cartRoutes.js:47-62 | Appending an item raises the total by its subtotal |
| CartRoutes.RemovedKeyAbsent | backend/routes/cartRoutes.js:146-153 | After removal no item has that key, whatever its quantity was; the other keys stay |
| CartRoutes.UpsertQty | backend/routes/cartRoutes.js:204-217 | Folding one guest item in adds its quantity under its key and nothing under other keys |
| CartRoutes.UpsertKeys | backend/routes/cartRoutes.js:204-217 | Folding one guest item in adds exactly its key and keeps keys unique |
| CartRoutes.MergedQty | backend/routes/cartRoutes.js:203-218 | After the merge, the quantity under every key is the user's plus the guest's |
| CartRoutes.MergedKeys | backend/routes/cartRoutes.js:203-218 | The merged keys are the union of both carts' keys (nothing dropped or invented), and stay unique |
| CartRoutes.UniqueQty | backend/routes/cartRoutes.js:37-45 | With unique keys, the quantity held under a key is the quantity of the one item found for it |
| CartRoutes.MergeSumsQuantities | backend/routes/cartRoutes.js:201-221 | Merging two uniquely keyed carts gives, under every key, the found item's quantity = user's + guest's |
| CartRoutes.MergeItems | backend/routes/cartRoutes.js:203-218 | The `forEach` loop computes the fold of the guest items onto the user's items |
| CartRoutes.WellFormedEdits | backend/routes/cartRoutes.js:60-64 | Saving, appending or deleting a well-formed cart keeps every cart's total and key invariant |
| CartRoutes.AsWrittenMergeLosesUserCart | backend/routes/cartRoutes.js:193-233 | As written, merging a cart that is both the guest's and the user's doubles it, answers 200 and leaves the user with no cart |
| CartRoutes.MergeCarts | backend/routes/cartRoutes.js:189-248 | (Corrected merge.) An empty guest cart answers 404 "Guest cart is empty"; no carts at all answer 404 "Guest cart not found"; a failure changes nothing. Without a guest cart, the user's cart is returned unchanged. Without a user cart, the guest cart is re-parented (user set, guestId cleared). Otherwise the reply is the user's cart with the guest items folded in and repriced. The store then drops the guest cart and keeps the saved user cart. When the guest cart is the user's own cart, nothing changes and that cart is returned |
| CartRoutes.CorrectedMergeKeepsSharedCart | backend/routes/cartRoutes.js:193-228 | On the input that loses the cart as written (one cart with both ids), the corrected merge keeps that cart and returns it |
| CartRoutes.MergeRemovesGuestCart | backend/routes/cartRoutes.js:226-228 | With one guest cart to fold in, no cart carries the guest id after the merge |
| CartRoutes.MergeKeepsUserCart | backend/routes/cartRoutes.js:189-248 | After any successful (corrected) merge the user owns a cart, and it is the one the reply shows |
| CartRoutes.FoldKeepsUserCart | backend/routes/cartRoutes.js:224-228 | Saving the folded user cart and then deleting the guest cart by its id leaves the folded cart as the user's first cart |
| CartRoutes.FoldDropsGuestCart | backend/routes/cartRoutes.js:224-228 | When only one cart has the guest id and the saved cart lacks it, deleting the guest cart leaves no cart with that guest id |
| CartRoutes.MergeTwiceIsMergeOnce | backend/routes/cartRoutes.js:242-246 | If one cart at most has the guest id, a second merge after a successful one changes nothing and answers with the same cart |
| CartRoutes.CartStore.Get | backend/routes/cartRoutes.js:171-184 | Answers 404 "Cart not found" iff there is no cart. Otherwise it returns the user's cart when a user id is given, else the guest's, and the total agrees with the items |
| CartRoutes.CartStore.Add | backend/routes/cartRoutes.js:24-93 | An unknown product answers 404 with nothing touched. An existing key has its quantity raised. A new key appends the snapshot. Without a cart, one is created. A product without images answers 500 on the append and create paths. Totals are recomputed and the invariant kept |
| CartRoutes.CartStore.SetQuantity | backend/routes/cartRoutes.js:99-133 | With no cart or no item it answers 404 and nothing changes. A quantity > 0 sets the item; ≤ 0 removes it exactly as remove does. Other items and carts are untouched |
| CartRoutes.CartStore.Remove | backend/routes/cartRoutes.js:139-166 | With no cart or no item it answers 404 and nothing changes; otherwise the item is spliced out and the total recomputed |
| CartRoutes.CartStore.Merge | backend/routes/cartRoutes.js:189-253 | The store and the reply are those of the corrected merge. The total and unique-key invariant holds for every cart |
| CartRoutes.CartStore.DeleteOwnedBy | backend/routes/checkoutRoutes.js:103 | The first cart of the owner is deleted, keeping the invariant |
| AdminOrderRoutes.ApplyStatus | backend/routes/adminOrderRoutes.js:31-42 | The status becomes the requested one if given, else stays. isDelivered is true exactly when "delivered" is requested, and only then is deliveredAt stamped. Nothing else changes. On a valid order the save fails (500) iff the status is outside the enumeration |
| AdminOrderRoutes.ApplyStatusIdempotent | backend/routes/adminOrderRoutes.js:31-42 | Repeating an update with the same request and clock gives the same order |
| AdminOrderRoutes.OmittedStatusUndelivers | backend/routes/adminOrderRoutes.js:31-40 | An update without a status marks a delivered order undelivered, keeping its status and deliveredAt |
| AdminOrderRoutes.CanceledIsRefused | backend/routes/adminOrderRoutes.js:31-42 | Requesting "canceled" fails validation with the enumeration message |
| AdminOrderRoutes.OrderLedger.Insert | backend/routes/checkoutRoutes.js:85-96 | A created order gets a fresh id and no other order changes |
| AdminOrderRoutes.OrderLedger.UpdateStatus | backend/routes/adminOrderRoutes.js:25-51 | A missing order answers 404 and nothing changes; otherwise the reply is the status update, saved only when it validates |
| AdminOrderRoutes.OrderLedger.Delete | backend/routes/adminOrderRoutes.js:56-67 | A missing order answers 404; otherwise exactly that order is removed |
| CheckoutRoutes.AggregateQuantity | backend/routes/checkoutRoutes.js:28 | The aggregate is a number iff every item has a quantity, and then it is the sum of the quantities |
| CheckoutRoutes.CreateReply | backend/routes/checkoutRoutes.js:13-38 | A missing or empty item list answers 400 "No items in the cart.". A created checkout has items, belongs to the caller, stores the address, method and total verbatim, and starts unpaid, "pending", unfinalized. With a non-empty list, every failure is 500 "Server error". A non-empty list gives a created checkout iff the schema accepts the document. The stored items are the request items as the schema casts them |
| CheckoutRoutes.AsWrittenStoresEmptyCheckout | backend/routes/checkoutRoutes.js:16-29 | As written, an empty item list is answered with 400 and still stored; the corrected create stores nothing |
| CheckoutRoutes.PayStep | backend/routes/checkoutRoutes.js:54-66 | Any status but "paid" answers 400 "Invalid payment status"; "paid" always succeeds. "paid" sets isPaid, paymentStatus, paymentDetails and paidAt. isFinalized and every other field are untouched, and validity and the stage invariant are kept |
| CheckoutRoutes.FinalizeStep | backend/routes/checkoutRoutes.js:83-110 | Succeeds only when paid and not finalized; then it marks the checkout finalized and builds a valid order. The order copies user, items, address, method, total and paidAt, and is paid, undelivered and "processing". Otherwise it answers "already finalized" or "not paid" (400), or 500 when order validation fails |
| CheckoutRoutes.AtMostOneOrder | backend/routes/checkoutRoutes.js:54-110 | Across any sequence of pay and finalize requests a checkout yields at most one order, and none if it was already finalized. After an order it is finalized, paid and finalized are never unset, and finalized implies paid |
| CheckoutRoutes.PayThenFinalizeOrders | backend/routes/checkoutRoutes.js:54-104 | A valid, unfinalized checkout with a payment method, paid and then finalized, yields exactly one order. The order carries the payment time, items, user and total |
| CheckoutRoutes.NoOrderUnlessPaid | backend/routes/checkoutRoutes.js:54-96 | The checkout is paid, or has an order, only if it was paid to begin with or a "paid" request arrived |
| CheckoutRoutes.OrdersCopyTheCheckout | backend/routes/checkoutRoutes.js:85-96 | Every order a checkout yields is valid, paid, undelivered and carries the checkout's user, items and total |
| CheckoutRoutes.CheckoutStore.Create | backend/routes/checkoutRoutes.js:13-38 | The reply is the corrected create; only a created checkout is stored, under a fresh id |
| CheckoutRoutes.CheckoutStore.Get | backend/routes/checkoutRoutes.js:123-135 | Answers the stored checkout iff the id exists, else 404 "Checkout not found" |
| CheckoutRoutes.CheckoutStore.Pay | backend/routes/checkoutRoutes.js:44-71 | A missing checkout answers 404 and nothing changes; otherwise the pay step is applied and saved only on success |
| CheckoutRoutes.CheckoutStore.Finalize | backend/routes/checkoutRoutes.js:77-115 | A missing checkout answers 400 "Checkout is not found". On success it saves the finalized checkout, inserts the one order into the ledger and deletes the user's first cart. Any failure changes no store |
| AdminOrderSlice.RowIndex | frontend/src/redux/slices/adminOrderSlice.js:84 | `findIndex` by id gives the first row with that id, or -1 |
| AdminOrderSlice.WithoutId | frontend/src/redux/slices/adminOrderSlice.js:91 | `filter` keeps exactly the rows with another id; with no such row the list is unchanged |
| AdminOrderSlice.WithoutIdConcat | frontend/src/redux/slices/adminOrderSlice.js:91 | The filter distributes over concatenation, so the survivors keep their order |
| AdminOrderSlice.SalesTotalConcat | frontend/src/redux/slices/adminOrderSlice.js:73 | The sales `reduce` distributes over concatenation |
| AdminOrderSlice.DeleteLowersSales | frontend/src/redux/slices/adminOrderSlice.js:90-92 | When every order has a positive total, deleting a listed id lowers the list's sum; the delete reducer leaves totalSales at the old value, so it goes stale |
| AdminOrderSlice.AdminOrders.constructor | frontend/src/redux/slices/adminOrderSlice.js:52-58 | The initial state: no orders, zero totals, not loading, no error |
| AdminOrderSlice.AdminOrders.FetchPending | frontend/src/redux/slices/adminOrderSlice.js:62-65 | Sets loading and clears the error, nothing else |
| AdminOrderSlice.AdminOrders.FetchFulfilled | frontend/src/redux/slices/adminOrderSlice.js:66-74 | The payload becomes the list; totalOrders is its length and totalSales the sum of its totals; loading and error are cleared |
| AdminOrderSlice.AdminOrders.FetchRejected | frontend/src/redux/slices/adminOrderSlice.js:75-78 | The error is the payload's message, or 'Failed to fetch orders'; the list and totals stay |
| AdminOrderSlice.AdminOrders.UpdateFulfilled | frontend/src/redux/slices/adminOrderSlice.js:80-88 | The row with the updated id is replaced where it stands. With no match the list is unchanged. The length, other rows and totals are kept |
| AdminOrderSlice.AdminOrders.DeleteFulfilled | frontend/src/redux/slices/adminOrderSlice.js:90-92 | Every row with the id is removed; the totals are not recomputed |
| Lifecycle.BuyNow | backend/routes/checkoutRoutes.js:77-104 | Adding a product to an empty cart, checking out its items, paying and finalizing gives exactly one order: the snapshot item, price × quantity, paid, undelivered, "processing". Afterwards the buyer has no cart |

## Left out

- The regex search clause of the product listing (backend/routes/productRoutes.js:205-210) is not modelled.
- Product, Cart and User schemas are not part of this model:
  - validation failures of a saved product or cart are not modelled;
  - neither are the 500 answers that storage or cast errors lead to, except two in the product listing: the refused "featured" sort and the failed price cast (Products.Find).
- Storage, populate, network and timing are not modelled:
  - each handler is one atomic step on in-memory collections;
  - races between concurrent requests are not modelled.
- Authentication, JWT verification and the admin check are not modelled; the signed-in user's id is a parameter.
- Ids are strings (products, cart owners) or naturals handed out by a counter (checkouts, orders). A malformed ObjectId is not modelled.
- JavaScript `Number` and `parseInt` are modelled on optionally signed decimal integers. Whitespace, fractions, exponents, hexadecimal and Infinity are not modelled.
- Prices are integer cents, not floating point.
- Request values that are arrays, objects or `null` where a string is expected are not modelled.
- A quantity sent as a string (which `+=` would concatenate) is not modelled.
- A merge request without a `guestId` is not modelled. Its query would then match any cart.
- A negative skip or limit in the admin listing is left to the database: such a page has no products in the model.
- `createdAt`, `updatedAt` and the GET routes that only list documents are not modelled:
  - GET all orders for the admin;
  - best-seller, new arrivals and similar listings.
- The axios thunks of the admin order list are not modelled; their outcomes are the reducer methods' parameters.
- Products.Find: the listing's sort order and limit are not applied. It states which products are selected, not their order or how many are returned.
- Exceptions thrown after a reply is sent are not modelled. They do not change the reply or the stored documents:
  - after every 500 from the cart add, `res.status(200).json(newCart)` (backend/routes/cartRoutes.js:92) runs outside the block that declares `newCart` and throws a ReferenceError;
  - after the 400 in checkout create (backend/routes/checkoutRoutes.js:17), the 201 send and then the catch's 500 send throw ERR_HTTP_HEADERS_SENT.
- The exact wording of Mongoose's sort error follows its `Query.sort` value check. The model does not track the Mongoose version.
- Products.ApplyUpdate: its contract states only the falsy-value rules (0 keeps the price, `false` sticks). The per-field merge is in its body and in ProductStore.Update.
- AdminOrderRoutes.ApplyStatus: a validation failure caused by a field other than `status` gets the fixed message "Order validation failed", not Mongoose's full text.

## Findings

| source | as written | input that shows it | evidently intended | confidence | as-written member | corrected member |
|---|---|---|---|---|---|---|
| backend/routes/checkoutRoutes.js:16-20 | The 400 for a missing or empty item list is sent without `return`. With an empty list, `Checkout.create` still runs and stores a checkout with no items | A signed-in user posts `checkoutItems: []` with a complete shipping address | Stop after the 400 and store nothing | high; not executed | CheckoutRoutes.AsWrittenStoresEmptyCheckout | CheckoutRoutes.CreateReply |
| backend/routes/cartRoutes.js:193-228 | When the guest cart and the user cart are the same document, the guest items are folded into that cart, doubling it. The cart is saved, then deleted by the guest-id lookup, and the reply is still 200 | One cart {user u1, guestId guest_1, [Tee M Red × 2]}, merged by u1 with guestId guest_1 | Nothing to merge; the user keeps the cart | high; not executed | CartRoutes.AsWrittenMergeLosesUserCart | CartRoutes.CorrectedMergeKeepsSharedCart |
