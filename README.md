# ddd-micro core, modelled in Dafny

This project models the domain core of the ddd-micro e-commerce system. The system has four services (basket, product, payment and user) and a browser client. The model covers:

- **Basket.** The basket aggregate keeps at most one line per product, a running total, a deadline after which it refuses changes, and line validation. Its command handlers get or create a basket, add, update, remove and clear lines, and describe the basket in a response.
- **Product.** The product, variant and category entities have guarded stock counters, validity predicates and one-field flag setters. The product command handlers and the product service build, partially update, validate and save products. A failure in them never writes.
- **Payment.** The payment entity has a six-state status with cancellability and refundability rules and ordered field validation. The handlers create, process and cancel payments and add, update and delete payment methods. The queries page listings and check ownership. The payment service validates a purchase against a basket, or a product and quantity. Making a method the user's default leaves it that user's only default; adding or updating a method with the default mark can leave two.
- **User.** User accounts have a role check and role assignment that ignores invalid roles. The login decision checks in a fixed order. Updates keep a field when it is empty. The user service answers without the password.
- **Client.** The browser client keeps its session in local storage, under the keys "auth_token" and "user". Its interceptors add the bearer header (section 2.1 of RFC 6750) and forget the session on a 401. The basket service's bulk helpers send one call per element and stop at the first rejection.

Entities that the source updates in place, through Go pointer receivers, are Dafny classes: `Basket`, `Product`, `ProductVariant`, `Category`, `Payment`, `PaymentMethodInfo` and `User`.

- Each class has a `Row()`/`State()` function giving its stored form as a datatype.
- Each mutator's contract states the whole new row.

Repositories are classes over maps.

- Redis and SQL reads that fail are the flag `available`.
- Writes that are refused are the flag `writable`. The payment-method table's bulk update of default marks has its own flag, `bulkWritable`, because it is a separate statement.
- Not-found, duplicate and set-all-non-default behave as the persistence code does.

Collaborators are inputs of the operations that use them:

- the product and basket services reached over gRPC;
- the payment gateway;
- the password hasher and comparer, and the token generator;
- the clock (`now`);
- the store's answer to a filtered listing;
- `JSON.parse`/`JSON.stringify`;
- each HTTP reply the client receives.

Money is integer cents and times are integer seconds.

## Model

| member | source | states |
|---|---|---|
| BasketDomain.FirstIndex | internal/basket/domain/basket.go:52-53 | the position found is the first line holding the product; none means no line holds it |
| BasketDomain.ItemError | internal/basket/domain/basket.go:164-182 | an item passes iff product id non-zero, quantity positive, unit price non-negative and basket id set; otherwise the first failing check, in the order product id, quantity, unit price, basket id, names the error |
| BasketDomain.BasketValidation | internal/basket/domain/basket.go:145-161 | a missing user id, then a missing basket id, then the first invalid line decide the error; none iff all pass |
| BasketDomain.ItemErrorIsFirst | internal/basket/domain/basket.go:154-158 | when line i is the first failing line, the basket reports exactly that line's error |
| BasketDomain.Basket.CalculateTotal | internal/basket/domain/basket.go:41-47 | the total becomes the sum of the lines' total prices and nothing else changes |
| BasketDomain.Basket.AddItem | internal/basket/domain/basket.go:50-72 | the lines become the merge of the product into the old lines (grow the first match, else append a new line carrying the basket id) and the total is their sum; nothing else changes |
| BasketDomain.MergedKeepsUnique | internal/basket/domain/basket.go:52-70 | adding never creates a second line for a product; the line count grows by one exactly when the product was absent |
| BasketDomain.MergedEffect | internal/basket/domain/basket.go:50-72 | adding puts exactly `quantity` more units of the product and none of any other product; the total grows by quantity times the stored unit price when the product was present (the new price is ignored) and lines stay priced |
| BasketDomain.MergedAppendsNewLine | internal/basket/domain/basket.go:62-70 | for an absent product the old lines are kept in place and one line with the basket id, quantity and price is appended |
| BasketDomain.Basket.RemoveItem | internal/basket/domain/basket.go:75-84 | the first line of the product is dropped and the total recomputed; with no such line the basket is untouched, total included |
| BasketDomain.WithoutIsOthers | internal/basket/domain/basket.go:76-80 | on a basket with one line per product, removing keeps exactly the other products' lines in order |
| BasketDomain.RemovedIsGone | internal/basket/domain/basket.go:75-84 | after removal the product has no units, every other product keeps its units, and lines stay unique |
| BasketDomain.Basket.UpdateItemQuantity | internal/basket/domain/basket.go:87-102 | a non-positive quantity is refused first, an absent product next, both leaving the basket as it was; otherwise the line gets the quantity re-priced at its unit price and the total is recomputed |
| BasketDomain.RequantifiedEffect | internal/basket/domain/basket.go:92-97 | a successful update leaves the product with exactly the new quantity, other lines untouched, lines unique and priced |
| BasketDomain.Basket.Clear | internal/basket/domain/basket.go:105-108 | no lines and a zero total remain, the basket is empty, every other field is kept |
| BasketDomain.Basket.GetItemCount | internal/basket/domain/basket.go:116-122 | the count is the sum of the lines' quantities |
| BasketDomain.EmptyIffNoUnits | internal/basket/domain/basket.go:111-122 | with positive quantities a basket has no lines exactly when its item count is zero, and the count is at least the number of lines |
| BasketDomain.Basket.SetExpiration | internal/basket/domain/basket.go:125-132 | the deadline becomes now plus the duration, and the basket is not expired at now exactly when the duration is non-negative |
| BasketDomain.Basket.GetItemByProductID | internal/basket/domain/basket.go:135-142 | none iff no line holds the product; otherwise a copy of the first line that does |
| BasketDomain.Basket.Validate | internal/basket/domain/basket.go:145-161 | the result is the basket validation of its user id, id and lines |
| BasketStore.BasketRepository.Lookup | internal/basket/infrastructure/persistence/basket_repository.go:71-87 | found iff the store answers and holds the id; a missing key is the store's own not-found error, an outage is an outage |
| BasketStore.BasketRepository.LookupByUser | internal/basket/infrastructure/persistence/basket_repository.go:91-103 | the user's mapping then the basket it names; a missing mapping is the store's not-found error |
| BasketStore.BasketRepository.ExistsByUserID | internal/basket/infrastructure/persistence/basket_repository.go:236-242 | answers whether the user has a mapping, or fails on an outage |
| BasketStore.BasketRepository.GetByID | internal/basket/infrastructure/persistence/basket_repository.go:71-87 | a fresh basket equal to the stored one, or the lookup's error |
| BasketStore.BasketRepository.GetByUserID | internal/basket/infrastructure/persistence/basket_repository.go:91-103 | a fresh basket equal to the user's stored one, or the lookup's error |
| BasketStore.BasketRepository.Create | internal/basket/infrastructure/persistence/basket_repository.go:33-67 | an empty id gets a fresh one and a zero deadline becomes a day ahead; a refused write leaves the store as it was, otherwise the basket and the user's mapping are stored |
| BasketStore.BasketRepository.Update | internal/basket/infrastructure/persistence/basket_repository.go:107-131 | stamps the update time, then stores the basket and its user's mapping, or leaves the store as it was on a refused write |
| BasketStore.BasketRepository.AddItem | internal/basket/infrastructure/persistence/basket_repository.go:175-183 | a lookup error is returned with nothing changed; otherwise the stored basket becomes the domain add applied to it |
| BasketStore.BasketRepository.UpdateItem | internal/basket/infrastructure/persistence/basket_repository.go:187-198 | a lookup error or the domain update's error is returned with nothing changed; otherwise the stored basket gets the new quantity |
| BasketStore.BasketRepository.RemoveItem | internal/basket/infrastructure/persistence/basket_repository.go:202-210 | the stored basket loses the product's first line, and is rewritten even when the product was absent |
| BasketStore.BasketRepository.ClearItems | internal/basket/infrastructure/persistence/basket_repository.go:214-222 | the stored basket is emptied with a zero total |
| BasketCommands.MapToResponse | internal/basket/application/command/add_item.go:114-139 | the response copies id, owner, total and times, lists every line in order, counts the units and flags expiry at now |
| BasketCommands.DescribesUnique | internal/basket/application/command/add_item.go:114-139 | a stored basket has exactly one response at a given instant |
| BasketCommands.EffectiveUnitPrice | internal/basket/application/command/add_item.go:53-57 | a non-zero requested price is kept, a zero one is replaced by the product's price |
| BasketCommands.CreateBasket | internal/basket/application/command/create_basket.go:30-71 | an existing basket is answered unchanged; otherwise a fresh empty basket living a day is validated and stored; store errors pass through with nothing stored |
| BasketCommands.CreateBasketIdempotent | internal/basket/application/command/create_basket.go:32-44 | creating twice answers the same both times and stores at most one new basket |
| BasketCommands.GetOrCreate | internal/basket/application/command/add_item.go:59-77 | the user's basket when found; a lookup error counted as not-found creates an empty day-long basket; any other error is returned with nothing stored |
| BasketCommands.AddItemWith | internal/basket/application/command/add_item.go:36-111 | product validation, stock check and price lookup fail first in that order with nothing stored; then expiry, item validation and the store decide, and on success the response describes the stored basket with the line added |
| BasketCommands.AddToUserBasket | internal/basket/application/command/add_item.go:59-110 | for a found basket: expiry, item error or refused write leave the store unchanged, else the line is merged; for a created basket the creation is kept even when the item is then refused |
| BasketCommands.AddLine | internal/basket/application/command/add_item.go:79-110 | the expiry gate, then item validation, then the store's add and re-read, with the stored basket and response following the domain add |
| BasketCommands.AddItem | internal/basket/application/command/add_item.go:60-77 | as written, a user without a basket gets the store's not-found error and nothing is stored |
| BasketCommands.AddItemToNewUserFails | internal/basket/application/command/add_item.go:62 | on an empty store, adding a valid item for a new user fails with the store's not-found error |
| BasketCommands.AddItemCorrected | internal/basket/application/command/add_item.go:60-77 | reading either not-found error as "no basket yet" maps the user to a new day-long basket holding exactly the requested units when the item is valid |
| BasketCommands.UpdateItem | internal/basket/application/command/update_item.go:30-62 | lookup error, expiry, non-positive quantity, absent product and refused write fail in that order with nothing stored; otherwise exactly that line's quantity changes |
| BasketCommands.RemoveItem | internal/basket/application/command/remove_item.go:29-54 | lookup error, expiry and refused write fail in that order; otherwise the product's line is dropped, an absent product being no error |
| BasketCommands.ClearBasket | internal/basket/application/command/clear_basket.go:28-53 | lookup error, expiry and refused write fail in that order; otherwise the basket keeps id, owner and deadline and holds nothing |
| BasketDomain.Basket.FromState | internal/basket/domain/basket.go:8-16 | the in-memory basket holds exactly the deserialised state |
| BasketStore.BasketRepository.constructor | internal/basket/infrastructure/persistence/basket_repository.go:26-30 | a new repository holds no baskets and no user mappings, answers reads and accepts writes |
| ProductDomain.Reduced | internal/product/domain/product.go:120-129 | a non-positive amount is refused first, an amount above the stock next; it succeeds exactly when 0 < amount <= stock, leaving stock minus amount, never negative |
| ProductDomain.Increased | internal/product/domain/product.go:132-138 | succeeds exactly for a positive amount, leaving stock plus amount; otherwise the invalid-amount error |
| ProductDomain.IncreaseThenReduce | internal/product/domain/product.go:120-138 | putting in an amount and taking the same amount out restores the stock |
| ProductDomain.StockStaysNonNegative | internal/product/domain/product.go:120-138 | from a non-negative stock, a successful reduction stays non-negative and an increase becomes positive |
| ProductDomain.ProductRow.ValidateProduct | internal/product/domain/product.go:222-260 | passes exactly when all twelve field checks hold (name and SKU lengths, optional barcode and dimension lengths, short description, non-negative price, stock, weight, cost and minimum, compare price at least the price, zero or ordered maximum); every failure is the same invalid-data error |
| ProductDomain.AvailabilityRules | internal/product/domain/product.go:141-148 | in stock means positive stock on an active product, and available is the same test |
| ProductDomain.StockThresholds | internal/product/domain/product.go:151-219 | low stock needs a positive minimum, over stock a positive maximum; a valid product is never both; digital and physical are complementary |
| ProductDomain.DefaultComparePriceRejected | internal/product/domain/product.go:89-92 | a priced product whose compare price is left at zero fails validation |
| ProductDomain.Product.AssignIdentity | internal/product/infrastructure/persistence/product_repository.go:39-42 | inserting assigns the id and both timestamps and changes nothing else |
| ProductDomain.Product.Activate | internal/product/domain/product.go:110-112 | sets the active flag, nothing else |
| ProductDomain.Product.Deactivate | internal/product/domain/product.go:115-117 | clears the active flag, nothing else |
| ProductDomain.Product.ReduceStock | internal/product/domain/product.go:120-129 | the entity's stock follows the reduction rule; on refusal nothing changes |
| ProductDomain.Product.IncreaseStock | internal/product/domain/product.go:132-138 | the entity's stock follows the increase rule; on refusal nothing changes |
| ProductDomain.Product.MarkAsFeatured | internal/product/domain/product.go:182-184 | sets the featured flag, nothing else |
| ProductDomain.Product.UnmarkAsFeatured | internal/product/domain/product.go:187-189 | clears the featured flag, nothing else |
| ProductDomain.Product.MarkAsOnSale | internal/product/domain/product.go:192-194 | sets the on-sale flag, nothing else |
| ProductDomain.Product.UnmarkAsOnSale | internal/product/domain/product.go:197-199 | clears the on-sale flag, nothing else |
| ProductDomain.Product.IncrementViewCount | internal/product/domain/product.go:202-204 | the view count grows by one, nothing else changes |
| ProductDomain.Product.SetSortOrder | internal/product/domain/product.go:207-209 | sets the sort order, nothing else |
| ProductVariants.VariantRow.ValidateVariant | internal/product/domain/variant.go:129-146 | passes exactly when name and SKU lengths are in range and price, stock and weight are non-negative; every failure is the invalid-data error |
| ProductVariants.EffectivePriceRule | internal/product/domain/variant.go:61-80 | the variant's own positive price (weight) wins, else the loaded parent's, else zero |
| ProductVariants.EffectiveValuesNonNegative | internal/product/domain/variant.go:61-80 | a valid variant of a valid parent never has a negative effective price or weight |
| ProductVariants.OwnPriceIgnoresParent | internal/product/domain/variant.go:62-64 | with its own positive price the parent does not matter |
| ProductVariants.VariantAvailability | internal/product/domain/variant.go:83-90 | in stock means positive stock and active, and available is the same test |
| ProductVariants.ProductVariant.ReduceStock | internal/product/domain/variant.go:93-102 | the variant's stock follows the product reduction rule; on refusal nothing changes |
| ProductVariants.ProductVariant.IncreaseStock | internal/product/domain/variant.go:105-111 | the variant's stock follows the product increase rule; on refusal nothing changes |
| ProductVariants.ProductVariant.Activate | internal/product/domain/variant.go:114-116 | sets the active flag, nothing else |
| ProductVariants.ProductVariant.Deactivate | internal/product/domain/variant.go:119-121 | clears the active flag, nothing else |
| ProductVariants.ProductVariant.SetSortOrder | internal/product/domain/variant.go:124-126 | sets the sort order, nothing else |
| ProductCategories.CategoryShape | internal/product/domain/category.go:43-55 | root and child are complementary on the parent link; having children means a non-empty list |
| ProductCategories.CategoryNameAndSlug | internal/product/domain/category.go:33-40 | name and slug each admit 1 to 255 characters |
| ProductCategories.Category.Activate | internal/product/domain/category.go:58-60 | sets the active flag, nothing else |
| ProductCategories.Category.Deactivate | internal/product/domain/category.go:63-65 | clears the active flag, nothing else |
| ProductCategories.Category.SetSortOrder | internal/product/domain/category.go:68-70 | sets the sort order, nothing else |
| ProductStore.Stamped | internal/product/infrastructure/persistence/product_repository.go:78-79 | a saved row differs from the entity only in its update time, which is now |
| ProductStore.ProductRepository.Lookup | internal/product/infrastructure/persistence/product_repository.go:48-60 | found iff the database answers and holds the id; a missing row is the store's not-found error |
| ProductStore.ProductRepository.Exists | internal/product/infrastructure/persistence/product_repository.go:157-169 | answers whether some stored row carries the SKU, or fails when the database cannot be read |
| ProductStore.ProductRepository.GetByID | internal/product/infrastructure/persistence/product_repository.go:48-60 | a fresh entity equal to the stored row, or the lookup's error |
| ProductStore.ProductRepository.Create | internal/product/infrastructure/persistence/product_repository.go:29-45 | a failed read, a taken SKU or a refused write stores nothing and leaves the entity alone; otherwise the product gets the next unused id and both stamps and is stored |
| ProductStore.ProductRepository.Update | internal/product/infrastructure/persistence/product_repository.go:78-89 | stamps the entity; a refused write or an unknown id saves nothing; otherwise every column of the row is saved |
| ProductStore.ProductRepository.UpdateStock | internal/product/infrastructure/persistence/product_repository.go:172-187 | only the stock column (and the stamp) of a stored row changes, to any value; an unknown id is not-found |
| ProductCommands.CreateCopiesCommand | internal/product/application/command/create_product.go:53-80 | the new product carries every command field unchanged, is active and has no views |
| ProductCommands.CreateProduct | internal/product/application/command/create_product.go:51-93 | an invalid product never reaches the store; then an unreadable store, a taken SKU and a refused write fail in that order with nothing stored; otherwise the stored and returned product is the command's, active, valid, with the next id and both stamps |
| ProductCommands.PatchesCompose | internal/product/application/command/update_product.go:59-134 | two partial updates in a row equal one whose given fields are the later ones |
| ProductCommands.PatchIdempotent | internal/product/application/command/update_product.go:59-134 | repeating a partial update changes nothing more |
| ProductCommands.PatchKeepsIdentity | internal/product/application/command/update_product.go:59-134 | id, SKU, view count and timestamps are out of an update's reach, and a command with no fields leaves the product as it was |
| ProductCommands.UpdateProduct | internal/product/application/command/update_product.go:52-147 | a lookup error is returned; a patched product that fails validation is not saved; otherwise the patched product, stamped, is saved and returned |
| ProductCommands.UpdateStock | internal/product/application/command/update_stock.go:28-30 | the stored stock becomes the given value, negative or not, with no domain check |
| ProductCommands.ReduceStock | internal/product/application/command/update_stock.go:51-62 | a lookup error or the domain refusal saves nothing; otherwise the stored stock drops by the amount |
| ProductCommands.IncreaseStock | internal/product/application/command/update_stock.go:83-94 | a lookup error or a non-positive amount saves nothing; otherwise the stored stock grows by the amount |
| ProductCommands.ToggleRules | internal/product/application/command/activate_product.go:27-139 | each flag handler sets one flag to a fixed value and touches nothing else, so repeating it changes nothing more |
| ProductCommands.ToggleProduct | internal/product/application/command/activate_product.go:27-139 | a lookup error is returned; otherwise the row with the flag set and stamped is saved and returned, or nothing is saved on a refused write |
| ProductCommands.ViewedTwice | internal/product/application/command/activate_product.go:159-168 | two views add two to the counter and change nothing else but the stamp |
| ProductCommands.IncrementViewCount | internal/product/application/command/activate_product.go:159-168 | a lookup error is returned; otherwise the stored counter grows by one |
| ProductService.ResponseRoundTrip | internal/product/application/product_service.go:368-401 | the response copies every stored field one-to-one: converting a row to a response and back gives the row, and the other way round |
| ProductService.CreateProduct | internal/product/application/product_service.go:31-73 | an invalid product is refused with the invalid-data error before the store; success happens exactly when the product is valid, the store is up, the SKU is free and the write succeeds, and then the answer describes the stored row with the fresh id, active flag and creation time; a failure stores nothing |
| ProductService.UpdateProduct | internal/product/application/product_service.go:96-191 | a lookup error is returned with no write; otherwise the patched product (present fields replaced, absent kept) is validated before saving, success happens exactly when it is valid and the write succeeds, and the answer is the saved row |
| ProductService.ToggleProductFlag | internal/product/application/product_service.go:292-353 | activate, deactivate, mark and unmark featured: a lookup error is returned with no write; otherwise success happens exactly when the write succeeds, and the answer is the stored row with only that flag and the update time changed |
| ProductService.ListProducts | internal/product/application/product_service.go:199-256 | a store error is returned; otherwise one response per listed product in the listed order, the total being the page's length, with the requested offset and limit echoed |
| ProductDomain.Product.FromRow | internal/product/domain/product.go:10-47 | the in-memory product holds exactly the loaded row |
| ProductDomain.Product.StampCreation | internal/product/infrastructure/persistence/product_repository.go:39 | inserting sets both timestamps to the insertion time and nothing else |
| ProductVariants.ProductVariant.FromRow | internal/product/domain/variant.go:10-33 | the in-memory variant holds exactly the loaded row |
| ProductCategories.Category.FromRow | internal/product/domain/category.go:10-25 | the in-memory category holds exactly the loaded row |
| ProductStore.ProductRepository.constructor | internal/product/infrastructure/persistence/product_repository.go:22-26 | a new repository holds no products, hands out id 1 first, answers reads and accepts writes |
| ProductStore.ProductRepository.Insert | internal/product/infrastructure/persistence/product_repository.go:39-44 | the row is stored under the next id, the counter advances and nothing else changes |
| PaymentDomain.FirstFailure | internal/payment/domain/payment.go:179-239 | the ordered-validation scheme the three validators share: no error exactly when every check passes, otherwise the error of a failing check all of whose predecessors pass |
| PaymentDomain.FirstFailureStep | internal/payment/domain/payment.go:179-239 | one step of the scan: a failing head check decides, a passing one defers to the rest |
| PaymentDomain.PaymentRow.Validate | internal/payment/domain/payment.go:179-205 | passes exactly when user id, order id, positive amount, currency, method and provider are all present; a zero user id is always the reported error; the provider error is only reported once all earlier checks pass |
| PaymentDomain.PaymentValidateIsFirstFailure | internal/payment/domain/payment.go:179-205 | the payment check reports the first failure among user id, order id, amount, currency, method and provider, in that order |
| PaymentDomain.MethodRow.Validate | internal/payment/domain/payment.go:208-222 | passes exactly when user id, type and provider are present; a zero user id is the reported error |
| PaymentDomain.FirstFailureOfThree | internal/payment/domain/payment.go:208-239 | a sequence of three checks reports the first failing one, and none when all three pass |
| PaymentDomain.MethodValidateIsFirstFailure | internal/payment/domain/payment.go:208-222 | the method check reports the first failure among user id, type and provider, in that order |
| PaymentDomain.RefundRow.Validate | internal/payment/domain/payment.go:225-239 | passes exactly when the payment id, a positive amount and a reason are present; a missing payment id is the reported error |
| PaymentDomain.RefundValidateIsFirstFailure | internal/payment/domain/payment.go:225-239 | the refund check reports the first failure among payment id, amount and reason, in that order |
| PaymentDomain.CountTrue | internal/payment/domain/payment.go:98-125 | counts the status predicates that hold, never more than there are |
| PaymentDomain.ExactlyOneStatus | internal/payment/domain/payment.go:98-125 | a status that is one of the six constants makes exactly one status predicate hold, and any other status text makes none hold |
| PaymentDomain.LifecycleRules | internal/payment/domain/payment.go:128-135 | cancellable exactly when pending or processing, refundable exactly when completed (the not-refunded conjunct adds nothing), and never both |
| PaymentDomain.FreshDeadlineNotExpired | internal/payment/domain/payment.go:165-176 | a payment without a deadline never expires, and a deadline set a non-negative duration after now has not passed at now |
| PaymentDomain.Payment.FromRow | internal/payment/domain/payment.go:31-53 | builds the in-memory payment holding exactly the given row |
| PaymentDomain.Payment.SetCompleted | internal/payment/domain/payment.go:138-142 | from any status, the status becomes completed and the completion time now; nothing else changes |
| PaymentDomain.Payment.SetFailed | internal/payment/domain/payment.go:145-147 | from any status, only the status changes, to failed |
| PaymentDomain.Payment.SetProcessing | internal/payment/domain/payment.go:150-152 | from any status, only the status changes, to processing |
| PaymentDomain.Payment.SetCancelled | internal/payment/domain/payment.go:155-157 | from any status, only the status changes, to cancelled |
| PaymentDomain.Payment.SetRefunded | internal/payment/domain/payment.go:160-162 | from any status, only the status changes, to refunded |
| PaymentDomain.Payment.SetExpiration | internal/payment/domain/payment.go:165-168 | only the deadline changes, to now plus the duration |
| PaymentDomain.PaymentMethodInfo.FromRow | internal/payment/domain/payment.go:56-68 | builds the in-memory payment method holding exactly the given row |
| PaymentStore.NonDefaultFor | internal/payment/infrastructure/persistence/payment_method_repository.go:120-126 | the method table after the user's bulk update: the same ids, every method of that user with its default mark cleared and its update time stamped, nothing else changed, every other user's method untouched |
| PaymentStore.PaymentRepository.constructor | internal/payment/infrastructure/persistence/payment_repository.go:17-22 | an empty, readable and writable payment table |
| PaymentStore.PaymentRepository.Lookup | internal/payment/infrastructure/persistence/payment_repository.go:32-42 | finds a stored payment exactly when the table is readable and the id is present; an absent id answers the domain's payment-not-found error |
| PaymentStore.PaymentRepository.GetByID | internal/payment/infrastructure/persistence/payment_repository.go:32-42 | a fresh payment object holding the stored row, or the lookup's error |
| PaymentStore.PaymentRepository.Create | internal/payment/infrastructure/persistence/payment_repository.go:24-30 | inserts the payment under its id when the write succeeds and the id is free; otherwise a write error and nothing stored |
| PaymentStore.PaymentRepository.Update | internal/payment/infrastructure/persistence/payment_repository.go:93-100 | stamps the update time on the payment, then saves every column over the stored row with its id; an unknown id writes nothing and answers no error, since the code ignores the affected-row count; a refused write changes nothing in the table |
| PaymentStore.PaymentMethodRepository.constructor | internal/payment/infrastructure/persistence/payment_method_repository.go:17-22 | an empty, readable and writable method table |
| PaymentStore.PaymentMethodRepository.Lookup | internal/payment/infrastructure/persistence/payment_method_repository.go:32-42 | finds a stored method exactly when the table is readable and the id is present; an absent id answers the method-not-found error |
| PaymentStore.PaymentMethodRepository.GetByID | internal/payment/infrastructure/persistence/payment_method_repository.go:32-42 | a fresh method object holding the stored row, or the lookup's error |
| PaymentStore.PaymentMethodRepository.Create | internal/payment/infrastructure/persistence/payment_method_repository.go:24-30 | inserts the method under its id when the write succeeds and the id is free; otherwise a write error and nothing stored |
| PaymentStore.PaymentMethodRepository.Update | internal/payment/infrastructure/persistence/payment_method_repository.go:65-72 | stamps the update time on the method, then saves it over the stored row with its id; an unknown id writes nothing and answers no error; a refused write changes nothing in the table |
| PaymentStore.PaymentMethodRepository.Delete | internal/payment/infrastructure/persistence/payment_method_repository.go:74-80 | removes the id, present or not, or fails with nothing changed |
| PaymentStore.PaymentMethodRepository.SetAllNonDefault | internal/payment/infrastructure/persistence/payment_method_repository.go:120-126 | clears the default mark on all of the user's methods and stamps them in one statement, or fails with nothing changed; the single-row write flag plays no part |
| PaymentResponses.ResponseForgetsOnlyTarget | internal/payment/application/command/process_payment.go:59-74 | the stored-payment response copies every column except the return and cancel URLs and the purchase target, and leaves the payment URL and client secret empty: two payments answer alike exactly when they differ in nothing else |
| PaymentResponses.MethodResponseRoundTrip | internal/payment/application/command/add_payment_method.go:73-85 | the method response mirrors every column of the record: converting a record to a response and back gives the record, and the other way round |
| PaymentCommands.Charge | internal/payment/application/command/create_payment.go:71-73 | records the gateway's transaction id and data on the payment, nothing else |
| PaymentCommands.NewPaymentShape | internal/payment/application/command/create_payment.go:44-58 | a new payment is pending and cancellable, has provider "stripe" and no transaction id or URLs, expires exactly 24 hours after now (not expired at now, expired a second after the deadline), and its validation can never fail on the provider, passing exactly when the command's fields are present and the amount is positive |
| PaymentCommands.CreatePayment | internal/payment/application/command/create_payment.go:42-99 | validation runs before the gateway: an invalid payment reports the first failing check with no gateway call and nothing stored; a gateway error stores nothing; otherwise the payment carrying the gateway's transaction id and data is inserted when the write succeeds, and the answer echoes it with the gateway's payment URL and client secret |
| PaymentCommands.ProcessedKeepsCompletionTime | internal/payment/application/command/process_payment.go:48-51 | processing takes the gateway's status as given, so the payment counts as completed exactly when the gateway says so, yet no completion time is recorded; only the status, transaction id, data and update time change |
| PaymentCommands.ProcessPayment | internal/payment/application/command/process_payment.go:35-75 | a lookup error is returned before any gateway call; a gateway error stores nothing; otherwise the payment with the gateway's status, transaction id and data is saved and answered, or a write error leaves the table unchanged |
| PaymentCommands.CancelledIsFinal | internal/payment/application/command/cancel_payment.go:51-53 | a cancelled payment can be neither cancelled again nor refunded, and cancelling keeps its amount and transaction id |
| PaymentCommands.CancelPayment | internal/payment/application/command/cancel_payment.go:33-77 | a lookup error is returned; a payment that is not pending or processing is refused as not cancellable with no gateway call and no write; a gateway error stores nothing; otherwise the payment is saved cancelled with the gateway's data, all else kept, and answered |
| PaymentCommands.AddKeepsOtherDefaults | internal/payment/application/command/add_payment_method.go:39-86 | adding a default method next to the user's existing default leaves both marked default, since the handler never clears the others |
| PaymentCommands.AddPaymentMethod | internal/payment/application/command/add_payment_method.go:39-86 | the new method is active, with the command's default flag; validation runs before the gateway and an invalid method reports its first failing check with nothing saved; a gateway error saves nothing; otherwise the method is inserted when the write succeeds and the answer mirrors it |
| PaymentCommands.UpdatePaymentMethod | internal/payment/application/command/update_payment_method.go:32-62 | a lookup error is returned with no write; otherwise only the default and active flags (and the update time) are overwritten, for any owner, and the answer mirrors the saved record |
| PaymentCommands.DeletePaymentMethod | internal/payment/application/command/delete_payment_method.go:29-32 | fails exactly when the write fails, with nothing changed; otherwise the id is gone and every other method is kept |
| PaymentQueries.TruncDiv | internal/payment/application/query/list_payments.go:63 | Go's integer division for every sign: the quotient's magnitude is how many whole times the divisor's magnitude fits in the dividend's, and a non-zero quotient is positive exactly when the operands have the same sign; for a non-negative dividend and positive divisor it is floor division |
| PaymentQueries.TotalPagesIsCeiling | internal/payment/application/query/list_payments.go:63 | with a positive limit, the page count is the ceiling of total over limit: the least number of pages that holds every row, never negative |
| PaymentQueries.PagingFlags | internal/payment/application/query/list_payments.go:63-65 | with a positive limit, there is a next page exactly when rows remain beyond this page, and a previous page exactly when the page's offset skips rows |
| PaymentQueries.ListPayments | internal/payment/application/query/list_payments.go:31-76 | asks the store for the user's rows with offset (page - 1) * limit, the limit and the status; a store error is returned; otherwise one response per row in order, the store's total, the requested page and limit, the page count and the next and previous flags |
| PaymentQueries.GetPayment | internal/payment/application/query/get_payment.go:29-57 | a lookup error is returned; the payment is answered exactly when it is stored and owned by the asker, with its columns copied; another user's payment answers payment-not-found; nothing is written |
| PaymentQueries.ForeignPaymentLooksMissing | internal/payment/application/query/get_payment.go:36-38 | asking for another user's payment gives exactly the answer for an id that is not stored |
| PaymentQueries.GetPaymentMethod | internal/payment/application/query/get_payment_method.go:29-54 | a lookup error is returned; the method is answered exactly when it is stored and owned by the asker, the answer mirroring the record; otherwise method-not-found; nothing is written |
| PaymentQueries.ForeignMethodLooksMissing | internal/payment/application/query/get_payment_method.go:36-38 | asking for another user's method gives exactly the answer for an id that is not stored |
| PaymentService.LinesTotalAppend | internal/payment/application/payment_service_cqrs.go:97-100 | the basket's value, quantity times unit price summed over the lines, is additive over any split of the lines |
| PaymentService.LinesTotalNonNegative | internal/payment/application/payment_service_cqrs.go:97-100 | lines with non-negative quantities and prices have a non-negative value |
| PaymentService.BasketTotal | internal/payment/application/payment_service_cqrs.go:97-100 | the accumulation loop computes the basket's value, the sum of quantity times unit price over all lines |
| PaymentService.SourceOf | internal/payment/application/payment_service_cqrs.go:89-134 | the basket is consulted exactly when a basket id is given, even alongside a product and quantity; the product service exactly when there is no basket id but both a product and a quantity |
| PaymentService.PurchaseCheck | internal/payment/application/payment_service_cqrs.go:88-136 | no target at all is refused outright; on the basket branch a basket-service error is reported, and otherwise the request passes exactly when its amount equals the basket's value; on the product branch a product-service error is reported, then a non-positive quantity, then an amount other than quantity times price, then stock short of the quantity, passing exactly when none applies |
| PaymentService.CheckPurchase | internal/payment/application/payment_service_cqrs.go:88-136 | the service's checks compute exactly that decision, consulting exactly the collaborator the request names |
| PaymentService.CreatePayment | internal/payment/application/payment_service_cqrs.go:87-153 | a refused purchase check returns its failure with no gateway call and nothing stored; the gateway is called exactly when the checks pass and the built payment is valid; on success the stored payment is the handler's payment for the user (with the gateway's transaction id and data), pending, for the requested amount |
| PaymentService.BasketItems | internal/payment/application/payment_service_cqrs.go:208-215 | one event item per basket line, in order, each with the line's product, quantity, unit price and their product |
| PaymentService.ProcessPayment | internal/payment/application/payment_service_cqrs.go:166-228 | a lookup error or another user's payment (answered as payment-not-found) stops before the gateway; for the owner a gateway error is returned, and otherwise the payment as the gateway left it is saved and answered, or a refused write returns the write error with nothing saved; a completion event exists exactly when the answer is a completed payment, and carries the fetched payment's id, user, order, amount, currency, method and basket, and its items: the direct product, else the basket's lines when the basket service answers, else none |
| PaymentService.CancelPayment | internal/payment/application/payment_service_cqrs.go:231-259 | a lookup error or another user's payment (answered as payment-not-found) stops before the gateway; for the owner the gateway is called exactly when the payment can be cancelled, not-cancellable is answered otherwise, a gateway error is returned, and otherwise the payment is saved cancelled with the gateway's data and answered, or a refused write returns the write error with nothing saved |
| PaymentService.OneDefaultPerUser | internal/payment/application/payment_service_cqrs.go:329-337 | after clearing the user's defaults and marking the chosen method, it is the only default among that user's methods, and every other user's method is as it was |
| PaymentService.SetDefaultPaymentMethod | internal/payment/application/payment_service_cqrs.go:318-354 | a lookup error is returned, and another user's method answers method-not-found, both with no change; a refused bulk update changes nothing; a save refused after the bulk update has committed returns the write error and leaves the user with no default at all; otherwise the method is the user's only default and is answered as stored |
| PaymentService.AdminPlaceholdersAnswerNothing | internal/payment/application/payment_service_cqrs.go:359-425 | every administrative operation answers without consulting a store: empty listings echoing the page and limit with no next or previous page, all-zero statistics, and not-found for every single-record request |
| UserDomain.RoleString | internal/user/domain/role.go:22-24 | a role's text is the role itself, so converting back gives the same role |
| UserDomain.RoleRules | internal/user/domain/role.go:12-34 | a role is valid exactly when it is "user" or "admin"; no role is both admin and user; a role is valid exactly when it is one of the two |
| UserDomain.UserRow.FullName | internal/user/domain/user.go:51-53 | the first name, one space, then the last name |
| UserDomain.AssignRoleRules | internal/user/domain/user.go:66-70 | the role becomes the requested one exactly when that role is valid (or already held); an invalid role leaves the account unchanged; a valid role stays valid; nothing but the role changes |
| UserDomain.UserRoleChecks | internal/user/domain/user.go:56-63 | the administrator check is holding the admin role; every account holds its own role; for a valid role, admin exactly when not user |
| UserDomain.User.FromRow | internal/user/domain/user.go:12-23 | builds the in-memory account holding exactly the given row |
| UserDomain.User.Activate | internal/user/domain/user.go:41-43 | only the active flag changes, to true |
| UserDomain.User.Deactivate | internal/user/domain/user.go:46-48 | only the active flag changes, to false |
| UserDomain.User.AssignRole | internal/user/domain/user.go:66-70 | the account becomes the one with the role assigned when valid, unchanged otherwise |
| UserStore.UserRepository.constructor | internal/user/infrastructure/persistence/user_repository.go:21-26 | an empty, readable and writable table whose first id is 1 |
| UserStore.UserRepository.Lookup | internal/user/infrastructure/persistence/user_repository.go:47-60 | finds a stored account exactly when the table is readable and the id is present; an absent id answers the store's user-not-found error |
| UserStore.UserRepository.LookupEmail | internal/user/infrastructure/persistence/user_repository.go:62-75 | finds the one account holding the email exactly when the table is readable and some account holds it; otherwise user-not-found |
| UserStore.UserRepository.GetByID | internal/user/infrastructure/persistence/user_repository.go:47-60 | a fresh account object holding the stored row, or the lookup's error |
| UserStore.UserRepository.Create | internal/user/infrastructure/persistence/user_repository.go:28-45 | a taken email answers already-exists and a failed read or write stores nothing; otherwise the account gets the next id and both timestamps and is inserted, the email column staying unique |
| UserStore.UserRepository.Update | internal/user/infrastructure/persistence/user_repository.go:77-89 | stamps the update time; a refused write or an unknown id (user-not-found) saves nothing; otherwise every column is saved; a changed email is saved exactly when no other account holds it, and a collision is a write error that saves nothing |
| UserCommands.NewUserIsPlainUser | internal/user/application/command/create_user.go:40-48 | a new account is an active plain user, never an administrator, keeps the command's email and names, and stores the hasher's output, which differs from the plaintext whenever the hash does |
| UserCommands.CreateUser | internal/user/application/command/create_user.go:33-56 | a hashing error stores nothing; then a failed read, a taken email (already-exists) or a refused write is returned with nothing stored; otherwise the new account with the next id, both timestamps and the hashed password is stored and returned |
| UserCommands.Login | internal/user/application/command/login.go:45-72 | an unknown email is bad credentials; an inactive account is refused before its password is looked at; a wrong password is bad credentials; a token failure is returned; success happens exactly when the account exists, is active, the password matches and a token is generated, and then carries the stored account and its token; nothing is written |
| UserCommands.InactiveIgnoresPassword | internal/user/application/command/login.go:52-55 | for an inactive account, login answers the inactive error whatever password is tried and however passwords compare |
| UserCommands.PasswordChangeRules | internal/user/application/command/change_password.go:44-57 | a change succeeds exactly when the old password matches and hashing works; the new stored password is the hash of the new plaintext and only it and the update time change; the mismatch error is the only thing that depends on the caller |
| UserCommands.ChangePasswordWith | internal/user/application/command/change_password.go:37-58 | a lookup error is returned; otherwise the outcome is the password change's: a mismatch or hashing error with no write, or the changed account saved, or a write error with nothing saved |
| UserCommands.ChangePassword | internal/user/application/command/change_password.go:37-58 | the handler's flow with a wrong old password reported as invalid-old-password and nothing stored |
| UserCommands.KeepUnlessEmpty | internal/user/application/command/update_user.go:37-42 | an empty value keeps the current one, any other replaces it |
| UserCommands.RenamedRules | internal/user/application/command/update_user.go:37-42 | a non-empty name overwrites the stored one and an empty name keeps it; nothing else changes; renaming twice with the same command is renaming once |
| UserCommands.UpdateUser | internal/user/application/command/update_user.go:29-50 | a lookup error is returned with no write; otherwise the renamed account (role, activity, email and password as stored) is saved and returned, or a write error with nothing saved |
| UserCommands.AdminPatchedRules | internal/user/application/command/update_user_by_admin.go:38-50 | the role changes exactly when a valid one is given, so the emptiness test adds nothing; the activity flag is overwritten exactly when one is given; names follow the rename rule; id, email, password and timestamps never change; the update is idempotent |
| UserCommands.ApplyAdminPatch | internal/user/application/command/update_user_by_admin.go:38-50 | the conditional overwrites leave the fetched account as the administrator's patch describes |
| UserCommands.UpdateUserByAdmin | internal/user/application/command/update_user_by_admin.go:31-58 | a lookup error is returned with no write; otherwise the patched account is saved and returned, or a write error with nothing saved |
| UserCommands.AssignRole | internal/user/application/command/assign_role.go:33-54 | an invalid role is refused before any lookup or write; with a valid role a lookup error is returned, and otherwise the stored role becomes the requested one with only the update time also changing, or a write error with nothing saved |
| UserService.ResponseHidesOnlyPassword | internal/user/application/user_service.go:246-257 | the response copies every column except the password: two accounts answer alike exactly when they differ at most in their passwords |
| UserService.CreateUser | internal/user/application/user_service.go:33-56 | the handler's create: a hashing error is returned; then, in order, an unreadable store, a taken email (user-already-exists) and a refused write are answered and store nothing; otherwise the stored account is the active plain user with the hashed password under the next id and the answer describes it |
| UserService.Login | internal/user/application/user_service.go:59-86 | the same decision order as the login handler, answering with the account's response and the token |
| UserService.UpdateUser | internal/user/application/user_service.go:109-130 | only the names change, the request's activity flag being ignored; a lookup error is returned and a refused write saves nothing |
| UserService.UpdateUserByAdmin | internal/user/application/user_service.go:133-160 | the administrator's patch as in the handler: names when non-empty, a valid role, the activity flag when given; a lookup error is returned and a refused write saves nothing |
| UserService.AssignRole | internal/user/application/user_service.go:163-184 | an invalid role is refused before the lookup; otherwise as the handler: the stored role becomes the requested one |
| UserService.ChangePassword | internal/user/application/user_service.go:212-233 | the handler's flow, but a wrong old password is reported as bad credentials; any failure writes nothing |
| UserService.ListUsers | internal/user/application/user_service.go:192-209 | a store error is returned; otherwise one response per listed account in order, the total being the page's length, with the offset and limit echoed |
| ClientStorage.LocalStorage.constructor | client/src/app/services/user.service.ts:85-92 | a fresh store holds no entries |
| ClientStorage.LocalStorage.SetItem | client/src/app/services/user.service.ts:127-128 | the key maps to the value afterwards and every other entry stays |
| ClientStorage.LocalStorage.RemoveItem | client/src/app/services/user.service.ts:241-242 | the key is gone afterwards and every other entry stays |
| ClientStorage.CurrentUser | client/src/app/services/user.service.ts:248-258 | without a non-empty "user" entry there is no signed-in user; with one, the user is what parsing the entry yields, nothing when parsing throws |
| ClientStorage.AuthorizationHeader | client/src/app/services/user.service.ts:86-92 | a header is added exactly when a non-empty token is stored, and it is "Bearer " followed by that token |
| ClientStorage.RejectionForgetsSession | client/src/app/services/user.service.ts:95-105 | after a 401 the client is neither authenticated nor signed in and sends no Authorization header, every other entry surviving; any other rejection changes nothing |
| ClientStorage.OnRejected | client/src/app/services/user.service.ts:97-103 | the error handler leaves the store as a rejection with that status should: both session entries removed on a 401, untouched otherwise |
| ClientUserService.SessionEffects | client/src/app/services/user.service.ts:122-148 | a successful login with a token authenticates the client as the returned user; an unsuccessful answer changes nothing; a refresh never touches the stored user; logging out afterwards leaves neither token nor user |
| ClientUserService.Login | client/src/app/services/user.service.ts:122-132 | a rejection is rethrown after the 401 handling; an answer is returned as it came, and only a successful one carrying data records its token and its serialised user |
| ClientUserService.RefreshToken | client/src/app/services/user.service.ts:137-148 | a rejection is rethrown after the 401 handling; an answer is returned as it came, and only a successful one carrying data replaces the stored token |
| ClientUserService.Logout | client/src/app/services/user.service.ts:240-243 | the token and the user are removed and every other entry stays |
| ClientUserService.GetAuthToken | client/src/app/services/user.service.ts:263-280 | the client is authenticated exactly when a non-empty token is returned, and the header the interceptor sends is built from it |
| ClientBasketService.Send | client/src/app/services/basket.service.ts:29-48 | the call carries the header built from the stored token; a rejection is rethrown after the 401 handling, an answer is returned as it came with the store unchanged |
| ClientBasketService.UserScoped | client/src/app/services/basket.service.ts:57-155 | without a signed-in user nothing is sent and the call throws not-authenticated; otherwise exactly one request is sent, carrying the user id where the body has one, and its answer or rejection is passed on |
| ClientBasketService.FirstRejected | client/src/app/services/basket.service.ts:295-305 | the index found is the earliest rejected call, every call before it being answered; none found means every call is answered |
| ClientBasketService.BulkSendsPrefix | client/src/app/services/basket.service.ts:280-366 | a bulk run sends a prefix of its requests in order, every call before the last sent one having been answered; it fails exactly when some request is rejected, with the last sent call's rejection |
| ClientBasketService.SendAll | client/src/app/services/basket.service.ts:292-307 | the loop sends the requests in order with the header stored at the start and stops at the first rejection, which it rethrows; otherwise it returns the last answer, or the failure envelope for an empty list |
| ClientBasketService.AddRequests | client/src/app/services/basket.service.ts:295-302 | one add request per item, in order, each with the signed-in user's id, the product, the quantity and the unit price |
| ClientBasketService.UpdateRequests | client/src/app/services/basket.service.ts:327-335 | one update request per item, in order, each with the user's id, the product and the quantity |
| ClientBasketService.RemoveRequests | client/src/app/services/basket.service.ts:358-360 | one remove request per product id, in order |
| ClientBasketService.AddMultipleItems | client/src/app/services/basket.service.ts:280-308 | without a signed-in user nothing is sent and it throws; otherwise a bulk run of the add requests with "Failed to add items" for an empty list |
| ClientBasketService.UpdateMultipleItems | client/src/app/services/basket.service.ts:313-342 | as adding, over the update requests, with "Failed to update items" |
| ClientBasketService.RemoveMultipleItems | client/src/app/services/basket.service.ts:347-366 | as adding, over the remove requests, with "Failed to remove items" |
| ClientBasketService.IsAdminHere | client/src/app/services/basket.service.ts:214-230 | the basket service's own administrator check answers exactly as the user service's isAdmin |
| ClientBasketService.GetBasketItemCount | client/src/app/services/basket.service.ts:235-245 | the unit count of a basket that was fetched successfully, and 0 when there is no user, the call is rejected or the answer carries no basket; a 401 still forgets the session |
| ClientBasketService.IsBasketEmpty | client/src/app/services/basket.service.ts:250-260 | true exactly when no basket was fetched or the fetched basket has no lines |
| ClientBasketService.GetBasketTotal | client/src/app/services/basket.service.ts:265-275 | the total of a basket that was fetched successfully, and 0 otherwise |

## Left out

- HTTP and gRPC interfaces, dependency wiring, monitoring, configuration and Kafka publishing are not modelled. They are I/O plumbing. A publish is taken to succeed.
- Payment gateways are inputs. The mock gateway draws its outcome from the clock, and Stripe is an SDK. Any write a gateway makes to the record it is handed is not modelled: the model takes its answer as data.
- Password hashing, password comparison and token generation are opaque function parameters.
- SQL filtering, ordering, limits and counts in the payment, product and user listings are not modelled. The found page is an input.
- Soft deletion and database ids wider than `nat` are not modelled.
- GORM's `autoUpdateTime` is modelled as the `now` stamp each store update applies, the bulk update of default marks included.
- Floating point is not modelled:
  - money is exact integer cents;
  - `GetDiscountPercentage`, `GetProfitMargin` and `GetProfitAmount` are not modelled;
  - for a direct product purchase, the completion event's per-unit price (amount divided by quantity, internal/payment/application/payment_service_cqrs.go:200) is kept as no unit price.
- Go's `len` on strings counts bytes; the model counts characters. The two agree for ASCII.
- Go's int32 quantities and int64 sums are unbounded integers. Truncation and overflow are not modelled.
- BasketStore.BasketRepository.Update: the source sets the basket's key and then the user's key as two Redis writes, and can fail on the second after the first succeeded (internal/basket/infrastructure/persistence/basket_repository.go:119-129). The model's single `writable` flag makes both writes succeed or both fail, so that half-written state, a saved basket reported as an error, is not modelled. Every basket command's promise that an error leaves the store unchanged rests on this.
- BasketStore.BasketRepository.Create: the same two writes, with the same gap (internal/basket/infrastructure/persistence/basket_repository.go:55-65). A failure on the second write would leave a stored basket with no user mapping; the model does not capture it.
- Concurrency between requests and the Redis key expiry are not modelled. The basket deadline is checked against `now`.
- The user service's `GetUserByID`, `GetUserByEmail`, `DeleteUser`, `ValidateToken` and `RefreshToken` are single delegations. They are not modelled.
- The product service's `GetProductByID`, `GetProductBySKU` and `DeleteProduct` are single delegations. They are not modelled.
- The payment service's `ListPaymentMethods` and `GetPaymentMethods` are single delegations. They are not modelled.
- The product service's `UpdateStock`, `ReduceStock`, `IncreaseStock` and `IncrementViewCount` are the command handlers' fetch–mutate–save sequences answering only an error. They are modelled once, by the handlers in ProductCommands.
- The payment service's `UpdatePaymentMethod` and `DeletePaymentMethod` take a user id and ignore it. They are modelled by the PaymentCommands handlers, which take none.
- PaymentService.CreatePayment also fills product, quantity and basket fields that the create-payment command does not declare. The handler never stores them, so the model's command drops them.
- PaymentQueries.ListPayments requires a non-zero limit. The source divides by the limit and would panic on zero.
- UserService.AssignRole returns a freshly made "invalid role" error, distinct from the command package's `ErrInvalidRole` value but with the same meaning. The model uses the one `ErrInvalidRole`.
- UserService.UpdateUserByAdmin: the admin request type is referenced by the service but is not declared in the user dto file. The model gives it the names, role and optional activity flag the service reads.
- ClientStorage.OnRejected: the redirect to "/login" after a 401 is a navigation side effect and is not modelled.
- The client's other endpoint wrappers (registration, profile, admin calls) are single HTTP calls with nothing stored. They are not modelled.
- The TypeScript services are asynchronous. The model runs their awaited calls in order, because each helper awaits one call before the next.

## Findings

| source | as written | input that shows it | evidently intended | confidence | as-written member | corrected member |
|---|---|---|---|---|---|---|
| internal/basket/application/command/add_item.go:62 | Adding an item gets or creates the basket only when the lookup fails with the domain's `ErrBasketNotFound`. But the Redis repository reports a missing user basket with its own `ErrBasketNotFound` (internal/basket/infrastructure/persistence/basket_repository.go:16, 97), so the comparison never matches. | a user with no basket adds any valid item | the basket is created and the item added | not executed | BasketCommands.AddItemToNewUserFails | BasketCommands.AddItemCorrected |
