# Order management: order aggregate, order service and product catalog

A Dafny model of the two services of the order-management system.

- **Order service.** The `Order` / `OrderItem` aggregate keeps line totals and the order total, and `OrderService` creates, updates, deletes and queries orders. Before an order is created, every product is checked against the Product Service.
- **Product service.** `Product` carries the field constraints, and `ProductService` keeps a catalog whose SKUs are unique.

Files:

- `common.dfy`: `Option` for Java's `null`, and `Result` / `Outcome` for a call that returns or throws.
- `order_model.dfy` (module `OrderModel`): the classes `OrderItem` and `Order`. They have the fields, the in-place total calculation, the lazy `getTotalPrice`, `addItem` and the persistence hooks. Beside them sit the value functions that specify them: `Recalculated`, `Cached`, `Sum` (the stream reduce) and `OrderTotal`, with lemmas about them.
- `order_service.dfy` (module `OrderServiceModel`): the class `OrderService`.
  - The order store is a map from id to the stored state of an order, with the identity counter.
  - The Product Service is an oracle from product id to its reply.
  - `createOrder` has three steps, each with a proof: the empty-order check, the validation loop and the binding loop.
  - The repository queries are set filters over the store.
- `product.dfy` (module `ProductModel`): the `Product` record, its validity predicate, and the field overwrite done by `updateProduct`.
- `product_service.dfy` (module `ProductServiceModel`): the class `ProductService`, a product store that keeps SKUs unique.

How the Java types are modelled:

- Prices (`BigDecimal`) are `real`, which is exact.
- Ids and quantities are unbounded `int`.
- Thrown exceptions are `Err` / `Fail` values.
- The order store holds value snapshots (`OrderRecord`). An order being created is an `Order` object, mutated in place as in the source.

## Model

| member | source | states |
|---|---|---|
| OrderModel.ValidItem | order-service/src/main/java/com/ordermgmt/order/model/OrderItem.java:32-44 | the item constraints: product id present, quantity at least 1, unit price at least 0.01; a valid item has a positive unit price, and its total is always recalculated as quantity times unit price, whatever was stored |
| OrderModel.ValidLineTotalAtLeastUnitPrice | order-service/src/main/java/com/ordermgmt/order/model/OrderItem.java:36-44 | a valid item's line total is at least its unit price, and so above zero |
| OrderModel.RecalculatedIdempotent | order-service/src/main/java/com/ordermgmt/order/model/OrderItem.java:57-61 | calculating an item's total twice leaves what calculating it once leaves |
| OrderModel.CachedMayBeStale | order-service/src/main/java/com/ordermgmt/order/model/OrderItem.java:68-73 | getTotalPrice returns a stored total as it is, and that differs from a fresh calculation whenever quantity times unit price differs from it |
| OrderModel.CachedAfterRecalculated | order-service/src/main/java/com/ordermgmt/order/model/OrderItem.java:68-73 | after calculateTotalPrice, getTotalPrice returns exactly the calculated total |
| OrderModel.SumAppend | order-service/src/main/java/com/ordermgmt/order/model/Order.java:85-87 | the reduce over a list with one more element adds that element's total to the old result |
| OrderModel.SumConcat | order-service/src/main/java/com/ordermgmt/order/model/Order.java:85-87 | the reduce over two lists joined is the sum of the two reductions |
| OrderModel.SumOfPositives | order-service/src/main/java/com/ordermgmt/order/model/Order.java:85-87 | reducing positive line totals gives a non-negative result, and a positive one when the list is non-empty |
| OrderModel.FirstMissing | order-service/src/main/java/com/ordermgmt/order/model/Order.java:85-87 | the position where the reduce throws: every earlier item total is present and the one at that position is null |
| OrderModel.OrderTotalAppend | order-service/src/main/java/com/ordermgmt/order/model/Order.java:98-100 | the total over the items plus one is the old total plus the new item's total, and it is undefined when either is |
| OrderModel.TwoItemExampleTotal | order-service/src/test/java/com/ordermgmt/order/service/OrderServiceTest.java:256-289 | items (2, 100) and (3, 50) give an order total of 350 |
| OrderModel.OrderItem.CalculateTotalPrice | order-service/src/main/java/com/ordermgmt/order/model/OrderItem.java:57-61 | the total becomes unit price times quantity when both are present, and is unchanged otherwise; only totalPrice is written |
| OrderModel.OrderItem.GetTotalPrice | order-service/src/main/java/com/ordermgmt/order/model/OrderItem.java:68-73 | a null total is first calculated and stored; a present total is returned as stored and left unchanged |
| OrderModel.Order.constructor | order-service/src/main/java/com/ordermgmt/order/model/Order.java:52-57 | a new order has status PENDING, no id and no total |
| OrderModel.SumTotals | order-service/src/main/java/com/ordermgmt/order/model/Order.java:85-87 | the stream visits the items in order and adds their getTotalPrice values from zero; it succeeds exactly when no value is null, and then the result is their sum; the first null value stops it, and the items after it are not touched |
| OrderModel.Order.CalculateTotalPrice | order-service/src/main/java/com/ordermgmt/order/model/Order.java:81-89 | a null or empty item list gives total 0; otherwise the total is the sum of the items' getTotalPrice values, in order; a null item total throws and leaves the order total as it was; each item visited before that point has its total filled in, later items are untouched; a successful call leaves every getTotalPrice value unchanged, so a second call gives the same total |
| OrderModel.Order.AddItem | order-service/src/main/java/com/ordermgmt/order/model/Order.java:94-101 | the item is appended at the end (a null list becomes the one-item list) and points back at the order; the order total is recomputed over the new list, so it is the old total plus the item's total; on success every item's getTotalPrice value is what it was before, so the stored total equals the sum over the items as they now are and further calls chain; each item's stored total is filled in up to the first null one and untouched after it |
| OrderModel.Order.OnCreate | order-service/src/main/java/com/ordermgmt/order/model/Order.java:65-70 | before the first save, the total is recomputed as in calculateTotalPrice |
| OrderModel.Order.OnUpdate | order-service/src/main/java/com/ordermgmt/order/model/Order.java:72-76 | before a changed order is saved, the total is recomputed as in calculateTotalPrice |
| OrderServiceModel.FirstUnavailable | order-service/src/main/java/com/ordermgmt/order/service/OrderService.java:82-84 | the position of the first item whose product lookup fails: every earlier lookup succeeds and the one at that position fails |
| OrderServiceModel.StatusQueriesPartition | order-service/src/main/java/com/ordermgmt/order/repository/OrderRepository.java:19 | every stored order is returned by the query for its own status; the five status queries are pairwise disjoint, and together they return the whole store |
| OrderServiceModel.UpdateMovesBetweenStatusQueries | order-service/src/main/java/com/ordermgmt/order/service/OrderService.java:113-119 | rewriting a stored order removes its old state from every status query and adds the new state to the query for its new status only |
| OrderServiceModel.DeleteRemovesFromEmailQuery | order-service/src/main/java/com/ordermgmt/order/service/OrderService.java:130-134 | after a delete, the customer-email query returns what it returned before, minus the deleted order |
| OrderServiceModel.ValidItemsPositiveTotal | order-service/src/main/java/com/ordermgmt/order/service/OrderService.java:87-93 | when every item is valid, every item total after createOrder's binding loop is present and equal to its line total, and the order total is above zero (a total stored on an item before that loop can make the order total anything, because getTotalPrice returns it unchecked) |
| OrderServiceModel.OrderService.GetAllOrders | order-service/src/main/java/com/ordermgmt/order/service/OrderService.java:50-53 | returns every stored order, each with a total equal to the sum of its line totals |
| OrderServiceModel.OrderService.GetOrderById | order-service/src/main/java/com/ordermgmt/order/service/OrderService.java:62-65 | returns the order stored under the id, with consistent total, or empty exactly when the id is unknown |
| OrderServiceModel.OrderService.GetOrdersByCustomerEmail | order-service/src/main/java/com/ordermgmt/order/service/OrderService.java:144-147 | returns exactly the stored orders with that customer email |
| OrderServiceModel.OrderService.GetOrdersByStatus | order-service/src/main/java/com/ordermgmt/order/service/OrderService.java:156-159 | returns exactly the stored orders with that status |
| OrderServiceModel.OrderService.ValidateProductExists | order-service/src/main/java/com/ordermgmt/order/service/OrderService.java:168-203 | passes exactly on a 2xx reply with a body; a client exception, a non-2xx status and an empty body all fail with the same product-unavailable error for that id |
| OrderServiceModel.OrderService.ValidateProducts | order-service/src/main/java/com/ordermgmt/order/service/OrderService.java:82-84 | looks products up in item order, stops at the first unavailable one and fails with its id; the lookups made are exactly the ids up to and including that one |
| OrderServiceModel.OrderService.BindItems | order-service/src/main/java/com/ordermgmt/order/service/OrderService.java:87-90 | every item points back at the order and its total is recalculated from its quantity and unit price (an item listed twice included) |
| OrderServiceModel.OrderService.PriceItems | order-service/src/main/java/com/ordermgmt/order/service/OrderService.java:87-93 | after binding and the order total, every item points at the order, every item total is the recalculated one, and the order total is their sum; it throws exactly when a recalculated total is still null; either way every item's stored total is its recalculated one, and on failure the order total is as it was |
| OrderServiceModel.OrderService.PriceAndSave | order-service/src/main/java/com/ordermgmt/order/service/OrderService.java:87-95 | after validation: fails with a null line total and stores nothing, or stores the order under the next id with every item bound and re-priced and the total equal to the sum of the line totals; on success the order object itself carries that total; either way every item points at the order with its recalculated total, and on failure the order's id and total are as they were |
| OrderServiceModel.OrderService.Save | order-service/src/main/java/com/ordermgmt/order/service/OrderService.java:95 | the @PrePersist total is computed; on success the order gets the next id and is stored with its fields, its items and a total equal to the sum of the line totals; a null item total throws and stores nothing; on success the order object itself carries that total; on success every item's stored total is the getTotalPrice value it had before |
| OrderServiceModel.OrderService.CreateOrder | order-service/src/main/java/com/ordermgmt/order/service/OrderService.java:74-96 | an order without items fails before any lookup; the first unavailable product fails after exactly the lookups up to it; creation succeeds exactly when the items are non-empty, every product is available and every item total can be calculated; then the order is stored under a fresh id with the requested unit prices unchanged, every line total recalculated as quantity times unit price (a total sent with the request is kept only where quantity or unit price is null), and the order total equal to their sum; every failure leaves the store unchanged; when all products are available but an item total stays null the error is the missing line total; an empty order or an unavailable product leaves the order object and its items untouched (id, total, back-references, item totals); on success the order object itself carries the stored total; once every product is available, every item object points at the order with its total recalculated (quantity times unit price when both are present), whether or not the save then succeeds; on any failure the order's id and total are as they were |
| OrderServiceModel.OrderService.UpdateOrder | order-service/src/main/java/com/ordermgmt/order/service/OrderService.java:105-120 | an unknown id fails and the store is unchanged; otherwise exactly customer name, email, shipping address and status are overwritten, whatever the current status, and items, id and total stay the same |
| OrderServiceModel.OrderService.DeleteOrder | order-service/src/main/java/com/ordermgmt/order/service/OrderService.java:127-135 | an unknown id fails and the store is unchanged; otherwise exactly that order is removed |
| ProductModel.ValidProduct | product-service/src/main/java/com/ordermgmt/product/model/Product.java:30-52 | a valid product has a non-blank name of 3 to 100 characters, a non-blank description of 10 to 500, a price of at least 0.01 (so positive), a quantity of at least 0, and a non-blank SKU of at most 50 characters |
| ProductModel.BuilderAcceptsInvalid | product-service/src/test/java/com/ordermgmt/product/service/ProductServiceTest.java:242-259 | the builder yields a product with no id, an empty name and SKU and a negative price, and that product is not valid |
| ProductModel.BlankSkuInvalid | product-service/src/main/java/com/ordermgmt/product/model/Product.java:50-52 | a SKU of spaces only makes a product invalid |
| ProductModel.OverwriteKeepsIdentity | product-service/src/main/java/com/ordermgmt/product/service/ProductService.java:97-103 | the update setters never change id or SKU, and applying them twice equals applying them once |
| ProductModel.OverwriteKeepsValid | product-service/src/main/java/com/ordermgmt/product/service/ProductService.java:97-103 | a valid product updated from a valid request is still valid |
| ProductServiceModel.FindBySku | product-service/src/main/java/com/ordermgmt/product/repository/ProductRepository.java:16 | findBySku finds a product exactly when one has that SKU, and then it is the one product with that SKU |
| ProductServiceModel.InsertFreshSkuKeepsUnique | product-service/src/main/java/com/ordermgmt/product/service/ProductService.java:74-79 | storing a product whose SKU is not taken keeps SKUs unique across the store |
| ProductServiceModel.OverwriteKeepsUnique | product-service/src/main/java/com/ordermgmt/product/service/ProductService.java:97-103 | an update keeps SKUs unique, since it keeps the SKU |
| ProductServiceModel.CreatedIsFoundBySku | product-service/src/main/java/com/ordermgmt/product/service/ProductService.java:59-79 | once a product with a fresh SKU is created, looking that SKU up finds exactly it |
| ProductServiceModel.ProductService.GetAllProducts | product-service/src/main/java/com/ordermgmt/product/service/ProductService.java:35-38 | returns every stored product; no two of them share a SKU |
| ProductServiceModel.ProductService.GetProductById | product-service/src/main/java/com/ordermgmt/product/service/ProductService.java:47-50 | returns the product stored under the id, carrying that id, or empty exactly when the id is unknown |
| ProductServiceModel.ProductService.GetProductBySku | product-service/src/main/java/com/ordermgmt/product/service/ProductService.java:59-62 | returns the stored product whose SKU equals the argument, or null when there is none |
| ProductServiceModel.ProductService.CreateProduct | product-service/src/main/java/com/ordermgmt/product/service/ProductService.java:70-80 | a taken SKU fails and nothing is saved; otherwise the product is stored under the next id, earlier records are unchanged, and SKUs stay unique |
| ProductServiceModel.ProductService.UpdateProduct | product-service/src/main/java/com/ordermgmt/product/service/ProductService.java:89-104 | an unknown id fails and nothing is saved; otherwise exactly name, description, price and quantity are overwritten, id and SKU kept, and SKUs stay unique |
| ProductServiceModel.ProductService.DeleteProduct | product-service/src/main/java/com/ordermgmt/product/service/ProductService.java:111-119 | an unknown id fails and nothing is deleted; otherwise exactly that id is removed |

## Left out

- The HTTP request in validateProductExists is not modelled: the URL, headers, Basic-auth encoding of fixed credentials and the RestTemplate call. The Product Service is a fixed oracle from product id to reply. It does not change while an order is created, and it does not model time-outs as anything but an exception.
- Controllers, security and web-client configuration, and the application classes are not modelled. They route requests and map exceptions to HTTP status codes.
- Bean Validation is not enforced (@Valid, @NotNull, @NotBlank, @Size, @Min, @DecimalMin, @Email). The item and product constraints are stated as predicates (`ValidItem`, `ValidProduct`), and the operations accept any input, as the services themselves do. Order's own field constraints have no predicate: the non-blank customer name of 3 to 100 characters, the valid non-blank @Email customer email, and the non-blank shipping address of 10 to 255 characters.
- ProductModel.ValidProduct: lengths count Unicode code points, because a Dafny string is a sequence of code points. @Size counts UTF-16 code units (`CharSequence.length()`), so a name or description with characters outside the Basic Multilingual Plane (an emoji, say) counts longer in Java than in the model. For example, a two-emoji name passes the 3-character minimum in Java and fails `ValidProduct`.
- Database column constraints are not enforced: not-null at flush, column lengths, and BigDecimal precision 10 / scale 2 with its rounding on store. The one exception is the SKU's 50-character column length, which `ValidProduct` states because no validation annotation bounds the SKU.
- Prices are modelled by value only: BigDecimal's scale, and the equals/compareTo difference it causes, is not modelled.
- Integer overflow is not modelled. Java's `Integer` quantity and `Long` ids are unbounded here, and `unitPrice.multiply(new BigDecimal(quantity))` cannot overflow in Java either.
- An id carried by a create request (JPA merge) is not modelled: `CreateOrder` and `CreateProduct` always store under a fresh id.
- Item database ids and JPA cascade / orphan removal are not modelled. An order's items are stored and deleted with it, as part of `OrderRecord`.
- Null strings, a null order status, and a null product price or quantity are not modelled: these fields are plain values (`string`, `OrderStatus`, `real`, `int`), so @NotNull on Product's price and quantity holds by type.
- A null element in the item list is not modelled.
- Timestamps (createdAt, updatedAt) are not modelled: they read the wall clock.
- Logging and @Transactional are not modelled. A failure in the middle of createOrder leaves the item objects as the loops left them; the store is unchanged.
- The race between concurrent createProduct calls with the same SKU is not modelled. The model is sequential, so uniqueness holds by the SKU check.
- Failures of the database itself (save or delete throwing) are not modelled.
- OrderServiceModel.DeleteRemovesFromEmailQuery: stated for the customer-email query only; the status query is covered for updates by `UpdateMovesBetweenStatusQueries`.
