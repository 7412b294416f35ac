# eCommerceService order lifecycle and inventory ledger in Dafny

This project models the rule-bearing core of the eCommerceService ASP.NET service:

- **The inventory ledger** (`ProductsService`). It reserves, releases and ships stock per product. It keeps the available and reserved counts, clamps the reserved count at zero, and prices each posting at quantity times the current unit price.
- **The order validators** (`OrderValidator` and its five subclasses). They are guards over an order's status, total and shipping address, behind a shared check that refuses any action on a cancelled order. Together they define the order state machine: Draft→Paid→Shipped→Delivered, and Draft→Cancelled.
- **The order lifecycle** (`OrdersService`). It creates orders and changes their addresses. It adds, removes and resizes order items in step with the ledger, and moves orders through pay, ship, deliver and cancel. Every multi-step operation runs in one transaction.
- **The error codes** (`ErrorCode`). These are the name, message and HTTP status that every failing path carries.

The model is layered as the service is:

| file | module | form |
|---|---|---|
| `wrappers.dfy` | `Wrappers` | `Option` and `Result` |
| `error_codes.dfy` | `ErrorCodes` | datatypes, functions and lemmas |
| `entities.dfy` | `Entities` | the `Product`, `Order` and `OrderItem` rows as datatypes |
| `order_validators.dfy` | `OrderValidators` | one datatype over the actions, pure functions and the state machine |
| `inventory.dfy` | `Inventory` | the ledger as pure functions over the product table `map<int, Product>` |
| `products_service.dfy` | `Products` | class `ProductsService` updating its product table in place |
| `lifecycle.dfy` | `Lifecycle` | every order operation as a function from a `World` (orders, items, products, next ids) to a result and the new `World` |
| `lifecycle_properties.dfy` | `LifecycleProperties` | what the operations keep: well-formedness, order totals, the effect of shipping |
| `orders_service.dfy` | `Orders` | class `OrdersService`: the order and item tables in place, calling a `ProductsService` |

Each method of the two classes states its new state and its result as the matching pure function of the old state. A failure is a `Failure(error)` value in place of the thrown `ECommerceException`, and on failure the state is exactly what it was. `OrdersService.ShipOrder` loops over the order's items as the source's `foreach` does. When a product is missing partway, it rolls the ledger back to its snapshot, as the enclosing transaction would. Every `OrdersService` method also keeps the store well formed:

- order and item ids are keys below the next id to hand out;
- every item's order exists and lists it;
- every order lists only its own items, once each.

The methods that change order totals without conditions also keep "each order's total equals the sum of its items' amounts".

What the source does and the model keeps:

- Quantities are plain integers: the source never refuses a negative quantity. So the ledger keeps both stock counts non-negative only for non-negative quantities (`Inventory.NegativeReserveBreaksStockInvariant` shows the case).
- `RemoveOrderItemAsync` and `UpdateOrderItemAsync` look an item up among all items, without checking that it belongs to the given order (`LifecycleProperties.ForeignItemRemovalBreaksTotals`).
- Removal subtracts quantity times the product's current price, not the amount stored on the item. The totals invariant therefore survives removal only while the price has not changed since the reservation (`LifecycleProperties.RepricedItemRemovalBreaksTotals`).
- Cancelling an order does not release its reservations.
- Updating an item to its current quantity succeeds without running the validator, on an order of any status.

## Model

| member | source | states |
|---|---|---|
| ErrorCodes.ErrorCode.ToString | src/eCommerceService/Exceptions/ErrorCode.cs:47 | the rendering is, segment by segment, the code name, ": StatusCode: '", the status name, "', Message: '", the message and "'.", and nothing else (its length is those parts' lengths plus 30) |
| ErrorCodes.Named | src/eCommerceService/Exceptions/ErrorCode.cs:20-45 | a named code's name is its identifier, its message equals its name, and its status is the default BadRequest |
| ErrorCodes.NotFound | src/eCommerceService/Exceptions/ErrorCode.cs:25 | a NotFound error carries the default BadRequest status |
| ErrorCodes.ParseNatToString | src/eCommerceService/Exceptions/ErrorCode.cs:25 | the decimal digits printed for a natural number read back as that number |
| ErrorCodes.ParseIntToString | src/eCommerceService/Exceptions/ErrorCode.cs:25 | the id printed into a NotFound message (sign then digits) reads back as the id |
| ErrorCodes.IntToStringInjective | src/eCommerceService/Exceptions/ErrorCode.cs:25 | two ids that print the same are equal |
| ErrorCodes.NamedCodesDistinct | src/eCommerceService/Exceptions/ErrorCode.cs:27-45 | the ten named codes are pairwise distinct |
| ErrorCodes.EntityNamesDistinct | src/eCommerceService/Exceptions/ErrorCode.cs:25 | the three entity type names are pairwise distinct |
| ErrorCodes.NotFoundInjective | src/eCommerceService/Exceptions/ErrorCode.cs:25 | a NotFound error determines both the entity type and the id it was raised for |
| ErrorCodes.NotFoundIsNotNamed | src/eCommerceService/Exceptions/ErrorCode.cs:25-45 | no NotFound error equals any named code, because its name ends in "NotFound" |
| OrderValidators.ValidateChangeInOrderItems | src/eCommerceService/Services/Validators/ChangeInOrderItemsValidator.cs:10-16 | passes exactly on a Draft order, and otherwise fails with OrderAlreadyPaid |
| OrderValidators.ValidatePay | src/eCommerceService/Services/Validators/PayOrderValidator.cs:11-29 | passes exactly for a non-zero total, Draft status and all four address fields non-empty; a zero total gives NoOrderItemAvailableToPay first, then non-Draft gives OrderAlreadyPaid, then a missing address gives ShippingAddressMissing |
| OrderValidators.ValidateShip | src/eCommerceService/Services/Validators/ShipOrderValidator.cs:11-27 | passes exactly for a non-zero total and Paid status; a zero total gives NoOrderItemAvailableToShip first, then Draft gives OrderNotPaid and any other status gives OrderAlreadyShipped |
| OrderValidators.ValidateDeliver | src/eCommerceService/Services/Validators/DeliverOrderValidator.cs:10-21 | passes exactly on Shipped; Draft or Paid gives OrderNotShipped, and any other status gives OrderAlreadyDelivered |
| OrderValidators.ValidateCancel | src/eCommerceService/Services/Validators/CancelOrderValidator.cs:10-18 | passes exactly on Draft, and otherwise fails with OrderAlreadyPaid |
| OrderValidators.OrderValidator.ValidateOrder | src/eCommerceService/Services/Validators/OrderValidator.cs:11-17 | a cancelled order fails with OrderAlreadyCancelled ahead of every per-action rule; any other order gets the per-action result; success implies the order is not cancelled |
| OrderValidators.ValidatorFor | src/eCommerceService/Services/OrdersService.cs:89 | the validator selected for an action is the one registered for that action |
| OrderValidators.ValidatedActionsFollowTransitions | src/eCommerceService/Services/Validators/OrderValidator.cs:11-17 | whenever a validator passes, the status its action sets is a documented transition from the current one, and items change only on a Draft order |
| OrderValidators.EveryTransitionIsEnabled | src/eCommerceService/Services/Validators/OrderValidator.cs:11-17 | conversely, every documented transition is allowed by its action on some order |
| OrderValidators.TerminalStatuses | src/eCommerceService/Services/Validators/OrderValidator.cs:11-17 | no action passes on a Delivered or Cancelled order |
| OrderValidators.ChangeInOrderItemsReadsOnlyStatus | src/eCommerceService/Services/Validators/ChangeInOrderItemsValidator.cs:10-16 | two orders with the same status get the same change-items result, whatever their totals and addresses |
| OrderValidators.DeliverAndCancelReadOnlyStatus | src/eCommerceService/Services/Validators/DeliverOrderValidator.cs:10-21 | two orders with the same status get the same deliver result and the same cancel result |
| OrderValidators.CancelTwiceFails | src/eCommerceService/Services/Validators/CancelOrderValidator.cs:10-18 | cancelling a cancelled order fails with OrderAlreadyCancelled: cancel is not idempotent |
| Inventory.GetProduct | src/eCommerceService/Services/ProductsService.cs:16-17 | found exactly when the product exists and is active, returning that row; otherwise ProductNotFound for that id |
| Inventory.DecreaseReservedQuantity | src/eCommerceService/Services/ProductsService.cs:101-107 | the reserved count becomes the old count minus the quantity, or 0 when that is negative; it is never negative and no other field changes |
| Inventory.ReserveProduct | src/eCommerceService/Services/ProductsService.cs:56-71 | fails with NotFound for a missing or inactive product, and with ProductQuantityNotAvailable exactly when available < quantity; on success only that product changes, available drops and reserved rises by the quantity, on-hand is conserved, and the amount is quantity times unit price |
| Inventory.UnreserveProduct | src/eCommerceService/Services/ProductsService.cs:73-83 | fails only with NotFound; on success only that product changes, available rises by the quantity, reserved is lowered with the clamp and stays non-negative, and the amount is quantity times unit price |
| Inventory.ShipProduct | src/eCommerceService/Services/ProductsService.cs:85-91 | fails only with NotFound; on success only that product's reserved count changes, lowered with the clamp; available and price stay as they were |
| Inventory.UpdateProduct | src/eCommerceService/Services/ProductsService.cs:41-54 | fails only with NotFound; on success the new table differs only in that product, which gets the given SKU, available count, price, category, name and description, while its reserved count and active flag stay as they were |
| Inventory.InActiveProduct | src/eCommerceService/Services/ProductsService.cs:93-98 | fails only with NotFound; on success only the active flag of that product is cleared, and the product can no longer be found |
| Inventory.ReserveThenUnreserve | src/eCommerceService/Services/ProductsService.cs:56-83 | reserving and then releasing the same quantity restores the product table exactly, with equal amounts, when the reserved count was non-negative |
| Inventory.LedgerKeepsStockInvariant | src/eCommerceService/Services/ProductsService.cs:56-107 | if every product's counts are non-negative, they stay so after a ship of any quantity and after a reserve or release of a non-negative quantity |
| Inventory.OnHandConserved | src/eCommerceService/Entities/Product.cs:14-20 | on-hand (reserved plus available) is unchanged by a reserve, and by a release that the reserved count covers |
| Inventory.NegativeReserveBreaksStockInvariant | src/eCommerceService/Services/ProductsService.cs:56-71 | reserving -1 succeeds and leaves a reserved count of -1 |
| Products.ProductsService.constructor | src/eCommerceService/Services/ProductsService.cs:11-14 | the service starts over the given product table |
| Products.ProductsService.GetProduct | src/eCommerceService/Services/ProductsService.cs:16-17 | returns what Inventory.GetProduct gives on the current table |
| Products.ProductsService.ReserveProduct | src/eCommerceService/Services/ProductsService.cs:56-71 | the table becomes the Inventory.ReserveProduct result and the reserved amount is returned; on failure the table is unchanged and the error is returned |
| Products.ProductsService.UnreserveProduct | src/eCommerceService/Services/ProductsService.cs:73-83 | the same, with Inventory.UnreserveProduct |
| Products.ProductsService.ShipProduct | src/eCommerceService/Services/ProductsService.cs:85-91 | the same, with Inventory.ShipProduct |
| Products.ProductsService.UpdateProduct | src/eCommerceService/Services/ProductsService.cs:41-54 | the same, with Inventory.UpdateProduct, returning the updated product |
| Products.ProductsService.InActiveProduct | src/eCommerceService/Services/ProductsService.cs:93-98 | the same, with Inventory.InActiveProduct |
| Lifecycle.GetOrder | src/eCommerceService/Services/OrdersService.cs:65 | found exactly when the order exists, returning it; otherwise OrderNotFound for that id |
| Lifecycle.GetOrderItem | src/eCommerceService/Services/OrdersService.cs:133 | found exactly when the item exists, whatever order owns it; otherwise OrderItemNotFound for that id |
| Lifecycle.LoadValidated | src/eCommerceService/Services/OrdersService.cs:127-131 | succeeds exactly when the order exists and the validator passes on it; otherwise OrderNotFound first, then the validator's error |
| Lifecycle.AddOrder | src/eCommerceService/Services/OrdersService.cs:33-51 | always succeeds with a new Draft order whose id is the next order id: total 0, no items, no dates set, and the given customer, currency and address; only that order is added, and the next order id advances |
| Lifecycle.UpdateOrder | src/eCommerceService/Services/OrdersService.cs:63-73 | on an existing order of any status, replaces exactly the four address fields; otherwise OrderNotFound with the store unchanged |
| Lifecycle.AddOrderItem | src/eCommerceService/Services/OrdersService.cs:84-115 | on any failure the store is unchanged; the order or validator error comes first, then the ledger's error |
| Lifecycle.AddOrderItemEffect | src/eCommerceService/Services/OrdersService.cs:84-115 | adding succeeds exactly for a Draft order and a reservable product; the new item has the given product and quantity, amount quantity × unit price and a fresh id; the order total rises by that amount and the item joins its list; the products are the reservation's result |
| Lifecycle.RemoveOrderItem | src/eCommerceService/Services/OrdersService.cs:125-148 | on any failure the store is unchanged; the order or validator error comes first, then OrderItemNotFound, then ProductNotFound for an item whose product is missing or inactive |
| Lifecycle.RemoveOrderItemEffect | src/eCommerceService/Services/OrdersService.cs:125-148 | removing succeeds exactly for a Draft order, an existing item and an active product; the item is deleted and its whole quantity is released; the given order's total drops by quantity × current price; the owning order loses the item from its list and nothing else; every other order is unchanged |
| Lifecycle.UpdateOrderItem | src/eCommerceService/Services/OrdersService.cs:159-208 | on any failure the store is unchanged; for a non-zero new quantity, the errors are OrderNotFound, then OrderItemNotFound, then (only when the quantity differs) the validator's; past those checks the outcome is exactly Lifecycle.Resize's; a successful resize sets the quantity and shifts the item amount and the order total by the same (new − old) × price |
| Lifecycle.PayOrder | src/eCommerceService/Services/OrdersService.cs:217-229 | succeeds exactly when the order exists and the Pay validator passes; it then moves Draft→Paid and changes only the status and the payment date; otherwise the store is unchanged |
| Lifecycle.Resize | src/eCommerceService/Services/OrdersService.cs:185-205 | a decrease releases the difference with UnreserveProduct, an increase reserves it with ReserveProduct; the resize succeeds exactly when that posting does, fails with the posting's error and an unchanged store, and on success takes the posting's product table, sets the item's quantity and moves the item amount and the order total by (new − old) × current price, nothing else changing |
| Lifecycle.ShipItem | src/eCommerceService/Services/OrdersService.cs:251 | ships the item's quantity of its product; fails exactly when that product is missing or inactive, with its NotFound; on success only reserved counts change |
| Lifecycle.ShipItems | src/eCommerceService/Services/OrdersService.cs:249-252 | a failure is the NotFound of the first listed item whose product is missing or inactive; on success the product keys are kept and only reserved counts change |
| Lifecycle.ShipOrder | src/eCommerceService/Services/OrdersService.cs:238-260 | succeeds exactly when the Ship validator passes and every item's product ships; it then moves Paid→Shipped, sets the shipped date and takes the shipped product table; past the validator, a failure is the error of ShipItems (the first unshippable item's ProductNotFound); any failure leaves the whole store unchanged |
| Lifecycle.DeliverOrder | src/eCommerceService/Services/OrdersService.cs:269-281 | succeeds exactly when the Deliver validator passes; it then moves Shipped→Delivered and changes only the status and its date |
| Lifecycle.CancelOrder | src/eCommerceService/Services/OrdersService.cs:290-302 | succeeds exactly when the Cancel validator passes; it then moves Draft→Cancelled and changes only the status and its date; products and items are never touched, so reservations stay |
| LifecycleProperties.AddOrderKeepsInvariants | src/eCommerceService/Services/OrdersService.cs:33-51 | the new order's id was not in use, and a well-formed store stays well formed with consistent totals |
| LifecycleProperties.UpdateOrderKeepsInvariants | src/eCommerceService/Services/OrdersService.cs:63-73 | changing the address keeps the store well formed and the totals consistent |
| LifecycleProperties.StatusChangesKeepInvariants | src/eCommerceService/Services/OrdersService.cs:217-302 | pay, ship, deliver and cancel keep the store well formed and the totals consistent |
| LifecycleProperties.AddOrderItemKeepsInvariants | src/eCommerceService/Services/OrdersService.cs:84-115 | adding an item keeps the store well formed and every order total equal to the sum of its items' amounts |
| LifecycleProperties.RemoveOrderItemKeepsWellFormed | src/eCommerceService/Services/OrdersService.cs:125-148 | removing an item, even through an order that does not own it, keeps the store well formed |
| LifecycleProperties.RemoveOrderItemKeepsInvariants | src/eCommerceService/Services/OrdersService.cs:125-148 | removing an item keeps the store well formed; it keeps the totals consistent when the item belongs to the given order and its amount is still quantity × current price |
| LifecycleProperties.UpdateOrderItemKeepsInvariants | src/eCommerceService/Services/OrdersService.cs:159-208 | resizing keeps the store well formed; it keeps the totals consistent when the item belongs to the given order, with the current-price condition needed only for quantity 0 |
| LifecycleProperties.ResizeKeepsInvariants | src/eCommerceService/Services/OrdersService.cs:185-205 | a resize keeps the store well formed, and keeps every order total equal to the sum of its items' amounts when the item belongs to the resized order |
| LifecycleProperties.UpdateToZeroIsRemove | src/eCommerceService/Services/OrdersService.cs:161-166 | updating to quantity 0 is exactly removing the item |
| LifecycleProperties.UpdateToSameQuantityIsNoOp | src/eCommerceService/Services/OrdersService.cs:168-176 | updating to the current quantity succeeds and changes nothing, whatever the order's status |
| LifecycleProperties.ForeignItemRemovalBreaksTotals | src/eCommerceService/Services/OrdersService.cs:133-145 | in a consistent store, removing another order's item through order 1 succeeds: order 1's total goes to -10, the owner keeps 10 with no items, and the totals are no longer consistent |
| LifecycleProperties.RepricedItemRemovalBreaksTotals | src/eCommerceService/Services/OrdersService.cs:138-144 | after a price rise from 5 to 6, removing a 2-unit item worth 10 leaves an empty order with total -2 |
| LifecycleProperties.ShipItemsSucceedsIff | src/eCommerceService/Services/OrdersService.cs:249-252 | shipping the items succeeds exactly when every listed item's product exists and is active |
| LifecycleProperties.ShipItemsLowersReserved | src/eCommerceService/Services/OrdersService.cs:249-252 | shipping the items keeps the product keys and changes only reserved counts; each product's count is its old count lowered, with the clamp, by the quantities of its items in list order; a product no item is on stays as it was |
| LifecycleProperties.ReservedAfterIsFlooredDifference | src/eCommerceService/Services/ProductsService.cs:101-107 | with non-negative quantities and a non-negative start, lowering with the clamp one item at a time equals subtracting the total once, floored at 0 |
| LifecycleProperties.ShipOrderDependsOnItemOrder | src/eCommerceService/Services/OrdersService.cs:249-252 | with a negative item quantity the shipping order matters: from reserved 0, shipping 5 then −3 of one product leaves 3 reserved, and −3 then 5 leaves 0 |
| LifecycleProperties.ShipOrderPostsReservations | src/eCommerceService/Services/OrdersService.cs:238-260 | after a successful ship the order is Shipped, and every product differs from before at most in its reserved count, lowered by the order's quantities on it |
| LifecycleProperties.ShipEmptyOrderFails | src/eCommerceService/Services/OrdersService.cs:238-244 | an order with total 0 that is not cancelled fails to ship with NoOrderItemAvailableToShip, and the store is unchanged |
| Orders.OrdersService.constructor | src/eCommerceService/Services/OrdersService.cs:16-21 | the service starts with empty order and item tables over the given ledger, and is well formed |
| Orders.OrdersService.GetOrder | src/eCommerceService/Services/OrdersService.cs:309 | returns the stored order exactly when it exists, and nothing otherwise |
| Orders.OrdersService.AddOrder | src/eCommerceService/Services/OrdersService.cs:33-51 | result and new state are those of Lifecycle.AddOrder; the store stays well formed with consistent totals |
| Orders.OrdersService.UpdateOrder | src/eCommerceService/Services/OrdersService.cs:63-73 | result and new state are those of Lifecycle.UpdateOrder; the store stays well formed with consistent totals |
| Orders.OrdersService.AddOrderItem | src/eCommerceService/Services/OrdersService.cs:84-115 | result and new state, ledger included, are those of Lifecycle.AddOrderItem; the store stays well formed with consistent totals |
| Orders.OrdersService.RemoveOrderItem | src/eCommerceService/Services/OrdersService.cs:125-148 | result and new state, ledger included, are those of Lifecycle.RemoveOrderItem; the store stays well formed |
| Orders.OrdersService.UpdateOrderItem | src/eCommerceService/Services/OrdersService.cs:159-208 | result and new state, ledger included, are those of Lifecycle.UpdateOrderItem; the store stays well formed |
| Orders.OrdersService.ResizeOrderItem | src/eCommerceService/Services/OrdersService.cs:182-207 | the validated step of an update: result and new state are those of Lifecycle.Resize |
| Orders.OrdersService.PayOrder | src/eCommerceService/Services/OrdersService.cs:217-229 | result and new state are those of Lifecycle.PayOrder; the store stays well formed with consistent totals |
| Orders.OrdersService.ShipOrder | src/eCommerceService/Services/OrdersService.cs:238-260 | the loop ships the items in list order and rolls the ledger back on the first failure; result and new state are those of Lifecycle.ShipOrder, and the store stays well formed with consistent totals |
| Orders.OrdersService.DeliverOrder | src/eCommerceService/Services/OrdersService.cs:269-281 | result and new state are those of Lifecycle.DeliverOrder; the store stays well formed with consistent totals |
| Orders.OrdersService.CancelOrder | src/eCommerceService/Services/OrdersService.cs:290-302 | result and new state are those of Lifecycle.CancelOrder; the store stays well formed with consistent totals |

## Left out

- Controllers, middleware, startup, DI registration, AutoMapper profiles and models: these are HTTP and wiring concerns with no rules of the core.
- Repositories, the EF Core context and migrations: the tables are maps held by the two service classes. The repository's active-product filter is part of `GetProduct`. Deleting an item takes it out of its owner's item collection, as EF does with the loaded navigation.
- `GetOrderFullAsync` is the same lookup as `GetOrderAsync` here, because an order always carries its item ids.
- `AddProductAsync` and `GetProductsAsync` (product creation and text search): plain CRUD, with no rule of the ledger. Customers and their service are left out for the same reason.
- Async execution and `TransactionScope`: each operation is sequential and all-or-nothing. The ledger snapshot in `ShipOrder` stands in for the rollback. Concurrent requests are not modelled.
- Clock values: `CreatedDate`, `UpdatedDate` and the four status dates are kept only as "is set" flags (the status dates), or not at all. The clock-derived `OrderNumber` is not modelled.
- Row identities are counters (`nextOrderId`, `nextItemId`) standing in for the database's identity columns.
- The free-text messages that each `ECommerceException` carries beside its `ErrorCode` are not modelled. Only the error code is.
- The "validator not found" exception cannot arise: `ValidatorFor` maps every action to its validator.
- Money is an exact integer count of minor units. The `decimal(18,2)` column scale and C# `decimal` arithmetic are not modelled. Quantities are unbounded integers, so `int` overflow is not modelled.
- `ProductCategory` is kept as its integer value.
- The order of `OrderItems` in the `foreach` of `ShipOrderAsync` is taken to be the order's item list order. The database gives no order. Which error is reported first can differ. When an item has a negative quantity, the final reserved count of a product that two items share can also differ, because each step is floored at 0 (`LifecycleProperties.ShipOrderDependsOnItemOrder`).
- ErrorCodes.NotFound: its contract states only the status. The name "<Type>NotFound" and the message "<Type> id: <id> not found" are its definition, and what they determine is stated by `NotFoundInjective` and `NotFoundIsNotNamed`.
