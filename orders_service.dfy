/**
 * Services/OrdersService.cs: the order and order-item tables updated in place,
 * with the product store reached through the ledger. Each method does what the
 * corresponding Lifecycle function says, and keeps the store well formed.
 */
module Orders {
  import opened Wrappers
  import opened Entities
  import opened ErrorCodes
  import opened OrderValidators
  import opened Lifecycle
  import LifecycleProperties
  import opened Products

  class OrdersService {
    var orders: map<int, Order>
    var items: map<int, OrderItem>
    var nextOrderId: int
    var nextItemId: int
    const productsService: ProductsService

    /** The whole store this service and its ledger hold. */
    function State(): World
      reads this, productsService
    {
      World(orders, items, productsService.products, nextOrderId, nextItemId)
    }

    ghost predicate Valid()
      reads this, productsService
    {
      WellFormed(State())
    }

    /** An empty order store over the given ledger; the database numbers rows from 1. */
    constructor (productsService: ProductsService)
      ensures this.productsService == productsService
      ensures State() == World(map[], map[], productsService.products, 1, 1)
      ensures Valid()
    {
      this.productsService := productsService;
      orders := map[];
      items := map[];
      nextOrderId := 1;
      nextItemId := 1;
    }

    /** The stored order, or None: the callers turn a missing order into NotFound. */
    method GetOrder(orderId: int) returns (r: Option<Order>)
      ensures r.Some? <==> orderId in orders
      ensures r.Some? ==> r.value == orders[orderId] && Lifecycle.GetOrder(orders, orderId) == Success(r.value)
      ensures r.None? ==> Lifecycle.GetOrder(orders, orderId) == Failure(NotFound(OrderType, orderId))
    {
      if orderId !in orders {
        return None;
      }
      return Some(orders[orderId]);
    }

    method AddOrder(customerId: int, currencyCode: string, streetAddress: Option<string>, postalCode: Option<string>,
                    city: Option<string>, country: Option<string>) returns (r: Result<Order, ErrorCode>)
      requires Valid()
      modifies this
      ensures Valid()
      ensures old(TotalsConsistent(State())) ==> TotalsConsistent(State())
      ensures Outcome(r, State()) == Lifecycle.AddOrder(old(State()), customerId, currencyCode, streetAddress, postalCode, city, country)
    {
      ghost var w := State();
      var order := Order(nextOrderId, customerId, currencyCode, 0, Draft, false, false, false, false,
                         streetAddress, postalCode, city, country, []);
      orders := orders[order.id := order];
      nextOrderId := nextOrderId + 1;
      LifecycleProperties.AddOrderKeepsInvariants(w, customerId, currencyCode, streetAddress, postalCode, city, country);
      return Success(order);
    }

    method UpdateOrder(orderId: int, streetAddress: Option<string>, postalCode: Option<string>,
                       city: Option<string>, country: Option<string>) returns (r: Result<Order, ErrorCode>)
      requires Valid()
      modifies this
      ensures Valid()
      ensures old(TotalsConsistent(State())) ==> TotalsConsistent(State())
      ensures Outcome(r, State()) == Lifecycle.UpdateOrder(old(State()), orderId, streetAddress, postalCode, city, country)
    {
      ghost var w := State();
      if orderId !in orders {
        return Failure(NotFound(OrderType, orderId));
      }
      var order := orders[orderId].(streetAddress := streetAddress, postalCode := postalCode, city := city, country := country);
      orders := orders[orderId := order];
      LifecycleProperties.UpdateOrderKeepsInvariants(w, orderId, streetAddress, postalCode, city, country);
      return Success(order);
    }

    method AddOrderItem(orderId: int, productId: int, quantity: int) returns (r: Result<OrderItem, ErrorCode>)
      requires Valid()
      modifies this, productsService
      ensures Valid()
      ensures old(TotalsConsistent(State())) ==> TotalsConsistent(State())
      ensures Outcome(r, State()) == Lifecycle.AddOrderItem(old(State()), orderId, productId, quantity)
    {
      ghost var w := State();
      if orderId !in orders {
        return Failure(NotFound(OrderType, orderId));
      }
      var order := orders[orderId];
      var valid := ValidatorFor(ChangeInOrderItems).ValidateOrder(order);
      if valid.Failure? {
        return Failure(valid.error);
      }
      var reserved := productsService.ReserveProduct(productId, quantity);
      if reserved.Failure? {
        return Failure(reserved.error);
      }
      var item := OrderItem(nextItemId, orderId, productId, quantity, reserved.value);
      items := items[item.id := item];
      nextItemId := nextItemId + 1;
      orders := orders[orderId := order.(totalAmount := order.totalAmount + reserved.value,
                                         orderItemIds := order.orderItemIds + [item.id])];
      assert Lifecycle.AddOrderItem(w, orderId, productId, quantity) == Outcome(Success(item), State());
      LifecycleProperties.AddOrderItemKeepsInvariants(w, orderId, productId, quantity);
      return Success(item);
    }

    method RemoveOrderItem(orderId: int, itemId: int) returns (r: Result<(), ErrorCode>)
      requires Valid()
      modifies this, productsService
      ensures Valid()
      ensures Outcome(r, State()) == Lifecycle.RemoveOrderItem(old(State()), orderId, itemId)
    {
      ghost var w := State();
      if orderId !in orders {
        return Failure(NotFound(OrderType, orderId));
      }
      var valid := ValidatorFor(ChangeInOrderItems).ValidateOrder(orders[orderId]);
      if valid.Failure? {
        return Failure(valid.error);
      }
      if itemId !in items {
        return Failure(NotFound(OrderItemType, itemId));
      }
      var item := items[itemId];
      var released := productsService.UnreserveProduct(item.productId, item.quantity);
      if released.Failure? {
        return Failure(released.error);
      }
      items := items - {itemId};
      orders := Detach(orders, item.orderId, itemId);
      var order := orders[orderId];
      orders := orders[orderId := order.(totalAmount := order.totalAmount - released.value)];
      assert Lifecycle.RemoveOrderItem(w, orderId, itemId) == Outcome(Success(()), State());
      LifecycleProperties.RemoveOrderItemKeepsInvariants(w, orderId, itemId);
      return Success(());
    }

    method UpdateOrderItem(orderId: int, itemId: int, quantity: int) returns (r: Result<(), ErrorCode>)
      requires Valid()
      modifies this, productsService
      ensures Valid()
      ensures Outcome(r, State()) == Lifecycle.UpdateOrderItem(old(State()), orderId, itemId, quantity)
    {
      ghost var w := State();
      if quantity == 0 {
        LifecycleProperties.UpdateToZeroIsRemove(w, orderId, itemId);
        r := RemoveOrderItem(orderId, itemId);
        return;
      }
      if orderId !in orders {
        return Failure(NotFound(OrderType, orderId));
      }
      var order := orders[orderId];
      if itemId !in items {
        return Failure(NotFound(OrderItemType, itemId));
      }
      var item := items[itemId];
      if item.quantity == quantity {
        return Success(());
      }
      var valid := ValidatorFor(ChangeInOrderItems).ValidateOrder(order);
      if valid.Failure? {
        return Failure(valid.error);
      }
      assert Lifecycle.UpdateOrderItem(w, orderId, itemId, quantity) == Resize(w, orderId, itemId, quantity);
      r := ResizeOrderItem(orderId, itemId, quantity);
      LifecycleProperties.UpdateOrderItemKeepsInvariants(w, orderId, itemId, quantity);
    }

    /** The validated part of UpdateOrderItem: release or reserve the difference and
        move the item amount and the order total by what the ledger returns. */
    method ResizeOrderItem(orderId: int, itemId: int, quantity: int) returns (r: Result<(), ErrorCode>)
      requires orderId in orders && itemId in items
      modifies this, productsService
      ensures Outcome(r, State()) == Resize(old(State()), orderId, itemId, quantity)
    {
      var order := orders[orderId];
      var item := items[itemId];
      if quantity < item.quantity {
        var released := productsService.UnreserveProduct(item.productId, item.quantity - quantity);
        if released.Failure? {
          return Failure(released.error);
        }
        items := items[itemId := item.(amount := item.amount - released.value, quantity := quantity)];
        orders := orders[orderId := order.(totalAmount := order.totalAmount - released.value)];
      } else {
        var reserved := productsService.ReserveProduct(item.productId, quantity - item.quantity);
        if reserved.Failure? {
          return Failure(reserved.error);
        }
        items := items[itemId := item.(quantity := quantity, amount := item.amount + reserved.value)];
        orders := orders[orderId := order.(totalAmount := order.totalAmount + reserved.value)];
      }
      return Success(());
    }

    method PayOrder(orderId: int) returns (r: Result<(), ErrorCode>)
      requires Valid()
      modifies this
      ensures Valid()
      ensures old(TotalsConsistent(State())) ==> TotalsConsistent(State())
      ensures Outcome(r, State()) == Lifecycle.PayOrder(old(State()), orderId)
    {
      ghost var w := State();
      if orderId !in orders {
        return Failure(NotFound(OrderType, orderId));
      }
      var order := orders[orderId];
      var valid := ValidatorFor(Pay).ValidateOrder(order);
      if valid.Failure? {
        return Failure(valid.error);
      }
      orders := orders[orderId := order.(orderStatus := Paid, paymentDateSet := true)];
      LifecycleProperties.StatusChangesKeepInvariants(w, orderId);
      return Success(());
    }

    /** Ships every item's product in list order; the first failure rolls the
        ledger back to where it was and the order is left as it was. */
    method ShipOrder(orderId: int) returns (r: Result<(), ErrorCode>)
      requires Valid()
      modifies this, productsService
      ensures Valid()
      ensures old(TotalsConsistent(State())) ==> TotalsConsistent(State())
      ensures Outcome(r, State()) == Lifecycle.ShipOrder(old(State()), orderId)
    {
      ghost var w := State();
      if orderId !in orders {
        return Failure(NotFound(OrderType, orderId));
      }
      var order := orders[orderId];
      var valid := ValidatorFor(Ship).ValidateOrder(order);
      if valid.Failure? {
        return Failure(valid.error);
      }
      LifecycleProperties.StatusChangesKeepInvariants(w, orderId);
      var snapshot := productsService.products;
      var ids := order.orderItemIds;
      var i := 0;
      while i < |ids|
        invariant 0 <= i <= |ids|
        invariant ShipItems(snapshot, items, ids) == ShipItems(productsService.products, items, ids[i..])
        modifies productsService
      {
        assert ids[i..][1..] == ids[i + 1..];
        if ids[i] in items {
          var item := items[ids[i]];
          var shipped := productsService.ShipProduct(item.productId, item.quantity);
          if shipped.Failure? {
            productsService.products := snapshot;
            return Failure(shipped.error);
          }
        }
        i := i + 1;
      }
      orders := orders[orderId := order.(orderStatus := Shipped, shippedDateSet := true)];
      return Success(());
    }

    method DeliverOrder(orderId: int) returns (r: Result<(), ErrorCode>)
      requires Valid()
      modifies this
      ensures Valid()
      ensures old(TotalsConsistent(State())) ==> TotalsConsistent(State())
      ensures Outcome(r, State()) == Lifecycle.DeliverOrder(old(State()), orderId)
    {
      ghost var w := State();
      if orderId !in orders {
        return Failure(NotFound(OrderType, orderId));
      }
      var order := orders[orderId];
      var valid := ValidatorFor(Deliver).ValidateOrder(order);
      if valid.Failure? {
        return Failure(valid.error);
      }
      orders := orders[orderId := order.(orderStatus := Delivered, deliveredDateSet := true)];
      LifecycleProperties.StatusChangesKeepInvariants(w, orderId);
      return Success(());
    }

    method CancelOrder(orderId: int) returns (r: Result<(), ErrorCode>)
      requires Valid()
      modifies this
      ensures Valid()
      ensures old(TotalsConsistent(State())) ==> TotalsConsistent(State())
      ensures Outcome(r, State()) == Lifecycle.CancelOrder(old(State()), orderId)
    {
      ghost var w := State();
      if orderId !in orders {
        return Failure(NotFound(OrderType, orderId));
      }
      var order := orders[orderId];
      var valid := ValidatorFor(Cancel).ValidateOrder(order);
      if valid.Failure? {
        return Failure(valid.error);
      }
      orders := orders[orderId := order.(orderStatus := Cancelled, cancelledDateSet := true)];
      LifecycleProperties.StatusChangesKeepInvariants(w, orderId);
      return Success(());
    }
  }
}
