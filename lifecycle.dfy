/**
 * The order lifecycle of Services/OrdersService.cs as functions over the whole
 * store: orders, order items and products. Each operation yields its result
 * (a value or the error it throws) and the store after it. Every multi-step
 * operation runs in one transaction: on any error the store is returned as it
 * was. The class in module Orders is proved to behave exactly like these.
 */
module Lifecycle {
  import opened Wrappers
  import opened Entities
  import opened ErrorCodes
  import opened OrderValidators
  import Inventory

  /** The store: the order and order-item tables, the product table the ledger
      updates, and the next identities the database would hand out. */
  datatype World = World(
    orders: map<int, Order>,
    items: map<int, OrderItem>,
    products: map<int, Product>,
    nextOrderId: int,
    nextItemId: int)

  datatype Outcome<+T> = Outcome(result: Result<T, ErrorCode>, world: World)

  // ---------------------------------------------------------------------------
  // Store shape and the order-total invariant.

  predicate Distinct(ids: seq<int>) {
    forall i, j :: 0 <= i < j < |ids| ==> ids[i] != ids[j]
  }

  /** An order's item list names distinct items that exist and point back to it. */
  ghost predicate ListsOwnItems(order: Order, items: map<int, OrderItem>) {
    && Distinct(order.orderItemIds)
    && forall i :: 0 <= i < |order.orderItemIds| ==>
         order.orderItemIds[i] in items && items[order.orderItemIds[i]].orderId == order.id
  }

  /** The foreign keys and identities of the store hold. */
  ghost predicate WellFormed(w: World) {
    && (forall id :: id in w.orders ==>
          w.orders[id].id == id && id < w.nextOrderId && ListsOwnItems(w.orders[id], w.items))
    && (forall id :: id in w.items ==>
          && w.items[id].id == id && id < w.nextItemId
          && w.items[id].orderId in w.orders
          && id in w.orders[w.items[id].orderId].orderItemIds)
  }

  function AmountOf(items: map<int, OrderItem>, id: int): int {
    if id in items then items[id].amount else 0
  }

  /** The sum of the amounts of the listed items. */
  function SumAmounts(items: map<int, OrderItem>, ids: seq<int>): int {
    if ids == [] then 0 else AmountOf(items, ids[0]) + SumAmounts(items, ids[1..])
  }

  /** Every order's total is the sum of its items' amounts. */
  ghost predicate TotalsConsistent(w: World) {
    forall id :: id in w.orders ==> w.orders[id].totalAmount == SumAmounts(w.items, w.orders[id].orderItemIds)
  }

  /** The list without x. */
  function Without(ids: seq<int>, x: int): (r: seq<int>)
    ensures forall y :: y in r <==> y in ids && y != x
    ensures |r| <= |ids|
  {
    if ids == [] then [] else if ids[0] == x then Without(ids[1..], x) else [ids[0]] + Without(ids[1..], x)
  }

  lemma {:induction false} SumAppend(items: map<int, OrderItem>, ids: seq<int>, x: int)
    ensures SumAmounts(items, ids + [x]) == SumAmounts(items, ids) + AmountOf(items, x)
  {
    if ids != [] {
      assert (ids + [x])[1..] == ids[1..] + [x];
      SumAppend(items, ids[1..], x);
    }
  }

  /** The sum reads only the listed items. */
  lemma {:induction false} SumFrame(items: map<int, OrderItem>, items': map<int, OrderItem>, ids: seq<int>)
    requires forall k :: 0 <= k < |ids| ==> AmountOf(items, ids[k]) == AmountOf(items', ids[k])
    ensures SumAmounts(items, ids) == SumAmounts(items', ids)
  {
    if ids != [] {
      SumFrame(items, items', ids[1..]);
    }
  }

  /** Dropping an item that is listed once lowers the sum by its amount. */
  lemma {:induction false} SumWithout(items: map<int, OrderItem>, ids: seq<int>, x: int)
    requires Distinct(ids)
    ensures SumAmounts(items, Without(ids, x)) == SumAmounts(items, ids) - (if x in ids then AmountOf(items, x) else 0)
  {
    if ids != [] {
      assert Distinct(ids[1..]);
      SumWithout(items, ids[1..], x);
      if ids[0] == x {
        assert x !in ids[1..];
      } else {
        assert [ids[0]] + Without(ids[1..], x) == Without(ids, x);
        assert (x in ids) == (x in ids[1..]);
      }
    }
  }

  /** Changing the amount of an item listed once shifts the sum by the difference. */
  lemma {:induction false} SumUpdate(items: map<int, OrderItem>, ids: seq<int>, x: int, item: OrderItem)
    requires Distinct(ids) && x in ids
    ensures SumAmounts(items[x := item], ids) == SumAmounts(items, ids) - AmountOf(items, x) + item.amount
  {
    if ids[0] == x {
      assert x !in ids[1..];
      SumFrame(items, items[x := item], ids[1..]);
    } else {
      assert Distinct(ids[1..]);
      SumUpdate(items, ids[1..], x, item);
    }
  }

  lemma {:induction false} WithoutDistinct(ids: seq<int>, x: int)
    requires Distinct(ids)
    ensures Distinct(Without(ids, x))
  {
    if ids != [] {
      assert Distinct(ids[1..]);
      WithoutDistinct(ids[1..], x);
      var rest := Without(ids[1..], x);
      if ids[0] != x {
        assert ids[0] !in rest;
        assert Without(ids, x) == [ids[0]] + rest;
      }
    }
  }

  // ---------------------------------------------------------------------------
  // Lookups and validation.

  /** `GetOrderAsync` / `GetOrderFullAsync`, or NotFound. */
  function GetOrder(orders: map<int, Order>, id: int): (r: Result<Order, ErrorCode>)
    ensures r.Success? <==> id in orders
    ensures r.Success? ==> r.value == orders[id]
    ensures r.Failure? ==> r.error == NotFound(OrderType, id)
  {
    if id in orders then Success(orders[id]) else Failure(NotFound(OrderType, id))
  }

  /** `GetOrderItemAsync`, or NotFound: the item is looked up among all items, of any order. */
  function GetOrderItem(items: map<int, OrderItem>, id: int): (r: Result<OrderItem, ErrorCode>)
    ensures r.Success? <==> id in items
    ensures r.Success? ==> r.value == items[id]
    ensures r.Failure? ==> r.error == NotFound(OrderItemType, id)
  {
    if id in items then Success(items[id]) else Failure(NotFound(OrderItemType, id))
  }

  /** Load the order, then run the action's validator on it. */
  function LoadValidated(w: World, orderId: int, v: OrderValidator): (r: Result<Order, ErrorCode>)
    ensures r.Success? <==> orderId in w.orders && v.ValidateOrder(w.orders[orderId]).Success?
    ensures r.Success? ==> r.value == w.orders[orderId]
    ensures orderId !in w.orders ==> r == Failure(NotFound(OrderType, orderId))
    ensures orderId in w.orders && v.ValidateOrder(w.orders[orderId]).Failure? ==>
              r == Failure(v.ValidateOrder(w.orders[orderId]).error)
  {
    match GetOrder(w.orders, orderId)
    case Failure(e) => Failure(e)
    case Success(order) =>
      match v.ValidateOrder(order)
      case Failure(e) => Failure(e)
      case Success(_) => Success(order)
  }

  // ---------------------------------------------------------------------------
  // The operations.

  /** `AddOrderAsync`: a new Draft order with no items and a zero total. */
  function AddOrder(w: World, customerId: int, currencyCode: string, streetAddress: Option<string>,
                    postalCode: Option<string>, city: Option<string>, country: Option<string>): (r: Outcome<Order>)
    ensures r.result.Success?
    ensures r.result.value.id == w.nextOrderId
    ensures var o := r.result.value;
            && o.orderStatus == Draft && o.totalAmount == 0 && o.orderItemIds == []
            && o.customerId == customerId && o.currencyCode == currencyCode
            && o.streetAddress == streetAddress && o.postalCode == postalCode
            && o.city == city && o.country == country
            && !o.paymentDateSet && !o.shippedDateSet && !o.deliveredDateSet && !o.cancelledDateSet
            && r.world == w.(orders := w.orders[o.id := o], nextOrderId := w.nextOrderId + 1)
  {
    var order := Order(w.nextOrderId, customerId, currencyCode, 0, Draft, false, false, false, false,
                       streetAddress, postalCode, city, country, []);
    Outcome(Success(order), w.(orders := w.orders[order.id := order], nextOrderId := w.nextOrderId + 1))
  }

  /** `UpdateOrderAsync`: overwrites the four shipping-address fields, whatever the status. */
  function UpdateOrder(w: World, orderId: int, streetAddress: Option<string>, postalCode: Option<string>,
                       city: Option<string>, country: Option<string>): (r: Outcome<Order>)
    ensures r.result.Failure? ==> r.world == w && r.result.error == NotFound(OrderType, orderId)
    ensures r.result.Success? <==> orderId in w.orders
    ensures r.result.Success? ==>
              && r.result.value == w.orders[orderId].(streetAddress := streetAddress, postalCode := postalCode,
                                                        city := city, country := country)
              && r.world == w.(orders := w.orders[orderId := r.result.value])
  {
    match GetOrder(w.orders, orderId)
    case Failure(e) => Outcome(Failure(e), w)
    case Success(order) =>
      var order' := order.(streetAddress := streetAddress, postalCode := postalCode, city := city, country := country);
      Outcome(Success(order'), w.(orders := w.orders[orderId := order']))
  }

  /** `AddOrderItemAsync`: reserve the quantity, record an item holding the reserved
      amount, and raise the order total by that same amount. */
  function AddOrderItem(w: World, orderId: int, productId: int, quantity: int): (r: Outcome<OrderItem>)
    ensures r.result.Failure? ==> r.world == w
    ensures LoadValidated(w, orderId, ChangeInOrderItemsValidator).Failure? ==>
              r.result == Failure(LoadValidated(w, orderId, ChangeInOrderItemsValidator).error)
    ensures LoadValidated(w, orderId, ChangeInOrderItemsValidator).Success? &&
            Inventory.ReserveProduct(w.products, productId, quantity).Failure? ==>
              r.result == Failure(Inventory.ReserveProduct(w.products, productId, quantity).error)
  {
    match LoadValidated(w, orderId, ValidatorFor(ChangeInOrderItems))
    case Failure(e) => Outcome(Failure(e), w)
    case Success(order) =>
      match Inventory.ReserveProduct(w.products, productId, quantity)
      case Failure(e) => Outcome(Failure(e), w)
      case Success(reserved) =>
        var item := OrderItem(w.nextItemId, orderId, productId, quantity, reserved.amount);
        var order' := order.(totalAmount := order.totalAmount + reserved.amount,
                             orderItemIds := order.orderItemIds + [item.id]);
        Outcome(Success(item), w.(orders := w.orders[orderId := order'], items := w.items[item.id := item],
                                  products := reserved.products, nextItemId := w.nextItemId + 1))
  }

  /** AddOrderItem succeeds exactly for a Draft order and a reservable product, and
      then records the item at the price of the moment and adds its amount to the total. */
  lemma AddOrderItemEffect(w: World, orderId: int, productId: int, quantity: int)
    ensures var r := AddOrderItem(w, orderId, productId, quantity);
            r.result.Success? <==>
              orderId in w.orders && w.orders[orderId].orderStatus == Draft &&
              Inventory.ReserveProduct(w.products, productId, quantity).Success?
    ensures var r := AddOrderItem(w, orderId, productId, quantity);
            r.result.Success? ==>
              var order := w.orders[orderId];
              var item := r.result.value;
              && productId in w.products
              && item == OrderItem(w.nextItemId, orderId, productId, quantity, quantity * w.products[productId].unitPrice)
              && r.world.items == w.items[item.id := item]
              && r.world.orders == w.orders[orderId := order.(totalAmount := order.totalAmount + item.amount,
                                                              orderItemIds := order.orderItemIds + [item.id])]
              && r.world.products == Inventory.ReserveProduct(w.products, productId, quantity).value.products
              && r.world.nextOrderId == w.nextOrderId && r.world.nextItemId == w.nextItemId + 1
  {
  }

  /** The item leaves the item list of the order that owns it. */
  function Detach(orders: map<int, Order>, ownerId: int, itemId: int): (r: map<int, Order>)
    ensures r.Keys == orders.Keys
  {
    if ownerId in orders then
      orders[ownerId := orders[ownerId].(orderItemIds := Without(orders[ownerId].orderItemIds, itemId))]
    else orders
  }

  /** `RemoveOrderItemAsync`: release the item's whole quantity, delete the item, and
      lower the total of the given order by quantity times the product's current price.
      The item is not checked to belong to that order. */
  function RemoveOrderItem(w: World, orderId: int, itemId: int): (r: Outcome<()>)
    ensures r.result.Failure? ==> r.world == w
    ensures LoadValidated(w, orderId, ChangeInOrderItemsValidator).Failure? ==>
              r.result == Failure(LoadValidated(w, orderId, ChangeInOrderItemsValidator).error)
    ensures LoadValidated(w, orderId, ChangeInOrderItemsValidator).Success? && itemId !in w.items ==>
              r.result == Failure(NotFound(OrderItemType, itemId))
    // an item whose product was deactivated or deleted since it was added
    ensures LoadValidated(w, orderId, ChangeInOrderItemsValidator).Success? && itemId in w.items &&
            Inventory.UnreserveProduct(w.products, w.items[itemId].productId, w.items[itemId].quantity).Failure? ==>
              r.result == Failure(NotFound(ProductType, w.items[itemId].productId))
  {
    match LoadValidated(w, orderId, ValidatorFor(ChangeInOrderItems))
    case Failure(e) => Outcome(Failure(e), w)
    case Success(_) =>
      match GetOrderItem(w.items, itemId)
      case Failure(e) => Outcome(Failure(e), w)
      case Success(item) =>
        match Inventory.UnreserveProduct(w.products, item.productId, item.quantity)
        case Failure(e) => Outcome(Failure(e), w)
        case Success(released) =>
          var orders := Detach(w.orders, item.orderId, itemId);
          var order := orders[orderId];
          Outcome(Success(()), w.(orders := orders[orderId := order.(totalAmount := order.totalAmount - released.amount)],
                                  items := w.items - {itemId}, products := released.products))
  }

  /** RemoveOrderItem succeeds exactly for a Draft order, an existing item and its
      product active; the item is then gone from the store and from its owner's list,
      its quantity is released, and the given order's total drops by quantity times
      the current price. */
  lemma RemoveOrderItemEffect(w: World, orderId: int, itemId: int)
    ensures var r := RemoveOrderItem(w, orderId, itemId);
            r.result.Success? <==>
              && orderId in w.orders && w.orders[orderId].orderStatus == Draft && itemId in w.items
              && Inventory.GetProduct(w.products, w.items[itemId].productId).Success?
    ensures var r := RemoveOrderItem(w, orderId, itemId);
            r.result.Success? ==>
              var item := w.items[itemId];
              var released := item.quantity * w.products[item.productId].unitPrice;
              && r.world.items == w.items - {itemId}
              && r.world.products == Inventory.UnreserveProduct(w.products, item.productId, item.quantity).value.products
              && r.world.orders.Keys == w.orders.Keys
              // the given order loses the released amount, and the item if it owns it
              && r.world.orders[orderId] ==
                   w.orders[orderId].(totalAmount := w.orders[orderId].totalAmount - released,
                                      orderItemIds := if item.orderId == orderId
                                                      then Without(w.orders[orderId].orderItemIds, itemId)
                                                      else w.orders[orderId].orderItemIds)
              // the owning order, when it is another one, loses only the item
              && (item.orderId in w.orders && item.orderId != orderId ==>
                    r.world.orders[item.orderId] ==
                      w.orders[item.orderId].(orderItemIds := Without(w.orders[item.orderId].orderItemIds, itemId)))
              && (item.orderId in w.orders ==> itemId !in r.world.orders[item.orderId].orderItemIds)
              // every other order is untouched
              && (forall id :: id in w.orders && id != orderId && id != item.orderId ==>
                                r.world.orders[id] == w.orders[id])
              && r.world.nextOrderId == w.nextOrderId && r.world.nextItemId == w.nextItemId
  {
  }

  /** `UpdateOrderItemAsync`: quantity 0 removes the item; the current quantity changes
      nothing (and runs no validator); otherwise the difference is reserved or released and
      both the item amount and the order total move by the amount the ledger returns. */
  function UpdateOrderItem(w: World, orderId: int, itemId: int, quantity: int): (r: Outcome<()>)
    ensures r.result.Failure? ==> r.world == w
    ensures quantity != 0 && orderId !in w.orders ==> r.result == Failure(NotFound(OrderType, orderId))
    ensures quantity != 0 && orderId in w.orders && itemId !in w.items ==> r.result == Failure(NotFound(OrderItemType, itemId))
    ensures quantity != 0 && orderId in w.orders && itemId in w.items && w.items[itemId].quantity != quantity &&
            ChangeInOrderItemsValidator.ValidateOrder(w.orders[orderId]).Failure? ==>
              r.result == Failure(ChangeInOrderItemsValidator.ValidateOrder(w.orders[orderId]).error)
    ensures quantity != 0 && orderId in w.orders && itemId in w.items && w.items[itemId].quantity != quantity &&
            ChangeInOrderItemsValidator.ValidateOrder(w.orders[orderId]).Success? ==>
              r == Resize(w, orderId, itemId, quantity)
    ensures r.result.Success? && quantity != 0 ==> orderId in w.orders && itemId in w.items
    ensures r.result.Success? && quantity != 0 && w.items[itemId].quantity != quantity ==>
              w.items[itemId].productId in w.products
    ensures r.result.Success? && quantity != 0 && w.items[itemId].quantity != quantity ==>
              var item := w.items[itemId];
              var shift := (quantity - item.quantity) * w.products[item.productId].unitPrice;
              && w.orders[orderId].orderStatus == Draft
              && r.world.items == w.items[itemId := item.(quantity := quantity, amount := item.amount + shift)]
              && r.world.orders == w.orders[orderId := w.orders[orderId].(totalAmount := w.orders[orderId].totalAmount + shift)]
              && r.world.nextOrderId == w.nextOrderId && r.world.nextItemId == w.nextItemId
  {
    if quantity == 0 then RemoveOrderItem(w, orderId, itemId)
    else
      match GetOrder(w.orders, orderId)
      case Failure(e) => Outcome(Failure(e), w)
      case Success(order) =>
        match GetOrderItem(w.items, itemId)
        case Failure(e) => Outcome(Failure(e), w)
        case Success(item) =>
          if item.quantity == quantity then Outcome(Success(()), w)
          else
            match ValidatorFor(ChangeInOrderItems).ValidateOrder(order)
            case Failure(e) => Outcome(Failure(e), w)
            case Success(_) => Resize(w, orderId, itemId, quantity)
  }

  /** The validated part of `UpdateOrderItemAsync`: release or reserve the difference. */
  function Resize(w: World, orderId: int, itemId: int, quantity: int): (r: Outcome<()>)
    requires orderId in w.orders && itemId in w.items
    // the ledger posting: release the difference on a decrease, reserve it on an increase
    ensures var item := w.items[itemId];
            var posting := if quantity < item.quantity
                           then Inventory.UnreserveProduct(w.products, item.productId, item.quantity - quantity)
                           else Inventory.ReserveProduct(w.products, item.productId, quantity - item.quantity);
            && (r.result.Success? <==> posting.Success?)
            && (posting.Failure? ==> r.result == Failure(posting.error) && r.world == w)
            && (posting.Success? ==> r.world.products == posting.value.products)
    // the item and its order move by the difference priced at the product's current price
    ensures r.result.Success? ==> w.items[itemId].productId in w.products
    ensures r.result.Success? ==>
              var item := w.items[itemId];
              var shift := (quantity - item.quantity) * w.products[item.productId].unitPrice;
              && r.world.items == w.items[itemId := item.(quantity := quantity, amount := item.amount + shift)]
              && r.world.orders == w.orders[orderId := w.orders[orderId].(totalAmount := w.orders[orderId].totalAmount + shift)]
              && r.world.nextOrderId == w.nextOrderId && r.world.nextItemId == w.nextItemId
  {
    var order := w.orders[orderId];
    var item := w.items[itemId];
    if quantity < item.quantity then
      match Inventory.UnreserveProduct(w.products, item.productId, item.quantity - quantity)
      case Failure(e) => Outcome(Failure(e), w)
      case Success(released) =>
        var item' := item.(amount := item.amount - released.amount, quantity := quantity);
        var order' := order.(totalAmount := order.totalAmount - released.amount);
        Outcome(Success(()), w.(orders := w.orders[orderId := order'], items := w.items[itemId := item'],
                                products := released.products))
    else
      match Inventory.ReserveProduct(w.products, item.productId, quantity - item.quantity)
      case Failure(e) => Outcome(Failure(e), w)
      case Success(reserved) =>
        var item' := item.(quantity := quantity, amount := item.amount + reserved.amount);
        var order' := order.(totalAmount := order.totalAmount + reserved.amount);
        Outcome(Success(()), w.(orders := w.orders[orderId := order'], items := w.items[itemId := item'],
                                products := reserved.products))
  }

  /** `PayOrderAsync`: once the Pay validator passes, only the status and its date change. */
  function PayOrder(w: World, orderId: int): (r: Outcome<()>)
    ensures r.result.Success? <==> LoadValidated(w, orderId, PayOrderValidator).Success?
    ensures r.result.Failure? ==> r.world == w && r.result.error == LoadValidated(w, orderId, PayOrderValidator).error
    ensures r.result.Success? ==>
              && Transition(w.orders[orderId].orderStatus, Paid)
              && r.world == w.(orders := w.orders[orderId := w.orders[orderId].(orderStatus := Paid, paymentDateSet := true)])
  {
    match LoadValidated(w, orderId, ValidatorFor(Pay))
    case Failure(e) => Outcome(Failure(e), w)
    case Success(order) => Outcome(Success(()), w.(orders := w.orders[orderId := order.(orderStatus := Paid, paymentDateSet := true)]))
  }

  /** The item's product is shipped for the item's quantity (an id missing from the item
      table, which a well-formed store never lists, ships nothing). */
  function ShipItem(products: map<int, Product>, items: map<int, OrderItem>, itemId: int): (r: Result<map<int, Product>, ErrorCode>)
    ensures itemId !in items ==> r == Success(products)
    ensures itemId in items ==> (r.Success? <==> Inventory.GetProduct(products, items[itemId].productId).Success?)
    ensures r.Failure? ==> itemId in items && r.error == NotFound(ProductType, items[itemId].productId)
    ensures r.Success? ==> r.value.Keys == products.Keys
    ensures r.Success? ==> forall id :: id in products ==>
                             r.value[id] == products[id].(reservedQuantity := r.value[id].reservedQuantity)
  {
    if itemId in items then Inventory.ShipProduct(products, items[itemId].productId, items[itemId].quantity)
    else Success(products)
  }

  /** The `foreach` over the order's items: ship each in turn, stopping at the first error. */
  function ShipItems(products: map<int, Product>, items: map<int, OrderItem>, ids: seq<int>): (r: Result<map<int, Product>, ErrorCode>)
    decreases |ids|
    // the error is the NotFound of the first listed item whose product is missing or inactive
    ensures r.Failure? ==>
              exists k :: && 0 <= k < |ids| && ids[k] in items
                          && Inventory.GetProduct(products, items[ids[k]].productId).Failure?
                          && r.error == NotFound(ProductType, items[ids[k]].productId)
                          && forall j :: 0 <= j < k && ids[j] in items ==>
                                           Inventory.GetProduct(products, items[ids[j]].productId).Success?
    // shipping touches only reserved counts
    ensures r.Success? ==> r.value.Keys == products.Keys
    ensures r.Success? ==> forall id :: id in products ==>
                             r.value[id] == products[id].(reservedQuantity := r.value[id].reservedQuantity)
  {
    if ids == [] then Success(products)
    else
      match ShipItem(products, items, ids[0])
      case Failure(e) => Failure(e)
      case Success(next) => ShipItems(next, items, ids[1..])
  }

  /** `ShipOrderAsync`: ship every item's product and mark the order Shipped, all in one
      transaction: if any product cannot be found, nothing changes. */
  function ShipOrder(w: World, orderId: int): (r: Outcome<()>)
    ensures r.result.Failure? ==> r.world == w
    ensures LoadValidated(w, orderId, ShipOrderValidator).Failure? ==>
              r.result == Failure(LoadValidated(w, orderId, ShipOrderValidator).error)
    ensures r.result.Success? <==>
              LoadValidated(w, orderId, ShipOrderValidator).Success? &&
              ShipItems(w.products, w.items, w.orders[orderId].orderItemIds).Success?
    // past the validator, the error is the ledger's: the first unshippable item's NotFound
    ensures LoadValidated(w, orderId, ShipOrderValidator).Success? &&
            ShipItems(w.products, w.items, w.orders[orderId].orderItemIds).Failure? ==>
              r.result == Failure(ShipItems(w.products, w.items, w.orders[orderId].orderItemIds).error)
    ensures r.result.Success? ==>
              && Transition(w.orders[orderId].orderStatus, Shipped)
              && r.world == w.(orders := w.orders[orderId := w.orders[orderId].(orderStatus := Shipped, shippedDateSet := true)],
                               products := ShipItems(w.products, w.items, w.orders[orderId].orderItemIds).value)
  {
    match LoadValidated(w, orderId, ValidatorFor(Ship))
    case Failure(e) => Outcome(Failure(e), w)
    case Success(order) =>
      match ShipItems(w.products, w.items, order.orderItemIds)
      case Failure(e) => Outcome(Failure(e), w)
      case Success(shipped) =>
        Outcome(Success(()), w.(orders := w.orders[orderId := order.(orderStatus := Shipped, shippedDateSet := true)],
                                products := shipped))
  }

  /** `DeliverOrderAsync`: once the Deliver validator passes, only the status and its date change. */
  function DeliverOrder(w: World, orderId: int): (r: Outcome<()>)
    ensures r.result.Success? <==> LoadValidated(w, orderId, DeliverOrderValidator).Success?
    ensures r.result.Failure? ==> r.world == w && r.result.error == LoadValidated(w, orderId, DeliverOrderValidator).error
    ensures r.result.Success? ==>
              && Transition(w.orders[orderId].orderStatus, Delivered)
              && r.world == w.(orders := w.orders[orderId := w.orders[orderId].(orderStatus := Delivered, deliveredDateSet := true)])
  {
    match LoadValidated(w, orderId, ValidatorFor(Deliver))
    case Failure(e) => Outcome(Failure(e), w)
    case Success(order) => Outcome(Success(()), w.(orders := w.orders[orderId := order.(orderStatus := Delivered, deliveredDateSet := true)]))
  }

  /** `CancelOrderAsync`: only the status and its date change; reserved stock is not released. */
  function CancelOrder(w: World, orderId: int): (r: Outcome<()>)
    ensures r.result.Success? <==> LoadValidated(w, orderId, CancelOrderValidator).Success?
    ensures r.result.Failure? ==> r.world == w && r.result.error == LoadValidated(w, orderId, CancelOrderValidator).error
    ensures r.world.products == w.products && r.world.items == w.items
    ensures r.result.Success? ==>
              && Transition(w.orders[orderId].orderStatus, Cancelled)
              && r.world == w.(orders := w.orders[orderId := w.orders[orderId].(orderStatus := Cancelled, cancelledDateSet := true)])
  {
    match LoadValidated(w, orderId, ValidatorFor(Cancel))
    case Failure(e) => Outcome(Failure(e), w)
    case Success(order) => Outcome(Success(()), w.(orders := w.orders[orderId := order.(orderStatus := Cancelled, cancelledDateSet := true)]))
  }
}
