/**
 * What the order lifecycle keeps and what it does to the ledger: every operation
 * keeps the store well formed, the ones that touch items keep each order total
 * equal to the sum of its items' amounts (under the conditions the code relies
 * on without checking), and shipping lowers each product's reservation by the
 * quantities ordered.
 */
module LifecycleProperties {
  import opened Wrappers
  import opened Entities
  import opened ErrorCodes
  import opened OrderValidators
  import Inventory
  import opened Lifecycle

  /** The item, if it exists, belongs to the order. */
  ghost predicate BelongsTo(w: World, itemId: int, orderId: int) {
    itemId in w.items ==> w.items[itemId].orderId == orderId
  }

  /** The item's stored amount is its quantity at the product's current price. */
  ghost predicate PricedAsNow(w: World, itemId: int) {
    itemId in w.items && w.items[itemId].productId in w.products ==>
      w.items[itemId].amount == w.items[itemId].quantity * w.products[w.items[itemId].productId].unitPrice
  }

  // ---------------------------------------------------------------------------
  // Orders.

  lemma AddOrderKeepsInvariants(w: World, customerId: int, currencyCode: string, streetAddress: Option<string>,
                                postalCode: Option<string>, city: Option<string>, country: Option<string>)
    requires WellFormed(w)
    ensures var r := AddOrder(w, customerId, currencyCode, streetAddress, postalCode, city, country);
            && r.result.value.id !in w.orders
            && WellFormed(r.world)
            && (TotalsConsistent(w) ==> TotalsConsistent(r.world))
  {
    var r := AddOrder(w, customerId, currencyCode, streetAddress, postalCode, city, country);
    var o := r.result.value;
    forall id | id in r.world.orders
      ensures ListsOwnItems(r.world.orders[id], r.world.items)
    {
      if id != o.id {
        assert ListsOwnItems(w.orders[id], w.items);
      }
    }
  }

  lemma UpdateOrderKeepsInvariants(w: World, orderId: int, streetAddress: Option<string>, postalCode: Option<string>,
                                   city: Option<string>, country: Option<string>)
    requires WellFormed(w)
    ensures var r := UpdateOrder(w, orderId, streetAddress, postalCode, city, country);
            && WellFormed(r.world)
            && (TotalsConsistent(w) ==> TotalsConsistent(r.world))
  {
    var r := UpdateOrder(w, orderId, streetAddress, postalCode, city, country);
    forall id | id in r.world.orders
      ensures ListsOwnItems(r.world.orders[id], r.world.items)
    {
      assert ListsOwnItems(w.orders[id], w.items);
    }
  }

  /** Pay, ship, deliver and cancel touch only the status fields of one order. */
  lemma StatusChangesKeepInvariants(w: World, orderId: int)
    requires WellFormed(w)
    ensures WellFormed(PayOrder(w, orderId).world) && WellFormed(ShipOrder(w, orderId).world)
    ensures WellFormed(DeliverOrder(w, orderId).world) && WellFormed(CancelOrder(w, orderId).world)
    ensures TotalsConsistent(w) ==>
              && TotalsConsistent(PayOrder(w, orderId).world) && TotalsConsistent(ShipOrder(w, orderId).world)
              && TotalsConsistent(DeliverOrder(w, orderId).world) && TotalsConsistent(CancelOrder(w, orderId).world)
  {
    var pay, ship, deliver, cancel := PayOrder(w, orderId), ShipOrder(w, orderId), DeliverOrder(w, orderId), CancelOrder(w, orderId);
    if pay.result.Success? {
      RestampedShape(w, orderId, pay.world.orders[orderId], pay.world.products);
    }
    StatusChangeKeepsInvariants(w, pay.world);
    if ship.result.Success? {
      RestampedShape(w, orderId, ship.world.orders[orderId], ship.world.products);
    }
    StatusChangeKeepsInvariants(w, ship.world);
    if deliver.result.Success? {
      RestampedShape(w, orderId, deliver.world.orders[orderId], deliver.world.products);
    }
    StatusChangeKeepsInvariants(w, deliver.world);
    if cancel.result.Success? {
      RestampedShape(w, orderId, cancel.world.orders[orderId], cancel.world.products);
    }
    StatusChangeKeepsInvariants(w, cancel.world);
  }

  /** w' differs from w at most in the products and in fields of orders other than
      their identity, item list and total. */
  ghost predicate StatusOnlyChange(w: World, w': World) {
    && w'.items == w.items && w'.nextOrderId == w.nextOrderId && w'.nextItemId == w.nextItemId
    && w'.orders.Keys == w.orders.Keys
    && forall id :: id in w.orders ==>
         && w'.orders[id].id == w.orders[id].id
         && w'.orders[id].orderItemIds == w.orders[id].orderItemIds
         && w'.orders[id].totalAmount == w.orders[id].totalAmount
  }

  lemma RestampedShape(w: World, orderId: int, o: Order, products: map<int, Product>)
    requires orderId in w.orders
    requires o.id == w.orders[orderId].id && o.orderItemIds == w.orders[orderId].orderItemIds
    requires o.totalAmount == w.orders[orderId].totalAmount
    ensures StatusOnlyChange(w, w.(orders := w.orders[orderId := o], products := products))
  {
  }

  lemma StatusChangeKeepsInvariants(w: World, w': World)
    requires WellFormed(w) && StatusOnlyChange(w, w')
    ensures WellFormed(w')
    ensures TotalsConsistent(w) ==> TotalsConsistent(w')
  {
    forall id | id in w'.orders
      ensures ListsOwnItems(w'.orders[id], w'.items)
    {
      assert ListsOwnItems(w.orders[id], w.items);
    }
  }

  // ---------------------------------------------------------------------------
  // Order items.

  lemma AddOrderItemKeepsInvariants(w: World, orderId: int, productId: int, quantity: int)
    requires WellFormed(w)
    ensures WellFormed(AddOrderItem(w, orderId, productId, quantity).world)
    ensures TotalsConsistent(w) ==> TotalsConsistent(AddOrderItem(w, orderId, productId, quantity).world)
  {
    var r := AddOrderItem(w, orderId, productId, quantity);
    if r.result.Success? {
      var w' := r.world;
      var item := r.result.value;
      var order := w.orders[orderId];
      var ids := order.orderItemIds;
      var ids' := ids + [item.id];
      assert ListsOwnItems(order, w.items);
      assert item.id !in w.items;
      assert item.id !in ids;
      forall id | id in w'.orders
        ensures ListsOwnItems(w'.orders[id], w'.items)
      {
        if id == orderId {
          forall i | 0 <= i < |ids'|
            ensures ids'[i] in w'.items && w'.items[ids'[i]].orderId == id
          {
            if i < |ids| {
              assert ids'[i] == ids[i];
            }
          }
          forall i, j | 0 <= i < j < |ids'|
            ensures ids'[i] != ids'[j]
          {
            if j == |ids| {
              assert ids'[i] in ids;
            }
          }
        } else {
          assert ListsOwnItems(w.orders[id], w.items);
        }
      }
      if TotalsConsistent(w) {
        forall id | id in w'.orders
          ensures w'.orders[id].totalAmount == SumAmounts(w'.items, w'.orders[id].orderItemIds)
        {
          var o := w.orders[id];
          assert ListsOwnItems(o, w.items);
          SumFrame(w.items, w'.items, o.orderItemIds);
          if id == orderId {
            SumAppend(w'.items, ids, item.id);
          }
        }
      }
    }
  }

  lemma RemoveOrderItemKeepsWellFormed(w: World, orderId: int, itemId: int)
    requires WellFormed(w)
    ensures WellFormed(RemoveOrderItem(w, orderId, itemId).world)
  {
    var r := RemoveOrderItem(w, orderId, itemId);
    if r.result.Success? {
      RemoveOrderItemEffect(w, orderId, itemId);
      DetachKeepsWellFormed(w, r.world, itemId);
    }
  }

  /** Deleting an item and dropping it from its owner's list, whatever else changes
      in the orders, keeps the store well formed. */
  lemma DetachKeepsWellFormed(w: World, w': World, itemId: int)
    requires WellFormed(w) && itemId in w.items
    requires w'.items == w.items - {itemId}
    requires w'.orders.Keys == w.orders.Keys
    requires w'.nextOrderId == w.nextOrderId && w'.nextItemId == w.nextItemId
    requires forall id :: id in w.orders && id != w.items[itemId].orderId ==>
                            && w'.orders[id].id == w.orders[id].id
                            && w'.orders[id].orderItemIds == w.orders[id].orderItemIds
    requires w'.orders[w.items[itemId].orderId].id == w.orders[w.items[itemId].orderId].id
    requires w'.orders[w.items[itemId].orderId].orderItemIds ==
               Without(w.orders[w.items[itemId].orderId].orderItemIds, itemId)
    ensures WellFormed(w')
  {
    var owner := w.items[itemId].orderId;
    var ownerIds := w.orders[owner].orderItemIds;
    assert ListsOwnItems(w.orders[owner], w.items);
    WithoutDistinct(ownerIds, itemId);
    forall id | id in w'.orders
      ensures ListsOwnItems(w'.orders[id], w'.items)
    {
      var ids := w.orders[id].orderItemIds;
      assert ListsOwnItems(w.orders[id], w.items);
      if id == owner {
        var ids' := Without(ids, itemId);
        forall i | 0 <= i < |ids'|
          ensures ids'[i] in w'.items && w'.items[ids'[i]].orderId == id
        {
          assert ids'[i] in ids';
          var j :| 0 <= j < |ids| && ids[j] == ids'[i];
        }
      } else {
        forall i | 0 <= i < |ids|
          ensures ids[i] in w'.items
        {
          assert w.items[ids[i]].orderId == id;
        }
      }
    }
    forall id | id in w'.items
      ensures id in w'.orders[w'.items[id].orderId].orderItemIds
    {
      if w.items[id].orderId == owner {
        assert id in Without(ownerIds, itemId);
      }
    }
  }

  lemma RemoveOrderItemKeepsInvariants(w: World, orderId: int, itemId: int)
    requires WellFormed(w)
    ensures WellFormed(RemoveOrderItem(w, orderId, itemId).world)
    ensures TotalsConsistent(w) && BelongsTo(w, itemId, orderId) && PricedAsNow(w, itemId) ==>
              TotalsConsistent(RemoveOrderItem(w, orderId, itemId).world)
  {
    RemoveOrderItemKeepsWellFormed(w, orderId, itemId);
    var r := RemoveOrderItem(w, orderId, itemId);
    if r.result.Success? && TotalsConsistent(w) && BelongsTo(w, itemId, orderId) && PricedAsNow(w, itemId) {
      var w' := r.world;
      var owner := w.items[itemId].orderId;
      assert w'.orders[owner].orderItemIds == Without(w.orders[owner].orderItemIds, itemId);
      forall id | id in w'.orders
        ensures w'.orders[id].totalAmount == SumAmounts(w'.items, w'.orders[id].orderItemIds)
      {
        var ids := w.orders[id].orderItemIds;
        assert ListsOwnItems(w.orders[id], w.items);
        if id == owner {
          SumWithout(w.items, ids, itemId);
          SumFrame(w.items, w'.items, Without(ids, itemId));
        } else {
          forall k | 0 <= k < |ids|
            ensures ids[k] != itemId
          {
            assert w.items[ids[k]].orderId == id;
          }
          SumFrame(w.items, w'.items, ids);
        }
      }
    }
  }

  lemma UpdateOrderItemKeepsInvariants(w: World, orderId: int, itemId: int, quantity: int)
    requires WellFormed(w)
    ensures WellFormed(UpdateOrderItem(w, orderId, itemId, quantity).world)
    ensures TotalsConsistent(w) && BelongsTo(w, itemId, orderId) && (quantity == 0 ==> PricedAsNow(w, itemId)) ==>
              TotalsConsistent(UpdateOrderItem(w, orderId, itemId, quantity).world)
  {
    var r := UpdateOrderItem(w, orderId, itemId, quantity);
    if quantity == 0 {
      RemoveOrderItemKeepsInvariants(w, orderId, itemId);
    } else if r.result.Success? && w.items[itemId].quantity != quantity {
      assert r == Resize(w, orderId, itemId, quantity);
      ResizeKeepsInvariants(w, orderId, itemId, quantity);
    }
  }

  /** A resize changes only the item's quantity and amount and its order's total, so
      the store stays well formed, and totals stay consistent for the owning order. */
  lemma ResizeKeepsInvariants(w: World, orderId: int, itemId: int, quantity: int)
    requires WellFormed(w) && orderId in w.orders && itemId in w.items
    ensures WellFormed(Resize(w, orderId, itemId, quantity).world)
    ensures TotalsConsistent(w) && BelongsTo(w, itemId, orderId) ==>
              TotalsConsistent(Resize(w, orderId, itemId, quantity).world)
  {
    var r := Resize(w, orderId, itemId, quantity);
    if r.result.Success? {
      var w' := r.world;
      forall id | id in w'.orders
        ensures ListsOwnItems(w'.orders[id], w'.items)
      {
        assert ListsOwnItems(w.orders[id], w.items);
      }
      if TotalsConsistent(w) && BelongsTo(w, itemId, orderId) {
        forall id | id in w'.orders
          ensures w'.orders[id].totalAmount == SumAmounts(w'.items, w'.orders[id].orderItemIds)
        {
          var ids := w.orders[id].orderItemIds;
          assert ListsOwnItems(w.orders[id], w.items);
          if id == orderId {
            SumUpdate(w.items, ids, itemId, w'.items[itemId]);
          } else {
            forall k | 0 <= k < |ids|
              ensures ids[k] != itemId
            {
              assert w.items[ids[k]].orderId == id;
            }
            SumFrame(w.items, w'.items, ids);
          }
        }
      }
    }
  }

  /** Quantity 0 is a removal. */
  lemma UpdateToZeroIsRemove(w: World, orderId: int, itemId: int)
    ensures UpdateOrderItem(w, orderId, itemId, 0) == RemoveOrderItem(w, orderId, itemId)
  {
  }

  /** The item's current quantity changes nothing and fails no validator, whatever the
      order's status. */
  lemma UpdateToSameQuantityIsNoOp(w: World, orderId: int, itemId: int)
    requires orderId in w.orders && itemId in w.items && w.items[itemId].quantity != 0
    ensures UpdateOrderItem(w, orderId, itemId, w.items[itemId].quantity) == Outcome(Success(()), w)
  {
  }

  /** Removing an item through an order that does not own it detaches it from its owner
      but lowers the other order's total: both totals are then wrong. */
  lemma ForeignItemRemovalBreaksTotals()
    ensures var p := Product(1, "SKU", "Name", "", 0, 5, 10, 2, true);
            var a := Order(1, 1, "EUR", 0, Draft, false, false, false, false, None, None, None, None, []);
            var b := Order(2, 1, "EUR", 10, Draft, false, false, false, false, None, None, None, None, [7]);
            var w := World(map[1 := a, 2 := b], map[7 := OrderItem(7, 2, 1, 2, 10)], map[1 := p], 3, 8);
            var r := RemoveOrderItem(w, 1, 7);
            && WellFormed(w) && TotalsConsistent(w)
            && r.result.Success? && WellFormed(r.world)
            && r.world.orders[1].totalAmount == -10
            && r.world.orders[2].totalAmount == 10 && r.world.orders[2].orderItemIds == []
            && !TotalsConsistent(r.world)
  {
    var p := Product(1, "SKU", "Name", "", 0, 5, 10, 2, true);
    var a := Order(1, 1, "EUR", 0, Draft, false, false, false, false, None, None, None, None, []);
    var b := Order(2, 1, "EUR", 10, Draft, false, false, false, false, None, None, None, None, [7]);
    var w := World(map[1 := a, 2 := b], map[7 := OrderItem(7, 2, 1, 2, 10)], map[1 := p], 3, 8);
    assert ListsOwnItems(a, w.items);
    assert ListsOwnItems(b, w.items);
    assert SumAmounts(w.items, [7]) == 10;
    RemoveOrderItemKeepsInvariants(w, 1, 7);
    var r := RemoveOrderItem(w, 1, 7);
    assert r.world.orders[1].orderItemIds == [];
  }

  /** Removing an item after its product's price changed subtracts the new price, not
      the amount the item holds, so the total drifts. */
  lemma RepricedItemRemovalBreaksTotals()
    ensures var p := Product(1, "SKU", "Name", "", 0, 6, 10, 2, true);
            var a := Order(1, 1, "EUR", 10, Draft, false, false, false, false, None, None, None, None, [7]);
            var w := World(map[1 := a], map[7 := OrderItem(7, 1, 1, 2, 10)], map[1 := p], 2, 8);
            var r := RemoveOrderItem(w, 1, 7);
            && WellFormed(w) && TotalsConsistent(w)
            && r.result.Success? && r.world.orders[1].orderItemIds == []
            && r.world.orders[1].totalAmount == -2
  {
    var p := Product(1, "SKU", "Name", "", 0, 6, 10, 2, true);
    var a := Order(1, 1, "EUR", 10, Draft, false, false, false, false, None, None, None, None, [7]);
    var w := World(map[1 := a], map[7 := OrderItem(7, 1, 1, 2, 10)], map[1 := p], 2, 8);
    assert ListsOwnItems(a, w.items);
    assert SumAmounts(w.items, [7]) == 10;
  }

  // ---------------------------------------------------------------------------
  // Shipping.

  /** The quantities of the listed items that are on the product, in list order. */
  function QuantitiesOf(items: map<int, OrderItem>, ids: seq<int>, productId: int): seq<int> {
    if ids == [] then []
    else if ids[0] in items && items[ids[0]].productId == productId then
      [items[ids[0]].quantity] + QuantitiesOf(items, ids[1..], productId)
    else QuantitiesOf(items, ids[1..], productId)
  }

  /** The reserved count after shipping the quantities one at a time, each floored at 0. */
  function ReservedAfter(reserved: int, quantities: seq<int>): int
    decreases |quantities|
  {
    if quantities == [] then reserved
    else ReservedAfter(if reserved - quantities[0] < 0 then 0 else reserved - quantities[0], quantities[1..])
  }

  function Total(quantities: seq<int>): int {
    if quantities == [] then 0 else quantities[0] + Total(quantities[1..])
  }

  /** Product p' differs from p at most in its reserved count. */
  predicate OnlyReservedChanged(p: Product, p': Product) {
    p' == p.(reservedQuantity := p'.reservedQuantity)
  }

  /** Shipping succeeds exactly when every item's product is found and active. */
  lemma {:induction false} ShipItemsSucceedsIff(products: map<int, Product>, items: map<int, OrderItem>, ids: seq<int>)
    ensures ShipItems(products, items, ids).Success? <==>
              forall k :: 0 <= k < |ids| && ids[k] in items ==>
                Inventory.GetProduct(products, items[ids[k]].productId).Success?
  {
    if ids != [] {
      ShipItemsSucceedsIff(products, items, ids[1..]);
      match ShipItem(products, items, ids[0])
      case Failure(_) =>
      case Success(next) =>
        ShipItemsSucceedsIff(next, items, ids[1..]);
        assert forall pid :: Inventory.GetProduct(next, pid).Success? <==> Inventory.GetProduct(products, pid).Success?;
        assert forall k :: 1 <= k < |ids| ==> ids[k] == ids[1..][k - 1];
    }
  }

  /** Shipping changes only reserved counts, and exactly as the product's items demand:
      a product no listed item is on stays as it was. */
  lemma {:induction false} ShipItemsLowersReserved(products: map<int, Product>, items: map<int, OrderItem>, ids: seq<int>,
                                                   productId: int)
    requires ShipItems(products, items, ids).Success?
    ensures var shipped := ShipItems(products, items, ids).value;
            && shipped.Keys == products.Keys
            && (productId in products ==>
                  && OnlyReservedChanged(products[productId], shipped[productId])
                  && shipped[productId].reservedQuantity ==
                       ReservedAfter(products[productId].reservedQuantity, QuantitiesOf(items, ids, productId)))
  {
    if ids != [] {
      var next := ShipItem(products, items, ids[0]).value;
      ShipItemsLowersReserved(next, items, ids[1..], productId);
    }
  }

  /** With non-negative quantities from a non-negative start, shipping one at a time is
      subtracting the total, floored at 0. */
  lemma {:induction false} ReservedAfterIsFlooredDifference(reserved: int, quantities: seq<int>)
    requires reserved >= 0
    requires forall k :: 0 <= k < |quantities| ==> quantities[k] >= 0
    ensures ReservedAfter(reserved, quantities) ==
              if reserved - Total(quantities) < 0 then 0 else reserved - Total(quantities)
    ensures ReservedAfter(reserved, quantities) >= 0
  {
    if quantities != [] {
      var next := if reserved - quantities[0] < 0 then 0 else reserved - quantities[0];
      ReservedAfterIsFlooredDifference(next, quantities[1..]);
      assert Total(quantities[1..]) >= 0 by {
        TotalNonNegative(quantities[1..]);
      }
    }
  }

  /** With a negative quantity the item order matters: from a reserved count of 0,
      shipping 5 then -3 of one product leaves 3 reserved, but -3 then 5 leaves 0. */
  lemma ShipOrderDependsOnItemOrder()
    ensures var p := Product(1, "SKU", "Name", "", 0, 2, 10, 0, true);
            var products := map[1 := p];
            var items := map[7 := OrderItem(7, 1, 1, 5, 10), 8 := OrderItem(8, 1, 1, -3, -6)];
            && ShipItems(products, items, [7, 8]) == Success(map[1 := p.(reservedQuantity := 3)])
            && ShipItems(products, items, [8, 7]) == Success(map[1 := p.(reservedQuantity := 0)])
  {
    var p := Product(1, "SKU", "Name", "", 0, 2, 10, 0, true);
    var items := map[7 := OrderItem(7, 1, 1, 5, 10), 8 := OrderItem(8, 1, 1, -3, -6)];
    var p3 := p.(reservedQuantity := 3);
    assert Inventory.DecreaseReservedQuantity(5, p) == p;
    assert Inventory.DecreaseReservedQuantity(-3, p) == p3;
    assert Inventory.DecreaseReservedQuantity(5, p3) == p;
    assert map[1 := p][1 := p] == map[1 := p];
    assert map[1 := p][1 := p3] == map[1 := p3];
    assert map[1 := p3][1 := p] == map[1 := p];
    assert ShipItem(map[1 := p], items, 7) == Success(map[1 := p]);
    assert ShipItem(map[1 := p], items, 8) == Success(map[1 := p.(reservedQuantity := 3)]);
    assert ShipItem(map[1 := p.(reservedQuantity := 3)], items, 7) == Success(map[1 := p.(reservedQuantity := 0)]);
    assert [7, 8][1..] == [8] && [8, 7][1..] == [7] && [8][1..] == [] && [7][1..] == [];
  }

  lemma {:induction false} TotalNonNegative(quantities: seq<int>)
    requires forall k :: 0 <= k < |quantities| ==> quantities[k] >= 0
    ensures Total(quantities) >= 0
  {
    if quantities != [] {
      TotalNonNegative(quantities[1..]);
    }
  }

  /** Shipping an order: the status becomes Shipped, and every product's reserved count
      drops by the quantities of the order's items on it, one at a time, floored at 0;
      nothing else about any product changes. */
  lemma ShipOrderPostsReservations(w: World, orderId: int, productId: int)
    requires ShipOrder(w, orderId).result.Success?
    requires productId in w.products
    ensures var w' := ShipOrder(w, orderId).world;
            var ids := w.orders[orderId].orderItemIds;
            && w'.products.Keys == w.products.Keys
            && w'.orders[orderId].orderStatus == Shipped
            && OnlyReservedChanged(w.products[productId], w'.products[productId])
            && w'.products[productId].reservedQuantity ==
                 ReservedAfter(w.products[productId].reservedQuantity, QuantitiesOf(w.items, ids, productId))
  {
    ShipItemsLowersReserved(w.products, w.items, w.orders[orderId].orderItemIds, productId);
  }

  /** An order with a zero total cannot ship, whatever its status short of Cancelled,
      and nothing changes. */
  lemma ShipEmptyOrderFails(w: World, orderId: int)
    requires orderId in w.orders && w.orders[orderId].totalAmount == 0
    requires w.orders[orderId].orderStatus != Cancelled
    ensures ShipOrder(w, orderId) == Outcome(Failure(Named(NoOrderItemAvailableToShip)), w)
  {
  }
}
