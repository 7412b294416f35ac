/**
 * The persisted entities the core works on (the classes under Entities). Money (C# `decimal`)
 * is an exact integer number of minor units; timestamps the core stamps are kept
 * only as "is set" flags.
 */
module Entities {
  import opened Wrappers

  datatype OrderStatus = Draft | Paid | Shipped | Delivered | Cancelled

  datatype OrderAction = ChangeInOrderItems | Pay | Ship | Deliver | Cancel

  /** A product row. `category` is the integer value of the ProductCategory enum. */
  datatype Product = Product(
    id: int,
    sku: string,
    name: string,
    description: string,
    category: int,
    unitPrice: int,
    availableQuantity: int,
    reservedQuantity: int,
    isActive: bool)
  {
    /** Stock physically in the warehouse: reserved plus available. */
    function OnHandQuantity(): int {
      reservedQuantity + availableQuantity
    }
  }

  /** An order-item row; `amount` is what was reserved for it, in money. */
  datatype OrderItem = OrderItem(id: int, orderId: int, productId: int, quantity: int, amount: int)

  /** An order row together with the ids of its OrderItems collection, in load order. */
  datatype Order = Order(
    id: int,
    customerId: int,
    currencyCode: string,
    totalAmount: int,
    orderStatus: OrderStatus,
    paymentDateSet: bool,
    shippedDateSet: bool,
    deliveredDateSet: bool,
    cancelledDateSet: bool,
    streetAddress: Option<string>,
    postalCode: Option<string>,
    city: Option<string>,
    country: Option<string>,
    orderItemIds: seq<int>)

  /** `string.IsNullOrEmpty` */
  predicate IsNullOrEmpty(s: Option<string>) {
    s.None? || s.value == ""
  }
}
