/**
 * The order validators (Services/Validators): one rule per OrderAction, behind
 * a shared pre-check that refuses any action on a cancelled order. They are
 * pure: a validator returns Success(true) or the error it would throw, and
 * never changes the order.
 */
module OrderValidators {
  import opened Wrappers
  import opened Entities
  import opened ErrorCodes

  predicate HasShippingAddress(order: Order) {
    && !IsNullOrEmpty(order.streetAddress)
    && !IsNullOrEmpty(order.city)
    && !IsNullOrEmpty(order.country)
    && !IsNullOrEmpty(order.postalCode)
  }

  /** Add, update or remove an order item: only a Draft order may change. */
  function ValidateChangeInOrderItems(order: Order): (r: Result<bool, ErrorCode>)
    ensures r.Success? <==> order.orderStatus == Draft
    ensures r.Success? ==> r.value
    ensures r.Failure? ==> r.error == Named(OrderAlreadyPaid)
  {
    if order.orderStatus != Draft then Failure(Named(OrderAlreadyPaid)) else Success(true)
  }

  /** Pay: a non-zero total, then Draft, then a complete shipping address, in that order. */
  function ValidatePay(order: Order): (r: Result<bool, ErrorCode>)
    ensures r.Success? <==> order.totalAmount != 0 && order.orderStatus == Draft && HasShippingAddress(order)
    ensures r.Success? ==> r.value
    ensures order.totalAmount == 0 ==> r == Failure(Named(NoOrderItemAvailableToPay))
    ensures order.totalAmount != 0 && order.orderStatus != Draft ==> r == Failure(Named(OrderAlreadyPaid))
    ensures order.totalAmount != 0 && order.orderStatus == Draft && !HasShippingAddress(order) ==>
              r == Failure(Named(ShippingAddressMissing))
  {
    if order.totalAmount == 0 then Failure(Named(NoOrderItemAvailableToPay))
    else if order.orderStatus != Draft then Failure(Named(OrderAlreadyPaid))
    else if !HasShippingAddress(order) then Failure(Named(ShippingAddressMissing))
    else Success(true)
  }

  /** Ship: a non-zero total, then Paid; a Draft order is "not paid", any other "already shipped". */
  function ValidateShip(order: Order): (r: Result<bool, ErrorCode>)
    ensures r.Success? <==> order.totalAmount != 0 && order.orderStatus == Paid
    ensures r.Success? ==> r.value
    ensures order.totalAmount == 0 ==> r == Failure(Named(NoOrderItemAvailableToShip))
    ensures order.totalAmount != 0 && order.orderStatus == Draft ==> r == Failure(Named(OrderNotPaid))
    ensures order.totalAmount != 0 && order.orderStatus !in {Draft, Paid} ==> r == Failure(Named(OrderAlreadyShipped))
  {
    if order.totalAmount == 0 then Failure(Named(NoOrderItemAvailableToShip))
    else if order.orderStatus != Paid then
      if order.orderStatus == Draft then Failure(Named(OrderNotPaid)) else Failure(Named(OrderAlreadyShipped))
    else Success(true)
  }

  /** Deliver: only a Shipped order; Draft or Paid is "not shipped", any other "already delivered". */
  function ValidateDeliver(order: Order): (r: Result<bool, ErrorCode>)
    ensures r.Success? <==> order.orderStatus == Shipped
    ensures r.Success? ==> r.value
    ensures order.orderStatus in {Draft, Paid} ==> r == Failure(Named(OrderNotShipped))
    ensures order.orderStatus !in {Draft, Paid, Shipped} ==> r == Failure(Named(OrderAlreadyDelivered))
  {
    if order.orderStatus != Shipped then
      if order.orderStatus == Draft || order.orderStatus == Paid then Failure(Named(OrderNotShipped))
      else Failure(Named(OrderAlreadyDelivered))
    else Success(true)
  }

  /** Cancel: only a Draft order; anything else is "already paid". */
  function ValidateCancel(order: Order): (r: Result<bool, ErrorCode>)
    ensures r.Success? <==> order.orderStatus == Draft
    ensures r.Success? ==> r.value
    ensures r.Failure? ==> r.error == Named(OrderAlreadyPaid)
  {
    if order.orderStatus != Draft then Failure(Named(OrderAlreadyPaid)) else Success(true)
  }

  /** The validator family as one tagged variant (the abstract OrderValidator and its five subclasses). */
  datatype OrderValidator =
    | ChangeInOrderItemsValidator
    | PayOrderValidator
    | ShipOrderValidator
    | DeliverOrderValidator
    | CancelOrderValidator
  {
    function Action(): OrderAction {
      match this
      case ChangeInOrderItemsValidator => ChangeInOrderItems
      case PayOrderValidator => Pay
      case ShipOrderValidator => Ship
      case DeliverOrderValidator => Deliver
      case CancelOrderValidator => Cancel
    }

    /** The per-action rule (the overridden `Validate`). */
    function Validate(order: Order): Result<bool, ErrorCode> {
      match this
      case ChangeInOrderItemsValidator => ValidateChangeInOrderItems(order)
      case PayOrderValidator => ValidatePay(order)
      case ShipOrderValidator => ValidateShip(order)
      case DeliverOrderValidator => ValidateDeliver(order)
      case CancelOrderValidator => ValidateCancel(order)
    }

    /** `ValidateOrder`: the cancelled pre-check, then the per-action rule. */
    function ValidateOrder(order: Order): (r: Result<bool, ErrorCode>)
      ensures order.orderStatus == Cancelled ==> r == Failure(Named(OrderAlreadyCancelled))
      ensures order.orderStatus != Cancelled ==> r == Validate(order)
      ensures r.Success? ==> r.value && order.orderStatus != Cancelled
    {
      if order.orderStatus == Cancelled then Failure(Named(OrderAlreadyCancelled)) else Validate(order)
    }
  }

  /** The validator registered for each action: a total mapping, so a missing validator cannot arise. */
  function ValidatorFor(action: OrderAction): (v: OrderValidator)
    ensures v.Action() == action
  {
    match action
    case ChangeInOrderItems => ChangeInOrderItemsValidator
    case Pay => PayOrderValidator
    case Ship => ShipOrderValidator
    case Deliver => DeliverOrderValidator
    case Cancel => CancelOrderValidator
  }

  // ---------------------------------------------------------------------------
  // The state machine the validators define.

  /** The status the service sets once an action's validator has passed
      (changing items keeps the status). */
  function TargetStatus(action: OrderAction): Option<OrderStatus> {
    match action
    case ChangeInOrderItems => None
    case Pay => Some(Paid)
    case Ship => Some(Shipped)
    case Deliver => Some(Delivered)
    case Cancel => Some(Cancelled)
  }

  /** The only status changes of the order lifecycle. */
  predicate Transition(from: OrderStatus, to: OrderStatus) {
    || (from == Draft && to == Paid)
    || (from == Paid && to == Shipped)
    || (from == Shipped && to == Delivered)
    || (from == Draft && to == Cancelled)
  }

  /** Whatever the total and address, a passing validator only allows a documented
      transition, and items change only on a Draft order. */
  lemma ValidatedActionsFollowTransitions(action: OrderAction, order: Order)
    requires ValidatorFor(action).ValidateOrder(order).Success?
    ensures TargetStatus(action).Some? ==> Transition(order.orderStatus, TargetStatus(action).value)
    ensures TargetStatus(action).None? ==> order.orderStatus == Draft
  {
  }

  /** Conversely every documented transition is enabled by its action on some order. */
  lemma {:induction false} EveryTransitionIsEnabled(from: OrderStatus, to: OrderStatus)
    requires Transition(from, to)
    ensures exists action: OrderAction, order: Order ::
              order.orderStatus == from && ValidatorFor(action).ValidateOrder(order).Success? &&
              TargetStatus(action) == Some(to)
  {
    var order := Order(0, 0, "", 1, from, false, false, false, false,
                       Some("street"), Some("0000"), Some("city"), Some("country"), []);
    var action := if to == Paid then Pay else if to == Shipped then Ship
                  else if to == Delivered then Deliver else Cancel;
    assert ValidatorFor(action).ValidateOrder(order).Success?;
  }

  /** Delivered and Cancelled are terminal: no action that sets a status passes on them. */
  lemma TerminalStatuses(action: OrderAction, order: Order)
    requires order.orderStatus in {Delivered, Cancelled}
    ensures ValidatorFor(action).ValidateOrder(order).Failure?
  {
  }

  /** The change-items rule reads the status alone: total and address play no part. */
  lemma ChangeInOrderItemsReadsOnlyStatus(o1: Order, o2: Order)
    requires o1.orderStatus == o2.orderStatus
    ensures ChangeInOrderItemsValidator.ValidateOrder(o1) == ChangeInOrderItemsValidator.ValidateOrder(o2)
  {
  }

  /** So do the deliver and cancel rules. */
  lemma DeliverAndCancelReadOnlyStatus(o1: Order, o2: Order)
    requires o1.orderStatus == o2.orderStatus
    ensures DeliverOrderValidator.ValidateOrder(o1) == DeliverOrderValidator.ValidateOrder(o2)
    ensures CancelOrderValidator.ValidateOrder(o1) == CancelOrderValidator.ValidateOrder(o2)
  {
  }

  /** Cancel is not idempotent: a second cancel fails. */
  lemma CancelTwiceFails(order: Order)
    requires order.orderStatus == Cancelled
    ensures CancelOrderValidator.ValidateOrder(order) == Failure(Named(OrderAlreadyCancelled))
  {
  }
}
