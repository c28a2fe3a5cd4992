/** Statuses of delivery jobs and orders, and the tables that relate them. */
module DeliveryStatus {
  import opened Common

  datatype JobStatus =
    | WaitingForDispatch
    | RiderAssigned
    | EnRouteToStore
    | AtStore
    | PickupVerified
    | OutForDelivery
    | AtCustomer
    | Delivered
    | DeliveryFailed
    | ReturningToStore
    | ReturnedToStore
    | Cancelled

  datatype OrderStatus =
    | OrderPending
    | OrderPaymentPending
    | OrderPaymentFailed
    | OrderConfirmed
    | OrderPicking
    | OrderPacked
    | OrderRiderAssigned
    | OrderOutForDelivery
    | OrderDelivered
    | OrderCancelled

  /** The transition table of delivery jobs. */
  predicate CanMove(from: JobStatus, to: JobStatus) {
    match from
    case WaitingForDispatch => to.RiderAssigned? || to.Cancelled?
    case RiderAssigned => to.EnRouteToStore? || to.WaitingForDispatch? || to.Cancelled?
    case EnRouteToStore => to.AtStore? || to.DeliveryFailed? || to.Cancelled?
    case AtStore => to.PickupVerified? || to.DeliveryFailed? || to.Cancelled?
    case PickupVerified => to.OutForDelivery? || to.Cancelled?
    case OutForDelivery =>
      to.AtCustomer? || to.Delivered? || to.DeliveryFailed? || to.ReturningToStore? || to.Cancelled?
    case AtCustomer => to.Delivered? || to.DeliveryFailed? || to.ReturningToStore? || to.Cancelled?
    case Delivered => false
    case DeliveryFailed =>
      to.WaitingForDispatch? || to.OutForDelivery? || to.ReturningToStore? || to.Cancelled?
    case ReturningToStore => to.ReturnedToStore? || to.Cancelled?
    case ReturnedToStore => to.WaitingForDispatch? || to.Cancelled?
    case Cancelled => false
  }

  /**
   * The moves that some request asks for; the table permits more. Cancelling a failed delivery is not among them,
   * because it comes with its refund.
   */
  predicate IsServed(from: JobStatus, to: JobStatus) {
    match from
    case WaitingForDispatch => to.RiderAssigned?
    case RiderAssigned => to.EnRouteToStore? || to.WaitingForDispatch?
    case EnRouteToStore => to.AtStore? || to.DeliveryFailed?
    case AtStore => to.PickupVerified? || to.DeliveryFailed?
    case PickupVerified => to.OutForDelivery?
    case OutForDelivery => to.AtCustomer? || to.DeliveryFailed?
    case AtCustomer => to.Delivered? || to.DeliveryFailed?
    case DeliveryFailed => to.WaitingForDispatch? || to.OutForDelivery? || to.ReturningToStore?
    case ReturningToStore => to.ReturnedToStore?
    case Delivered | ReturnedToStore | Cancelled => false
  }

  /** The next status on the way back to the store. */
  function TowardStore(status: JobStatus): JobStatus {
    match status
    case RiderAssigned => EnRouteToStore
    case PickupVerified => OutForDelivery
    case EnRouteToStore | AtStore | OutForDelivery | AtCustomer => DeliveryFailed
    case DeliveryFailed => ReturningToStore
    case _ => ReturnedToStore
  }

  /** The transition table of orders. */
  predicate OrderCanMove(from: OrderStatus, to: OrderStatus) {
    match from
    case OrderPending => to.OrderConfirmed? || to.OrderCancelled?
    case OrderPaymentPending => to.OrderConfirmed? || to.OrderPaymentFailed? || to.OrderCancelled?
    case OrderPaymentFailed => to.OrderPaymentPending? || to.OrderCancelled?
    case OrderConfirmed => to.OrderPicking? || to.OrderPacked? || to.OrderRiderAssigned? || to.OrderCancelled?
    case OrderPicking => to.OrderPacked? || to.OrderRiderAssigned? || to.OrderCancelled?
    case OrderPacked => to.OrderRiderAssigned? || to.OrderCancelled?
    case OrderRiderAssigned => to.OrderOutForDelivery? || to.OrderCancelled?
    case OrderOutForDelivery => to.OrderDelivered? || to.OrderCancelled?
    case OrderDelivered => false
    case OrderCancelled => false
  }

  /** The transitions a rider may request for the job it carries. */
  predicate RiderMay(from: JobStatus, to: JobStatus) {
    || (from == RiderAssigned && to == EnRouteToStore)
    || (from == EnRouteToStore && to == AtStore)
    || (from == PickupVerified && to == OutForDelivery)
    || (from == OutForDelivery && to == AtCustomer)
    || (from == OutForDelivery && to == DeliveryFailed)
    || (from == AtCustomer && to == Delivered)
    || (from == AtCustomer && to == DeliveryFailed)
    || (from == DeliveryFailed && to == ReturningToStore)
    || (from == ReturningToStore && to == ReturnedToStore)
  }

  /** The one transition a store owner may request for a job of that store. */
  predicate StoreMay(from: JobStatus, to: JobStatus) {
    from == AtStore && to == PickupVerified
  }

  /** The statuses in which a job occupies its rider. */
  predicate IsActive(status: JobStatus) {
    match status
    case RiderAssigned | EnRouteToStore | AtStore | PickupVerified => true
    case OutForDelivery | AtCustomer | DeliveryFailed | ReturningToStore => true
    case _ => false
  }

  /** Entering one of these puts the rider that carried the job back online. */
  predicate Releases(status: JobStatus) {
    status.WaitingForDispatch? || status.Delivered? || status.ReturnedToStore? || status.Cancelled?
  }

  predicate IsFailable(status: JobStatus) {
    status.EnRouteToStore? || status.AtStore? || status.OutForDelivery? || status.AtCustomer?
  }

  /** The order status that mirrors a job status. */
  function LegacyOrderStatus(status: JobStatus): OrderStatus {
    match status
    case WaitingForDispatch => OrderPacked
    case RiderAssigned | EnRouteToStore | AtStore | PickupVerified => OrderRiderAssigned
    case OutForDelivery | AtCustomer | DeliveryFailed | ReturningToStore | ReturnedToStore => OrderOutForDelivery
    case Delivered => OrderDelivered
    case Cancelled => OrderCancelled
  }

  /** The status a job starts in when it is created for an existing order. */
  function InitialStatus(status: OrderStatus): JobStatus {
    match status
    case OrderRiderAssigned => RiderAssigned
    case OrderOutForDelivery => OutForDelivery
    case OrderDelivered => Delivered
    case OrderCancelled => Cancelled
    case _ => WaitingForDispatch
  }

  /** The order statuses for which a job may be created. */
  predicate IsCreatable(status: OrderStatus) {
    status.OrderPacked? || status.OrderRiderAssigned? || status.OrderOutForDelivery?
    || status.OrderDelivered? || status.OrderCancelled?
  }
}
