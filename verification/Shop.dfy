/**
 * Orders, payments, coupons and stock as transactions on one value. What a service reads before its
 * transaction opens is kept as a snapshot, and may be out of date by the time the transaction uses it.
 */
module Shop {
  import opened Common
  import opened DeliveryStatus
  import opened Payments
  import opened Cart
  import opened Pricing
  import opened Inventory
  import Inspection

  datatype RedemptionStatus = Reserved | Redeemed | Released

  datatype Redemption = Redemption(coupon: CouponId, status: RedemptionStatus, discount: int)

  datatype EventKind =
    | Placed
    | PaymentCaptured
    | PaymentDeclined
    | CustomerCancelled
    | ForceCancelled
    | StatusSet
    | JobMoved
    | ItemSubstituted

  /** A status history row: the status as it was read, the status written, and who wrote it. */
  datatype HistoryRow = HistoryRow(from: Option<OrderStatus>, to: OrderStatus, kind: EventKind)

  /** An order with its payment, its redemption and the delivery job made for it. */
  datatype Order = Order(
    customer: CustomerId,
    store: StoreId,
    key: Option<string>,
    items: seq<CartItem>,
    unitPaise: seq<int>,
    status: OrderStatus,
    subtotal: int,
    fee: int,
    discount: int,
    total: int,
    payment: Payment,
    redemption: Option<Redemption>,
    job: Option<JobStatus>,
    inspected: bool,
    history: seq<HistoryRow>)

  /** An order and the stock as they were when a request read them. */
  datatype Snapshot = Snapshot(id: OrderId, seen: Order, stock: Stock)

  datatype Shop = Shop(books: Books, orders: seq<Order>, coupons: seq<Coupon>, snapshots: seq<Snapshot>)

  /** What the quote said before the transaction opened. */
  datatype Quote = Quote(
    store: StoreId,
    serviceable: bool,
    catalog: Catalog,
    stock: Stock,
    fee: int,
    discount: int,
    coupon: Option<CouponId>)

  datatype Request =
    | Look(id: OrderId)
    | Place(customer: CustomerId, cart: seq<CartItem>, quote: Quote, cod: bool, code: Option<string>,
            key: Option<string>, now: int)
    | Capture(order: nat, payment: nat, customer: CustomerId)
    | Decline(order: nat, payment: nat, customer: CustomerId)
    | CancelMine(order: nat, customer: CustomerId)
    | ForceCancel(order: nat, byAdmin: bool)
    | SetStatus(order: nat, next: OrderStatus)
    | Substitute(order: nat, item: nat, product: ProductId, unitPaise: int)
    | StartJob(id: OrderId)
    | MoveJob(id: OrderId, to: JobStatus)
    | CancelFailedDelivery(id: OrderId)
    | CollectCash(id: OrderId)
    | InspectReturn(id: OrderId, lines: seq<Inspection.InspectionLine>)
    | AdjustStock(shelf: Shelf, quantity: int)
    | AddCoupon(coupon: Coupon)
    | EditCoupon(id: CouponId, coupon: Coupon)

  // ----------------------------------------------------------------- coupon usage

  predicate UsesCoupon(order: Order, coupon: CouponId) {
    order.redemption.Some? && order.redemption.value.coupon == coupon && !order.redemption.value.status.Released?
  }

  /** Orders whose redemption of a coupon is reserved or redeemed. */
  function Uses(orders: seq<Order>, coupon: CouponId): nat {
    if orders == [] then 0
    else Uses(orders[..|orders| - 1], coupon) + if UsesCoupon(orders[|orders| - 1], coupon) then 1 else 0
  }

  predicate WasRedeemed(orders: seq<Order>, coupon: CouponId) {
    exists i :: 0 <= i < |orders| && orders[i].redemption.Some? && orders[i].redemption.value.coupon == coupon
  }

  function UsesBy(orders: seq<Order>, coupon: CouponId, customer: CustomerId): nat {
    if orders == [] then 0
    else
      var last := orders[|orders| - 1];
      UsesBy(orders[..|orders| - 1], coupon, customer)
        + if UsesCoupon(last, coupon) && last.customer == customer then 1 else 0
  }

  /** Orders of a customer that were not cancelled and whose payment did not fail. */
  function PriorOrders(orders: seq<Order>, customer: CustomerId): nat {
    if orders == [] then 0
    else
      var last := orders[|orders| - 1];
      PriorOrders(orders[..|orders| - 1], customer)
        + if last.customer == customer && !last.status.OrderCancelled? && !last.status.OrderPaymentFailed? then 1 else 0
  }

  function UsageFor(orders: seq<Order>, customer: CustomerId): CouponId -> Usage {
    (coupon: CouponId) => Usage(Uses(orders, coupon), UsesBy(orders, coupon, customer), PriorOrders(orders, customer))
  }

  // --------------------------------------------------------------------- placing

  function FindKey(orders: seq<Order>, key: string): (found: Option<OrderId>)
    ensures found.Some? ==> found.value < |orders| && orders[found.value].key == Some(key)
    ensures found.None? ==> forall i :: 0 <= i < |orders| ==> orders[i].key != Some(key)
  {
    if orders == [] then None
    else if orders[|orders| - 1].key == Some(key) then Some(|orders| - 1)
    else FindKey(orders[..|orders| - 1], key)
  }

  predicate AllPositive(items: seq<CartItem>) {
    forall i :: 0 <= i < |items| ==> items[i].quantity >= 1
  }

  predicate AllListed(items: seq<CartItem>, catalog: Catalog) {
    forall i :: 0 <= i < |items| ==> items[i].product in catalog
  }

  /** A product without a stock row is not shown as out of stock. */
  predicate QuotedInStock(items: seq<CartItem>, store: StoreId, stock: Stock) {
    forall i :: 0 <= i < |items| ==>
      Shelf(store, items[i].product) in stock ==> stock[Shelf(store, items[i].product)] >= items[i].quantity
  }

  function UnitPrices(items: seq<CartItem>, catalog: Catalog): (prices: seq<int>)
    ensures |prices| == |items|
    ensures forall i :: 0 <= i < |items| ==> prices[i] == UnitPrice(catalog)(items[i].product)
  {
    seq(|items|, i requires 0 <= i < |items| => UnitPrice(catalog)(items[i].product))
  }

  function NewOrder(request: Request, basket: Basket, applied: Applied): Order
    requires request.Place?
  {
    var subtotal := Subtotal(basket);
    var total := subtotal + basket.fee - DiscountOf(applied);
    var status := if request.cod then OrderConfirmed else OrderPaymentPending;
    Order(
      request.customer, basket.store, request.key, basket.items, UnitPrices(basket.items, basket.catalog), status,
      subtotal, basket.fee, DiscountOf(applied), total,
      Payment(if request.cod then CashOnDelivery else Online, if request.cod then PendingCod else Created, total, []),
      match applied
        case NoCoupon => None
        case Applied(coupon, paise, _) => Some(Redemption(coupon, if request.cod then Redeemed else Reserved, paise)),
      None, false,
      [HistoryRow(None, status, Placed)])
  }

  /** The transaction: prices the coupon again, reserves every line, creates the order and links its rows. */
  function PlaceWithin(shop: Shop, request: Request, basket: Basket): Result<Shop>
    requires request.Place?
  {
    var applied :- CalculateDiscount(shop.coupons, UsageFor(shop.orders, request.customer), request.code, basket,
                                     request.now);
    if DiscountOf(applied) != request.quote.discount || CouponOf(applied) != request.quote.coupon then Err(Conflict)
    else
      var reserved :- ReserveAll(shop.books, basket.store, basket.items);
      var id := |shop.orders|;
      Ok(shop.(
        books := reserved.(rows := LinkAll(reserved.rows, id, basket.store, basket.items)),
        orders := shop.orders + [NewOrder(request, basket, applied)]))
  }

  function BasketOf(request: Request): Basket
    requires request.Place?
  {
    Basket(request.quote.store, Normalize(request.cart), request.quote.catalog, request.quote.fee)
  }

  function PlaceOrder(shop: Shop, request: Request): Result<Shop>
    requires request.Place?
  {
    if !AllPositive(request.cart) then Err(BadRequest)
    else if request.key.Some? && FindKey(shop.orders, request.key.value).Some? then
      var found := FindKey(shop.orders, request.key.value).value;
      if shop.orders[found].customer != request.customer then Err(Conflict) else Ok(shop)
    else
      var basket := BasketOf(request);
      if basket.items == [] || !AllListed(basket.items, basket.catalog) then Err(BadRequest)
      else if !request.quote.serviceable then Err(BadRequest)
      else if Subtotal(basket) + basket.fee - request.quote.discount < 0 then Err(BadRequest)
      else if !QuotedInStock(basket.items, basket.store, request.quote.stock) then Err(BadRequest)
      else PlaceWithin(shop, request, basket)
  }

  // ------------------------------------------------------------- changing an order

  function Recorded(order: Order, from: OrderStatus, to: OrderStatus, kind: EventKind): Order {
    order.(status := to, history := order.history + [HistoryRow(Some(from), to, kind)])
  }

  function Release(redemption: Option<Redemption>): Option<Redemption> {
    if redemption.Some? then Some(redemption.value.(status := Released)) else None
  }

  /** Changes a redemption only while it is RESERVED. */
  function Settle(redemption: Option<Redemption>, status: RedemptionStatus): Option<Redemption> {
    if redemption.Some? && redemption.value.status.Reserved? then Some(redemption.value.(status := status))
    else redemption
  }

  /** What a transaction writes: one order and the books. */
  datatype Change = Change(id: OrderId, order: Order, books: Books)

  function CapturePayment(shop: Shop, id: OrderId, seen: Order, paid: Payment, customer: CustomerId): Result<Change>
    requires id < |shop.orders|
  {
    var order := shop.orders[id];
    if seen.customer != customer then Err(Forbidden)
    else if !paid.kind.Online? then Err(BadRequest)
    else if paid.status.Captured? then Ok(Change(id, order, shop.books))
    else if !paid.status.Created? || !seen.status.OrderPaymentPending? then Err(BadRequest)
    else if paid.amount != seen.total then Err(BadRequest)
    else
      Ok(Change(
        id,
        Recorded(
          order.(payment := order.payment.(status := Captured), redemption := Settle(order.redemption, Redeemed)),
          seen.status, OrderConfirmed, PaymentCaptured),
        shop.books))
  }

  function DeclinePayment(shop: Shop, id: OrderId, seen: Order, paid: Payment, customer: CustomerId): Result<Change>
    requires id < |shop.orders|
  {
    var order := shop.orders[id];
    if seen.customer != customer then Err(Forbidden)
    else if !paid.kind.Online? then Err(BadRequest)
    else if paid.status.CaptureFailed? then Ok(Change(id, order, shop.books))
    else if !paid.status.Created? || !seen.status.OrderPaymentPending? then Err(BadRequest)
    else
      Ok(Change(
        id,
        Recorded(
          order.(payment := order.payment.(status := CaptureFailed), redemption := Settle(order.redemption, Released)),
          seen.status, OrderPaymentFailed, PaymentDeclined),
        shop.books))
  }

  /** What both cancellations do to the order: refund what was seen captured, release the coupon, close it. */
  function CancelledOrder(order: Order, seen: Order, kind: EventKind): Result<Order> {
    var payment :- if seen.payment.status.Captured? then CreateRefund(order.payment, seen.total) else Ok(order.payment);
    Ok(Recorded(order.(payment := payment, redemption := Release(order.redemption)), seen.status, OrderCancelled, kind))
  }

  predicate CustomerMayCancel(status: OrderStatus) {
    status.OrderPending? || status.OrderPaymentPending? || status.OrderConfirmed?
  }

  function CancelByCustomer(shop: Shop, id: OrderId, seen: Order, customer: CustomerId): Result<Change>
    requires id < |shop.orders|
  {
    if seen.customer != customer then Err(NotFound)
    else if !CustomerMayCancel(seen.status) then Err(BadRequest)
    else
      var order :- CancelledOrder(shop.orders[id], seen, CustomerCancelled);
      Ok(Change(id, order, RestoreAll(shop.books, id, seen.store, seen.items)))
  }

  function CancelByAdmin(shop: Shop, id: OrderId, seen: Order): Result<Change>
    requires id < |shop.orders|
  {
    if seen.status.OrderDelivered? || seen.status.OrderCancelled? then Err(BadRequest)
    else
      var order :- CancelledOrder(shop.orders[id], seen, ForceCancelled);
      Ok(Change(
        id, order,
        if seen.status.OrderPaymentFailed? then shop.books else RestoreAll(shop.books, id, seen.store, seen.items)))
  }

  function UpdateStatus(shop: Shop, id: OrderId, seen: Order, next: OrderStatus): Result<Change>
    requires id < |shop.orders|
  {
    var order := shop.orders[id];
    if seen.status == next then Ok(Change(id, order, shop.books))
    else if !OrderCanMove(seen.status, next) then Err(BadRequest)
    else
      Ok(Change(
        id,
        Recorded(
          order.(redemption := if next.OrderCancelled? then Release(order.redemption) else order.redemption),
          seen.status, next, StatusSet),
        if next.OrderDelivered? then FinalizeAll(shop.books, id, seen.store, order.items) else shop.books))
  }

  predicate IsEditable(status: OrderStatus) {
    status.OrderPending? || status.OrderPaymentPending? || status.OrderConfirmed? || status.OrderPicking?
  }

  /** The item gets another product and price, the order total moves by the difference; no stock moves. */
  function SubstituteItem(shop: Shop, id: OrderId, read: Snapshot, item: nat, product: ProductId,
                          unitPaise: int): Result<Change>
    requires id < |shop.orders|
  {
    var order := shop.orders[id];
    if !IsEditable(read.seen.status) then Err(BadRequest)
    else if item >= |read.seen.items| || item >= |read.seen.unitPaise| then Err(NotFound)
    else if item >= |order.items| || item >= |order.unitPaise| then Err(NotFound)
    else if OnShelf(read.stock, Shelf(read.seen.store, product)) < read.seen.items[item].quantity then Err(BadRequest)
    else
      var delta := (unitPaise - read.seen.unitPaise[item]) * read.seen.items[item].quantity;
      Ok(Change(
        id,
        order.(
          items := order.items[item := order.items[item].(product := product)],
          unitPaise := order.unitPaise[item := unitPaise],
          subtotal := read.seen.subtotal + delta,
          total := read.seen.total + delta,
          history := order.history + [HistoryRow(Some(read.seen.status), read.seen.status, ItemSubstituted)]),
        shop.books))
  }

  // ------------------------------------------------------------ the delivery side

  function StartDelivery(shop: Shop, id: OrderId): Result<Change>
    requires id < |shop.orders|
  {
    var order := shop.orders[id];
    if order.job.Some? then Ok(Change(id, order, shop.books))
    else if !IsCreatable(order.status) then Err(Forbidden)
    else Ok(Change(id, order.(job := Some(InitialStatus(order.status))), shop.books))
  }

  /** A job step writes the mirrored status over whatever the order says; delivery writes its ledger rows. */
  function StepDelivery(shop: Shop, id: OrderId, next: JobStatus): Change
    requires id < |shop.orders|
  {
    var order := shop.orders[id];
    Change(
      id,
      Recorded(order.(job := Some(next)), order.status, LegacyOrderStatus(next), JobMoved),
      if next.Delivered? then FinalizeAll(shop.books, id, order.store, order.items) else shop.books)
  }

  /** A step that some request of the delivery side asks for. */
  function MoveDelivery(shop: Shop, id: OrderId, next: JobStatus): Result<Change>
    requires id < |shop.orders|
  {
    var order := shop.orders[id];
    if order.job.None? then Err(NotFound)
    else if !IsServed(order.job.value, next) then Err(BadRequest)
    else Ok(StepDelivery(shop, id, next))
  }

  function CancelDelivery(shop: Shop, id: OrderId): Result<Change>
    requires id < |shop.orders|
  {
    if shop.orders[id].job != Some(DeliveryFailed) then Err(BadRequest)
    else
      var moved := StepDelivery(shop, id, Cancelled);
      Ok(moved.(order := moved.order.(payment := RefundFailedDelivery(moved.order.payment))))
  }

  function CollectFromCustomer(shop: Shop, id: OrderId): Result<Change>
    requires id < |shop.orders|
  {
    var order := shop.orders[id];
    if !order.payment.kind.CashOnDelivery? || !order.payment.status.PendingCod? then Err(BadRequest)
    else if order.job != Some(OutForDelivery) && order.job != Some(AtCustomer) then Err(BadRequest)
    else Ok(Change(id, order.(payment := order.payment.(status := Captured)), shop.books))
  }

  function InspectOrder(shop: Shop, id: OrderId, lines: seq<Inspection.InspectionLine>): Result<Change>
    requires id < |shop.orders|
  {
    var order := shop.orders[id];
    if order.inspected then Err(Conflict)
    else if order.job != Some(ReturnedToStore) then Err(BadRequest)
    else
      var units :- Inspection.Inspect(order.items, lines);
      Ok(Change(id, order.(inspected := true), PutBackAll(shop.books, id, order.store, units)))
  }

  // ------------------------------------------------------------------------- runs

  /** The order a request is about: one that was read before, or one read inside the transaction. */
  function Target(shop: Shop, request: Request): Option<OrderId> {
    match request
    case Capture(order, payment, _) => if IsPair(shop, order, payment) then Some(shop.snapshots[order].id) else None
    case Decline(order, payment, _) => if IsPair(shop, order, payment) then Some(shop.snapshots[order].id) else None
    case CancelMine(order, _) => SnapshotTarget(shop, order)
    case ForceCancel(order, _) => SnapshotTarget(shop, order)
    case SetStatus(order, _) => SnapshotTarget(shop, order)
    case Substitute(order, _, _, _) => SnapshotTarget(shop, order)
    case StartJob(id) => Existing(shop, id)
    case MoveJob(id, _) => Existing(shop, id)
    case CancelFailedDelivery(id) => Existing(shop, id)
    case CollectCash(id) => Existing(shop, id)
    case InspectReturn(id, _) => Existing(shop, id)
    case _ => None
  }

  function Existing(shop: Shop, id: OrderId): Option<OrderId> {
    if id < |shop.orders| then Some(id) else None
  }

  function SnapshotTarget(shop: Shop, order: nat): Option<OrderId> {
    if order < |shop.snapshots| then Existing(shop, shop.snapshots[order].id) else None
  }

  /** The order row and the payment row are read one after the other. */
  predicate IsPair(shop: Shop, order: nat, payment: nat) {
    && order < |shop.snapshots| && payment < |shop.snapshots|
    && shop.snapshots[order].id == shop.snapshots[payment].id
    && shop.snapshots[order].id < |shop.orders|
  }

  function Alter(shop: Shop, request: Request, id: OrderId): Result<Change>
    requires Target(shop, request) == Some(id)
  {
    match request
    case Capture(order, payment, customer) =>
      CapturePayment(shop, id, shop.snapshots[order].seen, shop.snapshots[payment].seen.payment, customer)
    case Decline(order, payment, customer) =>
      DeclinePayment(shop, id, shop.snapshots[order].seen, shop.snapshots[payment].seen.payment, customer)
    case CancelMine(order, customer) => CancelByCustomer(shop, id, shop.snapshots[order].seen, customer)
    case ForceCancel(order, _) => CancelByAdmin(shop, id, shop.snapshots[order].seen)
    case SetStatus(order, next) => UpdateStatus(shop, id, shop.snapshots[order].seen, next)
    case Substitute(order, item, product, unitPaise) =>
      SubstituteItem(shop, id, shop.snapshots[order], item, product, unitPaise)
    case StartJob(_) => StartDelivery(shop, id)
    case MoveJob(_, next) => MoveDelivery(shop, id, next)
    case CancelFailedDelivery(_) => CancelDelivery(shop, id)
    case CollectCash(_) => CollectFromCustomer(shop, id)
    case InspectReturn(_, lines) => InspectOrder(shop, id, lines)
  }

  /** Only an administrator may force a cancellation; this is checked before the order is read. */
  predicate IsForbidden(request: Request) {
    match request
    case ForceCancel(_, byAdmin) => !byAdmin
    case _ => false
  }

  function Handle(shop: Shop, request: Request): Result<Shop> {
    match request
    case Look(id) =>
      if id >= |shop.orders| then Err(NotFound)
      else Ok(shop.(snapshots := shop.snapshots + [Snapshot(id, shop.orders[id], shop.books.stock)]))
    case Place(_, _, _, _, _, _, _) => PlaceOrder(shop, request)
    case AdjustStock(shelf, quantity) => Ok(shop.(books := Adjust(shop.books, shelf, quantity)))
    case AddCoupon(coupon) =>
      if ValidateRule(coupon).Err? then Err(BadRequest)
      else if FindCode(shop.coupons, coupon.code).Some? then Err(Conflict)
      else Ok(shop.(coupons := shop.coupons + [coupon]))
    case EditCoupon(id, coupon) =>
      if id >= |shop.coupons| then Err(NotFound)
      else if ValidateRule(coupon).Err? then Err(BadRequest)
      else if coupon.code != shop.coupons[id].code && WasRedeemed(shop.orders, id) then Err(Conflict)
      else if coupon.code != shop.coupons[id].code && FindCode(shop.coupons, coupon.code).Some? then Err(Conflict)
      else Ok(shop.(coupons := shop.coupons[id := coupon]))
    case _ =>
      var target := Target(shop, request);
      if IsForbidden(request) then Err(Forbidden)
      else if target.None? then Err(NotFound)
      else
        var change :- Alter(shop, request, target.value);
        Ok(shop.(orders := shop.orders[change.id := change.order], books := change.books))
  }

  /** A request that is refused changes nothing. */
  function Next(shop: Shop, request: Request): Shop {
    var result := Handle(shop, request);
    if result.Ok? then result.value else shop
  }

  function OpenShop(stock: Stock): Shop {
    Shop(Books(stock, []), [], [], [])
  }

  /** A run as it is watched: the states it passes through, and the request between each two. */
  datatype Trace = Trace(states: seq<Shop>, requests: seq<Request>)

  ghost predicate Leads(run: Trace, i: nat)
    requires i < |run.requests| && |run.states| == |run.requests| + 1
  {
    run.states[i + 1] == Next(run.states[i], run.requests[i])
  }

  /** A run of a shop that opens with some stock, whatever is requested. */
  ghost predicate IsRun(start: Stock, run: Trace) {
    && |run.states| == |run.requests| + 1
    && run.states[0] == OpenShop(start)
    && (forall i: nat {:trigger Leads(run, i)} :: i < |run.requests| ==> Leads(run, i))
  }
}
