/**
 * Checkout's all-or-nothing reservation, and what snapshots that are out of date can and cannot do to
 * cancellations, captures and refunds.
 */
module ShopRaces {
  import opened Common
  import opened DeliveryStatus
  import opened Payments
  import opened Cart
  import opened Pricing
  import opened Inventory
  import opened Shop
  import opened ShopSafety
  import opened ShopTheorems
  import opened ShopLimits
  import Inspection

  // -------------------------------------------------------------------- checkout

  /** The price the transaction finds is the one that was quoted. */
  predicate QuoteStands(shop: Shop, request: Request)
    requires request.Place?
  {
    var applied := CalculateDiscount(
      shop.coupons, UsageFor(shop.orders, request.customer), request.code, BasketOf(request), request.now);
    && applied.Ok?
    && DiscountOf(applied.value) == request.quote.discount && CouponOf(applied.value) == request.quote.coupon
  }

  /** No order was made under the key before, if there is one; otherwise that order is the answer. */
  predicate IsFirstUse(shop: Shop, request: Request)
    requires request.Place?
  {
    request.key.Some? ==> FindKey(shop.orders, request.key.value).None?
  }

  /** A checkout commits exactly when its quote still stands and every merged line is on the shelf. */
  lemma CheckoutCommitsExactlyWhen(shop: Shop, request: Request)
    requires request.Place? && IsFirstUse(shop, request)
    ensures var items := Normalize(request.cart);
      Handle(shop, request).Ok? <==>
        && AllPositive(request.cart) && items != [] && AllListed(items, request.quote.catalog)
        && request.quote.serviceable
        && request.quote.discount <= Subtotal(BasketOf(request)) + request.quote.fee
        && QuotedInStock(items, request.quote.store, request.quote.stock)
        && QuoteStands(shop, request)
        && (forall i :: 0 <= i < |items| ==> Available(shop.books.stock, request.quote.store, items[i]))
  {
    NormalizeMeans(request.cart, UnitPrice(request.quote.catalog), 0);
    ReservesExactlyWhen(shop.books, request.quote.store, Normalize(request.cart));
  }

  /** A committed checkout takes exactly what the cart asks for from each shelf and never takes one below zero. */
  lemma CheckoutTakesTheCart(shop: Shop, request: Request, shelf: Shelf)
    requires request.Place? && IsFirstUse(shop, request) && Handle(shop, request).Ok?
    ensures var after := Handle(shop, request).value.books.stock;
      && OnShelf(after, shelf) == OnShelf(shop.books.stock, shelf)
         - (if shelf.store == request.quote.store then TotalFor(request.cart, shelf.product) else 0)
      && (OnShelf(shop.books.stock, shelf) >= 0 ==> OnShelf(after, shelf) >= 0)
  {
    NormalizeMeans(request.cart, UnitPrice(request.quote.catalog), shelf.product);
    ReserveTakes(shop.books, request.quote.store, Normalize(request.cart), shelf);
  }

  ghost predicate NoneNegative(stock: Stock) {
    forall shelf :: OnShelf(stock, shelf) >= 0
  }

  lemma {:induction false} RestoreKeepsStock(books: Books, id: OrderId, store: StoreId, items: seq<CartItem>)
    requires NoneNegative(books.stock) && AllPositive(items)
    ensures NoneNegative(RestoreAll(books, id, store, items).stock)
  {
    if items != [] {
      var before := RestoreAll(books, id, store, items[..|items| - 1]);
      RestoreKeepsStock(books, id, store, items[..|items| - 1]);
      forall shelf ensures OnShelf(RestoreAll(books, id, store, items).stock, shelf) >= 0 {
        assert OnShelf(before.stock, shelf) >= 0;
      }
    }
  }

  lemma {:induction false} PutBackKeepsStock(books: Books, id: OrderId, store: StoreId, items: seq<CartItem>)
    requires NoneNegative(books.stock)
    ensures NoneNegative(PutBackAll(books, id, store, items).stock)
  {
    if items != [] {
      var before := PutBackAll(books, id, store, items[..|items| - 1]);
      PutBackKeepsStock(books, id, store, items[..|items| - 1]);
      forall shelf ensures OnShelf(PutBackAll(books, id, store, items).stock, shelf) >= 0 {
        assert OnShelf(before.stock, shelf) >= 0;
      }
    }
  }

  lemma {:induction false} FinalStock(books: Books, id: OrderId, store: StoreId, items: seq<CartItem>)
    ensures FinalizeAll(books, id, store, items).stock == books.stock
  {
    if items != [] {
      FinalStock(books, id, store, items[..|items| - 1]);
    }
  }

  lemma AlterKeepsStock(shop: Shop, request: Request, id: OrderId)
    requires UsesSnapshots(shop, request) && NoneNegative(shop.books.stock)
    requires Target(shop, request) == Some(id) && id < |shop.orders| && Alter(shop, request, id).Ok?
    ensures NoneNegative(Alter(shop, request, id).value.books.stock)
  {
    match request
    case CancelMine(k, _) =>
      RestoreKeepsStock(shop.books, id, shop.snapshots[k].seen.store, shop.snapshots[k].seen.items);
    case ForceCancel(k, _) =>
      RestoreKeepsStock(shop.books, id, shop.snapshots[k].seen.store, shop.snapshots[k].seen.items);
    case SetStatus(k, _) =>
      FinalStock(shop.books, id, shop.snapshots[k].seen.store, shop.orders[id].items);
    case MoveJob(_, _) =>
      FinalStock(shop.books, id, shop.orders[id].store, shop.orders[id].items);
    case InspectReturn(_, lines) =>
      PutBackKeepsStock(shop.books, id, shop.orders[id].store, Inspection.Inspect(shop.orders[id].items, lines).value);
    case _ =>
  }

  lemma PlaceKeepsStock(shop: Shop, request: Request)
    requires NoneNegative(shop.books.stock)
    requires request.Place? && PlaceWithin(shop, request, BasketOf(request)).Ok?
    ensures NoneNegative(PlaceWithin(shop, request, BasketOf(request)).value.books.stock)
  {
    forall shelf ensures OnShelf(PlaceWithin(shop, request, BasketOf(request)).value.books.stock, shelf) >= 0 {
      ReserveTakes(shop.books, request.quote.store, Normalize(request.cart), shelf);
    }
  }

  lemma AdjustKeepsStock(books: Books, shelf: Shelf, quantity: int)
    requires NoneNegative(books.stock) && quantity >= 0
    ensures NoneNegative(Adjust(books, shelf, quantity).stock)
  {
    forall other ensures OnShelf(Adjust(books, shelf, quantity).stock, other) >= 0 {
      assert OnShelf(books.stock, other) >= 0;
    }
  }

  lemma HandleKeepsStock(start: Stock, shop: Shop, request: Request)
    requires ShopInv(start, shop) && NoneNegative(shop.books.stock)
    requires request.AdjustStock? ==> request.quantity >= 0
    ensures NoneNegative(Next(shop, request).books.stock)
  {
    if Handle(shop, request).Ok? {
      if Target(shop, request).Some? {
        AlterKeepsStock(shop, request, Target(shop, request).value);
      } else if request.Place? && Handle(shop, request).value != shop {
        PlaceKeepsStock(shop, request);
      } else if request.AdjustStock? {
        AdjustKeepsStock(shop.books, request.shelf, request.quantity);
      }
    }
  }

  ghost predicate Honestly(run: Trace, i: nat)
    requires i < |run.requests|
  {
    run.requests[i].AdjustStock? ==> run.requests[i].quantity >= 0
  }

  lemma StepKeepsStock(start: Stock, run: Trace, t: nat)
    requires IsRun(start, run) && t < |run.requests| && Honestly(run, t) && NoneNegative(run.states[t].books.stock)
    ensures NoneNegative(run.states[t + 1].books.stock)
  {
    RunKeeps(start, run, t);
    HandleKeepsStock(start, run.states[t], run.requests[t]);
    assert Leads(run, t);
  }

  /** No run takes a shelf below zero unless someone sets it there by hand. */
  lemma {:induction false} NeverOversold(start: Stock, run: Trace, t: nat)
    requires IsRun(start, run) && t < |run.states| && NoneNegative(start)
    requires forall i: nat {:trigger Honestly(run, i)} :: i < t ==> Honestly(run, i)
    ensures NoneNegative(run.states[t].books.stock)
  {
    if t > 0 {
      NeverOversold(start, run, t - 1);
      assert Honestly(run, t - 1);
      StepKeepsStock(start, run, t - 1);
    }
  }

  // ------------------------------------------------------------- stale cancellations

  /** A snapshot on which the customer may cancel without a refund. */
  predicate CancelsUnpaid(shop: Shop, k: nat, id: OrderId, customer: CustomerId) {
    && k < |shop.snapshots| && shop.snapshots[k].id == id < |shop.orders|
    && shop.snapshots[k].seen.customer == customer
    && CustomerMayCancel(shop.snapshots[k].seen.status)
    && !shop.snapshots[k].seen.payment.status.Captured?
  }

  lemma UnpaidCancelCommits(shop: Shop, k: nat, id: OrderId, customer: CustomerId)
    requires CancelsUnpaid(shop, k, id, customer)
    ensures Handle(shop, CancelMine(k, customer)).Ok?
    ensures var after := Next(shop, CancelMine(k, customer));
      && |after.orders| == |shop.orders|
      && Restocks(after.orders[id].history) == Restocks(shop.orders[id].history) + 1
      && after.snapshots == shop.snapshots
      && (IsPlain(after.orders[id]) ==> IsPlain(shop.orders[id]))
      && after.orders[id].items == shop.orders[id].items
  {
    RestockingCancelCounts(shop, CancelMine(k, customer));
  }

  lemma TwiceRestocked(shop: Shop, id: OrderId, product: ProductId)
    requires id < |shop.orders| && TagsAgree(shop.books.rows, id, shop.orders[id])
    requires Restocks(shop.orders[id].history) == 2
    ensures IsPlain(shop.orders[id]) ==>
      Tagged(shop.books.rows, id, product) == TotalFor(shop.orders[id].items, product)
  {
  }

  lemma TwoUnpaidCancels(shop: Shop, i: nat, k: nat, id: OrderId, customer: CustomerId)
    requires CancelsUnpaid(shop, i, id, customer) && CancelsUnpaid(shop, k, id, customer)
    ensures var end := Next(Next(shop, CancelMine(i, customer)), CancelMine(k, customer));
      && |end.orders| == |shop.orders|
      && Restocks(end.orders[id].history) == Restocks(shop.orders[id].history) + 2
  {
    UnpaidCancelCommits(shop, i, id, customer);
    UnpaidCancelCommits(Next(shop, CancelMine(i, customer)), k, id, customer);
  }

  /**
   * The order is read before the transaction and not read again, so two cancellations that both read it
   * open both commit, and an order that is not yet paid is restocked twice.
   */
  lemma TwoSnapshotsCancelTwice(start: Stock, shop: Shop, i: nat, k: nat, id: OrderId, customer: CustomerId,
                                product: ProductId)
    requires ShopInv(start, shop)
    requires CancelsUnpaid(shop, i, id, customer) && CancelsUnpaid(shop, k, id, customer)
    requires Restocks(shop.orders[id].history) == 0
    ensures var end := Next(Next(shop, CancelMine(i, customer)), CancelMine(k, customer));
      && id < |end.orders|
      && Restocks(end.orders[id].history) == 2
      && (IsPlain(end.orders[id]) ==> Tagged(end.books.rows, id, product) == TotalFor(end.orders[id].items, product))
  {
    TwoUnpaidCancels(shop, i, k, id, customer);
    NextKeeps(start, shop, CancelMine(i, customer));
    NextKeeps(start, Next(shop, CancelMine(i, customer)), CancelMine(k, customer));
    TwiceRestocked(Next(Next(shop, CancelMine(i, customer)), CancelMine(k, customer)), id, product);
  }

  /** A snapshot on which the customer may cancel, with a refund of what was paid. */
  predicate CancelsPaid(shop: Shop, k: nat, id: OrderId, customer: CustomerId) {
    && k < |shop.snapshots| && shop.snapshots[k].id == id < |shop.orders|
    && shop.snapshots[k].seen.customer == customer
    && CustomerMayCancel(shop.snapshots[k].seen.status)
    && shop.snapshots[k].seen.payment.status.Captured?
  }

  /**
   * A paid order is safe from that: the refund is checked inside the transaction, and voids the second
   * cancellation.
   */
  lemma PaidCancelsOnlyOnce(start: Stock, run: Trace, t: nat, i: nat, k: nat, id: OrderId, customer: CustomerId)
    requires IsRun(start, run) && t < |run.states|
    requires CancelsPaid(run.states[t], i, id, customer) && CancelsPaid(run.states[t], k, id, customer)
    requires !WasSubstituted(run.states[t].orders[id]) && Handle(run.states[t], CancelMine(i, customer)).Ok?
    ensures Handle(Next(run.states[t], CancelMine(i, customer)), CancelMine(k, customer)) == Err(BadRequest)
  {
    RunKeeps(start, run, t);
    OnceRuns(start, run, t);
    PaidCancelsOnce(start, run.states[t], i, k, id, customer);
  }

  lemma PaidCancelsOnce(start: Stock, shop: Shop, i: nat, k: nat, id: OrderId, customer: CustomerId)
    requires ShopInv(start, shop) && CancelsPaid(shop, i, id, customer) && CancelsPaid(shop, k, id, customer)
    requires !WasSubstituted(shop.orders[id]) && OnceInv(shop.orders[id])
    requires Handle(shop, CancelMine(i, customer)).Ok?
    ensures Handle(Next(shop, CancelMine(i, customer)), CancelMine(k, customer)) == Err(BadRequest)
  {
    assert SnapshotInv(shop.snapshots[i], shop) && SnapshotInv(shop.snapshots[k], shop);
    assert OrderInv(shop.orders[id], shop.books.stock);
    SecondRefundRefused(shop.orders[id], shop.snapshots[i].seen, shop.snapshots[k].seen);
  }

  lemma SecondRefundRefused(order: Order, first: Order, second: Order)
    requires first.payment.status.Captured? && second.payment.status.Captured?
    requires first.total == second.total == order.payment.amount && OnceRefunded(order.payment)
    requires CancelledOrder(order, first, CustomerCancelled).Ok?
    ensures CancelledOrder(CancelledOrder(order, first, CustomerCancelled).value, second,
                           CustomerCancelled) == Err(BadRequest)
  {
    LiveOnce(order.payment);
    AddRefundSum(order.payment, order.payment.amount);
  }

  // ------------------------------------------------------------------------ refunds

  /** At most one refund, of everything. */
  ghost predicate OnceRefunded(payment: Payment) {
    payment.refunds == [] || payment.refunds == [Refund(payment.amount, RefundRequested)]
  }

  lemma LiveOnce(payment: Payment)
    requires OnceRefunded(payment)
    ensures LiveRefunds(payment.refunds) == if payment.refunds == [] then 0 else payment.amount
  {
    if payment.refunds != [] {
      AddRefundSum(payment.(refunds := []), payment.amount);
      assert [] + [Refund(payment.amount, RefundRequested)] == payment.refunds;
    }
  }

  lemma CreateRefundOnce(payment: Payment)
    requires OnceRefunded(payment) && CreateRefund(payment, payment.amount).Ok?
    ensures OnceRefunded(CreateRefund(payment, payment.amount).value)
  {
    LiveOnce(payment);
    assert [] + [Refund(payment.amount, RefundRequested)] == [Refund(payment.amount, RefundRequested)];
  }

  lemma FailedDeliveryOnce(payment: Payment)
    requires OnceRefunded(payment)
    ensures OnceRefunded(RefundFailedDelivery(payment))
  {
    if payment.refunds != [] {
      assert payment.refunds[0].amount == payment.amount;
    }
    assert [] + [Refund(payment.amount, RefundRequested)] == [Refund(payment.amount, RefundRequested)];
  }

  ghost predicate OnceInv(order: Order) {
    !WasSubstituted(order) ==> OnceRefunded(order.payment)
  }

  lemma OnceCancelled(order: Order, seen: Order, kind: EventKind)
    requires OnceInv(order) && AmountsAgree(order) && CancelledOrder(order, seen, kind).Ok?
    requires OrderStep(seen, order)
    ensures OnceInv(CancelledOrder(order, seen, kind).value)
  {
    var after := CancelledOrder(order, seen, kind).value;
    if !WasSubstituted(after) {
      if WasSubstituted(order) {
        SubstitutionStays(order, after);
      }
      if seen.payment.status.Captured? {
        CreateRefundOnce(order.payment);
      }
    }
  }

  lemma OnceAlter(shop: Shop, request: Request, id: OrderId)
    requires Target(shop, request) == Some(id) && id < |shop.orders| && Alter(shop, request, id).Ok?
    requires OnceInv(shop.orders[id]) && AmountsAgree(shop.orders[id]) && UsesSnapshots(shop, request)
    requires OrderStep(shop.orders[id], Alter(shop, request, id).value.order)
    ensures OnceInv(Alter(shop, request, id).value.order)
  {
    var after := Alter(shop, request, id).value.order;
    if WasSubstituted(shop.orders[id]) {
      SubstitutionStays(shop.orders[id], after);
    } else {
      match request
      case CancelMine(k, _) => OnceCancelled(shop.orders[id], shop.snapshots[k].seen, CustomerCancelled);
      case ForceCancel(k, _) => OnceCancelled(shop.orders[id], shop.snapshots[k].seen, EventKind.ForceCancelled);
      case CancelFailedDelivery(_) => FailedDeliveryOnce(shop.orders[id].payment);
      case _ =>
    }
  }

  lemma OnceHandle(start: Stock, shop: Shop, request: Request)
    requires ShopInv(start, shop) && Handle(shop, request).Ok?
    requires forall i :: 0 <= i < |shop.orders| ==> OnceInv(shop.orders[i])
    ensures forall i :: 0 <= i < |Handle(shop, request).value.orders| ==> OnceInv(Handle(shop, request).value.orders[i])
  {
    OrdersAfter(shop, request);
    var target := Target(shop, request);
    if target.Some? {
      assert OrderInv(shop.orders[target.value], shop.books.stock);
      AlterSteps(start, shop, request, target.value);
      OnceAlter(shop, request, target.value);
    } else if request.Place? {
      NewOrdersFresh(shop, request);
    }
  }

  lemma NewOrdersFresh(shop: Shop, request: Request)
    requires request.Place? && Handle(shop, request).Ok?
    ensures var after := Handle(shop, request).value.orders;
      || after == shop.orders
      || (|after| > |shop.orders| && after[|shop.orders|].payment.refunds == []
          && !after[|shop.orders|].status.OrderPending?)
  {
  }

  lemma {:induction false} OnceRuns(start: Stock, run: Trace, t: nat)
    requires IsRun(start, run) && t < |run.states|
    ensures forall i :: 0 <= i < |run.states[t].orders| ==> OnceInv(run.states[t].orders[i])
  {
    if t > 0 {
      OnceRuns(start, run, t - 1);
      RunKeeps(start, run, t - 1);
      assert Leads(run, t - 1);
      if Handle(run.states[t - 1], run.requests[t - 1]).Ok? {
        OnceHandle(start, run.states[t - 1], run.requests[t - 1]);
      }
    }
  }

  /**
   * However stale the snapshots, an order without substitutions is refunded at most once, and never more
   * than was paid, by cancellations and cancelled deliveries together.
   */
  lemma RefundedAtMostOnce(start: Stock, run: Trace, t: nat, id: OrderId)
    requires IsRun(start, run) && t < |run.states|
    requires id < |run.states[t].orders|
    requires !WasSubstituted(run.states[t].orders[id])
    ensures var payment := run.states[t].orders[id].payment;
      |payment.refunds| <= 1 && LiveRefunds(payment.refunds) <= payment.amount
  {
    OnceRuns(start, run, t);
    RunKeeps(start, run, t);
    var shop := run.states[t];
    assert OrderInv(shop.orders[id], shop.books.stock);
    LiveOnce(shop.orders[id].payment);
  }

  /** A captured online payment with live refunds, none of its refunds of the full amount. */
  predicate IsPartlyRefunded(payment: Payment) {
    payment.kind.Online? && payment.status.Captured? && LiveRefunds(payment.refunds) > 0 && !HasFullRefund(payment)
  }

  /** A failed delivery is cancelled, which refunds the whole payment on top of its earlier refunds. */
  ghost predicate RefundsOnTop(shop: Shop, request: Request, id: OrderId) {
    && request == CancelFailedDelivery(id) && Handle(shop, request).Ok?
    && id < |shop.orders| && IsPartlyRefunded(shop.orders[id].payment)
  }

  /** The refund of a cancelled order never passes the cap, whatever payment it meets. */
  lemma CancelRefundCapped(order: Order, seen: Order, kind: EventKind)
    requires CancelledOrder(order, seen, kind).Ok?
    ensures var after := CancelledOrder(order, seen, kind).value.payment;
      && LiveRefunds(order.payment.refunds) <= LiveRefunds(after.refunds)
      && (LiveRefunds(order.payment.refunds) <= order.payment.amount ==> LiveRefunds(after.refunds) <= after.amount)
  {
    AddRefundSum(order.payment, seen.total);
  }

  lemma FailedDeliveryRefund(payment: Payment)
    requires 0 <= payment.amount
    ensures var after := RefundFailedDelivery(payment);
      && LiveRefunds(payment.refunds) <= LiveRefunds(after.refunds)
      && (IsPartlyRefunded(payment) ==> LiveRefunds(after.refunds) > payment.amount)
      && (LiveRefunds(payment.refunds) <= payment.amount < LiveRefunds(after.refunds) ==> IsPartlyRefunded(payment))
  {
    AddRefundSum(payment, payment.amount);
  }

  lemma AlterRefunds(shop: Shop, request: Request, id: OrderId)
    requires Target(shop, request) == Some(id) && id < |shop.orders| && Alter(shop, request, id).Ok?
    requires 0 <= shop.orders[id].payment.amount
    ensures var before, after := shop.orders[id].payment, Alter(shop, request, id).value.order.payment;
      var onTop := request.CancelFailedDelivery? && IsPartlyRefunded(before);
      && LiveRefunds(before.refunds) <= LiveRefunds(after.refunds)
      && (onTop ==> LiveRefunds(after.refunds) > before.amount)
      && (LiveRefunds(before.refunds) <= before.amount < LiveRefunds(after.refunds) ==> onTop)
  {
    match request
    case CancelMine(k, _) => CancelRefundCapped(shop.orders[id], shop.snapshots[k].seen, CustomerCancelled);
    case ForceCancel(k, _) => CancelRefundCapped(shop.orders[id], shop.snapshots[k].seen, EventKind.ForceCancelled);
    case CancelFailedDelivery(_) => FailedDeliveryRefund(shop.orders[id].payment);
    case _ =>
  }

  lemma NextRefunds(start: Stock, shop: Shop, request: Request, id: OrderId)
    requires ShopInv(start, shop) && id < |shop.orders|
    ensures id < |Next(shop, request).orders|
    ensures var before, after := shop.orders[id].payment, Next(shop, request).orders[id].payment;
      && after.amount == before.amount
      && LiveRefunds(before.refunds) <= LiveRefunds(after.refunds)
      && (RefundsOnTop(shop, request, id) ==> LiveRefunds(after.refunds) > after.amount)
      && (LiveRefunds(before.refunds) <= before.amount < LiveRefunds(after.refunds) ==> RefundsOnTop(shop, request, id))
  {
    HandleGrows(start, shop, request);
    if Handle(shop, request).Ok? {
      OrdersAfter(shop, request);
      if Target(shop, request) == Some(id) {
        assert OrderInv(shop.orders[id], shop.books.stock);
        AlterRefunds(shop, request, id);
      }
    }
  }

  ghost predicate PassesCap(run: Trace, s: nat, id: OrderId) {
    s < |run.requests| && s < |run.states| && RefundsOnTop(run.states[s], run.requests[s], id)
  }

  /** Nothing is refunded on top of an order before there is the order. */
  lemma {:induction false} NonePassesBefore(start: Stock, run: Trace, t: nat, id: OrderId)
    requires IsRun(start, run) && t < |run.requests| && |run.states[t].orders| <= id
    ensures forall s: nat {:trigger PassesCap(run, s, id)} :: s <= t ==> !PassesCap(run, s, id)
  {
    forall s: nat {:trigger PassesCap(run, s, id)} | s <= t ensures !PassesCap(run, s, id) {
      RunGrows(start, run, s, t);
    }
  }

  lemma NewOrderUnrefunded(shop: Shop, request: Request, id: OrderId)
    requires Handle(shop, request).Ok? && |shop.orders| <= id < |Handle(shop, request).value.orders|
    ensures Handle(shop, request).value.orders[id].payment.refunds == []
  {
    OrdersAfter(shop, request);
    NewOrdersFresh(shop, request);
  }

  lemma NewOrderWithinCap(start: Stock, run: Trace, t: nat, id: OrderId)
    requires IsRun(start, run) && t < |run.requests|
    requires |run.states[t].orders| <= id < |run.states[t + 1].orders|
    ensures LiveRefunds(run.states[t + 1].orders[id].payment.refunds) <= run.states[t + 1].orders[id].payment.amount
  {
    CommittedAmountsAgree(start, run, t + 1, id);
    assert Leads(run, t);
    NewOrderUnrefunded(run.states[t], run.requests[t], id);
  }

  /**
   * Over every run, however stale the snapshots: refunds add up to more than was paid exactly when a failed
   * delivery was cancelled at some moment with live refunds on a captured online payment.
   */
  lemma {:induction false} RefundsPassCapExactlyWhen(start: Stock, run: Trace, t: nat, id: OrderId)
    requires IsRun(start, run) && t < |run.states| && id < |run.states[t].orders|
    ensures var payment := run.states[t].orders[id].payment;
      LiveRefunds(payment.refunds) > payment.amount <==> exists s: nat :: s < t && PassesCap(run, s, id)
  {
    if t == 0 {
    } else if id < |run.states[t - 1].orders| {
      RefundsPassCapExactlyWhen(start, run, t - 1, id);
      RunKeeps(start, run, t - 1);
      assert Leads(run, t - 1);
      NextRefunds(start, run.states[t - 1], run.requests[t - 1], id);
      assert PassesCap(run, t - 1, id) <==> RefundsOnTop(run.states[t - 1], run.requests[t - 1], id);
    } else {
      NewOrderWithinCap(start, run, t - 1, id);
      NonePassesBefore(start, run, t - 1, id);
    }
  }

  // ----------------------------------------------------------------- stale captures

  lemma AlterNeverPending(shop: Shop, request: Request, id: OrderId)
    requires Target(shop, request) == Some(id) && id < |shop.orders| && Alter(shop, request, id).Ok?
    requires !shop.orders[id].status.OrderPending?
    ensures !Alter(shop, request, id).value.order.status.OrderPending?
  {
  }

  /** No order is PENDING at any moment: none is placed so, and no transition leads there. */
  lemma {:induction false} NeverPending(start: Stock, run: Trace, t: nat)
    requires IsRun(start, run) && t < |run.states|
    ensures forall i :: 0 <= i < |run.states[t].orders| ==> !run.states[t].orders[i].status.OrderPending?
  {
    if t > 0 {
      var shop, request := run.states[t - 1], run.requests[t - 1];
      NeverPending(start, run, t - 1);
      assert Leads(run, t - 1);
      if Handle(shop, request).Ok? {
        OrdersAfter(shop, request);
        if Target(shop, request).Some? {
          AlterNeverPending(shop, request, Target(shop, request).value);
        } else if request.Place? {
          NewOrdersFresh(shop, request);
        }
      }
    }
  }

  /** A capture or a decline that found the payment still CREATED, and committed. */
  predicate WritesPayment(shop: Shop, request: Request, id: OrderId) {
    && (request.Capture? || request.Decline?)
    && Handle(shop, request).Ok? && Target(shop, request) == Some(id)
    && request.payment < |shop.snapshots| && shop.snapshots[request.payment].seen.payment.status.Created?
  }

  lemma PaymentWritten(shop: Shop, request: Request, id: OrderId)
    requires WritesPayment(shop, request, id)
    ensures id < |shop.orders| == |Next(shop, request).orders|
    ensures var before, after := shop.orders[id], Next(shop, request).orders[id];
      && after.status == (if request.Capture? then OrderConfirmed else OrderPaymentFailed)
      && after.payment == before.payment.(status := if request.Capture? then Captured else CaptureFailed)
  {
  }

  /**
   * A capture or decline acts on what was read before its transaction. It follows the order's transition
   * table exactly when the order is still waiting for its payment, and it keeps whatever refunds there are.
   */
  lemma PaymentFollowsTableExactlyWhen(start: Stock, run: Trace, t: nat, id: OrderId)
    requires IsRun(start, run) && t < |run.requests|
    requires WritesPayment(run.states[t], run.requests[t], id)
    ensures id < |run.states[t].orders| == |run.states[t + 1].orders|
    ensures var before, after := run.states[t].orders[id], run.states[t + 1].orders[id];
      && (OrderCanMove(before.status, after.status) <==> before.status.OrderPaymentPending?)
      && (run.requests[t].Capture? ==> after.payment.status.Captured?)
      && after.payment.refunds == before.payment.refunds
  {
    assert Leads(run, t);
    NeverPending(start, run, t);
    PaymentWritten(run.states[t], run.requests[t], id);
  }

  // ----------------------------------------------------------------- raised totals

  /**
   * In calm runs a captured order can be cancelled by its customer exactly when its total is from one paisa
   * to what was paid.
   */
  lemma PaidOrderCancelsExactlyWhen(start: Stock, run: Trace, t: nat, k: nat, customer: CustomerId)
    requires IsRun(start, run) && t < |run.states|
    requires CalmUntil(run, t)
    requires var shop := run.states[t];
      && k < |shop.snapshots| && IsCurrent(shop, k)
      && shop.snapshots[k].seen.customer == customer && CustomerMayCancel(shop.snapshots[k].seen.status)
      && shop.snapshots[k].seen.payment.status.Captured?
    ensures var shop := run.states[t];
      var order := shop.snapshots[k].seen;
      Handle(shop, CancelMine(k, customer)).Ok? <==> 1 <= order.total <= order.payment.amount
  {
    CalmRunKeeps(start, run, t);
    var shop := run.states[t];
    assert CalmInv(shop.orders[shop.snapshots[k].id]);
  }
}
