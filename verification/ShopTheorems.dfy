/** What the shop promises over every run: the ledger, reservations and their undoing, coupons, amounts and refunds. */
module ShopTheorems {
  import opened Common
  import opened DeliveryStatus
  import opened Payments
  import opened Cart
  import opened Pricing
  import opened Inventory
  import opened Shop
  import opened ShopSafety

  // --------------------------------------------------------------------- the ledger

  /** Stock is what it was at the start plus what the ledger says, and each row carries its own balances. */
  lemma InventoryReplays(start: Stock, run: Trace, t: nat)
    requires IsRun(start, run) && t < |run.states|
    ensures var books := run.states[t].books;
      && (forall shelf :: OnShelf(books.stock, shelf) == OnShelf(start, shelf) + Moved(books.rows, shelf))
      && (forall k :: 0 <= k < |books.rows| ==>
            && books.rows[k].next == books.rows[k].previous + books.rows[k].delta
            && books.rows[k].previous ==
               OnShelf(start, books.rows[k].shelf) + Moved(books.rows[..k], books.rows[k].shelf))
  {
    RunKeeps(start, run, t);
    EachRowAudits(start, run.states[t].books);
  }

  lemma EachRowAudits(start: Stock, books: Books)
    requires Replays(start, books)
    ensures forall k :: 0 <= k < |books.rows| ==>
      && books.rows[k].next == books.rows[k].previous + books.rows[k].delta
      && books.rows[k].previous == OnShelf(start, books.rows[k].shelf) + Moved(books.rows[..k], books.rows[k].shelf)
  {
    forall k | 0 <= k < |books.rows|
      ensures books.rows[k].next == books.rows[k].previous + books.rows[k].delta
      ensures books.rows[k].previous ==
              OnShelf(start, books.rows[k].shelf) + Moved(books.rows[..k], books.rows[k].shelf)
    {
      assert RowAudits(start, books.rows, k);
    }
  }

  lemma {:induction false} MovedBetween(rows: seq<Movement>, j: nat, k: nat, shelf: Shelf)
    requires j < k <= |rows| && forall i :: j < i < k ==> rows[i].shelf != shelf
    ensures Moved(rows[..k], shelf) == Moved(rows[..j], shelf) + if rows[j].shelf == shelf then rows[j].delta else 0
  {
    assert rows[..k][..k - 1] == rows[..k - 1];
    if j + 1 < k {
      MovedBetween(rows, j, k - 1, shelf);
    }
  }

  /** Each row starts where the last row of the same shelf ended. */
  lemma RowsChain(start: Stock, run: Trace, t: nat, j: nat, k: nat)
    requires IsRun(start, run) && t < |run.states|
    requires var rows := run.states[t].books.rows;
      && j < k < |rows| && rows[j].shelf == rows[k].shelf
      && forall i :: j < i < k ==> rows[i].shelf != rows[k].shelf
    ensures var rows := run.states[t].books.rows; rows[k].previous == rows[j].next
  {
    RunKeeps(start, run, t);
    var rows := run.states[t].books.rows;
    assert RowAudits(start, rows, j) && RowAudits(start, rows, k);
    MovedBetween(rows, j, k, rows[k].shelf);
  }

  /** No committed reservation is unlinked, and every item of every order has a stock row. */
  lemma NothingDangles(start: Stock, run: Trace, t: nat)
    requires IsRun(start, run) && t < |run.states|
    ensures var shop := run.states[t];
      && (forall i :: 0 <= i < |shop.books.rows| && shop.books.rows[i].reason.CheckoutReservation? ==>
            shop.books.rows[i].order.Some? && shop.books.rows[i].order.value < |shop.orders|)
      && (forall id, i :: 0 <= id < |shop.orders| && 0 <= i < |shop.orders[id].items| ==>
            Shelf(shop.orders[id].store, shop.orders[id].items[i].product) in shop.books.stock)
  {
    RunKeeps(start, run, t);
    var shop := run.states[t];
    forall i | 0 <= i < |shop.books.rows| && shop.books.rows[i].reason.CheckoutReservation?
      ensures shop.books.rows[i].order.Some? && shop.books.rows[i].order.value < |shop.orders|
    {
      assert !IsUnlinked(shop.books.rows[i]);
    }
    forall id | 0 <= id < |shop.orders|
      ensures Stocked(shop.books.stock, shop.orders[id].store, shop.orders[id].items)
    {
      assert OrderInv(shop.orders[id], shop.books.stock);
    }
  }

  // ---------------------------------------------------------- reservation and undoing

  /**
   * For an order whose items were never substituted or inspected, its ledger rows add up, for every
   * product, to minus the quantity ordered plus once that quantity for every restocking cancellation in
   * its history, whatever other orders do in between and however stale the cancellations' snapshots are.
   */
  lemma RowsMatchHistory(start: Stock, run: Trace, t: nat, id: OrderId, product: ProductId)
    requires IsRun(start, run) && t < |run.states|
    requires id < |run.states[t].orders| && IsPlain(run.states[t].orders[id])
    ensures var shop := run.states[t];
      Tagged(shop.books.rows, id, product) ==
        TotalFor(shop.orders[id].items, product) * (Restocks(shop.orders[id].history) - 1)
  {
    RunKeeps(start, run, t);
    var shop := run.states[t];
    PlainRows(shop.books.rows, id, shop.orders[id], product);
  }

  lemma PlainRows(rows: seq<Movement>, id: OrderId, order: Order, product: ProductId)
    requires TagsAgree(rows, id, order) && IsPlain(order)
    ensures Tagged(rows, id, product) == TotalFor(order.items, product) * (Restocks(order.history) - 1)
  {
  }

  lemma UndoneWhenOnce(rows: seq<Movement>, id: OrderId, order: Order, stock: Stock)
    requires OrderInv(order, stock) && TagsAgree(rows, id, order) && IsPlain(order) && order.items != []
    ensures (forall product :: Tagged(rows, id, product) == 0) <==> Restocks(order.history) == 1
  {
    var product := order.items[0].product;
    PositiveTotalFor(order.items, 0);
    assert Tagged(rows, id, product) == TotalFor(order.items, product) * (Restocks(order.history) - 1);
    var balance := Restocks(order.history) - 1;
    if balance != 0 {
      NonZero(TotalFor(order.items, product), balance);
    } else {
      forall other ensures Tagged(rows, id, other) == 0 {
        assert Tagged(rows, id, other) == TotalFor(order.items, other) * balance;
      }
    }
  }

  lemma NonZero(a: int, b: int)
    requires a != 0 && b != 0
    ensures a * b != 0
  {
  }

  lemma {:induction false} PositiveTotalFor(items: seq<CartItem>, i: nat)
    requires AllPositive(items) && i < |items|
    ensures TotalFor(items, items[i].product) > 0
  {
    var last := |items| - 1;
    NonNegativeTotal(items[..last], items[i].product);
    if i < last {
      PositiveTotalFor(items[..last], i);
    }
  }

  lemma {:induction false} NonNegativeTotal(items: seq<CartItem>, product: ProductId)
    requires AllPositive(items)
    ensures TotalFor(items, product) >= 0
  {
    if items != [] {
      NonNegativeTotal(items[..|items| - 1], product);
    }
  }

  // -------------------------------------------------------------------- calm runs

  predicate IsCurrent(shop: Shop, k: nat) {
    k < |shop.snapshots| ==>
      shop.snapshots[k].id < |shop.orders| && shop.snapshots[k].seen == shop.orders[shop.snapshots[k].id]
  }

  predicate StillOpen(shop: Shop, id: OrderId) {
    id < |shop.orders| ==> !shop.orders[id].status.OrderCancelled?
  }

  /** What was read is still so when it is used, and no delivery job moves an order that was cancelled. */
  predicate IsCalm(shop: Shop, request: Request) {
    match request
    case Capture(order, payment, _) => IsCurrent(shop, order) && IsCurrent(shop, payment)
    case Decline(order, payment, _) => IsCurrent(shop, order) && IsCurrent(shop, payment)
    case CancelMine(order, _) => IsCurrent(shop, order)
    case ForceCancel(order, _) => IsCurrent(shop, order)
    case SetStatus(order, _) => IsCurrent(shop, order)
    case Substitute(order, _, _, _) => IsCurrent(shop, order)
    case MoveJob(id, _) => StillOpen(shop, id)
    case CancelFailedDelivery(id) => StillOpen(shop, id)
    case _ => true
  }

  ghost predicate Calmly(run: Trace, i: nat)
    requires i < |run.requests| && |run.states| == |run.requests| + 1
  {
    IsCalm(run.states[i], run.requests[i])
  }

  /** Every request before a moment was calm. */
  ghost predicate CalmUntil(run: Trace, t: nat)
    requires t <= |run.requests| && |run.states| == |run.requests| + 1
  {
    forall i: nat {:trigger Calmly(run, i)} :: i < t ==> Calmly(run, i)
  }

  /** Restocked at most once, and then closed; a captured payment has no refund, and refunds never exceed it. */
  ghost predicate CalmInv(order: Order) {
    && Restocks(order.history) <= 1
    && (Restocks(order.history) == 1 ==> order.status.OrderCancelled?)
    && (order.payment.refunds != [] ==> order.payment.status.RefundPending?)
    && LiveRefunds(order.payment.refunds) <= order.payment.amount
  }

  lemma CalmRecorded(order: Order, after: Order, from: OrderStatus, to: OrderStatus, kind: EventKind)
    requires CalmInv(order) && CalmPayment(after.payment)
    requires after.history == order.history + [HistoryRow(Some(from), to, kind)] && after.status == to
    requires to.OrderCancelled? || !order.status.OrderCancelled?
    requires IsRestock(HistoryRow(Some(from), to, kind)) ==> to.OrderCancelled? && !order.status.OrderCancelled?
    ensures CalmInv(after)
  {
    RestocksAppend(order.history, HistoryRow(Some(from), to, kind));
  }

  ghost predicate CalmPayment(payment: Payment) {
    && (payment.refunds != [] ==> payment.status.RefundPending?)
    && LiveRefunds(payment.refunds) <= payment.amount
  }

  lemma CreateRefundCalm(payment: Payment, amount: int)
    requires CalmPayment(payment) && CreateRefund(payment, amount).Ok?
    ensures CalmPayment(CreateRefund(payment, amount).value)
  {
    AddRefundSum(payment, amount);
  }

  lemma FailedDeliveryCalm(payment: Payment)
    requires CalmPayment(payment) && 0 <= payment.amount
    ensures CalmPayment(RefundFailedDelivery(payment))
  {
    AddRefundSum(payment, payment.amount);
  }

  lemma CalmCancel(order: Order, kind: EventKind)
    requires CalmInv(order) && !order.status.OrderCancelled? && CancelledOrder(order, order, kind).Ok?
    ensures CalmInv(CancelledOrder(order, order, kind).value)
  {
    if order.payment.status.Captured? {
      CreateRefundCalm(order.payment, order.total);
    }
    CalmRecorded(order, CancelledOrder(order, order, kind).value, order.status, OrderCancelled, kind);
  }

  lemma CalmMove(shop: Shop, id: OrderId, next: JobStatus)
    requires id < |shop.orders| && CalmInv(shop.orders[id]) && !shop.orders[id].status.OrderCancelled?
    ensures CalmInv(StepDelivery(shop, id, next).order)
  {
    CalmRecorded(shop.orders[id], StepDelivery(shop, id, next).order,
                 shop.orders[id].status, LegacyOrderStatus(next), JobMoved);
  }

  lemma CalmSubstitute(shop: Shop, id: OrderId, read: Snapshot, item: nat, product: ProductId, unitPaise: int)
    requires id < |shop.orders| && CalmInv(shop.orders[id])
    requires SubstituteItem(shop, id, read, item, product, unitPaise).Ok?
    ensures CalmInv(SubstituteItem(shop, id, read, item, product, unitPaise).value.order)
  {
    RestocksAppend(shop.orders[id].history, HistoryRow(Some(read.seen.status), read.seen.status, ItemSubstituted));
  }

  lemma CalmCapture(shop: Shop, id: OrderId, customer: CustomerId)
    requires id < |shop.orders| && CalmInv(shop.orders[id])
    requires CapturePayment(shop, id, shop.orders[id], shop.orders[id].payment, customer).Ok?
    ensures CalmInv(CapturePayment(shop, id, shop.orders[id], shop.orders[id].payment, customer).value.order)
  {
    var order := shop.orders[id];
    var after := CapturePayment(shop, id, order, order.payment, customer).value.order;
    if after != order {
      CalmRecorded(order, after, order.status, OrderConfirmed, PaymentCaptured);
    }
  }

  lemma CalmDecline(shop: Shop, id: OrderId, customer: CustomerId)
    requires id < |shop.orders| && CalmInv(shop.orders[id])
    requires DeclinePayment(shop, id, shop.orders[id], shop.orders[id].payment, customer).Ok?
    ensures CalmInv(DeclinePayment(shop, id, shop.orders[id], shop.orders[id].payment, customer).value.order)
  {
    var order := shop.orders[id];
    var after := DeclinePayment(shop, id, order, order.payment, customer).value.order;
    if after != order {
      CalmRecorded(order, after, order.status, OrderPaymentFailed, PaymentDeclined);
    }
  }

  lemma CalmStatus(shop: Shop, id: OrderId, next: OrderStatus)
    requires id < |shop.orders| && CalmInv(shop.orders[id])
    requires UpdateStatus(shop, id, shop.orders[id], next).Ok?
    ensures CalmInv(UpdateStatus(shop, id, shop.orders[id], next).value.order)
  {
    var order, after := shop.orders[id], UpdateStatus(shop, id, shop.orders[id], next).value.order;
    if after != order {
      CalmRecorded(order, after, order.status, next, StatusSet);
    }
  }

  lemma CalmCancelDelivery(shop: Shop, id: OrderId)
    requires id < |shop.orders| && CalmInv(shop.orders[id]) && !shop.orders[id].status.OrderCancelled?
    requires 0 <= shop.orders[id].payment.amount && CancelDelivery(shop, id).Ok?
    ensures CalmInv(CancelDelivery(shop, id).value.order)
  {
    CalmMove(shop, id, Cancelled);
    FailedDeliveryCalm(shop.orders[id].payment);
  }

  lemma CalmAlter(shop: Shop, request: Request, id: OrderId)
    requires Target(shop, request) == Some(id) && id < |shop.orders| && Alter(shop, request, id).Ok?
    requires IsCalm(shop, request) && CalmInv(shop.orders[id]) && 0 <= shop.orders[id].payment.amount
    ensures CalmInv(Alter(shop, request, id).value.order)
  {
    match request
    case Capture(_, _, customer) => CalmCapture(shop, id, customer);
    case Decline(_, _, customer) => CalmDecline(shop, id, customer);
    case CancelMine(_, _) => CalmCancel(shop.orders[id], CustomerCancelled);
    case ForceCancel(_, _) => CalmCancel(shop.orders[id], EventKind.ForceCancelled);
    case SetStatus(_, next) => CalmStatus(shop, id, next);
    case Substitute(k, item, product, unitPaise) =>
      CalmSubstitute(shop, id, shop.snapshots[k], item, product, unitPaise);
    case MoveJob(_, next) => CalmMove(shop, id, next);
    case CancelFailedDelivery(_) => CalmCancelDelivery(shop, id);
    case _ =>
  }

  lemma CalmHandle(start: Stock, shop: Shop, request: Request)
    requires ShopInv(start, shop) && IsCalm(shop, request) && Handle(shop, request).Ok?
    requires forall i :: 0 <= i < |shop.orders| ==> CalmInv(shop.orders[i])
    ensures forall i :: 0 <= i < |Handle(shop, request).value.orders| ==> CalmInv(Handle(shop, request).value.orders[i])
  {
    var target := Target(shop, request);
    OrdersAfter(shop, request);
    if target.Some? {
      assert OrderInv(shop.orders[target.value], shop.books.stock);
      CalmAlter(shop, request, target.value);
    } else if request.Place? && Handle(shop, request).value != shop {
      CalmPlace(shop, request);
    }
  }

  lemma CalmPlace(shop: Shop, request: Request)
    requires request.Place? && AllPositive(request.cart) && PlaceWithin(shop, request, BasketOf(request)).Ok?
    requires Subtotal(BasketOf(request)) + request.quote.fee - request.quote.discount >= 0
    ensures CalmInv(PlaceWithin(shop, request, BasketOf(request)).value.orders[|shop.orders|])
  {
    var applied := CalculateDiscount(
      shop.coupons, UsageFor(shop.orders, request.customer), request.code, BasketOf(request), request.now).value;
    ReserveStocked(shop.books, request.quote.store, BasketOf(request).items);
    NewOrderFits(shop, request, applied);
  }

  lemma {:induction false} CalmRunKeeps(start: Stock, run: Trace, t: nat)
    requires IsRun(start, run) && t < |run.states| && CalmUntil(run, t)
    ensures forall i :: 0 <= i < |run.states[t].orders| ==> CalmInv(run.states[t].orders[i])
  {
    if t == 0 {
    } else {
      CalmRunKeeps(start, run, t - 1);
      RunKeeps(start, run, t - 1);
      assert Leads(run, t - 1) && Calmly(run, t - 1);
      if Handle(run.states[t - 1], run.requests[t - 1]).Ok? {
        CalmHandle(start, run.states[t - 1], run.requests[t - 1]);
      }
    }
  }

  /**
   * In calm runs an order is restocked at most once, which closes it, and its rows are minus what was
   * ordered or nothing.
   */
  lemma CalmRunsUndoOnce(start: Stock, run: Trace, t: nat, id: OrderId, product: ProductId)
    requires IsRun(start, run) && t < |run.states|
    requires CalmUntil(run, t)
    requires id < |run.states[t].orders| && IsPlain(run.states[t].orders[id])
    ensures var shop := run.states[t];
      var order := shop.orders[id];
      && (Restocks(order.history) == 1 ==> order.status.OrderCancelled?)
      && Tagged(shop.books.rows, id, product) ==
         (if Restocks(order.history) == 1 then 0 else -TotalFor(order.items, product))
  {
    CalmRunKeeps(start, run, t);
    RunKeeps(start, run, t);
    var shop := run.states[t];
    CalmRows(shop.books.rows, id, shop.orders[id], product);
  }

  lemma CalmRows(rows: seq<Movement>, id: OrderId, order: Order, product: ProductId)
    requires TagsAgree(rows, id, order) && IsPlain(order) && CalmInv(order)
    ensures Restocks(order.history) == 1 ==> order.status.OrderCancelled?
    ensures Tagged(rows, id, product) == if Restocks(order.history) == 1 then 0 else -TotalFor(order.items, product)
  {
    var balance := Restocks(order.history) - 1;
    assert Tagged(rows, id, product) == TotalFor(order.items, product) * balance;
  }

  /** In calm runs a captured payment has no refund, and refunds never exceed what was paid, substitutions or not. */
  lemma CalmRunsCapRefunds(start: Stock, run: Trace, t: nat, id: OrderId)
    requires IsRun(start, run) && t < |run.states|
    requires CalmUntil(run, t) && id < |run.states[t].orders|
    ensures var payment := run.states[t].orders[id].payment;
      && (payment.status.Captured? ==> payment.refunds == [])
      && LiveRefunds(payment.refunds) <= payment.amount
  {
    CalmRunKeeps(start, run, t);
  }

  /** A customer's cancellation, or a forced one after a payment that did not fail. */
  predicate IsRestockingCancel(shop: Shop, request: Request) {
    match request
    case CancelMine(k, _) => k < |shop.snapshots|
    case ForceCancel(k, _) => k < |shop.snapshots| && !shop.snapshots[k].seen.status.OrderPaymentFailed?
    case _ => false
  }

  lemma RestockingCancelCounts(shop: Shop, request: Request)
    requires IsRestockingCancel(shop, request) && Handle(shop, request).Ok?
    ensures Target(shop, request).Some?
    ensures var id := Target(shop, request).value;
      var after := Handle(shop, request).value;
      && |after.orders| == |shop.orders| > id
      && Restocks(after.orders[id].history) == Restocks(shop.orders[id].history) + 1
      && after.orders[id].status.OrderCancelled?
      && (IsPlain(after.orders[id]) <==> IsPlain(shop.orders[id]))
      && after.orders[id].items == shop.orders[id].items
      && after.snapshots == shop.snapshots
  {
    var id := Target(shop, request).value;
    var k := request.order;
    var after := Handle(shop, request).value.orders[id];
    var seen := shop.snapshots[k].seen;
    var kind := if request.CancelMine? then CustomerCancelled else EventKind.ForceCancelled;
    assert CancelledOrder(shop.orders[id], seen, kind) == Ok(after);
    RestocksAppend(shop.orders[id].history, HistoryRow(Some(seen.status), OrderCancelled, kind));
    if WasSubstituted(shop.orders[id]) {
      SubstitutionStays(shop.orders[id], after);
    }
  }

  lemma CountedCancelUndoes(start: Stock, shop: Shop, cancel: Request, product: ProductId)
    requires IsRestockingCancel(shop, cancel) && Handle(shop, cancel).Ok?
    requires ShopInv(start, Next(shop, cancel))
    requires forall i :: 0 <= i < |Next(shop, cancel).orders| ==> CalmInv(Next(shop, cancel).orders[i])
    requires Target(shop, cancel).Some? && Target(shop, cancel).value < |Next(shop, cancel).orders|
    requires IsPlain(Next(shop, cancel).orders[Target(shop, cancel).value])
    ensures Tagged(Next(shop, cancel).books.rows, Target(shop, cancel).value, product) == 0
  {
    var id := Target(shop, cancel).value;
    RestockingCancelCounts(shop, cancel);
    CalmRows(Next(shop, cancel).books.rows, id, Next(shop, cancel).orders[id], product);
  }

  /** In a calm run a restocking cancellation of a plain order leaves its rows adding up to nothing. */
  lemma CalmCancelUndoes(start: Stock, run: Trace, t: nat, id: OrderId, product: ProductId)
    requires IsRun(start, run) && t < |run.requests| && CalmUntil(run, t + 1)
    requires IsRestockingCancel(run.states[t], run.requests[t]) && Handle(run.states[t], run.requests[t]).Ok?
    requires Target(run.states[t], run.requests[t]) == Some(id)
    requires id < |run.states[t + 1].orders| && IsPlain(run.states[t + 1].orders[id])
    ensures Tagged(run.states[t + 1].books.rows, id, product) == 0
  {
    RunKeeps(start, run, t + 1);
    CalmRunKeeps(start, run, t + 1);
    assert Leads(run, t);
    CountedCancelUndoes(start, run.states[t], run.requests[t], product);
  }

  /**
   * However stale its snapshot, a restocking cancellation of a plain order leaves the order's rows adding up
   * to nothing exactly when no restocking cancellation went before it.
   */
  lemma CancelUndoesExactlyWhenFirst(start: Stock, run: Trace, t: nat, id: OrderId)
    requires IsRun(start, run) && t < |run.requests|
    requires IsRestockingCancel(run.states[t], run.requests[t]) && Handle(run.states[t], run.requests[t]).Ok?
    requires Target(run.states[t], run.requests[t]) == Some(id) && id < |run.states[t].orders|
    requires IsPlain(run.states[t].orders[id]) && run.states[t].orders[id].items != []
    ensures var rows := run.states[t + 1].books.rows;
      (forall product :: Tagged(rows, id, product) == 0) <==> Restocks(run.states[t].orders[id].history) == 0
  {
    var before, after := run.states[t], run.states[t + 1];
    RunKeeps(start, run, t + 1);
    assert Leads(run, t);
    RestockingCancelCounts(before, run.requests[t]);
    UndoneWhenOnce(after.books.rows, id, after.orders[id], after.books.stock);
  }
}
