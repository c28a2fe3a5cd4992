/** Inspections of returned parcels, forced cancellations, and the delivery jobs that outlive them. */
module ShopForced {
  import opened Common
  import opened DeliveryStatus
  import opened Payments
  import opened Cart
  import opened Pricing
  import opened Inventory
  import opened Shop
  import opened ShopSafety
  import opened ShopTheorems
  import opened ShopLimits
  import Inspection

  // ------------------------------------------------------------------ inspections

  lemma {:induction false} PutBackRaises(books: Books, id: OrderId, store: StoreId, units: seq<CartItem>, shelf: Shelf)
    requires forall i :: 0 <= i < |units| ==> units[i].quantity >= 0
    ensures OnShelf(PutBackAll(books, id, store, units).stock, shelf) ==
            OnShelf(books.stock, shelf) + if shelf.store == store then TotalFor(units, shelf.product) else 0
  {
    if units != [] {
      PutBackRaises(books, id, store, units[..|units| - 1], shelf);
    }
  }

  /** An accepted inspection raises each shelf of the order's store by exactly the sellable units of its product. */
  lemma InspectionRaisesStock(shop: Shop, id: OrderId, lines: seq<Inspection.InspectionLine>, shelf: Shelf)
    requires id < |shop.orders| && Inspection.PositiveLines(lines)
    requires Handle(shop, InspectReturn(id, lines)).Ok?
    ensures var order := shop.orders[id];
      OnShelf(Next(shop, InspectReturn(id, lines)).books.stock, shelf) ==
        OnShelf(shop.books.stock, shelf)
        + if shelf.store != order.store then 0
          else TotalFor(Inspection.SellableUnits(order.items, lines), shelf.product)
  {
    var units := Inspection.SellableUnits(shop.orders[id].items, lines);
    forall i | 0 <= i < |units| ensures units[i].quantity >= 0 {
      Inspection.TotalsAddUp(lines, i);
    }
    PutBackRaises(shop.books, id, shop.orders[id].store, units, shelf);
  }

  /** A parcel is inspected at most once, whatever happens in between. */
  lemma InspectedOnce(start: Stock, run: Trace, t: nat, later: nat, id: OrderId, lines: seq<Inspection.InspectionLine>)
    requires IsRun(start, run) && t <= later < |run.states|
    requires id < |run.states[t].orders| && run.states[t].orders[id].inspected
    ensures Handle(run.states[later], InspectReturn(id, lines)) == Err(Conflict)
  {
    RunGrows(start, run, t, later);
    InspectAgain(run.states[later], id, lines);
  }

  lemma InspectAgain(shop: Shop, id: OrderId, lines: seq<Inspection.InspectionLine>)
    requires id < |shop.orders| && shop.orders[id].inspected
    ensures Handle(shop, InspectReturn(id, lines)) == Err(Conflict)
  {
  }

  // --------------------------------------------- inspected, then cancelled by force

  lemma {:induction false} RestoreRaises(books: Books, id: OrderId, store: StoreId, items: seq<CartItem>, shelf: Shelf)
    requires Stocked(books.stock, store, items)
    ensures RestoreAll(books, id, store, items).stock.Keys == books.stock.Keys
    ensures OnShelf(RestoreAll(books, id, store, items).stock, shelf) ==
            OnShelf(books.stock, shelf) + if shelf.store == store then TotalFor(items, shelf.product) else 0
  {
    if items != [] {
      RestoreRaises(books, id, store, items[..|items| - 1], shelf);
    }
  }

  /** What forcing a cancellation asks of an order: it is open, and a captured payment can be refunded. */
  predicate CanBeForced(order: Order) {
    && !order.status.OrderDelivered? && !order.status.OrderCancelled?
    && (order.payment.status.Captured? ==> CreateRefund(order.payment, order.total).Ok?)
  }

  lemma ForcedExactlyWhen(shop: Shop, k: nat, id: OrderId)
    requires k < |shop.snapshots| && IsCurrent(shop, k) && shop.snapshots[k].id == id
    ensures Handle(shop, ForceCancel(k, true)).Ok? <==> CanBeForced(shop.orders[id])
    ensures Handle(shop, ForceCancel(k, true)).Ok? ==>
      && id < |Next(shop, ForceCancel(k, true)).orders|
      && Next(shop, ForceCancel(k, true)).orders[id].status.OrderCancelled?
      && Next(shop, ForceCancel(k, true)).orders[id].job == shop.orders[id].job
      && Next(shop, ForceCancel(k, true)).books ==
         if shop.orders[id].status.OrderPaymentFailed? then shop.books
         else RestoreAll(shop.books, id, shop.orders[id].store, shop.orders[id].items)
  {
  }

  /** What an order that is restored in full puts on a shelf. */
  function Restored(order: Order, shelf: Shelf): int {
    if shelf.store == order.store && !order.status.OrderPaymentFailed? then TotalFor(order.items, shelf.product) else 0
  }

  /**
   * With a current read, a forced cancellation commits exactly when the order is open and what it paid can
   * be refunded, and puts back everything that was ordered, whether or not a returned parcel was inspected
   * and put back before.
   */
  lemma ForcedCancelIgnoresInspection(start: Stock, run: Trace, t: nat, k: nat, id: OrderId, shelf: Shelf)
    requires IsRun(start, run) && t < |run.states|
    requires k < |run.states[t].snapshots| && IsCurrent(run.states[t], k) && run.states[t].snapshots[k].id == id
    ensures Handle(run.states[t], ForceCancel(k, true)).Ok? <==> CanBeForced(run.states[t].orders[id])
    ensures Handle(run.states[t], ForceCancel(k, true)).Ok? ==>
      OnShelf(Next(run.states[t], ForceCancel(k, true)).books.stock, shelf) ==
        OnShelf(run.states[t].books.stock, shelf) + Restored(run.states[t].orders[id], shelf)
  {
    RunKeeps(start, run, t);
    ForcedRestores(start, run.states[t], k, id, shelf);
  }

  lemma ForcedRestores(start: Stock, shop: Shop, k: nat, id: OrderId, shelf: Shelf)
    requires ShopInv(start, shop)
    requires k < |shop.snapshots| && IsCurrent(shop, k) && shop.snapshots[k].id == id
    ensures Handle(shop, ForceCancel(k, true)).Ok? <==> CanBeForced(shop.orders[id])
    ensures Handle(shop, ForceCancel(k, true)).Ok? ==>
      OnShelf(Next(shop, ForceCancel(k, true)).books.stock, shelf) ==
        OnShelf(shop.books.stock, shelf) + Restored(shop.orders[id], shelf)
  {
    ForcedExactlyWhen(shop, k, id);
    assert OrderInv(shop.orders[id], shop.books.stock);
    RestoreRaises(shop.books, id, shop.orders[id].store, shop.orders[id].items, shelf);
  }

  /** Some line calls a unit of the product sellable. */
  ghost predicate SomeSellable(items: seq<CartItem>, lines: seq<Inspection.InspectionLine>, product: ProductId) {
    exists j :: 0 <= j < |lines|
      && lines[j].disposition.Sellable? && lines[j].item < |items| && items[lines[j].item].product == product
  }

  lemma {:induction false} SellableCounts(lines: seq<Inspection.InspectionLine>, item: Inspection.ItemId)
    requires Inspection.PositiveLines(lines)
    ensures Inspection.TotalOf(lines, item, Inspection.Sellable) >= 0
    ensures Inspection.TotalOf(lines, item, Inspection.Sellable) > 0 <==>
      exists j :: 0 <= j < |lines| && lines[j].item == item && lines[j].disposition.Sellable?
  {
    if lines != [] {
      var front, last := lines[..|lines| - 1], lines[|lines| - 1];
      SellableCounts(front, item);
      if j :| 0 <= j < |lines| && lines[j].item == item && lines[j].disposition.Sellable? {
        assert j < |front| ==> front[j] == lines[j];
      }
      if j :| 0 <= j < |front| && front[j].item == item && front[j].disposition.Sellable? {
        assert lines[j] == front[j];
      }
    }
  }

  lemma {:induction false} TotalCounts(units: seq<CartItem>, product: ProductId)
    requires forall i :: 0 <= i < |units| ==> units[i].quantity >= 0
    ensures TotalFor(units, product) >= 0
    ensures TotalFor(units, product) > 0 <==>
      exists i :: 0 <= i < |units| && units[i].product == product && units[i].quantity > 0
  {
    if units != [] {
      var front, last := units[..|units| - 1], units[|units| - 1];
      TotalCounts(front, product);
      if i :| 0 <= i < |units| && units[i].product == product && units[i].quantity > 0 {
        assert i < |front| ==> front[i] == units[i];
      }
      if i :| 0 <= i < |front| && front[i].product == product && front[i].quantity > 0 {
        assert units[i] == front[i];
      }
    }
  }

  lemma SellableExactlyWhen(items: seq<CartItem>, lines: seq<Inspection.InspectionLine>, product: ProductId)
    requires Inspection.PositiveLines(lines)
    ensures var units := Inspection.SellableUnits(items, lines);
      && TotalFor(units, product) >= 0
      && (TotalFor(units, product) > 0 <==> SomeSellable(items, lines, product))
  {
    var units := Inspection.SellableUnits(items, lines);
    forall i | 0 <= i < |units|
      ensures units[i].quantity >= 0
      ensures units[i].quantity > 0 <==>
        exists j :: 0 <= j < |lines| && lines[j].item == i && lines[j].disposition.Sellable?
    {
      SellableCounts(lines, i);
    }
    TotalCounts(units, product);
    if i :| 0 <= i < |units| && units[i].product == product && units[i].quantity > 0 {
      var j :| 0 <= j < |lines| && lines[j].item == i && lines[j].disposition.Sellable?;
      assert items[lines[j].item].product == product;
    }
    if SomeSellable(items, lines, product) {
      var j :| 0 <= j < |lines| && lines[j].disposition.Sellable? && lines[j].item < |items|
        && items[lines[j].item].product == product;
      assert units[lines[j].item].quantity > 0;
    }
  }

  lemma InspectionCommits(shop: Shop, id: OrderId, lines: seq<Inspection.InspectionLine>)
    requires id < |shop.orders| && Handle(shop, InspectReturn(id, lines)).Ok?
    ensures var after := Next(shop, InspectReturn(id, lines));
      && |after.orders| == |shop.orders| && after.snapshots == shop.snapshots
      && after.orders[id] == shop.orders[id].(inspected := true)
  {
  }

  lemma Looks(shop: Shop, id: OrderId)
    requires id < |shop.orders|
    ensures var after := Next(shop, Look(id));
      && after == shop.(snapshots := shop.snapshots + [Snapshot(id, shop.orders[id], shop.books.stock)])
      && IsCurrent(after, |shop.snapshots|) && after.snapshots[|shop.snapshots|].id == id
  {
  }

  /**
   * A parcel is inspected, the order is read, and its cancellation is forced: each shelf of its store ends
   * at what was there, plus the sellable units, plus everything that was ordered. So a product ends up
   * counted twice exactly when some line called a unit of it sellable.
   */
  lemma InspectedThenForced(start: Stock, run: Trace, t: nat, id: OrderId, lines: seq<Inspection.InspectionLine>,
                            shelf: Shelf)
    requires IsRun(start, run) && t < |run.states| && id < |run.states[t].orders|
    requires Inspection.PositiveLines(lines) && Handle(run.states[t], InspectReturn(id, lines)).Ok?
    ensures var shop := run.states[t];
      var order := shop.orders[id];
      var looked := Next(Next(shop, InspectReturn(id, lines)), Look(id));
      var cancel := ForceCancel(|shop.snapshots|, true);
      var before, after := OnShelf(shop.books.stock, shelf), OnShelf(Next(looked, cancel).books.stock, shelf);
      && (Handle(looked, cancel).Ok? <==> CanBeForced(order))
      && (Handle(looked, cancel).Ok? && shelf.store == order.store ==>
            && after == before + Restored(order, shelf)
                        + TotalFor(Inspection.SellableUnits(order.items, lines), shelf.product)
            && (after > before + Restored(order, shelf) <==> SomeSellable(order.items, lines, shelf.product)))
  {
    var shop := run.states[t];
    var inspected := Next(shop, InspectReturn(id, lines));
    RunKeeps(start, run, t);
    InspectionCommits(shop, id, lines);
    InspectionRaisesStock(shop, id, lines, shelf);
    SellableExactlyWhen(shop.orders[id].items, lines, shelf.product);
    NextKeeps(start, shop, InspectReturn(id, lines));
    Looks(inspected, id);
    NextKeeps(start, inspected, Look(id));
    ForcedRestores(start, Next(inspected, Look(id)), |shop.snapshots|, id, shelf);
  }

  // ------------------------------------------------------------- jobs that live on

  /** The delivery job waits for a rider, or a rider carries it. */
  predicate HasLiveJob(order: Order) {
    order.job.Some? && (order.job.value.WaitingForDispatch? || IsActive(order.job.value))
  }

  /** A job step that commits and leaves the order open. */
  predicate Reopens(shop: Shop, id: OrderId, to: JobStatus) {
    && Handle(shop, MoveJob(id, to)).Ok?
    && id < |Next(shop, MoveJob(id, to)).orders|
    && !Next(shop, MoveJob(id, to)).orders[id].status.OrderCancelled?
  }

  lemma JobMoves(shop: Shop, id: OrderId, to: JobStatus)
    requires id < |shop.orders|
    ensures Handle(shop, MoveJob(id, to)).Ok? <==> shop.orders[id].job.Some? && IsServed(shop.orders[id].job.value, to)
    ensures Handle(shop, MoveJob(id, to)).Ok? ==>
      var after := Next(shop, MoveJob(id, to));
      && |after.orders| == |shop.orders| && after.snapshots == shop.snapshots
      && after.orders[id] ==
         Recorded(shop.orders[id].(job := Some(to)), shop.orders[id].status, LegacyOrderStatus(to), JobMoved)
  {
  }

  /** A step that each live job can take: a rider takes it, or it moves on toward the store. */
  function StepFrom(job: JobStatus): JobStatus {
    if job.WaitingForDispatch? then RiderAssigned else TowardStore(job)
  }

  /** A cancelled order can be opened again by its delivery job exactly while that job is live. */
  lemma CancelledReopensExactlyWhen(shop: Shop, id: OrderId)
    requires id < |shop.orders| && shop.orders[id].status.OrderCancelled?
    ensures (exists to :: Reopens(shop, id, to)) <==> HasLiveJob(shop.orders[id])
  {
    var order := shop.orders[id];
    if HasLiveJob(order) {
      JobMoves(shop, id, StepFrom(order.job.value));
      assert Reopens(shop, id, StepFrom(order.job.value));
    }
    forall to | Reopens(shop, id, to) ensures HasLiveJob(order) {
      JobMoves(shop, id, to);
    }
  }

  /** Cancelled, with no job or with one that is over. */
  predicate IsClosed(order: Order) {
    order.status.OrderCancelled? && !HasLiveJob(order)
  }

  /** Whatever the request read is still so; a delivery job may move any order. */
  ghost predicate Currently(run: Trace, i: nat)
    requires i < |run.requests| && |run.states| == |run.requests| + 1
  {
    run.requests[i].MoveJob? || run.requests[i].CancelFailedDelivery? || IsCalm(run.states[i], run.requests[i])
  }

  lemma ClosedAlter(shop: Shop, request: Request, id: OrderId)
    requires Target(shop, request) == Some(id) && id < |shop.orders| && Alter(shop, request, id).Ok?
    requires IsClosed(shop.orders[id])
    requires request.MoveJob? || request.CancelFailedDelivery? || IsCalm(shop, request)
    ensures IsClosed(Alter(shop, request, id).value.order)
  {
  }

  lemma ClosedNext(shop: Shop, request: Request, id: OrderId)
    requires id < |shop.orders| && IsClosed(shop.orders[id])
    requires request.MoveJob? || request.CancelFailedDelivery? || IsCalm(shop, request)
    ensures id < |Next(shop, request).orders| && IsClosed(Next(shop, request).orders[id])
  {
    if Handle(shop, request).Ok? {
      OrdersAfter(shop, request);
      if Target(shop, request) == Some(id) {
        ClosedAlter(shop, request, id);
      }
    }
  }

  lemma ClosedStep(start: Stock, run: Trace, t: nat, id: OrderId)
    requires IsRun(start, run) && t < |run.requests| && Currently(run, t)
    requires id < |run.states[t].orders| && IsClosed(run.states[t].orders[id])
    ensures id < |run.states[t + 1].orders| && IsClosed(run.states[t + 1].orders[id])
  {
    assert Leads(run, t);
    ClosedNext(run.states[t], run.requests[t], id);
  }

  /** While requests use current reads, a cancelled order without a live job stays cancelled, and gets none. */
  lemma {:induction false} ClosedStaysClosed(start: Stock, run: Trace, t: nat, later: nat, id: OrderId)
    requires IsRun(start, run) && t <= later < |run.states|
    requires id < |run.states[t].orders| && IsClosed(run.states[t].orders[id])
    requires forall i: nat {:trigger Currently(run, i)} :: t <= i < later ==> Currently(run, i)
    ensures id < |run.states[later].orders| && IsClosed(run.states[later].orders[id])
  {
    if t < later {
      ClosedStaysClosed(start, run, t, later - 1, id);
      assert Currently(run, later - 1);
      ClosedStep(start, run, later - 1, id);
    }
  }

  lemma ForcedClosesOrder(shop: Shop, request: Request, id: OrderId)
    requires request.ForceCancel? && Handle(shop, request).Ok? && Target(shop, request) == Some(id)
    ensures id < |shop.orders| == |Next(shop, request).orders|
    ensures var after := Next(shop, request);
      && after.orders[id].status.OrderCancelled? && after.orders[id].job == shop.orders[id].job
      && after.snapshots == shop.snapshots
  {
  }

  lemma ReopenedThenForced(shop: Shop, id: OrderId, to: JobStatus)
    requires id < |shop.orders| && shop.orders[id].job.Some?
    requires IsServed(shop.orders[id].job.value, to) && !to.Delivered?
    ensures var order := shop.orders[id];
      var reopened := Next(shop, MoveJob(id, to));
      var looked := Next(reopened, Look(id));
      var again := ForceCancel(|shop.snapshots|, true);
      && id < |reopened.orders| && !reopened.orders[id].status.OrderCancelled?
      && (Handle(looked, again).Ok? <==>
            (order.payment.status.Captured? ==> CreateRefund(order.payment, order.total).Ok?))
      && (Handle(looked, again).Ok? ==>
            && id < |Next(looked, again).orders|
            && Restocks(Next(looked, again).orders[id].history) == Restocks(order.history) + 1)
  {
    var order := shop.orders[id];
    JobMoves(shop, id, to);
    RestocksAppend(order.history, HistoryRow(Some(order.status), LegacyOrderStatus(to), JobMoved));
    var reopened := Next(shop, MoveJob(id, to));
    Looks(reopened, id);
    var looked := Next(reopened, Look(id));
    ForcedExactlyWhen(looked, |shop.snapshots|, id);
    if Handle(looked, ForceCancel(|shop.snapshots|, true)).Ok? {
      RestockingCancelCounts(looked, ForceCancel(|shop.snapshots|, true));
    }
  }

  /**
   * A forced cancellation does not stop the order's delivery job. After any further step of that job short of
   * delivery the order is open again, and forcing its cancellation once more, on a read that is perfectly
   * current, commits exactly when the refund it owes does, and restocks it once more.
   */
  lemma JobOutlivesForcedCancel(start: Stock, run: Trace, t: nat, id: OrderId, to: JobStatus)
    requires IsRun(start, run) && t < |run.requests| && run.requests[t].ForceCancel?
    requires Handle(run.states[t], run.requests[t]).Ok? && Target(run.states[t], run.requests[t]) == Some(id)
    requires id < |run.states[t].orders|
    requires var job := run.states[t].orders[id].job;
      job.Some? && IsServed(job.value, to) && !to.Delivered?
    ensures id < |run.states[t + 1].orders|
    ensures var closed := run.states[t + 1];
      var order := closed.orders[id];
      var reopened := Next(closed, MoveJob(id, to));
      var looked := Next(reopened, Look(id));
      var again := ForceCancel(|closed.snapshots|, true);
      && order.status.OrderCancelled?
      && id < |reopened.orders| && !reopened.orders[id].status.OrderCancelled?
      && (Handle(looked, again).Ok? <==>
            (order.payment.status.Captured? ==> CreateRefund(order.payment, order.total).Ok?))
      && (Handle(looked, again).Ok? ==>
            && id < |Next(looked, again).orders|
            && Restocks(Next(looked, again).orders[id].history) == Restocks(order.history) + 1)
  {
    assert Leads(run, t);
    ForcedClosesOrder(run.states[t], run.requests[t], id);
    ReopenedThenForced(run.states[t + 1], id, to);
  }
}
