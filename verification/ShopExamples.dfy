/**
 * Runs of a shop that opens with five units on each of two shelves and takes one order of two units. Each
 * reaches one of the shop's exceptions, so none of them is only a matter of states that never come up.
 */
module ShopExamples {
  import opened Common
  import opened DeliveryStatus
  import opened Payments
  import opened Cart
  import opened Pricing
  import opened Inventory
  import opened Shop
  import opened ShopSafety
  import opened ShopTheorems
  import opened ShopRaces
  import opened ShopForced
  import Inspection

  const FIVE_OF_EACH: Stock := map[Shelf(0, 0) := 5, Shelf(0, 1) := 5]

  const TWO_UNITS: seq<CartItem> := [CartItem(0, 2)]

  const PRICES: Catalog := map[0 := Listing(0, 100)]

  function PlaceTwo(cod: bool): Request {
    Place(1, TWO_UNITS, Quote(0, true, PRICES, map[], 0, 0, None), cod, None, None, 0)
  }

  // ------------------------------------------------------------------ runs by request

  ghost predicate Makes(requests: seq<Request>, run: Trace) {
    IsRun(FIVE_OF_EACH, run) && run.requests == requests
  }

  ghost function Longer(front: Trace, last: Request): Trace
    requires |front.states| == |front.requests| + 1
  {
    Trace(front.states + [Next(front.states[|front.requests|], last)], front.requests + [last])
  }

  lemma LongerLeads(front: Trace, last: Request)
    requires IsRun(FIVE_OF_EACH, front)
    ensures forall i: nat {:trigger Leads(Longer(front, last), i)} ::
      i <= |front.requests| ==> Leads(Longer(front, last), i)
  {
    forall i: nat {:trigger Leads(Longer(front, last), i)} | i <= |front.requests|
      ensures Leads(Longer(front, last), i)
    {
      if i < |front.requests| {
        assert Leads(front, i);
      }
    }
  }

  lemma {:induction false} RunExists(requests: seq<Request>)
    ensures exists run :: Makes(requests, run)
  {
    if requests == [] {
      assert Makes(requests, Trace([OpenShop(FIVE_OF_EACH)], []));
    } else {
      RunExists(requests[..|requests| - 1]);
      var front :| Makes(requests[..|requests| - 1], front);
      LongerLeads(front, requests[|requests| - 1]);
      assert Makes(requests, Longer(front, requests[|requests| - 1]));
    }
  }

  /** The run that some requests make. */
  ghost function RunOf(requests: seq<Request>): (run: Trace)
    ensures Makes(requests, run)
  {
    RunExists(requests);
    var run :| Makes(requests, run);
    run
  }

  /** Where that run ends. */
  ghost function After(requests: seq<Request>): Shop {
    RunOf(requests).states[|requests|]
  }

  /** Requests decide the states. */
  lemma {:induction false} SameStates(a: Trace, b: Trace, t: nat)
    requires IsRun(FIVE_OF_EACH, a) && IsRun(FIVE_OF_EACH, b) && a.requests <= b.requests && t <= |a.requests|
    ensures a.states[t] == b.states[t]
  {
    if t > 0 {
      SameStates(a, b, t - 1);
      assert Leads(a, t - 1) && Leads(b, t - 1);
    }
  }

  lemma AfterOne(requests: seq<Request>, request: Request)
    ensures After(requests + [request]) == Next(After(requests), request)
  {
    var run := RunOf(requests + [request]);
    SameStates(RunOf(requests), run, |requests|);
    assert Leads(run, |requests|);
  }

  /** A shop with one order. */
  function OneOrder(books: Books, order: Order, snapshots: seq<Snapshot>): Shop {
    Shop(books, [order], [], snapshots)
  }

  lemma Looked(requests: seq<Request>, books: Books, order: Order, snapshots: seq<Snapshot>)
    requires After(requests) == OneOrder(books, order, snapshots)
    ensures After(requests + [Look(0)]) == OneOrder(books, order, snapshots + [Snapshot(0, order, books.stock)])
  {
    AfterOne(requests, Look(0));
  }

  lemma Changed(requests: seq<Request>, request: Request, order: Order, books: Books)
    requires |After(requests).orders| == 1 && Target(After(requests), request) == Some(0) && !IsForbidden(request)
    requires Alter(After(requests), request, 0) == Ok(Change(0, order, books))
    ensures After(requests + [request]) == After(requests).(orders := [order], books := books)
  {
    AfterOne(requests, request);
    assert After(requests).orders[0 := order] == [order];
  }

  /** One more calm request keeps a run calm. */
  lemma CalmOne(requests: seq<Request>, request: Request)
    requires CalmUntil(RunOf(requests), |requests|) && IsCalm(After(requests), request)
    ensures CalmUntil(RunOf(requests + [request]), |requests| + 1)
  {
    var run, front := RunOf(requests + [request]), RunOf(requests);
    forall i: nat {:trigger Calmly(run, i)} | i < |requests| + 1 ensures Calmly(run, i) {
      SameStates(front, run, i);
      if i < |requests| {
        assert Calmly(front, i);
      }
    }
  }

  // ------------------------------------------------------------------- common parts

  /** The order that PlaceTwo makes. */
  function TwoPlaced(cod: bool): Order {
    var status := if cod then OrderConfirmed else OrderPaymentPending;
    Order(
      1, 0, None, TWO_UNITS, [100], status, 200, 0, 0, 200,
      Payment(if cod then CashOnDelivery else Online, if cod then PendingCod else Created, 200, []),
      None, None, false, [HistoryRow(None, status, Placed)])
  }

  ghost function Bought(cod: bool): Books {
    After([PlaceTwo(cod)]).books
  }

  lemma TwoUnitsMerged()
    ensures Normalize(TWO_UNITS) == TWO_UNITS && Worth(TWO_UNITS, UnitPrice(PRICES)) == 200
  {
    assert TWO_UNITS[..0] == [];
    WorthOne(CartItem(0, 2), UnitPrice(PRICES));
  }

  lemma TwoUnitsTotal()
    ensures TotalFor(TWO_UNITS, 0) == 2
  {
    assert TWO_UNITS[..0] == [];
  }

  lemma PlacesTwo(cod: bool)
    ensures var after := Next(OpenShop(FIVE_OF_EACH), PlaceTwo(cod));
      after == OneOrder(after.books, TwoPlaced(cod), []) && after.books.stock == map[Shelf(0, 0) := 3, Shelf(0, 1) := 5]
  {
    var shop := OpenShop(FIVE_OF_EACH);
    TwoUnitsMerged();
    assert TWO_UNITS[..0] == [];
    assert QuoteStands(shop, PlaceTwo(cod));
    CheckoutCommitsExactlyWhen(shop, PlaceTwo(cod));
    assert UnitPrices(TWO_UNITS, PRICES) == [100];
  }

  lemma PlacedTwo(cod: bool)
    ensures After([PlaceTwo(cod)]) == OneOrder(Bought(cod), TwoPlaced(cod), [])
    ensures Bought(cod).stock == map[Shelf(0, 0) := 3, Shelf(0, 1) := 5]
  {
    PlacesTwo(cod);
    AfterOne([], PlaceTwo(cod));
    assert [] + [PlaceTwo(cod)] == [PlaceTwo(cod)] && After([]) == OpenShop(FIVE_OF_EACH);
  }

  /** The order once it is paid online. */
  function Paid(): Order {
    var order := TwoPlaced(false);
    Recorded(
      order.(payment := order.payment.(status := Captured)), OrderPaymentPending, OrderConfirmed, PaymentCaptured)
  }

  /** Placed, read, paid and read again: the first snapshot still shows the payment open. */
  const PAY: seq<Request> := [PlaceTwo(false), Look(0), Capture(0, 0, 1), Look(0)]

  function PaidSnapshots(stock: Stock): seq<Snapshot> {
    [Snapshot(0, TwoPlaced(false), stock)] + [Snapshot(0, Paid(), stock)]
  }

  lemma PaidNow()
    ensures After(PAY) == OneOrder(Bought(false), Paid(), PaidSnapshots(Bought(false).stock))
  {
    var place := [PlaceTwo(false)];
    var first := [Snapshot(0, TwoPlaced(false), Bought(false).stock)];
    PlacedTwo(false);
    Looked(place, Bought(false), TwoPlaced(false), []);
    assert [] + first == first;
    Changed(place + [Look(0)], Capture(0, 0, 1), Paid(), Bought(false));
    Looked(place + [Look(0)] + [Capture(0, 0, 1)], Bought(false), Paid(), first);
    assert place + [Look(0)] + [Capture(0, 0, 1)] + [Look(0)] == PAY;
  }

  lemma PaidCalmly()
    ensures CalmUntil(RunOf(PAY), 4)
  {
    var place := [PlaceTwo(false)];
    var first := [Snapshot(0, TwoPlaced(false), Bought(false).stock)];
    PlacedTwo(false);
    assert [] + place == place;
    CalmOne([], PlaceTwo(false));
    CalmOne(place, Look(0));
    Looked(place, Bought(false), TwoPlaced(false), []);
    assert [] + first == first;
    CalmOne(place + [Look(0)], Capture(0, 0, 1));
    CalmOne(place + [Look(0)] + [Capture(0, 0, 1)], Look(0));
    assert place + [Look(0)] + [Capture(0, 0, 1)] + [Look(0)] == PAY;
  }

  /** A confirmed order, packed and given its delivery job. */
  function Packed(order: Order): Order {
    Recorded(order, order.status, OrderPacked, StatusSet).(job := Some(WaitingForDispatch))
  }

  function Dispatch(k: nat): seq<Request> {
    [Look(0)] + [SetStatus(k, OrderPacked)] + [StartJob(0)]
  }

  lemma Dispatched(requests: seq<Request>, books: Books, order: Order, snapshots: seq<Snapshot>)
    requires After(requests) == OneOrder(books, order, snapshots) && order.status.OrderConfirmed? && order.job.None?
    ensures After(requests + Dispatch(|snapshots|)) ==
      OneOrder(books, Packed(order), snapshots + [Snapshot(0, order, books.stock)])
  {
    var k := |snapshots|;
    Looked(requests, books, order, snapshots);
    Changed(
      requests + [Look(0)], SetStatus(k, OrderPacked), Recorded(order, order.status, OrderPacked, StatusSet), books);
    Changed(requests + [Look(0)] + [SetStatus(k, OrderPacked)], StartJob(0), Packed(order), books);
    assert requests + [Look(0)] + [SetStatus(k, OrderPacked)] + [StartJob(0)] == requests + Dispatch(k);
  }

  function MovedTo(order: Order, to: JobStatus): Order {
    Recorded(order.(job := Some(to)), order.status, LegacyOrderStatus(to), JobMoved)
  }

  lemma MovedOn(requests: seq<Request>, books: Books, order: Order, snapshots: seq<Snapshot>, to: JobStatus)
    requires After(requests) == OneOrder(books, order, snapshots)
    requires order.job.Some? && IsServed(order.job.value, to) && !to.Delivered?
    ensures After(requests + [MoveJob(0, to)]) == OneOrder(books, MovedTo(order, to), snapshots)
  {
    Changed(requests, MoveJob(0, to), MovedTo(order, to), books);
  }

  /** A route of a delivery job that never delivers. */
  predicate IsRoute(from: JobStatus, path: seq<JobStatus>)
    decreases path
  {
    path == [] || (IsServed(from, path[0]) && !path[0].Delivered? && IsRoute(path[0], path[1..]))
  }

  function Moves(path: seq<JobStatus>): seq<Request> {
    if path == [] then [] else [MoveJob(0, path[0])] + Moves(path[1..])
  }

  function MovedAlong(order: Order, path: seq<JobStatus>): Order
    decreases path
  {
    if path == [] then order else MovedAlong(MovedTo(order, path[0]), path[1..])
  }

  lemma MovesFirst(requests: seq<Request>, path: seq<JobStatus>)
    requires path != []
    ensures requests + Moves(path) == requests + [MoveJob(0, path[0])] + Moves(path[1..])
  {
  }

  lemma {:induction false} Travelled(requests: seq<Request>, books: Books, order: Order, snapshots: seq<Snapshot>,
                                     path: seq<JobStatus>)
    requires After(requests) == OneOrder(books, order, snapshots)
    requires order.job.Some? && IsRoute(order.job.value, path)
    ensures After(requests + Moves(path)) == OneOrder(books, MovedAlong(order, path), snapshots)
    decreases |path|
  {
    if path == [] {
      assert requests + Moves(path) == requests;
    } else {
      MovesFirst(requests, path);
      MovedOn(requests, books, order, snapshots, path[0]);
      Travelled(requests + [MoveJob(0, path[0])], books, MovedTo(order, path[0]), snapshots, path[1..]);
    }
  }

  /** Travelling changes the status, the job and the history. */
  lemma {:induction false} TravelKeeps(order: Order, path: seq<JobStatus>)
    requires path != []
    ensures MovedAlong(order, path) == order.(
      status := LegacyOrderStatus(path[|path| - 1]), job := Some(path[|path| - 1]),
      history := MovedAlong(order, path).history)
    decreases |path|
  {
    if |path| > 1 {
      TravelKeeps(MovedTo(order, path[0]), path[1..]);
    }
  }

  lemma RecordedCounts(order: Order, from: OrderStatus, to: OrderStatus, kind: EventKind)
    requires !kind.ItemSubstituted?
    ensures Restocks(Recorded(order, from, to, kind).history) ==
      Restocks(order.history) + if IsRestock(HistoryRow(Some(from), to, kind)) then 1 else 0
    ensures IsPlain(order) ==> IsPlain(Recorded(order, from, to, kind))
  {
    RestocksAppend(order.history, HistoryRow(Some(from), to, kind));
  }

  /** An order that is plain and was restocked some number of times. */
  predicate Restocked(order: Order, times: nat) {
    IsPlain(order) && Restocks(order.history) == times && order.items == TWO_UNITS
  }

  lemma TaggedTwice(requests: seq<Request>)
    requires |After(requests).orders| == 1 && Restocked(After(requests).orders[0], 2)
    ensures Tagged(After(requests).books.rows, 0, 0) == 2
  {
    TwoUnitsTotal();
    RowsMatchHistory(FIVE_OF_EACH, RunOf(requests), |requests|, 0, 0);
  }

  // ------------------------------------------------------------- restocked twice

  function Dropped(order: Order): Order {
    Recorded(order.(redemption := Release(order.redemption)), OrderConfirmed, OrderCancelled, CustomerCancelled)
  }

  const LOOK_TWICE: seq<Request> := [PlaceTwo(true)] + [Look(0)] + [Look(0)]

  ghost function OpenReads(): seq<Snapshot> {
    [Snapshot(0, TwoPlaced(true), Bought(true).stock)] + [Snapshot(0, TwoPlaced(true), Bought(true).stock)]
  }

  lemma LookedTwice()
    ensures After(LOOK_TWICE) == OneOrder(Bought(true), TwoPlaced(true), OpenReads())
  {
    var read := [Snapshot(0, TwoPlaced(true), Bought(true).stock)];
    PlacedTwo(true);
    Looked([PlaceTwo(true)], Bought(true), TwoPlaced(true), []);
    assert [] + read == read;
    Looked([PlaceTwo(true)] + [Look(0)], Bought(true), TwoPlaced(true), read);
  }

  lemma DroppedCounts(order: Order, times: nat)
    requires Restocked(order, times)
    ensures Restocked(Dropped(order), times + 1)
  {
    RecordedCounts(
      order.(redemption := Release(order.redemption)), OrderConfirmed, OrderCancelled, CustomerCancelled);
  }

  /**
   * Two cancellations of one order, on two reads that both show it open: its rows add up to two units that
   * were never bought.
   */
  lemma DoubleCancelHappens()
    ensures Tagged(After(LOOK_TWICE + [CancelMine(0, 1)] + [CancelMine(1, 1)]).books.rows, 0, 0) == 2
  {
    var order := TwoPlaced(true);
    LookedTwice();
    var once := RestoreAll(Bought(true), 0, 0, TWO_UNITS);
    Changed(LOOK_TWICE, CancelMine(0, 1), Dropped(order), once);
    Changed(LOOK_TWICE + [CancelMine(0, 1)], CancelMine(1, 1), Dropped(Dropped(order)),
            RestoreAll(once, 0, 0, TWO_UNITS));
    FirstRow(order.history);
    DroppedCounts(order, 0);
    DroppedCounts(Dropped(order), 1);
    TaggedTwice(LOOK_TWICE + [CancelMine(0, 1)] + [CancelMine(1, 1)]);
  }

  function Forced(order: Order): Order
    requires CanBeForced(order)
  {
    CancelledOrder(order, order, EventKind.ForceCancelled).value
  }

  lemma ForcedNow(requests: seq<Request>, books: Books, order: Order, snapshots: seq<Snapshot>)
    requires After(requests) == OneOrder(books, order, snapshots)
    requires CanBeForced(order) && !order.status.OrderPaymentFailed?
    ensures After(requests + [Look(0)] + [ForceCancel(|snapshots|, true)]) ==
      OneOrder(RestoreAll(books, 0, order.store, order.items), Forced(order),
               snapshots + [Snapshot(0, order, books.stock)])
  {
    Looked(requests, books, order, snapshots);
    Changed(requests + [Look(0)], ForceCancel(|snapshots|, true), Forced(order),
            RestoreAll(books, 0, order.store, order.items));
  }

  lemma ForcedCounts(order: Order, times: nat)
    requires CanBeForced(order) && !order.status.OrderPaymentFailed? && Restocked(order, times)
    ensures Restocked(Forced(order), times + 1)
  {
    RecordedCounts(
      order.(payment := Forced(order).payment, redemption := Release(order.redemption)),
      order.status, OrderCancelled, EventKind.ForceCancelled);
  }

  /** A packed order whose job waits is cancelled by force. */
  const FORCE_ONCE: seq<Request> :=
    [PlaceTwo(true)] + Dispatch(0) + [Look(0)] + [ForceCancel(1, true)]

  ghost function ReadsBefore(): seq<Snapshot> {
    [Snapshot(0, TwoPlaced(true), Bought(true).stock)] + [Snapshot(0, Packed(TwoPlaced(true)), Bought(true).stock)]
  }

  lemma ForcedOnce()
    ensures After(FORCE_ONCE) ==
      OneOrder(RestoreAll(Bought(true), 0, 0, TWO_UNITS), Forced(Packed(TwoPlaced(true))), ReadsBefore())
  {
    PlacedTwo(true);
    Dispatched([PlaceTwo(true)], Bought(true), TwoPlaced(true), []);
    var first := [Snapshot(0, TwoPlaced(true), Bought(true).stock)];
    assert [] + first == first;
    ForcedNow([PlaceTwo(true)] + Dispatch(0), Bought(true), Packed(TwoPlaced(true)), first);
  }

  lemma OnceForced()
    ensures Restocked(Forced(Packed(TwoPlaced(true))), 1)
  {
    FirstRow(TwoPlaced(true).history);
    RecordedCounts(TwoPlaced(true), OrderConfirmed, OrderPacked, StatusSet);
    ForcedCounts(Packed(TwoPlaced(true)), 0);
  }

  /** A rider takes the job of an order that was cancelled by force; the order is cancelled by force again. */
  lemma ForcedTwice()
    ensures
      Tagged(After(FORCE_ONCE + [MoveJob(0, RiderAssigned)] + [Look(0)] + [ForceCancel(2, true)]).books.rows, 0, 0) == 2
  {
    var closed := Forced(Packed(TwoPlaced(true)));
    var books := RestoreAll(Bought(true), 0, 0, TWO_UNITS);
    ForcedOnce();
    OnceForced();
    MovedOn(FORCE_ONCE, books, closed, ReadsBefore(), RiderAssigned);
    RecordedCounts(closed.(job := Some(RiderAssigned)), closed.status, OrderRiderAssigned, JobMoved);
    var open := MovedTo(closed, RiderAssigned);
    ForcedNow(FORCE_ONCE + [MoveJob(0, RiderAssigned)], books, open, ReadsBefore());
    ForcedCounts(open, 1);
    TaggedTwice(FORCE_ONCE + [MoveJob(0, RiderAssigned)] + [Look(0)] + [ForceCancel(2, true)]);
  }

  // --------------------------------------------------------------- stale captures

  function Refunded(order: Order): Order {
    Recorded(
      order.(payment := AddRefund(order.payment, order.total), redemption := None), OrderConfirmed, OrderCancelled,
      CustomerCancelled)
  }

  /** A paid order is cancelled by its customer on a current read. */
  lemma CancelledPaid(requests: seq<Request>, books: Books, order: Order, snapshots: seq<Snapshot>, k: nat)
    requires After(requests) == OneOrder(books, order, snapshots)
    requires k < |snapshots| && snapshots[k].id == 0 && snapshots[k].seen == order
    requires order.customer == 1 && order.status.OrderConfirmed? && order.redemption.None?
    requires order.payment == Paid().payment && 1 <= order.total <= 200
    ensures After(requests + [CancelMine(k, 1)]) ==
      OneOrder(RestoreAll(books, 0, order.store, order.items), Refunded(order), snapshots)
  {
    Changed(requests, CancelMine(k, 1), Refunded(order), RestoreAll(books, 0, order.store, order.items));
  }

  function PaidLate(order: Order): Order {
    Recorded(
      order.(payment := order.payment.(status := Captured), redemption := None), OrderPaymentPending, OrderConfirmed,
      PaymentCaptured)
  }

  /** A capture on the first snapshot, whatever became of the order since. */
  lemma CapturedLate(requests: seq<Request>, books: Books, order: Order, snapshots: seq<Snapshot>)
    requires After(requests) == OneOrder(books, order, snapshots) && order.redemption.None?
    requires snapshots != [] && snapshots[0].id == 0 && snapshots[0].seen == TwoPlaced(false)
    ensures After(requests + [Capture(0, 0, 1)]) == OneOrder(books, PaidLate(order), snapshots)
  {
    Changed(requests, Capture(0, 0, 1), PaidLate(order), books);
  }

  /** An order is paid, cancelled and refunded in full; a late capture confirms it and calls the refund captured. */
  lemma CaptureRevivesRefunded()
    ensures After(PAY + [CancelMine(1, 1)]).orders == [Refunded(Paid())]
    ensures After(PAY + [CancelMine(1, 1)] + [Capture(0, 0, 1)]).orders == [PaidLate(Refunded(Paid()))]
    ensures LiveRefunds(PaidLate(Refunded(Paid())).payment.refunds) == Paid().payment.amount
  {
    var snapshots := PaidSnapshots(Bought(false).stock);
    PaidNow();
    CancelledPaid(PAY, Bought(false), Paid(), snapshots, 1);
    AddRefundSum(Paid().payment, 200);
    CapturedLate(PAY + [CancelMine(1, 1)], RestoreAll(Bought(false), 0, 0, TWO_UNITS), Refunded(Paid()), snapshots);
  }

  // -------------------------------------------------------------- substituted orders

  /** The paid order with its product replaced by the second one at another price. */
  function Substituted(unitPaise: int): Order {
    Paid().(
      items := [CartItem(1, 2)], unitPaise := [unitPaise], subtotal := 2 * unitPaise, total := 2 * unitPaise,
      history := Paid().history + [HistoryRow(Some(OrderConfirmed), OrderConfirmed, ItemSubstituted)])
  }

  function SubstitutedSnapshots(stock: Stock, unitPaise: int): seq<Snapshot> {
    PaidSnapshots(stock) + [Snapshot(0, Substituted(unitPaise), stock)]
  }

  function SubstituteAt(unitPaise: int): seq<Request> {
    PAY + [Substitute(1, 0, 1, unitPaise)] + [Look(0)]
  }

  lemma SubstitutedNow(unitPaise: int)
    ensures After(PAY + [Substitute(1, 0, 1, unitPaise)]) ==
      OneOrder(Bought(false), Substituted(unitPaise), PaidSnapshots(Bought(false).stock))
  {
    PlacedTwo(false);
    PaidNow();
    assert Paid().items[0 := CartItem(1, 2)] == [CartItem(1, 2)];
    assert Paid().unitPaise[0 := unitPaise] == [unitPaise];
    Changed(PAY, Substitute(1, 0, 1, unitPaise), Substituted(unitPaise), Bought(false));
  }

  lemma SubstitutedThenRead(unitPaise: int)
    ensures After(SubstituteAt(unitPaise)) ==
      OneOrder(Bought(false), Substituted(unitPaise), SubstitutedSnapshots(Bought(false).stock, unitPaise))
  {
    SubstitutedNow(unitPaise);
    Looked(PAY + [Substitute(1, 0, 1, unitPaise)], Bought(false), Substituted(unitPaise),
           PaidSnapshots(Bought(false).stock));
  }

  /**
   * A calm run in which a substitution raises a paid order's total to 300: its customer, who just read it, can no
   * longer cancel it.
   */
  lemma RaisedTotalTraps()
    ensures CalmUntil(RunOf(SubstituteAt(150)), 6)
    ensures After(SubstituteAt(150)).orders == [Substituted(150)]
    ensures Handle(After(SubstituteAt(150)), CancelMine(2, 1)) == Err(BadRequest)
  {
    PaidNow();
    PaidCalmly();
    CalmOne(PAY, Substitute(1, 0, 1, 150));
    CalmOne(PAY + [Substitute(1, 0, 1, 150)], Look(0));
    SubstitutedThenRead(150);
    PaidOrderCancelsExactlyWhen(FIVE_OF_EACH, RunOf(SubstituteAt(150)), 6, 2, 1);
  }

  // ------------------------------------------------------------------ refunds on top

  /** A substituted order is refunded in part when cancelled, and a late capture opens it again. */
  function RefundInPart(): seq<Request> {
    SubstituteAt(50) + [CancelMine(2, 1)] + [Capture(0, 0, 1)]
  }

  lemma RefundedInPart()
    ensures After(RefundInPart()) ==
      OneOrder(RestoreAll(Bought(false), 0, 0, [CartItem(1, 2)]), PaidLate(Refunded(Substituted(50))),
               SubstitutedSnapshots(Bought(false).stock, 50))
  {
    var snapshots := SubstitutedSnapshots(Bought(false).stock, 50);
    SubstitutedThenRead(50);
    CancelledPaid(SubstituteAt(50), Bought(false), Substituted(50), snapshots, 2);
    CapturedLate(SubstituteAt(50) + [CancelMine(2, 1)], RestoreAll(Bought(false), 0, 0, [CartItem(1, 2)]),
                 Refunded(Substituted(50)), snapshots);
  }

  lemma DeliveryCancelled(requests: seq<Request>, books: Books, order: Order, snapshots: seq<Snapshot>)
    requires After(requests) == OneOrder(books, order, snapshots) && order.job == Some(DeliveryFailed)
    ensures After(requests + [CancelFailedDelivery(0)]) ==
      OneOrder(books, MovedTo(order, Cancelled).(payment := RefundFailedDelivery(order.payment)), snapshots)
  {
    Changed(requests, CancelFailedDelivery(0),
            MovedTo(order, Cancelled).(payment := RefundFailedDelivery(order.payment)), books);
  }

  lemma FailedOnRoute(path: seq<JobStatus>)
    requires path != [] && IsRoute(WaitingForDispatch, path) && path[|path| - 1].DeliveryFailed?
    ensures var order := PaidLate(Refunded(Substituted(50)));
      var shop := After(RefundInPart() + Dispatch(3) + Moves(path) + [CancelFailedDelivery(0)]);
      |shop.orders| == 1 && shop.orders[0].payment == RefundFailedDelivery(order.payment)
  {
    var order := PaidLate(Refunded(Substituted(50)));
    var books := RestoreAll(Bought(false), 0, 0, [CartItem(1, 2)]);
    var snapshots := SubstitutedSnapshots(Bought(false).stock, 50);
    RefundedInPart();
    Dispatched(RefundInPart(), books, order, snapshots);
    snapshots := snapshots + [Snapshot(0, order, books.stock)];
    Travelled(RefundInPart() + Dispatch(3), books, Packed(order), snapshots, path);
    TravelKeeps(Packed(order), path);
    DeliveryCancelled(RefundInPart() + Dispatch(3) + Moves(path), books, MovedAlong(Packed(order), path), snapshots);
  }

  /**
   * Of 200 paise paid, 100 are refunded when the order is cancelled and 200 more when its delivery is, however
   * far it came before it failed.
   */
  lemma RefundsPassCap(path: seq<JobStatus>)
    requires path != [] && IsRoute(WaitingForDispatch, path) && path[|path| - 1].DeliveryFailed?
    ensures var shop := After(RefundInPart() + Dispatch(3) + Moves(path) + [CancelFailedDelivery(0)]);
      |shop.orders| == 1 && LiveRefunds(shop.orders[0].payment.refunds) == 300 && shop.orders[0].payment.amount == 200
  {
    var payment := PaidLate(Refunded(Substituted(50))).payment;
    FailedOnRoute(path);
    AddRefundSum(Paid().payment, 100);
    AddRefundSum(payment, 200);
  }

  // -------------------------------------------------------- inspected, then cancelled

  const ALL_SELLABLE: seq<Inspection.InspectionLine> := [Inspection.InspectionLine(0, Inspection.Sellable, 2)]

  lemma InspectedSellable(requests: seq<Request>, books: Books, order: Order, snapshots: seq<Snapshot>)
    requires After(requests) == OneOrder(books, order, snapshots)
    requires order.items == TWO_UNITS && order.job == Some(ReturnedToStore) && !order.inspected
    ensures After(requests + [InspectReturn(0, ALL_SELLABLE)]) ==
      OneOrder(PutBackAll(books, 0, order.store, TWO_UNITS), order.(inspected := true), snapshots)
  {
    assert ALL_SELLABLE[..0] == [];
    assert ALL_SELLABLE[0].item == 0;
    assert Inspection.SellableUnits(TWO_UNITS, ALL_SELLABLE) == TWO_UNITS;
    Changed(requests, InspectReturn(0, ALL_SELLABLE), order.(inspected := true),
            PutBackAll(books, 0, order.store, TWO_UNITS));
  }

  /** A paid order goes out, is not delivered, and comes back to the store. */
  lemma Returned(path: seq<JobStatus>)
    requires IsRoute(WaitingForDispatch, path)
    ensures After(PAY + Dispatch(2) + Moves(path)) ==
      OneOrder(Bought(false), MovedAlong(Packed(Paid()), path),
               PaidSnapshots(Bought(false).stock) + [Snapshot(0, Paid(), Bought(false).stock)])
  {
    var snapshots := PaidSnapshots(Bought(false).stock);
    PaidNow();
    Dispatched(PAY, Bought(false), Paid(), snapshots);
    Travelled(PAY + Dispatch(2), Bought(false), Packed(Paid()), snapshots + [Snapshot(0, Paid(), Bought(false).stock)],
              path);
  }

  lemma PutBackTwice()
    ensures OnShelf(RestoreAll(PutBackAll(Bought(false), 0, 0, TWO_UNITS), 0, 0, TWO_UNITS).stock, Shelf(0, 0)) == 7
  {
    PlacedTwo(false);
    assert TWO_UNITS[..0] == [];
  }

  lemma InspectedNow(requests: seq<Request>, books: Books, order: Order, snapshots: seq<Snapshot>)
    requires After(requests) == OneOrder(books, order, snapshots)
    requires order.items == TWO_UNITS && order.store == 0 && order.job == Some(ReturnedToStore) && !order.inspected
    requires CanBeForced(order) && !order.status.OrderPaymentFailed?
    ensures After(requests + [InspectReturn(0, ALL_SELLABLE)] + [Look(0)] + [ForceCancel(|snapshots|, true)]).books ==
      RestoreAll(PutBackAll(books, 0, 0, TWO_UNITS), 0, 0, TWO_UNITS)
  {
    InspectedSellable(requests, books, order, snapshots);
    ForcedNow(requests + [InspectReturn(0, ALL_SELLABLE)], PutBackAll(books, 0, 0, TWO_UNITS),
              order.(inspected := true), snapshots);
  }

  lemma PaidCanBeForced(history: seq<HistoryRow>)
    ensures CanBeForced(
      Paid().(status := OrderOutForDelivery, job := Some(ReturnedToStore), history := history))
  {
  }

  lemma ReturnedOrder(path: seq<JobStatus>)
    requires path != [] && path[|path| - 1].ReturnedToStore?
    ensures var order := MovedAlong(Packed(Paid()), path);
      order == Paid().(status := OrderOutForDelivery, job := Some(ReturnedToStore), history := order.history)
  {
    TravelKeeps(Packed(Paid()), path);
  }

  /**
   * A paid order comes back on some route, both units are put back, and a forced cancellation puts them back
   * again: the shelf of five ends with seven.
   */
  lemma CountedTwice(path: seq<JobStatus>)
    requires path != [] && IsRoute(WaitingForDispatch, path) && path[|path| - 1].ReturnedToStore?
    ensures var shop := After(PAY + Dispatch(2) + Moves(path)
        + [InspectReturn(0, ALL_SELLABLE)] + [Look(0)] + [ForceCancel(3, true)]);
      OnShelf(shop.books.stock, Shelf(0, 0)) == 7
  {
    var snapshots := PaidSnapshots(Bought(false).stock) + [Snapshot(0, Paid(), Bought(false).stock)];
    var order := MovedAlong(Packed(Paid()), path);
    var requests := PAY + Dispatch(2) + Moves(path);
    assert After(requests) == OneOrder(Bought(false), order, snapshots) by {
      Returned(path);
    }
    assert |snapshots| == 3;
    ReturnedOrder(path);
    PaidCanBeForced(order.history);
    InspectedNow(requests, Bought(false), order, snapshots);
    PutBackTwice();
  }

  /** There are such routes. */
  lemma RoutesExist()
    ensures IsRoute(WaitingForDispatch, [RiderAssigned, EnRouteToStore, DeliveryFailed])
    ensures IsRoute(WaitingForDispatch,
                    [RiderAssigned, EnRouteToStore, DeliveryFailed, ReturningToStore, ReturnedToStore])
  {
  }
}
