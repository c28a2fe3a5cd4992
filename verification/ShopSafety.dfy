/** What every run of the shop keeps, whatever the requests and however old their snapshots are. */
module ShopSafety {
  import opened Common
  import opened DeliveryStatus
  import opened Payments
  import opened Cart
  import opened Pricing
  import opened Inventory
  import opened Shop
  import Inspection

  // ------------------------------------------------------------------ histories

  /** Cancellations that put the items back: every one except a forced one seen after a failed payment. */
  predicate IsRestock(row: HistoryRow) {
    row.kind.CustomerCancelled? || (row.kind.ForceCancelled? && row.from != Some(OrderPaymentFailed))
  }

  function Restocks(history: seq<HistoryRow>): nat {
    if history == [] then 0
    else Restocks(history[..|history| - 1]) + if IsRestock(history[|history| - 1]) then 1 else 0
  }

  predicate WasSubstituted(order: Order) {
    exists i :: 0 <= i < |order.history| && order.history[i].kind.ItemSubstituted?
  }

  /** Its items are the ones that were ordered, and none came back by inspection. */
  predicate IsPlain(order: Order) {
    !order.inspected && !WasSubstituted(order)
  }

  lemma RestocksAppend(history: seq<HistoryRow>, row: HistoryRow)
    ensures Restocks(history + [row]) == Restocks(history) + if IsRestock(row) then 1 else 0
  {
    assert (history + [row])[..|history|] == history;
  }

  lemma SubstitutionStays(before: Order, after: Order)
    requires before.history <= after.history && WasSubstituted(before)
    ensures WasSubstituted(after)
  {
    var i :| 0 <= i < |before.history| && before.history[i].kind.ItemSubstituted?;
    assert after.history[i].kind.ItemSubstituted?;
  }

  // ------------------------------------------------------------- steps of an order

  /** A redemption keeps its coupon and amount, and once released stays released. */
  predicate RedemptionStep(before: Option<Redemption>, after: Option<Redemption>) {
    && (before.None? <==> after.None?)
    && (before.Some? ==>
          && after.value.coupon == before.value.coupon
          && after.value.discount == before.value.discount
          && (before.value.status.Released? ==> after.value.status.Released?)
          && (after.value.status.Reserved? ==> before.value.status.Reserved?))
  }

  /** What never changes about an order, and what changes only by substitution. */
  ghost predicate OrderStep(before: Order, after: Order) {
    && after.customer == before.customer && after.store == before.store && after.key == before.key
    && after.fee == before.fee && after.discount == before.discount
    && after.payment.kind == before.payment.kind && after.payment.amount == before.payment.amount
    && RedemptionStep(before.redemption, after.redemption)
    && before.history <= after.history
    && (before.inspected ==> after.inspected)
    && |after.items| == |before.items| && |after.unitPaise| == |before.unitPaise|
    && (forall i :: 0 <= i < |after.items| ==> after.items[i].quantity == before.items[i].quantity)
    && (WasSubstituted(after) || (
          after.items == before.items && after.unitPaise == before.unitPaise
          && after.subtotal == before.subtotal && after.total == before.total))
  }

  // ------------------------------------------------------------------- invariants

  ghost predicate AmountsAgree(order: Order) {
    && 0 <= order.discount
    && (order.redemption.Some? <==> order.discount > 0)
    && (order.redemption.Some? ==> order.redemption.value.discount == order.discount)
    && (!WasSubstituted(order) ==> order.total == order.subtotal + order.fee - order.discount == order.payment.amount)
    && 0 <= order.payment.amount
  }

  ghost predicate OrderInv(order: Order, stock: Stock) {
    && AllPositive(order.items)
    && |order.unitPaise| == |order.items|
    && Stocked(stock, order.store, order.items)
    && AmountsAgree(order)
  }

  /** An older version of an order: what it says still fits the order, and its shelves still exist. */
  ghost predicate SnapshotInv(snapshot: Snapshot, shop: Shop) {
    && snapshot.id < |shop.orders|
    && OrderStep(snapshot.seen, shop.orders[snapshot.id])
    && OrderInv(snapshot.seen, shop.books.stock)
    && snapshot.stock.Keys <= shop.books.stock.Keys
  }

  /** The ledger replays to the stock, and reservations name existing orders. */
  ghost predicate BooksInv(start: Stock, books: Books, orders: nat) {
    && Replays(start, books)
    && (forall i :: 0 <= i < |books.rows| ==> !IsUnlinked(books.rows[i]))
    && (forall i :: 0 <= i < |books.rows| ==> books.rows[i].order.Some? ==> books.rows[i].order.value < orders)
  }

  /** The rows of an untouched order add up to minus what was ordered, plus once that for each restock. */
  ghost predicate TagsAgree(rows: seq<Movement>, id: OrderId, order: Order) {
    IsPlain(order) ==>
      forall product :: Tagged(rows, id, product) == TotalFor(order.items, product) * (Restocks(order.history) - 1)
  }

  ghost predicate ShopInv(start: Stock, shop: Shop) {
    && BooksInv(start, shop.books, |shop.orders|)
    && (forall i :: 0 <= i < |shop.orders| ==> OrderInv(shop.orders[i], shop.books.stock))
    && (forall i :: 0 <= i < |shop.orders| ==> TagsAgree(shop.books.rows, i, shop.orders[i]))
    && (forall i :: 0 <= i < |shop.snapshots| ==> SnapshotInv(shop.snapshots[i], shop))
  }

  // ------------------------------------------------------- what one change amounts to

  /** Rows added for one order, none of them a reservation. */
  ghost predicate AddedFor(added: seq<Movement>, id: OrderId) {
    forall i :: 0 <= i < |added| ==> added[i].order == Some(id) && !added[i].reason.CheckoutReservation?
  }

  /** The order takes a step, and the ledger gains these rows of that order, which match its restocks. */
  ghost predicate FollowsBy(start: Stock, shop: Shop, id: OrderId, change: Change, added: seq<Movement>)
    requires id < |shop.orders|
  {
    && change.id == id
    && OrderStep(shop.orders[id], change.order)
    && OrderInv(change.order, change.books.stock)
    && Replays(start, change.books)
    && shop.books.stock.Keys <= change.books.stock.Keys
    && change.books.rows == shop.books.rows + added
    && AddedFor(added, id)
    && (IsPlain(change.order) ==>
          forall product :: Tagged(added, id, product) ==
            TotalFor(change.order.items, product)
              * (Restocks(change.order.history) - Restocks(shop.orders[id].history)))
  }

  /** The summary of a change: its order takes a step, and some rows account for it. */
  ghost predicate Follows(start: Stock, shop: Shop, id: OrderId, change: Change)
    requires id < |shop.orders|
  {
    exists added :: FollowsBy(start, shop, id, change, added)
  }

  lemma StepRefl(order: Order)
    ensures OrderStep(order, order)
  {
  }

  /** Recording a status and touching the payment's status and refunds or the redemption is a step. */
  lemma RecordedStep(order: Order, after: Order, from: OrderStatus, to: OrderStatus, kind: EventKind, stock: Stock)
    requires OrderInv(order, stock) && !kind.ItemSubstituted?
    requires after == Recorded(
      order.(payment := after.payment, redemption := after.redemption, job := after.job), from, to, kind)
    requires after.payment.kind == order.payment.kind && after.payment.amount == order.payment.amount
    requires RedemptionStep(order.redemption, after.redemption)
    ensures OrderStep(order, after) && OrderInv(after, stock)
    ensures WasSubstituted(after) <==> WasSubstituted(order)
    ensures Restocks(after.history) ==
      Restocks(order.history) + if IsRestock(HistoryRow(Some(from), to, kind)) then 1 else 0
  {
    RestocksAppend(order.history, HistoryRow(Some(from), to, kind));
    if WasSubstituted(order) {
      SubstitutionStays(order, after);
    }
  }

  /** A change that leaves the books alone. */
  lemma QuietFollows(start: Stock, shop: Shop, id: OrderId, change: Change)
    requires id < |shop.orders| && Replays(start, shop.books)
    requires change.id == id && change.books == shop.books
    requires OrderStep(shop.orders[id], change.order) && OrderInv(change.order, shop.books.stock)
    requires IsPlain(change.order) ==> Restocks(change.order.history) == Restocks(shop.orders[id].history)
    ensures Follows(start, shop, id, change)
  {
    assert shop.books.rows + [] == shop.books.rows;
    assert FollowsBy(start, shop, id, change, []);
  }

  /** A change that puts back the items it saw, with the history row that says so. */
  lemma RestockFollows(start: Stock, shop: Shop, id: OrderId, seen: Order, change: Change)
    requires id < |shop.orders| && Replays(start, shop.books)
    requires OrderStep(seen, shop.orders[id]) && OrderInv(seen, shop.books.stock)
    requires change.id == id && change.books == RestoreAll(shop.books, id, seen.store, seen.items)
    requires OrderStep(shop.orders[id], change.order) && OrderInv(change.order, shop.books.stock)
    requires IsPlain(change.order) ==>
      Restocks(change.order.history) == Restocks(shop.orders[id].history) + 1 && change.order.items == seen.items
    ensures Follows(start, shop, id, change)
  {
    RestoreReplays(start, shop.books, id, seen.store, seen.items);
    RestoreRows(shop.books, id, seen.store, seen.items);
    var added :| change.books.rows == shop.books.rows + added
      && MovesOnce(added, seen.store, seen.items, Some(id), OrderCancelRestore, 1);
    forall product | IsPlain(change.order)
      ensures Tagged(added, id, product) ==
        TotalFor(change.order.items, product) * (Restocks(change.order.history) - Restocks(shop.orders[id].history))
    {
      MovesOnceSum(added, seen.store, seen.items, id, OrderCancelRestore, 1, product);
    }
    assert FollowsBy(start, shop, id, change, added);
  }

  /** A change that writes the zero rows of a delivery. */
  lemma FinalFollows(start: Stock, shop: Shop, id: OrderId, store: StoreId, change: Change)
    requires id < |shop.orders| && Replays(start, shop.books)
    requires change.id == id && change.books == FinalizeAll(shop.books, id, store, shop.orders[id].items)
    requires OrderStep(shop.orders[id], change.order) && OrderInv(change.order, shop.books.stock)
    requires IsPlain(change.order) ==> Restocks(change.order.history) == Restocks(shop.orders[id].history)
    ensures Follows(start, shop, id, change)
  {
    var items := shop.orders[id].items;
    FinalizeReplays(start, shop.books, id, store, items);
    FinalizeRows(shop.books, id, store, items);
    var added :| change.books.rows == shop.books.rows + added
      && MovesOnce(added, store, items, Some(id), DeliveredFinalize, 0);
    forall product ensures Tagged(added, id, product) == 0 {
      MovesOnceSum(added, store, items, id, DeliveredFinalize, 0, product);
    }
    assert FollowsBy(start, shop, id, change, added);
  }

  lemma {:induction false} PutBackRows(books: Books, id: OrderId, store: StoreId, items: seq<CartItem>)
    returns (added: seq<Movement>)
    ensures PutBackAll(books, id, store, items).rows == books.rows + added
    ensures AddedFor(added, id)
    ensures forall product :: Tagged(added, id, product) == PositiveTotal(items, product)
  {
    if items == [] {
      added := [];
    } else {
      var front, last := items[..|items| - 1], items[|items| - 1];
      var earlier := PutBackRows(books, id, store, front);
      var before, after := PutBackAll(books, id, store, front), PutBackAll(books, id, store, items);
      if last.quantity <= 0 {
        added := earlier;
      } else {
        var row := after.rows[|before.rows|];
        added := earlier + [row];
        assert added[..|earlier|] == earlier;
      }
    }
  }

  /** What the lines of a product add up to when lines without units are skipped. */
  function PositiveTotal(items: seq<CartItem>, product: ProductId): int {
    if items == [] then 0
    else
      var last := items[|items| - 1];
      PositiveTotal(items[..|items| - 1],
                    product) + if last.product == product && last.quantity > 0 then last.quantity else 0
  }

  // -------------------------------------------------------------- each kind of change

  lemma CaptureFollows(start: Stock, shop: Shop, id: OrderId, seen: Order, paid: Payment, customer: CustomerId)
    requires id < |shop.orders| && Replays(start, shop.books) && OrderInv(shop.orders[id], shop.books.stock)
    requires CapturePayment(shop, id, seen, paid, customer).Ok?
    ensures Follows(start, shop, id, CapturePayment(shop, id, seen, paid, customer).value)
  {
    var change := CapturePayment(shop, id, seen, paid, customer).value;
    StepRefl(shop.orders[id]);
    if change.order != shop.orders[id] {
      RecordedStep(shop.orders[id], change.order, seen.status, OrderConfirmed, PaymentCaptured, shop.books.stock);
    }
    QuietFollows(start, shop, id, change);
  }

  lemma DeclineFollows(start: Stock, shop: Shop, id: OrderId, seen: Order, paid: Payment, customer: CustomerId)
    requires id < |shop.orders| && Replays(start, shop.books) && OrderInv(shop.orders[id], shop.books.stock)
    requires DeclinePayment(shop, id, seen, paid, customer).Ok?
    ensures Follows(start, shop, id, DeclinePayment(shop, id, seen, paid, customer).value)
  {
    var change := DeclinePayment(shop, id, seen, paid, customer).value;
    StepRefl(shop.orders[id]);
    if change.order != shop.orders[id] {
      RecordedStep(shop.orders[id], change.order, seen.status, OrderPaymentFailed, PaymentDeclined, shop.books.stock);
    }
    QuietFollows(start, shop, id, change);
  }

  lemma CancelledStep(order: Order, seen: Order, kind: EventKind, stock: Stock)
    requires OrderInv(order, stock) && CancelledOrder(order, seen, kind).Ok? && !kind.ItemSubstituted?
    ensures var after := CancelledOrder(order, seen, kind).value;
      && OrderStep(order, after) && OrderInv(after, stock)
      && (WasSubstituted(after) <==> WasSubstituted(order))
      && Restocks(after.history) ==
         Restocks(order.history) + if IsRestock(HistoryRow(Some(seen.status), OrderCancelled, kind)) then 1 else 0
  {
    RecordedStep(order, CancelledOrder(order, seen, kind).value, seen.status, OrderCancelled, kind, stock);
  }

  lemma CustomerCancelFollows(start: Stock, shop: Shop, id: OrderId, seen: Order, customer: CustomerId)
    requires id < |shop.orders| && Replays(start, shop.books) && OrderInv(shop.orders[id], shop.books.stock)
    requires OrderStep(seen, shop.orders[id]) && OrderInv(seen, shop.books.stock)
    requires CancelByCustomer(shop, id, seen, customer).Ok?
    ensures Follows(start, shop, id, CancelByCustomer(shop, id, seen, customer).value)
  {
    CancelledStep(shop.orders[id], seen, CustomerCancelled, shop.books.stock);
    RestockFollows(start, shop, id, seen, CancelByCustomer(shop, id, seen, customer).value);
  }

  lemma ForceCancelFollows(start: Stock, shop: Shop, id: OrderId, seen: Order)
    requires id < |shop.orders| && Replays(start, shop.books) && OrderInv(shop.orders[id], shop.books.stock)
    requires OrderStep(seen, shop.orders[id]) && OrderInv(seen, shop.books.stock)
    requires CancelByAdmin(shop, id, seen).Ok?
    ensures Follows(start, shop, id, CancelByAdmin(shop, id, seen).value)
  {
    var change := CancelByAdmin(shop, id, seen).value;
    CancelledStep(shop.orders[id], seen, EventKind.ForceCancelled, shop.books.stock);
    if seen.status.OrderPaymentFailed? {
      QuietFollows(start, shop, id, change);
    } else {
      RestockFollows(start, shop, id, seen, change);
    }
  }

  lemma StatusFollows(start: Stock, shop: Shop, id: OrderId, seen: Order, next: OrderStatus)
    requires id < |shop.orders| && Replays(start, shop.books) && OrderInv(shop.orders[id], shop.books.stock)
    requires UpdateStatus(shop, id, seen, next).Ok?
    ensures Follows(start, shop, id, UpdateStatus(shop, id, seen, next).value)
  {
    var change := UpdateStatus(shop, id, seen, next).value;
    if seen.status == next {
      StepRefl(shop.orders[id]);
      QuietFollows(start, shop, id, change);
    } else {
      RecordedStep(shop.orders[id], change.order, seen.status, next, StatusSet, shop.books.stock);
      if next.OrderDelivered? {
        FinalFollows(start, shop, id, seen.store, change);
      } else {
        QuietFollows(start, shop, id, change);
      }
    }
  }

  lemma SubstitutedStep(shop: Shop, id: OrderId, read: Snapshot, item: nat, product: ProductId, unitPaise: int)
    requires id < |shop.orders| && OrderInv(shop.orders[id], shop.books.stock)
    requires OrderStep(read.seen, shop.orders[id]) && OrderInv(read.seen, shop.books.stock)
    requires read.stock.Keys <= shop.books.stock.Keys
    requires SubstituteItem(shop, id, read, item, product, unitPaise).Ok?
    ensures var after := SubstituteItem(shop, id, read, item, product, unitPaise).value.order;
      OrderStep(shop.orders[id], after) && OrderInv(after, shop.books.stock) && WasSubstituted(after)
  {
    var order := shop.orders[id];
    var after := SubstituteItem(shop, id, read, item, product, unitPaise).value.order;
    assert after.history[|order.history|].kind.ItemSubstituted?;
    assert read.seen.items[item].quantity >= 1;
    assert Shelf(order.store, product) in read.stock;
    forall i | 0 <= i < |after.items| ensures Shelf(order.store, after.items[i].product) in shop.books.stock {
      if i != item {
        assert after.items[i] == order.items[i];
      }
    }
  }

  lemma SubstituteFollows(start: Stock, shop: Shop, id: OrderId, read: Snapshot, item: nat, product: ProductId,
                          unitPaise: int)
    requires id < |shop.orders| && Replays(start, shop.books) && OrderInv(shop.orders[id], shop.books.stock)
    requires OrderStep(read.seen, shop.orders[id]) && OrderInv(read.seen, shop.books.stock)
    requires read.stock.Keys <= shop.books.stock.Keys
    requires SubstituteItem(shop, id, read, item, product, unitPaise).Ok?
    ensures Follows(start, shop, id, SubstituteItem(shop, id, read, item, product, unitPaise).value)
  {
    SubstitutedStep(shop, id, read, item, product, unitPaise);
    QuietFollows(start, shop, id, SubstituteItem(shop, id, read, item, product, unitPaise).value);
  }

  lemma StartFollows(start: Stock, shop: Shop, id: OrderId)
    requires id < |shop.orders| && Replays(start, shop.books) && OrderInv(shop.orders[id], shop.books.stock)
    requires StartDelivery(shop, id).Ok?
    ensures Follows(start, shop, id, StartDelivery(shop, id).value)
  {
    QuietFollows(start, shop, id, StartDelivery(shop, id).value);
  }

  lemma MoveFollows(start: Stock, shop: Shop, id: OrderId, next: JobStatus)
    requires id < |shop.orders| && Replays(start, shop.books) && OrderInv(shop.orders[id], shop.books.stock)
    requires MoveDelivery(shop, id, next).Ok?
    ensures Follows(start, shop, id, MoveDelivery(shop, id, next).value)
  {
    var order := shop.orders[id];
    var change := MoveDelivery(shop, id, next).value;
    RecordedStep(order, change.order, order.status, LegacyOrderStatus(next), JobMoved, shop.books.stock);
    if next.Delivered? {
      FinalFollows(start, shop, id, order.store, change);
    } else {
      QuietFollows(start, shop, id, change);
    }
  }

  lemma CancelDeliveryFollows(start: Stock, shop: Shop, id: OrderId)
    requires id < |shop.orders| && Replays(start, shop.books) && OrderInv(shop.orders[id], shop.books.stock)
    requires CancelDelivery(shop, id).Ok?
    ensures Follows(start, shop, id, CancelDelivery(shop, id).value)
  {
    var order := shop.orders[id];
    var change := CancelDelivery(shop, id).value;
    RecordedStep(order, change.order, order.status, OrderCancelled, JobMoved, shop.books.stock);
    QuietFollows(start, shop, id, change);
  }

  lemma CollectFollows(start: Stock, shop: Shop, id: OrderId)
    requires id < |shop.orders| && Replays(start, shop.books) && OrderInv(shop.orders[id], shop.books.stock)
    requires CollectFromCustomer(shop, id).Ok?
    ensures Follows(start, shop, id, CollectFromCustomer(shop, id).value)
  {
    QuietFollows(start, shop, id, CollectFromCustomer(shop, id).value);
  }

  lemma InspectFollows(start: Stock, shop: Shop, id: OrderId, lines: seq<Inspection.InspectionLine>)
    requires id < |shop.orders| && Replays(start, shop.books) && OrderInv(shop.orders[id], shop.books.stock)
    requires InspectOrder(shop, id, lines).Ok?
    ensures Follows(start, shop, id, InspectOrder(shop, id, lines).value)
  {
    var order := shop.orders[id];
    var units := Inspection.Inspect(order.items, lines).value;
    PutBackReplays(start, shop.books, id, order.store, units);
    var added := PutBackRows(shop.books, id, order.store, units);
    assert FollowsBy(start, shop, id, InspectOrder(shop, id, lines).value, added);
  }

  ghost predicate UsesSnapshots(shop: Shop, request: Request) {
    match request
    case CancelMine(order, _) => order < |shop.snapshots| ==> SnapshotInv(shop.snapshots[order], shop)
    case ForceCancel(order, _) => order < |shop.snapshots| ==> SnapshotInv(shop.snapshots[order], shop)
    case Substitute(order, _, _, _) => order < |shop.snapshots| ==> SnapshotInv(shop.snapshots[order], shop)
    case _ => true
  }

  lemma AlterFollows(start: Stock, shop: Shop, request: Request, id: OrderId)
    requires Target(shop, request) == Some(id) && id < |shop.orders| && Alter(shop, request, id).Ok?
    requires Replays(start, shop.books) && OrderInv(shop.orders[id], shop.books.stock) && UsesSnapshots(shop, request)
    ensures Follows(start, shop, id, Alter(shop, request, id).value)
  {
    match request
    case Capture(order, payment, customer) =>
      CaptureFollows(start, shop, id, shop.snapshots[order].seen, shop.snapshots[payment].seen.payment, customer);
    case Decline(order, payment, customer) =>
      DeclineFollows(start, shop, id, shop.snapshots[order].seen, shop.snapshots[payment].seen.payment, customer);
    case CancelMine(order, customer) =>
      CustomerCancelFollows(start, shop, id, shop.snapshots[order].seen, customer);
    case ForceCancel(order, _) =>
      ForceCancelFollows(start, shop, id, shop.snapshots[order].seen);
    case SetStatus(order, next) =>
      StatusFollows(start, shop, id, shop.snapshots[order].seen, next);
    case Substitute(order, item, product, unitPaise) =>
      SubstituteFollows(start, shop, id, shop.snapshots[order], item, product, unitPaise);
    case StartJob(_) => StartFollows(start, shop, id);
    case MoveJob(_, next) => MoveFollows(start, shop, id, next);
    case CancelFailedDelivery(_) => CancelDeliveryFollows(start, shop, id);
    case CollectCash(_) => CollectFollows(start, shop, id);
    case InspectReturn(_, lines) => InspectFollows(start, shop, id, lines);
  }

  /** Every change is a step of its order. */
  lemma AlterSteps(start: Stock, shop: Shop, request: Request, id: OrderId)
    requires Target(shop, request) == Some(id) && id < |shop.orders| && Alter(shop, request, id).Ok?
    requires Replays(start, shop.books) && OrderInv(shop.orders[id], shop.books.stock) && UsesSnapshots(shop, request)
    ensures Alter(shop, request, id).value.id == id
    ensures OrderStep(shop.orders[id], Alter(shop, request, id).value.order)
  {
    AlterFollows(start, shop, request, id);
  }

  /** A request that commits replaces its target order, or adds an order, or leaves the orders alone. */
  lemma OrdersAfter(shop: Shop, request: Request)
    requires Handle(shop, request).Ok?
    ensures var after := Handle(shop, request).value.orders;
      var target := Target(shop, request);
      if target.Some? then
        && target.value < |shop.orders|
        && Alter(shop, request, target.value).Ok?
        && Alter(shop, request, target.value).value.id == target.value
        && after == shop.orders[target.value := Alter(shop, request, target.value).value.order]
      else
        || after == shop.orders
        || (&& request.Place?
            && |after| == |shop.orders| + 1
            && after == shop.orders + [after[|shop.orders|]]
            && after[|shop.orders|].key == request.key
            && (request.key.Some? ==> FindKey(shop.orders, request.key.value).None?))
  {
  }

  // --------------------------------------------------------------- the whole shop

  lemma StepTransitive(a: Order, b: Order, c: Order)
    requires OrderStep(a, b) && OrderStep(b, c)
    ensures OrderStep(a, c)
  {
    if WasSubstituted(b) {
      SubstitutionStays(b, c);
    }
  }

  lemma MoreStock(order: Order, before: Stock, after: Stock)
    requires OrderInv(order, before) && before.Keys <= after.Keys
    ensures OrderInv(order, after)
  {
  }

  lemma AddedElsewhere(rows: seq<Movement>, added: seq<Movement>, other: OrderId, order: Order)
    requires TagsAgree(rows, other, order)
    requires forall i :: 0 <= i < |added| ==> added[i].order != Some(other)
    ensures TagsAgree(rows + added, other, order)
  {
    forall product ensures Tagged(rows + added, other, product) == Tagged(rows, other, product) {
      TaggedSplit(rows, added, other, product);
      UntaggedSum(added, other, product);
    }
  }

  lemma AddedHere(rows: seq<Movement>, added: seq<Movement>, id: OrderId, before: Order, after: Order)
    requires TagsAgree(rows, id, before) && OrderStep(before, after)
    requires IsPlain(after) ==>
      forall product :: Tagged(added, id, product) ==
        TotalFor(after.items, product) * (Restocks(after.history) - Restocks(before.history))
    ensures TagsAgree(rows + added, id, after)
  {
    if IsPlain(after) {
      if WasSubstituted(before) {
        SubstitutionStays(before, after);
      }
      forall product
        ensures Tagged(rows + added, id, product) == TotalFor(after.items, product) * (Restocks(after.history) - 1)
      {
        TaggedSplit(rows, added, id, product);
        var total, r, s := TotalFor(after.items, product), Restocks(before.history), Restocks(after.history);
        assert Tagged(rows, id, product) == total * (r - 1);
        assert total * (r - 1) + total * (s - r) == total * (s - 1);
      }
    }
  }

  lemma ChangedBooks(start: Stock, shop: Shop, id: OrderId, change: Change, added: seq<Movement>)
    requires BooksInv(start, shop.books, |shop.orders|) && id < |shop.orders|
    requires FollowsBy(start, shop, id, change, added)
    ensures BooksInv(start, change.books, |shop.orders|)
  {
    var rows := change.books.rows;
    forall i | 0 <= i < |rows|
      ensures !IsUnlinked(rows[i]) && (rows[i].order.Some? ==> rows[i].order.value < |shop.orders|)
    {
      assert rows[i] == if i < |shop.books.rows| then shop.books.rows[i] else added[i - |shop.books.rows|];
    }
  }

  lemma ChangedSnapshot(shop: Shop, snapshot: Snapshot, id: OrderId, order: Order, books: Books)
    requires SnapshotInv(snapshot, shop) && id < |shop.orders|
    requires OrderStep(shop.orders[id], order) && shop.books.stock.Keys <= books.stock.Keys
    ensures SnapshotInv(snapshot, shop.(orders := shop.orders[id := order], books := books))
  {
    MoreStock(snapshot.seen, shop.books.stock, books.stock);
    if snapshot.id == id {
      StepTransitive(snapshot.seen, shop.orders[id], order);
    }
  }

  lemma ChangedOrders(start: Stock, shop: Shop, id: OrderId, change: Change, added: seq<Movement>, i: nat)
    requires ShopInv(start, shop) && id < |shop.orders| && i < |shop.orders|
    requires FollowsBy(start, shop, id, change, added)
    ensures var orders := shop.orders[id := change.order];
      OrderInv(orders[i], change.books.stock) && TagsAgree(change.books.rows, i, orders[i])
  {
    if i == id {
      AddedHere(shop.books.rows, added, id, shop.orders[id], change.order);
    } else {
      MoreStock(shop.orders[i], shop.books.stock, change.books.stock);
      AddedElsewhere(shop.books.rows, added, i, shop.orders[i]);
    }
  }

  lemma ChangeKeeps(start: Stock, shop: Shop, id: OrderId, change: Change, added: seq<Movement>)
    requires ShopInv(start, shop) && id < |shop.orders|
    requires FollowsBy(start, shop, id, change, added)
    ensures ShopInv(start, shop.(orders := shop.orders[id := change.order], books := change.books))
  {
    var after := shop.(orders := shop.orders[id := change.order], books := change.books);
    ChangedBooks(start, shop, id, change, added);
    forall i | 0 <= i < |after.orders|
      ensures OrderInv(after.orders[i], after.books.stock) && TagsAgree(after.books.rows, i, after.orders[i])
    {
      ChangedOrders(start, shop, id, change, added, i);
    }
    forall i | 0 <= i < |after.snapshots| ensures SnapshotInv(after.snapshots[i], after) {
      ChangedSnapshot(shop, shop.snapshots[i], id, change.order, change.books);
    }
  }

  // ------------------------------------------------------------------------ placing

  lemma {:induction false} MergePositive(items: seq<CartItem>, item: CartItem)
    requires AllPositive(items) && item.quantity >= 1
    ensures AllPositive(Merge(items, item))
  {
    if items != [] && items[0].product != item.product {
      MergePositive(items[1..], item);
    }
  }

  lemma {:induction false} NormalizePositive(items: seq<CartItem>)
    requires AllPositive(items)
    ensures AllPositive(Normalize(items))
  {
    if items != [] {
      NormalizePositive(items[..|items| - 1]);
      MergePositive(Normalize(items[..|items| - 1]), items[|items| - 1]);
    }
  }

  lemma {:induction false} ReserveStocked(books: Books, store: StoreId, items: seq<CartItem>)
    requires ReserveAll(books, store, items).Ok?
    ensures Stocked(books.stock, store, items)
    ensures ReserveAll(books, store, items).value.stock.Keys == books.stock.Keys
  {
    if items != [] {
      ReserveStocked(books, store, items[..|items| - 1]);
    }
  }

  lemma FirstRow(history: seq<HistoryRow>)
    requires |history| == 1 && history[0].kind.Placed?
    ensures Restocks(history) == 0
  {
    assert history == [] + [history[0]];
    RestocksAppend([], history[0]);
  }

  lemma NewOrderPlain(request: Request, basket: Basket, applied: Applied)
    requires request.Place?
    ensures IsPlain(NewOrder(request, basket, applied))
    ensures Restocks(NewOrder(request, basket, applied).history) == 0
  {
    FirstRow(NewOrder(request, basket, applied).history);
  }

  /** A new order's amounts agree, and its discount is its redemption's. */
  lemma NewOrderAgrees(request: Request, basket: Basket, applied: Applied)
    requires request.Place? && 0 <= DiscountOf(applied) && (applied.Applied? <==> DiscountOf(applied) > 0)
    requires Subtotal(basket) + basket.fee - DiscountOf(applied) >= 0
    ensures AmountsAgree(NewOrder(request, basket, applied))
  {
  }

  lemma NewOrderFits(shop: Shop, request: Request, applied: Applied)
    requires request.Place? && AllPositive(request.cart)
    requires CalculateDiscount(shop.coupons, UsageFor(shop.orders, request.customer), request.code,
                               BasketOf(request), request.now) == Ok(applied)
    requires Subtotal(BasketOf(request)) + request.quote.fee - DiscountOf(applied) >= 0
    requires Stocked(shop.books.stock, request.quote.store, BasketOf(request).items)
    ensures OrderInv(NewOrder(request, BasketOf(request), applied), shop.books.stock)
    ensures IsPlain(NewOrder(request, BasketOf(request), applied))
    ensures Restocks(NewOrder(request, BasketOf(request), applied).history) == 0
  {
    var basket := BasketOf(request);
    NormalizePositive(request.cart);
    AppliedExactlyWhenDiscounted(shop.coupons, UsageFor(shop.orders, request.customer), request.code, basket,
                                 request.now);
    NewOrderAgrees(request, basket, applied);
    NewOrderPlain(request, basket, applied);
  }

  /** The books after a checkout: the old rows, and one linked reservation for each line. */
  lemma PlacedBooks(start: Stock, shop: Shop, store: StoreId, items: seq<CartItem>) returns (tagged: seq<Movement>)
    requires BooksInv(start, shop.books, |shop.orders|) && ReserveAll(shop.books, store, items).Ok?
    ensures var reserved := ReserveAll(shop.books, store, items).value;
      var after := reserved.(rows := LinkAll(reserved.rows, |shop.orders|, store, items));
      && after.rows == shop.books.rows + tagged
      && MovesOnce(tagged, store, items, Some(|shop.orders|), CheckoutReservation, -1)
      && BooksInv(start, after, |shop.orders| + 1)
      && after.stock.Keys == shop.books.stock.Keys
  {
    var reserved := ReserveAll(shop.books, store, items).value;
    ReserveReplays(start, shop.books, store, items);
    ReserveRows(shop.books, store, items);
    var added :| reserved.rows == shop.books.rows + added
      && MovesOnce(added, store, items, None, CheckoutReservation, -1);
    tagged := LinkTagsNewRows(shop.books.rows, added, |shop.orders|, store, items);
    LinkReplays(start, reserved, shop.books.rows + tagged);
    var rows := shop.books.rows + tagged;
    forall i | 0 <= i < |rows|
      ensures !IsUnlinked(rows[i]) && (rows[i].order.Some? ==> rows[i].order.value < |shop.orders| + 1)
    {
      assert rows[i] == if i < |shop.books.rows| then shop.books.rows[i] else tagged[i - |shop.books.rows|];
    }
  }

  lemma PlacedTags(shop: Shop, order: Order, tagged: seq<Movement>)
    requires forall i :: 0 <= i < |shop.books.rows| ==>
      shop.books.rows[i].order.Some? ==> shop.books.rows[i].order.value < |shop.orders|
    requires MovesOnce(tagged, order.store, order.items, Some(|shop.orders|), CheckoutReservation, -1)
    requires Restocks(order.history) == 0
    ensures TagsAgree(shop.books.rows + tagged, |shop.orders|, order)
  {
    var id := |shop.orders|;
    forall product ensures Tagged(shop.books.rows + tagged, id, product) == TotalFor(order.items, product) * (0 - 1) {
      TaggedSplit(shop.books.rows, tagged, id, product);
      UntaggedSum(shop.books.rows, id, product);
      MovesOnceSum(tagged, order.store, order.items, id, CheckoutReservation, -1, product);
    }
  }

  lemma GrownSnapshot(shop: Shop, snapshot: Snapshot, order: Order, books: Books)
    requires SnapshotInv(snapshot, shop) && books.stock.Keys == shop.books.stock.Keys
    ensures SnapshotInv(snapshot, shop.(orders := shop.orders + [order], books := books))
  {
    MoreStock(snapshot.seen, shop.books.stock, books.stock);
  }

  lemma PlaceWithinKeeps(start: Stock, shop: Shop, request: Request)
    requires ShopInv(start, shop) && request.Place? && AllPositive(request.cart)
    requires Subtotal(BasketOf(request)) + request.quote.fee - request.quote.discount >= 0
    requires PlaceWithin(shop, request, BasketOf(request)).Ok?
    ensures ShopInv(start, PlaceWithin(shop, request, BasketOf(request)).value)
  {
    var basket := BasketOf(request);
    var applied := CalculateDiscount(shop.coupons, UsageFor(shop.orders, request.customer), request.code, basket,
                                     request.now).value;
    var after := PlaceWithin(shop, request, basket).value;
    var order := NewOrder(request, basket, applied);
    ReserveStocked(shop.books, basket.store, basket.items);
    NewOrderFits(shop, request, applied);
    var tagged := PlacedBooks(start, shop, basket.store, basket.items);
    PlacedTags(shop, order, tagged);
    forall i | 0 <= i < |after.orders|
      ensures OrderInv(after.orders[i], after.books.stock) && TagsAgree(after.books.rows, i, after.orders[i])
    {
      MoreStock(if i < |shop.orders| then shop.orders[i] else order, shop.books.stock, after.books.stock);
      if i < |shop.orders| {
        AddedElsewhere(shop.books.rows, tagged, i, shop.orders[i]);
      }
    }
    forall i | 0 <= i < |after.snapshots| ensures SnapshotInv(after.snapshots[i], after) {
      GrownSnapshot(shop, shop.snapshots[i], order, after.books);
    }
  }

  // ------------------------------------------------------------------- other requests

  lemma AdjustKeeps(start: Stock, shop: Shop, shelf: Shelf, quantity: int)
    requires ShopInv(start, shop)
    ensures ShopInv(start, shop.(books := Adjust(shop.books, shelf, quantity)))
  {
    var after := shop.(books := Adjust(shop.books, shelf, quantity));
    AdjustReplays(start, shop.books, shelf, quantity);
    var row := after.books.rows[|shop.books.rows|];
    assert after.books.rows == shop.books.rows + [row];
    forall i | 0 <= i < |after.orders|
      ensures OrderInv(after.orders[i], after.books.stock) && TagsAgree(after.books.rows, i, after.orders[i])
    {
      MoreStock(shop.orders[i], shop.books.stock, after.books.stock);
      AddedElsewhere(shop.books.rows, [row], i, shop.orders[i]);
    }
    forall i | 0 <= i < |after.snapshots| ensures SnapshotInv(after.snapshots[i], after) {
      MoreStock(shop.snapshots[i].seen, shop.books.stock, after.books.stock);
    }
  }

  lemma LookKeeps(start: Stock, shop: Shop, id: OrderId)
    requires ShopInv(start, shop) && id < |shop.orders|
    ensures ShopInv(start, shop.(snapshots := shop.snapshots + [Snapshot(id, shop.orders[id], shop.books.stock)]))
  {
    var after := shop.(snapshots := shop.snapshots + [Snapshot(id, shop.orders[id], shop.books.stock)]);
    StepRefl(shop.orders[id]);
    forall i | 0 <= i < |after.snapshots| ensures SnapshotInv(after.snapshots[i], after) {
      if i < |shop.snapshots| {
        assert SnapshotInv(shop.snapshots[i], shop);
      }
    }
  }

  /** Coupons have no part in the invariant. */
  lemma CouponsKeep(start: Stock, shop: Shop, coupons: seq<Coupon>)
    requires ShopInv(start, shop)
    ensures ShopInv(start, shop.(coupons := coupons))
  {
    var after := shop.(coupons := coupons);
    forall i | 0 <= i < |after.snapshots| ensures SnapshotInv(after.snapshots[i], after) {
      assert SnapshotInv(shop.snapshots[i], shop);
    }
  }

  lemma AlterKeeps(start: Stock, shop: Shop, request: Request)
    requires ShopInv(start, shop) && Target(shop, request).Some?
    requires Target(shop, request).value < |shop.orders|
    requires Alter(shop, request, Target(shop, request).value).Ok?
    ensures var change := Alter(shop, request, Target(shop, request).value).value;
      && change.id == Target(shop, request).value
      && ShopInv(start, shop.(orders := shop.orders[change.id := change.order], books := change.books))
  {
    var id := Target(shop, request).value;
    AlterFollows(start, shop, request, id);
    var added :| FollowsBy(start, shop, id, Alter(shop, request, id).value, added);
    ChangeKeeps(start, shop, id, Alter(shop, request, id).value, added);
  }

  lemma HandleKeeps(start: Stock, shop: Shop, request: Request)
    requires ShopInv(start, shop) && Handle(shop, request).Ok?
    ensures ShopInv(start, Handle(shop, request).value)
  {
    match request
    case Look(id) => LookKeeps(start, shop, id);
    case Place(_, _, _, _, _, _, _) =>
      if Handle(shop, request).value != shop {
        PlaceWithinKeeps(start, shop, request);
      }
    case AdjustStock(shelf, quantity) => AdjustKeeps(start, shop, shelf, quantity);
    case AddCoupon(coupon) => CouponsKeep(start, shop, shop.coupons + [coupon]);
    case EditCoupon(id, coupon) => CouponsKeep(start, shop, shop.coupons[id := coupon]);
    case _ => AlterKeeps(start, shop, request);
  }

  lemma OpenShopSafe(start: Stock)
    ensures ShopInv(start, OpenShop(start))
  {
  }

  lemma NextKeeps(start: Stock, shop: Shop, request: Request)
    requires ShopInv(start, shop)
    ensures ShopInv(start, Next(shop, request))
  {
    if Handle(shop, request).Ok? {
      HandleKeeps(start, shop, request);
    }
  }

  /** The whole invariant holds at every moment of every run. */
  lemma {:induction false} RunKeeps(start: Stock, run: Trace, t: nat)
    requires IsRun(start, run) && t < |run.states|
    ensures ShopInv(start, run.states[t])
  {
    if t == 0 {
      OpenShopSafe(start);
    } else {
      RunKeeps(start, run, t - 1);
      assert Leads(run, t - 1);
      NextKeeps(start, run.states[t - 1], run.requests[t - 1]);
    }
  }
}
