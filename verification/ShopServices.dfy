/**
 * Checkout, cancellation, payment, fulfilment and stock services as they run: loops over items that write
 * stock rows and ledger rows one at a time inside a transaction, which is thrown away on an error.
 */
module ShopServices {
  import opened Common
  import opened DeliveryStatus
  import opened Payments
  import opened Cart
  import opened Pricing
  import opened Inventory
  import opened Shop
  import Inspection

  class ShopDatabase {
    var books: Books
    var orders: seq<Order>
    var coupons: seq<Coupon>
    var snapshots: seq<Snapshot>

    function State(): Shop
      reads this
    {
      Shop(books, orders, coupons, snapshots)
    }

    constructor (stock: Stock)
      ensures State() == OpenShop(stock)
    {
      books := Books(stock, []);
      orders, coupons, snapshots := [], [], [];
    }
  }

  /** A request is answered as the shop says: the new state on success, the error and no change otherwise. */
  ghost predicate Answers(before: Shop, request: Request, result: Result<()>, after: Shop) {
    match Handle(before, request)
    case Ok(shop) => result == Ok(()) && after == shop
    case Err(error) => result == Err(error) && after == before
  }

  /** The stock and ledger tables inside a transaction. */
  class StockTransaction {
    var stock: Stock
    var rows: seq<Movement>

    function BooksNow(): Books
      reads this
    {
      Books(stock, rows)
    }

    constructor (books: Books)
      ensures BooksNow() == books
    {
      stock, rows := books.stock, books.rows;
    }

    /** Takes every line off its shelf, or stops at the first that is not there. */
    method Reserve(store: StoreId, items: seq<CartItem>) returns (result: Result<()>)
      modifies this
      ensures var reserved := ReserveAll(old(BooksNow()), store, items);
        if reserved.Ok? then result == Ok(()) && BooksNow() == reserved.value else result == Err(reserved.error)
    {
      ghost var before := BooksNow();
      for i := 0 to |items|
        invariant ReserveAll(before, store, items[..i]) == Ok(BooksNow())
      {
        var item := items[i];
        var shelf := Shelf(store, item.product);
        assert items[..i + 1][..i] == items[..i];
        var previous := OnShelf(stock, shelf);
        if previous < item.quantity || shelf !in stock {
          ReserveStops(before, store, items, i);
          return Err(BadRequest);
        }
        stock := stock[shelf := previous - item.quantity];
        rows := rows + [Movement(shelf, None, CheckoutReservation, -item.quantity, previous, previous - item.quantity)];
      }
      assert items[..|items|] == items;
      return Ok(());
    }

    /** Names the order on its reservation rows, product by product. */
    method Link(order: OrderId, store: StoreId, items: seq<CartItem>)
      modifies this`rows
      ensures rows == LinkAll(old(rows), order, store, items)
    {
      for i := 0 to |items|
        invariant rows == LinkAll(old(rows), order, store, items[..i])
      {
        assert items[..i + 1][..i] == items[..i];
        rows := LinkOne(rows, order, store, items[i]);
      }
      assert items[..|items|] == items;
    }

    method Restore(order: OrderId, store: StoreId, items: seq<CartItem>)
      modifies this
      ensures BooksNow() == RestoreAll(old(BooksNow()), order, store, items)
    {
      ghost var before := BooksNow();
      for i := 0 to |items|
        invariant BooksNow() == RestoreAll(before, order, store, items[..i])
      {
        var item := items[i];
        var shelf := Shelf(store, item.product);
        assert items[..i + 1][..i] == items[..i];
        var previous := OnShelf(stock, shelf);
        if shelf in stock {
          stock := stock[shelf := stock[shelf] + item.quantity];
        }
        rows := rows + [Movement(shelf, Some(order), OrderCancelRestore, item.quantity, previous,
                                 previous + item.quantity)];
      }
      assert items[..|items|] == items;
    }

    method Finalize(order: OrderId, store: StoreId, items: seq<CartItem>)
      modifies this`rows
      ensures BooksNow() == FinalizeAll(old(BooksNow()), order, store, items)
    {
      ghost var before := BooksNow();
      for i := 0 to |items|
        invariant BooksNow() == FinalizeAll(before, order, store, items[..i])
      {
        var shelf := Shelf(store, items[i].product);
        assert items[..i + 1][..i] == items[..i];
        var quantity := OnShelf(stock, shelf);
        rows := rows + [Movement(shelf, Some(order), DeliveredFinalize, 0, quantity, quantity)];
      }
      assert items[..|items|] == items;
    }

    method PutBack(order: OrderId, store: StoreId, units: seq<CartItem>)
      modifies this
      ensures BooksNow() == PutBackAll(old(BooksNow()), order, store, units)
    {
      ghost var before := BooksNow();
      for i := 0 to |units|
        invariant BooksNow() == PutBackAll(before, order, store, units[..i])
      {
        var sellable := units[i].quantity;
        var shelf := Shelf(store, units[i].product);
        assert units[..i + 1][..i] == units[..i];
        if sellable > 0 {
          var previous := OnShelf(stock, shelf);
          stock := stock[shelf := previous + sellable];
          rows := rows + [Movement(shelf, Some(order), OrderCancelRestore, sellable, previous, previous + sellable)];
        }
      }
      assert units[..|units|] == units;
    }
  }

  lemma {:induction false} ReserveStops(books: Books, store: StoreId, items: seq<CartItem>, i: nat)
    requires i < |items| && ReserveAll(books, store, items[..i + 1]) == Err(BadRequest)
    ensures ReserveAll(books, store, items) == Err(BadRequest)
    decreases |items|
  {
    if i + 1 == |items| {
      assert items[..i + 1] == items;
    } else {
      assert items[..|items| - 1][..i + 1] == items[..i + 1];
      ReserveStops(books, store, items[..|items| - 1], i);
    }
  }

  class CheckoutService {
    const promotions: PromotionsService

    constructor (promotions: PromotionsService) {
      this.promotions := promotions;
    }

    method AllWhole(items: seq<CartItem>) returns (whole: bool)
      ensures whole == AllPositive(items)
    {
      for i := 0 to |items|
        invariant forall k :: 0 <= k < i ==> items[k].quantity >= 1
      {
        if items[i].quantity < 1 {
          return false;
        }
      }
      return true;
    }

    /**
     * Prices the coupon again, reserves, creates the order, links its ledger rows, and commits all of it or
     * nothing.
     */
    method PlaceInTransaction(db: ShopDatabase, request: Request, basket: Basket) returns (result: Result<()>)
      requires request.Place?
      modifies db
      ensures var placed := PlaceWithin(old(db.State()), request, basket);
        if placed.Ok? then result == Ok(()) && db.State() == placed.value
        else result == Err(placed.error) && db.State() == old(db.State())
    {
      var priced := promotions.CalculateDiscountFor(
        db.coupons, UsageFor(db.orders, request.customer), request.code, basket, request.now);
      if priced.Err? {
        return Err(priced.error);
      }
      if DiscountOf(priced.value) != request.quote.discount || CouponOf(priced.value) != request.quote.coupon {
        return Err(Conflict);
      }
      var tx := new StockTransaction(db.books);
      var reserved := tx.Reserve(basket.store, basket.items);
      if reserved.Err? {
        return Err(reserved.error);
      }
      var created := NewOrder(request, basket, priced.value);
      tx.Link(|db.orders|, basket.store, basket.items);
      db.books := tx.BooksNow();
      db.orders := db.orders + [created];
      return Ok(());
    }

    method OrderPlaced(db: ShopDatabase, request: Request) returns (result: Result<()>)
      requires request.Place?
      modifies db
      ensures Answers(old(db.State()), request, result, db.State())
    {
      var whole := AllWhole(request.cart);
      if !whole {
        return Err(BadRequest);
      }
      if request.key.Some? {
        var existing := FindKey(db.orders, request.key.value);
        if existing.Some? {
          if db.orders[existing.value].customer != request.customer {
            return Err(Conflict);
          }
          return Ok(());
        }
      }
      var items := NormalizeItems(request.cart);
      var quote := request.quote;
      var basket := Basket(quote.store, items, quote.catalog, quote.fee);
      if items == [] || !AllListed(items, quote.catalog) || !quote.serviceable {
        return Err(BadRequest);
      }
      if Subtotal(basket) + quote.fee - quote.discount < 0 || !QuotedInStock(items, quote.store, quote.stock) {
        return Err(BadRequest);
      }
      result := PlaceInTransaction(db, request, basket);
    }
  }

  class RefundsService {
    constructor () {
    }

    /** Adds up the refunds that have not failed before allowing another. */
    method CreateRefundForPayment(payment: Payment, amount: int) returns (result: Result<Payment>)
      ensures result == CreateRefund(payment, amount)
    {
      if payment.status != Captured && payment.status != RefundPending {
        return Err(BadRequest);
      }
      if amount < 1 {
        return Err(BadRequest);
      }
      var existing := 0;
      for i := 0 to |payment.refunds|
        invariant existing == LiveRefunds(payment.refunds[..i])
      {
        assert payment.refunds[..i + 1][..i] == payment.refunds[..i];
        if !payment.refunds[i].status.RefundFailed? {
          existing := existing + payment.refunds[i].amount;
        }
      }
      assert payment.refunds[..|payment.refunds|] == payment.refunds;
      if existing + amount > payment.amount {
        return Err(BadRequest);
      }
      if amount == payment.amount && HasLiveFullRefund(payment) {
        return Err(BadRequest);
      }
      return Ok(payment.(status := RefundPending, refunds := payment.refunds + [Refund(amount, RefundRequested)]));
    }
  }

  class OrderService {
    const refunds: RefundsService

    constructor (refunds: RefundsService) {
      this.refunds := refunds;
    }

    method Commit(db: ShopDatabase, id: OrderId, order: Order, books: Books)
      requires id < |db.orders|
      modifies db
      ensures db.State() == old(db.State()).(orders := old(db.orders)[id := order], books := books)
    {
      db.orders := db.orders[id := order];
      db.books := books;
    }

    method Closed(order: Order, seen: Order, kind: EventKind) returns (result: Result<Order>)
      ensures result == CancelledOrder(order, seen, kind)
    {
      var payment := order.payment;
      if seen.payment.status.Captured? {
        var refunded := refunds.CreateRefundForPayment(payment, seen.total);
        if refunded.Err? {
          return Err(refunded.error);
        }
        payment := refunded.value;
      }
      var redemption := order.redemption;
      if redemption.Some? && !redemption.value.status.Released? {
        redemption := Some(redemption.value.(status := Released));
      }
      return Ok(order.(
        payment := payment,
        status := OrderCancelled,
        redemption := redemption,
        history := order.history + [HistoryRow(Some(seen.status), OrderCancelled, kind)]));
    }

    method CancelMyOrder(db: ShopDatabase, k: nat, customer: CustomerId) returns (result: Result<()>)
      modifies db
      ensures Answers(old(db.State()), CancelMine(k, customer), result, db.State())
    {
      if k >= |db.snapshots| || db.snapshots[k].id >= |db.orders| {
        return Err(NotFound);
      }
      var id, seen := db.snapshots[k].id, db.snapshots[k].seen;
      if seen.customer != customer {
        return Err(NotFound);
      }
      if !seen.status.OrderPending? && !seen.status.OrderPaymentPending? && !seen.status.OrderConfirmed? {
        return Err(BadRequest);
      }
      var tx := new StockTransaction(db.books);
      tx.Restore(id, seen.store, seen.items);
      var closed := Closed(db.orders[id], seen, CustomerCancelled);
      if closed.Err? {
        return Err(closed.error);
      }
      Commit(db, id, closed.value, tx.BooksNow());
      return Ok(());
    }

    method ForceCancelled(db: ShopDatabase, k: nat, byAdmin: bool) returns (result: Result<()>)
      modifies db
      ensures Answers(old(db.State()), ForceCancel(k, byAdmin), result, db.State())
    {
      if !byAdmin {
        return Err(Forbidden);
      }
      if k >= |db.snapshots| || db.snapshots[k].id >= |db.orders| {
        return Err(NotFound);
      }
      var id, seen := db.snapshots[k].id, db.snapshots[k].seen;
      if seen.status.OrderDelivered? || seen.status.OrderCancelled? {
        return Err(BadRequest);
      }
      var tx := new StockTransaction(db.books);
      if !seen.status.OrderPaymentFailed? {
        tx.Restore(id, seen.store, seen.items);
      }
      var closed := Closed(db.orders[id], seen, EventKind.ForceCancelled);
      if closed.Err? {
        return Err(closed.error);
      }
      Commit(db, id, closed.value, tx.BooksNow());
      return Ok(());
    }

    method StatusUpdated(db: ShopDatabase, k: nat, next: OrderStatus) returns (result: Result<()>)
      modifies db
      ensures Answers(old(db.State()), SetStatus(k, next), result, db.State())
    {
      if k >= |db.snapshots| || db.snapshots[k].id >= |db.orders| {
        return Err(NotFound);
      }
      var id, seen := db.snapshots[k].id, db.snapshots[k].seen;
      if seen.status == next {
        assert db.orders[id := db.orders[id]] == db.orders;
        return Ok(());
      }
      if !OrderCanMove(seen.status, next) {
        return Err(BadRequest);
      }
      var order := db.orders[id];
      var tx := new StockTransaction(db.books);
      var updated := order.(
        status := next, history := order.history + [HistoryRow(Some(seen.status), next, StatusSet)]);
      if next.OrderCancelled? {
        updated := updated.(redemption := Release(order.redemption));
      }
      if next.OrderDelivered? {
        tx.Finalize(id, seen.store, order.items);
      }
      Commit(db, id, updated, tx.BooksNow());
      return Ok(());
    }
  }

  class PaymentsService {
    constructor () {
    }

    method CaptureSimulatedPayment(db: ShopDatabase, o: nat, p: nat, customer: CustomerId) returns (result: Result<()>)
      modifies db
      ensures Answers(old(db.State()), Capture(o, p, customer), result, db.State())
    {
      if !IsPair(db.State(), o, p) {
        return Err(NotFound);
      }
      var id, seen, paid := db.snapshots[o].id, db.snapshots[o].seen, db.snapshots[p].seen.payment;
      if seen.customer != customer {
        return Err(Forbidden);
      }
      if paid.kind != Online {
        return Err(BadRequest);
      }
      if paid.status == Captured {
        assert db.orders[id := db.orders[id]] == db.orders;
        return Ok(());
      }
      if paid.status != Created || seen.status != OrderPaymentPending || paid.amount != seen.total {
        return Err(BadRequest);
      }
      var order := db.orders[id];
      order := order.(payment := order.payment.(status := Captured));
      order := order.(
        status := OrderConfirmed,
        history := order.history + [HistoryRow(Some(seen.status), OrderConfirmed, PaymentCaptured)]);
      if order.redemption.Some? && order.redemption.value.status.Reserved? {
        order := order.(redemption := Some(order.redemption.value.(status := Redeemed)));
      }
      db.orders := db.orders[id := order];
      return Ok(());
    }

    method FailSimulatedPayment(db: ShopDatabase, o: nat, p: nat, customer: CustomerId) returns (result: Result<()>)
      modifies db
      ensures Answers(old(db.State()), Decline(o, p, customer), result, db.State())
    {
      if !IsPair(db.State(), o, p) {
        return Err(NotFound);
      }
      var id, seen, paid := db.snapshots[o].id, db.snapshots[o].seen, db.snapshots[p].seen.payment;
      if seen.customer != customer {
        return Err(Forbidden);
      }
      if paid.kind != Online {
        return Err(BadRequest);
      }
      if paid.status == CaptureFailed {
        assert db.orders[id := db.orders[id]] == db.orders;
        return Ok(());
      }
      if paid.status != Created || seen.status != OrderPaymentPending {
        return Err(BadRequest);
      }
      var order := db.orders[id];
      order := order.(payment := order.payment.(status := CaptureFailed));
      order := order.(
        status := OrderPaymentFailed,
        history := order.history + [HistoryRow(Some(seen.status), OrderPaymentFailed, PaymentDeclined)]);
      if order.redemption.Some? && order.redemption.value.status.Reserved? {
        order := order.(redemption := Some(order.redemption.value.(status := Released)));
      }
      db.orders := db.orders[id := order];
      return Ok(());
    }
  }

  class StoreService {
    constructor () {
    }

    method UpdateInventory(db: ShopDatabase, shelf: Shelf, quantity: int) returns (result: Result<()>)
      modifies db
      ensures Answers(old(db.State()), AdjustStock(shelf, quantity), result, db.State())
    {
      var previous := OnShelf(db.books.stock, shelf);
      var row := Movement(shelf, None, ManualAdjustment, quantity - previous, previous, quantity);
      db.books := Books(db.books.stock[shelf := quantity], db.books.rows + [row]);
      return Ok(());
    }
  }

  class ReturnsService {
    constructor () {
    }

    /** Inspects a returned parcel once and puts its sellable units back. */
    method ReturnInspected(db: ShopDatabase, id: OrderId, lines: seq<Inspection.InspectionLine>)
      returns (result: Result<()>)
      modifies db
      ensures Answers(old(db.State()), InspectReturn(id, lines), result, db.State())
    {
      if id >= |db.orders| {
        return Err(NotFound);
      }
      var order := db.orders[id];
      if order.inspected {
        return Err(Conflict);
      }
      if order.job != Some(ReturnedToStore) {
        return Err(BadRequest);
      }
      var units := Inspection.InspectLines(order.items, lines);
      if units.Err? {
        return Err(units.error);
      }
      var tx := new StockTransaction(db.books);
      tx.PutBack(id, order.store, units.value);
      db.orders := db.orders[id := order.(inspected := true)];
      db.books := tx.BooksNow();
      return Ok(());
    }
  }
}
