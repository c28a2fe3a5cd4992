/** Stock rows and the ledger of every movement of stock. */
module Inventory {
  import opened Common
  import opened Cart
  import opened Pricing

  type OrderId = nat

  datatype Shelf = Shelf(store: StoreId, product: ProductId)

  datatype Reason = CheckoutReservation | OrderCancelRestore | DeliveredFinalize | ManualAdjustment

  datatype Movement = Movement(shelf: Shelf, order: Option<OrderId>, reason: Reason, delta: int, previous: int,
                               next: int)

  type Stock = map<Shelf, int>

  datatype Books = Books(stock: Stock, rows: seq<Movement>)

  /** A shelf without a stock row holds nothing. */
  function OnShelf(stock: Stock, shelf: Shelf): int {
    if shelf in stock then stock[shelf] else 0
  }

  // ------------------------------------------------------------------ operations

  function ReserveOne(books: Books, store: StoreId, item: CartItem): Result<Books> {
    var shelf := Shelf(store, item.product);
    var previous := OnShelf(books.stock, shelf);
    if previous < item.quantity || shelf !in books.stock then Err(BadRequest)
    else
      Ok(Books(
        books.stock[shelf := previous - item.quantity],
        books.rows + [Movement(shelf, None, CheckoutReservation, -item.quantity, previous, previous - item.quantity)]))
  }

  function ReserveAll(books: Books, store: StoreId, items: seq<CartItem>): Result<Books> {
    if items == [] then Ok(books)
    else
      var before :- ReserveAll(books, store, items[..|items| - 1]);
      ReserveOne(before, store, items[|items| - 1])
  }

  /** The stock row is raised if there is one; the movement is written either way. */
  function RestoreOne(books: Books, order: OrderId, store: StoreId, item: CartItem): Books {
    var shelf := Shelf(store, item.product);
    var previous := OnShelf(books.stock, shelf);
    Books(
      if shelf in books.stock then books.stock[shelf := previous + item.quantity] else books.stock,
      books.rows + [Movement(shelf, Some(order), OrderCancelRestore, item.quantity, previous,
                             previous + item.quantity)])
  }

  function RestoreAll(books: Books, order: OrderId, store: StoreId, items: seq<CartItem>): Books {
    if items == [] then books
    else RestoreOne(RestoreAll(books, order, store, items[..|items| - 1]), order, store, items[|items| - 1])
  }

  /** Sellable units of a returned item; nothing is written when there are none. */
  function PutBackOne(books: Books, order: OrderId, store: StoreId, item: CartItem): Books {
    if item.quantity <= 0 then books
    else
      var shelf := Shelf(store, item.product);
      var previous := OnShelf(books.stock, shelf);
      Books(
        books.stock[shelf := previous + item.quantity],
        books.rows + [Movement(shelf, Some(order), OrderCancelRestore, item.quantity, previous,
                               previous + item.quantity)])
  }

  function PutBackAll(books: Books, order: OrderId, store: StoreId, items: seq<CartItem>): Books {
    if items == [] then books
    else PutBackOne(PutBackAll(books, order, store, items[..|items| - 1]), order, store, items[|items| - 1])
  }

  function FinalizeOne(books: Books, order: OrderId, store: StoreId, item: CartItem): Books {
    var shelf := Shelf(store, item.product);
    var quantity := OnShelf(books.stock, shelf);
    books.(rows := books.rows + [Movement(shelf, Some(order), DeliveredFinalize, 0, quantity, quantity)])
  }

  function FinalizeAll(books: Books, order: OrderId, store: StoreId, items: seq<CartItem>): Books {
    if items == [] then books
    else FinalizeOne(FinalizeAll(books, order, store, items[..|items| - 1]), order, store, items[|items| - 1])
  }

  function Adjust(books: Books, shelf: Shelf, quantity: int): Books {
    var previous := OnShelf(books.stock, shelf);
    Books(
      books.stock[shelf := quantity],
      books.rows + [Movement(shelf, None, ManualAdjustment, quantity - previous, previous, quantity)])
  }

  predicate IsUnlinked(row: Movement) {
    row.reason.CheckoutReservation? && row.order.None?
  }

  /** Every reservation of that product at that store that names no order is given this one. */
  function LinkOne(rows: seq<Movement>, order: OrderId, store: StoreId, item: CartItem): (linked: seq<Movement>)
    ensures |linked| == |rows|
    ensures forall i :: 0 <= i < |rows| ==>
      linked[i] == if IsUnlinked(rows[i]) && rows[i].shelf == Shelf(store, item.product)
                   then rows[i].(order := Some(order)) else rows[i]
  {
    seq(|rows|, i requires 0 <= i < |rows| =>
      if IsUnlinked(rows[i]) && rows[i].shelf == Shelf(store, item.product)
      then rows[i].(order := Some(order)) else rows[i])
  }

  function LinkAll(rows: seq<Movement>, order: OrderId, store: StoreId, items: seq<CartItem>): (linked: seq<Movement>)
    ensures |linked| == |rows|
  {
    if items == [] then rows
    else LinkOne(LinkAll(rows, order, store, items[..|items| - 1]), order, store, items[|items| - 1])
  }

  // ---------------------------------------------------------------------- replay

  /** What the movements of a shelf add up to. */
  function Moved(rows: seq<Movement>, shelf: Shelf): int {
    if rows == [] then 0
    else
      var last := rows[|rows| - 1];
      Moved(rows[..|rows| - 1], shelf) + if last.shelf == shelf then last.delta else 0
  }

  /** The k-th row starts from the balance the rows before it leave on its shelf. */
  ghost predicate RowAudits(start: Stock, rows: seq<Movement>, k: nat)
    requires k < |rows|
  {
    && rows[k].previous == OnShelf(start, rows[k].shelf) + Moved(rows[..k], rows[k].shelf)
    && rows[k].next == rows[k].previous + rows[k].delta
  }

  /** Replaying the ledger over the starting stock gives the stock, and every row's own balances. */
  ghost predicate Replays(start: Stock, books: Books) {
    && start.Keys <= books.stock.Keys
    && (forall shelf :: OnShelf(books.stock, shelf) == OnShelf(start, shelf) + Moved(books.rows, shelf))
    && (forall k :: 0 <= k < |books.rows| ==> RowAudits(start, books.rows, k))
  }

  lemma MovedAppend(rows: seq<Movement>, row: Movement, shelf: Shelf)
    ensures Moved(rows + [row], shelf) == Moved(rows, shelf) + if row.shelf == shelf then row.delta else 0
  {
    assert (rows + [row])[..|rows|] == rows;
  }

  lemma AuditsAppend(start: Stock, rows: seq<Movement>, row: Movement)
    requires forall k :: 0 <= k < |rows| ==> RowAudits(start, rows, k)
    requires row.previous == OnShelf(start, row.shelf) + Moved(rows, row.shelf) && row.next == row.previous + row.delta
    ensures forall k :: 0 <= k < |rows| + 1 ==> RowAudits(start, rows + [row], k)
  {
    var all := rows + [row];
    forall k | 0 <= k < |all| ensures RowAudits(start, all, k) {
      assert all[..k] == rows[..k];
      if k == |rows| {
        assert rows[..k] == rows;
      } else {
        assert RowAudits(start, rows, k);
      }
    }
  }

  /** Any one write that moves a shelf by the delta of its row keeps the ledger replayable. */
  lemma WriteReplays(start: Stock, books: Books, after: Books, row: Movement)
    requires Replays(start, books)
    requires after.rows == books.rows + [row]
    requires row.previous == OnShelf(books.stock, row.shelf) && row.next == row.previous + row.delta
    requires after.stock == books.stock[row.shelf := row.next] || (after.stock == books.stock && row.delta == 0)
    ensures Replays(start, after)
  {
    AuditsAppend(start, books.rows, row);
    forall shelf ensures OnShelf(after.stock, shelf) == OnShelf(start, shelf) + Moved(after.rows, shelf) {
      MovedAppend(books.rows, row, shelf);
    }
  }

  lemma {:induction false} ReserveReplays(start: Stock, books: Books, store: StoreId, items: seq<CartItem>)
    requires Replays(start, books) && ReserveAll(books, store, items).Ok?
    ensures Replays(start, ReserveAll(books, store, items).value)
    ensures ReserveAll(books, store, items).value.stock.Keys == books.stock.Keys
  {
    if items != [] {
      ReserveReplays(start, books, store, items[..|items| - 1]);
      var before := ReserveAll(books, store, items[..|items| - 1]).value;
      var after := ReserveAll(books, store, items).value;
      WriteReplays(start, before, after, after.rows[|before.rows|]);
    }
  }

  predicate Stocked(stock: Stock, store: StoreId, items: seq<CartItem>) {
    forall i :: 0 <= i < |items| ==> Shelf(store, items[i].product) in stock
  }

  lemma {:induction false} RestoreReplays(start: Stock, books: Books, order: OrderId, store: StoreId,
                                          items: seq<CartItem>)
    requires Replays(start, books) && Stocked(books.stock, store, items)
    ensures Replays(start, RestoreAll(books, order, store, items))
    ensures RestoreAll(books, order, store, items).stock.Keys == books.stock.Keys
  {
    if items != [] {
      RestoreReplays(start, books, order, store, items[..|items| - 1]);
      var before := RestoreAll(books, order, store, items[..|items| - 1]);
      var after := RestoreAll(books, order, store, items);
      assert items[|items| - 1].product == items[|items| - 1].product;
      WriteReplays(start, before, after, after.rows[|before.rows|]);
    }
  }

  lemma {:induction false} PutBackReplays(start: Stock, books: Books, order: OrderId, store: StoreId,
                                          items: seq<CartItem>)
    requires Replays(start, books)
    ensures Replays(start, PutBackAll(books, order, store, items))
    ensures books.stock.Keys <= PutBackAll(books, order, store, items).stock.Keys
  {
    if items != [] {
      PutBackReplays(start, books, order, store, items[..|items| - 1]);
      var before := PutBackAll(books, order, store, items[..|items| - 1]);
      var after := PutBackAll(books, order, store, items);
      if after != before {
        WriteReplays(start, before, after, after.rows[|before.rows|]);
      }
    }
  }

  lemma {:induction false} FinalizeReplays(start: Stock, books: Books, order: OrderId, store: StoreId,
                                           items: seq<CartItem>)
    requires Replays(start, books)
    ensures Replays(start, FinalizeAll(books, order, store, items))
    ensures FinalizeAll(books, order, store, items).stock == books.stock
  {
    if items != [] {
      FinalizeReplays(start, books, order, store, items[..|items| - 1]);
      var before := FinalizeAll(books, order, store, items[..|items| - 1]);
      var after := FinalizeAll(books, order, store, items);
      WriteReplays(start, before, after, after.rows[|before.rows|]);
    }
  }

  lemma AdjustReplays(start: Stock, books: Books, shelf: Shelf, quantity: int)
    requires Replays(start, books)
    ensures Replays(start, Adjust(books, shelf, quantity))
  {
    var after := Adjust(books, shelf, quantity);
    WriteReplays(start, books, after, after.rows[|books.rows|]);
  }

  /** Rows that differ only in the order they name. */
  ghost predicate SameMoves(a: seq<Movement>, b: seq<Movement>) {
    |a| == |b| && forall i :: 0 <= i < |a| ==> a[i] == b[i].(order := a[i].order)
  }

  lemma {:induction false} SameMoved(a: seq<Movement>, b: seq<Movement>, shelf: Shelf)
    requires SameMoves(a, b)
    ensures Moved(a, shelf) == Moved(b, shelf)
  {
    if a != [] {
      SameMoved(a[..|a| - 1], b[..|b| - 1], shelf);
    }
  }

  /** Linking names orders and moves nothing. */
  lemma LinkReplays(start: Stock, books: Books, rows: seq<Movement>)
    requires Replays(start, books) && SameMoves(rows, books.rows)
    ensures Replays(start, books.(rows := rows))
  {
    forall shelf ensures Moved(rows, shelf) == Moved(books.rows, shelf) {
      SameMoved(rows, books.rows, shelf);
    }
    forall k | 0 <= k < |rows| ensures RowAudits(start, rows, k) {
      assert RowAudits(start, books.rows, k);
      SameMoved(rows[..k], books.rows[..k], rows[k].shelf);
    }
  }

  // ------------------------------------------------------------------- reserving

  predicate Available(stock: Stock, store: StoreId, item: CartItem) {
    Shelf(store, item.product) in stock && item.quantity <= stock[Shelf(store, item.product)]
  }

  lemma {:induction false} ReserveUntouched(books: Books, store: StoreId, items: seq<CartItem>, item: CartItem)
    requires ReserveAll(books, store, items).Ok? && !Names(items, item.product)
    ensures Available(ReserveAll(books, store, items).value.stock, store, item) <==> Available(books.stock, store, item)
  {
    if items != [] {
      var front, last := items[..|items| - 1], items[|items| - 1];
      assert forall i :: 0 <= i < |front| ==> front[i] == items[i];
      assert !Names(front, item.product) && last.product != item.product;
      ReserveUntouched(books, store, front, item);
    }
  }

  /** A cart of different products can be reserved exactly when every line is on the shelf. */
  lemma {:induction false} ReservesExactlyWhen(books: Books, store: StoreId, items: seq<CartItem>)
    requires Distinct(items)
    ensures ReserveAll(books, store, items).Ok? <==>
      forall i :: 0 <= i < |items| ==> Available(books.stock, store, items[i])
  {
    if items != [] {
      var front, last := items[..|items| - 1], items[|items| - 1];
      assert forall i :: 0 <= i < |front| ==> front[i] == items[i];
      ReservesExactlyWhen(books, store, front);
      if ReserveAll(books, store, front).Ok? {
        ReserveUntouched(books, store, front, last);
      }
    }
  }

  /** Reserving takes each line's total off its shelf and never takes a shelf below zero. */
  lemma {:induction false} ReserveTakes(books: Books, store: StoreId, items: seq<CartItem>, shelf: Shelf)
    requires ReserveAll(books, store, items).Ok?
    ensures var after := ReserveAll(books, store, items).value;
      && OnShelf(after.stock, shelf) ==
         OnShelf(books.stock, shelf) - (if shelf.store == store then TotalFor(items, shelf.product) else 0)
      && (OnShelf(books.stock, shelf) >= 0 ==> OnShelf(after.stock, shelf) >= 0)
  {
    if items != [] {
      ReserveTakes(books, store, items[..|items| - 1], shelf);
    }
  }

  // --------------------------------------------------------------------- tagging

  /** What the rows of one order add up to for a product. */
  function Tagged(rows: seq<Movement>, order: OrderId, product: ProductId): int {
    if rows == [] then 0
    else
      var last := rows[|rows| - 1];
      Tagged(rows[..|rows| - 1], order, product)
        + if last.order == Some(order) && last.shelf.product == product then last.delta else 0
  }

  lemma {:induction false} TaggedSplit(a: seq<Movement>, b: seq<Movement>, order: OrderId, product: ProductId)
    ensures Tagged(a + b, order, product) == Tagged(a, order, product) + Tagged(b, order, product)
  {
    if b == [] {
      assert a + b == a;
    } else {
      TaggedSplit(a, b[..|b| - 1], order, product);
      assert (a + b)[..|a + b| - 1] == a + b[..|b| - 1];
    }
  }

  lemma {:induction false} UntaggedSum(rows: seq<Movement>, order: OrderId, product: ProductId)
    requires forall i :: 0 <= i < |rows| ==> rows[i].order != Some(order)
    ensures Tagged(rows, order, product) == 0
  {
    if rows != [] {
      UntaggedSum(rows[..|rows| - 1], order, product);
    }
  }

  /** Rows that move each item of a list once, by its quantity times a sign, under one tag. */
  ghost predicate MovesOnce(rows: seq<Movement>, store: StoreId, items: seq<CartItem>, tag: Option<OrderId>,
                            reason: Reason, sign: int) {
    && |rows| == |items|
    && (forall i :: 0 <= i < |rows| ==>
          && rows[i].shelf == Shelf(store, items[i].product)
          && rows[i].order == tag && rows[i].reason == reason
          && rows[i].delta == sign * items[i].quantity)
  }

  lemma {:induction false} MovesOnceSum(rows: seq<Movement>, store: StoreId, items: seq<CartItem>, order: OrderId,
                                        reason: Reason, sign: int, product: ProductId)
    requires MovesOnce(rows, store, items, Some(order), reason, sign)
    ensures Tagged(rows, order, product) == sign * TotalFor(items, product)
  {
    if rows != [] {
      MovesOnceSum(rows[..|rows| - 1], store, items[..|items| - 1], order, reason, sign, product);
      var last := items[|items| - 1];
      assert sign * TotalFor(items, product) ==
             sign * TotalFor(items[..|items| - 1],
                             product) + sign * (if last.product == product then last.quantity else 0);
    }
  }

  /** The rows afterwards are the rows before and one for each item. */
  ghost predicate AddsOnce(before: seq<Movement>, after: seq<Movement>, store: StoreId, items: seq<CartItem>,
                           tag: Option<OrderId>, reason: Reason, sign: int) {
    exists added :: after == before + added && MovesOnce(added, store, items, tag, reason, sign)
  }

  lemma MoreOnce(start: seq<Movement>, before: seq<Movement>, after: seq<Movement>, store: StoreId,
                 items: seq<CartItem>, tag: Option<OrderId>, reason: Reason, sign: int)
    requires items != [] && AddsOnce(start, before, store, items[..|items| - 1], tag, reason, sign)
    requires |after| == |before| + 1 && before == after[..|before|]
    requires MovesOnce(after[|before|..], store, items[|items| - 1..], tag, reason, sign)
    ensures AddsOnce(start, after, store, items, tag, reason, sign)
  {
    var earlier :| before == start + earlier && MovesOnce(earlier, store, items[..|items| - 1], tag, reason, sign);
    var added := earlier + after[|before|..];
    assert after == start + added && MovesOnce(added, store, items, tag, reason, sign);
  }

  lemma {:induction false} ReserveRows(books: Books, store: StoreId, items: seq<CartItem>)
    requires ReserveAll(books, store, items).Ok?
    ensures AddsOnce(
      books.rows, ReserveAll(books, store, items).value.rows, store, items, None, CheckoutReservation, -1)
  {
    if items == [] {
      assert books.rows == books.rows + [] && MovesOnce([], store, items, None, CheckoutReservation, -1);
    } else {
      var front := items[..|items| - 1];
      ReserveRows(books, store, front);
      var before, after := ReserveAll(books, store, front).value, ReserveAll(books, store, items).value;
      MoreOnce(books.rows, before.rows, after.rows, store, items, None, CheckoutReservation, -1);
    }
  }

  lemma {:induction false} RestoreRows(books: Books, order: OrderId, store: StoreId, items: seq<CartItem>)
    ensures AddsOnce(
      books.rows, RestoreAll(books, order, store, items).rows, store, items, Some(order), OrderCancelRestore, 1)
  {
    if items == [] {
      assert books.rows == books.rows + [] && MovesOnce([], store, items, Some(order), OrderCancelRestore, 1);
    } else {
      var front := items[..|items| - 1];
      RestoreRows(books, order, store, front);
      var before, after := RestoreAll(books, order, store, front), RestoreAll(books, order, store, items);
      MoreOnce(books.rows, before.rows, after.rows, store, items, Some(order), OrderCancelRestore, 1);
    }
  }

  lemma {:induction false} FinalizeRows(books: Books, order: OrderId, store: StoreId, items: seq<CartItem>)
    ensures AddsOnce(
      books.rows, FinalizeAll(books, order, store, items).rows, store, items, Some(order), DeliveredFinalize, 0)
  {
    if items == [] {
      assert books.rows == books.rows + [] && MovesOnce([], store, items, Some(order), DeliveredFinalize, 0);
    } else {
      var front := items[..|items| - 1];
      FinalizeRows(books, order, store, front);
      var before, after := FinalizeAll(books, order, store, front), FinalizeAll(books, order, store, items);
      MoreOnce(books.rows, before.rows, after.rows, store, items, Some(order), DeliveredFinalize, 0);
    }
  }

  /** Which rows the link step tags. */
  lemma {:induction false} LinkAt(rows: seq<Movement>, order: OrderId, store: StoreId, items: seq<CartItem>, i: nat)
    requires i < |rows|
    ensures LinkAll(rows, order, store, items)[i] ==
      if IsUnlinked(rows[i]) && rows[i].shelf.store == store && Names(items, rows[i].shelf.product)
      then rows[i].(order := Some(order)) else rows[i]
  {
    if items != [] {
      var front, last := items[..|items| - 1], items[|items| - 1];
      LinkAt(rows, order, store, front, i);
      NamesSplit(front, [last], rows[i].shelf.product);
      assert front + [last] == items;
      assert Names([last], rows[i].shelf.product) <==> [last][0].product == rows[i].shelf.product;
    }
  }

  /** When no earlier reservation is unlinked, linking after reserving tags exactly the rows just added. */
  lemma LinkTagsNewRows(rows: seq<Movement>, added: seq<Movement>, order: OrderId, store: StoreId, items: seq<CartItem>)
    returns (tagged: seq<Movement>)
    requires forall i :: 0 <= i < |rows| ==> !IsUnlinked(rows[i])
    requires MovesOnce(added, store, items, None, CheckoutReservation, -1)
    ensures LinkAll(rows + added, order, store, items) == rows + tagged
    ensures MovesOnce(tagged, store, items, Some(order), CheckoutReservation, -1)
    ensures SameMoves(rows + tagged, rows + added)
  {
    var linked := LinkAll(rows + added, order, store, items);
    forall i | 0 <= i < |linked|
      ensures linked[i] == if i < |rows| then rows[i] else added[i - |rows|].(order := Some(order))
    {
      LinkAt(rows + added, order, store, items, i);
      if i >= |rows| {
        assert items[i - |rows|].product == added[i - |rows|].shelf.product;
      }
    }
    tagged := linked[|rows|..];
    assert linked == rows + tagged;
  }
}
