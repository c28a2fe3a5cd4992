/** Which store serves a cart: the nearest that has all of it, or else the nearest of all. */
module StoreChoice {
  import opened Common
  import opened Cart
  import opened Pricing

  /** Stock counts by store and product; a missing row counts as nothing. */
  type StockView = map<(StoreId, ProductId), int>

  predicate Covers(stock: StockView, store: StoreId, item: CartItem) {
    (if (store, item.product) in stock then stock[(store, item.product)] else 0) >= item.quantity
  }

  predicate IsCapable(stock: StockView, store: StoreId, items: seq<CartItem>) {
    forall i :: 0 <= i < |items| ==> Covers(stock, store, items[i])
  }

  /** The store at k is nearest, and nothing listed before it is as near. */
  ghost predicate IsNearest(stores: seq<StoreId>, distance: StoreId -> int, k: nat)
    requires k < |stores|
  {
    && (forall i :: 0 <= i < |stores| ==> distance(stores[k]) <= distance(stores[i]))
    && (forall i :: 0 <= i < k ==> distance(stores[k]) < distance(stores[i]))
  }

  class CheckoutLocator {
    constructor () {
    }

    method NearestStore(stores: seq<StoreId>, distance: StoreId -> int) returns (best: StoreId)
      requires stores != []
      ensures best in stores && forall store :: store in stores ==> distance(best) <= distance(store)
      ensures exists k :: 0 <= k < |stores| && best == stores[k] && IsNearest(stores, distance, k)
    {
      best := stores[0];
      var bestDistance := distance(best);
      ghost var k := 0;
      for i := 1 to |stores|
        invariant k < i && best == stores[k] && bestDistance == distance(best)
        invariant forall j :: 0 <= j < i ==> bestDistance <= distance(stores[j])
        invariant forall j :: 0 <= j < k ==> bestDistance < distance(stores[j])
      {
        if distance(stores[i]) < bestDistance {
          best, k := stores[i], i;
          bestDistance := distance(stores[i]);
        }
      }
      assert IsNearest(stores, distance, k);
    }

    method Capable(stores: seq<StoreId>, stock: StockView, items: seq<CartItem>) returns (capable: seq<StoreId>)
      ensures forall store :: store in capable <==> store in stores && IsCapable(stock, store, items)
    {
      capable := [];
      for i := 0 to |stores|
        invariant forall store :: store in capable <==> store in stores[..i] && IsCapable(stock, store, items)
      {
        assert stores[..i + 1] == stores[..i] + [stores[i]];
        if IsCapable(stock, stores[i], items) {
          capable := capable + [stores[i]];
        }
      }
      assert stores[..|stores|] == stores;
    }

    /** A store that can serve the whole cart is never passed over for one that cannot. */
    method ResolveStore(stores: seq<StoreId>, distance: StoreId -> int, stock: StockView, items: seq<CartItem>)
      returns (result: Result<StoreId>)
      ensures stores == [] <==> result == Err(NotFound)
      ensures result.Ok? <==> stores != []
      ensures result.Ok? ==>
        && result.value in stores
        && ((exists store :: store in stores && IsCapable(stock, store, items)) ==>
              IsCapable(stock, result.value, items))
        && (forall store :: store in stores ==>
              (IsCapable(stock, result.value, items) ==> IsCapable(stock, store, items)) ==>
              distance(result.value) <= distance(store))
    {
      if stores == [] {
        return Err(NotFound);
      }
      var capable := Capable(stores, stock, items);
      var best := NearestStore(if capable != [] then capable else stores, distance);
      if capable != [] {
        assert best in capable;
      } else {
        assert best in stores;
        forall store | store in stores ensures !IsCapable(stock, store, items) {
          assert store !in capable;
        }
      }
      return Ok(best);
    }
  }
}
