/** Cart lines, how checkout merges them, and why splitting or reordering a cart changes no price. */
module Cart {
  import opened Common

  type ProductId = nat

  datatype CartItem = CartItem(product: ProductId, quantity: int)

  predicate Names(items: seq<CartItem>, product: ProductId) {
    exists i :: 0 <= i < |items| && items[i].product == product
  }

  function TotalFor(items: seq<CartItem>, product: ProductId): int {
    if items == [] then 0
    else
      var last := items[|items| - 1];
      TotalFor(items[..|items| - 1], product) + if last.product == product then last.quantity else 0
  }

  /** The paise a list of lines comes to under some unit prices. */
  function Worth(items: seq<CartItem>, price: ProductId -> int): int {
    if items == [] then 0
    else
      var last := items[|items| - 1];
      Worth(items[..|items| - 1], price) + price(last.product) * last.quantity
  }

  predicate Distinct(items: seq<CartItem>) {
    forall i, k :: 0 <= i < k < |items| ==> items[i].product != items[k].product
  }

  /** Adds a line to the line of the same product, or at the end. */
  function Merge(items: seq<CartItem>, item: CartItem): (merged: seq<CartItem>) {
    if items == [] then [item]
    else if items[0].product == item.product then
      [items[0].(quantity := items[0].quantity + item.quantity)] + items[1..]
    else [items[0]] + Merge(items[1..], item)
  }

  function Normalize(items: seq<CartItem>): seq<CartItem> {
    if items == [] then []
    else Merge(Normalize(items[..|items| - 1]), items[|items| - 1])
  }

  lemma {:induction false} MergeNames(items: seq<CartItem>, item: CartItem, product: ProductId)
    ensures Names(Merge(items, item), product) <==> Names(items, product) || product == item.product
  {
    var merged := Merge(items, item);
    if items == [] {
      assert merged[0].product == item.product;
    } else if items[0].product == item.product {
      assert forall i :: 0 <= i < |items| ==> merged[i].product == items[i].product;
      assert merged[0].product == item.product;
    } else {
      MergeNames(items[1..], item, product);
      NamesSplit([items[0]], items[1..], product);
      NamesSplit([items[0]], Merge(items[1..], item), product);
      assert [items[0]] + items[1..] == items;
    }
  }

  lemma NamesSplit(a: seq<CartItem>, b: seq<CartItem>, product: ProductId)
    ensures Names(a + b, product) <==> Names(a, product) || Names(b, product)
  {
    if Names(a, product) {
      var i :| 0 <= i < |a| && a[i].product == product;
      assert (a + b)[i] == a[i];
    }
    if Names(b, product) {
      var i :| 0 <= i < |b| && b[i].product == product;
      assert (a + b)[|a| + i] == b[i];
    }
  }

  lemma {:induction false} MergeDistinct(items: seq<CartItem>, item: CartItem)
    requires Distinct(items)
    ensures Distinct(Merge(items, item))
  {
    if items != [] && items[0].product != item.product {
      var rest := Merge(items[1..], item);
      MergeDistinct(items[1..], item);
      MergeNames(items[1..], item, items[0].product);
      assert !Names(items[1..], items[0].product);
      assert !Names(rest, items[0].product);
    }
  }

  lemma {:induction false} WorthSplit(a: seq<CartItem>, b: seq<CartItem>, price: ProductId -> int)
    ensures Worth(a + b, price) == Worth(a, price) + Worth(b, price)
  {
    if b == [] {
      assert a + b == a;
    } else {
      WorthSplit(a, b[..|b| - 1], price);
      assert (a + b)[..|a + b| - 1] == a + b[..|b| - 1];
    }
  }

  lemma WorthOne(item: CartItem, price: ProductId -> int)
    ensures Worth([item], price) == price(item.product) * item.quantity
  {
    assert [item][..0] == [];
  }

  lemma {:induction false} MergeWorth(items: seq<CartItem>, item: CartItem, price: ProductId -> int)
    ensures Worth(Merge(items, item), price) == Worth(items, price) + price(item.product) * item.quantity
  {
    WorthOne(item, price);
    if items != [] {
      var head, rest := items[0], items[1..];
      assert items == [head] + rest;
      WorthSplit([head], rest, price);
      WorthOne(head, price);
      if head.product == item.product {
        var grown := head.(quantity := head.quantity + item.quantity);
        WorthOne(grown, price);
        WorthSplit([grown], rest, price);
      } else {
        MergeWorth(rest, item, price);
        WorthSplit([head], Merge(rest, item), price);
      }
    }
  }

  /** A total is the worth under the price that charges one paisa for that product only. */
  lemma {:induction false} TotalIsWorth(items: seq<CartItem>, product: ProductId)
    ensures TotalFor(items, product) == Worth(items, p => if p == product then 1 else 0)
  {
    if items != [] {
      TotalIsWorth(items[..|items| - 1], product);
    }
  }

  /** Merging lists each product once, names the same products, and is worth the same at any prices. */
  lemma {:induction false} NormalizeMeans(items: seq<CartItem>, price: ProductId -> int, product: ProductId)
    ensures Distinct(Normalize(items))
    ensures Names(Normalize(items), product) <==> Names(items, product)
    ensures Worth(Normalize(items), price) == Worth(items, price)
    ensures TotalFor(Normalize(items), product) == TotalFor(items, product)
  {
    if items != [] {
      var front, last := items[..|items| - 1], items[|items| - 1];
      NormalizeMeans(front, price, product);
      MergeNames(Normalize(front), last, product);
      MergeDistinct(Normalize(front), last);
      MergeWorth(Normalize(front), last, price);
      MergeWorth(Normalize(front), last, p => if p == product then 1 else 0);
      TotalIsWorth(Normalize(items), product);
      TotalIsWorth(Normalize(front), product);
      NamesSplit(front, [last], product);
      assert front + [last] == items;
      assert Names([last], product) <==> [last][0].product == product;
    }
  }

  /** In a merged cart the line of a product carries its whole total. */
  lemma {:induction false} DistinctTotal(items: seq<CartItem>, i: nat)
    requires Distinct(items) && i < |items|
    ensures TotalFor(items, items[i].product) == items[i].quantity
  {
    var last := |items| - 1;
    if i < last {
      DistinctTotal(items[..last], i);
      assert items[last].product != items[i].product;
    } else {
      NotNamed(items[..last], items[i].product);
    }
  }

  lemma {:induction false} NotNamed(items: seq<CartItem>, product: ProductId)
    requires !Names(items, product)
    ensures TotalFor(items, product) == 0
  {
    if items != [] {
      assert items[|items| - 1].product != product;
      assert forall i :: 0 <= i < |items| - 1 ==> items[..|items| - 1][i] == items[i];
      NotNamed(items[..|items| - 1], product);
    }
  }

  lemma {:induction false} DistinctOnce(items: seq<CartItem>, item: CartItem)
    requires Distinct(items)
    ensures multiset(items)[item] == if item in items then 1 else 0
  {
    if items != [] {
      var front, last := items[..|items| - 1], items[|items| - 1];
      DistinctOnce(front, item);
      assert items == front + [last];
      if item == last {
        assert item !in front;
      }
    }
  }

  ghost predicate SameCart(a: seq<CartItem>, b: seq<CartItem>) {
    forall product :: Names(a, product) == Names(b, product) && TotalFor(a, product) == TotalFor(b, product)
  }

  lemma SameLines(a: seq<CartItem>, b: seq<CartItem>, item: CartItem)
    requires SameCart(a, b) && item in Normalize(a)
    ensures item in Normalize(b)
  {
    var price := (p: ProductId) => 0;
    NormalizeMeans(a, price, item.product);
    NormalizeMeans(b, price, item.product);
    var i :| 0 <= i < |Normalize(a)| && Normalize(a)[i] == item;
    DistinctTotal(Normalize(a), i);
    assert Names(a, item.product) && Names(b, item.product);
    var k :| 0 <= k < |Normalize(b)| && Normalize(b)[k].product == item.product;
    DistinctTotal(Normalize(b), k);
    assert Normalize(b)[k] == item;
  }

  lemma {:induction false} PermutedWorth(a: seq<CartItem>, b: seq<CartItem>, price: ProductId -> int)
    requires multiset(a) == multiset(b)
    ensures Worth(a, price) == Worth(b, price)
  {
    if a == [] {
      assert |b| == |multiset(b)| == 0;
    } else {
      var front, last := a[..|a| - 1], a[|a| - 1];
      assert a == front + [last];
      assert last in multiset(b);
      var k :| 0 <= k < |b| && b[k] == last;
      var rest := b[..k] + b[k + 1..];
      assert b == b[..k] + [last] + b[k + 1..];
      assert multiset(b) == multiset(b[..k]) + multiset{last} + multiset(b[k + 1..]);
      assert multiset(rest) == multiset(b[..k]) + multiset(b[k + 1..]);
      assert multiset(a) == multiset(front) + multiset{last};
      assert multiset(front) == multiset(a) - multiset{last};
      assert multiset(rest) == multiset(b) - multiset{last};
      PermutedWorth(front, rest, price);
      WorthSplit(b[..k] + [last], b[k + 1..], price);
      WorthSplit(b[..k], [last], price);
      WorthSplit(b[..k], b[k + 1..], price);
      WorthOne(last, price);
    }
  }

  /**
   * Two carts that ask for the same totals, however split or ordered, are merged into the same lines
   * up to order, and are worth the same under every price list.
   */
  lemma SplittingChangesNothing(a: seq<CartItem>, b: seq<CartItem>, price: ProductId -> int)
    requires SameCart(a, b)
    ensures multiset(Normalize(a)) == multiset(Normalize(b))
    ensures Worth(Normalize(a), price) == Worth(Normalize(b), price) == Worth(a, price) == Worth(b, price)
  {
    NormalizeMeans(a, price, 0);
    NormalizeMeans(b, price, 0);
    forall item ensures multiset(Normalize(a))[item] == multiset(Normalize(b))[item] {
      DistinctOnce(Normalize(a), item);
      DistinctOnce(Normalize(b), item);
      if item in Normalize(a) { SameLines(a, b, item); }
      if item in Normalize(b) { SameLines(b, a, item); }
    }
    PermutedWorth(Normalize(a), Normalize(b), price);
  }

  /** Where the entries of an insertion-ordered map have a key. */
  function Find(entries: seq<CartItem>, product: ProductId): (at: Option<nat>)
    ensures at.Some? ==> at.value < |entries| && entries[at.value].product == product
    ensures at.None? <==> !Names(entries, product)
  {
    if entries == [] then None
    else
      var last := |entries| - 1;
      if entries[last].product == product then Some(last)
      else
        assert forall i :: 0 <= i < last ==> entries[..last][i] == entries[i];
        Find(entries[..last], product)
  }

  lemma {:induction false} MergeAt(items: seq<CartItem>, item: CartItem, k: nat)
    requires Distinct(items) && k < |items| && items[k].product == item.product
    ensures Merge(items, item) == items[k := items[k].(quantity := items[k].quantity + item.quantity)]
  {
    if k > 0 {
      assert items[0].product != item.product;
      MergeAt(items[1..], item, k - 1);
    }
  }

  lemma {:induction false} MergeNew(items: seq<CartItem>, item: CartItem)
    requires !Names(items, item.product)
    ensures Merge(items, item) == items + [item]
  {
    if items != [] {
      assert items[0].product != item.product;
      assert forall i :: 0 <= i < |items| - 1 ==> items[1..][i] == items[i + 1];
      MergeNew(items[1..], item);
    }
  }

  /** One pass over the cart, adding each line to a map that remembers insertion order. */
  method NormalizeItems(items: seq<CartItem>) returns (lines: seq<CartItem>)
    ensures lines == Normalize(items)
  {
    var byProduct: seq<CartItem> := [];
    for n := 0 to |items|
      invariant Distinct(byProduct)
      invariant byProduct == Normalize(items[..n])
    {
      var item := items[n];
      assert items[..n + 1][..n] == items[..n];
      MergeDistinct(byProduct, item);
      var at := Find(byProduct, item.product);
      if at.Some? {
        MergeAt(byProduct, item, at.value);
        var current := byProduct[at.value].quantity;
        byProduct := byProduct[at.value := CartItem(item.product, current + item.quantity)];
      } else {
        MergeNew(byProduct, item);
        byProduct := byProduct + [CartItem(item.product, 0 + item.quantity)];
      }
    }
    assert items[..|items|] == items;
    return byProduct;
  }
}
