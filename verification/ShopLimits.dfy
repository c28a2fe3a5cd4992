/** Coupon limits, released redemptions, idempotency keys, amounts and stock levels over every run of the shop. */
module ShopLimits {
  import opened Common
  import opened DeliveryStatus
  import opened Payments
  import opened Cart
  import opened Pricing
  import opened Inventory
  import opened Shop
  import opened ShopSafety

  // ------------------------------------------------------------------ coupon limits

  /** An edit that lowers no limit; 0 stands for no total limit. */
  predicate IsGentle(shop: Shop, request: Request) {
    request.EditCoupon? && request.id < |shop.coupons| ==>
      var was := shop.coupons[request.id];
      && (request.coupon.totalLimit == 0 || (was.totalLimit != 0 && was.totalLimit <= request.coupon.totalLimit))
      && was.perCustomerLimit <= request.coupon.perCustomerLimit
  }

  ghost predicate Gently(run: Trace, i: nat)
    requires i < |run.requests| && |run.states| == |run.requests| + 1
  {
    IsGentle(run.states[i], run.requests[i])
  }

  /** No request before a moment lowered a limit. */
  ghost predicate GentleUntil(run: Trace, t: nat)
    requires t <= |run.requests| && |run.states| == |run.requests| + 1
  {
    forall i: nat {:trigger Gently(run, i)} :: i < t ==> Gently(run, i)
  }

  ghost predicate WithinLimits(orders: seq<Order>, id: CouponId, coupon: Coupon) {
    && (coupon.totalLimit != 0 ==> Uses(orders, id) <= Max(0, coupon.totalLimit))
    && (forall customer :: UsesBy(orders, id, customer) <= Max(0, coupon.perCustomerLimit))
  }

  ghost predicate LimitsInv(shop: Shop) {
    && (forall c :: 0 <= c < |shop.coupons| ==> WithinLimits(shop.orders, c, shop.coupons[c]))
    && (forall i :: 0 <= i < |shop.orders| && shop.orders[i].redemption.Some? ==>
          shop.orders[i].redemption.value.coupon < |shop.coupons|)
  }

  lemma {:induction false} UsesAfterStep(orders: seq<Order>, id: OrderId, order: Order, coupon: CouponId,
                                         customer: CustomerId)
    requires id < |orders| && order.customer == orders[id].customer
    requires UsesCoupon(order, coupon) ==> UsesCoupon(orders[id], coupon)
    ensures Uses(orders[id := order], coupon) <= Uses(orders, coupon)
    ensures UsesBy(orders[id := order], coupon, customer) <= UsesBy(orders, coupon, customer)
  {
    var last := |orders| - 1;
    if id < last {
      UsesAfterStep(orders[..last], id, order, coupon, customer);
      assert orders[id := order][..last] == orders[..last][id := order];
    } else {
      assert orders[id := order][..last] == orders[..last];
    }
  }

  lemma UsesAfterOrder(orders: seq<Order>, order: Order, coupon: CouponId, customer: CustomerId)
    ensures Uses(orders + [order], coupon) == Uses(orders, coupon) + if UsesCoupon(order, coupon) then 1 else 0
    ensures UsesBy(orders + [order], coupon, customer) ==
            UsesBy(orders, coupon, customer) + if UsesCoupon(order, coupon) && order.customer == customer then 1 else 0
  {
    assert (orders + [order])[..|orders|] == orders;
  }

  lemma {:induction false} UnusedCoupon(orders: seq<Order>, coupon: CouponId, customer: CustomerId)
    requires forall i :: 0 <= i < |orders| && orders[i].redemption.Some? ==> orders[i].redemption.value.coupon != coupon
    ensures Uses(orders, coupon) == 0 && UsesBy(orders, coupon, customer) == 0
  {
    if orders != [] {
      UnusedCoupon(orders[..|orders| - 1], coupon, customer);
    }
  }

  lemma StepLimits(shop: Shop, id: OrderId, order: Order, books: Books)
    requires LimitsInv(shop) && id < |shop.orders| && OrderStep(shop.orders[id], order)
    ensures LimitsInv(shop.(orders := shop.orders[id := order], books := books))
  {
    var orders := shop.orders[id := order];
    forall c | 0 <= c < |shop.coupons| ensures WithinLimits(orders, c, shop.coupons[c]) {
      assert WithinLimits(shop.orders, c, shop.coupons[c]);
      forall customer ensures UsesBy(orders, c, customer) <= Max(0, shop.coupons[c].perCustomerLimit) {
        UsesAfterStep(shop.orders, id, order, c, customer);
      }
      UsesAfterStep(shop.orders, id, order, c, 0);
    }
  }

  /** A coupon applied at checkout had a use left, in all and for this customer. */
  lemma AppliedHadRoom(shop: Shop, request: Request, applied: Applied)
    requires request.Place?
    requires CalculateDiscount(shop.coupons, UsageFor(shop.orders, request.customer), request.code,
                               BasketOf(request), request.now) == Ok(applied)
    ensures applied.Applied? ==>
      && applied.coupon < |shop.coupons|
      && (shop.coupons[applied.coupon].totalLimit != 0 ==>
            Uses(shop.orders, applied.coupon) < shop.coupons[applied.coupon].totalLimit)
      && UsesBy(shop.orders, applied.coupon, request.customer) < shop.coupons[applied.coupon].perCustomerLimit
  {
    AppliedExactlyWhenDiscounted(shop.coupons, UsageFor(shop.orders, request.customer), request.code,
                                 BasketOf(request), request.now);
  }

  lemma PlaceLimits(shop: Shop, request: Request)
    requires LimitsInv(shop) && request.Place? && PlaceWithin(shop, request, BasketOf(request)).Ok?
    ensures LimitsInv(PlaceWithin(shop, request, BasketOf(request)).value)
  {
    var applied := CalculateDiscount(
      shop.coupons, UsageFor(shop.orders, request.customer), request.code, BasketOf(request), request.now).value;
    var order := NewOrder(request, BasketOf(request), applied);
    AppliedHadRoom(shop, request, applied);
    forall c | 0 <= c < |shop.coupons| ensures WithinLimits(shop.orders + [order], c, shop.coupons[c]) {
      assert WithinLimits(shop.orders, c, shop.coupons[c]);
      UsesAfterOrder(shop.orders, order, c, 0);
      forall customer ensures UsesBy(shop.orders + [order], c, customer) <= Max(0, shop.coupons[c].perCustomerLimit) {
        UsesAfterOrder(shop.orders, order, c, customer);
      }
    }
  }

  lemma AddLimits(shop: Shop, coupon: Coupon)
    requires LimitsInv(shop)
    ensures LimitsInv(shop.(coupons := shop.coupons + [coupon]))
  {
    var after := shop.(coupons := shop.coupons + [coupon]);
    forall c | 0 <= c < |after.coupons| ensures WithinLimits(shop.orders, c, after.coupons[c]) {
      if c < |shop.coupons| {
        assert WithinLimits(shop.orders, c, shop.coupons[c]);
      } else {
        forall customer ensures Uses(shop.orders, c) == 0 && UsesBy(shop.orders, c, customer) == 0 {
          UnusedCoupon(shop.orders, c, customer);
        }
        assert UsesBy(shop.orders, c, 0) == 0;
      }
    }
  }

  lemma EditLimits(shop: Shop, id: CouponId, coupon: Coupon)
    requires LimitsInv(shop) && id < |shop.coupons| && IsGentle(shop, EditCoupon(id, coupon))
    ensures LimitsInv(shop.(coupons := shop.coupons[id := coupon]))
  {
    var after := shop.(coupons := shop.coupons[id := coupon]);
    forall c | 0 <= c < |after.coupons| ensures WithinLimits(shop.orders, c, after.coupons[c]) {
      assert WithinLimits(shop.orders, c, shop.coupons[c]);
    }
  }

  lemma HandleLimits(start: Stock, shop: Shop, request: Request)
    requires ShopInv(start, shop) && LimitsInv(shop) && IsGentle(shop, request) && Handle(shop, request).Ok?
    ensures LimitsInv(Handle(shop, request).value)
  {
    var target := Target(shop, request);
    if target.Some? {
      assert OrderInv(shop.orders[target.value], shop.books.stock);
      AlterSteps(start, shop, request, target.value);
      var change := Alter(shop, request, target.value).value;
      StepLimits(shop, target.value, change.order, change.books);
    } else if request.Place? && Handle(shop, request).value != shop {
      PlaceLimits(shop, request);
    } else if request.AddCoupon? {
      AddLimits(shop, request.coupon);
    } else if request.EditCoupon? {
      EditLimits(shop, request.id, request.coupon);
    }
  }

  lemma {:induction false} LimitsHold(start: Stock, run: Trace, t: nat)
    requires IsRun(start, run) && t < |run.states| && GentleUntil(run, t)
    ensures LimitsInv(run.states[t])
  {
    if t > 0 {
      LimitsHold(start, run, t - 1);
      RunKeeps(start, run, t - 1);
      assert Leads(run, t - 1) && Gently(run, t - 1);
      if Handle(run.states[t - 1], run.requests[t - 1]).Ok? {
        HandleLimits(start, run.states[t - 1], run.requests[t - 1]);
      }
    }
  }

  /**
   * While no limit is lowered, reserved and redeemed uses of a coupon stay within its limits, in all and
   * per customer.
   */
  lemma CouponLimitsHold(start: Stock, run: Trace, t: nat, c: CouponId, customer: CustomerId)
    requires IsRun(start, run) && t < |run.states|
    requires GentleUntil(run, t) && c < |run.states[t].coupons|
    ensures var shop := run.states[t];
      && (shop.coupons[c].totalLimit > 0 ==> Uses(shop.orders, c) <= shop.coupons[c].totalLimit)
      && (shop.coupons[c].perCustomerLimit > 0 ==> UsesBy(shop.orders, c, customer) <= shop.coupons[c].perCustomerLimit)
  {
    LimitsHold(start, run, t);
    var shop := run.states[t];
    assert WithinLimits(shop.orders, c, shop.coupons[c]);
  }

  // ------------------------------------------------------------------- what lasts

  /** Orders are never removed, and each takes only allowed steps. */
  ghost predicate OrdersGrow(before: Shop, after: Shop) {
    && |before.orders| <= |after.orders|
    && (forall i :: 0 <= i < |before.orders| ==> OrderStep(before.orders[i], after.orders[i]))
  }

  lemma TargetSteps(start: Stock, shop: Shop, request: Request, id: OrderId)
    requires ShopInv(start, shop) && Target(shop, request) == Some(id) && id < |shop.orders|
    requires Alter(shop, request, id).Ok?
    ensures OrderStep(shop.orders[id], Alter(shop, request, id).value.order)
  {
    assert OrderInv(shop.orders[id], shop.books.stock);
    AlterSteps(start, shop, request, id);
  }

  lemma HandleGrows(start: Stock, shop: Shop, request: Request)
    requires ShopInv(start, shop)
    ensures OrdersGrow(shop, Next(shop, request))
  {
    if Handle(shop, request).Ok? {
      OrdersAfter(shop, request);
      if Target(shop, request).Some? {
        TargetSteps(start, shop, request, Target(shop, request).value);
      }
    }
  }

  lemma GrowsTransitive(a: Shop, b: Shop, c: Shop)
    requires OrdersGrow(a, b) && OrdersGrow(b, c)
    ensures OrdersGrow(a, c)
  {
    forall i | 0 <= i < |a.orders| ensures OrderStep(a.orders[i], c.orders[i]) {
      StepTransitive(a.orders[i], b.orders[i], c.orders[i]);
    }
  }

  lemma StepGrows(start: Stock, run: Trace, t: nat)
    requires IsRun(start, run) && t < |run.requests|
    ensures OrdersGrow(run.states[t], run.states[t + 1])
  {
    RunKeeps(start, run, t);
    assert Leads(run, t);
    HandleGrows(start, run.states[t], run.requests[t]);
  }

  lemma {:induction false} RunGrows(start: Stock, run: Trace, t: nat, later: nat)
    requires IsRun(start, run) && t <= later < |run.states|
    ensures OrdersGrow(run.states[t], run.states[later])
  {
    if t < later {
      RunGrows(start, run, t, later - 1);
      StepGrows(start, run, later - 1);
      GrowsTransitive(run.states[t], run.states[later - 1], run.states[later]);
    }
  }

  /**
   * Whatever happens later, an order keeps its customer, store, payment amount and discount, has the one
   * redemption it was placed with or none, and a redemption once released is never used again.
   */
  lemma ReleasedIsFinal(start: Stock, run: Trace, t: nat, later: nat, id: OrderId)
    requires IsRun(start, run) && t <= later < |run.states| && id < |run.states[t].orders|
    ensures id < |run.states[later].orders|
    ensures var before, after := run.states[t].orders[id], run.states[later].orders[id];
      && after.customer == before.customer && after.store == before.store
      && after.payment.amount == before.payment.amount
      && (after.redemption.Some? <==> before.redemption.Some?)
      && (before.redemption.Some? ==>
            && after.redemption.value.coupon == before.redemption.value.coupon
            && after.redemption.value.discount == before.redemption.value.discount
            && (before.redemption.value.status.Released? ==> after.redemption.value.status.Released?))
  {
    RunGrows(start, run, t, later);
  }

  /** The order, its payment and its redemption carry the same amounts. */
  lemma CommittedAmountsAgree(start: Stock, run: Trace, t: nat, id: OrderId)
    requires IsRun(start, run) && t < |run.states|
    requires id < |run.states[t].orders|
    ensures var order := run.states[t].orders[id];
      && 0 <= order.payment.amount
      && (order.redemption.Some? <==> order.discount > 0)
      && (order.redemption.Some? ==> order.redemption.value.discount == order.discount)
      && (!WasSubstituted(order) ==> order.payment.amount == order.total == order.subtotal + order.fee - order.discount)
  {
    RunKeeps(start, run, t);
    var shop := run.states[t];
    assert OrderInv(shop.orders[id], shop.books.stock);
  }

  // ---------------------------------------------------------------- idempotency keys

  ghost predicate KeysInv(orders: seq<Order>) {
    forall i, k :: 0 <= i < k < |orders| && orders[i].key.Some? ==> orders[i].key != orders[k].key
  }

  lemma KeysAfterOrder(orders: seq<Order>, order: Order)
    requires KeysInv(orders) && (order.key.Some? ==> FindKey(orders, order.key.value).None?)
    ensures KeysInv(orders + [order])
  {
    if order.key.Some? {
      var found := FindKey(orders, order.key.value);
      assert forall i :: 0 <= i < |orders| ==> orders[i].key != order.key;
    }
  }

  lemma HandleKeys(start: Stock, shop: Shop, request: Request)
    requires ShopInv(start, shop) && KeysInv(shop.orders)
    ensures KeysInv(Next(shop, request).orders)
  {
    if Handle(shop, request).Ok? {
      var after := Handle(shop, request).value.orders;
      OrdersAfter(shop, request);
      if Target(shop, request).Some? {
        HandleGrows(start, shop, request);
      } else if after != shop.orders {
        KeysAfterOrder(shop.orders, after[|shop.orders|]);
      }
    }
  }

  /** At most one order is made under an idempotency key. */
  lemma {:induction false} OneOrderPerKey(start: Stock, run: Trace, t: nat)
    requires IsRun(start, run) && t < |run.states|
    ensures KeysInv(run.states[t].orders)
  {
    if t > 0 {
      OneOrderPerKey(start, run, t - 1);
      RunKeeps(start, run, t - 1);
      assert Leads(run, t - 1);
      HandleKeys(start, run.states[t - 1], run.requests[t - 1]);
    }
  }
}
