/** Coupons: which rules are valid, when a coupon is accepted, what it takes off, and which one is picked. */
module Pricing {
  import opened Common
  import opened Cart

  type CouponId = nat
  type CustomerId = nat
  type StoreId = nat
  type CategoryId = nat

  const MAX_BPS := 10000
  const AUTO_LIMIT := 20

  datatype CouponStatus = Draft | Scheduled | Active | Paused | Archived

  datatype DiscountType = Percentage | FixedAmount | FreeDelivery

  datatype Scope = AllItems | SomeProducts | SomeCategories

  /** A coupon row; an absent amount, cap or limit is 0, which the rules treat the same way. */
  datatype Coupon = Coupon(
    code: string,
    automatic: bool,
    status: CouponStatus,
    startsAt: Option<int>,
    endsAt: Option<int>,
    store: Option<StoreId>,
    minimumSubtotal: int,
    firstOrderOnly: bool,
    totalLimit: int,
    perCustomerLimit: int,
    kind: DiscountType,
    bps: int,
    amount: int,
    maxDiscount: int,
    scope: Scope,
    products: set<ProductId>,
    categories: set<CategoryId>,
    priority: int)

  datatype Listing = Listing(category: CategoryId, unitPaise: int)

  type Catalog = map<ProductId, Listing>

  /** What is being priced: merged lines, the prices they were quoted at, and the delivery fee. */
  datatype Basket = Basket(store: StoreId, items: seq<CartItem>, catalog: Catalog, fee: int)

  /** How often a coupon is in use, in all and by the customer, and how many orders the customer already has. */
  datatype Usage = Usage(total: nat, byCustomer: nat, priorOrders: nat)

  function UnitPrice(catalog: Catalog): ProductId -> int {
    (p: ProductId) => if p in catalog then catalog[p].unitPaise else 0
  }

  predicate IsEligible(catalog: Catalog, coupon: Coupon, product: ProductId) {
    match coupon.scope
    case AllItems => true
    case SomeProducts => product in coupon.products
    case SomeCategories => product in catalog && catalog[product].category in coupon.categories
  }

  function EligiblePrice(catalog: Catalog, coupon: Coupon): ProductId -> int {
    (p: ProductId) => if IsEligible(catalog, coupon, p) then UnitPrice(catalog)(p) else 0
  }

  function Subtotal(basket: Basket): int {
    Worth(basket.items, UnitPrice(basket.catalog))
  }

  function EligibleSubtotal(basket: Basket, coupon: Coupon): int {
    if coupon.scope.AllItems? then Subtotal(basket)
    else Worth(basket.items, EligiblePrice(basket.catalog, coupon))
  }

  /** The rule check made whenever a coupon is created or changed. */
  function ValidateRule(coupon: Coupon): Result<()> {
    if coupon.kind.Percentage? && (coupon.bps < 1 || coupon.bps > MAX_BPS) then Err(BadRequest)
    else if coupon.kind.FixedAmount? && coupon.amount < 1 then Err(BadRequest)
    else if coupon.scope.SomeProducts? && coupon.products == {} then Err(BadRequest)
    else if coupon.scope.SomeCategories? && coupon.categories == {} then Err(BadRequest)
    else Ok(())
  }

  predicate IsLive(coupon: Coupon, now: int) {
    && (coupon.status.Active? || coupon.status.Scheduled?)
    && (coupon.startsAt.Some? ==> coupon.startsAt.value <= now)
    && (coupon.endsAt.Some? ==> now < coupon.endsAt.value)
  }

  /** What the rule takes off before it is clamped to the order. */
  function RawDiscount(coupon: Coupon, eligible: int, fee: int): int {
    match coupon.kind
    case Percentage =>
      var share := eligible * coupon.bps / MAX_BPS;
      if coupon.maxDiscount != 0 then Min(share, coupon.maxDiscount) else share
    case FixedAmount => Min(coupon.amount, eligible)
    case FreeDelivery => fee
  }

  datatype Discount = Discount(paise: int, eligible: int)

  function Evaluate(coupon: Coupon, usage: Usage, basket: Basket, now: int): Result<Discount> {
    if !IsLive(coupon, now) then Err(BadRequest)
    else if coupon.store.Some? && coupon.store.value != basket.store then Err(BadRequest)
    else if Subtotal(basket) < coupon.minimumSubtotal then Err(BadRequest)
    else if coupon.firstOrderOnly && usage.priorOrders > 0 then Err(BadRequest)
    else if coupon.totalLimit != 0 && usage.total >= coupon.totalLimit then Err(BadRequest)
    else if usage.byCustomer >= coupon.perCustomerLimit then Err(BadRequest)
    else
      var eligible := EligibleSubtotal(basket, coupon);
      if eligible <= 0 then Err(BadRequest)
      else
        var paise := Max(0, Min(RawDiscount(coupon, eligible, basket.fee), Subtotal(basket) + basket.fee));
        if paise <= 0 then Err(BadRequest) else Ok(Discount(paise, eligible))
  }

  // ------------------------------------------------------------------ one coupon

  ghost predicate PricesFair(basket: Basket) {
    && (forall i :: 0 <= i < |basket.items| ==> basket.items[i].quantity >= 0)
    && (forall p :: p in basket.catalog ==> basket.catalog[p].unitPaise >= 0)
    && basket.fee >= 0
  }

  lemma {:induction false} EligibleWithin(items: seq<CartItem>, catalog: Catalog, coupon: Coupon)
    requires forall i :: 0 <= i < |items| ==> items[i].quantity >= 0
    requires forall p :: p in catalog ==> catalog[p].unitPaise >= 0
    ensures 0 <= Worth(items, EligiblePrice(catalog, coupon)) <= Worth(items, UnitPrice(catalog))
  {
    if items != [] {
      var last := items[|items| - 1];
      EligibleWithin(items[..|items| - 1], catalog, coupon);
      var price := UnitPrice(catalog)(last.product);
      assert 0 <= price * last.quantity;
    }
  }

  /** No coupon takes off more than its eligible lines, except free delivery, and none more than the order. */
  lemma DiscountBounds(coupon: Coupon, usage: Usage, basket: Basket, now: int)
    requires PricesFair(basket) && ValidateRule(coupon).Ok?
    requires Evaluate(coupon, usage, basket, now).Ok?
    ensures var discount := Evaluate(coupon, usage, basket, now).value;
      && 0 < discount.paise <= Subtotal(basket) + basket.fee
      && 0 < discount.eligible <= Subtotal(basket)
      && (coupon.kind.FreeDelivery? ==> discount.paise == basket.fee)
      && (!coupon.kind.FreeDelivery? ==> discount.paise <= discount.eligible)
      && (coupon.kind.Percentage? && coupon.maxDiscount != 0 ==> discount.paise <= coupon.maxDiscount)
  {
    EligibleWithin(basket.items, basket.catalog, coupon);
    var eligible := EligibleSubtotal(basket, coupon);
    if coupon.kind.Percentage? {
      ShareWithin(eligible, coupon.bps);
    }
  }

  lemma ShareWithin(eligible: int, bps: int)
    requires 0 <= eligible && 0 <= bps <= MAX_BPS
    ensures 0 <= eligible * bps / MAX_BPS <= eligible
  {
    assert eligible * bps <= eligible * MAX_BPS;
  }

  /** An uncapped percentage is rounded down to a whole paisa and never further. */
  lemma PercentageRoundsDown(coupon: Coupon, usage: Usage, basket: Basket, now: int)
    requires PricesFair(basket) && ValidateRule(coupon).Ok?
    requires coupon.kind.Percentage? && coupon.maxDiscount == 0 && Evaluate(coupon, usage, basket, now).Ok?
    ensures var discount := Evaluate(coupon, usage, basket, now).value;
      discount.paise * MAX_BPS <= discount.eligible * coupon.bps < (discount.paise + 1) * MAX_BPS
  {
    DiscountBounds(coupon, usage, basket, now);
    EligibleWithin(basket.items, basket.catalog, coupon);
    ShareWithin(EligibleSubtotal(basket, coupon), coupon.bps);
  }

  /** When a valid coupon is accepted: it is live, meant for this order, within its limits, and worth a paisa. */
  lemma AcceptedExactlyWhen(coupon: Coupon, usage: Usage, basket: Basket, now: int)
    requires PricesFair(basket) && ValidateRule(coupon).Ok?
    ensures Evaluate(coupon, usage, basket, now).Ok? <==>
      && IsLive(coupon, now)
      && (coupon.store.Some? ==> coupon.store.value == basket.store)
      && coupon.minimumSubtotal <= Subtotal(basket)
      && (coupon.firstOrderOnly ==> usage.priorOrders == 0)
      && (coupon.totalLimit == 0 || usage.total < coupon.totalLimit)
      && usage.byCustomer < coupon.perCustomerLimit
      && 0 < EligibleSubtotal(basket, coupon)
      && (match coupon.kind
          case Percentage =>
            MAX_BPS <= EligibleSubtotal(basket, coupon) * coupon.bps && 0 <= coupon.maxDiscount
          case FixedAmount => true
          case FreeDelivery => 0 < basket.fee)
  {
    EligibleWithin(basket.items, basket.catalog, coupon);
    if coupon.kind.Percentage? {
      ShareWithin(EligibleSubtotal(basket, coupon), coupon.bps);
    }
  }

  // ---------------------------------------------------------------- which coupon

  /** Where a coupon code is found; codes are unique. */
  function FindCode(coupons: seq<Coupon>, code: string): (found: Option<CouponId>)
    ensures found.Some? ==> found.value < |coupons| && coupons[found.value].code == code
    ensures found.None? ==> forall i :: 0 <= i < |coupons| ==> coupons[i].code != code
  {
    if coupons == [] then None
    else if coupons[|coupons| - 1].code == code then Some(|coupons| - 1)
    else FindCode(coupons[..|coupons| - 1], code)
  }

  predicate IsCandidate(coupon: Coupon, store: StoreId, now: int) {
    coupon.automatic && IsLive(coupon, now) && (coupon.store.Some? ==> coupon.store.value == store)
  }

  /** Higher priority first, and the older coupon first among equals. */
  predicate Before(coupons: seq<Coupon>, a: CouponId, b: CouponId)
    requires a < |coupons| && b < |coupons|
  {
    coupons[a].priority > coupons[b].priority || (coupons[a].priority == coupons[b].priority && a < b)
  }

  ghost predicate AllKnown(coupons: seq<Coupon>, ids: seq<CouponId>) {
    forall i :: 0 <= i < |ids| ==> ids[i] < |coupons|
  }

  ghost predicate Ranked(coupons: seq<Coupon>, ids: seq<CouponId>) {
    AllKnown(coupons, ids) && forall i, k :: 0 <= i < k < |ids| ==> Before(coupons, ids[i], ids[k])
  }

  /** Puts a newer coupon behind every coupon of at least its priority. */
  function Insert(coupons: seq<Coupon>, ids: seq<CouponId>, id: CouponId): (ranked: seq<CouponId>)
    requires AllKnown(coupons, ids) && id < |coupons|
    ensures AllKnown(coupons, ranked) && |ranked| == |ids| + 1
  {
    if ids == [] then [id]
    else if coupons[ids[|ids| - 1]].priority >= coupons[id].priority then ids + [id]
    else Insert(coupons, ids[..|ids| - 1], id) + [ids[|ids| - 1]]
  }

  /** Every candidate among the first n coupons, ranked. */
  function RankCandidates(coupons: seq<Coupon>, n: nat, store: StoreId, now: int): (ranked: seq<CouponId>)
    requires n <= |coupons|
    ensures AllKnown(coupons, ranked)
  {
    if n == 0 then []
    else
      var earlier := RankCandidates(coupons, n - 1, store, now);
      if IsCandidate(coupons[n - 1], store, now) then Insert(coupons, earlier, n - 1) else earlier
  }

  /** The automatic coupons that are looked at, best first. */
  function Considered(coupons: seq<Coupon>, store: StoreId, now: int): (ids: seq<CouponId>)
    ensures AllKnown(coupons, ids) && |ids| <= AUTO_LIMIT
  {
    var ranked := RankCandidates(coupons, |coupons|, store, now);
    if |ranked| <= AUTO_LIMIT then ranked else ranked[..AUTO_LIMIT]
  }

  datatype Applied = NoCoupon | Applied(coupon: CouponId, paise: int, eligible: int)

  function DiscountOf(applied: Applied): int {
    match applied
    case NoCoupon => 0
    case Applied(_, paise, _) => paise
  }

  function CouponOf(applied: Applied): Option<CouponId> {
    match applied
    case NoCoupon => None
    case Applied(coupon, _, _) => Some(coupon)
  }

  /** The first of some coupons that is accepted. */
  function FirstAccepted(coupons: seq<Coupon>, ids: seq<CouponId>, uses: CouponId -> Usage, basket: Basket,
                         now: int): Applied
    requires AllKnown(coupons, ids)
  {
    if ids == [] then NoCoupon
    else
      var result := Evaluate(coupons[ids[0]], uses(ids[0]), basket, now);
      if result.Ok? then Applied(ids[0], result.value.paise, result.value.eligible)
      else FirstAccepted(coupons, ids[1..], uses, basket, now)
  }

  /** A coupon code is applied or refused; without a code the best automatic coupon that is accepted applies. */
  function CalculateDiscount(coupons: seq<Coupon>, uses: CouponId -> Usage, code: Option<string>, basket: Basket,
                             now: int)
    : Result<Applied>
  {
    if code.Some? then
      var found := FindCode(coupons, code.value);
      if found.None? then Err(BadRequest)
      else
        var discount :- Evaluate(coupons[found.value], uses(found.value), basket, now);
        Ok(Applied(found.value, discount.paise, discount.eligible))
    else Ok(FirstAccepted(coupons, Considered(coupons, basket.store, now), uses, basket, now))
  }

  lemma {:induction false} InsertRanks(coupons: seq<Coupon>, ids: seq<CouponId>, id: CouponId)
    requires Ranked(coupons, ids) && id < |coupons|
    requires forall i :: 0 <= i < |ids| ==> ids[i] < id
    ensures Ranked(coupons, Insert(coupons, ids, id))
    ensures forall x :: x in Insert(coupons, ids, id) <==> x in ids || x == id
  {
    if ids != [] {
      var front, last := ids[..|ids| - 1], ids[|ids| - 1];
      assert ids == front + [last];
      if coupons[last].priority < coupons[id].priority {
        InsertRanks(coupons, front, id);
        var inserted := Insert(coupons, front, id);
        forall i | 0 <= i < |inserted| ensures Before(coupons, inserted[i], last) {
          assert inserted[i] in front || inserted[i] == id;
        }
      }
    }
  }

  /** The ranking lists exactly the candidates, each once, in order. */
  lemma {:induction false} RankingIsRight(coupons: seq<Coupon>, n: nat, store: StoreId, now: int)
    requires n <= |coupons|
    ensures var ranked := RankCandidates(coupons, n, store, now);
      && Ranked(coupons, ranked)
      && (forall id: CouponId :: id in ranked <==> id < n && IsCandidate(coupons[id], store, now))
  {
    if n > 0 {
      RankingIsRight(coupons, n - 1, store, now);
      var earlier := RankCandidates(coupons, n - 1, store, now);
      forall i | 0 <= i < |earlier| ensures earlier[i] < n - 1 {
        assert earlier[i] in earlier;
      }
      InsertRanks(coupons, earlier, n - 1);
    }
  }

  lemma {:induction false} FirstIsBest(coupons: seq<Coupon>, ids: seq<CouponId>, uses: CouponId -> Usage,
                                       basket: Basket, now: int)
    requires Ranked(coupons, ids)
    ensures match FirstAccepted(coupons, ids, uses, basket, now)
      case NoCoupon => forall id :: id in ids ==> Evaluate(coupons[id], uses(id), basket, now).Err?
      case Applied(id, paise, eligible) =>
        && id in ids
        && Evaluate(coupons[id], uses(id), basket, now) == Ok(Discount(paise, eligible))
        && (forall other :: other in ids && other != id && Evaluate(coupons[other], uses(other), basket, now).Ok? ==>
              Before(coupons, id, other))
  {
    if ids != [] && Evaluate(coupons[ids[0]], uses(ids[0]), basket, now).Err? {
      FirstIsBest(coupons, ids[1..], uses, basket, now);
      assert ids == [ids[0]] + ids[1..];
    }
  }

  /**
   * Without a code the customer gets the best-ranked automatic coupon that this order qualifies for, as
   * long as it is among the twenty best-ranked candidates, and nothing exactly when none of those applies.
   */
  lemma AutomaticPicksBest(coupons: seq<Coupon>, uses: CouponId -> Usage, basket: Basket, now: int)
    ensures CalculateDiscount(coupons, uses, None, basket, now).Ok?
    ensures var ids := Considered(coupons, basket.store, now);
      && |ids| <= 20
      && (forall id :: id in ids ==> IsCandidate(coupons[id], basket.store, now))
      && (forall id: CouponId, other ::
            (id < |coupons| && IsCandidate(coupons[id], basket.store, now) && id !in ids && other in ids)
            ==> Before(coupons, other, id))
      && match CalculateDiscount(coupons, uses, None, basket, now).value
         case NoCoupon => forall id :: id in ids ==> Evaluate(coupons[id], uses(id), basket, now).Err?
         case Applied(id, _, _) =>
           && id in ids
           && (forall other :: other in ids && other != id && Evaluate(coupons[other], uses(other), basket, now).Ok? ==>
                 Before(coupons, id, other))
  {
    RankingIsRight(coupons, |coupons|, basket.store, now);
    var ranked := RankCandidates(coupons, |coupons|, basket.store, now);
    var ids := Considered(coupons, basket.store, now);
    FirstIsBest(coupons, ids, uses, basket, now);
    assert forall k :: 0 <= k < |ids| ==> ranked[k] == ids[k] && ids[k] in ids;
    forall id: CouponId, other
      | id < |coupons| && IsCandidate(coupons[id], basket.store, now) && id !in ids && other in ids
      ensures Before(coupons, other, id)
    {
      assert id in ranked;
      var k :| 0 <= k < |ranked| && ranked[k] == id;
      var i :| 0 <= i < |ids| && ids[i] == other;
    }
  }

  /** A discount is charged exactly when a coupon is named. */
  lemma AppliedExactlyWhenDiscounted(coupons: seq<Coupon>, uses: CouponId -> Usage, code: Option<string>,
                                     basket: Basket, now: int)
    requires CalculateDiscount(coupons, uses, code, basket, now).Ok?
    ensures var applied := CalculateDiscount(coupons, uses, code, basket, now).value;
      && (applied.Applied? <==> DiscountOf(applied) > 0)
      && 0 <= DiscountOf(applied)
      && (applied.Applied? ==>
            && applied.coupon < |coupons|
            && Evaluate(coupons[applied.coupon], uses(applied.coupon), basket, now) ==
               Ok(Discount(applied.paise, applied.eligible))
            && applied.paise <= Subtotal(basket) + basket.fee)
  {
    if code.None? {
      RankingIsRight(coupons, |coupons|, basket.store, now);
      FirstIsBest(coupons, Considered(coupons, basket.store, now), uses, basket, now);
    }
  }

  // --------------------------------------------------------- splitting and order

  lemma SameEvaluation(a: Basket, b: Basket, coupon: Coupon, usage: Usage, now: int)
    requires a.store == b.store && a.catalog == b.catalog && a.fee == b.fee
    requires Worth(a.items, UnitPrice(a.catalog)) == Worth(b.items, UnitPrice(a.catalog))
    requires Worth(a.items, EligiblePrice(a.catalog, coupon)) == Worth(b.items, EligiblePrice(a.catalog, coupon))
    ensures Evaluate(coupon, usage, a, now) == Evaluate(coupon, usage, b, now)
  {
  }

  lemma {:induction false} SameFirst(coupons: seq<Coupon>, ids: seq<CouponId>, uses: CouponId -> Usage, a: Basket,
                                     b: Basket, now: int)
    requires AllKnown(coupons, ids)
    requires forall coupon, usage :: Evaluate(coupon, usage, a, now) == Evaluate(coupon, usage, b, now)
    ensures FirstAccepted(coupons, ids, uses, a, now) == FirstAccepted(coupons, ids, uses, b, now)
  {
    if ids != [] {
      SameFirst(coupons, ids[1..], uses, a, b, now);
    }
  }

  /** However a cart is split or ordered, the merged basket gets the same coupon, discount and subtotal. */
  lemma SplittingChangesNoPrice(coupons: seq<Coupon>, uses: CouponId -> Usage, code: Option<string>,
                                raw: seq<CartItem>, other: seq<CartItem>, store: StoreId, catalog: Catalog,
                                fee: int, now: int)
    requires SameCart(raw, other)
    ensures var a := Basket(store, Normalize(raw), catalog, fee);
      var b := Basket(store, Normalize(other), catalog, fee);
      && Subtotal(a) == Subtotal(b) == Worth(raw, UnitPrice(catalog))
      && CalculateDiscount(coupons, uses, code, a, now) == CalculateDiscount(coupons, uses, code, b, now)
  {
    var a := Basket(store, Normalize(raw), catalog, fee);
    var b := Basket(store, Normalize(other), catalog, fee);
    SplittingChangesNothing(raw, other, UnitPrice(catalog));
    forall coupon, usage ensures Evaluate(coupon, usage, a, now) == Evaluate(coupon, usage, b, now) {
      SplittingChangesNothing(raw, other, EligiblePrice(catalog, coupon));
      SameEvaluation(a, b, coupon, usage, now);
    }
    SameFirst(coupons, Considered(coupons, store, now), uses, a, b, now);
  }

  // ------------------------------------------------------------------- the service

  class PromotionsService {
    constructor () {
    }

    method EvaluateCoupon(coupon: Coupon, usage: Usage, basket: Basket, now: int) returns (result: Result<Discount>)
      ensures result == Evaluate(coupon, usage, basket, now)
    {
      if !coupon.status.Active? && !coupon.status.Scheduled? {
        return Err(BadRequest);
      }
      if coupon.startsAt.Some? && coupon.startsAt.value > now {
        return Err(BadRequest);
      }
      if coupon.endsAt.Some? && coupon.endsAt.value <= now {
        return Err(BadRequest);
      }
      if coupon.store.Some? && coupon.store.value != basket.store {
        return Err(BadRequest);
      }
      if Subtotal(basket) < coupon.minimumSubtotal {
        return Err(BadRequest);
      }
      if coupon.firstOrderOnly && usage.priorOrders > 0 {
        return Err(BadRequest);
      }
      if coupon.totalLimit != 0 && usage.total >= coupon.totalLimit {
        return Err(BadRequest);
      }
      if usage.byCustomer >= coupon.perCustomerLimit {
        return Err(BadRequest);
      }
      var eligible := Subtotal(basket);
      if !coupon.scope.AllItems? {
        eligible := Worth(basket.items, EligiblePrice(basket.catalog, coupon));
      }
      if eligible <= 0 {
        return Err(BadRequest);
      }
      var discount := 0;
      if coupon.kind.Percentage? {
        discount := eligible * coupon.bps / MAX_BPS;
        if coupon.maxDiscount != 0 {
          discount := Min(discount, coupon.maxDiscount);
        }
      } else if coupon.kind.FixedAmount? {
        discount := Min(coupon.amount, eligible);
      } else {
        discount := basket.fee;
      }
      discount := Max(0, Min(discount, Subtotal(basket) + basket.fee));
      if discount <= 0 {
        return Err(BadRequest);
      }
      return Ok(Discount(discount, eligible));
    }

    /** Tries the automatic coupons in rank order and keeps the first that is accepted. */
    method CalculateDiscountFor(coupons: seq<Coupon>, uses: CouponId -> Usage, code: Option<string>, basket: Basket,
                                now: int)
      returns (result: Result<Applied>)
      ensures result == CalculateDiscount(coupons, uses, code, basket, now)
    {
      if code.Some? {
        var found := FindCode(coupons, code.value);
        if found.None? {
          return Err(BadRequest);
        }
        var evaluated := EvaluateCoupon(coupons[found.value], uses(found.value), basket, now);
        if evaluated.Err? {
          return Err(evaluated.error);
        }
        return Ok(Applied(found.value, evaluated.value.paise, evaluated.value.eligible));
      }
      var candidates := Considered(coupons, basket.store, now);
      for i := 0 to |candidates|
        invariant FirstAccepted(coupons, candidates, uses, basket, now) ==
                  FirstAccepted(coupons, candidates[i..], uses, basket, now)
      {
        var evaluated := EvaluateCoupon(coupons[candidates[i]], uses(candidates[i]), basket, now);
        if evaluated.Ok? {
          return Ok(Applied(candidates[i], evaluated.value.paise, evaluated.value.eligible));
        }
        assert candidates[i..][1..] == candidates[i + 1..];
      }
      return Ok(NoCoupon);
    }
  }
}
