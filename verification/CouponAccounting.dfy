/** Coupon accounting: the use counter of a coupon is the number of orders placed with
    it that were never given up while waiting for their payment. */
module CouponAccounting {
  import opened Wrappers
  import opened OrderStatus
  import opened Tables
  import opened Protocol
  import opened ProtocolShape
  import opened Ledger

  /** 1 when order `o` uses up one use of the coupon.  A revived order does not take
      its use back. */
  ghost function UseBy(w: World, o: OrderId, code: CouponCode): int
    requires o < |w.rows.orders| && o < |w.trails|
  {
    if w.rows.orders[o].coupon == Some(code) && CouponHeld(w.trails[o]) then 1 else 0
  }

  ghost function Uses(w: World, code: CouponCode): seq<int>
    requires |w.trails| == |w.rows.orders|
  {
    seq(|w.rows.orders|, o requires 0 <= o < |w.rows.orders| => UseBy(w, o, code))
  }

  ghost predicate CouponOk(w: World, code: CouponCode)
    requires |w.trails| == |w.rows.orders|
  {
    var c := w.rows.coupons;
    && (code in c ==> c[code].usedCount == Sum(Uses(w, code)))
    && (code !in c ==> Sum(Uses(w, code)) == 0)
    && (code in c && c[code].maxUses.Some? ==> c[code].usedCount <= c[code].maxUses.value)
  }

  /** The decrement's guard: an order that gives its use back finds one to give. */
  lemma GuardHolds(w: World, o: OrderId, to: Status)
    requires Shape(w) && o < |w.rows.orders|
    requires ReleasesCoupon(w.rows.orders[o].status, to) && w.rows.orders[o].coupon.Some?
    requires CouponOk(w, w.rows.orders[o].coupon.value)
    ensures w.rows.orders[o].coupon.value in w.rows.coupons
    ensures w.rows.coupons[w.rows.orders[o].coupon.value].usedCount > 0
    ensures CouponHeld(w.trails[o])
  {
    assert OrderShape(w, o);
    var t := w.trails[o];
    NoReentry(t);
    assert |t| == 1;
    var code := w.rows.orders[o].coupon.value;
    assert Uses(w, code)[o] == UseBy(w, o, code) == 1;
    SumAtLeast(Uses(w, code), o);
  }

  /** What a status change does to one coupon. */
  lemma CouponAfterChange(w: World, op: Op, code: CouponCode)
    requires Shape(w) && op.Change? && op.order < |w.rows.orders|
    requires TransitionNow(w.rows, op.order, op.to, op.actor, op.extra).outcome == Changed
    ensures var c, v, order := w.rows.coupons, Atomic(w, op).rows.coupons, w.rows.orders[op.order];
            && (code in v <==> code in c)
            && (code in c ==>
                  && v[code].maxUses == c[code].maxUses
                  && v[code].usedCount == c[code].usedCount -
                     if order.coupon == Some(code) && ReleasesCoupon(order.status, op.to) && c[code].usedCount > 0
                     then 1 else 0)
  {
  }

  /** What it does to the uses. */
  lemma UsesAfterChange(w: World, op: Op, code: CouponCode)
    requires Shape(w) && OpGuard(w, op) && op.Change? && Shape(Atomic(w, op))
    requires TransitionNow(w.rows, op.order, op.to, op.actor, op.extra).outcome == Changed
    ensures var order := w.rows.orders[op.order];
            Sum(Uses(Atomic(w, op), code)) == Sum(Uses(w, code)) -
              if order.coupon == Some(code) && ReleasesCoupon(order.status, op.to) && CouponHeld(w.trails[op.order])
              then 1 else 0
  {
    var v, id := Atomic(w, op), op.order;
    var order := w.rows.orders[id];
    ChangeLogged(w, op);
    StepFlags(w.trails[id], op.to);
    assert OrderShape(w, id);
    assert Uses(v, code) == Uses(w, code)[id := UseBy(v, id, code)];
    SumUpdate(Uses(w, code), id, UseBy(v, id, code));
  }

  lemma ChangeCounts(w: World, op: Op, code: CouponCode)
    requires Shape(w) && OpGuard(w, op) && op.Change? && Shape(Atomic(w, op)) && CouponOk(w, code)
    ensures CouponOk(Atomic(w, op), code)
  {
    var written := TransitionNow(w.rows, op.order, op.to, op.actor, op.extra);
    if written.outcome == Changed {
      CouponAfterChange(w, op, code);
      UsesAfterChange(w, op, code);
      var order := w.rows.orders[op.order];
      if order.coupon == Some(code) && ReleasesCoupon(order.status, op.to) {
        GuardHolds(w, op.order, op.to);
      }
    }
  }

  /** What a checkout that went through does to one coupon. */
  lemma CouponAfterPlace(w: World, op: Op, code: CouponCode)
    requires Shape(w) && OpGuard(w, op) && op.Place? && PlaceOrder(w.rows, op.picks, op.seenCoupon, op.now).Placed?
    ensures var c, v := w.rows.coupons, Atomic(w, op).rows.coupons;
            var uses := op.seenCoupon.Some? && op.seenCoupon.value.code == code;
            && (code in v <==> code in c)
            && (uses ==> code in c && (c[code].maxUses.Some? ==> c[code].usedCount < c[code].maxUses.value))
            && (code in c ==>
                  && v[code].maxUses == c[code].maxUses
                  && v[code].usedCount == c[code].usedCount + if uses then 1 else 0)
  {
  }

  lemma UsesAfterPlace(w: World, v: World, code: CouponCode)
    requires |w.trails| == |w.rows.orders| && |v.rows.orders| == |w.rows.orders| + 1
    requires v.rows.orders[..|w.rows.orders|] == w.rows.orders && v.trails == w.trails + [[PAYMENT_PENDING]]
    ensures Sum(Uses(v, code)) == Sum(Uses(w, code)) + if v.rows.orders[|w.rows.orders|].coupon == Some(code)
            then 1 else 0
  {
    var o := |w.rows.orders|;
    assert forall i :: 0 <= i < o ==> v.rows.orders[i] == v.rows.orders[..o][i];
    assert v.trails[o] == [PAYMENT_PENDING];
    assert Uses(v, code) == Uses(w, code) + [UseBy(v, o, code)];
    SumAppend(Uses(w, code), UseBy(v, o, code));
  }

  lemma PlaceCounts(w: World, op: Op, code: CouponCode)
    requires Shape(w) && OpGuard(w, op) && op.Place? && Shape(Atomic(w, op)) && CouponOk(w, code)
    ensures CouponOk(Atomic(w, op), code)
  {
    if PlaceOrder(w.rows, op.picks, op.seenCoupon, op.now).Placed? {
      PlaceParts(w, op);
      UsesAfterPlace(w, Atomic(w, op), code);
      CouponAfterPlace(w, op, code);
    }
  }

  lemma AtomicCounts(w: World, op: Op, code: CouponCode)
    requires Shape(w) && OpGuard(w, op) && CouponOk(w, code)
    ensures Shape(Atomic(w, op)) && CouponOk(Atomic(w, op), code)
  {
    AtomicShape(w, op);
    if op.Change? {
      ChangeCounts(w, op, code);
    } else if op.Place? {
      PlaceCounts(w, op, code);
    } else {
      assert Uses(Atomic(w, op), code) == Uses(w, code);
    }
  }

  /** In every reachable state the use counter of every coupon is the number of its
      orders that never gave their use back, and it never exceeds the limit, however
      many checkouts run at once. */
  lemma {:induction false} CouponUsesAreCounted(s: State, steps: seq<Step>, code: CouponCode)
    requires Initial(s) && Legal(s, steps)
    ensures Shape(End(s, steps).world) && CouponOk(End(s, steps).world, code)
  {
    RunSound(s, steps);
    if steps == [] {
      assert Uses(s.world, code) == [];
    } else {
      var before := steps[..|steps| - 1];
      CouponUsesAreCounted(s, before, code);
      RunSound(s, before);
      ExecIsAtomic(End(s, before), steps[|steps| - 1]);
      AtomicCounts(End(s, before).world, OpOf(End(s, before), steps[|steps| - 1]), code);
    }
  }

  /** So wherever a run releases a coupon use, the counter is positive. */
  lemma ReleaseFindsAUse(s: State, steps: seq<Step>, o: OrderId, to: Status)
    requires Initial(s) && Legal(s, steps)
    requires var r := End(s, steps).world.rows;
             o < |r.orders| && ReleasesCoupon(r.orders[o].status, to) && r.orders[o].coupon.Some?
    ensures var r := End(s, steps).world.rows;
            r.orders[o].coupon.value in r.coupons && r.coupons[r.orders[o].coupon.value].usedCount > 0
  {
    CouponUsesAreCounted(s, steps, End(s, steps).world.rows.orders[o].coupon.value);
    GuardHolds(End(s, steps).world, o, to);
  }

  // ---------------------------------------------------------------------
  // Discounts
  // ---------------------------------------------------------------------

  /** A coupon is good exactly when it is known, active, not expired, below its limit and
      the order is big enough.  A percentage of at most 100 takes that share of the
      subtotal, a fixed amount that amount, and neither ever more than the subtotal. */
  lemma DiscountExactly(coupon: Option<Coupon>, subtotal: real, now: int)
    requires subtotal >= 0.0
    ensures var d := CheckCoupon(coupon, subtotal, now);
            && (d.Some? <==>
                  && coupon.Some? && coupon.value.active
                  && (coupon.value.expiresAt.Some? ==> now <= coupon.value.expiresAt.value)
                  && (coupon.value.maxUses.Some? ==> coupon.value.usedCount < coupon.value.maxUses.value)
                  && (coupon.value.minOrderTotal.Some? ==> coupon.value.minOrderTotal.value <= subtotal))
            && (d.Some? ==>
                  && d.value <= subtotal
                  && (coupon.value.kind == PERCENTAGE && coupon.value.value <= 100.0 ==>
                    d.value * 100.0 == subtotal * coupon.value.value)
                  && (coupon.value.kind == PERCENTAGE && coupon.value.value >= 100.0 ==> d.value == subtotal)
                  && (coupon.value.kind == FIXED && coupon.value.value <= subtotal ==> d.value == coupon.value.value)
                  && (coupon.value.kind == FIXED && coupon.value.value >= subtotal ==> d.value == subtotal))
  {
    if CheckCoupon(coupon, subtotal, now).Some? {
      ShareOf(subtotal, coupon.value.value);
    }
  }

  lemma ShareOf(subtotal: real, percent: real)
    requires subtotal >= 0.0
    ensures subtotal * percent / 100.0 * 100.0 == subtotal * percent
    ensures percent <= 100.0 ==> subtotal * percent / 100.0 <= subtotal
    ensures percent >= 100.0 ==> subtotal * percent / 100.0 >= subtotal
  {
    if percent <= 100.0 {
      assert subtotal * (100.0 - percent) >= 0.0;
    } else {
      assert subtotal * (percent - 100.0) >= 0.0;
    }
  }
}
