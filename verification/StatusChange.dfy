/** What a status change does to the rows, described row by row, and exactly when it goes
    through. */
module StatusChange {
  import opened Wrappers
  import opened OrderStatus
  import opened Reservation
  import opened Tables
  import opened Protocol
  import opened ProtocolShape
  import opened StockConservation

  /** The extra write finds its attempt, and for a claim one whose success is not recorded. */
  predicate ExtraApplies(payments: seq<Payment>, extra: Extra) {
    match extra
    case NoExtra => true
    case ClaimPayment(p) => p < |payments| && !Claimed(payments[p])
    case ConfirmCash(p) => p < |payments|
  }

  lemma ExtraApplied(payments: seq<Payment>, o: OrderId, to: Status, extra: Extra)
    ensures WithExtra(Settle(payments, o, to), extra).Some? <==> ExtraApplies(payments, extra)
  {
  }

  lemma UnitsTaken(stock: seq<Product>, from: Status, to: Status, lines: seq<Line>)
    requires NonNegative(stock) && Edge(from, to)
    ensures MovedStock(stock, from, to, lines).Some? <==> (from == EXPIRED && to == PAID ==> Covers(stock, lines))
  {
    ReserveExactly(stock, lines);
  }

  /** A status change goes through exactly when the order exists, its actor may make it, the
      units can be taken where it takes any, and the extra write finds its attempt. */
  lemma ChangesExactly(w: World, o: OrderId, to: Status, actor: Actor, extra: Extra)
    requires Shape(w)
    ensures TransitionNow(w.rows, o, to, actor, extra).outcome == Changed <==>
              && o < |w.rows.orders| && CanTransition(actor, w.rows.orders[o].status, to)
              && (w.rows.orders[o].status == EXPIRED && to == PAID ==> Covers(w.rows.products, w.rows.orders[o].items))
              && ExtraApplies(w.rows.payments, extra)
    ensures TransitionNow(w.rows, o, to, actor, extra).outcome != Changed ==>
            Atomic(w, Change(o, to, actor, extra)) == w
  {
    RefusedNow(w, o, to, actor, extra);
    if o < |w.rows.orders| && CanTransition(actor, w.rows.orders[o].status, to) {
      var order := w.rows.orders[o];
      NoSelfEdge(actor, order.status);
      AllowedChange(w, o, to, actor, extra);
      ChangesIfBoth(w.rows, o, to, extra);
      UnitsTaken(w.rows.products, order.status, to, order.items);
      ExtraApplied(w.rows.payments, o, to, extra);
    }
  }

  lemma NoSelfEdge(actor: Actor, status: Status)
    ensures !CanTransition(actor, status, status)
  {
  }

  /** A status change moves one order, the units of its lines, one use of its coupon when it
      ends unpaid, the one attempt of its extra write, and attempts of its own order: a refund
      refunds exactly the successful ones, an end without payment fails exactly the pending
      ones, and any other change leaves them alone. */
  lemma ChangeEffect(w: World, o: OrderId, to: Status, actor: Actor, extra: Extra)
    requires Shape(w) && TransitionNow(w.rows, o, to, actor, extra).outcome == Changed
    ensures var r, v := w.rows, Atomic(w, Change(o, to, actor, extra)).rows;
            && o < |r.orders| && |v.orders| == |r.orders| && |v.payments| == |r.payments| && v.cart == r.cart
            && v.orders[o].status == to && SameOrder(r.orders[o], v.orders[o])
            && (forall u :: 0 <= u < |r.orders| && u != o ==> v.orders[u] == r.orders[u])
            && (forall p :: 0 <= p < |r.payments| ==> PaymentMoves(r.payments[p], v.payments[p], p, o, to, extra))
            && v.coupons.Keys == r.coupons.Keys
            && (forall code :: code in r.coupons ==>
                  v.coupons[code] == r.coupons[code].(usedCount :=
                    r.coupons[code].usedCount - UseGivenBack(r.coupons[code], r.orders[o].coupon == Some(code),
                      r.orders[o].status, to)))
  {
    var change := Change(o, to, actor, extra);
    OrdersMove(w, change);
    forall p | 0 <= p < |w.rows.payments|
      ensures PaymentMoves(w.rows.payments[p], Atomic(w, change).rows.payments[p], p, o, to, extra)
    {
      AttemptMoves(w.rows, o, to, extra, p);
    }
    forall code | code in w.rows.coupons
      ensures Atomic(w, change).rows.coupons[code] ==
                w.rows.coupons[code].(usedCount := w.rows.coupons[code].usedCount -
                  UseGivenBack(w.rows.coupons[code], w.rows.orders[o].coupon == Some(code), w.rows.orders[o].status,
                    to))
    {
      CouponMoves(w, change, code);
    }
  }

  lemma OrdersMove(w: World, op: Op)
    requires Shape(w) && op.Change? && TransitionNow(w.rows, op.order, op.to, op.actor, op.extra).outcome == Changed
    ensures op.order < |w.rows.orders|
    ensures var r, v := w.rows, Atomic(w, op).rows;
            && v == ChangeStatus(r, op.order, r.orders[op.order], op.to, op.extra).rows
            && v.orders == r.orders[op.order := r.orders[op.order].(status := op.to)]
            && |v.payments| == |r.payments| && v.cart == r.cart && v.coupons.Keys == r.coupons.Keys
  {
    assert OrderShape(w, op.order);
    ChangeKeeps(w.rows, op.order, w.rows.orders[op.order], op.to, op.extra);
  }

  lemma AttemptMoves(r: Rows, o: OrderId, to: Status, extra: Extra, p: PaymentId)
    requires o < |r.orders| && p < |r.payments| && ChangeStatus(r, o, r.orders[o], to, extra).outcome == Changed
    ensures var v := ChangeStatus(r, o, r.orders[o], to, extra).rows.payments;
            p < |v| && PaymentMoves(r.payments[p], v[p], p, o, to, extra)
  {
    ChangeParts(r, o, r.orders[o], to, extra);
    AttemptAfter(r.payments, ChangeStatus(r, o, r.orders[o], to, extra).rows.payments, o, to, extra, p);
  }

  lemma CouponMoves(w: World, op: Op, code: CouponCode)
    requires Shape(w) && op.Change? && TransitionNow(w.rows, op.order, op.to, op.actor, op.extra).outcome == Changed
    requires code in w.rows.coupons
    ensures op.order < |w.rows.orders| && code in Atomic(w, op).rows.coupons
    ensures var c, order := w.rows.coupons[code], w.rows.orders[op.order];
            Atomic(w, op).rows.coupons[code] ==
              c.(usedCount := c.usedCount - UseGivenBack(c, order.coupon == Some(code), order.status, op.to))
  {
  }

  /** 1 when the change gives a use of the coupon back: it is the order's, the order was never
      paid for, and there is a use to give. */
  function UseGivenBack(coupon: Coupon, own: bool, from: Status, to: Status): int {
    if own && from == PAYMENT_PENDING && to in {PAYMENT_FAILED, EXPIRED, CANCELLED} &&
      coupon.usedCount > 0 then 1 else 0
  }

  /** How one attempt may come out of a status change of order `o`. */
  ghost predicate PaymentMoves(before: Payment, after: Payment, p: PaymentId, o: OrderId, to: Status, extra: Extra) {
    && SamePayment(before, after) && before.started == after.started
    && (extra == ClaimPayment(p) || extra == ConfirmCash(p) ==> after.status == Succeeded)
    && (extra != ClaimPayment(p) && extra != ConfirmCash(p) ==>
          && (before.order != o ==> after == before)
          && (before.order == o && to == REFUNDED ==>
                after.status != Succeeded &&
                  (after != before ==> before.status == Succeeded && after.status == Refunded))
          && (before.order == o && to in {EXPIRED, CANCELLED, PAYMENT_FAILED} ==>
                after.status != Pending && (after != before ==> before.status == Pending && after.status == Failed))
          && (to !in RELEASED ==> after == before))
  }

  /** And the units of its lines, each product by the order's total demand. */
  lemma ChangeMovesDemand(w: World, o: OrderId, to: Status, actor: Actor, extra: Extra, p: ProductId)
    requires Shape(w) && TransitionNow(w.rows, o, to, actor, extra).outcome == Changed
    ensures o < |w.rows.orders| && o < |w.trails|
    ensures var v := Atomic(w, Change(o, to, actor, extra));
            var demand := Demand(w.rows.orders[o].items, p);
            && o < |v.trails|
            && Quantity(v.rows.products, p) == Quantity(w.rows.products, p) +
                 (if Held(w.trails[o]) then demand else 0) - (if Held(v.trails[o]) then demand else 0)
  {
    assert OrderShape(w, o);
    ChangeMovesStock(w.rows, o, w.rows.orders[o], to, extra, p);
    ChangeLogged(w, Change(o, to, actor, extra));
    StepMovesUnits(w.trails[o], to);
  }

  /** In statuses: the units come back when an order ends unpaid and when it is refunded out of
      PAID or PROCESSING, they are taken when an expired order is revived, and no other change
      touches the stock. */
  lemma StockMovesExactly(w: World, o: OrderId, to: Status, actor: Actor, extra: Extra, p: ProductId)
    requires Shape(w) && TransitionNow(w.rows, o, to, actor, extra).outcome == Changed
    ensures o < |w.rows.orders|
    ensures var from, demand := w.rows.orders[o].status, Demand(w.rows.orders[o].items, p);
            Quantity(Atomic(w, Change(o, to, actor, extra)).rows.products, p) == Quantity(w.rows.products, p) +
              (if (from == PAYMENT_PENDING && to in {EXPIRED, PAYMENT_FAILED, CANCELLED})
                  || (from in {PAID, PROCESSING} && to == REFUNDED) then demand
               else if from == EXPIRED && to == PAID then -(demand as int)
               else 0)
  {
    assert OrderShape(w, o);
    var order := w.rows.orders[o];
    ChangesExactly(w, o, to, actor, extra);
    ChangeMovesStock(w.rows, o, order, to, extra, p);
    FlagsInStatuses(order.status, to);
  }

  lemma FlagsInStatuses(from: Status, to: Status)
    requires Edge(from, to)
    ensures ReleasesStock(from, to) <==>
              || (from == PAYMENT_PENDING && to in {EXPIRED, PAYMENT_FAILED, CANCELLED})
              || (from in {PAID, PROCESSING} && to == REFUNDED)
    ensures ReservesStock(from, to) <==> from == EXPIRED && to == PAID
  {
  }
}
