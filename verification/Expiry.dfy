/** The expiry job: gives back the stock of orders nobody paid for in time.  All times
    are milliseconds. */
module Expiry {
  import opened Wrappers
  import opened OrderStatus
  import opened Reservation
  import opened Tables
  import opened Protocol
  import opened ProtocolShape
  import opened StockConservation
  import opened StatusChange
  import opened ShopServices
  import opened Reports

  const BATCH_SIZE: nat := 100

  predicate WaitsForCash(r: Rows, o: OrderId) {
    HasPendingCash(r.payments, o)
  }

  /** The latest of the order's creation and its payment attempts. */
  function LastActivity(r: Rows, o: OrderId, n: nat): int
    requires o < |r.orders| && n <= |r.payments|
  {
    if n == 0 then r.orders[o].createdAt
    else
      var before := LastActivity(r, o, n - 1);
      if r.payments[n - 1].order == o && r.payments[n - 1].createdAt > before
      then r.payments[n - 1].createdAt
      else before
  }

  function Idle(r: Rows, o: OrderId, now: int): int
    requires o < |r.orders|
  {
    now - LastActivity(r, o, |r.payments|)
  }

  function Min(a: int, b: int): int {
    if a < b then a else b
  }

  /** The time limits, in milliseconds. */
  datatype Limits = Limits(online: int, cash: int) {
    function Of(r: Rows, o: OrderId): int {
      if WaitsForCash(r, o) then cash else online
    }
  }

  predicate Candidate(r: Rows, o: OrderId, now: int, limits: Limits) {
    && o < |r.orders|
    && r.orders[o].status == PAYMENT_PENDING
    && r.orders[o].createdAt < now - Min(limits.online, limits.cash)
  }

  /** The answer of the candidates query: oldest first, at most one batch. */
  ghost predicate IsBatch(r: Rows, batch: seq<OrderId>, now: int, limits: Limits) {
    && |batch| <= BATCH_SIZE
    && (forall i :: 0 <= i < |batch| ==> Candidate(r, batch[i], now, limits))
    && (forall i, j :: 0 <= i < j < |batch| ==> batch[i] != batch[j])
    && (forall i, j :: 0 <= i < j < |batch| ==> r.orders[batch[i]].createdAt <= r.orders[batch[j]].createdAt)
    && (forall o: OrderId :: Candidate(r, o, now, limits) && o !in batch ==>
          |batch| == BATCH_SIZE && forall i :: 0 <= i < |batch| ==>
            r.orders[batch[i]].createdAt <= r.orders[o].createdAt)
  }

  /** `v` differs from `r` in order `o` and its payments, and in the stock and the
      coupons, only. */
  ghost predicate OnlyOrder(r: Rows, v: Rows, o: OrderId) {
    && |v.orders| == |r.orders| && |v.payments| == |r.payments|
    && (forall u :: 0 <= u < |r.orders| && u != o ==> v.orders[u] == r.orders[u])
    && (forall p :: 0 <= p < |r.payments| && r.payments[p].order != o ==> v.payments[p] == r.payments[p])
    && (forall u :: 0 <= u < |r.orders| ==> SameOrder(r.orders[u], v.orders[u]))
    && (forall p :: 0 <= p < |r.payments| ==> SamePayment(r.payments[p], v.payments[p]))
  }

  lemma OnlyOrderTwice(r: Rows, u: Rows, v: Rows, o: OrderId)
    requires OnlyOrder(r, u, o) && OnlyOrder(u, v, o)
    ensures OnlyOrder(r, v, o)
  {
    forall p | 0 <= p < |r.payments| && r.payments[p].order != o ensures v.payments[p] == r.payments[p] {
      assert SamePayment(r.payments[p], u.payments[p]);
    }
  }

  /** Neither the order nor any of its payments changed. */
  ghost predicate Untouched(r: Rows, v: Rows, o: OrderId) {
    && |v.orders| == |r.orders| && |v.payments| == |r.payments|
    && (o < |r.orders| ==> v.orders[o] == r.orders[o])
    && (forall p :: 0 <= p < |r.payments| ==> SamePayment(r.payments[p], v.payments[p]))
    && (forall p :: 0 <= p < |r.payments| && r.payments[p].order == o ==> v.payments[p] == r.payments[p])
  }

  lemma UntouchedAlike(r: Rows, v: Rows, o: OrderId, now: int, limits: Limits)
    requires Untouched(r, v, o) && o < |r.orders|
    ensures Idle(v, o, now) == Idle(r, o, now) && limits.Of(v, o) == limits.Of(r, o)
    ensures Candidate(v, o, now, limits) <==> Candidate(r, o, now, limits)
  {
    SameActivity(r, v, o, |r.payments|);
    forall p | 0 <= p < |r.payments|
      ensures (v.payments[p].order == o && v.payments[p].cash && v.payments[p].status == Pending) <==>
              (r.payments[p].order == o && r.payments[p].cash && r.payments[p].status == Pending)
    {
      assert SamePayment(r.payments[p], v.payments[p]);
    }
    assert WaitsForCash(v, o) <==> WaitsForCash(r, o);
  }

  lemma {:induction false} SameActivity(r: Rows, v: Rows, o: OrderId, n: nat)
    requires o < |r.orders| && o < |v.orders| && r.orders[o].createdAt == v.orders[o].createdAt
    requires n <= |r.payments| == |v.payments|
    requires forall p :: 0 <= p < |r.payments| ==> SamePayment(r.payments[p], v.payments[p])
    ensures LastActivity(r, o, n) == LastActivity(v, o, n)
  {
    if n > 0 {
      SameActivity(r, v, o, n - 1);
      assert SamePayment(r.payments[n - 1], v.payments[n - 1]);
    }
  }

  /** The last activity is the latest of the order's creation and its own attempts, paid or
      not. */
  lemma {:induction false} ActivityExactly(r: Rows, o: OrderId, n: nat)
    requires o < |r.orders| && n <= |r.payments|
    ensures LastActivity(r, o, n) >= r.orders[o].createdAt
    ensures forall p :: 0 <= p < n && r.payments[p].order == o ==> r.payments[p].createdAt <= LastActivity(r, o, n)
    ensures || LastActivity(r, o, n) == r.orders[o].createdAt
            || exists p :: 0 <= p < n && r.payments[p].order == o && r.payments[p].createdAt == LastActivity(r, o, n)
  {
    if n > 0 {
      ActivityExactly(r, o, n - 1);
    }
  }

  /** The cash limit is for orders with a pending cash attempt, the online limit for all
      others. */
  lemma LimitExactly(r: Rows, o: OrderId, limits: Limits)
    ensures (exists p :: 0 <= p < |r.payments| && r.payments[p].order == o && r.payments[p].cash
                         && r.payments[p].status == Pending) ==> limits.Of(r, o) == limits.cash
    ensures (forall p :: 0 <= p < |r.payments| && r.payments[p].order == o && r.payments[p].cash ==>
               r.payments[p].status != Pending) ==> limits.Of(r, o) == limits.online
  {
  }

  // ---------------------------------------------------------------------
  // Reconciling one order
  // ---------------------------------------------------------------------

  /** Handling one report about an attempt of an order that is pending or was just paid
      touches that order and its attempts only, and leaves it pending or paid. */
  lemma ApplyTouchesOneOrder(w: World, p: PaymentId, report: Report)
    requires Shape(w) && OnlineAttempt(w, p)
    requires w.rows.orders[w.rows.payments[p].order].status in {PAYMENT_PENDING, PAID}
    ensures var v := SoloApply(w, p, report);
            var o := w.rows.payments[p].order;
            && Shape(v) && Grows(w, v) && OnlyOrder(w.rows, v.rows, o)
            && v.rows.orders[o].status in {PAYMENT_PENDING, PAID}
  {
    match report
    case StillPending =>
    case ReportedFailed => FailTouchesOneOrder(w, p);
    case ReportedSucceeded(_) =>
      ClaimTouchesOneOrder(w, p);
      if w.rows.orders[w.rows.payments[p].order].status == PAYMENT_PENDING {
        PayTouchesOneOrder(w, p);
      }
  }

  lemma FailTouchesOneOrder(w: World, p: PaymentId)
    requires Shape(w) && OnlineAttempt(w, p)
    ensures var v := Atomic(w, Fail(p));
            Shape(v) && Grows(w, v) && OnlyOrder(w.rows, v.rows, w.rows.payments[p].order) &&
              v.rows.orders == w.rows.orders
  {
    AtomicShape(w, Fail(p));
  }

  lemma ClaimTouchesOneOrder(w: World, p: PaymentId)
    requires Shape(w) && OnlineAttempt(w, p)
    ensures var v := Atomic(w, Claim(p));
            Shape(v) && Grows(w, v) && OnlyOrder(w.rows, v.rows, w.rows.payments[p].order) &&
              v.rows.orders == w.rows.orders
  {
    AtomicShape(w, Claim(p));
  }

  lemma PayTouchesOneOrder(w: World, p: PaymentId)
    requires Shape(w) && OnlineAttempt(w, p)
    requires w.rows.orders[w.rows.payments[p].order].status == PAYMENT_PENDING
    ensures var v := SoloPay(w, p);
            var o := w.rows.payments[p].order;
            && Shape(v) && Grows(w, v) && OnlyOrder(w.rows, v.rows, o)
            && v.rows.orders[o].status in {PAYMENT_PENDING, PAID}
  {
    var o := w.rows.payments[p].order;
    var change := Change(o, PAID, System, ClaimPayment(p));
    AtomicShape(w, change);
    assert MovedStock(w.rows.products, PAYMENT_PENDING, PAID, w.rows.orders[o].items).Some?;
    assert SoloPay(w, p) == Atomic(w, change);
  }

  lemma {:induction false} ApplyAllTouchesOneOrder(w: World, o: OrderId, ps: seq<PaymentId>, reports: map<PaymentId,
    Report>)
    requires Shape(w) && o < |w.rows.orders| && w.rows.orders[o].status == PAYMENT_PENDING
    requires forall i :: 0 <= i < |ps| ==> OnlineAttempt(w, ps[i]) && w.rows.payments[ps[i]].order == o
    ensures var v := SoloApplyAll(w, ps, reports);
            && Shape(v) && Grows(w, v) && OnlyOrder(w.rows, v.rows, o)
            && v.rows.orders[o].status in {PAYMENT_PENDING, PAID}
  {
    if ps != [] {
      var n := |ps| - 1;
      ApplyAllTouchesOneOrder(w, o, ps[..n], reports);
      var u := SoloApplyAll(w, ps[..n], reports);
      if ps[n] in reports {
        assert SamePayment(w.rows.payments[ps[n]], u.rows.payments[ps[n]]);
        ApplyTouchesOneOrder(u, ps[n], reports[ps[n]]);
        var v := SoloApply(u, ps[n], reports[ps[n]]);
        GrowsOn(w, u, v);
        OnlyOrderTwice(w.rows, u.rows, v.rows, o);
      }
    }
  }

  lemma ReconcileTouchesOneOrder(w: World, o: OrderId, reports: map<PaymentId, Report>)
    requires Shape(w) && o < |w.rows.orders| && w.rows.orders[o].status == PAYMENT_PENDING
    ensures var v := SoloReconcile(w, o, reports);
            && Shape(v) && OnlyOrder(w.rows, v.rows, o)
            && v.rows.orders[o].status in {PAYMENT_PENDING, PAID}
  {
    ApplyAllTouchesOneOrder(w, o, PendingAttempts(w.rows, o, |w.rows.payments|), reports);
  }

  // ---------------------------------------------------------------------
  // What a reconciliation comes to
  // ---------------------------------------------------------------------

  /** The provider reports the attempt successful, for the amount it is for or without one. */
  predicate Fits(payment: Payment, report: Report) {
    report.ReportedSucceeded? && AmountMatches(payment, report.amount)
  }

  /** A pending attempt after the answer about it. */
  function Answered(payment: Payment, report: Report): Payment {
    if Fits(payment, report) then payment.(status := Succeeded)
    else if report.ReportedFailed? then payment.(status := Failed)
    else payment
  }

  function AnsweredAll(payments: seq<Payment>, ps: seq<PaymentId>,
      reports: map<PaymentId, Report>): (after: seq<Payment>)
    ensures |after| == |payments|
  {
    seq(|payments|, p requires 0 <= p < |payments| =>
      if p in ps && p in reports then Answered(payments[p], reports[p]) else payments[p])
  }

  /** One of these attempts is reported successful. */
  predicate AnyFits(payments: seq<Payment>, ps: seq<PaymentId>, reports: map<PaymentId, Report>) {
    exists i :: 0 <= i < |ps| && ps[i] < |payments| && ps[i] in reports && Fits(payments[ps[i]], reports[ps[i]])
  }

  lemma AnswerOne(w: World, p: PaymentId, report: Report)
    requires Shape(w) && OnlineAttempt(w, p) && w.rows.payments[p].status == Pending
    requires w.rows.orders[w.rows.payments[p].order].status in {PAYMENT_PENDING, PAID}
    ensures var r, o := w.rows, w.rows.payments[p].order;
            SoloApply(w, p, report).rows == r.(
              payments := r.payments[p := Answered(r.payments[p], report)],
              orders := if Fits(r.payments[p], report) then r.orders[o := r.orders[o].(status := PAID)] else r.orders)
  {
    FailureAlone(w, p);
    if report.ReportedSucceeded? {
      SuccessAlone(w, p, report.amount);
    }
  }

  lemma AnswersMore(payments: seq<Payment>, ps: seq<PaymentId>, reports: map<PaymentId, Report>)
    requires ps != [] && ps[|ps| - 1] !in ps[..|ps| - 1] && ps[|ps| - 1] < |payments|
    ensures var n, p := |ps| - 1, ps[|ps| - 1];
            var before := AnsweredAll(payments, ps[..n], reports);
            && before[p] == payments[p]
            && AnsweredAll(payments, ps, reports) ==
                 (if p in reports then before[p := Answered(payments[p], reports[p])] else before)
            && (AnyFits(payments, ps, reports) <==>
                  AnyFits(payments, ps[..n], reports) || (p in reports && Fits(payments[p], reports[p])))
  {
    var n := |ps| - 1;
    assert ps == ps[..n] + [ps[n]];
    assert forall i :: 0 <= i < n ==> ps[..n][i] == ps[i];
  }

  /** The rows after the answers about these attempts of order `o`. */
  function RowsAnswered(r: Rows, o: OrderId, ps: seq<PaymentId>, reports: map<PaymentId, Report>): Rows
    requires o < |r.orders|
  {
    r.(payments := AnsweredAll(r.payments, ps, reports),
       orders := if AnyFits(r.payments, ps, reports) then r.orders[o := r.orders[o].(status := PAID)] else r.orders)
  }

  lemma AnswerNext(r: Rows, u: World, o: OrderId, ps: seq<PaymentId>, reports: map<PaymentId, Report>)
    requires o < |r.orders| && r.orders[o].status == PAYMENT_PENDING
    requires ps != [] && ps[|ps| - 1] !in ps[..|ps| - 1] && Reconcilable(r, ps[|ps| - 1], o) && ps[|ps| - 1] in reports
    requires Shape(u) && u.rows == RowsAnswered(r, o, ps[..|ps| - 1], reports)
    ensures SoloApply(u, ps[|ps| - 1], reports[ps[|ps| - 1]]).rows == RowsAnswered(r, o, ps, reports)
  {
    hide SoloApply, Shape, Fits, Answered, AnsweredAll, AnyFits;
    AnswersMore(r.payments, ps, reports);
    AnswerOne(u, ps[|ps| - 1], reports[ps[|ps| - 1]]);
  }

  lemma AnsweredShape(w: World, o: OrderId, ps: seq<PaymentId>, reports: map<PaymentId, Report>)
    requires Shape(w) && o < |w.rows.orders| && w.rows.orders[o].status == PAYMENT_PENDING
    requires forall i :: 0 <= i < |ps| ==> Reconcilable(w.rows, ps[i], o)
    ensures Shape(SoloApplyAll(w, ps, reports))
  {
    ApplyAllTouchesOneOrder(w, o, ps, reports);
  }

  lemma {:induction false} AnswerAll(w: World, o: OrderId, ps: seq<PaymentId>, reports: map<PaymentId, Report>)
    requires Shape(w) && o < |w.rows.orders| && w.rows.orders[o].status == PAYMENT_PENDING
    requires forall i :: 0 <= i < |ps| ==> Reconcilable(w.rows, ps[i], o)
    requires forall i, j :: 0 <= i < j < |ps| ==> ps[i] < ps[j]
    ensures SoloApplyAll(w, ps, reports).rows == RowsAnswered(w.rows, o, ps, reports)
  {
    if ps == [] {
      NoneAsked(w.rows, o, reports);
    } else {
      hide SoloApply, RowsAnswered, Reconcilable, Shape;
      var n := |ps| - 1;
      AnswerAll(w, o, ps[..n], reports);
      AnsweredShape(w, o, ps[..n], reports);
      if ps[n] in reports {
        AnswerNext(w.rows, SoloApplyAll(w, ps[..n], reports), o, ps, reports);
      } else {
        NoAnswer(w.rows, o, ps, reports);
      }
    }
  }

  lemma NoneAsked(r: Rows, o: OrderId, reports: map<PaymentId, Report>)
    requires o < |r.orders|
    ensures RowsAnswered(r, o, [], reports) == r
  {
    assert AnsweredAll(r.payments, [], reports) == r.payments;
  }

  lemma NoAnswer(r: Rows, o: OrderId, ps: seq<PaymentId>, reports: map<PaymentId, Report>)
    requires o < |r.orders| && ps != [] && ps[|ps| - 1] !in ps[..|ps| - 1] && Reconcilable(r, ps[|ps| - 1], o)
    requires ps[|ps| - 1] !in reports
    ensures RowsAnswered(r, o, ps, reports) == RowsAnswered(r, o, ps[..|ps| - 1], reports)
  {
    AnswersMore(r.payments, ps, reports);
  }

  /** The provider is asked about this attempt. */
  predicate Asked(r: Rows, p: PaymentId, o: OrderId) {
    && p < |r.payments| && r.payments[p].order == o && !r.payments[p].cash
    && r.payments[p].status == Pending && r.payments[p].started
  }

  /** The provider reports some pending attempt of the order successful. */
  predicate ReportedPaid(r: Rows, o: OrderId, reports: map<PaymentId, Report>) {
    exists p :: 0 <= p < |r.payments| && Asked(r, p, o) && p in reports && Fits(r.payments[p], reports[p])
  }

  /** A reconciliation of an order that waits: every attempt asked about takes the answer, the
      order becomes PAID exactly when one of them is reported successful, and nothing else
      changes. */
  lemma ReconcileExactly(w: World, o: OrderId, reports: map<PaymentId, Report>)
    requires Shape(w) && o < |w.rows.orders| && w.rows.orders[o].status == PAYMENT_PENDING
    ensures var r, v := w.rows, SoloReconcile(w, o, reports).rows;
            && v.orders ==
                 (if ReportedPaid(r, o, reports) then r.orders[o := r.orders[o].(status := PAID)] else r.orders)
            && |v.payments| == |r.payments|
            && (forall p :: 0 <= p < |r.payments| ==>
                  v.payments[p] == if Asked(r, p, o) && p in reports then Answered(r.payments[p], reports[p])
                                   else r.payments[p])
            && v.products == r.products && v.coupons == r.coupons && v.cart == r.cart
  {
    var r := w.rows;
    var ps: seq<PaymentId> := PendingAttempts(r, o, |r.payments|);
    PendingExactly(r, o, |r.payments|);
    AnswerAll(w, o, ps, reports);
    assert forall p: PaymentId :: p in ps <==> Asked(r, p, o);
    if AnyFits(r.payments, ps, reports) {
      var i :| 0 <= i < |ps| && ps[i] < |r.payments| && ps[i] in reports && Fits(r.payments[ps[i]], reports[ps[i]]);
      assert ps[i] in ps;
      assert ReportedPaid(r, o, reports);
    }
    if ReportedPaid(r, o, reports) {
      var p :| 0 <= p < |r.payments| && Asked(r, p, o) && p in reports && Fits(r.payments[p], reports[p]);
      assert p in ps;
      var i :| 0 <= i < |ps| && ps[i] == p;
      assert AnyFits(r.payments, ps, reports);
    }
  }

  /** An order that waits and is to be expired: it is paid when the provider reports one of its
      pending attempts successful; otherwise it expires, its units are back and its pending
      attempts have failed. */
  ghost predicate ExpiredUnlessPaid(r: Rows, v: Rows, o: OrderId, reports: map<PaymentId, Report>)
    requires o < |r.orders|
  {
    var paid := ReportedPaid(r, o, reports);
    && v.orders == r.orders[o := r.orders[o].(status := if paid then PAID else EXPIRED)]
    && |v.payments| == |r.payments|
    && (forall p :: 0 <= p < |r.payments| ==> v.payments[p] == PaymentAfter(r, p, o, reports, paid))
    && (if paid then v.products == r.products else Deducted(v.products, r.products, r.orders[o].items))
  }

  function PaymentAfter(r: Rows, p: PaymentId, o: OrderId, reports: map<PaymentId, Report>, paid: bool): Payment
    requires p < |r.payments|
  {
    var answered := if Asked(r, p, o) && p in reports then Answered(r.payments[p], reports[p]) else r.payments[p];
    if !paid && answered.order == o && answered.status == Pending then answered.(status := Failed) else answered
  }

  /** What expiring changes: one status, the pending attempts, and the shelf. */
  lemma ExpireRows(w: World, o: OrderId)
    requires Shape(w) && o < |w.rows.orders| && w.rows.orders[o].status == PAYMENT_PENDING
    ensures var r, v := w.rows, Atomic(w, Change(o, EXPIRED, System, NoExtra)).rows;
            && v.orders == r.orders[o := r.orders[o].(status := EXPIRED)]
            && |v.payments| == |r.payments|
            && (forall p :: 0 <= p < |r.payments| ==>
                  v.payments[p] == if r.payments[p].order == o && r.payments[p].status == Pending
                                   then r.payments[p].(status := Failed) else r.payments[p])
            && Deducted(v.products, r.products, r.orders[o].items)
  {
    var order := w.rows.orders[o];
    assert OrderShape(w, o);
    ChangesExactly(w, o, EXPIRED, System, NoExtra);
    AllowedChange(w, o, EXPIRED, System, NoExtra);
    ChangeParts(w.rows, o, order, EXPIRED, NoExtra);
    RestockExactly(w.rows.products, order.items);
  }

  lemma ReconcileAndExpire(w: World, u: World, o: OrderId, reports: map<PaymentId, Report>)
    requires Shape(w) && o < |w.rows.orders| && w.rows.orders[o].status == PAYMENT_PENDING
    requires u == SoloReconcile(w, o, reports)
    ensures Shape(u) && o < |u.rows.orders|
    ensures ExpiredUnlessPaid(w.rows, Atomic(u, Change(o, EXPIRED, System, NoExtra)).rows, o, reports)
  {
    ReconcileTouchesOneOrder(w, o, reports);
    ReconcileExactly(w, o, reports);
    if ReportedPaid(w.rows, o, reports) {
      RefusedNow(u, o, EXPIRED, System, NoExtra);
    } else {
      ExpireRows(u, o);
    }
  }

  /** Expiring an order that is still pending always goes through. */
  lemma ExpireTouchesOneOrder(w: World, o: OrderId)
    requires Shape(w) && o < |w.rows.orders| && w.rows.orders[o].status in {PAYMENT_PENDING, PAID}
    ensures var v := Atomic(w, Change(o, EXPIRED, System, NoExtra));
            && OnlyOrder(w.rows, v.rows, o)
            && v.rows.orders[o].status == (if w.rows.orders[o].status == PAID then PAID else EXPIRED)
    ensures TransitionNow(w.rows, o, EXPIRED, System, NoExtra).outcome ==
            if w.rows.orders[o].status == PAID then Unchanged else Changed
  {
  }

  // ---------------------------------------------------------------------
  // The sweep
  // ---------------------------------------------------------------------

  function CountExpired(orders: seq<Order>, batch: seq<OrderId>): nat {
    if batch == [] then 0
    else
      var o := batch[|batch| - 1];
      CountExpired(orders, batch[..|batch| - 1]) + if o < |orders| && orders[o].status == EXPIRED then 1 else 0
  }

  /** The count is the number of orders of the batch that are expired now. */
  lemma {:induction false} CountExactly(orders: seq<Order>, batch: seq<OrderId>)
    requires forall i, j :: 0 <= i < j < |batch| ==> batch[i] != batch[j]
    ensures CountExpired(orders, batch) == |set o | o in batch && o < |orders| && orders[o].status == EXPIRED|
  {
    if batch != [] {
      var n := |batch| - 1;
      CountExactly(orders, batch[..n]);
      ExpiredMore(orders, batch[..n], batch[n]);
      assert batch == batch[..n] + [batch[n]];
    }
  }

  lemma ExpiredMore(orders: seq<Order>, batch: seq<OrderId>, last: OrderId)
    requires last !in batch
    ensures var before := set o | o in batch && o < |orders| && orders[o].status == EXPIRED;
            var after := set o | o in batch + [last] && o < |orders| && orders[o].status == EXPIRED;
            |after| == |before| + if last < |orders| && orders[last].status == EXPIRED then 1 else 0
  {
    var before := set o | o in batch && o < |orders| && orders[o].status == EXPIRED;
    var after := set o | o in batch + [last] && o < |orders| && orders[o].status == EXPIRED;
    if last < |orders| && orders[last].status == EXPIRED {
      assert after == before + {last} && last !in before;
    } else {
      assert after == before;
    }
  }

  lemma {:induction false} CountAlike(a: seq<Order>, b: seq<Order>, batch: seq<OrderId>)
    requires |a| == |b|
    requires forall i :: 0 <= i < |batch| && batch[i] < |a| ==> a[batch[i]] == b[batch[i]]
    ensures CountExpired(a, batch) == CountExpired(b, batch)
  {
    if batch != [] {
      CountAlike(a, b, batch[..|batch| - 1]);
    }
  }

  /** What one pass over the batch has done to an order. */
  ghost predicate Swept(r: Rows, v: Rows, o: OrderId, now: int, limits: Limits,
    reports: map<PaymentId, Report>)
    requires o < |r.orders|
  {
    if Idle(r, o, now) < limits.Of(r, o) then Untouched(r, v, o)
    else o < |v.orders| && v.orders[o].status == if ReportedPaid(r, o, reports) then PAID else EXPIRED
  }

  lemma SweptStays(r: Rows, u: Rows, v: Rows, o: OrderId, other: OrderId, now: int, limits: Limits,
    reports: map<PaymentId, Report>)
    requires o < |r.orders| && o != other && OnlyOrder(u, v, other)
    requires forall p :: 0 <= p < |r.payments| && p < |u.payments| ==> SamePayment(r.payments[p], u.payments[p])
    ensures Untouched(r, u, o) ==> Untouched(r, v, o)
    ensures Swept(r, u, o, now, limits, reports) && |u.orders| == |r.orders| ==> Swept(r, v, o, now, limits, reports)
  {
    if Untouched(r, u, o) {
      forall p | 0 <= p < |r.payments| ensures SamePayment(r.payments[p], v.payments[p]) {
        assert SamePayment(r.payments[p], u.payments[p]);
      }
      forall p | 0 <= p < |r.payments| && r.payments[p].order == o ensures v.payments[p] == r.payments[p] {
        assert SamePayment(r.payments[p], u.payments[p]);
      }
    }
  }

  /** The orders in `done` have been swept and no other one was touched. */
  ghost predicate Progress(r: Rows, v: Rows, done: seq<OrderId>, now: int, limits: Limits,
    reports: map<PaymentId, Report>) {
    && |v.orders| == |r.orders| && |v.payments| == |r.payments|
    && (forall p :: 0 <= p < |r.payments| ==> SamePayment(r.payments[p], v.payments[p]))
    && (forall o :: 0 <= o < |r.orders| && o !in done ==> Untouched(r, v, o))
    && (forall o :: 0 <= o < |r.orders| && o in done ==> Swept(r, v, o, now, limits, reports))
  }

  /** The rows of the order and its attempts are as they were read, so what is asked is too. */
  lemma AskedAlike(r: Rows, u: Rows, o: OrderId, reports: map<PaymentId, Report>)
    requires Untouched(r, u, o)
    ensures ReportedPaid(u, o, reports) <==> ReportedPaid(r, o, reports)
  {
    forall p | 0 <= p < |r.payments| ensures Asked(u, p, o) <==> Asked(r, p, o) {
      assert SamePayment(r.payments[p], u.payments[p]);
    }
    if ReportedPaid(u, o, reports) {
      var p :| 0 <= p < |u.payments| && Asked(u, p, o) && p in reports && Fits(u.payments[p], reports[p]);
      assert Asked(r, p, o) && u.payments[p] == r.payments[p];
    }
    if ReportedPaid(r, o, reports) {
      var p :| 0 <= p < |r.payments| && Asked(r, p, o) && p in reports && Fits(r.payments[p], reports[p]);
      assert Asked(u, p, o) && u.payments[p] == r.payments[p];
    }
  }

  lemma ProgressStep(r: Rows, u: Rows, v: Rows, done: seq<OrderId>, o: OrderId, now: int, limits: Limits,
    reports: map<PaymentId, Report>)
    requires Progress(r, u, done, now, limits, reports) && o !in done && o < |r.orders|
    requires if Idle(r, o, now) < limits.Of(r, o) then v == u
             else OnlyOrder(u, v, o) && v.orders[o].status == if ReportedPaid(u, o, reports) then PAID else EXPIRED
    ensures Progress(r, v, done + [o], now, limits, reports)
  {
    AskedAlike(r, u, o, reports);
    forall p | 0 <= p < |r.payments| ensures SamePayment(r.payments[p], v.payments[p]) {
      assert SamePayment(r.payments[p], u.payments[p]);
    }
    forall x | 0 <= x < |r.orders|
      ensures x !in done + [o] ==> Untouched(r, v, x)
      ensures x in done + [o] ==> Swept(r, v, x, now, limits, reports)
    {
      if x != o && v != u {
        SweptStays(r, u, v, x, o, now, limits, reports);
      }
    }
  }

  /** The customer may have paid and the report got lost: asks first, then expires the
      order unless it is paid now. */
  method ExpireOrder(shop: Shop, o: OrderId, reports: map<PaymentId, Report>) returns (done: bool)
    requires shop.Valid() && o < |shop.orders| && shop.orders[o].status == PAYMENT_PENDING
    modifies shop
    ensures shop.Valid() && OnlyOrder(old(shop.Snapshot()), shop.Snapshot(), o)
    ensures ExpiredUnlessPaid(old(shop.Snapshot()), shop.Snapshot(), o, reports)
    ensures shop.orders[o].status == if ReportedPaid(old(shop.Snapshot()), o, reports) then PAID else EXPIRED
    ensures done <==> !ReportedPaid(old(shop.Snapshot()), o, reports)
  {
    ghost var u, w := shop.Snapshot(), shop.world;
    ReconcileTouchesOneOrder(shop.world, o, reports);
    shop.ReconcilePending(o, reports, true);
    ghost var mid := shop.Snapshot();
    ReconcileAndExpire(w, shop.world, o, reports);
    ExpireTouchesOneOrder(shop.world, o);
    ghost var at;
    var outcome;
    outcome, at := shop.Transition(o, EXPIRED, System, NoExtra, true);
    OnlyOrderTwice(u, mid, shop.Snapshot(), o);
    done := outcome == Changed;
  }

  /** The sweep is sound: an order is expired only if it was idle for at least its own
      limit, cash or online. */
  lemma SweepIsSound(r: Rows, v: Rows, batch: seq<OrderId>, now: int, limits: Limits,
    reports: map<PaymentId, Report>, o: OrderId)
    requires IsBatch(r, batch, now, limits) && Progress(r, v, batch, now, limits, reports) && o < |r.orders|
    requires r.orders[o].status == PAYMENT_PENDING && v.orders[o].status != PAYMENT_PENDING
    ensures o in batch && Idle(r, o, now) >= limits.Of(r, o)
    ensures v.orders[o].status == if ReportedPaid(r, o, reports) then PAID else EXPIRED
  {
  }

  /** The sweep is complete: an order that still waits afterwards is idle for no longer
      than its limit, unless the batch was full and the order is no older than any of it. */
  lemma SweepIsComplete(r: Rows, v: Rows, batch: seq<OrderId>, now: int, limits: Limits,
    reports: map<PaymentId, Report>, o: OrderId)
    requires IsBatch(r, batch, now, limits) && Progress(r, v, batch, now, limits, reports) && o < |r.orders|
    requires v.orders[o].status == PAYMENT_PENDING
    ensures
      || Idle(v, o, now) <= limits.Of(v, o)
      || (|batch| == 100 && forall i :: 0 <= i < |batch| ==>
        r.orders[batch[i]].createdAt <= r.orders[o].createdAt)
  {
    UntouchedAlike(r, v, o, now, limits);
    ActivityExactly(r, o, |r.payments|);
  }

  /** One sweep, with nobody else around.  `reports` is what the provider answers about
      the attempts it can be reached for. */
  method ExpireStaleOrders(shop: Shop, batch: seq<OrderId>, now: int, limits: Limits, reports: map<PaymentId, Report>)
    returns (expired: nat)
    requires shop.Valid() && IsBatch(shop.Snapshot(), batch, now, limits)
    modifies shop
    ensures shop.Valid()
    ensures expired == |set o | o in batch && o < |shop.orders| && shop.orders[o].status == EXPIRED|
    ensures Progress(old(shop.Snapshot()), shop.Snapshot(), batch, now, limits, reports)
    ensures forall o :: (0 <= o < |shop.orders| && old(shop.orders)[o].status == PAYMENT_PENDING
                         && shop.orders[o].status != PAYMENT_PENDING) ==>
              && Idle(old(shop.Snapshot()), o, now) >= limits.Of(old(shop.Snapshot()), o)
              && shop.orders[o].status == if ReportedPaid(old(shop.Snapshot()), o, reports) then PAID else EXPIRED
    ensures |batch| < 100 ==>
              forall o :: 0 <= o < |shop.orders| && shop.orders[o].status == PAYMENT_PENDING ==>
                Idle(shop.Snapshot(), o, now) <= limits.Of(shop.Snapshot(), o)
  {
    var read := shop.Snapshot();
    ghost var r := read;
    expired := 0;
    for i := 0 to |batch|
      invariant shop.Valid()
      invariant Progress(r, shop.Snapshot(), batch[..i], now, limits, reports)
      invariant expired == CountExpired(shop.orders, batch[..i])
    {
      hide Progress, Swept, ReportedPaid, ExpiredUnlessPaid, Idle, CountExpired;
      var o := batch[i];
      assert batch[..i + 1] == batch[..i] + [o];
      StillWaits(r, shop.Snapshot(), batch, i, now, limits, reports);
      ghost var u := shop.Snapshot();
      if Idle(read, o, now) >= limits.Of(read, o) {
        var done := ExpireOrder(shop, o, reports);
        if done {
          expired := expired + 1;
        }
      }
      CountMore(u, shop.Snapshot(), batch[..i], o);
      ProgressStep(r, u, shop.Snapshot(), batch[..i], o, now, limits, reports);
    }
    assert batch[..|batch|] == batch;
    SweepResult(r, shop.Snapshot(), batch, now, limits, reports);
    CountExactly(shop.orders, batch);
  }

  /** An order whose turn it is still waits, as it was read. */
  lemma StillWaits(r: Rows, u: Rows, batch: seq<OrderId>, i: nat, now: int, limits: Limits,
    reports: map<PaymentId, Report>)
    requires IsBatch(r, batch, now, limits) && i < |batch| && Progress(r, u, batch[..i], now, limits, reports)
    ensures batch[i] !in batch[..i] && batch[i] < |r.orders| == |u.orders|
    ensures u.orders[batch[i]].status == PAYMENT_PENDING
  {
    assert batch[i] !in batch[..i];
    assert Untouched(r, u, batch[i]);
  }

  lemma CountMore(u: Rows, v: Rows, done: seq<OrderId>, o: OrderId)
    requires OnlyOrder(u, v, o) && o !in done && o < |u.orders|
    ensures CountExpired(v.orders, done + [o]) ==
              CountExpired(u.orders, done) + if v.orders[o].status == EXPIRED then 1 else 0
  {
    CountAlike(u.orders, v.orders, done);
    assert (done + [o])[..|done|] == done;
  }

  lemma SweepResult(r: Rows, v: Rows, batch: seq<OrderId>, now: int, limits: Limits, reports: map<PaymentId, Report>)
    requires IsBatch(r, batch, now, limits) && Progress(r, v, batch, now, limits, reports)
    ensures forall o ::
              (0 <= o < |r.orders| && r.orders[o].status == PAYMENT_PENDING
               && v.orders[o].status != PAYMENT_PENDING) ==>
              && Idle(r, o, now) >= limits.Of(r, o)
              && v.orders[o].status == if ReportedPaid(r, o, reports) then PAID else EXPIRED
    ensures |batch| < 100 ==>
              forall o :: 0 <= o < |r.orders| && v.orders[o].status == PAYMENT_PENDING ==>
                Idle(v, o, now) <= limits.Of(v, o)
  {
    forall o | 0 <= o < |r.orders| && r.orders[o].status == PAYMENT_PENDING && v.orders[o].status != PAYMENT_PENDING
      ensures Idle(r, o, now) >= limits.Of(r, o)
      ensures v.orders[o].status == if ReportedPaid(r, o, reports) then PAID else EXPIRED
    {
      SweepIsSound(r, v, batch, now, limits, reports, o);
    }
    if |batch| < 100 {
      forall o | 0 <= o < |r.orders| &&
        v.orders[o].status == PAYMENT_PENDING ensures Idle(v, o, now) <= limits.Of(v, o) {
        SweepIsComplete(r, v, batch, now, limits, reports, o);
      }
    }
  }
}
