/** What handling a provider's report comes to, in statuses and rows: which money is
    recorded, what becomes of its order, and that a report of too little changes nothing. */
module Reports {
  import opened Wrappers
  import opened OrderStatus
  import opened Reservation
  import opened Tables
  import opened Protocol
  import opened ProtocolShape
  import opened StockConservation
  import opened StatusChange
  import opened Disputes
  import opened ShopServices

  // ---------------------------------------------------------------------
  // The amount
  // ---------------------------------------------------------------------

  /** Rounding goes to the nearest whole number, halves up. */
  lemma RoundExactly(x: real, n: int)
    ensures Round(x) == n <==> n as real - 0.5 <= x < n as real + 0.5
  {
  }

  /** A report without an amount fits; one with an amount fits an attempt for a whole amount
      exactly when it is less than half a franc away, and never when it is a franc or more
      below, whatever the attempt is for. */
  lemma AmountMatchesExactly(p: Payment, n: int, a: real)
    ensures AmountMatches(p, None)
    ensures p.amount == n as real ==> (AmountMatches(p, Some(a)) <==> n as real - 0.5 <= a < n as real + 0.5)
    ensures AmountMatches(p, Some(a)) ==> p.amount - 1.0 < a < p.amount + 1.0
  {
    RoundExactly(a, n);
    RoundExactly(a, Round(p.amount));
    RoundExactly(p.amount, Round(p.amount));
  }

  /** Every attempt is for what its order costs. */
  ghost predicate AttemptsCostTheirOrder(w: World) {
    forall p :: 0 <= p < |w.rows.payments| ==>
      var payment := w.rows.payments[p];
      payment.order < |w.rows.orders| && payment.amount == w.rows.orders[payment.order].total
  }

  lemma StepKeepsCosts(s: State, step: Step)
    requires Sound(s) && Enabled(s, step) && AttemptsCostTheirOrder(s.world)
    ensures AttemptsCostTheirOrder(Exec(s, step).world)
  {
    SoundStep(s, step);
    var before, after := s.world.rows, Exec(s, step).world.rows;
    forall p | 0 <= p < |after.payments|
      ensures after.payments[p].order < |after.orders|
      ensures after.payments[p].amount == after.orders[after.payments[p].order].total
    {
      if p < |before.payments| {
        assert SamePayment(before.payments[p], after.payments[p]);
        assert SameOrder(before.orders[before.payments[p].order], after.orders[before.payments[p].order]);
      } else {
        NewAttempt(s, step, p);
      }
    }
  }

  lemma NewAttempt(s: State, step: Step, p: PaymentId)
    requires Sound(s) && Enabled(s, step) && |s.world.rows.payments| <= p < |Exec(s, step).world.rows.payments|
    ensures step.RecordAttempt? && step.k in s.calls && s.calls[step.k].order < |s.world.rows.orders|
    ensures Exec(s, step).world.rows.payments[p] == NewPayment(s.world.rows, s.calls[step.k], step.now)
    ensures Exec(s, step).world.rows.orders == s.world.rows.orders
  {
    if step.CommitStatus? {
      var c := s.calls[step.k];
      OutcomeOf(s.world.rows, c.order, c.seen, c.to, c.extra);
    }
  }

  lemma {:induction false} RunKeepsCosts(s: State, steps: seq<Step>)
    requires Initial(s) && Legal(s, steps)
    ensures Sound(End(s, steps)) && AttemptsCostTheirOrder(End(s, steps).world)
  {
    RunSound(s, steps);
    if steps != [] {
      RunKeepsCosts(s, steps[..|steps| - 1]);
      StepKeepsCosts(End(s, steps[..|steps| - 1]), steps[|steps| - 1]);
    }
  }

  /** Never marked paid for less than it costs: in every state a run reaches, a reported
      success of a franc less than the order's total, or of even less, is not handled at all. */
  lemma UnderpaymentIsIgnored(s: State, steps: seq<Step>, k: CallId, p: PaymentId, a: real)
    requires Initial(s) && Legal(s, steps) && Enabled(End(s, steps), ReportSuccess(k, p, Some(a)))
    ensures var e := End(s, steps);
            && p < |e.world.rows.payments| && e.world.rows.payments[p].order < |e.world.rows.orders|
            && (a <= e.world.rows.orders[e.world.rows.payments[p].order].total - 1.0 ==>
                  Exec(e, ReportSuccess(k, p, Some(a))) == e)
  {
    RunKeepsCosts(s, steps);
    AmountMatchesExactly(End(s, steps).world.rows.payments[p], 0, a);
  }

  // ---------------------------------------------------------------------
  // One report, with nobody else around
  // ---------------------------------------------------------------------

  /** A failure report fails the attempt if it is still pending, and does nothing else. */
  lemma FailureAlone(w: World, p: PaymentId)
    requires Shape(w) && OnlineAttempt(w, p)
    ensures SoloApply(w, p, StillPending) == w
    ensures SoloApply(w, p, ReportedFailed).rows ==
              if w.rows.payments[p].status == Pending
              then w.rows.(payments := w.rows.payments[p := w.rows.payments[p].(status := Failed)])
              else w.rows
  {
  }

  /** What a success does to its order: paid when it waited, revived when it expired and its
      units are there, flagged for the owner when it is dead, left alone when it was paid. */
  function StatusAfterSuccess(status: Status, covered: bool): Status {
    match status
    case PAYMENT_PENDING => PAID
    case EXPIRED => if covered then PAID else DISPUTED
    case CANCELLED => DISPUTED
    case PAYMENT_FAILED => DISPUTED
    case _ => status
  }

  /** The rows `v` differ from `r` by the success of attempt `p`, recorded on its order. */
  ghost predicate SuccessRecorded(r: Rows, v: Rows, p: PaymentId)
    requires p < |r.payments| && r.payments[p].order < |r.orders|
  {
    var o := r.payments[p].order;
    var order := r.orders[o];
    var covered := Covers(r.products, order.items);
    && v.payments == r.payments[p := r.payments[p].(status := Succeeded)]
    && v.orders == r.orders[o := order.(status := StatusAfterSuccess(order.status, covered))]
    && v.coupons == r.coupons && v.cart == r.cart
    && (if order.status == EXPIRED && covered then Deducted(r.products, v.products, order.items)
        else v.products == r.products)
  }

  lemma ClaimRows(w: World, p: PaymentId)
    requires Shape(w) && OnlineAttempt(w, p) && !Claimed(w.rows.payments[p])
    ensures Shape(Atomic(w, Claim(p)))
    ensures Atomic(w, Claim(p)).rows ==
              w.rows.(payments := w.rows.payments[p := w.rows.payments[p].(status := Succeeded)])
  {
    AtomicShape(w, Claim(p));
  }

  /** Flagging a dead order always goes through, and changes its status only. */
  lemma FlagRows(w: World, o: OrderId)
    requires Shape(w) && o < |w.rows.orders| && w.rows.orders[o].status in {EXPIRED, CANCELLED, PAYMENT_FAILED}
    ensures Atomic(w, Change(o, DISPUTED, System, NoExtra)).rows ==
              w.rows.(orders := w.rows.orders[o := w.rows.orders[o].(status := DISPUTED)])
  {
    var order := w.rows.orders[o];
    ChangesExactly(w, o, DISPUTED, System, NoExtra);
    AllowedChange(w, o, DISPUTED, System, NoExtra);
    ChangeParts(w.rows, o, order, DISPUTED, NoExtra);
    assert Settle(w.rows.payments, o, DISPUTED) == w.rows.payments;
  }

  lemma DisputedRows(w: World, p: PaymentId)
    requires Shape(w) && OnlineAttempt(w, p) && !Claimed(w.rows.payments[p])
    requires w.rows.orders[w.rows.payments[p].order].status in {EXPIRED, CANCELLED, PAYMENT_FAILED}
    ensures var o := w.rows.payments[p].order;
            Disputed(w, p).rows == w.rows.(
              payments := w.rows.payments[p := w.rows.payments[p].(status := Succeeded)],
              orders := w.rows.orders[o := w.rows.orders[o].(status := DISPUTED)])
  {
    ClaimRows(w, p);
    FlagRows(Atomic(w, Claim(p)), w.rows.payments[p].order);
  }

  lemma PaidRows(w: World, p: PaymentId)
    requires Shape(w) && OnlineAttempt(w, p) && !Claimed(w.rows.payments[p])
    requires var order := w.rows.orders[w.rows.payments[p].order];
             order.status == PAYMENT_PENDING || (order.status == EXPIRED && Covers(w.rows.products, order.items))
    ensures SuccessRecorded(w.rows, Atomic(w, Change(w.rows.payments[p].order, PAID, System, ClaimPayment(p))).rows, p)
    ensures TransitionNow(w.rows, w.rows.payments[p].order, PAID, System, ClaimPayment(p)).outcome == Changed
  {
    var o := w.rows.payments[p].order;
    var order := w.rows.orders[o];
    ChangesExactly(w, o, PAID, System, ClaimPayment(p));
    AllowedChange(w, o, PAID, System, ClaimPayment(p));
    ChangeParts(w.rows, o, order, PAID, ClaimPayment(p));
    assert Settle(w.rows.payments, o, PAID) == w.rows.payments;
    ReserveExactly(w.rows.products, order.items);
  }

  lemma PayAlone(w: World, p: PaymentId)
    requires Shape(w) && OnlineAttempt(w, p) && !Claimed(w.rows.payments[p])
    requires w.rows.orders[w.rows.payments[p].order].status in {PAYMENT_PENDING, EXPIRED}
    ensures SuccessRecorded(w.rows, SoloPay(w, p).rows, p)
  {
    var o := w.rows.payments[p].order;
    var order := w.rows.orders[o];
    SoloPayByOutcome(w, p);
    if order.status == EXPIRED && !Covers(w.rows.products, order.items) {
      ReviveExactly(w, o, ClaimPayment(p));
      DisputedRows(w, p);
    } else {
      PaidRows(w, p);
    }
  }

  /** A reported success: it changes nothing when its amount does not fit or it was recorded
      before.  Otherwise the attempt succeeds; an order that waited becomes PAID, and so does
      an expired one whose units are there, which are taken again; an expired one whose units
      are gone, a cancelled and a failed one become DISPUTED; any other one stays as it is. */
  lemma SuccessAlone(w: World, p: PaymentId, amount: Option<real>)
    requires Shape(w) && OnlineAttempt(w, p)
    ensures var r, v := w.rows, SoloApply(w, p, ReportedSucceeded(amount)).rows;
            if AmountMatches(r.payments[p], amount) && r.payments[p].status in {Pending, Failed}
            then SuccessRecorded(r, v, p)
            else v == r
  {
    if AmountMatches(w.rows.payments[p], amount) {
      if Claimed(w.rows.payments[p]) {
        RecordedIsSilent(w, p, amount);
      } else {
        var status := w.rows.orders[w.rows.payments[p].order].status;
        if status in {PAYMENT_PENDING, EXPIRED} {
          PayAlone(w, p);
        } else {
          ClaimRows(w, p);
          if status in {CANCELLED, PAYMENT_FAILED} {
            DisputedRows(w, p);
          }
        }
      }
    }
  }

  /** So money never ends up on a dead order: after a fitting success was handled and
      recorded, its order is in a status that owes something or is refunded. */
  lemma MoneyIsNotLost(w: World, p: PaymentId, amount: Option<real>)
    requires Shape(w) && OnlineAttempt(w, p) && AmountMatches(w.rows.payments[p], amount)
    requires w.rows.payments[p].status in {Pending, Failed}
    ensures var v, o := SoloApply(w, p, ReportedSucceeded(amount)).rows, w.rows.payments[p].order;
            && p < |v.payments| && v.payments[p].status == Succeeded && o < |v.orders|
            && v.orders[o].status in {PAID, PROCESSING, SHIPPED, DELIVERED, DISPUTED, PARTIALLY_REFUNDED, REFUNDED}
  {
    SuccessAlone(w, p, amount);
    var o := w.rows.payments[p].order;
    assert OrderShape(w, o);
    StatusOf(w.trails[o]);
  }
}
