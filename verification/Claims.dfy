/** How often the success of a payment attempt is recorded.

    Starting an attempt at the provider can fail, and then the attempt is marked failed
    whatever happened to it in the meantime.  That failure write hits a recorded success
    when the report overtook the answer.  Everything here holds of all runs; what a hit
    can spoil is said with the number of hits on the one attempt concerned. */
module Claims {
  import opened OrderStatus
  import opened Tables
  import opened Protocol
  import opened ProtocolShape

  /** The operation is the failure write of attempt `p`, and the success of `p` is recorded. */
  predicate HitOp(w: World, op: Op, p: PaymentId) {
    op == Crash(p) && p < |w.rows.payments| && Claimed(w.rows.payments[p])
  }

  /** How often a failure write hit a recorded success of attempt `p`. */
  ghost function Hits(s: State, steps: seq<Step>, p: PaymentId): nat
    requires Legal(s, steps)
  {
    if steps == [] then 0
    else
      var before := steps[..|steps| - 1];
      var e := End(s, before);
      Hits(s, before, p) + if HitOp(e.world, OpOf(e, steps[|steps| - 1]), p) then 1 else 0
  }

  // ---------------------------------------------------------------------
  // A recorded success stays recorded
  // ---------------------------------------------------------------------

  /** A status change leaves every attempt in the table, and recorded if it was. */
  lemma ChangeKeepsClaims(r: Rows, id: OrderId, seen: Order, to: Status, extra: Extra, p: PaymentId)
    requires p < |r.payments|
    ensures var v := ChangeStatus(r, id, seen, to, extra).rows;
            && |v.payments| == |r.payments|
            && v.payments[p].order == r.payments[p].order && v.payments[p].cash == r.payments[p].cash
            && (Claimed(r.payments[p]) ==> Claimed(v.payments[p]))
  {
    if ChangeStatus(r, id, seen, to, extra).outcome == Changed {
      ChangeParts(r, id, seen, to, extra);
      AttemptAfter(r.payments, ChangeStatus(r, id, seen, to, extra).rows.payments, id, to, extra, p);
    }
  }

  lemma ClaimStays(w: World, op: Op, p: PaymentId)
    requires p < |w.rows.payments| && Claimed(w.rows.payments[p]) && !HitOp(w, op, p)
    ensures p < |Atomic(w, op).rows.payments| && Claimed(Atomic(w, op).rows.payments[p])
  {
    if op.Change? && op.order < |w.rows.orders| {
      ChangeKeepsClaims(w.rows, op.order, w.rows.orders[op.order], op.to, op.extra, p);
    }
  }

  lemma {:induction false} ClaimStaysAlong(s: State, steps: seq<Step>, p: PaymentId)
    requires Sound(s) && Legal(s, steps) && Hits(s, steps, p) == 0
    requires p < |s.world.rows.payments| && Claimed(s.world.rows.payments[p])
    ensures p < |End(s, steps).world.rows.payments| && Claimed(End(s, steps).world.rows.payments[p])
  {
    if steps != [] {
      var before, step := steps[..|steps| - 1], steps[|steps| - 1];
      ClaimStaysAlong(s, before, p);
      RunSound(s, before);
      ExecIsAtomic(End(s, before), step);
      ClaimStays(End(s, before).world, OpOf(End(s, before), step), p);
    }
  }

  // ---------------------------------------------------------------------
  // Counting
  // ---------------------------------------------------------------------

  /** The success of `p` was claimed once for every hit, and once more while it is recorded. */
  ghost predicate Counted(w: World, p: PaymentId, hits: nat) {
    && p < |w.rows.payments| && |w.claims| == |w.rows.payments|
    && w.claims[p] == hits + if Claimed(w.rows.payments[p]) then 1 else 0
  }

  /** Cash that was confirmed made its order PAID. */
  ghost predicate CashOk(w: World, p: PaymentId)
    requires p < |w.rows.payments|
  {
    var payment := w.rows.payments[p];
    payment.order < |w.trails| && (payment.cash && Claimed(payment) ==> PAID in w.trails[payment.order])
  }

  /** A cash attempt that is confirmed now was not confirmed before, although the
      confirmation finds it by its id alone. */
  lemma CashIsFresh(w: World, p: PaymentId)
    requires Shape(w) && p < |w.rows.payments| && CashOk(w, p) && w.rows.payments[p].cash
    requires w.rows.orders[w.rows.payments[p].order].status in {PAYMENT_PENDING, EXPIRED}
    ensures !Claimed(w.rows.payments[p])
  {
    var o := w.rows.payments[p].order;
    assert OrderShape(w, o);
    var t := w.trails[o];
    if PAID in t {
      var i :| 0 <= i < |t| && t[i] == PAID;
      AfterPayment(t, i, |t| - 1);
    }
  }

  lemma ChangeCounted(w: World, op: Op, p: PaymentId, hits: nat)
    requires Shape(w) && OpGuard(w, op) && op.Change?
    requires p < |w.rows.payments| && Counted(w, p, hits) && CashOk(w, p)
    ensures Counted(Atomic(w, op), p, hits)
  {
    var written := TransitionNow(w.rows, op.order, op.to, op.actor, op.extra);
    if written.outcome == Changed {
      ChangeKeepsClaims(w.rows, op.order, w.rows.orders[op.order], op.to, op.extra, p);
      if op.extra == ConfirmCash(p) {
        CashIsFresh(w, p);
      }
      ExtraRecords(w.rows, op.order, op.to, op.extra, p);
    }
  }

  /** A status change records the success of its own attempt, and of no other. */
  lemma ExtraRecords(r: Rows, id: OrderId, to: Status, extra: Extra, p: PaymentId)
    requires id < |r.orders| && p < |r.payments|
    requires ChangeStatus(r, id, r.orders[id], to, extra).outcome == Changed
    ensures var v := ChangeStatus(r, id, r.orders[id], to, extra).rows;
            && |v.payments| == |r.payments|
            && (extra == ClaimPayment(p) ==> !Claimed(r.payments[p]))
            && (Claimed(v.payments[p]) <==>
              Claimed(r.payments[p]) || extra == ClaimPayment(p) || extra == ConfirmCash(p))
  {
    ChangeParts(r, id, r.orders[id], to, extra);
    AttemptAfter(r.payments, ChangeStatus(r, id, r.orders[id], to, extra).rows.payments, id, to, extra, p);
  }

  lemma ChangeCash(w: World, op: Op, p: PaymentId)
    requires Shape(w) && OpGuard(w, op) && op.Change? && p < |w.rows.payments| && CashOk(w, p)
    ensures p < |Atomic(w, op).rows.payments| && CashOk(Atomic(w, op), p)
  {
    var written := TransitionNow(w.rows, op.order, op.to, op.actor, op.extra);
    if written.outcome == Changed {
      var o := w.rows.payments[p].order;
      ChangeKeepsClaims(w.rows, op.order, w.rows.orders[op.order], op.to, op.extra, p);
      ExtraRecords(w.rows, op.order, op.to, op.extra, p);
      assert w.trails[o] <= Atomic(w, op).trails[o];
      if op.extra == ConfirmCash(p) {
        assert Atomic(w, op).trails[o][|w.trails[o]|] == PAID;
      }
    }
  }

  lemma AtomicCounted(w: World, op: Op, p: PaymentId, hits: nat)
    requires Shape(w) && OpGuard(w, op) && Shape(Atomic(w, op))
    requires p < |w.rows.payments| && Counted(w, p, hits) && CashOk(w, p)
    ensures p < |Atomic(w, op).rows.payments| && CashOk(Atomic(w, op), p)
    ensures Counted(Atomic(w, op), p, hits + if HitOp(w, op, p) then 1 else 0)
  {
    if op.Change? {
      ChangeCounted(w, op, p, hits);
      ChangeCash(w, op, p);
    }
  }

  lemma NewAttemptCounted(w: World, op: Op, p: PaymentId)
    requires Shape(w) && OpGuard(w, op) && Shape(Atomic(w, op)) &&
              |w.rows.payments| <= p < |Atomic(w, op).rows.payments|
    ensures op.AddPayment? && p == |w.rows.payments|
    ensures Counted(Atomic(w, op), p, 0) && CashOk(Atomic(w, op), p)
  {
  }

  // ---------------------------------------------------------------------
  // At most one failure write per attempt
  // ---------------------------------------------------------------------

  predicate Starting(c: Call, p: PaymentId) {
    c == AttemptCreated(p)
  }

  /** At most one call is starting the attempt, and none once its failure write hit. */
  ghost predicate OneStart(s: State, p: PaymentId, hits: nat) {
    && hits <= 1
    && (forall j, k :: j in s.calls && k in s.calls && Starting(s.calls[j], p) && Starting(s.calls[k], p) ==> j == k)
    && (forall k :: k in s.calls && Starting(s.calls[k], p) ==> hits == 0 && p < |s.world.rows.payments|)
    && (p >= |s.world.rows.payments| ==> hits == 0)
  }

  /** A call that is starting an attempt after a step was before, or has just created it. */
  lemma StartsCarryOver(s: State, step: Step, k: CallId, p: PaymentId)
    requires Sound(s) && Enabled(s, step) && k in Exec(s, step).calls && Starting(Exec(s, step).calls[k], p)
    ensures (k in s.calls && Starting(s.calls[k], p)) ||
            (step.RecordAttempt? && step.k == k && p == |s.world.rows.payments|)
    ensures !(step.AttemptCrashed? && step.k == k)
  {
  }

  lemma OneStartStep(s: State, step: Step, p: PaymentId, hits: nat)
    requires Sound(s) && Enabled(s, step) && OneStart(s, p, hits) && Grows(s.world, Exec(s, step).world)
    ensures OneStart(Exec(s, step), p, hits + if HitOp(s.world, OpOf(s, step), p) then 1 else 0)
  {
    var v := Exec(s, step);
    forall k | k in v.calls && Starting(v.calls[k], p)
      ensures (k in s.calls && Starting(s.calls[k], p)) ||
              (step.RecordAttempt? && step.k == k && p == |s.world.rows.payments|)
      ensures !(step.AttemptCrashed? && step.k == k)
      ensures p < |v.world.rows.payments|
    {
      StartsCarryOver(s, step, k, p);
      ExecIsAtomic(s, step);
    }
    if HitOp(s.world, OpOf(s, step), p) {
      assert step.AttemptCrashed? && Starting(s.calls[step.k], p);
    }
  }

  // ---------------------------------------------------------------------
  // Exactly once, over all runs
  // ---------------------------------------------------------------------

  lemma {:induction false} RunCounted(s: State, steps: seq<Step>, p: PaymentId)
    requires Initial(s) && Legal(s, steps)
    ensures OneStart(End(s, steps), p, Hits(s, steps, p))
    ensures p < |End(s, steps).world.rows.payments| ==>
              Counted(End(s, steps).world, p, Hits(s, steps, p)) && CashOk(End(s, steps).world, p)
  {
    if steps != [] {
      var before, step := steps[..|steps| - 1], steps[|steps| - 1];
      var e := End(s, before);
      RunCounted(s, before, p);
      RunSound(s, before);
      SoundStep(e, step);
      ExecIsAtomic(e, step);
      OneStartStep(e, step, p, Hits(s, before, p));
      if p < |e.world.rows.payments| {
        AtomicCounted(e.world, OpOf(e, step), p, Hits(s, before, p));
      } else if p < |End(s, steps).world.rows.payments| {
        NewAttemptCounted(e.world, OpOf(e, step), p);
      }
    }
  }

  /** Exactly once: along every run the success of an attempt was claimed as often as it is
      recorded now, plus once if the attempt's own failure write hit it; there is at most
      one such hit.  So it is claimed at most twice, and twice only after a hit. */
  lemma ClaimsAreCounted(s: State, steps: seq<Step>, p: PaymentId)
    requires Initial(s) && Legal(s, steps) && p < |End(s, steps).world.rows.payments|
    ensures var w := End(s, steps).world;
            && |w.claims| == |w.rows.payments|
            && w.claims[p] == Hits(s, steps, p) + (if Claimed(w.rows.payments[p]) then 1 else 0)
            && Hits(s, steps, p) <= 1 && w.claims[p] <= 2
            && (w.claims[p] == 2 ==> Hits(s, steps, p) == 1)
  {
    RunCounted(s, steps, p);
  }

  /** And along every run an order enters PAID at most once. */
  lemma PaidAtMostOnce(s: State, steps: seq<Step>, o: OrderId)
    requires Initial(s) && Legal(s, steps) && o < |End(s, steps).world.trails|
    ensures var t := End(s, steps).world.trails[o];
            forall i, j :: 0 <= i < j < |t| && t[i] == PAID ==> t[j] != PAID
  {
    RunSound(s, steps);
    assert OrderShape(End(s, steps).world, o);
    NoReentry(End(s, steps).world.trails[o]);
  }
}
