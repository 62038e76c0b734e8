/** Money and status agree: exactly which states keep an order's sale backed by a payment in
    every continuation.  One thing can break it, the failure write of `Claims`; the results
    are about one order and runs in which no failure write hits a recorded success of its
    attempts (`Spared`). */
module Money {
  import opened OrderStatus
  import opened Tables
  import opened Protocol
  import opened ProtocolShape
  import opened Claims
  import opened Disputes

  /** An order in a paid status has a successful payment, a refunded one a refunded
      payment. */
  ghost predicate Backed(r: Rows, o: OrderId)
    requires o < |r.orders|
  {
    && (r.orders[o].status in BACKED ==> HasPayment(r.payments, o, Succeeded))
    && (r.orders[o].status == REFUNDED ==> HasPayment(r.payments, o, Refunded))
  }

  ghost predicate BeingDisputed(s: State, o: OrderId) {
    exists k :: k in s.calls && Disputing(s.calls[k], o)
  }

  /** The order is backed, and whoever is about to flag it will find it backed. */
  ghost predicate Safe(s: State, o: OrderId)
    requires o < |s.world.rows.orders|
  {
    && Backed(s.world.rows, o)
    && (s.world.rows.orders[o].status in DEAD && BeingDisputed(s, o) ==>
      HasPayment(s.world.rows.payments, o, Succeeded))
  }

  /** No failure write hits a recorded success of this order. */
  ghost predicate SparesNow(w: World, op: Op, o: OrderId) {
    forall p :: 0 <= p < |w.rows.payments| && w.rows.payments[p].order == o ==> !HitOp(w, op, p)
  }

  /** Successful and refunded payments of the order are there afterwards as well. */
  ghost predicate Survives(before: seq<Payment>, after: seq<Payment>, o: OrderId, status: PaymentStatus) {
    HasPayment(before, o, status) ==> HasPayment(after, o, status)
  }

  lemma SameStatusSurvives(before: seq<Payment>, after: seq<Payment>, o: OrderId, status: PaymentStatus)
    requires |before| <= |after|
    requires forall p :: 0 <= p < |before| && before[p].order == o && before[p].status == status ==>
               after[p].order == o && after[p].status == status
    ensures Survives(before, after, o, status)
  {
    if HasPayment(before, o, status) {
      var p :| 0 <= p < |before| && before[p].order == o && before[p].status == status;
      assert after[p].order == o && after[p].status == status;
    }
  }

  /** What a status change does to the successes of an order. */
  lemma ChangeSurvives(r: Rows, id: OrderId, to: Status, extra: Extra, o: OrderId)
    requires id < |r.orders| && ChangeStatus(r, id, r.orders[id], to, extra).outcome == Changed
    ensures var v := ChangeStatus(r, id, r.orders[id], to, extra).rows;
            && (o != id || to != REFUNDED ==> Survives(r.payments, v.payments, o, Succeeded))
            && (extra.NoExtra? ==> Survives(r.payments, v.payments, o, Refunded))
            && (o == id && to == REFUNDED && extra.NoExtra? && HasPayment(r.payments, o, Succeeded) ==>
                  HasPayment(v.payments, o, Refunded))
  {
    var v := ChangeStatus(r, id, r.orders[id], to, extra).rows;
    ChangedAttempts(r, id, to, extra);
    if o != id || to != REFUNDED {
      SameStatusSurvives(r.payments, v.payments, o, Succeeded);
    }
    if extra.NoExtra? {
      SameStatusSurvives(r.payments, v.payments, o, Refunded);
    }
    if o == id && to == REFUNDED && extra.NoExtra? && HasPayment(r.payments, o, Succeeded) {
      var p :| 0 <= p < |r.payments| && r.payments[p].order == o && r.payments[p].status == Succeeded;
      assert v.payments[p].order == o && v.payments[p].status == Refunded;
    }
  }

  lemma ChangedAttempts(r: Rows, id: OrderId, to: Status, extra: Extra)
    requires id < |r.orders| && ChangeStatus(r, id, r.orders[id], to, extra).outcome == Changed
    ensures var v := ChangeStatus(r, id, r.orders[id], to, extra).rows;
            && |v.payments| == |r.payments|
            && forall p :: 0 <= p < |r.payments| ==>
                && v.payments[p].order == r.payments[p].order
                && v.payments[p].status ==
                   if extra == ClaimPayment(p) || extra == ConfirmCash(p) then Succeeded
                   else Settled(r.payments[p], id, to).status
  {
    var v := ChangeStatus(r, id, r.orders[id], to, extra).rows;
    ChangeParts(r, id, r.orders[id], to, extra);
    forall p | 0 <= p < |r.payments|
      ensures |v.payments| == |r.payments| && v.payments[p].order == r.payments[p].order
      ensures v.payments[p].status ==
              if extra == ClaimPayment(p) || extra == ConfirmCash(p) then Succeeded
              else Settled(r.payments[p], id, to).status
    {
      AttemptAfter(r.payments, v.payments, id, to, extra, p);
    }
    WithExtraKeepsLength(Settle(r.payments, id, to), extra);
  }

  lemma WithExtraKeepsLength(payments: seq<Payment>, extra: Extra)
    ensures WithExtra(payments, extra).Some? ==> |WithExtra(payments, extra).value| == |payments|
  {
  }

  /** An admin's or the system's status change keeps its order backed, provided that the
      system flags only orders that have a successful payment. */
  lemma ChangeBacks(w: World, op: Op)
    requires Shape(w) && OpGuard(w, op) && op.Change? && Backed(w.rows, op.order)
    requires op.actor == System && op.to == DISPUTED ==> HasPayment(w.rows.payments, op.order, Succeeded)
    requires TransitionNow(w.rows, op.order, op.to, op.actor, op.extra).outcome == Changed
    ensures op.order < |Atomic(w, op).rows.orders| && Backed(Atomic(w, op).rows, op.order)
  {
    var r, o := w.rows, op.order;
    var v := Atomic(w, op).rows;
    ChangedOrders(w, op);
    ChangeSurvives(r, o, op.to, op.extra, o);
    if op.to == PAID {
      ChangedAttempts(r, o, op.to, op.extra);
      assert v.payments[op.extra.payment].order == o && v.payments[op.extra.payment].status == Succeeded;
    }
  }

  /** A status change that went through writes the status of its order, and of no other. */
  lemma ChangedOrders(w: World, op: Op)
    requires op.Change? && TransitionNow(w.rows, op.order, op.to, op.actor, op.extra).outcome == Changed
    ensures op.order < |w.rows.orders| && CanTransition(op.actor, w.rows.orders[op.order].status, op.to)
    ensures var v, id := Atomic(w, op).rows, op.order;
            && v.orders == w.rows.orders[id := w.rows.orders[id].(status := op.to)]
            && v == ChangeStatus(w.rows, id, w.rows.orders[id], op.to, op.extra).rows
  {
  }

  lemma OtherOrderBacked(w: World, op: Op, o: OrderId)
    requires Shape(w) && OpGuard(w, op) && op.Change? && o < |w.rows.orders| && o != op.order && Backed(w.rows, o)
    requires TransitionNow(w.rows, op.order, op.to, op.actor, op.extra).outcome == Changed
    ensures var v := Atomic(w, op).rows;
            && o < |v.orders| && Backed(v, o) && v.orders[o].status == w.rows.orders[o].status
            && Survives(w.rows.payments, v.payments, o, Succeeded)
  {
    ChangedOrders(w, op);
    ChangeSurvives(w.rows, op.order, op.to, op.extra, o);
    ChangedAttempts(w.rows, op.order, op.to, op.extra);
    SameStatusSurvives(w.rows.payments, Atomic(w, op).rows.payments, o, Refunded);
  }

  /** All operations but status changes leave the order's status and its successes alone. */
  lemma PlainOpBacked(w: World, op: Op, o: OrderId)
    requires Shape(w) && OpGuard(w, op) && !op.Change? && o < |w.rows.orders| && SparesNow(w, op, o)
    ensures var v := Atomic(w, op).rows;
            && o < |v.orders| && v.orders[o].status == w.rows.orders[o].status
            && Survives(w.rows.payments, v.payments, o, Succeeded) && Survives(w.rows.payments, v.payments, o, Refunded)
  {
    var v := Atomic(w, op).rows;
    PlainOpKeepsStatus(w, op, o);
    SameStatusSurvives(w.rows.payments, v.payments, o, Succeeded);
    SameStatusSurvives(w.rows.payments, v.payments, o, Refunded);
  }

  lemma PlainOpKeepsStatus(w: World, op: Op, o: OrderId)
    requires Shape(w) && OpGuard(w, op) && !op.Change? && o < |w.rows.orders| && SparesNow(w, op, o)
    ensures var v := Atomic(w, op).rows;
            && o < |v.orders| && v.orders[o].status == w.rows.orders[o].status && |w.rows.payments| <= |v.payments|
            && forall p ::
                (0 <= p < |w.rows.payments| && w.rows.payments[p].order == o && Claimed(w.rows.payments[p])) ==>
                v.payments[p].order == o && v.payments[p].status == w.rows.payments[p].status
  {
  }

  // ---------------------------------------------------------------------
  // One step
  // ---------------------------------------------------------------------

  /** Only a call that is disputing the order asks the system to flag it, and at its commit
      the order is dead. */
  lemma FlagsOnlyDisputed(s: State, step: Step)
    requires Sound(s) && Enabled(s, step)
    requires var op := OpOf(s, step); op.Change? && op.actor == System && op.to == DISPUTED
    ensures var o := OpOf(s, step).order;
            o < |s.world.rows.orders| && s.world.rows.orders[o].status in DEAD && BeingDisputed(s, o)
  {
    assert CallOk(s.world, s.calls[step.k]);
    assert Disputing(s.calls[step.k], s.calls[step.k].order);
  }

  lemma StepBacks(s: State, step: Step, o: OrderId)
    requires Sound(s) && Enabled(s, step) && o < |s.world.rows.orders| && Safe(s, o) &&
              SparesNow(s.world, OpOf(s, step), o)
    ensures o < |Exec(s, step).world.rows.orders| && Backed(Exec(s, step).world.rows, o)
  {
    var op := OpOf(s, step);
    ExecIsAtomic(s, step);
    if !op.Change? {
      PlainOpBacked(s.world, op, o);
    } else if TransitionNow(s.world.rows, op.order, op.to, op.actor, op.extra).outcome == Changed {
      if op.order != o {
        OtherOrderBacked(s.world, op, o);
      } else {
        if op.actor == System && op.to == DISPUTED {
          FlagsOnlyDisputed(s, step);
        }
        ChangeBacks(s.world, op);
      }
    }
  }

  /** An order that was past its start and is dead now was as dead before, and keeps its
      successes. */
  lemma DeadStays(s: State, step: Step, o: OrderId)
    requires Sound(s) && Enabled(s, step) && o < |s.world.rows.orders| && SparesNow(s.world, OpOf(s, step), o)
    requires s.world.rows.orders[o].status != PAYMENT_PENDING
    requires o < |Exec(s, step).world.rows.orders| && Exec(s, step).world.rows.orders[o].status in DEAD
    ensures s.world.rows.orders[o].status in DEAD
    ensures Survives(s.world.rows.payments, Exec(s, step).world.rows.payments, o, Succeeded)
  {
    var op := OpOf(s, step);
    ExecIsAtomic(s, step);
    if !op.Change? {
      PlainOpBacked(s.world, op, o);
    } else if TransitionNow(s.world.rows, op.order, op.to, op.actor, op.extra).outcome == Changed {
      ChangedOrders(s.world, op);
      ChangeSurvives(s.world.rows, op.order, op.to, op.extra, o);
    }
  }

  /** A call that starts to dispute an order has just recorded a success for it. */
  lemma NewDispute(s: State, step: Step, k: CallId, o: OrderId)
    requires Sound(s) && Enabled(s, step) && k in Exec(s, step).calls && Disputing(Exec(s, step).calls[k], o)
    requires !(k in s.calls && Disputing(s.calls[k], o))
    ensures step.ClaimPaymentAlone? && step.k == k && k in s.calls && s.calls[k].Claiming?
    ensures var p, v := s.calls[k].payment, Exec(s, step).world.rows.payments;
            p < |v| && v[p].order == o && v[p].status == Succeeded && Exec(s, step).calls[k].after.payment == p
  {
  }

  lemma StepSafe(s: State, step: Step, o: OrderId)
    requires Sound(s) && AllKnow(s) && Enabled(s, step) && o < |s.world.rows.orders|
    requires Safe(s, o) && SparesNow(s.world, OpOf(s, step), o)
    ensures o < |Exec(s, step).world.rows.orders| && Safe(Exec(s, step), o)
  {
    var v := Exec(s, step);
    StepBacks(s, step, o);
    if v.world.rows.orders[o].status in DEAD && BeingDisputed(v, o) {
      var k :| k in v.calls && Disputing(v.calls[k], o);
      if k in s.calls && Disputing(s.calls[k], o) {
        assert Knows(s.world, s.calls[k]) && OrderShape(s.world, o);
        StatusOf(s.world.trails[o]);
        DeadStays(s, step, o);
        assert BeingDisputed(s, o);
      } else {
        NewDispute(s, step, k, o);
        var p := s.calls[k].payment;
        assert v.world.rows.payments[p].order == o && v.world.rows.payments[p].status == Succeeded;
      }
    }
  }

  /** An order that was just placed waits for its payment. */
  lemma NewOrderSafe(s: State, step: Step, o: OrderId)
    requires Sound(s) && Enabled(s, step) && |s.world.rows.orders| <= o < |Exec(s, step).world.rows.orders|
    ensures Safe(Exec(s, step), o)
  {
    var op := OpOf(s, step);
    ExecIsAtomic(s, step);
    if op.Change? && TransitionNow(s.world.rows, op.order, op.to, op.actor, op.extra).outcome == Changed {
      ChangedOrders(s.world, op);
      assert false;
    }
    assert Exec(s, step).world.rows.orders[o].status == PAYMENT_PENDING;
  }

  // ---------------------------------------------------------------------
  // Runs
  // ---------------------------------------------------------------------

  /** In this run no failure write hit a recorded success of order `o`. */
  ghost predicate Spared(s: State, steps: seq<Step>, o: OrderId)
    requires Legal(s, steps)
  {
    var payments := End(s, steps).world.rows.payments;
    forall p: PaymentId :: p < |payments| && payments[p].order == o ==> Hits(s, steps, p) == 0
  }

  lemma SparedBefore(s: State, steps: seq<Step>, o: OrderId)
    requires Sound(s) && steps != [] && Legal(s, steps) && Spared(s, steps, o)
    ensures Spared(s, steps[..|steps| - 1], o)
    ensures var e := End(s, steps[..|steps| - 1]); SparesNow(e.world, OpOf(e, steps[|steps| - 1]), o)
  {
    var before, step := steps[..|steps| - 1], steps[|steps| - 1];
    var e, f := End(s, before).world, End(s, steps).world;
    RunSound(s, before);
    SoundStep(End(s, before), step);
    forall p: PaymentId | p < |e.rows.payments| && e.rows.payments[p].order == o
      ensures Hits(s, before, p) == 0 && !HitOp(e, OpOf(End(s, before), step), p)
    {
      assert SamePayment(e.rows.payments[p], f.rows.payments[p]);
      assert Hits(s, steps, p) == 0;
    }
  }

  lemma {:induction false} RunSafe(s: State, steps: seq<Step>, o: OrderId)
    requires Sound(s) && AllKnow(s) && Legal(s, steps) && Spared(s, steps, o)
    requires o < |s.world.rows.orders| ==> Safe(s, o)
    ensures o < |End(s, steps).world.rows.orders| ==> Safe(End(s, steps), o)
  {
    if steps != [] {
      var before, step := steps[..|steps| - 1], steps[|steps| - 1];
      RunKnows(s, before);
      SparedBefore(s, steps, o);
      RunSafe(s, before, o);
      if o < |End(s, before).world.rows.orders| {
        StepSafe(End(s, before), step, o);
      } else if o < |End(s, steps).world.rows.orders| {
        NewOrderSafe(End(s, before), step, o);
      }
    }
  }

  lemma InitialKnows(s: State)
    requires Initial(s)
    ensures Sound(s) && AllKnow(s)
  {
    InitialSound(s);
  }

  /** Every sale is backed by money: in every state that any interleaving reaches, an order
      in PAID, PROCESSING, SHIPPED, DELIVERED, DISPUTED or PARTIALLY_REFUNDED has a
      successful payment and a refunded order a refunded one, unless a failure write hit a
      recorded success of this very order. */
  lemma EverySaleIsBacked(s: State, steps: seq<Step>, o: OrderId)
    requires Initial(s) && Legal(s, steps) && o < |End(s, steps).world.rows.orders| && Spared(s, steps, o)
    ensures var r := End(s, steps).world.rows;
            && (r.orders[o].status in {PAID, PROCESSING, SHIPPED, DELIVERED, DISPUTED, PARTIALLY_REFUNDED} ==>
                  HasPayment(r.payments, o, Succeeded))
            && (r.orders[o].status == REFUNDED ==> HasPayment(r.payments, o, Refunded))
    ensures Safe(End(s, steps), o)
  {
    InitialKnows(s);
    RunSafe(s, steps, o);
  }

  // ---------------------------------------------------------------------
  // Exactly which states keep a sale backed
  // ---------------------------------------------------------------------

  /** Whatever happens next, as long as no failure write hits the order, it stays backed. */
  ghost predicate StaysBacked(s: State, o: OrderId) {
    forall steps: seq<Step> :: Legal(s, steps) && Spared(s, steps, o) ==>
      o < |End(s, steps).world.rows.orders| && Backed(End(s, steps).world.rows, o)
  }

  lemma OneStep(s: State, step: Step)
    requires Enabled(s, step)
    ensures Legal(s, [step]) && End(s, [step]) == Exec(s, step)
    ensures forall p :: Hits(s, [step], p) == if HitOp(s.world, OpOf(s, step), p) then 1 else 0
  {
    assert [step][..0] == [];
    assert Legal(s, []) && End(s, []) == s;
  }

  lemma TwoSteps(s: State, a: Step, b: Step)
    requires Enabled(s, a) && Enabled(Exec(s, a), b) && !a.AttemptCrashed? && !b.AttemptCrashed?
    ensures Legal(s, [a, b]) && End(s, [a, b]) == Exec(Exec(s, a), b)
    ensures forall p :: Hits(s, [a, b], p) == 0
  {
    OneStep(s, a);
    assert [a, b][..1] == [a];
  }

  /** A dead order without a success that is being disputed gets flagged without one. */
  lemma FlagsUnbacked(s: State, o: OrderId, k: CallId)
    requires Sound(s) && AllKnow(s) && o < |s.world.rows.orders| && s.world.rows.orders[o].status in DEAD
    requires k in s.calls && Disputing(s.calls[k], o) && s.calls[k].StatusSeen?
    requires !HasPayment(s.world.rows.payments, o, Succeeded)
    ensures Enabled(s, CommitStatus(k))
    ensures var v := Exec(s, CommitStatus(k)).world.rows;
            o < |v.orders| && v.orders[o].status == DISPUTED && !Backed(v, o)
  {
    var c, r := s.calls[k], s.world.rows;
    assert CallOk(s.world, c) && Knows(s.world, c) && OrderShape(s.world, o);
    StatusOf(s.world.trails[o]);
    SeenDead(s.world.trails[o], c.seen.status);
    assert c.seen == r.orders[o];
    assert Settle(r.payments, o, DISPUTED) == r.payments;
    assert ChangeStatus(r, o, c.seen, DISPUTED, NoExtra).outcome == Changed;
    assert Exec(s, CommitStatus(k)).world.rows.payments == r.payments;
  }

  lemma UnsafeBreaks(s: State, o: OrderId) returns (steps: seq<Step>)
    requires Sound(s) && AllKnow(s) && o < |s.world.rows.orders| && !Safe(s, o)
    ensures Legal(s, steps) && forall p :: Hits(s, steps, p) == 0
    ensures o < |End(s, steps).world.rows.orders| && !Backed(End(s, steps).world.rows, o)
  {
    steps := [];
    if Backed(s.world.rows, o) {
      var k :| k in s.calls && Disputing(s.calls[k], o);
      if s.calls[k].StatusSeen? {
        FlagsUnbacked(s, o, k);
        steps := [CommitStatus(k)];
        OneStep(s, CommitStatus(k));
      } else {
        steps := ReadsAndFlags(s, o, k);
      }
    }
  }

  lemma ReadsAndFlags(s: State, o: OrderId, k: CallId) returns (steps: seq<Step>)
    requires Sound(s) && AllKnow(s) && o < |s.world.rows.orders| && s.world.rows.orders[o].status in DEAD
    requires k in s.calls && Disputing(s.calls[k], o) && s.calls[k].Intent?
    requires !HasPayment(s.world.rows.payments, o, Succeeded)
    ensures Legal(s, steps) && forall p :: Hits(s, steps, p) == 0
    ensures o < |End(s, steps).world.rows.orders| && !Backed(End(s, steps).world.rows, o)
  {
    ReadsDead(s, o, k);
    StepKnows(s, ReadStatus(k));
    FlagsUnbacked(Exec(s, ReadStatus(k)), o, k);
    steps := [ReadStatus(k), CommitStatus(k)];
    TwoSteps(s, ReadStatus(k), CommitStatus(k));
  }

  lemma ReadsDead(s: State, o: OrderId, k: CallId)
    requires Sound(s) && o < |s.world.rows.orders| && s.world.rows.orders[o].status in DEAD
    requires k in s.calls && Disputing(s.calls[k], o) && s.calls[k].Intent?
    ensures Enabled(s, ReadStatus(k))
    ensures var v := Exec(s, ReadStatus(k));
            v.world == s.world && k in v.calls && v.calls[k].StatusSeen? && Disputing(v.calls[k], o)
  {
    assert CallOk(s.world, s.calls[k]);
  }

  /** Exactly the safe states keep an order backed in every continuation that spares it. */
  lemma SafeExactly(s: State, o: OrderId)
    requires Sound(s) && AllKnow(s) && o < |s.world.rows.orders|
    ensures StaysBacked(s, o) <==> Safe(s, o)
  {
    if Safe(s, o) {
      forall steps: seq<Step> | Legal(s, steps) && Spared(s, steps, o)
        ensures o < |End(s, steps).world.rows.orders| && Backed(End(s, steps).world.rows, o)
      {
        RunSafe(s, steps, o);
        RunSound(s, steps);
      }
    } else {
      var steps := UnsafeBreaks(s, o);
      assert Spared(s, steps, o);
    }
  }
}
