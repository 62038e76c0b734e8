/** No recorded money lies on a dead order that nobody is going to look at. */
module StrayMoney {
  import opened OrderStatus
  import opened Tables
  import opened Protocol
  import opened ProtocolShape
  import opened Claims
  import opened Disputes
  import opened Money

  /** A call in flight is about to flag the order of attempt `p`, whose success it recorded. */
  ghost predicate DisputedFor(s: State, p: PaymentId)
    requires p < |s.world.rows.payments|
  {
    exists k :: k in s.calls && Disputing(s.calls[k], s.world.rows.payments[p].order) && s.calls[k].after.payment == p
  }

  ghost predicate NotStray(s: State, p: PaymentId)
    requires p < |s.world.rows.payments|
  {
    var o := s.world.rows.payments[p].order;
    s.world.rows.payments[p].status == Succeeded ==>
      o < |s.world.trails| && (BeenPaid(s.world.trails[o]) || DisputedFor(s, p))
  }

  /** An order that is past its start and not dead has been paid for. */
  lemma PaidUnlessDead(w: World, o: OrderId)
    requires Shape(w) && o < |w.rows.orders| && |w.trails[o]| >= 2 && w.rows.orders[o].status !in DEAD
    ensures BeenPaid(w.trails[o])
  {
    assert OrderShape(w, o);
    StatusOf(w.trails[o]);
  }

  /** The call reads the status: it goes on to flag the order, or finds it paid. */
  lemma ReadGoesOn(s: State, k: CallId, o: OrderId)
    requires Sound(s) && AllKnow(s) && Enabled(s, ReadStatus(k)) && o < |s.world.rows.orders|
    requires Disputing(s.calls[k], o)
    ensures || BeenPaid(s.world.trails[o])
            || (k in Exec(s, ReadStatus(k)).calls && Disputing(Exec(s, ReadStatus(k)).calls[k], o)
                && Exec(s, ReadStatus(k)).calls[k].after.payment == s.calls[k].after.payment)
  {
    assert CallOk(s.world, s.calls[k]) && Knows(s.world, s.calls[k]);
    if s.world.rows.orders[o].status !in DEAD {
      PaidUnlessDead(s.world, o);
    }
  }

  /** Nobody else's step touches the call. */
  lemma OthersLeaveIt(s: State, step: Step, k: CallId)
    requires Enabled(s, step) && k in s.calls && (s.calls[k].Intent? || s.calls[k].StatusSeen?)
    requires step != ReadStatus(k) && step != CommitStatus(k)
    ensures k in Exec(s, step).calls && Exec(s, step).calls[k] == s.calls[k]
  {
  }

  /** A step while a call is about to flag the order: the call goes on to, flags it, or finds
      it paid. */
  lemma DisputeGoesOn(s: State, step: Step, k: CallId, o: OrderId)
    requires Sound(s) && AllKnow(s) && Enabled(s, step) && o < |s.world.rows.orders|
    requires k in s.calls && Disputing(s.calls[k], o) && o < |Exec(s, step).world.trails|
    ensures || BeenPaid(Exec(s, step).world.trails[o])
            || (k in Exec(s, step).calls && Disputing(Exec(s, step).calls[k], o)
                && Exec(s, step).calls[k].after.payment == s.calls[k].after.payment)
  {
    if step == ReadStatus(k) {
      ReadGoesOn(s, k, o);
    } else if step == CommitStatus(k) {
      CommitFlags(s, k, o);
    } else {
      OthersLeaveIt(s, step, k);
    }
  }

  lemma CommitFlags(s: State, k: CallId, o: OrderId)
    requires Sound(s) && AllKnow(s) && Enabled(s, CommitStatus(k)) && o < |s.world.rows.orders|
    requires Disputing(s.calls[k], o)
    ensures o < |Exec(s, CommitStatus(k)).world.trails| && BeenPaid(Exec(s, CommitStatus(k)).world.trails[o])
  {
    var c, w := s.calls[k], s.world;
    var t := w.trails[o];
    assert CallOk(w, c) && Knows(w, c) && OrderShape(w, o);
    var v := Exec(s, CommitStatus(k)).world;
    if w.rows.orders[o].status == c.seen.status {
      assert ChangeStatus(w.rows, o, c.seen, DISPUTED, NoExtra).outcome == Changed;
      assert v.trails[o] == t + [DISPUTED];
      assert v.trails[o][|t|] in BACKED;
    } else {
      if w.rows.orders[o].status in DEAD {
        SeenDead(t, c.seen.status);
      }
      PaidUnlessDead(w, o);
    }
  }

  /** A success that was just recorded belongs to an order that is PAID, was paid before, or
      is going to be flagged by the call that recorded it. */
  lemma NewSuccess(s: State, step: Step, p: PaymentId)
    requires Sound(s) && AllKnow(s) && Enabled(s, step)
    requires p < |s.world.rows.payments| && p < |Exec(s, step).world.rows.payments|
    requires s.world.rows.payments[p].status != Succeeded && Exec(s, step).world.rows.payments[p].status == Succeeded
    ensures NotStray(Exec(s, step), p)
  {
    if OpOf(s, step).Change? {
      ExecIsAtomic(s, step);
      SoundStep(s, step);
      assert SamePayment(s.world.rows.payments[p], Exec(s, step).world.rows.payments[p]);
      PaidNow(s.world, OpOf(s, step), p);
    } else {
      ClaimedNow(s, step, p);
    }
  }

  lemma ClaimedNow(s: State, step: Step, p: PaymentId)
    requires Sound(s) && AllKnow(s) && Enabled(s, step) && !OpOf(s, step).Change?
    requires p < |s.world.rows.payments| && p < |Exec(s, step).world.rows.payments|
    requires s.world.rows.payments[p].status != Succeeded && Exec(s, step).world.rows.payments[p].status == Succeeded
    ensures NotStray(Exec(s, step), p)
  {
    OnlyClaimsRecord(s, step, p);
    var c, v := s.calls[step.k], Exec(s, step);
    assert Knows(s.world, c) && v.world.trails == s.world.trails;
    if c.dispute {
      assert Disputing(v.calls[step.k], s.world.rows.payments[p].order) && v.calls[step.k].after.payment == p;
    }
  }

  lemma OnlyClaimsRecord(s: State, step: Step, p: PaymentId)
    requires Sound(s) && Enabled(s, step) && !OpOf(s, step).Change?
    requires p < |s.world.rows.payments| && p < |Exec(s, step).world.rows.payments|
    requires s.world.rows.payments[p].status != Succeeded && Exec(s, step).world.rows.payments[p].status == Succeeded
    ensures step.ClaimPaymentAlone? && s.calls[step.k].payment == p && Claimable(s.world.rows.payments, p)
    ensures Exec(s, step).world.rows.payments[p].order == s.world.rows.payments[p].order
  {
    ExecIsAtomic(s, step);
  }

  lemma PaidNow(w: World, op: Op, p: PaymentId)
    requires Shape(w) && OpGuard(w, op) && op.Change? && p < |w.rows.payments| && p < |Atomic(w, op).rows.payments|
    requires w.rows.payments[p].status != Succeeded && Atomic(w, op).rows.payments[p].status == Succeeded
    ensures var o := w.rows.payments[p].order; o < |Atomic(w, op).trails| && BeenPaid(Atomic(w, op).trails[o])
  {
    var o := w.rows.payments[p].order;
    ChangedOrders(w, op);
    ChangedAttempts(w.rows, op.order, op.to, op.extra);
    assert Atomic(w, op).trails[o] == w.trails[o] + [PAID];
    assert Atomic(w, op).trails[o][|w.trails[o]|] in BACKED;
  }

  lemma StepNotStray(s: State, step: Step, p: PaymentId)
    requires Sound(s) && AllKnow(s) && Enabled(s, step) && p < |s.world.rows.payments| && NotStray(s, p)
    ensures p < |Exec(s, step).world.rows.payments| && NotStray(Exec(s, step), p)
  {
    var v, o := Exec(s, step), s.world.rows.payments[p].order;
    StepKnows(s, step);
    assert SamePayment(s.world.rows.payments[p], v.world.rows.payments[p]);
    if v.world.rows.payments[p].status == Succeeded {
      if s.world.rows.payments[p].status != Succeeded {
        NewSuccess(s, step, p);
      } else if BeenPaid(s.world.trails[o]) {
        BeenPaidStays(s.world.trails[o], v.world.trails[o]);
      } else {
        var k :| k in s.calls && Disputing(s.calls[k], o) && s.calls[k].after.payment == p;
        DisputeGoesOn(s, step, k, o);
      }
    }
  }

  lemma NewAttemptPending(s: State, step: Step, p: PaymentId)
    requires Sound(s) && Enabled(s, step) && |s.world.rows.payments| <= p < |Exec(s, step).world.rows.payments|
    ensures Exec(s, step).world.rows.payments[p].status == Pending
  {
    SoundStep(s, step);
    ExecIsAtomic(s, step);
    NewAttemptCounted(s.world, OpOf(s, step), p);
  }

  lemma {:induction false} RunNotStray(s: State, steps: seq<Step>, p: PaymentId)
    requires Initial(s) && Legal(s, steps)
    ensures p < |End(s, steps).world.rows.payments| ==> NotStray(End(s, steps), p)
  {
    if steps != [] {
      var before, step := steps[..|steps| - 1], steps[|steps| - 1];
      RunNotStray(s, before, p);
      RunKnows(s, before);
      if p < |End(s, before).world.rows.payments| {
        StepNotStray(End(s, before), step, p);
      } else if p < |End(s, steps).world.rows.payments| {
        NewAttemptPending(End(s, before), step, p);
      }
    }
  }

  /** The converse of backing, in every state that any run reaches: a successful payment is
      one of an order in a paid status or refunded, or a call in flight is about to flag its
      dead order.  No recorded money lies forgotten. */
  lemma NoStrayMoney(s: State, steps: seq<Step>, p: PaymentId)
    requires Initial(s) && Legal(s, steps)
    requires p < |End(s, steps).world.rows.payments| && End(s, steps).world.rows.payments[p].status == Succeeded
    ensures var e := End(s, steps);
            var o := e.world.rows.payments[p].order;
            && o < |e.world.rows.orders|
            && (|| e.world.rows.orders[o].status in
                    {PAID, PROCESSING, SHIPPED, DELIVERED, DISPUTED, PARTIALLY_REFUNDED, REFUNDED}
                || (e.world.rows.orders[o].status in {EXPIRED, CANCELLED, PAYMENT_FAILED} && DisputedFor(e, p)))
  {
    var e := End(s, steps);
    var o := e.world.rows.payments[p].order;
    RunNotStray(s, steps, p);
    RunKnows(s, steps);
    assert OrderShape(e.world, o);
    StatusOf(e.world.trails[o]);
    if !BeenPaid(e.world.trails[o]) {
      var k :| k in e.calls && Disputing(e.calls[k], o) && e.calls[k].after.payment == p;
      assert Knows(e.world, e.calls[k]);
    }
  }
}
