/** What the calls in flight know about the orders they are about: a call that is going to
    flag an order for the owner knows that it no longer waits for its payment.  All of it
    holds in every reachable state. */
module Disputes {
  import opened OrderStatus
  import opened Tables
  import opened Protocol
  import opened ProtocolShape

  /** Statuses of an order nobody paid for in time. */
  const DEAD: set<Status> := {EXPIRED, CANCELLED, PAYMENT_FAILED}

  /** The order has been in a status that needs money. */
  predicate BeenPaid(t: Trail) {
    exists i :: 0 <= i < |t| && t[i] in BACKED
  }

  lemma BeenPaidStays(t: Trail, u: Trail)
    requires t <= u && BeenPaid(t)
    ensures BeenPaid(u)
  {
    var i :| 0 <= i < |t| && t[i] in BACKED;
    assert u[i] in BACKED;
  }

  lemma StatusOf(t: Trail)
    requires Path(t)
    ensures Last(t) == PAYMENT_PENDING <==> |t| == 1
    ensures Last(t) in DEAD ==> |t| == 2
    ensures Last(t) in BACKED + {REFUNDED} <==> BeenPaid(t)
    ensures Last(t) in {PAYMENT_PENDING} + DEAD + BACKED + {REFUNDED}
  {
    NoReentry(t);
    var n := |t| - 1;
    if n > 0 {
      assert Edge(t[n - 1], t[n]);
      if n > 1 {
        assert Edge(t[n - 2], t[n - 1]);
      }
    }
    if i :| 0 <= i < |t| && t[i] in BACKED {
      if i < n {
        AfterPayment(t, i, n);
      }
    }
    if Last(t) in BACKED {
      assert t[n] in BACKED;
    } else if Last(t) == REFUNDED {
      assert t[n - 1] in BACKED;
    }
  }

  /** A dead status that a dead order was seen in is its present one. */
  lemma SeenDead(t: Trail, seen: Status)
    requires Path(t) && Last(t) in DEAD && seen in t && CanTransition(System, seen, DISPUTED)
    ensures seen == Last(t)
  {
    StatusOf(t);
    assert t[0] == PAYMENT_PENDING;
  }

  // ---------------------------------------------------------------------
  // What the calls know about the orders they are about
  // ---------------------------------------------------------------------

  /** The call is about to flag order `o` for the owner. */
  predicate Disputing(c: Call, o: OrderId) {
    (c.Intent? || c.StatusSeen?) && c.order == o && c.after.AfterDisputed?
  }

  ghost predicate Knows(w: World, c: Call) {
    match c
    case Intent(o, _, _, _, after) => after.AfterDisputed? ==> o < |w.trails| && |w.trails[o]| >= 2
    case StatusSeen(o, seen, _, _, _, after) =>
      o < |w.trails| && seen.status in w.trails[o] && (after.AfterDisputed? ==> |w.trails[o]| >= 2)
    case Claiming(p, dispute, _) =>
      && p < |w.rows.payments| && w.rows.payments[p].order < |w.trails|
      && var t := w.trails[w.rows.payments[p].order];
         if dispute then |t| >= 2 else BeenPaid(t)
    case _ => true
  }

  ghost predicate AllKnow(s: State) {
    forall k :: k in s.calls ==> Knows(s.world, s.calls[k])
  }

  lemma KnowsGrows(w: World, v: World, c: Call)
    requires Grows(w, v) && Knows(w, c)
    ensures Knows(v, c)
  {
    match c
    case Intent(o, _, _, _, after) =>
      assert after.AfterDisputed? ==> w.trails[o] <= v.trails[o];
    case StatusSeen(o, _, _, _, _, _) =>
      assert w.trails[o] <= v.trails[o];
    case Claiming(p, dispute, _) =>
      var t, u := w.trails[w.rows.payments[p].order], v.trails[w.rows.payments[p].order];
      assert SamePayment(w.rows.payments[p], v.rows.payments[p]);
      assert t <= u;
      if !dispute {
        var i :| 0 <= i < |t| && t[i] in BACKED;
        assert u[i] in BACKED;
      }
    case _ =>
  }

  lemma FetchKnows(s: State, step: Step)
    requires Sound(s) && Enabled(s, step) && step.FetchOrder?
    ensures Knows(s.world, Exec(s, step).calls[step.k])
  {
    var o := s.world.rows.payments[s.calls[step.k].payment].order;
    assert OrderShape(s.world, o);
    StatusOf(s.world.trails[o]);
  }

  lemma ReadKnows(s: State, step: Step)
    requires Sound(s) && Enabled(s, step) && step.ReadStatus? && Knows(s.world, s.calls[step.k])
    requires step.k in Exec(s, step).calls
    ensures Knows(s.world, Exec(s, step).calls[step.k])
  {
    assert OrderShape(s.world, s.calls[step.k].order);
  }

  lemma CommitKnows(s: State, step: Step)
    requires Sound(s) && Enabled(s, step) && step.CommitStatus? && Knows(s.world, s.calls[step.k])
    requires step.k in Exec(s, step).calls
    ensures Knows(Exec(s, step).world, Exec(s, step).calls[step.k])
  {
    var c := s.calls[step.k];
    var outcome := CommitChange(s.world, c).1;
    assert CallOk(s.world, c);
    if outcome == OutOfStock {
      assert OrderShape(s.world, c.order);
      StatusOf(s.world.trails[c.order]);
      assert c.seen.status in RELEASED;
    }
  }

  lemma ClaimKnows(s: State, step: Step)
    requires Sound(s) && Enabled(s, step) && step.ClaimPaymentAlone? && Knows(s.world, s.calls[step.k])
    ensures Knows(Exec(s, step).world, Exec(s, step).calls[step.k])
  {
    assert Exec(s, step).world.trails == s.world.trails;
  }

  lemma NewCallKnows(s: State, step: Step, k: CallId)
    requires Sound(s) && AllKnow(s) && Enabled(s, step) && Grows(s.world, Exec(s, step).world)
    requires k in Exec(s, step).calls && (k in s.calls ==> Exec(s, step).calls[k] != s.calls[k])
    ensures Knows(Exec(s, step).world, Exec(s, step).calls[k])
  {
    match step
    case FetchOrder(_) => FetchKnows(s, step);
    case ReadStatus(_) => ReadKnows(s, step);
    case CommitStatus(_) => CommitKnows(s, step);
    case ClaimPaymentAlone(_) => ClaimKnows(s, step);
    case _ => OtherKnows(s, step, k);
  }

  lemma NextKnows(s: State, step: Step, k: CallId)
    requires Sound(s) && AllKnow(s) && Enabled(s, step) && Grows(s.world, Exec(s, step).world)
    requires k in Exec(s, step).calls
    ensures Knows(Exec(s, step).world, Exec(s, step).calls[k])
  {
    var v := Exec(s, step);
    if k in s.calls && v.calls[k] == s.calls[k] {
      assert Knows(s.world, s.calls[k]);
      KnowsGrows(s.world, v.world, s.calls[k]);
    } else {
      NewCallKnows(s, step, k);
    }
  }

  lemma OtherKnows(s: State, step: Step, k: CallId)
    requires Enabled(s, step) && k in Exec(s, step).calls && (k in s.calls ==> Exec(s, step).calls[k] != s.calls[k])
    requires !step.FetchOrder? && !step.ReadStatus? && !step.CommitStatus? && !step.ClaimPaymentAlone?
    ensures Knows(Exec(s, step).world, Exec(s, step).calls[k])
  {
  }

  lemma StepKnows(s: State, step: Step)
    requires Sound(s) && AllKnow(s) && Enabled(s, step)
    ensures Sound(Exec(s, step)) && Grows(s.world, Exec(s, step).world) && AllKnow(Exec(s, step))
  {
    SoundStep(s, step);
    forall k | k in Exec(s, step).calls ensures Knows(Exec(s, step).world, Exec(s, step).calls[k]) {
      NextKnows(s, step, k);
    }
  }

  lemma {:induction false} RunKnows(s: State, steps: seq<Step>)
    requires (Initial(s) || (Sound(s) && AllKnow(s))) && Legal(s, steps)
    ensures Sound(End(s, steps)) && AllKnow(End(s, steps)) && Grows(s.world, End(s, steps).world)
  {
    RunSound(s, steps);
    if steps != [] {
      RunKnows(s, steps[..|steps| - 1]);
      StepKnows(End(s, steps[..|steps| - 1]), steps[|steps| - 1]);
    }
  }
}
