/** One retry is enough.  `applyResult` first tries to make the order PAID from the
    status it read; when the order moved on in between it looks once more, and only
    once.  The success it handles still goes unrecorded in one situation only. */
module Retry {
  import opened Wrappers
  import opened OrderStatus
  import opened Tables
  import opened Protocol
  import opened ProtocolShape
  import opened Claims
  import opened Deliveries

  /** The order waited for its payment, or had expired, when the result arrived. */
  predicate OpenAt(t: Trail, since: nat) {
    1 <= since <= |t| && t[since - 1] in {PAYMENT_PENDING, EXPIRED}
  }

  /** While the call was running, others first let the order expire and then moved it
      on to PAID or DISPUTED. */
  predicate ExpiredAndMovedOn(t: Trail, since: nat) {
    since == 1 && |t| >= 3 && t[1] == EXPIRED && t[2] in {PAID, DISPUTED}
  }

  predicate ExpiredSince(t: Trail, since: nat) {
    since == 1 && |t| >= 2 && t[1] == EXPIRED
  }

  predicate AttemptOk(t: Trail, depth: nat, since: nat) {
    OpenAt(t, since) && (depth == 0 || ExpiredSince(t, since))
  }

  /** The call handles a reported success of attempt `p`. */
  predicate Handling(c: Call, p: PaymentId) {
    match c
    case Fetch(q, _, _) => q == p
    case Intent(_, _, _, _, after) => !after.Return? && after.payment == p
    case StatusSeen(_, _, _, _, _, after) => !after.Return? && after.payment == p
    case Finished(q, _) => q == p
    case _ => false
  }

  /** What such a call knows about the attempt's order, and of what it recorded. */
  ghost predicate RetryOk(w: World, c: Call)
    requires Shape(w)
  {
    match c
    case Fetch(p, depth, since) =>
      p < |w.rows.payments| &&
      var t := w.trails[w.rows.payments[p].order];
      1 <= since <= |t| && (depth > 0 ==> OpenAt(t, since) && since < |t|)
    case Intent(o, _, _, _, after) =>
      o < |w.trails| && AfterRetryOk(w, o, after)
    case StatusSeen(o, seen, _, _, _, after) =>
      && o < |w.trails| && AfterRetryOk(w, o, after)
      && (after.AfterPaid? ==>
            && (seen.status == PAYMENT_PENDING ==> after.since == 1 && after.depth == 0)
            && (seen.status == EXPIRED ==> |w.trails[o]| >= 2 && w.trails[o][1] == EXPIRED))
    case Finished(p, since) =>
      p < |w.rows.payments| &&
        (Claimed(w.rows.payments[p]) || ExpiredAndMovedOn(w.trails[w.rows.payments[p].order], since))
    case _ => true
  }

  ghost predicate AfterRetryOk(w: World, o: OrderId, after: After)
    requires Shape(w) && o < |w.trails|
  {
    match after
    case Return => true
    case AfterPaid(_, depth, since) => AttemptOk(w.trails[o], depth, since)
    case AfterDisputed(p, _) => p < |w.rows.payments| && Claimed(w.rows.payments[p])
  }

  /** A trail that left PAYMENT_PENDING or EXPIRED, as far as this matters here. */
  lemma OpenStatuses(t: Trail)
    requires Path(t)
    ensures t[0] == PAYMENT_PENDING
    ensures Last(t) == PAYMENT_PENDING <==> |t| == 1
    ensures Last(t) == EXPIRED <==> |t| == 2 && t[1] == EXPIRED
    ensures forall since :: OpenAt(t, since) ==> since == 1 || (since == 2 && t[1] == EXPIRED)
    ensures |t| >= 3 && t[1] == EXPIRED ==> t[2] in {PAID, DISPUTED}
  {
    NoReentry(t);
    if |t| >= 3 {
      assert Edge(t[1], t[2]);
    }
  }

  /** The success of `p`, if it is recorded in the first world, is in the second. */
  predicate Stays(w: World, v: World, p: PaymentId) {
    p < |w.rows.payments| && Claimed(w.rows.payments[p]) ==> p < |v.rows.payments| && Claimed(v.rows.payments[p])
  }

  lemma RetryOkGrows(w: World, v: World, c: Call, p: PaymentId)
    requires Shape(w) && Shape(v) && Grows(w, v) && Handling(c, p) && RetryOk(w, c) && Stays(w, v, p)
    ensures RetryOk(v, c)
  {
    match c
    case Fetch(_, _, _) =>
      assert w.trails[w.rows.payments[p].order] <= v.trails[w.rows.payments[p].order];
    case Finished(_, _) =>
      assert w.trails[w.rows.payments[p].order] <= v.trails[w.rows.payments[p].order];
    case Intent(o, _, _, _, _) =>
      assert w.trails[o] <= v.trails[o];
    case StatusSeen(o, _, _, _, _, _) =>
      assert w.trails[o] <= v.trails[o];
    case _ =>
  }

  /** The step that reads the order of the reported payment. */
  lemma FetchRetry(s: State, step: Step)
    requires Sound(s) && Enabled(s, step) && step.FetchOrder? && RetryOk(s.world, s.calls[step.k])
    ensures RetryOk(s.world, Exec(s, step).calls[step.k])
  {
    var c := s.calls[step.k];
    var o := s.world.rows.payments[c.payment].order;
    assert OrderShape(s.world, o);
    OpenStatuses(s.world.trails[o]);
  }

  lemma ReadRetry(s: State, step: Step)
    requires Sound(s) && Enabled(s, step) && step.ReadStatus? && RetryOk(s.world, s.calls[step.k])
    requires step.k in Exec(s, step).calls
    ensures RetryOk(s.world, Exec(s, step).calls[step.k])
  {
    var c := s.calls[step.k];
    assert OrderShape(s.world, c.order);
    OpenStatuses(s.world.trails[c.order]);
    assert CallOk(s.world, c);
  }

  /** A commit that went through, or found the success recorded, leaves it recorded. */
  lemma CommitRecords(w: World, c: Call)
    requires c.StatusSeen? && c.extra.ClaimPayment? && c.to == PAID && c.extra.payment < |w.rows.payments|
    requires CommitChange(w, c).1 in {Changed, AlreadyProcessed}
    ensures var v := CommitChange(w, c).0.rows;
            |v.payments| == |w.rows.payments| && Claimed(v.payments[c.extra.payment])
  {
  }

  /** A commit that found the order moved on: at the first try the order was open, at the
      second it had expired before. */
  lemma CommitMovedOn(w: World, c: Call)
    requires Shape(w) && c.StatusSeen? && c.order < |w.rows.orders| && RetryOk(w, c)
    requires c.after.AfterPaid? && c.to == PAID && CanTransition(System, c.seen.status, PAID)
    requires CommitChange(w, c).1 == Unchanged
    ensures var t := w.trails[c.order];
            OpenAt(t, c.after.since) && c.after.since < |t| &&
              (c.after.depth > 0 ==> ExpiredAndMovedOn(t, c.after.since))
  {
    assert OrderShape(w, c.order);
    assert w.rows.orders[c.order].status != c.seen.status;
    OpenStatuses(w.trails[c.order]);
  }

  lemma CommitRetry(s: State, step: Step)
    requires Sound(s) && Enabled(s, step) && step.CommitStatus? && RetryOk(s.world, s.calls[step.k])
    requires Sound(Exec(s, step)) && Grows(s.world, Exec(s, step).world)
    requires step.k in Exec(s, step).calls
    requires !s.calls[step.k].after.Return? ==> Stays(s.world, Exec(s, step).world, s.calls[step.k].after.payment)
    ensures RetryOk(Exec(s, step).world, Exec(s, step).calls[step.k])
  {
    var c, v := s.calls[step.k], Exec(s, step).world;
    assert CallOk(s.world, c);
    if c.after.AfterPaid? {
      CommitPaidRetry(s, step);
    } else if c.after.AfterDisputed? {
      assert SamePayment(s.world.rows.payments[c.after.payment], v.rows.payments[c.after.payment]);
    }
  }

  lemma CommitPaidRetry(s: State, step: Step)
    requires Sound(s) && Enabled(s, step) && step.CommitStatus? && RetryOk(s.world, s.calls[step.k])
    requires s.calls[step.k].after.AfterPaid?
    requires Sound(Exec(s, step)) && Grows(s.world, Exec(s, step).world)
    requires step.k in Exec(s, step).calls
    ensures RetryOk(Exec(s, step).world, Exec(s, step).calls[step.k])
  {
    var c, v := s.calls[step.k], Exec(s, step).world;
    var p, outcome := c.after.payment, CommitChange(s.world, c).1;
    assert CallOk(s.world, c);
    assert SamePayment(s.world.rows.payments[p], v.rows.payments[p]);
    if outcome in {Changed, AlreadyProcessed} {
      CommitRecords(s.world, c);
    } else if outcome == Unchanged {
      CommitMovedOn(s.world, c);
    }
  }

  ghost predicate AllRetryOk(s: State, p: PaymentId)
    requires Shape(s.world)
  {
    forall k :: k in s.calls && Handling(s.calls[k], p) ==> RetryOk(s.world, s.calls[k])
  }

  /** A call that handles `p` after a step handled it before, unless the report of `p` has
      just arrived or its success has just been claimed. */
  lemma HandlesOn(s: State, step: Step, k: CallId, p: PaymentId)
    requires Enabled(s, step) && k in Exec(s, step).calls && Handling(Exec(s, step).calls[k], p)
    requires k in s.calls ==> Exec(s, step).calls[k] != s.calls[k]
    ensures (k in s.calls && Handling(s.calls[k], p)) || step.ReportSuccess? || step.ClaimPaymentAlone?
    ensures step.ReportSuccess? ==> Exec(s, step).calls[k].Fetch?
    ensures step.ReportSuccess? || (k in s.calls && Owner(step) == Some(k))
    ensures k in s.calls && step.CommitStatus? ==> !s.calls[k].after.Return? && s.calls[k].after.payment == p
  {
  }

  lemma ReportRetry(s: State, step: Step)
    requires Sound(s) && Enabled(s, step) && step.ReportSuccess? && step.k in Exec(s, step).calls
    ensures RetryOk(s.world, Exec(s, step).calls[step.k])
  {
  }

  lemma NewCallRetry(s: State, step: Step, k: CallId, p: PaymentId)
    requires Sound(s) && Enabled(s, step) && AllRetryOk(s, p)
    requires Sound(Exec(s, step)) && Grows(s.world, Exec(s, step).world) && Stays(s.world, Exec(s, step).world, p)
    requires k in Exec(s, step).calls && Handling(Exec(s, step).calls[k], p)
    requires k in s.calls ==> Exec(s, step).calls[k] != s.calls[k]
    ensures RetryOk(Exec(s, step).world, Exec(s, step).calls[k])
  {
    HandlesOn(s, step, k, p);
    if step.ReportSuccess? {
      ReportRetry(s, step);
    } else if step.ClaimPaymentAlone? {
      ClaimRetry(s, step);
    } else {
      HandledRetry(s, step, k);
    }
  }

  lemma HandledRetry(s: State, step: Step, k: CallId)
    requires Sound(s) && Enabled(s, step) && k in s.calls && RetryOk(s.world, s.calls[k]) && Owner(step) == Some(k)
    requires Sound(Exec(s, step)) && Grows(s.world, Exec(s, step).world) && k in Exec(s, step).calls
    requires s.calls[k].Fetch? || s.calls[k].Intent? || s.calls[k].StatusSeen?
    requires s.calls[k].StatusSeen? && !s.calls[k].after.Return? ==>
              Stays(s.world, Exec(s, step).world, s.calls[k].after.payment)
    ensures RetryOk(Exec(s, step).world, Exec(s, step).calls[k])
  {
    match step
    case FetchOrder(_) => FetchRetry(s, step);
    case ReadStatus(_) => ReadRetry(s, step);
    case CommitStatus(_) => CommitRetry(s, step);
  }

  /** Claimed by this call or by another one, the success is recorded. */
  lemma ClaimRetry(s: State, step: Step)
    requires Sound(s) && Enabled(s, step) && step.ClaimPaymentAlone? && Shape(Exec(s, step).world)
    ensures RetryOk(Exec(s, step).world, Exec(s, step).calls[step.k])
  {
    var c := s.calls[step.k];
    var next := Exec(s, step);
    assert CallOk(s.world, c);
    assert next.world == Atomic(s.world, Claim(c.payment));
    assert Claimed(next.world.rows.payments[c.payment]);
  }

  lemma RetryStep(s: State, step: Step, p: PaymentId)
    requires Sound(s) && Enabled(s, step) && AllRetryOk(s, p) && !HitOp(s.world, OpOf(s, step), p)
    ensures Sound(Exec(s, step)) && AllRetryOk(Exec(s, step), p)
  {
    SoundStep(s, step);
    ExecIsAtomic(s, step);
    if p < |s.world.rows.payments| && Claimed(s.world.rows.payments[p]) {
      ClaimStays(s.world, OpOf(s, step), p);
    }
    var v := Exec(s, step);
    forall k | k in v.calls && Handling(v.calls[k], p) ensures RetryOk(v.world, v.calls[k]) {
      if k in s.calls && v.calls[k] == s.calls[k] {
        RetryOkGrows(s.world, v.world, s.calls[k], p);
      } else {
        NewCallRetry(s, step, k, p);
      }
    }
  }

  lemma {:induction false} RunRetry(s: State, steps: seq<Step>, p: PaymentId)
    requires Initial(s) && Legal(s, steps) && Hits(s, steps, p) == 0
    ensures Sound(End(s, steps)) && AllRetryOk(End(s, steps), p)
  {
    if steps == [] {
      InitialSound(s);
    } else {
      RunRetry(s, steps[..|steps| - 1], p);
      RetryStep(End(s, steps[..|steps| - 1]), steps[|steps| - 1], p);
    }
  }

  /** When `applyResult` has handled a success with a fitting amount and returned, and no
      failure write hit it, the attempt is left pending or failed only if the order was
      waiting for its payment when the result arrived, and while the call ran others both
      expired it and then moved it on to PAID or DISPUTED. */
  lemma OneRetryIsEnough(s: State, steps: seq<Step>, k: CallId)
    requires Initial(s) && Legal(s, steps)
    requires k in End(s, steps).calls && End(s, steps).calls[k].Finished?
    requires Hits(s, steps, End(s, steps).calls[k].payment) == 0
    ensures var w := End(s, steps).world;
            var c := End(s, steps).calls[k];
            && c.payment < |w.rows.payments|
            && w.rows.payments[c.payment].order < |w.trails|
            && (w.rows.payments[c.payment].status in {Pending, Failed} ==>
                  var t := w.trails[w.rows.payments[c.payment].order];
                  c.since == 1 && |t| >= 3 && t[0] == PAYMENT_PENDING && t[1] == EXPIRED && t[2] in {PAID, DISPUTED})
  {
    var w := End(s, steps).world;
    var c := End(s, steps).calls[k];
    RunRetry(s, steps, c.payment);
    assert Handling(c, c.payment) && RetryOk(w, c);
    assert OrderShape(w, w.rows.payments[c.payment].order);
  }

  // ---------------------------------------------------------------------
  // Exactly when a success stays unrecorded
  // ---------------------------------------------------------------------

  predicate Unrecorded(r: Rows, p: PaymentId) {
    p < |r.payments| && !Claimed(r.payments[p])
  }

  /** With this step call `k` returns from handling attempt `p`, whose success is not
      recorded. */
  ghost predicate LeavesUnrecorded(s: State, step: Step, k: CallId, p: PaymentId)
    requires Enabled(s, step)
  {
    var v := Exec(s, step);
    && k in v.calls && v.calls[k].Finished? && v.calls[k].payment == p
    && !(k in s.calls && s.calls[k] == v.calls[k])
    && Unrecorded(v.world.rows, p)
  }

  /** The call is at its second try. */
  predicate TryingAgain(c: Call, p: PaymentId) {
    (c.Intent? || c.StatusSeen?) && c.after.AfterPaid? && c.after.payment == p && c.after.depth > 0
  }

  /** At its second try the call reads or commits, and the order is open no more although the
      success is not recorded. */
  ghost predicate MissesAgain(s: State, step: Step, k: CallId, p: PaymentId) {
    && (step == ReadStatus(k) || step == CommitStatus(k))
    && k in s.calls && TryingAgain(s.calls[k], p)
    && s.calls[k].order < |s.world.rows.orders|
    && s.world.rows.orders[s.calls[k].order].status !in {PAYMENT_PENDING, EXPIRED}
    && Unrecorded(s.world.rows, p)
  }

  lemma MissingLeaves(s: State, step: Step, k: CallId, p: PaymentId)
    requires Sound(s) && Enabled(s, step) && MissesAgain(s, step, k, p)
    ensures LeavesUnrecorded(s, step, k, p)
  {
    assert CallOk(s.world, s.calls[k]);
  }

  lemma LeavingMisses(s: State, step: Step, k: CallId, p: PaymentId)
    requires Sound(s) && AllRetryOk(s, p) && Enabled(s, step) && LeavesUnrecorded(s, step, k, p)
    requires Sound(Exec(s, step)) && Stays(s.world, Exec(s, step).world, p) && Grows(s.world, Exec(s, step).world)
    ensures MissesAgain(s, step, k, p)
  {
    HandlesOn(s, step, k, p);
    if step.ClaimPaymentAlone? {
      ClaimRetry(s, step);
    } else if step.CommitStatus? {
      LeavingAtCommit(s, step, k, p);
    } else {
      LeavingAtRead(s, step, k, p);
    }
  }

  lemma LeavingAtRead(s: State, step: Step, k: CallId, p: PaymentId)
    requires Sound(s) && Enabled(s, step) && LeavesUnrecorded(s, step, k, p) && Owner(step) == Some(k)
    requires k in s.calls && Handling(s.calls[k], p) && RetryOk(s.world, s.calls[k])
    requires !step.CommitStatus? && !step.ClaimPaymentAlone?
    ensures MissesAgain(s, step, k, p)
  {
    assert CallOk(s.world, s.calls[k]);
  }

  lemma LeavingAtCommit(s: State, step: Step, k: CallId, p: PaymentId)
    requires Sound(s) && Enabled(s, step) && LeavesUnrecorded(s, step, k, p) && step == CommitStatus(k)
    requires Handling(s.calls[k], p) && RetryOk(s.world, s.calls[k]) && Stays(s.world, Exec(s, step).world, p)
    ensures MissesAgain(s, step, k, p)
  {
    var c, w := s.calls[k], s.world;
    assert CallOk(w, c) && OrderShape(w, c.order);
    OpenStatuses(w.trails[c.order]);
    if CommitChange(w, c).1 in {Changed, AlreadyProcessed} && c.after.AfterPaid? {
      CommitRecords(w, c);
    }
  }

  /** Exactly when a success stays unrecorded: in a state reached by a run in which no
      failure write hit attempt `p`, a step leaves a call that handled `p` finished with the
      success not recorded if and only if it is the read or the commit of the call's second
      try, the order is neither waiting for its payment nor expired at that step, and
      nobody has recorded the success. */
  lemma UnrecordedExactly(s: State, steps: seq<Step>, step: Step, k: CallId, p: PaymentId)
    requires Initial(s) && Legal(s, steps) && Hits(s, steps, p) == 0
    requires Enabled(End(s, steps), step) && !HitOp(End(s, steps).world, OpOf(End(s, steps), step), p)
    ensures LeavesUnrecorded(End(s, steps), step, k, p) <==> MissesAgain(End(s, steps), step, k, p)
  {
    var e := End(s, steps);
    RunRetry(s, steps, p);
    SoundStep(e, step);
    ExecIsAtomic(e, step);
    if p < |e.world.rows.payments| && Claimed(e.world.rows.payments[p]) {
      ClaimStays(e.world, OpOf(e, step), p);
    }
    if MissesAgain(e, step, k, p) {
      MissingLeaves(e, step, k, p);
    }
    if LeavesUnrecorded(e, step, k, p) {
      LeavingMisses(e, step, k, p);
    }
  }
}
