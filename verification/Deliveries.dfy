/** A success that is reported again: duplicated, late or racing webhooks and polls. */
module Deliveries {
  import opened Wrappers
  import opened OrderStatus
  import opened Tables
  import opened Protocol
  import opened ProtocolShape
  import opened Claims

  /** A call that is processing a reported success of attempt `p` and has recorded
      nothing of it. */
  predicate Replaying(c: Call, p: PaymentId) {
    match c
    case Fetch(q, _, _) => q == p
    case Intent(_, to, _, extra, after) => to == PAID && extra == ClaimPayment(p) && after.AfterPaid? &&
      after.payment == p
    case StatusSeen(_, _, to, _, extra, after) => to == PAID && extra == ClaimPayment(p) && after.AfterPaid? &&
      after.payment == p
    case Claiming(q, _, _) => q == p
    case Finished(q, _) => q == p
    case _ => false
  }

  /** The call that takes a step. */
  function Owner(step: Step): Option<CallId> {
    match step
    case ReadCoupon(k) => Some(k)
    case CommitCheckout(k, _) => Some(k)
    case RecordAttempt(k, _) => Some(k)
    case AttemptStarted(k) => Some(k)
    case AttemptCrashed(k) => Some(k)
    case ReadStatus(k) => Some(k)
    case CommitStatus(k) => Some(k)
    case FetchOrder(k) => Some(k)
    case ClaimPaymentAlone(k) => Some(k)
    case _ => None
  }

  lemma OthersLeaveIt(s: State, step: Step, k: CallId, p: PaymentId)
    requires Enabled(s, step) && k in s.calls && Replaying(s.calls[k], p) && Owner(step) != Some(k)
    ensures k in Exec(s, step).calls && Exec(s, step).calls[k] == s.calls[k]
  {
  }

  /** A commit on behalf of a recorded success finds it recorded, or nothing to do. */
  lemma ReplayCommit(s: State, k: CallId, p: PaymentId)
    requires Sound(s) && Enabled(s, CommitStatus(k)) && Replaying(s.calls[k], p)
    requires p < |s.world.rows.payments| && Claimed(s.world.rows.payments[p])
    ensures CommitChange(s.world, s.calls[k]).0 == s.world && CommitChange(s.world, s.calls[k]).1 != Changed
    ensures CommitChange(s.world, s.calls[k]).1 !in {NotFound, NotAllowed}
  {
    var c := s.calls[k];
    assert CallOk(s.world, c);
    assert Settle(s.world.rows.payments, c.order, PAID) == s.world.rows.payments;
  }

  lemma ReplayOwn(s: State, step: Step, k: CallId, p: PaymentId)
    requires Sound(s) && Enabled(s, step) && Owner(step) == Some(k) && !step.CommitStatus?
    requires k in s.calls && Replaying(s.calls[k], p) && p < |s.world.rows.payments| &&
              Claimed(s.world.rows.payments[p])
    ensures k in Exec(s, step).calls && Replaying(Exec(s, step).calls[k], p) && Exec(s, step).world == s.world
  {
    assert CallOk(s.world, s.calls[k]);
  }

  lemma ReplayStep(s: State, step: Step, k: CallId, p: PaymentId)
    requires Sound(s) && Enabled(s, step)
    requires k in s.calls && Replaying(s.calls[k], p) && p < |s.world.rows.payments| &&
              Claimed(s.world.rows.payments[p])
    ensures k in Exec(s, step).calls && Replaying(Exec(s, step).calls[k], p)
    ensures Owner(step) == Some(k) ==> Exec(s, step).world == s.world
  {
    if Owner(step) != Some(k) {
      OthersLeaveIt(s, step, k, p);
    } else if step.CommitStatus? {
      ReplayCommit(s, k, p);
    } else {
      ReplayOwn(s, step, k, p);
    }
  }

  /** Replaying an already recorded success is silent: whatever else goes on, as long as
      the success stays recorded no step of the call that handles it changes an order, the
      stock, a payment or anything. */
  lemma ReplayIsSilent(s: State, steps: seq<Step>, k: CallId, p: PaymentId, last: Step)
    requires Sound(s) && Legal(s, steps) && Hits(s, steps, p) == 0
    requires k in s.calls && Replaying(s.calls[k], p) && p < |s.world.rows.payments| &&
              Claimed(s.world.rows.payments[p])
    requires Enabled(End(s, steps), last) && Owner(last) == Some(k)
    ensures Exec(End(s, steps), last).world == End(s, steps).world
  {
    ReplayGoesOn(s, steps, k, p);
    ReplayStep(End(s, steps), last, k, p);
  }

  lemma {:induction false} ReplayGoesOn(s: State, steps: seq<Step>, k: CallId, p: PaymentId)
    requires Sound(s) && Legal(s, steps) && Hits(s, steps, p) == 0
    requires k in s.calls && Replaying(s.calls[k], p) && p < |s.world.rows.payments| &&
              Claimed(s.world.rows.payments[p])
    ensures Sound(End(s, steps)) && p < |End(s, steps).world.rows.payments| &&
            Claimed(End(s, steps).world.rows.payments[p])
    ensures k in End(s, steps).calls && Replaying(End(s, steps).calls[k], p)
  {
    RunSound(s, steps);
    ClaimStaysAlong(s, steps, p);
    if steps != [] {
      var before := steps[..|steps| - 1];
      ReplayGoesOn(s, before, k, p);
      ReplayStep(End(s, before), steps[|steps| - 1], k, p);
    }
  }
}
