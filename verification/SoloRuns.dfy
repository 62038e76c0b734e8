/** A call that nobody interferes with: its steps in the transition system add up to what
    the services do when they are alone.  So what is proved about one atomic handling is
    also about runs, and the other way round. */
module SoloRuns {
  import opened Wrappers
  import opened OrderStatus
  import opened Tables
  import opened Protocol
  import opened ProtocolShape
  import opened ShopServices

  ghost predicate RunsTo(s: State, steps: seq<Step>, e: State) {
    Legal(s, steps) && End(s, steps) == e
  }

  lemma Onward(s: State, steps: seq<Step>, e: State, step: Step)
    requires RunsTo(s, steps, e) && Enabled(e, step)
    ensures RunsTo(s, steps + [step], Exec(e, step))
  {
    assert (steps + [step])[..|steps|] == steps;
  }

  /** A status change takes a read and a commit, or is refused at its read. */
  lemma ChangeSteps(s: State, steps: seq<Step>, e: State, k: CallId) returns (all: seq<Step>)
    requires RunsTo(s, steps, e) && k in e.calls && e.calls[k].Intent? && e.calls[k].order < |e.world.rows.orders|
    requires e.calls[k].actor == System || e.calls[k].after.Return?
    ensures var c := e.calls[k];
            var outcome := TransitionNow(e.world.rows, c.order, c.to, c.actor, c.extra).outcome;
            RunsTo(s, all, State(Atomic(e.world, Change(c.order, c.to, c.actor, c.extra)),
                                 SetCall(e.calls, k, Resume(c.after, outcome))))
  {
    var c := e.calls[k];
    var seen := e.world.rows.orders[c.order];
    Onward(s, steps, e, ReadStatus(k));
    all := steps + [ReadStatus(k)];
    var f := Exec(e, ReadStatus(k));
    RefusedNow(e.world, c.order, c.to, c.actor, c.extra);
    if seen.status != c.to && CanTransition(c.actor, seen.status, c.to) {
      AllowedChange(e.world, c.order, c.to, c.actor, c.extra);
      Onward(s, all, f, CommitStatus(k));
      all := all + [CommitStatus(k)];
      assert forall next :: SetCall(f.calls, k, next) == SetCall(e.calls, k, next);
    }
  }

  /** An admin's request for a status, by itself, is the atomic status change. */
  lemma RequestAlone(s: State, k: CallId, o: OrderId, to: Status) returns (steps: seq<Step>)
    requires k !in s.calls && o < |s.world.rows.orders|
    ensures RunsTo(s, steps, State(Atomic(s.world, Change(o, to, Admin, NoExtra)), s.calls))
  {
    var e := Exec(s, RequestStatus(k, o, to, Admin));
    Onward(s, [], s, RequestStatus(k, o, to, Admin));
    steps := ChangeSteps(s, [] + [RequestStatus(k, o, to, Admin)], e, k);
    assert e.calls - {k} == s.calls;
  }

  lemma ReadsCoupon(e: State, k: CallId, picks: seq<Pick>, code: Option<CouponCode>)
    requires k in e.calls && e.calls[k] == CartSeen(picks, code)
    ensures Exec(e, ReadCoupon(k)) ==
              State(e.world, e.calls[k := CheckoutReady(picks, LookUp(e.world.rows.coupons, code))])
  {
  }

  lemma CommitsCheckout(e: State, k: CallId, picks: seq<Pick>, coupon: Option<SeenCoupon>, now: int)
    requires k in e.calls && e.calls[k] == CheckoutReady(picks, coupon)
    ensures Exec(e, CommitCheckout(k, now)) == State(Atomic(e.world, Place(picks, coupon, now)), e.calls - {k})
  {
  }

  /** A checkout by itself is the atomic one, with the coupon that the code stands for. */
  lemma CheckoutAlone(s: State, k: CallId, cart: nat, picks: seq<Pick>, code: Option<CouponCode>, now: int)
    returns (steps: seq<Step>)
    requires k !in s.calls && IsCartRead(s.world.rows, cart, picks)
    ensures RunsTo(s, steps,
                   State(Atomic(s.world, Place(picks, LookUp(s.world.rows.coupons, code), now)), s.calls))
  {
    var coupon := LookUp(s.world.rows.coupons, code);
    var e := State(s.world, s.calls[k := CartSeen(picks, code)]);
    var f := State(s.world, e.calls[k := CheckoutReady(picks, coupon)]);
    steps := [BeginCheckout(k, cart, picks, code)];
    Onward(s, [], s, steps[0]);
    assert [] + steps == steps;
    assert RunsTo(s, steps, e);
    ReadsCoupon(e, k, picks, code);
    Onward(s, steps, e, ReadCoupon(k));
    steps := steps + [ReadCoupon(k)];
    assert RunsTo(s, steps, f);
    CommitsCheckout(f, k, picks, coupon, now);
    Onward(s, steps, f, CommitCheckout(k, now));
    steps := steps + [CommitCheckout(k, now)];
    assert f.calls - {k} == s.calls;
  }

  /** A claim outside a status change, and the flag that follows it when this call recorded
      the success. */
  lemma ClaimSteps(s: State, steps: seq<Step>, e: State, k: CallId) returns (all: seq<Step>, c: Call)
    requires RunsTo(s, steps, e) && k in e.calls && e.calls[k].Claiming? && OnlineAttempt(e.world, e.calls[k].payment)
    requires e.world.rows.payments[e.calls[k].payment].order < |e.world.rows.orders|
    ensures c.Finished?
    ensures var p := e.calls[k].payment;
            RunsTo(s, all, State(
                     if Claimable(e.world.rows.payments, p) && e.calls[k].dispute
                     then Disputed(e.world, p) else Atomic(e.world, Claim(p)),
                     e.calls[k := c]))
  {
    var p, dispute, since := e.calls[k].payment, e.calls[k].dispute, e.calls[k].since;
    var f := Exec(e, ClaimPaymentAlone(k));
    Onward(s, steps, e, ClaimPaymentAlone(k));
    all := steps + [ClaimPaymentAlone(k)];
    c := Finished(p, since);
    if Claimable(e.world.rows.payments, p) && dispute {
      all := ChangeSteps(s, all, f, k);
      assert f.calls[k := c] == e.calls[k := c];
    }
  }

  /** The handling of an open order's success. */
  lemma PaySteps(s: State, steps: seq<Step>, e: State, k: CallId, p: PaymentId, since: nat)
    returns (all: seq<Step>, c: Call)
    requires Shape(e.world) && OnlineAttempt(e.world, p) && RunsTo(s, steps, e) && k in e.calls
    requires var o := e.world.rows.payments[p].order;
             && Open(e.world.rows.orders[o].status)
             && e.calls[k] == Intent(o, PAID, System, ClaimPayment(p), AfterPaid(p, 0, since))
    ensures c.Finished? && RunsTo(s, all, State(SoloPay(e.world, p), e.calls[k := c]))
  {
    var o := e.world.rows.payments[p].order;
    SoloPayByOutcome(e.world, p);
    ClaimOutcome(e.world, p);
    all := ChangeSteps(s, steps, e, k);
    c := Finished(p, since);
    if TransitionNow(e.world.rows, o, PAID, System, ClaimPayment(p)).outcome == OutOfStock {
      var f := State(e.world, e.calls[k := Claiming(p, true, since)]);
      assert RunsTo(s, all, f);
      all, c := ClaimSteps(s, all, f, k);
      assert f.calls[k := c] == e.calls[k := c];
    }
  }

  lemma FetchesOrder(e: State, k: CallId, p: PaymentId, since: nat)
    requires Shape(e.world) && OnlineAttempt(e.world, p) && k in e.calls && e.calls[k] == Fetch(p, 0, since)
    ensures Enabled(e, FetchOrder(k))
    ensures var o := e.world.rows.payments[p].order;
            Exec(e, FetchOrder(k)) ==
              State(e.world, e.calls[k := AfterFetch(p, o, e.world.rows.orders[o].status, 0, since)])
  {
  }

  /** The handling of a success whose amount fits. */
  lemma HandleSteps(s: State, steps: seq<Step>, e: State, k: CallId, p: PaymentId, since: nat, amount: Option<real>)
    returns (all: seq<Step>, c: Call)
    requires Shape(e.world) && OnlineAttempt(e.world, p) && AmountMatches(e.world.rows.payments[p], amount)
    requires RunsTo(s, steps, e) && k in e.calls && e.calls[k] == Fetch(p, 0, since)
    ensures c.Finished?
    ensures RunsTo(s, all, State(SoloApply(e.world, p, ReportedSucceeded(amount)), e.calls[k := c]))
  {
    FetchesOrder(e, k, p, since);
    Onward(s, steps, e, FetchOrder(k));
    var f := Exec(e, FetchOrder(k));
    if Open(e.world.rows.orders[e.world.rows.payments[p].order].status) {
      all, c := PaySteps(s, steps + [FetchOrder(k)], f, k, p, since);
    } else {
      all, c := ClaimSteps(s, steps + [FetchOrder(k)], f, k);
    }
    assert f.calls[k := c] == e.calls[k := c];
  }

  /** The handling of a reported success, by itself, does what the services do alone; its
      call ends, and all other calls are where they were. */
  lemma ReportAlone(s: State, k: CallId, p: PaymentId, amount: Option<real>) returns (steps: seq<Step>, c: Call)
    requires Shape(s.world) && OnlineAttempt(s.world, p) && k !in s.calls
    ensures c.Finished?
    ensures RunsTo(s, steps, State(SoloApply(s.world, p, ReportedSucceeded(amount)),
                                   if AmountMatches(s.world.rows.payments[p], amount) then s.calls[k := c]
                                   else s.calls))
  {
    var since := |s.world.trails[s.world.rows.payments[p].order]|;
    Onward(s, [], s, ReportSuccess(k, p, amount));
    steps := [] + [ReportSuccess(k, p, amount)];
    c := Finished(p, since);
    if AmountMatches(s.world.rows.payments[p], amount) {
      var e := State(s.world, s.calls[k := Fetch(p, 0, since)]);
      steps, c := HandleSteps(s, steps, e, k, p, since, amount);
      assert e.calls[k := c] == s.calls[k := c];
    }
  }
}
