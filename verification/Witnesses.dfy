/** Three runs that show where the payment properties end.  The failure write after a start
    that failed can leave a paid order without a payment, at once or only when its order is
    flagged later; and a success can stay unrecorded when its order expires and is revived
    by another attempt meanwhile. */
module Witnesses {
  import opened Wrappers
  import opened OrderStatus
  import opened Reservation
  import opened Tables
  import opened Protocol
  import opened ProtocolShape
  import opened Claims
  import opened Disputes
  import opened Money
  import opened FailureWrite

  // ---------------------------------------------------------------------
  // States that quiet runs reach
  // ---------------------------------------------------------------------

  const SHELF: World := World(Rows([Product(1, 100.0)], [], [], map[], map[]), [], [], [], {})
  const START: State := State(SHELF, map[])

  /** No failure write hits a recorded success. */
  ghost predicate Quiet(steps: seq<Step>)
    requires Legal(START, steps)
  {
    forall p: PaymentId :: Hits(START, steps, p) == 0
  }

  ghost predicate QuietRun(steps: seq<Step>, e: State) {
    Legal(START, steps) && Quiet(steps) && End(START, steps) == e
  }

  ghost predicate Reached(e: State) {
    exists steps :: QuietRun(steps, e)
  }

  lemma Longer(steps: seq<Step>, step: Step)
    requires Legal(START, steps) && Enabled(End(START, steps), step)
    ensures Legal(START, steps + [step]) && End(START, steps + [step]) == Exec(End(START, steps), step)
    ensures forall p :: Hits(START, steps + [step], p) ==
                        Hits(START, steps, p) +
                          if HitOp(End(START, steps).world, OpOf(End(START, steps), step), p) then 1 else 0
  {
    assert (steps + [step])[..|steps|] == steps;
  }

  lemma NoHit(e: State, step: Step, p: PaymentId)
    requires Enabled(e, step) && !step.AttemptCrashed?
    ensures !HitOp(e.world, OpOf(e, step), p)
  {
  }

  /** A step from a reached state reaches the next one. */
  lemma Take(e: State, step: Step, f: State)
    requires Reached(e) && Enabled(e, step) && Exec(e, step) == f && !step.AttemptCrashed?
    ensures Reached(f)
  {
    var steps :| QuietRun(steps, e);
    Longer(steps, step);
    forall p: PaymentId ensures Hits(START, steps + [step], p) == 0 {
      NoHit(e, step, p);
    }
    assert QuietRun(steps + [step], f);
  }

  lemma Started()
    ensures Initial(START) && Reached(START)
  {
    assert QuietRun([], START);
  }

  // ---------------------------------------------------------------------
  // One product and one order
  // ---------------------------------------------------------------------

  const LINES: seq<Line> := [Line(0, 1, 100.0)]
  const PICKS: seq<Pick> := [Pick(0, LINES[0])]
  const FILLED: World := World(Rows([Product(1, 100.0)], [], [], map[], map[0 := CartRow(0, 0, 1)]), [], [], [], {0})

  function TheOrder(status: Status): Order {
    Order(status, LINES, None, 100.0, 100.0, 0)
  }

  function Attempt(status: PaymentStatus): Payment {
    Payment(0, false, 100.0, status, false, 0)
  }

  function Attempts(statuses: seq<PaymentStatus>): (payments: seq<Payment>)
    ensures |payments| == |statuses|
  {
    seq(|statuses|, i requires 0 <= i < |statuses| => Attempt(statuses[i]))
  }

  /** The shelf has one unit while the order holds none. */
  function Ordered(trail: Trail, units: int, statuses: seq<PaymentStatus>, claims: seq<nat>): World {
    World(
      Rows([Product(units, 100.0)], [TheOrder(Last(trail))], Attempts(statuses), map[], map[]),
      [trail], claims, [[0]], {0})
  }

  const WAITING: Trail := [PAYMENT_PENDING]

  lemma CartFilled()
    ensures Reached(State(FILLED, map[]))
  {
    Started();
    Take(START, EditCart(0, Some(CartRow(0, 0, 1))), State(FILLED, map[]));
  }

  lemma CheckedOut()
    ensures Reached(State(Ordered(WAITING, 0, [], []), map[]))
  {
    CartFilled();
    assert PickRead(FILLED.rows, 0, PICKS[0]);
    assert IsCartRead(FILLED.rows, 0, PICKS);
    var seen, ready := State(FILLED, map[0 := CartSeen(PICKS, None)]),
      State(FILLED, map[0 := CheckoutReady(PICKS, None)]);
    Take(State(FILLED, map[]), BeginCheckout(0, 0, PICKS, None), seen);
    Take(seen, ReadCoupon(0), ready);
    Placing();
    Take(ready, Step.CommitCheckout(0, 0), State(Ordered(WAITING, 0, [], []), map[]));
  }

  lemma Placing()
    ensures Atomic(FILLED, Place(PICKS, None, 0)) == Ordered(WAITING, 0, [], [])
  {
    var r := FILLED.rows;
    assert LinesOf(PICKS) == LINES && RowsOf(PICKS) == [0];
    assert Present(r.cart, RowsOf(PICKS)[1..]) == 0;
    assert LINES[1..] == [] && Shift(r.products, 0, -1) == [Product(0, 100.0)];
    assert Subtotal(LINES[..0]) == 0.0;
    assert r.cart - (set p | p in RowsOf(PICKS)) == map[];
  }

  // ---------------------------------------------------------------------
  // Steps of the calls, one at a time
  // ---------------------------------------------------------------------

  /** One more attempt is being started at the provider. */
  lemma StartsAttempt(statuses: seq<PaymentStatus>, claims: seq<nat>, calls: map<CallId, Call>, k: CallId)
    requires Reached(State(Ordered(WAITING, 0, statuses, claims), calls)) && k !in calls
    ensures Reached(State(Ordered(WAITING, 0, statuses + [Pending], claims + [0]),
            calls[k := AttemptCreated(|statuses|)]))
  {
    var w, v := Ordered(WAITING, 0, statuses, claims), Ordered(WAITING, 0, statuses + [Pending], claims + [0]);
    var chosen, created := calls[k := OnlineChosen(0)], calls[k := AttemptCreated(|statuses|)];
    Take(State(w, calls), ChooseOnline(k, 0), State(w, chosen));
    assert w.rows.payments + [Attempt(Pending)] == v.rows.payments;
    assert chosen[k := AttemptCreated(|statuses|)] == created;
    Take(State(w, chosen), RecordAttempt(k, 0), State(v, created));
  }

  /** A call that is about to pay order `o` with attempt `p`, and one that read its status. */
  function ToPay(o: OrderId, p: PaymentId, depth: nat, since: nat): Call {
    Intent(o, PAID, System, ClaimPayment(p), AfterPaid(p, depth, since))
  }

  function Paying(o: OrderId, seen: Order, p: PaymentId, depth: nat, since: nat): Call {
    StatusSeen(o, seen, PAID, System, ClaimPayment(p), AfterPaid(p, depth, since))
  }

  ghost predicate Open(w: World, o: OrderId) {
    o < |w.rows.orders| && o < |w.trails| && w.rows.orders[o].status in {PAYMENT_PENDING, EXPIRED}
  }

  lemma Reports(e: State, k: CallId, p: PaymentId)
    requires Reached(e) && k !in e.calls && OnlineAttempt(e.world, p)
    requires e.world.rows.payments[p].order < |e.world.trails|
    ensures Reached(State(e.world, e.calls[k := Fetch(p, 0, |e.world.trails[e.world.rows.payments[p].order]|)]))
  {
    Take(e, ReportSuccess(k, p, None), Exec(e, ReportSuccess(k, p, None)));
  }

  lemma Fetches(e: State, k: CallId, p: PaymentId, depth: nat, since: nat)
    requires Reached(e) && k in e.calls && e.calls[k] == Fetch(p, depth, since)
    requires OnlineAttempt(e.world, p) && Open(e.world, e.world.rows.payments[p].order)
    ensures Reached(State(e.world, e.calls[k := ToPay(e.world.rows.payments[p].order, p, depth, since)]))
  {
    Take(e, FetchOrder(k), Exec(e, FetchOrder(k)));
  }

  lemma Reads(e: State, k: CallId)
    requires Reached(e) && k in e.calls && e.calls[k].Intent? && e.calls[k].order < |e.world.rows.orders|
    requires var c, status := e.calls[k], e.world.rows.orders[e.calls[k].order].status;
             status != c.to && CanTransition(c.actor, status, c.to)
    ensures var c := e.calls[k];
            Reached(State(e.world,
              e.calls[k := StatusSeen(c.order, e.world.rows.orders[c.order], c.to, c.actor, c.extra, c.after)]))
  {
    Take(e, ReadStatus(k), Exec(e, ReadStatus(k)));
  }

  /** The fetch and the second read of a call that finds its order open. */
  lemma FetchesAndReads(w: World, calls: map<CallId, Call>, k: CallId, p: PaymentId, depth: nat, since: nat)
    requires Reached(State(w, calls[k := Fetch(p, depth, since)]))
    requires OnlineAttempt(w, p) && Open(w, w.rows.payments[p].order)
    ensures var o := w.rows.payments[p].order;
            Reached(State(w, calls[k := Paying(o, w.rows.orders[o], p, depth, since)]))
  {
    var o := w.rows.payments[p].order;
    var fetch, toPay := Fetch(p, depth, since), ToPay(o, p, depth, since);
    var paying := Paying(o, w.rows.orders[o], p, depth, since);
    Fetches(State(w, calls[k := fetch]), k, p, depth, since);
    assert calls[k := fetch][k := toPay] == calls[k := toPay];
    ReadsToPay(State(w, calls[k := toPay]), k, o, p, depth, since);
    assert calls[k := toPay][k := paying] == calls[k := paying];
  }

  lemma ReadsToPay(e: State, k: CallId, o: OrderId, p: PaymentId, depth: nat, since: nat)
    requires Reached(e) && k in e.calls && e.calls[k] == ToPay(o, p, depth, since) && Open(e.world, o)
    ensures Reached(State(e.world, e.calls[k := Paying(o, e.world.rows.orders[o], p, depth, since)]))
  {
    Reads(e, k);
  }

  lemma Commits(e: State, k: CallId, next: World, outcome: Outcome)
    requires Reached(e) && k in e.calls && e.calls[k].StatusSeen?
    requires CommitChange(e.world, e.calls[k]) == (next, outcome)
    ensures Reached(State(next, SetCall(e.calls, k, Resume(e.calls[k].after, outcome))))
  {
    Take(e, CommitStatus(k), Exec(e, CommitStatus(k)));
  }

  /** A commit that goes through, with the history it leaves. */
  lemma CommitsTo(w: World, c: Call, v: World)
    requires c.StatusSeen? && c.order == 0 && |w.trails| == 1 && |v.trails| == 1
    requires ChangeStatus(w.rows, 0, c.seen, c.to, c.extra) == Written(Changed, v.rows)
    requires v.trails[0] == w.trails[0] + [c.to] && v.origins == w.origins && v.minted == w.minted
    requires v.claims == if c.extra.ClaimPayment? then Bump(w.claims, c.extra.payment) else w.claims
    requires !c.extra.ConfirmCash?
    ensures CommitChange(w, c) == (v, Changed)
  {
    assert w.trails[0 := w.trails[0] + [c.to]] == v.trails;
  }

  /** Somebody asks for a status of the waiting order and reads it. */
  lemma AsksAndReads(w: World, calls: map<CallId, Call>, k: CallId, to: Status, actor: Actor)
    requires Reached(State(w, calls)) && k !in calls
    requires 0 < |w.rows.orders| && CanTransition(actor, w.rows.orders[0].status, to) && w.rows.orders[0].status != to
    requires actor == Admin || to in {EXPIRED, PAYMENT_FAILED}
    ensures Reached(State(w, calls[k := StatusSeen(0, w.rows.orders[0], to, actor, NoExtra, Return)]))
  {
    var intent, seen := Intent(0, to, actor, NoExtra, Return),
      StatusSeen(0, w.rows.orders[0], to, actor, NoExtra, Return);
    Take(State(w, calls), RequestStatus(k, 0, to, actor), State(w, calls[k := intent]));
    Reads(State(w, calls[k := intent]), k);
    assert calls[k := intent][k := seen] == calls[k := seen];
  }

  /** Ending the waiting order puts its unit back and fails its attempts. */
  lemma Ends(w: World, v: World, to: Status, actor: Actor)
    requires to in {EXPIRED, CANCELLED} && CanTransition(actor, PAYMENT_PENDING, to)
    requires |w.trails| == 1 && w.trails[0] == WAITING && |v.trails| == 1 && v.trails[0] == WAITING + [to]
    requires w.rows == Rows([Product(0, 100.0)], [TheOrder(PAYMENT_PENDING)], w.rows.payments, map[], map[])
    requires v.rows == Rows([Product(1, 100.0)], [TheOrder(to)], Settle(w.rows.payments, 0, to), map[], map[])
    requires v.claims == w.claims && v.origins == w.origins && v.minted == w.minted
    ensures CommitChange(w, StatusSeen(0, TheOrder(PAYMENT_PENDING), to, actor, NoExtra, Return)) == (v, Changed)
  {
    OneLine();
    assert ChangeStatus(w.rows, 0, TheOrder(PAYMENT_PENDING), to, NoExtra) == Written(Changed, v.rows);
    CommitsTo(w, StatusSeen(0, TheOrder(PAYMENT_PENDING), to, actor, NoExtra, Return), v);
  }

  lemma OneLine()
    ensures Restock([Product(0, 100.0)], LINES) == [Product(1, 100.0)]
    ensures Reserve([Product(1, 100.0)], LINES) == Some([Product(0, 100.0)])
  {
    assert LINES[1..] == [];
    assert Shift([Product(0, 100.0)], 0, 1) == [Product(1, 100.0)];
    assert Shift([Product(1, 100.0)], 0, -1) == [Product(0, 100.0)];
  }

  // ---------------------------------------------------------------------
  // A paid order without a payment
  // ---------------------------------------------------------------------

  const NOBODY_PAID: World := Ordered(WAITING, 0, [Pending, Pending], [0, 0])
  const FIRST_PAID: World := Ordered([PAYMENT_PENDING, PAID], 0, [Succeeded, Pending], [1, 0])
  const BOTH: map<CallId, Call> := map[1 := AttemptCreated(0), 2 := AttemptCreated(1)]
  const FIRST_READ: map<CallId, Call> := BOTH[3 := Paying(0, TheOrder(PAYMENT_PENDING), 0, 0, 1)]

  const ALONE: World := Ordered(WAITING, 0, [Pending], [0])
  const ONE: map<CallId, Call> := map[1 := AttemptCreated(0)]

  lemma OneAttempt()
    ensures Reached(State(ALONE, ONE))
  {
    var nothing: seq<PaymentStatus>, none: seq<nat> := [], [];
    CheckedOut();
    StartsAttempt(nothing, none, map[], 1);
    assert nothing + [Pending] == [Pending] && none + [0] == [0];
  }

  lemma TwoAttempts()
    ensures Reached(State(NOBODY_PAID, BOTH))
  {
    OneAttempt();
    StartsAttempt([Pending], [0], ONE, 2);
    assert [Pending] + [Pending] == [Pending, Pending] && [0] + [0] == [0, 0];
    assert ONE[2 := AttemptCreated(1)] == BOTH;
  }

  lemma FirstRead()
    ensures Reached(State(NOBODY_PAID, FIRST_READ))
  {
    TwoAttempts();
    Reports(State(NOBODY_PAID, BOTH), 3, 0);
    FetchesAndReads(NOBODY_PAID, BOTH, 3, 0, 0, 1);
  }

  lemma PayingFirst()
    ensures CommitChange(NOBODY_PAID, Paying(0, TheOrder(PAYMENT_PENDING), 0, 0, 1)) == (FIRST_PAID, Changed)
  {
    var w, v, order := NOBODY_PAID, FIRST_PAID, TheOrder(PAYMENT_PENDING);
    assert w.rows.orders == [order] && v.rows.orders == [TheOrder(PAID)];
    assert Settle(w.rows.payments, 0, PAID) == w.rows.payments;
    assert WithStatus(w.rows.payments, 0, Succeeded) == v.rows.payments;
    assert ChangeStatus(w.rows, 0, order, PAID, ClaimPayment(0)) == Written(Changed, v.rows);
    assert w.trails[0] + [PAID] == v.trails[0];
    assert Bump(w.claims, 0) == v.claims;
    CommitsTo(w, Paying(0, order, 0, 0, 1), v);
  }

  lemma Overtaken()
    ensures Reached(State(FIRST_PAID, BOTH[3 := Finished(0, 1)]))
  {
    FirstRead();
    PayingFirst();
    Commits(State(NOBODY_PAID, FIRST_READ), 3, FIRST_PAID, Changed);
    assert FIRST_READ[3 := Finished(0, 1)] == BOTH[3 := Finished(0, 1)];
  }

  /** The provider's report overtakes its own answer to the start, the answer never comes,
      and the paid order is left without a payment. */
  lemma PaidWithoutPayment() returns (steps: seq<Step>)
    ensures Initial(START) && Legal(START, steps)
    ensures var r := End(START, steps).world.rows;
            |r.orders| == 1 && r.orders[0].status == PAID && !HasPayment(r.payments, 0, Succeeded)
  {
    Started();
    Overtaken();
    steps :| QuietRun(steps, State(FIRST_PAID, BOTH[3 := Finished(0, 1)]));
    Longer(steps, AttemptCrashed(1));
    steps := steps + [AttemptCrashed(1)];
  }

  // ---------------------------------------------------------------------
  // A disputed order without a payment
  // ---------------------------------------------------------------------

  const CANCELLED_THEN: World := Ordered([PAYMENT_PENDING, CANCELLED], 1, [Failed], [0])
  const PAID_LATE: World := Ordered([PAYMENT_PENDING, CANCELLED], 1, [Succeeded], [1])
  const FLAGGING: map<CallId, Call> := ONE[3 := Intent(0, DISPUTED, System, NoExtra, AfterDisputed(0, 2))]

  lemma Cancelling()
    ensures CommitChange(ALONE, StatusSeen(0, TheOrder(PAYMENT_PENDING), CANCELLED, Admin, NoExtra, Return)) ==
            (CANCELLED_THEN, Changed)
  {
    assert Settle(ALONE.rows.payments, 0, CANCELLED) == CANCELLED_THEN.rows.payments;
    Ends(ALONE, CANCELLED_THEN, CANCELLED, Admin);
  }

  lemma CancelledMeanwhile()
    ensures Reached(State(CANCELLED_THEN, ONE))
  {
    var cancelling := StatusSeen(0, TheOrder(PAYMENT_PENDING), CANCELLED, Admin, NoExtra, Return);
    OneAttempt();
    AsksAndReads(ALONE, ONE, 4, CANCELLED, Admin);
    Cancelling();
    Commits(State(ALONE, ONE[4 := cancelling]), 4, CANCELLED_THEN, Changed);
    assert ONE[4 := cancelling] - {4} == ONE;
  }

  const CLAIMING: map<CallId, Call> := ONE[3 := Claiming(0, true, 2)]

  lemma AboutToClaim()
    ensures Reached(State(CANCELLED_THEN, CLAIMING))
  {
    var fetch := ONE[3 := Fetch(0, 0, 2)];
    CancelledMeanwhile();
    Reports(State(CANCELLED_THEN, ONE), 3, 0);
    assert fetch[3 := Claiming(0, true, 2)] == CLAIMING;
    Take(State(CANCELLED_THEN, fetch), FetchOrder(3), State(CANCELLED_THEN, CLAIMING));
  }

  /** Call 3 records the success of the cancelled order and is about to flag the order. */
  lemma AboutToFlag()
    ensures Reached(State(PAID_LATE, FLAGGING))
  {
    AboutToClaim();
    ClaimsAndFlags();
    Take(State(CANCELLED_THEN, CLAIMING), ClaimPaymentAlone(3), State(PAID_LATE, FLAGGING));
  }

  lemma ClaimsAndFlags()
    ensures Enabled(State(CANCELLED_THEN, CLAIMING), ClaimPaymentAlone(3))
    ensures Exec(State(CANCELLED_THEN, CLAIMING), ClaimPaymentAlone(3)) == State(PAID_LATE, FLAGGING)
  {
    ClaimingLate();
    assert CLAIMING[3 := FLAGGING[3]] == FLAGGING;
  }

  lemma ClaimingLate()
    ensures Atomic(CANCELLED_THEN, Claim(0)) == PAID_LATE
  {
    assert WithStatus(CANCELLED_THEN.rows.payments, 0, Succeeded) == PAID_LATE.rows.payments;
    assert Bump(CANCELLED_THEN.claims, 0) == PAID_LATE.claims;
  }

  const WRITTEN_OFF: State := State(Ordered([PAYMENT_PENDING, CANCELLED], 1, [Failed], [1]), map[3 := FLAGGING[3]])

  lemma WritesOff()
    ensures Enabled(State(PAID_LATE, FLAGGING), AttemptCrashed(1))
    ensures Exec(State(PAID_LATE, FLAGGING), AttemptCrashed(1)) == WRITTEN_OFF
    ensures !OnlyBacking(PAID_LATE.rows, 0) && Damages(State(PAID_LATE, FLAGGING), 0)
  {
    assert Disputing(FLAGGING[3], 0);
    assert FLAGGING - {1} == map[3 := FLAGGING[3]];
    assert WithStatus(PAID_LATE.rows.payments, 0, Failed) == WRITTEN_OFF.world.rows.payments;
  }

  lemma FlagsLater() returns (more: seq<Step>)
    requires Sound(WRITTEN_OFF) && AllKnow(WRITTEN_OFF)
    ensures Legal(WRITTEN_OFF, more) && AllSpared(WRITTEN_OFF, more)
    ensures var r := End(WRITTEN_OFF, more).world.rows;
            |r.orders| > 0 && r.orders[0].status == DISPUTED && !HasPayment(r.payments, 0, Succeeded)
  {
    var v := WRITTEN_OFF;
    ReadsDead(v, 0, 3);
    StepKnows(v, ReadStatus(3));
    FlagsUnbacked(Exec(v, ReadStatus(3)), 0, 3);
    more := [ReadStatus(3), CommitStatus(3)];
    TwoSteps(v, ReadStatus(3), CommitStatus(3));
  }

  lemma ReachedIsSound(e: State)
    requires Reached(e)
    ensures Sound(e) && AllKnow(e)
  {
    var steps :| QuietRun(steps, e);
    InitialKnows(START);
    RunKnows(START, steps);
  }

  /** The failure write comes while the success of a cancelled order is recorded and the order
      is about to be flagged.  Nothing is backed by the attempt at that instant, and yet two
      quiet steps later the order is disputed without a payment. */
  lemma DisputedWithoutPayment() returns (steps: seq<Step>, more: seq<Step>)
    ensures Initial(START) && QuietRun(steps, State(PAID_LATE, FLAGGING)) && !OnlyBacking(PAID_LATE.rows, 0)
    ensures Enabled(State(PAID_LATE, FLAGGING), AttemptCrashed(1))
    ensures var v := Exec(State(PAID_LATE, FLAGGING), AttemptCrashed(1));
            && Legal(v, more) && AllSpared(v, more)
            && var r := End(v, more).world.rows;
               |r.orders| > 0 && r.orders[0].status == DISPUTED && !HasPayment(r.payments, 0, Succeeded)
  {
    var e := State(PAID_LATE, FLAGGING);
    Started();
    AboutToFlag();
    steps :| QuietRun(steps, e);
    WritesOff();
    ReachedIsSound(e);
    StepKnows(e, AttemptCrashed(1));
    more := FlagsLater();
  }

  // ---------------------------------------------------------------------
  // A success that stays unrecorded
  // ---------------------------------------------------------------------

  const EXPIRED_THEN: World := Ordered([PAYMENT_PENDING, EXPIRED], 1, [Failed, Failed], [0, 0])
  const SECOND_PAID: World := Ordered([PAYMENT_PENDING, EXPIRED, PAID], 0, [Failed, Succeeded], [0, 1])
  const ABOUT_TO_REVIVE: map<CallId, Call> := BOTH[3 := Paying(0, TheOrder(EXPIRED), 0, 1, 1)]
  const OTHER_READ: map<CallId, Call> := ABOUT_TO_REVIVE[5 := Paying(0, TheOrder(EXPIRED), 1, 0, 2)]

  lemma Reviving()
    ensures CommitChange(EXPIRED_THEN, Paying(0, TheOrder(EXPIRED), 1, 0, 2)) == (SECOND_PAID, Changed)
  {
    var w, v, order := EXPIRED_THEN, SECOND_PAID, TheOrder(EXPIRED);
    assert w.rows.orders == [order] && v.rows.orders == [TheOrder(PAID)];
    OneLine();
    assert v.rows.products == [Product(0, 100.0)];
    assert Settle(w.rows.payments, 0, PAID) == w.rows.payments;
    assert WithStatus(w.rows.payments, 1, Succeeded) == v.rows.payments;
    assert ChangeStatus(w.rows, 0, order, PAID, ClaimPayment(1)) == Written(Changed, v.rows);
    assert w.trails[0] + [PAID] == v.trails[0];
    assert Bump(w.claims, 1) == v.claims;
    CommitsTo(w, Paying(0, order, 1, 0, 2), v);
  }

  lemma Expiring()
    ensures CommitChange(NOBODY_PAID, StatusSeen(0, TheOrder(PAYMENT_PENDING), EXPIRED, System, NoExtra, Return)) ==
            (EXPIRED_THEN, Changed)
  {
    assert Settle(NOBODY_PAID.rows.payments, 0, EXPIRED) == EXPIRED_THEN.rows.payments;
    Ends(NOBODY_PAID, EXPIRED_THEN, EXPIRED, System);
  }

  /** Call 4 expires the order between the two reads of call 3 and its commit. */
  lemma ExpiredMeanwhile()
    ensures Reached(State(EXPIRED_THEN, FIRST_READ))
  {
    var expiring := StatusSeen(0, TheOrder(PAYMENT_PENDING), EXPIRED, System, NoExtra, Return);
    FirstRead();
    AsksAndReads(NOBODY_PAID, FIRST_READ, 4, EXPIRED, System);
    Expiring();
    Commits(State(NOBODY_PAID, FIRST_READ[4 := expiring]), 4, EXPIRED_THEN, Changed);
    assert FIRST_READ[4 := expiring] - {4} == FIRST_READ;
  }

  /** Call 3 finds the order moved on, looks again and is about to revive it. */
  lemma LooksAgain()
    ensures Reached(State(EXPIRED_THEN, ABOUT_TO_REVIVE))
  {
    ExpiredMeanwhile();
    Commits(State(EXPIRED_THEN, FIRST_READ), 3, EXPIRED_THEN, Unchanged);
    assert FIRST_READ[3 := Fetch(0, 1, 1)] == BOTH[3 := Fetch(0, 1, 1)];
    FetchesAndReads(EXPIRED_THEN, BOTH, 3, 0, 1, 1);
  }

  lemma OtherReported()
    ensures Reached(State(EXPIRED_THEN, OTHER_READ))
  {
    LooksAgain();
    Reports(State(EXPIRED_THEN, ABOUT_TO_REVIVE), 5, 1);
    FetchesAndReads(EXPIRED_THEN, ABOUT_TO_REVIVE, 5, 1, 0, 2);
  }

  /** Call 5 revives the order with the other attempt. */
  lemma RevivedMeanwhile()
    ensures Reached(State(SECOND_PAID, ABOUT_TO_REVIVE[5 := Finished(1, 2)]))
  {
    OtherReported();
    Reviving();
    Commits(State(EXPIRED_THEN, OTHER_READ), 5, SECOND_PAID, Changed);
    assert OTHER_READ[5 := Finished(1, 2)] == ABOUT_TO_REVIVE[5 := Finished(1, 2)];
  }

  /** Then call 3 finds the order moved on again and returns with its own success
      unrecorded: the money of attempt 0 arrived, and the attempt counts as failed. */
  lemma SuccessUnrecorded() returns (steps: seq<Step>)
    ensures Initial(START) && Legal(START, steps) && Quiet(steps)
    ensures var e := End(START, steps);
            && 3 in e.calls && e.calls[3] == Finished(0, 1)
            && |e.world.rows.payments| == 2 && e.world.rows.payments[0].status == Failed
  {
    Started();
    RevivedMeanwhile();
    var calls := ABOUT_TO_REVIVE[5 := Finished(1, 2)];
    assert calls[3] == Paying(0, TheOrder(EXPIRED), 0, 1, 1);
    Commits(State(SECOND_PAID, calls), 3, SECOND_PAID, Unchanged);
    steps :| QuietRun(steps, State(SECOND_PAID, calls[3 := Finished(0, 1)]));
  }
}
