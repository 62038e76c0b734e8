/** The order state machine: which status changes each actor may make, and what
    every change does to the stock and to the coupon.  A `trail` is the list of
    statuses one order has been through, oldest first. */
module OrderStatus {

  datatype Status =
    | CART
    | PAYMENT_PENDING
    | PAID
    | PROCESSING
    | SHIPPED
    | DELIVERED
    | PAYMENT_FAILED
    | EXPIRED
    | CANCELLED
    | REFUNDED
    | PARTIALLY_REFUNDED
    | DISPUTED

  datatype Actor = System | Admin

  type Trail = t: seq<Status> | |t| > 0 witness [PAYMENT_PENDING]

  /** Statuses in which the units are in the store and counted as reserved. */
  const STOCK_HELD: set<Status> := {PAYMENT_PENDING, PAID, PROCESSING}

  /** Statuses that mean the sale is off. */
  const RELEASED: set<Status> := {PAYMENT_FAILED, EXPIRED, CANCELLED, REFUNDED}

  /** Statuses that only an order somebody paid for may have. */
  const BACKED: set<Status> := {PAID, PROCESSING, SHIPPED, DELIVERED, DISPUTED, PARTIALLY_REFUNDED}

  function Allowed(actor: Actor, from: Status): set<Status> {
    match actor
    case System => (
      match from
      case PAYMENT_PENDING => {PAID, EXPIRED, PAYMENT_FAILED}
      case EXPIRED => {PAID, DISPUTED}
      case PAYMENT_FAILED => {DISPUTED}
      case CANCELLED => {DISPUTED}
      case _ => {}
    )
    case Admin => (
      match from
      case PAYMENT_PENDING => {CANCELLED}
      case PAID => {PROCESSING, SHIPPED, DELIVERED, REFUNDED, DISPUTED}
      case PROCESSING => {SHIPPED, DELIVERED, REFUNDED, DISPUTED}
      case SHIPPED => {DELIVERED, REFUNDED, DISPUTED}
      case DELIVERED => {REFUNDED, PARTIALLY_REFUNDED, DISPUTED}
      case PARTIALLY_REFUNDED => {REFUNDED, DISPUTED}
      case DISPUTED => {DELIVERED, REFUNDED, PARTIALLY_REFUNDED}
      case _ => {}
    )
  }

  predicate CanTransition(actor: Actor, from: Status, to: Status) {
    to in Allowed(actor, from)
  }

  predicate ReleasesStock(from: Status, to: Status) {
    from in STOCK_HELD && to in RELEASED
  }

  predicate ReservesStock(from: Status, to: Status) {
    from in RELEASED && to in STOCK_HELD
  }

  predicate ReleasesCoupon(from: Status, to: Status) {
    from == PAYMENT_PENDING && to in RELEASED
  }

  // ---------------------------------------------------------------------
  // What the tables mean
  // ---------------------------------------------------------------------

  /** How far fulfilment has come; None before the payment and once the sale is in question. */
  function Stage(s: Status): int {
    match s
    case PAID => 1
    case PROCESSING => 2
    case SHIPPED => 3
    case DELIVERED => 4
    case _ => 0
  }

  /** The system settles an order that waits for its payment, revives an expired one, and
      flags a payment that comes too late.  Nobody else can make an order PAID. */
  lemma SystemMoves(from: Status, to: Status)
    ensures CanTransition(System, from, to) <==>
              || (from == PAYMENT_PENDING && (to == PAID || to == EXPIRED || to == PAYMENT_FAILED))
              || (from == EXPIRED && to == PAID)
              || ((from == EXPIRED || from == PAYMENT_FAILED || from == CANCELLED) && to == DISPUTED)
    ensures !CanTransition(Admin, from, PAID)
  {
  }

  /** The admin cancels an order that was never paid, moves a paid one forward by any number
      of stages, and can refund or flag it at each of them; what was delivered can be refunded
      in part, and a flagged order goes back to delivered or is refunded, in part or in full. */
  lemma AdminMoves(from: Status, to: Status)
    ensures CanTransition(Admin, from, to) <==>
              || (from == PAYMENT_PENDING && to == CANCELLED)
              || (0 < Stage(from) < Stage(to))
              || (Stage(from) > 0 && (to == REFUNDED || to == DISPUTED))
              || (from == DELIVERED && to == PARTIALLY_REFUNDED)
              || (from == PARTIALLY_REFUNDED && (to == REFUNDED || to == DISPUTED))
              || (from == DISPUTED && (to == DELIVERED || to == REFUNDED || to == PARTIALLY_REFUNDED))
  {
  }

  // ---------------------------------------------------------------------
  // Trails
  // ---------------------------------------------------------------------

  function Last(t: Trail): Status {
    t[|t| - 1]
  }

  /** Some actor may take this step. */
  predicate Edge(from: Status, to: Status) {
    CanTransition(System, from, to) || CanTransition(Admin, from, to)
  }

  /** A trail the state machine can produce: it starts at checkout and takes only
      legal steps. */
  ghost predicate Path(t: Trail) {
    && t[0] == PAYMENT_PENDING
    && forall i :: 0 < i < |t| ==> Edge(t[i - 1], t[i])
  }

  datatype Effect = UnitsBack | UnitsTaken

  /** The stock effects an order has had since its checkout, in order. */
  function Effects(t: Trail): seq<Effect> {
    if |t| == 1 then []
    else
      var before := Effects(t[..|t| - 1]);
      if ReleasesStock(t[|t| - 2], t[|t| - 1]) then before + [UnitsBack]
      else if ReservesStock(t[|t| - 2], t[|t| - 1]) then before + [UnitsTaken]
      else before
  }

  /** The units are still deducted: checkout deducts them, and from then on the
      last stock effect decides. */
  predicate Held(t: Trail) {
    Effects(t) == [] || Effects(t)[|Effects(t)| - 1] == UnitsTaken
  }

  /** The order never gave its coupon use back. */
  ghost predicate CouponHeld(t: Trail) {
    forall i :: 0 < i < |t| ==> !ReleasesCoupon(t[i - 1], t[i])
  }

  /** What one more step does to the two flags. */
  lemma StepFlags(t: Trail, to: Status)
    ensures Held(t + [to]) ==
            if ReleasesStock(Last(t), to) then false
            else if ReservesStock(Last(t), to) then true
            else Held(t)
    ensures CouponHeld(t + [to]) <==> CouponHeld(t) && !ReleasesCoupon(Last(t), to)
    ensures Edge(Last(t), to) && Path(t) ==> Path(t + [to])
  {
    var u: Trail := t + [to];
    assert u[..|u| - 1] == t;
    if CouponHeld(u) {
      forall i | 0 < i < |t| ensures !ReleasesCoupon(t[i - 1], t[i]) {
        assert !ReleasesCoupon(u[i - 1], u[i]);
      }
      assert !ReleasesCoupon(u[|t| - 1], u[|t|]);
    }
  }

  lemma PathPrefix(t: Trail, n: nat)
    requires Path(t) && 0 < n <= |t|
    ensures Path(t[..n])
  {
  }

  /** Statuses from which the order cannot have been restocked and re-reserved
      differently from what is listed. */
  ghost predicate EffectsFit(s: Status, e: seq<Effect>) {
    match s
    case CART => false
    case PAYMENT_PENDING => e == []
    case PAYMENT_FAILED => e == [UnitsBack]
    case EXPIRED => e == [UnitsBack]
    case CANCELLED => e == [UnitsBack]
    case PAID => e == [] || e == [UnitsBack, UnitsTaken]
    case PROCESSING => e == [] || e == [UnitsBack, UnitsTaken]
    case REFUNDED => e <= [UnitsBack, UnitsTaken, UnitsBack]
    case _ => e <= [UnitsBack, UnitsTaken]
  }

  lemma {:induction false} EffectsAlongPath(t: Trail)
    requires Path(t)
    ensures EffectsFit(Last(t), Effects(t))
  {
    if |t| > 1 {
      var u: Trail := t[..|t| - 1];
      PathPrefix(t, |t| - 1);
      EffectsAlongPath(u);
      assert Last(u) == t[|t| - 2];
      assert Edge(t[|t| - 2], t[|t| - 1]);
    }
  }

  /** Reservation discipline: while an order waits for payment, is paid or is being
      prepared its units are deducted; once it expired, was cancelled or failed they
      are not; and from checkout on the stock is released, re-reserved and released
      again at most, so it is never restocked twice in a row. */
  lemma ReservationDiscipline(t: Trail)
    requires Path(t)
    ensures Last(t) in {PAYMENT_PENDING, PAID, PROCESSING} ==> Held(t)
    ensures Last(t) in {EXPIRED, CANCELLED, PAYMENT_FAILED} ==> !Held(t)
    ensures Effects(t) <= [UnitsBack, UnitsTaken, UnitsBack]
  {
    EffectsAlongPath(t);
  }

  /** The order ended unpaid, and no late payment revived it. */
  predicate EndedUnpaid(t: Trail) {
    |t| >= 2 && t[1] in {EXPIRED, CANCELLED, PAYMENT_FAILED} && !(|t| >= 3 && t[2] == PAID)
  }

  /** The order was refunded while its parts were still in the store. */
  predicate RefundedInStore(t: Trail) {
    |t| >= 2 && Last(t) == REFUNDED && t[|t| - 2] in {PAID, PROCESSING}
  }

  /** Exactly when the units are back on the shelf: the order ended unpaid and was not
      revived, or it was refunded out of PAID or PROCESSING.  A refund of a shipped,
      delivered, disputed or partly refunded order moves nothing. */
  lemma {:induction false} HeldExactly(t: Trail)
    requires Path(t)
    ensures Held(t) <==> !EndedUnpaid(t) && !RefundedInStore(t)
  {
    if |t| > 1 {
      var u: Trail := t[..|t| - 1];
      PathPrefix(t, |t| - 1);
      HeldExactly(u);
      StepFlags(u, Last(t));
      assert t == u + [Last(t)];
      assert Edge(t[|t| - 2], t[|t| - 1]);
      StepOfEndings(t);
    }
  }

  lemma StepOfEndings(t: Trail)
    requires Path(t) && |t| > 1
    ensures var u: Trail := t[..|t| - 1];
            && (ReleasesStock(Last(u), Last(t)) ==> EndedUnpaid(t) || RefundedInStore(t))
            && (ReservesStock(Last(u), Last(t)) ==> !EndedUnpaid(t) && !RefundedInStore(t))
            && (!ReleasesStock(Last(u), Last(t)) && !ReservesStock(Last(u), Last(t)) ==>
                  (EndedUnpaid(t) <==> EndedUnpaid(u)) && !RefundedInStore(t) && !RefundedInStore(u))
  {
    NoReentry(t);
    assert Edge(t[|t| - 2], t[|t| - 1]);
    if |t| > 2 {
      assert Edge(t[0], t[1]) && Edge(t[1], t[2]);
    }
  }

  /** A coupon use is given back exactly when the order ends unpaid, revived or not. */
  lemma CouponHeldExactly(t: Trail)
    requires Path(t)
    ensures CouponHeld(t) <==> !(|t| >= 2 && t[1] in {EXPIRED, CANCELLED, PAYMENT_FAILED})
  {
    NoReentry(t);
    forall i | 1 < i < |t| ensures !ReleasesCoupon(t[i - 1], t[i]) {
      assert t[i - 1] != PAYMENT_PENDING;
    }
    if |t| >= 2 {
      assert Edge(t[0], t[1]);
      assert ReleasesCoupon(t[0], t[1]) <==> t[1] in {EXPIRED, CANCELLED, PAYMENT_FAILED};
    }
  }

  /** A release finds the units deducted and a re-reservation finds them back on the shelf,
      so each step moves the units exactly when it flips the flag. */
  lemma StepMovesUnits(t: Trail, to: Status)
    requires Path(t) && Edge(Last(t), to)
    ensures ReleasesStock(Last(t), to) <==> Held(t) && !Held(t + [to])
    ensures ReservesStock(Last(t), to) <==> !Held(t) && Held(t + [to])
  {
    StepFlags(t, to);
    ReservationDiscipline(t);
  }

  /** Whether units are still deducted is not a function of the status: a delivered,
      disputed, partly refunded or refunded order can be either. */
  lemma HeldIsNotAStatus(s: Status)
    requires s in {DELIVERED, DISPUTED, PARTIALLY_REFUNDED, REFUNDED}
    ensures exists t: Trail, u: Trail :: Path(t) && Path(u) && Last(t) == s == Last(u) && Held(t) && !Held(u)
  {
    var t := KeptExample(s);
    var u := LostExample(s);
  }

  /** The part of a paid order leaves the store, so nothing restocks it. */
  lemma KeptExample(s: Status) returns (t: Trail)
    requires s in {DELIVERED, DISPUTED, PARTIALLY_REFUNDED, REFUNDED}
    ensures Path(t) && Last(t) == s && Held(t)
  {
    t := KeptDispute();
    if s != DISPUTED {
      t := Extend(t, s);
    }
  }

  lemma KeptDispute() returns (t: Trail)
    ensures Path(t) && Last(t) == DISPUTED && Held(t)
  {
    var shipped := Shipped();
    t := Extend(shipped, DISPUTED);
  }

  lemma Shipped() returns (t: Trail)
    ensures Path(t) && Last(t) == SHIPPED && Held(t)
  {
    var paid := Extend([PAYMENT_PENDING], PAID);
    t := Extend(paid, SHIPPED);
  }

  /** A late payment turns a cancelled, restocked order into a dispute. */
  lemma LostExample(s: Status) returns (t: Trail)
    requires s in {DELIVERED, DISPUTED, PARTIALLY_REFUNDED, REFUNDED}
    ensures Path(t) && Last(t) == s && !Held(t)
  {
    t := LostDispute();
    if s != DISPUTED {
      t := Extend(t, s);
    }
  }

  lemma LostDispute() returns (t: Trail)
    ensures Path(t) && Last(t) == DISPUTED && !Held(t)
  {
    var cancelled := Extend([PAYMENT_PENDING], CANCELLED);
    t := Extend(cancelled, DISPUTED);
  }

  /** One legal step, with what it does to the reservation. */
  function Extend(t: Trail, to: Status): (r: Trail)
    ensures Last(r) == to
    ensures Path(t) && Edge(Last(t), to) ==> Path(r)
    ensures Held(r) ==
            if ReleasesStock(Last(t), to) then false
            else if ReservesStock(Last(t), to) then true
            else Held(t)
  {
    StepFlags(t, to);
    assert Last(t + [to]) == to;
    t + [to]
  }

  /** PAYMENT_PENDING and EXPIRED are never entered a second time, an order enters
      PAID at most once, and nothing follows REFUNDED. */
  lemma NoReentry(t: Trail)
    requires Path(t)
    ensures forall i :: 0 < i < |t| ==> t[i] != PAYMENT_PENDING
    ensures forall i :: 0 <= i < |t| && t[i] == EXPIRED ==> i == 1
    ensures forall i, j :: 0 <= i < j < |t| && t[i] == PAID ==> t[j] != PAID
    ensures forall i :: 0 <= i < |t| && t[i] == REFUNDED ==> i == |t| - 1
  {
    forall i | 0 < i < |t| ensures t[i] != PAYMENT_PENDING {
      assert Edge(t[i - 1], t[i]);
    }
    forall i | 0 <= i < |t| && t[i] == EXPIRED ensures i == 1 {
      assert Edge(t[i - 1], t[i]);
    }
    forall i, j | 0 <= i < j < |t| && t[i] == PAID ensures t[j] != PAID {
      AfterPayment(t, i, j);
    }
    forall i | 0 <= i < |t| - 1 ensures t[i] != REFUNDED {
      assert Edge(t[i], t[i + 1]);
    }
  }

  /** Behind a status that needs money an order stays among such statuses, and does
      not come back to PAID. */
  lemma {:induction false} AfterPayment(t: Trail, i: nat, j: nat)
    requires Path(t) && i < j < |t| && t[i] in BACKED
    ensures t[j] in BACKED + {REFUNDED} && t[j] != PAID
  {
    if i < j - 1 {
      AfterPayment(t, i, j - 1);
    }
    assert Edge(t[j - 1], t[j]);
  }
}
