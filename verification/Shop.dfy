/** The services over the database: the methods of the order, payment and coupon
    services, step by step as they run.  Where a method waits between two statements
    it calls `Others`, which stands for whatever all other callers do meanwhile. */
module ShopServices {
  import opened Wrappers
  import opened OrderStatus
  import opened Reservation
  import opened Tables
  import opened Protocol
  import opened ProtocolShape
  import opened Claims
  import opened Disputes
  import opened Retry

  /** What a provider can report about an attempt. */
  datatype Report = StillPending | ReportedFailed | ReportedSucceeded(amount: Option<real>)

  /** Recorded successes stay recorded. */
  ghost predicate ClaimsStay(w: World, v: World) {
    forall p :: 0 <= p < |w.rows.payments| && Claimed(w.rows.payments[p]) ==>
      p < |v.rows.payments| && Claimed(v.rows.payments[p])
  }

  /** How far a coupon's use is decided by what a checkout reads under its code. */
  function LookUp(coupons: map<CouponCode, Coupon>, code: Option<CouponCode>): Option<SeenCoupon> {
    if code.None? then None
    else Some(SeenCoupon(code.value, if code.value in coupons then Some(coupons[code.value]) else None))
  }

  /** The success of attempt `p` is recorded, or the order expired and was moved on
      while the report was handled. */
  predicate Recorded(w: World, p: PaymentId, since: nat) {
    && p < |w.rows.payments| && w.rows.payments[p].order < |w.trails|
    && (Claimed(w.rows.payments[p]) || ExpiredAndMovedOn(w.trails[w.rows.payments[p].order], since))
  }

  /** Recording a success and flagging its order for the owner. */
  function Disputed(w: World, p: PaymentId): World
    requires p < |w.rows.payments|
  {
    Atomic(Atomic(w, Claim(p)), Change(w.rows.payments[p].order, DISPUTED, System, NoExtra))
  }

  /** A success for an open order, when nobody interferes. */
  function SoloPay(w: World, p: PaymentId): World
    requires p < |w.rows.payments|
  {
    var id := w.rows.payments[p].order;
    if TransitionNow(w.rows, id, PAID, System, ClaimPayment(p)).outcome == OutOfStock
    then if Claimable(w.rows.payments, p) then Disputed(w, p) else w
    else Atomic(w, Change(id, PAID, System, ClaimPayment(p)))
  }

  /** What handling one report does when nobody interferes. */
  function SoloApply(w: World, p: PaymentId, report: Report): World {
    if p >= |w.rows.payments| then w
    else
      var payment := w.rows.payments[p];
      match report
      case StillPending => w
      case ReportedFailed => Atomic(w, Fail(p))
      case ReportedSucceeded(amount) =>
        if !AmountMatches(payment, amount) || payment.order >= |w.rows.orders| then w
        else
          var status := w.rows.orders[payment.order].status;
          if status == PAYMENT_PENDING || status == EXPIRED then SoloPay(w, p)
          else if Claimable(w.rows.payments, p) && (status == CANCELLED || status == PAYMENT_FAILED) then Disputed(w, p)
          else Atomic(w, Claim(p))
  }

  /** The attempts a reconciliation asks the provider about. */
  predicate Reconcilable(r: Rows, p: PaymentId, order: OrderId) {
    && p < |r.payments| && r.payments[p].order == order && !r.payments[p].cash
    && r.payments[p].status == Pending && r.payments[p].started
    && order < |r.orders| && r.orders[order].status == PAYMENT_PENDING
  }

  function PendingAttempts(r: Rows, order: OrderId, n: nat): (ps: seq<PaymentId>)
    requires n <= |r.payments|
    ensures forall i :: 0 <= i < |ps| ==> Reconcilable(r, ps[i], order)
  {
    if n == 0 then []
    else if Reconcilable(r, n - 1, order) then PendingAttempts(r, order, n - 1) + [n - 1]
    else PendingAttempts(r, order, n - 1)
  }

  /** Applying the provider's answers one after the other; an attempt it has no answer
      for is skipped. */
  function SoloApplyAll(w: World, ps: seq<PaymentId>, reports: map<PaymentId, Report>): World {
    if ps == [] then w
    else
      var before := SoloApplyAll(w, ps[..|ps| - 1], reports);
      var p := ps[|ps| - 1];
      if p in reports then SoloApply(before, p, reports[p]) else before
  }

  function SoloReconcile(w: World, order: OrderId, reports: map<PaymentId, Report>): World {
    SoloApplyAll(w, PendingAttempts(w.rows, order, |w.rows.payments|), reports)
  }

  /** The attempts asked about are exactly the pending ones whose start the provider answered,
      while the order waits for its payment, each once. */
  lemma {:induction false} PendingExactly(r: Rows, order: OrderId, n: nat)
    requires n <= |r.payments|
    ensures forall p: PaymentId :: p in PendingAttempts(r, order, n) <==>
              && p < n && r.payments[p].order == order && !r.payments[p].cash
              && r.payments[p].status == Pending && r.payments[p].started
              && order < |r.orders| && r.orders[order].status == PAYMENT_PENDING
    ensures forall i, j :: 0 <= i < j < |PendingAttempts(r, order, n)| ==>
              PendingAttempts(r, order, n)[i] < PendingAttempts(r, order, n)[j]
  {
    if n > 0 {
      PendingExactly(r, order, n - 1);
      var before := PendingAttempts(r, order, n - 1);
      assert forall i :: 0 <= i < |before| ==> before[i] in before;
    }
  }

  class Shop {
    var products: seq<Product>
    var orders: seq<Order>
    var payments: seq<Payment>
    var coupons: map<CouponCode, Coupon>
    var cart: map<CartRowId, CartRow>
    ghost var world: World

    function Snapshot(): Rows
      reads this
    {
      Rows(products, orders, payments, coupons, cart)
    }

    ghost predicate Valid()
      reads this
    {
      world.rows == Snapshot() && Shape(world)
    }

    constructor (products: seq<Product>, coupons: map<CouponCode, Coupon>)
      requires NonNegative(products)
      ensures Valid()
      ensures world == World(Rows(products, [], [], coupons, map[]), [], [], [], {})
    {
      this.products, this.orders, this.payments, this.coupons, this.cart := products, [], [], coupons, map[];
      this.world := World(Rows(products, [], [], coupons, map[]), [], [], [], {});
    }

    /** Any number of steps of any other callers; nothing at all when `alone`.  Callers
        rely on the contract alone, which admits every behaviour of the others
        (`OthersAreSteps`); the body is the one in which they do nothing. */
    method Others(ghost alone: bool)
      requires Valid()
      modifies this
      ensures Valid() && Grows(old(world), world) && ClaimsStay(old(world), world)
      ensures alone ==> world == old(world)
    {
    }

    // -------------------------------------------------------------------
    // Stock
    // -------------------------------------------------------------------

    /** The increments of a release. */
    method ReleaseUnits(lines: seq<Line>)
      requires KnownProducts(lines, |products|)
      modifies this`products
      ensures products == Restock(old(products), lines)
    {
      for i := 0 to |lines|
        invariant |products| == |old(products)|
        invariant Restock(products, lines[i..]) == Restock(old(products), lines)
      {
        var l := lines[i];
        assert lines[i..][1..] == lines[i + 1..];
        products := products[l.product := products[l.product].(quantity := products[l.product].quantity + l.quantity)];
      }
      assert lines[|lines|..] == [];
    }

    /** The conditional decrements of a reservation, with the sum they come to.  On a
        failure the caller rolls the stock back. */
    method TakeUnits(lines: seq<Line>) returns (ok: bool, subtotal: real)
      modifies this`products
      ensures ok == Reserve(old(products), lines).Some?
      ensures ok ==> products == Reserve(old(products), lines).value && subtotal == Subtotal(lines)
    {
      subtotal := 0.0;
      for i := 0 to |lines|
        invariant |products| == |old(products)|
        invariant Reserve(products, lines[i..]) == Reserve(old(products), lines)
        invariant subtotal == Subtotal(lines[..i])
      {
        var l := lines[i];
        assert lines[i..][1..] == lines[i + 1..];
        if !(l.product < |products| && products[l.product].quantity >= l.quantity) {
          return false, subtotal;
        }
        products := products[l.product := products[l.product].(quantity := products[l.product].quantity - l.quantity)];
        subtotal := subtotal + l.unitPrice * l.quantity as real;
        assert lines[..i + 1][..i] == lines[..i];
      }
      assert lines[|lines|..] == [] && lines[..|lines|] == lines;
      ok := true;
    }

    // -------------------------------------------------------------------
    // Status changes
    // -------------------------------------------------------------------

    /** The statements of a status change that touch the stock; false when units are
        missing, and the caller then rolls back. */
    method MoveStock(from: Status, to: Status, lines: seq<Line>) returns (ok: bool)
      requires KnownProducts(lines, |products|)
      modifies this`products
      ensures ok == MovedStock(old(products), from, to, lines).Some?
      ensures ok ==> products == MovedStock(old(products), from, to, lines).value
    {
      ok := true;
      if ReleasesStock(from, to) {
        ReleaseUnits(lines);
      }
      if ReservesStock(from, to) {
        var taken, _ := TakeUnits(lines);
        ok := taken;
      }
    }

    method GiveUseBack(from: Status, to: Status, coupon: Option<CouponCode>)
      modifies this`coupons
      ensures coupons == GivenBack(old(coupons), from, to, coupon)
    {
      if ReleasesCoupon(from, to) && coupon.Some? {
        var code := coupon.value;
        if code in coupons && coupons[code].usedCount > 0 {
          coupons := coupons[code := coupons[code].(usedCount := coupons[code].usedCount - 1)];
        }
      }
    }

    /** The extra write of a status change; false when it refuses. */
    method WriteExtra(extra: Extra) returns (ok: bool)
      modifies this`payments
      ensures ok == WithExtra(old(payments), extra).Some?
      ensures ok ==> payments == WithExtra(old(payments), extra).value
    {
      match extra {
        case NoExtra =>
          ok := true;
        case ClaimPayment(p) =>
          ok := Claimable(payments, p);
          if ok {
            payments := WithStatus(payments, p, Succeeded);
          }
        case ConfirmCash(p) =>
          ok := p < |payments|;
          if ok {
            payments := WithStatus(payments, p, Succeeded);
          }
      }
    }

    /** The transaction of a status change after its read: it commits as a whole or
        leaves everything as it was. */
    method WriteStatus(id: OrderId, seen: Order, to: Status, extra: Extra) returns (outcome: Outcome)
      requires id < |orders| && KnownProducts(seen.items, |products|)
      modifies this`products, this`orders, this`payments, this`coupons
      ensures Written(outcome, Snapshot()) == ChangeStatus(old(Snapshot()), id, seen, to, extra)
    {
      var from := seen.status;
      if orders[id].status != from {
        return Unchanged;
      }
      var products0, orders0, payments0, coupons0 := products, orders, payments, coupons;
      orders := orders[id := orders[id].(status := to)];
      var inStock := MoveStock(from, to, seen.items);
      if !inStock {
        products, orders := products0, orders0;
        return OutOfStock;
      }
      GiveUseBack(from, to, seen.coupon);
      payments := Settle(payments, id, to);
      var done := WriteExtra(extra);
      if !done {
        products, orders, payments, coupons := products0, orders0, payments0, coupons0;
        return AlreadyProcessed;
      }
      outcome := Changed;
    }

    method CommitStatus(id: OrderId, seen: Order, to: Status, extra: Extra) returns (outcome: Outcome)
      requires Valid() && id < |orders| && SameOrder(seen, orders[id]) && Edge(seen.status, to)
      modifies this
      ensures Valid() && Grows(old(world), world)
      ensures Written(outcome, Snapshot()) == ChangeStatus(old(Snapshot()), id, seen, to, extra)
      ensures world == if outcome == Changed then Logged(old(world), Snapshot(), id, to, extra) else old(world)
    {
      assert OrderShape(world, id);
      ghost var before := Snapshot();
      outcome := WriteStatus(id, seen, to, extra);
      if outcome == Changed {
        CommitGrows(world, id, seen, to, extra);
        world := Logged(world, Snapshot(), id, to, extra);
      }
    }

    /** The commit of a status change that was allowed when its order was read: it finds
        that the order moved on and changes nothing, or does what reading and writing at
        this instant would do. */
    method CommitAfterRead(id: OrderId, seen: Order, to: Status, actor: Actor, extra: Extra) returns (outcome: Outcome)
      requires Valid() && id < |orders| && SameOrder(seen, orders[id])
      requires seen.status != to && CanTransition(actor, seen.status, to)
      modifies this
      ensures Valid() && Grows(old(world), world) && ClaimsStay(old(world), world)
      ensures outcome == Unchanged <==> old(orders)[id].status != seen.status
      ensures outcome !in {NotFound, NotAllowed}
      ensures outcome == Unchanged ==> world == old(world)
      ensures outcome != Unchanged ==>
                && world == Atomic(old(world), Change(id, to, actor, extra))
                && outcome == TransitionNow(old(Snapshot()), id, to, actor, extra).outcome
      ensures outcome in {Changed, AlreadyProcessed} ==> ClaimDone(payments, extra)
      ensures outcome == Changed ==> id < |orders| && orders[id].status == to && ExtraWritten(payments, extra)
      ensures outcome == OutOfStock ==> to == PAID && id < |world.trails| && |world.trails[id]| >= 2
      ensures outcome == AlreadyProcessed ==> !extra.NoExtra?
    {
      WrittenOut(world, id, seen, to, extra);
      OutcomeFacts(world.rows, id, seen, to, extra);
      if orders[id].status == seen.status {
        AllowedChange(world, id, to, actor, extra);
      }
      outcome := CommitStatus(id, seen, to, extra);
    }

    /** What comes after the read of a status change that is allowed: it waits, and commits.
        When nothing changed the order moved on in between. */
    method WaitAndCommit(id: OrderId, to: Status, actor: Actor, extra: Extra,
      ghost alone: bool) returns (outcome: Outcome)
      requires Valid() && id < |orders| && orders[id].status != to && CanTransition(actor, orders[id].status, to)
      modifies this
      ensures Valid() && Grows(old(world), world) && ClaimsStay(old(world), world)
      ensures alone ==> world == Atomic(old(world), Change(id, to, actor, extra))
      ensures alone ==> outcome == TransitionNow(old(Snapshot()), id, to, actor, extra).outcome
      ensures outcome !in {NotFound, NotAllowed}
      ensures outcome == Changed ==> id < |orders| && orders[id].status == to && ExtraWritten(payments, extra)
      ensures outcome == OutOfStock ==> to == PAID && id < |world.trails| && |world.trails[id]| >= 2
      ensures outcome == AlreadyProcessed ==> !extra.NoExtra?
      ensures outcome == Unchanged ==> |old(world).trails[id]| < |world.trails[id]|
      ensures outcome in {Changed, AlreadyProcessed} ==> ClaimDone(payments, extra)
    {
      var order := orders[id];
      assert OrderShape(world, id);
      Others(alone);
      ghost var before := world;
      assert old(world).trails[id] <= before.trails[id];
      assert SameOrder(order, orders[id]) && OrderShape(before, id);
      outcome := CommitAfterRead(id, order, to, actor, extra);
      GrowsOn(old(world), before, world);
      assert before.trails[id] <= world.trails[id];
    }

    /** The only place where the status of an existing order changes.  `readAt` is how
        far the order's trail was when its status was read. */
    method Transition(id: OrderId, to: Status, actor: Actor, extra: Extra, ghost alone: bool)
      returns (outcome: Outcome, ghost readAt: nat)
      requires Valid()
      modifies this
      ensures Valid() && Grows(old(world), world) && ClaimsStay(old(world), world)
      ensures alone ==> world == Atomic(old(world), Change(id, to, actor, extra))
      ensures alone ==> outcome == TransitionNow(old(Snapshot()), id, to, actor, extra).outcome
      ensures outcome == NotFound <==> id >= |old(orders)|
      ensures outcome == NotAllowed ==> actor == Admin
      ensures outcome in {NotFound, NotAllowed} ==> world == old(world)
      ensures outcome == Changed ==> id < |orders| && orders[id].status == to && ExtraWritten(payments, extra)
      ensures outcome == OutOfStock ==> to == PAID && id < |world.trails| && |world.trails[id]| >= 2
      ensures outcome == AlreadyProcessed ==> !extra.NoExtra?
      ensures id < |old(orders)| ==>
                && |old(world).trails[id]| <= readAt <= |world.trails[id]|
                && StaleRead(world.trails[id], readAt, to, actor, outcome)
      ensures outcome in {Changed, AlreadyProcessed} ==> ClaimDone(payments, extra)
    {
      RefusedNow(world, id, to, actor, extra);
      if id >= |orders| {
        return NotFound, 0;
      }
      var order := orders[id];
      readAt := |world.trails[id]|;
      assert OrderShape(world, id);
      if order.status == to {
        return Unchanged, readAt;
      }
      if !CanTransition(actor, order.status, to) {
        return if actor == Admin then NotAllowed else Unchanged, readAt;
      }
      outcome := WaitAndCommit(id, to, actor, extra, alone);
      assert old(world).trails[id] <= world.trails[id];
    }

    /** Cancel: a never-paid order is cancelled, any other one is to be refunded. */
    method CancelOrder(id: OrderId, ghost alone: bool) returns (outcome: Outcome)
      requires Valid()
      modifies this
      ensures Valid() && Grows(old(world), world) && ClaimsStay(old(world), world)
      ensures outcome == NotFound <==> id >= |old(orders)|
      ensures outcome == NotFound ==> world == old(world)
      ensures outcome == Changed ==> id < |orders| && orders[id].status in {CANCELLED, REFUNDED}
      ensures alone && id < |old(orders)| ==>
                var to := if old(orders)[id].status == PAYMENT_PENDING then CANCELLED else REFUNDED;
                && world == Atomic(old(world), Change(id, to, Admin, NoExtra))
                && outcome == TransitionNow(old(Snapshot()), id, to, Admin, NoExtra).outcome
    {
      if id >= |orders| {
        return NotFound;
      }
      var to := if orders[id].status == PAYMENT_PENDING then CANCELLED else REFUNDED;
      Others(alone);
      ghost var mid := world;
      ghost var at;
      outcome, at := Transition(id, to, Admin, NoExtra, alone);
      GrowsOn(old(world), mid, world);
    }

    // -------------------------------------------------------------------
    // Checkout
    // -------------------------------------------------------------------

    /** All rows of one cart, with the prices of their products now. */
    method ReadCart(id: nat) returns (picks: seq<Pick>)
      requires Valid()
      ensures IsCartRead(Snapshot(), id, picks)
    {
      picks := [];
      var left := set row | row in cart && cart[row].cart == id;
      while left != {}
        invariant left <= set row | row in cart && cart[row].cart == id
        invariant forall i :: 0 <= i < |picks| ==> PickRead(Snapshot(), id, picks[i]) && picks[i].row !in left
        invariant forall i, j :: 0 <= i < j < |picks| ==> picks[i].row != picks[j].row
        invariant forall row :: row in cart && cart[row].cart == id ==>
                  row in left || exists i :: 0 <= i < |picks| && picks[i].row == row
        decreases left
      {
        var row :| row in left;
        var item := cart[row];
        ghost var before := picks;
        picks := picks + [Pick(row, Line(item.product, item.quantity, products[item.product].price))];
        left := left - {row};
        forall other | other in cart && cart[other].cart == id
          ensures other in left || exists i :: 0 <= i < |picks| && picks[i].row == other
        {
          if other == row {
            assert picks[|before|].row == row;
          } else if other !in left {
            var i :| 0 <= i < |before| && before[i].row == other;
            assert picks[i].row == other;
          }
        }
      }
    }

    /** Validates the coupon that was read and takes one of its uses. */
    method ApplyCoupon(seen: SeenCoupon, subtotal: real, now: int) returns (discount: Option<real>, why: Refusal)
      modifies this`coupons
      ensures discount == if CheckCoupon(seen.coupon, subtotal, now).None? ||
              TakeUse(old(coupons), seen.code, seen.coupon.value).None?
                          then None else CheckCoupon(seen.coupon, subtotal, now)
      ensures discount.Some? ==> coupons == TakeUse(old(coupons), seen.code, seen.coupon.value).value
      ensures discount.None? ==> coupons == old(coupons)
      ensures why == if CheckCoupon(seen.coupon, subtotal, now).None? then CouponRefused else CouponUsedUp
    {
      discount, why := CheckCoupon(seen.coupon, subtotal, now), CouponRefused;
      if discount.None? {
        return;
      }
      why := CouponUsedUp;
      var limit := seen.coupon.value.maxUses;
      if seen.code !in coupons || (limit.Some? && coupons[seen.code].usedCount >= limit.value) {
        return None, CouponUsedUp;
      }
      coupons := coupons[seen.code := coupons[seen.code].(usedCount := coupons[seen.code].usedCount + 1)];
    }

    /** The transaction of a checkout after its reads: the order is placed, or nothing
        changes and the refusal says why. */
    method WriteCheckout(picks: seq<Pick>, coupon: Option<SeenCoupon>, now: int) returns (refusal: Option<Refusal>)
      modifies this`products, this`orders, this`coupons, this`cart
      ensures match PlaceOrder(old(Snapshot()), picks, coupon, now)
              case Placed(rows) => refusal.None? && Snapshot() == rows
              case Refused(why) => refusal == Some(why) && Snapshot() == old(Snapshot())
    {
      if picks == [] {
        return Some(CartEmpty);
      }
      var products0, cart0, coupons0 := products, cart, coupons;
      var deleted := Present(cart, RowsOf(picks));
      cart := cart - (set p | p in RowsOf(picks));
      if deleted != |picks| {
        cart := cart0;
        return Some(CheckoutInProgress);
      }
      var inStock, subtotal := TakeUnits(LinesOf(picks));
      if !inStock {
        products, cart := products0, cart0;
        return Some(StockChanged);
      }
      var discount, code := 0.0, None;
      if coupon.Some? {
        var applied, why := ApplyCoupon(coupon.value, subtotal, now);
        if applied.None? {
          products, cart := products0, cart0;
          return Some(why);
        }
        discount, code := applied.value, Some(coupon.value.code);
      }
      if !AmountsFit(subtotal, discount) {
        products, cart, coupons := products0, cart0, coupons0;
        return Some(AmountTooLarge);
      }
      orders := orders + [Order(PAYMENT_PENDING, LinesOf(picks), code, subtotal, subtotal - discount, now)];
      refusal := None;
    }

    method CommitCheckout(picks: seq<Pick>, coupon: Option<SeenCoupon>, now: int) returns (refusal: Option<Refusal>)
      requires Valid() && PicksOk(world, picks) && SeenCouponOk(world, coupon)
      modifies this
      ensures Valid() && Grows(old(world), world)
      ensures world == Atomic(old(world), Place(picks, coupon, now))
      ensures refusal.None? == PlaceOrder(old(Snapshot()), picks, coupon, now).Placed?
    {
      AtomicShape(world, Place(picks, coupon, now));
      refusal := WriteCheckout(picks, coupon, now);
      world := Atomic(world, Place(picks, coupon, now));
    }

    /** Checkout: reads the cart, then claims its rows, takes the units and the coupon
        use and creates the order in one transaction.  `before` is the world it commits in,
        and `seen` the coupon as it read it. */
    method Checkout(id: nat, code: Option<CouponCode>, now: int, ghost alone: bool)
      returns (refusal: Option<Refusal>, ghost picks: seq<Pick>, ghost before: World, ghost seen: Option<SeenCoupon>)
      requires Valid()
      modifies this
      ensures Valid() && Grows(old(world), world)
      ensures IsCartRead(old(Snapshot()), id, picks)
      ensures Shape(before) && Grows(old(world), before) && SeenCouponOk(before, seen)
      ensures seen.None? == code.None? && (seen.Some? ==> seen.value.code == code.value)
      ensures world == Atomic(before, Place(picks, seen, now))
      ensures refusal.None? == PlaceOrder(before.rows, picks, seen, now).Placed?
      ensures alone ==> before == old(world) && seen == LookUp(old(coupons), code)
      ensures seen.Some? && code.value in old(coupons) ==> seen.value.coupon.Some?
      ensures alone && seen.Some? ==>
                && (seen.value.coupon.Some? <==> code.value in old(coupons))
                && (code.value in old(coupons) ==> seen.value.coupon.value == old(coupons)[code.value])
    {
      var items := ReadCart(id);
      picks := items;
      assert PicksOk(world, picks);
      ghost var w0 := world;
      Others(alone);
      ghost var w1 := world;
      CallOkGrows(w0, w1, CartSeen(picks, code));
      var coupon := LookUp(coupons, code);
      seen := coupon;
      assert SeenCouponOk(w1, seen);
      Others(alone);
      before := world;
      CallOkGrows(w1, before, CheckoutReady(picks, seen));
      GrowsOn(w0, w1, before);
      refusal := CommitCheckout(items, coupon, now);
      GrowsOn(w0, before, world);
    }

    // -------------------------------------------------------------------
    // Payments
    // -------------------------------------------------------------------

    /** The claim of a success outside a status change. */
    method ClaimSuccess(p: PaymentId) returns (ok: bool)
      requires Valid() && p < |payments|
      modifies this
      ensures Valid() && Grows(old(world), world) && ClaimsStay(old(world), world)
      ensures world == Atomic(old(world), Claim(p))
      ensures ok == Claimable(old(payments), p) && Claimed(payments[p])
    {
      ok := Claimable(payments, p);
      if ok {
        payments := payments[p := payments[p].(status := Succeeded)];
      }
      world := Atomic(world, Claim(p));
      assert forall o :: 0 <= o < |orders| ==> OrderShape(old(world), o) ==> OrderShape(world, o);
    }

    method FailAttempt(p: PaymentId)
      requires Valid() && OnlineAttempt(world, p)
      modifies this
      ensures Valid() && Grows(old(world), world) && ClaimsStay(old(world), world)
      ensures world == Atomic(old(world), Fail(p))
    {
      AtomicShape(world, Fail(p));
      if payments[p].status == Pending {
        payments := payments[p := payments[p].(status := Failed)];
      }
      world := Atomic(world, Fail(p));
    }

    /** Handles one report about an attempt.  `since` is how far the order's trail was
        when the report arrived; `depth` 1 is the one retry.  `recorded` is whether this call
        recorded the success. */
    method ApplyResult(p: PaymentId, report: Report, depth: nat, ghost since: nat, ghost alone: bool)
      returns (ghost recorded: bool)
      requires Valid() && OnlineAttempt(world, p) && depth <= 1
      requires var t := world.trails[payments[p].order];
               if depth == 0 then since == |t| else OpenAt(t, since) && since < |t|
      modifies this
      ensures Valid() && Grows(old(world), world) && ClaimsStay(old(world), world)
      ensures alone && depth == 0 ==> world == SoloApply(old(world), p, report)
      ensures report.ReportedSucceeded? && AmountMatches(old(payments)[p], report.amount) ==>
                Recorded(world, p, since)
      ensures recorded ==> OnLiveOrder(orders, payments, p) && Claimed(payments[p])
      ensures alone && depth == 0 ==>
                (recorded <==> report.ReportedSucceeded? && AmountMatches(old(payments)[p], report.amount)
                               && old(payments)[p].status in {Pending, Failed})
      decreases 1 - depth, 1
    {
      hide OnLiveOrder, BeenPaid, OpenAt, SoloApply, SoloPay, Disputed, Atomic;
      SoloApplyCases(world, p, report);
      recorded := false;
      match report {
        case StillPending =>
        case ReportedFailed =>
          FailAttempt(p);
        case ReportedSucceeded(amount) =>
          if !AmountMatches(payments[p], amount) {
            return;
          }
          ghost var w0 := world;
          Others(alone);
          ghost var w1 := world;
          OrderAtRead(w0, w1, p, depth, since);
          var status := orders[payments[p].order].status;
          if status == PAYMENT_PENDING || status == EXPIRED {
            recorded := PayOpenOrder(p, report, depth, since, alone);
          } else {
            recorded := ClaimAndDispute(p, status == CANCELLED || status == PAYMENT_FAILED, alone);
          }
          GrowsOn(w0, w1, world);
      }
    }

    /** The part of handling a success for an order that was still open when it was
        read: pay it, or record the success when the units are gone, or look again. */
    method PayOpenOrder(p: PaymentId, report: Report, depth: nat, ghost since: nat, ghost alone: bool)
      returns (ghost recorded: bool)
      requires Valid() && OnlineAttempt(world, p) && depth <= 1
      requires report.ReportedSucceeded? && AmountMatches(payments[p], report.amount)
      requires orders[payments[p].order].status in {PAYMENT_PENDING, EXPIRED}
      requires var t := world.trails[payments[p].order];
               1 <= since <= |t| && (depth > 0 ==> OpenAt(t, since) && since < |t|)
      modifies this
      ensures Valid() && Grows(old(world), world) && ClaimsStay(old(world), world)
      ensures alone && depth == 0 ==> world == SoloPay(old(world), p)
      ensures Recorded(world, p, since)
      ensures recorded ==> OnLiveOrder(orders, payments, p) && Claimed(payments[p])
      ensures alone && depth == 0 ==> recorded == Claimable(old(payments), p)
      decreases 1 - depth, 0
    {
      ghost var w1 := world;
      SoloPayByOutcome(w1, p);
      ClaimOutcome(w1, p);
      var outcome := TryToPay(p, depth, since, alone);
      recorded := outcome == Changed;
      ghost var w2 := world;
      if outcome == OutOfStock {
        recorded := ClaimAndDispute(p, true, alone);
        GrowsOn(w1, w2, world);
      } else if outcome == Unchanged && depth == 0 {
        recorded := ApplyResult(p, report, 1, since, alone);
        GrowsOn(w1, w2, world);
      }
    }

    method TryToPay(p: PaymentId, depth: nat, ghost since: nat, ghost alone: bool) returns (outcome: Outcome)
      requires Valid() && OnlineAttempt(world, p)
      requires orders[payments[p].order].status in {PAYMENT_PENDING, EXPIRED}
      requires var t := world.trails[payments[p].order];
               1 <= since <= |t| && (depth > 0 ==> OpenAt(t, since) && since < |t|)
      modifies this
      ensures Valid() && Grows(old(world), world) && ClaimsStay(old(world), world)
      ensures alone ==> world == Atomic(old(world), Change(old(payments)[p].order, PAID, System, ClaimPayment(p)))
      ensures alone ==>
                outcome == TransitionNow(old(Snapshot()), old(payments)[p].order, PAID, System, ClaimPayment(p)).outcome
                && outcome != Unchanged
      ensures outcome !in {NotFound, NotAllowed}
      ensures OnlineAttempt(world, p) && payments[p].order == old(payments)[p].order &&
              SamePayment(old(payments)[p], payments[p])
      ensures outcome in {Changed, AlreadyProcessed} ==> Claimed(payments[p])
      ensures outcome == Changed ==> OnLiveOrder(orders, payments, p)
      ensures outcome == OutOfStock ==> |world.trails[payments[p].order]| >= 2
      ensures outcome == Unchanged ==>
                var t := world.trails[payments[p].order];
                OpenAt(t, since) && since < |t| && (depth > 0 ==> ExpiredAndMovedOn(t, since))
    {
      var id := payments[p].order;
      ghost var w1 := world;
      assert OrderShape(w1, id);
      Others(alone);
      ghost var w2 := world;
      assert w1.trails[id] <= w2.trails[id];
      ghost var readAt;
      outcome, readAt := Transition(id, PAID, System, ClaimPayment(p), alone);
      ghost var w3 := world;
      GrowsOn(w1, w2, w3);
      assert SamePayment(w1.rows.payments[p], w3.rows.payments[p]);
      assert OrderShape(w3, id) && w2.trails[id] <= w3.trails[id];
      if outcome == Unchanged {
        MovedOn(w3.trails[id], depth, since, |w1.trails[id]|, readAt);
      }
    }

    /** Records a success that cannot make its order PAID, and flags the order. */
    method ClaimAndDispute(p: PaymentId, dispute: bool, ghost alone: bool) returns (ghost recorded: bool)
      requires Valid() && p < |payments|
      requires var t := world.trails[payments[p].order]; if dispute then |t| >= 2 else BeenPaid(t)
      modifies this
      ensures Valid() && Grows(old(world), world) && ClaimsStay(old(world), world)
      ensures Claimed(payments[p])
      ensures recorded ==> OnLiveOrder(orders, payments, p)
      ensures alone ==> recorded == Claimable(old(payments), p)
      ensures alone ==>
                world == if Claimable(old(payments), p) &&
                  dispute then Disputed(old(world), p) else Atomic(old(world), Claim(p))
    {
      Others(alone);
      ghost var w1 := world;
      ghost var id := payments[p].order;
      var ok := ClaimSuccess(p);
      recorded := ok;
      ghost var w2 := world;
      GrowsOn(old(world), w1, w2);
      assert old(world).trails[id] <= w2.trails[id];
      if ok && dispute {
        Others(alone);
        ghost var w3 := world;
        GrowsOn(old(world), w2, w3);
        FlagOrder(p, alone);
        GrowsOn(old(world), w3, world);
      } else if ok {
        BeenPaidStays(old(world).trails[id], w2.trails[id]);
        PaidIsLive(w2, p);
      }
    }

    /** Flags the order of a success that came too late; one that was paid for by now stays
        as it is. */
    method FlagOrder(p: PaymentId, ghost alone: bool)
      requires Valid() && p < |payments| && |world.trails[payments[p].order]| >= 2
      modifies this
      ensures Valid() && Grows(old(world), world) && ClaimsStay(old(world), world)
      ensures alone ==> world == Atomic(old(world), Change(old(payments)[p].order, DISPUTED, System, NoExtra))
      ensures OnLiveOrder(orders, payments, p)
    {
      var id := payments[p].order;
      ghost var at;
      var outcome;
      outcome, at := Transition(id, DISPUTED, System, NoExtra, alone);
      assert SamePayment(old(world).rows.payments[p], payments[p]);
      if outcome == Unchanged {
        assert OrderShape(world, id);
        FlaggedOrPaid(world.trails[id], at);
        PaidIsLive(world, p);
      }
    }

    /** Asks the provider about the order's pending attempts, one after the other. */
    method ReconcilePending(id: OrderId, reports: map<PaymentId, Report>, ghost alone: bool)
      requires Valid()
      modifies this
      ensures Valid() && Grows(old(world), world) && ClaimsStay(old(world), world)
      ensures alone ==> world == SoloReconcile(old(world), id, reports)
    {
      var pending := PendingAttempts(Snapshot(), id, |payments|);
      ghost var w0 := world;
      for i := 0 to |pending|
        invariant Valid() && Grows(w0, world) && ClaimsStay(w0, world)
        invariant alone ==> world == SoloApplyAll(w0, pending[..i], reports)
      {
        var p := pending[i];
        assert pending[..i + 1][..i] == pending[..i];
        assert Reconcilable(w0.rows, p, id);
        assert SamePayment(w0.rows.payments[p], payments[p]);
        if p in reports {
          ghost var before := world;
          ghost var recorded := ApplyResult(p, reports[p], 0, |world.trails[payments[p].order]|, alone);
          GrowsOn(w0, before, world);
        }
      }
      assert pending[..|pending|] == pending;
    }

    // -------------------------------------------------------------------
    // Choosing and confirming a payment
    // -------------------------------------------------------------------

    method UpdateStatus(id: OrderId, to: Status, ghost alone: bool) returns (outcome: Outcome)
      requires Valid()
      modifies this
      ensures Valid() && Grows(old(world), world) && ClaimsStay(old(world), world)
      ensures outcome == NotFound <==> id >= |old(orders)|
      ensures outcome == Changed ==> id < |orders| && orders[id].status == to
      ensures alone ==>
                && world == Atomic(old(world), Change(id, to, Admin, NoExtra))
                && outcome == TransitionNow(old(Snapshot()), id, to, Admin, NoExtra).outcome
    {
      ghost var at;
      outcome, at := Transition(id, to, Admin, NoExtra, alone);
    }

    method CreatePayment(payment: Payment)
      requires Valid() && payment.order < |orders| && payment.status == Pending
      modifies this
      ensures Valid() && Grows(old(world), world) && ClaimsStay(old(world), world)
      ensures world == Atomic(old(world), AddPayment(payment))
      ensures payments == old(payments) + [payment] && orders == old(orders)
    {
      AtomicShape(world, AddPayment(payment));
      payments := payments + [payment];
      world := Atomic(world, AddPayment(payment));
    }

    /** The customer pays cash at pickup: a second click adds no second attempt, as long
        as nobody else is between the check and the write. */
    method SelectCashPayment(id: OrderId, now: int, ghost alone: bool) returns (ok: bool)
      requires Valid()
      modifies this
      ensures Valid() && Grows(old(world), world) && ClaimsStay(old(world), world)
      ensures ok == (id < |old(orders)| && old(orders)[id].status == PAYMENT_PENDING)
      ensures alone ==>
                world == if ok && !HasPendingCash(old(payments), id)
                         then Atomic(old(world),
                           AddPayment(Payment(id, true, old(orders)[id].total, Pending, false, now)))
                         else old(world)
      ensures alone && ok && !HasPendingCash(old(payments), id) ==>
                payments == old(payments) + [Payment(id, true, old(orders)[id].total, Pending, false, now)]
    {
      ok := id < |orders| && orders[id].status == PAYMENT_PENDING;
      if ok && !HasPendingCash(payments, id) {
        var order := orders[id];
        ghost var w0 := world;
        Others(alone);
        ghost var w1 := world;
        assert SameOrder(order, orders[id]);
        CreatePayment(Payment(id, true, order.total, Pending, false, now));
        GrowsOn(w0, w1, world);
      }
    }

    /** The provider answered, or could not be reached: then the attempt is marked failed
        whatever happened to it meanwhile. */
    method FinishStart(p: PaymentId, reachable: bool)
      requires Valid() && OnlineAttempt(world, p)
      modifies this
      ensures Valid() && Grows(old(world), world)
      ensures forall q :: 0 <= q < |old(payments)| && q != p ==> payments[q] == old(payments)[q]
      ensures world == Atomic(old(world), if reachable then Start(p) else Crash(p))
      ensures payments == old(payments)[p :=
                if reachable then old(payments)[p].(started := true) else old(payments)[p].(status := Failed)]
    {
      ghost var op := if reachable then Start(p) else Crash(p);
      AtomicShape(world, op);
      payments := payments[p := if reachable then payments[p].(started := true) else payments[p].(status := Failed)];
      world := Atomic(world, op);
    }

    /** Starts an online attempt.  Successes of other attempts stay recorded. */
    method StartOnlinePayment(id: OrderId, now: int, reachable: bool, ghost alone: bool) returns (ok: bool)
      requires Valid()
      modifies this
      ensures Valid() && Grows(old(world), world)
      ensures forall p :: 0 <= p < |old(payments)| && Claimed(old(payments)[p]) ==> Claimed(payments[p])
      ensures !(id < |old(orders)| && old(orders)[id].status == PAYMENT_PENDING) ==> !ok && world == old(world)
      ensures id < |old(orders)| && old(orders)[id].status == PAYMENT_PENDING ==> ok == reachable
      ensures alone && id < |old(orders)| && old(orders)[id].status == PAYMENT_PENDING ==>
                var created := Atomic(old(world),
                  AddPayment(Payment(id, false, old(orders)[id].total, Pending, false, now)));
                && world == Atomic(created, if reachable then Start(|old(payments)|) else Crash(|old(payments)|))
                && payments == old(payments) +
                   [Payment(id, false, old(orders)[id].total, if reachable then Pending else Failed, reachable, now)]
    {
      if id >= |orders| || orders[id].status != PAYMENT_PENDING {
        return false;
      }
      var order := orders[id];
      ghost var w0 := world;
      Others(alone);
      ghost var w1 := world;
      assert SameOrder(order, orders[id]);
      var p := |payments|;
      CreatePayment(Payment(id, false, order.total, Pending, false, now));
      ghost var w2 := world;
      Others(alone);
      ghost var w3 := world;
      GrowsOn(w0, w1, w2);
      GrowsOn(w0, w2, w3);
      assert SamePayment(w2.rows.payments[p], w3.rows.payments[p]);
      FinishStart(p, reachable);
      GrowsOn(w0, w3, world);
      ok := reachable;
    }

    /** The admin confirms that the cash arrived: the order becomes PAID and the attempt
        succeeds together, or neither. */
    method ConfirmCashPayment(id: OrderId, ghost alone: bool) returns (ok: bool)
      requires Valid()
      modifies this
      ensures Valid() && Grows(old(world), world) && ClaimsStay(old(world), world)
      ensures !HasPendingCash(old(payments), id) ==> !ok && world == old(world)
      ensures ok ==>
                && id < |orders| && orders[id].status == PAID
                && exists p :: 0 <= p < |payments| && payments[p].order == id && payments[p].cash
                               && payments[p].status == Succeeded
      ensures HasPendingCash(old(payments), id) && alone ==>
                exists p :: 0 <= p < |old(payments)| && old(payments)[p].order == id && old(payments)[p].cash
                            && old(payments)[p].status == Pending
                            && world == Atomic(old(world), Change(id, PAID, System, ConfirmCash(p)))
                            && (ok <==>
                                  TransitionNow(old(Snapshot()), id, PAID, System, ConfirmCash(p)).outcome == Changed)
    {
      var p := 0;
      while p < |payments| && !(payments[p].order == id && payments[p].cash && payments[p].status == Pending)
        invariant 0 <= p <= |payments|
        invariant forall q :: 0 <= q < p ==>
                  !(payments[q].order == id && payments[q].cash && payments[q].status == Pending)
      {
        p := p + 1;
      }
      if p == |payments| {
        return false;
      }
      ghost var w0 := world;
      Others(alone);
      ghost var w1 := world;
      ghost var at;
      var outcome;
      outcome, at := Transition(id, PAID, System, Extra.ConfirmCash(p), alone);
      GrowsOn(w0, w1, world);
      ok := outcome == Changed;
    }
  }

  /** What a handling finds when it reads the order. */
  lemma OrderAtRead(w: World, v: World, p: PaymentId, depth: nat, since: nat)
    requires Shape(w) && Shape(v) && Grows(w, v) && OnlineAttempt(w, p)
    requires var t := w.trails[w.rows.payments[p].order];
             if depth == 0 then since == |t| else OpenAt(t, since) && since < |t|
    ensures OnlineAttempt(v, p) && SamePayment(w.rows.payments[p], v.rows.payments[p])
    ensures var t := v.trails[v.rows.payments[p].order];
            var status := v.rows.orders[v.rows.payments[p].order].status;
            && 1 <= since <= |t| && (depth > 0 ==> OpenAt(t, since) && since < |t|)
            && (status in {CANCELLED, PAYMENT_FAILED} ==> |t| >= 2)
            && (status !in {PAYMENT_PENDING, EXPIRED, CANCELLED, PAYMENT_FAILED} ==> BeenPaid(t))
  {
    var id := w.rows.payments[p].order;
    assert SamePayment(w.rows.payments[p], v.rows.payments[p]);
    assert w.trails[id] <= v.trails[id] && OrderShape(v, id);
    StatusOf(v.trails[id]);
  }

  lemma SoloApplyCases(w: World, p: PaymentId, report: Report)
    requires Shape(w) && OnlineAttempt(w, p)
    ensures var status := w.rows.orders[w.rows.payments[p].order].status;
            SoloApply(w, p, report) ==
              match report
              case StillPending => w
              case ReportedFailed => Atomic(w, Fail(p))
              case ReportedSucceeded(amount) =>
                if !AmountMatches(w.rows.payments[p], amount) then w
                else if status in {PAYMENT_PENDING, EXPIRED} then SoloPay(w, p)
                else if Claimable(w.rows.payments, p) && status in {CANCELLED, PAYMENT_FAILED} then Disputed(w, p)
                else Atomic(w, Claim(p))
  {
    hide SoloPay, Disputed, Atomic, AmountMatches;
  }

  lemma SoloPayByOutcome(w: World, p: PaymentId)
    requires Shape(w) && OnlineAttempt(w, p)
    ensures var id := w.rows.payments[p].order;
            var outcome := TransitionNow(w.rows, id, PAID, System, ClaimPayment(p)).outcome;
            if outcome == OutOfStock
            then Atomic(w, Change(id, PAID, System, ClaimPayment(p))) == w
                 && SoloPay(w, p) == if Claimable(w.rows.payments, p) then Disputed(w, p) else Atomic(w, Claim(p))
            else SoloPay(w, p) == Atomic(w, Change(id, PAID, System, ClaimPayment(p)))
  {
  }

  /** An attempt to make an order PAID that did nothing: at the first try the order has
      moved on since the report, at the second it expired and was moved on. */
  lemma MovedOn(t: Trail, depth: nat, since: nat, fetchedAt: nat, readAt: nat)
    requires Path(t) && 1 <= since <= fetchedAt <= readAt <= |t|
    requires t[fetchedAt - 1] in {PAYMENT_PENDING, EXPIRED}
    requires StaleRead(t, readAt, PAID, System, Unchanged)
    requires depth > 0 ==> OpenAt(t, since) && since < fetchedAt
    ensures OpenAt(t, since) && since < |t|
    ensures depth > 0 ==> ExpiredAndMovedOn(t, since)
  {
    NoReentry(t);
    OpenStatuses(t);
  }

  /** Why a status change did nothing: it was not allowed from the status that was
      read, or the order moved on after the read. */
  predicate StaleRead(t: Trail, readAt: nat, to: Status, actor: Actor, outcome: Outcome) {
    outcome == Unchanged ==>
      && 1 <= readAt <= |t|
      && (t[readAt - 1] == to || !CanTransition(actor, t[readAt - 1], to) || readAt < |t|)
  }

  /** The extra write's attempt is successful. */
  predicate ExtraWritten(payments: seq<Payment>, extra: Extra) {
    !extra.NoExtra? ==> extra.payment < |payments| && payments[extra.payment].status == Succeeded
  }

  lemma WrittenOut(w: World, id: OrderId, seen: Order, to: Status, extra: Extra)
    requires Shape(w) && id < |w.rows.orders|
    ensures var written := ChangeStatus(w.rows, id, seen, to, extra);
            && (written.outcome == Changed ==>
                  && id < |written.rows.orders| && written.rows.orders[id].status == to
                  && ExtraWritten(written.rows.payments, extra))
            && (written.outcome == OutOfStock ==>
                  id < |w.trails| && |w.trails[id]| >= 2 && ReservesStock(seen.status, to))
            && (written.outcome == AlreadyProcessed ==> !extra.NoExtra?)
  {
    assert OrderShape(w, id);
    if ChangeStatus(w.rows, id, seen, to, extra).outcome == Changed {
      ChangeParts(w.rows, id, seen, to, extra);
      ExtraIsWritten(Settle(w.rows.payments, id, to), extra);
    }
  }

  lemma ExtraIsWritten(payments: seq<Payment>, extra: Extra)
    ensures WithExtra(payments, extra).Some? ==> ExtraWritten(WithExtra(payments, extra).value, extra)
  {
  }

  /** The attempt's order is paid for, flagged for the owner or refunded. */
  predicate OnLiveOrder(orders: seq<Order>, payments: seq<Payment>, p: PaymentId) {
    && p < |payments| && payments[p].order < |orders|
    && orders[payments[p].order].status in
         {PAID, PROCESSING, SHIPPED, DELIVERED, DISPUTED, PARTIALLY_REFUNDED, REFUNDED}
  }

  lemma PaidIsLive(w: World, p: PaymentId)
    requires Shape(w) && p < |w.rows.payments|
    requires BeenPaid(w.trails[w.rows.payments[p].order])
    ensures OnLiveOrder(w.rows.orders, w.rows.payments, p)
  {
    var o := w.rows.payments[p].order;
    assert OrderShape(w, o);
    StatusOf(w.trails[o]);
  }

  /** An order that is not flagged although it no longer waited has been paid for. */
  lemma FlaggedOrPaid(t: Trail, readAt: nat)
    requires Path(t) && StaleRead(t, readAt, DISPUTED, System, Unchanged) && readAt >= 2
    ensures BeenPaid(t)
  {
    var seen: Trail := t[..readAt];
    PathPrefix(t, readAt);
    StatusOf(seen);
    StatusOf(t);
    if BeenPaid(seen) {
      BeenPaidStays(seen, t);
    }
  }

  /** Making an open order PAID with a claim goes through only if the success was not
      recorded before, and is refused as processed only if it was. */
  lemma ClaimOutcome(w: World, p: PaymentId)
    requires Shape(w) && OnlineAttempt(w, p) && Open(w.rows.orders[w.rows.payments[p].order].status)
    ensures var outcome := TransitionNow(w.rows, w.rows.payments[p].order, PAID, System, ClaimPayment(p)).outcome;
            && outcome in {Changed, AlreadyProcessed, OutOfStock}
            && (outcome == Changed ==> Claimable(w.rows.payments, p))
            && (outcome == AlreadyProcessed ==> !Claimable(w.rows.payments, p))
  {
    assert Settle(w.rows.payments, w.rows.payments[p].order, PAID) == w.rows.payments;
  }

  predicate ClaimDone(payments: seq<Payment>, extra: Extra) {
    extra.ClaimPayment? && extra.payment < |payments| ==> Claimed(payments[extra.payment])
  }

  /** A status change takes no recorded success back, and it ends with the success of
      its own attempt recorded unless the order moved on or units are missing. */
  lemma OutcomeFacts(r: Rows, id: OrderId, seen: Order, to: Status, extra: Extra)
    requires id < |r.orders|
    ensures var w := ChangeStatus(r, id, seen, to, extra);
            && |w.rows.payments| == |r.payments| && |w.rows.orders| == |r.orders|
            && (forall p :: 0 <= p < |r.payments| ==> SamePayment(r.payments[p], w.rows.payments[p]))
            && (forall p :: 0 <= p < |r.payments| && Claimed(r.payments[p]) ==> Claimed(w.rows.payments[p]))
            && (w.outcome in {Changed, AlreadyProcessed} ==> ClaimDone(w.rows.payments, extra))
            && (w.outcome == Unchanged <==> r.orders[id].status != seen.status)
            && w.outcome !in {NotFound, NotAllowed}
  {
    OutcomeOf(r, id, seen, to, extra);
    if ChangeStatus(r, id, seen, to, extra).outcome == Changed {
      var v := ChangeStatus(r, id, seen, to, extra).rows;
      ChangeParts(r, id, seen, to, extra);
      forall p | 0 <= p < |r.payments|
        ensures SamePayment(r.payments[p], v.payments[p]) && (Claimed(r.payments[p]) ==> Claimed(v.payments[p]))
      {
        AttemptAfter(r.payments, v.payments, id, to, extra, p);
      }
    }
  }

  lemma OutcomeOf(r: Rows, id: OrderId, seen: Order, to: Status, extra: Extra)
    requires id < |r.orders|
    ensures var w := ChangeStatus(r, id, seen, to, extra);
            && |w.rows.payments| == |r.payments| && |w.rows.orders| == |r.orders|
            && (w.outcome in {Changed, AlreadyProcessed} ==> ClaimDone(w.rows.payments, extra))
            && (w.outcome == Unchanged <==> r.orders[id].status != seen.status)
            && w.outcome !in {NotFound, NotAllowed}
  {
  }

  lemma CommitGrows(w: World, id: OrderId, seen: Order, to: Status, extra: Extra)
    requires Shape(w) && id < |w.rows.orders| && SameOrder(seen, w.rows.orders[id]) && Edge(seen.status, to)
    requires ChangeStatus(w.rows, id, seen, to, extra).outcome == Changed
    ensures var v := Logged(w, ChangeStatus(w.rows, id, seen, to, extra).rows, id, to, extra);
            Shape(v) && Grows(w, v)
  {
    assert OrderShape(w, id);
    ChangeKeeps(w.rows, id, seen, to, extra);
    LoggedShape(w, ChangeStatus(w.rows, id, seen, to, extra).rows, id, to, extra);
  }

  /** What `Others` stands for is what the other calls of the protocol do: however many
      steps they take, they only let the world grow, and they take no recorded success back
      unless a failure write hits it. */
  lemma OthersAreSteps(s: State, steps: seq<Step>)
    requires Sound(s) && Legal(s, steps)
    ensures Sound(End(s, steps)) && Grows(s.world, End(s, steps).world)
    ensures forall p ::
              (0 <= p < |s.world.rows.payments| && Claimed(s.world.rows.payments[p]) && Hits(s, steps, p) == 0) ==>
              p < |End(s, steps).world.rows.payments| && Claimed(End(s, steps).world.rows.payments[p])
  {
    RunSound(s, steps);
    forall p | 0 <= p < |s.world.rows.payments| && Claimed(s.world.rows.payments[p]) && Hits(s, steps, p) == 0
      ensures p < |End(s, steps).world.rows.payments| && Claimed(End(s, steps).world.rows.payments[p])
    {
      ClaimStaysAlong(s, steps, p);
    }
  }

  /** Delivering the same success twice is delivering it once. */
  lemma SecondDeliveryIsSilent(w: World, p: PaymentId, amount: Option<real>)
    requires Shape(w) && OnlineAttempt(w, p)
    ensures var report := ReportedSucceeded(amount);
            SoloApply(SoloApply(w, p, report), p, report) == SoloApply(w, p, report)
  {
    if AmountMatches(w.rows.payments[p], amount) {
      SoloApplyRecords(w, p, amount);
      RecordedIsSilent(SoloApply(w, p, ReportedSucceeded(amount)), p, amount);
    }
  }

  /** A report of a recorded success changes nothing. */
  lemma RecordedIsSilent(v: World, p: PaymentId, amount: Option<real>)
    requires p < |v.rows.payments| && Claimed(v.rows.payments[p])
    ensures SoloApply(v, p, ReportedSucceeded(amount)) == v
  {
    var id := v.rows.payments[p].order;
    if id < |v.rows.orders| && v.rows.orders[id].status in {PAYMENT_PENDING, EXPIRED} {
      PayingAgain(v, p);
    }
  }

  lemma PayingAgain(v: World, p: PaymentId)
    requires p < |v.rows.payments| && Claimed(v.rows.payments[p])
    ensures SoloPay(v, p) == v
  {
    var id := v.rows.payments[p].order;
    assert Settle(v.rows.payments, id, PAID) == v.rows.payments;
  }

  lemma SoloApplyRecords(w: World, p: PaymentId, amount: Option<real>)
    requires Shape(w) && OnlineAttempt(w, p) && AmountMatches(w.rows.payments[p], amount)
    ensures var v := SoloApply(w, p, ReportedSucceeded(amount));
            && |v.rows.payments| == |w.rows.payments| && |v.rows.orders| == |w.rows.orders|
            && SamePayment(w.rows.payments[p], v.rows.payments[p])
            && Claimed(v.rows.payments[p])
  {
    DisputedRecords(w, p);
    if w.rows.orders[w.rows.payments[p].order].status in {PAYMENT_PENDING, EXPIRED} {
      SoloPayRecords(w, p);
    }
  }

  /** The world is as big as before, the attempt the same, and its success recorded. */
  predicate RecordsIn(w: World, v: World, p: PaymentId)
    requires p < |w.rows.payments|
  {
    && |v.rows.payments| == |w.rows.payments| && |v.rows.orders| == |w.rows.orders|
    && SamePayment(w.rows.payments[p], v.rows.payments[p]) && Claimed(v.rows.payments[p])
  }

  lemma DisputedRecords(w: World, p: PaymentId)
    requires OnlineAttempt(w, p)
    ensures RecordsIn(w, Atomic(w, Claim(p)), p) && RecordsIn(w, Disputed(w, p), p)
  {
    ChangeKeepsPayment(Atomic(w, Claim(p)), w.rows.payments[p].order, DISPUTED, NoExtra, p);
  }

  lemma SoloPayRecords(w: World, p: PaymentId)
    requires Shape(w) && OnlineAttempt(w, p) && Open(w.rows.orders[w.rows.payments[p].order].status)
    ensures RecordsIn(w, SoloPay(w, p), p)
  {
    var id := w.rows.payments[p].order;
    SoloPayByOutcome(w, p);
    DisputedRecords(w, p);
    ChangeKeepsPayment(w, id, PAID, ClaimPayment(p), p);
    AllowedChange(w, id, PAID, System, ClaimPayment(p));
    OutcomeFacts(w.rows, id, w.rows.orders[id], PAID, ClaimPayment(p));
  }

  predicate Open(status: Status) {
    status in {PAYMENT_PENDING, EXPIRED}
  }

  lemma ChangeKeepsPayment(w: World, id: OrderId, to: Status, extra: Extra, p: PaymentId)
    requires p < |w.rows.payments|
    ensures var v := Atomic(w, Change(id, to, System, extra)).rows;
            && |v.payments| == |w.rows.payments| && |v.orders| == |w.rows.orders|
            && SamePayment(w.rows.payments[p], v.payments[p])
            && (Claimed(w.rows.payments[p]) ==> Claimed(v.payments[p]))
  {
    if id < |w.rows.orders| {
      OutcomeFacts(w.rows, id, w.rows.orders[id], to, extra);
    }
  }
}
