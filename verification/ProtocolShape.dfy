/** What every reachable state keeps, whatever the interleaving: rows refer to rows
    that exist, every order's status is the end of a legal trail, and every call in
    flight remembers something that is still consistent with the rows.  On the way:
    the write part of a call that read a stale status either does nothing or does what
    the whole status change would do at that instant. */
module ProtocolShape {
  import opened Wrappers
  import opened OrderStatus
  import opened Reservation
  import opened Tables
  import opened Protocol

  ghost predicate OrderShape(w: World, o: OrderId)
    requires o < |w.rows.orders| && o < |w.trails|
  {
    var order := w.rows.orders[o];
    && Path(w.trails[o])
    && Last(w.trails[o]) == order.status
    && KnownProducts(order.items, |w.rows.products|)
    && (order.coupon.Some? ==> order.coupon.value in w.rows.coupons)
  }

  ghost predicate Shape(w: World) {
    && |w.trails| == |w.rows.orders| == |w.origins|
    && |w.claims| == |w.rows.payments|
    && NonNegative(w.rows.products)
    && (forall o :: 0 <= o < |w.rows.orders| ==> OrderShape(w, o))
    && (forall p :: 0 <= p < |w.rows.payments| ==> w.rows.payments[p].order < |w.rows.orders|)
    && (forall row :: row in w.rows.cart ==> row in w.minted && w.rows.cart[row].product < |w.rows.products|)
  }

  /** Nobody changes the items, the coupon or the money of an existing order. */
  predicate SameOrder(a: Order, b: Order) {
    a.items == b.items && a.coupon == b.coupon && a.subtotal == b.subtotal && a.total == b.total &&
      a.createdAt == b.createdAt
  }

  predicate SamePayment(a: Payment, b: Payment) {
    a.order == b.order && a.cash == b.cash && a.amount == b.amount && a.createdAt == b.createdAt
  }

  /** What others can do to the world while a call waits. */
  ghost predicate Grows(w: World, v: World) {
    && |w.rows.products| <= |v.rows.products|
    && |w.rows.orders| <= |v.rows.orders| && |w.trails| <= |v.trails|
    && |w.rows.payments| <= |v.rows.payments| && |w.claims| <= |v.claims|
    && (forall o :: 0 <= o < |w.rows.orders| ==> SameOrder(w.rows.orders[o], v.rows.orders[o]))
    && (forall o :: 0 <= o < |w.trails| ==> w.trails[o] <= v.trails[o])
    && (forall p :: 0 <= p < |w.rows.payments| ==> SamePayment(w.rows.payments[p], v.rows.payments[p]))
    && (forall p :: 0 <= p < |w.claims| ==> w.claims[p] <= v.claims[p])
    && (forall code :: code in w.rows.coupons ==>
          code in v.rows.coupons && v.rows.coupons[code].maxUses == w.rows.coupons[code].maxUses)
    && w.minted <= v.minted
  }

  // ---------------------------------------------------------------------
  // Calls in flight
  // ---------------------------------------------------------------------

  ghost predicate PicksOk(w: World, picks: seq<Pick>) {
    && (forall i, j :: 0 <= i < j < |picks| ==> picks[i].row != picks[j].row)
    && (forall i :: 0 <= i < |picks| ==> picks[i].row in w.minted && picks[i].line.product < |w.rows.products|)
  }

  predicate SeenCouponOk(w: World, coupon: Option<SeenCoupon>) {
    coupon.Some? && coupon.value.coupon.Some? ==>
      && coupon.value.code in w.rows.coupons
      && w.rows.coupons[coupon.value.code].maxUses == coupon.value.coupon.value.maxUses
  }

  /** The success of attempt `p`, which is one of order `o`, was claimed. */
  predicate ClaimedFor(w: World, p: PaymentId, o: OrderId) {
    p < |w.rows.payments| && p < |w.claims| && w.rows.payments[p].order == o && w.claims[p] >= 1
  }

  predicate ExtraOk(w: World, o: OrderId, to: Status, actor: Actor, extra: Extra) {
    match extra
    case NoExtra => actor == Admin || to in {EXPIRED, PAYMENT_FAILED, DISPUTED}
    case ClaimPayment(p) =>
      to == PAID && actor == System && p < |w.rows.payments| && !w.rows.payments[p].cash &&
        w.rows.payments[p].order == o
    case ConfirmCash(p) =>
      to == PAID && actor == System && p < |w.rows.payments| && w.rows.payments[p].cash && w.rows.payments[p].order == o
  }

  predicate AfterOk(w: World, o: OrderId, to: Status, actor: Actor, extra: Extra, after: After) {
    match after
    case Return => !extra.ClaimPayment? && (actor == System ==> to != DISPUTED)
    case AfterPaid(p, _, _) => extra == ClaimPayment(p)
    case AfterDisputed(p, _) =>
      to == DISPUTED && actor == System && extra == NoExtra && ClaimedFor(w, p, o) && OnlineAttempt(w, p)
  }

  predicate OnlineAttempt(w: World, p: PaymentId) {
    p < |w.rows.payments| && !w.rows.payments[p].cash
  }

  ghost predicate CallOk(w: World, c: Call) {
    match c
    case CartSeen(picks, _) => PicksOk(w, picks)
    case CheckoutReady(picks, coupon) => PicksOk(w, picks) && SeenCouponOk(w, coupon)
    case CashChosen(o) => o < |w.rows.orders|
    case OnlineChosen(o) => o < |w.rows.orders|
    case AttemptCreated(p) => OnlineAttempt(w, p)
    case Intent(o, to, actor, extra, after) =>
      o < |w.rows.orders| && ExtraOk(w, o, to, actor, extra) && AfterOk(w, o, to, actor, extra, after)
    case StatusSeen(o, seen, to, actor, extra, after) =>
      && o < |w.rows.orders| && ExtraOk(w, o, to, actor, extra) && AfterOk(w, o, to, actor, extra, after)
      && SameOrder(seen, w.rows.orders[o]) && seen.status != to && CanTransition(actor, seen.status, to)
    case Fetch(p, _, _) => OnlineAttempt(w, p)
    case Claiming(p, _, _) => OnlineAttempt(w, p)
    case Finished(p, _) => OnlineAttempt(w, p)
  }

  ghost predicate Sound(s: State) {
    && Shape(s.world)
    && forall k :: k in s.calls ==> CallOk(s.world, s.calls[k])
  }

  lemma CallOkGrows(w: World, v: World, c: Call)
    requires CallOk(w, c) && Grows(w, v)
    ensures CallOk(v, c)
  {
    if c.StatusSeen? {
      assert SameOrder(w.rows.orders[c.order], v.rows.orders[c.order]);
    }
  }

  // ---------------------------------------------------------------------
  // Operations at one instant
  // ---------------------------------------------------------------------

  /** What the calls guarantee about the operations they perform. */
  ghost predicate OpGuard(w: World, op: Op) {
    var r := w.rows;
    match op
    case Skip => true
    case SetProduct(p, product) => p <= |r.products| && product.quantity >= 0
    case SetCoupon(code, coupon) =>
      if code in r.coupons
      then coupon.usedCount == r.coupons[code].usedCount && coupon.maxUses == r.coupons[code].maxUses
      else coupon.usedCount == 0
    case SetCart(row, content) =>
      content.Some? ==> (row in r.cart || row !in w.minted) && content.value.product < |r.products|
    case Place(picks, coupon, _) => PicksOk(w, picks) && SeenCouponOk(w, coupon)
    case AddPayment(payment) => payment.order < |r.orders| && payment.status == Pending
    case Start(p) => OnlineAttempt(w, p)
    case Crash(p) => OnlineAttempt(w, p)
    case Fail(p) => OnlineAttempt(w, p)
    case Claim(p) => OnlineAttempt(w, p)
    case Change(o, to, actor, extra) =>
      && o < |r.orders| && ExtraOk(w, o, to, actor, extra)
      && (actor == System && to == DISPUTED ==> exists p :: ClaimedFor(w, p, o))
  }

  /** The operation a step performs on the rows. */
  ghost function OpOf(s: State, step: Step): Op
    requires Enabled(s, step)
  {
    match step
    case EditProduct(p, product) => SetProduct(p, product)
    case EditCoupon(code, coupon) => SetCoupon(code, coupon)
    case EditCart(row, content) => SetCart(row, content)
    case CommitCheckout(k, now) => Place(s.calls[k].picks, s.calls[k].coupon, now)
    case RecordAttempt(k, now) => AddPayment(NewPayment(s.world.rows, s.calls[k], now))
    case AttemptStarted(k) => Start(s.calls[k].payment)
    case AttemptCrashed(k) => Crash(s.calls[k].payment)
    case ReportFailed(p) => Fail(p)
    case ClaimPaymentAlone(k) => Claim(s.calls[k].payment)
    case CommitStatus(k) =>
      var c := s.calls[k];
      if c.order < |s.world.rows.orders| && s.world.rows.orders[c.order].status == c.seen.status
      then Change(c.order, c.to, c.actor, c.extra)
      else Skip
    case _ => Skip
  }

  /** Linearizability of one status change: a commit after a stale read either finds
      that the status moved on and changes nothing, or has exactly the effect and the
      outcome of reading and writing at the instant of the commit. */
  lemma CommitIsAtomic(w: World, c: Call)
    requires Shape(w) && c.StatusSeen? && CallOk(w, c)
    ensures if w.rows.orders[c.order].status != c.seen.status
            then CommitChange(w, c) == (w, Unchanged)
            else
              && CommitChange(w, c).0 == Atomic(w, Change(c.order, c.to, c.actor, c.extra))
              && CommitChange(w, c).1 == TransitionNow(w.rows, c.order, c.to, c.actor, c.extra).outcome
  {
    if w.rows.orders[c.order].status == c.seen.status {
      assert c.seen == w.rows.orders[c.order];
    }
  }

  /** Every step does to the world what its operation does at that instant. */
  lemma ExecIsAtomic(s: State, step: Step)
    requires Sound(s) && Enabled(s, step)
    ensures Exec(s, step).world == Atomic(s.world, OpOf(s, step))
    ensures OpGuard(s.world, OpOf(s, step))
  {
    if step.CommitStatus? {
      var c := s.calls[step.k];
      CommitIsAtomic(s.world, c);
      if c.after.AfterDisputed? {
        assert ClaimedFor(s.world, c.after.payment, c.order);
      }
    }
  }

  // ---------------------------------------------------------------------
  // Every operation keeps the shape and lets the world only grow
  // ---------------------------------------------------------------------

  /** The four tables a status change that goes through writes. */
  lemma ChangeParts(r: Rows, id: OrderId, seen: Order, to: Status, extra: Extra)
    requires ChangeStatus(r, id, seen, to, extra).outcome == Changed
    ensures var v := ChangeStatus(r, id, seen, to, extra).rows;
            && id < |r.orders| && v.orders == r.orders[id := r.orders[id].(status := to)] && v.cart == r.cart
            && MovedStock(r.products, seen.status, to, seen.items) == Some(v.products)
            && WithExtra(Settle(r.payments, id, to), extra) == Some(v.payments)
            && v.coupons == GivenBack(r.coupons, seen.status, to, seen.coupon)
  {
  }

  /** What it does to one attempt: its own extra write records it, and otherwise it is
      settled. */
  lemma AttemptAfter(before: seq<Payment>, after: seq<Payment>, id: OrderId, to: Status, extra: Extra, p: PaymentId)
    requires WithExtra(Settle(before, id, to), extra) == Some(after) && p < |before|
    ensures |after| == |before| && SamePayment(before[p], after[p]) && before[p].started == after[p].started
    ensures after[p].status ==
            if extra == ClaimPayment(p) || extra == ConfirmCash(p) then Succeeded else Settled(before[p], id, to).status
    ensures extra == ClaimPayment(p) ==> !Claimed(before[p])
    ensures Claimed(after[p]) <==> Claimed(before[p]) || extra == ClaimPayment(p) || extra == ConfirmCash(p)
  {
    assert Settle(before, id, to)[p] == Settled(before[p], id, to);
  }

  lemma StockAfter(stock: seq<Product>, after: seq<Product>, from: Status, to: Status, lines: seq<Line>)
    requires NonNegative(stock) && KnownProducts(lines, |stock|) && MovedStock(stock, from, to, lines) == Some(after)
    ensures |after| == |stock| && NonNegative(after)
  {
    if ReservesStock(from, to) {
      ReserveExactly(stock, lines);
    } else if ReleasesStock(from, to) {
      RestockExactly(stock, lines);
    }
  }

  lemma ChangeKeeps(r: Rows, id: OrderId, seen: Order, to: Status, extra: Extra)
    requires NonNegative(r.products) && KnownProducts(seen.items, |r.products|)
    requires ChangeStatus(r, id, seen, to, extra).outcome == Changed
    ensures
      var v := ChangeStatus(r, id, seen, to, extra).rows;
      && id < |r.orders| && v.orders == r.orders[id := r.orders[id].(status := to)]
      && v.cart == r.cart
      && |v.products| == |r.products| && NonNegative(v.products)
      && |v.payments| == |r.payments|
      && (forall p :: 0 <= p < |r.payments| ==> SamePayment(r.payments[p], v.payments[p]))
      && v.coupons.Keys == r.coupons.Keys
      && (forall code :: code in r.coupons ==> v.coupons[code].maxUses == r.coupons[code].maxUses)
  {
    var v := ChangeStatus(r, id, seen, to, extra).rows;
    ChangeParts(r, id, seen, to, extra);
    StockAfter(r.products, v.products, seen.status, to, seen.items);
    forall p | 0 <= p < |r.payments| ensures SamePayment(r.payments[p], v.payments[p]) {
      AttemptAfter(r.payments, v.payments, id, to, extra, p);
    }
  }

  /** A status change that is allowed now is its writes. */
  lemma AllowedChange(w: World, id: OrderId, to: Status, actor: Actor, extra: Extra)
    requires id < |w.rows.orders| && w.rows.orders[id].status != to &&
              CanTransition(actor, w.rows.orders[id].status, to)
    ensures TransitionNow(w.rows, id, to, actor, extra) == ChangeStatus(w.rows, id, w.rows.orders[id], to, extra)
    ensures var written := ChangeStatus(w.rows, id, w.rows.orders[id], to, extra);
            Atomic(w, Change(id, to, actor, extra)) ==
              if written.outcome == Changed then Logged(w, written.rows, id, to, extra) else w
  {
  }

  /** One that is refused changes nothing, and says why. */
  lemma RefusedNow(w: World, id: OrderId, to: Status, actor: Actor, extra: Extra)
    ensures var outcome, v := TransitionNow(w.rows, id, to, actor, extra).outcome,
            Atomic(w, Change(id, to, actor, extra));
            && (id >= |w.rows.orders| ==> outcome == NotFound && v == w)
            && (id < |w.rows.orders| && w.rows.orders[id].status == to ==> outcome == Unchanged && v == w)
            && ((id < |w.rows.orders| && w.rows.orders[id].status != to
                 && !CanTransition(actor, w.rows.orders[id].status, to)) ==>
                  outcome == (if actor == Admin then NotAllowed else Unchanged) && v == w)
  {
  }

  lemma ChangesIfBoth(r: Rows, id: OrderId, to: Status, extra: Extra)
    requires id < |r.orders|
    ensures var order := r.orders[id];
            ChangeStatus(r, id, order, to, extra).outcome == Changed <==>
              MovedStock(r.products, order.status, to, order.items).Some? &&
                WithExtra(Settle(r.payments, id, to), extra).Some?
  {
  }

  /** What a status change that went through does to the orders and their trails. */
  lemma ChangeLogged(w: World, op: Op)
    requires Shape(w) && op.Change? && op.order < |w.rows.orders|
    requires TransitionNow(w.rows, op.order, op.to, op.actor, op.extra).outcome == Changed
    ensures var v, id := Atomic(w, op), op.order;
            && v.rows.orders == w.rows.orders[id := w.rows.orders[id].(status := op.to)]
            && v.trails == w.trails[id := w.trails[id] + [op.to]]
  {
  }

  lemma ChangeShape(w: World, op: Op)
    requires Shape(w) && OpGuard(w, op) && op.Change?
    ensures Shape(Atomic(w, op)) && Grows(w, Atomic(w, op))
  {
    var id, to := op.order, op.to;
    var written := TransitionNow(w.rows, id, to, op.actor, op.extra);
    if written.outcome == Changed {
      var order := w.rows.orders[id];
      assert OrderShape(w, id);
      ChangeKeeps(w.rows, id, order, to, op.extra);
      LoggedShape(w, written.rows, id, to, op.extra);
    }
  }

  lemma LoggedShape(w: World, rows: Rows, id: OrderId, to: Status, extra: Extra)
    requires Shape(w) && id < |w.rows.orders| && Edge(w.rows.orders[id].status, to)
    requires rows.orders == w.rows.orders[id := w.rows.orders[id].(status := to)]
    requires rows.cart == w.rows.cart && |rows.products| == |w.rows.products| && NonNegative(rows.products)
    requires |rows.payments| == |w.rows.payments|
    requires forall p :: 0 <= p < |rows.payments| ==> SamePayment(w.rows.payments[p], rows.payments[p])
    requires rows.coupons.Keys == w.rows.coupons.Keys
    requires forall code :: code in rows.coupons ==> rows.coupons[code].maxUses == w.rows.coupons[code].maxUses
    ensures Shape(Logged(w, rows, id, to, extra)) && Grows(w, Logged(w, rows, id, to, extra))
  {
    var v := Logged(w, rows, id, to, extra);
    assert OrderShape(w, id);
    StepFlags(w.trails[id], to);
    forall o | 0 <= o < |v.rows.orders| ensures OrderShape(v, o) {
      assert OrderShape(w, o);
    }
    forall p | 0 <= p < |v.rows.payments| ensures v.rows.payments[p].order < |v.rows.orders| {
      assert SamePayment(w.rows.payments[p], rows.payments[p]);
    }
  }

  /** What a checkout that went through does to the tables, apart from the coupons. */
  lemma PlaceParts(w: World, op: Op)
    requires op.Place? && PlaceOrder(w.rows, op.picks, op.seenCoupon, op.now).Placed?
    ensures var v := Atomic(w, op);
            && |v.rows.orders| == |w.rows.orders| + 1 && v.rows.orders[..|w.rows.orders|] == w.rows.orders
            && (var o := v.rows.orders[|w.rows.orders|];
                && o.status == PAYMENT_PENDING && o.items == LinesOf(op.picks)
                && o.coupon == if op.seenCoupon.Some? then Some(op.seenCoupon.value.code) else None)
            && v.trails == w.trails + [[PAYMENT_PENDING]] && v.origins == w.origins + [RowsOf(op.picks)]
            && v.claims == w.claims && v.minted == w.minted && v.rows.payments == w.rows.payments
            && Reserve(w.rows.products, LinesOf(op.picks)) == Some(v.rows.products)
            && v.rows.cart.Keys <= w.rows.cart.Keys && forall row :: row in v.rows.cart ==>
              v.rows.cart[row] == w.rows.cart[row]
  {
  }

  lemma PlaceCoupons(w: World, op: Op)
    requires op.Place? && SeenCouponOk(w, op.seenCoupon) && PlaceOrder(w.rows, op.picks, op.seenCoupon, op.now).Placed?
    ensures var c, v := w.rows.coupons, Atomic(w, op).rows.coupons;
            && (op.seenCoupon.Some? ==> op.seenCoupon.value.code in v)
            && forall code :: code in c ==> code in v && v[code].maxUses == c[code].maxUses
  {
  }

  lemma PlaceShape(w: World, op: Op)
    requires Shape(w) && OpGuard(w, op) && op.Place?
    ensures Shape(Atomic(w, op)) && Grows(w, Atomic(w, op))
  {
    if PlaceOrder(w.rows, op.picks, op.seenCoupon, op.now).Placed? {
      PlaceParts(w, op);
      PlaceCoupons(w, op);
      ReserveExactly(w.rows.products, LinesOf(op.picks));
      PlacedShape(w, Atomic(w, op), op.picks);
    }
  }

  lemma PlacedShape(w: World, v: World, picks: seq<Pick>)
    requires Shape(w) && PicksOk(w, picks)
    requires |v.rows.orders| == |w.rows.orders| + 1 && v.rows.orders[..|w.rows.orders|] == w.rows.orders
    requires var o := v.rows.orders[|w.rows.orders|];
             o.status == PAYMENT_PENDING && o.items == LinesOf(picks) &&
               (o.coupon.Some? ==> o.coupon.value in v.rows.coupons)
    requires v.trails == w.trails + [[PAYMENT_PENDING]] && v.origins == w.origins + [RowsOf(picks)]
    requires v.claims == w.claims && v.minted == w.minted && v.rows.payments == w.rows.payments
    requires |v.rows.products| == |w.rows.products| && NonNegative(v.rows.products)
    requires v.rows.cart.Keys <= w.rows.cart.Keys && forall row :: row in v.rows.cart ==>
              v.rows.cart[row] == w.rows.cart[row]
    requires forall code :: code in w.rows.coupons ==>
               code in v.rows.coupons && v.rows.coupons[code].maxUses == w.rows.coupons[code].maxUses
    ensures Shape(v) && Grows(w, v)
  {
    var n := |w.rows.orders|;
    assert v.trails[n] == [PAYMENT_PENDING];
    forall o | 0 <= o < |v.rows.orders| ensures OrderShape(v, o) {
      if o < n {
        assert OrderShape(w, o);
        assert v.rows.orders[o] == v.rows.orders[..n][o] && v.trails[o] == w.trails[o];
      }
    }
    assert forall o :: 0 <= o < n ==> v.rows.orders[o] == v.rows.orders[..n][o];
  }

  lemma AtomicShape(w: World, op: Op)
    requires Shape(w) && OpGuard(w, op)
    ensures Shape(Atomic(w, op)) && Grows(w, Atomic(w, op))
  {
    if op.Change? {
      ChangeShape(w, op);
    } else if op.Place? {
      PlaceShape(w, op);
    } else {
      var v := Atomic(w, op);
      forall o | 0 <= o < |v.rows.orders| ensures OrderShape(v, o) {
        assert OrderShape(w, o);
      }
    }
  }

  lemma ReadCallOk(s: State, step: Step)
    requires Sound(s) && Enabled(s, step) && step.ReadStatus? && step.k in Exec(s, step).calls
    ensures CallOk(s.world, Exec(s, step).calls[step.k])
  {
    assert CallOk(s.world, s.calls[step.k]);
  }

  lemma CommitCallOk(s: State, step: Step)
    requires Sound(s) && Enabled(s, step) && step.CommitStatus? && step.k in Exec(s, step).calls
    requires Grows(s.world, Exec(s, step).world)
    ensures CallOk(Exec(s, step).world, Exec(s, step).calls[step.k])
  {
    var c, v := s.calls[step.k], Exec(s, step).world;
    assert CallOk(s.world, c);
    if !c.after.Return? {
      assert OnlineAttempt(s.world, c.after.payment);
      assert SamePayment(s.world.rows.payments[c.after.payment], v.rows.payments[c.after.payment]);
    }
  }

  /** A call that claimed a success and goes on to flag its order knows that it did. */
  lemma ClaimCallOk(s: State, step: Step)
    requires Sound(s) && Enabled(s, step) && step.ClaimPaymentAlone?
    requires Grows(s.world, Exec(s, step).world) && Shape(Exec(s, step).world)
    ensures CallOk(Exec(s, step).world, Exec(s, step).calls[step.k])
  {
    var p, v := s.calls[step.k].payment, Exec(s, step).world;
    assert CallOk(s.world, s.calls[step.k]);
    assert SamePayment(s.world.rows.payments[p], v.rows.payments[p]);
    assert s.world.rows.payments[p].order < |s.world.rows.orders|;
  }

  lemma OtherCallOk(s: State, step: Step, k: CallId)
    requires Sound(s) && Enabled(s, step) && k in Exec(s, step).calls
    requires !step.ReadStatus? && !step.CommitStatus? && !step.ClaimPaymentAlone?
    requires k in s.calls ==> Exec(s, step).calls[k] != s.calls[k]
    ensures CallOk(Exec(s, step).world, Exec(s, step).calls[k])
  {
    if k in s.calls {
      assert CallOk(s.world, s.calls[k]);
    }
    if step.RecordAttempt? {
      assert OnlineAttempt(Exec(s, step).world, |s.world.rows.payments|) <==> s.calls[k].OnlineChosen?;
    }
  }

  lemma NewCallOk(s: State, step: Step, k: CallId)
    requires Sound(s) && Enabled(s, step) && k in Exec(s, step).calls
    requires Grows(s.world, Exec(s, step).world) && Shape(Exec(s, step).world)
    requires k in s.calls ==> Exec(s, step).calls[k] != s.calls[k]
    ensures CallOk(Exec(s, step).world, Exec(s, step).calls[k])
  {
    match step
    case ReadStatus(_) => ReadCallOk(s, step);
    case CommitStatus(_) => CommitCallOk(s, step);
    case ClaimPaymentAlone(_) => ClaimCallOk(s, step);
    case _ => OtherCallOk(s, step, k);
  }

  lemma NextCallOk(s: State, step: Step, k: CallId)
    requires Sound(s) && Enabled(s, step) && k in Exec(s, step).calls
    requires Grows(s.world, Exec(s, step).world) && Shape(Exec(s, step).world)
    ensures CallOk(Exec(s, step).world, Exec(s, step).calls[k])
  {
    var v := Exec(s, step);
    if k in s.calls && v.calls[k] == s.calls[k] {
      assert CallOk(s.world, s.calls[k]);
      CallOkGrows(s.world, v.world, s.calls[k]);
    } else {
      NewCallOk(s, step, k);
    }
  }

  lemma SoundStep(s: State, step: Step)
    requires Sound(s) && Enabled(s, step)
    ensures Sound(Exec(s, step)) && Grows(s.world, Exec(s, step).world)
  {
    ExecIsAtomic(s, step);
    AtomicShape(s.world, OpOf(s, step));
    forall k | k in Exec(s, step).calls ensures CallOk(Exec(s, step).world, Exec(s, step).calls[k]) {
      NextCallOk(s, step, k);
    }
  }

  lemma InitialSound(s: State)
    requires Initial(s)
    ensures Sound(s)
  {
  }

  /** Every state a run reaches is sound. */
  lemma {:induction false} RunSound(s: State, steps: seq<Step>)
    requires (Initial(s) || Sound(s)) && Legal(s, steps)
    ensures Sound(End(s, steps))
    ensures Grows(s.world, End(s, steps).world)
  {
    if steps != [] {
      RunSound(s, steps[..|steps| - 1]);
      SoundStep(End(s, steps[..|steps| - 1]), steps[|steps| - 1]);
      GrowsOn(s.world, End(s, steps[..|steps| - 1]).world, End(s, steps).world);
    }
  }

  lemma GrowsOn(u: World, v: World, w: World)
    requires Grows(u, v) && Grows(v, w)
    ensures Grows(u, w)
  {
  }
}
