/** Checkout claims the cart: what a committed checkout does, exactly when it commits,
    and that no cart row ends in two orders. */
module CartClaims {
  import opened Wrappers
  import opened OrderStatus
  import opened Reservation
  import opened Tables
  import opened Protocol
  import opened ProtocolShape

  /** The coupon that was read may be used for these lines, and has a use left now. */
  predicate CouponUsable(r: Rows, coupon: Option<SeenCoupon>, subtotal: real, now: int) {
    coupon.Some? ==>
      && CheckCoupon(coupon.value.coupon, subtotal, now).Some?
      && coupon.value.code in r.coupons
      && (coupon.value.coupon.value.maxUses.Some? ==>
            r.coupons[coupon.value.code].usedCount < coupon.value.coupon.value.maxUses.value)
  }

  /** What the coupon takes off; nothing without one. */
  function DiscountFor(coupon: Option<SeenCoupon>, subtotal: real, now: int): real {
    if coupon.None? then 0.0 else CheckCoupon(coupon.value.coupon, subtotal, now).GetOr(0.0)
  }

  ghost predicate AllPresent(r: Rows, picks: seq<Pick>) {
    forall i :: 0 <= i < |picks| ==> picks[i].row in r.cart
  }

  /** All or nothing: a checkout goes through exactly when it read some rows, all of
      them are still in the cart, every product covers the total demand of all lines,
      the coupon can be used, and the amounts fit their columns; otherwise nothing at all
      changes. */
  lemma CheckoutExactly(w: World, picks: seq<Pick>, coupon: Option<SeenCoupon>, now: int)
    requires NonNegative(w.rows.products)
    ensures PlaceOrder(w.rows, picks, coupon, now).Placed? <==>
              && picks != [] && AllPresent(w.rows, picks) && Covers(w.rows.products, LinesOf(picks))
              && CouponUsable(w.rows, coupon, Subtotal(LinesOf(picks)), now)
              && AmountsFit(Subtotal(LinesOf(picks)), DiscountFor(coupon, Subtotal(LinesOf(picks)), now))
    ensures !PlaceOrder(w.rows, picks, coupon, now).Placed? ==> Atomic(w, Place(picks, coupon, now)) == w
  {
    ReserveExactly(w.rows.products, LinesOf(picks));
    AllPresentCounts(w.rows, picks);
  }

  /** Why a checkout is refused: the first of these that holds. */
  lemma RefusalsExactly(w: World, picks: seq<Pick>, coupon: Option<SeenCoupon>, now: int)
    requires NonNegative(w.rows.products)
    ensures var lines := LinesOf(picks);
            var subtotal := Subtotal(lines);
            var placed := PlaceOrder(w.rows, picks, coupon, now);
            if picks == [] then placed == Refused(CartEmpty)
            else if !AllPresent(w.rows, picks) then placed == Refused(CheckoutInProgress)
            else if !Covers(w.rows.products, lines) then placed == Refused(StockChanged)
            else if coupon.Some? && CheckCoupon(coupon.value.coupon, subtotal, now).None? then
              placed == Refused(CouponRefused)
            else if !CouponUsable(w.rows, coupon, subtotal, now) then placed == Refused(CouponUsedUp)
            else if !AmountsFit(subtotal, DiscountFor(coupon, subtotal, now)) then placed == Refused(AmountTooLarge)
            else placed.Placed?
  {
    CheckoutExactly(w, picks, coupon, now);
    ReserveExactly(w.rows.products, LinesOf(picks));
    AllPresentCounts(w.rows, picks);
  }

  lemma AllPresentCounts(r: Rows, picks: seq<Pick>)
    ensures AllPresent(r, picks) <==> Present(r.cart, RowsOf(picks)) == |picks|
  {
    if Present(r.cart, RowsOf(picks)) == |picks| {
      forall i | 0 <= i < |picks| ensures picks[i].row in r.cart {
        assert RowsOf(picks)[i] in r.cart;
      }
    }
  }

  /** What a checkout that goes through leaves behind: one new order with exactly the
      lines that were read and their sum as its subtotal, the picked rows gone from the
      cart, and the demand of the lines gone from the stock.  Nothing else moves. */
  lemma CheckoutEffect(w: World, picks: seq<Pick>, coupon: Option<SeenCoupon>, now: int)
    requires NonNegative(w.rows.products) && PlaceOrder(w.rows, picks, coupon, now).Placed?
    ensures
      var r, v := w.rows, Atomic(w, Place(picks, coupon, now)).rows;
      && |v.orders| == |r.orders| + 1 && v.orders[..|r.orders|] == r.orders
      && (var o := v.orders[|r.orders|];
          && o.status == PAYMENT_PENDING && o.createdAt == now
          && o.items == LinesOf(picks) && o.subtotal == Subtotal(LinesOf(picks))
          && (coupon.None? ==> o.coupon.None? && o.total == o.subtotal)
          && (coupon.Some? ==>
                && o.coupon == Some(coupon.value.code) && 0.0 <= o.total
                && Some(o.subtotal - o.total) == CheckCoupon(coupon.value.coupon, o.subtotal, now)))
      && (forall row :: row in v.cart <==> row in r.cart && forall i :: 0 <= i < |picks| ==> picks[i].row != row)
      && (forall row :: row in v.cart ==> v.cart[row] == r.cart[row])
      && Deducted(r.products, v.products, LinesOf(picks)) && NonNegative(v.products)
      && v.payments == r.payments
      && (coupon.None? ==> v.coupons == r.coupons)
      && (coupon.Some? ==>
            && coupon.value.code in r.coupons
            && v.coupons == r.coupons[coupon.value.code :=
                 r.coupons[coupon.value.code].(usedCount := r.coupons[coupon.value.code].usedCount + 1)])
  {
    ReserveExactly(w.rows.products, LinesOf(picks));
    var v := Atomic(w, Place(picks, coupon, now)).rows;
    forall row ensures row in v.cart <==> row in w.rows.cart && forall i :: 0 <= i < |picks| ==> picks[i].row != row {
      if row in w.rows.cart && row in RowsOf(picks) {
        var i :| 0 <= i < |picks| && RowsOf(picks)[i] == row;
        assert picks[i].row == row;
      }
      if i :| 0 <= i < |picks| && picks[i].row == row {
        assert RowsOf(picks)[i] == row;
      }
    }
  }

  /** In terms of the cart: a checkout without interference sells every row of the cart it
      read, each with its quantity and its product's present price, and leaves all other carts
      alone. */
  lemma CheckoutSellsTheCart(w: World, cart: nat, picks: seq<Pick>, coupon: Option<SeenCoupon>, now: int)
    requires NonNegative(w.rows.products) && IsCartRead(w.rows, cart, picks)
    requires PlaceOrder(w.rows, picks, coupon, now).Placed?
    ensures var r, v := w.rows, Atomic(w, Place(picks, coupon, now)).rows;
            && |v.orders| == |r.orders| + 1
            && var items := v.orders[|r.orders|].items;
               && |items| == |picks|
               && (forall row :: row in r.cart && r.cart[row].cart == cart ==>
                     exists i :: 0 <= i < |picks| && picks[i].row == row && r.cart[row].product < |r.products|
                                 && items[i] == Line(r.cart[row].product, r.cart[row].quantity,
                                   r.products[r.cart[row].product].price))
               && (forall row :: row in v.cart <==> row in r.cart && r.cart[row].cart != cart)
  {
    CheckoutEffect(w, picks, coupon, now);
    var r, v := w.rows, Atomic(w, Place(picks, coupon, now)).rows;
    forall row | row in r.cart && r.cart[row].cart == cart
      ensures exists i :: 0 <= i < |picks| && picks[i].row == row && r.cart[row].product < |r.products|
                && v.orders[|r.orders|].items[i] ==
                   Line(r.cart[row].product, r.cart[row].quantity, r.products[r.cart[row].product].price)
    {
      var i :| 0 <= i < |picks| && picks[i].row == row;
      assert PickRead(r, cart, picks[i]);
    }
    forall row ensures row in v.cart <==> row in r.cart && r.cart[row].cart != cart {
      if i :| 0 <= i < |picks| && picks[i].row == row {
        assert PickRead(r, cart, picks[i]);
      }
    }
  }

  /** A cart with one row costs its price times its quantity, minus the discount. */
  lemma OneRowCosts(w: World, row: CartRowId, line: Line, coupon: Option<SeenCoupon>, now: int)
    requires NonNegative(w.rows.products) && PlaceOrder(w.rows, [Pick(row, line)], coupon, now).Placed?
    ensures var v := Atomic(w, Place([Pick(row, line)], coupon, now)).rows;
            && |v.orders| == |w.rows.orders| + 1
            && var o := v.orders[|w.rows.orders|];
               && o.subtotal == line.unitPrice * line.quantity as real
               && o.total == o.subtotal - DiscountFor(coupon, o.subtotal, now)
  {
    var picks := [Pick(row, line)];
    CheckoutEffect(w, picks, coupon, now);
    assert LinesOf(picks) == [Line(line.product, line.quantity, line.unitPrice)];
    SingleLine(line.product, line.quantity, line.unitPrice, 0);
  }

  /** One more row adds its price times its quantity to the subtotal. */
  lemma OneMoreRowCosts(picks: seq<Pick>, more: Pick)
    ensures Subtotal(LinesOf(picks + [more])) ==
              Subtotal(LinesOf(picks)) + more.line.unitPrice * more.line.quantity as real
  {
    assert LinesOf(picks + [more]) == LinesOf(picks) + [more.line] + [];
    assert LinesOf(picks) + [] == LinesOf(picks);
    SubtotalWithLine(LinesOf(picks), more.line, []);
  }

  /** Amount columns take what rounds to less than ten billion. */
  lemma FitsColumnExactly(x: real)
    ensures FitsColumn(x) <==> -9_999_999_999.995 < x < 9_999_999_999.995
  {
  }

  // ---------------------------------------------------------------------
  // Each cart row ends in at most one order
  // ---------------------------------------------------------------------

  /** A row some order came from was used before and is in no cart any more. */
  ghost predicate SoldRowsGone(w: World) {
    forall o, i :: 0 <= o < |w.origins| && 0 <= i < |w.origins[o]| ==>
      w.origins[o][i] in w.minted && w.origins[o][i] !in w.rows.cart
  }

  /** No row is in two orders, or twice in one. */
  ghost predicate OriginsDisjoint(w: World) {
    forall o, i, u, j ::
      (0 <= o < |w.origins| && 0 <= i < |w.origins[o]| && 0 <= u < |w.origins| && 0 <= j < |w.origins[u]|
       && w.origins[o][i] == w.origins[u][j]) ==> o == u && i == j
  }

  lemma PlaceOrigins(w: World, op: Op)
    requires Shape(w) && OpGuard(w, op) && op.Place? && SoldRowsGone(w) && OriginsDisjoint(w)
    ensures SoldRowsGone(Atomic(w, op)) && OriginsDisjoint(Atomic(w, op))
  {
    CheckoutExactly(w, op.picks, op.seenCoupon, op.now);
    if PlaceOrder(w.rows, op.picks, op.seenCoupon, op.now).Placed? {
      CheckoutEffect(w, op.picks, op.seenCoupon, op.now);
      PlaceParts(w, op);
      MoreOrigins(w, Atomic(w, op), op.picks);
    }
  }

  /** The rows a checkout claimed were in the cart, and no other order's rows were. */
  lemma MoreOrigins(w: World, v: World, picks: seq<Pick>)
    requires SoldRowsGone(w) && OriginsDisjoint(w) && PicksOk(w, picks) && AllPresent(w.rows, picks)
    requires v.origins == w.origins + [RowsOf(picks)] && v.minted == w.minted
    requires forall row :: row in v.rows.cart <==>
              row in w.rows.cart && forall i :: 0 <= i < |picks| ==> picks[i].row != row
    ensures SoldRowsGone(v) && OriginsDisjoint(v)
  {
    var n := |w.origins|;
    forall o, i | 0 <= o < |v.origins| && 0 <= i < |v.origins[o]|
      ensures v.origins[o][i] in v.minted && v.origins[o][i] !in v.rows.cart
      ensures o < n ==> v.origins[o][i] !in w.rows.cart
      ensures o == n ==> v.origins[o][i] == picks[i].row && picks[i].row in w.rows.cart
    {
      if o < n {
        assert v.origins[o] == w.origins[o];
        assert w.origins[o][i] !in w.rows.cart;
      }
    }
    forall o, i, u, j | 0 <= o < |v.origins| && 0 <= i < |v.origins[o]| && 0 <= u < |v.origins| &&
      0 <= j < |v.origins[u]| &&
                        v.origins[o][i] == v.origins[u][j]
      ensures o == u && i == j
    {
      if o < n && u < n {
        assert v.origins[o] == w.origins[o] && v.origins[u] == w.origins[u];
      }
    }
  }

  lemma AtomicOrigins(w: World, op: Op)
    requires Shape(w) && OpGuard(w, op) && SoldRowsGone(w) && OriginsDisjoint(w)
    ensures SoldRowsGone(Atomic(w, op)) && OriginsDisjoint(Atomic(w, op))
  {
    AtomicShape(w, op);
    if op.Place? {
      PlaceOrigins(w, op);
    } else if op.Change? && TransitionNow(w.rows, op.order, op.to, op.actor, op.extra).outcome == Changed {
      assert OrderShape(w, op.order);
      ChangeKeeps(w.rows, op.order, w.rows.orders[op.order], op.to, op.extra);
    }
  }

  /** Under any interleaving of checkouts, additions, edits and removals each cart row
      ends in at most one order, and at most once in it. */
  lemma {:induction false} RowsAreSoldOnce(s: State, steps: seq<Step>)
    requires Initial(s) && Legal(s, steps)
    ensures SoldRowsGone(End(s, steps).world) && OriginsDisjoint(End(s, steps).world)
  {
    if steps != [] {
      var before := steps[..|steps| - 1];
      RowsAreSoldOnce(s, before);
      RunSound(s, before);
      ExecIsAtomic(End(s, before), steps[|steps| - 1]);
      AtomicOrigins(End(s, before).world, OpOf(End(s, before), steps[|steps| - 1]));
    }
  }

  // ---------------------------------------------------------------------
  // An order contains what its checkout read
  // ---------------------------------------------------------------------

  /** Some checkout of the run read exactly these rows, with these lines, from a cart
      as it stood at that moment. */
  ghost predicate WasRead(s: State, steps: seq<Step>, picks: seq<Pick>)
    requires Legal(s, steps)
  {
    exists n: nat :: n < |steps| && ReadAt(s, steps, n, picks)
  }

  ghost predicate ReadAt(s: State, steps: seq<Step>, n: nat, picks: seq<Pick>)
    requires n < |steps|
  {
    && steps[n].BeginCheckout? && steps[n].picks == picks
    && Legal(s, steps[..n]) && IsCartRead(End(s, steps[..n]).world.rows, steps[n].cart, picks)
  }

  ghost predicate FromReads(s: State, steps: seq<Step>)
    requires Legal(s, steps)
  {
    var e := End(s, steps);
    && |e.world.origins| == |e.world.rows.orders|
    && (forall k :: k in e.calls && (e.calls[k].CartSeen? || e.calls[k].CheckoutReady?) ==>
      WasRead(s, steps, e.calls[k].picks))
    && (forall o :: 0 <= o < |e.world.rows.orders| ==> OrderFromRead(s, steps, o))
  }

  ghost predicate OrderFromRead(s: State, steps: seq<Step>, o: OrderId)
    requires Legal(s, steps)
  {
    var w := End(s, steps).world;
    exists picks :: WasRead(s, steps, picks) && o < |w.origins| && o < |w.rows.orders|
                    && w.origins[o] == RowsOf(picks) && w.rows.orders[o].items == LinesOf(picks)
                    && w.rows.orders[o].subtotal == Subtotal(LinesOf(picks))
  }

  lemma ReadStays(s: State, steps: seq<Step>, picks: seq<Pick>)
    requires steps != [] && Legal(s, steps) && WasRead(s, steps[..|steps| - 1], picks)
    ensures WasRead(s, steps, picks)
  {
    var before := steps[..|steps| - 1];
    var n: nat :| n < |before| && ReadAt(s, before, n, picks);
    assert before[..n] == steps[..n];
    assert ReadAt(s, steps, n, picks);
  }

  lemma OldOrderStays(s: State, steps: seq<Step>, o: OrderId)
    requires Sound(s) && steps != [] && Legal(s, steps) && FromReads(s, steps[..|steps| - 1])
    requires o < |End(s, steps[..|steps| - 1]).world.rows.orders|
    ensures OrderFromRead(s, steps, o)
  {
    var before := steps[..|steps| - 1];
    var w, v := End(s, before).world, End(s, steps).world;
    RunSound(s, before);
    StepKeepsOrder(End(s, before), steps[|steps| - 1], o);
    assert OrderFromRead(s, before, o);
    var picks :| WasRead(s, before, picks) && w.origins[o] == RowsOf(picks) && w.rows.orders[o].items == LinesOf(picks)
                 && w.rows.orders[o].subtotal == Subtotal(LinesOf(picks));
    ReadStays(s, steps, picks);
  }

  lemma StepKeepsOrder(s: State, step: Step, o: OrderId)
    requires Sound(s) && Enabled(s, step) && o < |s.world.rows.orders|
    ensures var w, v := s.world, Exec(s, step).world;
            && o < |v.rows.orders| && o < |v.origins|
            && v.origins[o] == w.origins[o] && SameOrder(w.rows.orders[o], v.rows.orders[o])
  {
    SoundStep(s, step);
    ExecIsAtomic(s, step);
  }

  lemma StepAddsOrder(s: State, step: Step, o: OrderId)
    requires Sound(s) && Enabled(s, step)
    requires |s.world.rows.orders| <= o < |Exec(s, step).world.rows.orders|
    ensures step.CommitCheckout? && step.k in s.calls && s.calls[step.k].CheckoutReady?
    ensures var w := Exec(s, step).world;
            var picks := s.calls[step.k].picks;
            && o < |w.origins| && w.origins[o] == RowsOf(picks)
            && w.rows.orders[o].items == LinesOf(picks) && w.rows.orders[o].subtotal == Subtotal(LinesOf(picks))
  {
    ExecIsAtomic(s, step);
    OnlyPlaceAdds(s.world, OpOf(s, step));
    CheckoutEffect(s.world, s.calls[step.k].picks, s.calls[step.k].coupon, step.now);
  }

  lemma NewOrderFromRead(s: State, steps: seq<Step>, o: OrderId)
    requires Sound(s) && steps != [] && Legal(s, steps) && FromReads(s, steps[..|steps| - 1])
    requires |End(s, steps[..|steps| - 1]).world.rows.orders| <= o < |End(s, steps).world.rows.orders|
    ensures OrderFromRead(s, steps, o)
  {
    var before := steps[..|steps| - 1];
    var e, step := End(s, before), steps[|steps| - 1];
    RunSound(s, before);
    StepAddsOrder(e, step, o);
    ReadStays(s, steps, e.calls[step.k].picks);
  }

  lemma OnlyPlaceAdds(w: World, op: Op)
    requires Shape(w) && OpGuard(w, op)
    ensures |Atomic(w, op).rows.orders| > |w.rows.orders| ==>
              op.Place? && PlaceOrder(w.rows, op.picks, op.seenCoupon, op.now).Placed?
              && |Atomic(w, op).rows.orders| == |w.rows.orders| + 1
  {
    if op.Change? && TransitionNow(w.rows, op.order, op.to, op.actor, op.extra).outcome == Changed {
      assert OrderShape(w, op.order);
      ChangeKeeps(w.rows, op.order, w.rows.orders[op.order], op.to, op.extra);
    }
  }

  predicate Picked(c: Call, picks: seq<Pick>) {
    (c.CartSeen? || c.CheckoutReady?) && c.picks == picks
  }

  /** A checkout's lines come from its own read, in this step or before. */
  lemma PicksComeFromRead(s: State, step: Step, k: CallId, picks: seq<Pick>)
    requires Enabled(s, step) && k in Exec(s, step).calls && Picked(Exec(s, step).calls[k], picks)
    ensures (step.BeginCheckout? && step.picks == picks) || (k in s.calls && Picked(s.calls[k], picks))
  {
  }

  lemma CallsFromReads(s: State, steps: seq<Step>, k: CallId, picks: seq<Pick>)
    requires steps != [] && Legal(s, steps) && FromReads(s, steps[..|steps| - 1])
    requires k in End(s, steps).calls && Picked(End(s, steps).calls[k], picks)
    ensures WasRead(s, steps, picks)
  {
    var before := steps[..|steps| - 1];
    var e, step := End(s, before), steps[|steps| - 1];
    PicksComeFromRead(e, step, k, picks);
    if step.BeginCheckout? && step.picks == picks {
      assert steps[..|before|] == before;
      assert ReadAt(s, steps, |before|, picks);
    } else {
      ReadStays(s, steps, picks);
    }
  }

  /** Every order of every reachable state contains exactly the lines that one read of
      its cart returned, and its subtotal is the sum of price times quantity over them. */
  lemma {:induction false} OrdersContainWhatWasRead(s: State, steps: seq<Step>)
    requires Initial(s) && Legal(s, steps)
    ensures FromReads(s, steps)
  {
    InitialSound(s);
    if steps != [] {
      var before := steps[..|steps| - 1];
      OrdersContainWhatWasRead(s, before);
      RunSound(s, before);
      RunSound(s, steps);
      forall k | k in End(s, steps).calls && (End(s, steps).calls[k].CartSeen? || End(s, steps).calls[k].CheckoutReady?)
        ensures WasRead(s, steps, End(s, steps).calls[k].picks)
      {
        CallsFromReads(s, steps, k, End(s, steps).calls[k].picks);
      }
      forall o | 0 <= o < |End(s, steps).world.rows.orders| ensures OrderFromRead(s, steps, o) {
        if o < |End(s, before).world.rows.orders| {
          OldOrderStays(s, steps, o);
        } else {
          NewOrderFromRead(s, steps, o);
        }
      }
    }
  }
}
