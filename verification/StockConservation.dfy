/** Stock conservation: nothing an interleaving of checkouts, payments, expiries and
    admin clicks does creates or loses a unit. */
module StockConservation {
  import opened Wrappers
  import opened OrderStatus
  import opened Reservation
  import opened Tables
  import opened Protocol
  import opened ProtocolShape
  import opened Ledger

  function Quantity(stock: seq<Product>, p: ProductId): int {
    if p < |stock| then stock[p].quantity else 0
  }

  /** The units of `p` that order `o` keeps out of the stock. */
  function HeldBy(w: World, o: OrderId, p: ProductId): int
    requires o < |w.rows.orders| && o < |w.trails|
  {
    if Held(w.trails[o]) then Demand(w.rows.orders[o].items, p) else 0
  }

  function Holdings(w: World, p: ProductId): seq<int>
    requires |w.trails| == |w.rows.orders|
  {
    seq(|w.rows.orders|, o requires 0 <= o < |w.rows.orders| => HeldBy(w, o, p))
  }

  /** Units on the shelf plus units of all orders with an outstanding reservation. */
  function Accounted(w: World, p: ProductId): int
    requires |w.trails| == |w.rows.orders|
  {
    Quantity(w.rows.products, p) + Sum(Holdings(w, p))
  }

  /** The units an explicit stock edit adds (or, negative, removes). */
  function Adjustment(w: World, op: Op, p: ProductId): int {
    if op.SetProduct? && (op.p == p || (op.p >= |w.rows.products| && p == |w.rows.products|))
    then op.product.quantity - Quantity(w.rows.products, p)
    else 0
  }

  lemma ChangeMovesStock(r: Rows, id: OrderId, seen: Order, to: Status, extra: Extra, p: ProductId)
    requires NonNegative(r.products) && KnownProducts(seen.items, |r.products|)
    requires ChangeStatus(r, id, seen, to, extra).outcome == Changed
    ensures Quantity(ChangeStatus(r, id, seen, to, extra).rows.products, p) ==
            Quantity(r.products, p) +
              if ReleasesStock(seen.status, to) then Demand(seen.items, p)
              else if ReservesStock(seen.status, to) then -(Demand(seen.items, p) as int)
              else 0
  {
    if p >= |r.products| {
      DemandOfUnknown(seen.items, |r.products|, p);
    }
    if ReservesStock(seen.status, to) {
      ReserveExactly(r.products, seen.items);
    } else if ReleasesStock(seen.status, to) {
      RestockExactly(r.products, seen.items);
    }
  }

  lemma HoldingsAfterChange(w: World, v: World, id: OrderId, to: Status, p: ProductId)
    requires |w.trails| == |w.rows.orders| && id < |w.rows.orders| && OrderShape(w, id) &&
              Edge(w.rows.orders[id].status, to)
    requires v.rows.orders == w.rows.orders[id := w.rows.orders[id].(status := to)] &&
              v.trails == w.trails[id := w.trails[id] + [to]]
    ensures var order := w.rows.orders[id];
            Sum(Holdings(v, p)) == Sum(Holdings(w, p)) +
              if ReleasesStock(order.status, to) then -(Demand(order.items, p) as int)
              else if ReservesStock(order.status, to) then Demand(order.items, p)
              else 0
  {
    StepMovesUnits(w.trails[id], to);
    assert Holdings(v, p) == Holdings(w, p)[id := HeldBy(v, id, p)];
    SumUpdate(Holdings(w, p), id, HeldBy(v, id, p));
  }

  lemma ChangeConserves(w: World, op: Op, p: ProductId)
    requires Shape(w) && OpGuard(w, op) && op.Change? && Shape(Atomic(w, op))
    ensures Accounted(Atomic(w, op), p) == Accounted(w, p)
  {
    if TransitionNow(w.rows, op.order, op.to, op.actor, op.extra).outcome == Changed {
      assert OrderShape(w, op.order);
      ChangeMovesStock(w.rows, op.order, w.rows.orders[op.order], op.to, op.extra, p);
      ChangeLogged(w, op);
      HoldingsAfterChange(w, Atomic(w, op), op.order, op.to, p);
    }
  }

  lemma HoldingsAfterPlace(w: World, v: World, p: ProductId)
    requires |w.trails| == |w.rows.orders| && |v.rows.orders| == |w.rows.orders| + 1
    requires v.rows.orders[..|w.rows.orders|] == w.rows.orders && v.trails == w.trails + [[PAYMENT_PENDING]]
    ensures Sum(Holdings(v, p)) == Sum(Holdings(w, p)) + Demand(v.rows.orders[|w.rows.orders|].items, p)
  {
    var o := |w.rows.orders|;
    assert forall i :: 0 <= i < o ==> v.rows.orders[i] == v.rows.orders[..o][i];
    assert v.trails[o] == [PAYMENT_PENDING];
    assert Holdings(v, p) == Holdings(w, p) + [HeldBy(v, o, p)];
    SumAppend(Holdings(w, p), HeldBy(v, o, p));
  }

  /** What a checkout that went through took from the shelf, and the order it made. */
  lemma ShelfAfterPlace(w: World, op: Op, p: ProductId)
    requires Shape(w) && op.Place? && PlaceOrder(w.rows, op.picks, op.seenCoupon, op.now).Placed?
    ensures var v := Atomic(w, op);
            && |v.rows.orders| == |w.rows.orders| + 1 && v.rows.orders[..|w.rows.orders|] == w.rows.orders
            && v.trails == w.trails + [[PAYMENT_PENDING]]
            && Quantity(v.rows.products, p) ==
              Quantity(w.rows.products, p) - Demand(v.rows.orders[|w.rows.orders|].items, p)
  {
    var lines := LinesOf(op.picks);
    ReserveExactly(w.rows.products, lines);
    if p >= |w.rows.products| {
      DemandOfUnknown(lines, |w.rows.products|, p);
    }
  }

  lemma PlaceConserves(w: World, op: Op, p: ProductId)
    requires Shape(w) && OpGuard(w, op) && op.Place? && Shape(Atomic(w, op))
    ensures Accounted(Atomic(w, op), p) == Accounted(w, p)
  {
    if PlaceOrder(w.rows, op.picks, op.seenCoupon, op.now).Placed? {
      ShelfAfterPlace(w, op, p);
      HoldingsAfterPlace(w, Atomic(w, op), p);
    }
  }

  lemma AtomicConserves(w: World, op: Op, p: ProductId)
    requires Shape(w) && OpGuard(w, op)
    ensures Shape(Atomic(w, op))
    ensures Accounted(Atomic(w, op), p) == Accounted(w, p) + Adjustment(w, op, p)
  {
    AtomicShape(w, op);
    if op.Change? {
      ChangeConserves(w, op, p);
    } else if op.Place? {
      PlaceConserves(w, op, p);
    } else {
      assert Holdings(Atomic(w, op), p) == Holdings(w, p);
    }
  }

  /** All or nothing on a revival too: a late payment makes an expired order PAID exactly
      when every product covers the order's total demand again and the payment can be
      recorded; otherwise nothing changes. */
  lemma ReviveExactly(w: World, o: OrderId, extra: Extra)
    requires Shape(w) && o < |w.rows.orders| && w.rows.orders[o].status == EXPIRED
    ensures var outcome := TransitionNow(w.rows, o, PAID, System, extra).outcome;
            && (outcome == OutOfStock <==> !Covers(w.rows.products, w.rows.orders[o].items))
            && (outcome == Changed <==>
                  Covers(w.rows.products, w.rows.orders[o].items) && WithExtra(w.rows.payments, extra).Some?)
            && (outcome != Changed ==> Atomic(w, Change(o, PAID, System, extra)) == w)
  {
    ReserveExactly(w.rows.products, w.rows.orders[o].items);
    assert Settle(w.rows.payments, o, PAID) == w.rows.payments;
  }

  /** All explicit stock edits of a run together. */
  ghost function Adjusted(s: State, steps: seq<Step>, p: ProductId): int
    requires Legal(s, steps)
  {
    if steps == [] then 0
    else
      var before := steps[..|steps| - 1];
      Adjusted(s, before, p) + Adjustment(End(s, before).world, OpOf(End(s, before), steps[|steps| - 1]), p)
  }

  /** In every reachable state each product's quantity plus the units of all orders
      with an outstanding reservation equals its starting quantity plus the explicit
      edits, and no quantity is negative. */
  lemma {:induction false} StockIsConserved(s: State, steps: seq<Step>, p: ProductId)
    requires Initial(s) && Legal(s, steps)
    ensures Shape(End(s, steps).world)
    ensures Accounted(End(s, steps).world, p) == Quantity(s.world.rows.products, p) + Adjusted(s, steps, p)
    ensures Quantity(End(s, steps).world.rows.products, p) >= 0
  {
    RunSound(s, steps);
    if steps == [] {
      assert Holdings(s.world, p) == [];
    } else {
      var before := steps[..|steps| - 1];
      StockIsConserved(s, before, p);
      RunSound(s, before);
      ExecIsAtomic(End(s, before), steps[|steps| - 1]);
      AtomicConserves(End(s, before).world, OpOf(End(s, before), steps[|steps| - 1]), p);
    }
  }
}
