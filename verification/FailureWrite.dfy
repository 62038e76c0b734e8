/** The failure write after a start that failed: exactly when it does harm. */
module FailureWrite {
  import opened OrderStatus
  import opened Tables
  import opened Protocol
  import opened ProtocolShape
  import opened Disputes
  import opened Money

  /** Another attempt than `p` has this status. */
  ghost predicate OtherPayment(payments: seq<Payment>, p: PaymentId, order: OrderId, status: PaymentStatus) {
    exists q :: 0 <= q < |payments| && q != p && payments[q].order == order && payments[q].status == status
  }

  /** `p` is all that backs its order. */
  ghost predicate OnlyBacking(r: Rows, p: PaymentId)
    requires p < |r.payments| && r.payments[p].order < |r.orders|
  {
    var payment := r.payments[p];
    var status := r.orders[payment.order].status;
    || (payment.status == Succeeded && status in BACKED && !OtherPayment(r.payments, p, payment.order, Succeeded))
    || (payment.status == Refunded && status == REFUNDED && !OtherPayment(r.payments, p, payment.order, Refunded))
  }

  /** The failure write does harm: `p` is all that backs its order, or all that will back it
      once the call that is about to flag it has done so. */
  ghost predicate Damages(s: State, p: PaymentId)
    requires p < |s.world.rows.payments| && s.world.rows.payments[p].order < |s.world.rows.orders|
  {
    var r := s.world.rows;
    var o := r.payments[p].order;
    || OnlyBacking(r, p)
    || (r.payments[p].status == Succeeded && r.orders[o].status in DEAD && BeingDisputed(s, o)
        && !OtherPayment(r.payments, p, o, Succeeded))
  }

  /** After the write exactly the other attempts' successes and refunds are left. */
  lemma CrashLeavesOthers(w: World, p: PaymentId, o: OrderId, status: PaymentStatus)
    requires p < |w.rows.payments| && status in {Succeeded, Refunded}
    ensures HasPayment(Atomic(w, Crash(p)).rows.payments, o, status) <==> OtherPayment(w.rows.payments, p, o, status)
  {
    var before, after := w.rows.payments, Atomic(w, Crash(p)).rows.payments;
    if HasPayment(after, o, status) {
      var q :| 0 <= q < |after| && after[q].order == o && after[q].status == status;
      assert before[q].order == o && before[q].status == status;
    }
    if OtherPayment(before, p, o, status) {
      var q :| 0 <= q < |before| && q != p && before[q].order == o && before[q].status == status;
      assert after[q].order == o && after[q].status == status;
    }
  }

  lemma HasOther(payments: seq<Payment>, p: PaymentId, o: OrderId, status: PaymentStatus)
    requires p < |payments|
    ensures HasPayment(payments, o, status) <==>
              OtherPayment(payments, p, o, status) || (payments[p].order == o && payments[p].status == status)
  {
    if HasPayment(payments, o, status) {
      var q :| 0 <= q < |payments| && payments[q].order == o && payments[q].status == status;
    }
  }

  lemma CrashCalls(s: State, k: CallId, p: PaymentId)
    requires Sound(s) && k in s.calls && s.calls[k] == AttemptCreated(p)
    ensures Enabled(s, AttemptCrashed(k)) && p < |s.world.rows.payments| &&
            s.world.rows.payments[p].order < |s.world.rows.orders|
    ensures var v := Exec(s, AttemptCrashed(k));
            && v.world == Atomic(s.world, Crash(p)) && v.world.rows.orders == s.world.rows.orders
            && forall o :: BeingDisputed(v, o) <==> BeingDisputed(s, o)
  {
    assert CallOk(s.world, s.calls[k]);
    var v := Exec(s, AttemptCrashed(k));
    forall o ensures BeingDisputed(v, o) <==> BeingDisputed(s, o) {
      if BeingDisputed(s, o) {
        var j :| j in s.calls && Disputing(s.calls[j], o);
        assert j in v.calls && Disputing(v.calls[j], o);
      }
    }
  }

  /** The write leaves a safe order safe exactly when it does no harm to it. */
  lemma CrashSafe(s: State, k: CallId, p: PaymentId, o: OrderId)
    requires Sound(s) && k in s.calls && s.calls[k] == AttemptCreated(p) && o < |s.world.rows.orders| && Safe(s, o)
    ensures Enabled(s, AttemptCrashed(k)) && p < |s.world.rows.payments| &&
            s.world.rows.payments[p].order < |s.world.rows.orders|
    ensures o < |Exec(s, AttemptCrashed(k)).world.rows.orders|
    ensures Safe(Exec(s, AttemptCrashed(k)), o) <==> !(s.world.rows.payments[p].order == o && Damages(s, p))
  {
    CrashCalls(s, k, p);
    CrashLeavesOthers(s.world, p, o, Succeeded);
    CrashLeavesOthers(s.world, p, o, Refunded);
    HasOther(s.world.rows.payments, p, o, Succeeded);
    HasOther(s.world.rows.payments, p, o, Refunded);
  }

  /** Exactly when a failure write does harm: from a state reached by a run that spared
      order `o`, the write followed by every continuation that spares it keeps the order
      backed if and only if the attempt is another order's or the write does no damage. */
  lemma CrashLosesBacking(s: State, steps: seq<Step>, k: CallId, o: OrderId)
    requires Initial(s) && Legal(s, steps) && Spared(s, steps, o) && o < |End(s, steps).world.rows.orders|
    requires k in End(s, steps).calls && End(s, steps).calls[k].AttemptCreated?
    ensures var e := End(s, steps);
            var p := e.calls[k].payment;
            && Enabled(e, AttemptCrashed(k))
            && p < |e.world.rows.payments| && e.world.rows.payments[p].order < |e.world.rows.orders|
            && (StaysBacked(Exec(e, AttemptCrashed(k)), o) <==> !(e.world.rows.payments[p].order == o && Damages(e, p)))
  {
    var e := End(s, steps);
    InitialKnows(s);
    RunKnows(s, steps);
    EverySaleIsBacked(s, steps, o);
    CrashSafe(e, k, e.calls[k].payment, o);
    StepKnows(e, AttemptCrashed(k));
    SafeExactly(Exec(e, AttemptCrashed(k)), o);
  }

  /** No failure write of the run hit a recorded success. */
  ghost predicate AllSpared(s: State, steps: seq<Step>)
    requires Legal(s, steps)
  {
    forall o: OrderId :: Spared(s, steps, o)
  }

  ghost predicate AllBacked(r: Rows) {
    forall o :: 0 <= o < |r.orders| ==> Backed(r, o)
  }

  /** The same for all sales at once, those of later orders included. */
  lemma CrashLosesSales(s: State, steps: seq<Step>, k: CallId)
    requires Initial(s) && Legal(s, steps) && AllSpared(s, steps)
    requires k in End(s, steps).calls && End(s, steps).calls[k].AttemptCreated?
    ensures var e := End(s, steps);
            var p := e.calls[k].payment;
            && Enabled(e, AttemptCrashed(k))
            && p < |e.world.rows.payments| && e.world.rows.payments[p].order < |e.world.rows.orders|
            && var v := Exec(e, AttemptCrashed(k));
               (forall more: seq<Step> :: Legal(v, more) && AllSpared(v, more) ==> AllBacked(End(v, more).world.rows))
                 <==> !Damages(e, p)
  {
    var e := End(s, steps);
    var p := e.calls[k].payment;
    InitialKnows(s);
    RunKnows(s, steps);
    CrashCalls(e, k, p);
    StepKnows(e, AttemptCrashed(k));
    var v := Exec(e, AttemptCrashed(k));
    forall o | 0 <= o < |e.world.rows.orders| ensures Safe(v, o) <==>
      !(e.world.rows.payments[p].order == o && Damages(e, p)) {
      EverySaleIsBacked(s, steps, o);
      CrashSafe(e, k, p, o);
    }
    if Damages(e, p) {
      var more := UnsafeBreaks(v, e.world.rows.payments[p].order);
      assert AllSpared(v, more);
    } else {
      forall more: seq<Step> | Legal(v, more) && AllSpared(v, more) ensures AllBacked(End(v, more).world.rows) {
        AllStayBacked(v, more);
      }
    }
  }

  lemma AllStayBacked(s: State, steps: seq<Step>)
    requires Sound(s) && AllKnow(s) && Legal(s, steps) && AllSpared(s, steps)
    requires forall o :: 0 <= o < |s.world.rows.orders| ==> Safe(s, o)
    ensures AllBacked(End(s, steps).world.rows)
  {
    forall o | 0 <= o < |End(s, steps).world.rows.orders| ensures Backed(End(s, steps).world.rows, o) {
      assert Spared(s, steps, o);
      RunSafe(s, steps, o);
    }
  }
}
