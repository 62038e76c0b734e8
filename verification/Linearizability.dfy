/** Any interleaving of stale reads and conditional writes is equal to running the
    operations that won, one after the other, in the order of their commits. */
module Linearizability {
  import opened Protocol
  import opened ProtocolShape

  /** The operations that changed anything during a run, in commit order.  A status change
      among them stands for reading and writing at once; a checkout keeps the cart lines and
      the coupon it read. */
  ghost function Winners(s: State, steps: seq<Step>): seq<Op>
    requires Legal(s, steps)
  {
    if steps == [] then []
    else
      var before := steps[..|steps| - 1];
      var op := OpOf(End(s, before), steps[|steps| - 1]);
      Winners(s, before) + if Atomic(End(s, before).world, op) == End(s, before).world then [] else [op]
  }

  /** The same operations one after the other, without any call in between. */
  ghost function Replay(w: World, ops: seq<Op>): World {
    if ops == [] then w
    else Atomic(Replay(w, ops[..|ops| - 1]), ops[|ops| - 1])
  }

  lemma {:induction false} Linearizable(s: State, steps: seq<Step>)
    requires Initial(s) && Legal(s, steps)
    ensures End(s, steps).world == Replay(s.world, Winners(s, steps))
  {
    if steps != [] {
      var before := steps[..|steps| - 1];
      var step := steps[|steps| - 1];
      Linearizable(s, before);
      RunSound(s, before);
      ExecIsAtomic(End(s, before), step);
      var op := OpOf(End(s, before), step);
      if Atomic(End(s, before).world, op) != End(s, before).world {
        assert Winners(s, steps)[..|Winners(s, steps)| - 1] == Winners(s, before);
      } else {
        assert Winners(s, steps) == Winners(s, before);
      }
    }
  }

  /** A commit whose order moved on since it was read leaves no trace, even when the
      order has been through the same status before. */
  lemma LosersLeaveNoTrace(s: State, steps: seq<Step>, step: Step)
    requires Initial(s) && Legal(s, steps) && Enabled(End(s, steps), step) && step.CommitStatus?
    requires var c := End(s, steps).calls[step.k];
             c.order < |End(s, steps).world.rows.orders| &&
               End(s, steps).world.rows.orders[c.order].status != c.seen.status
    ensures Exec(End(s, steps), step).world == End(s, steps).world
    ensures Winners(s, steps) == Winners(s, steps + [step])
  {
    var all := steps + [step];
    assert all[..|all| - 1] == steps && all[|all| - 1] == step;
    RunSound(s, steps);
    ExecIsAtomic(End(s, steps), step);
  }
}
