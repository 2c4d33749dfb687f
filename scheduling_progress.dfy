/**
 * One iteration of the loop from a loop head never fails, breaks exactly when
 * no block has work left, and otherwise spends a positive amount of the pool's
 * remaining work; hence the loop breaks within `TotalWork + 1` iterations with
 * every block finished and the I/O queue empty.
 */
module SchedulingProgress {
  import opened Wrappers
  import opened Pcb
  import opened IO
  import opened Scheduling
  import opened SchedulingInvariant
  import opened SchedulingPreservation
  import opened SchedulingDispatch

  /** The loop body from the slice on, in flight block `i` popped from level `el`. */
  lemma ServedKeeps(w: World, P: Params, i: nat, el: nat, pid: int, delta: int)
    requires WF(w, P) && Core(w.io, P) && i < |w.io.recs| && 1 <= el < |w.levels|
    requires Owned(w.io, w.levels, P, {i}, {}) && w.io.finished == []
    requires w.io.recs[i].state == Ready && w.io.recs[i].remainingTime > 0 && w.io.recs[i].prio == el
    ensures Served(w, P, i, el, pid, delta).Ok?
    ensures var r := Served(w, P, i, el, pid, delta).value;
      && Inv(r, P)
      && ComputeExecuteTime(w.io.recs[i], P.timeQuantum) > 0
      && Spent(w.io.recs, r.io.recs, i, ComputeExecuteTime(w.io.recs[i], P.timeQuantum))
  {
    hide Ran, Responded, Routed, QueuesAfterAging, Owned, Core;
    SliceKeeps(w, P, i);
    var x := Ran(Responded(w, P, i), P, i);
    RouteKeeps(x.world, P, i, el, x.elapsed);
    var w5 := Routed(x.world, P, i, el, x.elapsed).value;
    var rec := w5.io.recs[i];
    if rec.remainingTime <= 0 {
      StandingUpdate(w5.io, w5.levels, P, i, rec.(completionTime := w5.clock));
    }
    var w6 := Completed(w5, P, i);
    AgingKeeps(w6, P, pid, delta);
    var w7 := QueuesAfterAging(w6, P, pid, delta).value;
    SpentThen(w.io.recs, x.world.io.recs, w5.io.recs, i, x.elapsed);
    SpentThen(w.io.recs, w5.io.recs, w6.io.recs, i, x.elapsed);
    SpentThen(w.io.recs, w6.io.recs, w7.io.recs, i, x.elapsed);
  }

  /** The loop body once a non-empty level has been selected. */
  lemma DispatchKeeps(w: World, P: Params, el: nat)
    requires Inv(w, P) && 1 <= el < |w.levels| && w.levels[el] != []
    ensures Dispatch(w, P, el).Ok?
    ensures Inv(Dispatch(w, P, el).value, P)
    ensures TotalWork(Dispatch(w, P, el).value.io.recs) < TotalWork(w.io.recs)
    ensures |Dispatch(w, P, el).value.io.recs| == |w.io.recs|
  {
    EnteredKeeps(w, P, el);
    var e := Entered(w, P, el).value;
    ServedKeeps(e.world, P, e.i, el, e.pid, e.delta);
    var r := Served(e.world, P, e.i, el, e.pid, e.delta).value;
    TotalWorkSame(w.io.recs, e.world.io.recs);
    SpentTotal(e.world.io.recs, r.io.recs, e.i, ComputeExecuteTime(e.world.io.recs[e.i], P.timeQuantum));
  }

  /**
   * One iteration of `while (true)` from a loop head: it never fails, it breaks
   * exactly when no block has work left (and then leaves the pool as it was,
   * with the I/O queue empty), and otherwise it spends some remaining work.
   */
  lemma IterateKeeps(w: World, P: Params)
    requires Inv(w, P)
    ensures Iterate(w, P).Ok?
    ensures var s := Iterate(w, P).value;
      && Inv(s.world, P)
      && (s.go <==> HasWork(w.io.recs))
      && (s.go ==> TotalWork(s.world.io.recs) < TotalWork(w.io.recs))
      && (!s.go ==> s.world.io.recs == w.io.recs && s.world.io.queue == [])
      && |s.world.io.recs| == |w.io.recs|
  {
    CleanUpKeeps(w, P);
    var s := CleanUp(w, P).value;
    TotalWorkSame(w.io.recs, s.world.io.recs);
    if s.go {
      assert FirstNonEmpty(s.world.levels, 1).Some?;
      DispatchKeeps(s.world, P, FirstNonEmpty(s.world.levels, 1).value);
    }
  }

  /** With no work left, the invariant says every block is finished. */
  lemma AllFinished(w: World, P: Params)
    requires Inv(w, P) && !HasWork(w.io.recs)
    ensures forall j :: 0 <= j < |w.io.recs| ==> w.io.recs[j].state == Finished
  {
    forall j | 0 <= j < |w.io.recs|
      ensures w.io.recs[j].state == Finished
    {
      assert Accounted(w.io, w.levels, {}, j);
    }
  }

  /** One step of `RunFor` once the iteration succeeded. */
  lemma RunForStep(w: World, P: Params, fuel: nat)
    requires WF(w, P) && fuel > 0 && Iterate(w, P).Ok?
    ensures var s := Iterate(w, P).value;
      RunFor(w, P, fuel) == if !s.go then Ok(s) else RunFor(s.world, P, fuel - 1)
  {
  }

  /** The next loop head, with what `RunFor` does from there. */
  lemma NextHead(w: World, P: Params, fuel: nat) returns (s: Stepped)
    requires Inv(w, P) && fuel > 0
    ensures Inv(s.world, P)
    ensures s.go ==> TotalWork(s.world.io.recs) < TotalWork(w.io.recs)
    ensures !s.go ==> s.world.io.queue == [] && !HasWork(s.world.io.recs)
    ensures |s.world.io.recs| == |w.io.recs|
    ensures RunFor(w, P, fuel) == if !s.go then Ok(s) else RunFor(s.world, P, fuel - 1)
  {
    IterateKeeps(w, P);
    RunForStep(w, P, fuel);
    s := Iterate(w, P).value;
  }

  /**
   * From a loop head, more iterations than the pool's remaining work suffice:
   * the loop breaks without error, every block finished, the I/O queue empty.
   */
  lemma RunDrains(w: World, P: Params, fuel: nat)
    requires Inv(w, P) && fuel > TotalWork(w.io.recs)
    ensures RunFor(w, P, fuel).Ok?
    ensures var s := RunFor(w, P, fuel).value;
      && !s.go && Inv(s.world, P) && s.world.io.queue == [] && |s.world.io.recs| == |w.io.recs|
      && forall j :: 0 <= j < |s.world.io.recs| ==> s.world.io.recs[j].state == Finished
  {
    hide RunFor, Iterate, Core, Owned;
    var cur, done, last := w, false, Stepped(false, w);
    var k: nat := fuel;
    var result := RunFor(w, P, fuel);
    while !done
      invariant !done ==> Inv(cur, P) && k > TotalWork(cur.io.recs) && |cur.io.recs| == |w.io.recs|
      invariant !done ==> result == RunFor(cur, P, k)
      invariant done ==> result == Ok(last) && !last.go && Inv(last.world, P)
      invariant done ==> last.world.io.queue == [] && !HasWork(last.world.io.recs)
      invariant done ==> |last.world.io.recs| == |w.io.recs|
      decreases if done then 0 else k + 1
    {
      WorkNonNegative(cur, P);
      var s := NextHead(cur, P, k);
      if s.go {
        cur, k := s.world, k - 1;
      } else {
        last, done := s, true;
      }
    }
    AllFinished(last.world, P);
  }
}
