/**
 * Two facts of a dispatch from a loop head: the time delta over which the
 * dispatch path ticks the I/O queue and ages the other blocks is the
 * context-switch charge when a different pid ran last and 0 otherwise; and the
 * dispatched block's first response is stamped with the clock at its first
 * dispatch, and never again.
 */
module SchedulingResponse {
  import opened Wrappers
  import opened Pcb
  import opened IO
  import opened Scheduling
  import opened SchedulingInvariant
  import opened SchedulingDispatch
  import opened SchedulingProgress

  /** Block by block, the same first-response flag and time. */
  predicate SameResponse(a: seq<ProcessRecord>, b: seq<ProcessRecord>)
  {
    |a| == |b| &&
    forall j :: 0 <= j < |a| ==> a[j].firstResponse == b[j].firstResponse && a[j].firstResponseTime == b[j].firstResponseTime
  }

  /** The dispatch-path I/O tick moves no clock and stamps no response. */
  lemma DispatchTickResponse(w: World, P: Params, delta: int)
    requires WF(w, P) && DispatchTick(w, P, delta).Ok?
    ensures var v := DispatchTick(w, P, delta).value;
      v.clock == w.clock && SameResponse(w.io.recs, v.io.recs)
  {
  }

  /** Routing after the slice stamps no response. */
  lemma RoutedResponse(w: World, P: Params, i: nat, el: nat, elapsed: int)
    requires WF(w, P) && i < |w.io.recs| && el < |w.levels| && Routed(w, P, i, el, elapsed).Ok?
    ensures SameResponse(w.io.recs, Routed(w, P, i, el, elapsed).value.io.recs)
  {
  }

  /** The aging pass stamps no response. */
  lemma AgingResponse(w: World, P: Params, runPid: int, delta: int)
    requires WF(w, P) && QueuesAfterAging(w, P, runPid, delta).Ok?
    ensures SameResponse(w.io.recs, QueuesAfterAging(w, P, runPid, delta).value.io.recs)
  {
    var a := AgePass(w.io.recs, w.levels, runPid, delta, |w.io.recs|);
    forall j | 0 <= j < |w.io.recs|
      ensures a.recs[j].firstResponse == w.io.recs[j].firstResponse
      ensures a.recs[j].firstResponseTime == w.io.recs[j].firstResponseTime
    {
      AgePassAt(w.io.recs, w.levels, runPid, delta, |w.io.recs|, j);
    }
  }

  /**
   * The loop body from the slice on stamps block i's first response with the
   * clock it starts from, unless it was stamped before, and no other block's.
   */
  lemma ServedResponse(w: World, P: Params, i: nat, el: nat, pid: int, delta: int)
    requires WF(w, P) && i < |w.io.recs| && el < |w.levels| && Served(w, P, i, el, pid, delta).Ok?
    ensures var v := Served(w, P, i, el, pid, delta).value; var rec := w.io.recs[i];
      && |v.io.recs| == |w.io.recs|
      && v.io.recs[i].firstResponse
      && v.io.recs[i].firstResponseTime == (if rec.firstResponse then rec.firstResponseTime else w.clock)
      && forall j :: 0 <= j < |w.io.recs| && j != i ==>
           v.io.recs[j].firstResponse == w.io.recs[j].firstResponse
           && v.io.recs[j].firstResponseTime == w.io.recs[j].firstResponseTime
  {
    hide Routed, QueuesAfterAging;
    var w1 := Responded(w, P, i);
    var x := Ran(w1, P, i);
    assert SameResponse(w1.io.recs, x.world.io.recs);
    var w5 := Routed(x.world, P, i, el, x.elapsed).value;
    RoutedResponse(x.world, P, i, el, x.elapsed);
    var w6 := Completed(w5, P, i);
    AgingResponse(w6, P, pid, delta);
  }

  /**
   * From a loop head, the dispatch of level el's head: the delta is the
   * context-switch charge when another pid ran last and 0 otherwise, and the
   * clock has moved by exactly that much when the slice starts.
   */
  lemma EnteredDelta(w: World, P: Params, el: nat)
    requires Inv(w, P) && 1 <= el < |w.levels| && w.levels[el] != []
    ensures Entered(w, P, el).Ok?
    ensures var e := Entered(w, P, el).value;
      && e.i == w.levels[el][0] && e.i < |w.io.recs|
      && e.delta == (if w.lastPid.Some? && w.lastPid.value != w.io.recs[e.i].pid then P.contextSwitchTime else 0)
      && e.world.clock == w.clock + e.delta
      && SameResponse(w.io.recs, e.world.io.recs)
  {
    hide Entered, DispatchTick;
    EnteredKeeps(w, P, el);
    EnteredValue(w, P, el);
    var i := w.levels[el][0];
    var w2 := Switched(Popped(w, el), P, w.io.recs[i].pid);
    DispatchTickResponse(w2, P, w2.clock - w2.lastTime);
  }

  /**
   * One dispatch from a loop head: the block it runs has its first response
   * recorded; on its first dispatch the time is the clock once the
   * context-switch charge is added; no other block's response changes.
   */
  lemma DispatchResponse(w: World, P: Params, el: nat)
    requires Inv(w, P) && 1 <= el < |w.levels| && w.levels[el] != []
    ensures Dispatch(w, P, el).Ok?
    ensures var i := w.levels[el][0]; var v := Dispatch(w, P, el).value;
      && i < |w.io.recs| && |v.io.recs| == |w.io.recs|
      && var rec := w.io.recs[i];
      && var charge := if w.lastPid.Some? && w.lastPid.value != rec.pid then P.contextSwitchTime else 0;
      && v.io.recs[i].firstResponse
      && v.io.recs[i].firstResponseTime == (if rec.firstResponse then rec.firstResponseTime else w.clock + charge)
      && forall j :: 0 <= j < |w.io.recs| && j != i ==>
           v.io.recs[j].firstResponse == w.io.recs[j].firstResponse
           && v.io.recs[j].firstResponseTime == w.io.recs[j].firstResponseTime
  {
    hide Served, Entered;
    DispatchKeeps(w, P, el);
    EnteredDelta(w, P, el);
    EnteredKeeps(w, P, el);
    var e := Entered(w, P, el).value;
    ServedResponse(e.world, P, e.i, el, e.pid, e.delta);
  }
}
