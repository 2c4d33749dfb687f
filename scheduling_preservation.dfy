/**
 * Each stage of the dispatch loop keeps the ownership invariant, and one
 * iteration from an invariant state never fails, breaks exactly when no work is
 * left, and otherwise spends at least one unit of remaining work.
 */
module SchedulingPreservation {
  import opened Wrappers
  import opened Pcb
  import opened IO
  import opened ReadyQueues
  import opened Scheduling
  import opened SchedulingInvariant

  // ------------------------------------------------------------ work measure

  /** The remaining work of the whole pool. */
  function TotalWork(recs: seq<ProcessRecord>): int
    decreases |recs|
  {
    if recs == [] then 0 else TotalWork(recs[..|recs| - 1]) + recs[|recs| - 1].remainingTime
  }

  lemma {:induction false} TotalWorkSame(a: seq<ProcessRecord>, b: seq<ProcessRecord>)
    requires SameWork(a, b)
    ensures TotalWork(a) == TotalWork(b)
    decreases |a|
  {
    if a != [] {
      TotalWorkSame(a[..|a| - 1], b[..|b| - 1]);
    }
  }

  lemma {:induction false} TotalWorkUpdate(a: seq<ProcessRecord>, i: nat, r: ProcessRecord)
    requires i < |a|
    ensures TotalWork(a[i := r]) == TotalWork(a) - a[i].remainingTime + r.remainingTime
    decreases |a|
  {
    var n := |a| - 1;
    if i < n {
      assert a[i := r][..n] == a[..n][i := r];
      TotalWorkUpdate(a[..n], i, r);
    } else {
      assert a[i := r][..n] == a[..n];
    }
  }

  lemma {:induction false} TotalWorkNonNegative(recs: seq<ProcessRecord>)
    requires forall j :: 0 <= j < |recs| ==> recs[j].remainingTime >= 0
    ensures TotalWork(recs) >= 0
    decreases |recs|
  {
    if recs != [] {
      TotalWorkNonNegative(recs[..|recs| - 1]);
    }
  }

  /** Block i spent `e` units of work and no other block's work changed. */
  predicate Spent(a: seq<ProcessRecord>, b: seq<ProcessRecord>, i: nat, e: int)
  {
    && |a| == |b| && i < |a|
    && b[i].remainingTime == a[i].remainingTime - e
    && forall j :: 0 <= j < |a| && j != i ==> a[j].remainingTime == b[j].remainingTime
  }

  lemma SpentTotal(a: seq<ProcessRecord>, b: seq<ProcessRecord>, i: nat, e: int)
    requires Spent(a, b, i, e)
    ensures TotalWork(b) == TotalWork(a) - e
  {
    var c := a[i := b[i]];
    TotalWorkUpdate(a, i, b[i]);
    assert SameWork(c, b);
    TotalWorkSame(c, b);
  }

  // ---------------------------------------------------------- generic moves

  /** Under the invariant every block's remaining work is non-negative. */
  lemma WorkNonNegative(w: World, P: Params)
    requires Inv(w, P)
    ensures TotalWork(w.io.recs) >= 0
  {
    forall j | 0 <= j < |w.io.recs|
      ensures w.io.recs[j].remainingTime >= 0
    {
      assert Accounted(w.io, w.levels, {}, j);
    }
    TotalWorkNonNegative(w.io.recs);
  }

  /** An in-flight block's record may change freely: nothing filed refers to it. */
  lemma InFlightUpdate(v: IoView, levels: seq<seq<nat>>, P: Params, i: nat, r: ProcessRecord, out: set<nat>)
    requires Shaped(v, levels, P) && i < |v.recs| && i in out && Owned(v, levels, P, out, {})
    requires 0 <= r.prio <= P.maxPriority
    ensures Shaped(v.(recs := v.recs[i := r]), levels, P)
    ensures Owned(v.(recs := v.recs[i := r]), levels, P, out, {})
  {
    var u := v.(recs := v.recs[i := r]);
    forall l, k | 0 <= l < |levels| && 0 <= k < |levels[l]|
      ensures InLevel(u, out, {}, levels[l][k], l)
    {
      assert InLevel(v, out, {}, levels[l][k], l);
    }
    forall k | 0 <= k < |u.queue|
      ensures InIO(u, out, u.queue[k])
    {
      assert InIO(v, out, v.queue[k]);
    }
    forall j | 0 <= j < |u.recs| && j !in out
      ensures Accounted(u, levels, {}, j)
    {
      assert Accounted(v, levels, {}, j);
    }
  }

  /** Releasing an in-flight block that is accounted for. */
  lemma Release(v: IoView, levels: seq<seq<nat>>, P: Params, i: nat)
    requires Shaped(v, levels, P) && i < |v.recs| && Owned(v, levels, P, {i}, {}) && Accounted(v, levels, {}, i)
    ensures Owned(v, levels, P, {}, {})
  {
    forall l, k | 0 <= l < |levels| && 0 <= k < |levels[l]|
      ensures InLevel(v, {}, {}, levels[l][k], l)
    {
      assert InLevel(v, {i}, {}, levels[l][k], l);
    }
    forall k | 0 <= k < |v.queue|
      ensures InIO(v, {}, v.queue[k])
    {
      assert InIO(v, {i}, v.queue[k]);
    }
  }

  /** The fields the invariant looks at. */
  predicate SameStanding(a: ProcessRecord, b: ProcessRecord)
  {
    && a.pid == b.pid && a.prio == b.prio && a.oldPrio == b.oldPrio && a.state == b.state
    && a.remainingTime == b.remainingTime && a.ioBound == b.ioBound && a.ioInterval == b.ioInterval
    && a.ioRemaining == b.ioRemaining && a.cpuUsed == b.cpuUsed && a.totalCpuUsed == b.totalCpuUsed
    && a.burstTime == b.burstTime
  }

  /** A change to fields the invariant ignores (time stamps, waiting time) keeps it. */
  lemma StandingUpdate(v: IoView, levels: seq<seq<nat>>, P: Params, i: nat, r: ProcessRecord)
    requires Shaped(v, levels, P) && Core(v, P) && i < |v.recs| && Owned(v, levels, P, {}, {})
    requires SameStanding(v.recs[i], r)
    ensures Shaped(v.(recs := v.recs[i := r]), levels, P)
    ensures Core(v.(recs := v.recs[i := r]), P)
    ensures Owned(v.(recs := v.recs[i := r]), levels, P, {}, {})
  {
    var u := v.(recs := v.recs[i := r]);
    forall l, k | 0 <= l < |levels| && 0 <= k < |levels[l]|
      ensures InLevel(u, {}, {}, levels[l][k], l)
    {
      assert InLevel(v, {}, {}, levels[l][k], l);
    }
    forall k | 0 <= k < |u.queue|
      ensures InIO(u, {}, u.queue[k])
    {
      assert InIO(v, {}, v.queue[k]);
    }
    forall j | 0 <= j < |u.recs|
      ensures Accounted(u, levels, {}, j) && RecordOk(u.recs[j], P)
    {
      assert Accounted(v, levels, {}, j);
      assert RecordOk(v.recs[j], P);
    }
  }

  // --------------------------------------------------------------- cleanUp

  /** Under the invariant, work is left exactly when something is queued. */
  lemma WorkIsQueued(w: World, P: Params)
    requires Inv(w, P)
    ensures HasWork(w.io.recs) <==> AnyLevelHasWork(w.levels) || w.io.queue != []
  {
    if HasWork(w.io.recs) {
      var j :| 0 <= j < |w.io.recs| && w.io.recs[j].remainingTime > 0;
      assert Accounted(w.io, w.levels, {}, j);
      assert RecordOk(w.io.recs[j], P);
      if w.io.recs[j].state == Ready {
        assert w.levels[w.io.recs[j].prio] != [];
      }
    }
    if AnyLevelHasWork(w.levels) {
      var l :| 1 <= l < |w.levels| && w.levels[l] != [];
      assert InLevel(w.io, {}, {}, w.levels[l][0], l);
    }
    if w.io.queue != [] {
      assert InIO(w.io, {}, w.io.queue[0]);
    }
  }

  /** The fast-forward amount is some queued countdown, and positive. */
  lemma MinIsAttained(v: IoView, levels: seq<seq<nat>>, P: Params)
    requires Shaped(v, levels, P) && Core(v, P) && Owned(v, levels, P, {}, {}) && v.queue != []
    ensures 0 < MinRemaining(v.recs, v.queue)
    ensures exists k :: 0 <= k < |v.queue| && v.recs[v.queue[k]].ioRemaining == MinRemaining(v.recs, v.queue)
  {
    var m := MinRemaining(v.recs, v.queue);
    assert InIO(v, {}, v.queue[0]);
    assert RecordOk(v.recs[v.queue[0]], P);
    if m == INT_MAX {
      assert v.recs[v.queue[0]].ioRemaining == m;
    } else {
      var k :| 0 <= k < |v.queue| && m == v.recs[v.queue[k]].ioRemaining;
      assert InIO(v, {}, v.queue[k]);
    }
  }

  /** A READY block with work left makes some level 1..max non-empty. */
  lemma ReadyIsFiled(v: IoView, levels: seq<seq<nat>>, P: Params, x: nat)
    requires Shaped(v, levels, P) && Core(v, P) && Owned(v, levels, P, {}, {}) && x < |v.recs|
    requires v.recs[x].state == Ready && v.recs[x].remainingTime > 0
    ensures AnyLevelHasWork(levels)
  {
    assert Accounted(v, levels, {}, x);
    assert RecordOk(v.recs[x], P);
    assert levels[v.recs[x].prio] != [];
  }

  /** Some block is READY with work left. */
  predicate SomeReady(recs: seq<ProcessRecord>)
  {
    exists x :: 0 <= x < |recs| && recs[x].state == Ready && recs[x].remainingTime > 0
  }

  /** Ticking by the least countdown completes at least one I/O wait. */
  lemma FastForwardTick(v: IoView, levels: seq<seq<nat>>, P: Params)
    requires Shaped(v, levels, P) && Core(v, P) && Owned(v, levels, P, {}, {}) && v.finished == []
    requires v.queue != []
    ensures var u := IOProcessed(v, MinRemaining(v.recs, v.queue));
      && Shaped(u, levels, P) && Core(u, P) && Drainable(u, {})
      && Owned(u, levels, P, {} + Elems(u.finished), {})
      && SameWork(v.recs, u.recs) && SomeReady(u.recs)
  {
    hide IOProcessed, Owned, Core;
    var m := MinRemaining(v.recs, v.queue);
    MinIsAttained(v, levels, P);
    var k0 :| 0 <= k0 < |v.queue| && v.recs[v.queue[k0]].ioRemaining == m;
    TickOwned(v, levels, P, m, {});
    var u := IOProcessed(v, m);
    var x := v.queue[k0];
    assert Tick(v.recs[x], m).ioRemaining <= 0;
    assert x in u.finished;
    var k :| 0 <= k < |u.finished| && u.finished[k] == x;
  }

  /** The fast-forward branch of `cleanUpQueues`, up to the final time stamp. */
  lemma FastForwardKeeps(w: World, P: Params, w1: World)
    requires Inv(w, P) && !AnyLevelHasWork(w.levels) && w.io.queue != []
    requires w1 == Elapsed(w, MinRemaining(w.io.recs, w.io.queue))
    ensures WF(w1, P)
    ensures DrainFinished(w1, P, false).Ok?
    ensures var w2 := DrainFinished(w1, P, false).value;
      && Core(w2.io, P) && Owned(w2.io, w2.levels, P, {}, {}) && w2.io.finished == []
      && SameWork(w.io.recs, w2.io.recs)
      && AnyLevelHasWork(w2.levels)
  {
    FastForwardTick(w.io, w.levels, P);
    DrainKeeps(w1, P, false, {});
    var w2 := DrainFinished(w1, P, false).value;
    var x :| 0 <= x < |w2.io.recs| && w2.io.recs[x].state == Ready && w2.io.recs[x].remainingTime > 0;
    ReadyIsFiled(w2.io, w2.levels, P, x);
  }

  /** The value of the fast-forward branch, once its drain succeeds. */
  lemma CleanUpFastForward(w: World, P: Params)
    requires WF(w, P) && !AnyLevelHasWork(w.levels) && w.io.queue != []
    requires DrainFinished(Elapsed(w, MinRemaining(w.io.recs, w.io.queue)), P, false).Ok?
    ensures CleanUp(w, P) ==
      Ok(Stepped(true, Stamped(DrainFinished(Elapsed(w, MinRemaining(w.io.recs, w.io.queue)), P, false).value)))
  {
  }

  /**
   * `cleanUpQueues` from an invariant state: it never fails, breaks exactly when
   * no block has work left, and when it continues some level 1..max has work.
   */
  lemma CleanUpKeeps(w: World, P: Params)
    requires Inv(w, P)
    ensures CleanUp(w, P).Ok?
    ensures var s := CleanUp(w, P).value;
      && (s.go <==> HasWork(w.io.recs))
      && Inv(s.world, P)
      && SameWork(w.io.recs, s.world.io.recs)
      && (s.go ==> AnyLevelHasWork(s.world.levels))
  {
    WorkIsQueued(w, P);
    if !HasWork(w.io.recs) && w.io.queue == [] {
      assert CleanUp(w, P) == Ok(Stepped(false, Stamped(w)));
    } else if !AnyLevelHasWork(w.levels) && w.io.queue != [] {
      var m := MinRemaining(w.io.recs, w.io.queue);
      var w1 := Elapsed(w, m);
      FastForwardKeeps(w, P, w1);
      CleanUpFastForward(w, P);
    } else {
      assert CleanUp(w, P) == Ok(Stepped(true, w));
    }
  }
}
