/**
 * The dispatch body of the loop keeps the ownership invariant: the popped block
 * is held in flight through the context switch, the I/O tick and its slice, is
 * then filed again (its level, the I/O queue, or nowhere once finished), and
 * the aging pass moves promoted blocks between levels without losing any.
 */
module SchedulingDispatch {
  import opened Wrappers
  import opened Pcb
  import opened IO
  import opened ReadyQueues
  import opened Scheduling
  import opened SchedulingInvariant
  import opened SchedulingPreservation

  lemma Joined(j: nat)
    ensures {} + {j} == {j}
  {
  }

  /** A block that spent `e` and then lost nothing more. */
  lemma SpentThen(a: seq<ProcessRecord>, b: seq<ProcessRecord>, c: seq<ProcessRecord>, i: nat, e: int)
    requires Spent(a, b, i, e) && SameWork(b, c)
    ensures Spent(a, c, i, e)
  {
  }

  lemma SameWorkThen(a: seq<ProcessRecord>, b: seq<ProcessRecord>, c: seq<ProcessRecord>)
    requires SameWork(a, b) && SameWork(b, c)
    ensures SameWork(a, c)
  {
  }

  /** Replacing one record by one that keeps the invariant's demands keeps `Core`. */
  lemma CoreUpdate(v: IoView, P: Params, i: nat, r: ProcessRecord)
    requires Core(v, P) && i < |v.recs| && RecordOk(r, P) && r.pid == v.recs[i].pid
    ensures Core(v.(recs := v.recs[i := r]), P)
  {
  }

  // ------------------------------------------------------------------- pop

  /** `readyQueue[el].pop()` takes a READY block of priority `el` with work left into flight. */
  lemma PopKeeps(v: IoView, levels: seq<seq<nat>>, P: Params, el: nat)
    requires Shaped(v, levels, P) && Owned(v, levels, P, {}, {}) && 1 <= el < |levels| && levels[el] != []
    ensures var i := levels[el][0]; var ls := levels[el := levels[el][1..]];
      && i < |v.recs| && v.recs[i].state == Ready && v.recs[i].remainingTime > 0 && v.recs[i].prio == el
      && i !in v.queue
      && Shaped(v, ls, P) && Owned(v, ls, P, {i}, {})
  {
    var i := levels[el][0];
    var ls := levels[el := levels[el][1..]];
    assert InLevel(v, {}, {}, levels[el][0], el);
    ReadyNotQueued(v, levels, P, {}, {}, i);
    forall l, k | 0 <= l < |ls| && 0 <= k < |ls[l]|
      ensures InLevel(v, {i}, {}, ls[l][k], l)
    {
      if l == el {
        assert ls[l][k] == levels[el][k + 1];
        assert InLevel(v, {}, {}, levels[el][k + 1], el);
      } else {
        assert InLevel(v, {}, {}, levels[l][k], l);
      }
    }
    forall k | 0 <= k < |v.queue|
      ensures InIO(v, {i}, v.queue[k])
    {
      assert InIO(v, {}, v.queue[k]);
    }
    forall j | 0 <= j < |v.recs| && j !in {i}
      ensures Accounted(v, ls, {}, j)
    {
      assert Accounted(v, levels, {}, j);
      if v.recs[j].remainingTime > 0 && v.recs[j].state == Ready && v.recs[j].prio == el {
        var k :| 0 <= k < |levels[el]| && levels[el][k] == j;
        assert ls[el][k - 1] == j;
      }
    }
  }

  // -------------------------------------------------------- I/O tick, dispatch path

  lemma DispatchTickKeeps(w: World, P: Params, delta: int, i: nat) returns (r: World)
    requires WF(w, P) && Core(w.io, P) && Owned(w.io, w.levels, P, {i}, {}) && w.io.finished == []
    requires i < |w.io.recs| && i !in w.io.queue
    ensures DispatchTick(w, P, delta) == Ok(r)
    ensures && Core(r.io, P) && Owned(r.io, r.levels, P, {i}, {}) && r.io.finished == []
      && SameWork(w.io.recs, r.io.recs) && r.io.recs[i] == w.io.recs[i]
  {
    if delta > 0 {
      TickOwned(w.io, w.levels, P, delta, {i});
      DrainKeeps(IoTicked(w, delta), P, true, {i});
    }
    r := DispatchTick(w, P, delta).value;
  }

  /** The value of `Entered`, stage by stage. */
  lemma EnteredValue(w: World, P: Params, el: nat)
    requires WF(w, P) && 1 <= el < |w.levels| && w.levels[el] != [] && w.levels[el][0] < |w.io.recs|
    ensures var i := w.levels[el][0];
      var w2 := Switched(Popped(w, el), P, w.io.recs[i].pid);
      var d := DispatchTick(w2, P, w2.clock - w2.lastTime);
      && WF(w2, P)
      && (d.Ok? ==> Entered(w, P, el) == Ok(Entry(d.value, i, w.io.recs[i].pid, w2.clock - w2.lastTime)))
      && (d.Err? ==> Entered(w, P, el) == Err(d.message))
  {
    hide DispatchTick, IOProcessed, DrainFinished;
  }

  /** `Entered` once the I/O tick of the dispatch path is known to give `r`. */
  lemma EnteredIs(w: World, P: Params, el: nat, w2: World, r: World)
    requires WF(w, P) && 1 <= el < |w.levels| && w.levels[el] != [] && w.levels[el][0] < |w.io.recs|
    requires w2 == Switched(Popped(w, el), P, w.io.recs[w.levels[el][0]].pid) && WF(w2, P)
    requires DispatchTick(w2, P, w2.clock - w2.lastTime) == Ok(r)
    ensures Entered(w, P, el) == Ok(Entry(r, w.levels[el][0], w.io.recs[w.levels[el][0]].pid, w2.clock - w2.lastTime))
  {
    hide DispatchTick;
  }

  /**
   * The loop body up to the slice, from a loop head: it does not fail, and it
   * holds the popped READY block of priority `el` in flight with its record intact.
   */
  lemma EnteredKeeps(w: World, P: Params, el: nat)
    requires Inv(w, P) && 1 <= el < |w.levels| && w.levels[el] != []
    ensures Entered(w, P, el).Ok?
    ensures var e := Entered(w, P, el).value;
      && e.i == w.levels[el][0] && e.i < |w.io.recs| && e.i < |e.world.io.recs| && e.pid == w.io.recs[e.i].pid
      && e.world.io.recs[e.i] == w.io.recs[e.i]
      && w.io.recs[e.i].state == Ready && w.io.recs[e.i].remainingTime > 0 && w.io.recs[e.i].prio == el
      && WF(e.world, P) && Core(e.world.io, P) && Owned(e.world.io, e.world.levels, P, {e.i}, {})
      && e.world.io.finished == []
      && SameWork(w.io.recs, e.world.io.recs)
  {
    hide Entered, DispatchTick, IOProcessed;
    var i := w.levels[el][0];
    PopKeeps(w.io, w.levels, P, el);
    var w2 := Switched(Popped(w, el), P, w.io.recs[i].pid);
    var r := DispatchTickKeeps(w2, P, w2.clock - w2.lastTime, i);
    EnteredIs(w, P, el, w2, r);
  }

  // ----------------------------------------------------------------- slice

  /** One slice of a READY block with work left runs a positive amount and keeps its record sound. */
  lemma SliceRecord(p: ProcessRecord, P: Params)
    requires RecordOk(p, P) && p.state == Ready && p.remainingTime > 0 && 0 < P.timeQuantum
    ensures var x := Executed(p, P.timeQuantum);
      && x.elapsed == ComputeExecuteTime(p, P.timeQuantum) && x.elapsed > 0
      && RecordOk(x.record, P) && x.record.pid == p.pid && x.record.prio == p.prio
      && x.record.remainingTime == p.remainingTime - x.elapsed && x.record.remainingTime >= 0
      && x.record.state != Running && (x.record.state == Finished <==> x.record.remainingTime == 0)
  {
  }

  /** `recordFirstResponse` and `execute` on the block in flight. */
  lemma SliceKeeps(w: World, P: Params, i: nat)
    requires WF(w, P) && Core(w.io, P) && i < |w.io.recs| && Owned(w.io, w.levels, P, {i}, {})
    requires w.io.recs[i].state == Ready && w.io.recs[i].remainingTime > 0
    ensures var x := Ran(Responded(w, P, i), P, i); var r := x.world.io.recs[i];
      && x.world.levels == w.levels && x.world.io.queue == w.io.queue && x.world.io.finished == w.io.finished
      && Core(x.world.io, P) && Owned(x.world.io, x.world.levels, P, {i}, {})
      && x.elapsed == ComputeExecuteTime(w.io.recs[i], P.timeQuantum) && x.elapsed > 0
      && Spent(w.io.recs, x.world.io.recs, i, x.elapsed)
      && r.prio == w.io.recs[i].prio && r.state != Running
      && (r.state == Finished <==> r.remainingTime == 0) && r.remainingTime >= 0
  {
    var p := w.io.recs[i];
    assert RecordOk(p, P);
    var p1 := Responded(w, P, i).io.recs[i];
    assert Responded(w, P, i).io == w.io.(recs := w.io.recs[i := p1]);
    SliceRecord(p1, P);
    var x := Executed(p1, P.timeQuantum);
    assert w.io.recs[i := p1][i := x.record] == w.io.recs[i := x.record];
    InFlightUpdate(w.io, w.levels, P, i, x.record, {i});
    CoreUpdate(w.io, P, i, x.record);
  }

  // --------------------------------------------------------------- routing

  /** `addProcess` of a block entering I/O, then `updateIO`, files it in the I/O queue. */
  lemma EnqueueKeeps(v: IoView, levels: seq<seq<nat>>, P: Params, i: nat)
    requires Shaped(v, levels, P) && Core(v, P) && i < |v.recs| && Owned(v, levels, P, {i}, {})
    requires v.recs[i].state == WaitingIO && v.recs[i].remainingTime > 0 && i !in v.queue
    ensures var u := IOUpdated(v.(queue := v.queue + [i]));
      && Shaped(u, levels, P) && Core(u, P) && Owned(u, levels, P, {}, {})
      && u.finished == v.finished && SameWork(v.recs, u.recs)
  {
    hide IOUpdated, StartAll;
    var v1 := v.(queue := v.queue + [i]);
    UpdateIOEffect(v1);
    var u := IOUpdated(v1);
    NoDuplicatesAppend(v.queue, i);
    assert RecordOk(v.recs[i], P);
    forall j | 0 <= j < |v.recs|
      ensures u.recs[j] == if j in v1.queue then IOStarted(v.recs[j]) else v.recs[j]
      ensures RecordOk(v.recs[j], P)
    {
      assert RecordOk(v.recs[j], P);
      if j in v.queue {
        var k :| 0 <= k < |v.queue| && v.queue[k] == j;
        assert InIO(v, {i}, v.queue[k]);
      }
    }
    forall l, k | 0 <= l < |levels| && 0 <= k < |levels[l]|
      ensures InLevel(u, {}, {}, levels[l][k], l)
    {
      assert InLevel(v, {i}, {}, levels[l][k], l);
    }
    forall k | 0 <= k < |u.queue|
      ensures InIO(u, {}, u.queue[k])
    {
      if k < |v.queue| {
        assert InIO(v, {i}, v.queue[k]);
      }
    }
    forall j | 0 <= j < |u.recs|
      ensures Accounted(u, levels, {}, j)
    {
      if j != i {
        assert Accounted(v, levels, {}, j);
      }
    }
  }

  /** The routing after the slice files the block again, or releases it once finished. */
  lemma RouteKeeps(w: World, P: Params, i: nat, el: nat, elapsed: int)
    requires WF(w, P) && Core(w.io, P) && i < |w.io.recs| && Owned(w.io, w.levels, P, {i}, {})
    requires 1 <= el < |w.levels| && w.io.recs[i].prio == el && elapsed > 0
    requires var r := w.io.recs[i];
      r.state != Running && (r.state == Finished <==> r.remainingTime == 0) && r.remainingTime >= 0
    ensures Routed(w, P, i, el, elapsed).Ok?
    ensures var r := Routed(w, P, i, el, elapsed).value;
      && Core(r.io, P) && Owned(r.io, r.levels, P, {}, {}) && r.io.finished == w.io.finished
      && SameWork(w.io.recs, r.io.recs)
  {
    var p := w.io.recs[i];
    forall k | 0 <= k < |w.io.queue|
      ensures w.io.queue[k] != i && w.io.recs[w.io.queue[k]].pid != p.pid
    {
      assert InIO(w.io, {i}, w.io.queue[k]);
    }
    if p.state == WaitingIO {
      assert !HasPid(w.io.recs, w.io.queue, p.pid);
      EnqueueKeeps(w.io, w.levels, P, i);
    } else if p.state == Ready {
      Joined(i);
      PushKeeps(w, P, el, i, {}, {});
    } else {
      Release(w.io, w.levels, P, i);
    }
  }

  // ----------------------------------------------------------------- aging

  /** Phase 1, one block at a time. */
  lemma {:induction false} AgePassAt(recs: seq<ProcessRecord>, levels: seq<seq<nat>>, runPid: int,
                                     delta: int, n: nat, j: nat)
    requires n <= |recs| && j < |recs|
    ensures AgePass(recs, levels, runPid, delta, n).recs[j] ==
      if j < n && AgingCandidate(recs[j], j, levels, runPid) then Aged(recs[j], delta).record else recs[j]
    decreases n
  {
    if n > 0 {
      AgePassAt(recs, levels, runPid, delta, n - 1, j);
      AgePassAt(recs, levels, runPid, delta, n - 1, n - 1);
    }
  }

  /** Phase 1 collects exactly the promoted candidates, each once. */
  lemma {:induction false} AgePassAged(recs: seq<ProcessRecord>, levels: seq<seq<nat>>, runPid: int,
                                       delta: int, n: nat)
    requires n <= |recs|
    ensures var a := AgePass(recs, levels, runPid, delta, n);
      && NoDuplicates(a.aged)
      && forall x: nat :: x in a.aged <==>
           x < n && AgingCandidate(recs[x], x, levels, runPid) && Aged(recs[x], delta).promoted
    decreases n
  {
    if n > 0 {
      AgePassAged(recs, levels, runPid, delta, n - 1);
      AgePassAt(recs, levels, runPid, delta, n - 1, n - 1);
      var prev := AgePass(recs, levels, runPid, delta, n - 1);
      NoDuplicatesAppend(prev.aged, n - 1);
    }
  }

  /** Block `j` after the first aging pass, given the invariant before it. */
  lemma Phase1At(v: IoView, levels: seq<seq<nat>>, P: Params, runPid: int, delta: int, j: nat)
    requires Shaped(v, levels, P) && Core(v, P) && Owned(v, levels, P, {}, {}) && j < |v.recs|
    ensures var a := AgePass(v.recs, levels, runPid, delta, |v.recs|);
      var u := v.(recs := a.recs);
      var moved := {} + Elems(a.aged);
      && a.recs[j] == (if AgingCandidate(v.recs[j], j, levels, runPid) then Aged(v.recs[j], delta).record else v.recs[j])
      && RecordOk(a.recs[j], P) && a.recs[j].pid == v.recs[j].pid
      && Accounted(v, levels, {}, j) && Home(u, moved, j) == Home(v, {}, j)
      && a.recs[j].state == v.recs[j].state && a.recs[j].remainingTime == v.recs[j].remainingTime
      && (AgingCandidate(v.recs[j], j, levels, runPid) ==> v.recs[j].state == Ready)
  {
    hide AgePass;
    var n := |v.recs|;
    AgePassAged(v.recs, levels, runPid, delta, n);
    AgePassAt(v.recs, levels, runPid, delta, n, j);
    assert RecordOk(v.recs[j], P);
    assert Accounted(v, levels, {}, j);
    if AgingCandidate(v.recs[j], j, levels, runPid) {
      var p := v.recs[j].prio;
      var k :| 0 <= k < |levels[p]| && levels[p][k] == j;
      assert InLevel(v, {}, {}, levels[p][k], p);
    }
  }

  /**
   * After phase 1 every promoted block still sits at its old priority's level,
   * which the invariant allows by listing it in `moved`.
   */
  lemma Phase1Owned(v: IoView, levels: seq<seq<nat>>, P: Params, runPid: int, delta: int)
    requires Shaped(v, levels, P) && Core(v, P) && Owned(v, levels, P, {}, {})
    ensures var a := AgePass(v.recs, levels, runPid, delta, |v.recs|); var u := v.(recs := a.recs);
      && Shaped(u, levels, P) && Core(u, P) && Owned(u, levels, P, {}, {} + Elems(a.aged))
      && SameWork(v.recs, a.recs) && NoDuplicates(a.aged)
      && (forall k :: 0 <= k < |a.aged| ==>
            a.aged[k] < |a.recs| && a.recs[a.aged[k]].state == Ready && a.recs[a.aged[k]].remainingTime > 0)
  {
    hide AgePass;
    var n := |v.recs|;
    var a := AgePass(v.recs, levels, runPid, delta, n);
    var u := v.(recs := a.recs);
    var moved := {} + Elems(a.aged);
    AgePassAged(v.recs, levels, runPid, delta, n);
    forall j | 0 <= j < n
      ensures a.recs[j] == if AgingCandidate(v.recs[j], j, levels, runPid) then Aged(v.recs[j], delta).record else v.recs[j]
      ensures RecordOk(a.recs[j], P) && a.recs[j].pid == v.recs[j].pid
      ensures Accounted(v, levels, {}, j) && Home(u, moved, j) == Home(v, {}, j)
      ensures a.recs[j].state == v.recs[j].state && a.recs[j].remainingTime == v.recs[j].remainingTime
      ensures AgingCandidate(v.recs[j], j, levels, runPid) ==> v.recs[j].state == Ready
    {
      Phase1At(v, levels, P, runPid, delta, j);
    }
    forall l, k | 0 <= l < |levels| && 0 <= k < |levels[l]|
      ensures InLevel(u, {}, moved, levels[l][k], l)
    {
      assert InLevel(v, {}, {}, levels[l][k], l);
    }
    forall k | 0 <= k < |u.queue|
      ensures InIO(u, {}, u.queue[k])
    {
      assert InIO(v, {}, v.queue[k]);
    }
  }

  /** Phase 2, removal, on the levels: what is left of them is still filed correctly. */
  lemma RemoveLevels(v: IoView, levels: seq<seq<nat>>, P: Params, id: nat, M: set<nat>)
    requires Shaped(v, levels, P) && id < |v.recs| && id !in M && Owned(v, levels, P, {}, M + {id})
    requires v.recs[id].state == Ready && v.recs[id].remainingTime > 0
    ensures 0 <= v.recs[id].oldPrio < |levels| && id in levels[v.recs[id].oldPrio]
    ensures var o := v.recs[id].oldPrio; var ls := levels[o := RemoveFirst(levels[o], id)];
      && Shaped(v, ls, P)
      && (forall l :: 0 <= l < |ls| ==> NoDuplicates(ls[l]))
      && (forall l, k :: 0 <= l < |ls| && 0 <= k < |ls[l]| ==> InLevel(v, {id}, M, ls[l][k], l))
      && (forall x :: x in ls[o] <==> x in levels[o] && x != id)
  {
    var o := v.recs[id].oldPrio;
    assert Accounted(v, levels, M + {id}, id);
    RemoveFirstMembers(levels[o], id);
    var ls := levels[o := RemoveFirst(levels[o], id)];
    forall l, k | 0 <= l < |ls| && 0 <= k < |ls[l]|
      ensures InLevel(v, {id}, M, ls[l][k], l)
    {
      var x := ls[l][k];
      if l == o {
        assert x in RemoveFirst(levels[o], id);
        var k' :| 0 <= k' < |levels[o]| && levels[o][k'] == x;
        assert InLevel(v, {}, M + {id}, levels[o][k'], o);
      } else {
        assert InLevel(v, {}, M + {id}, levels[l][k], l);
      }
    }
  }

  /** Phase 2, removal: the block leaves its old level and is in flight. */
  lemma RemoveKeeps(v: IoView, levels: seq<seq<nat>>, P: Params, id: nat, M: set<nat>)
    requires Shaped(v, levels, P) && id < |v.recs| && id !in M && Owned(v, levels, P, {}, M + {id})
    requires v.recs[id].state == Ready && v.recs[id].remainingTime > 0
    ensures 0 <= v.recs[id].oldPrio < |levels|
    ensures var o := v.recs[id].oldPrio; var ls := levels[o := RemoveFirst(levels[o], id)];
      Shaped(v, ls, P) && Owned(v, ls, P, {id}, M)
  {
    RemoveLevels(v, levels, P, id, M);
    var o := v.recs[id].oldPrio;
    var ls := levels[o := RemoveFirst(levels[o], id)];
    forall k | 0 <= k < |v.queue|
      ensures InIO(v, {id}, v.queue[k])
    {
      assert InIO(v, {}, v.queue[k]);
    }
    forall j | 0 <= j < |v.recs| && j !in {id}
      ensures Accounted(v, ls, M, j)
    {
      assert Accounted(v, levels, M + {id}, j);
    }
  }

  /** Phase 2 for one promoted block: off its old level, onto the tail of its new one. */
  lemma MoveKeeps(w: World, P: Params, id: nat, M: set<nat>)
    requires WF(w, P) && Core(w.io, P) && id < |w.io.recs| && id !in M
    requires Owned(w.io, w.levels, P, {}, M + {id})
    requires w.io.recs[id].state == Ready && w.io.recs[id].remainingTime > 0
    requires 0 <= w.io.recs[id].prio < |w.levels|
    ensures 0 <= w.io.recs[id].oldPrio < |w.levels|
    ensures var rec := w.io.recs[id];
      var w2 := w.(levels := w.levels[rec.oldPrio := RemoveFirst(w.levels[rec.oldPrio], id)]);
      && WF(w2, P) && PushLevel(w2, P, rec.prio, id).Ok?
      && PushLevel(w2, P, rec.prio, id).value.io == w.io
      && Owned(w.io, PushLevel(w2, P, rec.prio, id).value.levels, P, {}, M)
  {
    RemoveKeeps(w.io, w.levels, P, id, M);
    var rec := w.io.recs[id];
    var w2 := w.(levels := w.levels[rec.oldPrio := RemoveFirst(w.levels[rec.oldPrio], id)]);
    Joined(id);
    PushKeeps(w2, P, rec.prio, id, {}, M);
  }

  /** Phase 2 over the promoted list: every block ends at its new priority's level. */
  lemma {:induction false} MigrateKeeps(w: World, P: Params, aged: seq<nat>, M: set<nat>)
    requires WF(w, P) && Core(w.io, P) && MovesInRange(w.io.recs, aged, |w.levels|) && NoDuplicates(aged)
    requires forall k :: 0 <= k < |aged| ==>
      aged[k] !in M && w.io.recs[aged[k]].state == Ready && w.io.recs[aged[k]].remainingTime > 0
    requires Owned(w.io, w.levels, P, {}, M + Elems(aged))
    ensures Migrate(w, P, aged).Ok?
    ensures Migrate(w, P, aged).value.io == w.io
    ensures Owned(w.io, Migrate(w, P, aged).value.levels, P, {}, M)
    decreases |aged|
  {
    hide Owned, Core;
    if aged == [] {
      assert M + Elems(aged) == M;
    } else {
      var init := aged[..|aged| - 1];
      var id := aged[|aged| - 1];
      NoDuplicatesPrefix(aged);
      assert aged == init + [id];
      assert (M + {id}) + Elems(init) == M + Elems(aged);
      assert MovesInRange(w.io.recs, init, |w.levels|);
      MigrateKeeps(w, P, init, M + {id});
      var w1 := Migrate(w, P, init).value;
      MoveKeeps(w1, P, id, M);
    }
  }

  /** `updateQueuesAfterAging` keeps the invariant and every block's remaining work. */
  lemma AgingKeeps(w: World, P: Params, runPid: int, delta: int)
    requires WF(w, P) && Core(w.io, P) && Owned(w.io, w.levels, P, {}, {})
    ensures QueuesAfterAging(w, P, runPid, delta).Ok?
    ensures var r := QueuesAfterAging(w, P, runPid, delta).value;
      && r.io.queue == w.io.queue && r.io.finished == w.io.finished && r.clock == w.clock
      && Core(r.io, P) && Owned(r.io, r.levels, P, {}, {}) && SameWork(w.io.recs, r.io.recs)
  {
    var a := AgePass(w.io.recs, w.levels, runPid, delta, |w.io.recs|);
    AgePassInRange(w.io.recs, w.levels, runPid, delta, |w.io.recs|, P.maxPriority);
    Phase1Owned(w.io, w.levels, P, runPid, delta);
    MigrateKeeps(w.(io := w.io.(recs := a.recs)), P, a.aged, {});
  }
}
