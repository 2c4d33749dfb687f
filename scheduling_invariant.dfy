/**
 * The ownership invariant of the dispatch loop and its preservation by the
 * queue moves and the I/O tick.
 *
 * At every loop head each unfinished block's index sits in exactly one place:
 * the ready queue of its priority (when READY) or the I/O queue (when waiting);
 * a finished block is in neither.  `Owned` states this with two relaxations the
 * loop body passes through: indices in `out` are in flight (held by the loop,
 * in no queue) and indices in `moved` sit at `oldPrio` instead of `prio`
 * (promoted by aging, not yet migrated).  The predicates take the I/O view and
 * the levels rather than the whole world, since the clock plays no part.
 */
module SchedulingInvariant {
  import opened Wrappers
  import opened Pcb
  import opened IO
  import opened ReadyQueues
  import opened Scheduling

  /** What every block keeps at every loop head. */
  predicate RecordOk(r: ProcessRecord, P: Params)
  {
    && 1 <= r.prio <= P.maxPriority
    && Conserved(r)
    && (r.ioBound ==> 0 < r.ioInterval <= INT_MAX)
    && (r.state == Ready && r.ioBound ==> r.cpuUsed < r.ioInterval)
    && (r.state == WaitingIO ==> r.ioBound)
  }

  predicate DistinctPids(recs: seq<ProcessRecord>)
  {
    forall i, j :: 0 <= i < j < |recs| ==> recs[i].pid != recs[j].pid
  }

  predicate Core(v: IoView, P: Params)
  {
    && 0 < P.timeQuantum
    && |v.recs| <= P.capacity
    && DistinctPids(v.recs)
    && (forall j :: 0 <= j < |v.recs| ==> RecordOk(v.recs[j], P))
  }

  /** The level block j is filed under. */
  function Home(v: IoView, moved: set<nat>, j: nat): int
    requires j < |v.recs|
  {
    if j in moved then v.recs[j].oldPrio else v.recs[j].prio
  }

  predicate InLevel(v: IoView, out: set<nat>, moved: set<nat>, j: nat, l: nat)
    requires j < |v.recs|
  {
    j !in out && l == Home(v, moved, j) && v.recs[j].state == Ready && v.recs[j].remainingTime > 0
  }

  predicate InIO(v: IoView, out: set<nat>, j: nat)
    requires j < |v.recs|
  {
    var r := v.recs[j];
    j !in out && StartsIO(r) && 0 < r.ioRemaining <= r.ioInterval && r.cpuUsed == 0
  }

  predicate Accounted(v: IoView, levels: seq<seq<nat>>, moved: set<nat>, j: nat)
    requires j < |v.recs|
  {
    var r := v.recs[j];
    var h := Home(v, moved, j);
    if r.remainingTime > 0 then
      (r.state == Ready && 0 <= h < |levels| && j in levels[h]) || (r.state == WaitingIO && j in v.queue)
    else r.state == Finished
  }

  predicate Owned(v: IoView, levels: seq<seq<nat>>, P: Params, out: set<nat>, moved: set<nat>)
    requires Shaped(v, levels, P)
  {
    && (forall l :: 0 <= l < |levels| ==> NoDuplicates(levels[l]))
    && NoDuplicates(v.queue)
    && (forall l, k :: 0 <= l < |levels| && 0 <= k < |levels[l]| ==> InLevel(v, out, moved, levels[l][k], l))
    && (forall k :: 0 <= k < |v.queue| ==> InIO(v, out, v.queue[k]))
    && (forall j :: 0 <= j < |v.recs| && j !in out ==> Accounted(v, levels, moved, j))
  }

  /** The loop-head invariant. */
  predicate Inv(w: World, P: Params)
  {
    && WF(w, P)
    && Core(w.io, P)
    && Owned(w.io, w.levels, P, {}, {})
    && w.io.finished == []
    && w.lastTime == w.clock
  }

  /** Same remaining work, block by block. */
  predicate SameWork(a: seq<ProcessRecord>, b: seq<ProcessRecord>)
  {
    |a| == |b| && forall j :: 0 <= j < |a| ==> a[j].remainingTime == b[j].remainingTime
  }

  // ------------------------------------------------------------ counting

  lemma NoDuplicatesAppend(s: seq<nat>, x: nat)
    requires NoDuplicates(s) && x !in s
    ensures NoDuplicates(s + [x])
  {
  }

  /** The entries of a queue, as a set. */
  function Elems(s: seq<nat>): (e: set<nat>)
    ensures forall x :: x in e <==> x in s
    decreases |s|
  {
    if s == [] then {}
    else
      assert s == s[..|s| - 1] + [s[|s| - 1]];
      Elems(s[..|s| - 1]) + {s[|s| - 1]}
  }

  lemma {:induction false} DistinctCard(s: seq<nat>)
    requires NoDuplicates(s)
    ensures |Elems(s)| == |s|
    decreases |s|
  {
    if s != [] {
      NoDuplicatesPrefix(s);
      DistinctCard(s[..|s| - 1]);
    }
  }

  /** The indices below n. */
  function Below(n: nat): (e: set<nat>)
    ensures forall x: nat :: x in e <==> x < n
    ensures |e| == n
    decreases n
  {
    if n == 0 then {} else Below(n - 1) + {n - 1}
  }

  lemma {:induction false} SubsetCard(a: set<nat>, b: set<nat>)
    requires a <= b
    ensures |a| <= |b|
    decreases |a|
  {
    if a != {} {
      var x :| x in a;
      SubsetCard(a - {x}, b - {x});
    }
  }

  /** A queue without duplicates over indices below n that misses x holds fewer than n entries. */
  lemma RoomFor(s: seq<nat>, n: nat, x: nat)
    requires NoDuplicates(s) && Indices(s, n) && x < n && x !in s
    ensures |s| < n
  {
    DistinctCard(s);
    var e := Elems(s);
    var a := e + {x};
    assert x !in e;
    assert |a| == |s| + 1;
    SubsetCard(a, Below(n));
  }

  /**
   * A level owned by the invariant holds at most one entry per block, so the
   * remove of the ready queue as written (`ReadyQueue.RemoveAsWritten`) shifts
   * without wrapping onto live slots whenever the queue has room for twice the
   * pool less two: then it removes exactly what `RemoveFirst` removes.
   */
  lemma RemoveAsWrittenAgrees(v: IoView, levels: seq<seq<nat>>, P: Params, out: set<nat>, moved: set<nat>,
                              l: nat, id: nat, slots: nat)
    requires Shaped(v, levels, P) && Owned(v, levels, P, out, moved) && l < |levels| && id in levels[l]
    requires 2 * |v.recs| <= slots + 2
    ensures FirstIndex(levels[l], id) + |levels[l]| <= slots + 1
  {
    DistinctCard(levels[l]);
    SubsetCard(Elems(levels[l]), Below(|v.recs|));
  }

  /** A sequence that picks entries of a duplicate-free one at increasing positions is duplicate-free. */
  lemma NoDuplicatesSkip(s: seq<nat>, r: seq<nat>, k: nat)
    requires NoDuplicates(s) && k < |s| && |r| == |s| - 1
    requires forall i :: 0 <= i < k && i < |r| ==> r[i] == s[i]
    requires forall i :: k <= i < |r| ==> r[i] == s[i + 1]
    ensures NoDuplicates(r)
  {
    forall i, j | 0 <= i < j < |r|
      ensures r[i] != r[j]
    {
      var a := if i < k then i else i + 1;
      var b := if j < k then j else j + 1;
      assert r[i] == s[a] && r[j] == s[b] && a < b;
    }
  }

  /** Removing a present entry from a queue without duplicates. */
  lemma RemoveFirstMembers(s: seq<nat>, v: nat)
    requires NoDuplicates(s) && v in s
    ensures NoDuplicates(RemoveFirst(s, v))
    ensures forall x :: x in RemoveFirst(s, v) <==> x in s && x != v
  {
    var k := FirstIndex(s, v);
    var r := RemoveFirst(s, v);
    hide RemoveFirst, FirstIndex, NoDuplicates;
    NoDuplicatesSkip(s, r, k);
    forall x
      ensures x in r <==> x in s && x != v
    {
      if x in s && x != v {
        var m :| 0 <= m < |s| && s[m] == x;
        if m < k { assert r[m] == x; } else { assert m != k; assert r[m - 1] == x; }
      }
      if x in r {
        var m :| 0 <= m < |r| && r[m] == x;
        if m < k { assert x == s[m]; } else { assert x == s[m + 1]; }
      }
    }
  }

  // --------------------------------------------------------- queue moves

  /** A READY block is not in the I/O queue. */
  lemma ReadyNotQueued(v: IoView, levels: seq<seq<nat>>, P: Params, out: set<nat>, moved: set<nat>, x: nat)
    requires Shaped(v, levels, P) && Owned(v, levels, P, out, moved) && x < |v.recs| && v.recs[x].state == Ready
    ensures x !in v.queue
  {
    forall k | 0 <= k < |v.queue|
      ensures v.queue[k] != x
    {
      assert InIO(v, out, v.queue[k]);
    }
  }

  /** Pushing an in-flight READY block onto its own level files it there. */
  lemma PushKeeps(w: World, P: Params, l: nat, j: nat, out: set<nat>, moved: set<nat>)
    requires WF(w, P) && Core(w.io, P) && l < |w.levels| && j < |w.io.recs|
    requires j !in out && Owned(w.io, w.levels, P, out + {j}, moved)
    requires w.io.recs[j].state == Ready && w.io.recs[j].remainingTime > 0 && Home(w.io, moved, j) == l
    ensures PushLevel(w, P, l, j).Ok?
    ensures PushLevel(w, P, l, j).value.io == w.io
    ensures Owned(w.io, PushLevel(w, P, l, j).value.levels, P, out, moved)
  {
    var q := w.levels[l];
    forall k | 0 <= k < |q|
      ensures q[k] != j
    {
      assert InLevel(w.io, out + {j}, moved, w.levels[l][k], l);
    }
    RoomFor(q, |w.io.recs|, j);
    var ls := PushLevel(w, P, l, j).value.levels;
    NoDuplicatesAppend(q, j);
    assert ls[l] == q + [j];
    forall m, k | 0 <= m < |ls| && 0 <= k < |ls[m]|
      ensures InLevel(w.io, out, moved, ls[m][k], m)
    {
      if m != l || k < |q| {
        assert ls[m][k] == w.levels[m][k];
        assert InLevel(w.io, out + {j}, moved, w.levels[m][k], m);
      }
    }
    forall k | 0 <= k < |w.io.queue|
      ensures InIO(w.io, out, w.io.queue[k])
    {
      assert InIO(w.io, out + {j}, w.io.queue[k]);
    }
    forall x | 0 <= x < |w.io.recs| && x !in out
      ensures Accounted(w.io, ls, moved, x)
    {
      if x != j {
        assert Accounted(w.io, w.levels, moved, x);
      } else {
        assert j in ls[l];
      }
    }
  }

  /** The requeue fold files every listed in-flight block. */
  lemma {:induction false} RequeueKeeps(w: World, P: Params, fin: seq<nat>, readyOnly: bool,
                                        out: set<nat>, moved: set<nat>)
    requires WF(w, P) && Core(w.io, P) && Indices(fin, |w.io.recs|) && NoDuplicates(fin)
    requires forall k :: 0 <= k < |fin| ==>
      fin[k] !in out && fin[k] !in moved && w.io.recs[fin[k]].state == Ready && w.io.recs[fin[k]].remainingTime > 0
    requires Owned(w.io, w.levels, P, out + Elems(fin), moved)
    ensures RequeueFinished(w, P, fin, readyOnly).Ok?
    ensures Owned(w.io, RequeueFinished(w, P, fin, readyOnly).value.levels, P, out, moved)
    decreases |fin|
  {
    hide Owned, Core, PushLevel;
    if fin == [] {
      assert out + Elems(fin) == out;
    } else {
      var init := fin[..|fin| - 1];
      var last := fin[|fin| - 1];
      NoDuplicatesPrefix(fin);
      assert fin == init + [last];
      assert (out + {last}) + Elems(init) == out + Elems(fin);
      RequeueKeeps(w, P, init, readyOnly, out + {last}, moved);
      var w1 := RequeueFinished(w, P, init, readyOnly).value;
      assert w1.io == w.io;
      PushKeeps(w1, P, w1.io.recs[last].prio, last, out, moved);
    }
  }

  /** The finished list is ready to be requeued: READY blocks with work left, once each. */
  predicate Drainable(v: IoView, out: set<nat>)
    requires WellFormed(v)
  {
    && NoDuplicates(v.finished)
    && forall k :: 0 <= k < |v.finished| ==>
      var x := v.finished[k];
      x !in out && v.recs[x].state == Ready && v.recs[x].remainingTime > 0
  }

  lemma DrainKeeps(w: World, P: Params, readyOnly: bool, out: set<nat>)
    requires WF(w, P) && Core(w.io, P) && Drainable(w.io, out)
    requires Owned(w.io, w.levels, P, out + Elems(w.io.finished), {})
    ensures DrainFinished(w, P, readyOnly).Ok?
    ensures var v := DrainFinished(w, P, readyOnly).value;
      && v.io == w.io.(finished := []) && Owned(v.io, v.levels, P, out, {}) && Core(v.io, P)
  {
    RequeueKeeps(w, P, w.io.finished, readyOnly, out, {});
  }

  // -------------------------------------------------------------- I/O tick

  /** `processIO` on a queue of waiting blocks, described block by block. */
  ghost predicate TickedShape(u: IoView, v: IoView, d: int)
    requires WellFormed(u)
  {
    && |v.recs| == |u.recs| && WellFormed(v)
    && (forall x :: x in v.finished ==> x in u.queue)
    && (forall j :: 0 <= j < |u.recs| ==>
          v.recs[j] == if j in v.finished then IOReset(Tick(u.recs[j], d))
                       else if j in u.queue then Tick(u.recs[j], d) else u.recs[j])
    && (forall x :: x in v.queue <==> x in u.queue && x !in v.finished)
    && (forall x :: x in v.queue ==> v.recs[x].ioRemaining > 0)
    && NoDuplicates(v.queue) && NoDuplicates(v.finished)
    && (forall k :: 0 <= k < |u.queue| && Tick(u.recs[u.queue[k]], d).ioRemaining <= 0 ==>
          u.queue[k] in v.finished)
  }

  lemma TickShape(u: IoView, levels: seq<seq<nat>>, P: Params, d: int, out: set<nat>)
    requires Shaped(u, levels, P) && Owned(u, levels, P, out, {}) && u.finished == [] && 0 <= d && u.queue != []
    ensures TickedShape(u, IOProcessed(u, d), d)
  {
    ProcessIOEffect(u, d);
    var v := IOProcessed(u, d);
    assert v.finished == Expired(u.recs, u.queue, d);
    forall x | x in u.queue
      ensures u.recs[x].state == WaitingIO
    {
      var k :| 0 <= k < |u.queue| && u.queue[k] == x;
      assert InIO(u, out, u.queue[k]);
    }
  }

  lemma TickRecordsOk(u: IoView, levels: seq<seq<nat>>, P: Params, v: IoView, d: int, out: set<nat>)
    requires Shaped(u, levels, P) && Core(u, P) && Owned(u, levels, P, out, {}) && TickedShape(u, v, d) && 0 <= d
    ensures Core(v, P) && SameWork(u.recs, v.recs)
    ensures forall j :: 0 <= j < |v.recs| ==> v.recs[j].prio == u.recs[j].prio
  {
    forall j | 0 <= j < |u.recs|
      ensures RecordOk(v.recs[j], P) && v.recs[j].remainingTime == u.recs[j].remainingTime
      ensures v.recs[j].pid == u.recs[j].pid && v.recs[j].prio == u.recs[j].prio
    {
      assert RecordOk(u.recs[j], P);
      if j in u.queue {
        var k :| 0 <= k < |u.queue| && u.queue[k] == j;
        assert InIO(u, out, u.queue[k]);
      }
    }
  }

  lemma TickQueueOwned(u: IoView, levels: seq<seq<nat>>, P: Params, v: IoView, d: int, out: set<nat>)
    requires Shaped(u, levels, P) && Owned(u, levels, P, out, {}) && TickedShape(u, v, d) && 0 <= d
    ensures forall k :: 0 <= k < |v.queue| ==> InIO(v, out + Elems(v.finished), v.queue[k])
  {
    forall k | 0 <= k < |v.queue|
      ensures InIO(v, out + Elems(v.finished), v.queue[k])
    {
      var x := v.queue[k];
      assert x in v.queue;
      var k' :| 0 <= k' < |u.queue| && u.queue[k'] == x;
      assert InIO(u, out, u.queue[k']);
    }
  }

  lemma TickLevelsOwned(u: IoView, levels: seq<seq<nat>>, P: Params, v: IoView, d: int, out: set<nat>)
    requires Shaped(u, levels, P) && Owned(u, levels, P, out, {}) && TickedShape(u, v, d) && 0 <= d
    ensures Shaped(v, levels, P) ==>
      forall l, k :: 0 <= l < |levels| && 0 <= k < |levels[l]| ==>
        InLevel(v, out + Elems(v.finished), {}, levels[l][k], l)
  {
    forall l, k | 0 <= l < |levels| && 0 <= k < |levels[l]|
      ensures levels[l][k] !in u.queue && v.recs[levels[l][k]] == u.recs[levels[l][k]]
    {
      var x := levels[l][k];
      assert InLevel(u, out, {}, x, l);
      ReadyNotQueued(u, levels, P, out, {}, x);
    }
  }

  lemma TickAccounted(u: IoView, levels: seq<seq<nat>>, P: Params, v: IoView, d: int, out: set<nat>)
    requires Shaped(u, levels, P) && Owned(u, levels, P, out, {}) && TickedShape(u, v, d) && 0 <= d
    ensures Shaped(v, levels, P) ==>
      forall j :: 0 <= j < |v.recs| && j !in out + Elems(v.finished) ==> Accounted(v, levels, {}, j)
  {
    forall j | 0 <= j < |v.recs| && j !in out + Elems(v.finished)
      ensures v.recs[j] == (if j in u.queue then Tick(u.recs[j], d) else u.recs[j])
      ensures j in u.queue ==> j in v.queue && u.recs[j].state == WaitingIO && u.recs[j].remainingTime > 0
      ensures Accounted(u, levels, {}, j)
    {
      assert Accounted(u, levels, {}, j);
      if j in u.queue {
        var k' :| 0 <= k' < |u.queue| && u.queue[k'] == j;
        assert InIO(u, out, u.queue[k']);
      }
    }
  }

  lemma TickFinished(u: IoView, levels: seq<seq<nat>>, P: Params, v: IoView, d: int, out: set<nat>)
    requires Shaped(u, levels, P) && Owned(u, levels, P, out, {}) && TickedShape(u, v, d) && 0 <= d
    ensures Drainable(v, out)
  {
    forall k | 0 <= k < |v.finished|
      ensures var x := v.finished[k]; x !in out && v.recs[x].state == Ready && v.recs[x].remainingTime > 0
    {
      var x := v.finished[k];
      assert x in v.finished;
      var k' :| 0 <= k' < |u.queue| && u.queue[k'] == x;
      assert InIO(u, out, u.queue[k']);
    }
  }

  /**
   * Ticking the I/O queue keeps the invariant, with the expired blocks (now
   * READY, work left, in no queue) in flight until they are requeued.
   */
  lemma TickOwned(u: IoView, levels: seq<seq<nat>>, P: Params, d: int, out: set<nat>)
    requires Shaped(u, levels, P) && Core(u, P) && Owned(u, levels, P, out, {}) && u.finished == [] && 0 <= d
    ensures var v := IOProcessed(u, d);
      && Shaped(v, levels, P) && Core(v, P) && Drainable(v, out)
      && Owned(v, levels, P, out + Elems(v.finished), {})
      && SameWork(u.recs, v.recs)
      && (forall k :: 0 <= k < |u.queue| && Tick(u.recs[u.queue[k]], d).ioRemaining <= 0 ==>
            u.queue[k] in v.finished)
      && (forall j :: 0 <= j < |u.recs| && j !in u.queue ==> v.recs[j] == u.recs[j])
  {
    hide IOProcessed, Core;
    var v := IOProcessed(u, d);
    if u.queue != [] {
      TickShape(u, levels, P, d, out);
      TickRecordsOk(u, levels, P, v, d, out);
      TickQueueOwned(u, levels, P, v, d, out);
      TickLevelsOwned(u, levels, P, v, d, out);
      TickAccounted(u, levels, P, v, d, out);
      TickFinished(u, levels, P, v, d, out);
    } else {
      assert v == u;
      assert out + Elems(v.finished) == out;
    }
  }
}
