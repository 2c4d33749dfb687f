/**
 * The I/O-wait manager: a queue of pool indices whose blocks count down
 * `ioRemaining`, and the list of indices whose countdown has run out.
 *
 * `IoView` is the value the manager and the pool's records form together; the
 * functions over it specify the operations, and class `IOManager` implements
 * them with loops that update the pool's blocks through the queued indices.
 */
module IO {
  import opened Wrappers
  import opened Pcb

  /** The sentinel `getMinRemainingIOTime` starts from (32-bit `INT_MAX`). */
  const INT_MAX: int := 2147483647

  datatype IoView = IoView(recs: seq<ProcessRecord>, queue: seq<nat>, finished: seq<nat>)

  /** Every entry of `q` indexes a pool of `n` blocks. */
  predicate Indices(q: seq<nat>, n: nat)
  {
    forall k :: 0 <= k < |q| ==> q[k] < n
  }

  predicate WellFormed(v: IoView)
  {
    Indices(v.queue, |v.recs|) && Indices(v.finished, |v.recs|)
  }

  predicate NoDuplicates<T(==)>(q: seq<T>)
  {
    forall i, j :: 0 <= i < j < |q| ==> q[i] != q[j]
  }

  lemma NoDuplicatesPrefix<T>(q: seq<T>)
    requires NoDuplicates(q) && q != []
    ensures NoDuplicates(q[..|q| - 1]) && q[|q| - 1] !in q[..|q| - 1]
  {
  }

  /** The fields no I/O operation touches: identity, priorities, work, timing marks. */
  predicate IOUntouched(a: ProcessRecord, b: ProcessRecord)
  {
    && a.pid == b.pid && a.prio == b.prio && a.oldPrio == b.oldPrio
    && a.burstTime == b.burstTime && a.remainingTime == b.remainingTime
    && a.ioBound == b.ioBound && a.ioInterval == b.ioInterval
    && a.completionTime == b.completionTime && a.firstResponse == b.firstResponse
    && a.firstResponseTime == b.firstResponseTime
    && a.agingThreshold == b.agingThreshold && a.timeQuantum == b.timeQuantum
  }

  predicate AllIOUntouched(rs: seq<ProcessRecord>, ts: seq<ProcessRecord>)
  {
    |rs| == |ts| && forall j :: 0 <= j < |rs| ==> IOUntouched(rs[j], ts[j])
  }

  // ---------------------------------------------------------------- updateIO

  /** The guard under which `updateIO` (re)starts a block's I/O countdown. */
  predicate StartsIO(r: ProcessRecord)
  {
    r.state == WaitingIO && r.ioBound && r.remainingTime > 0
  }

  /** The loop of `updateIO` over the queued indices, in queue order. */
  function StartAll(recs: seq<ProcessRecord>, q: seq<nat>): (rs: seq<ProcessRecord>)
    requires Indices(q, |recs|)
    ensures |rs| == |recs| && AllIOUntouched(recs, rs)
    ensures q == [] ==> rs == recs
    decreases |q|
  {
    if q == [] then recs
    else
      var prev := StartAll(recs, q[..|q| - 1]);
      var idx := q[|q| - 1];
      if StartsIO(prev[idx]) then prev[idx := IOStarted(prev[idx])] else prev
  }

  /** One more queue entry: that block is started when it meets the guard. */
  lemma StartAllStep(recs: seq<ProcessRecord>, q: seq<nat>, k: nat)
    requires Indices(q, |recs|) && k < |q|
    ensures var prev := StartAll(recs, q[..k]);
      StartAll(recs, q[..k + 1]) == if StartsIO(prev[q[k]]) then prev[q[k] := IOStarted(prev[q[k]])] else prev
  {
    assert q[..k + 1][..k] == q[..k];
  }

  /** A queued block that meets the guard is started once, whatever its multiplicity. */
  lemma {:induction false} StartAllAt(recs: seq<ProcessRecord>, q: seq<nat>, j: nat)
    requires Indices(q, |recs|) && j < |recs|
    ensures StartAll(recs, q)[j] == if j in q && StartsIO(recs[j]) then IOStarted(recs[j]) else recs[j]
    decreases |q|
  {
    if q != [] {
      var init := q[..|q| - 1];
      assert q == init + [q[|q| - 1]];
      StartAllAt(recs, init, j);
    }
  }

  function IOUpdated(v: IoView): (w: IoView)
    requires WellFormed(v)
    ensures WellFormed(w) && w.queue == v.queue && w.finished == v.finished && AllIOUntouched(v.recs, w.recs)
  {
    if v.queue == [] then v else v.(recs := StartAll(v.recs, v.queue))
  }

  /**
   * `updateIO` starts I/O on every queued block that is waiting, I/O-bound and
   * has work left, including blocks already counting down (their countdown is
   * set back to the full interval), and touches nothing else.
   */
  lemma UpdateIOEffect(v: IoView)
    requires WellFormed(v)
    ensures IOUpdated(v).queue == v.queue && IOUpdated(v).finished == v.finished
    ensures |IOUpdated(v).recs| == |v.recs|
    ensures forall j :: 0 <= j < |v.recs| ==>
      IOUpdated(v).recs[j] == if j in v.queue && StartsIO(v.recs[j]) then IOStarted(v.recs[j]) else v.recs[j]
    ensures forall k :: 0 <= k < |v.queue| && StartsIO(v.recs[v.queue[k]]) ==>
      IOUpdated(v).recs[v.queue[k]].ioRemaining == v.recs[v.queue[k]].ioInterval
  {
    forall j | 0 <= j < |v.recs|
      ensures IOUpdated(v).recs[j] == if j in v.queue && StartsIO(v.recs[j]) then IOStarted(v.recs[j]) else v.recs[j]
    {
      if v.queue != [] {
        StartAllAt(v.recs, v.queue, j);
      }
    }
  }

  // --------------------------------------------------------------- processIO

  /** One tick of `processIO` on one block: the countdown drops by d, never below 0. */
  function Tick(r: ProcessRecord, d: int): (t: ProcessRecord)
    ensures r.ioRemaining > 0 ==> t == r.(ioRemaining := Max(0, r.ioRemaining - d))
    ensures r.ioRemaining <= 0 ==> t == r
    ensures r.ioRemaining > 0 ==> t.ioRemaining >= 0
  {
    if r.ioRemaining > 0 then r.(ioRemaining := Max(0, r.ioRemaining - d)) else r
  }

  datatype Ticked = Ticked(recs: seq<ProcessRecord>, done: seq<nat>)

  /** The loop of `processIO`: tick each queued block and collect the expired ones. */
  function TickAll(recs: seq<ProcessRecord>, q: seq<nat>, d: int): (t: Ticked)
    requires Indices(q, |recs|)
    ensures |t.recs| == |recs| && Indices(t.done, |recs|) && AllIOUntouched(recs, t.recs)
    ensures q == [] ==> t == Ticked(recs, [])
    decreases |q|
  {
    if q == [] then Ticked(recs, [])
    else
      var prev := TickAll(recs, q[..|q| - 1], d);
      var idx := q[|q| - 1];
      var r := Tick(prev.recs[idx], d);
      Ticked(prev.recs[idx := r], if r.ioRemaining <= 0 then prev.done + [idx] else prev.done)
  }

  /** One more queue entry: that block is ticked, and recorded if its countdown expired. */
  lemma TickAllStep(recs: seq<ProcessRecord>, q: seq<nat>, d: int, k: nat)
    requires Indices(q, |recs|) && k < |q|
    ensures var prev := TickAll(recs, q[..k], d);
      var r := Tick(prev.recs[q[k]], d);
      TickAll(recs, q[..k + 1], d)
        == Ticked(prev.recs[q[k] := r], if r.ioRemaining <= 0 then prev.done + [q[k]] else prev.done)
  {
    assert q[..k + 1][..k] == q[..k];
  }

  /** The queued indices, in queue order, whose countdown has expired after one tick. */
  function Expired(recs: seq<ProcessRecord>, q: seq<nat>, d: int): (e: seq<nat>)
    requires Indices(q, |recs|)
    ensures forall x :: x in e <==> x in q && Tick(recs[x], d).ioRemaining <= 0
    ensures Indices(e, |recs|) && |e| <= |q|
    ensures NoDuplicates(q) ==> NoDuplicates(e)
    decreases |q|
  {
    if q == [] then []
    else
      var prev := Expired(recs, q[..|q| - 1], d);
      var idx := q[|q| - 1];
      assert q == q[..|q| - 1] + [idx];
      assert NoDuplicates(q) ==> NoDuplicates(q[..|q| - 1]) && idx !in q[..|q| - 1] by {
        if NoDuplicates(q) {
          NoDuplicatesPrefix(q);
        }
      }
      if Tick(recs[idx], d).ioRemaining <= 0 then prev + [idx] else prev
  }

  /** With no index queued twice, every queued block is ticked exactly once. */
  lemma {:induction false} TickAllDistinct(recs: seq<ProcessRecord>, q: seq<nat>, d: int)
    requires Indices(q, |recs|) && NoDuplicates(q)
    ensures forall j :: 0 <= j < |recs| ==>
      TickAll(recs, q, d).recs[j] == if j in q then Tick(recs[j], d) else recs[j]
    ensures TickAll(recs, q, d).done == Expired(recs, q, d)
    decreases |q|
  {
    if q != [] {
      var init := q[..|q| - 1];
      assert q == init + [q[|q| - 1]];
      NoDuplicatesPrefix(q);
      TickAllDistinct(recs, init, d);
    }
  }

  /** The reset loop of `handleIOqueue` over the finished indices. */
  function ResetAll(recs: seq<ProcessRecord>, fin: seq<nat>): (rs: seq<ProcessRecord>)
    requires Indices(fin, |recs|)
    ensures |rs| == |recs| && AllIOUntouched(recs, rs)
    decreases |fin|
  {
    if fin == [] then recs
    else
      var prev := ResetAll(recs, fin[..|fin| - 1]);
      var idx := fin[|fin| - 1];
      prev[idx := IOReset(prev[idx])]
  }

  lemma {:induction false} ResetAllAt(recs: seq<ProcessRecord>, fin: seq<nat>, j: nat)
    requires Indices(fin, |recs|) && j < |recs|
    ensures ResetAll(recs, fin)[j] == if j in fin then IOReset(recs[j]) else recs[j]
    decreases |fin|
  {
    if fin != [] {
      var init := fin[..|fin| - 1];
      assert fin == init + [fin[|fin| - 1]];
      ResetAllAt(recs, init, j);
    }
  }

  /** The erase-remove of `handleIOqueue`: the entries still waiting, in order. */
  function KeepWaiting(recs: seq<ProcessRecord>, q: seq<nat>): (r: seq<nat>)
    requires Indices(q, |recs|)
    ensures forall x :: x in r <==> x in q && recs[x].state == WaitingIO
    ensures Indices(r, |recs|) && |r| <= |q|
    ensures NoDuplicates(q) ==> NoDuplicates(r)
    ensures (forall k :: 0 <= k < |q| ==> recs[q[k]].state == WaitingIO) ==> r == q
    decreases |q|
  {
    if q == [] then []
    else
      var prev := KeepWaiting(recs, q[..|q| - 1]);
      var idx := q[|q| - 1];
      assert q == q[..|q| - 1] + [idx];
      assert NoDuplicates(q) ==> NoDuplicates(q[..|q| - 1]) && idx !in q[..|q| - 1] by {
        if NoDuplicates(q) {
          NoDuplicatesPrefix(q);
        }
      }
      if recs[idx].state == WaitingIO then prev + [idx] else prev
  }

  /** One more queue entry: it is kept exactly when its block still waits. */
  lemma KeepWaitingStep(recs: seq<ProcessRecord>, q: seq<nat>, k: nat)
    requires Indices(q, |recs|) && k < |q|
    ensures KeepWaiting(recs, q[..k + 1])
         == KeepWaiting(recs, q[..k]) + (if recs[q[k]].state == WaitingIO then [q[k]] else [])
  {
    assert q[..k + 1][..k] == q[..k];
  }

  function IOQueueHandled(v: IoView): (w: IoView)
    requires WellFormed(v)
    ensures WellFormed(w) && |w.recs| == |v.recs| && w.finished == v.finished && AllIOUntouched(v.recs, w.recs)
  {
    if v.queue == [] then v
    else
      var recs := ResetAll(v.recs, v.finished);
      IoView(recs, KeepWaiting(recs, v.queue), v.finished)
  }

  function IOProcessed(v: IoView, timeslice: int): (w: IoView)
    requires WellFormed(v)
    ensures WellFormed(w) && |w.recs| == |v.recs| && AllIOUntouched(v.recs, w.recs)
    ensures v.queue == [] ==> w == v
  {
    if v.queue == [] then v
    else
      var d := Max(0, timeslice);
      var t := TickAll(v.recs, v.queue, d);
      IOQueueHandled(IoView(t.recs, v.queue, v.finished + t.done))
  }

  /**
   * `processIO(t)` on a queue without duplicates: the expired entries are
   * appended to the finished list; every finished block (earlier ones included)
   * is reset; the other queued blocks are ticked by max(0, t); the queue keeps
   * exactly the entries still waiting; nothing else changes.
   */
  lemma ProcessIOEffect(v: IoView, t: int)
    requires WellFormed(v) && NoDuplicates(v.queue) && v.queue != []
    ensures IOProcessed(v, t).finished == v.finished + Expired(v.recs, v.queue, Max(0, t))
    ensures forall j :: 0 <= j < |v.recs| && j in IOProcessed(v, t).finished ==>
      IOProcessed(v, t).recs[j] == IOReset(if j in v.queue then Tick(v.recs[j], Max(0, t)) else v.recs[j])
    ensures forall j :: 0 <= j < |v.recs| && j !in IOProcessed(v, t).finished ==>
      IOProcessed(v, t).recs[j] == if j in v.queue then Tick(v.recs[j], Max(0, t)) else v.recs[j]
    ensures forall x :: x in IOProcessed(v, t).queue <==>
      x in v.queue && IOProcessed(v, t).recs[x].state == WaitingIO
    ensures forall x :: x in IOProcessed(v, t).queue ==> IOProcessed(v, t).recs[x].ioRemaining > 0
    ensures NoDuplicates(IOProcessed(v, t).queue)
  {
    var d := Max(0, t);
    var tk := TickAll(v.recs, v.queue, d);
    TickAllDistinct(v.recs, v.queue, d);
    var fin := v.finished + tk.done;
    forall j | 0 <= j < |v.recs|
      ensures IOProcessed(v, t).recs[j] == if j in fin then IOReset(tk.recs[j]) else tk.recs[j]
    {
      ResetAllAt(tk.recs, fin, j);
    }
  }

  // -------------------------------------------------------------- queries

  /** What `getMinRemainingIOTime` returns: the least countdown, or INT_MAX. */
  function MinRemaining(recs: seq<ProcessRecord>, q: seq<nat>): (m: int)
    requires Indices(q, |recs|)
    ensures m <= INT_MAX
    ensures forall k :: 0 <= k < |q| ==> m <= recs[q[k]].ioRemaining
    ensures m == INT_MAX || exists k :: 0 <= k < |q| && m == recs[q[k]].ioRemaining
    decreases |q|
  {
    if q == [] then INT_MAX
    else
      var m := MinRemaining(recs, q[..|q| - 1]);
      var r := recs[q[|q| - 1]].ioRemaining;
      assert forall k :: 0 <= k < |q| - 1 ==> q[..|q| - 1][k] == q[k];
      if r < m then r else m
  }

  /** Some queued block carries this pid. */
  predicate HasPid(recs: seq<ProcessRecord>, q: seq<nat>, pid: int)
    requires Indices(q, |recs|)
  {
    exists k :: 0 <= k < |q| && recs[q[k]].pid == pid
  }

  class IOManager {
    const pool: seq<Pcb>
    var queue: seq<nat>
    var finished: seq<nat>

    ghost predicate Valid()
      reads this
    {
      Distinct(pool) && Indices(queue, |pool|) && Indices(finished, |pool|)
    }

    /** The manager's lists together with the pool's records. */
    ghost function View(): IoView
      reads this, pool
    {
      IoView(Records(pool), queue, finished)
    }

    constructor (pool: seq<Pcb>)
      requires Distinct(pool)
      ensures Valid() && this.pool == pool && queue == [] && finished == []
    {
      this.pool := pool;
      queue, finished := [], [];
    }

    /** Appends unconditionally: an index already queued is queued again. */
    method Enqueue(idx: nat)
      requires Valid() && idx < |pool|
      modifies this
      ensures Valid()
      ensures queue == old(queue) + [idx] && finished == old(finished)
    {
      queue := queue + [idx];
    }

    method UpdateIO()
      requires Valid()
      modifies pool
      ensures View() == IOUpdated(old(View()))
    {
      if |queue| == 0 {
        return;
      }
      hide StartAll, Distinct;
      ghost var recs0 := Records(pool);
      var k := 0;
      assert queue[..0] == [];
      while k < |queue|
        invariant k <= |queue|
        invariant Records(pool) == StartAll(recs0, queue[..k])
      {
        var idx := queue[k];
        var proc := pool[idx];
        StartAllStep(recs0, queue, k);
        if proc.IsWaitingIO() && proc.ioBound && proc.remainingTime > 0 {
          StartAt(idx);
        }
        k := k + 1;
      }
      assert queue[..k] == queue;
    }

    /** `startIO()` on block `idx`: its record, and no other, starts I/O. */
    method StartAt(idx: nat)
      requires Valid() && idx < |pool|
      modifies pool[idx]
      ensures Records(pool) == old(Records(pool))[idx := IOStarted(old(Records(pool))[idx])]
    {
      var proc := pool[idx];
      proc.StartIO();
      forall j | 0 <= j < |pool| && j != idx
        ensures Records(pool)[j] == old(Records(pool))[j]
      {
        assert pool[j] != proc;
      }
    }

    method ProcessIO(timeslice: int)
      requires Valid()
      modifies this, pool
      ensures Valid() && View() == IOProcessed(old(View()), timeslice)
    {
      if |queue| == 0 {
        return;
      }
      var timeDiff := Max(0, timeslice);
      ghost var t := TickAll(Records(pool), queue, timeDiff);
      TickQueue(timeDiff);
      assert View() == IoView(t.recs, old(queue), old(finished) + t.done);
      HandleIOQueue();
    }

    /** The loop of `processIO`: tick every queued block, appending the expired ones. */
    method TickQueue(timeDiff: int)
      requires Valid()
      modifies this, pool
      ensures Valid() && queue == old(queue)
      ensures |old(finished)| <= |finished| && finished[..|old(finished)|] == old(finished)
      ensures TickAll(old(Records(pool)), queue, timeDiff) == Ticked(Records(pool), finished[|old(finished)|..])
    {
      hide TickAll, Distinct;
      ghost var recs0 := Records(pool);
      var k := 0;
      var expired: seq<nat> := [];
      assert queue[..0] == [];
      while k < |queue|
        modifies pool
        invariant k <= |queue|
        invariant TickAll(recs0, queue[..k], timeDiff) == Ticked(Records(pool), expired)
      {
        var idx := queue[k];
        TickAllStep(recs0, queue, timeDiff, k);
        TickAt(idx, timeDiff);
        if pool[idx].ioRemaining <= 0 {
          expired := expired + [idx];
        }
        k := k + 1;
      }
      assert queue[..k] == queue;
      finished := finished + expired;
      assert finished[|old(finished)|..] == expired;
    }

    /** One tick of block `idx`'s countdown, which stops at 0; no other record changes. */
    method TickAt(idx: nat, timeDiff: int)
      requires Valid() && idx < |pool|
      modifies pool[idx]
      ensures Records(pool) == old(Records(pool))[idx := Tick(old(Records(pool))[idx], timeDiff)]
    {
      var proc := pool[idx];
      if proc.ioRemaining > 0 {
        proc.SetIOTime(Max(0, proc.ioRemaining - timeDiff));
      }
      forall j | 0 <= j < |pool| && j != idx
        ensures Records(pool)[j] == old(Records(pool))[j]
      {
        assert pool[j] != proc;
      }
    }

    method HandleIOQueue()
      requires Valid()
      modifies this, pool
      ensures Valid() && View() == IOQueueHandled(old(View()))
    {
      if |queue| == 0 {
        return;
      }
      ResetFinished();
      queue := StillWaiting();
    }

    /** The reset loop of `handleIOqueue`: every finished block leaves I/O. */
    method ResetFinished()
      requires Valid()
      modifies pool
      ensures Records(pool) == ResetAll(old(Records(pool)), finished)
    {
      var k := 0;
      while k < |finished|
        invariant k <= |finished|
        invariant Records(pool) == ResetAll(old(Records(pool)), finished[..k])
      {
        assert finished[..k + 1][..k] == finished[..k];
        ResetAt(finished[k]);
        k := k + 1;
      }
      assert finished[..k] == finished;
    }

    /** `resetIO()` on block `idx`: its record, and no other, is reset. */
    method ResetAt(idx: nat)
      requires Valid() && idx < |pool|
      modifies pool[idx]
      ensures Records(pool) == old(Records(pool))[idx := IOReset(old(Records(pool))[idx])]
    {
      var proc := pool[idx];
      proc.ResetIO();
      forall j | 0 <= j < |pool| && j != idx
        ensures Records(pool)[j] == old(Records(pool))[j]
      {
        assert pool[j] != proc;
      }
    }

    /** The erase-remove pass of `handleIOqueue`, keeping the queued blocks still waiting. */
    method StillWaiting() returns (kept: seq<nat>)
      requires Valid()
      ensures kept == KeepWaiting(Records(pool), queue)
    {
      hide KeepWaiting, Distinct;
      ghost var recs := Records(pool);
      kept := [];
      var k := 0;
      while k < |queue|
        invariant k <= |queue|
        invariant kept == KeepWaiting(recs, queue[..k])
      {
        KeepWaitingStep(recs, queue, k);
        if pool[queue[k]].IsWaitingIO() {
          kept := kept + [queue[k]];
        }
        k := k + 1;
      }
      assert queue[..k] == queue;
    }

    function FinishedProcesses(): (f: seq<nat>)
      reads this
      ensures f == finished
    {
      finished
    }

    function IsEmpty(): (b: bool)
      reads this
      ensures b <==> Size() == 0
    {
      queue == []
    }

    function Size(): (n: nat)
      reads this
      ensures n == |queue|
    {
      |queue|
    }

    method ContainsPID(pid: int) returns (b: bool)
      requires Valid()
      ensures b <==> HasPid(Records(pool), queue, pid)
    {
      var k := 0;
      while k < |queue|
        invariant k <= |queue|
        invariant forall m :: 0 <= m < k ==> pool[queue[m]].pid != pid
      {
        if pool[queue[k]].pid == pid {
          return true;
        }
        k := k + 1;
      }
      return false;
    }

    method Clear()
      requires Valid()
      modifies this
      ensures Valid() && queue == [] && finished == []
    {
      queue, finished := [], [];
    }

    /** Empties the finished list only. */
    method ClearFinished()
      requires Valid()
      modifies this
      ensures Valid() && queue == old(queue) && finished == []
    {
      finished := [];
    }

    method GetMinRemainingIOTime() returns (m: int)
      requires Valid()
      ensures m == MinRemaining(Records(pool), queue)
    {
      m := INT_MAX;
      var k := 0;
      while k < |queue|
        invariant k <= |queue|
        invariant m == MinRemaining(Records(pool), queue[..k])
      {
        assert queue[..k + 1][..k] == queue[..k];
        if pool[queue[k]].ioRemaining < m {
          m := pool[queue[k]].ioRemaining;
        }
        k := k + 1;
      }
      assert queue[..k] == queue;
    }
  }
}
