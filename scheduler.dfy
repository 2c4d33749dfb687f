/**
 * The scheduler as the C++ class holds it: the pool of blocks, one ready queue
 * per level 0..maxPriority, the I/O manager over the same pool, the clock, the
 * time of the last loop head, the pid that ran last and the event log, each
 * updated in place.
 *
 * Every method is proved to leave `View()` where the corresponding function of
 * module `Scheduling` says: `Step` is one iteration of the `while (true)` loop
 * (`Iterate`), `RoundRobin` the seeding followed by at most `fuel` iterations
 * (`Initial`, then `RunFor`).
 */
module RoundRobin {
  import opened Wrappers
  import opened Pcb
  import opened IO
  import opened ReadyQueues
  import opened Scheduling
  import opened SchedulingDispatch
  import opened SchedulingProgress

  /** Once the first k entries are processed with an error, the rest keep it. */
  lemma {:induction false} RequeueFails(w: World, P: Params, fin: seq<nat>, readyOnly: bool, k: nat)
    requires WF(w, P) && Indices(fin, |w.io.recs|) && k <= |fin|
    requires RequeueFinished(w, P, fin[..k], readyOnly).Err?
    ensures RequeueFinished(w, P, fin, readyOnly) == RequeueFinished(w, P, fin[..k], readyOnly)
    decreases |fin|
  {
    if k < |fin| {
      var init := fin[..|fin| - 1];
      assert init[..k] == fin[..k];
      RequeueFails(w, P, init, readyOnly, k);
    } else {
      assert fin[..k] == fin;
    }
  }

  /** One more finished entry, once the earlier ones were requeued without error. */
  lemma RequeueStep(w: World, P: Params, fin: seq<nat>, readyOnly: bool, k: nat)
    requires WF(w, P) && Indices(fin, |w.io.recs|) && k < |fin|
    requires RequeueFinished(w, P, fin[..k], readyOnly).Ok?
    ensures var w1 := RequeueFinished(w, P, fin[..k], readyOnly).value;
      var rec := w1.io.recs[fin[k]];
      RequeueFinished(w, P, fin[..k + 1], readyOnly)
        == if rec.remainingTime > 0 && (!readyOnly || rec.state == Ready) then PushLevel(w1, P, rec.prio, fin[k]) else Ok(w1)
  {
    assert fin[..k + 1][..k] == fin[..k];
  }

  lemma {:induction false} MigrateFails(w: World, P: Params, aged: seq<nat>, k: nat)
    requires WF(w, P) && MovesInRange(w.io.recs, aged, |w.levels|) && k <= |aged|
    requires Migrate(w, P, aged[..k]).Err?
    ensures Migrate(w, P, aged) == Migrate(w, P, aged[..k])
    decreases |aged|
  {
    if k < |aged| {
      var init := aged[..|aged| - 1];
      assert init[..k] == aged[..k];
      MigrateFails(w, P, init, k);
    } else {
      assert aged[..k] == aged;
    }
  }

  lemma {:induction false} SeedFails(recs: seq<ProcessRecord>, P: Params, k: nat, n: nat)
    requires 1 <= P.maxPriority && k <= n <= |recs|
    requires SeedLevels(recs, P, k).Err?
    ensures SeedLevels(recs, P, n) == SeedLevels(recs, P, k)
    decreases n
  {
    if k < n {
      SeedFails(recs, P, k, n - 1);
    }
  }

  /** The scan for the first non-empty level finds `el` when every level before it is empty. */
  lemma {:induction false} FirstNonEmptyIs(levels: seq<seq<nat>>, from: nat, el: nat)
    requires 1 <= from <= el < |levels| && levels[el] != []
    requires forall l :: from <= l < el ==> levels[l] == []
    ensures FirstNonEmpty(levels, from) == Some(el)
    decreases el - from
  {
    if from < el {
      FirstNonEmptyIs(levels, from + 1, el);
    }
  }

  /** An I/O tick, with or without the clock moving along, keeps the shape. */
  lemma TickedShape(w: World, P: Params, d: int)
    requires WF(w, P)
    ensures WF(IoTicked(w, d), P) && WF(Elapsed(w, d), P)
  {
    var u := IOProcessed(w.io, d);
    assert forall j :: 0 <= j < |u.recs| ==> u.recs[j].prio == w.io.recs[j].prio by {
      assert AllIOUntouched(w.io.recs, u.recs);
    }
  }

  /** The dispatch-path I/O tick over a positive delta. */
  lemma DispatchTickPositive(w: World, P: Params, delta: int)
    requires WF(w, P) && delta > 0
    ensures WF(IoTicked(w, delta), P) && DispatchTick(w, P, delta) == DrainFinished(IoTicked(w, delta), P, true)
  {
    TickedShape(w, P, delta);
  }

  /** The routing after the slice, written out. */
  lemma RoutedValue(w: World, P: Params, i: nat, el: nat, elapsed: int, w1: World)
    requires WF(w, P) && i < |w.io.recs| && el < |w.levels|
    requires w1 == if w.io.recs[i].state == WaitingIO && !HasPid(w.io.recs, w.io.queue, w.io.recs[i].pid)
                   then IoTracked(w, i) else w
    ensures WF(w1, P) && w1.io.recs[i].state == w.io.recs[i].state
    ensures Routed(w, P, i, el, elapsed) ==
      if w.io.recs[i].state == Ready && elapsed > 0 then PushLevel(w1, P, el, i) else Ok(w1)
  {
    var rec := w.io.recs[i];
    if rec.state == WaitingIO && !HasPid(w.io.recs, w.io.queue, rec.pid) {
      var v := w.io.(queue := w.io.queue + [i]);
      var u := IOUpdated(v);
      assert AllIOUntouched(v.recs, u.recs);
      assert u.recs[i].state == rec.state by {
        StartAllAt(v.recs, v.queue, i);
      }
    }
  }

  /** One more step of the aging pass, written out. */
  lemma AgePassStep(recs: seq<ProcessRecord>, levels: seq<seq<nat>>, runPid: int, delta: int, n: nat)
    requires n <= |recs|
    ensures n == 0 ==> AgePass(recs, levels, runPid, delta, 0) == AgedPass(recs, [])
    ensures n < |recs| ==> var prev := AgePass(recs, levels, runPid, delta, n);
      var rec := prev.recs[n];
      && AgePass(recs, levels, runPid, delta, n + 1) ==
           if AgingCandidate(rec, n, levels, runPid) then
             AgedPass(prev.recs[n := Aged(rec, delta).record],
                      if Aged(rec, delta).promoted then prev.aged + [n] else prev.aged)
           else prev
  {
  }

  /** The seeding loop before its first pass, and one more pass of it. */
  lemma SeedLevelsStep(recs: seq<ProcessRecord>, P: Params, n: nat)
    requires 1 <= P.maxPriority && n <= |recs|
    ensures n == 0 ==> SeedLevels(recs, P, 0) == Ok(Seeded(recs, EmptyLevels(P.maxPriority + 1)))
    ensures n < |recs| && SeedLevels(recs, P, n).Ok? ==> SeedLevels(recs, P, n + 1) == SeedNext(SeedLevels(recs, P, n).value, P, n)
  {
  }

  /** One step of `RunFor`, whatever the iteration gives; none once the fuel is spent. */
  lemma RunForUnfold(w: World, P: Params, fuel: nat)
    requires WF(w, P)
    ensures fuel == 0 ==> RunFor(w, P, fuel) == Ok(Stepped(true, w))
    ensures fuel > 0 ==> RunFor(w, P, fuel) == match Iterate(w, P)
      case Err(m) => Err(m)
      case Ok(s) => if !s.go then Ok(s) else RunFor(s.world, P, fuel - 1)
  {
  }

  /** The world seeding leaves, or its error. */
  lemma InitialIs(recs: seq<ProcessRecord>, P: Params)
    requires 1 <= P.maxPriority
    ensures var f := SeedLevels(recs, P, |recs|);
      && (f.Ok? ==> Initial(recs, P) == Ok(World(IoView(f.value.recs, [], []), f.value.levels, 0, 0, None, [])))
      && (f.Err? ==> Initial(recs, P) == Err(f.message))
  {
  }

  class Scheduler {
    const P: Params
    const pool: seq<Pcb>
    const queues: seq<ReadyQueue<nat>>
    const io: IOManager
    var currentTime: int
    var lastTime: int
    var lastPid: Option<int>
    var events: seq<Event>

    /** The ready queues and their buffers. */
    ghost const Repr: set<object>

    /** One valid queue of the configured capacity per level, none sharing a queue or a buffer. */
    ghost predicate QueuesValid()
      reads Repr
    {
      && (forall l :: 0 <= l < |queues| ==> queues[l] in Repr && queues[l].data in Repr)
      && (forall l :: 0 <= l < |queues| ==> queues[l].Valid() && queues[l].N == P.capacity)
      && (forall l, m :: 0 <= l < m < |queues| ==> queues[l] != queues[m] && queues[l].data != queues[m].data)
    }

    /** The queues' footprint is apart from the scheduler, its manager and the pool. */
    ghost predicate Valid()
      reads this, io, Repr
    {
      && 1 <= P.maxPriority && |queues| == P.maxPriority + 1
      && io.pool == pool && io.Valid()
      && QueuesValid()
      && this !in Repr && io !in Repr && (forall j :: 0 <= j < |pool| ==> pool[j] !in Repr)
    }

    /** The contents of the ready queues, level by level. */
    ghost function Levels(): (ls: seq<seq<nat>>)
      reads Repr
      requires QueuesValid()
      ensures |ls| == |queues| && forall l :: 0 <= l < |queues| ==> ls[l] == queues[l].Contents()
    {
      seq(|queues|, l requires 0 <= l < |queues| && QueuesValid() reads Repr => queues[l].Contents())
    }

    /** The value the scheduler's state forms. */
    ghost function View(): World
      reads this, io, pool, Repr
      requires Valid()
    {
      World(io.View(), Levels(), currentTime, lastTime, lastPid, events)
    }

    /** The state `loadConfig` leaves: empty queues sized to the capacity, an idle manager. */
    constructor (P: Params, pool: seq<Pcb>)
      requires 1 <= P.maxPriority && 0 < P.capacity && Distinct(pool)
      ensures Valid() && this.P == P && this.pool == pool
      ensures View() == World(IoView(Records(pool), [], []), EmptyLevels(P.maxPriority + 1), 0, 0, None, [])
    {
      var qs: seq<ReadyQueue<nat>> := [];
      ghost var R: set<object> := {};
      while |qs| < P.maxPriority + 1
        invariant |qs| <= P.maxPriority + 1
        invariant forall l :: 0 <= l < |qs| ==> qs[l] in R && qs[l].data in R
        invariant forall l :: 0 <= l < |qs| ==> qs[l].Valid() && qs[l].N == P.capacity && qs[l].Contents() == []
        invariant forall l, m :: 0 <= l < m < |qs| ==> qs[l] != qs[m] && qs[l].data != qs[m].data
        invariant forall o :: o in R ==> fresh(o)
      {
        var q := new ReadyQueue<nat>(P.capacity);
        qs, R := qs + [q], R + {q, q.data};
      }
      this.P := P;
      this.pool := pool;
      this.queues := qs;
      this.Repr := R;
      io := new IOManager(pool);
      currentTime, lastTime, lastPid, events := 0, 0, None, [];
    }

    // ------------------------------------------------------------ queue access

    /** `readyQueue[l].push(idx)` on its own: level l gains idx at its tail unless full. */
    method PushRaw(l: nat, idx: nat) returns (o: Outcome)
      requires Valid() && l < |queues|
      modifies queues[l], queues[l].data
      ensures Valid()
      ensures o == (if |old(Levels())[l]| >= P.capacity then Fail("Queue is full") else Pass)
      ensures o.Pass? ==> Levels() == old(Levels())[l := old(Levels())[l] + [idx]]
    {
      ghost var before := Levels();
      o := queues[l].Push(idx);
      if o.Pass? {
        assert Levels() == before[l := before[l] + [idx]] by {
          forall m | 0 <= m < |queues| && m != l
            ensures queues[m].Contents() == before[m]
          {
            assert queues[m] != queues[l] && queues[m].data != queues[l].data;
          }
        }
      }
    }

    /** `readyQueue[l].push(idx)`, as `PushLevel` specifies it. */
    method Push(l: nat, idx: nat) returns (o: Outcome)
      requires Valid() && WF(View(), P) && l < |queues| && idx < |pool|
      modifies queues[l], queues[l].data
      ensures Valid()
      ensures var f := PushLevel(old(View()), P, l, idx);
        && (f.Ok? ==> o == Pass && View() == f.value)
        && (f.Err? ==> o == Fail(f.message))
    {
      o := PushRaw(l, idx);
    }

    /** `readyQueue[el].pop()` of a non-empty level. */
    method PopLevel(el: nat) returns (i: nat)
      requires Valid() && el < |queues| && Levels()[el] != []
      modifies queues[el]
      ensures Valid()
      ensures i == old(Levels())[el][0] && View() == Popped(old(View()), el)
    {
      ghost var before := Levels();
      var r := queues[el].Pop();
      i := r.value;
      assert Levels() == before[el := before[el][1..]] by {
        forall m | 0 <= m < |queues| && m != el
          ensures queues[m].Contents() == before[m]
        {
          assert queues[m] != queues[el];
        }
      }
    }

    /** The corrected `readyQueue[l].remove(id)`: the first occurrence goes, the rest keep their order. */
    method RemoveLevel(l: nat, id: nat)
      requires Valid() && WF(View(), P) && l < |queues|
      modifies queues[l], queues[l].data
      ensures Valid() && WF(View(), P)
      ensures View() == Unfiled(old(View()), l, id)
    {
      ghost var before := Levels();
      var found := queues[l].Remove(id);
      assert Levels() == before[l := RemoveFirst(before[l], id)] by {
        forall m | 0 <= m < |queues| && m != l
          ensures queues[m].Contents() == before[m]
        {
          assert queues[m] != queues[l] && queues[m].data != queues[l].data;
        }
      }
    }

    /** One entry of the requeue loop: a block with work left (READY, if asked) goes to its level. */
    method RequeueOne(idx: nat, readyOnly: bool) returns (o: Outcome)
      requires Valid() && WF(View(), P) && idx < |pool|
      modifies Repr
      ensures Valid()
      ensures var w := old(View()); var rec := w.io.recs[idx];
        if rec.remainingTime > 0 && (!readyOnly || rec.state == Ready) then
          var f := PushLevel(w, P, rec.prio, idx);
          && (f.Ok? ==> o == Pass && View() == f.value)
          && (f.Err? ==> o == Fail(f.message))
        else o == Pass && View() == w
    {
      var proc := pool[idx];
      assert proc.Record() == View().io.recs[idx];
      if proc.remainingTime > 0 && (!readyOnly || proc.IsReady()) {
        o := Push(proc.prio, idx);
      } else {
        o := Pass;
      }
    }

    /** The requeue loop over the finished list; the manager is left as it is. */
    method Requeue(readyOnly: bool) returns (o: Outcome)
      requires Valid() && WF(View(), P)
      modifies Repr
      ensures Valid()
      ensures var f := RequeueFinished(old(View()), P, old(View()).io.finished, readyOnly);
        && (f.Ok? ==> o == Pass && View() == f.value)
        && (f.Err? ==> o == Fail(f.message))
    {
      hide RequeueFinished, PushLevel, QueuesValid, Distinct, Records, Levels;
      ghost var w0 := View();
      var fin := io.FinishedProcesses();
      var k := 0;
      assert fin[..0] == [];
      while k < |fin|
        invariant k <= |fin| && Valid() && WF(View(), P)
        invariant RequeueFinished(w0, P, fin[..k], readyOnly) == Ok(View())
      {
        RequeueStep(w0, P, fin, readyOnly, k);
        o := RequeueOne(fin[k], readyOnly);
        if o.Fail? {
          RequeueFails(w0, P, fin, readyOnly, k + 1);
          return;
        }
        k := k + 1;
      }
      assert fin[..k] == fin;
      o := Pass;
    }

    /** The requeue loop, then `clearFinished` when the finished list is not empty. */
    method Drain(readyOnly: bool) returns (o: Outcome)
      requires Valid() && WF(View(), P)
      modifies io, Repr
      ensures Valid()
      ensures var f := DrainFinished(old(View()), P, readyOnly);
        && (f.Ok? ==> o == Pass && View() == f.value)
        && (f.Err? ==> o == Fail(f.message))
    {
      hide RequeueFinished, QueuesValid, Distinct, Records;
      o := Requeue(readyOnly);
      if o.Pass? && io.finished != [] {
        io.ClearFinished();
      }
    }

    // ---------------------------------------------------------------- cleanUp

    /** `any_of(process_pool, remaining > 0)`. */
    method AnyWork() returns (b: bool)
      requires Valid()
      ensures b == HasWork(View().io.recs)
    {
      var k := 0;
      while k < |pool|
        invariant k <= |pool| && forall j :: 0 <= j < k ==> Records(pool)[j].remainingTime <= 0
      {
        if pool[k].remainingTime > 0 {
          assert Records(pool)[k].remainingTime > 0;
          return true;
        }
        k := k + 1;
      }
      return false;
    }

    /** `readyQueue[l].isEmpty()`. */
    function LevelEmpty(l: nat): (b: bool)
      reads this, io, Repr
      requires Valid() && l < |queues|
      ensures b <==> Levels()[l] == []
    {
      queues[l].Empty()
    }

    /** `any_of(readyQueue | drop(1), !empty)`. */
    method AnyLevelWork() returns (b: bool)
      requires Valid()
      ensures b == AnyLevelHasWork(View().levels)
    {
      var l := 1;
      while l < |queues|
        invariant 1 <= l <= |queues| && forall m :: 1 <= m < l ==> Levels()[m] == []
      {
        if !LevelEmpty(l) {
          return true;
        }
        l := l + 1;
      }
      return false;
    }

    /** `currentTime += d`, then `processIO(d)`. */
    method TickClock(d: int)
      requires Valid()
      modifies this, io, pool
      ensures Valid() && View() == Elapsed(old(View()), d)
    {
      hide IOProcessed;
      currentTime := currentTime + d;
      io.ProcessIO(d);
    }

    /** `lastTime = currentTime`. */
    method SetLastTime()
      requires Valid()
      modifies this
      ensures Valid() && View() == Stamped(old(View()))
    {
      lastTime := currentTime;
    }

    /** The fast-forward path: advance the clock by the least countdown, tick, requeue. */
    method FastForward() returns (o: Outcome)
      requires Valid() && WF(View(), P) && io.queue != []
      modifies this, io, pool, Repr
      ensures Valid()
      ensures WF(Elapsed(old(View()), MinRemaining(old(View()).io.recs, old(View()).io.queue)), P)
      ensures var f := DrainFinished(Elapsed(old(View()), MinRemaining(old(View()).io.recs, old(View()).io.queue)), P, false);
        && (f.Ok? ==> o == Pass && View() == Stamped(f.value))
        && (f.Err? ==> o == Fail(f.message))
    {
      ghost var w0 := View();
      var minTime := io.GetMinRemainingIOTime();
      assert minTime == MinRemaining(w0.io.recs, w0.io.queue);
      TickClock(minTime);
      TickedShape(w0, P, minTime);
      o := Drain(false);
      if o.Pass? {
        SetLastTime();
      }
    }

    /** `cleanUpQueues(currentTime, lastTime)`: false once the loop is to break. */
    method CleanUpQueues() returns (r: Result<bool>)
      requires Valid() && WF(View(), P)
      modifies this, io, pool, Repr
      ensures Valid()
      ensures var f := CleanUp(old(View()), P);
        && (f.Ok? ==> r == Ok(f.value.go) && View() == f.value.world)
        && (f.Err? ==> r == Err(f.message))
    {
      hide DrainFinished, IOProcessed, Elapsed, Stamped, Records, Levels, Valid;
      var hasRemainingWork := AnyWork();
      var idle := io.IsEmpty();
      if !hasRemainingWork && idle {
        SetLastTime();
        return Ok(false);
      }
      var anyQueueHasWork := AnyLevelWork();
      if !anyQueueHasWork && !idle {
        var o := FastForward();
        if o.Fail? {
          return Err(o.message);
        }
        return Ok(true);
      }
      return Ok(true);
    }

    // ---------------------------------------------------------------- dispatch

    /** The pid of block i. */
    method PidOf(i: nat) returns (pid: int)
      requires Valid() && i < |pool|
      ensures pid == View().io.recs[i].pid
    {
      pid := pool[i].pid;
    }

    /** The state of block i. */
    method StateOf(i: nat) returns (st: ProcessState)
      requires Valid() && i < |pool|
      ensures st == View().io.recs[i].state
    {
      st := pool[i].state;
    }

    /** `ioManager.containsPID(pid)`. */
    method Tracks(pid: int) returns (b: bool)
      requires Valid()
      ensures b <==> HasPid(View().io.recs, View().io.queue, pid)
    {
      b := io.ContainsPID(pid);
    }

    /** `ioManager.addProcess(i)`, then `ioManager.updateIO()`. */
    method TrackIO(i: nat)
      requires Valid() && i < |pool|
      modifies io, pool
      ensures Valid() && View() == IoTracked(old(View()), i)
    {
      hide IOUpdated, StartAll, Distinct;
      io.Enqueue(i);
      io.UpdateIO();
    }

    /** The context-switch charge when a different pid ran last. */
    method ChargeSwitch(pid: int)
      requires Valid()
      modifies this
      ensures Valid() && View() == Switched(old(View()), P, pid)
    {
      if lastPid.Some? && pid != lastPid.value {
        currentTime := currentTime + P.contextSwitchTime;
      }
    }

    /** `processIO(d)` with the clock left alone. */
    method TickIO(d: int)
      requires Valid()
      modifies io, pool
      ensures Valid() && View() == IoTicked(old(View()), d)
    {
      hide IOProcessed;
      io.ProcessIO(d);
    }

    /** The pop from level `el` and the context-switch charge for the popped block. */
    method Pick(el: nat) returns (i: nat, pid: int)
      requires Valid() && WF(View(), P) && 1 <= el < |queues| && Levels()[el] != []
      modifies this, Repr
      ensures Valid() && i == old(View()).levels[el][0] && i < |pool| && pid == old(View()).io.recs[i].pid
      ensures View() == Switched(Popped(old(View()), el), P, pid)
    {
      assert queues[el] in Repr;
      hide Switched, Popped, QueuesValid, Distinct;
      i := PopLevel(el);
      pid := PidOf(i);
      ChargeSwitch(pid);
    }

    /** The I/O tick of the dispatch path over the time since the last loop head. */
    method TickDispatch() returns (o: Outcome, delta: int)
      requires Valid() && WF(View(), P)
      modifies io, pool, Repr
      ensures Valid() && delta == old(currentTime - lastTime)
      ensures var d := DispatchTick(old(View()), P, delta);
        && (d.Ok? ==> o == Pass && View() == d.value)
        && (d.Err? ==> o == Fail(d.message))
    {
      hide DispatchTick, DrainFinished, IOProcessed, IoTicked, Records, Levels, QueuesValid, Distinct;
      delta := currentTime - lastTime;
      if delta > 0 {
        DispatchTickPositive(View(), P, delta);
        TickIO(delta);
        o := Drain(true);
      } else {
        o := Pass;
      }
    }

    /** Pop, context-switch charge, and the I/O tick over a positive delta. */
    method Enter(el: nat) returns (o: Outcome, i: nat, pid: int, delta: int)
      requires Valid() && WF(View(), P) && 1 <= el < |queues| && Levels()[el] != []
      modifies this, io, pool, Repr
      ensures Valid()
      ensures var f := Entered(old(View()), P, el);
        && (f.Ok? ==> o == Pass && View() == f.value.world && i == f.value.i && pid == f.value.pid
                      && delta == f.value.delta)
        && (f.Err? ==> o == Fail(f.message))
    {
      hide Entered, DispatchTick, Switched, Popped, DrainFinished, IOProcessed, IoTicked, Records, Levels, QueuesValid, Distinct;
      EnteredValue(View(), P, el);
      i, pid := Pick(el);
      o, delta := TickDispatch();
    }

    /** `recordFirstResponse(currentTime)` when `isFirstResponse()`. */
    method Respond(i: nat)
      requires Valid() && WF(View(), P) && i < |pool|
      modifies pool[i]
      ensures Valid() && View() == Responded(old(View()), P, i)
    {
      ghost var before := Records(pool);
      var p := pool[i];
      if !p.firstResponse {
        p.RecordFirstResponse(currentTime);
        assert Records(pool) == before[i := p.Record()] by {
          forall j | 0 <= j < |pool| && j != i
            ensures Records(pool)[j] == before[j]
          {
            assert pool[j] != p;
          }
        }
      }
    }

    /** `execute(time_quantum)` on block i, the clock advanced by the time it ran. */
    method Execute(i: nat) returns (elapsed: int)
      requires Valid() && WF(View(), P) && i < |pool|
      modifies this, pool[i]
      ensures Valid()
      ensures var x := Ran(old(View()), P, i); View() == x.world && elapsed == x.elapsed
    {
      ghost var before := Records(pool);
      var p := pool[i];
      elapsed := p.Execute(P.timeQuantum);
      currentTime := currentTime + elapsed;
      assert Records(pool) == before[i := p.Record()] by {
        forall j | 0 <= j < |pool| && j != i
          ensures Records(pool)[j] == before[j]
        {
          assert pool[j] != p;
        }
      }
    }

    /** `recordFirstResponse` when it is the first dispatch, then `execute(time_quantum)`. */
    method RunSlice(i: nat) returns (elapsed: int)
      requires Valid() && WF(View(), P) && i < |pool|
      modifies this, pool
      ensures Valid()
      ensures var x := Ran(Responded(old(View()), P, i), P, i);
        View() == x.world && elapsed == x.elapsed
    {
      Respond(i);
      elapsed := Execute(i);
    }

    /** A block left waiting for I/O joins the I/O queue unless its pid is already there. */
    method TrackIfWaiting(i: nat)
      requires Valid() && WF(View(), P) && i < |pool|
      modifies io, pool
      ensures Valid()
      ensures var w := old(View()); var rec := w.io.recs[i];
        View() == if rec.state == WaitingIO && !HasPid(w.io.recs, w.io.queue, rec.pid) then IoTracked(w, i) else w
    {
      hide IoTracked, IOUpdated, HasPid, Records, Levels, QueuesValid, Distinct;
      var st := StateOf(i);
      if st == WaitingIO {
        var pid := PidOf(i);
        var tracked := Tracks(pid);
        if !tracked {
          TrackIO(i);
        }
      }
    }

    /** Routing after the slice: I/O entry when not yet tracked, or the tail of `el`. */
    method Route(i: nat, el: nat, elapsed: int) returns (o: Outcome)
      requires Valid() && WF(View(), P) && i < |pool| && el < |queues|
      modifies io, pool, queues[el], queues[el].data
      ensures Valid()
      ensures var f := Routed(old(View()), P, i, el, elapsed);
        && (f.Ok? ==> o == Pass && View() == f.value)
        && (f.Err? ==> o == Fail(f.message))
    {
      hide Routed, IOUpdated, IoTracked, HasPid, PushLevel, Records, Levels, QueuesValid, Distinct;
      ghost var w0 := View();
      TrackIfWaiting(i);
      RoutedValue(w0, P, i, el, elapsed, View());
      var st := StateOf(i);
      if st == Ready && elapsed > 0 {
        o := Push(el, i);
      } else {
        o := Pass;
      }
    }

    /** `setCompletionTime(currentTime)` for a block whose work has run out. */
    method Complete(i: nat)
      requires Valid() && WF(View(), P) && i < |pool|
      modifies pool[i]
      ensures Valid() && View() == Completed(old(View()), P, i)
    {
      ghost var before := Records(pool);
      var p := pool[i];
      if p.remainingTime <= 0 {
        p.SetCompletionTime(currentTime);
        assert Records(pool) == before[i := p.Record()] by {
          forall j | 0 <= j < |pool| && j != i
            ensures Records(pool)[j] == before[j]
          {
            assert pool[j] != p;
          }
        }
      }
    }

    /** One index of phase 1: a candidate is aged; true when that promoted it. */
    method AgeAt(idx: nat, runPid: int, delta: int) returns (promoted: bool)
      requires Valid() && idx < |pool| && 0 <= Records(pool)[idx].prio < |queues|
      modifies pool[idx]
      ensures Valid() && Levels() == old(Levels())
      ensures var rec := old(Records(pool))[idx];
        && (AgingCandidate(rec, idx, Levels(), runPid) ==>
              Records(pool) == old(Records(pool))[idx := Aged(rec, delta).record] && promoted == Aged(rec, delta).promoted)
        && (!AgingCandidate(rec, idx, Levels(), runPid) ==> Records(pool) == old(Records(pool)) && !promoted)
    {
      ghost var before := Records(pool);
      var proc := pool[idx];
      promoted := false;
      if proc.remainingTime > 0 && proc.pid != runPid && !proc.IsWaitingIO() {
        var inQueue := queues[proc.prio].Contains(idx);
        if inQueue {
          promoted := proc.AgeProcess(delta);
          assert Records(pool) == before[idx := proc.Record()] by {
            forall j | 0 <= j < |pool| && j != idx
              ensures Records(pool)[j] == before[j]
            {
              assert pool[j] != proc;
            }
          }
        }
      }
    }

    /** Phase 1 of the aging pass: age the candidates, collecting the promoted indices. */
    method AgeCandidates(runPid: int, delta: int) returns (aged: seq<nat>)
      requires Valid() && WF(View(), P)
      modifies pool
      ensures Valid()
      ensures var a := AgePass(old(View()).io.recs, old(View()).levels, runPid, delta, |pool|);
        View() == old(View()).(io := old(View()).io.(recs := a.recs)) && aged == a.aged
    {
      hide AgePass, Aged, AgingCandidate, QueuesValid, Distinct;
      ghost var w0 := View();
      assert w0.io.recs == Records(pool) && w0.levels == Levels();
      AgePassStep(w0.io.recs, w0.levels, runPid, delta, 0);
      aged := [];
      var idx := 0;
      while idx < |pool|
        invariant idx <= |pool| && Valid() && Levels() == w0.levels
        invariant AgePass(w0.io.recs, w0.levels, runPid, delta, idx) == AgedPass(Records(pool), aged)
      {
        AgePassAt(w0.io.recs, w0.levels, runPid, delta, idx, idx);
        AgePassStep(w0.io.recs, w0.levels, runPid, delta, idx);
        var promoted := AgeAt(idx, runPid, delta);
        if promoted {
          aged := aged + [idx];
        }
        idx := idx + 1;
      }
    }

    /** The priorities block id moves between. */
    method PriosOf(id: nat) returns (prio: int, oldPrio: int)
      requires Valid() && id < |pool|
      ensures prio == View().io.recs[id].prio && oldPrio == View().io.recs[id].oldPrio
    {
      prio, oldPrio := pool[id].prio, pool[id].oldPrio;
    }

    /** Phase 2 for one promoted index: off its old level, onto the tail of its new one. */
    method MoveUp(id: nat) returns (o: Outcome)
      requires Valid() && WF(View(), P) && id < |pool|
      requires 0 <= View().io.recs[id].oldPrio < |queues| && 0 <= View().io.recs[id].prio < |queues|
      modifies Repr
      ensures Valid()
      ensures var rec := old(View()).io.recs[id];
        var f := PushLevel(Unfiled(old(View()), rec.oldPrio, id), P, rec.prio, id);
        && (f.Ok? ==> o == Pass && View() == f.value)
        && (f.Err? ==> o == Fail(f.message))
    {
      var prio, oldPrio := PriosOf(id);
      RemoveLevel(oldPrio, id);
      o := Push(prio, id);
    }

    /** Phase 2 over the promoted list. */
    method MigrateAll(aged: seq<nat>) returns (o: Outcome)
      requires Valid() && WF(View(), P) && MovesInRange(View().io.recs, aged, |queues|)
      modifies Repr
      ensures Valid()
      ensures var f := Migrate(old(View()), P, aged);
        && (f.Ok? ==> o == Pass && View() == f.value)
        && (f.Err? ==> o == Fail(f.message))
    {
      hide Records, Levels, PushLevel, Unfiled, QueuesValid, Distinct;
      ghost var wa := View();
      var k := 0;
      while k < |aged|
        modifies Repr
        invariant k <= |aged| && Valid() && WF(View(), P) && View().io == wa.io
        invariant Migrate(wa, P, aged[..k]) == Ok(View())
      {
        var id := aged[k];
        assert aged[..k + 1][..k] == aged[..k];
        o := MoveUp(id);
        if o.Fail? {
          MigrateFails(wa, P, aged, k + 1);
          return;
        }
        k := k + 1;
      }
      assert aged[..k] == aged;
      o := Pass;
    }

    /** `updateQueuesAfterAging(p, delta)`: phase 1, then each promoted index moves up a level. */
    method AgeQueues(runPid: int, delta: int) returns (o: Outcome)
      requires Valid() && WF(View(), P)
      modifies pool, Repr
      ensures Valid()
      ensures var f := QueuesAfterAging(old(View()), P, runPid, delta);
        && (f.Ok? ==> o == Pass && View() == f.value)
        && (f.Err? ==> o == Fail(f.message))
    {
      ghost var w0 := View();
      AgePassInRange(w0.io.recs, w0.levels, runPid, delta, |w0.io.recs|, P.maxPriority);
      var aged := AgeCandidates(runPid, delta);
      o := MigrateAll(aged);
    }

    /** The end of the loop body: `lastTime = currentTime`, the last pid, `logEvent`. */
    method Log(i: nat, pid: int)
      requires Valid() && i < |pool|
      modifies this
      ensures Valid() && View() == Logged(old(View()), i, pid)
    {
      lastTime := currentTime;
      lastPid := Some(pid);
      events := events + [EventOf(pool[i].Record())];
    }

    /** The loop body from the slice on. */
    method Serve(i: nat, el: nat, pid: int, delta: int) returns (o: Outcome)
      requires Valid() && WF(View(), P) && i < |pool| && el < |queues|
      modifies this, io, pool, Repr
      ensures Valid()
      ensures var f := Served(old(View()), P, i, el, pid, delta);
        && (f.Ok? ==> o == Pass && View() == f.value)
        && (f.Err? ==> o == Fail(f.message))
    {
      var elapsed := RunSlice(i);
      o := Route(i, el, elapsed);
      if o.Fail? {
        return;
      }
      Complete(i);
      o := AgeQueues(pid, delta);
      if o.Fail? {
        return;
      }
      Log(i, pid);
    }

    /** The loop body once level `el` has been selected. */
    method DispatchFrom(el: nat) returns (o: Outcome)
      requires Valid() && WF(View(), P) && 1 <= el < |queues| && Levels()[el] != []
      modifies this, io, pool, Repr
      ensures Valid()
      ensures var f := Dispatch(old(View()), P, el);
        && (f.Ok? ==> o == Pass && View() == f.value)
        && (f.Err? ==> o == Fail(f.message))
    {
      var i, pid, delta;
      o, i, pid, delta := Enter(el);
      if o.Fail? {
        return;
      }
      o := Serve(i, el, pid, delta);
    }

    /** One iteration of the `while (true)` loop of `roundRobin`: false once it breaks. */
    method Step() returns (r: Result<bool>)
      requires Valid() && WF(View(), P)
      modifies this, io, pool, Repr
      ensures Valid()
      ensures var f := Iterate(old(View()), P);
        && (f.Ok? ==> r == Ok(f.value.go) && View() == f.value.world)
        && (f.Err? ==> r == Err(f.message))
    {
      hide CleanUp, Dispatch, QueuesValid, Distinct, Records, Levels;
      r := CleanUpQueues();
      if r.Err? || !r.value {
        return;
      }
      ghost var w1 := View();
      var el := 1;
      while el <= P.maxPriority
        invariant 1 <= el <= P.maxPriority + 1 && Valid() && View() == w1
        invariant forall l :: 1 <= l < el ==> w1.levels[l] == []
      {
        if !LevelEmpty(el) {
          FirstNonEmptyIs(w1.levels, 1, el);
          var o := DispatchFrom(el);
          if o.Fail? {
            return Err(o.message);
          }
          return Ok(true);
        }
        el := el + 1;
      }
      if FirstNonEmpty(w1.levels, 1).Some? {
        assert false;
      }
    }

    // ----------------------------------------------------------------- seeding

    /** The priority clamp of the seeding loop on block p, which then goes to that level. */
    method ClampPrio(p: nat) returns (prio: nat)
      requires Valid() && p < |pool|
      modifies pool[p]
      ensures Valid() && Levels() == old(Levels())
      ensures prio == SeedPriority(old(Records(pool))[p].prio, P.maxPriority) && prio < |queues|
      ensures Records(pool) == old(Records(pool))[p := old(Records(pool))[p].(prio := prio)]
    {
      var proc := pool[p];
      if proc.prio < 1 || proc.prio > P.maxPriority {
        proc.SetPriority(Clamp(proc.prio, 1, P.maxPriority));
      }
      prio := proc.prio;
      forall j | 0 <= j < |pool| && j != p
        ensures Records(pool)[j] == old(Records(pool))[j]
      {
        assert pool[j] != proc;
      }
    }

    /** One pass of the seeding loop on block p. */
    method SeedAt(p: nat) returns (o: Outcome)
      requires Valid() && p < |pool|
      modifies pool[p], Repr
      ensures Valid()
      ensures var f := SeedNext(Seeded(old(Records(pool)), old(Levels())), P, p);
        && (f.Ok? ==> o == Pass && Seeded(Records(pool), Levels()) == f.value)
        && (f.Err? ==> o == Fail(f.message))
    {
      var prio := ClampPrio(p);
      o := PushRaw(prio, p);
    }

    /** The seeding loop of `roundRobin`: clamp the priority, push the index onto its level. */
    method SeedQueues() returns (o: Outcome)
      requires Valid() && Levels() == EmptyLevels(P.maxPriority + 1)
      modifies pool, Repr
      ensures Valid()
      ensures var f := SeedLevels(old(Records(pool)), P, |pool|);
        && (f.Ok? ==> o == Pass && Records(pool) == f.value.recs && Levels() == f.value.levels)
        && (f.Err? ==> o == Fail(f.message))
    {
      hide SeedLevels, SeedNext, Reprioritized, Records, Levels, QueuesValid, EmptyLevels, Distinct;
      ghost var recs0 := Records(pool);
      SeedLevelsStep(recs0, P, 0);
      var p := 0;
      while p < |pool|
        invariant p <= |pool| && Valid()
        invariant SeedLevels(recs0, P, p) == Ok(Seeded(Records(pool), Levels()))
      {
        SeedLevelsStep(recs0, P, p);
        o := SeedAt(p);
        if o.Fail? {
          SeedFails(recs0, P, p + 1, |pool|);
          return;
        }
        p := p + 1;
      }
      o := Pass;
    }

    /** The seeding loop, then the clock reset of `roundRobin`. */
    method Start() returns (o: Outcome)
      requires Valid() && lastPid == None && events == [] && io.queue == [] && io.finished == []
      requires Levels() == EmptyLevels(P.maxPriority + 1)
      modifies this, pool, Repr
      ensures Valid()
      ensures var f := Initial(old(Records(pool)), P);
        && (f.Err? ==> o == Fail(f.message))
        && (f.Ok? ==> o == Pass && View() == f.value)
    {
      hide Initial, SeedLevels, Reprioritized, QueuesValid, Distinct, EmptyLevels;
      ghost var recs0 := Records(pool);
      InitialIs(recs0, P);
      o := SeedQueues();
      if o.Pass? {
        currentTime, lastTime := 0, 0;
      }
    }

    /** At most `fuel` iterations of the `while (true)` loop; `Ok(true)` when it has not broken by then. */
    method Loop(fuel: nat) returns (r: Result<bool>)
      requires Valid() && WF(View(), P)
      modifies this, io, pool, Repr
      ensures Valid()
      ensures var g := RunFor(old(View()), P, fuel);
        && (g.Err? ==> r == Err(g.message))
        && (g.Ok? ==> r == Ok(g.value.go) && View() == g.value.world)
    {
      hide RunFor, Iterate, WF, View, Valid, Records, Levels;
      ghost var g := RunFor(View(), P, fuel);
      var k := fuel;
      while k > 0
        invariant Valid() && WF(View(), P) && g == RunFor(View(), P, k)
      {
        RunForUnfold(View(), P, k);
        r := Step();
        if r.Err? {
          assert g == Err(r.message);
          return;
        }
        if !r.value {
          assert g == Ok(Stepped(false, View()));
          return;
        }
        k := k - 1;
      }
      RunForUnfold(View(), P, 0);
      return Ok(true);
    }

    /**
     * `roundRobin` with the loop cut off after `fuel` iterations: seeding, the
     * clock reset, then the loop; `Ok(true)` when it has not broken by then.
     */
    method RunRoundRobin(fuel: nat) returns (r: Result<bool>)
      requires Valid() && lastPid == None && events == [] && io.queue == [] && io.finished == []
      requires Levels() == EmptyLevels(P.maxPriority + 1)
      modifies this, io, pool, Repr
      ensures Valid()
      ensures var f := Initial(old(Records(pool)), P);
        && (f.Err? ==> r == Err(f.message))
        && (f.Ok? ==> var g := RunFor(f.value, P, fuel);
             && (g.Err? ==> r == Err(g.message))
             && (g.Ok? ==> r == Ok(g.value.go) && View() == g.value.world))
    {
      var o := Start();
      if o.Fail? {
        return Err(o.message);
      }
      r := Loop(fuel);
    }
  }
}
