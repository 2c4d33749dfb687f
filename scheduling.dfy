/**
 * The dispatch loop of the scheduler as functions over a value `World`: the
 * pool's records with the I/O manager's lists, the ready queues of levels
 * 0..maxPriority as sequences, the clock, the time of the last loop head, the
 * pid that ran last and the event log.
 *
 * One loop iteration is `Iterate`: the quiescence / fast-forward check
 * `CleanUp`, then `Dispatch` of the head of the lowest non-empty level in
 * 1..maxPriority, built from one function per stage of the loop body.  A
 * failure is the exception the C++ code would throw (a push onto a full queue).
 */
module Scheduling {
  import opened Wrappers
  import opened Pcb
  import opened IO
  import opened ReadyQueues

  /** The scheduler's settings from the configuration, and the queue capacity. */
  datatype Params = Params(timeQuantum: int, maxPriority: int, contextSwitchTime: int, capacity: nat)

  datatype EventKind = EventRunning | EventIOWait | EventFinished

  /** What `logEvent` records about the block that just ran. */
  datatype Event = Event(pid: int, prio: int, kind: EventKind, waitingTime: int, remainingTime: int,
                         ioBound: bool, ioInterval: int, cpuUsed: int, stateName: string)

  datatype World = World(io: IoView, levels: seq<seq<nat>>, clock: int, lastTime: int,
                         lastPid: Option<int>, log: seq<Event>)

  datatype Stepped = Stepped(go: bool, world: World)

  /** The shape every state keeps: one queue per level, indices and priorities in range. */
  predicate WF(w: World, P: Params)
  {
    Shaped(w.io, w.levels, P)
  }

  predicate Shaped(v: IoView, levels: seq<seq<nat>>, P: Params)
  {
    && 1 <= P.maxPriority
    && |levels| == P.maxPriority + 1
    && WellFormed(v)
    && (forall l :: 0 <= l < |levels| ==> Indices(levels[l], |v.recs|))
    && (forall j :: 0 <= j < |v.recs| ==> 0 <= v.recs[j].prio <= P.maxPriority)
  }

  // ------------------------------------------------------------- logEvent

  /** The event classification of `logEvent`. */
  function Classify(r: ProcessRecord): (k: EventKind)
    ensures k == EventFinished <==> r.remainingTime == 0
    ensures k == EventIOWait <==> r.remainingTime != 0 && r.state == WaitingIO
    ensures k == EventRunning <==> r.remainingTime != 0 && r.state != WaitingIO
  {
    if r.remainingTime == 0 then EventFinished
    else if r.state == WaitingIO then EventIOWait
    else EventRunning
  }

  function EventOf(r: ProcessRecord): Event
  {
    Event(r.pid, r.prio, Classify(r), r.waitingTime, r.remainingTime, r.ioBound, r.ioInterval,
          r.cpuUsed, StateName(r.state))
  }

  // ------------------------------------------------------- clock and I/O

  /** `IO_Processes->processIO(d)` on the world's manager. */
  function IoTicked(w: World, d: int): (v: World)
    requires WellFormed(w.io)
    ensures v.io == IOProcessed(w.io, d) && v.levels == w.levels && v.clock == w.clock
  {
    w.(io := IOProcessed(w.io, d))
  }

  /** `currentTime += d` followed by `processIO(d)`: the fast-forward over an idle CPU. */
  function Elapsed(w: World, d: int): (v: World)
    requires WellFormed(w.io)
    ensures v.io == IOProcessed(w.io, d) && v.levels == w.levels && v.clock == w.clock + d
  {
    w.(clock := w.clock + d, io := IOProcessed(w.io, d))
  }

  /** `lastTime = currentTime`. */
  function Stamped(w: World): (v: World)
    ensures v.lastTime == w.clock && v.clock == w.clock && v.io == w.io && v.levels == w.levels
  {
    w.(lastTime := w.clock)
  }

  // ---------------------------------------------------------- queue access

  /** `readyQueue[l].push(idx)`: fails when the level is at capacity. */
  function PushLevel(w: World, P: Params, l: nat, idx: nat): (r: Result<World>)
    requires WF(w, P) && l < |w.levels| && idx < |w.io.recs|
    ensures r.Ok? <==> |w.levels[l]| < P.capacity
    ensures r.Err? ==> r.message == "Queue is full"
    ensures r.Ok? ==> r.value == w.(levels := w.levels[l := w.levels[l] + [idx]]) && WF(r.value, P)
  {
    if |w.levels[l]| == P.capacity || |w.levels[l]| > P.capacity then Err("Queue is full")
    else Ok(w.(levels := w.levels[l := w.levels[l] + [idx]]))
  }

  /**
   * The requeue loop over the finished list: each finished index with work left
   * (and, on the dispatch path, in state READY) goes to the tail of its level.
   */
  function RequeueFinished(w: World, P: Params, fin: seq<nat>, readyOnly: bool): (r: Result<World>)
    requires WF(w, P) && Indices(fin, |w.io.recs|)
    ensures r.Ok? ==> WF(r.value, P) && r.value == w.(levels := r.value.levels)
    ensures fin == [] ==> r == Ok(w)
    decreases |fin|
  {
    if fin == [] then Ok(w)
    else
      match RequeueFinished(w, P, fin[..|fin| - 1], readyOnly)
      case Err(m) => Err(m)
      case Ok(w1) =>
        var idx := fin[|fin| - 1];
        var rec := w1.io.recs[idx];
        if rec.remainingTime > 0 && (!readyOnly || rec.state == Ready) then PushLevel(w1, P, rec.prio, idx)
        else Ok(w1)
  }

  /** Requeue the finished list and then, when it is not empty, clear it. */
  function DrainFinished(w: World, P: Params, readyOnly: bool): (r: Result<World>)
    requires WF(w, P)
    ensures r.Ok? ==> WF(r.value, P) && r.value.io.finished == []
    ensures r.Ok? ==> r.value == w.(levels := r.value.levels, io := w.io.(finished := []))
  {
    match RequeueFinished(w, P, w.io.finished, readyOnly)
    case Err(m) => Err(m)
    case Ok(w1) =>
      Ok(if w1.io.finished != [] then w1.(io := w1.io.(finished := [])) else w1)
  }

  // ------------------------------------------------------------- cleanUp

  predicate HasWork(recs: seq<ProcessRecord>)
  {
    exists j :: 0 <= j < |recs| && recs[j].remainingTime > 0
  }

  /** Some level among 1..maxPriority holds an index (level 0 is never scanned). */
  predicate AnyLevelHasWork(levels: seq<seq<nat>>)
  {
    exists l :: 1 <= l < |levels| && levels[l] != []
  }

  /**
   * `cleanUpQueues`: stop once no record has work and nothing waits on I/O; when
   * every level is empty but I/O is pending, fast-forward the clock by the least
   * countdown, tick the I/O queue by that much and requeue what finished.
   */
  function CleanUp(w: World, P: Params): (r: Result<Stepped>)
    requires WF(w, P)
    ensures r.Ok? ==> WF(r.value.world, P)
    ensures r.Ok? && !r.value.go ==> !HasWork(w.io.recs) && w.io.queue == []
    ensures !HasWork(w.io.recs) && w.io.queue == [] ==> r == Ok(Stepped(false, Stamped(w)))
    ensures (HasWork(w.io.recs) || w.io.queue != []) && (AnyLevelHasWork(w.levels) || w.io.queue == []) ==>
      r == Ok(Stepped(true, w))
  {
    if !HasWork(w.io.recs) && w.io.queue == [] then Ok(Stepped(false, Stamped(w)))
    else if !AnyLevelHasWork(w.levels) && w.io.queue != [] then
      var w1 := Elapsed(w, MinRemaining(w.io.recs, w.io.queue));
      match DrainFinished(w1, P, false)
      case Err(m) => Err(m)
      case Ok(w2) => Ok(Stepped(true, Stamped(w2)))
    else Ok(Stepped(true, w))
  }

  // ------------------------------------------------------------ selection

  /** The lowest level in from..maxPriority that is not empty. */
  function FirstNonEmpty(levels: seq<seq<nat>>, from: nat): (r: Option<nat>)
    requires 1 <= from
    ensures r.Some? ==> from <= r.value < |levels| && levels[r.value] != []
    ensures r.Some? ==> forall l :: from <= l < r.value ==> levels[l] == []
    ensures r.None? ==> forall l :: from <= l < |levels| ==> levels[l] == []
    decreases |levels| - from
  {
    if from >= |levels| then None
    else if levels[from] != [] then Some(from)
    else FirstNonEmpty(levels, from + 1)
  }

  // ------------------------------------------------------- dispatch stages

  /** `readyQueue[el].pop()`. */
  function Popped(w: World, el: nat): (v: World)
    requires el < |w.levels| && w.levels[el] != []
    ensures v == w.(levels := w.levels[el := w.levels[el][1..]])
  {
    w.(levels := w.levels[el := w.levels[el][1..]])
  }

  /** The context-switch charge: added when a different pid ran last. */
  function Switched(w: World, P: Params, pid: int): (v: World)
    ensures w.lastPid.Some? && w.lastPid.value != pid ==> v == w.(clock := w.clock + P.contextSwitchTime)
    ensures !(w.lastPid.Some? && w.lastPid.value != pid) ==> v == w
  {
    if w.lastPid.Some? && pid != w.lastPid.value then w.(clock := w.clock + P.contextSwitchTime) else w
  }

  /** The dispatch-path I/O tick: only for a positive delta; requeues READY completions. */
  function DispatchTick(w: World, P: Params, delta: int): (r: Result<World>)
    requires WF(w, P)
    ensures r.Ok? ==> WF(r.value, P)
    ensures delta <= 0 ==> r == Ok(w)
  {
    if delta > 0 then DrainFinished(IoTicked(w, delta), P, true) else Ok(w)
  }

  /** `recordFirstResponse`, guarded by `isFirstResponse`. */
  function Responded(w: World, P: Params, i: nat): (v: World)
    requires WF(w, P) && i < |w.io.recs|
    ensures WF(v, P) && |v.io.recs| == |w.io.recs| && v.levels == w.levels
    // the first response is stamped once, with the clock of the first dispatch
    ensures v.io.recs[i].firstResponse
    ensures v.io.recs[i].firstResponseTime ==
      if w.io.recs[i].firstResponse then w.io.recs[i].firstResponseTime else w.clock
    // and nothing but those two fields of block i changes
    ensures v.io.recs[i] == w.io.recs[i].(firstResponse := true, firstResponseTime := v.io.recs[i].firstResponseTime)
    ensures forall j :: 0 <= j < |w.io.recs| && j != i ==> v.io.recs[j] == w.io.recs[j]
    ensures v == w.(io := w.io.(recs := v.io.recs))
  {
    var rec := w.io.recs[i];
    if !rec.firstResponse then w.(io := w.io.(recs := w.io.recs[i := rec.(firstResponse := true, firstResponseTime := w.clock)]))
    else w
  }

  datatype Run = Run(world: World, elapsed: int)

  /** `execute(time_quantum)` on block i, with the clock advanced by the elapsed time. */
  function Ran(w: World, P: Params, i: nat): (x: Run)
    requires WF(w, P) && i < |w.io.recs|
    ensures var e := Executed(w.io.recs[i], P.timeQuantum);
      x == Run(w.(io := w.io.(recs := w.io.recs[i := e.record]), clock := w.clock + e.elapsed), e.elapsed)
    ensures WF(x.world, P)
    // the slice runs between nothing and one quantum, and the clock moves by exactly that time
    ensures x.elapsed == 0 || 0 < x.elapsed <= P.timeQuantum
    ensures x.world.clock == w.clock + x.elapsed
    ensures x.world.io.recs[i].remainingTime == w.io.recs[i].remainingTime - x.elapsed
    ensures Conserved(w.io.recs[i]) ==> Conserved(x.world.io.recs[i])
    // only block i's record changes
    ensures forall j :: 0 <= j < |w.io.recs| && j != i ==> x.world.io.recs[j] == w.io.recs[j]
    ensures x.world.levels == w.levels && x.world.io.queue == w.io.queue
  {
    var e := Executed(w.io.recs[i], P.timeQuantum);
    Run(w.(io := w.io.(recs := w.io.recs[i := e.record]), clock := w.clock + e.elapsed), e.elapsed)
  }

  /** `addProcess(i)` followed by `updateIO()`: block i joins the I/O queue and the queue starts I/O. */
  function IoTracked(w: World, i: nat): (v: World)
    requires WellFormed(w.io) && i < |w.io.recs|
    ensures v.io == IOUpdated(w.io.(queue := w.io.queue + [i])) && v.levels == w.levels && v.clock == w.clock
  {
    w.(io := IOUpdated(w.io.(queue := w.io.queue + [i])))
  }

  /** Routing after the slice: I/O entry (when not yet tracked) or back to the tail of `el`. */
  function Routed(w: World, P: Params, i: nat, el: nat, elapsed: int): (r: Result<World>)
    requires WF(w, P) && i < |w.io.recs| && el < |w.levels|
    ensures r.Ok? ==> WF(r.value, P)
    // a READY block that ran goes back to the tail of level el, which fails only when that level is full
    ensures r.Err? <==> w.io.recs[i].state == Ready && elapsed > 0 && |w.levels[el]| >= P.capacity
    ensures r.Ok? ==> (r.value.levels ==
      if w.io.recs[i].state == Ready && elapsed > 0 then w.levels[el := w.levels[el] + [i]] else w.levels)
    // a WAITING_IO block the manager does not track yet joins the I/O queue
    ensures r.Ok? ==> (r.value.io.queue ==
      if w.io.recs[i].state == WaitingIO && !HasPid(w.io.recs, w.io.queue, w.io.recs[i].pid)
      then w.io.queue + [i] else w.io.queue)
    ensures r.Ok? ==> r.value.clock == w.clock && |r.value.io.recs| == |w.io.recs|
  {
    var rec := w.io.recs[i];
    var w1 := if rec.state == WaitingIO && !HasPid(w.io.recs, w.io.queue, rec.pid) then IoTracked(w, i) else w;
    StartAllAt(w.io.recs, w.io.queue + [i], i);
    if w1.io.recs[i].state == Ready && elapsed > 0 then PushLevel(w1, P, el, i) else Ok(w1)
  }

  /** `setCompletionTime`, for a block whose work has run out. */
  function Completed(w: World, P: Params, i: nat): (v: World)
    requires WF(w, P) && i < |w.io.recs|
    ensures WF(v, P)
    // the completion time is the current clock once the work has run out, and is kept otherwise
    ensures |v.io.recs| == |w.io.recs|
    ensures v.io.recs[i].completionTime ==
      if w.io.recs[i].remainingTime <= 0 then w.clock else w.io.recs[i].completionTime
    ensures v.io.recs[i] == w.io.recs[i].(completionTime := v.io.recs[i].completionTime)
    ensures forall j :: 0 <= j < |w.io.recs| && j != i ==> v.io.recs[j] == w.io.recs[j]
    ensures v == w.(io := w.io.(recs := v.io.recs))
  {
    var rec := w.io.recs[i];
    if rec.remainingTime <= 0 then w.(io := w.io.(recs := w.io.recs[i := rec.(completionTime := w.clock)]))
    else w
  }

  // --------------------------------------------------- updateQueuesAfterAging

  /** The filter of the aging pass. */
  predicate AgingCandidate(rec: ProcessRecord, idx: nat, levels: seq<seq<nat>>, runPid: int)
  {
    && rec.remainingTime > 0
    && rec.pid != runPid
    && rec.state != WaitingIO
    && 0 <= rec.prio < |levels|
    && idx in levels[rec.prio]
  }

  datatype AgedPass = AgedPass(recs: seq<ProcessRecord>, aged: seq<nat>)

  /** Phase 1 over pool indices 0..n-1: age each candidate and collect the promoted ones. */
  function AgePass(recs: seq<ProcessRecord>, levels: seq<seq<nat>>, runPid: int, delta: int, n: nat): (a: AgedPass)
    requires n <= |recs|
    ensures |a.recs| == |recs|
    ensures forall k :: 0 <= k < |a.aged| ==> a.aged[k] < n
    decreases n
  {
    if n == 0 then AgedPass(recs, [])
    else
      var prev := AgePass(recs, levels, runPid, delta, n - 1);
      var rec := prev.recs[n - 1];
      if AgingCandidate(rec, n - 1, levels, runPid) then
        var g := Aged(rec, delta);
        AgedPass(prev.recs[n - 1 := g.record], if g.promoted then prev.aged + [n - 1] else prev.aged)
      else prev
  }

  /** The priorities every promoted index moves between are levels that exist. */
  predicate MovesInRange(recs: seq<ProcessRecord>, aged: seq<nat>, levels: nat)
  {
    forall k :: 0 <= k < |aged| ==>
      aged[k] < |recs| && 0 <= recs[aged[k]].oldPrio < levels && 0 <= recs[aged[k]].prio < levels
  }

  /** `readyQueue[l].remove(id)`: level l loses its first occurrence of id. */
  function Unfiled(w: World, l: nat, id: nat): (v: World)
    requires l < |w.levels|
    ensures v == w.(levels := w.levels[l := RemoveFirst(w.levels[l], id)])
  {
    w.(levels := w.levels[l := RemoveFirst(w.levels[l], id)])
  }

  /** Phase 2: remove each promoted index from its old level and push it onto its new one. */
  function Migrate(w: World, P: Params, aged: seq<nat>): (r: Result<World>)
    requires WF(w, P) && MovesInRange(w.io.recs, aged, |w.levels|)
    ensures r.Ok? ==> WF(r.value, P) && r.value == w.(levels := r.value.levels)
    decreases |aged|
  {
    if aged == [] then Ok(w)
    else
      assert MovesInRange(w.io.recs, aged[..|aged| - 1], |w.levels|);
      match Migrate(w, P, aged[..|aged| - 1])
      case Err(m) => Err(m)
      case Ok(w1) =>
        var id := aged[|aged| - 1];
        var rec := w1.io.recs[id];
        PushLevel(Unfiled(w1, rec.oldPrio, id), P, rec.prio, id)
  }

  /** Phase 1 keeps priorities in range and leaves each promoted index one level above. */
  lemma {:induction false} AgePassInRange(recs: seq<ProcessRecord>, levels: seq<seq<nat>>, runPid: int,
                                          delta: int, n: nat, maxPriority: int)
    requires n <= |recs| && |levels| == maxPriority + 1
    requires forall j :: 0 <= j < |recs| ==> 0 <= recs[j].prio <= maxPriority
    ensures var a := AgePass(recs, levels, runPid, delta, n);
      && (forall j :: 0 <= j < |recs| ==> 0 <= a.recs[j].prio <= maxPriority)
      && MovesInRange(a.recs, a.aged, |levels|)
      && (forall k :: 0 <= k < |a.aged| ==> a.recs[a.aged[k]].oldPrio == a.recs[a.aged[k]].prio + 1)
    decreases n
  {
    if n > 0 {
      AgePassInRange(recs, levels, runPid, delta, n - 1, maxPriority);
    }
  }

  /** `updateQueuesAfterAging(p, delta)`. */
  function QueuesAfterAging(w: World, P: Params, runPid: int, delta: int): (r: Result<World>)
    requires WF(w, P)
    ensures r.Ok? ==> WF(r.value, P)
  {
    var a := AgePass(w.io.recs, w.levels, runPid, delta, |w.io.recs|);
    AgePassInRange(w.io.recs, w.levels, runPid, delta, |w.io.recs|, P.maxPriority);
    Migrate(w.(io := w.io.(recs := a.recs)), P, a.aged)
  }

  /** The end of the loop body: remember the time and pid, log the event. */
  function Logged(w: World, i: nat, pid: int): (v: World)
    requires i < |w.io.recs|
    ensures v.lastTime == v.clock == w.clock && v.lastPid == Some(pid)
    ensures v.io == w.io && v.levels == w.levels
    // the log only grows, by one event describing block i as it now stands
    ensures |v.log| == |w.log| + 1 && v.log[..|w.log|] == w.log
    ensures var e := v.log[|w.log|]; var r := w.io.recs[i];
      e.pid == r.pid && e.prio == r.prio && e.kind == Classify(r) && e.remainingTime == r.remainingTime
      && e.stateName == StateName(r.state)
  {
    w.(lastTime := w.clock, lastPid := Some(pid), log := w.log + [EventOf(w.io.recs[i])])
  }

  // --------------------------------------------------------------- dispatch

  datatype Entry = Entry(world: World, i: nat, pid: int, delta: int)

  /** The loop body up to the slice: pop, context switch, I/O tick over the delta. */
  function Entered(w: World, P: Params, el: nat): (r: Result<Entry>)
    requires WF(w, P) && 1 <= el < |w.levels| && w.levels[el] != []
    ensures r.Ok? ==> WF(r.value.world, P) && r.value.i < |r.value.world.io.recs|
  {
    var i := w.levels[el][0];
    var pid := w.io.recs[i].pid;
    var w2 := Switched(Popped(w, el), P, pid);
    var delta := w2.clock - w2.lastTime;
    match DispatchTick(w2, P, delta)
    case Err(m) => Err(m)
    case Ok(w3) => Ok(Entry(w3, i, pid, delta))
  }

  /** The loop body from the slice on: response, slice, routing, completion, aging, log. */
  function Served(w: World, P: Params, i: nat, el: nat, pid: int, delta: int): (r: Result<World>)
    requires WF(w, P) && i < |w.io.recs| && el < |w.levels|
    ensures r.Ok? ==> WF(r.value, P)
  {
    var x := Ran(Responded(w, P, i), P, i);
    match Routed(x.world, P, i, el, x.elapsed)
    case Err(m) => Err(m)
    case Ok(w5) =>
      match QueuesAfterAging(Completed(w5, P, i), P, pid, delta)
      case Err(m) => Err(m)
      case Ok(w6) => Ok(Logged(w6, i, pid))
  }

  /** The loop body once level `el` has been selected. */
  function Dispatch(w: World, P: Params, el: nat): (r: Result<World>)
    requires WF(w, P) && 1 <= el < |w.levels| && w.levels[el] != []
    ensures r.Ok? ==> WF(r.value, P)
  {
    match Entered(w, P, el)
    case Err(m) => Err(m)
    case Ok(e) => Served(e.world, P, e.i, el, e.pid, e.delta)
  }

  /** One iteration of the `while (true)` loop: `go` is false once it breaks. */
  function Iterate(w: World, P: Params): (r: Result<Stepped>)
    requires WF(w, P)
    ensures r.Ok? ==> WF(r.value.world, P)
  {
    match CleanUp(w, P)
    case Err(m) => Err(m)
    case Ok(s) =>
      if !s.go then Ok(s)
      else
        match FirstNonEmpty(s.world.levels, 1)
        case None => Ok(s)
        case Some(el) =>
          match Dispatch(s.world, P, el)
          case Err(m) => Err(m)
          case Ok(w1) => Ok(Stepped(true, w1))
  }

  /** At most `fuel` iterations; `go` is still true if the loop has not broken by then. */
  function RunFor(w: World, P: Params, fuel: nat): (r: Result<Stepped>)
    requires WF(w, P)
    ensures r.Ok? ==> WF(r.value.world, P)
    decreases fuel
  {
    if fuel == 0 then Ok(Stepped(true, w))
    else
      match Iterate(w, P)
      case Err(m) => Err(m)
      case Ok(s) => if !s.go then Ok(s) else RunFor(s.world, P, fuel - 1)
  }

  // ---------------------------------------------------------------- seeding

  /** `std::clamp(v, lo, hi)` for lo <= hi. */
  function Clamp(v: int, lo: int, hi: int): (c: int)
    requires lo <= hi
    ensures lo <= c <= hi
    ensures lo <= v <= hi ==> c == v
  {
    if v < lo then lo else if hi < v then hi else v
  }

  /**
   * The seeding priority as written: the guard is `prio < 0 || prio > max`, so a
   * priority of 0 is left as it is and the index lands in level 0.
   */
  function SeedPriorityAsWritten(prio: int, maxPriority: int): (p: int)
    requires 1 <= maxPriority
    ensures 0 <= p <= maxPriority
    ensures 0 <= prio <= maxPriority ==> p == prio
    ensures prio < 0 ==> p == 1
    ensures prio > maxPriority ==> p == maxPriority
  {
    if prio < 0 || prio > maxPriority then Clamp(prio, 1, maxPriority) else prio
  }

  /**
   * The seeding priority as the clamp into [1, max] intends: every priority
   * outside the scanned levels 1..maxPriority, 0 included, is clamped.
   */
  function SeedPriority(prio: int, maxPriority: int): (p: int)
    requires 1 <= maxPriority
    ensures 1 <= p <= maxPriority
    ensures 1 <= prio <= maxPriority ==> p == prio
    ensures prio < 1 ==> p == 1
    ensures prio > maxPriority ==> p == maxPriority
  {
    if prio < 1 || prio > maxPriority then Clamp(prio, 1, maxPriority) else prio
  }

  /** n empty ready queues. */
  function EmptyLevels(n: nat): (ls: seq<seq<nat>>)
    ensures |ls| == n && forall l :: 0 <= l < n ==> ls[l] == []
  {
    if n == 0 then [] else EmptyLevels(n - 1) + [[]]
  }

  datatype Seeded = Seeded(recs: seq<ProcessRecord>, levels: seq<seq<nat>>)

  /** The first n records of rs are those of recs with the seeding priority, the rest as they were. */
  ghost predicate Reprioritized(recs: seq<ProcessRecord>, rs: seq<ProcessRecord>, P: Params, n: nat)
    requires 1 <= P.maxPriority && |rs| == |recs|
  {
    && (forall j :: 0 <= j < n && j < |recs| ==> rs[j] == recs[j].(prio := SeedPriority(recs[j].prio, P.maxPriority)))
    && (forall j :: n <= j < |recs| ==> rs[j] == recs[j])
  }

  /** The seeding loop over pool indices 0..n-1. */
  function SeedLevels(recs: seq<ProcessRecord>, P: Params, n: nat): (r: Result<Seeded>)
    requires 1 <= P.maxPriority && n <= |recs|
    ensures r.Ok? ==> |r.value.recs| == |recs| && |r.value.levels| == P.maxPriority + 1
    ensures r.Ok? ==> Reprioritized(recs, r.value.recs, P, n)
    ensures r.Ok? ==> forall l :: 0 <= l < |r.value.levels| ==> Indices(r.value.levels[l], n)
    ensures r.Err? ==> r.message == "Queue is full"
    decreases n
  {
    if n == 0 then Ok(Seeded(recs, EmptyLevels(P.maxPriority + 1)))
    else
      match SeedLevels(recs, P, n - 1)
      case Err(m) => Err(m)
      case Ok(s) => SeedNext(s, P, n - 1)
  }

  /** One pass of the seeding loop: block n's priority clamped, n pushed onto that level unless full. */
  function SeedNext(s: Seeded, P: Params, n: nat): (r: Result<Seeded>)
    requires 1 <= P.maxPriority && n < |s.recs| && |s.levels| == P.maxPriority + 1
    ensures r.Err? <==> |s.levels[SeedPriority(s.recs[n].prio, P.maxPriority)]| >= P.capacity
  {
    var rec := s.recs[n];
    var prio := SeedPriority(rec.prio, P.maxPriority);
    if |s.levels[prio]| >= P.capacity then Err("Queue is full")
    else Ok(Seeded(s.recs[n := rec.(prio := prio)], s.levels[prio := s.levels[prio] + [n]]))
  }

  /** The state at the loop's first head: seeded queues, clock 0, nothing ran yet. */
  function Initial(recs: seq<ProcessRecord>, P: Params): (r: Result<World>)
    requires 1 <= P.maxPriority
    ensures r.Ok? ==> WF(r.value, P) && r.value.io.queue == [] && r.value.clock == 0
  {
    match SeedLevels(recs, P, |recs|)
    case Err(m) => Err(m)
    case Ok(s) => Ok(World(IoView(s.recs, [], []), s.levels, 0, 0, None, []))
  }
}
