/**
 * From a validated configuration to the run of the pool it builds.
 *
 * Validation checks the scheduler settings and that the pids are distinct,
 * but nothing about a process's burst or I/O interval.  A process with no work
 * passes it and is never marked FINISHED; an I/O-bound process whose interval
 * is not positive passes it and runs slices of length 0, so it drops out of
 * every queue while its work remains and the loop spins forever.  A list of
 * runnable processes (positive burst, positive interval when I/O-bound) is
 * exactly what the drain theorem needs.
 */
module ConfiguredRun {
  import opened Wrappers
  import opened Pcb
  import opened IO
  import opened Scheduling
  import opened SchedulingInvariant
  import opened SchedulingPreservation
  import opened SchedulingSeed
  import opened Config
  import opened Loading
  import opened Metrics

  /** A process the scheduler can run to the end: some work and, when I/O-bound, a usable interval. */
  predicate Runnable(c: ProcessConfig)
  {
    c.burst > 0 && (c.ioBound ==> 0 < c.ioInterval <= INT_MAX)
  }

  /** The records of the pool `loadConfig` builds from a list, in list order. */
  function PoolOf(confs: seq<ProcessConfig>, sc: SchedulerConfig): (recs: seq<ProcessRecord>)
    ensures |recs| == |confs|
    ensures forall i :: 0 <= i < |confs| ==> recs[i] == InitialRecordOf(confs[i], sc)
  {
    seq(|confs|, i requires 0 <= i < |confs| => InitialRecordOf(confs[i], sc))
  }

  /** The scheduler's parameters after `loadConfig`. */
  function ParamsOf(sc: SchedulerConfig, contextSwitchTime: int, capacity: nat): Params
  {
    Params(sc.timeQuantum, sc.maxPriority, contextSwitchTime, capacity)
  }

  /** A fresh block is one the seeding loop accepts exactly when its configuration is runnable. */
  lemma RunnableSeedable(c: ProcessConfig, sc: SchedulerConfig)
    ensures Runnable(c) <==> SeedableRecord(InitialRecordOf(c, sc))
  {
  }

  /**
   * Validation never looks at burst or interval: a document with the default
   * settings and one process validates, whatever that process's burst and interval.
   */
  lemma UncheckedEntry(e: ProcessEntry)
    ensures Validated(ConfigData(Some(SchedulerSection(None, None, None)), Some([e]))).Ok?
  {
    var d := ConfigData(Some(SchedulerSection(None, None, None)), Some([e]));
    assert SchedulerChecked(d).Ok?;
    assert ProcessChecked(d).Pass?;
  }

  /** A validated list of runnable processes that fits the queues builds a seedable pool. */
  lemma ConfiguredSeedable(d: ConfigData, contextSwitchTime: int, capacity: nat)
    requires Validated(d).Ok? && d.processes.Some? && |d.processes.value| <= capacity
    requires forall c :: c in ProcessConfigs(d.processes.value) ==> Runnable(c)
    ensures Seedable(PoolOf(ProcessConfigs(d.processes.value), Validated(d).value),
                     ParamsOf(Validated(d).value, contextSwitchTime, capacity))
  {
    ValidatedProcesses(d);
    var sc := Validated(d).value;
    var cs := ProcessConfigs(d.processes.value);
    var recs := PoolOf(cs, sc);
    forall j | 0 <= j < |recs|
      ensures SeedableRecord(recs[j])
    {
      assert cs[j] in cs;
      RunnableSeedable(cs[j], sc);
    }
  }

  /**
   * The round-robin over the pool of a validated list of runnable processes
   * that fits the queues: given more iterations than the total burst, the loop
   * breaks with every block FINISHED, nothing waiting on I/O, and each block's
   * waiting time its lifetime less its burst and its I/O time.
   */
  lemma ConfiguredRunDrains(d: ConfigData, contextSwitchTime: int, capacity: nat, fuel: nat)
    requires Validated(d).Ok? && d.processes.Some? && |d.processes.value| <= capacity
    requires forall c :: c in ProcessConfigs(d.processes.value) ==> Runnable(c)
    requires fuel > TotalWork(PoolOf(ProcessConfigs(d.processes.value), Validated(d).value))
    ensures var recs := PoolOf(ProcessConfigs(d.processes.value), Validated(d).value);
      var P := ParamsOf(Validated(d).value, contextSwitchTime, capacity);
      && Initial(recs, P).Ok?
      && var r := RunFor(Initial(recs, P).value, P, fuel);
      && r.Ok? && !r.value.go && r.value.world.io.queue == [] && |r.value.world.io.recs| == |recs|
      && forall j :: 0 <= j < |recs| ==>
           var b := r.value.world.io.recs[j];
           && b.state == Finished
           && ProcessMetricsOf(b).waitingTime == b.completionTime - b.burstTime - b.totalIOTime
  {
    var recs := PoolOf(ProcessConfigs(d.processes.value), Validated(d).value);
    var P := ParamsOf(Validated(d).value, contextSwitchTime, capacity);
    ConfiguredSeedable(d, contextSwitchTime, capacity);
    SeededRunDrains(recs, P, fuel);
    var w := RunFor(Initial(recs, P).value, P, fuel).value.world;
    forall j | 0 <= j < |recs|
      ensures Conserved(w.io.recs[j])
    {
      assert RecordOk(w.io.recs[j], P);
    }
  }

  // ---------------------------------------------- processes validation lets through

  /** The seeded state of a one-block pool: the block filed under its clamped priority. */
  lemma SeededSingle(rec: ProcessRecord, P: Params)
    requires 1 <= P.maxPriority && 1 <= P.capacity
    ensures var p := SeedPriority(rec.prio, P.maxPriority);
      Initial([rec], P) == Ok(World(IoView([rec.(prio := p)], [], []),
                                    EmptyLevels(P.maxPriority + 1)[p := [0]], 0, 0, None, []))
  {
    var p := SeedPriority(rec.prio, P.maxPriority);
    var s0 := Seeded([rec], EmptyLevels(P.maxPriority + 1));
    assert SeedLevels([rec], P, 0) == Ok(s0);
    assert |s0.levels[p]| == 0 && s0.levels[p] + [0] == [0];
    assert [rec][0 := rec.(prio := p)] == [rec.(prio := p)];
    assert SeedNext(s0, P, 0) == Ok(Seeded([rec.(prio := p)], s0.levels[p := [0]]));
    assert SeedLevels([rec], P, 1) == SeedNext(s0, P, 0);
  }

  /**
   * A process with no work: the loop breaks at once, and the block is left
   * READY with no completion time, so its turnaround is reported as -1.
   */
  lemma BurstZeroLeftReady(c: ProcessConfig, sc: SchedulerConfig, P: Params, fuel: nat)
    requires c.burst <= 0 && 1 <= P.maxPriority && 1 <= P.capacity && fuel > 0
    ensures !Runnable(c)
    ensures Initial([InitialRecordOf(c, sc)], P).Ok?
    ensures var r := RunFor(Initial([InitialRecordOf(c, sc)], P).value, P, fuel);
      && r.Ok? && !r.value.go && |r.value.world.io.recs| == 1
      && r.value.world.io.recs[0].state == Ready && r.value.world.io.recs[0].completionTime == -1
      && ProcessMetricsOf(r.value.world.io.recs[0]).turnaroundTime == -1
  {
    var rec := InitialRecordOf(c, sc);
    SeededSingle(rec, P);
    var w := Initial([rec], P).value;
    assert !HasWork(w.io.recs);
    assert Iterate(w, P) == Ok(Stepped(false, Stamped(w)));
  }

  /**
   * The loop body from the slice on, for a lone READY block whose slice bound is
   * not positive and no queued index: nothing runs, nothing is filed, and only
   * the first response and the log are written.
   */
  lemma IdleServed(w: World, P: Params, el: nat, pid: int)
    requires WF(w, P) && |w.io.recs| == 1 && w.io.queue == [] && el < |w.levels|
    requires forall l :: 0 <= l < |w.levels| ==> w.levels[l] == []
    requires w.io.recs[0].state == Ready && w.io.recs[0].remainingTime > 0
    requires ComputeExecuteTime(w.io.recs[0], P.timeQuantum) <= 0
    ensures Served(w, P, 0, el, pid, 0) == Ok(Logged(Responded(w, P, 0), 0, pid))
  {
    var wr := Responded(w, P, 0);
    assert ComputeExecuteTime(wr.io.recs[0], P.timeQuantum) <= 0;
    var x := Ran(wr, P, 0);
    assert x.world == wr && x.elapsed == 0;
    assert Routed(wr, P, 0, el, 0) == Ok(wr);
    assert Completed(wr, P, 0) == wr;
    assert !AgingCandidate(wr.io.recs[0], 0, wr.levels, pid);
    assert AgePass(wr.io.recs, wr.levels, pid, 0, 1) == AgedPass(wr.io.recs, []);
    assert QueuesAfterAging(wr, P, pid, 0) == Ok(wr);
  }

  /**
   * The first iteration from the seeded state of a lone READY block whose slice
   * bound is not positive: the block is popped, runs for 0 and is filed nowhere.
   */
  lemma IdleIteration(w: World, P: Params, p: nat) returns (w1: World)
    requires WF(w, P) && |w.io.recs| == 1 && w.io.queue == [] && w.io.finished == []
    requires 1 <= p < |w.levels| && w.levels == EmptyLevels(P.maxPriority + 1)[p := [0]]
    requires w.clock == w.lastTime && w.lastPid.None?
    requires w.io.recs[0].state == Ready && w.io.recs[0].remainingTime > 0
    requires ComputeExecuteTime(w.io.recs[0], P.timeQuantum) <= 0
    ensures Iterate(w, P) == Ok(Stepped(true, w1))
    ensures WF(w1, P) && |w1.io.recs| == 1 && w1.io.queue == [] && !AnyLevelHasWork(w1.levels)
    ensures w1.io.recs[0].state == Ready && w1.io.recs[0].remainingTime == w.io.recs[0].remainingTime
  {
    assert HasWork(w.io.recs) by { assert w.io.recs[0].remainingTime > 0; }
    assert AnyLevelHasWork(w.levels) by { assert w.levels[p] != []; }
    assert FirstNonEmpty(w.levels, 1) == Some(p);
    var empty := EmptyLevels(P.maxPriority + 1);
    var wp := w.(levels := empty);
    assert w.levels[p := w.levels[p][1..]] == empty by {
      assert forall l :: 0 <= l < |empty| ==> w.levels[p := w.levels[p][1..]][l] == empty[l];
    }
    assert Entered(w, P, p) == Ok(Entry(wp, 0, w.io.recs[0].pid, 0));
    IdleServed(wp, P, p, w.io.recs[0].pid);
    w1 := Logged(Responded(wp, P, 0), 0, w.io.recs[0].pid);
    assert Dispatch(w, P, p) == Ok(w1);
  }

  /**
   * An I/O-bound process with an interval that is not positive: its first
   * dispatch runs a slice of length 0, after which it is in no ready queue and
   * not in the I/O queue with its whole burst left, and the loop never breaks.
   */
  lemma IntervalZeroStalls(c: ProcessConfig, sc: SchedulerConfig, P: Params, fuel: nat)
    requires c.ioBound && c.ioInterval <= 0 && c.burst > 0 && 1 <= P.maxPriority && 1 <= P.capacity
    ensures !Runnable(c)
    ensures Initial([InitialRecordOf(c, sc)], P).Ok?
    ensures var r := RunFor(Initial([InitialRecordOf(c, sc)], P).value, P, fuel);
      && r.Ok? && r.value.go
      && (fuel > 0 ==>
            && |r.value.world.io.recs| == 1 && r.value.world.io.recs[0].state == Ready
            && r.value.world.io.recs[0].remainingTime == c.burst
            && r.value.world.io.queue == [] && !AnyLevelHasWork(r.value.world.levels))
  {
    hide Iterate, CleanUp, Dispatch, Logged, Responded, SeedLevels;
    var rec := InitialRecordOf(c, sc);
    SeededSingle(rec, P);
    var w := Initial([rec], P).value;
    if fuel > 0 {
      var w1 := IdleIteration(w, P, SeedPriority(rec.prio, P.maxPriority));
      assert HasWork(w1.io.recs) by { assert w1.io.recs[0].remainingTime > 0; }
      StallForever(w1, P, fuel - 1);
    }
  }
}
