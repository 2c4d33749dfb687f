/**
 * `loadConfig` of the scheduler: the validated settings become the scheduler's
 * parameters, the process list (at most the queue capacity long) becomes a
 * pool of fresh blocks in list order, and the scheduler starts with empty
 * ready queues and an idle I/O manager over that pool.
 */
module Loading {
  import opened Wrappers
  import opened Decimal
  import opened Pcb
  import opened IO
  import opened Scheduling
  import opened Config
  import opened RoundRobin

  const TooManyPrefix := "To many processes, the maximum size is: "

  /** The process-count check: more processes than a queue holds throws. */
  function CheckProcessCount(count: nat, capacity: nat): (o: Outcome)
    ensures o.Pass? <==> count <= capacity
    ensures o.Fail? ==> o.message == TooManyPrefix + NatToString(capacity)
  {
    if count > capacity then Fail(TooManyPrefix + NatToString(capacity))
    else Pass
  }

  /** The record a block built from configuration `c` starts with. */
  function InitialRecordOf(c: ProcessConfig, sc: SchedulerConfig): (p: ProcessRecord)
    ensures p.pid == c.pid && p.prio == c.priority && p.remainingTime == c.burst && p.state == Ready
    ensures p.ioBound == c.ioBound && p.ioInterval == c.ioInterval
    ensures p.agingThreshold == sc.agingThreshold && p.timeQuantum == sc.timeQuantum
    ensures p.cpuUsed == 0 && p.totalCpuUsed == 0 && Conserved(p)
  {
    InitialRecord(c.pid, c.priority, c.burst, c.ioBound, c.ioInterval, sc.agingThreshold, sc.timeQuantum)
  }

  /** The `emplace_back` loop: one fresh block per configuration, in order. */
  method BuildPool(confs: seq<ProcessConfig>, sc: SchedulerConfig) returns (pool: seq<Pcb>)
    ensures |pool| == |confs| && Distinct(pool)
    ensures forall i :: 0 <= i < |pool| ==> fresh(pool[i])
    ensures forall i :: 0 <= i < |confs| ==> pool[i].Record() == InitialRecordOf(confs[i], sc)
  {
    pool := [];
    var k := 0;
    while k < |confs|
      invariant k <= |confs| && |pool| == k && Distinct(pool)
      invariant forall i :: 0 <= i < k ==> fresh(pool[i])
      invariant forall i :: 0 <= i < k ==> pool[i].Record() == InitialRecordOf(confs[i], sc)
    {
      var c := confs[k];
      var p := new Pcb(c.pid, c.priority, c.burst, c.ioBound, c.ioInterval, sc.agingThreshold, sc.timeQuantum);
      pool := pool + [p];
      k := k + 1;
    }
  }

  /**
   * `loadConfig` from a loader whose validation passed: too many processes
   * throws; otherwise the scheduler holds the settings and the pool built from
   * the list, with every level empty.
   */
  method LoadConfig(loader: ConfigLoader, contextSwitchTime: int, capacity: nat) returns (r: Result<Scheduler>)
    requires Validated(loader.configData).Ok? && loader.schedConf == Validated(loader.configData).value
    ensures var confs := ProcessConfigs(loader.configData.processes.value);
      && (r.Err? <==> |confs| > capacity)
      && (r.Err? ==> r.message == CheckProcessCount(|confs|, capacity).message)
    ensures r.Ok? ==>
      var sc := loader.schedConf;
      var confs := ProcessConfigs(loader.configData.processes.value);
      && fresh(r.value) && r.value.Valid()
      && r.value.P == Params(sc.timeQuantum, sc.maxPriority, contextSwitchTime, capacity)
      && |r.value.pool| == |confs|
      && (forall i :: 0 <= i < |confs| ==> r.value.View().io.recs[i] == InitialRecordOf(confs[i], sc))
      && r.value.View().io == IoView(Records(r.value.pool), [], [])
      && r.value.View().levels == EmptyLevels(sc.maxPriority + 1)
      && r.value.View().clock == 0 && r.value.View().lastTime == 0
  {
    ValidatedProcesses(loader.configData);
    var sc := loader.schedConf;
    var P := Params(sc.timeQuantum, sc.maxPriority, contextSwitchTime, capacity);
    var confs := loader.GetProcessConfig();
    var o := CheckProcessCount(|confs|, capacity);
    if o.Fail? {
      return Err(o.message);
    }
    var pool := BuildPool(confs, sc);
    var s := new Scheduler(P, pool);
    return Ok(s);
  }
}
