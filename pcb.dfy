/**
 * The process control block of the simulator: one process's simulation state
 * and its local state machine READY / RUNNING / WAITING_IO / FINISHED.
 *
 * `ProcessRecord` is the value view of a block; the functions over it specify
 * the operations, and class `Pcb` implements them by updating its fields in
 * place, each method proved to produce the record its function describes.
 */
module Pcb {
  import opened Wrappers

  datatype ProcessState = Ready | Running | WaitingIO | Finished

  datatype ProcessRecord = ProcessRecord(
    pid: int,
    prio: int,
    oldPrio: int,
    burstTime: int,
    remainingTime: int,
    waitingTime: int,
    ioBound: bool,
    ioInterval: int,
    ioRemaining: int,
    cpuUsed: int,            // CPU time used since the last I/O started
    totalCpuUsed: int,
    completionTime: int,
    totalIOTime: int,
    firstResponse: bool,
    firstResponseTime: int,
    state: ProcessState,
    agingThreshold: int,
    timeQuantum: int)

  /** The record a freshly constructed block holds. */
  function InitialRecord(pid: int, prio: int, burst: int, ioBound: bool, ioInterval: int,
                         agingThreshold: int, timeQuantum: int): (p: ProcessRecord)
    ensures p.state == Ready && p.remainingTime == burst && p.prio == p.oldPrio == prio
    ensures p.cpuUsed == 0 && p.totalCpuUsed == 0 && p.waitingTime == 0 && p.ioRemaining == 0
    ensures !p.firstResponse && p.firstResponseTime == -1 && p.completionTime == -1
    // a fresh block has all of its burst still to run
    ensures Conserved(p)
  {
    ProcessRecord(pid, prio, prio, burst, burst, 0, ioBound, ioInterval, 0, 0, 0, -1, 0,
                  false, -1, Ready, agingThreshold, timeQuantum)
  }

  /**
   * CPU-time conservation: until the process finishes, the CPU time folded into
   * the total, the CPU time of the current I/O interval and the remaining work
   * add up to the burst; once finished, the total is the burst.
   */
  predicate Conserved(p: ProcessRecord)
  {
    && (p.state != Finished ==> p.totalCpuUsed + p.cpuUsed + p.remainingTime == p.burstTime)
    && (p.state == Finished ==> p.totalCpuUsed == p.burstTime && p.remainingTime == 0)
  }

  /** The length of the slice `execute` would run: the least of the bounds. */
  function ComputeExecuteTime(p: ProcessRecord, timeslice: int): (e: int)
    ensures e <= timeslice && e <= p.remainingTime
    ensures p.ioBound ==> e <= p.ioInterval - p.cpuUsed
    ensures e == timeslice || e == p.remainingTime || (p.ioBound && e == p.ioInterval - p.cpuUsed)
  {
    if p.ioBound then Min(Min(timeslice, p.remainingTime), p.ioInterval - p.cpuUsed)
    else Min(timeslice, p.remainingTime)
  }

  /** The state transition taken at the end of a slice. */
  function StatesUpdatedAfterExecution(p: ProcessRecord): ProcessRecord
  {
    if p.remainingTime <= 0 then
      p.(state := Finished, totalCpuUsed := p.totalCpuUsed + p.cpuUsed, remainingTime := 0)
    else if p.ioBound && p.cpuUsed >= p.ioInterval then
      p.(state := WaitingIO)
    else
      p.(state := Ready)
  }

  datatype Execution = Execution(record: ProcessRecord, elapsed: int)

  /** One bounded slice of at most `timeslice` CPU units. */
  function Executed(p: ProcessRecord, timeslice: int): (x: Execution)
    // a non-positive bound runs nothing and changes nothing
    ensures ComputeExecuteTime(p, timeslice) <= 0 ==> x == Execution(p, 0)
    // otherwise exactly the bound runs, taken from the remaining work
    ensures ComputeExecuteTime(p, timeslice) > 0 ==>
      && x.elapsed == ComputeExecuteTime(p, timeslice)
      && 0 < x.elapsed <= timeslice
      && x.record.remainingTime == p.remainingTime - x.elapsed
      && x.record.cpuUsed == p.cpuUsed + x.elapsed
      && x.record.state != Running
      && (x.record.state == Finished <==> x.record.remainingTime == 0)
      && (x.record.state == WaitingIO <==>
            x.record.remainingTime != 0 && p.ioBound && x.record.cpuUsed >= p.ioInterval)
      && (x.record.state == Ready <==>
            x.record.remainingTime != 0 && !(p.ioBound && x.record.cpuUsed >= p.ioInterval))
    // only the time accounting and the state change
    ensures x.record == p.(remainingTime := x.record.remainingTime, cpuUsed := x.record.cpuUsed,
                           totalCpuUsed := x.record.totalCpuUsed, state := x.record.state)
    ensures x.record.totalCpuUsed == p.totalCpuUsed ||
            (x.record.state == Finished && x.record.totalCpuUsed == p.totalCpuUsed + x.record.cpuUsed)
    // an I/O-bound slice never runs past its I/O interval
    ensures p.ioBound && p.cpuUsed <= p.ioInterval ==> x.record.cpuUsed <= p.ioInterval
    // and no CPU time is created or lost
    ensures Conserved(p) ==> Conserved(x.record)
  {
    var e := ComputeExecuteTime(p, timeslice);
    if e <= 0 then Execution(p, 0)
    else
      var running := p.(state := Running, remainingTime := p.remainingTime - e, cpuUsed := p.cpuUsed + e);
      Execution(StatesUpdatedAfterExecution(running), e)
  }

  datatype Aging = Aging(record: ProcessRecord, promoted: bool)

  /** Aging by `timediff`, promoting one level once the threshold is reached. */
  function Aged(p: ProcessRecord, timediff: int): (a: Aging)
    ensures a.promoted <==>
      p.waitingTime + timediff >= p.agingThreshold * p.timeQuantum && p.prio > 1
    ensures a.promoted ==>
      a.record == p.(oldPrio := p.prio, prio := p.prio - 1, waitingTime := 0)
    ensures !a.promoted ==> a.record == p.(waitingTime := p.waitingTime + timediff)
    // the floor: a priority-1 process never changes priority and keeps its wait
    ensures p.prio <= 1 ==> !a.promoted && a.record.prio == p.prio
    ensures Conserved(p) ==> Conserved(a.record)
  {
    var waited := p.waitingTime + timediff;
    if waited >= p.agingThreshold * p.timeQuantum && p.prio > 1 then
      Aging(p.(oldPrio := p.prio, prio := p.prio - 1, waitingTime := 0), true)
    else
      Aging(p.(waitingTime := waited), false)
  }

  /** Entering I/O: the interval's CPU time is folded into the total. */
  function IOStarted(p: ProcessRecord): (q: ProcessRecord)
    ensures q.state == WaitingIO && q.ioRemaining == p.ioInterval && q.cpuUsed == 0
    ensures q.totalCpuUsed == p.totalCpuUsed + p.cpuUsed
    ensures q.remainingTime == p.remainingTime && q.prio == p.prio
    ensures p.state != Finished && Conserved(p) ==> Conserved(q)
  {
    p.(totalCpuUsed := p.totalCpuUsed + p.cpuUsed, ioRemaining := p.ioInterval,
       cpuUsed := 0, state := WaitingIO)
  }

  /** Leaving I/O: the countdown and the wait are cleared and the process is ready. */
  function IOReset(p: ProcessRecord): (q: ProcessRecord)
    ensures q.state == Ready && q.ioRemaining == 0 && q.waitingTime == 0
    ensures q.remainingTime == p.remainingTime && q.cpuUsed == p.cpuUsed && q.prio == p.prio
    ensures p.state != Finished && Conserved(p) ==> Conserved(q)
  {
    p.(ioRemaining := 0, waitingTime := 0, state := Ready)
  }

  /** `startIO` twice in a row is `startIO` once. */
  lemma IOStartedIdempotent(p: ProcessRecord)
    ensures IOStarted(IOStarted(p)) == IOStarted(p)
  {
  }

  /** The name `getStringState` reports. */
  function StateName(s: ProcessState): (name: string)
    ensures s == Ready <==> name == "READY"
    ensures s == Running <==> name == "RUNNING"
    ensures s == WaitingIO <==> name == "WAITING IO"
    ensures s == Finished <==> name == "FINISHED"
  {
    match s
    case Ready => "READY"
    case Running => "RUNNING"
    case WaitingIO => "WAITING IO"
    case Finished => "FINISHED"
  }

  class Pcb {
    const pid: int
    var prio: int
    var oldPrio: int
    const burstTime: int
    var remainingTime: int
    var waitingTime: int
    const ioBound: bool
    const ioInterval: int
    var ioRemaining: int
    var cpuUsed: int
    var totalCpuUsed: int
    var completionTime: int
    var totalIOTime: int
    var firstResponse: bool
    var firstResponseTime: int
    var state: ProcessState
    const agingThreshold: int
    const timeQuantum: int

    /** The value this block currently holds. */
    function Record(): ProcessRecord
      reads this
    {
      ProcessRecord(pid, prio, oldPrio, burstTime, remainingTime, waitingTime, ioBound, ioInterval,
                    ioRemaining, cpuUsed, totalCpuUsed, completionTime, totalIOTime, firstResponse,
                    firstResponseTime, state, agingThreshold, timeQuantum)
    }

    constructor (pid: int, prio: int, burst: int, ioBound: bool, ioInterval: int,
                 agingThreshold: int, timeQuantum: int)
      ensures Record() == InitialRecord(pid, prio, burst, ioBound, ioInterval, agingThreshold, timeQuantum)
    {
      this.pid := pid;
      this.prio := prio;
      this.burstTime := burst;
      this.ioBound := ioBound;
      this.ioInterval := ioInterval;
      this.oldPrio := prio;
      this.remainingTime := burst;
      this.waitingTime := 0;
      this.ioRemaining := 0;
      this.cpuUsed := 0;
      this.totalCpuUsed := 0;
      this.completionTime := -1;
      this.totalIOTime := 0;
      this.firstResponse := false;
      this.firstResponseTime := -1;
      this.state := Ready;
      this.agingThreshold := agingThreshold;
      this.timeQuantum := timeQuantum;
    }

    function IsReady(): bool reads this { state == Ready }
    function IsRunning(): bool reads this { state == Running }
    function IsWaitingIO(): bool reads this { state == WaitingIO }
    function IsFinished(): bool reads this { state == Finished }

    method Execute(timeslice: int) returns (elapsed: int)
      modifies this
      ensures Executed(old(Record()), timeslice) == Execution(Record(), elapsed)
    {
      var executeTime := ComputeExecuteTime(Record(), timeslice);
      if executeTime <= 0 {
        return 0;
      }
      state := Running;
      remainingTime := remainingTime - executeTime;
      cpuUsed := cpuUsed + executeTime;
      UpdateStatesAfterExecution();
      return executeTime;
    }

    method UpdateStatesAfterExecution()
      modifies this
      ensures Record() == StatesUpdatedAfterExecution(old(Record()))
    {
      if remainingTime <= 0 {
        state := Finished;
        totalCpuUsed := totalCpuUsed + cpuUsed;
        remainingTime := 0;
      } else if ioBound && cpuUsed >= ioInterval {
        state := WaitingIO;
      } else {
        state := Ready;
      }
    }

    method AgeProcess(timediff: int) returns (promoted: bool)
      modifies this
      ensures Aged(old(Record()), timediff) == Aging(Record(), promoted)
    {
      waitingTime := waitingTime + timediff;
      if waitingTime >= agingThreshold * timeQuantum && prio > 1 {
        oldPrio := prio;
        prio := prio - 1;
        waitingTime := 0;
        return true;
      }
      return false;
    }

    method SetState(st: ProcessState)
      modifies this
      ensures Record() == old(Record()).(state := st)
    {
      state := st;
    }

    method SetPriority(p: int)
      modifies this
      ensures Record() == old(Record()).(prio := p)
    {
      prio := p;
    }

    method RecordFirstResponse(time: int)
      modifies this
      ensures Record() == old(Record()).(firstResponse := true, firstResponseTime := time)
    {
      firstResponse := true;
      firstResponseTime := time;
    }

    method SetIOTime(t: int)
      modifies this
      ensures Record() == old(Record()).(ioRemaining := t)
    {
      ioRemaining := t;
    }

    method SetCompletionTime(time: int)
      modifies this
      ensures Record() == old(Record()).(completionTime := time)
    {
      completionTime := time;
    }

    method IncrementTotalIO(time: int)
      modifies this
      ensures Record() == old(Record()).(totalIOTime := old(totalIOTime) + time)
    {
      totalIOTime := totalIOTime + time;
    }

    method ResetIO()
      modifies this
      ensures Record() == IOReset(old(Record()))
    {
      ioRemaining := 0;
      waitingTime := 0;
      state := Ready;
    }

    method StartIO()
      modifies this
      ensures Record() == IOStarted(old(Record()))
    {
      totalCpuUsed := totalCpuUsed + cpuUsed;
      ioRemaining := ioInterval;
      cpuUsed := 0;
      state := WaitingIO;
    }
  }

  /** No block occurs twice in the pool. */
  ghost predicate Distinct(pool: seq<Pcb>)
  {
    forall i, j :: 0 <= i < j < |pool| ==> pool[i] != pool[j]
  }

  /** The records the pool's blocks currently hold, index by index. */
  ghost function Records(pool: seq<Pcb>): (rs: seq<ProcessRecord>)
    reads pool
    ensures |rs| == |pool| && forall i :: 0 <= i < |pool| ==> rs[i] == pool[i].Record()
  {
    seq(|pool|, i requires 0 <= i < |pool| reads pool => pool[i].Record())
  }
}
