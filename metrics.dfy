/**
 * The metrics over the pool after a run: per block, turnaround (every block
 * arrives at time 0, so it is the completion time), waiting time (turnaround
 * less CPU and I/O time) and response time (the first dispatch); for the
 * system, the totals and the averages over the constant pool size `N`.
 * Class `Metrics` computes them in one pass, caches them, and answers lookups
 * only once they are computed.
 */
module Metrics {
  import opened Wrappers
  import opened Pcb

  /** The pool size of the process-control header, which every average divides by. */
  const N := 6

  const NotCalculated := "Metrics not calculated yet"
  const NotFound := "Process not found"

  datatype ProcessMetrics = ProcessMetrics(
    pid: int,
    turnaroundTime: int,
    waitingTime: int,
    responseTime: int,
    cpuTimeUsed: int,
    ioTimeUsed: int,
    completionTime: int)

  /** A result that IEEE division by a zero total time leaves infinite or undefined is `None`. */
  datatype SystemMetrics = SystemMetrics(
    avgTurnaroundTime: real,
    avgWaitingTime: real,
    avgResponseTime: real,
    cpuUtilization: Option<real>,
    throughput: Option<real>,
    totalTime: int,
    totalProcesses: int,
    perProcess: seq<ProcessMetrics>)

  /** `calculateProcessMetrics`: the figures of one block, from its record. */
  function ProcessMetricsOf(r: ProcessRecord): (pm: ProcessMetrics)
    ensures pm.pid == r.pid && pm.completionTime == r.completionTime && pm.responseTime == r.firstResponseTime
    ensures pm.cpuTimeUsed == r.totalCpuUsed && pm.ioTimeUsed == r.totalIOTime
    // every block arrives at time 0, and its lifetime splits into CPU, I/O and waiting time
    ensures pm.turnaroundTime == r.completionTime
    ensures pm.waitingTime + pm.cpuTimeUsed + pm.ioTimeUsed == pm.turnaroundTime
    // a finished block whose CPU time is conserved waited for its lifetime less its burst and its I/O
    ensures r.state == Finished && Conserved(r) ==>
      pm.waitingTime == r.completionTime - r.burstTime - r.totalIOTime
  {
    var turnaround := r.completionTime - 0;
    ProcessMetrics(r.pid, turnaround, turnaround - r.totalCpuUsed - r.totalIOTime,
                   r.firstResponseTime, r.totalCpuUsed, r.totalIOTime, r.completionTime)
  }

  /**
   * For a finished block whose CPU time is conserved, the waiting time is what
   * remains of its lifetime once its burst and its I/O time are taken out.
   */
  lemma WaitingOfFinished(r: ProcessRecord)
    requires r.state == Finished && Conserved(r)
    ensures ProcessMetricsOf(r).waitingTime == r.completionTime - r.burstTime - r.totalIOTime
    ensures ProcessMetricsOf(r).waitingTime + r.burstTime + r.totalIOTime == ProcessMetricsOf(r).turnaroundTime
  {
  }

  function Turnaround(pm: ProcessMetrics): int { pm.turnaroundTime }

  function Waiting(pm: ProcessMetrics): int { pm.waitingTime }

  function Response(pm: ProcessMetrics): int { pm.responseTime }

  function CpuTime(pm: ProcessMetrics): int { pm.cpuTimeUsed }

  /** The sum of one figure over a list, accumulated front to back. */
  function Total(pms: seq<ProcessMetrics>, f: ProcessMetrics -> int): int
    decreases |pms|
  {
    if pms == [] then 0 else Total(pms[..|pms| - 1], f) + f(pms[|pms| - 1])
  }

  /** One more entry adds its figure to the sum. */
  lemma TotalAppend(pms: seq<ProcessMetrics>, pm: ProcessMetrics, f: ProcessMetrics -> int)
    ensures Total(pms + [pm], f) == Total(pms, f) + f(pm)
  {
    assert (pms + [pm])[..|pms|] == pms;
  }

  /** The per-block figures, in pool order. */
  function PerProcess(recs: seq<ProcessRecord>): (pms: seq<ProcessMetrics>)
    ensures |pms| == |recs| && forall i :: 0 <= i < |recs| ==> pms[i] == ProcessMetricsOf(recs[i])
  {
    seq(|recs|, i requires 0 <= i < |recs| => ProcessMetricsOf(recs[i]))
  }

  /** The system figures from the four totals. */
  function Summary(turnaround: int, waiting: int, response: int, cpu: int, totalTime: int,
                   per: seq<ProcessMetrics>): (m: SystemMetrics)
    ensures m.avgTurnaroundTime * N as real == turnaround as real
    ensures m.avgWaitingTime * N as real == waiting as real
    ensures m.avgResponseTime * N as real == response as real
    ensures m.cpuUtilization.Some? <==> totalTime != 0
    ensures totalTime != 0 ==> m.cpuUtilization.value * totalTime as real == cpu as real * 100.0
    ensures m.throughput.Some? <==> totalTime != 0
    ensures totalTime != 0 ==> m.throughput.value * totalTime as real == N as real
    ensures m.totalTime == totalTime && m.totalProcesses == N && m.perProcess == per
  {
    SystemMetrics(
      turnaround as real / N as real,
      waiting as real / N as real,
      response as real / N as real,
      if totalTime == 0 then None else Some((cpu as real / totalTime as real) * 100.0),
      if totalTime == 0 then None else Some(N as real / totalTime as real),
      totalTime, N, per)
  }

  /** `calculate(totalTime)` over the pool's records. */
  function Calculated(recs: seq<ProcessRecord>, totalTime: int): (m: SystemMetrics)
    ensures |m.perProcess| == |recs|
    ensures forall i :: 0 <= i < |recs| ==> m.perProcess[i] == ProcessMetricsOf(recs[i])
    ensures m.totalTime == totalTime && m.totalProcesses == N
    ensures m.avgTurnaroundTime * N as real == Total(m.perProcess, Turnaround) as real
    ensures m.avgWaitingTime * N as real == Total(m.perProcess, Waiting) as real
  {
    var per := PerProcess(recs);
    Summary(Total(per, Turnaround), Total(per, Waiting), Total(per, Response), Total(per, CpuTime),
            totalTime, per)
  }

  /** Entry i is the first with the pid. */
  predicate FirstWith(per: seq<ProcessMetrics>, pid: int, i: int)
  {
    0 <= i < |per| && per[i].pid == pid && forall j :: 0 <= j < i ==> per[j].pid != pid
  }

  /** `getProcessMetrics` over a computed list: the first entry with the pid. */
  function Lookup(per: seq<ProcessMetrics>, pid: int): (r: Result<ProcessMetrics>)
    ensures r.Ok? <==> exists i :: 0 <= i < |per| && per[i].pid == pid
    ensures r.Ok? ==> exists i :: FirstWith(per, pid, i) && per[i] == r.value
    ensures r.Err? ==> r.message == NotFound
    decreases |per|
  {
    if per == [] then Err(NotFound)
    else if per[0].pid == pid then Ok(per[0])
    else
      var r := Lookup(per[1..], pid);
      assert forall i :: 1 <= i < |per| ==> per[i] == per[1..][i - 1];
      r
  }

  /** With distinct pids, looking up a block's pid finds exactly that block's figures. */
  lemma LookupOwn(recs: seq<ProcessRecord>, totalTime: int, i: nat)
    requires i < |recs| && forall a, b :: 0 <= a < b < |recs| ==> recs[a].pid != recs[b].pid
    ensures Lookup(Calculated(recs, totalTime).perProcess, recs[i].pid) == Ok(ProcessMetricsOf(recs[i]))
  {
    var per := Calculated(recs, totalTime).perProcess;
    var r := Lookup(per, recs[i].pid);
    var k :| FirstWith(per, recs[i].pid, k) && per[k] == r.value;
    assert recs[k].pid == recs[i].pid;
  }

  class Metrics {
    const pool: seq<Pcb>
    var calculated: bool
    var cached: SystemMetrics

    constructor (pool: seq<Pcb>)
      ensures this.pool == pool && !calculated
    {
      this.pool := pool;
      calculated := false;
      cached := SystemMetrics(0.0, 0.0, 0.0, None, None, 0, 0, []);
    }

    /** One pass over the pool accumulating the totals; the result is cached. */
    method Calculate(totalTime: int) returns (m: SystemMetrics)
      modifies this
      ensures m == Calculated(Records(pool), totalTime)
      ensures calculated && cached == m
    {
      var turnaround, waiting, response, cpu := 0, 0, 0, 0;
      var per: seq<ProcessMetrics> := [];
      var k := 0;
      while k < |pool|
        invariant k <= |pool| && per == PerProcess(Records(pool)[..k])
        invariant turnaround == Total(per, Turnaround) && waiting == Total(per, Waiting)
        invariant response == Total(per, Response) && cpu == Total(per, CpuTime)
      {
        var pm := ProcessMetricsOf(pool[k].Record());
        TotalAppend(per, pm, Turnaround);
        TotalAppend(per, pm, Waiting);
        TotalAppend(per, pm, Response);
        TotalAppend(per, pm, CpuTime);
        turnaround := turnaround + pm.turnaroundTime;
        waiting := waiting + pm.waitingTime;
        response := response + pm.responseTime;
        cpu := cpu + pm.cpuTimeUsed;
        per := per + [pm];
        k := k + 1;
      }
      assert Records(pool)[..k] == Records(pool);
      m := Summary(turnaround, waiting, response, cpu, totalTime, per);
      cached := m;
      calculated := true;
    }

    /** The first cached entry with the pid; an error before `Calculate` or when none matches. */
    method GetProcessMetrics(pid: int) returns (r: Result<ProcessMetrics>)
      ensures !calculated ==> r == Err(NotCalculated)
      ensures calculated ==> r == Lookup(cached.perProcess, pid)
    {
      if !calculated {
        return Err(NotCalculated);
      }
      var per := cached.perProcess;
      var k := 0;
      while k < |per|
        invariant k <= |per| && Lookup(per, pid) == Lookup(per[k..], pid)
      {
        if per[k].pid == pid {
          return Ok(per[k]);
        }
        assert per[k..][1..] == per[k + 1..];
        k := k + 1;
      }
      return Err(NotFound);
    }

    method GetAvgTurnaroundTime() returns (r: Result<real>)
      ensures !calculated ==> r == Err(NotCalculated)
      ensures calculated ==> r == Ok(cached.avgTurnaroundTime)
    {
      if !calculated {
        return Err(NotCalculated);
      }
      return Ok(cached.avgTurnaroundTime);
    }

    method GetCpuUtilization() returns (r: Result<Option<real>>)
      ensures !calculated ==> r == Err(NotCalculated)
      ensures calculated ==> r == Ok(cached.cpuUtilization)
    {
      if !calculated {
        return Err(NotCalculated);
      }
      return Ok(cached.cpuUtilization);
    }
  }
}
