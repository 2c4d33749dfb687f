/**
 * The metrics of a completed run: once the loop has drained the pool, every
 * block's waiting time is its lifetime less its burst and its I/O time, and
 * looking up its pid finds its own figures.
 */
module Reporting {
  import opened Wrappers
  import opened Pcb
  import opened Scheduling
  import opened SchedulingInvariant
  import opened SchedulingPreservation
  import opened SchedulingSeed
  import opened Metrics

  lemma DrainedRunMetrics(recs: seq<ProcessRecord>, P: Params, fuel: nat, totalTime: int, j: nat)
    requires Seedable(recs, P) && fuel > TotalWork(recs) && j < |recs|
    ensures Initial(recs, P).Ok? && RunFor(Initial(recs, P).value, P, fuel).Ok?
    ensures var w := RunFor(Initial(recs, P).value, P, fuel).value.world;
      var m := Calculated(w.io.recs, totalTime);
      && j < |w.io.recs| && w.io.recs[j].state == Finished
      && m.perProcess[j].waitingTime == w.io.recs[j].completionTime - w.io.recs[j].burstTime - w.io.recs[j].totalIOTime
      && Lookup(m.perProcess, w.io.recs[j].pid) == Ok(m.perProcess[j])
  {
    SeededRunDrains(recs, P, fuel);
    var w := RunFor(Initial(recs, P).value, P, fuel).value.world;
    assert RecordOk(w.io.recs[j], P);
    WaitingOfFinished(w.io.recs[j]);
    LookupOwn(w.io.recs, totalTime, j);
  }
}
