/**
 * The seeding loop of `roundRobin` and what it leaves at the first loop head.
 *
 * With the clamp into [1, maxPriority] applied to every out-of-range priority,
 * the seeded state satisfies the loop-head invariant, so the loop breaks with
 * every block finished.  With the guard as written a priority-0 block is filed
 * under level 0, which the loop never scans, and the loop spins forever.
 */
module SchedulingSeed {
  import opened Wrappers
  import opened Pcb
  import opened IO
  import opened Scheduling
  import opened SchedulingInvariant
  import opened SchedulingPreservation
  import opened SchedulingProgress

  /** A block as the configuration creates it: ready, with work and a usable interval. */
  predicate SeedableRecord(r: ProcessRecord)
  {
    && r.state == Ready && r.remainingTime > 0 && Conserved(r)
    && (r.ioBound ==> 0 < r.ioInterval <= INT_MAX && r.cpuUsed < r.ioInterval)
  }

  /** A pool the seeding loop can file: it fits the queues and its pids are distinct. */
  predicate Seedable(recs: seq<ProcessRecord>, P: Params)
  {
    && 1 <= P.maxPriority && 0 < P.timeQuantum && |recs| <= P.capacity
    && DistinctPids(recs)
    && forall j :: 0 <= j < |recs| ==> SeedableRecord(recs[j])
  }

  /**
   * The first n indices are filed, each exactly once, under the priority their
   * record carries, and no level holds anything else.
   */
  ghost predicate Filed(s: Seeded, n: nat)
  {
    && n <= |s.recs|
    && (forall l :: 0 <= l < |s.levels| ==> NoDuplicates(s.levels[l]) && |s.levels[l]| <= n)
    && (forall l, k :: 0 <= l < |s.levels| && 0 <= k < |s.levels[l]| ==>
          s.levels[l][k] < n && s.recs[s.levels[l][k]].prio == l)
    && (forall j :: 0 <= j < n ==> 0 <= s.recs[j].prio < |s.levels| && j in s.levels[s.recs[j].prio])
  }

  /** Filing index n-1 under `prio` extends a filing of the first n-1 indices. */
  lemma FiledStep(s: Seeded, n: nat, prio: nat)
    requires 0 < n <= |s.recs| && prio < |s.levels| && Filed(s, n - 1)
    ensures Filed(Seeded(s.recs[n - 1 := s.recs[n - 1].(prio := prio)], s.levels[prio := s.levels[prio] + [n - 1]]), n)
  {
    assert n - 1 !in s.levels[prio];
    NoDuplicatesAppend(s.levels[prio], n - 1);
    var t := Seeded(s.recs[n - 1 := s.recs[n - 1].(prio := prio)], s.levels[prio := s.levels[prio] + [n - 1]]);
    forall j | 0 <= j < n
      ensures 0 <= t.recs[j].prio < |t.levels| && j in t.levels[t.recs[j].prio]
    {
      if j < n - 1 {
        assert s.recs[j].prio < |s.levels| && j in s.levels[s.recs[j].prio];
      }
    }
  }

  /** The seeding loop files its first n indices, and no push overflows while the pool fits. */
  lemma {:induction false} SeedLevelsFiles(recs: seq<ProcessRecord>, P: Params, n: nat)
    requires 1 <= P.maxPriority && n <= |recs| && |recs| <= P.capacity
    ensures SeedLevels(recs, P, n).Ok?
    ensures Filed(SeedLevels(recs, P, n).value, n)
    decreases n
  {
    if n > 0 {
      SeedLevelsFiles(recs, P, n - 1);
      var s := SeedLevels(recs, P, n - 1).value;
      var prio := SeedPriority(s.recs[n - 1].prio, P.maxPriority);
      assert |s.levels[prio]| <= n - 1;
      FiledStep(s, n, prio);
    } else {
      var s := SeedLevels(recs, P, 0).value;
      assert forall l :: 0 <= l < |s.levels| ==> s.levels[l] == [];
    }
  }

  /** The seeded state satisfies the loop-head invariant. */
  lemma InitialInv(recs: seq<ProcessRecord>, P: Params)
    requires Seedable(recs, P)
    ensures Initial(recs, P).Ok?
    ensures var w := Initial(recs, P).value;
      && Inv(w, P) && SameWork(recs, w.io.recs) && w.io.queue == [] && w.clock == 0
  {
    SeedLevelsFiles(recs, P, |recs|);
    var s := SeedLevels(recs, P, |recs|).value;
    var w := Initial(recs, P).value;
    forall j | 0 <= j < |w.io.recs|
      ensures RecordOk(w.io.recs[j], P) && Accounted(w.io, w.levels, {}, j)
    {
      assert SeedableRecord(recs[j]);
    }
  }

  /**
   * The loop from the seeded state: more iterations than the pool's total
   * burst suffice for it to break, every block finished and none waiting on I/O.
   */
  lemma SeededRunDrains(recs: seq<ProcessRecord>, P: Params, fuel: nat)
    requires Seedable(recs, P) && fuel > TotalWork(recs)
    ensures Initial(recs, P).Ok? && Inv(Initial(recs, P).value, P)
    ensures var r := RunFor(Initial(recs, P).value, P, fuel);
      && r.Ok? && !r.value.go && r.value.world.io.queue == [] && |r.value.world.io.recs| == |recs|
      && Inv(r.value.world, P)
      && forall j :: 0 <= j < |recs| ==> r.value.world.io.recs[j].state == Finished
  {
    InitialInv(recs, P);
    var w := Initial(recs, P).value;
    TotalWorkSame(recs, w.io.recs);
    RunDrains(w, P, fuel);
  }

  // ------------------------------------------------ the loop without stall guard

  /**
   * With work left, nothing waiting on I/O and every scanned level empty, an
   * iteration neither breaks nor changes anything.
   */
  lemma StallSpins(w: World, P: Params)
    requires WF(w, P) && HasWork(w.io.recs) && w.io.queue == [] && !AnyLevelHasWork(w.levels)
    ensures Iterate(w, P) == Ok(Stepped(true, w))
  {
    var r := FirstNonEmpty(w.levels, 1);
    if r.Some? {
      assert false;
    }
  }

  /** In such a state the loop never breaks, however many iterations it is given. */
  lemma {:induction false} StallForever(w: World, P: Params, fuel: nat)
    requires WF(w, P) && HasWork(w.io.recs) && w.io.queue == [] && !AnyLevelHasWork(w.levels)
    ensures RunFor(w, P, fuel) == Ok(Stepped(true, w))
    decreases fuel
  {
    if fuel > 0 {
      StallSpins(w, P);
      StallForever(w, P, fuel - 1);
    }
  }

  /**
   * A block configured with priority 0: the guard as written leaves it at 0, so
   * seeding files it under level 0, and from that state the loop never breaks;
   * the intended clamp files it under level 1.
   */
  lemma PriorityZeroStalls(rec: ProcessRecord, P: Params, fuel: nat)
    requires 1 <= P.maxPriority && rec.prio == 0 && rec.remainingTime > 0
    ensures SeedPriorityAsWritten(rec.prio, P.maxPriority) == 0
    ensures SeedPriority(rec.prio, P.maxPriority) == 1
    ensures var w := World(IoView([rec], [], []),
                           EmptyLevels(P.maxPriority + 1)[SeedPriorityAsWritten(rec.prio, P.maxPriority) := [0]],
                           0, 0, None, []);
      WF(w, P) && RunFor(w, P, fuel) == Ok(Stepped(true, w))
  {
    var w := World(IoView([rec], [], []), EmptyLevels(P.maxPriority + 1)[0 := [0]], 0, 0, None, []);
    assert HasWork(w.io.recs) by { assert w.io.recs[0].remainingTime > 0; }
    StallForever(w, P, fuel);
  }
}
