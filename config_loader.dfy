/**
 * The configuration loader: the checks `validate` applies to a parsed
 * configuration document before the scheduler reads it.  The document is
 * abstracted to its two sections, each present or absent, with the scheduler
 * settings optional one by one; the functions describe what validation
 * concludes, and class `ConfigLoader` performs it step by step.
 */
module Config {
  import opened Wrappers
  import opened Decimal

  const DefaultTimeQuantum := 4
  const DefaultMaxPriority := 3
  const DefaultAgingThreshold := 5

  const MissingSchedulerConfig := "Error in scheduler config - missing scheduler_config"
  const BadTimeQuantum := "Error in time_quantum in scheduler config"
  const BadMaxPriority := "Error in max_priority in scheduler config"
  const BadAgingThreshold := "Error in aging_threshold in scheduler config"
  const MissingProcesses := "Error in process config - missing process array"
  const EmptyProcesses := "Error in process config - empty process array"
  const DuplicatePidPrefix := "Duplicate PID found: "

  /** The `scheduler_config` object: each key present with its value, or absent. */
  datatype SchedulerSection = SchedulerSection(
    timeQuantum: Option<int>, maxPriority: Option<int>, agingThreshold: Option<int>)

  /** One object of the `processes` array, a field per key. */
  datatype ProcessEntry = ProcessEntry(pid: int, priority: int, burstTime: int, ioBound: bool, ioInterval: int)

  /** The parsed document: each top-level key present with its value, or absent. */
  datatype ConfigData = ConfigData(scheduler: Option<SchedulerSection>, processes: Option<seq<ProcessEntry>>)

  datatype SchedulerConfig = SchedulerConfig(timeQuantum: int, maxPriority: int, agingThreshold: int)

  datatype ProcessConfig = ProcessConfig(pid: int, priority: int, burst: int, ioBound: bool, ioInterval: int)

  // ------------------------------------------------------- scheduler settings

  predicate TimeQuantumOk(v: int) { v > 0 }

  predicate MaxPriorityOk(v: int) { !(v > 10 || v <= 0) }

  predicate AgingThresholdOk(v: int) { v > 0 }

  /** A setting that is present but fails its check. */
  predicate TimeQuantumBad(s: SchedulerSection) { s.timeQuantum.Some? && !TimeQuantumOk(s.timeQuantum.value) }

  predicate MaxPriorityBad(s: SchedulerSection) { s.maxPriority.Some? && !MaxPriorityOk(s.maxPriority.value) }

  predicate AgingThresholdBad(s: SchedulerSection) { s.agingThreshold.Some? && !AgingThresholdOk(s.agingThreshold.value) }

  /** A section is acceptable when each setting is absent or passes its check. */
  predicate SectionOk(s: SchedulerSection)
  {
    !TimeQuantumBad(s) && !MaxPriorityBad(s) && !AgingThresholdBad(s)
  }

  /** The value stored for a setting: the one given, else the default. */
  predicate Settled(v: Option<int>, dflt: int, stored: int)
  {
    stored == if v.Some? then v.value else dflt
  }

  /**
   * `validateSchedulerConfig`: a missing section throws; each present setting
   * out of range throws, the first in the order time_quantum, max_priority,
   * aging_threshold deciding the message; otherwise every setting is the one
   * given or its default, and all lie in range.
   */
  function SchedulerChecked(d: ConfigData): (r: Result<SchedulerConfig>)
    ensures r.Ok? <==> d.scheduler.Some? && SectionOk(d.scheduler.value)
    ensures r.Ok? ==>
      var s := d.scheduler.value;
      && Settled(s.timeQuantum, DefaultTimeQuantum, r.value.timeQuantum)
      && Settled(s.maxPriority, DefaultMaxPriority, r.value.maxPriority)
      && Settled(s.agingThreshold, DefaultAgingThreshold, r.value.agingThreshold)
    ensures r.Ok? ==>
      TimeQuantumOk(r.value.timeQuantum) && MaxPriorityOk(r.value.maxPriority) && AgingThresholdOk(r.value.agingThreshold)
    ensures d.scheduler.None? ==> r == Err(MissingSchedulerConfig)
    ensures d.scheduler.Some? ==>
      var s := d.scheduler.value;
      && (TimeQuantumBad(s) ==> r == Err(BadTimeQuantum))
      && (!TimeQuantumBad(s) && MaxPriorityBad(s) ==> r == Err(BadMaxPriority))
      && (!TimeQuantumBad(s) && !MaxPriorityBad(s) && AgingThresholdBad(s) ==> r == Err(BadAgingThreshold))
  {
    if d.scheduler.None? then Err(MissingSchedulerConfig)
    else
      var s := d.scheduler.value;
      if s.timeQuantum.Some? && s.timeQuantum.value <= 0 then Err(BadTimeQuantum)
      else if s.maxPriority.Some? && (s.maxPriority.value > 10 || s.maxPriority.value <= 0) then Err(BadMaxPriority)
      else if s.agingThreshold.Some? && s.agingThreshold.value <= 0 then Err(BadAgingThreshold)
      else
        Ok(SchedulerConfig(
          if s.timeQuantum.Some? then s.timeQuantum.value else DefaultTimeQuantum,
          if s.maxPriority.Some? then s.maxPriority.value else DefaultMaxPriority,
          if s.agingThreshold.Some? then s.agingThreshold.value else DefaultAgingThreshold))
  }

  // ------------------------------------------------------------ process list

  /** `getProcessConfig`'s copy of one entry. */
  function ProcessConfigOf(e: ProcessEntry): (c: ProcessConfig)
    ensures c.pid == e.pid && c.priority == e.priority && c.burst == e.burstTime
    ensures c.ioBound == e.ioBound && c.ioInterval == e.ioInterval
  {
    ProcessConfig(e.pid, e.priority, e.burstTime, e.ioBound, e.ioInterval)
  }

  /** `getProcessConfig`: one record per entry, in list order. */
  function ProcessConfigs(es: seq<ProcessEntry>): (cs: seq<ProcessConfig>)
    ensures |cs| == |es|
    ensures forall i :: 0 <= i < |es| ==> cs[i] == ProcessConfigOf(es[i])
  {
    seq(|es|, i requires 0 <= i < |es| => ProcessConfigOf(es[i]))
  }

  function PidsOf(cs: seq<ProcessConfig>): (ps: seq<int>)
    ensures |ps| == |cs| && forall i :: 0 <= i < |cs| ==> ps[i] == cs[i].pid
  {
    seq(|cs|, i requires 0 <= i < |cs| => cs[i].pid)
  }

  /** The first position, at `from` or later, whose pid already occurs before it. */
  function RepeatFrom(ps: seq<int>, from: nat): (r: Option<nat>)
    requires from <= |ps|
    ensures r.Some? ==> from <= r.value < |ps| && ps[r.value] in ps[..r.value]
    ensures r.Some? ==> forall k :: from <= k < r.value ==> ps[k] !in ps[..k]
    ensures r.None? ==> forall k :: from <= k < |ps| ==> ps[k] !in ps[..k]
    decreases |ps| - from
  {
    if from == |ps| then None
    else if ps[from] in ps[..from] then Some(from)
    else RepeatFrom(ps, from + 1)
  }

  /** The entry `find_if` stops at: the first whose pid was seen earlier in the list. */
  function FirstRepeat(ps: seq<int>): (r: Option<nat>)
    ensures r.Some? ==> r.value < |ps| && ps[r.value] in ps[..r.value]
    ensures r.Some? ==> forall k :: 0 <= k < r.value ==> ps[k] !in ps[..k]
    ensures r.None? ==> forall k :: 0 <= k < |ps| ==> ps[k] !in ps[..k]
  {
    RepeatFrom(ps, 0)
  }

  /** The duplicate check passes exactly when all pids are distinct. */
  lemma NoRepeatIffDistinct(ps: seq<int>)
    ensures FirstRepeat(ps).None? <==> forall i, j :: 0 <= i < j < |ps| ==> ps[i] != ps[j]
  {
    if FirstRepeat(ps).None? {
      forall i, j | 0 <= i < j < |ps|
        ensures ps[i] != ps[j]
      {
        assert ps[j] !in ps[..j];
        assert ps[i] == ps[..j][i];
      }
    } else {
      var k := FirstRepeat(ps).value;
      var i :| 0 <= i < k && ps[..k][i] == ps[k];
      assert ps[i] == ps[k];
    }
  }

  /** The message naming a duplicate pid. */
  function DuplicateMessage(pid: int): string
  {
    DuplicatePidPrefix + IntToString(pid)
  }

  /**
   * `validateProcessConfig`: a missing or empty list throws; otherwise the
   * first entry whose pid repeats an earlier one throws with that pid.
   */
  function ProcessChecked(d: ConfigData): (o: Outcome)
    ensures o.Pass? <==>
      && d.processes.Some? && d.processes.value != []
      && forall i, j :: 0 <= i < j < |d.processes.value| ==> d.processes.value[i].pid != d.processes.value[j].pid
    ensures d.processes.None? ==> o == Fail(MissingProcesses)
    ensures d.processes == Some([]) ==> o == Fail(EmptyProcesses)
    ensures d.processes.Some? && d.processes.value != [] && o.Fail? ==>
      var es := d.processes.value; var k := FirstRepeat(PidsOf(ProcessConfigs(es))).value;
      && k < |es| && o == Fail(DuplicateMessage(es[k].pid))
      && (exists j :: 0 <= j < k && es[j].pid == es[k].pid)
      && forall j, m :: 0 <= j < m < k ==> es[j].pid != es[m].pid
  {
    if d.processes.None? then Fail(MissingProcesses)
    else if d.processes.value == [] then Fail(EmptyProcesses)
    else
      var es := d.processes.value;
      EntriesDistinct(es);
      match FirstRepeat(PidsOf(ProcessConfigs(es)))
      case None => Pass
      case Some(k) =>
        EntriesRepeat(es);
        Fail(DuplicateMessage(es[k].pid))
  }

  /** The scan over the copied list finds no repeat exactly when the entries' pids are distinct. */
  lemma EntriesDistinct(es: seq<ProcessEntry>)
    ensures FirstRepeat(PidsOf(ProcessConfigs(es))).None? <==>
      forall i, j :: 0 <= i < j < |es| ==> es[i].pid != es[j].pid
  {
    var ps := PidsOf(ProcessConfigs(es));
    NoRepeatIffDistinct(ps);
    assert forall i :: 0 <= i < |es| ==> ps[i] == es[i].pid;
  }

  /** A repeat found by the scan names an entry whose pid occurred before it, and none before repeats. */
  lemma EntriesRepeat(es: seq<ProcessEntry>)
    requires FirstRepeat(PidsOf(ProcessConfigs(es))).Some?
    ensures var k := FirstRepeat(PidsOf(ProcessConfigs(es))).value;
      && k < |es|
      && (exists j :: 0 <= j < k && es[j].pid == es[k].pid)
      && forall j, m :: 0 <= j < m < k ==> es[j].pid != es[m].pid
  {
    var ps := PidsOf(ProcessConfigs(es));
    var k := FirstRepeat(ps).value;
    assert forall i :: 0 <= i < |es| ==> ps[i] == es[i].pid;
    var j :| 0 <= j < k && ps[..k][j] == ps[k];
    assert es[j].pid == es[k].pid;
    NoRepeatIffDistinct(ps[..k]);
    assert forall m :: 0 <= m < k ==> ps[..k][m] == ps[m] && ps[..k][..m] == ps[..m];
  }

  /** `validate`: the scheduler settings first, then the process list. */
  function Validated(d: ConfigData): (r: Result<SchedulerConfig>)
    ensures SchedulerChecked(d).Err? ==> r == SchedulerChecked(d)
    ensures SchedulerChecked(d).Ok? && ProcessChecked(d).Fail? ==> r == Err(ProcessChecked(d).message)
    ensures r.Ok? <==> SchedulerChecked(d).Ok? && ProcessChecked(d).Pass?
    ensures r.Ok? ==> r == SchedulerChecked(d)
  {
    match SchedulerChecked(d)
    case Err(m) => Err(m)
    case Ok(sc) =>
      match ProcessChecked(d)
      case Fail(m) => Err(m)
      case Pass => Ok(sc)
  }

  /** A configuration that validates yields a non-empty list of distinct pids. */
  lemma ValidatedProcesses(d: ConfigData)
    requires Validated(d).Ok?
    ensures d.processes.Some? && 1 <= |ProcessConfigs(d.processes.value)|
    ensures var cs := ProcessConfigs(d.processes.value);
      forall i, j :: 0 <= i < j < |cs| ==> cs[i].pid != cs[j].pid
  {
  }

  // ------------------------------------------------------------------ loader

  class ConfigLoader {
    const configData: ConfigData
    var schedConf: SchedulerConfig

    /** The loader over a parsed document, before validation. */
    constructor (data: ConfigData)
      ensures configData == data
    {
      configData := data;
      schedConf := SchedulerConfig(0, 0, 0);
    }

    /** The C++ constructor: load, then `validate`, which throws on a bad document. */
    static method Load(data: ConfigData) returns (r: Result<ConfigLoader>)
      ensures r.Err? <==> Validated(data).Err?
      ensures r.Err? ==> r.message == Validated(data).message
      ensures r.Ok? ==> fresh(r.value) && r.value.configData == data && r.value.schedConf == Validated(data).value
    {
      var loader := new ConfigLoader(data);
      var o := loader.Validate();
      if o.Fail? {
        return Err(o.message);
      }
      return Ok(loader);
    }

    method Validate() returns (o: Outcome)
      modifies this
      ensures o.Pass? <==> Validated(configData).Ok?
      ensures o.Fail? ==> o.message == Validated(configData).message
      ensures o.Pass? ==> schedConf == Validated(configData).value
    {
      o := ValidateSchedulerConfig();
      if o.Pass? {
        o := ValidateProcessConfig();
      }
    }

    /** Each setting is checked, then stored, in order; the first bad one throws. */
    method ValidateSchedulerConfig() returns (o: Outcome)
      modifies this
      ensures o.Pass? <==> SchedulerChecked(configData).Ok?
      ensures o.Fail? ==> o.message == SchedulerChecked(configData).message
      ensures o.Pass? ==> schedConf == SchedulerChecked(configData).value
    {
      if configData.scheduler.None? {
        return Fail(MissingSchedulerConfig);
      }
      var sched := configData.scheduler.value;
      if sched.timeQuantum.Some? {
        var val := sched.timeQuantum.value;
        if val <= 0 {
          return Fail(BadTimeQuantum);
        }
        schedConf := schedConf.(timeQuantum := val);
      } else {
        schedConf := schedConf.(timeQuantum := DefaultTimeQuantum);
      }
      if sched.maxPriority.Some? {
        var val := sched.maxPriority.value;
        if val > 10 || val <= 0 {
          return Fail(BadMaxPriority);
        }
        schedConf := schedConf.(maxPriority := val);
      } else {
        schedConf := schedConf.(maxPriority := DefaultMaxPriority);
      }
      if sched.agingThreshold.Some? {
        var val := sched.agingThreshold.value;
        if val <= 0 {
          return Fail(BadAgingThreshold);
        }
        schedConf := schedConf.(agingThreshold := val);
      } else {
        schedConf := schedConf.(agingThreshold := DefaultAgingThreshold);
      }
      return Pass;
    }

    method ValidateProcessConfig() returns (o: Outcome)
      ensures o == ProcessChecked(configData)
    {
      if configData.processes.None? {
        return Fail(MissingProcesses);
      }
      if configData.processes.value == [] {
        return Fail(EmptyProcesses);
      }
      var confs := GetProcessConfig();
      var it := FindRepeat(confs);
      if it < |confs| {
        return Fail(DuplicateMessage(confs[it].pid));
      }
      return Pass;
    }

    /** The copy loop of `getProcessConfig`; the list must be present, as the C++ lookup assumes. */
    method GetProcessConfig() returns (confs: seq<ProcessConfig>)
      requires configData.processes.Some?
      ensures confs == ProcessConfigs(configData.processes.value)
    {
      var entries := configData.processes.value;
      confs := [];
      var k := 0;
      while k < |entries|
        invariant k <= |entries| && confs == ProcessConfigs(entries[..k])
      {
        confs := confs + [ProcessConfigOf(entries[k])];
        k := k + 1;
      }
      assert entries[..k] == entries;
    }

    /**
     * The `find_if` scan over a set of pids seen so far: the position of the
     * first entry whose pid is already in the set, or the length if none is.
     */
    static method FindRepeat(confs: seq<ProcessConfig>) returns (it: nat)
      ensures it == match FirstRepeat(PidsOf(confs)) case None => |confs| case Some(k) => k
    {
      ghost var ps := PidsOf(confs);
      var seen: set<int> := {};
      it := 0;
      while it < |confs|
        invariant it <= |confs|
        invariant forall x :: x in seen <==> x in ps[..it]
        invariant RepeatFrom(ps, 0) == RepeatFrom(ps, it)
      {
        if confs[it].pid in seen {
          return;
        }
        seen := seen + {confs[it].pid};
        assert ps[..it + 1] == ps[..it] + [ps[it]];
        it := it + 1;
      }
    }
  }
}
