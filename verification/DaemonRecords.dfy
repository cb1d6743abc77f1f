/** When a process that is shown as managed has no rule applied. */
module DaemonRecords {
  import opened Wrappers
  import opened Types
  import opened ProcessTables
  import opened Rules
  import opened DaemonSpec
  import opened DaemonInvariants
  import opened DaemonProperties
  import opened DaemonClassification

  /** The processes with a managed record but without a rule. */
  function Parted(s: Brain): set<Pid> {
    set p | p in s.managed && p in s.table.entries && s.table.entries[p].applied.None?
  }

  /** The managed processes among `pids`. */
  function ManagedOf(s: Brain, pids: set<Pid>): set<Pid> {
    pids * s.managed.Keys
  }

  // ------------------------------------------------------------------------------------------
  // What each event makes of them
  // ------------------------------------------------------------------------------------------

  /** The process is spared, or the rule engine gives it no rule. */
  predicate GetsNoRule(cfg: Config, s: Brain, pid: Pid, w: World)
    requires pid in s.table.entries
  {
    Spared(cfg, s, pid) || EngineAnswer(cfg, s, pid, w).None?
  }

  /** A managed process that is read again is without a rule exactly if it gets none. */
  ghost function PartedByReading(cfg: Config, s: Brain, pid: Pid, w: World, parted: set<Pid>): set<Pid>
    requires w.proc.WellRead()
  {
    if pid !in w.proc.infos then parted
    else (parted - {pid}) + if GetsNoRule(cfg, InsertEntry(s, w.proc.infos[pid]), pid, w) then ManagedOf(s, {pid}) else {}
  }

  ghost function PartedByProc(cfg: Config, s: Brain, e: ProcEvent, w: World, now: Instant, parted: set<Pid>): set<Pid>
    requires w.proc.WellRead()
  {
    match e
    case ProcFork(parent, child, tgid) =>
      if CountFork(cfg, s, parent, child, tgid, w, now).1 then parted else parted + ManagedOf(s, {child} * w.proc.infos.Keys)
    case ProcExit(pid) => parted - {pid}
    case ProcExec(pid) => PartedByReading(cfg, s, pid, w, parted)
    case _ => if IsClassified(s.table, e.pid) then parted else PartedByReading(cfg, s, e.pid, w, parted)
  }

  /** A scan keeps those that live and either were classified or get no rule. */
  function PartedByScan(cfg: Config, s: Brain, w: World, parted: set<Pid>): set<Pid> {
    var m := Merged(s, w);
    set p | p in parted && p in m.table.entries &&
            (m.table.entries[p].classified || GetsNoRule(cfg, m, p, w))
  }

  function PartedByPressure(s: Brain, r: Reading, parted: set<Pid>): set<Pid> {
    if s.level.CriticalPressure? && r.level.NormalPressure? then parted + ManagedOf(s, set p | p in r.swapstorm) else parted
  }

  /** Each recheck is made in the state that the ones before it have left. */
  ghost function PartedByRechecks(cfg: Config, s: Brain, todo: seq<Pid>, w: World, now: Instant, parted: set<Pid>): set<Pid>
    requires w.proc.WellRead()
    decreases |todo|
  {
    if todo == [] then parted
    else
      var pid := todo[0];
      var next := if pid in s.focus.pids then parted
                  else if pid in w.proc.infos then PartedByReading(cfg, s, pid, w, parted)
                  else parted - {pid};
      PartedByRechecks(cfg, Recheck(cfg, s, pid, w, now), todo[1..], w, now, next)
  }

  ghost function PartedAfter(cfg: Config, s: Brain, e: Event, w: World, now: Instant, parted: set<Pid>): set<Pid>
    requires w.proc.WellRead()
  {
    if s.startup then {}
    else
      match e
      case Proc(event) => PartedByProc(cfg, s, event, w, now, parted)
      case PressureEvent(reading) => PartedByPressure(s, reading, parted)
      case RescanTick => PartedByScan(cfg, s, w, parted)
      case RecheckTick => PartedByRechecks(cfg, s, Enumerate(s.table.ExpiredSet(now), w.order), w, now, parted)
      case _ => parted
  }

  // ------------------------------------------------------------------------------------------
  // They are exactly these
  // ------------------------------------------------------------------------------------------

  /** The records and the applied rules before and after one more reading of `pid`. */
  ghost predicate Reread(s: Brain, pid: Pid, none: bool, u: Brain) {
    && pid in u.table.entries && (u.table.entries[pid].applied.None? <==> none)
    && u.table.entries.Keys == s.table.entries.Keys + {pid}
    && (forall q <- s.table.entries :: q != pid ==> u.table.entries[q] == s.table.entries[q])
    && u.managed.Keys == if none then s.managed.Keys else s.managed.Keys + {pid}
  }

  lemma ReadingOf(cfg: Config, s: Brain, pid: Pid, w: World, now: Instant)
    requires Core(s) && w.proc.WellRead() && pid in w.proc.infos
    ensures Reread(s, pid, GetsNoRule(cfg, InsertEntry(s, w.proc.infos[pid]), pid, w), Reclassify(cfg, s, pid, w, now))
  {
    ReclassifyGivesVerdict(cfg, s, pid, w, now);
    RecordsAfterReading(cfg, s, pid, w, now);
  }

  lemma RecordsAfterReading(cfg: Config, s: Brain, pid: Pid, w: World, now: Instant)
    requires w.proc.WellRead() && pid in w.proc.infos
    ensures Reclassify(cfg, s, pid, w, now).managed.Keys ==
            if GetsNoRule(cfg, InsertEntry(s, w.proc.infos[pid]), pid, w) then s.managed.Keys else s.managed.Keys + {pid}
  {
    var i := InsertEntry(s, w.proc.infos[pid]);
    assert Decision(cfg, i, pid, w.proc.infos[pid], w) == Verdict(cfg, i, pid, w);
  }

  /** A process that is read again has a rule exactly if it gets one, but keeps its managed record in either case. */
  lemma OldRecordStays(cfg: Config, s: Brain, pid: Pid, w: World, now: Instant)
    requires Core(s) && w.proc.WellRead() && pid in s.managed && pid in w.proc.infos
    ensures var u := Reclassify(cfg, s, pid, w, now);
            && pid in u.managed && pid in u.table.entries
            && (u.table.entries[pid].applied.Some? <==> !GetsNoRule(cfg, InsertEntry(s, w.proc.infos[pid]), pid, w))
  {
    ReadingOf(cfg, s, pid, w, now);
  }

  lemma RereadParts(s: Brain, pid: Pid, none: bool, u: Brain)
    requires Reread(s, pid, none, u) && s.managed.Keys <= s.table.entries.Keys
    ensures Parted(u) == (Parted(s) - {pid}) + if none then ManagedOf(s, {pid}) else {}
  {
  }

  lemma ReadingParts(cfg: Config, s: Brain, pid: Pid, w: World, now: Instant)
    requires Core(s) && w.proc.WellRead()
    ensures Parted(Reclassify(cfg, s, pid, w, now)) == PartedByReading(cfg, s, pid, w, Parted(s))
  {
    if pid in w.proc.infos {
      var none := GetsNoRule(cfg, InsertEntry(s, w.proc.infos[pid]), pid, w);
      ReadingOf(cfg, s, pid, w, now);
      RereadParts(s, pid, none, Reclassify(cfg, s, pid, w, now));
    }
  }

  lemma InsertMarkedParts(s: Brain, pid: Pid, w: World)
    requires w.proc.WellRead() && s.managed.Keys <= s.table.entries.Keys
    ensures Parted(InsertMarked(s, pid, w)) == Parted(s) + ManagedOf(s, {pid} * w.proc.infos.Keys)
  {
  }

  lemma CountForkKeepsMaps(cfg: Config, s: Brain, parent: Pid, child: Pid, tgid: Pid, w: World, now: Instant)
    ensures var u := CountFork(cfg, s, parent, child, tgid, w, now).0; u.table == s.table && u.managed == s.managed
  {
  }

  lemma ForkParts(cfg: Config, s: Brain, e: ProcEvent, w: World, now: Instant)
    requires Core(s) && w.proc.WellRead() && e.ProcFork?
    ensures Parted(HandleProc(cfg, s, e, w, now)) == PartedByProc(cfg, s, e, w, now, Parted(s))
  {
    CountForkKeepsMaps(cfg, s, e.parent, e.child, e.childTgid, w, now);
    InsertMarkedParts(CountFork(cfg, s, e.parent, e.child, e.childTgid, w, now).0, e.child, w);
  }

  lemma ExitParts(s: Brain, pid: Pid)
    ensures Parted(HandleExit(s, pid)) == Parted(s) - {pid}
  {
  }

  lemma ProcParts(cfg: Config, s: Brain, e: ProcEvent, w: World, now: Instant)
    requires Core(s) && w.proc.WellRead()
    ensures Parted(HandleProc(cfg, s, e, w, now)) == PartedByProc(cfg, s, e, w, now, Parted(s))
  {
    match e
    case ProcExit(pid) => ExitParts(s, pid);
    case ProcFork(_, _, _) => ForkParts(cfg, s, e, w, now);
    case _ => ReadingParts(cfg, s, e.pid, w, now);
  }

  lemma PressureParts(s: Brain, r: Reading)
    requires Core(s)
    ensures Parted(HandlePressure(s, r)) == PartedByPressure(s, r, Parted(s))
  {
    UnmarkEachFacts(s.table, r.swapstorm);
  }

  lemma ScanParts(cfg: Config, s: Brain, w: World, now: Instant)
    requires Core(s) && Fits(s, w) && !s.startup
    ensures Parted(FullScan(cfg, s, w, now)) == PartedByScan(cfg, s, w, Parted(s))
  {
    var m, u := Merged(s, w), FullScan(cfg, s, w, now);
    forall p: Pid ensures p in Parted(u) <==> p in PartedByScan(cfg, s, w, Parted(s)) {
      ScanPartsOne(cfg, s, w, now, p);
    }
  }

  lemma ScanPartsOne(cfg: Config, s: Brain, w: World, now: Instant, p: Pid)
    requires Core(s) && Fits(s, w) && !s.startup
    ensures p in Parted(FullScan(cfg, s, w, now)) <==> p in PartedByScan(cfg, s, w, Parted(s))
  {
    ScanJudges(cfg, s, w, now, p);
    ScanRecords(cfg, s, w, now, p);
    if p in Merged(s, w).table.entries { MergedEntry(s, w, p); }
  }

  /** Which processes have a record after a scan in force. */
  lemma ScanRecords(cfg: Config, s: Brain, w: World, now: Instant, p: Pid)
    requires Core(s) && Fits(s, w) && !s.startup
    ensures var m, u := Merged(s, w), FullScan(cfg, s, w, now);
            p in u.managed <==>
            p in m.managed || (p in m.table.entries && !m.table.entries[p].classified && !GetsNoRule(cfg, m, p, w))
  {
    var m := Merged(s, w);
    ScanJudgesAtOnce(cfg, s, w, now);
    RecordIsJudged(m.table, m.managed, VerdictsIn(cfg, m, w), Enumerate(m.table.UnclassifiedSet(), w.order),
                   FullScan(cfg, s, w, now).managed, p);
  }

  lemma RecordIsJudged(t: Table, before: Records, v: Verdicts, todo: seq<Pid>, records: Records, p: Pid)
    requires v.Keys == t.entries.Keys && (forall q <- todo :: q in v) && RecordsJudged(t, before, v, todo, records)
    ensures p in records <==> p in before || (p in todo && v[p].Some?)
  {
    assert Lookup(records, p) == if p in todo then JudgedRecord(Lookup(before, p), p, t.entries[p].info, v[p]) else Lookup(before, p);
  }

  lemma {:induction false} RechecksPart(cfg: Config, s: Brain, todo: seq<Pid>, w: World, now: Instant)
    requires Inv(s) && w.proc.WellRead() && !s.startup
    ensures Parted(RecheckEach(cfg, s, todo, w, now)) == PartedByRechecks(cfg, s, todo, w, now, Parted(s))
    decreases |todo|
  {
    if todo != [] {
      var pid := todo[0];
      ReclassifyKeepsInv(cfg, s, pid, w, now);
      RemoveKeepsCore(s, pid);
      ReadingParts(cfg, s, pid, w, now);
      RemovalParts(s, pid);
      RechecksPart(cfg, Recheck(cfg, s, pid, w, now), todo[1..], w, now);
    }
  }

  lemma RemovalParts(s: Brain, pid: Pid)
    ensures Parted(RemoveEntry(s, pid)) == Parted(s) - {pid}
  {
  }

  /** Exactly which processes have a managed record but no rule after an event. */
  lemma PartedStep(cfg: Config, s: Brain, e: Event, w: World, now: Instant)
    requires Inv(s) && Fits(s, w)
    ensures Parted(Handle(cfg, s, e, w, now)) == PartedAfter(cfg, s, e, w, now, Parted(s))
  {
    if s.startup {
      HandleKeepsInv(cfg, s, e, w, now);
      HandleKeepsPhase(cfg, s, e, w, now);
      assert Handle(cfg, s, e, w, now).managed == map[];
    } else {
      match e
      case Proc(event) => ProcParts(cfg, s, event, w, now);
      case PressureEvent(reading) => PressureParts(s, reading);
      case RescanTick => ScanParts(cfg, s, w, now);
      case RecheckTick => RechecksPart(cfg, s, Enumerate(s.table.ExpiredSet(now), w.order), w, now);
      case _ =>
    }
  }

  // ------------------------------------------------------------------------------------------
  // Over runs
  // ------------------------------------------------------------------------------------------

  /** The processes parted over a run that began with none. */
  ghost function PartedOver(cfg: Config, s: Brain, inputs: seq<Input>): set<Pid>
    requires Possible(cfg, s, inputs)
  {
    if inputs == [] then {}
    else
      var front, i := inputs[..|inputs| - 1], inputs[|inputs| - 1];
      var ready := EndGrace(cfg, Run(cfg, s, front), i.scanWorld, i.now);
      PartedAfter(cfg, ready, i.event, i.world, i.now, PartedOver(cfg, s, front))
  }

  lemma EndGracePartsNothing(cfg: Config, s: Brain, w: World, now: Instant)
    requires Inv(s) && Fits(s, w)
    ensures Parted(EndGrace(cfg, s, w, now)) == Parted(s)
  {
    if s.startup && now >= cfg.graceEnd {
      ScanParts(cfg, s.(startup := false), w, now);
      assert Parted(s) == Parted(s.(startup := false)) == {};
    }
  }

  lemma {:induction false} RunParts(cfg: Config, s: Brain, inputs: seq<Input>)
    requires Inv(s) && Possible(cfg, s, inputs) && Parted(s) == {}
    ensures Parted(Run(cfg, s, inputs)) == PartedOver(cfg, s, inputs)
  {
    if inputs != [] {
      var front, i := inputs[..|inputs| - 1], inputs[|inputs| - 1];
      var before := Run(cfg, s, front);
      EveryRunKeepsInv(cfg, s, front);
      EndGraceKeepsInv(cfg, before, i.scanWorld, i.now);
      RunParts(cfg, s, front);
      EndGracePartsNothing(cfg, before, i.scanWorld, i.now);
      PartedStep(cfg, EndGrace(cfg, before, i.scanWorld, i.now), i.event, i.world, i.now);
    }
  }

  lemma NothingParted(s: Brain)
    requires Inv(s) && s.startup
    ensures Parted(s) == {}
  {
  }

  /**
   * In every reachable state, a managed process has a rule applied exactly if it is not among those
   * that forks, readings without a rule and recoveries have parted from theirs and that no later
   * reading or scan gave a new one.
   */
  lemma ManagedHasRuleExcept(cfg: Config, rules: seq<Rule>, existing: Option<World>, start: Instant, inputs: seq<Input>,
                             s: Brain, p: Pid)
    requires Reachable(cfg, rules, existing, start, inputs, s) && p in s.managed
    ensures p in s.table.entries
    ensures s.table.entries[p].applied.Some? <==> p !in PartedOver(cfg, Entering(cfg, rules, existing, start), inputs)
  {
    var entering := Entering(cfg, rules, existing, start);
    EnteringIsInv(cfg, rules, existing, start);
    NothingParted(entering);
    RunParts(cfg, entering, inputs);
    ReachableIsInv(cfg, rules, existing, start, inputs, s);
    assert p in Parted(s) <==> s.table.entries[p].applied.None?;
  }
}
