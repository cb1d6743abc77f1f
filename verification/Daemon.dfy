/** The daemon object: its handlers update the table, the tracker, the detector and the managed map. */
module Daemons {
  import opened Wrappers
  import opened Types
  import opened Effects
  import opened ProcessTables
  import opened Foreground
  import opened ForkBombs
  import opened Rules
  import opened RuleLoading
  import opened Scanning
  import opened DaemonSpec
  import opened DaemonInvariants
  import opened DaemonRequests

  /** A rule's full action on one process; the requests are returned in the order they are made. */
  method ApplyAction(pid: Pid, a: Action) returns (issued: Log)
    ensures issued == Requests(pid, a)
    ensures forall e: Effect :: e in issued <==> AsksFor(pid, a, e)
    ensures InTurn(issued)
  {
    RequestsAsAsked(pid, a);
    issued := ApplyCgroup(pid, a, ByRule);
    ghost var move := issued;
    if a.nice.Some? { issued := issued + [SetNice(pid, a.nice.value, ByRule)]; }
    assert issued == move + NiceRequest(pid, a);
    ghost var sofar := issued;
    if a.schedPolicy.Some? {
      var priority := if a.schedPriority.Some? then a.schedPriority.value else 0;
      match a.schedPolicy.value
      case "normal" | "other" | "batch" | "idle" => issued := issued + [SetSched(pid, a.schedPolicy.value, 0)];
      case "fifo" | "rr" | "round_robin" => issued := issued + [SetSched(pid, a.schedPolicy.value, Clamp(priority, 1, 99))];
      case _ =>
    }
    assert issued == sofar + SchedRequest(pid, a);
    if a.oomScoreAdj.Some? { issued := issued + [SetOom(pid, Clamp(a.oomScoreAdj.value, -1000, 1000))]; }
    RegroupFour(move, NiceRequest(pid, a), SchedRequest(pid, a), OomRequest(pid, a));
  }

  lemma RegroupFour(a: Log, b: Log, c: Log, d: Log)
    ensures ((a + b) + c) + d == a + (b + c + d)
    ensures ((a + b) + c) + [] == (a + b) + c
  {
  }

  /** The cgroup part alone; an unknown tier name moves nothing. */
  method ApplyCgroup(pid: Pid, a: Action, cause: Cause) returns (issued: Log)
    ensures issued == CgroupMove(pid, a, cause)
  {
    issued := [];
    if a.cgroup.None? { return; }
    var tier := TierOf(a.cgroup.value);
    if tier.None? { return; }
    issued := [Move(pid, tier.value, cause)];
  }

  class Daemon {
    const cfg: Config
    const table: ProcessTable
    const forkbomb: ForkBombDetector
    const focus: ForegroundTracker
    var managed: map<Pid, ManagedEntry>
    var rules: seq<Rule>
    var startupPhase: bool
    var lastLevel: Pressure
    var mode: string
    var lastPowerSource: Option<bool>
    var foregroundPid: Option<Pid>
    ghost var reset: set<Pid>
    ghost var log: Log

    ghost function Repr(): set<object>
      reads this, forkbomb
    {
      {this, table, forkbomb, focus} + forkbomb.windows.Values
    }

    ghost predicate Valid()
      reads Repr()
    {
      && table.Valid() && forkbomb.Valid()
      && forkbomb.threshold == cfg.threshold && forkbomb.lineageDepth == cfg.lineageDepth
    }

    ghost function View(): Brain
      reads Repr()
    {
      Brain(table.View(), forkbomb.View(), focus.View(), managed, rules, startupPhase, lastLevel, mode, lastPowerSource, foregroundPid,
            reset, log)
    }

    constructor (cfg: Config, rules: seq<Rule>)
      ensures Valid() && fresh(Repr()) && this.cfg == cfg
      ensures View() == NewBrain(cfg, rules) && Inv(View())
    {
      this.cfg := cfg;
      table := new ProcessTable();
      forkbomb := new ForkBombDetector(cfg.threshold, cfg.lineageDepth);
      focus := new ForegroundTracker();
      managed, this.rules := map[], rules;
      startupPhase, lastLevel, mode, lastPowerSource, foregroundPid := true, NormalPressure, "normal", None, None;
      reset, log := {}, [];
      new;
      EnteringIsInv(cfg, rules, None, 0);
    }

    /** The action for a process, None for those that must be left alone. */
    method Decide(pid: Pid, info: ProcessInfo, w: World) returns (d: Option<Action>)
      ensures d == Decision(cfg, View(), pid, info, w)
    {
      if pid == cfg.ownPid || info.ppid == cfg.ownPid || info.comm in OWN_THREAD_NAMES { return None; }
      if info.isKernelThread { return None; }
      if focus.IsForeground(pid) { return None; }
      var full := info;
      if WantsEnviron(rules) && info.environ == map[] && pid in w.environs {
        full := info.(environ := w.environs[pid]);
      }
      var ancestors := table.AncestorComms(pid, 10);
      d := Classify(rules, cfg.exceptions, full, ancestors);
    }

    method ClassifyAndApplyRules(pid: Pid, info: ProcessInfo, w: World, now: Instant)
      requires Valid()
      modifies this, table
      ensures Valid() && View() == ClassifyAndApply(cfg, old(View()), pid, info, w, now)
    {
      var decision := Decide(pid, info, w);
      if decision.None? {
        table.MarkClassified(pid);
      } else {
        ApplyRule(pid, info, decision.value, w, now);
      }
    }

    /** Record where the process is, then move it and its children and note what was done. */
    method ApplyRule(pid: Pid, info: ProcessInfo, a: Action, w: World, now: Instant)
      requires Valid()
      modifies this, table
      ensures Valid() && View() == Apply(old(View()), pid, info, a, w, now)
    {
      var issued := MakeRequests(pid, a, w);
      table.SetApplied(pid, a, now);
      managed := managed[pid := ManagedEntry(pid, info.comm, if a.cgroup.Some? then a.cgroup.value else "system", a.ruleName)];
      log := log + issued;
    }

    method MakeRequests(pid: Pid, a: Action, w: World) returns (issued: Log)
      requires Valid()
      modifies table
      ensures Valid() && table.View() == WithOriginal(old(table.View()), pid, a, w)
      ensures issued == Issued(old(table.View()), pid, a, w)
    {
      var read := RecordOriginal(pid, a, w);
      var own := ApplyAction(pid, a);
      issued := read + own;
      assert table.entries.Keys == old(table.entries).Keys;
      var moves: Log := [];
      if a.applyToChildren { moves := MoveChildren(pid, a, w.childOrder); }
      issued := issued + moves;
    }

    /** Read the cgroup the process is in before it is moved, and keep the first that is read. */
    method RecordOriginal(pid: Pid, a: Action, w: World) returns (issued: Log)
      requires Valid()
      modifies table
      ensures Valid() && table.View() == WithOriginal(old(table.View()), pid, a, w)
      ensures issued == CgroupRead(pid, a, w)
    {
      if a.cgroup.None? { return []; }
      if pid in w.cgroups {
        table.SetOriginalCgroup(pid, w.cgroups[pid]);
        issued := [ReadCgroup(pid, Some(w.cgroups[pid]))];
      } else {
        issued := [ReadCgroup(pid, None)];
      }
    }

    method MoveChildren(pid: Pid, a: Action, order: seq<Pid>) returns (issued: Log)
      ensures issued == ChildMoves(Enumerate(Kids(table.children, pid), order), table.entries.Keys, a)
    {
      var children := Enumerate(Kids(table.children, pid), order);
      issued := [];
      for i := 0 to |children|
        invariant issued + ChildMoves(children[i..], table.entries.Keys, a) == ChildMoves(children, table.entries.Keys, a)
      {
        assert children[i..][1..] == children[i + 1..];
        if children[i] in table.entries {
          var move := ApplyCgroup(children[i], a, ByParentRule);
          Regroup(issued, move, ChildMoves(children[i + 1..], table.entries.Keys, a));
          issued := issued + move;
        }
      }
    }

    method Forget(pid: Pid)
      requires Valid()
      modifies this, table
      ensures Valid() && View() == RemoveEntry(old(View()), pid)
    {
      if pid in table.entries { log := log + [Effect.Forget({pid})]; }
      table.Remove(pid);
      managed := managed - {pid};
    }

    method InsertForLater(pid: Pid, w: World)
      requires Valid() && w.proc.WellRead()
      modifies table
      ensures Valid() && View() == InsertMarked(old(View()), pid, w)
    {
      if pid in w.proc.infos {
        table.Insert(w.proc.infos[pid]);
        table.MarkClassified(pid);
      }
    }

    method InsertAndClassify(pid: Pid, w: World, now: Instant)
      requires Valid() && w.proc.WellRead()
      modifies this, table
      ensures Valid() && View() == Reclassify(cfg, old(View()), pid, w, now)
    {
      if pid in w.proc.infos {
        table.Insert(w.proc.infos[pid]);
        ClassifyAndApplyRules(pid, w.proc.infos[pid], w, now);
      }
    }

    method CountForkOf(parent: Pid, child: Pid, tgid: Pid, w: World, now: Instant) returns (bomb: bool)
      requires Valid()
      modifies this`log, forkbomb, forkbomb.windows.Values
      ensures Valid() && fresh(Repr() - old(Repr()))
      ensures (View(), bomb) == CountFork(cfg, old(View()), parent, child, tgid, w, now)
    {
      bomb := false;
      if child == tgid {
        var found := forkbomb.RecordFork(parent, now);
        if found.Some? {
          ThrottleBomb(found.value, w);
          bomb := true;
        }
      }
    }

    method ThrottleBomb(parent: Pid, w: World)
      modifies this`log
      ensures log == old(log) + ThrottleMoves(CollectSubtree(table.children, parent, forkbomb.lineageDepth, w.childOrder))
    {
      var count, issued := forkbomb.ThrottleSubtree(parent, table, w.childOrder);
      log := log + issued;
    }

    method ExitProcess(pid: Pid)
      requires Valid()
      modifies this, table, focus
      ensures Valid() && View() == HandleExit(old(View()), pid)
    {
      var issued := focus.Exit(pid);
      log := log + issued;
      Forget(pid);
    }

    method HandleProcEventStartup(e: ProcEvent, w: World, now: Instant)
      requires Valid() && w.proc.WellRead()
      modifies Repr()
      ensures Valid() && fresh(Repr() - old(Repr()))
      ensures View() == HandleProcStartup(cfg, old(View()), e, w, now)
    {
      match e
      case ProcFork(parent, child, tgid) =>
        var _ := CountForkOf(parent, child, tgid, w, now);
        InsertForLater(child, w);
      case ProcExit(pid) => ExitProcess(pid);
      case ProcExec(pid) => InsertForLater(pid, w);
      case _ =>
    }

    method HandleProcEvent(e: ProcEvent, w: World, now: Instant)
      requires Valid() && w.proc.WellRead()
      modifies Repr()
      ensures Valid() && fresh(Repr() - old(Repr()))
      ensures View() == HandleProc(cfg, old(View()), e, w, now)
    {
      match e
      case ProcFork(parent, child, tgid) =>
        var bomb := CountForkOf(parent, child, tgid, w, now);
        if !bomb { InsertForLater(child, w); }
      case ProcExec(pid) => InsertAndClassify(pid, w, now);
      case ProcExit(pid) => ExitProcess(pid);
      case ProcComm(_) | ProcUid(_) =>
        var alreadyClassified := e.pid in table.entries && table.entries[e.pid].classified;
        if !alreadyClassified { InsertAndClassify(e.pid, w, now); }
    }

    /** Merge the listing of /proc into the table, and sweep the managed map. */
    method MergeListing(w: World)
      requires Valid()
      modifies this, table
      ensures Valid() && View() == Merged(old(View()), w)
    {
      NoteForgotten(w);
      var live := MergeFound(w);
      SweepManaged(live);
    }

    /** The lifetimes of the processes that are gone end with the scan that is under way. */
    ghost method NoteForgotten(w: World)
      requires Valid()
      modifies this`reset, this`log
      ensures reset == {}
      ensures log == old(log) + [Effect.Forget(table.View().MergeFresh(FoundBy(old(View()), w)).Stale(LivePids(w.proc.Entries())))]
    {
      var gone := table.View().MergeFresh(FoundBy(View(), w)).Stale(LivePids(w.proc.Entries()));
      reset := {};
      log := log + [Effect.Forget(gone)];
    }

    method MergeFound(w: World) returns (live: set<Pid>)
      requires Valid()
      modifies table
      ensures Valid() && live == LivePids(w.proc.Entries())
      ensures table.View() == old(table.View()).MergeScan(FoundBy(old(View()), w), live)
    {
      var found;
      found, live := ScanProcIncremental(w.proc, table.entries.Keys);
      table.MergeScan(found, live);
    }

    method SweepManaged(live: set<Pid>)
      modifies this`managed
      ensures managed == LiveOnly(old(managed), live)
    {
      managed := map p | p in managed && p in live :: managed[p];
    }

    method ClassifyAll(todo: seq<Pid>, w: World, now: Instant)
      requires Valid()
      modifies this, table
      ensures Valid() && View() == ClassifyEach(cfg, old(View()), todo, w, now)
    {
      for i := 0 to |todo|
        invariant Valid()
        invariant ClassifyEach(cfg, View(), todo[i..], w, now) == ClassifyEach(cfg, old(View()), todo, w, now)
      {
        assert todo[i..][1..] == todo[i + 1..];
        if todo[i] in table.entries {
          ClassifyAndApplyRules(todo[i], table.entries[todo[i]].info, w, now);
        }
      }
    }

    method DoFullScan(w: World, now: Instant)
      requires Valid() && Fits(View(), w)
      modifies this, table
      ensures Valid() && View() == FullScan(cfg, old(View()), w, now)
    {
      ScanCovers(View(), w);
      MergeListing(w);
      var unclassified := table.UnclassifiedPids(w.order);
      if !startupPhase { ClassifyAll(unclassified, w, now); }
    }

    method DoRechecks(w: World, now: Instant)
      requires Valid() && Fits(View(), w)
      modifies this, table
      ensures Valid()
      ensures View() == Rechecks(cfg, old(View()), w, now)
    {
      var expired := table.ExpiredRechecks(now, w.order);
      for i := 0 to |expired|
        invariant Valid()
        invariant RecheckEach(cfg, View(), expired[i..], w, now) == RecheckEach(cfg, old(View()), expired, w, now)
      {
        assert expired[i..][1..] == expired[i + 1..];
        var pid := expired[i];
        if focus.IsForeground(pid) { continue; }
        if pid in w.proc.infos {
          InsertAndClassify(pid, w, now);
        } else {
          Forget(pid);
        }
      }
    }

    method HandlePressureChange(r: Reading)
      requires Valid()
      modifies this, table
      ensures Valid() && View() == HandlePressure(old(View()), r)
    {
      if r.level == lastLevel { return; }
      lastLevel := r.level;
      match r.level
      case CriticalPressure => EnterCritical(r);
      case HighPressure => mode := "pressure-high";
      case LowPressure => mode := "pressure-low";
      case NormalPressure => EnterNormal(r);
    }

    method EnterCritical(r: Reading)
      requires Valid()
      modifies this
      ensures Valid()
      ensures View() == old(View()).(mode := "pressure-critical", log := old(log) + SwapstormMoves(r.idle + r.background))
    {
      mode := "pressure-critical";
      var issued := MoveToSwapstorm(r.idle + r.background);
      log := log + issued;
    }

    method EnterNormal(r: Reading)
      requires Valid()
      modifies this, table
      ensures Valid()
      ensures View() == if old(mode) != "pressure-critical" then old(View()).(mode := "normal")
                        else old(View()).(mode := "normal", table := UnmarkEach(old(table.View()), r.swapstorm),
                                          reset := old(reset) + set p | p in r.swapstorm)
    {
      var wasCritical := mode == "pressure-critical";
      mode := "normal";
      if wasCritical { ResetAll(r.swapstorm); }
    }

    method MoveToSwapstorm(pids: seq<Pid>) returns (issued: Log)
      ensures issued == SwapstormMoves(pids)
    {
      issued := [];
      for i := 0 to |pids|
        invariant issued + SwapstormMoves(pids[i..]) == SwapstormMoves(pids)
      {
        assert pids[i..][1..] == pids[i + 1..];
        issued := issued + [Move(pids[i], Swapstorm, ByPressure)];
      }
    }

    /** Take back the classification of the processes in the swapstorm tier. */
    method ResetAll(pids: seq<Pid>)
      requires Valid()
      modifies this`reset, table
      ensures Valid() && table.View() == UnmarkEach(old(table.View()), pids)
      ensures reset == old(reset) + set p | p in pids
    {
      for i := 0 to |pids|
        invariant Valid() && reset == old(reset)
        invariant UnmarkEach(table.View(), pids[i..]) == UnmarkEach(old(table.View()), pids)
      {
        assert pids[i..][1..] == pids[i + 1..];
        table.MarkUnclassified(pids[i]);
      }
      reset := reset + set p | p in pids;
    }

    method SetForegroundPid(pid: Pid, w: World)
      requires Valid() && (!startupPhase ==> CanFocus(View(), pid))
      modifies this, focus
      ensures Valid() && View() == HandleForeground(old(View()), pid, w)
    {
      if startupPhase { return; }
      foregroundPid := Some(pid);
      var issued := focus.SetForegroundProcess(pid, table, w.order);
      log := log + issued;
    }

    method ReloadFrom(dirs: seq<RuleDir>)
      requires Valid()
      modifies this
      ensures Valid() && View() == Reloaded(old(View()), dirs)
    {
      var loaded := LoadRules(dirs);
      if loaded.Some? { rules := loaded.value; }
    }

    method HandleControlCmd(c: ControlCommand, w: World)
      requires Valid() && CanHandle(View(), Control(c))
      modifies this, focus
      ensures Valid() && View() == HandleControl(old(View()), c, w)
    {
      match c
      case SetForegroundProcess(pid) => SetForegroundPid(pid, w);
      case SetProcessCgroup(pid, cgroup) =>
        var tier := TierOf(cgroup);
        if tier.Some? { log := log + [Move(pid, tier.value, ByControl)]; }
      case ReloadByCommand(dirs) => ReloadFrom(dirs);
    }

    method HandleEvent(e: Event, w: World, now: Instant)
      requires Valid() && Fits(View(), w) && CanHandle(View(), e)
      modifies Repr()
      ensures Valid() && fresh(Repr() - old(Repr()))
      ensures View() == Handle(cfg, old(View()), e, w, now)
    {
      match e
      case Proc(event) =>
        if startupPhase { HandleProcEventStartup(event, w, now); } else { HandleProcEvent(event, w, now); }
      case Control(command) => HandleControlCmd(command, w);
      case PressureEvent(reading) => HandlePressureChange(reading);
      case RescanTick => DoFullScan(w, now);
      case RecheckTick => DoRechecks(w, now);
      case GcTick => forkbomb.Gc(now);
      case ReloadRules(dirs) => ReloadFrom(dirs);
      case PowerEvent(onBattery) => HandlePowerChange(onBattery);
      case ShutdownEvent =>
    }

    /** The end of the grace period, if it has come: full classification starts with a scan. */
    method EndStartup(w: World, now: Instant)
      requires Valid() && Fits(View(), w)
      modifies this, table
      ensures Valid() && View() == EndGrace(cfg, old(View()), w, now)
    {
      if startupPhase && now >= cfg.graceEnd {
        startupPhase := false;
        DoFullScan(w, now);
      }
    }

    /** One round of the loop. */
    method HandleInput(i: Input)
      requires Valid() && Completes(cfg, View(), i)
      modifies Repr()
      ensures Valid() && fresh(Repr() - old(Repr()))
      ensures View() == Step(cfg, old(View()), i)
    {
      EndStartup(i.scanWorld, i.now);
      HandleEvent(i.event, i.world, i.now);
    }

    /** A change of the power source switches the scheduling profile. */
    method HandlePowerChange(onBattery: bool)
      requires Valid()
      modifies this`lastPowerSource, this`log
      ensures Valid() && View() == HandlePower(old(View()), onBattery)
    {
      if lastPowerSource != Some(onBattery) {
        lastPowerSource := Some(onBattery);
        log := log + [SetProfile(onBattery)];
      }
    }

    /** Before the loop: the profile for the first power source, and a scan of what is there already. */
    method Enter(existing: Option<World>, now: Instant)
      requires Valid() && View() == NewBrain(cfg, rules)
      requires existing.Some? ==> Fits(Started(cfg, rules), existing.value)
      modifies this, table
      ensures Valid() && View() == Entering(cfg, old(rules), existing, now) && Inv(View())
    {
      EnteringIsInv(cfg, rules, existing, now);
      HandlePowerChange(cfg.onBattery);
      if existing.Some? { DoFullScan(existing.value, now); }
      startupPhase := true;
    }

    /** The event loop, over every run whose walks come to an end; a shutdown ends it. */
    method RunLoop(inputs: seq<Input>)
      requires Valid() && Possible(cfg, View(), Served(inputs))
      modifies Repr()
      ensures Valid() && fresh(Repr() - old(Repr()))
      ensures View() == Run(cfg, old(View()), Served(inputs))
      ensures old(Inv(View())) ==> Inv(View())
    {
      ghost var states := StatesOf(cfg, View(), Served(inputs));
      if Inv(View()) { EveryRunKeepsInv(cfg, View(), Served(inputs)); }
      Serve(inputs, states);
    }

    /** The loop over the inputs, through the states of the run. */
    method Serve(inputs: seq<Input>, ghost states: seq<Brain>)
      requires Valid() && StepByStep(cfg, states, Served(inputs)) && View() == states[0]
      modifies Repr()
      ensures Valid() && fresh(Repr() - old(Repr()))
      ensures View() == states[|states| - 1]
    {
      ghost var served := Served(inputs);
      ServedAt(inputs, 0);
      for k := 0 to |inputs|
        invariant Valid() && fresh(Repr() - old(Repr()))
        invariant NoneIsShutdown(inputs[..k]) && k <= |served|
        invariant View() == states[k]
      {
        ServedAt(inputs, k);
        ServeOne(inputs[k], states, served, k);
        assert inputs[..k + 1] == inputs[..k] + [inputs[k]];
        if inputs[k].event.ShutdownEvent? { return; }
      }
      ServedAt(inputs, |inputs|);
    }

    /** One round of the loop. */
    method ServeOne(i: Input, ghost states: seq<Brain>, ghost served: seq<Input>, ghost k: nat)
      requires Valid() && StepByStep(cfg, states, served) && k < |served| && served[k] == i && View() == states[k]
      modifies Repr()
      ensures Valid() && fresh(Repr() - old(Repr()))
      ensures View() == states[k + 1]
    {
      assert Follows(cfg, states, served, k);
      HandleInput(i);
    }

    /** Put every moved process that is alive back where it was first found, as far as time allows. */
    method ShutdownAndRestore(order: seq<Pid>, alive: set<Pid>, existing: set<string>, reached: nat)
      requires Valid() && Covers(order, table.entries.Keys)
      modifies this`log
      ensures Valid() && View() == Shutdown(old(View()), order, alive, existing, reached)
    {
      var moved := table.MovedPids(order);
      var issued := RestoreAll(UpTo(moved, reached), alive, existing);
      log := log + issued;
    }

    method RestoreAll(moved: seq<(Pid, Option<string>)>, alive: set<Pid>, existing: set<string>) returns (issued: Log)
      ensures issued == Restores(moved, alive, existing)
    {
      issued := [];
      assert moved[0..] == moved;
      for i := 0 to |moved|
        invariant issued + Restores(moved[i..], alive, existing) == Restores(moved, alive, existing)
      {
        var one := RestoreOne(moved[i].0, moved[i].1, alive, existing);
        RestoresNext(issued, moved, i, alive, existing);
        issued := issued + one;
      }
    }

    method RestoreOne(pid: Pid, original: Option<string>, alive: set<Pid>, existing: set<string>) returns (issued: Log)
      ensures issued == RestoreOf(pid, original, alive, existing)
    {
      if original.None? { return []; }
      if pid !in alive { return []; }
      if original.value !in existing { return []; }
      issued := [Restore(pid, original.value)];
    }

    /** The whole life of a daemon: what is there already, the events up to a shutdown, the restores. */
    method RunDaemon(existing: Option<World>, start: Instant, inputs: seq<Input>, order: seq<Pid>, alive: set<Pid>,
                     paths: set<string>, reached: nat)
      requires Valid() && View() == NewBrain(cfg, rules)
      requires existing.Some? ==> Fits(Started(cfg, rules), existing.value)
      requires Possible(cfg, Entering(cfg, rules, existing, start), Served(inputs))
      requires Covers(order, Run(cfg, Entering(cfg, rules, existing, start), Served(inputs)).table.entries.Keys)
      modifies Repr()
      ensures Valid()
      ensures View() == Shutdown(Run(cfg, Entering(cfg, old(rules), existing, start), Served(inputs)), order, alive, paths, reached)
    {
      Enter(existing, start);
      RunLoop(inputs);
      ShutdownAndRestore(order, alive, paths, reached);
    }
  }

  predicate NoneIsShutdown(inputs: seq<Input>) {
    forall i <- inputs :: !i.event.ShutdownEvent?
  }

  /** Up to the first shutdown, what is served is what comes in. */
  lemma {:induction false} ServedAt(inputs: seq<Input>, k: nat)
    requires k <= |inputs| && NoneIsShutdown(inputs[..k])
    ensures k <= |Served(inputs)|
    ensures k == |inputs| ==> k == |Served(inputs)|
    ensures k < |inputs| ==> k < |Served(inputs)| && Served(inputs)[k] == inputs[k]
    ensures k < |inputs| && inputs[k].event.ShutdownEvent? ==> |Served(inputs)| == k + 1
  {
    if k > 0 {
      assert inputs[..k] == [inputs[0]] + inputs[1..][..k - 1];
      ServedAt(inputs[1..], k - 1);
    }
  }

  lemma RestoresNext(issued: Log, moved: seq<(Pid, Option<string>)>, i: nat, alive: set<Pid>, existing: set<string>)
    requires i < |moved|
    ensures issued + Restores(moved[i..], alive, existing) ==
            (issued + RestoreOf(moved[i].0, moved[i].1, alive, existing)) + Restores(moved[i + 1..], alive, existing)
  {
    assert moved[i..][1..] == moved[i + 1..];
    Regroup(issued, RestoreOf(moved[i].0, moved[i].1, alive, existing), Restores(moved[i + 1..], alive, existing));
  }

  /** A merged table holds nothing that its inputs did not. */
  lemma ScanCovers(s: Brain, w: World)
    requires Fits(s, w)
    ensures Covers(w.order, Merged(s, w).table.entries.Keys)
  {
    ScanLeavesLive(s.table, w.proc);
  }

  /** The state after the k-th input is the next of the states. */
  ghost predicate Follows(cfg: Config, states: seq<Brain>, inputs: seq<Input>, k: nat)
    requires k < |inputs| && |states| == |inputs| + 1
  {
    Completes(cfg, states[k], inputs[k]) && states[k + 1] == Step(cfg, states[k], inputs[k])
  }

  ghost predicate StepByStep(cfg: Config, states: seq<Brain>, inputs: seq<Input>) {
    |states| == |inputs| + 1 && forall k | 0 <= k < |inputs| :: Follows(cfg, states, inputs, k)
  }

  lemma OneMoreStep(cfg: Config, states: seq<Brain>, inputs: seq<Input>, i: Input)
    requires StepByStep(cfg, states, inputs) && Completes(cfg, states[|inputs|], i)
    ensures StepByStep(cfg, states + [Step(cfg, states[|inputs|], i)], inputs + [i])
  {
    var more, all := states + [Step(cfg, states[|inputs|], i)], inputs + [i];
    forall k | 0 <= k < |all| ensures Follows(cfg, more, all, k) {
      if k < |inputs| { assert Follows(cfg, states, inputs, k); }
    }
  }

  /** All the states of a possible run. */
  lemma {:induction false} StatesOf(cfg: Config, s: Brain, inputs: seq<Input>) returns (states: seq<Brain>)
    requires Possible(cfg, s, inputs)
    ensures StepByStep(cfg, states, inputs) && states[0] == s && states[|inputs|] == Run(cfg, s, inputs)
  {
    if inputs == [] {
      states := [s];
    } else {
      var front, last := inputs[..|inputs| - 1], inputs[|inputs| - 1];
      var before := StatesOf(cfg, s, front);
      OneMoreStep(cfg, before, front, last);
      assert front + [last] == inputs;
      states := before + [Run(cfg, s, inputs)];
    }
  }
}
