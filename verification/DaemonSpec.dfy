/** The daemon's state and its steps, as values; what the outside world answers is an input. */
module DaemonSpec {
  import opened Wrappers
  import opened Types
  import opened Effects
  import opened ProcessTables
  import opened Foreground
  import opened ForkBombs
  import opened Rules
  import opened RuleLoading
  import opened Scanning
  import Netlink

  /** What the control socket shows of a managed process. */
  datatype ManagedEntry = ManagedEntry(pid: Pid, comm: string, cgroup: string, ruleName: string)

  datatype Pressure = NormalPressure | LowPressure | HighPressure | CriticalPressure

  /** What the daemon is started with; `onBattery` is the power source found at the start. */
  datatype Config = Config(
    ownPid: Pid,
    lineageDepth: nat,
    threshold: nat,
    graceEnd: Instant,
    exceptions: ExceptionList,
    onBattery: bool)

  const OWN_THREAD_NAMES: seq<string> := [
    "ulatencyd", "procmon-netlink", "psi-monitor", "power-monitor",
    "signals", "control-socket", "control-sock-perm", "diag-log",
    "cgroup-gc", "cgroup-teardown", "shutdown-restore"
  ]

  /**
   * The state of the daemon.  `log` is the history of its requests, and `reset` the pids whose
   * classification a pressure recovery has taken back since the last scan.
   */
  datatype Brain = Brain(
    table: Table,
    forkbomb: Detector,
    focus: Focus,
    managed: map<Pid, ManagedEntry>,
    rules: seq<Rule>,
    startup: bool,
    level: Pressure,
    mode: string,
    battery: Option<bool>,
    foregroundPid: Option<Pid>,
    reset: set<Pid>,
    log: Log)

  /**
   * What the outside world answers while one event is handled: /proc, the cgroups and environments
   * that can be read, and the iteration orders of the hash tables of entries and of children.
   */
  datatype World = World(
    proc: Snapshot,
    cgroups: map<Pid, string>,
    environs: map<Pid, map<string, string>>,
    order: seq<Pid>,
    childOrder: seq<Pid>)

  datatype ProcEvent =
    | ProcFork(parent: Pid, child: Pid, childTgid: Pid)
    | ProcExec(pid: Pid)
    | ProcExit(pid: Pid)
    | ProcComm(pid: Pid)
    | ProcUid(pid: Pid)

  /** A decoded event as the daemon takes it up: it looks neither at exit codes nor at new names. */
  function Heard(e: Netlink.DecodedEvent): ProcEvent {
    match e
    case Fork(parent, child, tgid) => ProcFork(parent, child, tgid)
    case Exec(pid) => ProcExec(pid)
    case Exit(pid, _) => ProcExit(pid)
    case Comm(pid, _) => ProcComm(pid)
    case Uid(pid) => ProcUid(pid)
  }

  function HeardAll(events: seq<Netlink.DecodedEvent>): (r: seq<ProcEvent>)
    ensures |r| == |events| && forall i :: 0 <= i < |r| ==> r[i] == Heard(events[i])
  {
    seq(|events|, i requires 0 <= i < |events| => Heard(events[i]))
  }

  /** A reload comes with what is on disk at the time. */
  datatype ControlCommand =
    | SetForegroundProcess(pid: Pid)
    | SetProcessCgroup(pid: Pid, cgroup: string)
    | ReloadByCommand(dirs: seq<RuleDir>)

  /** A pressure reading, already classified, with the members of the tiers it may concern. */
  datatype Reading = Reading(level: Pressure, idle: seq<Pid>, background: seq<Pid>, swapstorm: seq<Pid>)

  datatype Event =
    | Proc(event: ProcEvent)
    | Control(command: ControlCommand)
    | PressureEvent(reading: Reading)
    | PowerEvent(onBattery: bool)
    | RescanTick
    | RecheckTick
    | GcTick
    | ReloadRules(dirs: seq<RuleDir>)
    | ShutdownEvent

  /** One event, with the clock and the world at the time it is taken up. */
  datatype Input = Input(now: Instant, event: Event, world: World, scanWorld: World)

  // ------------------------------------------------------------------------------------------
  // Applying a rule
  // ------------------------------------------------------------------------------------------

  function CgroupMove(pid: Pid, a: Action, cause: Cause): Log {
    if a.cgroup.Some? && TierOf(a.cgroup.value).Some? then [Move(pid, TierOf(a.cgroup.value).value, cause)] else []
  }

  function Clamp(x: int, lo: int, hi: int): int {
    if x < lo then lo else if x > hi then hi else x
  }

  function SchedRequest(pid: Pid, a: Action): Log {
    if a.schedPolicy.None? then []
    else
      var policy := a.schedPolicy.value;
      var priority := if a.schedPriority.Some? then a.schedPriority.value else 0;
      if policy in ["normal", "other", "batch", "idle"] then [SetSched(pid, policy, 0)]
      else if policy in ["fifo", "rr", "round_robin"] then [SetSched(pid, policy, Clamp(priority, 1, 99))]
      else []
  }

  function NiceRequest(pid: Pid, a: Action): Log {
    if a.nice.Some? then [SetNice(pid, a.nice.value, ByRule)] else []
  }

  function OomRequest(pid: Pid, a: Action): Log {
    if a.oomScoreAdj.Some? then [SetOom(pid, Clamp(a.oomScoreAdj.value, -1000, 1000))] else []
  }

  /** The requests of a full action. */
  function Requests(pid: Pid, a: Action): Log {
    CgroupMove(pid, a, ByRule) + (NiceRequest(pid, a) + SchedRequest(pid, a) + OomRequest(pid, a))
  }

  function ChildMoves(children: seq<Pid>, known: set<Pid>, a: Action): Log {
    if children == [] then []
    else (if children[0] in known then CgroupMove(children[0], a, ByParentRule) else []) + ChildMoves(children[1..], known, a)
  }

  function CgroupRead(pid: Pid, a: Action, w: World): Log {
    if a.cgroup.None? then []
    else [ReadCgroup(pid, if pid in w.cgroups then Some(w.cgroups[pid]) else None)]
  }

  /** Everything a matching rule makes the daemon ask for. */
  function Issued(t: Table, pid: Pid, a: Action, w: World): Log {
    CgroupRead(pid, a, w) + Requests(pid, a) +
    if a.applyToChildren then ChildMoves(Enumerate(Kids(t.children, pid), w.childOrder), t.entries.Keys, a) else []
  }

  function WithOriginal(t: Table, pid: Pid, a: Action, w: World): Table {
    if a.cgroup.Some? && pid in w.cgroups then t.SetOriginalCgroup(pid, w.cgroups[pid]) else t
  }

  predicate WantsEnviron(rules: seq<Rule>) {
    exists r <- rules :: r.matchers.envSet != []
  }

  function WithEnviron(rules: seq<Rule>, pid: Pid, info: ProcessInfo, w: World): ProcessInfo {
    if WantsEnviron(rules) && info.environ == map[] && pid in w.environs then info.(environ := w.environs[pid]) else info
  }

  predicate IsOwn(cfg: Config, pid: Pid, info: ProcessInfo) {
    pid == cfg.ownPid || info.ppid == cfg.ownPid || info.comm in OWN_THREAD_NAMES
  }

  /** The action for a process that may be touched, None for all others. */
  function Decision(cfg: Config, s: Brain, pid: Pid, info: ProcessInfo, w: World): Option<Action> {
    if IsOwn(cfg, pid, info) || info.isKernelThread || pid in s.focus.pids then None
    else Classification(s.rules, cfg.exceptions, WithEnviron(s.rules, pid, info, w), s.table.AncestorComms(pid, 10))
  }

  function Managing(pid: Pid, info: ProcessInfo, a: Action): ManagedEntry {
    ManagedEntry(pid, info.comm, if a.cgroup.Some? then a.cgroup.value else "system", a.ruleName)
  }

  function Apply(s: Brain, pid: Pid, info: ProcessInfo, a: Action, w: World, now: Instant): Brain {
    s.(table := WithOriginal(s.table, pid, a, w).SetApplied(pid, a, now),
       managed := s.managed[pid := Managing(pid, info, a)],
       log := s.log + Issued(s.table, pid, a, w))
  }

  function Mark(s: Brain, pid: Pid): Brain {
    s.(table := s.table.MarkClassified(pid))
  }

  function ClassifyAndApply(cfg: Config, s: Brain, pid: Pid, info: ProcessInfo, w: World, now: Instant): Brain {
    var d := Decision(cfg, s, pid, info, w);
    if d.None? then Mark(s, pid) else Apply(s, pid, info, d.value, w, now)
  }

  // ------------------------------------------------------------------------------------------
  // Process events
  // ------------------------------------------------------------------------------------------

  function InsertEntry(s: Brain, info: ProcessInfo): Brain {
    s.(table := s.table.Insert(info))
  }

  /** The entry and its managed record go together. */
  function RemoveEntry(s: Brain, pid: Pid): Brain {
    s.(table := s.table.Remove(pid),
       managed := s.managed - {pid},
       log := s.log + if pid in s.table.entries then [Forget({pid})] else [])
  }

  /** Insert a process that is to be classified later, if it can still be read. */
  function InsertMarked(s: Brain, pid: Pid, w: World): Brain {
    if pid in w.proc.infos then Mark(InsertEntry(s, w.proc.infos[pid]), pid) else s
  }

  /** Count the fork of a new process; the second value tells whether it made a fork bomb. */
  function CountFork(cfg: Config, s: Brain, parent: Pid, child: Pid, tgid: Pid, w: World, now: Instant): (Brain, bool) {
    if child != tgid then (s, false)
    else
      var (d, bomb) := s.forkbomb.RecordFork(parent, now);
      if bomb.None? then (s.(forkbomb := d), false)
      else (s.(forkbomb := d,
               log := s.log + ThrottleMoves(CollectSubtree(s.table.children, bomb.value, cfg.lineageDepth, w.childOrder))), true)
  }

  function HandleExit(s: Brain, pid: Pid): Brain {
    var (f, issued) := OnExit(s.focus, pid);
    RemoveEntry(s.(focus := f, log := s.log + issued), pid)
  }

  /** Insert and classify, if the process can still be read. */
  function Reclassify(cfg: Config, s: Brain, pid: Pid, w: World, now: Instant): Brain {
    if pid in w.proc.infos
    then ClassifyAndApply(cfg, InsertEntry(s, w.proc.infos[pid]), pid, w.proc.infos[pid], w, now)
    else s
  }

  predicate IsClassified(t: Table, pid: Pid) {
    pid in t.entries && t.entries[pid].classified
  }

  /** During the grace period: bookkeeping only. */
  function HandleProcStartup(cfg: Config, s: Brain, e: ProcEvent, w: World, now: Instant): Brain {
    match e
    case ProcFork(parent, child, tgid) => InsertMarked(CountFork(cfg, s, parent, child, tgid, w, now).0, child, w)
    case ProcExit(pid) => HandleExit(s, pid)
    case ProcExec(pid) => InsertMarked(s, pid, w)
    case _ => s
  }

  function HandleProc(cfg: Config, s: Brain, e: ProcEvent, w: World, now: Instant): Brain {
    match e
    case ProcFork(parent, child, tgid) =>
      var (s', bomb) := CountFork(cfg, s, parent, child, tgid, w, now);
      if bomb then s' else InsertMarked(s', child, w)
    case ProcExit(pid) => HandleExit(s, pid)
    case ProcExec(pid) => Reclassify(cfg, s, pid, w, now)
    case ProcComm(pid) => if IsClassified(s.table, pid) then s else Reclassify(cfg, s, pid, w, now)
    case ProcUid(pid) => if IsClassified(s.table, pid) then s else Reclassify(cfg, s, pid, w, now)
  }

  // ------------------------------------------------------------------------------------------
  // Scans and rechecks
  // ------------------------------------------------------------------------------------------

  function ClassifyEach(cfg: Config, s: Brain, todo: seq<Pid>, w: World, now: Instant): Brain
    decreases |todo|
  {
    if todo == [] then s
    else
      var pid := todo[0];
      var next := if pid in s.table.entries then ClassifyAndApply(cfg, s, pid, s.table.entries[pid].info, w, now) else s;
      ClassifyEach(cfg, next, todo[1..], w, now)
  }

  function FoundBy(s: Brain, w: World): seq<ProcessInfo> {
    Readable(w.proc.Entries(), w.proc.infos, s.table.entries.Keys)
  }

  function LiveOnly(managed: map<Pid, ManagedEntry>, live: set<Pid>): map<Pid, ManagedEntry> {
    map p | p in managed && p in live :: managed[p]
  }

  /** The table and the managed map after the listing of /proc has been merged. */
  function Merged(s: Brain, w: World): Brain {
    var live := LivePids(w.proc.Entries());
    s.(table := s.table.MergeScan(FoundBy(s, w), live),
       managed := LiveOnly(s.managed, live),
       reset := {},
       log := s.log + [Forget(s.table.MergeFresh(FoundBy(s, w)).Stale(live))])
  }

  function FullScan(cfg: Config, s: Brain, w: World, now: Instant): Brain {
    var merged := Merged(s, w);
    if s.startup then merged
    else ClassifyEach(cfg, merged, Enumerate(merged.table.UnclassifiedSet(), w.order), w, now)
  }

  function Recheck(cfg: Config, s: Brain, pid: Pid, w: World, now: Instant): Brain {
    if pid in s.focus.pids then s
    else if pid in w.proc.infos then Reclassify(cfg, s, pid, w, now)
    else RemoveEntry(s, pid)
  }

  function RecheckEach(cfg: Config, s: Brain, todo: seq<Pid>, w: World, now: Instant): Brain
    decreases |todo|
  {
    if todo == [] then s else RecheckEach(cfg, Recheck(cfg, s, todo[0], w, now), todo[1..], w, now)
  }

  // ------------------------------------------------------------------------------------------
  // Pressure
  // ------------------------------------------------------------------------------------------

  function SwapstormMoves(pids: seq<Pid>): Log {
    if pids == [] then [] else [Move(pids[0], Swapstorm, ByPressure)] + SwapstormMoves(pids[1..])
  }

  function UnmarkEach(t: Table, pids: seq<Pid>): Table
    decreases |pids|
  {
    if pids == [] then t else UnmarkEach(t.MarkUnclassified(pids[0]), pids[1..])
  }

  function ModeOf(level: Pressure): string {
    match level
    case NormalPressure => "normal"
    case LowPressure => "pressure-low"
    case HighPressure => "pressure-high"
    case CriticalPressure => "pressure-critical"
  }

  function HandlePressure(s: Brain, r: Reading): Brain {
    var level := r.level;
    if level == s.level then s
    else
      var s' := s.(level := level, mode := ModeOf(level));
      match level
      case CriticalPressure => s'.(log := s.log + SwapstormMoves(r.idle + r.background))
      case NormalPressure =>
        if s.mode == "pressure-critical"
        then s'.(table := UnmarkEach(s.table, r.swapstorm), reset := s.reset + set p | p in r.swapstorm)
        else s'
      case _ => s'
  }

  /** A change of the power source changes the scheduling profile; the same source again does not. */
  function HandlePower(s: Brain, onBattery: bool): Brain {
    if s.battery == Some(onBattery) then s else s.(battery := Some(onBattery), log := s.log + [SetProfile(onBattery)])
  }

  // ------------------------------------------------------------------------------------------
  // The loop
  // ------------------------------------------------------------------------------------------

  /** The walk up from the new foreground process comes to an end. */
  predicate CanFocus(s: Brain, pid: Pid) {
    KnownSessionRoot(s.table, pid) || StopsIn(s.table, pid, |s.table.entries|)
  }

  ghost function HandleForeground(s: Brain, pid: Pid, w: World): Brain {
    if s.startup || !CanFocus(s, pid) then s
    else
      var (f, issued) := SetForeground(s.focus, s.table, pid, w.order);
      s.(focus := f, foregroundPid := Some(pid), log := s.log + issued)
  }

  function ControlMove(pid: Pid, cgroup: string): Log {
    if TierOf(cgroup).Some? then [Move(pid, TierOf(cgroup).value, ByControl)] else []
  }

  function Reloaded(s: Brain, dirs: seq<RuleDir>): Brain {
    if Load(dirs).Some? then s.(rules := Load(dirs).value) else s
  }

  ghost function HandleControl(s: Brain, c: ControlCommand, w: World): Brain {
    match c
    case SetForegroundProcess(pid) => HandleForeground(s, pid, w)
    case SetProcessCgroup(pid, cgroup) => s.(log := s.log + ControlMove(pid, cgroup))
    case ReloadByCommand(dirs) => Reloaded(s, dirs)
  }

  function Rechecks(cfg: Config, s: Brain, w: World, now: Instant): Brain {
    RecheckEach(cfg, s, Enumerate(s.table.ExpiredSet(now), w.order), w, now)
  }

  ghost function Handle(cfg: Config, s: Brain, e: Event, w: World, now: Instant): Brain {
    match e
    case Proc(event) => if s.startup then HandleProcStartup(cfg, s, event, w, now) else HandleProc(cfg, s, event, w, now)
    case Control(command) => HandleControl(s, command, w)
    case PressureEvent(reading) => HandlePressure(s, reading)
    case RescanTick => FullScan(cfg, s, w, now)
    case RecheckTick => Rechecks(cfg, s, w, now)
    case GcTick => s.(forkbomb := s.forkbomb.Gc(now))
    case ReloadRules(dirs) => Reloaded(s, dirs)
    case PowerEvent(onBattery) => HandlePower(s, onBattery)
    case ShutdownEvent => s
  }

  /** The grace period ends with the first event after its deadline, and a scan. */
  function EndGrace(cfg: Config, s: Brain, w: World, now: Instant): Brain {
    if s.startup && now >= cfg.graceEnd then FullScan(cfg, s.(startup := false), w, now) else s
  }

  ghost function Step(cfg: Config, s: Brain, i: Input): Brain {
    Handle(cfg, EndGrace(cfg, s, i.scanWorld, i.now), i.event, i.world, i.now)
  }

  function NewBrain(cfg: Config, rules: seq<Rule>): Brain {
    Brain(EMPTY_TABLE, Start(cfg.threshold), Focus({}, None), map[], rules, true, NormalPressure, "normal", None, None, {}, [])
  }

  /** The daemon with the profile for its first power source. */
  function Started(cfg: Config, rules: seq<Rule>): Brain {
    HandlePower(NewBrain(cfg, rules), cfg.onBattery)
  }

  /** The state in which the loop is entered, after a scan of the existing processes or without. */
  function Entering(cfg: Config, rules: seq<Rule>, existing: Option<World>, now: Instant): Brain {
    if existing.Some? then FullScan(cfg, Started(cfg, rules), existing.value, now) else Started(cfg, rules)
  }

  ghost function Run(cfg: Config, s: Brain, inputs: seq<Input>): Brain {
    if inputs == [] then s else Step(cfg, Run(cfg, s, inputs[..|inputs| - 1]), inputs[|inputs| - 1])
  }

  /** The inputs that are taken up: none after a shutdown. */
  function Served(inputs: seq<Input>): seq<Input> {
    if inputs == [] then []
    else if inputs[0].event.ShutdownEvent? then [inputs[0]]
    else [inputs[0]] + Served(inputs[1..])
  }

  // ------------------------------------------------------------------------------------------
  // What the model asks of its inputs
  // ------------------------------------------------------------------------------------------

  /** /proc/<pid> describes <pid>, and the iteration orders cover what there is to iterate over. */
  ghost predicate Fits(s: Brain, w: World) {
    && w.proc.WellRead()
    && Distinct(w.order) && Distinct(w.childOrder)
    && (forall p: Pid :: p in s.table.entries || p in w.proc.infos || p in s.focus.pids ==> p in w.order)
    && (forall p: Pid :: p in s.table.entries || p in w.proc.infos ==> p in w.childOrder)
  }

  /** A request to focus a process comes to an end only if the walk up from the process does. */
  ghost predicate CanHandle(s: Brain, e: Event) {
    e.Control? && e.command.SetForegroundProcess? && !s.startup ==> CanFocus(s, e.command.pid)
  }

  /** The step completes: its inputs fit, and a walk up to an application root ends. */
  ghost predicate Completes(cfg: Config, s: Brain, i: Input) {
    var s' := EndGrace(cfg, s, i.scanWorld, i.now);
    && Fits(s, i.scanWorld)
    && Fits(s', i.world)
    && CanHandle(s', i.event)
  }

  ghost predicate Possible(cfg: Config, s: Brain, inputs: seq<Input>) {
    inputs == [] ||
    (Possible(cfg, s, inputs[..|inputs| - 1]) && Completes(cfg, Run(cfg, s, inputs[..|inputs| - 1]), inputs[|inputs| - 1]))
  }

  // ------------------------------------------------------------------------------------------
  // Shutdown
  // ------------------------------------------------------------------------------------------

  /** A process is restored if it is alive and its original cgroup was recorded and still exists. */
  function RestoreOf(pid: Pid, original: Option<string>, alive: set<Pid>, existing: set<string>): Log {
    if original.Some? && pid in alive && original.value in existing then [Restore(pid, original.value)] else []
  }

  function Restores(moved: seq<(Pid, Option<string>)>, alive: set<Pid>, existing: set<string>): Log {
    if moved == [] then [] else RestoreOf(moved[0].0, moved[0].1, alive, existing) + Restores(moved[1..], alive, existing)
  }

  /** The first `n` elements, or all if there are no more. */
  function UpTo<T>(s: seq<T>, n: nat): seq<T> {
    if n <= |s| then s[..n] else s
  }

  /** The restore pass is cut short after two seconds; `reached` processes are looked at by then. */
  function Shutdown(s: Brain, order: seq<Pid>, alive: set<Pid>, existing: set<string>, reached: nat): Brain {
    s.(log := s.log + Restores(UpTo(s.table.Moved(order), reached), alive, existing))
  }
}
