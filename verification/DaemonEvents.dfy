/** What each event does: to the rules, the profile, the processes known, the mode and the focus. */
module DaemonEvents {
  import opened Wrappers
  import opened Types
  import opened Effects
  import opened ProcessTables
  import opened Descendants
  import opened Foreground
  import opened Rules
  import opened RuleLoading
  import opened Scanning
  import opened DaemonSpec
  import opened DaemonInvariants
  import opened DaemonProperties

  // ------------------------------------------------------------------------------------------
  // The rules in force
  // ------------------------------------------------------------------------------------------

  /** What is on disk when an event asks for the rules to be loaded again. */
  function ReloadOf(e: Event): Option<seq<RuleDir>> {
    match e
    case ReloadRules(dirs) => Some(dirs)
    case Control(ReloadByCommand(dirs)) => Some(dirs)
    case _ => None
  }

  predicate Succeeds(e: Event) {
    ReloadOf(e).Some? && Load(ReloadOf(e).value).Some?
  }

  /** A reload that fails changes nothing. */
  lemma FailedReload(cfg: Config, s: Brain, e: Event, w: World, now: Instant)
    requires ReloadOf(e).Some? && Load(ReloadOf(e).value).None?
    ensures Handle(cfg, s, e, w, now) == s
  {
  }

  lemma {:induction false} ClassifyEachKeepsRules(cfg: Config, s: Brain, todo: seq<Pid>, w: World, now: Instant)
    ensures ClassifyEach(cfg, s, todo, w, now).rules == s.rules && ClassifyEach(cfg, s, todo, w, now).battery == s.battery
    decreases |todo|
  {
    if todo != [] {
      var next := if todo[0] in s.table.entries
                  then ClassifyAndApply(cfg, s, todo[0], s.table.entries[todo[0]].info, w, now) else s;
      ClassifyEachKeepsRules(cfg, next, todo[1..], w, now);
    }
  }

  lemma {:induction false} RecheckEachKeepsRules(cfg: Config, s: Brain, todo: seq<Pid>, w: World, now: Instant)
    ensures RecheckEach(cfg, s, todo, w, now).rules == s.rules && RecheckEach(cfg, s, todo, w, now).battery == s.battery
    decreases |todo|
  {
    if todo != [] { RecheckEachKeepsRules(cfg, Recheck(cfg, s, todo[0], w, now), todo[1..], w, now); }
  }

  lemma ScanKeepsRules(cfg: Config, s: Brain, w: World, now: Instant)
    ensures FullScan(cfg, s, w, now).rules == s.rules && FullScan(cfg, s, w, now).battery == s.battery
  {
    ClassifyEachKeepsRules(cfg, Merged(s, w), Enumerate(Merged(s, w).table.UnclassifiedSet(), w.order), w, now);
  }

  lemma ProcKeepsRules(cfg: Config, s: Brain, e: ProcEvent, w: World, now: Instant)
    ensures HandleProcStartup(cfg, s, e, w, now).rules == s.rules && HandleProcStartup(cfg, s, e, w, now).battery == s.battery
    ensures HandleProc(cfg, s, e, w, now).rules == s.rules && HandleProc(cfg, s, e, w, now).battery == s.battery
  {
  }

  lemma RulesAfter(cfg: Config, s: Brain, e: Event, w: World, now: Instant)
    ensures Handle(cfg, s, e, w, now).rules == if Succeeds(e) then Load(ReloadOf(e).value).value else s.rules
    ensures Handle(cfg, s, e, w, now).battery == if e.PowerEvent? then Some(e.onBattery) else s.battery
  {
    match e
    case Proc(event) => ProcKeepsRules(cfg, s, event, w, now);
    case RescanTick => ScanKeepsRules(cfg, s, w, now);
    case RecheckTick => RecheckEachKeepsRules(cfg, s, Enumerate(s.table.ExpiredSet(now), w.order), w, now);
    case _ =>
  }

  lemma StepRules(cfg: Config, s: Brain, i: Input)
    ensures Step(cfg, s, i).rules == if Succeeds(i.event) then Load(ReloadOf(i.event).value).value else s.rules
    ensures Step(cfg, s, i).battery == if i.event.PowerEvent? then Some(i.event.onBattery) else s.battery
  {
    ScanKeepsRules(cfg, s.(startup := false), i.scanWorld, i.now);
    RulesAfter(cfg, EndGrace(cfg, s, i.scanWorld, i.now), i.event, i.world, i.now);
  }

  /** The rules after these inputs, and the power source. */
  function RulesOver(rules: seq<Rule>, inputs: seq<Input>): seq<Rule> {
    if inputs == [] then rules
    else
      var e := inputs[|inputs| - 1].event;
      if Succeeds(e) then Load(ReloadOf(e).value).value else RulesOver(rules, inputs[..|inputs| - 1])
  }

  function PowerOver(battery: Option<bool>, inputs: seq<Input>): Option<bool> {
    if inputs == [] then battery
    else
      var e := inputs[|inputs| - 1].event;
      if e.PowerEvent? then Some(e.onBattery) else PowerOver(battery, inputs[..|inputs| - 1])
  }

  lemma {:induction false} RunRules(cfg: Config, s: Brain, inputs: seq<Input>)
    ensures Run(cfg, s, inputs).rules == RulesOver(s.rules, inputs)
    ensures Run(cfg, s, inputs).battery == PowerOver(s.battery, inputs)
  {
    if inputs != [] {
      RunRules(cfg, s, inputs[..|inputs| - 1]);
      StepRules(cfg, Run(cfg, s, inputs[..|inputs| - 1]), inputs[|inputs| - 1]);
    }
  }

  /** The input at `k` is the last whose event is singled out. */
  ghost predicate IsLast(inputs: seq<Input>, k: nat, single: Event -> bool) {
    k < |inputs| && single(inputs[k].event) && forall j :: k < j < |inputs| ==> !single(inputs[j].event)
  }

  const IS_POWER: Event -> bool := (e: Event) => e.PowerEvent?

  lemma LastOfFront(inputs: seq<Input>, k: nat, single: Event -> bool)
    requires IsLast(inputs, k, single) && k < |inputs| - 1
    ensures !single(inputs[|inputs| - 1].event) && IsLast(inputs[..|inputs| - 1], k, single)
  {
    var front := inputs[..|inputs| - 1];
    forall j | k < j < |front| ensures !single(front[j].event) { assert inputs[j] == front[j]; }
  }

  lemma {:induction false} RulesOfLast(rules: seq<Rule>, inputs: seq<Input>, k: nat)
    requires IsLast(inputs, k, Succeeds)
    ensures RulesOver(rules, inputs) == Load(ReloadOf(inputs[k].event).value).value
  {
    if k < |inputs| - 1 {
      LastOfFront(inputs, k, Succeeds);
      RulesOfLast(rules, inputs[..|inputs| - 1], k);
    }
  }

  lemma {:induction false} RulesOfStart(rules: seq<Rule>, inputs: seq<Input>)
    requires forall i <- inputs :: !Succeeds(i.event)
    ensures RulesOver(rules, inputs) == rules
  {
    if inputs != [] { RulesOfStart(rules, inputs[..|inputs| - 1]); }
  }

  lemma {:induction false} PowerOfLast(battery: Option<bool>, inputs: seq<Input>, k: nat)
    requires IsLast(inputs, k, IS_POWER)
    ensures PowerOver(battery, inputs) == Some(inputs[k].event.onBattery)
  {
    if k < |inputs| - 1 {
      LastOfFront(inputs, k, IS_POWER);
      PowerOfLast(battery, inputs[..|inputs| - 1], k);
    }
  }

  lemma {:induction false} PowerOfStart(battery: Option<bool>, inputs: seq<Input>)
    requires forall i <- inputs :: !i.event.PowerEvent?
    ensures PowerOver(battery, inputs) == battery
  {
    if inputs != [] { PowerOfStart(battery, inputs[..|inputs| - 1]); }
  }

  lemma EnteringRules(cfg: Config, rules: seq<Rule>, existing: Option<World>, start: Instant)
    ensures Entering(cfg, rules, existing, start).rules == rules
    ensures Entering(cfg, rules, existing, start).battery == Some(cfg.onBattery)
  {
    if existing.Some? { ScanKeepsRules(cfg, Started(cfg, rules), existing.value, start); }
  }

  /**
   * In every reachable state, the rules in force are those of the last reload that succeeded, by
   * signal or by command, and those of the start if there was none.
   */
  lemma RulesInForce(cfg: Config, rules: seq<Rule>, existing: Option<World>, start: Instant, inputs: seq<Input>, s: Brain)
    requires Reachable(cfg, rules, existing, start, inputs, s)
    ensures (forall i <- inputs :: !Succeeds(i.event)) ==> s.rules == rules
    ensures forall k: nat :: IsLast(inputs, k, Succeeds) ==> Some(s.rules) == Load(ReloadOf(inputs[k].event).value)
  {
    EnteringRules(cfg, rules, existing, start);
    RunRules(cfg, Entering(cfg, rules, existing, start), inputs);
    if forall i <- inputs :: !Succeeds(i.event) { RulesOfStart(rules, inputs); }
    forall k: nat | IsLast(inputs, k, Succeeds) ensures Some(s.rules) == Load(ReloadOf(inputs[k].event).value) {
      RulesOfLast(rules, inputs, k);
    }
  }

  /**
   * In every reachable state, the scheduling profile last set is the one for the power source last
   * reported, and for that of the start if none was.
   */
  lemma ProfileInForce(cfg: Config, rules: seq<Rule>, existing: Option<World>, start: Instant, inputs: seq<Input>, s: Brain)
    requires Reachable(cfg, rules, existing, start, inputs, s)
    ensures (forall i <- inputs :: !i.event.PowerEvent?) ==> LastProfile(s.log) == Some(cfg.onBattery)
    ensures forall k: nat :: IsLast(inputs, k, IS_POWER) ==> LastProfile(s.log) == Some(inputs[k].event.onBattery)
  {
    ReachableIsInv(cfg, rules, existing, start, inputs, s);
    EnteringRules(cfg, rules, existing, start);
    RunRules(cfg, Entering(cfg, rules, existing, start), inputs);
    if forall i <- inputs :: !i.event.PowerEvent? { PowerOfStart(Some(cfg.onBattery), inputs); }
    forall k: nat | IsLast(inputs, k, IS_POWER) ensures LastProfile(s.log) == Some(inputs[k].event.onBattery) {
      PowerOfLast(Some(cfg.onBattery), inputs, k);
    }
  }

  // ------------------------------------------------------------------------------------------
  // The processes that are known
  // ------------------------------------------------------------------------------------------

  /** The processes that a process event makes known, should they be readable. */
  function Read(cfg: Config, s: Brain, e: ProcEvent, w: World, now: Instant): set<Pid> {
    match e
    case ProcFork(parent, child, tgid) =>
      if !s.startup && CountFork(cfg, s, parent, child, tgid, w, now).1 then {} else {child}
    case ProcExec(pid) => {pid}
    case ProcExit(_) => {}
    case _ => if s.startup || IsClassified(s.table, e.pid) then {} else {e.pid}
  }

  /** The processes known after an event. */
  function KnownAfter(cfg: Config, s: Brain, e: Event, w: World, now: Instant): set<Pid> {
    match e
    case Proc(ProcExit(pid)) => s.table.entries.Keys - {pid}
    case Proc(event) => s.table.entries.Keys + (Read(cfg, s, event, w, now) * w.proc.infos.Keys)
    case RescanTick => LivePids(w.proc.Entries()) * (s.table.entries.Keys + w.proc.infos.Keys)
    case RecheckTick => set p | p in s.table.entries && (p in s.table.ExpiredSet(now) ==> p in s.focus.pids || p in w.proc.infos)
    case _ => s.table.entries.Keys
  }

  lemma ReclassifyKeys(cfg: Config, s: Brain, pid: Pid, w: World, now: Instant)
    requires Core(s) && w.proc.WellRead()
    ensures var u := Reclassify(cfg, s, pid, w, now);
            u.focus == s.focus && u.table.entries.Keys == s.table.entries.Keys + ({pid} * w.proc.infos.Keys)
  {
    if pid in w.proc.infos {
      InsertAgrees(s.table, w.proc.infos[pid]);
      ClassifyFrame(cfg, InsertEntry(s, w.proc.infos[pid]), pid, w.proc.infos[pid], w, now);
    }
  }

  lemma InsertMarkedKeys(s: Brain, pid: Pid, w: World)
    requires w.proc.WellRead()
    ensures InsertMarked(s, pid, w).table.entries.Keys == s.table.entries.Keys + ({pid} * w.proc.infos.Keys)
  {
  }

  lemma ForkKeys(cfg: Config, s: Brain, e: ProcEvent, w: World, now: Instant)
    requires w.proc.WellRead() && e.ProcFork?
    ensures var u := if s.startup then HandleProcStartup(cfg, s, e, w, now) else HandleProc(cfg, s, e, w, now);
            u.table.entries.Keys == KnownAfter(cfg, s, Proc(e), w, now)
  {
    var counted := CountFork(cfg, s, e.parent, e.child, e.childTgid, w, now).0;
    assert counted.table == s.table;
    InsertMarkedKeys(counted, e.child, w);
  }

  lemma ProcKeys(cfg: Config, s: Brain, e: ProcEvent, w: World, now: Instant)
    requires Core(s) && w.proc.WellRead()
    ensures var u := if s.startup then HandleProcStartup(cfg, s, e, w, now) else HandleProc(cfg, s, e, w, now);
            u.table.entries.Keys == KnownAfter(cfg, s, Proc(e), w, now)
  {
    match e
    case ProcFork(_, _, _) => ForkKeys(cfg, s, e, w, now);
    case ProcExit(pid) =>
    case ProcExec(pid) =>
      InsertMarkedKeys(s, pid, w);
      ReclassifyKeys(cfg, s, pid, w, now);
    case _ => ReclassifyKeys(cfg, s, e.pid, w, now);
  }

  lemma RecheckOneKeys(cfg: Config, s: Brain, pid: Pid, w: World, now: Instant)
    requires Core(s) && w.proc.WellRead() && pid in s.table.entries
    ensures var u := Recheck(cfg, s, pid, w, now);
            && u.focus == s.focus
            && u.table.entries.Keys == if pid in s.focus.pids || pid in w.proc.infos then s.table.entries.Keys
                                       else s.table.entries.Keys - {pid}
  {
    ReclassifyKeys(cfg, s, pid, w, now);
  }

  /** The processes left once those of `todo` that cannot be read any more are gone. */
  function StillRead(s: Brain, todo: seq<Pid>, w: World): set<Pid> {
    set p | p in s.table.entries && (p in todo ==> p in s.focus.pids || p in w.proc.infos)
  }

  lemma StillReadFirst(s: Brain, next: Brain, todo: seq<Pid>, w: World)
    requires todo != [] && Distinct(todo) && next.focus == s.focus
    requires next.table.entries.Keys == if todo[0] in s.focus.pids || todo[0] in w.proc.infos then s.table.entries.Keys
                                        else s.table.entries.Keys - {todo[0]}
    ensures StillRead(next, todo[1..], w) == StillRead(s, todo, w)
  {
    assert todo == [todo[0]] + todo[1..];
  }

  /** After the first recheck the others are still to be made, on a state with all invariants. */
  lemma RecheckFirst(cfg: Config, s: Brain, todo: seq<Pid>, w: World, now: Instant)
    requires Inv(s) && w.proc.WellRead() && !s.startup && Distinct(todo) && (forall p <- todo :: p in s.table.entries) && todo != []
    ensures var next := Recheck(cfg, s, todo[0], w, now);
            Inv(next) && !next.startup && next.focus == s.focus && forall p <- todo[1..] :: p in next.table.entries
  {
    var next := Recheck(cfg, s, todo[0], w, now);
    RecheckOneKeys(cfg, s, todo[0], w, now);
    ReclassifyKeepsInv(cfg, s, todo[0], w, now);
    RemoveKeepsCore(s, todo[0]);
    forall p | p in todo[1..] ensures p in next.table.entries { assert p in todo; }
  }

  lemma {:induction false} RecheckKeys(cfg: Config, s: Brain, todo: seq<Pid>, w: World, now: Instant)
    requires Inv(s) && w.proc.WellRead() && !s.startup && Distinct(todo) && forall p <- todo :: p in s.table.entries
    ensures RecheckEach(cfg, s, todo, w, now).table.entries.Keys == StillRead(s, todo, w)
    decreases |todo|
  {
    if todo != [] {
      var pid, rest := todo[0], todo[1..];
      var next := Recheck(cfg, s, pid, w, now);
      RecheckOneKeys(cfg, s, pid, w, now);
      RecheckFirst(cfg, s, todo, w, now);
      RecheckKeys(cfg, next, rest, w, now);
      StillReadFirst(s, next, todo, w);
    }
  }

  lemma DueKeys(cfg: Config, s: Brain, w: World, now: Instant)
    requires Inv(s) && Fits(s, w)
    ensures Handle(cfg, s, RecheckTick, w, now).table.entries.Keys == KnownAfter(cfg, s, RecheckTick, w, now)
  {
    if s.startup { NoRecheckInGrace(cfg, s, w, now); }
    else { RecheckKeys(cfg, s, Enumerate(s.table.ExpiredSet(now), w.order), w, now); }
  }

  lemma ProcEventKeys(cfg: Config, s: Brain, e: ProcEvent, w: World, now: Instant)
    requires Core(s) && w.proc.WellRead()
    ensures Handle(cfg, s, Proc(e), w, now).table.entries.Keys == KnownAfter(cfg, s, Proc(e), w, now)
  {
    ProcKeys(cfg, s, e, w, now);
  }

  lemma RescanKeys(cfg: Config, s: Brain, w: World, now: Instant)
    requires Inv(s) && Fits(s, w)
    ensures Handle(cfg, s, RescanTick, w, now).table.entries.Keys == KnownAfter(cfg, s, RescanTick, w, now)
  {
    FullScanKeepsInv(cfg, s, w, now);
  }

  /** Entries of the processes read are made anew and count as classified; all others stay as they are. */
  ghost predicate ReadAnew(before: map<Pid, Entry>, after: map<Pid, Entry>, read: set<Pid>, infos: map<Pid, ProcessInfo>)
    requires read <= infos.Keys
  {
    && (forall q <- after :: q !in read ==> q in before && after[q] == before[q])
    && (forall q <- read :: q in after && after[q].info == infos[q] && after[q].classified &&
                            (after[q].applied.None? ==> after[q].recheckAt.None?))
  }

  lemma InsertMarkedEntry(s: Brain, pid: Pid, w: World)
    requires w.proc.WellRead()
    ensures var u, read := InsertMarked(s, pid, w).table.entries, {pid} * w.proc.infos.Keys;
            ReadAnew(s.table.entries, u, read, w.proc.infos) && forall q <- read :: u[q].applied.None?
  {
  }

  lemma ReclassifiedEntry(cfg: Config, s: Brain, pid: Pid, w: World, now: Instant)
    requires Core(s) && w.proc.WellRead()
    ensures ReadAnew(s.table.entries, Reclassify(cfg, s, pid, w, now).table.entries, {pid} * w.proc.infos.Keys, w.proc.infos)
  {
    if pid in w.proc.infos {
      var i := InsertEntry(s, w.proc.infos[pid]);
      InsertAgrees(s.table, w.proc.infos[pid]);
      ClassifyFrame(cfg, i, pid, w.proc.infos[pid], w, now);
      var d := Decision(cfg, i, pid, w.proc.infos[pid], w);
      if d.Some? { ApplyKeepsTable(i.table, pid, d.value, w, now); }
    }
  }

  lemma StartupEntries(cfg: Config, s: Brain, e: ProcEvent, w: World, now: Instant)
    requires s.startup && w.proc.WellRead()
    ensures var u, read := HandleProcStartup(cfg, s, e, w, now).table.entries, Read(cfg, s, e, w, now) * w.proc.infos.Keys;
            ReadAnew(s.table.entries, u, read, w.proc.infos) && forall q <- read :: u[q].applied.None?
  {
    match e
    case ProcFork(parent, child, tgid) => InsertMarkedEntry(CountFork(cfg, s, parent, child, tgid, w, now).0, child, w);
    case ProcExec(pid) => InsertMarkedEntry(s, pid, w);
    case _ =>
  }

  lemma OrdinaryEntries(cfg: Config, s: Brain, e: ProcEvent, w: World, now: Instant)
    requires Core(s) && !s.startup && w.proc.WellRead()
    ensures var u, read := HandleProc(cfg, s, e, w, now).table.entries, Read(cfg, s, e, w, now) * w.proc.infos.Keys;
            ReadAnew(s.table.entries, u, read, w.proc.infos) && (e.ProcFork? ==> forall q <- read :: u[q].applied.None?)
  {
    match e
    case ProcFork(parent, child, tgid) => InsertMarkedEntry(CountFork(cfg, s, parent, child, tgid, w, now).0, child, w);
    case ProcExit(_) =>
    case _ => ReclassifiedEntry(cfg, s, e.pid, w, now);
  }

  /**
   * What a process event does to the entries: those of the processes it makes the daemon read are
   * made anew from what is read, and all others stay as they are.  A fork applies no rule, and
   * nothing does in the grace period.
   */
  lemma EntriesStep(cfg: Config, s: Brain, e: ProcEvent, w: World, now: Instant)
    requires Core(s) && w.proc.WellRead()
    ensures var u, read := Handle(cfg, s, Proc(e), w, now).table.entries, Read(cfg, s, e, w, now) * w.proc.infos.Keys;
            && ReadAnew(s.table.entries, u, read, w.proc.infos)
            && (s.startup || e.ProcFork? ==> forall q <- read :: u[q].applied.None?)
  {
    if s.startup { StartupEntries(cfg, s, e, w, now); } else { OrdinaryEntries(cfg, s, e, w, now); }
  }

  /** The processes of `todo` that a recheck reads again. */
  function ReadAgain(s: Brain, todo: seq<Pid>, w: World): set<Pid> {
    set p | p in todo && p !in s.focus.pids && p in w.proc.infos
  }

  lemma RecheckOneEntry(cfg: Config, s: Brain, pid: Pid, w: World, now: Instant)
    requires Core(s) && w.proc.WellRead()
    ensures ReadAnew(s.table.entries, Recheck(cfg, s, pid, w, now).table.entries, ReadAgain(s, [pid], w), w.proc.infos)
  {
    ReclassifiedEntry(cfg, s, pid, w, now);
    assert ReadAgain(s, [pid], w) == if pid in s.focus.pids then {} else {pid} * w.proc.infos.Keys;
  }

  lemma ReadAnewTwice(a: map<Pid, Entry>, b: map<Pid, Entry>, c: map<Pid, Entry>, first: set<Pid>, second: set<Pid>,
                      infos: map<Pid, ProcessInfo>)
    requires first <= infos.Keys && second <= infos.Keys && first <= c.Keys
    requires ReadAnew(a, b, first, infos) && ReadAnew(b, c, second, infos)
    ensures ReadAnew(a, c, first + second, infos)
  {
  }

  lemma ReadAgainFirst(s: Brain, next: Brain, todo: seq<Pid>, w: World)
    requires todo != [] && next.focus == s.focus
    ensures ReadAgain(s, todo, w) == ReadAgain(s, [todo[0]], w) + ReadAgain(next, todo[1..], w)
  {
    assert todo == [todo[0]] + todo[1..];
  }

  lemma {:induction false} RecheckEntries(cfg: Config, s: Brain, todo: seq<Pid>, w: World, now: Instant)
    requires Inv(s) && w.proc.WellRead() && !s.startup && Distinct(todo) && forall p <- todo :: p in s.table.entries
    ensures ReadAnew(s.table.entries, RecheckEach(cfg, s, todo, w, now).table.entries, ReadAgain(s, todo, w), w.proc.infos)
    decreases |todo|
  {
    if todo != [] {
      var pid, rest := todo[0], todo[1..];
      var next := Recheck(cfg, s, pid, w, now);
      RecheckFirst(cfg, s, todo, w, now);
      RecheckOneEntry(cfg, s, pid, w, now);
      RecheckEntries(cfg, next, rest, w, now);
      RecheckKeys(cfg, next, rest, w, now);
      ReadAgainFirst(s, next, todo, w);
      assert pid in next.table.entries ==> pid in StillRead(next, rest, w);
      ReadAnewTwice(s.table.entries, next.table.entries, RecheckEach(cfg, next, rest, w, now).table.entries,
                    ReadAgain(s, [pid], w), ReadAgain(next, rest, w), w.proc.infos);
    }
  }

  /** A recheck makes the entries of the due processes anew, the foreground aside, and no others. */
  lemma RechecksReadDue(cfg: Config, s: Brain, w: World, now: Instant)
    requires Inv(s) && Fits(s, w) && !s.startup
    ensures ReadAnew(s.table.entries, Handle(cfg, s, RecheckTick, w, now).table.entries,
                     (s.table.ExpiredSet(now) - s.focus.pids) * w.proc.infos.Keys, w.proc.infos)
  {
    var todo := Enumerate(s.table.ExpiredSet(now), w.order);
    RecheckEntries(cfg, s, todo, w, now);
    assert ReadAgain(s, todo, w) == (s.table.ExpiredSet(now) - s.focus.pids) * w.proc.infos.Keys;
  }

  /** Exactly which processes are known after an event. */
  lemma KnownStep(cfg: Config, s: Brain, e: Event, w: World, now: Instant)
    requires Inv(s) && Fits(s, w)
    ensures Handle(cfg, s, e, w, now).table.entries.Keys == KnownAfter(cfg, s, e, w, now)
  {
    match e
    case Proc(event) => ProcEventKeys(cfg, s, event, w, now);
    case RescanTick => RescanKeys(cfg, s, w, now);
    case RecheckTick => DueKeys(cfg, s, w, now);
    case PressureEvent(reading) => UnmarkEachFacts(s.table, reading.swapstorm);
    case _ =>
  }

  /** Before the loop: what is there already is known, and awaits its classification. */
  lemma EnteringKnows(cfg: Config, rules: seq<Rule>, existing: World, start: Instant)
    requires Fits(Started(cfg, rules), existing)
    ensures var s := Entering(cfg, rules, Some(existing), start);
            && s.table.entries.Keys == LivePids(existing.proc.Entries()) * existing.proc.infos.Keys
            && forall p <- s.table.entries :: !s.table.entries[p].classified
    ensures Entering(cfg, rules, None, start).table.entries == map[]
  {
    EnteringIsInv(cfg, rules, None, start);
    FullScanKeepsInv(cfg, Started(cfg, rules), existing, start);
    MergeFreshAdds(Started(cfg, rules).table, FoundBy(Started(cfg, rules), existing));
  }

  // ------------------------------------------------------------------------------------------
  // Pressure, commands and the focus
  // ------------------------------------------------------------------------------------------

  /** The level of the last reading, and the mode that is shown for it. */
  lemma ModeFollowsLevel(s: Brain, r: Reading)
    requires Core(s)
    ensures var u := HandlePressure(s, r);
            && u.level == r.level
            && u.mode == match r.level {
                 case NormalPressure => "normal"
                 case LowPressure => "pressure-low"
                 case HighPressure => "pressure-high"
                 case CriticalPressure => "pressure-critical"
               }
            && (r.level == s.level ==> u == s)
            && (!r.level.CriticalPressure? ==> u.log == s.log)
  {
  }

  /** A command to move a process asks for exactly that, if there is a tier of the name, and does nothing else. */
  lemma CommandMoves(cfg: Config, s: Brain, pid: Pid, cgroup: string, w: World, now: Instant)
    ensures var u := Handle(cfg, s, Control(SetProcessCgroup(pid, cgroup)), w, now);
            && u.(log := s.log) == s
            && (forall t: Tier :: cgroup == NameOf(t) ==> u.log == s.log + [Move(pid, t, ByControl)])
            && ((forall t: Tier :: cgroup != NameOf(t)) ==> u.log == s.log)
  {
    forall t: Tier ensures TierOf(cgroup) == Some(t) <==> cgroup == NameOf(t) { TiersAreNamed(cgroup, t); }
    if TierOf(cgroup).Some? { assert cgroup == NameOf(TierOf(cgroup).value); }
    assert s.log + [] == s.log;
  }

  /** The known processes below `root` in the index that are no session roots. */
  ghost predicate Focusable(t: Table, root: Pid, p: Pid) {
    Below(t.children, root, p) && p in t.entries && t.entries[p].info.comm !in SESSION_ROOTS
  }

  lemma FocusableIsMovable(t: Table, root: Pid)
    ensures forall p: Pid :: p in Movable(t, root) <==> Focusable(t, root, p)
    ensures Movable(t, root) != {} <==> exists p: Pid :: Focusable(t, root, p)
  {
    forall p: Pid ensures p in Movable(t, root) <==> Focusable(t, root, p) {}
    if Movable(t, root) != {} { var p :| p in Movable(t, root); assert Focusable(t, root, p); }
  }

  /** The foreground that a request leaves, and whether it asks for anything. */
  ghost predicate FocusedBy(f: Focus, t: Table, hint: Pid, f': Focus, issued: Log) {
    if hint in t.entries && t.entries[hint].info.comm in SESSION_ROOTS then f' == f && issued == []
    else
      exists root: Pid :: IsAppRoot(t, hint, root) &&
        if exists p: Pid :: Focusable(t, root, p)
        then f'.root == Some(root) && forall p: Pid :: p in f'.pids <==> Focusable(t, root, p)
        else f' == f && issued == []
  }

  lemma SetForegroundIsMovable(f: Focus, t: Table, hint: Pid, order: seq<Pid>)
    requires !KnownSessionRoot(t, hint) && StopsIn(t, hint, |t.entries|)
    ensures var (f', issued) := SetForeground(f, t, hint, order);
            if Movable(t, AppRoot(t, hint)) == {} then f' == f && issued == []
            else f'.root == Some(AppRoot(t, hint)) && f'.pids == Movable(t, AppRoot(t, hint))
  {
  }

  lemma FocusedByRoot(f: Focus, t: Table, hint: Pid, f': Focus, issued: Log, root: Pid)
    requires IsAppRoot(t, hint, root) && !(hint in t.entries && t.entries[hint].info.comm in SESSION_ROOTS)
    requires if Movable(t, root) == {} then f' == f && issued == [] else f'.root == Some(root) && f'.pids == Movable(t, root)
    ensures FocusedBy(f, t, hint, f', issued)
  {
    FocusableIsMovable(t, root);
  }

  lemma SetForegroundFocuses(f: Focus, t: Table, hint: Pid, order: seq<Pid>)
    requires !KnownSessionRoot(t, hint) ==> StopsIn(t, hint, |t.entries|)
    ensures FocusedBy(f, t, hint, SetForeground(f, t, hint, order).0, SetForeground(f, t, hint, order).1)
  {
    if !KnownSessionRoot(t, hint) {
      AppRootOnChain(t, hint);
      SetForegroundIsMovable(f, t, hint, order);
      FocusedByRoot(f, t, hint, SetForeground(f, t, hint, order).0, SetForeground(f, t, hint, order).1, AppRoot(t, hint));
    }
  }

  /**
   * A request to focus a process, after the grace period: from a session root it changes nothing;
   * from any other process the foreground is what can be focused below its application root, unless
   * there is nothing.
   */
  lemma FocusRequest(cfg: Config, s: Brain, hint: Pid, w: World, now: Instant)
    requires !s.startup && CanFocus(s, hint)
    ensures var u := Handle(cfg, s, Control(SetForegroundProcess(hint)), w, now);
            && u.(focus := s.focus, log := s.log, foregroundPid := s.foregroundPid) == s && u.foregroundPid == Some(hint)
            && s.log <= u.log && FocusedBy(s.focus, s.table, hint, u.focus, u.log[|s.log|..])
  {
    SetForegroundFocuses(s.focus, s.table, hint, w.order);
    var issued := SetForeground(s.focus, s.table, hint, w.order).1;
    assert (s.log + issued)[|s.log|..] == issued;
  }

  /** Those that leave the foreground with a new focus end with nice 0 in the system tier. */
  lemma FocusDemotes(cfg: Config, s: Brain, hint: Pid, w: World, now: Instant, p: Pid)
    requires Inv(s) && Fits(s, w) && !s.startup && CanFocus(s, hint)
    requires p in s.focus.pids && p !in Handle(cfg, s, Control(SetForegroundProcess(hint)), w, now).focus.pids
    ensures var u := Handle(cfg, s, Control(SetForegroundProcess(hint)), w, now);
            LastNice(u.log, p) == Some(0) && LastPlace(u.log, p) == Some(System)
  {
    LeavingIsDemoted(s.focus, s.table, hint, w.order, s.log, p);
  }

  /** An exit in the foreground ends with nice 0; of any other process nothing is asked. */
  lemma ExitResets(cfg: Config, s: Brain, pid: Pid, w: World, now: Instant)
    ensures var u := Handle(cfg, s, Proc(ProcExit(pid)), w, now);
            && u.focus.pids == s.focus.pids - {pid} && pid !in u.table.entries && pid !in u.managed
            && (pid in s.focus.pids ==> LastNice(u.log, pid) == Some(0))
            && (pid !in s.focus.pids ==> u.log == s.log + if pid in s.table.entries then [Forget({pid})] else [])
  {
    ExitIsReset(s.focus, pid, s.log);
    if pid in s.table.entries { ForgetReads(s.log + OnExit(s.focus, pid).1, {pid}, pid); }
    assert s.log + [] == s.log;
    assert (s.log + OnExit(s.focus, pid).1) + [] == s.log + OnExit(s.focus, pid).1;
  }
}
