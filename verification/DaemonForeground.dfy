/** When the foreground set lies within the table, and how it comes to hold processes that do not. */
module DaemonForeground {
  import opened Wrappers
  import opened Types
  import opened Effects
  import opened ProcessTables
  import opened Foreground
  import opened Rules
  import opened Scanning
  import opened DaemonSpec
  import opened DaemonInvariants
  import opened DaemonProperties
  import opened DaemonClassification

  /** The foreground processes that the table has lost. */
  function Lost(s: Brain): set<Pid> {
    s.focus.pids - s.table.entries.Keys
  }

  /** The focus request replaces the foreground. */
  ghost predicate Refocuses(s: Brain, pid: Pid) {
    !s.startup && CanFocus(s, pid) && !KnownSessionRoot(s.table, pid) && Movable(s.table, AppRoot(s.table, pid)) != {}
  }

  /** The processes that a process event makes known, if they can be read. */
  function Announced(cfg: Config, s: Brain, e: ProcEvent, w: World, now: Instant): set<Pid> {
    match e
    case ProcFork(parent, child, tgid) => if CountFork(cfg, s, parent, child, tgid, w, now).1 then {} else {child}
    case ProcExit(_) => {}
    case _ => {e.pid}
  }

  /** What an event makes of the foreground processes `lost` so far. */
  ghost function LostAfter(cfg: Config, s: Brain, lost: set<Pid>, e: Event, w: World, now: Instant): set<Pid> {
    match e
    case RescanTick => (s.focus.pids - LivePids(w.proc.Entries())) + (lost - w.proc.infos.Keys)
    case Proc(ProcExit(pid)) => lost - {pid}
    case Proc(event) => lost - (Announced(cfg, s, event, w, now) * w.proc.infos.Keys)
    case Control(SetForegroundProcess(pid)) => if Refocuses(s, pid) then {} else lost
    case _ => lost
  }

  lemma LostNothing(s: Brain)
    ensures Lost(s) == {} <==> s.focus.pids <= s.table.entries.Keys
  {
    if Lost(s) == {} {
      forall p | p in s.focus.pids ensures p in s.table.entries { assert p !in Lost(s); }
    }
  }

  lemma LostAfterNothing(cfg: Config, s: Brain, e: Event, w: World, now: Instant)
    ensures LostAfter(cfg, s, {}, e, w, now) == {} <==> (e.RescanTick? ==> s.focus.pids <= LivePids(w.proc.Entries()))
  {
    if e.RescanTick? {
      var live := LivePids(w.proc.Entries());
      assert LostAfter(cfg, s, {}, e, w, now) == s.focus.pids - live;
      forall p | p in s.focus.pids && s.focus.pids - live == {} ensures p in live { assert p !in s.focus.pids - live; }
    }
  }

  lemma ReclassifyLost(cfg: Config, s: Brain, pid: Pid, w: World, now: Instant)
    requires Core(s) && w.proc.WellRead()
    ensures var u := Reclassify(cfg, s, pid, w, now);
            u.focus == s.focus && u.table.entries.Keys == s.table.entries.Keys + ({pid} * w.proc.infos.Keys)
  {
    if pid in w.proc.infos {
      InsertAgrees(s.table, w.proc.infos[pid]);
      ClassifyFrame(cfg, InsertEntry(s, w.proc.infos[pid]), pid, w.proc.infos[pid], w, now);
    }
  }

  lemma ForkLost(cfg: Config, s: Brain, e: ProcEvent, w: World, now: Instant)
    requires w.proc.WellRead() && e.ProcFork?
    ensures Lost(HandleProc(cfg, s, e, w, now)) == LostAfter(cfg, s, Lost(s), Proc(e), w, now)
  {
    var (s', bomb) := CountFork(cfg, s, e.parent, e.child, e.childTgid, w, now);
    assert s'.table == s.table && s'.focus == s.focus;
  }

  lemma ExitLost(s: Brain, pid: Pid)
    ensures Lost(HandleExit(s, pid)) == Lost(s) - {pid}
  {
  }

  lemma ProcLost(cfg: Config, s: Brain, e: ProcEvent, w: World, now: Instant)
    requires Core(s) && w.proc.WellRead() && !s.startup
    ensures Lost(HandleProc(cfg, s, e, w, now)) == LostAfter(cfg, s, Lost(s), Proc(e), w, now)
  {
    match e
    case ProcExit(pid) => ExitLost(s, pid);
    case ProcFork(_, _, _) => ForkLost(cfg, s, e, w, now);
    case _ => ReclassifyLost(cfg, s, e.pid, w, now);
  }

  lemma {:induction false} RecheckEachLost(cfg: Config, s: Brain, todo: seq<Pid>, w: World, now: Instant)
    requires Inv(s) && w.proc.WellRead() && !s.startup && forall p <- todo :: p !in Lost(s)
    ensures Lost(RecheckEach(cfg, s, todo, w, now)) == Lost(s)
    decreases |todo|
  {
    if todo != [] {
      var pid := todo[0];
      var next := Recheck(cfg, s, pid, w, now);
      ReclassifyLost(cfg, s, pid, w, now);
      ReclassifyKeepsInv(cfg, s, pid, w, now);
      RemoveKeepsCore(s, pid);
      assert Lost(next) == Lost(s);
      RecheckEachLost(cfg, next, todo[1..], w, now);
    }
  }

  lemma ScanLost(cfg: Config, s: Brain, w: World, now: Instant)
    requires Core(s) && Fits(s, w)
    ensures Lost(FullScan(cfg, s, w, now)) == LostAfter(cfg, s, Lost(s), RescanTick, w, now)
  {
    FullScanKeepsInv(cfg, s, w, now);
  }

  lemma PressureLost(s: Brain, r: Reading)
    requires Core(s)
    ensures Lost(HandlePressure(s, r)) == Lost(s)
  {
    UnmarkEachFacts(s.table, r.swapstorm);
  }

  lemma ControlLost(s: Brain, c: ControlCommand, w: World)
    requires !s.startup && CanHandle(s, Control(c))
    ensures Lost(HandleControl(s, c, w)) == if c.SetForegroundProcess? && Refocuses(s, c.pid) then {} else Lost(s)
  {
  }

  /** Exactly which foreground processes are lost after an event. */
  lemma LostStep(cfg: Config, s: Brain, e: Event, w: World, now: Instant)
    requires Inv(s) && Fits(s, w) && CanHandle(s, e)
    ensures Lost(Handle(cfg, s, e, w, now)) == LostAfter(cfg, s, Lost(s), e, w, now)
  {
    if s.startup {
      HandleKeepsInv(cfg, s, e, w, now);
      HandleKeepsPhase(cfg, s, e, w, now);
      assert s.focus.pids == Handle(cfg, s, e, w, now).focus.pids == {};
    } else {
      match e
      case RescanTick => ScanLost(cfg, s, w, now);
      case Proc(event) => ProcLost(cfg, s, event, w, now);
      case RecheckTick => RecheckEachLost(cfg, s, Enumerate(s.table.ExpiredSet(now), w.order), w, now);
      case PressureEvent(reading) => PressureLost(s, reading);
      case Control(command) => ControlLost(s, command, w);
      case _ =>
    }
  }

  /**
   * While the foreground lies within the table, an event takes it out exactly if it is a scan that
   * misses a foreground process.
   */
  lemma ForegroundOutlivesEntryIffMissed(cfg: Config, s: Brain, e: Event, w: World, now: Instant)
    requires Inv(s) && Fits(s, w) && CanHandle(s, e) && s.focus.pids <= s.table.entries.Keys
    ensures var u := Handle(cfg, s, e, w, now);
            u.focus.pids <= u.table.entries.Keys <==> (e.RescanTick? ==> s.focus.pids <= LivePids(w.proc.Entries()))
  {
    var u := Handle(cfg, s, e, w, now);
    LostNothing(s);
    LostNothing(u);
    LostStep(cfg, s, e, w, now);
    LostAfterNothing(cfg, s, e, w, now);
  }

  // ------------------------------------------------------------------------------------------
  // Over runs
  // ------------------------------------------------------------------------------------------

  /** The foreground processes lost over a run that began with none. */
  ghost function LostOver(cfg: Config, s: Brain, inputs: seq<Input>): set<Pid> {
    if inputs == [] then {}
    else
      var front, i := inputs[..|inputs| - 1], inputs[|inputs| - 1];
      var ready := EndGrace(cfg, Run(cfg, s, front), i.scanWorld, i.now);
      LostAfter(cfg, ready, LostOver(cfg, s, front), i.event, i.world, i.now)
  }

  lemma EndGraceLosesNothing(cfg: Config, s: Brain, w: World, now: Instant)
    requires Inv(s) && Fits(s, w)
    ensures Lost(EndGrace(cfg, s, w, now)) == Lost(s)
  {
    if s.startup && now >= cfg.graceEnd { FullScanKeepsInv(cfg, s.(startup := false), w, now); }
  }

  lemma {:induction false} RunLoses(cfg: Config, s: Brain, inputs: seq<Input>)
    requires Inv(s) && Possible(cfg, s, inputs) && Lost(s) == {}
    ensures Lost(Run(cfg, s, inputs)) == LostOver(cfg, s, inputs)
  {
    if inputs != [] {
      var front, i := inputs[..|inputs| - 1], inputs[|inputs| - 1];
      var before := Run(cfg, s, front);
      var ready := EndGrace(cfg, before, i.scanWorld, i.now);
      EveryRunKeepsInv(cfg, s, front);
      EndGraceKeepsInv(cfg, before, i.scanWorld, i.now);
      RunLoses(cfg, s, front);
      EndGraceLosesNothing(cfg, before, i.scanWorld, i.now);
      LostStep(cfg, ready, i.event, i.world, i.now);
    }
  }

  /**
   * In every reachable state, the foreground processes missing from the table are those that scans
   * missed, less those that exited, were read again or left with a change of the focus since.
   */
  lemma ForegroundIsKnownExcept(cfg: Config, rules: seq<Rule>, existing: Option<World>, start: Instant, inputs: seq<Input>,
                                s: Brain)
    requires Reachable(cfg, rules, existing, start, inputs, s)
    ensures s.focus.pids - s.table.entries.Keys == LostOver(cfg, Entering(cfg, rules, existing, start), inputs)
  {
    var entering := Entering(cfg, rules, existing, start);
    EnteringIsInv(cfg, rules, existing, start);
    NothingFocused(entering);
    RunLoses(cfg, entering, inputs);
  }

  lemma NothingFocused(s: Brain)
    requires Inv(s) && s.startup
    ensures Lost(s) == {}
  {
  }

  /** No scan since the foreground was last replaced has missed a foreground process. */
  ghost predicate SeenSinceFocused(cfg: Config, s: Brain, inputs: seq<Input>) {
    inputs == [] ||
    var front, i := inputs[..|inputs| - 1], inputs[|inputs| - 1];
    var ready := EndGrace(cfg, Run(cfg, s, front), i.scanWorld, i.now);
    || (i.event.Control? && i.event.command.SetForegroundProcess? && Refocuses(ready, i.event.command.pid))
    || (SeenSinceFocused(cfg, s, front) && (i.event.RescanTick? ==> ready.focus.pids <= LivePids(i.world.proc.Entries())))
  }

  lemma {:induction false} SeenLosesNothing(cfg: Config, s: Brain, inputs: seq<Input>)
    requires SeenSinceFocused(cfg, s, inputs)
    ensures LostOver(cfg, s, inputs) == {}
  {
    if inputs != [] {
      var front, i := inputs[..|inputs| - 1], inputs[|inputs| - 1];
      var ready := EndGrace(cfg, Run(cfg, s, front), i.scanWorld, i.now);
      if !(i.event.Control? && i.event.command.SetForegroundProcess? && Refocuses(ready, i.event.command.pid)) {
        SeenLosesNothing(cfg, s, front);
        LostAfterNothing(cfg, ready, i.event, i.world, i.now);
      }
    }
  }

  /** The foreground lies within the table as long as no scan since it was set has missed any of it. */
  lemma ForegroundIsKnown(cfg: Config, rules: seq<Rule>, existing: Option<World>, start: Instant, inputs: seq<Input>, s: Brain)
    requires Reachable(cfg, rules, existing, start, inputs, s)
    requires SeenSinceFocused(cfg, Entering(cfg, rules, existing, start), inputs)
    ensures s.focus.pids <= s.table.entries.Keys
  {
    ForegroundIsKnownExcept(cfg, rules, existing, start, inputs, s);
    SeenLosesNothing(cfg, Entering(cfg, rules, existing, start), inputs);
    LostNothing(s);
  }

  // ------------------------------------------------------------------------------------------
  // Rules that move the foreground
  // ------------------------------------------------------------------------------------------

  lemma {:induction false} ChildMovesOf(children: seq<Pid>, known: set<Pid>, a: Action, q: Pid)
    ensures (exists e <- ChildMoves(children, known, a) :: e.Move? && e.pid == q) <==>
            q in children && q in known && a.cgroup.Some? && TierOf(a.cgroup.value).Some?
  {
    if children != [] {
      ChildMovesOf(children[1..], known, a, q);
      var first := if children[0] in known then CgroupMove(children[0], a, ByParentRule) else [];
      InEither(first, ChildMoves(children[1..], known, a), q);
      assert children == [children[0]] + children[1..];
      if q == children[0] && q in known && a.cgroup.Some? && TierOf(a.cgroup.value).Some? {
        assert first == [Move(q, TierOf(a.cgroup.value).value, ByParentRule)];
        assert first[0] in first;
      }
    }
  }

  /** Some request moves `q`. */
  ghost predicate MovesPid(log: Log, q: Pid) {
    exists e <- log :: e.Move? && e.pid == q
  }

  lemma InEither(a: Log, b: Log, q: Pid)
    ensures MovesPid(a + b, q) <==> MovesPid(a, q) || MovesPid(b, q)
  {
    if MovesPid(a, q) { var e :| e in a && e.Move? && e.pid == q; assert e in a + b; }
    if MovesPid(b, q) { var e :| e in b && e.Move? && e.pid == q; assert e in a + b; }
  }

  /**
   * The requests of a rule move a process other than its own exactly if the rule takes the children
   * along, names a known tier, and the process is a known child in the index.
   */
  lemma RuleMovesOther(t: Table, pid: Pid, a: Action, w: World, q: Pid)
    requires q != pid && forall p: Pid :: p in t.entries ==> p in w.childOrder
    ensures MovesPid(Issued(t, pid, a, w), q) <==>
            a.applyToChildren && a.cgroup.Some? && TierOf(a.cgroup.value).Some? && q in Kids(t.children, pid) && q in t.entries
  {
    var own, moves := CgroupRead(pid, a, w) + Requests(pid, a), MovesOfChildren(t, pid, a, w);
    IssuedIsShaped(t, pid, a, w);
    InEither(own, moves, q);
    OwnMovesNoOther(t, pid, a, w, q);
    ChildMovesOf(Enumerate(Kids(t.children, pid), w.childOrder), t.entries.Keys, a, q);
  }

  lemma OwnMovesNoOther(t: Table, pid: Pid, a: Action, w: World, q: Pid)
    requires q != pid
    ensures !MovesPid(CgroupRead(pid, a, w) + Requests(pid, a), q)
  {
    RequestsFacts(pid, a);
    InEither(CgroupRead(pid, a, w), Requests(pid, a), q);
  }

  /** When the classification of some process moves a process of the foreground. */
  lemma VerdictMovesForeground(cfg: Config, s: Brain, pid: Pid, w: World, q: Pid)
    requires Fits(s, w) && pid in s.table.entries && q in s.focus.pids
    ensures var v := Verdict(cfg, s, pid, w);
            MovesPid(RequestsFor(s.table, pid, v, w), q) <==>
            && v.Some? && v.value.applyToChildren && v.value.cgroup.Some? && TierOf(v.value.cgroup.value).Some?
            && q in Kids(s.table.children, pid) && q in s.table.entries
  {
    var v := Verdict(cfg, s, pid, w);
    if v.Some? { RuleMovesOther(s.table, pid, v.value, w, q); }
  }
}
