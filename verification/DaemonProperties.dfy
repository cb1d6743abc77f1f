/** What holds in every state the daemon can reach. */
module DaemonProperties {
  import opened Wrappers
  import opened Types
  import opened Effects
  import opened ProcessTables
  import opened Descendants
  import opened Foreground
  import opened ForkBombs
  import opened Rules
  import opened DaemonSpec
  import opened DaemonInvariants
  import Netlink

  /** `s` is the state after some run of the loop that was entered in the ordinary way. */
  ghost predicate Reachable(cfg: Config, rules: seq<Rule>, existing: Option<World>, start: Instant, inputs: seq<Input>, s: Brain) {
    && (existing.Some? ==> Fits(Started(cfg, rules), existing.value))
    && Possible(cfg, Entering(cfg, rules, existing, start), inputs)
    && s == Run(cfg, Entering(cfg, rules, existing, start), inputs)
  }

  lemma ReachableIsInv(cfg: Config, rules: seq<Rule>, existing: Option<World>, start: Instant, inputs: seq<Input>, s: Brain)
    requires Reachable(cfg, rules, existing, start, inputs, s)
    ensures Inv(s)
  {
    EnteringIsInv(cfg, rules, existing, start);
    EveryRunKeepsInv(cfg, Entering(cfg, rules, existing, start), inputs);
  }

  // ------------------------------------------------------------------------------------------
  // The two maps
  // ------------------------------------------------------------------------------------------

  /** Managed pids are known, and an applied rule has a managed record that tells it truly. */
  lemma TwoMapsAgree(cfg: Config, rules: seq<Rule>, existing: Option<World>, start: Instant, inputs: seq<Input>, s: Brain)
    requires Reachable(cfg, rules, existing, start, inputs, s)
    ensures s.managed.Keys <= s.table.entries.Keys
    ensures forall p <- s.table.entries :: s.table.entries[p].applied.Some? ==>
              && p in s.managed
              && s.managed[p].pid == p && s.managed[p].comm == s.table.entries[p].info.comm
              && s.managed[p].ruleName == s.table.entries[p].applied.value.ruleName
              && s.managed[p].cgroup == match s.table.entries[p].applied.value.cgroup { case Some(c) => c case None => "system" }
  {
    ReachableIsInv(cfg, rules, existing, start, inputs, s);
  }

  // ------------------------------------------------------------------------------------------
  // The boost
  // ------------------------------------------------------------------------------------------

  /**
   * No rule overrides a boost: the last nice value issued for a foreground pid, by anyone, is the
   * boost; the tracker's own last write is the boost for foreground pids and no others; and of the
   * moves of a foreground pid by its own rule and by the tracker, the last is to the interactive tier.
   */
  lemma BoostIsNeverOverridden(cfg: Config, rules: seq<Rule>, existing: Option<World>, start: Instant, inputs: seq<Input>,
                               s: Brain, p: Pid)
    requires Reachable(cfg, rules, existing, start, inputs, s)
    ensures p in s.focus.pids ==> LastNice(s.log, p) == Some(-5)
    ensures p in s.focus.pids <==> LastFocusNice(s.log, p) == Some(-5)
    ensures p in s.focus.pids ==> LastPlace(s.log, p) == Some(Interactive)
  {
    ReachableIsInv(cfg, rules, existing, start, inputs, s);
  }

  /** In every reachable state, focusing a known ordinary process focuses its application tree. */
  lemma FocusStep(cfg: Config, rules: seq<Rule>, existing: Option<World>, start: Instant, inputs: seq<Input>,
                  s: Brain, hint: Pid, w: World)
    requires Reachable(cfg, rules, existing, start, inputs, s) && !s.startup
    requires hint in s.table.entries && !KnownSessionRoot(s.table, hint) && CanFocus(s, hint)
    ensures var f := HandleForeground(s, hint, w).focus;
            && f.root == Some(AppRoot(s.table, hint))
            && f.pids == Movable(s.table, AppRoot(s.table, hint))
            && (hint in f.pids <==> WalkedLinksLive(s.table, hint, |s.table.entries|))
  {
    ReachableIsInv(cfg, rules, existing, start, inputs, s);
    HintIsForeground(s.focus, s.table, hint, w.order);
  }

  // ------------------------------------------------------------------------------------------
  // The grace period
  // ------------------------------------------------------------------------------------------

  /** During the grace period nothing is managed, focused, applied or due, and no rule has acted. */
  lemma GraceIsQuiet(cfg: Config, rules: seq<Rule>, existing: Option<World>, start: Instant, inputs: seq<Input>, s: Brain)
    requires Reachable(cfg, rules, existing, start, inputs, s) && s.startup
    ensures s.managed == map[] && s.focus.pids == {}
    ensures forall p <- s.table.entries :: s.table.entries[p].applied.None?
    ensures forall now: Instant :: s.table.ExpiredSet(now) == {}
    ensures forall e <- s.log :: !ByARule(e)
  {
    ReachableIsInv(cfg, rules, existing, start, inputs, s);
  }

  lemma {:induction false} LoopsKeepPhase(cfg: Config, s: Brain, todo: seq<Pid>, w: World, now: Instant)
    ensures ClassifyEach(cfg, s, todo, w, now).startup == s.startup
    ensures RecheckEach(cfg, s, todo, w, now).startup == s.startup
    decreases |todo|
  {
    if todo != [] {
      var next := if todo[0] in s.table.entries
                  then ClassifyAndApply(cfg, s, todo[0], s.table.entries[todo[0]].info, w, now) else s;
      LoopsKeepPhase(cfg, next, todo[1..], w, now);
      LoopsKeepPhase(cfg, Recheck(cfg, s, todo[0], w, now), todo[1..], w, now);
    }
  }

  lemma ScanKeepsPhase(cfg: Config, s: Brain, w: World, now: Instant)
    ensures FullScan(cfg, s, w, now).startup == s.startup
  {
    LoopsKeepPhase(cfg, Merged(s, w), Enumerate(Merged(s, w).table.UnclassifiedSet(), w.order), w, now);
  }

  lemma HandleKeepsPhase(cfg: Config, s: Brain, e: Event, w: World, now: Instant)
    ensures Handle(cfg, s, e, w, now).startup == s.startup
  {
    match e
    case RescanTick => ScanKeepsPhase(cfg, s, w, now);
    case RecheckTick => LoopsKeepPhase(cfg, s, Enumerate(s.table.ExpiredSet(now), w.order), w, now);
    case _ =>
  }

  /** The phase after a step: still the grace period exactly when it was and the deadline lies ahead. */
  lemma PhaseOfStep(cfg: Config, s: Brain, i: Input)
    ensures Step(cfg, s, i).startup <==> s.startup && i.now < cfg.graceEnd
  {
    ScanKeepsPhase(cfg, s.(startup := false), i.scanWorld, i.now);
    HandleKeepsPhase(cfg, EndGrace(cfg, s, i.scanWorld, i.now), i.event, i.world, i.now);
  }

  lemma LastStepPhase(cfg: Config, s: Brain, inputs: seq<Input>)
    requires inputs != []
    ensures Run(cfg, s, inputs).startup ==> Run(cfg, s, inputs[..|inputs| - 1]).startup
  {
    PhaseOfStep(cfg, Run(cfg, s, inputs[..|inputs| - 1]), inputs[|inputs| - 1]);
  }

  /** Once over, the grace period does not come back. */
  lemma {:induction false} GraceEndsOnce(cfg: Config, s: Brain, inputs: seq<Input>, more: seq<Input>)
    ensures Run(cfg, s, inputs + more).startup ==> Run(cfg, s, inputs).startup
    decreases |more|
  {
    var all := inputs + more;
    if more == [] {
      assert all == inputs;
    } else {
      assert all[..|all| - 1] == inputs + more[..|more| - 1];
      GraceEndsOnce(cfg, s, inputs, more[..|more| - 1]);
      LastStepPhase(cfg, s, all);
    }
  }

  // ------------------------------------------------------------------------------------------
  // Pressure
  // ------------------------------------------------------------------------------------------

  /**
   * A recovery takes place exactly on the direct step from critical to normal pressure: then, and
   * then only, the table changes, provided that a known member of the swapstorm tier has something
   * to be reset.
   */
  lemma RecoveryIsFromCritical(cfg: Config, rules: seq<Rule>, existing: Option<World>, start: Instant, inputs: seq<Input>,
                               s: Brain, r: Reading)
    requires Reachable(cfg, rules, existing, start, inputs, s)
    ensures HandlePressure(s, r).table != s.table <==>
            && s.level.CriticalPressure? && r.level.NormalPressure?
            && exists p <- r.swapstorm :: p in s.table.entries && (s.table.entries[p].classified || s.table.entries[p].applied.Some?)
  {
    ReachableIsInv(cfg, rules, existing, start, inputs, s);
    ReadingChangesTableIff(s, r);
  }

  lemma ReadingChangesTableIff(s: Brain, r: Reading)
    requires Agrees(s.table) && s.mode == ModeOf(s.level)
    ensures HandlePressure(s, r).table != s.table <==>
            && s.level.CriticalPressure? && r.level.NormalPressure?
            && exists p <- r.swapstorm :: p in s.table.entries && (s.table.entries[p].classified || s.table.entries[p].applied.Some?)
  {
    UnmarkEachChangesIff(s.table, r.swapstorm);
  }

  /** Unmarking changes a table exactly when some known pid has something to be reset. */
  lemma UnmarkEachChangesIff(t: Table, pids: seq<Pid>)
    requires Agrees(t)
    ensures UnmarkEach(t, pids) != t <==>
            exists p <- pids :: p in t.entries && (t.entries[p].classified || t.entries[p].applied.Some?)
  {
    UnmarkEachFacts(t, pids);
    UnmarkEachKeepsRest(t, pids);
    var u := UnmarkEach(t, pids);
    if forall p <- pids :: p in t.entries ==> !t.entries[p].classified && t.entries[p].applied.None? {
      assert u.entries == t.entries;
    } else {
      var p :| p in pids && p in t.entries && (t.entries[p].classified || t.entries[p].applied.Some?);
      assert u.entries[p] != t.entries[p];
    }
  }

  lemma {:induction false} UnmarkEachKeepsRest(t: Table, pids: seq<Pid>)
    ensures UnmarkEach(t, pids).children == t.children && UnmarkEach(t, pids).hist == t.hist
    decreases |pids|
  {
    if pids != [] { UnmarkEachKeepsRest(t.MarkUnclassified(pids[0]), pids[1..]); }
  }

  lemma {:induction false} SwapstormMovesHold(pids: seq<Pid>, p: Pid)
    ensures Move(p, Swapstorm, ByPressure) in SwapstormMoves(pids) <==> p in pids
  {
    if pids != [] { SwapstormMovesHold(pids[1..], p); }
  }

  /** Reaching critical pressure moves exactly the members of the idle and background tiers. */
  lemma CriticalMovesIdleAndBackground(s: Brain, r: Reading, p: Pid)
    requires r.level.CriticalPressure? && !s.level.CriticalPressure?
    ensures var u := HandlePressure(s, r);
            && u.table == s.table && s.log <= u.log
            && (Move(p, Swapstorm, ByPressure) in u.log[|s.log|..] <==> p in r.idle || p in r.background)
  {
    SwapstormMovesHold(r.idle + r.background, p);
    assert (s.log + SwapstormMoves(r.idle + r.background))[|s.log|..] == SwapstormMoves(r.idle + r.background);
  }

  /** A recovery takes back classification and rule of the members of the swapstorm tier, of nobody else. */
  lemma RecoveryResetsSwapstorm(s: Brain, r: Reading, p: Pid)
    requires Core(s) && r.level.NormalPressure? && s.level.CriticalPressure? && p in s.table.entries
    ensures var u := HandlePressure(s, r);
            && p in u.table.entries
            && u.table.entries[p] == if p in r.swapstorm then s.table.entries[p].(classified := false, applied := None)
                                     else s.table.entries[p]
  {
    UnmarkEachFacts(s.table, r.swapstorm);
  }

  // ------------------------------------------------------------------------------------------
  // The detector inside the daemon
  // ------------------------------------------------------------------------------------------

  /** The forks of new processes and the collections among the inputs. */
  function ForkEvents(inputs: seq<Input>): seq<ForkEvent> {
    if inputs == [] then []
    else
      var i := inputs[|inputs| - 1];
      ForkEvents(inputs[..|inputs| - 1]) +
      match i.event
      case Proc(ProcFork(parent, child, tgid)) => if child == tgid then [Fork(parent, i.now)] else []
      case GcTick => [Collect(i.now)]
      case _ => []
  }

  lemma {:induction false} LoopsKeepDetector(cfg: Config, s: Brain, todo: seq<Pid>, w: World, now: Instant)
    ensures ClassifyEach(cfg, s, todo, w, now).forkbomb == s.forkbomb
    ensures RecheckEach(cfg, s, todo, w, now).forkbomb == s.forkbomb
    decreases |todo|
  {
    if todo != [] {
      var next := if todo[0] in s.table.entries
                  then ClassifyAndApply(cfg, s, todo[0], s.table.entries[todo[0]].info, w, now) else s;
      LoopsKeepDetector(cfg, next, todo[1..], w, now);
      LoopsKeepDetector(cfg, Recheck(cfg, s, todo[0], w, now), todo[1..], w, now);
    }
  }

  lemma ScanKeepsDetector(cfg: Config, s: Brain, w: World, now: Instant)
    ensures FullScan(cfg, s, w, now).forkbomb == s.forkbomb
  {
    LoopsKeepDetector(cfg, Merged(s, w), Enumerate(Merged(s, w).table.UnclassifiedSet(), w.order), w, now);
  }

  /** What an event does to the detector. */
  function DetectorAfter(d: Detector, e: Event, now: Instant): Detector {
    match e
    case Proc(ProcFork(parent, child, tgid)) => if child == tgid then d.RecordFork(parent, now).0 else d
    case GcTick => d.Gc(now)
    case _ => d
  }

  lemma ProcOfDetector(cfg: Config, s: Brain, e: ProcEvent, w: World, now: Instant)
    ensures HandleProcStartup(cfg, s, e, w, now).forkbomb == DetectorAfter(s.forkbomb, Proc(e), now)
    ensures HandleProc(cfg, s, e, w, now).forkbomb == DetectorAfter(s.forkbomb, Proc(e), now)
  {
  }

  lemma HandleOfDetector(cfg: Config, s: Brain, e: Event, w: World, now: Instant)
    ensures Handle(cfg, s, e, w, now).forkbomb == DetectorAfter(s.forkbomb, e, now)
  {
    match e
    case Proc(event) => ProcOfDetector(cfg, s, event, w, now);
    case RescanTick => ScanKeepsDetector(cfg, s, w, now);
    case RecheckTick => LoopsKeepDetector(cfg, s, Enumerate(s.table.ExpiredSet(now), w.order), w, now);
    case _ =>
  }

  lemma StepOfDetector(cfg: Config, s: Brain, i: Input)
    ensures Step(cfg, s, i).forkbomb == DetectorAfter(s.forkbomb, i.event, i.now)
  {
    ScanKeepsDetector(cfg, s.(startup := false), i.scanWorld, i.now);
    HandleOfDetector(cfg, EndGrace(cfg, s, i.scanWorld, i.now), i.event, i.world, i.now);
  }

  /** The detector of the daemon is the detector run on the forks and collections among the inputs. */
  lemma {:induction false} DaemonRunsDetector(cfg: Config, s: Brain, inputs: seq<Input>)
    requires s.forkbomb == Start(cfg.threshold)
    ensures Run(cfg, s, inputs).forkbomb == Detect(cfg.threshold, ForkEvents(inputs))
  {
    if inputs != [] {
      var before, i := inputs[..|inputs| - 1], inputs[|inputs| - 1];
      DaemonRunsDetector(cfg, s, before);
      StepOfDetector(cfg, Run(cfg, s, before), i);
      var events := ForkEvents(before);
      assert (events + [Collect(i.now)])[..|events|] == events;
      if i.event.Proc? && i.event.event.ProcFork? { assert (events + [Fork(i.event.event.parent, i.now)])[..|events|] == events; }
      assert events + [] == events;
    }
  }

  /** The fork of a new process makes the daemon throttle exactly when the history makes it a bomb. */
  lemma DaemonThrottlesIffBomb(cfg: Config, rules: seq<Rule>, existing: Option<World>, start: Instant, inputs: seq<Input>,
                               s: Brain, parent: Pid, child: Pid, w: World, now: Instant)
    requires Reachable(cfg, rules, existing, start, inputs, s)
    requires Monotone(ForkEvents(inputs) + [Fork(parent, now)])
    ensures CountFork(cfg, s, parent, child, child, w, now).1 <==>
            && !Throttled(cfg.threshold, ForkEvents(inputs), parent)
            && IsBomb(cfg.threshold, ForkEvents(inputs), parent, now)
  {
    if existing.Some? { ScanKeepsDetector(cfg, Started(cfg, rules), existing.value, start); }
    DaemonRunsDetector(cfg, Entering(cfg, rules, existing, start), inputs);
    var events := ForkEvents(inputs);
    var all := events + [Fork(parent, now)];
    assert all[..|events|] == events;
    AnswerIsHistory(cfg.threshold, all, |events|);
  }

  /** A detected bomb moves exactly the processes within the lineage depth below the parent. */
  lemma ThrottleReachesLineage(cfg: Config, s: Brain, parent: Pid, child: Pid, w: World, now: Instant, p: Pid)
    requires Core(s) && Fits(s, w) && CountFork(cfg, s, parent, child, child, w, now).1
    ensures var u := CountFork(cfg, s, parent, child, child, w, now).0;
            && s.log <= u.log
            && (Move(p, Swapstorm, ByThrottle) in u.log[|s.log|..] <==> p in Within(s.table.children, parent, cfg.lineageDepth))
  {
    AgreementGivesForest(s.table);
    forall c | c in AllKids(s.table.children) ensures c in w.childOrder {
      var q :| q in s.table.children && c in s.table.children[q];
      assert c in Kids(s.table.children, q);
    }
    var pids := CollectSubtree(s.table.children, parent, cfg.lineageDepth, w.childOrder);
    SubtreeIsWithin(s.table.children, parent, cfg.lineageDepth, w.childOrder, p);
    ThrottleMovesOnly(pids);
    assert (s.log + ThrottleMoves(pids))[|s.log|..] == ThrottleMoves(pids);
  }

  // ------------------------------------------------------------------------------------------
  // From the wire
  // ------------------------------------------------------------------------------------------

  /** The daemon takes up exactly the events that a datagram was made of, in their order. */
  lemma DatagramIsHeard(sent: seq<Netlink.DecodedEvent>, us: seq<Netlink.Unread>)
    requires |us| == |sent| && forall i :: 0 <= i < |us| ==> Netlink.Fitting(sent[i], us[i])
    ensures var heard := HeardAll(Netlink.Walk(Netlink.EncodeAll(Netlink.FramesOf(sent, us))));
            && |heard| == |sent|
            && forall i :: 0 <= i < |sent| ==>
                 match sent[i]
                 case Fork(parent, child, tgid) =>
                   heard[i].ProcFork? && heard[i].parent == parent && heard[i].child == child && heard[i].childTgid == tgid
                 case Exec(pid) => heard[i].ProcExec? && heard[i].pid == pid
                 case Exit(pid, _) => heard[i].ProcExit? && heard[i].pid == pid
                 case Comm(pid, _) => heard[i].ProcComm? && heard[i].pid == pid
                 case Uid(pid) => heard[i].ProcUid? && heard[i].pid == pid
  {
    Netlink.DatagramRoundTrip(sent, us);
  }
}
