/** What the shutdown undoes, and when that takes a process back to where it was. */
module DaemonUndo {
  import opened Wrappers
  import opened Types
  import opened Effects
  import opened ProcessTables
  import opened Foreground
  import opened ForkBombs
  import opened Rules
  import opened RuleLoading
  import opened Scanning
  import opened DaemonSpec
  import opened DaemonInvariants
  import opened DaemonProperties

  // ------------------------------------------------------------------------------------------
  // What the shutdown restores
  // ------------------------------------------------------------------------------------------

  lemma {:induction false} RestoresHold(moved: seq<(Pid, Option<string>)>, alive: set<Pid>, existing: set<string>, e: Effect)
    ensures e in Restores(moved, alive, existing) <==>
            e.Restore? && (e.pid, Some(e.path)) in moved && e.pid in alive && e.path in existing
    decreases |moved|
  {
    if moved != [] {
      RestoresHold(moved[1..], alive, existing, e);
      var (pid, original) := moved[0];
      assert moved == [moved[0]] + moved[1..];
    }
  }

  lemma {:induction false} MovedAligns(t: Table, order: seq<Pid>)
    ensures |t.Moved(order)| == |Enumerate(t.MovedSet(), order)| <= |order|
    ensures forall i :: 0 <= i < |t.Moved(order)| ==>
              t.Moved(order)[i] == (Enumerate(t.MovedSet(), order)[i], t.OriginalOf(Enumerate(t.MovedSet(), order)[i]))
  {
    if order != [] { MovedAligns(t, order[1..]); }
  }

  /** The moved processes that the restore pass gets to. */
  function LookedAt(t: Table, order: seq<Pid>, reached: nat): seq<Pid> {
    UpTo(Enumerate(t.MovedSet(), order), reached)
  }

  lemma LookedAtHolds(t: Table, order: seq<Pid>, reached: nat, p: Pid, original: Option<string>)
    ensures (p, original) in UpTo(t.Moved(order), reached) <==> p in LookedAt(t, order, reached) && t.OriginalOf(p) == original
    ensures reached >= |order| ==> LookedAt(t, order, reached) == Enumerate(t.MovedSet(), order)
  {
    MovedAligns(t, order);
    var pairs, pids := UpTo(t.Moved(order), reached), LookedAt(t, order, reached);
    assert |pairs| == |pids|;
    forall i | 0 <= i < |pairs| ensures pairs[i] == (pids[i], t.OriginalOf(pids[i])) {}
    if p in pids && t.OriginalOf(p) == original {
      var i :| 0 <= i < |pids| && pids[i] == p;
      assert pairs[i] == (p, original);
    }
  }

  /**
   * The shutdown restores exactly the processes it gets to that are under a rule with a cgroup and
   * alive, each to the first cgroup read for it in its current lifetime, if that still exists; a
   * pass that is not cut short gets to all of them.
   */
  lemma UndoAtShutdown(cfg: Config, rules: seq<Rule>, existing: Option<World>, start: Instant, inputs: seq<Input>, s: Brain,
                       order: seq<Pid>, alive: set<Pid>, paths: set<string>, reached: nat, p: Pid, path: string)
    requires Reachable(cfg, rules, existing, start, inputs, s) && Covers(order, s.table.entries.Keys)
    ensures s.log <= Shutdown(s, order, alive, paths, reached).log
    ensures Restore(p, path) in Shutdown(s, order, alive, paths, reached).log[|s.log|..] <==>
            && p in LookedAt(s.table, order, reached) && FirstRead(s.log, p) == Some(path) && p in alive && path in paths
    ensures p in LookedAt(s.table, order, reached) ==> p in s.table.MovedSet()
    ensures p in s.table.MovedSet() <==>
            p in s.table.entries && s.table.entries[p].applied.Some? && s.table.entries[p].applied.value.cgroup.Some?
    ensures reached >= |order| && p in s.table.MovedSet() ==> p in LookedAt(s.table, order, reached)
  {
    ReachableIsInv(cfg, rules, existing, start, inputs, s);
    var moved := UpTo(s.table.Moved(order), reached);
    RestoresHold(moved, alive, paths, Restore(p, path));
    LookedAtHolds(s.table, order, reached, p, Some(path));
    var r := Restores(moved, alive, paths);
    assert (s.log + r)[|s.log|..] == r;
    assert s.table.OriginalOf(p) == FirstRead(s.log, p);
    assert p in LookedAt(s.table, order, reached) ==> p in Enumerate(s.table.MovedSet(), order);
  }

  /** Every read of the cgroup of `p` in its current lifetime found something. */
  ghost predicate ReadsFound(log: Log, p: Pid) {
    forall k :: LifetimeRead(log, p, k) ==> log[k].found.Some?
  }

  /**
   * In every reachable state, a process under a rule with a cgroup has been asked for its cgroup in
   * its current lifetime.  It has a record exactly when one of these reads found something - so
   * always, if they all did - and a shutdown that is not cut short then restores it to the place on
   * record exactly when it is alive and the place still exists.
   */
  lemma EveryMovedIsRestored(cfg: Config, rules: seq<Rule>, existing: Option<World>, start: Instant, inputs: seq<Input>, s: Brain,
                             order: seq<Pid>, alive: set<Pid>, paths: set<string>, reached: nat, p: Pid)
    requires Reachable(cfg, rules, existing, start, inputs, s) && Covers(order, s.table.entries.Keys) && reached >= |order|
    requires p in s.table.MovedSet()
    ensures exists k :: LifetimeRead(s.log, p, k)
    ensures FirstRead(s.log, p).Some? <==> exists k :: LifetimeRead(s.log, p, k) && s.log[k].found.Some?
    ensures ReadsFound(s.log, p) ==> FirstRead(s.log, p).Some?
    ensures FirstRead(s.log, p).Some? ==>
              (Restore(p, FirstRead(s.log, p).value) in Shutdown(s, order, alive, paths, reached).log[|s.log|..] <==>
               p in alive && FirstRead(s.log, p).value in paths)
  {
    ReachableIsInv(cfg, rules, existing, start, inputs, s);
    assert Asked(s.log, p);
    RecordIffReadFound(s.log, p);
    if FirstRead(s.log, p).Some? {
      UndoAtShutdown(cfg, rules, existing, start, inputs, s, order, alive, paths, reached, p, FirstRead(s.log, p).value);
    }
  }

  // ------------------------------------------------------------------------------------------
  // Back to the place before the move
  // ------------------------------------------------------------------------------------------

  /**
   * At every move of `p` by its own rule in its current lifetime, unless the read right before it
   * failed, the undo record is already made and final.  It is the path read right before the move
   * exactly when no read of this lifetime had succeeded before, or the first one gave the same path.
   */
  lemma RestoredPathIsFromBeforeTheMove(cfg: Config, rules: seq<Rule>, existing: Option<World>, start: Instant,
                                        inputs: seq<Input>, s: Brain, p: Pid, i: nat)
    requires Reachable(cfg, rules, existing, start, inputs, s)
    requires OwnMove(s.log, p, i) && !ReadFailedBefore(s.log, i) && NoForget(s.log[i..], p)
    ensures i > 0 && s.log[i - 1].ReadCgroup? && s.log[i - 1].pid == p
    ensures s.table.OriginalOf(p).Some? && s.table.OriginalOf(p) == FirstRead(s.log[..i], p)
    ensures s.table.OriginalOf(p) == s.log[i - 1].found <==>
            FirstRead(s.log[..i - 1], p).None? || FirstRead(s.log[..i - 1], p) == s.log[i - 1].found
  {
    ReachableIsInv(cfg, rules, existing, start, inputs, s);
    RecordPrecedesRuleMoves(s.log, p, i);
    assert s.table.OriginalOf(p) == FirstRead(s.log, p);
  }

  predicate KnownTiers(rules: seq<Rule>) {
    forall r <- rules :: r.action.cgroup.Some? ==> TierOf(r.action.cgroup.value).Some?
  }

  lemma {:induction false} HitsAreRules(rules: seq<Rule>, p: ProcessInfo, parent: Option<string>)
    ensures forall r <- Hits(rules, p, parent) :: r in rules
  {
    if rules != [] { HitsAreRules(rules[1..], p, parent); }
  }

  lemma {:induction false} StrippedTiers(hits: seq<Rule>, cgroupExempt: bool, hasRt: bool)
    requires KnownTiers(hits)
    ensures forall a <- StripAll(hits, cgroupExempt, hasRt) :: a.cgroup.Some? ==> TierOf(a.cgroup.value).Some?
  {
    if hits != [] { StrippedTiers(hits[1..], cgroupExempt, hasRt); }
  }

  /** Rules that name only known tiers give answers that do. */
  lemma AnswersNameKnownTiers(rules: seq<Rule>, ex: ExceptionList, p: ProcessInfo, ancestors: seq<string>)
    requires KnownTiers(rules) && Classification(rules, ex, p, ancestors).Some?
    ensures var a := Classification(rules, ex, p, ancestors).value; a.cgroup.Some? ==> TierOf(a.cgroup.value).Some?
  {
    var hits := Hits(rules, p, ParentOf(ancestors));
    var acts := StripAll(hits, IsCgroupExempt(ex, p, ancestors), HasRtPolicy(p));
    HitsAreRules(rules, p, ParentOf(ancestors));
    StrippedTiers(hits, IsCgroupExempt(ex, p, ancestors), HasRtPolicy(p));
    FirstOfIsFirst(acts, CGROUP);
  }

  /** The rules in force name known tiers only, and so every read so far came before a move. */
  ghost predicate Traced(s: Brain) {
    KnownTiers(s.rules) && ReadsAreMoves(s.log)
  }

  lemma PlainIsTraced(log: Log)
    requires Plain(log)
    ensures ReadsAreMoves(log)
  {
    forall i | 0 <= i < |log| ensures !log[i].ReadCgroup? { assert log[i] in log; }
  }

  lemma TracedAfter(s: Brain, issued: Log, u: Brain)
    requires Traced(s) && ReadsAreMoves(issued) && u.rules == s.rules && u.log == s.log + issued
    ensures Traced(u)
  {
    ReadsAreMovesConcat(s.log, issued);
  }

  lemma IssuedIsTraced(t: Table, pid: Pid, a: Action, w: World)
    requires a.cgroup.Some? ==> TierOf(a.cgroup.value).Some?
    ensures ReadsAreMoves(Issued(t, pid, a, w))
  {
    IssuedIsShaped(t, pid, a, w);
    var read, requests, moves := CgroupRead(pid, a, w), Requests(pid, a), MovesOfChildren(t, pid, a, w);
    if a.cgroup.Some? { assert requests[0] == Move(pid, TierOf(a.cgroup.value).value, ByRule); }
    ShapeIsTraced(read, requests, moves, pid);
  }

  lemma ShapeIsTraced(read: Log, requests: Log, moves: Log, pid: Pid)
    requires Shaped(read, requests, moves, pid) && (read != [] ==> requests != [] && OwnMove(requests, pid, 0))
    ensures ReadsAreMoves(read + requests + moves)
  {
    var log := read + requests + moves;
    forall i | 0 <= i < |log|
      ensures log[i] == if i < |read| then read[i] else if i < |read| + |requests| then requests[i - |read|]
                        else moves[i - |read| - |requests|]
    {}
  }

  lemma ClassifyTraced(cfg: Config, s: Brain, pid: Pid, info: ProcessInfo, w: World, now: Instant)
    requires Traced(s)
    ensures Traced(ClassifyAndApply(cfg, s, pid, info, w, now))
  {
    var d := Decision(cfg, s, pid, info, w);
    if d.Some? {
      AnswersNameKnownTiers(s.rules, cfg.exceptions, WithEnviron(s.rules, pid, info, w), s.table.AncestorComms(pid, 10));
      IssuedIsTraced(s.table, pid, d.value, w);
      TracedAfter(s, Issued(s.table, pid, d.value, w), Apply(s, pid, info, d.value, w, now));
    }
  }

  lemma {:induction false} ClassifyEachTraced(cfg: Config, s: Brain, todo: seq<Pid>, w: World, now: Instant)
    requires Traced(s)
    ensures Traced(ClassifyEach(cfg, s, todo, w, now))
    decreases |todo|
  {
    if todo != [] {
      var pid := todo[0];
      if pid in s.table.entries {
        ClassifyTraced(cfg, s, pid, s.table.entries[pid].info, w, now);
        ClassifyEachTraced(cfg, ClassifyAndApply(cfg, s, pid, s.table.entries[pid].info, w, now), todo[1..], w, now);
      } else {
        ClassifyEachTraced(cfg, s, todo[1..], w, now);
      }
    }
  }

  lemma ReclassifyTraced(cfg: Config, s: Brain, pid: Pid, w: World, now: Instant)
    requires Traced(s)
    ensures Traced(Reclassify(cfg, s, pid, w, now))
  {
    if pid in w.proc.infos { ClassifyTraced(cfg, InsertEntry(s, w.proc.infos[pid]), pid, w.proc.infos[pid], w, now); }
  }

  lemma RemoveTraced(s: Brain, pid: Pid)
    requires Traced(s)
    ensures Traced(RemoveEntry(s, pid))
  {
    TracedAfter(s, if pid in s.table.entries then [Forget({pid})] else [], RemoveEntry(s, pid));
  }

  lemma {:induction false} RecheckEachTraced(cfg: Config, s: Brain, todo: seq<Pid>, w: World, now: Instant)
    requires Traced(s)
    ensures Traced(RecheckEach(cfg, s, todo, w, now))
    decreases |todo|
  {
    if todo != [] {
      ReclassifyTraced(cfg, s, todo[0], w, now);
      RemoveTraced(s, todo[0]);
      RecheckEachTraced(cfg, Recheck(cfg, s, todo[0], w, now), todo[1..], w, now);
    }
  }

  lemma FullScanTraced(cfg: Config, s: Brain, w: World, now: Instant)
    requires Traced(s)
    ensures Traced(FullScan(cfg, s, w, now))
  {
    var m := Merged(s, w);
    TracedAfter(s, [Forget(s.table.MergeFresh(FoundBy(s, w)).Stale(LivePids(w.proc.Entries())))], m);
    ClassifyEachTraced(cfg, m, Enumerate(m.table.UnclassifiedSet(), w.order), w, now);
  }

  lemma CountForkTraced(cfg: Config, s: Brain, parent: Pid, child: Pid, tgid: Pid, w: World, now: Instant)
    requires Traced(s)
    ensures Traced(CountFork(cfg, s, parent, child, tgid, w, now).0)
  {
    if child == tgid {
      var (d, bomb) := s.forkbomb.RecordFork(parent, now);
      if bomb.Some? {
        var pids := CollectSubtree(s.table.children, bomb.value, cfg.lineageDepth, w.childOrder);
        ThrottleMovesOnly(pids);
        PlainIsTraced(ThrottleMoves(pids));
        TracedAfter(s, ThrottleMoves(pids), CountFork(cfg, s, parent, child, tgid, w, now).0);
      }
    }
  }

  lemma ProcTraced(cfg: Config, s: Brain, e: ProcEvent, w: World, now: Instant)
    requires Traced(s)
    ensures Traced(HandleProcStartup(cfg, s, e, w, now)) && Traced(HandleProc(cfg, s, e, w, now))
  {
    match e
    case ProcFork(parent, child, tgid) => CountForkTraced(cfg, s, parent, child, tgid, w, now);
    case ProcExit(pid) =>
      var (f, issued) := OnExit(s.focus, pid);
      TracedAfter(s, issued, s.(focus := f, log := s.log + issued));
      RemoveTraced(s.(focus := f, log := s.log + issued), pid);
    case _ => ReclassifyTraced(cfg, s, e.pid, w, now);
  }

  lemma ForegroundTraced(s: Brain, pid: Pid, w: World)
    requires Traced(s) && Inv(s) && Fits(s, w)
    ensures Traced(HandleForeground(s, pid, w))
  {
    if !s.startup && CanFocus(s, pid) {
      SetForegroundKeepsBoosts(s.focus, s.table, pid, w.order, s.log);
      NothingReadIsTraced(SetForeground(s.focus, s.table, pid, w.order).1);
      TracedAfter(s, SetForeground(s.focus, s.table, pid, w.order).1, HandleForeground(s, pid, w));
    }
  }

  lemma NothingReadIsTraced(log: Log)
    requires forall p: Pid :: NoReadNorForget(log, p)
    ensures ReadsAreMoves(log)
  {
    forall i | 0 <= i < |log| ensures !log[i].ReadCgroup? {
      assert log[i].ReadCgroup? ==> NoReadNorForget(log, log[i].pid);
      assert log[i] in log;
    }
  }

  lemma PressureTraced(s: Brain, r: Reading)
    requires Traced(s)
    ensures Traced(HandlePressure(s, r))
  {
    SwapstormMovesPlain(r.idle + r.background);
    if r.level.CriticalPressure? && r.level != s.level {
      PlainIsTraced(SwapstormMoves(r.idle + r.background));
      TracedAfter(s, SwapstormMoves(r.idle + r.background), HandlePressure(s, r));
    }
  }

  /** Rules that come into force with this event name known tiers only. */
  predicate BringsKnownTiers(e: Event) {
    match e
    case ReloadRules(dirs) => Load(dirs).Some? ==> KnownTiers(Load(dirs).value)
    case Control(ReloadByCommand(dirs)) => Load(dirs).Some? ==> KnownTiers(Load(dirs).value)
    case _ => true
  }

  lemma HandleTraced(cfg: Config, s: Brain, e: Event, w: World, now: Instant)
    requires Traced(s) && Inv(s) && Fits(s, w) && BringsKnownTiers(e)
    ensures Traced(Handle(cfg, s, e, w, now))
  {
    match e
    case Proc(event) => ProcTraced(cfg, s, event, w, now);
    case Control(SetForegroundProcess(pid)) => ForegroundTraced(s, pid, w);
    case Control(SetProcessCgroup(pid, cgroup)) => TracedAfter(s, ControlMove(pid, cgroup), HandleControl(s, e.command, w));
    case PressureEvent(reading) => PressureTraced(s, reading);
    case RescanTick => FullScanTraced(cfg, s, w, now);
    case RecheckTick => RecheckEachTraced(cfg, s, Enumerate(s.table.ExpiredSet(now), w.order), w, now);
    case PowerEvent(onBattery) =>
      if s.battery != Some(onBattery) { TracedAfter(s, [SetProfile(onBattery)], HandlePower(s, onBattery)); }
    case _ =>
  }

  lemma {:induction false} RunTraced(cfg: Config, s: Brain, inputs: seq<Input>)
    requires Traced(s) && Inv(s) && Possible(cfg, s, inputs) && forall i <- inputs :: BringsKnownTiers(i.event)
    ensures Traced(Run(cfg, s, inputs))
  {
    if inputs != [] {
      var front, i := inputs[..|inputs| - 1], inputs[|inputs| - 1];
      var before := Run(cfg, s, front);
      EveryRunKeepsInv(cfg, s, front);
      EndGraceKeepsInv(cfg, before, i.scanWorld, i.now);
      RunTraced(cfg, s, front);
      FullScanTraced(cfg, before.(startup := false), i.scanWorld, i.now);
      HandleTraced(cfg, EndGrace(cfg, before, i.scanWorld, i.now), i.event, i.world, i.now);
    }
  }

  lemma EnteringTraced(cfg: Config, rules: seq<Rule>, existing: Option<World>, start: Instant)
    requires KnownTiers(rules)
    ensures Traced(Entering(cfg, rules, existing, start))
  {
    if existing.Some? { FullScanTraced(cfg, Started(cfg, rules), existing.value, start); }
  }

  /**
   * As long as the rules name known tiers only, the path on record is the one read right before
   * the first move of `p` by its own rule in its current lifetime, and the shutdown restores `p`
   * to no other.
   */
  lemma FirstMoveIsUndone(cfg: Config, rules: seq<Rule>, existing: Option<World>, start: Instant, inputs: seq<Input>, s: Brain,
                          p: Pid, i: nat, order: seq<Pid>, alive: set<Pid>, paths: set<string>, reached: nat, path: string)
    requires Reachable(cfg, rules, existing, start, inputs, s) && Covers(order, s.table.entries.Keys)
    requires KnownTiers(rules) && forall i <- inputs :: BringsKnownTiers(i.event)
    requires FirstOwnMove(s.log, p, i) && !ReadFailedBefore(s.log, i) && NoForget(s.log[i..], p)
    ensures i > 0 && s.log[i - 1].ReadCgroup? && s.log[i - 1].pid == p
    ensures s.table.OriginalOf(p) == s.log[i - 1].found
    ensures Restore(p, path) in Shutdown(s, order, alive, paths, reached).log[|s.log|..] <==>
            p in LookedAt(s.table, order, reached) && Some(path) == s.log[i - 1].found && p in alive && path in paths
  {
    EnteringIsInv(cfg, rules, existing, start);
    EnteringTraced(cfg, rules, existing, start);
    RunTraced(cfg, Entering(cfg, rules, existing, start), inputs);
    ReachableIsInv(cfg, rules, existing, start, inputs, s);
    FirstMoveMakesRecord(s.log, p, i);
    assert s.table.OriginalOf(p) == FirstRead(s.log, p);
    UndoAtShutdown(cfg, rules, existing, start, inputs, s, order, alive, paths, reached, p, path);
  }

  lemma NoForgetJoins(log: Log, p: Pid, i: nat, j: nat)
    requires i <= j <= |log| && NoForget(log[i..j], p) && NoForget(log[j..], p)
    ensures NoForget(log[i..], p)
  {
    assert log[i..] == log[i..j] + log[j..];
  }

  /** A lifetime with a move by the process's own rule has a first one. */
  lemma {:induction false} FirstOfOwnMoves(log: Log, p: Pid, j: nat) returns (i: nat)
    requires OwnMove(log, p, j) && NoForget(log[j..], p)
    ensures i <= j && FirstOwnMove(log, p, i) && NoForget(log[i..], p)
    decreases j
  {
    if FirstOwnMove(log, p, j) {
      i := j;
    } else {
      var k :| 0 <= k < j && OwnMove(log, p, k) && NoForget(log[k..j], p);
      NoForgetJoins(log, p, k, j);
      i := FirstOfOwnMoves(log, p, k);
    }
  }

  /**
   * With rules that name known tiers only, every process under a rule with a cgroup has been moved
   * by its own rule in its current lifetime.  If the reads of its cgroup found something, a
   * shutdown that is not cut short restores it, if it is alive and the place still exists, to the
   * path that was read right before the first of these moves.
   */
  lemma EveryMovedGoesBack(cfg: Config, rules: seq<Rule>, existing: Option<World>, start: Instant, inputs: seq<Input>, s: Brain,
                           order: seq<Pid>, alive: set<Pid>, paths: set<string>, reached: nat, p: Pid) returns (i: nat)
    requires Reachable(cfg, rules, existing, start, inputs, s) && Covers(order, s.table.entries.Keys) && reached >= |order|
    requires KnownTiers(rules) && forall i <- inputs :: BringsKnownTiers(i.event)
    requires p in s.table.MovedSet()
    ensures FirstOwnMove(s.log, p, i) && NoForget(s.log[i..], p)
    ensures i > 0 && LifetimeRead(s.log, p, i - 1)
    ensures s.log[i - 1].found.Some? ==>
              (Restore(p, s.log[i - 1].found.value) in Shutdown(s, order, alive, paths, reached).log[|s.log|..] <==>
               p in alive && s.log[i - 1].found.value in paths)
  {
    var j := OwnMoveOfMoved(cfg, rules, existing, start, inputs, s, p);
    i := FirstOfOwnMoves(s.log, p, j);
    ReachableIsInv(cfg, rules, existing, start, inputs, s);
    MoveFollowsRead(s.log, p, i);
    if s.log[i - 1].found.Some? {
      var path := s.log[i - 1].found.value;
      FirstMoveIsUndone(cfg, rules, existing, start, inputs, s, p, i, order, alive, paths, reached, path);
      UndoAtShutdown(cfg, rules, existing, start, inputs, s, order, alive, paths, reached, p, path);
    }
  }

  lemma MoveFollowsRead(log: Log, p: Pid, i: nat)
    requires ReadBeforeRuleMove(log) && OwnMove(log, p, i) && NoForget(log[i..], p)
    ensures i > 0 && LifetimeRead(log, p, i - 1)
  {
    assert log[i - 1..] == [log[i - 1]] + log[i..];
  }

  lemma OwnMoveOfMoved(cfg: Config, rules: seq<Rule>, existing: Option<World>, start: Instant, inputs: seq<Input>, s: Brain,
                       p: Pid) returns (j: nat)
    requires Reachable(cfg, rules, existing, start, inputs, s)
    requires KnownTiers(rules) && forall i <- inputs :: BringsKnownTiers(i.event)
    requires p in s.table.MovedSet()
    ensures OwnMove(s.log, p, j) && NoForget(s.log[j..], p)
  {
    EnteringIsInv(cfg, rules, existing, start);
    EnteringTraced(cfg, rules, existing, start);
    RunTraced(cfg, Entering(cfg, rules, existing, start), inputs);
    ReachableIsInv(cfg, rules, existing, start, inputs, s);
    assert Asked(s.log, p);
    j := MoveAfterRead(s.log, p);
  }

  lemma MoveAfterRead(log: Log, p: Pid) returns (j: nat)
    requires ReadsAreMoves(log) && Asked(log, p)
    ensures OwnMove(log, p, j) && NoForget(log[j..], p)
  {
    var k :| LifetimeRead(log, p, k);
    j := k + 1;
    assert OwnMove(log, p, j);
    assert log[k..] == [log[k]] + log[j..];
  }

  // ------------------------------------------------------------------------------------------
  // Back home
  // ------------------------------------------------------------------------------------------

  /**
   * With no other mover about, the record is where the daemon had put the process before its first
   * read; it is the place it came from exactly when nothing had moved it, or back to that place.
   */
  lemma GoesHomeIff(cfg: Config, rules: seq<Rule>, existing: Option<World>, start: Instant, inputs: seq<Input>, s: Brain,
                    p: Pid, home: string, tierPath: Tier -> string)
    requires Reachable(cfg, rules, existing, start, inputs, s) && s.table.OriginalOf(p).Some?
    requires OnlyDaemonMoves(s.log, p, home, tierPath)
    ensures s.table.OriginalOf(p) == Some(PathOf(PlaceAtRead(s.log, p), home, tierPath))
    ensures MovedBeforeRead(s.log, p) <==> PlaceAtRead(s.log, p).Some?
    ensures s.table.OriginalOf(p) == Some(home) <==>
            !MovedBeforeRead(s.log, p) || tierPath(PlaceAtRead(s.log, p).value) == home
  {
    ReachableIsInv(cfg, rules, existing, start, inputs, s);
    assert s.table.OriginalOf(p) == FirstRead(s.log, p);
    RecordIsPlaceAtRead(s.log, p, home, tierPath);
  }

  /** Where the shutdown takes a process, and when that is the place it came from. */
  lemma ShutdownGoesHomeIff(cfg: Config, rules: seq<Rule>, existing: Option<World>, start: Instant, inputs: seq<Input>,
                            s: Brain, order: seq<Pid>, alive: set<Pid>, paths: set<string>, reached: nat, p: Pid,
                            path: string, home: string, tierPath: Tier -> string)
    requires Reachable(cfg, rules, existing, start, inputs, s) && Covers(order, s.table.entries.Keys)
    requires OnlyDaemonMoves(s.log, p, home, tierPath)
    requires Restore(p, path) in Shutdown(s, order, alive, paths, reached).log[|s.log|..]
    ensures path == PathOf(PlaceAtRead(s.log, p), home, tierPath)
    ensures MovedBeforeRead(s.log, p) <==> PlaceAtRead(s.log, p).Some?
    ensures path == home <==> !MovedBeforeRead(s.log, p) || tierPath(PlaceAtRead(s.log, p).value) == home
  {
    UndoAtShutdown(cfg, rules, existing, start, inputs, s, order, alive, paths, reached, p, path);
    ReachableIsInv(cfg, rules, existing, start, inputs, s);
    assert s.table.OriginalOf(p) == FirstRead(s.log, p);
    GoesHomeIff(cfg, rules, existing, start, inputs, s, p, home, tierPath);
  }

  lemma {:induction false} MovedStays(log: Log, issued: Log, p: Pid)
    requires NoForget(issued, p)
    requires MovedBeforeRead(log, p) || (exists e <- issued :: e.Move? && e.pid == p)
    requires FirstRead(log, p).None? && forall e <- issued :: !(e.ReadCgroup? && e.pid == p)
    ensures MovedBeforeRead(log + issued, p)
    decreases |issued|
  {
    if issued == [] {
      assert log + issued == log;
    } else {
      var front, e := issued[..|issued| - 1], issued[|issued| - 1];
      assert (log + issued)[..|log + issued| - 1] == log + front;
      FoldOfConcat(None, log, front, p);
      NoReadKeepsFirst(None, front, p);
      if !(e.Move? && e.pid == p) {
        if !MovedBeforeRead(log, p) {
          var x :| x in issued && x.Move? && x.pid == p;
          assert x in front;
        }
        MovedStays(log, front, p);
      }
    }
  }

  lemma {:induction false} ChildIsMoved(children: seq<Pid>, known: set<Pid>, a: Action, child: Pid)
    requires child in children && child in known && a.cgroup.Some? && TierOf(a.cgroup.value).Some?
    ensures Move(child, TierOf(a.cgroup.value).value, ByParentRule) in ChildMoves(children, known, a)
  {
    if children[0] != child { ChildIsMoved(children[1..], known, a, child); }
  }

  lemma ChildMoveIsIssued(t: Table, pid: Pid, a: Action, w: World, child: Pid)
    requires child in Kids(t.children, pid) && child in w.childOrder && child in t.entries
    requires a.applyToChildren && a.cgroup.Some? && TierOf(a.cgroup.value).Some?
    ensures exists e <- Issued(t, pid, a, w) :: e.Move? && e.pid == child
  {
    IssuedIsShaped(t, pid, a, w);
    var moves := MovesOfChildren(t, pid, a, w);
    ChildIsMoved(Enumerate(Kids(t.children, pid), w.childOrder), t.entries.Keys, a, child);
    InLastPart(CgroupRead(pid, a, w) + Requests(pid, a), moves, Move(child, TierOf(a.cgroup.value).value, ByParentRule));
  }

  lemma InLastPart(front: Log, last: Log, e: Effect)
    requires e in last
    ensures e in front + last
  {
  }

  /**
   * A rule that applies to children moves a child before the child's own cgroup has been read:
   * should the child be moved by a rule of its own later, it is restored to its parent's tier.
   */
  lemma ChildMovedBeforeItsRead(s: Brain, pid: Pid, info: ProcessInfo, a: Action, w: World, now: Instant, child: Pid)
    requires Core(s) && child != pid && child in Kids(s.table.children, pid) && child in w.childOrder
    requires s.table.OriginalOf(child).None?
    requires a.applyToChildren && a.cgroup.Some? && TierOf(a.cgroup.value).Some?
    ensures MovedBeforeRead(Apply(s, pid, info, a, w, now).log, child)
  {
    AgreementGivesForest(s.table);
    var issued := Issued(s.table, pid, a, w);
    ChildMoveIsIssued(s.table, pid, a, w, child);
    IssuedFacts(s.table, pid, a, w);
    assert NoReadNorForget(issued, child);
    assert s.table.OriginalOf(child) == FirstRead(s.log, child);
    MovedStays(s.log, issued, child);
  }
}
