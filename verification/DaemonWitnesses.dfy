/**
 * Short runs of the daemon in which something a comment promises does not hold.
 *
 * Every run starts where the loop is entered without a scan of the existing processes.  One or two
 * ordinary processes, `OUTER` and `INNER`, are read when they call exec or when a scan lists them,
 * under two rules that decide by their names.  The grace period is over with the first input, except
 * in the run about the grace period itself.  The names of the processes, of the tiers and of the
 * places that are read are parameters, so that every statement covers a family of runs.
 */
module DaemonWitnesses {
  import opened Wrappers
  import opened Types
  import opened Effects
  import opened ProcessTables
  import opened Foreground
  import opened Rules
  import opened Scanning
  import opened DaemonSpec
  import opened DaemonInvariants
  import opened DaemonClassification
  import opened DaemonOrder

  // ------------------------------------------------------------------------------------------
  // The setting
  // ------------------------------------------------------------------------------------------

  const OUTER: Pid := 100
  const INNER: Pid := 101
  const PIDS: seq<Pid> := [OUTER, INNER]

  function Setting(graceEnd: Instant): Config {
    Config(1, 3, 20, graceEnd, DEFAULT_EXCEPTIONS, false)
  }

  function Process(pid: Pid, ppid: Pid, comm: string): ProcessInfo {
    ProcessInfo(pid, ppid, 1000, comm, [comm], None, 1, 0, Normal, None, false, map[])
  }

  function NamedOnly(comm: string): Matchers {
    Matchers([comm], [], [], [], [], None, None, [], None, None, [], [], None, None)
  }

  /** The rule for processes called `comm`. */
  function RuleOf(comm: string, cgroup: string, children: bool): Rule {
    Rule(comm, 0, NamedOnly(comm), ActionOf(comm, cgroup, children), false, Origin(0, "", 0))
  }

  function ActionOf(comm: string, cgroup: string, children: bool): Action {
    Action(Some(cgroup), None, None, None, None, None, None, children, comm)
  }

  function WorldOf(listing: Option<seq<DirEntry>>, infos: map<Pid, ProcessInfo>, cgroups: map<Pid, string>): World {
    World(Snapshot(listing, infos), cgroups, map[], PIDS, PIDS)
  }

  const EMPTY_WORLD: World := WorldOf(None, map[], map[])

  function Given(event: Event, world: World): Input {
    Input(0, event, world, EMPTY_WORLD)
  }

  function ExecOf(info: ProcessInfo, cgroup: string): Input {
    Given(Proc(ProcExec(info.pid)), WorldOf(None, map[info.pid := info], map[info.pid := cgroup]))
  }

  lemma MatchesByName(comm: string, p: ProcessInfo, parent: Option<string>)
    requires p.cgroupPath.None?
    ensures Matches(NamedOnly(comm), p, parent) <==> p.comm == comm
  {
  }

  /** Two rules for processes of different names; the first may take the children along. */
  datatype TwoRules = TwoRules(first: string, cgroup: string, children: bool, second: string, otherCgroup: string) {
    function Rules(): seq<Rule> {
      [RuleOf(first, cgroup, children), RuleOf(second, otherCgroup, false)]
    }

    function Say(comm: string): Option<Action> {
      if comm == first then Some(ActionOf(first, cgroup, children))
      else if comm == second then Some(ActionOf(second, otherCgroup, false))
      else None
    }
  }

  /** No exception concerns a process of this name or its descendants. */
  predicate Unexcepted(ex: ExceptionList, comm: string) {
    comm !in ex.fullyExempt && comm !in ex.noCgroupMove && comm !in ex.ancestorNames
  }

  /** A name that neither the default exceptions nor the daemon's own threads have. */
  predicate OrdinaryName(comm: string) {
    |comm| < 7 && Unexcepted(DEFAULT_EXCEPTIONS, comm)
  }

  lemma {:induction false} AncestorsUnexcepted(t: Table, ex: ExceptionList, pid: Pid, depth: nat)
    requires forall q <- t.entries :: Unexcepted(ex, t.entries[q].info.comm)
    ensures forall a <- t.AncestorComms(pid, depth) :: Unexcepted(ex, a)
    decreases depth
  {
    if depth > 0 && pid in t.entries { AncestorsUnexcepted(t, ex, t.entries[pid].info.ppid, depth - 1); }
  }

  lemma AnswerOfTwo(r: TwoRules, ex: ExceptionList, p: ProcessInfo, ancestors: seq<string>)
    requires r.first != r.second && p.cgroupPath.None? && !p.isKernelThread && p.schedPolicy.Normal?
    requires Unexcepted(ex, p.comm) && forall a <- ancestors :: Unexcepted(ex, a)
    ensures Classification(r.Rules(), ex, p, ancestors) == r.Say(p.comm)
  {
    var parent, a, b := ParentOf(ancestors), r.Rules()[0], r.Rules()[1];
    MatchesByName(r.first, p, parent);
    MatchesByName(r.second, p, parent);
    assert r.Rules()[1..] == [b] && [b][1..] == [];
    assert Hits([], p, parent) == [];
    assert Hits([b], p, parent) == if p.comm == r.second then [b] else [];
    var hits := Hits(r.Rules(), p, parent);
    assert hits == if p.comm == r.first then [a] else if p.comm == r.second then [b] else [];
    if hits != [] {
      var x := Stripped(hits[0], false, false);
      assert hits[1..] == [];
      assert StripAll(hits, false, false) == [x];
      CombinedOfOne(x);
    }
  }

  // ------------------------------------------------------------------------------------------
  // Running
  // ------------------------------------------------------------------------------------------

  lemma RunThenStep(cfg: Config, s: Brain, inputs: seq<Input>, i: Input)
    requires Possible(cfg, s, inputs) && Completes(cfg, Run(cfg, s, inputs), i)
    ensures Possible(cfg, s, inputs + [i]) && Run(cfg, s, inputs + [i]) == Step(cfg, Run(cfg, s, inputs), i)
  {
    assert (inputs + [i])[..|inputs + [i]| - 1] == inputs;
  }

  function Start0(rules: seq<Rule>): Brain {
    Entering(Setting(0), rules, None, 0)
  }

  /** The state after the scan that ends a grace period in which nothing happened. */
  function InForce(rules: seq<Rule>): Brain {
    Started(Setting(0), rules).(startup := false, table := Table(map[], map[], [Removed({})]), log := [SetProfile(false), Forget({})])
  }

  lemma GraceEndsQuietly(rules: seq<Rule>)
    ensures EndGrace(Setting(0), Start0(rules), EMPTY_WORLD, 0) == InForce(rules)
    ensures Inv(Start0(rules)) && Inv(InForce(rules)) && Fits(Start0(rules), EMPTY_WORLD)
  {
    var s := Start0(rules);
    EnteringIsInv(Setting(0), rules, None, 0);
    EndGraceKeepsInv(Setting(0), s, EMPTY_WORLD, 0);
    var m := Merged(s.(startup := false), EMPTY_WORLD);
    assert LivePids([]) == {} && FoundBy(s, EMPTY_WORLD) == [];
    assert s.table.MergeFresh([]).Stale({}) == {};
    assert m.table == Table(map[], map[], [Removed({})]) by {
      assert m.table.entries == map[];
      assert m.table.children == map[];
    }
    assert m.managed == map[];
    assert m.log == [SetProfile(false), Forget({})];
    EnumerateNothing(PIDS);
    assert m.table.UnclassifiedSet() == {};
  }

  /** A process of the setting that the daemon may touch. */
  predicate Ordinary(info: ProcessInfo) {
    info == Process(info.pid, info.ppid, info.comm) && info.pid in PIDS && info.ppid != 1 && OrdinaryName(info.comm)
  }

  /** A state in which the two rules are in force. */
  ghost predicate Ruled(s: Brain, r: TwoRules) {
    && Inv(s) && !s.startup && s.rules == r.Rules()
    && s.focus.pids <= {OUTER, INNER} && s.table.entries.Keys <= {OUTER, INNER}
    && forall q <- s.table.entries :: Unexcepted(DEFAULT_EXCEPTIONS, s.table.entries[q].info.comm)
  }

  lemma FitsHere(s: Brain, w: World)
    requires s.table.entries.Keys <= {OUTER, INNER} && s.focus.pids <= {OUTER, INNER}
    requires (w.order == PIDS || w.order == REVERSED) && w.childOrder == PIDS && w.proc.WellRead() && w.proc.infos.Keys <= {OUTER, INNER}
    ensures Fits(s, w)
  {
    assert PIDS[0] == OUTER && PIDS[1] == INNER && REVERSED[0] == INNER && REVERSED[1] == OUTER;
  }

  lemma ExecIsReclassify(cfg: Config, s: Brain, info: ProcessInfo, cgroup: string)
    requires !s.startup
    ensures Step(cfg, s, ExecOf(info, cgroup)) == Reclassify(cfg, s, info.pid, ExecOf(info, cgroup).world, 0)
  {
  }

  lemma NotOwnThread(comm: string)
    requires |comm| < 7
    ensures comm !in OWN_THREAD_NAMES
  {
  }

  lemma NothingToRead(rules: seq<Rule>, pid: Pid, info: ProcessInfo, w: World)
    requires w.environs == map[]
    ensures WithEnviron(rules, pid, info, w) == info
  {
  }

  /** What the rules say about an ordinary process. */
  lemma OrdinaryIsJudged(graceEnd: Instant, s: Brain, r: TwoRules, info: ProcessInfo, w: World)
    requires s.rules == r.Rules() && info.pid !in s.focus.pids && r.first != r.second && Ordinary(info) && w.environs == map[]
    requires forall q <- s.table.entries :: Unexcepted(DEFAULT_EXCEPTIONS, s.table.entries[q].info.comm)
    requires info.pid in s.table.entries && s.table.entries[info.pid].info == info
    ensures !Spared(Setting(graceEnd), s, info.pid) && EngineAnswer(Setting(graceEnd), s, info.pid, w) == r.Say(info.comm)
  {
    NotOwnThread(info.comm);
    NothingToRead(s.rules, info.pid, info, w);
    AncestorsUnexcepted(s.table, DEFAULT_EXCEPTIONS, info.pid, 10);
    AnswerOfTwo(r, DEFAULT_EXCEPTIONS, info, s.table.AncestorComms(info.pid, 10));
  }

  /** `u` is `s` after the exec of a process that is given `v`. */
  ghost predicate AfterExec(s: Brain, info: ProcessInfo, v: Option<Action>, w: World, u: Brain) {
    var t := s.table.Insert(info);
    && SameShape(t, u.table)
    && u.table.entries[info.pid] == Judged(t.entries[info.pid], v, Lookup(w.cgroups, info.pid), 0)
    && (forall q <- s.table.entries :: q != info.pid ==> u.table.entries[q] == s.table.entries[q])
    && u.log == s.log + RequestsFor(t, info.pid, v, w)
    && s.managed.Keys <= u.managed.Keys && u.focus == s.focus
  }

  lemma ReclassifyIsRuled(s: Brain, r: TwoRules, info: ProcessInfo, cgroup: string)
    requires Ruled(s, r) && Ordinary(info) && info.pid !in s.focus.pids && r.first != r.second
    ensures var w := ExecOf(info, cgroup).world;
            var u := Reclassify(Setting(0), s, info.pid, w, 0);
            Ruled(u, r) && AfterExec(s, info, r.Say(info.comm), w, u)
  {
    var w := ExecOf(info, cgroup).world;
    OrdinaryIsJudged(0, InsertEntry(s, info), r, info, w);
    ReclassifyGivesVerdict(Setting(0), s, info.pid, w, 0);
    ReclassifyKeepsInv(Setting(0), s, info.pid, w, 0);
  }

  /** An exec in such a state. */
  lemma ExecStep(s: Brain, r: TwoRules, info: ProcessInfo, cgroup: string)
    requires Ruled(s, r) && Ordinary(info) && info.pid !in s.focus.pids && r.first != r.second
    ensures Completes(Setting(0), s, ExecOf(info, cgroup)) && Ruled(Step(Setting(0), s, ExecOf(info, cgroup)), r)
    ensures AfterExec(s, info, r.Say(info.comm), ExecOf(info, cgroup).world, Step(Setting(0), s, ExecOf(info, cgroup)))
  {
    var i := ExecOf(info, cgroup);
    FitsHere(s, EMPTY_WORLD);
    FitsHere(s, i.world);
    ExecIsReclassify(Setting(0), s, info, cgroup);
    ReclassifyIsRuled(s, r, info, cgroup);
  }

  /** `s` is reached from the start by the `inputs`, and is such a state. */
  ghost predicate Comes(r: TwoRules, inputs: seq<Input>, s: Brain) {
    Possible(Setting(0), Start0(r.Rules()), inputs) && s == Run(Setting(0), Start0(r.Rules()), inputs) && Ruled(s, r)
  }

  /** The first exec, with which the grace period ends. */
  lemma FirstExec(r: TwoRules, info: ProcessInfo, cgroup: string) returns (u: Brain)
    requires Ordinary(info) && r.first != r.second
    ensures Comes(r, [ExecOf(info, cgroup)], u)
    ensures AfterExec(InForce(r.Rules()), info, r.Say(info.comm), ExecOf(info, cgroup).world, u)
  {
    var s0, i := Start0(r.Rules()), ExecOf(info, cgroup);
    GraceEndsQuietly(r.Rules());
    ExecStep(InForce(r.Rules()), r, info, cgroup);
    RunThenStep(Setting(0), s0, [], i);
    assert [] + [i] == [i];
    u := Step(Setting(0), InForce(r.Rules()), i);
  }

  lemma NextExec(r: TwoRules, inputs: seq<Input>, s: Brain, info: ProcessInfo, cgroup: string) returns (u: Brain)
    requires Comes(r, inputs, s) && Ordinary(info) && info.pid !in s.focus.pids && r.first != r.second
    ensures Comes(r, inputs + [ExecOf(info, cgroup)], u)
    ensures AfterExec(s, info, r.Say(info.comm), ExecOf(info, cgroup).world, u)
  {
    ExecStep(s, r, info, cgroup);
    RunThenStep(Setting(0), Start0(r.Rules()), inputs, ExecOf(info, cgroup));
    u := Step(Setting(0), s, ExecOf(info, cgroup));
  }

  lemma TwoExecs(r: TwoRules, one: ProcessInfo, from: string, two: ProcessInfo, next: string) returns (s1: Brain, s2: Brain)
    requires Ordinary(one) && Ordinary(two) && r.first != r.second
    ensures AfterExec(InForce(r.Rules()), one, r.Say(one.comm), ExecOf(one, from).world, s1)
    ensures Inv(s1) && AfterExec(s1, two, r.Say(two.comm), ExecOf(two, next).world, s2)
    ensures Comes(r, [ExecOf(one, from)] + [ExecOf(two, next)], s2) && s2.focus.pids == {}
  {
    s1 := FirstExec(r, one, from);
    s2 := NextExec(r, [ExecOf(one, from)], s1, two, next);
  }

  /** The requests for a rule that leaves the children alone. */
  lemma RequestsWithoutChildren(t: Table, pid: Pid, comm: string, cgroup: string, w: World)
    ensures var move := if TierOf(cgroup).Some? then [Move(pid, TierOf(cgroup).value, ByRule)] else [];
            RequestsFor(t, pid, Some(ActionOf(comm, cgroup, false)), w) == [ReadCgroup(pid, Lookup(w.cgroups, pid))] + move
  {
  }

  // ------------------------------------------------------------------------------------------
  // A rule with an unknown tier
  // ------------------------------------------------------------------------------------------

  function SpoiledRun(r: TwoRules, from: string, next: string): seq<Input> {
    [ExecOf(Process(OUTER, 0, r.first), from)] + [ExecOf(Process(OUTER, 0, r.second), next)]
  }

  lemma SpoiledFirst(r: TwoRules, from: string, u: Brain)
    requires r.first != r.second && !r.children && TierOf(r.cgroup).None?
    requires AfterExec(InForce(r.Rules()), Process(OUTER, 0, r.first), r.Say(r.first), ExecOf(Process(OUTER, 0, r.first), from).world, u)
    ensures u.table.entries.Keys == {OUTER} && u.table.OriginalOf(OUTER) == Some(from)
    ensures u.log == [SetProfile(false), Forget({}), ReadCgroup(OUTER, Some(from))]
  {
    var one := Process(OUTER, 0, r.first);
    RequestsWithoutChildren(InForce(r.Rules()).table.Insert(one), OUTER, r.first, r.cgroup, ExecOf(one, from).world);
  }

  lemma SpoiledNext(s: Brain, r: TwoRules, from: string, next: string, u: Brain)
    requires r.first != r.second && TierOf(r.otherCgroup).Some?
    requires s.table.entries.Keys == {OUTER} && s.table.OriginalOf(OUTER) == Some(from)
    requires AfterExec(s, Process(OUTER, 0, r.second), r.Say(r.second), ExecOf(Process(OUTER, 0, r.second), next).world, u)
    ensures u.table.MovedSet() == {OUTER} && u.table.OriginalOf(OUTER) == Some(from)
    ensures u.log == s.log + [ReadCgroup(OUTER, Some(next)), Move(OUTER, TierOf(r.otherCgroup).value, ByRule)]
  {
    var two := Process(OUTER, 0, r.second);
    RequestsWithoutChildren(s.table.Insert(two), OUTER, r.second, r.otherCgroup, ExecOf(two, next).world);
  }

  lemma SpoiledLog(s: Brain, log: Log, from: string, next: string, tier: Tier)
    requires log == [SetProfile(false), Forget({}), ReadCgroup(OUTER, Some(from))]
    requires s.log == log + [ReadCgroup(OUTER, Some(next)), Move(OUTER, tier, ByRule)]
    ensures |s.log| == 5 && FirstOwnMove(s.log, OUTER, 4) && s.log[3] == ReadCgroup(OUTER, Some(next))
  {
  }

  /**
   * A process under a rule whose tier does not exist is not moved, but where it is is put on
   * record.  If it changes its place and is then moved by another rule, the shutdown takes it not
   * to the place that was read right before this, its first move, but to the earlier one.
   */
  lemma UnknownTierSpoilsRecord(r: TwoRules, from: string, next: string) returns (s: Brain)
    requires OrdinaryName(r.first) && OrdinaryName(r.second) && r.first != r.second && !r.children
    requires TierOf(r.cgroup).None? && TierOf(r.otherCgroup).Some? && from != next
    ensures Comes(r, SpoiledRun(r, from, next), s)
    ensures |s.log| == 5 && FirstOwnMove(s.log, OUTER, 4) && s.log[3] == ReadCgroup(OUTER, Some(next))
    ensures Shutdown(s, PIDS, {OUTER}, {from, next}, 2).log == s.log + [Restore(OUTER, from)]
  {
    var s1;
    s1, s := TwoExecs(r, Process(OUTER, 0, r.first), from, Process(OUTER, 0, r.second), next);
    SpoiledFirst(r, from, s1);
    SpoiledNext(s1, r, from, next, s);
    SpoiledLog(s, s1.log, from, next, TierOf(r.otherCgroup).value);
    OneRestore(s, OUTER, from, {from, next});
  }

  /** A table that knows one moved process. */
  lemma OneRestore(s: Brain, pid: Pid, path: string, paths: set<string>)
    requires pid in PIDS && s.table.MovedSet() == {pid} && s.table.OriginalOf(pid) == Some(path) && path in paths
    ensures Shutdown(s, PIDS, {pid}, paths, 2).log == s.log + [Restore(pid, path)]
  {
    assert PIDS[1..] == [INNER] && [INNER][1..] == [];
    assert s.table.Moved([]) == [];
    assert s.table.Moved([INNER]) == if pid == INNER then [(INNER, Some(path))] else [];
    assert s.table.Moved(PIDS) == [(pid, Some(path))];
    assert [(pid, Some(path))][1..] == [];
    assert Restores([(pid, Some(path))], {pid}, paths) == [Restore(pid, path)];
  }

  // ------------------------------------------------------------------------------------------
  // A child moved before it was ever looked at
  // ------------------------------------------------------------------------------------------

  function ChildRun(r: TwoRules, comm: string, from: string, moved: string): seq<Input> {
    [ExecOf(Process(INNER, OUTER, comm), from)] + [ExecOf(Process(OUTER, 0, r.first), from)] +
    [ExecOf(Process(INNER, OUTER, r.second), moved)]
  }

  lemma ChildIsKnown(r: TwoRules, comm: string, from: string, u: Brain)
    requires r.Say(comm).None?
    requires AfterExec(InForce(r.Rules()), Process(INNER, OUTER, comm), None, ExecOf(Process(INNER, OUTER, comm), from).world, u)
    ensures u.table.entries.Keys == {INNER} && u.table.OriginalOf(INNER).None? && u.table.children == map[OUTER := {INNER}]
    ensures u.table.entries[INNER].info.ppid == OUTER && u.log == [SetProfile(false), Forget({})]
  {
    var t := InForce(r.Rules()).table.Insert(Process(INNER, OUTER, comm));
    assert {} + {INNER} == {INNER} && t.children == map[OUTER := {INNER}];
  }

  lemma RequestsWithChild(t: Table, pid: Pid, child: Pid, r: TwoRules, from: string, w: World)
    requires Kids(t.children, pid) == {child} && child in PIDS && child in t.entries && w.childOrder == PIDS
    requires r.children && TierOf(r.cgroup).Some? && pid in w.cgroups && w.cgroups[pid] == from
    ensures RequestsFor(t, pid, Some(ActionOf(r.first, r.cgroup, true)), w) ==
            [ReadCgroup(pid, Some(from)), Move(pid, TierOf(r.cgroup).value, ByRule), Move(child, TierOf(r.cgroup).value, ByParentRule)]
  {
    var a := ActionOf(r.first, r.cgroup, true);
    assert PIDS[1..] == [INNER] && [INNER][1..] == [];
    assert Enumerate({child}, []) == [] && Enumerate({child}, [INNER]) == if child == INNER then [INNER] else [];
    assert Enumerate(Kids(t.children, pid), w.childOrder) == [child];
    assert ChildMoves([], t.entries.Keys, a) == [];
    assert ChildMoves([child], t.entries.Keys, a) == [Move(child, TierOf(r.cgroup).value, ByParentRule)];
  }

  lemma ParentTakesChild(s: Brain, r: TwoRules, from: string, u: Brain)
    requires r.first != r.second && r.children && TierOf(r.cgroup).Some?
    requires s.table.entries.Keys == {INNER} && s.table.OriginalOf(INNER).None? && s.table.children == map[OUTER := {INNER}]
    requires s.table.entries[INNER].info.ppid == OUTER && s.log == [SetProfile(false), Forget({})]
    requires AfterExec(s, Process(OUTER, 0, r.first), r.Say(r.first), ExecOf(Process(OUTER, 0, r.first), from).world, u)
    ensures u.table.entries.Keys == {OUTER, INNER} && u.table.OriginalOf(INNER).None?
    ensures u.table.entries[OUTER].originalCgroup == Some(from) && OUTER in u.table.MovedSet()
    ensures u.log == [SetProfile(false), Forget({}), ReadCgroup(OUTER, Some(from)), Move(OUTER, TierOf(r.cgroup).value, ByRule),
                      Move(INNER, TierOf(r.cgroup).value, ByParentRule)]
  {
    var outer := Process(OUTER, 0, r.first);
    RequestsWithChild(s.table.Insert(outer), OUTER, INNER, r, from, ExecOf(outer, from).world);
  }

  lemma ChildGetsRule(s: Brain, r: TwoRules, from: string, moved: string, u: Brain)
    requires r.first != r.second && TierOf(r.otherCgroup).Some?
    requires s.table.entries.Keys == {OUTER, INNER} && s.table.OriginalOf(INNER).None?
    requires s.table.entries[OUTER].originalCgroup == Some(from) && OUTER in s.table.MovedSet()
    requires AfterExec(s, Process(INNER, OUTER, r.second), r.Say(r.second), ExecOf(Process(INNER, OUTER, r.second), moved).world, u)
    ensures u.table.MovedSet() == {OUTER, INNER}
    ensures u.table.OriginalOf(OUTER) == Some(from) && u.table.OriginalOf(INNER) == Some(moved)
    ensures u.log == s.log + [ReadCgroup(INNER, Some(moved)), Move(INNER, TierOf(r.otherCgroup).value, ByRule)]
  {
    var inner := Process(INNER, OUTER, r.second);
    RequestsWithoutChildren(s.table.Insert(inner), INNER, r.second, r.otherCgroup, ExecOf(inner, moved).world);
  }

  lemma OnlyInnerRestored(s: Brain, from: string, moved: string, paths: set<string>)
    requires s.table.MovedSet() == {OUTER, INNER} && moved in paths
    requires s.table.OriginalOf(OUTER) == Some(from) && s.table.OriginalOf(INNER) == Some(moved)
    ensures Shutdown(s, PIDS, {INNER}, paths, 2).log == s.log + [Restore(INNER, moved)]
  {
    var pairs := [(OUTER, Some(from)), (INNER, Some(moved))];
    assert PIDS[1..] == [INNER] && [INNER][1..] == [];
    assert s.table.Moved([]) == [];
    assert s.table.Moved([INNER]) == [(INNER, Some(moved))];
    assert s.table.Moved(PIDS) == pairs;
    assert pairs[1..] == [(INNER, Some(moved))] && [(INNER, Some(moved))][1..] == [];
    assert Restores([(INNER, Some(moved))], {INNER}, paths) == [Restore(INNER, moved)];
    assert Restores(pairs, {INNER}, paths) == [Restore(INNER, moved)];
    assert UpTo(pairs, 2) == pairs;
  }

  lemma ChildLog(log: Log, tier: Tier, other: Tier, from: string, home: string, tierPath: Tier -> string)
    requires log == [SetProfile(false), Forget({}), ReadCgroup(OUTER, Some(from)), Move(OUTER, tier, ByRule),
                     Move(INNER, tier, ByParentRule)] +
                    [ReadCgroup(INNER, Some(tierPath(tier))), Move(INNER, other, ByRule)]
    ensures OnlyDaemonMoves(log, INNER, home, tierPath)
  {
    assert log[..5][4] == Move(INNER, tier, ByParentRule);
    assert Placement(log[..5], INNER) == Some(tier);
  }

  lemma ChildExecs(r: TwoRules, comm: string, from: string, moved: string) returns (s1: Brain, s2: Brain, s3: Brain)
    requires OrdinaryName(comm) && OrdinaryName(r.first) && OrdinaryName(r.second) && r.first != r.second
    ensures AfterExec(InForce(r.Rules()), Process(INNER, OUTER, comm), r.Say(comm), ExecOf(Process(INNER, OUTER, comm), from).world, s1)
    ensures AfterExec(s1, Process(OUTER, 0, r.first), r.Say(r.first), ExecOf(Process(OUTER, 0, r.first), from).world, s2)
    ensures AfterExec(s2, Process(INNER, OUTER, r.second), r.Say(r.second), ExecOf(Process(INNER, OUTER, r.second), moved).world, s3)
    ensures Comes(r, ChildRun(r, comm, from, moved), s3)
  {
    var first, second, third := Process(INNER, OUTER, comm), Process(OUTER, 0, r.first), Process(INNER, OUTER, r.second);
    s1, s2 := TwoExecs(r, first, from, second, from);
    s3 := NextExec(r, [ExecOf(first, from)] + [ExecOf(second, from)], s2, third, moved);
  }

  /**
   * A child that its parent's rule has moved, and that then gets a rule of its own, is restored to
   * the tier of the parent's rule, wherever it came from.
   */
  lemma ChildIsNotTakenHome(r: TwoRules, comm: string, from: string, home: string, tierPath: Tier -> string) returns (s: Brain)
    requires OrdinaryName(comm) && OrdinaryName(r.first) && OrdinaryName(r.second) && r.first != r.second && comm != r.first && comm != r.second
    requires r.children && TierOf(r.cgroup).Some? && TierOf(r.otherCgroup).Some?
    requires tierPath(TierOf(r.cgroup).value) != home
    ensures Comes(r, ChildRun(r, comm, from, tierPath(TierOf(r.cgroup).value)), s)
    ensures OnlyDaemonMoves(s.log, INNER, home, tierPath)
    ensures var path := tierPath(TierOf(r.cgroup).value);
            path != home && Shutdown(s, PIDS, {INNER}, {home, path}, 2).log == s.log + [Restore(INNER, path)]
  {
    var moved := tierPath(TierOf(r.cgroup).value);
    var s1, s2;
    s1, s2, s := ChildExecs(r, comm, from, moved);
    ChildIsKnown(r, comm, from, s1);
    ParentTakesChild(s1, r, from, s2);
    ChildGetsRule(s2, r, from, moved, s);
    ChildLog(s.log, TierOf(r.cgroup).value, TierOf(r.otherCgroup).value, from, home, tierPath);
    OnlyInnerRestored(s, from, moved, {home, moved});
  }

  // ------------------------------------------------------------------------------------------
  // A record that depends on the order of a hash table
  // ------------------------------------------------------------------------------------------

  const REVERSED: seq<Pid> := [INNER, OUTER]

  function Parent(r: TwoRules): ProcessInfo {
    Process(OUTER, 0, r.first)
  }

  function Child(r: TwoRules): ProcessInfo {
    Process(INNER, OUTER, r.second)
  }

  /** Parent and child are both found by a scan, in this order of the hash table; `found` is read for the child. */
  function BothSeen(r: TwoRules, order: seq<Pid>, from: string, found: string): World {
    World(Snapshot(Some([Numeric(OUTER), Numeric(INNER)]), map[OUTER := Parent(r), INNER := Child(r)]),
          map[OUTER := from, INNER := found], map[], order, PIDS)
  }

  function ScanOf(w: World): Input {
    Given(RescanTick, w)
  }

  lemma MergeTwo(t: Table, a: ProcessInfo, b: ProcessInfo)
    requires a.pid !in t.entries && b.pid !in t.entries && a.pid != b.pid
    ensures t.MergeFresh([a, b]) == t.Insert(a).Insert(b)
  {
    assert [a, b][1..] == [b] && [b][1..] == [];
    assert t.Insert(a).MergeFresh([b]) == t.Insert(a).Insert(b).MergeFresh([]);
  }

  lemma BothFound(r: TwoRules, w: World)
    requires w.proc == BothSeen(r, [], "", "").proc
    ensures FoundBy(InForce(r.Rules()), w) == [Parent(r), Child(r)] && LivePids(w.proc.Entries()) == {OUTER, INNER}
  {
    var dir := [Numeric(OUTER), Numeric(INNER)];
    assert InForce(r.Rules()).table.entries.Keys == {} && w.proc.Entries() == dir;
    assert dir[1..] == [Numeric(INNER)] && [Numeric(INNER)][1..] == [];
    assert Readable([], w.proc.infos, {}) == [];
    assert Readable([Numeric(INNER)], w.proc.infos, {}) == [Child(r)];
  }

  lemma BothInserted(r: TwoRules)
    ensures var t := InForce(r.Rules()).table.Insert(Parent(r)).Insert(Child(r));
            && t.entries == map[OUTER := FreshEntry(Parent(r), None), INNER := FreshEntry(Child(r), None)]
            && t.children == map[0 := {OUTER}, OUTER := {INNER}]
  {
    assert {} + {OUTER} == {OUTER} && {} + {INNER} == {INNER};
  }

  /** The state in which the two are judged. */
  ghost predicate BothAwait(r: TwoRules, m: Brain) {
    && m.table.entries == map[OUTER := FreshEntry(Parent(r), None), INNER := FreshEntry(Child(r), None)]
    && m.table.children == map[0 := {OUTER}, OUTER := {INNER}]
    && m.log == [SetProfile(false), Forget({}), Forget({})] && m.rules == r.Rules() && m.focus.pids == {}
  }

  lemma BothMerged(r: TwoRules, w: World)
    requires w.proc == BothSeen(r, [], "", "").proc
    ensures BothAwait(r, Merged(InForce(r.Rules()), w))
  {
    var t := InForce(r.Rules()).table;
    var grown := t.Insert(Parent(r)).Insert(Child(r));
    BothFound(r, w);
    MergeTwo(t, Parent(r), Child(r));
    BothInserted(r);
    assert grown.Stale({OUTER, INNER}) == {};
    WithoutNothing(grown);
  }

  lemma VerdictsOfTwo(v: Verdicts, a: Pid, b: Pid, va: Option<Action>, vb: Option<Action>)
    requires v.Keys == {a, b} && v[a] == va && v[b] == vb && a != b
    ensures v == map[a := va, b := vb]
  {
  }

  lemma VerdictOfOne(r: TwoRules, m: Brain, info: ProcessInfo, w: World)
    requires BothAwait(r, m) && w.environs == map[] && r.first != r.second && OrdinaryName(r.first) && OrdinaryName(r.second)
    requires info == Parent(r) || info == Child(r)
    ensures info.pid in VerdictsIn(Setting(0), m, w) && VerdictsIn(Setting(0), m, w)[info.pid] == r.Say(info.comm)
  {
    OrdinaryIsJudged(0, m, r, info, w);
  }

  lemma VerdictKeys(cfg: Config, m: Brain, w: World)
    ensures VerdictsIn(cfg, m, w).Keys == m.table.entries.Keys
  {
  }

  lemma BothVerdicts(r: TwoRules, m: Brain, w: World)
    requires BothAwait(r, m) && w.environs == map[] && r.first != r.second && OrdinaryName(r.first) && OrdinaryName(r.second)
    ensures VerdictsIn(Setting(0), m, w) == map[OUTER := r.Say(r.first), INNER := r.Say(r.second)]
  {
    VerdictOfOne(r, m, Parent(r), w);
    VerdictOfOne(r, m, Child(r), w);
    VerdictKeys(Setting(0), m, w);
    VerdictsOfTwo(VerdictsIn(Setting(0), m, w), OUTER, INNER, r.Say(r.first), r.Say(r.second));
  }

  lemma BothTodo(r: TwoRules, m: Brain, w: World)
    requires BothAwait(r, m) && (w.order == PIDS || w.order == REVERSED)
    ensures Todo(m, w) == w.order
  {
    var both := m.table.UnclassifiedSet();
    assert both == {OUTER, INNER};
    EnumerateTwo(both, w.order[0], w.order[1]);
    assert w.order == [w.order[0], w.order[1]];
  }

  lemma EnumerateTwo(s: set<Pid>, a: Pid, b: Pid)
    requires a in s && b in s
    ensures Enumerate(s, [a, b]) == [a, b]
  {
    assert [a, b][1..] == [b] && [b][1..] == [];
    assert Enumerate(s, [b]) == [b];
  }

  lemma RequestsForTwo(t: Table, v: Verdicts, a: Pid, b: Pid, w: World)
    requires a in v && b in v
    ensures RequestsForAll(t, v, [a, b], w) == RequestsFor(t, a, v[a], w) + RequestsFor(t, b, v[b], w)
  {
    assert [a, b][1..] == [b];
    RequestsForOne(t, v, b, w);
  }

  /** What the rules ask for on account of the parent, and of the child. */
  function OuterLog(r: TwoRules, from: string): Log
    requires TierOf(r.cgroup).Some?
  {
    [ReadCgroup(OUTER, Some(from)), Move(OUTER, TierOf(r.cgroup).value, ByRule), Move(INNER, TierOf(r.cgroup).value, ByParentRule)]
  }

  function InnerLog(r: TwoRules, found: string): Log
    requires TierOf(r.otherCgroup).Some?
  {
    [ReadCgroup(INNER, Some(found)), Move(INNER, TierOf(r.otherCgroup).value, ByRule)]
  }

  lemma EachRequests(r: TwoRules, m: Brain, w: World, from: string, found: string)
    requires BothAwait(r, m) && w.cgroups == map[OUTER := from, INNER := found] && w.childOrder == PIDS
    requires r.first != r.second && r.children && TierOf(r.cgroup).Some? && TierOf(r.otherCgroup).Some?
    ensures RequestsFor(m.table, OUTER, r.Say(r.first), w) == OuterLog(r, from)
    ensures RequestsFor(m.table, INNER, r.Say(r.second), w) == InnerLog(r, found)
  {
    RequestsWithChild(m.table, OUTER, INNER, r, from, w);
    RequestsWithoutChildren(m.table, INNER, r.second, r.otherCgroup, w);
  }

  /** The two can be put through the scan in this world. */
  predicate Sees(r: TwoRules, w: World, from: string, found: string) {
    && w == BothSeen(r, w.order, from, found) && (w.order == PIDS || w.order == REVERSED)
    && r.first != r.second && OrdinaryName(r.first) && OrdinaryName(r.second)
    && r.children && TierOf(r.cgroup).Some? && TierOf(r.otherCgroup).Some?
  }

  function BothLog(r: TwoRules, order: seq<Pid>, from: string, found: string): Log
    requires TierOf(r.cgroup).Some? && TierOf(r.otherCgroup).Some?
  {
    [SetProfile(false), Forget({}), Forget({})] +
    if order == PIDS then OuterLog(r, from) + InnerLog(r, found) else InnerLog(r, found) + OuterLog(r, from)
  }

  /** What the scan asks for, in either order. */
  lemma BothRequests(r: TwoRules, m: Brain, v: Verdicts, w: World, from: string, found: string)
    requires BothAwait(r, m) && Sees(r, w, from, found) && v == map[OUTER := r.Say(r.first), INNER := r.Say(r.second)]
    ensures m.log + RequestsForAll(m.table, v, w.order, w) == BothLog(r, w.order, from, found)
  {
    EachRequests(r, m, w, from, found);
    RequestsForTwo(m.table, v, w.order[0], w.order[1], w);
    assert w.order == [w.order[0], w.order[1]];
  }

  lemma BothStand(r: TwoRules, w: World, from: string, found: string)
    requires Sees(r, w, from, found)
    ensures var ready := InForce(r.Rules());
            var m := Merged(ready, w);
            && Core(ready) && Fits(ready, w) && BothAwait(r, m) && Todo(m, w) == w.order
            && VerdictsIn(Setting(0), m, w) == map[OUTER := r.Say(r.first), INNER := r.Say(r.second)]
  {
    GraceEndsQuietly(r.Rules());
    FitsHere(InForce(r.Rules()), w);
    BothMerged(r, w);
    BothVerdicts(r, Merged(InForce(r.Rules()), w), w);
    BothTodo(r, Merged(InForce(r.Rules()), w), w);
  }

  lemma BothAfterScan(r: TwoRules, w: World, from: string, found: string) returns (s: Brain)
    requires Sees(r, w, from, found)
    ensures s == FullScan(Setting(0), InForce(r.Rules()), w, 0)
    ensures s.log == BothLog(r, w.order, from, found) && s.table.MovedSet() == {OUTER, INNER}
    ensures s.table.OriginalOf(OUTER) == Some(from) && s.table.OriginalOf(INNER) == Some(found)
  {
    var ready := InForce(r.Rules());
    var m := Merged(ready, w);
    BothStand(r, w, from, found);
    s := FullScan(Setting(0), ready, w, 0);
    ScanJudgesAtOnce(Setting(0), ready, w, 0);
    BothRequests(r, m, map[OUTER := r.Say(r.first), INNER := r.Say(r.second)], w, from, found);
    BothJudged(r, m, w, from, found, s.table);
  }

  lemma BothJudged(r: TwoRules, m: Brain, w: World, from: string, found: string, u: Table)
    requires BothAwait(r, m) && Sees(r, w, from, found)
    requires TableJudged(m.table, map[OUTER := r.Say(r.first), INNER := r.Say(r.second)], w.order, w, 0, u)
    ensures u.MovedSet() == {OUTER, INNER} && u.OriginalOf(OUTER) == Some(from) && u.OriginalOf(INNER) == Some(found)
  {
    assert OUTER in w.order && INNER in w.order;
  }

  /** The two scanned in the first step of a run. */
  lemma BothRun(r: TwoRules, w: World, from: string, found: string) returns (s: Brain)
    requires Sees(r, w, from, found)
    ensures Possible(Setting(0), Start0(r.Rules()), [ScanOf(w)]) && s == Run(Setting(0), Start0(r.Rules()), [ScanOf(w)])
    ensures s.log == BothLog(r, w.order, from, found) && s.table.MovedSet() == {OUTER, INNER}
    ensures s.table.OriginalOf(OUTER) == Some(from) && s.table.OriginalOf(INNER) == Some(found)
  {
    s := BothAfterScan(r, w, from, found);
    BothStand(r, w, from, found);
    ScanFirst(r.Rules(), w);
  }

  /** A scan with the end of the grace period. */
  lemma ScanFirst(rules: seq<Rule>, w: World)
    requires Fits(InForce(rules), w)
    ensures Possible(Setting(0), Start0(rules), [ScanOf(w)])
    ensures Run(Setting(0), Start0(rules), [ScanOf(w)]) == FullScan(Setting(0), InForce(rules), w, 0)
  {
    ScanStep(rules, w);
    RunThenStep(Setting(0), Start0(rules), [], ScanOf(w));
    assert [] + [ScanOf(w)] == [ScanOf(w)];
  }

  lemma ScanStep(rules: seq<Rule>, w: World)
    requires Fits(InForce(rules), w)
    ensures Completes(Setting(0), Start0(rules), ScanOf(w))
    ensures Step(Setting(0), Start0(rules), ScanOf(w)) == FullScan(Setting(0), InForce(rules), w, 0)
  {
    GraceEndsQuietly(rules);
  }

  lemma BothLogIsDaemonOnly(r: TwoRules, order: seq<Pid>, from: string, home: string, tierPath: Tier -> string, found: string)
    requires TierOf(r.cgroup).Some? && TierOf(r.otherCgroup).Some?
    requires found == if order == PIDS then tierPath(TierOf(r.cgroup).value) else home
    ensures OnlyDaemonMoves(BothLog(r, order, from, found), INNER, home, tierPath)
  {
    var log := BothLog(r, order, from, found);
    if order == PIDS {
      assert log[..6][5] == Move(INNER, TierOf(r.cgroup).value, ByParentRule);
      assert Placement(log[..6], INNER) == Some(TierOf(r.cgroup).value);
    } else {
      assert log[..3][2] == Forget({}) && log[..3][..2][1] == Forget({}) && log[..3][..2][..1][0] == SetProfile(false);
      assert Placement(log[..3][..2][..1], INNER) == Placement(log[..3][..2][..1][..0], INNER) == None;
      assert Placement(log[..3], INNER) == None;
    }
  }

  /**
   * Parent and child are found by the same scan.  If the parent comes first in the hash table, the
   * child is read where the parent's rule has just put it, and restored there at shutdown; if the
   * child comes first, it is restored to where it came from.
   */
  lemma ScanOrderDecidesPlace(r: TwoRules, from: string, home: string, tierPath: Tier -> string) returns (s: Brain, s': Brain)
    requires OrdinaryName(r.first) && OrdinaryName(r.second) && r.first != r.second
    requires r.children && TierOf(r.cgroup).Some? && TierOf(r.otherCgroup).Some?
    ensures var moved := tierPath(TierOf(r.cgroup).value);
            var i, i' := ScanOf(BothSeen(r, PIDS, from, moved)), ScanOf(BothSeen(r, REVERSED, from, home));
            && Possible(Setting(0), Start0(r.Rules()), [i]) && s == Run(Setting(0), Start0(r.Rules()), [i])
            && Possible(Setting(0), Start0(r.Rules()), [i']) && s' == Run(Setting(0), Start0(r.Rules()), [i'])
            && OnlyDaemonMoves(s.log, INNER, home, tierPath) && OnlyDaemonMoves(s'.log, INNER, home, tierPath)
            && Shutdown(s, PIDS, {INNER}, {home, moved}, 2).log == s.log + [Restore(INNER, moved)]
            && Shutdown(s', PIDS, {INNER}, {home, moved}, 2).log == s'.log + [Restore(INNER, home)]
  {
    var moved := tierPath(TierOf(r.cgroup).value);
    s := BothRun(r, BothSeen(r, PIDS, from, moved), from, moved);
    s' := BothRun(r, BothSeen(r, REVERSED, from, home), from, home);
    BothLogIsDaemonOnly(r, PIDS, from, home, tierPath, moved);
    BothLogIsDaemonOnly(r, REVERSED, from, home, tierPath, home);
    OnlyInnerRestored(s, from, moved, {home, moved});
    OnlyInnerRestored(s', from, home, {home, moved});
  }

  // ------------------------------------------------------------------------------------------
  // A record without a rule
  // ------------------------------------------------------------------------------------------

  /** A process that no rule matches any more is still shown as managed. */
  lemma RecordOutlivesRule(r: TwoRules, comm: string, from: string) returns (s: Brain)
    requires OrdinaryName(comm) && OrdinaryName(r.first) && r.first != r.second && comm != r.first && comm != r.second
    ensures Comes(r, [ExecOf(Process(OUTER, 0, r.first), from)] + [ExecOf(Process(OUTER, 0, comm), from)], s)
    ensures OUTER in s.managed && OUTER in s.table.entries && s.table.entries[OUTER].applied.None?
  {
    var s1;
    s1, s := TwoExecs(r, Process(OUTER, 0, r.first), from, Process(OUTER, 0, comm), from);
    RecordIsMade(r, from, s1);
    RuleIsGone(r, comm, from, s1, s);
  }

  lemma RecordIsMade(r: TwoRules, from: string, u: Brain)
    requires Inv(u)
    requires AfterExec(InForce(r.Rules()), Process(OUTER, 0, r.first), r.Say(r.first), ExecOf(Process(OUTER, 0, r.first), from).world, u)
    ensures OUTER in u.managed
  {
    assert u.table.entries[OUTER].applied.Some?;
  }

  lemma RuleIsGone(r: TwoRules, comm: string, from: string, s: Brain, u: Brain)
    requires OUTER in s.managed && r.Say(comm).None?
    requires AfterExec(s, Process(OUTER, 0, comm), None, ExecOf(Process(OUTER, 0, comm), from).world, u)
    ensures OUTER in u.managed && OUTER in u.table.entries && u.table.entries[OUTER].applied.None?
  {
  }

  // ------------------------------------------------------------------------------------------
  // Parents in a circle
  // ------------------------------------------------------------------------------------------

  /** Two processes that were each read as the other's child: a request to focus one never ends. */
  lemma FocusOnCircleNeverEnds(r: TwoRules, a: string, b: string, from: string) returns (s: Brain)
    requires OrdinaryName(a) && OrdinaryName(b) && !IsSessionRoot(a) && !IsSessionRoot(b) && r.first != r.second
    ensures Comes(r, [ExecOf(Process(OUTER, INNER, a), from)] + [ExecOf(Process(INNER, OUTER, b), from)], s)
    ensures OUTER in s.table.entries && !WalkEnds(s.table, OUTER)
    ensures !s.startup && !CanFocus(s, OUTER)
  {
    var s1;
    s1, s := TwoExecs(r, Process(OUTER, INNER, a), from, Process(INNER, OUTER, b), from);
    CircleIsKnown(r, a, b, from, s1, s);
    CircleNeverEnds(s, a, b);
  }

  lemma CircleNeverEnds(s: Brain, a: string, b: string)
    requires OUTER in s.table.entries && s.table.entries[OUTER].info == Process(OUTER, INNER, a)
    requires INNER in s.table.entries && s.table.entries[INNER].info == Process(INNER, OUTER, b)
    requires !IsSessionRoot(a) && !IsSessionRoot(b)
    ensures !WalkEnds(s.table, OUTER) && !CanFocus(s, OUTER)
  {
    TwoCycleNeverEnds(s.table, OUTER, INNER);
  }

  lemma CircleIsKnown(r: TwoRules, a: string, b: string, from: string, s1: Brain, s: Brain)
    requires AfterExec(InForce(r.Rules()), Process(OUTER, INNER, a), r.Say(a), ExecOf(Process(OUTER, INNER, a), from).world, s1)
    requires AfterExec(s1, Process(INNER, OUTER, b), r.Say(b), ExecOf(Process(INNER, OUTER, b), from).world, s)
    ensures OUTER in s.table.entries && s.table.entries[OUTER].info == Process(OUTER, INNER, a)
    ensures INNER in s.table.entries && s.table.entries[INNER].info == Process(INNER, OUTER, b)
  {
  }

  // ------------------------------------------------------------------------------------------
  // A foreground process that a scan misses
  // ------------------------------------------------------------------------------------------

  const FOCUS_OUTER: Input := Given(Control(SetForegroundProcess(OUTER)), EMPTY_WORLD)
  const SCAN_NOTHING: Input := Given(RescanTick, EMPTY_WORLD)

  /** A process without a known parent is focused alone. */
  lemma FocusStepOf(s: Brain, r: TwoRules) returns (u: Brain)
    requires Ruled(s, r) && OUTER in s.table.entries && StopsAt(s.table, OUTER) && !KnownSessionRoot(s.table, OUTER)
    ensures Completes(Setting(0), s, FOCUS_OUTER) && u == Step(Setting(0), s, FOCUS_OUTER) && Ruled(u, r)
    ensures u.table == s.table && OUTER in u.focus.pids && u.focus.pids <= u.table.entries.Keys
  {
    FitsHere(s, EMPTY_WORLD);
    u := HandleForeground(s, OUTER, EMPTY_WORLD);
    ForegroundKeepsInv(s, OUTER, EMPTY_WORLD);
    FocusedAlone(s);
  }

  lemma FocusedAlone(s: Brain)
    requires Agrees(s.table) && !s.startup && OUTER in s.table.entries && StopsAt(s.table, OUTER) && !KnownSessionRoot(s.table, OUTER)
    ensures CanFocus(s, OUTER)
    ensures var u := HandleForeground(s, OUTER, EMPTY_WORLD);
            u.table == s.table && u.rules == s.rules && OUTER in u.focus.pids && u.focus.pids <= u.table.entries.Keys
  {
    assert StopsIn(s.table, OUTER, |s.table.entries|);
    assert AppRoot(s.table, OUTER) == OUTER;
    HintIsForeground(s.focus, s.table, OUTER, PIDS);
  }

  lemma ScanStepOf(s: Brain, r: TwoRules) returns (u: Brain)
    requires Ruled(s, r) && OUTER in s.focus.pids
    ensures Completes(Setting(0), s, SCAN_NOTHING) && u == Step(Setting(0), s, SCAN_NOTHING) && Ruled(u, r)
    ensures OUTER in u.focus.pids && OUTER !in u.table.entries
  {
    FitsHere(s, EMPTY_WORLD);
    ScanKeepsRulesAndFocus(Setting(0), s, EMPTY_WORLD, 0);
    FullScanKeepsInv(Setting(0), s, EMPTY_WORLD, 0);
    assert LivePids([]) == {};
    u := FullScan(Setting(0), s, EMPTY_WORLD, 0);
  }

  lemma FocusRun(r: TwoRules, inputs: seq<Input>, s: Brain) returns (u: Brain)
    requires Comes(r, inputs, s) && OUTER in s.table.entries && StopsAt(s.table, OUTER) && !KnownSessionRoot(s.table, OUTER)
    ensures Comes(r, inputs + [FOCUS_OUTER], u)
    ensures u.table == s.table && OUTER in u.focus.pids && u.focus.pids <= u.table.entries.Keys
  {
    u := FocusStepOf(s, r);
    RunThenStep(Setting(0), Start0(r.Rules()), inputs, FOCUS_OUTER);
  }

  lemma ScanRun(r: TwoRules, inputs: seq<Input>, s: Brain) returns (u: Brain)
    requires Comes(r, inputs, s) && OUTER in s.focus.pids
    ensures Comes(r, inputs + [SCAN_NOTHING], u) && OUTER in u.focus.pids && OUTER !in u.table.entries
  {
    u := ScanStepOf(s, r);
    RunThenStep(Setting(0), Start0(r.Rules()), inputs, SCAN_NOTHING);
  }

  /** A scan that misses a foreground process takes it out of the table, but not out of the foreground. */
  lemma ForegroundOutlivesEntry(r: TwoRules, comm: string, from: string) returns (s: Brain)
    requires OrdinaryName(comm) && !IsSessionRoot(comm) && r.first != r.second
    ensures Comes(r, [ExecOf(Process(OUTER, 0, comm), from)] + [FOCUS_OUTER] + [SCAN_NOTHING], s)
    ensures OUTER in s.focus.pids && OUTER !in s.table.entries && LastNice(s.log, OUTER) == Some(FOCUS_NICE)
  {
    var info := Process(OUTER, 0, comm);
    s := FirstExec(r, info, from);
    s := FocusRun(r, [ExecOf(info, from)], s);
    s := ScanRun(r, [ExecOf(info, from)] + [FOCUS_OUTER], s);
  }

  // ------------------------------------------------------------------------------------------
  // A foreground process that its parent's rule moves
  // ------------------------------------------------------------------------------------------

  lemma FocusedChildIsKnown(r: TwoRules, comm: string, from: string, u: Brain)
    requires AfterExec(InForce(r.Rules()), Process(OUTER, INNER, comm), r.Say(comm), ExecOf(Process(OUTER, INNER, comm), from).world, u)
    ensures u.table.entries.Keys == {OUTER} && u.table.children == map[INNER := {OUTER}]
    ensures u.table.entries[OUTER].info == Process(OUTER, INNER, comm)
  {
    var t := InForce(r.Rules()).table.Insert(Process(OUTER, INNER, comm));
    assert {} + {OUTER} == {OUTER} && t.children == map[INNER := {OUTER}];
  }

  lemma ParentTakesFocused(s: Brain, r: TwoRules, from: string, u: Brain)
    requires s.table.entries.Keys == {OUTER} && s.table.children == map[INNER := {OUTER}] && OUTER in s.focus.pids
    requires r.children && TierOf(r.cgroup).Some?
    requires AfterExec(s, Process(INNER, 0, r.first), r.Say(r.first), ExecOf(Process(INNER, 0, r.first), from).world, u)
    ensures OUTER in u.focus.pids && u.log != [] && u.log[|u.log| - 1] == Move(OUTER, TierOf(r.cgroup).value, ByParentRule)
  {
    var parent := Process(INNER, 0, r.first);
    RequestsWithChild(s.table.Insert(parent), INNER, OUTER, r, from, ExecOf(parent, from).world);
  }

  /** A process in the foreground is moved all the same by a rule that its parent takes its children along with. */
  lemma ParentMovesForeground(r: TwoRules, comm: string, from: string) returns (s: Brain)
    requires OrdinaryName(comm) && OrdinaryName(r.first) && !IsSessionRoot(comm) && r.first != r.second
    requires r.children && TierOf(r.cgroup).Some?
    ensures Comes(r, [ExecOf(Process(OUTER, INNER, comm), from)] + [FOCUS_OUTER] + [ExecOf(Process(INNER, 0, r.first), from)], s)
    ensures OUTER in s.focus.pids && s.log != [] && s.log[|s.log| - 1] == Move(OUTER, TierOf(r.cgroup).value, ByParentRule)
  {
    var child, parent := Process(OUTER, INNER, comm), Process(INNER, 0, r.first);
    var s1 := FirstExec(r, child, from);
    FocusedChildIsKnown(r, comm, from, s1);
    var s2 := FocusRun(r, [ExecOf(child, from)], s1);
    s := NextExec(r, [ExecOf(child, from)] + [FOCUS_OUTER], s2, parent, from);
    ParentTakesFocused(s2, r, from, s);
  }

  // ------------------------------------------------------------------------------------------
  // A process marked during the grace period
  // ------------------------------------------------------------------------------------------

  function ScanFinding(info: ProcessInfo, cgroup: string): Input {
    Input(1, GcTick, EMPTY_WORLD, WorldOf(Some([Numeric(info.pid)]), map[info.pid := info], map[info.pid := cgroup]))
  }

  /** Still in the grace period, with one process that was marked. */
  ghost predicate MarkedOnly(s: Brain, r: TwoRules, info: ProcessInfo) {
    && Inv(s) && s.startup && s.rules == r.Rules() && s.table.entries.Keys == {info.pid} && s.focus.pids == {}
    && s.table.entries[info.pid] == FreshEntry(info, None).(classified := true)
  }

  /** In force, and the process has no rule. */
  ghost predicate Skipped(s: Brain, r: TwoRules, info: ProcessInfo) {
    && !s.startup && s.rules == r.Rules() && s.focus.pids == {}
    && s.table.entries.Keys == {info.pid} && s.table.entries[info.pid] == FreshEntry(info, None).(classified := true)
  }

  lemma SkippedHasRule(s: Brain, r: TwoRules, info: ProcessInfo, w: World)
    requires Skipped(s, r, info) && Ordinary(info) && info.comm == r.first != r.second && w.environs == map[]
    ensures !Spared(Setting(1), s, info.pid) && EngineAnswer(Setting(1), s, info.pid, w).Some?
  {
    OrdinaryIsJudged(1, s, r, info, w);
  }

  lemma MarkedByExec(s: Brain, r: TwoRules, info: ProcessInfo, cgroup: string)
    requires s == Entering(Setting(1), r.Rules(), None, 0) && Ordinary(info)
    ensures Inv(s) && Completes(Setting(1), s, ExecOf(info, cgroup))
    ensures Step(Setting(1), s, ExecOf(info, cgroup)) == InsertMarked(s, info.pid, ExecOf(info, cgroup).world)
  {
    EnteringIsInv(Setting(1), r.Rules(), None, 0);
    FitsHere(s, EMPTY_WORLD);
    FitsHere(s, ExecOf(info, cgroup).world);
  }

  lemma MarkedIsMarked(s: Brain, r: TwoRules, info: ProcessInfo, w: World)
    requires Inv(s) && s == Entering(Setting(1), r.Rules(), None, 0) && Ordinary(info)
    requires w.proc.infos == map[info.pid := info]
    ensures MarkedOnly(InsertMarked(s, info.pid, w), r, info)
  {
    InsertMarkedKeepsInv(s, info.pid, w);
  }

  lemma MarkedStep(r: TwoRules, info: ProcessInfo, cgroup: string) returns (u: Brain)
    requires Ordinary(info)
    ensures Possible(Setting(1), Entering(Setting(1), r.Rules(), None, 0), [ExecOf(info, cgroup)])
    ensures u == Run(Setting(1), Entering(Setting(1), r.Rules(), None, 0), [ExecOf(info, cgroup)])
    ensures MarkedOnly(u, r, info)
  {
    var s0, i := Entering(Setting(1), r.Rules(), None, 0), ExecOf(info, cgroup);
    MarkedByExec(s0, r, info, cgroup);
    MarkedIsMarked(s0, r, info, i.world);
    u := InsertMarked(s0, info.pid, i.world);
    RunThenStep(Setting(1), s0, [], i);
    assert [] + [i] == [i];
  }

  lemma ScanKeepsRulesAndFocus(cfg: Config, s: Brain, w: World, now: Instant)
    requires Core(s) && Fits(s, w) && !s.startup
    ensures FullScan(cfg, s, w, now).rules == s.rules && FullScan(cfg, s, w, now).focus == s.focus
  {
    ScanJudgesAtOnce(cfg, s, w, now);
  }

  lemma SkippedByScan(s: Brain, r: TwoRules, info: ProcessInfo, cgroup: string)
    requires MarkedOnly(s, r, info) && Ordinary(info)
    ensures var u := EndGrace(Setting(1), s, ScanFinding(info, cgroup).scanWorld, 1);
            Skipped(u, r, info)
  {
    var w, g := ScanFinding(info, cgroup).scanWorld, s.(startup := false);
    FitsHere(s, w);
    assert LivePids([Numeric(info.pid)]) == {info.pid};
    FullScanKeepsInv(Setting(1), g, w, 1);
    ScanJudges(Setting(1), g, w, 1, info.pid);
    MergedEntry(g, w, info.pid);
    ScanKeepsRulesAndFocus(Setting(1), g, w, 1);
  }

  lemma SkippedAfterStep(s: Brain, r: TwoRules, info: ProcessInfo, cgroup: string) returns (u: Brain)
    requires MarkedOnly(s, r, info) && Ordinary(info)
    ensures Completes(Setting(1), s, ScanFinding(info, cgroup))
    ensures u == Step(Setting(1), s, ScanFinding(info, cgroup)) && Skipped(u, r, info)
  {
    var i := ScanFinding(info, cgroup);
    SkippedByScan(s, r, info, cgroup);
    FitsHere(s, i.scanWorld);
    var ready := EndGrace(Setting(1), s, i.scanWorld, 1);
    FitsHere(ready, i.world);
    u := ready.(forkbomb := ready.forkbomb.Gc(1));
    CollectionStep(Setting(1), s, i);
  }

  lemma CollectionStep(cfg: Config, s: Brain, i: Input)
    requires i.event.GcTick?
    ensures var ready := EndGrace(cfg, s, i.scanWorld, i.now); Step(cfg, s, i) == ready.(forkbomb := ready.forkbomb.Gc(i.now))
  {
  }

  /**
   * A process that starts during the grace period and has a rule in force comes out of the scan
   * that ends the period without it.
   */
  lemma MarkedInGraceIsSkipped(r: TwoRules, cgroup: string) returns (s: Brain)
    requires OrdinaryName(r.first) && r.first != r.second
    ensures var s0, info := Entering(Setting(1), r.Rules(), None, 0), Process(OUTER, 0, r.first);
            var inputs := [ExecOf(info, cgroup)] + [ScanFinding(info, cgroup)];
            Possible(Setting(1), s0, inputs) && s == Run(Setting(1), s0, inputs)
    ensures !s.startup && OUTER in s.table.entries && s.table.entries[OUTER].applied.None? && !Spared(Setting(1), s, OUTER)
    ensures EngineAnswer(Setting(1), s, OUTER, ScanFinding(Process(OUTER, 0, r.first), cgroup).scanWorld).Some?
  {
    var s0, info := Entering(Setting(1), r.Rules(), None, 0), Process(OUTER, 0, r.first);
    var s1 := MarkedStep(r, info, cgroup);
    s := SkippedAfterStep(s1, r, info, cgroup);
    RunThenStep(Setting(1), s0, [ExecOf(info, cgroup)], ScanFinding(info, cgroup));
    SkippedHasRule(s, r, info, ScanFinding(info, cgroup).scanWorld);
  }
}
