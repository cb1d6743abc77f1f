/**
 * What every step of the daemon keeps: the agreement of table and index with their history, the
 * managed records, the quiet of the grace period, the boosts and places of the foreground, and the
 * undo record as the first cgroup read in a lifetime.
 */
module DaemonInvariants {
  import opened Wrappers
  import opened Types
  import opened Effects
  import opened ProcessTables
  import opened Foreground
  import opened ForkBombs
  import opened Rules
  import opened RuleLoading
  import opened Scanning
  import opened DaemonSpec

  // ------------------------------------------------------------------------------------------
  // The invariants
  // ------------------------------------------------------------------------------------------

  /** The managed map speaks of known processes, and truly of every process with an applied rule. */
  ghost predicate Recorded(s: Brain) {
    && s.managed.Keys <= s.table.entries.Keys
    && forall p <- s.table.entries :: s.table.entries[p].applied.Some? ==>
         p in s.managed && s.managed[p] == Managing(p, s.table.entries[p].info, s.table.entries[p].applied.value)
  }

  /** No rule is applied to a process that awaits its classification. */
  ghost predicate Bare(t: Table) {
    forall p <- t.entries :: !t.entries[p].classified ==> t.entries[p].applied.None?
  }

  predicate ByARule(e: Effect) {
    || (e.SetNice? && e.cause == ByRule)
    || (e.Move? && (e.cause == ByRule || e.cause == ByParentRule))
    || e.SetSched? || e.SetOom? || e.ReadCgroup?
  }

  /** During the grace period no rule has had any effect. */
  ghost predicate Quiet(s: Brain) {
    s.startup ==>
      && s.managed == map[] && s.focus.pids == {}
      && (forall p <- s.table.entries :: s.table.entries[p].applied.None? && s.table.entries[p].recheckAt.None?)
      && (forall e <- s.log :: !ByARule(e))
  }

  /** The foreground has its boost, and nothing else has one from the tracker. */
  ghost predicate Boosted(s: Brain) {
    BoostFollowsFocus(s.focus, s.log) && BoostStands(s.focus, s.log) && PlaceStands(s.focus, s.log)
  }

  /** The undo record of every process is the first cgroup read in its current lifetime. */
  ghost predicate Undoable(s: Brain) {
    && (forall p: Pid :: s.table.OriginalOf(p) == FirstRead(s.log, p))
    && ReadBeforeRuleMove(s.log)
  }

  /** The scheduling profile last set is that of the power source. */
  ghost predicate Profiled(s: Brain) {
    LastProfile(s.log) == s.battery
  }

  /** Every process under a rule with a cgroup has been asked for its cgroup in this lifetime. */
  ghost predicate MovedAsked(s: Brain) {
    forall p <- s.table.MovedSet() :: Asked(s.log, p)
  }

  ghost predicate Core(s: Brain) {
    && MovedAsked(s) && Profiled(s) && Agrees(s.table) && Bare(s.table) && Recorded(s) && Quiet(s) && Boosted(s) && Undoable(s)
    && s.mode == ModeOf(s.level)
  }

  /** After the grace period, only what a pressure recovery has reset awaits classification. */
  ghost predicate Settled(s: Brain) {
    !s.startup ==> s.table.UnclassifiedSet() <= s.reset
  }

  ghost predicate Inv(s: Brain) {
    Core(s) && Settled(s)
  }

  /** More requests that forget none of the processes under a rule. */
  lemma MovedStayAsked(s: Brain, issued: Log, moved: set<Pid>)
    requires MovedAsked(s) && moved <= s.table.MovedSet() && forall p <- moved :: NoForget(issued, p)
    ensures forall p <- moved :: Asked(s.log + issued, p)
  {
    forall p | p in moved ensures Asked(s.log + issued, p) { AskedStays(s.log, issued, p); }
  }

  // ------------------------------------------------------------------------------------------
  // Requests that concern neither rules nor the focus
  // ------------------------------------------------------------------------------------------

  /** A move by a throttle, by pressure or by command. */
  predicate IsPlain(e: Effect) {
    e.Move? && e.cause != ByRule && e.cause != ByParentRule && e.cause != ByFocus
  }

  ghost predicate Plain(log: Log) {
    forall e <- log :: IsPlain(e)
  }

  /** Such moves and changes of the profile leave everything else alone. */
  lemma PlainLogKeepsBooks(s: Brain, issued: Log, battery: Option<bool>)
    requires Core(s) && (forall e <- issued :: IsPlain(e) || e.SetProfile?) && LastProfile(s.log + issued) == battery
    ensures Core(s.(log := s.log + issued, battery := battery))
  {
    MovedStayAsked(s, issued, s.table.MovedSet());
    PlacesStay(s.focus, s.log, issued, s.focus);
    RuleWritesKeepBoosts(s.focus, s.log, issued);
    forall i | 0 <= i < |issued| ensures !(issued[i].Move? && issued[i].cause == ByRule) { assert issued[i] in issued; }
    ReadBeforeRuleMoveConcat(s.log, issued);
    forall p: Pid ensures FirstRead(s.log + issued, p) == FirstRead(s.log, p) {
      FoldOfConcat(None, s.log, issued, p);
      NoReadKeepsFirst(FirstRead(s.log, p), issued, p);
    }
  }

  lemma PlainLogKeepsCore(s: Brain, issued: Log)
    requires Core(s) && Plain(issued)
    ensures Core(s.(log := s.log + issued))
  {
    ProfileStays(s.log, issued);
    PlainLogKeepsBooks(s, issued, s.battery);
  }

  // ------------------------------------------------------------------------------------------
  // The requests of a rule
  // ------------------------------------------------------------------------------------------

  lemma {:induction false} ChildMovesFacts(children: seq<Pid>, known: set<Pid>, a: Action)
    ensures forall e <- ChildMoves(children, known, a) :: e.Move? && e.cause == ByParentRule
  {
    if children != [] { ChildMovesFacts(children[1..], known, a); }
  }

  /** A nice, scheduling or oom request for `pid`, made by a rule. */
  predicate OwnSetting(e: Effect, pid: Pid) {
    (e.SetNice? && e.pid == pid && e.cause == ByRule) || (e.SetSched? && e.pid == pid) || (e.SetOom? && e.pid == pid)
  }

  lemma SettingsFacts(pid: Pid, a: Action)
    ensures forall e <- NiceRequest(pid, a) + SchedRequest(pid, a) + OomRequest(pid, a) :: OwnSetting(e, pid)
  {
    var nice, sched, oom := NiceRequest(pid, a), SchedRequest(pid, a), OomRequest(pid, a);
    assert forall e <- sched :: e.SetSched? && e.pid == pid;
    assert forall e <- nice + sched + oom :: e in nice || e in sched || e in oom;
  }

  /** The move, if any, is the first of the requests; settings of the same process follow. */
  lemma RequestsFacts(pid: Pid, a: Action)
    ensures forall i :: 0 <= i < |Requests(pid, a)| ==>
                          OwnSetting(Requests(pid, a)[i], pid) ||
                          (i == 0 && a.cgroup.Some? && Requests(pid, a)[0].Move? && Requests(pid, a)[0].pid == pid &&
                           Requests(pid, a)[0].cause == ByRule)
  {
    var move: Log := CgroupMove(pid, a, ByRule);
    var settings: Log := NiceRequest(pid, a) + SchedRequest(pid, a) + OomRequest(pid, a);
    SettingsFacts(pid, a);
    forall i | 0 <= i < |move + settings| && i >= |move| ensures OwnSetting((move + settings)[i], pid) {
      assert (move + settings)[i] == settings[i - |move|];
    }
  }

  /** A read if any, the requests for `pid`, and moves of its children. */
  ghost predicate Shaped(read: Log, requests: Log, moves: Log, pid: Pid) {
    && |read| <= 1 && (read != [] ==> read[0].ReadCgroup? && read[0].pid == pid)
    && (forall i :: 0 <= i < |requests| ==>
          OwnSetting(requests[i], pid) ||
          (i == 0 && read != [] && requests[0].Move? && requests[0].pid == pid && requests[0].cause == ByRule))
    && (forall i :: 0 <= i < |moves| ==> moves[i].Move? && moves[i].cause == ByParentRule)
  }

  lemma ShapeParts(read: Log, requests: Log, moves: Log)
    ensures var log := read + requests + moves;
            forall i :: 0 <= i < |log| ==>
              log[i] == if i < |read| then read[i] else if i < |read| + |requests| then requests[i - |read|]
                        else moves[i - |read| - |requests|]
  {
  }

  lemma ShapeFacts(read: Log, requests: Log, moves: Log, pid: Pid)
    requires Shaped(read, requests, moves, pid)
    ensures NoFocusNice(read + requests + moves) && ReadBeforeRuleMove(read + requests + moves)
    ensures NoProfile(read + requests + moves) && forall q: Pid :: NoForget(read + requests + moves, q)
  {
    ShapeParts(read, requests, moves);
  }

  lemma ShapeSpares(read: Log, requests: Log, moves: Log, pid: Pid)
    requires Shaped(read, requests, moves, pid)
    ensures forall q: Pid :: q != pid ==> NoNice(read + requests + moves, q) && NoReadNorForget(read + requests + moves, q)
    ensures forall q: Pid :: q != pid ==> NoPlace(read + requests + moves, q)
  {
    ShapeParts(read, requests, moves);
  }

  lemma ShapeReads(read: Log, requests: Log, moves: Log, pid: Pid, original: Option<string>)
    requires Shaped(read, requests, moves, pid)
    ensures FoldRead(original, read + requests + moves, pid) == FoldRead(original, read, pid)
  {
    var first := FoldRead(original, read, pid);
    FoldOfConcat(original, read + requests, moves, pid);
    FoldOfConcat(original, read, requests, pid);
    NoReadKeepsFirst(first, requests, pid);
    NoReadKeepsFirst(first, moves, pid);
  }

  function MovesOfChildren(t: Table, pid: Pid, a: Action, w: World): Log {
    if a.applyToChildren then ChildMoves(Enumerate(Kids(t.children, pid), w.childOrder), t.entries.Keys, a) else []
  }

  lemma IssuedIsShaped(t: Table, pid: Pid, a: Action, w: World)
    ensures Issued(t, pid, a, w) == CgroupRead(pid, a, w) + Requests(pid, a) + MovesOfChildren(t, pid, a, w)
    ensures Shaped(CgroupRead(pid, a, w), Requests(pid, a), MovesOfChildren(t, pid, a, w), pid)
  {
    RequestsFacts(pid, a);
    ChildMovesFacts(Enumerate(Kids(t.children, pid), w.childOrder), t.entries.Keys, a);
  }

  /** What the requests of a rule leave alone. */
  lemma IssuedFacts(t: Table, pid: Pid, a: Action, w: World)
    ensures NoFocusNice(Issued(t, pid, a, w)) && ReadBeforeRuleMove(Issued(t, pid, a, w))
    ensures NoProfile(Issued(t, pid, a, w)) && forall q: Pid :: NoForget(Issued(t, pid, a, w), q)
    ensures forall q: Pid :: q != pid ==> NoNice(Issued(t, pid, a, w), q) && NoReadNorForget(Issued(t, pid, a, w), q)
    ensures forall q: Pid :: q != pid ==> NoPlace(Issued(t, pid, a, w), q)
  {
    IssuedIsShaped(t, pid, a, w);
    ShapeFacts(CgroupRead(pid, a, w), Requests(pid, a), MovesOfChildren(t, pid, a, w), pid);
    ShapeSpares(CgroupRead(pid, a, w), Requests(pid, a), MovesOfChildren(t, pid, a, w), pid);
  }

  /** The undo record after the requests of a rule is what the table stores. */
  lemma IssuedReads(t: Table, pid: Pid, a: Action, w: World, original: Option<string>)
    ensures FoldRead(original, Issued(t, pid, a, w), pid) ==
            if original.None? && a.cgroup.Some? && pid in w.cgroups then Some(w.cgroups[pid]) else original
  {
    IssuedIsShaped(t, pid, a, w);
    var read := CgroupRead(pid, a, w);
    ShapeReads(read, Requests(pid, a), MovesOfChildren(t, pid, a, w), pid, original);
    if a.cgroup.Some? { assert read[..0] == []; }
  }

  // ------------------------------------------------------------------------------------------
  // Marking and applying
  // ------------------------------------------------------------------------------------------

  lemma MarkKeepsCore(s: Brain, pid: Pid)
    requires Core(s)
    ensures Core(Mark(s, pid))
  {
    ExecAgrees(s.table, OpMark(pid));
  }

  lemma ApplyKeepsTable(t: Table, pid: Pid, a: Action, w: World, now: Instant)
    requires Agrees(t) && pid in t.entries
    ensures var u := WithOriginal(t, pid, a, w).SetApplied(pid, a, now);
            && Agrees(u) && u.entries.Keys == t.entries.Keys && u.children == t.children
            && (forall q <- t.entries :: u.entries[q].info == t.entries[q].info)
            && (forall q <- t.entries :: q != pid ==> u.entries[q] == t.entries[q])
            && u.entries[pid].applied == Some(a) && u.entries[pid].classified
            && u.OriginalOf(pid) ==
               if t.OriginalOf(pid).None? && a.cgroup.Some? && pid in w.cgroups then Some(w.cgroups[pid]) else t.OriginalOf(pid)
  {
    if a.cgroup.Some? && pid in w.cgroups { ExecAgrees(t, OpOriginal(pid, w.cgroups[pid])); }
    ExecAgrees(WithOriginal(t, pid, a, w), OpApplied(pid, a, now));
  }

  lemma ApplyKeepsBooks(s: Brain, pid: Pid, a: Action, w: World)
    requires Core(s) && pid !in s.focus.pids
    ensures var log := s.log + Issued(s.table, pid, a, w);
            && BoostFollowsFocus(s.focus, log) && BoostStands(s.focus, log) && PlaceStands(s.focus, log) && ReadBeforeRuleMove(log)
            && forall p: Pid :: FirstRead(log, p) ==
                 if p == pid && s.table.OriginalOf(p).None? && a.cgroup.Some? && pid in w.cgroups then Some(w.cgroups[pid])
                 else s.table.OriginalOf(p)
  {
    var issued := Issued(s.table, pid, a, w);
    IssuedFacts(s.table, pid, a, w);
    RuleWritesKeepBoosts(s.focus, s.log, issued);
    PlacesStay(s.focus, s.log, issued, s.focus);
    ReadBeforeRuleMoveConcat(s.log, issued);
    forall p: Pid
      ensures FirstRead(s.log + issued, p) ==
              if p == pid && s.table.OriginalOf(p).None? && a.cgroup.Some? && pid in w.cgroups then Some(w.cgroups[pid])
              else s.table.OriginalOf(p)
    {
      FoldOfConcat(None, s.log, issued, p);
      if p == pid {
        IssuedReads(s.table, pid, a, w, FirstRead(s.log, p));
      } else {
        NoReadKeepsFirst(FirstRead(s.log, p), issued, p);
      }
    }
  }

  lemma ApplyKeepsRecords(s: Brain, pid: Pid, info: ProcessInfo, a: Action, w: World, now: Instant)
    requires Agrees(s.table) && Recorded(s) && pid in s.table.entries && s.table.entries[pid].info == info
    ensures Agrees(Apply(s, pid, info, a, w, now).table) && Recorded(Apply(s, pid, info, a, w, now))
  {
    ApplyKeepsTable(s.table, pid, a, w, now);
  }

  lemma ApplyKeepsUndo(s: Brain, pid: Pid, info: ProcessInfo, a: Action, w: World, now: Instant)
    requires Core(s) && pid in s.table.entries && pid !in s.focus.pids
    ensures Undoable(Apply(s, pid, info, a, w, now)) && Boosted(Apply(s, pid, info, a, w, now))
  {
    var u := Apply(s, pid, info, a, w, now);
    ApplyKeepsTable(s.table, pid, a, w, now);
    ApplyKeepsBooks(s, pid, a, w);
    forall p: Pid ensures u.table.OriginalOf(p) == FirstRead(u.log, p) {}
  }

  lemma ApplyKeepsAsked(s: Brain, pid: Pid, info: ProcessInfo, a: Action, w: World, now: Instant)
    requires Core(s) && pid in s.table.entries
    ensures MovedAsked(Apply(s, pid, info, a, w, now))
  {
    var u, issued := Apply(s, pid, info, a, w, now), Issued(s.table, pid, a, w);
    ApplyKeepsTable(s.table, pid, a, w, now);
    IssuedFacts(s.table, pid, a, w);
    MovedStayAsked(s, issued, u.table.MovedSet() - {pid});
    if a.cgroup.Some? { AskedFirst(s.log, issued, pid); }
  }

  lemma ApplyKeepsCore(s: Brain, pid: Pid, info: ProcessInfo, a: Action, w: World, now: Instant)
    requires Core(s) && !s.startup && pid in s.table.entries && s.table.entries[pid].info == info && pid !in s.focus.pids
    ensures Core(Apply(s, pid, info, a, w, now))
  {
    ApplyKeepsRecords(s, pid, info, a, w, now);
    ApplyKeepsUndo(s, pid, info, a, w, now);
    ApplyKeepsAsked(s, pid, info, a, w, now);
    IssuedFacts(s.table, pid, a, w);
    ProfileStays(s.log, Issued(s.table, pid, a, w));
  }

  lemma ClassifyKeepsCore(cfg: Config, s: Brain, pid: Pid, info: ProcessInfo, w: World, now: Instant)
    requires Core(s) && !s.startup && pid in s.table.entries && s.table.entries[pid].info == info
    ensures Core(ClassifyAndApply(cfg, s, pid, info, w, now))
  {
    var d := Decision(cfg, s, pid, info, w);
    if d.None? { MarkKeepsCore(s, pid); } else { ApplyKeepsCore(s, pid, info, d.value, w, now); }
  }

  /** A classification classifies its process and touches no other entry. */
  lemma ClassifyFrame(cfg: Config, s: Brain, pid: Pid, info: ProcessInfo, w: World, now: Instant)
    requires Agrees(s.table) && pid in s.table.entries
    ensures var u := ClassifyAndApply(cfg, s, pid, info, w, now);
            && u.table.entries.Keys == s.table.entries.Keys && u.table.entries[pid].classified
            && (forall q <- s.table.entries :: u.table.entries[q].info == s.table.entries[q].info)
            && (forall q <- s.table.entries :: q != pid ==> u.table.entries[q] == s.table.entries[q])
            && u.reset == s.reset && u.startup == s.startup && u.focus == s.focus
  {
    var d := Decision(cfg, s, pid, info, w);
    if d.Some? { ApplyKeepsTable(s.table, pid, d.value, w, now); }
  }

  // ------------------------------------------------------------------------------------------
  // Inserting and removing
  // ------------------------------------------------------------------------------------------

  lemma InsertKeepsCore(s: Brain, info: ProcessInfo)
    requires Core(s)
    ensures Core(InsertEntry(s, info))
  {
    InsertAgrees(s.table, info);
    var u := InsertEntry(s, info);
    forall p: Pid ensures u.table.OriginalOf(p) == FirstRead(u.log, p) { assert u.table.OriginalOf(p) == s.table.OriginalOf(p); }
  }

  lemma ForgetReads(log: Log, pids: set<Pid>, p: Pid)
    ensures FirstRead(log + [Forget(pids)], p) == if p in pids then None else FirstRead(log, p)
    ensures LastNice(log + [Forget(pids)], p) == LastNice(log, p)
    ensures LastFocusNice(log + [Forget(pids)], p) == LastFocusNice(log, p)
  {
    assert (log + [Forget(pids)])[..|log|] == log;
  }

  lemma RemoveKeepsMaps(s: Brain, pid: Pid)
    requires Core(s)
    ensures var u := RemoveEntry(s, pid);
            && Agrees(u.table) && Bare(u.table) && Recorded(u) && Quiet(u) && u.table.MovedSet() <= s.table.MovedSet() - {pid}
  {
    RemoveAgrees(s.table, pid);
  }

  lemma ForgetKeepsAccounts(s: Brain, pid: Pid)
    requires Core(s) && pid in s.table.entries
    ensures var u := RemoveEntry(s, pid); Boosted(u) && Undoable(u)
  {
    var u := RemoveEntry(s, pid);
    ForgetKeepsBooks(s, {pid});
    forall p: Pid ensures u.table.OriginalOf(p) == FirstRead(u.log, p) {}
  }

  lemma RemoveKeepsCore(s: Brain, pid: Pid)
    requires Core(s)
    ensures Core(RemoveEntry(s, pid))
  {
    var u := RemoveEntry(s, pid);
    RemoveKeepsMaps(s, pid);
    if pid in s.table.entries {
      ForgetKeepsAccounts(s, pid);
      MovedStayAsked(s, [Forget({pid})], u.table.MovedSet());
    } else {
      assert u.log == s.log && u.managed == s.managed && u.table.entries == s.table.entries;
    }
  }

  lemma ExitKeepsCore(s: Brain, pid: Pid)
    requires Core(s)
    ensures Core(HandleExit(s, pid))
  {
    var (f, issued) := OnExit(s.focus, pid);
    OnExitKeepsBoosts(s.focus, pid, s.log);
    PlacesStay(s.focus, s.log, issued, f);
    ProfileStays(s.log, issued);
    MovedStayAsked(s, issued, s.table.MovedSet());
    ReadBeforeRuleMoveConcat(s.log, issued);
    forall p: Pid ensures FirstRead(s.log + issued, p) == FirstRead(s.log, p) {
      FoldOfConcat(None, s.log, issued, p);
      NoReadKeepsFirst(FirstRead(s.log, p), issued, p);
    }
    RemoveKeepsCore(s.(focus := f, log := s.log + issued), pid);
  }

  // ------------------------------------------------------------------------------------------
  // Scans
  // ------------------------------------------------------------------------------------------

  /** Merging adds unclassified entries with nothing applied, and leaves the known ones alone. */
  lemma {:induction false} MergeFreshAdds(t: Table, found: seq<ProcessInfo>)
    ensures var u := t.MergeFresh(found);
            && t.entries.Keys <= u.entries.Keys
            && (forall p <- t.entries :: u.entries[p] == t.entries[p])
            && (forall p <- u.entries :: p !in t.entries ==> u.entries[p] == FreshEntry(u.entries[p].info, None))
    decreases |found|
  {
    if found != [] {
      MergeFreshAdds(if found[0].pid in t.entries then t else t.Insert(found[0]), found[1..]);
    }
  }

  /** Forgetting lifetimes touches no nice value, no place and no other record. */
  lemma ForgetKeepsBooks(s: Brain, gone: set<Pid>)
    requires Core(s)
    ensures var log := s.log + [Forget(gone)];
            && BoostFollowsFocus(s.focus, log) && BoostStands(s.focus, log) && PlaceStands(s.focus, log) && ReadBeforeRuleMove(log)
            && forall p: Pid :: FirstRead(log, p) == if p in gone then None else s.table.OriginalOf(p)
  {
    PlacesStay(s.focus, s.log, [Forget(gone)], s.focus);
    ReadBeforeRuleMoveConcat(s.log, [Forget(gone)]);
    forall p: Pid
      ensures FirstRead(s.log + [Forget(gone)], p) == if p in gone then None else s.table.OriginalOf(p)
      ensures LastNice(s.log + [Forget(gone)], p) == LastNice(s.log, p)
      ensures LastFocusNice(s.log + [Forget(gone)], p) == LastFocusNice(s.log, p)
    {
      ForgetReads(s.log, gone, p);
      assert s.table.OriginalOf(p) == FirstRead(s.log, p);
    }
  }

  /** The entries that the listing does not show. */
  function GoneFrom(s: Brain, w: World): set<Pid> {
    s.table.MergeFresh(FoundBy(s, w)).Stale(LivePids(w.proc.Entries()))
  }

  lemma MergedKeepsMaps(s: Brain, w: World)
    requires Core(s)
    ensures var u := Merged(s, w);
            && Agrees(u.table) && Bare(u.table) && Recorded(u) && Quiet(u)
            && u.table.entries.Keys <= LivePids(w.proc.Entries())
            && u.table.MovedSet() <= s.table.MovedSet() - GoneFrom(s, w)
            && forall p: Pid :: u.table.OriginalOf(p) == if p in GoneFrom(s, w) then None else s.table.OriginalOf(p)
  {
    MergeScanAgrees(s.table, FoundBy(s, w), LivePids(w.proc.Entries()));
    MergeFreshAdds(s.table, FoundBy(s, w));
  }

  lemma MergedKeepsCore(s: Brain, w: World)
    requires Core(s)
    ensures Core(Merged(s, w)) && Merged(s, w).table.entries.Keys <= LivePids(w.proc.Entries())
  {
    MergedKeepsMaps(s, w);
    MovedStayAsked(s, [Forget(GoneFrom(s, w))], Merged(s, w).table.MovedSet());
    ForgetKeepsBooks(s, GoneFrom(s, w));
  }

  lemma {:induction false} ClassifyEachKeepsCore(cfg: Config, s: Brain, todo: seq<Pid>, w: World, now: Instant)
    requires Core(s) && !s.startup
    ensures var u := ClassifyEach(cfg, s, todo, w, now);
            && Core(u) && u.startup == s.startup && u.reset == s.reset && u.focus == s.focus
            && u.table.entries.Keys == s.table.entries.Keys
            && (forall p <- u.table.entries :: !u.table.entries[p].classified ==> !s.table.entries[p].classified && p !in todo)
    decreases |todo|
  {
    if todo != [] {
      var pid := todo[0];
      if pid in s.table.entries {
        ClassifyKeepsCore(cfg, s, pid, s.table.entries[pid].info, w, now);
        ClassifyFrame(cfg, s, pid, s.table.entries[pid].info, w, now);
        ClassifyEachKeepsCore(cfg, ClassifyAndApply(cfg, s, pid, s.table.entries[pid].info, w, now), todo[1..], w, now);
      } else {
        ClassifyEachKeepsCore(cfg, s, todo[1..], w, now);
      }
    }
  }

  /** A full scan keeps everything, leaves live processes only and, once in force, none unclassified. */
  lemma FullScanKeepsInv(cfg: Config, s: Brain, w: World, now: Instant)
    requires Core(s) && Fits(s, w)
    ensures var u := FullScan(cfg, s, w, now);
            && Inv(u) && u.startup == s.startup && u.focus == s.focus
            && u.table.entries.Keys == LivePids(w.proc.Entries()) * (s.table.entries.Keys + w.proc.infos.Keys)
            && (!s.startup ==> u.table.UnclassifiedSet() == {} && u.reset == {})
  {
    var merged := Merged(s, w);
    MergedKeepsCore(s, w);
    ScanLeavesLive(s.table, w.proc);
    if !s.startup {
      var todo := Enumerate(merged.table.UnclassifiedSet(), w.order);
      ClassifyEachKeepsCore(cfg, merged, todo, w, now);
      var u := ClassifyEach(cfg, merged, todo, w, now);
      forall p | p in u.table.entries ensures u.table.entries[p].classified {
        assert p in w.order;
        if !merged.table.entries[p].classified { assert p in merged.table.UnclassifiedSet(); }
      }
    }
  }

  // ------------------------------------------------------------------------------------------
  // Process events and rechecks
  // ------------------------------------------------------------------------------------------

  lemma InsertMarkedKeepsInv(s: Brain, pid: Pid, w: World)
    requires Inv(s) && w.proc.WellRead()
    ensures Inv(InsertMarked(s, pid, w))
  {
    if pid in w.proc.infos {
      InsertKeepsCore(s, w.proc.infos[pid]);
      MarkKeepsCore(InsertEntry(s, w.proc.infos[pid]), pid);
    }
  }

  lemma ReclassifyKeepsInv(cfg: Config, s: Brain, pid: Pid, w: World, now: Instant)
    requires Inv(s) && w.proc.WellRead() && !s.startup
    ensures Inv(Reclassify(cfg, s, pid, w, now)) && !Reclassify(cfg, s, pid, w, now).startup
    ensures Reclassify(cfg, s, pid, w, now).focus == s.focus
  {
    if pid in w.proc.infos {
      var info := w.proc.infos[pid];
      InsertKeepsCore(s, info);
      ClassifyKeepsCore(cfg, InsertEntry(s, info), pid, info, w, now);
      ClassifyFrame(cfg, InsertEntry(s, info), pid, info, w, now);
    }
  }

  lemma ExitKeepsInv(s: Brain, pid: Pid)
    requires Inv(s)
    ensures Inv(HandleExit(s, pid))
  {
    ExitKeepsCore(s, pid);
  }

  lemma CountForkKeepsInv(cfg: Config, s: Brain, parent: Pid, child: Pid, tgid: Pid, w: World, now: Instant)
    requires Inv(s)
    ensures Inv(CountFork(cfg, s, parent, child, tgid, w, now).0)
  {
    if child == tgid {
      var (d, bomb) := s.forkbomb.RecordFork(parent, now);
      if bomb.Some? {
        var pids := CollectSubtree(s.table.children, bomb.value, cfg.lineageDepth, w.childOrder);
        ThrottleMovesOnly(pids);
        PlainLogKeepsCore(s, ThrottleMoves(pids));
      }
    }
  }

  lemma ProcKeepsInv(cfg: Config, s: Brain, e: ProcEvent, w: World, now: Instant)
    requires Inv(s) && w.proc.WellRead()
    ensures s.startup ==> Inv(HandleProcStartup(cfg, s, e, w, now))
    ensures !s.startup ==> Inv(HandleProc(cfg, s, e, w, now))
  {
    match e
    case ProcFork(parent, child, tgid) =>
      CountForkKeepsInv(cfg, s, parent, child, tgid, w, now);
      InsertMarkedKeepsInv(CountFork(cfg, s, parent, child, tgid, w, now).0, child, w);
    case ProcExit(pid) => ExitKeepsInv(s, pid);
    case ProcExec(pid) =>
      InsertMarkedKeepsInv(s, pid, w);
      if !s.startup { ReclassifyKeepsInv(cfg, s, pid, w, now); }
    case ProcComm(pid) => if !s.startup { ReclassifyKeepsInv(cfg, s, pid, w, now); }
    case ProcUid(pid) => if !s.startup { ReclassifyKeepsInv(cfg, s, pid, w, now); }
  }

  lemma {:induction false} RecheckEachKeepsInv(cfg: Config, s: Brain, todo: seq<Pid>, w: World, now: Instant)
    requires Inv(s) && w.proc.WellRead() && !s.startup
    ensures Inv(RecheckEach(cfg, s, todo, w, now))
    decreases |todo|
  {
    if todo != [] {
      var pid := todo[0];
      ReclassifyKeepsInv(cfg, s, pid, w, now);
      RemoveKeepsCore(s, pid);
      RecheckEachKeepsInv(cfg, Recheck(cfg, s, pid, w, now), todo[1..], w, now);
    }
  }

  /** Although rechecks are not held back during the grace period, there is nothing to recheck. */
  lemma NoRecheckInGrace(cfg: Config, s: Brain, w: World, now: Instant)
    requires Core(s) && s.startup
    ensures s.table.ExpiredSet(now) == {} && Rechecks(cfg, s, w, now) == s
  {
    EnumerateNothing(w.order);
  }

  // ------------------------------------------------------------------------------------------
  // Pressure and foreground
  // ------------------------------------------------------------------------------------------

  lemma {:induction false} SwapstormMovesPlain(pids: seq<Pid>)
    ensures Plain(SwapstormMoves(pids))
  {
    if pids != [] { SwapstormMovesPlain(pids[1..]); }
  }

  lemma {:induction false} UnmarkEachFacts(t: Table, pids: seq<Pid>)
    requires Agrees(t)
    ensures var u := UnmarkEach(t, pids);
            && Agrees(u) && u.entries.Keys == t.entries.Keys
            && forall p <- t.entries ::
                 u.entries[p] == if p in pids then t.entries[p].(classified := false, applied := None) else t.entries[p]
    decreases |pids|
  {
    if pids != [] {
      ExecAgrees(t, OpUnmark(pids[0]));
      UnmarkEachFacts(t.MarkUnclassified(pids[0]), pids[1..]);
    }
  }

  lemma CriticalKeepsInv(s: Brain, r: Reading)
    requires Inv(s) && r.level.CriticalPressure?
    ensures Inv(HandlePressure(s, r))
  {
    SwapstormMovesPlain(r.idle + r.background);
    PlainLogKeepsCore(s, SwapstormMoves(r.idle + r.background));
  }

  lemma UnmarkEachKeepsCore(s: Brain, pids: seq<Pid>)
    requires Core(s)
    ensures Core(s.(table := UnmarkEach(s.table, pids)))
    ensures UnmarkEach(s.table, pids).UnclassifiedSet() <= s.table.UnclassifiedSet() + set p | p in pids
  {
    UnmarkEachFacts(s.table, pids);
    var u := s.(table := UnmarkEach(s.table, pids));
    forall p: Pid ensures u.table.OriginalOf(p) == FirstRead(u.log, p) {
      assert s.table.OriginalOf(p) == FirstRead(s.log, p);
    }
  }

  lemma RecoveryKeepsInv(s: Brain, r: Reading)
    requires Inv(s) && r.level.NormalPressure?
    ensures Inv(HandlePressure(s, r))
  {
    UnmarkEachKeepsCore(s, r.swapstorm);
  }

  lemma PressureKeepsInv(s: Brain, r: Reading)
    requires Inv(s)
    ensures Inv(HandlePressure(s, r))
  {
    match r.level
    case CriticalPressure => CriticalKeepsInv(s, r);
    case NormalPressure => RecoveryKeepsInv(s, r);
    case _ =>
  }

  lemma ForegroundKeepsInv(s: Brain, pid: Pid, w: World)
    requires Inv(s) && Fits(s, w)
    ensures Inv(HandleForeground(s, pid, w))
  {
    if !s.startup && CanFocus(s, pid) {
      var (f, issued) := SetForeground(s.focus, s.table, pid, w.order);
      SetForegroundKeepsBoosts(s.focus, s.table, pid, w.order, s.log);
      SetForegroundKeepsPlaces(s.focus, s.table, pid, w.order, s.log);
      FocusSetsNoProfile(s.focus, s.table, pid, w.order);
      ProfileStays(s.log, issued);
      FocusMovesAreNotRules(s.focus, s.table, pid, w.order);
      forall p: Pid ensures NoForget(issued, p) { assert NoReadNorForget(issued, p); }
      MovedStayAsked(s, issued, s.table.MovedSet());
      ReadBeforeRuleMoveConcat(s.log, issued);
      forall p: Pid ensures FirstRead(s.log + issued, p) == FirstRead(s.log, p) {
        FoldOfConcat(None, s.log, issued, p);
        NoReadKeepsFirst(FirstRead(s.log, p), issued, p);
      }
    }
  }

  lemma FocusMovesAreNotRules(f: Focus, t: Table, hint: Pid, order: seq<Pid>)
    requires !KnownSessionRoot(t, hint) ==> StopsIn(t, hint, |t.entries|)
    ensures ReadBeforeRuleMove(SetForeground(f, t, hint, order).1)
  {
    if !KnownSessionRoot(t, hint) {
      var pids := Movable(t, AppRoot(t, hint));
      BoostsAreByFocus(Enumerate(f.pids - pids, order));
      BoostsAreByFocus(Enumerate(pids, order));
    }
  }

  lemma {:induction false} BoostsAreByFocus(pids: seq<Pid>)
    ensures forall e <- Demotions(pids) :: e.Move? ==> e.cause == ByFocus
    ensures forall e <- Promotions(pids) :: e.Move? ==> e.cause == ByFocus
  {
    if pids != [] { BoostsAreByFocus(pids[1..]); }
  }

  // ------------------------------------------------------------------------------------------
  // Every step, every run
  // ------------------------------------------------------------------------------------------

  lemma EndGraceKeepsInv(cfg: Config, s: Brain, w: World, now: Instant)
    requires Inv(s) && Fits(s, w)
    ensures Inv(EndGrace(cfg, s, w, now))
  {
    if s.startup && now >= cfg.graceEnd { FullScanKeepsInv(cfg, s.(startup := false), w, now); }
  }

  lemma ReloadKeepsInv(s: Brain, dirs: seq<RuleDir>)
    requires Inv(s)
    ensures Inv(Reloaded(s, dirs))
  {
  }

  lemma PowerKeepsInv(s: Brain, onBattery: bool)
    requires Inv(s)
    ensures Inv(HandlePower(s, onBattery))
  {
    PlainLogKeepsBooks(s, [SetProfile(onBattery)], Some(onBattery));
  }

  lemma GcKeepsInv(s: Brain, forkbomb: Detector)
    requires Inv(s)
    ensures Inv(s.(forkbomb := forkbomb))
  {
  }

  lemma ControlKeepsInv(s: Brain, c: ControlCommand, w: World)
    requires Inv(s) && Fits(s, w)
    ensures Inv(HandleControl(s, c, w))
  {
    match c
    case SetForegroundProcess(pid) => ForegroundKeepsInv(s, pid, w);
    case SetProcessCgroup(pid, cgroup) => PlainLogKeepsCore(s, ControlMove(pid, cgroup));
    case ReloadByCommand(dirs) => ReloadKeepsInv(s, dirs);
  }

  lemma RechecksKeepInv(cfg: Config, s: Brain, w: World, now: Instant)
    requires Inv(s) && w.proc.WellRead()
    ensures Inv(Rechecks(cfg, s, w, now))
  {
    if s.startup { NoRecheckInGrace(cfg, s, w, now); }
    else { RecheckEachKeepsInv(cfg, s, Enumerate(s.table.ExpiredSet(now), w.order), w, now); }
  }

  lemma ProcEventKeepsInv(cfg: Config, s: Brain, e: ProcEvent, w: World, now: Instant)
    requires Inv(s) && w.proc.WellRead()
    ensures Inv(if s.startup then HandleProcStartup(cfg, s, e, w, now) else HandleProc(cfg, s, e, w, now))
  {
    ProcKeepsInv(cfg, s, e, w, now);
  }

  lemma ScansKeepInv(cfg: Config, s: Brain, w: World, now: Instant)
    requires Inv(s) && Fits(s, w)
    ensures Inv(FullScan(cfg, s, w, now)) && Inv(Rechecks(cfg, s, w, now))
  {
    FullScanKeepsInv(cfg, s, w, now);
    RechecksKeepInv(cfg, s, w, now);
  }

  lemma HandleKeepsInv(cfg: Config, s: Brain, e: Event, w: World, now: Instant)
    requires Inv(s) && Fits(s, w)
    ensures Inv(Handle(cfg, s, e, w, now))
  {
    match e
    case Proc(event) => ProcEventKeepsInv(cfg, s, event, w, now);
    case Control(command) => ControlKeepsInv(s, command, w);
    case PressureEvent(reading) => PressureKeepsInv(s, reading);
    case RescanTick => ScansKeepInv(cfg, s, w, now);
    case RecheckTick => ScansKeepInv(cfg, s, w, now);
    case GcTick => GcKeepsInv(s, s.forkbomb.Gc(now));
    case ReloadRules(dirs) => ReloadKeepsInv(s, dirs);
    case PowerEvent(onBattery) => PowerKeepsInv(s, onBattery);
    case ShutdownEvent =>
  }

  lemma StepKeepsInv(cfg: Config, s: Brain, i: Input)
    requires Inv(s) && Completes(cfg, s, i)
    ensures Inv(Step(cfg, s, i))
  {
    EndGraceKeepsInv(cfg, s, i.scanWorld, i.now);
    HandleKeepsInv(cfg, EndGrace(cfg, s, i.scanWorld, i.now), i.event, i.world, i.now);
  }

  lemma EnteringIsInv(cfg: Config, rules: seq<Rule>, existing: Option<World>, now: Instant)
    requires existing.Some? ==> Fits(Started(cfg, rules), existing.value)
    ensures Inv(NewBrain(cfg, rules))
    ensures Inv(Entering(cfg, rules, existing, now)) && Entering(cfg, rules, existing, now).startup
  {
    PowerKeepsInv(NewBrain(cfg, rules), cfg.onBattery);
    if existing.Some? { FullScanKeepsInv(cfg, Started(cfg, rules), existing.value, now); }
  }

  lemma {:induction false} EveryRunKeepsInv(cfg: Config, s: Brain, inputs: seq<Input>)
    requires Inv(s) && Possible(cfg, s, inputs)
    ensures Inv(Run(cfg, s, inputs))
  {
    if inputs != [] {
      EveryRunKeepsInv(cfg, s, inputs[..|inputs| - 1]);
      StepKeepsInv(cfg, Run(cfg, s, inputs[..|inputs| - 1]), inputs[|inputs| - 1]);
    }
  }
}
