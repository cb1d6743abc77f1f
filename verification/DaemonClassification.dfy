/** Which rule a scan or a reclassification applies, and to which processes. */
module DaemonClassification {
  import opened Wrappers
  import opened Types
  import opened Effects
  import opened ProcessTables
  import opened Rules
  import opened RuleLoading
  import opened Scanning
  import opened DaemonSpec
  import opened DaemonInvariants
  import opened DaemonProperties

  // ------------------------------------------------------------------------------------------
  // What the rules say about a process
  // ------------------------------------------------------------------------------------------

  /** The daemon itself, kernel threads and the foreground are never put through the rules. */
  predicate Spared(cfg: Config, s: Brain, pid: Pid)
    requires pid in s.table.entries
  {
    var info := s.table.entries[pid].info;
    pid == cfg.ownPid || info.ppid == cfg.ownPid || info.comm in OWN_THREAD_NAMES || info.isKernelThread || pid in s.focus.pids
  }

  /** The answer of the rule engine for a known process and the names of its ancestors. */
  function EngineAnswer(cfg: Config, s: Brain, pid: Pid, w: World): Option<Action>
    requires pid in s.table.entries
  {
    Classification(s.rules, cfg.exceptions, WithEnviron(s.rules, pid, s.table.entries[pid].info, w), s.table.AncestorComms(pid, 10))
  }

  function Verdict(cfg: Config, s: Brain, pid: Pid, w: World): Option<Action>
    requires pid in s.table.entries
  {
    if Spared(cfg, s, pid) then None else EngineAnswer(cfg, s, pid, w)
  }

  /** The verdicts on all known processes. */
  type Verdicts = map<Pid, Option<Action>>

  function VerdictsIn(cfg: Config, s: Brain, w: World): Verdicts {
    map p | p in s.table.entries :: Verdict(cfg, s, p, w)
  }

  /** An entry after its verdict; `found` is the cgroup that can be read for the process. */
  function Judged(e: Entry, v: Option<Action>, found: Option<string>, now: Instant): Entry {
    if v.None? then e.(classified := true)
    else e.(
      classified := true,
      applied := v,
      recheckAt := if v.value.recheckSecs.Some? then Some(now + v.value.recheckSecs.value * SECOND) else None,
      originalCgroup := if e.originalCgroup.None? && v.value.cgroup.Some? then found else e.originalCgroup)
  }

  function Lookup<K, V>(m: map<K, V>, k: K): Option<V> {
    if k in m then Some(m[k]) else None
  }

  /** A managed record after a verdict: without one, the old record stays. */
  function JudgedRecord(before: Option<ManagedEntry>, pid: Pid, info: ProcessInfo, v: Option<Action>): Option<ManagedEntry> {
    if v.Some? then Some(Managing(pid, info, v.value)) else before
  }

  // ------------------------------------------------------------------------------------------
  // A classification does not influence the next one
  // ------------------------------------------------------------------------------------------

  /** Everything a verdict depends on is the same. */
  ghost predicate Alike(s: Brain, u: Brain) {
    && SameShape(s.table, u.table)
    && u.rules == s.rules && u.focus == s.focus
  }

  /** The same processes in the same tree. */
  ghost predicate SameShape(t: Table, u: Table) {
    && u.entries.Keys == t.entries.Keys && u.children == t.children && u.hist == t.hist
    && (forall p <- t.entries :: u.entries[p].info == t.entries[p].info)
  }

  lemma {:induction false} AlikeAncestors(t: Table, u: Table, pid: Pid, depth: nat)
    requires SameShape(t, u)
    ensures u.AncestorComms(pid, depth) == t.AncestorComms(pid, depth)
    decreases depth
  {
    if depth > 0 && pid in t.entries { AlikeAncestors(t, u, t.entries[pid].info.ppid, depth - 1); }
  }

  lemma AlikeVerdicts(cfg: Config, s: Brain, u: Brain, w: World)
    requires Alike(s, u)
    ensures VerdictsIn(cfg, u, w) == VerdictsIn(cfg, s, w)
  {
    forall p | p in s.table.entries ensures Verdict(cfg, u, p, w) == Verdict(cfg, s, p, w) {
      AlikeAncestors(s.table, u.table, p, 10);
    }
  }

  /** Everything the daemon asks for on account of one verdict. */
  function RequestsFor(t: Table, pid: Pid, v: Option<Action>, w: World): Log {
    if v.None? then [] else Issued(t, pid, v.value, w)
  }

  function RequestsForAll(t: Table, v: Verdicts, todo: seq<Pid>, w: World): Log
    requires forall p <- todo :: p in v
  {
    if todo == [] then [] else RequestsFor(t, todo[0], v[todo[0]], w) + RequestsForAll(t, v, todo[1..], w)
  }

  lemma {:induction false} AlikeRequests(t: Table, u: Table, v: Verdicts, todo: seq<Pid>, w: World)
    requires SameShape(t, u) && forall p <- todo :: p in v
    ensures RequestsForAll(u, v, todo, w) == RequestsForAll(t, v, todo, w)
  {
    if todo != [] { AlikeRequests(t, u, v, todo[1..], w); }
  }

  /** The table after every process in `todo` has had its verdict. */
  ghost predicate TableJudged(t: Table, v: Verdicts, todo: seq<Pid>, w: World, now: Instant, u: Table)
    requires v.Keys == t.entries.Keys
  {
    && SameShape(t, u)
    && forall p <- t.entries ::
         u.entries[p] == if p in todo then Judged(t.entries[p], v[p], Lookup(w.cgroups, p), now) else t.entries[p]
  }

  type Records = map<Pid, ManagedEntry>

  ghost predicate RecordsJudged(t: Table, before: Records, v: Verdicts, todo: seq<Pid>, records: Records)
    requires v.Keys == t.entries.Keys && forall p <- todo :: p in v
  {
    forall p: Pid ::
      Lookup(records, p) == if p in todo then JudgedRecord(Lookup(before, p), p, t.entries[p].info, v[p]) else Lookup(before, p)
  }

  /** The state after every process in `todo` has had the verdict it is given in `s`. */
  ghost predicate JudgedAtOnce(cfg: Config, s: Brain, todo: seq<Pid>, w: World, now: Instant, u: Brain)
    requires forall p <- todo :: p in s.table.entries
  {
    var v := VerdictsIn(cfg, s, w);
    && Alike(s, u)
    && TableJudged(s.table, v, todo, w, now, u.table)
    && RecordsJudged(s.table, s.managed, v, todo, u.managed)
    && u.log == s.log + RequestsForAll(s.table, v, todo, w)
  }

  lemma ClassifyAgrees(cfg: Config, s: Brain, pid: Pid, info: ProcessInfo, w: World, now: Instant)
    requires Agrees(s.table) && pid in s.table.entries
    ensures Agrees(ClassifyAndApply(cfg, s, pid, info, w, now).table)
  {
    var d := Decision(cfg, s, pid, info, w);
    if d.None? { ExecAgrees(s.table, OpMark(pid)); } else { ApplyKeepsTable(s.table, pid, d.value, w, now); }
  }

  lemma OneIsJudged(cfg: Config, s: Brain, pid: Pid, w: World, now: Instant)
    requires Agrees(s.table) && pid in s.table.entries
    ensures JudgedAtOnce(cfg, s, [pid], w, now, ClassifyAndApply(cfg, s, pid, s.table.entries[pid].info, w, now))
  {
    var d := Decision(cfg, s, pid, s.table.entries[pid].info, w);
    assert d == VerdictsIn(cfg, s, w)[pid];
    OneGetsVerdict(s, VerdictsIn(cfg, s, w), pid, w, now);
  }

  function GiveVerdict(s: Brain, pid: Pid, info: ProcessInfo, v: Option<Action>, w: World, now: Instant): Brain {
    if v.None? then Mark(s, pid) else Apply(s, pid, info, v.value, w, now)
  }

  lemma TableGetsVerdict(t: Table, v: Verdicts, pid: Pid, w: World, now: Instant)
    requires v.Keys == t.entries.Keys && pid in v
    ensures v[pid].None? ==> TableJudged(t, v, [pid], w, now, t.MarkClassified(pid))
    ensures v[pid].Some? ==> TableJudged(t, v, [pid], w, now, WithOriginal(t, pid, v[pid].value, w).SetApplied(pid, v[pid].value, now))
  {
  }

  lemma RequestsForOne(t: Table, v: Verdicts, pid: Pid, w: World)
    requires pid in v
    ensures RequestsForAll(t, v, [pid], w) == RequestsFor(t, pid, v[pid], w)
  {
    assert [pid][1..] == [];
    assert RequestsFor(t, pid, v[pid], w) + [] == RequestsFor(t, pid, v[pid], w);
  }

  lemma OneGetsVerdict(s: Brain, v: Verdicts, pid: Pid, w: World, now: Instant)
    requires v.Keys == s.table.entries.Keys && pid in v
    ensures var u := GiveVerdict(s, pid, s.table.entries[pid].info, v[pid], w, now);
            && Alike(s, u)
            && TableJudged(s.table, v, [pid], w, now, u.table)
            && RecordsJudged(s.table, s.managed, v, [pid], u.managed)
            && u.log == s.log + RequestsForAll(s.table, v, [pid], w)
  {
    TableGetsVerdict(s.table, v, pid, w, now);
    RequestsForOne(s.table, v, pid, w);
    if v[pid].None? { assert s.log + [] == s.log; }
  }

  lemma TableOneThenRest(t: Table, v: Verdicts, pid: Pid, rest: seq<Pid>, w: World, now: Instant, next: Table, u: Table)
    requires v.Keys == t.entries.Keys && pid in v && pid !in rest
    requires TableJudged(t, v, [pid], w, now, next) && TableJudged(next, v, rest, w, now, u)
    ensures TableJudged(t, v, [pid] + rest, w, now, u)
  {
  }

  lemma RecordsOneThenRest(t: Table, next: Table, before: Records, v: Verdicts, pid: Pid, rest: seq<Pid>, mid: Records, records: Records)
    requires v.Keys == t.entries.Keys && pid in v && pid !in rest && (forall p <- rest :: p in v) && SameShape(t, next)
    requires RecordsJudged(t, before, v, [pid], mid) && RecordsJudged(next, mid, v, rest, records)
    ensures RecordsJudged(t, before, v, [pid] + rest, records)
  {
  }

  lemma JudgedOneThenRest(cfg: Config, s: Brain, pid: Pid, rest: seq<Pid>, w: World, now: Instant, next: Brain, u: Brain)
    requires pid in s.table.entries && pid !in rest && forall p <- rest :: p in s.table.entries
    requires JudgedAtOnce(cfg, s, [pid], w, now, next) && JudgedAtOnce(cfg, next, rest, w, now, u)
    ensures JudgedAtOnce(cfg, s, [pid] + rest, w, now, u)
  {
    var v := VerdictsIn(cfg, s, w);
    AlikeVerdicts(cfg, s, next, w);
    TableOneThenRest(s.table, v, pid, rest, w, now, next.table, u.table);
    RecordsOneThenRest(s.table, next.table, s.managed, v, pid, rest, next.managed, u.managed);
    AlikeRequests(s.table, next.table, v, rest, w);
    RequestsOneThenRest(s.table, v, pid, rest, w);
    Regroup(s.log, RequestsForAll(s.table, v, [pid], w), RequestsForAll(s.table, v, rest, w));
  }

  lemma RequestsOneThenRest(t: Table, v: Verdicts, pid: Pid, rest: seq<Pid>, w: World)
    requires pid in v && forall p <- rest :: p in v
    ensures RequestsForAll(t, v, [pid] + rest, w) == RequestsForAll(t, v, [pid], w) + RequestsForAll(t, v, rest, w)
  {
    RequestsForOne(t, v, pid, w);
    assert ([pid] + rest)[1..] == rest;
  }

  /** The loop judges one process after the other, but the outcome is that of judging all at once. */
  lemma {:induction false} LoopJudgesAtOnce(cfg: Config, s: Brain, todo: seq<Pid>, w: World, now: Instant)
    requires Agrees(s.table) && Distinct(todo) && forall p <- todo :: p in s.table.entries
    ensures JudgedAtOnce(cfg, s, todo, w, now, ClassifyEach(cfg, s, todo, w, now))
    decreases |todo|
  {
    if todo == [] {
      assert s.log + [] == s.log;
    } else {
      var pid, rest := todo[0], todo[1..];
      var next := ClassifyAndApply(cfg, s, pid, s.table.entries[pid].info, w, now);
      OneIsJudged(cfg, s, pid, w, now);
      ClassifyAgrees(cfg, s, pid, s.table.entries[pid].info, w, now);
      LoopJudgesAtOnce(cfg, next, rest, w, now);
      JudgedOneThenRest(cfg, s, pid, rest, w, now, next, ClassifyEach(cfg, next, rest, w, now));
      assert todo == [pid] + rest;
    }
  }

  // ------------------------------------------------------------------------------------------
  // What a scan does to every process
  // ------------------------------------------------------------------------------------------

  lemma {:induction false} ReadableIsRead(listing: seq<DirEntry>, infos: map<Pid, ProcessInfo>, known: set<Pid>)
    requires forall p <- infos :: infos[p].pid == p
    ensures forall info <- Readable(listing, infos, known) :: info.pid in infos && info == infos[info.pid]
  {
    if listing != [] { ReadableIsRead(listing[1..], infos, known); }
  }

  lemma {:induction false} FreshIsFound(t: Table, found: seq<ProcessInfo>, p: Pid)
    requires p !in t.entries && p in t.MergeFresh(found).entries
    ensures exists info <- found :: info.pid == p && t.MergeFresh(found).entries[p] == FreshEntry(info, None)
    decreases |found|
  {
    if found != [] {
      var next := if found[0].pid in t.entries then t else t.Insert(found[0]);
      if p in next.entries {
        MergeFreshKeepsKnown(next, found[1..], p);
        assert found[0] in found;
      } else {
        FreshIsFound(next, found[1..], p);
      }
    }
  }

  /** After the listing is merged: known processes as they were, the others as they can be read. */
  lemma MergedEntry(s: Brain, w: World, p: Pid)
    requires w.proc.WellRead() && p in Merged(s, w).table.entries
    ensures p !in s.table.entries ==> p in w.proc.infos
    ensures Merged(s, w).table.entries[p] ==
            if p in s.table.entries then s.table.entries[p] else FreshEntry(w.proc.infos[p], None)
  {
    var found := FoundBy(s, w);
    if p in s.table.entries {
      MergeFreshKeepsKnown(s.table, found, p);
    } else {
      FreshIsFound(s.table, found, p);
      ReadableIsRead(w.proc.Entries(), w.proc.infos, s.table.entries.Keys);
    }
  }

  lemma ScanJudgesAtOnce(cfg: Config, s: Brain, w: World, now: Instant)
    requires Core(s) && Fits(s, w) && !s.startup
    ensures var m := Merged(s, w);
            && (forall p <- Enumerate(m.table.UnclassifiedSet(), w.order) :: p in m.table.entries)
            && (forall p: Pid :: p in Enumerate(m.table.UnclassifiedSet(), w.order) <==> p in m.table.UnclassifiedSet())
            && JudgedAtOnce(cfg, m, Enumerate(m.table.UnclassifiedSet(), w.order), w, now, FullScan(cfg, s, w, now))
  {
    var m := Merged(s, w);
    MergedKeepsCore(s, w);
    ScanLeavesLive(s.table, w.proc);
    LoopJudgesAtOnce(cfg, m, Enumerate(m.table.UnclassifiedSet(), w.order), w, now);
  }

  lemma ScanJudges(cfg: Config, s: Brain, w: World, now: Instant, p: Pid)
    requires Core(s) && Fits(s, w) && !s.startup
    ensures var m, u := Merged(s, w), FullScan(cfg, s, w, now);
            && (p in u.table.entries <==> p in m.table.entries)
            && (p in m.table.entries ==>
                  u.table.entries[p] == if m.table.entries[p].classified then m.table.entries[p]
                                        else Judged(m.table.entries[p], Verdict(cfg, m, p, w), Lookup(w.cgroups, p), now))
            && (p in m.table.entries && !m.table.entries[p].classified ==> m.table.entries[p].applied.None?)
  {
    ScanJudgesAtOnce(cfg, s, w, now);
    MergedKeepsCore(s, w);
  }

  /**
   * A scan in force leaves exactly the live processes that were known or could be read.  Those that
   * were classified come out as they went in.  All others come out classified, under the rule that
   * the engine gives them, or under none if it gives none or the process is spared.
   */
  lemma ScanClassifiesAll(cfg: Config, s: Brain, w: World, now: Instant, p: Pid)
    requires Core(s) && Fits(s, w) && !s.startup
    ensures var m, u := Merged(s, w), FullScan(cfg, s, w, now);
            && (p in u.table.entries <==> p in LivePids(w.proc.Entries()) && (p in s.table.entries || p in w.proc.infos))
            && (p in u.table.entries <==> p in m.table.entries)
            && (p in u.table.entries ==>
                  if IsClassified(s.table, p) then u.table.entries[p] == s.table.entries[p]
                  else
                    && u.table.entries[p].info == (if p in s.table.entries then s.table.entries[p].info else w.proc.infos[p])
                    && u.table.entries[p].classified
                    && u.table.entries[p].applied == if Spared(cfg, m, p) then None else EngineAnswer(cfg, m, p, w))
  {
    ScanLeavesLive(s.table, w.proc);
    ScanJudges(cfg, s, w, now, p);
    if p in Merged(s, w).table.entries { MergedEntry(s, w, p); }
  }

  /** What a scan asks for, beyond forgetting the dead: the requests for the verdicts, and nothing else. */
  lemma ScanIssuesVerdicts(cfg: Config, s: Brain, w: World, now: Instant, e: Effect)
    requires Core(s) && Fits(s, w) && !s.startup
    ensures var m, u := Merged(s, w), FullScan(cfg, s, w, now);
            && m.log <= u.log
            && (e in u.log[|m.log|..] <==>
                exists p <- m.table.UnclassifiedSet() :: !Spared(cfg, m, p) && EngineAnswer(cfg, m, p, w).Some? &&
                                                         e in Issued(m.table, p, EngineAnswer(cfg, m, p, w).value, w))
  {
    var m := Merged(s, w);
    var todo := Enumerate(m.table.UnclassifiedSet(), w.order);
    ScanJudgesAtOnce(cfg, s, w, now);
    BackPart(m.log, RequestsForAll(m.table, VerdictsIn(cfg, m, w), todo, w));
    VerdictRequests(cfg, m, todo, w, e);
  }

  lemma BackPart(a: Log, b: Log)
    ensures a <= a + b && (a + b)[|a|..] == b
  {
  }

  /** What is asked for on account of all unclassified processes. */
  lemma VerdictRequests(cfg: Config, m: Brain, todo: seq<Pid>, w: World, e: Effect)
    requires forall p: Pid :: p in todo <==> p in m.table.UnclassifiedSet()
    ensures e in RequestsForAll(m.table, VerdictsIn(cfg, m, w), todo, w) <==>
            exists p <- m.table.UnclassifiedSet() :: !Spared(cfg, m, p) && EngineAnswer(cfg, m, p, w).Some? &&
                                                     e in Issued(m.table, p, EngineAnswer(cfg, m, p, w).value, w)
  {
    var v := VerdictsIn(cfg, m, w);
    RequestsHold(m.table, v, todo, w, e);
    forall p | p in m.table.UnclassifiedSet()
      ensures e in RequestsFor(m.table, p, v[p], w) <==>
              !Spared(cfg, m, p) && EngineAnswer(cfg, m, p, w).Some? && e in Issued(m.table, p, EngineAnswer(cfg, m, p, w).value, w)
    {
      VerdictRequest(cfg, m, p, w, e);
    }
  }

  lemma VerdictRequest(cfg: Config, m: Brain, p: Pid, w: World, e: Effect)
    requires p in m.table.entries
    ensures e in RequestsFor(m.table, p, Verdict(cfg, m, p, w), w) <==>
            !Spared(cfg, m, p) && EngineAnswer(cfg, m, p, w).Some? && e in Issued(m.table, p, EngineAnswer(cfg, m, p, w).value, w)
  {
  }

  lemma {:induction false} RequestsHold(t: Table, v: Verdicts, todo: seq<Pid>, w: World, e: Effect)
    requires forall p <- todo :: p in v
    ensures e in RequestsForAll(t, v, todo, w) <==> exists p <- todo :: e in RequestsFor(t, p, v[p], w)
  {
    if todo != [] {
      RequestsHold(t, v, todo[1..], w, e);
      assert todo == [todo[0]] + todo[1..];
    }
  }

  // ------------------------------------------------------------------------------------------
  // Completeness over runs
  // ------------------------------------------------------------------------------------------

  /** After the grace period only processes reset by a pressure recovery since the last scan wait. */
  lemma NothingForgotten(cfg: Config, rules: seq<Rule>, existing: Option<World>, start: Instant, inputs: seq<Input>,
                         s: Brain, p: Pid)
    requires Reachable(cfg, rules, existing, start, inputs, s) && !s.startup
    requires p in s.table.entries && !s.table.entries[p].classified
    ensures p in s.reset && s.table.entries[p].applied.None?
  {
    ReachableIsInv(cfg, rules, existing, start, inputs, s);
    assert p in s.table.UnclassifiedSet();
  }

  /**
   * The scan that ends the grace period puts a live process through the rules exactly if it was not
   * marked as classified during that period: one that was marked comes out unchanged, without a
   * rule, and so has what the rules say only if they say nothing.
   */
  lemma GraceEndsWithVerdictIffUnmarked(cfg: Config, s: Brain, w: World, now: Instant, p: Pid)
    requires Core(s) && Fits(s, w) && s.startup && now >= cfg.graceEnd
    requires p in LivePids(w.proc.Entries()) && (p in s.table.entries || p in w.proc.infos)
    ensures var u, m := EndGrace(cfg, s, w, now), Merged(s.(startup := false), w);
            && !u.startup && p in u.table.entries && p in m.table.entries
            && (IsClassified(s.table, p) ==> u.table.entries[p] == s.table.entries[p] && u.table.entries[p].applied.None?)
            && (u.table.entries[p].applied == (if Spared(cfg, m, p) then None else EngineAnswer(cfg, m, p, w)) <==>
                IsClassified(s.table, p) ==> Spared(cfg, m, p) || EngineAnswer(cfg, m, p, w).None?)
  {
    ScanKeepsPhase(cfg, s.(startup := false), w, now);
    ScanClassifiesAll(cfg, s.(startup := false), w, now, p);
  }

  /**
   * A process that is classified again comes out under the rule that the engine gives it, or under
   * none.
   */
  lemma ReclassifyGivesVerdict(cfg: Config, s: Brain, pid: Pid, w: World, now: Instant)
    requires Core(s) && w.proc.WellRead() && pid in w.proc.infos
    ensures var i, u := InsertEntry(s, w.proc.infos[pid]), Reclassify(cfg, s, pid, w, now);
            && SameShape(i.table, u.table) && u.focus == s.focus && u.rules == s.rules && s.managed.Keys <= u.managed.Keys
            && pid in i.table.entries && pid in u.table.entries
            && u.table.entries[pid].info == w.proc.infos[pid] && u.table.entries[pid].classified
            && u.table.entries[pid] == Judged(i.table.entries[pid], if Spared(cfg, i, pid) then None else EngineAnswer(cfg, i, pid, w),
                                              Lookup(w.cgroups, pid), now)
            && u.table.entries[pid].applied == (if Spared(cfg, i, pid) then None else EngineAnswer(cfg, i, pid, w))
            && (forall q <- s.table.entries :: q != pid ==> q in u.table.entries && u.table.entries[q] == s.table.entries[q])
            && u.log == s.log + RequestsFor(i.table, pid, if Spared(cfg, i, pid) then None else EngineAnswer(cfg, i, pid, w), w)
  {
    var i := InsertEntry(s, w.proc.infos[pid]);
    InsertAgrees(s.table, w.proc.infos[pid]);
    OneIsJudged(cfg, i, pid, w, now);
    RequestsForOne(i.table, VerdictsIn(cfg, i, w), pid, w);
  }

  /** With rules that were loaded from `dirs`, the rule a scan applies is the best one that matches. */
  lemma ScanAppliesBestRule(cfg: Config, dirs: seq<RuleDir>, s: Brain, w: World, now: Instant, p: Pid)
    requires Core(s) && Fits(s, w) && !s.startup
    requires WellNamed(dirs) && Load(dirs) == Some(s.rules)
    requires p in FullScan(cfg, s, w, now).table.entries && !IsClassified(s.table, p)
    requires FullScan(cfg, s, w, now).table.entries[p].applied.Some?
    ensures var m := Merged(s, w);
            var info := WithEnviron(s.rules, p, FullScan(cfg, s, w, now).table.entries[p].info, w);
            var parent := ParentOf(m.table.AncestorComms(p, 10));
            exists best <- s.rules ::
              && Matches(best.matchers, info, parent)
              && (forall r <- s.rules :: Matches(r.matchers, info, parent) ==> r == best || Precedes(best, r))
              && FullScan(cfg, s, w, now).table.entries[p].applied.value.ruleName == best.name
  {
    var m := Merged(s, w);
    ScanClassifiesAll(cfg, s, w, now, p);
    MergedEntry(s, w, p);
    AnswerIsNamedByBestRule(dirs, cfg.exceptions, WithEnviron(s.rules, p, m.table.entries[p].info, w), m.table.AncestorComms(p, 10));
  }
}
