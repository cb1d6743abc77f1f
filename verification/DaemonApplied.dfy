/** What was last asked for a process when a scan or an exec has put it under a rule. */
module DaemonApplied {
  import opened Wrappers
  import opened Types
  import opened Effects
  import opened ProcessTables
  import opened Rules
  import opened DaemonSpec
  import opened DaemonInvariants
  import opened DaemonRequests
  import opened DaemonClassification
  import opened DaemonOrder

  /** The requests for other processes set neither nice value nor place of `p`. */
  lemma {:induction false} OthersSpare(t: Table, v: Verdicts, todo: seq<Pid>, w: World, p: Pid)
    requires forall q <- todo :: q in v && q != p
    ensures NoNice(RequestsForAll(t, v, todo, w), p) && NoPlace(RequestsForAll(t, v, todo, w), p)
  {
    if todo != [] {
      OtherSpares(t, todo[0], v[todo[0]], w, p);
      forall q | q in todo[1..] ensures q in v && q != p { assert q in todo; }
      OthersSpare(t, v, todo[1..], w, p);
      SparedInEither(RequestsFor(t, todo[0], v[todo[0]], w), RequestsForAll(t, v, todo[1..], w), p);
    }
  }

  lemma OtherSpares(t: Table, q: Pid, v: Option<Action>, w: World, p: Pid)
    requires q != p
    ensures NoNice(RequestsFor(t, q, v, w), p) && NoPlace(RequestsFor(t, q, v, w), p)
  {
    if v.Some? { IssuedFacts(t, q, v.value, w); }
  }

  lemma SparedInEither(a: Log, b: Log, p: Pid)
    requires NoNice(a, p) && NoPlace(a, p) && NoNice(b, p) && NoPlace(b, p)
    ensures NoNice(a + b, p) && NoPlace(a + b, p)
  {
  }

  /** What was asked last in the middle of a log that does not concern `p` afterwards. */
  lemma LastInMiddle(front: Log, one: Log, back: Log, p: Pid)
    requires NoNice(back, p) && NoPlace(back, p)
    ensures LastNice(front + (one + back), p) == if LastNice(one, p).Some? then LastNice(one, p) else LastNice(front, p)
    ensures LastPlace(front + (one + back), p) == if LastPlace(one, p).Some? then LastPlace(one, p) else LastPlace(front, p)
  {
    NiceOfConcat(one, back, p);
    NiceOfConcat(front, one + back, p);
    PlaceOfConcat(one, back, p);
    PlaceOfConcat(front, one + back, p);
    NoNiceNoLast(back, p);
    NoPlaceNoLast(back, p);
  }

  /** In a log of verdicts, the last word on a process is that of its own. */
  lemma LastOfRequests(t: Table, v: Verdicts, log: Log, todo: seq<Pid>, w: World, p: Pid)
    requires Distinct(todo) && p in todo && (forall q <- todo :: q in v) && v[p].Some?
    ensures var u := log + RequestsForAll(t, v, todo, w);
            && (v[p].value.nice.Some? ==> LastNice(u, p) == v[p].value.nice)
            && forall tier: Tier :: v[p].value.cgroup == Some(NameOf(tier)) ==> LastPlace(u, p) == Some(tier)
  {
    var a, b := SplitAt(todo, p);
    assert a + [p] + b == a + ([p] + b);
    forall q | q in b ensures q in v && q != p {
      var k :| 0 <= k < |b| && b[k] == q;
      assert todo[|a|] == p && todo[|a| + 1 + k] == q;
    }
    forall q | q in a ensures q in v { assert q in todo; }
    RequestsOfConcat(t, v, a, [p] + b, w);
    assert ([p] + b)[1..] == b;
    OthersSpare(t, v, b, w, p);
    var asked, own, back := RequestsForAll(t, v, a, w), RequestsFor(t, p, v[p], w), RequestsForAll(t, v, b, w);
    Regroup(log, asked, own + back);
    LastInMiddle(log + asked, own, back, p);
    LastOfIssued(t, p, v[p].value, w);
  }

  /**
   * A process that a scan in force puts under a rule: the nice value last asked for is that of the
   * rule, and of the moves by its own rule or the focus the last is to the tier that the rule names.
   */
  lemma ScanAsksForRule(cfg: Config, s: Brain, w: World, now: Instant, p: Pid)
    requires Core(s) && Fits(s, w) && !s.startup
    requires p in Merged(s, w).table.entries && !Merged(s, w).table.entries[p].classified
    requires !Spared(cfg, Merged(s, w), p) && EngineAnswer(cfg, Merged(s, w), p, w).Some?
    ensures var a, u := EngineAnswer(cfg, Merged(s, w), p, w).value, FullScan(cfg, s, w, now);
            && (a.nice.Some? ==> LastNice(u.log, p) == a.nice)
            && forall tier: Tier :: a.cgroup == Some(NameOf(tier)) ==> LastPlace(u.log, p) == Some(tier)
  {
    var m := Merged(s, w);
    ScanJudgesAtOnce(cfg, s, w, now);
    LastOfRequests(m.table, VerdictsIn(cfg, m, w), m.log, Todo(m, w), w, p);
  }

  /** The same for a process that is read again and put under a rule. */
  lemma ExecAsksForRule(cfg: Config, s: Brain, pid: Pid, w: World, now: Instant)
    requires Core(s) && w.proc.WellRead() && pid in w.proc.infos
    requires !Spared(cfg, InsertEntry(s, w.proc.infos[pid]), pid) && EngineAnswer(cfg, InsertEntry(s, w.proc.infos[pid]), pid, w).Some?
    ensures var a, u := EngineAnswer(cfg, InsertEntry(s, w.proc.infos[pid]), pid, w).value, Reclassify(cfg, s, pid, w, now);
            && (a.nice.Some? ==> LastNice(u.log, pid) == a.nice)
            && forall tier: Tier :: a.cgroup == Some(NameOf(tier)) ==> LastPlace(u.log, pid) == Some(tier)
  {
    var i := InsertEntry(s, w.proc.infos[pid]);
    var a := EngineAnswer(cfg, i, pid, w).value;
    ReclassifyGivesVerdict(cfg, s, pid, w, now);
    LastOfIssued(i.table, pid, a, w);
    NiceOfConcat(s.log, Issued(i.table, pid, a, w), pid);
    PlaceOfConcat(s.log, Issued(i.table, pid, a, w), pid);
  }

  /** What the engine is asked for is what it would be asked for had every environment been read. */
  lemma LazyEnvironIsEnough(cfg: Config, s: Brain, pid: Pid, w: World)
    requires pid in s.table.entries
    ensures var info := s.table.entries[pid].info;
            var read := if info.environ == map[] && pid in w.environs then w.environs[pid] else info.environ;
            EngineAnswer(cfg, s, pid, w) ==
            Classification(s.rules, cfg.exceptions, info.(environ := read), s.table.AncestorComms(pid, 10))
  {
    var info := s.table.entries[pid].info;
    var read := if info.environ == map[] && pid in w.environs then w.environs[pid] else info.environ;
    if !WantsEnviron(s.rules) {
      AnswerWithoutEnviron(s.rules, cfg.exceptions, info, read, s.table.AncestorComms(pid, 10));
    } else {
      assert WithEnviron(s.rules, pid, info, w) == info.(environ := read);
    }
  }
}
