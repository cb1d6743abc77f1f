/** What the order in which a scan visits the processes decides, and what it does not. */
module DaemonOrder {
  import opened Wrappers
  import opened Types
  import opened Effects
  import opened ProcessTables
  import opened Scanning
  import opened DaemonSpec
  import opened DaemonInvariants
  import opened DaemonClassification
  import opened DaemonForeground

  // ------------------------------------------------------------------------------------------
  // What it does not decide
  // ------------------------------------------------------------------------------------------

  /**
   * Two scans see the same processes.  The orders in which they go through the hash tables may
   * differ, and so may the cgroups that they read: each is read when its process has its turn, and
   * the moves made until then depend on the order.
   */
  ghost predicate SameSight(w: World, x: World) {
    x.proc == w.proc && x.environs == w.environs
  }

  lemma VerdictsFromSight(cfg: Config, m: Brain, w: World, x: World)
    requires SameSight(w, x)
    ensures VerdictsIn(cfg, m, x) == VerdictsIn(cfg, m, w)
  {
  }

  function Unrecorded(e: Entry): Entry {
    e.(originalCgroup := None)
  }

  lemma JudgedTablesAgree(t: Table, v: Verdicts, todo: seq<Pid>, other: seq<Pid>, w: World, x: World, now: Instant, u: Table, u': Table)
    requires v.Keys == t.entries.Keys && forall p: Pid :: p in todo <==> p in other
    requires TableJudged(t, v, todo, w, now, u) && TableJudged(t, v, other, x, now, u')
    ensures SameShape(u, u')
    ensures forall p <- u.entries :: Unrecorded(u'.entries[p]) == Unrecorded(u.entries[p])
  {
  }

  lemma JudgedRecordsAgree(t: Table, before: Records, v: Verdicts, todo: seq<Pid>, other: seq<Pid>, a: Records, b: Records)
    requires v.Keys == t.entries.Keys && (forall p <- todo :: p in v) && forall p: Pid :: p in todo <==> p in other
    requires RecordsJudged(t, before, v, todo, a) && RecordsJudged(t, before, v, other, b)
    ensures a == b
  {
    forall p: Pid ensures Lookup(a, p) == Lookup(b, p) {}
    forall p: Pid ensures p in a <==> p in b { assert Lookup(a, p) == Lookup(b, p); }
    forall p | p in a ensures a[p] == b[p] { assert Lookup(a, p) == Lookup(b, p); }
  }

  /** The processes that the scan has to judge, in the order in which it does. */
  function Todo(m: Brain, w: World): seq<Pid> {
    Enumerate(m.table.UnclassifiedSet(), w.order)
  }

  lemma BothScansJudge(cfg: Config, s: Brain, w: World, x: World, now: Instant)
    requires Core(s) && Fits(s, w) && Fits(s, x) && !s.startup && SameSight(w, x)
    ensures var m, v := Merged(s, w), VerdictsIn(cfg, Merged(s, w), w);
            && Merged(s, x) == m && (forall p: Pid :: p in Todo(m, w) <==> p in m.table.UnclassifiedSet())
            && (forall p: Pid :: p in Todo(m, w) <==> p in Todo(m, x))
            && TableJudged(m.table, v, Todo(m, w), w, now, FullScan(cfg, s, w, now).table)
            && TableJudged(m.table, v, Todo(m, x), x, now, FullScan(cfg, s, x, now).table)
            && RecordsJudged(m.table, m.managed, v, Todo(m, w), FullScan(cfg, s, w, now).managed)
            && RecordsJudged(m.table, m.managed, v, Todo(m, x), FullScan(cfg, s, x, now).managed)
  {
    VerdictsFromSight(cfg, Merged(s, w), w, x);
    ScanJudgesAtOnce(cfg, s, w, now);
    ScanJudgesAtOnce(cfg, s, x, now);
  }

  /**
   * Whatever the orders, and whatever is read of cgroups along the way, two scans that see the same
   * processes leave the same managed records, the same index and the same entries, the original
   * cgroups aside.
   */
  lemma ScanOrderDecidesRecordsOnly(cfg: Config, s: Brain, w: World, x: World, now: Instant)
    requires Core(s) && Fits(s, w) && Fits(s, x) && !s.startup && SameSight(w, x)
    ensures var u, u' := FullScan(cfg, s, w, now), FullScan(cfg, s, x, now);
            && u'.managed == u.managed && SameShape(u.table, u'.table)
            && forall p <- u.table.entries :: Unrecorded(u'.table.entries[p]) == Unrecorded(u.table.entries[p])
  {
    var m, v := Merged(s, w), VerdictsIn(cfg, Merged(s, w), w);
    var u, u' := FullScan(cfg, s, w, now), FullScan(cfg, s, x, now);
    BothScansJudge(cfg, s, w, x, now);
    JudgedTablesAgree(m.table, v, Todo(m, w), Todo(m, x), w, x, now, u.table, u'.table);
    JudgedRecordsAgree(m.table, m.managed, v, Todo(m, w), Todo(m, x), u.managed, u'.managed);
  }

  // ------------------------------------------------------------------------------------------
  // What it decides
  // ------------------------------------------------------------------------------------------

  /** The scan reads the cgroup of `p` for its undo record. */
  predicate GetsRecord(cfg: Config, m: Brain, p: Pid, w: World) {
    && p in m.table.entries && !m.table.entries[p].classified && m.table.entries[p].originalCgroup.None?
    && Verdict(cfg, m, p, w).Some? && Verdict(cfg, m, p, w).value.cgroup.Some?
  }

  lemma JudgedOriginal(t: Table, v: Verdicts, todo: seq<Pid>, w: World, now: Instant, u: Table, p: Pid)
    requires v.Keys == t.entries.Keys && p in v && TableJudged(t, v, todo, w, now, u)
    ensures u.OriginalOf(p) ==
            if p in todo && t.entries[p].originalCgroup.None? && v[p].Some? && v[p].value.cgroup.Some? then Lookup(w.cgroups, p)
            else t.OriginalOf(p)
  {
  }

  /** The undo record after a scan: what is read for it, if it is read, and otherwise what it was. */
  lemma RecordAfter(cfg: Config, s: Brain, w: World, now: Instant, p: Pid)
    requires Core(s) && Fits(s, w) && !s.startup && p in Merged(s, w).table.entries
    ensures FullScan(cfg, s, w, now).table.OriginalOf(p) ==
            if GetsRecord(cfg, Merged(s, w), p, w) then Lookup(w.cgroups, p) else Merged(s, w).table.OriginalOf(p)
  {
    var m, v := Merged(s, w), VerdictsIn(cfg, Merged(s, w), w);
    ScanJudgesAtOnce(cfg, s, w, now);
    JudgedOriginal(m.table, v, Todo(m, w), w, now, FullScan(cfg, s, w, now).table, p);
    RecordedIff(cfg, m, w, v, p);
  }

  lemma SameRecorded(cfg: Config, m: Brain, w: World, x: World, p: Pid)
    requires SameSight(w, x)
    ensures GetsRecord(cfg, m, p, x) <==> GetsRecord(cfg, m, p, w)
  {
  }

  /** The undo record of a process agrees exactly if what is read for it does, should it be read for the record. */
  lemma RecordsAgreeIffReadsDo(cfg: Config, s: Brain, w: World, x: World, now: Instant, p: Pid)
    requires Core(s) && Fits(s, w) && Fits(s, x) && !s.startup && SameSight(w, x) && p in Merged(s, w).table.entries
    ensures FullScan(cfg, s, w, now).table.OriginalOf(p) == FullScan(cfg, s, x, now).table.OriginalOf(p) <==>
            (GetsRecord(cfg, Merged(s, w), p, w) ==> Lookup(w.cgroups, p) == Lookup(x.cgroups, p))
  {
    RecordAfter(cfg, s, w, now, p);
    RecordAfter(cfg, s, x, now, p);
    SameMerge(s, w, x);
    SameRecorded(cfg, Merged(s, w), w, x, p);
  }

  lemma SameMerge(s: Brain, w: World, x: World)
    requires SameSight(w, x)
    ensures Merged(s, x) == Merged(s, w)
  {
  }

  lemma RecordedIff(cfg: Config, m: Brain, w: World, v: Verdicts, p: Pid)
    requires v == VerdictsIn(cfg, m, w) && p in m.table.entries
    ensures GetsRecord(cfg, m, p, w) <==>
            p in m.table.UnclassifiedSet() && m.table.entries[p].originalCgroup.None? && v[p].Some? && v[p].value.cgroup.Some?
  {
  }

  /** If the same cgroups are read, the tables are the same. */
  lemma SameReadsSameTable(cfg: Config, s: Brain, w: World, x: World, now: Instant)
    requires Core(s) && Fits(s, w) && Fits(s, x) && !s.startup && SameSight(w, x) && x.cgroups == w.cgroups
    ensures FullScan(cfg, s, x, now).table == FullScan(cfg, s, w, now).table
    ensures FullScan(cfg, s, x, now).managed == FullScan(cfg, s, w, now).managed
  {
    ScanOrderDecidesRecordsOnly(cfg, s, w, x, now);
    ScanKeepsKnown(cfg, s, w, now);
    var t, t' := FullScan(cfg, s, w, now).table, FullScan(cfg, s, x, now).table;
    forall p | p in t.entries ensures t'.entries[p] == t.entries[p] {
      RecordsAgreeIffReadsDo(cfg, s, w, x, now, p);
      SameEntries(t.entries[p], t'.entries[p]);
    }
    assert t'.entries == t.entries;
  }

  lemma SameEntries(a: Entry, b: Entry)
    requires Unrecorded(a) == Unrecorded(b) && a.originalCgroup == b.originalCgroup
    ensures a == b
  {
  }

  lemma ScanKeepsKnown(cfg: Config, s: Brain, w: World, now: Instant)
    requires Core(s) && Fits(s, w) && !s.startup
    ensures FullScan(cfg, s, w, now).table.entries.Keys == Merged(s, w).table.entries.Keys
  {
    ScanJudgesAtOnce(cfg, s, w, now);
  }

  // ------------------------------------------------------------------------------------------
  // Where a process is when its turn comes
  // ------------------------------------------------------------------------------------------

  /** The verdict on `q` moves the process `p` along with it. */
  predicate Takes(t: Table, v: Verdicts, q: Pid, p: Pid)
    requires q in v
  {
    && q != p && v[q].Some? && v[q].value.applyToChildren && v[q].value.cgroup.Some? && TierOf(v[q].value.cgroup.value).Some?
    && p in Kids(t.children, q) && p in t.entries
  }

  lemma {:induction false} PlacementOfConcat(a: Log, b: Log, p: Pid)
    requires NoForget(b, p)
    ensures Placement(a + b, p) == if Placement(b, p).Some? then Placement(b, p) else Placement(a, p)
    decreases |b|
  {
    if b == [] {
      assert a + b == a;
    } else {
      assert (a + b)[..|a + b| - 1] == a + b[..|b| - 1];
      PlacementOfConcat(a, b[..|b| - 1], p);
    }
  }

  /** All moves of `p` are to the same tier. */
  lemma {:induction false} PlacementOfOneTier(log: Log, p: Pid, tier: Tier)
    requires NoForget(log, p) && forall e <- log :: e.Move? && e.pid == p ==> e.tier == tier
    ensures Placement(log, p) == if MovesPid(log, p) then Some(tier) else None
  {
    if log != [] {
      var front, e := log[..|log| - 1], log[|log| - 1];
      PlacementOfOneTier(front, p, tier);
      assert log == front + [e];
      InEither(front, [e], p);
      assert MovesPid([e], p) <==> e.Move? && e.pid == p by { assert e in [e]; }
    }
  }

  lemma {:induction false} ChildMovesTier(children: seq<Pid>, known: set<Pid>, a: Action)
    ensures forall e <- ChildMoves(children, known, a) :: e.Move? && a.cgroup.Some? && TierOf(a.cgroup.value) == Some(e.tier)
  {
    if children != [] { ChildMovesTier(children[1..], known, a); }
  }

  /** Where the requests of a rule put a process other than its own. */
  lemma PlacementOfIssued(t: Table, q: Pid, a: Action, w: World, p: Pid)
    requires q != p && forall c: Pid :: c in t.entries ==> c in w.childOrder
    ensures Placement(Issued(t, q, a, w), p) ==
            if a.applyToChildren && a.cgroup.Some? && TierOf(a.cgroup.value).Some? && p in Kids(t.children, q) && p in t.entries
            then TierOf(a.cgroup.value) else None
  {
    var own: Log := CgroupRead(q, a, w) + Requests(q, a);
    var moves: Log := MovesOfChildren(t, q, a, w);
    IssuedIsShaped(t, q, a, w);
    IssuedFacts(t, q, a, w);
    OwnMovesNoOther(t, q, a, w, p);
    RuleMovesOther(t, q, a, w, p);
    if MovesPid(Issued(t, q, a, w), p) {
      ChildMovesTier(Enumerate(Kids(t.children, q), w.childOrder), t.entries.Keys, a);
      forall e | e in own + moves && e.Move? && e.pid == p ensures e.tier == TierOf(a.cgroup.value).value {
        assert e in own ==> MovesPid(own, p);
      }
      PlacementOfOneTier(Issued(t, q, a, w), p, TierOf(a.cgroup.value).value);
    } else {
      forall e | e in Issued(t, q, a, w) ensures !(e.Move? && e.pid == p) {}
      PlacementOfOneTier(Issued(t, q, a, w), p, Rt);
    }
  }

  /** The requests for a verdict put `p` where the verdict takes it. */
  lemma PlacementOfRequests(t: Table, v: Verdicts, q: Pid, w: World, p: Pid)
    requires q in v && q != p && forall c: Pid :: c in t.entries ==> c in w.childOrder
    ensures Placement(RequestsFor(t, q, v[q], w), p) == if Takes(t, v, q, p) then TierOf(v[q].value.cgroup.value) else None
    ensures NoForget(RequestsFor(t, q, v[q], w), p)
  {
    if v[q].Some? {
      PlacementOfIssued(t, q, v[q].value, w, p);
      IssuedFacts(t, q, v[q].value, w);
    }
  }

  lemma RequestForgetsNothing(t: Table, q: Pid, v: Option<Action>, w: World, p: Pid)
    ensures NoForget(RequestsFor(t, q, v, w), p)
  {
    if v.Some? { IssuedFacts(t, q, v.value, w); }
  }

  lemma NoForgetInEither(a: Log, b: Log, p: Pid)
    requires NoForget(a, p) && NoForget(b, p)
    ensures NoForget(a + b, p)
  {
  }

  lemma {:induction false} RequestsForgetNothing(t: Table, v: Verdicts, todo: seq<Pid>, w: World, p: Pid)
    requires forall q <- todo :: q in v
    ensures NoForget(RequestsForAll(t, v, todo, w), p)
  {
    if todo != [] {
      RequestForgetsNothing(t, todo[0], v[todo[0]], w, p);
      RequestsForgetNothing(t, v, todo[1..], w, p);
      NoForgetInEither(RequestsFor(t, todo[0], v[todo[0]], w), RequestsForAll(t, v, todo[1..], w), p);
    }
  }

  /** Nothing judged before takes `p` along: it is left where it was. */
  lemma {:induction false} NotTaken(t: Table, v: Verdicts, todo: seq<Pid>, w: World, p: Pid)
    requires forall q <- todo :: q in v && q != p && !Takes(t, v, q, p)
    requires forall c: Pid :: c in t.entries ==> c in w.childOrder
    ensures Placement(RequestsForAll(t, v, todo, w), p).None?
  {
    if todo != [] {
      forall q | q in todo[1..] ensures q in v && q != p && !Takes(t, v, q, p) { assert q in todo; }
      PlacementOfRequests(t, v, todo[0], w, p);
      NotTaken(t, v, todo[1..], w, p);
      RequestsForgetNothing(t, v, todo[1..], w, p);
      PlacementOfConcat(RequestsFor(t, todo[0], v[todo[0]], w), RequestsForAll(t, v, todo[1..], w), p);
    }
  }

  /** The one parent that takes `p` along has been judged before. */
  lemma {:induction false} TakenBy(t: Table, v: Verdicts, todo: seq<Pid>, w: World, q: Pid, p: Pid)
    requires Forest(t.children) && Distinct(todo) && q in todo && (forall r <- todo :: r in v && r != p) && Takes(t, v, q, p)
    requires forall c: Pid :: c in t.entries ==> c in w.childOrder
    ensures Placement(RequestsForAll(t, v, todo, w), p) == TierOf(v[q].value.cgroup.value)
  {
    var first, rest := todo[0], todo[1..];
    PlacementOfRequests(t, v, first, w, p);
    RequestsForgetNothing(t, v, rest, w, p);
    PlacementOfConcat(RequestsFor(t, first, v[first], w), RequestsForAll(t, v, rest, w), p);
    if first == q {
      forall r | r in rest ensures r in v && r != p && !Takes(t, v, r, p) {
        var k :| 0 <= k < |rest| && rest[k] == r;
        assert todo[k + 1] == r;
      }
      NotTaken(t, v, rest, w, p);
    } else {
      TakenBy(t, v, rest, w, q, p);
    }
  }

  // ------------------------------------------------------------------------------------------
  // The record, in terms of the order
  // ------------------------------------------------------------------------------------------

  /** `q` stands before `p`. */
  ghost predicate Before(order: seq<Pid>, q: Pid, p: Pid) {
    exists i, j :: 0 <= i < j < |order| && order[i] == q && order[j] == p
  }

  lemma BeforeInTail(order: seq<Pid>, q: Pid, p: Pid)
    requires order != [] && Distinct(order) && p in order
    ensures Before(order, q, p) <==> if order[0] == q then q != p else order[0] != p && Before(order[1..], q, p)
  {
    var tail := order[1..];
    if order[0] == q && q != p {
      var j :| 0 <= j < |order| && order[j] == p;
      assert 0 < j;
    }
    if Before(tail, q, p) {
      var i, j :| 0 <= i < j < |tail| && tail[i] == q && tail[j] == p;
      assert order[i + 1] == q && order[j + 1] == p;
    }
    if Before(order, q, p) {
      var i, j :| 0 <= i < j < |order| && order[i] == q && order[j] == p;
      if order[0] != q { assert tail[i - 1] == q && tail[j - 1] == p; }
    }
  }

  lemma BeforeIsThere(order: seq<Pid>, q: Pid, p: Pid)
    ensures Before(order, q, p) ==> q in order
  {
  }

  /** What is visited before what is the order of the hash table. */
  lemma {:induction false} EnumerateKeepsOrder(s: set<Pid>, order: seq<Pid>, q: Pid, p: Pid)
    requires Distinct(order) && q in s && p in s && p in order
    ensures Before(Enumerate(s, order), q, p) <==> Before(order, q, p)
  {
    BeforeInTail(order, q, p);
    var tail := order[1..];
    if order[0] in s {
      BeforeInTail(Enumerate(s, order), q, p);
      assert Enumerate(s, order)[1..] == Enumerate(s, tail);
    }
    if order[0] != p { EnumerateKeepsOrder(s, tail, q, p); }
  }

  /** An unclassified process whose verdict takes `p` along. */
  predicate TakesAlong(cfg: Config, m: Brain, q: Pid, p: Pid, w: World) {
    && q in m.table.entries && !m.table.entries[q].classified && q != p
    && var v := Verdict(cfg, m, q, w);
       v.Some? && v.value.applyToChildren && v.value.cgroup.Some? && TierOf(v.value.cgroup.value).Some? &&
       p in Kids(m.table.children, q) && p in m.table.entries
  }

  /** Where the daemon has put `p` when it has its turn in the scan: with its parent, if that came first. */
  ghost function PlaceAtTurn(cfg: Config, m: Brain, w: World, p: Pid): Option<Tier> {
    if q: Pid :| TakesAlong(cfg, m, q, p, w) && Before(w.order, q, p)
    then TierOf(Verdict(cfg, m, q, w).value.cgroup.value)
    else Placement(m.log, p)
  }

  lemma TakesIsTakesAlong(cfg: Config, m: Brain, w: World, q: Pid, p: Pid)
    requires q in m.table.UnclassifiedSet()
    ensures Takes(m.table, VerdictsIn(cfg, m, w), q, p) <==> TakesAlong(cfg, m, q, p, w)
  {
  }

  lemma OneTaker(cfg: Config, m: Brain, w: World, q: Pid, r: Pid, p: Pid)
    requires Forest(m.table.children) && TakesAlong(cfg, m, q, p, w) && TakesAlong(cfg, m, r, p, w)
    ensures q == r
  {
  }

  /** With a parent that takes it along, the place depends on which of the two stands first. */
  lemma PlaceWithParent(cfg: Config, m: Brain, w: World, q: Pid, p: Pid)
    requires Forest(m.table.children) && TakesAlong(cfg, m, q, p, w)
    ensures PlaceAtTurn(cfg, m, w, p) ==
            if Before(w.order, q, p) then TierOf(Verdict(cfg, m, q, w).value.cgroup.value) else Placement(m.log, p)
  {
    forall r: Pid | TakesAlong(cfg, m, r, p, w) ensures r == q { OneTaker(cfg, m, w, q, r, p); }
  }

  /** What stands before `p`, and what after. */
  lemma SplitAt(todo: seq<Pid>, p: Pid) returns (a: seq<Pid>, b: seq<Pid>)
    requires Distinct(todo) && p in todo
    ensures todo == a + [p] + b && Distinct(a) && p !in a
    ensures forall q: Pid :: q in a <==> Before(todo, q, p)
  {
    var j :| 0 <= j < |todo| && todo[j] == p;
    a, b := todo[..j], todo[j + 1..];
    forall q | q in a ensures Before(todo, q, p) {
      var i :| 0 <= i < |a| && a[i] == q;
      assert todo[i] == q;
    }
  }

  /** Those that stand before `p` are those that the scan judges before it. */
  lemma JudgedBefore(cfg: Config, m: Brain, w: World, p: Pid, a: seq<Pid>, q: Pid)
    requires Distinct(w.order) && p in m.table.UnclassifiedSet() && p in w.order
    requires forall r: Pid :: r in a <==> Before(Todo(m, w), r, p)
    ensures q in a <==> q in m.table.UnclassifiedSet() && Before(w.order, q, p)
  {
    BeforeIsThere(Todo(m, w), q, p);
    if q in m.table.UnclassifiedSet() { EnumerateKeepsOrder(m.table.UnclassifiedSet(), w.order, q, p); }
  }

  lemma NoneHasTaken(cfg: Config, m: Brain, w: World, p: Pid, a: seq<Pid>)
    requires forall q <- m.table.entries :: q in w.childOrder
    requires forall q <- a :: q in m.table.entries
    requires forall q <- a :: q in m.table.UnclassifiedSet() && q != p && !TakesAlong(cfg, m, q, p, w)
    ensures Placement(RequestsForAll(m.table, VerdictsIn(cfg, m, w), a, w), p).None?
  {
    var v := VerdictsIn(cfg, m, w);
    forall q | q in a ensures q in v && q != p && !Takes(m.table, v, q, p) { TakesIsTakesAlong(cfg, m, w, q, p); }
    NotTaken(m.table, v, a, w, p);
  }

  lemma ParentHasTaken(cfg: Config, m: Brain, w: World, p: Pid, a: seq<Pid>, q: Pid)
    requires Forest(m.table.children) && Distinct(a) && q in a && p !in a && TakesAlong(cfg, m, q, p, w)
    requires forall r <- m.table.entries :: r in w.childOrder
    requires forall r <- a :: r in m.table.entries
    ensures Placement(RequestsForAll(m.table, VerdictsIn(cfg, m, w), a, w), p) == TierOf(Verdict(cfg, m, q, w).value.cgroup.value)
  {
    TakesIsTakesAlong(cfg, m, w, q, p);
    TakenBy(m.table, VerdictsIn(cfg, m, w), a, w, q, p);
  }

  lemma TurnPlacement(cfg: Config, m: Brain, w: World, p: Pid, a: seq<Pid>)
    requires Forest(m.table.children) && Distinct(w.order) && Distinct(a) && p !in a
    requires p in m.table.UnclassifiedSet() && forall q <- m.table.entries :: q in w.order && q in w.childOrder
    requires forall q: Pid :: q in a <==> Before(Todo(m, w), q, p)
    ensures forall q <- a :: q in m.table.entries
    ensures Placement(m.log + RequestsForAll(m.table, VerdictsIn(cfg, m, w), a, w), p) == PlaceAtTurn(cfg, m, w, p)
  {
    forall q: Pid ensures q in a <==> q in m.table.UnclassifiedSet() && Before(w.order, q, p) { JudgedBefore(cfg, m, w, p, a, q); }
    var asked := RequestsForAll(m.table, VerdictsIn(cfg, m, w), a, w);
    RequestsForgetNothing(m.table, VerdictsIn(cfg, m, w), a, w, p);
    PlacementOfConcat(m.log, asked, p);
    if q: Pid :| TakesAlong(cfg, m, q, p, w) && Before(w.order, q, p) {
      ParentHasTaken(cfg, m, w, p, a, q);
      PlaceWithParent(cfg, m, w, q, p);
    } else {
      NoneHasTaken(cfg, m, w, p, a);
    }
  }

  lemma {:induction false} RequestsOfConcat(t: Table, v: Verdicts, a: seq<Pid>, b: seq<Pid>, w: World)
    requires forall q <- a + b :: q in v
    ensures RequestsForAll(t, v, a + b, w) == RequestsForAll(t, v, a, w) + RequestsForAll(t, v, b, w)
  {
    if a == [] {
      assert a + b == b;
    } else {
      assert (a + b)[1..] == a[1..] + b && (a + b)[0] == a[0];
      RequestsOfConcat(t, v, a[1..], b, w);
      Regroup(RequestsFor(t, a[0], v[a[0]], w), RequestsForAll(t, v, a[1..], w), RequestsForAll(t, v, b, w));
    }
  }

  /** What is asked for before the turn of `p`, at its turn, and afterwards. */
  lemma RequestsSplit(t: Table, v: Verdicts, a: seq<Pid>, p: Pid, b: seq<Pid>, w: World)
    requires forall q <- a + [p] + b :: q in v
    ensures p in v && forall q <- a :: q in v
    ensures exists back: Log :: RequestsForAll(t, v, a + [p] + b, w) == RequestsForAll(t, v, a, w) + (RequestsFor(t, p, v[p], w) + back)
  {
    assert p in a + [p] + b && forall q <- a :: q in a + [p] + b;
    assert a + [p] + b == a + ([p] + b);
    forall q | q in b ensures q in v { assert q in a + [p] + b; }
    RequestsOfConcat(t, v, a, [p] + b, w);
    assert ([p] + b)[1..] == b;
  }

  /** A read in the middle of a log, where nobody but the daemon moves processes. */
  lemma ReadInLog(log: Log, front: Log, one: Log, back: Log, p: Pid, found: string, home: string, tierPath: Tier -> string)
    requires log == front + (one + back) && one != [] && one[0] == ReadCgroup(p, Some(found))
    requires OnlyDaemonMoves(log, p, home, tierPath)
    ensures found == PathOf(Placement(front, p), home, tierPath)
  {
    assert log[|front|] == one[0] && log[..|front|] == front;
  }

  lemma IssuedBeginsWithRead(t: Table, p: Pid, a: Action, w: World)
    requires a.cgroup.Some? && p in w.cgroups
    ensures Issued(t, p, a, w) != [] && Issued(t, p, a, w)[0] == ReadCgroup(p, Some(w.cgroups[p]))
  {
  }

  /**
   * If nobody but the daemon moves processes, a scan that reads the cgroup of `p` for its record
   * finds it where the daemon has put it by then: in the tier of the rule that takes it along with
   * its parent, if the parent stands before it in the hash table, and else where it was before the
   * scan.
   */
  lemma RecordOfScan(cfg: Config, s: Brain, w: World, now: Instant, p: Pid, home: string, tierPath: Tier -> string)
    requires Core(s) && Fits(s, w) && !s.startup && GetsRecord(cfg, Merged(s, w), p, w) && p in w.cgroups
    requires OnlyDaemonMoves(FullScan(cfg, s, w, now).log, p, home, tierPath)
    ensures FullScan(cfg, s, w, now).table.OriginalOf(p) == Some(PathOf(PlaceAtTurn(cfg, Merged(s, w), w, p), home, tierPath))
  {
    var m, v, u := Merged(s, w), VerdictsIn(cfg, Merged(s, w), w), FullScan(cfg, s, w, now);
    RecordAfter(cfg, s, w, now, p);
    ScanJudgesAtOnce(cfg, s, w, now);
    MergedIsForest(s, w);
    var a, b := SplitAt(Todo(m, w), p);
    RequestsSplit(m.table, v, a, p, b, w);
    var asked: Log := RequestsForAll(m.table, v, a, w);
    var back: Log :| RequestsForAll(m.table, v, Todo(m, w), w) == asked + (RequestsFor(m.table, p, v[p], w) + back);
    Regroup(m.log, asked, RequestsFor(m.table, p, v[p], w) + back);
    TurnPlacement(cfg, m, w, p, a);
    IssuedBeginsWithRead(m.table, p, v[p].value, w);
    ReadInLog(u.log, m.log + asked, RequestsFor(m.table, p, v[p], w), back, p, w.cgroups[p], home, tierPath);
  }

  lemma MergedIsForest(s: Brain, w: World)
    requires Core(s) && Fits(s, w)
    ensures Forest(Merged(s, w).table.children)
    ensures forall q <- Merged(s, w).table.entries :: q in w.order && q in w.childOrder
  {
    MergedKeepsCore(s, w);
    AgreementGivesForest(Merged(s, w).table);
    ScanLeavesLive(s.table, w.proc);
  }

  /**
   * The order of the hash table decides the undo record of `p`, and so the place it is restored to,
   * exactly if the verdict on its parent takes it along to another place than it is in, and one
   * order has the parent before it and the other does not.
   */
  lemma OrderDecidesRecordIff(cfg: Config, s: Brain, w: World, x: World, now: Instant, p: Pid, home: string, tierPath: Tier -> string)
    requires Core(s) && Fits(s, w) && Fits(s, x) && !s.startup && SameSight(w, x)
    requires GetsRecord(cfg, Merged(s, w), p, w) && p in w.cgroups && p in x.cgroups
    requires OnlyDaemonMoves(FullScan(cfg, s, w, now).log, p, home, tierPath)
    requires OnlyDaemonMoves(FullScan(cfg, s, x, now).log, p, home, tierPath)
    ensures var m := Merged(s, w);
            FullScan(cfg, s, w, now).table.OriginalOf(p) != FullScan(cfg, s, x, now).table.OriginalOf(p) <==>
            exists q: Pid :: TakesAlong(cfg, m, q, p, w) && !(Before(w.order, q, p) <==> Before(x.order, q, p)) &&
                             PathOf(TierOf(Verdict(cfg, m, q, w).value.cgroup.value), home, tierPath) !=
                             PathOf(Placement(m.log, p), home, tierPath)
  {
    var m := Merged(s, w);
    SameMerge(s, w, x);
    SameRecorded(cfg, m, w, x, p);
    RecordOfScan(cfg, s, w, now, p, home, tierPath);
    RecordOfScan(cfg, s, x, now, p, home, tierPath);
    MergedIsForest(s, w);
    SameTakers(cfg, m, w, x, p);
  }

  lemma SameTakers(cfg: Config, m: Brain, w: World, x: World, p: Pid)
    requires SameSight(w, x) && Forest(m.table.children)
    ensures forall q: Pid :: TakesAlong(cfg, m, q, p, x) <==> TakesAlong(cfg, m, q, p, w)
    ensures forall q: Pid :: TakesAlong(cfg, m, q, p, w) ==>
              && PlaceAtTurn(cfg, m, w, p) ==
                 (if Before(w.order, q, p) then TierOf(Verdict(cfg, m, q, w).value.cgroup.value) else Placement(m.log, p))
              && PlaceAtTurn(cfg, m, x, p) ==
                 (if Before(x.order, q, p) then TierOf(Verdict(cfg, m, q, w).value.cgroup.value) else Placement(m.log, p))
    ensures (forall q: Pid :: !TakesAlong(cfg, m, q, p, w)) ==>
              PlaceAtTurn(cfg, m, w, p) == PlaceAtTurn(cfg, m, x, p) == Placement(m.log, p)
  {
    forall q: Pid ensures TakesAlong(cfg, m, q, p, x) <==> TakesAlong(cfg, m, q, p, w) {
      if q in m.table.entries { assert Verdict(cfg, m, q, x) == Verdict(cfg, m, q, w); }
    }
    forall q: Pid | TakesAlong(cfg, m, q, p, w)
      ensures PlaceAtTurn(cfg, m, w, p) ==
              (if Before(w.order, q, p) then TierOf(Verdict(cfg, m, q, w).value.cgroup.value) else Placement(m.log, p))
      ensures PlaceAtTurn(cfg, m, x, p) ==
              (if Before(x.order, q, p) then TierOf(Verdict(cfg, m, q, w).value.cgroup.value) else Placement(m.log, p))
    {
      PlaceWithParent(cfg, m, w, q, p);
      PlaceWithParent(cfg, m, x, q, p);
      assert Verdict(cfg, m, q, x) == Verdict(cfg, m, q, w);
    }
  }
}
