/** The process table: pid -> entry and an incrementally maintained parent -> children index. */
module ProcessTables {
  import opened Wrappers
  import opened Types

  // `Table` is the value of the table together with the history of links made and entries removed;
  // `ProcessTable` is the object that updates its two maps in place and is proved against it.

  datatype Entry = Entry(
    info: ProcessInfo,
    applied: Option<Action>,
    recheckAt: Option<Instant>,
    classified: bool,
    originalCgroup: Option<string>)

  /** One step of the table's history. */
  datatype TableEvent = Linked(child: Pid, parent: Pid) | Removed(pids: set<Pid>)

  type Index = map<Pid, set<Pid>>

  function Kids(children: Index, parent: Pid): set<Pid> {
    if parent in children then children[parent] else {}
  }

  function AddKid(children: Index, parent: Pid, child: Pid): Index {
    children[parent := Kids(children, parent) + {child}]
  }

  function DropKid(children: Index, parent: Pid, child: Pid): Index {
    if parent in children then children[parent := children[parent] - {child}] else children
  }

  function FreshEntry(info: ProcessInfo, originalCgroup: Option<string>): Entry {
    Entry(info, None, None, false, originalCgroup)
  }

  datatype Table = Table(entries: map<Pid, Entry>, children: Index, hist: seq<TableEvent>) {
    function OriginalOf(pid: Pid): Option<string> {
      if pid in entries then entries[pid].originalCgroup else None
    }

    function Insert(info: ProcessInfo): Table {
      var unlinked :=
        if info.pid in entries && entries[info.pid].info.ppid != info.ppid
        then DropKid(children, entries[info.pid].info.ppid, info.pid)
        else children;
      Table(entries[info.pid := FreshEntry(info, OriginalOf(info.pid))],
            AddKid(unlinked, info.ppid, info.pid),
            hist + [Linked(info.pid, info.ppid)])
    }

    function Remove(pid: Pid): Table {
      if pid !in entries then this
      else Table(entries - {pid},
                 DropKid(children, entries[pid].info.ppid, pid) - {pid},
                 hist + [Removed({pid})])
    }

    function Update(pid: Pid, e: Entry): Table
      requires pid in entries && e.info == entries[pid].info
    {
      this.(entries := entries[pid := e])
    }

    function MarkClassified(pid: Pid): Table {
      if pid in entries then Update(pid, entries[pid].(classified := true)) else this
    }

    function MarkUnclassified(pid: Pid): Table {
      if pid in entries then Update(pid, entries[pid].(classified := false, applied := None)) else this
    }

    function SetOriginalCgroup(pid: Pid, path: string): Table {
      if pid in entries && entries[pid].originalCgroup.None?
      then Update(pid, entries[pid].(originalCgroup := Some(path)))
      else this
    }

    function SetApplied(pid: Pid, action: Action, now: Instant): Table {
      if pid in entries
      then Update(pid, entries[pid].(
                    recheckAt := if action.recheckSecs.Some? then Some(now + action.recheckSecs.value * SECOND) else None,
                    applied := Some(action),
                    classified := true))
      else this
    }

    /** The first half of a merge: unknown processes are inserted, known ones left as they are. */
    function MergeFresh(found: seq<ProcessInfo>): Table
      decreases |found|
    {
      if found == [] then this
      else
        var first := if found[0].pid in entries then this else Insert(found[0]);
        first.MergeFresh(found[1..])
    }

    function Stale(live: set<Pid>): set<Pid> {
      entries.Keys - live
    }

    /** The second half: every entry that is not live is removed; the order does not matter. */
    function Without(dead: set<Pid>): Table
      requires dead <= entries.Keys
    {
      Table(entries - dead,
            map p | p in children && p !in dead ::
              (set c | c in children[p] && !(c in dead && entries[c].info.ppid == p)),
            hist + [Removed(dead)])
    }

    function MergeScan(found: seq<ProcessInfo>, live: set<Pid>): Table {
      var merged := MergeFresh(found);
      merged.Without(merged.Stale(live))
    }

    /** Comm names of the ancestors of `pid`, nearest first, at most `depth` of them. */
    function AncestorComms(pid: Pid, depth: nat): seq<string>
      decreases depth
    {
      if depth == 0 || pid !in entries then []
      else
        var ppid := entries[pid].info.ppid;
        if ppid == 0 || ppid == pid || ppid !in entries then []
        else [entries[ppid].info.comm] + AncestorComms(ppid, depth - 1)
    }

    function ExpiredSet(now: Instant): set<Pid> {
      set p | p in entries && entries[p].recheckAt.Some? && now >= entries[p].recheckAt.value
    }

    function UnclassifiedSet(): set<Pid> {
      set p | p in entries && !entries[p].classified
    }

    function MovedSet(): set<Pid> {
      set p | p in entries && entries[p].applied.Some? && entries[p].applied.value.cgroup.Some?
    }

    /** The processes under a rule with a cgroup, each with the cgroup it was first found in. */
    function Moved(order: seq<Pid>): seq<(Pid, Option<string>)> {
      if order == [] then []
      else if order[0] in MovedSet() then [(order[0], OriginalOf(order[0]))] + Moved(order[1..])
      else Moved(order[1..])
    }
  }

  const EMPTY_TABLE: Table := Table(map[], map[], [])

  // ------------------------------------------------------------------------------------------
  // What the index means, in terms of the history alone
  // ------------------------------------------------------------------------------------------

  /** Position of the last insertion of `child`, or -1. */
  function LastLinked(hist: seq<TableEvent>, child: Pid): (r: int)
    ensures -1 <= r < |hist|
  {
    if hist == [] then -1
    else if hist[|hist| - 1].Linked? && hist[|hist| - 1].child == child then |hist| - 1
    else LastLinked(hist[..|hist| - 1], child)
  }

  /** Position of the last removal of `pid` as an entry, or -1. */
  function LastRemoved(hist: seq<TableEvent>, pid: Pid): (r: int)
    ensures -1 <= r < |hist|
  {
    if hist == [] then -1
    else if hist[|hist| - 1].Removed? && pid in hist[|hist| - 1].pids then |hist| - 1
    else LastRemoved(hist[..|hist| - 1], pid)
  }

  /** `parent` has not been removed as an entry since `child` was last inserted. */
  predicate LinkLive(hist: seq<TableEvent>, child: Pid, parent: Pid) {
    LastRemoved(hist, parent) < LastLinked(hist, child)
  }

  /** `c` is an entry exactly when it was inserted after it was last removed. */
  predicate EntryAgrees(t: Table, c: Pid) {
    && (c in t.entries <==> LinkLive(t.hist, c, c))
    && (c in t.entries ==> t.entries[c].info.pid == c)
  }

  /** `c` is indexed below `p` exactly when `p` is its parent pid and the link is still live. */
  predicate KidAgrees(t: Table, c: Pid, p: Pid) {
    c in Kids(t.children, p) <==> c in t.entries && t.entries[c].info.ppid == p && LinkLive(t.hist, c, p)
  }

  /** The exact agreement of the entries and of the index with the history. */
  ghost predicate Agrees(t: Table) {
    && (forall c: Pid :: EntryAgrees(t, c))
    && (forall c: Pid, p: Pid :: KidAgrees(t, c, p))
  }

  lemma HistoryStep(hist: seq<TableEvent>, e: TableEvent, c: Pid)
    ensures LastLinked(hist + [e], c) == if e.Linked? && e.child == c then |hist| else LastLinked(hist, c)
    ensures LastRemoved(hist + [e], c) == if e.Removed? && c in e.pids then |hist| else LastRemoved(hist, c)
  {
    assert (hist + [e])[..|hist|] == hist;
  }

  lemma InsertAgrees(t: Table, info: ProcessInfo)
    requires Agrees(t)
    ensures Agrees(t.Insert(info))
  {
    var u, e := t.Insert(info), Linked(info.pid, info.ppid);
    forall c: Pid ensures EntryAgrees(u, c) {
      HistoryStep(t.hist, e, c);
      assert EntryAgrees(t, c);
    }
    forall c: Pid, p: Pid ensures KidAgrees(u, c, p) {
      HistoryStep(t.hist, e, c);
      HistoryStep(t.hist, e, p);
      assert KidAgrees(t, c, p);
    }
  }

  lemma WithoutAgrees(t: Table, dead: set<Pid>)
    requires Agrees(t) && dead <= t.entries.Keys
    ensures Agrees(t.Without(dead))
  {
    var u, e := t.Without(dead), Removed(dead);
    forall c: Pid ensures EntryAgrees(u, c) {
      HistoryStep(t.hist, e, c);
      assert EntryAgrees(t, c);
    }
    forall c: Pid, p: Pid ensures KidAgrees(u, c, p) {
      HistoryStep(t.hist, e, c);
      HistoryStep(t.hist, e, p);
      assert KidAgrees(t, c, p);
    }
  }

  /** Removing one entry is the sweep of a single pid. */
  lemma RemoveIsWithout(t: Table, pid: Pid)
    requires pid in t.entries
    ensures t.Remove(pid) == t.Without({pid})
  {
    var u, v := t.Remove(pid), t.Without({pid});
    assert u.entries == v.entries;
    forall p | p in u.children ensures p in v.children && u.children[p] == v.children[p] {}
    assert u.children == v.children;
  }

  lemma WithoutNothing(t: Table)
    ensures t.Without({}).entries == t.entries && t.Without({}).children == t.children
  {
    forall p | p in t.children ensures t.Without({}).children[p] == t.children[p] {}
    assert t.Without({}).children.Keys == t.children.Keys;
  }

  /** One more removal on top of a sweep, the history aside. */
  lemma RemoveAfterWithout(t: Table, done: set<Pid>, pid: Pid)
    requires done <= t.entries.Keys && pid in t.entries && pid !in done
    ensures var u, v := t.Without(done).Remove(pid), t.Without(done + {pid});
            u.entries == v.entries && u.children == v.children
  {
    var u, v := t.Without(done).Remove(pid), t.Without(done + {pid});
    assert u.entries.Keys == v.entries.Keys;
    forall p | p in v.children ensures p in u.children && u.children[p] == v.children[p] {}
    assert u.children.Keys == v.children.Keys;
  }

  lemma RemoveAgrees(t: Table, pid: Pid)
    requires Agrees(t)
    ensures Agrees(t.Remove(pid))
  {
    if pid in t.entries {
      RemoveIsWithout(t, pid);
      WithoutAgrees(t, {pid});
    }
  }

  lemma {:induction false} MergeFreshAgrees(t: Table, found: seq<ProcessInfo>)
    requires Agrees(t)
    ensures Agrees(t.MergeFresh(found))
    decreases |found|
  {
    if found != [] {
      if found[0].pid !in t.entries { InsertAgrees(t, found[0]); }
      MergeFreshAgrees(if found[0].pid in t.entries then t else t.Insert(found[0]), found[1..]);
    }
  }

  /** Every mutation of the table, as data, so that a whole run is a sequence of them. */
  datatype TableOp =
    | OpInsert(info: ProcessInfo)
    | OpRemove(pid: Pid)
    | OpMark(pid: Pid)
    | OpUnmark(pid: Pid)
    | OpOriginal(pid: Pid, path: string)
    | OpApplied(pid: Pid, action: Action, now: Instant)
    | OpMerge(found: seq<ProcessInfo>, live: set<Pid>)

  function Exec(t: Table, op: TableOp): Table {
    match op
    case OpInsert(info) => t.Insert(info)
    case OpRemove(pid) => t.Remove(pid)
    case OpMark(pid) => t.MarkClassified(pid)
    case OpUnmark(pid) => t.MarkUnclassified(pid)
    case OpOriginal(pid, path) => t.SetOriginalCgroup(pid, path)
    case OpApplied(pid, action, now) => t.SetApplied(pid, action, now)
    case OpMerge(found, live) => t.MergeScan(found, live)
  }

  function ExecAll(ops: seq<TableOp>): Table {
    if ops == [] then EMPTY_TABLE else Exec(ExecAll(ops[..|ops| - 1]), ops[|ops| - 1])
  }

  /** An update that changes no process information keeps the agreement. */
  lemma UpdateAgrees(t: Table, pid: Pid, e: Entry)
    requires Agrees(t) && pid in t.entries && e.info == t.entries[pid].info
    ensures Agrees(t.Update(pid, e))
  {
    forall c: Pid ensures EntryAgrees(t.Update(pid, e), c) { assert EntryAgrees(t, c); }
    forall c: Pid, p: Pid ensures KidAgrees(t.Update(pid, e), c, p) { assert KidAgrees(t, c, p); }
  }

  lemma MergeScanAgrees(t: Table, found: seq<ProcessInfo>, live: set<Pid>)
    requires Agrees(t)
    ensures Agrees(t.MergeScan(found, live))
  {
    MergeFreshAgrees(t, found);
    WithoutAgrees(t.MergeFresh(found), t.MergeFresh(found).Stale(live));
  }

  lemma ExecAgrees(t: Table, op: TableOp)
    requires Agrees(t)
    ensures Agrees(Exec(t, op))
  {
    match op
    case OpInsert(info) => InsertAgrees(t, info);
    case OpRemove(pid) => RemoveAgrees(t, pid);
    case OpMerge(found, live) => MergeScanAgrees(t, found, live);
    case OpMark(pid) => if pid in t.entries { UpdateAgrees(t, pid, t.MarkClassified(pid).entries[pid]); }
    case OpUnmark(pid) => if pid in t.entries { UpdateAgrees(t, pid, t.MarkUnclassified(pid).entries[pid]); }
    case OpOriginal(pid, path) => if pid in t.entries { UpdateAgrees(t, pid, t.SetOriginalCgroup(pid, path).entries[pid]); }
    case OpApplied(pid, action, now) => if pid in t.entries { UpdateAgrees(t, pid, t.SetApplied(pid, action, now).entries[pid]); }
  }

  /** Over every run from the empty table, the index is exactly what the history says. */
  lemma {:induction false} EveryRunAgrees(ops: seq<TableOp>)
    ensures Agrees(ExecAll(ops))
  {
    if ops != [] {
      EveryRunAgrees(ops[..|ops| - 1]);
      ExecAgrees(ExecAll(ops[..|ops| - 1]), ops[|ops| - 1]);
    }
  }

  /** Each pid is below at most one parent, and every indexed child is a live entry. */
  ghost predicate Forest(children: Index) {
    forall p: Pid, q: Pid, c: Pid :: c in Kids(children, p) && c in Kids(children, q) ==> p == q
  }

  lemma AgreementGivesForest(t: Table)
    requires Agrees(t)
    ensures Forest(t.children)
    ensures forall p: Pid :: Kids(t.children, p) <= t.entries.Keys
    ensures forall p: Pid, c: Pid :: c in Kids(t.children, p) ==> c in t.entries && t.entries[c].info.ppid == p
  {
    forall p: Pid, q: Pid, c: Pid | c in Kids(t.children, p) && c in Kids(t.children, q) ensures p == q {
      assert KidAgrees(t, c, p) && KidAgrees(t, c, q);
    }
    forall p: Pid, c: Pid | c in Kids(t.children, p) ensures c in t.entries && t.entries[c].info.ppid == p {
      assert KidAgrees(t, c, p);
    }
  }

  lemma EveryRunIsForest(ops: seq<TableOp>)
    ensures Forest(ExecAll(ops).children)
    ensures forall p: Pid :: Kids(ExecAll(ops).children, p) <= ExecAll(ops).entries.Keys
  {
    EveryRunAgrees(ops);
    AgreementGivesForest(ExecAll(ops));
  }

  /**
   * "The children of p are the entries whose parent is p" fails for the table of some run: a child
   * whose parent was removed and came back keeps its parent pid but is not indexed below it.
   */
  lemma OrphanIsNotIndexed(parent: ProcessInfo, child: ProcessInfo)
    requires parent.pid != child.pid && child.ppid == parent.pid && parent.ppid != parent.pid
    ensures var t := ExecAll([OpInsert(parent), OpInsert(child), OpRemove(parent.pid), OpInsert(parent)]);
            child.pid in t.entries && t.entries[child.pid].info.ppid == parent.pid && parent.pid in t.entries &&
            child.pid !in Kids(t.children, parent.pid)
  {
    var ops := [OpInsert(parent), OpInsert(child), OpRemove(parent.pid), OpInsert(parent)];
    assert ops[..3][..2][..1] == [OpInsert(parent)];
    assert ops[..3][..2] == [OpInsert(parent), OpInsert(child)];
    assert ops[..3] == [OpInsert(parent), OpInsert(child), OpRemove(parent.pid)];
    var t1 := ExecAll([OpInsert(parent)]);
    assert [OpInsert(parent)][..0] == [];
    assert t1 == Exec(ExecAll([]), OpInsert(parent));
    var t2 := ExecAll(ops[..3][..2]);
    assert t2 == t1.Insert(child);
    var t3 := ExecAll(ops[..3]);
    assert t3 == t2.Remove(parent.pid);
    assert ExecAll(ops) == t3.Insert(parent);
  }

  // ------------------------------------------------------------------------------------------
  // The undo record of an entry
  // ------------------------------------------------------------------------------------------

  predicate RemovesEntry(t: Table, op: TableOp, pid: Pid) {
    || (op.OpRemove? && op.pid == pid)
    || (op.OpMerge? && pid !in op.live)
  }

  lemma {:induction false} MergeFreshKeepsKnown(t: Table, found: seq<ProcessInfo>, pid: Pid)
    requires pid in t.entries
    ensures var r := t.MergeFresh(found); pid in r.entries && r.entries[pid] == t.entries[pid]
    decreases |found|
  {
    if found != [] {
      MergeFreshKeepsKnown(if found[0].pid in t.entries then t else t.Insert(found[0]), found[1..], pid);
    }
  }

  /**
   * Once recorded, the original cgroup of an entry survives every operation that does not remove
   * the entry, re-insertion by an exec included.
   */
  lemma OriginalCgroupIsSticky(t: Table, op: TableOp, pid: Pid)
    requires pid in t.entries && t.entries[pid].originalCgroup.Some?
    ensures RemovesEntry(t, op, pid) ==> pid !in Exec(t, op).entries
    ensures !RemovesEntry(t, op, pid) ==>
              pid in Exec(t, op).entries && Exec(t, op).OriginalOf(pid) == t.OriginalOf(pid)
  {
    if op.OpMerge? { MergeFreshKeepsKnown(t, op.found, pid); }
  }

  // ------------------------------------------------------------------------------------------
  // Ancestors and deadlines
  // ------------------------------------------------------------------------------------------

  /** The k-th known ancestor; pid 0, a process that is its own parent and unknown parents end the line. */
  function Ancestor(t: Table, pid: Pid, k: nat): Option<Pid>
    decreases k
  {
    if pid !in t.entries then None
    else if k == 0 then Some(pid)
    else
      var ppid := t.entries[pid].info.ppid;
      if ppid == 0 || ppid == pid then None else Ancestor(t, ppid, k - 1)
  }

  /** The names listed are those of the ancestors that exist, in order, up to the depth. */
  lemma {:induction false} AncestorCommsAreAncestors(t: Table, pid: Pid, depth: nat, k: nat)
    ensures k < |t.AncestorComms(pid, depth)| <==> k < depth && Ancestor(t, pid, k + 1).Some?
    ensures k < |t.AncestorComms(pid, depth)| ==>
              Ancestor(t, pid, k + 1).value in t.entries &&
              t.AncestorComms(pid, depth)[k] == t.entries[Ancestor(t, pid, k + 1).value].info.comm
    decreases depth
  {
    if depth > 0 && pid in t.entries {
      var ppid := t.entries[pid].info.ppid;
      if ppid != 0 && ppid != pid && ppid in t.entries {
        if k > 0 { AncestorCommsAreAncestors(t, ppid, depth - 1, k - 1); }
        else { assert Ancestor(t, ppid, 0) == Some(ppid); }
      } else if ppid !in t.entries {
        assert Ancestor(t, ppid, k).None?;
      }
    }
  }

  /** An applied action is due for a recheck exactly when it asks for one and its time has passed. */
  lemma RecheckIsDue(t: Table, pid: Pid, action: Action, now: Instant, later: Instant)
    requires pid in t.entries
    ensures pid in t.SetApplied(pid, action, now).ExpiredSet(later) <==>
            action.recheckSecs.Some? && later - now >= action.recheckSecs.value * SECOND
  {
  }

  lemma {:induction false} MovedHolds(t: Table, order: seq<Pid>, x: (Pid, Option<string>))
    ensures x in t.Moved(order) <==> x.0 in t.MovedSet() && x.0 in order && x.1 == t.OriginalOf(x.0)
  {
    if order != [] {
      MovedHolds(t, order[1..], x);
      assert order == [order[0]] + order[1..];
    }
  }

  // ------------------------------------------------------------------------------------------
  // The object
  // ------------------------------------------------------------------------------------------

  class ProcessTable {
    var entries: map<Pid, Entry>
    var children: Index
    ghost var hist: seq<TableEvent>

    ghost function View(): Table
      reads this
    {
      Table(entries, children, hist)
    }

    ghost predicate Valid()
      reads this
    {
      Agrees(View())
    }

    constructor ()
      ensures Valid() && View() == EMPTY_TABLE
    {
      entries, children, hist := map[], map[], [];
    }

    method Insert(info: ProcessInfo)
      requires Valid()
      modifies this
      ensures Valid() && View() == old(View()).Insert(info)
    {
      InsertAgrees(View(), info);
      var pid, ppid := info.pid, info.ppid;
      var originalCgroup := None;
      if pid in entries {
        originalCgroup := entries[pid].originalCgroup;
        if entries[pid].info.ppid != ppid {
          children := DropKid(children, entries[pid].info.ppid, pid);
        }
      }
      children := AddKid(children, ppid, pid);
      entries := entries[pid := FreshEntry(info, originalCgroup)];
      hist := hist + [Linked(pid, ppid)];
    }

    method Remove(pid: Pid)
      requires Valid()
      modifies this
      ensures Valid() && View() == old(View()).Remove(pid)
    {
      RemoveAgrees(View(), pid);
      if pid in entries {
        children := DropKid(children, entries[pid].info.ppid, pid);
        children := children - {pid};
        entries := entries - {pid};
        hist := hist + [Removed({pid})];
      }
    }

    method MarkClassified(pid: Pid)
      requires Valid()
      modifies this
      ensures Valid() && View() == old(View()).MarkClassified(pid)
    {
      ExecAgrees(View(), OpMark(pid));
      if pid in entries {
        entries := entries[pid := entries[pid].(classified := true)];
      }
    }

    method MarkUnclassified(pid: Pid)
      requires Valid()
      modifies this
      ensures Valid() && View() == old(View()).MarkUnclassified(pid)
    {
      ExecAgrees(View(), OpUnmark(pid));
      if pid in entries {
        entries := entries[pid := entries[pid].(classified := false, applied := None)];
      }
    }

    method SetOriginalCgroup(pid: Pid, path: string)
      requires Valid()
      modifies this
      ensures Valid() && View() == old(View()).SetOriginalCgroup(pid, path)
    {
      ExecAgrees(View(), OpOriginal(pid, path));
      if pid in entries && entries[pid].originalCgroup.None? {
        entries := entries[pid := entries[pid].(originalCgroup := Some(path))];
      }
    }

    method SetApplied(pid: Pid, action: Action, now: Instant)
      requires Valid()
      modifies this
      ensures Valid() && View() == old(View()).SetApplied(pid, action, now)
    {
      ExecAgrees(View(), OpApplied(pid, action, now));
      if pid in entries {
        var recheckAt := None;
        if action.recheckSecs.Some? {
          recheckAt := Some(now + action.recheckSecs.value * SECOND);
        }
        entries := entries[pid := entries[pid].(recheckAt := recheckAt, applied := Some(action), classified := true)];
      }
    }

    method MergeScan(found: seq<ProcessInfo>, live: set<Pid>)
      requires Valid()
      modifies this
      ensures Valid() && View() == old(View()).MergeScan(found, live)
    {
      for i := 0 to |found|
        invariant Valid()
        invariant View().MergeFresh(found[i..]) == old(View()).MergeFresh(found)
      {
        assert found[i..][1..] == found[i + 1..];
        if found[i].pid !in entries {
          InsertAgrees(View(), found[i]);
          children := AddKid(children, found[i].ppid, found[i].pid);
          entries := entries[found[i].pid := FreshEntry(found[i], None)];
          hist := hist + [Linked(found[i].pid, found[i].ppid)];
        }
      }
      var stale := set p | p in entries && p !in live;
      assert stale == View().Stale(live);
      assert View() == old(View()).MergeFresh(found);
      Sweep(stale);
    }

    /** The stale entries are removed one by one, in whatever order. */
    method Sweep(stale: set<Pid>)
      requires Valid() && stale <= entries.Keys
      modifies this
      ensures Valid() && View() == old(View()).Without(stale)
    {
      ghost var merged := View();
      WithoutAgrees(merged, stale);
      WithoutNothing(merged);
      ghost var done: set<Pid> := {};
      var rest := stale;
      while rest != {}
        invariant done !! rest && done + rest == stale <= merged.entries.Keys
        invariant Valid()
        invariant entries == merged.Without(done).entries && children == merged.Without(done).children
        decreases rest
      {
        var pid :| pid in rest;
        RemoveAfterWithout(merged, done, pid);
        Remove(pid);
        done, rest := done + {pid}, rest - {pid};
      }
      assert done == stale;
      hist := merged.Without(stale).hist;
    }

    /** Entries whose recheck deadline has passed, in the iteration order of the hash map. */
    method ExpiredRechecks(now: Instant, order: seq<Pid>) returns (r: seq<Pid>)
      requires Covers(order, entries.Keys)
      ensures r == Enumerate(View().ExpiredSet(now), order)
    {
      r := [];
      for i := 0 to |order|
        invariant r + Enumerate(View().ExpiredSet(now), order[i..]) == Enumerate(View().ExpiredSet(now), order)
      {
        assert order[i..][1..] == order[i + 1..];
        if order[i] in entries && entries[order[i]].recheckAt.Some? && now >= entries[order[i]].recheckAt.value {
          Regroup(r, [order[i]], Enumerate(View().ExpiredSet(now), order[i + 1..]));
          r := r + [order[i]];
        }
      }
    }

    method UnclassifiedPids(order: seq<Pid>) returns (r: seq<Pid>)
      requires Covers(order, entries.Keys)
      ensures r == Enumerate(View().UnclassifiedSet(), order)
    {
      r := [];
      for i := 0 to |order|
        invariant r + Enumerate(View().UnclassifiedSet(), order[i..]) == Enumerate(View().UnclassifiedSet(), order)
      {
        assert order[i..][1..] == order[i + 1..];
        if order[i] in entries && !entries[order[i]].classified {
          Regroup(r, [order[i]], Enumerate(View().UnclassifiedSet(), order[i + 1..]));
          r := r + [order[i]];
        }
      }
    }

    /** Moved processes, each with the cgroup it is to be restored to. */
    method MovedPids(order: seq<Pid>) returns (r: seq<(Pid, Option<string>)>)
      requires Covers(order, entries.Keys)
      ensures r == View().Moved(order)
    {
      r := [];
      for i := 0 to |order|
        invariant r + View().Moved(order[i..]) == View().Moved(order)
      {
        assert order[i..][1..] == order[i + 1..];
        if order[i] in entries && entries[order[i]].applied.Some? && entries[order[i]].applied.value.cgroup.Some? {
          var pair := (order[i], entries[order[i]].originalCgroup);
          Regroup(r, [pair], View().Moved(order[i + 1..]));
          r := r + [pair];
        }
      }
    }

    method AncestorComms(pid: Pid, maxDepth: nat) returns (comms: seq<string>)
      ensures comms == View().AncestorComms(pid, maxDepth)
    {
      comms := [];
      var current := pid;
      for d := 0 to maxDepth
        invariant comms + View().AncestorComms(current, maxDepth - d) == View().AncestorComms(pid, maxDepth)
      {
        if current !in entries { return; }
        var ppid := entries[current].info.ppid;
        if ppid == 0 || ppid == current { return; }
        if ppid !in entries { return; }
        comms := comms + [entries[ppid].info.comm];
        current := ppid;
      }
    }
  }
}
