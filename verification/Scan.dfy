/** The full and the incremental scan of /proc over a snapshot of it. */
module Scanning {
  import opened Wrappers
  import opened Types
  import opened ProcessTables

  datatype DirEntry = Numeric(pid: Pid) | Other(name: string)

  /**
   * `listing` is None when /proc cannot be opened; `infos` holds the processes whose files can be
   * read, under the pid they were read for.
   */
  datatype Snapshot = Snapshot(listing: Option<seq<DirEntry>>, infos: map<Pid, ProcessInfo>) {
    ghost predicate WellRead() {
      forall p <- infos :: infos[p].pid == p
    }

    function Entries(): seq<DirEntry> {
      if listing.Some? then listing.value else []
    }
  }

  function Readable(listing: seq<DirEntry>, infos: map<Pid, ProcessInfo>, known: set<Pid>): seq<ProcessInfo> {
    if listing == [] then []
    else
      var rest := Readable(listing[1..], infos, known);
      match listing[0]
      case Numeric(pid) => if pid in infos && pid !in known then [infos[pid]] + rest else rest
      case Other(_) => rest
  }

  function LivePids(listing: seq<DirEntry>): set<Pid> {
    set e | e in listing && e.Numeric? :: e.pid
  }

  method ScanProc(proc: Snapshot) returns (result: seq<ProcessInfo>)
    ensures result == Readable(proc.Entries(), proc.infos, {})
  {
    result := [];
    if proc.listing.None? { return; }
    var dir := proc.listing.value;
    for i := 0 to |dir|
      invariant result + Readable(dir[i..], proc.infos, {}) == Readable(dir, proc.infos, {})
    {
      assert dir[i..][1..] == dir[i + 1..];
      if dir[i].Numeric? && dir[i].pid in proc.infos {
        assert result + ([proc.infos[dir[i].pid]] + Readable(dir[i + 1..], proc.infos, {})) ==
               (result + [proc.infos[dir[i].pid]]) + Readable(dir[i + 1..], proc.infos, {});
        result := result + [proc.infos[dir[i].pid]];
      }
    }
  }

  method ScanProcIncremental(proc: Snapshot, known: set<Pid>) returns (found: seq<ProcessInfo>, live: set<Pid>)
    ensures found == Readable(proc.Entries(), proc.infos, known)
    ensures live == LivePids(proc.Entries())
  {
    found, live := [], {};
    if proc.listing.None? { return; }
    var dir := proc.listing.value;
    for i := 0 to |dir|
      invariant found + Readable(dir[i..], proc.infos, known) == Readable(dir, proc.infos, known)
      invariant live == LivePids(dir[..i])
    {
      assert dir[i..][1..] == dir[i + 1..];
      assert dir[..i + 1] == dir[..i] + [dir[i]];
      if dir[i].Other? { continue; }
      var pid := dir[i].pid;
      live := live + {pid};
      if pid in known { continue; }
      if pid in proc.infos {
        assert found + ([proc.infos[pid]] + Readable(dir[i + 1..], proc.infos, known)) ==
               (found + [proc.infos[pid]]) + Readable(dir[i + 1..], proc.infos, known);
        found := found + [proc.infos[pid]];
      }
    }
    assert dir[..|dir|] == dir;
  }

  lemma {:induction false} SkippingKnownIsHarmless(t: Table, listing: seq<DirEntry>, infos: map<Pid, ProcessInfo>, known: set<Pid>)
    requires known <= t.entries.Keys && forall p <- infos :: infos[p].pid == p
    ensures t.MergeFresh(Readable(listing, infos, known)) == t.MergeFresh(Readable(listing, infos, {}))
    decreases |listing|
  {
    if listing != [] {
      var e, tail := listing[0], listing[1..];
      if e.Numeric? && e.pid in infos {
        var info := infos[e.pid];
        var next := if e.pid in t.entries then t else t.Insert(info);
        SkippingKnownIsHarmless(next, tail, infos, known);
        assert ([info] + Readable(tail, infos, {}))[1..] == Readable(tail, infos, {});
        assert ([info] + Readable(tail, infos, known))[1..] == Readable(tail, infos, known);
      } else {
        SkippingKnownIsHarmless(t, tail, infos, known);
      }
    }
  }

  /**
   * Merging the incremental scan gives the table - entries, index and history - that merging the
   * full scan would have given.
   */
  lemma IncrementalRefinesFull(t: Table, proc: Snapshot)
    requires proc.WellRead()
    ensures t.MergeScan(Readable(proc.Entries(), proc.infos, t.entries.Keys), LivePids(proc.Entries())) ==
            t.MergeScan(Readable(proc.Entries(), proc.infos, {}), LivePids(proc.Entries()))
  {
    SkippingKnownIsHarmless(t, proc.Entries(), proc.infos, t.entries.Keys);
  }

  /** What a scan leaves: live processes only, and every live one that was known or could be read. */
  lemma ScanLeavesLive(t: Table, proc: Snapshot)
    requires proc.WellRead()
    ensures var live := LivePids(proc.Entries());
            t.MergeScan(Readable(proc.Entries(), proc.infos, t.entries.Keys), live).entries.Keys ==
            live * (t.entries.Keys + proc.infos.Keys)
  {
    var found := Readable(proc.Entries(), proc.infos, t.entries.Keys);
    MergedKeys(t, found);
    ReadableIsListed(proc.Entries(), proc.infos, t.entries.Keys);
  }

  lemma {:induction false} MergedKeys(t: Table, found: seq<ProcessInfo>)
    ensures t.MergeFresh(found).entries.Keys == t.entries.Keys + PidsOf(found)
    decreases |found|
  {
    if found != [] {
      var next := if found[0].pid in t.entries then t else t.Insert(found[0]);
      MergedKeys(next, found[1..]);
      assert found == [found[0]] + found[1..];
    }
  }

  function PidsOf(found: seq<ProcessInfo>): set<Pid> {
    set info | info in found :: info.pid
  }

  lemma {:induction false} ReadableIsListed(listing: seq<DirEntry>, infos: map<Pid, ProcessInfo>, known: set<Pid>)
    requires forall p <- infos :: infos[p].pid == p
    ensures PidsOf(Readable(listing, infos, known)) == LivePids(listing) * infos.Keys - known
    decreases |listing|
  {
    if listing != [] {
      var e, tail := listing[0], listing[1..];
      var rest := Readable(tail, infos, known);
      ReadableIsListed(tail, infos, known);
      assert listing == [e] + tail;
      if e.Numeric? {
        assert LivePids(listing) == {e.pid} + LivePids(tail);
        if e.pid in infos && e.pid !in known {
          assert PidsOf([infos[e.pid]] + rest) == {e.pid} + PidsOf(rest);
        }
      } else {
        assert LivePids(listing) == LivePids(tail);
      }
    }
  }
}
