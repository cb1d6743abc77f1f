/** What the daemon asks of the kernel, in order, and what the log of its requests says about one pid. */
module Effects {
  import opened Wrappers
  import opened Types

  datatype Tier = Rt | Interactive | System | Background | IdleTier | Swapstorm

  function TierOf(name: string): Option<Tier> {
    match name
    case "rt" => Some(Rt)
    case "interactive" => Some(Interactive)
    case "system" => Some(System)
    case "background" => Some(Background)
    case "idle" => Some(IdleTier)
    case "swapstorm" => Some(Swapstorm)
    case _ => None
  }

  /** The name of the tier's directory, which is the name rules use. */
  function NameOf(t: Tier): string {
    match t
    case Rt => "rt"
    case Interactive => "interactive"
    case System => "system"
    case Background => "background"
    case IdleTier => "idle"
    case Swapstorm => "swapstorm"
  }

  /** A name is that of a tier exactly if the tier is found by it. */
  lemma TiersAreNamed(name: string, t: Tier)
    ensures TierOf(name) == Some(t) <==> name == NameOf(t)
  {
  }

  datatype Cause = ByRule | ByParentRule | ByFocus | ByThrottle | ByPressure | ByControl

  /**
   * `ReadCgroup` is the read of the current cgroup that precedes a move by a rule, with its
   * outcome; `Forget` marks the removal of table entries, that is, the end of those lifetimes;
   * `SetProfile` is the switch of the scheduling profile.
   */
  datatype Effect =
    | SetNice(pid: Pid, nice: int, cause: Cause)
    | Move(pid: Pid, tier: Tier, cause: Cause)
    | SetSched(pid: Pid, policy: string, priority: nat)
    | SetOom(pid: Pid, adj: int)
    | ReadCgroup(pid: Pid, found: Option<string>)
    | Forget(pids: set<Pid>)
    | Restore(pid: Pid, path: string)
    | SetProfile(conservative: bool)

  type Log = seq<Effect>

  // ------------------------------------------------------------------------------------------
  // The last nice value issued for a pid
  // ------------------------------------------------------------------------------------------

  function LastNice(log: Log, pid: Pid): Option<int> {
    if log == [] then None
    else
      var e := log[|log| - 1];
      if e.SetNice? && e.pid == pid then Some(e.nice) else LastNice(log[..|log| - 1], pid)
  }

  /** The same, over the writes of the foreground tracker alone. */
  function LastFocusNice(log: Log, pid: Pid): Option<int> {
    if log == [] then None
    else
      var e := log[|log| - 1];
      if e.SetNice? && e.pid == pid && e.cause == ByFocus then Some(e.nice) else LastFocusNice(log[..|log| - 1], pid)
  }

  lemma {:induction false} NiceOfConcat(a: Log, b: Log, pid: Pid)
    ensures LastNice(a + b, pid) == if LastNice(b, pid).Some? then LastNice(b, pid) else LastNice(a, pid)
    ensures LastFocusNice(a + b, pid) ==
            if LastFocusNice(b, pid).Some? then LastFocusNice(b, pid) else LastFocusNice(a, pid)
  {
    if b == [] {
      assert a + b == a;
    } else {
      assert (a + b)[..|a + b| - 1] == a + b[..|b| - 1];
      NiceOfConcat(a, b[..|b| - 1], pid);
    }
  }

  /** No nice value is issued for `pid`. */
  predicate NoNice(log: Log, pid: Pid) {
    forall e <- log :: !(e.SetNice? && e.pid == pid)
  }

  lemma {:induction false} NoNiceNoLast(log: Log, pid: Pid)
    requires NoNice(log, pid)
    ensures LastNice(log, pid).None? && LastFocusNice(log, pid).None?
  {
    if log != [] { NoNiceNoLast(log[..|log| - 1], pid); }
  }

  predicate NoFocusNice(log: Log) {
    forall e <- log :: !(e.SetNice? && e.cause == ByFocus)
  }

  lemma {:induction false} NoFocusNiceNoLast(log: Log, pid: Pid)
    requires NoFocusNice(log)
    ensures LastFocusNice(log, pid).None?
  {
    if log != [] { NoFocusNiceNoLast(log[..|log| - 1], pid); }
  }

  // ------------------------------------------------------------------------------------------
  // The scheduling profile that was last set
  // ------------------------------------------------------------------------------------------

  function LastProfile(log: Log): Option<bool> {
    if log == [] then None
    else if log[|log| - 1].SetProfile? then Some(log[|log| - 1].conservative)
    else LastProfile(log[..|log| - 1])
  }

  predicate NoProfile(log: Log) {
    forall e <- log :: !e.SetProfile?
  }

  lemma {:induction false} ProfileStays(log: Log, issued: Log)
    requires NoProfile(issued)
    ensures LastProfile(log + issued) == LastProfile(log)
    decreases |issued|
  {
    if issued == [] {
      assert log + issued == log;
    } else {
      assert (log + issued)[..|log + issued| - 1] == log + issued[..|issued| - 1];
      ProfileStays(log, issued[..|issued| - 1]);
    }
  }

  // ------------------------------------------------------------------------------------------
  // The tier a pid was last moved to, by its own rule or with the focus
  // ------------------------------------------------------------------------------------------

  predicate Places(e: Effect, pid: Pid) {
    e.Move? && e.pid == pid && (e.cause == ByRule || e.cause == ByFocus)
  }

  function LastPlace(log: Log, pid: Pid): Option<Tier> {
    if log == [] then None
    else
      var e := log[|log| - 1];
      if Places(e, pid) then Some(e.tier) else LastPlace(log[..|log| - 1], pid)
  }

  lemma {:induction false} PlaceOfConcat(a: Log, b: Log, pid: Pid)
    ensures LastPlace(a + b, pid) == if LastPlace(b, pid).Some? then LastPlace(b, pid) else LastPlace(a, pid)
  {
    if b == [] {
      assert a + b == a;
    } else {
      assert (a + b)[..|a + b| - 1] == a + b[..|b| - 1];
      PlaceOfConcat(a, b[..|b| - 1], pid);
    }
  }

  predicate NoPlace(log: Log, pid: Pid) {
    forall e <- log :: !Places(e, pid)
  }

  lemma {:induction false} NoPlaceNoLast(log: Log, pid: Pid)
    requires NoPlace(log, pid)
    ensures LastPlace(log, pid).None?
  {
    if log != [] { NoPlaceNoLast(log[..|log| - 1], pid); }
  }

  // ------------------------------------------------------------------------------------------
  // The cgroup a pid was first seen in, within its current lifetime
  // ------------------------------------------------------------------------------------------

  function RecordRead(original: Option<string>, e: Effect, pid: Pid): Option<string> {
    if e.Forget? && pid in e.pids then None
    else if e.ReadCgroup? && e.pid == pid && original.None? then e.found
    else original
  }

  /** The first successful read since the last `Forget` of `pid`, starting from `original`. */
  function FoldRead(original: Option<string>, log: Log, pid: Pid): Option<string> {
    if log == [] then original
    else RecordRead(FoldRead(original, log[..|log| - 1], pid), log[|log| - 1], pid)
  }

  function FirstRead(log: Log, pid: Pid): Option<string> {
    FoldRead(None, log, pid)
  }

  lemma {:induction false} FoldOfConcat(original: Option<string>, a: Log, b: Log, pid: Pid)
    ensures FoldRead(original, a + b, pid) == FoldRead(FoldRead(original, a, pid), b, pid)
    decreases |b|
  {
    if b == [] {
      assert a + b == a;
    } else {
      assert (a + b)[..|a + b| - 1] == a + b[..|b| - 1];
      FoldOfConcat(original, a, b[..|b| - 1], pid);
    }
  }

  predicate NoReadNorForget(log: Log, pid: Pid) {
    forall e <- log :: !(e.ReadCgroup? && e.pid == pid) && !(e.Forget? && pid in e.pids)
  }

  lemma {:induction false} NoReadKeepsFirst(original: Option<string>, log: Log, pid: Pid)
    requires NoReadNorForget(log, pid)
    ensures FoldRead(original, log, pid) == original
  {
    if log != [] { NoReadKeepsFirst(original, log[..|log| - 1], pid); }
  }

  predicate NoForget(log: Log, pid: Pid) {
    forall e <- log :: !(e.Forget? && pid in e.pids)
  }

  lemma {:induction false} FirstReadStays(original: Option<string>, log: Log, pid: Pid)
    requires NoForget(log, pid) && original.Some?
    ensures FoldRead(original, log, pid) == original
  {
    if log != [] { FirstReadStays(original, log[..|log| - 1], pid); }
  }

  /** The `k`-th request reads the cgroup of `pid` in its current lifetime. */
  predicate LifetimeRead(log: Log, pid: Pid, k: int) {
    0 <= k < |log| && log[k].ReadCgroup? && log[k].pid == pid && NoForget(log[k..], pid)
  }

  /** The cgroup of `pid` has been asked for in its current lifetime. */
  ghost predicate Asked(log: Log, pid: Pid) {
    exists k :: LifetimeRead(log, pid, k)
  }

  lemma AskedStays(log: Log, issued: Log, pid: Pid)
    requires Asked(log, pid) && NoForget(issued, pid)
    ensures Asked(log + issued, pid)
  {
    var k :| LifetimeRead(log, pid, k);
    assert (log + issued)[k..] == log[k..] + issued;
    assert LifetimeRead(log + issued, pid, k);
  }

  lemma AskedFirst(log: Log, issued: Log, pid: Pid)
    requires issued != [] && issued[0].ReadCgroup? && issued[0].pid == pid && NoForget(issued, pid)
    ensures Asked(log + issued, pid)
  {
    assert (log + issued)[|log|..] == issued;
    assert LifetimeRead(log + issued, pid, |log|);
  }

  /** There is a record exactly when some read of the current lifetime found something. */
  lemma RecordIffReadFound(log: Log, pid: Pid)
    ensures FirstRead(log, pid).Some? <==> exists k :: LifetimeRead(log, pid, k) && log[k].found.Some?
  {
    if FirstRead(log, pid).Some? {
      var k := FirstReadIsSomewhere(log, pid);
      assert LifetimeRead(log, pid, k);
    }
    if k :| LifetimeRead(log, pid, k) && log[k].found.Some? {
      assert log[..k + 1][..k] == log[..k] && log == log[..k + 1] + log[k + 1..];
      FoldOfConcat(None, log[..k + 1], log[k + 1..], pid);
      forall e | e in log[k + 1..] ensures !(e.Forget? && pid in e.pids) { assert e in log[k..]; }
      FirstReadStays(FirstRead(log[..k + 1], pid), log[k + 1..], pid);
    }
  }

  /** Every move by a process's own rule comes right after a read of the process's cgroup. */
  predicate ReadBeforeRuleMove(log: Log) {
    forall i :: 0 <= i < |log| && log[i].Move? && log[i].cause == ByRule ==>
                  i > 0 && log[i - 1].ReadCgroup? && log[i - 1].pid == log[i].pid
  }

  lemma ReadBeforeRuleMoveConcat(a: Log, b: Log)
    requires ReadBeforeRuleMove(a) && ReadBeforeRuleMove(b)
    ensures ReadBeforeRuleMove(a + b)
  {
    forall i | 0 <= i < |a + b| && (a + b)[i].Move? && (a + b)[i].cause == ByRule
      ensures i > 0 && (a + b)[i - 1].ReadCgroup? && (a + b)[i - 1].pid == (a + b)[i].pid
    {
      if i >= |a| { assert (a + b)[i] == b[i - |a|]; }
    }
  }

  /** The `i`-th request moves `pid` by its own rule. */
  predicate OwnMove(log: Log, pid: Pid, i: int) {
    0 <= i < |log| && log[i].Move? && log[i].cause == ByRule && log[i].pid == pid
  }

  /** The read right before the `i`-th request found nothing. */
  predicate ReadFailedBefore(log: Log, i: nat) {
    0 < i <= |log| && log[i - 1].ReadCgroup? && log[i - 1].found.None?
  }

  /**
   * A move of `pid` by its own rule in its current lifetime, unless the read right before it
   * failed, finds the undo record already made, and the record is the one that holds at the end.
   * It is the path read right before this move exactly when no read of this lifetime had succeeded
   * before, or the first that had gave the same path.
   */
  lemma RecordPrecedesRuleMoves(log: Log, pid: Pid, i: nat)
    requires ReadBeforeRuleMove(log) && OwnMove(log, pid, i) && !ReadFailedBefore(log, i) && NoForget(log[i..], pid)
    ensures i > 0 && log[i - 1].ReadCgroup? && log[i - 1].pid == pid
    ensures FirstRead(log[..i], pid).Some? && FirstRead(log, pid) == FirstRead(log[..i], pid)
    ensures FirstRead(log, pid) == log[i - 1].found <==>
            FirstRead(log[..i - 1], pid).None? || FirstRead(log[..i - 1], pid) == log[i - 1].found
  {
    assert log[..i][..i - 1] == log[..i - 1] && log[..i][i - 1] == log[i - 1];
    assert log[..i] + log[i..] == log;
    FoldOfConcat(None, log[..i], log[i..], pid);
    FirstReadStays(FirstRead(log[..i], pid), log[i..], pid);
  }

  /** Every read of a cgroup is followed at once by a move of the process by its own rule. */
  predicate ReadsAreMoves(log: Log) {
    forall i :: 0 <= i < |log| && log[i].ReadCgroup? ==> OwnMove(log, log[i].pid, i + 1)
  }

  lemma ReadsAreMovesConcat(a: Log, b: Log)
    requires ReadsAreMoves(a) && ReadsAreMoves(b)
    ensures ReadsAreMoves(a + b)
  {
    forall i | 0 <= i < |a + b| && (a + b)[i].ReadCgroup? ensures OwnMove(a + b, (a + b)[i].pid, i + 1) {
      if i < |a| {
        assert OwnMove(a, a[i].pid, i + 1);
      } else {
        assert OwnMove(b, b[i - |a|].pid, i - |a| + 1);
      }
    }
  }

  /** A record stems from a read of the current lifetime. */
  lemma {:induction false} FirstReadIsSomewhere(log: Log, pid: Pid) returns (k: nat)
    requires FirstRead(log, pid).Some?
    ensures k < |log| && log[k].ReadCgroup? && log[k].pid == pid && log[k].found == FirstRead(log, pid)
    ensures NoForget(log[k..], pid)
  {
    var e, before := log[|log| - 1], log[..|log| - 1];
    if FirstRead(before, pid).Some? {
      k := FirstReadIsSomewhere(before, pid);
      assert log[k..] == before[k..] + [e];
    } else {
      k := |log| - 1;
    }
  }

  /** No move of `pid` by its own rule came before the `i`-th request in the same lifetime. */
  ghost predicate FirstOwnMove(log: Log, pid: Pid, i: nat) {
    OwnMove(log, pid, i) && forall j :: 0 <= j < i && OwnMove(log, pid, j) ==> !NoForget(log[j..i], pid)
  }

  /** As long as every read is followed by its move, the record is the path read right before the first move. */
  lemma FirstMoveMakesRecord(log: Log, pid: Pid, i: nat)
    requires ReadBeforeRuleMove(log) && ReadsAreMoves(log)
    requires FirstOwnMove(log, pid, i) && !ReadFailedBefore(log, i) && NoForget(log[i..], pid)
    ensures i > 0 && log[i - 1].ReadCgroup? && log[i - 1].pid == pid && FirstRead(log, pid) == log[i - 1].found
  {
    RecordPrecedesRuleMoves(log, pid, i);
    var before := log[..i - 1];
    if FirstRead(before, pid).Some? {
      var k := FirstReadIsSomewhere(before, pid);
      assert OwnMove(log, pid, k + 1);
      forall e | e in log[k + 1..i] ensures !(e.Forget? && pid in e.pids) {
        var n :| k + 1 <= n < i && log[n] == e;
        if n < i - 1 { assert before[k..][n - k] == e; }
      }
      assert false;
    }
  }

  // ------------------------------------------------------------------------------------------
  // When the undo record is the place the process came from
  // ------------------------------------------------------------------------------------------

  /** The tier `pid` was last moved to in its current lifetime, if it was moved at all. */
  function Placement(log: Log, pid: Pid): Option<Tier> {
    if log == [] then None
    else
      var e := log[|log| - 1];
      if e.Forget? && pid in e.pids then None
      else if e.Move? && e.pid == pid then Some(e.tier)
      else Placement(log[..|log| - 1], pid)
  }

  /**
   * The daemon's moves are the only ones: a read of `pid`'s cgroup gives the path of the tier of
   * the last move, and `home` as long as there was none.
   */
  ghost predicate OnlyDaemonMoves(log: Log, pid: Pid, home: string, tierPath: Tier -> string) {
    forall i :: 0 <= i < |log| && log[i].ReadCgroup? && log[i].pid == pid && log[i].found.Some? ==>
                  log[i].found.value == PathOf(Placement(log[..i], pid), home, tierPath)
  }

  function PathOf(place: Option<Tier>, home: string, tierPath: Tier -> string): string {
    match place
    case None => home
    case Some(t) => tierPath(t)
  }

  /** Some move of `pid` in its current lifetime came before the first successful read. */
  function MovedBeforeRead(log: Log, pid: Pid): bool {
    if log == [] then false
    else
      var e, before := log[|log| - 1], log[..|log| - 1];
      if e.Forget? && pid in e.pids then false
      else if e.Move? && e.pid == pid && FirstRead(before, pid).None? then true
      else MovedBeforeRead(before, pid)
  }

  /** Where the daemon had put `pid` when its cgroup was first read with success. */
  function PlaceAtRead(log: Log, pid: Pid): Option<Tier> {
    if log == [] then None
    else
      var e, before := log[|log| - 1], log[..|log| - 1];
      if e.Forget? && pid in e.pids then None
      else if e.ReadCgroup? && e.pid == pid && e.found.Some? && FirstRead(before, pid).None? then Placement(before, pid)
      else PlaceAtRead(before, pid)
  }

  lemma {:induction false} UnmovedUntilRead(log: Log, pid: Pid)
    requires FirstRead(log, pid).None?
    ensures MovedBeforeRead(log, pid) <==> Placement(log, pid).Some?
  {
    if log != [] {
      var e, before := log[|log| - 1], log[..|log| - 1];
      if !(e.Forget? && pid in e.pids) { UnmovedUntilRead(before, pid); }
    }
  }

  /**
   * The record is the path of the place that the daemon had put the process in before its own first
   * read - by a parent's rule, the foreground tracker, a throttled fork bomb - and the place it came
   * from if there was no such move.  So it is the place it came from exactly when there was none, or
   * the last such move was to that very place.
   */
  lemma {:induction false} RecordIsPlaceAtRead(log: Log, pid: Pid, home: string, tierPath: Tier -> string)
    requires OnlyDaemonMoves(log, pid, home, tierPath) && FirstRead(log, pid).Some?
    ensures FirstRead(log, pid) == Some(PathOf(PlaceAtRead(log, pid), home, tierPath))
    ensures MovedBeforeRead(log, pid) <==> PlaceAtRead(log, pid).Some?
    ensures FirstRead(log, pid) == Some(home) <==>
            !MovedBeforeRead(log, pid) || tierPath(PlaceAtRead(log, pid).value) == home
  {
    var e, before := log[|log| - 1], log[..|log| - 1];
    assert forall i :: 0 <= i < |before| ==> before[..i] == log[..i];
    if FirstRead(before, pid).Some? {
      RecordIsPlaceAtRead(before, pid, home, tierPath);
    } else {
      UnmovedUntilRead(before, pid);
    }
  }
}
