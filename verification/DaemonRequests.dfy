/** What a rule's action asks of the kernel, request by request. */
module DaemonRequests {
  import opened Wrappers
  import opened Types
  import opened Effects
  import opened ProcessTables
  import opened DaemonSpec
  import opened DaemonInvariants

  /** `r` is `x`, or the bound that `x` is beyond. */
  predicate Clamped(x: int, low: int, high: int, r: int) {
    low <= r <= high && (x < low ==> r == low) && (x > high ==> r == high) && (low <= x <= high ==> r == x)
  }

  /** The action asks for this request for `pid`. */
  predicate AsksFor(pid: Pid, a: Action, e: Effect) {
    match e
    case Move(p, tier, cause) => p == pid && cause == ByRule && a.cgroup == Some(NameOf(tier))
    case SetNice(p, nice, cause) => p == pid && cause == ByRule && a.nice == Some(nice)
    case SetSched(p, policy, priority) =>
      p == pid && a.schedPolicy == Some(policy) &&
      (|| (policy in {"normal", "other", "batch", "idle"} && priority == 0)
       || (policy in {"fifo", "rr", "round_robin"} &&
           Clamped(match a.schedPriority { case Some(n) => n case None => 0 }, 1, 99, priority)))
    case SetOom(p, adj) => p == pid && a.oomScoreAdj.Some? && Clamped(a.oomScoreAdj.value, -1000, 1000, adj)
    case _ => false
  }

  /** The move first, then nice, scheduling and oom settings; at most one of each. */
  function Turn(e: Effect): nat {
    match e
    case Move(_, _, _) => 0
    case SetNice(_, _, _) => 1
    case SetSched(_, _, _) => 2
    case SetOom(_, _) => 3
    case _ => 4
  }

  ghost predicate InTurn(log: Log) {
    forall i, j :: 0 <= i < j < |log| ==> Turn(log[i]) < Turn(log[j])
  }

  lemma MoveAsAsked(pid: Pid, a: Action, e: Effect)
    ensures e in CgroupMove(pid, a, ByRule) <==> e.Move? && AsksFor(pid, a, e)
  {
    if a.cgroup.Some? {
      if e.Move? { TiersAreNamed(a.cgroup.value, e.tier); }
      if TierOf(a.cgroup.value).Some? { TiersAreNamed(a.cgroup.value, TierOf(a.cgroup.value).value); }
    }
  }

  lemma SettingsAsAsked(pid: Pid, a: Action, e: Effect)
    ensures e in NiceRequest(pid, a) <==> e.SetNice? && AsksFor(pid, a, e)
    ensures e in SchedRequest(pid, a) <==> e.SetSched? && AsksFor(pid, a, e)
    ensures e in OomRequest(pid, a) <==> e.SetOom? && AsksFor(pid, a, e)
  {
  }

  /** A rule's requests are exactly those that its action asks for, each once and in this order. */
  lemma RequestsAsAsked(pid: Pid, a: Action)
    ensures forall e: Effect :: e in Requests(pid, a) <==> AsksFor(pid, a, e)
    ensures InTurn(Requests(pid, a))
  {
    var move: Log := CgroupMove(pid, a, ByRule);
    var nice, sched, oom := NiceRequest(pid, a), SchedRequest(pid, a), OomRequest(pid, a);
    forall e: Effect ensures e in Requests(pid, a) <==> AsksFor(pid, a, e) {
      MoveAsAsked(pid, a, e);
      SettingsAsAsked(pid, a, e);
    }
    FourInTurn(move, nice, sched, oom);
  }

  lemma FourInTurn(move: Log, nice: Log, sched: Log, oom: Log)
    requires |move| <= 1 && |nice| <= 1 && |sched| <= 1 && |oom| <= 1
    requires forall e <- move :: e.Move?
    requires forall e <- nice :: e.SetNice?
    requires forall e <- sched :: e.SetSched?
    requires forall e <- oom :: e.SetOom?
    ensures InTurn(move + (nice + sched + oom))
  {
    TurnsJoin(nice, sched);
    assert forall e <- nice + sched :: e in nice || e in sched;
    TurnsJoin(nice + sched, oom);
    assert forall e <- nice + sched + oom :: e in nice || e in sched || e in oom;
    TurnsJoin(move, nice + sched + oom);
  }

  lemma TurnsJoin(a: Log, b: Log)
    requires InTurn(a) && InTurn(b) && forall x: Effect, y: Effect :: x in a && y in b ==> Turn(x) < Turn(y)
    ensures InTurn(a + b)
  {
    forall i, j | 0 <= i < j < |a + b| ensures Turn((a + b)[i]) < Turn((a + b)[j]) {
      if i < |a| <= j { assert a[i] in a && b[j - |a|] in b; }
    }
  }

  // ------------------------------------------------------------------------------------------
  // The last values asked for
  // ------------------------------------------------------------------------------------------

  lemma {:induction false} OnlyNice(log: Log, pid: Pid, nice: int)
    requires (exists e <- log :: e.SetNice? && e.pid == pid) && forall e <- log :: e.SetNice? && e.pid == pid ==> e.nice == nice
    ensures LastNice(log, pid) == Some(nice)
  {
    var front, e := log[..|log| - 1], log[|log| - 1];
    if !(e.SetNice? && e.pid == pid) {
      var x :| x in log && x.SetNice? && x.pid == pid;
      assert x in front;
      OnlyNice(front, pid, nice);
    }
  }

  lemma {:induction false} OnlyPlace(log: Log, pid: Pid, tier: Tier)
    requires (exists e <- log :: Places(e, pid)) && forall e <- log :: Places(e, pid) ==> e.tier == tier
    ensures LastPlace(log, pid) == Some(tier)
  {
    var front, e := log[..|log| - 1], log[|log| - 1];
    if !Places(e, pid) {
      var x :| x in log && Places(x, pid);
      assert x in front;
      OnlyPlace(front, pid, tier);
    }
  }

  /** The requests that set the nice value or the place of `pid` are those of its own action. */
  lemma IssuedIsAsked(t: Table, pid: Pid, a: Action, w: World, e: Effect)
    requires e.SetNice? || Places(e, pid)
    ensures e in Issued(t, pid, a, w) <==> AsksFor(pid, a, e)
  {
    IssuedIsShaped(t, pid, a, w);
    RequestsAsAsked(pid, a);
    var read: Log := CgroupRead(pid, a, w);
    var moves: Log := MovesOfChildren(t, pid, a, w);
    assert e !in read;
    ChildMovesFacts(Enumerate(Kids(t.children, pid), w.childOrder), t.entries.Keys, a);
    assert e !in moves;
    assert e in read + Requests(pid, a) + moves <==> e in Requests(pid, a);
  }

  /** After the requests of a rule, its nice value and its tier are the last asked for. */
  lemma LastOfIssued(t: Table, pid: Pid, a: Action, w: World)
    ensures a.nice.Some? ==> LastNice(Issued(t, pid, a, w), pid) == a.nice
    ensures a.nice.None? ==> LastNice(Issued(t, pid, a, w), pid).None?
    ensures forall tier: Tier :: a.cgroup == Some(NameOf(tier)) ==> LastPlace(Issued(t, pid, a, w), pid) == Some(tier)
  {
    var log := Issued(t, pid, a, w);
    forall e | e in log && e.SetNice? && e.pid == pid ensures a.nice == Some(e.nice) { IssuedIsAsked(t, pid, a, w, e); }
    if a.nice.Some? {
      IssuedIsAsked(t, pid, a, w, SetNice(pid, a.nice.value, ByRule));
      OnlyNice(log, pid, a.nice.value);
    } else {
      NoNiceNoLast(log, pid);
    }
    forall tier: Tier | a.cgroup == Some(NameOf(tier)) ensures LastPlace(log, pid) == Some(tier) {
      IssuedIsAsked(t, pid, a, w, Move(pid, tier, ByRule));
      forall e | e in log && Places(e, pid) ensures e.tier == tier {
        IssuedIsAsked(t, pid, a, w, e);
        TiersAreNamed(NameOf(tier), e.tier);
        TiersAreNamed(NameOf(tier), tier);
      }
      OnlyPlace(log, pid, tier);
    }
  }
}
