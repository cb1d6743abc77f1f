/** The optional value used throughout the model. */
module Wrappers {
  datatype Option<+T> = None | Some(value: T)
}

/** Values shared by every component of the daemon. */
module Types {
  import opened Wrappers

  type Pid = nat

  /** Nanoseconds of a monotonic clock. */
  type Instant = int

  const SECOND: int := 1_000_000_000

  datatype SchedPolicy = Normal | Batch | Idle | Fifo(priority: nat) | RoundRobin(priority: nat) | Deadline | Unknown(code: int)

  /** What the daemon reads about one process from /proc. */
  datatype ProcessInfo = ProcessInfo(
    pid: Pid,
    ppid: Pid,
    uid: nat,
    comm: string,
    cmdline: seq<string>,
    exe: Option<string>,
    threads: nat,
    vmRssKb: nat,
    schedPolicy: SchedPolicy,
    cgroupPath: Option<string>,
    isKernelThread: bool,
    environ: map<string, string>)

  /** The resolved action of a rule; every None field is left alone. */
  datatype Action = Action(
    cgroup: Option<string>,
    nice: Option<int>,
    schedPolicy: Option<string>,
    schedPriority: Option<nat>,
    oomScoreAdj: Option<int>,
    ioWeight: Option<nat>,
    recheckSecs: Option<nat>,
    applyToChildren: bool,
    ruleName: string)

  ghost predicate Distinct<T>(s: seq<T>) {
    forall i, j :: 0 <= i < j < |s| ==> s[i] != s[j]
  }

  /**
   * A hash table is iterated in an order its user cannot predict.  The order is an input of the
   * model: `order` lists every pid that can occur, without repetition, and a set is visited in
   * the order in which its members occur there.
   */
  ghost predicate Covers(order: seq<Pid>, s: set<Pid>) {
    Distinct(order) && forall x <- s :: x in order
  }

  function Enumerate(s: set<Pid>, order: seq<Pid>): (r: seq<Pid>)
    ensures forall x :: x in r <==> x in s && x in order
    ensures Distinct(order) ==> Distinct(r)
  {
    if order == [] then []
    else if order[0] in s then [order[0]] + Enumerate(s, order[1..])
    else Enumerate(s, order[1..])
  }

  lemma {:induction false} EnumerateNothing(order: seq<Pid>)
    ensures Enumerate({}, order) == []
  {
    if order != [] { EnumerateNothing(order[1..]); }
  }

  lemma Regroup<T>(a: seq<T>, b: seq<T>, c: seq<T>)
    ensures (a + b) + c == a + (b + c)
  {
  }
}
