/** Reachability over the parent -> children index. */
module Descendants {
  import opened Types
  import opened ProcessTables

  function AllKids(ch: Index): set<Pid> {
    set p, c | p in ch && c in ch[p] :: c
  }

  function KidsOf(ch: Index, ps: set<Pid>): set<Pid> {
    set p, c | p in ps && c in Kids(ch, p) :: c
  }

  /** The pids exactly `n` child steps below `root`. */
  function Level(ch: Index, root: Pid, n: nat): set<Pid> {
    if n == 0 then {root} else KidsOf(ch, Level(ch, root, n - 1))
  }

  /** The pids at most `n` child steps below `root`. */
  function Within(ch: Index, root: Pid, n: nat): (r: set<Pid>)
    ensures root in r
  {
    if n == 0 then {root} else Within(ch, root, n - 1) + Level(ch, root, n)
  }

  ghost predicate Below(ch: Index, root: Pid, x: Pid) {
    exists n: nat :: x in Level(ch, root, n)
  }

  /** Everything reachable from `root` in any number of child steps. */
  ghost function Tree(ch: Index, root: Pid): (r: set<Pid>)
    ensures forall x :: x in r <==> Below(ch, root, x)
  {
    var r := set x | x in {root} + AllKids(ch) && Below(ch, root, x);
    assert root in Level(ch, root, 0);
    forall x | Below(ch, root, x) ensures x in {root} + AllKids(ch) { BelowIsKnown(ch, root, x); }
    r
  }

  lemma BelowIsKnown(ch: Index, root: Pid, x: Pid)
    requires Below(ch, root, x)
    ensures x == root || x in AllKids(ch)
  {
    var n: nat :| x in Level(ch, root, n);
    if n > 0 {
      var p :| p in Level(ch, root, n - 1) && x in Kids(ch, p);
      assert p in ch && x in ch[p];
    }
  }

  /** A set that holds `root` and the children of its members holds every level below `root`. */
  lemma {:induction false} ClosedHoldsLevel(ch: Index, root: Pid, s: set<Pid>, n: nat)
    requires root in s && forall p <- s :: Kids(ch, p) <= s
    ensures Level(ch, root, n) <= s
  {
    if n > 0 { ClosedHoldsLevel(ch, root, s, n - 1); }
  }

  /** Reached by some path of at most `n` child steps. */
  ghost predicate BelowWithin(ch: Index, root: Pid, n: nat, x: Pid) {
    exists k: nat :: k <= n && x in Level(ch, root, k)
  }

  lemma {:induction false} WithinIsLevels(ch: Index, root: Pid, n: nat, x: Pid)
    ensures x in Within(ch, root, n) <==> BelowWithin(ch, root, n, x)
  {
    if x in Level(ch, root, n) {
      assert BelowWithin(ch, root, n, x);
    } else if n > 0 {
      WithinIsLevels(ch, root, n - 1, x);
      if x in Within(ch, root, n - 1) {
        var k: nat :| k <= n - 1 && x in Level(ch, root, k);
        assert k <= n;
      }
      if BelowWithin(ch, root, n, x) {
        var k: nat :| k <= n && x in Level(ch, root, k);
        assert k <= n - 1;
      }
    }
  }

  lemma WithinIsInTree(ch: Index, root: Pid, n: nat)
    ensures Within(ch, root, n) <= Tree(ch, root)
  {
    forall x | x in Within(ch, root, n) ensures x in Tree(ch, root) {
      WithinIsLevels(ch, root, n, x);
      var k: nat :| k <= n && x in Level(ch, root, k);
      assert Below(ch, root, x);
    }
  }

  /** Children of what is within n steps are within n + 1 steps. */
  lemma {:induction false} WithinStep(ch: Index, root: Pid, n: nat, p: Pid, c: Pid)
    requires p in Within(ch, root, n) && c in Kids(ch, p)
    ensures c in Within(ch, root, n + 1)
  {
    if p in Level(ch, root, n) {
      assert c in Level(ch, root, n + 1);
    } else {
      WithinStep(ch, root, n - 1, p, c);
    }
  }

  /** The next round adds nothing. */
  predicate Stuck(ch: Index, root: Pid, n: nat) {
    Level(ch, root, n + 1) <= Within(ch, root, n)
  }

  lemma StuckIsClosed(ch: Index, root: Pid, n: nat, p: Pid)
    requires Stuck(ch, root, n) && p in Within(ch, root, n)
    ensures Kids(ch, p) <= Within(ch, root, n)
  {
    forall c | c in Kids(ch, p) ensures c in Within(ch, root, n) { WithinStep(ch, root, n, p, c); }
  }

  /** A round that adds nothing is the last one. */
  lemma StuckIsAll(ch: Index, root: Pid, n: nat)
    requires Stuck(ch, root, n)
    ensures Tree(ch, root) <= Within(ch, root, n)
  {
    forall p | p in Within(ch, root, n) ensures Kids(ch, p) <= Within(ch, root, n) { StuckIsClosed(ch, root, n, p); }
    forall x | x in Tree(ch, root) ensures x in Within(ch, root, n) {
      var k: nat :| x in Level(ch, root, k);
      ClosedHoldsLevel(ch, root, Within(ch, root, n), k);
    }
  }

  lemma StuckStays(ch: Index, root: Pid, n: nat)
    requires Stuck(ch, root, n)
    ensures Stuck(ch, root, n + 1)
  {
    forall p | p in Within(ch, root, n) ensures Kids(ch, p) <= Within(ch, root, n) { StuckIsClosed(ch, root, n, p); }
    ClosedHoldsLevel(ch, root, Within(ch, root, n), n + 2);
  }

  lemma NextRoundGrows(ch: Index, root: Pid, n: nat)
    requires !Stuck(ch, root, n)
    ensures |Within(ch, root, n)| < |Within(ch, root, n + 1)|
  {
    assert Within(ch, root, n + 1) == Within(ch, root, n) + Level(ch, root, n + 1);
    Grows(Within(ch, root, n), Within(ch, root, n + 1));
  }

  /** At least one pid for every round. */
  predicate Grown(ch: Index, root: Pid, n: nat) {
    |Within(ch, root, n)| >= n + 1
  }

  lemma OneMoreRound(ch: Index, root: Pid, n: nat)
    requires Grown(ch, root, n) || Stuck(ch, root, n)
    ensures Grown(ch, root, n + 1) || Stuck(ch, root, n + 1)
  {
    if Stuck(ch, root, n) { StuckStays(ch, root, n); } else { NextRoundGrows(ch, root, n); }
  }

  /** Either every round so far added a pid, or the search is stuck. */
  lemma GrowsOrSticks(ch: Index, root: Pid, n: nat)
    ensures Grown(ch, root, n) || Stuck(ch, root, n)
  {
    assert Within(ch, root, 0) == {root};
    for k := 0 to n
      invariant Grown(ch, root, k) || Stuck(ch, root, k)
    {
      OneMoreRound(ch, root, k);
    }
  }

  lemma Grows(a: set<Pid>, b: set<Pid>)
    requires a <= b && a != b
    ensures |a| < |b|
  {
    var x :| x in b - a;
    assert |b - a| > 0 && b == a + (b - a);
  }

  /** Once the depth reaches the number of known pids, the bounded search is the full closure. */
  lemma DeepEnoughIsTree(ch: Index, root: Pid, known: set<Pid>, depth: nat)
    requires AllKids(ch) <= known && depth >= |known|
    ensures Within(ch, root, depth) == Tree(ch, root)
  {
    WithinIsInTree(ch, root, depth);
    GrowsOrSticks(ch, root, depth);
    if Stuck(ch, root, depth) { StuckIsAll(ch, root, depth); }
    var bound := {root} + known;
    assert |bound| <= |known| + 1;
    forall x | x in Tree(ch, root) ensures x in bound { BelowIsKnown(ch, root, x); }
    if !(Tree(ch, root) <= Within(ch, root, depth)) {
      // every round grew, so there is no room for a pid that was not reached
      Grows(Within(ch, root, depth), bound);
      assert false;
    }
  }

  /** In a forest, the n-step descendants of different pids at the same depth do not overlap. */
  lemma {:induction false} SameDepth(ch: Index, root: Pid, i: nat, j: nat, x: Pid)
    requires Forest(ch) && i <= j
    requires x in Level(ch, root, i) && x in Level(ch, root, j)
    ensures root in Level(ch, root, j - i)
    decreases i
  {
    if i > 0 {
      var p :| p in Level(ch, root, i - 1) && x in Kids(ch, p);
      var q :| q in Level(ch, root, j - 1) && x in Kids(ch, q);
      assert p == q;
      SameDepth(ch, root, i - 1, j - 1, p);
    }
  }
}
