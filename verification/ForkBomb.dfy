/** The fork-bomb detector as a count of the complete history, and the depth-bounded collection of a subtree. */
module ForkBombs {
  import opened Wrappers
  import opened Types
  import opened Effects
  import opened ProcessTables
  import opened Descendants

  const WINDOW: int := SECOND
  const COLD: int := 10 * SECOND

  // ------------------------------------------------------------------------------------------
  // The detector as a value
  // ------------------------------------------------------------------------------------------

  /** Drop the stamps at the front that are older than `cutoff`. */
  function Evict(stamps: seq<Instant>, cutoff: Instant): seq<Instant> {
    if stamps != [] && stamps[0] < cutoff then Evict(stamps[1..], cutoff) else stamps
  }

  function Slide(stamps: seq<Instant>, now: Instant): seq<Instant> {
    Evict(stamps, now - WINDOW) + [now]
  }

  datatype Detector = Detector(windows: map<Pid, seq<Instant>>, throttled: set<Pid>, threshold: nat) {
    function WindowOf(parent: Pid): seq<Instant> {
      if parent in windows then windows[parent] else []
    }

    /** The detector after a fork, and the parent if a fork bomb was detected. */
    function RecordFork(parent: Pid, now: Instant): (Detector, Option<Pid>) {
      if parent in throttled then (this, None)
      else
        var window := Slide(WindowOf(parent), now);
        if |window| >= threshold
        then (Detector(windows[parent := window], throttled + {parent}, threshold), Some(parent))
        else (Detector(windows[parent := window], throttled, threshold), None)
    }

    function ColdPids(now: Instant): set<Pid> {
      set p | p in windows && (windows[p] == [] || windows[p][|windows[p]| - 1] < now - COLD)
    }

    function Gc(now: Instant): Detector {
      Detector(windows - ColdPids(now), throttled - ColdPids(now), threshold)
    }
  }

  // ------------------------------------------------------------------------------------------
  // The simple form: remember every fork, never forget one
  // ------------------------------------------------------------------------------------------

  datatype ForkEvent = Fork(parent: Pid, at: Instant) | Collect(at: Instant)

  /** The clock does not go back. */
  ghost predicate Monotone(events: seq<ForkEvent>) {
    forall i, j :: 0 <= i <= j < |events| ==> events[i].at <= events[j].at
  }

  /** The forks of `parent` that were counted, that is, those made while it was not throttled. */
  function Counted(threshold: nat, events: seq<ForkEvent>, parent: Pid): seq<Instant>
    decreases |events|, 0
  {
    if events == [] then []
    else
      var before, e := events[..|events| - 1], events[|events| - 1];
      if e.Fork? && e.parent == parent && !Throttled(threshold, before, parent)
      then Counted(threshold, before, parent) + [e.at]
      else Counted(threshold, before, parent)
  }

  /** How many of the stamps are at `since` or later. */
  function CountSince(stamps: seq<Instant>, since: Instant): nat {
    if stamps == [] then 0
    else CountSince(stamps[..|stamps| - 1], since) + (if stamps[|stamps| - 1] >= since then 1 else 0)
  }

  /** A fork at `now` is a bomb: it makes at least `threshold` counted forks within the last second. */
  function IsBomb(threshold: nat, events: seq<ForkEvent>, parent: Pid, now: Instant): bool
    decreases |events|, 1
  {
    CountSince(Counted(threshold, events, parent) + [now], now - WINDOW) >= threshold
  }

  /**
   * `parent` was detected and no collection since then found its last counted fork more than
   * ten seconds old.
   */
  function Throttled(threshold: nat, events: seq<ForkEvent>, parent: Pid): bool
    decreases |events|, 0
  {
    if events == [] then false
    else
      var before, e := events[..|events| - 1], events[|events| - 1];
      match e
      case Fork(p, at) =>
        Throttled(threshold, before, parent) || (p == parent && IsBomb(threshold, before, parent, at))
      case Collect(at) =>
        Throttled(threshold, before, parent) && LastOf(Counted(threshold, before, parent)) >= at - COLD
  }

  function LastOf(stamps: seq<Instant>): Instant {
    if stamps == [] then 0 else stamps[|stamps| - 1]
  }

  // ------------------------------------------------------------------------------------------
  // The detector over a run
  // ------------------------------------------------------------------------------------------

  function Start(threshold: nat): Detector {
    Detector(map[], {}, threshold)
  }

  function StepDetector(d: Detector, e: ForkEvent): (Detector, Option<Pid>) {
    match e
    case Fork(p, at) => d.RecordFork(p, at)
    case Collect(at) => (d.Gc(at), None)
  }

  function Detect(threshold: nat, events: seq<ForkEvent>): Detector {
    if events == [] then Start(threshold)
    else StepDetector(Detect(threshold, events[..|events| - 1]), events[|events| - 1]).0
  }

  /** The answer to the event at position `i`. */
  function Answer(threshold: nat, events: seq<ForkEvent>, i: nat): Option<Pid>
    requires i < |events|
  {
    StepDetector(Detect(threshold, events[..i]), events[i]).1
  }

  // ------------------------------------------------------------------------------------------
  // Stamps in order
  // ------------------------------------------------------------------------------------------

  ghost predicate Ascending(stamps: seq<Instant>) {
    forall i, j :: 0 <= i <= j < |stamps| ==> stamps[i] <= stamps[j]
  }

  /** `window` is what is left of `all` after dropping stamps older than a second before `now`. */
  ghost predicate TailOf(window: seq<Instant>, all: seq<Instant>, now: Instant) {
    && |window| <= |all|
    && window == all[|all| - |window|..]
    && forall i :: 0 <= i < |all| - |window| ==> all[i] < now - WINDOW
  }

  lemma {:induction false} EvictIsTail(window: seq<Instant>, all: seq<Instant>, last: Instant, now: Instant)
    requires Ascending(all) && TailOf(window, all, last) && last <= now
    ensures TailOf(Evict(window, now - WINDOW), all, now)
    ensures var r := Evict(window, now - WINDOW); r != [] ==> r[0] >= now - WINDOW
    decreases |window|
  {
    if window != [] && window[0] < now - WINDOW {
      EvictIsTail(window[1..], all, now, now);
    }
  }

  lemma {:induction false} CountOfTail(window: seq<Instant>, all: seq<Instant>, now: Instant)
    requires Ascending(all) && TailOf(window, all, now) && (window != [] ==> window[0] >= now - WINDOW)
    ensures CountSince(all, now - WINDOW) == |window|
    decreases |all|
  {
    if all != [] {
      if window == [] {
        CountOfTail([], all[..|all| - 1], now);
      } else {
        var w := window[..|window| - 1];
        assert window[|window| - 1] == all[|all| - 1] && window[0] <= window[|window| - 1];
        CountOfTail(w, all[..|all| - 1], now);
      }
    }
  }

  lemma SlideCounts(window: seq<Instant>, all: seq<Instant>, last: Instant, now: Instant)
    requires Ascending(all) && TailOf(window, all, last) && last <= now && (all != [] ==> LastOf(all) <= now)
    ensures |Slide(window, now)| == CountSince(all + [now], now - WINDOW)
    ensures TailOf(Slide(window, now), all + [now], now)
    ensures Ascending(all + [now])
  {
    EvictIsTail(window, all, last, now);
    TailGrows(Evict(window, now - WINDOW), all, now);
    CountOfTail(Slide(window, now), all + [now], now);
  }

  lemma TailGrows(window: seq<Instant>, all: seq<Instant>, now: Instant)
    requires Ascending(all) && TailOf(window, all, now) && (all != [] ==> LastOf(all) <= now)
    requires window != [] ==> window[0] >= now - WINDOW
    ensures Ascending(all + [now]) && TailOf(window + [now], all + [now], now) && (window + [now])[0] >= now - WINDOW
  {
    var k := |all| - |window|;
    assert (all + [now])[k..] == all[k..] + [now];
  }

  // ------------------------------------------------------------------------------------------
  // The refinement
  // ------------------------------------------------------------------------------------------

  /**
   * What is kept for one parent - a window if any, and whether it is throttled - against all its
   * counted forks and whether it ought to be throttled.
   */
  ghost predicate Tracks(window: Option<seq<Instant>>, inThrottled: bool, all: seq<Instant>, blocked: bool,
                         threshold: nat, now: Instant)
  {
    var stamps := if window.Some? then window.value else [];
    && Ascending(all) && (all != [] ==> LastOf(all) <= now)
    && TailOf(stamps, all, now)
    && (window.Some? ==> stamps != [])
    && inThrottled == blocked
    && (inThrottled ==> window.Some? && |stamps| == if threshold == 0 then 1 else threshold)
    && (window.Some? && !inThrottled ==> |stamps| < threshold)
  }

  function Kept(d: Detector, p: Pid): Option<seq<Instant>> {
    if p in d.windows then Some(d.windows[p]) else None
  }

  ghost predicate Refines(d: Detector, threshold: nat, events: seq<ForkEvent>, p: Pid, now: Instant) {
    && d.threshold == threshold
    && Tracks(Kept(d, p), p in d.throttled, Counted(threshold, events, p), Throttled(threshold, events, p), threshold, now)
  }

  lemma {:induction false} EvictShrinks(stamps: seq<Instant>, cutoff: Instant)
    ensures |Evict(stamps, cutoff)| <= |stamps|
    decreases |stamps|
  {
    if stamps != [] && stamps[0] < cutoff { EvictShrinks(stamps[1..], cutoff); }
  }

  lemma TracksLater(window: Option<seq<Instant>>, b: bool, all: seq<Instant>, blocked: bool, threshold: nat,
                    last: Instant, now: Instant)
    requires Tracks(window, b, all, blocked, threshold, last) && last <= now
    ensures Tracks(window, b, all, blocked, threshold, now)
  {
  }

  lemma TracksFork(window: Option<seq<Instant>>, all: seq<Instant>, threshold: nat, last: Instant, now: Instant)
    requires Tracks(window, false, all, false, threshold, last) && last <= now
    ensures var w, bomb := Slide(if window.Some? then window.value else [], now), CountSince(all + [now], now - WINDOW) >= threshold;
            (bomb <==> |w| >= threshold) && Tracks(Some(w), bomb, all + [now], bomb, threshold, now)
  {
    var stamps := if window.Some? then window.value else [];
    SlideCounts(stamps, all, last, now);
    EvictShrinks(stamps, now - WINDOW);
  }

  /** A window is cold exactly when its last stamp, which is the last counted fork, is. */
  lemma TracksCollect(window: Option<seq<Instant>>, b: bool, all: seq<Instant>, blocked: bool, threshold: nat,
                      last: Instant, now: Instant)
    requires Tracks(window, b, all, blocked, threshold, last) && last <= now
    ensures window.Some? ==> LastOf(window.value) == LastOf(all)
    ensures Tracks(None, false, all, false, threshold, now) || (window.Some? && LastOf(all) >= now - COLD)
  {
    if window.Some? && LastOf(all) < now - COLD {
      assert LastOf(window.value) == LastOf(all);
      assert forall i :: 0 <= i < |all| ==> all[i] <= all[|all| - 1];
    }
  }

  /** The history after a fork that counts for `p`. */
  lemma CountedForkHistory(threshold: nat, events: seq<ForkEvent>, p: Pid, at: Instant)
    requires !Throttled(threshold, events, p)
    ensures Counted(threshold, events + [Fork(p, at)], p) == Counted(threshold, events, p) + [at]
    ensures Throttled(threshold, events + [Fork(p, at)], p) == IsBomb(threshold, events, p, at)
  {
    assert (events + [Fork(p, at)])[..|events|] == events;
  }

  /** Any other fork changes nothing for `p`. */
  lemma OtherForkHistory(threshold: nat, events: seq<ForkEvent>, q: Pid, p: Pid, at: Instant)
    requires q != p || Throttled(threshold, events, p)
    ensures Counted(threshold, events + [Fork(q, at)], p) == Counted(threshold, events, p)
    ensures Throttled(threshold, events + [Fork(q, at)], p) == Throttled(threshold, events, p)
  {
    assert (events + [Fork(q, at)])[..|events|] == events;
  }

  /** What a fork of `p` that counts does to what is kept for `p`. */
  lemma CountedForkKeeps(d: Detector, p: Pid, at: Instant)
    requires p !in d.throttled
    ensures var (u, answer) := d.RecordFork(p, at);
            var w := Slide(d.WindowOf(p), at);
            && Kept(u, p) == Some(w) && (p in u.throttled <==> |w| >= d.threshold) && u.threshold == d.threshold
            && answer == if |w| >= d.threshold then Some(p) else None
  {
  }

  /** Any other fork leaves what is kept for `p` alone. */
  lemma OtherForkKeeps(d: Detector, q: Pid, p: Pid, at: Instant)
    requires q != p || p in d.throttled
    ensures var (u, answer) := d.RecordFork(q, at);
            && Kept(u, p) == Kept(d, p) && (p in u.throttled <==> p in d.throttled) && u.threshold == d.threshold
            && (q == p ==> answer == None)
  {
  }

  lemma CountedForkRefines(d: Detector, threshold: nat, events: seq<ForkEvent>, p: Pid, last: Instant, at: Instant)
    requires Refines(d, threshold, events, p, last) && last <= at && !Throttled(threshold, events, p)
    ensures Refines(d.RecordFork(p, at).0, threshold, events + [Fork(p, at)], p, at)
    ensures d.RecordFork(p, at).1 == if IsBomb(threshold, events, p, at) then Some(p) else None
  {
    var all := Counted(threshold, events, p);
    CountedForkHistory(threshold, events, p, at);
    CountedForkKeeps(d, p, at);
    TracksFork(Kept(d, p), all, threshold, last, at);
    BombIsCount(threshold, events, p, at);
  }

  lemma BombIsCount(threshold: nat, events: seq<ForkEvent>, p: Pid, at: Instant)
    ensures IsBomb(threshold, events, p, at) <==> CountSince(Counted(threshold, events, p) + [at], at - WINDOW) >= threshold
  {
  }

  lemma OtherForkRefines(d: Detector, threshold: nat, events: seq<ForkEvent>, q: Pid, p: Pid, last: Instant, at: Instant)
    requires Refines(d, threshold, events, p, last) && last <= at && (q != p || Throttled(threshold, events, p))
    ensures Refines(d.RecordFork(q, at).0, threshold, events + [Fork(q, at)], p, at)
    ensures q == p ==> d.RecordFork(q, at).1.None?
  {
    OtherForkHistory(threshold, events, q, p, at);
    OtherForkKeeps(d, q, p, at);
    TracksLater(Kept(d, p), p in d.throttled, Counted(threshold, events, p), Throttled(threshold, events, p), threshold, last, at);
  }

  lemma ForkRefines(d: Detector, threshold: nat, events: seq<ForkEvent>, q: Pid, p: Pid, last: Instant, at: Instant)
    requires Refines(d, threshold, events, p, last) && last <= at
    ensures Refines(d.RecordFork(q, at).0, threshold, events + [Fork(q, at)], p, at)
    ensures q == p ==> (d.RecordFork(q, at).1 == Some(p) <==> !Throttled(threshold, events, p) && IsBomb(threshold, events, p, at))
  {
    if q == p && !Throttled(threshold, events, p) {
      CountedForkRefines(d, threshold, events, p, last, at);
    } else {
      OtherForkRefines(d, threshold, events, q, p, last, at);
    }
  }

  lemma CollectRefines(d: Detector, threshold: nat, events: seq<ForkEvent>, p: Pid, last: Instant, at: Instant)
    requires Refines(d, threshold, events, p, last) && last <= at
    ensures Refines(d.Gc(at), threshold, events + [Collect(at)], p, at)
  {
    assert (events + [Collect(at)])[..|events|] == events;
    var all, blocked := Counted(threshold, events, p), Throttled(threshold, events, p);
    TracksCollect(Kept(d, p), p in d.throttled, all, blocked, threshold, last, at);
    TracksLater(Kept(d, p), p in d.throttled, all, blocked, threshold, last, at);
    assert p in d.ColdPids(at) <==> p in d.windows && LastOf(all) < at - COLD;
    assert Kept(d.Gc(at), p) == if p in d.ColdPids(at) then None else Kept(d, p);
  }

  lemma StepRefines(d: Detector, threshold: nat, events: seq<ForkEvent>, e: ForkEvent, p: Pid, last: Instant)
    requires Refines(d, threshold, events, p, last) && last <= e.at
    ensures Refines(StepDetector(d, e).0, threshold, events + [e], p, e.at)
    ensures e.Fork? && e.parent == p ==>
              (StepDetector(d, e).1 == Some(p) <==> !Throttled(threshold, events, p) && IsBomb(threshold, events, p, e.at))
  {
    match e
    case Fork(q, at) => ForkRefines(d, threshold, events, q, p, last, at);
    case Collect(at) => CollectRefines(d, threshold, events, p, last, at);
  }

  /** The time of the last event, for a run that is not empty. */
  function Latest(events: seq<ForkEvent>): Instant {
    if events == [] then 0 else events[|events| - 1].at
  }

  lemma {:induction false} EveryRunRefines(threshold: nat, events: seq<ForkEvent>, p: Pid)
    requires Monotone(events)
    ensures Refines(Detect(threshold, events), threshold, events, p, Latest(events))
  {
    if events != [] {
      var before, e := events[..|events| - 1], events[|events| - 1];
      EveryRunRefines(threshold, before, p);
      var last := if before == [] then e.at else Latest(before);
      assert before != [] ==> Latest(before) == events[|before| - 1].at;
      StepRefines(Detect(threshold, before), threshold, before, e, p, last);
      assert before + [e] == events;
    }
  }

  /**
   * The sliding window gives the answer of the complete history: a fork is reported exactly when
   * its parent is not throttled and at least `threshold` counted forks, this one included, lie
   * within the last second - however the collections are interleaved.
   */
  lemma AnswerIsHistory(threshold: nat, events: seq<ForkEvent>, i: nat)
    requires Monotone(events) && i < |events| && events[i].Fork?
    ensures var before, p, now := events[..i], events[i].parent, events[i].at;
            Answer(threshold, events, i) ==
            if !Throttled(threshold, before, p) && IsBomb(threshold, before, p, now) then Some(p) else None
  {
    assert i > 0 ==> events[..i][i - 1] == events[i - 1];
    NextAnswer(threshold, events[..i], events[i]);
  }

  lemma NextAnswer(threshold: nat, before: seq<ForkEvent>, e: ForkEvent)
    requires Monotone(before) && e.Fork? && (before != [] ==> Latest(before) <= e.at)
    ensures StepDetector(Detect(threshold, before), e).1 ==
            if !Throttled(threshold, before, e.parent) && IsBomb(threshold, before, e.parent, e.at) then Some(e.parent) else None
  {
    EveryRunRefines(threshold, before, e.parent);
    StepRefines(Detect(threshold, before), threshold, before, e, e.parent, if before == [] then e.at else Latest(before));
  }

  /** Throttled parents own a window, and no window outgrows the threshold. */
  lemma WindowsStaySmall(threshold: nat, events: seq<ForkEvent>, p: Pid)
    requires Monotone(events)
    ensures var d := Detect(threshold, events);
            && (p in d.throttled ==> p in d.windows)
            && (p in d.windows ==> |d.windows[p]| <= if threshold == 0 then 1 else threshold)
            && (p in d.windows && p !in d.throttled ==> |d.windows[p]| < threshold)
  {
    EveryRunRefines(threshold, events, p);
  }

  /** After a collection every window and every throttle is at most ten seconds cold. */
  lemma CollectLeavesWarm(threshold: nat, events: seq<ForkEvent>, now: Instant, p: Pid)
    requires Monotone(events + [Collect(now)])
    ensures var d := Detect(threshold, events + [Collect(now)]);
            && (p in d.windows ==> d.windows[p] != [] && LastOf(d.windows[p]) >= now - COLD)
            && (p in d.throttled ==> p in d.windows)
  {
    assert (events + [Collect(now)])[..|events|] == events;
    EveryRunRefines(threshold, events + [Collect(now)], p);
  }

  /** Throttled since a fork at `since`, with nothing counted after it. */
  lemma {:induction false} ThrottleLasts(threshold: nat, events: seq<ForkEvent>, i: nat, p: Pid)
    requires Monotone(events) && i < |events| && events[i] == Fork(p, events[i].at)
    requires Answer(threshold, events, i).Some?
    ensures Latest(events) <= events[i].at + COLD ==>
              Throttled(threshold, events, p) && LastOf(Counted(threshold, events, p)) == events[i].at &&
              Counted(threshold, events, p) != []
    decreases |events|
  {
    AnswerIsHistory(threshold, events, i);
    var before, e := events[..|events| - 1], events[|events| - 1];
    if i == |events| - 1 {
      assert events[..i] == before;
    } else {
      assert before[..i] == events[..i];
      assert Latest(before) == events[|events| - 2].at <= e.at;
      ThrottleLasts(threshold, before, i, p);
    }
  }

  /** Two detections of the same parent are more than ten seconds apart. */
  lemma DetectionsAreFarApart(threshold: nat, events: seq<ForkEvent>, i: nat, j: nat, p: Pid)
    requires Monotone(events) && i < j < |events|
    requires events[i] == Fork(p, events[i].at) && events[j] == Fork(p, events[j].at)
    requires Answer(threshold, events, i).Some? && Answer(threshold, events, j).Some?
    ensures events[j].at > events[i].at + COLD
  {
    var before := events[..j];
    assert before[..i] == events[..i];
    assert Latest(before) == events[j - 1].at;
    ThrottleLasts(threshold, before, i, p);
    AnswerIsHistory(threshold, events, j);
  }

  // ------------------------------------------------------------------------------------------
  // The depth-bounded subtree
  // ------------------------------------------------------------------------------------------

  function NextFrontier(ch: Index, frontier: seq<Pid>, order: seq<Pid>): seq<Pid> {
    if frontier == [] then []
    else Enumerate(Kids(ch, frontier[0]), order) + NextFrontier(ch, frontier[1..], order)
  }

  /** The levels below `frontier`, one after the other, at most `depth` of them. */
  function CollectBelow(ch: Index, frontier: seq<Pid>, depth: nat, order: seq<Pid>): seq<Pid>
    decreases depth
  {
    if depth == 0 then []
    else
      var next := NextFrontier(ch, frontier, order);
      if next == [] then [] else next + CollectBelow(ch, next, depth - 1, order)
  }

  function CollectSubtree(ch: Index, root: Pid, depth: nat, order: seq<Pid>): seq<Pid> {
    [root] + CollectBelow(ch, [root], depth, order)
  }

  lemma {:induction false} NextFrontierHolds(ch: Index, frontier: seq<Pid>, order: seq<Pid>, x: Pid)
    requires Covers(order, AllKids(ch))
    ensures x in NextFrontier(ch, frontier, order) <==> exists p <- frontier :: x in Kids(ch, p)
    decreases |frontier|
  {
    if frontier != [] {
      NextFrontierHolds(ch, frontier[1..], order, x);
      assert x in Kids(ch, frontier[0]) ==> x in AllKids(ch);
      assert forall p <- frontier :: p == frontier[0] || p in frontier[1..];
    }
  }

  lemma {:induction false} NextFrontierDistinct(ch: Index, frontier: seq<Pid>, order: seq<Pid>)
    requires Covers(order, AllKids(ch)) && Forest(ch) && Distinct(frontier)
    ensures Distinct(NextFrontier(ch, frontier, order))
    decreases |frontier|
  {
    if frontier != [] {
      var head, tail := Enumerate(Kids(ch, frontier[0]), order), NextFrontier(ch, frontier[1..], order);
      NextFrontierDistinct(ch, frontier[1..], order);
      forall x | x in head && x in tail ensures false {
        NextFrontierHolds(ch, frontier[1..], order, x);
      }
      DistinctConcat(head, tail);
    }
  }

  lemma DistinctConcat(a: seq<Pid>, b: seq<Pid>)
    requires Distinct(a) && Distinct(b) && forall x | x in a && x in b :: false
    ensures Distinct(a + b)
  {
    forall i, j | 0 <= i < j < |a + b| ensures (a + b)[i] != (a + b)[j] {
      if i < |a| && j >= |a| { assert a[i] in a && b[j - |a|] in b; }
    }
  }

  /** `frontier` lists the pids exactly `k` steps below `root`, each once. */
  ghost predicate IsLevel(ch: Index, root: Pid, frontier: seq<Pid>, k: nat) {
    Distinct(frontier) && forall x: Pid :: x in frontier <==> x in Level(ch, root, k)
  }

  lemma NextIsLevel(ch: Index, root: Pid, frontier: seq<Pid>, k: nat, order: seq<Pid>)
    requires Covers(order, AllKids(ch)) && Forest(ch) && IsLevel(ch, root, frontier, k)
    ensures IsLevel(ch, root, NextFrontier(ch, frontier, order), k + 1)
  {
    NextFrontierDistinct(ch, frontier, order);
    forall x: Pid ensures x in NextFrontier(ch, frontier, order) <==> x in Level(ch, root, k + 1) {
      NextFrontierHolds(ch, frontier, order, x);
    }
  }

  lemma {:induction false} EmptyLevelStaysEmpty(ch: Index, root: Pid, k: nat, m: nat)
    requires Level(ch, root, k) == {} && k <= m
    ensures Level(ch, root, m) == {}
    decreases m
  {
    if k < m { EmptyLevelStaysEmpty(ch, root, k, m - 1); }
  }

  ghost predicate BetweenLevels(ch: Index, root: Pid, lo: nat, hi: nat, x: Pid) {
    exists j: nat :: lo < j <= hi && x in Level(ch, root, j)
  }

  lemma BetweenSplits(ch: Index, root: Pid, lo: nat, hi: nat, x: Pid)
    requires lo < hi
    ensures BetweenLevels(ch, root, lo, hi, x) <==> x in Level(ch, root, lo + 1) || BetweenLevels(ch, root, lo + 1, hi, x)
  {
    var next := lo + 1;
    if x in Level(ch, root, next) { assert lo < next <= hi; }
    if BetweenLevels(ch, root, next, hi, x) {
      var j: nat :| next < j <= hi && x in Level(ch, root, j);
      assert lo < j;
    }
    if BetweenLevels(ch, root, lo, hi, x) {
      var j: nat :| lo < j <= hi && x in Level(ch, root, j);
      assert j == next || next < j;
    }
  }

  lemma NothingBelowEmpty(ch: Index, root: Pid, lo: nat, hi: nat, x: Pid)
    requires Level(ch, root, lo + 1) == {}
    ensures !BetweenLevels(ch, root, lo, hi, x)
  {
    if BetweenLevels(ch, root, lo, hi, x) {
      var j: nat :| lo < j <= hi && x in Level(ch, root, j);
      EmptyLevelStaysEmpty(ch, root, lo + 1, j);
      assert false;
    }
  }

  lemma {:induction false} CollectBelowHolds(ch: Index, root: Pid, frontier: seq<Pid>, k: nat, depth: nat, order: seq<Pid>, x: Pid)
    requires Covers(order, AllKids(ch)) && Forest(ch) && IsLevel(ch, root, frontier, k)
    ensures x in CollectBelow(ch, frontier, depth, order) <==> BetweenLevels(ch, root, k, k + depth, x)
    decreases depth
  {
    if depth > 0 {
      var next := NextFrontier(ch, frontier, order);
      NextIsLevel(ch, root, frontier, k, order);
      if next == [] {
        NothingBelowEmpty(ch, root, k, k + depth, x);
      } else {
        BetweenSplits(ch, root, k, k + depth, x);
        CollectBelowHolds(ch, root, next, k + 1, depth - 1, order, x);
      }
    }
  }

  /** A pid on two levels puts the root below itself. */
  lemma TwoLevelsLoop(ch: Index, root: Pid, lo: nat, hi: nat, x: Pid)
    requires Forest(ch) && x in Level(ch, root, lo) && BetweenLevels(ch, root, lo, hi, x)
    ensures BetweenLevels(ch, root, 0, hi, root)
  {
    var j: nat :| lo < j <= hi && x in Level(ch, root, j);
    SameDepth(ch, root, lo, j, x);
    assert 0 < j - lo <= hi;
  }

  lemma NextAndRestDisjoint(ch: Index, root: Pid, next: seq<Pid>, k: nat, depth: nat, order: seq<Pid>, x: Pid)
    requires Covers(order, AllKids(ch)) && Forest(ch) && IsLevel(ch, root, next, k)
    requires !BetweenLevels(ch, root, 0, k + depth, root)
    ensures !(x in next && x in CollectBelow(ch, next, depth, order))
  {
    CollectBelowHolds(ch, root, next, k, depth, order, x);
    if x in next && x in CollectBelow(ch, next, depth, order) { TwoLevelsLoop(ch, root, k, k + depth, x); }
  }

  lemma {:induction false} CollectBelowDistinct(ch: Index, root: Pid, frontier: seq<Pid>, k: nat, depth: nat, order: seq<Pid>)
    requires Covers(order, AllKids(ch)) && Forest(ch) && IsLevel(ch, root, frontier, k)
    requires !BetweenLevels(ch, root, 0, k + depth, root)
    ensures Distinct(CollectBelow(ch, frontier, depth, order))
    decreases depth
  {
    if depth > 0 {
      var next := NextFrontier(ch, frontier, order);
      NextIsLevel(ch, root, frontier, k, order);
      if next != [] {
        var rest := CollectBelow(ch, next, depth - 1, order);
        CollectBelowDistinct(ch, root, next, k + 1, depth - 1, order);
        forall x | x in next ensures x !in rest { NextAndRestDisjoint(ch, root, next, k + 1, depth - 1, order, x); }
        DistinctConcat(next, rest);
      }
    }
  }

  /** The collected pids are exactly those at most `depth` child steps below the root. */
  lemma SubtreeIsWithin(ch: Index, root: Pid, depth: nat, order: seq<Pid>, x: Pid)
    requires Covers(order, AllKids(ch)) && Forest(ch)
    ensures x in CollectSubtree(ch, root, depth, order) <==> x in Within(ch, root, depth)
  {
    assert IsLevel(ch, root, [root], 0);
    CollectBelowHolds(ch, root, [root], 0, depth, order, x);
    WithinIsLevels(ch, root, depth, x);
    if BelowWithin(ch, root, depth, x) {
      var k: nat :| k <= depth && x in Level(ch, root, k);
      assert k == 0 || 0 < k;
    }
    if x == root { assert x in Level(ch, root, 0); }
  }

  /** No pid is collected twice exactly when the root is not its own descendant within the depth. */
  lemma SubtreeDistinctIffNoLoop(ch: Index, root: Pid, depth: nat, order: seq<Pid>)
    requires Covers(order, AllKids(ch)) && Forest(ch)
    ensures Distinct(CollectSubtree(ch, root, depth, order)) <==> !BetweenLevels(ch, root, 0, depth, root)
  {
    assert IsLevel(ch, root, [root], 0);
    var below := CollectBelow(ch, [root], depth, order);
    CollectBelowHolds(ch, root, [root], 0, depth, order, root);
    if BetweenLevels(ch, root, 0, depth, root) {
      var j :| 0 <= j < |below| && below[j] == root;
      assert CollectSubtree(ch, root, depth, order)[0] == CollectSubtree(ch, root, depth, order)[j + 1];
    } else {
      CollectBelowDistinct(ch, root, [root], 0, depth, order);
      DistinctConcat([root], below);
    }
  }

  /** Deep enough, the bounded collection is the whole tree of the foreground walk. */
  lemma DeepSubtreeIsTree(t: Table, root: Pid, depth: nat, order: seq<Pid>, x: Pid)
    requires Agrees(t) && Covers(order, AllKids(t.children))
    ensures x in CollectSubtree(t.children, root, depth, order) ==> x in Tree(t.children, root)
    ensures depth >= |t.entries| ==> (x in CollectSubtree(t.children, root, depth, order) <==> x in Tree(t.children, root))
  {
    AgreementGivesForest(t);
    SubtreeIsWithin(t.children, root, depth, order, x);
    WithinIsInTree(t.children, root, depth);
    if depth >= |t.entries| {
      forall c | c in AllKids(t.children) ensures c in t.entries.Keys {
        var p :| p in t.children && c in t.children[p];
        assert c in Kids(t.children, p);
      }
      assert |t.entries.Keys| == |t.entries|;
      DeepEnoughIsTree(t.children, root, t.entries.Keys, depth);
    }
  }

  function ThrottleMoves(pids: seq<Pid>): Log {
    if pids == [] then [] else [Move(pids[0], Swapstorm, ByThrottle)] + ThrottleMoves(pids[1..])
  }

  lemma {:induction false} ThrottleMovesOnly(pids: seq<Pid>)
    ensures forall e <- ThrottleMoves(pids) :: e.Move? && e.cause == ByThrottle
    ensures forall p :: p in pids <==> Move(p, Swapstorm, ByThrottle) in ThrottleMoves(pids)
  {
    if pids != [] { ThrottleMovesOnly(pids[1..]); }
  }

  // ------------------------------------------------------------------------------------------
  // The objects
  // ------------------------------------------------------------------------------------------

  class ForkWindow {
    var timestamps: seq<Instant>
    const threshold: nat

    constructor (threshold: nat)
      ensures timestamps == [] && this.threshold == threshold
    {
      timestamps := [];
      this.threshold := threshold;
    }

    /** Record a fork; true if the rate has reached the threshold. */
    method Record(now: Instant) returns (exceeded: bool)
      modifies this
      ensures timestamps == Slide(old(timestamps), now)
      ensures exceeded <==> |timestamps| >= threshold
    {
      var cutoff := now - WINDOW;
      while timestamps != [] && timestamps[0] < cutoff
        invariant Evict(timestamps, cutoff) == Evict(old(timestamps), cutoff)
        decreases |timestamps|
      {
        timestamps := timestamps[1..];
      }
      timestamps := timestamps + [now];
      exceeded := |timestamps| >= threshold;
    }

    /** Forks within the last second. */
    method Rate(now: Instant) returns (n: nat)
      ensures n == CountSince(timestamps, now - WINDOW)
    {
      n := 0;
      for i := 0 to |timestamps|
        invariant n == CountSince(timestamps[..i], now - WINDOW)
      {
        assert timestamps[..i + 1][..i] == timestamps[..i];
        if timestamps[i] >= now - WINDOW { n := n + 1; }
      }
      assert timestamps[..|timestamps|] == timestamps;
    }
  }

  class ForkBombDetector {
    var windows: map<Pid, ForkWindow>
    const threshold: nat
    const lineageDepth: nat
    var throttled: set<Pid>

    ghost predicate Valid()
      reads this, windows.Values
    {
      && (forall p, q :: p in windows && q in windows && p != q ==> windows[p] != windows[q])
      && (forall p <- windows :: windows[p].threshold == threshold)
    }

    ghost function View(): Detector
      reads this, windows.Values
    {
      Detector(map p | p in windows :: windows[p].timestamps, throttled, threshold)
    }

    constructor (threshold: nat, lineageDepth: nat)
      ensures Valid() && View() == Start(threshold) && windows == map[]
      ensures this.threshold == threshold && this.lineageDepth == lineageDepth
    {
      windows, throttled := map[], {};
      this.threshold, this.lineageDepth := threshold, lineageDepth;
    }

    /** The window of `parent`, a new one if it has none. */
    method WindowFor(parent: Pid) returns (window: ForkWindow)
      requires Valid()
      modifies this`windows
      ensures Valid() && parent in windows && windows[parent] == window && (window in old(windows.Values) || fresh(window))
      ensures windows == old(windows)[parent := window] && window.timestamps == old(View()).WindowOf(parent)
    {
      if parent !in windows {
        var added := new ForkWindow(threshold);
        windows := windows[parent := added];
      }
      window := windows[parent];
    }

    method RecordFork(parent: Pid, now: Instant) returns (bomb: Option<Pid>)
      requires Valid()
      modifies this, windows.Values
      ensures Valid() && forall w <- windows.Values :: w in old(windows.Values) || fresh(w)
      ensures (View(), bomb) == old(View()).RecordFork(parent, now)
    {
      if parent in throttled { return None; }
      var window := WindowFor(parent);
      var exceeded := window.Record(now);
      ghost var slid := Slide(old(View()).WindowOf(parent), now);
      assert View().windows == old(View()).windows[parent := slid];
      bomb := None;
      if exceeded {
        throttled := throttled + {parent};
        bomb := Some(parent);
      }
      assert View() == old(View()).RecordFork(parent, now).0;
    }

    method Gc(now: Instant)
      requires Valid()
      modifies this
      ensures Valid() && windows.Values <= old(windows.Values)
      ensures View() == old(View()).Gc(now)
    {
      var stale := set p | p in windows &&
        (windows[p].timestamps == [] || windows[p].timestamps[|windows[p].timestamps| - 1] < now - COLD);
      assert stale == View().ColdPids(now);
      windows := windows - stale;
      throttled := throttled - stale;
    }

    /** The children of the pids of one level. */
    static method ChildrenOfAll(ch: Index, frontier: seq<Pid>, order: seq<Pid>) returns (next: seq<Pid>)
      ensures next == NextFrontier(ch, frontier, order)
    {
      next := [];
      for i := 0 to |frontier|
        invariant next + NextFrontier(ch, frontier[i..], order) == NextFrontier(ch, frontier, order)
      {
        assert frontier[i..][1..] == frontier[i + 1..];
        Regroup(next, Enumerate(Kids(ch, frontier[i]), order), NextFrontier(ch, frontier[i + 1..], order));
        next := next + Enumerate(Kids(ch, frontier[i]), order);
      }
    }

    method CollectPids(root: Pid, table: ProcessTable, depth: nat, order: seq<Pid>) returns (result: seq<Pid>)
      ensures result == CollectSubtree(table.children, root, depth, order)
    {
      var ch := table.children;
      result := [root];
      var frontier := [root];
      for d := 0 to depth
        invariant result + CollectBelow(ch, frontier, depth - d, order) == CollectSubtree(ch, root, depth, order)
      {
        var next := ChildrenOfAll(ch, frontier, order);
        Regroup(result, next, CollectBelow(ch, next, depth - d - 1, order));
        result := result + next;
        if next == [] { break; }
        frontier := next;
      }
    }

    method ThrottleSubtree(root: Pid, table: ProcessTable, order: seq<Pid>) returns (count: nat, issued: Log)
      ensures var pids := CollectSubtree(table.children, root, lineageDepth, order);
              count == |pids| && issued == ThrottleMoves(pids)
    {
      var pids := CollectPids(root, table, lineageDepth, order);
      count := |pids|;
      issued := [];
      for i := 0 to |pids|
        invariant issued + ThrottleMoves(pids[i..]) == ThrottleMoves(pids)
      {
        issued := issued + [Move(pids[i], Swapstorm, ByThrottle)];
        assert pids[i..][1..] == pids[i + 1..];
      }
    }
  }
}
