/** The foreground tree: the walk up through parent pids, the closure down the index, and the boosts. */
module Foreground {
  import opened Wrappers
  import opened Types
  import opened Effects
  import opened ProcessTables
  import opened Descendants

  /** Names of compositors, session launchers, display managers and init processes. */
  const SESSION_ROOTS: seq<string> := [
    "sway", "kwin_wayland", "kwin_x11", "mutter", "weston",
    "gamescope", "Hyprland", "river", "wayfire", "labwc",
    "openbox", "i3", "bspwm", "herbstluftwm", "qtile",
    "awesome", "xmonad", "dwm", "spectrwm", "fluxbox",
    "jwm", "icewm", "matchbox-window-manager",
    "Xorg", "X", "Xwayland",
    "dbus-run-session", "dbus-launch", "dbus-daemon",
    "startx", "xinit", "sx",
    "gnome-session", "gnome-session-binary",
    "plasma_session", "startplasma-wayland", "startplasma-x11",
    "xfce4-session", "lxsession", "mate-session",
    "openbox-session", "i3-session",
    "sddm", "gdm", "gdm3", "lightdm", "greetd", "lxdm", "slim",
    "systemd", "init"
  ]

  const FOCUS_NICE: int := -5

  predicate IsSessionRoot(comm: string) {
    comm in SESSION_ROOTS
  }

  predicate EndsWith(s: string, suffix: string) {
    |s| >= |suffix| && s[|s| - |suffix|..] == suffix
  }

  predicate InRtTier(info: ProcessInfo) {
    info.cgroupPath.Some? && EndsWith(info.cgroupPath.value, "/rt")
  }

  predicate KnownSessionRoot(t: Table, pid: Pid) {
    pid in t.entries && IsSessionRoot(t.entries[pid].info.comm)
  }

  // ------------------------------------------------------------------------------------------
  // The walk up
  // ------------------------------------------------------------------------------------------

  /** The walk does not go on from `c` to its parent. */
  predicate StopsAt(t: Table, c: Pid) {
    || c !in t.entries
    || KnownSessionRoot(t, c)
    || var ppid := t.entries[c].info.ppid;
       || ppid == 0 || ppid == 1 || ppid == c
       || ppid !in t.entries
       || KnownSessionRoot(t, ppid)
       || InRtTier(t.entries[ppid].info)
  }

  /** The pid reached from `c` by `k` parent steps, none of them out of a stopping pid. */
  function Up(t: Table, c: Pid, k: nat): Option<Pid>
    decreases k
  {
    if k == 0 then Some(c)
    else if StopsAt(t, c) then None
    else Up(t, t.entries[c].info.ppid, k - 1)
  }

  /** The walk from `c` is over after at most `n` steps. */
  predicate StopsIn(t: Table, c: Pid, n: nat)
    decreases n
  {
    StopsAt(t, c) || (n > 0 && StopsIn(t, t.entries[c].info.ppid, n - 1))
  }

  ghost predicate WalkEnds(t: Table, c: Pid) {
    exists n: nat :: StopsIn(t, c, n)
  }

  /** The pid at which the walk stops. */
  function StopAfter(t: Table, c: Pid, n: nat): (r: Pid)
    requires StopsIn(t, c, n)
    ensures StopsAt(t, r)
    decreases n
  {
    if StopsAt(t, c) then c else StopAfter(t, t.entries[c].info.ppid, n - 1)
  }

  /** None is the answer for a walk that ends on a session root. */
  function RootAfter(t: Table, c: Pid, n: nat): Option<Pid>
    requires StopsIn(t, c, n)
  {
    var r := StopAfter(t, c, n);
    if KnownSessionRoot(t, r) then None else Some(r)
  }

  lemma {:induction false} MoreStepsSameStop(t: Table, c: Pid, m: nat, n: nat)
    requires StopsIn(t, c, m) && StopsIn(t, c, n)
    ensures StopAfter(t, c, m) == StopAfter(t, c, n)
    decreases m
  {
    if !StopsAt(t, c) { MoreStepsSameStop(t, t.entries[c].info.ppid, m - 1, n - 1); }
  }

  lemma {:induction false} StopsInMore(t: Table, c: Pid, m: nat, n: nat)
    requires StopsIn(t, c, m) && m <= n
    ensures StopsIn(t, c, n)
    decreases m
  {
    if !StopsAt(t, c) { StopsInMore(t, t.entries[c].info.ppid, m - 1, n - 1); }
  }

  lemma {:induction false} UpUp(t: Table, c: Pid, i: nat, k: nat)
    requires Up(t, c, i).Some?
    ensures Up(t, c, i + k) == Up(t, Up(t, c, i).value, k)
    decreases i
  {
    if i > 0 { UpUp(t, t.entries[c].info.ppid, i - 1, k); }
  }

  lemma {:induction false} NotStoppedMeansUp(t: Table, c: Pid, n: nat)
    ensures StopsIn(t, c, n) <==> Up(t, c, n + 1).None?
    decreases n
  {
    if n > 0 && !StopsAt(t, c) {
      NotStoppedMeansUp(t, t.entries[c].info.ppid, n - 1);
    } else if n == 0 && !StopsAt(t, c) {
      assert Up(t, t.entries[c].info.ppid, 0).Some?;
    }
  }

  /** The pids met in the first `n` steps, the starting pid included. */
  function Met(t: Table, c: Pid, n: nat): set<Pid> {
    if n == 0 then {c}
    else Met(t, c, n - 1) + (if Up(t, c, n).Some? then {Up(t, c, n).value} else {})
  }

  lemma {:induction false} MetIsUp(t: Table, c: Pid, n: nat, x: Pid)
    requires x in Met(t, c, n)
    ensures exists k: nat :: k <= n && Up(t, c, k) == Some(x)
    decreases n
  {
    if n == 0 {
      assert Up(t, c, 0) == Some(x);
    } else if x in Met(t, c, n - 1) {
      MetIsUp(t, c, n - 1, x);
      var k: nat :| k <= n - 1 && Up(t, c, k) == Some(x);
    }
  }

  /** Some pid is met twice. */
  ghost predicate Cycles(t: Table, c: Pid) {
    exists i: nat, j: nat :: i < j && Up(t, c, i).Some? && Up(t, c, j) == Up(t, c, i)
  }

  /** A walk that meets a pid twice never ends. */
  lemma {:induction false} CycleNeverEnds(t: Table, c: Pid, i: nat, j: nat, n: nat)
    requires i < j && Up(t, c, i).Some? && Up(t, c, j) == Up(t, c, i)
    ensures !StopsIn(t, c, n)
    decreases n
  {
    if n < j {
      NotStoppedMeansUp(t, c, n);
      if StopsIn(t, c, n) {
        assert Up(t, c, n + 1).None?;
        UpStaysDown(t, c, n + 1, j);
        assert false;
      }
    } else {
      // the walk is as far after n steps as after n - (j - i)
      var m := n - (j - i);
      CycleNeverEnds(t, c, i, j, m);
      NotStoppedMeansUp(t, c, m);
      NotStoppedMeansUp(t, c, n);
      UpUp(t, c, i, m + 1 - i);
      UpUp(t, c, j, n + 1 - j);
    }
  }

  lemma {:induction false} UpStaysDown(t: Table, c: Pid, k: nat, m: nat)
    requires Up(t, c, k).None? && k <= m
    ensures Up(t, c, m).None?
    decreases k
  {
    if !StopsAt(t, c) { UpStaysDown(t, t.entries[c].info.ppid, k - 1, m - 1); }
  }

  lemma {:induction false} UpIsKnown(t: Table, c: Pid, k: nat)
    requires c in t.entries && Up(t, c, k).Some?
    ensures Up(t, c, k).value in t.entries
    decreases k
  {
    if k > 0 { UpIsKnown(t, t.entries[c].info.ppid, k - 1); }
  }

  lemma EveryStepIsNew(t: Table, c: Pid, n: nat)
    requires n > 0 && !Cycles(t, c) && Up(t, c, n).Some?
    ensures Up(t, c, n).value !in Met(t, c, n - 1)
  {
    var x := Up(t, c, n).value;
    if x in Met(t, c, n - 1) { MetIsUp(t, c, n - 1, x); }
  }

  /** As long as no pid is met twice, every step meets one more entry. */
  lemma {:induction false} MetGrows(t: Table, c: Pid, n: nat)
    requires c in t.entries && !Cycles(t, c) && Up(t, c, n).Some?
    ensures |Met(t, c, n)| == n + 1 && Met(t, c, n) <= t.entries.Keys
    decreases n
  {
    if n > 0 {
      assert Up(t, c, n - 1).Some? by { if Up(t, c, n - 1).None? { UpStaysDown(t, c, n - 1, n); } }
      MetGrows(t, c, n - 1);
      UpIsKnown(t, c, n);
      EveryStepIsNew(t, c, n);
      assert Met(t, c, n) == Met(t, c, n - 1) + {Up(t, c, n).value};
    }
  }

  lemma SubsetSize(a: set<Pid>, b: set<Pid>)
    requires a <= b
    ensures |a| <= |b|
  {
    assert b == a + (b - a);
  }

  /**
   * The walk ends exactly when no pid is met twice; and when it ends, it does so within as many
   * steps as the table has entries.
   */
  lemma WalkEndsIffAcyclic(t: Table, c: Pid)
    ensures WalkEnds(t, c) <==> !Cycles(t, c)
    ensures WalkEnds(t, c) <==> StopsIn(t, c, |t.entries|)
  {
    if Cycles(t, c) {
      var i: nat, j: nat :| i < j && Up(t, c, i).Some? && Up(t, c, j) == Up(t, c, i);
      forall n: nat ensures !StopsIn(t, c, n) { CycleNeverEnds(t, c, i, j, n); }
    } else {
      var n := |t.entries|;
      NotStoppedMeansUp(t, c, n);
      assert |t.entries.Keys| == n;
      if !StopsIn(t, c, n) {
        MetGrows(t, c, n + 1);
        SubsetSize(Met(t, c, n + 1), t.entries.Keys);
        assert false;
      }
    }
  }

  /** Parent pids form a cycle longer than a self-loop: the walk up never ends. */
  lemma TwoCycleNeverEnds(t: Table, a: Pid, b: Pid)
    requires a in t.entries && b in t.entries && a != b && a > 1 && b > 1
    requires t.entries[a].info.ppid == b && t.entries[b].info.ppid == a
    requires !KnownSessionRoot(t, a) && !KnownSessionRoot(t, b)
    requires !InRtTier(t.entries[a].info) && !InRtTier(t.entries[b].info)
    ensures !WalkEnds(t, a)
  {
    assert Up(t, a, 2) == Up(t, t.entries[a].info.ppid, 1) == Up(t, a, 0);
    assert Up(t, a, 0) == Some(a);
    WalkEndsIffAcyclic(t, a);
  }

  /** Up to the first pid at which a stop condition holds, and through no session root. */
  lemma {:induction false} WalkIsFirstStop(t: Table, c: Pid, n: nat) returns (k: nat)
    requires StopsIn(t, c, n)
    ensures k <= n && Up(t, c, k) == Some(StopAfter(t, c, n))
    ensures forall i: nat :: i < k ==> Up(t, c, i).Some? && !StopsAt(t, Up(t, c, i).value) && !KnownSessionRoot(t, Up(t, c, i).value)
    decreases n
  {
    if StopsAt(t, c) {
      k := 0;
    } else {
      var p := t.entries[c].info.ppid;
      k := WalkIsFirstStop(t, p, n - 1);
      forall i: nat | i < k + 1
        ensures Up(t, c, i).Some? && !StopsAt(t, Up(t, c, i).value) && !KnownSessionRoot(t, Up(t, c, i).value)
      {
        if i > 0 { assert Up(t, c, i) == Up(t, p, i - 1); }
      }
      k := k + 1;
    }
  }

  /** A walk that starts below the session never ends on a session root: the None answer is dead. */
  lemma {:induction false} NeverEndsOnSessionRoot(t: Table, c: Pid, n: nat)
    requires StopsIn(t, c, n) && !KnownSessionRoot(t, c)
    ensures RootAfter(t, c, n) == Some(StopAfter(t, c, n))
    ensures c in t.entries ==> StopAfter(t, c, n) in t.entries
    decreases n
  {
    if !StopsAt(t, c) { NeverEndsOnSessionRoot(t, t.entries[c].info.ppid, n - 1); }
  }

  /** The application root of `hint`, for a walk that ends. */
  function AppRoot(t: Table, hint: Pid): Pid
    requires StopsIn(t, hint, |t.entries|)
  {
    var r := RootAfter(t, hint, |t.entries|);
    if r.Some? then r.value else hint
  }

  // ------------------------------------------------------------------------------------------
  // The application root on the chain of parent pids
  // ------------------------------------------------------------------------------------------

  /** The `k`-th pid on the chain of parent pids from `c`, wherever that leads. */
  function Chain(t: Table, c: Pid, k: nat): Option<Pid>
    decreases k
  {
    if k == 0 then Some(c)
    else if c !in t.entries then None
    else Chain(t, t.entries[c].info.ppid, k - 1)
  }

  /**
   * The parent is an application process of its own: not pid 0 or 1 nor the process itself, known,
   * no session root and not in the real-time tier.
   */
  predicate HasAppParent(t: Table, c: Pid) {
    && c in t.entries
    && var p := t.entries[c].info.ppid;
       && p != 0 && p != 1 && p != c && p in t.entries
       && t.entries[p].info.comm !in SESSION_ROOTS
       && (t.entries[p].info.cgroupPath.Some? ==>
             var path := t.entries[p].info.cgroupPath.value; |path| < 3 || path[|path| - 3..] != "/rt")
  }

  /** The first pid on the chain from `hint` without such a parent. */
  ghost predicate IsAppRoot(t: Table, hint: Pid, root: Pid) {
    exists k: nat :: ReachesRoot(t, hint, root, k)
  }

  ghost predicate ReachesRoot(t: Table, hint: Pid, root: Pid, k: nat) {
    && Chain(t, hint, k) == Some(root) && !HasAppParent(t, root)
    && forall i: nat :: i < k ==> Chain(t, hint, i).Some? && HasAppParent(t, Chain(t, hint, i).value)
  }

  /** The walk goes on from an ordinary pid exactly if it has such a parent. */
  lemma StopsWithoutAppParent(t: Table, c: Pid)
    requires !(c in t.entries && t.entries[c].info.comm in SESSION_ROOTS)
    ensures StopsAt(t, c) <==> !HasAppParent(t, c)
  {
  }

  lemma {:induction false} WalkReachesRoot(t: Table, c: Pid, n: nat) returns (k: nat)
    requires StopsIn(t, c, n) && !(c in t.entries && t.entries[c].info.comm in SESSION_ROOTS)
    ensures ReachesRoot(t, c, StopAfter(t, c, n), k)
    decreases n
  {
    StopsWithoutAppParent(t, c);
    if StopsAt(t, c) {
      k := 0;
    } else {
      var p := t.entries[c].info.ppid;
      k := WalkReachesRoot(t, p, n - 1);
      forall i: nat | i < k + 1 ensures Chain(t, c, i).Some? && HasAppParent(t, Chain(t, c, i).value) {
        if i > 0 { assert Chain(t, c, i) == Chain(t, p, i - 1); }
      }
      k := k + 1;
    }
  }

  lemma {:induction false} RootEndsWalk(t: Table, c: Pid, root: Pid, k: nat)
    requires ReachesRoot(t, c, root, k) && !(c in t.entries && t.entries[c].info.comm in SESSION_ROOTS)
    ensures StopsIn(t, c, k) && StopAfter(t, c, k) == root
    decreases k
  {
    StopsWithoutAppParent(t, c);
    assert Chain(t, c, 0) == Some(c);
    if k > 0 {
      var p := t.entries[c].info.ppid;
      forall i: nat | i < k - 1 ensures Chain(t, p, i).Some? && HasAppParent(t, Chain(t, p, i).value) {
        assert Chain(t, c, i + 1) == Chain(t, p, i);
      }
      RootEndsWalk(t, p, root, k - 1);
    }
  }

  /**
   * From a hint that is no session root the walk ends exactly if the chain of parent pids has a pid
   * without an application parent, and the application root is the first such pid.
   */
  lemma AppRootOnChain(t: Table, hint: Pid)
    requires !(hint in t.entries && t.entries[hint].info.comm in SESSION_ROOTS)
    ensures WalkEnds(t, hint) <==> exists root: Pid :: IsAppRoot(t, hint, root)
    ensures StopsIn(t, hint, |t.entries|) ==> forall root: Pid :: IsAppRoot(t, hint, root) <==> root == AppRoot(t, hint)
  {
    WalkEndsIffAcyclic(t, hint);
    if StopsIn(t, hint, |t.entries|) {
      var k := WalkReachesRoot(t, hint, |t.entries|);
      NeverEndsOnSessionRoot(t, hint, |t.entries|);
      assert IsAppRoot(t, hint, AppRoot(t, hint));
    }
    forall root: Pid, k: nat | ReachesRoot(t, hint, root, k)
      ensures WalkEnds(t, hint) && StopsIn(t, hint, |t.entries|) && root == AppRoot(t, hint)
    {
      RootEndsWalk(t, hint, root, k);
      NeverEndsOnSessionRoot(t, hint, |t.entries|);
      MoreStepsSameStop(t, hint, k, |t.entries|);
    }
  }

  // ------------------------------------------------------------------------------------------
  // The two walks meet
  // ------------------------------------------------------------------------------------------

  /** Every parent link the walk from `c` follows is live: the parent outlived the child's insertion. */
  predicate WalkedLinksLive(t: Table, c: Pid, n: nat)
    requires StopsIn(t, c, n)
    decreases n
  {
    StopsAt(t, c) ||
    var p := t.entries[c].info.ppid;
    LinkLive(t.hist, c, p) && WalkedLinksLive(t, p, n - 1)
  }

  lemma {:induction false} LiveLinksLeadDown(t: Table, c: Pid, n: nat) returns (k: nat)
    requires Agrees(t) && StopsIn(t, c, n) && WalkedLinksLive(t, c, n)
    ensures c in Level(t.children, StopAfter(t, c, n), k)
    decreases n
  {
    if StopsAt(t, c) {
      k := 0;
    } else {
      var p := t.entries[c].info.ppid;
      k := LiveLinksLeadDown(t, p, n - 1);
      assert KidAgrees(t, c, p);
      k := k + 1;
    }
  }

  lemma {:induction false} DownMeansLiveLinks(t: Table, c: Pid, n: nat, k: nat)
    requires Agrees(t) && StopsIn(t, c, n) && c in Level(t.children, StopAfter(t, c, n), k)
    ensures WalkedLinksLive(t, c, n)
    decreases n
  {
    if !StopsAt(t, c) {
      var p := t.entries[c].info.ppid;
      assert StopAfter(t, c, n) == StopAfter(t, p, n - 1) != c;
      var q :| q in Level(t.children, StopAfter(t, c, n), k - 1) && c in Kids(t.children, q);
      assert KidAgrees(t, c, q);
      DownMeansLiveLinks(t, p, n - 1, k - 1);
    }
  }

  /**
   * The hint lies in the tree collected from its application root exactly when every parent link
   * walked on the way up is live.
   */
  lemma WalksMeet(t: Table, hint: Pid)
    requires Agrees(t) && !KnownSessionRoot(t, hint) && StopsIn(t, hint, |t.entries|)
    ensures hint in Tree(t.children, AppRoot(t, hint)) <==> WalkedLinksLive(t, hint, |t.entries|)
  {
    var n := |t.entries|;
    NeverEndsOnSessionRoot(t, hint, n);
    if WalkedLinksLive(t, hint, n) {
      var k := LiveLinksLeadDown(t, hint, n);
      assert Below(t.children, AppRoot(t, hint), hint);
    }
    if hint in Tree(t.children, AppRoot(t, hint)) {
      var k: nat :| hint in Level(t.children, AppRoot(t, hint), k);
      DownMeansLiveLinks(t, hint, n, k);
    }
  }

  // ------------------------------------------------------------------------------------------
  // The tracker
  // ------------------------------------------------------------------------------------------

  datatype Focus = Focus(pids: set<Pid>, root: Option<Pid>)

  /** The pids a tree puts in the foreground: known, and not session roots. */
  ghost function Movable(t: Table, root: Pid): set<Pid> {
    set p | p in Tree(t.children, root) && p in t.entries && !KnownSessionRoot(t, p)
  }

  function Demotions(pids: seq<Pid>): Log {
    if pids == [] then []
    else [SetNice(pids[0], 0, ByFocus), Move(pids[0], System, ByFocus)] + Demotions(pids[1..])
  }

  function Promotions(pids: seq<Pid>): Log {
    if pids == [] then []
    else [SetNice(pids[0], FOCUS_NICE, ByFocus), Move(pids[0], Interactive, ByFocus)] + Promotions(pids[1..])
  }

  /** The new foreground and the requests issued; `order` is the iteration order of the pid sets. */
  ghost function SetForeground(f: Focus, t: Table, hint: Pid, order: seq<Pid>): (Focus, Log)
    requires !KnownSessionRoot(t, hint) ==> StopsIn(t, hint, |t.entries|)
  {
    if KnownSessionRoot(t, hint) then (f, [])
    else
      var root := AppRoot(t, hint);
      var pids := Movable(t, root);
      if pids == {} then (f, [])
      else (Focus(pids, Some(root)),
            Demotions(Enumerate(f.pids - pids, order)) + Promotions(Enumerate(pids, order)))
  }

  function OnExit(f: Focus, pid: Pid): (Focus, Log) {
    if pid in f.pids then (f.(pids := f.pids - {pid}), [SetNice(pid, 0, ByFocus)]) else (f, [])
  }

  /**
   * After a known, ordinary hint the foreground is exactly the movable part of the application
   * tree; the hint itself is in it exactly when every link walked is live.
   */
  lemma HintIsForeground(f: Focus, t: Table, hint: Pid, order: seq<Pid>)
    requires Agrees(t) && hint in t.entries && !KnownSessionRoot(t, hint) && StopsIn(t, hint, |t.entries|)
    ensures var f' := SetForeground(f, t, hint, order).0;
            && f'.root == Some(AppRoot(t, hint))
            && f'.pids == Movable(t, AppRoot(t, hint))
            && AppRoot(t, hint) in f'.pids
            && (hint in f'.pids <==> WalkedLinksLive(t, hint, |t.entries|))
  {
    WalksMeet(t, hint);
    NeverEndsOnSessionRoot(t, hint, |t.entries|);
    var root := AppRoot(t, hint);
    assert root in Level(t.children, root, 0);
    assert Below(t.children, root, root);
    assert root in Movable(t, root);
  }

  // What the tracker's own writes add up to ---------------------------------------------------

  lemma {:induction false} DemotionsNice(pids: seq<Pid>, p: Pid)
    ensures LastNice(Demotions(pids), p) == LastFocusNice(Demotions(pids), p) == if p in pids then Some(0) else None
    ensures NoReadNorForget(Demotions(pids), p)
  {
    if pids != [] {
      var head: Log := [SetNice(pids[0], 0, ByFocus), Move(pids[0], System, ByFocus)];
      DemotionsNice(pids[1..], p);
      NiceOfConcat(head, Demotions(pids[1..]), p);
      TwoRequests(head, p);
    }
  }

  lemma {:induction false} PromotionsNice(pids: seq<Pid>, p: Pid)
    ensures LastNice(Promotions(pids), p) == LastFocusNice(Promotions(pids), p) == if p in pids then Some(FOCUS_NICE) else None
    ensures NoReadNorForget(Promotions(pids), p)
  {
    if pids != [] {
      var head: Log := [SetNice(pids[0], FOCUS_NICE, ByFocus), Move(pids[0], Interactive, ByFocus)];
      PromotionsNice(pids[1..], p);
      NiceOfConcat(head, Promotions(pids[1..]), p);
      TwoRequests(head, p);
    }
  }

  lemma TwoRequests(log: Log, p: Pid)
    requires |log| == 2 && log[0].SetNice? && log[0].cause == ByFocus && log[1].Move?
    ensures LastNice(log, p) == LastFocusNice(log, p) == if log[0].pid == p then Some(log[0].nice) else None
  {
    assert log[..1][..0] == [];
    assert LastNice(log[..1][..0], p) == LastFocusNice(log[..1][..0], p) == None;
    assert LastNice(log, p) == LastNice(log[..1], p) && LastFocusNice(log, p) == LastFocusNice(log[..1], p);
  }

  /** The tracker's last write for a pid is the boost exactly when the pid is in the foreground. */
  ghost predicate BoostFollowsFocus(f: Focus, log: Log) {
    forall p: Pid :: LastFocusNice(log, p) == Some(FOCUS_NICE) <==> p in f.pids
  }

  /** The last nice value issued for a foreground pid, by anyone, is the boost. */
  ghost predicate BoostStands(f: Focus, log: Log) {
    forall p <- f.pids :: LastNice(log, p) == Some(FOCUS_NICE)
  }

  /** Moving the focus leaks no boost and loses none. */
  lemma SetForegroundKeepsBoosts(f: Focus, t: Table, hint: Pid, order: seq<Pid>, log: Log)
    requires !KnownSessionRoot(t, hint) ==> StopsIn(t, hint, |t.entries|)
    requires Distinct(order) && forall p: Pid :: p in f.pids || p in t.entries ==> p in order
    requires BoostFollowsFocus(f, log) && BoostStands(f, log)
    ensures var (f', issued) := SetForeground(f, t, hint, order);
            BoostFollowsFocus(f', log + issued) && BoostStands(f', log + issued)
    ensures forall p: Pid :: NoReadNorForget(SetForeground(f, t, hint, order).1, p)
  {
    var (f', issued) := SetForeground(f, t, hint, order);
    if f' == f && issued == [] {
      assert log + issued == log;
    } else {
      var down, up := Enumerate(f.pids - f'.pids, order), Enumerate(f'.pids, order);
      forall p: Pid
        ensures LastFocusNice(log + issued, p) == Some(FOCUS_NICE) <==> p in f'.pids
        ensures p in f'.pids ==> LastNice(log + issued, p) == Some(FOCUS_NICE)
        ensures NoReadNorForget(issued, p)
      {
        DemotionsNice(down, p);
        PromotionsNice(up, p);
        NiceOfConcat(Demotions(down), Promotions(up), p);
        NiceOfConcat(log, issued, p);
      }
    }
  }

  lemma OnExitKeepsBoosts(f: Focus, pid: Pid, log: Log)
    requires BoostFollowsFocus(f, log) && BoostStands(f, log)
    ensures var (f', issued) := OnExit(f, pid);
            BoostFollowsFocus(f', log + issued) && BoostStands(f', log + issued)
  {
    var (f', issued) := OnExit(f, pid);
    forall p: Pid
      ensures LastFocusNice(log + issued, p) == Some(FOCUS_NICE) <==> p in f'.pids
      ensures p in f'.pids ==> LastNice(log + issued, p) == Some(FOCUS_NICE)
    {
      NiceOfConcat(log, issued, p);
      assert issued != [] ==> issued[..0] == [];
    }
  }

  /** The last move of a foreground pid, of those by its own rule and by the tracker, is to the interactive tier. */
  ghost predicate PlaceStands(f: Focus, log: Log) {
    forall p <- f.pids :: LastPlace(log, p) == Some(Interactive)
  }

  lemma {:induction false} PromotionsPlace(pids: seq<Pid>, p: Pid)
    ensures LastPlace(Promotions(pids), p) == if p in pids then Some(Interactive) else None
  {
    if pids != [] {
      var head: Log := [SetNice(pids[0], FOCUS_NICE, ByFocus), Move(pids[0], Interactive, ByFocus)];
      PromotionsPlace(pids[1..], p);
      PlaceOfConcat(head, Promotions(pids[1..]), p);
      assert head[..1][..0] == [] && LastPlace(head[..1], p) == LastPlace(head[..1][..0], p) == None;
      assert pids == [pids[0]] + pids[1..];
    }
  }

  lemma SetForegroundKeepsPlaces(f: Focus, t: Table, hint: Pid, order: seq<Pid>, log: Log)
    requires !KnownSessionRoot(t, hint) ==> StopsIn(t, hint, |t.entries|)
    requires forall p: Pid :: p in f.pids || p in t.entries ==> p in order
    requires PlaceStands(f, log)
    ensures var (f', issued) := SetForeground(f, t, hint, order); PlaceStands(f', log + issued)
  {
    var (f', issued) := SetForeground(f, t, hint, order);
    if f' == f && issued == [] {
      assert log + issued == log;
    } else {
      var down, up := Enumerate(f.pids - f'.pids, order), Enumerate(f'.pids, order);
      forall p | p in f'.pids ensures LastPlace(log + issued, p) == Some(Interactive) {
        PromotionsPlace(up, p);
        PlaceOfConcat(Demotions(down), Promotions(up), p);
        PlaceOfConcat(log, issued, p);
      }
    }
  }

  lemma {:induction false} DemotionsPlace(pids: seq<Pid>, p: Pid)
    ensures LastPlace(Demotions(pids), p) == if p in pids then Some(System) else None
  {
    if pids != [] {
      var head: Log := [SetNice(pids[0], 0, ByFocus), Move(pids[0], System, ByFocus)];
      DemotionsPlace(pids[1..], p);
      PlaceOfConcat(head, Demotions(pids[1..]), p);
      assert head[..1][..0] == [] && LastPlace(head[..1], p) == LastPlace(head[..1][..0], p) == None;
      assert pids == [pids[0]] + pids[1..];
    }
  }

  /** A process that leaves the foreground with a new focus ends with nice 0 and in the system tier. */
  lemma LeavingIsDemoted(f: Focus, t: Table, hint: Pid, order: seq<Pid>, log: Log, p: Pid)
    requires !KnownSessionRoot(t, hint) ==> StopsIn(t, hint, |t.entries|)
    requires forall q: Pid :: q in f.pids || q in t.entries ==> q in order
    requires p in f.pids && p !in SetForeground(f, t, hint, order).0.pids
    ensures LastNice(log + SetForeground(f, t, hint, order).1, p) == Some(0)
    ensures LastPlace(log + SetForeground(f, t, hint, order).1, p) == Some(System)
  {
    var (f', issued) := SetForeground(f, t, hint, order);
    var down, up := Enumerate(f.pids - f'.pids, order), Enumerate(f'.pids, order);
    DemotionsNice(down, p);
    PromotionsNice(up, p);
    NiceOfConcat(Demotions(down), Promotions(up), p);
    NiceOfConcat(log, issued, p);
    DemotionsPlace(down, p);
    PromotionsPlace(up, p);
    PlaceOfConcat(Demotions(down), Promotions(up), p);
    PlaceOfConcat(log, issued, p);
  }

  /** A process that exits in the foreground ends with nice 0; any other exit issues nothing. */
  lemma ExitIsReset(f: Focus, pid: Pid, log: Log)
    ensures pid in f.pids ==> LastNice(log + OnExit(f, pid).1, pid) == Some(0) && OnExit(f, pid).0.pids == f.pids - {pid}
    ensures pid !in f.pids ==> OnExit(f, pid) == (f, [])
  {
    NiceOfConcat(log, OnExit(f, pid).1, pid);
  }

  lemma {:induction false} BoostsSetNoProfile(pids: seq<Pid>)
    ensures NoProfile(Demotions(pids)) && NoProfile(Promotions(pids))
  {
    if pids != [] { BoostsSetNoProfile(pids[1..]); }
  }

  lemma FocusSetsNoProfile(f: Focus, t: Table, hint: Pid, order: seq<Pid>)
    requires !KnownSessionRoot(t, hint) ==> StopsIn(t, hint, |t.entries|)
    ensures NoProfile(SetForeground(f, t, hint, order).1)
  {
    if !KnownSessionRoot(t, hint) {
      var pids := Movable(t, AppRoot(t, hint));
      BoostsSetNoProfile(Enumerate(f.pids - pids, order));
      BoostsSetNoProfile(Enumerate(pids, order));
    }
  }

  /** More requests, none of which places a foreground pid. */
  lemma PlacesStay(f: Focus, log: Log, issued: Log, f': Focus)
    requires PlaceStands(f, log) && f'.pids <= f.pids && forall p <- f'.pids :: NoPlace(issued, p)
    ensures PlaceStands(f', log + issued)
  {
    forall p | p in f'.pids ensures LastPlace(log + issued, p) == Some(Interactive) {
      PlaceOfConcat(log, issued, p);
      NoPlaceNoLast(issued, p);
    }
  }

  /** Rule writes that spare the foreground leave both facts alone. */
  lemma RuleWritesKeepBoosts(f: Focus, log: Log, issued: Log)
    requires BoostFollowsFocus(f, log) && BoostStands(f, log)
    requires NoFocusNice(issued) && forall p <- f.pids :: NoNice(issued, p)
    ensures BoostFollowsFocus(f, log + issued) && BoostStands(f, log + issued)
  {
    forall p: Pid
      ensures LastFocusNice(log + issued, p) == Some(FOCUS_NICE) <==> p in f.pids
      ensures p in f.pids ==> LastNice(log + issued, p) == Some(FOCUS_NICE)
    {
      NiceOfConcat(log, issued, p);
      NoFocusNiceNoLast(issued, p);
      if p in f.pids { NoNiceNoLast(issued, p); }
    }
  }

  // ------------------------------------------------------------------------------------------
  // The object
  // ------------------------------------------------------------------------------------------

  lemma RootOfWalk(t: Table, pid: Pid)
    requires StopsIn(t, pid, |t.entries|)
    ensures var r := RootAfter(t, pid, |t.entries|);
            if pid in t.entries && t.entries[pid].info.comm in SESSION_ROOTS then r.None?
            else r.Some? && IsAppRoot(t, pid, r.value)
  {
    if !(pid in t.entries && t.entries[pid].info.comm in SESSION_ROOTS) {
      AppRootOnChain(t, pid);
      NeverEndsOnSessionRoot(t, pid, |t.entries|);
    }
  }

  /** Walk up from `pid`; a walk that does not end is the one case in which this does not return. */
  method FindAppRoot(pid: Pid, table: ProcessTable) returns (r: Option<Pid>)
    requires WalkEnds(table.View(), pid)
    ensures StopsIn(table.View(), pid, |table.entries|)
    ensures r == RootAfter(table.View(), pid, |table.entries|)
    ensures if pid in table.entries && table.entries[pid].info.comm in SESSION_ROOTS then r.None?
            else r.Some? && IsAppRoot(table.View(), pid, r.value)
  {
    ghost var t := table.View();
    WalkEndsIffAcyclic(t, pid);
    RootOfWalk(t, pid);
    var current := pid;
    ghost var left: nat := |t.entries|;
    while true
      invariant StopsIn(t, current, left)
      invariant StopAfter(t, current, left) == StopAfter(t, pid, |t.entries|)
      decreases left
    {
      if current !in table.entries { return Some(current); }
      var info := table.entries[current].info;
      if IsSessionRoot(info.comm) { return None; }
      var ppid := info.ppid;
      if ppid == 0 || ppid == 1 || ppid == current { return Some(current); }
      if ppid !in table.entries { return Some(current); }
      var parent := table.entries[ppid].info;
      if IsSessionRoot(parent.comm) { return Some(current); }
      if InRtTier(parent) { return Some(current); }
      current := ppid;
      left := left - 1;
    }
  }

  /** The worklist closure over the children index. */
  method CollectTree(root: Pid, table: ProcessTable) returns (result: set<Pid>)
    ensures result == Tree(table.children, root)
  {
    var ch := table.children;
    ghost var all := Tree(ch, root);
    assert root in Level(ch, root, 0);
    result := {};
    var queue := [root];
    while queue != []
      invariant result <= all && forall x <- queue :: x in all
      invariant root in result || root in queue
      invariant forall x, c :: x in result && c in Kids(ch, x) ==> c in result || c in queue
      decreases all - result, |queue|
    {
      var pid := queue[|queue| - 1];
      ghost var before := queue;
      queue := queue[..|queue| - 1];
      assert forall x <- before :: x in queue || x == pid;
      if pid !in result {
        result := result + {pid};
        var kids := Kids(ch, pid);
        ghost var kept := queue;
        while kids != {}
          invariant kids <= Kids(ch, pid)
          invariant forall x <- kept :: x in queue
          invariant forall x <- queue :: x in kept || x in Kids(ch, pid)
          invariant forall x <- Kids(ch, pid) :: x in kids || x in queue
          decreases kids
        {
          var c :| c in kids;
          queue := queue + [c];
          kids := kids - {c};
        }
        forall c | c in Kids(ch, pid) ensures c in all { KidBelow(ch, root, pid, c); }
      }
    }
    forall x | x in all ensures x in result {
      var n: nat :| x in Level(ch, root, n);
      ClosedHoldsLevel(ch, root, result, n);
    }
  }

  lemma KidBelow(ch: Index, root: Pid, p: Pid, c: Pid)
    requires Below(ch, root, p) && c in Kids(ch, p)
    ensures Below(ch, root, c)
  {
    var n: nat :| p in Level(ch, root, n);
    assert c in Level(ch, root, n + 1);
  }

  method Demote(pids: seq<Pid>) returns (issued: Log)
    ensures issued == Demotions(pids)
  {
    issued := [];
    for i := 0 to |pids|
      invariant issued + Demotions(pids[i..]) == Demotions(pids)
    {
      issued := issued + [SetNice(pids[i], 0, ByFocus), Move(pids[i], System, ByFocus)];
      assert pids[i..][1..] == pids[i + 1..];
    }
  }

  method Promote(pids: seq<Pid>) returns (issued: Log)
    ensures issued == Promotions(pids)
  {
    issued := [];
    for i := 0 to |pids|
      invariant issued + Promotions(pids[i..]) == Promotions(pids)
    {
      issued := issued + [SetNice(pids[i], FOCUS_NICE, ByFocus), Move(pids[i], Interactive, ByFocus)];
      assert pids[i..][1..] == pids[i + 1..];
    }
  }

  class ForegroundTracker {
    var currentPids: set<Pid>
    var currentRoot: Option<Pid>

    ghost function View(): Focus
      reads this
    {
      Focus(currentPids, currentRoot)
    }

    constructor ()
      ensures View() == Focus({}, None)
    {
      currentPids, currentRoot := {}, None;
    }

    predicate IsForeground(pid: Pid)
      reads this
    {
      pid in currentPids
    }

    method SetForegroundProcess(hint: Pid, table: ProcessTable, order: seq<Pid>) returns (issued: Log)
      requires !KnownSessionRoot(table.View(), hint) ==> WalkEnds(table.View(), hint)
      modifies this
      ensures !KnownSessionRoot(table.View(), hint) ==> StopsIn(table.View(), hint, |table.entries|)
      ensures (View(), issued) == SetForeground(old(View()), table.View(), hint, order)
    {
      issued := [];
      if hint in table.entries && IsSessionRoot(table.entries[hint].info.comm) { return; }
      var found := FindAppRoot(hint, table);
      var root := if found.Some? then found.value else hint;
      var tree := CollectTree(root, table);
      var newPids := set p | p in tree && p in table.entries && !IsSessionRoot(table.entries[p].info.comm);
      assert newPids == Movable(table.View(), root);
      if newPids == {} { return; }

      var demoted := Demote(Enumerate(currentPids - newPids, order));
      var promoted := Promote(Enumerate(newPids, order));
      issued := demoted + promoted;
      currentPids := newPids;
      currentRoot := Some(root);
    }

    method Exit(pid: Pid) returns (issued: Log)
      modifies this
      ensures (View(), issued) == OnExit(old(View()), pid)
    {
      issued := [];
      if pid in currentPids {
        currentPids := currentPids - {pid};
        issued := [SetNice(pid, 0, ByFocus)];
      }
    }
  }
}
