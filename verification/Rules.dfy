/** The rule engine: matching, exemption, and the merge of the rules that match. */
module Rules {
  import opened Wrappers
  import opened Types

  // ------------------------------------------------------------------------------------------
  // Matching
  // ------------------------------------------------------------------------------------------

  /** Compiled match criteria; an empty list or None puts no restriction. */
  datatype Matchers = Matchers(
    comm: seq<string>,
    commPrefix: seq<string>,
    cmdlineContains: seq<string>,
    exePath: seq<string>,
    uid: seq<nat>,
    uidMin: Option<nat>,
    uidMax: Option<nat>,
    envSet: seq<string>,
    minThreads: Option<nat>,
    minRssMb: Option<nat>,
    parentComm: seq<string>,
    cgroupPathContains: seq<string>,
    cgroupPathGlob: Option<string>,
    cgroupPathExact: Option<string>)

  predicate HasAt(s: string, part: string, i: int) {
    0 <= i <= |s| - |part| && s[i..i + |part|] == part
  }

  predicate Contains(s: string, part: string) {
    exists i | 0 <= i <= |s| - |part| :: HasAt(s, part, i)
  }

  /** Wildcard match: `*` stands for any text, `?` for any one character. */
  predicate GlobMatches(pattern: string, s: string)
    decreases |pattern| + |s|
  {
    if pattern == "" then s == ""
    else if pattern[0] == '*' then GlobMatches(pattern[1..], s) || (s != "" && GlobMatches(pattern, s[1..]))
    else s != "" && (pattern[0] == '?' || pattern[0] == s[0]) && GlobMatches(pattern[1..], s[1..])
  }

  function Joined(words: seq<string>): string {
    if words == [] then "" else if |words| == 1 then words[0] else words[0] + " " + Joined(words[1..])
  }

  predicate Matches(m: Matchers, p: ProcessInfo, parent: Option<string>) {
    if m.comm != [] && p.comm !in m.comm then false
    else if m.commPrefix != [] && !(exists c <- m.commPrefix :: c <= p.comm) then false
    else if m.cmdlineContains != [] && !(exists c <- m.cmdlineContains :: Contains(Joined(p.cmdline), c)) then false
    else if m.exePath != [] && !(p.exe.Some? && p.exe.value in m.exePath) then false
    else if m.uid != [] && p.uid !in m.uid then false
    else if m.uidMin.Some? && p.uid < m.uidMin.value then false
    else if m.uidMax.Some? && p.uid > m.uidMax.value then false
    else if m.envSet != [] && !(forall k <- m.envSet :: k in p.environ) then false
    else if m.minThreads.Some? && p.threads < m.minThreads.value then false
    else if m.minRssMb.Some? && p.vmRssKb / 1024 < m.minRssMb.value then false
    else if m.parentComm != [] && (if parent.Some? then parent.value else "") !in m.parentComm then false
    else if p.cgroupPath.Some? then
      if m.cgroupPathContains != [] && !(exists c <- m.cgroupPathContains :: Contains(p.cgroupPath.value, c)) then false
      else if m.cgroupPathGlob.Some? && !GlobMatches(m.cgroupPathGlob.value, p.cgroupPath.value) then false
      else if m.cgroupPathExact.Some? && p.cgroupPath.value != m.cgroupPathExact.value then false
      else true
    else if m.cgroupPathGlob.Some? || m.cgroupPathExact.Some? then false
    else true
  }

  /** A part is contained exactly if something before and after it makes it the whole. */
  lemma ContainsIffSplit(s: string, part: string)
    ensures Contains(s, part) <==> exists a: string, b: string :: s == a + part + b
  {
    if Contains(s, part) {
      var i :| 0 <= i <= |s| - |part| && HasAt(s, part, i);
      assert s == s[..i] + part + s[i + |part|..];
    }
    if a: string, b: string :| s == a + part + b {
      assert s[|a|..|a| + |part|] == part;
      assert HasAt(s, part, |a|);
    }
  }

  /** `*` stands for any text, `?` for any one character, every other character for itself. */
  lemma {:induction false} GlobByFirst(pattern: string, s: string)
    ensures pattern == "" ==> (GlobMatches(pattern, s) <==> s == "")
    ensures pattern != "" && pattern[0] == '*' ==>
              (GlobMatches(pattern, s) <==> exists k: nat :: k <= |s| && GlobMatches(pattern[1..], s[k..]))
    ensures pattern != "" && pattern[0] == '?' ==> (GlobMatches(pattern, s) <==> s != "" && GlobMatches(pattern[1..], s[1..]))
    ensures pattern != "" && pattern[0] != '*' && pattern[0] != '?' ==>
              (GlobMatches(pattern, s) <==> s != "" && s[0] == pattern[0] && GlobMatches(pattern[1..], s[1..]))
    decreases |s|
  {
    if pattern != "" && pattern[0] == '*' {
      assert s[0..] == s;
      if s != "" {
        GlobByFirst(pattern, s[1..]);
        if k: nat :| k <= |s[1..]| && GlobMatches(pattern[1..], s[1..][k..]) { assert s[1..][k..] == s[k + 1..]; }
        if k: nat :| 0 < k <= |s| && GlobMatches(pattern[1..], s[k..]) { assert s[1..][k - 1..] == s[k..]; }
      }
    }
  }

  /** A rule matches exactly if every criterion that is given is met. */
  lemma MatchesIff(m: Matchers, p: ProcessInfo, parent: Option<string>)
    ensures Matches(m, p, parent) <==>
            && (m.comm != [] ==> exists c <- m.comm :: p.comm == c)
            && (m.commPrefix != [] ==> exists c <- m.commPrefix :: |c| <= |p.comm| && p.comm[..|c|] == c)
            && (m.cmdlineContains != [] ==> exists c <- m.cmdlineContains :: Contains(Joined(p.cmdline), c))
            && (m.exePath != [] ==> exists x <- m.exePath :: p.exe == Some(x))
            && (m.uid != [] ==> exists u <- m.uid :: p.uid == u)
            && (m.uidMin.Some? ==> m.uidMin.value <= p.uid)
            && (m.uidMax.Some? ==> p.uid <= m.uidMax.value)
            && (forall k <- m.envSet :: k in p.environ)
            && (m.minThreads.Some? ==> m.minThreads.value <= p.threads)
            && (m.minRssMb.Some? ==> m.minRssMb.value * 1024 <= p.vmRssKb)
            && (m.parentComm != [] ==> exists c <- m.parentComm :: c == (match parent { case Some(name) => name case None => "" }))
            && (m.cgroupPathContains != [] && p.cgroupPath.Some? ==> exists c <- m.cgroupPathContains :: Contains(p.cgroupPath.value, c))
            && (m.cgroupPathGlob.Some? ==> p.cgroupPath.Some? && GlobMatches(m.cgroupPathGlob.value, p.cgroupPath.value))
            && (m.cgroupPathExact.Some? ==> p.cgroupPath == m.cgroupPathExact)
  {
    assert forall c <- m.commPrefix :: c <= p.comm <==> |c| <= |p.comm| && p.comm[..|c|] == c;
    if m.minRssMb.Some? { assert p.vmRssKb / 1024 >= m.minRssMb.value <==> m.minRssMb.value * 1024 <= p.vmRssKb; }
  }

  /** Words of a command line stand one after the other, one blank between two of them. */
  lemma {:induction false} JoinedOfConcat(a: seq<string>, b: seq<string>)
    requires a != [] && b != []
    ensures Joined(a + b) == Joined(a) + " " + Joined(b)
    decreases |a|
  {
    if |a| == 1 {
      assert (a + b)[1..] == b;
    } else {
      assert (a + b)[1..] == a[1..] + b;
      JoinedOfConcat(a[1..], b);
    }
  }

  /**
   * A process whose cgroup is unknown is judged as if `cgroup_path_contains` had not been
   * written, while either of the other two path criteria rejects it.
   */
  lemma UnknownCgroup(m: Matchers, p: ProcessInfo, parent: Option<string>)
    requires p.cgroupPath.None?
    ensures Matches(m, p, parent) <==>
            m.cgroupPathGlob.None? && m.cgroupPathExact.None? && Matches(m.(cgroupPathContains := []), p, parent)
  {
  }

  // ------------------------------------------------------------------------------------------
  // Exceptions
  // ------------------------------------------------------------------------------------------

  datatype ExceptionList = ExceptionList(fullyExempt: set<string>, noCgroupMove: set<string>, ancestorNames: set<string>)

  const DEFAULT_EXCEPTIONS: ExceptionList := ExceptionList(
    {"chrt", "ionice", "nice", "taskset", "schedtool", "gamemoderun", "rtkit-daemon",
     "bwrap", "bubblewrap", "firejail", "flatpak-spawn", "pressure-vessel"},
    {"sway", "kwin_wayland", "kwin_x11", "mutter", "weston",
     "gamescope", "Hyprland", "river", "wayfire", "labwc",
     "openbox", "i3", "bspwm", "herbstluftwm", "qtile",
     "awesome", "xmonad", "dwm", "spectrwm", "fluxbox", "jwm", "icewm",
     "Xorg", "X", "Xwayland",
     "sddm", "gdm", "gdm3", "lightdm", "greetd", "lxdm", "ly-dm",
     "dbus-daemon", "dbus-broker", "dbus-broker-lau"},
    {"chrt", "gamemoderun", "ionice", "nice", "taskset", "schedtool",
     "bwrap", "bubblewrap", "firejail", "flatpak-spawn", "pressure-vessel"})

  predicate IsExempt(ex: ExceptionList, p: ProcessInfo, ancestors: seq<string>) {
    p.comm in ex.fullyExempt || exists a <- ancestors :: a in ex.ancestorNames
  }

  predicate IsCgroupExempt(ex: ExceptionList, p: ProcessInfo, ancestors: seq<string>) {
    p.comm in ex.noCgroupMove || exists a <- ancestors :: a in ex.noCgroupMove
  }

  /** The ancestors without those called `name`. */
  function OtherThan(ancestors: seq<string>, name: string): seq<string> {
    if ancestors == [] then []
    else if ancestors[0] == name then OtherThan(ancestors[1..], name)
    else [ancestors[0]] + OtherThan(ancestors[1..], name)
  }

  lemma {:induction false} OtherThanHolds(ancestors: seq<string>, name: string)
    ensures forall a: string :: a in OtherThan(ancestors, name) <==> a in ancestors && a != name
  {
    if ancestors != [] {
      OtherThanHolds(ancestors[1..], name);
      assert ancestors == [ancestors[0]] + ancestors[1..];
    }
  }

  /**
   * An ancestor called `name` decides about an exemption from cgroup moves - for some process and
   * some other ancestors - exactly when the list holds the name.
   */
  lemma AncestorExemptsIffListed(ex: ExceptionList, name: string, plain: ProcessInfo)
    requires plain.comm !in ex.noCgroupMove
    ensures name !in ex.noCgroupMove <==>
            forall p: ProcessInfo, ancestors: seq<string> ::
              IsCgroupExempt(ex, p, ancestors) <==> IsCgroupExempt(ex, p, OtherThan(ancestors, name))
  {
    if name !in ex.noCgroupMove {
      forall p: ProcessInfo, ancestors: seq<string>
        ensures IsCgroupExempt(ex, p, ancestors) <==> IsCgroupExempt(ex, p, OtherThan(ancestors, name))
      {
        OtherThanHolds(ancestors, name);
      }
    } else {
      OtherThanHolds([name], name);
      assert name in [name];
      assert IsCgroupExempt(ex, plain, [name]) && !IsCgroupExempt(ex, plain, OtherThan([name], name));
    }
  }

  /**
   * Firefox and pipewire among the ancestors never exempt a process from cgroup moves, although
   * the unit tests of the engine expect it: the default list does not hold those names.
   */
  lemma FirefoxAndPipewireChildrenMove(name: string, p: ProcessInfo, ancestors: seq<string>)
    requires name in ["firefox", "pipewire"]
    ensures IsCgroupExempt(DEFAULT_EXCEPTIONS, p, ancestors) <==> IsCgroupExempt(DEFAULT_EXCEPTIONS, p, OtherThan(ancestors, name))
  {
    OtherThanHolds(ancestors, name);
    assert name !in DEFAULT_EXCEPTIONS.noCgroupMove;
  }

  // ------------------------------------------------------------------------------------------
  // The declarative meaning of a classification
  // ------------------------------------------------------------------------------------------

  /** Where a rule was read: directory, file name, position in the file.  Only orders rules. */
  datatype Origin = Origin(dir: nat, file: string, pos: nat)

  datatype Rule = Rule(name: string, priority: int, matchers: Matchers, action: Action, goesOn: bool, origin: Origin)

  predicate HasRtPolicy(p: ProcessInfo) {
    p.schedPolicy.Fifo? || p.schedPolicy.RoundRobin? || p.schedPolicy.Deadline?
  }

  /** The part of a rule's action that applies to this process. */
  function Stripped(r: Rule, cgroupExempt: bool, hasRt: bool): Action {
    r.action.(
      ruleName := r.name,
      cgroup := if cgroupExempt then None else r.action.cgroup,
      schedPolicy := if hasRt && r.action.schedPolicy == Some("normal") then None else r.action.schedPolicy)
  }

  /** The matching rules up to and including the first that does not go on. */
  function Hits(rules: seq<Rule>, p: ProcessInfo, parent: Option<string>): seq<Rule> {
    if rules == [] then []
    else if !Matches(rules[0].matchers, p, parent) then Hits(rules[1..], p, parent)
    else if rules[0].goesOn then [rules[0]] + Hits(rules[1..], p, parent)
    else [rules[0]]
  }

  const CGROUP: Action -> Option<string> := (a: Action) => a.cgroup
  const NICE: Action -> Option<int> := (a: Action) => a.nice
  const POLICY: Action -> Option<string> := (a: Action) => a.schedPolicy
  const PRIORITY: Action -> Option<nat> := (a: Action) => a.schedPriority
  const OOM_SCORE: Action -> Option<int> := (a: Action) => a.oomScoreAdj
  const IO_WEIGHT: Action -> Option<nat> := (a: Action) => a.ioWeight
  const RECHECK: Action -> Option<nat> := (a: Action) => a.recheckSecs

  /** What the first of the actions that says something about a field says. */
  function FirstOf<T>(acts: seq<Action>, field: Action -> Option<T>): Option<T> {
    if acts == [] then None
    else if field(acts[0]).Some? then field(acts[0])
    else FirstOf(acts[1..], field)
  }

  /** It is the answer of some action, and every action before that one says nothing. */
  lemma {:induction false} FirstOfIsFirst<T>(acts: seq<Action>, field: Action -> Option<T>)
    ensures FirstOf(acts, field).None? <==> forall i :: 0 <= i < |acts| ==> field(acts[i]).None?
    ensures FirstOf(acts, field).Some? ==>
              exists i :: 0 <= i < |acts| && field(acts[i]) == FirstOf(acts, field) && forall j :: 0 <= j < i ==> field(acts[j]).None?
  {
    if acts != [] && field(acts[0]).None? {
      var tail := acts[1..];
      FirstOfIsFirst(tail, field);
      assert forall i :: 0 < i < |acts| ==> acts[i] == tail[i - 1];
      if FirstOf(acts, field).Some? {
        var i :| 0 <= i < |tail| && field(tail[i]) == FirstOf(tail, field) && forall j :: 0 <= j < i ==> field(tail[j]).None?;
        assert field(acts[i + 1]) == FirstOf(acts, field);
      }
    }
  }

  /** Field by field, the first action that says something; the name and propagation of the first. */
  function Combined(acts: seq<Action>): Action
    requires acts != []
  {
    Action(
      FirstOf(acts, CGROUP), FirstOf(acts, NICE), FirstOf(acts, POLICY), FirstOf(acts, PRIORITY),
      FirstOf(acts, OOM_SCORE), FirstOf(acts, IO_WEIGHT), FirstOf(acts, RECHECK),
      acts[0].applyToChildren, acts[0].ruleName)
  }

  predicate HasNoEffect(a: Action) {
    a.cgroup.None? && a.nice.None? && a.schedPolicy.None? && a.oomScoreAdj.None? && a.ioWeight.None?
  }

  function StripAll(hits: seq<Rule>, cgroupExempt: bool, hasRt: bool): seq<Action> {
    if hits == [] then [] else [Stripped(hits[0], cgroupExempt, hasRt)] + StripAll(hits[1..], cgroupExempt, hasRt)
  }

  function ParentOf(ancestors: seq<string>): Option<string> {
    if ancestors == [] then None else Some(ancestors[0])
  }

  function Classification(rules: seq<Rule>, ex: ExceptionList, p: ProcessInfo, ancestors: seq<string>): Option<Action> {
    var acts := StripAll(Hits(rules, p, ParentOf(ancestors)), IsCgroupExempt(ex, p, ancestors), HasRtPolicy(p));
    if p.isKernelThread || IsExempt(ex, p, ancestors) || acts == [] || HasNoEffect(Combined(acts)) then None
    else Some(Combined(acts))
  }

  // ------------------------------------------------------------------------------------------
  // The loop computes it
  // ------------------------------------------------------------------------------------------

  /** Fill the fields of `dst` that are None from `src`. */
  function Merge(dst: Action, src: Action): Action {
    dst.(
      cgroup := if dst.cgroup.None? then src.cgroup else dst.cgroup,
      nice := if dst.nice.None? then src.nice else dst.nice,
      schedPolicy := if dst.schedPolicy.None? then src.schedPolicy else dst.schedPolicy,
      schedPriority := if dst.schedPriority.None? then src.schedPriority else dst.schedPriority,
      oomScoreAdj := if dst.oomScoreAdj.None? then src.oomScoreAdj else dst.oomScoreAdj,
      ioWeight := if dst.ioWeight.None? then src.ioWeight else dst.ioWeight,
      recheckSecs := if dst.recheckSecs.None? then src.recheckSecs else dst.recheckSecs)
  }

  lemma {:induction false} FirstOfConcat<T>(a: seq<Action>, b: seq<Action>, field: Action -> Option<T>)
    ensures FirstOf(a + b, field) == if FirstOf(a, field).Some? then FirstOf(a, field) else FirstOf(b, field)
    decreases |a|
  {
    if a == [] {
      assert a + b == b;
    } else {
      assert (a + b)[1..] == a[1..] + b;
      FirstOfConcat(a[1..], b, field);
    }
  }

  /** Merging left to right is taking the first value of every field. */
  lemma CombinedOfConcat(a: seq<Action>, b: seq<Action>)
    requires a != [] && b != []
    ensures Combined(a + b) == Merge(Combined(a), Combined(b))
  {
    FirstOfConcat(a, b, CGROUP);
    FirstOfConcat(a, b, NICE);
    FirstOfConcat(a, b, POLICY);
    FirstOfConcat(a, b, PRIORITY);
    FirstOfConcat(a, b, OOM_SCORE);
    FirstOfConcat(a, b, IO_WEIGHT);
    FirstOfConcat(a, b, RECHECK);
  }

  lemma FirstOfOne<T>(a: Action, field: Action -> Option<T>)
    ensures FirstOf([a], field) == field(a)
  {
    assert [a][1..] == [];
  }

  lemma CombinedOfOne(a: Action)
    ensures Combined([a]) == a
  {
    FirstOfOne(a, CGROUP);
    FirstOfOne(a, NICE);
    FirstOfOne(a, POLICY);
    FirstOfOne(a, PRIORITY);
    FirstOfOne(a, OOM_SCORE);
    FirstOfOne(a, IO_WEIGHT);
    FirstOfOne(a, RECHECK);
  }

  /** One more action taken into account. */
  function Taken(result: Option<Action>, action: Action): Option<Action> {
    if result.Some? then Some(Merge(result.value, action)) else Some(action)
  }

  function Result(acts: seq<Action>): Option<Action> {
    if acts == [] then None else Some(Combined(acts))
  }

  lemma TakenIsResult(acts: seq<Action>, action: Action)
    ensures Taken(Result(acts), action) == Result(acts + [action])
  {
    CombinedOfOne(action);
    if acts == [] {
      assert acts + [action] == [action];
    } else {
      CombinedOfConcat(acts, [action]);
    }
  }

  /** What the loop makes of the rules that are left. */
  function Gathered(result: Option<Action>, rules: seq<Rule>, p: ProcessInfo, parent: Option<string>,
                    cgroupExempt: bool, hasRt: bool): Option<Action>
    decreases |rules|
  {
    if rules == [] then result
    else if !Matches(rules[0].matchers, p, parent) then Gathered(result, rules[1..], p, parent, cgroupExempt, hasRt)
    else
      var taken := Taken(result, Stripped(rules[0], cgroupExempt, hasRt));
      if rules[0].goesOn then Gathered(taken, rules[1..], p, parent, cgroupExempt, hasRt) else taken
  }

  lemma {:induction false} GatheredIsResult(acts: seq<Action>, rules: seq<Rule>, p: ProcessInfo, parent: Option<string>,
                                            cgroupExempt: bool, hasRt: bool)
    ensures Gathered(Result(acts), rules, p, parent, cgroupExempt, hasRt) ==
            Result(acts + StripAll(Hits(rules, p, parent), cgroupExempt, hasRt))
    decreases |rules|
  {
    if rules == [] {
      assert acts + [] == acts;
    } else if !Matches(rules[0].matchers, p, parent) {
      GatheredIsResult(acts, rules[1..], p, parent, cgroupExempt, hasRt);
    } else {
      var first := Stripped(rules[0], cgroupExempt, hasRt);
      TakenIsResult(acts, first);
      if rules[0].goesOn {
        var rest := Hits(rules[1..], p, parent);
        GatheredIsResult(acts + [first], rules[1..], p, parent, cgroupExempt, hasRt);
        assert ([rules[0]] + rest)[1..] == rest;
        Regroup(acts, [first], StripAll(rest, cgroupExempt, hasRt));
      } else {
        assert [rules[0]][1..] == [];
        assert StripAll([rules[0]], cgroupExempt, hasRt) == [first];
      }
    }
  }

  /** The named rules in order: the first match starts the answer, later ones fill it in. */
  method GatherRules(rules: seq<Rule>, p: ProcessInfo, parent: Option<string>, cgroupExempt: bool, hasRt: bool)
    returns (result: Option<Action>)
    ensures result == Result(StripAll(Hits(rules, p, parent), cgroupExempt, hasRt))
  {
    result := None;
    for i := 0 to |rules|
      invariant Gathered(result, rules[i..], p, parent, cgroupExempt, hasRt) ==
                Gathered(None, rules, p, parent, cgroupExempt, hasRt)
    {
      var rule := rules[i];
      assert rules[i..][1..] == rules[i + 1..];
      if Matches(rule.matchers, p, parent) {
        var action := rule.action.(ruleName := rule.name);
        if cgroupExempt { action := action.(cgroup := None); }
        if hasRt && action.schedPolicy == Some("normal") { action := action.(schedPolicy := None); }
        if result.Some? {
          result := Some(Merge(result.value, action));
        } else {
          result := Some(action);
        }
        if !rule.goesOn { break; }
      }
    }
    GatheredIsResult([], rules, p, parent, cgroupExempt, hasRt);
    assert [] + StripAll(Hits(rules, p, parent), cgroupExempt, hasRt) == StripAll(Hits(rules, p, parent), cgroupExempt, hasRt);
  }

  method Classify(rules: seq<Rule>, ex: ExceptionList, p: ProcessInfo, ancestors: seq<string>) returns (result: Option<Action>)
    ensures result == Classification(rules, ex, p, ancestors)
  {
    if p.isKernelThread { return None; }
    if IsExempt(ex, p, ancestors) { return None; }
    result := GatherRules(rules, p, ParentOf(ancestors), IsCgroupExempt(ex, p, ancestors), HasRtPolicy(p));
    if result.Some? && HasNoEffect(result.value) { return None; }
  }

  // ------------------------------------------------------------------------------------------
  // The environment
  // ------------------------------------------------------------------------------------------

  /** As long as no rule asks for a variable, the environment makes no difference. */
  lemma {:induction false} HitsWithoutEnviron(rules: seq<Rule>, p: ProcessInfo, environ: map<string, string>, parent: Option<string>)
    requires forall r <- rules :: r.matchers.envSet == []
    ensures Hits(rules, p.(environ := environ), parent) == Hits(rules, p, parent)
  {
    if rules != [] {
      assert rules[0].matchers.envSet == [];
      HitsWithoutEnviron(rules[1..], p, environ, parent);
    }
  }

  lemma AnswerWithoutEnviron(rules: seq<Rule>, ex: ExceptionList, p: ProcessInfo, environ: map<string, string>, ancestors: seq<string>)
    requires forall r <- rules :: r.matchers.envSet == []
    ensures Classification(rules, ex, p.(environ := environ), ancestors) == Classification(rules, ex, p, ancestors)
  {
    HitsWithoutEnviron(rules, p, environ, ParentOf(ancestors));
  }

  // ------------------------------------------------------------------------------------------
  // A process whose cgroup is unknown
  // ------------------------------------------------------------------------------------------

  /** The rules that can match at all without a cgroup path, freed of `cgroup_path_contains`. */
  function PathFree(rules: seq<Rule>): seq<Rule> {
    if rules == [] then []
    else
      var m := rules[0].matchers;
      (if m.cgroupPathGlob.Some? || m.cgroupPathExact.Some? then []
       else [rules[0].(matchers := m.(cgroupPathContains := []))]) + PathFree(rules[1..])
  }

  lemma {:induction false} UnknownCgroupHits(rules: seq<Rule>, p: ProcessInfo, parent: Option<string>, cgroupExempt: bool, hasRt: bool)
    requires p.cgroupPath.None?
    ensures StripAll(Hits(PathFree(rules), p, parent), cgroupExempt, hasRt) ==
            StripAll(Hits(rules, p, parent), cgroupExempt, hasRt)
  {
    if rules != [] {
      var r, m, tail := rules[0], rules[0].matchers, PathFree(rules[1..]);
      UnknownCgroup(m, p, parent);
      UnknownCgroupHits(rules[1..], p, parent, cgroupExempt, hasRt);
      if m.cgroupPathGlob.Some? || m.cgroupPathExact.Some? {
        assert PathFree(rules) == tail;
      } else {
        var bare := r.(matchers := m.(cgroupPathContains := []));
        assert PathFree(rules)[0] == bare && PathFree(rules)[1..] == tail;
        if Matches(m, p, parent) {
          assert Stripped(bare, cgroupExempt, hasRt) == Stripped(r, cgroupExempt, hasRt);
          assert ([bare] + Hits(tail, p, parent))[1..] == Hits(tail, p, parent);
          assert ([r] + Hits(rules[1..], p, parent))[1..] == Hits(rules[1..], p, parent);
          assert [bare][1..] == [] && [r][1..] == [];
        }
      }
    }
  }

  /**
   * A process whose cgroup is unknown is classified as if `cgroup_path_contains` had not been
   * written in any rule, and the rules with one of the other two path criteria did not exist.
   */
  lemma UnknownCgroupIsPathFree(rules: seq<Rule>, ex: ExceptionList, p: ProcessInfo, ancestors: seq<string>)
    requires p.cgroupPath.None?
    ensures Classification(rules, ex, p, ancestors) == Classification(PathFree(rules), ex, p, ancestors)
  {
    UnknownCgroupHits(rules, p, ParentOf(ancestors), IsCgroupExempt(ex, p, ancestors), HasRtPolicy(p));
  }

  // ------------------------------------------------------------------------------------------
  // Which rules count, by position
  // ------------------------------------------------------------------------------------------

  /** The rule at `i` matches and no matching rule before it ends the search. */
  ghost predicate Reached(rules: seq<Rule>, p: ProcessInfo, parent: Option<string>, i: nat) {
    && i < |rules| && Matches(rules[i].matchers, p, parent)
    && forall j :: 0 <= j < i && Matches(rules[j].matchers, p, parent) ==> rules[j].goesOn
  }

  lemma ReachedFurther(rules: seq<Rule>, p: ProcessInfo, parent: Option<string>, i: nat)
    requires rules != []
    ensures Reached(rules, p, parent, i + 1) <==>
            (Matches(rules[0].matchers, p, parent) ==> rules[0].goesOn) && Reached(rules[1..], p, parent, i)
  {
    var tail := rules[1..];
    if i < |tail| {
      assert forall j :: 0 <= j < |tail| ==> tail[j] == rules[j + 1];
      if Reached(rules, p, parent, i + 1) {
        forall j | 0 <= j < i && Matches(tail[j].matchers, p, parent) ensures tail[j].goesOn { assert rules[j + 1] == tail[j]; }
      }
    }
  }

  lemma {:induction false} HitsAreReached(rules: seq<Rule>, p: ProcessInfo, parent: Option<string>, r: Rule)
    ensures r in Hits(rules, p, parent) <==> exists i: nat :: Reached(rules, p, parent, i) && rules[i] == r
    decreases |rules|
  {
    if rules != [] {
      var tail := rules[1..];
      HitsAreReached(tail, p, parent, r);
      if r in Hits(rules, p, parent) {
        if r == rules[0] && Matches(rules[0].matchers, p, parent) {
          assert Reached(rules, p, parent, 0);
        } else {
          var i: nat :| Reached(tail, p, parent, i) && tail[i] == r;
          ReachedFurther(rules, p, parent, i);
          assert rules[i + 1] == r;
        }
      }
      if i: nat :| Reached(rules, p, parent, i) && rules[i] == r {
        if i > 0 {
          ReachedFurther(rules, p, parent, i - 1);
          assert tail[i - 1] == r;
        }
      }
    }
  }

  /** What the stripped action of the rule at `i` says about a field. */
  function Says<T>(rules: seq<Rule>, cgroupExempt: bool, hasRt: bool, field: Action -> Option<T>, i: nat): Option<T>
    requires i < |rules|
  {
    field(Stripped(rules[i], cgroupExempt, hasRt))
  }

  /** `v` is what the first reached rule that says something about the field says, None if there is none. */
  ghost predicate FirstSays<T(!new)>(rules: seq<Rule>, p: ProcessInfo, parent: Option<string>, cgroupExempt: bool, hasRt: bool,
                                     field: Action -> Option<T>, v: Option<T>) {
    if v.None? then forall i: nat :: Reached(rules, p, parent, i) ==> Says(rules, cgroupExempt, hasRt, field, i).None?
    else exists i: nat :: Reached(rules, p, parent, i) && Says(rules, cgroupExempt, hasRt, field, i) == v &&
                          forall j: nat :: j < i && Reached(rules, p, parent, j) ==> Says(rules, cgroupExempt, hasRt, field, j).None?
  }

  lemma FirstRuleSays<T(!new)>(rules: seq<Rule>, p: ProcessInfo, parent: Option<string>, cgroupExempt: bool, hasRt: bool,
                               field: Action -> Option<T>)
    requires rules != [] && Matches(rules[0].matchers, p, parent) && Says(rules, cgroupExempt, hasRt, field, 0).Some?
    ensures FirstSays(rules, p, parent, cgroupExempt, hasRt, field, Says(rules, cgroupExempt, hasRt, field, 0))
  {
    assert Reached(rules, p, parent, 0);
  }

  /** A first rule that says nothing about the field and does not end the search makes no difference. */
  lemma LaterRuleSays<T(!new)>(rules: seq<Rule>, p: ProcessInfo, parent: Option<string>, cgroupExempt: bool, hasRt: bool,
                               field: Action -> Option<T>, v: Option<T>)
    requires rules != [] && (Matches(rules[0].matchers, p, parent) ==> rules[0].goesOn && Says(rules, cgroupExempt, hasRt, field, 0).None?)
    requires FirstSays(rules[1..], p, parent, cgroupExempt, hasRt, field, v)
    ensures FirstSays(rules, p, parent, cgroupExempt, hasRt, field, v)
  {
    var tail := rules[1..];
    forall i: nat | i < |tail|
      ensures Reached(rules, p, parent, i + 1) <==> Reached(tail, p, parent, i)
      ensures Says(rules, cgroupExempt, hasRt, field, i + 1) == Says(tail, cgroupExempt, hasRt, field, i)
    {
      ReachedFurther(rules, p, parent, i);
    }
    if v.None? {
      forall i: nat | Reached(rules, p, parent, i) ensures Says(rules, cgroupExempt, hasRt, field, i).None? {
        if i > 0 { assert Reached(tail, p, parent, i - 1); }
      }
    } else {
      var k: nat :| Reached(tail, p, parent, k) && Says(tail, cgroupExempt, hasRt, field, k) == v &&
                    forall j: nat :: j < k && Reached(tail, p, parent, j) ==> Says(tail, cgroupExempt, hasRt, field, j).None?;
      forall j: nat | j < k + 1 && Reached(rules, p, parent, j) ensures Says(rules, cgroupExempt, hasRt, field, j).None? {
        if j > 0 { assert Reached(tail, p, parent, j - 1); }
      }
      assert Reached(rules, p, parent, k + 1);
    }
  }

  lemma {:induction false} FieldIsFirstSaid<T(!new)>(rules: seq<Rule>, p: ProcessInfo, parent: Option<string>,
                                                     cgroupExempt: bool, hasRt: bool, field: Action -> Option<T>)
    ensures FirstSays(rules, p, parent, cgroupExempt, hasRt, field,
                      FirstOf(StripAll(Hits(rules, p, parent), cgroupExempt, hasRt), field))
    decreases |rules|
  {
    if rules != [] {
      var tail := rules[1..];
      FieldIsFirstSaid(tail, p, parent, cgroupExempt, hasRt, field);
      if !Matches(rules[0].matchers, p, parent) {
        LaterRuleSays(rules, p, parent, cgroupExempt, hasRt, field, FirstOf(StripAll(Hits(tail, p, parent), cgroupExempt, hasRt), field));
      } else {
        FirstOfHits(rules, p, parent, cgroupExempt, hasRt, field);
        if Says(rules, cgroupExempt, hasRt, field, 0).Some? {
          FirstRuleSays(rules, p, parent, cgroupExempt, hasRt, field);
        } else if rules[0].goesOn {
          LaterRuleSays(rules, p, parent, cgroupExempt, hasRt, field, FirstOf(StripAll(Hits(tail, p, parent), cgroupExempt, hasRt), field));
        }
      }
    }
  }

  lemma FirstOfHits<T(!new)>(rules: seq<Rule>, p: ProcessInfo, parent: Option<string>, cgroupExempt: bool, hasRt: bool,
                             field: Action -> Option<T>)
    requires rules != [] && Matches(rules[0].matchers, p, parent)
    ensures FirstOf(StripAll(Hits(rules, p, parent), cgroupExempt, hasRt), field) ==
            if Says(rules, cgroupExempt, hasRt, field, 0).Some? then Says(rules, cgroupExempt, hasRt, field, 0)
            else if rules[0].goesOn then FirstOf(StripAll(Hits(rules[1..], p, parent), cgroupExempt, hasRt), field)
            else None
  {
    var rest := if rules[0].goesOn then Hits(rules[1..], p, parent) else [];
    assert Hits(rules, p, parent) == [rules[0]] + rest;
    assert ([rules[0]] + rest)[1..] == rest;
  }

  /**
   * Every field of an answer is what the first rule in order says that is reached - it matches, and
   * no matching rule before it ends the search - and says something about the field.
   */
  lemma AnswerIsFirstSaid(rules: seq<Rule>, ex: ExceptionList, p: ProcessInfo, ancestors: seq<string>)
    requires Classification(rules, ex, p, ancestors).Some?
    ensures var a, parent := Classification(rules, ex, p, ancestors).value, ParentOf(ancestors);
            var exempt, rt := IsCgroupExempt(ex, p, ancestors), HasRtPolicy(p);
            && FirstSays(rules, p, parent, exempt, rt, CGROUP, a.cgroup)
            && FirstSays(rules, p, parent, exempt, rt, NICE, a.nice)
            && FirstSays(rules, p, parent, exempt, rt, POLICY, a.schedPolicy)
            && FirstSays(rules, p, parent, exempt, rt, PRIORITY, a.schedPriority)
            && FirstSays(rules, p, parent, exempt, rt, OOM_SCORE, a.oomScoreAdj)
            && FirstSays(rules, p, parent, exempt, rt, IO_WEIGHT, a.ioWeight)
            && FirstSays(rules, p, parent, exempt, rt, RECHECK, a.recheckSecs)
  {
    var parent, exempt, rt := ParentOf(ancestors), IsCgroupExempt(ex, p, ancestors), HasRtPolicy(p);
    FieldIsFirstSaid(rules, p, parent, exempt, rt, CGROUP);
    FieldIsFirstSaid(rules, p, parent, exempt, rt, NICE);
    FieldIsFirstSaid(rules, p, parent, exempt, rt, POLICY);
    FieldIsFirstSaid(rules, p, parent, exempt, rt, PRIORITY);
    FieldIsFirstSaid(rules, p, parent, exempt, rt, OOM_SCORE);
    FieldIsFirstSaid(rules, p, parent, exempt, rt, IO_WEIGHT);
    FieldIsFirstSaid(rules, p, parent, exempt, rt, RECHECK);
  }

  // ------------------------------------------------------------------------------------------
  // The answer in terms of the rules as they are written
  // ------------------------------------------------------------------------------------------

  /** No reached rule, as it is written, says anything about the field. */
  ghost predicate NoneSays<T(!new)>(rules: seq<Rule>, p: ProcessInfo, parent: Option<string>, field: Action -> Option<T>) {
    forall i: nat :: Reached(rules, p, parent, i) ==> field(rules[i].action).None?
  }

  /** `v` is what the first reached rule that says something about the field says, None if there is none. */
  ghost predicate FirstWritten<T(!new)>(rules: seq<Rule>, p: ProcessInfo, parent: Option<string>, field: Action -> Option<T>,
                                        v: Option<T>) {
    if v.None? then NoneSays(rules, p, parent, field)
    else exists i: nat :: Reached(rules, p, parent, i) && field(rules[i].action) == v &&
                          forall j: nat :: j < i && Reached(rules, p, parent, j) ==> field(rules[j].action).None?
  }

  /** A scheduling policy other than "normal". */
  const SPECIAL_POLICY: Action -> Option<string> := (a: Action) => if a.schedPolicy == Some("normal") then None else a.schedPolicy

  lemma WrittenIsSaid<T(!new)>(rules: seq<Rule>, p: ProcessInfo, parent: Option<string>, cgroupExempt: bool, hasRt: bool,
                               field: Action -> Option<T>, written: Action -> Option<T>, v: Option<T>)
    requires forall i: nat :: i < |rules| ==> Says(rules, cgroupExempt, hasRt, field, i) == written(rules[i].action)
    requires FirstSays(rules, p, parent, cgroupExempt, hasRt, field, v)
    ensures FirstWritten(rules, p, parent, written, v)
    ensures v.None? <==> NoneSays(rules, p, parent, written)
  {
    if v.None? {
      forall i: nat | Reached(rules, p, parent, i) ensures written(rules[i].action).None? {
        assert Says(rules, cgroupExempt, hasRt, field, i).None?;
      }
    } else {
      var i: nat :| Reached(rules, p, parent, i) && Says(rules, cgroupExempt, hasRt, field, i) == v &&
                    forall j: nat :: j < i && Reached(rules, p, parent, j) ==> Says(rules, cgroupExempt, hasRt, field, j).None?;
      assert written(rules[i].action) == v;
      forall j: nat | j < i && Reached(rules, p, parent, j) ensures written(rules[j].action).None? {
        assert Says(rules, cgroupExempt, hasRt, field, j).None?;
      }
    }
  }

  /** What the reached rules add up to, for one field that is neither stripped of anything nor changed. */
  lemma FieldAsWritten<T(!new)>(rules: seq<Rule>, p: ProcessInfo, parent: Option<string>, cgroupExempt: bool, hasRt: bool,
                                field: Action -> Option<T>, written: Action -> Option<T>)
    requires forall i: nat :: i < |rules| ==> Says(rules, cgroupExempt, hasRt, field, i) == written(rules[i].action)
    ensures var v := FirstOf(StripAll(Hits(rules, p, parent), cgroupExempt, hasRt), field);
            FirstWritten(rules, p, parent, written, v) && (v.None? <==> NoneSays(rules, p, parent, written))
  {
    var v := FirstOf(StripAll(Hits(rules, p, parent), cgroupExempt, hasRt), field);
    FieldIsFirstSaid(rules, p, parent, cgroupExempt, hasRt, field);
    WrittenIsSaid(rules, p, parent, cgroupExempt, hasRt, field, written, v);
  }

  lemma {:induction false} ExemptHasNoCgroup(hits: seq<Rule>, hasRt: bool)
    ensures FirstOf(StripAll(hits, true, hasRt), CGROUP).None?
  {
    if hits != [] {
      ExemptHasNoCgroup(hits[1..], hasRt);
      var acts := StripAll(hits, true, hasRt);
      assert acts[1..] == StripAll(hits[1..], true, hasRt);
    }
  }

  /** The answer before it is known whether it has any effect. */
  function Gathering(rules: seq<Rule>, p: ProcessInfo, parent: Option<string>, cgroupExempt: bool, hasRt: bool): Action
    requires Hits(rules, p, parent) != []
  {
    Combined(StripAll(Hits(rules, p, parent), cgroupExempt, hasRt))
  }

  lemma CgroupAsWritten(rules: seq<Rule>, p: ProcessInfo, parent: Option<string>, cgroupExempt: bool, hasRt: bool)
    requires Hits(rules, p, parent) != []
    ensures var v := Gathering(rules, p, parent, cgroupExempt, hasRt).cgroup;
            && (cgroupExempt ==> v.None?)
            && (!cgroupExempt ==> FirstWritten(rules, p, parent, CGROUP, v) && (v.None? <==> NoneSays(rules, p, parent, CGROUP)))
  {
    if cgroupExempt { ExemptHasNoCgroup(Hits(rules, p, parent), hasRt); }
    else { FieldAsWritten(rules, p, parent, cgroupExempt, hasRt, CGROUP, CGROUP); }
  }

  lemma PolicyAsWritten(rules: seq<Rule>, p: ProcessInfo, parent: Option<string>, cgroupExempt: bool, hasRt: bool)
    requires Hits(rules, p, parent) != []
    ensures var v, written := Gathering(rules, p, parent, cgroupExempt, hasRt).schedPolicy, if hasRt then SPECIAL_POLICY else POLICY;
            FirstWritten(rules, p, parent, written, v) && (v.None? <==> NoneSays(rules, p, parent, written))
  {
    FieldAsWritten(rules, p, parent, cgroupExempt, hasRt, POLICY, if hasRt then SPECIAL_POLICY else POLICY);
  }

  lemma NiceAndOomAsWritten(rules: seq<Rule>, p: ProcessInfo, parent: Option<string>, cgroupExempt: bool, hasRt: bool)
    requires Hits(rules, p, parent) != []
    ensures var a := Gathering(rules, p, parent, cgroupExempt, hasRt);
            && FirstWritten(rules, p, parent, NICE, a.nice) && (a.nice.None? <==> NoneSays(rules, p, parent, NICE))
            && FirstWritten(rules, p, parent, OOM_SCORE, a.oomScoreAdj)
            && (a.oomScoreAdj.None? <==> NoneSays(rules, p, parent, OOM_SCORE))
  {
    FieldAsWritten(rules, p, parent, cgroupExempt, hasRt, NICE, NICE);
    FieldAsWritten(rules, p, parent, cgroupExempt, hasRt, OOM_SCORE, OOM_SCORE);
  }

  lemma OthersAsWritten(rules: seq<Rule>, p: ProcessInfo, parent: Option<string>, cgroupExempt: bool, hasRt: bool)
    requires Hits(rules, p, parent) != []
    ensures var a := Gathering(rules, p, parent, cgroupExempt, hasRt);
            && FirstWritten(rules, p, parent, PRIORITY, a.schedPriority)
            && FirstWritten(rules, p, parent, IO_WEIGHT, a.ioWeight) && (a.ioWeight.None? <==> NoneSays(rules, p, parent, IO_WEIGHT))
            && FirstWritten(rules, p, parent, RECHECK, a.recheckSecs)
  {
    FieldAsWritten(rules, p, parent, cgroupExempt, hasRt, PRIORITY, PRIORITY);
    FieldAsWritten(rules, p, parent, cgroupExempt, hasRt, IO_WEIGHT, IO_WEIGHT);
    FieldAsWritten(rules, p, parent, cgroupExempt, hasRt, RECHECK, RECHECK);
  }

  /** Name and propagation are those of the first matching rule. */
  lemma NamedAsWritten(rules: seq<Rule>, p: ProcessInfo, parent: Option<string>, cgroupExempt: bool, hasRt: bool)
    requires Hits(rules, p, parent) != []
    ensures var a := Gathering(rules, p, parent, cgroupExempt, hasRt);
            exists i :: 0 <= i < |rules| && Matches(rules[i].matchers, p, parent) &&
                        (forall j :: 0 <= j < i ==> !Matches(rules[j].matchers, p, parent)) &&
                        a.ruleName == rules[i].name && a.applyToChildren == rules[i].action.applyToChildren
  {
    FirstHit(rules, p, parent);
  }

  /** What an answer says, over the rules as they are written. */
  ghost predicate AsWritten(rules: seq<Rule>, p: ProcessInfo, parent: Option<string>, cgroupExempt: bool, hasRt: bool, a: Action) {
    && (if cgroupExempt then a.cgroup.None? else FirstWritten(rules, p, parent, CGROUP, a.cgroup))
    && FirstWritten(rules, p, parent, NICE, a.nice)
    && FirstWritten(rules, p, parent, if hasRt then SPECIAL_POLICY else POLICY, a.schedPolicy)
    && FirstWritten(rules, p, parent, PRIORITY, a.schedPriority)
    && FirstWritten(rules, p, parent, OOM_SCORE, a.oomScoreAdj)
    && FirstWritten(rules, p, parent, IO_WEIGHT, a.ioWeight)
    && FirstWritten(rules, p, parent, RECHECK, a.recheckSecs)
    && exists i :: 0 <= i < |rules| && Matches(rules[i].matchers, p, parent) &&
                   (forall j :: 0 <= j < i ==> !Matches(rules[j].matchers, p, parent)) &&
                   a.ruleName == rules[i].name && a.applyToChildren == rules[i].action.applyToChildren
  }

  /** Nothing that the reached rules say has an effect on the process. */
  ghost predicate NothingWritten(rules: seq<Rule>, p: ProcessInfo, parent: Option<string>, cgroupExempt: bool, hasRt: bool) {
    && (cgroupExempt || NoneSays(rules, p, parent, CGROUP))
    && NoneSays(rules, p, parent, NICE)
    && NoneSays(rules, p, parent, if hasRt then SPECIAL_POLICY else POLICY)
    && NoneSays(rules, p, parent, OOM_SCORE)
    && NoneSays(rules, p, parent, IO_WEIGHT)
  }

  lemma GatheringAsWritten(rules: seq<Rule>, p: ProcessInfo, parent: Option<string>, cgroupExempt: bool, hasRt: bool)
    requires Hits(rules, p, parent) != []
    ensures AsWritten(rules, p, parent, cgroupExempt, hasRt, Gathering(rules, p, parent, cgroupExempt, hasRt))
    ensures HasNoEffect(Gathering(rules, p, parent, cgroupExempt, hasRt)) <==> NothingWritten(rules, p, parent, cgroupExempt, hasRt)
  {
    CgroupAsWritten(rules, p, parent, cgroupExempt, hasRt);
    PolicyAsWritten(rules, p, parent, cgroupExempt, hasRt);
    NiceAndOomAsWritten(rules, p, parent, cgroupExempt, hasRt);
    OthersAsWritten(rules, p, parent, cgroupExempt, hasRt);
    NamedAsWritten(rules, p, parent, cgroupExempt, hasRt);
  }

  /**
   * The answer for a process, over the rules as they are written.  Every field is that of the first
   * reached rule that sets it, with two exceptions: a process that is itself or by an ancestor
   * exempt from moves gets no cgroup, and under a real-time policy "normal" does not count as one.
   * Name and propagation are those of the first matching rule.  There is no answer exactly for a
   * kernel thread, for a process that is itself or by an ancestor exempt from everything, if no rule
   * matches, and if none of the five effects is left.
   */
  lemma AnswerAsWritten(rules: seq<Rule>, ex: ExceptionList, p: ProcessInfo, ancestors: seq<string>)
    ensures var r, parent := Classification(rules, ex, p, ancestors), if ancestors == [] then None else Some(ancestors[0]);
            var unmoved := p.comm in ex.noCgroupMove || exists a <- ancestors :: a in ex.noCgroupMove;
            var rt := p.schedPolicy.Fifo? || p.schedPolicy.RoundRobin? || p.schedPolicy.Deadline?;
            && (r.Some? ==> AsWritten(rules, p, parent, unmoved, rt, r.value))
            && (r.None? <==>
                || p.isKernelThread || p.comm in ex.fullyExempt || (exists a <- ancestors :: a in ex.ancestorNames)
                || (forall q <- rules :: !Matches(q.matchers, p, parent))
                || NothingWritten(rules, p, parent, unmoved, rt))
  {
    var parent := ParentOf(ancestors);
    FirstHit(rules, p, parent);
    if Hits(rules, p, parent) != [] {
      GatheringAsWritten(rules, p, parent, IsCgroupExempt(ex, p, ancestors), HasRtPolicy(p));
    }
  }

  /** The first hit is the first matching rule. */
  lemma {:induction false} FirstHit(rules: seq<Rule>, p: ProcessInfo, parent: Option<string>)
    ensures Hits(rules, p, parent) == [] <==> forall r <- rules :: !Matches(r.matchers, p, parent)
    ensures Hits(rules, p, parent) != [] ==>
              exists i :: 0 <= i < |rules| && rules[i] == Hits(rules, p, parent)[0] && Matches(rules[i].matchers, p, parent) &&
                          forall j :: 0 <= j < i ==> !Matches(rules[j].matchers, p, parent)
    decreases |rules|
  {
    if rules != [] {
      var tail := rules[1..];
      if Matches(rules[0].matchers, p, parent) {
        assert rules[0] in rules;
        assert rules[0] == Hits(rules, p, parent)[0];
      } else {
        FirstHit(tail, p, parent);
        assert forall r <- rules :: r == rules[0] || r in tail;
        if Hits(tail, p, parent) != [] {
          var i :| 0 <= i < |tail| && tail[i] == Hits(tail, p, parent)[0] && Matches(tail[i].matchers, p, parent) &&
                   forall j :: 0 <= j < i ==> !Matches(tail[j].matchers, p, parent);
          forall j | 0 <= j < i + 1 ensures !Matches(rules[j].matchers, p, parent) {
            if j > 0 { assert rules[j] == tail[j - 1]; }
          }
          assert rules[i + 1] == Hits(rules, p, parent)[0];
        }
      }
    }
  }

  // ------------------------------------------------------------------------------------------
  // A rule added below all others
  // ------------------------------------------------------------------------------------------

  /** Some matching rule does not go on. */
  ghost predicate Ends(rules: seq<Rule>, p: ProcessInfo, parent: Option<string>) {
    exists r <- rules :: Matches(r.matchers, p, parent) && !r.goesOn
  }

  lemma {:induction false} HitsOfAppend(rules: seq<Rule>, r: Rule, p: ProcessInfo, parent: Option<string>)
    ensures Hits(rules + [r], p, parent) ==
            Hits(rules, p, parent) + if !Ends(rules, p, parent) && Matches(r.matchers, p, parent) then [r] else []
    decreases |rules|
  {
    if rules == [] {
      assert rules + [r] == [r];
      assert Hits([r][1..], p, parent) == [];
    } else {
      assert (rules + [r])[1..] == rules[1..] + [r];
      HitsOfAppend(rules[1..], r, p, parent);
      assert forall x <- rules :: x == rules[0] || x in rules[1..];
      if Matches(rules[0].matchers, p, parent) && !rules[0].goesOn { assert Ends(rules, p, parent); }
      if Ends(rules[1..], p, parent) {
        var x :| x in rules[1..] && Matches(x.matchers, p, parent) && !x.goesOn;
        assert x in rules;
      }
    }
  }

  /** `b` says everything `a` says. */
  predicate Extends(a: Action, b: Action) {
    && (a.cgroup.Some? ==> b.cgroup == a.cgroup)
    && (a.nice.Some? ==> b.nice == a.nice)
    && (a.schedPolicy.Some? ==> b.schedPolicy == a.schedPolicy)
    && (a.schedPriority.Some? ==> b.schedPriority == a.schedPriority)
    && (a.oomScoreAdj.Some? ==> b.oomScoreAdj == a.oomScoreAdj)
    && (a.ioWeight.Some? ==> b.ioWeight == a.ioWeight)
    && (a.recheckSecs.Some? ==> b.recheckSecs == a.recheckSecs)
    && b.applyToChildren == a.applyToChildren && b.ruleName == a.ruleName
  }

  lemma {:induction false} StripAllOfConcat(a: seq<Rule>, b: seq<Rule>, cgroupExempt: bool, hasRt: bool)
    ensures StripAll(a + b, cgroupExempt, hasRt) == StripAll(a, cgroupExempt, hasRt) + StripAll(b, cgroupExempt, hasRt)
  {
    if a == [] {
      assert a + b == b;
    } else {
      assert (a + b)[1..] == a[1..] + b;
      StripAllOfConcat(a[1..], b, cgroupExempt, hasRt);
    }
  }

  /**
   * A rule appended below all others changes nothing once a matching rule ends the search, and
   * otherwise only fills in what the answer leaves open.
   */
  lemma AppendedRuleOnlyFills(rules: seq<Rule>, r: Rule, ex: ExceptionList, p: ProcessInfo, ancestors: seq<string>)
    ensures Ends(rules, p, ParentOf(ancestors)) ==>
              Classification(rules + [r], ex, p, ancestors) == Classification(rules, ex, p, ancestors)
    ensures Classification(rules, ex, p, ancestors).Some? ==>
              && Classification(rules + [r], ex, p, ancestors).Some?
              && Extends(Classification(rules, ex, p, ancestors).value, Classification(rules + [r], ex, p, ancestors).value)
  {
    var parent, exempt, rt := ParentOf(ancestors), IsCgroupExempt(ex, p, ancestors), HasRtPolicy(p);
    HitsOfAppend(rules, r, p, parent);
    var hits := Hits(rules, p, parent);
    if !Ends(rules, p, parent) && Matches(r.matchers, p, parent) {
      StripAllOfConcat(hits, [r], exempt, rt);
      if hits != [] { CombinedOfConcat(StripAll(hits, exempt, rt), StripAll([r], exempt, rt)); }
    } else {
      assert Hits(rules + [r], p, parent) == hits;
    }
  }
}
