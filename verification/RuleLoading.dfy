/** Loading the rule files: file order, profiles, compilation and the priority sort. */
module RuleLoading {
  import opened Wrappers
  import opened Types
  import opened Rules

  // ------------------------------------------------------------------------------------------
  // What is read from disk
  // ------------------------------------------------------------------------------------------

  datatype ActionRecord = ActionRecord(
    cgroup: Option<string>,
    nice: Option<int>,
    schedPolicy: Option<string>,
    schedPriority: Option<nat>,
    oomScoreAdj: Option<int>,
    ioWeight: Option<nat>,
    recheckSecs: Option<nat>,
    applyToChildren: Option<bool>)

  /** `matchers` as decoded, with the path pattern still in `cgroupPathExact`. */
  datatype RuleRecord = RuleRecord(name: string, priority: int, matchers: Matchers, action: ActionRecord, goesOn: bool)

  datatype ProfileRecord = ProfileRecord(name: string, inherits: Option<string>, action: ActionRecord)

  datatype Content = Malformed | Parsed(profiles: seq<ProfileRecord>, rules: seq<RuleRecord>)

  datatype RuleFile = RuleFile(name: string, isJson: bool, content: Content)

  /** Files in the order in which the directory lists them. */
  datatype RuleDir = Missing | Unreadable | Listing(files: seq<RuleFile>)

  type Profiles = map<string, ActionRecord>

  // ------------------------------------------------------------------------------------------
  // A stable sort
  // ------------------------------------------------------------------------------------------

  function InsertBefore<T>(x: T, s: seq<T>, le: (T, T) -> bool): seq<T> {
    if s == [] || le(x, s[0]) then [x] + s else [s[0]] + InsertBefore(x, s[1..], le)
  }

  function StableSort<T>(s: seq<T>, le: (T, T) -> bool): seq<T> {
    if s == [] then [] else InsertBefore(s[0], StableSort(s[1..], le), le)
  }

  ghost predicate Pairwise<T(!new)>(s: seq<T>, before: (T, T) -> bool) {
    forall i, j :: 0 <= i < j < |s| ==> before(s[i], s[j])
  }

  ghost predicate TotalPreorder<T(!new)>(le: (T, T) -> bool) {
    && (forall a, b :: le(a, b) || le(b, a))
    && (forall a, b, c :: le(a, b) && le(b, c) ==> le(a, c))
  }

  /** `a` is smaller, or equal and earlier. */
  ghost predicate Stably<T(!new)>(le: (T, T) -> bool, earlier: (T, T) -> bool, a: T, b: T) {
    le(a, b) && (le(b, a) ==> earlier(a, b))
  }

  ghost predicate StablyOrdered<T(!new)>(s: seq<T>, le: (T, T) -> bool, earlier: (T, T) -> bool) {
    forall i, j :: 0 <= i < j < |s| ==> Stably(le, earlier, s[i], s[j])
  }

  lemma {:induction false} InsertKeepsMembers<T>(x: T, s: seq<T>, le: (T, T) -> bool)
    ensures multiset(InsertBefore(x, s, le)) == multiset{x} + multiset(s)
  {
    if !(s == [] || le(x, s[0])) {
      InsertKeepsMembers(x, s[1..], le);
      assert s == [s[0]] + s[1..];
    }
  }

  lemma {:induction false} SortKeepsMembers<T>(s: seq<T>, le: (T, T) -> bool)
    ensures multiset(StableSort(s, le)) == multiset(s)
  {
    if s != [] {
      SortKeepsMembers(s[1..], le);
      InsertKeepsMembers(s[0], StableSort(s[1..], le), le);
      assert s == [s[0]] + s[1..];
    }
  }

  lemma {:induction false} InsertIsStable<T(!new)>(x: T, s: seq<T>, le: (T, T) -> bool, earlier: (T, T) -> bool)
    requires TotalPreorder(le) && StablyOrdered(s, le, earlier) && forall y <- s :: earlier(x, y)
    ensures StablyOrdered(InsertBefore(x, s, le), le, earlier)
  {
    var r := InsertBefore(x, s, le);
    if s == [] || le(x, s[0]) {
      forall j | 0 <= j < |s| ensures Stably(le, earlier, x, s[j]) {
        if j > 0 { assert Stably(le, earlier, s[0], s[j]); }
        assert s[j] in s;
      }
    } else {
      var t := InsertBefore(x, s[1..], le);
      InsertIsStable(x, s[1..], le, earlier);
      InsertKeepsMembers(x, s[1..], le);
      forall j | 0 <= j < |t| ensures Stably(le, earlier, s[0], t[j]) {
        assert t[j] in multiset(t);
        if t[j] != x {
          var k :| 0 <= k < |s| - 1 && s[1..][k] == t[j];
          assert Stably(le, earlier, s[0], s[k + 1]);
        }
      }
    }
  }

  /** Sorting puts equal elements in the order in which they came. */
  lemma {:induction false} SortIsStable<T(!new)>(s: seq<T>, le: (T, T) -> bool, earlier: (T, T) -> bool)
    requires TotalPreorder(le) && Pairwise(s, earlier)
    ensures StablyOrdered(StableSort(s, le), le, earlier)
  {
    if s != [] {
      SortIsStable(s[1..], le, earlier);
      SortKeepsMembers(s[1..], le);
      var t := StableSort(s[1..], le);
      forall y | y in t ensures earlier(s[0], y) {
        assert y in multiset(t);
        var k :| 0 <= k < |s| - 1 && s[1..][k] == y;
        assert earlier(s[0], s[k + 1]);
      }
      InsertIsStable(s[0], t, le, earlier);
    }
  }

  // ------------------------------------------------------------------------------------------
  // The order of file names
  // ------------------------------------------------------------------------------------------

  predicate NameLess(a: string, b: string) {
    b != "" && (a == "" || a[0] < b[0] || (a[0] == b[0] && NameLess(a[1..], b[1..])))
  }

  lemma {:induction false} NameOrder(a: string, b: string, c: string)
    ensures NameLess(a, b) || NameLess(b, a) || a == b
    ensures NameLess(a, b) && NameLess(b, c) ==> NameLess(a, c)
    ensures !NameLess(a, a)
  {
    if a != "" {
      NameOrder(a[1..], if b == "" then b else b[1..], if c == "" then c else c[1..]);
      if b != "" && a[0] == b[0] && a[1..] == b[1..] { assert a == [a[0]] + a[1..] == [b[0]] + b[1..] == b; }
    }
  }

  predicate FileLe(f: RuleFile, g: RuleFile) {
    !NameLess(g.name, f.name)
  }

  predicate PriorityLe(r: Rule, q: Rule) {
    r.priority >= q.priority
  }

  lemma FileLeIsPreorder()
    ensures TotalPreorder(FileLe)
  {
    forall f, g ensures FileLe(f, g) || FileLe(g, f) { NameOrder(f.name, g.name, g.name); NameOrder(g.name, f.name, g.name); }
    forall f, g, h | FileLe(f, g) && FileLe(g, h) ensures FileLe(f, h) {
      NameOrder(f.name, g.name, h.name);
      NameOrder(g.name, h.name, f.name);
      NameOrder(h.name, f.name, g.name);
    }
  }

  // ------------------------------------------------------------------------------------------
  // Loading
  // ------------------------------------------------------------------------------------------

  function Or<T>(over: Option<T>, base: Option<T>): Option<T> {
    if over.Some? then over else base
  }

  /** A profile over the profile it inherits from, which must be known already. */
  function ResolveProfile(p: ProfileRecord, known: Profiles): Option<ActionRecord> {
    if p.inherits.None? then Some(p.action)
    else if p.inherits.value !in known then None
    else
      var base := known[p.inherits.value];
      Some(ActionRecord(
             Or(p.action.cgroup, base.cgroup), Or(p.action.nice, base.nice), Or(p.action.schedPolicy, base.schedPolicy),
             Or(p.action.schedPriority, base.schedPriority), Or(p.action.oomScoreAdj, base.oomScoreAdj),
             Or(p.action.ioWeight, base.ioWeight), Or(p.action.recheckSecs, base.recheckSecs),
             Or(p.action.applyToChildren, base.applyToChildren)))
  }

  function RegisterProfiles(profiles: seq<ProfileRecord>, known: Profiles): Option<Profiles>
    decreases |profiles|
  {
    if profiles == [] then Some(known)
    else
      var resolved := ResolveProfile(profiles[0], known);
      if resolved.None? then None else RegisterProfiles(profiles[1..], known[profiles[0].name := resolved.value])
  }

  function Compile(r: RuleRecord, origin: Origin): Rule {
    var pattern := r.matchers.cgroupPathExact;
    var isGlob := pattern.Some? && ('*' in pattern.value || '?' in pattern.value);
    Rule(r.name, r.priority,
         r.matchers.(cgroupPathGlob := if isGlob then pattern else None, cgroupPathExact := if isGlob then None else pattern),
         Action(r.action.cgroup, r.action.nice, r.action.schedPolicy, r.action.schedPriority, r.action.oomScoreAdj,
                r.action.ioWeight, r.action.recheckSecs, r.action.applyToChildren == Some(true), r.name),
         r.goesOn, origin)
  }

  function CompileAll(rs: seq<RuleRecord>, dir: nat, file: string, pos: nat): (r: seq<Rule>)
    ensures |r| == |rs|
    ensures forall i :: 0 <= i < |r| ==> r[i] == Compile(rs[i], Origin(dir, file, pos + i))
    decreases |rs|
  {
    if rs == [] then [] else [Compile(rs[0], Origin(dir, file, pos))] + CompileAll(rs[1..], dir, file, pos + 1)
  }

  /** Everything read so far: the profiles and the rules, or None after an error. */
  type Loaded = Option<(Profiles, seq<Rule>)>

  function LoadFile(so: (Profiles, seq<Rule>), f: RuleFile, dir: nat): Loaded {
    if f.content.Malformed? then None
    else
      var known := RegisterProfiles(f.content.profiles, so.0);
      if known.None? then None else Some((known.value, so.1 + CompileAll(f.content.rules, dir, f.name, 0)))
  }

  function LoadFiles(so: (Profiles, seq<Rule>), files: seq<RuleFile>, dir: nat): Loaded
    decreases |files|
  {
    if files == [] then Some(so)
    else
      var next := LoadFile(so, files[0], dir);
      if next.None? then None else LoadFiles(next.value, files[1..], dir)
  }

  function JsonOnly(files: seq<RuleFile>): seq<RuleFile> {
    if files == [] then []
    else if files[0].isJson then [files[0]] + JsonOnly(files[1..])
    else JsonOnly(files[1..])
  }

  function LoadDirs(so: (Profiles, seq<Rule>), dirs: seq<RuleDir>, first: nat): Loaded
    decreases |dirs|
  {
    if dirs == [] then Some(so)
    else
      match dirs[0]
      case Missing => LoadDirs(so, dirs[1..], first + 1)
      case Unreadable => None
      case Listing(files) =>
        var next := LoadFiles(so, StableSort(JsonOnly(files), FileLe), first);
        if next.None? then None else LoadDirs(next.value, dirs[1..], first + 1)
  }

  /** The rules in force, or None if anything could not be loaded. */
  function Load(dirs: seq<RuleDir>): Option<seq<Rule>> {
    var all := LoadDirs((map[], []), dirs, 0);
    if all.None? then None else Some(StableSort(all.value.1, PriorityLe))
  }

  // ------------------------------------------------------------------------------------------
  // The order of the loaded rules
  // ------------------------------------------------------------------------------------------

  predicate OriginLess(a: Origin, b: Origin) {
    || a.dir < b.dir
    || (a.dir == b.dir && (NameLess(a.file, b.file) || (a.file == b.file && a.pos < b.pos)))
  }

  predicate ReadBefore(r: Rule, q: Rule) {
    OriginLess(r.origin, q.origin)
  }

  /** Higher priority, or the same and read before. */
  predicate Precedes(r: Rule, q: Rule) {
    r.priority > q.priority || (r.priority == q.priority && ReadBefore(r, q))
  }

  /** The names in a directory are different. */
  ghost predicate DistinctNames(files: seq<RuleFile>) {
    forall i, j :: 0 <= i < j < |files| ==> files[i].name != files[j].name
  }

  predicate OtherName(f: RuleFile, g: RuleFile) {
    f.name != g.name
  }

  predicate NameBefore(f: RuleFile, g: RuleFile) {
    NameLess(f.name, g.name)
  }

  ghost predicate WellNamed(dirs: seq<RuleDir>) {
    forall d <- dirs :: d.Listing? ==> DistinctNames(d.files)
  }

  lemma {:induction false} JsonOnlyHolds(files: seq<RuleFile>)
    requires DistinctNames(files)
    ensures Pairwise(JsonOnly(files), OtherName)
    ensures forall f <- JsonOnly(files) :: f in files
  {
    if files != [] {
      JsonOnlyHolds(files[1..]);
      forall f | f in JsonOnly(files[1..]) ensures OtherName(files[0], f) {
        var k :| 0 <= k < |files| - 1 && files[1..][k] == f;
        assert files[k + 1] == f;
      }
    }
  }

  lemma FilesByName(files: seq<RuleFile>)
    requires DistinctNames(files)
    ensures Pairwise(StableSort(JsonOnly(files), FileLe), NameBefore)
  {
    JsonOnlyHolds(files);
    FileLeIsPreorder();
    SortIsStable(JsonOnly(files), FileLe, OtherName);
    var s := StableSort(JsonOnly(files), FileLe);
    forall i, j | 0 <= i < j < |s| ensures NameBefore(s[i], s[j]) {
      assert Stably(FileLe, OtherName, s[i], s[j]);
      NameOrder(s[i].name, s[j].name, s[j].name);
    }
  }

  /** All the rules were read from earlier directories, or from `dir` and a file before `file`. */
  ghost predicate AllBefore(rules: seq<Rule>, dir: nat, file: Option<string>) {
    forall r <- rules :: r.origin.dir < dir || (file.Some? && r.origin.dir == dir && NameLess(r.origin.file, file.value))
  }

  lemma LoadFileInOrder(so: (Profiles, seq<Rule>), f: RuleFile, dir: nat, later: seq<RuleFile>)
    requires Pairwise(so.1, ReadBefore) && AllBefore(so.1, dir, Some(f.name)) && LoadFile(so, f, dir).Some?
    requires forall g <- later :: NameLess(f.name, g.name)
    ensures Pairwise(LoadFile(so, f, dir).value.1, ReadBefore)
    ensures AllBefore(LoadFile(so, f, dir).value.1, dir + 1, None)
    ensures forall g <- later :: AllBefore(LoadFile(so, f, dir).value.1, dir, Some(g.name))
  {
    var added := CompileAll(f.content.rules, dir, f.name, 0);
    forall i, j | 0 <= i < j < |so.1 + added| ensures ReadBefore((so.1 + added)[i], (so.1 + added)[j]) {
      if i < |so.1| { assert so.1[i] in so.1; }
    }
    forall g | g in later ensures AllBefore(so.1 + added, dir, Some(g.name)) {
      forall r | r in so.1 + added
        ensures r.origin.dir < dir || (r.origin.dir == dir && NameLess(r.origin.file, g.name))
      {
        NameOrder(r.origin.file, f.name, g.name);
      }
    }
  }

  lemma {:induction false} LoadFilesInOrder(so: (Profiles, seq<Rule>), files: seq<RuleFile>, dir: nat)
    requires Pairwise(so.1, ReadBefore) && Pairwise(files, NameBefore) && LoadFiles(so, files, dir).Some?
    requires AllBefore(so.1, dir + 1, None) && forall f <- files :: AllBefore(so.1, dir, Some(f.name))
    ensures Pairwise(LoadFiles(so, files, dir).value.1, ReadBefore)
    ensures AllBefore(LoadFiles(so, files, dir).value.1, dir + 1, None)
    decreases |files|
  {
    if files != [] {
      forall g | g in files[1..] ensures NameLess(files[0].name, g.name) {
        var k :| 0 <= k < |files| - 1 && files[1..][k] == g;
        assert NameBefore(files[0], files[k + 1]);
      }
      assert files[0] in files;
      LoadFileInOrder(so, files[0], dir, files[1..]);
      LoadFilesInOrder(LoadFile(so, files[0], dir).value, files[1..], dir);
    }
  }

  lemma {:induction false} LoadDirsInOrder(so: (Profiles, seq<Rule>), dirs: seq<RuleDir>, first: nat)
    requires Pairwise(so.1, ReadBefore) && AllBefore(so.1, first, None)
    requires WellNamed(dirs) && LoadDirs(so, dirs, first).Some?
    ensures Pairwise(LoadDirs(so, dirs, first).value.1, ReadBefore)
    decreases |dirs|
  {
    if dirs != [] {
      assert dirs[0] in dirs;
      var next := so;
      if dirs[0].Listing? {
        var files := StableSort(JsonOnly(dirs[0].files), FileLe);
        FilesByName(dirs[0].files);
        LoadFilesInOrder(so, files, first);
        next := LoadFiles(so, files, first).value;
      }
      LoadDirsInOrder(next, dirs[1..], first + 1);
    }
  }

  /**
   * The loaded rules stand in the order of priority, ties broken by directory, then file name,
   * then position in the file.
   */
  lemma LoadedInOrder(dirs: seq<RuleDir>)
    requires WellNamed(dirs) && Load(dirs).Some?
    ensures Pairwise(Load(dirs).value, Precedes)
    ensures multiset(Load(dirs).value) == multiset(LoadDirs((map[], []), dirs, 0).value.1)
  {
    var all := LoadDirs((map[], []), dirs, 0).value.1;
    LoadDirsInOrder((map[], []), dirs, 0);
    SortIsStable(all, PriorityLe, ReadBefore);
    SortKeepsMembers(all, PriorityLe);
    var s := Load(dirs).value;
    forall i, j | 0 <= i < j < |s| ensures Precedes(s[i], s[j]) {
      assert Stably(PriorityLe, ReadBefore, s[i], s[j]);
    }
  }

  /** The first of the matching rules precedes all the others. */
  lemma FirstHitIsBest(rules: seq<Rule>, p: ProcessInfo, parent: Option<string>)
    requires Pairwise(rules, Precedes) && Hits(rules, p, parent) != []
    ensures var best := Hits(rules, p, parent)[0];
            && best in rules && Matches(best.matchers, p, parent)
            && forall q <- rules :: Matches(q.matchers, p, parent) ==> q == best || Precedes(best, q)
  {
    FirstHit(rules, p, parent);
    var i :| 0 <= i < |rules| && rules[i] == Hits(rules, p, parent)[0] && Matches(rules[i].matchers, p, parent) &&
             forall j :: 0 <= j < i ==> !Matches(rules[j].matchers, p, parent);
    forall q | q in rules && Matches(q.matchers, p, parent) ensures q == rules[i] || Precedes(rules[i], q) {
      var k :| 0 <= k < |rules| && rules[k] == q;
      if k > i { assert Precedes(rules[i], rules[k]); }
    }
  }

  lemma NameOfAnswer(rules: seq<Rule>, ex: ExceptionList, p: ProcessInfo, ancestors: seq<string>)
    requires Classification(rules, ex, p, ancestors).Some?
    ensures Hits(rules, p, ParentOf(ancestors)) != []
    ensures Classification(rules, ex, p, ancestors).value.ruleName == Hits(rules, p, ParentOf(ancestors))[0].name
  {
  }

  /**
   * The name of an answer is the name of the matching rule that precedes every other matching
   * rule: an earlier directory wins a tie, whatever the documentation of `load` says.
   */
  lemma AnswerIsNamedByBestRule(dirs: seq<RuleDir>, ex: ExceptionList, p: ProcessInfo, ancestors: seq<string>)
    requires WellNamed(dirs) && Load(dirs).Some?
    requires Classification(Load(dirs).value, ex, p, ancestors).Some?
    ensures exists best <- Load(dirs).value ::
              && Matches(best.matchers, p, ParentOf(ancestors))
              && (forall q <- Load(dirs).value :: Matches(q.matchers, p, ParentOf(ancestors)) ==> q == best || Precedes(best, q))
              && Classification(Load(dirs).value, ex, p, ancestors).value.ruleName == best.name
  {
    var rules := Load(dirs).value;
    LoadedInOrder(dirs);
    NameOfAnswer(rules, ex, p, ancestors);
    FirstHitIsBest(rules, p, ParentOf(ancestors));
  }

  // ------------------------------------------------------------------------------------------
  // Profiles play no part in the rules
  // ------------------------------------------------------------------------------------------

  function WithoutProfiles(files: seq<RuleFile>): seq<RuleFile> {
    if files == [] then []
    else
      var f := files[0];
      [if f.content.Malformed? then f else f.(content := Parsed([], f.content.rules))] + WithoutProfiles(files[1..])
  }

  function BareDirs(dirs: seq<RuleDir>): seq<RuleDir> {
    if dirs == [] then []
    else [if dirs[0].Listing? then Listing(WithoutProfiles(dirs[0].files)) else dirs[0]] + BareDirs(dirs[1..])
  }

  lemma {:induction false} FilesWithoutProfiles(so: (Profiles, seq<Rule>), known: Profiles, files: seq<RuleFile>, dir: nat)
    requires LoadFiles(so, files, dir).Some?
    ensures LoadFiles((known, so.1), WithoutProfiles(files), dir) == Some((known, LoadFiles(so, files, dir).value.1))
    decreases |files|
  {
    if files != [] {
      var f := files[0];
      var next := LoadFile(so, f, dir).value;
      var bare := f.(content := Parsed([], f.content.rules));
      assert LoadFile((known, so.1), bare, dir) == Some((known, next.1));
      FilesWithoutProfiles(next, known, files[1..], dir);
      assert WithoutProfiles(files)[1..] == WithoutProfiles(files[1..]);
    }
  }

  lemma {:induction false} JsonWithoutProfiles(files: seq<RuleFile>)
    ensures JsonOnly(WithoutProfiles(files)) == WithoutProfiles(JsonOnly(files))
  {
    if files != [] {
      JsonWithoutProfiles(files[1..]);
      assert WithoutProfiles(files)[1..] == WithoutProfiles(files[1..]);
      assert files[0].isJson ==> JsonOnly(files)[1..] == JsonOnly(files[1..]);
    }
  }

  lemma {:induction false} InsertWithoutProfiles(f: RuleFile, files: seq<RuleFile>)
    ensures InsertBefore(WithoutProfiles([f])[0], WithoutProfiles(files), FileLe) == WithoutProfiles(InsertBefore(f, files, FileLe))
  {
    assert [f][1..] == [];
    var r := InsertBefore(f, files, FileLe);
    if files == [] || FileLe(f, files[0]) {
      assert r[1..] == files;
    } else {
      InsertWithoutProfiles(f, files[1..]);
      assert r[1..] == InsertBefore(f, files[1..], FileLe);
      assert WithoutProfiles(files)[1..] == WithoutProfiles(files[1..]);
    }
  }

  lemma {:induction false} SortWithoutProfiles(files: seq<RuleFile>)
    ensures StableSort(WithoutProfiles(files), FileLe) == WithoutProfiles(StableSort(files, FileLe))
  {
    if files != [] {
      SortWithoutProfiles(files[1..]);
      assert WithoutProfiles(files)[1..] == WithoutProfiles(files[1..]);
      assert [files[0]][1..] == [];
      InsertWithoutProfiles(files[0], StableSort(files[1..], FileLe));
    }
  }

  lemma {:induction false} DirsWithoutProfiles(so: (Profiles, seq<Rule>), known: Profiles, dirs: seq<RuleDir>, first: nat)
    requires LoadDirs(so, dirs, first).Some?
    ensures LoadDirs((known, so.1), BareDirs(dirs), first) == Some((known, LoadDirs(so, dirs, first).value.1))
    decreases |dirs|
  {
    if dirs != [] {
      assert BareDirs(dirs)[1..] == BareDirs(dirs[1..]);
      if dirs[0].Listing? {
        var files := StableSort(JsonOnly(dirs[0].files), FileLe);
        JsonWithoutProfiles(dirs[0].files);
        SortWithoutProfiles(JsonOnly(dirs[0].files));
        FilesWithoutProfiles(so, known, files, first);
        DirsWithoutProfiles(LoadFiles(so, files, first).value, known, dirs[1..], first + 1);
      } else {
        DirsWithoutProfiles(so, known, dirs[1..], first + 1);
      }
    }
  }

  /** Profiles can make a load fail, but they never change a rule. */
  lemma ProfilesChangeNoRule(dirs: seq<RuleDir>)
    ensures Load(dirs).Some? ==> Load(BareDirs(dirs)) == Load(dirs)
  {
    if Load(dirs).Some? { DirsWithoutProfiles((map[], []), map[], dirs, 0); }
  }

  // ------------------------------------------------------------------------------------------
  // The loader
  // ------------------------------------------------------------------------------------------

  method LoadRules(dirs: seq<RuleDir>) returns (result: Option<seq<Rule>>)
    ensures result == Load(dirs)
  {
    var profiles: Profiles := map[];
    var allRules: seq<Rule> := [];
    for d := 0 to |dirs|
      invariant LoadDirs((profiles, allRules), dirs[d..], d) == LoadDirs((map[], []), dirs, 0)
    {
      assert dirs[d..][1..] == dirs[d + 1..];
      match dirs[d]
      case Missing =>
      case Unreadable => return None;
      case Listing(files) =>
        var entries := StableSort(JsonOnly(files), FileLe);
        ghost var target := LoadFiles((profiles, allRules), entries, d);
        for k := 0 to |entries|
          invariant LoadFiles((profiles, allRules), entries[k..], d) == target
        {
          assert entries[k..][1..] == entries[k + 1..];
          var f := entries[k];
          if f.content.Malformed? { return None; }
          var known := RegisterProfiles(f.content.profiles, profiles);
          if known.None? { return None; }
          profiles := known.value;
          allRules := allRules + CompileAll(f.content.rules, d, f.name, 0);
        }
    }
    result := Some(StableSort(allRules, PriorityLe));
  }
}
