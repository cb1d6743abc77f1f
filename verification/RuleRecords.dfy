/** What is loaded, in terms of the files on disk. */
module RuleRecords {
  import opened Wrappers
  import opened Types
  import opened Rules
  import opened RuleLoading

  // ------------------------------------------------------------------------------------------
  // The records on disk
  // ------------------------------------------------------------------------------------------

  /** `rec` stands at `pos` in the JSON file `f`, which directory `d` lists. */
  predicate RecordAt(dirs: seq<RuleDir>, d: nat, f: RuleFile, pos: nat, rec: RuleRecord) {
    && d < |dirs| && dirs[d].Listing? && f in dirs[d].files && f.isJson
    && f.content.Parsed? && pos < |f.content.rules| && f.content.rules[pos] == rec
  }

  /** The rule says what the record says; a path with `*` or `?` is a pattern, any other stands for itself. */
  predicate Renders(r: Rule, rec: RuleRecord) {
    && r.name == rec.name && r.priority == rec.priority && r.goesOn == rec.goesOn
    && r.action.cgroup == rec.action.cgroup && r.action.nice == rec.action.nice
    && r.action.schedPolicy == rec.action.schedPolicy && r.action.schedPriority == rec.action.schedPriority
    && r.action.oomScoreAdj == rec.action.oomScoreAdj && r.action.ioWeight == rec.action.ioWeight
    && r.action.recheckSecs == rec.action.recheckSecs
    && (r.action.applyToChildren <==> rec.action.applyToChildren == Some(true))
    && MatchersRender(r.matchers, rec.matchers)
  }

  predicate MatchersRender(m: Matchers, written: Matchers) {
    && m.comm == written.comm && m.commPrefix == written.commPrefix && m.cmdlineContains == written.cmdlineContains
    && m.exePath == written.exePath && m.uid == written.uid && m.uidMin == written.uidMin && m.uidMax == written.uidMax
    && m.envSet == written.envSet && m.minThreads == written.minThreads && m.minRssMb == written.minRssMb
    && m.parentComm == written.parentComm && m.cgroupPathContains == written.cgroupPathContains
    && match written.cgroupPathExact {
         case None => m.cgroupPathGlob.None? && m.cgroupPathExact.None?
         case Some(path) =>
           if '*' in path || '?' in path then m.cgroupPathGlob == Some(path) && m.cgroupPathExact.None?
           else m.cgroupPathExact == Some(path) && m.cgroupPathGlob.None?
       }
  }

  /** `r` was read from the record at this place. */
  predicate ReadFrom(dirs: seq<RuleDir>, r: Rule, d: nat, f: RuleFile, pos: nat) {
    && f.content.Parsed? && pos < |f.content.rules| && RecordAt(dirs, d, f, pos, f.content.rules[pos])
    && r.origin == Origin(d, f.name, pos) && Renders(r, f.content.rules[pos])
  }

  // ------------------------------------------------------------------------------------------
  // The rules of the files that are read
  // ------------------------------------------------------------------------------------------

  /** The files of a directory in the order in which they are read. */
  function FilesOf(d: RuleDir): seq<RuleFile> {
    if d.Listing? then StableSort(JsonOnly(d.files), FileLe) else []
  }

  function RulesOfFiles(files: seq<RuleFile>, d: nat): seq<Rule> {
    if files == [] then []
    else (if files[0].content.Parsed? then CompileAll(files[0].content.rules, d, files[0].name, 0) else []) + RulesOfFiles(files[1..], d)
  }

  function RulesOfDirs(dirs: seq<RuleDir>, first: nat): seq<Rule> {
    if dirs == [] then [] else RulesOfFiles(FilesOf(dirs[0]), first) + RulesOfDirs(dirs[1..], first + 1)
  }

  lemma {:induction false} FilesGiveRules(so: (Profiles, seq<Rule>), files: seq<RuleFile>, d: nat)
    requires LoadFiles(so, files, d).Some?
    ensures LoadFiles(so, files, d).value.1 == so.1 + RulesOfFiles(files, d)
    decreases |files|
  {
    if files == [] {
      assert so.1 + [] == so.1;
    } else {
      var next := LoadFile(so, files[0], d).value;
      FilesGiveRules(next, files[1..], d);
      Regroup(so.1, CompileAll(files[0].content.rules, d, files[0].name, 0), RulesOfFiles(files[1..], d));
    }
  }

  lemma {:induction false} DirsGiveRules(so: (Profiles, seq<Rule>), dirs: seq<RuleDir>, first: nat)
    requires LoadDirs(so, dirs, first).Some?
    ensures LoadDirs(so, dirs, first).value.1 == so.1 + RulesOfDirs(dirs, first)
    decreases |dirs|
  {
    if dirs == [] {
      assert so.1 + [] == so.1;
    } else if dirs[0].Listing? {
      FilesGiveRules(so, FilesOf(dirs[0]), first);
      DirsGiveRules(LoadFiles(so, FilesOf(dirs[0]), first).value, dirs[1..], first + 1);
      Regroup(so.1, RulesOfFiles(FilesOf(dirs[0]), first), RulesOfDirs(dirs[1..], first + 1));
    } else {
      DirsGiveRules(so, dirs[1..], first + 1);
      assert [] + RulesOfDirs(dirs[1..], first + 1) == RulesOfDirs(dirs[1..], first + 1);
    }
  }

  lemma {:induction false} JsonOnlyIff(files: seq<RuleFile>, f: RuleFile)
    ensures f in JsonOnly(files) <==> f in files && f.isJson
  {
    if files != [] {
      JsonOnlyIff(files[1..], f);
      assert files == [files[0]] + files[1..];
    }
  }

  lemma FilesOfIff(d: RuleDir, f: RuleFile)
    ensures f in FilesOf(d) <==> d.Listing? && f in d.files && f.isJson
  {
    if d.Listing? {
      JsonOnlyIff(d.files, f);
      SortKeepsMembers(JsonOnly(d.files), FileLe);
      assert f in FilesOf(d) <==> f in multiset(FilesOf(d));
    }
  }

  lemma {:induction false} RulesOfFilesIff(files: seq<RuleFile>, d: nat, r: Rule)
    ensures r in RulesOfFiles(files, d) <==>
            exists f: RuleFile, pos: nat :: f in files && f.content.Parsed? && pos < |f.content.rules| &&
                                            r == Compile(f.content.rules[pos], Origin(d, f.name, pos))
  {
    if files != [] {
      var f, tail := files[0], files[1..];
      RulesOfFilesIff(tail, d, r);
      assert files == [f] + tail;
      if f.content.Parsed? {
        var rs := CompileAll(f.content.rules, d, f.name, 0);
        assert r in rs <==> exists pos: nat :: pos < |f.content.rules| && r == Compile(f.content.rules[pos], Origin(d, f.name, pos)) by {
          if r in rs { var k :| 0 <= k < |rs| && rs[k] == r; }
          if pos: nat :| pos < |f.content.rules| && r == Compile(f.content.rules[pos], Origin(d, f.name, pos)) { assert rs[pos] == r; }
        }
      }
    }
  }

  /** `r` is the compiled record at this place, directories being counted from `first`. */
  predicate CompiledFrom(dirs: seq<RuleDir>, first: nat, r: Rule, d: nat, f: RuleFile, pos: nat) {
    && d < |dirs| && f in FilesOf(dirs[d]) && f.content.Parsed? && pos < |f.content.rules|
    && r == Compile(f.content.rules[pos], Origin(first + d, f.name, pos))
  }

  lemma {:induction false} RulesOfDirsIff(dirs: seq<RuleDir>, first: nat, r: Rule)
    ensures r in RulesOfDirs(dirs, first) <==> exists d: nat, f: RuleFile, pos: nat :: CompiledFrom(dirs, first, r, d, f, pos)
    decreases |dirs|
  {
    if dirs != [] {
      var tail := dirs[1..];
      RulesOfDirsIff(tail, first + 1, r);
      RulesOfFilesIff(FilesOf(dirs[0]), first, r);
      if r in RulesOfDirs(dirs, first) {
        if r in RulesOfFiles(FilesOf(dirs[0]), first) {
          var f: RuleFile, pos: nat :| f in FilesOf(dirs[0]) && f.content.Parsed? && pos < |f.content.rules| &&
                                       r == Compile(f.content.rules[pos], Origin(first, f.name, pos));
          assert CompiledFrom(dirs, first, r, 0, f, pos);
        } else {
          var d: nat, f: RuleFile, pos: nat :| CompiledFrom(tail, first + 1, r, d, f, pos);
          assert CompiledFrom(dirs, first, r, d + 1, f, pos);
        }
      }
      if d: nat, f: RuleFile, pos: nat :| CompiledFrom(dirs, first, r, d, f, pos) {
        if d > 0 { assert CompiledFrom(tail, first + 1, r, d - 1, f, pos); }
      }
    }
  }

  lemma CompileRenders(rec: RuleRecord, origin: Origin)
    ensures Renders(Compile(rec, origin), rec) && Compile(rec, origin).origin == origin
  {
  }

  lemma LoadedIff(dirs: seq<RuleDir>, r: Rule)
    requires Load(dirs).Some?
    ensures r in Load(dirs).value <==> exists d: nat, f: RuleFile, pos: nat :: CompiledFrom(dirs, 0, r, d, f, pos)
  {
    var all := LoadDirs((map[], []), dirs, 0).value.1;
    DirsGiveRules((map[], []), dirs, 0);
    assert all == RulesOfDirs(dirs, 0);
    RulesOfDirsIff(dirs, 0, r);
    SortKeepsMembers(all, PriorityLe);
    assert r in Load(dirs).value <==> r in multiset(Load(dirs).value);
  }

  /**
   * What is loaded, if anything is: for every record in a JSON file of a listed directory a rule that
   * says what the record says, and no rule besides.
   */
  lemma LoadedAreRecords(dirs: seq<RuleDir>)
    requires Load(dirs).Some?
    ensures forall d: nat, f: RuleFile, pos: nat, rec: RuleRecord :: RecordAt(dirs, d, f, pos, rec) ==>
              exists r <- Load(dirs).value :: ReadFrom(dirs, r, d, f, pos)
    ensures forall r <- Load(dirs).value :: exists d: nat, f: RuleFile, pos: nat :: ReadFrom(dirs, r, d, f, pos)
  {
    forall d: nat, f: RuleFile, pos: nat, rec: RuleRecord | RecordAt(dirs, d, f, pos, rec)
      ensures exists r <- Load(dirs).value :: ReadFrom(dirs, r, d, f, pos)
    {
      var r := Compile(rec, Origin(d, f.name, pos));
      CompileRenders(rec, Origin(d, f.name, pos));
      FilesOfIff(dirs[d], f);
      assert CompiledFrom(dirs, 0, r, d, f, pos);
      LoadedIff(dirs, r);
      assert ReadFrom(dirs, r, d, f, pos);
    }
    forall r | r in Load(dirs).value ensures exists d: nat, f: RuleFile, pos: nat :: ReadFrom(dirs, r, d, f, pos) {
      LoadedIff(dirs, r);
      var d: nat, f: RuleFile, pos: nat :| CompiledFrom(dirs, 0, r, d, f, pos);
      CompileRenders(f.content.rules[pos], Origin(d, f.name, pos));
      FilesOfIff(dirs[d], f);
      assert ReadFrom(dirs, r, d, f, pos);
    }
  }

  // ------------------------------------------------------------------------------------------
  // One rule for each record
  // ------------------------------------------------------------------------------------------

  predicate OtherOrigin(r: Rule, q: Rule) {
    r.origin != q.origin
  }

  lemma {:induction false} InsertKeepsApart(r: Rule, s: seq<Rule>)
    requires Pairwise(s, OtherOrigin) && forall q <- s :: OtherOrigin(r, q)
    ensures Pairwise(InsertBefore(r, s, PriorityLe), OtherOrigin)
  {
    if !(s == [] || PriorityLe(r, s[0])) {
      var t := InsertBefore(r, s[1..], PriorityLe);
      InsertKeepsApart(r, s[1..]);
      InsertKeepsMembers(r, s[1..], PriorityLe);
      assert OtherOrigin(r, s[0]);
      forall q | q in t ensures OtherOrigin(s[0], q) {
        assert q in multiset(t);
        if q != r {
          var k :| 0 <= k < |s| - 1 && s[1..][k] == q;
          assert OtherOrigin(s[0], s[k + 1]);
        }
      }
    }
  }

  lemma {:induction false} SortKeepsApart(s: seq<Rule>)
    requires Pairwise(s, OtherOrigin)
    ensures Pairwise(StableSort(s, PriorityLe), OtherOrigin)
  {
    if s != [] {
      var t := StableSort(s[1..], PriorityLe);
      SortKeepsApart(s[1..]);
      SortKeepsMembers(s[1..], PriorityLe);
      forall q | q in t ensures OtherOrigin(s[0], q) {
        assert q in multiset(t);
        var k :| 0 <= k < |s| - 1 && s[1..][k] == q;
        assert OtherOrigin(s[0], s[k + 1]);
      }
      InsertKeepsApart(s[0], t);
    }
  }

  /** No two rules are read from the same place, if the files of each directory have different names. */
  lemma LoadedOnce(dirs: seq<RuleDir>)
    requires WellNamed(dirs) && Load(dirs).Some?
    ensures forall i, j :: 0 <= i < j < |Load(dirs).value| ==> Load(dirs).value[i].origin != Load(dirs).value[j].origin
  {
    var all := LoadDirs((map[], []), dirs, 0).value.1;
    LoadDirsInOrder((map[], []), dirs, 0);
    forall i, j | 0 <= i < j < |all| ensures OtherOrigin(all[i], all[j]) {
      assert ReadBefore(all[i], all[j]);
      NameOrder(all[i].origin.file, all[i].origin.file, all[i].origin.file);
    }
    SortKeepsApart(all);
    var s := Load(dirs).value;
    forall i, j | 0 <= i < j < |s| ensures s[i].origin != s[j].origin { assert OtherOrigin(s[i], s[j]); }
  }

  // ------------------------------------------------------------------------------------------
  // When loading fails
  // ------------------------------------------------------------------------------------------

  /** The profiles of some files, in the order in which they are read. */
  function ProfilesOf(files: seq<RuleFile>): seq<ProfileRecord> {
    if files == [] then []
    else (if files[0].content.Parsed? then files[0].content.profiles else []) + ProfilesOf(files[1..])
  }

  /** All files that are read, in the order in which they are. */
  function AllFiles(dirs: seq<RuleDir>): seq<RuleFile> {
    if dirs == [] then [] else FilesOf(dirs[0]) + AllFiles(dirs[1..])
  }

  function Names(ps: seq<ProfileRecord>): set<string> {
    set p | p in ps :: p.name
  }

  /** Some profile inherits from a name that neither `known` nor a profile before it has. */
  ghost predicate Orphaned(known: set<string>, ps: seq<ProfileRecord>) {
    exists k :: 0 <= k < |ps| && OrphanAt(known, ps, k)
  }

  predicate OrphanAt(known: set<string>, ps: seq<ProfileRecord>, k: nat)
    requires k < |ps|
  {
    ps[k].inherits.Some? && ps[k].inherits.value !in known && forall j :: 0 <= j < k ==> ps[j].name != ps[k].inherits.value
  }

  lemma OrphanedByFirst(known: set<string>, p: ProfileRecord, ps: seq<ProfileRecord>)
    ensures Orphaned(known, [p] + ps) <==> (p.inherits.Some? && p.inherits.value !in known) || Orphaned(known + {p.name}, ps)
  {
    var all := [p] + ps;
    if k: nat :| k < |all| && OrphanAt(known, all, k) {
      if k > 0 {
        assert OrphanAt(known + {p.name}, ps, k - 1) by {
          assert all[0].name != all[k].inherits.value;
          forall j | 0 <= j < k - 1 ensures ps[j].name != ps[k - 1].inherits.value { assert all[j + 1].name != all[k].inherits.value; }
        }
      }
    }
    if p.inherits.Some? && p.inherits.value !in known { assert OrphanAt(known, all, 0); }
    if k: nat :| k < |ps| && OrphanAt(known + {p.name}, ps, k) {
      forall j | 0 <= j < k + 1 ensures all[j].name != all[k + 1].inherits.value {
        if j > 0 { assert ps[j - 1].name != ps[k].inherits.value; }
      }
      assert OrphanAt(known, all, k + 1);
    }
  }

  lemma {:induction false} OrphanedOfConcat(known: set<string>, a: seq<ProfileRecord>, b: seq<ProfileRecord>)
    ensures Orphaned(known, a + b) <==> Orphaned(known, a) || Orphaned(known + Names(a), b)
    decreases |a|
  {
    if a == [] {
      assert a + b == b && known + Names(a) == known;
    } else {
      var p, tail := a[0], a[1..];
      assert a == [p] + tail && a + b == [p] + (tail + b);
      OrphanedByFirst(known, p, tail);
      OrphanedByFirst(known, p, tail + b);
      OrphanedOfConcat(known + {p.name}, tail, b);
      assert (known + {p.name}) + Names(tail) == known + Names(a);
    }
  }

  lemma {:induction false} RegisterFailsIff(ps: seq<ProfileRecord>, known: Profiles)
    ensures RegisterProfiles(ps, known).None? <==> Orphaned(known.Keys, ps)
    ensures RegisterProfiles(ps, known).Some? ==> RegisterProfiles(ps, known).value.Keys == known.Keys + Names(ps)
    decreases |ps|
  {
    if ps != [] {
      var p, tail := ps[0], ps[1..];
      assert ps == [p] + tail;
      OrphanedByFirst(known.Keys, p, tail);
      var resolved := ResolveProfile(p, known);
      if resolved.Some? {
        RegisterFailsIff(tail, known[p.name := resolved.value]);
        assert known[p.name := resolved.value].Keys == known.Keys + {p.name};
      }
    }
  }

  ghost predicate Broken(files: seq<RuleFile>) {
    exists f <- files :: f.content.Malformed?
  }

  lemma {:induction false} FilesFailIff(so: (Profiles, seq<Rule>), files: seq<RuleFile>, d: nat)
    ensures LoadFiles(so, files, d).None? <==> Broken(files) || Orphaned(so.0.Keys, ProfilesOf(files))
    ensures LoadFiles(so, files, d).Some? ==> LoadFiles(so, files, d).value.0.Keys == so.0.Keys + Names(ProfilesOf(files))
    decreases |files|
  {
    if files != [] {
      var f, tail := files[0], files[1..];
      assert files == [f] + tail;
      if f.content.Malformed? {
        assert Broken(files);
      } else {
        RegisterFailsIff(f.content.profiles, so.0);
        OrphanedOfConcat(so.0.Keys, f.content.profiles, ProfilesOf(tail));
        if LoadFile(so, f, d).Some? { FilesFailIff(LoadFile(so, f, d).value, tail, d); }
        assert Names(ProfilesOf(files)) == Names(f.content.profiles) + Names(ProfilesOf(tail));
        assert Broken(files) <==> Broken(tail);
      }
    }
  }

  lemma {:induction false} ProfilesOfConcat(a: seq<RuleFile>, b: seq<RuleFile>)
    ensures ProfilesOf(a + b) == ProfilesOf(a) + ProfilesOf(b)
  {
    if a == [] {
      assert a + b == b;
    } else {
      assert (a + b)[1..] == a[1..] + b;
      ProfilesOfConcat(a[1..], b);
    }
  }

  lemma BrokenEither(a: seq<RuleFile>, b: seq<RuleFile>)
    ensures Broken(a + b) <==> Broken(a) || Broken(b)
  {
    if f :| f in a && f.content.Malformed? { assert f in a + b; }
    if f :| f in b && f.content.Malformed? { assert f in a + b; }
  }

  lemma {:induction false} DirsFailIff(so: (Profiles, seq<Rule>), dirs: seq<RuleDir>, first: nat)
    ensures LoadDirs(so, dirs, first).None? <==>
            (exists d <- dirs :: d.Unreadable?) || Broken(AllFiles(dirs)) || Orphaned(so.0.Keys, ProfilesOf(AllFiles(dirs)))
    decreases |dirs|
  {
    if dirs != [] {
      var d, tail := dirs[0], dirs[1..];
      assert dirs == [d] + tail;
      BrokenEither(FilesOf(d), AllFiles(tail));
      ProfilesOfConcat(FilesOf(d), AllFiles(tail));
      OrphanedOfConcat(so.0.Keys, ProfilesOf(FilesOf(d)), ProfilesOf(AllFiles(tail)));
      FilesFailIff(so, FilesOf(d), first);
      match d
      case Unreadable => assert d in dirs;
      case Missing =>
        DirsFailIff(so, tail, first + 1);
        assert so.0.Keys + Names([]) == so.0.Keys;
      case Listing(_) =>
        var next := LoadFiles(so, FilesOf(d), first);
        if next.Some? { DirsFailIff(next.value, tail, first + 1); }
    }
  }

  lemma {:induction false} AllFilesIff(dirs: seq<RuleDir>, f: RuleFile)
    ensures f in AllFiles(dirs) <==> exists d <- dirs :: d.Listing? && f in d.files && f.isJson
  {
    if dirs != [] {
      AllFilesIff(dirs[1..], f);
      FilesOfIff(dirs[0], f);
      assert dirs == [dirs[0]] + dirs[1..];
    }
  }

  /**
   * Loading fails exactly if a directory cannot be read, a JSON file in a listed directory is
   * malformed, or a profile inherits from a name that no profile read before it has.
   */
  lemma LoadFailsIff(dirs: seq<RuleDir>)
    ensures Load(dirs).None? <==>
            || (exists d <- dirs :: d.Unreadable?)
            || (exists d: RuleDir, f: RuleFile :: d in dirs && d.Listing? && f in d.files && f.isJson && f.content.Malformed?)
            || Orphaned({}, ProfilesOf(AllFiles(dirs)))
  {
    var none: Profiles := map[];
    DirsFailIff((none, []), dirs, 0);
    assert none.Keys == {};
    if f :| f in AllFiles(dirs) && f.content.Malformed? { AllFilesIff(dirs, f); }
    if d: RuleDir, f: RuleFile :| d in dirs && d.Listing? && f in d.files && f.isJson && f.content.Malformed? { AllFilesIff(dirs, f); }
  }

  lemma FilesInOrder(d: RuleDir)
    requires d.Listing? ==> DistinctNames(d.files)
    ensures Pairwise(FilesOf(d), NameBefore)
  {
    if d.Listing? { FilesByName(d.files); }
  }

  /** The files of one directory are read in the order of their names, and those of an earlier one before. */
  lemma ReadInOrder(a: seq<RuleDir>, d: RuleDir, b: seq<RuleDir>)
    requires WellNamed(a + [d] + b)
    ensures Pairwise(FilesOf(d), NameBefore)
    ensures AllFiles(a + [d] + b) == AllFiles(a) + FilesOf(d) + AllFiles(b)
  {
    assert d in a + [d] + b;
    FilesInOrder(d);
    AllFilesOfConcat(a + [d], b);
    AllFilesOfConcat(a, [d]);
    AllFilesOfOne(d);
  }

  lemma AllFilesOfOne(d: RuleDir)
    ensures AllFiles([d]) == FilesOf(d)
  {
    assert [d][1..] == [];
    assert FilesOf(d) + [] == FilesOf(d);
  }

  lemma {:induction false} AllFilesOfConcat(a: seq<RuleDir>, b: seq<RuleDir>)
    ensures AllFiles(a + b) == AllFiles(a) + AllFiles(b)
  {
    if a == [] {
      assert a + b == b;
    } else {
      assert (a + b)[1..] == a[1..] + b;
      AllFilesOfConcat(a[1..], b);
      Regroup(FilesOf(a[0]), AllFiles(a[1..]), AllFiles(b));
    }
  }
}
