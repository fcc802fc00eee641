/** db/bundle.go, findGroups: which files are bundled together.

    The phase-3 loop is specified by order-free functions: Left is the list after a number of
    rounds, Phase3 the set of groups taken in them. Go ranges over its maps in an arbitrary
    order; the methods pick map keys arbitrarily and are proved to produce that set. */
module Grouping {
  import opened Seqs
  import opened Types
  import opened Paths
  import opened Splitting

  const SMALL_ON_STORAGE := 12 * 1024

  /** The files that are suitable for a bundle. */
  predicate Eligible(f: VirtFile) {
    !f.isDir && f.fileSize < MAX_FILE_SIZE_TO_BUNDLE && f.fileSize > 0 && |f.parts| == 1
  }

  /** The eligible files of a database, in path order. */
  ghost predicate IsCandidates(vFiles: map<string, VirtFile>, files: seq<VirtFile>) {
    && Sorted(files)
    && forall f :: f in files <==> f.relPath in vFiles && vFiles[f.relPath] == f && Eligible(f)
  }

  predicate IsVerySmall(f: VirtFile) {
    StoredSize(f) < SMALL_ON_STORAGE
  }

  predicate IsCompressed(f: VirtFile) {
    f.useCompression
  }

  predicate HasMany(group: seq<VirtFile>) {
    |group| > 1
  }

  // ----- one round of phase 3 -----

  function FileSizes(files: seq<VirtFile>): int {
    if files == [] then 0 else FileSizes(Init(files)) + Last(files).fileSize
  }

  function KeyIs(c: nat, key: string): VirtFile -> bool {
    (f: VirtFile) => Cut(f.relPath, c) == key
  }

  /** The files whose path starts with key, when paths are cut at c. */
  function GroupOf(files: seq<VirtFile>, c: nat, key: string): seq<VirtFile> {
    Filter(files, KeyIs(c, key))
  }

  function Keys(files: seq<VirtFile>, c: nat): set<string> {
    set f | f in files :: Cut(f.relPath, c)
  }

  /** Is the group of this key taken in round c? */
  predicate Big(files: seq<VirtFile>, c: nat, key: string) {
    FileSizes(GroupOf(files, c, key)) > PART_SIZE / 2 || c == 0
  }

  function StaysIn(files: seq<VirtFile>, c: nat): VirtFile -> bool {
    (f: VirtFile) => !Big(files, c, Cut(f.relPath, c))
  }

  function Rest(files: seq<VirtFile>, c: nat): seq<VirtFile> {
    Filter(files, StaysIn(files, c))
  }

  function Taken(files: seq<VirtFile>, c: nat): set<seq<VirtFile>> {
    set key | key in Keys(files, c) && Big(files, c, key) :: GroupOf(files, c, key)
  }

  // ----- all rounds -----

  /** The list after the rounds m-1, m-2, ..., c. */
  function Left(files: seq<VirtFile>, m: nat, c: nat): seq<VirtFile>
    requires c <= m
    decreases m - c
  {
    if c == m then files else Rest(Left(files, m, c + 1), c)
  }

  /** The groups taken in the rounds m-1, m-2, ..., c. */
  function Phase3(files: seq<VirtFile>, m: nat, c: nat): set<seq<VirtFile>>
    requires c <= m
    decreases m - c
  {
    if c == m then {} else Phase3(files, m, c + 1) + Taken(Left(files, m, c + 1), c)
  }

  function MaxPathLen(files: seq<VirtFile>): nat {
    if files == [] then 0
    else
      var n := MaxPathLen(Init(files));
      if |Last(files).relPath| > n then |Last(files).relPath| else n
  }

  // ----- the three phases -----

  function Phase1(files: seq<VirtFile>): seq<VirtFile> {
    Filter(files, IsVerySmall)
  }

  function Phase2(files: seq<VirtFile>): seq<VirtFile> {
    Filter(Filter(files, Not(IsVerySmall)), IsCompressed)
  }

  function Phase3Files(files: seq<VirtFile>): seq<VirtFile> {
    Filter(Filter(files, Not(IsVerySmall)), Not(IsCompressed))
  }

  /** The groups before splitting. */
  function RawGroups(files: seq<VirtFile>): set<seq<VirtFile>> {
    var rest := Phase3Files(files);
    {Phase1(files), Phase2(files)} + Phase3(rest, MaxPathLen(rest), 0)
  }

  /** The groups after splitting. */
  function SplitGroups(files: seq<VirtFile>): set<seq<VirtFile>> {
    set g, h | g in RawGroups(files) && h in Split(g) :: h
  }

  /** The groups that become bundles. */
  function BundleGroups(files: seq<VirtFile>): set<seq<VirtFile>> {
    set h | h in SplitGroups(files) && HasMany(h)
  }

  // ----- findGroups -----

  /** The first loop: ranges over the map in an arbitrary order. */
  method CollectEligible(vFiles: map<string, VirtFile>) returns (files: seq<VirtFile>)
    requires KeysMatch(vFiles)
    ensures forall i, j :: 0 <= i < j < |files| ==> files[i].relPath != files[j].relPath
    ensures forall f :: f in files <==> f.relPath in vFiles && vFiles[f.relPath] == f && Eligible(f)
  {
    files := [];
    var todo := vFiles.Keys;
    while todo != {}
      invariant todo <= vFiles.Keys
      invariant forall i, j :: 0 <= i < j < |files| ==> files[i].relPath != files[j].relPath
      invariant forall f :: f in files <==>
                  f.relPath in vFiles.Keys - todo && vFiles[f.relPath] == f && Eligible(f)
      decreases |todo|
    {
      var k :| k in todo;
      var dbEl := vFiles[k];
      if !dbEl.isDir && dbEl.fileSize < MAX_FILE_SIZE_TO_BUNDLE && dbEl.fileSize > 0 && |dbEl.parts| == 1 {
        assert dbEl !in files;
        forall i | 0 <= i < |files| ensures files[i].relPath != dbEl.relPath {
          assert files[i] in files;
        }
        files := files + [dbEl];
      }
      todo := todo - {k};
    }
  }

  /** One loop of phase 1 or 2: yes takes the files that satisfy p, no the others. */
  method Separate(files: seq<VirtFile>, p: VirtFile -> bool) returns (yes: seq<VirtFile>, no: seq<VirtFile>)
    ensures yes == Filter(files, p) && no == Filter(files, Not(p))
  {
    yes, no := [], [];
    for i := 0 to |files|
      invariant yes == Filter(files[..i], p) && no == Filter(files[..i], Not(p))
    {
      FilterStep(files, i, p);
      FilterStep(files, i, Not(p));
      if p(files[i]) {
        yes := yes + [files[i]];
      } else {
        no := no + [files[i]];
      }
    }
    assert files[..|files|] == files;
  }

  method LongestPath(files: seq<VirtFile>) returns (cutAt: nat)
    ensures cutAt == MaxPathLen(files)
  {
    cutAt := 0;
    for i := 0 to |files|
      invariant cutAt == MaxPathLen(files[..i])
    {
      assert Init(files[..i + 1]) == files[..i];
      if |files[i].relPath| > cutAt {
        cutAt := |files[i].relPath|;
      }
    }
    assert files[..|files|] == files;
  }

  /** groups maps the key of each group to its total size. */
  ghost predicate Sums(groups: map<string, int>, files: seq<VirtFile>, c: nat) {
    && groups.Keys == Keys(files, c)
    && forall k :: k in groups ==> groups[k] == FileSizes(GroupOf(files, c, k))
  }

  lemma SumsStart(files: seq<VirtFile>, c: nat)
    ensures Sums(map[], files[..0], c)
  {
    assert files[..0] == [];
  }

  lemma SumsStep(groups: map<string, int>, files: seq<VirtFile>, i: nat, c: nat)
    requires i < |files| && Sums(groups, files[..i], c)
    ensures var key := Cut(files[i].relPath, c);
            Sums(groups[key := (if key in groups then groups[key] else 0) + files[i].fileSize], files[..i + 1], c)
  {
    hide GroupOf, FileSizes, Cut, Keys;
    var key, before := Cut(files[i].relPath, c), files[..i];
    var next := groups[key := (if key in groups then groups[key] else 0) + files[i].fileSize];
    KeysStep(files, i, c);
    forall k | k in next ensures next[k] == FileSizes(GroupOf(files[..i + 1], c, k)) {
      GroupStep(files, i, c, k);
      if k == key && k !in groups {
        NoGroup(before, c, k);
      }
    }
  }

  lemma KeysStep(files: seq<VirtFile>, i: nat, c: nat)
    requires i < |files|
    ensures Keys(files[..i + 1], c) == Keys(files[..i], c) + {Cut(files[i].relPath, c)}
  {
    assert files[..i + 1] == files[..i] + [files[i]];
  }

  lemma GroupStep(files: seq<VirtFile>, i: nat, c: nat, key: string)
    requires i < |files|
    ensures FileSizes(GroupOf(files[..i + 1], c, key)) == FileSizes(GroupOf(files[..i], c, key)) +
            (if Cut(files[i].relPath, c) == key then files[i].fileSize else 0)
  {
    var g := GroupOf(files[..i], c, key);
    FilterStep(files, i, KeyIs(c, key));
    AppendSizes(g, files[i]);
    assert g + [] == g;
  }

  lemma SumsTell(groups: map<string, int>, files: seq<VirtFile>, c: nat, key: string)
    requires Sums(groups, files, c) && key in groups
    ensures groups[key] > PART_SIZE / 2 || c == 0 <==> Big(files, c, key)
  {
  }

  lemma SumsKeys(groups: map<string, int>, files: seq<VirtFile>, c: nat)
    requires Sums(groups, files, c)
    ensures groups.Keys == Keys(files, c)
  {
  }

  /** The total size of each group of a round. */
  method SumGroups(files: seq<VirtFile>, cutAt: nat) returns (groups: map<string, int>)
    ensures Sums(groups, files, cutAt)
  {
    hide *;
    groups := map[];
    SumsStart(files, cutAt);
    for i := 0 to |files|
      invariant Sums(groups, files[..i], cutAt)
    {
      SumsStep(groups, files, i, cutAt);
      var group := Cut(files[i].relPath, cutAt);
      groups := groups[group := (if group in groups then groups[group] else 0) + files[i].fileSize];
    }
    assert files[..|files|] == files;
  }

  lemma AppendSizes(files: seq<VirtFile>, f: VirtFile)
    ensures FileSizes(files + [f]) == FileSizes(files) + f.fileSize
  {
    assert Init(files + [f]) == files;
  }

  lemma NoGroup(files: seq<VirtFile>, c: nat, key: string)
    requires key !in Keys(files, c)
    ensures GroupOf(files, c, key) == [] && FileSizes(GroupOf(files, c, key)) == 0
  {
    var g := GroupOf(files, c, key);
    if g != [] {
      FilterMember(files, KeyIs(c, key), g[0]);
    }
  }

  /** The groups of the keys in done that round c takes. */
  ghost function TakenOf(files: seq<VirtFile>, c: nat, done: set<string>): set<seq<VirtFile>> {
    set key | key in done && Big(files, c, key) :: GroupOf(files, c, key)
  }

  ghost function NotTakenBy(files: seq<VirtFile>, c: nat, done: set<string>): VirtFile -> bool {
    (f: VirtFile) => !(Cut(f.relPath, c) in done && Big(files, c, Cut(f.relPath, c)))
  }

  /** The state of the second loop of a round after the keys in done. */
  ghost predicate Taking(all: seq<VirtFile>, c: nat, done: set<string>,
                         files: seq<VirtFile>, taken: seq<seq<VirtFile>>)
  {
    && files == Filter(all, NotTakenBy(all, c, done))
    && SetOf(taken) == TakenOf(all, c, done)
    && multiset(Flatten(taken)) + multiset(files) == multiset(all)
  }

  lemma TakingStarts(all: seq<VirtFile>, c: nat)
    ensures Taking(all, c, {}, all, [])
  {
    FilterAll(all, NotTakenBy(all, c, {}));
  }

  /** Removing a large group from the shrunken list finds exactly the files it has in the full list. */
  lemma TakingFiles(all: seq<VirtFile>, c: nat, done: set<string>, key: string)
    requires key !in done && Big(all, c, key)
    ensures var files := Filter(all, NotTakenBy(all, c, done));
            && Filter(files, KeyIs(c, key)) == GroupOf(all, c, key)
            && Filter(files, Not(KeyIs(c, key))) == Filter(all, NotTakenBy(all, c, done + {key}))
  {
    var p := NotTakenBy(all, c, done);
    FilterChain(all, p, KeyIs(c, key), KeyIs(c, key));
    FilterChain(all, p, Not(KeyIs(c, key)), NotTakenBy(all, c, done + {key}));
  }

  lemma TakingStep(all: seq<VirtFile>, c: nat, done: set<string>, key: string,
                   files: seq<VirtFile>, taken: seq<seq<VirtFile>>)
    requires Taking(all, c, done, files, taken) && key !in done && Big(all, c, key)
    ensures Taking(all, c, done + {key}, Filter(files, Not(KeyIs(c, key))), taken + [Filter(files, KeyIs(c, key))])
  {
    var newG, rest := Filter(files, KeyIs(c, key)), Filter(files, Not(KeyIs(c, key)));
    TakingFiles(all, c, done, key);
    FilterMultiset(files, KeyIs(c, key));
    assert multiset(Flatten(taken + [newG])) + multiset(rest) == multiset(all) by {
      FlattenAppend(taken, newG);
    }
    assert SetOf(taken + [newG]) == TakenOf(all, c, done + {key}) by {
      SetOfAppend(taken, newG);
      TakenOfStep(all, c, done, key);
    }
  }

  lemma TakenOfStep(all: seq<VirtFile>, c: nat, done: set<string>, key: string)
    ensures TakenOf(all, c, done + {key}) ==
            TakenOf(all, c, done) + (if Big(all, c, key) then {GroupOf(all, c, key)} else {})
  {
  }

  lemma SkippingStep(all: seq<VirtFile>, c: nat, done: set<string>, key: string,
                     files: seq<VirtFile>, taken: seq<seq<VirtFile>>)
    requires Taking(all, c, done, files, taken) && !Big(all, c, key)
    ensures Taking(all, c, done + {key}, files, taken)
  {
    FilterSame(all, NotTakenBy(all, c, done), NotTakenBy(all, c, done + {key}));
    TakenOfStep(all, c, done, key);
  }

  lemma TakingEnds(all: seq<VirtFile>, c: nat, files: seq<VirtFile>, taken: seq<seq<VirtFile>>)
    requires Taking(all, c, Keys(all, c), files, taken)
    ensures files == Rest(all, c) && SetOf(taken) == Taken(all, c)
    ensures multiset(Flatten(taken)) + multiset(files) == multiset(all)
  {
    FilterSame(all, NotTakenBy(all, c, Keys(all, c)), StaysIn(all, c));
  }

  lemma SetOfAppend<T>(s: seq<T>, x: T)
    ensures SetOf(s + [x]) == SetOf(s) + {x}
  {
  }

  lemma SetOfConcat<T>(s: seq<T>, t: seq<T>)
    ensures SetOf(s + t) == SetOf(s) + SetOf(t)
  {
  }

  /** The second loop of a round: ranges over the group map in an arbitrary order, while the list
      of files shrinks. */
  method TakeGroups(all: seq<VirtFile>, cutAt: nat, groups: map<string, int>)
    returns (files: seq<VirtFile>, taken: seq<seq<VirtFile>>)
    requires Sums(groups, all, cutAt)
    ensures files == Rest(all, cutAt)
    ensures SetOf(taken) == Taken(all, cutAt)
    ensures multiset(Flatten(taken)) + multiset(files) == multiset(all)
  {
    hide *;
    files, taken := all, [];
    TakingStarts(all, cutAt);
    var todo := groups.Keys;
    ghost var done := {};
    while todo != {}
      invariant done !! todo && done + todo == groups.Keys
      invariant Taking(all, cutAt, done, files, taken)
      decreases todo
    {
      var group :| group in todo;
      todo := todo - {group};
      SumsTell(groups, all, cutAt, group);
      if groups[group] > PART_SIZE / 2 || cutAt == 0 {
        TakingStep(all, cutAt, done, group, files, taken);
        var newG, rest := Separate(files, KeyIs(cutAt, group));
        files := rest;
        taken := taken + [newG];
      } else {
        SkippingStep(all, cutAt, done, group, files, taken);
      }
      done := done + {group};
    }
    SumsKeys(groups, all, cutAt);
    TakingEnds(all, cutAt, files, taken);
  }

  /** The state of phase 3 after the round cutAt. */
  ghost predicate Rounds(all: seq<VirtFile>, m: nat, c: nat, files: seq<VirtFile>, found: seq<seq<VirtFile>>) {
    && c <= m
    && files == Left(all, m, c)
    && SetOf(found) == Phase3(all, m, c)
    && multiset(Flatten(found)) + multiset(files) == multiset(all)
  }

  lemma RoundsStep(all: seq<VirtFile>, m: nat, c: nat, files: seq<VirtFile>, found: seq<seq<VirtFile>>,
                   rest: seq<VirtFile>, taken: seq<seq<VirtFile>>)
    requires c > 0 && Rounds(all, m, c, files, found)
    requires rest == Rest(files, c - 1) && SetOf(taken) == Taken(files, c - 1)
    requires multiset(Flatten(taken)) + multiset(rest) == multiset(files)
    ensures Rounds(all, m, c - 1, rest, found + taken)
  {
    FlattenConcat(found, taken);
    SetOfConcat(found, taken);
  }

  /** Phase 3. */
  method PrefixGroups(all: seq<VirtFile>) returns (files: seq<VirtFile>, found: seq<seq<VirtFile>>)
    ensures Rounds(all, MaxPathLen(all), 0, files, found)
  {
    files, found := all, [];
    var cutAt := LongestPath(all);
    ghost var m := cutAt;
    while cutAt > 0
      invariant Rounds(all, m, cutAt, files, found)
    {
      cutAt := cutAt - 1;
      var groups := SumGroups(files, cutAt);
      var rest, taken := TakeGroups(files, cutAt, groups);
      RoundsStep(all, m, cutAt + 1, files, found, rest, taken);
      files, found := rest, found + taken;
    }
  }

  /** The three phases together. */
  method PhaseGroups(files: seq<VirtFile>) returns (foundGroups: seq<seq<VirtFile>>, ghost left: seq<VirtFile>)
    ensures SetOf(foundGroups) == RawGroups(files)
    ensures left == Left(Phase3Files(files), MaxPathLen(Phase3Files(files)), 0)
    ensures multiset(Flatten(foundGroups)) + multiset(left) == multiset(files)
  {
    hide *;
    var smallFiles, rest := Separate(files, IsVerySmall);
    var mediumFiles, rest2 := Separate(rest, IsCompressed);
    var leftOver, found := PrefixGroups(rest2);
    left := leftOver;
    foundGroups := [smallFiles] + [mediumFiles] + found;
    PhasesAre(files);
    PhasesAreRaw(files, leftOver, found);
    PhasesKeepFiles(files, leftOver, found);
  }

  lemma PhasesAre(files: seq<VirtFile>)
    ensures Phase1(files) == Filter(files, IsVerySmall)
    ensures Phase2(files) == Filter(Filter(files, Not(IsVerySmall)), IsCompressed)
    ensures Phase3Files(files) == Filter(Filter(files, Not(IsVerySmall)), Not(IsCompressed))
  {
    hide Filter, Not, IsVerySmall, IsCompressed;
  }

  lemma PhasesAreRaw(files: seq<VirtFile>, left: seq<VirtFile>, found: seq<seq<VirtFile>>)
    requires Rounds(Phase3Files(files), MaxPathLen(Phase3Files(files)), 0, left, found)
    ensures SetOf([Phase1(files)] + [Phase2(files)] + found) == RawGroups(files)
    ensures left == Left(Phase3Files(files), MaxPathLen(Phase3Files(files)), 0)
  {
    hide Left, Phase3, MaxPathLen, Flatten, Filter, IsVerySmall, IsCompressed;
    SetOfConcat([Phase1(files)] + [Phase2(files)], found);
  }

  lemma PhasesKeepFiles(files: seq<VirtFile>, left: seq<VirtFile>, found: seq<seq<VirtFile>>)
    requires Rounds(Phase3Files(files), MaxPathLen(Phase3Files(files)), 0, left, found)
    ensures multiset(Flatten([Phase1(files)] + [Phase2(files)] + found)) + multiset(left) == multiset(files)
  {
    hide Left, Phase3, MaxPathLen, Flatten, Filter, IsVerySmall, IsCompressed, Not;
    FilterMultiset(files, IsVerySmall);
    FilterMultiset(Filter(files, Not(IsVerySmall)), IsCompressed);
    FlattenConcat([Phase1(files)] + [Phase2(files)], found);
    FlattenPair(Phase1(files), Phase2(files));
  }

  lemma FlattenPair<T>(a: seq<T>, b: seq<T>)
    ensures Flatten([a] + [b]) == a + b
  {
    FlattenAppend([a], b);
    FlattenAppend([], a);
    assert [] + [a] == [a];
  }

  /** The last loop: discards the groups with fewer than two files. */
  method DropSingles(groups: seq<seq<VirtFile>>) returns (kept: seq<seq<VirtFile>>)
    ensures kept == Filter(groups, HasMany)
  {
    kept := [];
    for i := 0 to |groups|
      invariant kept == Filter(groups[..i], HasMany)
    {
      FilterStep(groups, i, HasMany);
      if |groups[i]| > 1 {
        kept := kept + [groups[i]];
      }
    }
    assert groups[..|groups|] == groups;
  }

  lemma GroupMembers(groups: seq<seq<VirtFile>>, files: seq<VirtFile>, g: seq<VirtFile>, f: VirtFile)
    requires multiset(Flatten(groups)) <= multiset(files)
    requires g in groups && f in g
    ensures f in files
  {
    FlattenMember(groups, f);
    assert f in multiset(Flatten(groups));
  }

  /** The eligible files, sorted by path. */
  method Candidates(vFiles: map<string, VirtFile>) returns (files: seq<VirtFile>)
    requires KeysMatch(vFiles)
    ensures IsCandidates(vFiles, files)
  {
    var unsorted := CollectEligible(vFiles);
    files := SortByPath(unsorted);
    SortByPathSorts(unsorted);
    forall f ensures f in files <==> f in unsorted {
      assert f in files <==> f in multiset(files);
    }
  }

  /** What findGroups promises: groups are all the groups after splitting but the singletons, in
      some order; every candidate is in exactly one of the groups after splitting, or left over. */
  ghost predicate Found(vFiles: map<string, VirtFile>, groups: seq<seq<VirtFile>>, files: seq<VirtFile>,
                        raw: seq<seq<VirtFile>>, left: seq<VirtFile>)
  {
    && IsCandidates(vFiles, files)
    && SetOf(groups) == BundleGroups(files)
    && multiset(Flatten(raw)) + multiset(left) == multiset(files)
    && groups == Filter(raw, HasMany)
    && left == Left(Phase3Files(files), MaxPathLen(Phase3Files(files)), 0)
  }

  /** The groups to bundle. The ghost results are the candidates, all groups after splitting, and
      the files that no group got. */
  method FindGroups(vFiles: map<string, VirtFile>)
    returns (groups: seq<seq<VirtFile>>, ghost files: seq<VirtFile>,
             ghost raw: seq<seq<VirtFile>>, ghost left: seq<VirtFile>)
    requires KeysMatch(vFiles)
    ensures Found(vFiles, groups, files, raw, left)
    ensures forall g, f :: g in groups && f in g ==> |g| > 1 && f.relPath in vFiles && vFiles[f.relPath] == f && Eligible(f)
  {
    hide *;
    var candidates := Candidates(vFiles);
    files := candidates;
    var foundGroups;
    foundGroups, left := PhaseGroups(candidates);
    GroupsHaveOnePart(vFiles, foundGroups, candidates);
    var split := SplitBigBundles(foundGroups);
    raw := split;
    groups := DropSingles(split);
    SplitAllIsSplitGroups(foundGroups, files);
    AreFound(vFiles, groups, candidates, raw, left);
  }

  lemma GroupsHaveOnePart(vFiles: map<string, VirtFile>, groups: seq<seq<VirtFile>>, files: seq<VirtFile>)
    requires IsCandidates(vFiles, files) && multiset(Flatten(groups)) <= multiset(files)
    ensures forall g :: g in groups ==> OnePartEach(g)
  {
    forall g: seq<VirtFile>, f: VirtFile | g in groups && f in g ensures |f.parts| == 1 {
      GroupMembers(groups, files, g, f);
    }
  }

  lemma AreFound(vFiles: map<string, VirtFile>, groups: seq<seq<VirtFile>>, files: seq<VirtFile>,
                 split: seq<seq<VirtFile>>, left: seq<VirtFile>)
    requires IsCandidates(vFiles, files) && groups == Filter(split, HasMany) && SetOf(split) == SplitGroups(files)
    requires multiset(Flatten(split)) + multiset(left) == multiset(files)
    requires left == Left(Phase3Files(files), MaxPathLen(Phase3Files(files)), 0)
    ensures Found(vFiles, groups, files, split, left)
    ensures forall g, f :: g in groups && f in g ==> |g| > 1 && f.relPath in vFiles && vFiles[f.relPath] == f && Eligible(f)
  {
    hide SplitGroups, BundleGroups, Left, Phase3Files, MaxPathLen, Eligible, Sorted;
    KeptGroups(split, files);
    forall g, f | g in groups && f in g
      ensures |g| > 1 && f.relPath in vFiles && vFiles[f.relPath] == f && Eligible(f)
    {
      FilterMember(split, HasMany, g);
      GroupMembers(split, files, g, f);
    }
  }

  lemma KeptGroups(split: seq<seq<VirtFile>>, files: seq<VirtFile>)
    requires SetOf(split) == SplitGroups(files)
    ensures SetOf(Filter(split, HasMany)) == BundleGroups(files)
  {
    forall h ensures h in SetOf(Filter(split, HasMany)) <==> h in BundleGroups(files) {
      FilterMember(split, HasMany, h);
      assert h in split <==> h in SetOf(split);
    }
  }

  lemma {:induction false} SplitAllMember(groups: seq<seq<VirtFile>>, h: seq<VirtFile>)
    ensures h in SplitAll(groups) <==> exists g :: g in groups && h in Split(g)
  {
    if groups == [] {
    } else {
      hide Split;
      var g := Last(groups);
      SplitAllMember(Init(groups), h);
      assert groups == Init(groups) + [g];
      assert h in SplitAll(groups) <==> h in SplitAll(Init(groups)) || h in Split(g);
      assert forall x :: x in groups <==> x in Init(groups) || x == g;
    }
  }

  lemma SplitAllIsSplitGroups(groups: seq<seq<VirtFile>>, files: seq<VirtFile>)
    requires SetOf(groups) == RawGroups(files)
    ensures SetOf(SplitAll(groups)) == SplitGroups(files)
  {
    forall h ensures h in SetOf(SplitAll(groups)) <==> h in SplitGroups(files) {
      SplitAllMember(groups, h);
      forall g ensures g in groups <==> g in RawGroups(files) {
        assert g in groups <==> g in SetOf(groups);
      }
    }
  }
}
