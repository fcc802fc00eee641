/** What findGroups guarantees: a partition of the eligible files, cut at the deepest prefixes that
    are large enough, and independent of every map iteration order. */
module GroupingLaws {
  import opened Seqs
  import opened Types
  import opened Paths
  import opened Splitting
  import opened Grouping

  // ----- the shrinking list -----

  lemma {:induction false} LeftWithin(files: seq<VirtFile>, m: nat, c: nat, d: nat, f: VirtFile)
    requires c <= d <= m && f in Left(files, m, c)
    ensures f in Left(files, m, d)
    decreases d - c
  {
    hide *;
    if c == d {
    } else {
      StaysMeans(files, m, c, f);
      LeftWithin(files, m, c + 1, d, f);
    }
  }

  lemma {:induction false} LeftSorted(files: seq<VirtFile>, m: nat, c: nat)
    requires Sorted(files) && c <= m
    ensures Sorted(Left(files, m, c))
    decreases m - c
  {
    if c == m {
    } else {
      LeftSorted(files, m, c + 1);
      SortedFilter(Left(files, m, c + 1), StaysIn(Left(files, m, c + 1), c));
    }
  }

  lemma StaysMeans(files: seq<VirtFile>, m: nat, c: nat, f: VirtFile)
    requires c < m
    ensures f in Left(files, m, c) <==>
            f in Left(files, m, c + 1) && !Big(Left(files, m, c + 1), c, Cut(f.relPath, c))
  {
    FilterMember(Left(files, m, c + 1), StaysIn(Left(files, m, c + 1), c), f);
  }

  lemma GroupMember(files: seq<VirtFile>, c: nat, key: string, f: VirtFile)
    ensures f in GroupOf(files, c, key) <==> f in files && Cut(f.relPath, c) == key
  {
    FilterMember(files, KeyIs(c, key), f);
  }

  /** g is the group of key that round c takes. */
  ghost predicate TakenAt(files: seq<VirtFile>, m: nat, c: nat, key: string, g: seq<VirtFile>) {
    && c < m
    && key in Keys(Left(files, m, c + 1), c)
    && Big(Left(files, m, c + 1), c, key)
    && g == GroupOf(Left(files, m, c + 1), c, key)
  }

  lemma TakenAtRound(files: seq<VirtFile>, m: nat, c: nat, g: seq<VirtFile>) returns (key: string)
    requires c < m && g in Taken(Left(files, m, c + 1), c)
    ensures TakenAt(files, m, c, key, g)
  {
    hide Left, Big, GroupOf;
    var list := Left(files, m, c + 1);
    key :| key in Keys(list, c) && Big(list, c, key) && g == GroupOf(list, c, key);
  }

  /** A phase-3 group is the group of some key in some round. */
  lemma {:induction false} Phase3Group(files: seq<VirtFile>, m: nat, c: nat, g: seq<VirtFile>)
    returns (d: nat, key: string)
    requires c <= m && g in Phase3(files, m, c)
    ensures c <= d < m && TakenAt(files, m, d, key, g)
    decreases m - c
  {
    hide Left, Taken, TakenAt;
    if g in Taken(Left(files, m, c + 1), c) {
      d := c;
      key := TakenAtRound(files, m, c, g);
    } else {
      d, key := Phase3Group(files, m, c + 1, g);
    }
  }

  lemma TakenAtMember(files: seq<VirtFile>, m: nat, c: nat, key: string, g: seq<VirtFile>, f: VirtFile)
    requires TakenAt(files, m, c, key, g)
    ensures f in g <==> f in Left(files, m, c + 1) && Cut(f.relPath, c) == key
    ensures f in g ==> f in files && f !in Left(files, m, c)
  {
    hide Left, Big;
    GroupMember(Left(files, m, c + 1), c, key, f);
    if f in g {
      LeftWithin(files, m, c + 1, m, f);
      LeftAtStart(files, m);
      StaysMeans(files, m, c, f);
    }
  }

  lemma LeftAtStart(files: seq<VirtFile>, m: nat)
    ensures Left(files, m, m) == files
  {
  }

  // ----- the deepest-prefix rule -----

  /** Two files that agree on the first d bytes and are both still in the list after round d are
      never separated: they stay together, and every group taken later has both or neither. */
  lemma {:induction false} NeverSeparated(files: seq<VirtFile>, m: nat, d: nat, c: nat, f: VirtFile, g: VirtFile)
    requires c <= d <= m
    requires f in Left(files, m, d) && g in Left(files, m, d) && Cut(f.relPath, d) == Cut(g.relPath, d)
    ensures f in Left(files, m, c) <==> g in Left(files, m, c)
    ensures forall h :: h in Phase3(files, m, c) ==> (f in h <==> g in h)
    decreases d - c
  {
    hide Left, Taken, Cut;
    if c == d {
      forall h | h in Phase3(files, m, c) ensures f !in h && g !in h {
        NotTakenBefore(files, m, d, f, h);
        NotTakenBefore(files, m, d, g, h);
      }
    } else {
      NeverSeparated(files, m, d, c + 1, f, g);
      CutAgain(f.relPath, c, d);
      CutAgain(g.relPath, c, d);
      StaysMeans(files, m, c, f);
      StaysMeans(files, m, c, g);
      TakenTogether(Left(files, m, c + 1), c, f, g);
    }
  }

  lemma TakenTogether(list: seq<VirtFile>, c: nat, f: VirtFile, g: VirtFile)
    requires Cut(f.relPath, c) == Cut(g.relPath, c) && (f in list <==> g in list)
    ensures forall h :: h in Taken(list, c) ==> (f in h <==> g in h)
  {
    hide Cut, Big, GroupOf;
    forall h | h in Taken(list, c) ensures f in h <==> g in h {
      var key :| key in Keys(list, c) && Big(list, c, key) && h == GroupOf(list, c, key);
      GroupMember(list, c, key, f);
      GroupMember(list, c, key, g);
    }
  }

  /** A file that is still in the list is in none of the groups taken so far. */
  lemma NotTakenBefore(files: seq<VirtFile>, m: nat, c: nat, f: VirtFile, h: seq<VirtFile>)
    requires c <= m && f in Left(files, m, c) && h in Phase3(files, m, c)
    ensures f !in h
  {
    hide *;
    var d, key := Phase3Group(files, m, c, h);
    TakenAtMember(files, m, d, key, h, f);
    LeftWithin(files, m, c, d, f);
  }

  /** A group taken at prefix length c > 0 is large enough, and no longer prefix would have given a
      group that is: every sub-group by a longer prefix is at most half a part. */
  lemma DeepestPrefix(files: seq<VirtFile>, m: nat, c: nat, key: string, g: seq<VirtFile>, d: nat, longer: string)
    requires Sorted(files) && TakenAt(files, m, c, key, g) && c < d
    requires forall f :: f in files ==> 0 < f.fileSize < MAX_FILE_SIZE_TO_BUNDLE && |f.relPath| <= m
    ensures forall f :: f in g ==> key <= f.relPath && (|key| == c || key == f.relPath)
    ensures c > 0 ==> FileSizes(g) > PART_SIZE / 2
    ensures FileSizes(GroupOf(g, d, longer)) <= PART_SIZE / 2
  {
    forall f | f in g ensures key <= f.relPath && (|key| == c || key == f.relPath) {
      TakenAtMember(files, m, c, key, g, f);
    }
    hide Left, FileSizes, Filter;
    var sub := GroupOf(g, d, longer);
    LeftSorted(files, m, c + 1);
    SortedFilter(Left(files, m, c + 1), KeyIs(c, key));
    SortedFilter(g, KeyIs(d, longer));
    forall f | f in sub ensures f in Left(files, m, c + 1) && Cut(f.relPath, d) == longer && f in files {
      GroupMember(g, d, longer, f);
      TakenAtMember(files, m, c, key, g, f);
    }
    if d < m {
      SortedDistinct(sub);
      RemainingAreSmall(files, m, c, d, longer, sub);
    } else {
      WholePathsDiffer(files, d, longer, sub);
    }
  }

  /** The group of a file that stayed in the list after round d was not large enough then. */
  lemma StayedBecauseSmall(files: seq<VirtFile>, m: nat, c: nat, d: nat, f: VirtFile)
    requires c < d < m && f in Left(files, m, c + 1)
    ensures FileSizes(GroupOf(Left(files, m, d + 1), d, Cut(f.relPath, d))) <= PART_SIZE / 2
  {
    hide *;
    LeftWithin(files, m, c + 1, d, f);
    StaysMeans(files, m, d, f);
    NotBig(Left(files, m, d + 1), d, Cut(f.relPath, d));
  }

  lemma RemainingAreSmall(files: seq<VirtFile>, m: nat, c: nat, d: nat, longer: string, sub: seq<VirtFile>)
    requires c < d < m && Distinct(sub)
    requires forall f :: f in files ==> 0 < f.fileSize
    requires forall f :: f in sub ==> f in Left(files, m, c + 1) && Cut(f.relPath, d) == longer
    ensures FileSizes(sub) <= PART_SIZE / 2
  {
    if sub != [] {
      hide *;
      var group := GroupOf(Left(files, m, d + 1), d, longer);
      assert sub[0] in sub;
      StayedBecauseSmall(files, m, c, d, sub[0]);
      forall f | f in sub ensures f in group {
        StillInGroup(files, m, c, d, f);
      }
      forall f | f in group ensures f.fileSize > 0 {
        LeftGroupFrom(files, m, d, longer, f);
      }
      FileSizesSubset(sub, group);
    }
  }

  lemma StillInGroup(files: seq<VirtFile>, m: nat, c: nat, d: nat, f: VirtFile)
    requires c < d < m && f in Left(files, m, c + 1)
    ensures f in GroupOf(Left(files, m, d + 1), d, Cut(f.relPath, d))
  {
    hide *;
    LeftWithin(files, m, c + 1, d + 1, f);
    GroupMember(Left(files, m, d + 1), d, Cut(f.relPath, d), f);
  }

  lemma LeftGroupFrom(files: seq<VirtFile>, m: nat, d: nat, key: string, f: VirtFile)
    requires d < m && f in GroupOf(Left(files, m, d + 1), d, key)
    ensures f in files
  {
    hide *;
    GroupMember(Left(files, m, d + 1), d, key, f);
    LeftWithin(files, m, d + 1, m, f);
    LeftAtStart(files, m);
  }

  lemma NotBig(files: seq<VirtFile>, c: nat, key: string)
    ensures !Big(files, c, key) ==> FileSizes(GroupOf(files, c, key)) <= PART_SIZE / 2
  {
  }

  /** At full path length every group is a single file. */
  lemma WholePathsDiffer(files: seq<VirtFile>, d: nat, path: string, sub: seq<VirtFile>)
    requires Sorted(sub)
    requires forall f :: f in files ==> 0 < f.fileSize < MAX_FILE_SIZE_TO_BUNDLE && |f.relPath| <= d
    requires forall f :: f in sub ==> f in files && Cut(f.relPath, d) == path
    ensures FileSizes(sub) <= PART_SIZE / 2
  {
    SortedDistinct(sub);
    forall i | 0 <= i < |sub| ensures sub[i].relPath == path && sub[i] in files {
      assert sub[i] in sub;
    }
    AtMostOne(sub, path);
    if sub != [] {
      assert Init(sub) == [];
    }
  }

  lemma AtMostOne(sub: seq<VirtFile>, path: string)
    requires forall i :: 0 <= i < |sub| ==> sub[i].relPath == path
    ensures |sub| > 1 ==> sub[0].relPath == sub[1].relPath
  {
  }

  /** A duplicate-free selection is not larger than what it is selected from. */
  lemma {:induction false} FileSizesSubset(a: seq<VirtFile>, b: seq<VirtFile>)
    requires Distinct(a) && forall f :: f in a ==> f in b
    requires forall f :: f in b ==> f.fileSize > 0
    ensures FileSizes(a) <= FileSizes(b)
  {
    if a == [] {
      FileSizesPositive(b);
    } else {
      assert Last(a) in a;
      var i :| 0 <= i < |b| && b[i] == Last(a);
      var b' := b[..i] + b[i + 1..];
      RemoveOne(b, i);
      forall f | f in Init(a) ensures f in b' {
        assert f in a && f != Last(a);
        assert b == b[..i] + [b[i]] + b[i + 1..];
      }
      FileSizesSubset(Init(a), b');
    }
  }

  lemma {:induction false} FileSizesPositive(b: seq<VirtFile>)
    requires forall f :: f in b ==> f.fileSize > 0
    ensures FileSizes(b) >= 0
  {
    if b == [] {
    } else {
      assert Last(b) in b;
      FileSizesPositive(Init(b));
    }
  }

  lemma {:induction false} FileSizesConcat(a: seq<VirtFile>, b: seq<VirtFile>)
    ensures FileSizes(a + b) == FileSizes(a) + FileSizes(b)
  {
    if b == [] {
      assert a + b == a;
    } else {
      assert Init(a + b) == a + Init(b);
      FileSizesConcat(a, Init(b));
    }
  }

  lemma RemoveOne(b: seq<VirtFile>, i: nat)
    requires i < |b|
    ensures FileSizes(b) == FileSizes(b[..i] + b[i + 1..]) + b[i].fileSize
  {
    hide FileSizes;
    var p, q := b[..i], b[i + 1..];
    assert b == p + [b[i]] + q;
    AppendSizes(p, b[i]);
    FileSizesConcat(p + [b[i]], q);
    FileSizesConcat(p, q);
  }

  // ----- partition -----

  lemma {:induction false} MaxPathLenBounds(files: seq<VirtFile>)
    ensures forall f :: f in files ==> |f.relPath| <= MaxPathLen(files)
  {
    if files == [] {
    } else {
      MaxPathLenBounds(Init(files));
      assert files == Init(files) + [Last(files)];
    }
  }

  /** The prefix loop ends with no phase-3 file left, unless the only one has an empty path. */
  lemma PrefixLoopFinishes(files: seq<VirtFile>)
    requires Sorted(files)
    ensures var left := Left(files, MaxPathLen(files), 0);
            left == [] || (left == files && |files| == 1 && files[0].relPath == "")
  {
    var m := MaxPathLen(files);
    var left := Left(files, m, 0);
    if m > 0 {
      if left != [] {
        StaysMeans(files, m, 0, left[0]);
      }
    } else {
      MaxPathLenBounds(files);
      SortedDistinct(files);
      forall i | 0 <= i < |files| ensures files[i].relPath == "" {
        assert files[i] in files;
      }
      AtMostOne(files, "");
    }
  }

  /** Every file of phase 3 is still in the list, or in a group taken so far. */
  lemma {:induction false} Phase3Covers(files: seq<VirtFile>, m: nat, c: nat, f: VirtFile)
    requires c <= m && f in files
    ensures f in Left(files, m, c) || exists g :: g in Phase3(files, m, c) && f in g
    decreases m - c
  {
    if c == m {
    } else {
      Phase3Covers(files, m, c + 1, f);
      var list := Left(files, m, c + 1);
      if f in list {
        StaysMeans(files, m, c, f);
        GroupMember(list, c, Cut(f.relPath, c), f);
        if Big(list, c, Cut(f.relPath, c)) {
          assert GroupOf(list, c, Cut(f.relPath, c)) in Taken(list, c);
        }
      } else {
        var g :| g in Phase3(files, m, c + 1) && f in g;
        assert g in Phase3(files, m, c);
      }
    }
  }

  /** Two phase-3 groups that share a file are the same. */
  lemma Phase3Disjoint(files: seq<VirtFile>, m: nat, g: seq<VirtFile>, h: seq<VirtFile>, f: VirtFile)
    requires g in Phase3(files, m, 0) && h in Phase3(files, m, 0) && f in g && f in h
    ensures g == h
  {
    hide *;
    var c, k := Phase3Group(files, m, 0, g);
    var d, l := Phase3Group(files, m, 0, h);
    TakenAtMember(files, m, c, k, g, f);
    TakenAtMember(files, m, d, l, h, f);
    if c < d {
      LeftWithin(files, m, c + 1, d, f);
    } else if d < c {
      LeftWithin(files, m, d + 1, c, f);
    } else {
      TakenAtKey(files, m, c, k, g, h);
    }
  }

  lemma TakenAtKey(files: seq<VirtFile>, m: nat, c: nat, key: string, g: seq<VirtFile>, h: seq<VirtFile>)
    requires TakenAt(files, m, c, key, g) && TakenAt(files, m, c, key, h)
    ensures g == h
  {
  }

  lemma Phase3Members(files: seq<VirtFile>, m: nat, g: seq<VirtFile>, f: VirtFile)
    requires g in Phase3(files, m, 0) && f in g
    ensures f in files
  {
    hide *;
    var c, k := Phase3Group(files, m, 0, g);
    TakenAtMember(files, m, c, k, g, f);
  }

  lemma Phase3GroupSorted(files: seq<VirtFile>, m: nat, g: seq<VirtFile>)
    requires Sorted(files) && g in Phase3(files, m, 0)
    ensures Sorted(g)
  {
    hide Phase3, Left, Big, Keys, Filter, Sorted;
    var c, k := Phase3Group(files, m, 0, g);
    LeftSorted(files, m, c + 1);
    SortedFilter(Left(files, m, c + 1), KeyIs(c, k));
  }

  lemma PhaseMembers(files: seq<VirtFile>, f: VirtFile)
    ensures f in Phase1(files) <==> f in files && IsVerySmall(f)
    ensures f in Phase2(files) <==> f in files && !IsVerySmall(f) && IsCompressed(f)
    ensures f in Phase3Files(files) <==> f in files && !IsVerySmall(f) && !IsCompressed(f)
  {
    FilterMember(files, IsVerySmall, f);
    FilterMember(files, Not(IsVerySmall), f);
    FilterMember(Filter(files, Not(IsVerySmall)), IsCompressed, f);
    FilterMember(Filter(files, Not(IsVerySmall)), Not(IsCompressed), f);
  }

  lemma PhasesSorted(files: seq<VirtFile>)
    requires Sorted(files)
    ensures Sorted(Phase1(files)) && Sorted(Phase2(files)) && Sorted(Phase3Files(files))
  {
    SortedFilter(files, IsVerySmall);
    SortedFilter(files, Not(IsVerySmall));
    SortedFilter(Filter(files, Not(IsVerySmall)), IsCompressed);
    SortedFilter(Filter(files, Not(IsVerySmall)), Not(IsCompressed));
  }

  lemma RawGroupSorted(files: seq<VirtFile>, g: seq<VirtFile>)
    requires Sorted(files) && g in RawGroups(files)
    ensures Sorted(g)
  {
    PhasesSorted(files);
    var rest := Phase3Files(files);
    if g in Phase3(rest, MaxPathLen(rest), 0) {
      Phase3GroupSorted(rest, MaxPathLen(rest), g);
    }
  }

  lemma RawMembers(files: seq<VirtFile>, g: seq<VirtFile>, f: VirtFile)
    requires g in RawGroups(files) && f in g
    ensures f in files
    ensures g == Phase1(files) || g == Phase2(files) || f in Phase3Files(files)
  {
    PhaseMembers(files, f);
    var rest := Phase3Files(files);
    if g in Phase3(rest, MaxPathLen(rest), 0) {
      Phase3Members(rest, MaxPathLen(rest), g, f);
    }
  }

  lemma RawDisjoint(files: seq<VirtFile>, g: seq<VirtFile>, h: seq<VirtFile>, f: VirtFile)
    requires g in RawGroups(files) && h in RawGroups(files) && f in g && f in h
    ensures g == h
  {
    PhaseMembers(files, f);
    RawMembers(files, g, f);
    RawMembers(files, h, f);
    var rest := Phase3Files(files);
    if g in Phase3(rest, MaxPathLen(rest), 0) {
      Phase3Members(rest, MaxPathLen(rest), g, f);
      if h in Phase3(rest, MaxPathLen(rest), 0) {
        Phase3Disjoint(rest, MaxPathLen(rest), g, h, f);
      }
    } else if h in Phase3(rest, MaxPathLen(rest), 0) {
      Phase3Members(rest, MaxPathLen(rest), h, f);
    }
  }

  /** A candidate is in a group before splitting, unless it is the only phase-3 file and has an
      empty path. */
  lemma RawCovers(files: seq<VirtFile>, f: VirtFile)
    requires Sorted(files) && f in files
    ensures (exists g :: g in RawGroups(files) && f in g) || (f.relPath == "" && Phase3Files(files) == [f])
  {
    PhaseMembers(files, f);
    PhasesSorted(files);
    var rest := Phase3Files(files);
    if f in rest {
      Phase3Covers(rest, MaxPathLen(rest), 0, f);
      PrefixLoopFinishes(rest);
      if g :| g in Phase3(rest, MaxPathLen(rest), 0) && f in g {
        assert g in RawGroups(files);
      }
    } else if IsVerySmall(f) {
      assert Phase1(files) in RawGroups(files);
    } else {
      assert Phase2(files) in RawGroups(files);
    }
  }

  lemma SplitGroupOrigin(files: seq<VirtFile>, h: seq<VirtFile>, f: VirtFile) returns (g: seq<VirtFile>)
    requires h in SplitGroups(files) && f in h
    ensures g in RawGroups(files) && h in Split(g) && f in g
  {
    g :| g in RawGroups(files) && h in Split(g);
    SplitKeepsFiles(g);
    var i :| 0 <= i < |Split(g)| && Split(g)[i] == h;
    FlattenMember(Split(g), f);
  }

  /** Two groups after splitting that share a file are the same. */
  lemma SplitDisjoint(files: seq<VirtFile>, h: seq<VirtFile>, k: seq<VirtFile>, f: VirtFile)
    requires Sorted(files) && h in SplitGroups(files) && k in SplitGroups(files) && f in h && f in k
    ensures h == k
  {
    hide *;
    var g := SplitGroupOrigin(files, h, f);
    var g2 := SplitGroupOrigin(files, k, f);
    RawDisjoint(files, g, g2, f);
    RawGroupSorted(files, g);
    SortedDistinct(g);
    SplitKeepsFiles(g);
    PieceUnique(Split(g), h, k, f);
  }

  lemma PieceUnique<T>(pieces: seq<seq<T>>, h: seq<T>, k: seq<T>, x: T)
    requires Distinct(Flatten(pieces)) && h in pieces && k in pieces && x in h && x in k
    ensures h == k
  {
    var i :| 0 <= i < |pieces| && pieces[i] == h;
    var j :| 0 <= j < |pieces| && pieces[j] == k;
    if i < j {
      PiecesDisjoint(pieces, i, j, x);
    } else if j < i {
      PiecesDisjoint(pieces, j, i, x);
    }
  }

  /** findGroups partitions: a file of the database is in a bundle group only if it is eligible, in
      at most one, and an eligible file is in none exactly if it is alone in its group. */
  lemma Partition(vFiles: map<string, VirtFile>, files: seq<VirtFile>, f: VirtFile)
    requires KeysMatch(vFiles) && IsCandidates(vFiles, files)
    ensures f in files <==> f.relPath in vFiles && vFiles[f.relPath] == f &&
                            !f.isDir && 0 < f.fileSize < 12 * 1024 * 1024 && |f.parts| == 1
    ensures (exists h :: h in BundleGroups(files) && f in h) ==> f in files
    ensures forall h, k :: h in BundleGroups(files) && k in BundleGroups(files) && f in h && f in k ==> h == k
    ensures f in files ==>
              ((!exists h :: h in BundleGroups(files) && f in h)
               <==> [f] in SplitGroups(files) || (f.relPath == "" && Phase3Files(files) == [f]))
  {
    if h :| h in BundleGroups(files) && f in h {
      var g := SplitGroupOrigin(files, h, f);
      RawMembers(files, g, f);
    }
    forall h, k | h in BundleGroups(files) && k in BundleGroups(files) && f in h && f in k ensures h == k {
      SplitDisjoint(files, h, k, f);
    }
    if f in files {
      DroppedAlone(files, f);
    }
  }

  lemma DroppedAlone(files: seq<VirtFile>, f: VirtFile)
    requires Sorted(files) && f in files
    ensures (!exists h :: h in BundleGroups(files) && f in h)
            <==> [f] in SplitGroups(files) || (f.relPath == "" && Phase3Files(files) == [f])
  {
    if [f] in SplitGroups(files) {
      forall h | h in SplitGroups(files) && f in h ensures !HasMany(h) {
        SplitDisjoint(files, h, [f], f);
      }
    } else if f.relPath == "" && Phase3Files(files) == [f] {
      forall h | h in SplitGroups(files) && f in h ensures false {
        LonelyEmptyPath(files, h, f);
      }
    } else {
      RawCovers(files, f);
      var g :| g in RawGroups(files) && f in g;
      SplitKeepsFiles(g);
      FlattenMember(Split(g), f);
      var i :| 0 <= i < |Split(g)| && f in Split(g)[i];
      assert Split(g)[i] in Split(g) && Split(g)[i] in SplitGroups(files);
      SingletonIs(Split(g)[i], f);
    }
  }

  lemma SingletonIs(h: seq<VirtFile>, f: VirtFile)
    requires f in h
    ensures |h| == 1 ==> h == [f]
  {
  }

  lemma LonelyEmptyPath(files: seq<VirtFile>, h: seq<VirtFile>, f: VirtFile)
    requires f.relPath == "" && Phase3Files(files) == [f]
    ensures !(h in SplitGroups(files) && f in h)
  {
    if h in SplitGroups(files) && f in h {
      var g := SplitGroupOrigin(files, h, f);
      PhaseMembers(files, f);
      var rest := Phase3Files(files);
      assert MaxPathLen(rest) == 0 by { assert Init(rest) == []; }
      RawMembers(files, g, f);
    }
  }

  // ----- stability -----

  lemma GroupSorted(files: seq<VirtFile>, h: seq<VirtFile>)
    requires Sorted(files) && h in SplitGroups(files)
    ensures Sorted(h)
  {
    var g :| g in RawGroups(files) && h in Split(g);
    RawGroupSorted(files, g);
    SplitKeepsFiles(g);
    var i :| 0 <= i < |Split(g)| && Split(g)[i] == h;
    PieceSorted(Split(g), i);
  }

  lemma {:induction false} PieceSorted(pieces: seq<seq<VirtFile>>, i: nat)
    requires Sorted(Flatten(pieces)) && i < |pieces|
    ensures Sorted(pieces[i])
  {
    var n := |pieces| - 1;
    var f := Flatten(Init(pieces));
    assert Flatten(pieces) == f + pieces[n];
    if i == n {
      forall a, b | 0 <= a < b < |pieces[n]| ensures Less(pieces[n][a].relPath, pieces[n][b].relPath) {
        assert Flatten(pieces)[|f| + a] == pieces[n][a] && Flatten(pieces)[|f| + b] == pieces[n][b];
      }
    } else {
      assert Sorted(f) by {
        forall a, b | 0 <= a < b < |f| ensures Less(f[a].relPath, f[b].relPath) {
          assert Flatten(pieces)[a] == f[a] && Flatten(pieces)[b] == f[b];
        }
      }
      PieceSorted(Init(pieces), i);
    }
  }

  /** The files of all bundle groups are distinct candidates. */
  lemma GroupsDisjoint(vFiles: map<string, VirtFile>, groups: seq<seq<VirtFile>>, files: seq<VirtFile>,
                       raw: seq<seq<VirtFile>>, left: seq<VirtFile>)
    requires Found(vFiles, groups, files, raw, left)
    ensures Distinct(Flatten(groups))
    ensures Distinct(groups)
  {
    SortedDistinct(files);
    FilterFlatten(raw, HasMany);
    assert multiset(Flatten(groups)) <= multiset(files);
    DistinctFromMultiset(Flatten(groups), files);
    forall i, j | 0 <= i < j < |groups| ensures groups[i] != groups[j] {
      FilterMember(raw, HasMany, groups[i]);
      assert HasMany(groups[i]);
      PiecesDisjoint(groups, i, j, groups[i][0]);
    }
  }

  lemma {:induction false} FilterFlatten<T>(ss: seq<seq<T>>, p: seq<T> -> bool)
    ensures multiset(Flatten(Filter(ss, p))) <= multiset(Flatten(ss))
  {
    if ss == [] {
    } else {
      FilterFlatten(Init(ss), p);
      var kept := Filter(Init(ss), p);
      if p(Last(ss)) {
        FlattenAppend(kept, Last(ss));
        assert multiset(Flatten(kept) + Last(ss)) == multiset(Flatten(kept)) + multiset(Last(ss));
      } else {
        assert Filter(ss, p) == kept;
      }
      assert multiset(Flatten(ss)) == multiset(Flatten(Init(ss))) + multiset(Last(ss));
    }
  }

  /** Whatever order the maps are ranged over in, two runs find the same groups, each as the same
      path-sorted sequence; only the order of the groups can differ. */
  lemma Stable(vFiles: map<string, VirtFile>,
               groups: seq<seq<VirtFile>>, files: seq<VirtFile>, raw: seq<seq<VirtFile>>, left: seq<VirtFile>,
               groups2: seq<seq<VirtFile>>, files2: seq<VirtFile>, raw2: seq<seq<VirtFile>>, left2: seq<VirtFile>)
    requires Found(vFiles, groups, files, raw, left)
    requires Found(vFiles, groups2, files2, raw2, left2)
    ensures files == files2 && left == left2
    ensures multiset(groups) == multiset(groups2)
    ensures forall g :: g in groups ==> Sorted(g)
  {
    SortedUnique(files, files2);
    GroupsDisjoint(vFiles, groups, files, raw, left);
    GroupsDisjoint(vFiles, groups2, files2, raw2, left2);
    forall g ensures g in groups <==> g in groups2 {
      assert g in groups <==> g in SetOf(groups);
      assert g in groups2 <==> g in SetOf(groups2);
    }
    SameMembersSameMultiset(groups, groups2);
    forall g | g in groups ensures Sorted(g) {
      assert g in SetOf(groups);
      GroupSorted(files, g);
    }
  }

  lemma SameMembersSameMultiset<T>(a: seq<T>, b: seq<T>)
    requires Distinct(a) && Distinct(b)
    requires forall x :: x in a <==> x in b
    ensures multiset(a) == multiset(b)
  {
    forall x ensures multiset(a)[x] == multiset(b)[x] {
      OnceIn(a, x);
      OnceIn(b, x);
      assert x in a <==> x in multiset(a);
      assert x in b <==> x in multiset(b);
    }
  }

  /** What a phase puts together: the very small files, or those of the others that are compressed. */
  ghost predicate OfPhase(files: seq<VirtFile>, small: bool, f: VirtFile) {
    && f in files && |f.parts| == 1
    && if small then f.parts[0].storageSize < 12 * 1024 else f.parts[0].storageSize >= 12 * 1024 && f.useCompression
  }

  /** No bundle group mixes very small files with others, or compressed files with others. */
  lemma NeverMixed(files: seq<VirtFile>, h: seq<VirtFile>, f: VirtFile, g: VirtFile)
    requires h in BundleGroups(files) && f in h && g in h && OnePartEach(files)
    ensures f in files && g in files
    ensures OfPhase(files, true, f) <==> OfPhase(files, true, g)
    ensures OfPhase(files, false, f) <==> OfPhase(files, false, g)
  {
    hide RawGroups, SplitGroups, Phase1, Phase2, Phase3Files;
    assert h in SplitGroups(files) by { BundledIsSplit(files, h); }
    var raw := SplitGroupOrigin(files, h, f);
    SplitKeepsFiles(raw);
    FlattenMember(Split(raw), g);
    var i :| 0 <= i < |Split(raw)| && Split(raw)[i] == h;
    RawMembers(files, raw, f);
    RawMembers(files, raw, g);
    PhaseMembers(files, f);
    PhaseMembers(files, g);
  }

  lemma BundledIsSplit(files: seq<VirtFile>, h: seq<VirtFile>)
    requires h in BundleGroups(files)
    ensures h in SplitGroups(files) && |h| > 1
  {
    hide SplitGroups;
  }

  /** All files of a phase, in path order, are one group, or the pieces of one. */
  lemma PhaseTogether(files: seq<VirtFile>, small: bool, group: seq<VirtFile>)
    requires Sorted(files) && OnePartEach(files) && Sorted(group)
    requires forall f :: f in group <==> OfPhase(files, small, f)
    ensures forall h :: h in Split(group) && |h| > 1 ==> h in BundleGroups(files)
    ensures |group| > 1 && StorageSum(group) <= 2 * PART_SIZE ==> group in BundleGroups(files)
  {
    hide Phase1, Phase2, Phase3Files, Phase3, MaxPathLen, Sorted, StorageSum;
    var phase := if small then Phase1(files) else Phase2(files);
    PhasesSorted(files);
    forall f ensures f in group <==> f in phase {
      PhaseMembers(files, f);
    }
    SortedUnique(group, phase);
    assert phase in RawGroups(files);
    forall h | h in Split(group) && |h| > 1 ensures h in BundleGroups(files) {
      assert h in SplitGroups(files);
    }
    if |group| > 1 && StorageSum(group) <= 2 * PART_SIZE {
      assert Split(group) == [group] && group in Split(group);
    }
  }

  /** Every bundle group holds at least two files and at most two parts of data. */
  lemma BundleGroupSize(files: seq<VirtFile>, h: seq<VirtFile>)
    requires h in BundleGroups(files) && SmallOnStorage(files)
    ensures |h| > 1 && StorageSum(h) <= 2 * PART_SIZE
  {
    var g :| g in RawGroups(files) && h in Split(g);
    forall f | f in g ensures f in files {
      RawMembers(files, g, f);
    }
    SplitBounds(g);
  }
}
