/** db/bundle.go, splitBigBundles: cutting oversized groups into bundles of about one part. */
module Splitting {
  import opened Seqs
  import opened Types

  /** The size on storage of a file that has one part. */
  function StoredSize(f: VirtFile): nat {
    if |f.parts| == 1 then f.parts[0].storageSize else 0
  }

  function StorageSum(files: seq<VirtFile>): nat {
    if files == [] then 0 else StorageSum(Init(files)) + StoredSize(Last(files))
  }

  ghost predicate OnePartEach(files: seq<VirtFile>) {
    forall f :: f in files ==> |f.parts| == 1
  }

  /** What a scan leaves of a file that is small enough to be bundled. */
  ghost predicate SmallOnStorage(files: seq<VirtFile>) {
    forall f :: f in files ==> StoredSize(f) <= f.fileSize < MAX_FILE_SIZE_TO_BUNDLE
  }

  /** Greedy splitting: current is the sub-group being filled, rest is still to come. */
  function Chop(current: seq<VirtFile>, rest: seq<VirtFile>): seq<seq<VirtFile>>
    decreases |rest|
  {
    if rest == [] then [current]
    else
      var next := current + [rest[0]];
      if StorageSum(next) > PART_SIZE then [next] + Chop([], rest[1..]) else Chop(next, rest[1..])
  }

  function Split(group: seq<VirtFile>): seq<seq<VirtFile>> {
    if StorageSum(group) <= 2 * PART_SIZE then [group] else Chop([], group)
  }

  function SplitAll(groups: seq<seq<VirtFile>>): seq<seq<VirtFile>> {
    if groups == [] then [] else SplitAll(Init(groups)) + Split(Last(groups))
  }

  method SplitBigBundles(foundGroups: seq<seq<VirtFile>>) returns (ret: seq<seq<VirtFile>>)
    requires forall g :: g in foundGroups ==> OnePartEach(g)
    ensures ret == SplitAll(foundGroups)
    ensures Flatten(ret) == Flatten(foundGroups)
  {
    hide *;
    ret := [];
    SplitAllStarts(foundGroups);
    for i := 0 to |foundGroups|
      invariant ret == SplitAll(foundGroups[..i])
    {
      var group := foundGroups[i];
      assert group in foundGroups;
      SplitAllStep(foundGroups, i);
      var size := GroupSize(group);
      if size <= 2 * PART_SIZE {
        ret := ret + [group];
      } else {
        var pieces := ChopGroup(group);
        ret := ret + pieces;
      }
    }
    assert foundGroups[..|foundGroups|] == foundGroups;
    SplitAllKeepsFiles(foundGroups);
  }

  lemma SplitAllStarts(groups: seq<seq<VirtFile>>)
    ensures SplitAll(groups[..0]) == []
  {
  }

  lemma SplitAllStep(groups: seq<seq<VirtFile>>, i: nat)
    requires i < |groups|
    ensures SplitAll(groups[..i + 1]) ==
            SplitAll(groups[..i]) + (if StorageSum(groups[i]) <= 2 * PART_SIZE then [groups[i]] else Chop([], groups[i]))
  {
    hide StorageSum, Chop;
    assert Init(groups[..i + 1]) == groups[..i];
  }

  /** The storage size of a group. */
  method GroupSize(group: seq<VirtFile>) returns (size: nat)
    requires OnePartEach(group)
    ensures size == StorageSum(group)
  {
    hide StorageSum;
    size := 0;
    SumStarts(group);
    for j := 0 to |group|
      invariant size == StorageSum(group[..j])
    {
      SumStep(group, j);
      size := size + group[j].parts[0].storageSize;
    }
  }

  lemma SumStarts(group: seq<VirtFile>)
    ensures StorageSum(group[..0]) == 0
    ensures StorageSum(group[..|group|]) == StorageSum(group)
  {
    assert group[..|group|] == group;
  }

  lemma SumStep(group: seq<VirtFile>, j: nat)
    requires OnePartEach(group) && j < |group|
    ensures |group[j].parts| == 1
    ensures StorageSum(group[..j + 1]) == StorageSum(group[..j]) + group[j].parts[0].storageSize
  {
    assert Init(group[..j + 1]) == group[..j] && group[j] in group;
  }

  /** Cuts up a group that is too big. */
  method ChopGroup(group: seq<VirtFile>) returns (ret: seq<seq<VirtFile>>)
    requires OnePartEach(group)
    ensures ret == Chop([], group)
  {
    hide StorageSum, Chop;
    ret := [];
    var newGroup, newSize := [], 0;
    ChopStarts(group);
    for j := 0 to |group|
      invariant newSize == StorageSum(newGroup)
      invariant Chop([], group) == ret + Chop(newGroup, group[j..])
    {
      SumStep(group, j);
      ChopStep(newGroup, group, j);
      newGroup, newSize := newGroup + [group[j]], newSize + group[j].parts[0].storageSize;
      if newSize > PART_SIZE {
        ret := ret + [newGroup];
        newGroup, newSize := [], 0;
      }
    }
    ChopEnds(newGroup, group);
    ret := ret + [newGroup];
  }

  lemma ChopStarts(group: seq<VirtFile>)
    ensures StorageSum([]) == 0 && group[0..] == group
  {
  }

  lemma ChopStep(newGroup: seq<VirtFile>, group: seq<VirtFile>, j: nat)
    requires j < |group| && |group[j].parts| == 1
    ensures var next := newGroup + [group[j]];
            && StorageSum(next) == StorageSum(newGroup) + group[j].parts[0].storageSize
            && Chop(newGroup, group[j..]) ==
               if StorageSum(next) > PART_SIZE then [next] + Chop([], group[j + 1..]) else Chop(next, group[j + 1..])
  {
    var next := newGroup + [group[j]];
    assert Init(next) == newGroup && group[j..][1..] == group[j + 1..];
  }

  lemma ChopEnds(newGroup: seq<VirtFile>, group: seq<VirtFile>)
    ensures Chop(newGroup, group[|group|..]) == [newGroup]
  {
  }

  // ----- no file is lost, doubled or moved -----

  lemma {:induction false} ChopKeepsFiles(current: seq<VirtFile>, rest: seq<VirtFile>)
    ensures Flatten(Chop(current, rest)) == current + rest
    decreases |rest|
  {
    hide StorageSum;
    if rest == [] {
      FlattenAppend([], current);
    } else {
      var next := current + [rest[0]];
      assert current + rest == next + rest[1..];
      if StorageSum(next) > PART_SIZE {
        ChopKeepsFiles([], rest[1..]);
        FlattenConcat([next], Chop([], rest[1..]));
        FlattenAppend([], next);
      } else {
        ChopKeepsFiles(next, rest[1..]);
      }
    }
  }

  lemma SplitKeepsFiles(group: seq<VirtFile>)
    ensures Flatten(Split(group)) == group
  {
    ChopKeepsFiles([], group);
    FlattenAppend([], group);
  }

  lemma {:induction false} SplitAllKeepsFiles(groups: seq<seq<VirtFile>>)
    ensures Flatten(SplitAll(groups)) == Flatten(groups)
  {
    if groups == [] {
    } else {
      SplitAllKeepsFiles(Init(groups));
      FlattenConcat(SplitAll(Init(groups)), Split(Last(groups)));
      SplitKeepsFiles(Last(groups));
    }
  }

  // ----- sizes -----

  lemma {:induction false} StorageSumConcat(a: seq<VirtFile>, b: seq<VirtFile>)
    ensures StorageSum(a + b) == StorageSum(a) + StorageSum(b)
  {
    if b == [] {
      assert a + b == a;
    } else {
      assert Init(a + b) == a + Init(b);
      StorageSumConcat(a, Init(b));
    }
  }

  /** The one greedy way to cut: each piece but the last is the shortest prefix over the limit. */
  ghost predicate Greedy(pieces: seq<seq<VirtFile>>) {
    && pieces != []
    && (forall i :: 0 <= i < |pieces| - 1 ==>
          pieces[i] != [] && StorageSum(Init(pieces[i])) <= PART_SIZE < StorageSum(pieces[i]))
    && StorageSum(Last(pieces)) <= PART_SIZE
  }

  lemma {:induction false} ChopIsGreedy(current: seq<VirtFile>, rest: seq<VirtFile>)
    requires StorageSum(current) <= PART_SIZE
    ensures Greedy(Chop(current, rest))
    decreases |rest|
  {
    if rest == [] {
    } else {
      var next := current + [rest[0]];
      assert Init(next) == current;
      if StorageSum(next) > PART_SIZE {
        ChopIsGreedy([], rest[1..]);
        GreedyCons(next, Chop([], rest[1..]));
      } else {
        ChopIsGreedy(next, rest[1..]);
      }
    }
  }

  lemma GreedyCons(piece: seq<VirtFile>, tail: seq<seq<VirtFile>>)
    requires piece != [] && StorageSum(Init(piece)) <= PART_SIZE < StorageSum(piece)
    requires Greedy(tail)
    ensures Greedy([piece] + tail)
  {
    hide StorageSum;
    var a := [piece] + tail;
    assert Last(a) == Last(tail);
    forall i | 0 < i < |a| - 1
      ensures a[i] != [] && StorageSum(Init(a[i])) <= PART_SIZE < StorageSum(a[i])
    {
      assert a[i] == tail[i - 1];
    }
  }

  /** Nothing else is greedy: the cut points are determined by the file sequence. */
  lemma {:induction false} GreedyUnique(a: seq<seq<VirtFile>>, b: seq<seq<VirtFile>>)
    requires Greedy(a) && Greedy(b) && Flatten(a) == Flatten(b)
    ensures a == b
  {
    hide StorageSum, Flatten;
    FlattenHead(a);
    FlattenHead(b);
    if |a| == 1 || |b| == 1 {
      FlattenSingle(a);
      FlattenSingle(b);
      if |a| > 1 { GreedyFirst(a, Flatten(b)); }
      if |b| > 1 { GreedyFirst(b, Flatten(a)); }
      assert |a| == 1 && |b| == 1;
    } else {
      SamePrefix(a[0], b[0], Flatten(a));
      assert Flatten(a[1..]) == Flatten(a)[|a[0]|..] == Flatten(b)[|b[0]|..] == Flatten(b[1..]);
      GreedyTail(a);
      GreedyTail(b);
      GreedyUnique(a[1..], b[1..]);
      assert a == [a[0]] + a[1..] && b == [b[0]] + b[1..];
    }
  }

  lemma FlattenHead<T>(ss: seq<seq<T>>)
    requires ss != []
    ensures Flatten(ss) == ss[0] + Flatten(ss[1..])
  {
    assert ss == [ss[0]] + ss[1..];
    FlattenConcat([ss[0]], ss[1..]);
    FlattenAppend([], ss[0]);
    assert [] + [ss[0]] == [ss[0]];
  }

  lemma FlattenSingle<T>(ss: seq<seq<T>>)
    ensures |ss| == 1 ==> Flatten(ss) == ss[0]
  {
    if |ss| == 1 {
      assert Init(ss) == [];
    }
  }

  lemma StorageSumSingle(files: seq<VirtFile>)
    ensures |files| == 1 ==> StorageSum(files) == StoredSize(files[0])
  {
    if |files| == 1 {
      assert Init(files) == [];
    }
  }

  lemma GreedyTail(a: seq<seq<VirtFile>>)
    requires Greedy(a) && |a| > 1
    ensures Greedy(a[1..])
  {
    var t := a[1..];
    forall i | 0 <= i < |t| - 1
      ensures t[i] != [] && StorageSum(Init(t[i])) <= PART_SIZE < StorageSum(t[i])
    {
      assert t[i] == a[i + 1];
    }
  }

  /** A sequence that starts with a full piece is too large to be a last piece. */
  lemma GreedyFirst(a: seq<seq<VirtFile>>, whole: seq<VirtFile>)
    requires Greedy(a) && |a| > 1 && whole == Flatten(a)
    ensures StorageSum(whole) > PART_SIZE
  {
    FlattenHead(a);
    StorageSumConcat(a[0], Flatten(a[1..]));
  }

  lemma SamePrefix(p: seq<VirtFile>, q: seq<VirtFile>, whole: seq<VirtFile>)
    requires p <= whole && q <= whole && p != [] && q != []
    requires StorageSum(Init(p)) <= PART_SIZE < StorageSum(p)
    requires StorageSum(Init(q)) <= PART_SIZE < StorageSum(q)
    ensures p == q
  {
    if |p| < |q| {
      assert Init(q) == p + Init(q)[|p|..];
      StorageSumConcat(p, Init(q)[|p|..]);
    } else if |q| < |p| {
      assert Init(p) == q + Init(p)[|q|..];
      StorageSumConcat(q, Init(p)[|q|..]);
    }
  }

  function CeilDiv(n: nat, d: nat): nat
    requires d > 0
  {
    (n + d - 1) / d
  }

  lemma CeilDivAbove(k: nat, n: nat, d: nat)
    requires d > 0 && k * d < n
    ensures k + 1 <= CeilDiv(n, d)
  {
    var q := (n + d - 1) / d;
    assert n + d - 1 < q * d + d;
    MulMonotone(q, k, d);
  }

  lemma MulMonotone(q: nat, k: nat, d: nat)
    ensures q <= k ==> q * d <= k * d
  {
  }

  /** The size bounds of one group after splitting, and how many sub-groups there are. */
  lemma SplitBounds(group: seq<VirtFile>)
    requires SmallOnStorage(group)
    ensures forall i :: 0 <= i < |Split(group)| ==> StorageSum(Split(group)[i]) <= 2 * PART_SIZE
    ensures forall i :: 0 <= i < |Split(group)| - 1 ==>
              PART_SIZE < StorageSum(Split(group)[i]) < PART_SIZE + MAX_FILE_SIZE_TO_BUNDLE
    ensures forall i :: 0 <= i < |Split(group)| - 1 ==> |Split(group)[i]| > 1
    ensures StorageSum(group) <= 2 * PART_SIZE ==> Split(group) == [group]
    ensures StorageSum(group) > 2 * PART_SIZE ==>
              1 < |Split(group)| <= CeilDiv(StorageSum(group), PART_SIZE)
  {
    var pieces := Split(group);
    if StorageSum(group) > 2 * PART_SIZE {
      ChopIsGreedy([], group);
      ChopKeepsFiles([], group);
      assert [] + group == group;
      forall i | 0 <= i < |pieces| - 1
        ensures StorageSum(pieces[i]) < PART_SIZE + MAX_FILE_SIZE_TO_BUNDLE && |pieces[i]| > 1
      {
        var f := Last(pieces[i]);
        FlattenMember(pieces, f);
        assert f in group;
        StorageSumSingle(pieces[i]);
      }
      FlattenHead(pieces);
      FlattenSingle(pieces);
      GreedyCount(pieces);
      CeilDivAbove(|pieces| - 1, StorageSum(group), PART_SIZE);
    }
  }

  lemma {:induction false} GreedyCount(pieces: seq<seq<VirtFile>>)
    requires Greedy(pieces)
    ensures |pieces| > 1 ==> (|pieces| - 1) * PART_SIZE < StorageSum(Flatten(pieces))
  {
    if |pieces| <= 1 {
    } else {
      FlattenHead(pieces);
      StorageSumConcat(pieces[0], Flatten(pieces[1..]));
      GreedyTail(pieces);
      GreedyCount(pieces[1..]);
      assert (|pieces| - 1) * PART_SIZE == (|pieces| - 2) * PART_SIZE + PART_SIZE;
    }
  }
}
