/** What MakeBundles establishes: bundles and links agree, whatever the order of the groups. */
module BundleLaws {
  import opened Primitives
  import opened Seqs
  import opened Types
  import opened Paths
  import opened Splitting
  import opened Grouping
  import opened GroupingLaws
  import opened Bundling

  /** Groups of at least two files each, all different files of the database, with one part. */
  ghost predicate Proper(vFiles: map<string, VirtFile>, groups: seq<seq<VirtFile>>) {
    && (forall i :: 0 <= i < |groups| ==> |groups[i]| > 1 && OnePartEach(groups[i]) && Distinct(PathsOf(groups[i])))
    && (forall i, f :: 0 <= i < |groups| && f in groups[i] ==> f.relPath in vFiles && vFiles[f.relPath] == f)
    && (forall i, j, p :: 0 <= i < j < |groups| && p in PathsOf(groups[i]) ==> p !in PathsOf(groups[j]))
  }

  lemma FoundIsProper(vFiles: map<string, VirtFile>, groups: seq<seq<VirtFile>>, files: seq<VirtFile>,
                      raw: seq<seq<VirtFile>>, left: seq<VirtFile>)
    requires Found(vFiles, groups, files, raw, left)
    ensures Proper(vFiles, groups)
  {
    hide Found, PathsOf, BundleGroups;
    GroupsDisjoint(vFiles, groups, files, raw, left);
    forall i | 0 <= i < |groups|
      ensures |groups[i]| > 1 && OnePartEach(groups[i]) && Distinct(PathsOf(groups[i]))
      ensures forall f :: f in groups[i] ==> f.relPath in vFiles && vFiles[f.relPath] == f
    {
      GroupInDb(vFiles, groups, files, raw, left, groups[i]);
      FoundSorted(vFiles, groups, files, raw, left, groups[i]);
      SortedPaths(groups[i]);
    }
    forall i, j, p | 0 <= i < j < |groups| && p in PathsOf(groups[i]) ensures p !in PathsOf(groups[j]) {
      PathsOfMember(groups[i], p);
      PathsOfMember(groups[j], p);
      PiecesDisjoint(groups, i, j, vFiles[p]);
    }
  }

  lemma FoundSorted(vFiles: map<string, VirtFile>, groups: seq<seq<VirtFile>>, files: seq<VirtFile>,
                    raw: seq<seq<VirtFile>>, left: seq<VirtFile>, g: seq<VirtFile>)
    requires Found(vFiles, groups, files, raw, left) && g in groups
    ensures Sorted(g)
  {
    hide SplitGroups;
    assert g in SetOf(groups);
    GroupSorted(files, g);
  }

  lemma SortedPaths(group: seq<VirtFile>)
    requires Sorted(group)
    ensures Distinct(PathsOf(group))
  {
    PathsOfAt(group);
    SortedDistinct(group);
  }

  // ----- the table and the links -----

  /** An entry of the table is the bundle of the last group with its id. */
  lemma {:induction false} TableLookup(c: Crypto, groups: seq<seq<VirtFile>>, id: string) returns (i: nat)
    requires id in BundleTable(c, groups)
    ensures i < |groups| && id == BundleId(c, groups[i])
    ensures BundleTable(c, groups)[id] == BundleOf(c, groups[i])
    ensures forall j :: i < j < |groups| ==> BundleId(c, groups[j]) != id
  {
    hide BundleId, BundleOf;
    i := |groups| - 1;
    if BundleId(c, groups[i]) == id {
    } else {
      i := TableLookup(c, Init(groups), id);
    }
  }

  lemma {:induction false} TableHas(c: Crypto, groups: seq<seq<VirtFile>>, i: nat)
    requires i < |groups|
    ensures BundleId(c, groups[i]) in BundleTable(c, groups)
  {
    hide BundleId, BundleOf;
    if i == |groups| - 1 {
    } else {
      TableHas(c, Init(groups), i);
    }
  }

  lemma {:induction false} LinkIs(c: Crypto, groups: seq<seq<VirtFile>>, i: nat, path: string)
    requires i < |groups| && path in PathsOf(groups[i])
    requires forall j :: i < j < |groups| ==> path !in PathsOf(groups[j])
    ensures LinkOf(c, groups, path) == BundleId(c, groups[i])
  {
    hide BundleId, PathsOf;
    if i == |groups| - 1 {
    } else {
      LinkIs(c, Init(groups), i, path);
    }
  }

  lemma {:induction false} LinkComesFrom(c: Crypto, groups: seq<seq<VirtFile>>, path: string) returns (i: nat)
    requires LinkOf(c, groups, path) != ""
    ensures i < |groups| && path in PathsOf(groups[i]) && LinkOf(c, groups, path) == BundleId(c, groups[i])
  {
    hide BundleId, PathsOf;
    i := |groups| - 1;
    if path in PathsOf(groups[i]) {
    } else {
      i := LinkComesFrom(c, Init(groups), path);
    }
  }

  lemma {:induction false} NoLink(c: Crypto, groups: seq<seq<VirtFile>>, path: string)
    requires forall i :: 0 <= i < |groups| ==> path !in PathsOf(groups[i])
    ensures LinkOf(c, groups, path) == ""
  {
    hide BundleId, PathsOf;
    if groups == [] {
    } else {
      assert path !in PathsOf(groups[|groups| - 1]);
      NoLink(c, Init(groups), path);
    }
  }

  // ----- the invariant -----

  /** The files that a bundle lists. */
  function FilesAt(vFiles: map<string, VirtFile>, paths: seq<string>): seq<VirtFile>
    requires forall p :: p in paths ==> p in vFiles
  {
    if paths == [] then [] else FilesAt(vFiles, Init(paths)) + [vFiles[Last(paths)]]
  }

  /** One entry of the bundle table: keyed by its id, listing each file once, only files that exist,
      have one part and link back; its size, name and key are those of the listed files. */
  ghost predicate BundleEntry(c: Crypto, vFiles: map<string, VirtFile>, id: string, b: Bundle) {
    && b.part.storageName == id
    && Distinct(b.content)
    && (forall p :: p in b.content ==> p in vFiles && vFiles[p].alsoInBundle == id && |vFiles[p].parts| == 1)
    && b == BundleOf(c, FilesAt(vFiles, b.content))
    && b.part.storageSize == StorageSum(FilesAt(vFiles, b.content))
  }

  ghost predicate WellBundled(c: Crypto, db: Db) {
    && (forall id :: id in db.bundles ==> BundleEntry(c, db.vFiles, id, db.bundles[id]))
    && (forall id, id2, p :: id in db.bundles && id2 in db.bundles && id != id2 && p in db.bundles[id].content
          ==> p !in db.bundles[id2].content)
    && (forall k :: k in db.vFiles && db.vFiles[k].alsoInBundle != "" ==> db.vFiles[k].alsoInBundle in db.bundles)
  }

  /** BundleOf looks at paths and parts only. */
  lemma {:induction false} RelinkedGroup(vFiles: map<string, VirtFile>, linked: map<string, VirtFile>, group: seq<VirtFile>)
    requires vFiles.Keys == linked.Keys
    requires forall k :: k in vFiles ==> linked[k].parts == vFiles[k].parts && linked[k].relPath == vFiles[k].relPath
    requires forall f :: f in group ==> f.relPath in vFiles && vFiles[f.relPath] == f
    requires forall p :: p in PathsOf(group) ==> p in linked
    ensures PathsOf(FilesAt(linked, PathsOf(group))) == PathsOf(group)
    ensures PlainHashes(FilesAt(linked, PathsOf(group))) == PlainHashes(group)
    ensures StorageSum(FilesAt(linked, PathsOf(group))) == StorageSum(group)
  {
    if group == [] {
    } else {
      var f, rest := Last(group), Init(group);
      assert group == rest + [f];
      assert PathsOf(group) == PathsOf(rest) + [f.relPath];
      RelinkedGroup(vFiles, linked, rest);
      var l := linked[f.relPath];
      assert Init(PathsOf(group)) == PathsOf(rest) && Last(PathsOf(group)) == f.relPath;
      assert FilesAt(linked, PathsOf(group)) == FilesAt(linked, PathsOf(rest)) + [l];
      assert Init(FilesAt(linked, PathsOf(rest)) + [l]) == FilesAt(linked, PathsOf(rest));
      assert f in group;
    }
  }

  lemma EntryOfGroup(c: Crypto, vFiles: map<string, VirtFile>, groups: seq<seq<VirtFile>>, i: nat)
    requires KeysMatch(vFiles) && Proper(vFiles, groups) && i < |groups|
    ensures BundleEntry(c, Linked(c, vFiles, groups), BundleId(c, groups[i]), BundleOf(c, groups[i]))
  {
    hide PathsOf, LinkOf, StorageSum, PlainHashes, FilesAt;
    var linked, group := Linked(c, vFiles, groups), groups[i];
    forall p | p in PathsOf(group)
      ensures p in linked && linked[p].alsoInBundle == BundleId(c, group) && |linked[p].parts| == 1
    {
      PathsOfMember(group, p);
      LinkIs(c, groups, i, p);
    }
    RelinkedGroup(vFiles, linked, group);
  }

  /** After MakeBundles bundles and links agree, and nothing else of any file has changed. */
  lemma MakeBundlesInvariant(c: Crypto, vFiles: map<string, VirtFile>, groups: seq<seq<VirtFile>>)
    requires KeysMatch(vFiles) && Proper(vFiles, groups)
    ensures WellBundled(c, Db(Linked(c, vFiles, groups), BundleTable(c, groups)))
    ensures ResetLinks(Linked(c, vFiles, groups)) == ResetLinks(vFiles)
  {
    hide PathsOf, LinkOf, BundleTable, BundleId, BundleEntry, FilesAt;
    var linked, table := Linked(c, vFiles, groups), BundleTable(c, groups);
    forall id | id in table ensures BundleEntry(c, linked, id, table[id]) {
      var i := TableLookup(c, groups, id);
      EntryOfGroup(c, vFiles, groups, i);
    }
    forall id, id2, p | id in table && id2 in table && id != id2 && p in table[id].content
      ensures p !in table[id2].content
    {
      var i := TableLookup(c, groups, id);
      var j := TableLookup(c, groups, id2);
      assert i != j;
    }
    forall k | k in linked && linked[k].alsoInBundle != "" ensures linked[k].alsoInBundle in table {
      var i := LinkComesFrom(c, groups, k);
      TableHas(c, groups, i);
    }
  }

  // ----- equal hash sequences -----

  /** No two groups consist of the same contents in the same order. */
  ghost predicate NoTwins(groups: seq<seq<VirtFile>>) {
    forall i, j :: 0 <= i < j < |groups| ==> PlainHashes(groups[i]) != PlainHashes(groups[j])
  }

  /** No two bundle groups of these candidates do; this does not depend on the order of any loop. */
  ghost predicate TwinFree(files: seq<VirtFile>) {
    forall g, h :: g in BundleGroups(files) && h in BundleGroups(files) && g != h ==> PlainHashes(g) != PlainHashes(h)
  }

  lemma FoundGroups(vFiles: map<string, VirtFile>, groups: seq<seq<VirtFile>>, files: seq<VirtFile>,
                    raw: seq<seq<VirtFile>>, left: seq<VirtFile>)
    requires Found(vFiles, groups, files, raw, left)
    ensures IsCandidates(vFiles, files)
    ensures forall g :: g in BundleGroups(files) <==> g in groups
  {
    hide IsCandidates, BundleGroups, Left, Phase3Files, MaxPathLen;
    forall g ensures g in BundleGroups(files) <==> g in groups {
      assert g in SetOf(groups) <==> g in groups;
    }
  }

  lemma NoTwinsIff(vFiles: map<string, VirtFile>, groups: seq<seq<VirtFile>>, files: seq<VirtFile>,
                   raw: seq<seq<VirtFile>>, left: seq<VirtFile>)
    requires Found(vFiles, groups, files, raw, left)
    ensures NoTwins(groups) <==> TwinFree(files)
  {
    hide PlainHashes, BundleGroups, Found, Flatten;
    GroupsDisjoint(vFiles, groups, files, raw, left);
    FoundGroups(vFiles, groups, files, raw, left);
    if NoTwins(groups) {
      forall g, h | g in BundleGroups(files) && h in BundleGroups(files) && g != h ensures PlainHashes(g) != PlainHashes(h) {
        var i :| 0 <= i < |groups| && groups[i] == g;
        var j :| 0 <= j < |groups| && groups[j] == h;
        assert i < j || j < i;
      }
    }
    if TwinFree(files) {
      forall i, j | 0 <= i < j < |groups| ensures PlainHashes(groups[i]) != PlainHashes(groups[j]) {
        assert groups[i] in groups && groups[j] in groups && groups[i] != groups[j];
      }
    }
  }

  /** Every part hash has the length of a SHA-512 digest, and the hashed strings do not collide. */
  ghost predicate GroupHashesOccur(c: Crypto, groups: seq<seq<VirtFile>>) {
    forall i :: 0 <= i < |groups| ==>
      Flatten(PlainHashes(groups[i])) in c.occurs && forall h :: h in PlainHashes(groups[i]) ==> |h| == 64
  }

  /** Equally long pieces can be recovered from their concatenation. */
  lemma {:induction false} FlattenInjective(a: seq<Bytes>, b: seq<Bytes>, n: nat)
    requires n > 0 && Flatten(a) == Flatten(b)
    requires (forall h :: h in a ==> |h| == n) && forall h :: h in b ==> |h| == n
    ensures a == b
  {
    if a != [] && b != [] {
      assert Last(a) in a && Last(b) in b;
      assert Flatten(a)[|Flatten(a)| - n..] == Last(a);
      assert Flatten(b)[|Flatten(b)| - n..] == Last(b);
      assert Flatten(Init(a)) == Flatten(a)[..|Flatten(a)| - n];
      assert Flatten(Init(b)) == Flatten(b)[..|Flatten(b)| - n];
      FlattenInjective(Init(a), Init(b), n);
      assert a == Init(a) + [Last(a)] && b == Init(b) + [Last(b)];
    } else {
      FlattenNonEmpty(a, n);
      FlattenNonEmpty(b, n);
    }
  }

  lemma FlattenNonEmpty(a: seq<Bytes>, n: nat)
    requires n > 0 && forall h :: h in a ==> |h| == n
    ensures a != [] ==> Flatten(a) != []
  {
    if a != [] {
      assert Last(a) in a;
    }
  }

  lemma SameIdSameHashes(c: Crypto, groups: seq<seq<VirtFile>>, i: nat, j: nat)
    requires c.CollisionFree() && GroupHashesOccur(c, groups) && i < |groups| && j < |groups|
    ensures BundleId(c, groups[i]) == BundleId(c, groups[j]) <==> PlainHashes(groups[i]) == PlainHashes(groups[j])
  {
    hide PlainHashes;
    var x, y := Flatten(PlainHashes(groups[i])), Flatten(PlainHashes(groups[j]));
    if BundleId(c, groups[i]) == BundleId(c, groups[j]) {
      PrefixCancels(BUNDLE_PREFIX, c.cryptName(c.sha512(x)), c.cryptName(c.sha512(y)));
      FlattenInjective(PlainHashes(groups[i]), PlainHashes(groups[j]), 64);
    }
  }

  lemma PrefixCancels(p: string, a: string, b: string)
    requires p + a == p + b
    ensures a == b
  {
    assert a == (p + a)[|p|..] && b == (p + b)[|p|..];
  }

  /** Is every linked file listed in the bundle it links to? */
  ghost predicate LinkedIsListed(db: Db) {
    forall k :: k in db.vFiles && db.vFiles[k].alsoInBundle != "" ==>
      db.vFiles[k].alsoInBundle in db.bundles && k in db.bundles[db.vFiles[k].alsoInBundle].content
  }

  /** Exactly when every linked file is listed: two groups with equal content sequences get the same
      bundle id, and the later one overwrites the content list of the earlier. */
  lemma LinkedIsListedIff(c: Crypto, vFiles: map<string, VirtFile>, groups: seq<seq<VirtFile>>)
    requires KeysMatch(vFiles) && Proper(vFiles, groups)
    requires c.CollisionFree() && GroupHashesOccur(c, groups)
    ensures LinkedIsListed(Db(Linked(c, vFiles, groups), BundleTable(c, groups))) <==> NoTwins(groups)
  {
    hide PathsOf, LinkOf, BundleTable, BundleId, PlainHashes;
    var linked, table := Linked(c, vFiles, groups), BundleTable(c, groups);
    if NoTwins(groups) {
      forall k | k in linked && linked[k].alsoInBundle != ""
        ensures linked[k].alsoInBundle in table && k in table[linked[k].alsoInBundle].content
      {
        ListedWithoutTwins(c, groups, k);
      }
    } else {
      var i, j :| 0 <= i < j < |groups| && PlainHashes(groups[i]) == PlainHashes(groups[j]);
      var k := groups[i][0].relPath;
      TwinNotListed(c, vFiles, groups, i, j, groups[i][0]);
      assert k in linked && !(linked[k].alsoInBundle in table && k in table[linked[k].alsoInBundle].content);
    }
  }

  lemma ListedWithoutTwins(c: Crypto, groups: seq<seq<VirtFile>>, path: string)
    requires NoTwins(groups) && c.CollisionFree() && GroupHashesOccur(c, groups)
    requires LinkOf(c, groups, path) != ""
    ensures LinkOf(c, groups, path) in BundleTable(c, groups)
    ensures path in BundleTable(c, groups)[LinkOf(c, groups, path)].content
  {
    hide PathsOf, BundleId, PlainHashes, BundleTable, LinkOf, GroupHashesOccur;
    var i := LinkComesFrom(c, groups, path);
    TableHas(c, groups, i);
    var j := TableLookup(c, groups, BundleId(c, groups[i]));
    SameIdSameHashes(c, groups, i, j);
  }

  /** Of two groups with equal hashes no file of the earlier one is listed in the bundle it links to. */
  lemma TwinNotListed(c: Crypto, vFiles: map<string, VirtFile>, groups: seq<seq<VirtFile>>, i: nat, j: nat, f: VirtFile)
    requires Proper(vFiles, groups) && i < j < |groups| && PlainHashes(groups[i]) == PlainHashes(groups[j])
    requires f in groups[i]
    ensures var k := f.relPath;
            && k in vFiles && LinkOf(c, groups, k) != ""
            && LinkOf(c, groups, k) in BundleTable(c, groups)
            && k !in BundleTable(c, groups)[LinkOf(c, groups, k)].content
  {
    hide PathsOf, PlainHashes, BundleTable, LinkOf;
    PathsOfMember(groups[i], f.relPath);
    LinkIs(c, groups, i, f.relPath);
    assert BundleId(c, groups[i]) == BundleId(c, groups[j]);
    TableHas(c, groups, i);
    var l := TableLookup(c, groups, BundleId(c, groups[i]));
    assert l >= j;
  }

  // ----- a second call -----

  /** The links do not depend on the order of the groups, and without twins neither does the table. */
  lemma OrderIndependent(c: Crypto, vFiles: map<string, VirtFile>, a: seq<seq<VirtFile>>, b: seq<seq<VirtFile>>)
    requires Proper(vFiles, a) && Proper(vFiles, b)
    requires forall g :: g in a <==> g in b
    ensures Linked(c, vFiles, a) == Linked(c, vFiles, b)
    ensures BundleTable(c, a).Keys == BundleTable(c, b).Keys
    ensures c.CollisionFree() && GroupHashesOccur(c, a) && NoTwins(a) ==> BundleTable(c, a) == BundleTable(c, b)
  {
    hide PathsOf, LinkOf, BundleTable, BundleId, GroupHashesOccur, NoTwins;
    forall k | k in vFiles ensures LinkOf(c, a, k) == LinkOf(c, b, k) {
      if i :| 0 <= i < |a| && k in PathsOf(a[i]) {
        var j := IndexOf(a, b, i);
        LinkIs(c, a, i, k);
        LinkIs(c, b, j, k);
      } else {
        forall j | 0 <= j < |b| ensures k !in PathsOf(b[j]) {
          var i := IndexOf(b, a, j);
        }
        NoLink(c, a, k);
        NoLink(c, b, k);
      }
    }
    TableKeysWithin(c, a, b);
    TableKeysWithin(c, b, a);
    if c.CollisionFree() && GroupHashesOccur(c, a) && NoTwins(a) {
      forall id | id in BundleTable(c, a) ensures BundleTable(c, a)[id] == BundleTable(c, b)[id] {
        var i := TableLookup(c, a, id);
        var j := TableLookup(c, b, id);
        var l := IndexOf(b, a, j);
        NoTwinsSameGroup(c, a, i, l);
      }
    }
  }

  lemma NoTwinsSameGroup(c: Crypto, a: seq<seq<VirtFile>>, i: nat, l: nat)
    requires c.CollisionFree() && GroupHashesOccur(c, a) && NoTwins(a)
    requires i < |a| && l < |a| && BundleId(c, a[i]) == BundleId(c, a[l])
    ensures i == l
  {
    hide BundleId, PlainHashes;
    SameIdSameHashes(c, a, i, l);
  }

  lemma IndexOf(a: seq<seq<VirtFile>>, b: seq<seq<VirtFile>>, i: nat) returns (j: nat)
    requires i < |a| && forall g :: g in a <==> g in b
    ensures j < |b| && b[j] == a[i]
  {
    assert a[i] in b;
    j :| 0 <= j < |b| && b[j] == a[i];
  }

  lemma TableKeysWithin(c: Crypto, a: seq<seq<VirtFile>>, b: seq<seq<VirtFile>>)
    requires forall g :: g in a <==> g in b
    ensures BundleTable(c, a).Keys <= BundleTable(c, b).Keys
  {
    hide BundleTable, BundleId;
    forall id | id in BundleTable(c, a) ensures id in BundleTable(c, b) {
      var i := TableLookup(c, a, id);
      var j := IndexOf(a, b, i);
      TableHas(c, b, j);
    }
  }

  /** A second call finds the same files, so it sets the same links, and without twins it changes
      nothing at all, whatever the iteration orders of the two calls were. */
  lemma SecondCallChangesNothing(
      c: Crypto, vFiles: map<string, VirtFile>,
      groups: seq<seq<VirtFile>>, files: seq<VirtFile>, raw: seq<seq<VirtFile>>, left: seq<VirtFile>,
      groups2: seq<seq<VirtFile>>, files2: seq<VirtFile>, raw2: seq<seq<VirtFile>>, left2: seq<VirtFile>)
    requires KeysMatch(vFiles)
    requires Found(ResetLinks(vFiles), groups, files, raw, left)
    requires var once := Linked(c, ResetLinks(vFiles), groups);
             Found(ResetLinks(once), groups2, files2, raw2, left2)
    ensures var once := Linked(c, ResetLinks(vFiles), groups);
            Linked(c, ResetLinks(once), groups2) == once
    ensures c.CollisionFree() && GroupHashesOccur(c, groups) && NoTwins(groups) ==>
              BundleTable(c, groups2) == BundleTable(c, groups)
  {
    hide Found, Linked, LinkOf, BundleTable, GroupHashesOccur, NoTwins, PathsOf;
    var base := ResetLinks(vFiles);
    FoundIsProper(base, groups, files, raw, left);
    MakeBundlesInvariant(c, base, groups);
    ResetTwice(vFiles);
    FoundIsProper(base, groups2, files2, raw2, left2);
    Stable(base, groups, files, raw, left, groups2, files2, raw2, left2);
    forall g ensures g in groups <==> g in groups2 {
      assert g in groups <==> g in multiset(groups);
      assert g in groups2 <==> g in multiset(groups2);
    }
    OrderIndependent(c, base, groups, groups2);
  }

  lemma ResetTwice(vFiles: map<string, VirtFile>)
    ensures ResetLinks(ResetLinks(vFiles)) == ResetLinks(vFiles)
    ensures KeysMatch(vFiles) ==> KeysMatch(ResetLinks(vFiles))
  {
  }
}
