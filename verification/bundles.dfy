/** db/bundle.go, MakeBundles and resetOldBundles: the bundle table and the links to it. */
module Bundling {
  import opened Primitives
  import opened Seqs
  import opened Types
  import opened Splitting
  import opened Grouping

  // ----- what a group of files becomes -----

  function PlainHash(f: VirtFile): Bytes {
    if |f.parts| == 1 then f.parts[0].plainSha512 else []
  }

  function PlainHashes(group: seq<VirtFile>): seq<Bytes> {
    if group == [] then [] else PlainHashes(Init(group)) + [PlainHash(Last(group))]
  }

  /** The hash over all part hashes. */
  function GroupHash(c: Crypto, group: seq<VirtFile>): Hash {
    c.sha512(Flatten(PlainHashes(group)))
  }

  function BundleId(c: Crypto, group: seq<VirtFile>): string {
    BUNDLE_PREFIX + c.cryptName(GroupHash(c, group))
  }

  function PathsOf(group: seq<VirtFile>): seq<string> {
    if group == [] then [] else PathsOf(Init(group)) + [Last(group).relPath]
  }

  function BundleOf(c: Crypto, group: seq<VirtFile>): Bundle {
    var hash := GroupHash(c, group);
    Bundle(VFilePart(hash, BundleId(c, group), StorageSum(group), "", c.dataKey(hash)), PathsOf(group))
  }

  /** The table after adding the bundles of all groups in order. */
  function BundleTable(c: Crypto, groups: seq<seq<VirtFile>>): map<string, Bundle> {
    if groups == [] then map[]
    else BundleTable(c, Init(groups))[BundleId(c, Last(groups)) := BundleOf(c, Last(groups))]
  }

  // ----- links -----

  function Unlink(f: VirtFile): VirtFile {
    f.(alsoInBundle := "")
  }

  function ResetLinks(vFiles: map<string, VirtFile>): map<string, VirtFile> {
    map k | k in vFiles :: Unlink(vFiles[k])
  }

  /** The link of a path after linking the files of all groups in order. */
  function LinkOf(c: Crypto, groups: seq<seq<VirtFile>>, path: string): string {
    if groups == [] then ""
    else if path in PathsOf(Last(groups)) then BundleId(c, Last(groups))
    else LinkOf(c, Init(groups), path)
  }

  function Linked(c: Crypto, vFiles: map<string, VirtFile>, groups: seq<seq<VirtFile>>): map<string, VirtFile> {
    map k | k in vFiles :: vFiles[k].(alsoInBundle := LinkOf(c, groups, k))
  }

  /** Links the given paths to one bundle. */
  function LinkPaths(vFiles: map<string, VirtFile>, paths: seq<string>, id: string): map<string, VirtFile> {
    map k | k in vFiles :: if k in paths then vFiles[k].(alsoInBundle := id) else vFiles[k]
  }

  lemma LinkedStep(c: Crypto, vFiles: map<string, VirtFile>, groups: seq<seq<VirtFile>>, i: nat)
    requires i < |groups|
    ensures Linked(c, vFiles, groups[..i + 1]) ==
            LinkPaths(Linked(c, vFiles, groups[..i]), PathsOf(groups[i]), BundleId(c, groups[i]))
  {
    hide PathsOf, BundleId;
    assert Init(groups[..i + 1]) == groups[..i];
  }

  lemma LinkPathsStep(vFiles: map<string, VirtFile>, paths: seq<string>, i: nat, id: string)
    requires i < |paths| && paths[i] in vFiles
    ensures var before := LinkPaths(vFiles, paths[..i], id);
            && paths[i] in before
            && LinkPaths(vFiles, paths[..i + 1], id) ==
               before[paths[i] := before[paths[i]].(alsoInBundle := id)]
  {
    assert paths[..i + 1] == paths[..i] + [paths[i]];
  }

  lemma TableStep(c: Crypto, groups: seq<seq<VirtFile>>, i: nat)
    requires i < |groups|
    ensures BundleTable(c, groups[..i + 1]) ==
            BundleTable(c, groups[..i])[BundleId(c, groups[i]) := BundleOf(c, groups[i])]
  {
    hide BundleId, BundleOf;
    assert Init(groups[..i + 1]) == groups[..i];
  }

  lemma {:induction false} PathsOfMember(group: seq<VirtFile>, path: string)
    ensures path in PathsOf(group) <==> exists f :: f in group && f.relPath == path
  {
    if group == [] {
    } else {
      var g := Last(group);
      PathsOfMember(Init(group), path);
      assert group == Init(group) + [g];
      assert path in PathsOf(group) <==> path in PathsOf(Init(group)) || path == g.relPath;
      if f :| f in group && f.relPath == path {
        assert f in Init(group) || f == g;
      }
    }
  }

  lemma {:induction false} PathsOfAt(group: seq<VirtFile>)
    ensures |PathsOf(group)| == |group|
    ensures forall i :: 0 <= i < |group| ==> PathsOf(group)[i] == group[i].relPath
  {
    if group == [] {
    } else {
      PathsOfAt(Init(group));
    }
  }

  // ----- the methods -----

  /** Removes all bundles and bundle links. */
  method ResetOldBundles(db: Database)
    modifies db
    ensures db.vFiles == ResetLinks(old(db.vFiles)) && db.bundles == map[]
  {
    var todo := db.vFiles.Keys;
    while todo != {}
      invariant todo <= db.vFiles.Keys == old(db.vFiles).Keys
      invariant forall k :: k in db.vFiles ==>
                  db.vFiles[k] == if k in todo then old(db.vFiles)[k] else Unlink(old(db.vFiles)[k])
      decreases todo
    {
      var k :| k in todo;
      var tmp := db.vFiles[k];
      tmp := tmp.(alsoInBundle := "");
      db.vFiles := db.vFiles[k := tmp];
      todo := todo - {k};
    }
    db.bundles := map[];
  }

  /** Size, hash input and content of the bundle of one group. */
  method BuildBundle(c: Crypto, group: seq<VirtFile>) returns (bundle: Bundle)
    requires OnePartEach(group)
    ensures bundle == BundleOf(c, group)
    ensures var hash := c.sha512(Flatten(PlainHashes(group)));
            && bundle.part == VFilePart(hash, "B_" + c.cryptName(hash), StorageSum(group), "", c.dataKey(hash))
            && |bundle.content| == |group| && forall i :: 0 <= i < |group| ==> bundle.content[i] == group[i].relPath
  {
    PathsOfAt(group);
    var storageSize, hashed, content := 0, [], [];
    for i := 0 to |group|
      invariant storageSize == StorageSum(group[..i])
      invariant hashed == Flatten(PlainHashes(group[..i]))
      invariant content == PathsOf(group[..i])
    {
      assert Init(group[..i + 1]) == group[..i] && group[i] in group;
      FlattenAppend(PlainHashes(group[..i]), PlainHash(group[i]));
      storageSize := storageSize + group[i].parts[0].storageSize;
      hashed := hashed + group[i].parts[0].plainSha512;
      content := content + [group[i].relPath];
    }
    assert group[..|group|] == group;
    var plainHash := c.sha512(hashed);
    bundle := Bundle(
      VFilePart(plainHash, BUNDLE_PREFIX + c.cryptName(plainHash), storageSize, "", c.dataKey(plainHash)),
      content);
  }

  /** Links all files of a bundle to it. */
  method ConnectFiles(db: Database, bundle: Bundle)
    requires forall p :: p in bundle.content ==> p in db.vFiles
    modifies db`vFiles
    ensures db.vFiles == LinkPaths(old(db.vFiles), bundle.content, bundle.part.storageName)
  {
    hide *;
    LinkNothing(db.vFiles, bundle.content, bundle.part.storageName);
    for i := 0 to |bundle.content|
      invariant db.vFiles == LinkPaths(old(db.vFiles), bundle.content[..i], bundle.part.storageName)
    {
      var relPath := bundle.content[i];
      LinkPathsStep(old(db.vFiles), bundle.content, i, bundle.part.storageName);
      var tmp := db.vFiles[relPath];
      tmp := tmp.(alsoInBundle := bundle.part.storageName);
      db.vFiles := db.vFiles[relPath := tmp];
    }
    assert bundle.content[..|bundle.content|] == bundle.content;
  }

  lemma LinkNothing(vFiles: map<string, VirtFile>, paths: seq<string>, id: string)
    ensures LinkPaths(vFiles, paths[..0], id) == vFiles
  {
  }

  /** Sets the bundles of the database. The ghost results are those of FindGroups. */
  method MakeBundles(db: Database, c: Crypto)
    returns (ghost groups: seq<seq<VirtFile>>, ghost files: seq<VirtFile>,
             ghost raw: seq<seq<VirtFile>>, ghost left: seq<VirtFile>)
    requires KeysMatch(db.vFiles)
    modifies db
    ensures Found(ResetLinks(old(db.vFiles)), groups, files, raw, left)
    ensures db.vFiles == Linked(c, ResetLinks(old(db.vFiles)), groups)
    ensures db.bundles == BundleTable(c, groups)
  {
    hide *;
    ghost var base := ResetLinks(db.vFiles);
    ResetMatches(db.vFiles);
    ResetOldBundles(db);
    var found;
    found, files, raw, left := FindGroups(db.vFiles);
    groups := found;
    LinkedNothing(c, old(db.vFiles), groups);
    for i := 0 to |found|
      invariant db.vFiles == Linked(c, base, groups[..i])
      invariant db.bundles == BundleTable(c, groups[..i])
    {
      var group := found[i];
      GroupInDb(base, groups, files, raw, left, group);
      var bundle := BuildBundle(c, group);
      BundleOfFields(c, group);
      TableStep(c, groups, i);
      LinkedStep(c, base, groups, i);
      LinkedKeys(c, base, groups[..i]);
      db.bundles := db.bundles[bundle.part.storageName := bundle];
      ConnectFiles(db, bundle);
    }
    assert groups[..|groups|] == groups;
  }

  lemma ResetMatches(vFiles: map<string, VirtFile>)
    requires KeysMatch(vFiles)
    ensures KeysMatch(ResetLinks(vFiles))
  {
  }

  lemma BundleOfFields(c: Crypto, group: seq<VirtFile>)
    ensures BundleOf(c, group).part.storageName == BundleId(c, group)
    ensures BundleOf(c, group).content == PathsOf(group)
  {
  }

  lemma LinkedKeys(c: Crypto, vFiles: map<string, VirtFile>, groups: seq<seq<VirtFile>>)
    ensures Linked(c, vFiles, groups).Keys == vFiles.Keys
  {
  }

  lemma LinkedNothing(c: Crypto, vFiles: map<string, VirtFile>, groups: seq<seq<VirtFile>>)
    ensures Linked(c, ResetLinks(vFiles), groups[..0]) == ResetLinks(vFiles)
    ensures BundleTable(c, groups[..0]) == map[]
  {
    var reset := ResetLinks(vFiles);
    forall k | k in reset ensures reset[k].(alsoInBundle := "") == reset[k] {
    }
  }

  lemma GroupInDb(vFiles: map<string, VirtFile>, groups: seq<seq<VirtFile>>, files: seq<VirtFile>,
                  raw: seq<seq<VirtFile>>, left: seq<VirtFile>, group: seq<VirtFile>)
    requires Found(vFiles, groups, files, raw, left) && group in groups
    ensures OnePartEach(group) && |group| > 1
    ensures forall f :: f in group ==> f in files && f.relPath in vFiles && vFiles[f.relPath] == f
    ensures forall p :: p in PathsOf(group) ==> p in vFiles
  {
    FilterMember(raw, HasMany, group);
    forall f | f in group ensures f in files {
      GroupMembers(raw, files, group, f);
    }
    forall p | p in PathsOf(group) ensures p in vFiles {
      PathsOfMember(group, p);
    }
  }
}
