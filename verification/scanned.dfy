/** What a scan followed by MakeBundles produces: databases that describe the scanned folder. What has to
    be free of collisions for them, and what follows for their bundles. */
module ScannedDatabases {
  import opened Primitives
  import opened Seqs
  import opened Types
  import opened Paths
  import opened Splitting
  import opened Grouping
  import opened GroupingLaws
  import opened Bundling
  import opened BundleLaws
  import opened ScanningFile
  import opened ScanningFolder
  import opened CleanLaws
  import opened Consistency

  // ----- the scanned database describes the disk -----

  /** The contents of the files of a folder. */
  function DiskOf(walk: seq<Entry>): Disk {
    if walk == [] then map[]
    else
      var e := Last(walk);
      if e.isDir then DiskOf(Init(walk)) else DiskOf(Init(walk))[e.relPath := e.content]
  }

  lemma {:induction false} DiskOfEntry(walk: seq<Entry>, e: Entry)
    requires DistinctPaths(walk) && e in walk && !e.isDir
    ensures e.relPath in DiskOf(walk) && DiskOf(walk)[e.relPath] == e.content
  {
    assert walk == Init(walk) + [Last(walk)];
    if e == Last(walk) {
    } else {
      var i :| 0 <= i < |walk| - 1 && walk[i] == e;
      assert e.relPath != walk[|walk| - 1].relPath;
      DiskOfEntry(Init(walk), e);
    }
  }

  lemma FreshIsRecorded(c: Crypto, walk: seq<Entry>, k: string, f: VirtFile)
    requires Snapshot(walk) && k in FreshScan(c, walk) && Unlink(f) == FreshScan(c, walk)[k]
    ensures Recorded(c, DiskOf(walk), k, f)
  {
    hide FreshScan, ScannedFile, DiskOf;
    FreshScanLookup(c, walk, k);
    var e :| e in walk && e.relPath == k;
    assert f.parts == Unlink(f).parts && f.relPath == Unlink(f).relPath && f.isDir == Unlink(f).isDir && f.mTime == Unlink(f).mTime;
    if !e.isDir {
      DiskOfEntry(walk, e);
    }
    FreshFileFields(c, e);
  }

  lemma FreshFileFields(c: Crypto, e: Entry)
    ensures FreshFile(c, e).relPath == e.relPath && FreshFile(c, e).isDir == e.isDir && FreshFile(c, e).mTime == e.mTime
    ensures e.isDir ==> FreshFile(c, e).parts == []
  {
  }

  lemma FolderNotEligible(c: Crypto, e: Entry)
    ensures e.isDir ==> !Eligible(FreshFile(c, e))
  {
  }

  /** Whatever links and bundles are made, a database of this scan describes the disk. */
  lemma ScanDescribes(c: Crypto, walk: seq<Entry>, db: Db)
    requires Snapshot(walk) && ResetLinks(db.vFiles) == FreshScan(c, walk) && WellBundled(c, db)
    ensures Describes(c, DiskOf(walk), db) && KeysMatch(db.vFiles)
  {
    hide FreshScan, DiskOf, WellBundled, Recorded;
    forall k | k in db.vFiles ensures Recorded(c, DiskOf(walk), k, db.vFiles[k]) && db.vFiles[k].relPath == k {
      assert k in ResetLinks(db.vFiles) && ResetLinks(db.vFiles)[k] == Unlink(db.vFiles[k]);
      FreshIsRecorded(c, walk, k, db.vFiles[k]);
      RecordedPath(c, DiskOf(walk), k, db.vFiles[k]);
    }
  }

  lemma RecordedPath(c: Crypto, disk: Disk, k: string, f: VirtFile)
    requires Recorded(c, disk, k, f)
    ensures f.relPath == k
  {
  }

  lemma NoBundlesWell(c: Crypto, vFiles: map<string, VirtFile>)
    requires ResetLinks(vFiles) == vFiles
    ensures WellBundled(c, Db(vFiles, map[]))
  {
    forall k | k in vFiles ensures vFiles[k].alsoInBundle == "" {
      assert ResetLinks(vFiles)[k] == Unlink(vFiles[k]);
    }
  }

  /** Has the scanned database been bundled, with any result that findGroups may have? */
  ghost predicate Bundled(c: Crypto, scanned: map<string, VirtFile>, db: Db) {
    exists groups, files, raw, left ::
      Found(scanned, groups, files, raw, left) && db == Db(Linked(c, scanned, groups), BundleTable(c, groups))
  }

  lemma IsBundled(c: Crypto, scanned: map<string, VirtFile>, db: Db, groups: seq<seq<VirtFile>>, files: seq<VirtFile>,
                  raw: seq<seq<VirtFile>>, left: seq<VirtFile>)
    requires Found(scanned, groups, files, raw, left)
    requires db.vFiles == Linked(c, scanned, groups) && db.bundles == BundleTable(c, groups)
    ensures Bundled(c, scanned, db)
  {
    hide Found, Linked, BundleTable;
  }

  /** The databases that a scan of this folder ends with, with or without bundles. */
  ghost predicate Produced(c: Crypto, walk: seq<Entry>, db: Db) {
    db == Db(FreshScan(c, walk), map[]) || Bundled(c, FreshScan(c, walk), db)
  }

  /** They differ from the scan in links and bundles only, and describe the disk. */
  lemma ProducedDescribes(c: Crypto, walk: seq<Entry>, db: Db)
    requires Snapshot(walk) && Produced(c, walk, db)
    ensures ResetLinks(db.vFiles) == FreshScan(c, walk) && WellBundled(c, db)
    ensures Describes(c, DiskOf(walk), db) && KeysMatch(db.vFiles)
  {
    hide *;
    var scanned := FreshScan(c, walk);
    FreshScanUnlinked(c, walk);
    FreshKeysMatch(c, walk);
    ProducedIs(c, walk, db);
    if db == Db(scanned, map[]) {
      NoBundlesWell(c, scanned);
    } else {
      var groups, files, raw, left := FoundOf(c, FreshScan(c, walk), db);
      FoundIsProper(scanned, groups, files, raw, left);
      MakeBundlesInvariant(c, scanned, groups);
    }
    ScanDescribes(c, walk, db);
  }

  lemma ProducedIs(c: Crypto, walk: seq<Entry>, db: Db)
    requires Produced(c, walk, db)
    ensures db == Db(FreshScan(c, walk), map[]) || Bundled(c, FreshScan(c, walk), db)
  {
    hide Bundled, FreshScan;
  }

  /** The groups that a database was bundled with. */
  lemma FoundOf(c: Crypto, vFiles: map<string, VirtFile>, db: Db)
    returns (groups: seq<seq<VirtFile>>, files: seq<VirtFile>, raw: seq<seq<VirtFile>>, left: seq<VirtFile>)
    requires Bundled(c, vFiles, db)
    ensures Found(vFiles, groups, files, raw, left) && db == Db(Linked(c, vFiles, groups), BundleTable(c, groups))
  {
    hide Found, Linked, BundleTable;
    groups, files, raw, left :|
      Found(vFiles, groups, files, raw, left) && db == Db(Linked(c, vFiles, groups), BundleTable(c, groups));
  }

  lemma {:induction false} FreshKeysMatch(c: Crypto, walk: seq<Entry>)
    ensures KeysMatch(FreshScan(c, walk))
  {
    if walk == [] {
    } else {
      FreshKeysMatch(c, Init(walk));
    }
  }

  // ----- what is hashed -----

  /** The parts of a file and their encrypted forms. */
  ghost function PartStrings(c: Crypto, e: Entry): set<Bytes> {
    if e.isDir then {} else ChunksUpTo(e.content, PartCount(|e.content|)) + CiphersUpTo(c, e.content, PartCount(|e.content|))
  }

  ghost function ChunksUpTo(content: Bytes, n: nat): set<Bytes> {
    if n == 0 then {} else ChunksUpTo(content, n - 1) + {Chunk(content, n - 1)}
  }

  ghost function CiphersUpTo(c: Crypto, content: Bytes, n: nat): set<Bytes> {
    if n == 0 then {}
    else CiphersUpTo(c, content, n - 1) + {Cipher(c, UsesCompression(c, content), Chunk(content, n - 1))}
  }

  ghost function WalkStrings(c: Crypto, walk: seq<Entry>): set<Bytes> {
    if walk == [] then {} else WalkStrings(c, Init(walk)) + PartStrings(c, Last(walk))
  }

  /** For each group the hashes of its files. */
  ghost function GroupStrings(groups: set<seq<VirtFile>>): set<Bytes> {
    set g | g in groups :: Flatten(PlainHashes(g))
  }

  /** Everything that is hashed for a folder, when it is scanned, bundled and uploaded. */
  ghost function HashedStrings(c: Crypto, walk: seq<Entry>, files: seq<VirtFile>): set<Bytes> {
    WalkStrings(c, walk) + GroupStrings(BundleGroups(files))
  }

  /** None of these strings collide. The candidates are determined by the folder. */
  ghost predicate NoCollisions(c: Crypto, walk: seq<Entry>) {
    forall files :: IsCandidates(FreshScan(c, walk), files) ==> HashedStrings(c, walk, files) <= c.occurs
  }

  function PartTotal(walk: seq<Entry>): nat {
    if walk == [] then 0
    else PartTotal(Init(walk)) + if Last(walk).isDir then 0 else PartCount(|Last(walk).content|)
  }

  /** The hypothesis is about few strings: two for each part, and fewer than one for each candidate. */
  lemma FewStrings(c: Crypto, walk: seq<Entry>, files: seq<VirtFile>)
    requires Snapshot(walk) && IsCandidates(FreshScan(c, walk), files)
    ensures |HashedStrings(c, walk, files)| <= 2 * PartTotal(walk) + |files|
  {
    hide IsCandidates, GroupStrings, FreshScan;
    WalkStringsCount(c, walk);
    GroupStringsCount(c, walk, files);
    UnionCount(WalkStrings(c, walk), GroupStrings(BundleGroups(files)));
  }

  lemma UnionCount<T>(a: set<T>, b: set<T>)
    ensures |a + b| <= |a| + |b|
  {
    assert a + b == a + (b - a) && a !! (b - a);
    assert b == (b - a) + (a * b);
  }

  lemma {:induction false} PartCounts(c: Crypto, content: Bytes, n: nat)
    ensures |ChunksUpTo(content, n)| <= n && |CiphersUpTo(c, content, n)| <= n
  {
    hide Chunk, Cipher, UsesCompression;
    if n == 0 {
    } else {
      PartCounts(c, content, n - 1);
    }
  }

  lemma {:induction false} PartAmong(c: Crypto, content: Bytes, n: nat, i: nat)
    requires i < n
    ensures Chunk(content, i) in ChunksUpTo(content, n)
    ensures Cipher(c, UsesCompression(c, content), Chunk(content, i)) in CiphersUpTo(c, content, n)
  {
    hide Chunk, Cipher, UsesCompression;
    if i == n - 1 {
    } else {
      PartAmong(c, content, n - 1, i);
    }
  }

  lemma {:induction false} WalkStringsCount(c: Crypto, walk: seq<Entry>)
    ensures |WalkStrings(c, walk)| <= 2 * PartTotal(walk)
  {
    hide ChunksUpTo, CiphersUpTo, PartCount;
    if walk == [] {
    } else {
      var e := Last(walk);
      var n := PartCount(|e.content|);
      WalkStringsCount(c, Init(walk));
      PartCounts(c, e.content, n);
      UnionCount(ChunksUpTo(e.content, n), CiphersUpTo(c, e.content, n));
      UnionCount(WalkStrings(c, Init(walk)), PartStrings(c, e));
    }
  }

  lemma GroupStringsCount(c: Crypto, walk: seq<Entry>, files: seq<VirtFile>)
    requires Snapshot(walk) && IsCandidates(FreshScan(c, walk), files)
    ensures |GroupStrings(BundleGroups(files))| <= |files|
  {
    hide PlainHashes, FreshScan, BundleGroups, Flatten;
    FreshKeysMatch(c, walk);
    forall g | g in BundleGroups(files) ensures g != [] && g[0] in SetOf(files) {
      GroupNonEmpty(files, g);
      Partition(FreshScan(c, walk), files, g[0]);
    }
    forall g, h | g in BundleGroups(files) && h in BundleGroups(files) && g[0] == h[0] ensures g == h {
      GroupNonEmpty(files, g);
      GroupNonEmpty(files, h);
      Partition(FreshScan(c, walk), files, g[0]);
    }
    OneEach(BundleGroups(files), SetOf(files));
    HashCount(BundleGroups(files));
    SetOfCount(files);
  }

  lemma GroupNonEmpty(files: seq<VirtFile>, g: seq<VirtFile>)
    requires g in BundleGroups(files)
    ensures |g| > 1 && g[0] in g
  {
    hide SplitGroups;
  }

  /** Groups that begin with different files are at most as many as the files. */
  lemma {:induction false} OneEach(groups: set<seq<VirtFile>>, files: set<VirtFile>)
    requires forall g :: g in groups ==> g != [] && g[0] in files
    requires forall g, h :: g in groups && h in groups && g[0] == h[0] ==> g == h
    ensures |groups| <= |files|
  {
    if groups == {} {
    } else {
      var g :| g in groups;
      OneEach(groups - {g}, files - {g[0]});
    }
  }

  lemma {:induction false} HashCount(groups: set<seq<VirtFile>>)
    ensures |GroupStrings(groups)| <= |groups|
  {
    hide Flatten, PlainHashes;
    if groups == {} {
      assert GroupStrings(groups) == {};
    } else {
      var g :| g in groups;
      HashCount(groups - {g});
      assert GroupStrings(groups) == GroupStrings(groups - {g}) + {Flatten(PlainHashes(g))};
      UnionCount(GroupStrings(groups - {g}), {Flatten(PlainHashes(g))});
    }
  }

  lemma {:induction false} SetOfCount<T>(s: seq<T>)
    ensures |SetOf(s)| <= |s|
  {
    if s == [] {
      assert SetOf(s) == {};
    } else {
      SetOfCount(Init(s));
      assert s == Init(s) + [Last(s)];
      assert SetOf(s) == SetOf(Init(s)) + {Last(s)};
      UnionCount(SetOf(Init(s)), {Last(s)});
    }
  }

  lemma {:induction false} EntryStrings(c: Crypto, walk: seq<Entry>, e: Entry)
    requires e in walk
    ensures PartStrings(c, e) <= WalkStrings(c, walk)
  {
    hide PartStrings;
    assert walk == Init(walk) + [Last(walk)];
    if e == Last(walk) {
    } else {
      EntryStrings(c, Init(walk), e);
    }
  }

  /** The candidates of a folder can be listed. */
  lemma CandidatesExist(vFiles: map<string, VirtFile>) returns (files: seq<VirtFile>)
    requires KeysMatch(vFiles)
    ensures IsCandidates(vFiles, files)
  {
    files := ListEligible(vFiles, vFiles.Keys);
    SortByPathSorts(files);
    var unsorted := files;
    files := SortByPath(unsorted);
    forall f ensures f in files <==> f in unsorted {
      assert f in files <==> f in multiset(files);
      assert f in unsorted <==> f in multiset(unsorted);
    }
  }

  lemma {:induction false} ListEligible(vFiles: map<string, VirtFile>, keys: set<string>) returns (files: seq<VirtFile>)
    requires KeysMatch(vFiles) && keys <= vFiles.Keys
    ensures forall i, j :: 0 <= i < j < |files| ==> files[i].relPath != files[j].relPath
    ensures forall f :: f in files <==> f.relPath in keys && vFiles[f.relPath] == f && Eligible(f)
  {
    hide Eligible;
    if keys == {} {
      files := [];
    } else {
      var k :| k in keys;
      files := ListEligible(vFiles, keys - {k});
      assert forall i :: 0 <= i < |files| ==> files[i] in files;
      if Eligible(vFiles[k]) {
        files := files + [vFiles[k]];
      }
    }
  }

  /** Every string that is hashed for a produced database is among them. */
  lemma NothingCollides(c: Crypto, walk: seq<Entry>, db: Db)
    requires Snapshot(walk) && NoCollisions(c, walk) && Produced(c, walk, db)
    ensures DataOccurs(c, DiskOf(walk), db)
  {
    hide FreshScan, HashedStrings, Produced, DiskOf, Chunk, Cipher, PartCount, FilesAt, PlainHashes, Flatten, NoCollisions;
    ProducedDescribes(c, walk, db);
    forall k, i | k in db.vFiles && !db.vFiles[k].isDir && k in DiskOf(walk) && 0 <= i < PartCount(|DiskOf(walk)[k]|)
      ensures Chunk(DiskOf(walk)[k], i) in c.occurs
      ensures Cipher(c, db.vFiles[k].useCompression, Chunk(DiskOf(walk)[k], i)) in c.occurs
    {
      PartOccurs(c, walk, db, k, i);
    }
    forall id | id in db.bundles && forall p :: p in db.bundles[id].content ==> p in db.vFiles
      ensures Flatten(PlainHashes(FilesAt(db.vFiles, db.bundles[id].content))) in c.occurs
    {
      BundleOccurs(c, walk, db, id);
    }
  }

  lemma PartOccurs(c: Crypto, walk: seq<Entry>, db: Db, k: string, i: nat)
    requires Snapshot(walk) && NoCollisions(c, walk) && ResetLinks(db.vFiles) == FreshScan(c, walk)
    requires k in db.vFiles && !db.vFiles[k].isDir && k in DiskOf(walk) && i < PartCount(|DiskOf(walk)[k]|)
    ensures Chunk(DiskOf(walk)[k], i) in c.occurs
    ensures Cipher(c, db.vFiles[k].useCompression, Chunk(DiskOf(walk)[k], i)) in c.occurs
  {
    hide FreshScan, DiskOf, Chunk, Cipher, PartCount, UsesCompression, PartsOf, ChunksUpTo, CiphersUpTo, IsCandidates, GroupStrings, KeysMatch;
    assert k in ResetLinks(db.vFiles) && FreshScan(c, walk)[k] == Unlink(db.vFiles[k]);
    FreshScanLookup(c, walk, k);
    var e :| e in walk && e.relPath == k;
    FreshFileFields(c, e);
    DiskOfEntry(walk, e);
    EntryStrings(c, walk, e);
    FreshKeysMatch(c, walk);
    var files := CandidatesExist(FreshScan(c, walk));
    assert PartStrings(c, e) <= c.occurs;
    PartAmong(c, e.content, PartCount(|e.content|), i);
  }

  lemma BundleOccurs(c: Crypto, walk: seq<Entry>, db: Db, id: string)
    requires Snapshot(walk) && NoCollisions(c, walk) && Produced(c, walk, db)
    requires id in db.bundles && forall p :: p in db.bundles[id].content ==> p in db.vFiles
    ensures Flatten(PlainHashes(FilesAt(db.vFiles, db.bundles[id].content))) in c.occurs
  {
    hide FreshScan, Linked, BundleTable, BundleId, FilesAt, PlainHashes, Flatten, PathsOf, Bundled, Found, WalkStrings, BundleGroups;
    var scanned := FreshScan(c, walk);
    var groups, files, raw, left := FoundOf(c, FreshScan(c, walk), db);
    FreshKeysMatch(c, walk);
    FoundIsProper(scanned, groups, files, raw, left);
    var i := TableLookup(c, groups, id);
    BundleHashes(c, scanned, groups, i);
    BundleOfFields(c, groups[i]);
    FoundGroups(scanned, groups, files, raw, left);
    assert groups[i] in groups;
    assert Flatten(PlainHashes(groups[i])) in GroupStrings(BundleGroups(files));
  }

  lemma BundleHashes(c: Crypto, vFiles: map<string, VirtFile>, groups: seq<seq<VirtFile>>, i: nat)
    requires KeysMatch(vFiles) && Proper(vFiles, groups) && i < |groups|
    ensures forall p :: p in PathsOf(groups[i]) ==> p in Linked(c, vFiles, groups)
    ensures PlainHashes(FilesAt(Linked(c, vFiles, groups), PathsOf(groups[i]))) == PlainHashes(groups[i])
  {
    hide PathsOf, LinkOf, FilesAt, PlainHashes;
    forall p | p in PathsOf(groups[i]) ensures p in vFiles {
      PathsOfMember(groups[i], p);
    }
    RelinkedGroup(vFiles, Linked(c, vFiles, groups), groups[i]);
  }

  // ----- bundles of a scan -----

  /** What is bundled is small on the storage: a single part is never stored in more bytes than it has. */
  lemma ScannedAreSmall(c: Crypto, walk: seq<Entry>, files: seq<VirtFile>)
    requires c.Sound() && Snapshot(walk) && IsCandidates(FreshScan(c, walk), files)
    ensures SmallOnStorage(files)
    ensures forall g :: g in RawGroups(files) ==> SmallOnStorage(g)
  {
    hide FreshScan, ScannedFile, RawGroups, StoredSize, Sorted;
    forall f | f in files ensures StoredSize(f) <= f.fileSize < MAX_FILE_SIZE_TO_BUNDLE {
      FreshScanLookup(c, walk, f.relPath);
      var e :| e in walk && e.relPath == f.relPath;
      FreshFileFields(c, e);
      StorageSizes(c, e.relPath, e.mTime, e.content);
    }
    forall g | g in RawGroups(files) ensures SmallOnStorage(g) {
      forall f | f in g ensures StoredSize(f) <= f.fileSize < MAX_FILE_SIZE_TO_BUNDLE {
        RawMembers(files, g, f);
      }
    }
  }

  /** Every bundle of a scan lists at least two files and is at most two parts large; Clean takes its file
      for a bundle. */
  lemma ScannedBundleSize(c: Crypto, walk: seq<Entry>, db: Db, id: string)
    requires c.Sound() && Snapshot(walk) && Produced(c, walk, db) && id in db.bundles
    ensures NamesBundle(db.bundles[id].part)
    ensures |db.bundles[id].content| > 1 && db.bundles[id].part.storageSize <= 2 * PART_SIZE
  {
    hide FreshScan, Linked, BundleTable, BundleId, PlainHashes, PathsOf, Bundled, Found, BundleGroups, IsCandidates, StorageSum;
    var scanned := FreshScan(c, walk);
    var groups, files, raw, left := FoundOf(c, FreshScan(c, walk), db);
    var i := TableLookup(c, groups, id);
    FoundGroups(scanned, groups, files, raw, left);
    assert groups[i] in groups;
    ScannedAreSmall(c, walk, files);
    BundleGroupSize(files, groups[i]);
    PathsOfAt(groups[i]);
    BundleNamed(c, groups[i]);
  }

  lemma BundleNamed(c: Crypto, group: seq<VirtFile>)
    ensures NamesBundle(BundleOf(c, group).part)
  {
    hide PlainHashes, StorageSum, PathsOf, Flatten;
  }

  /** Which bundled scans list every linked file in its bundle: those of folders without two bundle groups
      of the same contents in the same order. */
  lemma ScannedLinkedIsListedIff(c: Crypto, walk: seq<Entry>, files: seq<VirtFile>, db: Db)
    requires c.CollisionFree() && Snapshot(walk) && NoCollisions(c, walk)
    requires IsCandidates(FreshScan(c, walk), files) && Bundled(c, FreshScan(c, walk), db)
    ensures LinkedIsListed(db) <==> TwinFree(files)
  {
    hide FreshScan, Linked, BundleTable, LinkedIsListed, TwinFree, NoCollisions, IsCandidates;
    var scanned := FreshScan(c, walk);
    var groups, files2, raw, left := FoundOf(c, scanned, db);
    SameCandidates(scanned, files, files2);
    FreshKeysMatch(c, walk);
    FoundIsProper(scanned, groups, files2, raw, left);
    ScannedHashesOccur(c, walk, groups, files2, raw, left);
    NoTwinsIff(scanned, groups, files2, raw, left);
    LinkedIsListedIff(c, scanned, groups);
  }

  lemma SameCandidates(vFiles: map<string, VirtFile>, a: seq<VirtFile>, b: seq<VirtFile>)
    requires IsCandidates(vFiles, a) && IsCandidates(vFiles, b)
    ensures a == b
  {
    hide Eligible, Sorted;
    SortedUnique(a, b);
  }

  lemma ScannedHashesOccur(c: Crypto, walk: seq<Entry>, groups: seq<seq<VirtFile>>, files: seq<VirtFile>,
                           raw: seq<seq<VirtFile>>, left: seq<VirtFile>)
    requires Snapshot(walk) && NoCollisions(c, walk) && Found(FreshScan(c, walk), groups, files, raw, left)
    ensures GroupHashesOccur(c, groups)
  {
    hide FreshScan, PlainHashes, Flatten, BundleGroups, Found, WalkStrings;
    forall i | 0 <= i < |groups|
      ensures Flatten(PlainHashes(groups[i])) in c.occurs && forall h :: h in PlainHashes(groups[i]) ==> |h| == 64
    {
      FoundGroups(FreshScan(c, walk), groups, files, raw, left);
      assert groups[i] in groups;
      assert Flatten(PlainHashes(groups[i])) in GroupStrings(BundleGroups(files));
      GroupInDb(FreshScan(c, walk), groups, files, raw, left, groups[i]);
      ScannedHashLengths(c, walk, groups[i]);
    }
  }

  lemma {:induction false} ScannedHashLengths(c: Crypto, walk: seq<Entry>, group: seq<VirtFile>)
    requires Snapshot(walk) && OnePartEach(group)
    requires forall f :: f in group ==> f.relPath in FreshScan(c, walk) && FreshScan(c, walk)[f.relPath] == f
    ensures forall h :: h in PlainHashes(group) ==> |h| == 64
  {
    hide FreshScan;
    if group == [] {
    } else {
      assert group == Init(group) + [Last(group)];
      ScannedHashLengths(c, walk, Init(group));
      var f := Last(group);
      assert f in group;
      FreshScanLookup(c, walk, f.relPath);
      var e :| e in walk && e.relPath == f.relPath;
      FreshFileFields(c, e);
    }
  }
}
