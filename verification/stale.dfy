/** webdav/file.go, Read: a file that was opened before the served database was replaced is read with its
    older record and the newer database. What it then reads, exactly when that is right, and a folder for
    which it is wrong. */
module StaleRecords {
  import opened Primitives
  import opened Ctr
  import opened Seqs
  import opened Types
  import opened Paths
  import opened Splitting
  import opened Grouping
  import opened GroupingLaws
  import opened Bundling
  import opened BundleLaws
  import opened ScanningFile
  import opened ScanningFolder
  import opened Storage
  import opened Cleaning
  import opened Protocol
  import opened Consistency
  import opened ScannedDatabases
  import opened Readers
  import opened Opening
  import opened RoundTrip

  // ----- what is read -----

  /** What a bundle holds: the stored forms of its files on the current disk. */
  ghost function BundleBytes(c: Crypto, disk: Disk, bundle: Bundle): Bytes {
    if forall p :: p in bundle.content ==> p in disk then Flatten(StoredFormsOf(c, ContentsAt(disk, bundle.content)))
    else []
  }

  /** Any record that is read from a bundle reads the current bytes of the bundle at its range. */
  lemma BundleRangeReads(c: Crypto, disk: Disk, db: Db, list: seq<StorageFile>, stale: VirtFile, src: Source)
    requires SoundDb(c, disk, db) && SoundStorage(c, SetOf(list)) && FromBundle(list, db, stale, src)
    ensures Decrypted(c, src) == Range(BundleBytes(c, disk, db.bundles[stale.alsoInBundle]), src.off, src.n)
    ensures Size(src.file) == |BundleBytes(c, disk, db.bundles[stale.alsoInBundle])|
  {
    hide SoundDb, SoundStorage, Position, Recorded, StoredFormsOf, ContentsAt, MatchesPart, Crypt, Range, BundleNameFor, ContentsOccur;
    var id := stale.alsoInBundle;
    BuiltBundle(c, disk, db, id);
    var contents := ContentsAt(disk, db.bundles[id].content);
    var plain := Flatten(StoredFormsOf(c, contents));
    BundleFileContent(c, SetOf(list), contents, db.bundles[id].part, src.file);
    DecryptRange(c, src.key, Crypt(c, src.key, plain, 0), src.off, src.n);
    CryptTwice(c, src.key, plain, 0);
  }

  /** A record that is read from its part reads the content that it was scanned from. */
  lemma PartReadsOld(c: Crypto, past: Disk, list: seq<StorageFile>, stale: VirtFile, src: Source)
    requires c.CollisionFree() && SoundStorage(c, SetOf(list)) && FromPart(list, stale, src)
    requires Recorded(c, past, stale.relPath, stale) && stale.relPath in past
    requires Cipher(c, stale.useCompression, past[stale.relPath]) in c.occurs
    ensures Decrypted(c, src) == StoredFormOf(c, past[stale.relPath])
  {
    hide Recorded, BundleNameFor, ContentsOccur, BundleCipherFor, Crypt, StoredForm;
    var content := past[stale.relPath];
    OnePartFile(c, past, stale.relPath, stale);
    var f := src.file;
    assert f in SetOf(list) && f.md5 == c.md5(f.content) && |f.name| == 128;
    assert f.content == Cipher(c, stale.useCompression, content);
    WholeRangeOf(f.content);
    CryptTwice(c, src.key, StoredFormOf(c, content), 0);
  }

  lemma WholeRangeOf(b: Bytes)
    ensures Range(b, 0, |b|) == b
  {
  }

  /** Does the bundle that the record links to hold these bytes, where the path has its position in it and in
      the size that the record says? */
  ghost predicate HoldsAtPosition(c: Crypto, disk: Disk, db: Db, stale: VirtFile, bytes: Bytes) {
    && stale.alsoInBundle in db.bundles
    && var bundle := db.bundles[stale.alsoInBundle];
      exists index: nat, off: nat ::
        Position(bundle, db.vFiles, stale, index, off) &&
        Range(BundleBytes(c, disk, bundle), off, StoredSize(stale)) == bytes
  }

  lemma OnePosition(bundle: Bundle, vFiles: map<string, VirtFile>, file: VirtFile, i: nat, off: nat, j: nat, off2: nat)
    requires Position(bundle, vFiles, file, i, off) && Position(bundle, vFiles, file, j, off2)
    ensures i == j && off == off2
  {
    hide StoredBefore;
    assert !(i < j) && !(j < i);
  }

  /** The position is the one that was found. */
  lemma HeldInRange(c: Crypto, disk: Disk, db: Db, list: seq<StorageFile>, stale: VirtFile, src: Source, bytes: Bytes)
    requires FromBundle(list, db, stale, src)
    ensures HoldsAtPosition(c, disk, db, stale, bytes) <==>
            Range(BundleBytes(c, disk, db.bundles[stale.alsoInBundle]), src.off, src.n) == bytes
  {
    hide Position, MatchesPart, Range, BundleBytes;
    var bundle := db.bundles[stale.alsoInBundle];
    var i: nat :| Position(bundle, db.vFiles, stale, i, src.off);
    forall j: nat, off: nat | Position(bundle, db.vFiles, stale, j, off) ensures off == src.off {
      OnePosition(bundle, db.vFiles, stale, i, src.off, j, off);
    }
  }

  /** An older record, of whatever content and size, is read right with a newer database if and only if its
      bundle cannot be used, or holds the old stored form at the position of the path. */
  lemma StaleRecordReads(c: Crypto, past: Disk, disk: Disk, db: Db, list: seq<StorageFile>, stale: VirtFile, src: Source)
    requires SoundDb(c, disk, db) && SoundStorage(c, SetOf(list)) && Chosen(list, db, stale, src)
    requires Recorded(c, past, stale.relPath, stale) && stale.relPath in past
    requires Cipher(c, stale.useCompression, past[stale.relPath]) in c.occurs
    ensures Decrypted(c, src) == StoredFormOf(c, past[stale.relPath]) <==>
            !BundleUsable(list, db, stale) || HoldsAtPosition(c, disk, db, stale, StoredFormOf(c, past[stale.relPath]))
  {
    hide *;
    NothingHashedCollides(c, disk, db);
    ChosenFrom(list, db, stale, src);
    if BundleUsable(list, db, stale) {
      BundleRangeReads(c, disk, db, list, stale, src);
      HeldInRange(c, disk, db, list, stale, src, StoredFormOf(c, past[stale.relPath]));
    } else {
      PartReadsOld(c, past, list, stale, src);
    }
  }

  lemma NothingHashedCollides(c: Crypto, disk: Disk, db: Db)
    requires SoundDb(c, disk, db)
    ensures c.CollisionFree()
  {
  }

  lemma ChosenFrom(list: seq<StorageFile>, db: Db, file: VirtFile, src: Source)
    requires Chosen(list, db, file, src)
    ensures BundleUsable(list, db, file) ==> FromBundle(list, db, file, src) && file.alsoInBundle in db.bundles
    ensures !BundleUsable(list, db, file) ==> FromPart(list, file, src)
  {
    hide FromPart, Position, Resolves;
  }

  /** The range begins where the current stored form of the path lies. */
  lemma StaleRangeBegins(c: Crypto, disk: Disk, db: Db, list: seq<StorageFile>, stale: VirtFile, src: Source)
    requires SoundDb(c, disk, db) && FromBundle(list, db, stale, src)
    ensures stale.relPath in disk
    ensures var held, now := BundleBytes(c, disk, db.bundles[stale.alsoInBundle]), StoredFormOf(c, disk[stale.relPath]);
            src.off + |now| <= |held| && held[src.off..src.off + |now|] == now
  {
    hide SoundDb, MatchesPart, Recorded, StoredFormsOf, ContentsAt, StoredFormOf, Flatten;
    var id := stale.alsoInBundle;
    var index: nat :| Position(db.bundles[id], db.vFiles, stale, index, src.off);
    KeyIsPathOf(c, disk, db, db.bundles[id].content[index]);
    var now := db.vFiles[stale.relPath];
    SamePosition(db.bundles[id], db.vFiles, stale, now, index, src.off);
    BundleSlot(c, disk, db, id, now, index, src.off);
    PieceOfFlatten(StoredFormsOf(c, ContentsAt(disk, db.bundles[id].content)), index);
  }

  lemma KeyIsPathOf(c: Crypto, disk: Disk, db: Db, k: string)
    requires SoundDb(c, disk, db) && k in db.vFiles
    ensures db.vFiles[k].relPath == k && Fits(c, disk, db, db.vFiles[k])
  {
    hide DataOccurs, BundlesBuilt;
    KeyIsPath(c, disk, db, k);
  }

  lemma SamePosition(bundle: Bundle, vFiles: map<string, VirtFile>, a: VirtFile, b: VirtFile, index: nat, off: nat)
    requires a.relPath == b.relPath && Position(bundle, vFiles, a, index, off)
    ensures Position(bundle, vFiles, b, index, off)
  {
    hide StoredBefore;
  }

  /** So, when a bundle is read and the stored form has not become shorter: the read is right if and only if
      the old stored form is a prefix of the new one. An uncompressed file that was appended to is read
      right, a stored form changed at the same size is not. */
  lemma StaleReadsPrefix(c: Crypto, past: Disk, disk: Disk, db: Db, list: seq<StorageFile>, stale: VirtFile, src: Source)
    requires SoundDb(c, disk, db) && SoundStorage(c, SetOf(list)) && FromBundle(list, db, stale, src)
    requires Recorded(c, past, stale.relPath, stale) && stale.relPath in past
    ensures stale.relPath in disk
    ensures var before, now := StoredFormOf(c, past[stale.relPath]), StoredFormOf(c, disk[stale.relPath]);
            |before| <= |now| ==> (Decrypted(c, src) == before <==> before <= now)
  {
    hide *;
    BundleRangeReads(c, disk, db, list, stale, src);
    StaleRangeBegins(c, disk, db, list, stale, src);
    BundleRangeSize(list, db, stale, src);
    OnePartFile(c, past, stale.relPath, stale);
    var before, now := StoredFormOf(c, past[stale.relPath]), StoredFormOf(c, disk[stale.relPath]);
    var held := BundleBytes(c, disk, db.bundles[stale.alsoInBundle]);
    PrefixOfRange(held, src.off, src.n, now);
    if |before| <= |now| {
      assert before <= now <==> now[..|before|] == before;
    }
  }

  lemma BundleRangeSize(list: seq<StorageFile>, db: Db, file: VirtFile, src: Source)
    requires FromBundle(list, db, file, src)
    ensures |file.parts| == 1 && src.n == StoredSize(file) && file.alsoInBundle in db.bundles
  {
    hide Position, MatchesPart;
  }

  lemma PrefixOfRange(held: Bytes, off: nat, n: nat, now: Bytes)
    requires off + |now| <= |held| && held[off..off + |now|] == now
    ensures n <= |now| ==> Range(held, off, n) == now[..n]
  {
    if n <= |now| {
      assert held[off..off + n] == held[off..off + |now|][..n];
    }
  }

  // ----- a folder for which it is wrong -----

  const CONTENT_SIZE: nat := 2 * 1024 * 1024

  function Content(b: bv8): Bytes {
    seq(CONTENT_SIZE, _ => b)
  }

  /** The two contents were written at different times. */
  function TimeOf(content: Bytes): int {
    if content != [] && content[0] == 0 then 1 else 2
  }

  function FileEntry(name: char, content: Bytes): Entry {
    Entry([name], false, |content|, TimeOf(content), content, [])
  }

  /** A folder with two files, of the first and the second content. */
  function TwoFiles(p: char, q: char): seq<Entry> {
    [Entry(".", true, 0, 0, [], [FolderEl([p], false), FolderEl([q], false)])] + [FileEntry(p, Content(0))] + [FileEntry(q, Content(1))]
  }

  function TwoRecords(c: Crypto, p: char, q: char): seq<VirtFile> {
    [ScannedFile(c, [p], TimeOf(Content(0)), Content(0))] + [ScannedFile(c, [q], TimeOf(Content(1)), Content(1))]
  }

  lemma RecordFacts(c: Crypto, path: string, content: Bytes)
    requires |content| == CONTENT_SIZE
    ensures var f := ScannedFile(c, path, TimeOf(content), content);
            && f.relPath == path && !f.isDir && !f.useCompression && f.alsoInBundle == "" && f.fileSize == CONTENT_SIZE
            && f.parts == [PartOf(c, false, content)] && StoredSize(f) == CONTENT_SIZE && Eligible(f)
    ensures StoredFormOf(c, content) == content && !UsesCompression(c, content)
    ensures PlainHash(ScannedFile(c, path, TimeOf(content), content)) == c.sha512(content)
  {
    assert PART_SIZE == 1073741824 && MAX_FILE_SIZE_TO_BUNDLE == 12582912 && MAX_FILE_SIZE_FOR_COMPRESSION == 1048576;
    assert Chunk(content, 0) == content && PartCount(|content|) == 1;
  }

  lemma TwoSnapshot(p: char, q: char)
    requires '.' < p < q
    ensures Snapshot(TwoFiles(p, q))
    ensures forall e :: e in TwoFiles(p, q) && !e.isDir <==> e == FileEntry(p, Content(0)) || e == FileEntry(q, Content(1))
  {
    var walk := TwoFiles(p, q);
    assert walk[0].relPath[0] == '.' && walk[1].relPath[0] == p && walk[2].relPath[0] == q;
  }

  lemma TwoCandidates(c: Crypto, p: char, q: char)
    requires '.' < p < q
    ensures IsCandidates(FreshScan(c, TwoFiles(p, q)), TwoRecords(c, p, q))
  {
    hide FreshScan, ScannedFile, TwoFiles, Eligible, FreshFile, StoredFormOf, UsesCompression;
    var walk, files := TwoFiles(p, q), TwoRecords(c, p, q);
    TwoSnapshot(p, q);
    RecordFacts(c, [p], Content(0));
    RecordFacts(c, [q], Content(1));
    assert Sorted(files) by {
      assert Less([p], [q]);
    }
    TwoFresh(c, p, q);
    forall f: VirtFile ensures f in files <==> f.relPath in FreshScan(c, walk) && FreshScan(c, walk)[f.relPath] == f && Eligible(f) {
      FreshScanLookup(c, walk, f.relPath);
      if f in files {
        assert FileEntry(p, Content(0)) in walk && FileEntry(q, Content(1)) in walk;
      } else if f.relPath in FreshScan(c, walk) && FreshScan(c, walk)[f.relPath] == f && Eligible(f) {
        var e :| e in walk && e.relPath == f.relPath;
        FolderNotEligible(c, e);
        assert false;
      }
    }
  }

  lemma TwoFresh(c: Crypto, p: char, q: char)
    ensures FreshFile(c, FileEntry(p, Content(0))) == TwoRecords(c, p, q)[0]
    ensures FreshFile(c, FileEntry(q, Content(1))) == TwoRecords(c, p, q)[1]
  {
    hide ScannedFile;
  }

  /** Both files are bundled together. */
  lemma TwoBundled(c: Crypto, p: char, q: char, db: Db)
    requires '.' < p < q && Bundled(c, FreshScan(c, TwoFiles(p, q)), db)
    ensures var groups := [TwoRecords(c, p, q)];
            db == Db(Linked(c, FreshScan(c, TwoFiles(p, q)), groups), BundleTable(c, groups))
  {
    hide *;
    var vFiles, two := FreshScan(c, TwoFiles(p, q)), TwoRecords(c, p, q);
    var groups, files, raw, left := FoundOf(c, vFiles, db);
    FoundGroups(vFiles, groups, files, raw, left);
    GroupsDisjoint(vFiles, groups, files, raw, left);
    TwoCandidates(c, p, q);
    SameCandidates(vFiles, files, two);
    TwoGroups(c, p, q);
    OnlyOne(groups, two);
  }

  lemma OnlyOne<T>(s: seq<T>, x: T)
    requires Distinct(s) && forall y :: y == x <==> y in s
    ensures s == [x]
  {
    assert x in s;
    forall i | 0 <= i < |s| ensures s[i] == x {
      assert s[i] in s;
    }
    FirstTwoDiffer(s);
  }

  lemma FirstTwoDiffer<T>(s: seq<T>)
    requires Distinct(s)
    ensures |s| > 1 ==> s[0] != s[1]
  {
  }

  /** Two files that are neither very small nor compressed, in one folder. */
  ghost predicate TwoLarge(files: seq<VirtFile>) {
    && |files| == 2
    && forall f :: f in files ==> StoredSize(f) == CONTENT_SIZE && !f.useCompression && |f.relPath| == 1
  }

  lemma TwoPhases(files: seq<VirtFile>)
    requires TwoLarge(files)
    ensures Phase1(files) == [] && Phase2(files) == [] && Phase3Files(files) == files
  {
    hide StoredSize;
    forall f | f in files ensures !IsVerySmall(f) && !IsCompressed(f) {
    }
    assert forall f :: f in files ==> Not(IsVerySmall)(f);
    assert forall f :: f in files ==> Not(IsCompressed)(f);
    FilterNone(files, IsVerySmall);
    FilterAll(files, Not(IsVerySmall));
    FilterNone(files, IsCompressed);
    FilterAll(files, Not(IsCompressed));
  }

  lemma TwoSizes(files: seq<VirtFile>)
    requires TwoLarge(files)
    ensures StorageSum(files) == 2 * CONTENT_SIZE && MaxPathLen(files) == 1
  {
    hide StoredSize;
    var one := Init(files);
    assert one == [files[0]] && Init(one) == [] && files[0] in files && files[1] in files;
    assert StorageSum(one) == StorageSum(Init(one)) + StoredSize(Last(one));
    assert MaxPathLen(one) == 1;
  }

  /** Only the last round takes them: all that is left. */
  lemma TwoTaken(files: seq<VirtFile>)
    requires TwoLarge(files)
    ensures Phase3(files, 1, 0) == {files}
  {
    hide StoredSize, FileSizes;
    forall f | f in files ensures Cut(f.relPath, 0) == "" {
    }
    assert files[0] in files;
    assert forall f :: f in files ==> Grouping.KeyIs(0, "")(f);
    assert Keys(files, 0) == {""};
    FilterAll(files, Grouping.KeyIs(0, ""));
    assert GroupOf(files, 0, "") == files && Big(files, 0, "");
    assert Taken(files, 0) == {files};
    assert Left(files, 1, 1) == files && Phase3(files, 1, 1) == {};
  }

  lemma TwoGroups(c: Crypto, p: char, q: char)
    ensures forall g :: g in BundleGroups(TwoRecords(c, p, q)) <==> g == TwoRecords(c, p, q)
  {
    hide ScannedFile, Less, PartOf, StoredFormOf, UsesCompression, PlainHash, Eligible, StoredSize, Phase1, Phase2, Phase3Files,
         MaxPathLen, Phase3, StorageSum, Split;
    var files := TwoRecords(c, p, q);
    RecordFacts(c, [p], Content(0));
    RecordFacts(c, [q], Content(1));
    assert TwoLarge(files);
    TwoPhases(files);
    TwoSizes(files);
    TwoTaken(files);
    TwoSplit(files);
    assert RawGroups(files) == {[], files};
    forall g ensures g in SplitGroups(files) <==> g == [] || g == files {
      assert files in RawGroups(files) && [] in RawGroups(files);
      assert [] in Split([]) && files in Split(files);
      if g in SplitGroups(files) {
        var raw :| raw in RawGroups(files) && g in Split(raw);
      }
    }
  }

  lemma TwoSplit(files: seq<VirtFile>)
    requires StorageSum(files) == 2 * CONTENT_SIZE
    ensures Split(files) == [files] && Split([]) == [[]]
  {
    hide StoredSize;
    assert PART_SIZE == 1073741824;
  }

  /** The link of the second file, and the bundle that it leads to. */
  lemma TwoLinked(c: Crypto, p: char, q: char, db: Db) returns (id: string)
    requires '.' < p < q && Bundled(c, FreshScan(c, TwoFiles(p, q)), db)
    ensures id == BUNDLE_PREFIX + c.cryptName(c.sha512(c.sha512(Content(0)) + c.sha512(Content(1))))
    ensures [q] in db.vFiles && db.vFiles[[q]] == ScannedFile(c, [q], TimeOf(Content(1)), Content(1)).(alsoInBundle := id)
    ensures [p] in db.vFiles && db.vFiles[[p]] == ScannedFile(c, [p], TimeOf(Content(0)), Content(0)).(alsoInBundle := id)
    ensures id in db.bundles && db.bundles[id].content == [[p], [q]] && db.bundles[id].part.storageName == id
  {
    hide *;
    var files, vFiles := TwoRecords(c, p, q), FreshScan(c, TwoFiles(p, q));
    id := BundleId(c, files);
    TwoBundled(c, p, q, db);
    TwoHashed(c, p, q);
    TwoScanned(c, p, q);
    OneGroup(c, vFiles, files, [p], [q]);
  }

  lemma TwoListed(files: seq<VirtFile>)
    requires |files| == 2
    ensures PathsOf(files) == [files[0].relPath, files[1].relPath]
    ensures PlainHashes(files) == [PlainHash(files[0]), PlainHash(files[1])]
  {
    hide PlainHash;
    var one := Init(files);
    assert one == [files[0]] && Init(one) == [] && Last(one) == files[0];
    assert PathsOf(Init(one)) == [] && PlainHashes(Init(one)) == [];
    assert PathsOf(one) == [files[0].relPath] && PlainHashes(one) == [PlainHash(files[0])];
  }

  lemma TwoScanned(c: Crypto, p: char, q: char)
    requires '.' < p < q
    ensures PathsOf(TwoRecords(c, p, q)) == [[p], [q]]
    ensures var vFiles := FreshScan(c, TwoFiles(p, q));
            && [p] in vFiles && vFiles[[p]] == ScannedFile(c, [p], TimeOf(Content(0)), Content(0))
            && [q] in vFiles && vFiles[[q]] == ScannedFile(c, [q], TimeOf(Content(1)), Content(1))
  {
    hide FreshScan, ScannedFile, TwoFiles, FreshFile, StoredFormOf, UsesCompression;
    TwoSnapshot(p, q);
    RecordFacts(c, [p], Content(0));
    RecordFacts(c, [q], Content(1));
    TwoFresh(c, p, q);
    var walk, files := TwoFiles(p, q), TwoRecords(c, p, q);
    assert FileEntry(p, Content(0)) in walk && FileEntry(q, Content(1)) in walk;
    FreshScanLookup(c, walk, [p]);
    FreshScanLookup(c, walk, [q]);
    TwoListed(files);
  }

  lemma TwoHashed(c: Crypto, p: char, q: char)
    ensures BundleId(c, TwoRecords(c, p, q)) == BUNDLE_PREFIX + c.cryptName(c.sha512(c.sha512(Content(0)) + c.sha512(Content(1))))
  {
    hide ScannedFile, PlainHash, StoredFormOf, UsesCompression, Eligible;
    RecordFacts(c, [p], Content(0));
    RecordFacts(c, [q], Content(1));
    var files := TwoRecords(c, p, q);
    TwoListed(files);
    var hashes: seq<Bytes> := PlainHashes(files);
    FlattenTwo(hashes);
    assert Flatten(hashes) == c.sha512(Content(0)) + c.sha512(Content(1));
  }

  lemma FlattenTwo(pieces: seq<Bytes>)
    requires |pieces| == 2
    ensures Flatten(pieces) == pieces[0] + pieces[1]
  {
    FlattenPair(pieces[0], pieces[1]);
    assert pieces == [pieces[0]] + [pieces[1]];
  }

  lemma OneGroup(c: Crypto, vFiles: map<string, VirtFile>, files: seq<VirtFile>, p: string, q: string)
    requires PathsOf(files) == [p, q] && p in vFiles && q in vFiles
    ensures var id, groups := BundleId(c, files), [files];
            && p in Linked(c, vFiles, groups) && Linked(c, vFiles, groups)[p] == vFiles[p].(alsoInBundle := id)
            && q in Linked(c, vFiles, groups) && Linked(c, vFiles, groups)[q] == vFiles[q].(alsoInBundle := id)
            && id in BundleTable(c, groups) && BundleTable(c, groups)[id].content == [p, q]
            && BundleTable(c, groups)[id].part.storageName == id
  {
    hide BundleId, PathsOf, BundleOf;
    BundleOfFields(c, files);
    assert Init([files]) == [];
  }

  /** A record that the older database has of "b", and what the newer one has. */
  ghost predicate Renamed(c: Crypto, newer: Db, stale: VirtFile) {
    && IsRecord(c, stale, "b", Content(1)) && stale.alsoInBundle != "" && stale.alsoInBundle in newer.bundles
    && newer.bundles[stale.alsoInBundle].content == ["b", "c"]
    && newer.bundles[stale.alsoInBundle].part.storageName == stale.alsoInBundle
    && "b" in newer.vFiles && IsRecord(c, newer.vFiles["b"], "b", Content(0))
    && "c" in newer.vFiles && IsRecord(c, newer.vFiles["c"], "c", Content(1))
  }

  ghost predicate IsRecord(c: Crypto, f: VirtFile, path: string, content: Bytes) {
    Unlink(f) == ScannedFile(c, path, TimeOf(content), content)
  }

  lemma AreRenamed(c: Crypto, older: Db, newer: Db)
    requires Bundled(c, FreshScan(c, TwoFiles('a', 'b')), older) && Bundled(c, FreshScan(c, TwoFiles('b', 'c')), newer)
    ensures "b" in older.vFiles && Renamed(c, newer, older.vFiles["b"])
  {
    hide *;
    var id := TwoLinked(c, 'a', 'b', older);
    var newId := TwoLinked(c, 'b', 'c', newer);
    assert ['b'] == "b" && ['c'] == "c";
    RecordWithLink(c, "b", Content(1), id);
    RecordWithLink(c, "b", Content(0), id);
    RecordWithLink(c, "c", Content(1), id);
    HasPrefix(c, id);
    RenamedIf(c, newer, older.vFiles["b"]);
  }

  lemma RenamedIf(c: Crypto, newer: Db, stale: VirtFile)
    requires IsRecord(c, stale, "b", Content(1)) && stale.alsoInBundle != "" && stale.alsoInBundle in newer.bundles
    requires newer.bundles[stale.alsoInBundle].content == ["b", "c"]
    requires newer.bundles[stale.alsoInBundle].part.storageName == stale.alsoInBundle
    requires "b" in newer.vFiles && IsRecord(c, newer.vFiles["b"], "b", Content(0))
    requires "c" in newer.vFiles && IsRecord(c, newer.vFiles["c"], "c", Content(1))
    ensures Renamed(c, newer, stale)
  {
    hide IsRecord;
  }

  lemma HasPrefix(c: Crypto, id: string)
    requires exists name: string :: id == BUNDLE_PREFIX + name
    ensures id != ""
  {
  }

  lemma RecordWithLink(c: Crypto, path: string, content: Bytes, id: string)
    ensures IsRecord(c, ScannedFile(c, path, TimeOf(content), content).(alsoInBundle := id), path, content)
    ensures ScannedFile(c, path, TimeOf(content), content).(alsoInBundle := id).alsoInBundle == id
  {
    hide PartsOf, UsesCompression;
  }

  lemma RenamedSound(c: Crypto, newer: Db)
    requires c.Sound() && NoCollisions(c, TwoFiles('b', 'c')) && Bundled(c, FreshScan(c, TwoFiles('b', 'c')), newer)
    ensures SoundDb(c, DiskOf(TwoFiles('b', 'c')), newer)
  {
    hide Bundled, FreshScan, TwoFiles, NoCollisions, Describes, DataOccurs, SoundDb, DiskOf, Snapshot;
    TwoSnapshot('b', 'c');
    ProducedDescribes(c, TwoFiles('b', 'c'), newer);
    NothingCollides(c, TwoFiles('b', 'c'), newer);
    GoodIsSound(c, DiskOf(TwoFiles('b', 'c')), newer);
  }

  lemma RenamedDisks()
    ensures var disk := DiskOf(TwoFiles('a', 'b')); "b" in disk && disk["b"] == Content(1)
    ensures var disk := DiskOf(TwoFiles('b', 'c')); "b" in disk && disk["b"] == Content(0)
    ensures Content(0) != Content(1)
  {
    TwoSnapshot('a', 'b');
    TwoSnapshot('b', 'c');
    hide TwoFiles, DiskOf;
    DiskOfEntry(TwoFiles('a', 'b'), FileEntry('b', Content(1)));
    DiskOfEntry(TwoFiles('b', 'c'), FileEntry('b', Content(0)));
    assert ['b'] == "b";
    assert Content(0)[0] != Content(1)[0];
  }

  lemma RenamedUsable(c: Crypto, newer: Db, stale: VirtFile, list: seq<StorageFile>)
    requires Renamed(c, newer, stale) && Complete(SetOf(list), newer)
    ensures BundleUsable(list, newer, stale) && |stale.parts| == 1 && Resolves(SetOf(list), stale.parts[0])
    ensures !stale.useCompression && stale.fileSize > 0 && !stale.isDir && stale.relPath == "b" && StoredSize(stale) == CONTENT_SIZE
  {
    hide Resolves, PartOf, StoredFormOf, UsesCompression, Eligible, ScannedFile;
    RecordFacts(c, "b", Content(1));
    RecordFacts(c, "b", Content(0));
    RecordFacts(c, "c", Content(1));
    assert Unlink(stale).parts == stale.parts && Unlink(newer.vFiles["b"]).parts == newer.vFiles["b"].parts;
    assert Unlink(newer.vFiles["c"]).parts == newer.vFiles["c"].parts;
    assert newer.vFiles["c"].parts == stale.parts && stale.parts[0] in newer.vFiles["c"].parts;
    assert Position(newer.bundles[stale.alsoInBundle], newer.vFiles, stale, 0, 0);
  }

  lemma SingleSource(c: Crypto, list: seq<StorageFile>, db: Db, file: VirtFile, reader: ReaderAt) returns (src: Source)
    requires Opened(c, list, db, file, reader) && |file.parts| == 1
    requires !file.useCompression && file.fileSize > 0 && !file.isDir
    ensures Chosen(list, db, file, src)
    ensures reader == SubReader(src.file, CryptRService(map[src.file.id := src.key]), src.off, src.n)
  {
    hide Chosen;
    src :| Chosen(list, db, file, src) &&
           reader == SubReader(src.file, CryptRService(map[src.file.id := src.key]), src.off, src.n);
  }

  lemma RenamedReads(c: Crypto, disk: Disk, newer: Db, stale: VirtFile, list: seq<StorageFile>, src: Source)
    requires SoundDb(c, disk, newer) && SoundStorage(c, SetOf(list)) && FromBundle(list, newer, stale, src)
    requires stale.relPath in disk && disk[stale.relPath] == Content(0) && StoredSize(stale) == CONTENT_SIZE
    ensures Decrypted(c, src) == Content(0) && src.off + src.n <= Size(src.file)
  {
    BundleRangeReads(c, disk, newer, list, stale, src);
    StaleRangeBegins(c, disk, newer, list, stale, src);
    BundleRangeSize(list, newer, stale, src);
    RecordFacts(c, "", Content(0));
    hide SoundDb, SoundStorage, FromBundle, BundleBytes, StoredFormOf, Range, Decrypted, ScannedFile, PartOf, Eligible;
    PrefixOfRange(BundleBytes(c, disk, newer.bundles[stale.alsoInBundle]), src.off, src.n, Content(0));
    assert Content(0)[..CONTENT_SIZE] == Content(0);
  }

  /** The files "a" and "b" are renamed to "b" and "c". Both folders give one bundle with the same id, but
      "b" has the other content, and time, now: its older record, read with the newer database, shows the
      content of the file that was "a". The newer database is what the next upload makes, also with the
      older one as its cache. The wrong content is shown for every storage with the newer database online, whatever source
      is chosen, and although the part of the older record is online too. */
  lemma RenamedIsReadWrong(c: Crypto, older: Db, newer: Db, list: seq<StorageFile>, reader: ReaderAt)
    requires c.Sound() && NoCollisions(c, TwoFiles('b', 'c'))
    requires Bundled(c, FreshScan(c, TwoFiles('a', 'b')), older) && Bundled(c, FreshScan(c, TwoFiles('b', 'c')), newer)
    requires SoundStorage(c, SetOf(list)) && Complete(SetOf(list), newer)
    requires "b" in older.vFiles && Opened(c, list, newer, older.vFiles["b"], reader)
    ensures ShownContent(DiskOf(TwoFiles('a', 'b')), older.vFiles["b"]) == Content(1)
    ensures BundleUsable(list, newer, older.vFiles["b"])
    ensures |older.vFiles["b"].parts| == 1 && Resolves(SetOf(list), older.vFiles["b"].parts[0])
    ensures KeysPresent(reader) && View(c, reader) == Content(0) && Content(0) != Content(1)
    ensures Consistent(TwoFiles('a', 'b'), TwoFiles('b', 'c')) && OfEarlierScan(c, older.vFiles, TwoFiles('b', 'c'))
  {
    hide *;
    RenamedLater(c, older);
    AreRenamed(c, older, newer);
    var stale, disk := older.vFiles["b"], DiskOf(TwoFiles('b', 'c'));
    RenamedSound(c, newer);
    RenamedDisks();
    RenamedUsable(c, newer, stale, list);
    var src := SingleSource(c, list, newer, stale, reader);
    ChosenFrom(list, newer, stale, src);
    RenamedReads(c, disk, newer, stale, list, src);
    SubReaderShows(c, src);
    ShownIs(DiskOf(TwoFiles('a', 'b')), stale);
  }

  /** Size and time tell the files apart, so the second scan sees the change. */
  lemma RenamedLater(c: Crypto, older: Db)
    requires Bundled(c, FreshScan(c, TwoFiles('a', 'b')), older)
    ensures Consistent(TwoFiles('a', 'b'), TwoFiles('b', 'c')) && OfEarlierScan(c, older.vFiles, TwoFiles('b', 'c'))
  {
    hide FreshScan, Bundled, Snapshot, Describes, WellBundled, DiskOf;
    TwoSnapshot('a', 'b');
    TwoSnapshot('b', 'c');
    ProducedDescribes(c, TwoFiles('a', 'b'), older);
    RenamedConsistent();
    hide TwoFiles;
  }

  lemma RenamedConsistent()
    ensures Consistent(TwoFiles('a', 'b'), TwoFiles('b', 'c'))
  {
    TwoSnapshot('a', 'b');
    TwoSnapshot('b', 'c');
    hide TwoFiles, Snapshot;
    assert Content(0)[0] == 0 && Content(1)[0] == 1;
    assert TimeOf(Content(0)) == 1 && TimeOf(Content(1)) == 2;
  }

  lemma ShownIs(disk: Disk, file: VirtFile)
    requires !file.isDir && file.relPath in disk
    ensures ShownContent(disk, file) == disk[file.relPath]
  {
  }
}
