/** A database and the folder it was scanned from: the hypothesis that the disk does not change
    between scan and upload, and what it implies for names, sizes and sums. */
module Consistency {
  import opened Primitives
  import opened Ctr
  import opened Seqs
  import opened Types
  import opened Splitting
  import opened ScanningFile
  import opened Bundling
  import opened BundleLaws
  import opened Storage
  import opened Cleaning
  import opened CleanLaws
  import opened Protocol

  /** The content of each file, by path. */
  type Disk = map<string, Bytes>

  /** Apart from its link, the record of a file is what a scan of the disk gives. */
  ghost predicate Recorded(c: Crypto, disk: Disk, k: string, f: VirtFile) {
    && f.relPath == k
    && if f.isDir then f.parts == [] else k in disk && Unlink(f) == ScannedFile(c, k, f.mTime, disk[k])
  }

  /** The database describes the disk, and its bundles and links agree. */
  ghost predicate Describes(c: Crypto, disk: Disk, db: Db) {
    && (forall k :: k in db.vFiles ==> Recorded(c, disk, k, db.vFiles[k]))
    && WellBundled(c, db)
  }

  /** The encrypted form of one part. */
  function Cipher(c: Crypto, compressed: bool, chunk: Bytes): Bytes {
    Crypt(c, c.dataKey(c.sha512(chunk)), StoredForm(c, compressed, chunk), 0)
  }

  /** All strings that are hashed for this database are among those without collisions. */
  ghost predicate DataOccurs(c: Crypto, disk: Disk, db: Db) {
    && (forall k, i :: k in db.vFiles && !db.vFiles[k].isDir && k in disk && 0 <= i < PartCount(|disk[k]|) ==>
          Chunk(disk[k], i) in c.occurs && Cipher(c, db.vFiles[k].useCompression, Chunk(disk[k], i)) in c.occurs)
    && (forall id :: id in db.bundles && (forall p :: p in db.bundles[id].content ==> p in db.vFiles) ==>
          Flatten(PlainHashes(FilesAt(db.vFiles, db.bundles[id].content))) in c.occurs)
  }

  lemma RecordedParts(c: Crypto, disk: Disk, k: string, f: VirtFile, i: nat)
    requires Recorded(c, disk, k, f) && i < |f.parts|
    ensures !f.isDir && k in disk
    ensures f.useCompression == UsesCompression(c, disk[k]) && f.fileSize == |disk[k]|
    ensures |f.parts| == PartCount(|disk[k]|)
    ensures f.parts[i] == PartOf(c, f.useCompression, Chunk(disk[k], i))
    ensures f.parts[i].storageMd5 == c.md5(Cipher(c, f.useCompression, Chunk(disk[k], i)))
    ensures f.parts[i].storageSize == |Cipher(c, f.useCompression, Chunk(disk[k], i))|
  {
    hide Chunk, PartCount, StoredForm;
    assert f.parts == Unlink(f).parts;
  }

  /** Where a part of the database comes from. */
  lemma PartOrigin(db: Db, p: VFilePart) returns (k: string, i: int)
    requires p in DbParts(db)
    ensures i >= 0 ==> k in db.vFiles && i < |db.vFiles[k].parts| && db.vFiles[k].parts[i] == p
    ensures i < 0 ==> k in db.bundles && db.bundles[k].part == p
  {
    if k0, q :| k0 in db.vFiles && q in db.vFiles[k0].parts && q == p {
      k := k0;
      i :| 0 <= i < |db.vFiles[k].parts| && db.vFiles[k].parts[i] == p;
    } else {
      k :| k in db.bundles && db.bundles[k].part == p;
      i := -1;
    }
  }

  /** Part files and bundle files have names of their own lengths; part files have an MD5 sum. */
  lemma PartShape(c: Crypto, disk: Disk, db: Db, p: VFilePart)
    requires Describes(c, disk, db) && p in DbParts(db)
    ensures |p.storageName| == 128 ==> |p.storageMd5| == 32
    ensures |p.storageName| == 128 || (|p.storageName| == 130 && p.storageMd5 == "")
    ensures NoBar(p.storageMd5)
    ensures |p.storageName| == 130 ==>
              p.storageName in db.bundles && p == db.bundles[p.storageName].part && NoBar(p.storageName)
    ensures c.Sound() ==> ValidKey(p.cryptDataKey)
  {
    hide Chunk, PartCount, StoredForm, StorageSum, FilesAt;
    var k, i := PartOrigin(db, p);
    if i >= 0 {
      RecordedParts(c, disk, k, db.vFiles[k], i);
    } else {
      assert BundleEntry(c, db.vFiles, k, db.bundles[k]);
    }
  }

  /** Parts with equal name and sum have equal size: equal sums come from equal encrypted contents. */
  lemma PartsOfScanAgree(c: Crypto, disk: Disk, db: Db, p: VFilePart, q: VFilePart)
    requires c.CollisionFree() && Describes(c, disk, db) && DataOccurs(c, disk, db)
    requires p in DbParts(db) && q in DbParts(db)
    requires p.storageName == q.storageName && p.storageMd5 == q.storageMd5
    ensures p.storageSize == q.storageSize
  {
    hide Describes, DbParts, Chunk, PartCount, Cipher, BundleEntry;
    PartShape(c, disk, db, p);
    PartShape(c, disk, db, q);
    if |p.storageName| == 128 {
      var k, i := PartOrigin(db, p);
      var l, j := PartOrigin(db, q);
      if i < 0 { BundleNameLength(c, disk, db, k); }
      if j < 0 { BundleNameLength(c, disk, db, l); }
      RecordIn(c, disk, db, k);
      RecordIn(c, disk, db, l);
      RecordedParts(c, disk, k, db.vFiles[k], i);
      RecordedParts(c, disk, l, db.vFiles[l], j);
    }
  }

  lemma RecordIn(c: Crypto, disk: Disk, db: Db, k: string)
    requires Describes(c, disk, db) && k in db.vFiles
    ensures Recorded(c, disk, k, db.vFiles[k])
  {
  }

  lemma BundleNameLength(c: Crypto, disk: Disk, db: Db, k: string)
    requires Describes(c, disk, db) && k in db.bundles
    ensures |db.bundles[k].part.storageName| == 130
  {
    hide StorageSum, FilesAt;
    assert BundleEntry(c, db.vFiles, k, db.bundles[k]);
  }

  /** A scanned database may be published and cleaned by. */
  lemma ScannedIsPublishable(c: Crypto, disk: Disk, db: Db)
    requires c.CollisionFree() && Describes(c, disk, db) && DataOccurs(c, disk, db)
    ensures Publishable(db)
  {
    hide Describes, DataOccurs, DbParts;
    forall p | p in DbParts(db)
      ensures NoBar(p.storageMd5) && (|p.storageName| == 128 ==> p.storageMd5 != "") && p.storageName != INDEX_NAME
    {
      PartShape(c, disk, db, p);
      assert |INDEX_NAME| == 9;
    }
    forall p, q |
      p in DbParts(db) && q in DbParts(db) && p.storageName == q.storageName && p.storageMd5 == q.storageMd5
      ensures p.storageSize == q.storageSize
    {
      PartsOfScanAgree(c, disk, db, p, q);
    }
  }

  // ----- what a bundle file must contain -----

  function HashesOf(c: Crypto, contents: seq<Bytes>): seq<Bytes> {
    if contents == [] then [] else HashesOf(c, Init(contents)) + [c.sha512(Last(contents))]
  }

  function StoredFormOf(c: Crypto, content: Bytes): Bytes {
    StoredForm(c, UsesCompression(c, content), content)
  }

  function StoredFormsOf(c: Crypto, contents: seq<Bytes>): seq<Bytes> {
    if contents == [] then [] else StoredFormsOf(c, Init(contents)) + [StoredFormOf(c, Last(contents))]
  }

  function ContentsHash(c: Crypto, contents: seq<Bytes>): Hash {
    c.sha512(Flatten(HashesOf(c, contents)))
  }

  /** The name and the content of the bundle file of some file contents. */
  function BundleNameFor(c: Crypto, contents: seq<Bytes>): string {
    BUNDLE_PREFIX + c.cryptName(ContentsHash(c, contents))
  }

  function BundleCipherFor(c: Crypto, contents: seq<Bytes>): Bytes {
    Crypt(c, c.dataKey(ContentsHash(c, contents)), Flatten(StoredFormsOf(c, contents)), 0)
  }

  ghost predicate ContentsOccur(c: Crypto, contents: seq<Bytes>) {
    (forall b :: b in contents ==> b in c.occurs) && Flatten(HashesOf(c, contents)) in c.occurs
  }

  /** Bundle files are found by name and size only; that they contain what their name says is an
      invariant of the storage, kept by every upload. Part files are found by their MD5 sum; the
      invariant says that their contents are among the strings without collisions. */
  ghost predicate Genuine(c: Crypto, files: set<StorageFile>) {
    && (forall f, contents :: f in files && ContentsOccur(c, contents) && f.name == BundleNameFor(c, contents)
          ==> f.content == BundleCipherFor(c, contents))
    && (forall f :: f in files && |f.name| == 128 ==> f.content in c.occurs)
  }

  lemma {:induction false} HashesInjective(c: Crypto, a: seq<Bytes>, b: seq<Bytes>)
    requires c.CollisionFree() && HashesOf(c, a) == HashesOf(c, b)
    requires (forall x :: x in a ==> x in c.occurs) && forall x :: x in b ==> x in c.occurs
    ensures a == b
  {
    if a == [] || b == [] {
    } else {
      assert Last(a) in a && Last(b) in b;
      assert Last(HashesOf(c, a)) == c.sha512(Last(a)) && Last(HashesOf(c, b)) == c.sha512(Last(b));
      assert Init(HashesOf(c, a)) == HashesOf(c, Init(a)) && Init(HashesOf(c, b)) == HashesOf(c, Init(b));
      HashesInjective(c, Init(a), Init(b));
      assert a == Init(a) + [Last(a)] && b == Init(b) + [Last(b)];
    }
  }

  lemma {:induction false} HashLengths(c: Crypto, a: seq<Bytes>)
    ensures forall h :: h in HashesOf(c, a) ==> |h| == 64
  {
    if a == [] {
    } else {
      HashLengths(c, Init(a));
    }
  }

  /** The name of a bundle file determines the contents it is made of. */
  lemma BundleNameDetermines(c: Crypto, a: seq<Bytes>, b: seq<Bytes>)
    requires c.CollisionFree() && ContentsOccur(c, a) && ContentsOccur(c, b)
    requires BundleNameFor(c, a) == BundleNameFor(c, b)
    ensures a == b
  {
    PrefixCancels(BUNDLE_PREFIX, c.cryptName(ContentsHash(c, a)), c.cryptName(ContentsHash(c, b)));
    HashLengths(c, a);
    HashLengths(c, b);
    FlattenInjective(HashesOf(c, a), HashesOf(c, b), 64);
    HashesInjective(c, a, b);
  }

  /** Saving a bundle with the content its name says keeps all bundles genuine. */
  lemma SaveGenuine(c: Crypto, files: set<StorageFile>, f: StorageFile, contents: seq<Bytes>)
    requires c.CollisionFree() && Genuine(c, files) && ContentsOccur(c, contents)
    requires f.name == BundleNameFor(c, contents) && f.content == BundleCipherFor(c, contents)
    ensures Genuine(c, files + {f})
  {
    hide BundleNameFor, BundleCipherFor, ContentsOccur;
    forall g, others | g in files + {f} && ContentsOccur(c, others) && g.name == BundleNameFor(c, others)
      ensures g.content == BundleCipherFor(c, others)
    {
      if g == f {
        BundleNameDetermines(c, contents, others);
      }
    }
    BundleNameLengthFor(c, contents);
  }

  lemma BundleNameLengthFor(c: Crypto, contents: seq<Bytes>)
    ensures |BundleNameFor(c, contents)| == 130
  {
    hide ContentsHash;
  }

  /** Other files do not have names of bundles. */
  lemma SaveOther(c: Crypto, files: set<StorageFile>, f: StorageFile)
    requires Genuine(c, files) && |f.name| != 130 && (|f.name| == 128 ==> f.content in c.occurs)
    ensures Genuine(c, files + {f})
  {
    hide BundleCipherFor, ContentsOccur, ContentsHash;
    forall g, others | g in files + {f} && ContentsOccur(c, others) && g.name == BundleNameFor(c, others)
      ensures g.content == BundleCipherFor(c, others)
    {
      BundleNameLengthFor(c, others);
    }
  }

  /** The disk contents of the files that a bundle lists. */
  function ContentsAt(disk: Disk, paths: seq<string>): seq<Bytes>
    requires forall p :: p in paths ==> p in disk
  {
    if paths == [] then [] else ContentsAt(disk, Init(paths)) + [disk[Last(paths)]]
  }

  ghost predicate AllRecorded(c: Crypto, disk: Disk, vFiles: map<string, VirtFile>, paths: seq<string>) {
    forall p :: p in paths ==>
      p in vFiles && p in disk && Recorded(c, disk, p, vFiles[p]) && |vFiles[p].parts| == 1
  }

  lemma OnePartFile(c: Crypto, disk: Disk, k: string, f: VirtFile)
    requires Recorded(c, disk, k, f) && |f.parts| == 1
    ensures !f.isDir && k in disk && f.fileSize == |disk[k]| > 0
    ensures f.useCompression == UsesCompression(c, disk[k])
    ensures Chunk(disk[k], 0) == disk[k]
    ensures f.parts[0] == PartOf(c, f.useCompression, disk[k])
    ensures PlainHash(f) == c.sha512(disk[k]) && StoredSize(f) == |StoredFormOf(c, disk[k])|
  {
    RecordedParts(c, disk, k, f, 0);
    assert PART_SIZE == 1073741824;
  }

  /** The hashes and the sizes that the database has of a bundle are those of the disk contents. */
  lemma {:induction false} BundleOnDisk(c: Crypto, disk: Disk, vFiles: map<string, VirtFile>, paths: seq<string>)
    requires AllRecorded(c, disk, vFiles, paths)
    ensures PlainHashes(FilesAt(vFiles, paths)) == HashesOf(c, ContentsAt(disk, paths))
    ensures StorageSum(FilesAt(vFiles, paths)) == |Flatten(StoredFormsOf(c, ContentsAt(disk, paths)))|
  {
    hide Recorded, PlainHash, StoredSize, StoredFormOf;
    if paths == [] {
    } else {
      var p := Last(paths);
      assert p in paths;
      BundleOnDisk(c, disk, vFiles, Init(paths));
      OnePartFile(c, disk, p, vFiles[p]);
      var files, contents := FilesAt(vFiles, Init(paths)), ContentsAt(disk, Init(paths));
      assert Init(files + [vFiles[p]]) == files && Init(contents + [disk[p]]) == contents;
      FlattenAppend(StoredFormsOf(c, contents), StoredFormOf(c, disk[p]));
    }
  }

  lemma {:induction false} ContentsAtEach(disk: Disk, paths: seq<string>)
    requires forall p :: p in paths ==> p in disk
    ensures |ContentsAt(disk, paths)| == |paths|
    ensures forall i :: 0 <= i < |paths| ==> ContentsAt(disk, paths)[i] == disk[paths[i]]
  {
    if paths == [] {
    } else {
      ContentsAtEach(disk, Init(paths));
    }
  }

  lemma OnePart(c: Crypto, disk: Disk, p: string, f: VirtFile)
    requires Recorded(c, disk, p, f) && |f.parts| == 1
    ensures !f.isDir && p in disk && PartCount(|disk[p]|) == 1
  {
    RecordedParts(c, disk, p, f, 0);
  }

  lemma ContentOf(disk: Disk, paths: seq<string>, x: Bytes) returns (p: string)
    requires (forall q :: q in paths ==> q in disk) && x in ContentsAt(disk, paths)
    ensures p in paths && disk[p] == x
  {
    ContentsAtEach(disk, paths);
    var i :| 0 <= i < |paths| && ContentsAt(disk, paths)[i] == x;
    p := paths[i];
  }
}
