/** core/open.go: choosing where to read a file from, and opening it. */
module Opening {
  import opened Primitives
  import opened Ctr
  import opened Seqs
  import opened Types
  import opened Splitting
  import opened ScanningFile
  import opened Bundling
  import opened BundleLaws
  import opened Storage
  import opened Consistency
  import opened Readers

  // ----- positions in bundles -----

  /** The target is the index-th file of the bundle and starts at off; all files up to it exist and
      have one part. */
  ghost predicate Position(bundle: Bundle, vFiles: map<string, VirtFile>, target: VirtFile, index: nat, off: nat) {
    && index < |bundle.content|
    && (forall j :: 0 <= j <= index ==> bundle.content[j] in vFiles && |vFiles[bundle.content[j]].parts| == 1)
    && vFiles[bundle.content[index]].relPath == target.relPath
    && (forall j :: 0 <= j < index ==> vFiles[bundle.content[j]].relPath != target.relPath)
    && off == StoredBefore(bundle.content, vFiles, index)
  }

  /** The storage sizes of the first n listed files. */
  function StoredBefore(paths: seq<string>, vFiles: map<string, VirtFile>, n: nat): nat
    requires n <= |paths|
  {
    if n == 0 then 0
    else StoredBefore(paths, vFiles, n - 1) + (if paths[n - 1] in vFiles then StoredSize(vFiles[paths[n - 1]]) else 0)
  }

  method PosInBundle(bundle: Bundle, vFiles: map<string, VirtFile>, target: VirtFile)
    returns (index: nat, off: nat, ok: bool)
    ensures ok ==> bundle.part.storageName != "" && target.relPath != "" && Position(bundle, vFiles, target, index, off)
    ensures !ok ==> index == 0 && off == 0
    ensures !ok && bundle.part.storageName != "" && target.relPath != "" ==>
              forall i: nat, o: nat :: !Position(bundle, vFiles, target, i, o)
  {
    if bundle.part.storageName == "" || target.relPath == "" {
      return 0, 0, false;
    }
    off := 0;
    for i := 0 to |bundle.content|
      invariant off == StoredBefore(bundle.content, vFiles, i)
      invariant forall j :: 0 <= j < i ==>
                  bundle.content[j] in vFiles && |vFiles[bundle.content[j]].parts| == 1 &&
                  vFiles[bundle.content[j]].relPath != target.relPath
    {
      if bundle.content[i] !in vFiles {
        return 0, 0, false;
      }
      var vFile := vFiles[bundle.content[i]];
      if |vFile.parts| != 1 {
        return 0, 0, false;
      }
      var part := vFile.parts[0];
      if vFile.relPath != target.relPath {
        off := off + part.storageSize;
      } else {
        return i, off, true;
      }
    }
    return 0, 0, false;
  }

  // ----- bundle or part -----

  /** A range of a storage file, and the key to decrypt it with. */
  datatype Source = Source(file: StorageFile, off: nat, n: nat, key: Bytes)

  ghost predicate FromPart(list: seq<StorageFile>, file: VirtFile, src: Source) {
    && |file.parts| == 1
    && src.file in list && MatchesPart(src.file, file.parts[0])
    && src.off == 0 && src.n == file.parts[0].storageSize && src.key == file.parts[0].cryptDataKey
  }

  ghost predicate FromBundle(list: seq<StorageFile>, vDb: Db, file: VirtFile, src: Source) {
    && |file.parts| == 1
    && file.alsoInBundle in vDb.bundles
    && var bundle := vDb.bundles[file.alsoInBundle];
      && src.file in list && MatchesPart(src.file, bundle.part)
      && (exists index: nat :: Position(bundle, vDb.vFiles, file, index, src.off))
      && src.n == file.parts[0].storageSize && src.key == bundle.part.cryptDataKey
  }

  /** Does the link of the file lead to a bundle that is online and lists the file? */
  ghost predicate BundleUsable(list: seq<StorageFile>, vDb: Db, file: VirtFile) {
    && file.alsoInBundle != "" && file.relPath != ""
    && file.alsoInBundle in vDb.bundles
    && var bundle := vDb.bundles[file.alsoInBundle];
      && bundle.part.storageName != ""
      && Resolves(SetOf(list), bundle.part)
      && exists index: nat, off: nat :: Position(bundle, vDb.vFiles, file, index, off)
  }

  /** Where a file with one part is read from: its bundle if that is possible, else its part. */
  ghost predicate Chosen(list: seq<StorageFile>, vDb: Db, file: VirtFile, src: Source) {
    if BundleUsable(list, vDb, file) then FromBundle(list, vDb, file, src) else FromPart(list, file, src)
  }

  /** The storage file, the range and the key for a file with one part. The part must be online even
      when the bundle is read. */
  method BundleOrPart(file: VirtFile, vDb: Db, list: seq<StorageFile>) returns (r: Result<Source>)
    ensures r == Err(WrongPartCount) <==> |file.parts| != 1
    ensures r == Err(NotExist) <==> |file.parts| == 1 && !Resolves(SetOf(list), file.parts[0])
    ensures r.Err? ==> r.error in {WrongPartCount, NotExist}
    ensures r.Ok? ==> Chosen(list, vDb, file, r.value)
  {
    hide Position;
    if |file.parts| != 1 {
      return Err(WrongPartCount);
    }
    var part := file.parts[0];
    var sf := ByAttr(list, part.storageName, part.storageSize, part.storageMd5);
    if sf.Err? {
      return Err(NotExist);
    }
    assert sf.value in SetOf(list) && MatchesPart(sf.value, part);
    var src := Source(sf.value, 0, part.storageSize, part.cryptDataKey);
    r := Ok(src);
    if file.alsoInBundle != "" {
      if file.alsoInBundle !in vDb.bundles {
        return;
      }
      var bundle := vDb.bundles[file.alsoInBundle];
      var tmpSf := ByAttr(list, bundle.part.storageName, bundle.part.storageSize, bundle.part.storageMd5);
      if tmpSf.Err? {
        NotResolved(list, bundle.part);
        return;
      }
      assert tmpSf.value in SetOf(list) && MatchesPart(tmpSf.value, bundle.part);
      var index, bOffset, ok := PosInBundle(bundle, vDb.vFiles, file);
      if !ok {
        return;
      }
      src := Source(tmpSf.value, bOffset, part.storageSize, bundle.part.cryptDataKey);
      assert FromBundle(list, vDb, file, src);
      r := Ok(src);
    }
  }

  lemma NotResolved(list: seq<StorageFile>, p: VFilePart)
    requires forall f :: f in list ==> !MatchesPart(f, p)
    ensures !Resolves(SetOf(list), p)
  {
    hide MatchesPart;
  }

  // ----- both give the stored form of the file -----

  /** Every bundle in the table is the bundle of files of the database; the links may be anything. */
  ghost predicate BundlesBuilt(c: Crypto, db: Db) {
    forall id :: id in db.bundles ==>
      (forall p :: p in db.bundles[id].content ==> p in db.vFiles && |db.vFiles[p].parts| == 1) &&
      db.bundles[id] == BundleOf(c, FilesAt(db.vFiles, db.bundles[id].content))
  }

  ghost predicate FilesRecorded(c: Crypto, disk: Disk, db: Db) {
    forall k :: k in db.vFiles ==> Recorded(c, disk, k, db.vFiles[k])
  }

  /** What reading relies on about the storage: reported sums are those of the contents, which do not
      collide, and bundle files contain what their names say. */
  ghost predicate SoundStorage(c: Crypto, files: set<StorageFile>) {
    HonestMd5(c, files) && Genuine(c, files)
  }

  /** What reading relies on about the database. */
  ghost predicate SoundDb(c: Crypto, disk: Disk, db: Db) {
    c.Sound() && FilesRecorded(c, disk, db) && BundlesBuilt(c, db) && DataOccurs(c, disk, db)
  }

  /** The record is of a file that the database has too, and describes its content on the disk. It may
      be the record of another database, with another link or an earlier time, as long as the content
      is the same. */
  ghost predicate Fits(c: Crypto, disk: Disk, db: Db, file: VirtFile) {
    && file.relPath in db.vFiles && db.vFiles[file.relPath].isDir == file.isDir
    && Recorded(c, disk, file.relPath, file)
  }

  /** Records of the same content agree on everything that reading uses. */
  lemma FitsAgree(c: Crypto, disk: Disk, db: Db, file: VirtFile)
    requires SoundDb(c, disk, db) && Fits(c, disk, db, file)
    ensures Recorded(c, disk, file.relPath, file)
    ensures db.vFiles[file.relPath].relPath == file.relPath
    ensures db.vFiles[file.relPath].parts == file.parts
  {
    hide PartsOf;
    var g := db.vFiles[file.relPath];
    assert Recorded(c, disk, file.relPath, g);
    assert Unlink(file).parts == file.parts && Unlink(g).parts == g.parts;
  }

  /** A found part file has exactly the content that the scan recorded. */
  lemma PartContent(c: Crypto, disk: Disk, db: Db, files: set<StorageFile>, file: VirtFile, i: nat, f: StorageFile)
    requires SoundDb(c, disk, db) && SoundStorage(c, files) && Fits(c, disk, db, file)
    requires i < |file.parts| && f in files && MatchesPart(f, file.parts[i])
    ensures file.relPath in disk && f.content == Cipher(c, file.useCompression, Chunk(disk[file.relPath], i))
    ensures file.parts[i].cryptDataKey == c.dataKey(c.sha512(Chunk(disk[file.relPath], i)))
    ensures f.name == c.cryptName(c.sha512(Chunk(disk[file.relPath], i))) && Chunk(disk[file.relPath], i) in c.occurs
  {
    hide Chunk, PartCount, Cipher, BundlesBuilt, BundleNameFor, ContentsOccur;
    var k := file.relPath;
    FitsAgree(c, disk, db, file);
    RecordedParts(c, disk, k, file, i);
    RecordedParts(c, disk, k, db.vFiles[k], i);
  }

  lemma PartSourceReads(c: Crypto, disk: Disk, db: Db, list: seq<StorageFile>, file: VirtFile, src: Source)
    requires SoundDb(c, disk, db) && SoundStorage(c, SetOf(list))
    requires Fits(c, disk, db, file) && FromPart(list, file, src)
    ensures file.relPath in disk && src.off + src.n == Size(src.file)
    ensures Crypt(c, src.key, Range(src.file.content, src.off, src.n), src.off) == StoredFormOf(c, disk[file.relPath])
  {
    hide SoundStorage, DataOccurs, BundlesBuilt;
    PartContent(c, disk, db, SetOf(list), file, 0, src.file);
    var content := disk[file.relPath];
    OnePartFile(c, disk, file.relPath, file);
    assert Range(src.file.content, 0, src.n) == src.file.content;
    CryptTwice(c, src.key, StoredFormOf(c, content), 0);
  }

  /** One of the pieces, cut out of their concatenation. */
  lemma {:induction false} PieceOfFlatten(pieces: seq<Bytes>, i: nat)
    requires i < |pieces|
    ensures |Flatten(pieces[..i])| + |pieces[i]| <= |Flatten(pieces)|
    ensures Flatten(pieces)[|Flatten(pieces[..i])|..|Flatten(pieces[..i])| + |pieces[i]|] == pieces[i]
  {
    var n := |pieces| - 1;
    assert Flatten(pieces) == Flatten(Init(pieces)) + pieces[n];
    if i < n {
      PieceOfFlatten(Init(pieces), i);
      assert Init(pieces)[..i] == pieces[..i];
      var lo, hi := |Flatten(pieces[..i])|, |Flatten(pieces[..i])| + |pieces[i]|;
      assert Flatten(pieces)[lo..hi] == Flatten(Init(pieces))[lo..hi];
    } else {
      assert pieces[..i] == Init(pieces);
    }
  }

  lemma {:induction false} StoredFormsAt(c: Crypto, contents: seq<Bytes>)
    ensures |StoredFormsOf(c, contents)| == |contents|
    ensures forall i :: 0 <= i < |contents| ==> StoredFormsOf(c, contents)[i] == StoredFormOf(c, contents[i])
  {
    if contents == [] {
    } else {
      StoredFormsAt(c, Init(contents));
    }
  }

  /** The offset of a file in its bundle is the length of what is stored before it. */
  lemma {:induction false} OffsetIsLength(c: Crypto, disk: Disk, vFiles: map<string, VirtFile>, paths: seq<string>, n: nat)
    requires AllRecorded(c, disk, vFiles, paths) && n <= |paths|
    ensures |StoredFormsOf(c, ContentsAt(disk, paths))| == |paths|
    ensures StoredBefore(paths, vFiles, n) == |Flatten(StoredFormsOf(c, ContentsAt(disk, paths))[..n])|
  {
    hide Recorded, StoredFormOf, StoredSize, StoredFormsOf, ContentsAt;
    var pieces := StoredFormsOf(c, ContentsAt(disk, paths));
    ContentsAtEach(disk, paths);
    StoredFormsAt(c, ContentsAt(disk, paths));
    if n == 0 {
    } else {
      OffsetIsLength(c, disk, vFiles, paths, n - 1);
      var p := paths[n - 1];
      assert p in paths;
      OnePartFile(c, disk, p, vFiles[p]);
      assert Init(pieces[..n]) == pieces[..n - 1] && Last(pieces[..n]) == pieces[n - 1];
    }
  }

  lemma BuiltBundle(c: Crypto, disk: Disk, db: Db, id: string)
    requires SoundDb(c, disk, db) && id in db.bundles
    ensures AllRecorded(c, disk, db.vFiles, db.bundles[id].content)
    ensures var contents := ContentsAt(disk, db.bundles[id].content);
            && ContentsOccur(c, contents)
            && db.bundles[id].part.storageName == BundleNameFor(c, contents)
            && db.bundles[id].part.cryptDataKey == c.dataKey(ContentsHash(c, contents))
  {
    hide Recorded, FilesAt, StorageSum, PlainHashes, ContentsAt, StoredFormsOf, HashesOf, Chunk, Cipher, PartCount;
    var b := db.bundles[id];
    forall p | p in b.content ensures p in disk && Recorded(c, disk, p, db.vFiles[p]) {
      OnePart(c, disk, p, db.vFiles[p]);
    }
    BundleOnDisk(c, disk, db.vFiles, b.content);
    forall x | x in ContentsAt(disk, b.content) ensures x in c.occurs {
      var p := ContentOf(disk, b.content, x);
      OnePartFile(c, disk, p, db.vFiles[p]);
      OnePart(c, disk, p, db.vFiles[p]);
    }
  }

  /** A file that a bundle lists: what is stored of it, and where. */
  lemma BundleSlot(c: Crypto, disk: Disk, db: Db, id: string, file: VirtFile, index: nat, off: nat)
    requires SoundDb(c, disk, db) && id in db.bundles
    requires Fits(c, disk, db, file) && |file.parts| == 1
    requires Position(db.bundles[id], db.vFiles, file, index, off)
    ensures AllRecorded(c, disk, db.vFiles, db.bundles[id].content) && file.relPath in disk
    ensures var pieces := StoredFormsOf(c, ContentsAt(disk, db.bundles[id].content));
            && index < |pieces| && pieces[index] == StoredFormOf(c, disk[file.relPath])
            && off == |Flatten(pieces[..index])| && StoredSize(file) == |pieces[index]|
  {
    BuiltBundle(c, disk, db, id);
    KeyIsPath(c, disk, db, db.bundles[id].content[index]);
    KeyIsPath(c, disk, db, file.relPath);
    hide SoundDb, Recorded, StoredFormsOf, ContentsAt, StoredFormOf, StoredBefore, BundleNameFor, ContentsOccur, StoredSize;
    var content := db.bundles[id].content;
    ContentsAtEach(disk, content);
    StoredFormsAt(c, ContentsAt(disk, content));
    OffsetIsLength(c, disk, db.vFiles, content, index);
    OnePartFile(c, disk, file.relPath, file);
  }

  /** Decrypting from the middle of a bundle gives one of the pieces it was encrypted from. */
  lemma DecryptPiece(c: Crypto, key: Bytes, pieces: seq<Bytes>, index: nat)
    requires index < |pieces|
    ensures var whole := Crypt(c, key, Flatten(pieces), 0);
            var off, n := |Flatten(pieces[..index])|, |pieces[index]|;
            off + n <= |whole| && Crypt(c, key, Range(whole, off, n), off) == pieces[index]
  {
    var off, n := |Flatten(pieces[..index])|, |pieces[index]|;
    PieceOfFlatten(pieces, index);
    DecryptRange(c, key, Crypt(c, key, Flatten(pieces), 0), off, n);
    CryptTwice(c, key, Flatten(pieces), 0);
    assert Range(Flatten(pieces), off, n) == pieces[index];
  }

  lemma BundleFileContent(c: Crypto, files: set<StorageFile>, contents: seq<Bytes>, part: VFilePart, f: StorageFile)
    requires SoundStorage(c, files) && ContentsOccur(c, contents) && part.storageName == BundleNameFor(c, contents)
    requires f in files && MatchesPart(f, part)
    ensures f.content == Crypt(c, c.dataKey(ContentsHash(c, contents)), Flatten(StoredFormsOf(c, contents)), 0)
  {
    hide ContentsOccur, BundleNameFor, ContentsHash, StoredFormsOf, Crypt, HonestMd5;
    assert f.content == BundleCipherFor(c, contents);
  }

  lemma BundleSourceReads(c: Crypto, disk: Disk, db: Db, list: seq<StorageFile>, file: VirtFile, src: Source)
    requires SoundDb(c, disk, db) && SoundStorage(c, SetOf(list))
    requires Fits(c, disk, db, file) && FromBundle(list, db, file, src)
    ensures file.relPath in disk && src.off + src.n <= Size(src.file)
    ensures Crypt(c, src.key, Range(src.file.content, src.off, src.n), src.off) == StoredFormOf(c, disk[file.relPath])
  {
    hide SoundDb, SoundStorage, Position, Recorded, StoredFormsOf, ContentsAt, StoredFormOf, MatchesPart, Crypt, Range,
         BundleNameFor, ContentsOccur;
    var id := file.alsoInBundle;
    var index: nat :| Position(db.bundles[id], db.vFiles, file, index, src.off);
    BundleSlot(c, disk, db, id, file, index, src.off);
    BuiltBundle(c, disk, db, id);
    var contents := ContentsAt(disk, db.bundles[id].content);
    BundleFileContent(c, SetOf(list), contents, db.bundles[id].part, src.file);
    DecryptPiece(c, src.key, StoredFormsOf(c, contents), index);
  }

  lemma KeyIsPath(c: Crypto, disk: Disk, db: Db, k: string)
    requires FilesRecorded(c, disk, db) && k in db.vFiles
    ensures db.vFiles[k].relPath == k && Recorded(c, disk, k, db.vFiles[k])
  {
  }

  /** Reading from a bundle refines reading the part: whatever the links of the database are, and
      wherever bundleOrPart decides to read from, the decrypted range is the stored form of the file. */
  lemma BundleReadRefinesPartRead(c: Crypto, disk: Disk, db: Db, list: seq<StorageFile>, file: VirtFile, src: Source)
    requires SoundDb(c, disk, db) && SoundStorage(c, SetOf(list))
    requires Fits(c, disk, db, file)
    requires FromPart(list, file, src) || FromBundle(list, db, file, src)
    ensures file.relPath in disk && src.off + src.n <= Size(src.file) && src.n == |StoredFormOf(c, disk[file.relPath])|
    ensures Crypt(c, src.key, Range(src.file.content, src.off, src.n), src.off) == StoredFormOf(c, disk[file.relPath])
    ensures forall part :: FromPart(list, file, part) ==>
              Crypt(c, src.key, Range(src.file.content, src.off, src.n), src.off) ==
              Crypt(c, part.key, Range(part.file.content, part.off, part.n), part.off)
  {
    hide SoundStorage, SoundDb, Crypt, Range, StoredFormOf;
    if FromPart(list, file, src) {
      PartSourceReads(c, disk, db, list, file, src);
    } else {
      BundleSourceReads(c, disk, db, list, file, src);
    }
    OnePartFile(c, disk, file.relPath, file);
    forall part | FromPart(list, file, part)
      ensures Crypt(c, part.key, Range(part.file.content, part.off, part.n), part.off) ==
              StoredFormOf(c, disk[file.relPath])
    {
      PartSourceReads(c, disk, db, list, file, part);
    }
  }

  lemma SoundRecorded(c: Crypto, disk: Disk, db: Db, k: string)
    requires SoundDb(c, disk, db) && k in db.vFiles
    ensures Recorded(c, disk, k, db.vFiles[k])
  {
  }

  // ----- Open -----

  /** A direct read of a storage file: it may fail, or stop at the end of the file. */
  method RawReadAt(file: StorageFile, data: array<bv8>, off: nat, reliable: bool) returns (n: nat, failed: bool)
    modifies data
    ensures n <= data.Length && (failed ==> !reliable)
    ensures !failed ==> data[..n] == Range(file.content, off, data.Length)
  {
    var b := Range(file.content, off, data.Length);
    n := |b|;
    for i := 0 to n
      invariant data[..i] == b[..i]
    {
      data[i] := b[i];
    }
    assert b[..n] == b;
    var fails: bool := *;
    failed := fails && !reliable;
  }

  /** Reads a range into memory and decrypts it in place. */
  method ReadDecrypted(c: Crypto, src: Source, reliable: bool) returns (r: Result<Bytes>)
    requires ValidKey(src.key)
    ensures r.Ok? ==> r.value == Crypt(c, src.key, Range(src.file.content, src.off, src.n), src.off)
    ensures r.Err? ==> (r.error == ServiceFailed && !reliable) || (r.error == UnexpectedEof && src.off + src.n > Size(src.file))
  {
    var data := new bv8[src.n];
    var n2, failed := RawReadAt(src.file, data, src.off, reliable);
    if failed {
      return Err(ServiceFailed);
    }
    if n2 != src.n {
      return Err(UnexpectedEof);
    }
    var ok := CryptBytes(c, data, n2, src.off, src.key);
    return Ok(data[..n2]);
  }

  /** The storage files of all parts, and their keys by file id. */
  ghost predicate Collected(list: seq<StorageFile>, parts: seq<VFilePart>, files: seq<StorageFile>, keys: map<string, Bytes>) {
    && |files| == |parts|
    && (forall i :: 0 <= i < |parts| ==> files[i] in list && MatchesPart(files[i], parts[i]))
    && (forall i :: 0 <= i < |parts| ==> files[i].id in keys)
    && (forall id :: id in keys ==>
          exists i :: 0 <= i < |parts| && files[i].id == id && keys[id] == parts[i].cryptDataKey)
  }

  lemma CollectedStep(list: seq<StorageFile>, parts: seq<VFilePart>, i: nat, files: seq<StorageFile>,
                      keys: map<string, Bytes>, f: StorageFile)
    requires i < |parts| && Collected(list, parts[..i], files, keys) && f in list && MatchesPart(f, parts[i])
    ensures Collected(list, parts[..i + 1], files + [f], keys[f.id := parts[i].cryptDataKey])
  {
    hide MatchesPart;
    var next, more := keys[f.id := parts[i].cryptDataKey], files + [f];
    assert parts[..i + 1] == parts[..i] + [parts[i]];
    forall id | id in next
      ensures exists j :: 0 <= j < i + 1 && more[j].id == id && next[id] == parts[..i + 1][j].cryptDataKey
    {
      if id == f.id {
        assert more[i].id == id;
      } else {
        var j :| 0 <= j < i && files[j].id == id && keys[id] == parts[..i][j].cryptDataKey;
        assert more[j].id == id && parts[..i + 1][j] == parts[..i][j];
      }
    }
  }

  method CollectParts(parts: seq<VFilePart>, list: seq<StorageFile>)
    returns (r: Result<(seq<StorageFile>, map<string, Bytes>)>)
    ensures r.Ok? ==> Collected(list, parts, r.value.0, r.value.1)
    ensures r.Err? <==> exists p :: p in parts && !Resolves(SetOf(list), p)
    ensures r.Err? ==> r.error == NotExist
  {
    hide Collected;
    var files: seq<StorageFile>, keys: map<string, Bytes> := [], map[];
    CollectedNothing(list, parts);
    for i := 0 to |parts|
      invariant Collected(list, parts[..i], files, keys)
      invariant forall p :: p in parts[..i] ==> Resolves(SetOf(list), p)
    {
      var part := parts[i];
      assert part in parts && parts[..i + 1] == parts[..i] + [part];
      var sf := ByAttr(list, part.storageName, part.storageSize, part.storageMd5);
      match sf {
        case Err(e) =>
          return Err(e);
        case Ok(f) =>
          assert f in SetOf(list) && MatchesPart(f, part);
          CollectedStep(list, parts, i, files, keys, f);
          files := files + [f];
          keys := keys[f.id := part.cryptDataKey];
      }
    }
    assert parts[..|parts|] == parts;
    return Ok((files, keys));
  }

  lemma CollectedNothing(list: seq<StorageFile>, parts: seq<VFilePart>)
    ensures Collected(list, parts[..0], [], map[])
  {
  }

  function Decrypted(c: Crypto, src: Source): Bytes {
    Crypt(c, src.key, Range(src.file.content, src.off, src.n), src.off)
  }

  /** The reader that Open returns, case by case. */
  ghost predicate Opened(c: Crypto, list: seq<StorageFile>, vDb: Db, file: VirtFile, reader: ReaderAt) {
    if file.fileSize <= 0 || file.isDir then reader == ZeroReader
    else if |file.parts| == 1 && file.useCompression then
      exists src :: Chosen(list, vDb, file, src) && reader.RamReader? && c.decompress(Decrypted(c, src)) == Some(reader.data)
    else if |file.parts| == 1 then
      exists src :: Chosen(list, vDb, file, src) &&
                    reader == SubReader(src.file, CryptRService(map[src.file.id := src.key]), src.off, src.n)
    else
      reader.MultiReader? && Collected(list, file.parts, reader.files, reader.service.keys)
  }

  /** Why Open fails. */
  ghost predicate OpenError(c: Crypto, list: seq<StorageFile>, vDb: Db, file: VirtFile, reliable: bool, e: Error) {
    || (e == ServiceFailed && !reliable)
    || (e == NotExist && exists p :: p in file.parts && !Resolves(SetOf(list), p))
    || (e == UnexpectedEof && file.useCompression && exists src :: Chosen(list, vDb, file, src) && src.off + src.n > Size(src.file))
    || (e == BadCompression && file.useCompression && exists src :: Chosen(list, vDb, file, src) && c.decompress(Decrypted(c, src)).None?)
  }

  ghost predicate ChosenKeysValid(list: seq<StorageFile>, vDb: Db, file: VirtFile) {
    forall src :: Chosen(list, vDb, file, src) ==> ValidKey(src.key)
  }

  /** Opens a file of the database, with the file list of the service. */
  method Open(c: Crypto, file: VirtFile, vDb: Db, list: seq<StorageFile>, reliable: bool) returns (r: Result<ReaderAt>)
    requires ChosenKeysValid(list, vDb, file)
    ensures r.Ok? ==> Opened(c, list, vDb, file, r.value)
    ensures r.Ok? && file.fileSize > 0 && !file.isDir ==> forall p :: p in file.parts ==> Resolves(SetOf(list), p)
    ensures r.Err? ==> file.fileSize > 0 && !file.isDir && OpenError(c, list, vDb, file, reliable, r.error)
  {
    hide Collected, FromPart, FromBundle, Crypt, Resolves;
    if file.fileSize <= 0 || file.isDir {
      return Ok(ZeroReader);
    }
    if |file.parts| == 1 && file.useCompression {
      r := OpenCompressed(c, file, vDb, list, reliable);
      return;
    }
    if |file.parts| == 1 {
      var source := BundleOrPart(file, vDb, list);
      match source {
        case Err(e) =>
          assert file.parts[0] in file.parts;
          return Err(e);
        case Ok(src) =>
          assert Chosen(list, vDb, file, src);
          var fails: bool := *;
          if fails && !reliable {
            return Err(ServiceFailed);
          }
          var keys := map[src.file.id := src.key];
          return Ok(SubReader(src.file, CryptRService(keys), src.off, src.n));
      }
    }
    var collected := CollectParts(file.parts, list);
    match collected {
      case Err(e) =>
        return Err(e);
      case Ok((files, keys)) =>
        var fails: bool := *;
        if fails && !reliable {
          return Err(ServiceFailed);
        }
        return Ok(MultiReader(files, CryptRService(keys)));
    }
  }

  /** The case of a compressed file: it is read, decrypted and decompressed in memory. */
  method OpenCompressed(c: Crypto, file: VirtFile, vDb: Db, list: seq<StorageFile>, reliable: bool) returns (r: Result<ReaderAt>)
    requires ChosenKeysValid(list, vDb, file)
    requires file.fileSize > 0 && !file.isDir && |file.parts| == 1 && file.useCompression
    ensures r.Ok? ==> Opened(c, list, vDb, file, r.value) && Resolves(SetOf(list), file.parts[0])
    ensures r.Err? ==> OpenError(c, list, vDb, file, reliable, r.error)
  {
    hide Collected, FromPart, FromBundle, Crypt, Resolves;
    var source := BundleOrPart(file, vDb, list);
    match source {
      case Err(e) =>
        assert file.parts[0] in file.parts;
        return Err(e);
      case Ok(src) =>
        assert Chosen(list, vDb, file, src);
        var data := ReadDecrypted(c, src, reliable);
        match data {
          case Err(e) =>
            return Err(e);
          case Ok(stored) =>
            assert stored == Decrypted(c, src);
            var plain := c.decompress(stored);
            if plain.None? {
              return Err(BadCompression);
            }
            return Ok(RamReader(plain.value));
        }
    }
  }

  /** All keys of a sound database have a length that AES accepts. */
  lemma SoundKeys(c: Crypto, disk: Disk, db: Db, list: seq<StorageFile>, file: VirtFile)
    requires SoundDb(c, disk, db) && Fits(c, disk, db, file)
    ensures ChosenKeysValid(list, db, file)
  {
    hide SoundDb, Position, MatchesPart, Recorded;
    forall src | Chosen(list, db, file, src) ensures ValidKey(src.key) {
      if FromPart(list, file, src) {
        OnePartFile(c, disk, file.relPath, file);
        DataKeyValid(c, disk, db, c.sha512(disk[file.relPath]));
      } else {
        BuiltBundle(c, disk, db, file.alsoInBundle);
        DataKeyValid(c, disk, db, ContentsHash(c, ContentsAt(disk, db.bundles[file.alsoInBundle].content)));
      }
    }
  }

  lemma DataKeyValid(c: Crypto, disk: Disk, db: Db, h: Hash)
    requires SoundDb(c, disk, db)
    ensures ValidKey(c.dataKey(h))
  {
  }

  // ----- what an opened file shows -----

  /** The content of a file as the file system shows it. */
  ghost function ShownContent(disk: Disk, file: VirtFile): Bytes {
    if file.isDir || file.relPath !in disk then [] else disk[file.relPath]
  }

  /** An opened file shows exactly the bytes that were scanned, in all four cases. */
  lemma OpenedShowsFile(c: Crypto, disk: Disk, db: Db, list: seq<StorageFile>, file: VirtFile, reader: ReaderAt)
    requires SoundDb(c, disk, db) && SoundStorage(c, SetOf(list)) && UniqueIds(SetOf(list))
    requires Fits(c, disk, db, file)
    requires Opened(c, list, db, file, reader)
    ensures KeysPresent(reader)
    ensures View(c, reader) == ShownContent(disk, file)
  {
    hide SoundDb, SoundStorage, FromPart, FromBundle, Collected, Recorded, UniqueIds, Crypt, Range, StoredFormOf;
    if file.fileSize <= 0 || file.isDir {
      EmptyFile(c, disk, file);
    } else if |file.parts| == 1 && file.useCompression {
      var src :| Chosen(list, db, file, src) && c.decompress(Decrypted(c, src)) == Some(reader.data);
      BundleReadRefinesPartRead(c, disk, db, list, file, src);
      OnePartFile(c, disk, file.relPath, file);
      StoredDecompresses(c, disk, db, file);
    } else if |file.parts| == 1 {
      var src :| Chosen(list, db, file, src) &&
                 reader == SubReader(src.file, CryptRService(map[src.file.id := src.key]), src.off, src.n);
      BundleReadRefinesPartRead(c, disk, db, list, file, src);
      OnePartFile(c, disk, file.relPath, file);
      SubReaderShows(c, src);
      StoredPlain(c, disk[file.relPath]);
    } else {
      MultiPartShows(c, disk, db, list, file, reader);
    }
  }

  lemma EmptyFile(c: Crypto, disk: Disk, file: VirtFile)
    requires Recorded(c, disk, file.relPath, file) && (file.fileSize <= 0 || file.isDir)
    ensures ShownContent(disk, file) == []
  {
    if !file.isDir {
      assert Unlink(file).fileSize == |disk[file.relPath]|;
    }
  }

  lemma StoredDecompresses(c: Crypto, disk: Disk, db: Db, file: VirtFile)
    requires SoundDb(c, disk, db) && file.relPath in disk && UsesCompression(c, disk[file.relPath])
    ensures c.decompress(StoredFormOf(c, disk[file.relPath])) == Some(disk[file.relPath])
  {
  }

  lemma StoredPlain(c: Crypto, content: Bytes)
    ensures !UsesCompression(c, content) ==> StoredFormOf(c, content) == content
  {
  }

  lemma SubReaderShows(c: Crypto, src: Source)
    requires src.off + src.n <= Size(src.file)
    ensures var r := SubReader(src.file, CryptRService(map[src.file.id := src.key]), src.off, src.n);
            KeysPresent(r) && View(c, r) == Decrypted(c, src)
  {
    DecryptRange(c, src.key, src.file.content, src.off, src.n);
  }

  /** Every collected file is read with the key of its own part, also when parts share a file. */
  lemma CollectedKey(c: Crypto, disk: Disk, db: Db, list: seq<StorageFile>, file: VirtFile,
                     files: seq<StorageFile>, keys: map<string, Bytes>, i: nat)
    requires SoundDb(c, disk, db) && SoundStorage(c, SetOf(list)) && UniqueIds(SetOf(list))
    requires Fits(c, disk, db, file)
    requires Collected(list, file.parts, files, keys) && i < |files|
    ensures file.relPath in disk && files[i].id in keys
    ensures Crypt(c, keys[files[i].id], files[i].content, 0) ==
            StoredForm(c, file.useCompression, Chunk(disk[file.relPath], i))
  {
    hide SoundDb, SoundStorage, Chunk, MatchesPart, StoredForm;
    var id := files[i].id;
    var j :| 0 <= j < |files| && files[j].id == id && keys[id] == file.parts[j].cryptDataKey;
    assert files[i] in SetOf(list) && files[j] in SetOf(list);
    assert files[i] == files[j];
    PartContent(c, disk, db, SetOf(list), file, i, files[i]);
    PartContent(c, disk, db, SetOf(list), file, j, files[j]);
    SameNameSameChunk(c, disk, db, Chunk(disk[file.relPath], i), Chunk(disk[file.relPath], j));
    CryptTwice(c, keys[id], StoredForm(c, file.useCompression, Chunk(disk[file.relPath], i)), 0);
  }

  lemma SameNameSameChunk(c: Crypto, disk: Disk, db: Db, x: Bytes, y: Bytes)
    requires SoundDb(c, disk, db) && x in c.occurs && y in c.occurs
    requires c.cryptName(c.sha512(x)) == c.cryptName(c.sha512(y))
    ensures x == y
  {
  }

  lemma MultiPartShows(c: Crypto, disk: Disk, db: Db, list: seq<StorageFile>, file: VirtFile, reader: ReaderAt)
    requires SoundDb(c, disk, db) && SoundStorage(c, SetOf(list)) && UniqueIds(SetOf(list))
    requires Fits(c, disk, db, file)
    requires file.fileSize > 0 && !file.isDir && |file.parts| != 1
    requires reader.MultiReader? && Collected(list, file.parts, reader.files, reader.service.keys)
    ensures KeysPresent(reader) && View(c, reader) == ShownContent(disk, file)
  {
    hide *;
    var k := file.relPath;
    FitsAgree(c, disk, db, file);
    ManyParts(c, disk, db, file);
    CollectedLength(list, file.parts, reader.files, reader.service.keys);
    var content := disk[k];
    forall i | 0 <= i < |reader.files|
      ensures reader.files[i].id in reader.service.keys
      ensures Crypt(c, reader.service.keys[reader.files[i].id], reader.files[i].content, 0) == Chunks(content)[i]
    {
      CollectedKey(c, disk, db, list, file, reader.files, reader.service.keys, i);
      PlainStored(c, Chunk(content, i));
      ChunksAt(content, i);
    }
    DecryptedIsFlatten(c, reader.service, reader.files, Chunks(content));
    PartsRebuildFile(content);
    MultiView(c, disk, file, reader);
  }

  lemma CollectedLength(list: seq<StorageFile>, parts: seq<VFilePart>, files: seq<StorageFile>, keys: map<string, Bytes>)
    requires Collected(list, parts, files, keys)
    ensures |files| == |parts|
  {
  }

  lemma ChunksAt(content: Bytes, i: nat)
    requires i < |Chunks(content)|
    ensures Chunks(content)[i] == Chunk(content, i)
  {
  }

  lemma MultiView(c: Crypto, disk: Disk, file: VirtFile, reader: ReaderAt)
    requires reader.MultiReader? && forall f :: f in reader.files ==> f.id in reader.service.keys
    ensures KeysPresent(reader) && View(c, reader) == DecryptedFiles(c, reader.service, reader.files)
    ensures !file.isDir && file.relPath in disk ==> ShownContent(disk, file) == disk[file.relPath]
  {
  }

  lemma PlainStored(c: Crypto, chunk: Bytes)
    ensures StoredForm(c, false, chunk) == chunk
  {
  }

  lemma ManyParts(c: Crypto, disk: Disk, db: Db, file: VirtFile)
    requires SoundDb(c, disk, db) && Recorded(c, disk, file.relPath, file)
    requires !file.isDir && |file.parts| != 1
    ensures file.relPath in disk && !file.useCompression && |file.parts| == |Chunks(disk[file.relPath])|
  {
    hide Chunk;
    assert file.parts == Unlink(file).parts && file.useCompression == Unlink(file).useCompression;
    if file.useCompression {
      CompressedIsOnePart(c, disk[file.relPath]);
    }
  }

  lemma {:induction false} DecryptedIsFlatten(c: Crypto, s: CryptRService, files: seq<StorageFile>, pieces: seq<Bytes>)
    requires |files| == |pieces|
    requires forall i :: 0 <= i < |files| ==> files[i].id in s.keys
    requires forall i :: 0 <= i < |files| ==> Crypt(c, s.keys[files[i].id], files[i].content, 0) == pieces[i]
    ensures forall f :: f in files ==> f.id in s.keys
    ensures DecryptedFiles(c, s, files) == Flatten(pieces)
    decreases |files|
  {
    hide Crypt;
    if files == [] {
    } else {
      DecryptedIsFlatten(c, s, files[1..], pieces[1..]);
      FlattenHead(pieces);
    }
  }

  /** Opening a file of a sound database fails only because a part is not listed, or because the
      service fails. */
  lemma OpenFailsOnlyFor(c: Crypto, disk: Disk, db: Db, list: seq<StorageFile>, file: VirtFile, reliable: bool, e: Error)
    requires SoundDb(c, disk, db) && SoundStorage(c, SetOf(list))
    requires Fits(c, disk, db, file)
    requires OpenError(c, list, db, file, reliable, e)
    ensures (e == ServiceFailed && !reliable) || (e == NotExist && exists p :: p in file.parts && !Resolves(SetOf(list), p))
  {
    hide SoundDb, SoundStorage, Chosen, Decrypted, Resolves;
    forall src | Chosen(list, db, file, src) && file.useCompression
      ensures src.off + src.n <= Size(src.file) && c.decompress(Decrypted(c, src)).Some?
    {
      ChosenReads(c, disk, db, list, file, src);
    }
  }

  lemma ChosenReads(c: Crypto, disk: Disk, db: Db, list: seq<StorageFile>, file: VirtFile, src: Source)
    requires SoundDb(c, disk, db) && SoundStorage(c, SetOf(list))
    requires Fits(c, disk, db, file)
    requires Chosen(list, db, file, src) && file.useCompression
    ensures src.off + src.n <= Size(src.file) && c.decompress(Decrypted(c, src)).Some?
  {
    hide SoundDb, SoundStorage, FromPart, FromBundle, Recorded, Crypt, Range, StoredFormOf;
    ChosenOnePart(list, db, file, src);
    BundleReadRefinesPartRead(c, disk, db, list, file, src);
    OnePartFile(c, disk, file.relPath, file);
    StoredDecompresses(c, disk, db, file);
  }

  lemma ChosenOnePart(list: seq<StorageFile>, db: Db, file: VirtFile, src: Source)
    requires Chosen(list, db, file, src)
    ensures |file.parts| == 1
  {
  }
}
