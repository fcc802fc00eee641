/** core/upload.go: uploading parts, bundles and the index, in this order.

    The ghost Session of a run records what it changes online and for which parts. Good says
    that the database describes the disk; without it the methods still keep their books, but what they
    save need not be what the database names. */
module Uploading {
  import opened Primitives
  import opened Ctr
  import opened Seqs
  import opened Types
  import opened Paths
  import opened Splitting
  import opened ScanningFile
  import opened Bundling
  import opened BundleLaws
  import opened Storage
  import opened Cleaning
  import opened CleanLaws
  import opened Protocol
  import opened Consistency

  // ----- the session -----

  ghost predicate SameStorage(p: VFilePart, q: VFilePart) {
    p.storageName == q.storageName && p.storageSize == q.storageSize && p.storageMd5 == q.storageMd5
  }

  /** The key of a bundle in the map of uploaded parts; the key of a part is that of Clean. */
  function BundleKey(p: VFilePart): string {
    p.storageName + "#" + Decimal(p.storageSize)
  }

  ghost function KeyFor(p: VFilePart): string {
    if |p.storageName| == 130 then BundleKey(p) else PartKey(p)
  }

  /** The database describes the disk, and nothing that is hashed collides. */
  ghost predicate Good(c: Crypto, disk: Disk, db: Db) {
    c.Sound() && Describes(c, disk, db) && DataOccurs(c, disk, db)
  }

  datatype Session = Session(
    ghost online0: set<StorageFile>,   // online, and listed, when the run began
    ghost ever0: set<StorageFile>,
    ghost log0: seq<Op>,
    ghost ops: seq<Op>,                // the saves of this run so far
    ghost parts: seq<VFilePart>)       // the part each was made for

  ghost predicate HasEntry(uploaded: map<string, VFilePart>, p: VFilePart) {
    exists k :: k in uploaded && SameStorage(p, uploaded[k])
  }

  /** Every save is for a part that was not online, and not saved in this run before. */
  ghost predicate Deduped(s: Session, uploaded: map<string, VFilePart>) {
    && (forall i :: 0 <= i < |s.parts| ==> !Resolves(s.online0, s.parts[i]))
    && (forall i, j :: 0 <= i < j < |s.parts| ==> !SameStorage(s.parts[i], s.parts[j]))
    && (forall i :: 0 <= i < |s.parts| ==> HasEntry(uploaded, s.parts[i]))
    && (forall k :: k in uploaded ==> k == KeyFor(uploaded[k]) && uploaded[k] in s.parts)
  }

  /** The books of a run while it saves parts and bundles. */
  ghost predicate Bookkept(c: Crypto, disk: Disk, db: Db, s: Session, service: Service, uploaded: map<string, VFilePart>)
    reads service
  {
    && service.Valid() && service.c == c
    && service.log == s.log0 + s.ops
    && service.online == Replay(s.online0, s.ops)
    && service.ever == EverAfter(s.ever0, s.ops) && FreshSaves(s.ever0, s.ops)
    && |s.parts| == |s.ops|
    && (forall i :: 0 <= i < |s.ops| ==> s.ops[i].Saved? && s.ops[i].file.name == s.parts[i].storageName)
    && (forall p :: p in s.parts ==> p in DbParts(db))
    && s.online0 <= SetOf(service.list) <= service.online
    && (Good(c, disk, db) ==> SavesMatch(s) && Deduped(s, uploaded))
    && (Good(c, disk, db) && Genuine(c, s.online0) ==> Genuine(c, service.online))
  }

  ghost predicate SavesMatch(s: Session) {
    |s.parts| == |s.ops| && forall i :: 0 <= i < |s.ops| ==> s.ops[i].Saved? && MatchesPart(s.ops[i].file, s.parts[i])
  }

  /** The session of the same run, later. */
  ghost predicate Later(s: Session, t: Session) {
    && t.online0 == s.online0 && t.ever0 == s.ever0 && t.log0 == s.log0
    && s.ops <= t.ops && s.parts <= t.parts
  }

  ghost function SessionPlus(s: Session, f: StorageFile, p: VFilePart): Session {
    Session(s.online0, s.ever0, s.log0, s.ops + [Saved(f)], s.parts + [p])
  }

  // ----- keys of uploaded parts -----

  /** For a scanned database the keys of the map tell parts with different attributes apart. */
  lemma KeysIdentify(c: Crypto, disk: Disk, db: Db, p: VFilePart, q: VFilePart)
    requires Good(c, disk, db) && p in DbParts(db) && q in DbParts(db)
    ensures KeyFor(p) == KeyFor(q) <==> SameStorage(p, q)
  {
    hide DbParts, Describes, DataOccurs, Decimal;
    PartShape(c, disk, db, p);
    PartShape(c, disk, db, q);
    var a, b := p.storageName, q.storageName;
    if KeyFor(p) == KeyFor(q) {
      if |a| == 130 && |b| == 130 {
        PrefixEqual(a, "#" + Decimal(p.storageSize), b, "#" + Decimal(q.storageSize));
        assert a + ("#" + Decimal(p.storageSize)) == BundleKey(p);
        assert b + ("#" + Decimal(q.storageSize)) == BundleKey(q);
      } else if |a| == 128 && |b| == 128 {
        assert a + ("|" + p.storageMd5) == PartKey(p) && b + ("|" + q.storageMd5) == PartKey(q);
        PrefixEqual(a, "|" + p.storageMd5, b, "|" + q.storageMd5);
        PrefixEqual("|", p.storageMd5, "|", q.storageMd5);
        PartsOfScanAgree(c, disk, db, p, q);
      } else if |a| == 128 {
        KeysDiffer(p, q);
      } else {
        KeysDiffer(q, p);
      }
    }
  }

  lemma PrefixEqual(a: string, u: string, b: string, v: string)
    requires |a| == |b|
    ensures a + u == b + v ==> a == b && u == v
  {
    if a + u == b + v {
      assert a == (a + u)[..|a|] && b == (b + v)[..|b|];
      assert u == (a + u)[|a|..] && v == (b + v)[|b|..];
    }
  }

  lemma KeysDiffer(p: VFilePart, q: VFilePart)
    requires |p.storageName| == 128 && |q.storageName| == 130 && NoBar(q.storageName)
    ensures PartKey(p) != BundleKey(q)
  {
    assert PartKey(p)[128] == '|';
    assert BundleKey(q)[128] == q.storageName[128];
  }

  /** The keys of all parts have a length that encryption accepts; it panics on others. */
  ghost predicate KeysUsable(db: Db) {
    && (forall k, p :: k in db.vFiles && p in db.vFiles[k].parts ==> ValidKey(p.cryptDataKey))
    && (forall id :: id in db.bundles ==> ValidKey(db.bundles[id].part.cryptDataKey))
  }

  // ----- one more save -----

  /** A part that exists neither online nor in the session is booked without repetition. */
  lemma DedupStep(c: Crypto, disk: Disk, db: Db, s: Session, uploaded: map<string, VFilePart>, f: StorageFile, p: VFilePart)
    requires Good(c, disk, db) && Deduped(s, uploaded) && p in DbParts(db)
    requires forall q :: q in s.parts ==> q in DbParts(db)
    requires !Resolves(s.online0, p)
    requires !HasEntry(uploaded, p)
    ensures Deduped(SessionPlus(s, f, p), uploaded[KeyFor(p) := p])
  {
    hide Good, DbParts, KeyFor, Resolves, HasEntry, SameStorage;
    var t, next := SessionPlus(s, f, p), uploaded[KeyFor(p) := p];
    SameAsItself(p);
    EntryAt(next, p, KeyFor(p));
    forall q | q in s.parts ensures !SameStorage(q, p) && HasEntry(next, q) {
      EntryStays(c, disk, db, s, uploaded, p, q);
    }
    forall i | 0 <= i < |t.parts| ensures HasEntry(next, t.parts[i]) && !Resolves(s.online0, t.parts[i]) {
      assert i < |s.parts| ==> t.parts[i] == s.parts[i] && s.parts[i] in s.parts;
    }
    forall i, j | 0 <= i < j < |t.parts| ensures !SameStorage(t.parts[i], t.parts[j]) {
      assert t.parts[i] == s.parts[i] && s.parts[i] in s.parts;
    }
  }

  lemma EntryStays(c: Crypto, disk: Disk, db: Db, s: Session, uploaded: map<string, VFilePart>, p: VFilePart, q: VFilePart)
    requires Good(c, disk, db) && Deduped(s, uploaded) && p in DbParts(db)
    requires forall x :: x in s.parts ==> x in DbParts(db)
    requires !HasEntry(uploaded, p) && q in s.parts
    ensures !SameStorage(q, p) && HasEntry(uploaded[KeyFor(p) := p], q)
  {
    hide *;
    var k := EntryOf(s, uploaded, q);
    KeysIdentify(c, disk, db, p, uploaded[k]);
    NotSameStorage(uploaded, p, q, k);
    EntryAt(uploaded[KeyFor(p) := p], q, k);
  }

  lemma EntryOf(s: Session, uploaded: map<string, VFilePart>, q: VFilePart) returns (k: string)
    requires Deduped(s, uploaded) && q in s.parts
    ensures k in uploaded && SameStorage(q, uploaded[k]) && k == KeyFor(uploaded[k]) && uploaded[k] in s.parts
  {
    hide KeyFor, Resolves, SameStorage;
    var i :| 0 <= i < |s.parts| && s.parts[i] == q;
    assert HasEntry(uploaded, q);
    k :| k in uploaded && SameStorage(q, uploaded[k]);
  }

  lemma SameAsItself(p: VFilePart)
    ensures SameStorage(p, p)
  {
  }

  lemma NotSameStorage(uploaded: map<string, VFilePart>, p: VFilePart, q: VFilePart, k: string)
    requires !HasEntry(uploaded, p) && k in uploaded && SameStorage(q, uploaded[k])
    ensures !SameStorage(p, uploaded[k]) && !SameStorage(q, p)
  {
  }

  lemma EntryAt(uploaded: map<string, VFilePart>, q: VFilePart, k: string)
    requires k in uploaded && SameStorage(q, uploaded[k])
    ensures HasEntry(uploaded, q)
  {
  }

  /** Booking a save. */
  lemma BookStep(c: Crypto, disk: Disk, db: Db, s: Session, service: Service, uploaded: map<string, VFilePart>,
                 online: set<StorageFile>, ever: set<StorageFile>, f: StorageFile, p: VFilePart, uploaded2: map<string, VFilePart>)
    requires service.Valid() && service.c == c && |s.parts| == |s.ops|
    requires forall i :: 0 <= i < |s.ops| ==> s.ops[i].Saved? && s.ops[i].file.name == s.parts[i].storageName
    requires forall q :: q in s.parts ==> q in DbParts(db)
    requires online == Replay(s.online0, s.ops) && ever == EverAfter(s.ever0, s.ops) && FreshSaves(s.ever0, s.ops)
    requires p in DbParts(db) && f.name == p.storageName
    requires service.online == Apply(online, Saved(f)) && service.ever == ever + {f}
    requires forall g :: g in ever ==> g.id != f.id
    requires service.log == s.log0 + s.ops + [Saved(f)]
    requires s.online0 <= SetOf(service.list) <= service.online
    requires Good(c, disk, db) ==> SavesMatch(s) && MatchesPart(f, p) && Deduped(SessionPlus(s, f, p), uploaded2)
    requires Good(c, disk, db) && Genuine(c, s.online0) ==> Genuine(c, service.online)
    ensures Bookkept(c, disk, db, SessionPlus(s, f, p), service, uploaded2)
  {
    hide Good, DbParts, Deduped, Genuine, MatchesPart;
    var t := SessionPlus(s, f, p);
    assert Init(t.ops) == s.ops && Last(t.ops) == Saved(f);
    assert s.log0 + s.ops + [Saved(f)] == s.log0 + t.ops;
    NewFileShape(service, f);
  }

  lemma NewFileShape(service: Service, f: StorageFile)
    requires service.Valid() && f in service.ever
    ensures f.id != "" && NoBar(f.md5)
  {
  }

  // ----- exists -----

  /** Is a part online according to the list, or uploaded in this run? */
  method Exists(part: VFilePart, service: Service, uploadedParts: map<string, VFilePart>) returns (found: bool)
    ensures found <==> HasEntry(uploadedParts, part) || Resolves(SetOf(service.list), part)
  {
    var todo := uploadedParts.Keys;
    while todo != {}
      invariant todo <= uploadedParts.Keys
      invariant forall k :: k in uploadedParts.Keys - todo ==> !SameStorage(part, uploadedParts[k])
      decreases todo
    {
      var k :| k in todo;
      var up := uploadedParts[k];
      if part.storageName == up.storageName && part.storageSize == up.storageSize && part.storageMd5 == up.storageMd5 {
        return true;
      }
      todo := todo - {k};
    }
    var r := ByAttr(service.list, part.storageName, part.storageSize, part.storageMd5);
    match r {
      case Ok(f) =>
        assert f in SetOf(service.list) && MatchesPart(f, part);
        return true;
      case Err(_) =>
        return false;
    }
  }

  // ----- parts -----

  /** Uploads one part; on success exactly one file is saved. */
  method UploadPart(c: Crypto, fh: FileHandle, partNo: nat, useCompr: bool, cryptKey: Bytes,
                    storageName: string, storageSize: nat, service: Service)
    returns (r: Result<StorageFile>)
    requires service.Valid() && ValidKey(cryptKey)
    modifies fh, service
    ensures service.Valid()
    ensures r == Err(SecondPartCompressed) <==> useCompr && partNo > 0
    ensures r == Err(SizeCheckFailed) <==>
              useCompr && partNo == 0 && |c.compress(Chunk(fh.content, partNo))| != storageSize
    ensures r.Err? ==> r.error in {SecondPartCompressed, SizeCheckFailed, ServiceFailed} && unchanged(service)
    ensures r == Err(ServiceFailed) ==> !service.reliable
    ensures r.Ok? ==> r.value.name == storageName
    ensures r.Ok? ==> r.value.content == Crypt(c, cryptKey, StoredForm(c, useCompr, Chunk(fh.content, partNo)), 0)
    ensures r.Ok? ==> forall g :: g in old(service.ever) ==> g.id != r.value.id
    ensures r.Ok? ==> service.ever == old(service.ever) + {r.value}
    ensures r.Ok? ==> service.log == old(service.log) + [Saved(r.value)]
    ensures r.Ok? ==> service.online == Apply(old(service.online), Saved(r.value))
    ensures r.Ok? ==> service.list == old(service.list) || service.list == old(service.list) + [r.value]
  {
    if useCompr && partNo > 0 {
      return Err(SecondPartCompressed);
    }
    fh.Seek(partNo * PART_SIZE);
    var b := fh.ReadLimited(PART_SIZE);
    if useCompr {
      b := c.compress(b);
      if |b| != storageSize {
        return Err(SizeCheckFailed);
      }
    }
    var crypted := Encrypted(c, b, cryptKey);
    r := service.Save(storageName, crypted);
  }

  /** For a scanned database the checks of uploadPart pass, and what is encrypted is what the part
      describes. */
  lemma PartUploads(c: Crypto, disk: Disk, db: Db, vFile: VirtFile, partNo: nat)
    requires Good(c, disk, db) && partNo < |vFile.parts|
    requires vFile.relPath in db.vFiles && db.vFiles[vFile.relPath] == vFile
    ensures vFile.relPath in disk && !vFile.isDir && vFile.fileSize > 0
    ensures var part, chunk := vFile.parts[partNo], Chunk(disk[vFile.relPath], partNo);
            && !(vFile.useCompression && partNo > 0)
            && |StoredForm(c, vFile.useCompression, chunk)| == part.storageSize
            && part.storageMd5 == c.md5(Crypt(c, part.cryptDataKey, StoredForm(c, vFile.useCompression, chunk), 0))
            && |part.storageName| == 128
            && Crypt(c, part.cryptDataKey, StoredForm(c, vFile.useCompression, chunk), 0) in c.occurs
  {
    hide Chunk, WellBundled, PartCount;
    var content := disk[vFile.relPath];
    RecordIn(c, disk, db, vFile.relPath);
    RecordedParts(c, disk, vFile.relPath, vFile, partNo);
    if vFile.useCompression {
      CompressedIsOnePart(c, content);
    }
    StorageSizes(c, vFile.relPath, vFile.mTime, content);
  }

  lemma {:induction false} SavedIsOnline(online: set<StorageFile>, ops: seq<Op>, i: nat)
    requires i < |ops| && forall j :: 0 <= j < |ops| ==> ops[j].Saved?
    ensures ops[i].file in Replay(online, ops)
  {
    if i == |ops| - 1 {
    } else {
      assert forall j :: 0 <= j < |Init(ops)| ==> Init(ops)[j] == ops[j];
      SavedIsOnline(online, Init(ops), i);
    }
  }

  /** What exists, by the list or by the map of the run, is online. */
  lemma FoundIsOnline(c: Crypto, disk: Disk, db: Db, s: Session, service: Service, uploaded: map<string, VFilePart>, p: VFilePart)
    requires Good(c, disk, db) && Bookkept(c, disk, db, s, service, uploaded)
    requires HasEntry(uploaded, p) || Resolves(SetOf(service.list), p)
    ensures Resolves(service.online, p)
  {
    hide Good, DbParts, Genuine, FreshSaves, KeyFor, Deduped, EverAfter, UniqueIds, HonestMd5;
    if Resolves(SetOf(service.list), p) {
      ResolvesLater(SetOf(service.list), service.online, p);
    } else {
      assert Deduped(s, uploaded);
      EntryIsOnline(s, uploaded, p);
    }
  }

  lemma EntryIsOnline(s: Session, uploaded: map<string, VFilePart>, p: VFilePart)
    requires Deduped(s, uploaded) && SavesMatch(s) && HasEntry(uploaded, p)
    ensures Resolves(Replay(s.online0, s.ops), p)
  {
    hide *;
    var k := UploadedEntry(s, uploaded, p);
    var i :| 0 <= i < |s.parts| && s.parts[i] == uploaded[k];
    MatchedSave(s, i);
    SavedIsOnline(s.online0, s.ops, i);
    SameStorageMatches(Replay(s.online0, s.ops), s.ops[i].file, uploaded[k], p);
  }

  lemma UploadedEntry(s: Session, uploaded: map<string, VFilePart>, p: VFilePart) returns (k: string)
    requires Deduped(s, uploaded) && HasEntry(uploaded, p)
    ensures k in uploaded && SameStorage(p, uploaded[k]) && uploaded[k] in s.parts
  {
    hide KeyFor, Resolves, SameStorage;
    k :| k in uploaded && SameStorage(p, uploaded[k]);
  }

  lemma MatchedSave(s: Session, i: nat)
    requires SavesMatch(s) && i < |s.parts|
    ensures |s.parts| == |s.ops| && MatchesPart(s.ops[i].file, s.parts[i])
    ensures forall j :: 0 <= j < |s.ops| ==> s.ops[j].Saved?
  {
  }

  lemma SameStorageMatches(files: set<StorageFile>, f: StorageFile, q: VFilePart, p: VFilePart)
    requires f in files && MatchesPart(f, q) && SameStorage(p, q)
    ensures Resolves(files, p)
  {
    assert MatchesPart(f, p);
  }

  /** A later set resolves what an earlier one does. */
  lemma ResolvesLater(a: set<StorageFile>, b: set<StorageFile>, p: VFilePart)
    requires a <= b && Resolves(a, p)
    ensures Resolves(b, p)
  {
  }

  /** The books before a save; after a successful one they are balanced again. */
  lemma BookSave(c: Crypto, disk: Disk, db: Db, s: Session, service: Service,
                 uploaded: map<string, VFilePart>, online: set<StorageFile>, ever: set<StorageFile>, list: seq<StorageFile>,
                 f: StorageFile, p: VFilePart, key: string)
    requires BooksWere(c, disk, db, s, uploaded, online, ever, list)
    requires service.Valid() && service.c == c && p in DbParts(db) && f.name == p.storageName
    requires service.online == Apply(online, Saved(f)) && service.ever == ever + {f}
    requires forall g :: g in ever ==> g.id != f.id
    requires service.log == s.log0 + s.ops + [Saved(f)]
    requires service.list == list || service.list == list + [f]
    requires !HasEntry(uploaded, p) && !Resolves(SetOf(list), p)
    requires Good(c, disk, db) ==> key == KeyFor(p) && MatchesPart(f, p)
    requires Good(c, disk, db) && Genuine(c, online) ==> Genuine(c, online + {f})
    ensures Bookkept(c, disk, db, SessionPlus(s, f, p), service, uploaded[key := p])
    ensures Later(s, SessionPlus(s, f, p))
    ensures Good(c, disk, db) ==> Resolves(service.online, p)
  {
    hide Good, DbParts, Deduped, Genuine, FreshSaves, MatchesPart, KeyFor, HasEntry;
    if Resolves(s.online0, p) {
      ResolvesLater(s.online0, SetOf(list), p);
    }
    if Good(c, disk, db) {
      DedupStep(c, disk, db, s, uploaded, f, p);
    }
    assert SetOf(list + [f]) == SetOf(list) + {f};
    BookStep(c, disk, db, s, service, uploaded, online, ever, f, p, uploaded[key := p]);
  }

  /** Bookkept, of a remembered state of the service. */
  ghost predicate BooksWere(c: Crypto, disk: Disk, db: Db, s: Session, uploaded: map<string, VFilePart>,
                            online: set<StorageFile>, ever: set<StorageFile>, list: seq<StorageFile>)
  {
    && online == Replay(s.online0, s.ops)
    && ever == EverAfter(s.ever0, s.ops) && FreshSaves(s.ever0, s.ops)
    && |s.parts| == |s.ops|
    && (forall i :: 0 <= i < |s.ops| ==> s.ops[i].Saved? && s.ops[i].file.name == s.parts[i].storageName)
    && (forall p :: p in s.parts ==> p in DbParts(db))
    && s.online0 <= SetOf(list) <= online
    && (Good(c, disk, db) ==> SavesMatch(s) && Deduped(s, uploaded))
    && (Good(c, disk, db) && Genuine(c, s.online0) ==> Genuine(c, online))
  }

  lemma BooksAre(c: Crypto, disk: Disk, db: Db, s: Session, service: Service, uploaded: map<string, VFilePart>)
    requires Bookkept(c, disk, db, s, service, uploaded)
    ensures BooksWere(c, disk, db, s, uploaded, service.online, service.ever, service.list)
    ensures service.Valid() && service.c == c && service.log == s.log0 + s.ops
  {
  }

  lemma PartInDb(db: Db, k: string, i: nat)
    requires k in db.vFiles && i < |db.vFiles[k].parts|
    ensures db.vFiles[k].parts[i] in DbParts(db)
  {
    assert db.vFiles[k].parts[i] in db.vFiles[k].parts;
  }

  lemma SavedPartMatches(c: Crypto, disk: Disk, db: Db, vFile: VirtFile, partNo: nat, f: StorageFile, online: set<StorageFile>)
    requires Good(c, disk, db) && partNo < |vFile.parts|
    requires vFile.relPath in db.vFiles && db.vFiles[vFile.relPath] == vFile && vFile.relPath in disk
    requires f.name == vFile.parts[partNo].storageName && f.md5 == c.md5(f.content)
    requires f.content == Crypt(c, vFile.parts[partNo].cryptDataKey,
                                StoredForm(c, vFile.useCompression, Chunk(disk[vFile.relPath], partNo)), 0)
    ensures MatchesPart(f, vFile.parts[partNo])
    ensures KeyFor(vFile.parts[partNo]) == PartKey(vFile.parts[partNo])
    ensures Genuine(c, online) ==> Genuine(c, online + {f})
  {
    hide Good, Chunk, Genuine;
    PartUploads(c, disk, db, vFile, partNo);
    if Genuine(c, online) {
      SaveOther(c, online, f);
    }
  }

  lemma SavedMd5(service: Service, f: StorageFile)
    requires service.Valid() && f in service.ever
    ensures f.md5 == service.c.md5(f.content)
  {
  }

  /** Uploads one part of a file unless it exists. */
  method UploadMissingPart(c: Crypto, disk: Disk, ghost db: Db, vFile: VirtFile, partNo: nat, fh: FileHandle,
                           service: Service, uploadedParts: map<string, VFilePart>, ghost s: Session)
    returns (r: Result<()>, uploaded: map<string, VFilePart>, ghost t: Session)
    requires Bookkept(c, disk, db, s, service, uploadedParts)
    requires vFile.relPath in db.vFiles && db.vFiles[vFile.relPath] == vFile
    requires partNo < |vFile.parts| && ValidKey(vFile.parts[partNo].cryptDataKey)
    requires vFile.relPath in disk && fh.content == disk[vFile.relPath]
    modifies fh, service
    ensures Bookkept(c, disk, db, t, service, uploaded) && Later(s, t) && old(service.online) <= service.online
    ensures r.Ok? && Good(c, disk, db) ==> Resolves(service.online, vFile.parts[partNo])
    ensures r.Err? && Good(c, disk, db) ==> r.error == ServiceFailed && !service.reliable
  {
    hide *;
    uploaded, t := uploadedParts, s;
    var part := vFile.parts[partNo];
    BooksAre(c, disk, db, s, service, uploaded);
    LaterSelf(s);
    var found := Exists(part, service, uploaded);
    if found {
      if Good(c, disk, db) {
        FoundIsOnline(c, disk, db, s, service, uploaded, part);
      }
      return Ok(()), uploaded, t;
    }
    ghost var online, ever, list := service.online, service.ever, service.list;
    if Good(c, disk, db) {
      PartUploads(c, disk, db, vFile, partNo);
      SoundStored(c, vFile.useCompression, Chunk(fh.content, partNo));
    }
    var u := UploadPart(c, fh, partNo, vFile.useCompression, part.cryptDataKey, part.storageName, part.storageSize, service);
    match u {
      case Err(e) =>
        return Err(e), uploaded, t;
      case Ok(f) =>
        PartInDb(db, vFile.relPath, partNo);
        SavedMd5(service, f);
        if Good(c, disk, db) {
          SavedPartMatches(c, disk, db, vFile, partNo, f, online);
        }
        BookSave(c, disk, db, s, service, uploaded, online, ever, list, f, part, PartKey(part));
        ApplyGrows(online, f);
        uploaded := uploaded[PartKey(part) := part];
        t := SessionPlus(s, f, part);
        return Ok(()), uploaded, t;
    }
  }

  lemma LaterSelf(s: Session)
    ensures Later(s, s)
  {
  }

  lemma LaterTrans(s: Session, t: Session, u: Session)
    requires Later(s, t) && Later(t, u)
    ensures Later(s, u)
  {
  }

  lemma ApplyGrows(online: set<StorageFile>, f: StorageFile)
    ensures online <= Apply(online, Saved(f))
    ensures Apply(online, Saved(f)) == online + {f}
  {
  }

  lemma SoundStored(c: Crypto, compressed: bool, chunk: Bytes)
    ensures compressed ==> StoredForm(c, compressed, chunk) == c.compress(chunk)
  {
  }

  /** Uploads all parts of a file; folders and empty files are skipped. */
  method UploadFile(c: Crypto, disk: Disk, ghost db: Db, vFile: VirtFile, service: Service,
                    uploadedParts: map<string, VFilePart>, ghost s: Session)
    returns (r: Result<()>, uploaded: map<string, VFilePart>, ghost t: Session)
    requires Bookkept(c, disk, db, s, service, uploadedParts)
    requires vFile.relPath in db.vFiles && db.vFiles[vFile.relPath] == vFile
    requires forall p :: p in vFile.parts ==> ValidKey(p.cryptDataKey)
    modifies service
    ensures Bookkept(c, disk, db, t, service, uploaded) && Later(s, t) && old(service.online) <= service.online
    ensures r.Ok? && Good(c, disk, db) ==> forall p :: p in vFile.parts ==> Resolves(service.online, p)
    ensures r.Err? && Good(c, disk, db) ==> r.error == ServiceFailed && !service.reliable
  {
    hide *;
    uploaded, t := uploadedParts, s;
    LaterSelf(s);
    if Good(c, disk, db) && |vFile.parts| > 0 {
      PartUploads(c, disk, db, vFile, 0);
    }
    if vFile.isDir || vFile.fileSize <= 0 {
      return Ok(()), uploaded, t;
    }
    if Good(c, disk, db) {
      FileOnDisk(c, disk, db, vFile);
    }
    if vFile.relPath !in disk {
      return Err(NotExist), uploaded, t;
    }
    var fh := new FileHandle(disk[vFile.relPath]);
    for partNo := 0 to |vFile.parts|
      invariant Bookkept(c, disk, db, t, service, uploaded) && Later(s, t)
      invariant old(service.online) <= service.online
      invariant Good(c, disk, db) ==> forall p :: p in vFile.parts[..partNo] ==> Resolves(service.online, p)
    {
      var part := vFile.parts[partNo];
      assert part in vFile.parts;
      ghost var online, before := service.online, t;
      var u;
      u, uploaded, t := UploadMissingPart(c, disk, db, vFile, partNo, fh, service, uploaded, t);
      LaterTrans(s, before, t);
      if u.Err? {
        return u, uploaded, t;
      }
      assert vFile.parts[..partNo + 1] == vFile.parts[..partNo] + [part];
      forall p | p in vFile.parts[..partNo] && Resolves(online, p) ensures Resolves(service.online, p) {
        ResolvesLater(online, service.online, p);
      }
    }
    assert vFile.parts[..|vFile.parts|] == vFile.parts;
    return Ok(()), uploaded, t;
  }

  lemma FileOnDisk(c: Crypto, disk: Disk, db: Db, vFile: VirtFile)
    requires Good(c, disk, db) && !vFile.isDir
    requires vFile.relPath in db.vFiles && db.vFiles[vFile.relPath] == vFile
    ensures vFile.relPath in disk
  {
    hide WellBundled, DataOccurs;
    RecordIn(c, disk, db, vFile.relPath);
  }

  // ----- bundles -----

  /** The stored form of a listed file; empty for what is not there. */
  function StoredOf(c: Crypto, disk: Disk, vFiles: map<string, VirtFile>, path: string): Bytes {
    if path in vFiles && vFiles[path].relPath in disk
    then StoredForm(c, vFiles[path].useCompression, disk[vFiles[path].relPath])
    else []
  }

  function StoredOfAll(c: Crypto, disk: Disk, vFiles: map<string, VirtFile>, paths: seq<string>): Bytes {
    if paths == [] then []
    else StoredOfAll(c, disk, vFiles, Init(paths)) + StoredOf(c, disk, vFiles, Last(paths))
  }

  /** Is the listed file there, with one part of the size it has on disk? */
  predicate Bundleable(c: Crypto, disk: Disk, vFiles: map<string, VirtFile>, path: string) {
    && path in vFiles && |vFiles[path].parts| == 1 && vFiles[path].relPath in disk
    && |StoredOf(c, disk, vFiles, path)| == vFiles[path].parts[0].storageSize
  }

  /** Reads and checks one listed file. */
  method ReadBundleFile(c: Crypto, disk: Disk, vDB: Db, vFileId: string) returns (r: Result<Bytes>)
    ensures r.Ok? <==> Bundleable(c, disk, vDB.vFiles, vFileId)
    ensures r.Ok? ==> r.value == StoredOf(c, disk, vDB.vFiles, vFileId)
  {
    // a missing file is the zero value, which has no parts
    if vFileId !in vDB.vFiles || |vDB.vFiles[vFileId].parts| != 1 {
      return Err(WrongPartCount);
    }
    var vFile := vDB.vFiles[vFileId];
    if vFile.relPath !in disk {
      return Err(NotExist);
    }
    var b := disk[vFile.relPath];
    if vFile.useCompression {
      b := c.compress(b);
    }
    if |b| != vFile.parts[0].storageSize {
      return Err(SizeCheckFailed);
    }
    return Ok(b);
  }

  /** Builds the content of a bundle file, encrypting each file at the offset it gets. The result is
      the concatenation encrypted in one piece; the method fails exactly if a check fails. */
  method BuildBundleData(c: Crypto, disk: Disk, vDB: Db, bundle: Bundle) returns (r: Result<Bytes>)
    requires ValidKey(bundle.part.cryptDataKey)
    ensures r.Ok? <==> (forall p :: p in bundle.content ==> Bundleable(c, disk, vDB.vFiles, p)) &&
                       |StoredOfAll(c, disk, vDB.vFiles, bundle.content)| == bundle.part.storageSize
    ensures r.Ok? ==> r.value == Crypt(c, bundle.part.cryptDataKey, StoredOfAll(c, disk, vDB.vFiles, bundle.content), 0)
  {
    hide Crypt, StoredOf, Bundleable, ValidKey;
    var key := bundle.part.cryptDataKey;
    var data: Bytes := [];
    EmptyCrypt(c, key);
    for i := 0 to |bundle.content|
      invariant forall p :: p in bundle.content[..i] ==> Bundleable(c, disk, vDB.vFiles, p)
      invariant data == Crypt(c, key, StoredOfAll(c, disk, vDB.vFiles, bundle.content[..i]), 0)
    {
      var vFileId := bundle.content[i];
      assert vFileId in bundle.content;
      ghost var before := bundle.content[..i];
      assert bundle.content[..i + 1] == before + [vFileId] && Init(bundle.content[..i + 1]) == before;
      var read := ReadBundleFile(c, disk, vDB, vFileId);
      match read {
        case Err(e) =>
          return Err(e);
        case Ok(b) =>
          var crypted := CryptedAt(c, b, |data|, key);
          CryptConcat(c, key, StoredOfAll(c, disk, vDB.vFiles, before), b, 0);
          data := data + crypted;
      }
    }
    assert bundle.content[..|bundle.content|] == bundle.content;
    if |data| != bundle.part.storageSize {
      return Err(SizeCheckFailed);
    }
    return Ok(data);
  }

  lemma EmptyCrypt(c: Crypto, key: Bytes)
    ensures Crypt(c, key, [], 0) == []
  {
  }

  /** A copy of b, encrypted in place at an offset. */
  method CryptedAt(c: Crypto, b: Bytes, offset: nat, key: Bytes) returns (crypted: Bytes)
    requires ValidKey(key)
    ensures crypted == Crypt(c, key, b, offset)
  {
    var buf := new bv8[|b|](i requires 0 <= i < |b| => b[i]);
    assert buf[..|b|] == b;
    var ok := CryptBytes(c, buf, |b|, offset, key);
    return buf[..|b|];
  }

  lemma {:induction false} StoredIsOnDisk(c: Crypto, disk: Disk, vFiles: map<string, VirtFile>, paths: seq<string>)
    requires AllRecorded(c, disk, vFiles, paths)
    ensures StoredOfAll(c, disk, vFiles, paths) == Flatten(StoredFormsOf(c, ContentsAt(disk, paths)))
    ensures forall p :: p in paths ==> Bundleable(c, disk, vFiles, p)
  {
    hide Recorded, StoredForm;
    if paths == [] {
    } else {
      var p := Last(paths);
      assert p in paths;
      StoredIsOnDisk(c, disk, vFiles, Init(paths));
      OnePartBundleable(c, disk, vFiles, p);
      var contents := ContentsAt(disk, Init(paths));
      assert Init(contents + [disk[p]]) == contents;
      FlattenAppend(StoredFormsOf(c, contents), StoredFormOf(c, disk[p]));
      assert paths == Init(paths) + [p];
    }
  }

  lemma OnePartBundleable(c: Crypto, disk: Disk, vFiles: map<string, VirtFile>, p: string)
    requires p in vFiles && Recorded(c, disk, p, vFiles[p]) && |vFiles[p].parts| == 1
    ensures p in disk && Bundleable(c, disk, vFiles, p) && StoredOf(c, disk, vFiles, p) == StoredFormOf(c, disk[p])
  {
    OnePartFile(c, disk, p, vFiles[p]);
  }

  /** For a scanned database every bundle can be built, and its file contains what its name says. */
  lemma BundleBuilds(c: Crypto, disk: Disk, db: Db, id: string)
    requires Good(c, disk, db) && id in db.bundles
    ensures var b := db.bundles[id];
            && AllRecorded(c, disk, db.vFiles, b.content)
            && (forall p :: p in b.content ==> Bundleable(c, disk, db.vFiles, p))
            && |StoredOfAll(c, disk, db.vFiles, b.content)| == b.part.storageSize
            && ContentsOccur(c, ContentsAt(disk, b.content))
            && b.part.storageName == BundleNameFor(c, ContentsAt(disk, b.content))
            && Crypt(c, b.part.cryptDataKey, StoredOfAll(c, disk, db.vFiles, b.content), 0) ==
               BundleCipherFor(c, ContentsAt(disk, b.content))
            && b.part.storageMd5 == "" && |b.part.storageName| == 130 && ValidKey(b.part.cryptDataKey)
  {
    hide Recorded, FilesAt, StorageSum, PlainHashes, ContentsAt, StoredFormsOf, StoredOfAll, HashesOf, DataOccurs;
    var b := db.bundles[id];
    assert BundleEntry(c, db.vFiles, id, b);
    BundleRecorded(c, disk, db, id);
    BundleOnDisk(c, disk, db.vFiles, b.content);
    StoredIsOnDisk(c, disk, db.vFiles, b.content);
    BundleContentsOccur(c, disk, db, id);
  }

  lemma BundleRecorded(c: Crypto, disk: Disk, db: Db, id: string)
    requires Good(c, disk, db) && id in db.bundles
    ensures AllRecorded(c, disk, db.vFiles, db.bundles[id].content)
  {
    hide DataOccurs, BundleOf, FilesAt, StorageSum;
    var b := db.bundles[id];
    assert BundleEntry(c, db.vFiles, id, b);
    forall p | p in b.content
      ensures p in disk && Recorded(c, disk, p, db.vFiles[p])
    {
      RecordIn(c, disk, db, p);
      assert !db.vFiles[p].isDir;
    }
  }

  lemma BundleContentsOccur(c: Crypto, disk: Disk, db: Db, id: string)
    requires Good(c, disk, db) && id in db.bundles
    requires AllRecorded(c, disk, db.vFiles, db.bundles[id].content)
    ensures ContentsOccur(c, ContentsAt(disk, db.bundles[id].content))
  {
    hide Describes, Recorded, BundleOf;
    var b := db.bundles[id];
    assert BundleEntry(c, db.vFiles, id, b) by { EntryIn(c, disk, db, id); }
    BundleOnDisk(c, disk, db.vFiles, b.content);
    forall x | x in ContentsAt(disk, b.content) ensures x in c.occurs {
      var p := ContentOf(disk, b.content, x);
      OnePartFile(c, disk, p, db.vFiles[p]);
      OnePart(c, disk, p, db.vFiles[p]);
    }
  }

  lemma EntryIn(c: Crypto, disk: Disk, db: Db, id: string)
    requires Describes(c, disk, db) && id in db.bundles
    ensures BundleEntry(c, db.vFiles, id, db.bundles[id])
  {
  }

  lemma BundleInDb(db: Db, id: string)
    requires id in db.bundles
    ensures db.bundles[id].part in DbParts(db)
  {
  }

  lemma SavedBundleMatches(c: Crypto, disk: Disk, db: Db, id: string, f: StorageFile, online: set<StorageFile>)
    requires Good(c, disk, db) && id in db.bundles
    requires f.name == db.bundles[id].part.storageName
    requires f.content == Crypt(c, db.bundles[id].part.cryptDataKey,
                                StoredOfAll(c, disk, db.vFiles, db.bundles[id].content), 0)
    ensures MatchesPart(f, db.bundles[id].part)
    ensures KeyFor(db.bundles[id].part) == BundleKey(db.bundles[id].part)
    ensures Genuine(c, online) ==> Genuine(c, online + {f})
  {
    hide DataOccurs, Describes, StoredOfAll, Genuine, BundleNameFor, BundleCipherFor;
    BundleBuilds(c, disk, db, id);
    if Genuine(c, online) {
      SaveGenuine(c, online, f, ContentsAt(disk, db.bundles[id].content));
    }
  }

  /** Uploads one bundle unless it exists. */
  method UploadMissingBundle(c: Crypto, disk: Disk, vDB: Db, id: string, service: Service,
                             uploadedParts: map<string, VFilePart>, ghost s: Session)
    returns (r: Result<()>, uploaded: map<string, VFilePart>, ghost t: Session)
    requires Bookkept(c, disk, vDB, s, service, uploadedParts)
    requires id in vDB.bundles && ValidKey(vDB.bundles[id].part.cryptDataKey)
    modifies service
    ensures Bookkept(c, disk, vDB, t, service, uploaded) && Later(s, t) && old(service.online) <= service.online
    ensures r.Ok? && Good(c, disk, vDB) ==> Resolves(service.online, vDB.bundles[id].part)
    ensures r.Err? && Good(c, disk, vDB) ==> r.error == ServiceFailed && !service.reliable
  {
    hide *;
    uploaded, t := uploadedParts, s;
    var bundle := vDB.bundles[id];
    BooksAre(c, disk, vDB, s, service, uploaded);
    LaterSelf(s);
    var found := Exists(bundle.part, service, uploaded);
    if found {
      if Good(c, disk, vDB) {
        FoundIsOnline(c, disk, vDB, s, service, uploaded, bundle.part);
      }
      return Ok(()), uploaded, t;
    }
    if Good(c, disk, vDB) {
      BundleBuilds(c, disk, vDB, id);
    }
    var data := BuildBundleData(c, disk, vDB, bundle);
    match data {
      case Err(e) =>
        return Err(e), uploaded, t;
      case Ok(content) =>
        ghost var online, ever, list := service.online, service.ever, service.list;
        var u := service.Save(bundle.part.storageName, content);
        match u {
          case Err(e) =>
            return Err(e), uploaded, t;
          case Ok(f) =>
            BundleInDb(vDB, id);
            if Good(c, disk, vDB) {
              SavedBundleMatches(c, disk, vDB, id, f, online);
            }
            BookSave(c, disk, vDB, s, service, uploaded, online, ever, list, f, bundle.part, BundleKey(bundle.part));
            ApplyGrows(online, f);
            uploaded := uploaded[BundleKey(bundle.part) := bundle.part];
            t := SessionPlus(s, f, bundle.part);
            return Ok(()), uploaded, t;
        }
    }
  }

  /** Uploads the bundles, in an arbitrary order. */
  method UploadBundle(c: Crypto, disk: Disk, vDB: Db, service: Service,
                      uploadedParts: map<string, VFilePart>, ghost s: Session)
    returns (r: Result<()>, uploaded: map<string, VFilePart>, ghost t: Session)
    requires Bookkept(c, disk, vDB, s, service, uploadedParts)
    requires KeysUsable(vDB)
    modifies service
    ensures Bookkept(c, disk, vDB, t, service, uploaded) && Later(s, t) && old(service.online) <= service.online
    ensures r.Ok? && Good(c, disk, vDB) ==>
              forall id :: id in vDB.bundles ==> Resolves(service.online, vDB.bundles[id].part)
    ensures r.Err? && Good(c, disk, vDB) ==> r.error == ServiceFailed && !service.reliable
  {
    hide *;
    uploaded, t := uploadedParts, s;
    LaterSelf(s);
    var todo := vDB.bundles.Keys;
    while todo != {}
      invariant todo <= vDB.bundles.Keys
      invariant Bookkept(c, disk, vDB, t, service, uploaded) && Later(s, t)
      invariant old(service.online) <= service.online
      invariant Good(c, disk, vDB) ==>
                  forall id :: id in vDB.bundles.Keys - todo ==> Resolves(service.online, vDB.bundles[id].part)
      decreases todo
    {
      var id :| id in todo;
      ghost var online, before := service.online, t;
      BundleKeyUsable(vDB, id);
      var u;
      u, uploaded, t := UploadMissingBundle(c, disk, vDB, id, service, uploaded, t);
      LaterTrans(s, before, t);
      if u.Err? {
        return u, uploaded, t;
      }
      todo := todo - {id};
      forall p | Resolves(online, p) ensures Resolves(service.online, p) {
        ResolvesLater(online, service.online, p);
      }
    }
    return Ok(()), uploaded, t;
  }

  // ----- the index -----

  /** The removal of the old index files, after the first i files of the list. */
  ghost predicate Retiring(codec: IndexCodec, db: Db, online0: set<StorageFile>, ever0: set<StorageFile>,
                           list: seq<StorageFile>, i: nat, online: set<StorageFile>, ops: seq<Op>)
  {
    && i <= |list|
    && online == Replay(online0, ops)
    && (forall f :: f in online <==> f in online0 && !(IsIndex(f) && f in list[..i]))
    && WriterAfter(Uploading(db), ops) == Uploading(db)
    && EverAfter(ever0, ops) == ever0 && FreshSaves(ever0, ops)
    && IndexOps(ops)
    && (Complete(online0, db) && Publishable(db) ==>
          Complete(online, db) && Legal(codec, Uploading(db), online0, ops))
  }

  /** Changes that touch no part or bundle. */
  ghost predicate IndexOps(ops: seq<Op>) {
    forall op :: op in ops && op.Saved? ==> IsIndex(op.file)
  }

  lemma RetiringStarts(codec: IndexCodec, db: Db, online: set<StorageFile>, ever: set<StorageFile>, list: seq<StorageFile>)
    ensures Retiring(codec, db, online, ever, list, 0, online, [])
  {
    hide Complete, Publishable;
  }

  lemma RetiringSkips(codec: IndexCodec, db: Db, online0: set<StorageFile>, ever0: set<StorageFile>,
                      list: seq<StorageFile>, i: nat, online: set<StorageFile>, ops: seq<Op>)
    requires i < |list| && !IsIndex(list[i]) && Retiring(codec, db, online0, ever0, list, i, online, ops)
    ensures Retiring(codec, db, online0, ever0, list, i + 1, online, ops)
  {
    hide Complete, Publishable, Legal, Replay, WriterAfter, EverAfter, FreshSaves;
    assert list[..i + 1] == list[..i] + [list[i]];
  }

  lemma RetiringStep(codec: IndexCodec, db: Db, online0: set<StorageFile>, ever0: set<StorageFile>,
                     list: seq<StorageFile>, i: nat, online: set<StorageFile>, ops: seq<Op>)
    requires i < |list| && IsIndex(list[i]) && Retiring(codec, db, online0, ever0, list, i, online, ops)
    requires forall g :: g in online && g.id == list[i].id ==> g == list[i]
    ensures Retiring(codec, db, online0, ever0, list, i + 1, Apply(online, Trashed(list[i].id)), ops + [Trashed(list[i].id)])
  {
    hide Complete, Publishable, Legal;
    var op := Trashed(list[i].id);
    var next := ops + [op];
    assert Init(next) == ops && Last(next) == op;
    assert list[..i + 1] == list[..i] + [list[i]];
    if Complete(online0, db) && Publishable(db) {
      LegalStep(codec, Uploading(db), online0, ops, op);
      TrashIndexKeeps(online, list[i].id, db);
    }
    assert IndexOps(next) by {
      forall o | o in next && o.Saved? ensures IsIndex(o.file) {
        assert o in ops;
      }
    }
  }

  lemma RetiringMeans(codec: IndexCodec, db: Db, online0: set<StorageFile>, ever0: set<StorageFile>,
                      list: seq<StorageFile>, i: nat, online: set<StorageFile>, ops: seq<Op>)
    requires Retiring(codec, db, online0, ever0, list, i, online, ops)
    ensures online == Replay(online0, ops) && EverAfter(ever0, ops) == ever0 && FreshSaves(ever0, ops) && IndexOps(ops)
    ensures Complete(online0, db) && Publishable(db) ==> Legal(codec, Uploading(db), online0, ops)
    ensures SameButIndex(online0, online)
    ensures online <= online0
  {
    hide Complete, Publishable, Legal;
  }

  /** The two storages differ in index files only. */
  ghost predicate SameButIndex(a: set<StorageFile>, b: set<StorageFile>) {
    forall f :: !IsIndex(f) ==> (f in a <==> f in b)
  }

  /** After the old index files are gone, the new one is saved. */
  lemma PublishStep(codec: IndexCodec, db: Db, online0: set<StorageFile>, ever0: set<StorageFile>,
                    list: seq<StorageFile>, online: set<StorageFile>, ops: seq<Op>, f: StorageFile)
    requires Retiring(codec, db, online0, ever0, list, |list|, online, ops)
    requires IsIndex(f) && codec.decode(f.content) == Some(db)
    requires f.id != "" && NoBar(f.md5) && forall g :: g in ever0 ==> g.id != f.id
    ensures var next := ops + [Saved(f)];
            && Apply(online, Saved(f)) == Replay(online0, next)
            && EverAfter(ever0, next) == ever0 + {f} && FreshSaves(ever0, next) && IndexOps(next)
            && ((IndexIsListed(online0, list) && Complete(online0, db) && Publishable(db)) ==>
                  Legal(codec, Uploading(db), online0, next))
            && WriterAfter(Uploading(db), next) == Published(db)
            && (IndexIsListed(online0, list) ==> OnlyIndex(codec, Apply(online, Saved(f)), db))
            && SameButIndex(online0, Apply(online, Saved(f)))
  {
    hide Complete, Publishable, Legal;
    var op := Saved(f);
    var next := ops + [op];
    assert Init(next) == ops && Last(next) == op;
    assert list[..|list|] == list;
    if IndexIsListed(online0, list) {
      assert forall g :: g in online ==> !IsIndex(g);
      if Complete(online0, db) && Publishable(db) {
        LegalStep(codec, Uploading(db), online0, ops, op);
      }
    }
    assert IsIndexOf(codec, Apply(online, op), db, f);
    assert IndexOps(next) by {
      forall o | o in next && o.Saved? ensures IsIndex(o.file) {
        assert o in ops || o == op;
      }
    }
  }

  lemma ListedOnce(service: Service)
    requires service.Valid()
    ensures forall f :: f in service.list ==> f in service.ever
  {
  }

  lemma UniqueFileIds(service: Service, f: StorageFile)
    requires service.Valid() && f in service.ever
    ensures forall g :: g in service.online && g.id == f.id ==> g == f
  {
  }

  ghost predicate IndexIsListed(online: set<StorageFile>, list: seq<StorageFile>) {
    forall f :: f in online && IsIndex(f) ==> f in list
  }

  /** Removes all listed index files, then saves the new index. */
  method UploadDb(newDb: Db, codec: IndexCodec, service: Service) returns (r: Result<()>, ghost ops: seq<Op>)
    requires service.Valid() && codec.Sound()
    modifies service
    ensures service.Valid()
    ensures service.log == old(service.log) + ops && service.online == Replay(old(service.online), ops)
    ensures service.ever == EverAfter(old(service.ever), ops) && FreshSaves(old(service.ever), ops)
    ensures IndexOps(ops) && SameButIndex(old(service.online), service.online)
    ensures (IndexIsListed(old(service.online), old(service.list)) &&
             Complete(old(service.online), newDb) && Publishable(newDb)) ==>
              Legal(codec, Uploading(newDb), old(service.online), ops)
    ensures r.Ok? ==> WriterAfter(Uploading(newDb), ops) == Published(newDb)
    ensures r.Ok? && IndexIsListed(old(service.online), old(service.list)) ==> OnlyIndex(codec, service.online, newDb)
    ensures r.Ok? ==> exists f :: f in service.online && f.name == "index.db2" && codec.decode(f.content) == Some(newDb)
    ensures r.Err? ==> r.error == ServiceFailed && !service.reliable
  {
    hide *;
    var all := service.list;
    ListedOnce(service);
    ops := [];
    RetiringStarts(codec, newDb, service.online, service.ever, all);
    for i := 0 to |all|
      invariant service.Valid() && service.ever == old(service.ever)
      invariant service.log == old(service.log) + ops
      invariant Retiring(codec, newDb, old(service.online), old(service.ever), all, i, service.online, ops)
    {
      var f := all[i];
      if f.name == INDEX_NAME {
        UniqueFileIds(service, f);
        IndexByName(f);
        ghost var online := service.online;
        var trashed := service.Trash(f);
        if !trashed {
          RetiringMeans(codec, newDb, old(service.online), old(service.ever), all, i, service.online, ops);
          return Err(ServiceFailed), ops;
        }
        RetiringStep(codec, newDb, old(service.online), old(service.ever), all, i, online, ops);
        ops := ops + [Trashed(f.id)];
      } else {
        IndexByName(f);
        RetiringSkips(codec, newDb, old(service.online), old(service.ever), all, i, service.online, ops);
      }
    }
    var nonce: Bytes := *;
    ghost var online := service.online;
    var saved := service.Save(INDEX_NAME, codec.encode(newDb, nonce));
    match saved {
      case Err(e) =>
        RetiringMeans(codec, newDb, old(service.online), old(service.ever), all, |all|, service.online, ops);
        return Err(e), ops;
      case Ok(f) =>
        NewFileShape(service, f);
        IndexByName(f);
        Decodes(codec, newDb, nonce);
        PublishStep(codec, newDb, old(service.online), old(service.ever), all, online, ops, f);
        ops := ops + [Saved(f)];
        SavedIndex(codec, newDb, online, f);
        return Ok(()), ops;
    }
  }

  lemma SavedIndex(codec: IndexCodec, db: Db, online: set<StorageFile>, f: StorageFile)
    requires f.name == INDEX_NAME && codec.decode(f.content) == Some(db)
    ensures f in Apply(online, Saved(f)) && f.name == "index.db2"
  {
  }

  lemma IndexByName(f: StorageFile)
    ensures IsIndex(f) <==> f.name == INDEX_NAME
  {
  }

  lemma Decodes(codec: IndexCodec, db: Db, nonce: Bytes)
    requires codec.Sound()
    ensures codec.decode(codec.encode(db, nonce)) == Some(db)
  {
  }

  // ----- the upload -----

  method UploadFiles(c: Crypto, disk: Disk, vDB: Db, service: Service, ghost s: Session)
    returns (r: Result<()>, uploaded: map<string, VFilePart>, ghost t: Session)
    requires KeysMatch(vDB.vFiles)
    requires KeysUsable(vDB)
    requires Bookkept(c, disk, vDB, s, service, map[])
    modifies service
    ensures Bookkept(c, disk, vDB, t, service, uploaded) && Later(s, t) && old(service.online) <= service.online
    ensures r.Ok? && Good(c, disk, vDB) ==>
              forall k, p :: k in vDB.vFiles && p in vDB.vFiles[k].parts ==> Resolves(service.online, p)
    ensures r.Err? && Good(c, disk, vDB) ==> r.error == ServiceFailed && !service.reliable
  {
    hide *;
    var list := FileList(vDB.vFiles);
    uploaded, t := map[], s;
    LaterSelf(s);
    FilesResolveNone(service.online, list);
    for i := 0 to |list|
      invariant Bookkept(c, disk, vDB, t, service, uploaded) && Later(s, t)
      invariant old(service.online) <= service.online
      invariant Good(c, disk, vDB) ==> FilesResolve(service.online, list[..i])
    {
      var vFile := list[i];
      FileListed(vDB.vFiles, list, i);
      FileKeysUsable(vDB, vFile);
      ghost var online, before := service.online, t;
      var u;
      u, uploaded, t := UploadFile(c, disk, vDB, vFile, service, uploaded, t);
      LaterTrans(s, before, t);
      if u.Err? {
        return u, uploaded, t;
      }
      if Good(c, disk, vDB) {
        FilesResolveStep(online, service.online, list, i);
      }
    }
    assert list[..|list|] == list;
    if Good(c, disk, vDB) {
      FilesResolveAll(service.online, vDB.vFiles, list);
    }
    return Ok(()), uploaded, t;
  }

  ghost predicate FilesResolve(online: set<StorageFile>, list: seq<VirtFile>) {
    forall f, p :: f in list && p in f.parts ==> Resolves(online, p)
  }

  lemma FilesResolveNone(online: set<StorageFile>, list: seq<VirtFile>)
    ensures FilesResolve(online, list[..0])
  {
  }

  lemma FilesResolveStep(a: set<StorageFile>, b: set<StorageFile>, list: seq<VirtFile>, i: nat)
    requires i < |list| && FilesResolve(a, list[..i]) && a <= b
    requires forall p :: p in list[i].parts ==> Resolves(b, p)
    ensures FilesResolve(b, list[..i + 1])
  {
    hide Resolves;
    assert list[..i + 1] == list[..i] + [list[i]];
    forall f, p | f in list[..i] && p in f.parts ensures Resolves(b, p) {
      ResolvesLater(a, b, p);
    }
  }

  lemma FilesResolveAll(online: set<StorageFile>, vFiles: map<string, VirtFile>, list: seq<VirtFile>)
    requires FilesResolve(online, list) && forall k :: k in vFiles ==> vFiles[k] in list
    ensures forall k, p :: k in vFiles && p in vFiles[k].parts ==> Resolves(online, p)
  {
    hide Resolves;
  }

  lemma FileKeysUsable(db: Db, f: VirtFile)
    requires KeysUsable(db) && f.relPath in db.vFiles && db.vFiles[f.relPath] == f
    ensures forall p :: p in f.parts ==> ValidKey(p.cryptDataKey)
  {
  }

  lemma BundleKeyUsable(db: Db, id: string)
    requires KeysUsable(db) && id in db.bundles
    ensures ValidKey(db.bundles[id].part.cryptDataKey)
  {
  }

  lemma FileListed(vFiles: map<string, VirtFile>, list: seq<VirtFile>, i: nat)
    requires i < |list| && forall f :: f in list ==> f.relPath in vFiles && vFiles[f.relPath] == f
    ensures list[i].relPath in vFiles && vFiles[list[i].relPath] == list[i]
  {
    assert list[i] in list;
  }

  /** All files of the database, sorted by path. */
  method FileList(vFiles: map<string, VirtFile>) returns (list: seq<VirtFile>)
    requires KeysMatch(vFiles)
    ensures forall f :: f in list <==> f.relPath in vFiles && vFiles[f.relPath] == f
    ensures forall k :: k in vFiles ==> vFiles[k] in list
    ensures Sorted(list)
  {
    var unsorted: seq<VirtFile> := [];
    var todo := vFiles.Keys;
    while todo != {}
      invariant todo <= vFiles.Keys
      invariant forall i, j :: 0 <= i < j < |unsorted| ==> unsorted[i].relPath != unsorted[j].relPath
      invariant forall f :: f in unsorted <==> f.relPath in vFiles.Keys - todo && vFiles[f.relPath] == f
      decreases todo
    {
      var k :| k in todo;
      forall i | 0 <= i < |unsorted| ensures unsorted[i].relPath != k {
        assert unsorted[i] in unsorted;
      }
      unsorted := unsorted + [vFiles[k]];
      todo := todo - {k};
    }
    list := SortByPath(unsorted);
    SortByPathSorts(unsorted);
    forall f ensures f in list <==> f in unsorted {
      assert f in list <==> f in multiset(list);
    }
  }

  /** Saves of this run are of parts that were not online, and no two have the same attributes. */
  ghost predicate NoDoubleSaves(online0: set<StorageFile>, s: Session) {
    && |s.parts| == |s.ops|
    && (forall i :: 0 <= i < |s.ops| ==> s.ops[i].Saved? && MatchesPart(s.ops[i].file, s.parts[i]))
    && (forall i :: 0 <= i < |s.parts| ==> !Resolves(online0, s.parts[i]))
    && (forall i, j :: 0 <= i < j < |s.parts| ==> !SameStorage(s.parts[i], s.parts[j]))
  }

  /** The saves of parts and bundles, then those of the index. */
  lemma SavesAreLegal(codec: IndexCodec, c: Crypto, disk: Disk, db: Db, s: Session, service: Service,
                      uploaded: map<string, VFilePart>)
    requires Bookkept(c, disk, db, s, service, uploaded) && Publishable(db)
    ensures Legal(codec, Uploading(db), s.online0, s.ops) && WriterAfter(Uploading(db), s.ops) == Uploading(db)
  {
    hide Good, DbParts, Deduped, Genuine, FreshSaves, EverAfter, PartsAgree, PartsHaveMd5;
    forall i | 0 <= i < |s.ops| ensures s.ops[i].Saved? && !IsIndex(s.ops[i].file) {
      assert s.parts[i] in s.parts;
    }
    OtherSavesAreLegal(codec, db, s.online0, s.ops);
  }

  lemma {:induction false} OtherSavesAreLegal(codec: IndexCodec, db: Db, online: set<StorageFile>, ops: seq<Op>)
    requires forall i :: 0 <= i < |ops| ==> ops[i].Saved? && !IsIndex(ops[i].file)
    ensures Legal(codec, Uploading(db), online, ops) && WriterAfter(Uploading(db), ops) == Uploading(db)
  {
    hide Complete;
    if ops == [] {
    } else {
      OtherSavesAreLegal(codec, db, online, Init(ops));
    }
  }

  lemma {:induction false} LegalConcat(codec: IndexCodec, w: Writer, online: set<StorageFile>, a: seq<Op>, b: seq<Op>)
    requires Legal(codec, w, online, a) && Legal(codec, WriterAfter(w, a), Replay(online, a), b)
    ensures Legal(codec, w, online, a + b)
    ensures WriterAfter(w, a + b) == WriterAfter(WriterAfter(w, a), b)
  {
    hide Allowed, NextWriter, Apply;
    if b == [] {
      assert a + b == a;
    } else {
      assert Init(a + b) == a + Init(b);
      LegalConcat(codec, w, online, a, Init(b));
      ReplayConcat(online, a, Init(b));
    }
  }

  lemma {:induction false} FreshConcat(ever: set<StorageFile>, a: seq<Op>, b: seq<Op>)
    requires FreshSaves(ever, a) && FreshSaves(EverAfter(ever, a), b)
    ensures FreshSaves(ever, a + b) && EverAfter(ever, a + b) == EverAfter(EverAfter(ever, a), b)
  {
    if b == [] {
      assert a + b == a;
    } else {
      assert Init(a + b) == a + Init(b);
      FreshConcat(ever, a, Init(b));
    }
  }

  lemma AllPartsResolve(db: Db, online: set<StorageFile>)
    requires forall k, p :: k in db.vFiles && p in db.vFiles[k].parts ==> Resolves(online, p)
    requires forall id :: id in db.bundles ==> Resolves(online, db.bundles[id].part)
    ensures Complete(online, db)
  {
  }

  lemma BooksStart(c: Crypto, disk: Disk, db: Db, service: Service)
    requires service.Valid() && service.c == c && forall f :: f in service.list <==> f in service.online
    ensures Bookkept(c, disk, db, Session(service.online, service.ever, service.log, [], []), service, map[])
  {
    hide Good, Genuine;
    assert SetOf(service.list) == service.online;
  }

  lemma IndexListed(c: Crypto, disk: Disk, db: Db, s: Session, service: Service, uploaded: map<string, VFilePart>)
    requires Bookkept(c, disk, db, s, service, uploaded) && Publishable(db)
    ensures IndexIsListed(service.online, service.list)
  {
    hide Good, DbParts, Deduped, Genuine, FreshSaves, EverAfter, PartsAgree, PartsHaveMd5;
    forall i | 0 <= i < |s.ops| ensures s.ops[i].Saved? && !IsIndex(s.ops[i].file) {
      assert s.parts[i] in s.parts;
    }
    forall f | f in service.online && IsIndex(f) ensures f in service.list {
      SavedOrThere(s.online0, s.ops, f);
      assert f in SetOf(service.list);
    }
  }

  lemma {:induction false} SavedOrThere(online: set<StorageFile>, ops: seq<Op>, f: StorageFile)
    requires (forall i :: 0 <= i < |ops| ==> ops[i].Saved?) && f in Replay(online, ops)
    ensures f in online || exists i :: 0 <= i < |ops| && ops[i].file == f
  {
    if ops == [] || f == Last(ops).file {
    } else {
      SavedOrThere(online, Init(ops), f);
      if f !in online {
        var i :| 0 <= i < |ops| - 1 && Init(ops)[i].file == f;
        assert ops[i].file == f;
      }
    }
  }

  lemma GenuineStays(c: Crypto, a: set<StorageFile>, b: set<StorageFile>)
    requires Genuine(c, a) && SameButIndex(a, b)
    ensures Genuine(c, b)
  {
    hide BundleCipherFor, ContentsOccur, ContentsHash;
    forall g, others | g in b && ContentsOccur(c, others) && g.name == BundleNameFor(c, others)
      ensures g.content == BundleCipherFor(c, others)
    {
      BundleNameLengthFor(c, others);
      assert !IsIndex(g);
    }
  }

  lemma NothingToSave(db: Db, online: set<StorageFile>, s: Session)
    requires NoDoubleSaves(online, s) && Complete(online, db) && forall p :: p in s.parts ==> p in DbParts(db)
    ensures s.ops == []
  {
    CompleteByParts(online, db);
    hide Resolves, DbParts, Complete;
    FirstIn(s.parts);
  }

  lemma FirstIn<T>(s: seq<T>)
    ensures |s| > 0 ==> s[0] in s
  {
  }

  /** What a run saves before it touches the index. */
  method UploadData(c: Crypto, disk: Disk, vDB: Db, service: Service, ghost s: Session)
    returns (r: Result<()>, ghost t: Session, ghost uploaded: map<string, VFilePart>)
    requires KeysMatch(vDB.vFiles)
    requires KeysUsable(vDB)
    requires Bookkept(c, disk, vDB, s, service, map[])
    modifies service
    ensures Bookkept(c, disk, vDB, t, service, uploaded) && Later(s, t)
    ensures r.Ok? && Good(c, disk, vDB) ==> Complete(service.online, vDB)
    ensures r.Err? && Good(c, disk, vDB) ==> r.error == ServiceFailed && !service.reliable
  {
    hide *;
    var files, uploadedParts, t1 := UploadFiles(c, disk, vDB, service, s);
    t, uploaded := t1, uploadedParts;
    if files.Err? {
      return files, t, uploaded;
    }
    ghost var online := service.online;
    var bundles, uploadedParts2, t2 := UploadBundle(c, disk, vDB, service, uploadedParts, t1);
    LaterTrans(s, t1, t2);
    t, uploaded := t2, uploadedParts2;
    if bundles.Err? {
      return bundles, t, uploaded;
    }
    if Good(c, disk, vDB) {
      forall k, p | k in vDB.vFiles && p in vDB.vFiles[k].parts ensures Resolves(service.online, p) {
        ResolvesLater(online, service.online, p);
      }
      AllPartsResolve(vDB, service.online);
    }
    return Ok(()), t, uploaded;
  }

  lemma {:induction false} EverConcat(ever: set<StorageFile>, a: seq<Op>, b: seq<Op>)
    ensures EverAfter(ever, a + b) == EverAfter(EverAfter(ever, a), b)
  {
    if b == [] {
      assert a + b == a;
    } else {
      assert Init(a + b) == a + Init(b) && Last(a + b) == Last(b);
      EverConcat(ever, a, Init(b));
    }
  }

  lemma {:induction false} SavesOnly(online: set<StorageFile>, ops: seq<Op>)
    requires forall i :: 0 <= i < |ops| ==> ops[i].Saved?
    ensures Replay(online, ops) == EverAfter(online, ops)
  {
    if ops == [] {
    } else {
      SavesOnly(online, Init(ops));
    }
  }

  lemma {:induction false} IndexOpsAddIndex(online: set<StorageFile>, ops: seq<Op>)
    requires IndexOps(ops)
    ensures SameButIndex(online, EverAfter(online, ops))
  {
    if ops == [] {
    } else {
      assert Last(ops) in ops;
      IndexOpsAddIndex(online, Init(ops));
    }
  }

  /** No file but index files is gone. */
  ghost predicate KeepsData(a: set<StorageFile>, b: set<StorageFile>) {
    forall f :: f in a && !IsIndex(f) ==> f in b
  }

  lemma KeepsDataStill(a: set<StorageFile>, b: set<StorageFile>, d: set<StorageFile>)
    requires KeepsData(a, b) && SameButIndex(b, d)
    ensures KeepsData(a, d)
  {
  }

  lemma {:induction false} SavesKeepData(online: set<StorageFile>, ops: seq<Op>)
    requires forall i :: 0 <= i < |ops| ==> ops[i].Saved?
    ensures online <= Replay(online, ops)
  {
    if ops == [] {
    } else {
      SavesKeepData(online, Init(ops));
    }
  }

  /** What an upload run has done, successful or not: its changes are legal steps of a writer, it
      saved nothing that was online or that it had saved before, it removed nothing but index files,
      and all bundles are genuine, at every point of the run. */
  ghost predicate UploadDone(c: Crypto, disk: Disk, db: Db, codec: IndexCodec, online: set<StorageFile>, ever: set<StorageFile>,
                             s: Session, ops: seq<Op>, after: set<StorageFile>)
  {
    && s.ops <= ops && IndexOps(ops[|s.ops|..])
    && after == Replay(online, ops) && FreshSaves(ever, ops) && KeepsData(online, after)
    && (forall p :: p in s.parts ==> p in DbParts(db))
    && (Good(c, disk, db) ==> Legal(codec, Uploading(db), online, ops) && NoDoubleSaves(online, s))
    && (Good(c, disk, db) && Genuine(c, online) ==> Genuine(c, EverAfter(online, ops)))
  }

  lemma DataUploadDone(c: Crypto, disk: Disk, db: Db, codec: IndexCodec, s: Session, service: Service,
                       uploaded: map<string, VFilePart>)
    requires Bookkept(c, disk, db, s, service, uploaded)
    ensures UploadDone(c, disk, db, codec, s.online0, s.ever0, s, s.ops, service.online)
    ensures service.ever == EverAfter(s.ever0, s.ops) && service.log == s.log0 + s.ops && service.Valid() && service.c == c
    ensures Good(c, disk, db) ==> Publishable(db) && IndexIsListed(service.online, service.list) &&
                                  WriterAfter(Uploading(db), s.ops) == Uploading(db)
  {
    hide DbParts, Genuine, FreshSaves, EverAfter, Publishable, Good, Legal, IndexIsListed, NoDoubleSaves, Deduped, SavesMatch;
    assert s.ops[|s.ops|..] == [];
    SavesKeepData(s.online0, s.ops);
    SavesOnly(s.online0, s.ops);
    if Good(c, disk, db) {
      GoodIsPublishable(c, disk, db);
      DedupedIsNoDouble(s, uploaded);
      SavesAreLegal(codec, c, disk, db, s, service, uploaded);
      IndexListed(c, disk, db, s, service, uploaded);
    }
  }

  lemma GoodIsPublishable(c: Crypto, disk: Disk, db: Db)
    requires Good(c, disk, db)
    ensures Publishable(db)
  {
    ScannedIsPublishable(c, disk, db);
  }

  lemma DedupedIsNoDouble(s: Session, uploaded: map<string, VFilePart>)
    requires SavesMatch(s) && Deduped(s, uploaded)
    ensures NoDoubleSaves(s.online0, s)
  {
  }

  lemma IndexUploadDone(c: Crypto, disk: Disk, db: Db, codec: IndexCodec, s: Session,
                        online: set<StorageFile>, ops: seq<Op>, after: set<StorageFile>)
    requires UploadDone(c, disk, db, codec, s.online0, s.ever0, s, s.ops, online)
    requires after == Replay(online, ops) && FreshSaves(EverAfter(s.ever0, s.ops), ops)
    requires IndexOps(ops) && SameButIndex(online, after)
    requires Good(c, disk, db) ==> WriterAfter(Uploading(db), s.ops) == Uploading(db) && Legal(codec, Uploading(db), online, ops)
    ensures UploadDone(c, disk, db, codec, s.online0, s.ever0, s, s.ops + ops, after)
    ensures EverAfter(s.ever0, s.ops + ops) == EverAfter(EverAfter(s.ever0, s.ops), ops)
    ensures Good(c, disk, db) ==> WriterAfter(Uploading(db), s.ops + ops) == WriterAfter(Uploading(db), ops)
  {
    hide Good, DbParts, Genuine, FreshSaves, EverAfter, Legal, Replay, WriterAfter, NoDoubleSaves, SameButIndex;
    assert (s.ops + ops)[|s.ops|..] == ops;
    ReplayConcat(s.online0, s.ops, ops);
    FreshConcat(s.ever0, s.ops, ops);
    KeepsDataStill(s.online0, online, after);
    if Good(c, disk, db) {
      LegalConcat(codec, Uploading(db), s.online0, s.ops, ops);
      EverConcat(s.online0, s.ops, ops);
      IndexOpsAddIndex(EverAfter(s.online0, s.ops), ops);
      if Genuine(c, s.online0) {
        GenuineStays(c, EverAfter(s.online0, s.ops), EverAfter(s.online0, s.ops + ops));
      }
    }
  }

  /** Uploads all parts, then all bundles, then the index. */
  method Upload(c: Crypto, disk: Disk, vDB: Db, codec: IndexCodec, service: Service)
    returns (r: Result<()>, ghost s: Session, ghost ops: seq<Op>)
    requires service.Valid() && service.c == c && codec.Sound()
    requires KeysMatch(vDB.vFiles)
    requires KeysUsable(vDB)
    modifies service
    ensures service.Valid() && service.log == old(service.log) + ops
    ensures service.ever == EverAfter(old(service.ever), ops)
    ensures UploadDone(c, disk, vDB, codec, old(service.online), old(service.ever), s, ops, service.online)
    ensures r.Ok? && Good(c, disk, vDB) ==>
              && Complete(service.online, vDB) && OnlyIndex(codec, service.online, vDB)
              && WriterAfter(Uploading(vDB), ops) == Published(vDB)
    ensures r.Err? && Good(c, disk, vDB) ==> r.error == ServiceFailed && !service.reliable
  {
    ghost var begin := Session(service.online, service.ever, service.log, [], []);
    s, ops := begin, [];
    hide *;
    var updated := service.Update();
    if !updated {
      NothingDone(c, disk, vDB, codec, s);
      return Err(ServiceFailed), s, ops;
    }
    BooksStart(c, disk, vDB, service);
    r, s, ops := UploadListed(c, disk, vDB, codec, service, begin);
  }

  /** The upload after the file list has been refreshed. */
  method UploadListed(c: Crypto, disk: Disk, vDB: Db, codec: IndexCodec, service: Service, ghost begin: Session)
    returns (r: Result<()>, ghost s: Session, ghost ops: seq<Op>)
    requires KeysMatch(vDB.vFiles) && KeysUsable(vDB) && codec.Sound()
    requires Bookkept(c, disk, vDB, begin, service, map[])
    modifies service
    ensures service.Valid() && service.log == begin.log0 + ops
    ensures service.ever == EverAfter(begin.ever0, ops)
    ensures UploadDone(c, disk, vDB, codec, begin.online0, begin.ever0, s, ops, service.online)
    ensures r.Ok? && Good(c, disk, vDB) ==>
              && Complete(service.online, vDB) && OnlyIndex(codec, service.online, vDB)
              && WriterAfter(Uploading(vDB), ops) == Published(vDB)
    ensures r.Err? && Good(c, disk, vDB) ==> r.error == ServiceFailed && !service.reliable
  {
    hide *;
    ghost var uploaded;
    r, s, uploaded := UploadData(c, disk, vDB, service, begin);
    LaterFields(begin, s);
    ops := s.ops;
    DataUploadDone(c, disk, vDB, codec, s, service, uploaded);
    if r.Err? {
      return r, s, ops;
    }
    ghost var online := service.online;
    ghost var indexOps;
    r, indexOps := UploadDb(vDB, codec, service);
    IndexUploadDone(c, disk, vDB, codec, s, online, indexOps, service.online);
    ops := s.ops + indexOps;
    assert begin.log0 + s.ops + indexOps == begin.log0 + ops;
    if Good(c, disk, vDB) {
      CompleteButIndex(vDB, online, service.online);
    }
  }

  lemma NothingDone(c: Crypto, disk: Disk, db: Db, codec: IndexCodec, s: Session)
    requires s.ops == [] && s.parts == []
    ensures UploadDone(c, disk, db, codec, s.online0, s.ever0, s, [], s.online0)
    ensures EverAfter(s.ever0, []) == s.ever0
  {
    hide Good, Genuine;
  }

  lemma LaterFields(s: Session, t: Session)
    requires Later(s, t)
    ensures t.online0 == s.online0 && t.ever0 == s.ever0 && t.log0 == s.log0
  {
  }

  /** Index files do not matter for what a database names. */
  lemma CompleteButIndex(db: Db, a: set<StorageFile>, b: set<StorageFile>)
    requires Complete(a, db) && SameButIndex(a, b) && Publishable(db)
    ensures Complete(b, db)
  {
    CompleteByParts(a, db);
    CompleteByParts(b, db);
    hide DbParts, PartsAgree, PartsHaveMd5, Complete;
    forall p | p in DbParts(db) ensures Resolves(b, p) {
      var f :| f in a && MatchesPart(f, p);
      assert f in b && MatchesPart(f, p);
    }
  }

  /** A second upload of a database that is complete online saves nothing but an index, and changes
      no other file. */
  lemma SecondUploadSavesIndexOnly(c: Crypto, disk: Disk, db: Db, codec: IndexCodec, online: set<StorageFile>,
                                   ever: set<StorageFile>, s: Session, ops: seq<Op>, after: set<StorageFile>)
    requires Good(c, disk, db) && Complete(online, db)
    requires UploadDone(c, disk, db, codec, online, ever, s, ops, after)
    ensures forall op :: op in ops && op.Saved? ==> IsIndex(op.file)
    ensures SameButIndex(online, after)
  {
    hide DbParts, Resolves, Genuine, FreshSaves, Describes, DataOccurs, NoDoubleSaves, Legal, Complete;
    NothingToSave(db, online, s);
    assert ops[0..] == ops;
    IndexOpsOnly(codec, db, online, ops);
  }

  lemma {:induction false} IndexOpsOnly(codec: IndexCodec, db: Db, online: set<StorageFile>, ops: seq<Op>)
    requires IndexOps(ops) && Legal(codec, Uploading(db), online, ops)
    ensures SameButIndex(online, Replay(online, ops))
    ensures WriterAfter(Uploading(db), ops).Uploading? || WriterAfter(Uploading(db), ops).Published?
  {
    hide Complete;
    if ops == [] {
    } else {
      assert IndexOps(Init(ops)) by {
        forall op | op in Init(ops) && op.Saved? ensures IsIndex(op.file) {
          assert op in ops;
        }
      }
      IndexOpsOnly(codec, db, online, Init(ops));
      assert Last(ops) in ops;
    }
  }
}
