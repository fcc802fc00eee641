/** From the disk to the storage and back: what was scanned, bundled and uploaded is what is read. */
module RoundTrip {
  import opened Primitives
  import opened Seqs
  import opened Types
  import opened Bundling
  import opened BundleLaws
  import opened ScanningFile
  import opened ScanningFolder
  import opened Storage
  import opened Protocol
  import opened Consistency
  import opened ScannedDatabases
  import opened Uploading
  import opened UploadCommand
  import opened Readers
  import opened Opening
  import opened Serving

  /** A database that describes the disk is one that can be read by. */
  lemma GoodIsSound(c: Crypto, disk: Disk, db: Db)
    requires Good(c, disk, db)
    ensures SoundDb(c, disk, db)
  {
    hide Recorded, DataOccurs, BundleOf, FilesAt;
    forall id | id in db.bundles
      ensures forall p :: p in db.bundles[id].content ==> p in db.vFiles && |db.vFiles[p].parts| == 1
      ensures db.bundles[id] == BundleOf(c, FilesAt(db.vFiles, db.bundles[id].content))
    {
      assert BundleEntry(c, db.vFiles, id, db.bundles[id]);
    }
  }

  /** What a reader can rely on after an upload: the database is sound, everything it names is online,
      its index is the only one, and bundle files contain what their names say. */
  ghost predicate Served(c: Crypto, codec: IndexCodec, disk: Disk, db: Db, online: set<StorageFile>) {
    && Good(c, disk, db)
    && Complete(online, db)
    && OnlyIndex(codec, online, db)
    && Genuine(c, online)
  }

  /** The served database is that of the only index. */
  lemma ServesOnlyIndex(codec: IndexCodec, service: Service, vDb: Db, db: Db, f: StorageFile)
    requires forall g :: g in service.list <==> g in service.online
    requires OnlyIndex(codec, service.online, db)
    requires f in service.list && IsIndexOf(codec, service.ever, vDb, f)
    ensures vDb == db
  {
    var g :| IsIndexOf(codec, service.online, db, g) && forall h :: h in service.online && IsIndex(h) ==> h == g;
    assert f in service.online && IsIndex(f);
  }

  lemma CanRead(fs: FileSystem, disk: Disk, codec: IndexCodec, k: string)
    requires fs.service.Valid() && Served(fs.service.c, codec, disk, fs.vDb, fs.service.online)
    requires forall g :: g in fs.service.list <==> g in fs.service.online
    requires k in fs.vDb.vFiles
    ensures Readable(fs, disk, fs.vDb.vFiles[k])
    ensures fs.vDb.vFiles[k].relPath == k
    ensures forall part :: part in fs.vDb.vFiles[k].parts ==> Resolves(SetOf(fs.service.list), part)
  {
    var c, db := fs.service.c, fs.vDb;
    GoodIsSound(c, disk, db);
    SoundRecorded(c, disk, db, k);
    ListIsOnline(fs.service);
    hide SoundDb, Genuine, Good, OnlyIndex, Resolves;
    forall part | part in db.vFiles[k].parts ensures Resolves(fs.service.online, part) {
      PartResolves(fs.service.online, db, k, part);
    }
  }

  lemma PartResolves(online: set<StorageFile>, db: Db, k: string, part: VFilePart)
    requires Complete(online, db) && k in db.vFiles && part in db.vFiles[k].parts
    ensures Resolves(online, part)
  {
  }

  /** Reads n bytes of a file at an offset, through a new file system over the storage. */
  method ReadBack(c: Crypto, codec: IndexCodec, service: Service, ghost disk: Disk, ghost db: Db,
                  relPath: string, offset: int, n: nat)
    returns (r: Result<Bytes>)
    requires service.Valid() && service.c == c && Served(c, codec, disk, db, service.online)
    modifies service`list
    ensures service.Valid()
    ensures r.Ok? ==> PathFix(relPath) in db.vFiles
    ensures r.Ok? ==> r.value == Range(ShownContent(disk, db.vFiles[PathFix(relPath)]), if offset < 0 then 0 else offset, n)
    ensures r.Err? ==>
              (r.error == ServiceFailed && !service.reliable) || (r.error == NotExist && PathFix(relPath) !in db.vFiles)
  {
    hide *;
    ServedParts(c, codec, disk, db, service.online);
    var fs := new FileSystem(service, codec);
    var updated, changed, steps := fs.UpdateRound();
    FileSystemService(fs);
    if !updated || !changed {
      return Err(ServiceFailed);
    }
    ghost var f :| f in service.list && IsIndexOf(codec, service.ever, fs.vDb, f) && fs.dbFileId == f.id;
    ServesOnlyIndex(codec, service, fs.vDb, db, f);
    ghost var k := PathFix(relPath);
    ghost var content := if k in db.vFiles then ShownContent(disk, db.vFiles[k]) else [];
    var result := fs.OpenFile(relPath, content);
    match result {
      case Err(e) =>
        return Err(e);
      case Ok(file) =>
        CanRead(fs, disk, codec, k);
        var pos := file.Seek(offset, SEEK_START);
        SeekToStart(0, file.innerFile.fileSize, offset);
        var p := new bv8[n];
        var got, err := file.Read(p, disk);
        if err.Some? && err.value != EndOfFile {
          return Err(ServiceFailed);
        }
        WholeRange(content, pos, n, got);
        return Ok(p[..got]);
    }
  }

  lemma ServedParts(c: Crypto, codec: IndexCodec, disk: Disk, db: Db, online: set<StorageFile>)
    requires Served(c, codec, disk, db, online)
    ensures OnlyIndex(codec, online, db)
  {
  }

  lemma FileSystemService(fs: FileSystem)
    requires fs.Valid()
    ensures fs.service.Valid()
  {
  }

  lemma SeekToStart(pos: int, size: int, offset: int)
    ensures SeekTo(pos, size, offset, SEEK_START) == if offset < 0 then 0 else offset
  {
  }

  lemma WholeRange(b: Bytes, pos: nat, n: nat, got: nat)
    requires got <= n && |Range(b, pos, got)| == got && (got == n || pos + got >= |b|)
    ensures Range(b, pos, got) == Range(b, pos, n)
  {
  }

  /** The round trip, for every folder, every flag and every range: a successful upload makes every file
      readable under its path, with any slashes around it, and what is read is exactly what is on the disk.
      Nothing but the service, the local disk or the walk makes it fail. */
  method UploadThenRead(c: Crypto, codec: IndexCodec, events: seq<Event>, oldDb: Database, service: Service,
                        forceFlag: bool, bundleFlag: bool, cleanUpFlag: bool, try: bool, localReliable: bool,
                        entry: Entry, left: string, right: string, offset: nat, n: nat)
    returns (outcome: Outcome, r: Result<Bytes>)
    requires c.Sound() && codec.Sound() && service.Valid() && service.c == c && Genuine(c, service.online)
    requires Snapshot(Visited(events)) && NoCollisions(c, Visited(events))
    requires OfEarlierScan(c, oldDb.vFiles, Visited(events))
    requires entry in Visited(events) && Fixed(entry.relPath) && OnlySlashes(left) && OnlySlashes(right)
    modifies service
    ensures service.Valid()
    ensures outcome.Finished? && r.Ok? ==>
              (var content := if entry.isDir then [] else entry.content;
               r.value == if offset >= |content| then []
                          else if offset + n >= |content| then content[offset..]
                          else content[offset..offset + n])
    ensures outcome.Finished? && r.Err? ==> r.error == ServiceFailed && !service.reliable
    ensures outcome == NothingChanged ==> !forceFlag && !Changed(old(oldDb.vFiles), Visited(events))
    ensures outcome.Exited? ==>
              || WalkErrorOf(events) == Some(outcome.error)
              || (outcome.error == LocalSaveFailed && !localReliable)
              || (outcome.error == ServiceFailed && !service.reliable)
    ensures !outcome.Finished? ==> r == Err(ServiceFailed)
    ensures (service.reliable && localReliable && WalkErrorOf(events) == None &&
             (forceFlag || Changed(old(oldDb.vFiles), Visited(events)))) ==> outcome.Finished? && r.Ok?
  {
    hide *;
    ghost var ops, steps;
    var newDb;
    ghost var before := service.online;
    outcome, newDb, ops, steps := RunUpload(c, codec, events, oldDb, service, false, forceFlag, bundleFlag, cleanUpFlag, try,
                                           localReliable);
    ghost var disk, db := DiskOf(Visited(events)), newDb.Value();
    ProducedDescribes(c, Visited(events), db);
    NothingCollides(c, Visited(events), db);
    if !outcome.Finished? {
      return outcome, Err(ServiceFailed);
    }
    NowServed(c, codec, Visited(events), db, before, old(service.ever), ops, steps, service.online);
    PathFixTrims(left, entry.relPath, right);
    EntryShown(c, Visited(events), db, entry);
    r := ReadBack(c, codec, service, disk, db, left + entry.relPath + right, offset, n);
    RangeIs(if entry.isDir then [] else entry.content, offset, n);
  }

  lemma RangeIs(b: Bytes, offset: nat, n: nat)
    ensures Range(b, offset, n) ==
            if offset >= |b| then [] else if offset + n >= |b| then b[offset..] else b[offset..offset + n]
  {
  }

  lemma NowServed(c: Crypto, codec: IndexCodec, walk: seq<Entry>, db: Db, before: set<StorageFile>, ever: set<StorageFile>,
                  ops: seq<Op>, steps: seq<Step>, online: set<StorageFile>)
    requires c.Sound() && NoCollisions(c, walk) && Genuine(c, before)
    requires Snapshot(walk) && Produced(c, walk, db)
    requires CommandDone(c, codec, DiskOf(walk), db, before, ever, ops, steps, online)
    requires DataOccurs(c, DiskOf(walk), db) ==> Complete(online, db) && OnlyIndex(codec, online, db)
    ensures Served(c, codec, DiskOf(walk), db, online)
  {
    hide Genuine, DataOccurs, Describes, Complete, OnlyIndex, DiskOf, NoCollisions, Produced, EverAfter, Replay, OpsOf;
    GenuineWithin(c, before, ops);
    ProducedDescribes(c, walk, db);
    NothingCollides(c, walk, db);
  }

  lemma {:induction false} ReplayWithin(online: set<StorageFile>, ops: seq<Op>)
    ensures Replay(online, ops) <= EverAfter(online, ops)
  {
    if ops == [] {
    } else {
      ReplayWithin(online, Init(ops));
    }
  }

  lemma GenuineWithin(c: Crypto, online: set<StorageFile>, ops: seq<Op>)
    ensures Genuine(c, EverAfter(online, ops)) ==> Genuine(c, Replay(online, ops))
  {
    hide Genuine, Replay, EverAfter;
    ReplayWithin(online, ops);
    if Genuine(c, EverAfter(online, ops)) {
      GenuineSubset(c, EverAfter(online, ops), Replay(online, ops));
    }
  }

  lemma EntryShown(c: Crypto, walk: seq<Entry>, db: Db, e: Entry)
    requires Snapshot(walk) && e in walk && ResetLinks(db.vFiles) == FreshScan(c, walk)
    ensures e.relPath in db.vFiles
    ensures ShownContent(DiskOf(walk), db.vFiles[e.relPath]) == if e.isDir then [] else e.content
  {
    hide FreshScan, DiskOf, ScannedFile;
    FreshScanLookup(c, walk, e.relPath);
    FreshFileFields(c, e);
    assert e.relPath in ResetLinks(db.vFiles);
    if !e.isDir {
      DiskOfEntry(walk, e);
    }
  }
}
