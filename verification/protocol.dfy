/** The publish protocol as a step system: one writer that uploads and cleans, and may stop between
    any two changes of the storage, and a reader that refreshes its file list and loads the index.

    The steps of the writer are those that main.go, core/upload.go and core/clean.go perform; the
    modules Uploading and Cleaning prove that their methods perform no others. */
module Protocol {
  import opened Primitives
  import opened Seqs
  import opened Types
  import opened Storage
  import opened Cleaning
  import opened CleanLaws

  predicate IsIndex(f: StorageFile) {
    f.name == INDEX_NAME
  }

  /** Is everything that the database names online? */
  ghost predicate Complete(online: set<StorageFile>, db: Db) {
    && (forall k, p :: k in db.vFiles && p in db.vFiles[k].parts ==> Resolves(online, p))
    && (forall id :: id in db.bundles ==> Resolves(online, db.bundles[id].part))
  }

  lemma CompleteByParts(online: set<StorageFile>, db: Db)
    ensures Complete(online, db) <==> forall p :: p in DbParts(db) ==> Resolves(online, p)
  {
    hide Resolves;
    forall k, p | k in db.vFiles && p in db.vFiles[k].parts ensures p in DbParts(db) {
    }
    forall id | id in db.bundles ensures db.bundles[id].part in DbParts(db) {
    }
  }

  /** What a scan guarantees about the names and sums of the parts of a database. */
  ghost predicate Publishable(db: Db) {
    && PartsAgree(db)
    && PartsHaveMd5(db)
    && forall p :: p in DbParts(db) ==> p.storageName != INDEX_NAME
  }

  /** Publish safety: every part and bundle that an online index names is online. */
  ghost predicate Safe(codec: IndexCodec, online: set<StorageFile>) {
    forall f :: f in online && IsIndex(f) && codec.decode(f.content).Some? ==>
      Complete(online, codec.decode(f.content).value) && Publishable(codec.decode(f.content).value)
  }

  // ----- the writer -----

  datatype Writer =
    | Idle
    | Uploading(db: Db)
    | Published(db: Db)
    | Cleaning(db: Db, dbParts: seq<VFilePart>, files: seq<StorageFile>)

  ghost function Plan(db: Db, dbParts: seq<VFilePart>, files: seq<StorageFile>): set<StorageFile> {
    Removals(dbParts, |db.bundles| > 0, files)
  }

  /** The changes a writer may make next: anything but an index is saved freely; an old index is
      removed, and the new one saved, only when everything the new one names is online; the new index
      is saved when no other is online; after that only planned files are removed. */
  ghost predicate Allowed(codec: IndexCodec, w: Writer, online: set<StorageFile>, op: Op) {
    match w
    case Idle => false
    case Uploading(db) =>
      (match op
       case Saved(f) =>
         IsIndex(f) ==> codec.decode(f.content) == Some(db) && Complete(online, db) &&
                        forall g :: g in online ==> !IsIndex(g)
       case Trashed(id) =>
         Complete(online, db) && forall g :: g in online && g.id == id ==> IsIndex(g))
    case Published(db) => false
    case Cleaning(db, dbParts, files) => TrashOf(op, Plan(db, dbParts, files))
  }

  ghost function NextWriter(w: Writer, op: Op): Writer {
    match w
    case Uploading(db) => if op.Saved? && IsIndex(op.file) then Published(db) else w
    case _ => w
  }

  ghost function WriterAfter(w: Writer, ops: seq<Op>): Writer {
    if ops == [] then w else NextWriter(WriterAfter(w, Init(ops)), Last(ops))
  }

  /** A sequence of changes that the writer may make from here. Its prefixes, where the writer may
      stop, are legal too. */
  ghost predicate Legal(codec: IndexCodec, w: Writer, online: set<StorageFile>, ops: seq<Op>) {
    ops == [] ||
    (Legal(codec, w, online, Init(ops)) &&
     Allowed(codec, WriterAfter(w, Init(ops)), Replay(online, Init(ops)), Last(ops)))
  }

  lemma LegalStep(codec: IndexCodec, w: Writer, online: set<StorageFile>, ops: seq<Op>, op: Op)
    requires Legal(codec, w, online, ops)
    requires Allowed(codec, WriterAfter(w, ops), Replay(online, ops), op)
    ensures Legal(codec, w, online, ops + [op])
    ensures WriterAfter(w, ops + [op]) == NextWriter(WriterAfter(w, ops), op)
    ensures Replay(online, ops + [op]) == Apply(Replay(online, ops), op)
  {
    hide Allowed;
    assert Init(ops + [op]) == ops;
  }

  /** What Clean does is legal for a cleaning writer. */
  lemma {:induction false} TrashesAreLegal(codec: IndexCodec, db: Db, dbParts: seq<VFilePart>, files: seq<StorageFile>,
                                           online: set<StorageFile>, ops: seq<Op>)
    requires TrashesOf(ops, Plan(db, dbParts, files))
    ensures Legal(codec, Cleaning(db, dbParts, files), online, ops)
    ensures WriterAfter(Cleaning(db, dbParts, files), ops) == Cleaning(db, dbParts, files)
  {
    hide Removals;
    if ops == [] {
    } else {
      assert Last(ops) in ops;
      TrashesAreLegal(codec, db, dbParts, files, online, Init(ops));
    }
  }

  // ----- the system -----

  /** webdav/fs.go: the cached list, the served database and the id of its index file. */
  datatype Reader = Reader(list: set<StorageFile>, vDb: Db, dbFileId: string)

  /** checkDb, when it finds the file f by name; readable says whether the download succeeds. */
  ghost function CheckDb(codec: IndexCodec, r: Reader, f: StorageFile, readable: bool): Reader {
    if r.dbFileId == f.id && r.dbFileId != "" then r
    else if !readable || codec.decode(f.content).None? then r
    else r.(vDb := codec.decode(f.content).value, dbFileId := f.id)
  }

  datatype System = System(online: set<StorageFile>, ever: set<StorageFile>, writer: Writer, reader: Reader)

  datatype Step =
    | BeginUpload(db: Db)
    | Write(op: Op)
    | BeginClean(dbParts: seq<VFilePart>, files: seq<StorageFile>)
    | Stop                                            // done, failed or crashed
    | Update                                          // the reader refreshes its list
    | Check(file: StorageFile, readable: bool)        // checkDb finds this index file in the list

  ghost const START := System({}, {}, Idle, Reader({}, EMPTY_DB, ""))

  ghost predicate Enabled(codec: IndexCodec, s: System, step: Step) {
    match step
    case BeginUpload(db) => s.writer.Idle? && Publishable(db)
    case Write(op) =>
      Allowed(codec, s.writer, s.online, op) &&
      (op.Saved? ==> op.file.id != "" && NoBar(op.file.md5) && forall g :: g in s.ever ==> g.id != op.file.id)
    case BeginClean(dbParts, files) =>
      s.writer.Published? && PartList(s.writer.db, dbParts) && Distinct(files) &&
      forall f :: f in files <==> f in s.online
    case Stop => true
    case Update => true
    case Check(f, _) => f in s.reader.list && IsIndex(f)
  }

  ghost function After(codec: IndexCodec, s: System, step: Step): System {
    match step
    case BeginUpload(db) => s.(writer := Uploading(db))
    case Write(op) =>
      s.(online := Apply(s.online, op), ever := if op.Saved? then s.ever + {op.file} else s.ever,
         writer := NextWriter(s.writer, op))
    case BeginClean(dbParts, files) =>
      s.(writer := if s.writer.Published? then Cleaning(s.writer.db, dbParts, files) else s.writer)
    case Stop => s.(writer := Idle)
    case Update => s.(reader := s.reader.(list := s.online))
    case Check(f, readable) => s.(reader := CheckDb(codec, s.reader, f, readable))
  }

  ghost function AfterAll(codec: IndexCodec, s: System, steps: seq<Step>): System {
    if steps == [] then s else After(codec, AfterAll(codec, s, Init(steps)), Last(steps))
  }

  ghost predicate Run(codec: IndexCodec, s: System, steps: seq<Step>) {
    steps == [] ||
    (Run(codec, s, Init(steps)) && Enabled(codec, AfterAll(codec, s, Init(steps)), Last(steps)))
  }

  // ----- the invariant -----

  ghost predicate Files(s: System) {
    && s.online <= s.ever && s.reader.list <= s.ever
    && UniqueIds(s.ever)
    && forall f :: f in s.ever ==> f.id != "" && NoBar(f.md5)
  }

  /** Exactly one index file is online, and it is the index of db. */
  ghost predicate OnlyIndex(codec: IndexCodec, online: set<StorageFile>, db: Db) {
    exists f :: IsIndexOf(codec, online, db, f) && forall g :: g in online && IsIndex(g) ==> g == f
  }

  ghost predicate IsIndexOf(codec: IndexCodec, online: set<StorageFile>, db: Db, f: StorageFile) {
    f in online && IsIndex(f) && codec.decode(f.content) == Some(db)
  }

  ghost predicate WriterInv(codec: IndexCodec, s: System) {
    match s.writer
    case Idle => true
    case Uploading(db) => Publishable(db)
    case Published(db) => OnlyIndex(codec, s.online, db)
    case Cleaning(db, dbParts, files) =>
      CleaningFrom(codec, db, dbParts, files, s.online) && SetOf(files) <= s.ever
  }

  /** The storage between the first and the last removal of a clean run. */
  ghost predicate CleaningFrom(codec: IndexCodec, db: Db, dbParts: seq<VFilePart>, files: seq<StorageFile>,
                               online: set<StorageFile>)
  {
    && Publishable(db) && PartList(db, dbParts) && Distinct(files) && NoBars(files)
    && Complete(SetOf(files), db) && OnlyIndex(codec, SetOf(files), db)
    && SetOf(files) - Plan(db, dbParts, files) <= online <= SetOf(files)
  }

  /** The served database is the empty one, or the decoded content of the published index file
      whose id the reader remembers. */
  ghost predicate Coherent(codec: IndexCodec, s: System) {
    || (s.reader.vDb == EMPTY_DB && s.reader.dbFileId == "")
    || exists f :: IsIndexOf(codec, s.ever, s.reader.vDb, f) && f.id == s.reader.dbFileId
  }

  ghost predicate Inv(codec: IndexCodec, s: System) {
    Files(s) && Safe(codec, s.online) && WriterInv(codec, s) && Coherent(codec, s)
  }

  // ----- the steps keep the invariant -----

  lemma ResolvesMore(a: set<StorageFile>, b: set<StorageFile>, db: Db)
    requires a <= b && Complete(a, db)
    ensures Complete(b, db)
  {
    CompleteByParts(a, db);
    CompleteByParts(b, db);
    hide DbParts, Complete;
    forall p | p in DbParts(db) ensures Resolves(b, p) {
      assert Resolves(a, p);
    }
  }

  /** Removing index files loses no part. */
  lemma TrashIndexKeeps(online: set<StorageFile>, id: string, db: Db)
    requires Complete(online, db) && Publishable(db)
    requires forall g :: g in online && g.id == id ==> IsIndex(g)
    ensures Complete(Apply(online, Trashed(id)), db)
  {
    CompleteByParts(online, db);
    CompleteByParts(Apply(online, Trashed(id)), db);
    hide DbParts, PartsAgree, PartsHaveMd5, Complete;
    forall p | p in DbParts(db) ensures Resolves(Apply(online, Trashed(id)), p) {
      assert Resolves(online, p);
      var f :| f in online && MatchesPart(f, p);
      assert f in Apply(online, Trashed(id));
    }
  }

  lemma CleaningKeepsParts(codec: IndexCodec, db: Db, dbParts: seq<VFilePart>, files: seq<StorageFile>,
                           online: set<StorageFile>)
    requires CleaningFrom(codec, db, dbParts, files, online)
    ensures Complete(online, db)
  {
    CompleteByParts(SetOf(files), db);
    CompleteByParts(online, db);
    hide DbParts, Removals, PartsAgree, SizesSettled, PartSumsPlain, PartsHaveMd5, PartList, NoBars, Resolves, OnlyIndex,
         Complete;
    var gone := SetOf(files) - online;
    assert online == SetOf(files) - gone;
    AgreeIsSettled(db);
    forall p | p in DbParts(db) ensures Resolves(online, p) {
      CleanKeepsParts(db, dbParts, files, gone, p);
    }
  }

  /** The only index file is not planned for removal. */
  lemma IndexStays(db: Db, dbParts: seq<VFilePart>, files: seq<StorageFile>, f: StorageFile)
    requires Distinct(files) && NoBars(files) && f in files && IsIndex(f)
    requires forall g :: g in files && IsIndex(g) ==> g == f
    ensures f !in Plan(db, dbParts, files)
  {
    hide KnownPart, KnownBundle, Removals;
    if f in Plan(db, dbParts, files) {
      RemovedForReason(dbParts, |db.bundles| > 0, files, f);
    }
  }

  lemma CleaningKeepsIndex(codec: IndexCodec, db: Db, dbParts: seq<VFilePart>, files: seq<StorageFile>,
                           online: set<StorageFile>)
    requires CleaningFrom(codec, db, dbParts, files, online)
    ensures OnlyIndex(codec, online, db)
  {
    hide Publishable, PartList, Complete, Removals, Distinct, NoBars, Plan;
    var f :| IsIndexOf(codec, SetOf(files), db, f) && forall g :: g in SetOf(files) && IsIndex(g) ==> g == f;
    forall g | g in files && IsIndex(g) ensures g == f {
      assert g in SetOf(files);
    }
    IndexStays(db, dbParts, files, f);
    assert IsIndexOf(codec, online, db, f);
  }

  /** At every point of a clean run the storage is safe, and the published index is the only one. */
  lemma CleaningIsSafe(codec: IndexCodec, db: Db, dbParts: seq<VFilePart>, files: seq<StorageFile>,
                       online: set<StorageFile>)
    requires CleaningFrom(codec, db, dbParts, files, online)
    ensures OnlyIndex(codec, online, db) && Safe(codec, online)
  {
    CleaningKeepsParts(codec, db, dbParts, files, online);
    CleaningKeepsIndex(codec, db, dbParts, files, online);
    PublishableOf(codec, db, dbParts, files, online);
    hide Complete, Publishable, CleaningFrom;
    var f :| IsIndexOf(codec, online, db, f) && forall g :: g in online && IsIndex(g) ==> g == f;
  }

  lemma PublishableOf(codec: IndexCodec, db: Db, dbParts: seq<VFilePart>, files: seq<StorageFile>,
                      online: set<StorageFile>)
    requires CleaningFrom(codec, db, dbParts, files, online)
    ensures Publishable(db)
  {
  }

  lemma WriteKeepsFiles(codec: IndexCodec, s: System, op: Op)
    requires Files(s) && Enabled(codec, s, Write(op))
    ensures Files(After(codec, s, Write(op)))
  {
    hide Allowed, NextWriter, DbParts;
  }

  lemma SaveIsSafe(codec: IndexCodec, s: System, f: StorageFile)
    requires Files(s) && Safe(codec, s.online) && s.writer.Uploading? && Publishable(s.writer.db)
    requires Allowed(codec, s.writer, s.online, Saved(f))
    ensures Safe(codec, s.online + {f})
    ensures IsIndex(f) ==> OnlyIndex(codec, s.online + {f}, s.writer.db)
  {
    hide Complete, Publishable;
    forall g | g in s.online + {f} && IsIndex(g) && codec.decode(g.content).Some?
      ensures Complete(s.online + {f}, codec.decode(g.content).value) && Publishable(codec.decode(g.content).value)
    {
      ResolvesMore(s.online, s.online + {f}, codec.decode(g.content).value);
    }
    if IsIndex(f) {
      assert IsIndexOf(codec, s.online + {f}, s.writer.db, f);
    }
  }

  lemma TrashIndexIsSafe(codec: IndexCodec, online: set<StorageFile>, id: string)
    requires Safe(codec, online)
    requires forall g :: g in online && g.id == id ==> IsIndex(g)
    ensures Safe(codec, Apply(online, Trashed(id)))
  {
    hide Complete, Publishable;
    var rest := Apply(online, Trashed(id));
    forall g | g in rest && IsIndex(g) && codec.decode(g.content).Some?
      ensures Complete(rest, codec.decode(g.content).value)
    {
      TrashIndexKeeps(online, id, codec.decode(g.content).value);
    }
  }

  lemma CleaningStepKeeps(codec: IndexCodec, db: Db, dbParts: seq<VFilePart>, files: seq<StorageFile>,
                          online: set<StorageFile>, ever: set<StorageFile>, op: Op)
    requires CleaningFrom(codec, db, dbParts, files, online)
    requires SetOf(files) <= ever && UniqueIds(ever) && TrashOf(op, Plan(db, dbParts, files))
    ensures CleaningFrom(codec, db, dbParts, files, Apply(online, op))
  {
    hide Complete, Publishable, PartList, NoBars, Removals, OnlyIndex;
    var rest, plan := Apply(online, op), Plan(db, dbParts, files);
    var f :| f in plan && f.id == op.id;
    RemovalsOnline(dbParts, |db.bundles| > 0, files, f);
    assert f in SetOf(files);
    forall g | g in SetOf(files) - plan ensures g in rest {
      assert g in online && (g.id == f.id ==> g == f);
    }
  }

  lemma WriteKeepsInv(codec: IndexCodec, s: System, op: Op)
    requires Inv(codec, s) && Enabled(codec, s, Write(op))
    ensures Inv(codec, After(codec, s, Write(op)))
  {
    var t := After(codec, s, Write(op));
    WriteKeepsFiles(codec, s, op);
    CoherenceKept(codec, s, t);
    hide Safe, Files, Coherent, OnlyIndex, CleaningFrom, Publishable, UniqueIds, SetOf;
    match s.writer {
      case Uploading(db) =>
        match op {
          case Saved(f) => SaveIsSafe(codec, s, f);
          case Trashed(id) => TrashIndexIsSafe(codec, s.online, id);
        }
      case Cleaning(db, dbParts, files) =>
        UniqueIdsOf(s);
        CleaningStepKeeps(codec, db, dbParts, files, s.online, s.ever, op);
        CleaningIsSafe(codec, db, dbParts, files, t.online);
      case _ =>
    }
  }

  lemma UniqueIdsOf(s: System)
    requires Files(s)
    ensures UniqueIds(s.ever) && s.online <= s.ever
  {
  }

  /** Coherence speaks of files that were ever online; those only become more. */
  lemma CoherenceKept(codec: IndexCodec, s: System, t: System)
    requires Coherent(codec, s) && s.ever <= t.ever
    requires t.reader.vDb == s.reader.vDb && t.reader.dbFileId == s.reader.dbFileId
    ensures Coherent(codec, t)
  {
    if f :| IsIndexOf(codec, s.ever, s.reader.vDb, f) && f.id == s.reader.dbFileId {
      assert IsIndexOf(codec, t.ever, t.reader.vDb, f);
    }
  }

  lemma BeginCleanKeepsInv(codec: IndexCodec, s: System, dbParts: seq<VFilePart>, files: seq<StorageFile>)
    requires Inv(codec, s) && Enabled(codec, s, BeginClean(dbParts, files))
    ensures Inv(codec, After(codec, s, BeginClean(dbParts, files)))
  {
    hide Complete, Publishable, PartList, Removals;
    var t := After(codec, s, BeginClean(dbParts, files));
    CoherenceKept(codec, s, t);
    var db := s.writer.db;
    assert SetOf(files) == s.online;
    assert NoBars(files);
    var f :| IsIndexOf(codec, s.online, db, f) && forall g :: g in s.online && IsIndex(g) ==> g == f;
    assert Complete(s.online, db) && Publishable(db);
  }

  /** A failed checkDb changes neither field; a successful one serves the complete decoded index. */
  lemma CheckKeepsInv(codec: IndexCodec, s: System, f: StorageFile, readable: bool)
    requires Inv(codec, s) && Enabled(codec, s, Check(f, readable))
    ensures Inv(codec, After(codec, s, Check(f, readable)))
    ensures var r := After(codec, s, Check(f, readable)).reader;
            || (r.vDb == s.reader.vDb && r.dbFileId == s.reader.dbFileId)
            || (codec.decode(f.content) == Some(r.vDb) && r.dbFileId == f.id)
  {
    hide Safe, OnlyIndex, CleaningFrom, Publishable;
    var t := After(codec, s, Check(f, readable));
    if t.reader == s.reader {
      CoherenceKept(codec, s, t);
    } else {
      assert IsIndexOf(codec, t.ever, t.reader.vDb, f);
    }
  }

  lemma StepKeepsInv(codec: IndexCodec, s: System, step: Step)
    requires Inv(codec, s) && Enabled(codec, s, step)
    ensures Inv(codec, After(codec, s, step))
  {
    match step {
      case Write(op) => WriteKeepsInv(codec, s, op);
      case BeginClean(dbParts, files) => BeginCleanKeepsInv(codec, s, dbParts, files);
      case Check(f, readable) => CheckKeepsInv(codec, s, f, readable);
      case _ => CoherenceKept(codec, s, After(codec, s, step));
    }
  }

  lemma {:induction false} RunKeepsInv(codec: IndexCodec, s: System, steps: seq<Step>)
    requires Inv(codec, s) && Run(codec, s, steps)
    ensures Inv(codec, AfterAll(codec, s, steps))
  {
    hide Enabled, After, Inv;
    if steps == [] {
    } else {
      RunKeepsInv(codec, s, Init(steps));
      StepKeepsInv(codec, AfterAll(codec, s, Init(steps)), Last(steps));
    }
  }

  lemma {:induction false} RunPrefix(codec: IndexCodec, s: System, steps: seq<Step>, n: nat)
    requires Run(codec, s, steps) && n <= |steps|
    ensures Run(codec, s, steps[..n])
  {
    hide Enabled, After;
    if n < |steps| {
      RunPrefix(codec, s, Init(steps), n);
      assert Init(steps)[..n] == steps[..n];
    } else {
      assert steps[..n] == steps;
    }
  }

  /** In every reachable state, whatever the writer and the reader did and wherever the writer
      stopped: what an online index names is online, and the reader serves a published database. */
  lemma ReachableIsSafe(codec: IndexCodec, steps: seq<Step>)
    requires Run(codec, START, steps)
    ensures Inv(codec, AfterAll(codec, START, steps))
    ensures Safe(codec, AfterAll(codec, START, steps).online)
    ensures Coherent(codec, AfterAll(codec, START, steps))
  {
    hide Enabled, After;
    StartInv(codec);
    RunKeepsInv(codec, START, steps);
  }

  lemma StartInv(codec: IndexCodec)
    ensures Inv(codec, START)
  {
  }

  /** After the writer has published and finished, with or without cleaning, one refresh and one
      successful checkDb serve the published database, whichever index file is found by name. */
  lemma ReaderCatchesUp(codec: IndexCodec, s: System, db: Db, f: StorageFile)
    requires Inv(codec, s) && (s.writer == Published(db) || (s.writer.Cleaning? && s.writer.db == db))
    requires var t := After(codec, After(codec, s, Stop), Update); Enabled(codec, t, Check(f, true))
    ensures var t := After(codec, After(codec, s, Stop), Update);
            var u := After(codec, t, Check(f, true));
            u.reader.vDb == db && u.reader.dbFileId == f.id
    ensures exists g :: g in s.online && IsIndex(g)
  {
    hide Safe, Complete, Publishable;
    if s.writer.Cleaning? {
      CleaningIsSafe(codec, db, s.writer.dbParts, s.writer.files, s.online);
    }
    var g :| IsIndexOf(codec, s.online, db, g) && forall h :: h in s.online && IsIndex(h) ==> h == g;
    assert f == g;
    if s.reader.dbFileId == f.id && s.reader.dbFileId != "" {
      var h :| IsIndexOf(codec, s.ever, s.reader.vDb, h) && h.id == s.reader.dbFileId;
      assert h == f;
    }
  }

  // ----- runs of the writer's methods are runs of the system -----

  ghost function Writes(ops: seq<Op>): seq<Step> {
    if ops == [] then [] else Writes(Init(ops)) + [Write(Last(ops))]
  }

  /** The files a sequence of changes saves have fresh ids. */
  ghost predicate FreshSaves(ever: set<StorageFile>, ops: seq<Op>) {
    ops == [] ||
    (FreshSaves(ever, Init(ops)) &&
     (Last(ops).Saved? ==> Last(ops).file.id != "" && NoBar(Last(ops).file.md5) &&
                           forall g :: g in EverAfter(ever, Init(ops)) ==> g.id != Last(ops).file.id))
  }

  ghost function EverAfter(ever: set<StorageFile>, ops: seq<Op>): set<StorageFile> {
    if ops == [] then ever
    else EverAfter(ever, Init(ops)) + (if Last(ops).Saved? then {Last(ops).file} else {})
  }

  /** Legal changes, from a storage and a writer of the system, are steps of the system. */
  lemma {:induction false} LegalIsRun(codec: IndexCodec, s: System, ops: seq<Op>)
    requires Legal(codec, s.writer, s.online, ops) && FreshSaves(s.ever, ops)
    ensures Run(codec, s, Writes(ops))
    ensures AfterAll(codec, s, Writes(ops)) ==
            s.(online := Replay(s.online, ops), ever := EverAfter(s.ever, ops), writer := WriterAfter(s.writer, ops))
  {
    hide Allowed, NextWriter, Apply;
    if ops == [] {
    } else {
      LegalIsRun(codec, s, Init(ops));
      var steps := Writes(Init(ops));
      assert Init(steps + [Write(Last(ops))]) == steps;
    }
  }

  /** Prefixes of runs are runs: the writer may stop after any of its changes. */
  lemma {:induction false} LegalPrefix(codec: IndexCodec, w: Writer, online: set<StorageFile>, ops: seq<Op>, n: nat)
    requires Legal(codec, w, online, ops) && n <= |ops|
    ensures Legal(codec, w, online, ops[..n])
  {
    if n < |ops| {
      LegalPrefix(codec, w, online, Init(ops), n);
      assert Init(ops)[..n] == ops[..n];
    } else {
      assert ops[..n] == ops;
    }
  }
}
