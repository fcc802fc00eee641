/** main.go, upload: scan, bundle, upload, clean and save the local database, in this order. */
module UploadCommand {
  import opened Primitives
  import opened Ctr
  import opened Seqs
  import opened Types
  import opened Grouping
  import opened Bundling
  import opened BundleLaws
  import opened ScanningFolder
  import opened Storage
  import opened Cleaning
  import opened CleanLaws
  import opened Protocol
  import opened Consistency
  import opened ScannedDatabases
  import opened Uploading

  // ----- scanning and bundling -----

  lemma DescribedKeys(c: Crypto, disk: Disk, db: Db)
    requires c.Sound() && Describes(c, disk, db)
    ensures KeysUsable(db)
  {
    hide Describes, ValidKey;
    forall k, p | k in db.vFiles && p in db.vFiles[k].parts ensures ValidKey(p.cryptDataKey) {
      PartShape(c, disk, db, p);
    }
    forall id | id in db.bundles ensures ValidKey(db.bundles[id].part.cryptDataKey) {
      PartShape(c, disk, db, db.bundles[id].part);
    }
  }

  /** Scanning and bundling: the new database describes the scanned folder, with or without bundles. */
  method ScanAndBundle(c: Crypto, events: seq<Event>, oldDb: Database, bundleFlag: bool, forceFlag: bool)
    returns (newDb: Database, changed: bool, err: Option<Error>)
    requires c.Sound() && Snapshot(Visited(events))
    requires OfEarlierScan(c, oldDb.vFiles, Visited(events))
    ensures fresh(newDb) && unchanged(oldDb)
    ensures err == WalkErrorOf(events)
    ensures changed <==> Changed(oldDb.vFiles, Visited(events))
    ensures Describes(c, DiskOf(Visited(events)), newDb.Value()) && KeysMatch(newDb.Value().vFiles) && KeysUsable(newDb.Value())
    ensures ResetLinks(newDb.Value().vFiles) == FreshScan(c, Visited(events))
    ensures Produced(c, Visited(events), newDb.Value())
    ensures if bundleFlag && err == None && (changed || forceFlag) then Bundled(c, FreshScan(c, Visited(events)), newDb.Value())
            else newDb.Value() == Db(FreshScan(c, Visited(events)), map[])
  {
    newDb, changed, err := FromScan(c, events, oldDb);
    ghost var walk := Visited(events);
    ghost var scanned := newDb.vFiles;
    hide FreshScan, CachedScan, Found, Bundled, Linked, BundleTable, DiskOf, Snapshot, OfEarlierScan;
    EarlierScanIsEnough(c, oldDb.vFiles, walk);
    FreshScanUnlinked(c, walk);
    NoBundlesWell(c, scanned);
    ScanDescribes(c, walk, newDb.Value());
    if bundleFlag && err == None && (changed || forceFlag) {
      ghost var groups, files, raw, left;
      groups, files, raw, left := MakeBundles(newDb, c);
      ResetTwice(scanned);
      FoundIsProper(scanned, groups, files, raw, left);
      MakeBundlesInvariant(c, scanned, groups);
      ScanDescribes(c, walk, newDb.Value());
      IsBundled(c, scanned, newDb.Value(), groups, files, raw, left);
    }
    DescribedKeys(c, DiskOf(walk), newDb.Value());
  }

  // ----- the command as a run of the protocol -----

  /** What the command changed online, as steps of the protocol. */
  ghost function CommandSteps(db: Db, uploadOps: seq<Op>, cleaned: bool, dbParts: seq<VFilePart>,
                              files: seq<StorageFile>, cleanOps: seq<Op>): seq<Step>
  {
    [BeginUpload(db)] + Writes(uploadOps) +
    (if cleaned then [BeginClean(dbParts, files)] + Writes(cleanOps) else [])
  }

  /** The changes of the storage among some steps. */
  ghost function OpsOf(steps: seq<Step>): seq<Op> {
    if steps == [] then []
    else OpsOf(Init(steps)) + (if Last(steps).Write? then [Last(steps).op] else [])
  }

  lemma {:induction false} OpsOfConcat(a: seq<Step>, b: seq<Step>)
    ensures OpsOf(a + b) == OpsOf(a) + OpsOf(b)
  {
    if b == [] {
      assert a + b == a;
    } else {
      assert Init(a + b) == a + Init(b) && Last(a + b) == Last(b);
      OpsOfConcat(a, Init(b));
    }
  }

  lemma {:induction false} OpsOfBegun(begin: Step, ops: seq<Op>)
    requires !begin.Write?
    ensures OpsOf([begin] + Writes(ops)) == ops
  {
    if ops == [] {
      assert [begin] + Writes(ops) == [begin] && Init([begin]) == [];
    } else {
      OpsOfBegun(begin, Init(ops));
      assert [begin] + Writes(ops) == ([begin] + Writes(Init(ops))) + [Write(Last(ops))];
      assert Init([begin] + Writes(ops)) == [begin] + Writes(Init(ops));
      assert ops == Init(ops) + [Last(ops)];
    }
  }

  lemma {:induction false} RunConcat(codec: IndexCodec, s: System, a: seq<Step>, b: seq<Step>)
    requires Run(codec, s, a) && Run(codec, AfterAll(codec, s, a), b)
    ensures Run(codec, s, a + b) && AfterAll(codec, s, a + b) == AfterAll(codec, AfterAll(codec, s, a), b)
  {
    hide Enabled, After;
    if b == [] {
      assert a + b == a;
    } else {
      assert Init(a + b) == a + Init(b) && Last(a + b) == Last(b);
      RunConcat(codec, s, a, Init(b));
    }
  }

  lemma RunOne(codec: IndexCodec, s: System, step: Step)
    requires Enabled(codec, s, step)
    ensures Run(codec, s, [step]) && AfterAll(codec, s, [step]) == After(codec, s, step)
  {
    hide Enabled, After;
    assert Init([step]) == [];
  }

  lemma {:induction false} TrashesFresh(ever: set<StorageFile>, ops: seq<Op>, plan: set<StorageFile>)
    requires TrashesOf(ops, plan)
    ensures FreshSaves(ever, ops) && EverAfter(ever, ops) == ever
  {
    if ops == [] {
    } else {
      assert Last(ops) in ops;
      TrashesFresh(ever, Init(ops), plan);
    }
  }

  lemma UploadIsRun(codec: IndexCodec, s: System, db: Db, uploadOps: seq<Op>)
    requires s.writer.Idle? && Publishable(db)
    requires Legal(codec, Uploading(db), s.online, uploadOps) && FreshSaves(s.ever, uploadOps)
    ensures var steps := [BeginUpload(db)] + Writes(uploadOps);
            && Run(codec, s, steps)
            && AfterAll(codec, s, steps) ==
               System(Replay(s.online, uploadOps), EverAfter(s.ever, uploadOps), WriterAfter(Uploading(db), uploadOps), s.reader)
  {
    hide Publishable, Legal, FreshSaves, Replay, EverAfter, WriterAfter, Run, AfterAll;
    RunOne(codec, s, BeginUpload(db));
    var t := After(codec, s, BeginUpload(db));
    LegalIsRun(codec, t, uploadOps);
    RunConcat(codec, s, [BeginUpload(db)], Writes(uploadOps));
  }

  lemma CleanIsRun(codec: IndexCodec, s: System, db: Db, dbParts: seq<VFilePart>, files: seq<StorageFile>, cleanOps: seq<Op>)
    requires s.writer == Published(db) && PartList(db, dbParts) && Distinct(files)
    requires forall f :: f in files <==> f in s.online
    requires TrashesOf(cleanOps, Plan(db, dbParts, files))
    ensures var steps := [BeginClean(dbParts, files)] + Writes(cleanOps);
            && Run(codec, s, steps)
            && AfterAll(codec, s, steps) ==
               System(Replay(s.online, cleanOps), s.ever, Writer.Cleaning(db, dbParts, files), s.reader)
  {
    hide Legal, FreshSaves, Replay, EverAfter, WriterAfter, Run, AfterAll, PartList, Plan;
    RunOne(codec, s, BeginClean(dbParts, files));
    var t := After(codec, s, BeginClean(dbParts, files));
    TrashesAreLegal(codec, db, dbParts, files, t.online, cleanOps);
    TrashesFresh(t.ever, cleanOps, Plan(db, dbParts, files));
    LegalIsRun(codec, t, cleanOps);
    RunConcat(codec, s, [BeginClean(dbParts, files)], Writes(cleanOps));
  }

  /** What the command did online: nothing, or a run of the protocol with the scanned database. */
  ghost predicate CommandDone(c: Crypto, codec: IndexCodec, disk: Disk, db: Db, online: set<StorageFile>, ever: set<StorageFile>,
                              ops: seq<Op>, steps: seq<Step>, after: set<StorageFile>)
  {
    && after == Replay(online, ops) && OpsOf(steps) == ops
    && (Good(c, disk, db) ==>
          forall reader :: Run(codec, System(online, ever, Idle, reader), steps) &&
                           AfterAll(codec, System(online, ever, Idle, reader), steps).online == after)
    && (Good(c, disk, db) && Genuine(c, online) ==> Genuine(c, EverAfter(online, ops)))
  }

  /** Uploads the new database, then cleans by it if asked to. */
  method Publish(c: Crypto, codec: IndexCodec, disk: Disk, db: Db, service: Service, cleanUpFlag: bool, try: bool)
    returns (r: Result<()>, ghost ops: seq<Op>, ghost steps: seq<Step>)
    requires c.Sound() && codec.Sound() && service.Valid() && service.c == c
    requires KeysMatch(db.vFiles) && KeysUsable(db)
    modifies service
    ensures service.Valid() && service.log == old(service.log) + ops
    ensures CommandDone(c, codec, disk, db, old(service.online), old(service.ever), ops, steps, service.online)
    ensures r.Ok? && Good(c, disk, db) ==> Complete(service.online, db) && OnlyIndex(codec, service.online, db)
    ensures r.Ok? && cleanUpFlag && !try ==> NothingUnneeded(db, service.online)
    ensures !cleanUpFlag || try ==> KeepsData(old(service.online), service.online)
    ensures r.Err? && Good(c, disk, db) ==> r.error == ServiceFailed && !service.reliable
  {
    hide *;
    ghost var s, uploadOps;
    r, s, uploadOps := Upload(c, disk, db, codec, service);
    ops, steps := uploadOps, CommandSteps(db, uploadOps, false, [], [], []);
    UploadedOnly(c, codec, disk, db, old(service.online), old(service.ever), s, uploadOps, service.online);
    ghost var online := service.online;
    if r.Err? || !cleanUpFlag {
      return r, ops, steps;
    }
    var updated := service.Update();
    if !updated {
      return Err(ServiceFailed), ops, steps;
    }
    AreUnique(service);
    ghost var planned, dbParts, files, cleanOps;
    r, planned, dbParts, files, cleanOps := Clean(db, service, try);
    ops := uploadOps + cleanOps;
    assert old(service.log) + uploadOps + cleanOps == old(service.log) + ops;
    if planned {
      steps := CommandSteps(db, uploadOps, true, dbParts, files, cleanOps);
      ThenCleaned(c, codec, disk, db, old(service.online), old(service.ever), s, uploadOps, online, dbParts, files, cleanOps, service.online);
      if Good(c, disk, db) {
        CleanedComplete(c, codec, disk, db, online, dbParts, files, cleanOps);
      }
      if r.Ok? && !try {
        CleanedExactly(db, online, dbParts, files);
      }
      if try {
        ReplayNothing(online);
      }
    } else {
      assert uploadOps + cleanOps == uploadOps;
      ReplayNothing(online);
    }
  }

  lemma AreUnique(service: Service)
    requires service.Valid()
    ensures UniqueIds(service.online) && forall f :: f in service.online ==> NoBar(f.md5)
  {
  }

  /** Removing planned files only leaves at least the files that are not planned. */
  lemma {:induction false} TrashesOnlyPlanned(online: set<StorageFile>, ops: seq<Op>, plan: set<StorageFile>)
    requires TrashesOf(ops, plan) && plan <= online && UniqueIds(online)
    ensures online - plan <= Replay(online, ops) <= online
  {
    if ops == [] {
    } else {
      assert Last(ops) in ops;
      TrashesOnlyPlanned(online, Init(ops), plan);
      var f :| f in plan && f.id == Last(ops).id;
    }
  }

  /** After cleaning, also after an interrupted one, the database is complete and its index is online. */
  lemma CleanedComplete(c: Crypto, codec: IndexCodec, disk: Disk, db: Db, online: set<StorageFile>,
                        dbParts: seq<VFilePart>, files: seq<StorageFile>, cleanOps: seq<Op>)
    requires Good(c, disk, db) && Complete(online, db) && OnlyIndex(codec, online, db)
    requires UniqueIds(online) && forall f :: f in online ==> NoBar(f.md5)
    requires Distinct(files) && (forall f :: f in files <==> f in online) && PartList(db, dbParts)
    requires TrashesOf(cleanOps, Removals(dbParts, |db.bundles| > 0, files))
    ensures Complete(Replay(online, cleanOps), db) && OnlyIndex(codec, Replay(online, cleanOps), db)
  {
    hide Good, Complete, OnlyIndex, Removals, PartList, DbParts, UniqueIds, NoBar, Publishable;
    GoodIsPublishable(c, disk, db);
    var plan := Removals(dbParts, |db.bundles| > 0, files);
    forall f | f in plan ensures f in online {
      RemovalsOnline(dbParts, |db.bundles| > 0, files, f);
    }
    TrashesOnlyPlanned(online, cleanOps, plan);
    assert SetOf(files) == online;
    CleaningKeepsParts(codec, db, dbParts, files, Replay(online, cleanOps));
    CleaningKeepsIndex(codec, db, dbParts, files, Replay(online, cleanOps));
  }

  lemma CleanedExactly(db: Db, online: set<StorageFile>, dbParts: seq<VFilePart>, files: seq<StorageFile>)
    requires Distinct(files) && (forall f :: f in files <==> f in online) && PartList(db, dbParts)
    requires forall f :: f in online ==> NoBar(f.md5)
    ensures NothingUnneeded(db, online - Removals(dbParts, |db.bundles| > 0, files))
  {
    hide NothingUnneeded, Removals, PartList, Distinct, NoBar;
    assert SetOf(files) == online;
    CleanIsExact(db, dbParts, files);
  }

  lemma ReplayNothing(online: set<StorageFile>)
    ensures Replay(online, []) == online
  {
  }

  lemma UploadedOnly(c: Crypto, codec: IndexCodec, disk: Disk, db: Db, online: set<StorageFile>, ever: set<StorageFile>,
                     s: Session, uploadOps: seq<Op>, after: set<StorageFile>)
    requires UploadDone(c, disk, db, codec, online, ever, s, uploadOps, after)
    ensures CommandDone(c, codec, disk, db, online, ever, uploadOps, CommandSteps(db, uploadOps, false, [], [], []), after)
    ensures KeepsData(online, after)
  {
    hide Good, Genuine, Legal, FreshSaves, Replay, EverAfter, WriterAfter, Run, AfterAll, OpsOf, Publishable, NoDoubleSaves,
         DbParts;
    var steps := [BeginUpload(db)] + Writes(uploadOps);
    assert CommandSteps(db, uploadOps, false, [], [], []) == steps;
    OpsOfBegun(BeginUpload(db), uploadOps);
    if Good(c, disk, db) {
      GoodIsPublishable(c, disk, db);
      forall reader
        ensures Run(codec, System(online, ever, Idle, reader), steps)
        ensures AfterAll(codec, System(online, ever, Idle, reader), steps).online == after
      {
        UploadIsRun(codec, System(online, ever, Idle, reader), db, uploadOps);
      }
    }
  }

  lemma GenuineSubset(c: Crypto, a: set<StorageFile>, b: set<StorageFile>)
    requires Genuine(c, a) && b <= a
    ensures Genuine(c, b)
  {
    hide BundleNameFor, BundleCipherFor, ContentsOccur;
  }

  lemma {:induction false} TrashesShrink(online: set<StorageFile>, ops: seq<Op>, plan: set<StorageFile>)
    requires TrashesOf(ops, plan)
    ensures Replay(online, ops) <= online
  {
    if ops == [] {
    } else {
      assert Last(ops) in ops;
      TrashesShrink(online, Init(ops), plan);
    }
  }

  lemma ThenCleaned(c: Crypto, codec: IndexCodec, disk: Disk, db: Db, online: set<StorageFile>, ever: set<StorageFile>,
                    s: Session, uploadOps: seq<Op>, mid: set<StorageFile>, dbParts: seq<VFilePart>,
                    files: seq<StorageFile>, cleanOps: seq<Op>, after: set<StorageFile>)
    requires UploadDone(c, disk, db, codec, online, ever, s, uploadOps, mid)
    requires Good(c, disk, db) ==> WriterAfter(Uploading(db), uploadOps) == Published(db)
    requires Distinct(files) && (forall f :: f in files <==> f in mid) && PartList(db, dbParts)
    requires TrashesOf(cleanOps, Removals(dbParts, |db.bundles| > 0, files)) && after == Replay(mid, cleanOps)
    ensures CommandDone(c, codec, disk, db, online, ever, uploadOps + cleanOps,
                        CommandSteps(db, uploadOps, true, dbParts, files, cleanOps), after)
  {
    hide Good, Genuine, Legal, FreshSaves, Replay, EverAfter, WriterAfter, Run, AfterAll, OpsOf, Publishable, NoDoubleSaves,
         DbParts,
         PartList, Removals;
    ReplayConcat(online, uploadOps, cleanOps);
    TrashesShrink(mid, cleanOps, Removals(dbParts, |db.bundles| > 0, files));
    var first, second := [BeginUpload(db)] + Writes(uploadOps), [BeginClean(dbParts, files)] + Writes(cleanOps);
    assert CommandSteps(db, uploadOps, true, dbParts, files, cleanOps) == first + second;
    OpsOfBegun(BeginUpload(db), uploadOps);
    OpsOfBegun(BeginClean(dbParts, files), cleanOps);
    OpsOfConcat(first, second);
    if Good(c, disk, db) {
      GoodIsPublishable(c, disk, db);
      forall reader
        ensures Run(codec, System(online, ever, Idle, reader), first + second)
        ensures AfterAll(codec, System(online, ever, Idle, reader), first + second).online == after
      {
        var s0 := System(online, ever, Idle, reader);
        UploadIsRun(codec, s0, db, uploadOps);
        CleanIsRun(codec, AfterAll(codec, s0, first), db, dbParts, files, cleanOps);
        RunConcat(codec, s0, first, second);
      }
      EverConcat(online, uploadOps, cleanOps);
      TrashesFresh(EverAfter(online, uploadOps), cleanOps, Removals(dbParts, |db.bundles| > 0, files));
    }
  }

  // ----- the command -----

  datatype Outcome = Exited(error: Error) | NothingChanged | Finished(local: Db)

  /** A service that is not touched has done nothing. */
  lemma NothingPublished(c: Crypto, codec: IndexCodec, disk: Disk, db: Db, online: set<StorageFile>, ever: set<StorageFile>)
    ensures CommandDone(c, codec, disk, db, online, ever, [], [], online) && KeepsData(online, online)
  {
    hide Good, Genuine;
  }

  /** The upload command, and with scanOnly the scan command: nothing is published after a walk error
      or when nothing changed and nothing was forced; the database is saved locally only after it
      was published. */
  method RunUpload(c: Crypto, codec: IndexCodec, events: seq<Event>, oldDb: Database, service: Service,
                   scanOnly: bool, forceFlag: bool, bundleFlag: bool, cleanUpFlag: bool, try: bool, localReliable: bool)
    returns (outcome: Outcome, newDb: Database, ghost ops: seq<Op>, ghost steps: seq<Step>)
    requires c.Sound() && codec.Sound() && service.Valid() && service.c == c
    requires Snapshot(Visited(events))
    requires OfEarlierScan(c, oldDb.vFiles, Visited(events))
    modifies service
    ensures fresh(newDb) && unchanged(oldDb) && service.Valid()
    ensures service.log == old(service.log) + ops
    ensures Describes(c, DiskOf(Visited(events)), newDb.Value()) && KeysMatch(newDb.Value().vFiles)
    ensures Produced(c, Visited(events), newDb.Value())
    ensures CommandDone(c, codec, DiskOf(Visited(events)), newDb.Value(), old(service.online), old(service.ever), ops, steps,
                        service.online)
    ensures scanOnly ==> ops == []
    ensures WalkErrorOf(events).Some? ==> outcome == Exited(WalkErrorOf(events).value) && ops == []
    ensures outcome == NothingChanged <==>
              WalkErrorOf(events) == None && !Changed(old(oldDb.vFiles), Visited(events)) && !forceFlag
    ensures outcome == NothingChanged ==> ops == []
    ensures outcome.Exited? && WalkErrorOf(events) == None && DataOccurs(c, DiskOf(Visited(events)), newDb.Value()) ==>
              || (outcome.error == LocalSaveFailed && !localReliable)
              || (outcome.error == ServiceFailed && !scanOnly && !service.reliable)
    ensures outcome.Finished? ==> outcome.local == newDb.Value()
    ensures outcome.Finished? ==>
              if bundleFlag then Bundled(c, FreshScan(c, Visited(events)), newDb.Value())
              else newDb.Value() == Db(FreshScan(c, Visited(events)), map[])
    ensures outcome.Finished? && !scanOnly && cleanUpFlag && !try ==> NothingUnneeded(newDb.Value(), service.online)
    ensures !cleanUpFlag || try ==> KeepsData(old(service.online), service.online)
    ensures (outcome.Finished? || (outcome == Exited(LocalSaveFailed) && WalkErrorOf(events) == None)) &&
            !scanOnly && DataOccurs(c, DiskOf(Visited(events)), newDb.Value()) ==>
              Complete(service.online, newDb.Value()) && OnlyIndex(codec, service.online, newDb.Value())
  {
    hide *;
    var changed, err;
    newDb, changed, err := ScanAndBundle(c, events, oldDb, bundleFlag, forceFlag);
    ops, steps := [], [];
    var disk := DiskOf(Visited(events));
    NothingPublished(c, codec, disk, newDb.Value(), service.online, service.ever);
    if err.Some? {
      return Exited(err.value), newDb, ops, steps;
    }
    if !changed && !forceFlag {
      return NothingChanged, newDb, ops, steps;
    }
    if !scanOnly {
      var published;
      published, ops, steps := Publish(c, codec, disk, newDb.Value(), service, cleanUpFlag, try);
      ScannedIsGood(c, disk, newDb.Value());
      if published.Err? {
        return Exited(published.error), newDb, ops, steps;
      }
    }
    var fails: bool := *;
    if fails && !localReliable {
      return Exited(LocalSaveFailed), newDb, ops, steps;
    }
    return Finished(newDb.Value()), newDb, ops, steps;
  }

  lemma ScannedIsGood(c: Crypto, disk: Disk, db: Db)
    requires c.Sound() && Describes(c, disk, db)
    ensures Good(c, disk, db) <==> DataOccurs(c, disk, db)
  {
  }

  /** Wherever the command stops, in any state that a storage can be in: every part and bundle that an
      online index names is online, and bundle files contain what their names say. */
  lemma CommandIsSafe(c: Crypto, codec: IndexCodec, disk: Disk, db: Db, s: System, ops: seq<Op>, steps: seq<Step>,
                      after: set<StorageFile>, n: nat)
    requires Inv(codec, s) && s.writer == Idle && Good(c, disk, db)
    requires CommandDone(c, codec, disk, db, s.online, s.ever, ops, steps, after) && n <= |steps|
    ensures Safe(codec, after)
    ensures Inv(codec, AfterAll(codec, s, steps[..n])) && Safe(codec, AfterAll(codec, s, steps[..n]).online)
    ensures Genuine(c, s.online) ==> Genuine(c, AfterAll(codec, s, steps[..n]).online)
  {
    hide Good, Genuine, Run, AfterAll, OpsOf, EverAfter, Safe, Files, Coherent;
    assert s == System(s.online, s.ever, Idle, s.reader);
    RunKeepsInv(codec, s, steps);
    RunPrefix(codec, s, steps, n);
    RunKeepsInv(codec, s, steps[..n]);
    OnlineWithin(codec, s, steps, n);
    if Genuine(c, s.online) {
      GenuineSubset(c, EverAfter(s.online, ops), AfterAll(codec, s, steps[..n]).online);
    }
  }

  /** What is online during a run was online before, or was saved in the run. */
  lemma {:induction false} OnlineWithin(codec: IndexCodec, s: System, steps: seq<Step>, n: nat)
    requires n <= |steps|
    ensures AfterAll(codec, s, steps[..n]).online <= EverAfter(s.online, OpsOf(steps))
  {
    hide After, EverAfter;
    if steps == [] {
      assert steps[..n] == [];
      StepsWithin(s.online, steps);
    } else {
      StepsWithin(s.online, steps);
      if n < |steps| {
        OnlineWithin(codec, s, Init(steps), n);
        assert Init(steps)[..n] == steps[..n];
      } else {
        OnlineWithin(codec, s, Init(steps), |steps| - 1);
        assert Init(steps)[..|steps| - 1] == Init(steps) && steps[..n] == steps;
        StepWithin(codec, AfterAll(codec, s, Init(steps)), Last(steps));
      }
    }
  }

  lemma StepWithin(codec: IndexCodec, s: System, step: Step)
    ensures After(codec, s, step).online <= s.online + (if step.Write? && step.op.Saved? then {step.op.file} else {})
  {
    hide NextWriter, CheckDb;
  }

  lemma StepsWithin(online: set<StorageFile>, steps: seq<Step>)
    ensures EverAfter(online, []) == online
    ensures steps != [] ==>
              EverAfter(online, OpsOf(steps)) ==
              EverAfter(online, OpsOf(Init(steps))) +
              (if Last(steps).Write? && Last(steps).op.Saved? then {Last(steps).op.file} else {})
  {
    hide EverAfter;
    EverNothing(online);
    if steps != [] {
      var before, last := OpsOf(Init(steps)), Last(steps);
      if last.Write? {
        assert OpsOf(steps) == before + [last.op];
        EverStep(online, before, last.op);
      } else {
        assert OpsOf(steps) == before;
      }
    }
  }

  lemma EverStep(ever: set<StorageFile>, ops: seq<Op>, op: Op)
    ensures EverAfter(ever, ops + [op]) == EverAfter(ever, ops) + (if op.Saved? then {op.file} else {})
  {
    assert Init(ops + [op]) == ops;
  }

  lemma EverNothing(ever: set<StorageFile>)
    ensures EverAfter(ever, []) == ever
  {
  }
}
