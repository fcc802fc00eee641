/** webdav/fs.go and webdav/file.go: the reader side. The file system serves the database of the index
    file that it found last; a file is opened by its first read. */
module Serving {
  import opened Primitives
  import opened Seqs
  import opened Types
  import opened ScanningFile
  import opened Storage
  import opened Protocol
  import opened Consistency
  import opened Readers
  import opened Opening

  // ----- the file system -----

  /** What others do to the storage while a loop sleeps: any changes, and any refresh of the list; or
      nothing, if it is quiet. */
  method Sleep(service: Service, quiet: bool)
    requires service.Valid()
    modifies service
    ensures service.Valid() && old(service.ever) <= service.ever
    ensures quiet ==> unchanged(service)
  {
    if quiet {
      return;
    }
    var changes: nat :| true;
    for i := 0 to changes
      invariant service.Valid() && old(service.ever) <= service.ever
    {
      if {
        case true =>
          var updated := service.Update();
        case true =>
          var name: string, content: Bytes := *, *;
          var saved := service.Save(name, content);
        case |service.list| > 0 =>
          var trashed := service.Trash(service.list[0]);
      }
    }
  }

  class FileSystem {
    const service: Service
    const codec: IndexCodec
    var vDb: Db
    var dbFileId: string      // to detect a new index

    /** The reader of the protocol, and the system around it while no writer is at work. */
    ghost function Here(): System
      reads this, service
    {
      System(service.online, service.ever, Idle, Reader(SetOf(service.list), vDb, dbFileId))
    }

    /** The served database is the empty one or that of a published index. */
    ghost predicate Valid()
      reads this, service
    {
      service.Valid() && Coherent(codec, Here())
    }

    constructor (service: Service, codec: IndexCodec)
      requires service.Valid()
      ensures Valid() && this.service == service && this.codec == codec && vDb == EMPTY_DB && dbFileId == ""
    {
      this.service, this.codec := service, codec;
      vDb, dbFileId := EMPTY_DB, "";
    }

    /** Downloads and decodes an index file; both may fail. */
    method ReadIndex(f: StorageFile) returns (db: Option<Db>, ghost readable: bool)
      ensures db == if readable then codec.decode(f.content) else None
      ensures service.reliable ==> readable
    {
      var fails: bool := *;
      var failed := fails && !service.reliable;
      readable := !failed;
      db := if failed then None else codec.decode(f.content);
    }

    /** A refresh of the served database is a Check step of the protocol, or none if no index is
        listed; it says whether it served a new database, and when it fails it changes nothing. */
    method UpdateDb() returns (changed: bool, ghost steps: seq<Step>)
      requires Valid()
      modifies this`vDb, this`dbFileId
      ensures Valid()
      ensures steps == [] <==> forall f :: f in service.list ==> !IsIndex(f)
      ensures steps != [] ==> exists f, readable :: steps == [Check(f, readable)]
      ensures Run(codec, old(Here()), steps) && Here() == AfterAll(codec, old(Here()), steps)
      ensures service.reliable && steps != [] ==> exists f :: steps == [Check(f, true)]
      ensures !changed ==> vDb == old(vDb) && dbFileId == old(dbFileId)
      ensures !changed && service.reliable && steps != [] ==>
                exists f :: f in service.list && IsIndex(f) && (f.id == old(dbFileId) || codec.decode(f.content).None?)
      ensures changed ==> exists f :: f in service.list && IsIndexOf(codec, service.ever, vDb, f) && dbFileId == f.id
      ensures changed ==> dbFileId != "" && dbFileId != old(dbFileId)
    {
      hide Coherent, AfterAll, Run, CheckDb;
      ghost var before := Here();
      var found := ByName(service.list, INDEX_NAME);
      match found {
        case Err(e) =>
          NoSteps(codec, before);
          return false, [];
        case Ok(f) =>
          Listed(service, f);
          if dbFileId == f.id && dbFileId != "" {
            CheckIsStep(codec, before, f, true);
            return false, [Check(f, true)];
          }
          var newDb, readable := ReadIndex(f);
          CheckIsStep(codec, before, f, readable);
          steps := [Check(f, readable)];
          match newDb {
            case None =>
              return false, steps;
            case Some(db) =>
              vDb, dbFileId := db, f.id;
              NewIsCoherent(codec, Here(), f);
              return true, steps;
          }
      }
    }

    /** One round of the update loop. When the list could be refreshed, and the index is the only one
        and could be read, the database of that index is served. */
    method UpdateRound() returns (updated: bool, changed: bool, ghost steps: seq<Step>)
      requires Valid()
      modifies this`vDb, this`dbFileId, service`list
      ensures Valid()
      ensures !changed ==> vDb == old(vDb) && dbFileId == old(dbFileId)
      ensures updated ==> forall db, f :: OnlyIndex(codec, service.online, db) && steps == [Check(f, true)] ==> vDb == db
      ensures service.reliable ==> updated && forall db :: OnlyIndex(codec, service.online, db) ==> vDb == db
      ensures service.reliable && old(dbFileId) == "" && !changed ==> forall db :: !OnlyIndex(codec, service.online, db)
      ensures updated ==> forall f :: f in service.list <==> f in service.online
      ensures changed ==> exists f :: f in service.list && IsIndexOf(codec, service.ever, vDb, f) && dbFileId == f.id
    {
      updated := service.Update();
      CoherenceKept(codec, old(Here()), Here());
      ghost var before := Here();
      changed, steps := UpdateDb();
      if updated {
        ListIsOnline(service);
        forall db | OnlyIndex(codec, service.online, db)
          ensures forall f :: steps == [Check(f, true)] ==> vDb == db
          ensures steps != [] && (service.reliable && old(dbFileId) == "" ==> changed)
        {
          OnlyOneFound(codec, service, db);
          forall f | steps == [Check(f, true)] ensures vDb == db {
            OnlyOneServed(codec, before, db, f);
          }
        }
      }
    }

    /** The update loop, for any number of rounds; an interval below 1 disables it. The ghost result is what
        was online in each round: over a reliable service the database that was published when the last
        round began is served, and while others are quiet that is the one published at the start. */
    method UpdateLoop(updateInterval: int, rounds: nat, quiet: bool) returns (ghost seen: seq<set<StorageFile>>)
      requires Valid()
      modifies this`vDb, this`dbFileId, service
      ensures Valid()
      ensures updateInterval < 1 ==> unchanged(this) && unchanged(service)
      ensures |seen| == if updateInterval < 1 then 0 else rounds
      ensures seen != [] ==> seen[0] == old(service.online)
      ensures seen != [] && service.reliable ==> forall db :: OnlyIndex(codec, Last(seen), db) ==> vDb == db
      ensures quiet && updateInterval >= 1 && rounds > 0 && service.reliable ==>
                forall db :: OnlyIndex(codec, old(service.online), db) ==> vDb == db
    {
      seen := [];
      if updateInterval < 1 {
        return;
      }
      for i := 0 to rounds
        invariant Valid()
        invariant |seen| == i && (if i > 0 then seen[0] else service.online) == old(service.online)
        invariant quiet ==> service.online == old(service.online) && (i > 0 ==> Last(seen) == old(service.online))
        invariant i > 0 && service.reliable ==> forall db :: OnlyIndex(codec, Last(seen), db) ==> vDb == db
      {
        seen := seen + [service.online];
        var updated, changed, steps := UpdateRound();
        ghost var before := Here();
        Sleep(service, quiet);
        CoherenceKept(codec, before, Here());
      }
    }

    /** The loop at the start: up to six tries to find an index. The ghost result is the list of each try;
        over a reliable service the tries end at the first one with a new index, or after six without. */
    method InitDbLoop(updateInterval: int, quiet: bool) returns (found: bool, ghost tries: seq<seq<StorageFile>>)
      requires Valid()
      modifies this`vDb, this`dbFileId, service
      ensures Valid()
      ensures updateInterval < 1 ==> !found && tries == [] && unchanged(this) && unchanged(service)
      ensures updateInterval >= 1 ==> 0 < |tries| <= 6 && tries[0] == old(service.list) && (found || |tries| == 6)
      ensures service.reliable ==>
                forall i :: 0 <= i < |tries| && NewIndexListed(codec, tries[i], old(dbFileId)) ==> found && i == |tries| - 1
      ensures found ==> service.list == Last(tries) && dbFileId != "" && dbFileId != old(dbFileId)
      ensures found ==> exists f :: f in service.list && f.id == dbFileId && codec.decode(f.content) == Some(vDb)
      ensures !found ==> vDb == old(vDb) && dbFileId == old(dbFileId)
    {
      found, tries := false, [];
      if updateInterval < 1 {
        return;
      }
      var i := 0;
      while i < 6
        invariant Valid() && vDb == old(vDb) && dbFileId == old(dbFileId) && !found
        invariant i == |tries| <= 6
        invariant i == 0 ==> service.list == old(service.list)
        invariant i > 0 ==> tries[0] == old(service.list)
        invariant service.reliable ==> forall j :: 0 <= j < i ==> !NewIndexListed(codec, tries[j], old(dbFileId))
      {
        ghost var steps;
        tries := tries + [service.list];
        found, steps := UpdateDb();
        if found {
          break;
        }
        ghost var before := Here();
        Sleep(service, quiet);
        CoherenceKept(codec, before, Here());
        i := i + 1;
      }
    }

    /** The record of a path, as a file that is not open yet. */
    method OpenFile(relPath: string, ghost content: Bytes) returns (r: Result<File>)
      ensures r.Err? <==> PathFix(relPath) !in vDb.vFiles
      ensures r.Err? ==> r.error == NotExist
      ensures r.Ok? ==> fresh(r.value) && r.value.Valid() && r.value.fs == this && r.value.content == content
      ensures r.Ok? ==> r.value.innerFile == vDb.vFiles[PathFix(relPath)]
      ensures r.Ok? ==> r.value.innerReader == None && r.value.innerOff == 0 && r.value.moves == []
    {
      var fixed := PathFix(relPath);
      if fixed !in vDb.vFiles {
        return Err(NotExist);
      }
      var f := new File(vDb.vFiles[fixed], this, content);
      return Ok(f);
    }
  }

  /** Is an index listed, and are all listed ones new and sound? */
  ghost predicate NewIndexListed(codec: IndexCodec, list: seq<StorageFile>, id: string) {
    && (exists f :: f in list && IsIndex(f))
    && (forall f :: f in list && IsIndex(f) ==> f.id != id && codec.decode(f.content).Some?)
  }

  lemma NoSteps(codec: IndexCodec, s: System)
    ensures Run(codec, s, []) && AfterAll(codec, s, []) == s
  {
  }

  lemma Listed(service: Service, f: StorageFile)
    requires service.Valid() && f in service.list
    ensures f in SetOf(service.list) && f in service.ever && f.id != ""
  {
  }

  lemma CheckIsStep(codec: IndexCodec, s: System, f: StorageFile, readable: bool)
    requires f in s.reader.list && f.name == INDEX_NAME
    ensures Run(codec, s, [Check(f, readable)])
    ensures AfterAll(codec, s, [Check(f, readable)]) == s.(reader := CheckDb(codec, s.reader, f, readable))
    ensures CheckDb(codec, s.reader, f, readable) ==
            if (s.reader.dbFileId == f.id && s.reader.dbFileId != "") || !readable || codec.decode(f.content).None? then s.reader
            else s.reader.(vDb := codec.decode(f.content).value, dbFileId := f.id)
  {
    assert Init([Check(f, readable)]) == [];
  }

  lemma NewIsCoherent(codec: IndexCodec, s: System, f: StorageFile)
    requires f in s.ever && f.name == INDEX_NAME && codec.decode(f.content) == Some(s.reader.vDb) && s.reader.dbFileId == f.id
    ensures Coherent(codec, s) && IsIndexOf(codec, s.ever, s.reader.vDb, f)
  {
    assert IsIndexOf(codec, s.ever, s.reader.vDb, f);
  }

  lemma ListIsOnline(service: Service)
    requires forall f :: f in service.list <==> f in service.online
    ensures SetOf(service.list) == service.online
  {
  }

  lemma OnlyOneServed(codec: IndexCodec, s: System, db: Db, f: StorageFile)
    requires s.reader.list == s.online && UniqueIds(s.ever) && s.online <= s.ever
    requires Coherent(codec, s) && OnlyIndex(codec, s.online, db) && Run(codec, s, [Check(f, true)])
    ensures AfterAll(codec, s, [Check(f, true)]).reader.vDb == db
  {
    assert Init([Check(f, true)]) == [];
    CheckIsStep(codec, s, f, true);
    var g :| IsIndexOf(codec, s.online, db, g) && forall h :: h in s.online && IsIndex(h) ==> h == g;
    assert f == g;
    if s.reader.dbFileId == f.id && s.reader.dbFileId != "" {
      var h :| IsIndexOf(codec, s.ever, s.reader.vDb, h) && h.id == s.reader.dbFileId;
      assert h == f;
    }
  }

  /** The only index is listed, has an id and can be decoded. */
  lemma OnlyOneFound(codec: IndexCodec, service: Service, db: Db)
    requires service.Valid() && SetOf(service.list) == service.online && OnlyIndex(codec, service.online, db)
    ensures !forall f :: f in service.list ==> !IsIndex(f)
    ensures forall f :: f in service.list && IsIndex(f) ==> f.id != "" && codec.decode(f.content).Some?
  {
    var g :| IsIndexOf(codec, service.online, db, g) && forall h :: h in service.online && IsIndex(h) ==> h == g;
    assert g in SetOf(service.list);
    forall f | f in service.list && IsIndex(f) ensures f.id != "" && codec.decode(f.content).Some? {
      Listed(service, f);
      assert f == g;
    }
  }

  // ----- paths -----

  function TrimLeft(s: string): string {
    if s != "" && s[0] == '/' then TrimLeft(s[1..]) else s
  }

  function TrimRight(s: string): string {
    if s != "" && s[|s| - 1] == '/' then TrimRight(s[..|s| - 1]) else s
  }

  function PathFix(relPath: string): string {
    var trimmed := TrimRight(TrimLeft(relPath));
    if trimmed == "" then "." else trimmed
  }

  /** A path of the database neither begins nor ends with a slash. */
  predicate Fixed(path: string) {
    path != "" && path[0] != '/' && path[|path| - 1] != '/'
  }

  lemma {:induction false} TrimLeftEnds(s: string)
    ensures TrimLeft(s) != "" ==> TrimLeft(s)[0] != '/'
  {
    if s == "" || s[0] != '/' {
    } else {
      TrimLeftEnds(s[1..]);
    }
  }

  lemma {:induction false} TrimRightEnds(s: string)
    ensures TrimRight(s) <= s
    ensures TrimRight(s) != "" ==> TrimRight(s)[|TrimRight(s)| - 1] != '/'
  {
    if s == "" || s[|s| - 1] != '/' {
    } else {
      TrimRightEnds(s[..|s| - 1]);
    }
  }

  /** A fixed path is fixed, and fixing does not change it again. */
  lemma PathFixFixes(s: string)
    ensures Fixed(PathFix(s)) && PathFix(PathFix(s)) == PathFix(s)
    ensures Fixed(s) ==> PathFix(s) == s
  {
    TrimLeftEnds(s);
    TrimRightEnds(TrimLeft(s));
  }

  predicate OnlySlashes(s: string) {
    forall i :: 0 <= i < |s| ==> s[i] == '/'
  }

  lemma {:induction false} TrimLeftDrops(a: string, p: string)
    requires OnlySlashes(a)
    ensures TrimLeft(a + p) == TrimLeft(p)
  {
    if a == "" {
      assert a + p == p;
    } else {
      assert (a + p)[1..] == a[1..] + p;
      TrimLeftDrops(a[1..], p);
    }
  }

  lemma {:induction false} TrimRightDrops(p: string, b: string)
    requires OnlySlashes(b)
    ensures TrimRight(p + b) == TrimRight(p)
  {
    if b == "" {
      assert p + b == p;
    } else {
      assert (p + b)[..|p + b| - 1] == p + b[..|b| - 1];
      TrimRightDrops(p, b[..|b| - 1]);
    }
  }

  /** Slashes around a path of the database are dropped, and nothing else is; slashes alone mean the root. */
  lemma PathFixTrims(a: string, p: string, b: string)
    requires OnlySlashes(a) && OnlySlashes(b)
    ensures Fixed(p) ==> PathFix(a + p + b) == p
    ensures PathFix(a) == "."
  {
    assert a + p + b == a + (p + b) && a + "" == a;
    TrimLeftDrops(a, p + b);
    TrimLeftDrops(a, "");
    if Fixed(p) {
      assert (p + b)[0] == p[0];
      TrimRightDrops(p, b);
    }
  }

  // ----- an open file -----

  const SEEK_START := 0
  const SEEK_CURRENT := 1
  const SEEK_END := 2

  /** What happened to an open file: a read that gave some bytes, or a seek. */
  datatype Move = Got(bytes: Bytes) | Sought(offset: int, whence: int)

  /** The position that POSIX seeking defines; the source of a negative or unknown one is 0. */
  function SeekTo(pos: int, size: int, offset: int, whence: int): nat {
    var target :=
      if whence == SEEK_START then offset
      else if whence == SEEK_CURRENT then pos + offset
      else if whence == SEEK_END then size + offset
      else 0;
    if target < 0 then 0 else target
  }

  /** The position after a history of moves. */
  function Tracked(size: int, moves: seq<Move>): nat {
    if moves == [] then 0
    else match Last(moves)
      case Got(bytes) => Tracked(size, Init(moves)) + |bytes|
      case Sought(offset, whence) => SeekTo(Tracked(size, Init(moves)), size, offset, whence)
  }

  /** Every read gave the bytes of the content at the position where it began. */
  ghost predicate Faithful(content: Bytes, size: int, moves: seq<Move>) {
    moves == [] ||
    (Faithful(content, size, Init(moves)) &&
     (Last(moves).Got? ==>
        Last(moves).bytes == Range(content, Tracked(size, Init(moves)), |Last(moves).bytes|)))
  }

  lemma FaithfulStep(content: Bytes, size: int, moves: seq<Move>, move: Move)
    requires Faithful(content, size, moves)
    requires move.Got? ==> move.bytes == Range(content, Tracked(size, moves), |move.bytes|)
    ensures Faithful(content, size, moves + [move])
    ensures Tracked(size, moves + [move]) ==
            match move
            case Got(bytes) => Tracked(size, moves) + |bytes|
            case Sought(offset, whence) => SeekTo(Tracked(size, moves), size, offset, whence)
  {
    hide Range, SeekTo;
    assert Init(moves + [move]) == moves;
  }

  function BytesOf(moves: seq<Move>): Bytes {
    if moves == [] then []
    else BytesOf(Init(moves)) + (if Last(moves).Got? then Last(moves).bytes else [])
  }

  lemma FaithfulLast(content: Bytes, size: int, moves: seq<Move>, move: Move)
    requires Faithful(content, size, moves + [move])
    ensures Faithful(content, size, moves)
    ensures move.Got? ==> move.bytes == Range(content, Tracked(size, moves), |move.bytes|)
    ensures move.Got? ==> Tracked(size, moves + [move]) == Tracked(size, moves) + |move.bytes|
  {
    hide Range, SeekTo;
    assert Init(moves + [move]) == moves;
  }

  lemma BytesOfAppend(moves: seq<Move>, move: Move)
    ensures BytesOf([]) == []
    ensures move.Got? ==> BytesOf(moves + [move]) == BytesOf(moves) + move.bytes
  {
    assert Init(moves + [move]) == moves;
  }

  /** Reads without a seek in between fit together, however short each of them was. */
  lemma {:induction false} SequentialReads(content: Bytes, size: int, moves: seq<Move>, more: seq<Move>)
    requires Faithful(content, size, moves + more) && forall m :: m in more ==> m.Got?
    ensures BytesOf(more) == Range(content, Tracked(size, moves), |BytesOf(more)|)
    ensures Tracked(size, moves + more) == Tracked(size, moves) + |BytesOf(more)|
  {
    hide Range, Tracked, Faithful, BytesOf;
    if more == [] {
      assert moves + more == moves;
      RangeOfLength0(content, Tracked(size, moves));
      BytesOfAppend([], Got([]));
    } else {
      var rest, last := Init(more), Last(more);
      assert more == rest + [last] && moves + more == (moves + rest) + [last] && last in more;
      FaithfulLast(content, size, moves + rest, last);
      BytesOfAppend(rest, last);
      SequentialReads(content, size, moves, rest);
      RangesJoin(content, Tracked(size, moves), |BytesOf(rest)|, |last.bytes|);
    }
  }

  /** A read after a seek: from the start, the bytes at the offset; from the end of a file whose recorded size
      is that of its content, its last bytes. Seeking back over what was read gives it again. */
  lemma SeekThenRead(content: Bytes, size: int, moves: seq<Move>, k: int, whence: int, bytes: Bytes)
    requires whence in {0, 2} && 0 <= k <= |content| == size
    requires Faithful(content, size, moves + [Sought(if whence == 0 then k else -k, whence)] + [Got(bytes)])
    ensures whence == 0 ==> k + |bytes| <= |content| && bytes == content[k..k + |bytes|]
    ensures whence == 2 ==> |bytes| <= k && bytes == content[|content| - k..|content| - k + |bytes|]
  {
    hide Faithful, Tracked;
    var move := Sought(if whence == 0 then k else -k, whence);
    FaithfulLast(content, size, moves + [move], Got(bytes));
    FaithfulLast(content, size, moves, move);
    FaithfulStep(content, size, moves, move);
  }

  lemma SeekBackReadsAgain(content: Bytes, size: int, moves: seq<Move>, first: Bytes, again: Bytes)
    requires |first| == |again|
    requires Faithful(content, size, moves + [Got(first)] + [Sought(-|first|, 1)] + [Got(again)])
    ensures first == again
  {
    hide Faithful, Tracked, Range;
    var read := moves + [Got(first)];
    FaithfulLast(content, size, read + [Sought(-|first|, 1)], Got(again));
    FaithfulLast(content, size, read, Sought(-|first|, 1));
    FaithfulLast(content, size, moves, Got(first));
    FaithfulStep(content, size, read, Sought(-|first|, 1));
  }

  lemma RangesJoin(content: Bytes, pos: nat, m: nat, n: nat)
    requires |Range(content, pos, m)| == m && |Range(content, pos + m, n)| == n
    ensures Range(content, pos, m) + Range(content, pos + m, n) == Range(content, pos, m + n)
  {
  }

  /** The random access reader of the storage library: it fills the buffer, or reaches the end, or
      fails with what it has. */
  method ReadInto(c: Crypto, r: ReaderAt, p: array<bv8>, off: nat, reliable: bool) returns (n: nat, err: Option<Error>)
    requires KeysPresent(r)
    modifies p
    ensures n <= p.Length && p[..n] == Range(View(c, r), off, n)
    ensures err == None ==> n == p.Length
    ensures err == Some(EndOfFile) ==> off + n >= |View(c, r)|
    ensures err.Some? ==> err.value == EndOfFile || (err.value == ServiceFailed && !reliable)
  {
    var data := ReadAt(c, r, off, p.Length);
    ReadAtIsRange(c, r, off, p.Length);
    hide *;
    ghost var view := View(c, r);
    RangeLength(view, off, p.Length);
    n := |data|;
    err := if n == p.Length then None else Some(EndOfFile);
    var stop: nat :| true;
    if stop < n && !reliable {
      n, err := stop, Some(ServiceFailed);
    }
    RangePrefix(view, off, p.Length, n);
    for i := 0 to n
      invariant p[..i] == data[..i]
    {
      p[i] := data[i];
    }
  }

  lemma RangeLength(b: Bytes, off: nat, n: nat)
    ensures |Range(b, off, n)| <= n
    ensures |Range(b, off, n)| < n ==> off + |Range(b, off, n)| >= |b|
  {
  }

  lemma RangePrefix(b: Bytes, off: nat, n: nat, m: nat)
    requires m <= |Range(b, off, n)|
    ensures Range(b, off, n)[..m] == Range(b, off, m)
  {
    var lo := Min(off, |b|);
    assert Min(off + m, |b|) == lo + m;
    assert b[lo..Min(off + n, |b|)][..m] == b[lo..lo + m];
  }

  /** What a first read relies on: the served database describes the disk and has a file of the same
      content at this path, and the storage is sound. */
  ghost predicate Readable(fs: FileSystem, disk: Disk, file: VirtFile)
    reads fs, fs.service
  {
    && fs.service.Valid()
    && Fits(fs.service.c, disk, fs.vDb, file)
    && SoundDb(fs.service.c, disk, fs.vDb)
    && Genuine(fs.service.c, SetOf(fs.service.list))
  }

  lemma ReadableStorage(fs: FileSystem, disk: Disk, file: VirtFile)
    requires Readable(fs, disk, file)
    ensures SoundDb(fs.service.c, disk, fs.vDb) && SoundStorage(fs.service.c, SetOf(fs.service.list))
    ensures UniqueIds(SetOf(fs.service.list))
    ensures Fits(fs.service.c, disk, fs.vDb, file)
  {
    hide SoundDb, Genuine;
  }

  lemma ReadableKeys(fs: FileSystem, disk: Disk, file: VirtFile)
    requires Readable(fs, disk, file)
    ensures ChosenKeysValid(fs.service.list, fs.vDb, file)
  {
    ReadableStorage(fs, disk, file);
    hide *;
    SoundKeys(fs.service.c, disk, fs.vDb, fs.service.list, file);
  }

  lemma ReadableFails(fs: FileSystem, disk: Disk, file: VirtFile, e: Error)
    requires Readable(fs, disk, file) && OpenError(fs.service.c, fs.service.list, fs.vDb, file, fs.service.reliable, e)
    ensures (e == ServiceFailed && !fs.service.reliable) ||
            (e == NotExist && exists part :: part in file.parts && !Resolves(SetOf(fs.service.list), part))
  {
    ReadableStorage(fs, disk, file);
    hide *;
    OpenFailsOnlyFor(fs.service.c, disk, fs.vDb, fs.service.list, file, fs.service.reliable, e);
  }

  lemma ReadableShows(fs: FileSystem, disk: Disk, file: VirtFile, reader: ReaderAt)
    requires Readable(fs, disk, file) && Opened(fs.service.c, fs.service.list, fs.vDb, file, reader)
    ensures KeysPresent(reader) && View(fs.service.c, reader) == ShownContent(disk, file)
  {
    ReadableStorage(fs, disk, file);
    hide *;
    OpenedShowsFile(fs.service.c, disk, fs.vDb, fs.service.list, file, reader);
  }

  lemma RangeOfLength0(b: Bytes, pos: nat)
    ensures Range(b, pos, 0) == []
  {
  }

  class File {
    const innerFile: VirtFile
    const fs: FileSystem
    var innerReader: Option<ReaderAt>
    var innerOff: nat
    ghost const content: Bytes        // what the file shows
    ghost var moves: seq<Move>

    /** The tracked position is that of the history, and every read so far was of the content. */
    ghost predicate Valid()
      reads this
    {
      && innerOff == Tracked(innerFile.fileSize, moves)
      && Faithful(content, innerFile.fileSize, moves)
      && (innerReader.Some? ==>
            KeysPresent(innerReader.value) && View(fs.service.c, innerReader.value) == content)
    }

    constructor (file: VirtFile, fs: FileSystem, ghost content: Bytes)
      ensures Valid() && innerFile == file && this.fs == fs && this.content == content
      ensures innerReader == None && innerOff == 0 && moves == []
    {
      innerFile, this.fs, innerReader, innerOff := file, fs, None, 0;
      this.content, moves := content, [];
    }

    /** Sets the inner reader. */
    method OpenReader(ghost disk: Disk) returns (err: Option<Error>)
      requires Valid() && Readable(fs, disk, innerFile) && content == ShownContent(disk, innerFile)
      modifies this`innerReader
      ensures Valid()
      ensures err == None ==> innerReader.Some?
      ensures err.Some? ==> innerReader == old(innerReader)
      ensures err.Some? ==>
                (err.value == ServiceFailed && !fs.service.reliable) ||
                (err.value == NotExist &&
                 exists part :: part in innerFile.parts && !Resolves(SetOf(fs.service.list), part))
    {
      hide Tracked, Faithful, View, KeysPresent, Opened, OpenError, Readable, Resolves, SetOf, ShownContent, ChosenKeysValid;
      ReadableKeys(fs, disk, innerFile);
      var result := Open(fs.service.c, innerFile, fs.vDb, fs.service.list, fs.service.reliable);
      match result {
        case Err(e) =>
          ReadableFails(fs, disk, innerFile, e);
          return Some(e);
        case Ok(r) =>
          ReadableShows(fs, disk, innerFile, r);
          innerReader := Some(r);
          return None;
      }
    }

    /** Opens the file if it is not open yet, and reads at the tracked position. */
    method Read(p: array<bv8>, ghost disk: Disk) returns (n: nat, err: Option<Error>)
      requires Valid()
      requires innerReader == None ==> Readable(fs, disk, innerFile) && content == ShownContent(disk, innerFile)
      modifies this, p
      ensures Valid() && n <= p.Length
      ensures moves == old(moves) + [Got(p[..n])] && innerOff == old(innerOff) + n
      ensures p[..n] == Range(content, old(innerOff), n)
      ensures err == None ==> n == p.Length
      ensures err == Some(EndOfFile) ==> innerOff >= |content|
      ensures err == Some(ServiceFailed) ==> !fs.service.reliable
      ensures err.Some? && err.value !in {EndOfFile, ServiceFailed} ==>
                old(innerReader) == None && n == 0 && err.value == NotExist &&
                exists part :: part in innerFile.parts && !Resolves(SetOf(fs.service.list), part)
    {
      hide Tracked, Faithful, View, KeysPresent, Range, Readable, Resolves, SetOf, ShownContent;
      if innerReader == None {
        err := OpenReader(disk);
        if err.Some? {
          RangeOfLength0(content, innerOff);
          FaithfulStep(content, innerFile.fileSize, moves, Got(p[..0]));
          moves := moves + [Got(p[..0])];
          return 0, err;
        }
      }
      n, err := ReadInto(fs.service.c, innerReader.value, p, innerOff, fs.service.reliable);
      FaithfulStep(content, innerFile.fileSize, moves, Got(p[..n]));
      innerOff := innerOff + n;
      moves := moves + [Got(p[..n])];
    }

    /** Negative targets become 0, and so does the target of an unknown whence. */
    method Seek(offset: int, whence: int) returns (pos: nat)
      requires Valid()
      modifies this`innerOff, this`moves
      ensures Valid() && moves == old(moves) + [Sought(offset, whence)]
      ensures pos == innerOff == SeekTo(old(innerOff), innerFile.fileSize, offset, whence)
      ensures whence == 0 ==> pos == if offset < 0 then 0 else offset
      ensures whence == 1 ==> pos == if old(innerOff) + offset < 0 then 0 else old(innerOff) + offset
      ensures whence == 2 ==> pos == if innerFile.fileSize + offset < 0 then 0 else innerFile.fileSize + offset
      ensures whence !in {0, 1, 2} ==> pos == 0
    {
      var newPos := 0;
      if whence == SEEK_START {
        newPos := offset;
      } else if whence == SEEK_CURRENT {
        newPos := innerOff + offset;
      } else if whence == SEEK_END {
        newPos := innerFile.fileSize + offset;
      }
      if newPos < 0 {
        newPos := 0;
      }
      FaithfulStep(content, innerFile.fileSize, moves, Sought(offset, whence));
      innerOff := newPos;
      moves := moves + [Sought(offset, whence)];
      return innerOff;
    }
  }
}
