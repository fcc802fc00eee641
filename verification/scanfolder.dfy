/** db/scanfolder.go: scanning a folder with the previous database as a cache.

    The walk is a sequence of events with distinct, normalised paths; a file's attributes and
    content are those of the disk at the time of the walk. */
module ScanningFolder {
  import opened Primitives
  import opened Seqs
  import opened Types
  import opened ScanningFile
  import opened Bundling

  /** One element of the walked folder. */
  datatype Entry = Entry(relPath: string, isDir: bool, rawSize: nat, mTime: int,
                         content: Bytes, dirEntries: seq<FolderEl>)

  datatype Event = Visit(entry: Entry) | Fail(error: Error)

  /** Folder sizes are set to 0. */
  function SizeOf(e: Entry): nat {
    if e.isDir then 0 else e.rawSize
  }

  function FolderContentOf(e: Entry): seq<FolderEl> {
    if e.isDir then e.dirEntries else []
  }

  ghost predicate DistinctPaths(walk: seq<Entry>) {
    forall i, j :: 0 <= i < j < |walk| ==> walk[i].relPath != walk[j].relPath
  }

  /** A snapshot of a folder: distinct paths, file sizes are content lengths. */
  ghost predicate Snapshot(walk: seq<Entry>) {
    DistinctPaths(walk) && forall e :: e in walk && !e.isDir ==> e.rawSize == |e.content|
  }

  // ----- scanning without a cache -----

  function FreshFile(c: Crypto, e: Entry): VirtFile {
    if e.isDir then VirtFile(e.relPath, 0, e.mTime, true, e.dirEntries, [], false, "")
    else ScannedFile(c, e.relPath, e.mTime, e.content)
  }

  function FreshScan(c: Crypto, walk: seq<Entry>): map<string, VirtFile> {
    if walk == [] then map[]
    else FreshScan(c, Init(walk))[Last(walk).relPath := FreshFile(c, Last(walk))]
  }

  // ----- scanning with a cache -----

  /** Is the element new, or does one of the compared attributes differ? */
  predicate NewOrChanged(cache: map<string, VirtFile>, e: Entry) {
    || e.relPath !in cache
    || cache[e.relPath].fileSize != SizeOf(e)
    || cache[e.relPath].isDir != e.isDir
    || cache[e.relPath].mTime != e.mTime
  }

  function CachedFile(c: Crypto, cache: map<string, VirtFile>, e: Entry): VirtFile {
    if NewOrChanged(cache, e) then FreshFile(c, e)
    else Unlink(cache[e.relPath]).(folderContent := FolderContentOf(e))
  }

  function CachedScan(c: Crypto, cache: map<string, VirtFile>, walk: seq<Entry>): map<string, VirtFile> {
    if walk == [] then map[]
    else CachedScan(c, cache, Init(walk))[Last(walk).relPath := CachedFile(c, cache, Last(walk))]
  }

  ghost function PathSet(walk: seq<Entry>): set<string> {
    set e | e in walk :: e.relPath
  }

  /** The elements visited before the first walk error. */
  function Visited(events: seq<Event>): seq<Entry> {
    if events == [] || events[0].Fail? then [] else [events[0].entry] + Visited(events[1..])
  }

  function WalkErrorOf(events: seq<Event>): Option<Error> {
    if events == [] then None
    else if events[0].Fail? then Some(events[0].error)
    else WalkErrorOf(events[1..])
  }

  /** What the changed flag says of a completed walk. */
  predicate Changed(cache: map<string, VirtFile>, walk: seq<Entry>) {
    || (exists e :: e in walk && NewOrChanged(cache, e))
    || (exists k :: k in cache && forall e :: e in walk ==> e.relPath != k)
  }

  /** The first-level clone of the old database, without bundles and links. */
  method CloneWithoutBundles(oldDB: Database) returns (clone: Database)
    ensures fresh(clone) && clone.vFiles == ResetLinks(oldDB.vFiles)
  {
    clone := new Database();
    var todo := oldDB.vFiles.Keys;
    while todo != {}
      invariant todo <= oldDB.vFiles.Keys
      invariant clone.vFiles.Keys == oldDB.vFiles.Keys - todo
      invariant forall k :: k in clone.vFiles ==> clone.vFiles[k] == oldDB.vFiles[k]
      decreases todo
    {
      var k :| k in todo;
      clone.vFiles := clone.vFiles[k := oldDB.vFiles[k]];
      todo := todo - {k};
    }
    assert clone.vFiles == oldDB.vFiles;
    ResetOldBundles(clone);
  }

  /** One call of the walk function. */
  method VisitElement(c: Crypto, entry: Entry, cache: Database, newDB: Database)
    returns (isNew: bool, r: Result<()>)
    requires c.Sound() && cache != newDB
    requires !entry.isDir ==> entry.rawSize == |entry.content|
    requires forall k :: k in cache.vFiles ==> cache.vFiles[k].alsoInBundle == ""
    modifies cache`vFiles, newDB`vFiles
    ensures r.Ok?
    ensures isNew == NewOrChanged(old(cache.vFiles), entry)
    ensures newDB.vFiles == old(newDB.vFiles)[entry.relPath := CachedFile(c, old(cache.vFiles), entry)]
    ensures cache.vFiles == old(cache.vFiles) - {entry.relPath}
  {
    var relPath, isDir, mTime, size := entry.relPath, entry.isDir, entry.mTime, entry.rawSize;
    if isDir {
      size := 0;
    }
    var dirEntries := if isDir then entry.dirEntries else [];
    isNew := false;
    var e: VirtFile;
    if relPath !in cache.vFiles || cache.vFiles[relPath].fileSize != size || cache.vFiles[relPath].isDir != isDir
       || cache.vFiles[relPath].mTime != mTime
    {
      isNew := true;
      if !isDir {
        var scanned := ScanFile(c, entry.content, mTime, relPath);
        match scanned {
          case Err(err) => return isNew, Err(err);
          case Ok(vf) => e := vf;
        }
      } else {
        e := VirtFile(relPath, 0, mTime, isDir, dirEntries, [], false, "");
      }
    } else {
      e := cache.vFiles[relPath];
      assert Unlink(e) == e;
    }
    e := e.(folderContent := dirEntries);
    cache.vFiles := cache.vFiles - {relPath};
    newDB.vFiles := newDB.vFiles[relPath := e];
    return isNew, Ok(());
  }

  /** Scans a folder; oldDB is not modified. */
  method FromScan(c: Crypto, events: seq<Event>, oldDB: Database)
    returns (newDB: Database, changed: bool, retErr: Option<Error>)
    requires c.Sound() && Snapshot(Visited(events))
    ensures fresh(newDB) && unchanged(oldDB)
    ensures newDB.vFiles == CachedScan(c, oldDB.vFiles, Visited(events)) && newDB.bundles == map[]
    ensures retErr == WalkErrorOf(events)
    ensures changed <==> Changed(oldDB.vFiles, Visited(events))
  {
    hide *;
    var clone := CloneWithoutBundles(oldDB);
    ghost var base, all, n := clone.vFiles, Visited(events), 0;
    newDB := new Database();
    changed, retErr := false, None;
    ScanStarts(c, base, all, events);
    var i := 0;
    while i < |events| && retErr.None?
      invariant i <= |events| && WalkAt(events, all, i, n, retErr)
      invariant fresh(clone) && fresh(newDB) && clone != newDB && unchanged(oldDB) && newDB.bundles == map[]
      invariant ScanAt(c, base, all, n, clone.vFiles, newDB.vFiles, changed)
      decreases |events| - i
    {
      match events[i] {
        case Fail(error) =>
          WalkFails(events, all, i, n);
          retErr := Some(error);
        case Visit(entry) =>
          WalkStep(events, all, i, n);
          SnapshotEntry(all, n);
          ScanStep(c, base, all, n, clone.vFiles, newDB.vFiles, changed);
          StillUnlinked(c, oldDB.vFiles, all, n, clone.vFiles, newDB.vFiles, changed);
          var isNew, r := VisitElement(c, entry, clone, newDB);
          if isNew {
            changed := true;
          }
          n := n + 1;
      }
      i := i + 1;
    }
    WalkEnds(events, all, i, n, retErr);
    ScanEnds(c, oldDB.vFiles, all, clone.vFiles, newDB.vFiles, changed);
    if |clone.vFiles| > 0 {
      changed := true;
    }
  }

  /** The position in the walk: n elements visited, no error yet or the walk is over. */
  ghost predicate WalkAt(events: seq<Event>, all: seq<Entry>, i: nat, n: nat, retErr: Option<Error>)
    requires i <= |events|
  {
    && n <= |all|
    && (retErr.None? ==> all == all[..n] + Visited(events[i..]) && WalkErrorOf(events) == WalkErrorOf(events[i..]))
    && (retErr.Some? ==> n == |all| && retErr == WalkErrorOf(events))
  }

  lemma WalkStep(events: seq<Event>, all: seq<Entry>, i: nat, n: nat)
    requires i < |events| && events[i].Visit? && WalkAt(events, all, i, n, None)
    ensures n < |all| && all[n] == events[i].entry
    ensures WalkAt(events, all, i + 1, n + 1, None)
  {
    assert events[i..][1..] == events[i + 1..];
    var rest := Visited(events[i..]);
    assert rest == [events[i].entry] + Visited(events[i + 1..]);
    assert all[n] == rest[0];
    assert all[..n + 1] == all[..n] + [all[n]];
  }

  lemma WalkFails(events: seq<Event>, all: seq<Entry>, i: nat, n: nat)
    requires i < |events| && events[i].Fail? && WalkAt(events, all, i, n, None)
    ensures WalkAt(events, all, i + 1, n, Some(events[i].error))
  {
    assert all == all[..n];
  }

  lemma WalkEnds(events: seq<Event>, all: seq<Entry>, i: nat, n: nat, retErr: Option<Error>)
    requires i <= |events| && WalkAt(events, all, i, n, retErr) && (i == |events| || retErr.Some?)
    ensures n == |all| && retErr == WalkErrorOf(events)
  {
    if retErr.None? {
      assert all == all[..n];
    }
  }

  /** The state of the scan after n elements: what is left of the clone, what is new, the flag. */
  ghost predicate ScanAt(c: Crypto, base: map<string, VirtFile>, all: seq<Entry>, n: nat,
                         left: map<string, VirtFile>, found: map<string, VirtFile>, changed: bool)
  {
    && n <= |all|
    && left == base - PathSet(all[..n])
    && found == CachedScan(c, base, all[..n])
    && (changed <==> exists e :: e in all[..n] && NewOrChanged(base, e))
  }

  lemma ScanStarts(c: Crypto, base: map<string, VirtFile>, all: seq<Entry>, events: seq<Event>)
    requires all == Visited(events)
    ensures WalkAt(events, all, 0, 0, None)
    ensures ScanAt(c, base, all, 0, base, map[], false)
  {
    assert events[0..] == events;
  }

  lemma ScanStep(c: Crypto, base: map<string, VirtFile>, all: seq<Entry>, n: nat,
                 left: map<string, VirtFile>, found: map<string, VirtFile>, changed: bool)
    requires n < |all| && DistinctPaths(all) && ScanAt(c, base, all, n, left, found, changed)
    ensures ScanAt(c, base, all, n + 1, left - {all[n].relPath},
                   found[all[n].relPath := CachedFile(c, left, all[n])],
                   changed || NewOrChanged(left, all[n]))
  {
    hide CachedFile, NewOrChanged, PathSet;
    var e := all[n];
    var before, after := all[..n], all[..n + 1];
    assert after == before + [e] && Init(after) == before && Last(after) == e;
    PathSetStep(before, e);
    RemainingLookup(c, base, all, n);
    assert forall x :: x in after <==> x in before || x == e;
    assert (exists x :: x in after && NewOrChanged(base, x)) <==> (exists x :: x in before && NewOrChanged(base, x)) || NewOrChanged(base, e);
  }

  lemma PathSetStep(walk: seq<Entry>, e: Entry)
    ensures PathSet(walk + [e]) == PathSet(walk) + {e.relPath}
  {
  }

  lemma SnapshotEntry(all: seq<Entry>, n: nat)
    requires n < |all| && Snapshot(all)
    ensures DistinctPaths(all)
    ensures !all[n].isDir ==> all[n].rawSize == |all[n].content|
  {
    assert all[n] in all;
  }

  lemma StillUnlinked(c: Crypto, cache: map<string, VirtFile>, all: seq<Entry>, n: nat,
                      left: map<string, VirtFile>, found: map<string, VirtFile>, changed: bool)
    requires ScanAt(c, ResetLinks(cache), all, n, left, found, changed)
    ensures forall k :: k in left ==> left[k].alsoInBundle == ""
  {
  }

  lemma ScanEnds(c: Crypto, cache: map<string, VirtFile>, all: seq<Entry>,
                 left: map<string, VirtFile>, found: map<string, VirtFile>, changed: bool)
    requires ScanAt(c, ResetLinks(cache), all, |all|, left, found, changed)
    ensures found == CachedScan(c, cache, all)
    ensures changed || |left| > 0 <==> Changed(cache, all)
  {
    hide NewOrChanged, CachedScan;
    assert all[..|all|] == all;
    LeftoverMeans(ResetLinks(cache), all, left);
    ResetDoesNotMatter(c, cache, all);
  }

  /** An element that was not visited yet is looked up as in the complete old database. */
  lemma RemainingLookup(c: Crypto, base: map<string, VirtFile>, all: seq<Entry>, i: nat)
    requires i < |all| && DistinctPaths(all)
    ensures var left := base - PathSet(all[..i]);
            && CachedFile(c, left, all[i]) == CachedFile(c, base, all[i])
            && (NewOrChanged(left, all[i]) <==> NewOrChanged(base, all[i]))
  {
    assert all[i].relPath !in PathSet(all[..i]);
  }

  lemma LeftoverMeans(base: map<string, VirtFile>, all: seq<Entry>, left: map<string, VirtFile>)
    requires left == base - PathSet(all)
    ensures |left| > 0 <==> exists k :: k in base && forall e :: e in all ==> e.relPath != k
  {
    if |left| > 0 {
      var k :| k in left;
      assert k in base && forall e :: e in all ==> e.relPath != k;
    }
    if k :| k in base && forall e :: e in all ==> e.relPath != k {
      assert k in left;
    }
  }

  lemma {:induction false} ResetDoesNotMatter(c: Crypto, cache: map<string, VirtFile>, walk: seq<Entry>)
    ensures CachedScan(c, ResetLinks(cache), walk) == CachedScan(c, cache, walk)
    ensures Changed(ResetLinks(cache), walk) <==> Changed(cache, walk)
  {
    hide NewOrChanged, CachedFile;
    forall e
      ensures NewOrChanged(ResetLinks(cache), e) <==> NewOrChanged(cache, e)
      ensures CachedFile(c, ResetLinks(cache), e) == CachedFile(c, cache, e)
    {
      LinksAreIgnored(c, cache, e);
    }
    assert ResetLinks(cache).Keys == cache.Keys;
    if walk == [] {
    } else {
      ResetDoesNotMatter(c, cache, Init(walk));
      LinksAreIgnored(c, cache, Last(walk));
    }
  }

  lemma LinksAreIgnored(c: Crypto, cache: map<string, VirtFile>, e: Entry)
    ensures NewOrChanged(ResetLinks(cache), e) <==> NewOrChanged(cache, e)
    ensures CachedFile(c, ResetLinks(cache), e) == CachedFile(c, cache, e)
  {
  }

  // ----- an incremental scan is a full scan -----

  /** Two snapshots of a folder at different times: size and time determine the content of a file. */
  ghost predicate Consistent(a: seq<Entry>, b: seq<Entry>) {
    forall x, y ::
      x in a && y in b && x.relPath == y.relPath && !x.isDir && !y.isDir &&
      |x.content| == |y.content| && x.mTime == y.mTime
      ==> x.content == y.content
  }

  lemma {:induction false} FreshScanLookup(c: Crypto, walk: seq<Entry>, k: string)
    requires DistinctPaths(walk)
    ensures k in FreshScan(c, walk) <==> exists e :: e in walk && e.relPath == k
    ensures forall e :: e in walk && e.relPath == k ==> FreshScan(c, walk)[k] == FreshFile(c, e)
  {
    hide FreshFile;
    if walk == [] {
    } else {
      var last := Last(walk);
      FreshScanLookup(c, Init(walk), k);
      assert walk == Init(walk) + [last];
      forall e | e in Init(walk) ensures e.relPath != last.relPath && e in walk {
        var i :| 0 <= i < |walk| - 1 && walk[i] == e;
      }
      assert last in walk;
    }
  }

  /** A cache entry with the attributes of a scanned element is what a scan of it gives. */
  lemma CacheHit(c: Crypto, before: seq<Entry>, now: seq<Entry>, cache: map<string, VirtFile>, e: Entry)
    requires Snapshot(before) && Snapshot(now) && Consistent(before, now) && e in now
    requires ResetLinks(cache) == FreshScan(c, before)
    ensures CachedFile(c, cache, e) == FreshFile(c, e)
  {
    if !NewOrChanged(cache, e) {
      hide FreshScan, ScannedFile;
      var k := e.relPath;
      assert ResetLinks(cache)[k] == Unlink(cache[k]);
      FreshScanLookup(c, before, k);
      var b :| b in before && b.relPath == k;
      FreshFileAttributes(c, b);
    }
  }

  lemma FreshFileAttributes(c: Crypto, b: Entry)
    ensures FreshFile(c, b).isDir == b.isDir && FreshFile(c, b).mTime == b.mTime
    ensures FreshFile(c, b).fileSize == if b.isDir then 0 else |b.content|
    ensures FreshFile(c, b).folderContent == FolderContentOf(b)
  {
  }

  lemma {:induction false} CachedIsFresh(c: Crypto, cache: map<string, VirtFile>, walk: seq<Entry>)
    requires forall e :: e in walk ==> CachedFile(c, cache, e) == FreshFile(c, e)
    ensures CachedScan(c, cache, walk) == FreshScan(c, walk)
  {
    hide CachedFile, FreshFile;
    if walk == [] {
    } else {
      assert Last(walk) in walk;
      CachedIsFresh(c, cache, Init(walk));
    }
  }

  lemma {:induction false} FreshScanUnlinked(c: Crypto, walk: seq<Entry>)
    ensures ResetLinks(FreshScan(c, walk)) == FreshScan(c, walk)
  {
    if walk == [] {
    } else {
      FreshScanUnlinked(c, Init(walk));
    }
  }

  lemma NothingCached(c: Crypto, e: Entry)
    ensures CachedFile(c, map[], e) == FreshFile(c, e)
  {
  }

  /** The old database is empty or from an earlier scan, in which bundles may have been made since. */
  ghost predicate OfEarlierScan(c: Crypto, cache: map<string, VirtFile>, now: seq<Entry>) {
    || cache == map[]
    || exists before :: Snapshot(before) && Consistent(before, now) && ResetLinks(cache) == FreshScan(c, before)
  }

  lemma EarlierScanIsEnough(c: Crypto, cache: map<string, VirtFile>, now: seq<Entry>)
    requires Snapshot(now) && OfEarlierScan(c, cache, now)
    ensures CachedScan(c, cache, now) == FreshScan(c, now)
  {
    hide CachedScan, FreshScan, CachedFile, FreshFile, Snapshot, Consistent;
    forall e | e in now ensures CachedFile(c, cache, e) == FreshFile(c, e) {
      if cache == map[] {
        NothingCached(c, e);
      } else {
        var before :| Snapshot(before) && Consistent(before, now) && ResetLinks(cache) == FreshScan(c, before);
        CacheHit(c, before, now, cache, e);
      }
    }
    CachedIsFresh(c, cache, now);
  }

  /** A history of runs: each starts from the database that was saved last, in which bundles may have
      been made, and from nothing at first. A run saves its own database, or nothing: it may stop because
      nothing changed, or fail. */
  ghost predicate ScanHistory(c: Crypto, disks: seq<seq<Entry>>, dbs: seq<map<string, VirtFile>>) {
    && |dbs| == |disks| + 1
    && dbs[0] == map[]
    && forall i :: 0 <= i < |disks| ==>
         dbs[i + 1] == dbs[i] || ResetLinks(dbs[i + 1]) == ResetLinks(CachedScan(c, dbs[i], disks[i]))
  }

  /** Nothing was saved yet, or the result of a full scan of some earlier disk. */
  ghost predicate FromEarlierDisk(c: Crypto, disks: seq<seq<Entry>>, cache: map<string, VirtFile>, i: nat)
    requires i <= |disks|
  {
    cache == map[] || exists j :: 0 <= j < i && ResetLinks(cache) == FreshScan(c, disks[j])
  }

  /** Over any history of disks and runs, also of runs that save nothing, the incremental scan is the scan
      without a cache. */
  lemma {:induction false} IncrementalEqualsFull(c: Crypto, disks: seq<seq<Entry>>, dbs: seq<map<string, VirtFile>>, i: nat)
    requires i < |disks| && ScanHistory(c, disks, dbs)
    requires forall j :: 0 <= j < |disks| ==> Snapshot(disks[j])
    requires forall j, k :: 0 <= j < k < |disks| ==> Consistent(disks[j], disks[k])
    ensures FromEarlierDisk(c, disks, dbs[i], i)
    ensures CachedScan(c, dbs[i], disks[i]) == FreshScan(c, disks[i])
  {
    hide CachedScan, FreshScan, Snapshot, Consistent, ResetLinks;
    if i == 0 {
    } else {
      IncrementalEqualsFull(c, disks, dbs, i - 1);
      FreshScanUnlinked(c, disks[i - 1]);
      if dbs[i] != dbs[i - 1] {
        assert ResetLinks(dbs[i]) == FreshScan(c, disks[i - 1]);
      }
    }
    assert OfEarlierScan(c, dbs[i], disks[i]);
    EarlierScanIsEnough(c, dbs[i], disks[i]);
  }

  // ----- folders and errors -----

  /** Folder listings are those of the walk, also of elements that are taken from the cache. */
  lemma {:induction false} ListingsAreCurrent(c: Crypto, cache: map<string, VirtFile>, walk: seq<Entry>, e: Entry)
    requires DistinctPaths(walk) && e in walk
    ensures e.relPath in CachedScan(c, cache, walk)
    ensures CachedScan(c, cache, walk)[e.relPath].folderContent == if e.isDir then e.dirEntries else []
  {
    hide NewOrChanged, ScannedFile;
    var last := Last(walk);
    assert walk == Init(walk) + [last];
    if e == last {
      ListingOf(c, cache, e);
    } else {
      var i :| 0 <= i < |walk| - 1 && walk[i] == e;
      assert e.relPath != walk[|walk| - 1].relPath;
      ListingsAreCurrent(c, cache, Init(walk), e);
    }
  }

  lemma ListingOf(c: Crypto, cache: map<string, VirtFile>, e: Entry)
    ensures CachedFile(c, cache, e).folderContent == if e.isDir then e.dirEntries else []
  {
    hide NewOrChanged, PartsOf, UsesCompression;
  }

  /** An element whose size, kind and time are those of its record is not scanned again: the record is
      kept, whatever the content is. Every other element is scanned. */
  lemma {:induction false} RecordsAreKept(c: Crypto, cache: map<string, VirtFile>, walk: seq<Entry>, e: Entry)
    requires DistinctPaths(walk) && e in walk
    ensures e.relPath in CachedScan(c, cache, walk)
    ensures CachedScan(c, cache, walk)[e.relPath] ==
            if e.relPath in cache && cache[e.relPath].fileSize == (if e.isDir then 0 else e.rawSize)
               && cache[e.relPath].isDir == e.isDir && cache[e.relPath].mTime == e.mTime
            then cache[e.relPath].(alsoInBundle := "", folderContent := if e.isDir then e.dirEntries else [])
            else FreshFile(c, e)
  {
    hide FreshFile;
    var last := Last(walk);
    assert walk == Init(walk) + [last];
    if e != last {
      var i :| 0 <= i < |walk| - 1 && walk[i] == e;
      assert e.relPath != walk[|walk| - 1].relPath;
      RecordsAreKept(c, cache, Init(walk), e);
    }
  }

  /** The scan stops at the first error: what it visited comes before it, in order. */
  lemma {:induction false} VisitedBeforeError(events: seq<Event>)
    ensures |Visited(events)| <= |events|
    ensures forall i :: 0 <= i < |Visited(events)| ==> events[i] == Visit(Visited(events)[i])
    ensures var n := |Visited(events)|;
            if n == |events| then WalkErrorOf(events) == None
            else events[n].Fail? && WalkErrorOf(events) == Some(events[n].error)
  {
    if events == [] || events[0].Fail? {
    } else {
      var rest := events[1..];
      VisitedBeforeError(rest);
      assert Visited(events) == [events[0].entry] + Visited(rest);
      forall i | 0 <= i < |Visited(events)| ensures events[i] == Visit(Visited(events)[i]) {
        assert i > 0 ==> events[i] == rest[i - 1] && Visited(events)[i] == Visited(rest)[i - 1];
      }
    }
  }

  // ----- the changed flag -----

  /** What the scan compares. */
  datatype Attributes = Attributes(size: int, isDir: bool, mTime: int)

  ghost function AttributesOf(vFiles: map<string, VirtFile>): map<string, Attributes> {
    map k | k in vFiles :: Attributes(vFiles[k].fileSize, vFiles[k].isDir, vFiles[k].mTime)
  }

  /** The flag is set exactly if some path is new, gone, or has other attributes than before. */
  lemma ChangedIff(c: Crypto, cache: map<string, VirtFile>, walk: seq<Entry>)
    requires Snapshot(walk)
    ensures Changed(cache, walk) <==> AttributesOf(cache) != AttributesOf(FreshScan(c, walk))
  {
    hide FreshScan, FreshFile;
    var before, now := AttributesOf(cache), AttributesOf(FreshScan(c, walk));
    forall e | e in walk
      ensures e.relPath in now && (NewOrChanged(cache, e) <==> e.relPath !in before || before[e.relPath] != now[e.relPath])
    {
      FreshScanLookup(c, walk, e.relPath);
      FreshFileAttributes(c, e);
    }
    forall k ensures k in now <==> exists e :: e in walk && e.relPath == k {
      FreshScanLookup(c, walk, k);
    }
    if !Changed(cache, walk) {
      forall k ensures k in before <==> k in now {
        if k in now {
          var e :| e in walk && e.relPath == k;
        }
      }
      forall k | k in before ensures before[k] == now[k] {
        var e :| e in walk && e.relPath == k;
      }
    } else if e :| e in walk && NewOrChanged(cache, e) {
      assert e.relPath in now;
    } else {
      var k :| k in cache && forall e :: e in walk ==> e.relPath != k;
      assert k in before && k !in now;
    }
  }

  /** When nothing changed, a run that stops there keeps a database that is as good as a new one:
      only folder listings can differ. */
  lemma UnchangedKeepsFiles(c: Crypto, before: seq<Entry>, now: seq<Entry>, cache: map<string, VirtFile>, k: string)
    requires Snapshot(before) && Snapshot(now) && Consistent(before, now)
    requires ResetLinks(cache) == FreshScan(c, before) && !Changed(cache, now)
    ensures k in cache <==> k in FreshScan(c, now)
    ensures k in cache ==> Unlink(cache[k]).(folderContent := []) == FreshScan(c, now)[k].(folderContent := [])
  {
    hide FreshScan, FreshFile;
    FreshScanLookup(c, now, k);
    ChangedIff(c, cache, now);
    assert k in AttributesOf(cache) <==> k in AttributesOf(FreshScan(c, now));
    if k in cache {
      var e :| e in now && e.relPath == k;
      CacheHit(c, before, now, cache, e);
    }
  }
}
