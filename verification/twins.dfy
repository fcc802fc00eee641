/** A folder whose bundles get the same id: two directories with 64 copies each of one file. */
module Twins {
  import opened Primitives
  import opened Seqs
  import opened Types
  import opened Paths
  import opened Splitting
  import opened Grouping
  import opened Bundling
  import opened BundleLaws
  import opened ScanningFile
  import opened ScanningFolder
  import opened ScannedDatabases

  const COPIES: nat := 64
  const TWIN_SIZE: nat := MAX_FILE_SIZE_TO_BUNDLE - 1

  function TwinPath(dir: char, i: nat): string
    requires i < COPIES
  {
    [dir, '/', (65 + i) as char]
  }

  function TwinDir(dir: char, content: Bytes): seq<Entry> {
    seq(COPIES, i requires 0 <= i < COPIES => Entry(TwinPath(dir, i), false, |content|, 0, content, []))
  }

  function Folder(relPath: string, elements: seq<FolderEl>): Entry {
    Entry(relPath, true, 0, 0, [], elements)
  }

  function TwinFolder(dir: char): Entry {
    Folder([dir], seq(COPIES, i requires 0 <= i < COPIES => FolderEl([(65 + i) as char], false)))
  }

  /** The folders and files in the order of the walk. */
  function TwinWalk(content: Bytes): seq<Entry> {
    [Folder(".", [FolderEl("a", true), FolderEl("b", true)])] +
    ([TwinFolder('a')] + TwinDir('a', content)) + ([TwinFolder('b')] + TwinDir('b', content))
  }

  /** The records of the files of one directory. */
  function TwinFiles(c: Crypto, dir: char, content: Bytes): seq<VirtFile> {
    seq(COPIES, i requires 0 <= i < COPIES => ScannedFile(c, TwinPath(dir, i), 0, content))
  }

  predicate IsTwin(c: Crypto, content: Bytes, f: VirtFile) {
    && f.fileSize == TWIN_SIZE && !f.isDir && !f.useCompression
    && f.parts == [PartOf(c, false, content)] && f.parts[0].storageSize == TWIN_SIZE
  }

  lemma ScannedIsTwin(c: Crypto, content: Bytes, path: string)
    requires |content| == TWIN_SIZE
    ensures IsTwin(c, content, ScannedFile(c, path, 0, content)) && ScannedFile(c, path, 0, content).relPath == path
    ensures Eligible(ScannedFile(c, path, 0, content))
  {
    hide PartOf;
    assert PART_SIZE == 1073741824 && MAX_FILE_SIZE_TO_BUNDLE == 12582912 && MAX_FILE_SIZE_FOR_COMPRESSION == 1048576;
    StoredUncompressed(c, content);
    assert Chunk(content, 0) == content && PartCount(|content|) == 1;
  }

  lemma StoredUncompressed(c: Crypto, content: Bytes)
    ensures PartOf(c, false, content).storageSize == |content|
  {
  }

  lemma TwinPathsAscend(d: char, i: nat, e: char, j: nat)
    requires i < COPIES && j < COPIES && (d < e || (d == e && i < j))
    ensures Less(TwinPath(d, i), TwinPath(e, j))
  {
    var p, q := TwinPath(d, i), TwinPath(e, j);
    assert p[1..][0] == q[1..][0] == '/';
    assert p[1..][1..][0] == (65 + i) as char && q[1..][1..][0] == (65 + j) as char;
  }

  lemma TwinsSorted(c: Crypto, content: Bytes)
    requires |content| == TWIN_SIZE
    ensures Sorted(TwinFiles(c, 'a', content) + TwinFiles(c, 'b', content))
  {
    hide ScannedFile, Less, TwinPath;
    var files := TwinFiles(c, 'a', content) + TwinFiles(c, 'b', content);
    forall i, j | 0 <= i < j < |files| ensures Less(files[i].relPath, files[j].relPath) {
      var d, k := if i < COPIES then 'a' else 'b', i % COPIES;
      var e, l := if j < COPIES then 'a' else 'b', j % COPIES;
      ScannedIsTwin(c, content, TwinPath(d, k));
      ScannedIsTwin(c, content, TwinPath(e, l));
      TwinPathsAscend(d, k, e, l);
    }
  }

  lemma DistinctConcat(a: seq<Entry>, b: seq<Entry>)
    requires DistinctPaths(a) && DistinctPaths(b)
    requires forall x, y :: x in a && y in b ==> x.relPath != y.relPath
    ensures DistinctPaths(a + b)
  {
    var s := a + b;
    forall i, j | 0 <= i < j < |s| ensures s[i].relPath != s[j].relPath {
      if i < |a| <= j {
        assert s[i] in a && s[j] in b;
      }
    }
  }

  /** A directory with its files: paths begin with its name. */
  lemma TwinDirDistinct(dir: char, content: Bytes)
    ensures DistinctPaths([TwinFolder(dir)] + TwinDir(dir, content))
    ensures forall e :: e in [TwinFolder(dir)] + TwinDir(dir, content) ==> e.relPath != [] && e.relPath[0] == dir
    ensures forall e :: e in TwinDir(dir, content) ==>
              !e.isDir && e.rawSize == |e.content| && exists i: nat :: i < COPIES && e == TwinDir(dir, content)[i]
  {
    hide Less;
    var files := TwinDir(dir, content);
    forall i, j | 0 <= i < j < COPIES ensures files[i].relPath != files[j].relPath {
      TwinPathsAscend(dir, i, dir, j);
      LessTotal(files[i].relPath, files[j].relPath);
    }
    forall e | e in files
      ensures !e.isDir && e.rawSize == |e.content| && |e.relPath| == 3 && e.relPath[0] == dir
      ensures exists i: nat :: i < COPIES && e == files[i]
    {
      var i: nat :| i < COPIES && e == files[i];
    }
    DistinctConcat([TwinFolder(dir)], files);
  }

  lemma TwinSnapshot(content: Bytes)
    ensures Snapshot(TwinWalk(content))
  {
    var a, b := [TwinFolder('a')] + TwinDir('a', content), [TwinFolder('b')] + TwinDir('b', content);
    TwinDirDistinct('a', content);
    TwinDirDistinct('b', content);
    hide TwinDir, TwinFolder;
    var root := [Folder(".", [FolderEl("a", true), FolderEl("b", true)])];
    DistinctConcat(root, a);
    DistinctConcat(root + a, b);
    forall e: Entry | e in root + a + b && !e.isDir ensures e.rawSize == |e.content| {
      assert e !in root;
      assert e in TwinDir('a', content) || e in TwinDir('b', content) || e == TwinFolder('a') || e == TwinFolder('b');
      FoldersAreDirs('a');
      FoldersAreDirs('b');
    }
  }

  lemma FoldersAreDirs(dir: char)
    ensures TwinFolder(dir).isDir
  {
  }

  lemma TwinEntries(content: Bytes, e: Entry)
    ensures e in TwinWalk(content) && !e.isDir <==> e in TwinDir('a', content) || e in TwinDir('b', content)
  {
    TwinDirDistinct('a', content);
    TwinDirDistinct('b', content);
    hide TwinDir;
  }

  lemma TwinFilesOf(c: Crypto, dir: char, content: Bytes, f: VirtFile)
    ensures f in TwinFiles(c, dir, content) <==> exists e :: e in TwinDir(dir, content) && f == FreshFile(c, e)
    ensures forall e :: e in TwinDir(dir, content) ==> !e.isDir && e.content == content
  {
    hide ScannedFile, TwinPath;
    var files, entries := TwinFiles(c, dir, content), TwinDir(dir, content);
    forall i | 0 <= i < COPIES ensures files[i] == FreshFile(c, entries[i]) && entries[i] in entries && files[i] in files {
    }
    if f in files {
      var i :| 0 <= i < COPIES && files[i] == f;
    }
    if e :| e in entries && f == FreshFile(c, e) {
      var i :| 0 <= i < COPIES && entries[i] == e;
    }
  }

  /** The files of the folder are the candidates for bundles. */
  lemma TwinCandidates(c: Crypto, content: Bytes)
    requires |content| == TWIN_SIZE
    ensures IsCandidates(FreshScan(c, TwinWalk(content)), TwinFiles(c, 'a', content) + TwinFiles(c, 'b', content))
  {
    hide FreshScan, ScannedFile, TwinFiles, TwinDir, TwinWalk, Eligible, IsTwin, FreshFile;
    var walk := TwinWalk(content);
    var a, b := TwinFiles(c, 'a', content), TwinFiles(c, 'b', content);
    var vFiles := FreshScan(c, walk);
    TwinSnapshot(content);
    TwinsSorted(c, content);
    forall f: VirtFile ensures f in a + b <==> f.relPath in vFiles && vFiles[f.relPath] == f && Eligible(f) {
      TwinFilesOf(c, 'a', content, f);
      TwinFilesOf(c, 'b', content, f);
      FreshScanLookup(c, walk, f.relPath);
      if f in a + b {
        var e :| (e in TwinDir('a', content) || e in TwinDir('b', content)) && f == FreshFile(c, e);
        TwinEntries(content, e);
        TwinRecord(c, content, e);
      }
      if f.relPath in vFiles && vFiles[f.relPath] == f && Eligible(f) {
        var e :| e in walk && e.relPath == f.relPath;
        TwinEntries(content, e);
        FolderNotEligible(c, e);
        assert e in TwinDir('a', content) || e in TwinDir('b', content);
        assert f == FreshFile(c, e);
      }
    }
  }

  lemma TwinRecord(c: Crypto, content: Bytes, e: Entry)
    requires |content| == TWIN_SIZE && (e in TwinDir('a', content) || e in TwinDir('b', content))
    ensures FreshFile(c, e).relPath == e.relPath && Eligible(FreshFile(c, e))
  {
    hide ScannedFile, IsTwin, Eligible, TwinPath;
    ScannedIsTwin(c, content, e.relPath);
  }

  lemma {:induction false} TwinSums(c: Crypto, content: Bytes, files: seq<VirtFile>)
    requires forall f :: f in files ==> IsTwin(c, content, f)
    ensures FileSizes(files) == |files| * TWIN_SIZE && StorageSum(files) == |files| * TWIN_SIZE
    ensures PlainHashes(files) == seq(|files|, _ => PartOf(c, false, content).plainSha512)
  {
    hide PartOf;
    if files == [] {
    } else {
      assert Last(files) in files;
      TwinSums(c, content, Init(files));
    }
  }

  lemma TwinDirFiles(c: Crypto, dir: char, content: Bytes)
    requires |content| == TWIN_SIZE
    ensures forall f :: f in TwinFiles(c, dir, content) ==> IsTwin(c, content, f) && |f.relPath| == 3 && Cut(f.relPath, 2) == [dir, '/']
  {
    hide ScannedFile, IsTwin;
    var files := TwinFiles(c, dir, content);
    forall f | f in files ensures IsTwin(c, content, f) && |f.relPath| == 3 && Cut(f.relPath, 2) == [dir, '/'] {
      var i :| 0 <= i < |files| && files[i] == f;
      ScannedIsTwin(c, content, TwinPath(dir, i));
    }
  }

  lemma {:induction false} PathLens(files: seq<VirtFile>, n: nat)
    requires files != [] && forall f :: f in files ==> |f.relPath| == n
    ensures MaxPathLen(files) == n
  {
    assert Last(files) in files;
    if |files| == 1 {
    } else {
      PathLens(Init(files), n);
    }
  }

  /** All of them are left for phase 3. */
  lemma TwinPhases(c: Crypto, content: Bytes, files: seq<VirtFile>)
    requires forall f :: f in files ==> IsTwin(c, content, f)
    ensures Phase3Files(files) == files
  {
    hide PartOf;
    assert MAX_FILE_SIZE_TO_BUNDLE == 12582912;
    forall f | f in files ensures !IsVerySmall(f) && !IsCompressed(f) {
      assert IsTwin(c, content, f) && StoredSize(f) == TWIN_SIZE;
    }
    assert forall f :: f in files ==> Not(IsVerySmall)(f);
    assert forall f :: f in files ==> Not(IsCompressed)(f);
    FilterAll(files, Not(IsVerySmall));
    FilterAll(files, Not(IsCompressed));
  }

  lemma TwinDirGroup(c: Crypto, content: Bytes, dir: char)
    requires |content| == TWIN_SIZE && dir in {'a', 'b'}
    ensures GroupOf(TwinFiles(c, 'a', content) + TwinFiles(c, 'b', content), 2, [dir, '/']) == TwinFiles(c, dir, content)
  {
    hide ScannedFile, IsTwin, Cut, TwinPath;
    var a, b := TwinFiles(c, 'a', content), TwinFiles(c, 'b', content);
    var key := [dir, '/'];
    TwinDirFiles(c, 'a', content);
    TwinDirFiles(c, 'b', content);
    FilterConcat(a, b, KeyIs(2, key));
    if dir == 'a' {
      FilterAll(a, KeyIs(2, key));
      FilterNone(b, KeyIs(2, key));
    } else {
      FilterNone(a, KeyIs(2, key));
      FilterAll(b, KeyIs(2, key));
    }
  }

  /** The first round of phase 3 that cuts the file names off takes both directories. */
  lemma TwinDirTaken(c: Crypto, content: Bytes, dir: char)
    requires |content| == TWIN_SIZE && dir in {'a', 'b'}
    ensures TwinFiles(c, dir, content) in Taken(TwinFiles(c, 'a', content) + TwinFiles(c, 'b', content), 2)
  {
    hide ScannedFile, IsTwin, FileSizes, StorageSum, PlainHashes, Cut, TwinPath, GroupOf;
    var files := TwinFiles(c, 'a', content) + TwinFiles(c, 'b', content);
    var key, mine := [dir, '/'], TwinFiles(c, dir, content);
    TwinDirGroup(c, content, dir);
    TwinDirFiles(c, dir, content);
    TwinSums(c, content, mine);
    assert PART_SIZE == 1073741824 && MAX_FILE_SIZE_TO_BUNDLE == 12582912;
    assert mine[0] in mine && mine[0] in files;
    assert key in Keys(files, 2);
  }

  lemma TakenIsBundled(files: seq<VirtFile>, g: seq<VirtFile>)
    requires Phase3Files(files) == files && MaxPathLen(files) == 3 && g in Taken(files, 2)
    requires StorageSum(g) <= 2 * PART_SIZE && |g| > 1
    ensures g in BundleGroups(files)
  {
    hide Taken, Phase3Files, Phase1, Phase2, MaxPathLen, StorageSum, Rest;
    assert Left(files, 3, 3) == files;
    assert g in Phase3(files, 3, 2);
    assert g in Phase3(files, 3, 1);
    assert g in Phase3(files, 3, 0);
    assert g in RawGroups(files);
    assert Split(g) == [g] && g in Split(g);
    assert g in SplitGroups(files);
  }

  lemma TwinDirBundled(c: Crypto, content: Bytes, dir: char)
    requires |content| == TWIN_SIZE && dir in {'a', 'b'}
    ensures TwinFiles(c, dir, content) in BundleGroups(TwinFiles(c, 'a', content) + TwinFiles(c, 'b', content))
    ensures TwinFiles(c, dir, content) != []
    ensures PlainHashes(TwinFiles(c, dir, content)) == seq(COPIES, _ => PartOf(c, false, content).plainSha512)
  {
    hide ScannedFile, IsTwin, FileSizes, StorageSum, PlainHashes, Cut, TwinPath, BundleGroups, Taken, MaxPathLen, Phase3Files, PartOf;
    var a, b := TwinFiles(c, 'a', content), TwinFiles(c, 'b', content);
    TwinDirFiles(c, 'a', content);
    TwinDirFiles(c, 'b', content);
    TwinPhases(c, content, a + b);
    PathLens(a + b, 3);
    TwinDirTaken(c, content, dir);
    TwinSums(c, content, TwinFiles(c, dir, content));
    assert PART_SIZE == 1073741824 && MAX_FILE_SIZE_TO_BUNDLE == 12582912;
    TakenIsBundled(a + b, TwinFiles(c, dir, content));
  }

  lemma BothBundled(c: Crypto, content: Bytes, groups: seq<seq<VirtFile>>, files: seq<VirtFile>,
                    raw: seq<seq<VirtFile>>, left: seq<VirtFile>)
    requires |content| == TWIN_SIZE
    requires Found(FreshScan(c, TwinWalk(content)), groups, files, raw, left)
    ensures TwinFiles(c, 'a', content) in groups && TwinFiles(c, 'b', content) in groups
  {
    hide FreshScan, TwinFiles, BundleGroups, PlainHashes, TwinPath, IsTwin, PartOf, TwinWalk;
    var a, b := TwinFiles(c, 'a', content), TwinFiles(c, 'b', content);
    TwinCandidates(c, content);
    SortedUnique(files, a + b);
    TwinDirBundled(c, content, 'a');
    TwinDirBundled(c, content, 'b');
    assert a in SetOf(groups) && b in SetOf(groups);
  }

  lemma TwinDirsDiffer(c: Crypto, content: Bytes)
    ensures TwinFiles(c, 'a', content) != TwinFiles(c, 'b', content)
  {
    assert TwinFiles(c, 'a', content)[0].relPath[0] != TwinFiles(c, 'b', content)[0].relPath[0];
  }

  /** For this folder the property that every linked file is listed in its bundle is false, whatever the
      order of the groups: both directories become bundles with the same id. */
  lemma LinkedNotListed(c: Crypto, content: Bytes, db: Db)
    requires |content| == TWIN_SIZE && Bundled(c, FreshScan(c, TwinWalk(content)), db)
    ensures !LinkedIsListed(db)
  {
    hide *;
    var vFiles := FreshScan(c, TwinWalk(content));
    var groups, files, raw, left := FoundOf(c, vFiles, db);
    FreshKeysMatch(c, TwinWalk(content));
    FoundIsProper(vFiles, groups, files, raw, left);
    var i, j := TwinGroups(c, content, groups, files, raw, left);
    TwinNotListed(c, vFiles, groups, i, j, groups[i][0]);
    NotListed(c, vFiles, groups, groups[i][0].relPath);
  }

  lemma TwinGroups(c: Crypto, content: Bytes, groups: seq<seq<VirtFile>>, files: seq<VirtFile>,
                   raw: seq<seq<VirtFile>>, left: seq<VirtFile>) returns (i: nat, j: nat)
    requires |content| == TWIN_SIZE
    requires Found(FreshScan(c, TwinWalk(content)), groups, files, raw, left)
    ensures i < j < |groups| && PlainHashes(groups[i]) == PlainHashes(groups[j]) && groups[i] != []
  {
    hide *;
    var a, b := TwinFiles(c, 'a', content), TwinFiles(c, 'b', content);
    BothBundled(c, content, groups, files, raw, left);
    TwinDirsDiffer(c, content);
    TwinDirBundled(c, content, 'a');
    TwinDirBundled(c, content, 'b');
    i :| 0 <= i < |groups| && groups[i] == a;
    j :| 0 <= j < |groups| && groups[j] == b;
    if i > j {
      i, j := j, i;
    }
  }

  lemma NotListed(c: Crypto, vFiles: map<string, VirtFile>, groups: seq<seq<VirtFile>>, k: string)
    requires k in vFiles && LinkOf(c, groups, k) != "" && LinkOf(c, groups, k) in BundleTable(c, groups)
    requires k !in BundleTable(c, groups)[LinkOf(c, groups, k)].content
    ensures !LinkedIsListed(Db(Linked(c, vFiles, groups), BundleTable(c, groups)))
  {
    hide LinkOf, BundleTable;
    assert k in Linked(c, vFiles, groups);
  }
}
