/** Byte-wise path order and path prefixes. */
module Paths {
  import opened Seqs
  import opened Types

  /** Go's string order. */
  predicate Less(a: string, b: string) {
    b != [] && (a == [] || a[0] < b[0] || (a[0] == b[0] && Less(a[1..], b[1..])))
  }

  lemma {:induction false} LessTransitive(a: string, b: string, c: string)
    requires Less(a, b) && Less(b, c)
    ensures Less(a, c)
  {
    if a == [] || a[0] != b[0] || b[0] != c[0] {
    } else {
      LessTransitive(a[1..], b[1..], c[1..]);
    }
  }

  lemma {:induction false} LessTotal(a: string, b: string)
    ensures Less(a, b) || a == b || Less(b, a)
    ensures !(Less(a, b) && Less(b, a))
    ensures a == b ==> !Less(a, b)
  {
    if a == [] || b == [] || a[0] != b[0] {
    } else {
      LessTotal(a[1..], b[1..]);
      assert a == [a[0]] + a[1..] && b == [b[0]] + b[1..];
    }
  }

  /** The first i bytes are equal, and then the first path ends or has the smaller byte. */
  ghost predicate FirstDifference(a: string, b: string, i: nat) {
    && i <= |a| && i < |b| && a[..i] == b[..i]
    && (i == |a| || a[i] < b[i])
  }

  lemma FirstBytes(a: string, b: string, i: nat)
    requires FirstDifference(a, b, i)
    ensures i > 0 ==> a != [] && b != [] && a[0] == b[0]
  {
    if i > 0 {
      assert a[..i][0] == b[..i][0];
    }
  }

  /** That is the byte-wise lexicographic order. */
  lemma {:induction false} LessMeans(a: string, b: string)
    ensures Less(a, b) <==> exists i: nat :: FirstDifference(a, b, i)
  {
    if a == [] || b == [] || a[0] != b[0] {
      assert Less(a, b) ==> FirstDifference(a, b, 0);
      if i: nat :| FirstDifference(a, b, i) {
        FirstBytes(a, b, i);
      }
    } else {
      LessMeans(a[1..], b[1..]);
      if i: nat :| FirstDifference(a[1..], b[1..], i) {
        assert a[..i + 1] == [a[0]] + a[1..][..i] && b[..i + 1] == [b[0]] + b[1..][..i];
        assert FirstDifference(a, b, i + 1);
      }
      if j: nat :| FirstDifference(a, b, j) {
        assert a[1..][..j - 1] == a[..j][1..] && b[1..][..j - 1] == b[..j][1..];
        assert FirstDifference(a[1..], b[1..], j - 1);
      }
    }
  }

  /** Strictly ascending by path. */
  ghost predicate Sorted(files: seq<VirtFile>) {
    forall i, j :: 0 <= i < j < |files| ==> Less(files[i].relPath, files[j].relPath)
  }

  lemma SortedDistinct(files: seq<VirtFile>)
    requires Sorted(files)
    ensures Distinct(files)
    ensures forall i, j :: 0 <= i < j < |files| ==> files[i].relPath != files[j].relPath
  {
    forall i, j | 0 <= i < j < |files| ensures files[i].relPath != files[j].relPath {
      LessTotal(files[i].relPath, files[j].relPath);
    }
  }

  lemma {:induction false} SortedFilter(files: seq<VirtFile>, p: VirtFile -> bool)
    requires Sorted(files)
    ensures Sorted(Filter(files, p))
  {
    if files == [] {
    } else {
      SortedFilter(Init(files), p);
      var f := Filter(Init(files), p);
      forall i | 0 <= i < |f| ensures Less(f[i].relPath, Last(files).relPath) {
        FilterMember(Init(files), p, f[i]);
      }
    }
  }

  /** A sorted sequence is determined by what it contains. */
  lemma {:induction false} SortedUnique(a: seq<VirtFile>, b: seq<VirtFile>)
    requires Sorted(a) && Sorted(b)
    requires forall f :: f in a <==> f in b
    ensures a == b
  {
    if a != [] {
      assert a[0] in b;
    }
    if b == [] {
    } else {
      assert b[0] in a;
      var i :| 0 <= i < |a| && a[i] == b[0];
      var j :| 0 <= j < |b| && b[j] == a[0];
      LessTotal(a[0].relPath, b[0].relPath);
      assert i == 0 && j == 0;
      SortedDistinct(a);
      SortedDistinct(b);
      forall f ensures f in a[1..] <==> f in b[1..] {
        assert f in a[1..] <==> f in a && f != a[0];
        assert f in b[1..] <==> f in b && f != b[0];
      }
      SortedUnique(a[1..], b[1..]);
    }
  }

  /** sort.Slice by path: inserts one file after the other. */
  function SortByPath(files: seq<VirtFile>): (r: seq<VirtFile>)
    ensures multiset(r) == multiset(files)
  {
    if files == [] then []
    else
      assert files == Init(files) + [Last(files)];
      Insert(SortByPath(Init(files)), Last(files))
  }

  function Insert(files: seq<VirtFile>, f: VirtFile): (r: seq<VirtFile>)
    ensures multiset(r) == multiset(files) + multiset{f}
  {
    if files == [] then [f]
    else
      assert files == Init(files) + [Last(files)];
      if Less(Last(files).relPath, f.relPath) then files + [f]
      else Insert(Init(files), f) + [Last(files)]
  }

  lemma {:induction false} InsertSorted(files: seq<VirtFile>, f: VirtFile)
    requires Sorted(files)
    requires forall g :: g in files ==> g.relPath != f.relPath
    ensures Sorted(Insert(files, f))
  {
    if files == [] {
    } else {
      var z := Last(files);
      LessTotal(z.relPath, f.relPath);
      if Less(z.relPath, f.relPath) {
        forall i | 0 <= i < |files| ensures Less(files[i].relPath, f.relPath) {
          if i < |files| - 1 { LessTransitive(files[i].relPath, z.relPath, f.relPath); }
        }
      } else {
        assert z in files;
        InsertSorted(Init(files), f);
        InsertBelow(Init(files), f, z.relPath);
      }
    }
  }

  lemma InsertBelow(files: seq<VirtFile>, f: VirtFile, path: string)
    requires Less(f.relPath, path)
    requires forall i :: 0 <= i < |files| ==> Less(files[i].relPath, path)
    ensures forall i :: 0 <= i < |Insert(files, f)| ==> Less(Insert(files, f)[i].relPath, path)
  {
    hide Less;
    var r := Insert(files, f);
    forall i | 0 <= i < |r| ensures Less(r[i].relPath, path) {
      assert r[i] in multiset(r);
      assert r[i] == f || r[i] in files;
    }
  }

  lemma {:induction false} SortByPathSorts(files: seq<VirtFile>)
    requires forall i, j :: 0 <= i < j < |files| ==> files[i].relPath != files[j].relPath
    ensures Sorted(SortByPath(files))
  {
    if files == [] {
    } else {
      SortByPathSorts(Init(files));
      var r := SortByPath(Init(files));
      forall g | g in r ensures g.relPath != Last(files).relPath {
        assert g in multiset(Init(files));
      }
      InsertSorted(r, Last(files));
    }
  }

  /** A path, shortened to at most cutAt bytes. */
  function Cut(path: string, cutAt: nat): (r: string) {
    if |path| > cutAt then path[..cutAt] else path
  }

  lemma CutAgain(path: string, c: nat, d: nat)
    requires c <= d
    ensures Cut(Cut(path, d), c) == Cut(path, c)
  {
    if |path| > d {
      assert path[..d][..c] == path[..c];
    }
  }
}
