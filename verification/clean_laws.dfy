/** What Clean guarantees: nothing the database needs is lost, at no point of the removal; what stays
    is referenced and unique; a second run removes nothing. */
module CleanLaws {
  import opened Seqs
  import opened Types
  import opened Storage
  import opened Cleaning

  // ----- the keys identify -----

  predicate NoBar(s: string) {
    '|' !in s
  }

  /** The text after the last bar determines where the bar is. */
  lemma SplitAtLastBar(a: string, u: string, b: string, v: string)
    requires a + "|" + u == b + "|" + v && NoBar(u) && NoBar(v)
    ensures a == b && u == v
  {
    BarNotAfter(a, u, b, v);
    BarNotAfter(b, v, a, u);
    var s := a + "|" + u;
    assert a == s[..|a|] && b == s[..|b|];
    assert u == s[|a| + 1..] && v == s[|b| + 1..];
  }

  lemma BarNotAfter(a: string, u: string, b: string, v: string)
    requires a + "|" + u == b + "|" + v && NoBar(u)
    ensures |b| <= |a|
  {
    var s := a + "|" + u;
    forall k | |a| < k < |s| ensures s[k] != '|' {
      assert s[k] == u[k - |a| - 1];
    }
    assert s[|b|] == '|';
  }

  lemma {:induction false} DecimalNoBar(n: nat)
    ensures NoBar(Decimal(n)) && Decimal(n) != []
  {
    if n < 10 {
    } else {
      DecimalNoBar(n / 10);
    }
  }

  lemma {:induction false} DecimalInjective(m: nat, n: nat)
    requires Decimal(m) == Decimal(n)
    ensures m == n
  {
    assert Last(Decimal(m)) == '0' + (m % 10) as char && Last(Decimal(n)) == '0' + (n % 10) as char;
    DigitInjective(m % 10, n % 10);
    if m >= 10 { DecimalNoBar(m / 10); }
    if n >= 10 { DecimalNoBar(n / 10); }
    if m < 10 || n < 10 {
    } else {
      assert Init(Decimal(m)) == Decimal(m / 10) && Init(Decimal(n)) == Decimal(n / 10);
      DecimalInjective(m / 10, n / 10);
    }
  }

  lemma DigitInjective(a: nat, b: nat)
    requires a < 10 && b < 10 && '0' + a as char == '0' + b as char
    ensures a == b
  {
    assert ('0' + a as char) as int == '0' as int + a && ('0' + b as char) as int == '0' as int + b;
  }

  ghost predicate SameAttrs(f: StorageFile, g: StorageFile) {
    f.name == g.name && Size(f) == Size(g) && f.md5 == g.md5
  }

  /** The key of the duplicate search identifies name, size and MD5 sum, even for names with bars. */
  lemma AttrKeyIdentifies(f: StorageFile, g: StorageFile)
    requires NoBar(f.md5) && NoBar(g.md5)
    ensures AttrKey(f) == AttrKey(g) <==> SameAttrs(f, g)
  {
    if AttrKey(f) == AttrKey(g) {
      SplitAtLastBar(f.name + "|" + Decimal(Size(f)), f.md5, g.name + "|" + Decimal(Size(g)), g.md5);
      DecimalNoBar(Size(f));
      DecimalNoBar(Size(g));
      SplitAtLastBar(f.name, Decimal(Size(f)), g.name, Decimal(Size(g)));
      DecimalInjective(Size(f), Size(g));
    }
  }

  /** A file is a duplicate exactly if one before it in the list has the same name, size and sum. */
  lemma RepeatsAreLater(files: seq<StorageFile>, j: nat)
    requires Distinct(files) && NoBars(files) && j < |files|
    ensures files[j] in Repeats(files) <==> exists i :: 0 <= i < j && SameAttrs(files[i], files[j])
  {
    hide AttrKey, SameAttrs;
    forall i | 0 <= i < |files| ensures AttrKey(files[i]) == AttrKey(files[j]) <==> SameAttrs(files[i], files[j]) {
      assert files[i] in files && files[j] in files;
      AttrKeyIdentifies(files[i], files[j]);
    }
  }

  // ----- what may be cleaned -----

  /** MD5 sums of parts contain no bar. */
  ghost predicate PartSumsPlain(db: Db) {
    forall p :: p in DbParts(db) ==> NoBar(p.storageMd5)
  }

  /** All parts of the database with the name and MD5 sum of this one have its size. */
  ghost predicate Settled(db: Db, p: VFilePart) {
    forall q :: q in DbParts(db) && q.storageName == p.storageName && q.storageMd5 == p.storageMd5
      ==> q.storageSize == p.storageSize
  }

  /** Parts of the database with equal name and MD5 sum have equal size. */
  ghost predicate PartsAgree(db: Db) {
    PartSumsPlain(db) && forall p :: p in DbParts(db) ==> Settled(db, p)
  }

  predicate NamesBundle(p: VFilePart) {
    |p.storageName| == 130 && p.storageName[0] == 'B' && p.storageName[1] == '_'
  }

  /** Whichever parts allDbParts keeps, one of them has the name and the size of this one. */
  ghost predicate Represented(db: Db, p: VFilePart) {
    exists r :: r in DbParts(db) && r.storageName == p.storageName && r.storageSize == p.storageSize && Settled(db, r)
  }

  /** Sizes agree where Clean compares them: for part names by name and MD5 sum, for bundle names, in
      bundle mode, by name. */
  ghost predicate SizesSettled(db: Db) {
    && (forall p :: p in DbParts(db) && |p.storageName| == 128 ==> Settled(db, p))
    && (|db.bundles| > 0 ==> forall p :: p in DbParts(db) && NamesBundle(p) ==> Represented(db, p))
  }

  lemma AgreeIsSettled(db: Db)
    requires PartsAgree(db)
    ensures PartSumsPlain(db) && SizesSettled(db)
  {
    hide DbParts, Settled;
    forall p | p in DbParts(db) ensures Represented(db, p) {
      assert Settled(db, p);
    }
  }

  /** Parts whose name has the length of a part name have an MD5 sum. */
  ghost predicate PartsHaveMd5(db: Db) {
    forall p :: p in DbParts(db) && |p.storageName| == 128 ==> p.storageMd5 != ""
  }

  ghost predicate NoBars(files: seq<StorageFile>) {
    forall f :: f in files ==> NoBar(f.md5)
  }

  /** Whichever part allDbParts kept of a key, it has the same name and sum. */
  lemma PartListRepresents(db: Db, dbParts: seq<VFilePart>, p: VFilePart) returns (q: VFilePart)
    requires PartSumsPlain(db) && PartList(db, dbParts) && p in DbParts(db)
    ensures q in dbParts && q.storageName == p.storageName && q.storageMd5 == p.storageMd5
    ensures Settled(db, p) ==> q.storageSize == p.storageSize
  {
    hide DbParts, PartKey;
    q :| q in dbParts && PartKey(q) == PartKey(p);
    assert q in DbParts(db);
    PartKeyIdentifies(q, p);
  }

  lemma PartKeyIdentifies(p: VFilePart, q: VFilePart)
    requires NoBar(p.storageMd5) && NoBar(q.storageMd5) && PartKey(p) == PartKey(q)
    ensures p.storageName == q.storageName && p.storageMd5 == q.storageMd5
  {
    SplitAtLastBar(p.storageName, p.storageMd5, q.storageName, q.storageMd5);
  }

  /** A file is removed only because it is unknown, or because an equal one stays. */
  lemma RemovedForReason(dbParts: seq<VFilePart>, bundleMode: bool, files: seq<StorageFile>, f: StorageFile)
    requires Distinct(files) && NoBars(files) && f in Removals(dbParts, bundleMode, files)
    ensures || (IsPartFile(f) && !KnownPart(dbParts, f))
            || (bundleMode && IsBundleFile(f) && !KnownBundle(dbParts, f))
            || exists g :: g in files && g !in Removals(dbParts, bundleMode, files) && SameAttrs(f, g)
  {
    if !(IsPartFile(f) && !KnownPart(dbParts, f)) && !(bundleMode && IsBundleFile(f) && !KnownBundle(dbParts, f)) {
      hide KnownPart, KnownBundle, AttrKey, Repeats, IsPartFile, IsBundleFile;
      var j: nat :| j < |files| && files[j] == f;
      var i := FirstWithKey(files, j);
      var g := files[i];
      assert g in files;
      AttrKeyIdentifies(f, g);
      SameAttrsSameFate(dbParts, f, g);
    }
  }

  lemma SameAttrsSameFate(dbParts: seq<VFilePart>, f: StorageFile, g: StorageFile)
    requires SameAttrs(f, g)
    ensures IsPartFile(f) <==> IsPartFile(g)
    ensures IsBundleFile(f) <==> IsBundleFile(g)
    ensures KnownPart(dbParts, f) <==> KnownPart(dbParts, g)
    ensures KnownBundle(dbParts, f) <==> KnownBundle(dbParts, g)
  {
  }

  /** The first file of a key is not a repeat. */
  lemma {:induction false} FirstWithKey(files: seq<StorageFile>, j: nat) returns (i: nat)
    requires j < |files|
    ensures i <= j && AttrKey(files[i]) == AttrKey(files[j])
    ensures forall k :: 0 <= k < i ==> AttrKey(files[k]) != AttrKey(files[i])
    ensures Distinct(files) ==> files[i] !in Repeats(files)
  {
    hide AttrKey;
    if k: nat :| k < j && AttrKey(files[k]) == AttrKey(files[j]) {
      i := FirstWithKey(files, k);
    } else {
      i := j;
    }
  }

  // ----- safety -----

  /** No part of the database that can be found is lost by removing some or all of the planned files. */
  lemma CleanKeepsParts(db: Db, dbParts: seq<VFilePart>, files: seq<StorageFile>, gone: set<StorageFile>, p: VFilePart)
    requires PartSumsPlain(db) && SizesSettled(db) && PartsHaveMd5(db) && PartList(db, dbParts)
    requires Distinct(files) && NoBars(files)
    requires gone <= Removals(dbParts, |db.bundles| > 0, files)
    requires p in DbParts(db) && Resolves(SetOf(files), p)
    ensures Resolves(SetOf(files) - gone, p)
  {
    hide Removals, PartList, SizesSettled, PartsHaveMd5, PartSumsPlain, KnownPart, KnownBundle, IsBundleFile;
    var bundleMode := |db.bundles| > 0;
    var f :| f in SetOf(files) && MatchesPart(f, p);
    if f in gone {
      MatchIsKnown(db, dbParts, f, p);
      RemovedForReason(dbParts, bundleMode, files, f);
      var g :| g in files && g !in Removals(dbParts, bundleMode, files) && SameAttrs(f, g);
      assert g in SetOf(files) - gone && MatchesPart(g, p);
    } else {
      assert f in SetOf(files) - gone;
    }
  }

  /** A file that a part is found as is not unknown. */
  lemma MatchIsKnown(db: Db, dbParts: seq<VFilePart>, f: StorageFile, p: VFilePart)
    requires PartSumsPlain(db) && SizesSettled(db) && PartsHaveMd5(db) && PartList(db, dbParts)
    requires p in DbParts(db) && MatchesPart(f, p)
    ensures IsPartFile(f) ==> KnownPart(dbParts, f)
    ensures IsBundleFile(f) && |db.bundles| > 0 ==> KnownBundle(dbParts, f)
  {
    hide PartList, DbParts, PartSumsPlain, Settled;
    if IsPartFile(f) {
      var q := PartListRepresents(db, dbParts, p);
    }
    if IsBundleFile(f) && |db.bundles| > 0 {
      assert NamesBundle(p);
      var r :| r in DbParts(db) && r.storageName == p.storageName && r.storageSize == p.storageSize && Settled(db, r);
      var q := PartListRepresents(db, dbParts, r);
    }
  }

  /** Is Clean safe with this database, for every storage and every map iteration order? */
  ghost predicate CleanIsSafe(db: Db) {
    forall dbParts, files, p ::
      PartList(db, dbParts) && Distinct(files) && NoBars(files) && p in DbParts(db) && Resolves(SetOf(files), p)
      ==> Resolves(SetOf(files) - Removals(dbParts, |db.bundles| > 0, files), p)
  }

  /** Exactly when, for all databases whose MD5 sums have no bar. The lookup takes any MD5 sum for an
      empty one, Clean does not, so a part with a 128-byte name and no MD5 sum can be found, and is
      removed. And allDbParts keeps one part of a key, so the others must not need another size. */
  lemma CleanIsSafeIff(db: Db)
    requires PartSumsPlain(db)
    ensures CleanIsSafe(db) <==> PartsHaveMd5(db) && SizesSettled(db)
  {
    hide PartSumsPlain, PartList, Removals, Resolves, Represented, Settled, DbParts;
    if PartsHaveMd5(db) && SizesSettled(db) {
      forall dbParts, files, p |
        PartList(db, dbParts) && Distinct(files) && NoBars(files) && p in DbParts(db) && Resolves(SetOf(files), p)
        ensures Resolves(SetOf(files) - Removals(dbParts, |db.bundles| > 0, files), p)
      {
        CleanKeepsParts(db, dbParts, files, Removals(dbParts, |db.bundles| > 0, files), p);
      }
    } else {
      var p :| p in DbParts(db) && Losable(db, p);
      var dbParts, files := LostPart(db, p);
      assert Distinct(files) && NoBars(files);
    }
  }

  /** A part name without MD5 sum or of unsettled size, or in bundle mode an unrepresented bundle. */
  ghost predicate Losable(db: Db, p: VFilePart) {
    || (|p.storageName| == 128 && (p.storageMd5 == "" || !Settled(db, p)))
    || (|db.bundles| > 0 && NamesBundle(p) && !Represented(db, p))
  }

  /** A storage, and a choice of allDbParts, with which a losable part is found before Clean, and lost. */
  lemma LostPart(db: Db, p: VFilePart) returns (dbParts: seq<VFilePart>, files: seq<StorageFile>)
    requires PartSumsPlain(db) && p in DbParts(db) && Losable(db, p)
    ensures PartList(db, dbParts) && Distinct(files) && NoBars(files)
    ensures Resolves(SetOf(files), p)
    ensures !Resolves(SetOf(files) - Removals(dbParts, |db.bundles| > 0, files), p)
  {
    hide DbParts, Repeats, KnownPart, KnownBundle, OnePerKey, Losable, Represented, Settled;
    dbParts := Choose(DbParts(db), HasNameAndSize(p));
    var md5 := if p.storageMd5 == "" then seq(LongestMd5(dbParts) + 1, _ => '0') else p.storageMd5;
    var f := StorageFile("id", p.storageName, seq(p.storageSize, _ => 0), md5);
    files := [f];
    assert MatchesPart(f, p) && f in SetOf(files);
    ChosenUnknown(db, p, dbParts, f);
    OnlyFileRemoved(dbParts, |db.bundles| > 0, f);
  }

  function HasNameAndSize(p: VFilePart): VFilePart -> bool {
    (q: VFilePart) => q.storageName == p.storageName && q.storageSize == p.storageSize
  }

  lemma OnlyFileRemoved(dbParts: seq<VFilePart>, bundleMode: bool, f: StorageFile)
    requires (IsPartFile(f) && !KnownPart(dbParts, f)) || (bundleMode && IsBundleFile(f) && !KnownBundle(dbParts, f))
    ensures SetOf([f]) - Removals(dbParts, bundleMode, [f]) == {}
  {
    hide KnownPart, KnownBundle, Repeats;
    assert f in Removals(dbParts, bundleMode, [f]);
  }

  /** The choice avoids some parts: one of them is kept only where its key has no others. */
  ghost predicate Avoids(parts: seq<VFilePart>, all: set<VFilePart>, bad: VFilePart -> bool) {
    forall p, q :: p in parts && bad(p) && q in all && PartKey(q) == PartKey(p) ==> bad(q)
  }

  lemma {:induction false} Choose(all: set<VFilePart>, bad: VFilePart -> bool) returns (parts: seq<VFilePart>)
    ensures OnePerKey(parts, all) && Avoids(parts, all, bad)
  {
    if all == {} {
      parts := [];
    } else {
      var p :| p in all;
      if q :| q in all && PartKey(q) == PartKey(p) && !bad(q) {
        p := q;
      }
      var rest := OtherKeys(all, p);
      assert p !in rest && p in all;
      parts := Choose(rest, bad);
      ChooseStep(all, bad, p, parts);
      parts := parts + [p];
    }
  }

  ghost function OtherKeys(all: set<VFilePart>, p: VFilePart): set<VFilePart> {
    set q | q in all && PartKey(q) != PartKey(p)
  }

  lemma ChooseStep(all: set<VFilePart>, bad: VFilePart -> bool, p: VFilePart, parts: seq<VFilePart>)
    requires p in all && OnePerKey(parts, OtherKeys(all, p)) && Avoids(parts, OtherKeys(all, p), bad)
    requires bad(p) ==> forall q :: q in all && PartKey(q) == PartKey(p) ==> bad(q)
    ensures OnePerKey(parts + [p], all) && Avoids(parts + [p], all, bad)
  {
    hide PartKey, HasKey;
    var more := parts + [p];
    forall x | x in more ensures x in all && (x == p || (x in parts && x in OtherKeys(all, p))) {
    }
    forall i, j | 0 <= i < j < |more| ensures PartKey(more[i]) != PartKey(more[j]) {
      assert more[i] in parts;
      if j < |parts| {
        assert more[i] == parts[i] && more[j] == parts[j];
      }
    }
    forall q | q in all ensures HasKey(more, PartKey(q)) {
      assert PartKey(q) != PartKey(p) ==> q in OtherKeys(all, p);
      KeyCovered(p, parts, q);
    }
    forall x, q | x in more && bad(x) && q in all && PartKey(q) == PartKey(x) ensures bad(q) {
      assert x != p ==> q in OtherKeys(all, p);
    }
  }

  lemma KeyCovered(p: VFilePart, parts: seq<VFilePart>, q: VFilePart)
    requires PartKey(q) != PartKey(p) ==> HasKey(parts, PartKey(q))
    ensures HasKey(parts + [p], PartKey(q))
  {
    hide PartKey;
    assert p in parts + [p];
    if PartKey(q) != PartKey(p) {
      var x :| x in parts && PartKey(x) == PartKey(q);
      assert x in parts + [p];
    }
  }

  lemma ChosenUnknown(db: Db, p: VFilePart, dbParts: seq<VFilePart>, f: StorageFile)
    requires PartSumsPlain(db) && p in DbParts(db) && Losable(db, p)
    requires OnePerKey(dbParts, DbParts(db)) && Avoids(dbParts, DbParts(db), HasNameAndSize(p))
    requires MatchesPart(f, p)
    requires if p.storageMd5 == "" then |f.md5| > LongestMd5(dbParts) else f.md5 == p.storageMd5
    ensures || (IsPartFile(f) && !KnownPart(dbParts, f))
            || (|db.bundles| > 0 && IsBundleFile(f) && !KnownBundle(dbParts, f))
  {
    hide DbParts;
    if |p.storageName| == 128 && p.storageMd5 == "" {
      NewMd5Unknown(dbParts, f);
    } else {
      forall x | x in dbParts && HasNameAndSize(p)(x) ensures Settled(db, x) {
        AvoidedIsSettled(db, dbParts, p, x);
      }
    }
  }

  /** A part that had to be kept although it was to be avoided has no other size to offer. */
  lemma AvoidedIsSettled(db: Db, dbParts: seq<VFilePart>, p: VFilePart, x: VFilePart)
    requires Avoids(dbParts, DbParts(db), HasNameAndSize(p)) && x in dbParts && HasNameAndSize(p)(x)
    ensures Settled(db, x)
  {
    hide DbParts;
    forall q | q in DbParts(db) && q.storageName == x.storageName && q.storageMd5 == x.storageMd5
      ensures q.storageSize == x.storageSize
    {
      assert PartKey(q) == PartKey(x);
    }
  }

  lemma NewMd5Unknown(dbParts: seq<VFilePart>, f: StorageFile)
    requires |f.md5| > LongestMd5(dbParts)
    ensures !KnownPart(dbParts, f)
  {
    LongestMd5Bounds(dbParts);
  }

  function LongestMd5(parts: seq<VFilePart>): nat {
    if parts == [] then 0
    else
      var n := LongestMd5(Init(parts));
      if |Last(parts).storageMd5| > n then |Last(parts).storageMd5| else n
  }

  lemma {:induction false} LongestMd5Bounds(parts: seq<VFilePart>)
    ensures forall p :: p in parts ==> |p.storageMd5| <= LongestMd5(parts)
  {
    if parts == [] {
    } else {
      LongestMd5Bounds(Init(parts));
      assert parts == Init(parts) + [Last(parts)];
    }
  }

  // ----- exactness and idempotence -----

  /** Part files, by the length of their names, match a part of the database; in bundle mode bundle files match
      one by name and size; and no two files are equal. */
  ghost predicate NothingUnneeded(db: Db, online: set<StorageFile>) {
    && (forall f :: f in online && |f.name| == 128 ==>
          exists p :: p in DbParts(db) && f.name == p.storageName && Size(f) == p.storageSize && f.md5 == p.storageMd5)
    && (|db.bundles| > 0 ==> forall f :: f in online && |f.name| == 130 && f.name[..2] == "B_" ==>
          exists p :: p in DbParts(db) && f.name == p.storageName && Size(f) == p.storageSize)
    && (forall f, g :: f in online && g in online && SameAttrs(f, g) ==> f == g)
  }

  /** A part file that no kept part knows, or in bundle mode such a bundle file. All other files, also all
      bundle files outside bundle mode, are not unneeded. */
  predicate IsUnneeded(dbParts: seq<VFilePart>, bundleMode: bool, f: StorageFile) {
    || (|f.name| == 128 && !KnownPart(dbParts, f))
    || (bundleMode && |f.name| == 130 && f.name[..2] == "B_" && !KnownBundle(dbParts, f))
  }

  /** After a complete run nothing unneeded stays; of every file that is not unneeded and was removed, an
      equal one stays. */
  lemma CleanIsExact(db: Db, dbParts: seq<VFilePart>, files: seq<StorageFile>)
    requires PartList(db, dbParts) && Distinct(files) && NoBars(files)
    ensures var plan := Removals(dbParts, |db.bundles| > 0, files);
            var stays := SetOf(files) - plan;
            && NothingUnneeded(db, stays)
            && (forall f :: f in plan && !IsUnneeded(dbParts, |db.bundles| > 0, f) ==> exists g :: g in stays && SameAttrs(f, g))
  {
    var plan := Removals(dbParts, |db.bundles| > 0, files);
    var stays := SetOf(files) - plan;
    forall f | f in stays && IsPartFile(f)
      ensures exists p :: p in DbParts(db) && f.name == p.storageName && Size(f) == p.storageSize && f.md5 == p.storageMd5
    {
      StaysKnown(db, dbParts, files, f);
    }
    if |db.bundles| > 0 {
      forall f | f in stays && IsBundleFile(f)
        ensures exists p :: p in DbParts(db) && f.name == p.storageName && Size(f) == p.storageSize
      {
        StaysKnown(db, dbParts, files, f);
      }
    }
    forall f, g | f in stays && g in stays && SameAttrs(f, g) ensures f == g {
      StaysUnique(dbParts, |db.bundles| > 0, files, f, g);
    }
    hide Removals, KnownPart, KnownBundle;
    forall f | f in plan && !IsUnneeded(dbParts, |db.bundles| > 0, f) ensures exists g :: g in stays && SameAttrs(f, g) {
      RemovedForReason(dbParts, |db.bundles| > 0, files, f);
      var g :| g in files && g !in plan && SameAttrs(f, g);
      assert g in stays;
    }
  }

  lemma StaysKnown(db: Db, dbParts: seq<VFilePart>, files: seq<StorageFile>, f: StorageFile)
    requires PartList(db, dbParts) && f in files && f !in Removals(dbParts, |db.bundles| > 0, files)
    ensures IsPartFile(f) ==>
              exists p :: p in DbParts(db) && f.name == p.storageName && Size(f) == p.storageSize && f.md5 == p.storageMd5
    ensures IsBundleFile(f) && |db.bundles| > 0 ==>
              exists p :: p in DbParts(db) && f.name == p.storageName && Size(f) == p.storageSize
  {
    hide Repeats, PartKey, DbParts;
    if IsPartFile(f) {
      assert KnownPart(dbParts, f);
    } else if IsBundleFile(f) && |db.bundles| > 0 {
      assert KnownBundle(dbParts, f);
    }
  }

  lemma StaysUnique(dbParts: seq<VFilePart>, bundleMode: bool, files: seq<StorageFile>, f: StorageFile, g: StorageFile)
    requires NoBars(files) && f in files && g in files && SameAttrs(f, g)
    requires f !in Removals(dbParts, bundleMode, files) && g !in Removals(dbParts, bundleMode, files)
    ensures f == g
  {
    hide KnownPart, KnownBundle, AttrKey;
    AttrKeyIdentifies(f, g);
    var i :| 0 <= i < |files| && files[i] == f;
    var j :| 0 <= j < |files| && files[j] == g;
    assert i < j ==> g in Repeats(files);
    assert j < i ==> f in Repeats(files);
  }

  /** A second complete run finds nothing to remove, whatever the orders of lists and maps. */
  lemma CleanTwice(db: Db, dbParts: seq<VFilePart>, files: seq<StorageFile>, dbParts2: seq<VFilePart>, files2: seq<StorageFile>)
    requires PartsAgree(db) && PartList(db, dbParts) && PartList(db, dbParts2)
    requires Distinct(files) && NoBars(files) && Distinct(files2)
    requires forall f :: f in files2 <==> f in SetOf(files) - Removals(dbParts, |db.bundles| > 0, files)
    ensures Removals(dbParts2, |db.bundles| > 0, files2) == {}
  {
    hide Removals, PartsAgree, PartList, KnownPart, KnownBundle, AttrKey;
    var bundleMode := |db.bundles| > 0;
    assert NoBars(files2);
    forall f ensures f !in Removals(dbParts2, bundleMode, files2) {
      if f in Removals(dbParts2, bundleMode, files2) {
        RemovalsOnline(dbParts2, bundleMode, files2, f);
        RemovedForReason(dbParts2, bundleMode, files2, f);
        StillKnown(db, dbParts, dbParts2, files, f);
        var g :| g in files2 && g !in Removals(dbParts2, bundleMode, files2) && SameAttrs(f, g);
        StaysUnique(dbParts, bundleMode, files, f, g);
      }
    }
  }

  lemma StillKnown(db: Db, dbParts: seq<VFilePart>, dbParts2: seq<VFilePart>, files: seq<StorageFile>, f: StorageFile)
    requires PartsAgree(db) && PartList(db, dbParts) && PartList(db, dbParts2)
    requires f in files && f !in Removals(dbParts, |db.bundles| > 0, files)
    ensures IsPartFile(f) ==> KnownPart(dbParts2, f)
    ensures |db.bundles| > 0 && IsBundleFile(f) ==> KnownBundle(dbParts2, f)
  {
    hide PartSumsPlain, Settled, PartList, AttrKey, DbParts, Repeats;
    StaysKnown(db, dbParts, files, f);
    if IsPartFile(f) {
      var p :| p in DbParts(db) && f.name == p.storageName && Size(f) == p.storageSize && f.md5 == p.storageMd5;
      var q := PartListRepresents(db, dbParts2, p);
    } else if IsBundleFile(f) && |db.bundles| > 0 {
      var p :| p in DbParts(db) && f.name == p.storageName && Size(f) == p.storageSize;
      var q := PartListRepresents(db, dbParts2, p);
    }
  }
}
