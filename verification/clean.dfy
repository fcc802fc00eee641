/** core/clean.go: removing what the database does not reference, and duplicates. */
module Cleaning {
  import opened Primitives
  import opened Seqs
  import opened Types
  import opened Storage

  // ----- parts of the database -----

  ghost function DbParts(db: Db): set<VFilePart> {
    (set k, p | k in db.vFiles && p in db.vFiles[k].parts :: p) + (set id | id in db.bundles :: db.bundles[id].part)
  }

  function PartKey(p: VFilePart): string {
    p.storageName + "|" + p.storageMd5
  }

  ghost predicate HasKey(parts: seq<VFilePart>, key: string) {
    exists q :: q in parts && PartKey(q) == key
  }

  /** Exactly one of some parts for each of their keys. */
  ghost predicate OnePerKey(parts: seq<VFilePart>, all: set<VFilePart>) {
    && (forall p :: p in parts ==> p in all)
    && (forall p :: p in all ==> HasKey(parts, PartKey(p)))
    && (forall i, j :: 0 <= i < j < |parts| ==> PartKey(parts[i]) != PartKey(parts[j]))
  }

  /** What allDbParts may return: which part of a key it keeps depends on map orders. */
  ghost predicate PartList(db: Db, parts: seq<VFilePart>) {
    OnePerKey(parts, DbParts(db))
  }

  /** The map holds one part for each key of the parts seen. */
  ghost predicate Keyed(allParts: map<string, VFilePart>, seen: set<VFilePart>) {
    && (forall key :: key in allParts ==> allParts[key] in seen && PartKey(allParts[key]) == key)
    && (forall p :: p in seen ==> PartKey(p) in allParts)
  }

  lemma KeyedAdd(allParts: map<string, VFilePart>, seen: set<VFilePart>, p: VFilePart)
    requires Keyed(allParts, seen)
    ensures Keyed(allParts[PartKey(p) := p], seen + {p})
  {
  }

  ghost function PartsOfFiles(vFiles: map<string, VirtFile>, keys: set<string>): set<VFilePart> {
    set k, p | k in keys && k in vFiles && p in vFiles[k].parts :: p
  }

  ghost function PartsOfBundles(bundles: map<string, Bundle>, keys: set<string>): set<VFilePart> {
    set k | k in keys && k in bundles :: bundles[k].part
  }

  method AllDbParts(db: Db) returns (list: seq<VFilePart>)
    ensures PartList(db, list)
  {
    hide Keyed, PartKey;
    var allParts := PartsOfAllFiles(db.vFiles);
    ghost var seen := PartsOfFiles(db.vFiles, db.vFiles.Keys);
    allParts := AddBundleParts(allParts, db.bundles, seen);
    assert seen + PartsOfBundles(db.bundles, db.bundles.Keys) == DbParts(db);
    list := ListValues(allParts, DbParts(db));
  }

  method PartsOfAllFiles(vFiles: map<string, VirtFile>) returns (allParts: map<string, VFilePart>)
    ensures Keyed(allParts, PartsOfFiles(vFiles, vFiles.Keys))
  {
    allParts := map[];
    var todo := vFiles.Keys;
    ghost var done := {};
    assert PartsOfFiles(vFiles, {}) == {};
    hide Keyed;
    while todo != {}
      invariant done !! todo && done + todo == vFiles.Keys
      invariant Keyed(allParts, PartsOfFiles(vFiles, done))
      decreases todo
    {
      var k :| k in todo;
      allParts := AddFileParts(allParts, vFiles[k].parts, PartsOfFiles(vFiles, done));
      assert PartsOfFiles(vFiles, done) + SetOf(vFiles[k].parts) == PartsOfFiles(vFiles, done + {k});
      todo, done := todo - {k}, done + {k};
    }
  }

  method AddBundleParts(before: map<string, VFilePart>, bundles: map<string, Bundle>, ghost seen: set<VFilePart>)
    returns (allParts: map<string, VFilePart>)
    requires Keyed(before, seen)
    ensures Keyed(allParts, seen + PartsOfBundles(bundles, bundles.Keys))
  {
    hide Keyed, PartKey;
    allParts := before;
    var todo := bundles.Keys;
    ghost var done := {};
    assert seen + PartsOfBundles(bundles, {}) == seen;
    while todo != {}
      invariant done !! todo && done + todo == bundles.Keys
      invariant Keyed(allParts, seen + PartsOfBundles(bundles, done))
      decreases todo
    {
      var k :| k in todo;
      var part := bundles[k].part;
      KeyedAdd(allParts, seen + PartsOfBundles(bundles, done), part);
      allParts := allParts[PartKey(part) := part];
      assert seen + PartsOfBundles(bundles, done) + {part} == seen + PartsOfBundles(bundles, done + {k});
      todo, done := todo - {k}, done + {k};
    }
  }

  method AddFileParts(before: map<string, VFilePart>, parts: seq<VFilePart>, ghost seen: set<VFilePart>)
    returns (allParts: map<string, VFilePart>)
    requires Keyed(before, seen)
    ensures Keyed(allParts, seen + SetOf(parts))
  {
    hide PartKey, Keyed;
    allParts := before;
    assert seen + SetOf(parts[..0]) == seen;
    for i := 0 to |parts|
      invariant Keyed(allParts, seen + SetOf(parts[..i]))
    {
      KeyedAdd(allParts, seen + SetOf(parts[..i]), parts[i]);
      assert parts[..i + 1] == parts[..i] + [parts[i]];
      assert seen + SetOf(parts[..i]) + {parts[i]} == seen + SetOf(parts[..i + 1]);
      allParts := allParts[PartKey(parts[i]) := parts[i]];
    }
    assert parts[..|parts|] == parts;
  }

  /** The values of the map, in an arbitrary order. */
  method ListValues(allParts: map<string, VFilePart>, ghost seen: set<VFilePart>) returns (list: seq<VFilePart>)
    requires Keyed(allParts, seen)
    ensures OnePerKey(list, seen)
  {
    hide PartKey;
    list := [];
    var todo := allParts.Keys;
    while todo != {}
      invariant todo <= allParts.Keys
      invariant forall p :: p in list ==> p in seen
      invariant forall key :: key in allParts.Keys - todo ==> allParts[key] in list
      invariant forall p :: p in list ==> PartKey(p) in allParts.Keys - todo
      invariant forall i, j :: 0 <= i < j < |list| ==> PartKey(list[i]) != PartKey(list[j])
      decreases todo
    {
      var key :| key in todo;
      assert forall i :: 0 <= i < |list| ==> list[i] in list;
      list := list + [allParts[key]];
      todo := todo - {key};
    }
    forall p | p in seen ensures HasKey(list, PartKey(p)) {
      assert allParts[PartKey(p)] in list;
    }
  }

  // ----- kinds of online files -----

  predicate IsPartFile(f: StorageFile) {
    |f.name| == 128
  }

  predicate IsBundleFile(f: StorageFile) {
    |f.name| == 130 && f.name[0] == 'B' && f.name[1] == '_'
  }

  predicate IsRestFile(f: StorageFile) {
    !IsPartFile(f) && !IsBundleFile(f)
  }

  method AllOnlineParts(list: seq<StorageFile>)
    returns (parts: seq<StorageFile>, bundles: seq<StorageFile>, rest: seq<StorageFile>)
    ensures parts == Filter(list, IsPartFile)
    ensures bundles == Filter(list, IsBundleFile)
    ensures rest == Filter(list, IsRestFile)
  {
    parts, bundles, rest := [], [], [];
    for i := 0 to |list|
      invariant parts == Filter(list[..i], IsPartFile)
      invariant bundles == Filter(list[..i], IsBundleFile)
      invariant rest == Filter(list[..i], IsRestFile)
    {
      var file := list[i];
      FilterStep(list, i, IsPartFile);
      FilterStep(list, i, IsBundleFile);
      FilterStep(list, i, IsRestFile);
      if |file.name| == 128 {
        parts := parts + [file];
      } else if |file.name| == 130 && file.name[0] == 'B' && file.name[1] == '_' {
        bundles := bundles + [file];
      } else {
        rest := rest + [file];
      }
    }
    assert list[..|list|] == list;
  }

  // ----- unknown files -----

  predicate KnownPart(dbParts: seq<VFilePart>, f: StorageFile) {
    exists p :: p in dbParts && f.name == p.storageName && Size(f) == p.storageSize && f.md5 == p.storageMd5
  }

  predicate KnownBundle(dbParts: seq<VFilePart>, f: StorageFile) {
    exists p :: p in dbParts && f.name == p.storageName && Size(f) == p.storageSize
  }

  function UnknownPart(dbParts: seq<VFilePart>): StorageFile -> bool {
    (f: StorageFile) => !KnownPart(dbParts, f)
  }

  function UnknownBundle(dbParts: seq<VFilePart>): StorageFile -> bool {
    (f: StorageFile) => !KnownBundle(dbParts, f)
  }

  predicate IsUnknownRest(f: StorageFile) {
    f.name != INDEX_NAME
  }

  /** The online files that the database does not have, by kind. */
  method Unknown(db: Db, list: seq<StorageFile>)
    returns (unknownParts: seq<StorageFile>, unknownBundles: seq<StorageFile>, unknownRest: seq<StorageFile>,
             ghost dbParts: seq<VFilePart>)
    ensures PartList(db, dbParts)
    ensures unknownParts == Filter(Filter(list, IsPartFile), UnknownPart(dbParts))
    ensures unknownBundles == Filter(Filter(list, IsBundleFile), UnknownBundle(dbParts))
    ensures unknownRest == Filter(Filter(list, IsRestFile), IsUnknownRest)
  {
    var known := AllDbParts(db);
    dbParts := known;
    var onlineParts, onlineBundles, onlineRest := AllOnlineParts(list);
    unknownParts := UnknownParts(known, onlineParts);
    unknownBundles := UnknownBundles(known, onlineBundles);

    unknownRest := [];
    for i := 0 to |onlineRest|
      invariant unknownRest == Filter(onlineRest[..i], IsUnknownRest)
    {
      FilterStep(onlineRest, i, IsUnknownRest);
      if onlineRest[i].name != INDEX_NAME {
        unknownRest := unknownRest + [onlineRest[i]];
      }
    }
    assert onlineRest[..|onlineRest|] == onlineRest;
  }

  method UnknownParts(dbParts: seq<VFilePart>, onlineParts: seq<StorageFile>) returns (unknown: seq<StorageFile>)
    ensures unknown == Filter(onlineParts, UnknownPart(dbParts))
  {
    unknown := [];
    for i := 0 to |onlineParts|
      invariant unknown == Filter(onlineParts[..i], UnknownPart(dbParts))
    {
      var op := onlineParts[i];
      FilterStep(onlineParts, i, UnknownPart(dbParts));
      var add := true;
      for j := 0 to |dbParts|
        invariant add <==> !KnownPart(dbParts[..j], op)
      {
        var dp := dbParts[j];
        assert dbParts[..j + 1] == dbParts[..j] + [dp];
        if op.name == dp.storageName {
          if Size(op) == dp.storageSize && op.md5 == dp.storageMd5 {
            add := false;
          }
        }
      }
      assert dbParts[..|dbParts|] == dbParts;
      if add {
        unknown := unknown + [op];
      }
    }
    assert onlineParts[..|onlineParts|] == onlineParts;
  }

  method UnknownBundles(dbParts: seq<VFilePart>, onlineBundles: seq<StorageFile>) returns (unknown: seq<StorageFile>)
    ensures unknown == Filter(onlineBundles, UnknownBundle(dbParts))
  {
    unknown := [];
    for i := 0 to |onlineBundles|
      invariant unknown == Filter(onlineBundles[..i], UnknownBundle(dbParts))
    {
      var ob := onlineBundles[i];
      FilterStep(onlineBundles, i, UnknownBundle(dbParts));
      var add := true;
      for j := 0 to |dbParts|
        invariant add <==> !KnownBundle(dbParts[..j], ob)
      {
        var dp := dbParts[j];
        assert dbParts[..j + 1] == dbParts[..j] + [dp];
        if ob.name == dp.storageName {
          if Size(ob) == dp.storageSize {
            add := false;
          }
        }
      }
      assert dbParts[..|dbParts|] == dbParts;
      if add {
        unknown := unknown + [ob];
      }
    }
    assert onlineBundles[..|onlineBundles|] == onlineBundles;
  }

  // ----- duplicates -----

  /** A number in decimal. */
  function Decimal(n: nat): string {
    var digit := ['0' + (n % 10) as char];
    if n < 10 then digit else Decimal(n / 10) + digit
  }

  /** Sprintf("%s|%d|%s", name, size, md5) */
  function AttrKey(f: StorageFile): string {
    f.name + "|" + Decimal(Size(f)) + "|" + f.md5
  }

  function KeyIs(key: string): StorageFile -> bool {
    (f: StorageFile) => AttrKey(f) == key
  }

  /** The files of a list that have an earlier file with the same key. */
  ghost function Repeats(list: seq<StorageFile>): set<StorageFile> {
    set i, j | 0 <= i < j < |list| && AttrKey(list[i]) == AttrKey(list[j]) :: list[j]
  }

  /** Each key of the list, with its files in list order. */
  ghost predicate GroupedByKey(dup: map<string, seq<StorageFile>>, list: seq<StorageFile>) {
    && (forall key :: key in dup ==> dup[key] == Filter(list, KeyIs(key)) && dup[key] != [])
    && (forall f :: f in list ==> AttrKey(f) in dup)
  }

  lemma GroupedStep(dup: map<string, seq<StorageFile>>, list: seq<StorageFile>, i: nat)
    requires i < |list| && GroupedByKey(dup, list[..i])
    ensures var key := AttrKey(list[i]);
            GroupedByKey(dup[key := (if key in dup then dup[key] else []) + [list[i]]], list[..i + 1])
  {
    hide AttrKey;
    var f := list[i];
    var key := AttrKey(f);
    assert list[..i + 1] == list[..i] + [f];
    var next := dup[key := (if key in dup then dup[key] else []) + [f]];
    forall k | k in next ensures next[k] == Filter(list[..i + 1], KeyIs(k)) && next[k] != [] {
      FilterStep(list, i, KeyIs(k));
      assert KeyIs(k)(f) <==> k == key;
      if k == key && k !in dup {
        FilterNone(list[..i], KeyIs(k));
      }
      assert Filter(list[..i], KeyIs(k)) + [] == Filter(list[..i], KeyIs(k));
    }
  }

  method GroupByKey(list: seq<StorageFile>) returns (dup: map<string, seq<StorageFile>>)
    ensures GroupedByKey(dup, list)
  {
    hide *;
    dup := map[];
    GroupedNothing(list);
    for i := 0 to |list|
      invariant GroupedByKey(dup, list[..i])
    {
      GroupedStep(dup, list, i);
      var key := AttrKey(list[i]);
      var files := if key in dup then dup[key] else [];
      dup := dup[key := files + [list[i]]];
    }
    assert list[..|list|] == list;
  }

  lemma GroupedNothing(list: seq<StorageFile>)
    ensures GroupedByKey(map[], list[..0])
  {
  }

  /** Is f a file of one of these keys, but not the first? */
  ghost predicate LaterIn(dup: map<string, seq<StorageFile>>, keys: set<string>, f: StorageFile) {
    exists key :: key in keys && key in dup && |dup[key]| > 0 && f in dup[key][1..]
  }

  lemma LaterInStep(dup: map<string, seq<StorageFile>>, keys: set<string>, key: string, f: StorageFile)
    requires key in dup && |dup[key]| > 0
    ensures LaterIn(dup, keys + {key}, f) <==> LaterIn(dup, keys, f) || f in dup[key][1..]
  {
  }

  /** All files but the first of each key, keys in an arbitrary order. */
  method Duplicates(list: seq<StorageFile>) returns (ret: seq<StorageFile>)
    requires Distinct(list)
    ensures forall f :: f in ret <==> f in Repeats(list)
  {
    var dup := GroupByKey(list);
    hide *;
    ret := [];
    var todo := dup.Keys;
    ghost var done := {};
    NothingLater(dup);
    while todo != {}
      invariant done !! todo && done + todo == dup.Keys
      invariant forall f :: f in ret <==> LaterIn(dup, done, f)
      decreases todo
    {
      var key :| key in todo;
      GroupedGives(dup, list, key);
      ghost var before := ret;
      if |dup[key]| > 1 {
        for i := 1 to |dup[key]|
          invariant forall f :: f in ret <==> f in before || f in dup[key][1..i]
        {
          assert dup[key][1..i + 1] == dup[key][1..i] + [dup[key][i]];
          ret := ret + [dup[key][i]];
        }
        assert dup[key][1..|dup[key]|] == dup[key][1..];
      }
      forall f ensures LaterIn(dup, done + {key}, f) <==> LaterIn(dup, done, f) || f in dup[key][1..] {
        LaterInStep(dup, done, key, f);
      }
      todo, done := todo - {key}, done + {key};
    }
    forall f ensures f in ret <==> f in Repeats(list) {
      RepeatsByKey(dup, list, f);
    }
  }

  lemma NothingLater(dup: map<string, seq<StorageFile>>)
    ensures forall f :: !LaterIn(dup, {}, f)
  {
  }

  lemma GroupedGives(dup: map<string, seq<StorageFile>>, list: seq<StorageFile>, key: string)
    requires GroupedByKey(dup, list) && key in dup
    ensures |dup[key]| > 0
  {
  }

  lemma RepeatsByKey(dup: map<string, seq<StorageFile>>, list: seq<StorageFile>, f: StorageFile)
    requires Distinct(list) && GroupedByKey(dup, list)
    ensures f in Repeats(list) <==> LaterIn(dup, dup.Keys, f)
  {
    hide AttrKey;
    if f in Repeats(list) {
      var i, j :| 0 <= i < j < |list| && AttrKey(list[i]) == AttrKey(list[j]) && f == list[j];
      LaterOnes(list, AttrKey(f), i, j);
      assert f in dup[AttrKey(f)][1..];
    }
    if key :| key in dup && |dup[key]| > 0 && f in dup[key][1..] {
      EarlierOne(list, key, f);
    }
  }

  /** A file with an earlier one of the same key is not the first of its key. */
  lemma {:induction false} LaterOnes(list: seq<StorageFile>, key: string, i: nat, j: nat)
    requires i < j < |list| && AttrKey(list[i]) == key && AttrKey(list[j]) == key
    ensures |Filter(list, KeyIs(key))| > 0 && list[j] in Filter(list, KeyIs(key))[1..]
  {
    hide AttrKey;
    var g := Filter(Init(list), KeyIs(key));
    if j < |list| - 1 {
      LaterOnes(Init(list), key, i, j);
      assert Init(list)[j] == list[j];
      assert g[1..] <= Filter(list, KeyIs(key))[1..];
    } else {
      assert Init(list)[i] == list[i];
      FilterMember(Init(list), KeyIs(key), list[i]);
      assert Filter(list, KeyIs(key)) == g + [list[j]];
      assert (g + [list[j]])[1..] == g[1..] + [list[j]];
    }
  }

  lemma {:induction false} EarlierOne(list: seq<StorageFile>, key: string, f: StorageFile)
    requires Distinct(list)
    requires |Filter(list, KeyIs(key))| > 0 && f in Filter(list, KeyIs(key))[1..]
    ensures f in Repeats(list) && AttrKey(f) == key
  {
    hide AttrKey;
    var last := Last(list);
    var g := Filter(Init(list), KeyIs(key));
    if !KeyIs(key)(last) || (g != [] && f in g[1..]) {
      assert g != [] && f in g[1..];
      EarlierOne(Init(list), key, f);
      var i, j :| 0 <= i < j < |list| - 1 && AttrKey(Init(list)[i]) == AttrKey(Init(list)[j]) && f == Init(list)[j];
      assert list[i] == Init(list)[i] && list[j] == Init(list)[j];
    } else {
      assert f == last && g != [];
      FilterMember(Init(list), KeyIs(key), g[0]);
      var i :| 0 <= i < |list| - 1 && Init(list)[i] == g[0];
      assert AttrKey(list[i]) == AttrKey(list[|list| - 1]);
    }
  }

  // ----- Clean -----

  /** The removal list of a run, as a set. */
  ghost function Removals(dbParts: seq<VFilePart>, bundleMode: bool, list: seq<StorageFile>): set<StorageFile> {
    set f | f in list && ((IsPartFile(f) && !KnownPart(dbParts, f))
                          || (bundleMode && IsBundleFile(f) && !KnownBundle(dbParts, f))
                          || f in Repeats(list))
  }

  method RemoveList(db: Db, list: seq<StorageFile>)
    returns (removeList: seq<StorageFile>, ghost dbParts: seq<VFilePart>)
    requires Distinct(list)
    ensures PartList(db, dbParts)
    ensures forall f :: f in removeList <==> f in Removals(dbParts, |db.bundles| > 0, list)
  {
    var unknownParts, unknownBundles, unknownRest;
    unknownParts, unknownBundles, unknownRest, dbParts := Unknown(db, list);
    var duplicates := Duplicates(list);
    removeList := unknownParts + duplicates;
    var bundleMode := |db.bundles| > 0;
    if bundleMode {
      removeList := removeList + unknownBundles;
    }
    hide *;
    forall f ensures f in removeList <==> f in Removals(dbParts, bundleMode, list) {
      RemovalsByKind(dbParts, bundleMode, list, f);
    }
  }

  lemma RemovalsByKind(dbParts: seq<VFilePart>, bundleMode: bool, list: seq<StorageFile>, f: StorageFile)
    ensures f in Removals(dbParts, bundleMode, list) <==>
            || f in Filter(Filter(list, IsPartFile), UnknownPart(dbParts))
            || f in Repeats(list)
            || (bundleMode && f in Filter(Filter(list, IsBundleFile), UnknownBundle(dbParts)))
  {
    hide KnownPart, KnownBundle, Filter;
    FilterMember(list, IsPartFile, f);
    FilterMember(Filter(list, IsPartFile), UnknownPart(dbParts), f);
    FilterMember(list, IsBundleFile, f);
    FilterMember(Filter(list, IsBundleFile), UnknownBundle(dbParts), f);
  }

  /** All operations are removals of planned files. */
  ghost predicate TrashesOf(ops: seq<Op>, plan: set<StorageFile>) {
    forall op :: op in ops ==> TrashOf(op, plan)
  }

  ghost predicate TrashOf(op: Op, plan: set<StorageFile>) {
    op.Trashed? && exists f :: f in plan && f.id == op.id
  }

  /** Removes unreferenced files and duplicates. The ghost results describe the plan of this run;
      on an error, or in try mode, a part of it or nothing is carried out. */
  method Clean(db: Db, service: Service, try: bool)
    returns (r: Result<()>, ghost planned: bool, ghost dbParts: seq<VFilePart>, ghost files: seq<StorageFile>, ghost ops: seq<Op>)
    requires service.Valid()
    modifies service
    ensures service.Valid() && service.ever == old(service.ever)
    ensures r.Ok? ==> planned
    ensures r.Err? ==> r.error == ServiceFailed && !service.reliable
    ensures planned ==> Distinct(files) && (forall f :: f in files <==> f in old(service.online)) && PartList(db, dbParts)
    ensures service.log == old(service.log) + ops && service.online == Replay(old(service.online), ops)
    ensures !planned || try ==> ops == []
    ensures planned ==> TrashesOf(ops, Removals(dbParts, |db.bundles| > 0, files))
    ensures r.Ok? && !try ==> service.online == old(service.online) - Removals(dbParts, |db.bundles| > 0, files)
  {
    ops, planned, dbParts, files := [], false, [], [];
    var updated := service.Update();
    if !updated {
      return Err(ServiceFailed), planned, dbParts, files, ops;
    }
    var removeList;
    removeList, dbParts := RemoveList(db, service.list);
    files := service.list;
    planned := true;
    ghost var plan := Removals(dbParts, |db.bundles| > 0, files);
    assert forall f :: f in removeList <==> f in plan;
    assert forall f :: f in plan ==> f in service.online;
    r, ops := RemoveFiles(service, removeList, try, plan);
    assert SetOf(removeList) == plan;
    return r, planned, dbParts, files, ops;
  }

  /** The removal loop. */
  method RemoveFiles(service: Service, removeList: seq<StorageFile>, try: bool, ghost plan: set<StorageFile>)
    returns (r: Result<()>, ghost ops: seq<Op>)
    requires service.Valid()
    requires forall f :: f in removeList ==> f in plan && f in service.online
    modifies service
    ensures service.Valid() && service.ever == old(service.ever)
    ensures service.log == old(service.log) + ops && service.online == Replay(old(service.online), ops)
    ensures try ==> ops == []
    ensures TrashesOf(ops, plan)
    ensures r.Err? ==> r.error == ServiceFailed && !service.reliable
    ensures r.Ok? && !try ==> service.online == old(service.online) - SetOf(removeList)
  {
    assert service.online <= service.ever;
    hide *;
    ops := [];
    CleanStarts(service.online, plan, removeList);
    for i := 0 to |removeList|
      invariant service.Valid() && service.ever == old(service.ever)
      invariant service.log == old(service.log) + ops
      invariant try ==> ops == [] && service.online == old(service.online)
      invariant !try ==> CleaningAt(old(service.online), plan, removeList[..i], ops, service.online)
    {
      if !try {
        var f := removeList[i];
        ghost var online := service.online;
        IdsAreUnique(service, old(service.online), f);
        var trashed := service.Trash(f);
        if !trashed {
          CleaningMeans(old(service.online), plan, removeList[..i], ops, service.online);
          return Err(ServiceFailed), ops;
        }
        CleaningStep(old(service.online), plan, removeList, i, ops, online);
        ops := ops + [Trashed(f.id)];
      }
    }
    assert removeList[..|removeList|] == removeList;
    if !try {
      CleaningMeans(old(service.online), plan, removeList, ops, service.online);
    }
    return Ok(()), ops;
  }

  /** The state of the removal loop after the files in removed. */
  ghost predicate CleaningAt(before: set<StorageFile>, plan: set<StorageFile>, removed: seq<StorageFile>,
                             ops: seq<Op>, online: set<StorageFile>)
  {
    && online == Replay(before, ops)
    && online == before - SetOf(removed)
    && TrashesOf(ops, plan)
  }

  lemma CleanStarts(online: set<StorageFile>, plan: set<StorageFile>, removeList: seq<StorageFile>)
    ensures CleaningAt(online, plan, removeList[..0], [], online)
    ensures Replay(online, []) == online && TrashesOf([], plan)
  {
  }

  lemma IdsAreUnique(service: Service, online: set<StorageFile>, f: StorageFile)
    requires service.Valid() && f in service.ever
    requires online <= service.ever
    ensures forall g :: g in online && g.id == f.id ==> g == f
  {
  }

  lemma CleaningStep(before: set<StorageFile>, plan: set<StorageFile>, removeList: seq<StorageFile>, i: nat,
                     ops: seq<Op>, online: set<StorageFile>)
    requires i < |removeList| && removeList[i] in plan
    requires forall g :: g in before && g.id == removeList[i].id ==> g == removeList[i]
    requires CleaningAt(before, plan, removeList[..i], ops, online)
    ensures CleaningAt(before, plan, removeList[..i + 1], ops + [Trashed(removeList[i].id)],
                       Apply(online, Trashed(removeList[i].id)))
  {
    var f := removeList[i];
    var next := ops + [Trashed(f.id)];
    assert Init(next) == ops && Last(next) == Trashed(f.id);
    assert removeList[..i + 1] == removeList[..i] + [f];
    var rest := Apply(online, Trashed(f.id));
    var gone := SetOf(removeList[..i + 1]);
    forall g ensures g in rest <==> g in before - gone {
      assert g in online <==> g in before && g !in removeList[..i];
    }
    assert TrashOf(Trashed(f.id), plan);
  }

  lemma CleaningMeans(before: set<StorageFile>, plan: set<StorageFile>, removed: seq<StorageFile>,
                      ops: seq<Op>, online: set<StorageFile>)
    requires CleaningAt(before, plan, removed, ops, online)
    ensures online == Replay(before, ops) && TrashesOf(ops, plan)
    ensures online == before - SetOf(removed)
  {
  }

  lemma RemovalsOnline(dbParts: seq<VFilePart>, bundleMode: bool, list: seq<StorageFile>, f: StorageFile)
    requires f in Removals(dbParts, bundleMode, list)
    ensures f in list
  {
  }
}
