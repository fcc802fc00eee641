/** The storage service: what is online, the locally cached file list, and a log of all changes.

    The service itself is a library outside the repository. It is modelled by what its callers rely
    on: Save is atomic and returns a fresh id, Trash removes the file with an id if there is one,
    Update replaces the cached list, in any order, or fails; between updates the list may or may not
    follow the caller's own changes. */
module Storage {
  import opened Primitives
  import opened Seqs
  import opened Types

  datatype StorageFile = StorageFile(id: string, name: string, content: Bytes, md5: string)

  function Size(f: StorageFile): nat {
    |f.content|
  }

  /** What Files().ByAttr looks for; an empty MD5 sum matches every file. */
  predicate Matches(f: StorageFile, name: string, size: nat, md5: string) {
    f.name == name && Size(f) == size && (md5 == "" || f.md5 == md5)
  }

  predicate MatchesPart(f: StorageFile, p: VFilePart) {
    Matches(f, p.storageName, p.storageSize, p.storageMd5)
  }

  /** Some match from a list. The order of a list is arbitrary, so the first is any. */
  function ByAttr(list: seq<StorageFile>, name: string, size: nat, md5: string): (r: Result<StorageFile>)
    ensures r.Ok? ==> r.value in list && Matches(r.value, name, size, md5)
    ensures r.Err? ==> r.error == NotExist && forall f :: f in list ==> !Matches(f, name, size, md5)
  {
    if list == [] then Err(NotExist)
    else if Matches(list[0], name, size, md5) then Ok(list[0])
    else
      var r := ByAttr(list[1..], name, size, md5);
      assert list == [list[0]] + list[1..];
      r
  }

  function ByName(list: seq<StorageFile>, name: string): (r: Result<StorageFile>)
    ensures r.Ok? ==> r.value in list && r.value.name == name
    ensures r.Err? ==> r.error == NotExist && forall f :: f in list ==> f.name != name
  {
    if list == [] then Err(NotExist)
    else if list[0].name == name then Ok(list[0])
    else
      var r := ByName(list[1..], name);
      assert list == [list[0]] + list[1..];
      r
  }

  /** Can a part be found among these files? */
  ghost predicate Resolves(files: set<StorageFile>, p: VFilePart) {
    exists f :: f in files && MatchesPart(f, p)
  }

  // ----- changes -----

  datatype Op = Saved(file: StorageFile) | Trashed(id: string)

  ghost function Apply(online: set<StorageFile>, op: Op): set<StorageFile> {
    match op
    case Saved(f) => online + {f}
    case Trashed(id) => set f | f in online && f.id != id
  }

  ghost function Replay(online: set<StorageFile>, ops: seq<Op>): set<StorageFile> {
    if ops == [] then online else Apply(Replay(online, Init(ops)), Last(ops))
  }

  lemma {:induction false} ReplayConcat(online: set<StorageFile>, a: seq<Op>, b: seq<Op>)
    ensures Replay(online, a + b) == Replay(Replay(online, a), b)
  {
    if b == [] {
      assert a + b == a;
    } else {
      assert Init(a + b) == a + Init(b);
      ReplayConcat(online, a, Init(b));
    }
  }

  function NotId(id: string): StorageFile -> bool {
    (f: StorageFile) => f.id != id
  }

  function Without(list: seq<StorageFile>, id: string): seq<StorageFile> {
    Filter(list, NotId(id))
  }

  ghost predicate UniqueIds(files: set<StorageFile>) {
    forall f, g :: f in files && g in files && f.id == g.id ==> f == g
  }

  /** The reported MD5 sums are those of the contents. */
  ghost predicate HonestMd5(c: Crypto, files: set<StorageFile>) {
    forall f :: f in files ==> f.md5 == c.md5(f.content)
  }

  class Service {
    const c: Crypto
    const reliable: bool                // never fails
    var online: set<StorageFile>
    var list: seq<StorageFile>          // the cached list: Files().All()
    var idLength: nat                   // ids of this length and longer are unused
    ghost var ever: set<StorageFile>    // every file that was ever online
    ghost var log: seq<Op>

    ghost predicate Valid()
      reads this
    {
      && online <= ever && idLength > 0
      && (forall f :: f in list ==> f in ever)
      && UniqueIds(ever)
      && HonestMd5(c, ever)
      && (forall f :: f in ever ==> 0 < |f.id| < idLength)
    }

    constructor (c: Crypto, reliable: bool)
      ensures Valid() && this.c == c && this.reliable == reliable
      ensures online == {} && list == [] && ever == {} && log == []
    {
      this.c, this.reliable := c, reliable;
      online, list, idLength, ever, log := {}, [], 1, {}, [];
    }

    /** Refreshes the cached list. */
    method Update() returns (ok: bool)
      requires Valid()
      modifies this`list
      ensures Valid()
      ensures ok ==> Distinct(list) && forall f :: f in list <==> f in online
      ensures !ok ==> list == old(list) && !reliable
    {
      var fails: bool := *;
      if fails && !reliable {
        return false;
      }
      var todo, all := online, [];
      while todo != {}
        invariant todo <= online
        invariant forall f :: f in all <==> f in online - todo
        invariant Distinct(all)
        decreases todo
      {
        var f :| f in todo;
        assert f !in all;
        all := all + [f];
        todo := todo - {f};
      }
      list := all;
      return true;
    }

    method Save(name: string, content: Bytes) returns (r: Result<StorageFile>)
      requires Valid()
      modifies this
      ensures Valid()
      ensures r.Ok? ==> r.value.name == name && r.value.content == content && r.value !in old(ever)
      ensures r.Ok? ==> forall f :: f in old(ever) ==> f.id != r.value.id
      ensures r.Ok? ==> ever == old(ever) + {r.value} && log == old(log) + [Saved(r.value)]
      ensures r.Ok? ==> online == Apply(old(online), Saved(r.value))
      ensures r.Ok? ==> list == old(list) || list == old(list) + [r.value]
      ensures r.Err? ==> r.error == ServiceFailed && unchanged(this) && !reliable
    {
      var fails: bool := *;
      if fails && !reliable {
        return Err(ServiceFailed);
      }
      var id := seq(idLength, _ => '0');
      var f := StorageFile(id, name, content, c.md5(content));
      idLength := idLength + 1;
      online, ever, log := online + {f}, ever + {f}, log + [Saved(f)];
      if * {
        list := list + [f];
      }
      return Ok(f);
    }

    method Trash(f: StorageFile) returns (ok: bool)
      requires Valid()
      modifies this
      ensures Valid() && ever == old(ever)
      ensures ok ==> online == Apply(old(online), Trashed(f.id)) && log == old(log) + [Trashed(f.id)]
      ensures ok ==> list == old(list) || list == Without(old(list), f.id)
      ensures !ok ==> unchanged(this) && !reliable
    {
      var fails: bool := *;
      if fails && !reliable {
        return false;
      }
      online := set g | g in online && g.id != f.id;
      log := log + [Trashed(f.id)];
      if * {
        forall g ensures g in Without(list, f.id) ==> g in list {
          FilterMember(list, NotId(f.id), g);
        }
        list := Without(list, f.id);
      }
      return true;
    }
  }
}
