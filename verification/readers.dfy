/** core/cryptrservice.go, and the readers of the storage library that are built over it.

    The library readers are assumed to do what their names say: read a sub-range of a file, or the
    concatenation of files by their sizes; a cache in between is transparent. They read through the
    service they are given, here the decrypting one, at absolute offsets of the storage file. */
module Readers {
  import opened Primitives
  import opened Ctr
  import opened CryptoReading
  import opened ScanningFile
  import opened Storage

  /** At most n bytes of b from off on. */
  function Range(b: Bytes, off: nat, n: nat): Bytes {
    b[Min(off, |b|)..Min(off + n, |b|)]
  }

  /** The keys of the files that may be read. */
  datatype CryptRService = CryptRService(keys: map<string, Bytes>)

  /** The limited reader of the inner service. */
  method InnerLimitedReader(file: StorageFile, off: nat, n: nat, reliable: bool) returns (r: Result<ByteSource>)
    ensures r.Ok? ==> fresh(r.value) && r.value.Valid() && r.value.pos == 0 && r.value.data == Range(file.content, off, n)
    ensures r.Ok? ==> r.value.reliable == reliable
    ensures r.Err? ==> r.error == ServiceFailed && !reliable
  {
    var fails: bool := *;
    if fails && !reliable {
      return Err(ServiceFailed);
    }
    var source := new ByteSource(Range(file.content, off, n), reliable);
    return Ok(source);
  }

  /** A decrypting reader of a range of a file; the cipher is positioned at the offset. */
  method LimitedReader(c: Crypto, s: CryptRService, file: StorageFile, off: nat, n: nat, reliable: bool)
    returns (r: Result<CryptoReader>)
    requires forall id :: id in s.keys && s.keys[id] != [] ==> ValidKey(s.keys[id])
    ensures r == Err(KeyNotFound) <==> file.id !in s.keys || s.keys[file.id] == []
    ensures r.Err? ==> r.error == KeyNotFound || (r.error == ServiceFailed && !reliable)
    ensures r.Ok? ==> r.value.inner != null && r.value.inner.reliable == reliable
    ensures r.Ok? ==> fresh(r.value) && r.value.inner != null && fresh(r.value.inner)
    ensures r.Ok? ==> r.value.Valid() && r.value.produced == [] && r.value.start == r.value.inner.pos == 0
    ensures r.Ok? ==> r.value.c == c && r.value.key == s.keys[file.id] && r.value.cryptOff == off
    ensures r.Ok? ==> r.value.inner.data == Range(file.content, off, n)
  {
    if file.id !in s.keys || s.keys[file.id] == [] {
      return Err(KeyNotFound);
    }
    var inner := InnerLimitedReader(file, off, n, reliable);
    match inner {
      case Err(e) =>
        return Err(e);
      case Ok(source) =>
        var reader := new CryptoReader(c, source, off, s.keys[file.id]);
        return Ok(reader);
    }
  }

  /** Reading a range to the end, in chunks of any sizes, gives that range of the decrypted file. */
  method ReadRange(c: Crypto, s: CryptRService, file: StorageFile, off: nat, n: nat, reliable: bool) returns (r: Result<Bytes>)
    requires forall id :: id in s.keys && s.keys[id] != [] ==> ValidKey(s.keys[id])
    ensures r.Ok? ==> file.id in s.keys && r.value == Range(Crypt(c, s.keys[file.id], file.content, 0), off, n)
    ensures reliable && file.id in s.keys && s.keys[file.id] != [] ==> r.Ok?
  {
    var reader := LimitedReader(c, s, file, off, n, reliable);
    match reader {
      case Err(e) =>
        return Err(e);
      case Ok(cr) =>
        r := ReadAll(cr);
        assert cr.inner.data[0..] == cr.inner.data;
        DecryptRange(c, s.keys[file.id], file.content, off, n);
    }
  }

  /** A range decrypted at its own offset is that range of the decrypted whole. */
  lemma DecryptRange(c: Crypto, key: Bytes, content: Bytes, off: nat, n: nat)
    ensures Crypt(c, key, Range(content, off, n), off) == Range(Crypt(c, key, content, 0), off, n)
  {
    if off <= |content| {
      CryptSlice(c, key, content, off, Min(off + n, |content|), 0);
    }
  }

  // ----- readers with random access -----

  datatype ReaderAt =
    | ZeroReader
    | RamReader(data: Bytes)
    | SubReader(file: StorageFile, service: CryptRService, off: nat, n: nat)
    | MultiReader(files: seq<StorageFile>, service: CryptRService)

  ghost predicate KeysPresent(r: ReaderAt) {
    match r
    case ZeroReader => true
    case RamReader(_) => true
    case SubReader(file, s, off, n) => file.id in s.keys && off + n <= Size(file)
    case MultiReader(files, s) => forall f :: f in files ==> f.id in s.keys
  }

  /** What the decrypting service yields for a range of a file. */
  function Served(c: Crypto, s: CryptRService, file: StorageFile, off: nat, n: nat): Bytes
    requires file.id in s.keys
  {
    Crypt(c, s.keys[file.id], Range(file.content, off, n), off)
  }

  /** Reading n bytes at pos, from one file after the other. */
  function ReadFiles(c: Crypto, s: CryptRService, files: seq<StorageFile>, pos: nat, n: nat): Bytes
    requires forall f :: f in files ==> f.id in s.keys
    decreases |files|
  {
    if files == [] then []
    else if pos >= Size(files[0]) then ReadFiles(c, s, files[1..], pos - Size(files[0]), n)
    else
      var got := Served(c, s, files[0], pos, n);
      got + ReadFiles(c, s, files[1..], 0, if n > |got| then n - |got| else 0)
  }

  function ReadAt(c: Crypto, r: ReaderAt, pos: nat, n: nat): Bytes
    requires KeysPresent(r)
  {
    match r
    case ZeroReader => []
    case RamReader(data) => Range(data, pos, n)
    case SubReader(file, s, off, size) =>
      if pos >= size then [] else Served(c, s, file, off + pos, Min(n, size - pos))
    case MultiReader(files, s) => ReadFiles(c, s, files, pos, n)
  }

  function DecryptedFiles(c: Crypto, s: CryptRService, files: seq<StorageFile>): Bytes
    requires forall f :: f in files ==> f.id in s.keys
    decreases |files|
  {
    if files == [] then []
    else Crypt(c, s.keys[files[0].id], files[0].content, 0) + DecryptedFiles(c, s, files[1..])
  }

  /** The plaintext behind a reader. */
  function View(c: Crypto, r: ReaderAt): Bytes
    requires KeysPresent(r)
  {
    match r
    case ZeroReader => []
    case RamReader(data) => data
    case SubReader(file, s, off, n) => Crypt(c, s.keys[file.id], file.content, 0)[off..off + n]
    case MultiReader(files, s) => DecryptedFiles(c, s, files)
  }

  lemma RangeOfConcat(a: Bytes, b: Bytes, pos: nat, n: nat)
    ensures pos >= |a| ==> Range(a + b, pos, n) == Range(b, pos - |a|, n)
    ensures pos < |a| ==>
              (var got := Range(a, pos, n);
               Range(a + b, pos, n) == got + Range(b, 0, if n > |got| then n - |got| else 0))
  {
  }

  lemma RangeOfNothing(pos: nat, n: nat)
    ensures Range([], pos, n) == []
  {
  }

  lemma RangeOfSlice(b: Bytes, off: nat, size: nat, pos: nat, n: nat)
    requires off + size <= |b| && pos < size
    ensures Range(b, off + pos, Min(n, size - pos)) == Range(b[off..off + size], pos, n)
  {
    var lo, hi := off + pos, off + Min(pos + n, size);
    assert Range(b, off + pos, Min(n, size - pos)) == b[lo..hi];
    assert Range(b[off..off + size], pos, n) == b[off..off + size][pos..hi - off];
  }

  lemma RangeBeyond(b: Bytes, pos: nat, n: nat)
    requires pos >= |b|
    ensures Range(b, pos, n) == []
  {
  }

  lemma {:induction false} ReadFilesIsRange(c: Crypto, s: CryptRService, files: seq<StorageFile>, pos: nat, n: nat)
    requires forall f :: f in files ==> f.id in s.keys
    ensures ReadFiles(c, s, files, pos, n) == Range(DecryptedFiles(c, s, files), pos, n)
    decreases |files|
  {
    hide Range, Crypt;
    if files != [] {
      var f := files[0];
      var a, b := Crypt(c, s.keys[f.id], f.content, 0), DecryptedFiles(c, s, files[1..]);
      RangeOfConcat(a, b, pos, n);
      DecryptRange(c, s.keys[f.id], f.content, pos, n);
      if pos >= Size(f) {
        ReadFilesIsRange(c, s, files[1..], pos - Size(f), n);
      } else {
        var got := Served(c, s, f, pos, n);
        ReadFilesIsRange(c, s, files[1..], 0, if n > |got| then n - |got| else 0);
      }
    } else {
      RangeOfNothing(pos, n);
    }
  }

  /** Every reader reads, at every position and for every length, that range of its plaintext: however
      a file is read in pieces, the pieces fit together. */
  lemma ReadAtIsRange(c: Crypto, r: ReaderAt, pos: nat, n: nat)
    requires KeysPresent(r)
    ensures ReadAt(c, r, pos, n) == Range(View(c, r), pos, n)
  {
    hide Range, Crypt;
    match r {
      case ZeroReader =>
        RangeOfNothing(pos, n);
      case RamReader(_) =>
      case SubReader(file, s, off, size) =>
        var whole := Crypt(c, s.keys[file.id], file.content, 0);
        if pos < size {
          DecryptRange(c, s.keys[file.id], file.content, off + pos, Min(n, size - pos));
          RangeOfSlice(whole, off, size, pos, n);
        } else {
          RangeBeyond(whole[off..off + size], pos, n);
        }
      case MultiReader(files, s) =>
        ReadFilesIsRange(c, s, files, pos, n);
    }
  }
}
