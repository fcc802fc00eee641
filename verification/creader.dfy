/** encoding/creader.go: a reader that encrypts or decrypts what it reads from an inner reader. */
module CryptoReading {
  import opened Primitives
  import opened Ctr
  import opened Seqs

  /** An inner reader. A read may be short, may fail, and may use the whole buffer as scratch
      space; it returns nothing only at the end, on failure or for an empty buffer. */
  class ByteSource {
    const data: Bytes
    const reliable: bool
    var pos: nat

    ghost predicate Valid()
      reads this
    {
      pos <= |data|
    }

    constructor (data: Bytes, reliable: bool)
      ensures Valid() && this.data == data && this.reliable == reliable && pos == 0
    {
      this.data, this.reliable, pos := data, reliable, 0;
    }

    method Read(p: array<bv8>) returns (n: nat, failed: bool)
      requires Valid()
      modifies this, p
      ensures Valid() && pos == old(pos) + n && n <= p.Length
      ensures p[..n] == data[old(pos)..pos]
      ensures n == 0 ==> failed || p.Length == 0 || pos == |data|
      ensures reliable ==> !failed
    {
      var most := if p.Length < |data| - pos then p.Length else |data| - pos;
      n := most;
      if * {
        n :| 0 <= n <= most && (most > 0 ==> n > 0);
      }
      for i := 0 to n
        invariant pos == old(pos)
        invariant p[..i] == data[pos..pos + i]
      {
        p[i] := data[pos + i];
      }
      var scratch: bool := *;
      if scratch && n < p.Length {
        p[n] := 0xFF;
      }
      pos := pos + n;
      failed := *;
      failed := failed && !reliable;
    }
  }

  class CryptoReader {
    const c: Crypto
    const key: Bytes
    const inner: ByteSource?
    var offset: int
    ghost const cryptOff: int    // the offset it was opened at
    ghost const start: nat       // where the inner reader was then
    ghost var produced: Bytes    // everything it has returned

    /** Everything returned so far is the encryption, in one piece, of what was consumed. */
    ghost predicate Valid()
      reads this, if inner == null then {} else {inner}
    {
      && ValidKey(key) && cryptOff >= 0
      && (inner == null ==> produced == [])
      && (inner != null ==>
            && inner.Valid() && start <= inner.pos
            && offset == cryptOff + (inner.pos - start)
            && produced == Crypt(c, key, inner.data[start..inner.pos], cryptOff))
    }

    constructor (c: Crypto, r: ByteSource?, cryptOff: int, dataKey: Bytes)
      requires ValidKey(dataKey) && cryptOff >= 0
      requires r != null ==> r.Valid()
      ensures Valid() && produced == []
      ensures this.c == c && inner == r && key == dataKey && this.cryptOff == cryptOff
      ensures r != null ==> start == r.pos
    {
      this.c, key, inner, offset := c, dataKey, r, cryptOff;
      this.cryptOff, start, produced := cryptOff, (if r == null then 0 else r.pos), [];
    }

    /** Reads a chunk of any size; whatever the inner reader returns, it extends the encryption. */
    method Read(p: array<bv8>) returns (n: nat, err: Option<Error>)
      requires Valid()
      modifies this, inner, p
      ensures Valid() && n <= p.Length
      ensures produced == old(produced) + p[..n]
      ensures inner == null ==> n == 0 && err == Some(NilReader)
      ensures inner != null ==> inner.pos == old(inner.pos) + n
      ensures inner != null && n == 0 ==> err.Some? || p.Length == 0 || inner.pos == |inner.data|
      ensures inner != null && inner.reliable ==> err == None
    {
      if inner == null {
        assert p[..0] == [];
        return 0, Some(NilReader);
      }
      var failed;
      n, failed := inner.Read(p);
      ghost var plain := p[..n];
      var ok := CryptBytes(c, p, n, offset, key);
      ghost var before := inner.data[start..old(inner.pos)];
      CryptConcat(c, key, before, plain, cryptOff);
      assert before + plain == inner.data[start..inner.pos];
      offset := offset + n;
      produced := produced + p[..n];
      err := if failed then Some(ServiceFailed) else None;
    }
  }

  /** Reads to the end with buffers of arbitrary sizes. */
  method ReadAll(r: CryptoReader) returns (b: Result<Bytes>)
    requires r.Valid() && r.produced == [] && r.inner != null && r.start == r.inner.pos
    modifies r, r.inner
    ensures b.Ok? ==> b.value == Crypt(r.c, r.key, r.inner.data[r.start..], r.cryptOff)
    ensures r.inner.reliable ==> b.Ok?
  {
    var all := [];
    while true
      invariant r.Valid() && all == r.produced
      decreases |r.inner.data| - r.inner.pos
    {
      var size: nat := 1;
      if * {
        size :| size > 0;
      }
      var p := new bv8[size];
      var n, err := r.Read(p);
      all := all + p[..n];
      match err {
        case Some(e) => return Err(e);
        case None =>
      }
      if n == 0 {
        break;
      }
    }
    return Ok(all);
  }

  /** Crypting pieces one after the other, each at the running offset. */
  function CryptPieces(c: Crypto, key: Bytes, pieces: seq<Bytes>, offset: int): Bytes {
    if pieces == [] then []
    else CryptPieces(c, key, Init(pieces), offset) + Crypt(c, key, Last(pieces), offset + |Flatten(Init(pieces))|)
  }

  /** However the data is cut into pieces, the result is the encryption in one piece. */
  lemma {:induction false} ChunkingDoesNotMatter(c: Crypto, key: Bytes, pieces: seq<Bytes>, offset: int)
    ensures CryptPieces(c, key, pieces, offset) == Crypt(c, key, Flatten(pieces), offset)
  {
    if pieces == [] {
    } else {
      ChunkingDoesNotMatter(c, key, Init(pieces), offset);
      CryptConcat(c, key, Flatten(Init(pieces)), Last(pieces), offset);
    }
  }
}
