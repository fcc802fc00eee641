/** db/scanfile.go: splitting one file into parts. */
module ScanningFile {
  import opened Primitives
  import opened Ctr
  import opened CryptoReading
  import opened Seqs
  import opened Types
  import opened Splitting

  // ----- the parts of a file -----

  function Min(a: nat, b: nat): nat {
    if a < b then a else b
  }

  /** What a limited read of one part returns after seeking to it. */
  function Chunk(content: Bytes, partNo: nat): Bytes {
    var lo := Min(partNo * PART_SIZE, |content|);
    content[lo..Min(lo + PART_SIZE, |content|)]
  }

  function PartCount(size: nat): nat {
    CeilDiv(size, PART_SIZE)
  }

  /** Is a file of this content stored compressed? */
  predicate UsesCompression(c: Crypto, content: Bytes) {
    |content| <= MAX_FILE_SIZE_FOR_COMPRESSION && c.pays(|c.compress(content)|, |content|)
  }

  /** What is encrypted and stored for one part. */
  function StoredForm(c: Crypto, compressed: bool, chunk: Bytes): Bytes {
    if compressed then c.compress(chunk) else chunk
  }

  function PartOf(c: Crypto, compressed: bool, chunk: Bytes): VFilePart {
    var hash := c.sha512(chunk);
    var key := c.dataKey(hash);
    var stored := StoredForm(c, compressed, chunk);
    VFilePart(hash, c.cryptName(hash), |stored|, c.md5(Crypt(c, key, stored, 0)), key)
  }

  function PartsOf(c: Crypto, compressed: bool, content: Bytes): seq<VFilePart> {
    seq(PartCount(|content|), i requires 0 <= i < PartCount(|content|) => PartOf(c, compressed, Chunk(content, i)))
  }

  /** The record of a file, as a function of its path, time and content. */
  function ScannedFile(c: Crypto, relPath: string, mTime: int, content: Bytes): VirtFile {
    var compressed := UsesCompression(c, content);
    VirtFile(relPath, |content|, mTime, false, [], PartsOf(c, compressed, content), compressed, "")
  }

  // ----- the scan -----

  /** An open file. */
  class FileHandle {
    const content: Bytes
    var pos: nat

    constructor (content: Bytes)
      ensures this.content == content && pos == 0
    {
      this.content, pos := content, 0;
    }

    method Seek(offset: nat)
      modifies this
      ensures pos == offset
    {
      pos := offset;
    }

    /** Reads until limit bytes are read or the file ends. */
    method ReadLimited(limit: nat) returns (b: Bytes)
      modifies this
      ensures b == content[Min(old(pos), |content|)..Min(Min(old(pos), |content|) + limit, |content|)]
    {
      var lo := Min(pos, |content|);
      var hi := Min(lo + limit, |content|);
      b := content[lo..hi];
      pos := if pos > hi then pos else hi;
    }
  }

  method TryCompression(c: Crypto, content: Bytes) returns (useCompression: bool, comprSize: nat)
    ensures useCompression == UsesCompression(c, content)
    ensures comprSize == if useCompression then |c.compress(content)| else |content|
  {
    useCompression, comprSize := false, |content|;
    if |content| <= MAX_FILE_SIZE_FOR_COMPRESSION && |content| < PART_SIZE {
      var buf := c.compress(content);
      if c.pays(|buf|, |content|) {
        useCompression, comprSize := true, |buf|;
      }
    }
  }

  method PlainSha512(c: Crypto, fh: FileHandle, partNo: nat) returns (plainSha512: Hash, partSize: nat)
    modifies fh
    ensures plainSha512 == c.sha512(Chunk(fh.content, partNo))
    ensures partSize == |Chunk(fh.content, partNo)|
  {
    fh.Seek(partNo * PART_SIZE);
    var b := fh.ReadLimited(PART_SIZE);
    return c.sha512(b), |b|;
  }

  /** The MD5 sum of the storage file of one part. */
  method CryptMd5(c: Crypto, fh: FileHandle, partNo: nat, useCompr: bool, storageSize: nat, cryptKey: Bytes)
    returns (r: Result<Hex32>)
    requires ValidKey(cryptKey)
    modifies fh
    ensures var stored := StoredForm(c, useCompr, Chunk(fh.content, partNo));
            r == if useCompr && partNo > 0 then Err(SecondPartCompressed)
                 else if |stored| != storageSize then Err(SizeCheckFailed)
                 else Ok(c.md5(Crypt(c, cryptKey, stored, 0)))
  {
    if useCompr && partNo > 0 {
      return Err(SecondPartCompressed);
    }
    fh.Seek(partNo * PART_SIZE);
    var b := fh.ReadLimited(PART_SIZE);
    if useCompr {
      b := c.compress(b);
    }
    var crypted := Encrypted(c, b, cryptKey);
    if storageSize != |crypted| {
      return Err(SizeCheckFailed);
    }
    return Ok(c.md5(crypted));
  }

  /** What an encrypting reader at offset 0 yields; the encryption offset is 0 for each part. */
  method Encrypted(c: Crypto, b: Bytes, cryptKey: Bytes) returns (crypted: Bytes)
    requires ValidKey(cryptKey)
    ensures crypted == Crypt(c, cryptKey, b, 0)
  {
    var source := new ByteSource(b, true);
    var r := new CryptoReader(c, source, 0, cryptKey);
    var all := ReadAll(r);
    assert source.data[0..] == b;
    return all.value;
  }

  /** Scans one file. The record is always the one of its content: neither the check against a
      compressed second part nor the size check can fail. */
  method ScanFile(c: Crypto, content: Bytes, mTime: int, relPath: string) returns (r: Result<VirtFile>)
    requires c.Sound()
    ensures r == Ok(ScannedFile(c, relPath, mTime, content))
  {
    var useCompression, comprSize := TryCompression(c, content);
    var fh := new FileHandle(content);
    var partList: seq<VFilePart> := [];
    var partNo := 0;
    while true
      invariant partNo == |partList| <= PartCount(|content|)
      invariant forall i :: 0 <= i < partNo ==> partList[i] == PartOf(c, useCompression, Chunk(content, i))
      invariant fh.content == content
      decreases PartCount(|content|) - partNo
    {
      ChunkSize(content, partNo);
      var plainSha512, partSize := PlainSha512(c, fh, partNo);
      if partSize == 0 {
        break;
      }
      var dataKey := c.dataKey(plainSha512);
      var storageName := c.cryptName(plainSha512);
      var storageSize := partSize;
      if useCompression {
        storageSize := comprSize;
        CompressedIsOnePart(c, content);
        assert Chunk(content, 0) == content;
      }
      var storageMd5 := CryptMd5(c, fh, partNo, useCompression, storageSize, dataKey);
      match storageMd5 {
        case Err(e) =>
          return Err(e);
        case Ok(md5) =>
          partList := partList + [VFilePart(plainSha512, storageName, storageSize, md5, dataKey)];
          partNo := partNo + 1;
      }
    }
    assert partList == PartsOf(c, useCompression, content);
    return Ok(VirtFile(relPath, |content|, mTime, false, [], partList, useCompression, ""));
  }

  // ----- what the part list means -----

  lemma ChunkSize(content: Bytes, partNo: nat)
    ensures |Chunk(content, partNo)| == 0 <==> partNo >= PartCount(|content|)
    ensures partNo + 1 < PartCount(|content|) ==> |Chunk(content, partNo)| == PART_SIZE
    ensures |Chunk(content, partNo)| <= PART_SIZE
  {
    assert PART_SIZE == 1073741824;
  }

  /** Compression implies at most one part, so no compressed second part is ever read. */
  lemma CompressedIsOnePart(c: Crypto, content: Bytes)
    requires c.Sound() && UsesCompression(c, content)
    ensures |PartsOf(c, true, content)| == 1 && PartCount(|content|) == 1
    ensures Chunk(content, 0) == content
  {
    assert PART_SIZE == 1073741824;
  }

  /** The plaintexts of the parts, in order. */
  function Chunks(content: Bytes): seq<Bytes> {
    seq(PartCount(|content|), i requires 0 <= i < PartCount(|content|) => Chunk(content, i))
  }

  lemma {:induction false} ChunkPrefix(content: Bytes, n: nat)
    requires n <= PartCount(|content|)
    ensures Flatten(Chunks(content)[..n]) == content[..Min(n * PART_SIZE, |content|)]
  {
    hide Chunk, PartCount;
    var parts := Chunks(content);
    if n == 0 {
    } else {
      ChunkPrefix(content, n - 1);
      assert Init(parts[..n]) == parts[..n - 1];
      assert Last(parts[..n]) == Chunk(content, n - 1);
      ChunkEnds(content, n - 1);
    }
  }

  lemma ChunkEnds(content: Bytes, n: nat)
    ensures content[..Min(n * PART_SIZE, |content|)] + Chunk(content, n) ==
            content[..Min((n + 1) * PART_SIZE, |content|)]
  {
    var lo, hi := Min(n * PART_SIZE, |content|), Min((n + 1) * PART_SIZE, |content|);
    NextBound(n, |content|);
    assert content[..lo] + content[lo..hi] == content[..hi];
  }

  lemma NextBound(n: nat, size: nat)
    ensures Min(Min(n * PART_SIZE, size) + PART_SIZE, size) == Min((n + 1) * PART_SIZE, size)
  {
    assert (n + 1) * PART_SIZE == n * PART_SIZE + PART_SIZE;
  }

  /** The parts concatenate to the file: as many as the size needs, all but the last full, none empty. */
  lemma PartsRebuildFile(content: Bytes)
    ensures Flatten(Chunks(content)) == content
    ensures forall i :: 0 <= i < |Chunks(content)| - 1 ==> |Chunks(content)[i]| == PART_SIZE
    ensures forall i :: 0 <= i < |Chunks(content)| ==> 0 < |Chunks(content)[i]| <= PART_SIZE
    ensures |Chunks(content)| == CeilDiv(|content|, PART_SIZE)
  {
    var n := PartCount(|content|);
    ChunkPrefix(content, n);
    assert Chunks(content)[..n] == Chunks(content);
    assert Min(n * PART_SIZE, |content|) == |content| by { assert PART_SIZE == 1073741824; }
    forall i | 0 <= i < n
      ensures 0 < |Chunks(content)[i]| <= PART_SIZE
      ensures i < n - 1 ==> |Chunks(content)[i]| == PART_SIZE
    {
      ChunkSize(content, i);
    }
  }

  function PartSizes(parts: seq<VFilePart>): nat {
    if parts == [] then 0 else PartSizes(Init(parts)) + Last(parts).storageSize
  }

  lemma {:induction false} UncompressedPrefixSize(c: Crypto, content: Bytes, n: nat)
    requires n <= PartCount(|content|)
    ensures PartSizes(PartsOf(c, false, content)[..n]) == Min(n * PART_SIZE, |content|)
  {
    var parts := PartsOf(c, false, content);
    if n == 0 {
    } else {
      UncompressedPrefixSize(c, content, n - 1);
      assert Init(parts[..n]) == parts[..n - 1];
      assert Last(parts[..n]).storageSize == |Chunk(content, n - 1)|;
      assert PART_SIZE == 1073741824;
    }
  }

  /** Sizes: what is stored is never more than the file, and without compression exactly the file. */
  lemma StorageSizes(c: Crypto, relPath: string, mTime: int, content: Bytes)
    requires c.Sound()
    ensures var f := ScannedFile(c, relPath, mTime, content);
            && (!f.useCompression ==> PartSizes(f.parts) == f.fileSize)
            && (f.useCompression ==> |f.parts| == 1 && PartSizes(f.parts) < f.fileSize)
            && (|f.parts| == 1 ==> StoredSize(f) <= f.fileSize)
            && (f.parts == [] <==> f.fileSize == 0)
            && (f.useCompression <==> |content| <= 1024 * 1024 && c.pays(|c.compress(content)|, |content|))
            && PartSizes(f.parts) ==
               if |content| <= 1024 * 1024 && c.pays(|c.compress(content)|, |content|) then |c.compress(content)| else |content|
  {
    var f := ScannedFile(c, relPath, mTime, content);
    var n := PartCount(|content|);
    assert PART_SIZE == 1073741824;
    if f.useCompression {
      CompressedIsOnePart(c, content);
      assert Init(f.parts) == [];
      assert PartSizes(f.parts) == |c.compress(content)|;
    } else {
      UncompressedPrefixSize(c, content, n);
      assert f.parts[..n] == f.parts;
      if n == 1 {
        assert Init(f.parts) == [];
      }
    }
  }
}
