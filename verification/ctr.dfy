/** encoding/crypto.go: AES in counter mode, started at an arbitrary byte offset. */
module Ctr {
  import opened Primitives

  const BLOCK_SIZE := 16

  /** The key lengths aes.NewCipher accepts. */
  predicate ValidKey(key: Bytes) {
    |key| in {16, 24, 32}
  }

  // ----- the keystream, by position -----

  function Pow256(k: nat): (p: nat)
    ensures p > 0
  {
    if k == 0 then 1 else 256 * Pow256(k - 1)
  }

  /** The base-256 digit of weight 256^k; division rounds down, also for negative numbers. */
  function Digit(n: int, k: nat): Octet {
    n / Pow256(k) % 256
  }

  /** The 16-byte big-endian counter for block number n. */
  function CounterBlock(n: int): Counter {
    seq(BLOCK_SIZE, i requires 0 <= i < BLOCK_SIZE => Digit(n, 15 - i))
  }

  /** The number that a big-endian byte string denotes. */
  function BigEndian(b: seq<Octet>): nat {
    if b == [] then 0 else BigEndian(b[..|b| - 1]) * 256 + b[|b| - 1]
  }

  function KeystreamByte(c: Crypto, key: Bytes, pos: int): bv8 {
    c.aes(key, CounterBlock(pos / BLOCK_SIZE))[pos % BLOCK_SIZE]
  }

  /** data as it reads after encryption, or decryption, at offset. */
  function Crypt(c: Crypto, key: Bytes, data: Bytes, offset: int): (r: Bytes)
    ensures |r| == |data|
  {
    seq(|data|, i requires 0 <= i < |data| => data[i] ^ KeystreamByte(c, key, offset + i))
  }

  // ----- counter arithmetic -----

  lemma DivStep(n: int, p: nat)
    requires p > 0
    ensures (n + 1) % p == 0 ==> (n + 1) / p == n / p + 1
    ensures (n + 1) % p != 0 ==> (n + 1) / p == n / p
  {
    var q, r := n / p, n % p;
    assert n == p * q + r;
    if r + 1 == p {
      assert n + 1 == p * (q + 1);
      DivUnique(n + 1, p, q + 1, 0);
    } else {
      DivUnique(n + 1, p, q, r + 1);
    }
  }

  lemma DivUnique(n: int, p: nat, q: int, r: int)
    requires p > 0 && n == p * q + r && 0 <= r < p
    ensures n / p == q && n % p == r
  {
    var q', r' := n / p, n % p;
    assert n == p * q' + r';
    if q > q' {
      MulAtLeast(p, q - q');
    } else if q < q' {
      MulAtLeast(p, q' - q);
    }
  }

  lemma MulAtLeast(p: nat, d: int)
    requires d >= 1
    ensures p * d >= p
  {
  }

  lemma DivDiv(n: int, p: nat, m: nat)
    requires p > 0 && m > 0
    ensures p * m > 0
    ensures n / (p * m) == n / p / m
    ensures n % (p * m) == n / p % m * p + n % p
  {
    var q, r := n / p, n % p;
    var q2, r2 := q / m, q % m;
    assert q == m * q2 + r2;
    MixedRadix(p, m, q2, r2, r);
    DivUnique(n, p * m, q2, p * r2 + r);
  }

  lemma MixedRadix(p: nat, m: nat, q: int, d: nat, r: nat)
    requires d < m && r < p
    ensures p * (m * q + d) + r == p * m * q + (p * d + r)
    ensures 0 <= p * d + r < p * m
  {
    assert p * (d + 1) <= p * m by { MulAtLeastFactor(p, d + 1, m); }
    assert p * (d + 1) == p * d + p;
  }

  lemma MulAtLeastFactor(p: nat, x: nat, y: nat)
    requires x <= y
    ensures p * x <= p * y
  {
  }

  /** The counter block denotes the block number modulo 2^128. */
  lemma CounterBlockDenotes(n: int)
    ensures BigEndian(CounterBlock(n)) == n % Pow256(16)
  {
    hide *;
    CounterPrefixDenotes(n, 16);
    assert CounterBlock(n)[..16] == CounterBlock(n);
    PowerOfNothing();
    assert n / 1 == n;
  }

  lemma PowerOfNothing()
    ensures Pow256(0) == 1
  {
  }

  lemma {:induction false} CounterPrefixDenotes(n: int, i: nat)
    requires i <= 16
    ensures BigEndian(CounterBlock(n)[..i]) == n / Pow256(16 - i) % Pow256(i)
  {
    if i == 0 {
    } else {
      CounterPrefixDenotes(n, i - 1);
      var b, m := CounterBlock(n)[..i], n / Pow256(16 - i);
      assert b[..i - 1] == CounterBlock(n)[..i - 1];
      assert b[i - 1] == m % 256;
      assert Pow256(16 - (i - 1)) == Pow256(16 - i) * 256;
      DivDiv(n, Pow256(16 - i), 256);
      DivDiv(m, 256, Pow256(i - 1));
      assert Pow256(i) == 256 * Pow256(i - 1);
    }
  }

  /** Does incrementing n carry out of its k low digits? */
  ghost predicate Carries(n: int, k: nat) {
    (n + 1) % Pow256(k) == 0
  }

  /** Incrementing a block number changes exactly the low digits through which a carry runs. */
  lemma DigitSuccessor(n: int, k: nat)
    ensures Carries(n, k) ==> Digit(n + 1, k) == (Digit(n, k) + 1) % 256
    ensures !Carries(n, k) ==> Digit(n + 1, k) == Digit(n, k)
    ensures Carries(n, k + 1) <==> Carries(n, k) && Digit(n, k) == 255
  {
    assert Pow256(k + 1) == Pow256(k) * 256;
    hide Pow256;
    DigitStep(n, Pow256(k));
  }

  lemma DigitStep(n: int, p: nat)
    requires p > 0
    ensures (n + 1) % p == 0 ==> (n + 1) / p % 256 == (n / p % 256 + 1) % 256
    ensures (n + 1) % p != 0 ==> (n + 1) / p == n / p
    ensures (n + 1) % (p * 256) == 0 <==> (n + 1) % p == 0 && n / p % 256 == 255
  {
    DivStep(n, p);
    DivDiv(n + 1, p, 256);
    MulZero((n + 1) / p % 256, p);
    hide *;
    NextDigit(n / p);
  }

  lemma NextDigit(q: int)
    ensures (q + 1) % 256 == (q % 256 + 1) % 256
    ensures (q + 1) % 256 == 0 <==> q % 256 == 255
  {
  }

  lemma MulZero(m: nat, p: nat)
    requires p > 0
    ensures m * p >= 0
    ensures m * p == 0 <==> m == 0
  {
  }

  lemma {:induction false} NoCarryAbove(n: int, low: nat, k: nat)
    requires low <= k && !Carries(n, low)
    ensures !Carries(n, k) && Digit(n + 1, k) == Digit(n, k)
  {
    hide *;
    if low == k {
    } else {
      NoCarryAbove(n, low, k - 1);
      DigitSuccessor(n, k - 1);
    }
    DigitSuccessor(n, k);
  }

  lemma CounterDigits(n: int, j: nat)
    requires j < 16
    ensures CounterBlock(n)[j] == Digit(n, 15 - j)
  {
  }

  /** The standard incrementing function: add one to the last byte and carry to the left. */
  method Increment(counter: array<Octet>, ghost n: int)
    requires counter[..] == CounterBlock(n)
    modifies counter
    ensures counter[..] == CounterBlock(n + 1)
  {
    hide *;
    var i := 16;
    var carry := true;
    CarriesIn(n);
    while carry && i > 0
      invariant 0 <= i <= 16 == counter.Length
      invariant forall j :: i <= j < 16 ==> counter[j] == CounterBlock(n + 1)[j]
      invariant forall j :: 0 <= j < i ==> counter[j] == CounterBlock(n)[j]
      invariant carry <==> Carries(n, 16 - i)
    {
      i := i - 1;
      DigitSuccessor(n, 15 - i);
      CounterDigits(n, i);
      CounterDigits(n + 1, i);
      counter[i] := if counter[i] == 255 then 0 else counter[i] + 1;
      carry := counter[i] == 0;
    }
    forall j | 0 <= j < i ensures CounterBlock(n + 1)[j] == CounterBlock(n)[j] {
      NoCarryAbove(n, 16 - i, 15 - j);
      CounterDigits(n, j);
      CounterDigits(n + 1, j);
    }
  }

  lemma CarriesIn(n: int)
    ensures Carries(n, 0)
  {
  }

  // ----- the stream and CryptBytes -----

  /** cipher.NewCTR: a stream that encrypts successive counter blocks. */
  class CtrStream {
    const c: Crypto
    const key: Bytes
    const counter: array<Octet>  // the next block to encrypt
    var block: Block             // the current keystream block
    var used: nat                // how much of it is consumed
    ghost var next: int          // the block number in counter
    ghost const repr: set<object>

    ghost predicate Valid()
      reads this, counter
    {
      && repr == {this, counter}
      && counter[..] == CounterBlock(next)
      && used <= BLOCK_SIZE
      && (used < BLOCK_SIZE ==> block == c.aes(key, CounterBlock(next - 1)))
    }

    /** The position in the keystream of the next byte. */
    ghost function Pos(): int
      reads this
    {
      BLOCK_SIZE * (next - 1) + used
    }

    constructor (c: Crypto, key: Bytes, iv: array<Octet>, ghost n: int)
      requires iv[..] == CounterBlock(n)
      ensures Valid() && fresh(repr)
      ensures this.c == c && this.key == key && Pos() == BLOCK_SIZE * n
    {
      this.c, this.key := c, key;
      var copy := new Octet[iv.Length](i requires 0 <= i < iv.Length reads iv => iv[i]);
      counter := copy;
      block, used, next := c.aes(key, iv[..]), BLOCK_SIZE, n;
      repr := {this, copy};
      new;
      assert counter[..] == iv[..];
    }

    method Refill()
      requires Valid() && used == BLOCK_SIZE
      modifies this, counter
      ensures Valid() && used == 0 && Pos() == old(Pos())
    {
      block := c.aes(key, counter[..]);
      Increment(counter, next);
      next, used := next + 1, 0;
    }

    /** The next byte of the keystream. */
    method NextByte() returns (b: bv8)
      requires Valid()
      modifies this, counter
      ensures Valid() && Pos() == old(Pos()) + 1
      ensures b == KeystreamByte(c, key, old(Pos()))
    {
      hide KeystreamByte, CounterBlock;
      if used == BLOCK_SIZE {
        Refill();
      }
      BlockHoldsKeystream(c, key, next - 1, used);
      b := block[used];
      used := used + 1;
    }

    lemma OwnsCounter()
      requires Valid()
      ensures counter in repr
    {
    }

    /** XORs the first n bytes of data with the next n bytes of the keystream. */
    method XorKeyStream(data: array<bv8>, n: nat)
      requires Valid() && data !in repr && n <= data.Length
      modifies this, counter, data
      ensures Valid() && Pos() == old(Pos()) + n
      ensures data[..n] == Crypt(c, key, old(data[..n]), old(Pos()))
      ensures data[n..] == old(data[n..])
    {
      hide *;
      OwnsCounter();
      ghost var start := Pos();
      for i := 0 to n
        invariant Valid() && Pos() == start + i
        invariant forall j :: 0 <= j < i ==> data[j] == old(data[j]) ^ KeystreamByte(c, key, start + j)
        invariant forall j :: i <= j < data.Length ==> data[j] == old(data[j])
      {
        var b := NextByte();
        data[i] := data[i] ^ b;
      }
      CryptIs(c, key, old(data[..n]), data[..n], start);
    }
  }

  lemma BlockHoldsKeystream(c: Crypto, key: Bytes, n: int, used: nat)
    requires used < BLOCK_SIZE
    ensures c.aes(key, CounterBlock(n))[used] == KeystreamByte(c, key, BLOCK_SIZE * n + used)
  {
    hide CounterBlock;
    DivUnique(BLOCK_SIZE * n + used, BLOCK_SIZE, n, used);
  }

  lemma CryptIs(c: Crypto, key: Bytes, plain: Bytes, crypted: Bytes, start: int)
    requires |plain| == |crypted|
    requires forall j :: 0 <= j < |plain| ==> crypted[j] == plain[j] ^ KeystreamByte(c, key, start + j)
    ensures crypted == Crypt(c, key, plain, start)
  {
    hide KeystreamByte;
  }

  /** Go's % truncates toward zero, so the remainder has the sign of offset. */
  function BlockSkip(offset: int): int {
    if offset >= 0 then offset % BLOCK_SIZE else -((-offset) % BLOCK_SIZE)
  }

  /** The block number exactly divides, and the skip is negative only for an offset that panics. */
  lemma BlockSkipSplits(offset: int)
    ensures BLOCK_SIZE * ((offset - BlockSkip(offset)) / BLOCK_SIZE) + BlockSkip(offset) == offset
    ensures BlockSkip(offset) >= 0 <==> offset >= 0 || offset % BLOCK_SIZE == 0
    ensures BlockSkip(offset) < BLOCK_SIZE
  {
  }

  /** The initial counter, filled byte by byte from the block number. */
  method InitialCounter(ivInt: int) returns (iv: array<Octet>)
    ensures fresh(iv) && iv[..] == CounterBlock(ivInt)
  {
    iv := new Octet[BLOCK_SIZE];
    for i := 0 to BLOCK_SIZE
      invariant forall j :: 0 <= j < i ==> iv[j] == Digit(ivInt, 15 - j)
    {
      iv[i] := ivInt / Pow256(15 - i) % 256;  // byte(ivInt >> uint((15-i)*8))
    }
  }

  /** Encrypts or decrypts the first n bytes of data in place. Not ok is a panic: the key has no
      valid length, or the number of bytes to skip in the first block is negative. */
  method CryptBytes(c: Crypto, data: array<bv8>, n: nat, offset: int, key: Bytes) returns (ok: bool)
    requires n <= data.Length
    modifies data
    ensures ok <==> |key| in {16, 24, 32} && (offset >= 0 || offset % 16 == 0)
    ensures ok ==> data[..n] == Crypt(c, key, old(data[..n]), offset)
    ensures ok ==> data[n..] == old(data[n..])
    ensures !ok ==> data[..] == old(data[..])
  {
    var modulo := BlockSkip(offset);
    var ivInt := (offset - modulo) / BLOCK_SIZE;
    BlockSkipSplits(offset);
    var iv := InitialCounter(ivInt);
    if !ValidKey(key) {
      return false;
    }
    var stream := new CtrStream(c, key, iv, ivInt);
    if modulo != 0 {
      if modulo < 0 {
        return false;  // make([]byte, modulo) panics
      }
      var tmp := new bv8[modulo];
      stream.XorKeyStream(tmp, modulo);
    }
    stream.XorKeyStream(data, n);
    return true;
  }

  // ----- what the keystream position buys -----

  /** Encrypting piecewise at running offsets is encrypting the whole. */
  lemma CryptConcat(c: Crypto, key: Bytes, a: Bytes, b: Bytes, offset: int)
    ensures Crypt(c, key, a + b, offset) == Crypt(c, key, a, offset) + Crypt(c, key, b, offset + |a|)
  {
    var whole := Crypt(c, key, a + b, offset);
    var pieces := Crypt(c, key, a, offset) + Crypt(c, key, b, offset + |a|);
    forall i | 0 <= i < |whole| ensures whole[i] == pieces[i] {
      if i >= |a| {
        assert offset + |a| + (i - |a|) == offset + i;
      }
    }
  }

  /** Decryption is encryption. */
  lemma CryptTwice(c: Crypto, key: Bytes, data: Bytes, offset: int)
    ensures Crypt(c, key, Crypt(c, key, data, offset), offset) == data
  {
    forall i | 0 <= i < |data|
      ensures Crypt(c, key, Crypt(c, key, data, offset), offset)[i] == data[i]
    {
      XorTwice(data[i], KeystreamByte(c, key, offset + i));
    }
  }

  lemma XorTwice(a: bv8, b: bv8)
    ensures (a ^ b) ^ b == a
  {
  }

  /** A slice of the ciphertext, decrypted at its own offset, is the slice of the plaintext. */
  lemma CryptSlice(c: Crypto, key: Bytes, data: Bytes, lo: nat, hi: nat, offset: int)
    requires lo <= hi <= |data|
    ensures Crypt(c, key, data, offset)[lo..hi] == Crypt(c, key, data[lo..hi], offset + lo)
  {
    var a, b := Crypt(c, key, data, offset)[lo..hi], Crypt(c, key, data[lo..hi], offset + lo);
    forall i | 0 <= i < hi - lo ensures a[i] == b[i] {
      assert offset + lo + i == offset + (lo + i);
    }
  }

  // ----- the standard -----

  lemma PowerOf16()
    ensures Pow256(16) == 0x1_0000_0000_0000_0000_0000_0000_0000_0000
  {
    assert Pow256(4) == 0x1_0000_0000;
    Pow4(4);
    Pow4(8);
    Pow4(12);
  }

  lemma Pow4(k: nat)
    ensures Pow256(k + 4) == Pow256(k) * 0x1_0000_0000
  {
    assert Pow256(k + 1) == 256 * Pow256(k);
    assert Pow256(k + 2) == 256 * Pow256(k + 1);
    assert Pow256(k + 3) == 256 * Pow256(k + 2);
    assert Pow256(k + 4) == 256 * Pow256(k + 3);
  }

  /** Big-endian numbers of equal length determine their bytes. */
  lemma {:induction false} BigEndianInjective(a: seq<Octet>, b: seq<Octet>)
    requires |a| == |b| && BigEndian(a) == BigEndian(b)
    ensures a == b
  {
    if a == [] {
    } else {
      var n := |a| - 1;
      assert a[n] == b[n] && BigEndian(a[..n]) == BigEndian(b[..n]);
      BigEndianInjective(a[..n], b[..n]);
      assert a == a[..n] + [a[n]] && b == b[..n] + [b[n]];
    }
  }

  /** Counter mode as in NIST SP 800-38A, section 6.5, with the counter starting at 0: byte i of data at an
      offset is XORed with byte (offset + i) % 16 of the encryption of the 16-byte big-endian number
      (offset + i) / 16, modulo 2^128. */
  lemma CryptIsCounterMode(c: Crypto, key: Bytes, data: Bytes, offset: int, i: nat, counter: Counter)
    requires i < |data|
    requires BigEndian(counter) == (offset + i) / 16 % 0x1_0000_0000_0000_0000_0000_0000_0000_0000
    ensures Crypt(c, key, data, offset)[i] == data[i] ^ c.aes(key, counter)[(offset + i) % 16]
  {
    hide Pow256, CounterBlock, BigEndian;
    var pos := offset + i;
    CounterBlockDenotes(pos / 16);
    PowerOf16();
    BigEndianInjective(counter, CounterBlock(pos / 16));
    assert BLOCK_SIZE == 16 && counter == CounterBlock(pos / BLOCK_SIZE);
    assert Crypt(c, key, data, offset)[i] == data[i] ^ KeystreamByte(c, key, pos);
  }
}
