/** Byte strings, the error type, and the cryptographic library calls of the repository.

    AES, SHA-512, MD5, PBKDF2 and zstd are uninterpreted: a value of type Crypto is any
    choice of functions for them. What a proof needs of them is stated once, in Sound().
    Hash functions have no collisions only among finitely many byte strings, so Crypto
    also names the set of byte strings that ever occur. */
module Primitives {

  type Bytes = seq<bv8>

  /** One AES block. */
  type Block = b: Bytes | |b| == 16 witness seq(16, _ => 0)

  /** A counter block, as the 16 numbers it consists of: counters are calculated with, data is
      XORed, so data bytes are bit vectors and counter bytes are numbers. */
  type Octet = n: nat | n < 256
  type Counter = b: seq<Octet> | |b| == 16 witness seq(16, _ => 0)

  /** A SHA-512 digest. */
  type Hash = b: Bytes | |b| == 64 witness seq(64, _ => 0)

  predicate IsHex(s: string) {
    forall i :: 0 <= i < |s| ==> '0' <= s[i] <= '9' || 'a' <= s[i] <= 'f'
  }

  /** An MD5 digest, and a PBKDF2 name, printed in hexadecimal. */
  type Hex32 = s: string | |s| == 32 && IsHex(s) witness seq(32, _ => '0')
  type Hex128 = s: string | |s| == 128 && IsHex(s) witness seq(128, _ => '0')

  datatype Option<+T> = None | Some(value: T)

  datatype Error =
    | NotExist
    | WrongPartCount
    | SecondPartCompressed
    | SizeCheckFailed
    | KeyNotFound
    | UnexpectedEof
    | BadCompression
    | WalkFailed
    | ServiceFailed
    | LocalSaveFailed
    | EndOfFile
    | NilReader

  datatype Result<+T> = Ok(value: T) | Err(error: Error)

  datatype Crypto = Crypto(
    aes: (Bytes, Counter) -> Block,    // key and counter block to keystream block
    sha512: Bytes -> Hash,
    md5: Bytes -> Hex32,
    cryptName: Hash -> Hex128,         // KeyFile.CryptName
    dataKey: Hash -> Bytes,            // KeyFile.DataKey
    compress: Bytes -> Bytes,
    decompress: Bytes -> Option<Bytes>,
    pays: (nat, nat) -> bool,          // is compressing to the first size worth it?
    occurs: set<Bytes>                 // every byte string that is ever hashed
  ) {
    /** Data keys have a length AES accepts, Decompress inverts Compress, compression is
        used only where it saves bytes, and no two strings that occur collide. */
    ghost predicate Sound() {
      && (forall h: Hash :: |dataKey(h)| == 32)
      && (forall b: Bytes :: decompress(compress(b)) == Some(b))
      && (forall o: nat, i: nat :: pays(o, i) ==> o < i)
      && CollisionFree()
    }

    ghost predicate CollisionFree() {
      && (forall x, y :: x in occurs && y in occurs && sha512(x) == sha512(y) ==> x == y)
      && (forall x, y :: x in occurs && y in occurs && md5(x) == md5(y) ==> x == y)
      && (forall x, y :: x in occurs && y in occurs && cryptName(sha512(x)) == cryptName(sha512(y)) ==> x == y)
    }
  }
}
