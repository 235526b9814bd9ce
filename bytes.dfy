/** Byte and word helpers shared by the digest and one-time-password modules:
    Rust's `u8`/`u32` become bit-vectors, `to_be_bytes`/`from_be_bytes` become
    the big-endian conversions below. */
module Bytes {

  /** Rust `u8`. */
  type byte = bv8

  /** Rust `u32`; `+` on bit-vectors wraps modulo 2^32 like `Wrapping<u32>`. */
  type word = bv32

  /** `n` zero bytes (`vec![0_u8; n]`). */
  function Zeros(n: nat): (r: seq<byte>)
    ensures |r| == n
    ensures forall i :: 0 <= i < n ==> r[i] == 0
  {
    seq(n, _ => 0)
  }

  /** 256^n. */
  function Pow256(n: nat): (r: nat)
    ensures r > 0
  {
    if n == 0 then 1 else 256 * Pow256(n - 1)
  }

  /** The unsigned number a big-endian byte string denotes. */
  function Value(s: seq<byte>): (v: nat)
    ensures v < Pow256(|s|)
  {
    if s == [] then 0 else Value(s[..|s| - 1]) * 256 + s[|s| - 1] as nat
  }

  /** The low `n` bytes of `x`, most significant first (`to_be_bytes` of an
      `n`-byte unsigned integer; an `x` that does not fit keeps its low bytes). */
  function BigEndian(x: nat, n: nat): (r: seq<byte>)
    ensures |r| == n
  {
    if n == 0 then [] else BigEndian(x / 256, n - 1) + [LowByte(x)]
  }

  /** `x as u8`: the low byte of `x`, whose value is `x` modulo 256. */
  function LowByte(x: nat): (b: byte)
    ensures b as nat == x % 256
  {
    var v: int := x % 256;
    ByteOfSmall(v);
    v as byte
  }

  /** A number below 256 survives the trip through a byte. */
  lemma ByteOfSmall(v: int)
    requires 0 <= v < 256
    ensures (v as byte) as int == v
  {
    assert v % 256 == v;
  }

  /** Decoding the n-byte encoding of a number below 256^n gives it back. */
  lemma {:induction false} ValueOfBigEndian(x: nat, n: nat)
    requires x < Pow256(n)
    ensures Value(BigEndian(x, n)) == x
  {
    if n > 0 {
      var q, b := x / 256, LowByte(x);
      DivideBelow(x, Pow256(n - 1));
      ValueOfBigEndian(q, n - 1);
      ValueAppend(BigEndian(q, n - 1), b);
    }
  }

  /** Appending a byte shifts the value up by one byte. */
  lemma ValueAppend(s: seq<byte>, b: byte)
    ensures Value(s + [b]) == Value(s) * 256 + b as nat
  {
    assert (s + [b])[..|s|] == s;
  }

  /** A number below 256 * m has a quotient by 256 below m. */
  lemma DivideBelow(x: nat, m: nat)
    requires x < 256 * m
    ensures x / 256 < m
  {
  }

  /** Distinct numbers below 256^n have distinct n-byte encodings. */
  lemma BigEndianInjective(x: nat, y: nat, n: nat)
    requires x < Pow256(n) && y < Pow256(n)
    requires BigEndian(x, n) == BigEndian(y, n)
    ensures x == y
  {
    ValueOfBigEndian(x, n);
    ValueOfBigEndian(y, n);
  }

  /** `u32::from_be_bytes`: four bytes, most significant first, packed into a word. */
  function Pack(b0: byte, b1: byte, b2: byte, b3: byte): word
  {
    (b0 as word << 24) | (b1 as word << 16) | (b2 as word << 8) | b3 as word
  }

  /** `u32::to_be_bytes`: the four bytes of a word, most significant first. */
  function Unpack(w: word): (r: seq<byte>)
    ensures |r| == 4
    ensures Pack(r[0], r[1], r[2], r[3]) == w
  {
    [(w >> 24) as byte, ((w >> 16) & 0xFF) as byte, ((w >> 8) & 0xFF) as byte, (w & 0xFF) as byte]
  }

  /** Packing then unpacking gives the four bytes back. */
  lemma UnpackPack(b0: byte, b1: byte, b2: byte, b3: byte)
    ensures Unpack(Pack(b0, b1, b2, b3)) == [b0, b1, b2, b3]
  {
  }
}
