/** SHA-1 as src/crypt.rs evidently intends it and as the HMAC layer of
    src/totp.rs relies on: every message is padded, zero-filling stops at 56
    modulo 64, and each block's registers are added back into the running
    state. Schedule, round function and constants are those of module Crypt. */
module Sha1 {
  import opened Bytes
  import opened Crypt

  /** Standard padding: the message, 0x80, zeros until the length is 56
      modulo 64, then the 8-byte big-endian bit length. */
  function Pad(m: seq<byte>): (p: seq<byte>)
    ensures |p| % 64 == 0
    ensures |m| + 9 <= |p| < |m| + 73
  {
    PadLength(|m|);
    m + [0x80] + Zeros((55 - |m|) % 64) + BigEndian(|m| * 8, 8)
  }

  /** The zero fill makes message, marker, fill and length field a multiple of 64. */
  lemma PadLength(n: nat)
    ensures (n + 9 + (55 - n) % 64) % 64 == 0
  {
    var q, r := (55 - n) / 64, (55 - n) % 64;
    assert 55 - n == 64 * q + r;
    assert n + 9 + r == 64 * (1 - q);
  }

  /** Where the message, the marker and the length field sit in the padding. */
  lemma PadShape(m: seq<byte>)
    ensures var p := Pad(m);
      && p[..|m|] == m
      && p[|m|] == 0x80
      && (forall i :: |m| < i < |p| - 8 ==> p[i] == 0)
      && p[|p| - 8..] == BigEndian(|m| * 8, 8)
  {
  }

  /** Padding is injective for messages whose bit length fits 64 bits: the
      length field fixes the length, and the prefix fixes the bytes. */
  lemma PadInjective(m1: seq<byte>, m2: seq<byte>)
    requires |m1| < 0x2000_0000_0000_0000 && |m2| < 0x2000_0000_0000_0000
    requires Pad(m1) == Pad(m2)
    ensures m1 == m2
  {
    PadShape(m1);
    PadShape(m2);
    var p := Pad(m1);
    assert Pow256(8) == 0x1_0000_0000_0000_0000;
    BigEndianInjective(|m1| * 8, |m2| * 8, 8);
    assert m1 == p[..|m1|] == p[..|m2|] == m2;
  }

  /** The running state after each block: the block's 80 rounds start from
      the state, and their registers are added back into it. */
  function Chain(h: Regs, blocks: seq<Block>): Regs
    requires WellFormed(blocks)
  {
    if blocks == [] then h
    else
      var prev := Chain(h, blocks[..|blocks| - 1]);
      Add(prev, Compress(prev, Schedule(blocks[|blocks| - 1].words), 80))
  }

  /** The SHA-1 digest of a message: 20 bytes. */
  function Digest(m: seq<byte>): (d: seq<byte>)
    ensures |d| == 20
  {
    Serialize(Chain(IV, Split(Pad(m))))
  }

  /** On messages of 1 to 55 bytes the code as written computes this digest:
      both paddings coincide, there is one block, and `H` added once after
      it is exactly the feed-forward of that single block. */
  lemma AgreesWithCryptOnOneBlock(m: seq<byte>)
    requires 1 <= |m| <= 55
    ensures Splittable(|m|) && Digest(m) == DigestOf(m)
  {
    ShortMessagesPadToOneBlock(|m|);
    PadAgrees(m);
    var blocks := Split(Pad(m));
    assert |blocks| == 1;
    OneBlock(IV, blocks);
  }

  /** Below 56 bytes both paddings produce the same 64 bytes. */
  lemma PadAgrees(m: seq<byte>)
    requires 1 <= |m| <= 55
    ensures Pad(m) == Padded(m)
  {
    FillAgrees(|m|);
    assert |m| % 64 != 0;
  }

  lemma FillAgrees(n: nat)
    requires 1 <= n <= 55
    ensures FillLength(n) == (55 - n) % 64
  {
    if n < 55 {
      assert (n + 1) % 56 == n + 1;
    }
  }

  /** Over one block, the chained state is the start plus the registers the
      block's rounds leave, which are also what Run leaves. */
  lemma OneBlock(h: Regs, blocks: seq<Block>)
    requires |blocks| == 1 && WellFormed(blocks)
    ensures Chain(h, blocks) == Add(h, Run(h, blocks))
  {
    assert blocks[..0] == [];
  }

  /** Every message yields at least one block, also the empty one. */
  lemma EveryMessageHasABlock(m: seq<byte>)
    ensures |Split(Pad(m))| == |Pad(m)| / 64 >= 1
  {
  }
}
