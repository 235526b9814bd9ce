/** Known answers: the test vectors of src/crypt.rs and src/totp.rs, and
    the HOTP and TOTP vectors of RFC 4226 (appendix D) and RFC 6238
    (appendix B), proved about the model. Each padded input is pinned
    down 16 bytes at a time (...Input, ...Bytes), split into words
    (...Block), expanded (...Schedule) and run 20 rounds at a time
    (...Rounds) through literal intermediate registers. */
module KnownAnswers {
  import opened Bytes
  import opened Crypt
  import Sha1
  import opened Otp

  /** "abcde". */
  const Abcde: seq<byte> := [0x61, 0x62, 0x63, 0x64, 0x65]

  /** "apple". */
  const Apple: seq<byte> := [0x61, 0x70, 0x70, 0x6C, 0x65]

  /** Key twenty bytes 0x0B. */
  const HiThereKey: seq<byte> := [0x0B, 0x0B, 0x0B, 0x0B, 0x0B, 0x0B, 0x0B, 0x0B, 0x0B, 0x0B, 0x0B, 0x0B, 0x0B, 0x0B, 0x0B, 0x0B, 0x0B, 0x0B, 0x0B, 0x0B]

  /** Message "Hi There". */
  const HiThereMessage: seq<byte> := [0x48, 0x69, 0x20, 0x54, 0x68, 0x65, 0x72, 0x65]

  /** Key "Jefe". */
  const JefeKey: seq<byte> := [0x4A, 0x65, 0x66, 0x65]

  /** Message "what do ya want for nothing?". */
  const JefeMessage: seq<byte> := [0x77, 0x68, 0x61, 0x74, 0x20, 0x64, 0x6F, 0x20, 0x79, 0x61, 0x20, 0x77, 0x61, 0x6E, 0x74, 0x20, 0x66, 0x6F, 0x72, 0x20, 0x6E, 0x6F, 0x74, 0x68, 0x69, 0x6E, 0x67, 0x3F]

  /** Step counters 0 and 1 as eight big-endian bytes. */
  const CounterZero: seq<byte> := [0x00, 0x00, 0x00, 0x00, 0x00, 0x00, 0x00, 0x00]
  const CounterOne: seq<byte> := [0x00, 0x00, 0x00, 0x00, 0x00, 0x00, 0x00, 0x01]

  /** The RFC 4226 secret "12345678901234567890". */
  const RfcKey: seq<byte> := [0x31, 0x32, 0x33, 0x34, 0x35, 0x36, 0x37, 0x38, 0x39, 0x30, 0x31, 0x32, 0x33, 0x34, 0x35, 0x36, 0x37, 0x38, 0x39, 0x30]

  // ---------------------------------------------------------------- helpers

  lemma {:induction false} BigEndianOfZero(n: nat)
    ensures BigEndian(0, n) == Zeros(n)
  {
    if n > 0 {
      BigEndianOfZero(n - 1);
      assert (0 % 256) as byte == 0;
    }
  }

  /** A counter below 256 as eight big-endian bytes. */
  lemma SmallCounter(c: nat)
    requires c < 256
    ensures BigEndian(c, 8) == Zeros(7) + [c as byte]
  {
    BigEndianOfZero(7);
    assert c / 256 == 0 && c % 256 == c;
  }

  /** The length of an HMAC input: 64 key bytes, then the tail. */
  lemma HmacInputLength(key: seq<byte>, tail: seq<byte>)
    ensures |InnerInput(key, tail)| == |OuterInput(key, tail)| == KeyLength + |tail|
  {
  }

  /** A key of at most 64 bytes starts its normalised form. */
  lemma NormalizeKeyPrefix(key: seq<byte>)
    requires |key| <= KeyLength
    ensures forall i :: 0 <= i < |key| ==> NormalizeKey(key)[i] == key[i]
  {
    var k := NormalizeKey(key);
    forall i | 0 <= i < |key|
      ensures k[i] == key[i]
    {
      assert k[..|key|][i] == k[i];
    }
  }

  /** One block: the chain is one compression added to the start. */
  lemma ChainOne(h: Regs, blocks: seq<Block>)
    requires |blocks| == 1 && WellFormed(blocks)
    ensures Sha1.Chain(h, blocks) == Add(h, Compress(h, Schedule(blocks[0].words), 80))
  {
    assert blocks[..0] == [];
  }

  /** Two blocks: the second compression starts from the first one's sum. */
  lemma ChainTwo(h: Regs, blocks: seq<Block>)
    requires |blocks| == 2 && WellFormed(blocks)
    ensures var h1 := Add(h, Compress(h, Schedule(blocks[0].words), 80));
      Sha1.Chain(h, blocks) == Add(h1, Compress(h1, Schedule(blocks[1].words), 80))
  {
    assert blocks[..1] == [blocks[0]];
    ChainOne(h, blocks[..1]);
  }

  // ----------------------------------------------------- src/crypt.rs tests

  lemma AbcdeLength()
    ensures |Padded(Abcde)| == 64
  {
  }

  lemma AbcdeBytes0(p: seq<byte>)
    requires p == Padded(Abcde)
    ensures |p| == 64
    ensures p[0] == 0x61 && p[1] == 0x62 && p[2] == 0x63 && p[3] == 0x64 &&
      p[4] == 0x65 && p[5] == 0x80 && p[6] == 0x00 && p[7] == 0x00 &&
      p[8] == 0x00 && p[9] == 0x00 && p[10] == 0x00 && p[11] == 0x00 &&
      p[12] == 0x00 && p[13] == 0x00 && p[14] == 0x00 && p[15] == 0x00
  {
    var m := Abcde;
    AbcdeLength();
    PaddedShape(m);
    assert p[0] == p[..5][0];
    assert p[1] == p[..5][1];
    assert p[2] == p[..5][2];
    assert p[3] == p[..5][3];
    assert p[4] == p[..5][4];
  }

  lemma AbcdeBytes1(p: seq<byte>)
    requires p == Padded(Abcde)
    ensures |p| == 64
    ensures p[16] == 0x00 && p[17] == 0x00 && p[18] == 0x00 && p[19] == 0x00 &&
      p[20] == 0x00 && p[21] == 0x00 && p[22] == 0x00 && p[23] == 0x00 &&
      p[24] == 0x00 && p[25] == 0x00 && p[26] == 0x00 && p[27] == 0x00 &&
      p[28] == 0x00 && p[29] == 0x00 && p[30] == 0x00 && p[31] == 0x00
  {
    var m := Abcde;
    AbcdeLength();
    PaddedShape(m);
  }

  lemma AbcdeBytes2(p: seq<byte>)
    requires p == Padded(Abcde)
    ensures |p| == 64
    ensures p[32] == 0x00 && p[33] == 0x00 && p[34] == 0x00 && p[35] == 0x00 &&
      p[36] == 0x00 && p[37] == 0x00 && p[38] == 0x00 && p[39] == 0x00 &&
      p[40] == 0x00 && p[41] == 0x00 && p[42] == 0x00 && p[43] == 0x00 &&
      p[44] == 0x00 && p[45] == 0x00 && p[46] == 0x00 && p[47] == 0x00
  {
    var m := Abcde;
    AbcdeLength();
    PaddedShape(m);
  }

  lemma AbcdeBytes3(p: seq<byte>)
    requires p == Padded(Abcde)
    ensures |p| == 64
    ensures p[48] == 0x00 && p[49] == 0x00 && p[50] == 0x00 && p[51] == 0x00 &&
      p[52] == 0x00 && p[53] == 0x00 && p[54] == 0x00 && p[55] == 0x00 &&
      p[56] == 0x00 && p[57] == 0x00 && p[58] == 0x00 && p[59] == 0x00 &&
      p[60] == 0x00 && p[61] == 0x00 && p[62] == 0x00 && p[63] == 0x28
  {
    var m := Abcde;
    AbcdeLength();
    PaddedShape(m);
    LengthField28();
    assert p[56] == p[56..][0];
    assert p[57] == p[56..][1];
    assert p[58] == p[56..][2];
    assert p[59] == p[56..][3];
    assert p[60] == p[56..][4];
    assert p[61] == p[56..][5];
    assert p[62] == p[56..][6];
    assert p[63] == p[56..][7];
  }

  lemma AbcdeWords0(p: seq<byte>)
    requires |p| == 64
    requires p[0] == 0x61 && p[1] == 0x62 && p[2] == 0x63 && p[3] == 0x64 &&
      p[4] == 0x65 && p[5] == 0x80 && p[6] == 0x00 && p[7] == 0x00 &&
      p[8] == 0x00 && p[9] == 0x00 && p[10] == 0x00 && p[11] == 0x00 &&
      p[12] == 0x00 && p[13] == 0x00 && p[14] == 0x00 && p[15] == 0x00
    ensures var b := Split(p)[0].words;
      b[0] == 0x61626364 && b[1] == 0x65800000 && b[2] == 0x00000000 && b[3] == 0x00000000
  {
    SplitWords(p, 0, 0);
    SplitWords(p, 0, 1);
    SplitWords(p, 0, 2);
    SplitWords(p, 0, 3);
  }

  lemma AbcdeWords1(p: seq<byte>)
    requires |p| == 64
    requires p[16] == 0x00 && p[17] == 0x00 && p[18] == 0x00 && p[19] == 0x00 &&
      p[20] == 0x00 && p[21] == 0x00 && p[22] == 0x00 && p[23] == 0x00 &&
      p[24] == 0x00 && p[25] == 0x00 && p[26] == 0x00 && p[27] == 0x00 &&
      p[28] == 0x00 && p[29] == 0x00 && p[30] == 0x00 && p[31] == 0x00
    ensures var b := Split(p)[0].words;
      b[4] == 0x00000000 && b[5] == 0x00000000 && b[6] == 0x00000000 && b[7] == 0x00000000
  {
    SplitWords(p, 0, 4);
    SplitWords(p, 0, 5);
    SplitWords(p, 0, 6);
    SplitWords(p, 0, 7);
  }

  lemma AbcdeWords2(p: seq<byte>)
    requires |p| == 64
    requires p[32] == 0x00 && p[33] == 0x00 && p[34] == 0x00 && p[35] == 0x00 &&
      p[36] == 0x00 && p[37] == 0x00 && p[38] == 0x00 && p[39] == 0x00 &&
      p[40] == 0x00 && p[41] == 0x00 && p[42] == 0x00 && p[43] == 0x00 &&
      p[44] == 0x00 && p[45] == 0x00 && p[46] == 0x00 && p[47] == 0x00
    ensures var b := Split(p)[0].words;
      b[8] == 0x00000000 && b[9] == 0x00000000 && b[10] == 0x00000000 && b[11] == 0x00000000
  {
    SplitWords(p, 0, 8);
    SplitWords(p, 0, 9);
    SplitWords(p, 0, 10);
    SplitWords(p, 0, 11);
  }

  lemma AbcdeWords3(p: seq<byte>)
    requires |p| == 64
    requires p[48] == 0x00 && p[49] == 0x00 && p[50] == 0x00 && p[51] == 0x00 &&
      p[52] == 0x00 && p[53] == 0x00 && p[54] == 0x00 && p[55] == 0x00 &&
      p[56] == 0x00 && p[57] == 0x00 && p[58] == 0x00 && p[59] == 0x00 &&
      p[60] == 0x00 && p[61] == 0x00 && p[62] == 0x00 && p[63] == 0x28
    ensures var b := Split(p)[0].words;
      b[12] == 0x00000000 && b[13] == 0x00000000 && b[14] == 0x00000000 && b[15] == 0x00000028
  {
    SplitWords(p, 0, 12);
    SplitWords(p, 0, 13);
    SplitWords(p, 0, 14);
    SplitWords(p, 0, 15);
  }

  lemma AbcdeBlock0(p: seq<byte>)
    requires p == Padded(Abcde)
    requires |p| == 64
    ensures var b := Split(p)[0].words;
      b[0] == 0x61626364 && b[1] == 0x65800000 && b[2] == 0x00000000 && b[3] == 0x00000000 &&
      b[4] == 0x00000000 && b[5] == 0x00000000 && b[6] == 0x00000000 && b[7] == 0x00000000 &&
      b[8] == 0x00000000 && b[9] == 0x00000000 && b[10] == 0x00000000 && b[11] == 0x00000000 &&
      b[12] == 0x00000000 && b[13] == 0x00000000 && b[14] == 0x00000000 && b[15] == 0x00000028
  {
    AbcdeBytes0(p);
    AbcdeWords0(p);
    AbcdeBytes1(p);
    AbcdeWords1(p);
    AbcdeBytes2(p);
    AbcdeWords2(p);
    AbcdeBytes3(p);
    AbcdeWords3(p);
  }

  /** `Block::new("abcde")` gives one block: 0x61626364, 0x65800000,
      thirteen zero words, then the bit length 0x28. */
  lemma AbcdeBlock()
    ensures Splittable(|Abcde|)
    ensures var b := Blocks(Abcde);
      && |b| == 1 && b[0].words[0] == 0x6162_6364 && b[0].words[1] == 0x6580_0000
      && (forall j :: 2 <= j < 15 ==> b[0].words[j] == 0) && b[0].words[15] == 0x28
  {
    ShortMessagesPadToOneBlock(|Abcde|);
    var p := Padded(Abcde);
    AbcdeLength();
    AbcdeBlock0(p);
    var b := Split(p);
    assert Blocks(Abcde) == b;
    forall j | 2 <= j < 15
      ensures b[0].words[j] == 0
    {
      assert j in {2, 3, 4, 5, 6, 7, 8, 9, 10, 11, 12, 13, 14};
    }
  }

  lemma AppleLength()
    ensures |Padded(Apple)| == 64
  {
  }

  lemma AppleBytes0(p: seq<byte>)
    requires p == Padded(Apple)
    ensures |p| == 64
    ensures p[0] == 0x61 && p[1] == 0x70 && p[2] == 0x70 && p[3] == 0x6C &&
      p[4] == 0x65 && p[5] == 0x80 && p[6] == 0x00 && p[7] == 0x00 &&
      p[8] == 0x00 && p[9] == 0x00 && p[10] == 0x00 && p[11] == 0x00 &&
      p[12] == 0x00 && p[13] == 0x00 && p[14] == 0x00 && p[15] == 0x00
  {
    var m := Apple;
    AppleLength();
    PaddedShape(m);
    assert p[0] == p[..5][0];
    assert p[1] == p[..5][1];
    assert p[2] == p[..5][2];
    assert p[3] == p[..5][3];
    assert p[4] == p[..5][4];
  }

  lemma AppleBytes1(p: seq<byte>)
    requires p == Padded(Apple)
    ensures |p| == 64
    ensures p[16] == 0x00 && p[17] == 0x00 && p[18] == 0x00 && p[19] == 0x00 &&
      p[20] == 0x00 && p[21] == 0x00 && p[22] == 0x00 && p[23] == 0x00 &&
      p[24] == 0x00 && p[25] == 0x00 && p[26] == 0x00 && p[27] == 0x00 &&
      p[28] == 0x00 && p[29] == 0x00 && p[30] == 0x00 && p[31] == 0x00
  {
    var m := Apple;
    AppleLength();
    PaddedShape(m);
  }

  lemma AppleBytes2(p: seq<byte>)
    requires p == Padded(Apple)
    ensures |p| == 64
    ensures p[32] == 0x00 && p[33] == 0x00 && p[34] == 0x00 && p[35] == 0x00 &&
      p[36] == 0x00 && p[37] == 0x00 && p[38] == 0x00 && p[39] == 0x00 &&
      p[40] == 0x00 && p[41] == 0x00 && p[42] == 0x00 && p[43] == 0x00 &&
      p[44] == 0x00 && p[45] == 0x00 && p[46] == 0x00 && p[47] == 0x00
  {
    var m := Apple;
    AppleLength();
    PaddedShape(m);
  }

  lemma AppleBytes3(p: seq<byte>)
    requires p == Padded(Apple)
    ensures |p| == 64
    ensures p[48] == 0x00 && p[49] == 0x00 && p[50] == 0x00 && p[51] == 0x00 &&
      p[52] == 0x00 && p[53] == 0x00 && p[54] == 0x00 && p[55] == 0x00 &&
      p[56] == 0x00 && p[57] == 0x00 && p[58] == 0x00 && p[59] == 0x00 &&
      p[60] == 0x00 && p[61] == 0x00 && p[62] == 0x00 && p[63] == 0x28
  {
    var m := Apple;
    AppleLength();
    PaddedShape(m);
    LengthField28();
    assert p[56] == p[56..][0];
    assert p[57] == p[56..][1];
    assert p[58] == p[56..][2];
    assert p[59] == p[56..][3];
    assert p[60] == p[56..][4];
    assert p[61] == p[56..][5];
    assert p[62] == p[56..][6];
    assert p[63] == p[56..][7];
  }

  lemma AppleWords0(p: seq<byte>)
    requires |p| == 64
    requires p[0] == 0x61 && p[1] == 0x70 && p[2] == 0x70 && p[3] == 0x6C &&
      p[4] == 0x65 && p[5] == 0x80 && p[6] == 0x00 && p[7] == 0x00 &&
      p[8] == 0x00 && p[9] == 0x00 && p[10] == 0x00 && p[11] == 0x00 &&
      p[12] == 0x00 && p[13] == 0x00 && p[14] == 0x00 && p[15] == 0x00
    ensures var b := Split(p)[0].words;
      b[0] == 0x6170706C && b[1] == 0x65800000 && b[2] == 0x00000000 && b[3] == 0x00000000
  {
    SplitWords(p, 0, 0);
    SplitWords(p, 0, 1);
    SplitWords(p, 0, 2);
    SplitWords(p, 0, 3);
  }

  lemma AppleWords1(p: seq<byte>)
    requires |p| == 64
    requires p[16] == 0x00 && p[17] == 0x00 && p[18] == 0x00 && p[19] == 0x00 &&
      p[20] == 0x00 && p[21] == 0x00 && p[22] == 0x00 && p[23] == 0x00 &&
      p[24] == 0x00 && p[25] == 0x00 && p[26] == 0x00 && p[27] == 0x00 &&
      p[28] == 0x00 && p[29] == 0x00 && p[30] == 0x00 && p[31] == 0x00
    ensures var b := Split(p)[0].words;
      b[4] == 0x00000000 && b[5] == 0x00000000 && b[6] == 0x00000000 && b[7] == 0x00000000
  {
    SplitWords(p, 0, 4);
    SplitWords(p, 0, 5);
    SplitWords(p, 0, 6);
    SplitWords(p, 0, 7);
  }

  lemma AppleWords2(p: seq<byte>)
    requires |p| == 64
    requires p[32] == 0x00 && p[33] == 0x00 && p[34] == 0x00 && p[35] == 0x00 &&
      p[36] == 0x00 && p[37] == 0x00 && p[38] == 0x00 && p[39] == 0x00 &&
      p[40] == 0x00 && p[41] == 0x00 && p[42] == 0x00 && p[43] == 0x00 &&
      p[44] == 0x00 && p[45] == 0x00 && p[46] == 0x00 && p[47] == 0x00
    ensures var b := Split(p)[0].words;
      b[8] == 0x00000000 && b[9] == 0x00000000 && b[10] == 0x00000000 && b[11] == 0x00000000
  {
    SplitWords(p, 0, 8);
    SplitWords(p, 0, 9);
    SplitWords(p, 0, 10);
    SplitWords(p, 0, 11);
  }

  lemma AppleWords3(p: seq<byte>)
    requires |p| == 64
    requires p[48] == 0x00 && p[49] == 0x00 && p[50] == 0x00 && p[51] == 0x00 &&
      p[52] == 0x00 && p[53] == 0x00 && p[54] == 0x00 && p[55] == 0x00 &&
      p[56] == 0x00 && p[57] == 0x00 && p[58] == 0x00 && p[59] == 0x00 &&
      p[60] == 0x00 && p[61] == 0x00 && p[62] == 0x00 && p[63] == 0x28
    ensures var b := Split(p)[0].words;
      b[12] == 0x00000000 && b[13] == 0x00000000 && b[14] == 0x00000000 && b[15] == 0x00000028
  {
    SplitWords(p, 0, 12);
    SplitWords(p, 0, 13);
    SplitWords(p, 0, 14);
    SplitWords(p, 0, 15);
  }

  lemma AppleBlock0(p: seq<byte>)
    requires p == Padded(Apple)
    requires |p| == 64
    ensures var b := Split(p)[0].words;
      b[0] == 0x6170706C && b[1] == 0x65800000 && b[2] == 0x00000000 && b[3] == 0x00000000 &&
      b[4] == 0x00000000 && b[5] == 0x00000000 && b[6] == 0x00000000 && b[7] == 0x00000000 &&
      b[8] == 0x00000000 && b[9] == 0x00000000 && b[10] == 0x00000000 && b[11] == 0x00000000 &&
      b[12] == 0x00000000 && b[13] == 0x00000000 && b[14] == 0x00000000 && b[15] == 0x00000028
  {
    AppleBytes0(p);
    AppleWords0(p);
    AppleBytes1(p);
    AppleWords1(p);
    AppleBytes2(p);
    AppleWords2(p);
    AppleBytes3(p);
    AppleWords3(p);
  }

  lemma Apple0Schedule0(w: seq<word>)
    requires |w| == 80 && forall i :: 16 <= i < 80 ==> Follows(w, i)
    requires w[0] == 0x6170706C && w[1] == 0x65800000 && w[2] == 0x00000000 && w[3] == 0x00000000 &&
      w[4] == 0x00000000 && w[5] == 0x00000000 && w[6] == 0x00000000 && w[7] == 0x00000000 &&
      w[8] == 0x00000000 && w[9] == 0x00000000 && w[10] == 0x00000000 && w[11] == 0x00000000 &&
      w[12] == 0x00000000 && w[13] == 0x00000000 && w[14] == 0x00000000 && w[15] == 0x00000028
    ensures w[16] == 0xC2E0E0D8 && w[17] == 0xCB000000 && w[18] == 0x00000050 && w[19] == 0x85C1C1B1 &&
      w[20] == 0x96000001 && w[21] == 0x000000A0 && w[22] == 0x0B838363 && w[23] == 0x2C000053 &&
      w[24] == 0x85C1C0F1 && w[25] == 0x810706C7 && w[26] == 0x58000006 && w[27] == 0x00000280 &&
      w[28] == 0x2E0E0D8C && w[29] == 0xB000011C && w[30] == 0x92C6C277 && w[31] == 0x921C1BEF
  {
    assert Follows(w, 16);
    assert Follows(w, 17);
    assert Follows(w, 18);
    assert Follows(w, 19);
    assert Follows(w, 20);
    assert Follows(w, 21);
    assert Follows(w, 22);
    assert Follows(w, 23);
    assert Follows(w, 24);
    assert Follows(w, 25);
    assert Follows(w, 26);
    assert Follows(w, 27);
    assert Follows(w, 28);
    assert Follows(w, 29);
    assert Follows(w, 30);
    assert Follows(w, 31);
  }

  lemma Apple0Schedule1(w: seq<word>)
    requires |w| == 80 && forall i :: 16 <= i < 80 ==> Follows(w, i)
    requires w[16] == 0xC2E0E0D8 && w[17] == 0xCB000000 && w[18] == 0x00000050 && w[19] == 0x85C1C1B1 &&
      w[20] == 0x96000001 && w[21] == 0x000000A0 && w[22] == 0x0B838363 && w[23] == 0x2C000053 &&
      w[24] == 0x85C1C0F1 && w[25] == 0x810706C7 && w[26] == 0x58000006 && w[27] == 0x00000280 &&
      w[28] == 0x2E0E0D8C && w[29] == 0xB000011C && w[30] == 0x92C6C277 && w[31] == 0x921C1BEF
    ensures w[32] == 0xEE4242CB && w[33] == 0xBA000A02 && w[34] == 0xB8383770 && w[35] == 0xD70702B4 &&
      w[36] == 0x131B09D8 && w[37] == 0x48706D3E && w[38] == 0x970706A3 && w[39] == 0x58002946 &&
      w[40] == 0xF7E7DE04 && w[41] == 0x580011CD && w[42] == 0x2C6C2779 && w[43] == 0x21C1BE59 &&
      w[44] == 0xEFA7AFDD && w[45] == 0x8C00A168 && w[46] == 0x9484708D && w[47] == 0x3F772EED
  {
    assert Follows(w, 32);
    assert Follows(w, 33);
    assert Follows(w, 34);
    assert Follows(w, 35);
    assert Follows(w, 36);
    assert Follows(w, 37);
    assert Follows(w, 38);
    assert Follows(w, 39);
    assert Follows(w, 40);
    assert Follows(w, 41);
    assert Follows(w, 42);
    assert Follows(w, 43);
    assert Follows(w, 44);
    assert Follows(w, 45);
    assert Follows(w, 46);
    assert Follows(w, 47);
  }

  lemma Apple0Schedule2(w: seq<word>)
    requires |w| == 80 && forall i :: 16 <= i < 80 ==> Follows(w, i)
    requires w[32] == 0xEE4242CB && w[33] == 0xBA000A02 && w[34] == 0xB8383770 && w[35] == 0xD70702B4 &&
      w[36] == 0x131B09D8 && w[37] == 0x48706D3E && w[38] == 0x970706A3 && w[39] == 0x58002946 &&
      w[40] == 0xF7E7DE04 && w[41] == 0x580011CD && w[42] == 0x2C6C2779 && w[43] == 0x21C1BE59 &&
      w[44] == 0xEFA7AFDD && w[45] == 0x8C00A168 && w[46] == 0x9484708D && w[47] == 0x3F772EED
    ensures w[48] == 0x5B3A15AE && w[49] == 0x4306D3ED && w[50] == 0x70706E79 && w[51] == 0xCB1988FB &&
      w[52] == 0x517AE696 && w[53] == 0xD80116D3 && w[54] == 0x7EFA41A2 && w[55] == 0xDC1BE1E0 &&
      w[56] == 0xB161F400 && w[57] == 0x887A7BB6 && w[58] == 0xDF400E7A && w[59] == 0xAF72C795 &&
      w[60] == 0x444684E1 && w[61] == 0x686D2E59 && w[62] == 0x3C6DC628 && w[63] == 0xC8593003
  {
    assert Follows(w, 48);
    assert Follows(w, 49);
    assert Follows(w, 50);
    assert Follows(w, 51);
    assert Follows(w, 52);
    assert Follows(w, 53);
    assert Follows(w, 54);
    assert Follows(w, 55);
    assert Follows(w, 56);
    assert Follows(w, 57);
    assert Follows(w, 58);
    assert Follows(w, 59);
    assert Follows(w, 60);
    assert Follows(w, 61);
    assert Follows(w, 62);
    assert Follows(w, 63);
  }

  lemma Apple0Schedule3(w: seq<word>)
    requires |w| == 80 && forall i :: 16 <= i < 80 ==> Follows(w, i)
    requires w[48] == 0x5B3A15AE && w[49] == 0x4306D3ED && w[50] == 0x70706E79 && w[51] == 0xCB1988FB &&
      w[52] == 0x517AE696 && w[53] == 0xD80116D3 && w[54] == 0x7EFA41A2 && w[55] == 0xDC1BE1E0 &&
      w[56] == 0xB161F400 && w[57] == 0x887A7BB6 && w[58] == 0xDF400E7A && w[59] == 0xAF72C795 &&
      w[60] == 0x444684E1 && w[61] == 0x686D2E59 && w[62] == 0x3C6DC628 && w[63] == 0xC8593003
    ensures w[64] == 0xE48D431D && w[65] == 0x7811CD10 && w[66] == 0x6C276D2C && w[67] == 0xB1CE3540 &&
      w[68] == 0x27AFDD8A && w[69] == 0x00A1688C && w[70] == 0x84708D94 && w[71] == 0x772EEFBF &&
      w[72] == 0x141BA3D7 && w[73] == 0xB6D3F94F && w[74] == 0x001E1011 && w[75] == 0xC594FEB6 &&
      w[76] == 0xD2AECC19 && w[77] == 0x4116CD8F && w[78] == 0x3209EC2F && w[79] == 0x2B91BD6A
  {
    assert Follows(w, 64);
    assert Follows(w, 65);
    assert Follows(w, 66);
    assert Follows(w, 67);
    assert Follows(w, 68);
    assert Follows(w, 69);
    assert Follows(w, 70);
    assert Follows(w, 71);
    assert Follows(w, 72);
    assert Follows(w, 73);
    assert Follows(w, 74);
    assert Follows(w, 75);
    assert Follows(w, 76);
    assert Follows(w, 77);
    assert Follows(w, 78);
    assert Follows(w, 79);
  }

  lemma Apple0Rounds0(w: seq<word>)
    requires |w| == 80
    requires w[0] == 0x6170706C && w[1] == 0x65800000 && w[2] == 0x00000000 && w[3] == 0x00000000 &&
      w[4] == 0x00000000 && w[5] == 0x00000000 && w[6] == 0x00000000 && w[7] == 0x00000000 &&
      w[8] == 0x00000000 && w[9] == 0x00000000 && w[10] == 0x00000000 && w[11] == 0x00000000 &&
      w[12] == 0x00000000 && w[13] == 0x00000000 && w[14] == 0x00000000 && w[15] == 0x00000028 &&
      w[16] == 0xC2E0E0D8 && w[17] == 0xCB000000 && w[18] == 0x00000050 && w[19] == 0x85C1C1B1
    requires Compress(IV, w, 0) == Regs(0x67452301, 0xEFCDAB89, 0x98BADCFE, 0x10325476, 0xC3D2E1F0)
    ensures Compress(IV, w, 20) == Regs(0x5FDEDCFB, 0x5CCB2307, 0x084575AA, 0x3B7BF548, 0xB628AF27)
  {
    assert Round(Regs(0x67452301, 0xEFCDAB89, 0x98BADCFE, 0x10325476, 0xC3D2E1F0), 0x6170706C, 0) == Regs(0x0125091F, 0x67452301, 0x7BF36AE2, 0x98BADCFE, 0x10325476);
    assert Compress(IV, w, 1) == Regs(0x0125091F, 0x67452301, 0x7BF36AE2, 0x98BADCFE, 0x10325476);
    assert Round(Regs(0x0125091F, 0x67452301, 0x7BF36AE2, 0x98BADCFE, 0x10325476), 0x65800000, 1) == Regs(0xF0D1F0ED, 0x0125091F, 0x59D148C0, 0x7BF36AE2, 0x98BADCFE);
    assert Compress(IV, w, 2) == Regs(0xF0D1F0ED, 0x0125091F, 0x59D148C0, 0x7BF36AE2, 0x98BADCFE);
    assert Round(Regs(0xF0D1F0ED, 0x0125091F, 0x59D148C0, 0x7BF36AE2, 0x98BADCFE), 0x00000000, 2) == Regs(0x894EDF35, 0xF0D1F0ED, 0xC0494247, 0x59D148C0, 0x7BF36AE2);
    assert Compress(IV, w, 3) == Regs(0x894EDF35, 0xF0D1F0ED, 0xC0494247, 0x59D148C0, 0x7BF36AE2);
    assert Round(Regs(0x894EDF35, 0xF0D1F0ED, 0xC0494247, 0x59D148C0, 0x7BF36AE2), 0x00000000, 3) == Regs(0xC9931371, 0x894EDF35, 0x7C347C3B, 0xC0494247, 0x59D148C0);
    assert Compress(IV, w, 4) == Regs(0xC9931371, 0x894EDF35, 0x7C347C3B, 0xC0494247, 0x59D148C0);
    assert Round(Regs(0xC9931371, 0x894EDF35, 0x7C347C3B, 0xC0494247, 0x59D148C0), 0x00000000, 4) == Regs(0x2EBB8D05, 0xC9931371, 0x6253B7CD, 0x7C347C3B, 0xC0494247);
    assert Compress(IV, w, 5) == Regs(0x2EBB8D05, 0xC9931371, 0x6253B7CD, 0x7C347C3B, 0xC0494247);
    assert Round(Regs(0x2EBB8D05, 0xC9931371, 0x6253B7CD, 0x7C347C3B, 0xC0494247), 0x00000000, 5) == Regs(0x6674DBD0, 0x2EBB8D05, 0x7264C4DC, 0x6253B7CD, 0x7C347C3B);
    assert Compress(IV, w, 6) == Regs(0x6674DBD0, 0x2EBB8D05, 0x7264C4DC, 0x6253B7CD, 0x7C347C3B);
    assert Round(Regs(0x6674DBD0, 0x2EBB8D05, 0x7264C4DC, 0x6253B7CD, 0x7C347C3B), 0x00000000, 6) == Regs(0x07B326AC, 0x6674DBD0, 0x4BAEE341, 0x7264C4DC, 0x6253B7CD);
    assert Compress(IV, w, 7) == Regs(0x07B326AC, 0x6674DBD0, 0x4BAEE341, 0x7264C4DC, 0x6253B7CD);
    assert Round(Regs(0x07B326AC, 0x6674DBD0, 0x4BAEE341, 0x7264C4DC, 0x6253B7CD), 0x00000000, 7) == Regs(0x055FCE32, 0x07B326AC, 0x199D36F4, 0x4BAEE341, 0x7264C4DC);
    assert Compress(IV, w, 8) == Regs(0x055FCE32, 0x07B326AC, 0x199D36F4, 0x4BAEE341, 0x7264C4DC);
    assert Round(Regs(0x055FCE32, 0x07B326AC, 0x199D36F4, 0x4BAEE341, 0x7264C4DC), 0x00000000, 8) == Regs(0xC27EEC9A, 0x055FCE32, 0x01ECC9AB, 0x199D36F4, 0x4BAEE341);
    assert Compress(IV, w, 9) == Regs(0xC27EEC9A, 0x055FCE32, 0x01ECC9AB, 0x199D36F4, 0x4BAEE341);
    assert Round(Regs(0xC27EEC9A, 0x055FCE32, 0x01ECC9AB, 0x199D36F4, 0x4BAEE341), 0x00000000, 9) == Regs(0x0FDBE918, 0xC27EEC9A, 0x8157F38C, 0x01ECC9AB, 0x199D36F4);
    assert Compress(IV, w, 10) == Regs(0x0FDBE918, 0xC27EEC9A, 0x8157F38C, 0x01ECC9AB, 0x199D36F4);
    assert Round(Regs(0x0FDBE918, 0xC27EEC9A, 0x8157F38C, 0x01ECC9AB, 0x199D36F4), 0x00000000, 10) == Regs(0xF173B537, 0x0FDBE918, 0xB09FBB26, 0x8157F38C, 0x01ECC9AB);
    assert Compress(IV, w, 11) == Regs(0xF173B537, 0x0FDBE918, 0xB09FBB26, 0x8157F38C, 0x01ECC9AB);
    assert Round(Regs(0xF173B537, 0x0FDBE918, 0xB09FBB26, 0x8157F38C, 0x01ECC9AB), 0x00000000, 11) == Regs(0x0B85A5C6, 0xF173B537, 0x03F6FA46, 0xB09FBB26, 0x8157F38C);
    assert Compress(IV, w, 12) == Regs(0x0B85A5C6, 0xF173B537, 0x03F6FA46, 0xB09FBB26, 0x8157F38C);
    assert Round(Regs(0x0B85A5C6, 0xF173B537, 0x03F6FA46, 0xB09FBB26, 0x8157F38C), 0x00000000, 12) == Regs(0x4E8DDFEC, 0x0B85A5C6, 0xFC5CED4D, 0x03F6FA46, 0xB09FBB26);
    assert Compress(IV, w, 13) == Regs(0x4E8DDFEC, 0x0B85A5C6, 0xFC5CED4D, 0x03F6FA46, 0xB09FBB26);
    assert Round(Regs(0x4E8DDFEC, 0x0B85A5C6, 0xFC5CED4D, 0x03F6FA46, 0xB09FBB26), 0x00000000, 13) == Regs(0xE555318C, 0x4E8DDFEC, 0x82E16971, 0xFC5CED4D, 0x03F6FA46);
    assert Compress(IV, w, 14) == Regs(0xE555318C, 0x4E8DDFEC, 0x82E16971, 0xFC5CED4D, 0x03F6FA46);
    assert Round(Regs(0xE555318C, 0x4E8DDFEC, 0x82E16971, 0xFC5CED4D, 0x03F6FA46), 0x00000000, 14) == Regs(0xBBF10EDC, 0xE555318C, 0x13A377FB, 0x82E16971, 0xFC5CED4D);
    assert Compress(IV, w, 15) == Regs(0xBBF10EDC, 0xE555318C, 0x13A377FB, 0x82E16971, 0xFC5CED4D);
    assert Round(Regs(0xBBF10EDC, 0xE555318C, 0x13A377FB, 0x82E16971, 0xFC5CED4D), 0x00000028, 15) == Regs(0xD8A2BC9E, 0xBBF10EDC, 0x39554C63, 0x13A377FB, 0x82E16971);
    assert Compress(IV, w, 16) == Regs(0xD8A2BC9E, 0xBBF10EDC, 0x39554C63, 0x13A377FB, 0x82E16971);
    assert Round(Regs(0xD8A2BC9E, 0xBBF10EDC, 0x39554C63, 0x13A377FB, 0x82E16971), 0xC2E0E0D8, 16) == Regs(0xEDEFD520, 0xD8A2BC9E, 0x2EFC43B7, 0x39554C63, 0x13A377FB);
    assert Compress(IV, w, 17) == Regs(0xEDEFD520, 0xD8A2BC9E, 0x2EFC43B7, 0x39554C63, 0x13A377FB);
    assert Round(Regs(0xEDEFD520, 0xD8A2BC9E, 0x2EFC43B7, 0x39554C63, 0x13A377FB), 0xCB000000, 17) == Regs(0x2115D6A8, 0xEDEFD520, 0xB628AF27, 0x2EFC43B7, 0x39554C63);
    assert Compress(IV, w, 18) == Regs(0x2115D6A8, 0xEDEFD520, 0xB628AF27, 0x2EFC43B7, 0x39554C63);
    assert Round(Regs(0x2115D6A8, 0xEDEFD520, 0xB628AF27, 0x2EFC43B7, 0x39554C63), 0x00000050, 18) == Regs(0x5CCB2307, 0x2115D6A8, 0x3B7BF548, 0xB628AF27, 0x2EFC43B7);
    assert Compress(IV, w, 19) == Regs(0x5CCB2307, 0x2115D6A8, 0x3B7BF548, 0xB628AF27, 0x2EFC43B7);
    assert Round(Regs(0x5CCB2307, 0x2115D6A8, 0x3B7BF548, 0xB628AF27, 0x2EFC43B7), 0x85C1C1B1, 19) == Regs(0x5FDEDCFB, 0x5CCB2307, 0x084575AA, 0x3B7BF548, 0xB628AF27);
    assert Compress(IV, w, 20) == Regs(0x5FDEDCFB, 0x5CCB2307, 0x084575AA, 0x3B7BF548, 0xB628AF27);
  }

  lemma Apple0Rounds1(w: seq<word>)
    requires |w| == 80
    requires w[20] == 0x96000001 && w[21] == 0x000000A0 && w[22] == 0x0B838363 && w[23] == 0x2C000053 &&
      w[24] == 0x85C1C0F1 && w[25] == 0x810706C7 && w[26] == 0x58000006 && w[27] == 0x00000280 &&
      w[28] == 0x2E0E0D8C && w[29] == 0xB000011C && w[30] == 0x92C6C277 && w[31] == 0x921C1BEF &&
      w[32] == 0xEE4242CB && w[33] == 0xBA000A02 && w[34] == 0xB8383770 && w[35] == 0xD70702B4 &&
      w[36] == 0x131B09D8 && w[37] == 0x48706D3E && w[38] == 0x970706A3 && w[39] == 0x58002946
    requires Compress(IV, w, 20) == Regs(0x5FDEDCFB, 0x5CCB2307, 0x084575AA, 0x3B7BF548, 0xB628AF27)
    ensures Compress(IV, w, 40) == Regs(0x73E7C0F7, 0xC92FEBA0, 0x78C4F257, 0x92785E4B, 0xD7AA8D0D)
  {
    assert Round(Regs(0x5FDEDCFB, 0x5CCB2307, 0x084575AA, 0x3B7BF548, 0xB628AF27), 0x96000001, 20) == Regs(0x26D3DE19, 0x5FDEDCFB, 0xD732C8C1, 0x084575AA, 0x3B7BF548);
    assert Compress(IV, w, 21) == Regs(0x26D3DE19, 0x5FDEDCFB, 0xD732C8C1, 0x084575AA, 0x3B7BF548);
    assert Round(Regs(0x26D3DE19, 0x5FDEDCFB, 0xD732C8C1, 0x084575AA, 0x3B7BF548), 0x000000A0, 21) == Regs(0x057B063D, 0x26D3DE19, 0xD7F7B73E, 0xD732C8C1, 0x084575AA);
    assert Compress(IV, w, 22) == Regs(0x057B063D, 0x26D3DE19, 0xD7F7B73E, 0xD732C8C1, 0x084575AA);
    assert Round(Regs(0x057B063D, 0x26D3DE19, 0xD7F7B73E, 0xD732C8C1, 0x084575AA), 0x0B838363, 22) == Regs(0x581A4E34, 0x057B063D, 0x49B4F786, 0xD7F7B73E, 0xD732C8C1);
    assert Compress(IV, w, 23) == Regs(0x581A4E34, 0x057B063D, 0x49B4F786, 0xD7F7B73E, 0xD732C8C1);
    assert Round(Regs(0x581A4E34, 0x057B063D, 0x49B4F786, 0xD7F7B73E, 0xD732C8C1), 0x2C000053, 23) == Regs(0x108EC1C5, 0x581A4E34, 0x415EC18F, 0x49B4F786, 0xD7F7B73E);
    assert Compress(IV, w, 24) == Regs(0x108EC1C5, 0x581A4E34, 0x415EC18F, 0x49B4F786, 0xD7F7B73E);
    assert Round(Regs(0x108EC1C5, 0x581A4E34, 0x415EC18F, 0x49B4F786, 0xD7F7B73E), 0x85C1C0F1, 24) == Regs(0x2F5C14AF, 0x108EC1C5, 0x1606938D, 0x415EC18F, 0x49B4F786);
    assert Compress(IV, w, 25) == Regs(0x2F5C14AF, 0x108EC1C5, 0x1606938D, 0x415EC18F, 0x49B4F786);
    assert Round(Regs(0x2F5C14AF, 0x108EC1C5, 0x1606938D, 0x415EC18F, 0x49B4F786), 0x810706C7, 25) == Regs(0x6CEF139A, 0x2F5C14AF, 0x4423B071, 0x1606938D, 0x415EC18F);
    assert Compress(IV, w, 26) == Regs(0x6CEF139A, 0x2F5C14AF, 0x4423B071, 0x1606938D, 0x415EC18F);
    assert Round(Regs(0x6CEF139A, 0x2F5C14AF, 0x4423B071, 0x1606938D, 0x415EC18F), 0x58000006, 26) == Regs(0x239457D6, 0x6CEF139A, 0xCBD7052B, 0x4423B071, 0x1606938D);
    assert Compress(IV, w, 27) == Regs(0x239457D6, 0x6CEF139A, 0xCBD7052B, 0x4423B071, 0x1606938D);
    assert Round(Regs(0x239457D6, 0x6CEF139A, 0xCBD7052B, 0x4423B071, 0x1606938D), 0x00000280, 27) == Regs(0xDA872332, 0x239457D6, 0x9B3BC4E6, 0xCBD7052B, 0x4423B071);
    assert Compress(IV, w, 28) == Regs(0xDA872332, 0x239457D6, 0x9B3BC4E6, 0xCBD7052B, 0x4423B071);
    assert Round(Regs(0xDA872332, 0x239457D6, 0x9B3BC4E6, 0xCBD7052B, 0x4423B071), 0x2E0E0D8C, 28) == Regs(0xA568A614, 0xDA872332, 0x88E515F5, 0x9B3BC4E6, 0xCBD7052B);
    assert Compress(IV, w, 29) == Regs(0xA568A614, 0xDA872332, 0x88E515F5, 0x9B3BC4E6, 0xCBD7052B);
    assert Round(Regs(0xA568A614, 0xDA872332, 0x88E515F5, 0x9B3BC4E6, 0xCBD7052B), 0xB000011C, 29) == Regs(0x611FA69D, 0xA568A614, 0xB6A1C8CC, 0x88E515F5, 0x9B3BC4E6);
    assert Compress(IV, w, 30) == Regs(0x611FA69D, 0xA568A614, 0xB6A1C8CC, 0x88E515F5, 0x9B3BC4E6);
    assert Round(Regs(0x611FA69D, 0xA568A614, 0xB6A1C8CC, 0x88E515F5, 0x9B3BC4E6), 0x92C6C277, 30) == Regs(0x5BFDC1D7, 0x611FA69D, 0x295A2985, 0xB6A1C8CC, 0x88E515F5);
    assert Compress(IV, w, 31) == Regs(0x5BFDC1D7, 0x611FA69D, 0x295A2985, 0xB6A1C8CC, 0x88E515F5);
    assert Round(Regs(0x5BFDC1D7, 0x611FA69D, 0x295A2985, 0xB6A1C8CC, 0x88E515F5), 0x921C1BEF, 31) == Regs(0x0877A044, 0x5BFDC1D7, 0x5847E9A7, 0x295A2985, 0xB6A1C8CC);
    assert Compress(IV, w, 32) == Regs(0x0877A044, 0x5BFDC1D7, 0x5847E9A7, 0x295A2985, 0xB6A1C8CC);
    assert Round(Regs(0x0877A044, 0x5BFDC1D7, 0x5847E9A7, 0x295A2985, 0xB6A1C8CC), 0xEE4242CB, 32) == Regs(0x4D9201AE, 0x0877A044, 0xD6FF7075, 0x5847E9A7, 0x295A2985);
    assert Compress(IV, w, 33) == Regs(0x4D9201AE, 0x0877A044, 0xD6FF7075, 0x5847E9A7, 0x295A2985);
    assert Round(Regs(0x4D9201AE, 0x0877A044, 0xD6FF7075, 0x5847E9A7, 0x295A2985), 0xBA000A02, 33) == Regs(0x8B438E87, 0x4D9201AE, 0x021DE811, 0xD6FF7075, 0x5847E9A7);
    assert Compress(IV, w, 34) == Regs(0x8B438E87, 0x4D9201AE, 0x021DE811, 0xD6FF7075, 0x5847E9A7);
    assert Round(Regs(0x8B438E87, 0x4D9201AE, 0x021DE811, 0xD6FF7075, 0x5847E9A7), 0xB8383770, 34) == Regs(0x813C7773, 0x8B438E87, 0x9364806B, 0x021DE811, 0xD6FF7075);
    assert Compress(IV, w, 35) == Regs(0x813C7773, 0x8B438E87, 0x9364806B, 0x021DE811, 0xD6FF7075);
    assert Round(Regs(0x813C7773, 0x8B438E87, 0x9364806B, 0x021DE811, 0xD6FF7075), 0xD70702B4, 35) == Regs(0x5EAA3437, 0x813C7773, 0xE2D0E3A1, 0x9364806B, 0x021DE811);
    assert Compress(IV, w, 36) == Regs(0x5EAA3437, 0x813C7773, 0xE2D0E3A1, 0x9364806B, 0x021DE811);
    assert Round(Regs(0x5EAA3437, 0x813C7773, 0xE2D0E3A1, 0x9364806B, 0x021DE811), 0x131B09D8, 36) == Regs(0x49E1792E, 0x5EAA3437, 0xE04F1DDC, 0xE2D0E3A1, 0x9364806B);
    assert Compress(IV, w, 37) == Regs(0x49E1792E, 0x5EAA3437, 0xE04F1DDC, 0xE2D0E3A1, 0x9364806B);
    assert Round(Regs(0x49E1792E, 0x5EAA3437, 0xE04F1DDC, 0xE2D0E3A1, 0x9364806B), 0x48706D3E, 37) == Regs(0xE313C95D, 0x49E1792E, 0xD7AA8D0D, 0xE04F1DDC, 0xE2D0E3A1);
    assert Compress(IV, w, 38) == Regs(0xE313C95D, 0x49E1792E, 0xD7AA8D0D, 0xE04F1DDC, 0xE2D0E3A1);
    assert Round(Regs(0xE313C95D, 0x49E1792E, 0xD7AA8D0D, 0xE04F1DDC, 0xE2D0E3A1), 0x970706A3, 38) == Regs(0xC92FEBA0, 0xE313C95D, 0x92785E4B, 0xD7AA8D0D, 0xE04F1DDC);
    assert Compress(IV, w, 39) == Regs(0xC92FEBA0, 0xE313C95D, 0x92785E4B, 0xD7AA8D0D, 0xE04F1DDC);
    assert Round(Regs(0xC92FEBA0, 0xE313C95D, 0x92785E4B, 0xD7AA8D0D, 0xE04F1DDC), 0x58002946, 39) == Regs(0x73E7C0F7, 0xC92FEBA0, 0x78C4F257, 0x92785E4B, 0xD7AA8D0D);
    assert Compress(IV, w, 40) == Regs(0x73E7C0F7, 0xC92FEBA0, 0x78C4F257, 0x92785E4B, 0xD7AA8D0D);
  }

  lemma Apple0Rounds2(w: seq<word>)
    requires |w| == 80
    requires w[40] == 0xF7E7DE04 && w[41] == 0x580011CD && w[42] == 0x2C6C2779 && w[43] == 0x21C1BE59 &&
      w[44] == 0xEFA7AFDD && w[45] == 0x8C00A168 && w[46] == 0x9484708D && w[47] == 0x3F772EED &&
      w[48] == 0x5B3A15AE && w[49] == 0x4306D3ED && w[50] == 0x70706E79 && w[51] == 0xCB1988FB &&
      w[52] == 0x517AE696 && w[53] == 0xD80116D3 && w[54] == 0x7EFA41A2 && w[55] == 0xDC1BE1E0 &&
      w[56] == 0xB161F400 && w[57] == 0x887A7BB6 && w[58] == 0xDF400E7A && w[59] == 0xAF72C795
    requires Compress(IV, w, 40) == Regs(0x73E7C0F7, 0xC92FEBA0, 0x78C4F257, 0x92785E4B, 0xD7AA8D0D)
    ensures Compress(IV, w, 60) == Regs(0x25B3D7F3, 0x2573A420, 0xD4F5A476, 0x68138FB0, 0x5C7336FC)
  {
    assert Round(Regs(0x73E7C0F7, 0xC92FEBA0, 0x78C4F257, 0x92785E4B, 0xD7AA8D0D), 0xF7E7DE04, 40) == Regs(0xB413411E, 0x73E7C0F7, 0x324BFAE8, 0x78C4F257, 0x92785E4B);
    assert Compress(IV, w, 41) == Regs(0xB413411E, 0x73E7C0F7, 0x324BFAE8, 0x78C4F257, 0x92785E4B);
    assert Round(Regs(0xB413411E, 0x73E7C0F7, 0x324BFAE8, 0x78C4F257, 0x92785E4B), 0x580011CD, 41) == Regs(0x6EC443C1, 0xB413411E, 0xDCF9F03D, 0x324BFAE8, 0x78C4F257);
    assert Compress(IV, w, 42) == Regs(0x6EC443C1, 0xB413411E, 0xDCF9F03D, 0x324BFAE8, 0x78C4F257);
    assert Round(Regs(0x6EC443C1, 0xB413411E, 0xDCF9F03D, 0x324BFAE8, 0x78C4F257), 0x2C6C2779, 42) == Regs(0xC1313F15, 0x6EC443C1, 0xAD04D047, 0xDCF9F03D, 0x324BFAE8);
    assert Compress(IV, w, 43) == Regs(0xC1313F15, 0x6EC443C1, 0xAD04D047, 0xDCF9F03D, 0x324BFAE8);
    assert Round(Regs(0xC1313F15, 0x6EC443C1, 0xAD04D047, 0xDCF9F03D, 0x324BFAE8), 0x21C1BE59, 43) == Regs(0xF616291A, 0xC1313F15, 0x5BB110F0, 0xAD04D047, 0xDCF9F03D);
    assert Compress(IV, w, 44) == Regs(0xF616291A, 0xC1313F15, 0x5BB110F0, 0xAD04D047, 0xDCF9F03D);
    assert Round(Regs(0xF616291A, 0xC1313F15, 0x5BB110F0, 0xAD04D047, 0xDCF9F03D), 0xEFA7AFDD, 44) == Regs(0xE7B390A9, 0xF616291A, 0x704C4FC5, 0x5BB110F0, 0xAD04D047);
    assert Compress(IV, w, 45) == Regs(0xE7B390A9, 0xF616291A, 0x704C4FC5, 0x5BB110F0, 0xAD04D047);
    assert Round(Regs(0xE7B390A9, 0xF616291A, 0x704C4FC5, 0x5BB110F0, 0xAD04D047), 0x8C00A168, 45) == Regs(0x30A74D97, 0xE7B390A9, 0xBD858A46, 0x704C4FC5, 0x5BB110F0);
    assert Compress(IV, w, 46) == Regs(0x30A74D97, 0xE7B390A9, 0xBD858A46, 0x704C4FC5, 0x5BB110F0);
    assert Round(Regs(0x30A74D97, 0xE7B390A9, 0xBD858A46, 0x704C4FC5, 0x5BB110F0), 0x9484708D, 46) == Regs(0x89C07C04, 0x30A74D97, 0x79ECE42A, 0xBD858A46, 0x704C4FC5);
    assert Compress(IV, w, 47) == Regs(0x89C07C04, 0x30A74D97, 0x79ECE42A, 0xBD858A46, 0x704C4FC5);
    assert Round(Regs(0x89C07C04, 0x30A74D97, 0x79ECE42A, 0xBD858A46, 0x704C4FC5), 0x3F772EED, 47) == Regs(0xB0948825, 0x89C07C04, 0xCC29D365, 0x79ECE42A, 0xBD858A46);
    assert Compress(IV, w, 48) == Regs(0xB0948825, 0x89C07C04, 0xCC29D365, 0x79ECE42A, 0xBD858A46);
    assert Round(Regs(0xB0948825, 0x89C07C04, 0xCC29D365, 0x79ECE42A, 0xBD858A46), 0x5B3A15AE, 48) == Regs(0x845555AA, 0xB0948825, 0x22701F01, 0xCC29D365, 0x79ECE42A);
    assert Compress(IV, w, 49) == Regs(0x845555AA, 0xB0948825, 0x22701F01, 0xCC29D365, 0x79ECE42A);
    assert Round(Regs(0x845555AA, 0xB0948825, 0x22701F01, 0xCC29D365, 0x79ECE42A), 0x4306D3ED, 49) == Regs(0x76EAC568, 0x845555AA, 0x6C252209, 0x22701F01, 0xCC29D365);
    assert Compress(IV, w, 50) == Regs(0x76EAC568, 0x845555AA, 0x6C252209, 0x22701F01, 0xCC29D365);
    assert Round(Regs(0x76EAC568, 0x845555AA, 0x6C252209, 0x22701F01, 0xCC29D365), 0x70706E79, 50) == Regs(0xCD83C2D1, 0x76EAC568, 0xA115556A, 0x6C252209, 0x22701F01);
    assert Compress(IV, w, 51) == Regs(0xCD83C2D1, 0x76EAC568, 0xA115556A, 0x6C252209, 0x22701F01);
    assert Round(Regs(0xCD83C2D1, 0x76EAC568, 0xA115556A, 0x6C252209, 0x22701F01), 0xCB1988FB, 51) == Regs(0x91430479, 0xCD83C2D1, 0x1DBAB15A, 0xA115556A, 0x6C252209);
    assert Compress(IV, w, 52) == Regs(0x91430479, 0xCD83C2D1, 0x1DBAB15A, 0xA115556A, 0x6C252209);
    assert Round(Regs(0x91430479, 0xCD83C2D1, 0x1DBAB15A, 0xA115556A, 0x6C252209), 0x517AE696, 52) == Regs(0x02B02607, 0x91430479, 0x7360F0B4, 0x1DBAB15A, 0xA115556A);
    assert Compress(IV, w, 53) == Regs(0x02B02607, 0x91430479, 0x7360F0B4, 0x1DBAB15A, 0xA115556A);
    assert Round(Regs(0x02B02607, 0x91430479, 0x7360F0B4, 0x1DBAB15A, 0xA115556A), 0xD80116D3, 53) == Regs(0x6F999A71, 0x02B02607, 0x6450C11E, 0x7360F0B4, 0x1DBAB15A);
    assert Compress(IV, w, 54) == Regs(0x6F999A71, 0x02B02607, 0x6450C11E, 0x7360F0B4, 0x1DBAB15A);
    assert Round(Regs(0x6F999A71, 0x02B02607, 0x6450C11E, 0x7360F0B4, 0x1DBAB15A), 0x7EFA41A2, 54) == Regs(0x8174DE1B, 0x6F999A71, 0xC0AC0981, 0x6450C11E, 0x7360F0B4);
    assert Compress(IV, w, 55) == Regs(0x8174DE1B, 0x6F999A71, 0xC0AC0981, 0x6450C11E, 0x7360F0B4);
    assert Round(Regs(0x8174DE1B, 0x6F999A71, 0xC0AC0981, 0x6450C11E, 0x7360F0B4), 0xDC1BE1E0, 55) == Regs(0x71CCDBF1, 0x8174DE1B, 0x5BE6669C, 0xC0AC0981, 0x6450C11E);
    assert Compress(IV, w, 56) == Regs(0x71CCDBF1, 0x8174DE1B, 0x5BE6669C, 0xC0AC0981, 0x6450C11E);
    assert Round(Regs(0x71CCDBF1, 0x8174DE1B, 0x5BE6669C, 0xC0AC0981, 0x6450C11E), 0xB161F400, 56) == Regs(0xA04E3EC1, 0x71CCDBF1, 0xE05D3786, 0x5BE6669C, 0xC0AC0981);
    assert Compress(IV, w, 57) == Regs(0xA04E3EC1, 0x71CCDBF1, 0xE05D3786, 0x5BE6669C, 0xC0AC0981);
    assert Round(Regs(0xA04E3EC1, 0x71CCDBF1, 0xE05D3786, 0x5BE6669C, 0xC0AC0981), 0x887A7BB6, 57) == Regs(0x53D691DB, 0xA04E3EC1, 0x5C7336FC, 0xE05D3786, 0x5BE6669C);
    assert Compress(IV, w, 58) == Regs(0x53D691DB, 0xA04E3EC1, 0x5C7336FC, 0xE05D3786, 0x5BE6669C);
    assert Round(Regs(0x53D691DB, 0xA04E3EC1, 0x5C7336FC, 0xE05D3786, 0x5BE6669C), 0xDF400E7A, 58) == Regs(0x2573A420, 0x53D691DB, 0x68138FB0, 0x5C7336FC, 0xE05D3786);
    assert Compress(IV, w, 59) == Regs(0x2573A420, 0x53D691DB, 0x68138FB0, 0x5C7336FC, 0xE05D3786);
    assert Round(Regs(0x2573A420, 0x53D691DB, 0x68138FB0, 0x5C7336FC, 0xE05D3786), 0xAF72C795, 59) == Regs(0x25B3D7F3, 0x2573A420, 0xD4F5A476, 0x68138FB0, 0x5C7336FC);
    assert Compress(IV, w, 60) == Regs(0x25B3D7F3, 0x2573A420, 0xD4F5A476, 0x68138FB0, 0x5C7336FC);
  }

  lemma Apple0Rounds3(w: seq<word>)
    requires |w| == 80
    requires w[60] == 0x444684E1 && w[61] == 0x686D2E59 && w[62] == 0x3C6DC628 && w[63] == 0xC8593003 &&
      w[64] == 0xE48D431D && w[65] == 0x7811CD10 && w[66] == 0x6C276D2C && w[67] == 0xB1CE3540 &&
      w[68] == 0x27AFDD8A && w[69] == 0x00A1688C && w[70] == 0x84708D94 && w[71] == 0x772EEFBF &&
      w[72] == 0x141BA3D7 && w[73] == 0xB6D3F94F && w[74] == 0x001E1011 && w[75] == 0xC594FEB6 &&
      w[76] == 0xD2AECC19 && w[77] == 0x4116CD8F && w[78] == 0x3209EC2F && w[79] == 0x2B91BD6A
    requires Compress(IV, w, 60) == Regs(0x25B3D7F3, 0x2573A420, 0xD4F5A476, 0x68138FB0, 0x5C7336FC)
    ensures Compress(IV, w, 80) == Regs(0x69790AC3, 0x31F0A444, 0x68B808B1, 0xBEB7E4FA, 0x1F20F750)
  {
    assert Round(Regs(0x25B3D7F3, 0x2573A420, 0xD4F5A476, 0x68138FB0, 0x5C7336FC), 0x444684E1, 60) == Regs(0xBB2D0BFD, 0x25B3D7F3, 0x095CE908, 0xD4F5A476, 0x68138FB0);
    assert Compress(IV, w, 61) == Regs(0xBB2D0BFD, 0x25B3D7F3, 0x095CE908, 0xD4F5A476, 0x68138FB0);
    assert Round(Regs(0xBB2D0BFD, 0x25B3D7F3, 0x095CE908, 0xD4F5A476, 0x68138FB0), 0x686D2E59, 61) == Regs(0xF89F9A23, 0xBB2D0BFD, 0xC96CF5FC, 0x095CE908, 0xD4F5A476);
    assert Compress(IV, w, 62) == Regs(0xF89F9A23, 0xBB2D0BFD, 0xC96CF5FC, 0x095CE908, 0xD4F5A476);
    assert Round(Regs(0xF89F9A23, 0xBB2D0BFD, 0xC96CF5FC, 0x095CE908, 0xD4F5A476), 0x3C6DC628, 62) == Regs(0x6AD687FC, 0xF89F9A23, 0x6ECB42FF, 0xC96CF5FC, 0x095CE908);
    assert Compress(IV, w, 63) == Regs(0x6AD687FC, 0xF89F9A23, 0x6ECB42FF, 0xC96CF5FC, 0x095CE908);
    assert Round(Regs(0x6AD687FC, 0xF89F9A23, 0x6ECB42FF, 0xC96CF5FC, 0x095CE908), 0xC8593003, 63) == Regs(0x5622078E, 0x6AD687FC, 0xFE27E688, 0x6ECB42FF, 0xC96CF5FC);
    assert Compress(IV, w, 64) == Regs(0x5622078E, 0x6AD687FC, 0xFE27E688, 0x6ECB42FF, 0xC96CF5FC);
    assert Round(Regs(0x5622078E, 0x6AD687FC, 0xFE27E688, 0x6ECB42FF, 0xC96CF5FC), 0xE48D431D, 64) == Regs(0x36D81044, 0x5622078E, 0x1AB5A1FF, 0xFE27E688, 0x6ECB42FF);
    assert Compress(IV, w, 65) == Regs(0x36D81044, 0x5622078E, 0x1AB5A1FF, 0xFE27E688, 0x6ECB42FF);
    assert Round(Regs(0x36D81044, 0x5622078E, 0x1AB5A1FF, 0xFE27E688, 0x6ECB42FF), 0x7811CD10, 65) == Regs(0x3EF21B64, 0x36D81044, 0x958881E3, 0x1AB5A1FF, 0xFE27E688);
    assert Compress(IV, w, 66) == Regs(0x3EF21B64, 0x36D81044, 0x958881E3, 0x1AB5A1FF, 0xFE27E688);
    assert Round(Regs(0x3EF21B64, 0x36D81044, 0x958881E3, 0x1AB5A1FF, 0xFE27E688), 0x6C276D2C, 66) == Regs(0xCCDAB269, 0x3EF21B64, 0x0DB60411, 0x958881E3, 0x1AB5A1FF);
    assert Compress(IV, w, 67) == Regs(0xCCDAB269, 0x3EF21B64, 0x0DB60411, 0x958881E3, 0x1AB5A1FF);
    assert Round(Regs(0xCCDAB269, 0x3EF21B64, 0x0DB60411, 0x958881E3, 0x1AB5A1FF), 0xB1CE3540, 67) == Regs(0xD90984E4, 0xCCDAB269, 0x0FBC86D9, 0x0DB60411, 0x958881E3);
    assert Compress(IV, w, 68) == Regs(0xD90984E4, 0xCCDAB269, 0x0FBC86D9, 0x0DB60411, 0x958881E3);
    assert Round(Regs(0xD90984E4, 0xCCDAB269, 0x0FBC86D9, 0x0DB60411, 0x958881E3), 0x27AFDD8A, 68) == Regs(0x779BEE7F, 0xD90984E4, 0x7336AC9A, 0x0FBC86D9, 0x0DB60411);
    assert Compress(IV, w, 69) == Regs(0x779BEE7F, 0xD90984E4, 0x7336AC9A, 0x0FBC86D9, 0x0DB60411);
    assert Round(Regs(0x779BEE7F, 0xD90984E4, 0x7336AC9A, 0x0FBC86D9, 0x0DB60411), 0x00A1688C, 69) == Regs(0x71BBAD08, 0x779BEE7F, 0x36426139, 0x7336AC9A, 0x0FBC86D9);
    assert Compress(IV, w, 70) == Regs(0x71BBAD08, 0x779BEE7F, 0x36426139, 0x7336AC9A, 0x0FBC86D9);
    assert Round(Regs(0x71BBAD08, 0x779BEE7F, 0x36426139, 0x7336AC9A, 0x0FBC86D9), 0x84708D94, 70) == Regs(0xC8F49B2D, 0x71BBAD08, 0xDDE6FB9F, 0x36426139, 0x7336AC9A);
    assert Compress(IV, w, 71) == Regs(0xC8F49B2D, 0x71BBAD08, 0xDDE6FB9F, 0x36426139, 0x7336AC9A);
    assert Round(Regs(0xC8F49B2D, 0x71BBAD08, 0xDDE6FB9F, 0x36426139, 0x7336AC9A), 0x772EEFBF, 71) == Regs(0x6D7AFB96, 0xC8F49B2D, 0x1C6EEB42, 0xDDE6FB9F, 0x36426139);
    assert Compress(IV, w, 72) == Regs(0x6D7AFB96, 0xC8F49B2D, 0x1C6EEB42, 0xDDE6FB9F, 0x36426139);
    assert Round(Regs(0x6D7AFB96, 0xC8F49B2D, 0x1C6EEB42, 0xDDE6FB9F, 0x36426139), 0x141BA3D7, 72) == Regs(0xCD9CC5A3, 0x6D7AFB96, 0x723D26CB, 0x1C6EEB42, 0xDDE6FB9F);
    assert Compress(IV, w, 73) == Regs(0xCD9CC5A3, 0x6D7AFB96, 0x723D26CB, 0x1C6EEB42, 0xDDE6FB9F);
    assert Round(Regs(0xCD9CC5A3, 0x6D7AFB96, 0x723D26CB, 0x1C6EEB42, 0xDDE6FB9F), 0xB6D3F94F, 73) == Regs(0x15DFA15C, 0xCD9CC5A3, 0x9B5EBEE5, 0x723D26CB, 0x1C6EEB42);
    assert Compress(IV, w, 74) == Regs(0x15DFA15C, 0xCD9CC5A3, 0x9B5EBEE5, 0x723D26CB, 0x1C6EEB42);
    assert Round(Regs(0x15DFA15C, 0xCD9CC5A3, 0x9B5EBEE5, 0x723D26CB, 0x1C6EEB42), 0x001E1011, 74) == Regs(0xC7E34638, 0x15DFA15C, 0xF3673168, 0x9B5EBEE5, 0x723D26CB);
    assert Compress(IV, w, 75) == Regs(0xC7E34638, 0x15DFA15C, 0xF3673168, 0x9B5EBEE5, 0x723D26CB);
    assert Round(Regs(0xC7E34638, 0x15DFA15C, 0xF3673168, 0x9B5EBEE5, 0x723D26CB), 0xC594FEB6, 75) == Regs(0x7C83DD40, 0xC7E34638, 0x0577E857, 0xF3673168, 0x9B5EBEE5);
    assert Compress(IV, w, 76) == Regs(0x7C83DD40, 0xC7E34638, 0x0577E857, 0xF3673168, 0x9B5EBEE5);
    assert Round(Regs(0x7C83DD40, 0xC7E34638, 0x0577E857, 0xF3673168, 0x9B5EBEE5), 0xD2AECC19, 76) == Regs(0xFADF93EA, 0x7C83DD40, 0x31F8D18E, 0x0577E857, 0xF3673168);
    assert Compress(IV, w, 77) == Regs(0xFADF93EA, 0x7C83DD40, 0x31F8D18E, 0x0577E857, 0xF3673168);
    assert Round(Regs(0xFADF93EA, 0x7C83DD40, 0x31F8D18E, 0x0577E857, 0xF3673168), 0x4116CD8F, 77) == Regs(0xA2E022C5, 0xFADF93EA, 0x1F20F750, 0x31F8D18E, 0x0577E857);
    assert Compress(IV, w, 78) == Regs(0xA2E022C5, 0xFADF93EA, 0x1F20F750, 0x31F8D18E, 0x0577E857);
    assert Round(Regs(0xA2E022C5, 0xFADF93EA, 0x1F20F750, 0x31F8D18E, 0x0577E857), 0x3209EC2F, 78) == Regs(0x31F0A444, 0xA2E022C5, 0xBEB7E4FA, 0x1F20F750, 0x31F8D18E);
    assert Compress(IV, w, 79) == Regs(0x31F0A444, 0xA2E022C5, 0xBEB7E4FA, 0x1F20F750, 0x31F8D18E);
    assert Round(Regs(0x31F0A444, 0xA2E022C5, 0xBEB7E4FA, 0x1F20F750, 0x31F8D18E), 0x2B91BD6A, 79) == Regs(0x69790AC3, 0x31F0A444, 0x68B808B1, 0xBEB7E4FA, 0x1F20F750);
    assert Compress(IV, w, 80) == Regs(0x69790AC3, 0x31F0A444, 0x68B808B1, 0xBEB7E4FA, 0x1F20F750);
  }

  lemma Apple0Compress(words: seq<word>)
    requires |words| == 16
    requires words[0] == 0x6170706C && words[1] == 0x65800000 && words[2] == 0x00000000 && words[3] == 0x00000000 &&
      words[4] == 0x00000000 && words[5] == 0x00000000 && words[6] == 0x00000000 && words[7] == 0x00000000 &&
      words[8] == 0x00000000 && words[9] == 0x00000000 && words[10] == 0x00000000 && words[11] == 0x00000000 &&
      words[12] == 0x00000000 && words[13] == 0x00000000 && words[14] == 0x00000000 && words[15] == 0x00000028
    ensures Compress(IV, Schedule(words), 80) == Regs(0x69790AC3, 0x31F0A444, 0x68B808B1, 0xBEB7E4FA, 0x1F20F750)
  {
    var w := Schedule(words);
    ScheduleIsSchedule(words);
    forall j | 0 <= j < 16
      ensures w[j] == words[j]
    {
      assert w[..16][j] == w[j];
    }
    Apple0Schedule0(w);
    Apple0Schedule1(w);
    Apple0Schedule2(w);
    Apple0Schedule3(w);
    Apple0Rounds0(w);
    Apple0Rounds1(w);
    Apple0Rounds2(w);
    Apple0Rounds3(w);
  }

  lemma AppleRegisters()
    ensures Splittable(|Apple|)
    ensures Run(IV, Blocks(Apple)) == Regs(0x69790AC3, 0x31F0A444, 0x68B808B1, 0xBEB7E4FA, 0x1F20F750)
  {
    ShortMessagesPadToOneBlock(|Apple|);
    var p := Padded(Apple);
    AppleLength();
    AppleBlock0(p);
    var b := Blocks(Apple);
    assert b == Split(p) && b[..0] == [];
    Apple0Compress(b[0].words);
  }

  lemma AppleOutput()
    ensures Serialize(Add(IV, Regs(0x69790AC3, 0x31F0A444, 0x68B808B1, 0xBEB7E4FA, 0x1F20F750))) == [0xD0, 0xBE, 0x2D, 0xC4, 0x21, 0xBE, 0x4F, 0xCD, 0x01, 0x72, 0xE5, 0xAF, 0xCE, 0xEA, 0x39, 0x70, 0xE2, 0xF3, 0xD9, 0x40]
  {
    assert Add(IV, Regs(0x69790AC3, 0x31F0A444, 0x68B808B1, 0xBEB7E4FA, 0x1F20F750)) == Regs(0xD0BE2DC4, 0x21BE4FCD, 0x0172E5AF, 0xCEEA3970, 0xE2F3D940);
  }

  /** `digest("apple")`: one block, 80 rounds from `H`, then `H` added;
      these are the bytes of the hexadecimal text
      D0BE2DC421BE4FCD0172E5AFCEEA3970E2F3D940. */
  lemma AppleDigest()
    ensures Splittable(|Apple|)
    ensures DigestOf(Apple) == [0xD0, 0xBE, 0x2D, 0xC4, 0x21, 0xBE, 0x4F, 0xCD, 0x01, 0x72, 0xE5, 0xAF, 0xCE, 0xEA, 0x39, 0x70, 0xE2, 0xF3, 0xD9, 0x40]
    ensures Hex(DigestOf(Apple)) == "D0BE2DC421BE4FCD0172E5AFCEEA3970E2F3D940"
  {
    AppleRegisters();
    AppleOutput();
    AppleHex();
  }

  /** The string the crate's test compares: the five registers' twenty bytes as hexadecimal text. */
  lemma AppleHex()
    ensures Hex(Serialize(Regs(0xD0BE2DC4, 0x21BE4FCD, 0x0172E5AF, 0xCEEA3970, 0xE2F3D940))) == "D0BE2DC421BE4FCD0172E5AFCEEA3970E2F3D940"
  {
    HexSerialize(Regs(0xD0BE2DC4, 0x21BE4FCD, 0x0172E5AF, 0xCEEA3970, 0xE2F3D940));
    WordHexD0BE2DC4();
    WordHex21BE4FCD();
    WordHex0172E5AF();
    WordHexCEEA3970();
    WordHexE2F3D940();
    AppleHexText();
  }

  lemma AppleHexText()
    ensures "D0BE2DC4" + "21BE4FCD" + "0172E5AF" + "CEEA3970" + "E2F3D940" == "D0BE2DC421BE4FCD0172E5AFCEEA3970E2F3D940"
  {
  }

  /** Hex renders the digest as the five registers' renderings in order. */
  lemma HexSerialize(r: Regs)
    ensures Hex(Serialize(r)) == Hex(Unpack(r.a)) + Hex(Unpack(r.b)) + Hex(Unpack(r.c)) + Hex(Unpack(r.d)) + Hex(Unpack(r.e))
  {
    var u0, u1, u2, u3, u4 := Unpack(r.a), Unpack(r.b), Unpack(r.c), Unpack(r.d), Unpack(r.e);
    HexAppend(u0, u1);
    HexAppend(u0 + u1, u2);
    HexAppend(u0 + u1 + u2, u3);
    HexAppend(u0 + u1 + u2 + u3, u4);
  }


  lemma WordHexD0BE2DC4()
    ensures Hex(Unpack(0xD0BE2DC4)) == "D0BE2DC4"
  {
    UnpackWordD0BE2DC4();
    Hex4([0xD0, 0xBE, 0x2D, 0xC4]);
    DigitsOfD0BE2DC4();
    assert "D0" + "BE" + "2D" + "C4" == "D0BE2DC4";
  }

  lemma DigitsOfD0BE2DC4()
    ensures Digits(0xD0) == "D0" && Digits(0xBE) == "BE"
    ensures Digits(0x2D) == "2D" && Digits(0xC4) == "C4"
  {
    DigitsOf(0xD0, 13, 0);
    DigitsOf(0xBE, 11, 14);
    DigitsOf(0x2D, 2, 13);
    DigitsOf(0xC4, 12, 4);
  }




  lemma UnpackWordD0BE2DC4()
    ensures Unpack(0xD0BE2DC4) == [0xD0, 0xBE, 0x2D, 0xC4]
  {
  }



  lemma WordHex21BE4FCD()
    ensures Hex(Unpack(0x21BE4FCD)) == "21BE4FCD"
  {
    UnpackWord21BE4FCD();
    Hex4([0x21, 0xBE, 0x4F, 0xCD]);
    DigitsOf21BE4FCD();
    assert "21" + "BE" + "4F" + "CD" == "21BE4FCD";
  }

  lemma DigitsOf21BE4FCD()
    ensures Digits(0x21) == "21" && Digits(0xBE) == "BE"
    ensures Digits(0x4F) == "4F" && Digits(0xCD) == "CD"
  {
    DigitsOf(0x21, 2, 1);
    DigitsOf(0xBE, 11, 14);
    DigitsOf(0x4F, 4, 15);
    DigitsOf(0xCD, 12, 13);
  }




  lemma UnpackWord21BE4FCD()
    ensures Unpack(0x21BE4FCD) == [0x21, 0xBE, 0x4F, 0xCD]
  {
  }



  lemma WordHex0172E5AF()
    ensures Hex(Unpack(0x0172E5AF)) == "0172E5AF"
  {
    UnpackWord0172E5AF();
    Hex4([0x01, 0x72, 0xE5, 0xAF]);
    DigitsOf0172E5AF();
    assert "01" + "72" + "E5" + "AF" == "0172E5AF";
  }

  lemma DigitsOf0172E5AF()
    ensures Digits(0x01) == "01" && Digits(0x72) == "72"
    ensures Digits(0xE5) == "E5" && Digits(0xAF) == "AF"
  {
    DigitsOf(0x01, 0, 1);
    DigitsOf(0x72, 7, 2);
    DigitsOf(0xE5, 14, 5);
    DigitsOf(0xAF, 10, 15);
  }




  lemma UnpackWord0172E5AF()
    ensures Unpack(0x0172E5AF) == [0x01, 0x72, 0xE5, 0xAF]
  {
  }



  lemma WordHexCEEA3970()
    ensures Hex(Unpack(0xCEEA3970)) == "CEEA3970"
  {
    UnpackWordCEEA3970();
    Hex4([0xCE, 0xEA, 0x39, 0x70]);
    DigitsOfCEEA3970();
    assert "CE" + "EA" + "39" + "70" == "CEEA3970";
  }

  lemma DigitsOfCEEA3970()
    ensures Digits(0xCE) == "CE" && Digits(0xEA) == "EA"
    ensures Digits(0x39) == "39" && Digits(0x70) == "70"
  {
    DigitsOf(0xCE, 12, 14);
    DigitsOf(0xEA, 14, 10);
    DigitsOf(0x39, 3, 9);
    DigitsOf(0x70, 7, 0);
  }




  lemma UnpackWordCEEA3970()
    ensures Unpack(0xCEEA3970) == [0xCE, 0xEA, 0x39, 0x70]
  {
  }



  lemma WordHexE2F3D940()
    ensures Hex(Unpack(0xE2F3D940)) == "E2F3D940"
  {
    UnpackWordE2F3D940();
    Hex4([0xE2, 0xF3, 0xD9, 0x40]);
    DigitsOfE2F3D940();
    assert "E2" + "F3" + "D9" + "40" == "E2F3D940";
  }

  lemma DigitsOfE2F3D940()
    ensures Digits(0xE2) == "E2" && Digits(0xF3) == "F3"
    ensures Digits(0xD9) == "D9" && Digits(0x40) == "40"
  {
    DigitsOf(0xE2, 14, 2);
    DigitsOf(0xF3, 15, 3);
    DigitsOf(0xD9, 13, 9);
    DigitsOf(0x40, 4, 0);
  }




  lemma UnpackWordE2F3D940()
    ensures Unpack(0xE2F3D940) == [0xE2, 0xF3, 0xD9, 0x40]
  {
  }



  /** Hex renders four bytes as their digits in order. */
  lemma Hex4(x: seq<byte>)
    requires |x| == 4
    ensures Hex(x) == Digits(x[0]) + Digits(x[1]) + Digits(x[2]) + Digits(x[3])
  {
    HexOfFour(x);
    HexOne(x[0]);
    HexOne(x[1]);
    HexOne(x[2]);
    HexOne(x[3]);
  }

  lemma HexOfFour(x: seq<byte>)
    requires |x| == 4
    ensures Hex(x) == Hex([x[0]]) + Hex([x[1]]) + Hex([x[2]]) + Hex([x[3]])
  {
    var p0, p1, p2, p3 := [x[0]], [x[1]], [x[2]], [x[3]];
    assert x == p0 + p1 + p2 + p3;
    HexAppend(p0 + p1 + p2, p3);
    HexAppend(p0 + p1, p2);
    HexAppend(p0, p1);
  }

  /** Hex renders one byte as its two digits. */
  lemma HexOne(b: byte)
    ensures Hex([b]) == Digits(b)
  {
    assert [b][1..] == [];
  }


  /** Hex renders a concatenation as the concatenation of the renderings. */
  lemma {:induction false} HexAppend(x: seq<byte>, y: seq<byte>)
    ensures Hex(x + y) == Hex(x) + Hex(y)
  {
    if x != [] {
      HexAppend(x[1..], y);
      assert (x + y)[1..] == x[1..] + y;
    } else {
      assert x + y == y;
    }
  }

  /** The two digits of a byte whose nibbles are `hi` and `lo`. */
  lemma DigitsOf(b: byte, hi: int, lo: int)
    requires 0 <= hi < 16 && 0 <= lo < 16 && b as int == 16 * hi + lo
    ensures Digits(b) == [HexDigits[hi], HexDigits[lo]]
  {
    assert (b >> 4) as int == hi && (b & 0x0F) as int == lo;
  }

  /** Hex renders a byte followed by more bytes as that byte's two digits, then the rest. */
  lemma HexCons(b: byte, digits: string, rest: seq<byte>, tail: string)
    requires Digits(b) == digits && Hex(rest) == tail
    ensures Hex([b] + rest) == digits + tail
  {
    assert ([b] + rest)[1..] == rest;
  }




  // ----------------------------------------------------- src/totp.rs tests

  /** HMAC-SHA1 under key twenty bytes 0x0B of message "Hi There" (RFC 2202). */
  lemma HiThereInnerInput0()
    ensures |InnerInput(HiThereKey, HiThereMessage)| == 72
    ensures var m := InnerInput(HiThereKey, HiThereMessage);
      m[0] == 0x3D && m[1] == 0x3D && m[2] == 0x3D && m[3] == 0x3D &&
      m[4] == 0x3D && m[5] == 0x3D && m[6] == 0x3D && m[7] == 0x3D &&
      m[8] == 0x3D && m[9] == 0x3D && m[10] == 0x3D && m[11] == 0x3D &&
      m[12] == 0x3D && m[13] == 0x3D && m[14] == 0x3D && m[15] == 0x3D
  {
    var m := InnerInput(HiThereKey, HiThereMessage);
    NormalizeKeyPrefix(HiThereKey);
    var k := NormalizeKey(HiThereKey);
    assert m[0] == k[0] ^ 0x36;
    assert m[1] == k[1] ^ 0x36;
    assert m[2] == k[2] ^ 0x36;
    assert m[3] == k[3] ^ 0x36;
    assert m[4] == k[4] ^ 0x36;
    assert m[5] == k[5] ^ 0x36;
    assert m[6] == k[6] ^ 0x36;
    assert m[7] == k[7] ^ 0x36;
    assert m[8] == k[8] ^ 0x36;
    assert m[9] == k[9] ^ 0x36;
    assert m[10] == k[10] ^ 0x36;
    assert m[11] == k[11] ^ 0x36;
    assert m[12] == k[12] ^ 0x36;
    assert m[13] == k[13] ^ 0x36;
    assert m[14] == k[14] ^ 0x36;
    assert m[15] == k[15] ^ 0x36;
  }

  lemma HiThereInnerInput1()
    ensures |InnerInput(HiThereKey, HiThereMessage)| == 72
    ensures var m := InnerInput(HiThereKey, HiThereMessage);
      m[16] == 0x3D && m[17] == 0x3D && m[18] == 0x3D && m[19] == 0x3D &&
      m[20] == 0x36 && m[21] == 0x36 && m[22] == 0x36 && m[23] == 0x36 &&
      m[24] == 0x36 && m[25] == 0x36 && m[26] == 0x36 && m[27] == 0x36 &&
      m[28] == 0x36 && m[29] == 0x36 && m[30] == 0x36 && m[31] == 0x36
  {
    var m := InnerInput(HiThereKey, HiThereMessage);
    NormalizeKeyPrefix(HiThereKey);
    var k := NormalizeKey(HiThereKey);
    assert m[16] == k[16] ^ 0x36;
    assert m[17] == k[17] ^ 0x36;
    assert m[18] == k[18] ^ 0x36;
    assert m[19] == k[19] ^ 0x36;
    assert m[20] == k[20] ^ 0x36;
    assert m[21] == k[21] ^ 0x36;
    assert m[22] == k[22] ^ 0x36;
    assert m[23] == k[23] ^ 0x36;
    assert m[24] == k[24] ^ 0x36;
    assert m[25] == k[25] ^ 0x36;
    assert m[26] == k[26] ^ 0x36;
    assert m[27] == k[27] ^ 0x36;
    assert m[28] == k[28] ^ 0x36;
    assert m[29] == k[29] ^ 0x36;
    assert m[30] == k[30] ^ 0x36;
    assert m[31] == k[31] ^ 0x36;
  }

  lemma HiThereInnerInput2()
    ensures |InnerInput(HiThereKey, HiThereMessage)| == 72
    ensures var m := InnerInput(HiThereKey, HiThereMessage);
      m[32] == 0x36 && m[33] == 0x36 && m[34] == 0x36 && m[35] == 0x36 &&
      m[36] == 0x36 && m[37] == 0x36 && m[38] == 0x36 && m[39] == 0x36 &&
      m[40] == 0x36 && m[41] == 0x36 && m[42] == 0x36 && m[43] == 0x36 &&
      m[44] == 0x36 && m[45] == 0x36 && m[46] == 0x36 && m[47] == 0x36
  {
    var m := InnerInput(HiThereKey, HiThereMessage);
    NormalizeKeyPrefix(HiThereKey);
    var k := NormalizeKey(HiThereKey);
    assert m[32] == k[32] ^ 0x36;
    assert m[33] == k[33] ^ 0x36;
    assert m[34] == k[34] ^ 0x36;
    assert m[35] == k[35] ^ 0x36;
    assert m[36] == k[36] ^ 0x36;
    assert m[37] == k[37] ^ 0x36;
    assert m[38] == k[38] ^ 0x36;
    assert m[39] == k[39] ^ 0x36;
    assert m[40] == k[40] ^ 0x36;
    assert m[41] == k[41] ^ 0x36;
    assert m[42] == k[42] ^ 0x36;
    assert m[43] == k[43] ^ 0x36;
    assert m[44] == k[44] ^ 0x36;
    assert m[45] == k[45] ^ 0x36;
    assert m[46] == k[46] ^ 0x36;
    assert m[47] == k[47] ^ 0x36;
  }

  lemma HiThereInnerInput3()
    ensures |InnerInput(HiThereKey, HiThereMessage)| == 72
    ensures var m := InnerInput(HiThereKey, HiThereMessage);
      m[48] == 0x36 && m[49] == 0x36 && m[50] == 0x36 && m[51] == 0x36 &&
      m[52] == 0x36 && m[53] == 0x36 && m[54] == 0x36 && m[55] == 0x36 &&
      m[56] == 0x36 && m[57] == 0x36 && m[58] == 0x36 && m[59] == 0x36 &&
      m[60] == 0x36 && m[61] == 0x36 && m[62] == 0x36 && m[63] == 0x36
  {
    var m := InnerInput(HiThereKey, HiThereMessage);
    NormalizeKeyPrefix(HiThereKey);
    var k := NormalizeKey(HiThereKey);
    assert m[48] == k[48] ^ 0x36;
    assert m[49] == k[49] ^ 0x36;
    assert m[50] == k[50] ^ 0x36;
    assert m[51] == k[51] ^ 0x36;
    assert m[52] == k[52] ^ 0x36;
    assert m[53] == k[53] ^ 0x36;
    assert m[54] == k[54] ^ 0x36;
    assert m[55] == k[55] ^ 0x36;
    assert m[56] == k[56] ^ 0x36;
    assert m[57] == k[57] ^ 0x36;
    assert m[58] == k[58] ^ 0x36;
    assert m[59] == k[59] ^ 0x36;
    assert m[60] == k[60] ^ 0x36;
    assert m[61] == k[61] ^ 0x36;
    assert m[62] == k[62] ^ 0x36;
    assert m[63] == k[63] ^ 0x36;
  }

  lemma HiThereInnerInput4()
    ensures |InnerInput(HiThereKey, HiThereMessage)| == 72
    ensures var m := InnerInput(HiThereKey, HiThereMessage);
      m[64] == 0x48 && m[65] == 0x69 && m[66] == 0x20 && m[67] == 0x54 &&
      m[68] == 0x68 && m[69] == 0x65 && m[70] == 0x72 && m[71] == 0x65
  {
    var m := InnerInput(HiThereKey, HiThereMessage);
    assert m[64] == m[64..][0];
    assert m[65] == m[64..][1];
    assert m[66] == m[64..][2];
    assert m[67] == m[64..][3];
    assert m[68] == m[64..][4];
    assert m[69] == m[64..][5];
    assert m[70] == m[64..][6];
    assert m[71] == m[64..][7];
  }

  lemma HiThereInnerLength()
    ensures |Sha1.Pad(InnerInput(HiThereKey, HiThereMessage))| == 128
  {
    HmacInputLength(HiThereKey, HiThereMessage);
  }

  lemma HiThereInnerBytes0(p: seq<byte>)
    requires p == Sha1.Pad(InnerInput(HiThereKey, HiThereMessage))
    ensures |p| == 128
    ensures p[0] == 0x3D && p[1] == 0x3D && p[2] == 0x3D && p[3] == 0x3D &&
      p[4] == 0x3D && p[5] == 0x3D && p[6] == 0x3D && p[7] == 0x3D &&
      p[8] == 0x3D && p[9] == 0x3D && p[10] == 0x3D && p[11] == 0x3D &&
      p[12] == 0x3D && p[13] == 0x3D && p[14] == 0x3D && p[15] == 0x3D
  {
    var m := InnerInput(HiThereKey, HiThereMessage);
    HiThereInnerLength();
    HiThereInnerInput0();
    Sha1.PadShape(m);
    assert p[0] == p[..72][0];
    assert p[1] == p[..72][1];
    assert p[2] == p[..72][2];
    assert p[3] == p[..72][3];
    assert p[4] == p[..72][4];
    assert p[5] == p[..72][5];
    assert p[6] == p[..72][6];
    assert p[7] == p[..72][7];
    assert p[8] == p[..72][8];
    assert p[9] == p[..72][9];
    assert p[10] == p[..72][10];
    assert p[11] == p[..72][11];
    assert p[12] == p[..72][12];
    assert p[13] == p[..72][13];
    assert p[14] == p[..72][14];
    assert p[15] == p[..72][15];
  }

  lemma HiThereInnerBytes1(p: seq<byte>)
    requires p == Sha1.Pad(InnerInput(HiThereKey, HiThereMessage))
    ensures |p| == 128
    ensures p[16] == 0x3D && p[17] == 0x3D && p[18] == 0x3D && p[19] == 0x3D &&
      p[20] == 0x36 && p[21] == 0x36 && p[22] == 0x36 && p[23] == 0x36 &&
      p[24] == 0x36 && p[25] == 0x36 && p[26] == 0x36 && p[27] == 0x36 &&
      p[28] == 0x36 && p[29] == 0x36 && p[30] == 0x36 && p[31] == 0x36
  {
    var m := InnerInput(HiThereKey, HiThereMessage);
    HiThereInnerLength();
    HiThereInnerInput1();
    Sha1.PadShape(m);
    assert p[16] == p[..72][16];
    assert p[17] == p[..72][17];
    assert p[18] == p[..72][18];
    assert p[19] == p[..72][19];
    assert p[20] == p[..72][20];
    assert p[21] == p[..72][21];
    assert p[22] == p[..72][22];
    assert p[23] == p[..72][23];
    assert p[24] == p[..72][24];
    assert p[25] == p[..72][25];
    assert p[26] == p[..72][26];
    assert p[27] == p[..72][27];
    assert p[28] == p[..72][28];
    assert p[29] == p[..72][29];
    assert p[30] == p[..72][30];
    assert p[31] == p[..72][31];
  }

  lemma HiThereInnerBytes2(p: seq<byte>)
    requires p == Sha1.Pad(InnerInput(HiThereKey, HiThereMessage))
    ensures |p| == 128
    ensures p[32] == 0x36 && p[33] == 0x36 && p[34] == 0x36 && p[35] == 0x36 &&
      p[36] == 0x36 && p[37] == 0x36 && p[38] == 0x36 && p[39] == 0x36 &&
      p[40] == 0x36 && p[41] == 0x36 && p[42] == 0x36 && p[43] == 0x36 &&
      p[44] == 0x36 && p[45] == 0x36 && p[46] == 0x36 && p[47] == 0x36
  {
    var m := InnerInput(HiThereKey, HiThereMessage);
    HiThereInnerLength();
    HiThereInnerInput2();
    Sha1.PadShape(m);
    assert p[32] == p[..72][32];
    assert p[33] == p[..72][33];
    assert p[34] == p[..72][34];
    assert p[35] == p[..72][35];
    assert p[36] == p[..72][36];
    assert p[37] == p[..72][37];
    assert p[38] == p[..72][38];
    assert p[39] == p[..72][39];
    assert p[40] == p[..72][40];
    assert p[41] == p[..72][41];
    assert p[42] == p[..72][42];
    assert p[43] == p[..72][43];
    assert p[44] == p[..72][44];
    assert p[45] == p[..72][45];
    assert p[46] == p[..72][46];
    assert p[47] == p[..72][47];
  }

  lemma HiThereInnerBytes3(p: seq<byte>)
    requires p == Sha1.Pad(InnerInput(HiThereKey, HiThereMessage))
    ensures |p| == 128
    ensures p[48] == 0x36 && p[49] == 0x36 && p[50] == 0x36 && p[51] == 0x36 &&
      p[52] == 0x36 && p[53] == 0x36 && p[54] == 0x36 && p[55] == 0x36 &&
      p[56] == 0x36 && p[57] == 0x36 && p[58] == 0x36 && p[59] == 0x36 &&
      p[60] == 0x36 && p[61] == 0x36 && p[62] == 0x36 && p[63] == 0x36
  {
    var m := InnerInput(HiThereKey, HiThereMessage);
    HiThereInnerLength();
    HiThereInnerInput3();
    Sha1.PadShape(m);
    assert p[48] == p[..72][48];
    assert p[49] == p[..72][49];
    assert p[50] == p[..72][50];
    assert p[51] == p[..72][51];
    assert p[52] == p[..72][52];
    assert p[53] == p[..72][53];
    assert p[54] == p[..72][54];
    assert p[55] == p[..72][55];
    assert p[56] == p[..72][56];
    assert p[57] == p[..72][57];
    assert p[58] == p[..72][58];
    assert p[59] == p[..72][59];
    assert p[60] == p[..72][60];
    assert p[61] == p[..72][61];
    assert p[62] == p[..72][62];
    assert p[63] == p[..72][63];
  }

  lemma HiThereInnerBytes4(p: seq<byte>)
    requires p == Sha1.Pad(InnerInput(HiThereKey, HiThereMessage))
    ensures |p| == 128
    ensures p[64] == 0x48 && p[65] == 0x69 && p[66] == 0x20 && p[67] == 0x54 &&
      p[68] == 0x68 && p[69] == 0x65 && p[70] == 0x72 && p[71] == 0x65 &&
      p[72] == 0x80 && p[73] == 0x00 && p[74] == 0x00 && p[75] == 0x00 &&
      p[76] == 0x00 && p[77] == 0x00 && p[78] == 0x00 && p[79] == 0x00
  {
    var m := InnerInput(HiThereKey, HiThereMessage);
    HiThereInnerLength();
    HiThereInnerInput4();
    Sha1.PadShape(m);
    assert p[64] == p[..72][64];
    assert p[65] == p[..72][65];
    assert p[66] == p[..72][66];
    assert p[67] == p[..72][67];
    assert p[68] == p[..72][68];
    assert p[69] == p[..72][69];
    assert p[70] == p[..72][70];
    assert p[71] == p[..72][71];
  }

  lemma HiThereInnerBytes5(p: seq<byte>)
    requires p == Sha1.Pad(InnerInput(HiThereKey, HiThereMessage))
    ensures |p| == 128
    ensures p[80] == 0x00 && p[81] == 0x00 && p[82] == 0x00 && p[83] == 0x00 &&
      p[84] == 0x00 && p[85] == 0x00 && p[86] == 0x00 && p[87] == 0x00 &&
      p[88] == 0x00 && p[89] == 0x00 && p[90] == 0x00 && p[91] == 0x00 &&
      p[92] == 0x00 && p[93] == 0x00 && p[94] == 0x00 && p[95] == 0x00
  {
    var m := InnerInput(HiThereKey, HiThereMessage);
    HiThereInnerLength();
    Sha1.PadShape(m);
  }

  lemma HiThereInnerBytes6(p: seq<byte>)
    requires p == Sha1.Pad(InnerInput(HiThereKey, HiThereMessage))
    ensures |p| == 128
    ensures p[96] == 0x00 && p[97] == 0x00 && p[98] == 0x00 && p[99] == 0x00 &&
      p[100] == 0x00 && p[101] == 0x00 && p[102] == 0x00 && p[103] == 0x00 &&
      p[104] == 0x00 && p[105] == 0x00 && p[106] == 0x00 && p[107] == 0x00 &&
      p[108] == 0x00 && p[109] == 0x00 && p[110] == 0x00 && p[111] == 0x00
  {
    var m := InnerInput(HiThereKey, HiThereMessage);
    HiThereInnerLength();
    Sha1.PadShape(m);
  }

  lemma HiThereInnerBytes7(p: seq<byte>)
    requires p == Sha1.Pad(InnerInput(HiThereKey, HiThereMessage))
    ensures |p| == 128
    ensures p[112] == 0x00 && p[113] == 0x00 && p[114] == 0x00 && p[115] == 0x00 &&
      p[116] == 0x00 && p[117] == 0x00 && p[118] == 0x00 && p[119] == 0x00 &&
      p[120] == 0x00 && p[121] == 0x00 && p[122] == 0x00 && p[123] == 0x00 &&
      p[124] == 0x00 && p[125] == 0x00 && p[126] == 0x02 && p[127] == 0x40
  {
    var m := InnerInput(HiThereKey, HiThereMessage);
    HiThereInnerLength();
    Sha1.PadShape(m);
    LengthField240();
    assert p[120] == p[120..][0];
    assert p[121] == p[120..][1];
    assert p[122] == p[120..][2];
    assert p[123] == p[120..][3];
    assert p[124] == p[120..][4];
    assert p[125] == p[120..][5];
    assert p[126] == p[120..][6];
    assert p[127] == p[120..][7];
  }

  lemma HiThereInnerWords0(p: seq<byte>)
    requires |p| == 128
    requires p[0] == 0x3D && p[1] == 0x3D && p[2] == 0x3D && p[3] == 0x3D &&
      p[4] == 0x3D && p[5] == 0x3D && p[6] == 0x3D && p[7] == 0x3D &&
      p[8] == 0x3D && p[9] == 0x3D && p[10] == 0x3D && p[11] == 0x3D &&
      p[12] == 0x3D && p[13] == 0x3D && p[14] == 0x3D && p[15] == 0x3D
    ensures var b := Split(p)[0].words;
      b[0] == 0x3D3D3D3D && b[1] == 0x3D3D3D3D && b[2] == 0x3D3D3D3D && b[3] == 0x3D3D3D3D
  {
    SplitWords(p, 0, 0);
    SplitWords(p, 0, 1);
    SplitWords(p, 0, 2);
    SplitWords(p, 0, 3);
  }

  lemma HiThereInnerWords1(p: seq<byte>)
    requires |p| == 128
    requires p[16] == 0x3D && p[17] == 0x3D && p[18] == 0x3D && p[19] == 0x3D &&
      p[20] == 0x36 && p[21] == 0x36 && p[22] == 0x36 && p[23] == 0x36 &&
      p[24] == 0x36 && p[25] == 0x36 && p[26] == 0x36 && p[27] == 0x36 &&
      p[28] == 0x36 && p[29] == 0x36 && p[30] == 0x36 && p[31] == 0x36
    ensures var b := Split(p)[0].words;
      b[4] == 0x3D3D3D3D && b[5] == 0x36363636 && b[6] == 0x36363636 && b[7] == 0x36363636
  {
    SplitWords(p, 0, 4);
    SplitWords(p, 0, 5);
    SplitWords(p, 0, 6);
    SplitWords(p, 0, 7);
  }

  lemma HiThereInnerWords2(p: seq<byte>)
    requires |p| == 128
    requires p[32] == 0x36 && p[33] == 0x36 && p[34] == 0x36 && p[35] == 0x36 &&
      p[36] == 0x36 && p[37] == 0x36 && p[38] == 0x36 && p[39] == 0x36 &&
      p[40] == 0x36 && p[41] == 0x36 && p[42] == 0x36 && p[43] == 0x36 &&
      p[44] == 0x36 && p[45] == 0x36 && p[46] == 0x36 && p[47] == 0x36
    ensures var b := Split(p)[0].words;
      b[8] == 0x36363636 && b[9] == 0x36363636 && b[10] == 0x36363636 && b[11] == 0x36363636
  {
    SplitWords(p, 0, 8);
    SplitWords(p, 0, 9);
    SplitWords(p, 0, 10);
    SplitWords(p, 0, 11);
  }

  lemma HiThereInnerWords3(p: seq<byte>)
    requires |p| == 128
    requires p[48] == 0x36 && p[49] == 0x36 && p[50] == 0x36 && p[51] == 0x36 &&
      p[52] == 0x36 && p[53] == 0x36 && p[54] == 0x36 && p[55] == 0x36 &&
      p[56] == 0x36 && p[57] == 0x36 && p[58] == 0x36 && p[59] == 0x36 &&
      p[60] == 0x36 && p[61] == 0x36 && p[62] == 0x36 && p[63] == 0x36
    ensures var b := Split(p)[0].words;
      b[12] == 0x36363636 && b[13] == 0x36363636 && b[14] == 0x36363636 && b[15] == 0x36363636
  {
    SplitWords(p, 0, 12);
    SplitWords(p, 0, 13);
    SplitWords(p, 0, 14);
    SplitWords(p, 0, 15);
  }

  lemma HiThereInnerWords4(p: seq<byte>)
    requires |p| == 128
    requires p[64] == 0x48 && p[65] == 0x69 && p[66] == 0x20 && p[67] == 0x54 &&
      p[68] == 0x68 && p[69] == 0x65 && p[70] == 0x72 && p[71] == 0x65 &&
      p[72] == 0x80 && p[73] == 0x00 && p[74] == 0x00 && p[75] == 0x00 &&
      p[76] == 0x00 && p[77] == 0x00 && p[78] == 0x00 && p[79] == 0x00
    ensures var b := Split(p)[1].words;
      b[0] == 0x48692054 && b[1] == 0x68657265 && b[2] == 0x80000000 && b[3] == 0x00000000
  {
    SplitWords(p, 1, 0);
    SplitWords(p, 1, 1);
    SplitWords(p, 1, 2);
    SplitWords(p, 1, 3);
  }

  lemma HiThereInnerWords5(p: seq<byte>)
    requires |p| == 128
    requires p[80] == 0x00 && p[81] == 0x00 && p[82] == 0x00 && p[83] == 0x00 &&
      p[84] == 0x00 && p[85] == 0x00 && p[86] == 0x00 && p[87] == 0x00 &&
      p[88] == 0x00 && p[89] == 0x00 && p[90] == 0x00 && p[91] == 0x00 &&
      p[92] == 0x00 && p[93] == 0x00 && p[94] == 0x00 && p[95] == 0x00
    ensures var b := Split(p)[1].words;
      b[4] == 0x00000000 && b[5] == 0x00000000 && b[6] == 0x00000000 && b[7] == 0x00000000
  {
    SplitWords(p, 1, 4);
    SplitWords(p, 1, 5);
    SplitWords(p, 1, 6);
    SplitWords(p, 1, 7);
  }

  lemma HiThereInnerWords6(p: seq<byte>)
    requires |p| == 128
    requires p[96] == 0x00 && p[97] == 0x00 && p[98] == 0x00 && p[99] == 0x00 &&
      p[100] == 0x00 && p[101] == 0x00 && p[102] == 0x00 && p[103] == 0x00 &&
      p[104] == 0x00 && p[105] == 0x00 && p[106] == 0x00 && p[107] == 0x00 &&
      p[108] == 0x00 && p[109] == 0x00 && p[110] == 0x00 && p[111] == 0x00
    ensures var b := Split(p)[1].words;
      b[8] == 0x00000000 && b[9] == 0x00000000 && b[10] == 0x00000000 && b[11] == 0x00000000
  {
    SplitWords(p, 1, 8);
    SplitWords(p, 1, 9);
    SplitWords(p, 1, 10);
    SplitWords(p, 1, 11);
  }

  lemma HiThereInnerWords7(p: seq<byte>)
    requires |p| == 128
    requires p[112] == 0x00 && p[113] == 0x00 && p[114] == 0x00 && p[115] == 0x00 &&
      p[116] == 0x00 && p[117] == 0x00 && p[118] == 0x00 && p[119] == 0x00 &&
      p[120] == 0x00 && p[121] == 0x00 && p[122] == 0x00 && p[123] == 0x00 &&
      p[124] == 0x00 && p[125] == 0x00 && p[126] == 0x02 && p[127] == 0x40
    ensures var b := Split(p)[1].words;
      b[12] == 0x00000000 && b[13] == 0x00000000 && b[14] == 0x00000000 && b[15] == 0x00000240
  {
    SplitWords(p, 1, 12);
    SplitWords(p, 1, 13);
    SplitWords(p, 1, 14);
    SplitWords(p, 1, 15);
  }

  lemma HiThereInnerBlock0(p: seq<byte>)
    requires p == Sha1.Pad(InnerInput(HiThereKey, HiThereMessage))
    requires |p| == 128
    ensures var b := Split(p)[0].words;
      b[0] == 0x3D3D3D3D && b[1] == 0x3D3D3D3D && b[2] == 0x3D3D3D3D && b[3] == 0x3D3D3D3D &&
      b[4] == 0x3D3D3D3D && b[5] == 0x36363636 && b[6] == 0x36363636 && b[7] == 0x36363636 &&
      b[8] == 0x36363636 && b[9] == 0x36363636 && b[10] == 0x36363636 && b[11] == 0x36363636 &&
      b[12] == 0x36363636 && b[13] == 0x36363636 && b[14] == 0x36363636 && b[15] == 0x36363636
  {
    HiThereInnerBytes0(p);
    HiThereInnerWords0(p);
    HiThereInnerBytes1(p);
    HiThereInnerWords1(p);
    HiThereInnerBytes2(p);
    HiThereInnerWords2(p);
    HiThereInnerBytes3(p);
    HiThereInnerWords3(p);
  }

  lemma HiThereInnerBlock1(p: seq<byte>)
    requires p == Sha1.Pad(InnerInput(HiThereKey, HiThereMessage))
    requires |p| == 128
    ensures var b := Split(p)[1].words;
      b[0] == 0x48692054 && b[1] == 0x68657265 && b[2] == 0x80000000 && b[3] == 0x00000000 &&
      b[4] == 0x00000000 && b[5] == 0x00000000 && b[6] == 0x00000000 && b[7] == 0x00000000 &&
      b[8] == 0x00000000 && b[9] == 0x00000000 && b[10] == 0x00000000 && b[11] == 0x00000000 &&
      b[12] == 0x00000000 && b[13] == 0x00000000 && b[14] == 0x00000000 && b[15] == 0x00000240
  {
    HiThereInnerBytes4(p);
    HiThereInnerWords4(p);
    HiThereInnerBytes5(p);
    HiThereInnerWords5(p);
    HiThereInnerBytes6(p);
    HiThereInnerWords6(p);
    HiThereInnerBytes7(p);
    HiThereInnerWords7(p);
  }

  lemma HiThereInner0Schedule0(w: seq<word>)
    requires |w| == 80 && forall i :: 16 <= i < 80 ==> Follows(w, i)
    requires w[0] == 0x3D3D3D3D && w[1] == 0x3D3D3D3D && w[2] == 0x3D3D3D3D && w[3] == 0x3D3D3D3D &&
      w[4] == 0x3D3D3D3D && w[5] == 0x36363636 && w[6] == 0x36363636 && w[7] == 0x36363636 &&
      w[8] == 0x36363636 && w[9] == 0x36363636 && w[10] == 0x36363636 && w[11] == 0x36363636 &&
      w[12] == 0x36363636 && w[13] == 0x36363636 && w[14] == 0x36363636 && w[15] == 0x36363636
    ensures w[16] == 0x00000000 && w[17] == 0x00000000 && w[18] == 0x00000000 && w[19] == 0x7A7A7A7A &&
      w[20] == 0x7A7A7A7A && w[21] == 0x6C6C6C6C && w[22] == 0x98989898 && w[23] == 0x98989898 &&
      w[24] == 0xD8D8D8D8 && w[25] == 0x31313131 && w[26] == 0x31313131 && w[27] == 0x45454545 &&
      w[28] == 0x96969696 && w[29] == 0xBABABABA && w[30] == 0xD7D7D7D7 && w[31] == 0x70707070
  {
    assert Follows(w, 16);
    assert Follows(w, 17);
    assert Follows(w, 18);
    assert Follows(w, 19);
    assert Follows(w, 20);
    assert Follows(w, 21);
    assert Follows(w, 22);
    assert Follows(w, 23);
    assert Follows(w, 24);
    assert Follows(w, 25);
    assert Follows(w, 26);
    assert Follows(w, 27);
    assert Follows(w, 28);
    assert Follows(w, 29);
    assert Follows(w, 30);
    assert Follows(w, 31);
  }

  lemma HiThereInner0Schedule1(w: seq<word>)
    requires |w| == 80 && forall i :: 16 <= i < 80 ==> Follows(w, i)
    requires w[16] == 0x00000000 && w[17] == 0x00000000 && w[18] == 0x00000000 && w[19] == 0x7A7A7A7A &&
      w[20] == 0x7A7A7A7A && w[21] == 0x6C6C6C6C && w[22] == 0x98989898 && w[23] == 0x98989898 &&
      w[24] == 0xD8D8D8D8 && w[25] == 0x31313131 && w[26] == 0x31313131 && w[27] == 0x45454545 &&
      w[28] == 0x96969696 && w[29] == 0xBABABABA && w[30] == 0xD7D7D7D7 && w[31] == 0x70707070
    ensures w[32] == 0xC4C4C4C4 && w[33] == 0x39393939 && w[34] == 0x76767676 && w[35] == 0x2F2F2F2F &&
      w[36] == 0x9A9A9A9A && w[37] == 0x70707070 && w[38] == 0x71717171 && w[39] == 0x86868686 &&
      w[40] == 0xBABABABA && w[41] == 0x78787878 && w[42] == 0xAEAEAEAE && w[43] == 0xD4D4D4D4 &&
      w[44] == 0x47474747 && w[45] == 0x28282828 && w[46] == 0x6D6D6D6D && w[47] == 0x11111111
  {
    assert Follows(w, 32);
    assert Follows(w, 33);
    assert Follows(w, 34);
    assert Follows(w, 35);
    assert Follows(w, 36);
    assert Follows(w, 37);
    assert Follows(w, 38);
    assert Follows(w, 39);
    assert Follows(w, 40);
    assert Follows(w, 41);
    assert Follows(w, 42);
    assert Follows(w, 43);
    assert Follows(w, 44);
    assert Follows(w, 45);
    assert Follows(w, 46);
    assert Follows(w, 47);
  }

  lemma HiThereInner0Schedule2(w: seq<word>)
    requires |w| == 80 && forall i :: 16 <= i < 80 ==> Follows(w, i)
    requires w[32] == 0xC4C4C4C4 && w[33] == 0x39393939 && w[34] == 0x76767676 && w[35] == 0x2F2F2F2F &&
      w[36] == 0x9A9A9A9A && w[37] == 0x70707070 && w[38] == 0x71717171 && w[39] == 0x86868686 &&
      w[40] == 0xBABABABA && w[41] == 0x78787878 && w[42] == 0xAEAEAEAE && w[43] == 0xD4D4D4D4 &&
      w[44] == 0x47474747 && w[45] == 0x28282828 && w[46] == 0x6D6D6D6D && w[47] == 0x11111111
    ensures w[48] == 0x40404040 && w[49] == 0x06060606 && w[50] == 0xA6A6A6A6 && w[51] == 0x97979797 &&
      w[52] == 0x55555555 && w[53] == 0xF0F0F0F0 && w[54] == 0x62626262 && w[55] == 0x75757575 &&
      w[56] == 0x49494949 && w[57] == 0x91919191 && w[58] == 0x74747474 && w[59] == 0x44444444 &&
      w[60] == 0xDDDDDDDD && w[61] == 0x7B7B7B7B && w[62] == 0x16161616 && w[63] == 0x7F7F7F7F
  {
    assert Follows(w, 48);
    assert Follows(w, 49);
    assert Follows(w, 50);
    assert Follows(w, 51);
    assert Follows(w, 52);
    assert Follows(w, 53);
    assert Follows(w, 54);
    assert Follows(w, 55);
    assert Follows(w, 56);
    assert Follows(w, 57);
    assert Follows(w, 58);
    assert Follows(w, 59);
    assert Follows(w, 60);
    assert Follows(w, 61);
    assert Follows(w, 62);
    assert Follows(w, 63);
  }

  lemma HiThereInner0Schedule3(w: seq<word>)
    requires |w| == 80 && forall i :: 16 <= i < 80 ==> Follows(w, i)
    requires w[48] == 0x40404040 && w[49] == 0x06060606 && w[50] == 0xA6A6A6A6 && w[51] == 0x97979797 &&
      w[52] == 0x55555555 && w[53] == 0xF0F0F0F0 && w[54] == 0x62626262 && w[55] == 0x75757575 &&
      w[56] == 0x49494949 && w[57] == 0x91919191 && w[58] == 0x74747474 && w[59] == 0x44444444 &&
      w[60] == 0xDDDDDDDD && w[61] == 0x7B7B7B7B && w[62] == 0x16161616 && w[63] == 0x7F7F7F7F
    ensures w[64] == 0xA9A9A9A9 && w[65] == 0x2C2C2C2C && w[66] == 0xF1F1F1F1 && w[67] == 0x15151515 &&
      w[68] == 0x8D8D8D8D && w[69] == 0x1E1E1E1E && w[70] == 0x50505050 && w[71] == 0x2C2C2C2C &&
      w[72] == 0x15151515 && w[73] == 0x53535353 && w[74] == 0xE8E8E8E8 && w[75] == 0x7E7E7E7E &&
      w[76] == 0x2A2A2A2A && w[77] == 0xE5E5E5E5 && w[78] == 0x23232323 && w[79] == 0xAAAAAAAA
  {
    assert Follows(w, 64);
    assert Follows(w, 65);
    assert Follows(w, 66);
    assert Follows(w, 67);
    assert Follows(w, 68);
    assert Follows(w, 69);
    assert Follows(w, 70);
    assert Follows(w, 71);
    assert Follows(w, 72);
    assert Follows(w, 73);
    assert Follows(w, 74);
    assert Follows(w, 75);
    assert Follows(w, 76);
    assert Follows(w, 77);
    assert Follows(w, 78);
    assert Follows(w, 79);
  }

  lemma HiThereInner0Rounds0(w: seq<word>)
    requires |w| == 80
    requires w[0] == 0x3D3D3D3D && w[1] == 0x3D3D3D3D && w[2] == 0x3D3D3D3D && w[3] == 0x3D3D3D3D &&
      w[4] == 0x3D3D3D3D && w[5] == 0x36363636 && w[6] == 0x36363636 && w[7] == 0x36363636 &&
      w[8] == 0x36363636 && w[9] == 0x36363636 && w[10] == 0x36363636 && w[11] == 0x36363636 &&
      w[12] == 0x36363636 && w[13] == 0x36363636 && w[14] == 0x36363636 && w[15] == 0x36363636 &&
      w[16] == 0x00000000 && w[17] == 0x00000000 && w[18] == 0x00000000 && w[19] == 0x7A7A7A7A
    requires Compress(IV, w, 0) == Regs(0x67452301, 0xEFCDAB89, 0x98BADCFE, 0x10325476, 0xC3D2E1F0)
    ensures Compress(IV, w, 20) == Regs(0x01827D30, 0x772495F0, 0x51E3CDE6, 0x26756525, 0x91C4B45D)
  {
    assert Round(Regs(0x67452301, 0xEFCDAB89, 0x98BADCFE, 0x10325476, 0xC3D2E1F0), 0x3D3D3D3D, 0) == Regs(0xDCF1D5F0, 0x67452301, 0x7BF36AE2, 0x98BADCFE, 0x10325476);
    assert Compress(IV, w, 1) == Regs(0xDCF1D5F0, 0x67452301, 0x7BF36AE2, 0x98BADCFE, 0x10325476);
    assert Round(Regs(0xDCF1D5F0, 0x67452301, 0x7BF36AE2, 0x98BADCFE, 0x10325476), 0x3D3D3D3D, 1) == Regs(0x4228C865, 0xDCF1D5F0, 0x59D148C0, 0x7BF36AE2, 0x98BADCFE);
    assert Compress(IV, w, 2) == Regs(0x4228C865, 0xDCF1D5F0, 0x59D148C0, 0x7BF36AE2, 0x98BADCFE);
    assert Round(Regs(0x4228C865, 0xDCF1D5F0, 0x59D148C0, 0x7BF36AE2, 0x98BADCFE), 0x3D3D3D3D, 2) == Regs(0xF1670B3E, 0x4228C865, 0x373C757C, 0x59D148C0, 0x7BF36AE2);
    assert Compress(IV, w, 3) == Regs(0xF1670B3E, 0x4228C865, 0x373C757C, 0x59D148C0, 0x7BF36AE2);
    assert Round(Regs(0xF1670B3E, 0x4228C865, 0x373C757C, 0x59D148C0, 0x7BF36AE2), 0x3D3D3D3D, 3) == Regs(0x5C8DCA7A, 0xF1670B3E, 0x508A3219, 0x373C757C, 0x59D148C0);
    assert Compress(IV, w, 4) == Regs(0x5C8DCA7A, 0xF1670B3E, 0x508A3219, 0x373C757C, 0x59D148C0);
    assert Round(Regs(0x5C8DCA7A, 0xF1670B3E, 0x508A3219, 0x373C757C, 0x59D148C0), 0x3D3D3D3D, 4) == Regs(0xD964C539, 0x5C8DCA7A, 0xBC59C2CF, 0x508A3219, 0x373C757C);
    assert Compress(IV, w, 5) == Regs(0xD964C539, 0x5C8DCA7A, 0xBC59C2CF, 0x508A3219, 0x373C757C);
    assert Round(Regs(0xD964C539, 0x5C8DCA7A, 0xBC59C2CF, 0x508A3219, 0x373C757C), 0x36363636, 5) == Regs(0x1099BED1, 0xD964C539, 0x9723729E, 0xBC59C2CF, 0x508A3219);
    assert Compress(IV, w, 6) == Regs(0x1099BED1, 0xD964C539, 0x9723729E, 0xBC59C2CF, 0x508A3219);
    assert Round(Regs(0x1099BED1, 0xD964C539, 0x9723729E, 0xBC59C2CF, 0x508A3219), 0x36363636, 6) == Regs(0xA9B3FEE8, 0x1099BED1, 0x7659314E, 0x9723729E, 0xBC59C2CF);
    assert Compress(IV, w, 7) == Regs(0xA9B3FEE8, 0x1099BED1, 0x7659314E, 0x9723729E, 0xBC59C2CF);
    assert Round(Regs(0xA9B3FEE8, 0x1099BED1, 0x7659314E, 0x9723729E, 0xBC59C2CF), 0x36363636, 7) == Regs(0x1ACDC001, 0xA9B3FEE8, 0x44266FB4, 0x7659314E, 0x9723729E);
    assert Compress(IV, w, 8) == Regs(0x1ACDC001, 0xA9B3FEE8, 0x44266FB4, 0x7659314E, 0x9723729E);
    assert Round(Regs(0x1ACDC001, 0xA9B3FEE8, 0x44266FB4, 0x7659314E, 0x9723729E), 0x36363636, 8) == Regs(0xD7FE9236, 0x1ACDC001, 0x2A6CFFBA, 0x44266FB4, 0x7659314E);
    assert Compress(IV, w, 9) == Regs(0xD7FE9236, 0x1ACDC001, 0x2A6CFFBA, 0x44266FB4, 0x7659314E);
    assert Round(Regs(0xD7FE9236, 0x1ACDC001, 0x2A6CFFBA, 0x44266FB4, 0x7659314E), 0x36363636, 9) == Regs(0x555317AB, 0xD7FE9236, 0x46B37000, 0x2A6CFFBA, 0x44266FB4);
    assert Compress(IV, w, 10) == Regs(0x555317AB, 0xD7FE9236, 0x46B37000, 0x2A6CFFBA, 0x44266FB4);
    assert Round(Regs(0x555317AB, 0xD7FE9236, 0x46B37000, 0x2A6CFFBA, 0x44266FB4), 0x36363636, 10) == Regs(0xEDF49275, 0x555317AB, 0xB5FFA48D, 0x46B37000, 0x2A6CFFBA);
    assert Compress(IV, w, 11) == Regs(0xEDF49275, 0x555317AB, 0xB5FFA48D, 0x46B37000, 0x2A6CFFBA);
    assert Round(Regs(0xEDF49275, 0x555317AB, 0xB5FFA48D, 0x46B37000, 0x2A6CFFBA), 0x36363636, 11) == Regs(0x91AB62CF, 0xEDF49275, 0xD554C5EA, 0xB5FFA48D, 0x46B37000);
    assert Compress(IV, w, 12) == Regs(0x91AB62CF, 0xEDF49275, 0xD554C5EA, 0xB5FFA48D, 0x46B37000);
    assert Round(Regs(0x91AB62CF, 0xEDF49275, 0xD554C5EA, 0xB5FFA48D, 0x46B37000), 0x36363636, 12) == Regs(0xE2381EA9, 0x91AB62CF, 0x7B7D249D, 0xD554C5EA, 0xB5FFA48D);
    assert Compress(IV, w, 13) == Regs(0xE2381EA9, 0x91AB62CF, 0x7B7D249D, 0xD554C5EA, 0xB5FFA48D);
    assert Round(Regs(0xE2381EA9, 0x91AB62CF, 0x7B7D249D, 0xD554C5EA, 0xB5FFA48D), 0x36363636, 13) == Regs(0xE339CF45, 0xE2381EA9, 0xE46AD8B3, 0x7B7D249D, 0xD554C5EA);
    assert Compress(IV, w, 14) == Regs(0xE339CF45, 0xE2381EA9, 0xE46AD8B3, 0x7B7D249D, 0xD554C5EA);
    assert Round(Regs(0xE339CF45, 0xE2381EA9, 0xE46AD8B3, 0x7B7D249D, 0xD554C5EA), 0x36363636, 14) == Regs(0xC6B4972A, 0xE339CF45, 0x788E07AA, 0xE46AD8B3, 0x7B7D249D);
    assert Compress(IV, w, 15) == Regs(0xC6B4972A, 0xE339CF45, 0x788E07AA, 0xE46AD8B3, 0x7B7D249D);
    assert Round(Regs(0xC6B4972A, 0xE339CF45, 0x788E07AA, 0xE46AD8B3, 0x7B7D249D), 0x36363636, 15) == Regs(0x4712D176, 0xC6B4972A, 0x78CE73D1, 0x788E07AA, 0xE46AD8B3);
    assert Compress(IV, w, 16) == Regs(0x4712D176, 0xC6B4972A, 0x78CE73D1, 0x788E07AA, 0xE46AD8B3);
    assert Round(Regs(0x4712D176, 0xC6B4972A, 0x78CE73D1, 0x788E07AA, 0xE46AD8B3), 0x00000000, 16) == Regs(0x99D59494, 0x4712D176, 0xB1AD25CA, 0x78CE73D1, 0x788E07AA);
    assert Compress(IV, w, 17) == Regs(0x99D59494, 0x4712D176, 0xB1AD25CA, 0x78CE73D1, 0x788E07AA);
    assert Round(Regs(0x99D59494, 0x4712D176, 0xB1AD25CA, 0x78CE73D1, 0x788E07AA), 0x00000000, 17) == Regs(0x478F3799, 0x99D59494, 0x91C4B45D, 0xB1AD25CA, 0x78CE73D1);
    assert Compress(IV, w, 18) == Regs(0x478F3799, 0x99D59494, 0x91C4B45D, 0xB1AD25CA, 0x78CE73D1);
    assert Round(Regs(0x478F3799, 0x99D59494, 0x91C4B45D, 0xB1AD25CA, 0x78CE73D1), 0x00000000, 18) == Regs(0x772495F0, 0x478F3799, 0x26756525, 0x91C4B45D, 0xB1AD25CA);
    assert Compress(IV, w, 19) == Regs(0x772495F0, 0x478F3799, 0x26756525, 0x91C4B45D, 0xB1AD25CA);
    assert Round(Regs(0x772495F0, 0x478F3799, 0x26756525, 0x91C4B45D, 0xB1AD25CA), 0x7A7A7A7A, 19) == Regs(0x01827D30, 0x772495F0, 0x51E3CDE6, 0x26756525, 0x91C4B45D);
    assert Compress(IV, w, 20) == Regs(0x01827D30, 0x772495F0, 0x51E3CDE6, 0x26756525, 0x91C4B45D);
  }

  lemma HiThereInner0Rounds1(w: seq<word>)
    requires |w| == 80
    requires w[20] == 0x7A7A7A7A && w[21] == 0x6C6C6C6C && w[22] == 0x98989898 && w[23] == 0x98989898 &&
      w[24] == 0xD8D8D8D8 && w[25] == 0x31313131 && w[26] == 0x31313131 && w[27] == 0x45454545 &&
      w[28] == 0x96969696 && w[29] == 0xBABABABA && w[30] == 0xD7D7D7D7 && w[31] == 0x70707070 &&
      w[32] == 0xC4C4C4C4 && w[33] == 0x39393939 && w[34] == 0x76767676 && w[35] == 0x2F2F2F2F &&
      w[36] == 0x9A9A9A9A && w[37] == 0x70707070 && w[38] == 0x71717171 && w[39] == 0x86868686
    requires Compress(IV, w, 20) == Regs(0x01827D30, 0x772495F0, 0x51E3CDE6, 0x26756525, 0x91C4B45D)
    ensures Compress(IV, w, 40) == Regs(0x05BC8C85, 0x94688DCE, 0x41EF10B8, 0xB01EE2DB, 0xF187AA14)
  {
    assert Round(Regs(0x01827D30, 0x772495F0, 0x51E3CDE6, 0x26756525, 0x91C4B45D), 0x7A7A7A7A, 20) == Regs(0xAC1AFDAB, 0x01827D30, 0x1DC9257C, 0x51E3CDE6, 0x26756525);
    assert Compress(IV, w, 21) == Regs(0xAC1AFDAB, 0x01827D30, 0x1DC9257C, 0x51E3CDE6, 0x26756525);
    assert Round(Regs(0xAC1AFDAB, 0x01827D30, 0x1DC9257C, 0x51E3CDE6, 0x26756525), 0x6C6C6C6C, 21) == Regs(0xD2C40851, 0xAC1AFDAB, 0x00609F4C, 0x1DC9257C, 0x51E3CDE6);
    assert Compress(IV, w, 22) == Regs(0xD2C40851, 0xAC1AFDAB, 0x00609F4C, 0x1DC9257C, 0x51E3CDE6);
    assert Round(Regs(0xD2C40851, 0xAC1AFDAB, 0x00609F4C, 0x1DC9257C, 0x51E3CDE6), 0x98989898, 22) == Regs(0x638AA3F4, 0xD2C40851, 0xEB06BF6A, 0x00609F4C, 0x1DC9257C);
    assert Compress(IV, w, 23) == Regs(0x638AA3F4, 0xD2C40851, 0xEB06BF6A, 0x00609F4C, 0x1DC9257C);
    assert Round(Regs(0x638AA3F4, 0xD2C40851, 0xEB06BF6A, 0x00609F4C, 0x1DC9257C), 0x98989898, 23) == Regs(0xD03250B8, 0x638AA3F4, 0x74B10214, 0xEB06BF6A, 0x00609F4C);
    assert Compress(IV, w, 24) == Regs(0xD03250B8, 0x638AA3F4, 0x74B10214, 0xEB06BF6A, 0x00609F4C);
    assert Round(Regs(0xD03250B8, 0x638AA3F4, 0x74B10214, 0xEB06BF6A, 0x00609F4C), 0xD8D8D8D8, 24) == Regs(0x4A9A9969, 0xD03250B8, 0x18E2A8FD, 0x74B10214, 0xEB06BF6A);
    assert Compress(IV, w, 25) == Regs(0x4A9A9969, 0xD03250B8, 0x18E2A8FD, 0x74B10214, 0xEB06BF6A);
    assert Round(Regs(0x4A9A9969, 0xD03250B8, 0x18E2A8FD, 0x74B10214, 0xEB06BF6A), 0x31313131, 25) == Regs(0x9AC703B6, 0x4A9A9969, 0x340C942E, 0x18E2A8FD, 0x74B10214);
    assert Compress(IV, w, 26) == Regs(0x9AC703B6, 0x4A9A9969, 0x340C942E, 0x18E2A8FD, 0x74B10214);
    assert Round(Regs(0x9AC703B6, 0x4A9A9969, 0x340C942E, 0x18E2A8FD, 0x74B10214), 0x31313131, 26) == Regs(0xD4113B73, 0x9AC703B6, 0x52A6A65A, 0x340C942E, 0x18E2A8FD);
    assert Compress(IV, w, 27) == Regs(0xD4113B73, 0x9AC703B6, 0x52A6A65A, 0x340C942E, 0x18E2A8FD);
    assert Round(Regs(0xD4113B73, 0x9AC703B6, 0x52A6A65A, 0x340C942E, 0x18E2A8FD), 0x45454545, 27) == Regs(0x4B967A1F, 0xD4113B73, 0xA6B1C0ED, 0x52A6A65A, 0x340C942E);
    assert Compress(IV, w, 28) == Regs(0x4B967A1F, 0xD4113B73, 0xA6B1C0ED, 0x52A6A65A, 0x340C942E);
    assert Round(Regs(0x4B967A1F, 0xD4113B73, 0xA6B1C0ED, 0x52A6A65A, 0x340C942E), 0x96969696, 28) == Regs(0xCC52B812, 0x4B967A1F, 0xF5044EDC, 0xA6B1C0ED, 0x52A6A65A);
    assert Compress(IV, w, 29) == Regs(0xCC52B812, 0x4B967A1F, 0xF5044EDC, 0xA6B1C0ED, 0x52A6A65A);
    assert Round(Regs(0xCC52B812, 0x4B967A1F, 0xF5044EDC, 0xA6B1C0ED, 0x52A6A65A), 0xBABABABA, 29) == Regs(0x1EB6433C, 0xCC52B812, 0xD2E59E87, 0xF5044EDC, 0xA6B1C0ED);
    assert Compress(IV, w, 30) == Regs(0x1EB6433C, 0xCC52B812, 0xD2E59E87, 0xF5044EDC, 0xA6B1C0ED);
    assert Round(Regs(0x1EB6433C, 0xCC52B812, 0xD2E59E87, 0xF5044EDC, 0xA6B1C0ED), 0xD7D7D7D7, 30) == Regs(0xAFDF5431, 0x1EB6433C, 0xB314AE04, 0xD2E59E87, 0xF5044EDC);
    assert Compress(IV, w, 31) == Regs(0xAFDF5431, 0x1EB6433C, 0xB314AE04, 0xD2E59E87, 0xF5044EDC);
    assert Round(Regs(0xAFDF5431, 0x1EB6433C, 0xB314AE04, 0xD2E59E87, 0xF5044EDC), 0x70707070, 31) == Regs(0x4F80A4E1, 0xAFDF5431, 0x07AD90CF, 0xB314AE04, 0xD2E59E87);
    assert Compress(IV, w, 32) == Regs(0x4F80A4E1, 0xAFDF5431, 0x07AD90CF, 0xB314AE04, 0xD2E59E87);
    assert Round(Regs(0x4F80A4E1, 0xAFDF5431, 0x07AD90CF, 0xB314AE04, 0xD2E59E87), 0xC4C4C4C4, 32) == Regs(0x11FF560F, 0x4F80A4E1, 0x6BF7D50C, 0x07AD90CF, 0xB314AE04);
    assert Compress(IV, w, 33) == Regs(0x11FF560F, 0x4F80A4E1, 0x6BF7D50C, 0x07AD90CF, 0xB314AE04);
    assert Round(Regs(0x11FF560F, 0x4F80A4E1, 0x6BF7D50C, 0x07AD90CF, 0xB314AE04), 0x39393939, 33) == Regs(0xBEED75E2, 0x11FF560F, 0x53E02938, 0x6BF7D50C, 0x07AD90CF);
    assert Compress(IV, w, 34) == Regs(0xBEED75E2, 0x11FF560F, 0x53E02938, 0x6BF7D50C, 0x07AD90CF);
    assert Round(Regs(0xBEED75E2, 0x11FF560F, 0x53E02938, 0x6BF7D50C, 0x07AD90CF), 0x76767676, 34) == Regs(0xF4955978, 0xBEED75E2, 0xC47FD583, 0x53E02938, 0x6BF7D50C);
    assert Compress(IV, w, 35) == Regs(0xF4955978, 0xBEED75E2, 0xC47FD583, 0x53E02938, 0x6BF7D50C);
    assert Round(Regs(0xF4955978, 0xBEED75E2, 0xC47FD583, 0x53E02938, 0x6BF7D50C), 0x2F2F2F2F, 35) == Regs(0xC61EA853, 0xF4955978, 0xAFBB5D78, 0xC47FD583, 0x53E02938);
    assert Compress(IV, w, 36) == Regs(0xC61EA853, 0xF4955978, 0xAFBB5D78, 0xC47FD583, 0x53E02938);
    assert Round(Regs(0xC61EA853, 0xF4955978, 0xAFBB5D78, 0xC47FD583, 0x53E02938), 0x9A9A9A9A, 36) == Regs(0xC07B8B6E, 0xC61EA853, 0x3D25565E, 0xAFBB5D78, 0xC47FD583);
    assert Compress(IV, w, 37) == Regs(0xC07B8B6E, 0xC61EA853, 0x3D25565E, 0xAFBB5D78, 0xC47FD583);
    assert Round(Regs(0xC07B8B6E, 0xC61EA853, 0x3D25565E, 0xAFBB5D78, 0xC47FD583), 0x70707070, 37) == Regs(0x07BC42E1, 0xC07B8B6E, 0xF187AA14, 0x3D25565E, 0xAFBB5D78);
    assert Compress(IV, w, 38) == Regs(0x07BC42E1, 0xC07B8B6E, 0xF187AA14, 0x3D25565E, 0xAFBB5D78);
    assert Round(Regs(0x07BC42E1, 0xC07B8B6E, 0xF187AA14, 0x3D25565E, 0xAFBB5D78), 0x71717171, 38) == Regs(0x94688DCE, 0x07BC42E1, 0xB01EE2DB, 0xF187AA14, 0x3D25565E);
    assert Compress(IV, w, 39) == Regs(0x94688DCE, 0x07BC42E1, 0xB01EE2DB, 0xF187AA14, 0x3D25565E);
    assert Round(Regs(0x94688DCE, 0x07BC42E1, 0xB01EE2DB, 0xF187AA14, 0x3D25565E), 0x86868686, 39) == Regs(0x05BC8C85, 0x94688DCE, 0x41EF10B8, 0xB01EE2DB, 0xF187AA14);
    assert Compress(IV, w, 40) == Regs(0x05BC8C85, 0x94688DCE, 0x41EF10B8, 0xB01EE2DB, 0xF187AA14);
  }

  lemma HiThereInner0Rounds2(w: seq<word>)
    requires |w| == 80
    requires w[40] == 0xBABABABA && w[41] == 0x78787878 && w[42] == 0xAEAEAEAE && w[43] == 0xD4D4D4D4 &&
      w[44] == 0x47474747 && w[45] == 0x28282828 && w[46] == 0x6D6D6D6D && w[47] == 0x11111111 &&
      w[48] == 0x40404040 && w[49] == 0x06060606 && w[50] == 0xA6A6A6A6 && w[51] == 0x97979797 &&
      w[52] == 0x55555555 && w[53] == 0xF0F0F0F0 && w[54] == 0x62626262 && w[55] == 0x75757575 &&
      w[56] == 0x49494949 && w[57] == 0x91919191 && w[58] == 0x74747474 && w[59] == 0x44444444
    requires Compress(IV, w, 40) == Regs(0x05BC8C85, 0x94688DCE, 0x41EF10B8, 0xB01EE2DB, 0xF187AA14)
    ensures Compress(IV, w, 60) == Regs(0xF3B4FB01, 0x43CEFB89, 0x0B0A3932, 0x83445A39, 0x8D263127)
  {
    assert Round(Regs(0x05BC8C85, 0x94688DCE, 0x41EF10B8, 0xB01EE2DB, 0xF187AA14), 0xBABABABA, 40) == Regs(0x835E3324, 0x05BC8C85, 0xA51A2373, 0x41EF10B8, 0xB01EE2DB);
    assert Compress(IV, w, 41) == Regs(0x835E3324, 0x05BC8C85, 0xA51A2373, 0x41EF10B8, 0xB01EE2DB);
    assert Round(Regs(0x835E3324, 0x05BC8C85, 0xA51A2373, 0x41EF10B8, 0xB01EE2DB), 0x78787878, 41) == Regs(0x29377D70, 0x835E3324, 0x416F2321, 0xA51A2373, 0x41EF10B8);
    assert Compress(IV, w, 42) == Regs(0x29377D70, 0x835E3324, 0x416F2321, 0xA51A2373, 0x41EF10B8);
    assert Round(Regs(0x29377D70, 0x835E3324, 0x416F2321, 0xA51A2373, 0x41EF10B8), 0xAEAEAEAE, 42) == Regs(0x28074D68, 0x29377D70, 0x20D78CC9, 0x416F2321, 0xA51A2373);
    assert Compress(IV, w, 43) == Regs(0x28074D68, 0x29377D70, 0x20D78CC9, 0x416F2321, 0xA51A2373);
    assert Round(Regs(0x28074D68, 0x29377D70, 0x20D78CC9, 0x416F2321, 0xA51A2373), 0xD4D4D4D4, 43) == Regs(0x2B6B8F89, 0x28074D68, 0x0A4DDF5C, 0x20D78CC9, 0x416F2321);
    assert Compress(IV, w, 44) == Regs(0x2B6B8F89, 0x28074D68, 0x0A4DDF5C, 0x20D78CC9, 0x416F2321);
    assert Round(Regs(0x2B6B8F89, 0x28074D68, 0x0A4DDF5C, 0x20D78CC9, 0x416F2321), 0x47474747, 44) == Regs(0xAD8BE5B1, 0x2B6B8F89, 0x0A01D35A, 0x0A4DDF5C, 0x20D78CC9);
    assert Compress(IV, w, 45) == Regs(0xAD8BE5B1, 0x2B6B8F89, 0x0A01D35A, 0x0A4DDF5C, 0x20D78CC9);
    assert Round(Regs(0xAD8BE5B1, 0x2B6B8F89, 0x0A01D35A, 0x0A4DDF5C, 0x20D78CC9), 0x28282828, 45) == Regs(0x93E2075A, 0xAD8BE5B1, 0x4ADAE3E2, 0x0A01D35A, 0x0A4DDF5C);
    assert Compress(IV, w, 46) == Regs(0x93E2075A, 0xAD8BE5B1, 0x4ADAE3E2, 0x0A01D35A, 0x0A4DDF5C);
    assert Round(Regs(0x93E2075A, 0xAD8BE5B1, 0x4ADAE3E2, 0x0A01D35A, 0x0A4DDF5C), 0x6D6D6D6D, 46) == Regs(0x8DA3D8E9, 0x93E2075A, 0x6B62F96C, 0x4ADAE3E2, 0x0A01D35A);
    assert Compress(IV, w, 47) == Regs(0x8DA3D8E9, 0x93E2075A, 0x6B62F96C, 0x4ADAE3E2, 0x0A01D35A);
    assert Round(Regs(0x8DA3D8E9, 0x93E2075A, 0x6B62F96C, 0x4ADAE3E2, 0x0A01D35A), 0x11111111, 47) == Regs(0xAA8CA1E2, 0x8DA3D8E9, 0xA4F881D6, 0x6B62F96C, 0x4ADAE3E2);
    assert Compress(IV, w, 48) == Regs(0xAA8CA1E2, 0x8DA3D8E9, 0xA4F881D6, 0x6B62F96C, 0x4ADAE3E2);
    assert Round(Regs(0xAA8CA1E2, 0x8DA3D8E9, 0xA4F881D6, 0x6B62F96C, 0x4ADAE3E2), 0x40404040, 48) == Regs(0x19ADF73F, 0xAA8CA1E2, 0x6368F63A, 0xA4F881D6, 0x6B62F96C);
    assert Compress(IV, w, 49) == Regs(0x19ADF73F, 0xAA8CA1E2, 0x6368F63A, 0xA4F881D6, 0x6B62F96C);
    assert Round(Regs(0x19ADF73F, 0xAA8CA1E2, 0x6368F63A, 0xA4F881D6, 0x6B62F96C), 0x06060606, 49) == Regs(0xD92C4623, 0x19ADF73F, 0xAAA32878, 0x6368F63A, 0xA4F881D6);
    assert Compress(IV, w, 50) == Regs(0xD92C4623, 0x19ADF73F, 0xAAA32878, 0x6368F63A, 0xA4F881D6);
    assert Round(Regs(0xD92C4623, 0x19ADF73F, 0xAAA32878, 0x6368F63A, 0xA4F881D6), 0xA6A6A6A6, 50) == Regs(0x2BEDA00D, 0xD92C4623, 0xC66B7DCF, 0xAAA32878, 0x6368F63A);
    assert Compress(IV, w, 51) == Regs(0x2BEDA00D, 0xD92C4623, 0xC66B7DCF, 0xAAA32878, 0x6368F63A);
    assert Round(Regs(0x2BEDA00D, 0xD92C4623, 0xC66B7DCF, 0xAAA32878, 0x6368F63A), 0x97979797, 51) == Regs(0xD1FBB8BD, 0x2BEDA00D, 0xF64B1188, 0xC66B7DCF, 0xAAA32878);
    assert Compress(IV, w, 52) == Regs(0xD1FBB8BD, 0x2BEDA00D, 0xF64B1188, 0xC66B7DCF, 0xAAA32878);
    assert Round(Regs(0xD1FBB8BD, 0x2BEDA00D, 0xF64B1188, 0xC66B7DCF, 0xAAA32878), 0x55555555, 52) == Regs(0xB4F683F0, 0xD1FBB8BD, 0x4AFB6803, 0xF64B1188, 0xC66B7DCF);
    assert Compress(IV, w, 53) == Regs(0xB4F683F0, 0xD1FBB8BD, 0x4AFB6803, 0xF64B1188, 0xC66B7DCF);
    assert Round(Regs(0xB4F683F0, 0xD1FBB8BD, 0x4AFB6803, 0xF64B1188, 0xC66B7DCF), 0xF0F0F0F0, 53) == Regs(0xB843E23A, 0xB4F683F0, 0x747EEE2F, 0x4AFB6803, 0xF64B1188);
    assert Compress(IV, w, 54) == Regs(0xB843E23A, 0xB4F683F0, 0x747EEE2F, 0x4AFB6803, 0xF64B1188);
    assert Round(Regs(0xB843E23A, 0xB4F683F0, 0x747EEE2F, 0x4AFB6803, 0xF64B1188), 0x62626262, 54) == Regs(0x65446240, 0xB843E23A, 0x2D3DA0FC, 0x747EEE2F, 0x4AFB6803);
    assert Compress(IV, w, 55) == Regs(0x65446240, 0xB843E23A, 0x2D3DA0FC, 0x747EEE2F, 0x4AFB6803);
    assert Round(Regs(0x65446240, 0xB843E23A, 0x2D3DA0FC, 0x747EEE2F, 0x4AFB6803), 0x75757575, 55) == Regs(0x3498C49E, 0x65446240, 0xAE10F88E, 0x2D3DA0FC, 0x747EEE2F);
    assert Compress(IV, w, 56) == Regs(0x3498C49E, 0x65446240, 0xAE10F88E, 0x2D3DA0FC, 0x747EEE2F);
    assert Round(Regs(0x3498C49E, 0x65446240, 0xAE10F88E, 0x2D3DA0FC, 0x747EEE2F), 0x49494949, 56) == Regs(0x0D1168E6, 0x3498C49E, 0x19511890, 0xAE10F88E, 0x2D3DA0FC);
    assert Compress(IV, w, 57) == Regs(0x0D1168E6, 0x3498C49E, 0x19511890, 0xAE10F88E, 0x2D3DA0FC);
    assert Round(Regs(0x0D1168E6, 0x3498C49E, 0x19511890, 0xAE10F88E, 0x2D3DA0FC), 0x91919191, 57) == Regs(0x2C28E4C8, 0x0D1168E6, 0x8D263127, 0x19511890, 0xAE10F88E);
    assert Compress(IV, w, 58) == Regs(0x2C28E4C8, 0x0D1168E6, 0x8D263127, 0x19511890, 0xAE10F88E);
    assert Round(Regs(0x2C28E4C8, 0x0D1168E6, 0x8D263127, 0x19511890, 0xAE10F88E), 0x74747474, 58) == Regs(0x43CEFB89, 0x2C28E4C8, 0x83445A39, 0x8D263127, 0x19511890);
    assert Compress(IV, w, 59) == Regs(0x43CEFB89, 0x2C28E4C8, 0x83445A39, 0x8D263127, 0x19511890);
    assert Round(Regs(0x43CEFB89, 0x2C28E4C8, 0x83445A39, 0x8D263127, 0x19511890), 0x44444444, 59) == Regs(0xF3B4FB01, 0x43CEFB89, 0x0B0A3932, 0x83445A39, 0x8D263127);
    assert Compress(IV, w, 60) == Regs(0xF3B4FB01, 0x43CEFB89, 0x0B0A3932, 0x83445A39, 0x8D263127);
  }

  lemma HiThereInner0Rounds3(w: seq<word>)
    requires |w| == 80
    requires w[60] == 0xDDDDDDDD && w[61] == 0x7B7B7B7B && w[62] == 0x16161616 && w[63] == 0x7F7F7F7F &&
      w[64] == 0xA9A9A9A9 && w[65] == 0x2C2C2C2C && w[66] == 0xF1F1F1F1 && w[67] == 0x15151515 &&
      w[68] == 0x8D8D8D8D && w[69] == 0x1E1E1E1E && w[70] == 0x50505050 && w[71] == 0x2C2C2C2C &&
      w[72] == 0x15151515 && w[73] == 0x53535353 && w[74] == 0xE8E8E8E8 && w[75] == 0x7E7E7E7E &&
      w[76] == 0x2A2A2A2A && w[77] == 0xE5E5E5E5 && w[78] == 0x23232323 && w[79] == 0xAAAAAAAA
    requires Compress(IV, w, 60) == Regs(0xF3B4FB01, 0x43CEFB89, 0x0B0A3932, 0x83445A39, 0x8D263127)
    ensures Compress(IV, w, 80) == Regs(0x9F074329, 0xDCA12627, 0xD43FBDB2, 0xF3FCBF09, 0x0AD28EFB)
  {
    assert Round(Regs(0xF3B4FB01, 0x43CEFB89, 0x0B0A3932, 0x83445A39, 0x8D263127), 0xDDDDDDDD, 60) == Regs(0x7786C99A, 0xF3B4FB01, 0x50F3BEE2, 0x0B0A3932, 0x83445A39);
    assert Compress(IV, w, 61) == Regs(0x7786C99A, 0xF3B4FB01, 0x50F3BEE2, 0x0B0A3932, 0x83445A39);
    assert Round(Regs(0x7786C99A, 0xF3B4FB01, 0x50F3BEE2, 0x0B0A3932, 0x83445A39), 0x7B7B7B7B, 61) == Regs(0x624947A9, 0x7786C99A, 0x7CED3EC0, 0x50F3BEE2, 0x0B0A3932);
    assert Compress(IV, w, 62) == Regs(0x624947A9, 0x7786C99A, 0x7CED3EC0, 0x50F3BEE2, 0x0B0A3932);
    assert Round(Regs(0x624947A9, 0x7786C99A, 0x7CED3EC0, 0x50F3BEE2, 0x0B0A3932), 0x16161616, 62) == Regs(0x90445002, 0x624947A9, 0x9DE1B266, 0x7CED3EC0, 0x50F3BEE2);
    assert Compress(IV, w, 63) == Regs(0x90445002, 0x624947A9, 0x9DE1B266, 0x7CED3EC0, 0x50F3BEE2);
    assert Round(Regs(0x90445002, 0x624947A9, 0x9DE1B266, 0x7CED3EC0, 0x50F3BEE2), 0x7F7F7F7F, 63) == Regs(0x26A5CB98, 0x90445002, 0x589251EA, 0x9DE1B266, 0x7CED3EC0);
    assert Compress(IV, w, 64) == Regs(0x26A5CB98, 0x90445002, 0x589251EA, 0x9DE1B266, 0x7CED3EC0);
    assert Round(Regs(0x26A5CB98, 0x90445002, 0x589251EA, 0x9DE1B266, 0x7CED3EC0), 0xA9A9A9A9, 64) == Regs(0x1AEAD0D1, 0x26A5CB98, 0xA4111400, 0x589251EA, 0x9DE1B266);
    assert Compress(IV, w, 65) == Regs(0x1AEAD0D1, 0x26A5CB98, 0xA4111400, 0x589251EA, 0x9DE1B266);
    assert Round(Regs(0x1AEAD0D1, 0x26A5CB98, 0xA4111400, 0x589251EA, 0x9DE1B266), 0x2C2C2C2C, 65) == Regs(0xCBF148FD, 0x1AEAD0D1, 0x09A972E6, 0xA4111400, 0x589251EA);
    assert Compress(IV, w, 66) == Regs(0xCBF148FD, 0x1AEAD0D1, 0x09A972E6, 0xA4111400, 0x589251EA);
    assert Round(Regs(0xCBF148FD, 0x1AEAD0D1, 0x09A972E6, 0xA4111400, 0x589251EA), 0xF1F1F1F1, 66) == Regs(0x4A62DBA1, 0xCBF148FD, 0x46BAB434, 0x09A972E6, 0xA4111400);
    assert Compress(IV, w, 67) == Regs(0x4A62DBA1, 0xCBF148FD, 0x46BAB434, 0x09A972E6, 0xA4111400);
    assert Round(Regs(0x4A62DBA1, 0xCBF148FD, 0x46BAB434, 0x09A972E6, 0xA4111400), 0x15151515, 67) == Regs(0x54C6ED43, 0x4A62DBA1, 0x72FC523F, 0x46BAB434, 0x09A972E6);
    assert Compress(IV, w, 68) == Regs(0x54C6ED43, 0x4A62DBA1, 0x72FC523F, 0x46BAB434, 0x09A972E6);
    assert Round(Regs(0x54C6ED43, 0x4A62DBA1, 0x72FC523F, 0x46BAB434, 0x09A972E6), 0x8D8D8D8D, 68) == Regs(0x789BA85D, 0x54C6ED43, 0x5298B6E8, 0x72FC523F, 0x46BAB434);
    assert Compress(IV, w, 69) == Regs(0x789BA85D, 0x54C6ED43, 0x5298B6E8, 0x72FC523F, 0x46BAB434);
    assert Round(Regs(0x789BA85D, 0x54C6ED43, 0x5298B6E8, 0x72FC523F, 0x46BAB434), 0x1E1E1E1E, 69) == Regs(0xB752A96B, 0x789BA85D, 0xD531BB50, 0x5298B6E8, 0x72FC523F);
    assert Compress(IV, w, 70) == Regs(0xB752A96B, 0x789BA85D, 0xD531BB50, 0x5298B6E8, 0x72FC523F);
    assert Round(Regs(0xB752A96B, 0x789BA85D, 0xD531BB50, 0x5298B6E8, 0x72FC523F), 0x50505050, 70) == Regs(0x773737C0, 0xB752A96B, 0x5E26EA17, 0xD531BB50, 0x5298B6E8);
    assert Compress(IV, w, 71) == Regs(0x773737C0, 0xB752A96B, 0x5E26EA17, 0xD531BB50, 0x5298B6E8);
    assert Round(Regs(0x773737C0, 0xB752A96B, 0x5E26EA17, 0xD531BB50, 0x5298B6E8), 0x2C2C2C2C, 71) == Regs(0x6C549524, 0x773737C0, 0xEDD4AA5A, 0x5E26EA17, 0xD531BB50);
    assert Compress(IV, w, 72) == Regs(0x6C549524, 0x773737C0, 0xEDD4AA5A, 0x5E26EA17, 0xD531BB50);
    assert Round(Regs(0x6C549524, 0x773737C0, 0xEDD4AA5A, 0x5E26EA17, 0xD531BB50), 0x15151515, 72) == Regs(0x0401AE55, 0x6C549524, 0x1DCDCDF0, 0xEDD4AA5A, 0x5E26EA17);
    assert Compress(IV, w, 73) == Regs(0x0401AE55, 0x6C549524, 0x1DCDCDF0, 0xEDD4AA5A, 0x5E26EA17);
    assert Round(Regs(0x0401AE55, 0x6C549524, 0x1DCDCDF0, 0xEDD4AA5A, 0x5E26EA17), 0x53535353, 73) == Regs(0x9860BC6E, 0x0401AE55, 0x1B152549, 0x1DCDCDF0, 0xEDD4AA5A);
    assert Compress(IV, w, 74) == Regs(0x9860BC6E, 0x0401AE55, 0x1B152549, 0x1DCDCDF0, 0xEDD4AA5A);
    assert Round(Regs(0x9860BC6E, 0x0401AE55, 0x1B152549, 0x1DCDCDF0, 0xEDD4AA5A), 0xE8E8E8E8, 74) == Regs(0xB01129D7, 0x9860BC6E, 0x41006B95, 0x1B152549, 0x1DCDCDF0);
    assert Compress(IV, w, 75) == Regs(0xB01129D7, 0x9860BC6E, 0x41006B95, 0x1B152549, 0x1DCDCDF0);
    assert Round(Regs(0xB01129D7, 0x9860BC6E, 0x41006B95, 0x1B152549, 0x1DCDCDF0), 0x7E7E7E7E, 75) == Regs(0x2B4A3BEC, 0xB01129D7, 0xA6182F1B, 0x41006B95, 0x1B152549);
    assert Compress(IV, w, 76) == Regs(0x2B4A3BEC, 0xB01129D7, 0xA6182F1B, 0x41006B95, 0x1B152549);
    assert Round(Regs(0x2B4A3BEC, 0xB01129D7, 0xA6182F1B, 0x41006B95, 0x1B152549), 0x2A2A2A2A, 76) == Regs(0xCFF2FC27, 0x2B4A3BEC, 0xEC044A75, 0xA6182F1B, 0x41006B95);
    assert Compress(IV, w, 77) == Regs(0xCFF2FC27, 0x2B4A3BEC, 0xEC044A75, 0xA6182F1B, 0x41006B95);
    assert Round(Regs(0xCFF2FC27, 0x2B4A3BEC, 0xEC044A75, 0xA6182F1B, 0x41006B95), 0xE5E5E5E5, 77) == Regs(0x50FEF6CB, 0xCFF2FC27, 0x0AD28EFB, 0xEC044A75, 0xA6182F1B);
    assert Compress(IV, w, 78) == Regs(0x50FEF6CB, 0xCFF2FC27, 0x0AD28EFB, 0xEC044A75, 0xA6182F1B);
    assert Round(Regs(0x50FEF6CB, 0xCFF2FC27, 0x0AD28EFB, 0xEC044A75, 0xA6182F1B), 0x23232323, 78) == Regs(0xDCA12627, 0x50FEF6CB, 0xF3FCBF09, 0x0AD28EFB, 0xEC044A75);
    assert Compress(IV, w, 79) == Regs(0xDCA12627, 0x50FEF6CB, 0xF3FCBF09, 0x0AD28EFB, 0xEC044A75);
    assert Round(Regs(0xDCA12627, 0x50FEF6CB, 0xF3FCBF09, 0x0AD28EFB, 0xEC044A75), 0xAAAAAAAA, 79) == Regs(0x9F074329, 0xDCA12627, 0xD43FBDB2, 0xF3FCBF09, 0x0AD28EFB);
    assert Compress(IV, w, 80) == Regs(0x9F074329, 0xDCA12627, 0xD43FBDB2, 0xF3FCBF09, 0x0AD28EFB);
  }

  lemma HiThereInner0Compress(words: seq<word>)
    requires |words| == 16
    requires words[0] == 0x3D3D3D3D && words[1] == 0x3D3D3D3D && words[2] == 0x3D3D3D3D && words[3] == 0x3D3D3D3D &&
      words[4] == 0x3D3D3D3D && words[5] == 0x36363636 && words[6] == 0x36363636 && words[7] == 0x36363636 &&
      words[8] == 0x36363636 && words[9] == 0x36363636 && words[10] == 0x36363636 && words[11] == 0x36363636 &&
      words[12] == 0x36363636 && words[13] == 0x36363636 && words[14] == 0x36363636 && words[15] == 0x36363636
    ensures Compress(IV, Schedule(words), 80) == Regs(0x9F074329, 0xDCA12627, 0xD43FBDB2, 0xF3FCBF09, 0x0AD28EFB)
  {
    var w := Schedule(words);
    ScheduleIsSchedule(words);
    forall j | 0 <= j < 16
      ensures w[j] == words[j]
    {
      assert w[..16][j] == w[j];
    }
    HiThereInner0Schedule0(w);
    HiThereInner0Schedule1(w);
    HiThereInner0Schedule2(w);
    HiThereInner0Schedule3(w);
    HiThereInner0Rounds0(w);
    HiThereInner0Rounds1(w);
    HiThereInner0Rounds2(w);
    HiThereInner0Rounds3(w);
  }

  lemma HiThereInner1Schedule0(w: seq<word>)
    requires |w| == 80 && forall i :: 16 <= i < 80 ==> Follows(w, i)
    requires w[0] == 0x48692054 && w[1] == 0x68657265 && w[2] == 0x80000000 && w[3] == 0x00000000 &&
      w[4] == 0x00000000 && w[5] == 0x00000000 && w[6] == 0x00000000 && w[7] == 0x00000000 &&
      w[8] == 0x00000000 && w[9] == 0x00000000 && w[10] == 0x00000000 && w[11] == 0x00000000 &&
      w[12] == 0x00000000 && w[13] == 0x00000000 && w[14] == 0x00000000 && w[15] == 0x00000240
    ensures w[16] == 0x90D240A9 && w[17] == 0xD0CAE4CA && w[18] == 0x00000481 && w[19] == 0x21A48153 &&
      w[20] == 0xA195C995 && w[21] == 0x00000902 && w[22] == 0x434902A6 && w[23] == 0x432B97AB &&
      w[24] == 0x21A49357 && w[25] == 0x2707CCD9 && w[26] == 0x86572654 && w[27] == 0x00002408 &&
      w[28] == 0x0D240A99 && w[29] == 0x0CAE5A2D && w[30] == 0xA736CC0F && w[31] == 0x3D8AF771
  {
    assert Follows(w, 16);
    assert Follows(w, 17);
    assert Follows(w, 18);
    assert Follows(w, 19);
    assert Follows(w, 20);
    assert Follows(w, 21);
    assert Follows(w, 22);
    assert Follows(w, 23);
    assert Follows(w, 24);
    assert Follows(w, 25);
    assert Follows(w, 26);
    assert Follows(w, 27);
    assert Follows(w, 28);
    assert Follows(w, 29);
    assert Follows(w, 30);
    assert Follows(w, 31);
  }

  lemma HiThereInner1Schedule1(w: seq<word>)
    requires |w| == 80 && forall i :: 16 <= i < 80 ==> Follows(w, i)
    requires w[16] == 0x90D240A9 && w[17] == 0xD0CAE4CA && w[18] == 0x00000481 && w[19] == 0x21A48153 &&
      w[20] == 0xA195C995 && w[21] == 0x00000902 && w[22] == 0x434902A6 && w[23] == 0x432B97AB &&
      w[24] == 0x21A49357 && w[25] == 0x2707CCD9 && w[26] == 0x86572654 && w[27] == 0x00002408 &&
      w[28] == 0x0D240A99 && w[29] == 0x0CAE5A2D && w[30] == 0xA736CC0F && w[31] == 0x3D8AF771
    ensures w[32] == 0x7BB11AA5 && w[33] == 0xE2BECA9E && w[34] == 0x34903862 && w[35] == 0xB42B6DF8 &&
      w[36] == 0x1A8C1668 && w[37] == 0xF62BF9CC && w[38] == 0xE3E0600C && w[39] == 0x865574D6 &&
      w[40] == 0x54D2ACD4 && w[41] == 0x4CB28486 && w[42] == 0x736CC0F2 && w[43] == 0xD8AF7E13 &&
      w[44] == 0xF858A8F1 && w[45] == 0x68C728C5 && w[46] == 0xCF91916B && w[47] == 0x4273C391
  {
    assert Follows(w, 32);
    assert Follows(w, 33);
    assert Follows(w, 34);
    assert Follows(w, 35);
    assert Follows(w, 36);
    assert Follows(w, 37);
    assert Follows(w, 38);
    assert Follows(w, 39);
    assert Follows(w, 40);
    assert Follows(w, 41);
    assert Follows(w, 42);
    assert Follows(w, 43);
    assert Follows(w, 44);
    assert Follows(w, 45);
    assert Follows(w, 46);
    assert Follows(w, 47);
  }

  lemma HiThereInner1Schedule2(w: seq<word>)
    requires |w| == 80 && forall i :: 16 <= i < 80 ==> Follows(w, i)
    requires w[32] == 0x7BB11AA5 && w[33] == 0xE2BECA9E && w[34] == 0x34903862 && w[35] == 0xB42B6DF8 &&
      w[36] == 0x1A8C1668 && w[37] == 0xF62BF9CC && w[38] == 0xE3E0600C && w[39] == 0x865574D6 &&
      w[40] == 0x54D2ACD4 && w[41] == 0x4CB28486 && w[42] == 0x736CC0F2 && w[43] == 0xD8AF7E13 &&
      w[44] == 0xF858A8F1 && w[45] == 0x68C728C5 && w[46] == 0xCF91916B && w[47] == 0x4273C391
    ensures w[48] == 0xE6694DAC && w[49] == 0xAB6D6517 && w[50] == 0x3E065AD2 && w[51] == 0xF98D4F16 &&
      w[52] == 0x54B37705 && w[53] == 0x4D7FFE1A && w[54] == 0x025C254B && w[55] == 0xB84E8989 &&
      w[56] == 0x1951BF21 && w[57] == 0x7A597592 && w[58] == 0x1AF976B0 && w[59] == 0xA1694DC2 &&
      w[60] == 0x3246761A && w[61] == 0xFA64C7FC && w[62] == 0x159B689D && w[63] == 0xC62CB22A
  {
    assert Follows(w, 48);
    assert Follows(w, 49);
    assert Follows(w, 50);
    assert Follows(w, 51);
    assert Follows(w, 52);
    assert Follows(w, 53);
    assert Follows(w, 54);
    assert Follows(w, 55);
    assert Follows(w, 56);
    assert Follows(w, 57);
    assert Follows(w, 58);
    assert Follows(w, 59);
    assert Follows(w, 60);
    assert Follows(w, 61);
    assert Follows(w, 62);
    assert Follows(w, 63);
  }

  lemma HiThereInner1Schedule3(w: seq<word>)
    requires |w| == 80 && forall i :: 16 <= i < 80 ==> Follows(w, i)
    requires w[48] == 0xE6694DAC && w[49] == 0xAB6D6517 && w[50] == 0x3E065AD2 && w[51] == 0xF98D4F16 &&
      w[52] == 0x54B37705 && w[53] == 0x4D7FFE1A && w[54] == 0x025C254B && w[55] == 0xB84E8989 &&
      w[56] == 0x1951BF21 && w[57] == 0x7A597592 && w[58] == 0x1AF976B0 && w[59] == 0xA1694DC2 &&
      w[60] == 0x3246761A && w[61] == 0xFA64C7FC && w[62] == 0x159B689D && w[63] == 0xC62CB22A
    ensures w[64] == 0x76B4DF46 && w[65] == 0x7A446E1C && w[66] == 0x6CC1D29B && w[67] == 0xC65E4710 &&
      w[68] == 0x3DDA9490 && w[69] == 0xC728C5E8 && w[70] == 0x91916BCF && w[71] == 0x73C3B542 &&
      w[72] == 0x6469A67F && w[73] == 0x61CA7B06 && w[74] == 0x6F7ACEE6 && w[75] == 0xF274D6A3 &&
      w[76] == 0xF79BE222 && w[77] == 0x2834FDB1 && w[78] == 0x0194156E && w[79] == 0x706116AC
  {
    assert Follows(w, 64);
    assert Follows(w, 65);
    assert Follows(w, 66);
    assert Follows(w, 67);
    assert Follows(w, 68);
    assert Follows(w, 69);
    assert Follows(w, 70);
    assert Follows(w, 71);
    assert Follows(w, 72);
    assert Follows(w, 73);
    assert Follows(w, 74);
    assert Follows(w, 75);
    assert Follows(w, 76);
    assert Follows(w, 77);
    assert Follows(w, 78);
    assert Follows(w, 79);
  }

  lemma HiThereInner1Rounds0(w: seq<word>)
    requires |w| == 80
    requires w[0] == 0x48692054 && w[1] == 0x68657265 && w[2] == 0x80000000 && w[3] == 0x00000000 &&
      w[4] == 0x00000000 && w[5] == 0x00000000 && w[6] == 0x00000000 && w[7] == 0x00000000 &&
      w[8] == 0x00000000 && w[9] == 0x00000000 && w[10] == 0x00000000 && w[11] == 0x00000000 &&
      w[12] == 0x00000000 && w[13] == 0x00000000 && w[14] == 0x00000000 && w[15] == 0x00000240 &&
      w[16] == 0x90D240A9 && w[17] == 0xD0CAE4CA && w[18] == 0x00000481 && w[19] == 0x21A48153
    requires Compress(Regs(0x064C662A, 0xCC6ED1B0, 0x6CFA9AB0, 0x042F137F, 0xCEA570EB), w, 0) == Regs(0x064C662A, 0xCC6ED1B0, 0x6CFA9AB0, 0x042F137F, 0xCEA570EB)
    ensures Compress(Regs(0x064C662A, 0xCC6ED1B0, 0x6CFA9AB0, 0x042F137F, 0xCEA570EB), w, 20) == Regs(0xC17BEB91, 0xDC934E98, 0xFD684661, 0x8AEDF048, 0xC70DBB5B)
  {
    assert Round(Regs(0x064C662A, 0xCC6ED1B0, 0x6CFA9AB0, 0x042F137F, 0xCEA570EB), 0x48692054, 0) == Regs(0x87896317, 0x064C662A, 0x331BB46C, 0x6CFA9AB0, 0x042F137F);
    assert Compress(Regs(0x064C662A, 0xCC6ED1B0, 0x6CFA9AB0, 0x042F137F, 0xCEA570EB), w, 1) == Regs(0x87896317, 0x064C662A, 0x331BB46C, 0x6CFA9AB0, 0x042F137F);
    assert Round(Regs(0x87896317, 0x064C662A, 0x331BB46C, 0x6CFA9AB0, 0x042F137F), 0x68657265, 1) == Regs(0x22FE1F25, 0x87896317, 0x8193198A, 0x331BB46C, 0x6CFA9AB0);
    assert Compress(Regs(0x064C662A, 0xCC6ED1B0, 0x6CFA9AB0, 0x042F137F, 0xCEA570EB), w, 2) == Regs(0x22FE1F25, 0x87896317, 0x8193198A, 0x331BB46C, 0x6CFA9AB0);
    assert Round(Regs(0x22FE1F25, 0x87896317, 0x8193198A, 0x331BB46C, 0x6CFA9AB0), 0x80000000, 2) == Regs(0x58D48E57, 0x22FE1F25, 0xE1E258C5, 0x8193198A, 0x331BB46C);
    assert Compress(Regs(0x064C662A, 0xCC6ED1B0, 0x6CFA9AB0, 0x042F137F, 0xCEA570EB), w, 3) == Regs(0x58D48E57, 0x22FE1F25, 0xE1E258C5, 0x8193198A, 0x331BB46C);
    assert Round(Regs(0x58D48E57, 0x22FE1F25, 0xE1E258C5, 0x8193198A, 0x331BB46C), 0x00000000, 3) == Regs(0x4A13117F, 0x58D48E57, 0x48BF87C9, 0xE1E258C5, 0x8193198A);
    assert Compress(Regs(0x064C662A, 0xCC6ED1B0, 0x6CFA9AB0, 0x042F137F, 0xCEA570EB), w, 4) == Regs(0x4A13117F, 0x58D48E57, 0x48BF87C9, 0xE1E258C5, 0x8193198A);
    assert Round(Regs(0x4A13117F, 0x58D48E57, 0x48BF87C9, 0xE1E258C5, 0x8193198A), 0x00000000, 4) == Regs(0x082E99CD, 0x4A13117F, 0xD6352395, 0x48BF87C9, 0xE1E258C5);
    assert Compress(Regs(0x064C662A, 0xCC6ED1B0, 0x6CFA9AB0, 0x042F137F, 0xCEA570EB), w, 5) == Regs(0x082E99CD, 0x4A13117F, 0xD6352395, 0x48BF87C9, 0xE1E258C5);
    assert Round(Regs(0x082E99CD, 0x4A13117F, 0xD6352395, 0x48BF87C9, 0xE1E258C5), 0x00000000, 5) == Regs(0x84F59394, 0x082E99CD, 0xD284C45F, 0xD6352395, 0x48BF87C9);
    assert Compress(Regs(0x064C662A, 0xCC6ED1B0, 0x6CFA9AB0, 0x042F137F, 0xCEA570EB), w, 6) == Regs(0x84F59394, 0x082E99CD, 0xD284C45F, 0xD6352395, 0x48BF87C9);
    assert Round(Regs(0x84F59394, 0x082E99CD, 0xD284C45F, 0xD6352395, 0x48BF87C9), 0x00000000, 6) == Regs(0x180A164F, 0x84F59394, 0x420BA673, 0xD284C45F, 0xD6352395);
    assert Compress(Regs(0x064C662A, 0xCC6ED1B0, 0x6CFA9AB0, 0x042F137F, 0xCEA570EB), w, 7) == Regs(0x180A164F, 0x84F59394, 0x420BA673, 0xD284C45F, 0xD6352395);
    assert Round(Regs(0x180A164F, 0x84F59394, 0x420BA673, 0xD284C45F, 0xD6352395), 0x00000000, 7) == Regs(0x83FC2D6C, 0x180A164F, 0x213D64E5, 0x420BA673, 0xD284C45F);
    assert Compress(Regs(0x064C662A, 0xCC6ED1B0, 0x6CFA9AB0, 0x042F137F, 0xCEA570EB), w, 8) == Regs(0x83FC2D6C, 0x180A164F, 0x213D64E5, 0x420BA673, 0xD284C45F);
    assert Round(Regs(0x83FC2D6C, 0x180A164F, 0x213D64E5, 0x420BA673, 0xD284C45F), 0x00000000, 8) == Regs(0xEE968FFD, 0x83FC2D6C, 0xC6028593, 0x213D64E5, 0x420BA673);
    assert Compress(Regs(0x064C662A, 0xCC6ED1B0, 0x6CFA9AB0, 0x042F137F, 0xCEA570EB), w, 9) == Regs(0xEE968FFD, 0x83FC2D6C, 0xC6028593, 0x213D64E5, 0x420BA673);
    assert Round(Regs(0xEE968FFD, 0x83FC2D6C, 0xC6028593, 0x213D64E5, 0x420BA673), 0x00000000, 9) == Regs(0x1161654A, 0xEE968FFD, 0x20FF0B5B, 0xC6028593, 0x213D64E5);
    assert Compress(Regs(0x064C662A, 0xCC6ED1B0, 0x6CFA9AB0, 0x042F137F, 0xCEA570EB), w, 10) == Regs(0x1161654A, 0xEE968FFD, 0x20FF0B5B, 0xC6028593, 0x213D64E5);
    assert Round(Regs(0x1161654A, 0xEE968FFD, 0x20FF0B5B, 0xC6028593, 0x213D64E5), 0x00000000, 10) == Regs(0xC882931B, 0x1161654A, 0x7BA5A3FF, 0x20FF0B5B, 0xC6028593);
    assert Compress(Regs(0x064C662A, 0xCC6ED1B0, 0x6CFA9AB0, 0x042F137F, 0xCEA570EB), w, 11) == Regs(0xC882931B, 0x1161654A, 0x7BA5A3FF, 0x20FF0B5B, 0xC6028593);
    assert Round(Regs(0xC882931B, 0x1161654A, 0x7BA5A3FF, 0x20FF0B5B, 0xC6028593), 0x00000000, 11) == Regs(0x62968E00, 0xC882931B, 0x84585952, 0x7BA5A3FF, 0x20FF0B5B);
    assert Compress(Regs(0x064C662A, 0xCC6ED1B0, 0x6CFA9AB0, 0x042F137F, 0xCEA570EB), w, 12) == Regs(0x62968E00, 0xC882931B, 0x84585952, 0x7BA5A3FF, 0x20FF0B5B);
    assert Round(Regs(0x62968E00, 0xC882931B, 0x84585952, 0x7BA5A3FF, 0x20FF0B5B), 0x00000000, 12) == Regs(0x817876F6, 0x62968E00, 0xF220A4C6, 0x84585952, 0x7BA5A3FF);
    assert Compress(Regs(0x064C662A, 0xCC6ED1B0, 0x6CFA9AB0, 0x042F137F, 0xCEA570EB), w, 13) == Regs(0x817876F6, 0x62968E00, 0xF220A4C6, 0x84585952, 0x7BA5A3FF);
    assert Round(Regs(0x817876F6, 0x62968E00, 0xF220A4C6, 0x84585952, 0x7BA5A3FF), 0x00000000, 13) == Regs(0xEB7FD1BA, 0x817876F6, 0x18A5A380, 0xF220A4C6, 0x84585952);
    assert Compress(Regs(0x064C662A, 0xCC6ED1B0, 0x6CFA9AB0, 0x042F137F, 0xCEA570EB), w, 14) == Regs(0xEB7FD1BA, 0x817876F6, 0x18A5A380, 0xF220A4C6, 0x84585952);
    assert Round(Regs(0xEB7FD1BA, 0x817876F6, 0x18A5A380, 0xF220A4C6, 0x84585952), 0x00000000, 14) == Regs(0xC0F5ACC8, 0xEB7FD1BA, 0xA05E1DBD, 0x18A5A380, 0xF220A4C6);
    assert Compress(Regs(0x064C662A, 0xCC6ED1B0, 0x6CFA9AB0, 0x042F137F, 0xCEA570EB), w, 15) == Regs(0xC0F5ACC8, 0xEB7FD1BA, 0xA05E1DBD, 0x18A5A380, 0xF220A4C6);
    assert Round(Regs(0xC0F5ACC8, 0xEB7FD1BA, 0xA05E1DBD, 0x18A5A380, 0xF220A4C6), 0x00000240, 15) == Regs(0x1C36ED6F, 0xC0F5ACC8, 0xBADFF46E, 0xA05E1DBD, 0x18A5A380);
    assert Compress(Regs(0x064C662A, 0xCC6ED1B0, 0x6CFA9AB0, 0x042F137F, 0xCEA570EB), w, 16) == Regs(0x1C36ED6F, 0xC0F5ACC8, 0xBADFF46E, 0xA05E1DBD, 0x18A5A380);
    assert Round(Regs(0x1C36ED6F, 0xC0F5ACC8, 0xBADFF46E, 0xA05E1DBD, 0x18A5A380), 0x90D240A9, 16) == Regs(0x2BB7C122, 0x1C36ED6F, 0x303D6B32, 0xBADFF46E, 0xA05E1DBD);
    assert Compress(Regs(0x064C662A, 0xCC6ED1B0, 0x6CFA9AB0, 0x042F137F, 0xCEA570EB), w, 17) == Regs(0x2BB7C122, 0x1C36ED6F, 0x303D6B32, 0xBADFF46E, 0xA05E1DBD);
    assert Round(Regs(0x2BB7C122, 0x1C36ED6F, 0x303D6B32, 0xBADFF46E, 0xA05E1DBD), 0xD0CAE4CA, 17) == Regs(0xF5A11987, 0x2BB7C122, 0xC70DBB5B, 0x303D6B32, 0xBADFF46E);
    assert Compress(Regs(0x064C662A, 0xCC6ED1B0, 0x6CFA9AB0, 0x042F137F, 0xCEA570EB), w, 18) == Regs(0xF5A11987, 0x2BB7C122, 0xC70DBB5B, 0x303D6B32, 0xBADFF46E);
    assert Round(Regs(0xF5A11987, 0x2BB7C122, 0xC70DBB5B, 0x303D6B32, 0xBADFF46E), 0x00000481, 18) == Regs(0xDC934E98, 0xF5A11987, 0x8AEDF048, 0xC70DBB5B, 0x303D6B32);
    assert Compress(Regs(0x064C662A, 0xCC6ED1B0, 0x6CFA9AB0, 0x042F137F, 0xCEA570EB), w, 19) == Regs(0xDC934E98, 0xF5A11987, 0x8AEDF048, 0xC70DBB5B, 0x303D6B32);
    assert Round(Regs(0xDC934E98, 0xF5A11987, 0x8AEDF048, 0xC70DBB5B, 0x303D6B32), 0x21A48153, 19) == Regs(0xC17BEB91, 0xDC934E98, 0xFD684661, 0x8AEDF048, 0xC70DBB5B);
    assert Compress(Regs(0x064C662A, 0xCC6ED1B0, 0x6CFA9AB0, 0x042F137F, 0xCEA570EB), w, 20) == Regs(0xC17BEB91, 0xDC934E98, 0xFD684661, 0x8AEDF048, 0xC70DBB5B);
  }

  lemma HiThereInner1Rounds1(w: seq<word>)
    requires |w| == 80
    requires w[20] == 0xA195C995 && w[21] == 0x00000902 && w[22] == 0x434902A6 && w[23] == 0x432B97AB &&
      w[24] == 0x21A49357 && w[25] == 0x2707CCD9 && w[26] == 0x86572654 && w[27] == 0x00002408 &&
      w[28] == 0x0D240A99 && w[29] == 0x0CAE5A2D && w[30] == 0xA736CC0F && w[31] == 0x3D8AF771 &&
      w[32] == 0x7BB11AA5 && w[33] == 0xE2BECA9E && w[34] == 0x34903862 && w[35] == 0xB42B6DF8 &&
      w[36] == 0x1A8C1668 && w[37] == 0xF62BF9CC && w[38] == 0xE3E0600C && w[39] == 0x865574D6
    requires Compress(Regs(0x064C662A, 0xCC6ED1B0, 0x6CFA9AB0, 0x042F137F, 0xCEA570EB), w, 20) == Regs(0xC17BEB91, 0xDC934E98, 0xFD684661, 0x8AEDF048, 0xC70DBB5B)
    ensures Compress(Regs(0x064C662A, 0xCC6ED1B0, 0x6CFA9AB0, 0x042F137F, 0xCEA570EB), w, 40) == Regs(0x422645C7, 0xFEE73464, 0xF7CFB166, 0xE55DB83B, 0x324B6324)
  {
    assert Round(Regs(0xC17BEB91, 0xDC934E98, 0xFD684661, 0x8AEDF048, 0xC70DBB5B), 0xA195C995, 20) == Regs(0xB211DB7A, 0xC17BEB91, 0x3724D3A6, 0xFD684661, 0x8AEDF048);
    assert Compress(Regs(0x064C662A, 0xCC6ED1B0, 0x6CFA9AB0, 0x042F137F, 0xCEA570EB), w, 21) == Regs(0xB211DB7A, 0xC17BEB91, 0x3724D3A6, 0xFD684661, 0x8AEDF048);
    assert Round(Regs(0xB211DB7A, 0xC17BEB91, 0x3724D3A6, 0xFD684661, 0x8AEDF048), 0x00000902, 21) == Regs(0x473AD297, 0xB211DB7A, 0x705EFAE4, 0x3724D3A6, 0xFD684661);
    assert Compress(Regs(0x064C662A, 0xCC6ED1B0, 0x6CFA9AB0, 0x042F137F, 0xCEA570EB), w, 22) == Regs(0x473AD297, 0xB211DB7A, 0x705EFAE4, 0x3724D3A6, 0xFD684661);
    assert Round(Regs(0x473AD297, 0xB211DB7A, 0x705EFAE4, 0x3724D3A6, 0xFD684661), 0x434902A6, 22) == Regs(0x8C5179C8, 0x473AD297, 0xAC8476DE, 0x705EFAE4, 0x3724D3A6);
    assert Compress(Regs(0x064C662A, 0xCC6ED1B0, 0x6CFA9AB0, 0x042F137F, 0xCEA570EB), w, 23) == Regs(0x8C5179C8, 0x473AD297, 0xAC8476DE, 0x705EFAE4, 0x3724D3A6);
    assert Round(Regs(0x8C5179C8, 0x473AD297, 0xAC8476DE, 0x705EFAE4, 0x3724D3A6), 0x432B97AB, 23) == Regs(0x0F39EEB0, 0x8C5179C8, 0xD1CEB4A5, 0xAC8476DE, 0x705EFAE4);
    assert Compress(Regs(0x064C662A, 0xCC6ED1B0, 0x6CFA9AB0, 0x042F137F, 0xCEA570EB), w, 24) == Regs(0x0F39EEB0, 0x8C5179C8, 0xD1CEB4A5, 0xAC8476DE, 0x705EFAE4);
    assert Round(Regs(0x0F39EEB0, 0x8C5179C8, 0xD1CEB4A5, 0xAC8476DE, 0x705EFAE4), 0x21A49357, 24) == Regs(0xD9370B90, 0x0F39EEB0, 0x23145E72, 0xD1CEB4A5, 0xAC8476DE);
    assert Compress(Regs(0x064C662A, 0xCC6ED1B0, 0x6CFA9AB0, 0x042F137F, 0xCEA570EB), w, 25) == Regs(0xD9370B90, 0x0F39EEB0, 0x23145E72, 0xD1CEB4A5, 0xAC8476DE);
    assert Round(Regs(0xD9370B90, 0x0F39EEB0, 0x23145E72, 0xD1CEB4A5, 0xAC8476DE), 0x2707CCD9, 25) == Regs(0x672AA5DA, 0xD9370B90, 0x03CE7BAC, 0x23145E72, 0xD1CEB4A5);
    assert Compress(Regs(0x064C662A, 0xCC6ED1B0, 0x6CFA9AB0, 0x042F137F, 0xCEA570EB), w, 26) == Regs(0x672AA5DA, 0xD9370B90, 0x03CE7BAC, 0x23145E72, 0xD1CEB4A5);
    assert Round(Regs(0x672AA5DA, 0xD9370B90, 0x03CE7BAC, 0x23145E72, 0xD1CEB4A5), 0x86572654, 26) == Regs(0xA641B034, 0x672AA5DA, 0x364DC2E4, 0x03CE7BAC, 0x23145E72);
    assert Compress(Regs(0x064C662A, 0xCC6ED1B0, 0x6CFA9AB0, 0x042F137F, 0xCEA570EB), w, 27) == Regs(0xA641B034, 0x672AA5DA, 0x364DC2E4, 0x03CE7BAC, 0x23145E72);
    assert Round(Regs(0xA641B034, 0x672AA5DA, 0x364DC2E4, 0x03CE7BAC, 0x23145E72), 0x00002408, 27) == Regs(0xACCD9141, 0xA641B034, 0x99CAA976, 0x364DC2E4, 0x03CE7BAC);
    assert Compress(Regs(0x064C662A, 0xCC6ED1B0, 0x6CFA9AB0, 0x042F137F, 0xCEA570EB), w, 28) == Regs(0xACCD9141, 0xA641B034, 0x99CAA976, 0x364DC2E4, 0x03CE7BAC);
    assert Round(Regs(0xACCD9141, 0xA641B034, 0x99CAA976, 0x364DC2E4, 0x03CE7BAC), 0x0D240A99, 28) == Regs(0x234575C1, 0xACCD9141, 0x29906C0D, 0x99CAA976, 0x364DC2E4);
    assert Compress(Regs(0x064C662A, 0xCC6ED1B0, 0x6CFA9AB0, 0x042F137F, 0xCEA570EB), w, 29) == Regs(0x234575C1, 0xACCD9141, 0x29906C0D, 0x99CAA976, 0x364DC2E4);
    assert Round(Regs(0x234575C1, 0xACCD9141, 0x29906C0D, 0x99CAA976, 0x364DC2E4), 0x0CAE5A2D, 29) == Regs(0x371C1510, 0x234575C1, 0x6B336450, 0x29906C0D, 0x99CAA976);
    assert Compress(Regs(0x064C662A, 0xCC6ED1B0, 0x6CFA9AB0, 0x042F137F, 0xCEA570EB), w, 30) == Regs(0x371C1510, 0x234575C1, 0x6B336450, 0x29906C0D, 0x99CAA976);
    assert Round(Regs(0x371C1510, 0x234575C1, 0x6B336450, 0x29906C0D, 0x99CAA976), 0xA736CC0F, 30) == Regs(0xF54480C8, 0x371C1510, 0x48D15D70, 0x6B336450, 0x29906C0D);
    assert Compress(Regs(0x064C662A, 0xCC6ED1B0, 0x6CFA9AB0, 0x042F137F, 0xCEA570EB), w, 31) == Regs(0xF54480C8, 0x371C1510, 0x48D15D70, 0x6B336450, 0x29906C0D);
    assert Round(Regs(0xF54480C8, 0x371C1510, 0x48D15D70, 0x6B336450, 0x29906C0D), 0x3D8AF771, 31) == Regs(0x9383946D, 0xF54480C8, 0x0DC70544, 0x48D15D70, 0x6B336450);
    assert Compress(Regs(0x064C662A, 0xCC6ED1B0, 0x6CFA9AB0, 0x042F137F, 0xCEA570EB), w, 32) == Regs(0x9383946D, 0xF54480C8, 0x0DC70544, 0x48D15D70, 0x6B336450);
    assert Round(Regs(0x9383946D, 0xF54480C8, 0x0DC70544, 0x48D15D70, 0x6B336450), 0x7BB11AA5, 32) == Regs(0x7683D144, 0x9383946D, 0x3D512032, 0x0DC70544, 0x48D15D70);
    assert Compress(Regs(0x064C662A, 0xCC6ED1B0, 0x6CFA9AB0, 0x042F137F, 0xCEA570EB), w, 33) == Regs(0x7683D144, 0x9383946D, 0x3D512032, 0x0DC70544, 0x48D15D70);
    assert Round(Regs(0x7683D144, 0x9383946D, 0x3D512032, 0x0DC70544, 0x48D15D70), 0xE2BECA9E, 33) == Regs(0x0DF9ED58, 0x7683D144, 0x64E0E51B, 0x3D512032, 0x0DC70544);
    assert Compress(Regs(0x064C662A, 0xCC6ED1B0, 0x6CFA9AB0, 0x042F137F, 0xCEA570EB), w, 34) == Regs(0x0DF9ED58, 0x7683D144, 0x64E0E51B, 0x3D512032, 0x0DC70544);
    assert Round(Regs(0x0DF9ED58, 0x7683D144, 0x64E0E51B, 0x3D512032, 0x0DC70544), 0x34903862, 34) == Regs(0x9FA0E8B5, 0x0DF9ED58, 0x1DA0F451, 0x64E0E51B, 0x3D512032);
    assert Compress(Regs(0x064C662A, 0xCC6ED1B0, 0x6CFA9AB0, 0x042F137F, 0xCEA570EB), w, 35) == Regs(0x9FA0E8B5, 0x0DF9ED58, 0x1DA0F451, 0x64E0E51B, 0x3D512032);
    assert Round(Regs(0x9FA0E8B5, 0x0DF9ED58, 0x1DA0F451, 0x64E0E51B, 0x3D512032), 0xB42B6DF8, 35) == Regs(0xC92D8C90, 0x9FA0E8B5, 0x037E7B56, 0x1DA0F451, 0x64E0E51B);
    assert Compress(Regs(0x064C662A, 0xCC6ED1B0, 0x6CFA9AB0, 0x042F137F, 0xCEA570EB), w, 36) == Regs(0xC92D8C90, 0x9FA0E8B5, 0x037E7B56, 0x1DA0F451, 0x64E0E51B);
    assert Round(Regs(0xC92D8C90, 0x9FA0E8B5, 0x037E7B56, 0x1DA0F451, 0x64E0E51B), 0x1A8C1668, 36) == Regs(0x9576E0EF, 0xC92D8C90, 0x67E83A2D, 0x037E7B56, 0x1DA0F451);
    assert Compress(Regs(0x064C662A, 0xCC6ED1B0, 0x6CFA9AB0, 0x042F137F, 0xCEA570EB), w, 37) == Regs(0x9576E0EF, 0xC92D8C90, 0x67E83A2D, 0x037E7B56, 0x1DA0F451);
    assert Round(Regs(0x9576E0EF, 0xC92D8C90, 0x67E83A2D, 0x037E7B56, 0x1DA0F451), 0xF62BF9CC, 37) == Regs(0xDF3EC59B, 0x9576E0EF, 0x324B6324, 0x67E83A2D, 0x037E7B56);
    assert Compress(Regs(0x064C662A, 0xCC6ED1B0, 0x6CFA9AB0, 0x042F137F, 0xCEA570EB), w, 38) == Regs(0xDF3EC59B, 0x9576E0EF, 0x324B6324, 0x67E83A2D, 0x037E7B56);
    assert Round(Regs(0xDF3EC59B, 0x9576E0EF, 0x324B6324, 0x67E83A2D, 0x037E7B56), 0xE3E0600C, 38) == Regs(0xFEE73464, 0xDF3EC59B, 0xE55DB83B, 0x324B6324, 0x67E83A2D);
    assert Compress(Regs(0x064C662A, 0xCC6ED1B0, 0x6CFA9AB0, 0x042F137F, 0xCEA570EB), w, 39) == Regs(0xFEE73464, 0xDF3EC59B, 0xE55DB83B, 0x324B6324, 0x67E83A2D);
    assert Round(Regs(0xFEE73464, 0xDF3EC59B, 0xE55DB83B, 0x324B6324, 0x67E83A2D), 0x865574D6, 39) == Regs(0x422645C7, 0xFEE73464, 0xF7CFB166, 0xE55DB83B, 0x324B6324);
    assert Compress(Regs(0x064C662A, 0xCC6ED1B0, 0x6CFA9AB0, 0x042F137F, 0xCEA570EB), w, 40) == Regs(0x422645C7, 0xFEE73464, 0xF7CFB166, 0xE55DB83B, 0x324B6324);
  }

  lemma HiThereInner1Rounds2(w: seq<word>)
    requires |w| == 80
    requires w[40] == 0x54D2ACD4 && w[41] == 0x4CB28486 && w[42] == 0x736CC0F2 && w[43] == 0xD8AF7E13 &&
      w[44] == 0xF858A8F1 && w[45] == 0x68C728C5 && w[46] == 0xCF91916B && w[47] == 0x4273C391 &&
      w[48] == 0xE6694DAC && w[49] == 0xAB6D6517 && w[50] == 0x3E065AD2 && w[51] == 0xF98D4F16 &&
      w[52] == 0x54B37705 && w[53] == 0x4D7FFE1A && w[54] == 0x025C254B && w[55] == 0xB84E8989 &&
      w[56] == 0x1951BF21 && w[57] == 0x7A597592 && w[58] == 0x1AF976B0 && w[59] == 0xA1694DC2
    requires Compress(Regs(0x064C662A, 0xCC6ED1B0, 0x6CFA9AB0, 0x042F137F, 0xCEA570EB), w, 40) == Regs(0x422645C7, 0xFEE73464, 0xF7CFB166, 0xE55DB83B, 0x324B6324)
    ensures Compress(Regs(0x064C662A, 0xCC6ED1B0, 0x6CFA9AB0, 0x042F137F, 0xCEA570EB), w, 60) == Regs(0x37C71A84, 0x01FB601B, 0x5947172B, 0x9C017F13, 0x77E50218)
  {
    assert Round(Regs(0x422645C7, 0xFEE73464, 0xF7CFB166, 0xE55DB83B, 0x324B6324), 0x54D2ACD4, 40) == Regs(0x52D23622, 0x422645C7, 0x3FB9CD19, 0xF7CFB166, 0xE55DB83B);
    assert Compress(Regs(0x064C662A, 0xCC6ED1B0, 0x6CFA9AB0, 0x042F137F, 0xCEA570EB), w, 41) == Regs(0x52D23622, 0x422645C7, 0x3FB9CD19, 0xF7CFB166, 0xE55DB83B);
    assert Round(Regs(0x52D23622, 0x422645C7, 0x3FB9CD19, 0xF7CFB166, 0xE55DB83B), 0x4CB28486, 41) == Regs(0x9322832E, 0x52D23622, 0xD0899171, 0x3FB9CD19, 0xF7CFB166);
    assert Compress(Regs(0x064C662A, 0xCC6ED1B0, 0x6CFA9AB0, 0x042F137F, 0xCEA570EB), w, 42) == Regs(0x9322832E, 0x52D23622, 0xD0899171, 0x3FB9CD19, 0xF7CFB166);
    assert Round(Regs(0x9322832E, 0x52D23622, 0xD0899171, 0x3FB9CD19, 0xF7CFB166), 0x736CC0F2, 42) == Regs(0xB1422A37, 0x9322832E, 0x94B48D88, 0xD0899171, 0x3FB9CD19);
    assert Compress(Regs(0x064C662A, 0xCC6ED1B0, 0x6CFA9AB0, 0x042F137F, 0xCEA570EB), w, 43) == Regs(0xB1422A37, 0x9322832E, 0x94B48D88, 0xD0899171, 0x3FB9CD19);
    assert Round(Regs(0xB1422A37, 0x9322832E, 0x94B48D88, 0xD0899171, 0x3FB9CD19), 0xD8AF7E13, 43) == Regs(0x606AD026, 0xB1422A37, 0xA4C8A0CB, 0x94B48D88, 0xD0899171);
    assert Compress(Regs(0x064C662A, 0xCC6ED1B0, 0x6CFA9AB0, 0x042F137F, 0xCEA570EB), w, 44) == Regs(0x606AD026, 0xB1422A37, 0xA4C8A0CB, 0x94B48D88, 0xD0899171);
    assert Round(Regs(0x606AD026, 0xB1422A37, 0xA4C8A0CB, 0x94B48D88, 0xD0899171), 0xF858A8F1, 44) == Regs(0x1A18A495, 0x606AD026, 0xEC508A8D, 0xA4C8A0CB, 0x94B48D88);
    assert Compress(Regs(0x064C662A, 0xCC6ED1B0, 0x6CFA9AB0, 0x042F137F, 0xCEA570EB), w, 45) == Regs(0x1A18A495, 0x606AD026, 0xEC508A8D, 0xA4C8A0CB, 0x94B48D88);
    assert Round(Regs(0x1A18A495, 0x606AD026, 0xEC508A8D, 0xA4C8A0CB, 0x94B48D88), 0x68C728C5, 45) == Regs(0xB3F4865B, 0x1A18A495, 0x981AB409, 0xEC508A8D, 0xA4C8A0CB);
    assert Compress(Regs(0x064C662A, 0xCC6ED1B0, 0x6CFA9AB0, 0x042F137F, 0xCEA570EB), w, 46) == Regs(0xB3F4865B, 0x1A18A495, 0x981AB409, 0xEC508A8D, 0xA4C8A0CB);
    assert Round(Regs(0xB3F4865B, 0x1A18A495, 0x981AB409, 0xEC508A8D, 0xA4C8A0CB), 0xCF91916B, 46) == Regs(0x1A1F5F15, 0xB3F4865B, 0x46862925, 0x981AB409, 0xEC508A8D);
    assert Compress(Regs(0x064C662A, 0xCC6ED1B0, 0x6CFA9AB0, 0x042F137F, 0xCEA570EB), w, 47) == Regs(0x1A1F5F15, 0xB3F4865B, 0x46862925, 0x981AB409, 0xEC508A8D);
    assert Round(Regs(0x1A1F5F15, 0xB3F4865B, 0x46862925, 0x981AB409, 0xEC508A8D), 0x4273C391, 47) == Regs(0x946291A6, 0x1A1F5F15, 0xECFD2196, 0x46862925, 0x981AB409);
    assert Compress(Regs(0x064C662A, 0xCC6ED1B0, 0x6CFA9AB0, 0x042F137F, 0xCEA570EB), w, 48) == Regs(0x946291A6, 0x1A1F5F15, 0xECFD2196, 0x46862925, 0x981AB409);
    assert Round(Regs(0x946291A6, 0x1A1F5F15, 0xECFD2196, 0x46862925, 0x981AB409), 0xE6694DAC, 48) == Regs(0xE8911C78, 0x946291A6, 0x4687D7C5, 0xECFD2196, 0x46862925);
    assert Compress(Regs(0x064C662A, 0xCC6ED1B0, 0x6CFA9AB0, 0x042F137F, 0xCEA570EB), w, 49) == Regs(0xE8911C78, 0x946291A6, 0x4687D7C5, 0xECFD2196, 0x46862925);
    assert Round(Regs(0xE8911C78, 0x946291A6, 0x4687D7C5, 0xECFD2196, 0x46862925), 0xAB6D6517, 49) == Regs(0x581A6BBB, 0xE8911C78, 0xA518A469, 0x4687D7C5, 0xECFD2196);
    assert Compress(Regs(0x064C662A, 0xCC6ED1B0, 0x6CFA9AB0, 0x042F137F, 0xCEA570EB), w, 50) == Regs(0x581A6BBB, 0xE8911C78, 0xA518A469, 0x4687D7C5, 0xECFD2196);
    assert Round(Regs(0x581A6BBB, 0xE8911C78, 0xA518A469, 0x4687D7C5, 0xECFD2196), 0x3E065AD2, 50) == Regs(0xA1FE4518, 0x581A6BBB, 0x3A24471E, 0xA518A469, 0x4687D7C5);
    assert Compress(Regs(0x064C662A, 0xCC6ED1B0, 0x6CFA9AB0, 0x042F137F, 0xCEA570EB), w, 51) == Regs(0xA1FE4518, 0x581A6BBB, 0x3A24471E, 0xA518A469, 0x4687D7C5);
    assert Round(Regs(0xA1FE4518, 0x581A6BBB, 0x3A24471E, 0xA518A469, 0x4687D7C5), 0xF98D4F16, 51) == Regs(0x4711EE06, 0xA1FE4518, 0xD6069AEE, 0x3A24471E, 0xA518A469);
    assert Compress(Regs(0x064C662A, 0xCC6ED1B0, 0x6CFA9AB0, 0x042F137F, 0xCEA570EB), w, 52) == Regs(0x4711EE06, 0xA1FE4518, 0xD6069AEE, 0x3A24471E, 0xA518A469);
    assert Round(Regs(0x4711EE06, 0xA1FE4518, 0xD6069AEE, 0x3A24471E, 0xA518A469), 0x54B37705, 52) == Regs(0x1D4BE030, 0x4711EE06, 0x287F9146, 0xD6069AEE, 0x3A24471E);
    assert Compress(Regs(0x064C662A, 0xCC6ED1B0, 0x6CFA9AB0, 0x042F137F, 0xCEA570EB), w, 53) == Regs(0x1D4BE030, 0x4711EE06, 0x287F9146, 0xD6069AEE, 0x3A24471E);
    assert Round(Regs(0x1D4BE030, 0x4711EE06, 0x287F9146, 0xD6069AEE, 0x3A24471E), 0x4D7FFE1A, 53) == Regs(0x0653A25D, 0x1D4BE030, 0x91C47B81, 0x287F9146, 0xD6069AEE);
    assert Compress(Regs(0x064C662A, 0xCC6ED1B0, 0x6CFA9AB0, 0x042F137F, 0xCEA570EB), w, 54) == Regs(0x0653A25D, 0x1D4BE030, 0x91C47B81, 0x287F9146, 0xD6069AEE);
    assert Round(Regs(0x0653A25D, 0x1D4BE030, 0x91C47B81, 0x287F9146, 0xD6069AEE), 0x025C254B, 54) == Regs(0x4B42B9B5, 0x0653A25D, 0x0752F80C, 0x91C47B81, 0x287F9146);
    assert Compress(Regs(0x064C662A, 0xCC6ED1B0, 0x6CFA9AB0, 0x042F137F, 0xCEA570EB), w, 55) == Regs(0x4B42B9B5, 0x0653A25D, 0x0752F80C, 0x91C47B81, 0x287F9146);
    assert Round(Regs(0x4B42B9B5, 0x0653A25D, 0x0752F80C, 0x91C47B81, 0x287F9146), 0xB84E8989, 55) == Regs(0xDF940861, 0x4B42B9B5, 0x4194E897, 0x0752F80C, 0x91C47B81);
    assert Compress(Regs(0x064C662A, 0xCC6ED1B0, 0x6CFA9AB0, 0x042F137F, 0xCEA570EB), w, 56) == Regs(0xDF940861, 0x4B42B9B5, 0x4194E897, 0x0752F80C, 0x91C47B81);
    assert Round(Regs(0xDF940861, 0x4B42B9B5, 0x4194E897, 0x0752F80C, 0x91C47B81), 0x1951BF21, 56) == Regs(0x7005FC4E, 0xDF940861, 0x52D0AE6D, 0x4194E897, 0x0752F80C);
    assert Compress(Regs(0x064C662A, 0xCC6ED1B0, 0x6CFA9AB0, 0x042F137F, 0xCEA570EB), w, 57) == Regs(0x7005FC4E, 0xDF940861, 0x52D0AE6D, 0x4194E897, 0x0752F80C);
    assert Round(Regs(0x7005FC4E, 0xDF940861, 0x52D0AE6D, 0x4194E897, 0x0752F80C), 0x7A597592, 57) == Regs(0x651C5CAD, 0x7005FC4E, 0x77E50218, 0x52D0AE6D, 0x4194E897);
    assert Compress(Regs(0x064C662A, 0xCC6ED1B0, 0x6CFA9AB0, 0x042F137F, 0xCEA570EB), w, 58) == Regs(0x651C5CAD, 0x7005FC4E, 0x77E50218, 0x52D0AE6D, 0x4194E897);
    assert Round(Regs(0x651C5CAD, 0x7005FC4E, 0x77E50218, 0x52D0AE6D, 0x4194E897), 0x1AF976B0, 58) == Regs(0x01FB601B, 0x651C5CAD, 0x9C017F13, 0x77E50218, 0x52D0AE6D);
    assert Compress(Regs(0x064C662A, 0xCC6ED1B0, 0x6CFA9AB0, 0x042F137F, 0xCEA570EB), w, 59) == Regs(0x01FB601B, 0x651C5CAD, 0x9C017F13, 0x77E50218, 0x52D0AE6D);
    assert Round(Regs(0x01FB601B, 0x651C5CAD, 0x9C017F13, 0x77E50218, 0x52D0AE6D), 0xA1694DC2, 59) == Regs(0x37C71A84, 0x01FB601B, 0x5947172B, 0x9C017F13, 0x77E50218);
    assert Compress(Regs(0x064C662A, 0xCC6ED1B0, 0x6CFA9AB0, 0x042F137F, 0xCEA570EB), w, 60) == Regs(0x37C71A84, 0x01FB601B, 0x5947172B, 0x9C017F13, 0x77E50218);
  }

  lemma HiThereInner1Rounds3(w: seq<word>)
    requires |w| == 80
    requires w[60] == 0x3246761A && w[61] == 0xFA64C7FC && w[62] == 0x159B689D && w[63] == 0xC62CB22A &&
      w[64] == 0x76B4DF46 && w[65] == 0x7A446E1C && w[66] == 0x6CC1D29B && w[67] == 0xC65E4710 &&
      w[68] == 0x3DDA9490 && w[69] == 0xC728C5E8 && w[70] == 0x91916BCF && w[71] == 0x73C3B542 &&
      w[72] == 0x6469A67F && w[73] == 0x61CA7B06 && w[74] == 0x6F7ACEE6 && w[75] == 0xF274D6A3 &&
      w[76] == 0xF79BE222 && w[77] == 0x2834FDB1 && w[78] == 0x0194156E && w[79] == 0x706116AC
    requires Compress(Regs(0x064C662A, 0xCC6ED1B0, 0x6CFA9AB0, 0x042F137F, 0xCEA570EB), w, 60) == Regs(0x37C71A84, 0x01FB601B, 0x5947172B, 0x9C017F13, 0x77E50218)
    ensures Compress(Regs(0x064C662A, 0xCC6ED1B0, 0x6CFA9AB0, 0x042F137F, 0xCEA570EB), w, 80) == Regs(0x3119D19E, 0xC5CEF3E5, 0x771F8CE7, 0x2A6A3DA2, 0x4E9B5DAD)
  {
    assert Round(Regs(0x37C71A84, 0x01FB601B, 0x5947172B, 0x9C017F13, 0x77E50218), 0x3246761A, 60) == Regs(0x322E92B1, 0x37C71A84, 0xC07ED806, 0x5947172B, 0x9C017F13);
    assert Compress(Regs(0x064C662A, 0xCC6ED1B0, 0x6CFA9AB0, 0x042F137F, 0xCEA570EB), w, 61) == Regs(0x322E92B1, 0x37C71A84, 0xC07ED806, 0x5947172B, 0x9C017F13);
    assert Round(Regs(0x322E92B1, 0x37C71A84, 0xC07ED806, 0x5947172B, 0x9C017F13), 0xFA64C7FC, 61) == Regs(0x559A34B4, 0x322E92B1, 0x0DF1C6A1, 0xC07ED806, 0x5947172B);
    assert Compress(Regs(0x064C662A, 0xCC6ED1B0, 0x6CFA9AB0, 0x042F137F, 0xCEA570EB), w, 62) == Regs(0x559A34B4, 0x322E92B1, 0x0DF1C6A1, 0xC07ED806, 0x5947172B);
    assert Round(Regs(0x559A34B4, 0x322E92B1, 0x0DF1C6A1, 0xC07ED806, 0x5947172B), 0x159B689D, 62) == Regs(0xEC2D643E, 0x559A34B4, 0x4C8BA4AC, 0x0DF1C6A1, 0xC07ED806);
    assert Compress(Regs(0x064C662A, 0xCC6ED1B0, 0x6CFA9AB0, 0x042F137F, 0xCEA570EB), w, 63) == Regs(0xEC2D643E, 0x559A34B4, 0x4C8BA4AC, 0x0DF1C6A1, 0xC07ED806);
    assert Round(Regs(0xEC2D643E, 0x559A34B4, 0x4C8BA4AC, 0x0DF1C6A1, 0xC07ED806), 0xC62CB22A, 63) == Regs(0xEB9B2A9C, 0xEC2D643E, 0x15668D2D, 0x4C8BA4AC, 0x0DF1C6A1);
    assert Compress(Regs(0x064C662A, 0xCC6ED1B0, 0x6CFA9AB0, 0x042F137F, 0xCEA570EB), w, 64) == Regs(0xEB9B2A9C, 0xEC2D643E, 0x15668D2D, 0x4C8BA4AC, 0x0DF1C6A1);
    assert Round(Regs(0xEB9B2A9C, 0xEC2D643E, 0x15668D2D, 0x4C8BA4AC, 0x0DF1C6A1), 0x76B4DF46, 64) == Regs(0x782F0919, 0xEB9B2A9C, 0xBB0B590F, 0x15668D2D, 0x4C8BA4AC);
    assert Compress(Regs(0x064C662A, 0xCC6ED1B0, 0x6CFA9AB0, 0x042F137F, 0xCEA570EB), w, 65) == Regs(0x782F0919, 0xEB9B2A9C, 0xBB0B590F, 0x15668D2D, 0x4C8BA4AC);
    assert Round(Regs(0x782F0919, 0xEB9B2A9C, 0xBB0B590F, 0x15668D2D, 0x4C8BA4AC), 0x7A446E1C, 65) == Regs(0xDD0AF68B, 0x782F0919, 0x3AE6CAA7, 0xBB0B590F, 0x15668D2D);
    assert Compress(Regs(0x064C662A, 0xCC6ED1B0, 0x6CFA9AB0, 0x042F137F, 0xCEA570EB), w, 66) == Regs(0xDD0AF68B, 0x782F0919, 0x3AE6CAA7, 0xBB0B590F, 0x15668D2D);
    assert Round(Regs(0xDD0AF68B, 0x782F0919, 0x3AE6CAA7, 0xBB0B590F, 0x15668D2D), 0x6CC1D29B, 66) == Regs(0xE7AC8DCA, 0xDD0AF68B, 0x5E0BC246, 0x3AE6CAA7, 0xBB0B590F);
    assert Compress(Regs(0x064C662A, 0xCC6ED1B0, 0x6CFA9AB0, 0x042F137F, 0xCEA570EB), w, 67) == Regs(0xE7AC8DCA, 0xDD0AF68B, 0x5E0BC246, 0x3AE6CAA7, 0xBB0B590F);
    assert Round(Regs(0xE7AC8DCA, 0xDD0AF68B, 0x5E0BC246, 0x3AE6CAA7, 0xBB0B590F), 0xC65E4710, 67) == Regs(0xFB4619BB, 0xE7AC8DCA, 0xF742BDA2, 0x5E0BC246, 0x3AE6CAA7);
    assert Compress(Regs(0x064C662A, 0xCC6ED1B0, 0x6CFA9AB0, 0x042F137F, 0xCEA570EB), w, 68) == Regs(0xFB4619BB, 0xE7AC8DCA, 0xF742BDA2, 0x5E0BC246, 0x3AE6CAA7);
    assert Round(Regs(0xFB4619BB, 0xE7AC8DCA, 0xF742BDA2, 0x5E0BC246, 0x3AE6CAA7), 0x3DDA9490, 68) == Regs(0xFACD4ABA, 0xFB4619BB, 0xB9EB2372, 0xF742BDA2, 0x5E0BC246);
    assert Compress(Regs(0x064C662A, 0xCC6ED1B0, 0x6CFA9AB0, 0x042F137F, 0xCEA570EB), w, 69) == Regs(0xFACD4ABA, 0xFB4619BB, 0xB9EB2372, 0xF742BDA2, 0x5E0BC246);
    assert Round(Regs(0xFACD4ABA, 0xFB4619BB, 0xB9EB2372, 0xF742BDA2, 0x5E0BC246), 0xC728C5E8, 69) == Regs(0xFF3028CE, 0xFACD4ABA, 0xFED1866E, 0xB9EB2372, 0xF742BDA2);
    assert Compress(Regs(0x064C662A, 0xCC6ED1B0, 0x6CFA9AB0, 0x042F137F, 0xCEA570EB), w, 70) == Regs(0xFF3028CE, 0xFACD4ABA, 0xFED1866E, 0xB9EB2372, 0xF742BDA2);
    assert Round(Regs(0xFF3028CE, 0xFACD4ABA, 0xFED1866E, 0xB9EB2372, 0xF742BDA2), 0x91916BCF, 70) == Regs(0xF733F4CC, 0xFF3028CE, 0xBEB352AE, 0xFED1866E, 0xB9EB2372);
    assert Compress(Regs(0x064C662A, 0xCC6ED1B0, 0x6CFA9AB0, 0x042F137F, 0xCEA570EB), w, 71) == Regs(0xF733F4CC, 0xFF3028CE, 0xBEB352AE, 0xFED1866E, 0xB9EB2372);
    assert Round(Regs(0xF733F4CC, 0xFF3028CE, 0xBEB352AE, 0xFED1866E, 0xB9EB2372), 0x73C3B542, 71) == Regs(0x9DE33036, 0xF733F4CC, 0xBFCC0A33, 0xBEB352AE, 0xFED1866E);
    assert Compress(Regs(0x064C662A, 0xCC6ED1B0, 0x6CFA9AB0, 0x042F137F, 0xCEA570EB), w, 72) == Regs(0x9DE33036, 0xF733F4CC, 0xBFCC0A33, 0xBEB352AE, 0xFED1866E);
    assert Round(Regs(0x9DE33036, 0xF733F4CC, 0xBFCC0A33, 0xBEB352AE, 0xFED1866E), 0x6469A67F, 72) == Regs(0xE050A1E7, 0x9DE33036, 0x3DCCFD33, 0xBFCC0A33, 0xBEB352AE);
    assert Compress(Regs(0x064C662A, 0xCC6ED1B0, 0x6CFA9AB0, 0x042F137F, 0xCEA570EB), w, 73) == Regs(0xE050A1E7, 0x9DE33036, 0x3DCCFD33, 0xBFCC0A33, 0xBEB352AE);
    assert Round(Regs(0xE050A1E7, 0x9DE33036, 0x3DCCFD33, 0xBFCC0A33, 0xBEB352AE), 0x61CA7B06, 73) == Regs(0x14D893BC, 0xE050A1E7, 0xA778CC0D, 0x3DCCFD33, 0xBFCC0A33);
    assert Compress(Regs(0x064C662A, 0xCC6ED1B0, 0x6CFA9AB0, 0x042F137F, 0xCEA570EB), w, 74) == Regs(0x14D893BC, 0xE050A1E7, 0xA778CC0D, 0x3DCCFD33, 0xBFCC0A33);
    assert Round(Regs(0x14D893BC, 0xE050A1E7, 0xA778CC0D, 0x3DCCFD33, 0xBFCC0A33), 0x6F7ACEE6, 74) == Regs(0x0FA0A34A, 0x14D893BC, 0xF8142879, 0xA778CC0D, 0x3DCCFD33);
    assert Compress(Regs(0x064C662A, 0xCC6ED1B0, 0x6CFA9AB0, 0x042F137F, 0xCEA570EB), w, 75) == Regs(0x0FA0A34A, 0x14D893BC, 0xF8142879, 0xA778CC0D, 0x3DCCFD33);
    assert Round(Regs(0x0FA0A34A, 0x14D893BC, 0xF8142879, 0xA778CC0D, 0x3DCCFD33), 0xF274D6A3, 75) == Regs(0x3A6D76B5, 0x0FA0A34A, 0x053624EF, 0xF8142879, 0xA778CC0D);
    assert Compress(Regs(0x064C662A, 0xCC6ED1B0, 0x6CFA9AB0, 0x042F137F, 0xCEA570EB), w, 76) == Regs(0x3A6D76B5, 0x0FA0A34A, 0x053624EF, 0xF8142879, 0xA778CC0D);
    assert Round(Regs(0x3A6D76B5, 0x0FA0A34A, 0x053624EF, 0xF8142879, 0xA778CC0D), 0xF79BE222, 76) == Regs(0xA9A8F688, 0x3A6D76B5, 0x83E828D2, 0x053624EF, 0xF8142879);
    assert Compress(Regs(0x064C662A, 0xCC6ED1B0, 0x6CFA9AB0, 0x042F137F, 0xCEA570EB), w, 77) == Regs(0xA9A8F688, 0x3A6D76B5, 0x83E828D2, 0x053624EF, 0xF8142879);
    assert Round(Regs(0xA9A8F688, 0x3A6D76B5, 0x83E828D2, 0x053624EF, 0xF8142879), 0x2834FDB1, 77) == Regs(0xDC7E339D, 0xA9A8F688, 0x4E9B5DAD, 0x83E828D2, 0x053624EF);
    assert Compress(Regs(0x064C662A, 0xCC6ED1B0, 0x6CFA9AB0, 0x042F137F, 0xCEA570EB), w, 78) == Regs(0xDC7E339D, 0xA9A8F688, 0x4E9B5DAD, 0x83E828D2, 0x053624EF);
    assert Round(Regs(0xDC7E339D, 0xA9A8F688, 0x4E9B5DAD, 0x83E828D2, 0x053624EF), 0x0194156E, 78) == Regs(0xC5CEF3E5, 0xDC7E339D, 0x2A6A3DA2, 0x4E9B5DAD, 0x83E828D2);
    assert Compress(Regs(0x064C662A, 0xCC6ED1B0, 0x6CFA9AB0, 0x042F137F, 0xCEA570EB), w, 79) == Regs(0xC5CEF3E5, 0xDC7E339D, 0x2A6A3DA2, 0x4E9B5DAD, 0x83E828D2);
    assert Round(Regs(0xC5CEF3E5, 0xDC7E339D, 0x2A6A3DA2, 0x4E9B5DAD, 0x83E828D2), 0x706116AC, 79) == Regs(0x3119D19E, 0xC5CEF3E5, 0x771F8CE7, 0x2A6A3DA2, 0x4E9B5DAD);
    assert Compress(Regs(0x064C662A, 0xCC6ED1B0, 0x6CFA9AB0, 0x042F137F, 0xCEA570EB), w, 80) == Regs(0x3119D19E, 0xC5CEF3E5, 0x771F8CE7, 0x2A6A3DA2, 0x4E9B5DAD);
  }

  lemma HiThereInner1Compress(words: seq<word>)
    requires |words| == 16
    requires words[0] == 0x48692054 && words[1] == 0x68657265 && words[2] == 0x80000000 && words[3] == 0x00000000 &&
      words[4] == 0x00000000 && words[5] == 0x00000000 && words[6] == 0x00000000 && words[7] == 0x00000000 &&
      words[8] == 0x00000000 && words[9] == 0x00000000 && words[10] == 0x00000000 && words[11] == 0x00000000 &&
      words[12] == 0x00000000 && words[13] == 0x00000000 && words[14] == 0x00000000 && words[15] == 0x00000240
    ensures Compress(Regs(0x064C662A, 0xCC6ED1B0, 0x6CFA9AB0, 0x042F137F, 0xCEA570EB), Schedule(words), 80) == Regs(0x3119D19E, 0xC5CEF3E5, 0x771F8CE7, 0x2A6A3DA2, 0x4E9B5DAD)
  {
    var w := Schedule(words);
    ScheduleIsSchedule(words);
    forall j | 0 <= j < 16
      ensures w[j] == words[j]
    {
      assert w[..16][j] == w[j];
    }
    HiThereInner1Schedule0(w);
    HiThereInner1Schedule1(w);
    HiThereInner1Schedule2(w);
    HiThereInner1Schedule3(w);
    HiThereInner1Rounds0(w);
    HiThereInner1Rounds1(w);
    HiThereInner1Rounds2(w);
    HiThereInner1Rounds3(w);
  }

  lemma HiThereInnerDigest()
    ensures Sha1.Digest(InnerInput(HiThereKey, HiThereMessage)) == [0x37, 0x66, 0x37, 0xC8, 0x92, 0x3D, 0xC5, 0x95, 0xE4, 0x1A, 0x27, 0x97, 0x2E, 0x99, 0x51, 0x21, 0x1D, 0x40, 0xCE, 0x98]
  {
    var p := Sha1.Pad(InnerInput(HiThereKey, HiThereMessage));
    HiThereInnerLength();
    HiThereInnerBlock0(p);
    HiThereInnerBlock1(p);
    var b := Split(p);
    ChainTwo(IV, b);
    HiThereInner0Compress(b[0].words);
    HiThereInner1Compress(b[1].words);
    assert Sha1.Chain(IV, b) == Regs(0x376637C8, 0x923DC595, 0xE41A2797, 0x2E995121, 0x1D40CE98);
    HiThereInnerOutput();
  }

  lemma HiThereInnerOutput()
    ensures Serialize(Regs(0x376637C8, 0x923DC595, 0xE41A2797, 0x2E995121, 0x1D40CE98)) == [0x37, 0x66, 0x37, 0xC8, 0x92, 0x3D, 0xC5, 0x95, 0xE4, 0x1A, 0x27, 0x97, 0x2E, 0x99, 0x51, 0x21, 0x1D, 0x40, 0xCE, 0x98]
  {
  }

  lemma HiThereOuterInput0(d: seq<byte>)
    requires d == [0x37, 0x66, 0x37, 0xC8, 0x92, 0x3D, 0xC5, 0x95, 0xE4, 0x1A, 0x27, 0x97, 0x2E, 0x99, 0x51, 0x21, 0x1D, 0x40, 0xCE, 0x98]
    ensures |OuterInput(HiThereKey, d)| == 84
    ensures var m := OuterInput(HiThereKey, d);
      m[0] == 0x57 && m[1] == 0x57 && m[2] == 0x57 && m[3] == 0x57 &&
      m[4] == 0x57 && m[5] == 0x57 && m[6] == 0x57 && m[7] == 0x57 &&
      m[8] == 0x57 && m[9] == 0x57 && m[10] == 0x57 && m[11] == 0x57 &&
      m[12] == 0x57 && m[13] == 0x57 && m[14] == 0x57 && m[15] == 0x57
  {
    var m := OuterInput(HiThereKey, d);
    NormalizeKeyPrefix(HiThereKey);
    var k := NormalizeKey(HiThereKey);
    assert m[0] == k[0] ^ 0x5C;
    assert m[1] == k[1] ^ 0x5C;
    assert m[2] == k[2] ^ 0x5C;
    assert m[3] == k[3] ^ 0x5C;
    assert m[4] == k[4] ^ 0x5C;
    assert m[5] == k[5] ^ 0x5C;
    assert m[6] == k[6] ^ 0x5C;
    assert m[7] == k[7] ^ 0x5C;
    assert m[8] == k[8] ^ 0x5C;
    assert m[9] == k[9] ^ 0x5C;
    assert m[10] == k[10] ^ 0x5C;
    assert m[11] == k[11] ^ 0x5C;
    assert m[12] == k[12] ^ 0x5C;
    assert m[13] == k[13] ^ 0x5C;
    assert m[14] == k[14] ^ 0x5C;
    assert m[15] == k[15] ^ 0x5C;
  }

  lemma HiThereOuterInput1(d: seq<byte>)
    requires d == [0x37, 0x66, 0x37, 0xC8, 0x92, 0x3D, 0xC5, 0x95, 0xE4, 0x1A, 0x27, 0x97, 0x2E, 0x99, 0x51, 0x21, 0x1D, 0x40, 0xCE, 0x98]
    ensures |OuterInput(HiThereKey, d)| == 84
    ensures var m := OuterInput(HiThereKey, d);
      m[16] == 0x57 && m[17] == 0x57 && m[18] == 0x57 && m[19] == 0x57 &&
      m[20] == 0x5C && m[21] == 0x5C && m[22] == 0x5C && m[23] == 0x5C &&
      m[24] == 0x5C && m[25] == 0x5C && m[26] == 0x5C && m[27] == 0x5C &&
      m[28] == 0x5C && m[29] == 0x5C && m[30] == 0x5C && m[31] == 0x5C
  {
    var m := OuterInput(HiThereKey, d);
    NormalizeKeyPrefix(HiThereKey);
    var k := NormalizeKey(HiThereKey);
    assert m[16] == k[16] ^ 0x5C;
    assert m[17] == k[17] ^ 0x5C;
    assert m[18] == k[18] ^ 0x5C;
    assert m[19] == k[19] ^ 0x5C;
    assert m[20] == k[20] ^ 0x5C;
    assert m[21] == k[21] ^ 0x5C;
    assert m[22] == k[22] ^ 0x5C;
    assert m[23] == k[23] ^ 0x5C;
    assert m[24] == k[24] ^ 0x5C;
    assert m[25] == k[25] ^ 0x5C;
    assert m[26] == k[26] ^ 0x5C;
    assert m[27] == k[27] ^ 0x5C;
    assert m[28] == k[28] ^ 0x5C;
    assert m[29] == k[29] ^ 0x5C;
    assert m[30] == k[30] ^ 0x5C;
    assert m[31] == k[31] ^ 0x5C;
  }

  lemma HiThereOuterInput2(d: seq<byte>)
    requires d == [0x37, 0x66, 0x37, 0xC8, 0x92, 0x3D, 0xC5, 0x95, 0xE4, 0x1A, 0x27, 0x97, 0x2E, 0x99, 0x51, 0x21, 0x1D, 0x40, 0xCE, 0x98]
    ensures |OuterInput(HiThereKey, d)| == 84
    ensures var m := OuterInput(HiThereKey, d);
      m[32] == 0x5C && m[33] == 0x5C && m[34] == 0x5C && m[35] == 0x5C &&
      m[36] == 0x5C && m[37] == 0x5C && m[38] == 0x5C && m[39] == 0x5C &&
      m[40] == 0x5C && m[41] == 0x5C && m[42] == 0x5C && m[43] == 0x5C &&
      m[44] == 0x5C && m[45] == 0x5C && m[46] == 0x5C && m[47] == 0x5C
  {
    var m := OuterInput(HiThereKey, d);
    NormalizeKeyPrefix(HiThereKey);
    var k := NormalizeKey(HiThereKey);
    assert m[32] == k[32] ^ 0x5C;
    assert m[33] == k[33] ^ 0x5C;
    assert m[34] == k[34] ^ 0x5C;
    assert m[35] == k[35] ^ 0x5C;
    assert m[36] == k[36] ^ 0x5C;
    assert m[37] == k[37] ^ 0x5C;
    assert m[38] == k[38] ^ 0x5C;
    assert m[39] == k[39] ^ 0x5C;
    assert m[40] == k[40] ^ 0x5C;
    assert m[41] == k[41] ^ 0x5C;
    assert m[42] == k[42] ^ 0x5C;
    assert m[43] == k[43] ^ 0x5C;
    assert m[44] == k[44] ^ 0x5C;
    assert m[45] == k[45] ^ 0x5C;
    assert m[46] == k[46] ^ 0x5C;
    assert m[47] == k[47] ^ 0x5C;
  }

  lemma HiThereOuterInput3(d: seq<byte>)
    requires d == [0x37, 0x66, 0x37, 0xC8, 0x92, 0x3D, 0xC5, 0x95, 0xE4, 0x1A, 0x27, 0x97, 0x2E, 0x99, 0x51, 0x21, 0x1D, 0x40, 0xCE, 0x98]
    ensures |OuterInput(HiThereKey, d)| == 84
    ensures var m := OuterInput(HiThereKey, d);
      m[48] == 0x5C && m[49] == 0x5C && m[50] == 0x5C && m[51] == 0x5C &&
      m[52] == 0x5C && m[53] == 0x5C && m[54] == 0x5C && m[55] == 0x5C &&
      m[56] == 0x5C && m[57] == 0x5C && m[58] == 0x5C && m[59] == 0x5C &&
      m[60] == 0x5C && m[61] == 0x5C && m[62] == 0x5C && m[63] == 0x5C
  {
    var m := OuterInput(HiThereKey, d);
    NormalizeKeyPrefix(HiThereKey);
    var k := NormalizeKey(HiThereKey);
    assert m[48] == k[48] ^ 0x5C;
    assert m[49] == k[49] ^ 0x5C;
    assert m[50] == k[50] ^ 0x5C;
    assert m[51] == k[51] ^ 0x5C;
    assert m[52] == k[52] ^ 0x5C;
    assert m[53] == k[53] ^ 0x5C;
    assert m[54] == k[54] ^ 0x5C;
    assert m[55] == k[55] ^ 0x5C;
    assert m[56] == k[56] ^ 0x5C;
    assert m[57] == k[57] ^ 0x5C;
    assert m[58] == k[58] ^ 0x5C;
    assert m[59] == k[59] ^ 0x5C;
    assert m[60] == k[60] ^ 0x5C;
    assert m[61] == k[61] ^ 0x5C;
    assert m[62] == k[62] ^ 0x5C;
    assert m[63] == k[63] ^ 0x5C;
  }

  lemma HiThereOuterInput4(d: seq<byte>)
    requires d == [0x37, 0x66, 0x37, 0xC8, 0x92, 0x3D, 0xC5, 0x95, 0xE4, 0x1A, 0x27, 0x97, 0x2E, 0x99, 0x51, 0x21, 0x1D, 0x40, 0xCE, 0x98]
    ensures |OuterInput(HiThereKey, d)| == 84
    ensures var m := OuterInput(HiThereKey, d);
      m[64] == 0x37 && m[65] == 0x66 && m[66] == 0x37 && m[67] == 0xC8 &&
      m[68] == 0x92 && m[69] == 0x3D && m[70] == 0xC5 && m[71] == 0x95 &&
      m[72] == 0xE4 && m[73] == 0x1A && m[74] == 0x27 && m[75] == 0x97 &&
      m[76] == 0x2E && m[77] == 0x99 && m[78] == 0x51 && m[79] == 0x21
  {
    var m := OuterInput(HiThereKey, d);
    assert m[64] == m[64..][0];
    assert m[65] == m[64..][1];
    assert m[66] == m[64..][2];
    assert m[67] == m[64..][3];
    assert m[68] == m[64..][4];
    assert m[69] == m[64..][5];
    assert m[70] == m[64..][6];
    assert m[71] == m[64..][7];
    assert m[72] == m[64..][8];
    assert m[73] == m[64..][9];
    assert m[74] == m[64..][10];
    assert m[75] == m[64..][11];
    assert m[76] == m[64..][12];
    assert m[77] == m[64..][13];
    assert m[78] == m[64..][14];
    assert m[79] == m[64..][15];
  }

  lemma HiThereOuterInput5(d: seq<byte>)
    requires d == [0x37, 0x66, 0x37, 0xC8, 0x92, 0x3D, 0xC5, 0x95, 0xE4, 0x1A, 0x27, 0x97, 0x2E, 0x99, 0x51, 0x21, 0x1D, 0x40, 0xCE, 0x98]
    ensures |OuterInput(HiThereKey, d)| == 84
    ensures var m := OuterInput(HiThereKey, d);
      m[80] == 0x1D && m[81] == 0x40 && m[82] == 0xCE && m[83] == 0x98
  {
    var m := OuterInput(HiThereKey, d);
    assert m[80] == m[64..][16];
    assert m[81] == m[64..][17];
    assert m[82] == m[64..][18];
    assert m[83] == m[64..][19];
  }

  lemma HiThereOuterLength(d: seq<byte>)
    requires d == [0x37, 0x66, 0x37, 0xC8, 0x92, 0x3D, 0xC5, 0x95, 0xE4, 0x1A, 0x27, 0x97, 0x2E, 0x99, 0x51, 0x21, 0x1D, 0x40, 0xCE, 0x98]
    ensures |Sha1.Pad(OuterInput(HiThereKey, d))| == 128
  {
    HmacInputLength(HiThereKey, d);
  }

  lemma HiThereOuterBytes0(p: seq<byte>, d: seq<byte>)
    requires p == Sha1.Pad(OuterInput(HiThereKey, d)) && d == [0x37, 0x66, 0x37, 0xC8, 0x92, 0x3D, 0xC5, 0x95, 0xE4, 0x1A, 0x27, 0x97, 0x2E, 0x99, 0x51, 0x21, 0x1D, 0x40, 0xCE, 0x98]
    ensures |p| == 128
    ensures p[0] == 0x57 && p[1] == 0x57 && p[2] == 0x57 && p[3] == 0x57 &&
      p[4] == 0x57 && p[5] == 0x57 && p[6] == 0x57 && p[7] == 0x57 &&
      p[8] == 0x57 && p[9] == 0x57 && p[10] == 0x57 && p[11] == 0x57 &&
      p[12] == 0x57 && p[13] == 0x57 && p[14] == 0x57 && p[15] == 0x57
  {
    var m := OuterInput(HiThereKey, d);
    HiThereOuterLength(d);
    HiThereOuterInput0(d);
    Sha1.PadShape(m);
    assert p[0] == p[..84][0];
    assert p[1] == p[..84][1];
    assert p[2] == p[..84][2];
    assert p[3] == p[..84][3];
    assert p[4] == p[..84][4];
    assert p[5] == p[..84][5];
    assert p[6] == p[..84][6];
    assert p[7] == p[..84][7];
    assert p[8] == p[..84][8];
    assert p[9] == p[..84][9];
    assert p[10] == p[..84][10];
    assert p[11] == p[..84][11];
    assert p[12] == p[..84][12];
    assert p[13] == p[..84][13];
    assert p[14] == p[..84][14];
    assert p[15] == p[..84][15];
  }

  lemma HiThereOuterBytes1(p: seq<byte>, d: seq<byte>)
    requires p == Sha1.Pad(OuterInput(HiThereKey, d)) && d == [0x37, 0x66, 0x37, 0xC8, 0x92, 0x3D, 0xC5, 0x95, 0xE4, 0x1A, 0x27, 0x97, 0x2E, 0x99, 0x51, 0x21, 0x1D, 0x40, 0xCE, 0x98]
    ensures |p| == 128
    ensures p[16] == 0x57 && p[17] == 0x57 && p[18] == 0x57 && p[19] == 0x57 &&
      p[20] == 0x5C && p[21] == 0x5C && p[22] == 0x5C && p[23] == 0x5C &&
      p[24] == 0x5C && p[25] == 0x5C && p[26] == 0x5C && p[27] == 0x5C &&
      p[28] == 0x5C && p[29] == 0x5C && p[30] == 0x5C && p[31] == 0x5C
  {
    var m := OuterInput(HiThereKey, d);
    HiThereOuterLength(d);
    HiThereOuterInput1(d);
    Sha1.PadShape(m);
    assert p[16] == p[..84][16];
    assert p[17] == p[..84][17];
    assert p[18] == p[..84][18];
    assert p[19] == p[..84][19];
    assert p[20] == p[..84][20];
    assert p[21] == p[..84][21];
    assert p[22] == p[..84][22];
    assert p[23] == p[..84][23];
    assert p[24] == p[..84][24];
    assert p[25] == p[..84][25];
    assert p[26] == p[..84][26];
    assert p[27] == p[..84][27];
    assert p[28] == p[..84][28];
    assert p[29] == p[..84][29];
    assert p[30] == p[..84][30];
    assert p[31] == p[..84][31];
  }

  lemma HiThereOuterBytes2(p: seq<byte>, d: seq<byte>)
    requires p == Sha1.Pad(OuterInput(HiThereKey, d)) && d == [0x37, 0x66, 0x37, 0xC8, 0x92, 0x3D, 0xC5, 0x95, 0xE4, 0x1A, 0x27, 0x97, 0x2E, 0x99, 0x51, 0x21, 0x1D, 0x40, 0xCE, 0x98]
    ensures |p| == 128
    ensures p[32] == 0x5C && p[33] == 0x5C && p[34] == 0x5C && p[35] == 0x5C &&
      p[36] == 0x5C && p[37] == 0x5C && p[38] == 0x5C && p[39] == 0x5C &&
      p[40] == 0x5C && p[41] == 0x5C && p[42] == 0x5C && p[43] == 0x5C &&
      p[44] == 0x5C && p[45] == 0x5C && p[46] == 0x5C && p[47] == 0x5C
  {
    var m := OuterInput(HiThereKey, d);
    HiThereOuterLength(d);
    HiThereOuterInput2(d);
    Sha1.PadShape(m);
    assert p[32] == p[..84][32];
    assert p[33] == p[..84][33];
    assert p[34] == p[..84][34];
    assert p[35] == p[..84][35];
    assert p[36] == p[..84][36];
    assert p[37] == p[..84][37];
    assert p[38] == p[..84][38];
    assert p[39] == p[..84][39];
    assert p[40] == p[..84][40];
    assert p[41] == p[..84][41];
    assert p[42] == p[..84][42];
    assert p[43] == p[..84][43];
    assert p[44] == p[..84][44];
    assert p[45] == p[..84][45];
    assert p[46] == p[..84][46];
    assert p[47] == p[..84][47];
  }

  lemma HiThereOuterBytes3(p: seq<byte>, d: seq<byte>)
    requires p == Sha1.Pad(OuterInput(HiThereKey, d)) && d == [0x37, 0x66, 0x37, 0xC8, 0x92, 0x3D, 0xC5, 0x95, 0xE4, 0x1A, 0x27, 0x97, 0x2E, 0x99, 0x51, 0x21, 0x1D, 0x40, 0xCE, 0x98]
    ensures |p| == 128
    ensures p[48] == 0x5C && p[49] == 0x5C && p[50] == 0x5C && p[51] == 0x5C &&
      p[52] == 0x5C && p[53] == 0x5C && p[54] == 0x5C && p[55] == 0x5C &&
      p[56] == 0x5C && p[57] == 0x5C && p[58] == 0x5C && p[59] == 0x5C &&
      p[60] == 0x5C && p[61] == 0x5C && p[62] == 0x5C && p[63] == 0x5C
  {
    var m := OuterInput(HiThereKey, d);
    HiThereOuterLength(d);
    HiThereOuterInput3(d);
    Sha1.PadShape(m);
    assert p[48] == p[..84][48];
    assert p[49] == p[..84][49];
    assert p[50] == p[..84][50];
    assert p[51] == p[..84][51];
    assert p[52] == p[..84][52];
    assert p[53] == p[..84][53];
    assert p[54] == p[..84][54];
    assert p[55] == p[..84][55];
    assert p[56] == p[..84][56];
    assert p[57] == p[..84][57];
    assert p[58] == p[..84][58];
    assert p[59] == p[..84][59];
    assert p[60] == p[..84][60];
    assert p[61] == p[..84][61];
    assert p[62] == p[..84][62];
    assert p[63] == p[..84][63];
  }

  lemma HiThereOuterBytes4(p: seq<byte>, d: seq<byte>)
    requires p == Sha1.Pad(OuterInput(HiThereKey, d)) && d == [0x37, 0x66, 0x37, 0xC8, 0x92, 0x3D, 0xC5, 0x95, 0xE4, 0x1A, 0x27, 0x97, 0x2E, 0x99, 0x51, 0x21, 0x1D, 0x40, 0xCE, 0x98]
    ensures |p| == 128
    ensures p[64] == 0x37 && p[65] == 0x66 && p[66] == 0x37 && p[67] == 0xC8 &&
      p[68] == 0x92 && p[69] == 0x3D && p[70] == 0xC5 && p[71] == 0x95 &&
      p[72] == 0xE4 && p[73] == 0x1A && p[74] == 0x27 && p[75] == 0x97 &&
      p[76] == 0x2E && p[77] == 0x99 && p[78] == 0x51 && p[79] == 0x21
  {
    var m := OuterInput(HiThereKey, d);
    HiThereOuterLength(d);
    HiThereOuterInput4(d);
    Sha1.PadShape(m);
    assert p[64] == p[..84][64];
    assert p[65] == p[..84][65];
    assert p[66] == p[..84][66];
    assert p[67] == p[..84][67];
    assert p[68] == p[..84][68];
    assert p[69] == p[..84][69];
    assert p[70] == p[..84][70];
    assert p[71] == p[..84][71];
    assert p[72] == p[..84][72];
    assert p[73] == p[..84][73];
    assert p[74] == p[..84][74];
    assert p[75] == p[..84][75];
    assert p[76] == p[..84][76];
    assert p[77] == p[..84][77];
    assert p[78] == p[..84][78];
    assert p[79] == p[..84][79];
  }

  lemma HiThereOuterBytes5(p: seq<byte>, d: seq<byte>)
    requires p == Sha1.Pad(OuterInput(HiThereKey, d)) && d == [0x37, 0x66, 0x37, 0xC8, 0x92, 0x3D, 0xC5, 0x95, 0xE4, 0x1A, 0x27, 0x97, 0x2E, 0x99, 0x51, 0x21, 0x1D, 0x40, 0xCE, 0x98]
    ensures |p| == 128
    ensures p[80] == 0x1D && p[81] == 0x40 && p[82] == 0xCE && p[83] == 0x98 &&
      p[84] == 0x80 && p[85] == 0x00 && p[86] == 0x00 && p[87] == 0x00 &&
      p[88] == 0x00 && p[89] == 0x00 && p[90] == 0x00 && p[91] == 0x00 &&
      p[92] == 0x00 && p[93] == 0x00 && p[94] == 0x00 && p[95] == 0x00
  {
    var m := OuterInput(HiThereKey, d);
    HiThereOuterLength(d);
    HiThereOuterInput5(d);
    Sha1.PadShape(m);
    assert p[80] == p[..84][80];
    assert p[81] == p[..84][81];
    assert p[82] == p[..84][82];
    assert p[83] == p[..84][83];
  }

  lemma HiThereOuterBytes6(p: seq<byte>, d: seq<byte>)
    requires p == Sha1.Pad(OuterInput(HiThereKey, d)) && d == [0x37, 0x66, 0x37, 0xC8, 0x92, 0x3D, 0xC5, 0x95, 0xE4, 0x1A, 0x27, 0x97, 0x2E, 0x99, 0x51, 0x21, 0x1D, 0x40, 0xCE, 0x98]
    ensures |p| == 128
    ensures p[96] == 0x00 && p[97] == 0x00 && p[98] == 0x00 && p[99] == 0x00 &&
      p[100] == 0x00 && p[101] == 0x00 && p[102] == 0x00 && p[103] == 0x00 &&
      p[104] == 0x00 && p[105] == 0x00 && p[106] == 0x00 && p[107] == 0x00 &&
      p[108] == 0x00 && p[109] == 0x00 && p[110] == 0x00 && p[111] == 0x00
  {
    var m := OuterInput(HiThereKey, d);
    HiThereOuterLength(d);
    Sha1.PadShape(m);
  }

  lemma HiThereOuterBytes7(p: seq<byte>, d: seq<byte>)
    requires p == Sha1.Pad(OuterInput(HiThereKey, d)) && d == [0x37, 0x66, 0x37, 0xC8, 0x92, 0x3D, 0xC5, 0x95, 0xE4, 0x1A, 0x27, 0x97, 0x2E, 0x99, 0x51, 0x21, 0x1D, 0x40, 0xCE, 0x98]
    ensures |p| == 128
    ensures p[112] == 0x00 && p[113] == 0x00 && p[114] == 0x00 && p[115] == 0x00 &&
      p[116] == 0x00 && p[117] == 0x00 && p[118] == 0x00 && p[119] == 0x00 &&
      p[120] == 0x00 && p[121] == 0x00 && p[122] == 0x00 && p[123] == 0x00 &&
      p[124] == 0x00 && p[125] == 0x00 && p[126] == 0x02 && p[127] == 0xA0
  {
    var m := OuterInput(HiThereKey, d);
    HiThereOuterLength(d);
    Sha1.PadShape(m);
    LengthField2A0();
    assert p[120] == p[120..][0];
    assert p[121] == p[120..][1];
    assert p[122] == p[120..][2];
    assert p[123] == p[120..][3];
    assert p[124] == p[120..][4];
    assert p[125] == p[120..][5];
    assert p[126] == p[120..][6];
    assert p[127] == p[120..][7];
  }

  lemma HiThereOuterWords0(p: seq<byte>)
    requires |p| == 128
    requires p[0] == 0x57 && p[1] == 0x57 && p[2] == 0x57 && p[3] == 0x57 &&
      p[4] == 0x57 && p[5] == 0x57 && p[6] == 0x57 && p[7] == 0x57 &&
      p[8] == 0x57 && p[9] == 0x57 && p[10] == 0x57 && p[11] == 0x57 &&
      p[12] == 0x57 && p[13] == 0x57 && p[14] == 0x57 && p[15] == 0x57
    ensures var b := Split(p)[0].words;
      b[0] == 0x57575757 && b[1] == 0x57575757 && b[2] == 0x57575757 && b[3] == 0x57575757
  {
    SplitWords(p, 0, 0);
    SplitWords(p, 0, 1);
    SplitWords(p, 0, 2);
    SplitWords(p, 0, 3);
  }

  lemma HiThereOuterWords1(p: seq<byte>)
    requires |p| == 128
    requires p[16] == 0x57 && p[17] == 0x57 && p[18] == 0x57 && p[19] == 0x57 &&
      p[20] == 0x5C && p[21] == 0x5C && p[22] == 0x5C && p[23] == 0x5C &&
      p[24] == 0x5C && p[25] == 0x5C && p[26] == 0x5C && p[27] == 0x5C &&
      p[28] == 0x5C && p[29] == 0x5C && p[30] == 0x5C && p[31] == 0x5C
    ensures var b := Split(p)[0].words;
      b[4] == 0x57575757 && b[5] == 0x5C5C5C5C && b[6] == 0x5C5C5C5C && b[7] == 0x5C5C5C5C
  {
    SplitWords(p, 0, 4);
    SplitWords(p, 0, 5);
    SplitWords(p, 0, 6);
    SplitWords(p, 0, 7);
  }

  lemma HiThereOuterWords2(p: seq<byte>)
    requires |p| == 128
    requires p[32] == 0x5C && p[33] == 0x5C && p[34] == 0x5C && p[35] == 0x5C &&
      p[36] == 0x5C && p[37] == 0x5C && p[38] == 0x5C && p[39] == 0x5C &&
      p[40] == 0x5C && p[41] == 0x5C && p[42] == 0x5C && p[43] == 0x5C &&
      p[44] == 0x5C && p[45] == 0x5C && p[46] == 0x5C && p[47] == 0x5C
    ensures var b := Split(p)[0].words;
      b[8] == 0x5C5C5C5C && b[9] == 0x5C5C5C5C && b[10] == 0x5C5C5C5C && b[11] == 0x5C5C5C5C
  {
    SplitWords(p, 0, 8);
    SplitWords(p, 0, 9);
    SplitWords(p, 0, 10);
    SplitWords(p, 0, 11);
  }

  lemma HiThereOuterWords3(p: seq<byte>)
    requires |p| == 128
    requires p[48] == 0x5C && p[49] == 0x5C && p[50] == 0x5C && p[51] == 0x5C &&
      p[52] == 0x5C && p[53] == 0x5C && p[54] == 0x5C && p[55] == 0x5C &&
      p[56] == 0x5C && p[57] == 0x5C && p[58] == 0x5C && p[59] == 0x5C &&
      p[60] == 0x5C && p[61] == 0x5C && p[62] == 0x5C && p[63] == 0x5C
    ensures var b := Split(p)[0].words;
      b[12] == 0x5C5C5C5C && b[13] == 0x5C5C5C5C && b[14] == 0x5C5C5C5C && b[15] == 0x5C5C5C5C
  {
    SplitWords(p, 0, 12);
    SplitWords(p, 0, 13);
    SplitWords(p, 0, 14);
    SplitWords(p, 0, 15);
  }

  lemma HiThereOuterWords4(p: seq<byte>)
    requires |p| == 128
    requires p[64] == 0x37 && p[65] == 0x66 && p[66] == 0x37 && p[67] == 0xC8 &&
      p[68] == 0x92 && p[69] == 0x3D && p[70] == 0xC5 && p[71] == 0x95 &&
      p[72] == 0xE4 && p[73] == 0x1A && p[74] == 0x27 && p[75] == 0x97 &&
      p[76] == 0x2E && p[77] == 0x99 && p[78] == 0x51 && p[79] == 0x21
    ensures var b := Split(p)[1].words;
      b[0] == 0x376637C8 && b[1] == 0x923DC595 && b[2] == 0xE41A2797 && b[3] == 0x2E995121
  {
    SplitWords(p, 1, 0);
    SplitWords(p, 1, 1);
    SplitWords(p, 1, 2);
    SplitWords(p, 1, 3);
  }

  lemma HiThereOuterWords5(p: seq<byte>)
    requires |p| == 128
    requires p[80] == 0x1D && p[81] == 0x40 && p[82] == 0xCE && p[83] == 0x98 &&
      p[84] == 0x80 && p[85] == 0x00 && p[86] == 0x00 && p[87] == 0x00 &&
      p[88] == 0x00 && p[89] == 0x00 && p[90] == 0x00 && p[91] == 0x00 &&
      p[92] == 0x00 && p[93] == 0x00 && p[94] == 0x00 && p[95] == 0x00
    ensures var b := Split(p)[1].words;
      b[4] == 0x1D40CE98 && b[5] == 0x80000000 && b[6] == 0x00000000 && b[7] == 0x00000000
  {
    SplitWords(p, 1, 4);
    SplitWords(p, 1, 5);
    SplitWords(p, 1, 6);
    SplitWords(p, 1, 7);
  }

  lemma HiThereOuterWords6(p: seq<byte>)
    requires |p| == 128
    requires p[96] == 0x00 && p[97] == 0x00 && p[98] == 0x00 && p[99] == 0x00 &&
      p[100] == 0x00 && p[101] == 0x00 && p[102] == 0x00 && p[103] == 0x00 &&
      p[104] == 0x00 && p[105] == 0x00 && p[106] == 0x00 && p[107] == 0x00 &&
      p[108] == 0x00 && p[109] == 0x00 && p[110] == 0x00 && p[111] == 0x00
    ensures var b := Split(p)[1].words;
      b[8] == 0x00000000 && b[9] == 0x00000000 && b[10] == 0x00000000 && b[11] == 0x00000000
  {
    SplitWords(p, 1, 8);
    SplitWords(p, 1, 9);
    SplitWords(p, 1, 10);
    SplitWords(p, 1, 11);
  }

  lemma HiThereOuterWords7(p: seq<byte>)
    requires |p| == 128
    requires p[112] == 0x00 && p[113] == 0x00 && p[114] == 0x00 && p[115] == 0x00 &&
      p[116] == 0x00 && p[117] == 0x00 && p[118] == 0x00 && p[119] == 0x00 &&
      p[120] == 0x00 && p[121] == 0x00 && p[122] == 0x00 && p[123] == 0x00 &&
      p[124] == 0x00 && p[125] == 0x00 && p[126] == 0x02 && p[127] == 0xA0
    ensures var b := Split(p)[1].words;
      b[12] == 0x00000000 && b[13] == 0x00000000 && b[14] == 0x00000000 && b[15] == 0x000002A0
  {
    SplitWords(p, 1, 12);
    SplitWords(p, 1, 13);
    SplitWords(p, 1, 14);
    SplitWords(p, 1, 15);
  }

  lemma HiThereOuterBlock0(p: seq<byte>, d: seq<byte>)
    requires p == Sha1.Pad(OuterInput(HiThereKey, d)) && d == [0x37, 0x66, 0x37, 0xC8, 0x92, 0x3D, 0xC5, 0x95, 0xE4, 0x1A, 0x27, 0x97, 0x2E, 0x99, 0x51, 0x21, 0x1D, 0x40, 0xCE, 0x98]
    requires |p| == 128
    ensures var b := Split(p)[0].words;
      b[0] == 0x57575757 && b[1] == 0x57575757 && b[2] == 0x57575757 && b[3] == 0x57575757 &&
      b[4] == 0x57575757 && b[5] == 0x5C5C5C5C && b[6] == 0x5C5C5C5C && b[7] == 0x5C5C5C5C &&
      b[8] == 0x5C5C5C5C && b[9] == 0x5C5C5C5C && b[10] == 0x5C5C5C5C && b[11] == 0x5C5C5C5C &&
      b[12] == 0x5C5C5C5C && b[13] == 0x5C5C5C5C && b[14] == 0x5C5C5C5C && b[15] == 0x5C5C5C5C
  {
    HiThereOuterBytes0(p, d);
    HiThereOuterWords0(p);
    HiThereOuterBytes1(p, d);
    HiThereOuterWords1(p);
    HiThereOuterBytes2(p, d);
    HiThereOuterWords2(p);
    HiThereOuterBytes3(p, d);
    HiThereOuterWords3(p);
  }

  lemma HiThereOuterBlock1(p: seq<byte>, d: seq<byte>)
    requires p == Sha1.Pad(OuterInput(HiThereKey, d)) && d == [0x37, 0x66, 0x37, 0xC8, 0x92, 0x3D, 0xC5, 0x95, 0xE4, 0x1A, 0x27, 0x97, 0x2E, 0x99, 0x51, 0x21, 0x1D, 0x40, 0xCE, 0x98]
    requires |p| == 128
    ensures var b := Split(p)[1].words;
      b[0] == 0x376637C8 && b[1] == 0x923DC595 && b[2] == 0xE41A2797 && b[3] == 0x2E995121 &&
      b[4] == 0x1D40CE98 && b[5] == 0x80000000 && b[6] == 0x00000000 && b[7] == 0x00000000 &&
      b[8] == 0x00000000 && b[9] == 0x00000000 && b[10] == 0x00000000 && b[11] == 0x00000000 &&
      b[12] == 0x00000000 && b[13] == 0x00000000 && b[14] == 0x00000000 && b[15] == 0x000002A0
  {
    HiThereOuterBytes4(p, d);
    HiThereOuterWords4(p);
    HiThereOuterBytes5(p, d);
    HiThereOuterWords5(p);
    HiThereOuterBytes6(p, d);
    HiThereOuterWords6(p);
    HiThereOuterBytes7(p, d);
    HiThereOuterWords7(p);
  }

  lemma HiThereOuter0Schedule0(w: seq<word>)
    requires |w| == 80 && forall i :: 16 <= i < 80 ==> Follows(w, i)
    requires w[0] == 0x57575757 && w[1] == 0x57575757 && w[2] == 0x57575757 && w[3] == 0x57575757 &&
      w[4] == 0x57575757 && w[5] == 0x5C5C5C5C && w[6] == 0x5C5C5C5C && w[7] == 0x5C5C5C5C &&
      w[8] == 0x5C5C5C5C && w[9] == 0x5C5C5C5C && w[10] == 0x5C5C5C5C && w[11] == 0x5C5C5C5C &&
      w[12] == 0x5C5C5C5C && w[13] == 0x5C5C5C5C && w[14] == 0x5C5C5C5C && w[15] == 0x5C5C5C5C
    ensures w[16] == 0x00000000 && w[17] == 0x00000000 && w[18] == 0x00000000 && w[19] == 0xAEAEAEAE &&
      w[20] == 0xAEAEAEAE && w[21] == 0xB8B8B8B8 && w[22] == 0xE5E5E5E5 && w[23] == 0xE5E5E5E5 &&
      w[24] == 0x71717171 && w[25] == 0xCBCBCBCB && w[26] == 0xCBCBCBCB && w[27] == 0xBFBFBFBF &&
      w[28] == 0xCACACACA && w[29] == 0xE6E6E6E6 && w[30] == 0x0C0C0C0C && w[31] == 0xE6E6E6E6
  {
    assert Follows(w, 16);
    assert Follows(w, 17);
    assert Follows(w, 18);
    assert Follows(w, 19);
    assert Follows(w, 20);
    assert Follows(w, 21);
    assert Follows(w, 22);
    assert Follows(w, 23);
    assert Follows(w, 24);
    assert Follows(w, 25);
    assert Follows(w, 26);
    assert Follows(w, 27);
    assert Follows(w, 28);
    assert Follows(w, 29);
    assert Follows(w, 30);
    assert Follows(w, 31);
  }

  lemma HiThereOuter0Schedule1(w: seq<word>)
    requires |w| == 80 && forall i :: 16 <= i < 80 ==> Follows(w, i)
    requires w[16] == 0x00000000 && w[17] == 0x00000000 && w[18] == 0x00000000 && w[19] == 0xAEAEAEAE &&
      w[20] == 0xAEAEAEAE && w[21] == 0xB8B8B8B8 && w[22] == 0xE5E5E5E5 && w[23] == 0xE5E5E5E5 &&
      w[24] == 0x71717171 && w[25] == 0xCBCBCBCB && w[26] == 0xCBCBCBCB && w[27] == 0xBFBFBFBF &&
      w[28] == 0xCACACACA && w[29] == 0xE6E6E6E6 && w[30] == 0x0C0C0C0C && w[31] == 0xE6E6E6E6
    ensures w[32] == 0x2F2F2F2F && w[33] == 0xD2D2D2D2 && w[34] == 0x07070707 && w[35] == 0x0D0D0D0D &&
      w[36] == 0xA6A6A6A6 && w[37] == 0x79797979 && w[38] == 0x2B2B2B2B && w[39] == 0xDCDCDCDC &&
      w[40] == 0xD9D9D9D9 && w[41] == 0x1B1B1B1B && w[42] == 0xB5B5B5B5 && w[43] == 0x1B1B1B1B &&
      w[44] == 0xF6F6F6F6 && w[45] == 0x99999999 && w[46] == 0x26262626 && w[47] == 0x3C3C3C3C
  {
    assert Follows(w, 32);
    assert Follows(w, 33);
    assert Follows(w, 34);
    assert Follows(w, 35);
    assert Follows(w, 36);
    assert Follows(w, 37);
    assert Follows(w, 38);
    assert Follows(w, 39);
    assert Follows(w, 40);
    assert Follows(w, 41);
    assert Follows(w, 42);
    assert Follows(w, 43);
    assert Follows(w, 44);
    assert Follows(w, 45);
    assert Follows(w, 46);
    assert Follows(w, 47);
  }

  lemma HiThereOuter0Schedule2(w: seq<word>)
    requires |w| == 80 && forall i :: 16 <= i < 80 ==> Follows(w, i)
    requires w[32] == 0x2F2F2F2F && w[33] == 0xD2D2D2D2 && w[34] == 0x07070707 && w[35] == 0x0D0D0D0D &&
      w[36] == 0xA6A6A6A6 && w[37] == 0x79797979 && w[38] == 0x2B2B2B2B && w[39] == 0xDCDCDCDC &&
      w[40] == 0xD9D9D9D9 && w[41] == 0x1B1B1B1B && w[42] == 0xB5B5B5B5 && w[43] == 0x1B1B1B1B &&
      w[44] == 0xF6F6F6F6 && w[45] == 0x99999999 && w[46] == 0x26262626 && w[47] == 0x3C3C3C3C
    ensures w[48] == 0xD0D0D0D0 && w[49] == 0xC5C5C5C5 && w[50] == 0x50505050 && w[51] == 0x7F7F7F7F &&
      w[52] == 0x7D7D7D7D && w[53] == 0xD8D8D8D8 && w[54] == 0x57575757 && w[55] == 0x0D0D0D0D &&
      w[56] == 0xC8C8C8C8 && w[57] == 0x25252525 && w[58] == 0x3C3C3C3C && w[59] == 0x6A6A6A6A &&
      w[60] == 0x11111111 && w[61] == 0x82828282 && w[62] == 0x97979797 && w[63] == 0xCBCBCBCB
  {
    assert Follows(w, 48);
    assert Follows(w, 49);
    assert Follows(w, 50);
    assert Follows(w, 51);
    assert Follows(w, 52);
    assert Follows(w, 53);
    assert Follows(w, 54);
    assert Follows(w, 55);
    assert Follows(w, 56);
    assert Follows(w, 57);
    assert Follows(w, 58);
    assert Follows(w, 59);
    assert Follows(w, 60);
    assert Follows(w, 61);
    assert Follows(w, 62);
    assert Follows(w, 63);
  }

  lemma HiThereOuter0Schedule3(w: seq<word>)
    requires |w| == 80 && forall i :: 16 <= i < 80 ==> Follows(w, i)
    requires w[48] == 0xD0D0D0D0 && w[49] == 0xC5C5C5C5 && w[50] == 0x50505050 && w[51] == 0x7F7F7F7F &&
      w[52] == 0x7D7D7D7D && w[53] == 0xD8D8D8D8 && w[54] == 0x57575757 && w[55] == 0x0D0D0D0D &&
      w[56] == 0xC8C8C8C8 && w[57] == 0x25252525 && w[58] == 0x3C3C3C3C && w[59] == 0x6A6A6A6A &&
      w[60] == 0x11111111 && w[61] == 0x82828282 && w[62] == 0x97979797 && w[63] == 0xCBCBCBCB
    ensures w[64] == 0x95959595 && w[65] == 0x10101010 && w[66] == 0xB5B5B5B5 && w[67] == 0xB0B0B0B0 &&
      w[68] == 0x56565656 && w[69] == 0xC5C5C5C5 && w[70] == 0x71717171 && w[71] == 0x6B6B6B6B &&
      w[72] == 0x49494949 && w[73] == 0x5C5C5C5C && w[74] == 0xE7E7E7E7 && w[75] == 0x22222222 &&
      w[76] == 0x19191919 && w[77] == 0xD6D6D6D6 && w[78] == 0xA2A2A2A2 && w[79] == 0x53535353
  {
    assert Follows(w, 64);
    assert Follows(w, 65);
    assert Follows(w, 66);
    assert Follows(w, 67);
    assert Follows(w, 68);
    assert Follows(w, 69);
    assert Follows(w, 70);
    assert Follows(w, 71);
    assert Follows(w, 72);
    assert Follows(w, 73);
    assert Follows(w, 74);
    assert Follows(w, 75);
    assert Follows(w, 76);
    assert Follows(w, 77);
    assert Follows(w, 78);
    assert Follows(w, 79);
  }

  lemma HiThereOuter0Rounds0(w: seq<word>)
    requires |w| == 80
    requires w[0] == 0x57575757 && w[1] == 0x57575757 && w[2] == 0x57575757 && w[3] == 0x57575757 &&
      w[4] == 0x57575757 && w[5] == 0x5C5C5C5C && w[6] == 0x5C5C5C5C && w[7] == 0x5C5C5C5C &&
      w[8] == 0x5C5C5C5C && w[9] == 0x5C5C5C5C && w[10] == 0x5C5C5C5C && w[11] == 0x5C5C5C5C &&
      w[12] == 0x5C5C5C5C && w[13] == 0x5C5C5C5C && w[14] == 0x5C5C5C5C && w[15] == 0x5C5C5C5C &&
      w[16] == 0x00000000 && w[17] == 0x00000000 && w[18] == 0x00000000 && w[19] == 0xAEAEAEAE
    requires Compress(IV, w, 0) == Regs(0x67452301, 0xEFCDAB89, 0x98BADCFE, 0x10325476, 0xC3D2E1F0)
    ensures Compress(IV, w, 20) == Regs(0x072188F2, 0x9B11C6C9, 0xDB684089, 0xE4868493, 0xA3BF7454)
  {
    assert Round(Regs(0x67452301, 0xEFCDAB89, 0x98BADCFE, 0x10325476, 0xC3D2E1F0), 0x57575757, 0) == Regs(0xF70BF00A, 0x67452301, 0x7BF36AE2, 0x98BADCFE, 0x10325476);
    assert Compress(IV, w, 1) == Regs(0xF70BF00A, 0x67452301, 0x7BF36AE2, 0x98BADCFE, 0x10325476);
    assert Round(Regs(0xF70BF00A, 0x67452301, 0x7BF36AE2, 0x98BADCFE, 0x10325476), 0x57575757, 1) == Regs(0x9F8625C2, 0xF70BF00A, 0x59D148C0, 0x7BF36AE2, 0x98BADCFE);
    assert Compress(IV, w, 2) == Regs(0x9F8625C2, 0xF70BF00A, 0x59D148C0, 0x7BF36AE2, 0x98BADCFE);
    assert Round(Regs(0x9F8625C2, 0xF70BF00A, 0x59D148C0, 0x7BF36AE2, 0x98BADCFE), 0x57575757, 2) == Regs(0x954AB121, 0x9F8625C2, 0xBDC2FC02, 0x59D148C0, 0x7BF36AE2);
    assert Compress(IV, w, 3) == Regs(0x954AB121, 0x9F8625C2, 0xBDC2FC02, 0x59D148C0, 0x7BF36AE2);
    assert Round(Regs(0x954AB121, 0x9F8625C2, 0xBDC2FC02, 0x59D148C0, 0x7BF36AE2), 0x57575757, 3) == Regs(0xB4F6CC06, 0x954AB121, 0xA7E18970, 0xBDC2FC02, 0x59D148C0);
    assert Compress(IV, w, 4) == Regs(0xB4F6CC06, 0x954AB121, 0xA7E18970, 0xBDC2FC02, 0x59D148C0);
    assert Round(Regs(0xB4F6CC06, 0x954AB121, 0xA7E18970, 0xBDC2FC02, 0x59D148C0), 0x57575757, 4) == Regs(0x584567A8, 0xB4F6CC06, 0x6552AC48, 0xA7E18970, 0xBDC2FC02);
    assert Compress(IV, w, 5) == Regs(0x584567A8, 0xB4F6CC06, 0x6552AC48, 0xA7E18970, 0xBDC2FC02);
    assert Round(Regs(0x584567A8, 0xB4F6CC06, 0x6552AC48, 0xA7E18970, 0xBDC2FC02), 0x5C5C5C5C, 5) == Regs(0xA4A25472, 0x584567A8, 0xAD3DB301, 0x6552AC48, 0xA7E18970);
    assert Compress(IV, w, 6) == Regs(0xA4A25472, 0x584567A8, 0xAD3DB301, 0x6552AC48, 0xA7E18970);
    assert Round(Regs(0xA4A25472, 0x584567A8, 0xAD3DB301, 0x6552AC48, 0xA7E18970), 0x5C5C5C5C, 6) == Regs(0x202298F9, 0xA4A25472, 0x161159EA, 0xAD3DB301, 0x6552AC48);
    assert Compress(IV, w, 7) == Regs(0x202298F9, 0xA4A25472, 0x161159EA, 0xAD3DB301, 0x6552AC48);
    assert Round(Regs(0x202298F9, 0xA4A25472, 0x161159EA, 0xAD3DB301, 0x6552AC48), 0x5C5C5C5C, 7) == Regs(0x2DA294C4, 0x202298F9, 0xA928951C, 0x161159EA, 0xAD3DB301);
    assert Compress(IV, w, 8) == Regs(0x2DA294C4, 0x202298F9, 0xA928951C, 0x161159EA, 0xAD3DB301);
    assert Round(Regs(0x2DA294C4, 0x202298F9, 0xA928951C, 0x161159EA, 0xAD3DB301), 0x5C5C5C5C, 8) == Regs(0x4EA0F295, 0x2DA294C4, 0x4808A63E, 0xA928951C, 0x161159EA);
    assert Compress(IV, w, 9) == Regs(0x4EA0F295, 0x2DA294C4, 0x4808A63E, 0xA928951C, 0x161159EA);
    assert Round(Regs(0x4EA0F295, 0x2DA294C4, 0x4808A63E, 0xA928951C, 0x161159EA), 0x5C5C5C5C, 9) == Regs(0x291707A4, 0x4EA0F295, 0x0B68A531, 0x4808A63E, 0xA928951C);
    assert Compress(IV, w, 10) == Regs(0x291707A4, 0x4EA0F295, 0x0B68A531, 0x4808A63E, 0xA928951C);
    assert Round(Regs(0x291707A4, 0x4EA0F295, 0x0B68A531, 0x4808A63E, 0xA928951C), 0x5C5C5C5C, 10) == Regs(0x8D1103D1, 0x291707A4, 0x53A83CA5, 0x0B68A531, 0x4808A63E);
    assert Compress(IV, w, 11) == Regs(0x8D1103D1, 0x291707A4, 0x53A83CA5, 0x0B68A531, 0x4808A63E);
    assert Round(Regs(0x8D1103D1, 0x291707A4, 0x53A83CA5, 0x0B68A531, 0x4808A63E), 0x5C5C5C5C, 11) == Regs(0xA4709B19, 0x8D1103D1, 0x0A45C1E9, 0x53A83CA5, 0x0B68A531);
    assert Compress(IV, w, 12) == Regs(0xA4709B19, 0x8D1103D1, 0x0A45C1E9, 0x53A83CA5, 0x0B68A531);
    assert Round(Regs(0xA4709B19, 0x8D1103D1, 0x0A45C1E9, 0x53A83CA5, 0x0B68A531), 0x5C5C5C5C, 12) == Regs(0xAB041C3F, 0xA4709B19, 0x634440F4, 0x0A45C1E9, 0x53A83CA5);
    assert Compress(IV, w, 13) == Regs(0xAB041C3F, 0xA4709B19, 0x634440F4, 0x0A45C1E9, 0x53A83CA5);
    assert Round(Regs(0xAB041C3F, 0xA4709B19, 0x634440F4, 0x0A45C1E9, 0x53A83CA5), 0x5C5C5C5C, 13) == Regs(0x954FDB7F, 0xAB041C3F, 0x691C26C6, 0x634440F4, 0x0A45C1E9);
    assert Compress(IV, w, 14) == Regs(0x954FDB7F, 0xAB041C3F, 0x691C26C6, 0x634440F4, 0x0A45C1E9);
    assert Round(Regs(0x954FDB7F, 0xAB041C3F, 0x691C26C6, 0x634440F4, 0x0A45C1E9), 0x5C5C5C5C, 14) == Regs(0xD4644C96, 0x954FDB7F, 0xEAC1070F, 0x691C26C6, 0x634440F4);
    assert Compress(IV, w, 15) == Regs(0xD4644C96, 0x954FDB7F, 0xEAC1070F, 0x691C26C6, 0x634440F4);
    assert Round(Regs(0xD4644C96, 0x954FDB7F, 0xEAC1070F, 0x691C26C6, 0x634440F4), 0x5C5C5C5C, 15) == Regs(0x8EFDD152, 0xD4644C96, 0xE553F6DF, 0xEAC1070F, 0x691C26C6);
    assert Compress(IV, w, 16) == Regs(0x8EFDD152, 0xD4644C96, 0xE553F6DF, 0xEAC1070F, 0x691C26C6);
    assert Round(Regs(0x8EFDD152, 0xD4644C96, 0xE553F6DF, 0xEAC1070F, 0x691C26C6), 0x00000000, 16) == Regs(0x921A124F, 0x8EFDD152, 0xB5191325, 0xE553F6DF, 0xEAC1070F);
    assert Compress(IV, w, 17) == Regs(0x921A124F, 0x8EFDD152, 0xB5191325, 0xE553F6DF, 0xEAC1070F);
    assert Round(Regs(0x921A124F, 0x8EFDD152, 0xB5191325, 0xE553F6DF, 0xEAC1070F), 0x00000000, 17) == Regs(0x6DA10227, 0x921A124F, 0xA3BF7454, 0xB5191325, 0xE553F6DF);
    assert Compress(IV, w, 18) == Regs(0x6DA10227, 0x921A124F, 0xA3BF7454, 0xB5191325, 0xE553F6DF);
    assert Round(Regs(0x6DA10227, 0x921A124F, 0xA3BF7454, 0xB5191325, 0xE553F6DF), 0x00000000, 18) == Regs(0x9B11C6C9, 0x6DA10227, 0xE4868493, 0xA3BF7454, 0xB5191325);
    assert Compress(IV, w, 19) == Regs(0x9B11C6C9, 0x6DA10227, 0xE4868493, 0xA3BF7454, 0xB5191325);
    assert Round(Regs(0x9B11C6C9, 0x6DA10227, 0xE4868493, 0xA3BF7454, 0xB5191325), 0xAEAEAEAE, 19) == Regs(0x072188F2, 0x9B11C6C9, 0xDB684089, 0xE4868493, 0xA3BF7454);
    assert Compress(IV, w, 20) == Regs(0x072188F2, 0x9B11C6C9, 0xDB684089, 0xE4868493, 0xA3BF7454);
  }

  lemma HiThereOuter0Rounds1(w: seq<word>)
    requires |w| == 80
    requires w[20] == 0xAEAEAEAE && w[21] == 0xB8B8B8B8 && w[22] == 0xE5E5E5E5 && w[23] == 0xE5E5E5E5 &&
      w[24] == 0x71717171 && w[25] == 0xCBCBCBCB && w[26] == 0xCBCBCBCB && w[27] == 0xBFBFBFBF &&
      w[28] == 0xCACACACA && w[29] == 0xE6E6E6E6 && w[30] == 0x0C0C0C0C && w[31] == 0xE6E6E6E6 &&
      w[32] == 0x2F2F2F2F && w[33] == 0xD2D2D2D2 && w[34] == 0x07070707 && w[35] == 0x0D0D0D0D &&
      w[36] == 0xA6A6A6A6 && w[37] == 0x79797979 && w[38] == 0x2B2B2B2B && w[39] == 0xDCDCDCDC
    requires Compress(IV, w, 20) == Regs(0x072188F2, 0x9B11C6C9, 0xDB684089, 0xE4868493, 0xA3BF7454)
    ensures Compress(IV, w, 40) == Regs(0x8688E802, 0x471CD067, 0xA7CFD43E, 0x9A87A9D7, 0x47D1FAA8)
  {
    assert Round(Regs(0x072188F2, 0x9B11C6C9, 0xDB684089, 0xE4868493, 0xA3BF7454), 0xAEAEAEAE, 20) == Regs(0x4A782FB6, 0x072188F2, 0x66C471B2, 0xDB684089, 0xE4868493);
    assert Compress(IV, w, 21) == Regs(0x4A782FB6, 0x072188F2, 0x66C471B2, 0xDB684089, 0xE4868493);
    assert Round(Regs(0x4A782FB6, 0x072188F2, 0x66C471B2, 0xDB684089, 0xE4868493), 0xB8B8B8B8, 21) == Regs(0x15ACD97E, 0x4A782FB6, 0x81C8623C, 0x66C471B2, 0xDB684089);
    assert Compress(IV, w, 22) == Regs(0x15ACD97E, 0x4A782FB6, 0x81C8623C, 0x66C471B2, 0xDB684089);
    assert Round(Regs(0x15ACD97E, 0x4A782FB6, 0x81C8623C, 0x66C471B2, 0xDB684089), 0xE5E5E5E5, 22) == Regs(0x93377E09, 0x15ACD97E, 0x929E0BED, 0x81C8623C, 0x66C471B2);
    assert Compress(IV, w, 23) == Regs(0x93377E09, 0x15ACD97E, 0x929E0BED, 0x81C8623C, 0x66C471B2);
    assert Round(Regs(0x93377E09, 0x15ACD97E, 0x929E0BED, 0x81C8623C, 0x66C471B2), 0xE5E5E5E5, 23) == Regs(0x296EB519, 0x93377E09, 0x856B365F, 0x929E0BED, 0x81C8623C);
    assert Compress(IV, w, 24) == Regs(0x296EB519, 0x93377E09, 0x856B365F, 0x929E0BED, 0x81C8623C);
    assert Round(Regs(0x296EB519, 0x93377E09, 0x856B365F, 0x929E0BED, 0x81C8623C), 0x71717171, 24) == Regs(0x14ACA62E, 0x296EB519, 0x64CDDF82, 0x856B365F, 0x929E0BED);
    assert Compress(IV, w, 25) == Regs(0x14ACA62E, 0x296EB519, 0x64CDDF82, 0x856B365F, 0x929E0BED);
    assert Round(Regs(0x14ACA62E, 0x296EB519, 0x64CDDF82, 0x856B365F, 0x929E0BED), 0xCBCBCBCB, 25) == Regs(0x2BA0E5DF, 0x14ACA62E, 0x4A5BAD46, 0x64CDDF82, 0x856B365F);
    assert Compress(IV, w, 26) == Regs(0x2BA0E5DF, 0x14ACA62E, 0x4A5BAD46, 0x64CDDF82, 0x856B365F);
    assert Round(Regs(0x2BA0E5DF, 0x14ACA62E, 0x4A5BAD46, 0x64CDDF82, 0x856B365F), 0xCBCBCBCB, 26) == Regs(0x6E687E9A, 0x2BA0E5DF, 0x852B298B, 0x4A5BAD46, 0x64CDDF82);
    assert Compress(IV, w, 27) == Regs(0x6E687E9A, 0x2BA0E5DF, 0x852B298B, 0x4A5BAD46, 0x64CDDF82);
    assert Round(Regs(0x6E687E9A, 0x2BA0E5DF, 0x852B298B, 0x4A5BAD46, 0x64CDDF82), 0xBFBFBFBF, 27) == Regs(0x4547BF41, 0x6E687E9A, 0xCAE83977, 0x852B298B, 0x4A5BAD46);
    assert Compress(IV, w, 28) == Regs(0x4547BF41, 0x6E687E9A, 0xCAE83977, 0x852B298B, 0x4A5BAD46);
    assert Round(Regs(0x4547BF41, 0x6E687E9A, 0xCAE83977, 0x852B298B, 0x4A5BAD46), 0xCACACACA, 28) == Regs(0x4EA3BA3F, 0x4547BF41, 0x9B9A1FA6, 0xCAE83977, 0x852B298B);
    assert Compress(IV, w, 29) == Regs(0x4EA3BA3F, 0x4547BF41, 0x9B9A1FA6, 0xCAE83977, 0x852B298B);
    assert Round(Regs(0x4EA3BA3F, 0x4547BF41, 0x9B9A1FA6, 0xCAE83977, 0x852B298B), 0xE6E6E6E6, 29) == Regs(0xC398DD8B, 0x4EA3BA3F, 0x5151EFD0, 0x9B9A1FA6, 0xCAE83977);
    assert Compress(IV, w, 30) == Regs(0xC398DD8B, 0x4EA3BA3F, 0x5151EFD0, 0x9B9A1FA6, 0xCAE83977);
    assert Round(Regs(0xC398DD8B, 0x4EA3BA3F, 0x5151EFD0, 0x9B9A1FA6, 0xCAE83977), 0x0C0C0C0C, 30) == Regs(0x3D522CE5, 0xC398DD8B, 0xD3A8EE8F, 0x5151EFD0, 0x9B9A1FA6);
    assert Compress(IV, w, 31) == Regs(0x3D522CE5, 0xC398DD8B, 0xD3A8EE8F, 0x5151EFD0, 0x9B9A1FA6);
    assert Round(Regs(0x3D522CE5, 0xC398DD8B, 0xD3A8EE8F, 0x5151EFD0, 0x9B9A1FA6), 0xE6E6E6E6, 31) == Regs(0xDD026BA8, 0x3D522CE5, 0xF0E63762, 0xD3A8EE8F, 0x5151EFD0);
    assert Compress(IV, w, 32) == Regs(0xDD026BA8, 0x3D522CE5, 0xF0E63762, 0xD3A8EE8F, 0x5151EFD0);
    assert Round(Regs(0xDD026BA8, 0x3D522CE5, 0xF0E63762, 0xD3A8EE8F, 0x5151EFD0), 0x2F2F2F2F, 32) == Regs(0xADC574C3, 0xDD026BA8, 0x4F548B39, 0xF0E63762, 0xD3A8EE8F);
    assert Compress(IV, w, 33) == Regs(0xADC574C3, 0xDD026BA8, 0x4F548B39, 0xF0E63762, 0xD3A8EE8F);
    assert Round(Regs(0xADC574C3, 0xDD026BA8, 0x4F548B39, 0xF0E63762, 0xD3A8EE8F), 0xD2D2D2D2, 33) == Regs(0x30B51D6A, 0xADC574C3, 0x37409AEA, 0x4F548B39, 0xF0E63762);
    assert Compress(IV, w, 34) == Regs(0x30B51D6A, 0xADC574C3, 0x37409AEA, 0x4F548B39, 0xF0E63762);
    assert Round(Regs(0x30B51D6A, 0xADC574C3, 0x37409AEA, 0x4F548B39, 0xF0E63762), 0x07070707, 34) == Regs(0x533C3C60, 0x30B51D6A, 0xEB715D30, 0x37409AEA, 0x4F548B39);
    assert Compress(IV, w, 35) == Regs(0x533C3C60, 0x30B51D6A, 0xEB715D30, 0x37409AEA, 0x4F548B39);
    assert Round(Regs(0x533C3C60, 0x30B51D6A, 0xEB715D30, 0x37409AEA, 0x4F548B39), 0x0D0D0D0D, 35) == Regs(0x1F47EAA1, 0x533C3C60, 0x8C2D475A, 0xEB715D30, 0x37409AEA);
    assert Compress(IV, w, 36) == Regs(0x1F47EAA1, 0x533C3C60, 0x8C2D475A, 0xEB715D30, 0x37409AEA);
    assert Round(Regs(0x1F47EAA1, 0x533C3C60, 0x8C2D475A, 0xEB715D30, 0x37409AEA), 0xA6A6A6A6, 36) == Regs(0x6A1EA75E, 0x1F47EAA1, 0x14CF0F18, 0x8C2D475A, 0xEB715D30);
    assert Compress(IV, w, 37) == Regs(0x6A1EA75E, 0x1F47EAA1, 0x14CF0F18, 0x8C2D475A, 0xEB715D30);
    assert Round(Regs(0x6A1EA75E, 0x1F47EAA1, 0x14CF0F18, 0x8C2D475A, 0xEB715D30), 0x79797979, 37) == Regs(0x9F3F50FA, 0x6A1EA75E, 0x47D1FAA8, 0x14CF0F18, 0x8C2D475A);
    assert Compress(IV, w, 38) == Regs(0x9F3F50FA, 0x6A1EA75E, 0x47D1FAA8, 0x14CF0F18, 0x8C2D475A);
    assert Round(Regs(0x9F3F50FA, 0x6A1EA75E, 0x47D1FAA8, 0x14CF0F18, 0x8C2D475A), 0x2B2B2B2B, 38) == Regs(0x471CD067, 0x9F3F50FA, 0x9A87A9D7, 0x47D1FAA8, 0x14CF0F18);
    assert Compress(IV, w, 39) == Regs(0x471CD067, 0x9F3F50FA, 0x9A87A9D7, 0x47D1FAA8, 0x14CF0F18);
    assert Round(Regs(0x471CD067, 0x9F3F50FA, 0x9A87A9D7, 0x47D1FAA8, 0x14CF0F18), 0xDCDCDCDC, 39) == Regs(0x8688E802, 0x471CD067, 0xA7CFD43E, 0x9A87A9D7, 0x47D1FAA8);
    assert Compress(IV, w, 40) == Regs(0x8688E802, 0x471CD067, 0xA7CFD43E, 0x9A87A9D7, 0x47D1FAA8);
  }

  lemma HiThereOuter0Rounds2(w: seq<word>)
    requires |w| == 80
    requires w[40] == 0xD9D9D9D9 && w[41] == 0x1B1B1B1B && w[42] == 0xB5B5B5B5 && w[43] == 0x1B1B1B1B &&
      w[44] == 0xF6F6F6F6 && w[45] == 0x99999999 && w[46] == 0x26262626 && w[47] == 0x3C3C3C3C &&
      w[48] == 0xD0D0D0D0 && w[49] == 0xC5C5C5C5 && w[50] == 0x50505050 && w[51] == 0x7F7F7F7F &&
      w[52] == 0x7D7D7D7D && w[53] == 0xD8D8D8D8 && w[54] == 0x57575757 && w[55] == 0x0D0D0D0D &&
      w[56] == 0xC8C8C8C8 && w[57] == 0x25252525 && w[58] == 0x3C3C3C3C && w[59] == 0x6A6A6A6A
    requires Compress(IV, w, 40) == Regs(0x8688E802, 0x471CD067, 0xA7CFD43E, 0x9A87A9D7, 0x47D1FAA8)
    ensures Compress(IV, w, 60) == Regs(0xE8B5D054, 0xF83A29C9, 0xB8D75D65, 0x8FDF8D5E, 0x624F5D9A)
  {
    assert Round(Regs(0x8688E802, 0x471CD067, 0xA7CFD43E, 0x9A87A9D7, 0x47D1FAA8), 0xD9D9D9D9, 40) == Regs(0x09746224, 0x8688E802, 0xD1C73419, 0xA7CFD43E, 0x9A87A9D7);
    assert Compress(IV, w, 41) == Regs(0x09746224, 0x8688E802, 0xD1C73419, 0xA7CFD43E, 0x9A87A9D7);
    assert Round(Regs(0x09746224, 0x8688E802, 0xD1C73419, 0xA7CFD43E, 0x9A87A9D7), 0x1B1B1B1B, 41) == Regs(0xFB1ABA69, 0x09746224, 0xA1A23A00, 0xD1C73419, 0xA7CFD43E);
    assert Compress(IV, w, 42) == Regs(0xFB1ABA69, 0x09746224, 0xA1A23A00, 0xD1C73419, 0xA7CFD43E);
    assert Round(Regs(0xFB1ABA69, 0x09746224, 0xA1A23A00, 0xD1C73419, 0xA7CFD43E), 0xB5B5B5B5, 42) == Regs(0xD1DEC60E, 0xFB1ABA69, 0x025D1889, 0xA1A23A00, 0xD1C73419);
    assert Compress(IV, w, 43) == Regs(0xD1DEC60E, 0xFB1ABA69, 0x025D1889, 0xA1A23A00, 0xD1C73419);
    assert Round(Regs(0xD1DEC60E, 0xFB1ABA69, 0x025D1889, 0xA1A23A00, 0xD1C73419), 0x1B1B1B1B, 43) == Regs(0x5AF107F3, 0xD1DEC60E, 0x7EC6AE9A, 0x025D1889, 0xA1A23A00);
    assert Compress(IV, w, 44) == Regs(0x5AF107F3, 0xD1DEC60E, 0x7EC6AE9A, 0x025D1889, 0xA1A23A00);
    assert Round(Regs(0x5AF107F3, 0xD1DEC60E, 0x7EC6AE9A, 0x025D1889, 0xA1A23A00), 0xF6F6F6F6, 44) == Regs(0xD8B47AC7, 0x5AF107F3, 0xB477B183, 0x7EC6AE9A, 0x025D1889);
    assert Compress(IV, w, 45) == Regs(0xD8B47AC7, 0x5AF107F3, 0xB477B183, 0x7EC6AE9A, 0x025D1889);
    assert Round(Regs(0xD8B47AC7, 0x5AF107F3, 0xB477B183, 0x7EC6AE9A, 0x025D1889), 0x99999999, 45) == Regs(0xC0996F8C, 0xD8B47AC7, 0xD6BC41FC, 0xB477B183, 0x7EC6AE9A);
    assert Compress(IV, w, 46) == Regs(0xC0996F8C, 0xD8B47AC7, 0xD6BC41FC, 0xB477B183, 0x7EC6AE9A);
    assert Round(Regs(0xC0996F8C, 0xD8B47AC7, 0xD6BC41FC, 0xB477B183, 0x7EC6AE9A), 0x26262626, 46) == Regs(0x1BEAF4FB, 0xC0996F8C, 0xF62D1EB1, 0xD6BC41FC, 0xB477B183);
    assert Compress(IV, w, 47) == Regs(0x1BEAF4FB, 0xC0996F8C, 0xF62D1EB1, 0xD6BC41FC, 0xB477B183);
    assert Round(Regs(0x1BEAF4FB, 0xC0996F8C, 0xF62D1EB1, 0xD6BC41FC, 0xB477B183), 0x3C3C3C3C, 47) == Regs(0xD3EB99BA, 0x1BEAF4FB, 0x30265BE3, 0xF62D1EB1, 0xD6BC41FC);
    assert Compress(IV, w, 48) == Regs(0xD3EB99BA, 0x1BEAF4FB, 0x30265BE3, 0xF62D1EB1, 0xD6BC41FC);
    assert Round(Regs(0xD3EB99BA, 0x1BEAF4FB, 0x30265BE3, 0xF62D1EB1, 0xD6BC41FC), 0xD0D0D0D0, 48) == Regs(0xE64A65F5, 0xD3EB99BA, 0xC6FABD3E, 0x30265BE3, 0xF62D1EB1);
    assert Compress(IV, w, 49) == Regs(0xE64A65F5, 0xD3EB99BA, 0xC6FABD3E, 0x30265BE3, 0xF62D1EB1);
    assert Round(Regs(0xE64A65F5, 0xD3EB99BA, 0xC6FABD3E, 0x30265BE3, 0xF62D1EB1), 0xC5C5C5C5, 49) == Regs(0xE745F9C8, 0xE64A65F5, 0xB4FAE66E, 0xC6FABD3E, 0x30265BE3);
    assert Compress(IV, w, 50) == Regs(0xE745F9C8, 0xE64A65F5, 0xB4FAE66E, 0xC6FABD3E, 0x30265BE3);
    assert Round(Regs(0xE745F9C8, 0xE64A65F5, 0xB4FAE66E, 0xC6FABD3E, 0x30265BE3), 0x50505050, 50) == Regs(0xDF4C87A9, 0xE745F9C8, 0x7992997D, 0xB4FAE66E, 0xC6FABD3E);
    assert Compress(IV, w, 51) == Regs(0xDF4C87A9, 0xE745F9C8, 0x7992997D, 0xB4FAE66E, 0xC6FABD3E);
    assert Round(Regs(0xDF4C87A9, 0xE745F9C8, 0x7992997D, 0xB4FAE66E, 0xC6FABD3E), 0x7F7F7F7F, 51) == Regs(0xB4F9E840, 0xDF4C87A9, 0x39D17E72, 0x7992997D, 0xB4FAE66E);
    assert Compress(IV, w, 52) == Regs(0xB4F9E840, 0xDF4C87A9, 0x39D17E72, 0x7992997D, 0xB4FAE66E);
    assert Round(Regs(0xB4F9E840, 0xDF4C87A9, 0x39D17E72, 0x7992997D, 0xB4FAE66E), 0x7D7D7D7D, 52) == Regs(0xDAA1C856, 0xB4F9E840, 0x77D321EA, 0x39D17E72, 0x7992997D);
    assert Compress(IV, w, 53) == Regs(0xDAA1C856, 0xB4F9E840, 0x77D321EA, 0x39D17E72, 0x7992997D);
    assert Round(Regs(0xDAA1C856, 0xB4F9E840, 0x77D321EA, 0x39D17E72, 0x7992997D), 0xD8D8D8D8, 53) == Regs(0x6B91A26E, 0xDAA1C856, 0x2D3E7A10, 0x77D321EA, 0x39D17E72);
    assert Compress(IV, w, 54) == Regs(0x6B91A26E, 0xDAA1C856, 0x2D3E7A10, 0x77D321EA, 0x39D17E72);
    assert Round(Regs(0x6B91A26E, 0xDAA1C856, 0x2D3E7A10, 0x77D321EA, 0x39D17E72), 0x57575757, 54) == Regs(0x122C48C4, 0x6B91A26E, 0xB6A87215, 0x2D3E7A10, 0x77D321EA);
    assert Compress(IV, w, 55) == Regs(0x122C48C4, 0x6B91A26E, 0xB6A87215, 0x2D3E7A10, 0x77D321EA);
    assert Round(Regs(0x122C48C4, 0x6B91A26E, 0xB6A87215, 0x2D3E7A10, 0x77D321EA), 0x0D0D0D0D, 55) == Regs(0x893D7669, 0x122C48C4, 0x9AE4689B, 0xB6A87215, 0x2D3E7A10);
    assert Compress(IV, w, 56) == Regs(0x893D7669, 0x122C48C4, 0x9AE4689B, 0xB6A87215, 0x2D3E7A10);
    assert Round(Regs(0x893D7669, 0x122C48C4, 0x9AE4689B, 0xB6A87215, 0x2D3E7A10), 0xC8C8C8C8, 56) == Regs(0x3F7E357A, 0x893D7669, 0x048B1231, 0x9AE4689B, 0xB6A87215);
    assert Compress(IV, w, 57) == Regs(0x3F7E357A, 0x893D7669, 0x048B1231, 0x9AE4689B, 0xB6A87215);
    assert Round(Regs(0x3F7E357A, 0x893D7669, 0x048B1231, 0x9AE4689B, 0xB6A87215), 0x25252525, 57) == Regs(0xE35D7596, 0x3F7E357A, 0x624F5D9A, 0x048B1231, 0x9AE4689B);
    assert Compress(IV, w, 58) == Regs(0xE35D7596, 0x3F7E357A, 0x624F5D9A, 0x048B1231, 0x9AE4689B);
    assert Round(Regs(0xE35D7596, 0x3F7E357A, 0x624F5D9A, 0x048B1231, 0x9AE4689B), 0x3C3C3C3C, 58) == Regs(0xF83A29C9, 0xE35D7596, 0x8FDF8D5E, 0x624F5D9A, 0x048B1231);
    assert Compress(IV, w, 59) == Regs(0xF83A29C9, 0xE35D7596, 0x8FDF8D5E, 0x624F5D9A, 0x048B1231);
    assert Round(Regs(0xF83A29C9, 0xE35D7596, 0x8FDF8D5E, 0x624F5D9A, 0x048B1231), 0x6A6A6A6A, 59) == Regs(0xE8B5D054, 0xF83A29C9, 0xB8D75D65, 0x8FDF8D5E, 0x624F5D9A);
    assert Compress(IV, w, 60) == Regs(0xE8B5D054, 0xF83A29C9, 0xB8D75D65, 0x8FDF8D5E, 0x624F5D9A);
  }

  lemma HiThereOuter0Rounds3(w: seq<word>)
    requires |w| == 80
    requires w[60] == 0x11111111 && w[61] == 0x82828282 && w[62] == 0x97979797 && w[63] == 0xCBCBCBCB &&
      w[64] == 0x95959595 && w[65] == 0x10101010 && w[66] == 0xB5B5B5B5 && w[67] == 0xB0B0B0B0 &&
      w[68] == 0x56565656 && w[69] == 0xC5C5C5C5 && w[70] == 0x71717171 && w[71] == 0x6B6B6B6B &&
      w[72] == 0x49494949 && w[73] == 0x5C5C5C5C && w[74] == 0xE7E7E7E7 && w[75] == 0x22222222 &&
      w[76] == 0x19191919 && w[77] == 0xD6D6D6D6 && w[78] == 0xA2A2A2A2 && w[79] == 0x53535353
    requires Compress(IV, w, 60) == Regs(0xE8B5D054, 0xF83A29C9, 0xB8D75D65, 0x8FDF8D5E, 0x624F5D9A)
    ensures Compress(IV, w, 80) == Regs(0x6EE5A9CB, 0x8E9CED2A, 0x46467E04, 0xC8536F6A, 0xD7FEA2DB)
  {
    assert Round(Regs(0xE8B5D054, 0xF83A29C9, 0xB8D75D65, 0x8FDF8D5E, 0x624F5D9A), 0x11111111, 60) == Regs(0x23B03510, 0xE8B5D054, 0x7E0E8A72, 0xB8D75D65, 0x8FDF8D5E);
    assert Compress(IV, w, 61) == Regs(0x23B03510, 0xE8B5D054, 0x7E0E8A72, 0xB8D75D65, 0x8FDF8D5E);
    assert Round(Regs(0x23B03510, 0xE8B5D054, 0x7E0E8A72, 0xB8D75D65, 0x8FDF8D5E), 0x82828282, 61) == Regs(0x81377AFD, 0x23B03510, 0x3A2D7415, 0x7E0E8A72, 0xB8D75D65);
    assert Compress(IV, w, 62) == Regs(0x81377AFD, 0x23B03510, 0x3A2D7415, 0x7E0E8A72, 0xB8D75D65);
    assert Round(Regs(0x81377AFD, 0x23B03510, 0x3A2D7415, 0x7E0E8A72, 0xB8D75D65), 0x97979797, 62) == Regs(0xA954E1F9, 0x81377AFD, 0x08EC0D44, 0x3A2D7415, 0x7E0E8A72);
    assert Compress(IV, w, 63) == Regs(0xA954E1F9, 0x81377AFD, 0x08EC0D44, 0x3A2D7415, 0x7E0E8A72);
    assert Round(Regs(0xA954E1F9, 0x81377AFD, 0x08EC0D44, 0x3A2D7415, 0x7E0E8A72), 0xCBCBCBCB, 63) == Regs(0xF2CF5AF4, 0xA954E1F9, 0x604DDEBF, 0x08EC0D44, 0x3A2D7415);
    assert Compress(IV, w, 64) == Regs(0xF2CF5AF4, 0xA954E1F9, 0x604DDEBF, 0x08EC0D44, 0x3A2D7415);
    assert Round(Regs(0xF2CF5AF4, 0xA954E1F9, 0x604DDEBF, 0x08EC0D44, 0x3A2D7415), 0x95959595, 64) == Regs(0xB6065C20, 0xF2CF5AF4, 0x6A55387E, 0x604DDEBF, 0x08EC0D44);
    assert Compress(IV, w, 65) == Regs(0xB6065C20, 0xF2CF5AF4, 0x6A55387E, 0x604DDEBF, 0x08EC0D44);
    assert Round(Regs(0xB6065C20, 0xF2CF5AF4, 0x6A55387E, 0x604DDEBF, 0x08EC0D44), 0x10101010, 65) == Regs(0x9D021F75, 0xB6065C20, 0x3CB3D6BD, 0x6A55387E, 0x604DDEBF);
    assert Compress(IV, w, 66) == Regs(0x9D021F75, 0xB6065C20, 0x3CB3D6BD, 0x6A55387E, 0x604DDEBF);
    assert Round(Regs(0x9D021F75, 0xB6065C20, 0x3CB3D6BD, 0x6A55387E, 0x604DDEBF), 0xB5B5B5B5, 66) == Regs(0x618AF7E0, 0x9D021F75, 0x2D819708, 0x3CB3D6BD, 0x6A55387E);
    assert Compress(IV, w, 67) == Regs(0x618AF7E0, 0x9D021F75, 0x2D819708, 0x3CB3D6BD, 0x6A55387E);
    assert Round(Regs(0x618AF7E0, 0x9D021F75, 0x2D819708, 0x3CB3D6BD, 0x6A55387E), 0xB0B0B0B0, 67) == Regs(0xA2F805D0, 0x618AF7E0, 0x674087DD, 0x2D819708, 0x3CB3D6BD);
    assert Compress(IV, w, 68) == Regs(0xA2F805D0, 0x618AF7E0, 0x674087DD, 0x2D819708, 0x3CB3D6BD);
    assert Round(Regs(0xA2F805D0, 0x618AF7E0, 0x674087DD, 0x2D819708, 0x3CB3D6BD), 0x56565656, 68) == Regs(0xE7B99032, 0xA2F805D0, 0x1862BDF8, 0x674087DD, 0x2D819708);
    assert Compress(IV, w, 69) == Regs(0xE7B99032, 0xA2F805D0, 0x1862BDF8, 0x674087DD, 0x2D819708);
    assert Round(Regs(0xE7B99032, 0xA2F805D0, 0x1862BDF8, 0x674087DD, 0x2D819708), 0xC5C5C5C5, 69) == Regs(0x92B664F4, 0xE7B99032, 0x28BE0174, 0x1862BDF8, 0x674087DD);
    assert Compress(IV, w, 70) == Regs(0x92B664F4, 0xE7B99032, 0x28BE0174, 0x1862BDF8, 0x674087DD);
    assert Round(Regs(0x92B664F4, 0xE7B99032, 0x28BE0174, 0x1862BDF8, 0x674087DD), 0x71717171, 70) == Regs(0xD1468674, 0x92B664F4, 0xB9EE640C, 0x28BE0174, 0x1862BDF8);
    assert Compress(IV, w, 71) == Regs(0xD1468674, 0x92B664F4, 0xB9EE640C, 0x28BE0174, 0x1862BDF8);
    assert Round(Regs(0xD1468674, 0x92B664F4, 0xB9EE640C, 0x28BE0174, 0x1862BDF8), 0x6B6B6B6B, 71) == Regs(0x7AE7BB5F, 0xD1468674, 0x24AD993D, 0xB9EE640C, 0x28BE0174);
    assert Compress(IV, w, 72) == Regs(0x7AE7BB5F, 0xD1468674, 0x24AD993D, 0xB9EE640C, 0x28BE0174);
    assert Round(Regs(0x7AE7BB5F, 0xD1468674, 0x24AD993D, 0xB9EE640C, 0x28BE0174), 0x49494949, 72) == Regs(0xE566F3C7, 0x7AE7BB5F, 0x3451A19D, 0x24AD993D, 0xB9EE640C);
    assert Compress(IV, w, 73) == Regs(0xE566F3C7, 0x7AE7BB5F, 0x3451A19D, 0x24AD993D, 0xB9EE640C);
    assert Round(Regs(0xE566F3C7, 0x7AE7BB5F, 0x3451A19D, 0x24AD993D, 0xB9EE640C), 0x5C5C5C5C, 73) == Regs(0xF7A77F39, 0xE566F3C7, 0xDEB9EED7, 0x3451A19D, 0x24AD993D);
    assert Compress(IV, w, 74) == Regs(0xF7A77F39, 0xE566F3C7, 0xDEB9EED7, 0x3451A19D, 0x24AD993D);
    assert Round(Regs(0xF7A77F39, 0xE566F3C7, 0xDEB9EED7, 0x3451A19D, 0x24AD993D), 0xE7E7E7E7, 74) == Regs(0xDB76E6C5, 0xF7A77F39, 0xF959BCF1, 0xDEB9EED7, 0x3451A19D);
    assert Compress(IV, w, 75) == Regs(0xDB76E6C5, 0xF7A77F39, 0xF959BCF1, 0xDEB9EED7, 0x3451A19D);
    assert Round(Regs(0xDB76E6C5, 0xF7A77F39, 0xF959BCF1, 0xDEB9EED7, 0x3451A19D), 0x22222222, 75) == Regs(0x5FFA8B6F, 0xDB76E6C5, 0x7DE9DFCE, 0xF959BCF1, 0xDEB9EED7);
    assert Compress(IV, w, 76) == Regs(0x5FFA8B6F, 0xDB76E6C5, 0x7DE9DFCE, 0xF959BCF1, 0xDEB9EED7);
    assert Round(Regs(0x5FFA8B6F, 0xDB76E6C5, 0x7DE9DFCE, 0xF959BCF1, 0xDEB9EED7), 0x19191919, 76) == Regs(0x214DBDAB, 0x5FFA8B6F, 0x76DDB9B1, 0x7DE9DFCE, 0xF959BCF1);
    assert Compress(IV, w, 77) == Regs(0x214DBDAB, 0x5FFA8B6F, 0x76DDB9B1, 0x7DE9DFCE, 0xF959BCF1);
    assert Round(Regs(0x214DBDAB, 0x5FFA8B6F, 0x76DDB9B1, 0x7DE9DFCE, 0xF959BCF1), 0xD6D6D6D6, 77) == Regs(0x1919F811, 0x214DBDAB, 0xD7FEA2DB, 0x76DDB9B1, 0x7DE9DFCE);
    assert Compress(IV, w, 78) == Regs(0x1919F811, 0x214DBDAB, 0xD7FEA2DB, 0x76DDB9B1, 0x7DE9DFCE);
    assert Round(Regs(0x1919F811, 0x214DBDAB, 0xD7FEA2DB, 0x76DDB9B1, 0x7DE9DFCE), 0xA2A2A2A2, 78) == Regs(0x8E9CED2A, 0x1919F811, 0xC8536F6A, 0xD7FEA2DB, 0x76DDB9B1);
    assert Compress(IV, w, 79) == Regs(0x8E9CED2A, 0x1919F811, 0xC8536F6A, 0xD7FEA2DB, 0x76DDB9B1);
    assert Round(Regs(0x8E9CED2A, 0x1919F811, 0xC8536F6A, 0xD7FEA2DB, 0x76DDB9B1), 0x53535353, 79) == Regs(0x6EE5A9CB, 0x8E9CED2A, 0x46467E04, 0xC8536F6A, 0xD7FEA2DB);
    assert Compress(IV, w, 80) == Regs(0x6EE5A9CB, 0x8E9CED2A, 0x46467E04, 0xC8536F6A, 0xD7FEA2DB);
  }

  lemma HiThereOuter0Compress(words: seq<word>)
    requires |words| == 16
    requires words[0] == 0x57575757 && words[1] == 0x57575757 && words[2] == 0x57575757 && words[3] == 0x57575757 &&
      words[4] == 0x57575757 && words[5] == 0x5C5C5C5C && words[6] == 0x5C5C5C5C && words[7] == 0x5C5C5C5C &&
      words[8] == 0x5C5C5C5C && words[9] == 0x5C5C5C5C && words[10] == 0x5C5C5C5C && words[11] == 0x5C5C5C5C &&
      words[12] == 0x5C5C5C5C && words[13] == 0x5C5C5C5C && words[14] == 0x5C5C5C5C && words[15] == 0x5C5C5C5C
    ensures Compress(IV, Schedule(words), 80) == Regs(0x6EE5A9CB, 0x8E9CED2A, 0x46467E04, 0xC8536F6A, 0xD7FEA2DB)
  {
    var w := Schedule(words);
    ScheduleIsSchedule(words);
    forall j | 0 <= j < 16
      ensures w[j] == words[j]
    {
      assert w[..16][j] == w[j];
    }
    HiThereOuter0Schedule0(w);
    HiThereOuter0Schedule1(w);
    HiThereOuter0Schedule2(w);
    HiThereOuter0Schedule3(w);
    HiThereOuter0Rounds0(w);
    HiThereOuter0Rounds1(w);
    HiThereOuter0Rounds2(w);
    HiThereOuter0Rounds3(w);
  }

  lemma HiThereOuter1Schedule0(w: seq<word>)
    requires |w| == 80 && forall i :: 16 <= i < 80 ==> Follows(w, i)
    requires w[0] == 0x376637C8 && w[1] == 0x923DC595 && w[2] == 0xE41A2797 && w[3] == 0x2E995121 &&
      w[4] == 0x1D40CE98 && w[5] == 0x80000000 && w[6] == 0x00000000 && w[7] == 0x00000000 &&
      w[8] == 0x00000000 && w[9] == 0x00000000 && w[10] == 0x00000000 && w[11] == 0x00000000 &&
      w[12] == 0x00000000 && w[13] == 0x00000000 && w[14] == 0x00000000 && w[15] == 0x000002A0
    ensures w[16] == 0xA6F820BF && w[17] == 0x79492969 && w[18] == 0xF2B5D75F && w[19] == 0x10C2E33C &&
      w[20] == 0xC813CFE2 && w[21] == 0xE56BAEBE && w[22] == 0x2185C678 && w[23] == 0x90279A85 &&
      w[24] == 0x87271C02 && w[25] == 0xB199DE22 && w[26] == 0xC5249BB4 && w[27] == 0x2FCBFE7D &&
      w[28] == 0xF3142380 && w[29] == 0x409E6F54 && w[30] == 0x516C3175 && w[31] == 0x34F52598
  {
    assert Follows(w, 16);
    assert Follows(w, 17);
    assert Follows(w, 18);
    assert Follows(w, 19);
    assert Follows(w, 20);
    assert Follows(w, 21);
    assert Follows(w, 22);
    assert Follows(w, 23);
    assert Follows(w, 24);
    assert Follows(w, 25);
    assert Follows(w, 26);
    assert Follows(w, 27);
    assert Follows(w, 28);
    assert Follows(w, 29);
    assert Follows(w, 30);
    assert Follows(w, 31);
  }

  lemma HiThereOuter1Schedule1(w: seq<word>)
    requires |w| == 80 && forall i :: 16 <= i < 80 ==> Follows(w, i)
    requires w[16] == 0xA6F820BF && w[17] == 0x79492969 && w[18] == 0xF2B5D75F && w[19] == 0x10C2E33C &&
      w[20] == 0xC813CFE2 && w[21] == 0xE56BAEBE && w[22] == 0x2185C678 && w[23] == 0x90279A85 &&
      w[24] == 0x87271C02 && w[25] == 0xB199DE22 && w[26] == 0xC5249BB4 && w[27] == 0x2FCBFE7D &&
      w[28] == 0xF3142380 && w[29] == 0x409E6F54 && w[30] == 0x516C3175 && w[31] == 0x34F52598
    ensures w[32] == 0x27E9096D && w[33] == 0x12FC4A05 && w[34] == 0x96EF4D23 && w[35] == 0xFB177525 &&
      w[36] == 0x10FCC03E && w[37] == 0x467A2C99 && w[38] == 0x19B33C54 && w[39] == 0x0B6F4202 &&
      w[40] == 0x47214484 && w[41] == 0x2A3AAC1D && w[42] == 0x57616E2B && w[43] == 0xA6C74111 &&
      w[44] == 0x317CFDAD && w[45] == 0xCAE010FC && w[46] == 0x93E28ABB && w[47] == 0x3835A064
  {
    assert Follows(w, 32);
    assert Follows(w, 33);
    assert Follows(w, 34);
    assert Follows(w, 35);
    assert Follows(w, 36);
    assert Follows(w, 37);
    assert Follows(w, 38);
    assert Follows(w, 39);
    assert Follows(w, 40);
    assert Follows(w, 41);
    assert Follows(w, 42);
    assert Follows(w, 43);
    assert Follows(w, 44);
    assert Follows(w, 45);
    assert Follows(w, 46);
    assert Follows(w, 47);
  }

  lemma HiThereOuter1Schedule2(w: seq<word>)
    requires |w| == 80 && forall i :: 16 <= i < 80 ==> Follows(w, i)
    requires w[32] == 0x27E9096D && w[33] == 0x12FC4A05 && w[34] == 0x96EF4D23 && w[35] == 0xFB177525 &&
      w[36] == 0x10FCC03E && w[37] == 0x467A2C99 && w[38] == 0x19B33C54 && w[39] == 0x0B6F4202 &&
      w[40] == 0x47214484 && w[41] == 0x2A3AAC1D && w[42] == 0x57616E2B && w[43] == 0xA6C74111 &&
      w[44] == 0x317CFDAD && w[45] == 0xCAE010FC && w[46] == 0x93E28ABB && w[47] == 0x3835A064
    ensures w[48] == 0x798E206C && w[49] == 0xA066330C && w[50] == 0xD28E86A5 && w[51] == 0xC4487182 &&
      w[52] == 0x30AA6597 && w[53] == 0xAAF7F184 && w[54] == 0x127107D2 && w[55] == 0x539457D8 &&
      w[56] == 0x8673F68F && w[57] == 0x7DD5B3A4 && w[58] == 0xCE0E85F7 && w[59] == 0x5C39ADC0 &&
      w[60] == 0xDFC3424B && w[61] == 0x2C5989D7 && w[62] == 0x4848018B && w[63] == 0x28090DF6
  {
    assert Follows(w, 48);
    assert Follows(w, 49);
    assert Follows(w, 50);
    assert Follows(w, 51);
    assert Follows(w, 52);
    assert Follows(w, 53);
    assert Follows(w, 54);
    assert Follows(w, 55);
    assert Follows(w, 56);
    assert Follows(w, 57);
    assert Follows(w, 58);
    assert Follows(w, 59);
    assert Follows(w, 60);
    assert Follows(w, 61);
    assert Follows(w, 62);
    assert Follows(w, 63);
  }

  lemma HiThereOuter1Schedule3(w: seq<word>)
    requires |w| == 80 && forall i :: 16 <= i < 80 ==> Follows(w, i)
    requires w[48] == 0x798E206C && w[49] == 0xA066330C && w[50] == 0xD28E86A5 && w[51] == 0xC4487182 &&
      w[52] == 0x30AA6597 && w[53] == 0xAAF7F184 && w[54] == 0x127107D2 && w[55] == 0x539457D8 &&
      w[56] == 0x8673F68F && w[57] == 0x7DD5B3A4 && w[58] == 0xCE0E85F7 && w[59] == 0x5C39ADC0 &&
      w[60] == 0xDFC3424B && w[61] == 0x2C5989D7 && w[62] == 0x4848018B && w[63] == 0x28090DF6
    ensures w[64] == 0x0255B322 && w[65] == 0xA367E142 && w[66] == 0x0846D666 && w[67] == 0x61A73DC8 &&
      w[68] == 0xBCFF8298 && w[69] == 0xBAF9F3DB && w[70] == 0x7BDB9A3D && w[71] == 0x756ED625 &&
      w[72] == 0xE1A26703 && w[73] == 0xF2A0CA37 && w[74] == 0xD9CB8FFE && w[75] == 0xE0CAFDB9 &&
      w[76] == 0xB3A816DF && w[77] == 0xCEC5F008 && w[78] == 0xA219AA5B && w[79] == 0x9B50589C
  {
    assert Follows(w, 64);
    assert Follows(w, 65);
    assert Follows(w, 66);
    assert Follows(w, 67);
    assert Follows(w, 68);
    assert Follows(w, 69);
    assert Follows(w, 70);
    assert Follows(w, 71);
    assert Follows(w, 72);
    assert Follows(w, 73);
    assert Follows(w, 74);
    assert Follows(w, 75);
    assert Follows(w, 76);
    assert Follows(w, 77);
    assert Follows(w, 78);
    assert Follows(w, 79);
  }

  lemma HiThereOuter1Rounds0(w: seq<word>)
    requires |w| == 80
    requires w[0] == 0x376637C8 && w[1] == 0x923DC595 && w[2] == 0xE41A2797 && w[3] == 0x2E995121 &&
      w[4] == 0x1D40CE98 && w[5] == 0x80000000 && w[6] == 0x00000000 && w[7] == 0x00000000 &&
      w[8] == 0x00000000 && w[9] == 0x00000000 && w[10] == 0x00000000 && w[11] == 0x00000000 &&
      w[12] == 0x00000000 && w[13] == 0x00000000 && w[14] == 0x00000000 && w[15] == 0x000002A0 &&
      w[16] == 0xA6F820BF && w[17] == 0x79492969 && w[18] == 0xF2B5D75F && w[19] == 0x10C2E33C
    requires Compress(Regs(0xD62ACCCC, 0x7E6A98B3, 0xDF015B02, 0xD885C3E0, 0x9BD184CB), w, 0) == Regs(0xD62ACCCC, 0x7E6A98B3, 0xDF015B02, 0xD885C3E0, 0x9BD184CB)
    ensures Compress(Regs(0xD62ACCCC, 0x7E6A98B3, 0xDF015B02, 0xD885C3E0, 0x9BD184CB), w, 20) == Regs(0x87352C04, 0xB3A5F54F, 0x514BFDCB, 0xCFEB57FE, 0x057B2D8D)
  {
    assert Round(Regs(0xD62ACCCC, 0x7E6A98B3, 0xDF015B02, 0xD885C3E0, 0x9BD184CB), 0x376637C8, 0) == Regs(0xD1992B08, 0xD62ACCCC, 0xDF9AA62C, 0xDF015B02, 0xD885C3E0);
    assert Compress(Regs(0xD62ACCCC, 0x7E6A98B3, 0xDF015B02, 0xD885C3E0, 0x9BD184CB), w, 1) == Regs(0xD1992B08, 0xD62ACCCC, 0xDF9AA62C, 0xDF015B02, 0xD885C3E0);
    assert Round(Regs(0xD1992B08, 0xD62ACCCC, 0xDF9AA62C, 0xDF015B02, 0xD885C3E0), 0x923DC595, 1) == Regs(0xD776FB36, 0xD1992B08, 0x358AB333, 0xDF9AA62C, 0xDF015B02);
    assert Compress(Regs(0xD62ACCCC, 0x7E6A98B3, 0xDF015B02, 0xD885C3E0, 0x9BD184CB), w, 2) == Regs(0xD776FB36, 0xD1992B08, 0x358AB333, 0xDF9AA62C, 0xDF015B02);
    assert Round(Regs(0xD776FB36, 0xD1992B08, 0x358AB333, 0xDF9AA62C, 0xDF015B02), 0xE41A2797, 2) == Regs(0x2C080A30, 0xD776FB36, 0x34664AC2, 0x358AB333, 0xDF9AA62C);
    assert Compress(Regs(0xD62ACCCC, 0x7E6A98B3, 0xDF015B02, 0xD885C3E0, 0x9BD184CB), w, 3) == Regs(0x2C080A30, 0xD776FB36, 0x34664AC2, 0x358AB333, 0xDF9AA62C);
    assert Round(Regs(0x2C080A30, 0xD776FB36, 0x34664AC2, 0x358AB333, 0xDF9AA62C), 0x2E995121, 3) == Regs(0x1EA600EE, 0x2C080A30, 0xB5DDBECD, 0x34664AC2, 0x358AB333);
    assert Compress(Regs(0xD62ACCCC, 0x7E6A98B3, 0xDF015B02, 0xD885C3E0, 0x9BD184CB), w, 4) == Regs(0x1EA600EE, 0x2C080A30, 0xB5DDBECD, 0x34664AC2, 0x358AB333);
    assert Round(Regs(0x1EA600EE, 0x2C080A30, 0xB5DDBECD, 0x34664AC2, 0x358AB333), 0x1D40CE98, 4) == Regs(0xB67C63E9, 0x1EA600EE, 0x0B02028C, 0xB5DDBECD, 0x34664AC2);
    assert Compress(Regs(0xD62ACCCC, 0x7E6A98B3, 0xDF015B02, 0xD885C3E0, 0x9BD184CB), w, 5) == Regs(0xB67C63E9, 0x1EA600EE, 0x0B02028C, 0xB5DDBECD, 0x34664AC2);
    assert Round(Regs(0xB67C63E9, 0x1EA600EE, 0x0B02028C, 0xB5DDBECD, 0x34664AC2), 0x80000000, 5) == Regs(0x89D1001E, 0xB67C63E9, 0x87A9803B, 0x0B02028C, 0xB5DDBECD);
    assert Compress(Regs(0xD62ACCCC, 0x7E6A98B3, 0xDF015B02, 0xD885C3E0, 0x9BD184CB), w, 6) == Regs(0x89D1001E, 0xB67C63E9, 0x87A9803B, 0x0B02028C, 0xB5DDBECD);
    assert Round(Regs(0x89D1001E, 0xB67C63E9, 0x87A9803B, 0x0B02028C, 0xB5DDBECD), 0x00000000, 6) == Regs(0xD9AA3C64, 0x89D1001E, 0x6D9F18FA, 0x87A9803B, 0x0B02028C);
    assert Compress(Regs(0xD62ACCCC, 0x7E6A98B3, 0xDF015B02, 0xD885C3E0, 0x9BD184CB), w, 7) == Regs(0xD9AA3C64, 0x89D1001E, 0x6D9F18FA, 0x87A9803B, 0x0B02028C);
    assert Round(Regs(0xD9AA3C64, 0x89D1001E, 0x6D9F18FA, 0x87A9803B, 0x0B02028C), 0x00000000, 7) == Regs(0xAA8588FB, 0xD9AA3C64, 0xA2744007, 0x6D9F18FA, 0x87A9803B);
    assert Compress(Regs(0xD62ACCCC, 0x7E6A98B3, 0xDF015B02, 0xD885C3E0, 0x9BD184CB), w, 8) == Regs(0xAA8588FB, 0xD9AA3C64, 0xA2744007, 0x6D9F18FA, 0x87A9803B);
    assert Round(Regs(0xAA8588FB, 0xD9AA3C64, 0xA2744007, 0x6D9F18FA, 0x87A9803B), 0x00000000, 8) == Regs(0xD71219E7, 0xAA8588FB, 0x366A8F19, 0xA2744007, 0x6D9F18FA);
    assert Compress(Regs(0xD62ACCCC, 0x7E6A98B3, 0xDF015B02, 0xD885C3E0, 0x9BD184CB), w, 9) == Regs(0xD71219E7, 0xAA8588FB, 0x366A8F19, 0xA2744007, 0x6D9F18FA);
    assert Round(Regs(0xD71219E7, 0xAA8588FB, 0x366A8F19, 0xA2744007, 0x6D9F18FA), 0x00000000, 9) == Regs(0xCCD597AA, 0xD71219E7, 0xEAA1623E, 0x366A8F19, 0xA2744007);
    assert Compress(Regs(0xD62ACCCC, 0x7E6A98B3, 0xDF015B02, 0xD885C3E0, 0x9BD184CB), w, 10) == Regs(0xCCD597AA, 0xD71219E7, 0xEAA1623E, 0x366A8F19, 0xA2744007);
    assert Round(Regs(0xCCD597AA, 0xD71219E7, 0xEAA1623E, 0x366A8F19, 0xA2744007), 0x00000000, 10) == Regs(0x7A123537, 0xCCD597AA, 0xF5C48679, 0xEAA1623E, 0x366A8F19);
    assert Compress(Regs(0xD62ACCCC, 0x7E6A98B3, 0xDF015B02, 0xD885C3E0, 0x9BD184CB), w, 11) == Regs(0x7A123537, 0xCCD597AA, 0xF5C48679, 0xEAA1623E, 0x366A8F19);
    assert Round(Regs(0x7A123537, 0xCCD597AA, 0xF5C48679, 0xEAA1623E, 0x366A8F19), 0x00000000, 11) == Regs(0xBA1895DD, 0x7A123537, 0xB33565EA, 0xF5C48679, 0xEAA1623E);
    assert Compress(Regs(0xD62ACCCC, 0x7E6A98B3, 0xDF015B02, 0xD885C3E0, 0x9BD184CB), w, 12) == Regs(0xBA1895DD, 0x7A123537, 0xB33565EA, 0xF5C48679, 0xEAA1623E);
    assert Round(Regs(0xBA1895DD, 0x7A123537, 0xB33565EA, 0xF5C48679, 0xEAA1623E), 0x00000000, 12) == Regs(0x400B3EF8, 0xBA1895DD, 0xDE848D4D, 0xB33565EA, 0xF5C48679);
    assert Compress(Regs(0xD62ACCCC, 0x7E6A98B3, 0xDF015B02, 0xD885C3E0, 0x9BD184CB), w, 13) == Regs(0x400B3EF8, 0xBA1895DD, 0xDE848D4D, 0xB33565EA, 0xF5C48679);
    assert Round(Regs(0x400B3EF8, 0xBA1895DD, 0xDE848D4D, 0xB33565EA, 0xF5C48679), 0x00000000, 13) == Regs(0xECD4C489, 0x400B3EF8, 0x6E862577, 0xDE848D4D, 0xB33565EA);
    assert Compress(Regs(0xD62ACCCC, 0x7E6A98B3, 0xDF015B02, 0xD885C3E0, 0x9BD184CB), w, 14) == Regs(0xECD4C489, 0x400B3EF8, 0x6E862577, 0xDE848D4D, 0xB33565EA);
    assert Round(Regs(0xECD4C489, 0x400B3EF8, 0x6E862577, 0xDE848D4D, 0xB33565EA), 0x00000000, 14) == Regs(0x86D71635, 0xECD4C489, 0x1002CFBE, 0x6E862577, 0xDE848D4D);
    assert Compress(Regs(0xD62ACCCC, 0x7E6A98B3, 0xDF015B02, 0xD885C3E0, 0x9BD184CB), w, 15) == Regs(0x86D71635, 0xECD4C489, 0x1002CFBE, 0x6E862577, 0xDE848D4D);
    assert Round(Regs(0x86D71635, 0xECD4C489, 0x1002CFBE, 0x6E862577, 0xDE848D4D), 0x000002A0, 15) == Regs(0x15ECB634, 0x86D71635, 0x7B353122, 0x1002CFBE, 0x6E862577);
    assert Compress(Regs(0xD62ACCCC, 0x7E6A98B3, 0xDF015B02, 0xD885C3E0, 0x9BD184CB), w, 16) == Regs(0x15ECB634, 0x86D71635, 0x7B353122, 0x1002CFBE, 0x6E862577);
    assert Round(Regs(0x15ECB634, 0x86D71635, 0x7B353122, 0x1002CFBE, 0x6E862577), 0xA6F820BF, 16) == Regs(0x3FAD5FFB, 0x15ECB634, 0x61B5C58D, 0x7B353122, 0x1002CFBE);
    assert Compress(Regs(0xD62ACCCC, 0x7E6A98B3, 0xDF015B02, 0xD885C3E0, 0x9BD184CB), w, 17) == Regs(0x3FAD5FFB, 0x15ECB634, 0x61B5C58D, 0x7B353122, 0x1002CFBE);
    assert Round(Regs(0x3FAD5FFB, 0x15ECB634, 0x61B5C58D, 0x7B353122, 0x1002CFBE), 0x79492969, 17) == Regs(0x452FF72D, 0x3FAD5FFB, 0x057B2D8D, 0x61B5C58D, 0x7B353122);
    assert Compress(Regs(0xD62ACCCC, 0x7E6A98B3, 0xDF015B02, 0xD885C3E0, 0x9BD184CB), w, 18) == Regs(0x452FF72D, 0x3FAD5FFB, 0x057B2D8D, 0x61B5C58D, 0x7B353122);
    assert Round(Regs(0x452FF72D, 0x3FAD5FFB, 0x057B2D8D, 0x61B5C58D, 0x7B353122), 0xF2B5D75F, 18) == Regs(0xB3A5F54F, 0x452FF72D, 0xCFEB57FE, 0x057B2D8D, 0x61B5C58D);
    assert Compress(Regs(0xD62ACCCC, 0x7E6A98B3, 0xDF015B02, 0xD885C3E0, 0x9BD184CB), w, 19) == Regs(0xB3A5F54F, 0x452FF72D, 0xCFEB57FE, 0x057B2D8D, 0x61B5C58D);
    assert Round(Regs(0xB3A5F54F, 0x452FF72D, 0xCFEB57FE, 0x057B2D8D, 0x61B5C58D), 0x10C2E33C, 19) == Regs(0x87352C04, 0xB3A5F54F, 0x514BFDCB, 0xCFEB57FE, 0x057B2D8D);
    assert Compress(Regs(0xD62ACCCC, 0x7E6A98B3, 0xDF015B02, 0xD885C3E0, 0x9BD184CB), w, 20) == Regs(0x87352C04, 0xB3A5F54F, 0x514BFDCB, 0xCFEB57FE, 0x057B2D8D);
  }

  lemma HiThereOuter1Rounds1(w: seq<word>)
    requires |w| == 80
    requires w[20] == 0xC813CFE2 && w[21] == 0xE56BAEBE && w[22] == 0x2185C678 && w[23] == 0x90279A85 &&
      w[24] == 0x87271C02 && w[25] == 0xB199DE22 && w[26] == 0xC5249BB4 && w[27] == 0x2FCBFE7D &&
      w[28] == 0xF3142380 && w[29] == 0x409E6F54 && w[30] == 0x516C3175 && w[31] == 0x34F52598 &&
      w[32] == 0x27E9096D && w[33] == 0x12FC4A05 && w[34] == 0x96EF4D23 && w[35] == 0xFB177525 &&
      w[36] == 0x10FCC03E && w[37] == 0x467A2C99 && w[38] == 0x19B33C54 && w[39] == 0x0B6F4202
    requires Compress(Regs(0xD62ACCCC, 0x7E6A98B3, 0xDF015B02, 0xD885C3E0, 0x9BD184CB), w, 20) == Regs(0x87352C04, 0xB3A5F54F, 0x514BFDCB, 0xCFEB57FE, 0x057B2D8D)
    ensures Compress(Regs(0xD62ACCCC, 0x7E6A98B3, 0xDF015B02, 0xD885C3E0, 0x9BD184CB), w, 40) == Regs(0xF70A6C49, 0x03EA9870, 0x8A6622DE, 0xB1561711, 0x64580F89)
  {
    assert Round(Regs(0x87352C04, 0xB3A5F54F, 0x514BFDCB, 0xCFEB57FE, 0x057B2D8D), 0xC813CFE2, 20) == Regs(0x5013C91A, 0x87352C04, 0xECE97D53, 0x514BFDCB, 0xCFEB57FE);
    assert Compress(Regs(0xD62ACCCC, 0x7E6A98B3, 0xDF015B02, 0xD885C3E0, 0x9BD184CB), w, 21) == Regs(0x5013C91A, 0x87352C04, 0xECE97D53, 0x514BFDCB, 0xCFEB57FE);
    assert Round(Regs(0x5013C91A, 0x87352C04, 0xECE97D53, 0x514BFDCB, 0xCFEB57FE), 0xE56BAEBE, 21) == Regs(0x6141C243, 0x5013C91A, 0x21CD4B01, 0xECE97D53, 0x514BFDCB);
    assert Compress(Regs(0xD62ACCCC, 0x7E6A98B3, 0xDF015B02, 0xD885C3E0, 0x9BD184CB), w, 22) == Regs(0x6141C243, 0x5013C91A, 0x21CD4B01, 0xECE97D53, 0x514BFDCB);
    assert Round(Regs(0x6141C243, 0x5013C91A, 0x21CD4B01, 0xECE97D53, 0x514BFDCB), 0x2185C678, 22) == Regs(0xA71BF798, 0x6141C243, 0x9404F246, 0x21CD4B01, 0xECE97D53);
    assert Compress(Regs(0xD62ACCCC, 0x7E6A98B3, 0xDF015B02, 0xD885C3E0, 0x9BD184CB), w, 23) == Regs(0xA71BF798, 0x6141C243, 0x9404F246, 0x21CD4B01, 0xECE97D53);
    assert Round(Regs(0xA71BF798, 0x6141C243, 0x9404F246, 0x21CD4B01, 0xECE97D53), 0x90279A85, 23) == Regs(0xA3F27191, 0xA71BF798, 0xD8507090, 0x9404F246, 0x21CD4B01);
    assert Compress(Regs(0xD62ACCCC, 0x7E6A98B3, 0xDF015B02, 0xD885C3E0, 0x9BD184CB), w, 24) == Regs(0xA3F27191, 0xA71BF798, 0xD8507090, 0x9404F246, 0x21CD4B01);
    assert Round(Regs(0xA3F27191, 0xA71BF798, 0xD8507090, 0x9404F246, 0x21CD4B01), 0x87271C02, 24) == Regs(0x816BFA26, 0xA3F27191, 0x29C6FDE6, 0xD8507090, 0x9404F246);
    assert Compress(Regs(0xD62ACCCC, 0x7E6A98B3, 0xDF015B02, 0xD885C3E0, 0x9BD184CB), w, 25) == Regs(0x816BFA26, 0xA3F27191, 0x29C6FDE6, 0xD8507090, 0x9404F246);
    assert Round(Regs(0x816BFA26, 0xA3F27191, 0x29C6FDE6, 0xD8507090, 0x9404F246), 0xB199DE22, 25) == Regs(0x345CFDC0, 0x816BFA26, 0x68FC9C64, 0x29C6FDE6, 0xD8507090);
    assert Compress(Regs(0xD62ACCCC, 0x7E6A98B3, 0xDF015B02, 0xD885C3E0, 0x9BD184CB), w, 26) == Regs(0x345CFDC0, 0x816BFA26, 0x68FC9C64, 0x29C6FDE6, 0xD8507090);
    assert Round(Regs(0x345CFDC0, 0x816BFA26, 0x68FC9C64, 0x29C6FDE6, 0xD8507090), 0xC5249BB4, 26) == Regs(0x58404B8F, 0x345CFDC0, 0xA05AFE89, 0x68FC9C64, 0x29C6FDE6);
    assert Compress(Regs(0xD62ACCCC, 0x7E6A98B3, 0xDF015B02, 0xD885C3E0, 0x9BD184CB), w, 27) == Regs(0x58404B8F, 0x345CFDC0, 0xA05AFE89, 0x68FC9C64, 0x29C6FDE6);
    assert Round(Regs(0x58404B8F, 0x345CFDC0, 0xA05AFE89, 0x68FC9C64, 0x29C6FDE6), 0x2FCBFE7D, 27) == Regs(0xCD70F91C, 0x58404B8F, 0x0D173F70, 0xA05AFE89, 0x68FC9C64);
    assert Compress(Regs(0xD62ACCCC, 0x7E6A98B3, 0xDF015B02, 0xD885C3E0, 0x9BD184CB), w, 28) == Regs(0xCD70F91C, 0x58404B8F, 0x0D173F70, 0xA05AFE89, 0x68FC9C64);
    assert Round(Regs(0xCD70F91C, 0x58404B8F, 0x0D173F70, 0xA05AFE89, 0x68FC9C64), 0xF3142380, 28) == Regs(0x6E175994, 0xCD70F91C, 0xD61012E3, 0x0D173F70, 0xA05AFE89);
    assert Compress(Regs(0xD62ACCCC, 0x7E6A98B3, 0xDF015B02, 0xD885C3E0, 0x9BD184CB), w, 29) == Regs(0x6E175994, 0xCD70F91C, 0xD61012E3, 0x0D173F70, 0xA05AFE89);
    assert Round(Regs(0x6E175994, 0xCD70F91C, 0xD61012E3, 0x0D173F70, 0xA05AFE89), 0x409E6F54, 29) == Regs(0x2936609A, 0x6E175994, 0x335C3E47, 0xD61012E3, 0x0D173F70);
    assert Compress(Regs(0xD62ACCCC, 0x7E6A98B3, 0xDF015B02, 0xD885C3E0, 0x9BD184CB), w, 30) == Regs(0x2936609A, 0x6E175994, 0x335C3E47, 0xD61012E3, 0x0D173F70);
    assert Round(Regs(0x2936609A, 0x6E175994, 0x335C3E47, 0xD61012E3, 0x0D173F70), 0x516C3175, 30) == Regs(0x7F84E4FB, 0x2936609A, 0x1B85D665, 0x335C3E47, 0xD61012E3);
    assert Compress(Regs(0xD62ACCCC, 0x7E6A98B3, 0xDF015B02, 0xD885C3E0, 0x9BD184CB), w, 31) == Regs(0x7F84E4FB, 0x2936609A, 0x1B85D665, 0x335C3E47, 0xD61012E3);
    assert Round(Regs(0x7F84E4FB, 0x2936609A, 0x1B85D665, 0x335C3E47, 0xD61012E3), 0x34F52598, 31) == Regs(0x6C6B4C43, 0x7F84E4FB, 0x8A4D9826, 0x1B85D665, 0x335C3E47);
    assert Compress(Regs(0xD62ACCCC, 0x7E6A98B3, 0xDF015B02, 0xD885C3E0, 0x9BD184CB), w, 32) == Regs(0x6C6B4C43, 0x7F84E4FB, 0x8A4D9826, 0x1B85D665, 0x335C3E47);
    assert Round(Regs(0x6C6B4C43, 0x7F84E4FB, 0x8A4D9826, 0x1B85D665, 0x335C3E47), 0x27E9096D, 32) == Regs(0x45D5667A, 0x6C6B4C43, 0xDFE1393E, 0x8A4D9826, 0x1B85D665);
    assert Compress(Regs(0xD62ACCCC, 0x7E6A98B3, 0xDF015B02, 0xD885C3E0, 0x9BD184CB), w, 33) == Regs(0x45D5667A, 0x6C6B4C43, 0xDFE1393E, 0x8A4D9826, 0x1B85D665);
    assert Round(Regs(0x45D5667A, 0x6C6B4C43, 0xDFE1393E, 0x8A4D9826, 0x1B85D665), 0x12FC4A05, 33) == Regs(0x91D0C8AE, 0x45D5667A, 0xDB1AD310, 0xDFE1393E, 0x8A4D9826);
    assert Compress(Regs(0xD62ACCCC, 0x7E6A98B3, 0xDF015B02, 0xD885C3E0, 0x9BD184CB), w, 34) == Regs(0x91D0C8AE, 0x45D5667A, 0xDB1AD310, 0xDFE1393E, 0x8A4D9826);
    assert Round(Regs(0x91D0C8AE, 0x45D5667A, 0xDB1AD310, 0xDFE1393E, 0x8A4D9826), 0x96EF4D23, 34) == Regs(0x0B5E7310, 0x91D0C8AE, 0x9175599E, 0xDB1AD310, 0xDFE1393E);
    assert Compress(Regs(0xD62ACCCC, 0x7E6A98B3, 0xDF015B02, 0xD885C3E0, 0x9BD184CB), w, 35) == Regs(0x0B5E7310, 0x91D0C8AE, 0x9175599E, 0xDB1AD310, 0xDFE1393E);
    assert Round(Regs(0x0B5E7310, 0x91D0C8AE, 0x9175599E, 0xDB1AD310, 0xDFE1393E), 0xFB177525, 35) == Regs(0x91603E25, 0x0B5E7310, 0xA474322B, 0x9175599E, 0xDB1AD310);
    assert Compress(Regs(0xD62ACCCC, 0x7E6A98B3, 0xDF015B02, 0xD885C3E0, 0x9BD184CB), w, 36) == Regs(0x91603E25, 0x0B5E7310, 0xA474322B, 0x9175599E, 0xDB1AD310);
    assert Round(Regs(0x91603E25, 0x0B5E7310, 0xA474322B, 0x9175599E, 0xDB1AD310), 0x10FCC03E, 36) == Regs(0xC5585C46, 0x91603E25, 0x02D79CC4, 0xA474322B, 0x9175599E);
    assert Compress(Regs(0xD62ACCCC, 0x7E6A98B3, 0xDF015B02, 0xD885C3E0, 0x9BD184CB), w, 37) == Regs(0xC5585C46, 0x91603E25, 0x02D79CC4, 0xA474322B, 0x9175599E);
    assert Round(Regs(0xC5585C46, 0x91603E25, 0x02D79CC4, 0xA474322B, 0x9175599E), 0x467A2C99, 37) == Regs(0x29988B7A, 0xC5585C46, 0x64580F89, 0x02D79CC4, 0xA474322B);
    assert Compress(Regs(0xD62ACCCC, 0x7E6A98B3, 0xDF015B02, 0xD885C3E0, 0x9BD184CB), w, 38) == Regs(0x29988B7A, 0xC5585C46, 0x64580F89, 0x02D79CC4, 0xA474322B);
    assert Round(Regs(0x29988B7A, 0xC5585C46, 0x64580F89, 0x02D79CC4, 0xA474322B), 0x19B33C54, 38) == Regs(0x03EA9870, 0x29988B7A, 0xB1561711, 0x64580F89, 0x02D79CC4);
    assert Compress(Regs(0xD62ACCCC, 0x7E6A98B3, 0xDF015B02, 0xD885C3E0, 0x9BD184CB), w, 39) == Regs(0x03EA9870, 0x29988B7A, 0xB1561711, 0x64580F89, 0x02D79CC4);
    assert Round(Regs(0x03EA9870, 0x29988B7A, 0xB1561711, 0x64580F89, 0x02D79CC4), 0x0B6F4202, 39) == Regs(0xF70A6C49, 0x03EA9870, 0x8A6622DE, 0xB1561711, 0x64580F89);
    assert Compress(Regs(0xD62ACCCC, 0x7E6A98B3, 0xDF015B02, 0xD885C3E0, 0x9BD184CB), w, 40) == Regs(0xF70A6C49, 0x03EA9870, 0x8A6622DE, 0xB1561711, 0x64580F89);
  }

  lemma HiThereOuter1Rounds2(w: seq<word>)
    requires |w| == 80
    requires w[40] == 0x47214484 && w[41] == 0x2A3AAC1D && w[42] == 0x57616E2B && w[43] == 0xA6C74111 &&
      w[44] == 0x317CFDAD && w[45] == 0xCAE010FC && w[46] == 0x93E28ABB && w[47] == 0x3835A064 &&
      w[48] == 0x798E206C && w[49] == 0xA066330C && w[50] == 0xD28E86A5 && w[51] == 0xC4487182 &&
      w[52] == 0x30AA6597 && w[53] == 0xAAF7F184 && w[54] == 0x127107D2 && w[55] == 0x539457D8 &&
      w[56] == 0x8673F68F && w[57] == 0x7DD5B3A4 && w[58] == 0xCE0E85F7 && w[59] == 0x5C39ADC0
    requires Compress(Regs(0xD62ACCCC, 0x7E6A98B3, 0xDF015B02, 0xD885C3E0, 0x9BD184CB), w, 40) == Regs(0xF70A6C49, 0x03EA9870, 0x8A6622DE, 0xB1561711, 0x64580F89)
    ensures Compress(Regs(0xD62ACCCC, 0x7E6A98B3, 0xDF015B02, 0xD885C3E0, 0x9BD184CB), w, 60) == Regs(0x9FE05C3C, 0x8A46B046, 0x9BC9EFF5, 0x78916499, 0x2F24F3E8)
  {
    assert Round(Regs(0xF70A6C49, 0x03EA9870, 0x8A6622DE, 0xB1561711, 0x64580F89), 0x47214484, 40) == Regs(0x9F48AC77, 0xF70A6C49, 0x00FAA61C, 0x8A6622DE, 0xB1561711);
    assert Compress(Regs(0xD62ACCCC, 0x7E6A98B3, 0xDF015B02, 0xD885C3E0, 0x9BD184CB), w, 41) == Regs(0x9F48AC77, 0xF70A6C49, 0x00FAA61C, 0x8A6622DE, 0xB1561711);
    assert Round(Regs(0x9F48AC77, 0xF70A6C49, 0x00FAA61C, 0x8A6622DE, 0xB1561711), 0x2A3AAC1D, 41) == Regs(0xD62C3559, 0x9F48AC77, 0x7DC29B12, 0x00FAA61C, 0x8A6622DE);
    assert Compress(Regs(0xD62ACCCC, 0x7E6A98B3, 0xDF015B02, 0xD885C3E0, 0x9BD184CB), w, 42) == Regs(0xD62C3559, 0x9F48AC77, 0x7DC29B12, 0x00FAA61C, 0x8A6622DE);
    assert Round(Regs(0xD62C3559, 0x9F48AC77, 0x7DC29B12, 0x00FAA61C, 0x8A6622DE), 0x57616E2B, 42) == Regs(0x5434A735, 0xD62C3559, 0xE7D22B1D, 0x7DC29B12, 0x00FAA61C);
    assert Compress(Regs(0xD62ACCCC, 0x7E6A98B3, 0xDF015B02, 0xD885C3E0, 0x9BD184CB), w, 43) == Regs(0x5434A735, 0xD62C3559, 0xE7D22B1D, 0x7DC29B12, 0x00FAA61C);
    assert Round(Regs(0x5434A735, 0xD62C3559, 0xE7D22B1D, 0x7DC29B12, 0x00FAA61C), 0xA6C74111, 43) == Regs(0xB534C5CC, 0x5434A735, 0x758B0D56, 0xE7D22B1D, 0x7DC29B12);
    assert Compress(Regs(0xD62ACCCC, 0x7E6A98B3, 0xDF015B02, 0xD885C3E0, 0x9BD184CB), w, 44) == Regs(0xB534C5CC, 0x5434A735, 0x758B0D56, 0xE7D22B1D, 0x7DC29B12);
    assert Round(Regs(0xB534C5CC, 0x5434A735, 0x758B0D56, 0xE7D22B1D, 0x7DC29B12), 0x317CFDAD, 44) == Regs(0x5A863E46, 0xB534C5CC, 0x550D29CD, 0x758B0D56, 0xE7D22B1D);
    assert Compress(Regs(0xD62ACCCC, 0x7E6A98B3, 0xDF015B02, 0xD885C3E0, 0x9BD184CB), w, 45) == Regs(0x5A863E46, 0xB534C5CC, 0x550D29CD, 0x758B0D56, 0xE7D22B1D);
    assert Round(Regs(0x5A863E46, 0xB534C5CC, 0x550D29CD, 0x758B0D56, 0xE7D22B1D), 0xCAE010FC, 45) == Regs(0x07A2CF8C, 0x5A863E46, 0x2D4D3173, 0x550D29CD, 0x758B0D56);
    assert Compress(Regs(0xD62ACCCC, 0x7E6A98B3, 0xDF015B02, 0xD885C3E0, 0x9BD184CB), w, 46) == Regs(0x07A2CF8C, 0x5A863E46, 0x2D4D3173, 0x550D29CD, 0x758B0D56);
    assert Round(Regs(0x07A2CF8C, 0x5A863E46, 0x2D4D3173, 0x550D29CD, 0x758B0D56), 0x93E28ABB, 46) == Regs(0xE9F07FB4, 0x07A2CF8C, 0x96A18F91, 0x2D4D3173, 0x550D29CD);
    assert Compress(Regs(0xD62ACCCC, 0x7E6A98B3, 0xDF015B02, 0xD885C3E0, 0x9BD184CB), w, 47) == Regs(0xE9F07FB4, 0x07A2CF8C, 0x96A18F91, 0x2D4D3173, 0x550D29CD);
    assert Round(Regs(0xE9F07FB4, 0x07A2CF8C, 0x96A18F91, 0x2D4D3173, 0x550D29CD), 0x3835A064, 47) == Regs(0x62100D3B, 0xE9F07FB4, 0x01E8B3E3, 0x96A18F91, 0x2D4D3173);
    assert Compress(Regs(0xD62ACCCC, 0x7E6A98B3, 0xDF015B02, 0xD885C3E0, 0x9BD184CB), w, 48) == Regs(0x62100D3B, 0xE9F07FB4, 0x01E8B3E3, 0x96A18F91, 0x2D4D3173);
    assert Round(Regs(0x62100D3B, 0xE9F07FB4, 0x01E8B3E3, 0x96A18F91, 0x2D4D3173), 0x798E206C, 48) == Regs(0xF9D975D8, 0x62100D3B, 0x3A7C1FED, 0x01E8B3E3, 0x96A18F91);
    assert Compress(Regs(0xD62ACCCC, 0x7E6A98B3, 0xDF015B02, 0xD885C3E0, 0x9BD184CB), w, 49) == Regs(0xF9D975D8, 0x62100D3B, 0x3A7C1FED, 0x01E8B3E3, 0x96A18F91);
    assert Round(Regs(0xF9D975D8, 0x62100D3B, 0x3A7C1FED, 0x01E8B3E3, 0x96A18F91), 0xA066330C, 49) == Regs(0x23CA5A83, 0xF9D975D8, 0xD884034E, 0x3A7C1FED, 0x01E8B3E3);
    assert Compress(Regs(0xD62ACCCC, 0x7E6A98B3, 0xDF015B02, 0xD885C3E0, 0x9BD184CB), w, 50) == Regs(0x23CA5A83, 0xF9D975D8, 0xD884034E, 0x3A7C1FED, 0x01E8B3E3);
    assert Round(Regs(0x23CA5A83, 0xF9D975D8, 0xD884034E, 0x3A7C1FED, 0x01E8B3E3), 0xD28E86A5, 50) == Regs(0xD5BA5F94, 0x23CA5A83, 0x3E765D76, 0xD884034E, 0x3A7C1FED);
    assert Compress(Regs(0xD62ACCCC, 0x7E6A98B3, 0xDF015B02, 0xD885C3E0, 0x9BD184CB), w, 51) == Regs(0xD5BA5F94, 0x23CA5A83, 0x3E765D76, 0xD884034E, 0x3A7C1FED);
    assert Round(Regs(0xD5BA5F94, 0x23CA5A83, 0x3E765D76, 0xD884034E, 0x3A7C1FED), 0xC4487182, 51) == Regs(0x7FF29C2B, 0xD5BA5F94, 0xC8F296A0, 0x3E765D76, 0xD884034E);
    assert Compress(Regs(0xD62ACCCC, 0x7E6A98B3, 0xDF015B02, 0xD885C3E0, 0x9BD184CB), w, 52) == Regs(0x7FF29C2B, 0xD5BA5F94, 0xC8F296A0, 0x3E765D76, 0xD884034E);
    assert Round(Regs(0x7FF29C2B, 0xD5BA5F94, 0xC8F296A0, 0x3E765D76, 0xD884034E), 0x30AA6597, 52) == Regs(0x73900AE4, 0x7FF29C2B, 0x356E97E5, 0xC8F296A0, 0x3E765D76);
    assert Compress(Regs(0xD62ACCCC, 0x7E6A98B3, 0xDF015B02, 0xD885C3E0, 0x9BD184CB), w, 53) == Regs(0x73900AE4, 0x7FF29C2B, 0x356E97E5, 0xC8F296A0, 0x3E765D76);
    assert Round(Regs(0x73900AE4, 0x7FF29C2B, 0x356E97E5, 0xC8F296A0, 0x3E765D76), 0xAAF7F184, 53) == Regs(0x687DFF05, 0x73900AE4, 0xDFFCA70A, 0x356E97E5, 0xC8F296A0);
    assert Compress(Regs(0xD62ACCCC, 0x7E6A98B3, 0xDF015B02, 0xD885C3E0, 0x9BD184CB), w, 54) == Regs(0x687DFF05, 0x73900AE4, 0xDFFCA70A, 0x356E97E5, 0xC8F296A0);
    assert Round(Regs(0x687DFF05, 0x73900AE4, 0xDFFCA70A, 0x356E97E5, 0xC8F296A0), 0x127107D2, 54) == Regs(0xF23BC3DF, 0x687DFF05, 0x1CE402B9, 0xDFFCA70A, 0x356E97E5);
    assert Compress(Regs(0xD62ACCCC, 0x7E6A98B3, 0xDF015B02, 0xD885C3E0, 0x9BD184CB), w, 55) == Regs(0xF23BC3DF, 0x687DFF05, 0x1CE402B9, 0xDFFCA70A, 0x356E97E5);
    assert Round(Regs(0xF23BC3DF, 0x687DFF05, 0x1CE402B9, 0xDFFCA70A, 0x356E97E5), 0x539457D8, 55) == Regs(0xBC93CFA0, 0xF23BC3DF, 0x5A1F7FC1, 0x1CE402B9, 0xDFFCA70A);
    assert Compress(Regs(0xD62ACCCC, 0x7E6A98B3, 0xDF015B02, 0xD885C3E0, 0x9BD184CB), w, 56) == Regs(0xBC93CFA0, 0xF23BC3DF, 0x5A1F7FC1, 0x1CE402B9, 0xDFFCA70A);
    assert Round(Regs(0xBC93CFA0, 0xF23BC3DF, 0x5A1F7FC1, 0x1CE402B9, 0xDFFCA70A), 0x8673F68F, 56) == Regs(0xE2459265, 0xBC93CFA0, 0xFC8EF0F7, 0x5A1F7FC1, 0x1CE402B9);
    assert Compress(Regs(0xD62ACCCC, 0x7E6A98B3, 0xDF015B02, 0xD885C3E0, 0x9BD184CB), w, 57) == Regs(0xE2459265, 0xBC93CFA0, 0xFC8EF0F7, 0x5A1F7FC1, 0x1CE402B9);
    assert Round(Regs(0xE2459265, 0xBC93CFA0, 0xFC8EF0F7, 0x5A1F7FC1, 0x1CE402B9), 0x7DD5B3A4, 57) == Regs(0x6F27BFD6, 0xE2459265, 0x2F24F3E8, 0xFC8EF0F7, 0x5A1F7FC1);
    assert Compress(Regs(0xD62ACCCC, 0x7E6A98B3, 0xDF015B02, 0xD885C3E0, 0x9BD184CB), w, 58) == Regs(0x6F27BFD6, 0xE2459265, 0x2F24F3E8, 0xFC8EF0F7, 0x5A1F7FC1);
    assert Round(Regs(0x6F27BFD6, 0xE2459265, 0x2F24F3E8, 0xFC8EF0F7, 0x5A1F7FC1), 0xCE0E85F7, 58) == Regs(0x8A46B046, 0x6F27BFD6, 0x78916499, 0x2F24F3E8, 0xFC8EF0F7);
    assert Compress(Regs(0xD62ACCCC, 0x7E6A98B3, 0xDF015B02, 0xD885C3E0, 0x9BD184CB), w, 59) == Regs(0x8A46B046, 0x6F27BFD6, 0x78916499, 0x2F24F3E8, 0xFC8EF0F7);
    assert Round(Regs(0x8A46B046, 0x6F27BFD6, 0x78916499, 0x2F24F3E8, 0xFC8EF0F7), 0x5C39ADC0, 59) == Regs(0x9FE05C3C, 0x8A46B046, 0x9BC9EFF5, 0x78916499, 0x2F24F3E8);
    assert Compress(Regs(0xD62ACCCC, 0x7E6A98B3, 0xDF015B02, 0xD885C3E0, 0x9BD184CB), w, 60) == Regs(0x9FE05C3C, 0x8A46B046, 0x9BC9EFF5, 0x78916499, 0x2F24F3E8);
  }

  lemma HiThereOuter1Rounds3(w: seq<word>)
    requires |w| == 80
    requires w[60] == 0xDFC3424B && w[61] == 0x2C5989D7 && w[62] == 0x4848018B && w[63] == 0x28090DF6 &&
      w[64] == 0x0255B322 && w[65] == 0xA367E142 && w[66] == 0x0846D666 && w[67] == 0x61A73DC8 &&
      w[68] == 0xBCFF8298 && w[69] == 0xBAF9F3DB && w[70] == 0x7BDB9A3D && w[71] == 0x756ED625 &&
      w[72] == 0xE1A26703 && w[73] == 0xF2A0CA37 && w[74] == 0xD9CB8FFE && w[75] == 0xE0CAFDB9 &&
      w[76] == 0xB3A816DF && w[77] == 0xCEC5F008 && w[78] == 0xA219AA5B && w[79] == 0x9B50589C
    requires Compress(Regs(0xD62ACCCC, 0x7E6A98B3, 0xDF015B02, 0xD885C3E0, 0x9BD184CB), w, 60) == Regs(0x9FE05C3C, 0x8A46B046, 0x9BC9EFF5, 0x78916499, 0x2F24F3E8)
    ensures Compress(Regs(0xD62ACCCC, 0x7E6A98B3, 0xDF015B02, 0xD885C3E0, 0x9BD184CB), w, 80) == Regs(0xDFEC64BA, 0xD69AD9B1, 0x038A65B4, 0x22B1C8AE, 0x55753935)
  {
    assert Round(Regs(0x9FE05C3C, 0x8A46B046, 0x9BC9EFF5, 0x78916499, 0x2F24F3E8), 0xDFC3424B, 60) == Regs(0x3E74BAC6, 0x9FE05C3C, 0xA291AC11, 0x9BC9EFF5, 0x78916499);
    assert Compress(Regs(0xD62ACCCC, 0x7E6A98B3, 0xDF015B02, 0xD885C3E0, 0x9BD184CB), w, 61) == Regs(0x3E74BAC6, 0x9FE05C3C, 0xA291AC11, 0x9BC9EFF5, 0x78916499);
    assert Round(Regs(0x3E74BAC6, 0x9FE05C3C, 0xA291AC11, 0x9BC9EFF5, 0x78916499), 0x2C5989D7, 61) == Regs(0xE49D28E5, 0x3E74BAC6, 0x27F8170F, 0xA291AC11, 0x9BC9EFF5);
    assert Compress(Regs(0xD62ACCCC, 0x7E6A98B3, 0xDF015B02, 0xD885C3E0, 0x9BD184CB), w, 62) == Regs(0xE49D28E5, 0x3E74BAC6, 0x27F8170F, 0xA291AC11, 0x9BC9EFF5);
    assert Round(Regs(0xE49D28E5, 0x3E74BAC6, 0x27F8170F, 0xA291AC11, 0x9BC9EFF5), 0x4848018B, 62) == Regs(0xFD36D1EA, 0xE49D28E5, 0x8F9D2EB1, 0x27F8170F, 0xA291AC11);
    assert Compress(Regs(0xD62ACCCC, 0x7E6A98B3, 0xDF015B02, 0xD885C3E0, 0x9BD184CB), w, 63) == Regs(0xFD36D1EA, 0xE49D28E5, 0x8F9D2EB1, 0x27F8170F, 0xA291AC11);
    assert Round(Regs(0xFD36D1EA, 0xE49D28E5, 0x8F9D2EB1, 0x27F8170F, 0xA291AC11), 0x28090DF6, 63) == Regs(0x88CFCA97, 0xFD36D1EA, 0x79274A39, 0x8F9D2EB1, 0x27F8170F);
    assert Compress(Regs(0xD62ACCCC, 0x7E6A98B3, 0xDF015B02, 0xD885C3E0, 0x9BD184CB), w, 64) == Regs(0x88CFCA97, 0xFD36D1EA, 0x79274A39, 0x8F9D2EB1, 0x27F8170F);
    assert Round(Regs(0x88CFCA97, 0xFD36D1EA, 0x79274A39, 0x8F9D2EB1, 0x27F8170F), 0x0255B322, 64) == Regs(0x1A36945A, 0x88CFCA97, 0xBF4DB47A, 0x79274A39, 0x8F9D2EB1);
    assert Compress(Regs(0xD62ACCCC, 0x7E6A98B3, 0xDF015B02, 0xD885C3E0, 0x9BD184CB), w, 65) == Regs(0x1A36945A, 0x88CFCA97, 0xBF4DB47A, 0x79274A39, 0x8F9D2EB1);
    assert Round(Regs(0x1A36945A, 0x88CFCA97, 0xBF4DB47A, 0x79274A39, 0x8F9D2EB1), 0xA367E142, 65) == Regs(0x92DF91E0, 0x1A36945A, 0xE233F2A5, 0xBF4DB47A, 0x79274A39);
    assert Compress(Regs(0xD62ACCCC, 0x7E6A98B3, 0xDF015B02, 0xD885C3E0, 0x9BD184CB), w, 66) == Regs(0x92DF91E0, 0x1A36945A, 0xE233F2A5, 0xBF4DB47A, 0x79274A39);
    assert Round(Regs(0x92DF91E0, 0x1A36945A, 0xE233F2A5, 0xBF4DB47A, 0x79274A39), 0x0846D666, 66) == Regs(0xEF0BF10C, 0x92DF91E0, 0x868DA516, 0xE233F2A5, 0xBF4DB47A);
    assert Compress(Regs(0xD62ACCCC, 0x7E6A98B3, 0xDF015B02, 0xD885C3E0, 0x9BD184CB), w, 67) == Regs(0xEF0BF10C, 0x92DF91E0, 0x868DA516, 0xE233F2A5, 0xBF4DB47A);
    assert Round(Regs(0xEF0BF10C, 0x92DF91E0, 0x868DA516, 0xE233F2A5, 0xBF4DB47A), 0x61A73DC8, 67) == Regs(0xC3379C08, 0xEF0BF10C, 0x24B7E478, 0x868DA516, 0xE233F2A5);
    assert Compress(Regs(0xD62ACCCC, 0x7E6A98B3, 0xDF015B02, 0xD885C3E0, 0x9BD184CB), w, 68) == Regs(0xC3379C08, 0xEF0BF10C, 0x24B7E478, 0x868DA516, 0xE233F2A5);
    assert Round(Regs(0xC3379C08, 0xEF0BF10C, 0x24B7E478, 0x868DA516, 0xE233F2A5), 0xBCFF8298, 68) == Regs(0x1DBB688D, 0xC3379C08, 0x3BC2FC43, 0x24B7E478, 0x868DA516);
    assert Compress(Regs(0xD62ACCCC, 0x7E6A98B3, 0xDF015B02, 0xD885C3E0, 0x9BD184CB), w, 69) == Regs(0x1DBB688D, 0xC3379C08, 0x3BC2FC43, 0x24B7E478, 0x868DA516);
    assert Round(Regs(0x1DBB688D, 0xC3379C08, 0x3BC2FC43, 0x24B7E478, 0x868DA516), 0xBAF9F3DB, 69) == Regs(0x9F99F09D, 0x1DBB688D, 0x30CDE702, 0x3BC2FC43, 0x24B7E478);
    assert Compress(Regs(0xD62ACCCC, 0x7E6A98B3, 0xDF015B02, 0xD885C3E0, 0x9BD184CB), w, 70) == Regs(0x9F99F09D, 0x1DBB688D, 0x30CDE702, 0x3BC2FC43, 0x24B7E478);
    assert Round(Regs(0x9F99F09D, 0x1DBB688D, 0x30CDE702, 0x3BC2FC43, 0x24B7E478), 0x7BDB9A3D, 70) == Regs(0x74E8C80A, 0x9F99F09D, 0x476EDA23, 0x30CDE702, 0x3BC2FC43);
    assert Compress(Regs(0xD62ACCCC, 0x7E6A98B3, 0xDF015B02, 0xD885C3E0, 0x9BD184CB), w, 71) == Regs(0x74E8C80A, 0x9F99F09D, 0x476EDA23, 0x30CDE702, 0x3BC2FC43);
    assert Round(Regs(0x74E8C80A, 0x9F99F09D, 0x476EDA23, 0x30CDE702, 0x3BC2FC43), 0x756ED625, 71) == Regs(0x00E86348, 0x74E8C80A, 0x67E67C27, 0x476EDA23, 0x30CDE702);
    assert Compress(Regs(0xD62ACCCC, 0x7E6A98B3, 0xDF015B02, 0xD885C3E0, 0x9BD184CB), w, 72) == Regs(0x00E86348, 0x74E8C80A, 0x67E67C27, 0x476EDA23, 0x30CDE702);
    assert Round(Regs(0x00E86348, 0x74E8C80A, 0x67E67C27, 0x476EDA23, 0x30CDE702), 0xE1A26703, 72) == Regs(0x4E3FE6E9, 0x00E86348, 0x9D3A3202, 0x67E67C27, 0x476EDA23);
    assert Compress(Regs(0xD62ACCCC, 0x7E6A98B3, 0xDF015B02, 0xD885C3E0, 0x9BD184CB), w, 73) == Regs(0x4E3FE6E9, 0x00E86348, 0x9D3A3202, 0x67E67C27, 0x476EDA23);
    assert Round(Regs(0x4E3FE6E9, 0x00E86348, 0x9D3A3202, 0x67E67C27, 0x476EDA23), 0xF2A0CA37, 73) == Regs(0xC6A370C6, 0x4E3FE6E9, 0x003A18D2, 0x9D3A3202, 0x67E67C27);
    assert Compress(Regs(0xD62ACCCC, 0x7E6A98B3, 0xDF015B02, 0xD885C3E0, 0x9BD184CB), w, 74) == Regs(0xC6A370C6, 0x4E3FE6E9, 0x003A18D2, 0x9D3A3202, 0x67E67C27);
    assert Round(Regs(0xC6A370C6, 0x4E3FE6E9, 0x003A18D2, 0x9D3A3202, 0x67E67C27), 0xD9CB8FFE, 74) == Regs(0xB3C2B30C, 0xC6A370C6, 0x538FF9BA, 0x003A18D2, 0x9D3A3202);
    assert Compress(Regs(0xD62ACCCC, 0x7E6A98B3, 0xDF015B02, 0xD885C3E0, 0x9BD184CB), w, 75) == Regs(0xB3C2B30C, 0xC6A370C6, 0x538FF9BA, 0x003A18D2, 0x9D3A3202);
    assert Round(Regs(0xB3C2B30C, 0xC6A370C6, 0x538FF9BA, 0x003A18D2, 0x9D3A3202), 0xE0CAFDB9, 75) == Regs(0x55D4E4D5, 0xB3C2B30C, 0xB1A8DC31, 0x538FF9BA, 0x003A18D2);
    assert Compress(Regs(0xD62ACCCC, 0x7E6A98B3, 0xDF015B02, 0xD885C3E0, 0x9BD184CB), w, 76) == Regs(0x55D4E4D5, 0xB3C2B30C, 0xB1A8DC31, 0x538FF9BA, 0x003A18D2);
    assert Round(Regs(0x55D4E4D5, 0xB3C2B30C, 0xB1A8DC31, 0x538FF9BA, 0x003A18D2), 0xB3A816DF, 76) == Regs(0x8AC722B8, 0x55D4E4D5, 0x2CF0ACC3, 0xB1A8DC31, 0x538FF9BA);
    assert Compress(Regs(0xD62ACCCC, 0x7E6A98B3, 0xDF015B02, 0xD885C3E0, 0x9BD184CB), w, 77) == Regs(0x8AC722B8, 0x55D4E4D5, 0x2CF0ACC3, 0xB1A8DC31, 0x538FF9BA);
    assert Round(Regs(0x8AC722B8, 0x55D4E4D5, 0x2CF0ACC3, 0xB1A8DC31, 0x538FF9BA), 0xCEC5F008, 77) == Regs(0x0E2996D0, 0x8AC722B8, 0x55753935, 0x2CF0ACC3, 0xB1A8DC31);
    assert Compress(Regs(0xD62ACCCC, 0x7E6A98B3, 0xDF015B02, 0xD885C3E0, 0x9BD184CB), w, 78) == Regs(0x0E2996D0, 0x8AC722B8, 0x55753935, 0x2CF0ACC3, 0xB1A8DC31);
    assert Round(Regs(0x0E2996D0, 0x8AC722B8, 0x55753935, 0x2CF0ACC3, 0xB1A8DC31), 0xA219AA5B, 78) == Regs(0xD69AD9B1, 0x0E2996D0, 0x22B1C8AE, 0x55753935, 0x2CF0ACC3);
    assert Compress(Regs(0xD62ACCCC, 0x7E6A98B3, 0xDF015B02, 0xD885C3E0, 0x9BD184CB), w, 79) == Regs(0xD69AD9B1, 0x0E2996D0, 0x22B1C8AE, 0x55753935, 0x2CF0ACC3);
    assert Round(Regs(0xD69AD9B1, 0x0E2996D0, 0x22B1C8AE, 0x55753935, 0x2CF0ACC3), 0x9B50589C, 79) == Regs(0xDFEC64BA, 0xD69AD9B1, 0x038A65B4, 0x22B1C8AE, 0x55753935);
    assert Compress(Regs(0xD62ACCCC, 0x7E6A98B3, 0xDF015B02, 0xD885C3E0, 0x9BD184CB), w, 80) == Regs(0xDFEC64BA, 0xD69AD9B1, 0x038A65B4, 0x22B1C8AE, 0x55753935);
  }

  lemma HiThereOuter1Compress(words: seq<word>)
    requires |words| == 16
    requires words[0] == 0x376637C8 && words[1] == 0x923DC595 && words[2] == 0xE41A2797 && words[3] == 0x2E995121 &&
      words[4] == 0x1D40CE98 && words[5] == 0x80000000 && words[6] == 0x00000000 && words[7] == 0x00000000 &&
      words[8] == 0x00000000 && words[9] == 0x00000000 && words[10] == 0x00000000 && words[11] == 0x00000000 &&
      words[12] == 0x00000000 && words[13] == 0x00000000 && words[14] == 0x00000000 && words[15] == 0x000002A0
    ensures Compress(Regs(0xD62ACCCC, 0x7E6A98B3, 0xDF015B02, 0xD885C3E0, 0x9BD184CB), Schedule(words), 80) == Regs(0xDFEC64BA, 0xD69AD9B1, 0x038A65B4, 0x22B1C8AE, 0x55753935)
  {
    var w := Schedule(words);
    ScheduleIsSchedule(words);
    forall j | 0 <= j < 16
      ensures w[j] == words[j]
    {
      assert w[..16][j] == w[j];
    }
    HiThereOuter1Schedule0(w);
    HiThereOuter1Schedule1(w);
    HiThereOuter1Schedule2(w);
    HiThereOuter1Schedule3(w);
    HiThereOuter1Rounds0(w);
    HiThereOuter1Rounds1(w);
    HiThereOuter1Rounds2(w);
    HiThereOuter1Rounds3(w);
  }

  lemma HiThereOuterDigest(d: seq<byte>)
    requires d == [0x37, 0x66, 0x37, 0xC8, 0x92, 0x3D, 0xC5, 0x95, 0xE4, 0x1A, 0x27, 0x97, 0x2E, 0x99, 0x51, 0x21, 0x1D, 0x40, 0xCE, 0x98]
    ensures Sha1.Digest(OuterInput(HiThereKey, d)) == [0xB6, 0x17, 0x31, 0x86, 0x55, 0x05, 0x72, 0x64, 0xE2, 0x8B, 0xC0, 0xB6, 0xFB, 0x37, 0x8C, 0x8E, 0xF1, 0x46, 0xBE, 0x00]
  {
    var p := Sha1.Pad(OuterInput(HiThereKey, d));
    HiThereOuterLength(d);
    HiThereOuterBlock0(p, d);
    HiThereOuterBlock1(p, d);
    var b := Split(p);
    ChainTwo(IV, b);
    HiThereOuter0Compress(b[0].words);
    HiThereOuter1Compress(b[1].words);
    assert Sha1.Chain(IV, b) == Regs(0xB6173186, 0x55057264, 0xE28BC0B6, 0xFB378C8E, 0xF146BE00);
    HiThereOuterOutput();
  }

  lemma HiThereOuterOutput()
    ensures Serialize(Regs(0xB6173186, 0x55057264, 0xE28BC0B6, 0xFB378C8E, 0xF146BE00)) == [0xB6, 0x17, 0x31, 0x86, 0x55, 0x05, 0x72, 0x64, 0xE2, 0x8B, 0xC0, 0xB6, 0xFB, 0x37, 0x8C, 0x8E, 0xF1, 0x46, 0xBE, 0x00]
  {
  }

  lemma HmacHiThere()
    ensures HmacSha1(HiThereKey, HiThereMessage) == [0xB6, 0x17, 0x31, 0x86, 0x55, 0x05, 0x72, 0x64, 0xE2, 0x8B, 0xC0, 0xB6, 0xFB, 0x37, 0x8C, 0x8E, 0xF1, 0x46, 0xBE, 0x00]
  {
    HiThereInnerDigest();
    HiThereOuterDigest([0x37, 0x66, 0x37, 0xC8, 0x92, 0x3D, 0xC5, 0x95, 0xE4, 0x1A, 0x27, 0x97, 0x2E, 0x99, 0x51, 0x21, 0x1D, 0x40, 0xCE, 0x98]);
  }

  /** HMAC-SHA1 under key "Jefe" of message "what do ya want for nothing?" (RFC 2202). */
  lemma JefeInnerInput0()
    ensures |InnerInput(JefeKey, JefeMessage)| == 92
    ensures var m := InnerInput(JefeKey, JefeMessage);
      m[0] == 0x7C && m[1] == 0x53 && m[2] == 0x50 && m[3] == 0x53 &&
      m[4] == 0x36 && m[5] == 0x36 && m[6] == 0x36 && m[7] == 0x36 &&
      m[8] == 0x36 && m[9] == 0x36 && m[10] == 0x36 && m[11] == 0x36 &&
      m[12] == 0x36 && m[13] == 0x36 && m[14] == 0x36 && m[15] == 0x36
  {
    var m := InnerInput(JefeKey, JefeMessage);
    NormalizeKeyPrefix(JefeKey);
    var k := NormalizeKey(JefeKey);
    assert m[0] == k[0] ^ 0x36;
    assert m[1] == k[1] ^ 0x36;
    assert m[2] == k[2] ^ 0x36;
    assert m[3] == k[3] ^ 0x36;
    assert m[4] == k[4] ^ 0x36;
    assert m[5] == k[5] ^ 0x36;
    assert m[6] == k[6] ^ 0x36;
    assert m[7] == k[7] ^ 0x36;
    assert m[8] == k[8] ^ 0x36;
    assert m[9] == k[9] ^ 0x36;
    assert m[10] == k[10] ^ 0x36;
    assert m[11] == k[11] ^ 0x36;
    assert m[12] == k[12] ^ 0x36;
    assert m[13] == k[13] ^ 0x36;
    assert m[14] == k[14] ^ 0x36;
    assert m[15] == k[15] ^ 0x36;
  }

  lemma JefeInnerInput1()
    ensures |InnerInput(JefeKey, JefeMessage)| == 92
    ensures var m := InnerInput(JefeKey, JefeMessage);
      m[16] == 0x36 && m[17] == 0x36 && m[18] == 0x36 && m[19] == 0x36 &&
      m[20] == 0x36 && m[21] == 0x36 && m[22] == 0x36 && m[23] == 0x36 &&
      m[24] == 0x36 && m[25] == 0x36 && m[26] == 0x36 && m[27] == 0x36 &&
      m[28] == 0x36 && m[29] == 0x36 && m[30] == 0x36 && m[31] == 0x36
  {
    var m := InnerInput(JefeKey, JefeMessage);
    NormalizeKeyPrefix(JefeKey);
    var k := NormalizeKey(JefeKey);
    assert m[16] == k[16] ^ 0x36;
    assert m[17] == k[17] ^ 0x36;
    assert m[18] == k[18] ^ 0x36;
    assert m[19] == k[19] ^ 0x36;
    assert m[20] == k[20] ^ 0x36;
    assert m[21] == k[21] ^ 0x36;
    assert m[22] == k[22] ^ 0x36;
    assert m[23] == k[23] ^ 0x36;
    assert m[24] == k[24] ^ 0x36;
    assert m[25] == k[25] ^ 0x36;
    assert m[26] == k[26] ^ 0x36;
    assert m[27] == k[27] ^ 0x36;
    assert m[28] == k[28] ^ 0x36;
    assert m[29] == k[29] ^ 0x36;
    assert m[30] == k[30] ^ 0x36;
    assert m[31] == k[31] ^ 0x36;
  }

  lemma JefeInnerInput2()
    ensures |InnerInput(JefeKey, JefeMessage)| == 92
    ensures var m := InnerInput(JefeKey, JefeMessage);
      m[32] == 0x36 && m[33] == 0x36 && m[34] == 0x36 && m[35] == 0x36 &&
      m[36] == 0x36 && m[37] == 0x36 && m[38] == 0x36 && m[39] == 0x36 &&
      m[40] == 0x36 && m[41] == 0x36 && m[42] == 0x36 && m[43] == 0x36 &&
      m[44] == 0x36 && m[45] == 0x36 && m[46] == 0x36 && m[47] == 0x36
  {
    var m := InnerInput(JefeKey, JefeMessage);
    NormalizeKeyPrefix(JefeKey);
    var k := NormalizeKey(JefeKey);
    assert m[32] == k[32] ^ 0x36;
    assert m[33] == k[33] ^ 0x36;
    assert m[34] == k[34] ^ 0x36;
    assert m[35] == k[35] ^ 0x36;
    assert m[36] == k[36] ^ 0x36;
    assert m[37] == k[37] ^ 0x36;
    assert m[38] == k[38] ^ 0x36;
    assert m[39] == k[39] ^ 0x36;
    assert m[40] == k[40] ^ 0x36;
    assert m[41] == k[41] ^ 0x36;
    assert m[42] == k[42] ^ 0x36;
    assert m[43] == k[43] ^ 0x36;
    assert m[44] == k[44] ^ 0x36;
    assert m[45] == k[45] ^ 0x36;
    assert m[46] == k[46] ^ 0x36;
    assert m[47] == k[47] ^ 0x36;
  }

  lemma JefeInnerInput3()
    ensures |InnerInput(JefeKey, JefeMessage)| == 92
    ensures var m := InnerInput(JefeKey, JefeMessage);
      m[48] == 0x36 && m[49] == 0x36 && m[50] == 0x36 && m[51] == 0x36 &&
      m[52] == 0x36 && m[53] == 0x36 && m[54] == 0x36 && m[55] == 0x36 &&
      m[56] == 0x36 && m[57] == 0x36 && m[58] == 0x36 && m[59] == 0x36 &&
      m[60] == 0x36 && m[61] == 0x36 && m[62] == 0x36 && m[63] == 0x36
  {
    var m := InnerInput(JefeKey, JefeMessage);
    NormalizeKeyPrefix(JefeKey);
    var k := NormalizeKey(JefeKey);
    assert m[48] == k[48] ^ 0x36;
    assert m[49] == k[49] ^ 0x36;
    assert m[50] == k[50] ^ 0x36;
    assert m[51] == k[51] ^ 0x36;
    assert m[52] == k[52] ^ 0x36;
    assert m[53] == k[53] ^ 0x36;
    assert m[54] == k[54] ^ 0x36;
    assert m[55] == k[55] ^ 0x36;
    assert m[56] == k[56] ^ 0x36;
    assert m[57] == k[57] ^ 0x36;
    assert m[58] == k[58] ^ 0x36;
    assert m[59] == k[59] ^ 0x36;
    assert m[60] == k[60] ^ 0x36;
    assert m[61] == k[61] ^ 0x36;
    assert m[62] == k[62] ^ 0x36;
    assert m[63] == k[63] ^ 0x36;
  }

  lemma JefeInnerInput4()
    ensures |InnerInput(JefeKey, JefeMessage)| == 92
    ensures var m := InnerInput(JefeKey, JefeMessage);
      m[64] == 0x77 && m[65] == 0x68 && m[66] == 0x61 && m[67] == 0x74 &&
      m[68] == 0x20 && m[69] == 0x64 && m[70] == 0x6F && m[71] == 0x20 &&
      m[72] == 0x79 && m[73] == 0x61 && m[74] == 0x20 && m[75] == 0x77 &&
      m[76] == 0x61 && m[77] == 0x6E && m[78] == 0x74 && m[79] == 0x20
  {
    var m := InnerInput(JefeKey, JefeMessage);
    assert m[64] == m[64..][0];
    assert m[65] == m[64..][1];
    assert m[66] == m[64..][2];
    assert m[67] == m[64..][3];
    assert m[68] == m[64..][4];
    assert m[69] == m[64..][5];
    assert m[70] == m[64..][6];
    assert m[71] == m[64..][7];
    assert m[72] == m[64..][8];
    assert m[73] == m[64..][9];
    assert m[74] == m[64..][10];
    assert m[75] == m[64..][11];
    assert m[76] == m[64..][12];
    assert m[77] == m[64..][13];
    assert m[78] == m[64..][14];
    assert m[79] == m[64..][15];
  }

  lemma JefeInnerInput5()
    ensures |InnerInput(JefeKey, JefeMessage)| == 92
    ensures var m := InnerInput(JefeKey, JefeMessage);
      m[80] == 0x66 && m[81] == 0x6F && m[82] == 0x72 && m[83] == 0x20 &&
      m[84] == 0x6E && m[85] == 0x6F && m[86] == 0x74 && m[87] == 0x68 &&
      m[88] == 0x69 && m[89] == 0x6E && m[90] == 0x67 && m[91] == 0x3F
  {
    var m := InnerInput(JefeKey, JefeMessage);
    assert m[80] == m[64..][16];
    assert m[81] == m[64..][17];
    assert m[82] == m[64..][18];
    assert m[83] == m[64..][19];
    assert m[84] == m[64..][20];
    assert m[85] == m[64..][21];
    assert m[86] == m[64..][22];
    assert m[87] == m[64..][23];
    assert m[88] == m[64..][24];
    assert m[89] == m[64..][25];
    assert m[90] == m[64..][26];
    assert m[91] == m[64..][27];
  }

  lemma JefeInnerLength()
    ensures |Sha1.Pad(InnerInput(JefeKey, JefeMessage))| == 128
  {
    HmacInputLength(JefeKey, JefeMessage);
  }

  lemma JefeInnerBytes0(p: seq<byte>)
    requires p == Sha1.Pad(InnerInput(JefeKey, JefeMessage))
    ensures |p| == 128
    ensures p[0] == 0x7C && p[1] == 0x53 && p[2] == 0x50 && p[3] == 0x53 &&
      p[4] == 0x36 && p[5] == 0x36 && p[6] == 0x36 && p[7] == 0x36 &&
      p[8] == 0x36 && p[9] == 0x36 && p[10] == 0x36 && p[11] == 0x36 &&
      p[12] == 0x36 && p[13] == 0x36 && p[14] == 0x36 && p[15] == 0x36
  {
    var m := InnerInput(JefeKey, JefeMessage);
    JefeInnerLength();
    JefeInnerInput0();
    Sha1.PadShape(m);
    assert p[0] == p[..92][0];
    assert p[1] == p[..92][1];
    assert p[2] == p[..92][2];
    assert p[3] == p[..92][3];
    assert p[4] == p[..92][4];
    assert p[5] == p[..92][5];
    assert p[6] == p[..92][6];
    assert p[7] == p[..92][7];
    assert p[8] == p[..92][8];
    assert p[9] == p[..92][9];
    assert p[10] == p[..92][10];
    assert p[11] == p[..92][11];
    assert p[12] == p[..92][12];
    assert p[13] == p[..92][13];
    assert p[14] == p[..92][14];
    assert p[15] == p[..92][15];
  }

  lemma JefeInnerBytes1(p: seq<byte>)
    requires p == Sha1.Pad(InnerInput(JefeKey, JefeMessage))
    ensures |p| == 128
    ensures p[16] == 0x36 && p[17] == 0x36 && p[18] == 0x36 && p[19] == 0x36 &&
      p[20] == 0x36 && p[21] == 0x36 && p[22] == 0x36 && p[23] == 0x36 &&
      p[24] == 0x36 && p[25] == 0x36 && p[26] == 0x36 && p[27] == 0x36 &&
      p[28] == 0x36 && p[29] == 0x36 && p[30] == 0x36 && p[31] == 0x36
  {
    var m := InnerInput(JefeKey, JefeMessage);
    JefeInnerLength();
    JefeInnerInput1();
    Sha1.PadShape(m);
    assert p[16] == p[..92][16];
    assert p[17] == p[..92][17];
    assert p[18] == p[..92][18];
    assert p[19] == p[..92][19];
    assert p[20] == p[..92][20];
    assert p[21] == p[..92][21];
    assert p[22] == p[..92][22];
    assert p[23] == p[..92][23];
    assert p[24] == p[..92][24];
    assert p[25] == p[..92][25];
    assert p[26] == p[..92][26];
    assert p[27] == p[..92][27];
    assert p[28] == p[..92][28];
    assert p[29] == p[..92][29];
    assert p[30] == p[..92][30];
    assert p[31] == p[..92][31];
  }

  lemma JefeInnerBytes2(p: seq<byte>)
    requires p == Sha1.Pad(InnerInput(JefeKey, JefeMessage))
    ensures |p| == 128
    ensures p[32] == 0x36 && p[33] == 0x36 && p[34] == 0x36 && p[35] == 0x36 &&
      p[36] == 0x36 && p[37] == 0x36 && p[38] == 0x36 && p[39] == 0x36 &&
      p[40] == 0x36 && p[41] == 0x36 && p[42] == 0x36 && p[43] == 0x36 &&
      p[44] == 0x36 && p[45] == 0x36 && p[46] == 0x36 && p[47] == 0x36
  {
    var m := InnerInput(JefeKey, JefeMessage);
    JefeInnerLength();
    JefeInnerInput2();
    Sha1.PadShape(m);
    assert p[32] == p[..92][32];
    assert p[33] == p[..92][33];
    assert p[34] == p[..92][34];
    assert p[35] == p[..92][35];
    assert p[36] == p[..92][36];
    assert p[37] == p[..92][37];
    assert p[38] == p[..92][38];
    assert p[39] == p[..92][39];
    assert p[40] == p[..92][40];
    assert p[41] == p[..92][41];
    assert p[42] == p[..92][42];
    assert p[43] == p[..92][43];
    assert p[44] == p[..92][44];
    assert p[45] == p[..92][45];
    assert p[46] == p[..92][46];
    assert p[47] == p[..92][47];
  }

  lemma JefeInnerBytes3(p: seq<byte>)
    requires p == Sha1.Pad(InnerInput(JefeKey, JefeMessage))
    ensures |p| == 128
    ensures p[48] == 0x36 && p[49] == 0x36 && p[50] == 0x36 && p[51] == 0x36 &&
      p[52] == 0x36 && p[53] == 0x36 && p[54] == 0x36 && p[55] == 0x36 &&
      p[56] == 0x36 && p[57] == 0x36 && p[58] == 0x36 && p[59] == 0x36 &&
      p[60] == 0x36 && p[61] == 0x36 && p[62] == 0x36 && p[63] == 0x36
  {
    var m := InnerInput(JefeKey, JefeMessage);
    JefeInnerLength();
    JefeInnerInput3();
    Sha1.PadShape(m);
    assert p[48] == p[..92][48];
    assert p[49] == p[..92][49];
    assert p[50] == p[..92][50];
    assert p[51] == p[..92][51];
    assert p[52] == p[..92][52];
    assert p[53] == p[..92][53];
    assert p[54] == p[..92][54];
    assert p[55] == p[..92][55];
    assert p[56] == p[..92][56];
    assert p[57] == p[..92][57];
    assert p[58] == p[..92][58];
    assert p[59] == p[..92][59];
    assert p[60] == p[..92][60];
    assert p[61] == p[..92][61];
    assert p[62] == p[..92][62];
    assert p[63] == p[..92][63];
  }

  lemma JefeInnerBytes4(p: seq<byte>)
    requires p == Sha1.Pad(InnerInput(JefeKey, JefeMessage))
    ensures |p| == 128
    ensures p[64] == 0x77 && p[65] == 0x68 && p[66] == 0x61 && p[67] == 0x74 &&
      p[68] == 0x20 && p[69] == 0x64 && p[70] == 0x6F && p[71] == 0x20 &&
      p[72] == 0x79 && p[73] == 0x61 && p[74] == 0x20 && p[75] == 0x77 &&
      p[76] == 0x61 && p[77] == 0x6E && p[78] == 0x74 && p[79] == 0x20
  {
    var m := InnerInput(JefeKey, JefeMessage);
    JefeInnerLength();
    JefeInnerInput4();
    Sha1.PadShape(m);
    assert p[64] == p[..92][64];
    assert p[65] == p[..92][65];
    assert p[66] == p[..92][66];
    assert p[67] == p[..92][67];
    assert p[68] == p[..92][68];
    assert p[69] == p[..92][69];
    assert p[70] == p[..92][70];
    assert p[71] == p[..92][71];
    assert p[72] == p[..92][72];
    assert p[73] == p[..92][73];
    assert p[74] == p[..92][74];
    assert p[75] == p[..92][75];
    assert p[76] == p[..92][76];
    assert p[77] == p[..92][77];
    assert p[78] == p[..92][78];
    assert p[79] == p[..92][79];
  }

  lemma JefeInnerBytes5(p: seq<byte>)
    requires p == Sha1.Pad(InnerInput(JefeKey, JefeMessage))
    ensures |p| == 128
    ensures p[80] == 0x66 && p[81] == 0x6F && p[82] == 0x72 && p[83] == 0x20 &&
      p[84] == 0x6E && p[85] == 0x6F && p[86] == 0x74 && p[87] == 0x68 &&
      p[88] == 0x69 && p[89] == 0x6E && p[90] == 0x67 && p[91] == 0x3F &&
      p[92] == 0x80 && p[93] == 0x00 && p[94] == 0x00 && p[95] == 0x00
  {
    var m := InnerInput(JefeKey, JefeMessage);
    JefeInnerLength();
    JefeInnerInput5();
    Sha1.PadShape(m);
    assert p[80] == p[..92][80];
    assert p[81] == p[..92][81];
    assert p[82] == p[..92][82];
    assert p[83] == p[..92][83];
    assert p[84] == p[..92][84];
    assert p[85] == p[..92][85];
    assert p[86] == p[..92][86];
    assert p[87] == p[..92][87];
    assert p[88] == p[..92][88];
    assert p[89] == p[..92][89];
    assert p[90] == p[..92][90];
    assert p[91] == p[..92][91];
  }

  lemma JefeInnerBytes6(p: seq<byte>)
    requires p == Sha1.Pad(InnerInput(JefeKey, JefeMessage))
    ensures |p| == 128
    ensures p[96] == 0x00 && p[97] == 0x00 && p[98] == 0x00 && p[99] == 0x00 &&
      p[100] == 0x00 && p[101] == 0x00 && p[102] == 0x00 && p[103] == 0x00 &&
      p[104] == 0x00 && p[105] == 0x00 && p[106] == 0x00 && p[107] == 0x00 &&
      p[108] == 0x00 && p[109] == 0x00 && p[110] == 0x00 && p[111] == 0x00
  {
    var m := InnerInput(JefeKey, JefeMessage);
    JefeInnerLength();
    Sha1.PadShape(m);
  }

  lemma JefeInnerBytes7(p: seq<byte>)
    requires p == Sha1.Pad(InnerInput(JefeKey, JefeMessage))
    ensures |p| == 128
    ensures p[112] == 0x00 && p[113] == 0x00 && p[114] == 0x00 && p[115] == 0x00 &&
      p[116] == 0x00 && p[117] == 0x00 && p[118] == 0x00 && p[119] == 0x00 &&
      p[120] == 0x00 && p[121] == 0x00 && p[122] == 0x00 && p[123] == 0x00 &&
      p[124] == 0x00 && p[125] == 0x00 && p[126] == 0x02 && p[127] == 0xE0
  {
    var m := InnerInput(JefeKey, JefeMessage);
    JefeInnerLength();
    Sha1.PadShape(m);
    LengthField2E0();
    assert p[120] == p[120..][0];
    assert p[121] == p[120..][1];
    assert p[122] == p[120..][2];
    assert p[123] == p[120..][3];
    assert p[124] == p[120..][4];
    assert p[125] == p[120..][5];
    assert p[126] == p[120..][6];
    assert p[127] == p[120..][7];
  }

  lemma JefeInnerWords0(p: seq<byte>)
    requires |p| == 128
    requires p[0] == 0x7C && p[1] == 0x53 && p[2] == 0x50 && p[3] == 0x53 &&
      p[4] == 0x36 && p[5] == 0x36 && p[6] == 0x36 && p[7] == 0x36 &&
      p[8] == 0x36 && p[9] == 0x36 && p[10] == 0x36 && p[11] == 0x36 &&
      p[12] == 0x36 && p[13] == 0x36 && p[14] == 0x36 && p[15] == 0x36
    ensures var b := Split(p)[0].words;
      b[0] == 0x7C535053 && b[1] == 0x36363636 && b[2] == 0x36363636 && b[3] == 0x36363636
  {
    SplitWords(p, 0, 0);
    SplitWords(p, 0, 1);
    SplitWords(p, 0, 2);
    SplitWords(p, 0, 3);
  }

  lemma JefeInnerWords1(p: seq<byte>)
    requires |p| == 128
    requires p[16] == 0x36 && p[17] == 0x36 && p[18] == 0x36 && p[19] == 0x36 &&
      p[20] == 0x36 && p[21] == 0x36 && p[22] == 0x36 && p[23] == 0x36 &&
      p[24] == 0x36 && p[25] == 0x36 && p[26] == 0x36 && p[27] == 0x36 &&
      p[28] == 0x36 && p[29] == 0x36 && p[30] == 0x36 && p[31] == 0x36
    ensures var b := Split(p)[0].words;
      b[4] == 0x36363636 && b[5] == 0x36363636 && b[6] == 0x36363636 && b[7] == 0x36363636
  {
    SplitWords(p, 0, 4);
    SplitWords(p, 0, 5);
    SplitWords(p, 0, 6);
    SplitWords(p, 0, 7);
  }

  lemma JefeInnerWords2(p: seq<byte>)
    requires |p| == 128
    requires p[32] == 0x36 && p[33] == 0x36 && p[34] == 0x36 && p[35] == 0x36 &&
      p[36] == 0x36 && p[37] == 0x36 && p[38] == 0x36 && p[39] == 0x36 &&
      p[40] == 0x36 && p[41] == 0x36 && p[42] == 0x36 && p[43] == 0x36 &&
      p[44] == 0x36 && p[45] == 0x36 && p[46] == 0x36 && p[47] == 0x36
    ensures var b := Split(p)[0].words;
      b[8] == 0x36363636 && b[9] == 0x36363636 && b[10] == 0x36363636 && b[11] == 0x36363636
  {
    SplitWords(p, 0, 8);
    SplitWords(p, 0, 9);
    SplitWords(p, 0, 10);
    SplitWords(p, 0, 11);
  }

  lemma JefeInnerWords3(p: seq<byte>)
    requires |p| == 128
    requires p[48] == 0x36 && p[49] == 0x36 && p[50] == 0x36 && p[51] == 0x36 &&
      p[52] == 0x36 && p[53] == 0x36 && p[54] == 0x36 && p[55] == 0x36 &&
      p[56] == 0x36 && p[57] == 0x36 && p[58] == 0x36 && p[59] == 0x36 &&
      p[60] == 0x36 && p[61] == 0x36 && p[62] == 0x36 && p[63] == 0x36
    ensures var b := Split(p)[0].words;
      b[12] == 0x36363636 && b[13] == 0x36363636 && b[14] == 0x36363636 && b[15] == 0x36363636
  {
    SplitWords(p, 0, 12);
    SplitWords(p, 0, 13);
    SplitWords(p, 0, 14);
    SplitWords(p, 0, 15);
  }

  lemma JefeInnerWords4(p: seq<byte>)
    requires |p| == 128
    requires p[64] == 0x77 && p[65] == 0x68 && p[66] == 0x61 && p[67] == 0x74 &&
      p[68] == 0x20 && p[69] == 0x64 && p[70] == 0x6F && p[71] == 0x20 &&
      p[72] == 0x79 && p[73] == 0x61 && p[74] == 0x20 && p[75] == 0x77 &&
      p[76] == 0x61 && p[77] == 0x6E && p[78] == 0x74 && p[79] == 0x20
    ensures var b := Split(p)[1].words;
      b[0] == 0x77686174 && b[1] == 0x20646F20 && b[2] == 0x79612077 && b[3] == 0x616E7420
  {
    SplitWords(p, 1, 0);
    SplitWords(p, 1, 1);
    SplitWords(p, 1, 2);
    SplitWords(p, 1, 3);
  }

  lemma JefeInnerWords5(p: seq<byte>)
    requires |p| == 128
    requires p[80] == 0x66 && p[81] == 0x6F && p[82] == 0x72 && p[83] == 0x20 &&
      p[84] == 0x6E && p[85] == 0x6F && p[86] == 0x74 && p[87] == 0x68 &&
      p[88] == 0x69 && p[89] == 0x6E && p[90] == 0x67 && p[91] == 0x3F &&
      p[92] == 0x80 && p[93] == 0x00 && p[94] == 0x00 && p[95] == 0x00
    ensures var b := Split(p)[1].words;
      b[4] == 0x666F7220 && b[5] == 0x6E6F7468 && b[6] == 0x696E673F && b[7] == 0x80000000
  {
    SplitWords(p, 1, 4);
    SplitWords(p, 1, 5);
    SplitWords(p, 1, 6);
    SplitWords(p, 1, 7);
  }

  lemma JefeInnerWords6(p: seq<byte>)
    requires |p| == 128
    requires p[96] == 0x00 && p[97] == 0x00 && p[98] == 0x00 && p[99] == 0x00 &&
      p[100] == 0x00 && p[101] == 0x00 && p[102] == 0x00 && p[103] == 0x00 &&
      p[104] == 0x00 && p[105] == 0x00 && p[106] == 0x00 && p[107] == 0x00 &&
      p[108] == 0x00 && p[109] == 0x00 && p[110] == 0x00 && p[111] == 0x00
    ensures var b := Split(p)[1].words;
      b[8] == 0x00000000 && b[9] == 0x00000000 && b[10] == 0x00000000 && b[11] == 0x00000000
  {
    SplitWords(p, 1, 8);
    SplitWords(p, 1, 9);
    SplitWords(p, 1, 10);
    SplitWords(p, 1, 11);
  }

  lemma JefeInnerWords7(p: seq<byte>)
    requires |p| == 128
    requires p[112] == 0x00 && p[113] == 0x00 && p[114] == 0x00 && p[115] == 0x00 &&
      p[116] == 0x00 && p[117] == 0x00 && p[118] == 0x00 && p[119] == 0x00 &&
      p[120] == 0x00 && p[121] == 0x00 && p[122] == 0x00 && p[123] == 0x00 &&
      p[124] == 0x00 && p[125] == 0x00 && p[126] == 0x02 && p[127] == 0xE0
    ensures var b := Split(p)[1].words;
      b[12] == 0x00000000 && b[13] == 0x00000000 && b[14] == 0x00000000 && b[15] == 0x000002E0
  {
    SplitWords(p, 1, 12);
    SplitWords(p, 1, 13);
    SplitWords(p, 1, 14);
    SplitWords(p, 1, 15);
  }

  lemma JefeInnerBlock0(p: seq<byte>)
    requires p == Sha1.Pad(InnerInput(JefeKey, JefeMessage))
    requires |p| == 128
    ensures var b := Split(p)[0].words;
      b[0] == 0x7C535053 && b[1] == 0x36363636 && b[2] == 0x36363636 && b[3] == 0x36363636 &&
      b[4] == 0x36363636 && b[5] == 0x36363636 && b[6] == 0x36363636 && b[7] == 0x36363636 &&
      b[8] == 0x36363636 && b[9] == 0x36363636 && b[10] == 0x36363636 && b[11] == 0x36363636 &&
      b[12] == 0x36363636 && b[13] == 0x36363636 && b[14] == 0x36363636 && b[15] == 0x36363636
  {
    JefeInnerBytes0(p);
    JefeInnerWords0(p);
    JefeInnerBytes1(p);
    JefeInnerWords1(p);
    JefeInnerBytes2(p);
    JefeInnerWords2(p);
    JefeInnerBytes3(p);
    JefeInnerWords3(p);
  }

  lemma JefeInnerBlock1(p: seq<byte>)
    requires p == Sha1.Pad(InnerInput(JefeKey, JefeMessage))
    requires |p| == 128
    ensures var b := Split(p)[1].words;
      b[0] == 0x77686174 && b[1] == 0x20646F20 && b[2] == 0x79612077 && b[3] == 0x616E7420 &&
      b[4] == 0x666F7220 && b[5] == 0x6E6F7468 && b[6] == 0x696E673F && b[7] == 0x80000000 &&
      b[8] == 0x00000000 && b[9] == 0x00000000 && b[10] == 0x00000000 && b[11] == 0x00000000 &&
      b[12] == 0x00000000 && b[13] == 0x00000000 && b[14] == 0x00000000 && b[15] == 0x000002E0
  {
    JefeInnerBytes4(p);
    JefeInnerWords4(p);
    JefeInnerBytes5(p);
    JefeInnerWords5(p);
    JefeInnerBytes6(p);
    JefeInnerWords6(p);
    JefeInnerBytes7(p);
    JefeInnerWords7(p);
  }

  lemma JefeInner0Schedule0(w: seq<word>)
    requires |w| == 80 && forall i :: 16 <= i < 80 ==> Follows(w, i)
    requires w[0] == 0x7C535053 && w[1] == 0x36363636 && w[2] == 0x36363636 && w[3] == 0x36363636 &&
      w[4] == 0x36363636 && w[5] == 0x36363636 && w[6] == 0x36363636 && w[7] == 0x36363636 &&
      w[8] == 0x36363636 && w[9] == 0x36363636 && w[10] == 0x36363636 && w[11] == 0x36363636 &&
      w[12] == 0x36363636 && w[13] == 0x36363636 && w[14] == 0x36363636 && w[15] == 0x36363636
    ensures w[16] == 0x94CACCCA && w[17] == 0x00000000 && w[18] == 0x00000000 && w[19] == 0x45F9F5F9 &&
      w[20] == 0x6C6C6C6C && w[21] == 0x6C6C6C6C && w[22] == 0xE79F879E && w[23] == 0xB4B4B4B4 &&
      w[24] == 0xF14D414D && w[25] == 0xCF3F0F3D && w[26] == 0x69696969 && w[27] == 0x69696969 &&
      w[28] == 0x46A6C6A3 && w[29] == 0x0A0A0A0A && w[30] == 0x58142816 && w[31] == 0x88488843
  {
    assert Follows(w, 16);
    assert Follows(w, 17);
    assert Follows(w, 18);
    assert Follows(w, 19);
    assert Follows(w, 20);
    assert Follows(w, 21);
    assert Follows(w, 22);
    assert Follows(w, 23);
    assert Follows(w, 24);
    assert Follows(w, 25);
    assert Follows(w, 26);
    assert Follows(w, 27);
    assert Follows(w, 28);
    assert Follows(w, 29);
    assert Follows(w, 30);
    assert Follows(w, 31);
  }

  lemma JefeInner0Schedule1(w: seq<word>)
    requires |w| == 80 && forall i :: 16 <= i < 80 ==> Follows(w, i)
    requires w[16] == 0x94CACCCA && w[17] == 0x00000000 && w[18] == 0x00000000 && w[19] == 0x45F9F5F9 &&
      w[20] == 0x6C6C6C6C && w[21] == 0x6C6C6C6C && w[22] == 0xE79F879E && w[23] == 0xB4B4B4B4 &&
      w[24] == 0xF14D414D && w[25] == 0xCF3F0F3D && w[26] == 0x69696969 && w[27] == 0x69696969 &&
      w[28] == 0x46A6C6A3 && w[29] == 0x0A0A0A0A && w[30] == 0x58142816 && w[31] == 0x88488843
    ensures w[32] == 0xDF1B0F1A && w[33] == 0xA5A5A5A5 && w[34] == 0x1A9B1A8D && w[35] == 0x3FCFFFCD &&
      w[36] == 0xD1E111E8 && w[37] == 0x909390BF && w[38] == 0xE2122210 && w[39] == 0x44444444 &&
      w[40] == 0xAF596F03 && w[41] == 0xC3C3C3C3 && w[42] == 0xE221E206 && w[43] == 0xE7EBE75B &&
      w[44] == 0x1920793C && w[45] == 0xE1E1E1E1 && w[46] == 0x05EDC48F && w[47] == 0xE112213C
  {
    assert Follows(w, 32);
    assert Follows(w, 33);
    assert Follows(w, 34);
    assert Follows(w, 35);
    assert Follows(w, 36);
    assert Follows(w, 37);
    assert Follows(w, 38);
    assert Follows(w, 39);
    assert Follows(w, 40);
    assert Follows(w, 41);
    assert Follows(w, 42);
    assert Follows(w, 43);
    assert Follows(w, 44);
    assert Follows(w, 45);
    assert Follows(w, 46);
    assert Follows(w, 47);
  }

  lemma JefeInner0Schedule2(w: seq<word>)
    requires |w| == 80 && forall i :: 16 <= i < 80 ==> Follows(w, i)
    requires w[32] == 0xDF1B0F1A && w[33] == 0xA5A5A5A5 && w[34] == 0x1A9B1A8D && w[35] == 0x3FCFFFCD &&
      w[36] == 0xD1E111E8 && w[37] == 0x909390BF && w[38] == 0xE2122210 && w[39] == 0x44444444 &&
      w[40] == 0xAF596F03 && w[41] == 0xC3C3C3C3 && w[42] == 0xE221E206 && w[43] == 0xE7EBE75B &&
      w[44] == 0x1920793C && w[45] == 0xE1E1E1E1 && w[46] == 0x05EDC48F && w[47] == 0xE112213C
    ensures w[48] == 0x167136EB && w[49] == 0xB888BA48 && w[50] == 0x909390BF && w[51] == 0xBD8D7D84 &&
      w[52] == 0x24B7E119 && w[53] == 0x4B4B4B4B && w[54] == 0xEA57E831 && w[55] == 0x84448F44 &&
      w[56] == 0x2085E14A && w[57] == 0xEDEEEDC2 && w[58] == 0xDFAD0983 && w[59] == 0x360534E9 &&
      w[60] == 0xAB2962D1 && w[61] == 0x282B042B && w[62] == 0x9F9C5D79 && w[63] == 0xEDEEEDC2
  {
    assert Follows(w, 48);
    assert Follows(w, 49);
    assert Follows(w, 50);
    assert Follows(w, 51);
    assert Follows(w, 52);
    assert Follows(w, 53);
    assert Follows(w, 54);
    assert Follows(w, 55);
    assert Follows(w, 56);
    assert Follows(w, 57);
    assert Follows(w, 58);
    assert Follows(w, 59);
    assert Follows(w, 60);
    assert Follows(w, 61);
    assert Follows(w, 62);
    assert Follows(w, 63);
  }

  lemma JefeInner0Schedule3(w: seq<word>)
    requires |w| == 80 && forall i :: 16 <= i < 80 ==> Follows(w, i)
    requires w[48] == 0x167136EB && w[49] == 0xB888BA48 && w[50] == 0x909390BF && w[51] == 0xBD8D7D84 &&
      w[52] == 0x24B7E119 && w[53] == 0x4B4B4B4B && w[54] == 0xEA57E831 && w[55] == 0x84448F44 &&
      w[56] == 0x2085E14A && w[57] == 0xEDEEEDC2 && w[58] == 0xDFAD0983 && w[59] == 0x360534E9 &&
      w[60] == 0xAB2962D1 && w[61] == 0x282B042B && w[62] == 0x9F9C5D79 && w[63] == 0xEDEEEDC2
    ensures w[64] == 0x1C98866B && w[65] == 0xEEEEEEEE && w[66] == 0x0CCF2BCF && w[67] == 0xB8B7089B &&
      w[68] == 0x164F0A2F && w[69] == 0xD7D7D7D7 && w[70] == 0xDBF2B933 && w[71] == 0x24170AD7 &&
      w[72] == 0x68CF72EA && w[73] == 0xDDEF1DED && w[74] == 0xB8B89494 && w[75] == 0x9CAC9567 &&
      w[76] == 0xFE2A50D5 && w[77] == 0x55555555 && w[78] == 0x88B5EE8D && w[79] == 0xB27AB25D
  {
    assert Follows(w, 64);
    assert Follows(w, 65);
    assert Follows(w, 66);
    assert Follows(w, 67);
    assert Follows(w, 68);
    assert Follows(w, 69);
    assert Follows(w, 70);
    assert Follows(w, 71);
    assert Follows(w, 72);
    assert Follows(w, 73);
    assert Follows(w, 74);
    assert Follows(w, 75);
    assert Follows(w, 76);
    assert Follows(w, 77);
    assert Follows(w, 78);
    assert Follows(w, 79);
  }

  lemma JefeInner0Rounds0(w: seq<word>)
    requires |w| == 80
    requires w[0] == 0x7C535053 && w[1] == 0x36363636 && w[2] == 0x36363636 && w[3] == 0x36363636 &&
      w[4] == 0x36363636 && w[5] == 0x36363636 && w[6] == 0x36363636 && w[7] == 0x36363636 &&
      w[8] == 0x36363636 && w[9] == 0x36363636 && w[10] == 0x36363636 && w[11] == 0x36363636 &&
      w[12] == 0x36363636 && w[13] == 0x36363636 && w[14] == 0x36363636 && w[15] == 0x36363636 &&
      w[16] == 0x94CACCCA && w[17] == 0x00000000 && w[18] == 0x00000000 && w[19] == 0x45F9F5F9
    requires Compress(IV, w, 0) == Regs(0x67452301, 0xEFCDAB89, 0x98BADCFE, 0x10325476, 0xC3D2E1F0)
    ensures Compress(IV, w, 20) == Regs(0x96FF8DED, 0x097C79C0, 0x0A8020DB, 0x75ABDE8D, 0x9B0C05A4)
  {
    assert Round(Regs(0x67452301, 0xEFCDAB89, 0x98BADCFE, 0x10325476, 0xC3D2E1F0), 0x7C535053, 0) == Regs(0x1C07E906, 0x67452301, 0x7BF36AE2, 0x98BADCFE, 0x10325476);
    assert Compress(IV, w, 1) == Regs(0x1C07E906, 0x67452301, 0x7BF36AE2, 0x98BADCFE, 0x10325476);
    assert Round(Regs(0x1C07E906, 0x67452301, 0x7BF36AE2, 0x98BADCFE, 0x10325476), 0x36363636, 1) == Regs(0x1DE42406, 0x1C07E906, 0x59D148C0, 0x7BF36AE2, 0x98BADCFE);
    assert Compress(IV, w, 2) == Regs(0x1DE42406, 0x1C07E906, 0x59D148C0, 0x7BF36AE2, 0x98BADCFE);
    assert Round(Regs(0x1DE42406, 0x1C07E906, 0x59D148C0, 0x7BF36AE2, 0x98BADCFE), 0x36363636, 2) == Regs(0x61E95870, 0x1DE42406, 0x8701FA41, 0x59D148C0, 0x7BF36AE2);
    assert Compress(IV, w, 3) == Regs(0x61E95870, 0x1DE42406, 0x8701FA41, 0x59D148C0, 0x7BF36AE2);
    assert Round(Regs(0x61E95870, 0x1DE42406, 0x8701FA41, 0x59D148C0, 0x7BF36AE2), 0x36363636, 3) == Regs(0x8EE8917D, 0x61E95870, 0x87790901, 0x8701FA41, 0x59D148C0);
    assert Compress(IV, w, 4) == Regs(0x8EE8917D, 0x61E95870, 0x87790901, 0x8701FA41, 0x59D148C0);
    assert Round(Regs(0x8EE8917D, 0x61E95870, 0x87790901, 0x8701FA41, 0x59D148C0), 0x36363636, 4) == Regs(0x4F05D241, 0x8EE8917D, 0x187A561C, 0x87790901, 0x8701FA41);
    assert Compress(IV, w, 5) == Regs(0x4F05D241, 0x8EE8917D, 0x187A561C, 0x87790901, 0x8701FA41);
    assert Round(Regs(0x4F05D241, 0x8EE8917D, 0x187A561C, 0x87790901, 0x8701FA41), 0x36363636, 5) == Regs(0x01EE0A55, 0x4F05D241, 0x63BA245F, 0x187A561C, 0x87790901);
    assert Compress(IV, w, 6) == Regs(0x01EE0A55, 0x4F05D241, 0x63BA245F, 0x187A561C, 0x87790901);
    assert Round(Regs(0x01EE0A55, 0x4F05D241, 0x63BA245F, 0x187A561C, 0x87790901), 0x36363636, 6) == Regs(0xA96D07CD, 0x01EE0A55, 0x53C17490, 0x63BA245F, 0x187A561C);
    assert Compress(IV, w, 7) == Regs(0xA96D07CD, 0x01EE0A55, 0x53C17490, 0x63BA245F, 0x187A561C);
    assert Round(Regs(0xA96D07CD, 0x01EE0A55, 0x53C17490, 0x63BA245F, 0x187A561C), 0x36363636, 7) == Regs(0x3AA423BA, 0xA96D07CD, 0x407B8295, 0x53C17490, 0x63BA245F);
    assert Compress(IV, w, 8) == Regs(0x3AA423BA, 0xA96D07CD, 0x407B8295, 0x53C17490, 0x63BA245F);
    assert Round(Regs(0x3AA423BA, 0xA96D07CD, 0x407B8295, 0x53C17490, 0x63BA245F), 0x36363636, 8) == Regs(0x9BE0BE0A, 0x3AA423BA, 0x6A5B41F3, 0x407B8295, 0x53C17490);
    assert Compress(IV, w, 9) == Regs(0x9BE0BE0A, 0x3AA423BA, 0x6A5B41F3, 0x407B8295, 0x53C17490);
    assert Round(Regs(0x9BE0BE0A, 0x3AA423BA, 0x6A5B41F3, 0x407B8295, 0x53C17490), 0x36363636, 9) == Regs(0xCAED6769, 0x9BE0BE0A, 0x8EA908EE, 0x6A5B41F3, 0x407B8295);
    assert Compress(IV, w, 10) == Regs(0xCAED6769, 0x9BE0BE0A, 0x8EA908EE, 0x6A5B41F3, 0x407B8295);
    assert Round(Regs(0xCAED6769, 0x9BE0BE0A, 0x8EA908EE, 0x6A5B41F3, 0x407B8295), 0x36363636, 10) == Regs(0x199C6998, 0xCAED6769, 0xA6F82F82, 0x8EA908EE, 0x6A5B41F3);
    assert Compress(IV, w, 11) == Regs(0x199C6998, 0xCAED6769, 0xA6F82F82, 0x8EA908EE, 0x6A5B41F3);
    assert Round(Regs(0x199C6998, 0xCAED6769, 0xA6F82F82, 0x8EA908EE, 0x6A5B41F3), 0x36363636, 11) == Regs(0xB589544B, 0x199C6998, 0x72BB59DA, 0xA6F82F82, 0x8EA908EE);
    assert Compress(IV, w, 12) == Regs(0xB589544B, 0x199C6998, 0x72BB59DA, 0xA6F82F82, 0x8EA908EE);
    assert Round(Regs(0xB589544B, 0x199C6998, 0x72BB59DA, 0xA6F82F82, 0x8EA908EE), 0x36363636, 12) == Regs(0x878491CD, 0xB589544B, 0x06671A66, 0x72BB59DA, 0xA6F82F82);
    assert Compress(IV, w, 13) == Regs(0x878491CD, 0xB589544B, 0x06671A66, 0x72BB59DA, 0xA6F82F82);
    assert Round(Regs(0x878491CD, 0xB589544B, 0x06671A66, 0x72BB59DA, 0xA6F82F82), 0x36363636, 13) == Regs(0x6E7632D3, 0x878491CD, 0xED625512, 0x06671A66, 0x72BB59DA);
    assert Compress(IV, w, 14) == Regs(0x6E7632D3, 0x878491CD, 0xED625512, 0x06671A66, 0x72BB59DA);
    assert Round(Regs(0x6E7632D3, 0x878491CD, 0xED625512, 0x06671A66, 0x72BB59DA), 0x36363636, 14) == Regs(0x579D7F38, 0x6E7632D3, 0x61E12473, 0xED625512, 0x06671A66);
    assert Compress(IV, w, 15) == Regs(0x579D7F38, 0x6E7632D3, 0x61E12473, 0xED625512, 0x06671A66);
    assert Round(Regs(0x579D7F38, 0x6E7632D3, 0x61E12473, 0xED625512, 0x06671A66), 0x36363636, 15) == Regs(0x6C301692, 0x579D7F38, 0xDB9D8CB4, 0x61E12473, 0xED625512);
    assert Compress(IV, w, 16) == Regs(0x6C301692, 0x579D7F38, 0xDB9D8CB4, 0x61E12473, 0xED625512);
    assert Round(Regs(0x6C301692, 0x579D7F38, 0xDB9D8CB4, 0x61E12473, 0xED625512), 0x94CACCCA, 16) == Regs(0xD6AF7A35, 0x6C301692, 0x15E75FCE, 0xDB9D8CB4, 0x61E12473);
    assert Compress(IV, w, 17) == Regs(0xD6AF7A35, 0x6C301692, 0x15E75FCE, 0xDB9D8CB4, 0x61E12473);
    assert Round(Regs(0xD6AF7A35, 0x6C301692, 0x15E75FCE, 0xDB9D8CB4, 0x61E12473), 0x00000000, 17) == Regs(0x2A00836C, 0xD6AF7A35, 0x9B0C05A4, 0x15E75FCE, 0xDB9D8CB4);
    assert Compress(IV, w, 18) == Regs(0x2A00836C, 0xD6AF7A35, 0x9B0C05A4, 0x15E75FCE, 0xDB9D8CB4);
    assert Round(Regs(0x2A00836C, 0xD6AF7A35, 0x9B0C05A4, 0x15E75FCE, 0xDB9D8CB4), 0x00000000, 18) == Regs(0x097C79C0, 0x2A00836C, 0x75ABDE8D, 0x9B0C05A4, 0x15E75FCE);
    assert Compress(IV, w, 19) == Regs(0x097C79C0, 0x2A00836C, 0x75ABDE8D, 0x9B0C05A4, 0x15E75FCE);
    assert Round(Regs(0x097C79C0, 0x2A00836C, 0x75ABDE8D, 0x9B0C05A4, 0x15E75FCE), 0x45F9F5F9, 19) == Regs(0x96FF8DED, 0x097C79C0, 0x0A8020DB, 0x75ABDE8D, 0x9B0C05A4);
    assert Compress(IV, w, 20) == Regs(0x96FF8DED, 0x097C79C0, 0x0A8020DB, 0x75ABDE8D, 0x9B0C05A4);
  }

  lemma JefeInner0Rounds1(w: seq<word>)
    requires |w| == 80
    requires w[20] == 0x6C6C6C6C && w[21] == 0x6C6C6C6C && w[22] == 0xE79F879E && w[23] == 0xB4B4B4B4 &&
      w[24] == 0xF14D414D && w[25] == 0xCF3F0F3D && w[26] == 0x69696969 && w[27] == 0x69696969 &&
      w[28] == 0x46A6C6A3 && w[29] == 0x0A0A0A0A && w[30] == 0x58142816 && w[31] == 0x88488843 &&
      w[32] == 0xDF1B0F1A && w[33] == 0xA5A5A5A5 && w[34] == 0x1A9B1A8D && w[35] == 0x3FCFFFCD &&
      w[36] == 0xD1E111E8 && w[37] == 0x909390BF && w[38] == 0xE2122210 && w[39] == 0x44444444
    requires Compress(IV, w, 20) == Regs(0x96FF8DED, 0x097C79C0, 0x0A8020DB, 0x75ABDE8D, 0x9B0C05A4)
    ensures Compress(IV, w, 40) == Regs(0x36C3694D, 0x0F5C8001, 0xE34F33C4, 0x35D0C1B0, 0xD39EF5A7)
  {
    assert Round(Regs(0x96FF8DED, 0x097C79C0, 0x0A8020DB, 0x75ABDE8D, 0x9B0C05A4), 0x6C6C6C6C, 20) == Regs(0xCC9BA2F9, 0x96FF8DED, 0x025F1E70, 0x0A8020DB, 0x75ABDE8D);
    assert Compress(IV, w, 21) == Regs(0xCC9BA2F9, 0x96FF8DED, 0x025F1E70, 0x0A8020DB, 0x75ABDE8D);
    assert Round(Regs(0xCC9BA2F9, 0x96FF8DED, 0x025F1E70, 0x0A8020DB, 0x75ABDE8D), 0x6C6C6C6C, 21) == Regs(0x82874919, 0xCC9BA2F9, 0x65BFE37B, 0x025F1E70, 0x0A8020DB);
    assert Compress(IV, w, 22) == Regs(0x82874919, 0xCC9BA2F9, 0x65BFE37B, 0x025F1E70, 0x0A8020DB);
    assert Round(Regs(0x82874919, 0xCC9BA2F9, 0x65BFE37B, 0x025F1E70, 0x0A8020DB), 0xE79F879E, 22) == Regs(0x5D5E173C, 0x82874919, 0x7326E8BE, 0x65BFE37B, 0x025F1E70);
    assert Compress(IV, w, 23) == Regs(0x5D5E173C, 0x82874919, 0x7326E8BE, 0x65BFE37B, 0x025F1E70);
    assert Round(Regs(0x5D5E173C, 0x82874919, 0x7326E8BE, 0x65BFE37B, 0x025F1E70), 0xB4B4B4B4, 23) == Regs(0x65CEE92C, 0x5D5E173C, 0x60A1D246, 0x7326E8BE, 0x65BFE37B);
    assert Compress(IV, w, 24) == Regs(0x65CEE92C, 0x5D5E173C, 0x60A1D246, 0x7326E8BE, 0x65BFE37B);
    assert Round(Regs(0x65CEE92C, 0x5D5E173C, 0x60A1D246, 0x7326E8BE, 0x65BFE37B), 0xF14D414D, 24) == Regs(0xCE9D63B9, 0x65CEE92C, 0x175785CF, 0x60A1D246, 0x7326E8BE);
    assert Compress(IV, w, 25) == Regs(0xCE9D63B9, 0x65CEE92C, 0x175785CF, 0x60A1D246, 0x7326E8BE);
    assert Round(Regs(0xCE9D63B9, 0x65CEE92C, 0x175785CF, 0x60A1D246, 0x7326E8BE), 0xCF3F0F3D, 25) == Regs(0x9725197A, 0xCE9D63B9, 0x1973BA4B, 0x175785CF, 0x60A1D246);
    assert Compress(IV, w, 26) == Regs(0x9725197A, 0xCE9D63B9, 0x1973BA4B, 0x175785CF, 0x60A1D246);
    assert Round(Regs(0x9725197A, 0xCE9D63B9, 0x1973BA4B, 0x175785CF, 0x60A1D246), 0x69696969, 26) == Regs(0xDE41B2DF, 0x9725197A, 0x73A758EE, 0x1973BA4B, 0x175785CF);
    assert Compress(IV, w, 27) == Regs(0xDE41B2DF, 0x9725197A, 0x73A758EE, 0x1973BA4B, 0x175785CF);
    assert Round(Regs(0xDE41B2DF, 0x9725197A, 0x73A758EE, 0x1973BA4B, 0x175785CF), 0x69696969, 27) == Regs(0xB5C332B3, 0xDE41B2DF, 0xA5C9465E, 0x73A758EE, 0x1973BA4B);
    assert Compress(IV, w, 28) == Regs(0xB5C332B3, 0xDE41B2DF, 0xA5C9465E, 0x73A758EE, 0x1973BA4B);
    assert Round(Regs(0xB5C332B3, 0xDE41B2DF, 0xA5C9465E, 0x73A758EE, 0x1973BA4B), 0x46A6C6A3, 28) == Regs(0x8F8A6F74, 0xB5C332B3, 0xF7906CB7, 0xA5C9465E, 0x73A758EE);
    assert Compress(IV, w, 29) == Regs(0x8F8A6F74, 0xB5C332B3, 0xF7906CB7, 0xA5C9465E, 0x73A758EE);
    assert Round(Regs(0x8F8A6F74, 0xB5C332B3, 0xF7906CB7, 0xA5C9465E, 0x73A758EE), 0x0A0A0A0A, 29) == Regs(0xC5735584, 0x8F8A6F74, 0xED70CCAC, 0xF7906CB7, 0xA5C9465E);
    assert Compress(IV, w, 30) == Regs(0xC5735584, 0x8F8A6F74, 0xED70CCAC, 0xF7906CB7, 0xA5C9465E);
    assert Round(Regs(0xC5735584, 0x8F8A6F74, 0xED70CCAC, 0xF7906CB7, 0xA5C9465E), 0x58142816, 30) == Regs(0xB08CDA1C, 0xC5735584, 0x23E29BDD, 0xED70CCAC, 0xF7906CB7);
    assert Compress(IV, w, 31) == Regs(0xB08CDA1C, 0xC5735584, 0x23E29BDD, 0xED70CCAC, 0xF7906CB7);
    assert Round(Regs(0xB08CDA1C, 0xC5735584, 0x23E29BDD, 0xED70CCAC, 0xF7906CB7), 0x88488843, 31) == Regs(0x0C2F2726, 0xB08CDA1C, 0x315CD561, 0x23E29BDD, 0xED70CCAC);
    assert Compress(IV, w, 32) == Regs(0x0C2F2726, 0xB08CDA1C, 0x315CD561, 0x23E29BDD, 0xED70CCAC);
    assert Round(Regs(0x0C2F2726, 0xB08CDA1C, 0x315CD561, 0x23E29BDD, 0xED70CCAC), 0xDF1B0F1A, 32) == Regs(0x637D40C8, 0x0C2F2726, 0x2C233687, 0x315CD561, 0x23E29BDD);
    assert Compress(IV, w, 33) == Regs(0x637D40C8, 0x0C2F2726, 0x2C233687, 0x315CD561, 0x23E29BDD);
    assert Round(Regs(0x637D40C8, 0x0C2F2726, 0x2C233687, 0x315CD561, 0x23E29BDD), 0xA5A5A5A5, 33) == Regs(0xB95B0AEF, 0x637D40C8, 0x830BC9C9, 0x2C233687, 0x315CD561);
    assert Compress(IV, w, 34) == Regs(0xB95B0AEF, 0x637D40C8, 0x830BC9C9, 0x2C233687, 0x315CD561);
    assert Round(Regs(0xB95B0AEF, 0x637D40C8, 0x830BC9C9, 0x2C233687, 0x315CD561), 0x1A9B1A8D, 34) == Regs(0xB288F90C, 0xB95B0AEF, 0x18DF5032, 0x830BC9C9, 0x2C233687);
    assert Compress(IV, w, 35) == Regs(0xB288F90C, 0xB95B0AEF, 0x18DF5032, 0x830BC9C9, 0x2C233687);
    assert Round(Regs(0xB288F90C, 0xB95B0AEF, 0x18DF5032, 0x830BC9C9, 0x2C233687), 0x3FCFFFCD, 35) == Regs(0x4E7BD69F, 0xB288F90C, 0xEE56C2BB, 0x18DF5032, 0x830BC9C9);
    assert Compress(IV, w, 36) == Regs(0x4E7BD69F, 0xB288F90C, 0xEE56C2BB, 0x18DF5032, 0x830BC9C9);
    assert Round(Regs(0x4E7BD69F, 0xB288F90C, 0xEE56C2BB, 0x18DF5032, 0x830BC9C9), 0xD1E111E8, 36) == Regs(0xD74306C0, 0x4E7BD69F, 0x2CA23E43, 0xEE56C2BB, 0x18DF5032);
    assert Compress(IV, w, 37) == Regs(0xD74306C0, 0x4E7BD69F, 0x2CA23E43, 0xEE56C2BB, 0x18DF5032);
    assert Round(Regs(0xD74306C0, 0x4E7BD69F, 0x2CA23E43, 0xEE56C2BB, 0x18DF5032), 0x909390BF, 37) == Regs(0x8D3CCF13, 0xD74306C0, 0xD39EF5A7, 0x2CA23E43, 0xEE56C2BB);
    assert Compress(IV, w, 38) == Regs(0x8D3CCF13, 0xD74306C0, 0xD39EF5A7, 0x2CA23E43, 0xEE56C2BB);
    assert Round(Regs(0x8D3CCF13, 0xD74306C0, 0xD39EF5A7, 0x2CA23E43, 0xEE56C2BB), 0xE2122210, 38) == Regs(0x0F5C8001, 0x8D3CCF13, 0x35D0C1B0, 0xD39EF5A7, 0x2CA23E43);
    assert Compress(IV, w, 39) == Regs(0x0F5C8001, 0x8D3CCF13, 0x35D0C1B0, 0xD39EF5A7, 0x2CA23E43);
    assert Round(Regs(0x0F5C8001, 0x8D3CCF13, 0x35D0C1B0, 0xD39EF5A7, 0x2CA23E43), 0x44444444, 39) == Regs(0x36C3694D, 0x0F5C8001, 0xE34F33C4, 0x35D0C1B0, 0xD39EF5A7);
    assert Compress(IV, w, 40) == Regs(0x36C3694D, 0x0F5C8001, 0xE34F33C4, 0x35D0C1B0, 0xD39EF5A7);
  }

  lemma JefeInner0Rounds2(w: seq<word>)
    requires |w| == 80
    requires w[40] == 0xAF596F03 && w[41] == 0xC3C3C3C3 && w[42] == 0xE221E206 && w[43] == 0xE7EBE75B &&
      w[44] == 0x1920793C && w[45] == 0xE1E1E1E1 && w[46] == 0x05EDC48F && w[47] == 0xE112213C &&
      w[48] == 0x167136EB && w[49] == 0xB888BA48 && w[50] == 0x909390BF && w[51] == 0xBD8D7D84 &&
      w[52] == 0x24B7E119 && w[53] == 0x4B4B4B4B && w[54] == 0xEA57E831 && w[55] == 0x84448F44 &&
      w[56] == 0x2085E14A && w[57] == 0xEDEEEDC2 && w[58] == 0xDFAD0983 && w[59] == 0x360534E9
    requires Compress(IV, w, 40) == Regs(0x36C3694D, 0x0F5C8001, 0xE34F33C4, 0x35D0C1B0, 0xD39EF5A7)
    ensures Compress(IV, w, 60) == Regs(0x2B413EDA, 0xE5108B54, 0x9C410993, 0x7D7E1887, 0x10BE1FEC)
  {
    assert Round(Regs(0x36C3694D, 0x0F5C8001, 0xE34F33C4, 0x35D0C1B0, 0xD39EF5A7), 0xAF596F03, 40) == Regs(0x11DDCCAC, 0x36C3694D, 0x43D72000, 0xE34F33C4, 0x35D0C1B0);
    assert Compress(IV, w, 41) == Regs(0x11DDCCAC, 0x36C3694D, 0x43D72000, 0xE34F33C4, 0x35D0C1B0);
    assert Round(Regs(0x11DDCCAC, 0x36C3694D, 0x43D72000, 0xE34F33C4, 0x35D0C1B0), 0xC3C3C3C3, 41) == Regs(0x2830F915, 0x11DDCCAC, 0x4DB0DA53, 0x43D72000, 0xE34F33C4);
    assert Compress(IV, w, 42) == Regs(0x2830F915, 0x11DDCCAC, 0x4DB0DA53, 0x43D72000, 0xE34F33C4);
    assert Round(Regs(0x2830F915, 0x11DDCCAC, 0x4DB0DA53, 0x43D72000, 0xE34F33C4), 0xE221E206, 42) == Regs(0x9C81BD4B, 0x2830F915, 0x0477732B, 0x4DB0DA53, 0x43D72000);
    assert Compress(IV, w, 43) == Regs(0x9C81BD4B, 0x2830F915, 0x0477732B, 0x4DB0DA53, 0x43D72000);
    assert Round(Regs(0x9C81BD4B, 0x2830F915, 0x0477732B, 0x4DB0DA53, 0x43D72000), 0xE7EBE75B, 43) == Regs(0x574768BD, 0x9C81BD4B, 0x4A0C3E45, 0x0477732B, 0x4DB0DA53);
    assert Compress(IV, w, 44) == Regs(0x574768BD, 0x9C81BD4B, 0x4A0C3E45, 0x0477732B, 0x4DB0DA53);
    assert Round(Regs(0x574768BD, 0x9C81BD4B, 0x4A0C3E45, 0x0477732B, 0x4DB0DA53), 0x1920793C, 44) == Regs(0xEADF6760, 0x574768BD, 0xE7206F52, 0x4A0C3E45, 0x0477732B);
    assert Compress(IV, w, 45) == Regs(0xEADF6760, 0x574768BD, 0xE7206F52, 0x4A0C3E45, 0x0477732B);
    assert Round(Regs(0xEADF6760, 0x574768BD, 0xE7206F52, 0x4A0C3E45, 0x0477732B), 0xE1E1E1E1, 45) == Regs(0x18666C5A, 0xEADF6760, 0x55D1DA2F, 0xE7206F52, 0x4A0C3E45);
    assert Compress(IV, w, 46) == Regs(0x18666C5A, 0xEADF6760, 0x55D1DA2F, 0xE7206F52, 0x4A0C3E45);
    assert Round(Regs(0x18666C5A, 0xEADF6760, 0x55D1DA2F, 0xE7206F52, 0x4A0C3E45), 0x05EDC48F, 46) == Regs(0xD3B4BA55, 0x18666C5A, 0x3AB7D9D8, 0x55D1DA2F, 0xE7206F52);
    assert Compress(IV, w, 47) == Regs(0xD3B4BA55, 0x18666C5A, 0x3AB7D9D8, 0x55D1DA2F, 0xE7206F52);
    assert Round(Regs(0xD3B4BA55, 0x18666C5A, 0x3AB7D9D8, 0x55D1DA2F, 0xE7206F52), 0xE112213C, 47) == Regs(0xE6DD707E, 0xD3B4BA55, 0x86199B16, 0x3AB7D9D8, 0x55D1DA2F);
    assert Compress(IV, w, 48) == Regs(0xE6DD707E, 0xD3B4BA55, 0x86199B16, 0x3AB7D9D8, 0x55D1DA2F);
    assert Round(Regs(0xE6DD707E, 0xD3B4BA55, 0x86199B16, 0x3AB7D9D8, 0x55D1DA2F), 0x167136EB, 48) == Regs(0x69C27926, 0xE6DD707E, 0x74ED2E95, 0x86199B16, 0x3AB7D9D8);
    assert Compress(IV, w, 49) == Regs(0x69C27926, 0xE6DD707E, 0x74ED2E95, 0x86199B16, 0x3AB7D9D8);
    assert Round(Regs(0x69C27926, 0xE6DD707E, 0x74ED2E95, 0x86199B16, 0x3AB7D9D8), 0xB888BA48, 49) == Regs(0xA188AFDF, 0x69C27926, 0xB9B75C1F, 0x74ED2E95, 0x86199B16);
    assert Compress(IV, w, 50) == Regs(0xA188AFDF, 0x69C27926, 0xB9B75C1F, 0x74ED2E95, 0x86199B16);
    assert Round(Regs(0xA188AFDF, 0x69C27926, 0xB9B75C1F, 0x74ED2E95, 0x86199B16), 0x909390BF, 50) == Regs(0x50C660BC, 0xA188AFDF, 0x9A709E49, 0xB9B75C1F, 0x74ED2E95);
    assert Compress(IV, w, 51) == Regs(0x50C660BC, 0xA188AFDF, 0x9A709E49, 0xB9B75C1F, 0x74ED2E95);
    assert Round(Regs(0x50C660BC, 0xA188AFDF, 0x9A709E49, 0xB9B75C1F, 0x74ED2E95), 0xBD8D7D84, 51) == Regs(0x94131EDE, 0x50C660BC, 0xE8622BF7, 0x9A709E49, 0xB9B75C1F);
    assert Compress(IV, w, 52) == Regs(0x94131EDE, 0x50C660BC, 0xE8622BF7, 0x9A709E49, 0xB9B75C1F);
    assert Round(Regs(0x94131EDE, 0x50C660BC, 0xE8622BF7, 0x9A709E49, 0xB9B75C1F), 0x24B7E119, 52) == Regs(0xC85100E3, 0x94131EDE, 0x1431982F, 0xE8622BF7, 0x9A709E49);
    assert Compress(IV, w, 53) == Regs(0xC85100E3, 0x94131EDE, 0x1431982F, 0xE8622BF7, 0x9A709E49);
    assert Round(Regs(0xC85100E3, 0x94131EDE, 0x1431982F, 0xE8622BF7, 0x9A709E49), 0x4B4B4B4B, 53) == Regs(0x132ADDE8, 0xC85100E3, 0xA504C7B7, 0x1431982F, 0xE8622BF7);
    assert Compress(IV, w, 54) == Regs(0x132ADDE8, 0xC85100E3, 0xA504C7B7, 0x1431982F, 0xE8622BF7);
    assert Round(Regs(0x132ADDE8, 0xC85100E3, 0xA504C7B7, 0x1431982F, 0xE8622BF7), 0xEA57E831, 54) == Regs(0x4B430EAD, 0x132ADDE8, 0xF2144038, 0xA504C7B7, 0x1431982F);
    assert Compress(IV, w, 55) == Regs(0x4B430EAD, 0x132ADDE8, 0xF2144038, 0xA504C7B7, 0x1431982F);
    assert Round(Regs(0x4B430EAD, 0x132ADDE8, 0xF2144038, 0xA504C7B7, 0x1431982F), 0x84448F44, 55) == Regs(0x42F87FB0, 0x4B430EAD, 0x04CAB77A, 0xF2144038, 0xA504C7B7);
    assert Compress(IV, w, 56) == Regs(0x42F87FB0, 0x4B430EAD, 0x04CAB77A, 0xF2144038, 0xA504C7B7);
    assert Round(Regs(0x42F87FB0, 0x4B430EAD, 0x04CAB77A, 0xF2144038, 0xA504C7B7), 0x2085E14A, 56) == Regs(0xF5F8621D, 0x42F87FB0, 0x52D0C3AB, 0x04CAB77A, 0xF2144038);
    assert Compress(IV, w, 57) == Regs(0xF5F8621D, 0x42F87FB0, 0x52D0C3AB, 0x04CAB77A, 0xF2144038);
    assert Round(Regs(0xF5F8621D, 0x42F87FB0, 0x52D0C3AB, 0x04CAB77A, 0xF2144038), 0xEDEEEDC2, 57) == Regs(0x7104264E, 0xF5F8621D, 0x10BE1FEC, 0x52D0C3AB, 0x04CAB77A);
    assert Compress(IV, w, 58) == Regs(0x7104264E, 0xF5F8621D, 0x10BE1FEC, 0x52D0C3AB, 0x04CAB77A);
    assert Round(Regs(0x7104264E, 0xF5F8621D, 0x10BE1FEC, 0x52D0C3AB, 0x04CAB77A), 0xDFAD0983, 58) == Regs(0xE5108B54, 0x7104264E, 0x7D7E1887, 0x10BE1FEC, 0x52D0C3AB);
    assert Compress(IV, w, 59) == Regs(0xE5108B54, 0x7104264E, 0x7D7E1887, 0x10BE1FEC, 0x52D0C3AB);
    assert Round(Regs(0xE5108B54, 0x7104264E, 0x7D7E1887, 0x10BE1FEC, 0x52D0C3AB), 0x360534E9, 59) == Regs(0x2B413EDA, 0xE5108B54, 0x9C410993, 0x7D7E1887, 0x10BE1FEC);
    assert Compress(IV, w, 60) == Regs(0x2B413EDA, 0xE5108B54, 0x9C410993, 0x7D7E1887, 0x10BE1FEC);
  }

  lemma JefeInner0Rounds3(w: seq<word>)
    requires |w| == 80
    requires w[60] == 0xAB2962D1 && w[61] == 0x282B042B && w[62] == 0x9F9C5D79 && w[63] == 0xEDEEEDC2 &&
      w[64] == 0x1C98866B && w[65] == 0xEEEEEEEE && w[66] == 0x0CCF2BCF && w[67] == 0xB8B7089B &&
      w[68] == 0x164F0A2F && w[69] == 0xD7D7D7D7 && w[70] == 0xDBF2B933 && w[71] == 0x24170AD7 &&
      w[72] == 0x68CF72EA && w[73] == 0xDDEF1DED && w[74] == 0xB8B89494 && w[75] == 0x9CAC9567 &&
      w[76] == 0xFE2A50D5 && w[77] == 0x55555555 && w[78] == 0x88B5EE8D && w[79] == 0xB27AB25D
    requires Compress(IV, w, 60) == Regs(0x2B413EDA, 0xE5108B54, 0x9C410993, 0x7D7E1887, 0x10BE1FEC)
    ensures Compress(IV, w, 80) == Regs(0xFB086BA6, 0x4F5D6C7A, 0xFC99DCE6, 0x188E117F, 0xE629D79E)
  {
    assert Round(Regs(0x2B413EDA, 0xE5108B54, 0x9C410993, 0x7D7E1887, 0x10BE1FEC), 0xAB2962D1, 60) == Regs(0xF2A1BA18, 0x2B413EDA, 0x394422D5, 0x9C410993, 0x7D7E1887);
    assert Compress(IV, w, 61) == Regs(0xF2A1BA18, 0x2B413EDA, 0x394422D5, 0x9C410993, 0x7D7E1887);
    assert Round(Regs(0xF2A1BA18, 0x2B413EDA, 0x394422D5, 0x9C410993, 0x7D7E1887), 0x282B042B, 61) == Regs(0x52873742, 0xF2A1BA18, 0x8AD04FB6, 0x394422D5, 0x9C410993);
    assert Compress(IV, w, 62) == Regs(0x52873742, 0xF2A1BA18, 0x8AD04FB6, 0x394422D5, 0x9C410993);
    assert Round(Regs(0x52873742, 0xF2A1BA18, 0x8AD04FB6, 0x394422D5, 0x9C410993), 0x9F9C5D79, 62) == Regs(0x985CE8A7, 0x52873742, 0x3CA86E86, 0x8AD04FB6, 0x394422D5);
    assert Compress(IV, w, 63) == Regs(0x985CE8A7, 0x52873742, 0x3CA86E86, 0x8AD04FB6, 0x394422D5);
    assert Round(Regs(0x985CE8A7, 0x52873742, 0x3CA86E86, 0x8AD04FB6, 0x394422D5), 0xEDEEEDC2, 63) == Regs(0xE231FDD2, 0x985CE8A7, 0x94A1CDD0, 0x3CA86E86, 0x8AD04FB6);
    assert Compress(IV, w, 64) == Regs(0xE231FDD2, 0x985CE8A7, 0x94A1CDD0, 0x3CA86E86, 0x8AD04FB6);
    assert Round(Regs(0xE231FDD2, 0x985CE8A7, 0x94A1CDD0, 0x3CA86E86, 0x8AD04FB6), 0x1C98866B, 64) == Regs(0xE8609E44, 0xE231FDD2, 0xE6173A29, 0x94A1CDD0, 0x3CA86E86);
    assert Compress(IV, w, 65) == Regs(0xE8609E44, 0xE231FDD2, 0xE6173A29, 0x94A1CDD0, 0x3CA86E86);
    assert Round(Regs(0xE8609E44, 0xE231FDD2, 0xE6173A29, 0x94A1CDD0, 0x3CA86E86), 0xEEEEEEEE, 65) == Regs(0x9294F212, 0xE8609E44, 0xB88C7F74, 0xE6173A29, 0x94A1CDD0);
    assert Compress(IV, w, 66) == Regs(0x9294F212, 0xE8609E44, 0xB88C7F74, 0xE6173A29, 0x94A1CDD0);
    assert Round(Regs(0x9294F212, 0xE8609E44, 0xB88C7F74, 0xE6173A29, 0x94A1CDD0), 0x0CCF2BCF, 66) == Regs(0x756DD8E0, 0x9294F212, 0x3A182791, 0xB88C7F74, 0xE6173A29);
    assert Compress(IV, w, 67) == Regs(0x756DD8E0, 0x9294F212, 0x3A182791, 0xB88C7F74, 0xE6173A29);
    assert Round(Regs(0x756DD8E0, 0x9294F212, 0x3A182791, 0xB88C7F74, 0xE6173A29), 0xB8B7089B, 67) == Regs(0x26ECCB9F, 0x756DD8E0, 0xA4A53C84, 0x3A182791, 0xB88C7F74);
    assert Compress(IV, w, 68) == Regs(0x26ECCB9F, 0x756DD8E0, 0xA4A53C84, 0x3A182791, 0xB88C7F74);
    assert Round(Regs(0x26ECCB9F, 0x756DD8E0, 0xA4A53C84, 0x3A182791, 0xB88C7F74), 0x164F0A2F, 68) == Regs(0x62A88352, 0x26ECCB9F, 0x1D5B7638, 0xA4A53C84, 0x3A182791);
    assert Compress(IV, w, 69) == Regs(0x62A88352, 0x26ECCB9F, 0x1D5B7638, 0xA4A53C84, 0x3A182791);
    assert Round(Regs(0x62A88352, 0x26ECCB9F, 0x1D5B7638, 0xA4A53C84, 0x3A182791), 0xD7D7D7D7, 69) == Regs(0xD075ACAD, 0x62A88352, 0xC9BB32E7, 0x1D5B7638, 0xA4A53C84);
    assert Compress(IV, w, 70) == Regs(0xD075ACAD, 0x62A88352, 0xC9BB32E7, 0x1D5B7638, 0xA4A53C84);
    assert Round(Regs(0xD075ACAD, 0x62A88352, 0xC9BB32E7, 0x1D5B7638, 0xA4A53C84), 0xDBF2B933, 70) == Regs(0x0FF914D4, 0xD075ACAD, 0x98AA20D4, 0xC9BB32E7, 0x1D5B7638);
    assert Compress(IV, w, 71) == Regs(0x0FF914D4, 0xD075ACAD, 0x98AA20D4, 0xC9BB32E7, 0x1D5B7638);
    assert Round(Regs(0x0FF914D4, 0xD075ACAD, 0x98AA20D4, 0xC9BB32E7, 0x1D5B7638), 0x24170AD7, 71) == Regs(0x8C5C9C04, 0x0FF914D4, 0x741D6B2B, 0x98AA20D4, 0xC9BB32E7);
    assert Compress(IV, w, 72) == Regs(0x8C5C9C04, 0x0FF914D4, 0x741D6B2B, 0x98AA20D4, 0xC9BB32E7);
    assert Round(Regs(0x8C5C9C04, 0x0FF914D4, 0x741D6B2B, 0x98AA20D4, 0xC9BB32E7), 0x68CF72EA, 72) == Regs(0x6BCF4763, 0x8C5C9C04, 0x03FE4535, 0x741D6B2B, 0x98AA20D4);
    assert Compress(IV, w, 73) == Regs(0x6BCF4763, 0x8C5C9C04, 0x03FE4535, 0x741D6B2B, 0x98AA20D4);
    assert Round(Regs(0x6BCF4763, 0x8C5C9C04, 0x03FE4535, 0x741D6B2B, 0x98AA20D4), 0xDDEF1DED, 73) == Regs(0xB6A49F1E, 0x6BCF4763, 0x23172701, 0x03FE4535, 0x741D6B2B);
    assert Compress(IV, w, 74) == Regs(0xB6A49F1E, 0x6BCF4763, 0x23172701, 0x03FE4535, 0x741D6B2B);
    assert Round(Regs(0xB6A49F1E, 0x6BCF4763, 0x23172701, 0x03FE4535, 0x741D6B2B), 0xB8B89494, 74) == Regs(0x16F2CAC2, 0xB6A49F1E, 0xDAF3D1D8, 0x23172701, 0x03FE4535);
    assert Compress(IV, w, 75) == Regs(0x16F2CAC2, 0xB6A49F1E, 0xDAF3D1D8, 0x23172701, 0x03FE4535);
    assert Round(Regs(0x16F2CAC2, 0xB6A49F1E, 0xDAF3D1D8, 0x23172701, 0x03FE4535), 0x9CAC9567, 75) == Regs(0x98A75E7B, 0x16F2CAC2, 0xADA927C7, 0xDAF3D1D8, 0x23172701);
    assert Compress(IV, w, 76) == Regs(0x98A75E7B, 0x16F2CAC2, 0xADA927C7, 0xDAF3D1D8, 0x23172701);
    assert Round(Regs(0x98A75E7B, 0x16F2CAC2, 0xADA927C7, 0xDAF3D1D8, 0x23172701), 0xFE2A50D5, 76) == Regs(0x623845FC, 0x98A75E7B, 0x85BCB2B0, 0xADA927C7, 0xDAF3D1D8);
    assert Compress(IV, w, 77) == Regs(0x623845FC, 0x98A75E7B, 0x85BCB2B0, 0xADA927C7, 0xDAF3D1D8);
    assert Round(Regs(0x623845FC, 0x98A75E7B, 0x85BCB2B0, 0xADA927C7, 0xDAF3D1D8), 0x55555555, 77) == Regs(0xF267739B, 0x623845FC, 0xE629D79E, 0x85BCB2B0, 0xADA927C7);
    assert Compress(IV, w, 78) == Regs(0xF267739B, 0x623845FC, 0xE629D79E, 0x85BCB2B0, 0xADA927C7);
    assert Round(Regs(0xF267739B, 0x623845FC, 0xE629D79E, 0x85BCB2B0, 0xADA927C7), 0x88B5EE8D, 78) == Regs(0x4F5D6C7A, 0xF267739B, 0x188E117F, 0xE629D79E, 0x85BCB2B0);
    assert Compress(IV, w, 79) == Regs(0x4F5D6C7A, 0xF267739B, 0x188E117F, 0xE629D79E, 0x85BCB2B0);
    assert Round(Regs(0x4F5D6C7A, 0xF267739B, 0x188E117F, 0xE629D79E, 0x85BCB2B0), 0xB27AB25D, 79) == Regs(0xFB086BA6, 0x4F5D6C7A, 0xFC99DCE6, 0x188E117F, 0xE629D79E);
    assert Compress(IV, w, 80) == Regs(0xFB086BA6, 0x4F5D6C7A, 0xFC99DCE6, 0x188E117F, 0xE629D79E);
  }

  lemma JefeInner0Compress(words: seq<word>)
    requires |words| == 16
    requires words[0] == 0x7C535053 && words[1] == 0x36363636 && words[2] == 0x36363636 && words[3] == 0x36363636 &&
      words[4] == 0x36363636 && words[5] == 0x36363636 && words[6] == 0x36363636 && words[7] == 0x36363636 &&
      words[8] == 0x36363636 && words[9] == 0x36363636 && words[10] == 0x36363636 && words[11] == 0x36363636 &&
      words[12] == 0x36363636 && words[13] == 0x36363636 && words[14] == 0x36363636 && words[15] == 0x36363636
    ensures Compress(IV, Schedule(words), 80) == Regs(0xFB086BA6, 0x4F5D6C7A, 0xFC99DCE6, 0x188E117F, 0xE629D79E)
  {
    var w := Schedule(words);
    ScheduleIsSchedule(words);
    forall j | 0 <= j < 16
      ensures w[j] == words[j]
    {
      assert w[..16][j] == w[j];
    }
    JefeInner0Schedule0(w);
    JefeInner0Schedule1(w);
    JefeInner0Schedule2(w);
    JefeInner0Schedule3(w);
    JefeInner0Rounds0(w);
    JefeInner0Rounds1(w);
    JefeInner0Rounds2(w);
    JefeInner0Rounds3(w);
  }

  lemma JefeInner1Schedule0(w: seq<word>)
    requires |w| == 80 && forall i :: 16 <= i < 80 ==> Follows(w, i)
    requires w[0] == 0x77686174 && w[1] == 0x20646F20 && w[2] == 0x79612077 && w[3] == 0x616E7420 &&
      w[4] == 0x666F7220 && w[5] == 0x6E6F7468 && w[6] == 0x696E673F && w[7] == 0x80000000 &&
      w[8] == 0x00000000 && w[9] == 0x00000000 && w[10] == 0x00000000 && w[11] == 0x00000000 &&
      w[12] == 0x00000000 && w[13] == 0x00000000 && w[14] == 0x00000000 && w[15] == 0x000002E0
    ensures w[16] == 0x1C128206 && w[17] == 0x82143600 && w[18] == 0x3E1CA16E && w[19] == 0x2627049C &&
      w[20] == 0x1A2A463F && w[21] == 0xA0E7AA0D && w[22] == 0x9E92C746 && w[23] == 0x345489BF &&
      w[24] == 0x79EA5017 && w[25] == 0x390DE28C && w[26] == 0x149051A2 && w[27] == 0xBF9AA916 &&
      w[28] == 0x464F4966 && w[29] == 0x68EFF29F && w[30] == 0x7A35D8AC && w[31] == 0xE01FE873
  {
    assert Follows(w, 16);
    assert Follows(w, 17);
    assert Follows(w, 18);
    assert Follows(w, 19);
    assert Follows(w, 20);
    assert Follows(w, 21);
    assert Follows(w, 22);
    assert Follows(w, 23);
    assert Follows(w, 24);
    assert Follows(w, 25);
    assert Follows(w, 26);
    assert Follows(w, 27);
    assert Follows(w, 28);
    assert Follows(w, 29);
    assert Follows(w, 30);
    assert Follows(w, 31);
  }

  lemma JefeInner1Schedule1(w: seq<word>)
    requires |w| == 80 && forall i :: 16 <= i < 80 ==> Follows(w, i)
    requires w[16] == 0x1C128206 && w[17] == 0x82143600 && w[18] == 0x3E1CA16E && w[19] == 0x2627049C &&
      w[20] == 0x1A2A463F && w[21] == 0xA0E7AA0D && w[22] == 0x9E92C746 && w[23] == 0x345489BF &&
      w[24] == 0x79EA5017 && w[25] == 0x390DE28C && w[26] == 0x149051A2 && w[27] == 0xBF9AA916 &&
      w[28] == 0x464F4966 && w[29] == 0x68EFF29F && w[30] == 0x7A35D8AC && w[31] == 0xE01FE873
    ensures w[32] == 0x661703C0 && w[33] == 0xCE161179 && w[34] == 0xA172BD01 && w[35] == 0xBE9A088E &&
      w[36] == 0x19C3B2CC && w[37] == 0xBA5CD858 && w[38] == 0x47AE8EE6 && w[39] == 0xE90A6319 &&
      w[40] == 0x6263B45B && w[41] == 0x1E5FA80A && w[42] == 0x354F8DB8 && w[43] == 0x1719CEB8 &&
      w[44] == 0x77CD1618 && w[45] == 0x0FC69E18 && w[46] == 0x992B3664 && w[47] == 0x619D1817
  {
    assert Follows(w, 32);
    assert Follows(w, 33);
    assert Follows(w, 34);
    assert Follows(w, 35);
    assert Follows(w, 36);
    assert Follows(w, 37);
    assert Follows(w, 38);
    assert Follows(w, 39);
    assert Follows(w, 40);
    assert Follows(w, 41);
    assert Follows(w, 42);
    assert Follows(w, 43);
    assert Follows(w, 44);
    assert Follows(w, 45);
    assert Follows(w, 46);
    assert Follows(w, 47);
  }

  lemma JefeInner1Schedule2(w: seq<word>)
    requires |w| == 80 && forall i :: 16 <= i < 80 ==> Follows(w, i)
    requires w[32] == 0x661703C0 && w[33] == 0xCE161179 && w[34] == 0xA172BD01 && w[35] == 0xBE9A088E &&
      w[36] == 0x19C3B2CC && w[37] == 0xBA5CD858 && w[38] == 0x47AE8EE6 && w[39] == 0xE90A6319 &&
      w[40] == 0x6263B45B && w[41] == 0x1E5FA80A && w[42] == 0x354F8DB8 && w[43] == 0x1719CEB8 &&
      w[44] == 0x77CD1618 && w[45] == 0x0FC69E18 && w[46] == 0x992B3664 && w[47] == 0x619D1817
    ensures w[48] == 0x55812905 && w[49] == 0xEFF10F33 && w[50] == 0xD8C734C5 && w[51] == 0x8CBC6ED6 &&
      w[52] == 0x8CA24A03 && w[53] == 0x08AE2339 && w[54] == 0x60B4C41E && w[55] == 0x34D5320E &&
      w[56] == 0x140667BE && w[57] == 0x0C075B3F && w[58] == 0x5D213AD7 && w[59] == 0x00CAB391 &&
      w[60] == 0xDC866280 && w[61] == 0x77A93FC2 && w[62] == 0x59A8D1DD && w[63] == 0xCC7E8F54
  {
    assert Follows(w, 48);
    assert Follows(w, 49);
    assert Follows(w, 50);
    assert Follows(w, 51);
    assert Follows(w, 52);
    assert Follows(w, 53);
    assert Follows(w, 54);
    assert Follows(w, 55);
    assert Follows(w, 56);
    assert Follows(w, 57);
    assert Follows(w, 58);
    assert Follows(w, 59);
    assert Follows(w, 60);
    assert Follows(w, 61);
    assert Follows(w, 62);
    assert Follows(w, 63);
  }

  lemma JefeInner1Schedule3(w: seq<word>)
    requires |w| == 80 && forall i :: 16 <= i < 80 ==> Follows(w, i)
    requires w[48] == 0x55812905 && w[49] == 0xEFF10F33 && w[50] == 0xD8C734C5 && w[51] == 0x8CBC6ED6 &&
      w[52] == 0x8CA24A03 && w[53] == 0x08AE2339 && w[54] == 0x60B4C41E && w[55] == 0x34D5320E &&
      w[56] == 0x140667BE && w[57] == 0x0C075B3F && w[58] == 0x5D213AD7 && w[59] == 0x00CAB391 &&
      w[60] == 0xDC866280 && w[61] == 0x77A93FC2 && w[62] == 0x59A8D1DD && w[63] == 0xCC7E8F54
    ensures w[64] == 0xDDD28B79 && w[65] == 0x6DC5D60E && w[66] == 0x8A75968B && w[67] == 0xB214EA0E &&
      w[68] == 0xBAAA7526 && w[69] == 0x834F70FD && w[70] == 0x3E1D30E7 && w[71] == 0x9C0D2686 &&
      w[72] == 0x2F754DDA && w[73] == 0xBE2A1C8E && w[74] == 0x2FBFD0B5 && w[75] == 0xD404570F &&
      w[76] == 0x035DB5EB && w[77] == 0x2E4E21BC && w[78] == 0xDCC67A98 && w[79] == 0x7DD7946E
  {
    assert Follows(w, 64);
    assert Follows(w, 65);
    assert Follows(w, 66);
    assert Follows(w, 67);
    assert Follows(w, 68);
    assert Follows(w, 69);
    assert Follows(w, 70);
    assert Follows(w, 71);
    assert Follows(w, 72);
    assert Follows(w, 73);
    assert Follows(w, 74);
    assert Follows(w, 75);
    assert Follows(w, 76);
    assert Follows(w, 77);
    assert Follows(w, 78);
    assert Follows(w, 79);
  }

  lemma JefeInner1Rounds0(w: seq<word>)
    requires |w| == 80
    requires w[0] == 0x77686174 && w[1] == 0x20646F20 && w[2] == 0x79612077 && w[3] == 0x616E7420 &&
      w[4] == 0x666F7220 && w[5] == 0x6E6F7468 && w[6] == 0x696E673F && w[7] == 0x80000000 &&
      w[8] == 0x00000000 && w[9] == 0x00000000 && w[10] == 0x00000000 && w[11] == 0x00000000 &&
      w[12] == 0x00000000 && w[13] == 0x00000000 && w[14] == 0x00000000 && w[15] == 0x000002E0 &&
      w[16] == 0x1C128206 && w[17] == 0x82143600 && w[18] == 0x3E1CA16E && w[19] == 0x2627049C
    requires Compress(Regs(0x624D8EA7, 0x3F2B1803, 0x9554B9E4, 0x28C065F5, 0xA9FCB98E), w, 0) == Regs(0x624D8EA7, 0x3F2B1803, 0x9554B9E4, 0x28C065F5, 0xA9FCB98E)
    ensures Compress(Regs(0x624D8EA7, 0x3F2B1803, 0x9554B9E4, 0x28C065F5, 0xA9FCB98E), w, 20) == Regs(0xF17D64A1, 0x8AF59F4F, 0x9D98377C, 0xF14D8CB3, 0xA84ADD1A)
  {
    assert Round(Regs(0x624D8EA7, 0x3F2B1803, 0x9554B9E4, 0x28C065F5, 0xA9FCB98E), 0x77686174, 0) == Regs(0xDB59E77B, 0x624D8EA7, 0xCFCAC600, 0x9554B9E4, 0x28C065F5);
    assert Compress(Regs(0x624D8EA7, 0x3F2B1803, 0x9554B9E4, 0x28C065F5, 0xA9FCB98E), w, 1) == Regs(0xDB59E77B, 0x624D8EA7, 0xCFCAC600, 0x9554B9E4, 0x28C065F5);
    assert Round(Regs(0xDB59E77B, 0x624D8EA7, 0xCFCAC600, 0x9554B9E4, 0x28C065F5), 0x20646F20, 1) == Regs(0xE63CF569, 0xDB59E77B, 0xD89363A9, 0xCFCAC600, 0x9554B9E4);
    assert Compress(Regs(0x624D8EA7, 0x3F2B1803, 0x9554B9E4, 0x28C065F5, 0xA9FCB98E), w, 2) == Regs(0xE63CF569, 0xDB59E77B, 0xD89363A9, 0xCFCAC600, 0x9554B9E4);
    assert Round(Regs(0xE63CF569, 0xDB59E77B, 0xD89363A9, 0xCFCAC600, 0x9554B9E4), 0x79612077, 2) == Regs(0x0D6A6459, 0xE63CF569, 0xF6D679DE, 0xD89363A9, 0xCFCAC600);
    assert Compress(Regs(0x624D8EA7, 0x3F2B1803, 0x9554B9E4, 0x28C065F5, 0xA9FCB98E), w, 3) == Regs(0x0D6A6459, 0xE63CF569, 0xF6D679DE, 0xD89363A9, 0xCFCAC600);
    assert Round(Regs(0x0D6A6459, 0xE63CF569, 0xF6D679DE, 0xD89363A9, 0xCFCAC600), 0x616E7420, 3) == Regs(0x379FB2A2, 0x0D6A6459, 0x798F3D5A, 0xF6D679DE, 0xD89363A9);
    assert Compress(Regs(0x624D8EA7, 0x3F2B1803, 0x9554B9E4, 0x28C065F5, 0xA9FCB98E), w, 4) == Regs(0x379FB2A2, 0x0D6A6459, 0x798F3D5A, 0xF6D679DE, 0xD89363A9);
    assert Round(Regs(0x379FB2A2, 0x0D6A6459, 0x798F3D5A, 0xF6D679DE, 0xD89363A9), 0x666F7220, 4) == Regs(0x8919E186, 0x379FB2A2, 0x435A9916, 0x798F3D5A, 0xF6D679DE);
    assert Compress(Regs(0x624D8EA7, 0x3F2B1803, 0x9554B9E4, 0x28C065F5, 0xA9FCB98E), w, 5) == Regs(0x8919E186, 0x379FB2A2, 0x435A9916, 0x798F3D5A, 0xF6D679DE);
    assert Round(Regs(0x8919E186, 0x379FB2A2, 0x435A9916, 0x798F3D5A, 0xF6D679DE), 0x6E6F7468, 5) == Regs(0x2E1F360A, 0x8919E186, 0x8DE7ECA8, 0x435A9916, 0x798F3D5A);
    assert Compress(Regs(0x624D8EA7, 0x3F2B1803, 0x9554B9E4, 0x28C065F5, 0xA9FCB98E), w, 6) == Regs(0x2E1F360A, 0x8919E186, 0x8DE7ECA8, 0x435A9916, 0x798F3D5A);
    assert Round(Regs(0x2E1F360A, 0x8919E186, 0x8DE7ECA8, 0x435A9916, 0x798F3D5A), 0x696E673F, 6) == Regs(0xCCAAD807, 0x2E1F360A, 0xA2467861, 0x8DE7ECA8, 0x435A9916);
    assert Compress(Regs(0x624D8EA7, 0x3F2B1803, 0x9554B9E4, 0x28C065F5, 0xA9FCB98E), w, 7) == Regs(0xCCAAD807, 0x2E1F360A, 0xA2467861, 0x8DE7ECA8, 0x435A9916);
    assert Round(Regs(0xCCAAD807, 0x2E1F360A, 0xA2467861, 0x8DE7ECA8, 0x435A9916), 0x80000000, 7) == Regs(0x571F0C48, 0xCCAAD807, 0x8B87CD82, 0xA2467861, 0x8DE7ECA8);
    assert Compress(Regs(0x624D8EA7, 0x3F2B1803, 0x9554B9E4, 0x28C065F5, 0xA9FCB98E), w, 8) == Regs(0x571F0C48, 0xCCAAD807, 0x8B87CD82, 0xA2467861, 0x8DE7ECA8);
    assert Round(Regs(0x571F0C48, 0xCCAAD807, 0x8B87CD82, 0xA2467861, 0x8DE7ECA8), 0x00000000, 8) == Regs(0x7712D7AD, 0x571F0C48, 0xF32AB601, 0x8B87CD82, 0xA2467861);
    assert Compress(Regs(0x624D8EA7, 0x3F2B1803, 0x9554B9E4, 0x28C065F5, 0xA9FCB98E), w, 9) == Regs(0x7712D7AD, 0x571F0C48, 0xF32AB601, 0x8B87CD82, 0xA2467861);
    assert Round(Regs(0x7712D7AD, 0x571F0C48, 0xF32AB601, 0x8B87CD82, 0xA2467861), 0x00000000, 9) == Regs(0xBAAEAD2A, 0x7712D7AD, 0x15C7C312, 0xF32AB601, 0x8B87CD82);
    assert Compress(Regs(0x624D8EA7, 0x3F2B1803, 0x9554B9E4, 0x28C065F5, 0xA9FCB98E), w, 10) == Regs(0xBAAEAD2A, 0x7712D7AD, 0x15C7C312, 0xF32AB601, 0x8B87CD82);
    assert Round(Regs(0xBAAEAD2A, 0x7712D7AD, 0x15C7C312, 0xF32AB601, 0x8B87CD82), 0x00000000, 10) == Regs(0xD10ACF72, 0xBAAEAD2A, 0x5DC4B5EB, 0x15C7C312, 0xF32AB601);
    assert Compress(Regs(0x624D8EA7, 0x3F2B1803, 0x9554B9E4, 0x28C065F5, 0xA9FCB98E), w, 11) == Regs(0xD10ACF72, 0xBAAEAD2A, 0x5DC4B5EB, 0x15C7C312, 0xF32AB601);
    assert Round(Regs(0xD10ACF72, 0xBAAEAD2A, 0x5DC4B5EB, 0x15C7C312, 0xF32AB601), 0x00000000, 11) == Regs(0x8CCD052E, 0xD10ACF72, 0xAEABAB4A, 0x5DC4B5EB, 0x15C7C312);
    assert Compress(Regs(0x624D8EA7, 0x3F2B1803, 0x9554B9E4, 0x28C065F5, 0xA9FCB98E), w, 12) == Regs(0x8CCD052E, 0xD10ACF72, 0xAEABAB4A, 0x5DC4B5EB, 0x15C7C312);
    assert Round(Regs(0x8CCD052E, 0xD10ACF72, 0xAEABAB4A, 0x5DC4B5EB, 0x15C7C312), 0x00000000, 12) == Regs(0x96B99E47, 0x8CCD052E, 0xB442B3DC, 0xAEABAB4A, 0x5DC4B5EB);
    assert Compress(Regs(0x624D8EA7, 0x3F2B1803, 0x9554B9E4, 0x28C065F5, 0xA9FCB98E), w, 13) == Regs(0x96B99E47, 0x8CCD052E, 0xB442B3DC, 0xAEABAB4A, 0x5DC4B5EB);
    assert Round(Regs(0x96B99E47, 0x8CCD052E, 0xB442B3DC, 0xAEABAB4A, 0x5DC4B5EB), 0x00000000, 13) == Regs(0x35DDA3C2, 0x96B99E47, 0xA333414B, 0xB442B3DC, 0xAEABAB4A);
    assert Compress(Regs(0x624D8EA7, 0x3F2B1803, 0x9554B9E4, 0x28C065F5, 0xA9FCB98E), w, 14) == Regs(0x35DDA3C2, 0x96B99E47, 0xA333414B, 0xB442B3DC, 0xAEABAB4A);
    assert Round(Regs(0x35DDA3C2, 0x96B99E47, 0xA333414B, 0xB442B3DC, 0xAEABAB4A), 0x00000000, 14) == Regs(0x6755BF04, 0x35DDA3C2, 0xE5AE6791, 0xA333414B, 0xB442B3DC);
    assert Compress(Regs(0x624D8EA7, 0x3F2B1803, 0x9554B9E4, 0x28C065F5, 0xA9FCB98E), w, 15) == Regs(0x6755BF04, 0x35DDA3C2, 0xE5AE6791, 0xA333414B, 0xB442B3DC);
    assert Round(Regs(0x6755BF04, 0x35DDA3C2, 0xE5AE6791, 0xA333414B, 0xB442B3DC), 0x000002E0, 15) == Regs(0xA12B746A, 0x6755BF04, 0x8D7768F0, 0xE5AE6791, 0xA333414B);
    assert Compress(Regs(0x624D8EA7, 0x3F2B1803, 0x9554B9E4, 0x28C065F5, 0xA9FCB98E), w, 16) == Regs(0xA12B746A, 0x6755BF04, 0x8D7768F0, 0xE5AE6791, 0xA333414B);
    assert Round(Regs(0xA12B746A, 0x6755BF04, 0x8D7768F0, 0xE5AE6791, 0xA333414B), 0x1C128206, 16) == Regs(0xC53632CF, 0xA12B746A, 0x19D56FC1, 0x8D7768F0, 0xE5AE6791);
    assert Compress(Regs(0x624D8EA7, 0x3F2B1803, 0x9554B9E4, 0x28C065F5, 0xA9FCB98E), w, 17) == Regs(0xC53632CF, 0xA12B746A, 0x19D56FC1, 0x8D7768F0, 0xE5AE6791);
    assert Round(Regs(0xC53632CF, 0xA12B746A, 0x19D56FC1, 0x8D7768F0, 0xE5AE6791), 0x82143600, 17) == Regs(0x7660DDF2, 0xC53632CF, 0xA84ADD1A, 0x19D56FC1, 0x8D7768F0);
    assert Compress(Regs(0x624D8EA7, 0x3F2B1803, 0x9554B9E4, 0x28C065F5, 0xA9FCB98E), w, 18) == Regs(0x7660DDF2, 0xC53632CF, 0xA84ADD1A, 0x19D56FC1, 0x8D7768F0);
    assert Round(Regs(0x7660DDF2, 0xC53632CF, 0xA84ADD1A, 0x19D56FC1, 0x8D7768F0), 0x3E1CA16E, 18) == Regs(0x8AF59F4F, 0x7660DDF2, 0xF14D8CB3, 0xA84ADD1A, 0x19D56FC1);
    assert Compress(Regs(0x624D8EA7, 0x3F2B1803, 0x9554B9E4, 0x28C065F5, 0xA9FCB98E), w, 19) == Regs(0x8AF59F4F, 0x7660DDF2, 0xF14D8CB3, 0xA84ADD1A, 0x19D56FC1);
    assert Round(Regs(0x8AF59F4F, 0x7660DDF2, 0xF14D8CB3, 0xA84ADD1A, 0x19D56FC1), 0x2627049C, 19) == Regs(0xF17D64A1, 0x8AF59F4F, 0x9D98377C, 0xF14D8CB3, 0xA84ADD1A);
    assert Compress(Regs(0x624D8EA7, 0x3F2B1803, 0x9554B9E4, 0x28C065F5, 0xA9FCB98E), w, 20) == Regs(0xF17D64A1, 0x8AF59F4F, 0x9D98377C, 0xF14D8CB3, 0xA84ADD1A);
  }

  lemma JefeInner1Rounds1(w: seq<word>)
    requires |w| == 80
    requires w[20] == 0x1A2A463F && w[21] == 0xA0E7AA0D && w[22] == 0x9E92C746 && w[23] == 0x345489BF &&
      w[24] == 0x79EA5017 && w[25] == 0x390DE28C && w[26] == 0x149051A2 && w[27] == 0xBF9AA916 &&
      w[28] == 0x464F4966 && w[29] == 0x68EFF29F && w[30] == 0x7A35D8AC && w[31] == 0xE01FE873 &&
      w[32] == 0x661703C0 && w[33] == 0xCE161179 && w[34] == 0xA172BD01 && w[35] == 0xBE9A088E &&
      w[36] == 0x19C3B2CC && w[37] == 0xBA5CD858 && w[38] == 0x47AE8EE6 && w[39] == 0xE90A6319
    requires Compress(Regs(0x624D8EA7, 0x3F2B1803, 0x9554B9E4, 0x28C065F5, 0xA9FCB98E), w, 20) == Regs(0xF17D64A1, 0x8AF59F4F, 0x9D98377C, 0xF14D8CB3, 0xA84ADD1A)
    ensures Compress(Regs(0x624D8EA7, 0x3F2B1803, 0x9554B9E4, 0x28C065F5, 0xA9FCB98E), w, 40) == Regs(0x0BD9D1E0, 0x16CB6D6A, 0xDC88236F, 0x380CE270, 0x7C5AE14D)
  {
    assert Round(Regs(0xF17D64A1, 0x8AF59F4F, 0x9D98377C, 0xF14D8CB3, 0xA84ADD1A), 0x1A2A463F, 20) == Regs(0x471BC7B8, 0xF17D64A1, 0xE2BD67D3, 0x9D98377C, 0xF14D8CB3);
    assert Compress(Regs(0x624D8EA7, 0x3F2B1803, 0x9554B9E4, 0x28C065F5, 0xA9FCB98E), w, 21) == Regs(0x471BC7B8, 0xF17D64A1, 0xE2BD67D3, 0x9D98377C, 0xF14D8CB3);
    assert Round(Regs(0x471BC7B8, 0xF17D64A1, 0xE2BD67D3, 0x9D98377C, 0xF14D8CB3), 0xA0E7AA0D, 21) == Regs(0x72E04D77, 0x471BC7B8, 0x7C5F5928, 0xE2BD67D3, 0x9D98377C);
    assert Compress(Regs(0x624D8EA7, 0x3F2B1803, 0x9554B9E4, 0x28C065F5, 0xA9FCB98E), w, 22) == Regs(0x72E04D77, 0x471BC7B8, 0x7C5F5928, 0xE2BD67D3, 0x9D98377C);
    assert Round(Regs(0x72E04D77, 0x471BC7B8, 0x7C5F5928, 0xE2BD67D3, 0x9D98377C), 0x9E92C746, 22) == Regs(0xE1089294, 0x72E04D77, 0x11C6F1EE, 0x7C5F5928, 0xE2BD67D3);
    assert Compress(Regs(0x624D8EA7, 0x3F2B1803, 0x9554B9E4, 0x28C065F5, 0xA9FCB98E), w, 23) == Regs(0xE1089294, 0x72E04D77, 0x11C6F1EE, 0x7C5F5928, 0xE2BD67D3);
    assert Round(Regs(0xE1089294, 0x72E04D77, 0x11C6F1EE, 0x7C5F5928, 0xE2BD67D3), 0x345489BF, 23) == Regs(0xC6781580, 0xE1089294, 0xDCB8135D, 0x11C6F1EE, 0x7C5F5928);
    assert Compress(Regs(0x624D8EA7, 0x3F2B1803, 0x9554B9E4, 0x28C065F5, 0xA9FCB98E), w, 24) == Regs(0xC6781580, 0xE1089294, 0xDCB8135D, 0x11C6F1EE, 0x7C5F5928);
    assert Round(Regs(0xC6781580, 0xE1089294, 0xDCB8135D, 0x11C6F1EE, 0x7C5F5928), 0x79EA5017, 24) == Regs(0x609CB51F, 0xC6781580, 0x384224A5, 0xDCB8135D, 0x11C6F1EE);
    assert Compress(Regs(0x624D8EA7, 0x3F2B1803, 0x9554B9E4, 0x28C065F5, 0xA9FCB98E), w, 25) == Regs(0x609CB51F, 0xC6781580, 0x384224A5, 0xDCB8135D, 0x11C6F1EE);
    assert Round(Regs(0x609CB51F, 0xC6781580, 0x384224A5, 0xDCB8135D, 0x11C6F1EE), 0x390DE28C, 25) == Regs(0xEFC7867F, 0x609CB51F, 0x319E0560, 0x384224A5, 0xDCB8135D);
    assert Compress(Regs(0x624D8EA7, 0x3F2B1803, 0x9554B9E4, 0x28C065F5, 0xA9FCB98E), w, 26) == Regs(0xEFC7867F, 0x609CB51F, 0x319E0560, 0x384224A5, 0xDCB8135D);
    assert Round(Regs(0xEFC7867F, 0x609CB51F, 0x319E0560, 0x384224A5, 0xDCB8135D), 0x149051A2, 26) == Regs(0xC253B577, 0xEFC7867F, 0xD8272D47, 0x319E0560, 0x384224A5);
    assert Compress(Regs(0x624D8EA7, 0x3F2B1803, 0x9554B9E4, 0x28C065F5, 0xA9FCB98E), w, 27) == Regs(0xC253B577, 0xEFC7867F, 0xD8272D47, 0x319E0560, 0x384224A5);
    assert Round(Regs(0xC253B577, 0xEFC7867F, 0xD8272D47, 0x319E0560, 0x384224A5), 0xBF9AA916, 27) == Regs(0xB7AC16AC, 0xC253B577, 0xFBF1E19F, 0xD8272D47, 0x319E0560);
    assert Compress(Regs(0x624D8EA7, 0x3F2B1803, 0x9554B9E4, 0x28C065F5, 0xA9FCB98E), w, 28) == Regs(0xB7AC16AC, 0xC253B577, 0xFBF1E19F, 0xD8272D47, 0x319E0560);
    assert Round(Regs(0xB7AC16AC, 0xC253B577, 0xFBF1E19F, 0xD8272D47, 0x319E0560), 0x464F4966, 28) == Regs(0xBDCF89AC, 0xB7AC16AC, 0xF094ED5D, 0xFBF1E19F, 0xD8272D47);
    assert Compress(Regs(0x624D8EA7, 0x3F2B1803, 0x9554B9E4, 0x28C065F5, 0xA9FCB98E), w, 29) == Regs(0xBDCF89AC, 0xB7AC16AC, 0xF094ED5D, 0xFBF1E19F, 0xD8272D47);
    assert Round(Regs(0xBDCF89AC, 0xB7AC16AC, 0xF094ED5D, 0xFBF1E19F, 0xD8272D47), 0x68EFF29F, 29) == Regs(0x26AB5B8C, 0xBDCF89AC, 0x2DEB05AB, 0xF094ED5D, 0xFBF1E19F);
    assert Compress(Regs(0x624D8EA7, 0x3F2B1803, 0x9554B9E4, 0x28C065F5, 0xA9FCB98E), w, 30) == Regs(0x26AB5B8C, 0xBDCF89AC, 0x2DEB05AB, 0xF094ED5D, 0xFBF1E19F);
    assert Round(Regs(0x26AB5B8C, 0xBDCF89AC, 0x2DEB05AB, 0xF094ED5D, 0xFBF1E19F), 0x7A35D8AC, 30) == Regs(0x1B1D78CA, 0x26AB5B8C, 0x2F73E26B, 0x2DEB05AB, 0xF094ED5D);
    assert Compress(Regs(0x624D8EA7, 0x3F2B1803, 0x9554B9E4, 0x28C065F5, 0xA9FCB98E), w, 31) == Regs(0x1B1D78CA, 0x26AB5B8C, 0x2F73E26B, 0x2DEB05AB, 0xF094ED5D);
    assert Round(Regs(0x1B1D78CA, 0x26AB5B8C, 0x2F73E26B, 0x2DEB05AB, 0xF094ED5D), 0xE01FE873, 31) == Regs(0xC7719700, 0x1B1D78CA, 0x09AAD6E3, 0x2F73E26B, 0x2DEB05AB);
    assert Compress(Regs(0x624D8EA7, 0x3F2B1803, 0x9554B9E4, 0x28C065F5, 0xA9FCB98E), w, 32) == Regs(0xC7719700, 0x1B1D78CA, 0x09AAD6E3, 0x2F73E26B, 0x2DEB05AB);
    assert Round(Regs(0xC7719700, 0x1B1D78CA, 0x09AAD6E3, 0x2F73E26B, 0x2DEB05AB), 0x661703C0, 32) == Regs(0x2ED32166, 0xC7719700, 0x86C75E32, 0x09AAD6E3, 0x2F73E26B);
    assert Compress(Regs(0x624D8EA7, 0x3F2B1803, 0x9554B9E4, 0x28C065F5, 0xA9FCB98E), w, 33) == Regs(0x2ED32166, 0xC7719700, 0x86C75E32, 0x09AAD6E3, 0x2F73E26B);
    assert Round(Regs(0x2ED32166, 0xC7719700, 0x86C75E32, 0x09AAD6E3, 0x2F73E26B), 0xCE161179, 33) == Regs(0x8EE42C1B, 0x2ED32166, 0x31DC65C0, 0x86C75E32, 0x09AAD6E3);
    assert Compress(Regs(0x624D8EA7, 0x3F2B1803, 0x9554B9E4, 0x28C065F5, 0xA9FCB98E), w, 34) == Regs(0x8EE42C1B, 0x2ED32166, 0x31DC65C0, 0x86C75E32, 0x09AAD6E3);
    assert Round(Regs(0x8EE42C1B, 0x2ED32166, 0x31DC65C0, 0x86C75E32, 0x09AAD6E3), 0xA172BD01, 34) == Regs(0x90451D8A, 0x8EE42C1B, 0x8BB4C859, 0x31DC65C0, 0x86C75E32);
    assert Compress(Regs(0x624D8EA7, 0x3F2B1803, 0x9554B9E4, 0x28C065F5, 0xA9FCB98E), w, 35) == Regs(0x90451D8A, 0x8EE42C1B, 0x8BB4C859, 0x31DC65C0, 0x86C75E32);
    assert Round(Regs(0x90451D8A, 0x8EE42C1B, 0x8BB4C859, 0x31DC65C0, 0x86C75E32), 0xBE9A088E, 35) == Regs(0xF16B8535, 0x90451D8A, 0xE3B90B06, 0x8BB4C859, 0x31DC65C0);
    assert Compress(Regs(0x624D8EA7, 0x3F2B1803, 0x9554B9E4, 0x28C065F5, 0xA9FCB98E), w, 36) == Regs(0xF16B8535, 0x90451D8A, 0xE3B90B06, 0x8BB4C859, 0x31DC65C0);
    assert Round(Regs(0xF16B8535, 0x90451D8A, 0xE3B90B06, 0x8BB4C859, 0x31DC65C0), 0x19C3B2CC, 36) == Regs(0xE03389C0, 0xF16B8535, 0xA4114762, 0xE3B90B06, 0x8BB4C859);
    assert Compress(Regs(0x624D8EA7, 0x3F2B1803, 0x9554B9E4, 0x28C065F5, 0xA9FCB98E), w, 37) == Regs(0xE03389C0, 0xF16B8535, 0xA4114762, 0xE3B90B06, 0x8BB4C859);
    assert Round(Regs(0xE03389C0, 0xF16B8535, 0xA4114762, 0xE3B90B06, 0x8BB4C859), 0xBA5CD858, 37) == Regs(0x72208DBF, 0xE03389C0, 0x7C5AE14D, 0xA4114762, 0xE3B90B06);
    assert Compress(Regs(0x624D8EA7, 0x3F2B1803, 0x9554B9E4, 0x28C065F5, 0xA9FCB98E), w, 38) == Regs(0x72208DBF, 0xE03389C0, 0x7C5AE14D, 0xA4114762, 0xE3B90B06);
    assert Round(Regs(0x72208DBF, 0xE03389C0, 0x7C5AE14D, 0xA4114762, 0xE3B90B06), 0x47AE8EE6, 38) == Regs(0x16CB6D6A, 0x72208DBF, 0x380CE270, 0x7C5AE14D, 0xA4114762);
    assert Compress(Regs(0x624D8EA7, 0x3F2B1803, 0x9554B9E4, 0x28C065F5, 0xA9FCB98E), w, 39) == Regs(0x16CB6D6A, 0x72208DBF, 0x380CE270, 0x7C5AE14D, 0xA4114762);
    assert Round(Regs(0x16CB6D6A, 0x72208DBF, 0x380CE270, 0x7C5AE14D, 0xA4114762), 0xE90A6319, 39) == Regs(0x0BD9D1E0, 0x16CB6D6A, 0xDC88236F, 0x380CE270, 0x7C5AE14D);
    assert Compress(Regs(0x624D8EA7, 0x3F2B1803, 0x9554B9E4, 0x28C065F5, 0xA9FCB98E), w, 40) == Regs(0x0BD9D1E0, 0x16CB6D6A, 0xDC88236F, 0x380CE270, 0x7C5AE14D);
  }

  lemma JefeInner1Rounds2(w: seq<word>)
    requires |w| == 80
    requires w[40] == 0x6263B45B && w[41] == 0x1E5FA80A && w[42] == 0x354F8DB8 && w[43] == 0x1719CEB8 &&
      w[44] == 0x77CD1618 && w[45] == 0x0FC69E18 && w[46] == 0x992B3664 && w[47] == 0x619D1817 &&
      w[48] == 0x55812905 && w[49] == 0xEFF10F33 && w[50] == 0xD8C734C5 && w[51] == 0x8CBC6ED6 &&
      w[52] == 0x8CA24A03 && w[53] == 0x08AE2339 && w[54] == 0x60B4C41E && w[55] == 0x34D5320E &&
      w[56] == 0x140667BE && w[57] == 0x0C075B3F && w[58] == 0x5D213AD7 && w[59] == 0x00CAB391
    requires Compress(Regs(0x624D8EA7, 0x3F2B1803, 0x9554B9E4, 0x28C065F5, 0xA9FCB98E), w, 40) == Regs(0x0BD9D1E0, 0x16CB6D6A, 0xDC88236F, 0x380CE270, 0x7C5AE14D)
    ensures Compress(Regs(0x624D8EA7, 0x3F2B1803, 0x9554B9E4, 0x28C065F5, 0xA9FCB98E), w, 60) == Regs(0xF51B6187, 0x11214858, 0x563221F3, 0x7C66AB4B, 0x66DC58FA)
  {
    assert Round(Regs(0x0BD9D1E0, 0x16CB6D6A, 0xDC88236F, 0x380CE270, 0x7C5AE14D), 0x6263B45B, 40) == Regs(0x059CF1EF, 0x0BD9D1E0, 0x85B2DB5A, 0xDC88236F, 0x380CE270);
    assert Compress(Regs(0x624D8EA7, 0x3F2B1803, 0x9554B9E4, 0x28C065F5, 0xA9FCB98E), w, 41) == Regs(0x059CF1EF, 0x0BD9D1E0, 0x85B2DB5A, 0xDC88236F, 0x380CE270);
    assert Round(Regs(0x059CF1EF, 0x0BD9D1E0, 0x85B2DB5A, 0xDC88236F, 0x380CE270), 0x1E5FA80A, 41) == Regs(0x26BF58A0, 0x059CF1EF, 0x02F67478, 0x85B2DB5A, 0xDC88236F);
    assert Compress(Regs(0x624D8EA7, 0x3F2B1803, 0x9554B9E4, 0x28C065F5, 0xA9FCB98E), w, 42) == Regs(0x26BF58A0, 0x059CF1EF, 0x02F67478, 0x85B2DB5A, 0xDC88236F);
    assert Round(Regs(0x26BF58A0, 0x059CF1EF, 0x02F67478, 0x85B2DB5A, 0xDC88236F), 0x354F8DB8, 42) == Regs(0x7E957381, 0x26BF58A0, 0xC1673C7B, 0x02F67478, 0x85B2DB5A);
    assert Compress(Regs(0x624D8EA7, 0x3F2B1803, 0x9554B9E4, 0x28C065F5, 0xA9FCB98E), w, 43) == Regs(0x7E957381, 0x26BF58A0, 0xC1673C7B, 0x02F67478, 0x85B2DB5A);
    assert Round(Regs(0x7E957381, 0x26BF58A0, 0xC1673C7B, 0x02F67478, 0x85B2DB5A), 0x1719CEB8, 43) == Regs(0x018E5395, 0x7E957381, 0x09AFD628, 0xC1673C7B, 0x02F67478);
    assert Compress(Regs(0x624D8EA7, 0x3F2B1803, 0x9554B9E4, 0x28C065F5, 0xA9FCB98E), w, 44) == Regs(0x018E5395, 0x7E957381, 0x09AFD628, 0xC1673C7B, 0x02F67478);
    assert Round(Regs(0x018E5395, 0x7E957381, 0x09AFD628, 0xC1673C7B, 0x02F67478), 0x77CD1618, 44) == Regs(0x85513035, 0x018E5395, 0x5FA55CE0, 0x09AFD628, 0xC1673C7B);
    assert Compress(Regs(0x624D8EA7, 0x3F2B1803, 0x9554B9E4, 0x28C065F5, 0xA9FCB98E), w, 45) == Regs(0x85513035, 0x018E5395, 0x5FA55CE0, 0x09AFD628, 0xC1673C7B);
    assert Round(Regs(0x85513035, 0x018E5395, 0x5FA55CE0, 0x09AFD628, 0xC1673C7B), 0x0FC69E18, 45) == Regs(0x141EF4BF, 0x85513035, 0x406394E5, 0x5FA55CE0, 0x09AFD628);
    assert Compress(Regs(0x624D8EA7, 0x3F2B1803, 0x9554B9E4, 0x28C065F5, 0xA9FCB98E), w, 46) == Regs(0x141EF4BF, 0x85513035, 0x406394E5, 0x5FA55CE0, 0x09AFD628);
    assert Round(Regs(0x141EF4BF, 0x85513035, 0x406394E5, 0x5FA55CE0, 0x09AFD628), 0x992B3664, 46) == Regs(0xFB36762F, 0x141EF4BF, 0x61544C0D, 0x406394E5, 0x5FA55CE0);
    assert Compress(Regs(0x624D8EA7, 0x3F2B1803, 0x9554B9E4, 0x28C065F5, 0xA9FCB98E), w, 47) == Regs(0xFB36762F, 0x141EF4BF, 0x61544C0D, 0x406394E5, 0x5FA55CE0);
    assert Round(Regs(0xFB36762F, 0x141EF4BF, 0x61544C0D, 0x406394E5, 0x5FA55CE0), 0x619D1817, 47) == Regs(0xF783CC7F, 0xFB36762F, 0xC507BD2F, 0x61544C0D, 0x406394E5);
    assert Compress(Regs(0x624D8EA7, 0x3F2B1803, 0x9554B9E4, 0x28C065F5, 0xA9FCB98E), w, 48) == Regs(0xF783CC7F, 0xFB36762F, 0xC507BD2F, 0x61544C0D, 0x406394E5);
    assert Round(Regs(0xF783CC7F, 0xFB36762F, 0xC507BD2F, 0x61544C0D, 0x406394E5), 0x55812905, 48) == Regs(0xF69086F3, 0xF783CC7F, 0xFECD9D8B, 0xC507BD2F, 0x61544C0D);
    assert Compress(Regs(0x624D8EA7, 0x3F2B1803, 0x9554B9E4, 0x28C065F5, 0xA9FCB98E), w, 49) == Regs(0xF69086F3, 0xF783CC7F, 0xFECD9D8B, 0xC507BD2F, 0x61544C0D);
    assert Round(Regs(0xF69086F3, 0xF783CC7F, 0xFECD9D8B, 0xC507BD2F, 0x61544C0D), 0xEFF10F33, 49) == Regs(0xA9F993C9, 0xF69086F3, 0xFDE0F31F, 0xFECD9D8B, 0xC507BD2F);
    assert Compress(Regs(0x624D8EA7, 0x3F2B1803, 0x9554B9E4, 0x28C065F5, 0xA9FCB98E), w, 50) == Regs(0xA9F993C9, 0xF69086F3, 0xFDE0F31F, 0xFECD9D8B, 0xC507BD2F);
    assert Round(Regs(0xA9F993C9, 0xF69086F3, 0xFDE0F31F, 0xFECD9D8B, 0xC507BD2F), 0xD8C734C5, 50) == Regs(0x6ADDBFA0, 0xA9F993C9, 0xFDA421BC, 0xFDE0F31F, 0xFECD9D8B);
    assert Compress(Regs(0x624D8EA7, 0x3F2B1803, 0x9554B9E4, 0x28C065F5, 0xA9FCB98E), w, 51) == Regs(0x6ADDBFA0, 0xA9F993C9, 0xFDA421BC, 0xFDE0F31F, 0xFECD9D8B);
    assert Round(Regs(0x6ADDBFA0, 0xA9F993C9, 0xFDA421BC, 0xFDE0F31F, 0xFECD9D8B), 0x8CBC6ED6, 51) == Regs(0x743E70E7, 0x6ADDBFA0, 0x6A7E64F2, 0xFDA421BC, 0xFDE0F31F);
    assert Compress(Regs(0x624D8EA7, 0x3F2B1803, 0x9554B9E4, 0x28C065F5, 0xA9FCB98E), w, 52) == Regs(0x743E70E7, 0x6ADDBFA0, 0x6A7E64F2, 0xFDA421BC, 0xFDE0F31F);
    assert Round(Regs(0x743E70E7, 0x6ADDBFA0, 0x6A7E64F2, 0xFDA421BC, 0xFDE0F31F), 0x8CA24A03, 52) == Regs(0x0C693C9C, 0x743E70E7, 0x1AB76FE8, 0x6A7E64F2, 0xFDA421BC);
    assert Compress(Regs(0x624D8EA7, 0x3F2B1803, 0x9554B9E4, 0x28C065F5, 0xA9FCB98E), w, 53) == Regs(0x0C693C9C, 0x743E70E7, 0x1AB76FE8, 0x6A7E64F2, 0xFDA421BC);
    assert Round(Regs(0x0C693C9C, 0x743E70E7, 0x1AB76FE8, 0x6A7E64F2, 0xFDA421BC), 0x08AE2339, 53) == Regs(0x9CD3FA34, 0x0C693C9C, 0xDD0F9C39, 0x1AB76FE8, 0x6A7E64F2);
    assert Compress(Regs(0x624D8EA7, 0x3F2B1803, 0x9554B9E4, 0x28C065F5, 0xA9FCB98E), w, 54) == Regs(0x9CD3FA34, 0x0C693C9C, 0xDD0F9C39, 0x1AB76FE8, 0x6A7E64F2);
    assert Round(Regs(0x9CD3FA34, 0x0C693C9C, 0xDD0F9C39, 0x1AB76FE8, 0x6A7E64F2), 0x60B4C41E, 54) == Regs(0x10FD6937, 0x9CD3FA34, 0x031A4F27, 0xDD0F9C39, 0x1AB76FE8);
    assert Compress(Regs(0x624D8EA7, 0x3F2B1803, 0x9554B9E4, 0x28C065F5, 0xA9FCB98E), w, 55) == Regs(0x10FD6937, 0x9CD3FA34, 0x031A4F27, 0xDD0F9C39, 0x1AB76FE8);
    assert Round(Regs(0x10FD6937, 0x9CD3FA34, 0x031A4F27, 0xDD0F9C39, 0x1AB76FE8), 0x34D5320E, 55) == Regs(0x9B7163E9, 0x10FD6937, 0x2734FE8D, 0x031A4F27, 0xDD0F9C39);
    assert Compress(Regs(0x624D8EA7, 0x3F2B1803, 0x9554B9E4, 0x28C065F5, 0xA9FCB98E), w, 56) == Regs(0x9B7163E9, 0x10FD6937, 0x2734FE8D, 0x031A4F27, 0xDD0F9C39);
    assert Round(Regs(0x9B7163E9, 0x10FD6937, 0x2734FE8D, 0x031A4F27, 0xDD0F9C39), 0x140667BE, 56) == Regs(0xF19AAD2D, 0x9B7163E9, 0xC43F5A4D, 0x2734FE8D, 0x031A4F27);
    assert Compress(Regs(0x624D8EA7, 0x3F2B1803, 0x9554B9E4, 0x28C065F5, 0xA9FCB98E), w, 57) == Regs(0xF19AAD2D, 0x9B7163E9, 0xC43F5A4D, 0x2734FE8D, 0x031A4F27);
    assert Round(Regs(0xF19AAD2D, 0x9B7163E9, 0xC43F5A4D, 0x2734FE8D, 0x031A4F27), 0x0C075B3F, 57) == Regs(0x58C887CD, 0xF19AAD2D, 0x66DC58FA, 0xC43F5A4D, 0x2734FE8D);
    assert Compress(Regs(0x624D8EA7, 0x3F2B1803, 0x9554B9E4, 0x28C065F5, 0xA9FCB98E), w, 58) == Regs(0x58C887CD, 0xF19AAD2D, 0x66DC58FA, 0xC43F5A4D, 0x2734FE8D);
    assert Round(Regs(0x58C887CD, 0xF19AAD2D, 0x66DC58FA, 0xC43F5A4D, 0x2734FE8D), 0x5D213AD7, 58) == Regs(0x11214858, 0x58C887CD, 0x7C66AB4B, 0x66DC58FA, 0xC43F5A4D);
    assert Compress(Regs(0x624D8EA7, 0x3F2B1803, 0x9554B9E4, 0x28C065F5, 0xA9FCB98E), w, 59) == Regs(0x11214858, 0x58C887CD, 0x7C66AB4B, 0x66DC58FA, 0xC43F5A4D);
    assert Round(Regs(0x11214858, 0x58C887CD, 0x7C66AB4B, 0x66DC58FA, 0xC43F5A4D), 0x00CAB391, 59) == Regs(0xF51B6187, 0x11214858, 0x563221F3, 0x7C66AB4B, 0x66DC58FA);
    assert Compress(Regs(0x624D8EA7, 0x3F2B1803, 0x9554B9E4, 0x28C065F5, 0xA9FCB98E), w, 60) == Regs(0xF51B6187, 0x11214858, 0x563221F3, 0x7C66AB4B, 0x66DC58FA);
  }

  lemma JefeInner1Rounds3(w: seq<word>)
    requires |w| == 80
    requires w[60] == 0xDC866280 && w[61] == 0x77A93FC2 && w[62] == 0x59A8D1DD && w[63] == 0xCC7E8F54 &&
      w[64] == 0xDDD28B79 && w[65] == 0x6DC5D60E && w[66] == 0x8A75968B && w[67] == 0xB214EA0E &&
      w[68] == 0xBAAA7526 && w[69] == 0x834F70FD && w[70] == 0x3E1D30E7 && w[71] == 0x9C0D2686 &&
      w[72] == 0x2F754DDA && w[73] == 0xBE2A1C8E && w[74] == 0x2FBFD0B5 && w[75] == 0xD404570F &&
      w[76] == 0x035DB5EB && w[77] == 0x2E4E21BC && w[78] == 0xDCC67A98 && w[79] == 0x7DD7946E
    requires Compress(Regs(0x624D8EA7, 0x3F2B1803, 0x9554B9E4, 0x28C065F5, 0xA9FCB98E), w, 60) == Regs(0xF51B6187, 0x11214858, 0x563221F3, 0x7C66AB4B, 0x66DC58FA)
    ensures Compress(Regs(0x624D8EA7, 0x3F2B1803, 0x9554B9E4, 0x28C065F5, 0xA9FCB98E), w, 80) == Regs(0x3637839D, 0xFBCE0454, 0x0E3828F8, 0x660321A1, 0xC20C2536)
  {
    assert Round(Regs(0xF51B6187, 0x11214858, 0x563221F3, 0x7C66AB4B, 0x66DC58FA), 0xDC866280, 60) == Regs(0xECA7712E, 0xF51B6187, 0x04485216, 0x563221F3, 0x7C66AB4B);
    assert Compress(Regs(0x624D8EA7, 0x3F2B1803, 0x9554B9E4, 0x28C065F5, 0xA9FCB98E), w, 61) == Regs(0xECA7712E, 0xF51B6187, 0x04485216, 0x563221F3, 0x7C66AB4B);
    assert Round(Regs(0xECA7712E, 0xF51B6187, 0x04485216, 0x563221F3, 0x7C66AB4B), 0x77A93FC2, 61) == Regs(0xFAC1E522, 0xECA7712E, 0xFD46D861, 0x04485216, 0x563221F3);
    assert Compress(Regs(0x624D8EA7, 0x3F2B1803, 0x9554B9E4, 0x28C065F5, 0xA9FCB98E), w, 62) == Regs(0xFAC1E522, 0xECA7712E, 0xFD46D861, 0x04485216, 0x563221F3);
    assert Round(Regs(0xFAC1E522, 0xECA7712E, 0xFD46D861, 0x04485216, 0x563221F3), 0x59A8D1DD, 62) == Regs(0xE824555E, 0xFAC1E522, 0xBB29DC4B, 0xFD46D861, 0x04485216);
    assert Compress(Regs(0x624D8EA7, 0x3F2B1803, 0x9554B9E4, 0x28C065F5, 0xA9FCB98E), w, 63) == Regs(0xE824555E, 0xFAC1E522, 0xBB29DC4B, 0xFD46D861, 0x04485216);
    assert Round(Regs(0xE824555E, 0xFAC1E522, 0xBB29DC4B, 0xFD46D861, 0x04485216), 0xCC7E8F54, 63) == Regs(0x5C633025, 0xE824555E, 0xBEB07948, 0xBB29DC4B, 0xFD46D861);
    assert Compress(Regs(0x624D8EA7, 0x3F2B1803, 0x9554B9E4, 0x28C065F5, 0xA9FCB98E), w, 64) == Regs(0x5C633025, 0xE824555E, 0xBEB07948, 0xBB29DC4B, 0xFD46D861);
    assert Round(Regs(0x5C633025, 0xE824555E, 0xBEB07948, 0xBB29DC4B, 0xFD46D861), 0xDDD28B79, 64) == Regs(0x1FA01AB8, 0x5C633025, 0xBA091557, 0xBEB07948, 0xBB29DC4B);
    assert Compress(Regs(0x624D8EA7, 0x3F2B1803, 0x9554B9E4, 0x28C065F5, 0xA9FCB98E), w, 65) == Regs(0x1FA01AB8, 0x5C633025, 0xBA091557, 0xBEB07948, 0xBB29DC4B);
    assert Round(Regs(0x1FA01AB8, 0x5C633025, 0xBA091557, 0xBEB07948, 0xBB29DC4B), 0x6DC5D60E, 65) == Regs(0x4030276C, 0x1FA01AB8, 0x5718CC09, 0xBA091557, 0xBEB07948);
    assert Compress(Regs(0x624D8EA7, 0x3F2B1803, 0x9554B9E4, 0x28C065F5, 0xA9FCB98E), w, 66) == Regs(0x4030276C, 0x1FA01AB8, 0x5718CC09, 0xBA091557, 0xBEB07948);
    assert Round(Regs(0x4030276C, 0x1FA01AB8, 0x5718CC09, 0xBA091557, 0xBEB07948), 0x8A75968B, 66) == Regs(0x0C3F8317, 0x4030276C, 0x07E806AE, 0x5718CC09, 0xBA091557);
    assert Compress(Regs(0x624D8EA7, 0x3F2B1803, 0x9554B9E4, 0x28C065F5, 0xA9FCB98E), w, 67) == Regs(0x0C3F8317, 0x4030276C, 0x07E806AE, 0x5718CC09, 0xBA091557);
    assert Round(Regs(0x0C3F8317, 0x4030276C, 0x07E806AE, 0x5718CC09, 0xBA091557), 0xB214EA0E, 67) == Regs(0xCF3211E7, 0x0C3F8317, 0x100C09DB, 0x07E806AE, 0x5718CC09);
    assert Compress(Regs(0x624D8EA7, 0x3F2B1803, 0x9554B9E4, 0x28C065F5, 0xA9FCB98E), w, 68) == Regs(0xCF3211E7, 0x0C3F8317, 0x100C09DB, 0x07E806AE, 0x5718CC09);
    assert Round(Regs(0xCF3211E7, 0x0C3F8317, 0x100C09DB, 0x07E806AE, 0x5718CC09), 0xBAAA7526, 68) == Regs(0xDE43CC60, 0xCF3211E7, 0xC30FE0C5, 0x100C09DB, 0x07E806AE);
    assert Compress(Regs(0x624D8EA7, 0x3F2B1803, 0x9554B9E4, 0x28C065F5, 0xA9FCB98E), w, 69) == Regs(0xDE43CC60, 0xCF3211E7, 0xC30FE0C5, 0x100C09DB, 0x07E806AE);
    assert Round(Regs(0xDE43CC60, 0xCF3211E7, 0xC30FE0C5, 0x100C09DB, 0x07E806AE), 0x834F70FD, 69) == Regs(0x3A45BE95, 0xDE43CC60, 0xF3CC8479, 0xC30FE0C5, 0x100C09DB);
    assert Compress(Regs(0x624D8EA7, 0x3F2B1803, 0x9554B9E4, 0x28C065F5, 0xA9FCB98E), w, 70) == Regs(0x3A45BE95, 0xDE43CC60, 0xF3CC8479, 0xC30FE0C5, 0x100C09DB);
    assert Round(Regs(0x3A45BE95, 0xDE43CC60, 0xF3CC8479, 0xC30FE0C5, 0x100C09DB), 0x3E1D30E7, 70) == Regs(0x4FC4781B, 0x3A45BE95, 0x3790F318, 0xF3CC8479, 0xC30FE0C5);
    assert Compress(Regs(0x624D8EA7, 0x3F2B1803, 0x9554B9E4, 0x28C065F5, 0xA9FCB98E), w, 71) == Regs(0x4FC4781B, 0x3A45BE95, 0x3790F318, 0xF3CC8479, 0xC30FE0C5);
    assert Round(Regs(0x4FC4781B, 0x3A45BE95, 0x3790F318, 0xF3CC8479, 0xC30FE0C5), 0x9C0D2686, 71) == Regs(0x2028967E, 0x4FC4781B, 0x4E916FA5, 0x3790F318, 0xF3CC8479);
    assert Compress(Regs(0x624D8EA7, 0x3F2B1803, 0x9554B9E4, 0x28C065F5, 0xA9FCB98E), w, 72) == Regs(0x2028967E, 0x4FC4781B, 0x4E916FA5, 0x3790F318, 0xF3CC8479);
    assert Round(Regs(0x2028967E, 0x4FC4781B, 0x4E916FA5, 0x3790F318, 0xF3CC8479), 0x2F754DDA, 72) == Regs(0x297D4893, 0x2028967E, 0xD3F11E06, 0x4E916FA5, 0x3790F318);
    assert Compress(Regs(0x624D8EA7, 0x3F2B1803, 0x9554B9E4, 0x28C065F5, 0xA9FCB98E), w, 73) == Regs(0x297D4893, 0x2028967E, 0xD3F11E06, 0x4E916FA5, 0x3790F318);
    assert Round(Regs(0x297D4893, 0x2028967E, 0xD3F11E06, 0x4E916FA5, 0x3790F318), 0xBE2A1C8E, 73) == Regs(0xAD0FCBBE, 0x297D4893, 0x880A259F, 0xD3F11E06, 0x4E916FA5);
    assert Compress(Regs(0x624D8EA7, 0x3F2B1803, 0x9554B9E4, 0x28C065F5, 0xA9FCB98E), w, 74) == Regs(0xAD0FCBBE, 0x297D4893, 0x880A259F, 0xD3F11E06, 0x4E916FA5);
    assert Round(Regs(0xAD0FCBBE, 0x297D4893, 0x880A259F, 0xD3F11E06, 0x4E916FA5), 0x2FBFD0B5, 74) == Regs(0x5D33ED0F, 0xAD0FCBBE, 0xCA5F5224, 0x880A259F, 0xD3F11E06);
    assert Compress(Regs(0x624D8EA7, 0x3F2B1803, 0x9554B9E4, 0x28C065F5, 0xA9FCB98E), w, 75) == Regs(0x5D33ED0F, 0xAD0FCBBE, 0xCA5F5224, 0x880A259F, 0xD3F11E06);
    assert Round(Regs(0x5D33ED0F, 0xAD0FCBBE, 0xCA5F5224, 0x880A259F, 0xD3F11E06), 0xD404570F, 75) == Regs(0x083094DB, 0x5D33ED0F, 0xAB43F2EF, 0xCA5F5224, 0x880A259F);
    assert Compress(Regs(0x624D8EA7, 0x3F2B1803, 0x9554B9E4, 0x28C065F5, 0xA9FCB98E), w, 76) == Regs(0x083094DB, 0x5D33ED0F, 0xAB43F2EF, 0xCA5F5224, 0x880A259F);
    assert Round(Regs(0x083094DB, 0x5D33ED0F, 0xAB43F2EF, 0xCA5F5224, 0x880A259F), 0x035DB5EB, 76) == Regs(0x980C8685, 0x083094DB, 0xD74CFB43, 0xAB43F2EF, 0xCA5F5224);
    assert Compress(Regs(0x624D8EA7, 0x3F2B1803, 0x9554B9E4, 0x28C065F5, 0xA9FCB98E), w, 77) == Regs(0x980C8685, 0x083094DB, 0xD74CFB43, 0xAB43F2EF, 0xCA5F5224);
    assert Round(Regs(0x980C8685, 0x083094DB, 0xD74CFB43, 0xAB43F2EF, 0xCA5F5224), 0x2E4E21BC, 77) == Regs(0x38E0A3E0, 0x980C8685, 0xC20C2536, 0xD74CFB43, 0xAB43F2EF);
    assert Compress(Regs(0x624D8EA7, 0x3F2B1803, 0x9554B9E4, 0x28C065F5, 0xA9FCB98E), w, 78) == Regs(0x38E0A3E0, 0x980C8685, 0xC20C2536, 0xD74CFB43, 0xAB43F2EF);
    assert Round(Regs(0x38E0A3E0, 0x980C8685, 0xC20C2536, 0xD74CFB43, 0xAB43F2EF), 0xDCC67A98, 78) == Regs(0xFBCE0454, 0x38E0A3E0, 0x660321A1, 0xC20C2536, 0xD74CFB43);
    assert Compress(Regs(0x624D8EA7, 0x3F2B1803, 0x9554B9E4, 0x28C065F5, 0xA9FCB98E), w, 79) == Regs(0xFBCE0454, 0x38E0A3E0, 0x660321A1, 0xC20C2536, 0xD74CFB43);
    assert Round(Regs(0xFBCE0454, 0x38E0A3E0, 0x660321A1, 0xC20C2536, 0xD74CFB43), 0x7DD7946E, 79) == Regs(0x3637839D, 0xFBCE0454, 0x0E3828F8, 0x660321A1, 0xC20C2536);
    assert Compress(Regs(0x624D8EA7, 0x3F2B1803, 0x9554B9E4, 0x28C065F5, 0xA9FCB98E), w, 80) == Regs(0x3637839D, 0xFBCE0454, 0x0E3828F8, 0x660321A1, 0xC20C2536);
  }

  lemma JefeInner1Compress(words: seq<word>)
    requires |words| == 16
    requires words[0] == 0x77686174 && words[1] == 0x20646F20 && words[2] == 0x79612077 && words[3] == 0x616E7420 &&
      words[4] == 0x666F7220 && words[5] == 0x6E6F7468 && words[6] == 0x696E673F && words[7] == 0x80000000 &&
      words[8] == 0x00000000 && words[9] == 0x00000000 && words[10] == 0x00000000 && words[11] == 0x00000000 &&
      words[12] == 0x00000000 && words[13] == 0x00000000 && words[14] == 0x00000000 && words[15] == 0x000002E0
    ensures Compress(Regs(0x624D8EA7, 0x3F2B1803, 0x9554B9E4, 0x28C065F5, 0xA9FCB98E), Schedule(words), 80) == Regs(0x3637839D, 0xFBCE0454, 0x0E3828F8, 0x660321A1, 0xC20C2536)
  {
    var w := Schedule(words);
    ScheduleIsSchedule(words);
    forall j | 0 <= j < 16
      ensures w[j] == words[j]
    {
      assert w[..16][j] == w[j];
    }
    JefeInner1Schedule0(w);
    JefeInner1Schedule1(w);
    JefeInner1Schedule2(w);
    JefeInner1Schedule3(w);
    JefeInner1Rounds0(w);
    JefeInner1Rounds1(w);
    JefeInner1Rounds2(w);
    JefeInner1Rounds3(w);
  }

  lemma JefeInnerDigest()
    ensures Sha1.Digest(InnerInput(JefeKey, JefeMessage)) == [0x98, 0x85, 0x12, 0x44, 0x3A, 0xF9, 0x1C, 0x57, 0xA3, 0x8C, 0xE2, 0xDC, 0x8E, 0xC3, 0x87, 0x96, 0x6C, 0x08, 0xDE, 0xC4]
  {
    var p := Sha1.Pad(InnerInput(JefeKey, JefeMessage));
    JefeInnerLength();
    JefeInnerBlock0(p);
    JefeInnerBlock1(p);
    var b := Split(p);
    ChainTwo(IV, b);
    JefeInner0Compress(b[0].words);
    JefeInner1Compress(b[1].words);
    assert Sha1.Chain(IV, b) == Regs(0x98851244, 0x3AF91C57, 0xA38CE2DC, 0x8EC38796, 0x6C08DEC4);
    JefeInnerOutput();
  }

  lemma JefeInnerOutput()
    ensures Serialize(Regs(0x98851244, 0x3AF91C57, 0xA38CE2DC, 0x8EC38796, 0x6C08DEC4)) == [0x98, 0x85, 0x12, 0x44, 0x3A, 0xF9, 0x1C, 0x57, 0xA3, 0x8C, 0xE2, 0xDC, 0x8E, 0xC3, 0x87, 0x96, 0x6C, 0x08, 0xDE, 0xC4]
  {
  }

  lemma JefeOuterInput0(d: seq<byte>)
    requires d == [0x98, 0x85, 0x12, 0x44, 0x3A, 0xF9, 0x1C, 0x57, 0xA3, 0x8C, 0xE2, 0xDC, 0x8E, 0xC3, 0x87, 0x96, 0x6C, 0x08, 0xDE, 0xC4]
    ensures |OuterInput(JefeKey, d)| == 84
    ensures var m := OuterInput(JefeKey, d);
      m[0] == 0x16 && m[1] == 0x39 && m[2] == 0x3A && m[3] == 0x39 &&
      m[4] == 0x5C && m[5] == 0x5C && m[6] == 0x5C && m[7] == 0x5C &&
      m[8] == 0x5C && m[9] == 0x5C && m[10] == 0x5C && m[11] == 0x5C &&
      m[12] == 0x5C && m[13] == 0x5C && m[14] == 0x5C && m[15] == 0x5C
  {
    var m := OuterInput(JefeKey, d);
    NormalizeKeyPrefix(JefeKey);
    var k := NormalizeKey(JefeKey);
    assert m[0] == k[0] ^ 0x5C;
    assert m[1] == k[1] ^ 0x5C;
    assert m[2] == k[2] ^ 0x5C;
    assert m[3] == k[3] ^ 0x5C;
    assert m[4] == k[4] ^ 0x5C;
    assert m[5] == k[5] ^ 0x5C;
    assert m[6] == k[6] ^ 0x5C;
    assert m[7] == k[7] ^ 0x5C;
    assert m[8] == k[8] ^ 0x5C;
    assert m[9] == k[9] ^ 0x5C;
    assert m[10] == k[10] ^ 0x5C;
    assert m[11] == k[11] ^ 0x5C;
    assert m[12] == k[12] ^ 0x5C;
    assert m[13] == k[13] ^ 0x5C;
    assert m[14] == k[14] ^ 0x5C;
    assert m[15] == k[15] ^ 0x5C;
  }

  lemma JefeOuterInput1(d: seq<byte>)
    requires d == [0x98, 0x85, 0x12, 0x44, 0x3A, 0xF9, 0x1C, 0x57, 0xA3, 0x8C, 0xE2, 0xDC, 0x8E, 0xC3, 0x87, 0x96, 0x6C, 0x08, 0xDE, 0xC4]
    ensures |OuterInput(JefeKey, d)| == 84
    ensures var m := OuterInput(JefeKey, d);
      m[16] == 0x5C && m[17] == 0x5C && m[18] == 0x5C && m[19] == 0x5C &&
      m[20] == 0x5C && m[21] == 0x5C && m[22] == 0x5C && m[23] == 0x5C &&
      m[24] == 0x5C && m[25] == 0x5C && m[26] == 0x5C && m[27] == 0x5C &&
      m[28] == 0x5C && m[29] == 0x5C && m[30] == 0x5C && m[31] == 0x5C
  {
    var m := OuterInput(JefeKey, d);
    NormalizeKeyPrefix(JefeKey);
    var k := NormalizeKey(JefeKey);
    assert m[16] == k[16] ^ 0x5C;
    assert m[17] == k[17] ^ 0x5C;
    assert m[18] == k[18] ^ 0x5C;
    assert m[19] == k[19] ^ 0x5C;
    assert m[20] == k[20] ^ 0x5C;
    assert m[21] == k[21] ^ 0x5C;
    assert m[22] == k[22] ^ 0x5C;
    assert m[23] == k[23] ^ 0x5C;
    assert m[24] == k[24] ^ 0x5C;
    assert m[25] == k[25] ^ 0x5C;
    assert m[26] == k[26] ^ 0x5C;
    assert m[27] == k[27] ^ 0x5C;
    assert m[28] == k[28] ^ 0x5C;
    assert m[29] == k[29] ^ 0x5C;
    assert m[30] == k[30] ^ 0x5C;
    assert m[31] == k[31] ^ 0x5C;
  }

  lemma JefeOuterInput2(d: seq<byte>)
    requires d == [0x98, 0x85, 0x12, 0x44, 0x3A, 0xF9, 0x1C, 0x57, 0xA3, 0x8C, 0xE2, 0xDC, 0x8E, 0xC3, 0x87, 0x96, 0x6C, 0x08, 0xDE, 0xC4]
    ensures |OuterInput(JefeKey, d)| == 84
    ensures var m := OuterInput(JefeKey, d);
      m[32] == 0x5C && m[33] == 0x5C && m[34] == 0x5C && m[35] == 0x5C &&
      m[36] == 0x5C && m[37] == 0x5C && m[38] == 0x5C && m[39] == 0x5C &&
      m[40] == 0x5C && m[41] == 0x5C && m[42] == 0x5C && m[43] == 0x5C &&
      m[44] == 0x5C && m[45] == 0x5C && m[46] == 0x5C && m[47] == 0x5C
  {
    var m := OuterInput(JefeKey, d);
    NormalizeKeyPrefix(JefeKey);
    var k := NormalizeKey(JefeKey);
    assert m[32] == k[32] ^ 0x5C;
    assert m[33] == k[33] ^ 0x5C;
    assert m[34] == k[34] ^ 0x5C;
    assert m[35] == k[35] ^ 0x5C;
    assert m[36] == k[36] ^ 0x5C;
    assert m[37] == k[37] ^ 0x5C;
    assert m[38] == k[38] ^ 0x5C;
    assert m[39] == k[39] ^ 0x5C;
    assert m[40] == k[40] ^ 0x5C;
    assert m[41] == k[41] ^ 0x5C;
    assert m[42] == k[42] ^ 0x5C;
    assert m[43] == k[43] ^ 0x5C;
    assert m[44] == k[44] ^ 0x5C;
    assert m[45] == k[45] ^ 0x5C;
    assert m[46] == k[46] ^ 0x5C;
    assert m[47] == k[47] ^ 0x5C;
  }

  lemma JefeOuterInput3(d: seq<byte>)
    requires d == [0x98, 0x85, 0x12, 0x44, 0x3A, 0xF9, 0x1C, 0x57, 0xA3, 0x8C, 0xE2, 0xDC, 0x8E, 0xC3, 0x87, 0x96, 0x6C, 0x08, 0xDE, 0xC4]
    ensures |OuterInput(JefeKey, d)| == 84
    ensures var m := OuterInput(JefeKey, d);
      m[48] == 0x5C && m[49] == 0x5C && m[50] == 0x5C && m[51] == 0x5C &&
      m[52] == 0x5C && m[53] == 0x5C && m[54] == 0x5C && m[55] == 0x5C &&
      m[56] == 0x5C && m[57] == 0x5C && m[58] == 0x5C && m[59] == 0x5C &&
      m[60] == 0x5C && m[61] == 0x5C && m[62] == 0x5C && m[63] == 0x5C
  {
    var m := OuterInput(JefeKey, d);
    NormalizeKeyPrefix(JefeKey);
    var k := NormalizeKey(JefeKey);
    assert m[48] == k[48] ^ 0x5C;
    assert m[49] == k[49] ^ 0x5C;
    assert m[50] == k[50] ^ 0x5C;
    assert m[51] == k[51] ^ 0x5C;
    assert m[52] == k[52] ^ 0x5C;
    assert m[53] == k[53] ^ 0x5C;
    assert m[54] == k[54] ^ 0x5C;
    assert m[55] == k[55] ^ 0x5C;
    assert m[56] == k[56] ^ 0x5C;
    assert m[57] == k[57] ^ 0x5C;
    assert m[58] == k[58] ^ 0x5C;
    assert m[59] == k[59] ^ 0x5C;
    assert m[60] == k[60] ^ 0x5C;
    assert m[61] == k[61] ^ 0x5C;
    assert m[62] == k[62] ^ 0x5C;
    assert m[63] == k[63] ^ 0x5C;
  }

  lemma JefeOuterInput4(d: seq<byte>)
    requires d == [0x98, 0x85, 0x12, 0x44, 0x3A, 0xF9, 0x1C, 0x57, 0xA3, 0x8C, 0xE2, 0xDC, 0x8E, 0xC3, 0x87, 0x96, 0x6C, 0x08, 0xDE, 0xC4]
    ensures |OuterInput(JefeKey, d)| == 84
    ensures var m := OuterInput(JefeKey, d);
      m[64] == 0x98 && m[65] == 0x85 && m[66] == 0x12 && m[67] == 0x44 &&
      m[68] == 0x3A && m[69] == 0xF9 && m[70] == 0x1C && m[71] == 0x57 &&
      m[72] == 0xA3 && m[73] == 0x8C && m[74] == 0xE2 && m[75] == 0xDC &&
      m[76] == 0x8E && m[77] == 0xC3 && m[78] == 0x87 && m[79] == 0x96
  {
    var m := OuterInput(JefeKey, d);
    assert m[64] == m[64..][0];
    assert m[65] == m[64..][1];
    assert m[66] == m[64..][2];
    assert m[67] == m[64..][3];
    assert m[68] == m[64..][4];
    assert m[69] == m[64..][5];
    assert m[70] == m[64..][6];
    assert m[71] == m[64..][7];
    assert m[72] == m[64..][8];
    assert m[73] == m[64..][9];
    assert m[74] == m[64..][10];
    assert m[75] == m[64..][11];
    assert m[76] == m[64..][12];
    assert m[77] == m[64..][13];
    assert m[78] == m[64..][14];
    assert m[79] == m[64..][15];
  }

  lemma JefeOuterInput5(d: seq<byte>)
    requires d == [0x98, 0x85, 0x12, 0x44, 0x3A, 0xF9, 0x1C, 0x57, 0xA3, 0x8C, 0xE2, 0xDC, 0x8E, 0xC3, 0x87, 0x96, 0x6C, 0x08, 0xDE, 0xC4]
    ensures |OuterInput(JefeKey, d)| == 84
    ensures var m := OuterInput(JefeKey, d);
      m[80] == 0x6C && m[81] == 0x08 && m[82] == 0xDE && m[83] == 0xC4
  {
    var m := OuterInput(JefeKey, d);
    assert m[80] == m[64..][16];
    assert m[81] == m[64..][17];
    assert m[82] == m[64..][18];
    assert m[83] == m[64..][19];
  }

  lemma JefeOuterLength(d: seq<byte>)
    requires d == [0x98, 0x85, 0x12, 0x44, 0x3A, 0xF9, 0x1C, 0x57, 0xA3, 0x8C, 0xE2, 0xDC, 0x8E, 0xC3, 0x87, 0x96, 0x6C, 0x08, 0xDE, 0xC4]
    ensures |Sha1.Pad(OuterInput(JefeKey, d))| == 128
  {
    HmacInputLength(JefeKey, d);
  }

  lemma JefeOuterBytes0(p: seq<byte>, d: seq<byte>)
    requires p == Sha1.Pad(OuterInput(JefeKey, d)) && d == [0x98, 0x85, 0x12, 0x44, 0x3A, 0xF9, 0x1C, 0x57, 0xA3, 0x8C, 0xE2, 0xDC, 0x8E, 0xC3, 0x87, 0x96, 0x6C, 0x08, 0xDE, 0xC4]
    ensures |p| == 128
    ensures p[0] == 0x16 && p[1] == 0x39 && p[2] == 0x3A && p[3] == 0x39 &&
      p[4] == 0x5C && p[5] == 0x5C && p[6] == 0x5C && p[7] == 0x5C &&
      p[8] == 0x5C && p[9] == 0x5C && p[10] == 0x5C && p[11] == 0x5C &&
      p[12] == 0x5C && p[13] == 0x5C && p[14] == 0x5C && p[15] == 0x5C
  {
    var m := OuterInput(JefeKey, d);
    JefeOuterLength(d);
    JefeOuterInput0(d);
    Sha1.PadShape(m);
    assert p[0] == p[..84][0];
    assert p[1] == p[..84][1];
    assert p[2] == p[..84][2];
    assert p[3] == p[..84][3];
    assert p[4] == p[..84][4];
    assert p[5] == p[..84][5];
    assert p[6] == p[..84][6];
    assert p[7] == p[..84][7];
    assert p[8] == p[..84][8];
    assert p[9] == p[..84][9];
    assert p[10] == p[..84][10];
    assert p[11] == p[..84][11];
    assert p[12] == p[..84][12];
    assert p[13] == p[..84][13];
    assert p[14] == p[..84][14];
    assert p[15] == p[..84][15];
  }

  lemma JefeOuterBytes1(p: seq<byte>, d: seq<byte>)
    requires p == Sha1.Pad(OuterInput(JefeKey, d)) && d == [0x98, 0x85, 0x12, 0x44, 0x3A, 0xF9, 0x1C, 0x57, 0xA3, 0x8C, 0xE2, 0xDC, 0x8E, 0xC3, 0x87, 0x96, 0x6C, 0x08, 0xDE, 0xC4]
    ensures |p| == 128
    ensures p[16] == 0x5C && p[17] == 0x5C && p[18] == 0x5C && p[19] == 0x5C &&
      p[20] == 0x5C && p[21] == 0x5C && p[22] == 0x5C && p[23] == 0x5C &&
      p[24] == 0x5C && p[25] == 0x5C && p[26] == 0x5C && p[27] == 0x5C &&
      p[28] == 0x5C && p[29] == 0x5C && p[30] == 0x5C && p[31] == 0x5C
  {
    var m := OuterInput(JefeKey, d);
    JefeOuterLength(d);
    JefeOuterInput1(d);
    Sha1.PadShape(m);
    assert p[16] == p[..84][16];
    assert p[17] == p[..84][17];
    assert p[18] == p[..84][18];
    assert p[19] == p[..84][19];
    assert p[20] == p[..84][20];
    assert p[21] == p[..84][21];
    assert p[22] == p[..84][22];
    assert p[23] == p[..84][23];
    assert p[24] == p[..84][24];
    assert p[25] == p[..84][25];
    assert p[26] == p[..84][26];
    assert p[27] == p[..84][27];
    assert p[28] == p[..84][28];
    assert p[29] == p[..84][29];
    assert p[30] == p[..84][30];
    assert p[31] == p[..84][31];
  }

  lemma JefeOuterBytes2(p: seq<byte>, d: seq<byte>)
    requires p == Sha1.Pad(OuterInput(JefeKey, d)) && d == [0x98, 0x85, 0x12, 0x44, 0x3A, 0xF9, 0x1C, 0x57, 0xA3, 0x8C, 0xE2, 0xDC, 0x8E, 0xC3, 0x87, 0x96, 0x6C, 0x08, 0xDE, 0xC4]
    ensures |p| == 128
    ensures p[32] == 0x5C && p[33] == 0x5C && p[34] == 0x5C && p[35] == 0x5C &&
      p[36] == 0x5C && p[37] == 0x5C && p[38] == 0x5C && p[39] == 0x5C &&
      p[40] == 0x5C && p[41] == 0x5C && p[42] == 0x5C && p[43] == 0x5C &&
      p[44] == 0x5C && p[45] == 0x5C && p[46] == 0x5C && p[47] == 0x5C
  {
    var m := OuterInput(JefeKey, d);
    JefeOuterLength(d);
    JefeOuterInput2(d);
    Sha1.PadShape(m);
    assert p[32] == p[..84][32];
    assert p[33] == p[..84][33];
    assert p[34] == p[..84][34];
    assert p[35] == p[..84][35];
    assert p[36] == p[..84][36];
    assert p[37] == p[..84][37];
    assert p[38] == p[..84][38];
    assert p[39] == p[..84][39];
    assert p[40] == p[..84][40];
    assert p[41] == p[..84][41];
    assert p[42] == p[..84][42];
    assert p[43] == p[..84][43];
    assert p[44] == p[..84][44];
    assert p[45] == p[..84][45];
    assert p[46] == p[..84][46];
    assert p[47] == p[..84][47];
  }

  lemma JefeOuterBytes3(p: seq<byte>, d: seq<byte>)
    requires p == Sha1.Pad(OuterInput(JefeKey, d)) && d == [0x98, 0x85, 0x12, 0x44, 0x3A, 0xF9, 0x1C, 0x57, 0xA3, 0x8C, 0xE2, 0xDC, 0x8E, 0xC3, 0x87, 0x96, 0x6C, 0x08, 0xDE, 0xC4]
    ensures |p| == 128
    ensures p[48] == 0x5C && p[49] == 0x5C && p[50] == 0x5C && p[51] == 0x5C &&
      p[52] == 0x5C && p[53] == 0x5C && p[54] == 0x5C && p[55] == 0x5C &&
      p[56] == 0x5C && p[57] == 0x5C && p[58] == 0x5C && p[59] == 0x5C &&
      p[60] == 0x5C && p[61] == 0x5C && p[62] == 0x5C && p[63] == 0x5C
  {
    var m := OuterInput(JefeKey, d);
    JefeOuterLength(d);
    JefeOuterInput3(d);
    Sha1.PadShape(m);
    assert p[48] == p[..84][48];
    assert p[49] == p[..84][49];
    assert p[50] == p[..84][50];
    assert p[51] == p[..84][51];
    assert p[52] == p[..84][52];
    assert p[53] == p[..84][53];
    assert p[54] == p[..84][54];
    assert p[55] == p[..84][55];
    assert p[56] == p[..84][56];
    assert p[57] == p[..84][57];
    assert p[58] == p[..84][58];
    assert p[59] == p[..84][59];
    assert p[60] == p[..84][60];
    assert p[61] == p[..84][61];
    assert p[62] == p[..84][62];
    assert p[63] == p[..84][63];
  }

  lemma JefeOuterBytes4(p: seq<byte>, d: seq<byte>)
    requires p == Sha1.Pad(OuterInput(JefeKey, d)) && d == [0x98, 0x85, 0x12, 0x44, 0x3A, 0xF9, 0x1C, 0x57, 0xA3, 0x8C, 0xE2, 0xDC, 0x8E, 0xC3, 0x87, 0x96, 0x6C, 0x08, 0xDE, 0xC4]
    ensures |p| == 128
    ensures p[64] == 0x98 && p[65] == 0x85 && p[66] == 0x12 && p[67] == 0x44 &&
      p[68] == 0x3A && p[69] == 0xF9 && p[70] == 0x1C && p[71] == 0x57 &&
      p[72] == 0xA3 && p[73] == 0x8C && p[74] == 0xE2 && p[75] == 0xDC &&
      p[76] == 0x8E && p[77] == 0xC3 && p[78] == 0x87 && p[79] == 0x96
  {
    var m := OuterInput(JefeKey, d);
    JefeOuterLength(d);
    JefeOuterInput4(d);
    Sha1.PadShape(m);
    assert p[64] == p[..84][64];
    assert p[65] == p[..84][65];
    assert p[66] == p[..84][66];
    assert p[67] == p[..84][67];
    assert p[68] == p[..84][68];
    assert p[69] == p[..84][69];
    assert p[70] == p[..84][70];
    assert p[71] == p[..84][71];
    assert p[72] == p[..84][72];
    assert p[73] == p[..84][73];
    assert p[74] == p[..84][74];
    assert p[75] == p[..84][75];
    assert p[76] == p[..84][76];
    assert p[77] == p[..84][77];
    assert p[78] == p[..84][78];
    assert p[79] == p[..84][79];
  }

  lemma JefeOuterBytes5(p: seq<byte>, d: seq<byte>)
    requires p == Sha1.Pad(OuterInput(JefeKey, d)) && d == [0x98, 0x85, 0x12, 0x44, 0x3A, 0xF9, 0x1C, 0x57, 0xA3, 0x8C, 0xE2, 0xDC, 0x8E, 0xC3, 0x87, 0x96, 0x6C, 0x08, 0xDE, 0xC4]
    ensures |p| == 128
    ensures p[80] == 0x6C && p[81] == 0x08 && p[82] == 0xDE && p[83] == 0xC4 &&
      p[84] == 0x80 && p[85] == 0x00 && p[86] == 0x00 && p[87] == 0x00 &&
      p[88] == 0x00 && p[89] == 0x00 && p[90] == 0x00 && p[91] == 0x00 &&
      p[92] == 0x00 && p[93] == 0x00 && p[94] == 0x00 && p[95] == 0x00
  {
    var m := OuterInput(JefeKey, d);
    JefeOuterLength(d);
    JefeOuterInput5(d);
    Sha1.PadShape(m);
    assert p[80] == p[..84][80];
    assert p[81] == p[..84][81];
    assert p[82] == p[..84][82];
    assert p[83] == p[..84][83];
  }

  lemma JefeOuterBytes6(p: seq<byte>, d: seq<byte>)
    requires p == Sha1.Pad(OuterInput(JefeKey, d)) && d == [0x98, 0x85, 0x12, 0x44, 0x3A, 0xF9, 0x1C, 0x57, 0xA3, 0x8C, 0xE2, 0xDC, 0x8E, 0xC3, 0x87, 0x96, 0x6C, 0x08, 0xDE, 0xC4]
    ensures |p| == 128
    ensures p[96] == 0x00 && p[97] == 0x00 && p[98] == 0x00 && p[99] == 0x00 &&
      p[100] == 0x00 && p[101] == 0x00 && p[102] == 0x00 && p[103] == 0x00 &&
      p[104] == 0x00 && p[105] == 0x00 && p[106] == 0x00 && p[107] == 0x00 &&
      p[108] == 0x00 && p[109] == 0x00 && p[110] == 0x00 && p[111] == 0x00
  {
    var m := OuterInput(JefeKey, d);
    JefeOuterLength(d);
    Sha1.PadShape(m);
  }

  lemma JefeOuterBytes7(p: seq<byte>, d: seq<byte>)
    requires p == Sha1.Pad(OuterInput(JefeKey, d)) && d == [0x98, 0x85, 0x12, 0x44, 0x3A, 0xF9, 0x1C, 0x57, 0xA3, 0x8C, 0xE2, 0xDC, 0x8E, 0xC3, 0x87, 0x96, 0x6C, 0x08, 0xDE, 0xC4]
    ensures |p| == 128
    ensures p[112] == 0x00 && p[113] == 0x00 && p[114] == 0x00 && p[115] == 0x00 &&
      p[116] == 0x00 && p[117] == 0x00 && p[118] == 0x00 && p[119] == 0x00 &&
      p[120] == 0x00 && p[121] == 0x00 && p[122] == 0x00 && p[123] == 0x00 &&
      p[124] == 0x00 && p[125] == 0x00 && p[126] == 0x02 && p[127] == 0xA0
  {
    var m := OuterInput(JefeKey, d);
    JefeOuterLength(d);
    Sha1.PadShape(m);
    LengthField2A0();
    assert p[120] == p[120..][0];
    assert p[121] == p[120..][1];
    assert p[122] == p[120..][2];
    assert p[123] == p[120..][3];
    assert p[124] == p[120..][4];
    assert p[125] == p[120..][5];
    assert p[126] == p[120..][6];
    assert p[127] == p[120..][7];
  }

  lemma JefeOuterWords0(p: seq<byte>)
    requires |p| == 128
    requires p[0] == 0x16 && p[1] == 0x39 && p[2] == 0x3A && p[3] == 0x39 &&
      p[4] == 0x5C && p[5] == 0x5C && p[6] == 0x5C && p[7] == 0x5C &&
      p[8] == 0x5C && p[9] == 0x5C && p[10] == 0x5C && p[11] == 0x5C &&
      p[12] == 0x5C && p[13] == 0x5C && p[14] == 0x5C && p[15] == 0x5C
    ensures var b := Split(p)[0].words;
      b[0] == 0x16393A39 && b[1] == 0x5C5C5C5C && b[2] == 0x5C5C5C5C && b[3] == 0x5C5C5C5C
  {
    SplitWords(p, 0, 0);
    SplitWords(p, 0, 1);
    SplitWords(p, 0, 2);
    SplitWords(p, 0, 3);
  }

  lemma JefeOuterWords1(p: seq<byte>)
    requires |p| == 128
    requires p[16] == 0x5C && p[17] == 0x5C && p[18] == 0x5C && p[19] == 0x5C &&
      p[20] == 0x5C && p[21] == 0x5C && p[22] == 0x5C && p[23] == 0x5C &&
      p[24] == 0x5C && p[25] == 0x5C && p[26] == 0x5C && p[27] == 0x5C &&
      p[28] == 0x5C && p[29] == 0x5C && p[30] == 0x5C && p[31] == 0x5C
    ensures var b := Split(p)[0].words;
      b[4] == 0x5C5C5C5C && b[5] == 0x5C5C5C5C && b[6] == 0x5C5C5C5C && b[7] == 0x5C5C5C5C
  {
    SplitWords(p, 0, 4);
    SplitWords(p, 0, 5);
    SplitWords(p, 0, 6);
    SplitWords(p, 0, 7);
  }

  lemma JefeOuterWords2(p: seq<byte>)
    requires |p| == 128
    requires p[32] == 0x5C && p[33] == 0x5C && p[34] == 0x5C && p[35] == 0x5C &&
      p[36] == 0x5C && p[37] == 0x5C && p[38] == 0x5C && p[39] == 0x5C &&
      p[40] == 0x5C && p[41] == 0x5C && p[42] == 0x5C && p[43] == 0x5C &&
      p[44] == 0x5C && p[45] == 0x5C && p[46] == 0x5C && p[47] == 0x5C
    ensures var b := Split(p)[0].words;
      b[8] == 0x5C5C5C5C && b[9] == 0x5C5C5C5C && b[10] == 0x5C5C5C5C && b[11] == 0x5C5C5C5C
  {
    SplitWords(p, 0, 8);
    SplitWords(p, 0, 9);
    SplitWords(p, 0, 10);
    SplitWords(p, 0, 11);
  }

  lemma JefeOuterWords3(p: seq<byte>)
    requires |p| == 128
    requires p[48] == 0x5C && p[49] == 0x5C && p[50] == 0x5C && p[51] == 0x5C &&
      p[52] == 0x5C && p[53] == 0x5C && p[54] == 0x5C && p[55] == 0x5C &&
      p[56] == 0x5C && p[57] == 0x5C && p[58] == 0x5C && p[59] == 0x5C &&
      p[60] == 0x5C && p[61] == 0x5C && p[62] == 0x5C && p[63] == 0x5C
    ensures var b := Split(p)[0].words;
      b[12] == 0x5C5C5C5C && b[13] == 0x5C5C5C5C && b[14] == 0x5C5C5C5C && b[15] == 0x5C5C5C5C
  {
    SplitWords(p, 0, 12);
    SplitWords(p, 0, 13);
    SplitWords(p, 0, 14);
    SplitWords(p, 0, 15);
  }

  lemma JefeOuterWords4(p: seq<byte>)
    requires |p| == 128
    requires p[64] == 0x98 && p[65] == 0x85 && p[66] == 0x12 && p[67] == 0x44 &&
      p[68] == 0x3A && p[69] == 0xF9 && p[70] == 0x1C && p[71] == 0x57 &&
      p[72] == 0xA3 && p[73] == 0x8C && p[74] == 0xE2 && p[75] == 0xDC &&
      p[76] == 0x8E && p[77] == 0xC3 && p[78] == 0x87 && p[79] == 0x96
    ensures var b := Split(p)[1].words;
      b[0] == 0x98851244 && b[1] == 0x3AF91C57 && b[2] == 0xA38CE2DC && b[3] == 0x8EC38796
  {
    SplitWords(p, 1, 0);
    SplitWords(p, 1, 1);
    SplitWords(p, 1, 2);
    SplitWords(p, 1, 3);
  }

  lemma JefeOuterWords5(p: seq<byte>)
    requires |p| == 128
    requires p[80] == 0x6C && p[81] == 0x08 && p[82] == 0xDE && p[83] == 0xC4 &&
      p[84] == 0x80 && p[85] == 0x00 && p[86] == 0x00 && p[87] == 0x00 &&
      p[88] == 0x00 && p[89] == 0x00 && p[90] == 0x00 && p[91] == 0x00 &&
      p[92] == 0x00 && p[93] == 0x00 && p[94] == 0x00 && p[95] == 0x00
    ensures var b := Split(p)[1].words;
      b[4] == 0x6C08DEC4 && b[5] == 0x80000000 && b[6] == 0x00000000 && b[7] == 0x00000000
  {
    SplitWords(p, 1, 4);
    SplitWords(p, 1, 5);
    SplitWords(p, 1, 6);
    SplitWords(p, 1, 7);
  }

  lemma JefeOuterWords6(p: seq<byte>)
    requires |p| == 128
    requires p[96] == 0x00 && p[97] == 0x00 && p[98] == 0x00 && p[99] == 0x00 &&
      p[100] == 0x00 && p[101] == 0x00 && p[102] == 0x00 && p[103] == 0x00 &&
      p[104] == 0x00 && p[105] == 0x00 && p[106] == 0x00 && p[107] == 0x00 &&
      p[108] == 0x00 && p[109] == 0x00 && p[110] == 0x00 && p[111] == 0x00
    ensures var b := Split(p)[1].words;
      b[8] == 0x00000000 && b[9] == 0x00000000 && b[10] == 0x00000000 && b[11] == 0x00000000
  {
    SplitWords(p, 1, 8);
    SplitWords(p, 1, 9);
    SplitWords(p, 1, 10);
    SplitWords(p, 1, 11);
  }

  lemma JefeOuterWords7(p: seq<byte>)
    requires |p| == 128
    requires p[112] == 0x00 && p[113] == 0x00 && p[114] == 0x00 && p[115] == 0x00 &&
      p[116] == 0x00 && p[117] == 0x00 && p[118] == 0x00 && p[119] == 0x00 &&
      p[120] == 0x00 && p[121] == 0x00 && p[122] == 0x00 && p[123] == 0x00 &&
      p[124] == 0x00 && p[125] == 0x00 && p[126] == 0x02 && p[127] == 0xA0
    ensures var b := Split(p)[1].words;
      b[12] == 0x00000000 && b[13] == 0x00000000 && b[14] == 0x00000000 && b[15] == 0x000002A0
  {
    SplitWords(p, 1, 12);
    SplitWords(p, 1, 13);
    SplitWords(p, 1, 14);
    SplitWords(p, 1, 15);
  }

  lemma JefeOuterBlock0(p: seq<byte>, d: seq<byte>)
    requires p == Sha1.Pad(OuterInput(JefeKey, d)) && d == [0x98, 0x85, 0x12, 0x44, 0x3A, 0xF9, 0x1C, 0x57, 0xA3, 0x8C, 0xE2, 0xDC, 0x8E, 0xC3, 0x87, 0x96, 0x6C, 0x08, 0xDE, 0xC4]
    requires |p| == 128
    ensures var b := Split(p)[0].words;
      b[0] == 0x16393A39 && b[1] == 0x5C5C5C5C && b[2] == 0x5C5C5C5C && b[3] == 0x5C5C5C5C &&
      b[4] == 0x5C5C5C5C && b[5] == 0x5C5C5C5C && b[6] == 0x5C5C5C5C && b[7] == 0x5C5C5C5C &&
      b[8] == 0x5C5C5C5C && b[9] == 0x5C5C5C5C && b[10] == 0x5C5C5C5C && b[11] == 0x5C5C5C5C &&
      b[12] == 0x5C5C5C5C && b[13] == 0x5C5C5C5C && b[14] == 0x5C5C5C5C && b[15] == 0x5C5C5C5C
  {
    JefeOuterBytes0(p, d);
    JefeOuterWords0(p);
    JefeOuterBytes1(p, d);
    JefeOuterWords1(p);
    JefeOuterBytes2(p, d);
    JefeOuterWords2(p);
    JefeOuterBytes3(p, d);
    JefeOuterWords3(p);
  }

  lemma JefeOuterBlock1(p: seq<byte>, d: seq<byte>)
    requires p == Sha1.Pad(OuterInput(JefeKey, d)) && d == [0x98, 0x85, 0x12, 0x44, 0x3A, 0xF9, 0x1C, 0x57, 0xA3, 0x8C, 0xE2, 0xDC, 0x8E, 0xC3, 0x87, 0x96, 0x6C, 0x08, 0xDE, 0xC4]
    requires |p| == 128
    ensures var b := Split(p)[1].words;
      b[0] == 0x98851244 && b[1] == 0x3AF91C57 && b[2] == 0xA38CE2DC && b[3] == 0x8EC38796 &&
      b[4] == 0x6C08DEC4 && b[5] == 0x80000000 && b[6] == 0x00000000 && b[7] == 0x00000000 &&
      b[8] == 0x00000000 && b[9] == 0x00000000 && b[10] == 0x00000000 && b[11] == 0x00000000 &&
      b[12] == 0x00000000 && b[13] == 0x00000000 && b[14] == 0x00000000 && b[15] == 0x000002A0
  {
    JefeOuterBytes4(p, d);
    JefeOuterWords4(p);
    JefeOuterBytes5(p, d);
    JefeOuterWords5(p);
    JefeOuterBytes6(p, d);
    JefeOuterWords6(p);
    JefeOuterBytes7(p, d);
    JefeOuterWords7(p);
  }

  lemma JefeOuter0Schedule0(w: seq<word>)
    requires |w| == 80 && forall i :: 16 <= i < 80 ==> Follows(w, i)
    requires w[0] == 0x16393A39 && w[1] == 0x5C5C5C5C && w[2] == 0x5C5C5C5C && w[3] == 0x5C5C5C5C &&
      w[4] == 0x5C5C5C5C && w[5] == 0x5C5C5C5C && w[6] == 0x5C5C5C5C && w[7] == 0x5C5C5C5C &&
      w[8] == 0x5C5C5C5C && w[9] == 0x5C5C5C5C && w[10] == 0x5C5C5C5C && w[11] == 0x5C5C5C5C &&
      w[12] == 0x5C5C5C5C && w[13] == 0x5C5C5C5C && w[14] == 0x5C5C5C5C && w[15] == 0x5C5C5C5C
    ensures w[16] == 0x94CACCCA && w[17] == 0x00000000 && w[18] == 0x00000000 && w[19] == 0x912D212D &&
      w[20] == 0xB8B8B8B8 && w[21] == 0xB8B8B8B8 && w[22] == 0x9AE2FAE3 && w[23] == 0xC9C9C9C9 &&
      w[24] == 0x58E4E8E4 && w[25] == 0x35C5F5C7 && w[26] == 0x93939393 && w[27] == 0x93939393 &&
      w[28] == 0x1AFA9AFF && w[29] == 0x56565656 && w[30] == 0x83CFF3CD && w[31] == 0x1EDE1ED5
  {
    assert Follows(w, 16);
    assert Follows(w, 17);
    assert Follows(w, 18);
    assert Follows(w, 19);
    assert Follows(w, 20);
    assert Follows(w, 21);
    assert Follows(w, 22);
    assert Follows(w, 23);
    assert Follows(w, 24);
    assert Follows(w, 25);
    assert Follows(w, 26);
    assert Follows(w, 27);
    assert Follows(w, 28);
    assert Follows(w, 29);
    assert Follows(w, 30);
    assert Follows(w, 31);
  }

  lemma JefeOuter0Schedule1(w: seq<word>)
    requires |w| == 80 && forall i :: 16 <= i < 80 ==> Follows(w, i)
    requires w[16] == 0x94CACCCA && w[17] == 0x00000000 && w[18] == 0x00000000 && w[19] == 0x912D212D &&
      w[20] == 0xB8B8B8B8 && w[21] == 0xB8B8B8B8 && w[22] == 0x9AE2FAE3 && w[23] == 0xC9C9C9C9 &&
      w[24] == 0x58E4E8E4 && w[25] == 0x35C5F5C7 && w[26] == 0x93939393 && w[27] == 0x93939393 &&
      w[28] == 0x1AFA9AFF && w[29] == 0x56565656 && w[30] == 0x83CFF3CD && w[31] == 0x1EDE1ED5
    ensures w[32] == 0x34F0E4F1 && w[33] == 0x4E4E4E4E && w[34] == 0x6BEA6BFC && w[35] == 0x1DEDDDEF &&
      w[36] == 0xEDDD2DD4 && w[37] == 0x999A99B6 && w[38] == 0xB848784A && w[39] == 0x1E1E1E1E &&
      w[40] == 0xCC3A0C60 && w[41] == 0xA0A0A0A0 && w[42] == 0xF93AF91D && w[43] == 0x28242894 &&
      w[44] == 0xA891C88D && w[45] == 0x50505050 && w[46] == 0x4EA68FC4 && w[47] == 0xCC3F0C11
  {
    assert Follows(w, 32);
    assert Follows(w, 33);
    assert Follows(w, 34);
    assert Follows(w, 35);
    assert Follows(w, 36);
    assert Follows(w, 37);
    assert Follows(w, 38);
    assert Follows(w, 39);
    assert Follows(w, 40);
    assert Follows(w, 41);
    assert Follows(w, 42);
    assert Follows(w, 43);
    assert Follows(w, 44);
    assert Follows(w, 45);
    assert Follows(w, 46);
    assert Follows(w, 47);
  }

  lemma JefeOuter0Schedule2(w: seq<word>)
    requires |w| == 80 && forall i :: 16 <= i < 80 ==> Follows(w, i)
    requires w[32] == 0x34F0E4F1 && w[33] == 0x4E4E4E4E && w[34] == 0x6BEA6BFC && w[35] == 0x1DEDDDEF &&
      w[36] == 0xEDDD2DD4 && w[37] == 0x999A99B6 && w[38] == 0xB848784A && w[39] == 0x1E1E1E1E &&
      w[40] == 0xCC3A0C60 && w[41] == 0xA0A0A0A0 && w[42] == 0xF93AF91D && w[43] == 0x28242894 &&
      w[44] == 0xA891C88D && w[45] == 0x50505050 && w[46] == 0x4EA68FC4 && w[47] == 0xCC3F0C11
    ensures w[48] == 0x86E1A67B && w[49] == 0x7B4B798B && w[50] == 0x66656649 && w[51] == 0x5565956C &&
      w[52] == 0x0C9FC931 && w[53] == 0x63636363 && w[54] == 0xDF62DD04 && w[55] == 0xFC3CF73C &&
      w[56] == 0xA10460CB && w[57] == 0x595A5976 && w[58] == 0x97E541CB && w[59] == 0x182B1AC7 &&
      w[60] == 0x67E5AE1D && w[61] == 0xD1D2FDD2 && w[62] == 0x1E1DDCF8 && w[63] == 0x595A5976
  {
    assert Follows(w, 48);
    assert Follows(w, 49);
    assert Follows(w, 50);
    assert Follows(w, 51);
    assert Follows(w, 52);
    assert Follows(w, 53);
    assert Follows(w, 54);
    assert Follows(w, 55);
    assert Follows(w, 56);
    assert Follows(w, 57);
    assert Follows(w, 58);
    assert Follows(w, 59);
    assert Follows(w, 60);
    assert Follows(w, 61);
    assert Follows(w, 62);
    assert Follows(w, 63);
  }

  lemma JefeOuter0Schedule3(w: seq<word>)
    requires |w| == 80 && forall i :: 16 <= i < 80 ==> Follows(w, i)
    requires w[48] == 0x86E1A67B && w[49] == 0x7B4B798B && w[50] == 0x66656649 && w[51] == 0x5565956C &&
      w[52] == 0x0C9FC931 && w[53] == 0x63636363 && w[54] == 0xDF62DD04 && w[55] == 0xFC3CF73C &&
      w[56] == 0xA10460CB && w[57] == 0x595A5976 && w[58] == 0x97E541CB && w[59] == 0x182B1AC7 &&
      w[60] == 0x67E5AE1D && w[61] == 0xD1D2FDD2 && w[62] == 0x1E1DDCF8 && w[63] == 0x595A5976
    ensures w[64] == 0x20A4BA57 && w[65] == 0xD2D2D2D2 && w[66] == 0x488B6F8B && w[67] == 0x1D12AD3E &&
      w[68] == 0xCD94D1F4 && w[69] == 0x0C0C0C0C && w[70] == 0xFAD39812 && w[71] == 0x63504D90 &&
      w[72] == 0x34932EB6 && w[73] == 0xD2E012E2 && w[74] == 0xB7B79B9B && w[75] == 0xC0F0C93B &&
      w[76] == 0xCD1963E6 && w[77] == 0x66666666 && w[78] == 0x09346F0C && w[79] == 0x4B834BA4
  {
    assert Follows(w, 64);
    assert Follows(w, 65);
    assert Follows(w, 66);
    assert Follows(w, 67);
    assert Follows(w, 68);
    assert Follows(w, 69);
    assert Follows(w, 70);
    assert Follows(w, 71);
    assert Follows(w, 72);
    assert Follows(w, 73);
    assert Follows(w, 74);
    assert Follows(w, 75);
    assert Follows(w, 76);
    assert Follows(w, 77);
    assert Follows(w, 78);
    assert Follows(w, 79);
  }

  lemma JefeOuter0Rounds0(w: seq<word>)
    requires |w| == 80
    requires w[0] == 0x16393A39 && w[1] == 0x5C5C5C5C && w[2] == 0x5C5C5C5C && w[3] == 0x5C5C5C5C &&
      w[4] == 0x5C5C5C5C && w[5] == 0x5C5C5C5C && w[6] == 0x5C5C5C5C && w[7] == 0x5C5C5C5C &&
      w[8] == 0x5C5C5C5C && w[9] == 0x5C5C5C5C && w[10] == 0x5C5C5C5C && w[11] == 0x5C5C5C5C &&
      w[12] == 0x5C5C5C5C && w[13] == 0x5C5C5C5C && w[14] == 0x5C5C5C5C && w[15] == 0x5C5C5C5C &&
      w[16] == 0x94CACCCA && w[17] == 0x00000000 && w[18] == 0x00000000 && w[19] == 0x912D212D
    requires Compress(IV, w, 0) == Regs(0x67452301, 0xEFCDAB89, 0x98BADCFE, 0x10325476, 0xC3D2E1F0)
    ensures Compress(IV, w, 20) == Regs(0xF7DC63C8, 0xF5DFD518, 0x1E1A79DF, 0xE9622B27, 0xCDCE51BA)
  {
    assert Round(Regs(0x67452301, 0xEFCDAB89, 0x98BADCFE, 0x10325476, 0xC3D2E1F0), 0x16393A39, 0) == Regs(0xB5EDD2EC, 0x67452301, 0x7BF36AE2, 0x98BADCFE, 0x10325476);
    assert Compress(IV, w, 1) == Regs(0xB5EDD2EC, 0x67452301, 0x7BF36AE2, 0x98BADCFE, 0x10325476);
    assert Round(Regs(0xB5EDD2EC, 0x67452301, 0x7BF36AE2, 0x98BADCFE, 0x10325476), 0x5C5C5C5C, 1) == Regs(0x80C786FF, 0xB5EDD2EC, 0x59D148C0, 0x7BF36AE2, 0x98BADCFE);
    assert Compress(IV, w, 2) == Regs(0x80C786FF, 0xB5EDD2EC, 0x59D148C0, 0x7BF36AE2, 0x98BADCFE);
    assert Round(Regs(0x80C786FF, 0xB5EDD2EC, 0x59D148C0, 0x7BF36AE2, 0x98BADCFE), 0x5C5C5C5C, 2) == Regs(0xC45DFBA5, 0x80C786FF, 0x2D7B74BB, 0x59D148C0, 0x7BF36AE2);
    assert Compress(IV, w, 3) == Regs(0xC45DFBA5, 0x80C786FF, 0x2D7B74BB, 0x59D148C0, 0x7BF36AE2);
    assert Round(Regs(0xC45DFBA5, 0x80C786FF, 0x2D7B74BB, 0x59D148C0, 0x7BF36AE2), 0x5C5C5C5C, 3) == Regs(0x17E5024A, 0xC45DFBA5, 0xE031E1BF, 0x2D7B74BB, 0x59D148C0);
    assert Compress(IV, w, 4) == Regs(0x17E5024A, 0xC45DFBA5, 0xE031E1BF, 0x2D7B74BB, 0x59D148C0);
    assert Round(Regs(0x17E5024A, 0xC45DFBA5, 0xE031E1BF, 0x2D7B74BB, 0x59D148C0), 0x5C5C5C5C, 4) == Regs(0xF6844DB6, 0x17E5024A, 0x71177EE9, 0xE031E1BF, 0x2D7B74BB);
    assert Compress(IV, w, 5) == Regs(0xF6844DB6, 0x17E5024A, 0x71177EE9, 0xE031E1BF, 0x2D7B74BB);
    assert Round(Regs(0xF6844DB6, 0x17E5024A, 0x71177EE9, 0xE031E1BF, 0x2D7B74BB), 0x5C5C5C5C, 5) == Regs(0xA5F9E58B, 0xF6844DB6, 0x85F94092, 0x71177EE9, 0xE031E1BF);
    assert Compress(IV, w, 6) == Regs(0xA5F9E58B, 0xF6844DB6, 0x85F94092, 0x71177EE9, 0xE031E1BF);
    assert Round(Regs(0xA5F9E58B, 0xF6844DB6, 0x85F94092, 0x71177EE9, 0xE031E1BF), 0x5C5C5C5C, 6) == Regs(0xDBE0DC03, 0xA5F9E58B, 0xBDA1136D, 0x85F94092, 0x71177EE9);
    assert Compress(IV, w, 7) == Regs(0xDBE0DC03, 0xA5F9E58B, 0xBDA1136D, 0x85F94092, 0x71177EE9);
    assert Round(Regs(0xDBE0DC03, 0xA5F9E58B, 0xBDA1136D, 0x85F94092, 0x71177EE9), 0x5C5C5C5C, 7) == Regs(0x49B2D672, 0xDBE0DC03, 0xE97E7962, 0xBDA1136D, 0x85F94092);
    assert Compress(IV, w, 8) == Regs(0x49B2D672, 0xDBE0DC03, 0xE97E7962, 0xBDA1136D, 0x85F94092);
    assert Round(Regs(0x49B2D672, 0xDBE0DC03, 0xE97E7962, 0xBDA1136D, 0x85F94092), 0x5C5C5C5C, 8) == Regs(0x6094403E, 0x49B2D672, 0xF6F83700, 0xE97E7962, 0xBDA1136D);
    assert Compress(IV, w, 9) == Regs(0x6094403E, 0x49B2D672, 0xF6F83700, 0xE97E7962, 0xBDA1136D);
    assert Round(Regs(0x6094403E, 0x49B2D672, 0xF6F83700, 0xE97E7962, 0xBDA1136D), 0x5C5C5C5C, 9) == Regs(0x6804302E, 0x6094403E, 0x926CB59C, 0xF6F83700, 0xE97E7962);
    assert Compress(IV, w, 10) == Regs(0x6804302E, 0x6094403E, 0x926CB59C, 0xF6F83700, 0xE97E7962);
    assert Round(Regs(0x6804302E, 0x6094403E, 0x926CB59C, 0xF6F83700, 0xE97E7962), 0x5C5C5C5C, 10) == Regs(0x374F8C40, 0x6804302E, 0x9825100F, 0x926CB59C, 0xF6F83700);
    assert Compress(IV, w, 11) == Regs(0x374F8C40, 0x6804302E, 0x9825100F, 0x926CB59C, 0xF6F83700);
    assert Round(Regs(0x374F8C40, 0x6804302E, 0x9825100F, 0x926CB59C, 0xF6F83700), 0x5C5C5C5C, 11) == Regs(0x32352A99, 0x374F8C40, 0x9A010C0B, 0x9825100F, 0x926CB59C);
    assert Compress(IV, w, 12) == Regs(0x32352A99, 0x374F8C40, 0x9A010C0B, 0x9825100F, 0x926CB59C);
    assert Round(Regs(0x32352A99, 0x374F8C40, 0x9A010C0B, 0x9825100F, 0x926CB59C), 0x5C5C5C5C, 12) == Regs(0x2A11FAC6, 0x32352A99, 0x0DD3E310, 0x9A010C0B, 0x9825100F);
    assert Compress(IV, w, 13) == Regs(0x2A11FAC6, 0x32352A99, 0x0DD3E310, 0x9A010C0B, 0x9825100F);
    assert Round(Regs(0x2A11FAC6, 0x32352A99, 0x0DD3E310, 0x9A010C0B, 0x9825100F), 0x5C5C5C5C, 13) == Regs(0x195464DB, 0x2A11FAC6, 0x4C8D4AA6, 0x0DD3E310, 0x9A010C0B);
    assert Compress(IV, w, 14) == Regs(0x195464DB, 0x2A11FAC6, 0x4C8D4AA6, 0x0DD3E310, 0x9A010C0B);
    assert Round(Regs(0x195464DB, 0x2A11FAC6, 0x4C8D4AA6, 0x0DD3E310, 0x9A010C0B), 0x5C5C5C5C, 14) == Regs(0x892FC8F9, 0x195464DB, 0x8A847EB1, 0x4C8D4AA6, 0x0DD3E310);
    assert Compress(IV, w, 15) == Regs(0x892FC8F9, 0x195464DB, 0x8A847EB1, 0x4C8D4AA6, 0x0DD3E310);
    assert Round(Regs(0x892FC8F9, 0x195464DB, 0x8A847EB1, 0x4C8D4AA6, 0x0DD3E310), 0x5C5C5C5C, 15) == Regs(0x373946EB, 0x892FC8F9, 0xC6551936, 0x8A847EB1, 0x4C8D4AA6);
    assert Compress(IV, w, 16) == Regs(0x373946EB, 0x892FC8F9, 0xC6551936, 0x8A847EB1, 0x4C8D4AA6);
    assert Round(Regs(0x373946EB, 0x892FC8F9, 0xC6551936, 0x8A847EB1, 0x4C8D4AA6), 0x94CACCCA, 16) == Regs(0xA588AC9F, 0x373946EB, 0x624BF23E, 0xC6551936, 0x8A847EB1);
    assert Compress(IV, w, 17) == Regs(0xA588AC9F, 0x373946EB, 0x624BF23E, 0xC6551936, 0x8A847EB1);
    assert Round(Regs(0xA588AC9F, 0x373946EB, 0x624BF23E, 0xC6551936, 0x8A847EB1), 0x00000000, 17) == Regs(0x7869E77C, 0xA588AC9F, 0xCDCE51BA, 0x624BF23E, 0xC6551936);
    assert Compress(IV, w, 18) == Regs(0x7869E77C, 0xA588AC9F, 0xCDCE51BA, 0x624BF23E, 0xC6551936);
    assert Round(Regs(0x7869E77C, 0xA588AC9F, 0xCDCE51BA, 0x624BF23E, 0xC6551936), 0x00000000, 18) == Regs(0xF5DFD518, 0x7869E77C, 0xE9622B27, 0xCDCE51BA, 0x624BF23E);
    assert Compress(IV, w, 19) == Regs(0xF5DFD518, 0x7869E77C, 0xE9622B27, 0xCDCE51BA, 0x624BF23E);
    assert Round(Regs(0xF5DFD518, 0x7869E77C, 0xE9622B27, 0xCDCE51BA, 0x624BF23E), 0x912D212D, 19) == Regs(0xF7DC63C8, 0xF5DFD518, 0x1E1A79DF, 0xE9622B27, 0xCDCE51BA);
    assert Compress(IV, w, 20) == Regs(0xF7DC63C8, 0xF5DFD518, 0x1E1A79DF, 0xE9622B27, 0xCDCE51BA);
  }

  lemma JefeOuter0Rounds1(w: seq<word>)
    requires |w| == 80
    requires w[20] == 0xB8B8B8B8 && w[21] == 0xB8B8B8B8 && w[22] == 0x9AE2FAE3 && w[23] == 0xC9C9C9C9 &&
      w[24] == 0x58E4E8E4 && w[25] == 0x35C5F5C7 && w[26] == 0x93939393 && w[27] == 0x93939393 &&
      w[28] == 0x1AFA9AFF && w[29] == 0x56565656 && w[30] == 0x83CFF3CD && w[31] == 0x1EDE1ED5 &&
      w[32] == 0x34F0E4F1 && w[33] == 0x4E4E4E4E && w[34] == 0x6BEA6BFC && w[35] == 0x1DEDDDEF &&
      w[36] == 0xEDDD2DD4 && w[37] == 0x999A99B6 && w[38] == 0xB848784A && w[39] == 0x1E1E1E1E
    requires Compress(IV, w, 20) == Regs(0xF7DC63C8, 0xF5DFD518, 0x1E1A79DF, 0xE9622B27, 0xCDCE51BA)
    ensures Compress(IV, w, 40) == Regs(0x9453EEB9, 0x7F4AD0CF, 0xDC53289B, 0x3FBF3D3E, 0x3F41063C)
  {
    assert Round(Regs(0xF7DC63C8, 0xF5DFD518, 0x1E1A79DF, 0xE9622B27, 0xCDCE51BA), 0xB8B8B8B8, 20) == Regs(0xF394F711, 0xF7DC63C8, 0x3D77F546, 0x1E1A79DF, 0xE9622B27);
    assert Compress(IV, w, 21) == Regs(0xF394F711, 0xF7DC63C8, 0x3D77F546, 0x1E1A79DF, 0xE9622B27);
    assert Round(Regs(0xF394F711, 0xF7DC63C8, 0x3D77F546, 0x1E1A79DF, 0xE9622B27), 0xB8B8B8B8, 21) == Regs(0x5845A10F, 0xF394F711, 0x3DF718F2, 0x3D77F546, 0x1E1A79DF);
    assert Compress(IV, w, 22) == Regs(0x5845A10F, 0xF394F711, 0x3DF718F2, 0x3D77F546, 0x1E1A79DF);
    assert Round(Regs(0x5845A10F, 0xF394F711, 0x3DF718F2, 0x3D77F546, 0x1E1A79DF), 0x9AE2FAE3, 22) == Regs(0x239F9CF3, 0x5845A10F, 0x7CE53DC4, 0x3DF718F2, 0x3D77F546);
    assert Compress(IV, w, 23) == Regs(0x239F9CF3, 0x5845A10F, 0x7CE53DC4, 0x3DF718F2, 0x3D77F546);
    assert Round(Regs(0x239F9CF3, 0x5845A10F, 0x7CE53DC4, 0x3DF718F2, 0x3D77F546), 0xC9C9C9C9, 23) == Regs(0x0366CD4D, 0x239F9CF3, 0xD6116843, 0x7CE53DC4, 0x3DF718F2);
    assert Compress(IV, w, 24) == Regs(0x0366CD4D, 0x239F9CF3, 0xD6116843, 0x7CE53DC4, 0x3DF718F2);
    assert Round(Regs(0x0366CD4D, 0x239F9CF3, 0xD6116843, 0x7CE53DC4, 0x3DF718F2), 0x58E4E8E4, 24) == Regs(0xFBFB608B, 0x0366CD4D, 0xC8E7E73C, 0xD6116843, 0x7CE53DC4);
    assert Compress(IV, w, 25) == Regs(0xFBFB608B, 0x0366CD4D, 0xC8E7E73C, 0xD6116843, 0x7CE53DC4);
    assert Round(Regs(0xFBFB608B, 0x0366CD4D, 0xC8E7E73C, 0xD6116843, 0x7CE53DC4), 0x35C5F5C7, 25) == Regs(0xBE8172DD, 0xFBFB608B, 0x40D9B353, 0xC8E7E73C, 0xD6116843);
    assert Compress(IV, w, 26) == Regs(0xBE8172DD, 0xFBFB608B, 0x40D9B353, 0xC8E7E73C, 0xD6116843);
    assert Round(Regs(0xBE8172DD, 0xFBFB608B, 0x40D9B353, 0xC8E7E73C, 0xD6116843), 0x93939393, 26) == Regs(0x1C727812, 0xBE8172DD, 0xFEFED822, 0x40D9B353, 0xC8E7E73C);
    assert Compress(IV, w, 27) == Regs(0x1C727812, 0xBE8172DD, 0xFEFED822, 0x40D9B353, 0xC8E7E73C);
    assert Round(Regs(0x1C727812, 0xBE8172DD, 0xFEFED822, 0x40D9B353, 0xC8E7E73C), 0x93939393, 27) == Regs(0x5A4A825F, 0x1C727812, 0x6FA05CB7, 0xFEFED822, 0x40D9B353);
    assert Compress(IV, w, 28) == Regs(0x5A4A825F, 0x1C727812, 0x6FA05CB7, 0xFEFED822, 0x40D9B353);
    assert Round(Regs(0x5A4A825F, 0x1C727812, 0x6FA05CB7, 0xFEFED822, 0x40D9B353), 0x1AFA9AFF, 28) == Regs(0xA12B8265, 0x5A4A825F, 0x871C9E04, 0x6FA05CB7, 0xFEFED822);
    assert Compress(IV, w, 29) == Regs(0xA12B8265, 0x5A4A825F, 0x871C9E04, 0x6FA05CB7, 0xFEFED822);
    assert Round(Regs(0xA12B8265, 0x5A4A825F, 0x871C9E04, 0x6FA05CB7, 0xFEFED822), 0x56565656, 29) == Regs(0x9C95A7B9, 0xA12B8265, 0xD692A097, 0x871C9E04, 0x6FA05CB7);
    assert Compress(IV, w, 30) == Regs(0x9C95A7B9, 0xA12B8265, 0xD692A097, 0x871C9E04, 0x6FA05CB7);
    assert Round(Regs(0x9C95A7B9, 0xA12B8265, 0xD692A097, 0x871C9E04, 0x6FA05CB7), 0x83CFF3CD, 30) == Regs(0xE5A4F04E, 0x9C95A7B9, 0x684AE099, 0xD692A097, 0x871C9E04);
    assert Compress(IV, w, 31) == Regs(0xE5A4F04E, 0x9C95A7B9, 0x684AE099, 0xD692A097, 0x871C9E04);
    assert Round(Regs(0xE5A4F04E, 0x9C95A7B9, 0x684AE099, 0xD692A097, 0x871C9E04), 0x1EDE1ED5, 31) == Regs(0xEBC09A0D, 0xE5A4F04E, 0x672569EE, 0x684AE099, 0xD692A097);
    assert Compress(IV, w, 32) == Regs(0xEBC09A0D, 0xE5A4F04E, 0x672569EE, 0x684AE099, 0xD692A097);
    assert Round(Regs(0xEBC09A0D, 0xE5A4F04E, 0x672569EE, 0x684AE099, 0xD692A097), 0x34F0E4F1, 32) == Regs(0xDD3C2C1F, 0xEBC09A0D, 0xB9693C13, 0x672569EE, 0x684AE099);
    assert Compress(IV, w, 33) == Regs(0xDD3C2C1F, 0xEBC09A0D, 0xB9693C13, 0x672569EE, 0x684AE099);
    assert Round(Regs(0xDD3C2C1F, 0xEBC09A0D, 0xB9693C13, 0x672569EE, 0x684AE099), 0x4E4E4E4E, 33) == Regs(0x02856E73, 0xDD3C2C1F, 0x7AF02683, 0xB9693C13, 0x672569EE);
    assert Compress(IV, w, 34) == Regs(0x02856E73, 0xDD3C2C1F, 0x7AF02683, 0xB9693C13, 0x672569EE);
    assert Round(Regs(0x02856E73, 0xDD3C2C1F, 0x7AF02683, 0xB9693C13, 0x672569EE), 0x6BEA6BFC, 34) == Regs(0xB13CC67A, 0x02856E73, 0xF74F0B07, 0x7AF02683, 0xB9693C13);
    assert Compress(IV, w, 35) == Regs(0xB13CC67A, 0x02856E73, 0xF74F0B07, 0x7AF02683, 0xB9693C13);
    assert Round(Regs(0xB13CC67A, 0x02856E73, 0xF74F0B07, 0x7AF02683, 0xB9693C13), 0x1DEDDDEF, 35) == Regs(0xFD0418F0, 0xB13CC67A, 0xC0A15B9C, 0xF74F0B07, 0x7AF02683);
    assert Compress(IV, w, 36) == Regs(0xFD0418F0, 0xB13CC67A, 0xC0A15B9C, 0xF74F0B07, 0x7AF02683);
    assert Round(Regs(0xFD0418F0, 0xB13CC67A, 0xC0A15B9C, 0xF74F0B07, 0x7AF02683), 0xEDDD2DD4, 36) == Regs(0xFEFCF4F8, 0xFD0418F0, 0xAC4F319E, 0xC0A15B9C, 0xF74F0B07);
    assert Compress(IV, w, 37) == Regs(0xFEFCF4F8, 0xFD0418F0, 0xAC4F319E, 0xC0A15B9C, 0xF74F0B07);
    assert Round(Regs(0xFEFCF4F8, 0xFD0418F0, 0xAC4F319E, 0xC0A15B9C, 0xF74F0B07), 0x999A99B6, 37) == Regs(0x714CA26F, 0xFEFCF4F8, 0x3F41063C, 0xAC4F319E, 0xC0A15B9C);
    assert Compress(IV, w, 38) == Regs(0x714CA26F, 0xFEFCF4F8, 0x3F41063C, 0xAC4F319E, 0xC0A15B9C);
    assert Round(Regs(0x714CA26F, 0xFEFCF4F8, 0x3F41063C, 0xAC4F319E, 0xC0A15B9C), 0xB848784A, 38) == Regs(0x7F4AD0CF, 0x714CA26F, 0x3FBF3D3E, 0x3F41063C, 0xAC4F319E);
    assert Compress(IV, w, 39) == Regs(0x7F4AD0CF, 0x714CA26F, 0x3FBF3D3E, 0x3F41063C, 0xAC4F319E);
    assert Round(Regs(0x7F4AD0CF, 0x714CA26F, 0x3FBF3D3E, 0x3F41063C, 0xAC4F319E), 0x1E1E1E1E, 39) == Regs(0x9453EEB9, 0x7F4AD0CF, 0xDC53289B, 0x3FBF3D3E, 0x3F41063C);
    assert Compress(IV, w, 40) == Regs(0x9453EEB9, 0x7F4AD0CF, 0xDC53289B, 0x3FBF3D3E, 0x3F41063C);
  }

  lemma JefeOuter0Rounds2(w: seq<word>)
    requires |w| == 80
    requires w[40] == 0xCC3A0C60 && w[41] == 0xA0A0A0A0 && w[42] == 0xF93AF91D && w[43] == 0x28242894 &&
      w[44] == 0xA891C88D && w[45] == 0x50505050 && w[46] == 0x4EA68FC4 && w[47] == 0xCC3F0C11 &&
      w[48] == 0x86E1A67B && w[49] == 0x7B4B798B && w[50] == 0x66656649 && w[51] == 0x5565956C &&
      w[52] == 0x0C9FC931 && w[53] == 0x63636363 && w[54] == 0xDF62DD04 && w[55] == 0xFC3CF73C &&
      w[56] == 0xA10460CB && w[57] == 0x595A5976 && w[58] == 0x97E541CB && w[59] == 0x182B1AC7
    requires Compress(IV, w, 40) == Regs(0x9453EEB9, 0x7F4AD0CF, 0xDC53289B, 0x3FBF3D3E, 0x3F41063C)
    ensures Compress(IV, w, 60) == Regs(0x4A8EBA96, 0x688EAC19, 0xD9CB061A, 0x8B9E4595, 0xE6CAB9EF)
  {
    assert Round(Regs(0x9453EEB9, 0x7F4AD0CF, 0xDC53289B, 0x3FBF3D3E, 0x3F41063C), 0xCC3A0C60, 40) == Regs(0xA46FDF49, 0x9453EEB9, 0xDFD2B433, 0xDC53289B, 0x3FBF3D3E);
    assert Compress(IV, w, 41) == Regs(0xA46FDF49, 0x9453EEB9, 0xDFD2B433, 0xDC53289B, 0x3FBF3D3E);
    assert Round(Regs(0xA46FDF49, 0x9453EEB9, 0xDFD2B433, 0xDC53289B, 0x3FBF3D3E), 0xA0A0A0A0, 41) == Regs(0xD9CB30A9, 0xA46FDF49, 0x6514FBAE, 0xDFD2B433, 0xDC53289B);
    assert Compress(IV, w, 42) == Regs(0xD9CB30A9, 0xA46FDF49, 0x6514FBAE, 0xDFD2B433, 0xDC53289B);
    assert Round(Regs(0xD9CB30A9, 0xA46FDF49, 0x6514FBAE, 0xDFD2B433, 0xDC53289B), 0xF93AF91D, 42) == Regs(0x8366F2FA, 0xD9CB30A9, 0x691BF7D2, 0x6514FBAE, 0xDFD2B433);
    assert Compress(IV, w, 43) == Regs(0x8366F2FA, 0xD9CB30A9, 0x691BF7D2, 0x6514FBAE, 0xDFD2B433);
    assert Round(Regs(0x8366F2FA, 0xD9CB30A9, 0x691BF7D2, 0x6514FBAE, 0xDFD2B433), 0x28242894, 43) == Regs(0x6D0CEC9D, 0x8366F2FA, 0x7672CC2A, 0x691BF7D2, 0x6514FBAE);
    assert Compress(IV, w, 44) == Regs(0x6D0CEC9D, 0x8366F2FA, 0x7672CC2A, 0x691BF7D2, 0x6514FBAE);
    assert Round(Regs(0x6D0CEC9D, 0x8366F2FA, 0x7672CC2A, 0x691BF7D2, 0x6514FBAE), 0xA891C88D, 44) == Regs(0xA1D30BBE, 0x6D0CEC9D, 0xA0D9BCBE, 0x7672CC2A, 0x691BF7D2);
    assert Compress(IV, w, 45) == Regs(0xA1D30BBE, 0x6D0CEC9D, 0xA0D9BCBE, 0x7672CC2A, 0x691BF7D2);
    assert Round(Regs(0xA1D30BBE, 0x6D0CEC9D, 0xA0D9BCBE, 0x7672CC2A, 0x691BF7D2), 0x50505050, 45) == Regs(0xE7426990, 0xA1D30BBE, 0x5B433B27, 0xA0D9BCBE, 0x7672CC2A);
    assert Compress(IV, w, 46) == Regs(0xE7426990, 0xA1D30BBE, 0x5B433B27, 0xA0D9BCBE, 0x7672CC2A);
    assert Round(Regs(0xE7426990, 0xA1D30BBE, 0x5B433B27, 0xA0D9BCBE, 0x7672CC2A), 0x4EA68FC4, 46) == Regs(0xDE5586A4, 0xE7426990, 0xA874C2EF, 0x5B433B27, 0xA0D9BCBE);
    assert Compress(IV, w, 47) == Regs(0xDE5586A4, 0xE7426990, 0xA874C2EF, 0x5B433B27, 0xA0D9BCBE);
    assert Round(Regs(0xDE5586A4, 0xE7426990, 0xA874C2EF, 0x5B433B27, 0xA0D9BCBE), 0xCC3F0C11, 47) == Regs(0xB227C5ED, 0xDE5586A4, 0x39D09A64, 0xA874C2EF, 0x5B433B27);
    assert Compress(IV, w, 48) == Regs(0xB227C5ED, 0xDE5586A4, 0x39D09A64, 0xA874C2EF, 0x5B433B27);
    assert Round(Regs(0xB227C5ED, 0xDE5586A4, 0x39D09A64, 0xA874C2EF, 0x5B433B27), 0x86E1A67B, 48) == Regs(0x6E8DDF18, 0xB227C5ED, 0x379561A9, 0x39D09A64, 0xA874C2EF);
    assert Compress(IV, w, 49) == Regs(0x6E8DDF18, 0xB227C5ED, 0x379561A9, 0x39D09A64, 0xA874C2EF);
    assert Round(Regs(0x6E8DDF18, 0xB227C5ED, 0x379561A9, 0x39D09A64, 0xA874C2EF), 0x7B4B798B, 49) == Regs(0xB82D9E50, 0x6E8DDF18, 0x6C89F17B, 0x379561A9, 0x39D09A64);
    assert Compress(IV, w, 50) == Regs(0xB82D9E50, 0x6E8DDF18, 0x6C89F17B, 0x379561A9, 0x39D09A64);
    assert Round(Regs(0xB82D9E50, 0x6E8DDF18, 0x6C89F17B, 0x379561A9, 0x39D09A64), 0x66656649, 50) == Regs(0xA39378D9, 0xB82D9E50, 0x1BA377C6, 0x6C89F17B, 0x379561A9);
    assert Compress(IV, w, 51) == Regs(0xA39378D9, 0xB82D9E50, 0x1BA377C6, 0x6C89F17B, 0x379561A9);
    assert Round(Regs(0xA39378D9, 0xB82D9E50, 0x1BA377C6, 0x6C89F17B, 0x379561A9), 0x5565956C, 51) == Regs(0xC72FC677, 0xA39378D9, 0x2E0B6794, 0x1BA377C6, 0x6C89F17B);
    assert Compress(IV, w, 52) == Regs(0xC72FC677, 0xA39378D9, 0x2E0B6794, 0x1BA377C6, 0x6C89F17B);
    assert Round(Regs(0xC72FC677, 0xA39378D9, 0x2E0B6794, 0x1BA377C6, 0x6C89F17B), 0x0C9FC931, 52) == Regs(0x19C1BE54, 0xC72FC677, 0x68E4DE36, 0x2E0B6794, 0x1BA377C6);
    assert Compress(IV, w, 53) == Regs(0x19C1BE54, 0xC72FC677, 0x68E4DE36, 0x2E0B6794, 0x1BA377C6);
    assert Round(Regs(0x19C1BE54, 0xC72FC677, 0x68E4DE36, 0x2E0B6794, 0x1BA377C6), 0x63636363, 53) == Regs(0xB48A28BE, 0x19C1BE54, 0xF1CBF19D, 0x68E4DE36, 0x2E0B6794);
    assert Compress(IV, w, 54) == Regs(0xB48A28BE, 0x19C1BE54, 0xF1CBF19D, 0x68E4DE36, 0x2E0B6794);
    assert Round(Regs(0xB48A28BE, 0x19C1BE54, 0xF1CBF19D, 0x68E4DE36, 0x2E0B6794), 0xDF62DD04, 54) == Regs(0xA791175E, 0xB48A28BE, 0x06706F95, 0xF1CBF19D, 0x68E4DE36);
    assert Compress(IV, w, 55) == Regs(0xA791175E, 0xB48A28BE, 0x06706F95, 0xF1CBF19D, 0x68E4DE36);
    assert Round(Regs(0xA791175E, 0xB48A28BE, 0x06706F95, 0xF1CBF19D, 0x68E4DE36), 0xFC3CF73C, 55) == Regs(0x9B2AE7BF, 0xA791175E, 0xAD228A2F, 0x06706F95, 0xF1CBF19D);
    assert Compress(IV, w, 56) == Regs(0x9B2AE7BF, 0xA791175E, 0xAD228A2F, 0x06706F95, 0xF1CBF19D);
    assert Round(Regs(0x9B2AE7BF, 0xA791175E, 0xAD228A2F, 0x06706F95, 0xF1CBF19D), 0xA10460CB, 56) == Regs(0x2E791656, 0x9B2AE7BF, 0xA9E445D7, 0xAD228A2F, 0x06706F95);
    assert Compress(IV, w, 57) == Regs(0x2E791656, 0x9B2AE7BF, 0xA9E445D7, 0xAD228A2F, 0x06706F95);
    assert Round(Regs(0x2E791656, 0x9B2AE7BF, 0xA9E445D7, 0xAD228A2F, 0x06706F95), 0x595A5976, 57) == Regs(0x672C186B, 0x2E791656, 0xE6CAB9EF, 0xA9E445D7, 0xAD228A2F);
    assert Compress(IV, w, 58) == Regs(0x672C186B, 0x2E791656, 0xE6CAB9EF, 0xA9E445D7, 0xAD228A2F);
    assert Round(Regs(0x672C186B, 0x2E791656, 0xE6CAB9EF, 0xA9E445D7, 0xAD228A2F), 0x97E541CB, 58) == Regs(0x688EAC19, 0x672C186B, 0x8B9E4595, 0xE6CAB9EF, 0xA9E445D7);
    assert Compress(IV, w, 59) == Regs(0x688EAC19, 0x672C186B, 0x8B9E4595, 0xE6CAB9EF, 0xA9E445D7);
    assert Round(Regs(0x688EAC19, 0x672C186B, 0x8B9E4595, 0xE6CAB9EF, 0xA9E445D7), 0x182B1AC7, 59) == Regs(0x4A8EBA96, 0x688EAC19, 0xD9CB061A, 0x8B9E4595, 0xE6CAB9EF);
    assert Compress(IV, w, 60) == Regs(0x4A8EBA96, 0x688EAC19, 0xD9CB061A, 0x8B9E4595, 0xE6CAB9EF);
  }

  lemma JefeOuter0Rounds3(w: seq<word>)
    requires |w| == 80
    requires w[60] == 0x67E5AE1D && w[61] == 0xD1D2FDD2 && w[62] == 0x1E1DDCF8 && w[63] == 0x595A5976 &&
      w[64] == 0x20A4BA57 && w[65] == 0xD2D2D2D2 && w[66] == 0x488B6F8B && w[67] == 0x1D12AD3E &&
      w[68] == 0xCD94D1F4 && w[69] == 0x0C0C0C0C && w[70] == 0xFAD39812 && w[71] == 0x63504D90 &&
      w[72] == 0x34932EB6 && w[73] == 0xD2E012E2 && w[74] == 0xB7B79B9B && w[75] == 0xC0F0C93B &&
      w[76] == 0xCD1963E6 && w[77] == 0x66666666 && w[78] == 0x09346F0C && w[79] == 0x4B834BA4
    requires Compress(IV, w, 60) == Regs(0x4A8EBA96, 0x688EAC19, 0xD9CB061A, 0x8B9E4595, 0xE6CAB9EF)
    ensures Compress(IV, w, 80) == Regs(0xB9431429, 0x05386518, 0x5F74AE07, 0x7E19A9BC, 0x64386C45)
  {
    assert Round(Regs(0x4A8EBA96, 0x688EAC19, 0xD9CB061A, 0x8B9E4595, 0xE6CAB9EF), 0x67E5AE1D, 60) == Regs(0xA5C66C41, 0x4A8EBA96, 0x5A23AB06, 0xD9CB061A, 0x8B9E4595);
    assert Compress(IV, w, 61) == Regs(0xA5C66C41, 0x4A8EBA96, 0x5A23AB06, 0xD9CB061A, 0x8B9E4595);
    assert Round(Regs(0xA5C66C41, 0x4A8EBA96, 0x5A23AB06, 0xD9CB061A, 0x8B9E4595), 0xD1D2FDD2, 61) == Regs(0xAA07A4FB, 0xA5C66C41, 0x92A3AEA5, 0x5A23AB06, 0xD9CB061A);
    assert Compress(IV, w, 62) == Regs(0xAA07A4FB, 0xA5C66C41, 0x92A3AEA5, 0x5A23AB06, 0xD9CB061A);
    assert Round(Regs(0xAA07A4FB, 0xA5C66C41, 0x92A3AEA5, 0x5A23AB06, 0xD9CB061A), 0x1E1DDCF8, 62) == Regs(0x7086AE3F, 0xAA07A4FB, 0x69719B10, 0x92A3AEA5, 0x5A23AB06);
    assert Compress(IV, w, 63) == Regs(0x7086AE3F, 0xAA07A4FB, 0x69719B10, 0x92A3AEA5, 0x5A23AB06);
    assert Round(Regs(0x7086AE3F, 0xAA07A4FB, 0x69719B10, 0x92A3AEA5, 0x5A23AB06), 0x595A5976, 63) == Regs(0xE08C1F8E, 0x7086AE3F, 0xEA81E93E, 0x69719B10, 0x92A3AEA5);
    assert Compress(IV, w, 64) == Regs(0xE08C1F8E, 0x7086AE3F, 0xEA81E93E, 0x69719B10, 0x92A3AEA5);
    assert Round(Regs(0xE08C1F8E, 0x7086AE3F, 0xEA81E93E, 0x69719B10, 0x92A3AEA5), 0x20A4BA57, 64) == Regs(0x82A5F8BF, 0xE08C1F8E, 0xDC21AB8F, 0xEA81E93E, 0x69719B10);
    assert Compress(IV, w, 65) == Regs(0x82A5F8BF, 0xE08C1F8E, 0xDC21AB8F, 0xEA81E93E, 0x69719B10);
    assert Round(Regs(0x82A5F8BF, 0xE08C1F8E, 0xDC21AB8F, 0xEA81E93E, 0x69719B10), 0xD2D2D2D2, 65) == Regs(0x3192A4E7, 0x82A5F8BF, 0xB82307E3, 0xDC21AB8F, 0xEA81E93E);
    assert Compress(IV, w, 66) == Regs(0x3192A4E7, 0x82A5F8BF, 0xB82307E3, 0xDC21AB8F, 0xEA81E93E);
    assert Round(Regs(0x3192A4E7, 0x82A5F8BF, 0xB82307E3, 0xDC21AB8F, 0xEA81E93E), 0x488B6F8B, 66) == Regs(0x166C0C58, 0x3192A4E7, 0xE0A97E2F, 0xB82307E3, 0xDC21AB8F);
    assert Compress(IV, w, 67) == Regs(0x166C0C58, 0x3192A4E7, 0xE0A97E2F, 0xB82307E3, 0xDC21AB8F);
    assert Round(Regs(0x166C0C58, 0x3192A4E7, 0xE0A97E2F, 0xB82307E3, 0xDC21AB8F), 0x1D12AD3E, 67) == Regs(0xFA3182D0, 0x166C0C58, 0xCC64A939, 0xE0A97E2F, 0xB82307E3);
    assert Compress(IV, w, 68) == Regs(0xFA3182D0, 0x166C0C58, 0xCC64A939, 0xE0A97E2F, 0xB82307E3);
    assert Round(Regs(0xFA3182D0, 0x166C0C58, 0xCC64A939, 0xE0A97E2F, 0xB82307E3), 0xCD94D1F4, 68) == Regs(0xD0ECD11A, 0xFA3182D0, 0x059B0316, 0xCC64A939, 0xE0A97E2F);
    assert Compress(IV, w, 69) == Regs(0xD0ECD11A, 0xFA3182D0, 0x059B0316, 0xCC64A939, 0xE0A97E2F);
    assert Round(Regs(0xD0ECD11A, 0xFA3182D0, 0x059B0316, 0xCC64A939, 0xE0A97E2F), 0x0C0C0C0C, 69) == Regs(0x0880986A, 0xD0ECD11A, 0x3E8C60B4, 0x059B0316, 0xCC64A939);
    assert Compress(IV, w, 70) == Regs(0x0880986A, 0xD0ECD11A, 0x3E8C60B4, 0x059B0316, 0xCC64A939);
    assert Round(Regs(0x0880986A, 0xD0ECD11A, 0x3E8C60B4, 0x059B0316, 0xCC64A939), 0xFAD39812, 70) == Regs(0x8DA9C31A, 0x0880986A, 0xB43B3446, 0x3E8C60B4, 0x059B0316);
    assert Compress(IV, w, 71) == Regs(0x8DA9C31A, 0x0880986A, 0xB43B3446, 0x3E8C60B4, 0x059B0316);
    assert Round(Regs(0x8DA9C31A, 0x0880986A, 0xB43B3446, 0x3E8C60B4, 0x059B0316), 0x63504D90, 71) == Regs(0x6ABE4265, 0x8DA9C31A, 0x8220261A, 0xB43B3446, 0x3E8C60B4);
    assert Compress(IV, w, 72) == Regs(0x6ABE4265, 0x8DA9C31A, 0x8220261A, 0xB43B3446, 0x3E8C60B4);
    assert Round(Regs(0x6ABE4265, 0x8DA9C31A, 0x8220261A, 0xB43B3446, 0x3E8C60B4), 0x34932EB6, 72) == Regs(0x50FD6F33, 0x6ABE4265, 0xA36A70C6, 0x8220261A, 0xB43B3446);
    assert Compress(IV, w, 73) == Regs(0x50FD6F33, 0x6ABE4265, 0xA36A70C6, 0x8220261A, 0xB43B3446);
    assert Round(Regs(0x50FD6F33, 0x6ABE4265, 0xA36A70C6, 0x8220261A, 0xB43B3446), 0xD2E012E2, 73) == Regs(0xBD200421, 0x50FD6F33, 0x5AAF9099, 0xA36A70C6, 0x8220261A);
    assert Compress(IV, w, 74) == Regs(0xBD200421, 0x50FD6F33, 0x5AAF9099, 0xA36A70C6, 0x8220261A);
    assert Round(Regs(0xBD200421, 0x50FD6F33, 0x5AAF9099, 0xA36A70C6, 0x8220261A), 0xB7B79B9B, 74) == Regs(0x5173972E, 0xBD200421, 0xD43F5BCC, 0x5AAF9099, 0xA36A70C6);
    assert Compress(IV, w, 75) == Regs(0x5173972E, 0xBD200421, 0xD43F5BCC, 0x5AAF9099, 0xA36A70C6);
    assert Round(Regs(0x5173972E, 0xBD200421, 0xD43F5BCC, 0x5AAF9099, 0xA36A70C6), 0xC0F0C93B, 75) == Regs(0x90E1B115, 0x5173972E, 0x6F480108, 0xD43F5BCC, 0x5AAF9099);
    assert Compress(IV, w, 76) == Regs(0x90E1B115, 0x5173972E, 0x6F480108, 0xD43F5BCC, 0x5AAF9099);
    assert Round(Regs(0x90E1B115, 0x5173972E, 0x6F480108, 0xD43F5BCC, 0x5AAF9099), 0xCD1963E6, 76) == Regs(0xF866A6F1, 0x90E1B115, 0x945CE5CB, 0x6F480108, 0xD43F5BCC);
    assert Compress(IV, w, 77) == Regs(0xF866A6F1, 0x90E1B115, 0x945CE5CB, 0x6F480108, 0xD43F5BCC);
    assert Round(Regs(0xF866A6F1, 0x90E1B115, 0x945CE5CB, 0x6F480108, 0xD43F5BCC), 0x66666666, 77) == Regs(0x7DD2B81D, 0xF866A6F1, 0x64386C45, 0x945CE5CB, 0x6F480108);
    assert Compress(IV, w, 78) == Regs(0x7DD2B81D, 0xF866A6F1, 0x64386C45, 0x945CE5CB, 0x6F480108);
    assert Round(Regs(0x7DD2B81D, 0xF866A6F1, 0x64386C45, 0x945CE5CB, 0x6F480108), 0x09346F0C, 78) == Regs(0x05386518, 0x7DD2B81D, 0x7E19A9BC, 0x64386C45, 0x945CE5CB);
    assert Compress(IV, w, 79) == Regs(0x05386518, 0x7DD2B81D, 0x7E19A9BC, 0x64386C45, 0x945CE5CB);
    assert Round(Regs(0x05386518, 0x7DD2B81D, 0x7E19A9BC, 0x64386C45, 0x945CE5CB), 0x4B834BA4, 79) == Regs(0xB9431429, 0x05386518, 0x5F74AE07, 0x7E19A9BC, 0x64386C45);
    assert Compress(IV, w, 80) == Regs(0xB9431429, 0x05386518, 0x5F74AE07, 0x7E19A9BC, 0x64386C45);
  }

  lemma JefeOuter0Compress(words: seq<word>)
    requires |words| == 16
    requires words[0] == 0x16393A39 && words[1] == 0x5C5C5C5C && words[2] == 0x5C5C5C5C && words[3] == 0x5C5C5C5C &&
      words[4] == 0x5C5C5C5C && words[5] == 0x5C5C5C5C && words[6] == 0x5C5C5C5C && words[7] == 0x5C5C5C5C &&
      words[8] == 0x5C5C5C5C && words[9] == 0x5C5C5C5C && words[10] == 0x5C5C5C5C && words[11] == 0x5C5C5C5C &&
      words[12] == 0x5C5C5C5C && words[13] == 0x5C5C5C5C && words[14] == 0x5C5C5C5C && words[15] == 0x5C5C5C5C
    ensures Compress(IV, Schedule(words), 80) == Regs(0xB9431429, 0x05386518, 0x5F74AE07, 0x7E19A9BC, 0x64386C45)
  {
    var w := Schedule(words);
    ScheduleIsSchedule(words);
    forall j | 0 <= j < 16
      ensures w[j] == words[j]
    {
      assert w[..16][j] == w[j];
    }
    JefeOuter0Schedule0(w);
    JefeOuter0Schedule1(w);
    JefeOuter0Schedule2(w);
    JefeOuter0Schedule3(w);
    JefeOuter0Rounds0(w);
    JefeOuter0Rounds1(w);
    JefeOuter0Rounds2(w);
    JefeOuter0Rounds3(w);
  }

  lemma JefeOuter1Schedule0(w: seq<word>)
    requires |w| == 80 && forall i :: 16 <= i < 80 ==> Follows(w, i)
    requires w[0] == 0x98851244 && w[1] == 0x3AF91C57 && w[2] == 0xA38CE2DC && w[3] == 0x8EC38796 &&
      w[4] == 0x6C08DEC4 && w[5] == 0x80000000 && w[6] == 0x00000000 && w[7] == 0x00000000 &&
      w[8] == 0x00000000 && w[9] == 0x00000000 && w[10] == 0x00000000 && w[11] == 0x00000000 &&
      w[12] == 0x00000000 && w[13] == 0x00000000 && w[14] == 0x00000000 && w[15] == 0x000002A0
    ensures w[16] == 0x7613E130 && w[17] == 0x68753783 && w[18] == 0x9F087D71 && w[19] == 0xF1A0CD4C &&
      w[20] == 0x08FBD28E && w[21] == 0x3E10FAE2 && w[22] == 0xE3419A99 && w[23] == 0x11F7A05C &&
      w[24] == 0x900637A4 && w[25] == 0x16695A35 && w[26] == 0x1DFFBA5B && w[27] == 0xC34DF5D0 &&
      w[28] == 0x3D251176 && w[29] == 0x47DE8432 && w[30] == 0xAC3F1CF2 && w[31] == 0x894F0812
  {
    assert Follows(w, 16);
    assert Follows(w, 17);
    assert Follows(w, 18);
    assert Follows(w, 19);
    assert Follows(w, 20);
    assert Follows(w, 21);
    assert Follows(w, 22);
    assert Follows(w, 23);
    assert Follows(w, 24);
    assert Follows(w, 25);
    assert Follows(w, 26);
    assert Follows(w, 27);
    assert Follows(w, 28);
    assert Follows(w, 29);
    assert Follows(w, 30);
    assert Follows(w, 31);
  }

  lemma JefeOuter1Schedule1(w: seq<word>)
    requires |w| == 80 && forall i :: 16 <= i < 80 ==> Follows(w, i)
    requires w[16] == 0x7613E130 && w[17] == 0x68753783 && w[18] == 0x9F087D71 && w[19] == 0xF1A0CD4C &&
      w[20] == 0x08FBD28E && w[21] == 0x3E10FAE2 && w[22] == 0xE3419A99 && w[23] == 0x11F7A05C &&
      w[24] == 0x900637A4 && w[25] == 0x16695A35 && w[26] == 0x1DFFBA5B && w[27] == 0xC34DF5D0 &&
      w[28] == 0x3D251176 && w[29] == 0x47DE8432 && w[30] == 0xAC3F1CF2 && w[31] == 0x894F0812
    ensures w[32] == 0x7D865FAE && w[33] == 0x47077810 && w[34] == 0x06863B6C && w[35] == 0xE2F73BA0 &&
      w[36] == 0x233042E3 && w[37] == 0xDD7FCBC0 && w[38] == 0x7B1F14DE && w[39] == 0x5BC36131 &&
      w[40] == 0x5A003322 && w[41] == 0xD2798657 && w[42] == 0xFB3FE2E0 && w[43] == 0x78C8F2C0 &&
      w[44] == 0xC0A79260 && w[45] == 0xD1A34A01 && w[46] == 0xA4DD4A85 && w[47] == 0xAA5906A6
  {
    assert Follows(w, 32);
    assert Follows(w, 33);
    assert Follows(w, 34);
    assert Follows(w, 35);
    assert Follows(w, 36);
    assert Follows(w, 37);
    assert Follows(w, 38);
    assert Follows(w, 39);
    assert Follows(w, 40);
    assert Follows(w, 41);
    assert Follows(w, 42);
    assert Follows(w, 43);
    assert Follows(w, 44);
    assert Follows(w, 45);
    assert Follows(w, 46);
    assert Follows(w, 47);
  }

  lemma JefeOuter1Schedule2(w: seq<word>)
    requires |w| == 80 && forall i :: 16 <= i < 80 ==> Follows(w, i)
    requires w[32] == 0x7D865FAE && w[33] == 0x47077810 && w[34] == 0x06863B6C && w[35] == 0xE2F73BA0 &&
      w[36] == 0x233042E3 && w[37] == 0xDD7FCBC0 && w[38] == 0x7B1F14DE && w[39] == 0x5BC36131 &&
      w[40] == 0x5A003322 && w[41] == 0xD2798657 && w[42] == 0xFB3FE2E0 && w[43] == 0x78C8F2C0 &&
      w[44] == 0xC0A79260 && w[45] == 0xD1A34A01 && w[46] == 0xA4DD4A85 && w[47] == 0xAA5906A6
    ensures w[48] == 0xE1463BC3 && w[49] == 0xA6A91EC5 && w[50] == 0xE9A13B92 && w[51] == 0x4C0C72C7 &&
      w[52] == 0x7C43B530 && w[53] == 0x7D7DB6C5 && w[54] == 0x939C3F7D && w[55] == 0xBF40A9E0 &&
      w[56] == 0x7A08B988 && w[57] == 0x3F08AA5F && w[58] == 0xDAF3C5E4 && w[59] == 0x3EDEE71D &&
      w[60] == 0x4E638F14 && w[61] == 0xB8E87F0D && w[62] == 0xD1B3524D && w[63] == 0xFBA67D2F
  {
    assert Follows(w, 48);
    assert Follows(w, 49);
    assert Follows(w, 50);
    assert Follows(w, 51);
    assert Follows(w, 52);
    assert Follows(w, 53);
    assert Follows(w, 54);
    assert Follows(w, 55);
    assert Follows(w, 56);
    assert Follows(w, 57);
    assert Follows(w, 58);
    assert Follows(w, 59);
    assert Follows(w, 60);
    assert Follows(w, 61);
    assert Follows(w, 62);
    assert Follows(w, 63);
  }

  lemma JefeOuter1Schedule3(w: seq<word>)
    requires |w| == 80 && forall i :: 16 <= i < 80 ==> Follows(w, i)
    requires w[48] == 0xE1463BC3 && w[49] == 0xA6A91EC5 && w[50] == 0xE9A13B92 && w[51] == 0x4C0C72C7 &&
      w[52] == 0x7C43B530 && w[53] == 0x7D7DB6C5 && w[54] == 0x939C3F7D && w[55] == 0xBF40A9E0 &&
      w[56] == 0x7A08B988 && w[57] == 0x3F08AA5F && w[58] == 0xDAF3C5E4 && w[59] == 0x3EDEE71D &&
      w[60] == 0x4E638F14 && w[61] == 0xB8E87F0D && w[62] == 0xD1B3524D && w[63] == 0xFBA67D2F
    ensures w[64] == 0x940F8DA9 && w[65] == 0x083D2820 && w[66] == 0x696E6CD3 && w[67] == 0x37415D6D &&
      w[68] == 0x53025AF3 && w[69] == 0x277619F6 && w[70] == 0x1ECD13AA && w[71] == 0x51D848C6 &&
      w[72] == 0x2705D066 && w[73] == 0x2E4CED90 && w[74] == 0x584CDDCB && w[75] == 0x2CE42A37 &&
      w[76] == 0xC53CD475 && w[77] == 0x78E98C3E && w[78] == 0xEF2BCCF2 && w[79] == 0xCEFF9378
  {
    assert Follows(w, 64);
    assert Follows(w, 65);
    assert Follows(w, 66);
    assert Follows(w, 67);
    assert Follows(w, 68);
    assert Follows(w, 69);
    assert Follows(w, 70);
    assert Follows(w, 71);
    assert Follows(w, 72);
    assert Follows(w, 73);
    assert Follows(w, 74);
    assert Follows(w, 75);
    assert Follows(w, 76);
    assert Follows(w, 77);
    assert Follows(w, 78);
    assert Follows(w, 79);
  }

  lemma JefeOuter1Rounds0(w: seq<word>)
    requires |w| == 80
    requires w[0] == 0x98851244 && w[1] == 0x3AF91C57 && w[2] == 0xA38CE2DC && w[3] == 0x8EC38796 &&
      w[4] == 0x6C08DEC4 && w[5] == 0x80000000 && w[6] == 0x00000000 && w[7] == 0x00000000 &&
      w[8] == 0x00000000 && w[9] == 0x00000000 && w[10] == 0x00000000 && w[11] == 0x00000000 &&
      w[12] == 0x00000000 && w[13] == 0x00000000 && w[14] == 0x00000000 && w[15] == 0x000002A0 &&
      w[16] == 0x7613E130 && w[17] == 0x68753783 && w[18] == 0x9F087D71 && w[19] == 0xF1A0CD4C
    requires Compress(Regs(0x2088372A, 0xF50610A1, 0xF82F8B05, 0x8E4BFE32, 0x280B4E35), w, 0) == Regs(0x2088372A, 0xF50610A1, 0xF82F8B05, 0x8E4BFE32, 0x280B4E35)
    ensures Compress(Regs(0x2088372A, 0xF50610A1, 0xF82F8B05, 0x8E4BFE32, 0x280B4E35), w, 20) == Regs(0xF263FB99, 0x7B438A71, 0x5CEF6235, 0xCF91F6B1, 0x82457773)
  {
    assert Round(Regs(0x2088372A, 0xF50610A1, 0xF82F8B05, 0x8E4BFE32, 0x280B4E35), 0x98851244, 0) == Regs(0x2669AD69, 0x2088372A, 0x7D418428, 0xF82F8B05, 0x8E4BFE32);
    assert Compress(Regs(0x2088372A, 0xF50610A1, 0xF82F8B05, 0x8E4BFE32, 0x280B4E35), w, 1) == Regs(0x2669AD69, 0x2088372A, 0x7D418428, 0xF82F8B05, 0x8E4BFE32);
    assert Round(Regs(0x2669AD69, 0x2088372A, 0x7D418428, 0xF82F8B05, 0x8E4BFE32), 0x3AF91C57, 1) == Regs(0xE924CD73, 0x2669AD69, 0x88220DCA, 0x7D418428, 0xF82F8B05);
    assert Compress(Regs(0x2088372A, 0xF50610A1, 0xF82F8B05, 0x8E4BFE32, 0x280B4E35), w, 2) == Regs(0xE924CD73, 0x2669AD69, 0x88220DCA, 0x7D418428, 0xF82F8B05);
    assert Round(Regs(0xE924CD73, 0x2669AD69, 0x88220DCA, 0x7D418428, 0xF82F8B05), 0xA38CE2DC, 2) == Regs(0x73F8A33F, 0xE924CD73, 0x499A6B5A, 0x88220DCA, 0x7D418428);
    assert Compress(Regs(0x2088372A, 0xF50610A1, 0xF82F8B05, 0x8E4BFE32, 0x280B4E35), w, 3) == Regs(0x73F8A33F, 0xE924CD73, 0x499A6B5A, 0x88220DCA, 0x7D418428);
    assert Round(Regs(0x73F8A33F, 0xE924CD73, 0x499A6B5A, 0x88220DCA, 0x7D418428), 0x8EC38796, 3) == Regs(0x2E9E371F, 0x73F8A33F, 0xFA49335C, 0x499A6B5A, 0x88220DCA);
    assert Compress(Regs(0x2088372A, 0xF50610A1, 0xF82F8B05, 0x8E4BFE32, 0x280B4E35), w, 4) == Regs(0x2E9E371F, 0x73F8A33F, 0xFA49335C, 0x499A6B5A, 0x88220DCA);
    assert Round(Regs(0x2E9E371F, 0x73F8A33F, 0xFA49335C, 0x499A6B5A, 0x88220DCA), 0x6C08DEC4, 4) == Regs(0x9CBEB568, 0x2E9E371F, 0xDCFE28CF, 0xFA49335C, 0x499A6B5A);
    assert Compress(Regs(0x2088372A, 0xF50610A1, 0xF82F8B05, 0x8E4BFE32, 0x280B4E35), w, 5) == Regs(0x9CBEB568, 0x2E9E371F, 0xDCFE28CF, 0xFA49335C, 0x499A6B5A);
    assert Round(Regs(0x9CBEB568, 0x2E9E371F, 0xDCFE28CF, 0xFA49335C, 0x499A6B5A), 0x80000000, 5) == Regs(0x98D2B255, 0x9CBEB568, 0xCBA78DC7, 0xDCFE28CF, 0xFA49335C);
    assert Compress(Regs(0x2088372A, 0xF50610A1, 0xF82F8B05, 0x8E4BFE32, 0x280B4E35), w, 6) == Regs(0x98D2B255, 0x9CBEB568, 0xCBA78DC7, 0xDCFE28CF, 0xFA49335C);
    assert Round(Regs(0x98D2B255, 0x9CBEB568, 0xCBA78DC7, 0xDCFE28CF, 0xFA49335C), 0x00000000, 6) == Regs(0x3808856F, 0x98D2B255, 0x272FAD5A, 0xCBA78DC7, 0xDCFE28CF);
    assert Compress(Regs(0x2088372A, 0xF50610A1, 0xF82F8B05, 0x8E4BFE32, 0x280B4E35), w, 7) == Regs(0x3808856F, 0x98D2B255, 0x272FAD5A, 0xCBA78DC7, 0xDCFE28CF);
    assert Round(Regs(0x3808856F, 0x98D2B255, 0x272FAD5A, 0xCBA78DC7, 0xDCFE28CF), 0x00000000, 7) == Regs(0x7BB8FE21, 0x3808856F, 0x6634AC95, 0x272FAD5A, 0xCBA78DC7);
    assert Compress(Regs(0x2088372A, 0xF50610A1, 0xF82F8B05, 0x8E4BFE32, 0x280B4E35), w, 8) == Regs(0x7BB8FE21, 0x3808856F, 0x6634AC95, 0x272FAD5A, 0xCBA78DC7);
    assert Round(Regs(0x7BB8FE21, 0x3808856F, 0x6634AC95, 0x272FAD5A, 0xCBA78DC7), 0x00000000, 8) == Regs(0xC47177A4, 0x7BB8FE21, 0xCE02215B, 0x6634AC95, 0x272FAD5A);
    assert Compress(Regs(0x2088372A, 0xF50610A1, 0xF82F8B05, 0x8E4BFE32, 0x280B4E35), w, 9) == Regs(0xC47177A4, 0x7BB8FE21, 0xCE02215B, 0x6634AC95, 0x272FAD5A);
    assert Round(Regs(0xC47177A4, 0x7BB8FE21, 0xCE02215B, 0x6634AC95, 0x272FAD5A), 0x00000000, 9) == Regs(0x5DE53C20, 0xC47177A4, 0x5EEE3F88, 0xCE02215B, 0x6634AC95);
    assert Compress(Regs(0x2088372A, 0xF50610A1, 0xF82F8B05, 0x8E4BFE32, 0x280B4E35), w, 10) == Regs(0x5DE53C20, 0xC47177A4, 0x5EEE3F88, 0xCE02215B, 0x6634AC95);
    assert Round(Regs(0x5DE53C20, 0xC47177A4, 0x5EEE3F88, 0xCE02215B, 0x6634AC95), 0x00000000, 10) == Regs(0xCBC0E214, 0x5DE53C20, 0x311C5DE9, 0x5EEE3F88, 0xCE02215B);
    assert Compress(Regs(0x2088372A, 0xF50610A1, 0xF82F8B05, 0x8E4BFE32, 0x280B4E35), w, 11) == Regs(0xCBC0E214, 0x5DE53C20, 0x311C5DE9, 0x5EEE3F88, 0xCE02215B);
    assert Round(Regs(0xCBC0E214, 0x5DE53C20, 0x311C5DE9, 0x5EEE3F88, 0xCE02215B), 0x00000000, 11) == Regs(0xB3AEFD35, 0xCBC0E214, 0x17794F08, 0x311C5DE9, 0x5EEE3F88);
    assert Compress(Regs(0x2088372A, 0xF50610A1, 0xF82F8B05, 0x8E4BFE32, 0x280B4E35), w, 12) == Regs(0xB3AEFD35, 0xCBC0E214, 0x17794F08, 0x311C5DE9, 0x5EEE3F88);
    assert Round(Regs(0xB3AEFD35, 0xCBC0E214, 0x17794F08, 0x311C5DE9, 0x5EEE3F88), 0x00000000, 12) == Regs(0x62ACBFC0, 0xB3AEFD35, 0x32F03885, 0x17794F08, 0x311C5DE9);
    assert Compress(Regs(0x2088372A, 0xF50610A1, 0xF82F8B05, 0x8E4BFE32, 0x280B4E35), w, 13) == Regs(0x62ACBFC0, 0xB3AEFD35, 0x32F03885, 0x17794F08, 0x311C5DE9);
    assert Round(Regs(0x62ACBFC0, 0xB3AEFD35, 0x32F03885, 0x17794F08, 0x311C5DE9), 0x00000000, 13) == Regs(0x1828099B, 0x62ACBFC0, 0x6CEBBF4D, 0x32F03885, 0x17794F08);
    assert Compress(Regs(0x2088372A, 0xF50610A1, 0xF82F8B05, 0x8E4BFE32, 0x280B4E35), w, 14) == Regs(0x1828099B, 0x62ACBFC0, 0x6CEBBF4D, 0x32F03885, 0x17794F08);
    assert Round(Regs(0x1828099B, 0x62ACBFC0, 0x6CEBBF4D, 0x32F03885, 0x17794F08), 0x00000000, 14) == Regs(0xE7F5BB49, 0x1828099B, 0x18AB2FF0, 0x6CEBBF4D, 0x32F03885);
    assert Compress(Regs(0x2088372A, 0xF50610A1, 0xF82F8B05, 0x8E4BFE32, 0x280B4E35), w, 15) == Regs(0xE7F5BB49, 0x1828099B, 0x18AB2FF0, 0x6CEBBF4D, 0x32F03885);
    assert Round(Regs(0xE7F5BB49, 0x1828099B, 0x18AB2FF0, 0x6CEBBF4D, 0x32F03885), 0x000002A0, 15) == Regs(0x0915DDCE, 0xE7F5BB49, 0xC60A0266, 0x18AB2FF0, 0x6CEBBF4D);
    assert Compress(Regs(0x2088372A, 0xF50610A1, 0xF82F8B05, 0x8E4BFE32, 0x280B4E35), w, 16) == Regs(0x0915DDCE, 0xE7F5BB49, 0xC60A0266, 0x18AB2FF0, 0x6CEBBF4D);
    assert Round(Regs(0x0915DDCE, 0xE7F5BB49, 0xC60A0266, 0x18AB2FF0, 0x6CEBBF4D), 0x7613E130, 16) == Regs(0x3E47DAC7, 0x0915DDCE, 0x79FD6ED2, 0xC60A0266, 0x18AB2FF0);
    assert Compress(Regs(0x2088372A, 0xF50610A1, 0xF82F8B05, 0x8E4BFE32, 0x280B4E35), w, 17) == Regs(0x3E47DAC7, 0x0915DDCE, 0x79FD6ED2, 0xC60A0266, 0x18AB2FF0);
    assert Round(Regs(0x3E47DAC7, 0x0915DDCE, 0x79FD6ED2, 0xC60A0266, 0x18AB2FF0), 0x68753783, 17) == Regs(0x73BD88D5, 0x3E47DAC7, 0x82457773, 0x79FD6ED2, 0xC60A0266);
    assert Compress(Regs(0x2088372A, 0xF50610A1, 0xF82F8B05, 0x8E4BFE32, 0x280B4E35), w, 18) == Regs(0x73BD88D5, 0x3E47DAC7, 0x82457773, 0x79FD6ED2, 0xC60A0266);
    assert Round(Regs(0x73BD88D5, 0x3E47DAC7, 0x82457773, 0x79FD6ED2, 0xC60A0266), 0x9F087D71, 18) == Regs(0x7B438A71, 0x73BD88D5, 0xCF91F6B1, 0x82457773, 0x79FD6ED2);
    assert Compress(Regs(0x2088372A, 0xF50610A1, 0xF82F8B05, 0x8E4BFE32, 0x280B4E35), w, 19) == Regs(0x7B438A71, 0x73BD88D5, 0xCF91F6B1, 0x82457773, 0x79FD6ED2);
    assert Round(Regs(0x7B438A71, 0x73BD88D5, 0xCF91F6B1, 0x82457773, 0x79FD6ED2), 0xF1A0CD4C, 19) == Regs(0xF263FB99, 0x7B438A71, 0x5CEF6235, 0xCF91F6B1, 0x82457773);
    assert Compress(Regs(0x2088372A, 0xF50610A1, 0xF82F8B05, 0x8E4BFE32, 0x280B4E35), w, 20) == Regs(0xF263FB99, 0x7B438A71, 0x5CEF6235, 0xCF91F6B1, 0x82457773);
  }

  lemma JefeOuter1Rounds1(w: seq<word>)
    requires |w| == 80
    requires w[20] == 0x08FBD28E && w[21] == 0x3E10FAE2 && w[22] == 0xE3419A99 && w[23] == 0x11F7A05C &&
      w[24] == 0x900637A4 && w[25] == 0x16695A35 && w[26] == 0x1DFFBA5B && w[27] == 0xC34DF5D0 &&
      w[28] == 0x3D251176 && w[29] == 0x47DE8432 && w[30] == 0xAC3F1CF2 && w[31] == 0x894F0812 &&
      w[32] == 0x7D865FAE && w[33] == 0x47077810 && w[34] == 0x06863B6C && w[35] == 0xE2F73BA0 &&
      w[36] == 0x233042E3 && w[37] == 0xDD7FCBC0 && w[38] == 0x7B1F14DE && w[39] == 0x5BC36131
    requires Compress(Regs(0x2088372A, 0xF50610A1, 0xF82F8B05, 0x8E4BFE32, 0x280B4E35), w, 20) == Regs(0xF263FB99, 0x7B438A71, 0x5CEF6235, 0xCF91F6B1, 0x82457773)
    ensures Compress(Regs(0x2088372A, 0xF50610A1, 0xF82F8B05, 0x8E4BFE32, 0x280B4E35), w, 40) == Regs(0xD2F4002F, 0x2C19E00F, 0xF3A22F1A, 0xC567AD01, 0x57C89BFB)
  {
    assert Round(Regs(0xF263FB99, 0x7B438A71, 0x5CEF6235, 0xCF91F6B1, 0x82457773), 0x08FBD28E, 20) == Regs(0x2ED7C7D5, 0xF263FB99, 0x5ED0E29C, 0x5CEF6235, 0xCF91F6B1);
    assert Compress(Regs(0x2088372A, 0xF50610A1, 0xF82F8B05, 0x8E4BFE32, 0x280B4E35), w, 21) == Regs(0x2ED7C7D5, 0xF263FB99, 0x5ED0E29C, 0x5CEF6235, 0xCF91F6B1);
    assert Round(Regs(0x2ED7C7D5, 0xF263FB99, 0x5ED0E29C, 0x5CEF6235, 0xCF91F6B1), 0x3E10FAE2, 21) == Regs(0x47D25309, 0x2ED7C7D5, 0x7C98FEE6, 0x5ED0E29C, 0x5CEF6235);
    assert Compress(Regs(0x2088372A, 0xF50610A1, 0xF82F8B05, 0x8E4BFE32, 0x280B4E35), w, 22) == Regs(0x47D25309, 0x2ED7C7D5, 0x7C98FEE6, 0x5ED0E29C, 0x5CEF6235);
    assert Round(Regs(0x47D25309, 0x2ED7C7D5, 0x7C98FEE6, 0x5ED0E29C, 0x5CEF6235), 0xE3419A99, 22) == Regs(0xB5F52546, 0x47D25309, 0x4BB5F1F5, 0x7C98FEE6, 0x5ED0E29C);
    assert Compress(Regs(0x2088372A, 0xF50610A1, 0xF82F8B05, 0x8E4BFE32, 0x280B4E35), w, 23) == Regs(0xB5F52546, 0x47D25309, 0x4BB5F1F5, 0x7C98FEE6, 0x5ED0E29C);
    assert Round(Regs(0xB5F52546, 0x47D25309, 0x4BB5F1F5, 0x7C98FEE6, 0x5ED0E29C), 0x11F7A05C, 23) == Regs(0x0F467389, 0xB5F52546, 0x51F494C2, 0x4BB5F1F5, 0x7C98FEE6);
    assert Compress(Regs(0x2088372A, 0xF50610A1, 0xF82F8B05, 0x8E4BFE32, 0x280B4E35), w, 24) == Regs(0x0F467389, 0xB5F52546, 0x51F494C2, 0x4BB5F1F5, 0x7C98FEE6);
    assert Round(Regs(0x0F467389, 0xB5F52546, 0x51F494C2, 0x4BB5F1F5, 0x7C98FEE6), 0x900637A4, 24) == Regs(0x13FBD3BD, 0x0F467389, 0xAD7D4951, 0x51F494C2, 0x4BB5F1F5);
    assert Compress(Regs(0x2088372A, 0xF50610A1, 0xF82F8B05, 0x8E4BFE32, 0x280B4E35), w, 25) == Regs(0x13FBD3BD, 0x0F467389, 0xAD7D4951, 0x51F494C2, 0x4BB5F1F5);
    assert Round(Regs(0x13FBD3BD, 0x0F467389, 0xAD7D4951, 0x51F494C2, 0x4BB5F1F5), 0x16695A35, 25) == Regs(0x44435D87, 0x13FBD3BD, 0x43D19CE2, 0xAD7D4951, 0x51F494C2);
    assert Compress(Regs(0x2088372A, 0xF50610A1, 0xF82F8B05, 0x8E4BFE32, 0x280B4E35), w, 26) == Regs(0x44435D87, 0x13FBD3BD, 0x43D19CE2, 0xAD7D4951, 0x51F494C2);
    assert Round(Regs(0x44435D87, 0x13FBD3BD, 0x43D19CE2, 0xAD7D4951, 0x51F494C2), 0x1DFFBA5B, 26) == Regs(0x6490F1B4, 0x44435D87, 0x44FEF4EF, 0x43D19CE2, 0xAD7D4951);
    assert Compress(Regs(0x2088372A, 0xF50610A1, 0xF82F8B05, 0x8E4BFE32, 0x280B4E35), w, 27) == Regs(0x6490F1B4, 0x44435D87, 0x44FEF4EF, 0x43D19CE2, 0xAD7D4951);
    assert Round(Regs(0x6490F1B4, 0x44435D87, 0x44FEF4EF, 0x43D19CE2, 0xAD7D4951), 0xC34DF5D0, 27) == Regs(0xB52F96D8, 0x6490F1B4, 0xD110D761, 0x44FEF4EF, 0x43D19CE2);
    assert Compress(Regs(0x2088372A, 0xF50610A1, 0xF82F8B05, 0x8E4BFE32, 0x280B4E35), w, 28) == Regs(0xB52F96D8, 0x6490F1B4, 0xD110D761, 0x44FEF4EF, 0x43D19CE2);
    assert Round(Regs(0xB52F96D8, 0x6490F1B4, 0xD110D761, 0x44FEF4EF, 0x43D19CE2), 0x3D251176, 28) == Regs(0x87424749, 0xB52F96D8, 0x19243C6D, 0xD110D761, 0x44FEF4EF);
    assert Compress(Regs(0x2088372A, 0xF50610A1, 0xF82F8B05, 0x8E4BFE32, 0x280B4E35), w, 29) == Regs(0x87424749, 0xB52F96D8, 0x19243C6D, 0xD110D761, 0x44FEF4EF);
    assert Round(Regs(0x87424749, 0xB52F96D8, 0x19243C6D, 0xD110D761, 0x44FEF4EF), 0x47DE8432, 29) == Regs(0x611BCBC6, 0x87424749, 0x2D4BE5B6, 0x19243C6D, 0xD110D761);
    assert Compress(Regs(0x2088372A, 0xF50610A1, 0xF82F8B05, 0x8E4BFE32, 0x280B4E35), w, 30) == Regs(0x611BCBC6, 0x87424749, 0x2D4BE5B6, 0x19243C6D, 0xD110D761);
    assert Round(Regs(0x611BCBC6, 0x87424749, 0x2D4BE5B6, 0x19243C6D, 0xD110D761), 0xAC3F1CF2, 30) == Regs(0xC2D0F752, 0x611BCBC6, 0x61D091D2, 0x2D4BE5B6, 0x19243C6D);
    assert Compress(Regs(0x2088372A, 0xF50610A1, 0xF82F8B05, 0x8E4BFE32, 0x280B4E35), w, 31) == Regs(0xC2D0F752, 0x611BCBC6, 0x61D091D2, 0x2D4BE5B6, 0x19243C6D);
    assert Round(Regs(0xC2D0F752, 0x611BCBC6, 0x61D091D2, 0x2D4BE5B6, 0x19243C6D), 0x894F0812, 31) == Regs(0x98ECDA1A, 0xC2D0F752, 0x9846F2F1, 0x61D091D2, 0x2D4BE5B6);
    assert Compress(Regs(0x2088372A, 0xF50610A1, 0xF82F8B05, 0x8E4BFE32, 0x280B4E35), w, 32) == Regs(0x98ECDA1A, 0xC2D0F752, 0x9846F2F1, 0x61D091D2, 0x2D4BE5B6);
    assert Round(Regs(0x98ECDA1A, 0xC2D0F752, 0x9846F2F1, 0x61D091D2, 0x2D4BE5B6), 0x7D865FAE, 32) == Regs(0x728E08C9, 0x98ECDA1A, 0xB0B43DD4, 0x9846F2F1, 0x61D091D2);
    assert Compress(Regs(0x2088372A, 0xF50610A1, 0xF82F8B05, 0x8E4BFE32, 0x280B4E35), w, 33) == Regs(0x728E08C9, 0x98ECDA1A, 0xB0B43DD4, 0x9846F2F1, 0x61D091D2);
    assert Round(Regs(0x728E08C9, 0x98ECDA1A, 0xB0B43DD4, 0x9846F2F1, 0x61D091D2), 0x47077810, 33) == Regs(0x199123F0, 0x728E08C9, 0xA63B3686, 0xB0B43DD4, 0x9846F2F1);
    assert Compress(Regs(0x2088372A, 0xF50610A1, 0xF82F8B05, 0x8E4BFE32, 0x280B4E35), w, 34) == Regs(0x199123F0, 0x728E08C9, 0xA63B3686, 0xB0B43DD4, 0x9846F2F1);
    assert Round(Regs(0x199123F0, 0x728E08C9, 0xA63B3686, 0xB0B43DD4, 0x9846F2F1), 0x06863B6C, 34) == Regs(0xA3CC9B9C, 0x199123F0, 0x5CA38232, 0xA63B3686, 0xB0B43DD4);
    assert Compress(Regs(0x2088372A, 0xF50610A1, 0xF82F8B05, 0x8E4BFE32, 0x280B4E35), w, 35) == Regs(0xA3CC9B9C, 0x199123F0, 0x5CA38232, 0xA63B3686, 0xB0B43DD4);
    assert Round(Regs(0xA3CC9B9C, 0x199123F0, 0x5CA38232, 0xA63B3686, 0xB0B43DD4), 0xE2F73BA0, 35) == Regs(0x5F226FED, 0xA3CC9B9C, 0x066448FC, 0x5CA38232, 0xA63B3686);
    assert Compress(Regs(0x2088372A, 0xF50610A1, 0xF82F8B05, 0x8E4BFE32, 0x280B4E35), w, 36) == Regs(0x5F226FED, 0xA3CC9B9C, 0x066448FC, 0x5CA38232, 0xA63B3686);
    assert Round(Regs(0x5F226FED, 0xA3CC9B9C, 0x066448FC, 0x5CA38232, 0xA63B3686), 0x233042E3, 36) == Regs(0x159EB407, 0x5F226FED, 0x28F326E7, 0x066448FC, 0x5CA38232);
    assert Compress(Regs(0x2088372A, 0xF50610A1, 0xF82F8B05, 0x8E4BFE32, 0x280B4E35), w, 37) == Regs(0x159EB407, 0x5F226FED, 0x28F326E7, 0x066448FC, 0x5CA38232);
    assert Round(Regs(0x159EB407, 0x5F226FED, 0x28F326E7, 0x066448FC, 0x5CA38232), 0xDD7FCBC0, 37) == Regs(0xCE88BC6B, 0x159EB407, 0x57C89BFB, 0x28F326E7, 0x066448FC);
    assert Compress(Regs(0x2088372A, 0xF50610A1, 0xF82F8B05, 0x8E4BFE32, 0x280B4E35), w, 38) == Regs(0xCE88BC6B, 0x159EB407, 0x57C89BFB, 0x28F326E7, 0x066448FC);
    assert Round(Regs(0xCE88BC6B, 0x159EB407, 0x57C89BFB, 0x28F326E7, 0x066448FC), 0x7B1F14DE, 38) == Regs(0x2C19E00F, 0xCE88BC6B, 0xC567AD01, 0x57C89BFB, 0x28F326E7);
    assert Compress(Regs(0x2088372A, 0xF50610A1, 0xF82F8B05, 0x8E4BFE32, 0x280B4E35), w, 39) == Regs(0x2C19E00F, 0xCE88BC6B, 0xC567AD01, 0x57C89BFB, 0x28F326E7);
    assert Round(Regs(0x2C19E00F, 0xCE88BC6B, 0xC567AD01, 0x57C89BFB, 0x28F326E7), 0x5BC36131, 39) == Regs(0xD2F4002F, 0x2C19E00F, 0xF3A22F1A, 0xC567AD01, 0x57C89BFB);
    assert Compress(Regs(0x2088372A, 0xF50610A1, 0xF82F8B05, 0x8E4BFE32, 0x280B4E35), w, 40) == Regs(0xD2F4002F, 0x2C19E00F, 0xF3A22F1A, 0xC567AD01, 0x57C89BFB);
  }

  lemma JefeOuter1Rounds2(w: seq<word>)
    requires |w| == 80
    requires w[40] == 0x5A003322 && w[41] == 0xD2798657 && w[42] == 0xFB3FE2E0 && w[43] == 0x78C8F2C0 &&
      w[44] == 0xC0A79260 && w[45] == 0xD1A34A01 && w[46] == 0xA4DD4A85 && w[47] == 0xAA5906A6 &&
      w[48] == 0xE1463BC3 && w[49] == 0xA6A91EC5 && w[50] == 0xE9A13B92 && w[51] == 0x4C0C72C7 &&
      w[52] == 0x7C43B530 && w[53] == 0x7D7DB6C5 && w[54] == 0x939C3F7D && w[55] == 0xBF40A9E0 &&
      w[56] == 0x7A08B988 && w[57] == 0x3F08AA5F && w[58] == 0xDAF3C5E4 && w[59] == 0x3EDEE71D
    requires Compress(Regs(0x2088372A, 0xF50610A1, 0xF82F8B05, 0x8E4BFE32, 0x280B4E35), w, 40) == Regs(0xD2F4002F, 0x2C19E00F, 0xF3A22F1A, 0xC567AD01, 0x57C89BFB)
    ensures Compress(Regs(0x2088372A, 0xF50610A1, 0xF82F8B05, 0x8E4BFE32, 0x280B4E35), w, 60) == Regs(0x719DBD55, 0x3B2FC430, 0x598F90C1, 0xFF9397BB, 0x488D1FAB)
  {
    assert Round(Regs(0xD2F4002F, 0x2C19E00F, 0xF3A22F1A, 0xC567AD01, 0x57C89BFB), 0x5A003322, 40) == Regs(0x84883EFE, 0xD2F4002F, 0xCB067803, 0xF3A22F1A, 0xC567AD01);
    assert Compress(Regs(0x2088372A, 0xF50610A1, 0xF82F8B05, 0x8E4BFE32, 0x280B4E35), w, 41) == Regs(0x84883EFE, 0xD2F4002F, 0xCB067803, 0xF3A22F1A, 0xC567AD01);
    assert Round(Regs(0x84883EFE, 0xD2F4002F, 0xCB067803, 0xF3A22F1A, 0xC567AD01), 0xD2798657, 41) == Regs(0x8BAAF80F, 0x84883EFE, 0xF4BD000B, 0xCB067803, 0xF3A22F1A);
    assert Compress(Regs(0x2088372A, 0xF50610A1, 0xF82F8B05, 0x8E4BFE32, 0x280B4E35), w, 42) == Regs(0x8BAAF80F, 0x84883EFE, 0xF4BD000B, 0xCB067803, 0xF3A22F1A);
    assert Round(Regs(0x8BAAF80F, 0x84883EFE, 0xF4BD000B, 0xCB067803, 0xF3A22F1A), 0xFB3FE2E0, 42) == Regs(0xB7E908D2, 0x8BAAF80F, 0xA1220FBF, 0xF4BD000B, 0xCB067803);
    assert Compress(Regs(0x2088372A, 0xF50610A1, 0xF82F8B05, 0x8E4BFE32, 0x280B4E35), w, 43) == Regs(0xB7E908D2, 0x8BAAF80F, 0xA1220FBF, 0xF4BD000B, 0xCB067803);
    assert Round(Regs(0xB7E908D2, 0x8BAAF80F, 0xA1220FBF, 0xF4BD000B, 0xCB067803), 0x78C8F2C0, 43) == Regs(0x71B64A04, 0xB7E908D2, 0xE2EABE03, 0xA1220FBF, 0xF4BD000B);
    assert Compress(Regs(0x2088372A, 0xF50610A1, 0xF82F8B05, 0x8E4BFE32, 0x280B4E35), w, 44) == Regs(0x71B64A04, 0xB7E908D2, 0xE2EABE03, 0xA1220FBF, 0xF4BD000B);
    assert Round(Regs(0x71B64A04, 0xB7E908D2, 0xE2EABE03, 0xA1220FBF, 0xF4BD000B), 0xC0A79260, 44) == Regs(0x1F339E68, 0x71B64A04, 0xADFA4234, 0xE2EABE03, 0xA1220FBF);
    assert Compress(Regs(0x2088372A, 0xF50610A1, 0xF82F8B05, 0x8E4BFE32, 0x280B4E35), w, 45) == Regs(0x1F339E68, 0x71B64A04, 0xADFA4234, 0xE2EABE03, 0xA1220FBF);
    assert Round(Regs(0x1F339E68, 0x71B64A04, 0xADFA4234, 0xE2EABE03, 0xA1220FBF), 0xD1A34A01, 45) == Regs(0xCA4F2DA3, 0x1F339E68, 0x1C6D9281, 0xADFA4234, 0xE2EABE03);
    assert Compress(Regs(0x2088372A, 0xF50610A1, 0xF82F8B05, 0x8E4BFE32, 0x280B4E35), w, 46) == Regs(0xCA4F2DA3, 0x1F339E68, 0x1C6D9281, 0xADFA4234, 0xE2EABE03);
    assert Round(Regs(0xCA4F2DA3, 0x1F339E68, 0x1C6D9281, 0xADFA4234, 0xE2EABE03), 0xA4DD4A85, 46) == Regs(0x7E450BFD, 0xCA4F2DA3, 0x07CCE79A, 0x1C6D9281, 0xADFA4234);
    assert Compress(Regs(0x2088372A, 0xF50610A1, 0xF82F8B05, 0x8E4BFE32, 0x280B4E35), w, 47) == Regs(0x7E450BFD, 0xCA4F2DA3, 0x07CCE79A, 0x1C6D9281, 0xADFA4234);
    assert Round(Regs(0x7E450BFD, 0xCA4F2DA3, 0x07CCE79A, 0x1C6D9281, 0xADFA4234), 0xAA5906A6, 47) == Regs(0xBE5E2CE8, 0x7E450BFD, 0xF293CB68, 0x07CCE79A, 0x1C6D9281);
    assert Compress(Regs(0x2088372A, 0xF50610A1, 0xF82F8B05, 0x8E4BFE32, 0x280B4E35), w, 48) == Regs(0xBE5E2CE8, 0x7E450BFD, 0xF293CB68, 0x07CCE79A, 0x1C6D9281);
    assert Round(Regs(0xBE5E2CE8, 0x7E450BFD, 0xF293CB68, 0x07CCE79A, 0x1C6D9281), 0xE1463BC3, 48) == Regs(0xCF5AF42F, 0xBE5E2CE8, 0x5F9142FF, 0xF293CB68, 0x07CCE79A);
    assert Compress(Regs(0x2088372A, 0xF50610A1, 0xF82F8B05, 0x8E4BFE32, 0x280B4E35), w, 49) == Regs(0xCF5AF42F, 0xBE5E2CE8, 0x5F9142FF, 0xF293CB68, 0x07CCE79A);
    assert Round(Regs(0xCF5AF42F, 0xBE5E2CE8, 0x5F9142FF, 0xF293CB68, 0x07CCE79A), 0xA6A91EC5, 49) == Regs(0x2783941C, 0xCF5AF42F, 0x2F978B3A, 0x5F9142FF, 0xF293CB68);
    assert Compress(Regs(0x2088372A, 0xF50610A1, 0xF82F8B05, 0x8E4BFE32, 0x280B4E35), w, 50) == Regs(0x2783941C, 0xCF5AF42F, 0x2F978B3A, 0x5F9142FF, 0xF293CB68);
    assert Round(Regs(0x2783941C, 0xCF5AF42F, 0x2F978B3A, 0x5F9142FF, 0xF293CB68), 0xE9A13B92, 50) == Regs(0xAB570999, 0x2783941C, 0xF3D6BD0B, 0x2F978B3A, 0x5F9142FF);
    assert Compress(Regs(0x2088372A, 0xF50610A1, 0xF82F8B05, 0x8E4BFE32, 0x280B4E35), w, 51) == Regs(0xAB570999, 0x2783941C, 0xF3D6BD0B, 0x2F978B3A, 0x5F9142FF);
    assert Round(Regs(0xAB570999, 0x2783941C, 0xF3D6BD0B, 0x2F978B3A, 0x5F9142FF), 0x4C0C72C7, 51) == Regs(0xCD3242F1, 0xAB570999, 0x09E0E507, 0xF3D6BD0B, 0x2F978B3A);
    assert Compress(Regs(0x2088372A, 0xF50610A1, 0xF82F8B05, 0x8E4BFE32, 0x280B4E35), w, 52) == Regs(0xCD3242F1, 0xAB570999, 0x09E0E507, 0xF3D6BD0B, 0x2F978B3A);
    assert Round(Regs(0xCD3242F1, 0xAB570999, 0x09E0E507, 0xF3D6BD0B, 0x2F978B3A), 0x7C43B530, 52) == Regs(0x8D16088A, 0xCD3242F1, 0x6AD5C266, 0x09E0E507, 0xF3D6BD0B);
    assert Compress(Regs(0x2088372A, 0xF50610A1, 0xF82F8B05, 0x8E4BFE32, 0x280B4E35), w, 53) == Regs(0x8D16088A, 0xCD3242F1, 0x6AD5C266, 0x09E0E507, 0xF3D6BD0B);
    assert Round(Regs(0x8D16088A, 0xCD3242F1, 0x6AD5C266, 0x09E0E507, 0xF3D6BD0B), 0x7D7DB6C5, 53) == Regs(0xED220464, 0x8D16088A, 0x734C90BC, 0x6AD5C266, 0x09E0E507);
    assert Compress(Regs(0x2088372A, 0xF50610A1, 0xF82F8B05, 0x8E4BFE32, 0x280B4E35), w, 54) == Regs(0xED220464, 0x8D16088A, 0x734C90BC, 0x6AD5C266, 0x09E0E507);
    assert Round(Regs(0xED220464, 0x8D16088A, 0x734C90BC, 0x6AD5C266, 0x09E0E507), 0x939C3F7D, 54) == Regs(0x3C2DEEAB, 0xED220464, 0xA3458222, 0x734C90BC, 0x6AD5C266);
    assert Compress(Regs(0x2088372A, 0xF50610A1, 0xF82F8B05, 0x8E4BFE32, 0x280B4E35), w, 55) == Regs(0x3C2DEEAB, 0xED220464, 0xA3458222, 0x734C90BC, 0x6AD5C266);
    assert Round(Regs(0x3C2DEEAB, 0xED220464, 0xA3458222, 0x734C90BC, 0x6AD5C266), 0xBF40A9E0, 55) == Regs(0x22347EAD, 0x3C2DEEAB, 0x3B488119, 0xA3458222, 0x734C90BC);
    assert Compress(Regs(0x2088372A, 0xF50610A1, 0xF82F8B05, 0x8E4BFE32, 0x280B4E35), w, 56) == Regs(0x22347EAD, 0x3C2DEEAB, 0x3B488119, 0xA3458222, 0x734C90BC);
    assert Round(Regs(0x22347EAD, 0x3C2DEEAB, 0x3B488119, 0xA3458222, 0x734C90BC), 0x7A08B988, 56) == Regs(0xFE4E5EEF, 0x22347EAD, 0xCF0B7BAA, 0x3B488119, 0xA3458222);
    assert Compress(Regs(0x2088372A, 0xF50610A1, 0xF82F8B05, 0x8E4BFE32, 0x280B4E35), w, 57) == Regs(0xFE4E5EEF, 0x22347EAD, 0xCF0B7BAA, 0x3B488119, 0xA3458222);
    assert Round(Regs(0xFE4E5EEF, 0x22347EAD, 0xCF0B7BAA, 0x3B488119, 0xA3458222), 0x3F08AA5F, 57) == Regs(0x663E4305, 0xFE4E5EEF, 0x488D1FAB, 0xCF0B7BAA, 0x3B488119);
    assert Compress(Regs(0x2088372A, 0xF50610A1, 0xF82F8B05, 0x8E4BFE32, 0x280B4E35), w, 58) == Regs(0x663E4305, 0xFE4E5EEF, 0x488D1FAB, 0xCF0B7BAA, 0x3B488119);
    assert Round(Regs(0x663E4305, 0xFE4E5EEF, 0x488D1FAB, 0xCF0B7BAA, 0x3B488119), 0xDAF3C5E4, 58) == Regs(0x3B2FC430, 0x663E4305, 0xFF9397BB, 0x488D1FAB, 0xCF0B7BAA);
    assert Compress(Regs(0x2088372A, 0xF50610A1, 0xF82F8B05, 0x8E4BFE32, 0x280B4E35), w, 59) == Regs(0x3B2FC430, 0x663E4305, 0xFF9397BB, 0x488D1FAB, 0xCF0B7BAA);
    assert Round(Regs(0x3B2FC430, 0x663E4305, 0xFF9397BB, 0x488D1FAB, 0xCF0B7BAA), 0x3EDEE71D, 59) == Regs(0x719DBD55, 0x3B2FC430, 0x598F90C1, 0xFF9397BB, 0x488D1FAB);
    assert Compress(Regs(0x2088372A, 0xF50610A1, 0xF82F8B05, 0x8E4BFE32, 0x280B4E35), w, 60) == Regs(0x719DBD55, 0x3B2FC430, 0x598F90C1, 0xFF9397BB, 0x488D1FAB);
  }

  lemma JefeOuter1Rounds3(w: seq<word>)
    requires |w| == 80
    requires w[60] == 0x4E638F14 && w[61] == 0xB8E87F0D && w[62] == 0xD1B3524D && w[63] == 0xFBA67D2F &&
      w[64] == 0x940F8DA9 && w[65] == 0x083D2820 && w[66] == 0x696E6CD3 && w[67] == 0x37415D6D &&
      w[68] == 0x53025AF3 && w[69] == 0x277619F6 && w[70] == 0x1ECD13AA && w[71] == 0x51D848C6 &&
      w[72] == 0x2705D066 && w[73] == 0x2E4CED90 && w[74] == 0x584CDDCB && w[75] == 0x2CE42A37 &&
      w[76] == 0xC53CD475 && w[77] == 0x78E98C3E && w[78] == 0xEF2BCCF2 && w[79] == 0xCEFF9378
    requires Compress(Regs(0x2088372A, 0xF50610A1, 0xF82F8B05, 0x8E4BFE32, 0x280B4E35), w, 60) == Regs(0x719DBD55, 0x3B2FC430, 0x598F90C1, 0xFF9397BB, 0x488D1FAB)
    ensures Compress(Regs(0x2088372A, 0xF50610A1, 0xF82F8B05, 0x8E4BFE32, 0x280B4E35), w, 80) == Regs(0xCF74A840, 0xF0E51F01, 0xDA448BD0, 0x6338E16A, 0xFD8F2E44)
  {
    assert Round(Regs(0x719DBD55, 0x3B2FC430, 0x598F90C1, 0xFF9397BB, 0x488D1FAB), 0x4E638F14, 60) == Regs(0x323EDE8D, 0x719DBD55, 0x0ECBF10C, 0x598F90C1, 0xFF9397BB);
    assert Compress(Regs(0x2088372A, 0xF50610A1, 0xF82F8B05, 0x8E4BFE32, 0x280B4E35), w, 61) == Regs(0x323EDE8D, 0x719DBD55, 0x0ECBF10C, 0x598F90C1, 0xFF9397BB);
    assert Round(Regs(0x323EDE8D, 0x719DBD55, 0x0ECBF10C, 0x598F90C1, 0xFF9397BB), 0xB8E87F0D, 61) == Regs(0xF19486DC, 0x323EDE8D, 0x5C676F55, 0x0ECBF10C, 0x598F90C1);
    assert Compress(Regs(0x2088372A, 0xF50610A1, 0xF82F8B05, 0x8E4BFE32, 0x280B4E35), w, 62) == Regs(0xF19486DC, 0x323EDE8D, 0x5C676F55, 0x0ECBF10C, 0x598F90C1);
    assert Round(Regs(0xF19486DC, 0x323EDE8D, 0x5C676F55, 0x0ECBF10C, 0x598F90C1), 0xD1B3524D, 62) == Regs(0x88C8C156, 0xF19486DC, 0x4C8FB7A3, 0x5C676F55, 0x0ECBF10C);
    assert Compress(Regs(0x2088372A, 0xF50610A1, 0xF82F8B05, 0x8E4BFE32, 0x280B4E35), w, 63) == Regs(0x88C8C156, 0xF19486DC, 0x4C8FB7A3, 0x5C676F55, 0x0ECBF10C);
    assert Round(Regs(0x88C8C156, 0xF19486DC, 0x4C8FB7A3, 0x5C676F55, 0x0ECBF10C), 0xFBA67D2F, 63) == Regs(0xCF69B90C, 0x88C8C156, 0x3C6521B7, 0x4C8FB7A3, 0x5C676F55);
    assert Compress(Regs(0x2088372A, 0xF50610A1, 0xF82F8B05, 0x8E4BFE32, 0x280B4E35), w, 64) == Regs(0xCF69B90C, 0x88C8C156, 0x3C6521B7, 0x4C8FB7A3, 0x5C676F55);
    assert Round(Regs(0xCF69B90C, 0x88C8C156, 0x3C6521B7, 0x4C8FB7A3, 0x5C676F55), 0x940F8DA9, 64) == Regs(0xA03337AF, 0xCF69B90C, 0xA2323055, 0x3C6521B7, 0x4C8FB7A3);
    assert Compress(Regs(0x2088372A, 0xF50610A1, 0xF82F8B05, 0x8E4BFE32, 0x280B4E35), w, 65) == Regs(0xA03337AF, 0xCF69B90C, 0xA2323055, 0x3C6521B7, 0x4C8FB7A3);
    assert Round(Regs(0xA03337AF, 0xCF69B90C, 0xA2323055, 0x3C6521B7, 0x4C8FB7A3), 0x083D2820, 65) == Regs(0x76D5407B, 0xA03337AF, 0x33DA6E43, 0xA2323055, 0x3C6521B7);
    assert Compress(Regs(0x2088372A, 0xF50610A1, 0xF82F8B05, 0x8E4BFE32, 0x280B4E35), w, 66) == Regs(0x76D5407B, 0xA03337AF, 0x33DA6E43, 0xA2323055, 0x3C6521B7);
    assert Round(Regs(0x76D5407B, 0xA03337AF, 0x33DA6E43, 0xA2323055, 0x3C6521B7), 0x696E6CD3, 66) == Regs(0x7CB9C987, 0x76D5407B, 0xE80CCDEB, 0x33DA6E43, 0xA2323055);
    assert Compress(Regs(0x2088372A, 0xF50610A1, 0xF82F8B05, 0x8E4BFE32, 0x280B4E35), w, 67) == Regs(0x7CB9C987, 0x76D5407B, 0xE80CCDEB, 0x33DA6E43, 0xA2323055);
    assert Round(Regs(0x7CB9C987, 0x76D5407B, 0xE80CCDEB, 0x33DA6E43, 0xA2323055), 0x37415D6D, 67) == Regs(0xE813645A, 0x7CB9C987, 0xDDB5501E, 0xE80CCDEB, 0x33DA6E43);
    assert Compress(Regs(0x2088372A, 0xF50610A1, 0xF82F8B05, 0x8E4BFE32, 0x280B4E35), w, 68) == Regs(0xE813645A, 0x7CB9C987, 0xDDB5501E, 0xE80CCDEB, 0x33DA6E43);
    assert Round(Regs(0xE813645A, 0x7CB9C987, 0xDDB5501E, 0xE80CCDEB, 0x33DA6E43), 0x53025AF3, 68) == Regs(0x9CAC6ADB, 0xE813645A, 0xDF2E7261, 0xDDB5501E, 0xE80CCDEB);
    assert Compress(Regs(0x2088372A, 0xF50610A1, 0xF82F8B05, 0x8E4BFE32, 0x280B4E35), w, 69) == Regs(0x9CAC6ADB, 0xE813645A, 0xDF2E7261, 0xDDB5501E, 0xE80CCDEB);
    assert Round(Regs(0x9CAC6ADB, 0xE813645A, 0xDF2E7261, 0xDDB5501E, 0xE80CCDEB), 0x277619F6, 69) == Regs(0x59FB4B4F, 0x9CAC6ADB, 0xBA04D916, 0xDF2E7261, 0xDDB5501E);
    assert Compress(Regs(0x2088372A, 0xF50610A1, 0xF82F8B05, 0x8E4BFE32, 0x280B4E35), w, 70) == Regs(0x59FB4B4F, 0x9CAC6ADB, 0xBA04D916, 0xDF2E7261, 0xDDB5501E);
    assert Round(Regs(0x59FB4B4F, 0x9CAC6ADB, 0xBA04D916, 0xDF2E7261, 0xDDB5501E), 0x1ECD13AA, 70) == Regs(0xFFD55135, 0x59FB4B4F, 0xE72B1AB6, 0xBA04D916, 0xDF2E7261);
    assert Compress(Regs(0x2088372A, 0xF50610A1, 0xF82F8B05, 0x8E4BFE32, 0x280B4E35), w, 71) == Regs(0xFFD55135, 0x59FB4B4F, 0xE72B1AB6, 0xBA04D916, 0xDF2E7261);
    assert Round(Regs(0xFFD55135, 0x59FB4B4F, 0xE72B1AB6, 0xBA04D916, 0xDF2E7261), 0x51D848C6, 71) == Regs(0xFAE82CAB, 0xFFD55135, 0xD67ED2D3, 0xE72B1AB6, 0xBA04D916);
    assert Compress(Regs(0x2088372A, 0xF50610A1, 0xF82F8B05, 0x8E4BFE32, 0x280B4E35), w, 72) == Regs(0xFAE82CAB, 0xFFD55135, 0xD67ED2D3, 0xE72B1AB6, 0xBA04D916);
    assert Round(Regs(0xFAE82CAB, 0xFFD55135, 0xD67ED2D3, 0xE72B1AB6, 0xBA04D916), 0x2705D066, 72) == Regs(0xD6F39A21, 0xFAE82CAB, 0x7FF5544D, 0xD67ED2D3, 0xE72B1AB6);
    assert Compress(Regs(0x2088372A, 0xF50610A1, 0xF82F8B05, 0x8E4BFE32, 0x280B4E35), w, 73) == Regs(0xD6F39A21, 0xFAE82CAB, 0x7FF5544D, 0xD67ED2D3, 0xE72B1AB6);
    assert Round(Regs(0xD6F39A21, 0xFAE82CAB, 0x7FF5544D, 0xD67ED2D3, 0xE72B1AB6), 0x2E4CED90, 73) == Regs(0x11B1B88B, 0xD6F39A21, 0xFEBA0B2A, 0x7FF5544D, 0xD67ED2D3);
    assert Compress(Regs(0x2088372A, 0xF50610A1, 0xF82F8B05, 0x8E4BFE32, 0x280B4E35), w, 74) == Regs(0x11B1B88B, 0xD6F39A21, 0xFEBA0B2A, 0x7FF5544D, 0xD67ED2D3);
    assert Round(Regs(0x11B1B88B, 0xD6F39A21, 0xFEBA0B2A, 0x7FF5544D, 0xD67ED2D3), 0x584CDDCB, 74) == Regs(0x8722491C, 0x11B1B88B, 0x75BCE688, 0xFEBA0B2A, 0x7FF5544D);
    assert Compress(Regs(0x2088372A, 0xF50610A1, 0xF82F8B05, 0x8E4BFE32, 0x280B4E35), w, 75) == Regs(0x8722491C, 0x11B1B88B, 0x75BCE688, 0xFEBA0B2A, 0x7FF5544D);
    assert Round(Regs(0x8722491C, 0x11B1B88B, 0x75BCE688, 0xFEBA0B2A, 0x7FF5544D), 0x2CE42A37, 75) == Regs(0xF63CB913, 0x8722491C, 0xC46C6E22, 0x75BCE688, 0xFEBA0B2A);
    assert Compress(Regs(0x2088372A, 0xF50610A1, 0xF82F8B05, 0x8E4BFE32, 0x280B4E35), w, 76) == Regs(0xF63CB913, 0x8722491C, 0xC46C6E22, 0x75BCE688, 0xFEBA0B2A);
    assert Round(Regs(0xF63CB913, 0x8722491C, 0xC46C6E22, 0x75BCE688, 0xFEBA0B2A), 0xC53CD475, 76) == Regs(0x8CE385A9, 0xF63CB913, 0x21C89247, 0xC46C6E22, 0x75BCE688);
    assert Compress(Regs(0x2088372A, 0xF50610A1, 0xF82F8B05, 0x8E4BFE32, 0x280B4E35), w, 77) == Regs(0x8CE385A9, 0xF63CB913, 0x21C89247, 0xC46C6E22, 0x75BCE688);
    assert Round(Regs(0x8CE385A9, 0xF63CB913, 0x21C89247, 0xC46C6E22, 0x75BCE688), 0x78E98C3E, 77) == Regs(0x69122F43, 0x8CE385A9, 0xFD8F2E44, 0x21C89247, 0xC46C6E22);
    assert Compress(Regs(0x2088372A, 0xF50610A1, 0xF82F8B05, 0x8E4BFE32, 0x280B4E35), w, 78) == Regs(0x69122F43, 0x8CE385A9, 0xFD8F2E44, 0x21C89247, 0xC46C6E22);
    assert Round(Regs(0x69122F43, 0x8CE385A9, 0xFD8F2E44, 0x21C89247, 0xC46C6E22), 0xEF2BCCF2, 78) == Regs(0xF0E51F01, 0x69122F43, 0x6338E16A, 0xFD8F2E44, 0x21C89247);
    assert Compress(Regs(0x2088372A, 0xF50610A1, 0xF82F8B05, 0x8E4BFE32, 0x280B4E35), w, 79) == Regs(0xF0E51F01, 0x69122F43, 0x6338E16A, 0xFD8F2E44, 0x21C89247);
    assert Round(Regs(0xF0E51F01, 0x69122F43, 0x6338E16A, 0xFD8F2E44, 0x21C89247), 0xCEFF9378, 79) == Regs(0xCF74A840, 0xF0E51F01, 0xDA448BD0, 0x6338E16A, 0xFD8F2E44);
    assert Compress(Regs(0x2088372A, 0xF50610A1, 0xF82F8B05, 0x8E4BFE32, 0x280B4E35), w, 80) == Regs(0xCF74A840, 0xF0E51F01, 0xDA448BD0, 0x6338E16A, 0xFD8F2E44);
  }

  lemma JefeOuter1Compress(words: seq<word>)
    requires |words| == 16
    requires words[0] == 0x98851244 && words[1] == 0x3AF91C57 && words[2] == 0xA38CE2DC && words[3] == 0x8EC38796 &&
      words[4] == 0x6C08DEC4 && words[5] == 0x80000000 && words[6] == 0x00000000 && words[7] == 0x00000000 &&
      words[8] == 0x00000000 && words[9] == 0x00000000 && words[10] == 0x00000000 && words[11] == 0x00000000 &&
      words[12] == 0x00000000 && words[13] == 0x00000000 && words[14] == 0x00000000 && words[15] == 0x000002A0
    ensures Compress(Regs(0x2088372A, 0xF50610A1, 0xF82F8B05, 0x8E4BFE32, 0x280B4E35), Schedule(words), 80) == Regs(0xCF74A840, 0xF0E51F01, 0xDA448BD0, 0x6338E16A, 0xFD8F2E44)
  {
    var w := Schedule(words);
    ScheduleIsSchedule(words);
    forall j | 0 <= j < 16
      ensures w[j] == words[j]
    {
      assert w[..16][j] == w[j];
    }
    JefeOuter1Schedule0(w);
    JefeOuter1Schedule1(w);
    JefeOuter1Schedule2(w);
    JefeOuter1Schedule3(w);
    JefeOuter1Rounds0(w);
    JefeOuter1Rounds1(w);
    JefeOuter1Rounds2(w);
    JefeOuter1Rounds3(w);
  }

  lemma JefeOuterDigest(d: seq<byte>)
    requires d == [0x98, 0x85, 0x12, 0x44, 0x3A, 0xF9, 0x1C, 0x57, 0xA3, 0x8C, 0xE2, 0xDC, 0x8E, 0xC3, 0x87, 0x96, 0x6C, 0x08, 0xDE, 0xC4]
    ensures Sha1.Digest(OuterInput(JefeKey, d)) == [0xEF, 0xFC, 0xDF, 0x6A, 0xE5, 0xEB, 0x2F, 0xA2, 0xD2, 0x74, 0x16, 0xD5, 0xF1, 0x84, 0xDF, 0x9C, 0x25, 0x9A, 0x7C, 0x79]
  {
    var p := Sha1.Pad(OuterInput(JefeKey, d));
    JefeOuterLength(d);
    JefeOuterBlock0(p, d);
    JefeOuterBlock1(p, d);
    var b := Split(p);
    ChainTwo(IV, b);
    JefeOuter0Compress(b[0].words);
    JefeOuter1Compress(b[1].words);
    assert Sha1.Chain(IV, b) == Regs(0xEFFCDF6A, 0xE5EB2FA2, 0xD27416D5, 0xF184DF9C, 0x259A7C79);
    JefeOuterOutput();
  }

  lemma JefeOuterOutput()
    ensures Serialize(Regs(0xEFFCDF6A, 0xE5EB2FA2, 0xD27416D5, 0xF184DF9C, 0x259A7C79)) == [0xEF, 0xFC, 0xDF, 0x6A, 0xE5, 0xEB, 0x2F, 0xA2, 0xD2, 0x74, 0x16, 0xD5, 0xF1, 0x84, 0xDF, 0x9C, 0x25, 0x9A, 0x7C, 0x79]
  {
  }

  lemma HmacJefe()
    ensures HmacSha1(JefeKey, JefeMessage) == [0xEF, 0xFC, 0xDF, 0x6A, 0xE5, 0xEB, 0x2F, 0xA2, 0xD2, 0x74, 0x16, 0xD5, 0xF1, 0x84, 0xDF, 0x9C, 0x25, 0x9A, 0x7C, 0x79]
  {
    JefeInnerDigest();
    JefeOuterDigest([0x98, 0x85, 0x12, 0x44, 0x3A, 0xF9, 0x1C, 0x57, 0xA3, 0x8C, 0xE2, 0xDC, 0x8E, 0xC3, 0x87, 0x96, 0x6C, 0x08, 0xDE, 0xC4]);
  }

  // ---------------------------------------------- RFC 4226 and RFC 6238

  /** HMAC-SHA1 of counter 0 under the RFC 4226 secret. */
  lemma Rfc0InnerInput0()
    ensures |InnerInput(RfcKey, CounterZero)| == 72
    ensures var m := InnerInput(RfcKey, CounterZero);
      m[0] == 0x07 && m[1] == 0x04 && m[2] == 0x05 && m[3] == 0x02 &&
      m[4] == 0x03 && m[5] == 0x00 && m[6] == 0x01 && m[7] == 0x0E &&
      m[8] == 0x0F && m[9] == 0x06 && m[10] == 0x07 && m[11] == 0x04 &&
      m[12] == 0x05 && m[13] == 0x02 && m[14] == 0x03 && m[15] == 0x00
  {
    var m := InnerInput(RfcKey, CounterZero);
    NormalizeKeyPrefix(RfcKey);
    var k := NormalizeKey(RfcKey);
    assert m[0] == k[0] ^ 0x36;
    assert m[1] == k[1] ^ 0x36;
    assert m[2] == k[2] ^ 0x36;
    assert m[3] == k[3] ^ 0x36;
    assert m[4] == k[4] ^ 0x36;
    assert m[5] == k[5] ^ 0x36;
    assert m[6] == k[6] ^ 0x36;
    assert m[7] == k[7] ^ 0x36;
    assert m[8] == k[8] ^ 0x36;
    assert m[9] == k[9] ^ 0x36;
    assert m[10] == k[10] ^ 0x36;
    assert m[11] == k[11] ^ 0x36;
    assert m[12] == k[12] ^ 0x36;
    assert m[13] == k[13] ^ 0x36;
    assert m[14] == k[14] ^ 0x36;
    assert m[15] == k[15] ^ 0x36;
  }

  lemma Rfc0InnerInput1()
    ensures |InnerInput(RfcKey, CounterZero)| == 72
    ensures var m := InnerInput(RfcKey, CounterZero);
      m[16] == 0x01 && m[17] == 0x0E && m[18] == 0x0F && m[19] == 0x06 &&
      m[20] == 0x36 && m[21] == 0x36 && m[22] == 0x36 && m[23] == 0x36 &&
      m[24] == 0x36 && m[25] == 0x36 && m[26] == 0x36 && m[27] == 0x36 &&
      m[28] == 0x36 && m[29] == 0x36 && m[30] == 0x36 && m[31] == 0x36
  {
    var m := InnerInput(RfcKey, CounterZero);
    NormalizeKeyPrefix(RfcKey);
    var k := NormalizeKey(RfcKey);
    assert m[16] == k[16] ^ 0x36;
    assert m[17] == k[17] ^ 0x36;
    assert m[18] == k[18] ^ 0x36;
    assert m[19] == k[19] ^ 0x36;
    assert m[20] == k[20] ^ 0x36;
    assert m[21] == k[21] ^ 0x36;
    assert m[22] == k[22] ^ 0x36;
    assert m[23] == k[23] ^ 0x36;
    assert m[24] == k[24] ^ 0x36;
    assert m[25] == k[25] ^ 0x36;
    assert m[26] == k[26] ^ 0x36;
    assert m[27] == k[27] ^ 0x36;
    assert m[28] == k[28] ^ 0x36;
    assert m[29] == k[29] ^ 0x36;
    assert m[30] == k[30] ^ 0x36;
    assert m[31] == k[31] ^ 0x36;
  }

  lemma Rfc0InnerInput2()
    ensures |InnerInput(RfcKey, CounterZero)| == 72
    ensures var m := InnerInput(RfcKey, CounterZero);
      m[32] == 0x36 && m[33] == 0x36 && m[34] == 0x36 && m[35] == 0x36 &&
      m[36] == 0x36 && m[37] == 0x36 && m[38] == 0x36 && m[39] == 0x36 &&
      m[40] == 0x36 && m[41] == 0x36 && m[42] == 0x36 && m[43] == 0x36 &&
      m[44] == 0x36 && m[45] == 0x36 && m[46] == 0x36 && m[47] == 0x36
  {
    var m := InnerInput(RfcKey, CounterZero);
    NormalizeKeyPrefix(RfcKey);
    var k := NormalizeKey(RfcKey);
    assert m[32] == k[32] ^ 0x36;
    assert m[33] == k[33] ^ 0x36;
    assert m[34] == k[34] ^ 0x36;
    assert m[35] == k[35] ^ 0x36;
    assert m[36] == k[36] ^ 0x36;
    assert m[37] == k[37] ^ 0x36;
    assert m[38] == k[38] ^ 0x36;
    assert m[39] == k[39] ^ 0x36;
    assert m[40] == k[40] ^ 0x36;
    assert m[41] == k[41] ^ 0x36;
    assert m[42] == k[42] ^ 0x36;
    assert m[43] == k[43] ^ 0x36;
    assert m[44] == k[44] ^ 0x36;
    assert m[45] == k[45] ^ 0x36;
    assert m[46] == k[46] ^ 0x36;
    assert m[47] == k[47] ^ 0x36;
  }

  lemma Rfc0InnerInput3()
    ensures |InnerInput(RfcKey, CounterZero)| == 72
    ensures var m := InnerInput(RfcKey, CounterZero);
      m[48] == 0x36 && m[49] == 0x36 && m[50] == 0x36 && m[51] == 0x36 &&
      m[52] == 0x36 && m[53] == 0x36 && m[54] == 0x36 && m[55] == 0x36 &&
      m[56] == 0x36 && m[57] == 0x36 && m[58] == 0x36 && m[59] == 0x36 &&
      m[60] == 0x36 && m[61] == 0x36 && m[62] == 0x36 && m[63] == 0x36
  {
    var m := InnerInput(RfcKey, CounterZero);
    NormalizeKeyPrefix(RfcKey);
    var k := NormalizeKey(RfcKey);
    assert m[48] == k[48] ^ 0x36;
    assert m[49] == k[49] ^ 0x36;
    assert m[50] == k[50] ^ 0x36;
    assert m[51] == k[51] ^ 0x36;
    assert m[52] == k[52] ^ 0x36;
    assert m[53] == k[53] ^ 0x36;
    assert m[54] == k[54] ^ 0x36;
    assert m[55] == k[55] ^ 0x36;
    assert m[56] == k[56] ^ 0x36;
    assert m[57] == k[57] ^ 0x36;
    assert m[58] == k[58] ^ 0x36;
    assert m[59] == k[59] ^ 0x36;
    assert m[60] == k[60] ^ 0x36;
    assert m[61] == k[61] ^ 0x36;
    assert m[62] == k[62] ^ 0x36;
    assert m[63] == k[63] ^ 0x36;
  }

  lemma Rfc0InnerInput4()
    ensures |InnerInput(RfcKey, CounterZero)| == 72
    ensures var m := InnerInput(RfcKey, CounterZero);
      m[64] == 0x00 && m[65] == 0x00 && m[66] == 0x00 && m[67] == 0x00 &&
      m[68] == 0x00 && m[69] == 0x00 && m[70] == 0x00 && m[71] == 0x00
  {
    var m := InnerInput(RfcKey, CounterZero);
    assert m[64] == m[64..][0];
    assert m[65] == m[64..][1];
    assert m[66] == m[64..][2];
    assert m[67] == m[64..][3];
    assert m[68] == m[64..][4];
    assert m[69] == m[64..][5];
    assert m[70] == m[64..][6];
    assert m[71] == m[64..][7];
  }

  lemma Rfc0InnerLength()
    ensures |Sha1.Pad(InnerInput(RfcKey, CounterZero))| == 128
  {
    HmacInputLength(RfcKey, CounterZero);
  }

  lemma Rfc0InnerBytes0(p: seq<byte>)
    requires p == Sha1.Pad(InnerInput(RfcKey, CounterZero))
    ensures |p| == 128
    ensures p[0] == 0x07 && p[1] == 0x04 && p[2] == 0x05 && p[3] == 0x02 &&
      p[4] == 0x03 && p[5] == 0x00 && p[6] == 0x01 && p[7] == 0x0E &&
      p[8] == 0x0F && p[9] == 0x06 && p[10] == 0x07 && p[11] == 0x04 &&
      p[12] == 0x05 && p[13] == 0x02 && p[14] == 0x03 && p[15] == 0x00
  {
    var m := InnerInput(RfcKey, CounterZero);
    Rfc0InnerLength();
    Rfc0InnerInput0();
    Sha1.PadShape(m);
    assert p[0] == p[..72][0];
    assert p[1] == p[..72][1];
    assert p[2] == p[..72][2];
    assert p[3] == p[..72][3];
    assert p[4] == p[..72][4];
    assert p[5] == p[..72][5];
    assert p[6] == p[..72][6];
    assert p[7] == p[..72][7];
    assert p[8] == p[..72][8];
    assert p[9] == p[..72][9];
    assert p[10] == p[..72][10];
    assert p[11] == p[..72][11];
    assert p[12] == p[..72][12];
    assert p[13] == p[..72][13];
    assert p[14] == p[..72][14];
    assert p[15] == p[..72][15];
  }

  lemma Rfc0InnerBytes1(p: seq<byte>)
    requires p == Sha1.Pad(InnerInput(RfcKey, CounterZero))
    ensures |p| == 128
    ensures p[16] == 0x01 && p[17] == 0x0E && p[18] == 0x0F && p[19] == 0x06 &&
      p[20] == 0x36 && p[21] == 0x36 && p[22] == 0x36 && p[23] == 0x36 &&
      p[24] == 0x36 && p[25] == 0x36 && p[26] == 0x36 && p[27] == 0x36 &&
      p[28] == 0x36 && p[29] == 0x36 && p[30] == 0x36 && p[31] == 0x36
  {
    var m := InnerInput(RfcKey, CounterZero);
    Rfc0InnerLength();
    Rfc0InnerInput1();
    Sha1.PadShape(m);
    assert p[16] == p[..72][16];
    assert p[17] == p[..72][17];
    assert p[18] == p[..72][18];
    assert p[19] == p[..72][19];
    assert p[20] == p[..72][20];
    assert p[21] == p[..72][21];
    assert p[22] == p[..72][22];
    assert p[23] == p[..72][23];
    assert p[24] == p[..72][24];
    assert p[25] == p[..72][25];
    assert p[26] == p[..72][26];
    assert p[27] == p[..72][27];
    assert p[28] == p[..72][28];
    assert p[29] == p[..72][29];
    assert p[30] == p[..72][30];
    assert p[31] == p[..72][31];
  }

  lemma Rfc0InnerBytes2(p: seq<byte>)
    requires p == Sha1.Pad(InnerInput(RfcKey, CounterZero))
    ensures |p| == 128
    ensures p[32] == 0x36 && p[33] == 0x36 && p[34] == 0x36 && p[35] == 0x36 &&
      p[36] == 0x36 && p[37] == 0x36 && p[38] == 0x36 && p[39] == 0x36 &&
      p[40] == 0x36 && p[41] == 0x36 && p[42] == 0x36 && p[43] == 0x36 &&
      p[44] == 0x36 && p[45] == 0x36 && p[46] == 0x36 && p[47] == 0x36
  {
    var m := InnerInput(RfcKey, CounterZero);
    Rfc0InnerLength();
    Rfc0InnerInput2();
    Sha1.PadShape(m);
    assert p[32] == p[..72][32];
    assert p[33] == p[..72][33];
    assert p[34] == p[..72][34];
    assert p[35] == p[..72][35];
    assert p[36] == p[..72][36];
    assert p[37] == p[..72][37];
    assert p[38] == p[..72][38];
    assert p[39] == p[..72][39];
    assert p[40] == p[..72][40];
    assert p[41] == p[..72][41];
    assert p[42] == p[..72][42];
    assert p[43] == p[..72][43];
    assert p[44] == p[..72][44];
    assert p[45] == p[..72][45];
    assert p[46] == p[..72][46];
    assert p[47] == p[..72][47];
  }

  lemma Rfc0InnerBytes3(p: seq<byte>)
    requires p == Sha1.Pad(InnerInput(RfcKey, CounterZero))
    ensures |p| == 128
    ensures p[48] == 0x36 && p[49] == 0x36 && p[50] == 0x36 && p[51] == 0x36 &&
      p[52] == 0x36 && p[53] == 0x36 && p[54] == 0x36 && p[55] == 0x36 &&
      p[56] == 0x36 && p[57] == 0x36 && p[58] == 0x36 && p[59] == 0x36 &&
      p[60] == 0x36 && p[61] == 0x36 && p[62] == 0x36 && p[63] == 0x36
  {
    var m := InnerInput(RfcKey, CounterZero);
    Rfc0InnerLength();
    Rfc0InnerInput3();
    Sha1.PadShape(m);
    assert p[48] == p[..72][48];
    assert p[49] == p[..72][49];
    assert p[50] == p[..72][50];
    assert p[51] == p[..72][51];
    assert p[52] == p[..72][52];
    assert p[53] == p[..72][53];
    assert p[54] == p[..72][54];
    assert p[55] == p[..72][55];
    assert p[56] == p[..72][56];
    assert p[57] == p[..72][57];
    assert p[58] == p[..72][58];
    assert p[59] == p[..72][59];
    assert p[60] == p[..72][60];
    assert p[61] == p[..72][61];
    assert p[62] == p[..72][62];
    assert p[63] == p[..72][63];
  }

  lemma Rfc0InnerBytes4(p: seq<byte>)
    requires p == Sha1.Pad(InnerInput(RfcKey, CounterZero))
    ensures |p| == 128
    ensures p[64] == 0x00 && p[65] == 0x00 && p[66] == 0x00 && p[67] == 0x00 &&
      p[68] == 0x00 && p[69] == 0x00 && p[70] == 0x00 && p[71] == 0x00 &&
      p[72] == 0x80 && p[73] == 0x00 && p[74] == 0x00 && p[75] == 0x00 &&
      p[76] == 0x00 && p[77] == 0x00 && p[78] == 0x00 && p[79] == 0x00
  {
    var m := InnerInput(RfcKey, CounterZero);
    Rfc0InnerLength();
    Rfc0InnerInput4();
    Sha1.PadShape(m);
    assert p[64] == p[..72][64];
    assert p[65] == p[..72][65];
    assert p[66] == p[..72][66];
    assert p[67] == p[..72][67];
    assert p[68] == p[..72][68];
    assert p[69] == p[..72][69];
    assert p[70] == p[..72][70];
    assert p[71] == p[..72][71];
  }

  lemma Rfc0InnerBytes5(p: seq<byte>)
    requires p == Sha1.Pad(InnerInput(RfcKey, CounterZero))
    ensures |p| == 128
    ensures p[80] == 0x00 && p[81] == 0x00 && p[82] == 0x00 && p[83] == 0x00 &&
      p[84] == 0x00 && p[85] == 0x00 && p[86] == 0x00 && p[87] == 0x00 &&
      p[88] == 0x00 && p[89] == 0x00 && p[90] == 0x00 && p[91] == 0x00 &&
      p[92] == 0x00 && p[93] == 0x00 && p[94] == 0x00 && p[95] == 0x00
  {
    var m := InnerInput(RfcKey, CounterZero);
    Rfc0InnerLength();
    Sha1.PadShape(m);
  }

  lemma Rfc0InnerBytes6(p: seq<byte>)
    requires p == Sha1.Pad(InnerInput(RfcKey, CounterZero))
    ensures |p| == 128
    ensures p[96] == 0x00 && p[97] == 0x00 && p[98] == 0x00 && p[99] == 0x00 &&
      p[100] == 0x00 && p[101] == 0x00 && p[102] == 0x00 && p[103] == 0x00 &&
      p[104] == 0x00 && p[105] == 0x00 && p[106] == 0x00 && p[107] == 0x00 &&
      p[108] == 0x00 && p[109] == 0x00 && p[110] == 0x00 && p[111] == 0x00
  {
    var m := InnerInput(RfcKey, CounterZero);
    Rfc0InnerLength();
    Sha1.PadShape(m);
  }

  lemma Rfc0InnerBytes7(p: seq<byte>)
    requires p == Sha1.Pad(InnerInput(RfcKey, CounterZero))
    ensures |p| == 128
    ensures p[112] == 0x00 && p[113] == 0x00 && p[114] == 0x00 && p[115] == 0x00 &&
      p[116] == 0x00 && p[117] == 0x00 && p[118] == 0x00 && p[119] == 0x00 &&
      p[120] == 0x00 && p[121] == 0x00 && p[122] == 0x00 && p[123] == 0x00 &&
      p[124] == 0x00 && p[125] == 0x00 && p[126] == 0x02 && p[127] == 0x40
  {
    var m := InnerInput(RfcKey, CounterZero);
    Rfc0InnerLength();
    Sha1.PadShape(m);
    LengthField240();
    assert p[120] == p[120..][0];
    assert p[121] == p[120..][1];
    assert p[122] == p[120..][2];
    assert p[123] == p[120..][3];
    assert p[124] == p[120..][4];
    assert p[125] == p[120..][5];
    assert p[126] == p[120..][6];
    assert p[127] == p[120..][7];
  }

  lemma Rfc0InnerWords0(p: seq<byte>)
    requires |p| == 128
    requires p[0] == 0x07 && p[1] == 0x04 && p[2] == 0x05 && p[3] == 0x02 &&
      p[4] == 0x03 && p[5] == 0x00 && p[6] == 0x01 && p[7] == 0x0E &&
      p[8] == 0x0F && p[9] == 0x06 && p[10] == 0x07 && p[11] == 0x04 &&
      p[12] == 0x05 && p[13] == 0x02 && p[14] == 0x03 && p[15] == 0x00
    ensures var b := Split(p)[0].words;
      b[0] == 0x07040502 && b[1] == 0x0300010E && b[2] == 0x0F060704 && b[3] == 0x05020300
  {
    SplitWords(p, 0, 0);
    SplitWords(p, 0, 1);
    SplitWords(p, 0, 2);
    SplitWords(p, 0, 3);
  }

  lemma Rfc0InnerWords1(p: seq<byte>)
    requires |p| == 128
    requires p[16] == 0x01 && p[17] == 0x0E && p[18] == 0x0F && p[19] == 0x06 &&
      p[20] == 0x36 && p[21] == 0x36 && p[22] == 0x36 && p[23] == 0x36 &&
      p[24] == 0x36 && p[25] == 0x36 && p[26] == 0x36 && p[27] == 0x36 &&
      p[28] == 0x36 && p[29] == 0x36 && p[30] == 0x36 && p[31] == 0x36
    ensures var b := Split(p)[0].words;
      b[4] == 0x010E0F06 && b[5] == 0x36363636 && b[6] == 0x36363636 && b[7] == 0x36363636
  {
    SplitWords(p, 0, 4);
    SplitWords(p, 0, 5);
    SplitWords(p, 0, 6);
    SplitWords(p, 0, 7);
  }

  lemma Rfc0InnerWords2(p: seq<byte>)
    requires |p| == 128
    requires p[32] == 0x36 && p[33] == 0x36 && p[34] == 0x36 && p[35] == 0x36 &&
      p[36] == 0x36 && p[37] == 0x36 && p[38] == 0x36 && p[39] == 0x36 &&
      p[40] == 0x36 && p[41] == 0x36 && p[42] == 0x36 && p[43] == 0x36 &&
      p[44] == 0x36 && p[45] == 0x36 && p[46] == 0x36 && p[47] == 0x36
    ensures var b := Split(p)[0].words;
      b[8] == 0x36363636 && b[9] == 0x36363636 && b[10] == 0x36363636 && b[11] == 0x36363636
  {
    SplitWords(p, 0, 8);
    SplitWords(p, 0, 9);
    SplitWords(p, 0, 10);
    SplitWords(p, 0, 11);
  }

  lemma Rfc0InnerWords3(p: seq<byte>)
    requires |p| == 128
    requires p[48] == 0x36 && p[49] == 0x36 && p[50] == 0x36 && p[51] == 0x36 &&
      p[52] == 0x36 && p[53] == 0x36 && p[54] == 0x36 && p[55] == 0x36 &&
      p[56] == 0x36 && p[57] == 0x36 && p[58] == 0x36 && p[59] == 0x36 &&
      p[60] == 0x36 && p[61] == 0x36 && p[62] == 0x36 && p[63] == 0x36
    ensures var b := Split(p)[0].words;
      b[12] == 0x36363636 && b[13] == 0x36363636 && b[14] == 0x36363636 && b[15] == 0x36363636
  {
    SplitWords(p, 0, 12);
    SplitWords(p, 0, 13);
    SplitWords(p, 0, 14);
    SplitWords(p, 0, 15);
  }

  lemma Rfc0InnerWords4(p: seq<byte>)
    requires |p| == 128
    requires p[64] == 0x00 && p[65] == 0x00 && p[66] == 0x00 && p[67] == 0x00 &&
      p[68] == 0x00 && p[69] == 0x00 && p[70] == 0x00 && p[71] == 0x00 &&
      p[72] == 0x80 && p[73] == 0x00 && p[74] == 0x00 && p[75] == 0x00 &&
      p[76] == 0x00 && p[77] == 0x00 && p[78] == 0x00 && p[79] == 0x00
    ensures var b := Split(p)[1].words;
      b[0] == 0x00000000 && b[1] == 0x00000000 && b[2] == 0x80000000 && b[3] == 0x00000000
  {
    SplitWords(p, 1, 0);
    SplitWords(p, 1, 1);
    SplitWords(p, 1, 2);
    SplitWords(p, 1, 3);
  }

  lemma Rfc0InnerWords5(p: seq<byte>)
    requires |p| == 128
    requires p[80] == 0x00 && p[81] == 0x00 && p[82] == 0x00 && p[83] == 0x00 &&
      p[84] == 0x00 && p[85] == 0x00 && p[86] == 0x00 && p[87] == 0x00 &&
      p[88] == 0x00 && p[89] == 0x00 && p[90] == 0x00 && p[91] == 0x00 &&
      p[92] == 0x00 && p[93] == 0x00 && p[94] == 0x00 && p[95] == 0x00
    ensures var b := Split(p)[1].words;
      b[4] == 0x00000000 && b[5] == 0x00000000 && b[6] == 0x00000000 && b[7] == 0x00000000
  {
    SplitWords(p, 1, 4);
    SplitWords(p, 1, 5);
    SplitWords(p, 1, 6);
    SplitWords(p, 1, 7);
  }

  lemma Rfc0InnerWords6(p: seq<byte>)
    requires |p| == 128
    requires p[96] == 0x00 && p[97] == 0x00 && p[98] == 0x00 && p[99] == 0x00 &&
      p[100] == 0x00 && p[101] == 0x00 && p[102] == 0x00 && p[103] == 0x00 &&
      p[104] == 0x00 && p[105] == 0x00 && p[106] == 0x00 && p[107] == 0x00 &&
      p[108] == 0x00 && p[109] == 0x00 && p[110] == 0x00 && p[111] == 0x00
    ensures var b := Split(p)[1].words;
      b[8] == 0x00000000 && b[9] == 0x00000000 && b[10] == 0x00000000 && b[11] == 0x00000000
  {
    SplitWords(p, 1, 8);
    SplitWords(p, 1, 9);
    SplitWords(p, 1, 10);
    SplitWords(p, 1, 11);
  }

  lemma Rfc0InnerWords7(p: seq<byte>)
    requires |p| == 128
    requires p[112] == 0x00 && p[113] == 0x00 && p[114] == 0x00 && p[115] == 0x00 &&
      p[116] == 0x00 && p[117] == 0x00 && p[118] == 0x00 && p[119] == 0x00 &&
      p[120] == 0x00 && p[121] == 0x00 && p[122] == 0x00 && p[123] == 0x00 &&
      p[124] == 0x00 && p[125] == 0x00 && p[126] == 0x02 && p[127] == 0x40
    ensures var b := Split(p)[1].words;
      b[12] == 0x00000000 && b[13] == 0x00000000 && b[14] == 0x00000000 && b[15] == 0x00000240
  {
    SplitWords(p, 1, 12);
    SplitWords(p, 1, 13);
    SplitWords(p, 1, 14);
    SplitWords(p, 1, 15);
  }

  lemma Rfc0InnerBlock0(p: seq<byte>)
    requires p == Sha1.Pad(InnerInput(RfcKey, CounterZero))
    requires |p| == 128
    ensures var b := Split(p)[0].words;
      b[0] == 0x07040502 && b[1] == 0x0300010E && b[2] == 0x0F060704 && b[3] == 0x05020300 &&
      b[4] == 0x010E0F06 && b[5] == 0x36363636 && b[6] == 0x36363636 && b[7] == 0x36363636 &&
      b[8] == 0x36363636 && b[9] == 0x36363636 && b[10] == 0x36363636 && b[11] == 0x36363636 &&
      b[12] == 0x36363636 && b[13] == 0x36363636 && b[14] == 0x36363636 && b[15] == 0x36363636
  {
    Rfc0InnerBytes0(p);
    Rfc0InnerWords0(p);
    Rfc0InnerBytes1(p);
    Rfc0InnerWords1(p);
    Rfc0InnerBytes2(p);
    Rfc0InnerWords2(p);
    Rfc0InnerBytes3(p);
    Rfc0InnerWords3(p);
  }

  lemma Rfc0InnerBlock1(p: seq<byte>)
    requires p == Sha1.Pad(InnerInput(RfcKey, CounterZero))
    requires |p| == 128
    ensures var b := Split(p)[1].words;
      b[0] == 0x00000000 && b[1] == 0x00000000 && b[2] == 0x80000000 && b[3] == 0x00000000 &&
      b[4] == 0x00000000 && b[5] == 0x00000000 && b[6] == 0x00000000 && b[7] == 0x00000000 &&
      b[8] == 0x00000000 && b[9] == 0x00000000 && b[10] == 0x00000000 && b[11] == 0x00000000 &&
      b[12] == 0x00000000 && b[13] == 0x00000000 && b[14] == 0x00000000 && b[15] == 0x00000240
  {
    Rfc0InnerBytes4(p);
    Rfc0InnerWords4(p);
    Rfc0InnerBytes5(p);
    Rfc0InnerWords5(p);
    Rfc0InnerBytes6(p);
    Rfc0InnerWords6(p);
    Rfc0InnerBytes7(p);
    Rfc0InnerWords7(p);
  }

  lemma Rfc0Inner0Schedule0(w: seq<word>)
    requires |w| == 80 && forall i :: 16 <= i < 80 ==> Follows(w, i)
    requires w[0] == 0x07040502 && w[1] == 0x0300010E && w[2] == 0x0F060704 && w[3] == 0x05020300 &&
      w[4] == 0x010E0F06 && w[5] == 0x36363636 && w[6] == 0x36363636 && w[7] == 0x36363636 &&
      w[8] == 0x36363636 && w[9] == 0x36363636 && w[10] == 0x36363636 && w[11] == 0x36363636 &&
      w[12] == 0x36363636 && w[13] == 0x36363636 && w[14] == 0x36363636 && w[15] == 0x36363636
    ensures w[16] == 0x1004040C && w[17] == 0x0C04041C && w[18] == 0x1C101004 && w[19] == 0x2A0C0E18 &&
      w[20] == 0x1A141634 && w[21] == 0x544C4C64 && w[22] == 0x3874705C && w[23] == 0x58444004 &&
      w[24] == 0x889090D0 && w[25] == 0x68E0E880 && w[26] == 0x88A8A000 && w[27] == 0x45393D91 &&
      w[28] == 0xE5E9FD68 && w[29] == 0xB9C9D8C9 && w[30] == 0xB6FEFFEE && w[31] == 0x0F3F1E8D
  {
    assert Follows(w, 16);
    assert Follows(w, 17);
    assert Follows(w, 18);
    assert Follows(w, 19);
    assert Follows(w, 20);
    assert Follows(w, 21);
    assert Follows(w, 22);
    assert Follows(w, 23);
    assert Follows(w, 24);
    assert Follows(w, 25);
    assert Follows(w, 26);
    assert Follows(w, 27);
    assert Follows(w, 28);
    assert Follows(w, 29);
    assert Follows(w, 30);
    assert Follows(w, 31);
  }

  lemma Rfc0Inner0Schedule1(w: seq<word>)
    requires |w| == 80 && forall i :: 16 <= i < 80 ==> Follows(w, i)
    requires w[16] == 0x1004040C && w[17] == 0x0C04041C && w[18] == 0x1C101004 && w[19] == 0x2A0C0E18 &&
      w[20] == 0x1A141634 && w[21] == 0x544C4C64 && w[22] == 0x3874705C && w[23] == 0x58444004 &&
      w[24] == 0x889090D0 && w[25] == 0x68E0E880 && w[26] == 0x88A8A000 && w[27] == 0x45393D91 &&
      w[28] == 0xE5E9FD68 && w[29] == 0xB9C9D8C9 && w[30] == 0xB6FEFFEE && w[31] == 0x0F3F1E8D
    ensures w[32] == 0x7A9AB822 && w[33] == 0xF02C3AD5 && w[34] == 0x0327717B && w[35] == 0x83C78F9E &&
      w[36] == 0x6F4B43AA && w[37] == 0x6DCD4BA5 && w[38] == 0x0BBB21F9 && w[39] == 0xA1A1EB46 &&
      w[40] == 0x2EDF86AE && w[41] == 0xAC9D9C7B && w[42] == 0x9F8F8EAB && w[43] == 0xA3D1D8D0 &&
      w[44] == 0x2183BAAF && w[45] == 0x89680694 && w[46] == 0xC81D7DCA && w[47] == 0xFE62EB62
  {
    assert Follows(w, 32);
    assert Follows(w, 33);
    assert Follows(w, 34);
    assert Follows(w, 35);
    assert Follows(w, 36);
    assert Follows(w, 37);
    assert Follows(w, 38);
    assert Follows(w, 39);
    assert Follows(w, 40);
    assert Follows(w, 41);
    assert Follows(w, 42);
    assert Follows(w, 43);
    assert Follows(w, 44);
    assert Follows(w, 45);
    assert Follows(w, 46);
    assert Follows(w, 47);
  }

  lemma Rfc0Inner0Schedule2(w: seq<word>)
    requires |w| == 80 && forall i :: 16 <= i < 80 ==> Follows(w, i)
    requires w[32] == 0x7A9AB822 && w[33] == 0xF02C3AD5 && w[34] == 0x0327717B && w[35] == 0x83C78F9E &&
      w[36] == 0x6F4B43AA && w[37] == 0x6DCD4BA5 && w[38] == 0x0BBB21F9 && w[39] == 0xA1A1EB46 &&
      w[40] == 0x2EDF86AE && w[41] == 0xAC9D9C7B && w[42] == 0x9F8F8EAB && w[43] == 0xA3D1D8D0 &&
      w[44] == 0x2183BAAF && w[45] == 0x89680694 && w[46] == 0xC81D7DCA && w[47] == 0xFE62EB62
    ensures w[48] == 0xBC1492C7 && w[49] == 0x2ED6A9F4 && w[50] == 0x1B02AE30 && w[51] == 0xE39F1C59 &&
      w[52] == 0xD74AE210 && w[53] == 0xBC0C108E && w[54] == 0x1DCD8D88 && w[55] == 0x4828FC9E &&
      w[56] == 0x62911499 && w[57] == 0x78AEC1AE && w[58] == 0xDA4CCD55 && w[59] == 0x576FAD09 &&
      w[60] == 0x8CF5C9B6 && w[61] == 0x2294605A && w[62] == 0x7D579F18 && w[63] == 0x28D2EF7C
  {
    assert Follows(w, 48);
    assert Follows(w, 49);
    assert Follows(w, 50);
    assert Follows(w, 51);
    assert Follows(w, 52);
    assert Follows(w, 53);
    assert Follows(w, 54);
    assert Follows(w, 55);
    assert Follows(w, 56);
    assert Follows(w, 57);
    assert Follows(w, 58);
    assert Follows(w, 59);
    assert Follows(w, 60);
    assert Follows(w, 61);
    assert Follows(w, 62);
    assert Follows(w, 63);
  }

  lemma Rfc0Inner0Schedule3(w: seq<word>)
    requires |w| == 80 && forall i :: 16 <= i < 80 ==> Follows(w, i)
    requires w[48] == 0xBC1492C7 && w[49] == 0x2ED6A9F4 && w[50] == 0x1B02AE30 && w[51] == 0xE39F1C59 &&
      w[52] == 0xD74AE210 && w[53] == 0xBC0C108E && w[54] == 0x1DCD8D88 && w[55] == 0x4828FC9E &&
      w[56] == 0x62911499 && w[57] == 0x78AEC1AE && w[58] == 0xDA4CCD55 && w[59] == 0x576FAD09 &&
      w[60] == 0x8CF5C9B6 && w[61] == 0x2294605A && w[62] == 0x7D579F18 && w[63] == 0x28D2EF7C
    ensures w[64] == 0xCE269069 && w[65] == 0x9161D637 && w[66] == 0x7DACDC12 && w[67] == 0x8DB4636F &&
      w[68] == 0xAE26E033 && w[69] == 0x5638A0B1 && w[70] == 0x1F7ECACD && w[71] == 0x6CE464FF &&
      w[72] == 0x4187D228 && w[73] == 0x43BCE0BB && w[74] == 0x8FE3781C && w[75] == 0x7390F829 &&
      w[76] == 0x3870AC4C && w[77] == 0xA73AAF17 && w[78] == 0xBF3E7B2B && w[79] == 0xDA4FE3F1
  {
    assert Follows(w, 64);
    assert Follows(w, 65);
    assert Follows(w, 66);
    assert Follows(w, 67);
    assert Follows(w, 68);
    assert Follows(w, 69);
    assert Follows(w, 70);
    assert Follows(w, 71);
    assert Follows(w, 72);
    assert Follows(w, 73);
    assert Follows(w, 74);
    assert Follows(w, 75);
    assert Follows(w, 76);
    assert Follows(w, 77);
    assert Follows(w, 78);
    assert Follows(w, 79);
  }

  lemma Rfc0Inner0Rounds0(w: seq<word>)
    requires |w| == 80
    requires w[0] == 0x07040502 && w[1] == 0x0300010E && w[2] == 0x0F060704 && w[3] == 0x05020300 &&
      w[4] == 0x010E0F06 && w[5] == 0x36363636 && w[6] == 0x36363636 && w[7] == 0x36363636 &&
      w[8] == 0x36363636 && w[9] == 0x36363636 && w[10] == 0x36363636 && w[11] == 0x36363636 &&
      w[12] == 0x36363636 && w[13] == 0x36363636 && w[14] == 0x36363636 && w[15] == 0x36363636 &&
      w[16] == 0x1004040C && w[17] == 0x0C04041C && w[18] == 0x1C101004 && w[19] == 0x2A0C0E18
    requires Compress(IV, w, 0) == Regs(0x67452301, 0xEFCDAB89, 0x98BADCFE, 0x10325476, 0xC3D2E1F0)
    ensures Compress(IV, w, 20) == Regs(0xF85A57FC, 0xAC591E50, 0xEFBFCF47, 0x64CCAF35, 0x3694E1FA)
  {
    assert Round(Regs(0x67452301, 0xEFCDAB89, 0x98BADCFE, 0x10325476, 0xC3D2E1F0), 0x07040502, 0) == Regs(0xA6B89DB5, 0x67452301, 0x7BF36AE2, 0x98BADCFE, 0x10325476);
    assert Compress(IV, w, 1) == Regs(0xA6B89DB5, 0x67452301, 0x7BF36AE2, 0x98BADCFE, 0x10325476);
    assert Round(Regs(0xA6B89DB5, 0x67452301, 0x7BF36AE2, 0x98BADCFE, 0x10325476), 0x0300010E, 1) == Regs(0x40C484CF, 0xA6B89DB5, 0x59D148C0, 0x7BF36AE2, 0x98BADCFE);
    assert Compress(IV, w, 2) == Regs(0x40C484CF, 0xA6B89DB5, 0x59D148C0, 0x7BF36AE2, 0x98BADCFE);
    assert Round(Regs(0x40C484CF, 0xA6B89DB5, 0x59D148C0, 0x7BF36AE2, 0x98BADCFE), 0x0F060704, 2) == Regs(0x74A76245, 0x40C484CF, 0x69AE276D, 0x59D148C0, 0x7BF36AE2);
    assert Compress(IV, w, 3) == Regs(0x74A76245, 0x40C484CF, 0x69AE276D, 0x59D148C0, 0x7BF36AE2);
    assert Round(Regs(0x74A76245, 0x40C484CF, 0x69AE276D, 0x59D148C0, 0x7BF36AE2), 0x05020300, 3) == Regs(0xC9F97C76, 0x74A76245, 0xD0312133, 0x69AE276D, 0x59D148C0);
    assert Compress(IV, w, 4) == Regs(0xC9F97C76, 0x74A76245, 0xD0312133, 0x69AE276D, 0x59D148C0);
    assert Round(Regs(0xC9F97C76, 0x74A76245, 0xD0312133, 0x69AE276D, 0x59D148C0), 0x010E0F06, 4) == Regs(0x4DBA8561, 0xC9F97C76, 0x5D29D891, 0xD0312133, 0x69AE276D);
    assert Compress(IV, w, 5) == Regs(0x4DBA8561, 0xC9F97C76, 0x5D29D891, 0xD0312133, 0x69AE276D);
    assert Round(Regs(0x4DBA8561, 0xC9F97C76, 0x5D29D891, 0xD0312133, 0x69AE276D), 0x36363636, 5) == Regs(0x0AE0DC76, 0x4DBA8561, 0xB27E5F1D, 0x5D29D891, 0xD0312133);
    assert Compress(IV, w, 6) == Regs(0x0AE0DC76, 0x4DBA8561, 0xB27E5F1D, 0x5D29D891, 0xD0312133);
    assert Round(Regs(0x0AE0DC76, 0x4DBA8561, 0xB27E5F1D, 0x5D29D891, 0xD0312133), 0x36363636, 6) == Regs(0xCD40BD54, 0x0AE0DC76, 0x536EA158, 0xB27E5F1D, 0x5D29D891);
    assert Compress(IV, w, 7) == Regs(0xCD40BD54, 0x0AE0DC76, 0x536EA158, 0xB27E5F1D, 0x5D29D891);
    assert Round(Regs(0xCD40BD54, 0x0AE0DC76, 0x536EA158, 0xB27E5F1D, 0x5D29D891), 0x36363636, 7) == Regs(0x4878B652, 0xCD40BD54, 0x82B8371D, 0x536EA158, 0xB27E5F1D);
    assert Compress(IV, w, 8) == Regs(0x4878B652, 0xCD40BD54, 0x82B8371D, 0x536EA158, 0xB27E5F1D);
    assert Round(Regs(0x4878B652, 0xCD40BD54, 0x82B8371D, 0x536EA158, 0xB27E5F1D), 0x36363636, 8) == Regs(0xE47C0E51, 0x4878B652, 0x33502F55, 0x82B8371D, 0x536EA158);
    assert Compress(IV, w, 9) == Regs(0xE47C0E51, 0x4878B652, 0x33502F55, 0x82B8371D, 0x536EA158);
    assert Round(Regs(0xE47C0E51, 0x4878B652, 0x33502F55, 0x82B8371D, 0x536EA158), 0x36363636, 9) == Regs(0xF67942C0, 0xE47C0E51, 0x921E2D94, 0x33502F55, 0x82B8371D);
    assert Compress(IV, w, 10) == Regs(0xF67942C0, 0xE47C0E51, 0x921E2D94, 0x33502F55, 0x82B8371D);
    assert Round(Regs(0xF67942C0, 0xE47C0E51, 0x921E2D94, 0x33502F55, 0x82B8371D), 0x36363636, 10) == Regs(0x75B56C1E, 0xF67942C0, 0x791F0394, 0x921E2D94, 0x33502F55);
    assert Compress(IV, w, 11) == Regs(0x75B56C1E, 0xF67942C0, 0x791F0394, 0x921E2D94, 0x33502F55);
    assert Round(Regs(0x75B56C1E, 0xF67942C0, 0x791F0394, 0x921E2D94, 0x33502F55), 0x36363636, 11) == Regs(0xEAD59286, 0x75B56C1E, 0x3D9E50B0, 0x791F0394, 0x921E2D94);
    assert Compress(IV, w, 12) == Regs(0xEAD59286, 0x75B56C1E, 0x3D9E50B0, 0x791F0394, 0x921E2D94);
    assert Round(Regs(0xEAD59286, 0x75B56C1E, 0x3D9E50B0, 0x791F0394, 0x921E2D94), 0x36363636, 12) == Regs(0xBB2771D0, 0xEAD59286, 0x9D6D5B07, 0x3D9E50B0, 0x791F0394);
    assert Compress(IV, w, 13) == Regs(0xBB2771D0, 0xEAD59286, 0x9D6D5B07, 0x3D9E50B0, 0x791F0394);
    assert Round(Regs(0xBB2771D0, 0xEAD59286, 0x9D6D5B07, 0x3D9E50B0, 0x791F0394), 0x36363636, 13) == Regs(0x0C153FB0, 0xBB2771D0, 0xBAB564A1, 0x9D6D5B07, 0x3D9E50B0);
    assert Compress(IV, w, 14) == Regs(0x0C153FB0, 0xBB2771D0, 0xBAB564A1, 0x9D6D5B07, 0x3D9E50B0);
    assert Round(Regs(0x0C153FB0, 0xBB2771D0, 0xBAB564A1, 0x9D6D5B07, 0x3D9E50B0), 0x36363636, 14) == Regs(0x0F6C6107, 0x0C153FB0, 0x2EC9DC74, 0xBAB564A1, 0x9D6D5B07);
    assert Compress(IV, w, 15) == Regs(0x0F6C6107, 0x0C153FB0, 0x2EC9DC74, 0xBAB564A1, 0x9D6D5B07);
    assert Round(Regs(0x0F6C6107, 0x0C153FB0, 0x2EC9DC74, 0xBAB564A1, 0x9D6D5B07), 0x36363636, 15) == Regs(0xDA5387E8, 0x0F6C6107, 0x03054FEC, 0x2EC9DC74, 0xBAB564A1);
    assert Compress(IV, w, 16) == Regs(0xDA5387E8, 0x0F6C6107, 0x03054FEC, 0x2EC9DC74, 0xBAB564A1);
    assert Round(Regs(0xDA5387E8, 0x0F6C6107, 0x03054FEC, 0x2EC9DC74, 0xBAB564A1), 0x1004040C, 16) == Regs(0x9332BCD5, 0xDA5387E8, 0xC3DB1841, 0x03054FEC, 0x2EC9DC74);
    assert Compress(IV, w, 17) == Regs(0x9332BCD5, 0xDA5387E8, 0xC3DB1841, 0x03054FEC, 0x2EC9DC74);
    assert Round(Regs(0x9332BCD5, 0xDA5387E8, 0xC3DB1841, 0x03054FEC, 0x2EC9DC74), 0x0C04041C, 17) == Regs(0xBEFF3D1F, 0x9332BCD5, 0x3694E1FA, 0xC3DB1841, 0x03054FEC);
    assert Compress(IV, w, 18) == Regs(0xBEFF3D1F, 0x9332BCD5, 0x3694E1FA, 0xC3DB1841, 0x03054FEC);
    assert Round(Regs(0xBEFF3D1F, 0x9332BCD5, 0x3694E1FA, 0xC3DB1841, 0x03054FEC), 0x1C101004, 18) == Regs(0xAC591E50, 0xBEFF3D1F, 0x64CCAF35, 0x3694E1FA, 0xC3DB1841);
    assert Compress(IV, w, 19) == Regs(0xAC591E50, 0xBEFF3D1F, 0x64CCAF35, 0x3694E1FA, 0xC3DB1841);
    assert Round(Regs(0xAC591E50, 0xBEFF3D1F, 0x64CCAF35, 0x3694E1FA, 0xC3DB1841), 0x2A0C0E18, 19) == Regs(0xF85A57FC, 0xAC591E50, 0xEFBFCF47, 0x64CCAF35, 0x3694E1FA);
    assert Compress(IV, w, 20) == Regs(0xF85A57FC, 0xAC591E50, 0xEFBFCF47, 0x64CCAF35, 0x3694E1FA);
  }

  lemma Rfc0Inner0Rounds1(w: seq<word>)
    requires |w| == 80
    requires w[20] == 0x1A141634 && w[21] == 0x544C4C64 && w[22] == 0x3874705C && w[23] == 0x58444004 &&
      w[24] == 0x889090D0 && w[25] == 0x68E0E880 && w[26] == 0x88A8A000 && w[27] == 0x45393D91 &&
      w[28] == 0xE5E9FD68 && w[29] == 0xB9C9D8C9 && w[30] == 0xB6FEFFEE && w[31] == 0x0F3F1E8D &&
      w[32] == 0x7A9AB822 && w[33] == 0xF02C3AD5 && w[34] == 0x0327717B && w[35] == 0x83C78F9E &&
      w[36] == 0x6F4B43AA && w[37] == 0x6DCD4BA5 && w[38] == 0x0BBB21F9 && w[39] == 0xA1A1EB46
    requires Compress(IV, w, 20) == Regs(0xF85A57FC, 0xAC591E50, 0xEFBFCF47, 0x64CCAF35, 0x3694E1FA)
    ensures Compress(IV, w, 40) == Regs(0x0EC3EEBD, 0x519EDDBB, 0xFACDC1A7, 0xD89B4586, 0x71D10BCB)
  {
    assert Round(Regs(0xF85A57FC, 0xAC591E50, 0xEFBFCF47, 0x64CCAF35, 0x3694E1FA), 0x1A141634, 20) == Regs(0xF1F86190, 0xF85A57FC, 0x2B164794, 0xEFBFCF47, 0x64CCAF35);
    assert Compress(IV, w, 21) == Regs(0xF1F86190, 0xF85A57FC, 0x2B164794, 0xEFBFCF47, 0x64CCAF35);
    assert Round(Regs(0xF1F86190, 0xF85A57FC, 0x2B164794, 0xEFBFCF47, 0x64CCAF35), 0x544C4C64, 21) == Regs(0xA3F2F887, 0xF1F86190, 0x3E1695FF, 0x2B164794, 0xEFBFCF47);
    assert Compress(IV, w, 22) == Regs(0xA3F2F887, 0xF1F86190, 0x3E1695FF, 0x2B164794, 0xEFBFCF47);
    assert Round(Regs(0xA3F2F887, 0xF1F86190, 0x3E1695FF, 0x2B164794, 0xEFBFCF47), 0x3874705C, 22) == Regs(0xFA65F033, 0xA3F2F887, 0x3C7E1864, 0x3E1695FF, 0x2B164794);
    assert Compress(IV, w, 23) == Regs(0xFA65F033, 0xA3F2F887, 0x3C7E1864, 0x3E1695FF, 0x2B164794);
    assert Round(Regs(0xFA65F033, 0xA3F2F887, 0x3C7E1864, 0x3E1695FF, 0x2B164794), 0x58444004, 23) == Regs(0xE08CEED4, 0xFA65F033, 0xE8FCBE21, 0x3C7E1864, 0x3E1695FF);
    assert Compress(IV, w, 24) == Regs(0xE08CEED4, 0xFA65F033, 0xE8FCBE21, 0x3C7E1864, 0x3E1695FF);
    assert Round(Regs(0xE08CEED4, 0xFA65F033, 0xE8FCBE21, 0x3C7E1864, 0x3E1695FF), 0x889090D0, 24) == Regs(0x76064382, 0xE08CEED4, 0xFE997C0C, 0xE8FCBE21, 0x3C7E1864);
    assert Compress(IV, w, 25) == Regs(0x76064382, 0xE08CEED4, 0xFE997C0C, 0xE8FCBE21, 0x3C7E1864);
    assert Round(Regs(0x76064382, 0xE08CEED4, 0xFE997C0C, 0xE8FCBE21, 0x3C7E1864), 0x68E0E880, 25) == Regs(0xCBEA89CC, 0x76064382, 0x38233BB5, 0xFE997C0C, 0xE8FCBE21);
    assert Compress(IV, w, 26) == Regs(0xCBEA89CC, 0x76064382, 0x38233BB5, 0xFE997C0C, 0xE8FCBE21);
    assert Round(Regs(0xCBEA89CC, 0x76064382, 0x38233BB5, 0xFE997C0C, 0xE8FCBE21), 0x88A8A000, 26) == Regs(0x0E8C8796, 0xCBEA89CC, 0x9D8190E0, 0x38233BB5, 0xFE997C0C);
    assert Compress(IV, w, 27) == Regs(0x0E8C8796, 0xCBEA89CC, 0x9D8190E0, 0x38233BB5, 0xFE997C0C);
    assert Round(Regs(0x0E8C8796, 0xCBEA89CC, 0x9D8190E0, 0x38233BB5, 0xFE997C0C), 0x45393D91, 27) == Regs(0xF285BA98, 0x0E8C8796, 0x32FAA273, 0x9D8190E0, 0x38233BB5);
    assert Compress(IV, w, 28) == Regs(0xF285BA98, 0x0E8C8796, 0x32FAA273, 0x9D8190E0, 0x38233BB5);
    assert Round(Regs(0xF285BA98, 0x0E8C8796, 0x32FAA273, 0x9D8190E0, 0x38233BB5), 0xE5E9FD68, 28) == Regs(0x7F962CE1, 0xF285BA98, 0x83A321E5, 0x32FAA273, 0x9D8190E0);
    assert Compress(IV, w, 29) == Regs(0x7F962CE1, 0xF285BA98, 0x83A321E5, 0x32FAA273, 0x9D8190E0);
    assert Round(Regs(0x7F962CE1, 0xF285BA98, 0x83A321E5, 0x32FAA273, 0x9D8190E0), 0xB9C9D8C9, 29) == Regs(0xFCC72A87, 0x7F962CE1, 0x3CA16EA6, 0x83A321E5, 0x32FAA273);
    assert Compress(IV, w, 30) == Regs(0xFCC72A87, 0x7F962CE1, 0x3CA16EA6, 0x83A321E5, 0x32FAA273);
    assert Round(Regs(0xFCC72A87, 0x7F962CE1, 0x3CA16EA6, 0x83A321E5, 0x32FAA273), 0xB6FEFFEE, 30) == Regs(0xB24D42A3, 0xFCC72A87, 0x5FE58B38, 0x3CA16EA6, 0x83A321E5);
    assert Compress(IV, w, 31) == Regs(0xB24D42A3, 0xFCC72A87, 0x5FE58B38, 0x3CA16EA6, 0x83A321E5);
    assert Round(Regs(0xB24D42A3, 0xFCC72A87, 0x5FE58B38, 0x3CA16EA6, 0x83A321E5), 0x0F3F1E8D, 31) == Regs(0xEAE84FA2, 0xB24D42A3, 0xFF31CAA1, 0x5FE58B38, 0x3CA16EA6);
    assert Compress(IV, w, 32) == Regs(0xEAE84FA2, 0xB24D42A3, 0xFF31CAA1, 0x5FE58B38, 0x3CA16EA6);
    assert Round(Regs(0xEAE84FA2, 0xB24D42A3, 0xFF31CAA1, 0x5FE58B38, 0x3CA16EA6), 0x7A9AB822, 32) == Regs(0x95B90A00, 0xEAE84FA2, 0xEC9350A8, 0xFF31CAA1, 0x5FE58B38);
    assert Compress(IV, w, 33) == Regs(0x95B90A00, 0xEAE84FA2, 0xEC9350A8, 0xFF31CAA1, 0x5FE58B38);
    assert Round(Regs(0x95B90A00, 0xEAE84FA2, 0xEC9350A8, 0xFF31CAA1, 0x5FE58B38), 0xF02C3AD5, 33) == Regs(0x6F57C76B, 0x95B90A00, 0xBABA13E8, 0xEC9350A8, 0xFF31CAA1);
    assert Compress(IV, w, 34) == Regs(0x6F57C76B, 0x95B90A00, 0xBABA13E8, 0xEC9350A8, 0xFF31CAA1);
    assert Round(Regs(0x6F57C76B, 0x95B90A00, 0xBABA13E8, 0xEC9350A8, 0xFF31CAA1), 0x0327717B, 34) == Regs(0x1FBC5E6A, 0x6F57C76B, 0x256E4280, 0xBABA13E8, 0xEC9350A8);
    assert Compress(IV, w, 35) == Regs(0x1FBC5E6A, 0x6F57C76B, 0x256E4280, 0xBABA13E8, 0xEC9350A8);
    assert Round(Regs(0x1FBC5E6A, 0x6F57C76B, 0x256E4280, 0xBABA13E8, 0xEC9350A8), 0x83C78F9E, 35) == Regs(0xC7442F2D, 0x1FBC5E6A, 0xDBD5F1DA, 0x256E4280, 0xBABA13E8);
    assert Compress(IV, w, 36) == Regs(0xC7442F2D, 0x1FBC5E6A, 0xDBD5F1DA, 0x256E4280, 0xBABA13E8);
    assert Round(Regs(0xC7442F2D, 0x1FBC5E6A, 0xDBD5F1DA, 0x256E4280, 0xBABA13E8), 0x6F4B43AA, 36) == Regs(0x626D161B, 0xC7442F2D, 0x87EF179A, 0xDBD5F1DA, 0x256E4280);
    assert Compress(IV, w, 37) == Regs(0x626D161B, 0xC7442F2D, 0x87EF179A, 0xDBD5F1DA, 0x256E4280);
    assert Round(Regs(0x626D161B, 0xC7442F2D, 0x87EF179A, 0xDBD5F1DA, 0x256E4280), 0x6DCD4BA5, 37) == Regs(0xEB37069F, 0x626D161B, 0x71D10BCB, 0x87EF179A, 0xDBD5F1DA);
    assert Compress(IV, w, 38) == Regs(0xEB37069F, 0x626D161B, 0x71D10BCB, 0x87EF179A, 0xDBD5F1DA);
    assert Round(Regs(0xEB37069F, 0x626D161B, 0x71D10BCB, 0x87EF179A, 0xDBD5F1DA), 0x0BBB21F9, 38) == Regs(0x519EDDBB, 0xEB37069F, 0xD89B4586, 0x71D10BCB, 0x87EF179A);
    assert Compress(IV, w, 39) == Regs(0x519EDDBB, 0xEB37069F, 0xD89B4586, 0x71D10BCB, 0x87EF179A);
    assert Round(Regs(0x519EDDBB, 0xEB37069F, 0xD89B4586, 0x71D10BCB, 0x87EF179A), 0xA1A1EB46, 39) == Regs(0x0EC3EEBD, 0x519EDDBB, 0xFACDC1A7, 0xD89B4586, 0x71D10BCB);
    assert Compress(IV, w, 40) == Regs(0x0EC3EEBD, 0x519EDDBB, 0xFACDC1A7, 0xD89B4586, 0x71D10BCB);
  }

  lemma Rfc0Inner0Rounds2(w: seq<word>)
    requires |w| == 80
    requires w[40] == 0x2EDF86AE && w[41] == 0xAC9D9C7B && w[42] == 0x9F8F8EAB && w[43] == 0xA3D1D8D0 &&
      w[44] == 0x2183BAAF && w[45] == 0x89680694 && w[46] == 0xC81D7DCA && w[47] == 0xFE62EB62 &&
      w[48] == 0xBC1492C7 && w[49] == 0x2ED6A9F4 && w[50] == 0x1B02AE30 && w[51] == 0xE39F1C59 &&
      w[52] == 0xD74AE210 && w[53] == 0xBC0C108E && w[54] == 0x1DCD8D88 && w[55] == 0x4828FC9E &&
      w[56] == 0x62911499 && w[57] == 0x78AEC1AE && w[58] == 0xDA4CCD55 && w[59] == 0x576FAD09
    requires Compress(IV, w, 40) == Regs(0x0EC3EEBD, 0x519EDDBB, 0xFACDC1A7, 0xD89B4586, 0x71D10BCB)
    ensures Compress(IV, w, 60) == Regs(0x2E104B6C, 0xB30FA3F7, 0xEDADAA36, 0xDB5E5B1E, 0x9B648C86)
  {
    assert Round(Regs(0x0EC3EEBD, 0x519EDDBB, 0xFACDC1A7, 0xD89B4586, 0x71D10BCB), 0x2EDF86AE, 40) == Regs(0xE0E9EC9D, 0x0EC3EEBD, 0xD467B76E, 0xFACDC1A7, 0xD89B4586);
    assert Compress(IV, w, 41) == Regs(0xE0E9EC9D, 0x0EC3EEBD, 0xD467B76E, 0xFACDC1A7, 0xD89B4586);
    assert Round(Regs(0xE0E9EC9D, 0x0EC3EEBD, 0xD467B76E, 0xFACDC1A7, 0xD89B4586), 0xAC9D9C7B, 41) == Regs(0x105A1A48, 0xE0E9EC9D, 0x43B0FBAF, 0xD467B76E, 0xFACDC1A7);
    assert Compress(IV, w, 42) == Regs(0x105A1A48, 0xE0E9EC9D, 0x43B0FBAF, 0xD467B76E, 0xFACDC1A7);
    assert Round(Regs(0x105A1A48, 0xE0E9EC9D, 0x43B0FBAF, 0xD467B76E, 0xFACDC1A7), 0x9F8F8EAB, 42) == Regs(0xF59E55DF, 0x105A1A48, 0x783A7B27, 0x43B0FBAF, 0xD467B76E);
    assert Compress(IV, w, 43) == Regs(0xF59E55DF, 0x105A1A48, 0x783A7B27, 0x43B0FBAF, 0xD467B76E);
    assert Round(Regs(0xF59E55DF, 0x105A1A48, 0x783A7B27, 0x43B0FBAF, 0xD467B76E), 0xA3D1D8D0, 43) == Regs(0x0B5A8447, 0xF59E55DF, 0x04168692, 0x783A7B27, 0x43B0FBAF);
    assert Compress(IV, w, 44) == Regs(0x0B5A8447, 0xF59E55DF, 0x04168692, 0x783A7B27, 0x43B0FBAF);
    assert Round(Regs(0x0B5A8447, 0xF59E55DF, 0x04168692, 0x783A7B27, 0x43B0FBAF), 0x2183BAAF, 44) == Regs(0xD3BF53B2, 0x0B5A8447, 0xFD679577, 0x04168692, 0x783A7B27);
    assert Compress(IV, w, 45) == Regs(0xD3BF53B2, 0x0B5A8447, 0xFD679577, 0x04168692, 0x783A7B27);
    assert Round(Regs(0xD3BF53B2, 0x0B5A8447, 0xFD679577, 0x04168692, 0x783A7B27), 0x89680694, 45) == Regs(0x15FF3948, 0xD3BF53B2, 0xC2D6A111, 0xFD679577, 0x04168692);
    assert Compress(IV, w, 46) == Regs(0x15FF3948, 0xD3BF53B2, 0xC2D6A111, 0xFD679577, 0x04168692);
    assert Round(Regs(0x15FF3948, 0xD3BF53B2, 0xC2D6A111, 0xFD679577, 0x04168692), 0xC81D7DCA, 46) == Regs(0xEF2E7B6D, 0x15FF3948, 0xB4EFD4EC, 0xC2D6A111, 0xFD679577);
    assert Compress(IV, w, 47) == Regs(0xEF2E7B6D, 0x15FF3948, 0xB4EFD4EC, 0xC2D6A111, 0xFD679577);
    assert Round(Regs(0xEF2E7B6D, 0x15FF3948, 0xB4EFD4EC, 0xC2D6A111, 0xFD679577), 0xFE62EB62, 47) == Regs(0x05B55CBA, 0xEF2E7B6D, 0x057FCE52, 0xB4EFD4EC, 0xC2D6A111);
    assert Compress(IV, w, 48) == Regs(0x05B55CBA, 0xEF2E7B6D, 0x057FCE52, 0xB4EFD4EC, 0xC2D6A111);
    assert Round(Regs(0x05B55CBA, 0xEF2E7B6D, 0x057FCE52, 0xB4EFD4EC, 0xC2D6A111), 0xBC1492C7, 48) == Regs(0x6A226660, 0x05B55CBA, 0x7BCB9EDB, 0x057FCE52, 0xB4EFD4EC);
    assert Compress(IV, w, 49) == Regs(0x6A226660, 0x05B55CBA, 0x7BCB9EDB, 0x057FCE52, 0xB4EFD4EC);
    assert Round(Regs(0x6A226660, 0x05B55CBA, 0x7BCB9EDB, 0x057FCE52, 0xB4EFD4EC), 0x2ED6A9F4, 49) == Regs(0xBD2EE6A3, 0x6A226660, 0x816D572E, 0x7BCB9EDB, 0x057FCE52);
    assert Compress(IV, w, 50) == Regs(0xBD2EE6A3, 0x6A226660, 0x816D572E, 0x7BCB9EDB, 0x057FCE52);
    assert Round(Regs(0xBD2EE6A3, 0x6A226660, 0x816D572E, 0x7BCB9EDB, 0x057FCE52), 0x1B02AE30, 50) == Regs(0xC0E6643F, 0xBD2EE6A3, 0x1A889998, 0x816D572E, 0x7BCB9EDB);
    assert Compress(IV, w, 51) == Regs(0xC0E6643F, 0xBD2EE6A3, 0x1A889998, 0x816D572E, 0x7BCB9EDB);
    assert Round(Regs(0xC0E6643F, 0xBD2EE6A3, 0x1A889998, 0x816D572E, 0x7BCB9EDB), 0xE39F1C59, 51) == Regs(0xA47FD7B2, 0xC0E6643F, 0xEF4BB9A8, 0x1A889998, 0x816D572E);
    assert Compress(IV, w, 52) == Regs(0xA47FD7B2, 0xC0E6643F, 0xEF4BB9A8, 0x1A889998, 0x816D572E);
    assert Round(Regs(0xA47FD7B2, 0xC0E6643F, 0xEF4BB9A8, 0x1A889998, 0x816D572E), 0xD74AE210, 52) == Regs(0x4299A626, 0xA47FD7B2, 0xF039990F, 0xEF4BB9A8, 0x1A889998);
    assert Compress(IV, w, 53) == Regs(0x4299A626, 0xA47FD7B2, 0xF039990F, 0xEF4BB9A8, 0x1A889998);
    assert Round(Regs(0x4299A626, 0xA47FD7B2, 0xF039990F, 0xEF4BB9A8, 0x1A889998), 0xBC0C108E, 53) == Regs(0x9D60C574, 0x4299A626, 0xA91FF5EC, 0xF039990F, 0xEF4BB9A8);
    assert Compress(IV, w, 54) == Regs(0x9D60C574, 0x4299A626, 0xA91FF5EC, 0xF039990F, 0xEF4BB9A8);
    assert Round(Regs(0x9D60C574, 0x4299A626, 0xA91FF5EC, 0xF039990F, 0xEF4BB9A8), 0x1DCD8D88, 54) == Regs(0x286767CD, 0x9D60C574, 0x90A66989, 0xA91FF5EC, 0xF039990F);
    assert Compress(IV, w, 55) == Regs(0x286767CD, 0x9D60C574, 0x90A66989, 0xA91FF5EC, 0xF039990F);
    assert Round(Regs(0x286767CD, 0x9D60C574, 0x90A66989, 0xA91FF5EC, 0xF039990F), 0x4828FC9E, 55) == Regs(0x6D92321A, 0x286767CD, 0x2758315D, 0x90A66989, 0xA91FF5EC);
    assert Compress(IV, w, 56) == Regs(0x6D92321A, 0x286767CD, 0x2758315D, 0x90A66989, 0xA91FF5EC);
    assert Round(Regs(0x6D92321A, 0x286767CD, 0x2758315D, 0x90A66989, 0xA91FF5EC), 0x62911499, 56) == Regs(0x6D796C7B, 0x6D92321A, 0x4A19D9F3, 0x2758315D, 0x90A66989);
    assert Compress(IV, w, 57) == Regs(0x6D796C7B, 0x6D92321A, 0x4A19D9F3, 0x2758315D, 0x90A66989);
    assert Round(Regs(0x6D796C7B, 0x6D92321A, 0x4A19D9F3, 0x2758315D, 0x90A66989), 0x78AEC1AE, 57) == Regs(0xB6B6A8DB, 0x6D796C7B, 0x9B648C86, 0x4A19D9F3, 0x2758315D);
    assert Compress(IV, w, 58) == Regs(0xB6B6A8DB, 0x6D796C7B, 0x9B648C86, 0x4A19D9F3, 0x2758315D);
    assert Round(Regs(0xB6B6A8DB, 0x6D796C7B, 0x9B648C86, 0x4A19D9F3, 0x2758315D), 0xDA4CCD55, 58) == Regs(0xB30FA3F7, 0xB6B6A8DB, 0xDB5E5B1E, 0x9B648C86, 0x4A19D9F3);
    assert Compress(IV, w, 59) == Regs(0xB30FA3F7, 0xB6B6A8DB, 0xDB5E5B1E, 0x9B648C86, 0x4A19D9F3);
    assert Round(Regs(0xB30FA3F7, 0xB6B6A8DB, 0xDB5E5B1E, 0x9B648C86, 0x4A19D9F3), 0x576FAD09, 59) == Regs(0x2E104B6C, 0xB30FA3F7, 0xEDADAA36, 0xDB5E5B1E, 0x9B648C86);
    assert Compress(IV, w, 60) == Regs(0x2E104B6C, 0xB30FA3F7, 0xEDADAA36, 0xDB5E5B1E, 0x9B648C86);
  }

  lemma Rfc0Inner0Rounds3(w: seq<word>)
    requires |w| == 80
    requires w[60] == 0x8CF5C9B6 && w[61] == 0x2294605A && w[62] == 0x7D579F18 && w[63] == 0x28D2EF7C &&
      w[64] == 0xCE269069 && w[65] == 0x9161D637 && w[66] == 0x7DACDC12 && w[67] == 0x8DB4636F &&
      w[68] == 0xAE26E033 && w[69] == 0x5638A0B1 && w[70] == 0x1F7ECACD && w[71] == 0x6CE464FF &&
      w[72] == 0x4187D228 && w[73] == 0x43BCE0BB && w[74] == 0x8FE3781C && w[75] == 0x7390F829 &&
      w[76] == 0x3870AC4C && w[77] == 0xA73AAF17 && w[78] == 0xBF3E7B2B && w[79] == 0xDA4FE3F1
    requires Compress(IV, w, 60) == Regs(0x2E104B6C, 0xB30FA3F7, 0xEDADAA36, 0xDB5E5B1E, 0x9B648C86)
    ensures Compress(IV, w, 80) == Regs(0x6482E98B, 0x05CC3723, 0x24FDEB34, 0xCA636D4D, 0x34954E35)
  {
    assert Round(Regs(0x2E104B6C, 0xB30FA3F7, 0xEDADAA36, 0xDB5E5B1E, 0x9B648C86), 0x8CF5C9B6, 60) == Regs(0x3AC2D876, 0x2E104B6C, 0xECC3E8FD, 0xEDADAA36, 0xDB5E5B1E);
    assert Compress(IV, w, 61) == Regs(0x3AC2D876, 0x2E104B6C, 0xECC3E8FD, 0xEDADAA36, 0xDB5E5B1E);
    assert Round(Regs(0x3AC2D876, 0x2E104B6C, 0xECC3E8FD, 0xEDADAA36, 0xDB5E5B1E), 0x2294605A, 61) == Regs(0x502E95BC, 0x3AC2D876, 0x0B8412DB, 0xECC3E8FD, 0xEDADAA36);
    assert Compress(IV, w, 62) == Regs(0x502E95BC, 0x3AC2D876, 0x0B8412DB, 0xECC3E8FD, 0xEDADAA36);
    assert Round(Regs(0x502E95BC, 0x3AC2D876, 0x0B8412DB, 0xECC3E8FD, 0xEDADAA36), 0x7D579F18, 62) == Regs(0x18BFE4FE, 0x502E95BC, 0x8EB0B61D, 0x0B8412DB, 0xECC3E8FD);
    assert Compress(IV, w, 63) == Regs(0x18BFE4FE, 0x502E95BC, 0x8EB0B61D, 0x0B8412DB, 0xECC3E8FD);
    assert Round(Regs(0x18BFE4FE, 0x502E95BC, 0x8EB0B61D, 0x0B8412DB, 0xECC3E8FD), 0x28D2EF7C, 63) == Regs(0xCD106B8C, 0x18BFE4FE, 0x140BA56F, 0x8EB0B61D, 0x0B8412DB);
    assert Compress(IV, w, 64) == Regs(0xCD106B8C, 0x18BFE4FE, 0x140BA56F, 0x8EB0B61D, 0x0B8412DB);
    assert Round(Regs(0xCD106B8C, 0x18BFE4FE, 0x140BA56F, 0x8EB0B61D, 0x0B8412DB), 0xCE269069, 64) == Regs(0xC81FCE3F, 0xCD106B8C, 0x862FF93F, 0x140BA56F, 0x8EB0B61D);
    assert Compress(IV, w, 65) == Regs(0xC81FCE3F, 0xCD106B8C, 0x862FF93F, 0x140BA56F, 0x8EB0B61D);
    assert Round(Regs(0xC81FCE3F, 0xCD106B8C, 0x862FF93F, 0x140BA56F, 0x8EB0B61D), 0x9161D637, 65) == Regs(0x4DA34DFF, 0xC81FCE3F, 0x33441AE3, 0x862FF93F, 0x140BA56F);
    assert Compress(IV, w, 66) == Regs(0x4DA34DFF, 0xC81FCE3F, 0x33441AE3, 0x862FF93F, 0x140BA56F);
    assert Round(Regs(0x4DA34DFF, 0xC81FCE3F, 0x33441AE3, 0x862FF93F, 0x140BA56F), 0x7DACDC12, 66) == Regs(0x8DF93123, 0x4DA34DFF, 0xF207F38F, 0x33441AE3, 0x862FF93F);
    assert Compress(IV, w, 67) == Regs(0x8DF93123, 0x4DA34DFF, 0xF207F38F, 0x33441AE3, 0x862FF93F);
    assert Round(Regs(0x8DF93123, 0x4DA34DFF, 0xF207F38F, 0x33441AE3, 0x862FF93F), 0x8DB4636F, 67) == Regs(0x2A4DE788, 0x8DF93123, 0xD368D37F, 0xF207F38F, 0x33441AE3);
    assert Compress(IV, w, 68) == Regs(0x2A4DE788, 0x8DF93123, 0xD368D37F, 0xF207F38F, 0x33441AE3);
    assert Round(Regs(0x2A4DE788, 0x8DF93123, 0xD368D37F, 0xF207F38F, 0x33441AE3), 0xAE26E033, 68) == Regs(0xA220BFC4, 0x2A4DE788, 0xE37E4C48, 0xD368D37F, 0xF207F38F);
    assert Compress(IV, w, 69) == Regs(0xA220BFC4, 0x2A4DE788, 0xE37E4C48, 0xD368D37F, 0xF207F38F);
    assert Round(Regs(0xA220BFC4, 0x2A4DE788, 0xE37E4C48, 0xD368D37F, 0xF207F38F), 0x5638A0B1, 69) == Regs(0x7116C769, 0xA220BFC4, 0x0A9379E2, 0xE37E4C48, 0xD368D37F);
    assert Compress(IV, w, 70) == Regs(0x7116C769, 0xA220BFC4, 0x0A9379E2, 0xE37E4C48, 0xD368D37F);
    assert Round(Regs(0x7116C769, 0xA220BFC4, 0x0A9379E2, 0xE37E4C48, 0xD368D37F), 0x1F7ECACD, 70) == Regs(0x2BF0D7BE, 0x7116C769, 0x28882FF1, 0x0A9379E2, 0xE37E4C48);
    assert Compress(IV, w, 71) == Regs(0x2BF0D7BE, 0x7116C769, 0x28882FF1, 0x0A9379E2, 0xE37E4C48);
    assert Round(Regs(0x2BF0D7BE, 0x7116C769, 0x28882FF1, 0x0A9379E2, 0xE37E4C48), 0x6CE464FF, 71) == Regs(0xEBEDFC5C, 0x2BF0D7BE, 0x5C45B1DA, 0x28882FF1, 0x0A9379E2);
    assert Compress(IV, w, 72) == Regs(0xEBEDFC5C, 0x2BF0D7BE, 0x5C45B1DA, 0x28882FF1, 0x0A9379E2);
    assert Round(Regs(0xEBEDFC5C, 0x2BF0D7BE, 0x5C45B1DA, 0x28882FF1, 0x0A9379E2), 0x4187D228, 72) == Regs(0xF37AE312, 0xEBEDFC5C, 0x8AFC35EF, 0x5C45B1DA, 0x28882FF1);
    assert Compress(IV, w, 73) == Regs(0xF37AE312, 0xEBEDFC5C, 0x8AFC35EF, 0x5C45B1DA, 0x28882FF1);
    assert Round(Regs(0xF37AE312, 0xEBEDFC5C, 0x8AFC35EF, 0x5C45B1DA, 0x28882FF1), 0x43BCE0BB, 73) == Regs(0xE358AD49, 0xF37AE312, 0x3AFB7F17, 0x8AFC35EF, 0x5C45B1DA);
    assert Compress(IV, w, 74) == Regs(0xE358AD49, 0xF37AE312, 0x3AFB7F17, 0x8AFC35EF, 0x5C45B1DA);
    assert Round(Regs(0xE358AD49, 0xF37AE312, 0x3AFB7F17, 0x8AFC35EF, 0x5C45B1DA), 0x8FE3781C, 74) == Regs(0x651F3EF2, 0xE358AD49, 0xBCDEB8C4, 0x3AFB7F17, 0x8AFC35EF);
    assert Compress(IV, w, 75) == Regs(0x651F3EF2, 0xE358AD49, 0xBCDEB8C4, 0x3AFB7F17, 0x8AFC35EF);
    assert Round(Regs(0x651F3EF2, 0xE358AD49, 0xBCDEB8C4, 0x3AFB7F17, 0x8AFC35EF), 0x7390F829, 75) == Regs(0xD25538D4, 0x651F3EF2, 0x78D62B52, 0xBCDEB8C4, 0x3AFB7F17);
    assert Compress(IV, w, 76) == Regs(0xD25538D4, 0x651F3EF2, 0x78D62B52, 0xBCDEB8C4, 0x3AFB7F17);
    assert Round(Regs(0xD25538D4, 0x651F3EF2, 0x78D62B52, 0xBCDEB8C4, 0x3AFB7F17), 0x3870AC4C, 76) == Regs(0x298DB537, 0xD25538D4, 0x9947CFBC, 0x78D62B52, 0xBCDEB8C4);
    assert Compress(IV, w, 77) == Regs(0x298DB537, 0xD25538D4, 0x9947CFBC, 0x78D62B52, 0xBCDEB8C4);
    assert Round(Regs(0x298DB537, 0xD25538D4, 0x9947CFBC, 0x78D62B52, 0xBCDEB8C4), 0xA73AAF17, 77) == Regs(0x93F7ACD0, 0x298DB537, 0x34954E35, 0x9947CFBC, 0x78D62B52);
    assert Compress(IV, w, 78) == Regs(0x93F7ACD0, 0x298DB537, 0x34954E35, 0x9947CFBC, 0x78D62B52);
    assert Round(Regs(0x93F7ACD0, 0x298DB537, 0x34954E35, 0x9947CFBC, 0x78D62B52), 0xBF3E7B2B, 78) == Regs(0x05CC3723, 0x93F7ACD0, 0xCA636D4D, 0x34954E35, 0x9947CFBC);
    assert Compress(IV, w, 79) == Regs(0x05CC3723, 0x93F7ACD0, 0xCA636D4D, 0x34954E35, 0x9947CFBC);
    assert Round(Regs(0x05CC3723, 0x93F7ACD0, 0xCA636D4D, 0x34954E35, 0x9947CFBC), 0xDA4FE3F1, 79) == Regs(0x6482E98B, 0x05CC3723, 0x24FDEB34, 0xCA636D4D, 0x34954E35);
    assert Compress(IV, w, 80) == Regs(0x6482E98B, 0x05CC3723, 0x24FDEB34, 0xCA636D4D, 0x34954E35);
  }

  lemma Rfc0Inner0Compress(words: seq<word>)
    requires |words| == 16
    requires words[0] == 0x07040502 && words[1] == 0x0300010E && words[2] == 0x0F060704 && words[3] == 0x05020300 &&
      words[4] == 0x010E0F06 && words[5] == 0x36363636 && words[6] == 0x36363636 && words[7] == 0x36363636 &&
      words[8] == 0x36363636 && words[9] == 0x36363636 && words[10] == 0x36363636 && words[11] == 0x36363636 &&
      words[12] == 0x36363636 && words[13] == 0x36363636 && words[14] == 0x36363636 && words[15] == 0x36363636
    ensures Compress(IV, Schedule(words), 80) == Regs(0x6482E98B, 0x05CC3723, 0x24FDEB34, 0xCA636D4D, 0x34954E35)
  {
    var w := Schedule(words);
    ScheduleIsSchedule(words);
    forall j | 0 <= j < 16
      ensures w[j] == words[j]
    {
      assert w[..16][j] == w[j];
    }
    Rfc0Inner0Schedule0(w);
    Rfc0Inner0Schedule1(w);
    Rfc0Inner0Schedule2(w);
    Rfc0Inner0Schedule3(w);
    Rfc0Inner0Rounds0(w);
    Rfc0Inner0Rounds1(w);
    Rfc0Inner0Rounds2(w);
    Rfc0Inner0Rounds3(w);
  }

  lemma Rfc0Inner1Schedule0(w: seq<word>)
    requires |w| == 80 && forall i :: 16 <= i < 80 ==> Follows(w, i)
    requires w[0] == 0x00000000 && w[1] == 0x00000000 && w[2] == 0x80000000 && w[3] == 0x00000000 &&
      w[4] == 0x00000000 && w[5] == 0x00000000 && w[6] == 0x00000000 && w[7] == 0x00000000 &&
      w[8] == 0x00000000 && w[9] == 0x00000000 && w[10] == 0x00000000 && w[11] == 0x00000000 &&
      w[12] == 0x00000000 && w[13] == 0x00000000 && w[14] == 0x00000000 && w[15] == 0x00000240
    ensures w[16] == 0x00000001 && w[17] == 0x00000000 && w[18] == 0x00000481 && w[19] == 0x00000002 &&
      w[20] == 0x00000000 && w[21] == 0x00000902 && w[22] == 0x00000004 && w[23] == 0x00000480 &&
      w[24] == 0x00001206 && w[25] == 0x00000008 && w[26] == 0x00000002 && w[27] == 0x00002408 &&
      w[28] == 0x00000010 && w[29] == 0x00001680 && w[30] == 0x0000481A && w[31] == 0x00000DA0
  {
    assert Follows(w, 16);
    assert Follows(w, 17);
    assert Follows(w, 18);
    assert Follows(w, 19);
    assert Follows(w, 20);
    assert Follows(w, 21);
    assert Follows(w, 22);
    assert Follows(w, 23);
    assert Follows(w, 24);
    assert Follows(w, 25);
    assert Follows(w, 26);
    assert Follows(w, 27);
    assert Follows(w, 28);
    assert Follows(w, 29);
    assert Follows(w, 30);
    assert Follows(w, 31);
  }

  lemma Rfc0Inner1Schedule1(w: seq<word>)
    requires |w| == 80 && forall i :: 16 <= i < 80 ==> Follows(w, i)
    requires w[16] == 0x00000001 && w[17] == 0x00000000 && w[18] == 0x00000481 && w[19] == 0x00000002 &&
      w[20] == 0x00000000 && w[21] == 0x00000902 && w[22] == 0x00000004 && w[23] == 0x00000480 &&
      w[24] == 0x00001206 && w[25] == 0x00000008 && w[26] == 0x00000002 && w[27] == 0x00002408 &&
      w[28] == 0x00000010 && w[29] == 0x00001680 && w[30] == 0x0000481A && w[31] == 0x00000DA0
    ensures w[32] == 0x0000000C && w[33] == 0x00009020 && w[34] == 0x00001246 && w[35] == 0x00005A08 &&
      w[36] == 0x00012068 && w[37] == 0x00001288 && w[38] == 0x00000020 && w[39] == 0x00025280 &&
      w[40] == 0x00000100 && w[41] == 0x00016800 && w[42] == 0x000481A8 && w[43] == 0x0000D300 &&
      w[44] == 0x000000C4 && w[45] == 0x00091000 && w[46] == 0x0001366C && w[47] == 0x00059F88
  {
    assert Follows(w, 32);
    assert Follows(w, 33);
    assert Follows(w, 34);
    assert Follows(w, 35);
    assert Follows(w, 36);
    assert Follows(w, 37);
    assert Follows(w, 38);
    assert Follows(w, 39);
    assert Follows(w, 40);
    assert Follows(w, 41);
    assert Follows(w, 42);
    assert Follows(w, 43);
    assert Follows(w, 44);
    assert Follows(w, 45);
    assert Follows(w, 46);
    assert Follows(w, 47);
  }

  lemma Rfc0Inner1Schedule2(w: seq<word>)
    requires |w| == 80 && forall i :: 16 <= i < 80 ==> Follows(w, i)
    requires w[32] == 0x0000000C && w[33] == 0x00009020 && w[34] == 0x00001246 && w[35] == 0x00005A08 &&
      w[36] == 0x00012068 && w[37] == 0x00001288 && w[38] == 0x00000020 && w[39] == 0x00025280 &&
      w[40] == 0x00000100 && w[41] == 0x00016800 && w[42] == 0x000481A8 && w[43] == 0x0000D300 &&
      w[44] == 0x000000C4 && w[45] == 0x00091000 && w[46] == 0x0001366C && w[47] == 0x00059F88
    ensures w[48] == 0x00120694 && w[49] == 0x00012888 && w[50] == 0x0000581C && w[51] == 0x00253A28 &&
      w[52] == 0x00001008 && w[53] == 0x00161028 && w[54] == 0x00481AC8 && w[55] == 0x000D6A00 &&
      w[56] == 0x00012C28 && w[57] == 0x00911280 && w[58] == 0x001366E0 && w[59] == 0x005BAA00 &&
      w[60] == 0x01206840 && w[61] == 0x0013F280 && w[62] == 0x00010060 && w[63] == 0x02536A80
  {
    assert Follows(w, 48);
    assert Follows(w, 49);
    assert Follows(w, 50);
    assert Follows(w, 51);
    assert Follows(w, 52);
    assert Follows(w, 53);
    assert Follows(w, 54);
    assert Follows(w, 55);
    assert Follows(w, 56);
    assert Follows(w, 57);
    assert Follows(w, 58);
    assert Follows(w, 59);
    assert Follows(w, 60);
    assert Follows(w, 61);
    assert Follows(w, 62);
    assert Follows(w, 63);
  }

  lemma Rfc0Inner1Schedule3(w: seq<word>)
    requires |w| == 80 && forall i :: 16 <= i < 80 ==> Follows(w, i)
    requires w[48] == 0x00120694 && w[49] == 0x00012888 && w[50] == 0x0000581C && w[51] == 0x00253A28 &&
      w[52] == 0x00001008 && w[53] == 0x00161028 && w[54] == 0x00481AC8 && w[55] == 0x000D6A00 &&
      w[56] == 0x00012C28 && w[57] == 0x00911280 && w[58] == 0x001366E0 && w[59] == 0x005BAA00 &&
      w[60] == 0x01206840 && w[61] == 0x0013F280 && w[62] == 0x00010060 && w[63] == 0x02536A80
    ensures w[64] == 0x00010040 && w[65] == 0x01680080 && w[66] == 0x048088E8 && w[67] == 0x00D30080 &&
      w[68] == 0x0000C400 && w[69] == 0x09100080 && w[70] == 0x01366C00 && w[71] == 0x059FAC00 &&
      w[72] == 0x12069410 && w[73] == 0x0129A800 && w[74] == 0x00585490 && w[75] == 0x253B9820 &&
      w[76] == 0x00100840 && w[77] == 0x16119820 && w[78] == 0x481BE800 && w[79] == 0x0D699C80
  {
    assert Follows(w, 64);
    assert Follows(w, 65);
    assert Follows(w, 66);
    assert Follows(w, 67);
    assert Follows(w, 68);
    assert Follows(w, 69);
    assert Follows(w, 70);
    assert Follows(w, 71);
    assert Follows(w, 72);
    assert Follows(w, 73);
    assert Follows(w, 74);
    assert Follows(w, 75);
    assert Follows(w, 76);
    assert Follows(w, 77);
    assert Follows(w, 78);
    assert Follows(w, 79);
  }

  lemma Rfc0Inner1Rounds0(w: seq<word>)
    requires |w| == 80
    requires w[0] == 0x00000000 && w[1] == 0x00000000 && w[2] == 0x80000000 && w[3] == 0x00000000 &&
      w[4] == 0x00000000 && w[5] == 0x00000000 && w[6] == 0x00000000 && w[7] == 0x00000000 &&
      w[8] == 0x00000000 && w[9] == 0x00000000 && w[10] == 0x00000000 && w[11] == 0x00000000 &&
      w[12] == 0x00000000 && w[13] == 0x00000000 && w[14] == 0x00000000 && w[15] == 0x00000240 &&
      w[16] == 0x00000001 && w[17] == 0x00000000 && w[18] == 0x00000481 && w[19] == 0x00000002
    requires Compress(Regs(0xCBC80C8C, 0xF599E2AC, 0xBDB8C832, 0xDA95C1C3, 0xF8683025), w, 0) == Regs(0xCBC80C8C, 0xF599E2AC, 0xBDB8C832, 0xDA95C1C3, 0xF8683025)
    ensures Compress(Regs(0xCBC80C8C, 0xF599E2AC, 0xBDB8C832, 0xDA95C1C3, 0xF8683025), w, 20) == Regs(0x4806A9A9, 0x5EF4E186, 0xB7EC0AAA, 0xB4294F8E, 0xB1943750)
  {
    assert Round(Regs(0xCBC80C8C, 0xF599E2AC, 0xBDB8C832, 0xDA95C1C3, 0xF8683025), 0x00000000, 0) == Regs(0x8B88FCBA, 0xCBC80C8C, 0x3D6678AB, 0xBDB8C832, 0xDA95C1C3);
    assert Compress(Regs(0xCBC80C8C, 0xF599E2AC, 0xBDB8C832, 0xDA95C1C3, 0xF8683025), w, 1) == Regs(0x8B88FCBA, 0xCBC80C8C, 0x3D6678AB, 0xBDB8C832, 0xDA95C1C3);
    assert Round(Regs(0x8B88FCBA, 0xCBC80C8C, 0x3D6678AB, 0xBDB8C832, 0xDA95C1C3), 0x00000000, 1) == Regs(0xE3A89B67, 0x8B88FCBA, 0x32F20323, 0x3D6678AB, 0xBDB8C832);
    assert Compress(Regs(0xCBC80C8C, 0xF599E2AC, 0xBDB8C832, 0xDA95C1C3, 0xF8683025), w, 2) == Regs(0xE3A89B67, 0x8B88FCBA, 0x32F20323, 0x3D6678AB, 0xBDB8C832);
    assert Round(Regs(0xE3A89B67, 0x8B88FCBA, 0x32F20323, 0x3D6678AB, 0xBDB8C832), 0x80000000, 2) == Regs(0x4434AEEA, 0xE3A89B67, 0xA2E23F2E, 0x32F20323, 0x3D6678AB);
    assert Compress(Regs(0xCBC80C8C, 0xF599E2AC, 0xBDB8C832, 0xDA95C1C3, 0xF8683025), w, 3) == Regs(0x4434AEEA, 0xE3A89B67, 0xA2E23F2E, 0x32F20323, 0x3D6678AB);
    assert Round(Regs(0x4434AEEA, 0xE3A89B67, 0xA2E23F2E, 0x32F20323, 0x3D6678AB), 0x00000000, 3) == Regs(0xD170EAB2, 0x4434AEEA, 0xF8EA26D9, 0xA2E23F2E, 0x32F20323);
    assert Compress(Regs(0xCBC80C8C, 0xF599E2AC, 0xBDB8C832, 0xDA95C1C3, 0xF8683025), w, 4) == Regs(0xD170EAB2, 0x4434AEEA, 0xF8EA26D9, 0xA2E23F2E, 0x32F20323);
    assert Round(Regs(0xD170EAB2, 0x4434AEEA, 0xF8EA26D9, 0xA2E23F2E, 0x32F20323), 0x00000000, 4) == Regs(0x9E740AE2, 0xD170EAB2, 0x910D2BBA, 0xF8EA26D9, 0xA2E23F2E);
    assert Compress(Regs(0xCBC80C8C, 0xF599E2AC, 0xBDB8C832, 0xDA95C1C3, 0xF8683025), w, 5) == Regs(0x9E740AE2, 0xD170EAB2, 0x910D2BBA, 0xF8EA26D9, 0xA2E23F2E);
    assert Round(Regs(0x9E740AE2, 0xD170EAB2, 0x910D2BBA, 0xF8EA26D9, 0xA2E23F2E), 0x00000000, 5) == Regs(0x85704415, 0x9E740AE2, 0xB45C3AAC, 0x910D2BBA, 0xF8EA26D9);
    assert Compress(Regs(0xCBC80C8C, 0xF599E2AC, 0xBDB8C832, 0xDA95C1C3, 0xF8683025), w, 6) == Regs(0x85704415, 0x9E740AE2, 0xB45C3AAC, 0x910D2BBA, 0xF8EA26D9);
    assert Round(Regs(0x85704415, 0x9E740AE2, 0xB45C3AAC, 0x910D2BBA, 0xF8EA26D9), 0x00000000, 6) == Regs(0x96D24EDA, 0x85704415, 0xA79D02B8, 0xB45C3AAC, 0x910D2BBA);
    assert Compress(Regs(0xCBC80C8C, 0xF599E2AC, 0xBDB8C832, 0xDA95C1C3, 0xF8683025), w, 7) == Regs(0x96D24EDA, 0x85704415, 0xA79D02B8, 0xB45C3AAC, 0x910D2BBA);
    assert Round(Regs(0x96D24EDA, 0x85704415, 0xA79D02B8, 0xB45C3AAC, 0x910D2BBA), 0x00000000, 7) == Regs(0x7AF5BB5D, 0x96D24EDA, 0x615C1105, 0xA79D02B8, 0xB45C3AAC);
    assert Compress(Regs(0xCBC80C8C, 0xF599E2AC, 0xBDB8C832, 0xDA95C1C3, 0xF8683025), w, 8) == Regs(0x7AF5BB5D, 0x96D24EDA, 0x615C1105, 0xA79D02B8, 0xB45C3AAC);
    assert Round(Regs(0x7AF5BB5D, 0x96D24EDA, 0x615C1105, 0xA79D02B8, 0xB45C3AAC), 0x00000000, 8) == Regs(0x8EF32014, 0x7AF5BB5D, 0xA5B493B6, 0x615C1105, 0xA79D02B8);
    assert Compress(Regs(0xCBC80C8C, 0xF599E2AC, 0xBDB8C832, 0xDA95C1C3, 0xF8683025), w, 9) == Regs(0x8EF32014, 0x7AF5BB5D, 0xA5B493B6, 0x615C1105, 0xA79D02B8);
    assert Round(Regs(0x8EF32014, 0x7AF5BB5D, 0xA5B493B6, 0x615C1105, 0xA79D02B8), 0x00000000, 9) == Regs(0x024011F6, 0x8EF32014, 0x5EBD6ED7, 0xA5B493B6, 0x615C1105);
    assert Compress(Regs(0xCBC80C8C, 0xF599E2AC, 0xBDB8C832, 0xDA95C1C3, 0xF8683025), w, 10) == Regs(0x024011F6, 0x8EF32014, 0x5EBD6ED7, 0xA5B493B6, 0x615C1105);
    assert Round(Regs(0x024011F6, 0x8EF32014, 0x5EBD6ED7, 0xA5B493B6, 0x615C1105), 0x00000000, 10) == Regs(0x33967D14, 0x024011F6, 0x23BCC805, 0x5EBD6ED7, 0xA5B493B6);
    assert Compress(Regs(0xCBC80C8C, 0xF599E2AC, 0xBDB8C832, 0xDA95C1C3, 0xF8683025), w, 11) == Regs(0x33967D14, 0x024011F6, 0x23BCC805, 0x5EBD6ED7, 0xA5B493B6);
    assert Round(Regs(0x33967D14, 0x024011F6, 0x23BCC805, 0x5EBD6ED7, 0xA5B493B6), 0x00000000, 11) == Regs(0xD1C41DDA, 0x33967D14, 0x8090047D, 0x23BCC805, 0x5EBD6ED7);
    assert Compress(Regs(0xCBC80C8C, 0xF599E2AC, 0xBDB8C832, 0xDA95C1C3, 0xF8683025), w, 12) == Regs(0xD1C41DDA, 0x33967D14, 0x8090047D, 0x23BCC805, 0x5EBD6ED7);
    assert Round(Regs(0xD1C41DDA, 0x33967D14, 0x8090047D, 0x23BCC805, 0x5EBD6ED7), 0x00000000, 12) == Regs(0xF27C27DF, 0xD1C41DDA, 0x0CE59F45, 0x8090047D, 0x23BCC805);
    assert Compress(Regs(0xCBC80C8C, 0xF599E2AC, 0xBDB8C832, 0xDA95C1C3, 0xF8683025), w, 13) == Regs(0xF27C27DF, 0xD1C41DDA, 0x0CE59F45, 0x8090047D, 0x23BCC805);
    assert Round(Regs(0xF27C27DF, 0xD1C41DDA, 0x0CE59F45, 0x8090047D, 0x23BCC805), 0x00000000, 13) == Regs(0xCE985B01, 0xF27C27DF, 0xB4710776, 0x0CE59F45, 0x8090047D);
    assert Compress(Regs(0xCBC80C8C, 0xF599E2AC, 0xBDB8C832, 0xDA95C1C3, 0xF8683025), w, 14) == Regs(0xCE985B01, 0xF27C27DF, 0xB4710776, 0x0CE59F45, 0x8090047D);
    assert Round(Regs(0xCE985B01, 0xF27C27DF, 0xB4710776, 0x0CE59F45, 0x8090047D), 0x00000000, 14) == Regs(0x6B0F7DA5, 0xCE985B01, 0xFC9F09F7, 0xB4710776, 0x0CE59F45);
    assert Compress(Regs(0xCBC80C8C, 0xF599E2AC, 0xBDB8C832, 0xDA95C1C3, 0xF8683025), w, 15) == Regs(0x6B0F7DA5, 0xCE985B01, 0xFC9F09F7, 0xB4710776, 0x0CE59F45);
    assert Round(Regs(0x6B0F7DA5, 0xCE985B01, 0xFC9F09F7, 0xB4710776, 0x0CE59F45), 0x00000240, 15) == Regs(0xC650DD42, 0x6B0F7DA5, 0x73A616C0, 0xFC9F09F7, 0xB4710776);
    assert Compress(Regs(0xCBC80C8C, 0xF599E2AC, 0xBDB8C832, 0xDA95C1C3, 0xF8683025), w, 16) == Regs(0xC650DD42, 0x6B0F7DA5, 0x73A616C0, 0xFC9F09F7, 0xB4710776);
    assert Round(Regs(0xC650DD42, 0x6B0F7DA5, 0x73A616C0, 0xFC9F09F7, 0xB4710776), 0x00000001, 16) == Regs(0xD0A53E3A, 0xC650DD42, 0x5AC3DF69, 0x73A616C0, 0xFC9F09F7);
    assert Compress(Regs(0xCBC80C8C, 0xF599E2AC, 0xBDB8C832, 0xDA95C1C3, 0xF8683025), w, 17) == Regs(0xD0A53E3A, 0xC650DD42, 0x5AC3DF69, 0x73A616C0, 0xFC9F09F7);
    assert Round(Regs(0xD0A53E3A, 0xC650DD42, 0x5AC3DF69, 0x73A616C0, 0xFC9F09F7), 0x00000000, 17) == Regs(0xDFB02AAA, 0xD0A53E3A, 0xB1943750, 0x5AC3DF69, 0x73A616C0);
    assert Compress(Regs(0xCBC80C8C, 0xF599E2AC, 0xBDB8C832, 0xDA95C1C3, 0xF8683025), w, 18) == Regs(0xDFB02AAA, 0xD0A53E3A, 0xB1943750, 0x5AC3DF69, 0x73A616C0);
    assert Round(Regs(0xDFB02AAA, 0xD0A53E3A, 0xB1943750, 0x5AC3DF69, 0x73A616C0), 0x00000481, 18) == Regs(0x5EF4E186, 0xDFB02AAA, 0xB4294F8E, 0xB1943750, 0x5AC3DF69);
    assert Compress(Regs(0xCBC80C8C, 0xF599E2AC, 0xBDB8C832, 0xDA95C1C3, 0xF8683025), w, 19) == Regs(0x5EF4E186, 0xDFB02AAA, 0xB4294F8E, 0xB1943750, 0x5AC3DF69);
    assert Round(Regs(0x5EF4E186, 0xDFB02AAA, 0xB4294F8E, 0xB1943750, 0x5AC3DF69), 0x00000002, 19) == Regs(0x4806A9A9, 0x5EF4E186, 0xB7EC0AAA, 0xB4294F8E, 0xB1943750);
    assert Compress(Regs(0xCBC80C8C, 0xF599E2AC, 0xBDB8C832, 0xDA95C1C3, 0xF8683025), w, 20) == Regs(0x4806A9A9, 0x5EF4E186, 0xB7EC0AAA, 0xB4294F8E, 0xB1943750);
  }

  lemma Rfc0Inner1Rounds1(w: seq<word>)
    requires |w| == 80
    requires w[20] == 0x00000000 && w[21] == 0x00000902 && w[22] == 0x00000004 && w[23] == 0x00000480 &&
      w[24] == 0x00001206 && w[25] == 0x00000008 && w[26] == 0x00000002 && w[27] == 0x00002408 &&
      w[28] == 0x00000010 && w[29] == 0x00001680 && w[30] == 0x0000481A && w[31] == 0x00000DA0 &&
      w[32] == 0x0000000C && w[33] == 0x00009020 && w[34] == 0x00001246 && w[35] == 0x00005A08 &&
      w[36] == 0x00012068 && w[37] == 0x00001288 && w[38] == 0x00000020 && w[39] == 0x00025280
    requires Compress(Regs(0xCBC80C8C, 0xF599E2AC, 0xBDB8C832, 0xDA95C1C3, 0xF8683025), w, 20) == Regs(0x4806A9A9, 0x5EF4E186, 0xB7EC0AAA, 0xB4294F8E, 0xB1943750)
    ensures Compress(Regs(0xCBC80C8C, 0xF599E2AC, 0xBDB8C832, 0xDA95C1C3, 0xF8683025), w, 40) == Regs(0x0E830DDD, 0xEDF49A31, 0x95592F83, 0xC92985BF, 0x1142779A)
  {
    assert Round(Regs(0x4806A9A9, 0x5EF4E186, 0xB7EC0AAA, 0xB4294F8E, 0xB1943750), 0x00000000, 20) == Regs(0x7E74FCBC, 0x4806A9A9, 0x97BD3861, 0xB7EC0AAA, 0xB4294F8E);
    assert Compress(Regs(0xCBC80C8C, 0xF599E2AC, 0xBDB8C832, 0xDA95C1C3, 0xF8683025), w, 21) == Regs(0x7E74FCBC, 0x4806A9A9, 0x97BD3861, 0xB7EC0AAA, 0xB4294F8E);
    assert Round(Regs(0x7E74FCBC, 0x4806A9A9, 0x97BD3861, 0xB7EC0AAA, 0xB4294F8E), 0x00000902, 21) == Regs(0x59FA7722, 0x7E74FCBC, 0x5201AA6A, 0x97BD3861, 0xB7EC0AAA);
    assert Compress(Regs(0xCBC80C8C, 0xF599E2AC, 0xBDB8C832, 0xDA95C1C3, 0xF8683025), w, 22) == Regs(0x59FA7722, 0x7E74FCBC, 0x5201AA6A, 0x97BD3861, 0xB7EC0AAA);
    assert Round(Regs(0x59FA7722, 0x7E74FCBC, 0x5201AA6A, 0x97BD3861, 0xB7EC0AAA), 0x00000004, 22) == Regs(0x21DD4951, 0x59FA7722, 0x1F9D3F2F, 0x5201AA6A, 0x97BD3861);
    assert Compress(Regs(0xCBC80C8C, 0xF599E2AC, 0xBDB8C832, 0xDA95C1C3, 0xF8683025), w, 23) == Regs(0x21DD4951, 0x59FA7722, 0x1F9D3F2F, 0x5201AA6A, 0x97BD3861);
    assert Round(Regs(0x21DD4951, 0x59FA7722, 0x1F9D3F2F, 0x5201AA6A, 0x97BD3861), 0x00000480, 23) == Regs(0x56A7350D, 0x21DD4951, 0x967E9DC8, 0x1F9D3F2F, 0x5201AA6A);
    assert Compress(Regs(0xCBC80C8C, 0xF599E2AC, 0xBDB8C832, 0xDA95C1C3, 0xF8683025), w, 24) == Regs(0x56A7350D, 0x21DD4951, 0x967E9DC8, 0x1F9D3F2F, 0x5201AA6A);
    assert Round(Regs(0x56A7350D, 0x21DD4951, 0x967E9DC8, 0x1F9D3F2F, 0x5201AA6A), 0x00001206, 24) == Regs(0x3E013571, 0x56A7350D, 0x48775254, 0x967E9DC8, 0x1F9D3F2F);
    assert Compress(Regs(0xCBC80C8C, 0xF599E2AC, 0xBDB8C832, 0xDA95C1C3, 0xF8683025), w, 25) == Regs(0x3E013571, 0x56A7350D, 0x48775254, 0x967E9DC8, 0x1F9D3F2F);
    assert Round(Regs(0x3E013571, 0x56A7350D, 0x48775254, 0x967E9DC8, 0x1F9D3F2F), 0x00000008, 25) == Regs(0xD74CD390, 0x3E013571, 0x55A9CD43, 0x48775254, 0x967E9DC8);
    assert Compress(Regs(0xCBC80C8C, 0xF599E2AC, 0xBDB8C832, 0xDA95C1C3, 0xF8683025), w, 26) == Regs(0xD74CD390, 0x3E013571, 0x55A9CD43, 0x48775254, 0x967E9DC8);
    assert Round(Regs(0xD74CD390, 0x3E013571, 0x55A9CD43, 0x48775254, 0x967E9DC8), 0x00000002, 26) == Regs(0x12D2A5EB, 0xD74CD390, 0x4F804D5C, 0x55A9CD43, 0x48775254);
    assert Compress(Regs(0xCBC80C8C, 0xF599E2AC, 0xBDB8C832, 0xDA95C1C3, 0xF8683025), w, 27) == Regs(0x12D2A5EB, 0xD74CD390, 0x4F804D5C, 0x55A9CD43, 0x48775254);
    assert Round(Regs(0x12D2A5EB, 0xD74CD390, 0x4F804D5C, 0x55A9CD43, 0x48775254), 0x00002408, 27) == Regs(0xDF0B72EE, 0x12D2A5EB, 0x35D334E4, 0x4F804D5C, 0x55A9CD43);
    assert Compress(Regs(0xCBC80C8C, 0xF599E2AC, 0xBDB8C832, 0xDA95C1C3, 0xF8683025), w, 28) == Regs(0xDF0B72EE, 0x12D2A5EB, 0x35D334E4, 0x4F804D5C, 0x55A9CD43);
    assert Round(Regs(0xDF0B72EE, 0x12D2A5EB, 0x35D334E4, 0x4F804D5C, 0x55A9CD43), 0x00000010, 28) == Regs(0x0E73F322, 0xDF0B72EE, 0xC4B4A97A, 0x35D334E4, 0x4F804D5C);
    assert Compress(Regs(0xCBC80C8C, 0xF599E2AC, 0xBDB8C832, 0xDA95C1C3, 0xF8683025), w, 29) == Regs(0x0E73F322, 0xDF0B72EE, 0xC4B4A97A, 0x35D334E4, 0x4F804D5C);
    assert Round(Regs(0x0E73F322, 0xDF0B72EE, 0xC4B4A97A, 0x35D334E4, 0x4F804D5C), 0x00001680, 29) == Regs(0xBB45A32E, 0x0E73F322, 0xB7C2DCBB, 0xC4B4A97A, 0x35D334E4);
    assert Compress(Regs(0xCBC80C8C, 0xF599E2AC, 0xBDB8C832, 0xDA95C1C3, 0xF8683025), w, 30) == Regs(0xBB45A32E, 0x0E73F322, 0xB7C2DCBB, 0xC4B4A97A, 0x35D334E4);
    assert Round(Regs(0xBB45A32E, 0x0E73F322, 0xB7C2DCBB, 0xC4B4A97A, 0x35D334E4), 0x0000481A, 30) == Regs(0x8A675559, 0xBB45A32E, 0x839CFCC8, 0xB7C2DCBB, 0xC4B4A97A);
    assert Compress(Regs(0xCBC80C8C, 0xF599E2AC, 0xBDB8C832, 0xDA95C1C3, 0xF8683025), w, 31) == Regs(0x8A675559, 0xBB45A32E, 0x839CFCC8, 0xB7C2DCBB, 0xC4B4A97A);
    assert Round(Regs(0x8A675559, 0xBB45A32E, 0x839CFCC8, 0xB7C2DCBB, 0xC4B4A97A), 0x00000DA0, 31) == Regs(0x0F94D149, 0x8A675559, 0xAED168CB, 0x839CFCC8, 0xB7C2DCBB);
    assert Compress(Regs(0xCBC80C8C, 0xF599E2AC, 0xBDB8C832, 0xDA95C1C3, 0xF8683025), w, 32) == Regs(0x0F94D149, 0x8A675559, 0xAED168CB, 0x839CFCC8, 0xB7C2DCBB);
    assert Round(Regs(0x0F94D149, 0x8A675559, 0xAED168CB, 0x839CFCC8, 0xB7C2DCBB), 0x0000000C, 32) == Regs(0xC061B2E3, 0x0F94D149, 0x6299D556, 0xAED168CB, 0x839CFCC8);
    assert Compress(Regs(0xCBC80C8C, 0xF599E2AC, 0xBDB8C832, 0xDA95C1C3, 0xF8683025), w, 33) == Regs(0xC061B2E3, 0x0F94D149, 0x6299D556, 0xAED168CB, 0x839CFCC8);
    assert Round(Regs(0xC061B2E3, 0x0F94D149, 0x6299D556, 0xAED168CB, 0x839CFCC8), 0x00009020, 33) == Regs(0xC28A41D5, 0xC061B2E3, 0x43E53452, 0x6299D556, 0xAED168CB);
    assert Compress(Regs(0xCBC80C8C, 0xF599E2AC, 0xBDB8C832, 0xDA95C1C3, 0xF8683025), w, 34) == Regs(0xC28A41D5, 0xC061B2E3, 0x43E53452, 0x6299D556, 0xAED168CB);
    assert Round(Regs(0xC28A41D5, 0xC061B2E3, 0x43E53452, 0x6299D556, 0xAED168CB), 0x00001246, 34) == Regs(0x5010F551, 0xC28A41D5, 0xF0186CB8, 0x43E53452, 0x6299D556);
    assert Compress(Regs(0xCBC80C8C, 0xF599E2AC, 0xBDB8C832, 0xDA95C1C3, 0xF8683025), w, 35) == Regs(0x5010F551, 0xC28A41D5, 0xF0186CB8, 0x43E53452, 0x6299D556);
    assert Round(Regs(0x5010F551, 0xC28A41D5, 0xF0186CB8, 0x43E53452, 0x6299D556), 0x00005A08, 35) == Regs(0x4509DE68, 0x5010F551, 0x70A29075, 0xF0186CB8, 0x43E53452);
    assert Compress(Regs(0xCBC80C8C, 0xF599E2AC, 0xBDB8C832, 0xDA95C1C3, 0xF8683025), w, 36) == Regs(0x4509DE68, 0x5010F551, 0x70A29075, 0xF0186CB8, 0x43E53452);
    assert Round(Regs(0x4509DE68, 0x5010F551, 0x70A29075, 0xF0186CB8, 0x43E53452), 0x00012068, 36) == Regs(0x24A616FF, 0x4509DE68, 0x54043D54, 0x70A29075, 0xF0186CB8);
    assert Compress(Regs(0xCBC80C8C, 0xF599E2AC, 0xBDB8C832, 0xDA95C1C3, 0xF8683025), w, 37) == Regs(0x24A616FF, 0x4509DE68, 0x54043D54, 0x70A29075, 0xF0186CB8);
    assert Round(Regs(0x24A616FF, 0x4509DE68, 0x54043D54, 0x70A29075, 0xF0186CB8), 0x00001288, 37) == Regs(0x5564BE0E, 0x24A616FF, 0x1142779A, 0x54043D54, 0x70A29075);
    assert Compress(Regs(0xCBC80C8C, 0xF599E2AC, 0xBDB8C832, 0xDA95C1C3, 0xF8683025), w, 38) == Regs(0x5564BE0E, 0x24A616FF, 0x1142779A, 0x54043D54, 0x70A29075);
    assert Round(Regs(0x5564BE0E, 0x24A616FF, 0x1142779A, 0x54043D54, 0x70A29075), 0x00000020, 38) == Regs(0xEDF49A31, 0x5564BE0E, 0xC92985BF, 0x1142779A, 0x54043D54);
    assert Compress(Regs(0xCBC80C8C, 0xF599E2AC, 0xBDB8C832, 0xDA95C1C3, 0xF8683025), w, 39) == Regs(0xEDF49A31, 0x5564BE0E, 0xC92985BF, 0x1142779A, 0x54043D54);
    assert Round(Regs(0xEDF49A31, 0x5564BE0E, 0xC92985BF, 0x1142779A, 0x54043D54), 0x00025280, 39) == Regs(0x0E830DDD, 0xEDF49A31, 0x95592F83, 0xC92985BF, 0x1142779A);
    assert Compress(Regs(0xCBC80C8C, 0xF599E2AC, 0xBDB8C832, 0xDA95C1C3, 0xF8683025), w, 40) == Regs(0x0E830DDD, 0xEDF49A31, 0x95592F83, 0xC92985BF, 0x1142779A);
  }

  lemma Rfc0Inner1Rounds2(w: seq<word>)
    requires |w| == 80
    requires w[40] == 0x00000100 && w[41] == 0x00016800 && w[42] == 0x000481A8 && w[43] == 0x0000D300 &&
      w[44] == 0x000000C4 && w[45] == 0x00091000 && w[46] == 0x0001366C && w[47] == 0x00059F88 &&
      w[48] == 0x00120694 && w[49] == 0x00012888 && w[50] == 0x0000581C && w[51] == 0x00253A28 &&
      w[52] == 0x00001008 && w[53] == 0x00161028 && w[54] == 0x00481AC8 && w[55] == 0x000D6A00 &&
      w[56] == 0x00012C28 && w[57] == 0x00911280 && w[58] == 0x001366E0 && w[59] == 0x005BAA00
    requires Compress(Regs(0xCBC80C8C, 0xF599E2AC, 0xBDB8C832, 0xDA95C1C3, 0xF8683025), w, 40) == Regs(0x0E830DDD, 0xEDF49A31, 0x95592F83, 0xC92985BF, 0x1142779A)
    ensures Compress(Regs(0xCBC80C8C, 0xF599E2AC, 0xBDB8C832, 0xDA95C1C3, 0xF8683025), w, 60) == Regs(0x93671EBB, 0x2CF06EC6, 0x80C94671, 0x82FF4686, 0xEBAFD5EF)
  {
    assert Round(Regs(0x0E830DDD, 0xEDF49A31, 0x95592F83, 0xC92985BF, 0x1142779A), 0x00000100, 40) == Regs(0x3E3980CA, 0x0E830DDD, 0x7B7D268C, 0x95592F83, 0xC92985BF);
    assert Compress(Regs(0xCBC80C8C, 0xF599E2AC, 0xBDB8C832, 0xDA95C1C3, 0xF8683025), w, 41) == Regs(0x3E3980CA, 0x0E830DDD, 0x7B7D268C, 0x95592F83, 0xC92985BF);
    assert Round(Regs(0x3E3980CA, 0x0E830DDD, 0x7B7D268C, 0x95592F83, 0xC92985BF), 0x00016800, 41) == Regs(0x3ECFF36F, 0x3E3980CA, 0x43A0C377, 0x7B7D268C, 0x95592F83);
    assert Compress(Regs(0xCBC80C8C, 0xF599E2AC, 0xBDB8C832, 0xDA95C1C3, 0xF8683025), w, 42) == Regs(0x3ECFF36F, 0x3E3980CA, 0x43A0C377, 0x7B7D268C, 0x95592F83);
    assert Round(Regs(0x3ECFF36F, 0x3E3980CA, 0x43A0C377, 0x7B7D268C, 0x95592F83), 0x000481A8, 42) == Regs(0x79B15EBC, 0x3ECFF36F, 0x8F8E6032, 0x43A0C377, 0x7B7D268C);
    assert Compress(Regs(0xCBC80C8C, 0xF599E2AC, 0xBDB8C832, 0xDA95C1C3, 0xF8683025), w, 43) == Regs(0x79B15EBC, 0x3ECFF36F, 0x8F8E6032, 0x43A0C377, 0x7B7D268C);
    assert Round(Regs(0x79B15EBC, 0x3ECFF36F, 0x8F8E6032, 0x43A0C377, 0x7B7D268C), 0x0000D300, 43) == Regs(0x5054716E, 0x79B15EBC, 0xCFB3FCDB, 0x8F8E6032, 0x43A0C377);
    assert Compress(Regs(0xCBC80C8C, 0xF599E2AC, 0xBDB8C832, 0xDA95C1C3, 0xF8683025), w, 44) == Regs(0x5054716E, 0x79B15EBC, 0xCFB3FCDB, 0x8F8E6032, 0x43A0C377);
    assert Round(Regs(0x5054716E, 0x79B15EBC, 0xCFB3FCDB, 0x8F8E6032, 0x43A0C377), 0x000000C4, 44) == Regs(0xACFE2B9B, 0x5054716E, 0x1E6C57AF, 0xCFB3FCDB, 0x8F8E6032);
    assert Compress(Regs(0xCBC80C8C, 0xF599E2AC, 0xBDB8C832, 0xDA95C1C3, 0xF8683025), w, 45) == Regs(0xACFE2B9B, 0x5054716E, 0x1E6C57AF, 0xCFB3FCDB, 0x8F8E6032);
    assert Round(Regs(0xACFE2B9B, 0x5054716E, 0x1E6C57AF, 0xCFB3FCDB, 0x8F8E6032), 0x00091000, 45) == Regs(0x1CED1672, 0xACFE2B9B, 0x94151C5B, 0x1E6C57AF, 0xCFB3FCDB);
    assert Compress(Regs(0xCBC80C8C, 0xF599E2AC, 0xBDB8C832, 0xDA95C1C3, 0xF8683025), w, 46) == Regs(0x1CED1672, 0xACFE2B9B, 0x94151C5B, 0x1E6C57AF, 0xCFB3FCDB);
    assert Round(Regs(0x1CED1672, 0xACFE2B9B, 0x94151C5B, 0x1E6C57AF, 0xCFB3FCDB), 0x0001366C, 46) == Regs(0x98EFDE01, 0x1CED1672, 0xEB3F8AE6, 0x94151C5B, 0x1E6C57AF);
    assert Compress(Regs(0xCBC80C8C, 0xF599E2AC, 0xBDB8C832, 0xDA95C1C3, 0xF8683025), w, 47) == Regs(0x98EFDE01, 0x1CED1672, 0xEB3F8AE6, 0x94151C5B, 0x1E6C57AF);
    assert Round(Regs(0x98EFDE01, 0x1CED1672, 0xEB3F8AE6, 0x94151C5B, 0x1E6C57AF), 0x00059F88, 47) == Regs(0x67C692B8, 0x98EFDE01, 0x873B459C, 0xEB3F8AE6, 0x94151C5B);
    assert Compress(Regs(0xCBC80C8C, 0xF599E2AC, 0xBDB8C832, 0xDA95C1C3, 0xF8683025), w, 48) == Regs(0x67C692B8, 0x98EFDE01, 0x873B459C, 0xEB3F8AE6, 0x94151C5B);
    assert Round(Regs(0x67C692B8, 0x98EFDE01, 0x873B459C, 0xEB3F8AE6, 0x94151C5B), 0x00120694, 48) == Regs(0xA755055B, 0x67C692B8, 0x663BF780, 0x873B459C, 0xEB3F8AE6);
    assert Compress(Regs(0xCBC80C8C, 0xF599E2AC, 0xBDB8C832, 0xDA95C1C3, 0xF8683025), w, 49) == Regs(0xA755055B, 0x67C692B8, 0x663BF780, 0x873B459C, 0xEB3F8AE6);
    assert Round(Regs(0xA755055B, 0x67C692B8, 0x663BF780, 0x873B459C, 0xEB3F8AE6), 0x00012888, 49) == Regs(0xCC38F356, 0xA755055B, 0x19F1A4AE, 0x663BF780, 0x873B459C);
    assert Compress(Regs(0xCBC80C8C, 0xF599E2AC, 0xBDB8C832, 0xDA95C1C3, 0xF8683025), w, 50) == Regs(0xCC38F356, 0xA755055B, 0x19F1A4AE, 0x663BF780, 0x873B459C);
    assert Round(Regs(0xCC38F356, 0xA755055B, 0x19F1A4AE, 0x663BF780, 0x873B459C), 0x0000581C, 50) == Regs(0xC4E76AF7, 0xCC38F356, 0xE9D54156, 0x19F1A4AE, 0x663BF780);
    assert Compress(Regs(0xCBC80C8C, 0xF599E2AC, 0xBDB8C832, 0xDA95C1C3, 0xF8683025), w, 51) == Regs(0xC4E76AF7, 0xCC38F356, 0xE9D54156, 0x19F1A4AE, 0x663BF780);
    assert Round(Regs(0xC4E76AF7, 0xCC38F356, 0xE9D54156, 0x19F1A4AE, 0x663BF780), 0x00253A28, 51) == Regs(0x5C5C2ED2, 0xC4E76AF7, 0xB30E3CD5, 0xE9D54156, 0x19F1A4AE);
    assert Compress(Regs(0xCBC80C8C, 0xF599E2AC, 0xBDB8C832, 0xDA95C1C3, 0xF8683025), w, 52) == Regs(0x5C5C2ED2, 0xC4E76AF7, 0xB30E3CD5, 0xE9D54156, 0x19F1A4AE);
    assert Round(Regs(0x5C5C2ED2, 0xC4E76AF7, 0xB30E3CD5, 0xE9D54156, 0x19F1A4AE), 0x00001008, 52) == Regs(0x165AB4B4, 0x5C5C2ED2, 0xF139DABD, 0xB30E3CD5, 0xE9D54156);
    assert Compress(Regs(0xCBC80C8C, 0xF599E2AC, 0xBDB8C832, 0xDA95C1C3, 0xF8683025), w, 53) == Regs(0x165AB4B4, 0x5C5C2ED2, 0xF139DABD, 0xB30E3CD5, 0xE9D54156);
    assert Round(Regs(0x165AB4B4, 0x5C5C2ED2, 0xF139DABD, 0xB30E3CD5, 0xE9D54156), 0x00161028, 53) == Regs(0x3579E3B1, 0x165AB4B4, 0x97170BB4, 0xF139DABD, 0xB30E3CD5);
    assert Compress(Regs(0xCBC80C8C, 0xF599E2AC, 0xBDB8C832, 0xDA95C1C3, 0xF8683025), w, 54) == Regs(0x3579E3B1, 0x165AB4B4, 0x97170BB4, 0xF139DABD, 0xB30E3CD5);
    assert Round(Regs(0x3579E3B1, 0x165AB4B4, 0x97170BB4, 0xF139DABD, 0xB30E3CD5), 0x00481AC8, 54) == Regs(0x88CA2553, 0x3579E3B1, 0x0596AD2D, 0x97170BB4, 0xF139DABD);
    assert Compress(Regs(0xCBC80C8C, 0xF599E2AC, 0xBDB8C832, 0xDA95C1C3, 0xF8683025), w, 55) == Regs(0x88CA2553, 0x3579E3B1, 0x0596AD2D, 0x97170BB4, 0xF139DABD);
    assert Round(Regs(0x88CA2553, 0x3579E3B1, 0x0596AD2D, 0x97170BB4, 0xF139DABD), 0x000D6A00, 55) == Regs(0xAEBF57BF, 0x88CA2553, 0x4D5E78EC, 0x0596AD2D, 0x97170BB4);
    assert Compress(Regs(0xCBC80C8C, 0xF599E2AC, 0xBDB8C832, 0xDA95C1C3, 0xF8683025), w, 56) == Regs(0xAEBF57BF, 0x88CA2553, 0x4D5E78EC, 0x0596AD2D, 0x97170BB4);
    assert Round(Regs(0xAEBF57BF, 0x88CA2553, 0x4D5E78EC, 0x0596AD2D, 0x97170BB4), 0x00012C28, 56) == Regs(0x0BFD1A1A, 0xAEBF57BF, 0xE2328954, 0x4D5E78EC, 0x0596AD2D);
    assert Compress(Regs(0xCBC80C8C, 0xF599E2AC, 0xBDB8C832, 0xDA95C1C3, 0xF8683025), w, 57) == Regs(0x0BFD1A1A, 0xAEBF57BF, 0xE2328954, 0x4D5E78EC, 0x0596AD2D);
    assert Round(Regs(0x0BFD1A1A, 0xAEBF57BF, 0xE2328954, 0x4D5E78EC, 0x0596AD2D), 0x00911280, 57) == Regs(0x032519C6, 0x0BFD1A1A, 0xEBAFD5EF, 0xE2328954, 0x4D5E78EC);
    assert Compress(Regs(0xCBC80C8C, 0xF599E2AC, 0xBDB8C832, 0xDA95C1C3, 0xF8683025), w, 58) == Regs(0x032519C6, 0x0BFD1A1A, 0xEBAFD5EF, 0xE2328954, 0x4D5E78EC);
    assert Round(Regs(0x032519C6, 0x0BFD1A1A, 0xEBAFD5EF, 0xE2328954, 0x4D5E78EC), 0x001366E0, 58) == Regs(0x2CF06EC6, 0x032519C6, 0x82FF4686, 0xEBAFD5EF, 0xE2328954);
    assert Compress(Regs(0xCBC80C8C, 0xF599E2AC, 0xBDB8C832, 0xDA95C1C3, 0xF8683025), w, 59) == Regs(0x2CF06EC6, 0x032519C6, 0x82FF4686, 0xEBAFD5EF, 0xE2328954);
    assert Round(Regs(0x2CF06EC6, 0x032519C6, 0x82FF4686, 0xEBAFD5EF, 0xE2328954), 0x005BAA00, 59) == Regs(0x93671EBB, 0x2CF06EC6, 0x80C94671, 0x82FF4686, 0xEBAFD5EF);
    assert Compress(Regs(0xCBC80C8C, 0xF599E2AC, 0xBDB8C832, 0xDA95C1C3, 0xF8683025), w, 60) == Regs(0x93671EBB, 0x2CF06EC6, 0x80C94671, 0x82FF4686, 0xEBAFD5EF);
  }

  lemma Rfc0Inner1Rounds3(w: seq<word>)
    requires |w| == 80
    requires w[60] == 0x01206840 && w[61] == 0x0013F280 && w[62] == 0x00010060 && w[63] == 0x02536A80 &&
      w[64] == 0x00010040 && w[65] == 0x01680080 && w[66] == 0x048088E8 && w[67] == 0x00D30080 &&
      w[68] == 0x0000C400 && w[69] == 0x09100080 && w[70] == 0x01366C00 && w[71] == 0x059FAC00 &&
      w[72] == 0x12069410 && w[73] == 0x0129A800 && w[74] == 0x00585490 && w[75] == 0x253B9820 &&
      w[76] == 0x00100840 && w[77] == 0x16119820 && w[78] == 0x481BE800 && w[79] == 0x0D699C80
    requires Compress(Regs(0xCBC80C8C, 0xF599E2AC, 0xBDB8C832, 0xDA95C1C3, 0xF8683025), w, 60) == Regs(0x93671EBB, 0x2CF06EC6, 0x80C94671, 0x82FF4686, 0xEBAFD5EF)
    ensures Compress(Regs(0xCBC80C8C, 0xF599E2AC, 0xBDB8C832, 0xDA95C1C3, 0xF8683025), w, 80) == Regs(0x3CC9CD32, 0x1421341B, 0x0AB965C1, 0x8E42A18D, 0x6E161979)
  {
    assert Round(Regs(0x93671EBB, 0x2CF06EC6, 0x80C94671, 0x82FF4686, 0xEBAFD5EF), 0x01206840, 60) == Regs(0x52DD45A8, 0x93671EBB, 0x8B3C1BB1, 0x80C94671, 0x82FF4686);
    assert Compress(Regs(0xCBC80C8C, 0xF599E2AC, 0xBDB8C832, 0xDA95C1C3, 0xF8683025), w, 61) == Regs(0x52DD45A8, 0x93671EBB, 0x8B3C1BB1, 0x80C94671, 0x82FF4686);
    assert Round(Regs(0x52DD45A8, 0x93671EBB, 0x8B3C1BB1, 0x80C94671, 0x82FF4686), 0x0013F280, 61) == Regs(0x41B0F361, 0x52DD45A8, 0xE4D9C7AE, 0x8B3C1BB1, 0x80C94671);
    assert Compress(Regs(0xCBC80C8C, 0xF599E2AC, 0xBDB8C832, 0xDA95C1C3, 0xF8683025), w, 62) == Regs(0x41B0F361, 0x52DD45A8, 0xE4D9C7AE, 0x8B3C1BB1, 0x80C94671);
    assert Round(Regs(0x41B0F361, 0x52DD45A8, 0xE4D9C7AE, 0x8B3C1BB1, 0x80C94671), 0x00010060, 62) == Regs(0xBE840E86, 0x41B0F361, 0x14B7516A, 0xE4D9C7AE, 0x8B3C1BB1);
    assert Compress(Regs(0xCBC80C8C, 0xF599E2AC, 0xBDB8C832, 0xDA95C1C3, 0xF8683025), w, 63) == Regs(0xBE840E86, 0x41B0F361, 0x14B7516A, 0xE4D9C7AE, 0x8B3C1BB1);
    assert Round(Regs(0xBE840E86, 0x41B0F361, 0x14B7516A, 0xE4D9C7AE, 0x8B3C1BB1), 0x02536A80, 63) == Regs(0xDA527E83, 0xBE840E86, 0x506C3CD8, 0x14B7516A, 0xE4D9C7AE);
    assert Compress(Regs(0xCBC80C8C, 0xF599E2AC, 0xBDB8C832, 0xDA95C1C3, 0xF8683025), w, 64) == Regs(0xDA527E83, 0xBE840E86, 0x506C3CD8, 0x14B7516A, 0xE4D9C7AE);
    assert Round(Regs(0xDA527E83, 0xBE840E86, 0x506C3CD8, 0x14B7516A, 0xE4D9C7AE), 0x00010040, 64) == Regs(0xF3ECBD73, 0xDA527E83, 0xAFA103A1, 0x506C3CD8, 0x14B7516A);
    assert Compress(Regs(0xCBC80C8C, 0xF599E2AC, 0xBDB8C832, 0xDA95C1C3, 0xF8683025), w, 65) == Regs(0xF3ECBD73, 0xDA527E83, 0xAFA103A1, 0x506C3CD8, 0x14B7516A);
    assert Round(Regs(0xF3ECBD73, 0xDA527E83, 0xAFA103A1, 0x506C3CD8, 0x14B7516A), 0x01680080, 65) == Regs(0x83B90438, 0xF3ECBD73, 0xF6949FA0, 0xAFA103A1, 0x506C3CD8);
    assert Compress(Regs(0xCBC80C8C, 0xF599E2AC, 0xBDB8C832, 0xDA95C1C3, 0xF8683025), w, 66) == Regs(0x83B90438, 0xF3ECBD73, 0xF6949FA0, 0xAFA103A1, 0x506C3CD8);
    assert Round(Regs(0x83B90438, 0xF3ECBD73, 0xF6949FA0, 0xAFA103A1, 0x506C3CD8), 0x048088E8, 66) == Regs(0x41493018, 0x83B90438, 0xFCFB2F5C, 0xF6949FA0, 0xAFA103A1);
    assert Compress(Regs(0xCBC80C8C, 0xF599E2AC, 0xBDB8C832, 0xDA95C1C3, 0xF8683025), w, 67) == Regs(0x41493018, 0x83B90438, 0xFCFB2F5C, 0xF6949FA0, 0xAFA103A1);
    assert Round(Regs(0x41493018, 0x83B90438, 0xFCFB2F5C, 0xF6949FA0, 0xAFA103A1), 0x00D30080, 67) == Regs(0x2DD37DC3, 0x41493018, 0x20EE410E, 0xFCFB2F5C, 0xF6949FA0);
    assert Compress(Regs(0xCBC80C8C, 0xF599E2AC, 0xBDB8C832, 0xDA95C1C3, 0xF8683025), w, 68) == Regs(0x2DD37DC3, 0x41493018, 0x20EE410E, 0xFCFB2F5C, 0xF6949FA0);
    assert Round(Regs(0x2DD37DC3, 0x41493018, 0x20EE410E, 0xFCFB2F5C, 0xF6949FA0), 0x0000C400, 68) == Regs(0x18C43C25, 0x2DD37DC3, 0x10524C06, 0x20EE410E, 0xFCFB2F5C);
    assert Compress(Regs(0xCBC80C8C, 0xF599E2AC, 0xBDB8C832, 0xDA95C1C3, 0xF8683025), w, 69) == Regs(0x18C43C25, 0x2DD37DC3, 0x10524C06, 0x20EE410E, 0xFCFB2F5C);
    assert Round(Regs(0x18C43C25, 0x2DD37DC3, 0x10524C06, 0x20EE410E, 0xFCFB2F5C), 0x09100080, 69) == Regs(0x0664E720, 0x18C43C25, 0xCB74DF70, 0x10524C06, 0x20EE410E);
    assert Compress(Regs(0xCBC80C8C, 0xF599E2AC, 0xBDB8C832, 0xDA95C1C3, 0xF8683025), w, 70) == Regs(0x0664E720, 0x18C43C25, 0xCB74DF70, 0x10524C06, 0x20EE410E);
    assert Round(Regs(0x0664E720, 0x18C43C25, 0xCB74DF70, 0x10524C06, 0x20EE410E), 0x01366C00, 70) == Regs(0x7D070237, 0x0664E720, 0x46310F09, 0xCB74DF70, 0x10524C06);
    assert Compress(Regs(0xCBC80C8C, 0xF599E2AC, 0xBDB8C832, 0xDA95C1C3, 0xF8683025), w, 71) == Regs(0x7D070237, 0x0664E720, 0x46310F09, 0xCB74DF70, 0x10524C06);
    assert Round(Regs(0x7D070237, 0x0664E720, 0x46310F09, 0xCB74DF70, 0x10524C06), 0x059FAC00, 71) == Regs(0x0C563824, 0x7D070237, 0x019939C8, 0x46310F09, 0xCB74DF70);
    assert Compress(Regs(0xCBC80C8C, 0xF599E2AC, 0xBDB8C832, 0xDA95C1C3, 0xF8683025), w, 72) == Regs(0x0C563824, 0x7D070237, 0x019939C8, 0x46310F09, 0xCB74DF70);
    assert Round(Regs(0x0C563824, 0x7D070237, 0x019939C8, 0x46310F09, 0xCB74DF70), 0x12069410, 72) == Regs(0x6D546ECD, 0x0C563824, 0xDF41C08D, 0x019939C8, 0x46310F09);
    assert Compress(Regs(0xCBC80C8C, 0xF599E2AC, 0xBDB8C832, 0xDA95C1C3, 0xF8683025), w, 73) == Regs(0x6D546ECD, 0x0C563824, 0xDF41C08D, 0x019939C8, 0x46310F09);
    assert Round(Regs(0x6D546ECD, 0x0C563824, 0xDF41C08D, 0x019939C8, 0x46310F09), 0x0129A800, 73) == Regs(0x8EDA13ED, 0x6D546ECD, 0x03158E09, 0xDF41C08D, 0x019939C8);
    assert Compress(Regs(0xCBC80C8C, 0xF599E2AC, 0xBDB8C832, 0xDA95C1C3, 0xF8683025), w, 74) == Regs(0x8EDA13ED, 0x6D546ECD, 0x03158E09, 0xDF41C08D, 0x019939C8);
    assert Round(Regs(0x8EDA13ED, 0x6D546ECD, 0x03158E09, 0xDF41C08D, 0x019939C8), 0x00585490, 74) == Regs(0x5896EE28, 0x8EDA13ED, 0x5B551BB3, 0x03158E09, 0xDF41C08D);
    assert Compress(Regs(0xCBC80C8C, 0xF599E2AC, 0xBDB8C832, 0xDA95C1C3, 0xF8683025), w, 75) == Regs(0x5896EE28, 0x8EDA13ED, 0x5B551BB3, 0x03158E09, 0xDF41C08D);
    assert Round(Regs(0x5896EE28, 0x8EDA13ED, 0x5B551BB3, 0x03158E09, 0xDF41C08D), 0x253B9820, 75) == Regs(0xB85865E5, 0x5896EE28, 0x63B684FB, 0x5B551BB3, 0x03158E09);
    assert Compress(Regs(0xCBC80C8C, 0xF599E2AC, 0xBDB8C832, 0xDA95C1C3, 0xF8683025), w, 76) == Regs(0xB85865E5, 0x5896EE28, 0x63B684FB, 0x5B551BB3, 0x03158E09);
    assert Round(Regs(0xB85865E5, 0x5896EE28, 0x63B684FB, 0x5B551BB3, 0x03158E09), 0x00100840, 76) == Regs(0x390A8636, 0xB85865E5, 0x1625BB8A, 0x63B684FB, 0x5B551BB3);
    assert Compress(Regs(0xCBC80C8C, 0xF599E2AC, 0xBDB8C832, 0xDA95C1C3, 0xF8683025), w, 77) == Regs(0x390A8636, 0xB85865E5, 0x1625BB8A, 0x63B684FB, 0x5B551BB3);
    assert Round(Regs(0x390A8636, 0xB85865E5, 0x1625BB8A, 0x63B684FB, 0x5B551BB3), 0x16119820, 77) == Regs(0x2AE59704, 0x390A8636, 0x6E161979, 0x1625BB8A, 0x63B684FB);
    assert Compress(Regs(0xCBC80C8C, 0xF599E2AC, 0xBDB8C832, 0xDA95C1C3, 0xF8683025), w, 78) == Regs(0x2AE59704, 0x390A8636, 0x6E161979, 0x1625BB8A, 0x63B684FB);
    assert Round(Regs(0x2AE59704, 0x390A8636, 0x6E161979, 0x1625BB8A, 0x63B684FB), 0x481BE800, 78) == Regs(0x1421341B, 0x2AE59704, 0x8E42A18D, 0x6E161979, 0x1625BB8A);
    assert Compress(Regs(0xCBC80C8C, 0xF599E2AC, 0xBDB8C832, 0xDA95C1C3, 0xF8683025), w, 79) == Regs(0x1421341B, 0x2AE59704, 0x8E42A18D, 0x6E161979, 0x1625BB8A);
    assert Round(Regs(0x1421341B, 0x2AE59704, 0x8E42A18D, 0x6E161979, 0x1625BB8A), 0x0D699C80, 79) == Regs(0x3CC9CD32, 0x1421341B, 0x0AB965C1, 0x8E42A18D, 0x6E161979);
    assert Compress(Regs(0xCBC80C8C, 0xF599E2AC, 0xBDB8C832, 0xDA95C1C3, 0xF8683025), w, 80) == Regs(0x3CC9CD32, 0x1421341B, 0x0AB965C1, 0x8E42A18D, 0x6E161979);
  }

  lemma Rfc0Inner1Compress(words: seq<word>)
    requires |words| == 16
    requires words[0] == 0x00000000 && words[1] == 0x00000000 && words[2] == 0x80000000 && words[3] == 0x00000000 &&
      words[4] == 0x00000000 && words[5] == 0x00000000 && words[6] == 0x00000000 && words[7] == 0x00000000 &&
      words[8] == 0x00000000 && words[9] == 0x00000000 && words[10] == 0x00000000 && words[11] == 0x00000000 &&
      words[12] == 0x00000000 && words[13] == 0x00000000 && words[14] == 0x00000000 && words[15] == 0x00000240
    ensures Compress(Regs(0xCBC80C8C, 0xF599E2AC, 0xBDB8C832, 0xDA95C1C3, 0xF8683025), Schedule(words), 80) == Regs(0x3CC9CD32, 0x1421341B, 0x0AB965C1, 0x8E42A18D, 0x6E161979)
  {
    var w := Schedule(words);
    ScheduleIsSchedule(words);
    forall j | 0 <= j < 16
      ensures w[j] == words[j]
    {
      assert w[..16][j] == w[j];
    }
    Rfc0Inner1Schedule0(w);
    Rfc0Inner1Schedule1(w);
    Rfc0Inner1Schedule2(w);
    Rfc0Inner1Schedule3(w);
    Rfc0Inner1Rounds0(w);
    Rfc0Inner1Rounds1(w);
    Rfc0Inner1Rounds2(w);
    Rfc0Inner1Rounds3(w);
  }

  lemma Rfc0InnerDigest()
    ensures Sha1.Digest(InnerInput(RfcKey, CounterZero)) == [0x08, 0x91, 0xD9, 0xBE, 0x09, 0xBB, 0x16, 0xC7, 0xC8, 0x72, 0x2D, 0xF3, 0x68, 0xD8, 0x63, 0x50, 0x66, 0x7E, 0x49, 0x9E]
  {
    var p := Sha1.Pad(InnerInput(RfcKey, CounterZero));
    Rfc0InnerLength();
    Rfc0InnerBlock0(p);
    Rfc0InnerBlock1(p);
    var b := Split(p);
    ChainTwo(IV, b);
    Rfc0Inner0Compress(b[0].words);
    Rfc0Inner1Compress(b[1].words);
    assert Sha1.Chain(IV, b) == Regs(0x0891D9BE, 0x09BB16C7, 0xC8722DF3, 0x68D86350, 0x667E499E);
    Rfc0InnerOutput();
  }

  lemma Rfc0InnerOutput()
    ensures Serialize(Regs(0x0891D9BE, 0x09BB16C7, 0xC8722DF3, 0x68D86350, 0x667E499E)) == [0x08, 0x91, 0xD9, 0xBE, 0x09, 0xBB, 0x16, 0xC7, 0xC8, 0x72, 0x2D, 0xF3, 0x68, 0xD8, 0x63, 0x50, 0x66, 0x7E, 0x49, 0x9E]
  {
  }

  lemma Rfc0OuterInput0(d: seq<byte>)
    requires d == [0x08, 0x91, 0xD9, 0xBE, 0x09, 0xBB, 0x16, 0xC7, 0xC8, 0x72, 0x2D, 0xF3, 0x68, 0xD8, 0x63, 0x50, 0x66, 0x7E, 0x49, 0x9E]
    ensures |OuterInput(RfcKey, d)| == 84
    ensures var m := OuterInput(RfcKey, d);
      m[0] == 0x6D && m[1] == 0x6E && m[2] == 0x6F && m[3] == 0x68 &&
      m[4] == 0x69 && m[5] == 0x6A && m[6] == 0x6B && m[7] == 0x64 &&
      m[8] == 0x65 && m[9] == 0x6C && m[10] == 0x6D && m[11] == 0x6E &&
      m[12] == 0x6F && m[13] == 0x68 && m[14] == 0x69 && m[15] == 0x6A
  {
    var m := OuterInput(RfcKey, d);
    NormalizeKeyPrefix(RfcKey);
    var k := NormalizeKey(RfcKey);
    assert m[0] == k[0] ^ 0x5C;
    assert m[1] == k[1] ^ 0x5C;
    assert m[2] == k[2] ^ 0x5C;
    assert m[3] == k[3] ^ 0x5C;
    assert m[4] == k[4] ^ 0x5C;
    assert m[5] == k[5] ^ 0x5C;
    assert m[6] == k[6] ^ 0x5C;
    assert m[7] == k[7] ^ 0x5C;
    assert m[8] == k[8] ^ 0x5C;
    assert m[9] == k[9] ^ 0x5C;
    assert m[10] == k[10] ^ 0x5C;
    assert m[11] == k[11] ^ 0x5C;
    assert m[12] == k[12] ^ 0x5C;
    assert m[13] == k[13] ^ 0x5C;
    assert m[14] == k[14] ^ 0x5C;
    assert m[15] == k[15] ^ 0x5C;
  }

  lemma Rfc0OuterInput1(d: seq<byte>)
    requires d == [0x08, 0x91, 0xD9, 0xBE, 0x09, 0xBB, 0x16, 0xC7, 0xC8, 0x72, 0x2D, 0xF3, 0x68, 0xD8, 0x63, 0x50, 0x66, 0x7E, 0x49, 0x9E]
    ensures |OuterInput(RfcKey, d)| == 84
    ensures var m := OuterInput(RfcKey, d);
      m[16] == 0x6B && m[17] == 0x64 && m[18] == 0x65 && m[19] == 0x6C &&
      m[20] == 0x5C && m[21] == 0x5C && m[22] == 0x5C && m[23] == 0x5C &&
      m[24] == 0x5C && m[25] == 0x5C && m[26] == 0x5C && m[27] == 0x5C &&
      m[28] == 0x5C && m[29] == 0x5C && m[30] == 0x5C && m[31] == 0x5C
  {
    var m := OuterInput(RfcKey, d);
    NormalizeKeyPrefix(RfcKey);
    var k := NormalizeKey(RfcKey);
    assert m[16] == k[16] ^ 0x5C;
    assert m[17] == k[17] ^ 0x5C;
    assert m[18] == k[18] ^ 0x5C;
    assert m[19] == k[19] ^ 0x5C;
    assert m[20] == k[20] ^ 0x5C;
    assert m[21] == k[21] ^ 0x5C;
    assert m[22] == k[22] ^ 0x5C;
    assert m[23] == k[23] ^ 0x5C;
    assert m[24] == k[24] ^ 0x5C;
    assert m[25] == k[25] ^ 0x5C;
    assert m[26] == k[26] ^ 0x5C;
    assert m[27] == k[27] ^ 0x5C;
    assert m[28] == k[28] ^ 0x5C;
    assert m[29] == k[29] ^ 0x5C;
    assert m[30] == k[30] ^ 0x5C;
    assert m[31] == k[31] ^ 0x5C;
  }

  lemma Rfc0OuterInput2(d: seq<byte>)
    requires d == [0x08, 0x91, 0xD9, 0xBE, 0x09, 0xBB, 0x16, 0xC7, 0xC8, 0x72, 0x2D, 0xF3, 0x68, 0xD8, 0x63, 0x50, 0x66, 0x7E, 0x49, 0x9E]
    ensures |OuterInput(RfcKey, d)| == 84
    ensures var m := OuterInput(RfcKey, d);
      m[32] == 0x5C && m[33] == 0x5C && m[34] == 0x5C && m[35] == 0x5C &&
      m[36] == 0x5C && m[37] == 0x5C && m[38] == 0x5C && m[39] == 0x5C &&
      m[40] == 0x5C && m[41] == 0x5C && m[42] == 0x5C && m[43] == 0x5C &&
      m[44] == 0x5C && m[45] == 0x5C && m[46] == 0x5C && m[47] == 0x5C
  {
    var m := OuterInput(RfcKey, d);
    NormalizeKeyPrefix(RfcKey);
    var k := NormalizeKey(RfcKey);
    assert m[32] == k[32] ^ 0x5C;
    assert m[33] == k[33] ^ 0x5C;
    assert m[34] == k[34] ^ 0x5C;
    assert m[35] == k[35] ^ 0x5C;
    assert m[36] == k[36] ^ 0x5C;
    assert m[37] == k[37] ^ 0x5C;
    assert m[38] == k[38] ^ 0x5C;
    assert m[39] == k[39] ^ 0x5C;
    assert m[40] == k[40] ^ 0x5C;
    assert m[41] == k[41] ^ 0x5C;
    assert m[42] == k[42] ^ 0x5C;
    assert m[43] == k[43] ^ 0x5C;
    assert m[44] == k[44] ^ 0x5C;
    assert m[45] == k[45] ^ 0x5C;
    assert m[46] == k[46] ^ 0x5C;
    assert m[47] == k[47] ^ 0x5C;
  }

  lemma Rfc0OuterInput3(d: seq<byte>)
    requires d == [0x08, 0x91, 0xD9, 0xBE, 0x09, 0xBB, 0x16, 0xC7, 0xC8, 0x72, 0x2D, 0xF3, 0x68, 0xD8, 0x63, 0x50, 0x66, 0x7E, 0x49, 0x9E]
    ensures |OuterInput(RfcKey, d)| == 84
    ensures var m := OuterInput(RfcKey, d);
      m[48] == 0x5C && m[49] == 0x5C && m[50] == 0x5C && m[51] == 0x5C &&
      m[52] == 0x5C && m[53] == 0x5C && m[54] == 0x5C && m[55] == 0x5C &&
      m[56] == 0x5C && m[57] == 0x5C && m[58] == 0x5C && m[59] == 0x5C &&
      m[60] == 0x5C && m[61] == 0x5C && m[62] == 0x5C && m[63] == 0x5C
  {
    var m := OuterInput(RfcKey, d);
    NormalizeKeyPrefix(RfcKey);
    var k := NormalizeKey(RfcKey);
    assert m[48] == k[48] ^ 0x5C;
    assert m[49] == k[49] ^ 0x5C;
    assert m[50] == k[50] ^ 0x5C;
    assert m[51] == k[51] ^ 0x5C;
    assert m[52] == k[52] ^ 0x5C;
    assert m[53] == k[53] ^ 0x5C;
    assert m[54] == k[54] ^ 0x5C;
    assert m[55] == k[55] ^ 0x5C;
    assert m[56] == k[56] ^ 0x5C;
    assert m[57] == k[57] ^ 0x5C;
    assert m[58] == k[58] ^ 0x5C;
    assert m[59] == k[59] ^ 0x5C;
    assert m[60] == k[60] ^ 0x5C;
    assert m[61] == k[61] ^ 0x5C;
    assert m[62] == k[62] ^ 0x5C;
    assert m[63] == k[63] ^ 0x5C;
  }

  lemma Rfc0OuterInput4(d: seq<byte>)
    requires d == [0x08, 0x91, 0xD9, 0xBE, 0x09, 0xBB, 0x16, 0xC7, 0xC8, 0x72, 0x2D, 0xF3, 0x68, 0xD8, 0x63, 0x50, 0x66, 0x7E, 0x49, 0x9E]
    ensures |OuterInput(RfcKey, d)| == 84
    ensures var m := OuterInput(RfcKey, d);
      m[64] == 0x08 && m[65] == 0x91 && m[66] == 0xD9 && m[67] == 0xBE &&
      m[68] == 0x09 && m[69] == 0xBB && m[70] == 0x16 && m[71] == 0xC7 &&
      m[72] == 0xC8 && m[73] == 0x72 && m[74] == 0x2D && m[75] == 0xF3 &&
      m[76] == 0x68 && m[77] == 0xD8 && m[78] == 0x63 && m[79] == 0x50
  {
    var m := OuterInput(RfcKey, d);
    assert m[64] == m[64..][0];
    assert m[65] == m[64..][1];
    assert m[66] == m[64..][2];
    assert m[67] == m[64..][3];
    assert m[68] == m[64..][4];
    assert m[69] == m[64..][5];
    assert m[70] == m[64..][6];
    assert m[71] == m[64..][7];
    assert m[72] == m[64..][8];
    assert m[73] == m[64..][9];
    assert m[74] == m[64..][10];
    assert m[75] == m[64..][11];
    assert m[76] == m[64..][12];
    assert m[77] == m[64..][13];
    assert m[78] == m[64..][14];
    assert m[79] == m[64..][15];
  }

  lemma Rfc0OuterInput5(d: seq<byte>)
    requires d == [0x08, 0x91, 0xD9, 0xBE, 0x09, 0xBB, 0x16, 0xC7, 0xC8, 0x72, 0x2D, 0xF3, 0x68, 0xD8, 0x63, 0x50, 0x66, 0x7E, 0x49, 0x9E]
    ensures |OuterInput(RfcKey, d)| == 84
    ensures var m := OuterInput(RfcKey, d);
      m[80] == 0x66 && m[81] == 0x7E && m[82] == 0x49 && m[83] == 0x9E
  {
    var m := OuterInput(RfcKey, d);
    assert m[80] == m[64..][16];
    assert m[81] == m[64..][17];
    assert m[82] == m[64..][18];
    assert m[83] == m[64..][19];
  }

  lemma Rfc0OuterLength(d: seq<byte>)
    requires d == [0x08, 0x91, 0xD9, 0xBE, 0x09, 0xBB, 0x16, 0xC7, 0xC8, 0x72, 0x2D, 0xF3, 0x68, 0xD8, 0x63, 0x50, 0x66, 0x7E, 0x49, 0x9E]
    ensures |Sha1.Pad(OuterInput(RfcKey, d))| == 128
  {
    HmacInputLength(RfcKey, d);
  }

  lemma Rfc0OuterBytes0(p: seq<byte>, d: seq<byte>)
    requires p == Sha1.Pad(OuterInput(RfcKey, d)) && d == [0x08, 0x91, 0xD9, 0xBE, 0x09, 0xBB, 0x16, 0xC7, 0xC8, 0x72, 0x2D, 0xF3, 0x68, 0xD8, 0x63, 0x50, 0x66, 0x7E, 0x49, 0x9E]
    ensures |p| == 128
    ensures p[0] == 0x6D && p[1] == 0x6E && p[2] == 0x6F && p[3] == 0x68 &&
      p[4] == 0x69 && p[5] == 0x6A && p[6] == 0x6B && p[7] == 0x64 &&
      p[8] == 0x65 && p[9] == 0x6C && p[10] == 0x6D && p[11] == 0x6E &&
      p[12] == 0x6F && p[13] == 0x68 && p[14] == 0x69 && p[15] == 0x6A
  {
    var m := OuterInput(RfcKey, d);
    Rfc0OuterLength(d);
    Rfc0OuterInput0(d);
    Sha1.PadShape(m);
    assert p[0] == p[..84][0];
    assert p[1] == p[..84][1];
    assert p[2] == p[..84][2];
    assert p[3] == p[..84][3];
    assert p[4] == p[..84][4];
    assert p[5] == p[..84][5];
    assert p[6] == p[..84][6];
    assert p[7] == p[..84][7];
    assert p[8] == p[..84][8];
    assert p[9] == p[..84][9];
    assert p[10] == p[..84][10];
    assert p[11] == p[..84][11];
    assert p[12] == p[..84][12];
    assert p[13] == p[..84][13];
    assert p[14] == p[..84][14];
    assert p[15] == p[..84][15];
  }

  lemma Rfc0OuterBytes1(p: seq<byte>, d: seq<byte>)
    requires p == Sha1.Pad(OuterInput(RfcKey, d)) && d == [0x08, 0x91, 0xD9, 0xBE, 0x09, 0xBB, 0x16, 0xC7, 0xC8, 0x72, 0x2D, 0xF3, 0x68, 0xD8, 0x63, 0x50, 0x66, 0x7E, 0x49, 0x9E]
    ensures |p| == 128
    ensures p[16] == 0x6B && p[17] == 0x64 && p[18] == 0x65 && p[19] == 0x6C &&
      p[20] == 0x5C && p[21] == 0x5C && p[22] == 0x5C && p[23] == 0x5C &&
      p[24] == 0x5C && p[25] == 0x5C && p[26] == 0x5C && p[27] == 0x5C &&
      p[28] == 0x5C && p[29] == 0x5C && p[30] == 0x5C && p[31] == 0x5C
  {
    var m := OuterInput(RfcKey, d);
    Rfc0OuterLength(d);
    Rfc0OuterInput1(d);
    Sha1.PadShape(m);
    assert p[16] == p[..84][16];
    assert p[17] == p[..84][17];
    assert p[18] == p[..84][18];
    assert p[19] == p[..84][19];
    assert p[20] == p[..84][20];
    assert p[21] == p[..84][21];
    assert p[22] == p[..84][22];
    assert p[23] == p[..84][23];
    assert p[24] == p[..84][24];
    assert p[25] == p[..84][25];
    assert p[26] == p[..84][26];
    assert p[27] == p[..84][27];
    assert p[28] == p[..84][28];
    assert p[29] == p[..84][29];
    assert p[30] == p[..84][30];
    assert p[31] == p[..84][31];
  }

  lemma Rfc0OuterBytes2(p: seq<byte>, d: seq<byte>)
    requires p == Sha1.Pad(OuterInput(RfcKey, d)) && d == [0x08, 0x91, 0xD9, 0xBE, 0x09, 0xBB, 0x16, 0xC7, 0xC8, 0x72, 0x2D, 0xF3, 0x68, 0xD8, 0x63, 0x50, 0x66, 0x7E, 0x49, 0x9E]
    ensures |p| == 128
    ensures p[32] == 0x5C && p[33] == 0x5C && p[34] == 0x5C && p[35] == 0x5C &&
      p[36] == 0x5C && p[37] == 0x5C && p[38] == 0x5C && p[39] == 0x5C &&
      p[40] == 0x5C && p[41] == 0x5C && p[42] == 0x5C && p[43] == 0x5C &&
      p[44] == 0x5C && p[45] == 0x5C && p[46] == 0x5C && p[47] == 0x5C
  {
    var m := OuterInput(RfcKey, d);
    Rfc0OuterLength(d);
    Rfc0OuterInput2(d);
    Sha1.PadShape(m);
    assert p[32] == p[..84][32];
    assert p[33] == p[..84][33];
    assert p[34] == p[..84][34];
    assert p[35] == p[..84][35];
    assert p[36] == p[..84][36];
    assert p[37] == p[..84][37];
    assert p[38] == p[..84][38];
    assert p[39] == p[..84][39];
    assert p[40] == p[..84][40];
    assert p[41] == p[..84][41];
    assert p[42] == p[..84][42];
    assert p[43] == p[..84][43];
    assert p[44] == p[..84][44];
    assert p[45] == p[..84][45];
    assert p[46] == p[..84][46];
    assert p[47] == p[..84][47];
  }

  lemma Rfc0OuterBytes3(p: seq<byte>, d: seq<byte>)
    requires p == Sha1.Pad(OuterInput(RfcKey, d)) && d == [0x08, 0x91, 0xD9, 0xBE, 0x09, 0xBB, 0x16, 0xC7, 0xC8, 0x72, 0x2D, 0xF3, 0x68, 0xD8, 0x63, 0x50, 0x66, 0x7E, 0x49, 0x9E]
    ensures |p| == 128
    ensures p[48] == 0x5C && p[49] == 0x5C && p[50] == 0x5C && p[51] == 0x5C &&
      p[52] == 0x5C && p[53] == 0x5C && p[54] == 0x5C && p[55] == 0x5C &&
      p[56] == 0x5C && p[57] == 0x5C && p[58] == 0x5C && p[59] == 0x5C &&
      p[60] == 0x5C && p[61] == 0x5C && p[62] == 0x5C && p[63] == 0x5C
  {
    var m := OuterInput(RfcKey, d);
    Rfc0OuterLength(d);
    Rfc0OuterInput3(d);
    Sha1.PadShape(m);
    assert p[48] == p[..84][48];
    assert p[49] == p[..84][49];
    assert p[50] == p[..84][50];
    assert p[51] == p[..84][51];
    assert p[52] == p[..84][52];
    assert p[53] == p[..84][53];
    assert p[54] == p[..84][54];
    assert p[55] == p[..84][55];
    assert p[56] == p[..84][56];
    assert p[57] == p[..84][57];
    assert p[58] == p[..84][58];
    assert p[59] == p[..84][59];
    assert p[60] == p[..84][60];
    assert p[61] == p[..84][61];
    assert p[62] == p[..84][62];
    assert p[63] == p[..84][63];
  }

  lemma Rfc0OuterBytes4(p: seq<byte>, d: seq<byte>)
    requires p == Sha1.Pad(OuterInput(RfcKey, d)) && d == [0x08, 0x91, 0xD9, 0xBE, 0x09, 0xBB, 0x16, 0xC7, 0xC8, 0x72, 0x2D, 0xF3, 0x68, 0xD8, 0x63, 0x50, 0x66, 0x7E, 0x49, 0x9E]
    ensures |p| == 128
    ensures p[64] == 0x08 && p[65] == 0x91 && p[66] == 0xD9 && p[67] == 0xBE &&
      p[68] == 0x09 && p[69] == 0xBB && p[70] == 0x16 && p[71] == 0xC7 &&
      p[72] == 0xC8 && p[73] == 0x72 && p[74] == 0x2D && p[75] == 0xF3 &&
      p[76] == 0x68 && p[77] == 0xD8 && p[78] == 0x63 && p[79] == 0x50
  {
    var m := OuterInput(RfcKey, d);
    Rfc0OuterLength(d);
    Rfc0OuterInput4(d);
    Sha1.PadShape(m);
    assert p[64] == p[..84][64];
    assert p[65] == p[..84][65];
    assert p[66] == p[..84][66];
    assert p[67] == p[..84][67];
    assert p[68] == p[..84][68];
    assert p[69] == p[..84][69];
    assert p[70] == p[..84][70];
    assert p[71] == p[..84][71];
    assert p[72] == p[..84][72];
    assert p[73] == p[..84][73];
    assert p[74] == p[..84][74];
    assert p[75] == p[..84][75];
    assert p[76] == p[..84][76];
    assert p[77] == p[..84][77];
    assert p[78] == p[..84][78];
    assert p[79] == p[..84][79];
  }

  lemma Rfc0OuterBytes5(p: seq<byte>, d: seq<byte>)
    requires p == Sha1.Pad(OuterInput(RfcKey, d)) && d == [0x08, 0x91, 0xD9, 0xBE, 0x09, 0xBB, 0x16, 0xC7, 0xC8, 0x72, 0x2D, 0xF3, 0x68, 0xD8, 0x63, 0x50, 0x66, 0x7E, 0x49, 0x9E]
    ensures |p| == 128
    ensures p[80] == 0x66 && p[81] == 0x7E && p[82] == 0x49 && p[83] == 0x9E &&
      p[84] == 0x80 && p[85] == 0x00 && p[86] == 0x00 && p[87] == 0x00 &&
      p[88] == 0x00 && p[89] == 0x00 && p[90] == 0x00 && p[91] == 0x00 &&
      p[92] == 0x00 && p[93] == 0x00 && p[94] == 0x00 && p[95] == 0x00
  {
    var m := OuterInput(RfcKey, d);
    Rfc0OuterLength(d);
    Rfc0OuterInput5(d);
    Sha1.PadShape(m);
    assert p[80] == p[..84][80];
    assert p[81] == p[..84][81];
    assert p[82] == p[..84][82];
    assert p[83] == p[..84][83];
  }

  lemma Rfc0OuterBytes6(p: seq<byte>, d: seq<byte>)
    requires p == Sha1.Pad(OuterInput(RfcKey, d)) && d == [0x08, 0x91, 0xD9, 0xBE, 0x09, 0xBB, 0x16, 0xC7, 0xC8, 0x72, 0x2D, 0xF3, 0x68, 0xD8, 0x63, 0x50, 0x66, 0x7E, 0x49, 0x9E]
    ensures |p| == 128
    ensures p[96] == 0x00 && p[97] == 0x00 && p[98] == 0x00 && p[99] == 0x00 &&
      p[100] == 0x00 && p[101] == 0x00 && p[102] == 0x00 && p[103] == 0x00 &&
      p[104] == 0x00 && p[105] == 0x00 && p[106] == 0x00 && p[107] == 0x00 &&
      p[108] == 0x00 && p[109] == 0x00 && p[110] == 0x00 && p[111] == 0x00
  {
    var m := OuterInput(RfcKey, d);
    Rfc0OuterLength(d);
    Sha1.PadShape(m);
  }

  lemma Rfc0OuterBytes7(p: seq<byte>, d: seq<byte>)
    requires p == Sha1.Pad(OuterInput(RfcKey, d)) && d == [0x08, 0x91, 0xD9, 0xBE, 0x09, 0xBB, 0x16, 0xC7, 0xC8, 0x72, 0x2D, 0xF3, 0x68, 0xD8, 0x63, 0x50, 0x66, 0x7E, 0x49, 0x9E]
    ensures |p| == 128
    ensures p[112] == 0x00 && p[113] == 0x00 && p[114] == 0x00 && p[115] == 0x00 &&
      p[116] == 0x00 && p[117] == 0x00 && p[118] == 0x00 && p[119] == 0x00 &&
      p[120] == 0x00 && p[121] == 0x00 && p[122] == 0x00 && p[123] == 0x00 &&
      p[124] == 0x00 && p[125] == 0x00 && p[126] == 0x02 && p[127] == 0xA0
  {
    var m := OuterInput(RfcKey, d);
    Rfc0OuterLength(d);
    Sha1.PadShape(m);
    LengthField2A0();
    assert p[120] == p[120..][0];
    assert p[121] == p[120..][1];
    assert p[122] == p[120..][2];
    assert p[123] == p[120..][3];
    assert p[124] == p[120..][4];
    assert p[125] == p[120..][5];
    assert p[126] == p[120..][6];
    assert p[127] == p[120..][7];
  }

  lemma Rfc0OuterWords0(p: seq<byte>)
    requires |p| == 128
    requires p[0] == 0x6D && p[1] == 0x6E && p[2] == 0x6F && p[3] == 0x68 &&
      p[4] == 0x69 && p[5] == 0x6A && p[6] == 0x6B && p[7] == 0x64 &&
      p[8] == 0x65 && p[9] == 0x6C && p[10] == 0x6D && p[11] == 0x6E &&
      p[12] == 0x6F && p[13] == 0x68 && p[14] == 0x69 && p[15] == 0x6A
    ensures var b := Split(p)[0].words;
      b[0] == 0x6D6E6F68 && b[1] == 0x696A6B64 && b[2] == 0x656C6D6E && b[3] == 0x6F68696A
  {
    SplitWords(p, 0, 0);
    SplitWords(p, 0, 1);
    SplitWords(p, 0, 2);
    SplitWords(p, 0, 3);
  }

  lemma Rfc0OuterWords1(p: seq<byte>)
    requires |p| == 128
    requires p[16] == 0x6B && p[17] == 0x64 && p[18] == 0x65 && p[19] == 0x6C &&
      p[20] == 0x5C && p[21] == 0x5C && p[22] == 0x5C && p[23] == 0x5C &&
      p[24] == 0x5C && p[25] == 0x5C && p[26] == 0x5C && p[27] == 0x5C &&
      p[28] == 0x5C && p[29] == 0x5C && p[30] == 0x5C && p[31] == 0x5C
    ensures var b := Split(p)[0].words;
      b[4] == 0x6B64656C && b[5] == 0x5C5C5C5C && b[6] == 0x5C5C5C5C && b[7] == 0x5C5C5C5C
  {
    SplitWords(p, 0, 4);
    SplitWords(p, 0, 5);
    SplitWords(p, 0, 6);
    SplitWords(p, 0, 7);
  }

  lemma Rfc0OuterWords2(p: seq<byte>)
    requires |p| == 128
    requires p[32] == 0x5C && p[33] == 0x5C && p[34] == 0x5C && p[35] == 0x5C &&
      p[36] == 0x5C && p[37] == 0x5C && p[38] == 0x5C && p[39] == 0x5C &&
      p[40] == 0x5C && p[41] == 0x5C && p[42] == 0x5C && p[43] == 0x5C &&
      p[44] == 0x5C && p[45] == 0x5C && p[46] == 0x5C && p[47] == 0x5C
    ensures var b := Split(p)[0].words;
      b[8] == 0x5C5C5C5C && b[9] == 0x5C5C5C5C && b[10] == 0x5C5C5C5C && b[11] == 0x5C5C5C5C
  {
    SplitWords(p, 0, 8);
    SplitWords(p, 0, 9);
    SplitWords(p, 0, 10);
    SplitWords(p, 0, 11);
  }

  lemma Rfc0OuterWords3(p: seq<byte>)
    requires |p| == 128
    requires p[48] == 0x5C && p[49] == 0x5C && p[50] == 0x5C && p[51] == 0x5C &&
      p[52] == 0x5C && p[53] == 0x5C && p[54] == 0x5C && p[55] == 0x5C &&
      p[56] == 0x5C && p[57] == 0x5C && p[58] == 0x5C && p[59] == 0x5C &&
      p[60] == 0x5C && p[61] == 0x5C && p[62] == 0x5C && p[63] == 0x5C
    ensures var b := Split(p)[0].words;
      b[12] == 0x5C5C5C5C && b[13] == 0x5C5C5C5C && b[14] == 0x5C5C5C5C && b[15] == 0x5C5C5C5C
  {
    SplitWords(p, 0, 12);
    SplitWords(p, 0, 13);
    SplitWords(p, 0, 14);
    SplitWords(p, 0, 15);
  }

  lemma Rfc0OuterWords4(p: seq<byte>)
    requires |p| == 128
    requires p[64] == 0x08 && p[65] == 0x91 && p[66] == 0xD9 && p[67] == 0xBE &&
      p[68] == 0x09 && p[69] == 0xBB && p[70] == 0x16 && p[71] == 0xC7 &&
      p[72] == 0xC8 && p[73] == 0x72 && p[74] == 0x2D && p[75] == 0xF3 &&
      p[76] == 0x68 && p[77] == 0xD8 && p[78] == 0x63 && p[79] == 0x50
    ensures var b := Split(p)[1].words;
      b[0] == 0x0891D9BE && b[1] == 0x09BB16C7 && b[2] == 0xC8722DF3 && b[3] == 0x68D86350
  {
    SplitWords(p, 1, 0);
    SplitWords(p, 1, 1);
    SplitWords(p, 1, 2);
    SplitWords(p, 1, 3);
  }

  lemma Rfc0OuterWords5(p: seq<byte>)
    requires |p| == 128
    requires p[80] == 0x66 && p[81] == 0x7E && p[82] == 0x49 && p[83] == 0x9E &&
      p[84] == 0x80 && p[85] == 0x00 && p[86] == 0x00 && p[87] == 0x00 &&
      p[88] == 0x00 && p[89] == 0x00 && p[90] == 0x00 && p[91] == 0x00 &&
      p[92] == 0x00 && p[93] == 0x00 && p[94] == 0x00 && p[95] == 0x00
    ensures var b := Split(p)[1].words;
      b[4] == 0x667E499E && b[5] == 0x80000000 && b[6] == 0x00000000 && b[7] == 0x00000000
  {
    SplitWords(p, 1, 4);
    SplitWords(p, 1, 5);
    SplitWords(p, 1, 6);
    SplitWords(p, 1, 7);
  }

  lemma Rfc0OuterWords6(p: seq<byte>)
    requires |p| == 128
    requires p[96] == 0x00 && p[97] == 0x00 && p[98] == 0x00 && p[99] == 0x00 &&
      p[100] == 0x00 && p[101] == 0x00 && p[102] == 0x00 && p[103] == 0x00 &&
      p[104] == 0x00 && p[105] == 0x00 && p[106] == 0x00 && p[107] == 0x00 &&
      p[108] == 0x00 && p[109] == 0x00 && p[110] == 0x00 && p[111] == 0x00
    ensures var b := Split(p)[1].words;
      b[8] == 0x00000000 && b[9] == 0x00000000 && b[10] == 0x00000000 && b[11] == 0x00000000
  {
    SplitWords(p, 1, 8);
    SplitWords(p, 1, 9);
    SplitWords(p, 1, 10);
    SplitWords(p, 1, 11);
  }

  lemma Rfc0OuterWords7(p: seq<byte>)
    requires |p| == 128
    requires p[112] == 0x00 && p[113] == 0x00 && p[114] == 0x00 && p[115] == 0x00 &&
      p[116] == 0x00 && p[117] == 0x00 && p[118] == 0x00 && p[119] == 0x00 &&
      p[120] == 0x00 && p[121] == 0x00 && p[122] == 0x00 && p[123] == 0x00 &&
      p[124] == 0x00 && p[125] == 0x00 && p[126] == 0x02 && p[127] == 0xA0
    ensures var b := Split(p)[1].words;
      b[12] == 0x00000000 && b[13] == 0x00000000 && b[14] == 0x00000000 && b[15] == 0x000002A0
  {
    SplitWords(p, 1, 12);
    SplitWords(p, 1, 13);
    SplitWords(p, 1, 14);
    SplitWords(p, 1, 15);
  }

  lemma Rfc0OuterBlock0(p: seq<byte>, d: seq<byte>)
    requires p == Sha1.Pad(OuterInput(RfcKey, d)) && d == [0x08, 0x91, 0xD9, 0xBE, 0x09, 0xBB, 0x16, 0xC7, 0xC8, 0x72, 0x2D, 0xF3, 0x68, 0xD8, 0x63, 0x50, 0x66, 0x7E, 0x49, 0x9E]
    requires |p| == 128
    ensures var b := Split(p)[0].words;
      b[0] == 0x6D6E6F68 && b[1] == 0x696A6B64 && b[2] == 0x656C6D6E && b[3] == 0x6F68696A &&
      b[4] == 0x6B64656C && b[5] == 0x5C5C5C5C && b[6] == 0x5C5C5C5C && b[7] == 0x5C5C5C5C &&
      b[8] == 0x5C5C5C5C && b[9] == 0x5C5C5C5C && b[10] == 0x5C5C5C5C && b[11] == 0x5C5C5C5C &&
      b[12] == 0x5C5C5C5C && b[13] == 0x5C5C5C5C && b[14] == 0x5C5C5C5C && b[15] == 0x5C5C5C5C
  {
    Rfc0OuterBytes0(p, d);
    Rfc0OuterWords0(p);
    Rfc0OuterBytes1(p, d);
    Rfc0OuterWords1(p);
    Rfc0OuterBytes2(p, d);
    Rfc0OuterWords2(p);
    Rfc0OuterBytes3(p, d);
    Rfc0OuterWords3(p);
  }

  lemma Rfc0OuterBlock1(p: seq<byte>, d: seq<byte>)
    requires p == Sha1.Pad(OuterInput(RfcKey, d)) && d == [0x08, 0x91, 0xD9, 0xBE, 0x09, 0xBB, 0x16, 0xC7, 0xC8, 0x72, 0x2D, 0xF3, 0x68, 0xD8, 0x63, 0x50, 0x66, 0x7E, 0x49, 0x9E]
    requires |p| == 128
    ensures var b := Split(p)[1].words;
      b[0] == 0x0891D9BE && b[1] == 0x09BB16C7 && b[2] == 0xC8722DF3 && b[3] == 0x68D86350 &&
      b[4] == 0x667E499E && b[5] == 0x80000000 && b[6] == 0x00000000 && b[7] == 0x00000000 &&
      b[8] == 0x00000000 && b[9] == 0x00000000 && b[10] == 0x00000000 && b[11] == 0x00000000 &&
      b[12] == 0x00000000 && b[13] == 0x00000000 && b[14] == 0x00000000 && b[15] == 0x000002A0
  {
    Rfc0OuterBytes4(p, d);
    Rfc0OuterWords4(p);
    Rfc0OuterBytes5(p, d);
    Rfc0OuterWords5(p);
    Rfc0OuterBytes6(p, d);
    Rfc0OuterWords6(p);
    Rfc0OuterBytes7(p, d);
    Rfc0OuterWords7(p);
  }

  lemma Rfc0Outer0Schedule0(w: seq<word>)
    requires |w| == 80 && forall i :: 16 <= i < 80 ==> Follows(w, i)
    requires w[0] == 0x6D6E6F68 && w[1] == 0x696A6B64 && w[2] == 0x656C6D6E && w[3] == 0x6F68696A &&
      w[4] == 0x6B64656C && w[5] == 0x5C5C5C5C && w[6] == 0x5C5C5C5C && w[7] == 0x5C5C5C5C &&
      w[8] == 0x5C5C5C5C && w[9] == 0x5C5C5C5C && w[10] == 0x5C5C5C5C && w[11] == 0x5C5C5C5C &&
      w[12] == 0x5C5C5C5C && w[13] == 0x5C5C5C5C && w[14] == 0x5C5C5C5C && w[15] == 0x5C5C5C5C
    ensures w[16] == 0x1004040C && w[17] == 0x0C04041C && w[18] == 0x1C101004 && w[19] == 0xFED8DACC &&
      w[20] == 0xCEC0C2E0 && w[21] == 0x809898B0 && w[22] == 0x45090D21 && w[23] == 0x25393D79 &&
      w[24] == 0x21393979 && w[25] == 0x921A127A && w[26] == 0x72525AFA && w[27] == 0xBFC3C76B &&
      w[28] == 0xB9B5A134 && w[29] == 0xE5958495 && w[30] == 0x6D252435 && w[31] == 0x99A9881B
  {
    assert Follows(w, 16);
    assert Follows(w, 17);
    assert Follows(w, 18);
    assert Follows(w, 19);
    assert Follows(w, 20);
    assert Follows(w, 21);
    assert Follows(w, 22);
    assert Follows(w, 23);
    assert Follows(w, 24);
    assert Follows(w, 25);
    assert Follows(w, 26);
    assert Follows(w, 27);
    assert Follows(w, 28);
    assert Follows(w, 29);
    assert Follows(w, 30);
    assert Follows(w, 31);
  }

  lemma Rfc0Outer0Schedule1(w: seq<word>)
    requires |w| == 80 && forall i :: 16 <= i < 80 ==> Follows(w, i)
    requires w[16] == 0x1004040C && w[17] == 0x0C04041C && w[18] == 0x1C101004 && w[19] == 0xFED8DACC &&
      w[20] == 0xCEC0C2E0 && w[21] == 0x809898B0 && w[22] == 0x45090D21 && w[23] == 0x25393D79 &&
      w[24] == 0x21393979 && w[25] == 0x921A127A && w[26] == 0x72525AFA && w[27] == 0xBFC3C76B &&
      w[28] == 0xB9B5A134 && w[29] == 0xE5958495 && w[30] == 0x6D252435 && w[31] == 0x99A9881B
    ensures w[32] == 0x917153C9 && w[33] == 0x1BC7D13E && w[34] == 0x7256000A && w[35] == 0xA1E5ADBC &&
      w[36] == 0x53777F96 && w[37] == 0x64C442AC && w[38] == 0x51E17BA3 && w[39] == 0xFBFBB11C &&
      w[40] == 0x4DBCE5CD && w[41] == 0xCFFEFF18 && w[42] == 0x849495B0 && w[43] == 0x6C1E171F &&
      w[44] == 0x90320B1E && w[45] == 0x38D9B725 && w[46] == 0x83563681 && w[47] == 0xD34FC64F
  {
    assert Follows(w, 32);
    assert Follows(w, 33);
    assert Follows(w, 34);
    assert Follows(w, 35);
    assert Follows(w, 36);
    assert Follows(w, 37);
    assert Follows(w, 38);
    assert Follows(w, 39);
    assert Follows(w, 40);
    assert Follows(w, 41);
    assert Follows(w, 42);
    assert Follows(w, 43);
    assert Follows(w, 44);
    assert Follows(w, 45);
    assert Follows(w, 46);
    assert Follows(w, 47);
  }

  lemma Rfc0Outer0Schedule2(w: seq<word>)
    requires |w| == 80 && forall i :: 16 <= i < 80 ==> Follows(w, i)
    requires w[32] == 0x917153C9 && w[33] == 0x1BC7D13E && w[34] == 0x7256000A && w[35] == 0xA1E5ADBC &&
      w[36] == 0x53777F96 && w[37] == 0x64C442AC && w[38] == 0x51E17BA3 && w[39] == 0xFBFBB11C &&
      w[40] == 0x4DBCE5CD && w[41] == 0xCFFEFF18 && w[42] == 0x849495B0 && w[43] == 0x6C1E171F &&
      w[44] == 0x90320B1E && w[45] == 0x38D9B725 && w[46] == 0x83563681 && w[47] == 0xD34FC64F
    ensures w[48] == 0x2C840257 && w[49] == 0xED156A37 && w[50] == 0xEDF458C6 && w[51] == 0x0B77F4B1 &&
      w[52] == 0xFF62CA38 && w[53] == 0x942438A6 && w[54] == 0x28F8B8BD && w[55] == 0x305084E6 &&
      w[56] == 0xE3109518 && w[57] == 0xCC1A751A && w[58] == 0x9204851D && w[59] == 0x79418327 &&
      w[60] == 0x4039057A && w[61] == 0xDB6D99A3 && w[62] == 0xFCD61E99 && w[63] == 0x9C665BC8
  {
    assert Follows(w, 48);
    assert Follows(w, 49);
    assert Follows(w, 50);
    assert Follows(w, 51);
    assert Follows(w, 52);
    assert Follows(w, 53);
    assert Follows(w, 54);
    assert Follows(w, 55);
    assert Follows(w, 56);
    assert Follows(w, 57);
    assert Follows(w, 58);
    assert Follows(w, 59);
    assert Follows(w, 60);
    assert Follows(w, 61);
    assert Follows(w, 62);
    assert Follows(w, 63);
  }

  lemma Rfc0Outer0Schedule3(w: seq<word>)
    requires |w| == 80 && forall i :: 16 <= i < 80 ==> Follows(w, i)
    requires w[48] == 0x2C840257 && w[49] == 0xED156A37 && w[50] == 0xEDF458C6 && w[51] == 0x0B77F4B1 &&
      w[52] == 0xFF62CA38 && w[53] == 0x942438A6 && w[54] == 0x28F8B8BD && w[55] == 0x305084E6 &&
      w[56] == 0xE3109518 && w[57] == 0xCC1A751A && w[58] == 0x9204851D && w[59] == 0x79418327 &&
      w[60] == 0x4039057A && w[61] == 0xDB6D99A3 && w[62] == 0xFCD61E99 && w[63] == 0x9C665BC8
    ensures w[64] == 0xF21AAC55 && w[65] == 0xAD5DEA0B && w[66] == 0x39E89856 && w[67] == 0x2811C6CA &&
      w[68] == 0x75FD3BE8 && w[69] == 0x8DE37B6A && w[70] == 0x3E5FEBEC && w[71] == 0x2BA323B8 &&
      w[72] == 0x1DDB8E74 && w[73] == 0x4CB3EFB4 && w[74] == 0x80EC7713 && w[75] == 0x2FCCA475 &&
      w[76] == 0x0B439F7F && w[77] == 0x94099C24 && w[78] == 0x3EBFFAAA && w[79] == 0x23B61A08
  {
    assert Follows(w, 64);
    assert Follows(w, 65);
    assert Follows(w, 66);
    assert Follows(w, 67);
    assert Follows(w, 68);
    assert Follows(w, 69);
    assert Follows(w, 70);
    assert Follows(w, 71);
    assert Follows(w, 72);
    assert Follows(w, 73);
    assert Follows(w, 74);
    assert Follows(w, 75);
    assert Follows(w, 76);
    assert Follows(w, 77);
    assert Follows(w, 78);
    assert Follows(w, 79);
  }

  lemma Rfc0Outer0Rounds0(w: seq<word>)
    requires |w| == 80
    requires w[0] == 0x6D6E6F68 && w[1] == 0x696A6B64 && w[2] == 0x656C6D6E && w[3] == 0x6F68696A &&
      w[4] == 0x6B64656C && w[5] == 0x5C5C5C5C && w[6] == 0x5C5C5C5C && w[7] == 0x5C5C5C5C &&
      w[8] == 0x5C5C5C5C && w[9] == 0x5C5C5C5C && w[10] == 0x5C5C5C5C && w[11] == 0x5C5C5C5C &&
      w[12] == 0x5C5C5C5C && w[13] == 0x5C5C5C5C && w[14] == 0x5C5C5C5C && w[15] == 0x5C5C5C5C &&
      w[16] == 0x1004040C && w[17] == 0x0C04041C && w[18] == 0x1C101004 && w[19] == 0xFED8DACC
    requires Compress(IV, w, 0) == Regs(0x67452301, 0xEFCDAB89, 0x98BADCFE, 0x10325476, 0xC3D2E1F0)
    ensures Compress(IV, w, 20) == Regs(0xE391130D, 0xBF92A45C, 0xD985BBBC, 0x440CF792, 0x58046195)
  {
    assert Round(Regs(0x67452301, 0xEFCDAB89, 0x98BADCFE, 0x10325476, 0xC3D2E1F0), 0x6D6E6F68, 0) == Regs(0x0D23081B, 0x67452301, 0x7BF36AE2, 0x98BADCFE, 0x10325476);
    assert Compress(IV, w, 1) == Regs(0x0D23081B, 0x67452301, 0x7BF36AE2, 0x98BADCFE, 0x10325476);
    assert Round(Regs(0x0D23081B, 0x67452301, 0x7BF36AE2, 0x98BADCFE, 0x10325476), 0x696A6B64, 1) == Regs(0x747C3BD2, 0x0D23081B, 0x59D148C0, 0x7BF36AE2, 0x98BADCFE);
    assert Compress(IV, w, 2) == Regs(0x747C3BD2, 0x0D23081B, 0x59D148C0, 0x7BF36AE2, 0x98BADCFE);
    assert Round(Regs(0x747C3BD2, 0x0D23081B, 0x59D148C0, 0x7BF36AE2, 0x98BADCFE), 0x656C6D6E, 2) == Regs(0x6402A933, 0x747C3BD2, 0xC348C206, 0x59D148C0, 0x7BF36AE2);
    assert Compress(IV, w, 3) == Regs(0x6402A933, 0x747C3BD2, 0xC348C206, 0x59D148C0, 0x7BF36AE2);
    assert Round(Regs(0x6402A933, 0x747C3BD2, 0xC348C206, 0x59D148C0, 0x7BF36AE2), 0x6F68696A, 3) == Regs(0x0FFCB653, 0x6402A933, 0x9D1F0EF4, 0xC348C206, 0x59D148C0);
    assert Compress(IV, w, 4) == Regs(0x0FFCB653, 0x6402A933, 0x9D1F0EF4, 0xC348C206, 0x59D148C0);
    assert Round(Regs(0x0FFCB653, 0x6402A933, 0x9D1F0EF4, 0xC348C206, 0x59D148C0), 0x6B64656C, 4) == Regs(0xA6993C5A, 0x0FFCB653, 0xD900AA4C, 0x9D1F0EF4, 0xC348C206);
    assert Compress(IV, w, 5) == Regs(0xA6993C5A, 0x0FFCB653, 0xD900AA4C, 0x9D1F0EF4, 0xC348C206);
    assert Round(Regs(0xA6993C5A, 0x0FFCB653, 0xD900AA4C, 0x9D1F0EF4, 0xC348C206), 0x5C5C5C5C, 5) == Regs(0xE652CE33, 0xA6993C5A, 0xC3FF2D94, 0xD900AA4C, 0x9D1F0EF4);
    assert Compress(IV, w, 6) == Regs(0xE652CE33, 0xA6993C5A, 0xC3FF2D94, 0xD900AA4C, 0x9D1F0EF4);
    assert Round(Regs(0xE652CE33, 0xA6993C5A, 0xC3FF2D94, 0xD900AA4C, 0x9D1F0EF4), 0x5C5C5C5C, 6) == Regs(0xF9F15979, 0xE652CE33, 0xA9A64F16, 0xC3FF2D94, 0xD900AA4C);
    assert Compress(IV, w, 7) == Regs(0xF9F15979, 0xE652CE33, 0xA9A64F16, 0xC3FF2D94, 0xD900AA4C);
    assert Round(Regs(0xF9F15979, 0xE652CE33, 0xA9A64F16, 0xC3FF2D94, 0xD900AA4C), 0x5C5C5C5C, 7) == Regs(0x6FBA1F16, 0xF9F15979, 0xF994B38C, 0xA9A64F16, 0xC3FF2D94);
    assert Compress(IV, w, 8) == Regs(0x6FBA1F16, 0xF9F15979, 0xF994B38C, 0xA9A64F16, 0xC3FF2D94);
    assert Round(Regs(0x6FBA1F16, 0xF9F15979, 0xF994B38C, 0xA9A64F16, 0xC3FF2D94), 0x5C5C5C5C, 8) == Regs(0x6BB7FD64, 0x6FBA1F16, 0x7E7C565E, 0xF994B38C, 0xA9A64F16);
    assert Compress(IV, w, 9) == Regs(0x6BB7FD64, 0x6FBA1F16, 0x7E7C565E, 0xF994B38C, 0xA9A64F16);
    assert Round(Regs(0x6BB7FD64, 0x6FBA1F16, 0x7E7C565E, 0xF994B38C, 0xA9A64F16), 0x5C5C5C5C, 9) == Regs(0xD5C18836, 0x6BB7FD64, 0x9BEE87C5, 0x7E7C565E, 0xF994B38C);
    assert Compress(IV, w, 10) == Regs(0xD5C18836, 0x6BB7FD64, 0x9BEE87C5, 0x7E7C565E, 0xF994B38C);
    assert Round(Regs(0xD5C18836, 0x6BB7FD64, 0x9BEE87C5, 0x7E7C565E, 0xF994B38C), 0x5C5C5C5C, 10) == Regs(0x889317B9, 0xD5C18836, 0x1AEDFF59, 0x9BEE87C5, 0x7E7C565E);
    assert Compress(IV, w, 11) == Regs(0x889317B9, 0xD5C18836, 0x1AEDFF59, 0x9BEE87C5, 0x7E7C565E);
    assert Round(Regs(0x889317B9, 0xD5C18836, 0x1AEDFF59, 0x9BEE87C5, 0x7E7C565E), 0x5C5C5C5C, 11) == Regs(0x62ADB355, 0x889317B9, 0xB570620D, 0x1AEDFF59, 0x9BEE87C5);
    assert Compress(IV, w, 12) == Regs(0x62ADB355, 0x889317B9, 0xB570620D, 0x1AEDFF59, 0x9BEE87C5);
    assert Round(Regs(0x62ADB355, 0x889317B9, 0xB570620D, 0x1AEDFF59, 0x9BEE87C5), 0x5C5C5C5C, 12) == Regs(0x3B00B2AF, 0x62ADB355, 0x6224C5EE, 0xB570620D, 0x1AEDFF59);
    assert Compress(IV, w, 13) == Regs(0x3B00B2AF, 0x62ADB355, 0x6224C5EE, 0xB570620D, 0x1AEDFF59);
    assert Round(Regs(0x3B00B2AF, 0x62ADB355, 0x6224C5EE, 0xB570620D, 0x1AEDFF59), 0x5C5C5C5C, 13) == Regs(0x2957EC81, 0x3B00B2AF, 0x58AB6CD5, 0x6224C5EE, 0xB570620D);
    assert Compress(IV, w, 14) == Regs(0x2957EC81, 0x3B00B2AF, 0x58AB6CD5, 0x6224C5EE, 0xB570620D);
    assert Round(Regs(0x2957EC81, 0x3B00B2AF, 0x58AB6CD5, 0x6224C5EE, 0xB570620D), 0x5C5C5C5C, 14) == Regs(0xEF712DEC, 0x2957EC81, 0xCEC02CAB, 0x58AB6CD5, 0x6224C5EE);
    assert Compress(IV, w, 15) == Regs(0xEF712DEC, 0x2957EC81, 0xCEC02CAB, 0x58AB6CD5, 0x6224C5EE);
    assert Round(Regs(0xEF712DEC, 0x2957EC81, 0xCEC02CAB, 0x58AB6CD5, 0x6224C5EE), 0x5C5C5C5C, 15) == Regs(0x60118655, 0xEF712DEC, 0x4A55FB20, 0xCEC02CAB, 0x58AB6CD5);
    assert Compress(IV, w, 16) == Regs(0x60118655, 0xEF712DEC, 0x4A55FB20, 0xCEC02CAB, 0x58AB6CD5);
    assert Round(Regs(0x60118655, 0xEF712DEC, 0x4A55FB20, 0xCEC02CAB, 0x58AB6CD5), 0x1004040C, 16) == Regs(0x1033DE49, 0x60118655, 0x3BDC4B7B, 0x4A55FB20, 0xCEC02CAB);
    assert Compress(IV, w, 17) == Regs(0x1033DE49, 0x60118655, 0x3BDC4B7B, 0x4A55FB20, 0xCEC02CAB);
    assert Round(Regs(0x1033DE49, 0x60118655, 0x3BDC4B7B, 0x4A55FB20, 0xCEC02CAB), 0x0C04041C, 17) == Regs(0x6616EEF3, 0x1033DE49, 0x58046195, 0x3BDC4B7B, 0x4A55FB20);
    assert Compress(IV, w, 18) == Regs(0x6616EEF3, 0x1033DE49, 0x58046195, 0x3BDC4B7B, 0x4A55FB20);
    assert Round(Regs(0x6616EEF3, 0x1033DE49, 0x58046195, 0x3BDC4B7B, 0x4A55FB20), 0x1C101004, 18) == Regs(0xBF92A45C, 0x6616EEF3, 0x440CF792, 0x58046195, 0x3BDC4B7B);
    assert Compress(IV, w, 19) == Regs(0xBF92A45C, 0x6616EEF3, 0x440CF792, 0x58046195, 0x3BDC4B7B);
    assert Round(Regs(0xBF92A45C, 0x6616EEF3, 0x440CF792, 0x58046195, 0x3BDC4B7B), 0xFED8DACC, 19) == Regs(0xE391130D, 0xBF92A45C, 0xD985BBBC, 0x440CF792, 0x58046195);
    assert Compress(IV, w, 20) == Regs(0xE391130D, 0xBF92A45C, 0xD985BBBC, 0x440CF792, 0x58046195);
  }

  lemma Rfc0Outer0Rounds1(w: seq<word>)
    requires |w| == 80
    requires w[20] == 0xCEC0C2E0 && w[21] == 0x809898B0 && w[22] == 0x45090D21 && w[23] == 0x25393D79 &&
      w[24] == 0x21393979 && w[25] == 0x921A127A && w[26] == 0x72525AFA && w[27] == 0xBFC3C76B &&
      w[28] == 0xB9B5A134 && w[29] == 0xE5958495 && w[30] == 0x6D252435 && w[31] == 0x99A9881B &&
      w[32] == 0x917153C9 && w[33] == 0x1BC7D13E && w[34] == 0x7256000A && w[35] == 0xA1E5ADBC &&
      w[36] == 0x53777F96 && w[37] == 0x64C442AC && w[38] == 0x51E17BA3 && w[39] == 0xFBFBB11C
    requires Compress(IV, w, 20) == Regs(0xE391130D, 0xBF92A45C, 0xD985BBBC, 0x440CF792, 0x58046195)
    ensures Compress(IV, w, 40) == Regs(0x1100B3EC, 0xFD16397C, 0xBE236441, 0x71D3058E, 0xF18D8687)
  {
    assert Round(Regs(0xE391130D, 0xBF92A45C, 0xD985BBBC, 0x440CF792, 0x58046195), 0xCEC0C2E0, 20) == Regs(0x29DD5A44, 0xE391130D, 0x2FE4A917, 0xD985BBBC, 0x440CF792);
    assert Compress(IV, w, 21) == Regs(0x29DD5A44, 0xE391130D, 0x2FE4A917, 0xD985BBBC, 0x440CF792);
    assert Round(Regs(0x29DD5A44, 0xE391130D, 0x2FE4A917, 0xD985BBBC, 0x440CF792), 0x809898B0, 21) == Regs(0x851AC60E, 0x29DD5A44, 0x78E444C3, 0x2FE4A917, 0xD985BBBC);
    assert Compress(IV, w, 22) == Regs(0x851AC60E, 0x29DD5A44, 0x78E444C3, 0x2FE4A917, 0xD985BBBC);
    assert Round(Regs(0x851AC60E, 0x29DD5A44, 0x78E444C3, 0x2FE4A917, 0xD985BBBC), 0x45090D21, 22) == Regs(0xAF9F2DDE, 0x851AC60E, 0x0A775691, 0x78E444C3, 0x2FE4A917);
    assert Compress(IV, w, 23) == Regs(0xAF9F2DDE, 0x851AC60E, 0x0A775691, 0x78E444C3, 0x2FE4A917);
    assert Round(Regs(0xAF9F2DDE, 0x851AC60E, 0x0A775691, 0x78E444C3, 0x2FE4A917), 0x25393D79, 23) == Regs(0xAF676262, 0xAF9F2DDE, 0xA146B183, 0x0A775691, 0x78E444C3);
    assert Compress(IV, w, 24) == Regs(0xAF676262, 0xAF9F2DDE, 0xA146B183, 0x0A775691, 0x78E444C3);
    assert Round(Regs(0xAF676262, 0xAF9F2DDE, 0xA146B183, 0x0A775691, 0x78E444C3), 0x21393979, 24) == Regs(0xFA9280FE, 0xAF676262, 0xABE7CB77, 0xA146B183, 0x0A775691);
    assert Compress(IV, w, 25) == Regs(0xFA9280FE, 0xAF676262, 0xABE7CB77, 0xA146B183, 0x0A775691);
    assert Round(Regs(0xFA9280FE, 0xAF676262, 0xABE7CB77, 0xA146B183, 0x0A775691), 0x921A127A, 25) == Regs(0x03818D21, 0xFA9280FE, 0xABD9D898, 0xABE7CB77, 0xA146B183);
    assert Compress(IV, w, 26) == Regs(0x03818D21, 0xFA9280FE, 0xABD9D898, 0xABE7CB77, 0xA146B183);
    assert Round(Regs(0x03818D21, 0xFA9280FE, 0xABD9D898, 0xABE7CB77, 0xA146B183), 0x72525AFA, 26) == Regs(0xED512F4F, 0x03818D21, 0xBEA4A03F, 0xABD9D898, 0xABE7CB77);
    assert Compress(IV, w, 27) == Regs(0xED512F4F, 0x03818D21, 0xBEA4A03F, 0xABD9D898, 0xABE7CB77);
    assert Round(Regs(0xED512F4F, 0x03818D21, 0xBEA4A03F, 0xABD9D898, 0xABE7CB77), 0xBFC3C76B, 27) == Regs(0x9BA85E06, 0xED512F4F, 0x40E06348, 0xBEA4A03F, 0xABD9D898);
    assert Compress(IV, w, 28) == Regs(0x9BA85E06, 0xED512F4F, 0x40E06348, 0xBEA4A03F, 0xABD9D898);
    assert Round(Regs(0x9BA85E06, 0xED512F4F, 0x40E06348, 0xBEA4A03F, 0xABD9D898), 0xB9B5A134, 28) == Regs(0x5C8B1278, 0x9BA85E06, 0xFB544BD3, 0x40E06348, 0xBEA4A03F);
    assert Compress(IV, w, 29) == Regs(0x5C8B1278, 0x9BA85E06, 0xFB544BD3, 0x40E06348, 0xBEA4A03F);
    assert Round(Regs(0x5C8B1278, 0x9BA85E06, 0xFB544BD3, 0x40E06348, 0xBEA4A03F), 0xE5958495, 29) == Regs(0xC492D61D, 0x5C8B1278, 0xA6EA1781, 0xFB544BD3, 0x40E06348);
    assert Compress(IV, w, 30) == Regs(0xC492D61D, 0x5C8B1278, 0xA6EA1781, 0xFB544BD3, 0x40E06348);
    assert Round(Regs(0xC492D61D, 0x5C8B1278, 0xA6EA1781, 0xFB544BD3, 0x40E06348), 0x6D252435, 30) == Regs(0xB06F8500, 0xC492D61D, 0x1722C49E, 0xA6EA1781, 0xFB544BD3);
    assert Compress(IV, w, 31) == Regs(0xB06F8500, 0xC492D61D, 0x1722C49E, 0xA6EA1781, 0xFB544BD3);
    assert Round(Regs(0xB06F8500, 0xC492D61D, 0x1722C49E, 0xA6EA1781, 0xFB544BD3), 0x99A9881B, 31) == Regs(0x872264A7, 0xB06F8500, 0x7124B587, 0x1722C49E, 0xA6EA1781);
    assert Compress(IV, w, 32) == Regs(0x872264A7, 0xB06F8500, 0x7124B587, 0x1722C49E, 0xA6EA1781);
    assert Round(Regs(0x872264A7, 0xB06F8500, 0x7124B587, 0x1722C49E, 0xA6EA1781), 0x917153C9, 32) == Regs(0x61EBDFF4, 0x872264A7, 0x2C1BE140, 0x7124B587, 0x1722C49E);
    assert Compress(IV, w, 33) == Regs(0x61EBDFF4, 0x872264A7, 0x2C1BE140, 0x7124B587, 0x1722C49E);
    assert Round(Regs(0x61EBDFF4, 0x872264A7, 0x2C1BE140, 0x7124B587, 0x1722C49E), 0x1BC7D13E, 33) == Regs(0xB95DB069, 0x61EBDFF4, 0xE1C89929, 0x2C1BE140, 0x7124B587);
    assert Compress(IV, w, 34) == Regs(0xB95DB069, 0x61EBDFF4, 0xE1C89929, 0x2C1BE140, 0x7124B587);
    assert Round(Regs(0xB95DB069, 0x61EBDFF4, 0xE1C89929, 0x2C1BE140, 0x7124B587), 0x7256000A, 34) == Regs(0x2A435606, 0xB95DB069, 0x187AF7FD, 0xE1C89929, 0x2C1BE140);
    assert Compress(IV, w, 35) == Regs(0x2A435606, 0xB95DB069, 0x187AF7FD, 0xE1C89929, 0x2C1BE140);
    assert Round(Regs(0x2A435606, 0xB95DB069, 0x187AF7FD, 0xE1C89929, 0x2C1BE140), 0xA1E5ADBC, 35) == Regs(0xC6361A1F, 0x2A435606, 0x6E576C1A, 0x187AF7FD, 0xE1C89929);
    assert Compress(IV, w, 36) == Regs(0xC6361A1F, 0x2A435606, 0x6E576C1A, 0x187AF7FD, 0xE1C89929);
    assert Round(Regs(0xC6361A1F, 0x2A435606, 0x6E576C1A, 0x187AF7FD, 0xE1C89929), 0x53777F96, 36) == Regs(0xC74C1639, 0xC6361A1F, 0x8A90D581, 0x6E576C1A, 0x187AF7FD);
    assert Compress(IV, w, 37) == Regs(0xC74C1639, 0xC6361A1F, 0x8A90D581, 0x6E576C1A, 0x187AF7FD);
    assert Round(Regs(0xC74C1639, 0xC6361A1F, 0x8A90D581, 0x6E576C1A, 0x187AF7FD), 0x64C442AC, 37) == Regs(0xF88D9106, 0xC74C1639, 0xF18D8687, 0x8A90D581, 0x6E576C1A);
    assert Compress(IV, w, 38) == Regs(0xF88D9106, 0xC74C1639, 0xF18D8687, 0x8A90D581, 0x6E576C1A);
    assert Round(Regs(0xF88D9106, 0xC74C1639, 0xF18D8687, 0x8A90D581, 0x6E576C1A), 0x51E17BA3, 38) == Regs(0xFD16397C, 0xF88D9106, 0x71D3058E, 0xF18D8687, 0x8A90D581);
    assert Compress(IV, w, 39) == Regs(0xFD16397C, 0xF88D9106, 0x71D3058E, 0xF18D8687, 0x8A90D581);
    assert Round(Regs(0xFD16397C, 0xF88D9106, 0x71D3058E, 0xF18D8687, 0x8A90D581), 0xFBFBB11C, 39) == Regs(0x1100B3EC, 0xFD16397C, 0xBE236441, 0x71D3058E, 0xF18D8687);
    assert Compress(IV, w, 40) == Regs(0x1100B3EC, 0xFD16397C, 0xBE236441, 0x71D3058E, 0xF18D8687);
  }

  lemma Rfc0Outer0Rounds2(w: seq<word>)
    requires |w| == 80
    requires w[40] == 0x4DBCE5CD && w[41] == 0xCFFEFF18 && w[42] == 0x849495B0 && w[43] == 0x6C1E171F &&
      w[44] == 0x90320B1E && w[45] == 0x38D9B725 && w[46] == 0x83563681 && w[47] == 0xD34FC64F &&
      w[48] == 0x2C840257 && w[49] == 0xED156A37 && w[50] == 0xEDF458C6 && w[51] == 0x0B77F4B1 &&
      w[52] == 0xFF62CA38 && w[53] == 0x942438A6 && w[54] == 0x28F8B8BD && w[55] == 0x305084E6 &&
      w[56] == 0xE3109518 && w[57] == 0xCC1A751A && w[58] == 0x9204851D && w[59] == 0x79418327
    requires Compress(IV, w, 40) == Regs(0x1100B3EC, 0xFD16397C, 0xBE236441, 0x71D3058E, 0xF18D8687)
    ensures Compress(IV, w, 60) == Regs(0x181F6F18, 0x77F8D026, 0x8EFE08BB, 0xF180D7DA, 0x5578CCEF)
  {
    assert Round(Regs(0x1100B3EC, 0xFD16397C, 0xBE236441, 0x71D3058E, 0xF18D8687), 0x4DBCE5CD, 40) == Regs(0xEB8FCBFE, 0x1100B3EC, 0x3F458E5F, 0xBE236441, 0x71D3058E);
    assert Compress(IV, w, 41) == Regs(0xEB8FCBFE, 0x1100B3EC, 0x3F458E5F, 0xBE236441, 0x71D3058E);
    assert Round(Regs(0xEB8FCBFE, 0x1100B3EC, 0x3F458E5F, 0xBE236441, 0x71D3058E), 0xCFFEFF18, 41) == Regs(0x81E8E7AC, 0xEB8FCBFE, 0x04402CFB, 0x3F458E5F, 0xBE236441);
    assert Compress(IV, w, 42) == Regs(0x81E8E7AC, 0xEB8FCBFE, 0x04402CFB, 0x3F458E5F, 0xBE236441);
    assert Round(Regs(0x81E8E7AC, 0xEB8FCBFE, 0x04402CFB, 0x3F458E5F, 0xBE236441), 0x849495B0, 42) == Regs(0x3E363B5C, 0x81E8E7AC, 0xBAE3F2FF, 0x04402CFB, 0x3F458E5F);
    assert Compress(IV, w, 43) == Regs(0x3E363B5C, 0x81E8E7AC, 0xBAE3F2FF, 0x04402CFB, 0x3F458E5F);
    assert Round(Regs(0x3E363B5C, 0x81E8E7AC, 0xBAE3F2FF, 0x04402CFB, 0x3F458E5F), 0x6C1E171F, 43) == Regs(0x8227B4E0, 0x3E363B5C, 0x207A39EB, 0xBAE3F2FF, 0x04402CFB);
    assert Compress(IV, w, 44) == Regs(0x8227B4E0, 0x3E363B5C, 0x207A39EB, 0xBAE3F2FF, 0x04402CFB);
    assert Round(Regs(0x8227B4E0, 0x3E363B5C, 0x207A39EB, 0xBAE3F2FF, 0x04402CFB), 0x90320B1E, 44) == Regs(0xA2F6CD04, 0x8227B4E0, 0x0F8D8ED7, 0x207A39EB, 0xBAE3F2FF);
    assert Compress(IV, w, 45) == Regs(0xA2F6CD04, 0x8227B4E0, 0x0F8D8ED7, 0x207A39EB, 0xBAE3F2FF);
    assert Round(Regs(0xA2F6CD04, 0x8227B4E0, 0x0F8D8ED7, 0x207A39EB, 0xBAE3F2FF), 0x38D9B725, 45) == Regs(0xE3E2C477, 0xA2F6CD04, 0x2089ED38, 0x0F8D8ED7, 0x207A39EB);
    assert Compress(IV, w, 46) == Regs(0xE3E2C477, 0xA2F6CD04, 0x2089ED38, 0x0F8D8ED7, 0x207A39EB);
    assert Round(Regs(0xE3E2C477, 0xA2F6CD04, 0x2089ED38, 0x0F8D8ED7, 0x207A39EB), 0x83563681, 46) == Regs(0xD1D28958, 0xE3E2C477, 0x28BDB341, 0x2089ED38, 0x0F8D8ED7);
    assert Compress(IV, w, 47) == Regs(0xD1D28958, 0xE3E2C477, 0x28BDB341, 0x2089ED38, 0x0F8D8ED7);
    assert Round(Regs(0xD1D28958, 0xE3E2C477, 0x28BDB341, 0x2089ED38, 0x0F8D8ED7), 0xD34FC64F, 47) == Regs(0xCCF4228D, 0xD1D28958, 0xF8F8B11D, 0x28BDB341, 0x2089ED38);
    assert Compress(IV, w, 48) == Regs(0xCCF4228D, 0xD1D28958, 0xF8F8B11D, 0x28BDB341, 0x2089ED38);
    assert Round(Regs(0xCCF4228D, 0xD1D28958, 0xF8F8B11D, 0x28BDB341, 0x2089ED38), 0x2C840257, 48) == Regs(0x73A6AF7D, 0xCCF4228D, 0x3474A256, 0xF8F8B11D, 0x28BDB341);
    assert Compress(IV, w, 49) == Regs(0x73A6AF7D, 0xCCF4228D, 0x3474A256, 0xF8F8B11D, 0x28BDB341);
    assert Round(Regs(0x73A6AF7D, 0xCCF4228D, 0x3474A256, 0xF8F8B11D, 0x28BDB341), 0xED156A37, 49) == Regs(0x16B96C1F, 0x73A6AF7D, 0x733D08A3, 0x3474A256, 0xF8F8B11D);
    assert Compress(IV, w, 50) == Regs(0x16B96C1F, 0x73A6AF7D, 0x733D08A3, 0x3474A256, 0xF8F8B11D);
    assert Round(Regs(0x16B96C1F, 0x73A6AF7D, 0x733D08A3, 0x3474A256, 0xF8F8B11D), 0xEDF458C6, 50) == Regs(0xC06AF518, 0x16B96C1F, 0x5CE9ABDF, 0x733D08A3, 0x3474A256);
    assert Compress(IV, w, 51) == Regs(0xC06AF518, 0x16B96C1F, 0x5CE9ABDF, 0x733D08A3, 0x3474A256);
    assert Round(Regs(0xC06AF518, 0x16B96C1F, 0x5CE9ABDF, 0x733D08A3, 0x3474A256), 0x0B77F4B1, 51) == Regs(0x33201F9A, 0xC06AF518, 0xC5AE5B07, 0x5CE9ABDF, 0x733D08A3);
    assert Compress(IV, w, 52) == Regs(0x33201F9A, 0xC06AF518, 0xC5AE5B07, 0x5CE9ABDF, 0x733D08A3);
    assert Round(Regs(0x33201F9A, 0xC06AF518, 0xC5AE5B07, 0x5CE9ABDF, 0x733D08A3), 0xFF62CA38, 52) == Regs(0x2AAA7E1C, 0x33201F9A, 0x301ABD46, 0xC5AE5B07, 0x5CE9ABDF);
    assert Compress(IV, w, 53) == Regs(0x2AAA7E1C, 0x33201F9A, 0x301ABD46, 0xC5AE5B07, 0x5CE9ABDF);
    assert Round(Regs(0x2AAA7E1C, 0x33201F9A, 0x301ABD46, 0xC5AE5B07, 0x5CE9ABDF), 0x942438A6, 53) == Regs(0x06A383EC, 0x2AAA7E1C, 0x8CC807E6, 0x301ABD46, 0xC5AE5B07);
    assert Compress(IV, w, 54) == Regs(0x06A383EC, 0x2AAA7E1C, 0x8CC807E6, 0x301ABD46, 0xC5AE5B07);
    assert Round(Regs(0x06A383EC, 0x2AAA7E1C, 0x8CC807E6, 0x301ABD46, 0xC5AE5B07), 0x28F8B8BD, 54) == Regs(0x7ABD8D66, 0x06A383EC, 0x0AAA9F87, 0x8CC807E6, 0x301ABD46);
    assert Compress(IV, w, 55) == Regs(0x7ABD8D66, 0x06A383EC, 0x0AAA9F87, 0x8CC807E6, 0x301ABD46);
    assert Round(Regs(0x7ABD8D66, 0x06A383EC, 0x0AAA9F87, 0x8CC807E6, 0x301ABD46), 0x305084E6, 55) == Regs(0x55E333BD, 0x7ABD8D66, 0x01A8E0FB, 0x0AAA9F87, 0x8CC807E6);
    assert Compress(IV, w, 56) == Regs(0x55E333BD, 0x7ABD8D66, 0x01A8E0FB, 0x0AAA9F87, 0x8CC807E6);
    assert Round(Regs(0x55E333BD, 0x7ABD8D66, 0x01A8E0FB, 0x0AAA9F87, 0x8CC807E6), 0xE3109518, 56) == Regs(0xC6035F6B, 0x55E333BD, 0x9EAF6359, 0x01A8E0FB, 0x0AAA9F87);
    assert Compress(IV, w, 57) == Regs(0xC6035F6B, 0x55E333BD, 0x9EAF6359, 0x01A8E0FB, 0x0AAA9F87);
    assert Round(Regs(0xC6035F6B, 0x55E333BD, 0x9EAF6359, 0x01A8E0FB, 0x0AAA9F87), 0xCC1A751A, 57) == Regs(0x3BF822EE, 0xC6035F6B, 0x5578CCEF, 0x9EAF6359, 0x01A8E0FB);
    assert Compress(IV, w, 58) == Regs(0x3BF822EE, 0xC6035F6B, 0x5578CCEF, 0x9EAF6359, 0x01A8E0FB);
    assert Round(Regs(0x3BF822EE, 0xC6035F6B, 0x5578CCEF, 0x9EAF6359, 0x01A8E0FB), 0x9204851D, 58) == Regs(0x77F8D026, 0x3BF822EE, 0xF180D7DA, 0x5578CCEF, 0x9EAF6359);
    assert Compress(IV, w, 59) == Regs(0x77F8D026, 0x3BF822EE, 0xF180D7DA, 0x5578CCEF, 0x9EAF6359);
    assert Round(Regs(0x77F8D026, 0x3BF822EE, 0xF180D7DA, 0x5578CCEF, 0x9EAF6359), 0x79418327, 59) == Regs(0x181F6F18, 0x77F8D026, 0x8EFE08BB, 0xF180D7DA, 0x5578CCEF);
    assert Compress(IV, w, 60) == Regs(0x181F6F18, 0x77F8D026, 0x8EFE08BB, 0xF180D7DA, 0x5578CCEF);
  }

  lemma Rfc0Outer0Rounds3(w: seq<word>)
    requires |w| == 80
    requires w[60] == 0x4039057A && w[61] == 0xDB6D99A3 && w[62] == 0xFCD61E99 && w[63] == 0x9C665BC8 &&
      w[64] == 0xF21AAC55 && w[65] == 0xAD5DEA0B && w[66] == 0x39E89856 && w[67] == 0x2811C6CA &&
      w[68] == 0x75FD3BE8 && w[69] == 0x8DE37B6A && w[70] == 0x3E5FEBEC && w[71] == 0x2BA323B8 &&
      w[72] == 0x1DDB8E74 && w[73] == 0x4CB3EFB4 && w[74] == 0x80EC7713 && w[75] == 0x2FCCA475 &&
      w[76] == 0x0B439F7F && w[77] == 0x94099C24 && w[78] == 0x3EBFFAAA && w[79] == 0x23B61A08
    requires Compress(IV, w, 60) == Regs(0x181F6F18, 0x77F8D026, 0x8EFE08BB, 0xF180D7DA, 0x5578CCEF)
    ensures Compress(IV, w, 80) == Regs(0x31789ACC, 0x6912D075, 0x14A200EC, 0x2A8DEE95, 0x3A3D8635)
  {
    assert Round(Regs(0x181F6F18, 0x77F8D026, 0x8EFE08BB, 0xF180D7DA, 0x5578CCEF), 0x4039057A, 60) == Regs(0x6C888689, 0x181F6F18, 0x9DFE3409, 0x8EFE08BB, 0xF180D7DA);
    assert Compress(IV, w, 61) == Regs(0x6C888689, 0x181F6F18, 0x9DFE3409, 0x8EFE08BB, 0xF180D7DA);
    assert Round(Regs(0x6C888689, 0x181F6F18, 0x9DFE3409, 0x8EFE08BB, 0xF180D7DA), 0xDB6D99A3, 61) == Regs(0x3381582A, 0x6C888689, 0x0607DBC6, 0x9DFE3409, 0x8EFE08BB);
    assert Compress(IV, w, 62) == Regs(0x3381582A, 0x6C888689, 0x0607DBC6, 0x9DFE3409, 0x8EFE08BB);
    assert Round(Regs(0x3381582A, 0x6C888689, 0x0607DBC6, 0x9DFE3409, 0x8EFE08BB), 0xFCD61E99, 62) == Regs(0xBDD357B6, 0x3381582A, 0x5B2221A2, 0x0607DBC6, 0x9DFE3409);
    assert Compress(IV, w, 63) == Regs(0xBDD357B6, 0x3381582A, 0x5B2221A2, 0x0607DBC6, 0x9DFE3409);
    assert Round(Regs(0xBDD357B6, 0x3381582A, 0x5B2221A2, 0x0607DBC6, 0x9DFE3409), 0x9C665BC8, 63) == Regs(0x2DD6EACC, 0xBDD357B6, 0x8CE0560A, 0x5B2221A2, 0x0607DBC6);
    assert Compress(IV, w, 64) == Regs(0x2DD6EACC, 0xBDD357B6, 0x8CE0560A, 0x5B2221A2, 0x0607DBC6);
    assert Round(Regs(0x2DD6EACC, 0xBDD357B6, 0x8CE0560A, 0x5B2221A2, 0x0607DBC6), 0xF21AAC55, 64) == Regs(0xE773C394, 0x2DD6EACC, 0xAF74D5ED, 0x8CE0560A, 0x5B2221A2);
    assert Compress(IV, w, 65) == Regs(0xE773C394, 0x2DD6EACC, 0xAF74D5ED, 0x8CE0560A, 0x5B2221A2);
    assert Round(Regs(0xE773C394, 0x2DD6EACC, 0xAF74D5ED, 0x8CE0560A, 0x5B2221A2), 0xAD5DEA0B, 65) == Regs(0xCF9DA94A, 0xE773C394, 0x0B75BAB3, 0xAF74D5ED, 0x8CE0560A);
    assert Compress(IV, w, 66) == Regs(0xCF9DA94A, 0xE773C394, 0x0B75BAB3, 0xAF74D5ED, 0x8CE0560A);
    assert Round(Regs(0xCF9DA94A, 0xE773C394, 0x0B75BAB3, 0xAF74D5ED, 0x8CE0560A), 0x39E89856, 66) == Regs(0xC8538659, 0xCF9DA94A, 0x39DCF0E5, 0x0B75BAB3, 0xAF74D5ED);
    assert Compress(IV, w, 67) == Regs(0xC8538659, 0xCF9DA94A, 0x39DCF0E5, 0x0B75BAB3, 0xAF74D5ED);
    assert Round(Regs(0xC8538659, 0xCF9DA94A, 0x39DCF0E5, 0x0B75BAB3, 0xAF74D5ED), 0x2811C6CA, 67) == Regs(0xA98F0CE2, 0xC8538659, 0xB3E76A52, 0x39DCF0E5, 0x0B75BAB3);
    assert Compress(IV, w, 68) == Regs(0xA98F0CE2, 0xC8538659, 0xB3E76A52, 0x39DCF0E5, 0x0B75BAB3);
    assert Round(Regs(0xA98F0CE2, 0xC8538659, 0xB3E76A52, 0x39DCF0E5, 0x0B75BAB3), 0x75FD3BE8, 68) == Regs(0xC01F71B4, 0xA98F0CE2, 0x7214E196, 0xB3E76A52, 0x39DCF0E5);
    assert Compress(IV, w, 69) == Regs(0xC01F71B4, 0xA98F0CE2, 0x7214E196, 0xB3E76A52, 0x39DCF0E5);
    assert Round(Regs(0xC01F71B4, 0xA98F0CE2, 0x7214E196, 0xB3E76A52, 0x39DCF0E5), 0x8DE37B6A, 69) == Regs(0xFE8DEBE3, 0xC01F71B4, 0xAA63C338, 0x7214E196, 0xB3E76A52);
    assert Compress(IV, w, 70) == Regs(0xFE8DEBE3, 0xC01F71B4, 0xAA63C338, 0x7214E196, 0xB3E76A52);
    assert Round(Regs(0xFE8DEBE3, 0xC01F71B4, 0xAA63C338, 0x7214E196, 0xB3E76A52), 0x3E5FEBEC, 70) == Regs(0xA6CFE7AD, 0xFE8DEBE3, 0x3007DC6D, 0xAA63C338, 0x7214E196);
    assert Compress(IV, w, 71) == Regs(0xA6CFE7AD, 0xFE8DEBE3, 0x3007DC6D, 0xAA63C338, 0x7214E196);
    assert Round(Regs(0xA6CFE7AD, 0xFE8DEBE3, 0x3007DC6D, 0xAA63C338, 0x7214E196), 0x2BA323B8, 71) == Regs(0xA701B18E, 0xA6CFE7AD, 0xFFA37AF8, 0x3007DC6D, 0xAA63C338);
    assert Compress(IV, w, 72) == Regs(0xA701B18E, 0xA6CFE7AD, 0xFFA37AF8, 0x3007DC6D, 0xAA63C338);
    assert Round(Regs(0xA701B18E, 0xA6CFE7AD, 0xFFA37AF8, 0x3007DC6D, 0xAA63C338), 0x1DDB8E74, 72) == Regs(0xDC43868E, 0xA701B18E, 0x69B3F9EB, 0xFFA37AF8, 0x3007DC6D);
    assert Compress(IV, w, 73) == Regs(0xDC43868E, 0xA701B18E, 0x69B3F9EB, 0xFFA37AF8, 0x3007DC6D);
    assert Round(Regs(0xDC43868E, 0xA701B18E, 0x69B3F9EB, 0xFFA37AF8, 0x3007DC6D), 0x4CB3EFB4, 73) == Regs(0x00A0926F, 0xDC43868E, 0xA9C06C63, 0x69B3F9EB, 0xFFA37AF8);
    assert Compress(IV, w, 74) == Regs(0x00A0926F, 0xDC43868E, 0xA9C06C63, 0x69B3F9EB, 0xFFA37AF8);
    assert Round(Regs(0x00A0926F, 0xDC43868E, 0xA9C06C63, 0x69B3F9EB, 0xFFA37AF8), 0x80EC7713, 74) == Regs(0x7B3514C7, 0x00A0926F, 0xB710E1A3, 0xA9C06C63, 0x69B3F9EB);
    assert Compress(IV, w, 75) == Regs(0x7B3514C7, 0x00A0926F, 0xB710E1A3, 0xA9C06C63, 0x69B3F9EB);
    assert Round(Regs(0x7B3514C7, 0x00A0926F, 0xB710E1A3, 0xA9C06C63, 0x69B3F9EB), 0x2FCCA475, 75) == Regs(0xE8F618D4, 0x7B3514C7, 0xC028249B, 0xB710E1A3, 0xA9C06C63);
    assert Compress(IV, w, 76) == Regs(0xE8F618D4, 0x7B3514C7, 0xC028249B, 0xB710E1A3, 0xA9C06C63);
    assert Round(Regs(0xE8F618D4, 0x7B3514C7, 0xC028249B, 0xB710E1A3, 0xA9C06C63), 0x0B439F7F, 76) == Regs(0xAA37BA54, 0xE8F618D4, 0xDECD4531, 0xC028249B, 0xB710E1A3);
    assert Compress(IV, w, 77) == Regs(0xAA37BA54, 0xE8F618D4, 0xDECD4531, 0xC028249B, 0xB710E1A3);
    assert Round(Regs(0xAA37BA54, 0xE8F618D4, 0xDECD4531, 0xC028249B, 0xB710E1A3), 0x94099C24, 77) == Regs(0x528803B0, 0xAA37BA54, 0x3A3D8635, 0xDECD4531, 0xC028249B);
    assert Compress(IV, w, 78) == Regs(0x528803B0, 0xAA37BA54, 0x3A3D8635, 0xDECD4531, 0xC028249B);
    assert Round(Regs(0x528803B0, 0xAA37BA54, 0x3A3D8635, 0xDECD4531, 0xC028249B), 0x3EBFFAAA, 78) == Regs(0x6912D075, 0x528803B0, 0x2A8DEE95, 0x3A3D8635, 0xDECD4531);
    assert Compress(IV, w, 79) == Regs(0x6912D075, 0x528803B0, 0x2A8DEE95, 0x3A3D8635, 0xDECD4531);
    assert Round(Regs(0x6912D075, 0x528803B0, 0x2A8DEE95, 0x3A3D8635, 0xDECD4531), 0x23B61A08, 79) == Regs(0x31789ACC, 0x6912D075, 0x14A200EC, 0x2A8DEE95, 0x3A3D8635);
    assert Compress(IV, w, 80) == Regs(0x31789ACC, 0x6912D075, 0x14A200EC, 0x2A8DEE95, 0x3A3D8635);
  }

  lemma Rfc0Outer0Compress(words: seq<word>)
    requires |words| == 16
    requires words[0] == 0x6D6E6F68 && words[1] == 0x696A6B64 && words[2] == 0x656C6D6E && words[3] == 0x6F68696A &&
      words[4] == 0x6B64656C && words[5] == 0x5C5C5C5C && words[6] == 0x5C5C5C5C && words[7] == 0x5C5C5C5C &&
      words[8] == 0x5C5C5C5C && words[9] == 0x5C5C5C5C && words[10] == 0x5C5C5C5C && words[11] == 0x5C5C5C5C &&
      words[12] == 0x5C5C5C5C && words[13] == 0x5C5C5C5C && words[14] == 0x5C5C5C5C && words[15] == 0x5C5C5C5C
    ensures Compress(IV, Schedule(words), 80) == Regs(0x31789ACC, 0x6912D075, 0x14A200EC, 0x2A8DEE95, 0x3A3D8635)
  {
    var w := Schedule(words);
    ScheduleIsSchedule(words);
    forall j | 0 <= j < 16
      ensures w[j] == words[j]
    {
      assert w[..16][j] == w[j];
    }
    Rfc0Outer0Schedule0(w);
    Rfc0Outer0Schedule1(w);
    Rfc0Outer0Schedule2(w);
    Rfc0Outer0Schedule3(w);
    Rfc0Outer0Rounds0(w);
    Rfc0Outer0Rounds1(w);
    Rfc0Outer0Rounds2(w);
    Rfc0Outer0Rounds3(w);
  }

  lemma Rfc0Outer1Schedule0(w: seq<word>)
    requires |w| == 80 && forall i :: 16 <= i < 80 ==> Follows(w, i)
    requires w[0] == 0x0891D9BE && w[1] == 0x09BB16C7 && w[2] == 0xC8722DF3 && w[3] == 0x68D86350 &&
      w[4] == 0x667E499E && w[5] == 0x80000000 && w[6] == 0x00000000 && w[7] == 0x00000000 &&
      w[8] == 0x00000000 && w[9] == 0x00000000 && w[10] == 0x00000000 && w[11] == 0x00000000 &&
      w[12] == 0x00000000 && w[13] == 0x00000000 && w[14] == 0x00000000 && w[15] == 0x000002A0
    ensures w[16] == 0x81C7E89B && w[17] == 0xC2C6EB2E && w[18] == 0x5C18CD9B && w[19] == 0xD23F1796 &&
      w[20] == 0x49714561 && w[21] == 0xB8319B37 && w[22] == 0xA47E2F2D && w[23] == 0x92E28F82 &&
      w[24] == 0x73ECE758 && w[25] == 0xCD718806 && w[26] == 0x9DF48433 && w[27] == 0x43A7E19D &&
      w[28] == 0x08019ACF && w[29] == 0x4B8A3B48 && w[30] == 0xCC3C4C56 && w[31] == 0xB04BF986
  {
    assert Follows(w, 16);
    assert Follows(w, 17);
    assert Follows(w, 18);
    assert Follows(w, 19);
    assert Follows(w, 20);
    assert Follows(w, 21);
    assert Follows(w, 22);
    assert Follows(w, 23);
    assert Follows(w, 24);
    assert Follows(w, 25);
    assert Follows(w, 26);
    assert Follows(w, 27);
    assert Follows(w, 28);
    assert Follows(w, 29);
    assert Follows(w, 30);
    assert Follows(w, 31);
  }

  lemma Rfc0Outer1Schedule1(w: seq<word>)
    requires |w| == 80 && forall i :: 16 <= i < 80 ==> Follows(w, i)
    requires w[16] == 0x81C7E89B && w[17] == 0xC2C6EB2E && w[18] == 0x5C18CD9B && w[19] == 0xD23F1796 &&
      w[20] == 0x49714561 && w[21] == 0xB8319B37 && w[22] == 0xA47E2F2D && w[23] == 0x92E28F82 &&
      w[24] == 0x73ECE758 && w[25] == 0xCD718806 && w[26] == 0x9DF48433 && w[27] == 0x43A7E19D &&
      w[28] == 0x08019ACF && w[29] == 0x4B8A3B48 && w[30] == 0xCC3C4C56 && w[31] == 0xB04BF986
    ensures w[32] == 0xCB73F221 && w[33] == 0x236871D0 && w[34] == 0x71ADEA9E && w[35] == 0xC5B53E3B &&
      w[36] == 0x8CCD02A7 && w[37] == 0x21E98AC6 && w[38] == 0xBC377431 && w[39] == 0xC62BF94A &&
      w[40] == 0x09043718 && w[41] == 0x2312D8F4 && w[42] == 0x44E61A50 && w[43] == 0x8939A7ED &&
      w[44] == 0xD7C41994 && w[45] == 0x3D9CA4B1 && w[46] == 0x6482DB56 && w[47] == 0x0598D111
  {
    assert Follows(w, 32);
    assert Follows(w, 33);
    assert Follows(w, 34);
    assert Follows(w, 35);
    assert Follows(w, 36);
    assert Follows(w, 37);
    assert Follows(w, 38);
    assert Follows(w, 39);
    assert Follows(w, 40);
    assert Follows(w, 41);
    assert Follows(w, 42);
    assert Follows(w, 43);
    assert Follows(w, 44);
    assert Follows(w, 45);
    assert Follows(w, 46);
    assert Follows(w, 47);
  }

  lemma Rfc0Outer1Schedule2(w: seq<word>)
    requires |w| == 80 && forall i :: 16 <= i < 80 ==> Follows(w, i)
    requires w[32] == 0xCB73F221 && w[33] == 0x236871D0 && w[34] == 0x71ADEA9E && w[35] == 0xC5B53E3B &&
      w[36] == 0x8CCD02A7 && w[37] == 0x21E98AC6 && w[38] == 0xBC377431 && w[39] == 0xC62BF94A &&
      w[40] == 0x09043718 && w[41] == 0x2312D8F4 && w[42] == 0x44E61A50 && w[43] == 0x8939A7ED &&
      w[44] == 0xD7C41994 && w[45] == 0x3D9CA4B1 && w[46] == 0x6482DB56 && w[47] == 0x0598D111
    ensures w[48] == 0x1C8D162D && w[49] == 0x429A9893 && w[50] == 0x783C46F1 && w[51] == 0xE3D00A7A &&
      w[52] == 0x4B49EF23 && w[53] == 0x44C52399 && w[54] == 0x64C3240A && w[55] == 0x57D03F19 &&
      w[56] == 0x2B5431F8 && w[57] == 0x18E58701 && w[58] == 0x799CF459 && w[59] == 0xF84271BC &&
      w[60] == 0xC1D555C1 && w[61] == 0x0ABB44C0 && w[62] == 0xC91D319B && w[63] == 0xA20E46B5
  {
    assert Follows(w, 48);
    assert Follows(w, 49);
    assert Follows(w, 50);
    assert Follows(w, 51);
    assert Follows(w, 52);
    assert Follows(w, 53);
    assert Follows(w, 54);
    assert Follows(w, 55);
    assert Follows(w, 56);
    assert Follows(w, 57);
    assert Follows(w, 58);
    assert Follows(w, 59);
    assert Follows(w, 60);
    assert Follows(w, 61);
    assert Follows(w, 62);
    assert Follows(w, 63);
  }

  lemma Rfc0Outer1Schedule3(w: seq<word>)
    requires |w| == 80 && forall i :: 16 <= i < 80 ==> Follows(w, i)
    requires w[48] == 0x1C8D162D && w[49] == 0x429A9893 && w[50] == 0x783C46F1 && w[51] == 0xE3D00A7A &&
      w[52] == 0x4B49EF23 && w[53] == 0x44C52399 && w[54] == 0x64C3240A && w[55] == 0x57D03F19 &&
      w[56] == 0x2B5431F8 && w[57] == 0x18E58701 && w[58] == 0x799CF459 && w[59] == 0xF84271BC &&
      w[60] == 0xC1D555C1 && w[61] == 0x0ABB44C0 && w[62] == 0xC91D319B && w[63] == 0xA20E46B5
    ensures w[64] == 0x8ABC4BC8 && w[65] == 0xE16448E6 && w[66] == 0xD1CE367D && w[67] == 0xABD6272F &&
      w[68] == 0x1E77AC1C && w[69] == 0x90C0DC7B && w[70] == 0x5AB8068C && w[71] == 0xE698A563 &&
      w[72] == 0x9168A424 && w[73] == 0xB6F771AE && w[74] == 0x1E3E650D && w[75] == 0x908F6CEF &&
      w[76] == 0x409173D1 && w[77] == 0x4C977606 && w[78] == 0x132C2061 && w[79] == 0xCAC7B1C3
  {
    assert Follows(w, 64);
    assert Follows(w, 65);
    assert Follows(w, 66);
    assert Follows(w, 67);
    assert Follows(w, 68);
    assert Follows(w, 69);
    assert Follows(w, 70);
    assert Follows(w, 71);
    assert Follows(w, 72);
    assert Follows(w, 73);
    assert Follows(w, 74);
    assert Follows(w, 75);
    assert Follows(w, 76);
    assert Follows(w, 77);
    assert Follows(w, 78);
    assert Follows(w, 79);
  }

  lemma Rfc0Outer1Rounds0(w: seq<word>)
    requires |w| == 80
    requires w[0] == 0x0891D9BE && w[1] == 0x09BB16C7 && w[2] == 0xC8722DF3 && w[3] == 0x68D86350 &&
      w[4] == 0x667E499E && w[5] == 0x80000000 && w[6] == 0x00000000 && w[7] == 0x00000000 &&
      w[8] == 0x00000000 && w[9] == 0x00000000 && w[10] == 0x00000000 && w[11] == 0x00000000 &&
      w[12] == 0x00000000 && w[13] == 0x00000000 && w[14] == 0x00000000 && w[15] == 0x000002A0 &&
      w[16] == 0x81C7E89B && w[17] == 0xC2C6EB2E && w[18] == 0x5C18CD9B && w[19] == 0xD23F1796
    requires Compress(Regs(0x98BDBDCD, 0x58E07BFE, 0xAD5CDDEA, 0x3AC0430B, 0xFE106825), w, 0) == Regs(0x98BDBDCD, 0x58E07BFE, 0xAD5CDDEA, 0x3AC0430B, 0xFE106825)
    ensures Compress(Regs(0x98BDBDCD, 0x58E07BFE, 0xAD5CDDEA, 0x3AC0430B, 0xFE106825), w, 20) == Regs(0xB9C05442, 0xD10CF874, 0x4BD014B6, 0xC6D7F459, 0x9F263CFA)
  {
    assert Round(Regs(0x98BDBDCD, 0x58E07BFE, 0xAD5CDDEA, 0x3AC0430B, 0xFE106825), 0x0891D9BE, 0) == Regs(0xA31CCF1A, 0x98BDBDCD, 0x96381EFF, 0xAD5CDDEA, 0x3AC0430B);
    assert Compress(Regs(0x98BDBDCD, 0x58E07BFE, 0xAD5CDDEA, 0x3AC0430B, 0xFE106825), w, 1) == Regs(0xA31CCF1A, 0x98BDBDCD, 0x96381EFF, 0xAD5CDDEA, 0x3AC0430B);
    assert Round(Regs(0xA31CCF1A, 0x98BDBDCD, 0x96381EFF, 0xAD5CDDEA, 0x3AC0430B), 0x09BB16C7, 1) == Regs(0xB81013AE, 0xA31CCF1A, 0x662F6F73, 0x96381EFF, 0xAD5CDDEA);
    assert Compress(Regs(0x98BDBDCD, 0x58E07BFE, 0xAD5CDDEA, 0x3AC0430B, 0xFE106825), w, 2) == Regs(0xB81013AE, 0xA31CCF1A, 0x662F6F73, 0x96381EFF, 0xAD5CDDEA);
    assert Round(Regs(0xB81013AE, 0xA31CCF1A, 0x662F6F73, 0x96381EFF, 0xAD5CDDEA), 0xC8722DF3, 2) == Regs(0x08805B44, 0xB81013AE, 0xA8C733C6, 0x662F6F73, 0x96381EFF);
    assert Compress(Regs(0x98BDBDCD, 0x58E07BFE, 0xAD5CDDEA, 0x3AC0430B, 0xFE106825), w, 3) == Regs(0x08805B44, 0xB81013AE, 0xA8C733C6, 0x662F6F73, 0x96381EFF);
    assert Round(Regs(0x08805B44, 0xB81013AE, 0xA8C733C6, 0x662F6F73, 0x96381EFF), 0x68D86350, 3) == Regs(0x57CDE440, 0x08805B44, 0xAE0404EB, 0xA8C733C6, 0x662F6F73);
    assert Compress(Regs(0x98BDBDCD, 0x58E07BFE, 0xAD5CDDEA, 0x3AC0430B, 0xFE106825), w, 4) == Regs(0x57CDE440, 0x08805B44, 0xAE0404EB, 0xA8C733C6, 0x662F6F73);
    assert Round(Regs(0x57CDE440, 0x08805B44, 0xAE0404EB, 0xA8C733C6, 0x662F6F73), 0x667E499E, 4) == Regs(0xC933DB76, 0x57CDE440, 0x022016D1, 0xAE0404EB, 0xA8C733C6);
    assert Compress(Regs(0x98BDBDCD, 0x58E07BFE, 0xAD5CDDEA, 0x3AC0430B, 0xFE106825), w, 5) == Regs(0xC933DB76, 0x57CDE440, 0x022016D1, 0xAE0404EB, 0xA8C733C6);
    assert Round(Regs(0xC933DB76, 0x57CDE440, 0x022016D1, 0xAE0404EB, 0xA8C733C6), 0x80000000, 5) == Regs(0x53C52123, 0xC933DB76, 0x15F37910, 0x022016D1, 0xAE0404EB);
    assert Compress(Regs(0x98BDBDCD, 0x58E07BFE, 0xAD5CDDEA, 0x3AC0430B, 0xFE106825), w, 6) == Regs(0x53C52123, 0xC933DB76, 0x15F37910, 0x022016D1, 0xAE0404EB);
    assert Round(Regs(0x53C52123, 0xC933DB76, 0x15F37910, 0x022016D1, 0xAE0404EB), 0x00000000, 6) == Regs(0x845E007F, 0x53C52123, 0xB24CF6DD, 0x15F37910, 0x022016D1);
    assert Compress(Regs(0x98BDBDCD, 0x58E07BFE, 0xAD5CDDEA, 0x3AC0430B, 0xFE106825), w, 7) == Regs(0x845E007F, 0x53C52123, 0xB24CF6DD, 0x15F37910, 0x022016D1);
    assert Round(Regs(0x845E007F, 0x53C52123, 0xB24CF6DD, 0x15F37910, 0x022016D1), 0x00000000, 7) == Regs(0xFED9186B, 0x845E007F, 0xD4F14848, 0xB24CF6DD, 0x15F37910);
    assert Compress(Regs(0x98BDBDCD, 0x58E07BFE, 0xAD5CDDEA, 0x3AC0430B, 0xFE106825), w, 8) == Regs(0xFED9186B, 0x845E007F, 0xD4F14848, 0xB24CF6DD, 0x15F37910);
    assert Round(Regs(0xFED9186B, 0x845E007F, 0xD4F14848, 0xB24CF6DD, 0x15F37910), 0x00000000, 8) == Regs(0x01E9F6F0, 0xFED9186B, 0xE117801F, 0xD4F14848, 0xB24CF6DD);
    assert Compress(Regs(0x98BDBDCD, 0x58E07BFE, 0xAD5CDDEA, 0x3AC0430B, 0xFE106825), w, 9) == Regs(0x01E9F6F0, 0xFED9186B, 0xE117801F, 0xD4F14848, 0xB24CF6DD);
    assert Round(Regs(0x01E9F6F0, 0xFED9186B, 0xE117801F, 0xD4F14848, 0xB24CF6DD), 0x00000000, 9) == Regs(0x2A3F8E81, 0x01E9F6F0, 0xFFB6461A, 0xE117801F, 0xD4F14848);
    assert Compress(Regs(0x98BDBDCD, 0x58E07BFE, 0xAD5CDDEA, 0x3AC0430B, 0xFE106825), w, 10) == Regs(0x2A3F8E81, 0x01E9F6F0, 0xFFB6461A, 0xE117801F, 0xD4F14848);
    assert Round(Regs(0x2A3F8E81, 0x01E9F6F0, 0xFFB6461A, 0xE117801F, 0xD4F14848), 0x00000000, 10) == Regs(0x591BD825, 0x2A3F8E81, 0x007A7DBC, 0xFFB6461A, 0xE117801F);
    assert Compress(Regs(0x98BDBDCD, 0x58E07BFE, 0xAD5CDDEA, 0x3AC0430B, 0xFE106825), w, 11) == Regs(0x591BD825, 0x2A3F8E81, 0x007A7DBC, 0xFFB6461A, 0xE117801F);
    assert Round(Regs(0x591BD825, 0x2A3F8E81, 0x007A7DBC, 0xFFB6461A, 0xE117801F), 0x00000000, 11) == Regs(0x34CF4AFD, 0x591BD825, 0x4A8FE3A0, 0x007A7DBC, 0xFFB6461A);
    assert Compress(Regs(0x98BDBDCD, 0x58E07BFE, 0xAD5CDDEA, 0x3AC0430B, 0xFE106825), w, 12) == Regs(0x34CF4AFD, 0x591BD825, 0x4A8FE3A0, 0x007A7DBC, 0xFFB6461A);
    assert Round(Regs(0x34CF4AFD, 0x591BD825, 0x4A8FE3A0, 0x007A7DBC, 0xFFB6461A), 0x00000000, 12) == Regs(0x3C8E0511, 0x34CF4AFD, 0x5646F609, 0x4A8FE3A0, 0x007A7DBC);
    assert Compress(Regs(0x98BDBDCD, 0x58E07BFE, 0xAD5CDDEA, 0x3AC0430B, 0xFE106825), w, 13) == Regs(0x3C8E0511, 0x34CF4AFD, 0x5646F609, 0x4A8FE3A0, 0x007A7DBC);
    assert Round(Regs(0x3C8E0511, 0x34CF4AFD, 0x5646F609, 0x4A8FE3A0, 0x007A7DBC), 0x00000000, 13) == Regs(0x4B047C85, 0x3C8E0511, 0x4D33D2BF, 0x5646F609, 0x4A8FE3A0);
    assert Compress(Regs(0x98BDBDCD, 0x58E07BFE, 0xAD5CDDEA, 0x3AC0430B, 0xFE106825), w, 14) == Regs(0x4B047C85, 0x3C8E0511, 0x4D33D2BF, 0x5646F609, 0x4A8FE3A0);
    assert Round(Regs(0x4B047C85, 0x3C8E0511, 0x4D33D2BF, 0x5646F609, 0x4A8FE3A0), 0x00000000, 14) == Regs(0x53E4DFFB, 0x4B047C85, 0x4F238144, 0x4D33D2BF, 0x5646F609);
    assert Compress(Regs(0x98BDBDCD, 0x58E07BFE, 0xAD5CDDEA, 0x3AC0430B, 0xFE106825), w, 15) == Regs(0x53E4DFFB, 0x4B047C85, 0x4F238144, 0x4D33D2BF, 0x5646F609);
    assert Round(Regs(0x53E4DFFB, 0x4B047C85, 0x4F238144, 0x4D33D2BF, 0x5646F609), 0x000002A0, 15) == Regs(0x7C98F3EA, 0x53E4DFFB, 0x52C11F21, 0x4F238144, 0x4D33D2BF);
    assert Compress(Regs(0x98BDBDCD, 0x58E07BFE, 0xAD5CDDEA, 0x3AC0430B, 0xFE106825), w, 16) == Regs(0x7C98F3EA, 0x53E4DFFB, 0x52C11F21, 0x4F238144, 0x4D33D2BF);
    assert Round(Regs(0x7C98F3EA, 0x53E4DFFB, 0x52C11F21, 0x4F238144, 0x4D33D2BF), 0x81C7E89B, 16) == Regs(0x1B5FD167, 0x7C98F3EA, 0xD4F937FE, 0x52C11F21, 0x4F238144);
    assert Compress(Regs(0x98BDBDCD, 0x58E07BFE, 0xAD5CDDEA, 0x3AC0430B, 0xFE106825), w, 17) == Regs(0x1B5FD167, 0x7C98F3EA, 0xD4F937FE, 0x52C11F21, 0x4F238144);
    assert Round(Regs(0x1B5FD167, 0x7C98F3EA, 0xD4F937FE, 0x52C11F21, 0x4F238144), 0xC2C6EB2E, 17) == Regs(0x2F4052D9, 0x1B5FD167, 0x9F263CFA, 0xD4F937FE, 0x52C11F21);
    assert Compress(Regs(0x98BDBDCD, 0x58E07BFE, 0xAD5CDDEA, 0x3AC0430B, 0xFE106825), w, 18) == Regs(0x2F4052D9, 0x1B5FD167, 0x9F263CFA, 0xD4F937FE, 0x52C11F21);
    assert Round(Regs(0x2F4052D9, 0x1B5FD167, 0x9F263CFA, 0xD4F937FE, 0x52C11F21), 0x5C18CD9B, 18) == Regs(0xD10CF874, 0x2F4052D9, 0xC6D7F459, 0x9F263CFA, 0xD4F937FE);
    assert Compress(Regs(0x98BDBDCD, 0x58E07BFE, 0xAD5CDDEA, 0x3AC0430B, 0xFE106825), w, 19) == Regs(0xD10CF874, 0x2F4052D9, 0xC6D7F459, 0x9F263CFA, 0xD4F937FE);
    assert Round(Regs(0xD10CF874, 0x2F4052D9, 0xC6D7F459, 0x9F263CFA, 0xD4F937FE), 0xD23F1796, 19) == Regs(0xB9C05442, 0xD10CF874, 0x4BD014B6, 0xC6D7F459, 0x9F263CFA);
    assert Compress(Regs(0x98BDBDCD, 0x58E07BFE, 0xAD5CDDEA, 0x3AC0430B, 0xFE106825), w, 20) == Regs(0xB9C05442, 0xD10CF874, 0x4BD014B6, 0xC6D7F459, 0x9F263CFA);
  }

  lemma Rfc0Outer1Rounds1(w: seq<word>)
    requires |w| == 80
    requires w[20] == 0x49714561 && w[21] == 0xB8319B37 && w[22] == 0xA47E2F2D && w[23] == 0x92E28F82 &&
      w[24] == 0x73ECE758 && w[25] == 0xCD718806 && w[26] == 0x9DF48433 && w[27] == 0x43A7E19D &&
      w[28] == 0x08019ACF && w[29] == 0x4B8A3B48 && w[30] == 0xCC3C4C56 && w[31] == 0xB04BF986 &&
      w[32] == 0xCB73F221 && w[33] == 0x236871D0 && w[34] == 0x71ADEA9E && w[35] == 0xC5B53E3B &&
      w[36] == 0x8CCD02A7 && w[37] == 0x21E98AC6 && w[38] == 0xBC377431 && w[39] == 0xC62BF94A
    requires Compress(Regs(0x98BDBDCD, 0x58E07BFE, 0xAD5CDDEA, 0x3AC0430B, 0xFE106825), w, 20) == Regs(0xB9C05442, 0xD10CF874, 0x4BD014B6, 0xC6D7F459, 0x9F263CFA)
    ensures Compress(Regs(0x98BDBDCD, 0x58E07BFE, 0xAD5CDDEA, 0x3AC0430B, 0xFE106825), w, 40) == Regs(0xC40278DC, 0x15C44406, 0x27B3A924, 0x306F134B, 0x9B10DEC2)
  {
    assert Round(Regs(0xB9C05442, 0xD10CF874, 0x4BD014B6, 0xC6D7F459, 0x9F263CFA), 0x49714561, 20) == Regs(0xEB870EEE, 0xB9C05442, 0x34433E1D, 0x4BD014B6, 0xC6D7F459);
    assert Compress(Regs(0x98BDBDCD, 0x58E07BFE, 0xAD5CDDEA, 0x3AC0430B, 0xFE106825), w, 21) == Regs(0xEB870EEE, 0xB9C05442, 0x34433E1D, 0x4BD014B6, 0xC6D7F459);
    assert Round(Regs(0xEB870EEE, 0xB9C05442, 0x34433E1D, 0x4BD014B6, 0xC6D7F459), 0xB8319B37, 21) == Regs(0x2518D7F7, 0xEB870EEE, 0xAE701510, 0x34433E1D, 0x4BD014B6);
    assert Compress(Regs(0x98BDBDCD, 0x58E07BFE, 0xAD5CDDEA, 0x3AC0430B, 0xFE106825), w, 22) == Regs(0x2518D7F7, 0xEB870EEE, 0xAE701510, 0x34433E1D, 0x4BD014B6);
    assert Round(Regs(0x2518D7F7, 0xEB870EEE, 0xAE701510, 0x34433E1D, 0x4BD014B6), 0xA47E2F2D, 22) == Regs(0x73F7544B, 0x2518D7F7, 0xBAE1C3BB, 0xAE701510, 0x34433E1D);
    assert Compress(Regs(0x98BDBDCD, 0x58E07BFE, 0xAD5CDDEA, 0x3AC0430B, 0xFE106825), w, 23) == Regs(0x73F7544B, 0x2518D7F7, 0xBAE1C3BB, 0xAE701510, 0x34433E1D);
    assert Round(Regs(0x73F7544B, 0x2518D7F7, 0xBAE1C3BB, 0xAE701510, 0x34433E1D), 0x92E28F82, 23) == Regs(0xE673440A, 0x73F7544B, 0xC94635FD, 0xBAE1C3BB, 0xAE701510);
    assert Compress(Regs(0x98BDBDCD, 0x58E07BFE, 0xAD5CDDEA, 0x3AC0430B, 0xFE106825), w, 24) == Regs(0xE673440A, 0x73F7544B, 0xC94635FD, 0xBAE1C3BB, 0xAE701510);
    assert Round(Regs(0xE673440A, 0x73F7544B, 0xC94635FD, 0xBAE1C3BB, 0xAE701510), 0x73ECE758, 24) == Regs(0x5FF00B72, 0xE673440A, 0xDCFDD512, 0xC94635FD, 0xBAE1C3BB);
    assert Compress(Regs(0x98BDBDCD, 0x58E07BFE, 0xAD5CDDEA, 0x3AC0430B, 0xFE106825), w, 25) == Regs(0x5FF00B72, 0xE673440A, 0xDCFDD512, 0xC94635FD, 0xBAE1C3BB);
    assert Round(Regs(0x5FF00B72, 0xE673440A, 0xDCFDD512, 0xC94635FD, 0xBAE1C3BB), 0xCD718806, 25) == Regs(0xE8F74A92, 0x5FF00B72, 0xB99CD102, 0xDCFDD512, 0xC94635FD);
    assert Compress(Regs(0x98BDBDCD, 0x58E07BFE, 0xAD5CDDEA, 0x3AC0430B, 0xFE106825), w, 26) == Regs(0xE8F74A92, 0x5FF00B72, 0xB99CD102, 0xDCFDD512, 0xC94635FD);
    assert Round(Regs(0xE8F74A92, 0x5FF00B72, 0xB99CD102, 0xDCFDD512, 0xC94635FD), 0x9DF48433, 26) == Regs(0x2F8F0790, 0xE8F74A92, 0x97FC02DC, 0xB99CD102, 0xDCFDD512);
    assert Compress(Regs(0x98BDBDCD, 0x58E07BFE, 0xAD5CDDEA, 0x3AC0430B, 0xFE106825), w, 27) == Regs(0x2F8F0790, 0xE8F74A92, 0x97FC02DC, 0xB99CD102, 0xDCFDD512);
    assert Round(Regs(0x2F8F0790, 0xE8F74A92, 0x97FC02DC, 0xB99CD102, 0xDCFDD512), 0x43A7E19D, 27) == Regs(0x47F82DA1, 0x2F8F0790, 0xBA3DD2A4, 0x97FC02DC, 0xB99CD102);
    assert Compress(Regs(0x98BDBDCD, 0x58E07BFE, 0xAD5CDDEA, 0x3AC0430B, 0xFE106825), w, 28) == Regs(0x47F82DA1, 0x2F8F0790, 0xBA3DD2A4, 0x97FC02DC, 0xB99CD102);
    assert Round(Regs(0x47F82DA1, 0x2F8F0790, 0xBA3DD2A4, 0x97FC02DC, 0xB99CD102), 0x08019ACF, 28) == Regs(0x31CCE382, 0x47F82DA1, 0x0BE3C1E4, 0xBA3DD2A4, 0x97FC02DC);
    assert Compress(Regs(0x98BDBDCD, 0x58E07BFE, 0xAD5CDDEA, 0x3AC0430B, 0xFE106825), w, 29) == Regs(0x31CCE382, 0x47F82DA1, 0x0BE3C1E4, 0xBA3DD2A4, 0x97FC02DC);
    assert Round(Regs(0x31CCE382, 0x47F82DA1, 0x0BE3C1E4, 0xBA3DD2A4, 0x97FC02DC), 0x4B8A3B48, 29) == Regs(0x8222D8EC, 0x31CCE382, 0x51FE0B68, 0x0BE3C1E4, 0xBA3DD2A4);
    assert Compress(Regs(0x98BDBDCD, 0x58E07BFE, 0xAD5CDDEA, 0x3AC0430B, 0xFE106825), w, 30) == Regs(0x8222D8EC, 0x31CCE382, 0x51FE0B68, 0x0BE3C1E4, 0xBA3DD2A4);
    assert Round(Regs(0x8222D8EC, 0x31CCE382, 0x51FE0B68, 0x0BE3C1E4, 0xBA3DD2A4), 0xCC3C4C56, 30) == Regs(0xA5805139, 0x8222D8EC, 0x8C7338E0, 0x51FE0B68, 0x0BE3C1E4);
    assert Compress(Regs(0x98BDBDCD, 0x58E07BFE, 0xAD5CDDEA, 0x3AC0430B, 0xFE106825), w, 31) == Regs(0xA5805139, 0x8222D8EC, 0x8C7338E0, 0x51FE0B68, 0x0BE3C1E4);
    assert Round(Regs(0xA5805139, 0x8222D8EC, 0x8C7338E0, 0x51FE0B68, 0x0BE3C1E4), 0xB04BF986, 31) == Regs(0x3AC3B9A3, 0xA5805139, 0x2088B63B, 0x8C7338E0, 0x51FE0B68);
    assert Compress(Regs(0x98BDBDCD, 0x58E07BFE, 0xAD5CDDEA, 0x3AC0430B, 0xFE106825), w, 32) == Regs(0x3AC3B9A3, 0xA5805139, 0x2088B63B, 0x8C7338E0, 0x51FE0B68);
    assert Round(Regs(0x3AC3B9A3, 0xA5805139, 0x2088B63B, 0x8C7338E0, 0x51FE0B68), 0xCB73F221, 32) == Regs(0xEE3EFD73, 0x3AC3B9A3, 0x6960144E, 0x2088B63B, 0x8C7338E0);
    assert Compress(Regs(0x98BDBDCD, 0x58E07BFE, 0xAD5CDDEA, 0x3AC0430B, 0xFE106825), w, 33) == Regs(0xEE3EFD73, 0x3AC3B9A3, 0x6960144E, 0x2088B63B, 0x8C7338E0);
    assert Round(Regs(0xEE3EFD73, 0x3AC3B9A3, 0x6960144E, 0x2088B63B, 0x8C7338E0), 0x236871D0, 33) == Regs(0x59C060A4, 0xEE3EFD73, 0xCEB0EE68, 0x6960144E, 0x2088B63B);
    assert Compress(Regs(0x98BDBDCD, 0x58E07BFE, 0xAD5CDDEA, 0x3AC0430B, 0xFE106825), w, 34) == Regs(0x59C060A4, 0xEE3EFD73, 0xCEB0EE68, 0x6960144E, 0x2088B63B);
    assert Round(Regs(0x59C060A4, 0xEE3EFD73, 0xCEB0EE68, 0x6960144E, 0x2088B63B), 0x71ADEA9E, 34) == Regs(0x830AA85A, 0x59C060A4, 0xFB8FBF5C, 0xCEB0EE68, 0x6960144E);
    assert Compress(Regs(0x98BDBDCD, 0x58E07BFE, 0xAD5CDDEA, 0x3AC0430B, 0xFE106825), w, 35) == Regs(0x830AA85A, 0x59C060A4, 0xFB8FBF5C, 0xCEB0EE68, 0x6960144E);
    assert Round(Regs(0x830AA85A, 0x59C060A4, 0xFB8FBF5C, 0xCEB0EE68, 0x6960144E), 0xC5B53E3B, 35) == Regs(0x6C437B0A, 0x830AA85A, 0x16701829, 0xFB8FBF5C, 0xCEB0EE68);
    assert Compress(Regs(0x98BDBDCD, 0x58E07BFE, 0xAD5CDDEA, 0x3AC0430B, 0xFE106825), w, 36) == Regs(0x6C437B0A, 0x830AA85A, 0x16701829, 0xFB8FBF5C, 0xCEB0EE68);
    assert Round(Regs(0x6C437B0A, 0x830AA85A, 0x16701829, 0xFB8FBF5C, 0xCEB0EE68), 0x8CCD02A7, 36) == Regs(0xC1BC4D2C, 0x6C437B0A, 0xA0C2AA16, 0x16701829, 0xFB8FBF5C);
    assert Compress(Regs(0x98BDBDCD, 0x58E07BFE, 0xAD5CDDEA, 0x3AC0430B, 0xFE106825), w, 37) == Regs(0xC1BC4D2C, 0x6C437B0A, 0xA0C2AA16, 0x16701829, 0xFB8FBF5C);
    assert Round(Regs(0xC1BC4D2C, 0x6C437B0A, 0xA0C2AA16, 0x16701829, 0xFB8FBF5C), 0x21E98AC6, 37) == Regs(0x9ECEA490, 0xC1BC4D2C, 0x9B10DEC2, 0xA0C2AA16, 0x16701829);
    assert Compress(Regs(0x98BDBDCD, 0x58E07BFE, 0xAD5CDDEA, 0x3AC0430B, 0xFE106825), w, 38) == Regs(0x9ECEA490, 0xC1BC4D2C, 0x9B10DEC2, 0xA0C2AA16, 0x16701829);
    assert Round(Regs(0x9ECEA490, 0xC1BC4D2C, 0x9B10DEC2, 0xA0C2AA16, 0x16701829), 0xBC377431, 38) == Regs(0x15C44406, 0x9ECEA490, 0x306F134B, 0x9B10DEC2, 0xA0C2AA16);
    assert Compress(Regs(0x98BDBDCD, 0x58E07BFE, 0xAD5CDDEA, 0x3AC0430B, 0xFE106825), w, 39) == Regs(0x15C44406, 0x9ECEA490, 0x306F134B, 0x9B10DEC2, 0xA0C2AA16);
    assert Round(Regs(0x15C44406, 0x9ECEA490, 0x306F134B, 0x9B10DEC2, 0xA0C2AA16), 0xC62BF94A, 39) == Regs(0xC40278DC, 0x15C44406, 0x27B3A924, 0x306F134B, 0x9B10DEC2);
    assert Compress(Regs(0x98BDBDCD, 0x58E07BFE, 0xAD5CDDEA, 0x3AC0430B, 0xFE106825), w, 40) == Regs(0xC40278DC, 0x15C44406, 0x27B3A924, 0x306F134B, 0x9B10DEC2);
  }

  lemma Rfc0Outer1Rounds2(w: seq<word>)
    requires |w| == 80
    requires w[40] == 0x09043718 && w[41] == 0x2312D8F4 && w[42] == 0x44E61A50 && w[43] == 0x8939A7ED &&
      w[44] == 0xD7C41994 && w[45] == 0x3D9CA4B1 && w[46] == 0x6482DB56 && w[47] == 0x0598D111 &&
      w[48] == 0x1C8D162D && w[49] == 0x429A9893 && w[50] == 0x783C46F1 && w[51] == 0xE3D00A7A &&
      w[52] == 0x4B49EF23 && w[53] == 0x44C52399 && w[54] == 0x64C3240A && w[55] == 0x57D03F19 &&
      w[56] == 0x2B5431F8 && w[57] == 0x18E58701 && w[58] == 0x799CF459 && w[59] == 0xF84271BC
    requires Compress(Regs(0x98BDBDCD, 0x58E07BFE, 0xAD5CDDEA, 0x3AC0430B, 0xFE106825), w, 40) == Regs(0xC40278DC, 0x15C44406, 0x27B3A924, 0x306F134B, 0x9B10DEC2)
    ensures Compress(Regs(0x98BDBDCD, 0x58E07BFE, 0xAD5CDDEA, 0x3AC0430B, 0xFE106825), w, 60) == Regs(0xFC07C792, 0x6B93AAFE, 0x7B8FA056, 0x6F0CB03C, 0x602C748D)
  {
    assert Round(Regs(0xC40278DC, 0x15C44406, 0x27B3A924, 0x306F134B, 0x9B10DEC2), 0x09043718, 40) == Regs(0xE966EF54, 0xC40278DC, 0x85711101, 0x27B3A924, 0x306F134B);
    assert Compress(Regs(0x98BDBDCD, 0x58E07BFE, 0xAD5CDDEA, 0x3AC0430B, 0xFE106825), w, 41) == Regs(0xE966EF54, 0xC40278DC, 0x85711101, 0x27B3A924, 0x306F134B);
    assert Round(Regs(0xE966EF54, 0xC40278DC, 0x85711101, 0x27B3A924, 0x306F134B), 0x2312D8F4, 41) == Regs(0x94AECCBC, 0xE966EF54, 0x31009E37, 0x85711101, 0x27B3A924);
    assert Compress(Regs(0x98BDBDCD, 0x58E07BFE, 0xAD5CDDEA, 0x3AC0430B, 0xFE106825), w, 42) == Regs(0x94AECCBC, 0xE966EF54, 0x31009E37, 0x85711101, 0x27B3A924);
    assert Round(Regs(0x94AECCBC, 0xE966EF54, 0x31009E37, 0x85711101, 0x27B3A924), 0x44E61A50, 42) == Regs(0x32EFB6F7, 0x94AECCBC, 0x3A59BBD5, 0x31009E37, 0x85711101);
    assert Compress(Regs(0x98BDBDCD, 0x58E07BFE, 0xAD5CDDEA, 0x3AC0430B, 0xFE106825), w, 43) == Regs(0x32EFB6F7, 0x94AECCBC, 0x3A59BBD5, 0x31009E37, 0x85711101);
    assert Round(Regs(0x32EFB6F7, 0x94AECCBC, 0x3A59BBD5, 0x31009E37, 0x85711101), 0x8939A7ED, 43) == Regs(0x2BC5F365, 0x32EFB6F7, 0x252BB32F, 0x3A59BBD5, 0x31009E37);
    assert Compress(Regs(0x98BDBDCD, 0x58E07BFE, 0xAD5CDDEA, 0x3AC0430B, 0xFE106825), w, 44) == Regs(0x2BC5F365, 0x32EFB6F7, 0x252BB32F, 0x3A59BBD5, 0x31009E37);
    assert Round(Regs(0x2BC5F365, 0x32EFB6F7, 0x252BB32F, 0x3A59BBD5, 0x31009E37), 0xD7C41994, 44) == Regs(0x430A9543, 0x2BC5F365, 0xCCBBEDBD, 0x252BB32F, 0x3A59BBD5);
    assert Compress(Regs(0x98BDBDCD, 0x58E07BFE, 0xAD5CDDEA, 0x3AC0430B, 0xFE106825), w, 45) == Regs(0x430A9543, 0x2BC5F365, 0xCCBBEDBD, 0x252BB32F, 0x3A59BBD5);
    assert Round(Regs(0x430A9543, 0x2BC5F365, 0xCCBBEDBD, 0x252BB32F, 0x3A59BBD5), 0x3D9CA4B1, 45) == Regs(0x9610B8F7, 0x430A9543, 0x4AF17CD9, 0xCCBBEDBD, 0x252BB32F);
    assert Compress(Regs(0x98BDBDCD, 0x58E07BFE, 0xAD5CDDEA, 0x3AC0430B, 0xFE106825), w, 46) == Regs(0x9610B8F7, 0x430A9543, 0x4AF17CD9, 0xCCBBEDBD, 0x252BB32F);
    assert Round(Regs(0x9610B8F7, 0x430A9543, 0x4AF17CD9, 0xCCBBEDBD, 0x252BB32F), 0x6482DB56, 46) == Regs(0x259D682C, 0x9610B8F7, 0xD0C2A550, 0x4AF17CD9, 0xCCBBEDBD);
    assert Compress(Regs(0x98BDBDCD, 0x58E07BFE, 0xAD5CDDEA, 0x3AC0430B, 0xFE106825), w, 47) == Regs(0x259D682C, 0x9610B8F7, 0xD0C2A550, 0x4AF17CD9, 0xCCBBEDBD);
    assert Round(Regs(0x259D682C, 0x9610B8F7, 0xD0C2A550, 0x4AF17CD9, 0xCCBBEDBD), 0x0598D111, 47) == Regs(0xE7EE3DFF, 0x259D682C, 0xE5842E3D, 0xD0C2A550, 0x4AF17CD9);
    assert Compress(Regs(0x98BDBDCD, 0x58E07BFE, 0xAD5CDDEA, 0x3AC0430B, 0xFE106825), w, 48) == Regs(0xE7EE3DFF, 0x259D682C, 0xE5842E3D, 0xD0C2A550, 0x4AF17CD9);
    assert Round(Regs(0xE7EE3DFF, 0x259D682C, 0xE5842E3D, 0xD0C2A550, 0x4AF17CD9), 0x1C8D162D, 48) == Regs(0xD9E63C1A, 0xE7EE3DFF, 0x09675A0B, 0xE5842E3D, 0xD0C2A550);
    assert Compress(Regs(0x98BDBDCD, 0x58E07BFE, 0xAD5CDDEA, 0x3AC0430B, 0xFE106825), w, 49) == Regs(0xD9E63C1A, 0xE7EE3DFF, 0x09675A0B, 0xE5842E3D, 0xD0C2A550);
    assert Round(Regs(0xD9E63C1A, 0xE7EE3DFF, 0x09675A0B, 0xE5842E3D, 0xD0C2A550), 0x429A9893, 49) == Regs(0xC526BC59, 0xD9E63C1A, 0xF9FB8F7F, 0x09675A0B, 0xE5842E3D);
    assert Compress(Regs(0x98BDBDCD, 0x58E07BFE, 0xAD5CDDEA, 0x3AC0430B, 0xFE106825), w, 50) == Regs(0xC526BC59, 0xD9E63C1A, 0xF9FB8F7F, 0x09675A0B, 0xE5842E3D);
    assert Round(Regs(0xC526BC59, 0xD9E63C1A, 0xF9FB8F7F, 0x09675A0B, 0xE5842E3D), 0x783C46F1, 50) == Regs(0x6B9ADB5D, 0xC526BC59, 0xB6798F06, 0xF9FB8F7F, 0x09675A0B);
    assert Compress(Regs(0x98BDBDCD, 0x58E07BFE, 0xAD5CDDEA, 0x3AC0430B, 0xFE106825), w, 51) == Regs(0x6B9ADB5D, 0xC526BC59, 0xB6798F06, 0xF9FB8F7F, 0x09675A0B);
    assert Round(Regs(0x6B9ADB5D, 0xC526BC59, 0xB6798F06, 0xF9FB8F7F, 0x09675A0B), 0xE3D00A7A, 51) == Regs(0xE52A1C6D, 0x6B9ADB5D, 0x7149AF16, 0xB6798F06, 0xF9FB8F7F);
    assert Compress(Regs(0x98BDBDCD, 0x58E07BFE, 0xAD5CDDEA, 0x3AC0430B, 0xFE106825), w, 52) == Regs(0xE52A1C6D, 0x6B9ADB5D, 0x7149AF16, 0xB6798F06, 0xF9FB8F7F);
    assert Round(Regs(0xE52A1C6D, 0x6B9ADB5D, 0x7149AF16, 0xB6798F06, 0xF9FB8F7F), 0x4B49EF23, 52) == Regs(0xECFE5850, 0xE52A1C6D, 0x5AE6B6D7, 0x7149AF16, 0xB6798F06);
    assert Compress(Regs(0x98BDBDCD, 0x58E07BFE, 0xAD5CDDEA, 0x3AC0430B, 0xFE106825), w, 53) == Regs(0xECFE5850, 0xE52A1C6D, 0x5AE6B6D7, 0x7149AF16, 0xB6798F06);
    assert Round(Regs(0xECFE5850, 0xE52A1C6D, 0x5AE6B6D7, 0x7149AF16, 0xB6798F06), 0x44C52399, 53) == Regs(0x9B9037EF, 0xECFE5850, 0x794A871B, 0x5AE6B6D7, 0x7149AF16);
    assert Compress(Regs(0x98BDBDCD, 0x58E07BFE, 0xAD5CDDEA, 0x3AC0430B, 0xFE106825), w, 54) == Regs(0x9B9037EF, 0xECFE5850, 0x794A871B, 0x5AE6B6D7, 0x7149AF16);
    assert Round(Regs(0x9B9037EF, 0xECFE5850, 0x794A871B, 0x5AE6B6D7, 0x7149AF16), 0x64C3240A, 54) == Regs(0x501E2442, 0x9B9037EF, 0x3B3F9614, 0x794A871B, 0x5AE6B6D7);
    assert Compress(Regs(0x98BDBDCD, 0x58E07BFE, 0xAD5CDDEA, 0x3AC0430B, 0xFE106825), w, 55) == Regs(0x501E2442, 0x9B9037EF, 0x3B3F9614, 0x794A871B, 0x5AE6B6D7);
    assert Round(Regs(0x501E2442, 0x9B9037EF, 0x3B3F9614, 0x794A871B, 0x5AE6B6D7), 0x57D03F19, 55) == Regs(0x80B1D235, 0x501E2442, 0xE6E40DFB, 0x3B3F9614, 0x794A871B);
    assert Compress(Regs(0x98BDBDCD, 0x58E07BFE, 0xAD5CDDEA, 0x3AC0430B, 0xFE106825), w, 56) == Regs(0x80B1D235, 0x501E2442, 0xE6E40DFB, 0x3B3F9614, 0x794A871B);
    assert Round(Regs(0x80B1D235, 0x501E2442, 0xE6E40DFB, 0x3B3F9614, 0x794A871B), 0x2B5431F8, 56) == Regs(0xBC32C0F1, 0x80B1D235, 0x94078910, 0xE6E40DFB, 0x3B3F9614);
    assert Compress(Regs(0x98BDBDCD, 0x58E07BFE, 0xAD5CDDEA, 0x3AC0430B, 0xFE106825), w, 57) == Regs(0xBC32C0F1, 0x80B1D235, 0x94078910, 0xE6E40DFB, 0x3B3F9614);
    assert Round(Regs(0xBC32C0F1, 0x80B1D235, 0x94078910, 0xE6E40DFB, 0x3B3F9614), 0x18E58701, 57) == Regs(0xEE3E8159, 0xBC32C0F1, 0x602C748D, 0x94078910, 0xE6E40DFB);
    assert Compress(Regs(0x98BDBDCD, 0x58E07BFE, 0xAD5CDDEA, 0x3AC0430B, 0xFE106825), w, 58) == Regs(0xEE3E8159, 0xBC32C0F1, 0x602C748D, 0x94078910, 0xE6E40DFB);
    assert Round(Regs(0xEE3E8159, 0xBC32C0F1, 0x602C748D, 0x94078910, 0xE6E40DFB), 0x799CF459, 58) == Regs(0x6B93AAFE, 0xEE3E8159, 0x6F0CB03C, 0x602C748D, 0x94078910);
    assert Compress(Regs(0x98BDBDCD, 0x58E07BFE, 0xAD5CDDEA, 0x3AC0430B, 0xFE106825), w, 59) == Regs(0x6B93AAFE, 0xEE3E8159, 0x6F0CB03C, 0x602C748D, 0x94078910);
    assert Round(Regs(0x6B93AAFE, 0xEE3E8159, 0x6F0CB03C, 0x602C748D, 0x94078910), 0xF84271BC, 59) == Regs(0xFC07C792, 0x6B93AAFE, 0x7B8FA056, 0x6F0CB03C, 0x602C748D);
    assert Compress(Regs(0x98BDBDCD, 0x58E07BFE, 0xAD5CDDEA, 0x3AC0430B, 0xFE106825), w, 60) == Regs(0xFC07C792, 0x6B93AAFE, 0x7B8FA056, 0x6F0CB03C, 0x602C748D);
  }

  lemma Rfc0Outer1Rounds3(w: seq<word>)
    requires |w| == 80
    requires w[60] == 0xC1D555C1 && w[61] == 0x0ABB44C0 && w[62] == 0xC91D319B && w[63] == 0xA20E46B5 &&
      w[64] == 0x8ABC4BC8 && w[65] == 0xE16448E6 && w[66] == 0xD1CE367D && w[67] == 0xABD6272F &&
      w[68] == 0x1E77AC1C && w[69] == 0x90C0DC7B && w[70] == 0x5AB8068C && w[71] == 0xE698A563 &&
      w[72] == 0x9168A424 && w[73] == 0xB6F771AE && w[74] == 0x1E3E650D && w[75] == 0x908F6CEF &&
      w[76] == 0x409173D1 && w[77] == 0x4C977606 && w[78] == 0x132C2061 && w[79] == 0xCAC7B1C3
    requires Compress(Regs(0x98BDBDCD, 0x58E07BFE, 0xAD5CDDEA, 0x3AC0430B, 0xFE106825), w, 60) == Regs(0xFC07C792, 0x6B93AAFE, 0x7B8FA056, 0x6F0CB03C, 0x602C748D)
    ensures Compress(Regs(0x98BDBDCD, 0x58E07BFE, 0xAD5CDDEA, 0x3AC0430B, 0xFE106825), w, 80) == Regs(0x33D6114B, 0xF7AD1895, 0x9F07D873, 0x50E72374, 0xB9BD7C8B)
  {
    assert Round(Regs(0xFC07C792, 0x6B93AAFE, 0x7B8FA056, 0x6F0CB03C, 0x602C748D), 0xC1D555C1, 60) == Regs(0xEC6E3917, 0xFC07C792, 0x9AE4EABF, 0x7B8FA056, 0x6F0CB03C);
    assert Compress(Regs(0x98BDBDCD, 0x58E07BFE, 0xAD5CDDEA, 0x3AC0430B, 0xFE106825), w, 61) == Regs(0xEC6E3917, 0xFC07C792, 0x9AE4EABF, 0x7B8FA056, 0x6F0CB03C);
    assert Round(Regs(0xEC6E3917, 0xFC07C792, 0x9AE4EABF, 0x7B8FA056, 0x6F0CB03C), 0x0ABB44C0, 61) == Regs(0xEF5E674A, 0xEC6E3917, 0xBF01F1E4, 0x9AE4EABF, 0x7B8FA056);
    assert Compress(Regs(0x98BDBDCD, 0x58E07BFE, 0xAD5CDDEA, 0x3AC0430B, 0xFE106825), w, 62) == Regs(0xEF5E674A, 0xEC6E3917, 0xBF01F1E4, 0x9AE4EABF, 0x7B8FA056);
    assert Round(Regs(0xEF5E674A, 0xEC6E3917, 0xBF01F1E4, 0x9AE4EABF, 0x7B8FA056), 0xC91D319B, 62) == Regs(0xC4679F70, 0xEF5E674A, 0xFB1B8E45, 0xBF01F1E4, 0x9AE4EABF);
    assert Compress(Regs(0x98BDBDCD, 0x58E07BFE, 0xAD5CDDEA, 0x3AC0430B, 0xFE106825), w, 63) == Regs(0xC4679F70, 0xEF5E674A, 0xFB1B8E45, 0xBF01F1E4, 0x9AE4EABF);
    assert Round(Regs(0xC4679F70, 0xEF5E674A, 0xFB1B8E45, 0xBF01F1E4, 0x9AE4EABF), 0xA20E46B5, 63) == Regs(0x3F8DFA4D, 0xC4679F70, 0xBBD799D2, 0xFB1B8E45, 0xBF01F1E4);
    assert Compress(Regs(0x98BDBDCD, 0x58E07BFE, 0xAD5CDDEA, 0x3AC0430B, 0xFE106825), w, 64) == Regs(0x3F8DFA4D, 0xC4679F70, 0xBBD799D2, 0xFB1B8E45, 0xBF01F1E4);
    assert Round(Regs(0x3F8DFA4D, 0xC4679F70, 0xBBD799D2, 0xFB1B8E45, 0xBF01F1E4), 0x8ABC4BC8, 64) == Regs(0x8A8BD210, 0x3F8DFA4D, 0x3119E7DC, 0xBBD799D2, 0xFB1B8E45);
    assert Compress(Regs(0x98BDBDCD, 0x58E07BFE, 0xAD5CDDEA, 0x3AC0430B, 0xFE106825), w, 65) == Regs(0x8A8BD210, 0x3F8DFA4D, 0x3119E7DC, 0xBBD799D2, 0xFB1B8E45);
    assert Round(Regs(0x8A8BD210, 0x3F8DFA4D, 0x3119E7DC, 0xBBD799D2, 0xFB1B8E45), 0xE16448E6, 65) == Regs(0xADA05F55, 0x8A8BD210, 0x4FE37E93, 0x3119E7DC, 0xBBD799D2);
    assert Compress(Regs(0x98BDBDCD, 0x58E07BFE, 0xAD5CDDEA, 0x3AC0430B, 0xFE106825), w, 66) == Regs(0xADA05F55, 0x8A8BD210, 0x4FE37E93, 0x3119E7DC, 0xBBD799D2);
    assert Round(Regs(0xADA05F55, 0x8A8BD210, 0x4FE37E93, 0x3119E7DC, 0xBBD799D2), 0xD1CE367D, 66) == Regs(0x0085C839, 0xADA05F55, 0x22A2F484, 0x4FE37E93, 0x3119E7DC);
    assert Compress(Regs(0x98BDBDCD, 0x58E07BFE, 0xAD5CDDEA, 0x3AC0430B, 0xFE106825), w, 67) == Regs(0x0085C839, 0xADA05F55, 0x22A2F484, 0x4FE37E93, 0x3119E7DC);
    assert Round(Regs(0x0085C839, 0xADA05F55, 0x22A2F484, 0x4FE37E93, 0x3119E7DC), 0xABD6272F, 67) == Regs(0x78EDAD43, 0x0085C839, 0x6B6817D5, 0x22A2F484, 0x4FE37E93);
    assert Compress(Regs(0x98BDBDCD, 0x58E07BFE, 0xAD5CDDEA, 0x3AC0430B, 0xFE106825), w, 68) == Regs(0x78EDAD43, 0x0085C839, 0x6B6817D5, 0x22A2F484, 0x4FE37E93);
    assert Round(Regs(0x78EDAD43, 0x0085C839, 0x6B6817D5, 0x22A2F484, 0x4FE37E93), 0x1E77AC1C, 68) == Regs(0x9FC2C05C, 0x78EDAD43, 0x4021720E, 0x6B6817D5, 0x22A2F484);
    assert Compress(Regs(0x98BDBDCD, 0x58E07BFE, 0xAD5CDDEA, 0x3AC0430B, 0xFE106825), w, 69) == Regs(0x9FC2C05C, 0x78EDAD43, 0x4021720E, 0x6B6817D5, 0x22A2F484);
    assert Round(Regs(0x9FC2C05C, 0x78EDAD43, 0x4021720E, 0x6B6817D5, 0x22A2F484), 0x90C0DC7B, 69) == Regs(0xC9C36700, 0x9FC2C05C, 0xDE3B6B50, 0x4021720E, 0x6B6817D5);
    assert Compress(Regs(0x98BDBDCD, 0x58E07BFE, 0xAD5CDDEA, 0x3AC0430B, 0xFE106825), w, 70) == Regs(0xC9C36700, 0x9FC2C05C, 0xDE3B6B50, 0x4021720E, 0x6B6817D5);
    assert Round(Regs(0xC9C36700, 0x9FC2C05C, 0xDE3B6B50, 0x4021720E, 0x6B6817D5), 0x5AB8068C, 70) == Regs(0xCAC89952, 0xC9C36700, 0x27F0B017, 0xDE3B6B50, 0x4021720E);
    assert Compress(Regs(0x98BDBDCD, 0x58E07BFE, 0xAD5CDDEA, 0x3AC0430B, 0xFE106825), w, 71) == Regs(0xCAC89952, 0xC9C36700, 0x27F0B017, 0xDE3B6B50, 0x4021720E);
    assert Round(Regs(0xCAC89952, 0xC9C36700, 0x27F0B017, 0xDE3B6B50, 0x4021720E), 0xE698A563, 71) == Regs(0x7A38BFE7, 0xCAC89952, 0x3270D9C0, 0x27F0B017, 0xDE3B6B50);
    assert Compress(Regs(0x98BDBDCD, 0x58E07BFE, 0xAD5CDDEA, 0x3AC0430B, 0xFE106825), w, 72) == Regs(0x7A38BFE7, 0xCAC89952, 0x3270D9C0, 0x27F0B017, 0xDE3B6B50);
    assert Round(Regs(0x7A38BFE7, 0xCAC89952, 0x3270D9C0, 0x27F0B017, 0xDE3B6B50), 0x9168A424, 72) == Regs(0x6067BEBE, 0x7A38BFE7, 0xB2B22654, 0x3270D9C0, 0x27F0B017);
    assert Compress(Regs(0x98BDBDCD, 0x58E07BFE, 0xAD5CDDEA, 0x3AC0430B, 0xFE106825), w, 73) == Regs(0x6067BEBE, 0x7A38BFE7, 0xB2B22654, 0x3270D9C0, 0x27F0B017);
    assert Round(Regs(0x6067BEBE, 0x7A38BFE7, 0xB2B22654, 0x3270D9C0, 0x27F0B017), 0xB6F771AE, 73) == Regs(0xB13CFBDA, 0x6067BEBE, 0xDE8E2FF9, 0xB2B22654, 0x3270D9C0);
    assert Compress(Regs(0x98BDBDCD, 0x58E07BFE, 0xAD5CDDEA, 0x3AC0430B, 0xFE106825), w, 74) == Regs(0xB13CFBDA, 0x6067BEBE, 0xDE8E2FF9, 0xB2B22654, 0x3270D9C0);
    assert Round(Regs(0xB13CFBDA, 0x6067BEBE, 0xDE8E2FF9, 0xB2B22654, 0x3270D9C0), 0x1E3E650D, 74) == Regs(0x4F0D330C, 0xB13CFBDA, 0x9819EFAF, 0xDE8E2FF9, 0xB2B22654);
    assert Compress(Regs(0x98BDBDCD, 0x58E07BFE, 0xAD5CDDEA, 0x3AC0430B, 0xFE106825), w, 75) == Regs(0x4F0D330C, 0xB13CFBDA, 0x9819EFAF, 0xDE8E2FF9, 0xB2B22654);
    assert Round(Regs(0x4F0D330C, 0xB13CFBDA, 0x9819EFAF, 0xDE8E2FF9, 0xB2B22654), 0x908F6CEF, 75) == Regs(0xE6F5F22E, 0x4F0D330C, 0xAC4F3EF6, 0x9819EFAF, 0xDE8E2FF9);
    assert Compress(Regs(0x98BDBDCD, 0x58E07BFE, 0xAD5CDDEA, 0x3AC0430B, 0xFE106825), w, 76) == Regs(0xE6F5F22E, 0x4F0D330C, 0xAC4F3EF6, 0x9819EFAF, 0xDE8E2FF9);
    assert Round(Regs(0xE6F5F22E, 0x4F0D330C, 0xAC4F3EF6, 0x9819EFAF, 0xDE8E2FF9), 0x409173D1, 76) == Regs(0x439C8DD1, 0xE6F5F22E, 0x13C34CC3, 0xAC4F3EF6, 0x9819EFAF);
    assert Compress(Regs(0x98BDBDCD, 0x58E07BFE, 0xAD5CDDEA, 0x3AC0430B, 0xFE106825), w, 77) == Regs(0x439C8DD1, 0xE6F5F22E, 0x13C34CC3, 0xAC4F3EF6, 0x9819EFAF);
    assert Round(Regs(0x439C8DD1, 0xE6F5F22E, 0x13C34CC3, 0xAC4F3EF6, 0x9819EFAF), 0x4C977606, 77) == Regs(0x7C1F61CE, 0x439C8DD1, 0xB9BD7C8B, 0x13C34CC3, 0xAC4F3EF6);
    assert Compress(Regs(0x98BDBDCD, 0x58E07BFE, 0xAD5CDDEA, 0x3AC0430B, 0xFE106825), w, 78) == Regs(0x7C1F61CE, 0x439C8DD1, 0xB9BD7C8B, 0x13C34CC3, 0xAC4F3EF6);
    assert Round(Regs(0x7C1F61CE, 0x439C8DD1, 0xB9BD7C8B, 0x13C34CC3, 0xAC4F3EF6), 0x132C2061, 78) == Regs(0xF7AD1895, 0x7C1F61CE, 0x50E72374, 0xB9BD7C8B, 0x13C34CC3);
    assert Compress(Regs(0x98BDBDCD, 0x58E07BFE, 0xAD5CDDEA, 0x3AC0430B, 0xFE106825), w, 79) == Regs(0xF7AD1895, 0x7C1F61CE, 0x50E72374, 0xB9BD7C8B, 0x13C34CC3);
    assert Round(Regs(0xF7AD1895, 0x7C1F61CE, 0x50E72374, 0xB9BD7C8B, 0x13C34CC3), 0xCAC7B1C3, 79) == Regs(0x33D6114B, 0xF7AD1895, 0x9F07D873, 0x50E72374, 0xB9BD7C8B);
    assert Compress(Regs(0x98BDBDCD, 0x58E07BFE, 0xAD5CDDEA, 0x3AC0430B, 0xFE106825), w, 80) == Regs(0x33D6114B, 0xF7AD1895, 0x9F07D873, 0x50E72374, 0xB9BD7C8B);
  }

  lemma Rfc0Outer1Compress(words: seq<word>)
    requires |words| == 16
    requires words[0] == 0x0891D9BE && words[1] == 0x09BB16C7 && words[2] == 0xC8722DF3 && words[3] == 0x68D86350 &&
      words[4] == 0x667E499E && words[5] == 0x80000000 && words[6] == 0x00000000 && words[7] == 0x00000000 &&
      words[8] == 0x00000000 && words[9] == 0x00000000 && words[10] == 0x00000000 && words[11] == 0x00000000 &&
      words[12] == 0x00000000 && words[13] == 0x00000000 && words[14] == 0x00000000 && words[15] == 0x000002A0
    ensures Compress(Regs(0x98BDBDCD, 0x58E07BFE, 0xAD5CDDEA, 0x3AC0430B, 0xFE106825), Schedule(words), 80) == Regs(0x33D6114B, 0xF7AD1895, 0x9F07D873, 0x50E72374, 0xB9BD7C8B)
  {
    var w := Schedule(words);
    ScheduleIsSchedule(words);
    forall j | 0 <= j < 16
      ensures w[j] == words[j]
    {
      assert w[..16][j] == w[j];
    }
    Rfc0Outer1Schedule0(w);
    Rfc0Outer1Schedule1(w);
    Rfc0Outer1Schedule2(w);
    Rfc0Outer1Schedule3(w);
    Rfc0Outer1Rounds0(w);
    Rfc0Outer1Rounds1(w);
    Rfc0Outer1Rounds2(w);
    Rfc0Outer1Rounds3(w);
  }

  lemma Rfc0OuterDigest(d: seq<byte>)
    requires d == [0x08, 0x91, 0xD9, 0xBE, 0x09, 0xBB, 0x16, 0xC7, 0xC8, 0x72, 0x2D, 0xF3, 0x68, 0xD8, 0x63, 0x50, 0x66, 0x7E, 0x49, 0x9E]
    ensures Sha1.Digest(OuterInput(RfcKey, d)) == [0xCC, 0x93, 0xCF, 0x18, 0x50, 0x8D, 0x94, 0x93, 0x4C, 0x64, 0xB6, 0x5D, 0x8B, 0xA7, 0x66, 0x7F, 0xB7, 0xCD, 0xE4, 0xB0]
  {
    var p := Sha1.Pad(OuterInput(RfcKey, d));
    Rfc0OuterLength(d);
    Rfc0OuterBlock0(p, d);
    Rfc0OuterBlock1(p, d);
    var b := Split(p);
    ChainTwo(IV, b);
    Rfc0Outer0Compress(b[0].words);
    Rfc0Outer1Compress(b[1].words);
    assert Sha1.Chain(IV, b) == Regs(0xCC93CF18, 0x508D9493, 0x4C64B65D, 0x8BA7667F, 0xB7CDE4B0);
    Rfc0OuterOutput();
  }

  lemma Rfc0OuterOutput()
    ensures Serialize(Regs(0xCC93CF18, 0x508D9493, 0x4C64B65D, 0x8BA7667F, 0xB7CDE4B0)) == [0xCC, 0x93, 0xCF, 0x18, 0x50, 0x8D, 0x94, 0x93, 0x4C, 0x64, 0xB6, 0x5D, 0x8B, 0xA7, 0x66, 0x7F, 0xB7, 0xCD, 0xE4, 0xB0]
  {
  }

  lemma HmacRfc0()
    ensures HmacSha1(RfcKey, CounterZero) == [0xCC, 0x93, 0xCF, 0x18, 0x50, 0x8D, 0x94, 0x93, 0x4C, 0x64, 0xB6, 0x5D, 0x8B, 0xA7, 0x66, 0x7F, 0xB7, 0xCD, 0xE4, 0xB0]
  {
    Rfc0InnerDigest();
    Rfc0OuterDigest([0x08, 0x91, 0xD9, 0xBE, 0x09, 0xBB, 0x16, 0xC7, 0xC8, 0x72, 0x2D, 0xF3, 0x68, 0xD8, 0x63, 0x50, 0x66, 0x7E, 0x49, 0x9E]);
  }

  /** HMAC-SHA1 of counter 1 under the RFC 4226 secret. */
  lemma Rfc1InnerInput0()
    ensures |InnerInput(RfcKey, CounterOne)| == 72
    ensures var m := InnerInput(RfcKey, CounterOne);
      m[0] == 0x07 && m[1] == 0x04 && m[2] == 0x05 && m[3] == 0x02 &&
      m[4] == 0x03 && m[5] == 0x00 && m[6] == 0x01 && m[7] == 0x0E &&
      m[8] == 0x0F && m[9] == 0x06 && m[10] == 0x07 && m[11] == 0x04 &&
      m[12] == 0x05 && m[13] == 0x02 && m[14] == 0x03 && m[15] == 0x00
  {
    var m := InnerInput(RfcKey, CounterOne);
    NormalizeKeyPrefix(RfcKey);
    var k := NormalizeKey(RfcKey);
    assert m[0] == k[0] ^ 0x36;
    assert m[1] == k[1] ^ 0x36;
    assert m[2] == k[2] ^ 0x36;
    assert m[3] == k[3] ^ 0x36;
    assert m[4] == k[4] ^ 0x36;
    assert m[5] == k[5] ^ 0x36;
    assert m[6] == k[6] ^ 0x36;
    assert m[7] == k[7] ^ 0x36;
    assert m[8] == k[8] ^ 0x36;
    assert m[9] == k[9] ^ 0x36;
    assert m[10] == k[10] ^ 0x36;
    assert m[11] == k[11] ^ 0x36;
    assert m[12] == k[12] ^ 0x36;
    assert m[13] == k[13] ^ 0x36;
    assert m[14] == k[14] ^ 0x36;
    assert m[15] == k[15] ^ 0x36;
  }

  lemma Rfc1InnerInput1()
    ensures |InnerInput(RfcKey, CounterOne)| == 72
    ensures var m := InnerInput(RfcKey, CounterOne);
      m[16] == 0x01 && m[17] == 0x0E && m[18] == 0x0F && m[19] == 0x06 &&
      m[20] == 0x36 && m[21] == 0x36 && m[22] == 0x36 && m[23] == 0x36 &&
      m[24] == 0x36 && m[25] == 0x36 && m[26] == 0x36 && m[27] == 0x36 &&
      m[28] == 0x36 && m[29] == 0x36 && m[30] == 0x36 && m[31] == 0x36
  {
    var m := InnerInput(RfcKey, CounterOne);
    NormalizeKeyPrefix(RfcKey);
    var k := NormalizeKey(RfcKey);
    assert m[16] == k[16] ^ 0x36;
    assert m[17] == k[17] ^ 0x36;
    assert m[18] == k[18] ^ 0x36;
    assert m[19] == k[19] ^ 0x36;
    assert m[20] == k[20] ^ 0x36;
    assert m[21] == k[21] ^ 0x36;
    assert m[22] == k[22] ^ 0x36;
    assert m[23] == k[23] ^ 0x36;
    assert m[24] == k[24] ^ 0x36;
    assert m[25] == k[25] ^ 0x36;
    assert m[26] == k[26] ^ 0x36;
    assert m[27] == k[27] ^ 0x36;
    assert m[28] == k[28] ^ 0x36;
    assert m[29] == k[29] ^ 0x36;
    assert m[30] == k[30] ^ 0x36;
    assert m[31] == k[31] ^ 0x36;
  }

  lemma Rfc1InnerInput2()
    ensures |InnerInput(RfcKey, CounterOne)| == 72
    ensures var m := InnerInput(RfcKey, CounterOne);
      m[32] == 0x36 && m[33] == 0x36 && m[34] == 0x36 && m[35] == 0x36 &&
      m[36] == 0x36 && m[37] == 0x36 && m[38] == 0x36 && m[39] == 0x36 &&
      m[40] == 0x36 && m[41] == 0x36 && m[42] == 0x36 && m[43] == 0x36 &&
      m[44] == 0x36 && m[45] == 0x36 && m[46] == 0x36 && m[47] == 0x36
  {
    var m := InnerInput(RfcKey, CounterOne);
    NormalizeKeyPrefix(RfcKey);
    var k := NormalizeKey(RfcKey);
    assert m[32] == k[32] ^ 0x36;
    assert m[33] == k[33] ^ 0x36;
    assert m[34] == k[34] ^ 0x36;
    assert m[35] == k[35] ^ 0x36;
    assert m[36] == k[36] ^ 0x36;
    assert m[37] == k[37] ^ 0x36;
    assert m[38] == k[38] ^ 0x36;
    assert m[39] == k[39] ^ 0x36;
    assert m[40] == k[40] ^ 0x36;
    assert m[41] == k[41] ^ 0x36;
    assert m[42] == k[42] ^ 0x36;
    assert m[43] == k[43] ^ 0x36;
    assert m[44] == k[44] ^ 0x36;
    assert m[45] == k[45] ^ 0x36;
    assert m[46] == k[46] ^ 0x36;
    assert m[47] == k[47] ^ 0x36;
  }

  lemma Rfc1InnerInput3()
    ensures |InnerInput(RfcKey, CounterOne)| == 72
    ensures var m := InnerInput(RfcKey, CounterOne);
      m[48] == 0x36 && m[49] == 0x36 && m[50] == 0x36 && m[51] == 0x36 &&
      m[52] == 0x36 && m[53] == 0x36 && m[54] == 0x36 && m[55] == 0x36 &&
      m[56] == 0x36 && m[57] == 0x36 && m[58] == 0x36 && m[59] == 0x36 &&
      m[60] == 0x36 && m[61] == 0x36 && m[62] == 0x36 && m[63] == 0x36
  {
    var m := InnerInput(RfcKey, CounterOne);
    NormalizeKeyPrefix(RfcKey);
    var k := NormalizeKey(RfcKey);
    assert m[48] == k[48] ^ 0x36;
    assert m[49] == k[49] ^ 0x36;
    assert m[50] == k[50] ^ 0x36;
    assert m[51] == k[51] ^ 0x36;
    assert m[52] == k[52] ^ 0x36;
    assert m[53] == k[53] ^ 0x36;
    assert m[54] == k[54] ^ 0x36;
    assert m[55] == k[55] ^ 0x36;
    assert m[56] == k[56] ^ 0x36;
    assert m[57] == k[57] ^ 0x36;
    assert m[58] == k[58] ^ 0x36;
    assert m[59] == k[59] ^ 0x36;
    assert m[60] == k[60] ^ 0x36;
    assert m[61] == k[61] ^ 0x36;
    assert m[62] == k[62] ^ 0x36;
    assert m[63] == k[63] ^ 0x36;
  }

  lemma Rfc1InnerInput4()
    ensures |InnerInput(RfcKey, CounterOne)| == 72
    ensures var m := InnerInput(RfcKey, CounterOne);
      m[64] == 0x00 && m[65] == 0x00 && m[66] == 0x00 && m[67] == 0x00 &&
      m[68] == 0x00 && m[69] == 0x00 && m[70] == 0x00 && m[71] == 0x01
  {
    var m := InnerInput(RfcKey, CounterOne);
    assert m[64] == m[64..][0];
    assert m[65] == m[64..][1];
    assert m[66] == m[64..][2];
    assert m[67] == m[64..][3];
    assert m[68] == m[64..][4];
    assert m[69] == m[64..][5];
    assert m[70] == m[64..][6];
    assert m[71] == m[64..][7];
  }

  lemma Rfc1InnerLength()
    ensures |Sha1.Pad(InnerInput(RfcKey, CounterOne))| == 128
  {
    HmacInputLength(RfcKey, CounterOne);
  }

  lemma Rfc1InnerBytes0(p: seq<byte>)
    requires p == Sha1.Pad(InnerInput(RfcKey, CounterOne))
    ensures |p| == 128
    ensures p[0] == 0x07 && p[1] == 0x04 && p[2] == 0x05 && p[3] == 0x02 &&
      p[4] == 0x03 && p[5] == 0x00 && p[6] == 0x01 && p[7] == 0x0E &&
      p[8] == 0x0F && p[9] == 0x06 && p[10] == 0x07 && p[11] == 0x04 &&
      p[12] == 0x05 && p[13] == 0x02 && p[14] == 0x03 && p[15] == 0x00
  {
    var m := InnerInput(RfcKey, CounterOne);
    Rfc1InnerLength();
    Rfc1InnerInput0();
    Sha1.PadShape(m);
    assert p[0] == p[..72][0];
    assert p[1] == p[..72][1];
    assert p[2] == p[..72][2];
    assert p[3] == p[..72][3];
    assert p[4] == p[..72][4];
    assert p[5] == p[..72][5];
    assert p[6] == p[..72][6];
    assert p[7] == p[..72][7];
    assert p[8] == p[..72][8];
    assert p[9] == p[..72][9];
    assert p[10] == p[..72][10];
    assert p[11] == p[..72][11];
    assert p[12] == p[..72][12];
    assert p[13] == p[..72][13];
    assert p[14] == p[..72][14];
    assert p[15] == p[..72][15];
  }

  lemma Rfc1InnerBytes1(p: seq<byte>)
    requires p == Sha1.Pad(InnerInput(RfcKey, CounterOne))
    ensures |p| == 128
    ensures p[16] == 0x01 && p[17] == 0x0E && p[18] == 0x0F && p[19] == 0x06 &&
      p[20] == 0x36 && p[21] == 0x36 && p[22] == 0x36 && p[23] == 0x36 &&
      p[24] == 0x36 && p[25] == 0x36 && p[26] == 0x36 && p[27] == 0x36 &&
      p[28] == 0x36 && p[29] == 0x36 && p[30] == 0x36 && p[31] == 0x36
  {
    var m := InnerInput(RfcKey, CounterOne);
    Rfc1InnerLength();
    Rfc1InnerInput1();
    Sha1.PadShape(m);
    assert p[16] == p[..72][16];
    assert p[17] == p[..72][17];
    assert p[18] == p[..72][18];
    assert p[19] == p[..72][19];
    assert p[20] == p[..72][20];
    assert p[21] == p[..72][21];
    assert p[22] == p[..72][22];
    assert p[23] == p[..72][23];
    assert p[24] == p[..72][24];
    assert p[25] == p[..72][25];
    assert p[26] == p[..72][26];
    assert p[27] == p[..72][27];
    assert p[28] == p[..72][28];
    assert p[29] == p[..72][29];
    assert p[30] == p[..72][30];
    assert p[31] == p[..72][31];
  }

  lemma Rfc1InnerBytes2(p: seq<byte>)
    requires p == Sha1.Pad(InnerInput(RfcKey, CounterOne))
    ensures |p| == 128
    ensures p[32] == 0x36 && p[33] == 0x36 && p[34] == 0x36 && p[35] == 0x36 &&
      p[36] == 0x36 && p[37] == 0x36 && p[38] == 0x36 && p[39] == 0x36 &&
      p[40] == 0x36 && p[41] == 0x36 && p[42] == 0x36 && p[43] == 0x36 &&
      p[44] == 0x36 && p[45] == 0x36 && p[46] == 0x36 && p[47] == 0x36
  {
    var m := InnerInput(RfcKey, CounterOne);
    Rfc1InnerLength();
    Rfc1InnerInput2();
    Sha1.PadShape(m);
    assert p[32] == p[..72][32];
    assert p[33] == p[..72][33];
    assert p[34] == p[..72][34];
    assert p[35] == p[..72][35];
    assert p[36] == p[..72][36];
    assert p[37] == p[..72][37];
    assert p[38] == p[..72][38];
    assert p[39] == p[..72][39];
    assert p[40] == p[..72][40];
    assert p[41] == p[..72][41];
    assert p[42] == p[..72][42];
    assert p[43] == p[..72][43];
    assert p[44] == p[..72][44];
    assert p[45] == p[..72][45];
    assert p[46] == p[..72][46];
    assert p[47] == p[..72][47];
  }

  lemma Rfc1InnerBytes3(p: seq<byte>)
    requires p == Sha1.Pad(InnerInput(RfcKey, CounterOne))
    ensures |p| == 128
    ensures p[48] == 0x36 && p[49] == 0x36 && p[50] == 0x36 && p[51] == 0x36 &&
      p[52] == 0x36 && p[53] == 0x36 && p[54] == 0x36 && p[55] == 0x36 &&
      p[56] == 0x36 && p[57] == 0x36 && p[58] == 0x36 && p[59] == 0x36 &&
      p[60] == 0x36 && p[61] == 0x36 && p[62] == 0x36 && p[63] == 0x36
  {
    var m := InnerInput(RfcKey, CounterOne);
    Rfc1InnerLength();
    Rfc1InnerInput3();
    Sha1.PadShape(m);
    assert p[48] == p[..72][48];
    assert p[49] == p[..72][49];
    assert p[50] == p[..72][50];
    assert p[51] == p[..72][51];
    assert p[52] == p[..72][52];
    assert p[53] == p[..72][53];
    assert p[54] == p[..72][54];
    assert p[55] == p[..72][55];
    assert p[56] == p[..72][56];
    assert p[57] == p[..72][57];
    assert p[58] == p[..72][58];
    assert p[59] == p[..72][59];
    assert p[60] == p[..72][60];
    assert p[61] == p[..72][61];
    assert p[62] == p[..72][62];
    assert p[63] == p[..72][63];
  }

  lemma Rfc1InnerBytes4(p: seq<byte>)
    requires p == Sha1.Pad(InnerInput(RfcKey, CounterOne))
    ensures |p| == 128
    ensures p[64] == 0x00 && p[65] == 0x00 && p[66] == 0x00 && p[67] == 0x00 &&
      p[68] == 0x00 && p[69] == 0x00 && p[70] == 0x00 && p[71] == 0x01 &&
      p[72] == 0x80 && p[73] == 0x00 && p[74] == 0x00 && p[75] == 0x00 &&
      p[76] == 0x00 && p[77] == 0x00 && p[78] == 0x00 && p[79] == 0x00
  {
    var m := InnerInput(RfcKey, CounterOne);
    Rfc1InnerLength();
    Rfc1InnerInput4();
    Sha1.PadShape(m);
    assert p[64] == p[..72][64];
    assert p[65] == p[..72][65];
    assert p[66] == p[..72][66];
    assert p[67] == p[..72][67];
    assert p[68] == p[..72][68];
    assert p[69] == p[..72][69];
    assert p[70] == p[..72][70];
    assert p[71] == p[..72][71];
  }

  lemma Rfc1InnerBytes5(p: seq<byte>)
    requires p == Sha1.Pad(InnerInput(RfcKey, CounterOne))
    ensures |p| == 128
    ensures p[80] == 0x00 && p[81] == 0x00 && p[82] == 0x00 && p[83] == 0x00 &&
      p[84] == 0x00 && p[85] == 0x00 && p[86] == 0x00 && p[87] == 0x00 &&
      p[88] == 0x00 && p[89] == 0x00 && p[90] == 0x00 && p[91] == 0x00 &&
      p[92] == 0x00 && p[93] == 0x00 && p[94] == 0x00 && p[95] == 0x00
  {
    var m := InnerInput(RfcKey, CounterOne);
    Rfc1InnerLength();
    Sha1.PadShape(m);
  }

  lemma Rfc1InnerBytes6(p: seq<byte>)
    requires p == Sha1.Pad(InnerInput(RfcKey, CounterOne))
    ensures |p| == 128
    ensures p[96] == 0x00 && p[97] == 0x00 && p[98] == 0x00 && p[99] == 0x00 &&
      p[100] == 0x00 && p[101] == 0x00 && p[102] == 0x00 && p[103] == 0x00 &&
      p[104] == 0x00 && p[105] == 0x00 && p[106] == 0x00 && p[107] == 0x00 &&
      p[108] == 0x00 && p[109] == 0x00 && p[110] == 0x00 && p[111] == 0x00
  {
    var m := InnerInput(RfcKey, CounterOne);
    Rfc1InnerLength();
    Sha1.PadShape(m);
  }

  lemma Rfc1InnerBytes7(p: seq<byte>)
    requires p == Sha1.Pad(InnerInput(RfcKey, CounterOne))
    ensures |p| == 128
    ensures p[112] == 0x00 && p[113] == 0x00 && p[114] == 0x00 && p[115] == 0x00 &&
      p[116] == 0x00 && p[117] == 0x00 && p[118] == 0x00 && p[119] == 0x00 &&
      p[120] == 0x00 && p[121] == 0x00 && p[122] == 0x00 && p[123] == 0x00 &&
      p[124] == 0x00 && p[125] == 0x00 && p[126] == 0x02 && p[127] == 0x40
  {
    var m := InnerInput(RfcKey, CounterOne);
    Rfc1InnerLength();
    Sha1.PadShape(m);
    LengthField240();
    assert p[120] == p[120..][0];
    assert p[121] == p[120..][1];
    assert p[122] == p[120..][2];
    assert p[123] == p[120..][3];
    assert p[124] == p[120..][4];
    assert p[125] == p[120..][5];
    assert p[126] == p[120..][6];
    assert p[127] == p[120..][7];
  }

  lemma Rfc1InnerWords0(p: seq<byte>)
    requires |p| == 128
    requires p[0] == 0x07 && p[1] == 0x04 && p[2] == 0x05 && p[3] == 0x02 &&
      p[4] == 0x03 && p[5] == 0x00 && p[6] == 0x01 && p[7] == 0x0E &&
      p[8] == 0x0F && p[9] == 0x06 && p[10] == 0x07 && p[11] == 0x04 &&
      p[12] == 0x05 && p[13] == 0x02 && p[14] == 0x03 && p[15] == 0x00
    ensures var b := Split(p)[0].words;
      b[0] == 0x07040502 && b[1] == 0x0300010E && b[2] == 0x0F060704 && b[3] == 0x05020300
  {
    SplitWords(p, 0, 0);
    SplitWords(p, 0, 1);
    SplitWords(p, 0, 2);
    SplitWords(p, 0, 3);
  }

  lemma Rfc1InnerWords1(p: seq<byte>)
    requires |p| == 128
    requires p[16] == 0x01 && p[17] == 0x0E && p[18] == 0x0F && p[19] == 0x06 &&
      p[20] == 0x36 && p[21] == 0x36 && p[22] == 0x36 && p[23] == 0x36 &&
      p[24] == 0x36 && p[25] == 0x36 && p[26] == 0x36 && p[27] == 0x36 &&
      p[28] == 0x36 && p[29] == 0x36 && p[30] == 0x36 && p[31] == 0x36
    ensures var b := Split(p)[0].words;
      b[4] == 0x010E0F06 && b[5] == 0x36363636 && b[6] == 0x36363636 && b[7] == 0x36363636
  {
    SplitWords(p, 0, 4);
    SplitWords(p, 0, 5);
    SplitWords(p, 0, 6);
    SplitWords(p, 0, 7);
  }

  lemma Rfc1InnerWords2(p: seq<byte>)
    requires |p| == 128
    requires p[32] == 0x36 && p[33] == 0x36 && p[34] == 0x36 && p[35] == 0x36 &&
      p[36] == 0x36 && p[37] == 0x36 && p[38] == 0x36 && p[39] == 0x36 &&
      p[40] == 0x36 && p[41] == 0x36 && p[42] == 0x36 && p[43] == 0x36 &&
      p[44] == 0x36 && p[45] == 0x36 && p[46] == 0x36 && p[47] == 0x36
    ensures var b := Split(p)[0].words;
      b[8] == 0x36363636 && b[9] == 0x36363636 && b[10] == 0x36363636 && b[11] == 0x36363636
  {
    SplitWords(p, 0, 8);
    SplitWords(p, 0, 9);
    SplitWords(p, 0, 10);
    SplitWords(p, 0, 11);
  }

  lemma Rfc1InnerWords3(p: seq<byte>)
    requires |p| == 128
    requires p[48] == 0x36 && p[49] == 0x36 && p[50] == 0x36 && p[51] == 0x36 &&
      p[52] == 0x36 && p[53] == 0x36 && p[54] == 0x36 && p[55] == 0x36 &&
      p[56] == 0x36 && p[57] == 0x36 && p[58] == 0x36 && p[59] == 0x36 &&
      p[60] == 0x36 && p[61] == 0x36 && p[62] == 0x36 && p[63] == 0x36
    ensures var b := Split(p)[0].words;
      b[12] == 0x36363636 && b[13] == 0x36363636 && b[14] == 0x36363636 && b[15] == 0x36363636
  {
    SplitWords(p, 0, 12);
    SplitWords(p, 0, 13);
    SplitWords(p, 0, 14);
    SplitWords(p, 0, 15);
  }

  lemma Rfc1InnerWords4(p: seq<byte>)
    requires |p| == 128
    requires p[64] == 0x00 && p[65] == 0x00 && p[66] == 0x00 && p[67] == 0x00 &&
      p[68] == 0x00 && p[69] == 0x00 && p[70] == 0x00 && p[71] == 0x01 &&
      p[72] == 0x80 && p[73] == 0x00 && p[74] == 0x00 && p[75] == 0x00 &&
      p[76] == 0x00 && p[77] == 0x00 && p[78] == 0x00 && p[79] == 0x00
    ensures var b := Split(p)[1].words;
      b[0] == 0x00000000 && b[1] == 0x00000001 && b[2] == 0x80000000 && b[3] == 0x00000000
  {
    SplitWords(p, 1, 0);
    SplitWords(p, 1, 1);
    SplitWords(p, 1, 2);
    SplitWords(p, 1, 3);
  }

  lemma Rfc1InnerWords5(p: seq<byte>)
    requires |p| == 128
    requires p[80] == 0x00 && p[81] == 0x00 && p[82] == 0x00 && p[83] == 0x00 &&
      p[84] == 0x00 && p[85] == 0x00 && p[86] == 0x00 && p[87] == 0x00 &&
      p[88] == 0x00 && p[89] == 0x00 && p[90] == 0x00 && p[91] == 0x00 &&
      p[92] == 0x00 && p[93] == 0x00 && p[94] == 0x00 && p[95] == 0x00
    ensures var b := Split(p)[1].words;
      b[4] == 0x00000000 && b[5] == 0x00000000 && b[6] == 0x00000000 && b[7] == 0x00000000
  {
    SplitWords(p, 1, 4);
    SplitWords(p, 1, 5);
    SplitWords(p, 1, 6);
    SplitWords(p, 1, 7);
  }

  lemma Rfc1InnerWords6(p: seq<byte>)
    requires |p| == 128
    requires p[96] == 0x00 && p[97] == 0x00 && p[98] == 0x00 && p[99] == 0x00 &&
      p[100] == 0x00 && p[101] == 0x00 && p[102] == 0x00 && p[103] == 0x00 &&
      p[104] == 0x00 && p[105] == 0x00 && p[106] == 0x00 && p[107] == 0x00 &&
      p[108] == 0x00 && p[109] == 0x00 && p[110] == 0x00 && p[111] == 0x00
    ensures var b := Split(p)[1].words;
      b[8] == 0x00000000 && b[9] == 0x00000000 && b[10] == 0x00000000 && b[11] == 0x00000000
  {
    SplitWords(p, 1, 8);
    SplitWords(p, 1, 9);
    SplitWords(p, 1, 10);
    SplitWords(p, 1, 11);
  }

  lemma Rfc1InnerWords7(p: seq<byte>)
    requires |p| == 128
    requires p[112] == 0x00 && p[113] == 0x00 && p[114] == 0x00 && p[115] == 0x00 &&
      p[116] == 0x00 && p[117] == 0x00 && p[118] == 0x00 && p[119] == 0x00 &&
      p[120] == 0x00 && p[121] == 0x00 && p[122] == 0x00 && p[123] == 0x00 &&
      p[124] == 0x00 && p[125] == 0x00 && p[126] == 0x02 && p[127] == 0x40
    ensures var b := Split(p)[1].words;
      b[12] == 0x00000000 && b[13] == 0x00000000 && b[14] == 0x00000000 && b[15] == 0x00000240
  {
    SplitWords(p, 1, 12);
    SplitWords(p, 1, 13);
    SplitWords(p, 1, 14);
    SplitWords(p, 1, 15);
  }

  lemma Rfc1InnerBlock0(p: seq<byte>)
    requires p == Sha1.Pad(InnerInput(RfcKey, CounterOne))
    requires |p| == 128
    ensures var b := Split(p)[0].words;
      b[0] == 0x07040502 && b[1] == 0x0300010E && b[2] == 0x0F060704 && b[3] == 0x05020300 &&
      b[4] == 0x010E0F06 && b[5] == 0x36363636 && b[6] == 0x36363636 && b[7] == 0x36363636 &&
      b[8] == 0x36363636 && b[9] == 0x36363636 && b[10] == 0x36363636 && b[11] == 0x36363636 &&
      b[12] == 0x36363636 && b[13] == 0x36363636 && b[14] == 0x36363636 && b[15] == 0x36363636
  {
    Rfc1InnerBytes0(p);
    Rfc1InnerWords0(p);
    Rfc1InnerBytes1(p);
    Rfc1InnerWords1(p);
    Rfc1InnerBytes2(p);
    Rfc1InnerWords2(p);
    Rfc1InnerBytes3(p);
    Rfc1InnerWords3(p);
  }

  lemma Rfc1InnerBlock1(p: seq<byte>)
    requires p == Sha1.Pad(InnerInput(RfcKey, CounterOne))
    requires |p| == 128
    ensures var b := Split(p)[1].words;
      b[0] == 0x00000000 && b[1] == 0x00000001 && b[2] == 0x80000000 && b[3] == 0x00000000 &&
      b[4] == 0x00000000 && b[5] == 0x00000000 && b[6] == 0x00000000 && b[7] == 0x00000000 &&
      b[8] == 0x00000000 && b[9] == 0x00000000 && b[10] == 0x00000000 && b[11] == 0x00000000 &&
      b[12] == 0x00000000 && b[13] == 0x00000000 && b[14] == 0x00000000 && b[15] == 0x00000240
  {
    Rfc1InnerBytes4(p);
    Rfc1InnerWords4(p);
    Rfc1InnerBytes5(p);
    Rfc1InnerWords5(p);
    Rfc1InnerBytes6(p);
    Rfc1InnerWords6(p);
    Rfc1InnerBytes7(p);
    Rfc1InnerWords7(p);
  }

  lemma Rfc1Inner0Schedule0(w: seq<word>)
    requires |w| == 80 && forall i :: 16 <= i < 80 ==> Follows(w, i)
    requires w[0] == 0x07040502 && w[1] == 0x0300010E && w[2] == 0x0F060704 && w[3] == 0x05020300 &&
      w[4] == 0x010E0F06 && w[5] == 0x36363636 && w[6] == 0x36363636 && w[7] == 0x36363636 &&
      w[8] == 0x36363636 && w[9] == 0x36363636 && w[10] == 0x36363636 && w[11] == 0x36363636 &&
      w[12] == 0x36363636 && w[13] == 0x36363636 && w[14] == 0x36363636 && w[15] == 0x36363636
    ensures w[16] == 0x1004040C && w[17] == 0x0C04041C && w[18] == 0x1C101004 && w[19] == 0x2A0C0E18 &&
      w[20] == 0x1A141634 && w[21] == 0x544C4C64 && w[22] == 0x3874705C && w[23] == 0x58444004 &&
      w[24] == 0x889090D0 && w[25] == 0x68E0E880 && w[26] == 0x88A8A000 && w[27] == 0x45393D91 &&
      w[28] == 0xE5E9FD68 && w[29] == 0xB9C9D8C9 && w[30] == 0xB6FEFFEE && w[31] == 0x0F3F1E8D
  {
    assert Follows(w, 16);
    assert Follows(w, 17);
    assert Follows(w, 18);
    assert Follows(w, 19);
    assert Follows(w, 20);
    assert Follows(w, 21);
    assert Follows(w, 22);
    assert Follows(w, 23);
    assert Follows(w, 24);
    assert Follows(w, 25);
    assert Follows(w, 26);
    assert Follows(w, 27);
    assert Follows(w, 28);
    assert Follows(w, 29);
    assert Follows(w, 30);
    assert Follows(w, 31);
  }

  lemma Rfc1Inner0Schedule1(w: seq<word>)
    requires |w| == 80 && forall i :: 16 <= i < 80 ==> Follows(w, i)
    requires w[16] == 0x1004040C && w[17] == 0x0C04041C && w[18] == 0x1C101004 && w[19] == 0x2A0C0E18 &&
      w[20] == 0x1A141634 && w[21] == 0x544C4C64 && w[22] == 0x3874705C && w[23] == 0x58444004 &&
      w[24] == 0x889090D0 && w[25] == 0x68E0E880 && w[26] == 0x88A8A000 && w[27] == 0x45393D91 &&
      w[28] == 0xE5E9FD68 && w[29] == 0xB9C9D8C9 && w[30] == 0xB6FEFFEE && w[31] == 0x0F3F1E8D
    ensures w[32] == 0x7A9AB822 && w[33] == 0xF02C3AD5 && w[34] == 0x0327717B && w[35] == 0x83C78F9E &&
      w[36] == 0x6F4B43AA && w[37] == 0x6DCD4BA5 && w[38] == 0x0BBB21F9 && w[39] == 0xA1A1EB46 &&
      w[40] == 0x2EDF86AE && w[41] == 0xAC9D9C7B && w[42] == 0x9F8F8EAB && w[43] == 0xA3D1D8D0 &&
      w[44] == 0x2183BAAF && w[45] == 0x89680694 && w[46] == 0xC81D7DCA && w[47] == 0xFE62EB62
  {
    assert Follows(w, 32);
    assert Follows(w, 33);
    assert Follows(w, 34);
    assert Follows(w, 35);
    assert Follows(w, 36);
    assert Follows(w, 37);
    assert Follows(w, 38);
    assert Follows(w, 39);
    assert Follows(w, 40);
    assert Follows(w, 41);
    assert Follows(w, 42);
    assert Follows(w, 43);
    assert Follows(w, 44);
    assert Follows(w, 45);
    assert Follows(w, 46);
    assert Follows(w, 47);
  }

  lemma Rfc1Inner0Schedule2(w: seq<word>)
    requires |w| == 80 && forall i :: 16 <= i < 80 ==> Follows(w, i)
    requires w[32] == 0x7A9AB822 && w[33] == 0xF02C3AD5 && w[34] == 0x0327717B && w[35] == 0x83C78F9E &&
      w[36] == 0x6F4B43AA && w[37] == 0x6DCD4BA5 && w[38] == 0x0BBB21F9 && w[39] == 0xA1A1EB46 &&
      w[40] == 0x2EDF86AE && w[41] == 0xAC9D9C7B && w[42] == 0x9F8F8EAB && w[43] == 0xA3D1D8D0 &&
      w[44] == 0x2183BAAF && w[45] == 0x89680694 && w[46] == 0xC81D7DCA && w[47] == 0xFE62EB62
    ensures w[48] == 0xBC1492C7 && w[49] == 0x2ED6A9F4 && w[50] == 0x1B02AE30 && w[51] == 0xE39F1C59 &&
      w[52] == 0xD74AE210 && w[53] == 0xBC0C108E && w[54] == 0x1DCD8D88 && w[55] == 0x4828FC9E &&
      w[56] == 0x62911499 && w[57] == 0x78AEC1AE && w[58] == 0xDA4CCD55 && w[59] == 0x576FAD09 &&
      w[60] == 0x8CF5C9B6 && w[61] == 0x2294605A && w[62] == 0x7D579F18 && w[63] == 0x28D2EF7C
  {
    assert Follows(w, 48);
    assert Follows(w, 49);
    assert Follows(w, 50);
    assert Follows(w, 51);
    assert Follows(w, 52);
    assert Follows(w, 53);
    assert Follows(w, 54);
    assert Follows(w, 55);
    assert Follows(w, 56);
    assert Follows(w, 57);
    assert Follows(w, 58);
    assert Follows(w, 59);
    assert Follows(w, 60);
    assert Follows(w, 61);
    assert Follows(w, 62);
    assert Follows(w, 63);
  }

  lemma Rfc1Inner0Schedule3(w: seq<word>)
    requires |w| == 80 && forall i :: 16 <= i < 80 ==> Follows(w, i)
    requires w[48] == 0xBC1492C7 && w[49] == 0x2ED6A9F4 && w[50] == 0x1B02AE30 && w[51] == 0xE39F1C59 &&
      w[52] == 0xD74AE210 && w[53] == 0xBC0C108E && w[54] == 0x1DCD8D88 && w[55] == 0x4828FC9E &&
      w[56] == 0x62911499 && w[57] == 0x78AEC1AE && w[58] == 0xDA4CCD55 && w[59] == 0x576FAD09 &&
      w[60] == 0x8CF5C9B6 && w[61] == 0x2294605A && w[62] == 0x7D579F18 && w[63] == 0x28D2EF7C
    ensures w[64] == 0xCE269069 && w[65] == 0x9161D637 && w[66] == 0x7DACDC12 && w[67] == 0x8DB4636F &&
      w[68] == 0xAE26E033 && w[69] == 0x5638A0B1 && w[70] == 0x1F7ECACD && w[71] == 0x6CE464FF &&
      w[72] == 0x4187D228 && w[73] == 0x43BCE0BB && w[74] == 0x8FE3781C && w[75] == 0x7390F829 &&
      w[76] == 0x3870AC4C && w[77] == 0xA73AAF17 && w[78] == 0xBF3E7B2B && w[79] == 0xDA4FE3F1
  {
    assert Follows(w, 64);
    assert Follows(w, 65);
    assert Follows(w, 66);
    assert Follows(w, 67);
    assert Follows(w, 68);
    assert Follows(w, 69);
    assert Follows(w, 70);
    assert Follows(w, 71);
    assert Follows(w, 72);
    assert Follows(w, 73);
    assert Follows(w, 74);
    assert Follows(w, 75);
    assert Follows(w, 76);
    assert Follows(w, 77);
    assert Follows(w, 78);
    assert Follows(w, 79);
  }

  lemma Rfc1Inner0Rounds0(w: seq<word>)
    requires |w| == 80
    requires w[0] == 0x07040502 && w[1] == 0x0300010E && w[2] == 0x0F060704 && w[3] == 0x05020300 &&
      w[4] == 0x010E0F06 && w[5] == 0x36363636 && w[6] == 0x36363636 && w[7] == 0x36363636 &&
      w[8] == 0x36363636 && w[9] == 0x36363636 && w[10] == 0x36363636 && w[11] == 0x36363636 &&
      w[12] == 0x36363636 && w[13] == 0x36363636 && w[14] == 0x36363636 && w[15] == 0x36363636 &&
      w[16] == 0x1004040C && w[17] == 0x0C04041C && w[18] == 0x1C101004 && w[19] == 0x2A0C0E18
    requires Compress(IV, w, 0) == Regs(0x67452301, 0xEFCDAB89, 0x98BADCFE, 0x10325476, 0xC3D2E1F0)
    ensures Compress(IV, w, 20) == Regs(0xF85A57FC, 0xAC591E50, 0xEFBFCF47, 0x64CCAF35, 0x3694E1FA)
  {
    assert Round(Regs(0x67452301, 0xEFCDAB89, 0x98BADCFE, 0x10325476, 0xC3D2E1F0), 0x07040502, 0) == Regs(0xA6B89DB5, 0x67452301, 0x7BF36AE2, 0x98BADCFE, 0x10325476);
    assert Compress(IV, w, 1) == Regs(0xA6B89DB5, 0x67452301, 0x7BF36AE2, 0x98BADCFE, 0x10325476);
    assert Round(Regs(0xA6B89DB5, 0x67452301, 0x7BF36AE2, 0x98BADCFE, 0x10325476), 0x0300010E, 1) == Regs(0x40C484CF, 0xA6B89DB5, 0x59D148C0, 0x7BF36AE2, 0x98BADCFE);
    assert Compress(IV, w, 2) == Regs(0x40C484CF, 0xA6B89DB5, 0x59D148C0, 0x7BF36AE2, 0x98BADCFE);
    assert Round(Regs(0x40C484CF, 0xA6B89DB5, 0x59D148C0, 0x7BF36AE2, 0x98BADCFE), 0x0F060704, 2) == Regs(0x74A76245, 0x40C484CF, 0x69AE276D, 0x59D148C0, 0x7BF36AE2);
    assert Compress(IV, w, 3) == Regs(0x74A76245, 0x40C484CF, 0x69AE276D, 0x59D148C0, 0x7BF36AE2);
    assert Round(Regs(0x74A76245, 0x40C484CF, 0x69AE276D, 0x59D148C0, 0x7BF36AE2), 0x05020300, 3) == Regs(0xC9F97C76, 0x74A76245, 0xD0312133, 0x69AE276D, 0x59D148C0);
    assert Compress(IV, w, 4) == Regs(0xC9F97C76, 0x74A76245, 0xD0312133, 0x69AE276D, 0x59D148C0);
    assert Round(Regs(0xC9F97C76, 0x74A76245, 0xD0312133, 0x69AE276D, 0x59D148C0), 0x010E0F06, 4) == Regs(0x4DBA8561, 0xC9F97C76, 0x5D29D891, 0xD0312133, 0x69AE276D);
    assert Compress(IV, w, 5) == Regs(0x4DBA8561, 0xC9F97C76, 0x5D29D891, 0xD0312133, 0x69AE276D);
    assert Round(Regs(0x4DBA8561, 0xC9F97C76, 0x5D29D891, 0xD0312133, 0x69AE276D), 0x36363636, 5) == Regs(0x0AE0DC76, 0x4DBA8561, 0xB27E5F1D, 0x5D29D891, 0xD0312133);
    assert Compress(IV, w, 6) == Regs(0x0AE0DC76, 0x4DBA8561, 0xB27E5F1D, 0x5D29D891, 0xD0312133);
    assert Round(Regs(0x0AE0DC76, 0x4DBA8561, 0xB27E5F1D, 0x5D29D891, 0xD0312133), 0x36363636, 6) == Regs(0xCD40BD54, 0x0AE0DC76, 0x536EA158, 0xB27E5F1D, 0x5D29D891);
    assert Compress(IV, w, 7) == Regs(0xCD40BD54, 0x0AE0DC76, 0x536EA158, 0xB27E5F1D, 0x5D29D891);
    assert Round(Regs(0xCD40BD54, 0x0AE0DC76, 0x536EA158, 0xB27E5F1D, 0x5D29D891), 0x36363636, 7) == Regs(0x4878B652, 0xCD40BD54, 0x82B8371D, 0x536EA158, 0xB27E5F1D);
    assert Compress(IV, w, 8) == Regs(0x4878B652, 0xCD40BD54, 0x82B8371D, 0x536EA158, 0xB27E5F1D);
    assert Round(Regs(0x4878B652, 0xCD40BD54, 0x82B8371D, 0x536EA158, 0xB27E5F1D), 0x36363636, 8) == Regs(0xE47C0E51, 0x4878B652, 0x33502F55, 0x82B8371D, 0x536EA158);
    assert Compress(IV, w, 9) == Regs(0xE47C0E51, 0x4878B652, 0x33502F55, 0x82B8371D, 0x536EA158);
    assert Round(Regs(0xE47C0E51, 0x4878B652, 0x33502F55, 0x82B8371D, 0x536EA158), 0x36363636, 9) == Regs(0xF67942C0, 0xE47C0E51, 0x921E2D94, 0x33502F55, 0x82B8371D);
    assert Compress(IV, w, 10) == Regs(0xF67942C0, 0xE47C0E51, 0x921E2D94, 0x33502F55, 0x82B8371D);
    assert Round(Regs(0xF67942C0, 0xE47C0E51, 0x921E2D94, 0x33502F55, 0x82B8371D), 0x36363636, 10) == Regs(0x75B56C1E, 0xF67942C0, 0x791F0394, 0x921E2D94, 0x33502F55);
    assert Compress(IV, w, 11) == Regs(0x75B56C1E, 0xF67942C0, 0x791F0394, 0x921E2D94, 0x33502F55);
    assert Round(Regs(0x75B56C1E, 0xF67942C0, 0x791F0394, 0x921E2D94, 0x33502F55), 0x36363636, 11) == Regs(0xEAD59286, 0x75B56C1E, 0x3D9E50B0, 0x791F0394, 0x921E2D94);
    assert Compress(IV, w, 12) == Regs(0xEAD59286, 0x75B56C1E, 0x3D9E50B0, 0x791F0394, 0x921E2D94);
    assert Round(Regs(0xEAD59286, 0x75B56C1E, 0x3D9E50B0, 0x791F0394, 0x921E2D94), 0x36363636, 12) == Regs(0xBB2771D0, 0xEAD59286, 0x9D6D5B07, 0x3D9E50B0, 0x791F0394);
    assert Compress(IV, w, 13) == Regs(0xBB2771D0, 0xEAD59286, 0x9D6D5B07, 0x3D9E50B0, 0x791F0394);
    assert Round(Regs(0xBB2771D0, 0xEAD59286, 0x9D6D5B07, 0x3D9E50B0, 0x791F0394), 0x36363636, 13) == Regs(0x0C153FB0, 0xBB2771D0, 0xBAB564A1, 0x9D6D5B07, 0x3D9E50B0);
    assert Compress(IV, w, 14) == Regs(0x0C153FB0, 0xBB2771D0, 0xBAB564A1, 0x9D6D5B07, 0x3D9E50B0);
    assert Round(Regs(0x0C153FB0, 0xBB2771D0, 0xBAB564A1, 0x9D6D5B07, 0x3D9E50B0), 0x36363636, 14) == Regs(0x0F6C6107, 0x0C153FB0, 0x2EC9DC74, 0xBAB564A1, 0x9D6D5B07);
    assert Compress(IV, w, 15) == Regs(0x0F6C6107, 0x0C153FB0, 0x2EC9DC74, 0xBAB564A1, 0x9D6D5B07);
    assert Round(Regs(0x0F6C6107, 0x0C153FB0, 0x2EC9DC74, 0xBAB564A1, 0x9D6D5B07), 0x36363636, 15) == Regs(0xDA5387E8, 0x0F6C6107, 0x03054FEC, 0x2EC9DC74, 0xBAB564A1);
    assert Compress(IV, w, 16) == Regs(0xDA5387E8, 0x0F6C6107, 0x03054FEC, 0x2EC9DC74, 0xBAB564A1);
    assert Round(Regs(0xDA5387E8, 0x0F6C6107, 0x03054FEC, 0x2EC9DC74, 0xBAB564A1), 0x1004040C, 16) == Regs(0x9332BCD5, 0xDA5387E8, 0xC3DB1841, 0x03054FEC, 0x2EC9DC74);
    assert Compress(IV, w, 17) == Regs(0x9332BCD5, 0xDA5387E8, 0xC3DB1841, 0x03054FEC, 0x2EC9DC74);
    assert Round(Regs(0x9332BCD5, 0xDA5387E8, 0xC3DB1841, 0x03054FEC, 0x2EC9DC74), 0x0C04041C, 17) == Regs(0xBEFF3D1F, 0x9332BCD5, 0x3694E1FA, 0xC3DB1841, 0x03054FEC);
    assert Compress(IV, w, 18) == Regs(0xBEFF3D1F, 0x9332BCD5, 0x3694E1FA, 0xC3DB1841, 0x03054FEC);
    assert Round(Regs(0xBEFF3D1F, 0x9332BCD5, 0x3694E1FA, 0xC3DB1841, 0x03054FEC), 0x1C101004, 18) == Regs(0xAC591E50, 0xBEFF3D1F, 0x64CCAF35, 0x3694E1FA, 0xC3DB1841);
    assert Compress(IV, w, 19) == Regs(0xAC591E50, 0xBEFF3D1F, 0x64CCAF35, 0x3694E1FA, 0xC3DB1841);
    assert Round(Regs(0xAC591E50, 0xBEFF3D1F, 0x64CCAF35, 0x3694E1FA, 0xC3DB1841), 0x2A0C0E18, 19) == Regs(0xF85A57FC, 0xAC591E50, 0xEFBFCF47, 0x64CCAF35, 0x3694E1FA);
    assert Compress(IV, w, 20) == Regs(0xF85A57FC, 0xAC591E50, 0xEFBFCF47, 0x64CCAF35, 0x3694E1FA);
  }

  lemma Rfc1Inner0Rounds1(w: seq<word>)
    requires |w| == 80
    requires w[20] == 0x1A141634 && w[21] == 0x544C4C64 && w[22] == 0x3874705C && w[23] == 0x58444004 &&
      w[24] == 0x889090D0 && w[25] == 0x68E0E880 && w[26] == 0x88A8A000 && w[27] == 0x45393D91 &&
      w[28] == 0xE5E9FD68 && w[29] == 0xB9C9D8C9 && w[30] == 0xB6FEFFEE && w[31] == 0x0F3F1E8D &&
      w[32] == 0x7A9AB822 && w[33] == 0xF02C3AD5 && w[34] == 0x0327717B && w[35] == 0x83C78F9E &&
      w[36] == 0x6F4B43AA && w[37] == 0x6DCD4BA5 && w[38] == 0x0BBB21F9 && w[39] == 0xA1A1EB46
    requires Compress(IV, w, 20) == Regs(0xF85A57FC, 0xAC591E50, 0xEFBFCF47, 0x64CCAF35, 0x3694E1FA)
    ensures Compress(IV, w, 40) == Regs(0x0EC3EEBD, 0x519EDDBB, 0xFACDC1A7, 0xD89B4586, 0x71D10BCB)
  {
    assert Round(Regs(0xF85A57FC, 0xAC591E50, 0xEFBFCF47, 0x64CCAF35, 0x3694E1FA), 0x1A141634, 20) == Regs(0xF1F86190, 0xF85A57FC, 0x2B164794, 0xEFBFCF47, 0x64CCAF35);
    assert Compress(IV, w, 21) == Regs(0xF1F86190, 0xF85A57FC, 0x2B164794, 0xEFBFCF47, 0x64CCAF35);
    assert Round(Regs(0xF1F86190, 0xF85A57FC, 0x2B164794, 0xEFBFCF47, 0x64CCAF35), 0x544C4C64, 21) == Regs(0xA3F2F887, 0xF1F86190, 0x3E1695FF, 0x2B164794, 0xEFBFCF47);
    assert Compress(IV, w, 22) == Regs(0xA3F2F887, 0xF1F86190, 0x3E1695FF, 0x2B164794, 0xEFBFCF47);
    assert Round(Regs(0xA3F2F887, 0xF1F86190, 0x3E1695FF, 0x2B164794, 0xEFBFCF47), 0x3874705C, 22) == Regs(0xFA65F033, 0xA3F2F887, 0x3C7E1864, 0x3E1695FF, 0x2B164794);
    assert Compress(IV, w, 23) == Regs(0xFA65F033, 0xA3F2F887, 0x3C7E1864, 0x3E1695FF, 0x2B164794);
    assert Round(Regs(0xFA65F033, 0xA3F2F887, 0x3C7E1864, 0x3E1695FF, 0x2B164794), 0x58444004, 23) == Regs(0xE08CEED4, 0xFA65F033, 0xE8FCBE21, 0x3C7E1864, 0x3E1695FF);
    assert Compress(IV, w, 24) == Regs(0xE08CEED4, 0xFA65F033, 0xE8FCBE21, 0x3C7E1864, 0x3E1695FF);
    assert Round(Regs(0xE08CEED4, 0xFA65F033, 0xE8FCBE21, 0x3C7E1864, 0x3E1695FF), 0x889090D0, 24) == Regs(0x76064382, 0xE08CEED4, 0xFE997C0C, 0xE8FCBE21, 0x3C7E1864);
    assert Compress(IV, w, 25) == Regs(0x76064382, 0xE08CEED4, 0xFE997C0C, 0xE8FCBE21, 0x3C7E1864);
    assert Round(Regs(0x76064382, 0xE08CEED4, 0xFE997C0C, 0xE8FCBE21, 0x3C7E1864), 0x68E0E880, 25) == Regs(0xCBEA89CC, 0x76064382, 0x38233BB5, 0xFE997C0C, 0xE8FCBE21);
    assert Compress(IV, w, 26) == Regs(0xCBEA89CC, 0x76064382, 0x38233BB5, 0xFE997C0C, 0xE8FCBE21);
    assert Round(Regs(0xCBEA89CC, 0x76064382, 0x38233BB5, 0xFE997C0C, 0xE8FCBE21), 0x88A8A000, 26) == Regs(0x0E8C8796, 0xCBEA89CC, 0x9D8190E0, 0x38233BB5, 0xFE997C0C);
    assert Compress(IV, w, 27) == Regs(0x0E8C8796, 0xCBEA89CC, 0x9D8190E0, 0x38233BB5, 0xFE997C0C);
    assert Round(Regs(0x0E8C8796, 0xCBEA89CC, 0x9D8190E0, 0x38233BB5, 0xFE997C0C), 0x45393D91, 27) == Regs(0xF285BA98, 0x0E8C8796, 0x32FAA273, 0x9D8190E0, 0x38233BB5);
    assert Compress(IV, w, 28) == Regs(0xF285BA98, 0x0E8C8796, 0x32FAA273, 0x9D8190E0, 0x38233BB5);
    assert Round(Regs(0xF285BA98, 0x0E8C8796, 0x32FAA273, 0x9D8190E0, 0x38233BB5), 0xE5E9FD68, 28) == Regs(0x7F962CE1, 0xF285BA98, 0x83A321E5, 0x32FAA273, 0x9D8190E0);
    assert Compress(IV, w, 29) == Regs(0x7F962CE1, 0xF285BA98, 0x83A321E5, 0x32FAA273, 0x9D8190E0);
    assert Round(Regs(0x7F962CE1, 0xF285BA98, 0x83A321E5, 0x32FAA273, 0x9D8190E0), 0xB9C9D8C9, 29) == Regs(0xFCC72A87, 0x7F962CE1, 0x3CA16EA6, 0x83A321E5, 0x32FAA273);
    assert Compress(IV, w, 30) == Regs(0xFCC72A87, 0x7F962CE1, 0x3CA16EA6, 0x83A321E5, 0x32FAA273);
    assert Round(Regs(0xFCC72A87, 0x7F962CE1, 0x3CA16EA6, 0x83A321E5, 0x32FAA273), 0xB6FEFFEE, 30) == Regs(0xB24D42A3, 0xFCC72A87, 0x5FE58B38, 0x3CA16EA6, 0x83A321E5);
    assert Compress(IV, w, 31) == Regs(0xB24D42A3, 0xFCC72A87, 0x5FE58B38, 0x3CA16EA6, 0x83A321E5);
    assert Round(Regs(0xB24D42A3, 0xFCC72A87, 0x5FE58B38, 0x3CA16EA6, 0x83A321E5), 0x0F3F1E8D, 31) == Regs(0xEAE84FA2, 0xB24D42A3, 0xFF31CAA1, 0x5FE58B38, 0x3CA16EA6);
    assert Compress(IV, w, 32) == Regs(0xEAE84FA2, 0xB24D42A3, 0xFF31CAA1, 0x5FE58B38, 0x3CA16EA6);
    assert Round(Regs(0xEAE84FA2, 0xB24D42A3, 0xFF31CAA1, 0x5FE58B38, 0x3CA16EA6), 0x7A9AB822, 32) == Regs(0x95B90A00, 0xEAE84FA2, 0xEC9350A8, 0xFF31CAA1, 0x5FE58B38);
    assert Compress(IV, w, 33) == Regs(0x95B90A00, 0xEAE84FA2, 0xEC9350A8, 0xFF31CAA1, 0x5FE58B38);
    assert Round(Regs(0x95B90A00, 0xEAE84FA2, 0xEC9350A8, 0xFF31CAA1, 0x5FE58B38), 0xF02C3AD5, 33) == Regs(0x6F57C76B, 0x95B90A00, 0xBABA13E8, 0xEC9350A8, 0xFF31CAA1);
    assert Compress(IV, w, 34) == Regs(0x6F57C76B, 0x95B90A00, 0xBABA13E8, 0xEC9350A8, 0xFF31CAA1);
    assert Round(Regs(0x6F57C76B, 0x95B90A00, 0xBABA13E8, 0xEC9350A8, 0xFF31CAA1), 0x0327717B, 34) == Regs(0x1FBC5E6A, 0x6F57C76B, 0x256E4280, 0xBABA13E8, 0xEC9350A8);
    assert Compress(IV, w, 35) == Regs(0x1FBC5E6A, 0x6F57C76B, 0x256E4280, 0xBABA13E8, 0xEC9350A8);
    assert Round(Regs(0x1FBC5E6A, 0x6F57C76B, 0x256E4280, 0xBABA13E8, 0xEC9350A8), 0x83C78F9E, 35) == Regs(0xC7442F2D, 0x1FBC5E6A, 0xDBD5F1DA, 0x256E4280, 0xBABA13E8);
    assert Compress(IV, w, 36) == Regs(0xC7442F2D, 0x1FBC5E6A, 0xDBD5F1DA, 0x256E4280, 0xBABA13E8);
    assert Round(Regs(0xC7442F2D, 0x1FBC5E6A, 0xDBD5F1DA, 0x256E4280, 0xBABA13E8), 0x6F4B43AA, 36) == Regs(0x626D161B, 0xC7442F2D, 0x87EF179A, 0xDBD5F1DA, 0x256E4280);
    assert Compress(IV, w, 37) == Regs(0x626D161B, 0xC7442F2D, 0x87EF179A, 0xDBD5F1DA, 0x256E4280);
    assert Round(Regs(0x626D161B, 0xC7442F2D, 0x87EF179A, 0xDBD5F1DA, 0x256E4280), 0x6DCD4BA5, 37) == Regs(0xEB37069F, 0x626D161B, 0x71D10BCB, 0x87EF179A, 0xDBD5F1DA);
    assert Compress(IV, w, 38) == Regs(0xEB37069F, 0x626D161B, 0x71D10BCB, 0x87EF179A, 0xDBD5F1DA);
    assert Round(Regs(0xEB37069F, 0x626D161B, 0x71D10BCB, 0x87EF179A, 0xDBD5F1DA), 0x0BBB21F9, 38) == Regs(0x519EDDBB, 0xEB37069F, 0xD89B4586, 0x71D10BCB, 0x87EF179A);
    assert Compress(IV, w, 39) == Regs(0x519EDDBB, 0xEB37069F, 0xD89B4586, 0x71D10BCB, 0x87EF179A);
    assert Round(Regs(0x519EDDBB, 0xEB37069F, 0xD89B4586, 0x71D10BCB, 0x87EF179A), 0xA1A1EB46, 39) == Regs(0x0EC3EEBD, 0x519EDDBB, 0xFACDC1A7, 0xD89B4586, 0x71D10BCB);
    assert Compress(IV, w, 40) == Regs(0x0EC3EEBD, 0x519EDDBB, 0xFACDC1A7, 0xD89B4586, 0x71D10BCB);
  }

  lemma Rfc1Inner0Rounds2(w: seq<word>)
    requires |w| == 80
    requires w[40] == 0x2EDF86AE && w[41] == 0xAC9D9C7B && w[42] == 0x9F8F8EAB && w[43] == 0xA3D1D8D0 &&
      w[44] == 0x2183BAAF && w[45] == 0x89680694 && w[46] == 0xC81D7DCA && w[47] == 0xFE62EB62 &&
      w[48] == 0xBC1492C7 && w[49] == 0x2ED6A9F4 && w[50] == 0x1B02AE30 && w[51] == 0xE39F1C59 &&
      w[52] == 0xD74AE210 && w[53] == 0xBC0C108E && w[54] == 0x1DCD8D88 && w[55] == 0x4828FC9E &&
      w[56] == 0x62911499 && w[57] == 0x78AEC1AE && w[58] == 0xDA4CCD55 && w[59] == 0x576FAD09
    requires Compress(IV, w, 40) == Regs(0x0EC3EEBD, 0x519EDDBB, 0xFACDC1A7, 0xD89B4586, 0x71D10BCB)
    ensures Compress(IV, w, 60) == Regs(0x2E104B6C, 0xB30FA3F7, 0xEDADAA36, 0xDB5E5B1E, 0x9B648C86)
  {
    assert Round(Regs(0x0EC3EEBD, 0x519EDDBB, 0xFACDC1A7, 0xD89B4586, 0x71D10BCB), 0x2EDF86AE, 40) == Regs(0xE0E9EC9D, 0x0EC3EEBD, 0xD467B76E, 0xFACDC1A7, 0xD89B4586);
    assert Compress(IV, w, 41) == Regs(0xE0E9EC9D, 0x0EC3EEBD, 0xD467B76E, 0xFACDC1A7, 0xD89B4586);
    assert Round(Regs(0xE0E9EC9D, 0x0EC3EEBD, 0xD467B76E, 0xFACDC1A7, 0xD89B4586), 0xAC9D9C7B, 41) == Regs(0x105A1A48, 0xE0E9EC9D, 0x43B0FBAF, 0xD467B76E, 0xFACDC1A7);
    assert Compress(IV, w, 42) == Regs(0x105A1A48, 0xE0E9EC9D, 0x43B0FBAF, 0xD467B76E, 0xFACDC1A7);
    assert Round(Regs(0x105A1A48, 0xE0E9EC9D, 0x43B0FBAF, 0xD467B76E, 0xFACDC1A7), 0x9F8F8EAB, 42) == Regs(0xF59E55DF, 0x105A1A48, 0x783A7B27, 0x43B0FBAF, 0xD467B76E);
    assert Compress(IV, w, 43) == Regs(0xF59E55DF, 0x105A1A48, 0x783A7B27, 0x43B0FBAF, 0xD467B76E);
    assert Round(Regs(0xF59E55DF, 0x105A1A48, 0x783A7B27, 0x43B0FBAF, 0xD467B76E), 0xA3D1D8D0, 43) == Regs(0x0B5A8447, 0xF59E55DF, 0x04168692, 0x783A7B27, 0x43B0FBAF);
    assert Compress(IV, w, 44) == Regs(0x0B5A8447, 0xF59E55DF, 0x04168692, 0x783A7B27, 0x43B0FBAF);
    assert Round(Regs(0x0B5A8447, 0xF59E55DF, 0x04168692, 0x783A7B27, 0x43B0FBAF), 0x2183BAAF, 44) == Regs(0xD3BF53B2, 0x0B5A8447, 0xFD679577, 0x04168692, 0x783A7B27);
    assert Compress(IV, w, 45) == Regs(0xD3BF53B2, 0x0B5A8447, 0xFD679577, 0x04168692, 0x783A7B27);
    assert Round(Regs(0xD3BF53B2, 0x0B5A8447, 0xFD679577, 0x04168692, 0x783A7B27), 0x89680694, 45) == Regs(0x15FF3948, 0xD3BF53B2, 0xC2D6A111, 0xFD679577, 0x04168692);
    assert Compress(IV, w, 46) == Regs(0x15FF3948, 0xD3BF53B2, 0xC2D6A111, 0xFD679577, 0x04168692);
    assert Round(Regs(0x15FF3948, 0xD3BF53B2, 0xC2D6A111, 0xFD679577, 0x04168692), 0xC81D7DCA, 46) == Regs(0xEF2E7B6D, 0x15FF3948, 0xB4EFD4EC, 0xC2D6A111, 0xFD679577);
    assert Compress(IV, w, 47) == Regs(0xEF2E7B6D, 0x15FF3948, 0xB4EFD4EC, 0xC2D6A111, 0xFD679577);
    assert Round(Regs(0xEF2E7B6D, 0x15FF3948, 0xB4EFD4EC, 0xC2D6A111, 0xFD679577), 0xFE62EB62, 47) == Regs(0x05B55CBA, 0xEF2E7B6D, 0x057FCE52, 0xB4EFD4EC, 0xC2D6A111);
    assert Compress(IV, w, 48) == Regs(0x05B55CBA, 0xEF2E7B6D, 0x057FCE52, 0xB4EFD4EC, 0xC2D6A111);
    assert Round(Regs(0x05B55CBA, 0xEF2E7B6D, 0x057FCE52, 0xB4EFD4EC, 0xC2D6A111), 0xBC1492C7, 48) == Regs(0x6A226660, 0x05B55CBA, 0x7BCB9EDB, 0x057FCE52, 0xB4EFD4EC);
    assert Compress(IV, w, 49) == Regs(0x6A226660, 0x05B55CBA, 0x7BCB9EDB, 0x057FCE52, 0xB4EFD4EC);
    assert Round(Regs(0x6A226660, 0x05B55CBA, 0x7BCB9EDB, 0x057FCE52, 0xB4EFD4EC), 0x2ED6A9F4, 49) == Regs(0xBD2EE6A3, 0x6A226660, 0x816D572E, 0x7BCB9EDB, 0x057FCE52);
    assert Compress(IV, w, 50) == Regs(0xBD2EE6A3, 0x6A226660, 0x816D572E, 0x7BCB9EDB, 0x057FCE52);
    assert Round(Regs(0xBD2EE6A3, 0x6A226660, 0x816D572E, 0x7BCB9EDB, 0x057FCE52), 0x1B02AE30, 50) == Regs(0xC0E6643F, 0xBD2EE6A3, 0x1A889998, 0x816D572E, 0x7BCB9EDB);
    assert Compress(IV, w, 51) == Regs(0xC0E6643F, 0xBD2EE6A3, 0x1A889998, 0x816D572E, 0x7BCB9EDB);
    assert Round(Regs(0xC0E6643F, 0xBD2EE6A3, 0x1A889998, 0x816D572E, 0x7BCB9EDB), 0xE39F1C59, 51) == Regs(0xA47FD7B2, 0xC0E6643F, 0xEF4BB9A8, 0x1A889998, 0x816D572E);
    assert Compress(IV, w, 52) == Regs(0xA47FD7B2, 0xC0E6643F, 0xEF4BB9A8, 0x1A889998, 0x816D572E);
    assert Round(Regs(0xA47FD7B2, 0xC0E6643F, 0xEF4BB9A8, 0x1A889998, 0x816D572E), 0xD74AE210, 52) == Regs(0x4299A626, 0xA47FD7B2, 0xF039990F, 0xEF4BB9A8, 0x1A889998);
    assert Compress(IV, w, 53) == Regs(0x4299A626, 0xA47FD7B2, 0xF039990F, 0xEF4BB9A8, 0x1A889998);
    assert Round(Regs(0x4299A626, 0xA47FD7B2, 0xF039990F, 0xEF4BB9A8, 0x1A889998), 0xBC0C108E, 53) == Regs(0x9D60C574, 0x4299A626, 0xA91FF5EC, 0xF039990F, 0xEF4BB9A8);
    assert Compress(IV, w, 54) == Regs(0x9D60C574, 0x4299A626, 0xA91FF5EC, 0xF039990F, 0xEF4BB9A8);
    assert Round(Regs(0x9D60C574, 0x4299A626, 0xA91FF5EC, 0xF039990F, 0xEF4BB9A8), 0x1DCD8D88, 54) == Regs(0x286767CD, 0x9D60C574, 0x90A66989, 0xA91FF5EC, 0xF039990F);
    assert Compress(IV, w, 55) == Regs(0x286767CD, 0x9D60C574, 0x90A66989, 0xA91FF5EC, 0xF039990F);
    assert Round(Regs(0x286767CD, 0x9D60C574, 0x90A66989, 0xA91FF5EC, 0xF039990F), 0x4828FC9E, 55) == Regs(0x6D92321A, 0x286767CD, 0x2758315D, 0x90A66989, 0xA91FF5EC);
    assert Compress(IV, w, 56) == Regs(0x6D92321A, 0x286767CD, 0x2758315D, 0x90A66989, 0xA91FF5EC);
    assert Round(Regs(0x6D92321A, 0x286767CD, 0x2758315D, 0x90A66989, 0xA91FF5EC), 0x62911499, 56) == Regs(0x6D796C7B, 0x6D92321A, 0x4A19D9F3, 0x2758315D, 0x90A66989);
    assert Compress(IV, w, 57) == Regs(0x6D796C7B, 0x6D92321A, 0x4A19D9F3, 0x2758315D, 0x90A66989);
    assert Round(Regs(0x6D796C7B, 0x6D92321A, 0x4A19D9F3, 0x2758315D, 0x90A66989), 0x78AEC1AE, 57) == Regs(0xB6B6A8DB, 0x6D796C7B, 0x9B648C86, 0x4A19D9F3, 0x2758315D);
    assert Compress(IV, w, 58) == Regs(0xB6B6A8DB, 0x6D796C7B, 0x9B648C86, 0x4A19D9F3, 0x2758315D);
    assert Round(Regs(0xB6B6A8DB, 0x6D796C7B, 0x9B648C86, 0x4A19D9F3, 0x2758315D), 0xDA4CCD55, 58) == Regs(0xB30FA3F7, 0xB6B6A8DB, 0xDB5E5B1E, 0x9B648C86, 0x4A19D9F3);
    assert Compress(IV, w, 59) == Regs(0xB30FA3F7, 0xB6B6A8DB, 0xDB5E5B1E, 0x9B648C86, 0x4A19D9F3);
    assert Round(Regs(0xB30FA3F7, 0xB6B6A8DB, 0xDB5E5B1E, 0x9B648C86, 0x4A19D9F3), 0x576FAD09, 59) == Regs(0x2E104B6C, 0xB30FA3F7, 0xEDADAA36, 0xDB5E5B1E, 0x9B648C86);
    assert Compress(IV, w, 60) == Regs(0x2E104B6C, 0xB30FA3F7, 0xEDADAA36, 0xDB5E5B1E, 0x9B648C86);
  }

  lemma Rfc1Inner0Rounds3(w: seq<word>)
    requires |w| == 80
    requires w[60] == 0x8CF5C9B6 && w[61] == 0x2294605A && w[62] == 0x7D579F18 && w[63] == 0x28D2EF7C &&
      w[64] == 0xCE269069 && w[65] == 0x9161D637 && w[66] == 0x7DACDC12 && w[67] == 0x8DB4636F &&
      w[68] == 0xAE26E033 && w[69] == 0x5638A0B1 && w[70] == 0x1F7ECACD && w[71] == 0x6CE464FF &&
      w[72] == 0x4187D228 && w[73] == 0x43BCE0BB && w[74] == 0x8FE3781C && w[75] == 0x7390F829 &&
      w[76] == 0x3870AC4C && w[77] == 0xA73AAF17 && w[78] == 0xBF3E7B2B && w[79] == 0xDA4FE3F1
    requires Compress(IV, w, 60) == Regs(0x2E104B6C, 0xB30FA3F7, 0xEDADAA36, 0xDB5E5B1E, 0x9B648C86)
    ensures Compress(IV, w, 80) == Regs(0x6482E98B, 0x05CC3723, 0x24FDEB34, 0xCA636D4D, 0x34954E35)
  {
    assert Round(Regs(0x2E104B6C, 0xB30FA3F7, 0xEDADAA36, 0xDB5E5B1E, 0x9B648C86), 0x8CF5C9B6, 60) == Regs(0x3AC2D876, 0x2E104B6C, 0xECC3E8FD, 0xEDADAA36, 0xDB5E5B1E);
    assert Compress(IV, w, 61) == Regs(0x3AC2D876, 0x2E104B6C, 0xECC3E8FD, 0xEDADAA36, 0xDB5E5B1E);
    assert Round(Regs(0x3AC2D876, 0x2E104B6C, 0xECC3E8FD, 0xEDADAA36, 0xDB5E5B1E), 0x2294605A, 61) == Regs(0x502E95BC, 0x3AC2D876, 0x0B8412DB, 0xECC3E8FD, 0xEDADAA36);
    assert Compress(IV, w, 62) == Regs(0x502E95BC, 0x3AC2D876, 0x0B8412DB, 0xECC3E8FD, 0xEDADAA36);
    assert Round(Regs(0x502E95BC, 0x3AC2D876, 0x0B8412DB, 0xECC3E8FD, 0xEDADAA36), 0x7D579F18, 62) == Regs(0x18BFE4FE, 0x502E95BC, 0x8EB0B61D, 0x0B8412DB, 0xECC3E8FD);
    assert Compress(IV, w, 63) == Regs(0x18BFE4FE, 0x502E95BC, 0x8EB0B61D, 0x0B8412DB, 0xECC3E8FD);
    assert Round(Regs(0x18BFE4FE, 0x502E95BC, 0x8EB0B61D, 0x0B8412DB, 0xECC3E8FD), 0x28D2EF7C, 63) == Regs(0xCD106B8C, 0x18BFE4FE, 0x140BA56F, 0x8EB0B61D, 0x0B8412DB);
    assert Compress(IV, w, 64) == Regs(0xCD106B8C, 0x18BFE4FE, 0x140BA56F, 0x8EB0B61D, 0x0B8412DB);
    assert Round(Regs(0xCD106B8C, 0x18BFE4FE, 0x140BA56F, 0x8EB0B61D, 0x0B8412DB), 0xCE269069, 64) == Regs(0xC81FCE3F, 0xCD106B8C, 0x862FF93F, 0x140BA56F, 0x8EB0B61D);
    assert Compress(IV, w, 65) == Regs(0xC81FCE3F, 0xCD106B8C, 0x862FF93F, 0x140BA56F, 0x8EB0B61D);
    assert Round(Regs(0xC81FCE3F, 0xCD106B8C, 0x862FF93F, 0x140BA56F, 0x8EB0B61D), 0x9161D637, 65) == Regs(0x4DA34DFF, 0xC81FCE3F, 0x33441AE3, 0x862FF93F, 0x140BA56F);
    assert Compress(IV, w, 66) == Regs(0x4DA34DFF, 0xC81FCE3F, 0x33441AE3, 0x862FF93F, 0x140BA56F);
    assert Round(Regs(0x4DA34DFF, 0xC81FCE3F, 0x33441AE3, 0x862FF93F, 0x140BA56F), 0x7DACDC12, 66) == Regs(0x8DF93123, 0x4DA34DFF, 0xF207F38F, 0x33441AE3, 0x862FF93F);
    assert Compress(IV, w, 67) == Regs(0x8DF93123, 0x4DA34DFF, 0xF207F38F, 0x33441AE3, 0x862FF93F);
    assert Round(Regs(0x8DF93123, 0x4DA34DFF, 0xF207F38F, 0x33441AE3, 0x862FF93F), 0x8DB4636F, 67) == Regs(0x2A4DE788, 0x8DF93123, 0xD368D37F, 0xF207F38F, 0x33441AE3);
    assert Compress(IV, w, 68) == Regs(0x2A4DE788, 0x8DF93123, 0xD368D37F, 0xF207F38F, 0x33441AE3);
    assert Round(Regs(0x2A4DE788, 0x8DF93123, 0xD368D37F, 0xF207F38F, 0x33441AE3), 0xAE26E033, 68) == Regs(0xA220BFC4, 0x2A4DE788, 0xE37E4C48, 0xD368D37F, 0xF207F38F);
    assert Compress(IV, w, 69) == Regs(0xA220BFC4, 0x2A4DE788, 0xE37E4C48, 0xD368D37F, 0xF207F38F);
    assert Round(Regs(0xA220BFC4, 0x2A4DE788, 0xE37E4C48, 0xD368D37F, 0xF207F38F), 0x5638A0B1, 69) == Regs(0x7116C769, 0xA220BFC4, 0x0A9379E2, 0xE37E4C48, 0xD368D37F);
    assert Compress(IV, w, 70) == Regs(0x7116C769, 0xA220BFC4, 0x0A9379E2, 0xE37E4C48, 0xD368D37F);
    assert Round(Regs(0x7116C769, 0xA220BFC4, 0x0A9379E2, 0xE37E4C48, 0xD368D37F), 0x1F7ECACD, 70) == Regs(0x2BF0D7BE, 0x7116C769, 0x28882FF1, 0x0A9379E2, 0xE37E4C48);
    assert Compress(IV, w, 71) == Regs(0x2BF0D7BE, 0x7116C769, 0x28882FF1, 0x0A9379E2, 0xE37E4C48);
    assert Round(Regs(0x2BF0D7BE, 0x7116C769, 0x28882FF1, 0x0A9379E2, 0xE37E4C48), 0x6CE464FF, 71) == Regs(0xEBEDFC5C, 0x2BF0D7BE, 0x5C45B1DA, 0x28882FF1, 0x0A9379E2);
    assert Compress(IV, w, 72) == Regs(0xEBEDFC5C, 0x2BF0D7BE, 0x5C45B1DA, 0x28882FF1, 0x0A9379E2);
    assert Round(Regs(0xEBEDFC5C, 0x2BF0D7BE, 0x5C45B1DA, 0x28882FF1, 0x0A9379E2), 0x4187D228, 72) == Regs(0xF37AE312, 0xEBEDFC5C, 0x8AFC35EF, 0x5C45B1DA, 0x28882FF1);
    assert Compress(IV, w, 73) == Regs(0xF37AE312, 0xEBEDFC5C, 0x8AFC35EF, 0x5C45B1DA, 0x28882FF1);
    assert Round(Regs(0xF37AE312, 0xEBEDFC5C, 0x8AFC35EF, 0x5C45B1DA, 0x28882FF1), 0x43BCE0BB, 73) == Regs(0xE358AD49, 0xF37AE312, 0x3AFB7F17, 0x8AFC35EF, 0x5C45B1DA);
    assert Compress(IV, w, 74) == Regs(0xE358AD49, 0xF37AE312, 0x3AFB7F17, 0x8AFC35EF, 0x5C45B1DA);
    assert Round(Regs(0xE358AD49, 0xF37AE312, 0x3AFB7F17, 0x8AFC35EF, 0x5C45B1DA), 0x8FE3781C, 74) == Regs(0x651F3EF2, 0xE358AD49, 0xBCDEB8C4, 0x3AFB7F17, 0x8AFC35EF);
    assert Compress(IV, w, 75) == Regs(0x651F3EF2, 0xE358AD49, 0xBCDEB8C4, 0x3AFB7F17, 0x8AFC35EF);
    assert Round(Regs(0x651F3EF2, 0xE358AD49, 0xBCDEB8C4, 0x3AFB7F17, 0x8AFC35EF), 0x7390F829, 75) == Regs(0xD25538D4, 0x651F3EF2, 0x78D62B52, 0xBCDEB8C4, 0x3AFB7F17);
    assert Compress(IV, w, 76) == Regs(0xD25538D4, 0x651F3EF2, 0x78D62B52, 0xBCDEB8C4, 0x3AFB7F17);
    assert Round(Regs(0xD25538D4, 0x651F3EF2, 0x78D62B52, 0xBCDEB8C4, 0x3AFB7F17), 0x3870AC4C, 76) == Regs(0x298DB537, 0xD25538D4, 0x9947CFBC, 0x78D62B52, 0xBCDEB8C4);
    assert Compress(IV, w, 77) == Regs(0x298DB537, 0xD25538D4, 0x9947CFBC, 0x78D62B52, 0xBCDEB8C4);
    assert Round(Regs(0x298DB537, 0xD25538D4, 0x9947CFBC, 0x78D62B52, 0xBCDEB8C4), 0xA73AAF17, 77) == Regs(0x93F7ACD0, 0x298DB537, 0x34954E35, 0x9947CFBC, 0x78D62B52);
    assert Compress(IV, w, 78) == Regs(0x93F7ACD0, 0x298DB537, 0x34954E35, 0x9947CFBC, 0x78D62B52);
    assert Round(Regs(0x93F7ACD0, 0x298DB537, 0x34954E35, 0x9947CFBC, 0x78D62B52), 0xBF3E7B2B, 78) == Regs(0x05CC3723, 0x93F7ACD0, 0xCA636D4D, 0x34954E35, 0x9947CFBC);
    assert Compress(IV, w, 79) == Regs(0x05CC3723, 0x93F7ACD0, 0xCA636D4D, 0x34954E35, 0x9947CFBC);
    assert Round(Regs(0x05CC3723, 0x93F7ACD0, 0xCA636D4D, 0x34954E35, 0x9947CFBC), 0xDA4FE3F1, 79) == Regs(0x6482E98B, 0x05CC3723, 0x24FDEB34, 0xCA636D4D, 0x34954E35);
    assert Compress(IV, w, 80) == Regs(0x6482E98B, 0x05CC3723, 0x24FDEB34, 0xCA636D4D, 0x34954E35);
  }

  lemma Rfc1Inner0Compress(words: seq<word>)
    requires |words| == 16
    requires words[0] == 0x07040502 && words[1] == 0x0300010E && words[2] == 0x0F060704 && words[3] == 0x05020300 &&
      words[4] == 0x010E0F06 && words[5] == 0x36363636 && words[6] == 0x36363636 && words[7] == 0x36363636 &&
      words[8] == 0x36363636 && words[9] == 0x36363636 && words[10] == 0x36363636 && words[11] == 0x36363636 &&
      words[12] == 0x36363636 && words[13] == 0x36363636 && words[14] == 0x36363636 && words[15] == 0x36363636
    ensures Compress(IV, Schedule(words), 80) == Regs(0x6482E98B, 0x05CC3723, 0x24FDEB34, 0xCA636D4D, 0x34954E35)
  {
    var w := Schedule(words);
    ScheduleIsSchedule(words);
    forall j | 0 <= j < 16
      ensures w[j] == words[j]
    {
      assert w[..16][j] == w[j];
    }
    Rfc1Inner0Schedule0(w);
    Rfc1Inner0Schedule1(w);
    Rfc1Inner0Schedule2(w);
    Rfc1Inner0Schedule3(w);
    Rfc1Inner0Rounds0(w);
    Rfc1Inner0Rounds1(w);
    Rfc1Inner0Rounds2(w);
    Rfc1Inner0Rounds3(w);
  }

  lemma Rfc1Inner1Schedule0(w: seq<word>)
    requires |w| == 80 && forall i :: 16 <= i < 80 ==> Follows(w, i)
    requires w[0] == 0x00000000 && w[1] == 0x00000001 && w[2] == 0x80000000 && w[3] == 0x00000000 &&
      w[4] == 0x00000000 && w[5] == 0x00000000 && w[6] == 0x00000000 && w[7] == 0x00000000 &&
      w[8] == 0x00000000 && w[9] == 0x00000000 && w[10] == 0x00000000 && w[11] == 0x00000000 &&
      w[12] == 0x00000000 && w[13] == 0x00000000 && w[14] == 0x00000000 && w[15] == 0x00000240
    ensures w[16] == 0x00000001 && w[17] == 0x00000002 && w[18] == 0x00000481 && w[19] == 0x00000002 &&
      w[20] == 0x00000004 && w[21] == 0x00000902 && w[22] == 0x00000004 && w[23] == 0x00000488 &&
      w[24] == 0x00001206 && w[25] == 0x0000000C && w[26] == 0x00000012 && w[27] == 0x00002408 &&
      w[28] == 0x00000010 && w[29] == 0x000016A0 && w[30] == 0x0000481A && w[31] == 0x00000DB4
  {
    assert Follows(w, 16);
    assert Follows(w, 17);
    assert Follows(w, 18);
    assert Follows(w, 19);
    assert Follows(w, 20);
    assert Follows(w, 21);
    assert Follows(w, 22);
    assert Follows(w, 23);
    assert Follows(w, 24);
    assert Follows(w, 25);
    assert Follows(w, 26);
    assert Follows(w, 27);
    assert Follows(w, 28);
    assert Follows(w, 29);
    assert Follows(w, 30);
    assert Follows(w, 31);
  }

  lemma Rfc1Inner1Schedule1(w: seq<word>)
    requires |w| == 80 && forall i :: 16 <= i < 80 ==> Follows(w, i)
    requires w[16] == 0x00000001 && w[17] == 0x00000002 && w[18] == 0x00000481 && w[19] == 0x00000002 &&
      w[20] == 0x00000004 && w[21] == 0x00000902 && w[22] == 0x00000004 && w[23] == 0x00000488 &&
      w[24] == 0x00001206 && w[25] == 0x0000000C && w[26] == 0x00000012 && w[27] == 0x00002408 &&
      w[28] == 0x00000010 && w[29] == 0x000016A0 && w[30] == 0x0000481A && w[31] == 0x00000DB4
    ensures w[32] == 0x0000004C && w[33] == 0x0000902C && w[34] == 0x00001246 && w[35] == 0x00005A88 &&
      w[36] == 0x00012078 && w[37] == 0x000012D8 && w[38] == 0x00000120 && w[39] == 0x00025290 &&
      w[40] == 0x00000100 && w[41] == 0x00016A10 && w[42] == 0x000481A8 && w[43] == 0x0000D240 &&
      w[44] == 0x000004C4 && w[45] == 0x000910C8 && w[46] == 0x0001366C && w[47] == 0x00059798
  {
    assert Follows(w, 32);
    assert Follows(w, 33);
    assert Follows(w, 34);
    assert Follows(w, 35);
    assert Follows(w, 36);
    assert Follows(w, 37);
    assert Follows(w, 38);
    assert Follows(w, 39);
    assert Follows(w, 40);
    assert Follows(w, 41);
    assert Follows(w, 42);
    assert Follows(w, 43);
    assert Follows(w, 44);
    assert Follows(w, 45);
    assert Follows(w, 46);
    assert Follows(w, 47);
  }

  lemma Rfc1Inner1Schedule2(w: seq<word>)
    requires |w| == 80 && forall i :: 16 <= i < 80 ==> Follows(w, i)
    requires w[32] == 0x0000004C && w[33] == 0x0000902C && w[34] == 0x00001246 && w[35] == 0x00005A88 &&
      w[36] == 0x00012078 && w[37] == 0x000012D8 && w[38] == 0x00000120 && w[39] == 0x00025290 &&
      w[40] == 0x00000100 && w[41] == 0x00016A10 && w[42] == 0x000481A8 && w[43] == 0x0000D240 &&
      w[44] == 0x000004C4 && w[45] == 0x000910C8 && w[46] == 0x0001366C && w[47] == 0x00059798
    ensures w[48] == 0x00120784 && w[49] == 0x00012DB0 && w[50] == 0x0000481C && w[51] == 0x00253B28 &&
      w[52] == 0x00001058 && w[53] == 0x00163138 && w[54] == 0x00481AC8 && w[55] == 0x000D7E80 &&
      w[56] == 0x00016C28 && w[57] == 0x00911E50 && w[58] == 0x001367E0 && w[59] == 0x005B2B10 &&
      w[60] == 0x01207940 && w[61] == 0x0013A310 && w[62] == 0x00000060 && w[63] == 0x02537BD0
  {
    assert Follows(w, 48);
    assert Follows(w, 49);
    assert Follows(w, 50);
    assert Follows(w, 51);
    assert Follows(w, 52);
    assert Follows(w, 53);
    assert Follows(w, 54);
    assert Follows(w, 55);
    assert Follows(w, 56);
    assert Follows(w, 57);
    assert Follows(w, 58);
    assert Follows(w, 59);
    assert Follows(w, 60);
    assert Follows(w, 61);
    assert Follows(w, 62);
    assert Follows(w, 63);
  }

  lemma Rfc1Inner1Schedule3(w: seq<word>)
    requires |w| == 80 && forall i :: 16 <= i < 80 ==> Follows(w, i)
    requires w[48] == 0x00120784 && w[49] == 0x00012DB0 && w[50] == 0x0000481C && w[51] == 0x00253B28 &&
      w[52] == 0x00001058 && w[53] == 0x00163138 && w[54] == 0x00481AC8 && w[55] == 0x000D7E80 &&
      w[56] == 0x00016C28 && w[57] == 0x00911E50 && w[58] == 0x001367E0 && w[59] == 0x005B2B10 &&
      w[60] == 0x01207940 && w[61] == 0x0013A310 && w[62] == 0x00000060 && w[63] == 0x02537BD0
    ensures w[64] == 0x00010140 && w[65] == 0x016A1150 && w[66] == 0x048088E8 && w[67] == 0x00D24080 &&
      w[68] == 0x0004C500 && w[69] == 0x0910C880 && w[70] == 0x01366C00 && w[71] == 0x0597BC00 &&
      w[72] == 0x12078410 && w[73] == 0x012C9020 && w[74] == 0x00485490 && w[75] == 0x253A9920 &&
      w[76] == 0x00105800 && w[77] == 0x163089A0 && w[78] == 0x481BE800 && w[79] == 0x0D7D1D00
  {
    assert Follows(w, 64);
    assert Follows(w, 65);
    assert Follows(w, 66);
    assert Follows(w, 67);
    assert Follows(w, 68);
    assert Follows(w, 69);
    assert Follows(w, 70);
    assert Follows(w, 71);
    assert Follows(w, 72);
    assert Follows(w, 73);
    assert Follows(w, 74);
    assert Follows(w, 75);
    assert Follows(w, 76);
    assert Follows(w, 77);
    assert Follows(w, 78);
    assert Follows(w, 79);
  }

  lemma Rfc1Inner1Rounds0(w: seq<word>)
    requires |w| == 80
    requires w[0] == 0x00000000 && w[1] == 0x00000001 && w[2] == 0x80000000 && w[3] == 0x00000000 &&
      w[4] == 0x00000000 && w[5] == 0x00000000 && w[6] == 0x00000000 && w[7] == 0x00000000 &&
      w[8] == 0x00000000 && w[9] == 0x00000000 && w[10] == 0x00000000 && w[11] == 0x00000000 &&
      w[12] == 0x00000000 && w[13] == 0x00000000 && w[14] == 0x00000000 && w[15] == 0x00000240 &&
      w[16] == 0x00000001 && w[17] == 0x00000002 && w[18] == 0x00000481 && w[19] == 0x00000002
    requires Compress(Regs(0xCBC80C8C, 0xF599E2AC, 0xBDB8C832, 0xDA95C1C3, 0xF8683025), w, 0) == Regs(0xCBC80C8C, 0xF599E2AC, 0xBDB8C832, 0xDA95C1C3, 0xF8683025)
    ensures Compress(Regs(0xCBC80C8C, 0xF599E2AC, 0xBDB8C832, 0xDA95C1C3, 0xF8683025), w, 20) == Regs(0xB3976CE5, 0xC0B085D5, 0x9D249C6F, 0x67E8A8CE, 0x943CE3F6)
  {
    assert Round(Regs(0xCBC80C8C, 0xF599E2AC, 0xBDB8C832, 0xDA95C1C3, 0xF8683025), 0x00000000, 0) == Regs(0x8B88FCBA, 0xCBC80C8C, 0x3D6678AB, 0xBDB8C832, 0xDA95C1C3);
    assert Compress(Regs(0xCBC80C8C, 0xF599E2AC, 0xBDB8C832, 0xDA95C1C3, 0xF8683025), w, 1) == Regs(0x8B88FCBA, 0xCBC80C8C, 0x3D6678AB, 0xBDB8C832, 0xDA95C1C3);
    assert Round(Regs(0x8B88FCBA, 0xCBC80C8C, 0x3D6678AB, 0xBDB8C832, 0xDA95C1C3), 0x00000001, 1) == Regs(0xE3A89B68, 0x8B88FCBA, 0x32F20323, 0x3D6678AB, 0xBDB8C832);
    assert Compress(Regs(0xCBC80C8C, 0xF599E2AC, 0xBDB8C832, 0xDA95C1C3, 0xF8683025), w, 2) == Regs(0xE3A89B68, 0x8B88FCBA, 0x32F20323, 0x3D6678AB, 0xBDB8C832);
    assert Round(Regs(0xE3A89B68, 0x8B88FCBA, 0x32F20323, 0x3D6678AB, 0xBDB8C832), 0x80000000, 2) == Regs(0x4434AF0A, 0xE3A89B68, 0xA2E23F2E, 0x32F20323, 0x3D6678AB);
    assert Compress(Regs(0xCBC80C8C, 0xF599E2AC, 0xBDB8C832, 0xDA95C1C3, 0xF8683025), w, 3) == Regs(0x4434AF0A, 0xE3A89B68, 0xA2E23F2E, 0x32F20323, 0x3D6678AB);
    assert Round(Regs(0x4434AF0A, 0xE3A89B68, 0xA2E23F2E, 0x32F20323, 0x3D6678AB), 0x00000000, 3) == Regs(0xD170EEB7, 0x4434AF0A, 0x38EA26DA, 0xA2E23F2E, 0x32F20323);
    assert Compress(Regs(0xCBC80C8C, 0xF599E2AC, 0xBDB8C832, 0xDA95C1C3, 0xF8683025), w, 4) == Regs(0xD170EEB7, 0x4434AF0A, 0x38EA26DA, 0xA2E23F2E, 0x32F20323);
    assert Round(Regs(0xD170EEB7, 0x4434AF0A, 0x38EA26DA, 0xA2E23F2E, 0x32F20323), 0x00000000, 4) == Regs(0x5E7489E4, 0xD170EEB7, 0x910D2BC2, 0x38EA26DA, 0xA2E23F2E);
    assert Compress(Regs(0xCBC80C8C, 0xF599E2AC, 0xBDB8C832, 0xDA95C1C3, 0xF8683025), w, 5) == Regs(0x5E7489E4, 0xD170EEB7, 0x910D2BC2, 0x38EA26DA, 0xA2E23F2E);
    assert Round(Regs(0x5E7489E4, 0xD170EEB7, 0x910D2BC2, 0x38EA26DA, 0xA2E23F2E), 0x00000000, 5) == Regs(0x8580201C, 0x5E7489E4, 0xF45C3BAD, 0x910D2BC2, 0x38EA26DA);
    assert Compress(Regs(0xCBC80C8C, 0xF599E2AC, 0xBDB8C832, 0xDA95C1C3, 0xF8683025), w, 6) == Regs(0x8580201C, 0x5E7489E4, 0xF45C3BAD, 0x910D2BC2, 0x38EA26DA);
    assert Round(Regs(0x8580201C, 0x5E7489E4, 0xF45C3BAD, 0x910D2BC2, 0x38EA26DA), 0x00000000, 6) == Regs(0x18CDCFA9, 0x8580201C, 0x179D2279, 0xF45C3BAD, 0x910D2BC2);
    assert Compress(Regs(0xCBC80C8C, 0xF599E2AC, 0xBDB8C832, 0xDA95C1C3, 0xF8683025), w, 7) == Regs(0x18CDCFA9, 0x8580201C, 0x179D2279, 0xF45C3BAD, 0x910D2BC2);
    assert Round(Regs(0x18CDCFA9, 0x8580201C, 0x179D2279, 0xF45C3BAD, 0x910D2BC2), 0x00000000, 7) == Regs(0x7B25D637, 0x18CDCFA9, 0x21600807, 0x179D2279, 0xF45C3BAD);
    assert Compress(Regs(0xCBC80C8C, 0xF599E2AC, 0xBDB8C832, 0xDA95C1C3, 0xF8683025), w, 8) == Regs(0x7B25D637, 0x18CDCFA9, 0x21600807, 0x179D2279, 0xF45C3BAD);
    assert Round(Regs(0x7B25D637, 0x18CDCFA9, 0x21600807, 0x179D2279, 0xF45C3BAD), 0x00000000, 8) == Regs(0xBAE9A486, 0x7B25D637, 0x463373EA, 0x21600807, 0x179D2279);
    assert Compress(Regs(0xCBC80C8C, 0xF599E2AC, 0xBDB8C832, 0xDA95C1C3, 0xF8683025), w, 9) == Regs(0xBAE9A486, 0x7B25D637, 0x463373EA, 0x21600807, 0x179D2279);
    assert Round(Regs(0xBAE9A486, 0x7B25D637, 0x463373EA, 0x21600807, 0x179D2279), 0x00000000, 9) == Regs(0x11B5870B, 0xBAE9A486, 0xDEC9758D, 0x463373EA, 0x21600807);
    assert Compress(Regs(0xCBC80C8C, 0xF599E2AC, 0xBDB8C832, 0xDA95C1C3, 0xF8683025), w, 10) == Regs(0x11B5870B, 0xBAE9A486, 0xDEC9758D, 0x463373EA, 0x21600807);
    assert Round(Regs(0x11B5870B, 0xBAE9A486, 0xDEC9758D, 0x463373EA, 0x21600807), 0x00000000, 10) == Regs(0x916EDAEE, 0x11B5870B, 0xAEBA6921, 0xDEC9758D, 0x463373EA);
    assert Compress(Regs(0xCBC80C8C, 0xF599E2AC, 0xBDB8C832, 0xDA95C1C3, 0xF8683025), w, 11) == Regs(0x916EDAEE, 0x11B5870B, 0xAEBA6921, 0xDEC9758D, 0x463373EA);
    assert Round(Regs(0x916EDAEE, 0x11B5870B, 0xAEBA6921, 0xDEC9758D, 0x463373EA), 0x00000000, 11) == Regs(0x9D89BCDA, 0x916EDAEE, 0xC46D61C2, 0xAEBA6921, 0xDEC9758D);
    assert Compress(Regs(0xCBC80C8C, 0xF599E2AC, 0xBDB8C832, 0xDA95C1C3, 0xF8683025), w, 12) == Regs(0x9D89BCDA, 0x916EDAEE, 0xC46D61C2, 0xAEBA6921, 0xDEC9758D);
    assert Round(Regs(0x9D89BCDA, 0x916EDAEE, 0xC46D61C2, 0xAEBA6921, 0xDEC9758D), 0x00000000, 12) == Regs(0x997FEC3C, 0x9D89BCDA, 0xA45BB6BB, 0xC46D61C2, 0xAEBA6921);
    assert Compress(Regs(0xCBC80C8C, 0xF599E2AC, 0xBDB8C832, 0xDA95C1C3, 0xF8683025), w, 13) == Regs(0x997FEC3C, 0x9D89BCDA, 0xA45BB6BB, 0xC46D61C2, 0xAEBA6921);
    assert Round(Regs(0x997FEC3C, 0x9D89BCDA, 0xA45BB6BB, 0xC46D61C2, 0xAEBA6921), 0x00000000, 13) == Regs(0xFDA85FE7, 0x997FEC3C, 0xA7626F36, 0xA45BB6BB, 0xC46D61C2);
    assert Compress(Regs(0xCBC80C8C, 0xF599E2AC, 0xBDB8C832, 0xDA95C1C3, 0xF8683025), w, 14) == Regs(0xFDA85FE7, 0x997FEC3C, 0xA7626F36, 0xA45BB6BB, 0xC46D61C2);
    assert Round(Regs(0xFDA85FE7, 0x997FEC3C, 0xA7626F36, 0xA45BB6BB, 0xC46D61C2), 0x00000000, 14) == Regs(0x795E5711, 0xFDA85FE7, 0x265FFB0F, 0xA7626F36, 0xA45BB6BB);
    assert Compress(Regs(0xCBC80C8C, 0xF599E2AC, 0xBDB8C832, 0xDA95C1C3, 0xF8683025), w, 15) == Regs(0x795E5711, 0xFDA85FE7, 0x265FFB0F, 0xA7626F36, 0xA45BB6BB);
    assert Round(Regs(0x795E5711, 0xFDA85FE7, 0x265FFB0F, 0xA7626F36, 0xA45BB6BB), 0x00000240, 15) == Regs(0x50F38FDA, 0x795E5711, 0xFF6A17F9, 0x265FFB0F, 0xA7626F36);
    assert Compress(Regs(0xCBC80C8C, 0xF599E2AC, 0xBDB8C832, 0xDA95C1C3, 0xF8683025), w, 16) == Regs(0x50F38FDA, 0x795E5711, 0xFF6A17F9, 0x265FFB0F, 0xA7626F36);
    assert Round(Regs(0x50F38FDA, 0x795E5711, 0xFF6A17F9, 0x265FFB0F, 0xA7626F36), 0x00000001, 16) == Regs(0x9FA2A339, 0x50F38FDA, 0x5E5795C4, 0xFF6A17F9, 0x265FFB0F);
    assert Compress(Regs(0xCBC80C8C, 0xF599E2AC, 0xBDB8C832, 0xDA95C1C3, 0xF8683025), w, 17) == Regs(0x9FA2A339, 0x50F38FDA, 0x5E5795C4, 0xFF6A17F9, 0x265FFB0F);
    assert Round(Regs(0x9FA2A339, 0x50F38FDA, 0x5E5795C4, 0xFF6A17F9, 0x265FFB0F), 0x00000002, 17) == Regs(0x749271BE, 0x9FA2A339, 0x943CE3F6, 0x5E5795C4, 0xFF6A17F9);
    assert Compress(Regs(0xCBC80C8C, 0xF599E2AC, 0xBDB8C832, 0xDA95C1C3, 0xF8683025), w, 18) == Regs(0x749271BE, 0x9FA2A339, 0x943CE3F6, 0x5E5795C4, 0xFF6A17F9);
    assert Round(Regs(0x749271BE, 0x9FA2A339, 0x943CE3F6, 0x5E5795C4, 0xFF6A17F9), 0x00000481, 18) == Regs(0xC0B085D5, 0x749271BE, 0x67E8A8CE, 0x943CE3F6, 0x5E5795C4);
    assert Compress(Regs(0xCBC80C8C, 0xF599E2AC, 0xBDB8C832, 0xDA95C1C3, 0xF8683025), w, 19) == Regs(0xC0B085D5, 0x749271BE, 0x67E8A8CE, 0x943CE3F6, 0x5E5795C4);
    assert Round(Regs(0xC0B085D5, 0x749271BE, 0x67E8A8CE, 0x943CE3F6, 0x5E5795C4), 0x00000002, 19) == Regs(0xB3976CE5, 0xC0B085D5, 0x9D249C6F, 0x67E8A8CE, 0x943CE3F6);
    assert Compress(Regs(0xCBC80C8C, 0xF599E2AC, 0xBDB8C832, 0xDA95C1C3, 0xF8683025), w, 20) == Regs(0xB3976CE5, 0xC0B085D5, 0x9D249C6F, 0x67E8A8CE, 0x943CE3F6);
  }

  lemma Rfc1Inner1Rounds1(w: seq<word>)
    requires |w| == 80
    requires w[20] == 0x00000004 && w[21] == 0x00000902 && w[22] == 0x00000004 && w[23] == 0x00000488 &&
      w[24] == 0x00001206 && w[25] == 0x0000000C && w[26] == 0x00000012 && w[27] == 0x00002408 &&
      w[28] == 0x00000010 && w[29] == 0x000016A0 && w[30] == 0x0000481A && w[31] == 0x00000DB4 &&
      w[32] == 0x0000004C && w[33] == 0x0000902C && w[34] == 0x00001246 && w[35] == 0x00005A88 &&
      w[36] == 0x00012078 && w[37] == 0x000012D8 && w[38] == 0x00000120 && w[39] == 0x00025290
    requires Compress(Regs(0xCBC80C8C, 0xF599E2AC, 0xBDB8C832, 0xDA95C1C3, 0xF8683025), w, 20) == Regs(0xB3976CE5, 0xC0B085D5, 0x9D249C6F, 0x67E8A8CE, 0x943CE3F6)
    ensures Compress(Regs(0xCBC80C8C, 0xF599E2AC, 0xBDB8C832, 0xDA95C1C3, 0xF8683025), w, 40) == Regs(0x371D3D6E, 0xD66D6183, 0x65FCD2A7, 0x1DB7B2E5, 0xDD6F66E0)
  {
    assert Round(Regs(0xB3976CE5, 0xC0B085D5, 0x9D249C6F, 0x67E8A8CE, 0x943CE3F6), 0x00000004, 20) == Regs(0xB0811DC5, 0xB3976CE5, 0x702C2175, 0x9D249C6F, 0x67E8A8CE);
    assert Compress(Regs(0xCBC80C8C, 0xF599E2AC, 0xBDB8C832, 0xDA95C1C3, 0xF8683025), w, 21) == Regs(0xB0811DC5, 0xB3976CE5, 0x702C2175, 0x9D249C6F, 0x67E8A8CE);
    assert Round(Regs(0xB0811DC5, 0xB3976CE5, 0x702C2175, 0x9D249C6F, 0x67E8A8CE), 0x00000902, 21) == Regs(0x45862826, 0xB0811DC5, 0x6CE5DB39, 0x702C2175, 0x9D249C6F);
    assert Compress(Regs(0xCBC80C8C, 0xF599E2AC, 0xBDB8C832, 0xDA95C1C3, 0xF8683025), w, 22) == Regs(0x45862826, 0xB0811DC5, 0x6CE5DB39, 0x702C2175, 0x9D249C6F);
    assert Round(Regs(0x45862826, 0xB0811DC5, 0x6CE5DB39, 0x702C2175, 0x9D249C6F), 0x00000004, 22) == Regs(0x690C7465, 0x45862826, 0x6C204771, 0x6CE5DB39, 0x702C2175);
    assert Compress(Regs(0xCBC80C8C, 0xF599E2AC, 0xBDB8C832, 0xDA95C1C3, 0xF8683025), w, 23) == Regs(0x690C7465, 0x45862826, 0x6C204771, 0x6CE5DB39, 0x702C2175);
    assert Round(Regs(0x690C7465, 0x45862826, 0x6C204771, 0x6CE5DB39, 0x702C2175), 0x00000488, 23) == Regs(0x45D852B9, 0x690C7465, 0x91618A09, 0x6C204771, 0x6CE5DB39);
    assert Compress(Regs(0xCBC80C8C, 0xF599E2AC, 0xBDB8C832, 0xDA95C1C3, 0xF8683025), w, 24) == Regs(0x45D852B9, 0x690C7465, 0x91618A09, 0x6C204771, 0x6CE5DB39);
    assert Round(Regs(0x45D852B9, 0x690C7465, 0x91618A09, 0x6C204771, 0x6CE5DB39), 0x00001206, 24) == Regs(0x2B17E925, 0x45D852B9, 0x5A431D19, 0x91618A09, 0x6C204771);
    assert Compress(Regs(0xCBC80C8C, 0xF599E2AC, 0xBDB8C832, 0xDA95C1C3, 0xF8683025), w, 25) == Regs(0x2B17E925, 0x45D852B9, 0x5A431D19, 0x91618A09, 0x6C204771);
    assert Round(Regs(0x2B17E925, 0x45D852B9, 0x5A431D19, 0x91618A09, 0x6C204771), 0x0000000C, 25) == Regs(0xCCF21D6C, 0x2B17E925, 0x517614AE, 0x5A431D19, 0x91618A09);
    assert Compress(Regs(0xCBC80C8C, 0xF599E2AC, 0xBDB8C832, 0xDA95C1C3, 0xF8683025), w, 26) == Regs(0xCCF21D6C, 0x2B17E925, 0x517614AE, 0x5A431D19, 0x91618A09);
    assert Round(Regs(0xCCF21D6C, 0x2B17E925, 0x517614AE, 0x5A431D19, 0x91618A09), 0x00000012, 26) == Regs(0xBEA203E7, 0xCCF21D6C, 0x4AC5FA49, 0x517614AE, 0x5A431D19);
    assert Compress(Regs(0xCBC80C8C, 0xF599E2AC, 0xBDB8C832, 0xDA95C1C3, 0xF8683025), w, 27) == Regs(0xBEA203E7, 0xCCF21D6C, 0x4AC5FA49, 0x517614AE, 0x5A431D19);
    assert Round(Regs(0xBEA203E7, 0xCCF21D6C, 0x4AC5FA49, 0x517614AE, 0x5A431D19), 0x00002408, 27) == Regs(0x749F9D44, 0xBEA203E7, 0x333C875B, 0x4AC5FA49, 0x517614AE);
    assert Compress(Regs(0xCBC80C8C, 0xF599E2AC, 0xBDB8C832, 0xDA95C1C3, 0xF8683025), w, 28) == Regs(0x749F9D44, 0xBEA203E7, 0x333C875B, 0x4AC5FA49, 0x517614AE);
    assert Round(Regs(0x749F9D44, 0xBEA203E7, 0x333C875B, 0x4AC5FA49, 0x517614AE), 0x00000010, 28) == Regs(0x1B9F27E2, 0x749F9D44, 0xEFA880F9, 0x333C875B, 0x4AC5FA49);
    assert Compress(Regs(0xCBC80C8C, 0xF599E2AC, 0xBDB8C832, 0xDA95C1C3, 0xF8683025), w, 29) == Regs(0x1B9F27E2, 0x749F9D44, 0xEFA880F9, 0x333C875B, 0x4AC5FA49);
    assert Round(Regs(0x1B9F27E2, 0x749F9D44, 0xEFA880F9, 0x333C875B, 0x4AC5FA49), 0x000016A0, 29) == Regs(0xD59093B3, 0x1B9F27E2, 0x1D27E751, 0xEFA880F9, 0x333C875B);
    assert Compress(Regs(0xCBC80C8C, 0xF599E2AC, 0xBDB8C832, 0xDA95C1C3, 0xF8683025), w, 30) == Regs(0xD59093B3, 0x1B9F27E2, 0x1D27E751, 0xEFA880F9, 0x333C875B);
    assert Round(Regs(0xD59093B3, 0x1B9F27E2, 0x1D27E751, 0xEFA880F9, 0x333C875B), 0x0000481A, 30) == Regs(0x3D3971DA, 0xD59093B3, 0x86E7C9F8, 0x1D27E751, 0xEFA880F9);
    assert Compress(Regs(0xCBC80C8C, 0xF599E2AC, 0xBDB8C832, 0xDA95C1C3, 0xF8683025), w, 31) == Regs(0x3D3971DA, 0xD59093B3, 0x86E7C9F8, 0x1D27E751, 0xEFA880F9);
    assert Round(Regs(0x3D3971DA, 0xD59093B3, 0x86E7C9F8, 0x1D27E751, 0xEFA880F9), 0x00000DB4, 31) == Regs(0x540172AF, 0x3D3971DA, 0xF56424EC, 0x86E7C9F8, 0x1D27E751);
    assert Compress(Regs(0xCBC80C8C, 0xF599E2AC, 0xBDB8C832, 0xDA95C1C3, 0xF8683025), w, 32) == Regs(0x540172AF, 0x3D3971DA, 0xF56424EC, 0x86E7C9F8, 0x1D27E751);
    assert Round(Regs(0x540172AF, 0x3D3971DA, 0xF56424EC, 0x86E7C9F8, 0x1D27E751), 0x0000004C, 32) == Regs(0x5AEAC5F6, 0x540172AF, 0x8F4E5C76, 0xF56424EC, 0x86E7C9F8);
    assert Compress(Regs(0xCBC80C8C, 0xF599E2AC, 0xBDB8C832, 0xDA95C1C3, 0xF8683025), w, 33) == Regs(0x5AEAC5F6, 0x540172AF, 0x8F4E5C76, 0xF56424EC, 0x86E7C9F8);
    assert Round(Regs(0x5AEAC5F6, 0x540172AF, 0x8F4E5C76, 0xF56424EC, 0x86E7C9F8), 0x0000902C, 33) == Regs(0x81460EC5, 0x5AEAC5F6, 0xD5005CAB, 0x8F4E5C76, 0xF56424EC);
    assert Compress(Regs(0xCBC80C8C, 0xF599E2AC, 0xBDB8C832, 0xDA95C1C3, 0xF8683025), w, 34) == Regs(0x81460EC5, 0x5AEAC5F6, 0xD5005CAB, 0x8F4E5C76, 0xF56424EC);
    assert Round(Regs(0x81460EC5, 0x5AEAC5F6, 0xD5005CAB, 0x8F4E5C76, 0xF56424EC), 0x00001246, 34) == Regs(0x8DA4C0AE, 0x81460EC5, 0x96BAB17D, 0xD5005CAB, 0x8F4E5C76);
    assert Compress(Regs(0xCBC80C8C, 0xF599E2AC, 0xBDB8C832, 0xDA95C1C3, 0xF8683025), w, 35) == Regs(0x8DA4C0AE, 0x81460EC5, 0x96BAB17D, 0xD5005CAB, 0x8F4E5C76);
    assert Round(Regs(0x8DA4C0AE, 0x81460EC5, 0x96BAB17D, 0xD5005CAB, 0x8F4E5C76), 0x00005A88, 35) == Regs(0x75BD9B83, 0x8DA4C0AE, 0x605183B1, 0x96BAB17D, 0xD5005CAB);
    assert Compress(Regs(0xCBC80C8C, 0xF599E2AC, 0xBDB8C832, 0xDA95C1C3, 0xF8683025), w, 36) == Regs(0x75BD9B83, 0x8DA4C0AE, 0x605183B1, 0x96BAB17D, 0xD5005CAB);
    assert Round(Regs(0x75BD9B83, 0x8DA4C0AE, 0x605183B1, 0x96BAB17D, 0xD5005CAB), 0x00012078, 36) == Regs(0x76DECB94, 0x75BD9B83, 0xA369302B, 0x605183B1, 0x96BAB17D);
    assert Compress(Regs(0xCBC80C8C, 0xF599E2AC, 0xBDB8C832, 0xDA95C1C3, 0xF8683025), w, 37) == Regs(0x76DECB94, 0x75BD9B83, 0xA369302B, 0x605183B1, 0x96BAB17D);
    assert Round(Regs(0x76DECB94, 0x75BD9B83, 0xA369302B, 0x605183B1, 0x96BAB17D), 0x000012D8, 37) == Regs(0x97F34A9D, 0x76DECB94, 0xDD6F66E0, 0xA369302B, 0x605183B1);
    assert Compress(Regs(0xCBC80C8C, 0xF599E2AC, 0xBDB8C832, 0xDA95C1C3, 0xF8683025), w, 38) == Regs(0x97F34A9D, 0x76DECB94, 0xDD6F66E0, 0xA369302B, 0x605183B1);
    assert Round(Regs(0x97F34A9D, 0x76DECB94, 0xDD6F66E0, 0xA369302B, 0x605183B1), 0x00000120, 38) == Regs(0xD66D6183, 0x97F34A9D, 0x1DB7B2E5, 0xDD6F66E0, 0xA369302B);
    assert Compress(Regs(0xCBC80C8C, 0xF599E2AC, 0xBDB8C832, 0xDA95C1C3, 0xF8683025), w, 39) == Regs(0xD66D6183, 0x97F34A9D, 0x1DB7B2E5, 0xDD6F66E0, 0xA369302B);
    assert Round(Regs(0xD66D6183, 0x97F34A9D, 0x1DB7B2E5, 0xDD6F66E0, 0xA369302B), 0x00025290, 39) == Regs(0x371D3D6E, 0xD66D6183, 0x65FCD2A7, 0x1DB7B2E5, 0xDD6F66E0);
    assert Compress(Regs(0xCBC80C8C, 0xF599E2AC, 0xBDB8C832, 0xDA95C1C3, 0xF8683025), w, 40) == Regs(0x371D3D6E, 0xD66D6183, 0x65FCD2A7, 0x1DB7B2E5, 0xDD6F66E0);
  }

  lemma Rfc1Inner1Rounds2(w: seq<word>)
    requires |w| == 80
    requires w[40] == 0x00000100 && w[41] == 0x00016A10 && w[42] == 0x000481A8 && w[43] == 0x0000D240 &&
      w[44] == 0x000004C4 && w[45] == 0x000910C8 && w[46] == 0x0001366C && w[47] == 0x00059798 &&
      w[48] == 0x00120784 && w[49] == 0x00012DB0 && w[50] == 0x0000481C && w[51] == 0x00253B28 &&
      w[52] == 0x00001058 && w[53] == 0x00163138 && w[54] == 0x00481AC8 && w[55] == 0x000D7E80 &&
      w[56] == 0x00016C28 && w[57] == 0x00911E50 && w[58] == 0x001367E0 && w[59] == 0x005B2B10
    requires Compress(Regs(0xCBC80C8C, 0xF599E2AC, 0xBDB8C832, 0xDA95C1C3, 0xF8683025), w, 40) == Regs(0x371D3D6E, 0xD66D6183, 0x65FCD2A7, 0x1DB7B2E5, 0xDD6F66E0)
    ensures Compress(Regs(0xCBC80C8C, 0xF599E2AC, 0xBDB8C832, 0xDA95C1C3, 0xF8683025), w, 60) == Regs(0xD280D918, 0x5243A663, 0xC0317EC8, 0xBA00A1D3, 0xF3973F9F)
  {
    assert Round(Regs(0x371D3D6E, 0xD66D6183, 0x65FCD2A7, 0x1DB7B2E5, 0xDD6F66E0), 0x00000100, 40) == Regs(0xA630C529, 0x371D3D6E, 0xF59B5860, 0x65FCD2A7, 0x1DB7B2E5);
    assert Compress(Regs(0xCBC80C8C, 0xF599E2AC, 0xBDB8C832, 0xDA95C1C3, 0xF8683025), w, 41) == Regs(0xA630C529, 0x371D3D6E, 0xF59B5860, 0x65FCD2A7, 0x1DB7B2E5);
    assert Round(Regs(0xA630C529, 0x371D3D6E, 0xF59B5860, 0x65FCD2A7, 0x1DB7B2E5), 0x00016A10, 41) == Regs(0xE88AD76B, 0xA630C529, 0x8DC74F5B, 0xF59B5860, 0x65FCD2A7);
    assert Compress(Regs(0xCBC80C8C, 0xF599E2AC, 0xBDB8C832, 0xDA95C1C3, 0xF8683025), w, 42) == Regs(0xE88AD76B, 0xA630C529, 0x8DC74F5B, 0xF59B5860, 0x65FCD2A7);
    assert Round(Regs(0xE88AD76B, 0xA630C529, 0x8DC74F5B, 0xF59B5860, 0x65FCD2A7), 0x000481A8, 42) == Regs(0xAC0B4C11, 0xE88AD76B, 0x698C314A, 0x8DC74F5B, 0xF59B5860);
    assert Compress(Regs(0xCBC80C8C, 0xF599E2AC, 0xBDB8C832, 0xDA95C1C3, 0xF8683025), w, 43) == Regs(0xAC0B4C11, 0xE88AD76B, 0x698C314A, 0x8DC74F5B, 0xF59B5860);
    assert Round(Regs(0xAC0B4C11, 0xE88AD76B, 0x698C314A, 0x8DC74F5B, 0xF59B5860), 0x0000D240, 43) == Regs(0xEFAFC0FC, 0xAC0B4C11, 0xFA22B5DA, 0x698C314A, 0x8DC74F5B);
    assert Compress(Regs(0xCBC80C8C, 0xF599E2AC, 0xBDB8C832, 0xDA95C1C3, 0xF8683025), w, 44) == Regs(0xEFAFC0FC, 0xAC0B4C11, 0xFA22B5DA, 0x698C314A, 0x8DC74F5B);
    assert Round(Regs(0xEFAFC0FC, 0xAC0B4C11, 0xFA22B5DA, 0x698C314A, 0x8DC74F5B), 0x000004C4, 44) == Regs(0xFAE565F2, 0xEFAFC0FC, 0x6B02D304, 0xFA22B5DA, 0x698C314A);
    assert Compress(Regs(0xCBC80C8C, 0xF599E2AC, 0xBDB8C832, 0xDA95C1C3, 0xF8683025), w, 45) == Regs(0xFAE565F2, 0xEFAFC0FC, 0x6B02D304, 0xFA22B5DA, 0x698C314A);
    assert Round(Regs(0xFAE565F2, 0xEFAFC0FC, 0x6B02D304, 0xFA22B5DA, 0x698C314A), 0x000910C8, 45) == Regs(0x40808F29, 0xFAE565F2, 0x3BEBF03F, 0x6B02D304, 0xFA22B5DA);
    assert Compress(Regs(0xCBC80C8C, 0xF599E2AC, 0xBDB8C832, 0xDA95C1C3, 0xF8683025), w, 46) == Regs(0x40808F29, 0xFAE565F2, 0x3BEBF03F, 0x6B02D304, 0xFA22B5DA);
    assert Round(Regs(0x40808F29, 0xFAE565F2, 0x3BEBF03F, 0x6B02D304, 0xFA22B5DA), 0x0001366C, 46) == Regs(0x15357F80, 0x40808F29, 0xBEB9597C, 0x3BEBF03F, 0x6B02D304);
    assert Compress(Regs(0xCBC80C8C, 0xF599E2AC, 0xBDB8C832, 0xDA95C1C3, 0xF8683025), w, 47) == Regs(0x15357F80, 0x40808F29, 0xBEB9597C, 0x3BEBF03F, 0x6B02D304);
    assert Round(Regs(0x15357F80, 0x40808F29, 0xBEB9597C, 0x3BEBF03F, 0x6B02D304), 0x00059798, 47) == Regs(0xDB7DF0B7, 0x15357F80, 0x502023CA, 0xBEB9597C, 0x3BEBF03F);
    assert Compress(Regs(0xCBC80C8C, 0xF599E2AC, 0xBDB8C832, 0xDA95C1C3, 0xF8683025), w, 48) == Regs(0xDB7DF0B7, 0x15357F80, 0x502023CA, 0xBEB9597C, 0x3BEBF03F);
    assert Round(Regs(0xDB7DF0B7, 0x15357F80, 0x502023CA, 0xBEB9597C, 0x3BEBF03F), 0x00120784, 48) == Regs(0x4F094762, 0xDB7DF0B7, 0x054D5FE0, 0x502023CA, 0xBEB9597C);
    assert Compress(Regs(0xCBC80C8C, 0xF599E2AC, 0xBDB8C832, 0xDA95C1C3, 0xF8683025), w, 49) == Regs(0x4F094762, 0xDB7DF0B7, 0x054D5FE0, 0x502023CA, 0xBEB9597C);
    assert Round(Regs(0x4F094762, 0xDB7DF0B7, 0x054D5FE0, 0x502023CA, 0xBEB9597C), 0x00012DB0, 49) == Regs(0x806CA433, 0x4F094762, 0xF6DF7C2D, 0x054D5FE0, 0x502023CA);
    assert Compress(Regs(0xCBC80C8C, 0xF599E2AC, 0xBDB8C832, 0xDA95C1C3, 0xF8683025), w, 50) == Regs(0x806CA433, 0x4F094762, 0xF6DF7C2D, 0x054D5FE0, 0x502023CA);
    assert Round(Regs(0x806CA433, 0x4F094762, 0xF6DF7C2D, 0x054D5FE0, 0x502023CA), 0x0000481C, 50) == Regs(0x341E0E92, 0x806CA433, 0x93C251D8, 0xF6DF7C2D, 0x054D5FE0);
    assert Compress(Regs(0xCBC80C8C, 0xF599E2AC, 0xBDB8C832, 0xDA95C1C3, 0xF8683025), w, 51) == Regs(0x341E0E92, 0x806CA433, 0x93C251D8, 0xF6DF7C2D, 0x054D5FE0);
    assert Round(Regs(0x341E0E92, 0x806CA433, 0x93C251D8, 0xF6DF7C2D, 0x054D5FE0), 0x00253B28, 51) == Regs(0xAB1E9E63, 0x341E0E92, 0xE01B290C, 0x93C251D8, 0xF6DF7C2D);
    assert Compress(Regs(0xCBC80C8C, 0xF599E2AC, 0xBDB8C832, 0xDA95C1C3, 0xF8683025), w, 52) == Regs(0xAB1E9E63, 0x341E0E92, 0xE01B290C, 0x93C251D8, 0xF6DF7C2D);
    assert Round(Regs(0xAB1E9E63, 0x341E0E92, 0xE01B290C, 0x93C251D8, 0xF6DF7C2D), 0x00001058, 52) == Regs(0x99E91F6E, 0xAB1E9E63, 0x8D0783A4, 0xE01B290C, 0x93C251D8);
    assert Compress(Regs(0xCBC80C8C, 0xF599E2AC, 0xBDB8C832, 0xDA95C1C3, 0xF8683025), w, 53) == Regs(0x99E91F6E, 0xAB1E9E63, 0x8D0783A4, 0xE01B290C, 0x93C251D8);
    assert Round(Regs(0x99E91F6E, 0xAB1E9E63, 0x8D0783A4, 0xE01B290C, 0x93C251D8), 0x00163138, 53) == Regs(0x0937B8E3, 0x99E91F6E, 0xEAC7A798, 0x8D0783A4, 0xE01B290C);
    assert Compress(Regs(0xCBC80C8C, 0xF599E2AC, 0xBDB8C832, 0xDA95C1C3, 0xF8683025), w, 54) == Regs(0x0937B8E3, 0x99E91F6E, 0xEAC7A798, 0x8D0783A4, 0xE01B290C);
    assert Round(Regs(0x0937B8E3, 0x99E91F6E, 0xEAC7A798, 0x8D0783A4, 0xE01B290C), 0x00481AC8, 54) == Regs(0x203DA4BD, 0x0937B8E3, 0xA67A47DB, 0xEAC7A798, 0x8D0783A4);
    assert Compress(Regs(0xCBC80C8C, 0xF599E2AC, 0xBDB8C832, 0xDA95C1C3, 0xF8683025), w, 55) == Regs(0x203DA4BD, 0x0937B8E3, 0xA67A47DB, 0xEAC7A798, 0x8D0783A4);
    assert Round(Regs(0x203DA4BD, 0x0937B8E3, 0xA67A47DB, 0xEAC7A798, 0x8D0783A4), 0x000D7E80, 55) == Regs(0xCE5CFE7F, 0x203DA4BD, 0xC24DEE38, 0xA67A47DB, 0xEAC7A798);
    assert Compress(Regs(0xCBC80C8C, 0xF599E2AC, 0xBDB8C832, 0xDA95C1C3, 0xF8683025), w, 56) == Regs(0xCE5CFE7F, 0x203DA4BD, 0xC24DEE38, 0xA67A47DB, 0xEAC7A798);
    assert Round(Regs(0xCE5CFE7F, 0x203DA4BD, 0xC24DEE38, 0xA67A47DB, 0xEAC7A798), 0x00016C28, 56) == Regs(0xE802874E, 0xCE5CFE7F, 0x480F692F, 0xC24DEE38, 0xA67A47DB);
    assert Compress(Regs(0xCBC80C8C, 0xF599E2AC, 0xBDB8C832, 0xDA95C1C3, 0xF8683025), w, 57) == Regs(0xE802874E, 0xCE5CFE7F, 0x480F692F, 0xC24DEE38, 0xA67A47DB);
    assert Round(Regs(0xE802874E, 0xCE5CFE7F, 0x480F692F, 0xC24DEE38, 0xA67A47DB), 0x00911E50, 57) == Regs(0x00C5FB23, 0xE802874E, 0xF3973F9F, 0x480F692F, 0xC24DEE38);
    assert Compress(Regs(0xCBC80C8C, 0xF599E2AC, 0xBDB8C832, 0xDA95C1C3, 0xF8683025), w, 58) == Regs(0x00C5FB23, 0xE802874E, 0xF3973F9F, 0x480F692F, 0xC24DEE38);
    assert Round(Regs(0x00C5FB23, 0xE802874E, 0xF3973F9F, 0x480F692F, 0xC24DEE38), 0x001367E0, 58) == Regs(0x5243A663, 0x00C5FB23, 0xBA00A1D3, 0xF3973F9F, 0x480F692F);
    assert Compress(Regs(0xCBC80C8C, 0xF599E2AC, 0xBDB8C832, 0xDA95C1C3, 0xF8683025), w, 59) == Regs(0x5243A663, 0x00C5FB23, 0xBA00A1D3, 0xF3973F9F, 0x480F692F);
    assert Round(Regs(0x5243A663, 0x00C5FB23, 0xBA00A1D3, 0xF3973F9F, 0x480F692F), 0x005B2B10, 59) == Regs(0xD280D918, 0x5243A663, 0xC0317EC8, 0xBA00A1D3, 0xF3973F9F);
    assert Compress(Regs(0xCBC80C8C, 0xF599E2AC, 0xBDB8C832, 0xDA95C1C3, 0xF8683025), w, 60) == Regs(0xD280D918, 0x5243A663, 0xC0317EC8, 0xBA00A1D3, 0xF3973F9F);
  }

  lemma Rfc1Inner1Rounds3(w: seq<word>)
    requires |w| == 80
    requires w[60] == 0x01207940 && w[61] == 0x0013A310 && w[62] == 0x00000060 && w[63] == 0x02537BD0 &&
      w[64] == 0x00010140 && w[65] == 0x016A1150 && w[66] == 0x048088E8 && w[67] == 0x00D24080 &&
      w[68] == 0x0004C500 && w[69] == 0x0910C880 && w[70] == 0x01366C00 && w[71] == 0x0597BC00 &&
      w[72] == 0x12078410 && w[73] == 0x012C9020 && w[74] == 0x00485490 && w[75] == 0x253A9920 &&
      w[76] == 0x00105800 && w[77] == 0x163089A0 && w[78] == 0x481BE800 && w[79] == 0x0D7D1D00
    requires Compress(Regs(0xCBC80C8C, 0xF599E2AC, 0xBDB8C832, 0xDA95C1C3, 0xF8683025), w, 60) == Regs(0xD280D918, 0x5243A663, 0xC0317EC8, 0xBA00A1D3, 0xF3973F9F)
    ensures Compress(Regs(0xCBC80C8C, 0xF599E2AC, 0xBDB8C832, 0xDA95C1C3, 0xF8683025), w, 80) == Regs(0xE2717E46, 0xEF9FF3B0, 0x9FEA126A, 0xAFCB727E, 0x9ED10A67)
  {
    assert Round(Regs(0xD280D918, 0x5243A663, 0xC0317EC8, 0xBA00A1D3, 0xF3973F9F), 0x01207940, 60) == Regs(0x37A81747, 0xD280D918, 0xD490E998, 0xC0317EC8, 0xBA00A1D3);
    assert Compress(Regs(0xCBC80C8C, 0xF599E2AC, 0xBDB8C832, 0xDA95C1C3, 0xF8683025), w, 61) == Regs(0x37A81747, 0xD280D918, 0xD490E998, 0xC0317EC8, 0xBA00A1D3);
    assert Round(Regs(0x37A81747, 0xD280D918, 0xD490E998, 0xC0317EC8, 0xBA00A1D3), 0x0013A310, 61) == Regs(0x3F9B3DE7, 0x37A81747, 0x34A03646, 0xD490E998, 0xC0317EC8);
    assert Compress(Regs(0xCBC80C8C, 0xF599E2AC, 0xBDB8C832, 0xDA95C1C3, 0xF8683025), w, 62) == Regs(0x3F9B3DE7, 0x37A81747, 0x34A03646, 0xD490E998, 0xC0317EC8);
    assert Round(Regs(0x3F9B3DE7, 0x37A81747, 0x34A03646, 0xD490E998, 0xC0317EC8), 0x00000060, 62) == Regs(0x5594C67E, 0x3F9B3DE7, 0xCDEA05D1, 0x34A03646, 0xD490E998);
    assert Compress(Regs(0xCBC80C8C, 0xF599E2AC, 0xBDB8C832, 0xDA95C1C3, 0xF8683025), w, 63) == Regs(0x5594C67E, 0x3F9B3DE7, 0xCDEA05D1, 0x34A03646, 0xD490E998);
    assert Round(Regs(0x5594C67E, 0x3F9B3DE7, 0xCDEA05D1, 0x34A03646, 0xD490E998), 0x02537BD0, 63) == Regs(0x1AB10578, 0x5594C67E, 0xCFE6CF79, 0xCDEA05D1, 0x34A03646);
    assert Compress(Regs(0xCBC80C8C, 0xF599E2AC, 0xBDB8C832, 0xDA95C1C3, 0xF8683025), w, 64) == Regs(0x1AB10578, 0x5594C67E, 0xCFE6CF79, 0xCDEA05D1, 0x34A03646);
    assert Round(Regs(0x1AB10578, 0x5594C67E, 0xCFE6CF79, 0xCDEA05D1, 0x34A03646), 0x00010140, 64) == Regs(0xACBCB535, 0x1AB10578, 0x9565319F, 0xCFE6CF79, 0xCDEA05D1);
    assert Compress(Regs(0xCBC80C8C, 0xF599E2AC, 0xBDB8C832, 0xDA95C1C3, 0xF8683025), w, 65) == Regs(0xACBCB535, 0x1AB10578, 0x9565319F, 0xCFE6CF79, 0xCDEA05D1);
    assert Round(Regs(0xACBCB535, 0x1AB10578, 0x9565319F, 0xCFE6CF79, 0xCDEA05D1), 0x016A1150, 65) == Regs(0x71807B4A, 0xACBCB535, 0x06AC415E, 0x9565319F, 0xCFE6CF79);
    assert Compress(Regs(0xCBC80C8C, 0xF599E2AC, 0xBDB8C832, 0xDA95C1C3, 0xF8683025), w, 66) == Regs(0x71807B4A, 0xACBCB535, 0x06AC415E, 0x9565319F, 0xCFE6CF79);
    assert Round(Regs(0x71807B4A, 0xACBCB535, 0x06AC415E, 0x9565319F, 0xCFE6CF79), 0x048088E8, 66) == Regs(0x0E4F4979, 0x71807B4A, 0x6B2F2D4D, 0x06AC415E, 0x9565319F);
    assert Compress(Regs(0xCBC80C8C, 0xF599E2AC, 0xBDB8C832, 0xDA95C1C3, 0xF8683025), w, 67) == Regs(0x0E4F4979, 0x71807B4A, 0x6B2F2D4D, 0x06AC415E, 0x9565319F);
    assert Round(Regs(0x0E4F4979, 0x71807B4A, 0x6B2F2D4D, 0x06AC415E, 0x9565319F), 0x00D24080, 67) == Regs(0x46867A6F, 0x0E4F4979, 0x9C601ED2, 0x6B2F2D4D, 0x06AC415E);
    assert Compress(Regs(0xCBC80C8C, 0xF599E2AC, 0xBDB8C832, 0xDA95C1C3, 0xF8683025), w, 68) == Regs(0x46867A6F, 0x0E4F4979, 0x9C601ED2, 0x6B2F2D4D, 0x06AC415E);
    assert Round(Regs(0x46867A6F, 0x0E4F4979, 0x9C601ED2, 0x6B2F2D4D, 0x06AC415E), 0x0004C500, 68) == Regs(0x9AE39102, 0x46867A6F, 0x4393D25E, 0x9C601ED2, 0x6B2F2D4D);
    assert Compress(Regs(0xCBC80C8C, 0xF599E2AC, 0xBDB8C832, 0xDA95C1C3, 0xF8683025), w, 69) == Regs(0x9AE39102, 0x46867A6F, 0x4393D25E, 0x9C601ED2, 0x6B2F2D4D);
    assert Round(Regs(0x9AE39102, 0x46867A6F, 0x4393D25E, 0x9C601ED2, 0x6B2F2D4D), 0x0910C880, 69) == Regs(0x348A8ED9, 0x9AE39102, 0xD1A19E9B, 0x4393D25E, 0x9C601ED2);
    assert Compress(Regs(0xCBC80C8C, 0xF599E2AC, 0xBDB8C832, 0xDA95C1C3, 0xF8683025), w, 70) == Regs(0x348A8ED9, 0x9AE39102, 0xD1A19E9B, 0x4393D25E, 0x9C601ED2);
    assert Round(Regs(0x348A8ED9, 0x9AE39102, 0xD1A19E9B, 0x4393D25E, 0x9C601ED2), 0x01366C00, 70) == Regs(0x021D0595, 0x348A8ED9, 0xA6B8E440, 0xD1A19E9B, 0x4393D25E);
    assert Compress(Regs(0xCBC80C8C, 0xF599E2AC, 0xBDB8C832, 0xDA95C1C3, 0xF8683025), w, 71) == Regs(0x021D0595, 0x348A8ED9, 0xA6B8E440, 0xD1A19E9B, 0x4393D25E);
    assert Round(Regs(0x021D0595, 0x348A8ED9, 0xA6B8E440, 0xD1A19E9B, 0x4393D25E), 0x0597BC00, 71) == Regs(0x9AC2F6D6, 0x021D0595, 0x4D22A3B6, 0xA6B8E440, 0xD1A19E9B);
    assert Compress(Regs(0xCBC80C8C, 0xF599E2AC, 0xBDB8C832, 0xDA95C1C3, 0xF8683025), w, 72) == Regs(0x9AC2F6D6, 0x021D0595, 0x4D22A3B6, 0xA6B8E440, 0xD1A19E9B);
    assert Round(Regs(0x9AC2F6D6, 0x021D0595, 0x4D22A3B6, 0xA6B8E440, 0xD1A19E9B), 0x12078410, 72) == Regs(0xEFF201B7, 0x9AC2F6D6, 0x40874165, 0x4D22A3B6, 0xA6B8E440);
    assert Compress(Regs(0xCBC80C8C, 0xF599E2AC, 0xBDB8C832, 0xDA95C1C3, 0xF8683025), w, 73) == Regs(0xEFF201B7, 0x9AC2F6D6, 0x40874165, 0x4D22A3B6, 0xA6B8E440);
    assert Round(Regs(0xEFF201B7, 0x9AC2F6D6, 0x40874165, 0x4D22A3B6, 0xA6B8E440), 0x012C9020, 73) == Regs(0x07EF8138, 0xEFF201B7, 0xA6B0BDB5, 0x40874165, 0x4D22A3B6);
    assert Compress(Regs(0xCBC80C8C, 0xF599E2AC, 0xBDB8C832, 0xDA95C1C3, 0xF8683025), w, 74) == Regs(0x07EF8138, 0xEFF201B7, 0xA6B0BDB5, 0x40874165, 0x4D22A3B6);
    assert Round(Regs(0x07EF8138, 0xEFF201B7, 0xA6B0BDB5, 0x40874165, 0x4D22A3B6), 0x00485490, 74) == Regs(0x1F83DE83, 0x07EF8138, 0xFBFC806D, 0xA6B0BDB5, 0x40874165);
    assert Compress(Regs(0xCBC80C8C, 0xF599E2AC, 0xBDB8C832, 0xDA95C1C3, 0xF8683025), w, 75) == Regs(0x1F83DE83, 0x07EF8138, 0xFBFC806D, 0xA6B0BDB5, 0x40874165);
    assert Round(Regs(0x1F83DE83, 0x07EF8138, 0xFBFC806D, 0xA6B0BDB5, 0x40874165), 0x253A9920, 75) == Regs(0x7B44299E, 0x1F83DE83, 0x01FBE04E, 0xFBFC806D, 0xA6B0BDB5);
    assert Compress(Regs(0xCBC80C8C, 0xF599E2AC, 0xBDB8C832, 0xDA95C1C3, 0xF8683025), w, 76) == Regs(0x7B44299E, 0x1F83DE83, 0x01FBE04E, 0xFBFC806D, 0xA6B0BDB5);
    assert Round(Regs(0x7B44299E, 0x1F83DE83, 0x01FBE04E, 0xFBFC806D, 0xA6B0BDB5), 0x00105800, 76) == Regs(0xBF2DC9FA, 0x7B44299E, 0xC7E0F7A0, 0x01FBE04E, 0xFBFC806D);
    assert Compress(Regs(0xCBC80C8C, 0xF599E2AC, 0xBDB8C832, 0xDA95C1C3, 0xF8683025), w, 77) == Regs(0xBF2DC9FA, 0x7B44299E, 0xC7E0F7A0, 0x01FBE04E, 0xFBFC806D);
    assert Round(Regs(0xBF2DC9FA, 0x7B44299E, 0xC7E0F7A0, 0x01FBE04E, 0xFBFC806D), 0x163089A0, 77) == Regs(0x7FA849AA, 0xBF2DC9FA, 0x9ED10A67, 0xC7E0F7A0, 0x01FBE04E);
    assert Compress(Regs(0xCBC80C8C, 0xF599E2AC, 0xBDB8C832, 0xDA95C1C3, 0xF8683025), w, 78) == Regs(0x7FA849AA, 0xBF2DC9FA, 0x9ED10A67, 0xC7E0F7A0, 0x01FBE04E);
    assert Round(Regs(0x7FA849AA, 0xBF2DC9FA, 0x9ED10A67, 0xC7E0F7A0, 0x01FBE04E), 0x481BE800, 78) == Regs(0xEF9FF3B0, 0x7FA849AA, 0xAFCB727E, 0x9ED10A67, 0xC7E0F7A0);
    assert Compress(Regs(0xCBC80C8C, 0xF599E2AC, 0xBDB8C832, 0xDA95C1C3, 0xF8683025), w, 79) == Regs(0xEF9FF3B0, 0x7FA849AA, 0xAFCB727E, 0x9ED10A67, 0xC7E0F7A0);
    assert Round(Regs(0xEF9FF3B0, 0x7FA849AA, 0xAFCB727E, 0x9ED10A67, 0xC7E0F7A0), 0x0D7D1D00, 79) == Regs(0xE2717E46, 0xEF9FF3B0, 0x9FEA126A, 0xAFCB727E, 0x9ED10A67);
    assert Compress(Regs(0xCBC80C8C, 0xF599E2AC, 0xBDB8C832, 0xDA95C1C3, 0xF8683025), w, 80) == Regs(0xE2717E46, 0xEF9FF3B0, 0x9FEA126A, 0xAFCB727E, 0x9ED10A67);
  }

  lemma Rfc1Inner1Compress(words: seq<word>)
    requires |words| == 16
    requires words[0] == 0x00000000 && words[1] == 0x00000001 && words[2] == 0x80000000 && words[3] == 0x00000000 &&
      words[4] == 0x00000000 && words[5] == 0x00000000 && words[6] == 0x00000000 && words[7] == 0x00000000 &&
      words[8] == 0x00000000 && words[9] == 0x00000000 && words[10] == 0x00000000 && words[11] == 0x00000000 &&
      words[12] == 0x00000000 && words[13] == 0x00000000 && words[14] == 0x00000000 && words[15] == 0x00000240
    ensures Compress(Regs(0xCBC80C8C, 0xF599E2AC, 0xBDB8C832, 0xDA95C1C3, 0xF8683025), Schedule(words), 80) == Regs(0xE2717E46, 0xEF9FF3B0, 0x9FEA126A, 0xAFCB727E, 0x9ED10A67)
  {
    var w := Schedule(words);
    ScheduleIsSchedule(words);
    forall j | 0 <= j < 16
      ensures w[j] == words[j]
    {
      assert w[..16][j] == w[j];
    }
    Rfc1Inner1Schedule0(w);
    Rfc1Inner1Schedule1(w);
    Rfc1Inner1Schedule2(w);
    Rfc1Inner1Schedule3(w);
    Rfc1Inner1Rounds0(w);
    Rfc1Inner1Rounds1(w);
    Rfc1Inner1Rounds2(w);
    Rfc1Inner1Rounds3(w);
  }

  lemma Rfc1InnerDigest()
    ensures Sha1.Digest(InnerInput(RfcKey, CounterOne)) == [0xAE, 0x39, 0x8A, 0xD2, 0xE5, 0x39, 0xD6, 0x5C, 0x5D, 0xA2, 0xDA, 0x9C, 0x8A, 0x61, 0x34, 0x41, 0x97, 0x39, 0x3A, 0x8C]
  {
    var p := Sha1.Pad(InnerInput(RfcKey, CounterOne));
    Rfc1InnerLength();
    Rfc1InnerBlock0(p);
    Rfc1InnerBlock1(p);
    var b := Split(p);
    ChainTwo(IV, b);
    Rfc1Inner0Compress(b[0].words);
    Rfc1Inner1Compress(b[1].words);
    assert Sha1.Chain(IV, b) == Regs(0xAE398AD2, 0xE539D65C, 0x5DA2DA9C, 0x8A613441, 0x97393A8C);
    Rfc1InnerOutput();
  }

  lemma Rfc1InnerOutput()
    ensures Serialize(Regs(0xAE398AD2, 0xE539D65C, 0x5DA2DA9C, 0x8A613441, 0x97393A8C)) == [0xAE, 0x39, 0x8A, 0xD2, 0xE5, 0x39, 0xD6, 0x5C, 0x5D, 0xA2, 0xDA, 0x9C, 0x8A, 0x61, 0x34, 0x41, 0x97, 0x39, 0x3A, 0x8C]
  {
  }

  lemma Rfc1OuterInput0(d: seq<byte>)
    requires d == [0xAE, 0x39, 0x8A, 0xD2, 0xE5, 0x39, 0xD6, 0x5C, 0x5D, 0xA2, 0xDA, 0x9C, 0x8A, 0x61, 0x34, 0x41, 0x97, 0x39, 0x3A, 0x8C]
    ensures |OuterInput(RfcKey, d)| == 84
    ensures var m := OuterInput(RfcKey, d);
      m[0] == 0x6D && m[1] == 0x6E && m[2] == 0x6F && m[3] == 0x68 &&
      m[4] == 0x69 && m[5] == 0x6A && m[6] == 0x6B && m[7] == 0x64 &&
      m[8] == 0x65 && m[9] == 0x6C && m[10] == 0x6D && m[11] == 0x6E &&
      m[12] == 0x6F && m[13] == 0x68 && m[14] == 0x69 && m[15] == 0x6A
  {
    var m := OuterInput(RfcKey, d);
    NormalizeKeyPrefix(RfcKey);
    var k := NormalizeKey(RfcKey);
    assert m[0] == k[0] ^ 0x5C;
    assert m[1] == k[1] ^ 0x5C;
    assert m[2] == k[2] ^ 0x5C;
    assert m[3] == k[3] ^ 0x5C;
    assert m[4] == k[4] ^ 0x5C;
    assert m[5] == k[5] ^ 0x5C;
    assert m[6] == k[6] ^ 0x5C;
    assert m[7] == k[7] ^ 0x5C;
    assert m[8] == k[8] ^ 0x5C;
    assert m[9] == k[9] ^ 0x5C;
    assert m[10] == k[10] ^ 0x5C;
    assert m[11] == k[11] ^ 0x5C;
    assert m[12] == k[12] ^ 0x5C;
    assert m[13] == k[13] ^ 0x5C;
    assert m[14] == k[14] ^ 0x5C;
    assert m[15] == k[15] ^ 0x5C;
  }

  lemma Rfc1OuterInput1(d: seq<byte>)
    requires d == [0xAE, 0x39, 0x8A, 0xD2, 0xE5, 0x39, 0xD6, 0x5C, 0x5D, 0xA2, 0xDA, 0x9C, 0x8A, 0x61, 0x34, 0x41, 0x97, 0x39, 0x3A, 0x8C]
    ensures |OuterInput(RfcKey, d)| == 84
    ensures var m := OuterInput(RfcKey, d);
      m[16] == 0x6B && m[17] == 0x64 && m[18] == 0x65 && m[19] == 0x6C &&
      m[20] == 0x5C && m[21] == 0x5C && m[22] == 0x5C && m[23] == 0x5C &&
      m[24] == 0x5C && m[25] == 0x5C && m[26] == 0x5C && m[27] == 0x5C &&
      m[28] == 0x5C && m[29] == 0x5C && m[30] == 0x5C && m[31] == 0x5C
  {
    var m := OuterInput(RfcKey, d);
    NormalizeKeyPrefix(RfcKey);
    var k := NormalizeKey(RfcKey);
    assert m[16] == k[16] ^ 0x5C;
    assert m[17] == k[17] ^ 0x5C;
    assert m[18] == k[18] ^ 0x5C;
    assert m[19] == k[19] ^ 0x5C;
    assert m[20] == k[20] ^ 0x5C;
    assert m[21] == k[21] ^ 0x5C;
    assert m[22] == k[22] ^ 0x5C;
    assert m[23] == k[23] ^ 0x5C;
    assert m[24] == k[24] ^ 0x5C;
    assert m[25] == k[25] ^ 0x5C;
    assert m[26] == k[26] ^ 0x5C;
    assert m[27] == k[27] ^ 0x5C;
    assert m[28] == k[28] ^ 0x5C;
    assert m[29] == k[29] ^ 0x5C;
    assert m[30] == k[30] ^ 0x5C;
    assert m[31] == k[31] ^ 0x5C;
  }

  lemma Rfc1OuterInput2(d: seq<byte>)
    requires d == [0xAE, 0x39, 0x8A, 0xD2, 0xE5, 0x39, 0xD6, 0x5C, 0x5D, 0xA2, 0xDA, 0x9C, 0x8A, 0x61, 0x34, 0x41, 0x97, 0x39, 0x3A, 0x8C]
    ensures |OuterInput(RfcKey, d)| == 84
    ensures var m := OuterInput(RfcKey, d);
      m[32] == 0x5C && m[33] == 0x5C && m[34] == 0x5C && m[35] == 0x5C &&
      m[36] == 0x5C && m[37] == 0x5C && m[38] == 0x5C && m[39] == 0x5C &&
      m[40] == 0x5C && m[41] == 0x5C && m[42] == 0x5C && m[43] == 0x5C &&
      m[44] == 0x5C && m[45] == 0x5C && m[46] == 0x5C && m[47] == 0x5C
  {
    var m := OuterInput(RfcKey, d);
    NormalizeKeyPrefix(RfcKey);
    var k := NormalizeKey(RfcKey);
    assert m[32] == k[32] ^ 0x5C;
    assert m[33] == k[33] ^ 0x5C;
    assert m[34] == k[34] ^ 0x5C;
    assert m[35] == k[35] ^ 0x5C;
    assert m[36] == k[36] ^ 0x5C;
    assert m[37] == k[37] ^ 0x5C;
    assert m[38] == k[38] ^ 0x5C;
    assert m[39] == k[39] ^ 0x5C;
    assert m[40] == k[40] ^ 0x5C;
    assert m[41] == k[41] ^ 0x5C;
    assert m[42] == k[42] ^ 0x5C;
    assert m[43] == k[43] ^ 0x5C;
    assert m[44] == k[44] ^ 0x5C;
    assert m[45] == k[45] ^ 0x5C;
    assert m[46] == k[46] ^ 0x5C;
    assert m[47] == k[47] ^ 0x5C;
  }

  lemma Rfc1OuterInput3(d: seq<byte>)
    requires d == [0xAE, 0x39, 0x8A, 0xD2, 0xE5, 0x39, 0xD6, 0x5C, 0x5D, 0xA2, 0xDA, 0x9C, 0x8A, 0x61, 0x34, 0x41, 0x97, 0x39, 0x3A, 0x8C]
    ensures |OuterInput(RfcKey, d)| == 84
    ensures var m := OuterInput(RfcKey, d);
      m[48] == 0x5C && m[49] == 0x5C && m[50] == 0x5C && m[51] == 0x5C &&
      m[52] == 0x5C && m[53] == 0x5C && m[54] == 0x5C && m[55] == 0x5C &&
      m[56] == 0x5C && m[57] == 0x5C && m[58] == 0x5C && m[59] == 0x5C &&
      m[60] == 0x5C && m[61] == 0x5C && m[62] == 0x5C && m[63] == 0x5C
  {
    var m := OuterInput(RfcKey, d);
    NormalizeKeyPrefix(RfcKey);
    var k := NormalizeKey(RfcKey);
    assert m[48] == k[48] ^ 0x5C;
    assert m[49] == k[49] ^ 0x5C;
    assert m[50] == k[50] ^ 0x5C;
    assert m[51] == k[51] ^ 0x5C;
    assert m[52] == k[52] ^ 0x5C;
    assert m[53] == k[53] ^ 0x5C;
    assert m[54] == k[54] ^ 0x5C;
    assert m[55] == k[55] ^ 0x5C;
    assert m[56] == k[56] ^ 0x5C;
    assert m[57] == k[57] ^ 0x5C;
    assert m[58] == k[58] ^ 0x5C;
    assert m[59] == k[59] ^ 0x5C;
    assert m[60] == k[60] ^ 0x5C;
    assert m[61] == k[61] ^ 0x5C;
    assert m[62] == k[62] ^ 0x5C;
    assert m[63] == k[63] ^ 0x5C;
  }

  lemma Rfc1OuterInput4(d: seq<byte>)
    requires d == [0xAE, 0x39, 0x8A, 0xD2, 0xE5, 0x39, 0xD6, 0x5C, 0x5D, 0xA2, 0xDA, 0x9C, 0x8A, 0x61, 0x34, 0x41, 0x97, 0x39, 0x3A, 0x8C]
    ensures |OuterInput(RfcKey, d)| == 84
    ensures var m := OuterInput(RfcKey, d);
      m[64] == 0xAE && m[65] == 0x39 && m[66] == 0x8A && m[67] == 0xD2 &&
      m[68] == 0xE5 && m[69] == 0x39 && m[70] == 0xD6 && m[71] == 0x5C &&
      m[72] == 0x5D && m[73] == 0xA2 && m[74] == 0xDA && m[75] == 0x9C &&
      m[76] == 0x8A && m[77] == 0x61 && m[78] == 0x34 && m[79] == 0x41
  {
    var m := OuterInput(RfcKey, d);
    assert m[64] == m[64..][0];
    assert m[65] == m[64..][1];
    assert m[66] == m[64..][2];
    assert m[67] == m[64..][3];
    assert m[68] == m[64..][4];
    assert m[69] == m[64..][5];
    assert m[70] == m[64..][6];
    assert m[71] == m[64..][7];
    assert m[72] == m[64..][8];
    assert m[73] == m[64..][9];
    assert m[74] == m[64..][10];
    assert m[75] == m[64..][11];
    assert m[76] == m[64..][12];
    assert m[77] == m[64..][13];
    assert m[78] == m[64..][14];
    assert m[79] == m[64..][15];
  }

  lemma Rfc1OuterInput5(d: seq<byte>)
    requires d == [0xAE, 0x39, 0x8A, 0xD2, 0xE5, 0x39, 0xD6, 0x5C, 0x5D, 0xA2, 0xDA, 0x9C, 0x8A, 0x61, 0x34, 0x41, 0x97, 0x39, 0x3A, 0x8C]
    ensures |OuterInput(RfcKey, d)| == 84
    ensures var m := OuterInput(RfcKey, d);
      m[80] == 0x97 && m[81] == 0x39 && m[82] == 0x3A && m[83] == 0x8C
  {
    var m := OuterInput(RfcKey, d);
    assert m[80] == m[64..][16];
    assert m[81] == m[64..][17];
    assert m[82] == m[64..][18];
    assert m[83] == m[64..][19];
  }

  lemma Rfc1OuterLength(d: seq<byte>)
    requires d == [0xAE, 0x39, 0x8A, 0xD2, 0xE5, 0x39, 0xD6, 0x5C, 0x5D, 0xA2, 0xDA, 0x9C, 0x8A, 0x61, 0x34, 0x41, 0x97, 0x39, 0x3A, 0x8C]
    ensures |Sha1.Pad(OuterInput(RfcKey, d))| == 128
  {
    HmacInputLength(RfcKey, d);
  }

  lemma Rfc1OuterBytes0(p: seq<byte>, d: seq<byte>)
    requires p == Sha1.Pad(OuterInput(RfcKey, d)) && d == [0xAE, 0x39, 0x8A, 0xD2, 0xE5, 0x39, 0xD6, 0x5C, 0x5D, 0xA2, 0xDA, 0x9C, 0x8A, 0x61, 0x34, 0x41, 0x97, 0x39, 0x3A, 0x8C]
    ensures |p| == 128
    ensures p[0] == 0x6D && p[1] == 0x6E && p[2] == 0x6F && p[3] == 0x68 &&
      p[4] == 0x69 && p[5] == 0x6A && p[6] == 0x6B && p[7] == 0x64 &&
      p[8] == 0x65 && p[9] == 0x6C && p[10] == 0x6D && p[11] == 0x6E &&
      p[12] == 0x6F && p[13] == 0x68 && p[14] == 0x69 && p[15] == 0x6A
  {
    var m := OuterInput(RfcKey, d);
    Rfc1OuterLength(d);
    Rfc1OuterInput0(d);
    Sha1.PadShape(m);
    assert p[0] == p[..84][0];
    assert p[1] == p[..84][1];
    assert p[2] == p[..84][2];
    assert p[3] == p[..84][3];
    assert p[4] == p[..84][4];
    assert p[5] == p[..84][5];
    assert p[6] == p[..84][6];
    assert p[7] == p[..84][7];
    assert p[8] == p[..84][8];
    assert p[9] == p[..84][9];
    assert p[10] == p[..84][10];
    assert p[11] == p[..84][11];
    assert p[12] == p[..84][12];
    assert p[13] == p[..84][13];
    assert p[14] == p[..84][14];
    assert p[15] == p[..84][15];
  }

  lemma Rfc1OuterBytes1(p: seq<byte>, d: seq<byte>)
    requires p == Sha1.Pad(OuterInput(RfcKey, d)) && d == [0xAE, 0x39, 0x8A, 0xD2, 0xE5, 0x39, 0xD6, 0x5C, 0x5D, 0xA2, 0xDA, 0x9C, 0x8A, 0x61, 0x34, 0x41, 0x97, 0x39, 0x3A, 0x8C]
    ensures |p| == 128
    ensures p[16] == 0x6B && p[17] == 0x64 && p[18] == 0x65 && p[19] == 0x6C &&
      p[20] == 0x5C && p[21] == 0x5C && p[22] == 0x5C && p[23] == 0x5C &&
      p[24] == 0x5C && p[25] == 0x5C && p[26] == 0x5C && p[27] == 0x5C &&
      p[28] == 0x5C && p[29] == 0x5C && p[30] == 0x5C && p[31] == 0x5C
  {
    var m := OuterInput(RfcKey, d);
    Rfc1OuterLength(d);
    Rfc1OuterInput1(d);
    Sha1.PadShape(m);
    assert p[16] == p[..84][16];
    assert p[17] == p[..84][17];
    assert p[18] == p[..84][18];
    assert p[19] == p[..84][19];
    assert p[20] == p[..84][20];
    assert p[21] == p[..84][21];
    assert p[22] == p[..84][22];
    assert p[23] == p[..84][23];
    assert p[24] == p[..84][24];
    assert p[25] == p[..84][25];
    assert p[26] == p[..84][26];
    assert p[27] == p[..84][27];
    assert p[28] == p[..84][28];
    assert p[29] == p[..84][29];
    assert p[30] == p[..84][30];
    assert p[31] == p[..84][31];
  }

  lemma Rfc1OuterBytes2(p: seq<byte>, d: seq<byte>)
    requires p == Sha1.Pad(OuterInput(RfcKey, d)) && d == [0xAE, 0x39, 0x8A, 0xD2, 0xE5, 0x39, 0xD6, 0x5C, 0x5D, 0xA2, 0xDA, 0x9C, 0x8A, 0x61, 0x34, 0x41, 0x97, 0x39, 0x3A, 0x8C]
    ensures |p| == 128
    ensures p[32] == 0x5C && p[33] == 0x5C && p[34] == 0x5C && p[35] == 0x5C &&
      p[36] == 0x5C && p[37] == 0x5C && p[38] == 0x5C && p[39] == 0x5C &&
      p[40] == 0x5C && p[41] == 0x5C && p[42] == 0x5C && p[43] == 0x5C &&
      p[44] == 0x5C && p[45] == 0x5C && p[46] == 0x5C && p[47] == 0x5C
  {
    var m := OuterInput(RfcKey, d);
    Rfc1OuterLength(d);
    Rfc1OuterInput2(d);
    Sha1.PadShape(m);
    assert p[32] == p[..84][32];
    assert p[33] == p[..84][33];
    assert p[34] == p[..84][34];
    assert p[35] == p[..84][35];
    assert p[36] == p[..84][36];
    assert p[37] == p[..84][37];
    assert p[38] == p[..84][38];
    assert p[39] == p[..84][39];
    assert p[40] == p[..84][40];
    assert p[41] == p[..84][41];
    assert p[42] == p[..84][42];
    assert p[43] == p[..84][43];
    assert p[44] == p[..84][44];
    assert p[45] == p[..84][45];
    assert p[46] == p[..84][46];
    assert p[47] == p[..84][47];
  }

  lemma Rfc1OuterBytes3(p: seq<byte>, d: seq<byte>)
    requires p == Sha1.Pad(OuterInput(RfcKey, d)) && d == [0xAE, 0x39, 0x8A, 0xD2, 0xE5, 0x39, 0xD6, 0x5C, 0x5D, 0xA2, 0xDA, 0x9C, 0x8A, 0x61, 0x34, 0x41, 0x97, 0x39, 0x3A, 0x8C]
    ensures |p| == 128
    ensures p[48] == 0x5C && p[49] == 0x5C && p[50] == 0x5C && p[51] == 0x5C &&
      p[52] == 0x5C && p[53] == 0x5C && p[54] == 0x5C && p[55] == 0x5C &&
      p[56] == 0x5C && p[57] == 0x5C && p[58] == 0x5C && p[59] == 0x5C &&
      p[60] == 0x5C && p[61] == 0x5C && p[62] == 0x5C && p[63] == 0x5C
  {
    var m := OuterInput(RfcKey, d);
    Rfc1OuterLength(d);
    Rfc1OuterInput3(d);
    Sha1.PadShape(m);
    assert p[48] == p[..84][48];
    assert p[49] == p[..84][49];
    assert p[50] == p[..84][50];
    assert p[51] == p[..84][51];
    assert p[52] == p[..84][52];
    assert p[53] == p[..84][53];
    assert p[54] == p[..84][54];
    assert p[55] == p[..84][55];
    assert p[56] == p[..84][56];
    assert p[57] == p[..84][57];
    assert p[58] == p[..84][58];
    assert p[59] == p[..84][59];
    assert p[60] == p[..84][60];
    assert p[61] == p[..84][61];
    assert p[62] == p[..84][62];
    assert p[63] == p[..84][63];
  }

  lemma Rfc1OuterBytes4(p: seq<byte>, d: seq<byte>)
    requires p == Sha1.Pad(OuterInput(RfcKey, d)) && d == [0xAE, 0x39, 0x8A, 0xD2, 0xE5, 0x39, 0xD6, 0x5C, 0x5D, 0xA2, 0xDA, 0x9C, 0x8A, 0x61, 0x34, 0x41, 0x97, 0x39, 0x3A, 0x8C]
    ensures |p| == 128
    ensures p[64] == 0xAE && p[65] == 0x39 && p[66] == 0x8A && p[67] == 0xD2 &&
      p[68] == 0xE5 && p[69] == 0x39 && p[70] == 0xD6 && p[71] == 0x5C &&
      p[72] == 0x5D && p[73] == 0xA2 && p[74] == 0xDA && p[75] == 0x9C &&
      p[76] == 0x8A && p[77] == 0x61 && p[78] == 0x34 && p[79] == 0x41
  {
    var m := OuterInput(RfcKey, d);
    Rfc1OuterLength(d);
    Rfc1OuterInput4(d);
    Sha1.PadShape(m);
    assert p[64] == p[..84][64];
    assert p[65] == p[..84][65];
    assert p[66] == p[..84][66];
    assert p[67] == p[..84][67];
    assert p[68] == p[..84][68];
    assert p[69] == p[..84][69];
    assert p[70] == p[..84][70];
    assert p[71] == p[..84][71];
    assert p[72] == p[..84][72];
    assert p[73] == p[..84][73];
    assert p[74] == p[..84][74];
    assert p[75] == p[..84][75];
    assert p[76] == p[..84][76];
    assert p[77] == p[..84][77];
    assert p[78] == p[..84][78];
    assert p[79] == p[..84][79];
  }

  lemma Rfc1OuterBytes5(p: seq<byte>, d: seq<byte>)
    requires p == Sha1.Pad(OuterInput(RfcKey, d)) && d == [0xAE, 0x39, 0x8A, 0xD2, 0xE5, 0x39, 0xD6, 0x5C, 0x5D, 0xA2, 0xDA, 0x9C, 0x8A, 0x61, 0x34, 0x41, 0x97, 0x39, 0x3A, 0x8C]
    ensures |p| == 128
    ensures p[80] == 0x97 && p[81] == 0x39 && p[82] == 0x3A && p[83] == 0x8C &&
      p[84] == 0x80 && p[85] == 0x00 && p[86] == 0x00 && p[87] == 0x00 &&
      p[88] == 0x00 && p[89] == 0x00 && p[90] == 0x00 && p[91] == 0x00 &&
      p[92] == 0x00 && p[93] == 0x00 && p[94] == 0x00 && p[95] == 0x00
  {
    var m := OuterInput(RfcKey, d);
    Rfc1OuterLength(d);
    Rfc1OuterInput5(d);
    Sha1.PadShape(m);
    assert p[80] == p[..84][80];
    assert p[81] == p[..84][81];
    assert p[82] == p[..84][82];
    assert p[83] == p[..84][83];
  }

  lemma Rfc1OuterBytes6(p: seq<byte>, d: seq<byte>)
    requires p == Sha1.Pad(OuterInput(RfcKey, d)) && d == [0xAE, 0x39, 0x8A, 0xD2, 0xE5, 0x39, 0xD6, 0x5C, 0x5D, 0xA2, 0xDA, 0x9C, 0x8A, 0x61, 0x34, 0x41, 0x97, 0x39, 0x3A, 0x8C]
    ensures |p| == 128
    ensures p[96] == 0x00 && p[97] == 0x00 && p[98] == 0x00 && p[99] == 0x00 &&
      p[100] == 0x00 && p[101] == 0x00 && p[102] == 0x00 && p[103] == 0x00 &&
      p[104] == 0x00 && p[105] == 0x00 && p[106] == 0x00 && p[107] == 0x00 &&
      p[108] == 0x00 && p[109] == 0x00 && p[110] == 0x00 && p[111] == 0x00
  {
    var m := OuterInput(RfcKey, d);
    Rfc1OuterLength(d);
    Sha1.PadShape(m);
  }

  lemma Rfc1OuterBytes7(p: seq<byte>, d: seq<byte>)
    requires p == Sha1.Pad(OuterInput(RfcKey, d)) && d == [0xAE, 0x39, 0x8A, 0xD2, 0xE5, 0x39, 0xD6, 0x5C, 0x5D, 0xA2, 0xDA, 0x9C, 0x8A, 0x61, 0x34, 0x41, 0x97, 0x39, 0x3A, 0x8C]
    ensures |p| == 128
    ensures p[112] == 0x00 && p[113] == 0x00 && p[114] == 0x00 && p[115] == 0x00 &&
      p[116] == 0x00 && p[117] == 0x00 && p[118] == 0x00 && p[119] == 0x00 &&
      p[120] == 0x00 && p[121] == 0x00 && p[122] == 0x00 && p[123] == 0x00 &&
      p[124] == 0x00 && p[125] == 0x00 && p[126] == 0x02 && p[127] == 0xA0
  {
    var m := OuterInput(RfcKey, d);
    Rfc1OuterLength(d);
    Sha1.PadShape(m);
    LengthField2A0();
    assert p[120] == p[120..][0];
    assert p[121] == p[120..][1];
    assert p[122] == p[120..][2];
    assert p[123] == p[120..][3];
    assert p[124] == p[120..][4];
    assert p[125] == p[120..][5];
    assert p[126] == p[120..][6];
    assert p[127] == p[120..][7];
  }

  lemma Rfc1OuterWords0(p: seq<byte>)
    requires |p| == 128
    requires p[0] == 0x6D && p[1] == 0x6E && p[2] == 0x6F && p[3] == 0x68 &&
      p[4] == 0x69 && p[5] == 0x6A && p[6] == 0x6B && p[7] == 0x64 &&
      p[8] == 0x65 && p[9] == 0x6C && p[10] == 0x6D && p[11] == 0x6E &&
      p[12] == 0x6F && p[13] == 0x68 && p[14] == 0x69 && p[15] == 0x6A
    ensures var b := Split(p)[0].words;
      b[0] == 0x6D6E6F68 && b[1] == 0x696A6B64 && b[2] == 0x656C6D6E && b[3] == 0x6F68696A
  {
    SplitWords(p, 0, 0);
    SplitWords(p, 0, 1);
    SplitWords(p, 0, 2);
    SplitWords(p, 0, 3);
  }

  lemma Rfc1OuterWords1(p: seq<byte>)
    requires |p| == 128
    requires p[16] == 0x6B && p[17] == 0x64 && p[18] == 0x65 && p[19] == 0x6C &&
      p[20] == 0x5C && p[21] == 0x5C && p[22] == 0x5C && p[23] == 0x5C &&
      p[24] == 0x5C && p[25] == 0x5C && p[26] == 0x5C && p[27] == 0x5C &&
      p[28] == 0x5C && p[29] == 0x5C && p[30] == 0x5C && p[31] == 0x5C
    ensures var b := Split(p)[0].words;
      b[4] == 0x6B64656C && b[5] == 0x5C5C5C5C && b[6] == 0x5C5C5C5C && b[7] == 0x5C5C5C5C
  {
    SplitWords(p, 0, 4);
    SplitWords(p, 0, 5);
    SplitWords(p, 0, 6);
    SplitWords(p, 0, 7);
  }

  lemma Rfc1OuterWords2(p: seq<byte>)
    requires |p| == 128
    requires p[32] == 0x5C && p[33] == 0x5C && p[34] == 0x5C && p[35] == 0x5C &&
      p[36] == 0x5C && p[37] == 0x5C && p[38] == 0x5C && p[39] == 0x5C &&
      p[40] == 0x5C && p[41] == 0x5C && p[42] == 0x5C && p[43] == 0x5C &&
      p[44] == 0x5C && p[45] == 0x5C && p[46] == 0x5C && p[47] == 0x5C
    ensures var b := Split(p)[0].words;
      b[8] == 0x5C5C5C5C && b[9] == 0x5C5C5C5C && b[10] == 0x5C5C5C5C && b[11] == 0x5C5C5C5C
  {
    SplitWords(p, 0, 8);
    SplitWords(p, 0, 9);
    SplitWords(p, 0, 10);
    SplitWords(p, 0, 11);
  }

  lemma Rfc1OuterWords3(p: seq<byte>)
    requires |p| == 128
    requires p[48] == 0x5C && p[49] == 0x5C && p[50] == 0x5C && p[51] == 0x5C &&
      p[52] == 0x5C && p[53] == 0x5C && p[54] == 0x5C && p[55] == 0x5C &&
      p[56] == 0x5C && p[57] == 0x5C && p[58] == 0x5C && p[59] == 0x5C &&
      p[60] == 0x5C && p[61] == 0x5C && p[62] == 0x5C && p[63] == 0x5C
    ensures var b := Split(p)[0].words;
      b[12] == 0x5C5C5C5C && b[13] == 0x5C5C5C5C && b[14] == 0x5C5C5C5C && b[15] == 0x5C5C5C5C
  {
    SplitWords(p, 0, 12);
    SplitWords(p, 0, 13);
    SplitWords(p, 0, 14);
    SplitWords(p, 0, 15);
  }

  lemma Rfc1OuterWords4(p: seq<byte>)
    requires |p| == 128
    requires p[64] == 0xAE && p[65] == 0x39 && p[66] == 0x8A && p[67] == 0xD2 &&
      p[68] == 0xE5 && p[69] == 0x39 && p[70] == 0xD6 && p[71] == 0x5C &&
      p[72] == 0x5D && p[73] == 0xA2 && p[74] == 0xDA && p[75] == 0x9C &&
      p[76] == 0x8A && p[77] == 0x61 && p[78] == 0x34 && p[79] == 0x41
    ensures var b := Split(p)[1].words;
      b[0] == 0xAE398AD2 && b[1] == 0xE539D65C && b[2] == 0x5DA2DA9C && b[3] == 0x8A613441
  {
    SplitWords(p, 1, 0);
    SplitWords(p, 1, 1);
    SplitWords(p, 1, 2);
    SplitWords(p, 1, 3);
  }

  lemma Rfc1OuterWords5(p: seq<byte>)
    requires |p| == 128
    requires p[80] == 0x97 && p[81] == 0x39 && p[82] == 0x3A && p[83] == 0x8C &&
      p[84] == 0x80 && p[85] == 0x00 && p[86] == 0x00 && p[87] == 0x00 &&
      p[88] == 0x00 && p[89] == 0x00 && p[90] == 0x00 && p[91] == 0x00 &&
      p[92] == 0x00 && p[93] == 0x00 && p[94] == 0x00 && p[95] == 0x00
    ensures var b := Split(p)[1].words;
      b[4] == 0x97393A8C && b[5] == 0x80000000 && b[6] == 0x00000000 && b[7] == 0x00000000
  {
    SplitWords(p, 1, 4);
    SplitWords(p, 1, 5);
    SplitWords(p, 1, 6);
    SplitWords(p, 1, 7);
  }

  lemma Rfc1OuterWords6(p: seq<byte>)
    requires |p| == 128
    requires p[96] == 0x00 && p[97] == 0x00 && p[98] == 0x00 && p[99] == 0x00 &&
      p[100] == 0x00 && p[101] == 0x00 && p[102] == 0x00 && p[103] == 0x00 &&
      p[104] == 0x00 && p[105] == 0x00 && p[106] == 0x00 && p[107] == 0x00 &&
      p[108] == 0x00 && p[109] == 0x00 && p[110] == 0x00 && p[111] == 0x00
    ensures var b := Split(p)[1].words;
      b[8] == 0x00000000 && b[9] == 0x00000000 && b[10] == 0x00000000 && b[11] == 0x00000000
  {
    SplitWords(p, 1, 8);
    SplitWords(p, 1, 9);
    SplitWords(p, 1, 10);
    SplitWords(p, 1, 11);
  }

  lemma Rfc1OuterWords7(p: seq<byte>)
    requires |p| == 128
    requires p[112] == 0x00 && p[113] == 0x00 && p[114] == 0x00 && p[115] == 0x00 &&
      p[116] == 0x00 && p[117] == 0x00 && p[118] == 0x00 && p[119] == 0x00 &&
      p[120] == 0x00 && p[121] == 0x00 && p[122] == 0x00 && p[123] == 0x00 &&
      p[124] == 0x00 && p[125] == 0x00 && p[126] == 0x02 && p[127] == 0xA0
    ensures var b := Split(p)[1].words;
      b[12] == 0x00000000 && b[13] == 0x00000000 && b[14] == 0x00000000 && b[15] == 0x000002A0
  {
    SplitWords(p, 1, 12);
    SplitWords(p, 1, 13);
    SplitWords(p, 1, 14);
    SplitWords(p, 1, 15);
  }

  lemma Rfc1OuterBlock0(p: seq<byte>, d: seq<byte>)
    requires p == Sha1.Pad(OuterInput(RfcKey, d)) && d == [0xAE, 0x39, 0x8A, 0xD2, 0xE5, 0x39, 0xD6, 0x5C, 0x5D, 0xA2, 0xDA, 0x9C, 0x8A, 0x61, 0x34, 0x41, 0x97, 0x39, 0x3A, 0x8C]
    requires |p| == 128
    ensures var b := Split(p)[0].words;
      b[0] == 0x6D6E6F68 && b[1] == 0x696A6B64 && b[2] == 0x656C6D6E && b[3] == 0x6F68696A &&
      b[4] == 0x6B64656C && b[5] == 0x5C5C5C5C && b[6] == 0x5C5C5C5C && b[7] == 0x5C5C5C5C &&
      b[8] == 0x5C5C5C5C && b[9] == 0x5C5C5C5C && b[10] == 0x5C5C5C5C && b[11] == 0x5C5C5C5C &&
      b[12] == 0x5C5C5C5C && b[13] == 0x5C5C5C5C && b[14] == 0x5C5C5C5C && b[15] == 0x5C5C5C5C
  {
    Rfc1OuterBytes0(p, d);
    Rfc1OuterWords0(p);
    Rfc1OuterBytes1(p, d);
    Rfc1OuterWords1(p);
    Rfc1OuterBytes2(p, d);
    Rfc1OuterWords2(p);
    Rfc1OuterBytes3(p, d);
    Rfc1OuterWords3(p);
  }

  lemma Rfc1OuterBlock1(p: seq<byte>, d: seq<byte>)
    requires p == Sha1.Pad(OuterInput(RfcKey, d)) && d == [0xAE, 0x39, 0x8A, 0xD2, 0xE5, 0x39, 0xD6, 0x5C, 0x5D, 0xA2, 0xDA, 0x9C, 0x8A, 0x61, 0x34, 0x41, 0x97, 0x39, 0x3A, 0x8C]
    requires |p| == 128
    ensures var b := Split(p)[1].words;
      b[0] == 0xAE398AD2 && b[1] == 0xE539D65C && b[2] == 0x5DA2DA9C && b[3] == 0x8A613441 &&
      b[4] == 0x97393A8C && b[5] == 0x80000000 && b[6] == 0x00000000 && b[7] == 0x00000000 &&
      b[8] == 0x00000000 && b[9] == 0x00000000 && b[10] == 0x00000000 && b[11] == 0x00000000 &&
      b[12] == 0x00000000 && b[13] == 0x00000000 && b[14] == 0x00000000 && b[15] == 0x000002A0
  {
    Rfc1OuterBytes4(p, d);
    Rfc1OuterWords4(p);
    Rfc1OuterBytes5(p, d);
    Rfc1OuterWords5(p);
    Rfc1OuterBytes6(p, d);
    Rfc1OuterWords6(p);
    Rfc1OuterBytes7(p, d);
    Rfc1OuterWords7(p);
  }

  lemma Rfc1Outer0Schedule0(w: seq<word>)
    requires |w| == 80 && forall i :: 16 <= i < 80 ==> Follows(w, i)
    requires w[0] == 0x6D6E6F68 && w[1] == 0x696A6B64 && w[2] == 0x656C6D6E && w[3] == 0x6F68696A &&
      w[4] == 0x6B64656C && w[5] == 0x5C5C5C5C && w[6] == 0x5C5C5C5C && w[7] == 0x5C5C5C5C &&
      w[8] == 0x5C5C5C5C && w[9] == 0x5C5C5C5C && w[10] == 0x5C5C5C5C && w[11] == 0x5C5C5C5C &&
      w[12] == 0x5C5C5C5C && w[13] == 0x5C5C5C5C && w[14] == 0x5C5C5C5C && w[15] == 0x5C5C5C5C
    ensures w[16] == 0x1004040C && w[17] == 0x0C04041C && w[18] == 0x1C101004 && w[19] == 0xFED8DACC &&
      w[20] == 0xCEC0C2E0 && w[21] == 0x809898B0 && w[22] == 0x45090D21 && w[23] == 0x25393D79 &&
      w[24] == 0x21393979 && w[25] == 0x921A127A && w[26] == 0x72525AFA && w[27] == 0xBFC3C76B &&
      w[28] == 0xB9B5A134 && w[29] == 0xE5958495 && w[30] == 0x6D252435 && w[31] == 0x99A9881B
  {
    assert Follows(w, 16);
    assert Follows(w, 17);
    assert Follows(w, 18);
    assert Follows(w, 19);
    assert Follows(w, 20);
    assert Follows(w, 21);
    assert Follows(w, 22);
    assert Follows(w, 23);
    assert Follows(w, 24);
    assert Follows(w, 25);
    assert Follows(w, 26);
    assert Follows(w, 27);
    assert Follows(w, 28);
    assert Follows(w, 29);
    assert Follows(w, 30);
    assert Follows(w, 31);
  }

  lemma Rfc1Outer0Schedule1(w: seq<word>)
    requires |w| == 80 && forall i :: 16 <= i < 80 ==> Follows(w, i)
    requires w[16] == 0x1004040C && w[17] == 0x0C04041C && w[18] == 0x1C101004 && w[19] == 0xFED8DACC &&
      w[20] == 0xCEC0C2E0 && w[21] == 0x809898B0 && w[22] == 0x45090D21 && w[23] == 0x25393D79 &&
      w[24] == 0x21393979 && w[25] == 0x921A127A && w[26] == 0x72525AFA && w[27] == 0xBFC3C76B &&
      w[28] == 0xB9B5A134 && w[29] == 0xE5958495 && w[30] == 0x6D252435 && w[31] == 0x99A9881B
    ensures w[32] == 0x917153C9 && w[33] == 0x1BC7D13E && w[34] == 0x7256000A && w[35] == 0xA1E5ADBC &&
      w[36] == 0x53777F96 && w[37] == 0x64C442AC && w[38] == 0x51E17BA3 && w[39] == 0xFBFBB11C &&
      w[40] == 0x4DBCE5CD && w[41] == 0xCFFEFF18 && w[42] == 0x849495B0 && w[43] == 0x6C1E171F &&
      w[44] == 0x90320B1E && w[45] == 0x38D9B725 && w[46] == 0x83563681 && w[47] == 0xD34FC64F
  {
    assert Follows(w, 32);
    assert Follows(w, 33);
    assert Follows(w, 34);
    assert Follows(w, 35);
    assert Follows(w, 36);
    assert Follows(w, 37);
    assert Follows(w, 38);
    assert Follows(w, 39);
    assert Follows(w, 40);
    assert Follows(w, 41);
    assert Follows(w, 42);
    assert Follows(w, 43);
    assert Follows(w, 44);
    assert Follows(w, 45);
    assert Follows(w, 46);
    assert Follows(w, 47);
  }

  lemma Rfc1Outer0Schedule2(w: seq<word>)
    requires |w| == 80 && forall i :: 16 <= i < 80 ==> Follows(w, i)
    requires w[32] == 0x917153C9 && w[33] == 0x1BC7D13E && w[34] == 0x7256000A && w[35] == 0xA1E5ADBC &&
      w[36] == 0x53777F96 && w[37] == 0x64C442AC && w[38] == 0x51E17BA3 && w[39] == 0xFBFBB11C &&
      w[40] == 0x4DBCE5CD && w[41] == 0xCFFEFF18 && w[42] == 0x849495B0 && w[43] == 0x6C1E171F &&
      w[44] == 0x90320B1E && w[45] == 0x38D9B725 && w[46] == 0x83563681 && w[47] == 0xD34FC64F
    ensures w[48] == 0x2C840257 && w[49] == 0xED156A37 && w[50] == 0xEDF458C6 && w[51] == 0x0B77F4B1 &&
      w[52] == 0xFF62CA38 && w[53] == 0x942438A6 && w[54] == 0x28F8B8BD && w[55] == 0x305084E6 &&
      w[56] == 0xE3109518 && w[57] == 0xCC1A751A && w[58] == 0x9204851D && w[59] == 0x79418327 &&
      w[60] == 0x4039057A && w[61] == 0xDB6D99A3 && w[62] == 0xFCD61E99 && w[63] == 0x9C665BC8
  {
    assert Follows(w, 48);
    assert Follows(w, 49);
    assert Follows(w, 50);
    assert Follows(w, 51);
    assert Follows(w, 52);
    assert Follows(w, 53);
    assert Follows(w, 54);
    assert Follows(w, 55);
    assert Follows(w, 56);
    assert Follows(w, 57);
    assert Follows(w, 58);
    assert Follows(w, 59);
    assert Follows(w, 60);
    assert Follows(w, 61);
    assert Follows(w, 62);
    assert Follows(w, 63);
  }

  lemma Rfc1Outer0Schedule3(w: seq<word>)
    requires |w| == 80 && forall i :: 16 <= i < 80 ==> Follows(w, i)
    requires w[48] == 0x2C840257 && w[49] == 0xED156A37 && w[50] == 0xEDF458C6 && w[51] == 0x0B77F4B1 &&
      w[52] == 0xFF62CA38 && w[53] == 0x942438A6 && w[54] == 0x28F8B8BD && w[55] == 0x305084E6 &&
      w[56] == 0xE3109518 && w[57] == 0xCC1A751A && w[58] == 0x9204851D && w[59] == 0x79418327 &&
      w[60] == 0x4039057A && w[61] == 0xDB6D99A3 && w[62] == 0xFCD61E99 && w[63] == 0x9C665BC8
    ensures w[64] == 0xF21AAC55 && w[65] == 0xAD5DEA0B && w[66] == 0x39E89856 && w[67] == 0x2811C6CA &&
      w[68] == 0x75FD3BE8 && w[69] == 0x8DE37B6A && w[70] == 0x3E5FEBEC && w[71] == 0x2BA323B8 &&
      w[72] == 0x1DDB8E74 && w[73] == 0x4CB3EFB4 && w[74] == 0x80EC7713 && w[75] == 0x2FCCA475 &&
      w[76] == 0x0B439F7F && w[77] == 0x94099C24 && w[78] == 0x3EBFFAAA && w[79] == 0x23B61A08
  {
    assert Follows(w, 64);
    assert Follows(w, 65);
    assert Follows(w, 66);
    assert Follows(w, 67);
    assert Follows(w, 68);
    assert Follows(w, 69);
    assert Follows(w, 70);
    assert Follows(w, 71);
    assert Follows(w, 72);
    assert Follows(w, 73);
    assert Follows(w, 74);
    assert Follows(w, 75);
    assert Follows(w, 76);
    assert Follows(w, 77);
    assert Follows(w, 78);
    assert Follows(w, 79);
  }

  lemma Rfc1Outer0Rounds0(w: seq<word>)
    requires |w| == 80
    requires w[0] == 0x6D6E6F68 && w[1] == 0x696A6B64 && w[2] == 0x656C6D6E && w[3] == 0x6F68696A &&
      w[4] == 0x6B64656C && w[5] == 0x5C5C5C5C && w[6] == 0x5C5C5C5C && w[7] == 0x5C5C5C5C &&
      w[8] == 0x5C5C5C5C && w[9] == 0x5C5C5C5C && w[10] == 0x5C5C5C5C && w[11] == 0x5C5C5C5C &&
      w[12] == 0x5C5C5C5C && w[13] == 0x5C5C5C5C && w[14] == 0x5C5C5C5C && w[15] == 0x5C5C5C5C &&
      w[16] == 0x1004040C && w[17] == 0x0C04041C && w[18] == 0x1C101004 && w[19] == 0xFED8DACC
    requires Compress(IV, w, 0) == Regs(0x67452301, 0xEFCDAB89, 0x98BADCFE, 0x10325476, 0xC3D2E1F0)
    ensures Compress(IV, w, 20) == Regs(0xE391130D, 0xBF92A45C, 0xD985BBBC, 0x440CF792, 0x58046195)
  {
    assert Round(Regs(0x67452301, 0xEFCDAB89, 0x98BADCFE, 0x10325476, 0xC3D2E1F0), 0x6D6E6F68, 0) == Regs(0x0D23081B, 0x67452301, 0x7BF36AE2, 0x98BADCFE, 0x10325476);
    assert Compress(IV, w, 1) == Regs(0x0D23081B, 0x67452301, 0x7BF36AE2, 0x98BADCFE, 0x10325476);
    assert Round(Regs(0x0D23081B, 0x67452301, 0x7BF36AE2, 0x98BADCFE, 0x10325476), 0x696A6B64, 1) == Regs(0x747C3BD2, 0x0D23081B, 0x59D148C0, 0x7BF36AE2, 0x98BADCFE);
    assert Compress(IV, w, 2) == Regs(0x747C3BD2, 0x0D23081B, 0x59D148C0, 0x7BF36AE2, 0x98BADCFE);
    assert Round(Regs(0x747C3BD2, 0x0D23081B, 0x59D148C0, 0x7BF36AE2, 0x98BADCFE), 0x656C6D6E, 2) == Regs(0x6402A933, 0x747C3BD2, 0xC348C206, 0x59D148C0, 0x7BF36AE2);
    assert Compress(IV, w, 3) == Regs(0x6402A933, 0x747C3BD2, 0xC348C206, 0x59D148C0, 0x7BF36AE2);
    assert Round(Regs(0x6402A933, 0x747C3BD2, 0xC348C206, 0x59D148C0, 0x7BF36AE2), 0x6F68696A, 3) == Regs(0x0FFCB653, 0x6402A933, 0x9D1F0EF4, 0xC348C206, 0x59D148C0);
    assert Compress(IV, w, 4) == Regs(0x0FFCB653, 0x6402A933, 0x9D1F0EF4, 0xC348C206, 0x59D148C0);
    assert Round(Regs(0x0FFCB653, 0x6402A933, 0x9D1F0EF4, 0xC348C206, 0x59D148C0), 0x6B64656C, 4) == Regs(0xA6993C5A, 0x0FFCB653, 0xD900AA4C, 0x9D1F0EF4, 0xC348C206);
    assert Compress(IV, w, 5) == Regs(0xA6993C5A, 0x0FFCB653, 0xD900AA4C, 0x9D1F0EF4, 0xC348C206);
    assert Round(Regs(0xA6993C5A, 0x0FFCB653, 0xD900AA4C, 0x9D1F0EF4, 0xC348C206), 0x5C5C5C5C, 5) == Regs(0xE652CE33, 0xA6993C5A, 0xC3FF2D94, 0xD900AA4C, 0x9D1F0EF4);
    assert Compress(IV, w, 6) == Regs(0xE652CE33, 0xA6993C5A, 0xC3FF2D94, 0xD900AA4C, 0x9D1F0EF4);
    assert Round(Regs(0xE652CE33, 0xA6993C5A, 0xC3FF2D94, 0xD900AA4C, 0x9D1F0EF4), 0x5C5C5C5C, 6) == Regs(0xF9F15979, 0xE652CE33, 0xA9A64F16, 0xC3FF2D94, 0xD900AA4C);
    assert Compress(IV, w, 7) == Regs(0xF9F15979, 0xE652CE33, 0xA9A64F16, 0xC3FF2D94, 0xD900AA4C);
    assert Round(Regs(0xF9F15979, 0xE652CE33, 0xA9A64F16, 0xC3FF2D94, 0xD900AA4C), 0x5C5C5C5C, 7) == Regs(0x6FBA1F16, 0xF9F15979, 0xF994B38C, 0xA9A64F16, 0xC3FF2D94);
    assert Compress(IV, w, 8) == Regs(0x6FBA1F16, 0xF9F15979, 0xF994B38C, 0xA9A64F16, 0xC3FF2D94);
    assert Round(Regs(0x6FBA1F16, 0xF9F15979, 0xF994B38C, 0xA9A64F16, 0xC3FF2D94), 0x5C5C5C5C, 8) == Regs(0x6BB7FD64, 0x6FBA1F16, 0x7E7C565E, 0xF994B38C, 0xA9A64F16);
    assert Compress(IV, w, 9) == Regs(0x6BB7FD64, 0x6FBA1F16, 0x7E7C565E, 0xF994B38C, 0xA9A64F16);
    assert Round(Regs(0x6BB7FD64, 0x6FBA1F16, 0x7E7C565E, 0xF994B38C, 0xA9A64F16), 0x5C5C5C5C, 9) == Regs(0xD5C18836, 0x6BB7FD64, 0x9BEE87C5, 0x7E7C565E, 0xF994B38C);
    assert Compress(IV, w, 10) == Regs(0xD5C18836, 0x6BB7FD64, 0x9BEE87C5, 0x7E7C565E, 0xF994B38C);
    assert Round(Regs(0xD5C18836, 0x6BB7FD64, 0x9BEE87C5, 0x7E7C565E, 0xF994B38C), 0x5C5C5C5C, 10) == Regs(0x889317B9, 0xD5C18836, 0x1AEDFF59, 0x9BEE87C5, 0x7E7C565E);
    assert Compress(IV, w, 11) == Regs(0x889317B9, 0xD5C18836, 0x1AEDFF59, 0x9BEE87C5, 0x7E7C565E);
    assert Round(Regs(0x889317B9, 0xD5C18836, 0x1AEDFF59, 0x9BEE87C5, 0x7E7C565E), 0x5C5C5C5C, 11) == Regs(0x62ADB355, 0x889317B9, 0xB570620D, 0x1AEDFF59, 0x9BEE87C5);
    assert Compress(IV, w, 12) == Regs(0x62ADB355, 0x889317B9, 0xB570620D, 0x1AEDFF59, 0x9BEE87C5);
    assert Round(Regs(0x62ADB355, 0x889317B9, 0xB570620D, 0x1AEDFF59, 0x9BEE87C5), 0x5C5C5C5C, 12) == Regs(0x3B00B2AF, 0x62ADB355, 0x6224C5EE, 0xB570620D, 0x1AEDFF59);
    assert Compress(IV, w, 13) == Regs(0x3B00B2AF, 0x62ADB355, 0x6224C5EE, 0xB570620D, 0x1AEDFF59);
    assert Round(Regs(0x3B00B2AF, 0x62ADB355, 0x6224C5EE, 0xB570620D, 0x1AEDFF59), 0x5C5C5C5C, 13) == Regs(0x2957EC81, 0x3B00B2AF, 0x58AB6CD5, 0x6224C5EE, 0xB570620D);
    assert Compress(IV, w, 14) == Regs(0x2957EC81, 0x3B00B2AF, 0x58AB6CD5, 0x6224C5EE, 0xB570620D);
    assert Round(Regs(0x2957EC81, 0x3B00B2AF, 0x58AB6CD5, 0x6224C5EE, 0xB570620D), 0x5C5C5C5C, 14) == Regs(0xEF712DEC, 0x2957EC81, 0xCEC02CAB, 0x58AB6CD5, 0x6224C5EE);
    assert Compress(IV, w, 15) == Regs(0xEF712DEC, 0x2957EC81, 0xCEC02CAB, 0x58AB6CD5, 0x6224C5EE);
    assert Round(Regs(0xEF712DEC, 0x2957EC81, 0xCEC02CAB, 0x58AB6CD5, 0x6224C5EE), 0x5C5C5C5C, 15) == Regs(0x60118655, 0xEF712DEC, 0x4A55FB20, 0xCEC02CAB, 0x58AB6CD5);
    assert Compress(IV, w, 16) == Regs(0x60118655, 0xEF712DEC, 0x4A55FB20, 0xCEC02CAB, 0x58AB6CD5);
    assert Round(Regs(0x60118655, 0xEF712DEC, 0x4A55FB20, 0xCEC02CAB, 0x58AB6CD5), 0x1004040C, 16) == Regs(0x1033DE49, 0x60118655, 0x3BDC4B7B, 0x4A55FB20, 0xCEC02CAB);
    assert Compress(IV, w, 17) == Regs(0x1033DE49, 0x60118655, 0x3BDC4B7B, 0x4A55FB20, 0xCEC02CAB);
    assert Round(Regs(0x1033DE49, 0x60118655, 0x3BDC4B7B, 0x4A55FB20, 0xCEC02CAB), 0x0C04041C, 17) == Regs(0x6616EEF3, 0x1033DE49, 0x58046195, 0x3BDC4B7B, 0x4A55FB20);
    assert Compress(IV, w, 18) == Regs(0x6616EEF3, 0x1033DE49, 0x58046195, 0x3BDC4B7B, 0x4A55FB20);
    assert Round(Regs(0x6616EEF3, 0x1033DE49, 0x58046195, 0x3BDC4B7B, 0x4A55FB20), 0x1C101004, 18) == Regs(0xBF92A45C, 0x6616EEF3, 0x440CF792, 0x58046195, 0x3BDC4B7B);
    assert Compress(IV, w, 19) == Regs(0xBF92A45C, 0x6616EEF3, 0x440CF792, 0x58046195, 0x3BDC4B7B);
    assert Round(Regs(0xBF92A45C, 0x6616EEF3, 0x440CF792, 0x58046195, 0x3BDC4B7B), 0xFED8DACC, 19) == Regs(0xE391130D, 0xBF92A45C, 0xD985BBBC, 0x440CF792, 0x58046195);
    assert Compress(IV, w, 20) == Regs(0xE391130D, 0xBF92A45C, 0xD985BBBC, 0x440CF792, 0x58046195);
  }

  lemma Rfc1Outer0Rounds1(w: seq<word>)
    requires |w| == 80
    requires w[20] == 0xCEC0C2E0 && w[21] == 0x809898B0 && w[22] == 0x45090D21 && w[23] == 0x25393D79 &&
      w[24] == 0x21393979 && w[25] == 0x921A127A && w[26] == 0x72525AFA && w[27] == 0xBFC3C76B &&
      w[28] == 0xB9B5A134 && w[29] == 0xE5958495 && w[30] == 0x6D252435 && w[31] == 0x99A9881B &&
      w[32] == 0x917153C9 && w[33] == 0x1BC7D13E && w[34] == 0x7256000A && w[35] == 0xA1E5ADBC &&
      w[36] == 0x53777F96 && w[37] == 0x64C442AC && w[38] == 0x51E17BA3 && w[39] == 0xFBFBB11C
    requires Compress(IV, w, 20) == Regs(0xE391130D, 0xBF92A45C, 0xD985BBBC, 0x440CF792, 0x58046195)
    ensures Compress(IV, w, 40) == Regs(0x1100B3EC, 0xFD16397C, 0xBE236441, 0x71D3058E, 0xF18D8687)
  {
    assert Round(Regs(0xE391130D, 0xBF92A45C, 0xD985BBBC, 0x440CF792, 0x58046195), 0xCEC0C2E0, 20) == Regs(0x29DD5A44, 0xE391130D, 0x2FE4A917, 0xD985BBBC, 0x440CF792);
    assert Compress(IV, w, 21) == Regs(0x29DD5A44, 0xE391130D, 0x2FE4A917, 0xD985BBBC, 0x440CF792);
    assert Round(Regs(0x29DD5A44, 0xE391130D, 0x2FE4A917, 0xD985BBBC, 0x440CF792), 0x809898B0, 21) == Regs(0x851AC60E, 0x29DD5A44, 0x78E444C3, 0x2FE4A917, 0xD985BBBC);
    assert Compress(IV, w, 22) == Regs(0x851AC60E, 0x29DD5A44, 0x78E444C3, 0x2FE4A917, 0xD985BBBC);
    assert Round(Regs(0x851AC60E, 0x29DD5A44, 0x78E444C3, 0x2FE4A917, 0xD985BBBC), 0x45090D21, 22) == Regs(0xAF9F2DDE, 0x851AC60E, 0x0A775691, 0x78E444C3, 0x2FE4A917);
    assert Compress(IV, w, 23) == Regs(0xAF9F2DDE, 0x851AC60E, 0x0A775691, 0x78E444C3, 0x2FE4A917);
    assert Round(Regs(0xAF9F2DDE, 0x851AC60E, 0x0A775691, 0x78E444C3, 0x2FE4A917), 0x25393D79, 23) == Regs(0xAF676262, 0xAF9F2DDE, 0xA146B183, 0x0A775691, 0x78E444C3);
    assert Compress(IV, w, 24) == Regs(0xAF676262, 0xAF9F2DDE, 0xA146B183, 0x0A775691, 0x78E444C3);
    assert Round(Regs(0xAF676262, 0xAF9F2DDE, 0xA146B183, 0x0A775691, 0x78E444C3), 0x21393979, 24) == Regs(0xFA9280FE, 0xAF676262, 0xABE7CB77, 0xA146B183, 0x0A775691);
    assert Compress(IV, w, 25) == Regs(0xFA9280FE, 0xAF676262, 0xABE7CB77, 0xA146B183, 0x0A775691);
    assert Round(Regs(0xFA9280FE, 0xAF676262, 0xABE7CB77, 0xA146B183, 0x0A775691), 0x921A127A, 25) == Regs(0x03818D21, 0xFA9280FE, 0xABD9D898, 0xABE7CB77, 0xA146B183);
    assert Compress(IV, w, 26) == Regs(0x03818D21, 0xFA9280FE, 0xABD9D898, 0xABE7CB77, 0xA146B183);
    assert Round(Regs(0x03818D21, 0xFA9280FE, 0xABD9D898, 0xABE7CB77, 0xA146B183), 0x72525AFA, 26) == Regs(0xED512F4F, 0x03818D21, 0xBEA4A03F, 0xABD9D898, 0xABE7CB77);
    assert Compress(IV, w, 27) == Regs(0xED512F4F, 0x03818D21, 0xBEA4A03F, 0xABD9D898, 0xABE7CB77);
    assert Round(Regs(0xED512F4F, 0x03818D21, 0xBEA4A03F, 0xABD9D898, 0xABE7CB77), 0xBFC3C76B, 27) == Regs(0x9BA85E06, 0xED512F4F, 0x40E06348, 0xBEA4A03F, 0xABD9D898);
    assert Compress(IV, w, 28) == Regs(0x9BA85E06, 0xED512F4F, 0x40E06348, 0xBEA4A03F, 0xABD9D898);
    assert Round(Regs(0x9BA85E06, 0xED512F4F, 0x40E06348, 0xBEA4A03F, 0xABD9D898), 0xB9B5A134, 28) == Regs(0x5C8B1278, 0x9BA85E06, 0xFB544BD3, 0x40E06348, 0xBEA4A03F);
    assert Compress(IV, w, 29) == Regs(0x5C8B1278, 0x9BA85E06, 0xFB544BD3, 0x40E06348, 0xBEA4A03F);
    assert Round(Regs(0x5C8B1278, 0x9BA85E06, 0xFB544BD3, 0x40E06348, 0xBEA4A03F), 0xE5958495, 29) == Regs(0xC492D61D, 0x5C8B1278, 0xA6EA1781, 0xFB544BD3, 0x40E06348);
    assert Compress(IV, w, 30) == Regs(0xC492D61D, 0x5C8B1278, 0xA6EA1781, 0xFB544BD3, 0x40E06348);
    assert Round(Regs(0xC492D61D, 0x5C8B1278, 0xA6EA1781, 0xFB544BD3, 0x40E06348), 0x6D252435, 30) == Regs(0xB06F8500, 0xC492D61D, 0x1722C49E, 0xA6EA1781, 0xFB544BD3);
    assert Compress(IV, w, 31) == Regs(0xB06F8500, 0xC492D61D, 0x1722C49E, 0xA6EA1781, 0xFB544BD3);
    assert Round(Regs(0xB06F8500, 0xC492D61D, 0x1722C49E, 0xA6EA1781, 0xFB544BD3), 0x99A9881B, 31) == Regs(0x872264A7, 0xB06F8500, 0x7124B587, 0x1722C49E, 0xA6EA1781);
    assert Compress(IV, w, 32) == Regs(0x872264A7, 0xB06F8500, 0x7124B587, 0x1722C49E, 0xA6EA1781);
    assert Round(Regs(0x872264A7, 0xB06F8500, 0x7124B587, 0x1722C49E, 0xA6EA1781), 0x917153C9, 32) == Regs(0x61EBDFF4, 0x872264A7, 0x2C1BE140, 0x7124B587, 0x1722C49E);
    assert Compress(IV, w, 33) == Regs(0x61EBDFF4, 0x872264A7, 0x2C1BE140, 0x7124B587, 0x1722C49E);
    assert Round(Regs(0x61EBDFF4, 0x872264A7, 0x2C1BE140, 0x7124B587, 0x1722C49E), 0x1BC7D13E, 33) == Regs(0xB95DB069, 0x61EBDFF4, 0xE1C89929, 0x2C1BE140, 0x7124B587);
    assert Compress(IV, w, 34) == Regs(0xB95DB069, 0x61EBDFF4, 0xE1C89929, 0x2C1BE140, 0x7124B587);
    assert Round(Regs(0xB95DB069, 0x61EBDFF4, 0xE1C89929, 0x2C1BE140, 0x7124B587), 0x7256000A, 34) == Regs(0x2A435606, 0xB95DB069, 0x187AF7FD, 0xE1C89929, 0x2C1BE140);
    assert Compress(IV, w, 35) == Regs(0x2A435606, 0xB95DB069, 0x187AF7FD, 0xE1C89929, 0x2C1BE140);
    assert Round(Regs(0x2A435606, 0xB95DB069, 0x187AF7FD, 0xE1C89929, 0x2C1BE140), 0xA1E5ADBC, 35) == Regs(0xC6361A1F, 0x2A435606, 0x6E576C1A, 0x187AF7FD, 0xE1C89929);
    assert Compress(IV, w, 36) == Regs(0xC6361A1F, 0x2A435606, 0x6E576C1A, 0x187AF7FD, 0xE1C89929);
    assert Round(Regs(0xC6361A1F, 0x2A435606, 0x6E576C1A, 0x187AF7FD, 0xE1C89929), 0x53777F96, 36) == Regs(0xC74C1639, 0xC6361A1F, 0x8A90D581, 0x6E576C1A, 0x187AF7FD);
    assert Compress(IV, w, 37) == Regs(0xC74C1639, 0xC6361A1F, 0x8A90D581, 0x6E576C1A, 0x187AF7FD);
    assert Round(Regs(0xC74C1639, 0xC6361A1F, 0x8A90D581, 0x6E576C1A, 0x187AF7FD), 0x64C442AC, 37) == Regs(0xF88D9106, 0xC74C1639, 0xF18D8687, 0x8A90D581, 0x6E576C1A);
    assert Compress(IV, w, 38) == Regs(0xF88D9106, 0xC74C1639, 0xF18D8687, 0x8A90D581, 0x6E576C1A);
    assert Round(Regs(0xF88D9106, 0xC74C1639, 0xF18D8687, 0x8A90D581, 0x6E576C1A), 0x51E17BA3, 38) == Regs(0xFD16397C, 0xF88D9106, 0x71D3058E, 0xF18D8687, 0x8A90D581);
    assert Compress(IV, w, 39) == Regs(0xFD16397C, 0xF88D9106, 0x71D3058E, 0xF18D8687, 0x8A90D581);
    assert Round(Regs(0xFD16397C, 0xF88D9106, 0x71D3058E, 0xF18D8687, 0x8A90D581), 0xFBFBB11C, 39) == Regs(0x1100B3EC, 0xFD16397C, 0xBE236441, 0x71D3058E, 0xF18D8687);
    assert Compress(IV, w, 40) == Regs(0x1100B3EC, 0xFD16397C, 0xBE236441, 0x71D3058E, 0xF18D8687);
  }

  lemma Rfc1Outer0Rounds2(w: seq<word>)
    requires |w| == 80
    requires w[40] == 0x4DBCE5CD && w[41] == 0xCFFEFF18 && w[42] == 0x849495B0 && w[43] == 0x6C1E171F &&
      w[44] == 0x90320B1E && w[45] == 0x38D9B725 && w[46] == 0x83563681 && w[47] == 0xD34FC64F &&
      w[48] == 0x2C840257 && w[49] == 0xED156A37 && w[50] == 0xEDF458C6 && w[51] == 0x0B77F4B1 &&
      w[52] == 0xFF62CA38 && w[53] == 0x942438A6 && w[54] == 0x28F8B8BD && w[55] == 0x305084E6 &&
      w[56] == 0xE3109518 && w[57] == 0xCC1A751A && w[58] == 0x9204851D && w[59] == 0x79418327
    requires Compress(IV, w, 40) == Regs(0x1100B3EC, 0xFD16397C, 0xBE236441, 0x71D3058E, 0xF18D8687)
    ensures Compress(IV, w, 60) == Regs(0x181F6F18, 0x77F8D026, 0x8EFE08BB, 0xF180D7DA, 0x5578CCEF)
  {
    assert Round(Regs(0x1100B3EC, 0xFD16397C, 0xBE236441, 0x71D3058E, 0xF18D8687), 0x4DBCE5CD, 40) == Regs(0xEB8FCBFE, 0x1100B3EC, 0x3F458E5F, 0xBE236441, 0x71D3058E);
    assert Compress(IV, w, 41) == Regs(0xEB8FCBFE, 0x1100B3EC, 0x3F458E5F, 0xBE236441, 0x71D3058E);
    assert Round(Regs(0xEB8FCBFE, 0x1100B3EC, 0x3F458E5F, 0xBE236441, 0x71D3058E), 0xCFFEFF18, 41) == Regs(0x81E8E7AC, 0xEB8FCBFE, 0x04402CFB, 0x3F458E5F, 0xBE236441);
    assert Compress(IV, w, 42) == Regs(0x81E8E7AC, 0xEB8FCBFE, 0x04402CFB, 0x3F458E5F, 0xBE236441);
    assert Round(Regs(0x81E8E7AC, 0xEB8FCBFE, 0x04402CFB, 0x3F458E5F, 0xBE236441), 0x849495B0, 42) == Regs(0x3E363B5C, 0x81E8E7AC, 0xBAE3F2FF, 0x04402CFB, 0x3F458E5F);
    assert Compress(IV, w, 43) == Regs(0x3E363B5C, 0x81E8E7AC, 0xBAE3F2FF, 0x04402CFB, 0x3F458E5F);
    assert Round(Regs(0x3E363B5C, 0x81E8E7AC, 0xBAE3F2FF, 0x04402CFB, 0x3F458E5F), 0x6C1E171F, 43) == Regs(0x8227B4E0, 0x3E363B5C, 0x207A39EB, 0xBAE3F2FF, 0x04402CFB);
    assert Compress(IV, w, 44) == Regs(0x8227B4E0, 0x3E363B5C, 0x207A39EB, 0xBAE3F2FF, 0x04402CFB);
    assert Round(Regs(0x8227B4E0, 0x3E363B5C, 0x207A39EB, 0xBAE3F2FF, 0x04402CFB), 0x90320B1E, 44) == Regs(0xA2F6CD04, 0x8227B4E0, 0x0F8D8ED7, 0x207A39EB, 0xBAE3F2FF);
    assert Compress(IV, w, 45) == Regs(0xA2F6CD04, 0x8227B4E0, 0x0F8D8ED7, 0x207A39EB, 0xBAE3F2FF);
    assert Round(Regs(0xA2F6CD04, 0x8227B4E0, 0x0F8D8ED7, 0x207A39EB, 0xBAE3F2FF), 0x38D9B725, 45) == Regs(0xE3E2C477, 0xA2F6CD04, 0x2089ED38, 0x0F8D8ED7, 0x207A39EB);
    assert Compress(IV, w, 46) == Regs(0xE3E2C477, 0xA2F6CD04, 0x2089ED38, 0x0F8D8ED7, 0x207A39EB);
    assert Round(Regs(0xE3E2C477, 0xA2F6CD04, 0x2089ED38, 0x0F8D8ED7, 0x207A39EB), 0x83563681, 46) == Regs(0xD1D28958, 0xE3E2C477, 0x28BDB341, 0x2089ED38, 0x0F8D8ED7);
    assert Compress(IV, w, 47) == Regs(0xD1D28958, 0xE3E2C477, 0x28BDB341, 0x2089ED38, 0x0F8D8ED7);
    assert Round(Regs(0xD1D28958, 0xE3E2C477, 0x28BDB341, 0x2089ED38, 0x0F8D8ED7), 0xD34FC64F, 47) == Regs(0xCCF4228D, 0xD1D28958, 0xF8F8B11D, 0x28BDB341, 0x2089ED38);
    assert Compress(IV, w, 48) == Regs(0xCCF4228D, 0xD1D28958, 0xF8F8B11D, 0x28BDB341, 0x2089ED38);
    assert Round(Regs(0xCCF4228D, 0xD1D28958, 0xF8F8B11D, 0x28BDB341, 0x2089ED38), 0x2C840257, 48) == Regs(0x73A6AF7D, 0xCCF4228D, 0x3474A256, 0xF8F8B11D, 0x28BDB341);
    assert Compress(IV, w, 49) == Regs(0x73A6AF7D, 0xCCF4228D, 0x3474A256, 0xF8F8B11D, 0x28BDB341);
    assert Round(Regs(0x73A6AF7D, 0xCCF4228D, 0x3474A256, 0xF8F8B11D, 0x28BDB341), 0xED156A37, 49) == Regs(0x16B96C1F, 0x73A6AF7D, 0x733D08A3, 0x3474A256, 0xF8F8B11D);
    assert Compress(IV, w, 50) == Regs(0x16B96C1F, 0x73A6AF7D, 0x733D08A3, 0x3474A256, 0xF8F8B11D);
    assert Round(Regs(0x16B96C1F, 0x73A6AF7D, 0x733D08A3, 0x3474A256, 0xF8F8B11D), 0xEDF458C6, 50) == Regs(0xC06AF518, 0x16B96C1F, 0x5CE9ABDF, 0x733D08A3, 0x3474A256);
    assert Compress(IV, w, 51) == Regs(0xC06AF518, 0x16B96C1F, 0x5CE9ABDF, 0x733D08A3, 0x3474A256);
    assert Round(Regs(0xC06AF518, 0x16B96C1F, 0x5CE9ABDF, 0x733D08A3, 0x3474A256), 0x0B77F4B1, 51) == Regs(0x33201F9A, 0xC06AF518, 0xC5AE5B07, 0x5CE9ABDF, 0x733D08A3);
    assert Compress(IV, w, 52) == Regs(0x33201F9A, 0xC06AF518, 0xC5AE5B07, 0x5CE9ABDF, 0x733D08A3);
    assert Round(Regs(0x33201F9A, 0xC06AF518, 0xC5AE5B07, 0x5CE9ABDF, 0x733D08A3), 0xFF62CA38, 52) == Regs(0x2AAA7E1C, 0x33201F9A, 0x301ABD46, 0xC5AE5B07, 0x5CE9ABDF);
    assert Compress(IV, w, 53) == Regs(0x2AAA7E1C, 0x33201F9A, 0x301ABD46, 0xC5AE5B07, 0x5CE9ABDF);
    assert Round(Regs(0x2AAA7E1C, 0x33201F9A, 0x301ABD46, 0xC5AE5B07, 0x5CE9ABDF), 0x942438A6, 53) == Regs(0x06A383EC, 0x2AAA7E1C, 0x8CC807E6, 0x301ABD46, 0xC5AE5B07);
    assert Compress(IV, w, 54) == Regs(0x06A383EC, 0x2AAA7E1C, 0x8CC807E6, 0x301ABD46, 0xC5AE5B07);
    assert Round(Regs(0x06A383EC, 0x2AAA7E1C, 0x8CC807E6, 0x301ABD46, 0xC5AE5B07), 0x28F8B8BD, 54) == Regs(0x7ABD8D66, 0x06A383EC, 0x0AAA9F87, 0x8CC807E6, 0x301ABD46);
    assert Compress(IV, w, 55) == Regs(0x7ABD8D66, 0x06A383EC, 0x0AAA9F87, 0x8CC807E6, 0x301ABD46);
    assert Round(Regs(0x7ABD8D66, 0x06A383EC, 0x0AAA9F87, 0x8CC807E6, 0x301ABD46), 0x305084E6, 55) == Regs(0x55E333BD, 0x7ABD8D66, 0x01A8E0FB, 0x0AAA9F87, 0x8CC807E6);
    assert Compress(IV, w, 56) == Regs(0x55E333BD, 0x7ABD8D66, 0x01A8E0FB, 0x0AAA9F87, 0x8CC807E6);
    assert Round(Regs(0x55E333BD, 0x7ABD8D66, 0x01A8E0FB, 0x0AAA9F87, 0x8CC807E6), 0xE3109518, 56) == Regs(0xC6035F6B, 0x55E333BD, 0x9EAF6359, 0x01A8E0FB, 0x0AAA9F87);
    assert Compress(IV, w, 57) == Regs(0xC6035F6B, 0x55E333BD, 0x9EAF6359, 0x01A8E0FB, 0x0AAA9F87);
    assert Round(Regs(0xC6035F6B, 0x55E333BD, 0x9EAF6359, 0x01A8E0FB, 0x0AAA9F87), 0xCC1A751A, 57) == Regs(0x3BF822EE, 0xC6035F6B, 0x5578CCEF, 0x9EAF6359, 0x01A8E0FB);
    assert Compress(IV, w, 58) == Regs(0x3BF822EE, 0xC6035F6B, 0x5578CCEF, 0x9EAF6359, 0x01A8E0FB);
    assert Round(Regs(0x3BF822EE, 0xC6035F6B, 0x5578CCEF, 0x9EAF6359, 0x01A8E0FB), 0x9204851D, 58) == Regs(0x77F8D026, 0x3BF822EE, 0xF180D7DA, 0x5578CCEF, 0x9EAF6359);
    assert Compress(IV, w, 59) == Regs(0x77F8D026, 0x3BF822EE, 0xF180D7DA, 0x5578CCEF, 0x9EAF6359);
    assert Round(Regs(0x77F8D026, 0x3BF822EE, 0xF180D7DA, 0x5578CCEF, 0x9EAF6359), 0x79418327, 59) == Regs(0x181F6F18, 0x77F8D026, 0x8EFE08BB, 0xF180D7DA, 0x5578CCEF);
    assert Compress(IV, w, 60) == Regs(0x181F6F18, 0x77F8D026, 0x8EFE08BB, 0xF180D7DA, 0x5578CCEF);
  }

  lemma Rfc1Outer0Rounds3(w: seq<word>)
    requires |w| == 80
    requires w[60] == 0x4039057A && w[61] == 0xDB6D99A3 && w[62] == 0xFCD61E99 && w[63] == 0x9C665BC8 &&
      w[64] == 0xF21AAC55 && w[65] == 0xAD5DEA0B && w[66] == 0x39E89856 && w[67] == 0x2811C6CA &&
      w[68] == 0x75FD3BE8 && w[69] == 0x8DE37B6A && w[70] == 0x3E5FEBEC && w[71] == 0x2BA323B8 &&
      w[72] == 0x1DDB8E74 && w[73] == 0x4CB3EFB4 && w[74] == 0x80EC7713 && w[75] == 0x2FCCA475 &&
      w[76] == 0x0B439F7F && w[77] == 0x94099C24 && w[78] == 0x3EBFFAAA && w[79] == 0x23B61A08
    requires Compress(IV, w, 60) == Regs(0x181F6F18, 0x77F8D026, 0x8EFE08BB, 0xF180D7DA, 0x5578CCEF)
    ensures Compress(IV, w, 80) == Regs(0x31789ACC, 0x6912D075, 0x14A200EC, 0x2A8DEE95, 0x3A3D8635)
  {
    assert Round(Regs(0x181F6F18, 0x77F8D026, 0x8EFE08BB, 0xF180D7DA, 0x5578CCEF), 0x4039057A, 60) == Regs(0x6C888689, 0x181F6F18, 0x9DFE3409, 0x8EFE08BB, 0xF180D7DA);
    assert Compress(IV, w, 61) == Regs(0x6C888689, 0x181F6F18, 0x9DFE3409, 0x8EFE08BB, 0xF180D7DA);
    assert Round(Regs(0x6C888689, 0x181F6F18, 0x9DFE3409, 0x8EFE08BB, 0xF180D7DA), 0xDB6D99A3, 61) == Regs(0x3381582A, 0x6C888689, 0x0607DBC6, 0x9DFE3409, 0x8EFE08BB);
    assert Compress(IV, w, 62) == Regs(0x3381582A, 0x6C888689, 0x0607DBC6, 0x9DFE3409, 0x8EFE08BB);
    assert Round(Regs(0x3381582A, 0x6C888689, 0x0607DBC6, 0x9DFE3409, 0x8EFE08BB), 0xFCD61E99, 62) == Regs(0xBDD357B6, 0x3381582A, 0x5B2221A2, 0x0607DBC6, 0x9DFE3409);
    assert Compress(IV, w, 63) == Regs(0xBDD357B6, 0x3381582A, 0x5B2221A2, 0x0607DBC6, 0x9DFE3409);
    assert Round(Regs(0xBDD357B6, 0x3381582A, 0x5B2221A2, 0x0607DBC6, 0x9DFE3409), 0x9C665BC8, 63) == Regs(0x2DD6EACC, 0xBDD357B6, 0x8CE0560A, 0x5B2221A2, 0x0607DBC6);
    assert Compress(IV, w, 64) == Regs(0x2DD6EACC, 0xBDD357B6, 0x8CE0560A, 0x5B2221A2, 0x0607DBC6);
    assert Round(Regs(0x2DD6EACC, 0xBDD357B6, 0x8CE0560A, 0x5B2221A2, 0x0607DBC6), 0xF21AAC55, 64) == Regs(0xE773C394, 0x2DD6EACC, 0xAF74D5ED, 0x8CE0560A, 0x5B2221A2);
    assert Compress(IV, w, 65) == Regs(0xE773C394, 0x2DD6EACC, 0xAF74D5ED, 0x8CE0560A, 0x5B2221A2);
    assert Round(Regs(0xE773C394, 0x2DD6EACC, 0xAF74D5ED, 0x8CE0560A, 0x5B2221A2), 0xAD5DEA0B, 65) == Regs(0xCF9DA94A, 0xE773C394, 0x0B75BAB3, 0xAF74D5ED, 0x8CE0560A);
    assert Compress(IV, w, 66) == Regs(0xCF9DA94A, 0xE773C394, 0x0B75BAB3, 0xAF74D5ED, 0x8CE0560A);
    assert Round(Regs(0xCF9DA94A, 0xE773C394, 0x0B75BAB3, 0xAF74D5ED, 0x8CE0560A), 0x39E89856, 66) == Regs(0xC8538659, 0xCF9DA94A, 0x39DCF0E5, 0x0B75BAB3, 0xAF74D5ED);
    assert Compress(IV, w, 67) == Regs(0xC8538659, 0xCF9DA94A, 0x39DCF0E5, 0x0B75BAB3, 0xAF74D5ED);
    assert Round(Regs(0xC8538659, 0xCF9DA94A, 0x39DCF0E5, 0x0B75BAB3, 0xAF74D5ED), 0x2811C6CA, 67) == Regs(0xA98F0CE2, 0xC8538659, 0xB3E76A52, 0x39DCF0E5, 0x0B75BAB3);
    assert Compress(IV, w, 68) == Regs(0xA98F0CE2, 0xC8538659, 0xB3E76A52, 0x39DCF0E5, 0x0B75BAB3);
    assert Round(Regs(0xA98F0CE2, 0xC8538659, 0xB3E76A52, 0x39DCF0E5, 0x0B75BAB3), 0x75FD3BE8, 68) == Regs(0xC01F71B4, 0xA98F0CE2, 0x7214E196, 0xB3E76A52, 0x39DCF0E5);
    assert Compress(IV, w, 69) == Regs(0xC01F71B4, 0xA98F0CE2, 0x7214E196, 0xB3E76A52, 0x39DCF0E5);
    assert Round(Regs(0xC01F71B4, 0xA98F0CE2, 0x7214E196, 0xB3E76A52, 0x39DCF0E5), 0x8DE37B6A, 69) == Regs(0xFE8DEBE3, 0xC01F71B4, 0xAA63C338, 0x7214E196, 0xB3E76A52);
    assert Compress(IV, w, 70) == Regs(0xFE8DEBE3, 0xC01F71B4, 0xAA63C338, 0x7214E196, 0xB3E76A52);
    assert Round(Regs(0xFE8DEBE3, 0xC01F71B4, 0xAA63C338, 0x7214E196, 0xB3E76A52), 0x3E5FEBEC, 70) == Regs(0xA6CFE7AD, 0xFE8DEBE3, 0x3007DC6D, 0xAA63C338, 0x7214E196);
    assert Compress(IV, w, 71) == Regs(0xA6CFE7AD, 0xFE8DEBE3, 0x3007DC6D, 0xAA63C338, 0x7214E196);
    assert Round(Regs(0xA6CFE7AD, 0xFE8DEBE3, 0x3007DC6D, 0xAA63C338, 0x7214E196), 0x2BA323B8, 71) == Regs(0xA701B18E, 0xA6CFE7AD, 0xFFA37AF8, 0x3007DC6D, 0xAA63C338);
    assert Compress(IV, w, 72) == Regs(0xA701B18E, 0xA6CFE7AD, 0xFFA37AF8, 0x3007DC6D, 0xAA63C338);
    assert Round(Regs(0xA701B18E, 0xA6CFE7AD, 0xFFA37AF8, 0x3007DC6D, 0xAA63C338), 0x1DDB8E74, 72) == Regs(0xDC43868E, 0xA701B18E, 0x69B3F9EB, 0xFFA37AF8, 0x3007DC6D);
    assert Compress(IV, w, 73) == Regs(0xDC43868E, 0xA701B18E, 0x69B3F9EB, 0xFFA37AF8, 0x3007DC6D);
    assert Round(Regs(0xDC43868E, 0xA701B18E, 0x69B3F9EB, 0xFFA37AF8, 0x3007DC6D), 0x4CB3EFB4, 73) == Regs(0x00A0926F, 0xDC43868E, 0xA9C06C63, 0x69B3F9EB, 0xFFA37AF8);
    assert Compress(IV, w, 74) == Regs(0x00A0926F, 0xDC43868E, 0xA9C06C63, 0x69B3F9EB, 0xFFA37AF8);
    assert Round(Regs(0x00A0926F, 0xDC43868E, 0xA9C06C63, 0x69B3F9EB, 0xFFA37AF8), 0x80EC7713, 74) == Regs(0x7B3514C7, 0x00A0926F, 0xB710E1A3, 0xA9C06C63, 0x69B3F9EB);
    assert Compress(IV, w, 75) == Regs(0x7B3514C7, 0x00A0926F, 0xB710E1A3, 0xA9C06C63, 0x69B3F9EB);
    assert Round(Regs(0x7B3514C7, 0x00A0926F, 0xB710E1A3, 0xA9C06C63, 0x69B3F9EB), 0x2FCCA475, 75) == Regs(0xE8F618D4, 0x7B3514C7, 0xC028249B, 0xB710E1A3, 0xA9C06C63);
    assert Compress(IV, w, 76) == Regs(0xE8F618D4, 0x7B3514C7, 0xC028249B, 0xB710E1A3, 0xA9C06C63);
    assert Round(Regs(0xE8F618D4, 0x7B3514C7, 0xC028249B, 0xB710E1A3, 0xA9C06C63), 0x0B439F7F, 76) == Regs(0xAA37BA54, 0xE8F618D4, 0xDECD4531, 0xC028249B, 0xB710E1A3);
    assert Compress(IV, w, 77) == Regs(0xAA37BA54, 0xE8F618D4, 0xDECD4531, 0xC028249B, 0xB710E1A3);
    assert Round(Regs(0xAA37BA54, 0xE8F618D4, 0xDECD4531, 0xC028249B, 0xB710E1A3), 0x94099C24, 77) == Regs(0x528803B0, 0xAA37BA54, 0x3A3D8635, 0xDECD4531, 0xC028249B);
    assert Compress(IV, w, 78) == Regs(0x528803B0, 0xAA37BA54, 0x3A3D8635, 0xDECD4531, 0xC028249B);
    assert Round(Regs(0x528803B0, 0xAA37BA54, 0x3A3D8635, 0xDECD4531, 0xC028249B), 0x3EBFFAAA, 78) == Regs(0x6912D075, 0x528803B0, 0x2A8DEE95, 0x3A3D8635, 0xDECD4531);
    assert Compress(IV, w, 79) == Regs(0x6912D075, 0x528803B0, 0x2A8DEE95, 0x3A3D8635, 0xDECD4531);
    assert Round(Regs(0x6912D075, 0x528803B0, 0x2A8DEE95, 0x3A3D8635, 0xDECD4531), 0x23B61A08, 79) == Regs(0x31789ACC, 0x6912D075, 0x14A200EC, 0x2A8DEE95, 0x3A3D8635);
    assert Compress(IV, w, 80) == Regs(0x31789ACC, 0x6912D075, 0x14A200EC, 0x2A8DEE95, 0x3A3D8635);
  }

  lemma Rfc1Outer0Compress(words: seq<word>)
    requires |words| == 16
    requires words[0] == 0x6D6E6F68 && words[1] == 0x696A6B64 && words[2] == 0x656C6D6E && words[3] == 0x6F68696A &&
      words[4] == 0x6B64656C && words[5] == 0x5C5C5C5C && words[6] == 0x5C5C5C5C && words[7] == 0x5C5C5C5C &&
      words[8] == 0x5C5C5C5C && words[9] == 0x5C5C5C5C && words[10] == 0x5C5C5C5C && words[11] == 0x5C5C5C5C &&
      words[12] == 0x5C5C5C5C && words[13] == 0x5C5C5C5C && words[14] == 0x5C5C5C5C && words[15] == 0x5C5C5C5C
    ensures Compress(IV, Schedule(words), 80) == Regs(0x31789ACC, 0x6912D075, 0x14A200EC, 0x2A8DEE95, 0x3A3D8635)
  {
    var w := Schedule(words);
    ScheduleIsSchedule(words);
    forall j | 0 <= j < 16
      ensures w[j] == words[j]
    {
      assert w[..16][j] == w[j];
    }
    Rfc1Outer0Schedule0(w);
    Rfc1Outer0Schedule1(w);
    Rfc1Outer0Schedule2(w);
    Rfc1Outer0Schedule3(w);
    Rfc1Outer0Rounds0(w);
    Rfc1Outer0Rounds1(w);
    Rfc1Outer0Rounds2(w);
    Rfc1Outer0Rounds3(w);
  }

  lemma Rfc1Outer1Schedule0(w: seq<word>)
    requires |w| == 80 && forall i :: 16 <= i < 80 ==> Follows(w, i)
    requires w[0] == 0xAE398AD2 && w[1] == 0xE539D65C && w[2] == 0x5DA2DA9C && w[3] == 0x8A613441 &&
      w[4] == 0x97393A8C && w[5] == 0x80000000 && w[6] == 0x00000000 && w[7] == 0x00000000 &&
      w[8] == 0x00000000 && w[9] == 0x00000000 && w[10] == 0x00000000 && w[11] == 0x00000000 &&
      w[12] == 0x00000000 && w[13] == 0x00000000 && w[14] == 0x00000000 && w[15] == 0x000002A0
    ensures w[16] == 0xE736A09D && w[17] == 0xDEB1C43A && w[18] == 0x9537C561 && w[19] == 0xDAAF29B9 &&
      w[20] == 0x9311FD6C && w[21] == 0x2A6F8AC2 && w[22] == 0xB55E5373 && w[23] == 0x2623FF99 &&
      w[24] == 0x9AB254BF && w[25] == 0xD7DF2E92 && w[26] == 0x662875F1 && w[27] == 0x803AFA0C &&
      w[28] == 0x899DA7FC && w[29] == 0x988FFB26 && w[30] == 0xA4A413C5 && w[31] == 0xE21F3DFE
  {
    assert Follows(w, 16);
    assert Follows(w, 17);
    assert Follows(w, 18);
    assert Follows(w, 19);
    assert Follows(w, 20);
    assert Follows(w, 21);
    assert Follows(w, 22);
    assert Follows(w, 23);
    assert Follows(w, 24);
    assert Follows(w, 25);
    assert Follows(w, 26);
    assert Follows(w, 27);
    assert Follows(w, 28);
    assert Follows(w, 29);
    assert Follows(w, 30);
    assert Follows(w, 31);
  }

  lemma Rfc1Outer1Schedule1(w: seq<word>)
    requires |w| == 80 && forall i :: 16 <= i < 80 ==> Follows(w, i)
    requires w[16] == 0xE736A09D && w[17] == 0xDEB1C43A && w[18] == 0x9537C561 && w[19] == 0xDAAF29B9 &&
      w[20] == 0x9311FD6C && w[21] == 0x2A6F8AC2 && w[22] == 0xB55E5373 && w[23] == 0x2623FF99 &&
      w[24] == 0x9AB254BF && w[25] == 0xD7DF2E92 && w[26] == 0x662875F1 && w[27] == 0x803AFA0C &&
      w[28] == 0x899DA7FC && w[29] == 0x988FFB26 && w[30] == 0xA4A413C5 && w[31] == 0xE21F3DFE
    ensures w[32] == 0xE07994CA && w[33] == 0xEECBA1A8 && w[34] == 0x0422E005 && w[35] == 0x21079B7B &&
      w[36] == 0x82335096 && w[37] == 0x21C2DCF1 && w[38] == 0x549F1EE5 && w[39] == 0x23A178C7 &&
      w[40] == 0x7A42D2EA && w[41] == 0xDB62D7A7 && w[42] == 0x906C959F && w[43] == 0x87E09176 &&
      w[44] == 0xE8D06610 && w[45] == 0x967D1F6D && w[46] == 0x2F441139 && w[47] == 0x8F4B0503
  {
    assert Follows(w, 32);
    assert Follows(w, 33);
    assert Follows(w, 34);
    assert Follows(w, 35);
    assert Follows(w, 36);
    assert Follows(w, 37);
    assert Follows(w, 38);
    assert Follows(w, 39);
    assert Follows(w, 40);
    assert Follows(w, 41);
    assert Follows(w, 42);
    assert Follows(w, 43);
    assert Follows(w, 44);
    assert Follows(w, 45);
    assert Follows(w, 46);
    assert Follows(w, 47);
  }

  lemma Rfc1Outer1Schedule2(w: seq<word>)
    requires |w| == 80 && forall i :: 16 <= i < 80 ==> Follows(w, i)
    requires w[32] == 0xE07994CA && w[33] == 0xEECBA1A8 && w[34] == 0x0422E005 && w[35] == 0x21079B7B &&
      w[36] == 0x82335096 && w[37] == 0x21C2DCF1 && w[38] == 0x549F1EE5 && w[39] == 0x23A178C7 &&
      w[40] == 0x7A42D2EA && w[41] == 0xDB62D7A7 && w[42] == 0x906C959F && w[43] == 0x87E09176 &&
      w[44] == 0xE8D06610 && w[45] == 0x967D1F6D && w[46] == 0x2F441139 && w[47] == 0x8F4B0503
    ensures w[48] == 0x10C97290 && w[49] == 0x77D5F89A && w[50] == 0x326C401F && w[51] == 0x2FD948D9 &&
      w[52] == 0x9353A1F2 && w[53] == 0x4CE5F689 && w[54] == 0x5C812BDE && w[55] == 0xC9B61723 &&
      w[56] == 0x6C0586D9 && w[57] == 0xEFAD2B2A && w[58] == 0x06CD4967 && w[59] == 0xA4828036 &&
      w[60] == 0x76D5FBE3 && w[61] == 0xA63D4B00 && w[62] == 0x8F1D9083 && w[63] == 0x8FFA22B2
  {
    assert Follows(w, 48);
    assert Follows(w, 49);
    assert Follows(w, 50);
    assert Follows(w, 51);
    assert Follows(w, 52);
    assert Follows(w, 53);
    assert Follows(w, 54);
    assert Follows(w, 55);
    assert Follows(w, 56);
    assert Follows(w, 57);
    assert Follows(w, 58);
    assert Follows(w, 59);
    assert Follows(w, 60);
    assert Follows(w, 61);
    assert Follows(w, 62);
    assert Follows(w, 63);
  }

  lemma Rfc1Outer1Schedule3(w: seq<word>)
    requires |w| == 80 && forall i :: 16 <= i < 80 ==> Follows(w, i)
    requires w[48] == 0x10C97290 && w[49] == 0x77D5F89A && w[50] == 0x326C401F && w[51] == 0x2FD948D9 &&
      w[52] == 0x9353A1F2 && w[53] == 0x4CE5F689 && w[54] == 0x5C812BDE && w[55] == 0xC9B61723 &&
      w[56] == 0x6C0586D9 && w[57] == 0xEFAD2B2A && w[58] == 0x06CD4967 && w[59] == 0xA4828036 &&
      w[60] == 0x76D5FBE3 && w[61] == 0xA63D4B00 && w[62] == 0x8F1D9083 && w[63] == 0x8FFA22B2
    ensures w[64] == 0xD13BFEAD && w[65] == 0x717817D4 && w[66] == 0x50111470 && w[67] == 0x2D0B8196 &&
      w[68] == 0x90FECC37 && w[69] == 0xE6FF7DB4 && w[70] == 0x25257825 && w[71] == 0x723FA518 &&
      w[72] == 0xBA18994E && w[73] == 0x3EE589DA && w[74] == 0xA46C07D8 && w[75] == 0x2B59A7DD &&
      w[76] == 0xAFA65D1A && w[77] == 0xD6A827BC && w[78] == 0xA0B563AC && w[79] == 0x46379AC8
  {
    assert Follows(w, 64);
    assert Follows(w, 65);
    assert Follows(w, 66);
    assert Follows(w, 67);
    assert Follows(w, 68);
    assert Follows(w, 69);
    assert Follows(w, 70);
    assert Follows(w, 71);
    assert Follows(w, 72);
    assert Follows(w, 73);
    assert Follows(w, 74);
    assert Follows(w, 75);
    assert Follows(w, 76);
    assert Follows(w, 77);
    assert Follows(w, 78);
    assert Follows(w, 79);
  }

  lemma Rfc1Outer1Rounds0(w: seq<word>)
    requires |w| == 80
    requires w[0] == 0xAE398AD2 && w[1] == 0xE539D65C && w[2] == 0x5DA2DA9C && w[3] == 0x8A613441 &&
      w[4] == 0x97393A8C && w[5] == 0x80000000 && w[6] == 0x00000000 && w[7] == 0x00000000 &&
      w[8] == 0x00000000 && w[9] == 0x00000000 && w[10] == 0x00000000 && w[11] == 0x00000000 &&
      w[12] == 0x00000000 && w[13] == 0x00000000 && w[14] == 0x00000000 && w[15] == 0x000002A0 &&
      w[16] == 0xE736A09D && w[17] == 0xDEB1C43A && w[18] == 0x9537C561 && w[19] == 0xDAAF29B9
    requires Compress(Regs(0x98BDBDCD, 0x58E07BFE, 0xAD5CDDEA, 0x3AC0430B, 0xFE106825), w, 0) == Regs(0x98BDBDCD, 0x58E07BFE, 0xAD5CDDEA, 0x3AC0430B, 0xFE106825)
    ensures Compress(Regs(0x98BDBDCD, 0x58E07BFE, 0xAD5CDDEA, 0x3AC0430B, 0xFE106825), w, 20) == Regs(0xDAD5D65C, 0x028D40F9, 0x124D66D0, 0x5CD33244, 0x1EC11825)
  {
    assert Round(Regs(0x98BDBDCD, 0x58E07BFE, 0xAD5CDDEA, 0x3AC0430B, 0xFE106825), 0xAE398AD2, 0) == Regs(0x48C4802E, 0x98BDBDCD, 0x96381EFF, 0xAD5CDDEA, 0x3AC0430B);
    assert Compress(Regs(0x98BDBDCD, 0x58E07BFE, 0xAD5CDDEA, 0x3AC0430B, 0xFE106825), w, 1) == Regs(0x48C4802E, 0x98BDBDCD, 0x96381EFF, 0xAD5CDDEA, 0x3AC0430B);
    assert Round(Regs(0x48C4802E, 0x98BDBDCD, 0x96381EFF, 0xAD5CDDEA, 0x3AC0430B), 0xE539D65C, 1) == Regs(0x4884F5B8, 0x48C4802E, 0x662F6F73, 0x96381EFF, 0xAD5CDDEA);
    assert Compress(Regs(0x98BDBDCD, 0x58E07BFE, 0xAD5CDDEA, 0x3AC0430B, 0xFE106825), w, 2) == Regs(0x4884F5B8, 0x48C4802E, 0x662F6F73, 0x96381EFF, 0xAD5CDDEA);
    assert Round(Regs(0x4884F5B8, 0x48C4802E, 0x662F6F73, 0x96381EFF, 0xAD5CDDEA), 0x5DA2DA9C, 2) == Regs(0x4C5D081B, 0x4884F5B8, 0x9231200B, 0x662F6F73, 0x96381EFF);
    assert Compress(Regs(0x98BDBDCD, 0x58E07BFE, 0xAD5CDDEA, 0x3AC0430B, 0xFE106825), w, 3) == Regs(0x4C5D081B, 0x4884F5B8, 0x9231200B, 0x662F6F73, 0x96381EFF);
    assert Round(Regs(0x4C5D081B, 0x4884F5B8, 0x9231200B, 0x662F6F73, 0x96381EFF), 0x8A613441, 3) == Regs(0x2CE7FA8D, 0x4C5D081B, 0x12213D6E, 0x9231200B, 0x662F6F73);
    assert Compress(Regs(0x98BDBDCD, 0x58E07BFE, 0xAD5CDDEA, 0x3AC0430B, 0xFE106825), w, 4) == Regs(0x2CE7FA8D, 0x4C5D081B, 0x12213D6E, 0x9231200B, 0x662F6F73);
    assert Round(Regs(0x2CE7FA8D, 0x4C5D081B, 0x12213D6E, 0x9231200B, 0x662F6F73), 0x97393A8C, 4) == Regs(0x870B9D47, 0x2CE7FA8D, 0xD3174206, 0x12213D6E, 0x9231200B);
    assert Compress(Regs(0x98BDBDCD, 0x58E07BFE, 0xAD5CDDEA, 0x3AC0430B, 0xFE106825), w, 5) == Regs(0x870B9D47, 0x2CE7FA8D, 0xD3174206, 0x12213D6E, 0x9231200B);
    assert Round(Regs(0x870B9D47, 0x2CE7FA8D, 0xD3174206, 0x12213D6E, 0x9231200B), 0x80000000, 5) == Regs(0x602E89FA, 0x870B9D47, 0x4B39FEA3, 0xD3174206, 0x12213D6E);
    assert Compress(Regs(0x98BDBDCD, 0x58E07BFE, 0xAD5CDDEA, 0x3AC0430B, 0xFE106825), w, 6) == Regs(0x602E89FA, 0x870B9D47, 0x4B39FEA3, 0xD3174206, 0x12213D6E);
    assert Round(Regs(0x602E89FA, 0x870B9D47, 0x4B39FEA3, 0xD3174206, 0x12213D6E), 0x00000000, 6) == Regs(0xC592D456, 0x602E89FA, 0xE1C2E751, 0x4B39FEA3, 0xD3174206);
    assert Compress(Regs(0x98BDBDCD, 0x58E07BFE, 0xAD5CDDEA, 0x3AC0430B, 0xFE106825), w, 7) == Regs(0xC592D456, 0x602E89FA, 0xE1C2E751, 0x4B39FEA3, 0xD3174206);
    assert Round(Regs(0xC592D456, 0x602E89FA, 0xE1C2E751, 0x4B39FEA3, 0xD3174206), 0x00000000, 7) == Regs(0x4B083DC8, 0xC592D456, 0x980BA27E, 0xE1C2E751, 0x4B39FEA3);
    assert Compress(Regs(0x98BDBDCD, 0x58E07BFE, 0xAD5CDDEA, 0x3AC0430B, 0xFE106825), w, 8) == Regs(0x4B083DC8, 0xC592D456, 0x980BA27E, 0xE1C2E751, 0x4B39FEA3);
    assert Round(Regs(0x4B083DC8, 0xC592D456, 0x980BA27E, 0xE1C2E751, 0x4B39FEA3), 0x00000000, 8) == Regs(0xA706D49C, 0x4B083DC8, 0xB164B515, 0x980BA27E, 0xE1C2E751);
    assert Compress(Regs(0x98BDBDCD, 0x58E07BFE, 0xAD5CDDEA, 0x3AC0430B, 0xFE106825), w, 9) == Regs(0xA706D49C, 0x4B083DC8, 0xB164B515, 0x980BA27E, 0xE1C2E751);
    assert Round(Regs(0xA706D49C, 0x4B083DC8, 0xB164B515, 0x980BA27E, 0xE1C2E751), 0x00000000, 9) == Regs(0xAE23ABB4, 0xA706D49C, 0x12C20F72, 0xB164B515, 0x980BA27E);
    assert Compress(Regs(0x98BDBDCD, 0x58E07BFE, 0xAD5CDDEA, 0x3AC0430B, 0xFE106825), w, 10) == Regs(0xAE23ABB4, 0xA706D49C, 0x12C20F72, 0xB164B515, 0x980BA27E);
    assert Round(Regs(0xAE23ABB4, 0xA706D49C, 0x12C20F72, 0xB164B515, 0x980BA27E), 0x00000000, 10) == Regs(0xC965B7BD, 0xAE23ABB4, 0x29C1B527, 0x12C20F72, 0xB164B515);
    assert Compress(Regs(0x98BDBDCD, 0x58E07BFE, 0xAD5CDDEA, 0x3AC0430B, 0xFE106825), w, 11) == Regs(0xC965B7BD, 0xAE23ABB4, 0x29C1B527, 0x12C20F72, 0xB164B515);
    assert Round(Regs(0xC965B7BD, 0xAE23ABB4, 0x29C1B527, 0x12C20F72, 0xB164B515), 0x00000000, 11) == Regs(0x715FCBCD, 0xC965B7BD, 0x2B88EAED, 0x29C1B527, 0x12C20F72);
    assert Compress(Regs(0x98BDBDCD, 0x58E07BFE, 0xAD5CDDEA, 0x3AC0430B, 0xFE106825), w, 12) == Regs(0x715FCBCD, 0xC965B7BD, 0x2B88EAED, 0x29C1B527, 0x12C20F72);
    assert Round(Regs(0x715FCBCD, 0xC965B7BD, 0x2B88EAED, 0x29C1B527, 0x12C20F72), 0x00000000, 12) == Regs(0xC2BEA568, 0x715FCBCD, 0x72596DEF, 0x2B88EAED, 0x29C1B527);
    assert Compress(Regs(0x98BDBDCD, 0x58E07BFE, 0xAD5CDDEA, 0x3AC0430B, 0xFE106825), w, 13) == Regs(0xC2BEA568, 0x715FCBCD, 0x72596DEF, 0x2B88EAED, 0x29C1B527);
    assert Round(Regs(0xC2BEA568, 0x715FCBCD, 0x72596DEF, 0x2B88EAED, 0x29C1B527), 0x00000000, 13) == Regs(0x56F245C5, 0xC2BEA568, 0x5C57F2F3, 0x72596DEF, 0x2B88EAED);
    assert Compress(Regs(0x98BDBDCD, 0x58E07BFE, 0xAD5CDDEA, 0x3AC0430B, 0xFE106825), w, 14) == Regs(0x56F245C5, 0xC2BEA568, 0x5C57F2F3, 0x72596DEF, 0x2B88EAED);
    assert Round(Regs(0x56F245C5, 0xC2BEA568, 0x5C57F2F3, 0x72596DEF, 0x2B88EAED), 0x00000000, 14) == Regs(0xD4AC0617, 0x56F245C5, 0x30AFA95A, 0x5C57F2F3, 0x72596DEF);
    assert Compress(Regs(0x98BDBDCD, 0x58E07BFE, 0xAD5CDDEA, 0x3AC0430B, 0xFE106825), w, 15) == Regs(0xD4AC0617, 0x56F245C5, 0x30AFA95A, 0x5C57F2F3, 0x72596DEF);
    assert Round(Regs(0xD4AC0617, 0x56F245C5, 0x30AFA95A, 0x5C57F2F3, 0x72596DEF), 0x000002A0, 15) == Regs(0x7B046094, 0xD4AC0617, 0x55BC9171, 0x30AFA95A, 0x5C57F2F3);
    assert Compress(Regs(0x98BDBDCD, 0x58E07BFE, 0xAD5CDDEA, 0x3AC0430B, 0xFE106825), w, 16) == Regs(0x7B046094, 0xD4AC0617, 0x55BC9171, 0x30AFA95A, 0x5C57F2F3);
    assert Round(Regs(0x7B046094, 0xD4AC0617, 0x55BC9171, 0x30AFA95A, 0x5C57F2F3), 0xE736A09D, 16) == Regs(0x734CC911, 0x7B046094, 0xF52B0185, 0x55BC9171, 0x30AFA95A);
    assert Compress(Regs(0x98BDBDCD, 0x58E07BFE, 0xAD5CDDEA, 0x3AC0430B, 0xFE106825), w, 17) == Regs(0x734CC911, 0x7B046094, 0xF52B0185, 0x55BC9171, 0x30AFA95A);
    assert Round(Regs(0x734CC911, 0x7B046094, 0xF52B0185, 0x55BC9171, 0x30AFA95A), 0xDEB1C43A, 17) == Regs(0x49359B40, 0x734CC911, 0x1EC11825, 0xF52B0185, 0x55BC9171);
    assert Compress(Regs(0x98BDBDCD, 0x58E07BFE, 0xAD5CDDEA, 0x3AC0430B, 0xFE106825), w, 18) == Regs(0x49359B40, 0x734CC911, 0x1EC11825, 0xF52B0185, 0x55BC9171);
    assert Round(Regs(0x49359B40, 0x734CC911, 0x1EC11825, 0xF52B0185, 0x55BC9171), 0x9537C561, 18) == Regs(0x028D40F9, 0x49359B40, 0x5CD33244, 0x1EC11825, 0xF52B0185);
    assert Compress(Regs(0x98BDBDCD, 0x58E07BFE, 0xAD5CDDEA, 0x3AC0430B, 0xFE106825), w, 19) == Regs(0x028D40F9, 0x49359B40, 0x5CD33244, 0x1EC11825, 0xF52B0185);
    assert Round(Regs(0x028D40F9, 0x49359B40, 0x5CD33244, 0x1EC11825, 0xF52B0185), 0xDAAF29B9, 19) == Regs(0xDAD5D65C, 0x028D40F9, 0x124D66D0, 0x5CD33244, 0x1EC11825);
    assert Compress(Regs(0x98BDBDCD, 0x58E07BFE, 0xAD5CDDEA, 0x3AC0430B, 0xFE106825), w, 20) == Regs(0xDAD5D65C, 0x028D40F9, 0x124D66D0, 0x5CD33244, 0x1EC11825);
  }

  lemma Rfc1Outer1Rounds1(w: seq<word>)
    requires |w| == 80
    requires w[20] == 0x9311FD6C && w[21] == 0x2A6F8AC2 && w[22] == 0xB55E5373 && w[23] == 0x2623FF99 &&
      w[24] == 0x9AB254BF && w[25] == 0xD7DF2E92 && w[26] == 0x662875F1 && w[27] == 0x803AFA0C &&
      w[28] == 0x899DA7FC && w[29] == 0x988FFB26 && w[30] == 0xA4A413C5 && w[31] == 0xE21F3DFE &&
      w[32] == 0xE07994CA && w[33] == 0xEECBA1A8 && w[34] == 0x0422E005 && w[35] == 0x21079B7B &&
      w[36] == 0x82335096 && w[37] == 0x21C2DCF1 && w[38] == 0x549F1EE5 && w[39] == 0x23A178C7
    requires Compress(Regs(0x98BDBDCD, 0x58E07BFE, 0xAD5CDDEA, 0x3AC0430B, 0xFE106825), w, 20) == Regs(0xDAD5D65C, 0x028D40F9, 0x124D66D0, 0x5CD33244, 0x1EC11825)
    ensures Compress(Regs(0x98BDBDCD, 0x58E07BFE, 0xAD5CDDEA, 0x3AC0430B, 0xFE106825), w, 40) == Regs(0x58F80AEC, 0x7B946A37, 0xF2229F8F, 0xC5BBD530, 0x0F482DB1)
  {
    assert Round(Regs(0xDAD5D65C, 0x028D40F9, 0x124D66D0, 0x5CD33244, 0x1EC11825), 0x9311FD6C, 20) == Regs(0xC77AE13A, 0xDAD5D65C, 0x40A3503E, 0x124D66D0, 0x5CD33244);
    assert Compress(Regs(0x98BDBDCD, 0x58E07BFE, 0xAD5CDDEA, 0x3AC0430B, 0xFE106825), w, 21) == Regs(0xC77AE13A, 0xDAD5D65C, 0x40A3503E, 0x124D66D0, 0x5CD33244);
    assert Round(Regs(0xC77AE13A, 0xDAD5D65C, 0x40A3503E, 0x124D66D0, 0x5CD33244), 0x2A6F8AC2, 21) == Regs(0x6DB4B0B1, 0xC77AE13A, 0x36B57597, 0x40A3503E, 0x124D66D0);
    assert Compress(Regs(0x98BDBDCD, 0x58E07BFE, 0xAD5CDDEA, 0x3AC0430B, 0xFE106825), w, 22) == Regs(0x6DB4B0B1, 0xC77AE13A, 0x36B57597, 0x40A3503E, 0x124D66D0);
    assert Round(Regs(0x6DB4B0B1, 0xC77AE13A, 0x36B57597, 0x40A3503E, 0x124D66D0), 0xB55E5373, 22) == Regs(0x9E8880A4, 0x6DB4B0B1, 0xB1DEB84E, 0x36B57597, 0x40A3503E);
    assert Compress(Regs(0x98BDBDCD, 0x58E07BFE, 0xAD5CDDEA, 0x3AC0430B, 0xFE106825), w, 23) == Regs(0x9E8880A4, 0x6DB4B0B1, 0xB1DEB84E, 0x36B57597, 0x40A3503E);
    assert Round(Regs(0x9E8880A4, 0x6DB4B0B1, 0xB1DEB84E, 0x36B57597, 0x40A3503E), 0x2623FF99, 23) == Regs(0x9190CD73, 0x9E8880A4, 0x5B6D2C2C, 0xB1DEB84E, 0x36B57597);
    assert Compress(Regs(0x98BDBDCD, 0x58E07BFE, 0xAD5CDDEA, 0x3AC0430B, 0xFE106825), w, 24) == Regs(0x9190CD73, 0x9E8880A4, 0x5B6D2C2C, 0xB1DEB84E, 0x36B57597);
    assert Round(Regs(0x9190CD73, 0x9E8880A4, 0x5B6D2C2C, 0xB1DEB84E, 0x36B57597), 0x9AB254BF, 24) == Regs(0xE696792F, 0x9190CD73, 0x27A22029, 0x5B6D2C2C, 0xB1DEB84E);
    assert Compress(Regs(0x98BDBDCD, 0x58E07BFE, 0xAD5CDDEA, 0x3AC0430B, 0xFE106825), w, 25) == Regs(0xE696792F, 0x9190CD73, 0x27A22029, 0x5B6D2C2C, 0xB1DEB84E);
    assert Round(Regs(0xE696792F, 0x9190CD73, 0x27A22029, 0x5B6D2C2C, 0xB1DEB84E), 0xD7DF2E92, 25) == Regs(0xB8C6B9F3, 0xE696792F, 0xE464335C, 0x27A22029, 0x5B6D2C2C);
    assert Compress(Regs(0x98BDBDCD, 0x58E07BFE, 0xAD5CDDEA, 0x3AC0430B, 0xFE106825), w, 26) == Regs(0xB8C6B9F3, 0xE696792F, 0xE464335C, 0x27A22029, 0x5B6D2C2C);
    assert Round(Regs(0xB8C6B9F3, 0xE696792F, 0xE464335C, 0x27A22029, 0x5B6D2C2C), 0x662875F1, 26) == Regs(0x6E97368F, 0xB8C6B9F3, 0xF9A59E4B, 0xE464335C, 0x27A22029);
    assert Compress(Regs(0x98BDBDCD, 0x58E07BFE, 0xAD5CDDEA, 0x3AC0430B, 0xFE106825), w, 27) == Regs(0x6E97368F, 0xB8C6B9F3, 0xF9A59E4B, 0xE464335C, 0x27A22029);
    assert Round(Regs(0x6E97368F, 0xB8C6B9F3, 0xF9A59E4B, 0xE464335C, 0x27A22029), 0x803AFA0C, 27) == Regs(0x8EA4ECA7, 0x6E97368F, 0xEE31AE7C, 0xF9A59E4B, 0xE464335C);
    assert Compress(Regs(0x98BDBDCD, 0x58E07BFE, 0xAD5CDDEA, 0x3AC0430B, 0xFE106825), w, 28) == Regs(0x8EA4ECA7, 0x6E97368F, 0xEE31AE7C, 0xF9A59E4B, 0xE464335C);
    assert Round(Regs(0x8EA4ECA7, 0x6E97368F, 0xEE31AE7C, 0xF9A59E4B, 0xE464335C), 0x899DA7FC, 28) == Regs(0x2A7C62A2, 0x8EA4ECA7, 0xDBA5CDA3, 0xEE31AE7C, 0xF9A59E4B);
    assert Compress(Regs(0x98BDBDCD, 0x58E07BFE, 0xAD5CDDEA, 0x3AC0430B, 0xFE106825), w, 29) == Regs(0x2A7C62A2, 0x8EA4ECA7, 0xDBA5CDA3, 0xEE31AE7C, 0xF9A59E4B);
    assert Round(Regs(0x2A7C62A2, 0x8EA4ECA7, 0xDBA5CDA3, 0xEE31AE7C, 0xF9A59E4B), 0x988FFB26, 29) == Regs(0x0BCC68CF, 0x2A7C62A2, 0xE3A93B29, 0xDBA5CDA3, 0xEE31AE7C);
    assert Compress(Regs(0x98BDBDCD, 0x58E07BFE, 0xAD5CDDEA, 0x3AC0430B, 0xFE106825), w, 30) == Regs(0x0BCC68CF, 0x2A7C62A2, 0xE3A93B29, 0xDBA5CDA3, 0xEE31AE7C);
    assert Round(Regs(0x0BCC68CF, 0x2A7C62A2, 0xE3A93B29, 0xDBA5CDA3, 0xEE31AE7C), 0xA4A413C5, 30) == Regs(0x8DAD5BEB, 0x0BCC68CF, 0x8A9F18A8, 0xE3A93B29, 0xDBA5CDA3);
    assert Compress(Regs(0x98BDBDCD, 0x58E07BFE, 0xAD5CDDEA, 0x3AC0430B, 0xFE106825), w, 31) == Regs(0x8DAD5BEB, 0x0BCC68CF, 0x8A9F18A8, 0xE3A93B29, 0xDBA5CDA3);
    assert Round(Regs(0x8DAD5BEB, 0x0BCC68CF, 0x8A9F18A8, 0xE3A93B29, 0xDBA5CDA3), 0xE21F3DFE, 31) == Regs(0x4544C001, 0x8DAD5BEB, 0xC2F31A33, 0x8A9F18A8, 0xE3A93B29);
    assert Compress(Regs(0x98BDBDCD, 0x58E07BFE, 0xAD5CDDEA, 0x3AC0430B, 0xFE106825), w, 32) == Regs(0x4544C001, 0x8DAD5BEB, 0xC2F31A33, 0x8A9F18A8, 0xE3A93B29);
    assert Round(Regs(0x4544C001, 0x8DAD5BEB, 0xC2F31A33, 0x8A9F18A8, 0xE3A93B29), 0xE07994CA, 32) == Regs(0xA156152C, 0x4544C001, 0xE36B56FA, 0xC2F31A33, 0x8A9F18A8);
    assert Compress(Regs(0x98BDBDCD, 0x58E07BFE, 0xAD5CDDEA, 0x3AC0430B, 0xFE106825), w, 33) == Regs(0xA156152C, 0x4544C001, 0xE36B56FA, 0xC2F31A33, 0x8A9F18A8);
    assert Round(Regs(0xA156152C, 0x4544C001, 0xE36B56FA, 0xC2F31A33, 0x8A9F18A8), 0xEECBA1A8, 33) == Regs(0x77E3D84D, 0xA156152C, 0x51513000, 0xE36B56FA, 0xC2F31A33);
    assert Compress(Regs(0x98BDBDCD, 0x58E07BFE, 0xAD5CDDEA, 0x3AC0430B, 0xFE106825), w, 34) == Regs(0x77E3D84D, 0xA156152C, 0x51513000, 0xE36B56FA, 0xC2F31A33);
    assert Round(Regs(0x77E3D84D, 0xA156152C, 0x51513000, 0xE36B56FA, 0xC2F31A33), 0x0422E005, 34) == Regs(0x45D7635D, 0x77E3D84D, 0x2855854B, 0x51513000, 0xE36B56FA);
    assert Compress(Regs(0x98BDBDCD, 0x58E07BFE, 0xAD5CDDEA, 0x3AC0430B, 0xFE106825), w, 35) == Regs(0x45D7635D, 0x77E3D84D, 0x2855854B, 0x51513000, 0xE36B56FA);
    assert Round(Regs(0x45D7635D, 0x77E3D84D, 0x2855854B, 0x51513000, 0xE36B56FA), 0x21079B7B, 35) == Regs(0x3D20B6C4, 0x45D7635D, 0x5DF8F613, 0x2855854B, 0x51513000);
    assert Compress(Regs(0x98BDBDCD, 0x58E07BFE, 0xAD5CDDEA, 0x3AC0430B, 0xFE106825), w, 36) == Regs(0x3D20B6C4, 0x45D7635D, 0x5DF8F613, 0x2855854B, 0x51513000);
    assert Round(Regs(0x3D20B6C4, 0x45D7635D, 0x5DF8F613, 0x2855854B, 0x51513000), 0x82335096, 36) == Regs(0x16EF54C3, 0x3D20B6C4, 0x5175D8D7, 0x5DF8F613, 0x2855854B);
    assert Compress(Regs(0x98BDBDCD, 0x58E07BFE, 0xAD5CDDEA, 0x3AC0430B, 0xFE106825), w, 37) == Regs(0x16EF54C3, 0x3D20B6C4, 0x5175D8D7, 0x5DF8F613, 0x2855854B);
    assert Round(Regs(0x16EF54C3, 0x3D20B6C4, 0x5175D8D7, 0x5DF8F613, 0x2855854B), 0x21C2DCF1, 37) == Regs(0xC88A7E3F, 0x16EF54C3, 0x0F482DB1, 0x5175D8D7, 0x5DF8F613);
    assert Compress(Regs(0x98BDBDCD, 0x58E07BFE, 0xAD5CDDEA, 0x3AC0430B, 0xFE106825), w, 38) == Regs(0xC88A7E3F, 0x16EF54C3, 0x0F482DB1, 0x5175D8D7, 0x5DF8F613);
    assert Round(Regs(0xC88A7E3F, 0x16EF54C3, 0x0F482DB1, 0x5175D8D7, 0x5DF8F613), 0x549F1EE5, 38) == Regs(0x7B946A37, 0xC88A7E3F, 0xC5BBD530, 0x0F482DB1, 0x5175D8D7);
    assert Compress(Regs(0x98BDBDCD, 0x58E07BFE, 0xAD5CDDEA, 0x3AC0430B, 0xFE106825), w, 39) == Regs(0x7B946A37, 0xC88A7E3F, 0xC5BBD530, 0x0F482DB1, 0x5175D8D7);
    assert Round(Regs(0x7B946A37, 0xC88A7E3F, 0xC5BBD530, 0x0F482DB1, 0x5175D8D7), 0x23A178C7, 39) == Regs(0x58F80AEC, 0x7B946A37, 0xF2229F8F, 0xC5BBD530, 0x0F482DB1);
    assert Compress(Regs(0x98BDBDCD, 0x58E07BFE, 0xAD5CDDEA, 0x3AC0430B, 0xFE106825), w, 40) == Regs(0x58F80AEC, 0x7B946A37, 0xF2229F8F, 0xC5BBD530, 0x0F482DB1);
  }

  lemma Rfc1Outer1Rounds2(w: seq<word>)
    requires |w| == 80
    requires w[40] == 0x7A42D2EA && w[41] == 0xDB62D7A7 && w[42] == 0x906C959F && w[43] == 0x87E09176 &&
      w[44] == 0xE8D06610 && w[45] == 0x967D1F6D && w[46] == 0x2F441139 && w[47] == 0x8F4B0503 &&
      w[48] == 0x10C97290 && w[49] == 0x77D5F89A && w[50] == 0x326C401F && w[51] == 0x2FD948D9 &&
      w[52] == 0x9353A1F2 && w[53] == 0x4CE5F689 && w[54] == 0x5C812BDE && w[55] == 0xC9B61723 &&
      w[56] == 0x6C0586D9 && w[57] == 0xEFAD2B2A && w[58] == 0x06CD4967 && w[59] == 0xA4828036
    requires Compress(Regs(0x98BDBDCD, 0x58E07BFE, 0xAD5CDDEA, 0x3AC0430B, 0xFE106825), w, 40) == Regs(0x58F80AEC, 0x7B946A37, 0xF2229F8F, 0xC5BBD530, 0x0F482DB1)
    ensures Compress(Regs(0x98BDBDCD, 0x58E07BFE, 0xAD5CDDEA, 0x3AC0430B, 0xFE106825), w, 60) == Regs(0x2E5C1CE8, 0x011DEECB, 0x5BF77406, 0x5567269E, 0x50F3BA6E)
  {
    assert Round(Regs(0x58F80AEC, 0x7B946A37, 0xF2229F8F, 0xC5BBD530, 0x0F482DB1), 0x7A42D2EA, 40) == Regs(0x2B5AFA39, 0x58F80AEC, 0xDEE51A8D, 0xF2229F8F, 0xC5BBD530);
    assert Compress(Regs(0x98BDBDCD, 0x58E07BFE, 0xAD5CDDEA, 0x3AC0430B, 0xFE106825), w, 41) == Regs(0x2B5AFA39, 0x58F80AEC, 0xDEE51A8D, 0xF2229F8F, 0xC5BBD530);
    assert Round(Regs(0x2B5AFA39, 0x58F80AEC, 0xDEE51A8D, 0xF2229F8F, 0xC5BBD530), 0xDB62D7A7, 41) == Regs(0x7679CB65, 0x2B5AFA39, 0x163E02BB, 0xDEE51A8D, 0xF2229F8F);
    assert Compress(Regs(0x98BDBDCD, 0x58E07BFE, 0xAD5CDDEA, 0x3AC0430B, 0xFE106825), w, 42) == Regs(0x7679CB65, 0x2B5AFA39, 0x163E02BB, 0xDEE51A8D, 0xF2229F8F);
    assert Round(Regs(0x7679CB65, 0x2B5AFA39, 0x163E02BB, 0xDEE51A8D, 0xF2229F8F), 0x906C959F, 42) == Regs(0xFF627971, 0x7679CB65, 0x4AD6BE8E, 0x163E02BB, 0xDEE51A8D);
    assert Compress(Regs(0x98BDBDCD, 0x58E07BFE, 0xAD5CDDEA, 0x3AC0430B, 0xFE106825), w, 43) == Regs(0xFF627971, 0x7679CB65, 0x4AD6BE8E, 0x163E02BB, 0xDEE51A8D);
    assert Round(Regs(0xFF627971, 0x7679CB65, 0x4AD6BE8E, 0x163E02BB, 0xDEE51A8D), 0x87E09176, 43) == Regs(0x38AF21CD, 0xFF627971, 0x5D9E72D9, 0x4AD6BE8E, 0x163E02BB);
    assert Compress(Regs(0x98BDBDCD, 0x58E07BFE, 0xAD5CDDEA, 0x3AC0430B, 0xFE106825), w, 44) == Regs(0x38AF21CD, 0xFF627971, 0x5D9E72D9, 0x4AD6BE8E, 0x163E02BB);
    assert Round(Regs(0x38AF21CD, 0xFF627971, 0x5D9E72D9, 0x4AD6BE8E, 0x163E02BB), 0xE8D06610, 44) == Regs(0x03E4DA27, 0x38AF21CD, 0x7FD89E5C, 0x5D9E72D9, 0x4AD6BE8E);
    assert Compress(Regs(0x98BDBDCD, 0x58E07BFE, 0xAD5CDDEA, 0x3AC0430B, 0xFE106825), w, 45) == Regs(0x03E4DA27, 0x38AF21CD, 0x7FD89E5C, 0x5D9E72D9, 0x4AD6BE8E);
    assert Round(Regs(0x03E4DA27, 0x38AF21CD, 0x7FD89E5C, 0x5D9E72D9, 0x4AD6BE8E), 0x967D1F6D, 45) == Regs(0x6AA91294, 0x03E4DA27, 0x4E2BC873, 0x7FD89E5C, 0x5D9E72D9);
    assert Compress(Regs(0x98BDBDCD, 0x58E07BFE, 0xAD5CDDEA, 0x3AC0430B, 0xFE106825), w, 46) == Regs(0x6AA91294, 0x03E4DA27, 0x4E2BC873, 0x7FD89E5C, 0x5D9E72D9);
    assert Round(Regs(0x6AA91294, 0x03E4DA27, 0x4E2BC873, 0x7FD89E5C, 0x5D9E72D9), 0x2F441139, 46) == Regs(0xC1096DF2, 0x6AA91294, 0xC0F93689, 0x4E2BC873, 0x7FD89E5C);
    assert Compress(Regs(0x98BDBDCD, 0x58E07BFE, 0xAD5CDDEA, 0x3AC0430B, 0xFE106825), w, 47) == Regs(0xC1096DF2, 0x6AA91294, 0xC0F93689, 0x4E2BC873, 0x7FD89E5C);
    assert Round(Regs(0xC1096DF2, 0x6AA91294, 0xC0F93689, 0x4E2BC873, 0x7FD89E5C), 0x8F4B0503, 47) == Regs(0x0A163124, 0xC1096DF2, 0x1AAA44A5, 0xC0F93689, 0x4E2BC873);
    assert Compress(Regs(0x98BDBDCD, 0x58E07BFE, 0xAD5CDDEA, 0x3AC0430B, 0xFE106825), w, 48) == Regs(0x0A163124, 0xC1096DF2, 0x1AAA44A5, 0xC0F93689, 0x4E2BC873);
    assert Round(Regs(0x0A163124, 0xC1096DF2, 0x1AAA44A5, 0xC0F93689, 0x4E2BC873), 0x10C97290, 48) == Regs(0xF1808101, 0x0A163124, 0xB0425B7C, 0x1AAA44A5, 0xC0F93689);
    assert Compress(Regs(0x98BDBDCD, 0x58E07BFE, 0xAD5CDDEA, 0x3AC0430B, 0xFE106825), w, 49) == Regs(0xF1808101, 0x0A163124, 0xB0425B7C, 0x1AAA44A5, 0xC0F93689);
    assert Round(Regs(0xF1808101, 0x0A163124, 0xB0425B7C, 0x1AAA44A5, 0xC0F93689), 0x77D5F89A, 49) == Regs(0x11FD5D61, 0xF1808101, 0x02858C49, 0xB0425B7C, 0x1AAA44A5);
    assert Compress(Regs(0x98BDBDCD, 0x58E07BFE, 0xAD5CDDEA, 0x3AC0430B, 0xFE106825), w, 50) == Regs(0x11FD5D61, 0xF1808101, 0x02858C49, 0xB0425B7C, 0x1AAA44A5);
    assert Round(Regs(0x11FD5D61, 0xF1808101, 0x02858C49, 0xB0425B7C, 0x1AAA44A5), 0x326C401F, 50) == Regs(0xCC5E770B, 0x11FD5D61, 0x7C602040, 0x02858C49, 0xB0425B7C);
    assert Compress(Regs(0x98BDBDCD, 0x58E07BFE, 0xAD5CDDEA, 0x3AC0430B, 0xFE106825), w, 51) == Regs(0xCC5E770B, 0x11FD5D61, 0x7C602040, 0x02858C49, 0xB0425B7C);
    assert Round(Regs(0xCC5E770B, 0x11FD5D61, 0x7C602040, 0x02858C49, 0xB0425B7C), 0x2FD948D9, 51) == Regs(0x0BEB4EEB, 0xCC5E770B, 0x447F5758, 0x7C602040, 0x02858C49);
    assert Compress(Regs(0x98BDBDCD, 0x58E07BFE, 0xAD5CDDEA, 0x3AC0430B, 0xFE106825), w, 52) == Regs(0x0BEB4EEB, 0xCC5E770B, 0x447F5758, 0x7C602040, 0x02858C49);
    assert Round(Regs(0x0BEB4EEB, 0xCC5E770B, 0x447F5758, 0x7C602040, 0x02858C49), 0x9353A1F2, 52) == Regs(0xEEDD3FC0, 0x0BEB4EEB, 0xF3179DC2, 0x447F5758, 0x7C602040);
    assert Compress(Regs(0x98BDBDCD, 0x58E07BFE, 0xAD5CDDEA, 0x3AC0430B, 0xFE106825), w, 53) == Regs(0xEEDD3FC0, 0x0BEB4EEB, 0xF3179DC2, 0x447F5758, 0x7C602040);
    assert Round(Regs(0xEEDD3FC0, 0x0BEB4EEB, 0xF3179DC2, 0x447F5758, 0x7C602040), 0x4CE5F689, 53) == Regs(0x77892B8C, 0xEEDD3FC0, 0xC2FAD3BA, 0xF3179DC2, 0x447F5758);
    assert Compress(Regs(0x98BDBDCD, 0x58E07BFE, 0xAD5CDDEA, 0x3AC0430B, 0xFE106825), w, 54) == Regs(0x77892B8C, 0xEEDD3FC0, 0xC2FAD3BA, 0xF3179DC2, 0x447F5758);
    assert Round(Regs(0x77892B8C, 0xEEDD3FC0, 0xC2FAD3BA, 0xF3179DC2, 0x447F5758), 0x5C812BDE, 54) == Regs(0x04215162, 0x77892B8C, 0x3BB74FF0, 0xC2FAD3BA, 0xF3179DC2);
    assert Compress(Regs(0x98BDBDCD, 0x58E07BFE, 0xAD5CDDEA, 0x3AC0430B, 0xFE106825), w, 55) == Regs(0x04215162, 0x77892B8C, 0x3BB74FF0, 0xC2FAD3BA, 0xF3179DC2);
    assert Round(Regs(0x04215162, 0x77892B8C, 0x3BB74FF0, 0xC2FAD3BA, 0xF3179DC2), 0xC9B61723, 55) == Regs(0x43CEE9B9, 0x04215162, 0x1DE24AE3, 0x3BB74FF0, 0xC2FAD3BA);
    assert Compress(Regs(0x98BDBDCD, 0x58E07BFE, 0xAD5CDDEA, 0x3AC0430B, 0xFE106825), w, 56) == Regs(0x43CEE9B9, 0x04215162, 0x1DE24AE3, 0x3BB74FF0, 0xC2FAD3BA);
    assert Round(Regs(0x43CEE9B9, 0x04215162, 0x1DE24AE3, 0x3BB74FF0, 0xC2FAD3BA), 0x6C0586D9, 56) == Regs(0x559C9A79, 0x43CEE9B9, 0x81085458, 0x1DE24AE3, 0x3BB74FF0);
    assert Compress(Regs(0x98BDBDCD, 0x58E07BFE, 0xAD5CDDEA, 0x3AC0430B, 0xFE106825), w, 57) == Regs(0x559C9A79, 0x43CEE9B9, 0x81085458, 0x1DE24AE3, 0x3BB74FF0);
    assert Round(Regs(0x559C9A79, 0x43CEE9B9, 0x81085458, 0x1DE24AE3, 0x3BB74FF0), 0xEFAD2B2A, 57) == Regs(0x6FDDD019, 0x559C9A79, 0x50F3BA6E, 0x81085458, 0x1DE24AE3);
    assert Compress(Regs(0x98BDBDCD, 0x58E07BFE, 0xAD5CDDEA, 0x3AC0430B, 0xFE106825), w, 58) == Regs(0x6FDDD019, 0x559C9A79, 0x50F3BA6E, 0x81085458, 0x1DE24AE3);
    assert Round(Regs(0x6FDDD019, 0x559C9A79, 0x50F3BA6E, 0x81085458, 0x1DE24AE3), 0x06CD4967, 58) == Regs(0x011DEECB, 0x6FDDD019, 0x5567269E, 0x50F3BA6E, 0x81085458);
    assert Compress(Regs(0x98BDBDCD, 0x58E07BFE, 0xAD5CDDEA, 0x3AC0430B, 0xFE106825), w, 59) == Regs(0x011DEECB, 0x6FDDD019, 0x5567269E, 0x50F3BA6E, 0x81085458);
    assert Round(Regs(0x011DEECB, 0x6FDDD019, 0x5567269E, 0x50F3BA6E, 0x81085458), 0xA4828036, 59) == Regs(0x2E5C1CE8, 0x011DEECB, 0x5BF77406, 0x5567269E, 0x50F3BA6E);
    assert Compress(Regs(0x98BDBDCD, 0x58E07BFE, 0xAD5CDDEA, 0x3AC0430B, 0xFE106825), w, 60) == Regs(0x2E5C1CE8, 0x011DEECB, 0x5BF77406, 0x5567269E, 0x50F3BA6E);
  }

  lemma Rfc1Outer1Rounds3(w: seq<word>)
    requires |w| == 80
    requires w[60] == 0x76D5FBE3 && w[61] == 0xA63D4B00 && w[62] == 0x8F1D9083 && w[63] == 0x8FFA22B2 &&
      w[64] == 0xD13BFEAD && w[65] == 0x717817D4 && w[66] == 0x50111470 && w[67] == 0x2D0B8196 &&
      w[68] == 0x90FECC37 && w[69] == 0xE6FF7DB4 && w[70] == 0x25257825 && w[71] == 0x723FA518 &&
      w[72] == 0xBA18994E && w[73] == 0x3EE589DA && w[74] == 0xA46C07D8 && w[75] == 0x2B59A7DD &&
      w[76] == 0xAFA65D1A && w[77] == 0xD6A827BC && w[78] == 0xA0B563AC && w[79] == 0x46379AC8
    requires Compress(Regs(0x98BDBDCD, 0x58E07BFE, 0xAD5CDDEA, 0x3AC0430B, 0xFE106825), w, 60) == Regs(0x2E5C1CE8, 0x011DEECB, 0x5BF77406, 0x5567269E, 0x50F3BA6E)
    ensures Compress(Regs(0x98BDBDCD, 0x58E07BFE, 0xAD5CDDEA, 0x3AC0430B, 0xFE106825), w, 80) == Regs(0xDCE6CC4C, 0x7BEB6502, 0xB6F1ACD7, 0xFEBEA769, 0x7C1CCB86)
  {
    assert Round(Regs(0x2E5C1CE8, 0x011DEECB, 0x5BF77406, 0x5567269E, 0x50F3BA6E), 0x76D5FBE3, 60) == Regs(0x6D3DD17F, 0x2E5C1CE8, 0xC0477BB2, 0x5BF77406, 0x5567269E);
    assert Compress(Regs(0x98BDBDCD, 0x58E07BFE, 0xAD5CDDEA, 0x3AC0430B, 0xFE106825), w, 61) == Regs(0x6D3DD17F, 0x2E5C1CE8, 0xC0477BB2, 0x5BF77406, 0x5567269E);
    assert Round(Regs(0x6D3DD17F, 0x2E5C1CE8, 0xC0477BB2, 0x5BF77406, 0x5567269E), 0xA63D4B00, 61) == Regs(0x23AD76BD, 0x6D3DD17F, 0x0B97073A, 0xC0477BB2, 0x5BF77406);
    assert Compress(Regs(0x98BDBDCD, 0x58E07BFE, 0xAD5CDDEA, 0x3AC0430B, 0xFE106825), w, 62) == Regs(0x23AD76BD, 0x6D3DD17F, 0x0B97073A, 0xC0477BB2, 0x5BF77406);
    assert Round(Regs(0x23AD76BD, 0x6D3DD17F, 0x0B97073A, 0xC0477BB2, 0x5BF77406), 0x8F1D9083, 62) == Regs(0xD2144BFA, 0x23AD76BD, 0xDB4F745F, 0x0B97073A, 0xC0477BB2);
    assert Compress(Regs(0x98BDBDCD, 0x58E07BFE, 0xAD5CDDEA, 0x3AC0430B, 0xFE106825), w, 63) == Regs(0xD2144BFA, 0x23AD76BD, 0xDB4F745F, 0x0B97073A, 0xC0477BB2);
    assert Round(Regs(0xD2144BFA, 0x23AD76BD, 0xDB4F745F, 0x0B97073A, 0xC0477BB2), 0x8FFA22B2, 63) == Regs(0x50A2E56C, 0xD2144BFA, 0x48EB5DAF, 0xDB4F745F, 0x0B97073A);
    assert Compress(Regs(0x98BDBDCD, 0x58E07BFE, 0xAD5CDDEA, 0x3AC0430B, 0xFE106825), w, 64) == Regs(0x50A2E56C, 0xD2144BFA, 0x48EB5DAF, 0xDB4F745F, 0x0B97073A);
    assert Round(Regs(0x50A2E56C, 0xD2144BFA, 0x48EB5DAF, 0xDB4F745F, 0x0B97073A), 0xD13BFEAD, 64) == Regs(0xFD42D751, 0x50A2E56C, 0xB48512FE, 0x48EB5DAF, 0xDB4F745F);
    assert Compress(Regs(0x98BDBDCD, 0x58E07BFE, 0xAD5CDDEA, 0x3AC0430B, 0xFE106825), w, 65) == Regs(0xFD42D751, 0x50A2E56C, 0xB48512FE, 0x48EB5DAF, 0xDB4F745F);
    assert Round(Regs(0xFD42D751, 0x50A2E56C, 0xB48512FE, 0x48EB5DAF, 0xDB4F745F), 0x717817D4, 65) == Regs(0x6C51E285, 0xFD42D751, 0x1428B95B, 0xB48512FE, 0x48EB5DAF);
    assert Compress(Regs(0x98BDBDCD, 0x58E07BFE, 0xAD5CDDEA, 0x3AC0430B, 0xFE106825), w, 66) == Regs(0x6C51E285, 0xFD42D751, 0x1428B95B, 0xB48512FE, 0x48EB5DAF);
    assert Round(Regs(0x6C51E285, 0xFD42D751, 0x1428B95B, 0xB48512FE, 0x48EB5DAF), 0x50111470, 66) == Regs(0x4B8B0196, 0x6C51E285, 0x7F50B5D4, 0x1428B95B, 0xB48512FE);
    assert Compress(Regs(0x98BDBDCD, 0x58E07BFE, 0xAD5CDDEA, 0x3AC0430B, 0xFE106825), w, 67) == Regs(0x4B8B0196, 0x6C51E285, 0x7F50B5D4, 0x1428B95B, 0xB48512FE);
    assert Round(Regs(0x4B8B0196, 0x6C51E285, 0x7F50B5D4, 0x1428B95B, 0xB48512FE), 0x2D0B8196, 67) == Regs(0x247D773D, 0x4B8B0196, 0x5B1478A1, 0x7F50B5D4, 0x1428B95B);
    assert Compress(Regs(0x98BDBDCD, 0x58E07BFE, 0xAD5CDDEA, 0x3AC0430B, 0xFE106825), w, 68) == Regs(0x247D773D, 0x4B8B0196, 0x5B1478A1, 0x7F50B5D4, 0x1428B95B);
    assert Round(Regs(0x247D773D, 0x4B8B0196, 0x5B1478A1, 0x7F50B5D4, 0x1428B95B), 0x90FECC37, 68) == Regs(0x6F08FBEF, 0x247D773D, 0x92E2C065, 0x5B1478A1, 0x7F50B5D4);
    assert Compress(Regs(0x98BDBDCD, 0x58E07BFE, 0xAD5CDDEA, 0x3AC0430B, 0xFE106825), w, 69) == Regs(0x6F08FBEF, 0x247D773D, 0x92E2C065, 0x5B1478A1, 0x7F50B5D4);
    assert Round(Regs(0x6F08FBEF, 0x247D773D, 0x92E2C065, 0x5B1478A1, 0x7F50B5D4), 0xE6FF7DB4, 69) == Regs(0xFF5E4344, 0x6F08FBEF, 0x491F5DCF, 0x92E2C065, 0x5B1478A1);
    assert Compress(Regs(0x98BDBDCD, 0x58E07BFE, 0xAD5CDDEA, 0x3AC0430B, 0xFE106825), w, 70) == Regs(0xFF5E4344, 0x6F08FBEF, 0x491F5DCF, 0x92E2C065, 0x5B1478A1);
    assert Round(Regs(0xFF5E4344, 0x6F08FBEF, 0x491F5DCF, 0x92E2C065, 0x5B1478A1), 0x25257825, 70) == Regs(0xEB5A8180, 0xFF5E4344, 0xDBC23EFB, 0x491F5DCF, 0x92E2C065);
    assert Compress(Regs(0x98BDBDCD, 0x58E07BFE, 0xAD5CDDEA, 0x3AC0430B, 0xFE106825), w, 71) == Regs(0xEB5A8180, 0xFF5E4344, 0xDBC23EFB, 0x491F5DCF, 0x92E2C065);
    assert Round(Regs(0xEB5A8180, 0xFF5E4344, 0xDBC23EFB, 0x491F5DCF, 0x92E2C065), 0x723FA518, 71) == Regs(0xA85877E0, 0xEB5A8180, 0x3FD790D1, 0xDBC23EFB, 0x491F5DCF);
    assert Compress(Regs(0x98BDBDCD, 0x58E07BFE, 0xAD5CDDEA, 0x3AC0430B, 0xFE106825), w, 72) == Regs(0xA85877E0, 0xEB5A8180, 0x3FD790D1, 0xDBC23EFB, 0x491F5DCF);
    assert Round(Regs(0xA85877E0, 0xEB5A8180, 0x3FD790D1, 0xDBC23EFB, 0x491F5DCF), 0xBA18994E, 72) == Regs(0xE7F8E4B2, 0xA85877E0, 0x3AD6A060, 0x3FD790D1, 0xDBC23EFB);
    assert Compress(Regs(0x98BDBDCD, 0x58E07BFE, 0xAD5CDDEA, 0x3AC0430B, 0xFE106825), w, 73) == Regs(0xE7F8E4B2, 0xA85877E0, 0x3AD6A060, 0x3FD790D1, 0xDBC23EFB);
    assert Round(Regs(0xE7F8E4B2, 0xA85877E0, 0x3AD6A060, 0x3FD790D1, 0xDBC23EFB), 0x3EE589DA, 73) == Regs(0x91806858, 0xE7F8E4B2, 0x2A161DF8, 0x3AD6A060, 0x3FD790D1);
    assert Compress(Regs(0x98BDBDCD, 0x58E07BFE, 0xAD5CDDEA, 0x3AC0430B, 0xFE106825), w, 74) == Regs(0x91806858, 0xE7F8E4B2, 0x2A161DF8, 0x3AD6A060, 0x3FD790D1);
    assert Round(Regs(0x91806858, 0xE7F8E4B2, 0x2A161DF8, 0x3AD6A060, 0x3FD790D1), 0xA46C07D8, 74) == Regs(0xD5EBBEBB, 0x91806858, 0xB9FE392C, 0x2A161DF8, 0x3AD6A060);
    assert Compress(Regs(0x98BDBDCD, 0x58E07BFE, 0xAD5CDDEA, 0x3AC0430B, 0xFE106825), w, 75) == Regs(0xD5EBBEBB, 0x91806858, 0xB9FE392C, 0x2A161DF8, 0x3AD6A060);
    assert Round(Regs(0xD5EBBEBB, 0x91806858, 0xB9FE392C, 0x2A161DF8, 0x3AD6A060), 0x2B59A7DD, 75) == Regs(0xF0732E19, 0xD5EBBEBB, 0x24601A16, 0xB9FE392C, 0x2A161DF8);
    assert Compress(Regs(0x98BDBDCD, 0x58E07BFE, 0xAD5CDDEA, 0x3AC0430B, 0xFE106825), w, 76) == Regs(0xF0732E19, 0xD5EBBEBB, 0x24601A16, 0xB9FE392C, 0x2A161DF8);
    assert Round(Regs(0xF0732E19, 0xD5EBBEBB, 0x24601A16, 0xB9FE392C, 0x2A161DF8), 0xAFA65D1A, 76) == Regs(0xFAFA9DA7, 0xF0732E19, 0xF57AEFAE, 0x24601A16, 0xB9FE392C);
    assert Compress(Regs(0x98BDBDCD, 0x58E07BFE, 0xAD5CDDEA, 0x3AC0430B, 0xFE106825), w, 77) == Regs(0xFAFA9DA7, 0xF0732E19, 0xF57AEFAE, 0x24601A16, 0xB9FE392C);
    assert Round(Regs(0xFAFA9DA7, 0xF0732E19, 0xF57AEFAE, 0x24601A16, 0xB9FE392C), 0xD6A827BC, 77) == Regs(0xDBC6B35E, 0xFAFA9DA7, 0x7C1CCB86, 0xF57AEFAE, 0x24601A16);
    assert Compress(Regs(0x98BDBDCD, 0x58E07BFE, 0xAD5CDDEA, 0x3AC0430B, 0xFE106825), w, 78) == Regs(0xDBC6B35E, 0xFAFA9DA7, 0x7C1CCB86, 0xF57AEFAE, 0x24601A16);
    assert Round(Regs(0xDBC6B35E, 0xFAFA9DA7, 0x7C1CCB86, 0xF57AEFAE, 0x24601A16), 0xA0B563AC, 78) == Regs(0x7BEB6502, 0xDBC6B35E, 0xFEBEA769, 0x7C1CCB86, 0xF57AEFAE);
    assert Compress(Regs(0x98BDBDCD, 0x58E07BFE, 0xAD5CDDEA, 0x3AC0430B, 0xFE106825), w, 79) == Regs(0x7BEB6502, 0xDBC6B35E, 0xFEBEA769, 0x7C1CCB86, 0xF57AEFAE);
    assert Round(Regs(0x7BEB6502, 0xDBC6B35E, 0xFEBEA769, 0x7C1CCB86, 0xF57AEFAE), 0x46379AC8, 79) == Regs(0xDCE6CC4C, 0x7BEB6502, 0xB6F1ACD7, 0xFEBEA769, 0x7C1CCB86);
    assert Compress(Regs(0x98BDBDCD, 0x58E07BFE, 0xAD5CDDEA, 0x3AC0430B, 0xFE106825), w, 80) == Regs(0xDCE6CC4C, 0x7BEB6502, 0xB6F1ACD7, 0xFEBEA769, 0x7C1CCB86);
  }

  lemma Rfc1Outer1Compress(words: seq<word>)
    requires |words| == 16
    requires words[0] == 0xAE398AD2 && words[1] == 0xE539D65C && words[2] == 0x5DA2DA9C && words[3] == 0x8A613441 &&
      words[4] == 0x97393A8C && words[5] == 0x80000000 && words[6] == 0x00000000 && words[7] == 0x00000000 &&
      words[8] == 0x00000000 && words[9] == 0x00000000 && words[10] == 0x00000000 && words[11] == 0x00000000 &&
      words[12] == 0x00000000 && words[13] == 0x00000000 && words[14] == 0x00000000 && words[15] == 0x000002A0
    ensures Compress(Regs(0x98BDBDCD, 0x58E07BFE, 0xAD5CDDEA, 0x3AC0430B, 0xFE106825), Schedule(words), 80) == Regs(0xDCE6CC4C, 0x7BEB6502, 0xB6F1ACD7, 0xFEBEA769, 0x7C1CCB86)
  {
    var w := Schedule(words);
    ScheduleIsSchedule(words);
    forall j | 0 <= j < 16
      ensures w[j] == words[j]
    {
      assert w[..16][j] == w[j];
    }
    Rfc1Outer1Schedule0(w);
    Rfc1Outer1Schedule1(w);
    Rfc1Outer1Schedule2(w);
    Rfc1Outer1Schedule3(w);
    Rfc1Outer1Rounds0(w);
    Rfc1Outer1Rounds1(w);
    Rfc1Outer1Rounds2(w);
    Rfc1Outer1Rounds3(w);
  }

  lemma Rfc1OuterDigest(d: seq<byte>)
    requires d == [0xAE, 0x39, 0x8A, 0xD2, 0xE5, 0x39, 0xD6, 0x5C, 0x5D, 0xA2, 0xDA, 0x9C, 0x8A, 0x61, 0x34, 0x41, 0x97, 0x39, 0x3A, 0x8C]
    ensures Sha1.Digest(OuterInput(RfcKey, d)) == [0x75, 0xA4, 0x8A, 0x19, 0xD4, 0xCB, 0xE1, 0x00, 0x64, 0x4E, 0x8A, 0xC1, 0x39, 0x7E, 0xEA, 0x74, 0x7A, 0x2D, 0x33, 0xAB]
  {
    var p := Sha1.Pad(OuterInput(RfcKey, d));
    Rfc1OuterLength(d);
    Rfc1OuterBlock0(p, d);
    Rfc1OuterBlock1(p, d);
    var b := Split(p);
    ChainTwo(IV, b);
    Rfc1Outer0Compress(b[0].words);
    Rfc1Outer1Compress(b[1].words);
    assert Sha1.Chain(IV, b) == Regs(0x75A48A19, 0xD4CBE100, 0x644E8AC1, 0x397EEA74, 0x7A2D33AB);
    Rfc1OuterOutput();
  }

  lemma Rfc1OuterOutput()
    ensures Serialize(Regs(0x75A48A19, 0xD4CBE100, 0x644E8AC1, 0x397EEA74, 0x7A2D33AB)) == [0x75, 0xA4, 0x8A, 0x19, 0xD4, 0xCB, 0xE1, 0x00, 0x64, 0x4E, 0x8A, 0xC1, 0x39, 0x7E, 0xEA, 0x74, 0x7A, 0x2D, 0x33, 0xAB]
  {
  }

  lemma HmacRfc1()
    ensures HmacSha1(RfcKey, CounterOne) == [0x75, 0xA4, 0x8A, 0x19, 0xD4, 0xCB, 0xE1, 0x00, 0x64, 0x4E, 0x8A, 0xC1, 0x39, 0x7E, 0xEA, 0x74, 0x7A, 0x2D, 0x33, 0xAB]
  {
    Rfc1InnerDigest();
    Rfc1OuterDigest([0xAE, 0x39, 0x8A, 0xD2, 0xE5, 0x39, 0xD6, 0x5C, 0x5D, 0xA2, 0xDA, 0x9C, 0x8A, 0x61, 0x34, 0x41, 0x97, 0x39, 0x3A, 0x8C]);
  }

  /** The eight counter bytes of steps 0 and 1. */
  lemma Counters()
    ensures BigEndian(0, 8) == CounterZero && BigEndian(1, 8) == CounterOne
  {
    BigEndianOfZero(8);
    SmallCounter(1);
  }

  lemma TruncateRfc0(tag: seq<byte>)
    requires tag == [0xCC, 0x93, 0xCF, 0x18, 0x50, 0x8D, 0x94, 0x93, 0x4C, 0x64, 0xB6, 0x5D, 0x8B, 0xA7, 0x66, 0x7F, 0xB7, 0xCD, 0xE4, 0xB0]
    ensures Offset(tag) == 0 && Truncate(tag) == 1284755224
  {
  }

  lemma TruncateRfc1(tag: seq<byte>)
    requires tag == [0x75, 0xA4, 0x8A, 0x19, 0xD4, 0xCB, 0xE1, 0x00, 0x64, 0x4E, 0x8A, 0xC1, 0x39, 0x7E, 0xEA, 0x74, 0x7A, 0x2D, 0x33, 0xAB]
    ensures Offset(tag) == 11 && Truncate(tag) == 1094287082
  {
  }

  lemma Codes(snum: word)
    requires snum == 1284755224 || snum == 1094287082
    ensures snum == 1284755224 ==> SixDigits(snum) == 755224 && snum & 1_000_000 == 213504
    ensures snum == 1094287082 ==> SixDigits(snum) == 287082 && snum & 1_000_000 == 606784
  {
  }

  /** RFC 4226, appendix D, counter 0: the truncated window is 1284755224 and the
      standard code 755224; the code as written is 213504 instead. */
  lemma HotpCounterZero()
    ensures Truncate(HmacSha1(RfcKey, BigEndian(0, 8))) == 1284755224
    ensures Hotp(RfcKey, BigEndian(0, 8)) == 755224
    ensures HotpAsWritten(RfcKey, BigEndian(0, 8)) == 213504
  {
    Counters();
    HmacRfc0();
    TruncateRfc0(HmacSha1(RfcKey, CounterZero));
    Codes(1284755224);
  }

  /** RFC 6238, appendix B, time 59 (step 1): the truncated window is
      1094287082, and the intended code 287082 is the last six digits of
      94287082; the code as written is 606784 instead. */
  lemma TotpAtFiftyNine()
    ensures Truncate(HmacSha1(RfcKey, StepCounter(59))) == 1094287082
    ensures TotpIntended(RfcKey, 59) == 287082
    ensures Totp(RfcKey, 59) == 606784
  {
    Counters();
    assert 59 / Step == 1;
    HmacRfc1();
    TruncateRfc1(HmacSha1(RfcKey, CounterOne));
    Codes(1094287082);
  }


  lemma LengthField28()
    ensures var f := BigEndian(0x28, 8);
      |f| == 8 && f[0] == 0 && f[1] == 0 && f[2] == 0 && f[3] == 0 && f[4] == 0 && f[5] == 0 && f[6] == 0x00 && f[7] == 0x28
  {
    BigEndianOfZero(6);
    assert 0x28 / 256 == 0 && 0x28 % 256 == 40 && 0 / 256 == 0 && 0 % 256 == 0;
    assert BigEndian(0, 7) == BigEndian(0, 6) + [(0 as nat) as byte];
    assert BigEndian(0x28, 8) == BigEndian(0, 7) + [(40 as nat) as byte];
  }

  lemma LengthField240()
    ensures var f := BigEndian(0x240, 8);
      |f| == 8 && f[0] == 0 && f[1] == 0 && f[2] == 0 && f[3] == 0 && f[4] == 0 && f[5] == 0 && f[6] == 0x02 && f[7] == 0x40
  {
    BigEndianOfZero(6);
    assert 0x240 / 256 == 2 && 0x240 % 256 == 64 && 2 / 256 == 0 && 2 % 256 == 2;
    assert BigEndian(2, 7) == BigEndian(0, 6) + [(2 as nat) as byte];
    assert BigEndian(0x240, 8) == BigEndian(2, 7) + [(64 as nat) as byte];
  }

  lemma LengthField2A0()
    ensures var f := BigEndian(0x2A0, 8);
      |f| == 8 && f[0] == 0 && f[1] == 0 && f[2] == 0 && f[3] == 0 && f[4] == 0 && f[5] == 0 && f[6] == 0x02 && f[7] == 0xA0
  {
    BigEndianOfZero(6);
    assert 0x2A0 / 256 == 2 && 0x2A0 % 256 == 160 && 2 / 256 == 0 && 2 % 256 == 2;
    assert BigEndian(2, 7) == BigEndian(0, 6) + [(2 as nat) as byte];
    assert BigEndian(0x2A0, 8) == BigEndian(2, 7) + [(160 as nat) as byte];
  }

  lemma LengthField2E0()
    ensures var f := BigEndian(0x2E0, 8);
      |f| == 8 && f[0] == 0 && f[1] == 0 && f[2] == 0 && f[3] == 0 && f[4] == 0 && f[5] == 0 && f[6] == 0x02 && f[7] == 0xE0
  {
    BigEndianOfZero(6);
    assert 0x2E0 / 256 == 2 && 0x2E0 % 256 == 224 && 2 / 256 == 0 && 2 % 256 == 2;
    assert BigEndian(2, 7) == BigEndian(0, 6) + [(2 as nat) as byte];
    assert BigEndian(0x2E0, 8) == BigEndian(2, 7) + [(224 as nat) as byte];
  }

}
