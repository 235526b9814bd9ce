/** The third place where src/crypt.rs is not SHA-1: the registers of a
    block are never added back into the state before the next block. Shown
    on a 128-byte ASCII message, the letter "a" 128 times, which the code
    splits unpadded into two equal blocks. As written, the second block's
    rounds start from the registers the first one left; SHA-1 starts them
    from `H` plus those registers, and then appends a padding block. */
module FeedForward {
  import opened Bytes
  import opened Crypt
  import Sha1
  import opened KnownAnswers

  /** The letter "a" (0x61) 128 times: valid UTF-8, a whole number of blocks. */
  const Letters: seq<byte> := seq(128, _ => 0x61)

  /** Every word of both blocks of `Letters` is "aaaa", 0x61616161. */
  lemma LettersSplit()
    ensures |Letters| == 128 && |Split(Letters)| == 2
    ensures forall k, j | 0 <= k < 2 && 0 <= j < 16 :: Split(Letters)[k].words[j] == 0x61616161
  {
    forall k, j | 0 <= k < 2 && 0 <= j < 16
      ensures Split(Letters)[k].words[j] == 0x61616161
    {
      SplitWords(Letters, k, j);
    }
  }

  /** The code splits the 128 bytes unpadded into two equal blocks of "aaaa" words. */
  lemma LettersBlocks()
    ensures Splittable(|Letters|) && Blocks(Letters) == Split(Letters)
    ensures |Blocks(Letters)| == 2 && Blocks(Letters)[0] == Blocks(Letters)[1]
    ensures forall k, j | 0 <= k < 2 && 0 <= j < 16 :: Blocks(Letters)[k].words[j] == 0x61616161
  {
    LettersSplit();
    var b := Split(Letters);
    assert b[0].words == b[1].words;
  }

  /** As written, the second block's rounds start from the registers the first one left. */
  lemma LettersRun(b: seq<Block>)
    requires b == Blocks(Letters)
    ensures Run(IV, b) == Regs(0x9761FBA2, 0xE7743D66, 0x9D7972F8, 0xEBE107BB, 0xDBC9CD7E)
  {
    LettersBlocks();
    var first := b[..1];
    assert first == [b[0]] && first[..0] == [];
    assert Run(IV, first) == Compress(IV, Schedule(b[0].words), 80);
    Letters0Compress(b[0].words);
    assert Run(IV, b) == Compress(Run(IV, first), Schedule(b[1].words), 80);
    LettersAsWritten1Compress(b[1].words);
  }

  /** SHA-1 starts the second block from `H` plus the first block's registers. */
  lemma LettersChain(b: seq<Block>)
    requires b == Blocks(Letters)
    ensures Sha1.Chain(IV, b) == Regs(0x0BA02949, 0xDE712838, 0x689E76E5, 0x885BF881, 0x17BA3444)
  {
    LettersBlocks();
    ChainTwo(IV, b);
    Letters0Compress(b[0].words);
    Letters1Compress(b[1].words);
  }

  /** As written: two equal blocks, the second run from the first one's
      registers, then `H` added once, giving the bytes of the hexadecimal
      text FEA71EA3D741E8EF36344FF6FC135C319F9CAF6E; SHA-1 chains the same two blocks to other registers. */
  lemma LettersAsWritten()
    ensures Splittable(|Letters|) && |Blocks(Letters)| == 2
    ensures Blocks(Letters)[0] == Blocks(Letters)[1]
    ensures Add(IV, Run(IV, Blocks(Letters))) == Regs(0xFEA71EA3, 0xD741E8EF, 0x36344FF6, 0xFC135C31, 0x9F9CAF6E)
    ensures Sha1.Chain(IV, Blocks(Letters)) == Regs(0x0BA02949, 0xDE712838, 0x689E76E5, 0x885BF881, 0x17BA3444)
    ensures DigestOf(Letters) == [0xFE, 0xA7, 0x1E, 0xA3, 0xD7, 0x41, 0xE8, 0xEF, 0x36, 0x34, 0x4F, 0xF6, 0xFC, 0x13, 0x5C, 0x31, 0x9F, 0x9C, 0xAF, 0x6E]
  {
    LettersBlocks();
    LettersRun(Blocks(Letters));
    LettersChain(Blocks(Letters));
    LettersAsWrittenOutput();
  }

  lemma LettersAsWrittenOutput()
    ensures Add(IV, Regs(0x9761FBA2, 0xE7743D66, 0x9D7972F8, 0xEBE107BB, 0xDBC9CD7E)) == Regs(0xFEA71EA3, 0xD741E8EF, 0x36344FF6, 0xFC135C31, 0x9F9CAF6E)
    ensures Serialize(Regs(0xFEA71EA3, 0xD741E8EF, 0x36344FF6, 0xFC135C31, 0x9F9CAF6E)) == [0xFE, 0xA7, 0x1E, 0xA3, 0xD7, 0x41, 0xE8, 0xEF, 0x36, 0x34, 0x4F, 0xF6, 0xFC, 0x13, 0x5C, 0x31, 0x9F, 0x9C, 0xAF, 0x6E]
  {
  }

  /** SHA-1 of the same 128 bytes: the two chained blocks, then the padding
      block 0x80, zeros and the bit length 1024; the bytes of the
      hexadecimal text AD5B3FDBCB526778C2839D2F151EA753995E26A0. */
  lemma LettersSha1()
    ensures Sha1.Digest(Letters) == [0xAD, 0x5B, 0x3F, 0xDB, 0xCB, 0x52, 0x67, 0x78, 0xC2, 0x83, 0x9D, 0x2F, 0x15, 0x1E, 0xA7, 0x53, 0x99, 0x5E, 0x26, 0xA0]
  {
    LettersAsWritten();
    var q := Sha1.Pad(Letters);
    LettersPadBlock(q);
    LettersPadSplit(q);
    var b := Split(q);
    LettersPadCompress(b[2].words);
    assert Sha1.Chain(IV, b) == Regs(0xAD5B3FDB, 0xCB526778, 0xC2839D2F, 0x151EA753, 0x995E26A0);
    LettersSha1Output();
  }

  /** The corrected padding keeps the two blocks the code splits, and adds a third. */
  lemma LettersPadSplit(q: seq<byte>)
    requires q == Sha1.Pad(Letters)
    ensures |q| == 192 && |Split(q)| == 3
    ensures Split(q)[..2] == Blocks(Letters)
  {
    LettersBlocks();
    var m := Letters;
    Sha1.PadShape(m);
    assert q[..128] == m && q[..|q| - 64] == m;
    assert Split(q) == Split(m) + [BlockOf(q[128..])];
  }

  lemma LettersSha1Output()
    ensures Serialize(Regs(0xAD5B3FDB, 0xCB526778, 0xC2839D2F, 0x151EA753, 0x995E26A0)) == [0xAD, 0x5B, 0x3F, 0xDB, 0xCB, 0x52, 0x67, 0x78, 0xC2, 0x83, 0x9D, 0x2F, 0x15, 0x1E, 0xA7, 0x53, 0x99, 0x5E, 0x26, 0xA0]
  {
  }

  /** The bit length of 128 bytes, 1024, as eight big-endian bytes. */
  lemma LengthField400()
    ensures var f := BigEndian(0x400, 8);
      |f| == 8 && f[0] == 0 && f[1] == 0 && f[2] == 0 && f[3] == 0 && f[4] == 0 && f[5] == 0 && f[6] == 0x04 && f[7] == 0x00
  {
    BigEndianOfZero(6);
    assert 0x400 / 256 == 4 && 0x400 % 256 == 0 && 4 / 256 == 0 && 4 % 256 == 4;
    assert BigEndian(4, 7) == BigEndian(0, 6) + [(4 as nat) as byte];
    assert BigEndian(0x400, 8) == BigEndian(4, 7) + [(0 as nat) as byte];
  }

  lemma LettersPadBytes0(q: seq<byte>)
    requires q == Sha1.Pad(Letters)
    ensures |q| == 192
    ensures q[128] == 0x80 && q[129] == 0x00 && q[130] == 0x00 && q[131] == 0x00 &&
      q[132] == 0x00 && q[133] == 0x00 && q[134] == 0x00 && q[135] == 0x00 &&
      q[136] == 0x00 && q[137] == 0x00 && q[138] == 0x00 && q[139] == 0x00 &&
      q[140] == 0x00 && q[141] == 0x00 && q[142] == 0x00 && q[143] == 0x00
  {
    Sha1.PadShape(Letters);
  }

  lemma LettersPadWords0(q: seq<byte>)
    requires |q| == 192
    requires q[128] == 0x80 && q[129] == 0x00 && q[130] == 0x00 && q[131] == 0x00 &&
      q[132] == 0x00 && q[133] == 0x00 && q[134] == 0x00 && q[135] == 0x00 &&
      q[136] == 0x00 && q[137] == 0x00 && q[138] == 0x00 && q[139] == 0x00 &&
      q[140] == 0x00 && q[141] == 0x00 && q[142] == 0x00 && q[143] == 0x00
    ensures var b := Split(q)[2].words;
      b[0] == 0x80000000 && b[1] == 0x00000000 && b[2] == 0x00000000 && b[3] == 0x00000000
  {
    SplitWords(q, 2, 0);
    SplitWords(q, 2, 1);
    SplitWords(q, 2, 2);
    SplitWords(q, 2, 3);
  }

  lemma LettersPadBytes1(q: seq<byte>)
    requires q == Sha1.Pad(Letters)
    ensures |q| == 192
    ensures q[144] == 0x00 && q[145] == 0x00 && q[146] == 0x00 && q[147] == 0x00 &&
      q[148] == 0x00 && q[149] == 0x00 && q[150] == 0x00 && q[151] == 0x00 &&
      q[152] == 0x00 && q[153] == 0x00 && q[154] == 0x00 && q[155] == 0x00 &&
      q[156] == 0x00 && q[157] == 0x00 && q[158] == 0x00 && q[159] == 0x00
  {
    Sha1.PadShape(Letters);
  }

  lemma LettersPadWords1(q: seq<byte>)
    requires |q| == 192
    requires q[144] == 0x00 && q[145] == 0x00 && q[146] == 0x00 && q[147] == 0x00 &&
      q[148] == 0x00 && q[149] == 0x00 && q[150] == 0x00 && q[151] == 0x00 &&
      q[152] == 0x00 && q[153] == 0x00 && q[154] == 0x00 && q[155] == 0x00 &&
      q[156] == 0x00 && q[157] == 0x00 && q[158] == 0x00 && q[159] == 0x00
    ensures var b := Split(q)[2].words;
      b[4] == 0x00000000 && b[5] == 0x00000000 && b[6] == 0x00000000 && b[7] == 0x00000000
  {
    SplitWords(q, 2, 4);
    SplitWords(q, 2, 5);
    SplitWords(q, 2, 6);
    SplitWords(q, 2, 7);
  }

  lemma LettersPadBytes2(q: seq<byte>)
    requires q == Sha1.Pad(Letters)
    ensures |q| == 192
    ensures q[160] == 0x00 && q[161] == 0x00 && q[162] == 0x00 && q[163] == 0x00 &&
      q[164] == 0x00 && q[165] == 0x00 && q[166] == 0x00 && q[167] == 0x00 &&
      q[168] == 0x00 && q[169] == 0x00 && q[170] == 0x00 && q[171] == 0x00 &&
      q[172] == 0x00 && q[173] == 0x00 && q[174] == 0x00 && q[175] == 0x00
  {
    Sha1.PadShape(Letters);
  }

  lemma LettersPadWords2(q: seq<byte>)
    requires |q| == 192
    requires q[160] == 0x00 && q[161] == 0x00 && q[162] == 0x00 && q[163] == 0x00 &&
      q[164] == 0x00 && q[165] == 0x00 && q[166] == 0x00 && q[167] == 0x00 &&
      q[168] == 0x00 && q[169] == 0x00 && q[170] == 0x00 && q[171] == 0x00 &&
      q[172] == 0x00 && q[173] == 0x00 && q[174] == 0x00 && q[175] == 0x00
    ensures var b := Split(q)[2].words;
      b[8] == 0x00000000 && b[9] == 0x00000000 && b[10] == 0x00000000 && b[11] == 0x00000000
  {
    SplitWords(q, 2, 8);
    SplitWords(q, 2, 9);
    SplitWords(q, 2, 10);
    SplitWords(q, 2, 11);
  }

  lemma LettersPadBytes3(q: seq<byte>)
    requires q == Sha1.Pad(Letters)
    ensures |q| == 192
    ensures q[176] == 0x00 && q[177] == 0x00 && q[178] == 0x00 && q[179] == 0x00 &&
      q[180] == 0x00 && q[181] == 0x00 && q[182] == 0x00 && q[183] == 0x00 &&
      q[184] == 0x00 && q[185] == 0x00 && q[186] == 0x00 && q[187] == 0x00 &&
      q[188] == 0x00 && q[189] == 0x00 && q[190] == 0x04 && q[191] == 0x00
  {
    Sha1.PadShape(Letters);
    LengthField400();
    assert q[184] == q[184..][0];
    assert q[185] == q[184..][1];
    assert q[186] == q[184..][2];
    assert q[187] == q[184..][3];
    assert q[188] == q[184..][4];
    assert q[189] == q[184..][5];
    assert q[190] == q[184..][6];
    assert q[191] == q[184..][7];
  }

  lemma LettersPadWords3(q: seq<byte>)
    requires |q| == 192
    requires q[176] == 0x00 && q[177] == 0x00 && q[178] == 0x00 && q[179] == 0x00 &&
      q[180] == 0x00 && q[181] == 0x00 && q[182] == 0x00 && q[183] == 0x00 &&
      q[184] == 0x00 && q[185] == 0x00 && q[186] == 0x00 && q[187] == 0x00 &&
      q[188] == 0x00 && q[189] == 0x00 && q[190] == 0x04 && q[191] == 0x00
    ensures var b := Split(q)[2].words;
      b[12] == 0x00000000 && b[13] == 0x00000000 && b[14] == 0x00000000 && b[15] == 0x00000400
  {
    SplitWords(q, 2, 12);
    SplitWords(q, 2, 13);
    SplitWords(q, 2, 14);
    SplitWords(q, 2, 15);
  }

  lemma LettersPadBlock(q: seq<byte>)
    requires q == Sha1.Pad(Letters)
    ensures |q| == 192
    ensures var b := Split(q)[2].words;
      b[0] == 0x80000000 && b[1] == 0x00000000 && b[2] == 0x00000000 && b[3] == 0x00000000 &&
      b[4] == 0x00000000 && b[5] == 0x00000000 && b[6] == 0x00000000 && b[7] == 0x00000000 &&
      b[8] == 0x00000000 && b[9] == 0x00000000 && b[10] == 0x00000000 && b[11] == 0x00000000 &&
      b[12] == 0x00000000 && b[13] == 0x00000000 && b[14] == 0x00000000 && b[15] == 0x00000400
  {
    LettersPadBytes0(q);
    LettersPadWords0(q);
    LettersPadBytes1(q);
    LettersPadWords1(q);
    LettersPadBytes2(q);
    LettersPadWords2(q);
    LettersPadBytes3(q);
    LettersPadWords3(q);
  }

  lemma LettersSchedule0(w: seq<word>)
    requires |w| == 80 && forall i :: 16 <= i < 80 ==> Follows(w, i)
    requires w[0] == 0x61616161 && w[1] == 0x61616161 && w[2] == 0x61616161 && w[3] == 0x61616161 &&
      w[4] == 0x61616161 && w[5] == 0x61616161 && w[6] == 0x61616161 && w[7] == 0x61616161 &&
      w[8] == 0x61616161 && w[9] == 0x61616161 && w[10] == 0x61616161 && w[11] == 0x61616161 &&
      w[12] == 0x61616161 && w[13] == 0x61616161 && w[14] == 0x61616161 && w[15] == 0x61616161
    ensures w[16] == 0x00000000 && w[17] == 0x00000000 && w[18] == 0x00000000 && w[19] == 0xC2C2C2C2 &&
      w[20] == 0xC2C2C2C2 && w[21] == 0xC2C2C2C2 && w[22] == 0x47474747 && w[23] == 0x47474747 &&
      w[24] == 0x85858585 && w[25] == 0x8E8E8E8E && w[26] == 0x8E8E8E8E && w[27] == 0x8E8E8E8E &&
      w[28] == 0x98989898 && w[29] == 0x98989898 && w[30] == 0x51515151 && w[31] == 0x7D7D7D7D
  {
    assert Follows(w, 16);
    assert Follows(w, 17);
    assert Follows(w, 18);
    assert Follows(w, 19);
    assert Follows(w, 20);
    assert Follows(w, 21);
    assert Follows(w, 22);
    assert Follows(w, 23);
    assert Follows(w, 24);
    assert Follows(w, 25);
    assert Follows(w, 26);
    assert Follows(w, 27);
    assert Follows(w, 28);
    assert Follows(w, 29);
    assert Follows(w, 30);
    assert Follows(w, 31);
  }

  lemma LettersSchedule1(w: seq<word>)
    requires |w| == 80 && forall i :: 16 <= i < 80 ==> Follows(w, i)
    requires w[16] == 0x00000000 && w[17] == 0x00000000 && w[18] == 0x00000000 && w[19] == 0xC2C2C2C2 &&
      w[20] == 0xC2C2C2C2 && w[21] == 0xC2C2C2C2 && w[22] == 0x47474747 && w[23] == 0x47474747 &&
      w[24] == 0x85858585 && w[25] == 0x8E8E8E8E && w[26] == 0x8E8E8E8E && w[27] == 0x8E8E8E8E &&
      w[28] == 0x98989898 && w[29] == 0x98989898 && w[30] == 0x51515151 && w[31] == 0x7D7D7D7D
    ensures w[32] == 0x3A3A3A3A && w[33] == 0x3A3A3A3A && w[34] == 0x62626262 && w[35] == 0x69696969 &&
      w[36] == 0x4E4E4E4E && w[37] == 0xFEFEFEFE && w[38] == 0xF5F5F5F5 && w[39] == 0xF5F5F5F5 &&
      w[40] == 0x9F9F9F9F && w[41] == 0x9F9F9F9F && w[42] == 0x03030303 && w[43] == 0xC1C1C1C1 &&
      w[44] == 0x30303030 && w[45] == 0x30303030 && w[46] == 0xBEBEBEBE && w[47] == 0x05050505
  {
    assert Follows(w, 32);
    assert Follows(w, 33);
    assert Follows(w, 34);
    assert Follows(w, 35);
    assert Follows(w, 36);
    assert Follows(w, 37);
    assert Follows(w, 38);
    assert Follows(w, 39);
    assert Follows(w, 40);
    assert Follows(w, 41);
    assert Follows(w, 42);
    assert Follows(w, 43);
    assert Follows(w, 44);
    assert Follows(w, 45);
    assert Follows(w, 46);
    assert Follows(w, 47);
  }

  lemma LettersSchedule2(w: seq<word>)
    requires |w| == 80 && forall i :: 16 <= i < 80 ==> Follows(w, i)
    requires w[32] == 0x3A3A3A3A && w[33] == 0x3A3A3A3A && w[34] == 0x62626262 && w[35] == 0x69696969 &&
      w[36] == 0x4E4E4E4E && w[37] == 0xFEFEFEFE && w[38] == 0xF5F5F5F5 && w[39] == 0xF5F5F5F5 &&
      w[40] == 0x9F9F9F9F && w[41] == 0x9F9F9F9F && w[42] == 0x03030303 && w[43] == 0xC1C1C1C1 &&
      w[44] == 0x30303030 && w[45] == 0x30303030 && w[46] == 0xBEBEBEBE && w[47] == 0x05050505
    ensures w[48] == 0xEFEFEFEF && w[49] == 0xE4E4E4E4 && w[50] == 0x54545454 && w[51] == 0x73737373 &&
      w[52] == 0xDEDEDEDE && w[53] == 0xDEDEDEDE && w[54] == 0x4F4F4F4F && w[55] == 0x63636363 &&
      w[56] == 0x5B5B5B5B && w[57] == 0xEBEBEBEB && w[58] == 0x08080808 && w[59] == 0xB3B3B3B3 &&
      w[60] == 0x77777777 && w[61] == 0xC7C7C7C7 && w[62] == 0x5B5B5B5B && w[63] == 0xEBEBEBEB
  {
    assert Follows(w, 48);
    assert Follows(w, 49);
    assert Follows(w, 50);
    assert Follows(w, 51);
    assert Follows(w, 52);
    assert Follows(w, 53);
    assert Follows(w, 54);
    assert Follows(w, 55);
    assert Follows(w, 56);
    assert Follows(w, 57);
    assert Follows(w, 58);
    assert Follows(w, 59);
    assert Follows(w, 60);
    assert Follows(w, 61);
    assert Follows(w, 62);
    assert Follows(w, 63);
  }

  lemma LettersSchedule3(w: seq<word>)
    requires |w| == 80 && forall i :: 16 <= i < 80 ==> Follows(w, i)
    requires w[48] == 0xEFEFEFEF && w[49] == 0xE4E4E4E4 && w[50] == 0x54545454 && w[51] == 0x73737373 &&
      w[52] == 0xDEDEDEDE && w[53] == 0xDEDEDEDE && w[54] == 0x4F4F4F4F && w[55] == 0x63636363 &&
      w[56] == 0x5B5B5B5B && w[57] == 0xEBEBEBEB && w[58] == 0x08080808 && w[59] == 0xB3B3B3B3 &&
      w[60] == 0x77777777 && w[61] == 0xC7C7C7C7 && w[62] == 0x5B5B5B5B && w[63] == 0xEBEBEBEB
    ensures w[64] == 0x4E4E4E4E && w[65] == 0x4E4E4E4E && w[66] == 0xD2D2D2D2 && w[67] == 0xA0A0A0A0 &&
      w[68] == 0x51515151 && w[69] == 0x51515151 && w[70] == 0xDFDFDFDF && w[71] == 0x64646464 &&
      w[72] == 0x98989898 && w[73] == 0x93939393 && w[74] == 0x93939393 && w[75] == 0x98989898 &&
      w[76] == 0xDDDDDDDD && w[77] == 0xDDDDDDDD && w[78] == 0xA4A4A4A4 && w[79] == 0x38383838
  {
    assert Follows(w, 64);
    assert Follows(w, 65);
    assert Follows(w, 66);
    assert Follows(w, 67);
    assert Follows(w, 68);
    assert Follows(w, 69);
    assert Follows(w, 70);
    assert Follows(w, 71);
    assert Follows(w, 72);
    assert Follows(w, 73);
    assert Follows(w, 74);
    assert Follows(w, 75);
    assert Follows(w, 76);
    assert Follows(w, 77);
    assert Follows(w, 78);
    assert Follows(w, 79);
  }

  lemma Letters0Rounds0(w: seq<word>)
    requires |w| == 80
    requires w[0] == 0x61616161 && w[1] == 0x61616161 && w[2] == 0x61616161 && w[3] == 0x61616161 &&
      w[4] == 0x61616161 && w[5] == 0x61616161 && w[6] == 0x61616161 && w[7] == 0x61616161 &&
      w[8] == 0x61616161 && w[9] == 0x61616161 && w[10] == 0x61616161 && w[11] == 0x61616161 &&
      w[12] == 0x61616161 && w[13] == 0x61616161 && w[14] == 0x61616161 && w[15] == 0x61616161 &&
      w[16] == 0x00000000 && w[17] == 0x00000000 && w[18] == 0x00000000 && w[19] == 0xC2C2C2C2
    requires Compress(IV, w, 0) == Regs(0x67452301, 0xEFCDAB89, 0x98BADCFE, 0x10325476, 0xC3D2E1F0)
    ensures Compress(IV, w, 20) == Regs(0xDA743830, 0xA1B752D7, 0x7F2A07B3, 0x6C21D005, 0xE4C93B76)
  {
    assert Round(Regs(0x67452301, 0xEFCDAB89, 0x98BADCFE, 0x10325476, 0xC3D2E1F0), 0x61616161, 0) == Regs(0x0115FA14, 0x67452301, 0x7BF36AE2, 0x98BADCFE, 0x10325476);
    assert Compress(IV, w, 1) == Regs(0x0115FA14, 0x67452301, 0x7BF36AE2, 0x98BADCFE, 0x10325476);
    assert Round(Regs(0x0115FA14, 0x67452301, 0x7BF36AE2, 0x98BADCFE, 0x10325476), 0x61616161, 1) == Regs(0xEAD170EE, 0x0115FA14, 0x59D148C0, 0x7BF36AE2, 0x98BADCFE);
    assert Compress(IV, w, 2) == Regs(0xEAD170EE, 0x0115FA14, 0x59D148C0, 0x7BF36AE2, 0x98BADCFE);
    assert Round(Regs(0xEAD170EE, 0x0115FA14, 0x59D148C0, 0x7BF36AE2, 0x98BADCFE), 0x61616161, 2) == Regs(0x2AC01EB7, 0xEAD170EE, 0x00457E85, 0x59D148C0, 0x7BF36AE2);
    assert Compress(IV, w, 3) == Regs(0x2AC01EB7, 0xEAD170EE, 0x00457E85, 0x59D148C0, 0x7BF36AE2);
    assert Round(Regs(0x2AC01EB7, 0xEAD170EE, 0x00457E85, 0x59D148C0, 0x7BF36AE2), 0x61616161, 3) == Regs(0xA11C9545, 0x2AC01EB7, 0xBAB45C3B, 0x00457E85, 0x59D148C0);
    assert Compress(IV, w, 4) == Regs(0xA11C9545, 0x2AC01EB7, 0xBAB45C3B, 0x00457E85, 0x59D148C0);
    assert Round(Regs(0xA11C9545, 0x2AC01EB7, 0xBAB45C3B, 0x00457E85, 0x59D148C0), 0x61616161, 4) == Regs(0x63CD48A1, 0xA11C9545, 0xCAB007AD, 0xBAB45C3B, 0x00457E85);
    assert Compress(IV, w, 5) == Regs(0x63CD48A1, 0xA11C9545, 0xCAB007AD, 0xBAB45C3B, 0x00457E85);
    assert Round(Regs(0x63CD48A1, 0xA11C9545, 0xCAB007AD, 0xBAB45C3B, 0x00457E85), 0x61616161, 5) == Regs(0xD082BAEA, 0x63CD48A1, 0x68472551, 0xCAB007AD, 0xBAB45C3B);
    assert Compress(IV, w, 6) == Regs(0xD082BAEA, 0x63CD48A1, 0x68472551, 0xCAB007AD, 0xBAB45C3B);
    assert Round(Regs(0xD082BAEA, 0x63CD48A1, 0x68472551, 0xCAB007AD, 0xBAB45C3B), 0x61616161, 6) == Regs(0x6F649B9C, 0xD082BAEA, 0x58F35228, 0x68472551, 0xCAB007AD);
    assert Compress(IV, w, 7) == Regs(0x6F649B9C, 0xD082BAEA, 0x58F35228, 0x68472551, 0xCAB007AD);
    assert Round(Regs(0x6F649B9C, 0xD082BAEA, 0x58F35228, 0x68472551, 0xCAB007AD), 0x61616161, 7) == Regs(0xEBEE6D6D, 0x6F649B9C, 0xB420AEBA, 0x58F35228, 0x68472551);
    assert Compress(IV, w, 8) == Regs(0xEBEE6D6D, 0x6F649B9C, 0xB420AEBA, 0x58F35228, 0x68472551);
    assert Round(Regs(0xEBEE6D6D, 0x6F649B9C, 0xB420AEBA, 0x58F35228, 0x68472551), 0x61616161, 8) == Regs(0xD6AC78C0, 0xEBEE6D6D, 0x1BD926E7, 0xB420AEBA, 0x58F35228);
    assert Compress(IV, w, 9) == Regs(0xD6AC78C0, 0xEBEE6D6D, 0x1BD926E7, 0xB420AEBA, 0x58F35228);
    assert Round(Regs(0xD6AC78C0, 0xEBEE6D6D, 0x1BD926E7, 0xB420AEBA, 0x58F35228), 0x61616161, 9) == Regs(0x0A2EEC33, 0xD6AC78C0, 0x7AFB9B5B, 0x1BD926E7, 0xB420AEBA);
    assert Compress(IV, w, 10) == Regs(0x0A2EEC33, 0xD6AC78C0, 0x7AFB9B5B, 0x1BD926E7, 0xB420AEBA);
    assert Round(Regs(0x0A2EEC33, 0xD6AC78C0, 0x7AFB9B5B, 0x1BD926E7, 0xB420AEBA), 0x61616161, 10) == Regs(0x11DB2E7C, 0x0A2EEC33, 0x35AB1E30, 0x7AFB9B5B, 0x1BD926E7);
    assert Compress(IV, w, 11) == Regs(0x11DB2E7C, 0x0A2EEC33, 0x35AB1E30, 0x7AFB9B5B, 0x1BD926E7);
    assert Round(Regs(0x11DB2E7C, 0x0A2EEC33, 0x35AB1E30, 0x7AFB9B5B, 0x1BD926E7), 0x61616161, 11) == Regs(0x841DF0DB, 0x11DB2E7C, 0xC28BBB0C, 0x35AB1E30, 0x7AFB9B5B);
    assert Compress(IV, w, 12) == Regs(0x841DF0DB, 0x11DB2E7C, 0xC28BBB0C, 0x35AB1E30, 0x7AFB9B5B);
    assert Round(Regs(0x841DF0DB, 0x11DB2E7C, 0xC28BBB0C, 0x35AB1E30, 0x7AFB9B5B), 0x61616161, 12) == Regs(0xDF48CBD1, 0x841DF0DB, 0x0476CB9F, 0xC28BBB0C, 0x35AB1E30);
    assert Compress(IV, w, 13) == Regs(0xDF48CBD1, 0x841DF0DB, 0x0476CB9F, 0xC28BBB0C, 0x35AB1E30);
    assert Round(Regs(0xDF48CBD1, 0x841DF0DB, 0x0476CB9F, 0xC28BBB0C, 0x35AB1E30), 0x61616161, 13) == Regs(0x213F3F04, 0xDF48CBD1, 0xE1077C36, 0x0476CB9F, 0xC28BBB0C);
    assert Compress(IV, w, 14) == Regs(0x213F3F04, 0xDF48CBD1, 0xE1077C36, 0x0476CB9F, 0xC28BBB0C);
    assert Round(Regs(0x213F3F04, 0xDF48CBD1, 0xE1077C36, 0x0476CB9F, 0xC28BBB0C), 0x61616161, 14) == Regs(0x678DBEA8, 0x213F3F04, 0x77D232F4, 0xE1077C36, 0x0476CB9F);
    assert Compress(IV, w, 15) == Regs(0x678DBEA8, 0x213F3F04, 0x77D232F4, 0xE1077C36, 0x0476CB9F);
    assert Round(Regs(0x678DBEA8, 0x213F3F04, 0x77D232F4, 0xE1077C36, 0x0476CB9F), 0x61616161, 15) == Regs(0x9324EDDB, 0x678DBEA8, 0x084FCFC1, 0x77D232F4, 0xE1077C36);
    assert Compress(IV, w, 16) == Regs(0x9324EDDB, 0x678DBEA8, 0x084FCFC1, 0x77D232F4, 0xE1077C36);
    assert Round(Regs(0x9324EDDB, 0x678DBEA8, 0x084FCFC1, 0x77D232F4, 0xE1077C36), 0x00000000, 16) == Regs(0xB0874015, 0x9324EDDB, 0x19E36FAA, 0x084FCFC1, 0x77D232F4);
    assert Compress(IV, w, 17) == Regs(0xB0874015, 0x9324EDDB, 0x19E36FAA, 0x084FCFC1, 0x77D232F4);
    assert Round(Regs(0xB0874015, 0x9324EDDB, 0x19E36FAA, 0x084FCFC1, 0x77D232F4), 0x00000000, 17) == Regs(0xFCA81ECD, 0xB0874015, 0xE4C93B76, 0x19E36FAA, 0x084FCFC1);
    assert Compress(IV, w, 18) == Regs(0xFCA81ECD, 0xB0874015, 0xE4C93B76, 0x19E36FAA, 0x084FCFC1);
    assert Round(Regs(0xFCA81ECD, 0xB0874015, 0xE4C93B76, 0x19E36FAA, 0x084FCFC1), 0x00000000, 18) == Regs(0xA1B752D7, 0xFCA81ECD, 0x6C21D005, 0xE4C93B76, 0x19E36FAA);
    assert Compress(IV, w, 19) == Regs(0xA1B752D7, 0xFCA81ECD, 0x6C21D005, 0xE4C93B76, 0x19E36FAA);
    assert Round(Regs(0xA1B752D7, 0xFCA81ECD, 0x6C21D005, 0xE4C93B76, 0x19E36FAA), 0xC2C2C2C2, 19) == Regs(0xDA743830, 0xA1B752D7, 0x7F2A07B3, 0x6C21D005, 0xE4C93B76);
    assert Compress(IV, w, 20) == Regs(0xDA743830, 0xA1B752D7, 0x7F2A07B3, 0x6C21D005, 0xE4C93B76);
  }

  lemma Letters0Rounds1(w: seq<word>)
    requires |w| == 80
    requires w[20] == 0xC2C2C2C2 && w[21] == 0xC2C2C2C2 && w[22] == 0x47474747 && w[23] == 0x47474747 &&
      w[24] == 0x85858585 && w[25] == 0x8E8E8E8E && w[26] == 0x8E8E8E8E && w[27] == 0x8E8E8E8E &&
      w[28] == 0x98989898 && w[29] == 0x98989898 && w[30] == 0x51515151 && w[31] == 0x7D7D7D7D &&
      w[32] == 0x3A3A3A3A && w[33] == 0x3A3A3A3A && w[34] == 0x62626262 && w[35] == 0x69696969 &&
      w[36] == 0x4E4E4E4E && w[37] == 0xFEFEFEFE && w[38] == 0xF5F5F5F5 && w[39] == 0xF5F5F5F5
    requires Compress(IV, w, 20) == Regs(0xDA743830, 0xA1B752D7, 0x7F2A07B3, 0x6C21D005, 0xE4C93B76)
    ensures Compress(IV, w, 40) == Regs(0x9AEA40F6, 0xA29B92B5, 0x205FFD73, 0x9C2F0396, 0x716E237D)
  {
    assert Round(Regs(0xDA743830, 0xA1B752D7, 0x7F2A07B3, 0x6C21D005, 0xE4C93B76), 0xC2C2C2C2, 20) == Regs(0x17A97555, 0xDA743830, 0xE86DD4B5, 0x7F2A07B3, 0x6C21D005);
    assert Compress(IV, w, 21) == Regs(0x17A97555, 0xDA743830, 0xE86DD4B5, 0x7F2A07B3, 0x6C21D005);
    assert Round(Regs(0x17A97555, 0xDA743830, 0xE86DD4B5, 0x7F2A07B3, 0x6C21D005), 0xC2C2C2C2, 21) == Regs(0xE0211440, 0x17A97555, 0x369D0E0C, 0xE86DD4B5, 0x7F2A07B3);
    assert Compress(IV, w, 22) == Regs(0xE0211440, 0x17A97555, 0x369D0E0C, 0xE86DD4B5, 0x7F2A07B3);
    assert Round(Regs(0xE0211440, 0x17A97555, 0x369D0E0C, 0xE86DD4B5, 0x7F2A07B3), 0x47474747, 22) == Regs(0x02C772A3, 0xE0211440, 0x45EA5D55, 0x369D0E0C, 0xE86DD4B5);
    assert Compress(IV, w, 23) == Regs(0x02C772A3, 0xE0211440, 0x45EA5D55, 0x369D0E0C, 0xE86DD4B5);
    assert Round(Regs(0x02C772A3, 0xE0211440, 0x45EA5D55, 0x369D0E0C, 0xE86DD4B5), 0x47474747, 23) == Regs(0x8AD3A316, 0x02C772A3, 0x38084510, 0x45EA5D55, 0x369D0E0C);
    assert Compress(IV, w, 24) == Regs(0x8AD3A316, 0x02C772A3, 0x38084510, 0x45EA5D55, 0x369D0E0C);
    assert Round(Regs(0x8AD3A316, 0x02C772A3, 0x38084510, 0x45EA5D55, 0x369D0E0C), 0x85858585, 24) == Regs(0x04964CE9, 0x8AD3A316, 0xC0B1DCA8, 0x38084510, 0x45EA5D55);
    assert Compress(IV, w, 25) == Regs(0x04964CE9, 0x8AD3A316, 0xC0B1DCA8, 0x38084510, 0x45EA5D55);
    assert Round(Regs(0x04964CE9, 0x8AD3A316, 0xC0B1DCA8, 0x38084510, 0x45EA5D55), 0x8E8E8E8E, 25) == Regs(0x4886AF52, 0x04964CE9, 0xA2B4E8C5, 0xC0B1DCA8, 0x38084510);
    assert Compress(IV, w, 26) == Regs(0x4886AF52, 0x04964CE9, 0xA2B4E8C5, 0xC0B1DCA8, 0x38084510);
    assert Round(Regs(0x4886AF52, 0x04964CE9, 0xA2B4E8C5, 0xC0B1DCA8, 0x38084510), 0x8E8E8E8E, 26) == Regs(0xACDA220C, 0x4886AF52, 0x4125933A, 0xA2B4E8C5, 0xC0B1DCA8);
    assert Compress(IV, w, 27) == Regs(0xACDA220C, 0x4886AF52, 0x4125933A, 0xA2B4E8C5, 0xC0B1DCA8);
    assert Round(Regs(0xACDA220C, 0x4886AF52, 0x4125933A, 0xA2B4E8C5, 0xC0B1DCA8), 0x8E8E8E8E, 27) == Regs(0x04766D19, 0xACDA220C, 0x9221ABD4, 0x4125933A, 0xA2B4E8C5);
    assert Compress(IV, w, 28) == Regs(0x04766D19, 0xACDA220C, 0x9221ABD4, 0x4125933A, 0xA2B4E8C5);
    assert Round(Regs(0x04766D19, 0xACDA220C, 0x9221ABD4, 0x4125933A, 0xA2B4E8C5), 0x98989898, 28) == Regs(0xB8D32B00, 0x04766D19, 0x2B368883, 0x9221ABD4, 0x4125933A);
    assert Compress(IV, w, 29) == Regs(0xB8D32B00, 0x04766D19, 0x2B368883, 0x9221ABD4, 0x4125933A);
    assert Round(Regs(0xB8D32B00, 0x04766D19, 0x2B368883, 0x9221ABD4, 0x4125933A), 0x98989898, 29) == Regs(0x205EC5D8, 0xB8D32B00, 0x411D9B46, 0x2B368883, 0x9221ABD4);
    assert Compress(IV, w, 30) == Regs(0x205EC5D8, 0xB8D32B00, 0x411D9B46, 0x2B368883, 0x9221ABD4);
    assert Round(Regs(0x205EC5D8, 0xB8D32B00, 0x411D9B46, 0x2B368883, 0x9221ABD4), 0x51515151, 30) == Regs(0x311DDC8F, 0x205EC5D8, 0x2E34CAC0, 0x411D9B46, 0x2B368883);
    assert Compress(IV, w, 31) == Regs(0x311DDC8F, 0x205EC5D8, 0x2E34CAC0, 0x411D9B46, 0x2B368883);
    assert Round(Regs(0x311DDC8F, 0x205EC5D8, 0x2E34CAC0, 0x411D9B46, 0x2B368883), 0x7D7D7D7D, 31) == Regs(0x8AC117E5, 0x311DDC8F, 0x0817B176, 0x2E34CAC0, 0x411D9B46);
    assert Compress(IV, w, 32) == Regs(0x8AC117E5, 0x311DDC8F, 0x0817B176, 0x2E34CAC0, 0x411D9B46);
    assert Round(Regs(0x8AC117E5, 0x311DDC8F, 0x0817B176, 0x2E34CAC0, 0x411D9B46), 0x3A3A3A3A, 32) == Regs(0x5993650B, 0x8AC117E5, 0xCC477723, 0x0817B176, 0x2E34CAC0);
    assert Compress(IV, w, 33) == Regs(0x5993650B, 0x8AC117E5, 0xCC477723, 0x0817B176, 0x2E34CAC0);
    assert Round(Regs(0x5993650B, 0x8AC117E5, 0xCC477723, 0x0817B176, 0x2E34CAC0), 0x3A3A3A3A, 33) == Regs(0x584763B6, 0x5993650B, 0x62B045F9, 0xCC477723, 0x0817B176);
    assert Compress(IV, w, 34) == Regs(0x584763B6, 0x5993650B, 0x62B045F9, 0xCC477723, 0x0817B176);
    assert Round(Regs(0x584763B6, 0x5993650B, 0x62B045F9, 0xCC477723, 0x0817B176), 0x62626262, 34) == Regs(0xD9A4CE15, 0x584763B6, 0xD664D942, 0x62B045F9, 0xCC477723);
    assert Compress(IV, w, 35) == Regs(0xD9A4CE15, 0x584763B6, 0xD664D942, 0x62B045F9, 0xCC477723);
    assert Round(Regs(0xD9A4CE15, 0x584763B6, 0xD664D942, 0x62B045F9, 0xCC477723), 0x69696969, 35) == Regs(0xC5B88DF5, 0xD9A4CE15, 0x9611D8ED, 0xD664D942, 0x62B045F9);
    assert Compress(IV, w, 36) == Regs(0xC5B88DF5, 0xD9A4CE15, 0x9611D8ED, 0xD664D942, 0x62B045F9);
    assert Round(Regs(0xC5B88DF5, 0xD9A4CE15, 0x9611D8ED, 0xD664D942, 0x62B045F9), 0x4E4E4E4E, 36) == Regs(0x70BC0E5A, 0xC5B88DF5, 0x76693385, 0x9611D8ED, 0xD664D942);
    assert Compress(IV, w, 37) == Regs(0x70BC0E5A, 0xC5B88DF5, 0x76693385, 0x9611D8ED, 0xD664D942);
    assert Round(Regs(0x70BC0E5A, 0xC5B88DF5, 0x76693385, 0x9611D8ED, 0xD664D942), 0xFEFEFEFE, 37) == Regs(0x817FF5CC, 0x70BC0E5A, 0x716E237D, 0x76693385, 0x9611D8ED);
    assert Compress(IV, w, 38) == Regs(0x817FF5CC, 0x70BC0E5A, 0x716E237D, 0x76693385, 0x9611D8ED);
    assert Round(Regs(0x817FF5CC, 0x70BC0E5A, 0x716E237D, 0x76693385, 0x9611D8ED), 0xF5F5F5F5, 38) == Regs(0xA29B92B5, 0x817FF5CC, 0x9C2F0396, 0x716E237D, 0x76693385);
    assert Compress(IV, w, 39) == Regs(0xA29B92B5, 0x817FF5CC, 0x9C2F0396, 0x716E237D, 0x76693385);
    assert Round(Regs(0xA29B92B5, 0x817FF5CC, 0x9C2F0396, 0x716E237D, 0x76693385), 0xF5F5F5F5, 39) == Regs(0x9AEA40F6, 0xA29B92B5, 0x205FFD73, 0x9C2F0396, 0x716E237D);
    assert Compress(IV, w, 40) == Regs(0x9AEA40F6, 0xA29B92B5, 0x205FFD73, 0x9C2F0396, 0x716E237D);
  }

  lemma Letters0Rounds2(w: seq<word>)
    requires |w| == 80
    requires w[40] == 0x9F9F9F9F && w[41] == 0x9F9F9F9F && w[42] == 0x03030303 && w[43] == 0xC1C1C1C1 &&
      w[44] == 0x30303030 && w[45] == 0x30303030 && w[46] == 0xBEBEBEBE && w[47] == 0x05050505 &&
      w[48] == 0xEFEFEFEF && w[49] == 0xE4E4E4E4 && w[50] == 0x54545454 && w[51] == 0x73737373 &&
      w[52] == 0xDEDEDEDE && w[53] == 0xDEDEDEDE && w[54] == 0x4F4F4F4F && w[55] == 0x63636363 &&
      w[56] == 0x5B5B5B5B && w[57] == 0xEBEBEBEB && w[58] == 0x08080808 && w[59] == 0xB3B3B3B3
    requires Compress(IV, w, 40) == Regs(0x9AEA40F6, 0xA29B92B5, 0x205FFD73, 0x9C2F0396, 0x716E237D)
    ensures Compress(IV, w, 60) == Regs(0xF64E9341, 0x0577634A, 0xB1F474D7, 0x892A8AFC, 0x9FC3446A)
  {
    assert Round(Regs(0x9AEA40F6, 0xA29B92B5, 0x205FFD73, 0x9C2F0396, 0x716E237D), 0x9F9F9F9F, 40) == Regs(0x9D913282, 0x9AEA40F6, 0x68A6E4AD, 0x205FFD73, 0x9C2F0396);
    assert Compress(IV, w, 41) == Regs(0x9D913282, 0x9AEA40F6, 0x68A6E4AD, 0x205FFD73, 0x9C2F0396);
    assert Round(Regs(0x9D913282, 0x9AEA40F6, 0x68A6E4AD, 0x205FFD73, 0x9C2F0396), 0x9F9F9F9F, 41) == Regs(0xA5FF955B, 0x9D913282, 0xA6BA903D, 0x68A6E4AD, 0x205FFD73);
    assert Compress(IV, w, 42) == Regs(0xA5FF955B, 0x9D913282, 0xA6BA903D, 0x68A6E4AD, 0x205FFD73);
    assert Round(Regs(0xA5FF955B, 0x9D913282, 0xA6BA903D, 0x68A6E4AD, 0x205FFD73), 0x03030303, 42) == Regs(0x1F241973, 0xA5FF955B, 0xA7644CA0, 0xA6BA903D, 0x68A6E4AD);
    assert Compress(IV, w, 43) == Regs(0x1F241973, 0xA5FF955B, 0xA7644CA0, 0xA6BA903D, 0x68A6E4AD);
    assert Round(Regs(0x1F241973, 0xA5FF955B, 0xA7644CA0, 0xA6BA903D, 0x68A6E4AD), 0xC1C1C1C1, 43) == Regs(0x460625E6, 0x1F241973, 0xE97FE556, 0xA7644CA0, 0xA6BA903D);
    assert Compress(IV, w, 44) == Regs(0x460625E6, 0x1F241973, 0xE97FE556, 0xA7644CA0, 0xA6BA903D);
    assert Round(Regs(0x460625E6, 0x1F241973, 0xE97FE556, 0xA7644CA0, 0xA6BA903D), 0x30303030, 44) == Regs(0xD62F8783, 0x460625E6, 0xC7C9065C, 0xE97FE556, 0xA7644CA0);
    assert Compress(IV, w, 45) == Regs(0xD62F8783, 0x460625E6, 0xC7C9065C, 0xE97FE556, 0xA7644CA0);
    assert Round(Regs(0xD62F8783, 0x460625E6, 0xC7C9065C, 0xE97FE556, 0xA7644CA0), 0x30303030, 45) == Regs(0xF3F04F7C, 0xD62F8783, 0x91818979, 0xC7C9065C, 0xE97FE556);
    assert Compress(IV, w, 46) == Regs(0xF3F04F7C, 0xD62F8783, 0x91818979, 0xC7C9065C, 0xE97FE556);
    assert Round(Regs(0xF3F04F7C, 0xD62F8783, 0x91818979, 0xC7C9065C, 0xE97FE556), 0xBEBEBEBE, 46) == Regs(0x8CEDD7E7, 0xF3F04F7C, 0xF58BE1E0, 0x91818979, 0xC7C9065C);
    assert Compress(IV, w, 47) == Regs(0x8CEDD7E7, 0xF3F04F7C, 0xF58BE1E0, 0x91818979, 0xC7C9065C);
    assert Round(Regs(0x8CEDD7E7, 0xF3F04F7C, 0xF58BE1E0, 0x91818979, 0xC7C9065C), 0x05050505, 47) == Regs(0xEB268EA6, 0x8CEDD7E7, 0x3CFC13DF, 0xF58BE1E0, 0x91818979);
    assert Compress(IV, w, 48) == Regs(0xEB268EA6, 0x8CEDD7E7, 0x3CFC13DF, 0xF58BE1E0, 0x91818979);
    assert Round(Regs(0xEB268EA6, 0x8CEDD7E7, 0x3CFC13DF, 0xF58BE1E0, 0x91818979), 0xEFEFEFEF, 48) == Regs(0x324CDF08, 0xEB268EA6, 0xE33B75F9, 0x3CFC13DF, 0xF58BE1E0);
    assert Compress(IV, w, 49) == Regs(0x324CDF08, 0xEB268EA6, 0xE33B75F9, 0x3CFC13DF, 0xF58BE1E0);
    assert Round(Regs(0x324CDF08, 0xEB268EA6, 0xE33B75F9, 0x3CFC13DF, 0xF58BE1E0), 0xE4E4E4E4, 49) == Regs(0x9E667CA5, 0x324CDF08, 0xBAC9A3A9, 0xE33B75F9, 0x3CFC13DF);
    assert Compress(IV, w, 50) == Regs(0x9E667CA5, 0x324CDF08, 0xBAC9A3A9, 0xE33B75F9, 0x3CFC13DF);
    assert Round(Regs(0x9E667CA5, 0x324CDF08, 0xBAC9A3A9, 0xE33B75F9, 0x3CFC13DF), 0x54545454, 50) == Regs(0x9F85B16B, 0x9E667CA5, 0x0C9337C2, 0xBAC9A3A9, 0xE33B75F9);
    assert Compress(IV, w, 51) == Regs(0x9F85B16B, 0x9E667CA5, 0x0C9337C2, 0xBAC9A3A9, 0xE33B75F9);
    assert Round(Regs(0x9F85B16B, 0x9E667CA5, 0x0C9337C2, 0xBAC9A3A9, 0xE33B75F9), 0x73737373, 51) == Regs(0x75440B5C, 0x9F85B16B, 0x67999F29, 0x0C9337C2, 0xBAC9A3A9);
    assert Compress(IV, w, 52) == Regs(0x75440B5C, 0x9F85B16B, 0x67999F29, 0x0C9337C2, 0xBAC9A3A9);
    assert Round(Regs(0x75440B5C, 0x9F85B16B, 0x67999F29, 0x0C9337C2, 0xBAC9A3A9), 0xDEDEDEDE, 52) == Regs(0xE0D7625C, 0x75440B5C, 0xE7E16C5A, 0x67999F29, 0x0C9337C2);
    assert Compress(IV, w, 53) == Regs(0xE0D7625C, 0x75440B5C, 0xE7E16C5A, 0x67999F29, 0x0C9337C2);
    assert Round(Regs(0xE0D7625C, 0x75440B5C, 0xE7E16C5A, 0x67999F29, 0x0C9337C2), 0xDEDEDEDE, 53) == Regs(0xFD3B2E70, 0xE0D7625C, 0x1D5102D7, 0xE7E16C5A, 0x67999F29);
    assert Compress(IV, w, 54) == Regs(0xFD3B2E70, 0xE0D7625C, 0x1D5102D7, 0xE7E16C5A, 0x67999F29);
    assert Round(Regs(0xFD3B2E70, 0xE0D7625C, 0x1D5102D7, 0xE7E16C5A, 0x67999F29), 0x4F4F4F4F, 54) == Regs(0xD33BDBD1, 0xFD3B2E70, 0x3835D897, 0x1D5102D7, 0xE7E16C5A);
    assert Compress(IV, w, 55) == Regs(0xD33BDBD1, 0xFD3B2E70, 0x3835D897, 0x1D5102D7, 0xE7E16C5A);
    assert Round(Regs(0xD33BDBD1, 0xFD3B2E70, 0x3835D897, 0x1D5102D7, 0xE7E16C5A), 0x63636363, 55) == Regs(0x7F0D11AA, 0xD33BDBD1, 0x3F4ECB9C, 0x3835D897, 0x1D5102D7);
    assert Compress(IV, w, 56) == Regs(0x7F0D11AA, 0xD33BDBD1, 0x3F4ECB9C, 0x3835D897, 0x1D5102D7);
    assert Round(Regs(0x7F0D11AA, 0xD33BDBD1, 0x3F4ECB9C, 0x3835D897, 0x1D5102D7), 0x5B5B5B5B, 56) == Regs(0x24AA2BF2, 0x7F0D11AA, 0x74CEF6F4, 0x3F4ECB9C, 0x3835D897);
    assert Compress(IV, w, 57) == Regs(0x24AA2BF2, 0x7F0D11AA, 0x74CEF6F4, 0x3F4ECB9C, 0x3835D897);
    assert Round(Regs(0x24AA2BF2, 0x7F0D11AA, 0x74CEF6F4, 0x3F4ECB9C, 0x3835D897), 0xEBEBEBEB, 57) == Regs(0xC7D1D35E, 0x24AA2BF2, 0x9FC3446A, 0x74CEF6F4, 0x3F4ECB9C);
    assert Compress(IV, w, 58) == Regs(0xC7D1D35E, 0x24AA2BF2, 0x9FC3446A, 0x74CEF6F4, 0x3F4ECB9C);
    assert Round(Regs(0xC7D1D35E, 0x24AA2BF2, 0x9FC3446A, 0x74CEF6F4, 0x3F4ECB9C), 0x08080808, 58) == Regs(0x0577634A, 0xC7D1D35E, 0x892A8AFC, 0x9FC3446A, 0x74CEF6F4);
    assert Compress(IV, w, 59) == Regs(0x0577634A, 0xC7D1D35E, 0x892A8AFC, 0x9FC3446A, 0x74CEF6F4);
    assert Round(Regs(0x0577634A, 0xC7D1D35E, 0x892A8AFC, 0x9FC3446A, 0x74CEF6F4), 0xB3B3B3B3, 59) == Regs(0xF64E9341, 0x0577634A, 0xB1F474D7, 0x892A8AFC, 0x9FC3446A);
    assert Compress(IV, w, 60) == Regs(0xF64E9341, 0x0577634A, 0xB1F474D7, 0x892A8AFC, 0x9FC3446A);
  }

  lemma Letters0Rounds3(w: seq<word>)
    requires |w| == 80
    requires w[60] == 0x77777777 && w[61] == 0xC7C7C7C7 && w[62] == 0x5B5B5B5B && w[63] == 0xEBEBEBEB &&
      w[64] == 0x4E4E4E4E && w[65] == 0x4E4E4E4E && w[66] == 0xD2D2D2D2 && w[67] == 0xA0A0A0A0 &&
      w[68] == 0x51515151 && w[69] == 0x51515151 && w[70] == 0xDFDFDFDF && w[71] == 0x64646464 &&
      w[72] == 0x98989898 && w[73] == 0x93939393 && w[74] == 0x93939393 && w[75] == 0x98989898 &&
      w[76] == 0xDDDDDDDD && w[77] == 0xDDDDDDDD && w[78] == 0xA4A4A4A4 && w[79] == 0x38383838
    requires Compress(IV, w, 60) == Regs(0xF64E9341, 0x0577634A, 0xB1F474D7, 0x892A8AFC, 0x9FC3446A)
    ensures Compress(IV, w, 80) == Regs(0x730445EA, 0x3E69D096, 0xEF93B254, 0x731FF775, 0x237BDBCD)
  {
    assert Round(Regs(0xF64E9341, 0x0577634A, 0xB1F474D7, 0x892A8AFC, 0x9FC3446A), 0x77777777, 60) == Regs(0xE9198356, 0xF64E9341, 0x815DD8D2, 0xB1F474D7, 0x892A8AFC);
    assert Compress(IV, w, 61) == Regs(0xE9198356, 0xF64E9341, 0x815DD8D2, 0xB1F474D7, 0x892A8AFC);
    assert Round(Regs(0xE9198356, 0xF64E9341, 0x815DD8D2, 0xB1F474D7, 0x892A8AFC), 0xC7C7C7C7, 61) == Regs(0x056CBEBA, 0xE9198356, 0x7D93A4D0, 0x815DD8D2, 0xB1F474D7);
    assert Compress(IV, w, 62) == Regs(0x056CBEBA, 0xE9198356, 0x7D93A4D0, 0x815DD8D2, 0xB1F474D7);
    assert Round(Regs(0x056CBEBA, 0xE9198356, 0x7D93A4D0, 0x815DD8D2, 0xB1F474D7), 0x5B5B5B5B, 62) == Regs(0x9B22689C, 0x056CBEBA, 0xBA4660D5, 0x7D93A4D0, 0x815DD8D2);
    assert Compress(IV, w, 63) == Regs(0x9B22689C, 0x056CBEBA, 0xBA4660D5, 0x7D93A4D0, 0x815DD8D2);
    assert Round(Regs(0x9B22689C, 0x056CBEBA, 0xBA4660D5, 0x7D93A4D0, 0x815DD8D2), 0xEBEBEBEB, 63) == Regs(0x5EB314E5, 0x9B22689C, 0x815B2FAE, 0xBA4660D5, 0x7D93A4D0);
    assert Compress(IV, w, 64) == Regs(0x5EB314E5, 0x9B22689C, 0x815B2FAE, 0xBA4660D5, 0x7D93A4D0);
    assert Round(Regs(0x5EB314E5, 0x9B22689C, 0x815B2FAE, 0xBA4660D5, 0x7D93A4D0), 0x4E4E4E4E, 64) == Regs(0x0CE67986, 0x5EB314E5, 0x26C89A27, 0x815B2FAE, 0xBA4660D5);
    assert Compress(IV, w, 65) == Regs(0x0CE67986, 0x5EB314E5, 0x26C89A27, 0x815B2FAE, 0xBA4660D5);
    assert Round(Regs(0x0CE67986, 0x5EB314E5, 0x26C89A27, 0x815B2FAE, 0xBA4660D5), 0x4E4E4E4E, 65) == Regs(0x68E74326, 0x0CE67986, 0x57ACC539, 0x26C89A27, 0x815B2FAE);
    assert Compress(IV, w, 66) == Regs(0x68E74326, 0x0CE67986, 0x57ACC539, 0x26C89A27, 0x815B2FAE);
    assert Round(Regs(0x68E74326, 0x0CE67986, 0x57ACC539, 0x26C89A27, 0x815B2FAE), 0xD2D2D2D2, 66) == Regs(0xB8FB4FBB, 0x68E74326, 0x83399E61, 0x57ACC539, 0x26C89A27);
    assert Compress(IV, w, 67) == Regs(0xB8FB4FBB, 0x68E74326, 0x83399E61, 0x57ACC539, 0x26C89A27);
    assert Round(Regs(0xB8FB4FBB, 0x68E74326, 0x83399E61, 0x57ACC539, 0x26C89A27), 0xA0A0A0A0, 67) == Regs(0x6DA80C92, 0xB8FB4FBB, 0x9A39D0C9, 0x83399E61, 0x57ACC539);
    assert Compress(IV, w, 68) == Regs(0x6DA80C92, 0xB8FB4FBB, 0x9A39D0C9, 0x83399E61, 0x57ACC539);
    assert Round(Regs(0x6DA80C92, 0xB8FB4FBB, 0x9A39D0C9, 0x83399E61, 0x57ACC539), 0x51515151, 68) == Regs(0xCA5D6BC0, 0x6DA80C92, 0xEE3ED3EE, 0x9A39D0C9, 0x83399E61);
    assert Compress(IV, w, 69) == Regs(0xCA5D6BC0, 0x6DA80C92, 0xEE3ED3EE, 0x9A39D0C9, 0x83399E61);
    assert Round(Regs(0xCA5D6BC0, 0x6DA80C92, 0xEE3ED3EE, 0x9A39D0C9, 0x83399E61), 0x51515151, 69) == Regs(0x044A3956, 0xCA5D6BC0, 0x9B6A0324, 0xEE3ED3EE, 0x9A39D0C9);
    assert Compress(IV, w, 70) == Regs(0x044A3956, 0xCA5D6BC0, 0x9B6A0324, 0xEE3ED3EE, 0x9A39D0C9);
    assert Round(Regs(0x044A3956, 0xCA5D6BC0, 0x9B6A0324, 0xEE3ED3EE, 0x9A39D0C9), 0xDFDFDFDF, 70) == Regs(0x8CCD5848, 0x044A3956, 0x32975AF0, 0x9B6A0324, 0xEE3ED3EE);
    assert Compress(IV, w, 71) == Regs(0x8CCD5848, 0x044A3956, 0x32975AF0, 0x9B6A0324, 0xEE3ED3EE);
    assert Round(Regs(0x8CCD5848, 0x044A3956, 0x32975AF0, 0x9B6A0324, 0xEE3ED3EE), 0x64646464, 71) == Regs(0x646863BB, 0x8CCD5848, 0x81128E55, 0x32975AF0, 0x9B6A0324);
    assert Compress(IV, w, 72) == Regs(0x646863BB, 0x8CCD5848, 0x81128E55, 0x32975AF0, 0x9B6A0324);
    assert Round(Regs(0x646863BB, 0x8CCD5848, 0x81128E55, 0x32975AF0, 0x9B6A0324), 0x98989898, 72) == Regs(0xCABA61EB, 0x646863BB, 0x23335612, 0x81128E55, 0x32975AF0);
    assert Compress(IV, w, 73) == Regs(0xCABA61EB, 0x646863BB, 0x23335612, 0x81128E55, 0x32975AF0);
    assert Round(Regs(0xCABA61EB, 0x646863BB, 0x23335612, 0x81128E55, 0x32975AF0), 0x93939393, 73) == Regs(0xAE23A9CE, 0xCABA61EB, 0xD91A18EE, 0x23335612, 0x81128E55);
    assert Compress(IV, w, 74) == Regs(0xAE23A9CE, 0xCABA61EB, 0xD91A18EE, 0x23335612, 0x81128E55);
    assert Round(Regs(0xAE23A9CE, 0xCABA61EB, 0xD91A18EE, 0x23335612, 0x81128E55), 0x93939393, 74) == Regs(0xD4114CAA, 0xAE23A9CE, 0xF2AE987A, 0xD91A18EE, 0x23335612);
    assert Compress(IV, w, 75) == Regs(0xD4114CAA, 0xAE23A9CE, 0xF2AE987A, 0xD91A18EE, 0x23335612);
    assert Round(Regs(0xD4114CAA, 0xAE23A9CE, 0xF2AE987A, 0xD91A18EE, 0x23335612), 0x98989898, 75) == Regs(0x8DEF6F34, 0xD4114CAA, 0xAB88EA73, 0xF2AE987A, 0xD91A18EE);
    assert Compress(IV, w, 76) == Regs(0x8DEF6F34, 0xD4114CAA, 0xAB88EA73, 0xF2AE987A, 0xD91A18EE);
    assert Round(Regs(0x8DEF6F34, 0xD4114CAA, 0xAB88EA73, 0xF2AE987A, 0xD91A18EE), 0xDDDDDDDD, 76) == Regs(0xCC7FDDD5, 0x8DEF6F34, 0xB504532A, 0xAB88EA73, 0xF2AE987A);
    assert Compress(IV, w, 77) == Regs(0xCC7FDDD5, 0x8DEF6F34, 0xB504532A, 0xAB88EA73, 0xF2AE987A);
    assert Round(Regs(0xCC7FDDD5, 0x8DEF6F34, 0xB504532A, 0xAB88EA73, 0xF2AE987A), 0xDDDDDDDD, 77) == Regs(0xBE4EC953, 0xCC7FDDD5, 0x237BDBCD, 0xB504532A, 0xAB88EA73);
    assert Compress(IV, w, 78) == Regs(0xBE4EC953, 0xCC7FDDD5, 0x237BDBCD, 0xB504532A, 0xAB88EA73);
    assert Round(Regs(0xBE4EC953, 0xCC7FDDD5, 0x237BDBCD, 0xB504532A, 0xAB88EA73), 0xA4A4A4A4, 78) == Regs(0x3E69D096, 0xBE4EC953, 0x731FF775, 0x237BDBCD, 0xB504532A);
    assert Compress(IV, w, 79) == Regs(0x3E69D096, 0xBE4EC953, 0x731FF775, 0x237BDBCD, 0xB504532A);
    assert Round(Regs(0x3E69D096, 0xBE4EC953, 0x731FF775, 0x237BDBCD, 0xB504532A), 0x38383838, 79) == Regs(0x730445EA, 0x3E69D096, 0xEF93B254, 0x731FF775, 0x237BDBCD);
    assert Compress(IV, w, 80) == Regs(0x730445EA, 0x3E69D096, 0xEF93B254, 0x731FF775, 0x237BDBCD);
  }

  /** The first block of letters, from `H`. */
  lemma Letters0Compress(words: seq<word>)
    requires |words| == 16
    requires words[0] == 0x61616161 && words[1] == 0x61616161 && words[2] == 0x61616161 && words[3] == 0x61616161 &&
      words[4] == 0x61616161 && words[5] == 0x61616161 && words[6] == 0x61616161 && words[7] == 0x61616161 &&
      words[8] == 0x61616161 && words[9] == 0x61616161 && words[10] == 0x61616161 && words[11] == 0x61616161 &&
      words[12] == 0x61616161 && words[13] == 0x61616161 && words[14] == 0x61616161 && words[15] == 0x61616161
    ensures Compress(IV, Schedule(words), 80) == Regs(0x730445EA, 0x3E69D096, 0xEF93B254, 0x731FF775, 0x237BDBCD)
  {
    var w := Schedule(words);
    ScheduleIsSchedule(words);
    forall j | 0 <= j < 16
      ensures w[j] == words[j]
    {
      assert w[..16][j] == w[j];
    }
    LettersSchedule0(w);
    LettersSchedule1(w);
    LettersSchedule2(w);
    LettersSchedule3(w);
    Letters0Rounds0(w);
    Letters0Rounds1(w);
    Letters0Rounds2(w);
    Letters0Rounds3(w);
  }

  lemma LettersAsWritten1Rounds0(w: seq<word>)
    requires |w| == 80
    requires w[0] == 0x61616161 && w[1] == 0x61616161 && w[2] == 0x61616161 && w[3] == 0x61616161 &&
      w[4] == 0x61616161 && w[5] == 0x61616161 && w[6] == 0x61616161 && w[7] == 0x61616161 &&
      w[8] == 0x61616161 && w[9] == 0x61616161 && w[10] == 0x61616161 && w[11] == 0x61616161 &&
      w[12] == 0x61616161 && w[13] == 0x61616161 && w[14] == 0x61616161 && w[15] == 0x61616161 &&
      w[16] == 0x00000000 && w[17] == 0x00000000 && w[18] == 0x00000000 && w[19] == 0xC2C2C2C2
    requires Compress(Regs(0x730445EA, 0x3E69D096, 0xEF93B254, 0x731FF775, 0x237BDBCD), w, 0) == Regs(0x730445EA, 0x3E69D096, 0xEF93B254, 0x731FF775, 0x237BDBCD)
    ensures Compress(Regs(0x730445EA, 0x3E69D096, 0xEF93B254, 0x731FF775, 0x237BDBCD), w, 20) == Regs(0x2165FF97, 0xD2EE6C28, 0x02DBA380, 0xF3C67717, 0x41BC4682)
  {
    assert Round(Regs(0x730445EA, 0x3E69D096, 0xEF93B254, 0x731FF775, 0x237BDBCD), 0x61616161, 0) == Regs(0xAF002B8A, 0x730445EA, 0x8F9A7425, 0xEF93B254, 0x731FF775);
    assert Compress(Regs(0x730445EA, 0x3E69D096, 0xEF93B254, 0x731FF775, 0x237BDBCD), w, 1) == Regs(0xAF002B8A, 0x730445EA, 0x8F9A7425, 0xEF93B254, 0x731FF775);
    assert Round(Regs(0xAF002B8A, 0x730445EA, 0x8F9A7425, 0xEF93B254, 0x731FF775), 0x61616161, 1) == Regs(0x9E9D39F8, 0xAF002B8A, 0x9CC1117A, 0x8F9A7425, 0xEF93B254);
    assert Compress(Regs(0x730445EA, 0x3E69D096, 0xEF93B254, 0x731FF775, 0x237BDBCD), w, 2) == Regs(0x9E9D39F8, 0xAF002B8A, 0x9CC1117A, 0x8F9A7425, 0xEF93B254);
    assert Round(Regs(0x9E9D39F8, 0xAF002B8A, 0x9CC1117A, 0x8F9A7425, 0xEF93B254), 0x61616161, 2) == Regs(0x0BB92190, 0x9E9D39F8, 0xABC00AE2, 0x9CC1117A, 0x8F9A7425);
    assert Compress(Regs(0x730445EA, 0x3E69D096, 0xEF93B254, 0x731FF775, 0x237BDBCD), w, 3) == Regs(0x0BB92190, 0x9E9D39F8, 0xABC00AE2, 0x9CC1117A, 0x8F9A7425);
    assert Round(Regs(0x0BB92190, 0x9E9D39F8, 0xABC00AE2, 0x9CC1117A, 0x8F9A7425), 0x61616161, 3) == Regs(0x4D628A02, 0x0BB92190, 0x27A74E7E, 0xABC00AE2, 0x9CC1117A);
    assert Compress(Regs(0x730445EA, 0x3E69D096, 0xEF93B254, 0x731FF775, 0x237BDBCD), w, 4) == Regs(0x4D628A02, 0x0BB92190, 0x27A74E7E, 0xABC00AE2, 0x9CC1117A);
    assert Round(Regs(0x4D628A02, 0x0BB92190, 0x27A74E7E, 0xABC00AE2, 0x9CC1117A), 0x61616161, 4) == Regs(0xA8D7372F, 0x4D628A02, 0x02EE4864, 0x27A74E7E, 0xABC00AE2);
    assert Compress(Regs(0x730445EA, 0x3E69D096, 0xEF93B254, 0x731FF775, 0x237BDBCD), w, 5) == Regs(0xA8D7372F, 0x4D628A02, 0x02EE4864, 0x27A74E7E, 0xABC00AE2);
    assert Round(Regs(0xA8D7372F, 0x4D628A02, 0x02EE4864, 0x27A74E7E, 0xABC00AE2), 0x61616161, 5) == Regs(0xA572184D, 0xA8D7372F, 0x9358A280, 0x02EE4864, 0x27A74E7E);
    assert Compress(Regs(0x730445EA, 0x3E69D096, 0xEF93B254, 0x731FF775, 0x237BDBCD), w, 6) == Regs(0xA572184D, 0xA8D7372F, 0x9358A280, 0x02EE4864, 0x27A74E7E);
    assert Round(Regs(0xA572184D, 0xA8D7372F, 0x9358A280, 0x02EE4864, 0x27A74E7E), 0x61616161, 6) == Regs(0x14469D6C, 0xA572184D, 0xEA35CDCB, 0x9358A280, 0x02EE4864);
    assert Compress(Regs(0x730445EA, 0x3E69D096, 0xEF93B254, 0x731FF775, 0x237BDBCD), w, 7) == Regs(0x14469D6C, 0xA572184D, 0xEA35CDCB, 0x9358A280, 0x02EE4864);
    assert Round(Regs(0x14469D6C, 0xA572184D, 0xEA35CDCB, 0x9358A280, 0x02EE4864), 0x61616161, 7) == Regs(0xF9DE7BA9, 0x14469D6C, 0x695C8613, 0xEA35CDCB, 0x9358A280);
    assert Compress(Regs(0x730445EA, 0x3E69D096, 0xEF93B254, 0x731FF775, 0x237BDBCD), w, 8) == Regs(0xF9DE7BA9, 0x14469D6C, 0x695C8613, 0xEA35CDCB, 0x9358A280);
    assert Round(Regs(0xF9DE7BA9, 0x14469D6C, 0x695C8613, 0xEA35CDCB, 0x9358A280), 0x61616161, 8) == Regs(0x7581B73C, 0xF9DE7BA9, 0x0511A75B, 0x695C8613, 0xEA35CDCB);
    assert Compress(Regs(0x730445EA, 0x3E69D096, 0xEF93B254, 0x731FF775, 0x237BDBCD), w, 9) == Regs(0x7581B73C, 0xF9DE7BA9, 0x0511A75B, 0x695C8613, 0xEA35CDCB);
    assert Round(Regs(0x7581B73C, 0xF9DE7BA9, 0x0511A75B, 0x695C8613, 0xEA35CDCB), 0x61616161, 9) == Regs(0x5761376E, 0x7581B73C, 0x7E779EEA, 0x0511A75B, 0x695C8613);
    assert Compress(Regs(0x730445EA, 0x3E69D096, 0xEF93B254, 0x731FF775, 0x237BDBCD), w, 10) == Regs(0x5761376E, 0x7581B73C, 0x7E779EEA, 0x0511A75B, 0x695C8613);
    assert Round(Regs(0x5761376E, 0x7581B73C, 0x7E779EEA, 0x0511A75B, 0x695C8613), 0x61616161, 10) == Regs(0x8578E542, 0x5761376E, 0x1D606DCF, 0x7E779EEA, 0x0511A75B);
    assert Compress(Regs(0x730445EA, 0x3E69D096, 0xEF93B254, 0x731FF775, 0x237BDBCD), w, 11) == Regs(0x8578E542, 0x5761376E, 0x1D606DCF, 0x7E779EEA, 0x0511A75B);
    assert Round(Regs(0x8578E542, 0x5761376E, 0x1D606DCF, 0x7E779EEA, 0x0511A75B), 0x61616161, 11) == Regs(0xAD88D873, 0x8578E542, 0x95D84DDB, 0x1D606DCF, 0x7E779EEA);
    assert Compress(Regs(0x730445EA, 0x3E69D096, 0xEF93B254, 0x731FF775, 0x237BDBCD), w, 12) == Regs(0xAD88D873, 0x8578E542, 0x95D84DDB, 0x1D606DCF, 0x7E779EEA);
    assert Round(Regs(0xAD88D873, 0x8578E542, 0x95D84DDB, 0x1D606DCF, 0x7E779EEA), 0x61616161, 12) == Regs(0x88CED628, 0xAD88D873, 0xA15E3950, 0x95D84DDB, 0x1D606DCF);
    assert Compress(Regs(0x730445EA, 0x3E69D096, 0xEF93B254, 0x731FF775, 0x237BDBCD), w, 13) == Regs(0x88CED628, 0xAD88D873, 0xA15E3950, 0x95D84DDB, 0x1D606DCF);
    assert Round(Regs(0x88CED628, 0xAD88D873, 0xA15E3950, 0x95D84DDB, 0x1D606DCF), 0x61616161, 13) == Regs(0xA4772BB2, 0x88CED628, 0xEB62361C, 0xA15E3950, 0x95D84DDB);
    assert Compress(Regs(0x730445EA, 0x3E69D096, 0xEF93B254, 0x731FF775, 0x237BDBCD), w, 14) == Regs(0xA4772BB2, 0x88CED628, 0xEB62361C, 0xA15E3950, 0x95D84DDB);
    assert Round(Regs(0xA4772BB2, 0x88CED628, 0xEB62361C, 0xA15E3950, 0x95D84DDB), 0x61616161, 14) == Regs(0x89F3DE81, 0xA4772BB2, 0x2233B58A, 0xEB62361C, 0xA15E3950);
    assert Compress(Regs(0x730445EA, 0x3E69D096, 0xEF93B254, 0x731FF775, 0x237BDBCD), w, 15) == Regs(0x89F3DE81, 0xA4772BB2, 0x2233B58A, 0xEB62361C, 0xA15E3950);
    assert Round(Regs(0x89F3DE81, 0xA4772BB2, 0x2233B58A, 0xEB62361C, 0xA15E3950), 0x61616161, 15) == Regs(0x06F11A09, 0x89F3DE81, 0xA91DCAEC, 0x2233B58A, 0xEB62361C);
    assert Compress(Regs(0x730445EA, 0x3E69D096, 0xEF93B254, 0x731FF775, 0x237BDBCD), w, 16) == Regs(0x06F11A09, 0x89F3DE81, 0xA91DCAEC, 0x2233B58A, 0xEB62361C);
    assert Round(Regs(0x06F11A09, 0x89F3DE81, 0xA91DCAEC, 0x2233B58A, 0xEB62361C), 0x00000000, 16) == Regs(0xCF19DC5F, 0x06F11A09, 0x627CF7A0, 0xA91DCAEC, 0x2233B58A);
    assert Compress(Regs(0x730445EA, 0x3E69D096, 0xEF93B254, 0x731FF775, 0x237BDBCD), w, 17) == Regs(0xCF19DC5F, 0x06F11A09, 0x627CF7A0, 0xA91DCAEC, 0x2233B58A);
    assert Round(Regs(0xCF19DC5F, 0x06F11A09, 0x627CF7A0, 0xA91DCAEC, 0x2233B58A), 0x00000000, 17) == Regs(0x0B6E8E00, 0xCF19DC5F, 0x41BC4682, 0x627CF7A0, 0xA91DCAEC);
    assert Compress(Regs(0x730445EA, 0x3E69D096, 0xEF93B254, 0x731FF775, 0x237BDBCD), w, 18) == Regs(0x0B6E8E00, 0xCF19DC5F, 0x41BC4682, 0x627CF7A0, 0xA91DCAEC);
    assert Round(Regs(0x0B6E8E00, 0xCF19DC5F, 0x41BC4682, 0x627CF7A0, 0xA91DCAEC), 0x00000000, 18) == Regs(0xD2EE6C28, 0x0B6E8E00, 0xF3C67717, 0x41BC4682, 0x627CF7A0);
    assert Compress(Regs(0x730445EA, 0x3E69D096, 0xEF93B254, 0x731FF775, 0x237BDBCD), w, 19) == Regs(0xD2EE6C28, 0x0B6E8E00, 0xF3C67717, 0x41BC4682, 0x627CF7A0);
    assert Round(Regs(0xD2EE6C28, 0x0B6E8E00, 0xF3C67717, 0x41BC4682, 0x627CF7A0), 0xC2C2C2C2, 19) == Regs(0x2165FF97, 0xD2EE6C28, 0x02DBA380, 0xF3C67717, 0x41BC4682);
    assert Compress(Regs(0x730445EA, 0x3E69D096, 0xEF93B254, 0x731FF775, 0x237BDBCD), w, 20) == Regs(0x2165FF97, 0xD2EE6C28, 0x02DBA380, 0xF3C67717, 0x41BC4682);
  }

  lemma LettersAsWritten1Rounds1(w: seq<word>)
    requires |w| == 80
    requires w[20] == 0xC2C2C2C2 && w[21] == 0xC2C2C2C2 && w[22] == 0x47474747 && w[23] == 0x47474747 &&
      w[24] == 0x85858585 && w[25] == 0x8E8E8E8E && w[26] == 0x8E8E8E8E && w[27] == 0x8E8E8E8E &&
      w[28] == 0x98989898 && w[29] == 0x98989898 && w[30] == 0x51515151 && w[31] == 0x7D7D7D7D &&
      w[32] == 0x3A3A3A3A && w[33] == 0x3A3A3A3A && w[34] == 0x62626262 && w[35] == 0x69696969 &&
      w[36] == 0x4E4E4E4E && w[37] == 0xFEFEFEFE && w[38] == 0xF5F5F5F5 && w[39] == 0xF5F5F5F5
    requires Compress(Regs(0x730445EA, 0x3E69D096, 0xEF93B254, 0x731FF775, 0x237BDBCD), w, 20) == Regs(0x2165FF97, 0xD2EE6C28, 0x02DBA380, 0xF3C67717, 0x41BC4682)
    ensures Compress(Regs(0x730445EA, 0x3E69D096, 0xEF93B254, 0x731FF775, 0x237BDBCD), w, 40) == Regs(0x4E8ECA15, 0x32160370, 0x1E5E2BF1, 0x54DF4F52, 0x26304666)
  {
    assert Round(Regs(0x2165FF97, 0xD2EE6C28, 0x02DBA380, 0xF3C67717, 0x41BC4682), 0xC2C2C2C2, 20) == Regs(0xC40CA088, 0x2165FF97, 0x34BB9B0A, 0x02DBA380, 0xF3C67717);
    assert Compress(Regs(0x730445EA, 0x3E69D096, 0xEF93B254, 0x731FF775, 0x237BDBCD), w, 21) == Regs(0xC40CA088, 0x2165FF97, 0x34BB9B0A, 0x02DBA380, 0xF3C67717);
    assert Round(Regs(0xC40CA088, 0x2165FF97, 0x34BB9B0A, 0x02DBA380, 0xF3C67717), 0xC2C2C2C2, 21) == Regs(0xBDFCFDAF, 0xC40CA088, 0xC8597FE5, 0x34BB9B0A, 0x02DBA380);
    assert Compress(Regs(0x730445EA, 0x3E69D096, 0xEF93B254, 0x731FF775, 0x237BDBCD), w, 22) == Regs(0xBDFCFDAF, 0xC40CA088, 0xC8597FE5, 0x34BB9B0A, 0x02DBA380);
    assert Round(Regs(0xBDFCFDAF, 0xC40CA088, 0xC8597FE5, 0x34BB9B0A, 0x02DBA380), 0x47474747, 22) == Regs(0xB18AD0C6, 0xBDFCFDAF, 0x31032822, 0xC8597FE5, 0x34BB9B0A);
    assert Compress(Regs(0x730445EA, 0x3E69D096, 0xEF93B254, 0x731FF775, 0x237BDBCD), w, 23) == Regs(0xB18AD0C6, 0xBDFCFDAF, 0x31032822, 0xC8597FE5, 0x34BB9B0A);
    assert Round(Regs(0xB18AD0C6, 0xBDFCFDAF, 0x31032822, 0xC8597FE5, 0x34BB9B0A), 0x47474747, 23) == Regs(0x60DD9130, 0xB18AD0C6, 0xEF7F3F6B, 0x31032822, 0xC8597FE5);
    assert Compress(Regs(0x730445EA, 0x3E69D096, 0xEF93B254, 0x731FF775, 0x237BDBCD), w, 24) == Regs(0x60DD9130, 0xB18AD0C6, 0xEF7F3F6B, 0x31032822, 0xC8597FE5);
    assert Round(Regs(0x60DD9130, 0xB18AD0C6, 0xEF7F3F6B, 0x31032822, 0xC8597FE5), 0x85858585, 24) == Regs(0x4861DEA6, 0x60DD9130, 0xAC62B431, 0xEF7F3F6B, 0x31032822);
    assert Compress(Regs(0x730445EA, 0x3E69D096, 0xEF93B254, 0x731FF775, 0x237BDBCD), w, 25) == Regs(0x4861DEA6, 0x60DD9130, 0xAC62B431, 0xEF7F3F6B, 0x31032822);
    assert Round(Regs(0x4861DEA6, 0x60DD9130, 0xAC62B431, 0xEF7F3F6B, 0x31032822), 0x8E8E8E8E, 25) == Regs(0x5E679184, 0x4861DEA6, 0x1837644C, 0xAC62B431, 0xEF7F3F6B);
    assert Compress(Regs(0x730445EA, 0x3E69D096, 0xEF93B254, 0x731FF775, 0x237BDBCD), w, 26) == Regs(0x5E679184, 0x4861DEA6, 0x1837644C, 0xAC62B431, 0xEF7F3F6B);
    assert Round(Regs(0x5E679184, 0x4861DEA6, 0x1837644C, 0xAC62B431, 0xEF7F3F6B), 0x8E8E8E8E, 26) == Regs(0xB60DF900, 0x5E679184, 0x921877A9, 0x1837644C, 0xAC62B431);
    assert Compress(Regs(0x730445EA, 0x3E69D096, 0xEF93B254, 0x731FF775, 0x237BDBCD), w, 27) == Regs(0xB60DF900, 0x5E679184, 0x921877A9, 0x1837644C, 0xAC62B431);
    assert Round(Regs(0xB60DF900, 0x5E679184, 0x921877A9, 0x1837644C, 0xAC62B431), 0x8E8E8E8E, 27) == Regs(0x3FD2D0D7, 0xB60DF900, 0x1799E461, 0x921877A9, 0x1837644C);
    assert Compress(Regs(0x730445EA, 0x3E69D096, 0xEF93B254, 0x731FF775, 0x237BDBCD), w, 28) == Regs(0x3FD2D0D7, 0xB60DF900, 0x1799E461, 0x921877A9, 0x1837644C);
    assert Round(Regs(0x3FD2D0D7, 0xB60DF900, 0x1799E461, 0x921877A9, 0x1837644C), 0x98989898, 28) == Regs(0x4D906E34, 0x3FD2D0D7, 0x2D837E40, 0x1799E461, 0x921877A9);
    assert Compress(Regs(0x730445EA, 0x3E69D096, 0xEF93B254, 0x731FF775, 0x237BDBCD), w, 29) == Regs(0x4D906E34, 0x3FD2D0D7, 0x2D837E40, 0x1799E461, 0x921877A9);
    assert Round(Regs(0x4D906E34, 0x3FD2D0D7, 0x2D837E40, 0x1799E461, 0x921877A9), 0x98989898, 29) == Regs(0x51610D61, 0x4D906E34, 0xCFF4B435, 0x2D837E40, 0x1799E461);
    assert Compress(Regs(0x730445EA, 0x3E69D096, 0xEF93B254, 0x731FF775, 0x237BDBCD), w, 30) == Regs(0x51610D61, 0x4D906E34, 0xCFF4B435, 0x2D837E40, 0x1799E461);
    assert Round(Regs(0x51610D61, 0x4D906E34, 0xCFF4B435, 0x2D837E40, 0x1799E461), 0x51515151, 30) == Regs(0xB3CE71BE, 0x51610D61, 0x13641B8D, 0xCFF4B435, 0x2D837E40);
    assert Compress(Regs(0x730445EA, 0x3E69D096, 0xEF93B254, 0x731FF775, 0x237BDBCD), w, 31) == Regs(0xB3CE71BE, 0x51610D61, 0x13641B8D, 0xCFF4B435, 0x2D837E40);
    assert Round(Regs(0xB3CE71BE, 0x51610D61, 0x13641B8D, 0xCFF4B435, 0x2D837E40), 0x7D7D7D7D, 31) == Regs(0x219AC20D, 0xB3CE71BE, 0x54584358, 0x13641B8D, 0xCFF4B435);
    assert Compress(Regs(0x730445EA, 0x3E69D096, 0xEF93B254, 0x731FF775, 0x237BDBCD), w, 32) == Regs(0x219AC20D, 0xB3CE71BE, 0x54584358, 0x13641B8D, 0xCFF4B435);
    assert Round(Regs(0x219AC20D, 0xB3CE71BE, 0x54584358, 0x13641B8D, 0xCFF4B435), 0x3A3A3A3A, 32) == Regs(0xA153451F, 0x219AC20D, 0xACF39C6F, 0x54584358, 0x13641B8D);
    assert Compress(Regs(0x730445EA, 0x3E69D096, 0xEF93B254, 0x731FF775, 0x237BDBCD), w, 33) == Regs(0xA153451F, 0x219AC20D, 0xACF39C6F, 0x54584358, 0x13641B8D);
    assert Round(Regs(0xA153451F, 0x219AC20D, 0xACF39C6F, 0x54584358, 0x13641B8D), 0x3A3A3A3A, 33) == Regs(0xC0120296, 0xA153451F, 0x4866B083, 0xACF39C6F, 0x54584358);
    assert Compress(Regs(0x730445EA, 0x3E69D096, 0xEF93B254, 0x731FF775, 0x237BDBCD), w, 34) == Regs(0xC0120296, 0xA153451F, 0x4866B083, 0xACF39C6F, 0x54584358);
    assert Round(Regs(0xC0120296, 0xA153451F, 0x4866B083, 0xACF39C6F, 0x54584358), 0x62626262, 34) == Regs(0x6D9B4E26, 0xC0120296, 0xE854D147, 0x4866B083, 0xACF39C6F);
    assert Compress(Regs(0x730445EA, 0x3E69D096, 0xEF93B254, 0x731FF775, 0x237BDBCD), w, 35) == Regs(0x6D9B4E26, 0xC0120296, 0xE854D147, 0x4866B083, 0xACF39C6F);
    assert Round(Regs(0x6D9B4E26, 0xC0120296, 0xE854D147, 0x4866B083, 0xACF39C6F), 0x69696969, 35) == Regs(0x98C11998, 0x6D9B4E26, 0xB00480A5, 0xE854D147, 0x4866B083);
    assert Compress(Regs(0x730445EA, 0x3E69D096, 0xEF93B254, 0x731FF775, 0x237BDBCD), w, 36) == Regs(0x98C11998, 0x6D9B4E26, 0xB00480A5, 0xE854D147, 0x4866B083);
    assert Round(Regs(0x98C11998, 0x6D9B4E26, 0xB00480A5, 0xE854D147, 0x4866B083), 0x4E4E4E4E, 36) == Regs(0x537D3D49, 0x98C11998, 0x9B66D389, 0xB00480A5, 0xE854D147);
    assert Compress(Regs(0x730445EA, 0x3E69D096, 0xEF93B254, 0x731FF775, 0x237BDBCD), w, 37) == Regs(0x537D3D49, 0x98C11998, 0x9B66D389, 0xB00480A5, 0xE854D147);
    assert Round(Regs(0x537D3D49, 0x98C11998, 0x9B66D389, 0xB00480A5, 0xE854D147), 0xFEFEFEFE, 37) == Regs(0x7978AFC4, 0x537D3D49, 0x26304666, 0x9B66D389, 0xB00480A5);
    assert Compress(Regs(0x730445EA, 0x3E69D096, 0xEF93B254, 0x731FF775, 0x237BDBCD), w, 38) == Regs(0x7978AFC4, 0x537D3D49, 0x26304666, 0x9B66D389, 0xB00480A5);
    assert Round(Regs(0x7978AFC4, 0x537D3D49, 0x26304666, 0x9B66D389, 0xB00480A5), 0xF5F5F5F5, 38) == Regs(0x32160370, 0x7978AFC4, 0x54DF4F52, 0x26304666, 0x9B66D389);
    assert Compress(Regs(0x730445EA, 0x3E69D096, 0xEF93B254, 0x731FF775, 0x237BDBCD), w, 39) == Regs(0x32160370, 0x7978AFC4, 0x54DF4F52, 0x26304666, 0x9B66D389);
    assert Round(Regs(0x32160370, 0x7978AFC4, 0x54DF4F52, 0x26304666, 0x9B66D389), 0xF5F5F5F5, 39) == Regs(0x4E8ECA15, 0x32160370, 0x1E5E2BF1, 0x54DF4F52, 0x26304666);
    assert Compress(Regs(0x730445EA, 0x3E69D096, 0xEF93B254, 0x731FF775, 0x237BDBCD), w, 40) == Regs(0x4E8ECA15, 0x32160370, 0x1E5E2BF1, 0x54DF4F52, 0x26304666);
  }

  lemma LettersAsWritten1Rounds2(w: seq<word>)
    requires |w| == 80
    requires w[40] == 0x9F9F9F9F && w[41] == 0x9F9F9F9F && w[42] == 0x03030303 && w[43] == 0xC1C1C1C1 &&
      w[44] == 0x30303030 && w[45] == 0x30303030 && w[46] == 0xBEBEBEBE && w[47] == 0x05050505 &&
      w[48] == 0xEFEFEFEF && w[49] == 0xE4E4E4E4 && w[50] == 0x54545454 && w[51] == 0x73737373 &&
      w[52] == 0xDEDEDEDE && w[53] == 0xDEDEDEDE && w[54] == 0x4F4F4F4F && w[55] == 0x63636363 &&
      w[56] == 0x5B5B5B5B && w[57] == 0xEBEBEBEB && w[58] == 0x08080808 && w[59] == 0xB3B3B3B3
    requires Compress(Regs(0x730445EA, 0x3E69D096, 0xEF93B254, 0x731FF775, 0x237BDBCD), w, 40) == Regs(0x4E8ECA15, 0x32160370, 0x1E5E2BF1, 0x54DF4F52, 0x26304666)
    ensures Compress(Regs(0x730445EA, 0x3E69D096, 0xEF93B254, 0x731FF775, 0x237BDBCD), w, 60) == Regs(0x9DC274C2, 0xBE555BB3, 0x37EB9C78, 0x4539E089, 0x034B548B)
  {
    assert Round(Regs(0x4E8ECA15, 0x32160370, 0x1E5E2BF1, 0x54DF4F52, 0x26304666), 0x9F9F9F9F, 40) == Regs(0x3D22F0FA, 0x4E8ECA15, 0x0C8580DC, 0x1E5E2BF1, 0x54DF4F52);
    assert Compress(Regs(0x730445EA, 0x3E69D096, 0xEF93B254, 0x731FF775, 0x237BDBCD), w, 41) == Regs(0x3D22F0FA, 0x4E8ECA15, 0x0C8580DC, 0x1E5E2BF1, 0x54DF4F52);
    assert Round(Regs(0x3D22F0FA, 0x4E8ECA15, 0x0C8580DC, 0x1E5E2BF1, 0x54DF4F52), 0x9F9F9F9F, 41) == Regs(0x368755E9, 0x3D22F0FA, 0x53A3B285, 0x0C8580DC, 0x1E5E2BF1);
    assert Compress(Regs(0x730445EA, 0x3E69D096, 0xEF93B254, 0x731FF775, 0x237BDBCD), w, 42) == Regs(0x368755E9, 0x3D22F0FA, 0x53A3B285, 0x0C8580DC, 0x1E5E2BF1);
    assert Round(Regs(0x368755E9, 0x3D22F0FA, 0x53A3B285, 0x0C8580DC, 0x1E5E2BF1), 0x03030303, 42) == Regs(0x9F0B59D2, 0x368755E9, 0x8F48BC3E, 0x53A3B285, 0x0C8580DC);
    assert Compress(Regs(0x730445EA, 0x3E69D096, 0xEF93B254, 0x731FF775, 0x237BDBCD), w, 43) == Regs(0x9F0B59D2, 0x368755E9, 0x8F48BC3E, 0x53A3B285, 0x0C8580DC);
    assert Round(Regs(0x9F0B59D2, 0x368755E9, 0x8F48BC3E, 0x53A3B285, 0x0C8580DC), 0xC1C1C1C1, 43) == Regs(0x5651EE79, 0x9F0B59D2, 0x4DA1D57A, 0x8F48BC3E, 0x53A3B285);
    assert Compress(Regs(0x730445EA, 0x3E69D096, 0xEF93B254, 0x731FF775, 0x237BDBCD), w, 44) == Regs(0x5651EE79, 0x9F0B59D2, 0x4DA1D57A, 0x8F48BC3E, 0x53A3B285);
    assert Round(Regs(0x5651EE79, 0x9F0B59D2, 0x4DA1D57A, 0x8F48BC3E, 0x53A3B285), 0x30303030, 44) == Regs(0x6C374C35, 0x5651EE79, 0xA7C2D674, 0x4DA1D57A, 0x8F48BC3E);
    assert Compress(Regs(0x730445EA, 0x3E69D096, 0xEF93B254, 0x731FF775, 0x237BDBCD), w, 45) == Regs(0x6C374C35, 0x5651EE79, 0xA7C2D674, 0x4DA1D57A, 0x8F48BC3E);
    assert Round(Regs(0x6C374C35, 0x5651EE79, 0xA7C2D674, 0x4DA1D57A, 0x8F48BC3E), 0x30303030, 45) == Regs(0x1D40066F, 0x6C374C35, 0x55947B9E, 0xA7C2D674, 0x4DA1D57A);
    assert Compress(Regs(0x730445EA, 0x3E69D096, 0xEF93B254, 0x731FF775, 0x237BDBCD), w, 46) == Regs(0x1D40066F, 0x6C374C35, 0x55947B9E, 0xA7C2D674, 0x4DA1D57A);
    assert Round(Regs(0x1D40066F, 0x6C374C35, 0x55947B9E, 0xA7C2D674, 0x4DA1D57A), 0xBEBEBEBE, 46) == Regs(0xA9137D2B, 0x1D40066F, 0x5B0DD30D, 0x55947B9E, 0xA7C2D674);
    assert Compress(Regs(0x730445EA, 0x3E69D096, 0xEF93B254, 0x731FF775, 0x237BDBCD), w, 47) == Regs(0xA9137D2B, 0x1D40066F, 0x5B0DD30D, 0x55947B9E, 0xA7C2D674);
    assert Round(Regs(0xA9137D2B, 0x1D40066F, 0x5B0DD30D, 0x55947B9E, 0xA7C2D674), 0x05050505, 47) == Regs(0xBB5790D9, 0xA9137D2B, 0xC750019B, 0x5B0DD30D, 0x55947B9E);
    assert Compress(Regs(0x730445EA, 0x3E69D096, 0xEF93B254, 0x731FF775, 0x237BDBCD), w, 48) == Regs(0xBB5790D9, 0xA9137D2B, 0xC750019B, 0x5B0DD30D, 0x55947B9E);
    assert Round(Regs(0xBB5790D9, 0xA9137D2B, 0xC750019B, 0x5B0DD30D, 0x55947B9E), 0xEFEFEFEF, 48) == Regs(0x0AA394AB, 0xBB5790D9, 0xEA44DF4A, 0xC750019B, 0x5B0DD30D);
    assert Compress(Regs(0x730445EA, 0x3E69D096, 0xEF93B254, 0x731FF775, 0x237BDBCD), w, 49) == Regs(0x0AA394AB, 0xBB5790D9, 0xEA44DF4A, 0xC750019B, 0x5B0DD30D);
    assert Round(Regs(0x0AA394AB, 0xBB5790D9, 0xEA44DF4A, 0xC750019B, 0x5B0DD30D), 0xE4E4E4E4, 49) == Regs(0x0ED59C09, 0x0AA394AB, 0x6ED5E436, 0xEA44DF4A, 0xC750019B);
    assert Compress(Regs(0x730445EA, 0x3E69D096, 0xEF93B254, 0x731FF775, 0x237BDBCD), w, 50) == Regs(0x0ED59C09, 0x0AA394AB, 0x6ED5E436, 0xEA44DF4A, 0xC750019B);
    assert Round(Regs(0x0ED59C09, 0x0AA394AB, 0x6ED5E436, 0xEA44DF4A, 0xC750019B), 0x54545454, 50) == Regs(0xF0396816, 0x0ED59C09, 0xC2A8E52A, 0x6ED5E436, 0xEA44DF4A);
    assert Compress(Regs(0x730445EA, 0x3E69D096, 0xEF93B254, 0x731FF775, 0x237BDBCD), w, 51) == Regs(0xF0396816, 0x0ED59C09, 0xC2A8E52A, 0x6ED5E436, 0xEA44DF4A);
    assert Round(Regs(0xF0396816, 0x0ED59C09, 0xC2A8E52A, 0x6ED5E436, 0xEA44DF4A), 0x73737373, 51) == Regs(0x42D6F6A1, 0xF0396816, 0x43B56702, 0xC2A8E52A, 0x6ED5E436);
    assert Compress(Regs(0x730445EA, 0x3E69D096, 0xEF93B254, 0x731FF775, 0x237BDBCD), w, 52) == Regs(0x42D6F6A1, 0xF0396816, 0x43B56702, 0xC2A8E52A, 0x6ED5E436);
    assert Round(Regs(0x42D6F6A1, 0xF0396816, 0x43B56702, 0xC2A8E52A, 0x6ED5E436), 0xDEDEDEDE, 52) == Regs(0xFA68B91A, 0x42D6F6A1, 0xBC0E5A05, 0x43B56702, 0xC2A8E52A);
    assert Compress(Regs(0x730445EA, 0x3E69D096, 0xEF93B254, 0x731FF775, 0x237BDBCD), w, 53) == Regs(0xFA68B91A, 0x42D6F6A1, 0xBC0E5A05, 0x43B56702, 0xC2A8E52A);
    assert Round(Regs(0xFA68B91A, 0x42D6F6A1, 0xBC0E5A05, 0x43B56702, 0xC2A8E52A), 0xDEDEDEDE, 53) == Regs(0xC0511A44, 0xFA68B91A, 0x50B5BDA8, 0xBC0E5A05, 0x43B56702);
    assert Compress(Regs(0x730445EA, 0x3E69D096, 0xEF93B254, 0x731FF775, 0x237BDBCD), w, 54) == Regs(0xC0511A44, 0xFA68B91A, 0x50B5BDA8, 0xBC0E5A05, 0x43B56702);
    assert Round(Regs(0xC0511A44, 0xFA68B91A, 0x50B5BDA8, 0xBC0E5A05, 0x43B56702), 0x4F4F4F4F, 54) == Regs(0x247074CD, 0xC0511A44, 0xBE9A2E46, 0x50B5BDA8, 0xBC0E5A05);
    assert Compress(Regs(0x730445EA, 0x3E69D096, 0xEF93B254, 0x731FF775, 0x237BDBCD), w, 55) == Regs(0x247074CD, 0xC0511A44, 0xBE9A2E46, 0x50B5BDA8, 0xBC0E5A05);
    assert Round(Regs(0x247074CD, 0xC0511A44, 0xBE9A2E46, 0x50B5BDA8, 0xBC0E5A05), 0x63636363, 55) == Regs(0x0D2D522C, 0x247074CD, 0x30144691, 0xBE9A2E46, 0x50B5BDA8);
    assert Compress(Regs(0x730445EA, 0x3E69D096, 0xEF93B254, 0x731FF775, 0x237BDBCD), w, 56) == Regs(0x0D2D522C, 0x247074CD, 0x30144691, 0xBE9A2E46, 0x50B5BDA8);
    assert Round(Regs(0x0D2D522C, 0x247074CD, 0x30144691, 0xBE9A2E46, 0x50B5BDA8), 0x5B5B5B5B, 56) == Regs(0x14E78225, 0x0D2D522C, 0x491C1D33, 0x30144691, 0xBE9A2E46);
    assert Compress(Regs(0x730445EA, 0x3E69D096, 0xEF93B254, 0x731FF775, 0x237BDBCD), w, 57) == Regs(0x14E78225, 0x0D2D522C, 0x491C1D33, 0x30144691, 0xBE9A2E46);
    assert Round(Regs(0x14E78225, 0x0D2D522C, 0x491C1D33, 0x30144691, 0xBE9A2E46), 0xEBEBEBEB, 57) == Regs(0xDFAE71E0, 0x14E78225, 0x034B548B, 0x491C1D33, 0x30144691);
    assert Compress(Regs(0x730445EA, 0x3E69D096, 0xEF93B254, 0x731FF775, 0x237BDBCD), w, 58) == Regs(0xDFAE71E0, 0x14E78225, 0x034B548B, 0x491C1D33, 0x30144691);
    assert Round(Regs(0xDFAE71E0, 0x14E78225, 0x034B548B, 0x491C1D33, 0x30144691), 0x08080808, 58) == Regs(0xBE555BB3, 0xDFAE71E0, 0x4539E089, 0x034B548B, 0x491C1D33);
    assert Compress(Regs(0x730445EA, 0x3E69D096, 0xEF93B254, 0x731FF775, 0x237BDBCD), w, 59) == Regs(0xBE555BB3, 0xDFAE71E0, 0x4539E089, 0x034B548B, 0x491C1D33);
    assert Round(Regs(0xBE555BB3, 0xDFAE71E0, 0x4539E089, 0x034B548B, 0x491C1D33), 0xB3B3B3B3, 59) == Regs(0x9DC274C2, 0xBE555BB3, 0x37EB9C78, 0x4539E089, 0x034B548B);
    assert Compress(Regs(0x730445EA, 0x3E69D096, 0xEF93B254, 0x731FF775, 0x237BDBCD), w, 60) == Regs(0x9DC274C2, 0xBE555BB3, 0x37EB9C78, 0x4539E089, 0x034B548B);
  }

  lemma LettersAsWritten1Rounds3(w: seq<word>)
    requires |w| == 80
    requires w[60] == 0x77777777 && w[61] == 0xC7C7C7C7 && w[62] == 0x5B5B5B5B && w[63] == 0xEBEBEBEB &&
      w[64] == 0x4E4E4E4E && w[65] == 0x4E4E4E4E && w[66] == 0xD2D2D2D2 && w[67] == 0xA0A0A0A0 &&
      w[68] == 0x51515151 && w[69] == 0x51515151 && w[70] == 0xDFDFDFDF && w[71] == 0x64646464 &&
      w[72] == 0x98989898 && w[73] == 0x93939393 && w[74] == 0x93939393 && w[75] == 0x98989898 &&
      w[76] == 0xDDDDDDDD && w[77] == 0xDDDDDDDD && w[78] == 0xA4A4A4A4 && w[79] == 0x38383838
    requires Compress(Regs(0x730445EA, 0x3E69D096, 0xEF93B254, 0x731FF775, 0x237BDBCD), w, 60) == Regs(0x9DC274C2, 0xBE555BB3, 0x37EB9C78, 0x4539E089, 0x034B548B)
    ensures Compress(Regs(0x730445EA, 0x3E69D096, 0xEF93B254, 0x731FF775, 0x237BDBCD), w, 80) == Regs(0x9761FBA2, 0xE7743D66, 0x9D7972F8, 0xEBE107BB, 0xDBC9CD7E)
  {
    assert Round(Regs(0x9DC274C2, 0xBE555BB3, 0x37EB9C78, 0x4539E089, 0x034B548B), 0x77777777, 60) == Regs(0xC9FB4D6D, 0x9DC274C2, 0xEF9556EC, 0x37EB9C78, 0x4539E089);
    assert Compress(Regs(0x730445EA, 0x3E69D096, 0xEF93B254, 0x731FF775, 0x237BDBCD), w, 61) == Regs(0xC9FB4D6D, 0x9DC274C2, 0xEF9556EC, 0x37EB9C78, 0x4539E089);
    assert Round(Regs(0xC9FB4D6D, 0x9DC274C2, 0xEF9556EC, 0x37EB9C78, 0x4539E089), 0xC7C7C7C7, 61) == Regs(0x5C8AD635, 0xC9FB4D6D, 0xA7709D30, 0xEF9556EC, 0x37EB9C78);
    assert Compress(Regs(0x730445EA, 0x3E69D096, 0xEF93B254, 0x731FF775, 0x237BDBCD), w, 62) == Regs(0x5C8AD635, 0xC9FB4D6D, 0xA7709D30, 0xEF9556EC, 0x37EB9C78);
    assert Round(Regs(0x5C8AD635, 0xC9FB4D6D, 0xA7709D30, 0xEF9556EC, 0x37EB9C78), 0x5B5B5B5B, 62) == Regs(0x70230705, 0x5C8AD635, 0x727ED35B, 0xA7709D30, 0xEF9556EC);
    assert Compress(Regs(0x730445EA, 0x3E69D096, 0xEF93B254, 0x731FF775, 0x237BDBCD), w, 63) == Regs(0x70230705, 0x5C8AD635, 0x727ED35B, 0xA7709D30, 0xEF9556EC);
    assert Round(Regs(0x70230705, 0x5C8AD635, 0x727ED35B, 0xA7709D30, 0xEF9556EC), 0xEBEBEBEB, 63) == Regs(0x33C97DB9, 0x70230705, 0x5722B58D, 0x727ED35B, 0xA7709D30);
    assert Compress(Regs(0x730445EA, 0x3E69D096, 0xEF93B254, 0x731FF775, 0x237BDBCD), w, 64) == Regs(0x33C97DB9, 0x70230705, 0x5722B58D, 0x727ED35B, 0xA7709D30);
    assert Round(Regs(0x33C97DB9, 0x70230705, 0x5722B58D, 0x727ED35B, 0xA7709D30), 0x4E4E4E4E, 64) == Regs(0x8ED0C64D, 0x33C97DB9, 0x5C08C1C1, 0x5722B58D, 0x727ED35B);
    assert Compress(Regs(0x730445EA, 0x3E69D096, 0xEF93B254, 0x731FF775, 0x237BDBCD), w, 65) == Regs(0x8ED0C64D, 0x33C97DB9, 0x5C08C1C1, 0x5722B58D, 0x727ED35B);
    assert Round(Regs(0x8ED0C64D, 0x33C97DB9, 0x5C08C1C1, 0x5722B58D, 0x727ED35B), 0x4E4E4E4E, 65) == Regs(0x9E2BB725, 0x8ED0C64D, 0x4CF25F6E, 0x5C08C1C1, 0x5722B58D);
    assert Compress(Regs(0x730445EA, 0x3E69D096, 0xEF93B254, 0x731FF775, 0x237BDBCD), w, 66) == Regs(0x9E2BB725, 0x8ED0C64D, 0x4CF25F6E, 0x5C08C1C1, 0x5722B58D);
    assert Round(Regs(0x9E2BB725, 0x8ED0C64D, 0x4CF25F6E, 0x5C08C1C1, 0x5722B58D), 0xD2D2D2D2, 66) == Regs(0x57F987CA, 0x9E2BB725, 0x63B43193, 0x4CF25F6E, 0x5C08C1C1);
    assert Compress(Regs(0x730445EA, 0x3E69D096, 0xEF93B254, 0x731FF775, 0x237BDBCD), w, 67) == Regs(0x57F987CA, 0x9E2BB725, 0x63B43193, 0x4CF25F6E, 0x5C08C1C1);
    assert Round(Regs(0x57F987CA, 0x9E2BB725, 0x63B43193, 0x4CF25F6E, 0x5C08C1C1), 0xA0A0A0A0, 67) == Regs(0x77AAF759, 0x57F987CA, 0x678AEDC9, 0x63B43193, 0x4CF25F6E);
    assert Compress(Regs(0x730445EA, 0x3E69D096, 0xEF93B254, 0x731FF775, 0x237BDBCD), w, 68) == Regs(0x77AAF759, 0x57F987CA, 0x678AEDC9, 0x63B43193, 0x4CF25F6E);
    assert Round(Regs(0x77AAF759, 0x57F987CA, 0x678AEDC9, 0x63B43193, 0x4CF25F6E), 0x51515151, 68) == Regs(0xB1CCB953, 0x77AAF759, 0x95FE61F2, 0x678AEDC9, 0x63B43193);
    assert Compress(Regs(0x730445EA, 0x3E69D096, 0xEF93B254, 0x731FF775, 0x237BDBCD), w, 69) == Regs(0xB1CCB953, 0x77AAF759, 0x95FE61F2, 0x678AEDC9, 0x63B43193);
    assert Round(Regs(0xB1CCB953, 0x77AAF759, 0x95FE61F2, 0x678AEDC9, 0x63B43193), 0x51515151, 69) == Regs(0x3EDDEA92, 0xB1CCB953, 0x5DEABDD6, 0x95FE61F2, 0x678AEDC9);
    assert Compress(Regs(0x730445EA, 0x3E69D096, 0xEF93B254, 0x731FF775, 0x237BDBCD), w, 70) == Regs(0x3EDDEA92, 0xB1CCB953, 0x5DEABDD6, 0x95FE61F2, 0x678AEDC9);
    assert Round(Regs(0x3EDDEA92, 0xB1CCB953, 0x5DEABDD6, 0x95FE61F2, 0x678AEDC9), 0xDFDFDFDF, 70) == Regs(0x6763473C, 0x3EDDEA92, 0xEC732E54, 0x5DEABDD6, 0x95FE61F2);
    assert Compress(Regs(0x730445EA, 0x3E69D096, 0xEF93B254, 0x731FF775, 0x237BDBCD), w, 71) == Regs(0x6763473C, 0x3EDDEA92, 0xEC732E54, 0x5DEABDD6, 0x95FE61F2);
    assert Round(Regs(0x6763473C, 0x3EDDEA92, 0xEC732E54, 0x5DEABDD6, 0x95FE61F2), 0x64646464, 71) == Regs(0x4072E8C8, 0x6763473C, 0x8FB77AA4, 0xEC732E54, 0x5DEABDD6);
    assert Compress(Regs(0x730445EA, 0x3E69D096, 0xEF93B254, 0x731FF775, 0x237BDBCD), w, 72) == Regs(0x4072E8C8, 0x6763473C, 0x8FB77AA4, 0xEC732E54, 0x5DEABDD6);
    assert Round(Regs(0x4072E8C8, 0x6763473C, 0x8FB77AA4, 0xEC732E54, 0x5DEABDD6), 0x98989898, 72) == Regs(0xD3EA4518, 0x4072E8C8, 0x19D8D1CF, 0x8FB77AA4, 0xEC732E54);
    assert Compress(Regs(0x730445EA, 0x3E69D096, 0xEF93B254, 0x731FF775, 0x237BDBCD), w, 73) == Regs(0xD3EA4518, 0x4072E8C8, 0x19D8D1CF, 0x8FB77AA4, 0xEC732E54);
    assert Round(Regs(0xD3EA4518, 0x4072E8C8, 0x19D8D1CF, 0x8FB77AA4, 0xEC732E54), 0x93939393, 73) == Regs(0x9DCF6A7A, 0xD3EA4518, 0x101CBA32, 0x19D8D1CF, 0x8FB77AA4);
    assert Compress(Regs(0x730445EA, 0x3E69D096, 0xEF93B254, 0x731FF775, 0x237BDBCD), w, 74) == Regs(0x9DCF6A7A, 0xD3EA4518, 0x101CBA32, 0x19D8D1CF, 0x8FB77AA4);
    assert Round(Regs(0x9DCF6A7A, 0xD3EA4518, 0x101CBA32, 0x19D8D1CF, 0x8FB77AA4), 0x93939393, 74) == Regs(0x81C94E45, 0x9DCF6A7A, 0x34FA9146, 0x101CBA32, 0x19D8D1CF);
    assert Compress(Regs(0x730445EA, 0x3E69D096, 0xEF93B254, 0x731FF775, 0x237BDBCD), w, 75) == Regs(0x81C94E45, 0x9DCF6A7A, 0x34FA9146, 0x101CBA32, 0x19D8D1CF);
    assert Round(Regs(0x81C94E45, 0x9DCF6A7A, 0x34FA9146, 0x101CBA32, 0x19D8D1CF), 0x98989898, 75) == Regs(0x6F2735FB, 0x81C94E45, 0xA773DA9E, 0x34FA9146, 0x101CBA32);
    assert Compress(Regs(0x730445EA, 0x3E69D096, 0xEF93B254, 0x731FF775, 0x237BDBCD), w, 76) == Regs(0x6F2735FB, 0x81C94E45, 0xA773DA9E, 0x34FA9146, 0x101CBA32);
    assert Round(Regs(0x6F2735FB, 0x81C94E45, 0xA773DA9E, 0x34FA9146, 0x101CBA32), 0xDDDDDDDD, 76) == Regs(0xAF841EEF, 0x6F2735FB, 0x60725391, 0xA773DA9E, 0x34FA9146);
    assert Compress(Regs(0x730445EA, 0x3E69D096, 0xEF93B254, 0x731FF775, 0x237BDBCD), w, 77) == Regs(0xAF841EEF, 0x6F2735FB, 0x60725391, 0xA773DA9E, 0x34FA9146);
    assert Round(Regs(0xAF841EEF, 0x6F2735FB, 0x60725391, 0xA773DA9E, 0x34FA9146), 0xDDDDDDDD, 77) == Regs(0x75E5CBE2, 0xAF841EEF, 0xDBC9CD7E, 0x60725391, 0xA773DA9E);
    assert Compress(Regs(0x730445EA, 0x3E69D096, 0xEF93B254, 0x731FF775, 0x237BDBCD), w, 78) == Regs(0x75E5CBE2, 0xAF841EEF, 0xDBC9CD7E, 0x60725391, 0xA773DA9E);
    assert Round(Regs(0x75E5CBE2, 0xAF841EEF, 0xDBC9CD7E, 0x60725391, 0xA773DA9E), 0xA4A4A4A4, 78) == Regs(0xE7743D66, 0x75E5CBE2, 0xEBE107BB, 0xDBC9CD7E, 0x60725391);
    assert Compress(Regs(0x730445EA, 0x3E69D096, 0xEF93B254, 0x731FF775, 0x237BDBCD), w, 79) == Regs(0xE7743D66, 0x75E5CBE2, 0xEBE107BB, 0xDBC9CD7E, 0x60725391);
    assert Round(Regs(0xE7743D66, 0x75E5CBE2, 0xEBE107BB, 0xDBC9CD7E, 0x60725391), 0x38383838, 79) == Regs(0x9761FBA2, 0xE7743D66, 0x9D7972F8, 0xEBE107BB, 0xDBC9CD7E);
    assert Compress(Regs(0x730445EA, 0x3E69D096, 0xEF93B254, 0x731FF775, 0x237BDBCD), w, 80) == Regs(0x9761FBA2, 0xE7743D66, 0x9D7972F8, 0xEBE107BB, 0xDBC9CD7E);
  }

  /** As written, the second block starts from the registers the first one left. */
  lemma LettersAsWritten1Compress(words: seq<word>)
    requires |words| == 16
    requires words[0] == 0x61616161 && words[1] == 0x61616161 && words[2] == 0x61616161 && words[3] == 0x61616161 &&
      words[4] == 0x61616161 && words[5] == 0x61616161 && words[6] == 0x61616161 && words[7] == 0x61616161 &&
      words[8] == 0x61616161 && words[9] == 0x61616161 && words[10] == 0x61616161 && words[11] == 0x61616161 &&
      words[12] == 0x61616161 && words[13] == 0x61616161 && words[14] == 0x61616161 && words[15] == 0x61616161
    ensures Compress(Regs(0x730445EA, 0x3E69D096, 0xEF93B254, 0x731FF775, 0x237BDBCD), Schedule(words), 80) == Regs(0x9761FBA2, 0xE7743D66, 0x9D7972F8, 0xEBE107BB, 0xDBC9CD7E)
  {
    var w := Schedule(words);
    ScheduleIsSchedule(words);
    forall j | 0 <= j < 16
      ensures w[j] == words[j]
    {
      assert w[..16][j] == w[j];
    }
    LettersSchedule0(w);
    LettersSchedule1(w);
    LettersSchedule2(w);
    LettersSchedule3(w);
    LettersAsWritten1Rounds0(w);
    LettersAsWritten1Rounds1(w);
    LettersAsWritten1Rounds2(w);
    LettersAsWritten1Rounds3(w);
  }

  lemma Letters1Rounds0(w: seq<word>)
    requires |w| == 80
    requires w[0] == 0x61616161 && w[1] == 0x61616161 && w[2] == 0x61616161 && w[3] == 0x61616161 &&
      w[4] == 0x61616161 && w[5] == 0x61616161 && w[6] == 0x61616161 && w[7] == 0x61616161 &&
      w[8] == 0x61616161 && w[9] == 0x61616161 && w[10] == 0x61616161 && w[11] == 0x61616161 &&
      w[12] == 0x61616161 && w[13] == 0x61616161 && w[14] == 0x61616161 && w[15] == 0x61616161 &&
      w[16] == 0x00000000 && w[17] == 0x00000000 && w[18] == 0x00000000 && w[19] == 0xC2C2C2C2
    requires Compress(Regs(0xDA4968EB, 0x2E377C1F, 0x884E8F52, 0x83524BEB, 0xE74EBDBD), w, 0) == Regs(0xDA4968EB, 0x2E377C1F, 0x884E8F52, 0x83524BEB, 0xE74EBDBD)
    ensures Compress(Regs(0xDA4968EB, 0x2E377C1F, 0x884E8F52, 0x83524BEB, 0xE74EBDBD), w, 20) == Regs(0xB2CF6FAA, 0xB314D371, 0xFCDBD48B, 0xCB371EA5, 0xB3C470CF)
  {
    assert Round(Regs(0xDA4968EB, 0x2E377C1F, 0x884E8F52, 0x83524BEB, 0xE74EBDBD), 0x61616161, 0) == Regs(0x75A5C624, 0xDA4968EB, 0xCB8DDF07, 0x884E8F52, 0x83524BEB);
    assert Compress(Regs(0xDA4968EB, 0x2E377C1F, 0x884E8F52, 0x83524BEB, 0xE74EBDBD), w, 1) == Regs(0x75A5C624, 0xDA4968EB, 0xCB8DDF07, 0x884E8F52, 0x83524BEB);
    assert Round(Regs(0x75A5C624, 0xDA4968EB, 0xCB8DDF07, 0x884E8F52, 0x83524BEB), 0x61616161, 1) == Regs(0xBDFEBA86, 0x75A5C624, 0xF6925A3A, 0xCB8DDF07, 0x884E8F52);
    assert Compress(Regs(0xDA4968EB, 0x2E377C1F, 0x884E8F52, 0x83524BEB, 0xE74EBDBD), w, 2) == Regs(0xBDFEBA86, 0x75A5C624, 0xF6925A3A, 0xCB8DDF07, 0x884E8F52);
    assert Round(Regs(0xBDFEBA86, 0x75A5C624, 0xF6925A3A, 0xCB8DDF07, 0x884E8F52), 0x61616161, 2) == Regs(0x02921646, 0xBDFEBA86, 0x1D697189, 0xF6925A3A, 0xCB8DDF07);
    assert Compress(Regs(0xDA4968EB, 0x2E377C1F, 0x884E8F52, 0x83524BEB, 0xE74EBDBD), w, 3) == Regs(0x02921646, 0xBDFEBA86, 0x1D697189, 0xF6925A3A, 0xCB8DDF07);
    assert Round(Regs(0x02921646, 0xBDFEBA86, 0x1D697189, 0xF6925A3A, 0xCB8DDF07), 0x61616161, 3) == Regs(0x391CF379, 0x02921646, 0xAF7FAEA1, 0x1D697189, 0xF6925A3A);
    assert Compress(Regs(0xDA4968EB, 0x2E377C1F, 0x884E8F52, 0x83524BEB, 0xE74EBDBD), w, 4) == Regs(0x391CF379, 0x02921646, 0xAF7FAEA1, 0x1D697189, 0xF6925A3A);
    assert Round(Regs(0x391CF379, 0x02921646, 0xAF7FAEA1, 0x1D697189, 0xF6925A3A), 0x61616161, 4) == Regs(0xF5900BE4, 0x391CF379, 0x80A48591, 0xAF7FAEA1, 0x1D697189);
    assert Compress(Regs(0xDA4968EB, 0x2E377C1F, 0x884E8F52, 0x83524BEB, 0xE74EBDBD), w, 5) == Regs(0xF5900BE4, 0x391CF379, 0x80A48591, 0xAF7FAEA1, 0x1D697189);
    assert Round(Regs(0xF5900BE4, 0x391CF379, 0x80A48591, 0xAF7FAEA1, 0x1D697189), 0x61616161, 5) == Regs(0x11B656B2, 0xF5900BE4, 0x4E473CDE, 0x80A48591, 0xAF7FAEA1);
    assert Compress(Regs(0xDA4968EB, 0x2E377C1F, 0x884E8F52, 0x83524BEB, 0xE74EBDBD), w, 6) == Regs(0x11B656B2, 0xF5900BE4, 0x4E473CDE, 0x80A48591, 0xAF7FAEA1);
    assert Round(Regs(0x11B656B2, 0xF5900BE4, 0x4E473CDE, 0x80A48591, 0xAF7FAEA1), 0x61616161, 6) == Regs(0xE652ECB2, 0x11B656B2, 0x3D6402F9, 0x4E473CDE, 0x80A48591);
    assert Compress(Regs(0xDA4968EB, 0x2E377C1F, 0x884E8F52, 0x83524BEB, 0xE74EBDBD), w, 7) == Regs(0xE652ECB2, 0x11B656B2, 0x3D6402F9, 0x4E473CDE, 0x80A48591);
    assert Round(Regs(0xE652ECB2, 0x11B656B2, 0x3D6402F9, 0x4E473CDE, 0x80A48591), 0x61616161, 7) == Regs(0x664B21E3, 0xE652ECB2, 0x846D95AC, 0x3D6402F9, 0x4E473CDE);
    assert Compress(Regs(0xDA4968EB, 0x2E377C1F, 0x884E8F52, 0x83524BEB, 0xE74EBDBD), w, 8) == Regs(0x664B21E3, 0xE652ECB2, 0x846D95AC, 0x3D6402F9, 0x4E473CDE);
    assert Round(Regs(0x664B21E3, 0xE652ECB2, 0x846D95AC, 0x3D6402F9, 0x4E473CDE), 0x61616161, 8) == Regs(0x70F3DB2D, 0x664B21E3, 0xB994BB2C, 0x846D95AC, 0x3D6402F9);
    assert Compress(Regs(0xDA4968EB, 0x2E377C1F, 0x884E8F52, 0x83524BEB, 0xE74EBDBD), w, 9) == Regs(0x70F3DB2D, 0x664B21E3, 0xB994BB2C, 0x846D95AC, 0x3D6402F9);
    assert Round(Regs(0x70F3DB2D, 0x664B21E3, 0xB994BB2C, 0x846D95AC, 0x3D6402F9), 0x61616161, 9) == Regs(0xB7E7F8CD, 0x70F3DB2D, 0xD992C878, 0xB994BB2C, 0x846D95AC);
    assert Compress(Regs(0xDA4968EB, 0x2E377C1F, 0x884E8F52, 0x83524BEB, 0xE74EBDBD), w, 10) == Regs(0xB7E7F8CD, 0x70F3DB2D, 0xD992C878, 0xB994BB2C, 0x846D95AC);
    assert Round(Regs(0xB7E7F8CD, 0x70F3DB2D, 0xD992C878, 0xB994BB2C, 0x846D95AC), 0x61616161, 10) == Regs(0x16E77284, 0xB7E7F8CD, 0x5C3CF6CB, 0xD992C878, 0xB994BB2C);
    assert Compress(Regs(0xDA4968EB, 0x2E377C1F, 0x884E8F52, 0x83524BEB, 0xE74EBDBD), w, 11) == Regs(0x16E77284, 0xB7E7F8CD, 0x5C3CF6CB, 0xD992C878, 0xB994BB2C);
    assert Round(Regs(0x16E77284, 0xB7E7F8CD, 0x5C3CF6CB, 0xD992C878, 0xB994BB2C), 0x61616161, 11) == Regs(0xAE9BD7A1, 0x16E77284, 0x6DF9FE33, 0x5C3CF6CB, 0xD992C878);
    assert Compress(Regs(0xDA4968EB, 0x2E377C1F, 0x884E8F52, 0x83524BEB, 0xE74EBDBD), w, 12) == Regs(0xAE9BD7A1, 0x16E77284, 0x6DF9FE33, 0x5C3CF6CB, 0xD992C878);
    assert Round(Regs(0xAE9BD7A1, 0x16E77284, 0x6DF9FE33, 0x5C3CF6CB, 0xD992C878), 0x61616161, 12) == Regs(0xB5EB8DF2, 0xAE9BD7A1, 0x05B9DCA1, 0x6DF9FE33, 0x5C3CF6CB);
    assert Compress(Regs(0xDA4968EB, 0x2E377C1F, 0x884E8F52, 0x83524BEB, 0xE74EBDBD), w, 13) == Regs(0xB5EB8DF2, 0xAE9BD7A1, 0x05B9DCA1, 0x6DF9FE33, 0x5C3CF6CB);
    assert Round(Regs(0xB5EB8DF2, 0xAE9BD7A1, 0x05B9DCA1, 0x6DF9FE33, 0x5C3CF6CB), 0x61616161, 13) == Regs(0x1B8C8CCE, 0xB5EB8DF2, 0x6BA6F5E8, 0x05B9DCA1, 0x6DF9FE33);
    assert Compress(Regs(0xDA4968EB, 0x2E377C1F, 0x884E8F52, 0x83524BEB, 0xE74EBDBD), w, 14) == Regs(0x1B8C8CCE, 0xB5EB8DF2, 0x6BA6F5E8, 0x05B9DCA1, 0x6DF9FE33);
    assert Round(Regs(0x1B8C8CCE, 0xB5EB8DF2, 0x6BA6F5E8, 0x05B9DCA1, 0x6DF9FE33), 0x61616161, 14) == Regs(0xBD2248D1, 0x1B8C8CCE, 0xAD7AE37C, 0x6BA6F5E8, 0x05B9DCA1);
    assert Compress(Regs(0xDA4968EB, 0x2E377C1F, 0x884E8F52, 0x83524BEB, 0xE74EBDBD), w, 15) == Regs(0xBD2248D1, 0x1B8C8CCE, 0xAD7AE37C, 0x6BA6F5E8, 0x05B9DCA1);
    assert Round(Regs(0xBD2248D1, 0x1B8C8CCE, 0xAD7AE37C, 0x6BA6F5E8, 0x05B9DCA1), 0x61616161, 15) == Regs(0xCF11C33E, 0xBD2248D1, 0x86E32333, 0xAD7AE37C, 0x6BA6F5E8);
    assert Compress(Regs(0xDA4968EB, 0x2E377C1F, 0x884E8F52, 0x83524BEB, 0xE74EBDBD), w, 16) == Regs(0xCF11C33E, 0xBD2248D1, 0x86E32333, 0xAD7AE37C, 0x6BA6F5E8);
    assert Round(Regs(0xCF11C33E, 0xBD2248D1, 0x86E32333, 0xAD7AE37C, 0x6BA6F5E8), 0x00000000, 16) == Regs(0x2CDC7A97, 0xCF11C33E, 0x6F489234, 0x86E32333, 0xAD7AE37C);
    assert Compress(Regs(0xDA4968EB, 0x2E377C1F, 0x884E8F52, 0x83524BEB, 0xE74EBDBD), w, 17) == Regs(0x2CDC7A97, 0xCF11C33E, 0x6F489234, 0x86E32333, 0xAD7AE37C);
    assert Round(Regs(0x2CDC7A97, 0xCF11C33E, 0x6F489234, 0x86E32333, 0xAD7AE37C), 0x00000000, 17) == Regs(0xF36F522F, 0x2CDC7A97, 0xB3C470CF, 0x6F489234, 0x86E32333);
    assert Compress(Regs(0xDA4968EB, 0x2E377C1F, 0x884E8F52, 0x83524BEB, 0xE74EBDBD), w, 18) == Regs(0xF36F522F, 0x2CDC7A97, 0xB3C470CF, 0x6F489234, 0x86E32333);
    assert Round(Regs(0xF36F522F, 0x2CDC7A97, 0xB3C470CF, 0x6F489234, 0x86E32333), 0x00000000, 18) == Regs(0xB314D371, 0xF36F522F, 0xCB371EA5, 0xB3C470CF, 0x6F489234);
    assert Compress(Regs(0xDA4968EB, 0x2E377C1F, 0x884E8F52, 0x83524BEB, 0xE74EBDBD), w, 19) == Regs(0xB314D371, 0xF36F522F, 0xCB371EA5, 0xB3C470CF, 0x6F489234);
    assert Round(Regs(0xB314D371, 0xF36F522F, 0xCB371EA5, 0xB3C470CF, 0x6F489234), 0xC2C2C2C2, 19) == Regs(0xB2CF6FAA, 0xB314D371, 0xFCDBD48B, 0xCB371EA5, 0xB3C470CF);
    assert Compress(Regs(0xDA4968EB, 0x2E377C1F, 0x884E8F52, 0x83524BEB, 0xE74EBDBD), w, 20) == Regs(0xB2CF6FAA, 0xB314D371, 0xFCDBD48B, 0xCB371EA5, 0xB3C470CF);
  }

  lemma Letters1Rounds1(w: seq<word>)
    requires |w| == 80
    requires w[20] == 0xC2C2C2C2 && w[21] == 0xC2C2C2C2 && w[22] == 0x47474747 && w[23] == 0x47474747 &&
      w[24] == 0x85858585 && w[25] == 0x8E8E8E8E && w[26] == 0x8E8E8E8E && w[27] == 0x8E8E8E8E &&
      w[28] == 0x98989898 && w[29] == 0x98989898 && w[30] == 0x51515151 && w[31] == 0x7D7D7D7D &&
      w[32] == 0x3A3A3A3A && w[33] == 0x3A3A3A3A && w[34] == 0x62626262 && w[35] == 0x69696969 &&
      w[36] == 0x4E4E4E4E && w[37] == 0xFEFEFEFE && w[38] == 0xF5F5F5F5 && w[39] == 0xF5F5F5F5
    requires Compress(Regs(0xDA4968EB, 0x2E377C1F, 0x884E8F52, 0x83524BEB, 0xE74EBDBD), w, 20) == Regs(0xB2CF6FAA, 0xB314D371, 0xFCDBD48B, 0xCB371EA5, 0xB3C470CF)
    ensures Compress(Regs(0xDA4968EB, 0x2E377C1F, 0x884E8F52, 0x83524BEB, 0xE74EBDBD), w, 40) == Regs(0x10A20A76, 0xE26ED027, 0x3B75365E, 0x416EB0B0, 0xA7ED063F)
  {
    assert Round(Regs(0xB2CF6FAA, 0xB314D371, 0xFCDBD48B, 0xCB371EA5, 0xB3C470CF), 0xC2C2C2C2, 20) == Regs(0xC4472DE7, 0xB2CF6FAA, 0x6CC534DC, 0xFCDBD48B, 0xCB371EA5);
    assert Compress(Regs(0xDA4968EB, 0x2E377C1F, 0x884E8F52, 0x83524BEB, 0xE74EBDBD), w, 21) == Regs(0xC4472DE7, 0xB2CF6FAA, 0x6CC534DC, 0xFCDBD48B, 0xCB371EA5);
    assert Round(Regs(0xC4472DE7, 0xB2CF6FAA, 0x6CC534DC, 0xFCDBD48B, 0xCB371EA5), 0xC2C2C2C2, 21) == Regs(0xA88B19FD, 0xC4472DE7, 0xACB3DBEA, 0x6CC534DC, 0xFCDBD48B);
    assert Compress(Regs(0xDA4968EB, 0x2E377C1F, 0x884E8F52, 0x83524BEB, 0xE74EBDBD), w, 22) == Regs(0xA88B19FD, 0xC4472DE7, 0xACB3DBEA, 0x6CC534DC, 0xFCDBD48B);
    assert Round(Regs(0xA88B19FD, 0xC4472DE7, 0xACB3DBEA, 0x6CC534DC, 0xFCDBD48B), 0x47474747, 22) == Regs(0xC89209F9, 0xA88B19FD, 0xF111CB79, 0xACB3DBEA, 0x6CC534DC);
    assert Compress(Regs(0xDA4968EB, 0x2E377C1F, 0x884E8F52, 0x83524BEB, 0xE74EBDBD), w, 23) == Regs(0xC89209F9, 0xA88B19FD, 0xF111CB79, 0xACB3DBEA, 0x6CC534DC);
    assert Round(Regs(0xC89209F9, 0xA88B19FD, 0xF111CB79, 0xACB3DBEA, 0x6CC534DC), 0x47474747, 23) == Regs(0x2A50B06B, 0xC89209F9, 0x6A22C67F, 0xF111CB79, 0xACB3DBEA);
    assert Compress(Regs(0xDA4968EB, 0x2E377C1F, 0x884E8F52, 0x83524BEB, 0xE74EBDBD), w, 24) == Regs(0x2A50B06B, 0xC89209F9, 0x6A22C67F, 0xF111CB79, 0xACB3DBEA);
    assert Round(Regs(0x2A50B06B, 0xC89209F9, 0x6A22C67F, 0xF111CB79, 0xACB3DBEA), 0x85858585, 24) == Regs(0x3ECA5F74, 0x2A50B06B, 0x7224827E, 0x6A22C67F, 0xF111CB79);
    assert Compress(Regs(0xDA4968EB, 0x2E377C1F, 0x884E8F52, 0x83524BEB, 0xE74EBDBD), w, 25) == Regs(0x3ECA5F74, 0x2A50B06B, 0x7224827E, 0x6A22C67F, 0xF111CB79);
    assert Round(Regs(0x3ECA5F74, 0x2A50B06B, 0x7224827E, 0x6A22C67F, 0xF111CB79), 0x8E8E8E8E, 25) == Regs(0xFA1D2899, 0x3ECA5F74, 0xCA942C1A, 0x7224827E, 0x6A22C67F);
    assert Compress(Regs(0xDA4968EB, 0x2E377C1F, 0x884E8F52, 0x83524BEB, 0xE74EBDBD), w, 26) == Regs(0xFA1D2899, 0x3ECA5F74, 0xCA942C1A, 0x7224827E, 0x6A22C67F);
    assert Round(Regs(0xFA1D2899, 0x3ECA5F74, 0xCA942C1A, 0x7224827E, 0x6A22C67F), 0x8E8E8E8E, 26) == Regs(0x31AB44FD, 0xFA1D2899, 0x0FB297DD, 0xCA942C1A, 0x7224827E);
    assert Compress(Regs(0xDA4968EB, 0x2E377C1F, 0x884E8F52, 0x83524BEB, 0xE74EBDBD), w, 27) == Regs(0x31AB44FD, 0xFA1D2899, 0x0FB297DD, 0xCA942C1A, 0x7224827E);
    assert Round(Regs(0x31AB44FD, 0xFA1D2899, 0x0FB297DD, 0xCA942C1A, 0x7224827E), 0x8E8E8E8E, 27) == Regs(0xE4312FB1, 0x31AB44FD, 0x7E874A26, 0x0FB297DD, 0xCA942C1A);
    assert Compress(Regs(0xDA4968EB, 0x2E377C1F, 0x884E8F52, 0x83524BEB, 0xE74EBDBD), w, 28) == Regs(0xE4312FB1, 0x31AB44FD, 0x7E874A26, 0x0FB297DD, 0xCA942C1A);
    assert Round(Regs(0xE4312FB1, 0x31AB44FD, 0x7E874A26, 0x0FB297DD, 0xCA942C1A), 0x98989898, 28) == Regs(0x98CB3F95, 0xE4312FB1, 0x4C6AD13F, 0x7E874A26, 0x0FB297DD);
    assert Compress(Regs(0xDA4968EB, 0x2E377C1F, 0x884E8F52, 0x83524BEB, 0xE74EBDBD), w, 29) == Regs(0x98CB3F95, 0xE4312FB1, 0x4C6AD13F, 0x7E874A26, 0x0FB297DD);
    assert Round(Regs(0x98CB3F95, 0xE4312FB1, 0x4C6AD13F, 0x7E874A26, 0x0FB297DD), 0x98989898, 29) == Regs(0x0769C371, 0x98CB3F95, 0x790C4BEC, 0x4C6AD13F, 0x7E874A26);
    assert Compress(Regs(0xDA4968EB, 0x2E377C1F, 0x884E8F52, 0x83524BEB, 0xE74EBDBD), w, 30) == Regs(0x0769C371, 0x98CB3F95, 0x790C4BEC, 0x4C6AD13F, 0x7E874A26);
    assert Round(Regs(0x0769C371, 0x98CB3F95, 0x790C4BEC, 0x4C6AD13F, 0x7E874A26), 0x51515151, 30) == Regs(0xD9989A7E, 0x0769C371, 0x6632CFE5, 0x790C4BEC, 0x4C6AD13F);
    assert Compress(Regs(0xDA4968EB, 0x2E377C1F, 0x884E8F52, 0x83524BEB, 0xE74EBDBD), w, 31) == Regs(0xD9989A7E, 0x0769C371, 0x6632CFE5, 0x790C4BEC, 0x4C6AD13F);
    assert Round(Regs(0xD9989A7E, 0x0769C371, 0x6632CFE5, 0x790C4BEC, 0x4C6AD13F), 0x7D7D7D7D, 31) == Regs(0x842CD1B0, 0xD9989A7E, 0x41DA70DC, 0x6632CFE5, 0x790C4BEC);
    assert Compress(Regs(0xDA4968EB, 0x2E377C1F, 0x884E8F52, 0x83524BEB, 0xE74EBDBD), w, 32) == Regs(0x842CD1B0, 0xD9989A7E, 0x41DA70DC, 0x6632CFE5, 0x790C4BEC);
    assert Round(Regs(0x842CD1B0, 0xD9989A7E, 0x41DA70DC, 0x6632CFE5, 0x790C4BEC), 0x3A3A3A3A, 32) == Regs(0xA62ACD1E, 0x842CD1B0, 0xB666269F, 0x41DA70DC, 0x6632CFE5);
    assert Compress(Regs(0xDA4968EB, 0x2E377C1F, 0x884E8F52, 0x83524BEB, 0xE74EBDBD), w, 33) == Regs(0xA62ACD1E, 0x842CD1B0, 0xB666269F, 0x41DA70DC, 0x6632CFE5);
    assert Round(Regs(0xA62ACD1E, 0x842CD1B0, 0xB666269F, 0x41DA70DC, 0x6632CFE5), 0x3A3A3A3A, 33) == Regs(0x48312187, 0xA62ACD1E, 0x210B346C, 0xB666269F, 0x41DA70DC);
    assert Compress(Regs(0xDA4968EB, 0x2E377C1F, 0x884E8F52, 0x83524BEB, 0xE74EBDBD), w, 34) == Regs(0x48312187, 0xA62ACD1E, 0x210B346C, 0xB666269F, 0x41DA70DC);
    assert Round(Regs(0x48312187, 0xA62ACD1E, 0x210B346C, 0xB666269F, 0x41DA70DC), 0x62626262, 34) == Regs(0x4A82CFB5, 0x48312187, 0xA98AB347, 0x210B346C, 0xB666269F);
    assert Compress(Regs(0xDA4968EB, 0x2E377C1F, 0x884E8F52, 0x83524BEB, 0xE74EBDBD), w, 35) == Regs(0x4A82CFB5, 0x48312187, 0xA98AB347, 0x210B346C, 0xB666269F);
    assert Round(Regs(0x4A82CFB5, 0x48312187, 0xA98AB347, 0x210B346C, 0xB666269F), 0x69696969, 35) == Regs(0x9FB418FE, 0x4A82CFB5, 0xD20C4861, 0xA98AB347, 0x210B346C);
    assert Compress(Regs(0xDA4968EB, 0x2E377C1F, 0x884E8F52, 0x83524BEB, 0xE74EBDBD), w, 36) == Regs(0x9FB418FE, 0x4A82CFB5, 0xD20C4861, 0xA98AB347, 0x210B346C);
    assert Round(Regs(0x9FB418FE, 0x4A82CFB5, 0xD20C4861, 0xA98AB347, 0x210B346C), 0x4E4E4E4E, 36) == Regs(0x05BAC2C1, 0x9FB418FE, 0x52A0B3ED, 0xD20C4861, 0xA98AB347);
    assert Compress(Regs(0xDA4968EB, 0x2E377C1F, 0x884E8F52, 0x83524BEB, 0xE74EBDBD), w, 37) == Regs(0x05BAC2C1, 0x9FB418FE, 0x52A0B3ED, 0xD20C4861, 0xA98AB347);
    assert Round(Regs(0x05BAC2C1, 0x9FB418FE, 0x52A0B3ED, 0xD20C4861, 0xA98AB347), 0xFEFEFEFE, 37) == Regs(0xEDD4D978, 0x05BAC2C1, 0xA7ED063F, 0x52A0B3ED, 0xD20C4861);
    assert Compress(Regs(0xDA4968EB, 0x2E377C1F, 0x884E8F52, 0x83524BEB, 0xE74EBDBD), w, 38) == Regs(0xEDD4D978, 0x05BAC2C1, 0xA7ED063F, 0x52A0B3ED, 0xD20C4861);
    assert Round(Regs(0xEDD4D978, 0x05BAC2C1, 0xA7ED063F, 0x52A0B3ED, 0xD20C4861), 0xF5F5F5F5, 38) == Regs(0xE26ED027, 0xEDD4D978, 0x416EB0B0, 0xA7ED063F, 0x52A0B3ED);
    assert Compress(Regs(0xDA4968EB, 0x2E377C1F, 0x884E8F52, 0x83524BEB, 0xE74EBDBD), w, 39) == Regs(0xE26ED027, 0xEDD4D978, 0x416EB0B0, 0xA7ED063F, 0x52A0B3ED);
    assert Round(Regs(0xE26ED027, 0xEDD4D978, 0x416EB0B0, 0xA7ED063F, 0x52A0B3ED), 0xF5F5F5F5, 39) == Regs(0x10A20A76, 0xE26ED027, 0x3B75365E, 0x416EB0B0, 0xA7ED063F);
    assert Compress(Regs(0xDA4968EB, 0x2E377C1F, 0x884E8F52, 0x83524BEB, 0xE74EBDBD), w, 40) == Regs(0x10A20A76, 0xE26ED027, 0x3B75365E, 0x416EB0B0, 0xA7ED063F);
  }

  lemma Letters1Rounds2(w: seq<word>)
    requires |w| == 80
    requires w[40] == 0x9F9F9F9F && w[41] == 0x9F9F9F9F && w[42] == 0x03030303 && w[43] == 0xC1C1C1C1 &&
      w[44] == 0x30303030 && w[45] == 0x30303030 && w[46] == 0xBEBEBEBE && w[47] == 0x05050505 &&
      w[48] == 0xEFEFEFEF && w[49] == 0xE4E4E4E4 && w[50] == 0x54545454 && w[51] == 0x73737373 &&
      w[52] == 0xDEDEDEDE && w[53] == 0xDEDEDEDE && w[54] == 0x4F4F4F4F && w[55] == 0x63636363 &&
      w[56] == 0x5B5B5B5B && w[57] == 0xEBEBEBEB && w[58] == 0x08080808 && w[59] == 0xB3B3B3B3
    requires Compress(Regs(0xDA4968EB, 0x2E377C1F, 0x884E8F52, 0x83524BEB, 0xE74EBDBD), w, 40) == Regs(0x10A20A76, 0xE26ED027, 0x3B75365E, 0x416EB0B0, 0xA7ED063F)
    ensures Compress(Regs(0xDA4968EB, 0x2E377C1F, 0x884E8F52, 0x83524BEB, 0xE74EBDBD), w, 60) == Regs(0x12A16754, 0xB232EBB9, 0x3891F38D, 0x7B45EC9D, 0x330C7E30)
  {
    assert Round(Regs(0x10A20A76, 0xE26ED027, 0x3B75365E, 0x416EB0B0, 0xA7ED063F), 0x9F9F9F9F, 40) == Regs(0x4E5861B2, 0x10A20A76, 0xF89BB409, 0x3B75365E, 0x416EB0B0);
    assert Compress(Regs(0xDA4968EB, 0x2E377C1F, 0x884E8F52, 0x83524BEB, 0xE74EBDBD), w, 41) == Regs(0x4E5861B2, 0x10A20A76, 0xF89BB409, 0x3B75365E, 0x416EB0B0);
    assert Round(Regs(0x4E5861B2, 0x10A20A76, 0xF89BB409, 0x3B75365E, 0x416EB0B0), 0x9F9F9F9F, 41) == Regs(0x73E979D2, 0x4E5861B2, 0x8428829D, 0xF89BB409, 0x3B75365E);
    assert Compress(Regs(0xDA4968EB, 0x2E377C1F, 0x884E8F52, 0x83524BEB, 0xE74EBDBD), w, 42) == Regs(0x73E979D2, 0x4E5861B2, 0x8428829D, 0xF89BB409, 0x3B75365E);
    assert Round(Regs(0x73E979D2, 0x4E5861B2, 0x8428829D, 0xF89BB409, 0x3B75365E), 0x03030303, 42) == Regs(0x16DBD124, 0x73E979D2, 0x9396186C, 0x8428829D, 0xF89BB409);
    assert Compress(Regs(0xDA4968EB, 0x2E377C1F, 0x884E8F52, 0x83524BEB, 0xE74EBDBD), w, 43) == Regs(0x16DBD124, 0x73E979D2, 0x9396186C, 0x8428829D, 0xF89BB409);
    assert Round(Regs(0x16DBD124, 0x73E979D2, 0x9396186C, 0x8428829D, 0xF89BB409), 0xC1C1C1C1, 43) == Regs(0xB89B7004, 0x16DBD124, 0x9CFA5E74, 0x9396186C, 0x8428829D);
    assert Compress(Regs(0xDA4968EB, 0x2E377C1F, 0x884E8F52, 0x83524BEB, 0xE74EBDBD), w, 44) == Regs(0xB89B7004, 0x16DBD124, 0x9CFA5E74, 0x9396186C, 0x8428829D);
    assert Round(Regs(0xB89B7004, 0x16DBD124, 0x9CFA5E74, 0x9396186C, 0x8428829D), 0x30303030, 44) == Regs(0xEDBCC8A4, 0xB89B7004, 0x05B6F449, 0x9CFA5E74, 0x9396186C);
    assert Compress(Regs(0xDA4968EB, 0x2E377C1F, 0x884E8F52, 0x83524BEB, 0xE74EBDBD), w, 45) == Regs(0xEDBCC8A4, 0xB89B7004, 0x05B6F449, 0x9CFA5E74, 0x9396186C);
    assert Round(Regs(0xEDBCC8A4, 0xB89B7004, 0x05B6F449, 0x9CFA5E74, 0x9396186C), 0x30303030, 45) == Regs(0xA7358E59, 0xEDBCC8A4, 0x2E26DC01, 0x05B6F449, 0x9CFA5E74);
    assert Compress(Regs(0xDA4968EB, 0x2E377C1F, 0x884E8F52, 0x83524BEB, 0xE74EBDBD), w, 46) == Regs(0xA7358E59, 0xEDBCC8A4, 0x2E26DC01, 0x05B6F449, 0x9CFA5E74);
    assert Round(Regs(0xA7358E59, 0xEDBCC8A4, 0x2E26DC01, 0x05B6F449, 0x9CFA5E74), 0xBEBEBEBE, 46) == Regs(0xFF3D8143, 0xA7358E59, 0x3B6F3229, 0x2E26DC01, 0x05B6F449);
    assert Compress(Regs(0xDA4968EB, 0x2E377C1F, 0x884E8F52, 0x83524BEB, 0xE74EBDBD), w, 47) == Regs(0xFF3D8143, 0xA7358E59, 0x3B6F3229, 0x2E26DC01, 0x05B6F449);
    assert Round(Regs(0xFF3D8143, 0xA7358E59, 0x3B6F3229, 0x2E26DC01, 0x05B6F449), 0x05050505, 47) == Regs(0xB0AF7CB2, 0xFF3D8143, 0x69CD6396, 0x3B6F3229, 0x2E26DC01);
    assert Compress(Regs(0xDA4968EB, 0x2E377C1F, 0x884E8F52, 0x83524BEB, 0xE74EBDBD), w, 48) == Regs(0xB0AF7CB2, 0xFF3D8143, 0x69CD6396, 0x3B6F3229, 0x2E26DC01);
    assert Round(Regs(0xB0AF7CB2, 0xFF3D8143, 0x69CD6396, 0x3B6F3229, 0x2E26DC01), 0xEFEFEFEF, 48) == Regs(0x3E8F4225, 0xB0AF7CB2, 0xFFCF6050, 0x69CD6396, 0x3B6F3229);
    assert Compress(Regs(0xDA4968EB, 0x2E377C1F, 0x884E8F52, 0x83524BEB, 0xE74EBDBD), w, 49) == Regs(0x3E8F4225, 0xB0AF7CB2, 0xFFCF6050, 0x69CD6396, 0x3B6F3229);
    assert Round(Regs(0x3E8F4225, 0xB0AF7CB2, 0xFFCF6050, 0x69CD6396, 0x3B6F3229), 0xE4E4E4E4, 49) == Regs(0x7B277922, 0x3E8F4225, 0xAC2BDF2C, 0xFFCF6050, 0x69CD6396);
    assert Compress(Regs(0xDA4968EB, 0x2E377C1F, 0x884E8F52, 0x83524BEB, 0xE74EBDBD), w, 50) == Regs(0x7B277922, 0x3E8F4225, 0xAC2BDF2C, 0xFFCF6050, 0x69CD6396);
    assert Round(Regs(0x7B277922, 0x3E8F4225, 0xAC2BDF2C, 0xFFCF6050, 0x69CD6396), 0x54545454, 50) == Regs(0x70BBDB39, 0x7B277922, 0x4FA3D089, 0xAC2BDF2C, 0xFFCF6050);
    assert Compress(Regs(0xDA4968EB, 0x2E377C1F, 0x884E8F52, 0x83524BEB, 0xE74EBDBD), w, 51) == Regs(0x70BBDB39, 0x7B277922, 0x4FA3D089, 0xAC2BDF2C, 0xFFCF6050);
    assert Round(Regs(0x70BBDB39, 0x7B277922, 0x4FA3D089, 0xAC2BDF2C, 0xFFCF6050), 0x73737373, 51) == Regs(0x88FDD0F5, 0x70BBDB39, 0x9EC9DE48, 0x4FA3D089, 0xAC2BDF2C);
    assert Compress(Regs(0xDA4968EB, 0x2E377C1F, 0x884E8F52, 0x83524BEB, 0xE74EBDBD), w, 52) == Regs(0x88FDD0F5, 0x70BBDB39, 0x9EC9DE48, 0x4FA3D089, 0xAC2BDF2C);
    assert Round(Regs(0x88FDD0F5, 0x70BBDB39, 0x9EC9DE48, 0x4FA3D089, 0xAC2BDF2C), 0xDEDEDEDE, 52) == Regs(0x988C73A0, 0x88FDD0F5, 0x5C2EF6CE, 0x9EC9DE48, 0x4FA3D089);
    assert Compress(Regs(0xDA4968EB, 0x2E377C1F, 0x884E8F52, 0x83524BEB, 0xE74EBDBD), w, 53) == Regs(0x988C73A0, 0x88FDD0F5, 0x5C2EF6CE, 0x9EC9DE48, 0x4FA3D089);
    assert Round(Regs(0x988C73A0, 0x88FDD0F5, 0x5C2EF6CE, 0x9EC9DE48, 0x4FA3D089), 0xDEDEDEDE, 53) == Regs(0x6C1AB722, 0x988C73A0, 0x623F743D, 0x5C2EF6CE, 0x9EC9DE48);
    assert Compress(Regs(0xDA4968EB, 0x2E377C1F, 0x884E8F52, 0x83524BEB, 0xE74EBDBD), w, 54) == Regs(0x6C1AB722, 0x988C73A0, 0x623F743D, 0x5C2EF6CE, 0x9EC9DE48);
    assert Round(Regs(0x6C1AB722, 0x988C73A0, 0x623F743D, 0x5C2EF6CE, 0x9EC9DE48), 0x4F4F4F4F, 54) == Regs(0x58BA456C, 0x6C1AB722, 0x26231CE8, 0x623F743D, 0x5C2EF6CE);
    assert Compress(Regs(0xDA4968EB, 0x2E377C1F, 0x884E8F52, 0x83524BEB, 0xE74EBDBD), w, 55) == Regs(0x58BA456C, 0x6C1AB722, 0x26231CE8, 0x623F743D, 0x5C2EF6CE);
    assert Round(Regs(0x58BA456C, 0x6C1AB722, 0x26231CE8, 0x623F743D, 0x5C2EF6CE), 0x63636363, 55) == Regs(0xCC31F8C0, 0x58BA456C, 0x9B06ADC8, 0x26231CE8, 0x623F743D);
    assert Compress(Regs(0xDA4968EB, 0x2E377C1F, 0x884E8F52, 0x83524BEB, 0xE74EBDBD), w, 56) == Regs(0xCC31F8C0, 0x58BA456C, 0x9B06ADC8, 0x26231CE8, 0x623F743D);
    assert Round(Regs(0xCC31F8C0, 0x58BA456C, 0x9B06ADC8, 0x26231CE8, 0x623F743D), 0x5B5B5B5B, 56) == Regs(0xED17B275, 0xCC31F8C0, 0x162E915B, 0x9B06ADC8, 0x26231CE8);
    assert Compress(Regs(0xDA4968EB, 0x2E377C1F, 0x884E8F52, 0x83524BEB, 0xE74EBDBD), w, 57) == Regs(0xED17B275, 0xCC31F8C0, 0x162E915B, 0x9B06ADC8, 0x26231CE8);
    assert Round(Regs(0xED17B275, 0xCC31F8C0, 0x162E915B, 0x9B06ADC8, 0x26231CE8), 0xEBEBEBEB, 57) == Regs(0xE247CE34, 0xED17B275, 0x330C7E30, 0x162E915B, 0x9B06ADC8);
    assert Compress(Regs(0xDA4968EB, 0x2E377C1F, 0x884E8F52, 0x83524BEB, 0xE74EBDBD), w, 58) == Regs(0xE247CE34, 0xED17B275, 0x330C7E30, 0x162E915B, 0x9B06ADC8);
    assert Round(Regs(0xE247CE34, 0xED17B275, 0x330C7E30, 0x162E915B, 0x9B06ADC8), 0x08080808, 58) == Regs(0xB232EBB9, 0xE247CE34, 0x7B45EC9D, 0x330C7E30, 0x162E915B);
    assert Compress(Regs(0xDA4968EB, 0x2E377C1F, 0x884E8F52, 0x83524BEB, 0xE74EBDBD), w, 59) == Regs(0xB232EBB9, 0xE247CE34, 0x7B45EC9D, 0x330C7E30, 0x162E915B);
    assert Round(Regs(0xB232EBB9, 0xE247CE34, 0x7B45EC9D, 0x330C7E30, 0x162E915B), 0xB3B3B3B3, 59) == Regs(0x12A16754, 0xB232EBB9, 0x3891F38D, 0x7B45EC9D, 0x330C7E30);
    assert Compress(Regs(0xDA4968EB, 0x2E377C1F, 0x884E8F52, 0x83524BEB, 0xE74EBDBD), w, 60) == Regs(0x12A16754, 0xB232EBB9, 0x3891F38D, 0x7B45EC9D, 0x330C7E30);
  }

  lemma Letters1Rounds3(w: seq<word>)
    requires |w| == 80
    requires w[60] == 0x77777777 && w[61] == 0xC7C7C7C7 && w[62] == 0x5B5B5B5B && w[63] == 0xEBEBEBEB &&
      w[64] == 0x4E4E4E4E && w[65] == 0x4E4E4E4E && w[66] == 0xD2D2D2D2 && w[67] == 0xA0A0A0A0 &&
      w[68] == 0x51515151 && w[69] == 0x51515151 && w[70] == 0xDFDFDFDF && w[71] == 0x64646464 &&
      w[72] == 0x98989898 && w[73] == 0x93939393 && w[74] == 0x93939393 && w[75] == 0x98989898 &&
      w[76] == 0xDDDDDDDD && w[77] == 0xDDDDDDDD && w[78] == 0xA4A4A4A4 && w[79] == 0x38383838
    requires Compress(Regs(0xDA4968EB, 0x2E377C1F, 0x884E8F52, 0x83524BEB, 0xE74EBDBD), w, 60) == Regs(0x12A16754, 0xB232EBB9, 0x3891F38D, 0x7B45EC9D, 0x330C7E30)
    ensures Compress(Regs(0xDA4968EB, 0x2E377C1F, 0x884E8F52, 0x83524BEB, 0xE74EBDBD), w, 80) == Regs(0x3156C05E, 0xB039AC19, 0xE04FE793, 0x0509AC96, 0x306B7687)
  {
    assert Round(Regs(0x12A16754, 0xB232EBB9, 0x3891F38D, 0x7B45EC9D, 0x330C7E30), 0x77777777, 60) == Regs(0xBAFA96A8, 0x12A16754, 0x6C8CBAEE, 0x3891F38D, 0x7B45EC9D);
    assert Compress(Regs(0xDA4968EB, 0x2E377C1F, 0x884E8F52, 0x83524BEB, 0xE74EBDBD), w, 61) == Regs(0xBAFA96A8, 0x12A16754, 0x6C8CBAEE, 0x3891F38D, 0x7B45EC9D);
    assert Round(Regs(0xBAFA96A8, 0x12A16754, 0x6C8CBAEE, 0x3891F38D, 0x7B45EC9D), 0xC7C7C7C7, 61) == Regs(0xB37F7988, 0xBAFA96A8, 0x04A859D5, 0x6C8CBAEE, 0x3891F38D);
    assert Compress(Regs(0xDA4968EB, 0x2E377C1F, 0x884E8F52, 0x83524BEB, 0xE74EBDBD), w, 62) == Regs(0xB37F7988, 0xBAFA96A8, 0x04A859D5, 0x6C8CBAEE, 0x3891F38D);
    assert Round(Regs(0xB37F7988, 0xBAFA96A8, 0x04A859D5, 0x6C8CBAEE, 0x3891F38D), 0x5B5B5B5B, 62) == Regs(0xA11DB767, 0xB37F7988, 0x2EBEA5AA, 0x04A859D5, 0x6C8CBAEE);
    assert Compress(Regs(0xDA4968EB, 0x2E377C1F, 0x884E8F52, 0x83524BEB, 0xE74EBDBD), w, 63) == Regs(0xA11DB767, 0xB37F7988, 0x2EBEA5AA, 0x04A859D5, 0x6C8CBAEE);
    assert Round(Regs(0xA11DB767, 0xB37F7988, 0x2EBEA5AA, 0x04A859D5, 0x6C8CBAEE), 0xEBEBEBEB, 63) == Regs(0xDFFBDB9A, 0xA11DB767, 0x2CDFDE62, 0x2EBEA5AA, 0x04A859D5);
    assert Compress(Regs(0xDA4968EB, 0x2E377C1F, 0x884E8F52, 0x83524BEB, 0xE74EBDBD), w, 64) == Regs(0xDFFBDB9A, 0xA11DB767, 0x2CDFDE62, 0x2EBEA5AA, 0x04A859D5);
    assert Round(Regs(0xDFFBDB9A, 0xA11DB767, 0x2CDFDE62, 0x2EBEA5AA, 0x04A859D5), 0x4E4E4E4E, 64) == Regs(0xC051AA03, 0xDFFBDB9A, 0xE8476DD9, 0x2CDFDE62, 0x2EBEA5AA);
    assert Compress(Regs(0xDA4968EB, 0x2E377C1F, 0x884E8F52, 0x83524BEB, 0xE74EBDBD), w, 65) == Regs(0xC051AA03, 0xDFFBDB9A, 0xE8476DD9, 0x2CDFDE62, 0x2EBEA5AA);
    assert Round(Regs(0xC051AA03, 0xDFFBDB9A, 0xE8476DD9, 0x2CDFDE62, 0x2EBEA5AA), 0x4E4E4E4E, 65) == Regs(0x6D085E67, 0xC051AA03, 0xB7FEF6E6, 0xE8476DD9, 0x2CDFDE62);
    assert Compress(Regs(0xDA4968EB, 0x2E377C1F, 0x884E8F52, 0x83524BEB, 0xE74EBDBD), w, 66) == Regs(0x6D085E67, 0xC051AA03, 0xB7FEF6E6, 0xE8476DD9, 0x2CDFDE62);
    assert Round(Regs(0x6D085E67, 0xC051AA03, 0xB7FEF6E6, 0xE8476DD9, 0x2CDFDE62), 0xD2D2D2D2, 66) == Regs(0x0B097133, 0x6D085E67, 0xF0146A80, 0xB7FEF6E6, 0xE8476DD9);
    assert Compress(Regs(0xDA4968EB, 0x2E377C1F, 0x884E8F52, 0x83524BEB, 0xE74EBDBD), w, 67) == Regs(0x0B097133, 0x6D085E67, 0xF0146A80, 0xB7FEF6E6, 0xE8476DD9);
    assert Round(Regs(0x0B097133, 0x6D085E67, 0xF0146A80, 0xB7FEF6E6, 0xE8476DD9), 0xA0A0A0A0, 67) == Regs(0xDF5BB8B1, 0x0B097133, 0xDB421799, 0xF0146A80, 0xB7FEF6E6);
    assert Compress(Regs(0xDA4968EB, 0x2E377C1F, 0x884E8F52, 0x83524BEB, 0xE74EBDBD), w, 68) == Regs(0xDF5BB8B1, 0x0B097133, 0xDB421799, 0xF0146A80, 0xB7FEF6E6);
    assert Round(Regs(0xDF5BB8B1, 0x0B097133, 0xDB421799, 0xF0146A80, 0xB7FEF6E6), 0x51515151, 68) == Regs(0xDF892C72, 0xDF5BB8B1, 0xC2C25C4C, 0xDB421799, 0xF0146A80);
    assert Compress(Regs(0xDA4968EB, 0x2E377C1F, 0x884E8F52, 0x83524BEB, 0xE74EBDBD), w, 69) == Regs(0xDF892C72, 0xDF5BB8B1, 0xC2C25C4C, 0xDB421799, 0xF0146A80);
    assert Round(Regs(0xDF892C72, 0xDF5BB8B1, 0xC2C25C4C, 0xDB421799, 0xF0146A80), 0x51515151, 69) == Regs(0xC3C9FF66, 0xDF892C72, 0x77D6EE2C, 0xC2C25C4C, 0xDB421799);
    assert Compress(Regs(0xDA4968EB, 0x2E377C1F, 0x884E8F52, 0x83524BEB, 0xE74EBDBD), w, 70) == Regs(0xC3C9FF66, 0xDF892C72, 0x77D6EE2C, 0xC2C25C4C, 0xDB421799);
    assert Round(Regs(0xC3C9FF66, 0xDF892C72, 0x77D6EE2C, 0xC2C25C4C, 0xDB421799), 0xDFDFDFDF, 70) == Regs(0x69624438, 0xC3C9FF66, 0xB7E24B1C, 0x77D6EE2C, 0xC2C25C4C);
    assert Compress(Regs(0xDA4968EB, 0x2E377C1F, 0x884E8F52, 0x83524BEB, 0xE74EBDBD), w, 71) == Regs(0x69624438, 0xC3C9FF66, 0xB7E24B1C, 0x77D6EE2C, 0xC2C25C4C);
    assert Round(Regs(0x69624438, 0xC3C9FF66, 0xB7E24B1C, 0x77D6EE2C, 0xC2C25C4C), 0x64646464, 71) == Regs(0x21CF63E9, 0x69624438, 0xB0F27FD9, 0xB7E24B1C, 0x77D6EE2C);
    assert Compress(Regs(0xDA4968EB, 0x2E377C1F, 0x884E8F52, 0x83524BEB, 0xE74EBDBD), w, 72) == Regs(0x21CF63E9, 0x69624438, 0xB0F27FD9, 0xB7E24B1C, 0x77D6EE2C);
    assert Round(Regs(0x21CF63E9, 0x69624438, 0xB0F27FD9, 0xB7E24B1C, 0x77D6EE2C), 0x98989898, 72) == Regs(0x833136BB, 0x21CF63E9, 0x1A58910E, 0xB0F27FD9, 0xB7E24B1C);
    assert Compress(Regs(0xDA4968EB, 0x2E377C1F, 0x884E8F52, 0x83524BEB, 0xE74EBDBD), w, 73) == Regs(0x833136BB, 0x21CF63E9, 0x1A58910E, 0xB0F27FD9, 0xB7E24B1C);
    assert Round(Regs(0x833136BB, 0x21CF63E9, 0x1A58910E, 0xB0F27FD9, 0xB7E24B1C), 0x93939393, 73) == Regs(0x07650533, 0x833136BB, 0x4873D8FA, 0x1A58910E, 0xB0F27FD9);
    assert Compress(Regs(0xDA4968EB, 0x2E377C1F, 0x884E8F52, 0x83524BEB, 0xE74EBDBD), w, 74) == Regs(0x07650533, 0x833136BB, 0x4873D8FA, 0x1A58910E, 0xB0F27FD9);
    assert Round(Regs(0x07650533, 0x833136BB, 0x4873D8FA, 0x1A58910E, 0xB0F27FD9), 0x93939393, 74) == Regs(0xCCA3FAF1, 0x07650533, 0xE0CC4DAE, 0x4873D8FA, 0x1A58910E);
    assert Compress(Regs(0xDA4968EB, 0x2E377C1F, 0x884E8F52, 0x83524BEB, 0xE74EBDBD), w, 75) == Regs(0xCCA3FAF1, 0x07650533, 0xE0CC4DAE, 0x4873D8FA, 0x1A58910E);
    assert Round(Regs(0xCCA3FAF1, 0x07650533, 0xE0CC4DAE, 0x4873D8FA, 0x1A58910E), 0x98989898, 75) == Regs(0xC1ADDA1C, 0xCCA3FAF1, 0xC1D9414C, 0xE0CC4DAE, 0x4873D8FA);
    assert Compress(Regs(0xDA4968EB, 0x2E377C1F, 0x884E8F52, 0x83524BEB, 0xE74EBDBD), w, 76) == Regs(0xC1ADDA1C, 0xCCA3FAF1, 0xC1D9414C, 0xE0CC4DAE, 0x4873D8FA);
    assert Round(Regs(0xC1ADDA1C, 0xCCA3FAF1, 0xC1D9414C, 0xE0CC4DAE, 0x4873D8FA), 0xDDDDDDDD, 76) == Regs(0x1426B258, 0xC1ADDA1C, 0x7328FEBC, 0xC1D9414C, 0xE0CC4DAE);
    assert Compress(Regs(0xDA4968EB, 0x2E377C1F, 0x884E8F52, 0x83524BEB, 0xE74EBDBD), w, 77) == Regs(0x1426B258, 0xC1ADDA1C, 0x7328FEBC, 0xC1D9414C, 0xE0CC4DAE);
    assert Round(Regs(0x1426B258, 0xC1ADDA1C, 0x7328FEBC, 0xC1D9414C, 0xE0CC4DAE), 0xDDDDDDDD, 77) == Regs(0x813F9E4F, 0x1426B258, 0x306B7687, 0x7328FEBC, 0xC1D9414C);
    assert Compress(Regs(0xDA4968EB, 0x2E377C1F, 0x884E8F52, 0x83524BEB, 0xE74EBDBD), w, 78) == Regs(0x813F9E4F, 0x1426B258, 0x306B7687, 0x7328FEBC, 0xC1D9414C);
    assert Round(Regs(0x813F9E4F, 0x1426B258, 0x306B7687, 0x7328FEBC, 0xC1D9414C), 0xA4A4A4A4, 78) == Regs(0xB039AC19, 0x813F9E4F, 0x0509AC96, 0x306B7687, 0x7328FEBC);
    assert Compress(Regs(0xDA4968EB, 0x2E377C1F, 0x884E8F52, 0x83524BEB, 0xE74EBDBD), w, 79) == Regs(0xB039AC19, 0x813F9E4F, 0x0509AC96, 0x306B7687, 0x7328FEBC);
    assert Round(Regs(0xB039AC19, 0x813F9E4F, 0x0509AC96, 0x306B7687, 0x7328FEBC), 0x38383838, 79) == Regs(0x3156C05E, 0xB039AC19, 0xE04FE793, 0x0509AC96, 0x306B7687);
    assert Compress(Regs(0xDA4968EB, 0x2E377C1F, 0x884E8F52, 0x83524BEB, 0xE74EBDBD), w, 80) == Regs(0x3156C05E, 0xB039AC19, 0xE04FE793, 0x0509AC96, 0x306B7687);
  }

  /** With the feed-forward, the second block starts from `H` plus the first block's registers. */
  lemma Letters1Compress(words: seq<word>)
    requires |words| == 16
    requires words[0] == 0x61616161 && words[1] == 0x61616161 && words[2] == 0x61616161 && words[3] == 0x61616161 &&
      words[4] == 0x61616161 && words[5] == 0x61616161 && words[6] == 0x61616161 && words[7] == 0x61616161 &&
      words[8] == 0x61616161 && words[9] == 0x61616161 && words[10] == 0x61616161 && words[11] == 0x61616161 &&
      words[12] == 0x61616161 && words[13] == 0x61616161 && words[14] == 0x61616161 && words[15] == 0x61616161
    ensures Compress(Regs(0xDA4968EB, 0x2E377C1F, 0x884E8F52, 0x83524BEB, 0xE74EBDBD), Schedule(words), 80) == Regs(0x3156C05E, 0xB039AC19, 0xE04FE793, 0x0509AC96, 0x306B7687)
  {
    var w := Schedule(words);
    ScheduleIsSchedule(words);
    forall j | 0 <= j < 16
      ensures w[j] == words[j]
    {
      assert w[..16][j] == w[j];
    }
    LettersSchedule0(w);
    LettersSchedule1(w);
    LettersSchedule2(w);
    LettersSchedule3(w);
    Letters1Rounds0(w);
    Letters1Rounds1(w);
    Letters1Rounds2(w);
    Letters1Rounds3(w);
  }

  lemma LettersPadSchedule0(w: seq<word>)
    requires |w| == 80 && forall i :: 16 <= i < 80 ==> Follows(w, i)
    requires w[0] == 0x80000000 && w[1] == 0x00000000 && w[2] == 0x00000000 && w[3] == 0x00000000 &&
      w[4] == 0x00000000 && w[5] == 0x00000000 && w[6] == 0x00000000 && w[7] == 0x00000000 &&
      w[8] == 0x00000000 && w[9] == 0x00000000 && w[10] == 0x00000000 && w[11] == 0x00000000 &&
      w[12] == 0x00000000 && w[13] == 0x00000000 && w[14] == 0x00000000 && w[15] == 0x00000400
    ensures w[16] == 0x00000001 && w[17] == 0x00000000 && w[18] == 0x00000800 && w[19] == 0x00000002 &&
      w[20] == 0x00000000 && w[21] == 0x00001000 && w[22] == 0x00000004 && w[23] == 0x00000800 &&
      w[24] == 0x00002002 && w[25] == 0x00000008 && w[26] == 0x00000000 && w[27] == 0x00004000 &&
      w[28] == 0x00000010 && w[29] == 0x00002800 && w[30] == 0x0000800A && w[31] == 0x00001820
  {
    assert Follows(w, 16);
    assert Follows(w, 17);
    assert Follows(w, 18);
    assert Follows(w, 19);
    assert Follows(w, 20);
    assert Follows(w, 21);
    assert Follows(w, 22);
    assert Follows(w, 23);
    assert Follows(w, 24);
    assert Follows(w, 25);
    assert Follows(w, 26);
    assert Follows(w, 27);
    assert Follows(w, 28);
    assert Follows(w, 29);
    assert Follows(w, 30);
    assert Follows(w, 31);
  }

  lemma LettersPadSchedule1(w: seq<word>)
    requires |w| == 80 && forall i :: 16 <= i < 80 ==> Follows(w, i)
    requires w[16] == 0x00000001 && w[17] == 0x00000000 && w[18] == 0x00000800 && w[19] == 0x00000002 &&
      w[20] == 0x00000000 && w[21] == 0x00001000 && w[22] == 0x00000004 && w[23] == 0x00000800 &&
      w[24] == 0x00002002 && w[25] == 0x00000008 && w[26] == 0x00000000 && w[27] == 0x00004000 &&
      w[28] == 0x00000010 && w[29] == 0x00002800 && w[30] == 0x0000800A && w[31] == 0x00001820
    ensures w[32] == 0x00000006 && w[33] == 0x00010000 && w[34] == 0x00002040 && w[35] == 0x0000A008 &&
      w[36] == 0x00020028 && w[37] == 0x00002080 && w[38] == 0x00000008 && w[39] == 0x00042000 &&
      w[40] == 0x00000108 && w[41] == 0x00028000 && w[42] == 0x000800A0 && w[43] == 0x00019200 &&
      w[44] == 0x00000064 && w[45] == 0x00102000 && w[46] == 0x00022408 && w[47] == 0x000A7088
  {
    assert Follows(w, 32);
    assert Follows(w, 33);
    assert Follows(w, 34);
    assert Follows(w, 35);
    assert Follows(w, 36);
    assert Follows(w, 37);
    assert Follows(w, 38);
    assert Follows(w, 39);
    assert Follows(w, 40);
    assert Follows(w, 41);
    assert Follows(w, 42);
    assert Follows(w, 43);
    assert Follows(w, 44);
    assert Follows(w, 45);
    assert Follows(w, 46);
    assert Follows(w, 47);
  }

  lemma LettersPadSchedule2(w: seq<word>)
    requires |w| == 80 && forall i :: 16 <= i < 80 ==> Follows(w, i)
    requires w[32] == 0x00000006 && w[33] == 0x00010000 && w[34] == 0x00002040 && w[35] == 0x0000A008 &&
      w[36] == 0x00020028 && w[37] == 0x00002080 && w[38] == 0x00000008 && w[39] == 0x00042000 &&
      w[40] == 0x00000108 && w[41] == 0x00028000 && w[42] == 0x000800A0 && w[43] == 0x00019200 &&
      w[44] == 0x00000064 && w[45] == 0x00102000 && w[46] == 0x00022408 && w[47] == 0x000A7088
    ensures w[48] == 0x0020029C && w[49] == 0x00020800 && w[50] == 0x0000A080 && w[51] == 0x00422028 &&
      w[52] == 0x00001088 && w[53] == 0x00290000 && w[54] == 0x00800A40 && w[55] == 0x00198000 &&
      w[56] == 0x00020668 && w[57] == 0x01022080 && w[58] == 0x00224088 && w[59] == 0x00A32880 &&
      w[60] == 0x020028C8 && w[61] == 0x00222000 && w[62] == 0x000208A8 && w[63] == 0x0423A080
  {
    assert Follows(w, 48);
    assert Follows(w, 49);
    assert Follows(w, 50);
    assert Follows(w, 51);
    assert Follows(w, 52);
    assert Follows(w, 53);
    assert Follows(w, 54);
    assert Follows(w, 55);
    assert Follows(w, 56);
    assert Follows(w, 57);
    assert Follows(w, 58);
    assert Follows(w, 59);
    assert Follows(w, 60);
    assert Follows(w, 61);
    assert Follows(w, 62);
    assert Follows(w, 63);
  }

  lemma LettersPadSchedule3(w: seq<word>)
    requires |w| == 80 && forall i :: 16 <= i < 80 ==> Follows(w, i)
    requires w[48] == 0x0020029C && w[49] == 0x00020800 && w[50] == 0x0000A080 && w[51] == 0x00422028 &&
      w[52] == 0x00001088 && w[53] == 0x00290000 && w[54] == 0x00800A40 && w[55] == 0x00198000 &&
      w[56] == 0x00020668 && w[57] == 0x01022080 && w[58] == 0x00224088 && w[59] == 0x00A32880 &&
      w[60] == 0x020028C8 && w[61] == 0x00222000 && w[62] == 0x000208A8 && w[63] == 0x0423A080
    ensures w[64] == 0x000108E8 && w[65] == 0x02800000 && w[66] == 0x0802A000 && w[67] == 0x01920080 &&
      w[68] == 0x00006400 && w[69] == 0x10200000 && w[70] == 0x02240800 && w[71] == 0x0A70C800 &&
      w[72] == 0x20029C10 && w[73] == 0x020A0000 && w[74] == 0x00A00080 && w[75] == 0x42232820 &&
      w[76] == 0x001088C0 && w[77] == 0x29030000 && w[78] == 0x800840C0 && w[79] == 0x1987C080
  {
    assert Follows(w, 64);
    assert Follows(w, 65);
    assert Follows(w, 66);
    assert Follows(w, 67);
    assert Follows(w, 68);
    assert Follows(w, 69);
    assert Follows(w, 70);
    assert Follows(w, 71);
    assert Follows(w, 72);
    assert Follows(w, 73);
    assert Follows(w, 74);
    assert Follows(w, 75);
    assert Follows(w, 76);
    assert Follows(w, 77);
    assert Follows(w, 78);
    assert Follows(w, 79);
  }

  lemma LettersPadRounds0(w: seq<word>)
    requires |w| == 80
    requires w[0] == 0x80000000 && w[1] == 0x00000000 && w[2] == 0x00000000 && w[3] == 0x00000000 &&
      w[4] == 0x00000000 && w[5] == 0x00000000 && w[6] == 0x00000000 && w[7] == 0x00000000 &&
      w[8] == 0x00000000 && w[9] == 0x00000000 && w[10] == 0x00000000 && w[11] == 0x00000000 &&
      w[12] == 0x00000000 && w[13] == 0x00000000 && w[14] == 0x00000000 && w[15] == 0x00000400 &&
      w[16] == 0x00000001 && w[17] == 0x00000000 && w[18] == 0x00000800 && w[19] == 0x00000002
    requires Compress(Regs(0x0BA02949, 0xDE712838, 0x689E76E5, 0x885BF881, 0x17BA3444), w, 0) == Regs(0x0BA02949, 0xDE712838, 0x689E76E5, 0x885BF881, 0x17BA3444)
    ensures Compress(Regs(0x0BA02949, 0xDE712838, 0x689E76E5, 0x885BF881, 0x17BA3444), w, 20) == Regs(0x64C90FCB, 0x0DA6096F, 0x7A320320, 0x9AA9145F, 0xFEF3BD23)
  {
    assert Round(Regs(0x0BA02949, 0xDE712838, 0x689E76E5, 0x885BF881, 0x17BA3444), 0x80000000, 0) == Regs(0xAE5CC79F, 0x0BA02949, 0x379C4A0E, 0x689E76E5, 0x885BF881);
    assert Compress(Regs(0x0BA02949, 0xDE712838, 0x689E76E5, 0x885BF881, 0x17BA3444), w, 1) == Regs(0xAE5CC79F, 0x0BA02949, 0x379C4A0E, 0x689E76E5, 0x885BF881);
    assert Round(Regs(0xAE5CC79F, 0x0BA02949, 0x379C4A0E, 0x689E76E5, 0x885BF881), 0x00000000, 1) == Regs(0x1215C4BB, 0xAE5CC79F, 0x42E80A52, 0x379C4A0E, 0x689E76E5);
    assert Compress(Regs(0x0BA02949, 0xDE712838, 0x689E76E5, 0x885BF881, 0x17BA3444), w, 2) == Regs(0x1215C4BB, 0xAE5CC79F, 0x42E80A52, 0x379C4A0E, 0x689E76E5);
    assert Round(Regs(0x1215C4BB, 0xAE5CC79F, 0x42E80A52, 0x379C4A0E, 0x689E76E5), 0x00000000, 2) == Regs(0x19A191F2, 0x1215C4BB, 0xEB9731E7, 0x42E80A52, 0x379C4A0E);
    assert Compress(Regs(0x0BA02949, 0xDE712838, 0x689E76E5, 0x885BF881, 0x17BA3444), w, 3) == Regs(0x19A191F2, 0x1215C4BB, 0xEB9731E7, 0x42E80A52, 0x379C4A0E);
    assert Round(Regs(0x19A191F2, 0x1215C4BB, 0xEB9731E7, 0x42E80A52, 0x379C4A0E), 0x00000000, 3) == Regs(0x094E0CCD, 0x19A191F2, 0xC485712E, 0xEB9731E7, 0x42E80A52);
    assert Compress(Regs(0x0BA02949, 0xDE712838, 0x689E76E5, 0x885BF881, 0x17BA3444), w, 4) == Regs(0x094E0CCD, 0x19A191F2, 0xC485712E, 0xEB9731E7, 0x42E80A52);
    assert Round(Regs(0x094E0CCD, 0x19A191F2, 0xC485712E, 0xEB9731E7, 0x42E80A52), 0x00000000, 4) == Regs(0xA9C34EB3, 0x094E0CCD, 0x8668647C, 0xC485712E, 0xEB9731E7);
    assert Compress(Regs(0x0BA02949, 0xDE712838, 0x689E76E5, 0x885BF881, 0x17BA3444), w, 5) == Regs(0xA9C34EB3, 0x094E0CCD, 0x8668647C, 0xC485712E, 0xEB9731E7);
    assert Round(Regs(0xA9C34EB3, 0x094E0CCD, 0x8668647C, 0xC485712E, 0xEB9731E7), 0x00000000, 5) == Regs(0x434CF763, 0xA9C34EB3, 0x42538333, 0x8668647C, 0xC485712E);
    assert Compress(Regs(0x0BA02949, 0xDE712838, 0x689E76E5, 0x885BF881, 0x17BA3444), w, 6) == Regs(0x434CF763, 0xA9C34EB3, 0x42538333, 0x8668647C, 0xC485712E);
    assert Round(Regs(0x434CF763, 0xA9C34EB3, 0x42538333, 0x8668647C, 0xC485712E), 0x00000000, 6) == Regs(0x8F11F9AE, 0x434CF763, 0xEA70D3AC, 0x42538333, 0x8668647C);
    assert Compress(Regs(0x0BA02949, 0xDE712838, 0x689E76E5, 0x885BF881, 0x17BA3444), w, 7) == Regs(0x8F11F9AE, 0x434CF763, 0xEA70D3AC, 0x42538333, 0x8668647C);
    assert Round(Regs(0x8F11F9AE, 0x434CF763, 0xEA70D3AC, 0x42538333, 0x8668647C), 0x00000000, 7) == Regs(0x057DE716, 0x8F11F9AE, 0xD0D33DD8, 0xEA70D3AC, 0x42538333);
    assert Compress(Regs(0x0BA02949, 0xDE712838, 0x689E76E5, 0x885BF881, 0x17BA3444), w, 8) == Regs(0x057DE716, 0x8F11F9AE, 0xD0D33DD8, 0xEA70D3AC, 0x42538333);
    assert Round(Regs(0x057DE716, 0x8F11F9AE, 0xD0D33DD8, 0xEA70D3AC, 0x42538333), 0x00000000, 8) == Regs(0x2D041B14, 0x057DE716, 0xA3C47E6B, 0xD0D33DD8, 0xEA70D3AC);
    assert Compress(Regs(0x0BA02949, 0xDE712838, 0x689E76E5, 0x885BF881, 0x17BA3444), w, 9) == Regs(0x2D041B14, 0x057DE716, 0xA3C47E6B, 0xD0D33DD8, 0xEA70D3AC);
    assert Round(Regs(0x2D041B14, 0x057DE716, 0xA3C47E6B, 0xD0D33DD8, 0xEA70D3AC), 0x00000000, 9) == Regs(0xB73D2E94, 0x2D041B14, 0x815F79C5, 0xA3C47E6B, 0xD0D33DD8);
    assert Compress(Regs(0x0BA02949, 0xDE712838, 0x689E76E5, 0x885BF881, 0x17BA3444), w, 10) == Regs(0xB73D2E94, 0x2D041B14, 0x815F79C5, 0xA3C47E6B, 0xD0D33DD8);
    assert Round(Regs(0xB73D2E94, 0x2D041B14, 0x815F79C5, 0xA3C47E6B, 0xD0D33DD8), 0x00000000, 10) == Regs(0x96C00776, 0xB73D2E94, 0x0B4106C5, 0x815F79C5, 0xA3C47E6B);
    assert Compress(Regs(0x0BA02949, 0xDE712838, 0x689E76E5, 0x885BF881, 0x17BA3444), w, 11) == Regs(0x96C00776, 0xB73D2E94, 0x0B4106C5, 0x815F79C5, 0xA3C47E6B);
    assert Round(Regs(0x96C00776, 0xB73D2E94, 0x0B4106C5, 0x815F79C5, 0xA3C47E6B), 0x00000000, 11) == Regs(0xD98B3E9B, 0x96C00776, 0x2DCF4BA5, 0x0B4106C5, 0x815F79C5);
    assert Compress(Regs(0x0BA02949, 0xDE712838, 0x689E76E5, 0x885BF881, 0x17BA3444), w, 12) == Regs(0xD98B3E9B, 0x96C00776, 0x2DCF4BA5, 0x0B4106C5, 0x815F79C5);
    assert Round(Regs(0xD98B3E9B, 0x96C00776, 0x2DCF4BA5, 0x0B4106C5, 0x815F79C5), 0x00000000, 12) == Regs(0x1B0ACA7E, 0xD98B3E9B, 0xA5B001DD, 0x2DCF4BA5, 0x0B4106C5);
    assert Compress(Regs(0x0BA02949, 0xDE712838, 0x689E76E5, 0x885BF881, 0x17BA3444), w, 13) == Regs(0x1B0ACA7E, 0xD98B3E9B, 0xA5B001DD, 0x2DCF4BA5, 0x0B4106C5);
    assert Round(Regs(0x1B0ACA7E, 0xD98B3E9B, 0xA5B001DD, 0x2DCF4BA5, 0x0B4106C5), 0x00000000, 13) == Regs(0x6CE111DE, 0x1B0ACA7E, 0xF662CFA6, 0xA5B001DD, 0x2DCF4BA5);
    assert Compress(Regs(0x0BA02949, 0xDE712838, 0x689E76E5, 0x885BF881, 0x17BA3444), w, 14) == Regs(0x6CE111DE, 0x1B0ACA7E, 0xF662CFA6, 0xA5B001DD, 0x2DCF4BA5);
    assert Round(Regs(0x6CE111DE, 0x1B0ACA7E, 0xF662CFA6, 0xA5B001DD, 0x2DCF4BA5), 0x00000000, 14) == Regs(0xDB26CCB2, 0x6CE111DE, 0x86C2B29F, 0xF662CFA6, 0xA5B001DD);
    assert Compress(Regs(0x0BA02949, 0xDE712838, 0x689E76E5, 0x885BF881, 0x17BA3444), w, 15) == Regs(0xDB26CCB2, 0x6CE111DE, 0x86C2B29F, 0xF662CFA6, 0xA5B001DD);
    assert Round(Regs(0xDB26CCB2, 0x6CE111DE, 0x86C2B29F, 0xF662CFA6, 0xA5B001DD), 0x00000400, 15) == Regs(0xFBCEF48F, 0xDB26CCB2, 0x9B384477, 0x86C2B29F, 0xF662CFA6);
    assert Compress(Regs(0x0BA02949, 0xDE712838, 0x689E76E5, 0x885BF881, 0x17BA3444), w, 16) == Regs(0xFBCEF48F, 0xDB26CCB2, 0x9B384477, 0x86C2B29F, 0xF662CFA6);
    assert Round(Regs(0xFBCEF48F, 0xDB26CCB2, 0x9B384477, 0x86C2B29F, 0xF662CFA6), 0x00000001, 16) == Regs(0x6AA4517E, 0xFBCEF48F, 0xB6C9B32C, 0x9B384477, 0x86C2B29F);
    assert Compress(Regs(0x0BA02949, 0xDE712838, 0x689E76E5, 0x885BF881, 0x17BA3444), w, 17) == Regs(0x6AA4517E, 0xFBCEF48F, 0xB6C9B32C, 0x9B384477, 0x86C2B29F);
    assert Round(Regs(0x6AA4517E, 0xFBCEF48F, 0xB6C9B32C, 0x9B384477, 0x86C2B29F), 0x00000000, 17) == Regs(0xE8C80C81, 0x6AA4517E, 0xFEF3BD23, 0xB6C9B32C, 0x9B384477);
    assert Compress(Regs(0x0BA02949, 0xDE712838, 0x689E76E5, 0x885BF881, 0x17BA3444), w, 18) == Regs(0xE8C80C81, 0x6AA4517E, 0xFEF3BD23, 0xB6C9B32C, 0x9B384477);
    assert Round(Regs(0xE8C80C81, 0x6AA4517E, 0xFEF3BD23, 0xB6C9B32C, 0x9B384477), 0x00000800, 18) == Regs(0x0DA6096F, 0xE8C80C81, 0x9AA9145F, 0xFEF3BD23, 0xB6C9B32C);
    assert Compress(Regs(0x0BA02949, 0xDE712838, 0x689E76E5, 0x885BF881, 0x17BA3444), w, 19) == Regs(0x0DA6096F, 0xE8C80C81, 0x9AA9145F, 0xFEF3BD23, 0xB6C9B32C);
    assert Round(Regs(0x0DA6096F, 0xE8C80C81, 0x9AA9145F, 0xFEF3BD23, 0xB6C9B32C), 0x00000002, 19) == Regs(0x64C90FCB, 0x0DA6096F, 0x7A320320, 0x9AA9145F, 0xFEF3BD23);
    assert Compress(Regs(0x0BA02949, 0xDE712838, 0x689E76E5, 0x885BF881, 0x17BA3444), w, 20) == Regs(0x64C90FCB, 0x0DA6096F, 0x7A320320, 0x9AA9145F, 0xFEF3BD23);
  }

  lemma LettersPadRounds1(w: seq<word>)
    requires |w| == 80
    requires w[20] == 0x00000000 && w[21] == 0x00001000 && w[22] == 0x00000004 && w[23] == 0x00000800 &&
      w[24] == 0x00002002 && w[25] == 0x00000008 && w[26] == 0x00000000 && w[27] == 0x00004000 &&
      w[28] == 0x00000010 && w[29] == 0x00002800 && w[30] == 0x0000800A && w[31] == 0x00001820 &&
      w[32] == 0x00000006 && w[33] == 0x00010000 && w[34] == 0x00002040 && w[35] == 0x0000A008 &&
      w[36] == 0x00020028 && w[37] == 0x00002080 && w[38] == 0x00000008 && w[39] == 0x00042000
    requires Compress(Regs(0x0BA02949, 0xDE712838, 0x689E76E5, 0x885BF881, 0x17BA3444), w, 20) == Regs(0x64C90FCB, 0x0DA6096F, 0x7A320320, 0x9AA9145F, 0xFEF3BD23)
    ensures Compress(Regs(0x0BA02949, 0xDE712838, 0x689E76E5, 0x885BF881, 0x17BA3444), w, 40) == Regs(0x1A33BEA2, 0x267548D3, 0x6A0BC210, 0x7A367F9C, 0x91A19F4F)
  {
    assert Round(Regs(0x64C90FCB, 0x0DA6096F, 0x7A320320, 0x9AA9145F, 0xFEF3BD23), 0x00000000, 20) == Regs(0xF42CC040, 0x64C90FCB, 0xC369825B, 0x7A320320, 0x9AA9145F);
    assert Compress(Regs(0x0BA02949, 0xDE712838, 0x689E76E5, 0x885BF881, 0x17BA3444), w, 21) == Regs(0xF42CC040, 0x64C90FCB, 0xC369825B, 0x7A320320, 0x9AA9145F);
    assert Round(Regs(0xF42CC040, 0x64C90FCB, 0xC369825B, 0x7A320320, 0x9AA9145F), 0x00001000, 21) == Regs(0x6CADA6CE, 0xF42CC040, 0xD93243F2, 0xC369825B, 0x7A320320);
    assert Compress(Regs(0x0BA02949, 0xDE712838, 0x689E76E5, 0x885BF881, 0x17BA3444), w, 22) == Regs(0x6CADA6CE, 0xF42CC040, 0xD93243F2, 0xC369825B, 0x7A320320);
    assert Round(Regs(0x6CADA6CE, 0xF42CC040, 0xD93243F2, 0xC369825B, 0x7A320320), 0x00000004, 22) == Regs(0x6D37CA7B, 0x6CADA6CE, 0x3D0B3010, 0xD93243F2, 0xC369825B);
    assert Compress(Regs(0x0BA02949, 0xDE712838, 0x689E76E5, 0x885BF881, 0x17BA3444), w, 23) == Regs(0x6D37CA7B, 0x6CADA6CE, 0x3D0B3010, 0xD93243F2, 0xC369825B);
    assert Round(Regs(0x6D37CA7B, 0x6CADA6CE, 0x3D0B3010, 0xD93243F2, 0xC369825B), 0x00000800, 23) == Regs(0x61D19A95, 0x6D37CA7B, 0x9B2B69B3, 0x3D0B3010, 0xD93243F2);
    assert Compress(Regs(0x0BA02949, 0xDE712838, 0x689E76E5, 0x885BF881, 0x17BA3444), w, 24) == Regs(0x61D19A95, 0x6D37CA7B, 0x9B2B69B3, 0x3D0B3010, 0xD93243F2);
    assert Round(Regs(0x61D19A95, 0x6D37CA7B, 0x9B2B69B3, 0x3D0B3010, 0xD93243F2), 0x00002002, 24) == Regs(0x4D573619, 0x61D19A95, 0xDB4DF29E, 0x9B2B69B3, 0x3D0B3010);
    assert Compress(Regs(0x0BA02949, 0xDE712838, 0x689E76E5, 0x885BF881, 0x17BA3444), w, 25) == Regs(0x4D573619, 0x61D19A95, 0xDB4DF29E, 0x9B2B69B3, 0x3D0B3010);
    assert Round(Regs(0x4D573619, 0x61D19A95, 0xDB4DF29E, 0x9B2B69B3, 0x3D0B3010), 0x00000008, 25) == Regs(0x7882E09A, 0x4D573619, 0x587466A5, 0xDB4DF29E, 0x9B2B69B3);
    assert Compress(Regs(0x0BA02949, 0xDE712838, 0x689E76E5, 0x885BF881, 0x17BA3444), w, 26) == Regs(0x7882E09A, 0x4D573619, 0x587466A5, 0xDB4DF29E, 0x9B2B69B3);
    assert Round(Regs(0x7882E09A, 0x4D573619, 0x587466A5, 0xDB4DF29E, 0x9B2B69B3), 0x00000000, 26) == Regs(0xE8D00AC5, 0x7882E09A, 0x5355CD86, 0x587466A5, 0xDB4DF29E);
    assert Compress(Regs(0x0BA02949, 0xDE712838, 0x689E76E5, 0x885BF881, 0x17BA3444), w, 27) == Regs(0xE8D00AC5, 0x7882E09A, 0x5355CD86, 0x587466A5, 0xDB4DF29E);
    assert Round(Regs(0xE8D00AC5, 0x7882E09A, 0x5355CD86, 0x587466A5, 0xDB4DF29E), 0x00004000, 27) == Regs(0xD7CCC2B5, 0xE8D00AC5, 0x9E20B826, 0x5355CD86, 0x587466A5);
    assert Compress(Regs(0x0BA02949, 0xDE712838, 0x689E76E5, 0x885BF881, 0x17BA3444), w, 28) == Regs(0xD7CCC2B5, 0xE8D00AC5, 0x9E20B826, 0x5355CD86, 0x587466A5);
    assert Round(Regs(0xD7CCC2B5, 0xE8D00AC5, 0x9E20B826, 0x5355CD86, 0x587466A5), 0x00000010, 28) == Regs(0xE68C2875, 0xD7CCC2B5, 0x7A3402B1, 0x9E20B826, 0x5355CD86);
    assert Compress(Regs(0x0BA02949, 0xDE712838, 0x689E76E5, 0x885BF881, 0x17BA3444), w, 29) == Regs(0xE68C2875, 0xD7CCC2B5, 0x7A3402B1, 0x9E20B826, 0x5355CD86);
    assert Round(Regs(0xE68C2875, 0xD7CCC2B5, 0x7A3402B1, 0x9E20B826, 0x5355CD86), 0x00002800, 29) == Regs(0xC78D6805, 0xE68C2875, 0x75F330AD, 0x7A3402B1, 0x9E20B826);
    assert Compress(Regs(0x0BA02949, 0xDE712838, 0x689E76E5, 0x885BF881, 0x17BA3444), w, 30) == Regs(0xC78D6805, 0xE68C2875, 0x75F330AD, 0x7A3402B1, 0x9E20B826);
    assert Round(Regs(0xC78D6805, 0xE68C2875, 0x75F330AD, 0x7A3402B1, 0x9E20B826), 0x0000800A, 30) == Regs(0xE7F33EF2, 0xC78D6805, 0x79A30A1D, 0x75F330AD, 0x7A3402B1);
    assert Compress(Regs(0x0BA02949, 0xDE712838, 0x689E76E5, 0x885BF881, 0x17BA3444), w, 31) == Regs(0xE7F33EF2, 0xC78D6805, 0x79A30A1D, 0x75F330AD, 0x7A3402B1);
    assert Round(Regs(0xE7F33EF2, 0xC78D6805, 0x79A30A1D, 0x75F330AD, 0x7A3402B1), 0x00001820, 31) == Regs(0xB3533783, 0xE7F33EF2, 0x71E35A01, 0x79A30A1D, 0x75F330AD);
    assert Compress(Regs(0x0BA02949, 0xDE712838, 0x689E76E5, 0x885BF881, 0x17BA3444), w, 32) == Regs(0xB3533783, 0xE7F33EF2, 0x71E35A01, 0x79A30A1D, 0x75F330AD);
    assert Round(Regs(0xB3533783, 0xE7F33EF2, 0x71E35A01, 0x79A30A1D, 0x75F330AD), 0x00000006, 32) == Regs(0x3EE77BB8, 0xB3533783, 0xB9FCCFBC, 0x71E35A01, 0x79A30A1D);
    assert Compress(Regs(0x0BA02949, 0xDE712838, 0x689E76E5, 0x885BF881, 0x17BA3444), w, 33) == Regs(0x3EE77BB8, 0xB3533783, 0xB9FCCFBC, 0x71E35A01, 0x79A30A1D);
    assert Round(Regs(0x3EE77BB8, 0xB3533783, 0xB9FCCFBC, 0x71E35A01, 0x79A30A1D), 0x00010000, 33) == Regs(0x40BA0F03, 0x3EE77BB8, 0xECD4CDE0, 0xB9FCCFBC, 0x71E35A01);
    assert Compress(Regs(0x0BA02949, 0xDE712838, 0x689E76E5, 0x885BF881, 0x17BA3444), w, 34) == Regs(0x40BA0F03, 0x3EE77BB8, 0xECD4CDE0, 0xB9FCCFBC, 0x71E35A01);
    assert Round(Regs(0x40BA0F03, 0x3EE77BB8, 0xECD4CDE0, 0xB9FCCFBC, 0x71E35A01), 0x00002040, 34) == Regs(0x63CEC02E, 0x40BA0F03, 0x0FB9DEEE, 0xECD4CDE0, 0xB9FCCFBC);
    assert Compress(Regs(0x0BA02949, 0xDE712838, 0x689E76E5, 0x885BF881, 0x17BA3444), w, 35) == Regs(0x63CEC02E, 0x40BA0F03, 0x0FB9DEEE, 0xECD4CDE0, 0xB9FCCFBC);
    assert Round(Regs(0x63CEC02E, 0x40BA0F03, 0x0FB9DEEE, 0xECD4CDE0, 0xB9FCCFBC), 0x0000A008, 35) == Regs(0x46867D3E, 0x63CEC02E, 0xD02E83C0, 0x0FB9DEEE, 0xECD4CDE0);
    assert Compress(Regs(0x0BA02949, 0xDE712838, 0x689E76E5, 0x885BF881, 0x17BA3444), w, 36) == Regs(0x46867D3E, 0x63CEC02E, 0xD02E83C0, 0x0FB9DEEE, 0xECD4CDE0);
    assert Round(Regs(0x46867D3E, 0x63CEC02E, 0xD02E83C0, 0x0FB9DEEE, 0xECD4CDE0), 0x00020028, 36) == Regs(0xE8D9FE71, 0x46867D3E, 0x98F3B00B, 0xD02E83C0, 0x0FB9DEEE);
    assert Compress(Regs(0x0BA02949, 0xDE712838, 0x689E76E5, 0x885BF881, 0x17BA3444), w, 37) == Regs(0xE8D9FE71, 0x46867D3E, 0x98F3B00B, 0xD02E83C0, 0x0FB9DEEE);
    assert Round(Regs(0xE8D9FE71, 0x46867D3E, 0x98F3B00B, 0xD02E83C0, 0x0FB9DEEE), 0x00002080, 37) == Regs(0xA82F0841, 0xE8D9FE71, 0x91A19F4F, 0x98F3B00B, 0xD02E83C0);
    assert Compress(Regs(0x0BA02949, 0xDE712838, 0x689E76E5, 0x885BF881, 0x17BA3444), w, 38) == Regs(0xA82F0841, 0xE8D9FE71, 0x91A19F4F, 0x98F3B00B, 0xD02E83C0);
    assert Round(Regs(0xA82F0841, 0xE8D9FE71, 0x91A19F4F, 0x98F3B00B, 0xD02E83C0), 0x00000008, 38) == Regs(0x267548D3, 0xA82F0841, 0x7A367F9C, 0x91A19F4F, 0x98F3B00B);
    assert Compress(Regs(0x0BA02949, 0xDE712838, 0x689E76E5, 0x885BF881, 0x17BA3444), w, 39) == Regs(0x267548D3, 0xA82F0841, 0x7A367F9C, 0x91A19F4F, 0x98F3B00B);
    assert Round(Regs(0x267548D3, 0xA82F0841, 0x7A367F9C, 0x91A19F4F, 0x98F3B00B), 0x00042000, 39) == Regs(0x1A33BEA2, 0x267548D3, 0x6A0BC210, 0x7A367F9C, 0x91A19F4F);
    assert Compress(Regs(0x0BA02949, 0xDE712838, 0x689E76E5, 0x885BF881, 0x17BA3444), w, 40) == Regs(0x1A33BEA2, 0x267548D3, 0x6A0BC210, 0x7A367F9C, 0x91A19F4F);
  }

  lemma LettersPadRounds2(w: seq<word>)
    requires |w| == 80
    requires w[40] == 0x00000108 && w[41] == 0x00028000 && w[42] == 0x000800A0 && w[43] == 0x00019200 &&
      w[44] == 0x00000064 && w[45] == 0x00102000 && w[46] == 0x00022408 && w[47] == 0x000A7088 &&
      w[48] == 0x0020029C && w[49] == 0x00020800 && w[50] == 0x0000A080 && w[51] == 0x00422028 &&
      w[52] == 0x00001088 && w[53] == 0x00290000 && w[54] == 0x00800A40 && w[55] == 0x00198000 &&
      w[56] == 0x00020668 && w[57] == 0x01022080 && w[58] == 0x00224088 && w[59] == 0x00A32880
    requires Compress(Regs(0x0BA02949, 0xDE712838, 0x689E76E5, 0x885BF881, 0x17BA3444), w, 40) == Regs(0x1A33BEA2, 0x267548D3, 0x6A0BC210, 0x7A367F9C, 0x91A19F4F)
    ensures Compress(Regs(0x0BA02949, 0xDE712838, 0x689E76E5, 0x885BF881, 0x17BA3444), w, 60) == Regs(0xA0F9CBAE, 0x6F06698D, 0xE4EB596C, 0x606CF385, 0xB9E4619C)
  {
    assert Round(Regs(0x1A33BEA2, 0x267548D3, 0x6A0BC210, 0x7A367F9C, 0x91A19F4F), 0x00000108, 40) == Regs(0xD16C7C06, 0x1A33BEA2, 0xC99D5234, 0x6A0BC210, 0x7A367F9C);
    assert Compress(Regs(0x0BA02949, 0xDE712838, 0x689E76E5, 0x885BF881, 0x17BA3444), w, 41) == Regs(0xD16C7C06, 0x1A33BEA2, 0xC99D5234, 0x6A0BC210, 0x7A367F9C);
    assert Round(Regs(0xD16C7C06, 0x1A33BEA2, 0xC99D5234, 0x6A0BC210, 0x7A367F9C), 0x00028000, 41) == Regs(0x81000F82, 0xD16C7C06, 0x868CEFA8, 0xC99D5234, 0x6A0BC210);
    assert Compress(Regs(0x0BA02949, 0xDE712838, 0x689E76E5, 0x885BF881, 0x17BA3444), w, 42) == Regs(0x81000F82, 0xD16C7C06, 0x868CEFA8, 0xC99D5234, 0x6A0BC210);
    assert Round(Regs(0x81000F82, 0xD16C7C06, 0x868CEFA8, 0xC99D5234, 0x6A0BC210), 0x000800A0, 42) == Regs(0xDABDEE00, 0x81000F82, 0xB45B1F01, 0x868CEFA8, 0xC99D5234);
    assert Compress(Regs(0x0BA02949, 0xDE712838, 0x689E76E5, 0x885BF881, 0x17BA3444), w, 43) == Regs(0xDABDEE00, 0x81000F82, 0xB45B1F01, 0x868CEFA8, 0xC99D5234);
    assert Round(Regs(0xDABDEE00, 0x81000F82, 0xB45B1F01, 0x868CEFA8, 0xC99D5234), 0x00019200, 43) == Regs(0x348070AB, 0xDABDEE00, 0xA04003E0, 0xB45B1F01, 0x868CEFA8);
    assert Compress(Regs(0x0BA02949, 0xDE712838, 0x689E76E5, 0x885BF881, 0x17BA3444), w, 44) == Regs(0x348070AB, 0xDABDEE00, 0xA04003E0, 0xB45B1F01, 0x868CEFA8);
    assert Round(Regs(0x348070AB, 0xDABDEE00, 0xA04003E0, 0xB45B1F01, 0x868CEFA8), 0x00000064, 44) == Regs(0x560FD14E, 0x348070AB, 0x36AF7B80, 0xA04003E0, 0xB45B1F01);
    assert Compress(Regs(0x0BA02949, 0xDE712838, 0x689E76E5, 0x885BF881, 0x17BA3444), w, 45) == Regs(0x560FD14E, 0x348070AB, 0x36AF7B80, 0xA04003E0, 0xB45B1F01);
    assert Round(Regs(0x560FD14E, 0x348070AB, 0x36AF7B80, 0xA04003E0, 0xB45B1F01), 0x00102000, 45) == Regs(0x3A019947, 0x560FD14E, 0xCD201C2A, 0x36AF7B80, 0xA04003E0);
    assert Compress(Regs(0x0BA02949, 0xDE712838, 0x689E76E5, 0x885BF881, 0x17BA3444), w, 46) == Regs(0x3A019947, 0x560FD14E, 0xCD201C2A, 0x36AF7B80, 0xA04003E0);
    assert Round(Regs(0x3A019947, 0x560FD14E, 0xCD201C2A, 0x36AF7B80, 0xA04003E0), 0x00022408, 46) == Regs(0xC5C066B5, 0x3A019947, 0x9583F453, 0xCD201C2A, 0x36AF7B80);
    assert Compress(Regs(0x0BA02949, 0xDE712838, 0x689E76E5, 0x885BF881, 0x17BA3444), w, 47) == Regs(0xC5C066B5, 0x3A019947, 0x9583F453, 0xCD201C2A, 0x36AF7B80);
    assert Round(Regs(0xC5C066B5, 0x3A019947, 0x9583F453, 0xCD201C2A, 0x36AF7B80), 0x000A7088, 47) == Regs(0x1AE41BDF, 0xC5C066B5, 0xCE806651, 0x9583F453, 0xCD201C2A);
    assert Compress(Regs(0x0BA02949, 0xDE712838, 0x689E76E5, 0x885BF881, 0x17BA3444), w, 48) == Regs(0x1AE41BDF, 0xC5C066B5, 0xCE806651, 0x9583F453, 0xCD201C2A);
    assert Round(Regs(0x1AE41BDF, 0xC5C066B5, 0xCE806651, 0x9583F453, 0xCD201C2A), 0x0020029C, 48) == Regs(0x7E5FBDD6, 0x1AE41BDF, 0x717019AD, 0xCE806651, 0x9583F453);
    assert Compress(Regs(0x0BA02949, 0xDE712838, 0x689E76E5, 0x885BF881, 0x17BA3444), w, 49) == Regs(0x7E5FBDD6, 0x1AE41BDF, 0x717019AD, 0xCE806651, 0x9583F453);
    assert Round(Regs(0x7E5FBDD6, 0x1AE41BDF, 0x717019AD, 0xCE806651, 0x9583F453), 0x00020800, 49) == Regs(0x4B798FDB, 0x7E5FBDD6, 0xC6B906F7, 0x717019AD, 0xCE806651);
    assert Compress(Regs(0x0BA02949, 0xDE712838, 0x689E76E5, 0x885BF881, 0x17BA3444), w, 50) == Regs(0x4B798FDB, 0x7E5FBDD6, 0xC6B906F7, 0x717019AD, 0xCE806651);
    assert Round(Regs(0x4B798FDB, 0x7E5FBDD6, 0xC6B906F7, 0x717019AD, 0xCE806651), 0x0000A080, 50) == Regs(0x4347DD0D, 0x4B798FDB, 0x9F97EF75, 0xC6B906F7, 0x717019AD);
    assert Compress(Regs(0x0BA02949, 0xDE712838, 0x689E76E5, 0x885BF881, 0x17BA3444), w, 51) == Regs(0x4347DD0D, 0x4B798FDB, 0x9F97EF75, 0xC6B906F7, 0x717019AD);
    assert Round(Regs(0x4347DD0D, 0x4B798FDB, 0x9F97EF75, 0xC6B906F7, 0x717019AD), 0x00422028, 51) == Regs(0x39832850, 0x4347DD0D, 0xD2DE63F6, 0x9F97EF75, 0xC6B906F7);
    assert Compress(Regs(0x0BA02949, 0xDE712838, 0x689E76E5, 0x885BF881, 0x17BA3444), w, 52) == Regs(0x39832850, 0x4347DD0D, 0xD2DE63F6, 0x9F97EF75, 0xC6B906F7);
    assert Round(Regs(0x39832850, 0x4347DD0D, 0xD2DE63F6, 0x9F97EF75, 0xC6B906F7), 0x00001088, 52) == Regs(0x5A11CDD7, 0x39832850, 0x50D1F743, 0xD2DE63F6, 0x9F97EF75);
    assert Compress(Regs(0x0BA02949, 0xDE712838, 0x689E76E5, 0x885BF881, 0x17BA3444), w, 53) == Regs(0x5A11CDD7, 0x39832850, 0x50D1F743, 0xD2DE63F6, 0x9F97EF75);
    assert Round(Regs(0x5A11CDD7, 0x39832850, 0x50D1F743, 0xD2DE63F6, 0x9F97EF75), 0x00290000, 53) == Regs(0xC1E9CA8E, 0x5A11CDD7, 0x0E60CA14, 0x50D1F743, 0xD2DE63F6);
    assert Compress(Regs(0x0BA02949, 0xDE712838, 0x689E76E5, 0x885BF881, 0x17BA3444), w, 54) == Regs(0xC1E9CA8E, 0x5A11CDD7, 0x0E60CA14, 0x50D1F743, 0xD2DE63F6);
    assert Round(Regs(0xC1E9CA8E, 0x5A11CDD7, 0x0E60CA14, 0x50D1F743, 0xD2DE63F6), 0x00800A40, 54) == Regs(0xFA054C41, 0xC1E9CA8E, 0xD6847375, 0x0E60CA14, 0x50D1F743);
    assert Compress(Regs(0x0BA02949, 0xDE712838, 0x689E76E5, 0x885BF881, 0x17BA3444), w, 55) == Regs(0xFA054C41, 0xC1E9CA8E, 0xD6847375, 0x0E60CA14, 0x50D1F743);
    assert Round(Regs(0xFA054C41, 0xC1E9CA8E, 0xD6847375, 0x0E60CA14, 0x50D1F743), 0x00198000, 55) == Regs(0xE7918672, 0xFA054C41, 0xB07A72A3, 0xD6847375, 0x0E60CA14);
    assert Compress(Regs(0x0BA02949, 0xDE712838, 0x689E76E5, 0x885BF881, 0x17BA3444), w, 56) == Regs(0xE7918672, 0xFA054C41, 0xB07A72A3, 0xD6847375, 0x0E60CA14);
    assert Round(Regs(0xE7918672, 0xFA054C41, 0xB07A72A3, 0xD6847375, 0x0E60CA14), 0x00020668, 56) == Regs(0x81B3CE15, 0xE7918672, 0x7E815310, 0xB07A72A3, 0xD6847375);
    assert Compress(Regs(0x0BA02949, 0xDE712838, 0x689E76E5, 0x885BF881, 0x17BA3444), w, 57) == Regs(0x81B3CE15, 0xE7918672, 0x7E815310, 0xB07A72A3, 0xD6847375);
    assert Round(Regs(0x81B3CE15, 0xE7918672, 0x7E815310, 0xB07A72A3, 0xD6847375), 0x01022080, 57) == Regs(0x93AD65B3, 0x81B3CE15, 0xB9E4619C, 0x7E815310, 0xB07A72A3);
    assert Compress(Regs(0x0BA02949, 0xDE712838, 0x689E76E5, 0x885BF881, 0x17BA3444), w, 58) == Regs(0x93AD65B3, 0x81B3CE15, 0xB9E4619C, 0x7E815310, 0xB07A72A3);
    assert Round(Regs(0x93AD65B3, 0x81B3CE15, 0xB9E4619C, 0x7E815310, 0xB07A72A3), 0x00224088, 58) == Regs(0x6F06698D, 0x93AD65B3, 0x606CF385, 0xB9E4619C, 0x7E815310);
    assert Compress(Regs(0x0BA02949, 0xDE712838, 0x689E76E5, 0x885BF881, 0x17BA3444), w, 59) == Regs(0x6F06698D, 0x93AD65B3, 0x606CF385, 0xB9E4619C, 0x7E815310);
    assert Round(Regs(0x6F06698D, 0x93AD65B3, 0x606CF385, 0xB9E4619C, 0x7E815310), 0x00A32880, 59) == Regs(0xA0F9CBAE, 0x6F06698D, 0xE4EB596C, 0x606CF385, 0xB9E4619C);
    assert Compress(Regs(0x0BA02949, 0xDE712838, 0x689E76E5, 0x885BF881, 0x17BA3444), w, 60) == Regs(0xA0F9CBAE, 0x6F06698D, 0xE4EB596C, 0x606CF385, 0xB9E4619C);
  }

  lemma LettersPadRounds3(w: seq<word>)
    requires |w| == 80
    requires w[60] == 0x020028C8 && w[61] == 0x00222000 && w[62] == 0x000208A8 && w[63] == 0x0423A080 &&
      w[64] == 0x000108E8 && w[65] == 0x02800000 && w[66] == 0x0802A000 && w[67] == 0x01920080 &&
      w[68] == 0x00006400 && w[69] == 0x10200000 && w[70] == 0x02240800 && w[71] == 0x0A70C800 &&
      w[72] == 0x20029C10 && w[73] == 0x020A0000 && w[74] == 0x00A00080 && w[75] == 0x42232820 &&
      w[76] == 0x001088C0 && w[77] == 0x29030000 && w[78] == 0x800840C0 && w[79] == 0x1987C080
    requires Compress(Regs(0x0BA02949, 0xDE712838, 0x689E76E5, 0x885BF881, 0x17BA3444), w, 60) == Regs(0xA0F9CBAE, 0x6F06698D, 0xE4EB596C, 0x606CF385, 0xB9E4619C)
    ensures Compress(Regs(0x0BA02949, 0xDE712838, 0x689E76E5, 0x885BF881, 0x17BA3444), w, 80) == Regs(0xA1BB1692, 0xECE13F40, 0x59E5264A, 0x8CC2AED2, 0x81A3F25C)
  {
    assert Round(Regs(0xA0F9CBAE, 0x6F06698D, 0xE4EB596C, 0x606CF385, 0xB9E4619C), 0x020028C8, 60) == Regs(0x91028572, 0xA0F9CBAE, 0x5BC19A63, 0xE4EB596C, 0x606CF385);
    assert Compress(Regs(0x0BA02949, 0xDE712838, 0x689E76E5, 0x885BF881, 0x17BA3444), w, 61) == Regs(0x91028572, 0xA0F9CBAE, 0x5BC19A63, 0xE4EB596C, 0x606CF385);
    assert Round(Regs(0x91028572, 0xA0F9CBAE, 0x5BC19A63, 0xE4EB596C, 0x606CF385), 0x00222000, 61) == Regs(0x6B158C4E, 0x91028572, 0xA83E72EB, 0x5BC19A63, 0xE4EB596C);
    assert Compress(Regs(0x0BA02949, 0xDE712838, 0x689E76E5, 0x885BF881, 0x17BA3444), w, 62) == Regs(0x6B158C4E, 0x91028572, 0xA83E72EB, 0x5BC19A63, 0xE4EB596C);
    assert Round(Regs(0x6B158C4E, 0x91028572, 0xA83E72EB, 0x5BC19A63, 0xE4EB596C), 0x000208A8, 62) == Regs(0x74FF1BB1, 0x6B158C4E, 0xA440A15C, 0xA83E72EB, 0x5BC19A63);
    assert Compress(Regs(0x0BA02949, 0xDE712838, 0x689E76E5, 0x885BF881, 0x17BA3444), w, 63) == Regs(0x74FF1BB1, 0x6B158C4E, 0xA440A15C, 0xA83E72EB, 0x5BC19A63);
    assert Round(Regs(0x74FF1BB1, 0x6B158C4E, 0xA440A15C, 0xA83E72EB, 0x5BC19A63), 0x0423A080, 63) == Regs(0x3196D2E0, 0x74FF1BB1, 0x9AC56313, 0xA440A15C, 0xA83E72EB);
    assert Compress(Regs(0x0BA02949, 0xDE712838, 0x689E76E5, 0x885BF881, 0x17BA3444), w, 64) == Regs(0x3196D2E0, 0x74FF1BB1, 0x9AC56313, 0xA440A15C, 0xA83E72EB);
    assert Round(Regs(0x3196D2E0, 0x74FF1BB1, 0x9AC56313, 0xA440A15C, 0xA83E72EB), 0x000108E8, 64) == Regs(0xEFF773AD, 0x3196D2E0, 0x5D3FC6EC, 0x9AC56313, 0xA440A15C);
    assert Compress(Regs(0x0BA02949, 0xDE712838, 0x689E76E5, 0x885BF881, 0x17BA3444), w, 65) == Regs(0xEFF773AD, 0x3196D2E0, 0x5D3FC6EC, 0x9AC56313, 0xA440A15C);
    assert Round(Regs(0xEFF773AD, 0x3196D2E0, 0x5D3FC6EC, 0x9AC56313, 0xA440A15C), 0x02800000, 65) == Regs(0x667E500E, 0xEFF773AD, 0x0C65B4B8, 0x5D3FC6EC, 0x9AC56313);
    assert Compress(Regs(0x0BA02949, 0xDE712838, 0x689E76E5, 0x885BF881, 0x17BA3444), w, 66) == Regs(0x667E500E, 0xEFF773AD, 0x0C65B4B8, 0x5D3FC6EC, 0x9AC56313);
    assert Round(Regs(0x667E500E, 0xEFF773AD, 0x0C65B4B8, 0x5D3FC6EC, 0x9AC56313), 0x0802A000, 66) == Regs(0xFBA1C8AE, 0x667E500E, 0x7BFDDCEB, 0x0C65B4B8, 0x5D3FC6EC);
    assert Compress(Regs(0x0BA02949, 0xDE712838, 0x689E76E5, 0x885BF881, 0x17BA3444), w, 67) == Regs(0xFBA1C8AE, 0x667E500E, 0x7BFDDCEB, 0x0C65B4B8, 0x5D3FC6EC);
    assert Round(Regs(0xFBA1C8AE, 0x667E500E, 0x7BFDDCEB, 0x0C65B4B8, 0x5D3FC6EC), 0x01920080, 67) == Regs(0xAF53D77E, 0xFBA1C8AE, 0x999F9403, 0x7BFDDCEB, 0x0C65B4B8);
    assert Compress(Regs(0x0BA02949, 0xDE712838, 0x689E76E5, 0x885BF881, 0x17BA3444), w, 68) == Regs(0xAF53D77E, 0xFBA1C8AE, 0x999F9403, 0x7BFDDCEB, 0x0C65B4B8);
    assert Round(Regs(0xAF53D77E, 0xFBA1C8AE, 0x999F9403, 0x7BFDDCEB, 0x0C65B4B8), 0x00006400, 68) == Regs(0xDB074AA9, 0xAF53D77E, 0xBEE8722B, 0x999F9403, 0x7BFDDCEB);
    assert Compress(Regs(0x0BA02949, 0xDE712838, 0x689E76E5, 0x885BF881, 0x17BA3444), w, 69) == Regs(0xDB074AA9, 0xAF53D77E, 0xBEE8722B, 0x999F9403, 0x7BFDDCEB);
    assert Round(Regs(0xDB074AA9, 0xAF53D77E, 0xBEE8722B, 0x999F9403, 0x7BFDDCEB), 0x10200000, 69) == Regs(0x3F8E2552, 0xDB074AA9, 0xABD4F5DF, 0xBEE8722B, 0x999F9403);
    assert Compress(Regs(0x0BA02949, 0xDE712838, 0x689E76E5, 0x885BF881, 0x17BA3444), w, 70) == Regs(0x3F8E2552, 0xDB074AA9, 0xABD4F5DF, 0xBEE8722B, 0x999F9403);
    assert Round(Regs(0x3F8E2552, 0xDB074AA9, 0xABD4F5DF, 0xBEE8722B, 0x999F9403), 0x02240800, 70) == Regs(0x2626D57D, 0x3F8E2552, 0x76C1D2AA, 0xABD4F5DF, 0xBEE8722B);
    assert Compress(Regs(0x0BA02949, 0xDE712838, 0x689E76E5, 0x885BF881, 0x17BA3444), w, 71) == Regs(0x2626D57D, 0x3F8E2552, 0x76C1D2AA, 0xABD4F5DF, 0xBEE8722B);
    assert Round(Regs(0x2626D57D, 0x3F8E2552, 0x76C1D2AA, 0xABD4F5DF, 0xBEE8722B), 0x0A70C800, 71) == Regs(0x3B31ADCC, 0x2626D57D, 0x8FE38954, 0x76C1D2AA, 0xABD4F5DF);
    assert Compress(Regs(0x0BA02949, 0xDE712838, 0x689E76E5, 0x885BF881, 0x17BA3444), w, 72) == Regs(0x3B31ADCC, 0x2626D57D, 0x8FE38954, 0x76C1D2AA, 0xABD4F5DF);
    assert Round(Regs(0x3B31ADCC, 0x2626D57D, 0x8FE38954, 0x76C1D2AA, 0xABD4F5DF), 0x20029C10, 72) == Regs(0xDB749BCF, 0x3B31ADCC, 0x4989B55F, 0x8FE38954, 0x76C1D2AA);
    assert Compress(Regs(0x0BA02949, 0xDE712838, 0x689E76E5, 0x885BF881, 0x17BA3444), w, 73) == Regs(0xDB749BCF, 0x3B31ADCC, 0x4989B55F, 0x8FE38954, 0x76C1D2AA);
    assert Round(Regs(0xDB749BCF, 0x3B31ADCC, 0x4989B55F, 0x8FE38954, 0x76C1D2AA), 0x020A0000, 73) == Regs(0xAF1DA042, 0xDB749BCF, 0x0ECC6B73, 0x4989B55F, 0x8FE38954);
    assert Compress(Regs(0x0BA02949, 0xDE712838, 0x689E76E5, 0x885BF881, 0x17BA3444), w, 74) == Regs(0xAF1DA042, 0xDB749BCF, 0x0ECC6B73, 0x4989B55F, 0x8FE38954);
    assert Round(Regs(0xAF1DA042, 0xDB749BCF, 0x0ECC6B73, 0x4989B55F, 0x8FE38954), 0x00A00080, 74) == Regs(0xDACB99E2, 0xAF1DA042, 0xF6DD26F3, 0x0ECC6B73, 0x4989B55F);
    assert Compress(Regs(0x0BA02949, 0xDE712838, 0x689E76E5, 0x885BF881, 0x17BA3444), w, 75) == Regs(0xDACB99E2, 0xAF1DA042, 0xF6DD26F3, 0x0ECC6B73, 0x4989B55F);
    assert Round(Regs(0xDACB99E2, 0xAF1DA042, 0xF6DD26F3, 0x0ECC6B73, 0x4989B55F), 0x42232820, 75) == Regs(0x068FC972, 0xDACB99E2, 0xABC76810, 0xF6DD26F3, 0x0ECC6B73);
    assert Compress(Regs(0x0BA02949, 0xDE712838, 0x689E76E5, 0x885BF881, 0x17BA3444), w, 76) == Regs(0x068FC972, 0xDACB99E2, 0xABC76810, 0xF6DD26F3, 0x0ECC6B73);
    assert Round(Regs(0x068FC972, 0xDACB99E2, 0xABC76810, 0xF6DD26F3, 0x0ECC6B73), 0x001088C0, 76) == Regs(0x330ABB4A, 0x068FC972, 0xB6B2E678, 0xABC76810, 0xF6DD26F3);
    assert Compress(Regs(0x0BA02949, 0xDE712838, 0x689E76E5, 0x885BF881, 0x17BA3444), w, 77) == Regs(0x330ABB4A, 0x068FC972, 0xB6B2E678, 0xABC76810, 0xF6DD26F3);
    assert Round(Regs(0x330ABB4A, 0x068FC972, 0xB6B2E678, 0xABC76810, 0xF6DD26F3), 0x29030000, 77) == Regs(0x67949929, 0x330ABB4A, 0x81A3F25C, 0xB6B2E678, 0xABC76810);
    assert Compress(Regs(0x0BA02949, 0xDE712838, 0x689E76E5, 0x885BF881, 0x17BA3444), w, 78) == Regs(0x67949929, 0x330ABB4A, 0x81A3F25C, 0xB6B2E678, 0xABC76810);
    assert Round(Regs(0x67949929, 0x330ABB4A, 0x81A3F25C, 0xB6B2E678, 0xABC76810), 0x800840C0, 78) == Regs(0xECE13F40, 0x67949929, 0x8CC2AED2, 0x81A3F25C, 0xB6B2E678);
    assert Compress(Regs(0x0BA02949, 0xDE712838, 0x689E76E5, 0x885BF881, 0x17BA3444), w, 79) == Regs(0xECE13F40, 0x67949929, 0x8CC2AED2, 0x81A3F25C, 0xB6B2E678);
    assert Round(Regs(0xECE13F40, 0x67949929, 0x8CC2AED2, 0x81A3F25C, 0xB6B2E678), 0x1987C080, 79) == Regs(0xA1BB1692, 0xECE13F40, 0x59E5264A, 0x8CC2AED2, 0x81A3F25C);
    assert Compress(Regs(0x0BA02949, 0xDE712838, 0x689E76E5, 0x885BF881, 0x17BA3444), w, 80) == Regs(0xA1BB1692, 0xECE13F40, 0x59E5264A, 0x8CC2AED2, 0x81A3F25C);
  }

  /** The padding block of the 128-byte message starts from the state after two blocks. */
  lemma LettersPadCompress(words: seq<word>)
    requires |words| == 16
    requires words[0] == 0x80000000 && words[1] == 0x00000000 && words[2] == 0x00000000 && words[3] == 0x00000000 &&
      words[4] == 0x00000000 && words[5] == 0x00000000 && words[6] == 0x00000000 && words[7] == 0x00000000 &&
      words[8] == 0x00000000 && words[9] == 0x00000000 && words[10] == 0x00000000 && words[11] == 0x00000000 &&
      words[12] == 0x00000000 && words[13] == 0x00000000 && words[14] == 0x00000000 && words[15] == 0x00000400
    ensures Compress(Regs(0x0BA02949, 0xDE712838, 0x689E76E5, 0x885BF881, 0x17BA3444), Schedule(words), 80) == Regs(0xA1BB1692, 0xECE13F40, 0x59E5264A, 0x8CC2AED2, 0x81A3F25C)
  {
    var w := Schedule(words);
    ScheduleIsSchedule(words);
    forall j | 0 <= j < 16
      ensures w[j] == words[j]
    {
      assert w[..16][j] == w[j];
    }
    LettersPadSchedule0(w);
    LettersPadSchedule1(w);
    LettersPadSchedule2(w);
    LettersPadSchedule3(w);
    LettersPadRounds0(w);
    LettersPadRounds1(w);
    LettersPadRounds2(w);
    LettersPadRounds3(w);
  }
}
