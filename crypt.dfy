/** The digest engine of src/crypt.rs as it is written: `shift_n`, `Block::new`
    (padding and splitting), `processor::append` (message schedule),
    `processor::logical` and the round loop of `processor::digest`.

    Three places differ from SHA-1 and are kept here as written: padding is
    skipped when the length is a multiple of 64, zero-filling stops at a
    multiple of 56 (so some lengths cannot be split into whole blocks), and
    the working registers are never added back into the state between blocks.
    The corrected digest is in module Sha1. */
module Crypt {
  import opened Bytes

  /** `shift_n(word, n)`: `word << n | word >> (32 - n)`; both shifts are in
      range only for 1 <= n <= 31, otherwise Rust panics on the overflow. */
  function ShiftN(w: word, n: nat): word
    requires 1 <= n <= 31
  {
    (w << n) | (w >> (32 - n))
  }

  /** `shift_n` is the 32-bit left rotation, at each amount the digest uses. */
  lemma ShiftNIsRotation(w: word)
    ensures ShiftN(w, 1) == w.RotateLeft(1) && ShiftN(w, 31) == w.RotateLeft(31)
    ensures ShiftN(w, 5) == w.RotateLeft(5) && ShiftN(w, 30) == w.RotateLeft(30)
  {
  }

  /** Rotating by 1 and then by 31 gives the word back. */
  lemma ShiftNUndo(w: word)
    ensures ShiftN(ShiftN(w, 1), 31) == w
  {
    ShiftNIsRotation(w);
    ShiftNIsRotation(ShiftN(w, 1));
    RotateBack(w);
  }

  lemma RotateBack(w: word)
    ensures w.RotateLeft(1).RotateLeft(31) == w
  {
  }

  /** `struct Block { words: [u32; 16] }`. */
  datatype Block = Block(words: seq<word>)

  /** Every block holds exactly sixteen words. */
  ghost predicate WellFormed(blocks: seq<Block>)
  {
    forall k :: 0 <= k < |blocks| ==> |blocks[k].words| == 16
  }

  // ---------------------------------------------------------------- padding

  /** Number of zero bytes `Block::new` appends after the 0x80 marker for an
      n-byte message: until the length is a multiple of 56. */
  function FillLength(n: nat): nat
  {
    (56 - (n + 1) % 56) % 56
  }

  /** Length of the padded message when padding is applied. */
  function PaddedLength(n: nat): nat
  {
    n + 1 + FillLength(n) + 8
  }

  /** The byte vector `Block::new` builds before splitting: unchanged when the
      length is a multiple of 64; otherwise the message, 0x80, zeros up to a
      multiple of 56, and the 8-byte big-endian bit length. */
  function Padded(m: seq<byte>): (p: seq<byte>)
    ensures |p| == if |m| % 64 == 0 then |m| else PaddedLength(|m|)
  {
    if |m| % 64 != 0 then m + [0x80] + Zeros(FillLength(|m|)) + BigEndian(|m| * 8, 8) else m
  }

  /** The split at src/crypt.rs:29 (`words.try_into().unwrap()`) succeeds
      only when every 64-byte chunk is complete. */
  predicate Splittable(n: nat)
  {
    n % 64 == 0 || PaddedLength(n) % 64 == 0
  }

  /** The zero fill reaches the least multiple of 56 that is at least n + 1. */
  lemma FillIsLeast(n: nat, x: nat)
    requires n + 1 <= x && x % 56 == 0
    ensures (n + 1 + FillLength(n)) % 56 == 0
    ensures n + 1 + FillLength(n) <= x
  {
    var q, r := (n + 1) / 56, (n + 1) % 56;
    assert n + 1 == 56 * q + r;
    if r != 0 {
      assert n + 1 + FillLength(n) == 56 * (q + 1);
      assert x / 56 > q;
      assert x >= 56 * (x / 56) >= 56 * (q + 1);
    }
  }

  /** What padding produces, when it is applied: the message, 0x80, zeros
      up to the next multiple of 56, and the bit length in big-endian order. */
  lemma {:induction false} PaddedShape(m: seq<byte>)
    requires |m| % 64 != 0
    ensures var p := Padded(m);
      && p[..|m|] == m
      && p[|m|] == 0x80
      && (forall i :: |m| < i < |p| - 8 ==> p[i] == 0)
      && p[|p| - 8..] == BigEndian(|m| * 8, 8)
      && (|p| - 8) % 56 == 0
      && |p| - 8 < |m| + 1 + 56
  {
    FillIsLeast(|m|, 56 * ((|m| + 56) / 56));
  }

  /** Which lengths the split accepts: a multiple of 64 always; any other
      length exactly when the zero fill ends at 56 * q with q = 1 modulo 8
      (so lengths 1..55, 449..503, 897..951, ... and no others). */
  lemma SplittableIff(n: nat)
    requires n % 64 != 0
    ensures Splittable(n) <==> ((n + 56) / 56) % 8 == 1
  {
    var q := (n + 56) / 56;
    FillEndsAt(n);
    assert PaddedLength(n) == 8 * (7 * q + 1);
    var x := 7 * q + 1;
    DivMod(x, 8);
    var e, f := q / 8, q % 8;
    DivMod(q, 8);
    assert x == 8 * (7 * e) + (7 * f + 1);
    assert PaddedLength(n) == 64 * (x / 8) + 8 * (x % 8);
    ModOfSum(x / 8, 8 * (x % 8), 64);
    assert PaddedLength(n) % 64 == 8 * (x % 8);
    ModOfSum(7 * e, 7 * f + 1 - 8 * ((7 * f + 1) / 8), 8) by {
      assert 0 <= 7 * f + 1 - 8 * ((7 * f + 1) / 8) < 8;
    }
    assert x % 8 == (7 * f + 1) % 8 by {
      assert x == 8 * (7 * e + (7 * f + 1) / 8) + (7 * f + 1) % 8;
      ModOfSum(7 * e + (7 * f + 1) / 8, (7 * f + 1) % 8, 8);
    }
    assert (7 * f + 1) % 8 == 0 <==> f == 1 by {
      assert f < 8;
    }
  }

  /** The padded message before the length field ends at 56 * ((n + 56) / 56). */
  lemma FillEndsAt(n: nat)
    ensures n + 1 + FillLength(n) == 56 * ((n + 56) / 56)
  {
    var a, r := (n + 1) / 56, (n + 1) % 56;
    DivMod(n + 1, 56);
    if r == 0 {
      assert n + 56 == 56 * a + 55;
      DivOfSum(a, 55, 56);
    } else {
      assert n + 56 == 56 * (a + 1) + (r - 1);
      DivOfSum(a + 1, r - 1, 56);
    }
  }

  lemma DivMod(x: nat, m: nat)
    requires m > 0
    ensures x == m * (x / m) + x % m && 0 <= x % m < m
  {
  }

  /** Euclidean quotient and remainder of m * q + r for 0 <= r < m. */
  lemma DivOfSum(q: nat, r: nat, m: nat)
    requires r < m
    ensures (m * q + r) / m == q && (m * q + r) % m == r
  {
    var x := m * q + r;
    var d := q - x / m;
    assert m * d == x % m - r;
  }

  lemma ModOfSum(q: nat, r: nat, m: nat)
    requires r < m
    ensures (m * q + r) % m == r
  {
    DivOfSum(q, r, m);
  }

  /** Messages of 1 to 55 bytes pad to exactly one block. */
  lemma ShortMessagesPadToOneBlock(n: nat)
    requires 1 <= n <= 55
    ensures Splittable(n) && PaddedLength(n) == 64
  {
  }

  /** Lengths that the split rejects: 56 bytes (padded to 120), and the HMAC
      inputs of src/totp.rs — 72 bytes for an 8-byte counter (padded to
      120) and the 84-byte outer input (padded to 120). */
  lemma SplitRejects()
    ensures PaddedLength(56) == 120 && !Splittable(56)
    ensures PaddedLength(72) == 120 && !Splittable(72)
    ensures PaddedLength(84) == 120 && !Splittable(84)
  {
  }

  // -------------------------------------------------------------- splitting

  /** `chunk.chunks(4).map(u32::from_be_bytes)` on one 64-byte chunk. */
  function BlockOf(chunk: seq<byte>): (b: Block)
    requires |chunk| == 64
    ensures |b.words| == 16
  {
    Block(seq(16, j requires 0 <= j < 16 => Pack(chunk[4 * j], chunk[4 * j + 1], chunk[4 * j + 2], chunk[4 * j + 3])))
  }

  /** `message.chunks(64).map(...)` on a byte vector of whole chunks. */
  function Split(p: seq<byte>): (blocks: seq<Block>)
    requires |p| % 64 == 0
    ensures |blocks| == |p| / 64
    ensures WellFormed(blocks)
    decreases |p|
  {
    if p == [] then [] else Split(p[..|p| - 64]) + [BlockOf(p[|p| - 64..])]
  }

  /** Word j of block k is the big-endian packing of bytes 64k + 4j .. 64k + 4j + 3. */
  lemma {:induction false} SplitWords(p: seq<byte>, k: nat, j: nat)
    requires |p| % 64 == 0 && k < |p| / 64 && j < 16
    ensures Split(p)[k].words[j] == Pack(p[64 * k + 4 * j], p[64 * k + 4 * j + 1], p[64 * k + 4 * j + 2], p[64 * k + 4 * j + 3])
    decreases |p|
  {
    if k < |p| / 64 - 1 {
      var q := p[..|p| - 64];
      SplitWords(q, k, j);
      assert q[64 * k + 4 * j] == p[64 * k + 4 * j];
      assert q[64 * k + 4 * j + 3] == p[64 * k + 4 * j + 3];
    }
  }

  /** The blocks `Block::new` returns for a message it can split. */
  function Blocks(m: seq<byte>): (blocks: seq<Block>)
    requires Splittable(|m|)
    ensures WellFormed(blocks)
  {
    Split(Padded(m))
  }

  /** A message whose length is a multiple of 64 is split unpadded, into
      |m| / 64 blocks; the empty message gives no block at all. */
  lemma UnpaddedBlockCount(m: seq<byte>)
    requires |m| % 64 == 0
    ensures |Blocks(m)| == |m| / 64
    ensures m == [] ==> Blocks(m) == []
  {
  }

  /** `Block::new(message)`: pad when the length is not a multiple of 64,
      then split into 16-word blocks. */
  method NewBlocks(message: seq<byte>) returns (blocks: seq<Block>)
    requires Splittable(|message|)
    ensures blocks == Blocks(message)
  {
    var m := message;
    var len := |m|;
    if len % 64 != 0 {
      m := m + [0x80];
      FillIsLeast(len, 56 * ((len + 56) / 56));
      while |m| % 56 != 0
        invariant len + 1 <= |m| <= len + 1 + FillLength(len)
        invariant m == message + [0x80] + Zeros(|m| - len - 1)
        decreases len + 1 + FillLength(len) - |m|
      {
        if |m| == len + 1 + FillLength(len) {
          assert false;
        }
        assert Zeros(|m| - len - 1) + [0] == Zeros(|m| + 1 - len - 1);
        m := m + [0x00];
      }
      FillIsLeast(len, |m|);
      m := m + BigEndian(len * 8, 8);
    }
    assert m == Padded(message);
    blocks := Chunks(m);
  }

  /** `message.chunks(64).map(...).collect()`: one block per 64-byte chunk. */
  method Chunks(m: seq<byte>) returns (blocks: seq<Block>)
    requires |m| % 64 == 0
    ensures blocks == Split(m)
  {
    blocks := [];
    var k := 0;
    while k < |m| / 64
      invariant k <= |m| / 64
      invariant blocks == Split(m[..64 * k])
    {
      assert m[..64 * (k + 1)][..64 * k] == m[..64 * k];
      blocks := blocks + [BlockOf(m[64 * k..64 * k + 64])];
      k := k + 1;
    }
    assert m[..64 * k] == m;
  }

  // ------------------------------------------------------- message schedule

  /** The schedule word at index i, from the four earlier words it depends on. */
  function NextWord(w3: word, w8: word, w14: word, w16: word): word
  {
    ShiftN(w3 ^ w8 ^ w14 ^ w16, 1)
  }

  /** Word i of w follows the recurrence. */
  ghost predicate Follows(w: seq<word>, i: nat)
    requires 16 <= i < |w|
  {
    w[i] == NextWord(w[i - 3], w[i - 8], w[i - 14], w[i - 16])
  }

  /** The 80-word schedule of a 16-word block: the block's words, then
      w[i] = shift_n(w[i-3] ^ w[i-8] ^ w[i-14] ^ w[i-16], 1). */
  ghost predicate IsSchedule(words: seq<word>, w: seq<word>)
  {
    |words| == 16 && |w| == 80 && w[..16] == words &&
    forall i :: 16 <= i < 80 ==> Follows(w, i)
  }

  /** Extends a partial schedule word by word up to 80 words. */
  function Expand(w: seq<word>): (r: seq<word>)
    requires 16 <= |w| <= 80
    ensures |r| == 80
    decreases 80 - |w|
  {
    if |w| == 80 then w else Expand(w + [NextWord(w[|w| - 3], w[|w| - 8], w[|w| - 14], w[|w| - 16])])
  }

  /** The schedule of a block, as a function. */
  function Schedule(words: seq<word>): (w: seq<word>)
    requires |words| == 16
    ensures |w| == 80
  {
    Expand(words)
  }

  /** Appending the next word keeps the earlier words' recurrence. */
  lemma FollowsPrefix(w: seq<word>, v: seq<word>, i: nat)
    requires 16 <= i < |w| <= |v| && w == v[..|w|]
    ensures Follows(w, i) <==> Follows(v, i)
  {
    assert w[i] == v[i] && w[i - 3] == v[i - 3] && w[i - 8] == v[i - 8];
    assert w[i - 14] == v[i - 14] && w[i - 16] == v[i - 16];
  }

  lemma {:induction false} ExpandKeepsRecurrence(w: seq<word>)
    requires 16 <= |w| <= 80
    requires forall i :: 16 <= i < |w| ==> Follows(w, i)
    ensures Expand(w)[..|w|] == w
    ensures forall i :: 16 <= i < 80 ==> Follows(Expand(w), i)
    decreases 80 - |w|
  {
    if |w| < 80 {
      var w' := w + [NextWord(w[|w| - 3], w[|w| - 8], w[|w| - 14], w[|w| - 16])];
      forall i | 16 <= i < |w'|
        ensures Follows(w', i)
      {
        if i < |w| {
          FollowsPrefix(w, w', i);
        } else {
          assert w'[i - 3] == w[i - 3] && w'[i - 8] == w[i - 8];
          assert w'[i - 14] == w[i - 14] && w'[i - 16] == w[i - 16];
        }
      }
      ExpandKeepsRecurrence(w');
      assert Expand(w)[..|w'|][..|w|] == w;
    }
  }

  /** The schedule function meets the recurrence. */
  lemma ScheduleIsSchedule(words: seq<word>)
    requires |words| == 16
    ensures IsSchedule(words, Schedule(words))
  {
    ExpandKeepsRecurrence(words);
  }

  /** The recurrence determines the schedule: any 80 words meeting it are Schedule(words). */
  lemma ScheduleUnique(words: seq<word>, w: seq<word>)
    requires IsSchedule(words, w)
    ensures w == Schedule(words)
  {
    ScheduleIsSchedule(words);
    var s := Schedule(words);
    forall i | 0 <= i < 80
      ensures w[i] == s[i]
    {
      ScheduleAgreesUpTo(words, w, s, i);
    }
  }

  lemma {:induction false} ScheduleAgreesUpTo(words: seq<word>, w: seq<word>, s: seq<word>, i: nat)
    requires IsSchedule(words, w) && IsSchedule(words, s) && i < 80
    ensures w[i] == s[i]
  {
    if i < 16 {
      assert w[i] == w[..16][i] == s[..16][i] == s[i];
    } else {
      ScheduleAgreesUpTo(words, w, s, i - 3);
      ScheduleAgreesUpTo(words, w, s, i - 8);
      ScheduleAgreesUpTo(words, w, s, i - 14);
      ScheduleAgreesUpTo(words, w, s, i - 16);
      assert Follows(w, i) && Follows(s, i);
    }
  }

  /** `processor::append`: extend the block's 16 words to the 80-word schedule. */
  method Append(words: seq<word>) returns (w: seq<word>)
    requires |words| == 16
    ensures IsSchedule(words, w)
  {
    w := words;
    for i := 16 to 80
      invariant |w| == i && w[..16] == words
      invariant forall k :: 16 <= k < i ==> Follows(w, k)
    {
      var next := ShiftN(w[i - 3] ^ w[i - 8] ^ w[i - 14] ^ w[i - 16], 1);
      assert next == NextWord(w[i - 3], w[i - 8], w[i - 14], w[i - 16]);
      var v := w + [next];
      forall k | 16 <= k < i
        ensures Follows(v, k)
      {
        FollowsPrefix(w, v, k);
      }
      w := v;
    }
  }

  // ------------------------------------------------------------------ rounds

  /** `processor::logical`: the function of round t, selected by t / 20; a
      round index of 80 or more panics. Stage 0 picks c's bit where b's bit
      is set and d's elsewhere; stages 1 and 3 take the parity; stage 2 takes
      the majority of the three bits. */
  function Logical(b: word, c: word, d: word, t: nat): word
    requires t < 80
  {
    match t / 20
    case 0 => (b & c) | (!b & d)
    case 1 => b ^ c ^ d
    case 2 => (b & c) | (b & d) | (c & d)
    case 3 => b ^ c ^ d
  }

  /** Stage 0 picks c's bit where b's bit is set and d's elsewhere; stages 1
      and 3 take the parity; stage 2 takes the majority of the three bits. */
  lemma LogicalStages(b: word, c: word, d: word, t: nat)
    requires t < 80
    ensures var f := Logical(b, c, d, t);
      && (t < 20 ==> f & b == c & b && f & !b == d & !b)
      && (20 <= t < 40 || 60 <= t ==> f ^ b == c ^ d)
      && (40 <= t < 60 ==> f == (b & c) ^ (b & d) ^ (c & d))
  {
    if t < 20 {
      assert t / 20 == 0;
      ChoiceStage(b, c, d, t);
    } else if 40 <= t < 60 {
      assert t / 20 == 2;
      MajorityStage(b, c, d, t);
    } else if t < 40 {
      assert t / 20 == 1;
      ParityStage(b, c, d, t);
    } else {
      assert t / 20 == 3;
      LastParityStage(b, c, d, t);
    }
  }

  /** Rounds 0 to 19 choose: c where b is set, d elsewhere. */
  lemma ChoiceStage(b: word, c: word, d: word, t: nat)
    requires t < 80 && t / 20 == 0
    ensures Logical(b, c, d, t) & b == c & b && Logical(b, c, d, t) & !b == d & !b
  {
  }

  /** Rounds 20 to 39 take the parity of the three words. */
  lemma ParityStage(b: word, c: word, d: word, t: nat)
    requires t < 80 && t / 20 == 1
    ensures Logical(b, c, d, t) ^ b == c ^ d
  {
  }

  /** Rounds 60 to 79 take the parity again. */
  lemma LastParityStage(b: word, c: word, d: word, t: nat)
    requires t < 80 && t / 20 == 3
    ensures Logical(b, c, d, t) ^ b == c ^ d
  {
  }

  /** Rounds 40 to 59 take the majority, which is also the XOR of the pairwise ANDs. */
  lemma MajorityStage(b: word, c: word, d: word, t: nat)
    requires t < 80 && t / 20 == 2
    ensures Logical(b, c, d, t) == (b & c) ^ (b & d) ^ (c & d)
  {
  }

  /** The constant `H`: initial values of the five registers. */
  const IV: Regs := Regs(0x67452301, 0xEFCDAB89, 0x98BADCFE, 0x10325476, 0xC3D2E1F0)

  /** The constant `K`: one round constant per stage of 20 rounds. */
  const K: seq<word> := [0x5A827999, 0x6ED9EBA1, 0x8F1BBCDC, 0xCA62C1D6]

  /** The five working registers a, b, c, d, e. */
  datatype Regs = Regs(a: word, b: word, c: word, d: word, e: word)

  /** `temp` of round t with schedule word wt:
      shift_n(a, 5) + logical(b, c, d, t) + e + wt + K[t / 20], each addition wrapping. */
  function Temp(a: word, b: word, c: word, d: word, e: word, wt: word, t: nat): word
    requires t < 80
  {
    ShiftN(a, 5) + Logical(b, c, d, t) + e + wt + K[t / 20]
  }

  /** One round t with schedule word wt: e = d, d = c, c = shift_n(b, 30), b = a, a = temp. */
  function Round(s: Regs, wt: word, t: nat): Regs
    requires t < 80
  {
    Regs(Temp(s.a, s.b, s.c, s.d, s.e, wt, t), s.a, ShiftN(s.b, 30), s.c, s.d)
  }

  /** The registers after rounds 0 .. n - 1 over schedule w, starting from s. */
  function Compress(s: Regs, w: seq<word>, n: nat): Regs
    requires |w| == 80 && n <= 80
  {
    if n == 0 then s else Round(Compress(s, w, n - 1), w[n - 1], n - 1)
  }

  /** The registers after the loop over all blocks as written: the 80 rounds of
      each block start from the registers the previous block left. */
  function Run(s: Regs, blocks: seq<Block>): Regs
    requires WellFormed(blocks)
  {
    if blocks == [] then s else Compress(Run(s, blocks[..|blocks| - 1]), Schedule(blocks[|blocks| - 1].words), 80)
  }

  /** Register-wise wrapping addition. */
  function Add(x: Regs, y: Regs): Regs
  {
    Regs(x.a + y.a, x.b + y.b, x.c + y.c, x.d + y.d, x.e + y.e)
  }

  /** The five registers as 20 big-endian bytes, a first. */
  function Serialize(s: Regs): (r: seq<byte>)
    ensures |r| == 20
    ensures r[0..4] == Unpack(s.a) && r[4..8] == Unpack(s.b) && r[8..12] == Unpack(s.c)
    ensures r[12..16] == Unpack(s.d) && r[16..20] == Unpack(s.e)
  {
    Unpack(s.a) + Unpack(s.b) + Unpack(s.c) + Unpack(s.d) + Unpack(s.e)
  }

  /** The digest `processor::digest` computes, as bytes: `H[k]` added once to
      the registers left after the last block. */
  function DigestOf(m: seq<byte>): (r: seq<byte>)
    requires Splittable(|m|)
    ensures |r| == 20
  {
    Serialize(Add(IV, Run(IV, Blocks(m))))
  }

  /** `processor::digest`: split, run 80 rounds per block over the schedule,
      then add `H` to the registers and emit them big-endian. */
  method Digest(message: seq<byte>) returns (hash: seq<byte>)
    requires Splittable(|message|)
    ensures hash == DigestOf(message)
  {
    var blocks := NewBlocks(message);
    var a, b, c, d, e := IV.a, IV.b, IV.c, IV.d, IV.e;
    for k := 0 to |blocks|
      invariant Regs(a, b, c, d, e) == Run(IV, blocks[..k])
    {
      var words := Append(blocks[k].words);
      ScheduleUnique(blocks[k].words, words);
      ghost var start := Regs(a, b, c, d, e);
      for i := 0 to |words|
        invariant Regs(a, b, c, d, e) == Compress(start, words, i)
      {
        ghost var before := Regs(a, b, c, d, e);
        var temp := Temp(a, b, c, d, e, words[i], i);
        e := d;
        d := c;
        c := ShiftN(b, 30);
        b := a;
        a := temp;
        assert Regs(a, b, c, d, e) == Round(before, words[i], i);
      }
      assert blocks[..k + 1][..k] == blocks[..k];
    }
    assert blocks[..|blocks|] == blocks;
    hash := Serialize(Add(IV, Regs(a, b, c, d, e)));
  }

  // ------------------------------------------------------------- rendering

  /** The sixteen upper-case hexadecimal digits `format!("{:02X}")` uses. */
  const HexDigits: string := "0123456789ABCDEF"

  /** Whether `c` is one of them. */
  predicate IsHexDigit(c: char)
  {
    c in HexDigits
  }

  /** One upper-case hexadecimal digit. */
  function HexDigit(n: byte): (c: char)
    requires n < 16
    ensures IsHexDigit(c)
  {
    HexDigits[n as int]
  }

  /** The value of one upper-case hexadecimal digit. */
  function DigitValue(c: char): byte
  {
    if '0' <= c <= '9' then (c as int - '0' as int) as byte
    else if 'A' <= c <= 'F' then (c as int - 'A' as int + 10) as byte
    else 0
  }

  /** The two digits of a byte, high nibble first. */
  function Digits(b: byte): (s: string)
    ensures |s| == 2 && IsHexDigit(s[0]) && IsHexDigit(s[1])
  {
    [HexDigit(b >> 4), HexDigit(b & 0x0F)]
  }

  /** Each byte as two upper-case hexadecimal digits, high nibble first. */
  function Hex(bytes: seq<byte>): (s: string)
    ensures |s| == 2 * |bytes|
    ensures forall i :: 0 <= i < |s| ==> IsHexDigit(s[i])
  {
    if bytes == [] then "" else Digits(bytes[0]) + Hex(bytes[1..])
  }

  /** The byte two hexadecimal digits stand for. */
  function ByteOfDigits(hi: char, lo: char): byte
  {
    (DigitValue(hi) << 4) | DigitValue(lo)
  }

  /** Reads back two hexadecimal digits per byte. */
  function Unhex(s: string): seq<byte>
    requires |s| % 2 == 0
  {
    if s == "" then [] else [ByteOfDigits(s[0], s[1])] + Unhex(s[2..])
  }

  /** The rendering loses nothing: reading the digits back gives the bytes. */
  lemma {:induction false} UnhexHex(bytes: seq<byte>)
    ensures Unhex(Hex(bytes)) == bytes
  {
    if bytes != [] {
      var s := Hex(bytes);
      var d := Digits(bytes[0]);
      assert s == d + Hex(bytes[1..]);
      assert s[0] == d[0] && s[1] == d[1] && s[2..] == Hex(bytes[1..]);
      ByteDigits(bytes[0]);
      UnhexHex(bytes[1..]);
      assert bytes == [bytes[0]] + bytes[1..];
    }
  }

  /** The two digits of one byte read back as that byte. */
  lemma ByteDigits(b: byte)
    ensures ByteOfDigits(Digits(b)[0], Digits(b)[1]) == b
  {
    HexDigitValue(b >> 4);
    HexDigitValue(b & 0x0F);
    NibblesJoin(b);
  }

  lemma NibblesJoin(b: byte)
    ensures ((b >> 4) << 4) | (b & 0x0F) == b
  {
  }

  /** Each digit reads back as the nibble it was written from. */
  lemma HexDigitValue(n: byte)
    requires n < 16
    ensures DigitValue(HexDigit(n)) == n
  {
  }

  // --------------------------------------------- where the code is not SHA-1

  /** The empty message is split into no block: the result is `H` added to
      itself, whatever SHA-1 of the empty message is. */
  lemma EmptyMessageDigest()
    ensures DigestOf([]) == Serialize(Add(IV, IV))
  {
    UnpaddedBlockCount([]);
  }

  /** Padding only when the length is not a multiple of 64 lets a 64-byte
      message collide with a short one: the padded form of any 1..55-byte
      message, hashed as a message of its own, gives the same digest. */
  lemma ShortMessageCollision(m: seq<byte>)
    requires 1 <= |m| <= 55
    ensures |Padded(m)| == 64 && Padded(m) != m
    ensures Splittable(|Padded(m)|) && DigestOf(Padded(m)) == DigestOf(m)
  {
    ShortMessagesPadToOneBlock(|m|);
    assert Padded(Padded(m)) == Padded(m);
  }
}
