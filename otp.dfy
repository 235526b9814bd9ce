/** The one-time-password layer of src/totp.rs: `hmac` (HMAC-SHA1 after
    section 2 of RFC 2104), `hotp` (dynamic truncation after section 5.3 of
    RFC 4226) and `totp` (the 30-second time step of section 4.2 of RFC 6238).
    The digest is the corrected SHA-1 of module Sha1; the clock is a parameter. */
module Otp {
  import opened Bytes
  import Sha1

  /** Block length of the digest, in bytes. */
  const KeyLength: nat := 64

  /** Digest length, in bytes. */
  const TagLength: nat := 20

  // ------------------------------------------------------------------ hmac

  /** `key_bytes`: a key longer than 64 bytes is replaced by its 20-byte
      digest; either way it is then zero-filled to exactly 64 bytes. */
  function NormalizeKey(key: seq<byte>): (k: seq<byte>)
    ensures |k| == KeyLength
    ensures |key| <= KeyLength ==> k[..|key|] == key && forall i :: |key| <= i < KeyLength ==> k[i] == 0
    ensures |key| > KeyLength ==> k[..TagLength] == Sha1.Digest(key) && forall i :: TagLength <= i < KeyLength ==> k[i] == 0
  {
    if |key| > KeyLength then Sha1.Digest(key) + Zeros(KeyLength - TagLength) else key + Zeros(KeyLength - |key|)
  }

  /** A key shorter than 64 bytes and the same key with a zero byte appended
      normalise alike, so they give the same HMAC. */
  lemma NormalizeKeyTrailingZero(key: seq<byte>)
    requires |key| < KeyLength
    ensures NormalizeKey(key + [0]) == NormalizeKey(key)
  {
    var k1, k2 := NormalizeKey(key + [0]), NormalizeKey(key);
    forall i | 0 <= i < KeyLength
      ensures k1[i] == k2[i]
    {
      if i < |key| {
        assert k1[i] == (key + [0])[i] == key[i] == k2[i];
      } else if i == |key| {
        assert k1[i] == (key + [0])[i] == 0;
      }
    }
  }

  /** Normalising a normalised key changes nothing. */
  lemma NormalizeKeyIdempotent(key: seq<byte>)
    ensures NormalizeKey(NormalizeKey(key)) == NormalizeKey(key)
  {
    var k := NormalizeKey(key);
    assert NormalizeKey(k)[..KeyLength] == k;
  }

  /** The 64 key bytes, each XORed with `pad`. */
  function KeyXor(k: seq<byte>, pad: byte): (r: seq<byte>)
    requires |k| == KeyLength
    ensures |r| == KeyLength
  {
    seq(KeyLength, i requires 0 <= i < KeyLength => k[i] ^ pad)
  }

  /** The input of the inner digest: `ipad` after the XOR loop, extended by the counter. */
  function InnerInput(key: seq<byte>, counter: seq<byte>): seq<byte>
  {
    KeyXor(NormalizeKey(key), 0x36) + counter
  }

  /** The input of the outer digest: `opad` after the XOR loop, extended by the inner digest. */
  function OuterInput(key: seq<byte>, inner: seq<byte>): seq<byte>
  {
    KeyXor(NormalizeKey(key), 0x5C) + inner
  }

  /** HMAC-SHA1 of `counter` under `key`: the outer digest over the inner one. */
  function HmacSha1(key: seq<byte>, counter: seq<byte>): (tag: seq<byte>)
    ensures |tag| == TagLength
  {
    Sha1.Digest(OuterInput(key, Sha1.Digest(InnerInput(key, counter))))
  }

  /** The inner input is 64 + |counter| bytes: the key bytes XOR 0x36, then
      the counter unchanged. The outer input is 84 bytes: the key bytes XOR
      0x5C, then the 20-byte inner digest. */
  lemma HmacInputs(key: seq<byte>, counter: seq<byte>)
    ensures var inner := InnerInput(key, counter);
      && |inner| == KeyLength + |counter|
      && (forall i :: 0 <= i < KeyLength ==> inner[i] == NormalizeKey(key)[i] ^ 0x36)
      && inner[KeyLength..] == counter
    ensures var outer := OuterInput(key, Sha1.Digest(InnerInput(key, counter)));
      && |outer| == KeyLength + TagLength
      && (forall i :: 0 <= i < KeyLength ==> outer[i] == NormalizeKey(key)[i] ^ 0x5C)
      && outer[KeyLength..] == Sha1.Digest(InnerInput(key, counter))
  {
  }

  /** The two pads differ by 0x6A in every key byte, and XORing the pad
      again gives the normalised key back. */
  lemma PadsRelated(key: seq<byte>, counter: seq<byte>, inner: seq<byte>, i: nat)
    requires i < KeyLength
    ensures OuterInput(key, inner)[i] == InnerInput(key, counter)[i] ^ 0x6A
    ensures InnerInput(key, counter)[i] ^ 0x36 == NormalizeKey(key)[i]
  {
    XorPads(NormalizeKey(key)[i]);
  }

  lemma XorPads(b: byte)
    ensures (b ^ 0x36) ^ 0x6A == b ^ 0x5C
    ensures (b ^ 0x36) ^ 0x36 == b
  {
  }

  /** A key and the same key with a zero byte appended give the same tag. */
  lemma HmacTrailingZero(key: seq<byte>, counter: seq<byte>)
    requires |key| < KeyLength
    ensures HmacSha1(key + [0], counter) == HmacSha1(key, counter)
  {
    NormalizeKeyTrailingZero(key);
  }

  /** `hmac(key, counter)`: build `ipad` and `opad` by XORing the normalised
      key into 64 bytes of 0x36 and 0x5C, extend them, and take the nested digests. */
  method Hmac(key: seq<byte>, counter: seq<byte>) returns (tag: seq<byte>)
    ensures tag == HmacSha1(key, counter)
  {
    var keyBytes := NormalizeKey(key);
    var ipad := XorInto(0x36, keyBytes);
    ipad := ipad + counter;
    var opad := XorInto(0x5C, keyBytes);
    var inner := Sha1.Digest(ipad);
    opad := opad + inner;
    tag := Sha1.Digest(opad);
  }

  /** One of the two XOR loops of `hmac`: 64 bytes of `pad`, each XORed in
      place with the key byte at the same index. */
  method XorInto(pad: byte, keyBytes: seq<byte>) returns (buf: seq<byte>)
    requires |keyBytes| == KeyLength
    ensures buf == KeyXor(keyBytes, pad)
  {
    buf := seq(KeyLength, _ => pad);
    for i := 0 to |keyBytes|
      invariant |buf| == KeyLength
      invariant forall j :: 0 <= j < i ==> buf[j] == keyBytes[j] ^ pad
      invariant forall j :: i <= j < KeyLength ==> buf[j] == pad
    {
      XorCommutes(pad, keyBytes[i]);
      buf := buf[i := buf[i] ^ keyBytes[i]];
    }
  }

  lemma XorCommutes(x: byte, y: byte)
    ensures x ^ y == y ^ x
  {
  }

  // ------------------------------------------------------------------ hotp

  /** `digest[19] & 0x0F`: the offset of the 4-byte window, at most 15, so
      the window always lies inside the 20-byte tag. */
  function Offset(tag: seq<byte>): (offset: nat)
    requires |tag| == TagLength
    ensures offset + 4 <= TagLength
  {
    LowNibble(tag[19]);
    (tag[19] & 0x0F) as nat
  }

  lemma LowNibble(b: byte)
    ensures (b & 0x0F) as nat <= 15
  {
  }

  /** `snum`: the big-endian word at the offset with its top bit cleared. It
      is below 2^31 and differs from the window only in that bit. */
  function Truncate(tag: seq<byte>): (snum: word)
    requires |tag| == TagLength
    ensures var o := Offset(tag);
      var window := Pack(tag[o], tag[o + 1], tag[o + 2], tag[o + 3]);
      snum < 0x8000_0000 && snum + (window & 0x8000_0000) == window
  {
    var o := Offset(tag);
    var window := Pack(tag[o], tag[o + 1], tag[o + 2], tag[o + 3]);
    ClearTopBit(window);
    window & 0x7FFF_FFFF
  }

  lemma ClearTopBit(w: word)
    ensures w & 0x7FFF_FFFF < 0x8000_0000
    ensures (w & 0x7FFF_FFFF) + (w & 0x8000_0000) == w
  {
  }

  /** `hotp(key, counter)` as written: `snum & 1_000_000`, a bitwise AND
      where the one-time-password standard takes a remainder. The code has
      only bits of 1_000_000 set, so it is at most 1_000_000 and always a
      multiple of 64: most six-digit codes can never come out. */
  function HotpAsWritten(key: seq<byte>, counter: seq<byte>): (code: word)
    ensures code & 1_000_000 == code
    ensures code <= 1_000_000 && code % 64 == 0
  {
    var snum := Truncate(HmacSha1(key, counter));
    MaskBounds(snum);
    snum & 1_000_000
  }

  lemma MaskBounds(x: word)
    ensures (x & 1_000_000) & 1_000_000 == x & 1_000_000
    ensures x & 1_000_000 <= 1_000_000 && (x & 1_000_000) % 64 == 0
  {
  }

  /** The six-digit code of a truncated window: its value modulo 10^6. */
  function SixDigits(snum: word): (code: nat)
    ensures code < 1_000_000
    ensures (snum as nat - code) % 1_000_000 == 0
  {
    RemainderGap(snum as nat);
    snum as nat % 1_000_000
  }

  lemma RemainderGap(x: nat)
    ensures (x - x % 1_000_000) % 1_000_000 == 0
  {
    assert x - x % 1_000_000 == (x / 1_000_000) * 1_000_000;
  }

  /** `hotp(key, counter)` as intended: the six-digit code of the truncated
      window (the value of the source's `u32`). */
  function Hotp(key: seq<byte>, counter: seq<byte>): (code: nat)
    ensures code < 1_000_000
  {
    SixDigits(Truncate(HmacSha1(key, counter)))
  }

  /** Where the two differ: every window whose six-digit code is not a
      multiple of 64 gets a wrong code as written, since the bitwise AND
      yields only multiples of 64. A window of 999_999, for one, gives
      999_936 as written and 999_999 as intended. */
  lemma HotpIsNotModulo(snum: word)
    ensures SixDigits(snum) % 64 != 0 ==> (snum & 1_000_000) as nat != SixDigits(snum)
    ensures snum == 999_999 ==> snum & 1_000_000 == 999_936 && SixDigits(snum) == 999_999
  {
    MaskBounds(snum);
    if snum == 999_999 {
      MaskExample(snum);
    }
  }

  lemma MaskExample(x: word)
    requires x == 999_999
    ensures x & 1_000_000 == 999_936 && x as nat % 1_000_000 == 999_999
  {
  }

  // ------------------------------------------------------------------ totp

  /** Length of one time step, in seconds (`step`). */
  const Step: nat := 30

  /** The 8 big-endian counter bytes `totp` passes to hotp at `secs`
      seconds after the epoch: the step number secs / 30. */
  function StepCounter(secs: nat): (counter: seq<byte>)
    requires secs < 0x1_0000_0000_0000_0000
    ensures |counter| == 8 && Value(counter) == secs / Step
  {
    assert Pow256(8) == 0x1_0000_0000_0000_0000;
    ValueOfBigEndian(secs / Step, 8);
    BigEndian(secs / Step, 8)
  }

  /** `totp(key)` as written, at `secs` seconds after the epoch: hotp as
      written (`snum & 1_000_000`) of the step counter. */
  function Totp(key: seq<byte>, secs: nat): (code: word)
    requires secs < 0x1_0000_0000_0000_0000
    ensures code <= 1_000_000 && code % 64 == 0
  {
    HotpAsWritten(key, StepCounter(secs))
  }

  /** `totp(key)` as intended: the six-digit code of the step counter. */
  function TotpIntended(key: seq<byte>, secs: nat): (code: nat)
    requires secs < 0x1_0000_0000_0000_0000
    ensures code < 1_000_000
  {
    Hotp(key, StepCounter(secs))
  }

  /** The counter encodes the step number exactly, and totp is hotp of
      that counter: as written the masked window, as intended its value
      modulo 10^6. The two agree only when the intended code is a multiple
      of 64. */
  lemma TotpCounter(key: seq<byte>, secs: nat)
    requires secs < 0x1_0000_0000_0000_0000
    ensures StepCounter(secs) == BigEndian(secs / Step, 8)
    ensures Totp(key, secs) == Truncate(HmacSha1(key, BigEndian(secs / Step, 8))) & 1_000_000
    ensures TotpIntended(key, secs) == Truncate(HmacSha1(key, BigEndian(secs / Step, 8))) as nat % 1_000_000
    ensures Totp(key, secs) as nat == TotpIntended(key, secs) ==> TotpIntended(key, secs) % 64 == 0
  {
    var counter := BigEndian(secs / Step, 8);
    assert StepCounter(secs) == counter;
    var snum := Truncate(HmacSha1(key, counter));
    assert Totp(key, secs) == HotpAsWritten(key, counter) == snum & 1_000_000;
    assert TotpIntended(key, secs) == Hotp(key, counter) == SixDigits(snum);
    HotpIsNotModulo(snum);
  }

  /** Two instants in the same 30-second step get the same code, as
      written and as intended; instants in different steps get different
      counters. */
  lemma TotpSteps(key: seq<byte>, s1: nat, s2: nat)
    requires s1 < 0x1_0000_0000_0000_0000 && s2 < 0x1_0000_0000_0000_0000
    ensures s1 / Step == s2 / Step ==> Totp(key, s1) == Totp(key, s2)
    ensures s1 / Step == s2 / Step ==> TotpIntended(key, s1) == TotpIntended(key, s2)
    ensures s1 / Step != s2 / Step <==> StepCounter(s1) != StepCounter(s2)
  {
  }
}
