# One-time passwords from a hand-written SHA-1, and a binary min-heap

This project models the Rust crate `onetime-password` in Dafny and proves
properties of the model. The crate has three parts:

- `src/crypt.rs`: a SHA-1 digest engine. `Block::new` pads a message and
  splits it into 16-word big-endian blocks. `processor::append` expands a
  block into the 80-word message schedule. `processor::logical` selects the
  round function. `processor::digest` runs the 80 rounds per block and
  emits the five registers.
- `src/totp.rs`: HMAC-SHA1 after section 2 of RFC 2104 (`hmac`), dynamic
  truncation after section 5.3 of RFC 4226 (`hotp`), and the 30-second time
  step of section 4.2 of RFC 6238 (`totp`).
- `src/heap.rs`: an array-backed binary min-heap with `push` (sift-up) and
  `pop` (`swap_remove(0)`, then sift-down).

Modules:

- `Bytes` (bytes.dfy): `u8` and `u32` as `bv8` and `bv32`, and the
  big-endian conversions.
- `Crypt` (crypt.dfy): `src/crypt.rs` as written. `NewBlocks`, `Append` and
  `Digest` are the source's loops, each proved against a specification
  function (`Blocks`, `Schedule`, `DigestOf`).
- `Sha1` (sha1.dfy): the digest the crate evidently intends, with standard
  padding and the feed-forward of each block's registers. It reuses the
  schedule, round function and constants of `Crypt`.
- `Otp` (otp.dfy): `hmac`, `hotp` and `totp` over `Sha1.Digest`.
- `MinHeap` (heap.dfy): the heap as a class whose `heap` field is a
  sequence that `Push` and `Pop` reassign.
- `KnownAnswers` (known_answers.dfy): the crate's test vectors and two
  vectors from RFC 4226 and RFC 6238, proved about the model. Each input is
  fixed 16 bytes at a time. Each compression is unfolded 20 rounds at a time
  through literal intermediate registers.
- `FeedForward` (feed_forward.dfy): a two-block message on which the code's
  missing feed-forward changes the digest, proved with the same technique.

The code departs from SHA-1 in three places. The model keeps all three in
`Crypt`, where the code has them:

1. It pads only when the length is not a multiple of 64 (src/crypt.rs:16).
   A 64-byte message, and the empty message, are split unpadded.
2. It zero-fills until the length is a multiple of 56 (src/crypt.rs:18), not
   until it is 56 modulo 64. For most lengths the padded message then is not
   a whole number of 64-byte chunks, and `try_into().unwrap()` panics
   (src/crypt.rs:29). `Crypt.Splittable` is that precondition.
3. It never adds the working registers back into the state between blocks.
   It adds `H` once, after the last block (src/crypt.rs:75-100). The result
   is SHA-1 only for single-block messages (`Sha1.AgreesWithCryptOnOneBlock`).
   On two blocks it differs (`FeedForward.LettersAsWritten`, on the letter
   "a" 128 times).

`hmac` hashes through `Block::from_bytes` (src/totp.rs:11, :29-30), which
src/crypt.rs does not define. If it pads as `Block::new` does, then because
of 2 `hmac` as written cannot run: its outer input is always 84 bytes, and
84 bytes pad to 120 (`Crypt.SplitRejects`). `Otp` therefore builds on
`Sha1.Digest`, the corrected digest, as the crate's HMAC tests expect. The
RFC 2202 vectors those tests check are proved of it
(`KnownAnswers.HmacHiThere`, `KnownAnswers.HmacJefe`).

The code and the standard also disagree on the final HOTP step. The code
returns `snum & 1_000_000` (src/totp.rs:38), where RFC 4226 takes
`snum % 1_000_000`. The model keeps the code's version as
`Otp.HotpAsWritten` and proves the bound it actually gives: the result is a
multiple of 64 and at most 1_000_000. `Otp.Totp` is `totp` as written, so
it is built on `Otp.HotpAsWritten`. `Otp.Hotp` and `Otp.TotpIntended` are
the intended remainder versions. For the RFC 6238 secret at time 59 the code
as written gives 606784, where the standard gives 287082
(`KnownAnswers.TotpAtFiftyNine`).

## Model

| member | source | states |
|---|---|---|
| Crypt.ShiftNIsRotation | src/crypt.rs:6-8 | `shift_n(w, n)` is the 32-bit left rotation of `w` by `n` at the amounts 1, 5, 30 and 31 the digest uses |
| Crypt.ShiftNUndo | src/crypt.rs:6-8 | rotating by 1 and then by 31 gives the word back |
| Crypt.Padded | src/crypt.rs:16-24 | the padded length: unchanged when the length is a multiple of 64, otherwise message, marker, zero fill and 8-byte length field |
| Crypt.FillIsLeast | src/crypt.rs:18-20 | the zero-fill loop stops at the least multiple of 56 past the 0x80 marker |
| Crypt.PaddedShape | src/crypt.rs:16-24 | when the length is not a multiple of 64, the padded message is the message, then 0x80, then zeros up to a multiple of 56, then the 8-byte big-endian bit length |
| Crypt.SplittableIff | src/crypt.rs:16-29 | a length not a multiple of 64 can be split into whole blocks exactly when the fill ends at 56q with q = 1 modulo 8 |
| Crypt.FillEndsAt | src/crypt.rs:18-20 | the marker and the zero fill end at 56 * ((n + 56) / 56) |
| Crypt.ShortMessagesPadToOneBlock | src/crypt.rs:16-24 | messages of 1 to 55 bytes pad to exactly one 64-byte block |
| Crypt.SplitRejects | src/crypt.rs:18-29 | 56, 72 and 84 bytes pad to 120 bytes, which the split rejects; 84 bytes is the HMAC outer input |
| Crypt.BlockOf | src/crypt.rs:26-29 | one 64-byte chunk packs into a block of exactly 16 words |
| Crypt.Split | src/crypt.rs:25-30 | a byte vector of whole chunks gives one well-formed block per 64 bytes |
| Crypt.SplitWords | src/crypt.rs:25-30 | word j of block k is the big-endian packing of bytes 64k+4j to 64k+4j+3 |
| Crypt.Blocks | src/crypt.rs:12-31 | every block `Block::new` returns has exactly 16 words |
| Crypt.UnpaddedBlockCount | src/crypt.rs:16-25 | a message whose length is a multiple of 64 gives length/64 blocks, so the empty message gives none |
| Crypt.NewBlocks | src/crypt.rs:12-31 | the push loop and the chunking return the blocks of the padded message |
| Crypt.Chunks | src/crypt.rs:25-30 | the chunking loop returns the split of the byte vector |
| Crypt.Expand | src/crypt.rs:44-46 | extending a partial schedule always reaches 80 words |
| Crypt.Schedule | src/crypt.rs:42-48 | the schedule of a block has 80 words |
| Crypt.ExpandKeepsRecurrence | src/crypt.rs:44-46 | extension keeps the words already there and makes every word from 16 to 79 follow the recurrence |
| Crypt.ScheduleIsSchedule | src/crypt.rs:42-48 | the schedule starts with the block's 16 words unchanged and then `w[i] = rotl1(w[i-3] ^ w[i-8] ^ w[i-14] ^ w[i-16])` |
| Crypt.ScheduleUnique | src/crypt.rs:42-48 | any 80 words that meet the recurrence are the schedule |
| Crypt.Append | src/crypt.rs:42-48 | the `for` loop builds the 80-word schedule of the block |
| Crypt.LogicalStages | src/crypt.rs:50-62 | rounds below 20 choose c or d by b, rounds 20-39 and 60-79 take the parity, rounds 40-59 take the majority |
| Crypt.ChoiceStage | src/crypt.rs:52-54 | stage 0 takes c's bits where b is set and d's bits elsewhere |
| Crypt.ParityStage | src/crypt.rs:55-57 | stage 1 is the parity of b, c and d |
| Crypt.LastParityStage | src/crypt.rs:55-57 | stage 3 is the parity of b, c and d |
| Crypt.MajorityStage | src/crypt.rs:58-60 | stage 2 is the bitwise majority of b, c and d |
| Crypt.Serialize | src/crypt.rs:86-104 | the output is 20 bytes: the big-endian bytes of a, b, c, d, e in order |
| Crypt.DigestOf | src/crypt.rs:65-105 | the digest of a splittable message is 20 bytes |
| Crypt.Digest | src/crypt.rs:65-105 | the block and round loops compute `H` added to the registers left after the last block, serialized big-endian |
| Crypt.Hex | src/crypt.rs:86-100 | the rendering has two upper-case hexadecimal digits per byte |
| Crypt.UnhexHex | src/crypt.rs:86-100 | reading the hexadecimal rendering back gives the bytes: the rendering loses nothing |
| Crypt.EmptyMessageDigest | src/crypt.rs:16-25 | the empty message gives no block, so its digest is `H` added to itself |
| Crypt.ShortMessageCollision | src/crypt.rs:16 | the padded form of a 1-55 byte message, hashed unpadded as a 64-byte message, gives the same digest as the message |
| Sha1.Pad | src/crypt.rs:16-24 | standard padding is always a whole number of blocks and adds 9 to 72 bytes |
| Sha1.PadLength | src/crypt.rs:18-20 | filling to 56 modulo 64 makes message, marker, fill and length field a multiple of 64 |
| Sha1.PadShape | src/crypt.rs:16-24 | standard padding is the message, 0x80, zeros, then the 8-byte big-endian bit length |
| Sha1.PadInjective | src/crypt.rs:16-24 | distinct messages pad differently |
| Sha1.Digest | src/crypt.rs:65-105 | the corrected digest is 20 bytes |
| Sha1.AgreesWithCryptOnOneBlock | src/crypt.rs:65-105 | on 1 to 55 bytes the code as written computes the corrected digest |
| Sha1.PadAgrees | src/crypt.rs:16-24 | below 56 bytes the two paddings produce the same bytes |
| Sha1.OneBlock | src/crypt.rs:75-100 | over one block, adding the registers back once equals the feed-forward |
| Sha1.EveryMessageHasABlock | src/crypt.rs:16-25 | standard padding gives at least one block, also for the empty message |
| Otp.NormalizeKey | src/totp.rs:10-15 | the normalised key has exactly 64 bytes: a short key zero-filled, a longer key its 20-byte digest and 44 zeros |
| Otp.NormalizeKeyTrailingZero | src/totp.rs:10-14 | a short key and the same key with a zero byte appended normalise alike |
| Otp.NormalizeKeyIdempotent | src/totp.rs:10-14 | normalising a normalised key changes nothing |
| Otp.KeyXor | src/totp.rs:17-27 | the XOR loops produce 64 bytes |
| Otp.HmacSha1 | src/totp.rs:9-31 | the HMAC tag has 20 bytes |
| Otp.HmacInputs | src/totp.rs:17-29 | the inner input is the key XOR 0x36 then the counter (64 + counter length bytes); the outer input is the key XOR 0x5C then the 20-byte inner digest (84 bytes) |
| Otp.PadsRelated | src/totp.rs:17-27 | the two pads differ by 0x6A in each key byte, and XORing 0x36 again gives the key back |
| Otp.HmacTrailingZero | src/totp.rs:10-30 | a key shorter than 64 bytes and the same key with a zero byte appended give the same tag |
| Otp.Hmac | src/totp.rs:9-31 | the method's buffers and digests compute the HMAC tag |
| Otp.XorInto | src/totp.rs:17-20 | the in-place XOR loop leaves each pad byte XORed with the key byte at its index |
| Otp.Offset | src/totp.rs:36 | the offset is at most 15, so the 4-byte window lies inside the 20-byte tag |
| Otp.Truncate | src/totp.rs:37 | `snum` is below 2^31 and differs from the big-endian window only in the top bit |
| Otp.HotpAsWritten | src/totp.rs:33-39 | the code as written returns only bits of 1_000_000: at most 1_000_000 and a multiple of 64 |
| Otp.SixDigits | src/totp.rs:38 | the intended code is below 1_000_000 and congruent to `snum` modulo 1_000_000 |
| Otp.Hotp | src/totp.rs:33-39 | the intended HOTP code is below 1_000_000 |
| Otp.HotpIsNotModulo | src/totp.rs:38 | every window whose six-digit code is not a multiple of 64 gets a different code as written; a window of 999_999 gives 999_936 as written and 999_999 as intended |
| Otp.StepCounter | src/totp.rs:42-45 | the counter `t.to_be_bytes()` is 8 bytes whose big-endian value is secs / 30 |
| Otp.Totp | src/totp.rs:41-46 | `totp` as written returns at most 1_000_000 and always a multiple of 64 |
| Otp.TotpIntended | src/totp.rs:41-46 | the intended TOTP code is below 1_000_000 |
| Otp.TotpCounter | src/totp.rs:41-46 | `totp` is the truncated window of the step counter's HMAC, masked with `& 1_000_000` as written and reduced modulo 1_000_000 as intended; the two agree only when the intended code is a multiple of 64 |
| Otp.TotpSteps | src/totp.rs:44-45 | instants in the same 30-second step give the same code, as written and as intended; instants are in different steps exactly when their counters differ |
| MinHeap.Parent | src/heap.rs:22-25 | `(i+1)/2-1` is a smaller slot whose children are 2p+1 and 2p+2 |
| MinHeap.ChildSlots | src/heap.rs:22-25 | c has parent k exactly when c is 2k+1 or 2k+2 |
| MinHeap.RootBelow | src/heap.rs:39 | in a heap no slot is below the root |
| MinHeap.HeapMinimum | src/heap.rs:39 | the root of a non-empty heap is the minimum of its multiset |
| MinHeap.Swap | src/heap.rs:24 | `Vec::swap` exchanges two slots and keeps the multiset |
| MinHeap.SwapRemoveFirst | src/heap.rs:39 | `swap_remove(0)` moves the last element to slot 0 and removes exactly the first element |
| MinHeap.PushStart | src/heap.rs:17 | appending to a heap breaks the order at most below the new slot's parent |
| MinHeap.SiftUpStep | src/heap.rs:22-27 | one sift-up swap moves the possible break one level up |
| MinHeap.SiftUpDone | src/heap.rs:22-31 | sift-up stopping at the root or under a parent no larger leaves a heap |
| MinHeap.PopStart | src/heap.rs:39 | after `swap_remove(0)` the order can fail only below the root |
| MinHeap.BelowBothChildren | src/heap.rs:44-52 | a value no larger than both children slots is below every child |
| MinHeap.SiftDownStep | src/heap.rs:44-52 | swapping down with the smaller child moves the possible break one level down |
| MinHeap.SiftDownDone | src/heap.rs:45 | sift-down past the end leaves a heap |
| MinHeap.SiftDownRight | src/heap.rs:46-49 | the right-child branch applies only when the right child is below the left child and the slot, and keeps the order |
| MinHeap.SiftDownLeft | src/heap.rs:50-53 | otherwise the left-child branch applies when the left child is below the slot, and keeps the order |
| MinHeap.ChildrenOf | src/heap.rs:42-43 | slots 2k+1 and 2k+2 have parent k |
| MinHeap.SiftDownStop | src/heap.rs:54-56 | when neither swap applies the heap is whole |
| MinHeap.Heap.constructor | src/heap.rs:10-14 | `Heap::new` is an empty heap |
| MinHeap.Heap.Push | src/heap.rs:16-32 | push keeps the heap invariant, adds one slot, and adds `v` to the multiset |
| MinHeap.Heap.Pop | src/heap.rs:34-62 | pop on an empty heap returns None and changes nothing; otherwise it returns the old root, the minimum, and removes exactly it, keeping the invariant |
| MinHeap.Heap.SiftDown | src/heap.rs:41-58 | the sift-down loop restores the invariant and keeps the multiset |
| MinHeap.PushPopScenario | src/heap.rs:79-93 | pushing 5, 4, 3, 2, 1 and popping six times gives 1, 2, 3, 4, 5, then None |
| MinHeap.RangeMinimum | src/heap.rs:79-93 | the least of lo..hi-1 is lo, and removing it leaves lo+1..hi-1 |
| KnownAnswers.AbcdeBlock | src/crypt.rs:116-139 | "abcde" gives one block: 0x61626364, 0x65800000, thirteen zero words, 0x28 |
| KnownAnswers.AppleDigest | src/crypt.rs:141-145 | the digest of "apple" is the bytes of D0BE2DC421BE4FCD0172E5AFCEEA3970E2F3D940, and its hexadecimal rendering is exactly that string |
| KnownAnswers.HmacHiThere | src/totp.rs:54-59 | key 0x0b times 20 with "Hi There" gives B617318655057264E28BC0B6FB378C8EF146BE00 |
| KnownAnswers.HmacJefe | src/totp.rs:61-66 | key "Jefe" with "what do ya want for nothing?" gives EFFCDF6AE5EB2FA2D27416D5F184DF9C259A7C79 |
| KnownAnswers.HotpCounterZero | src/totp.rs:33-39 | for the RFC 4226 secret at counter 0 the window is 1284755224, the intended code 755224, and the code as written 213504 |
| FeedForward.LettersSplit | src/crypt.rs:25-30 | the letter "a" 128 times splits into two blocks whose every word is 0x61616161 |
| FeedForward.LettersBlocks | src/crypt.rs:12-31 | `Block::new` splits those 128 bytes unpadded into two equal blocks |
| FeedForward.LettersRun | src/crypt.rs:75-85 | as written, the second block's 80 rounds start from the registers the first block left |
| FeedForward.LettersChain | src/crypt.rs:75-85 | with the feed-forward, the second block starts from `H` plus the first block's registers, and the state is different |
| FeedForward.LettersAsWritten | src/crypt.rs:65-105 | on that message the code's digest is FEA71EA3D741E8EF36344FF6FC135C319F9CAF6E, and its register sum differs from the SHA-1 chain over the same two blocks |
| FeedForward.LettersSha1 | src/crypt.rs:65-105 | the corrected digest of the same message is AD5B3FDBCB526778C2839D2F151EA753995E26A0: two chained blocks and a padding block |
| KnownAnswers.TotpAtFiftyNine | src/totp.rs:33-46 | for the RFC 4226 secret at time 59 the window is 1094287082; the intended code is 287082, the last six digits of the RFC 6238 value 94287082, and the code as written is 606784 |

## Left out

- `SystemTime::now()` in `totp` (src/totp.rs:43): the seconds since the epoch are the parameter `secs` of `Otp.Totp`. The clock error path (`expect`) is therefore not modelled.
- `Block::new` and `digest` take a `&str`, whose bytes are always valid UTF-8. The model's domain is all byte strings, `seq<bv8>`, which also covers the byte-level `Block::from_bytes` that src/totp.rs calls. A byte string that is not valid UTF-8 reaches the code only through that byte-level entry.
- `digest` returns an upper-case hexadecimal `String` (src/crypt.rs:86-105). The model returns the 20 bytes. `Crypt.Hex` is the rendering, as a separate function.
- The panics of `unwrap`, `expect` and `panic!` (src/crypt.rs:27, src/crypt.rs:29, src/crypt.rs:61, src/totp.rs:36) are preconditions: `Crypt.Splittable` for the split, `t < 80` for `logical`. The offset `expect` cannot fail (`Otp.Offset`).
- Overflow of `len * 8` in `Block::new` for messages of 2^61 bytes or more is not modelled. The bit length is encoded modulo 2^64.
- `src/totp.rs` calls `Block::from_bytes` and treats `digest` as returning `[u8; 20]`. src/crypt.rs defines neither: its `digest` returns a hexadecimal `String`. The model gives the digest one signature over bytes.
- Otp.HmacSha1: hashes with the corrected `Sha1.Digest`, not the digest of src/crypt.rs. That digest panics on the 84-byte outer input if `Block::from_bytes` pads like `Block::new`, and it differs from SHA-1 on inputs of more than one block, such as a key longer than 64 bytes or the inner input.
- The bit length `(len * 8_usize).to_be_bytes()` (src/crypt.rs:22) is 8 bytes only where `usize` has 64 bits. The model assumes a 64-bit target.
- `Crypt.ShiftNIsRotation`: proved at the rotation amounts 1, 5, 30 and 31 that the code uses, not for every amount from 1 to 31.
- The `IntoIterator` impl of `Heap` (src/heap.rs:65-71) passes the vector through and is not modelled.
- Heap elements are integers with a total order. Rust's `PartialOrd`, where `partial_cmp` can return `None`, is not modelled. With a total order, the `while let` in `push` never stops on `None`.
- `src/lib.rs` is a one-line public wrapper and is not part of this model.
- Concurrency: none in the source.

## Findings

| source | as written | input that shows it | evidently intended | confidence | as-written member | corrected member |
|---|---|---|---|---|---|---|
| src/crypt.rs:18 | zero-fills until the length is a multiple of 56, so for most lengths the padded message is not whole 64-byte chunks and the split at src/crypt.rs:29 panics | 56, 72 and 84 bytes pad to 120 bytes; 84 bytes is the HMAC outer input, so every `hmac` call panics if `Block::from_bytes` pads like `Block::new` | zero-fill until the length is 56 modulo 64 | proved, not executed | Crypt.SplitRejects | Sha1.Pad |
| src/crypt.rs:16 | pads only when the length is not a multiple of 64, so the empty message gives no block and a 64-byte message collides with a short one | the empty message gives no block; "abcde" and its 64-byte padded form have the same digest, an input that is not valid UTF-8 and so reaches the code only through a byte-level entry such as `Block::from_bytes` | pad every message, which makes padding injective | proved, not executed | Crypt.ShortMessageCollision | Sha1.PadInjective |
| src/totp.rs:38 | returns `snum & 1_000_000`, a bitwise AND | the RFC 4226 secret at counter 0 gives 213504 instead of 755224 | `snum % 1_000_000` | proved, not executed | KnownAnswers.HotpCounterZero | Otp.SixDigits |
| src/crypt.rs:75-85 | never adds the block's registers back into the state; `H` is added once, after the last block | the letter "a" 128 times: the code gives FEA71EA3D741E8EF36344FF6FC135C319F9CAF6E, where SHA-1 gives AD5B3FDBCB526778C2839D2F151EA753995E26A0 | add each block's registers into the running state, as SHA-1 does | proved, not executed | FeedForward.LettersAsWritten | FeedForward.LettersSha1 |
