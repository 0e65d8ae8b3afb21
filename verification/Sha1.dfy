/**
 The hand-written SHA-1 of the update packer, proved against FIPS 180-4.

 `Sha1Spec` is the standard: padding (section 5.1.1), parsing (5.2.1), initial value
 (5.3.1) and the compression function (6.1.2), with the whole message schedule prepared
 before the first round.  `Sha1` is the packer's code: it builds the schedule in place while
 the rounds run, keeps one dirty 80-word buffer for all blocks and pads in that buffer.
 */
module Sha1Spec {
  type Word = bv32
  type Byte = bv8
  type Hash = h: seq<Word> | |h| == 5 witness [0, 0, 0, 0, 0]
  type Block = b: seq<Word> | |b| == 16 witness seq(16, _ => 0)

  datatype Vars = Vars(a: Word, b: Word, c: Word, d: Word, e: Word)

  function RotL1(x: Word): Word { (x << 1) | (x >> 31) }

  function RotL5(x: Word): Word { (x << 5) | (x >> 27) }

  function RotL30(x: Word): Word { (x << 30) | (x >> 2) }

  /** The recurrence of the message schedule. */
  function Mix(x: Word, y: Word, z: Word, u: Word): Word { RotL1(x ^ y ^ z ^ u) }

  function Ch(x: Word, y: Word, z: Word): Word { (x & y) ^ (!x & z) }

  function Parity(x: Word, y: Word, z: Word): Word { x ^ y ^ z }

  function Maj(x: Word, y: Word, z: Word): Word { (x & y) ^ (x & z) ^ (y & z) }

  /** Section 4.1.1: the logical function of round t. */
  function F(t: nat, x: Word, y: Word, z: Word): Word {
    if t < 20 then Ch(x, y, z)
    else if 40 <= t < 60 then Maj(x, y, z)
    else Parity(x, y, z)
  }

  /** Section 4.2.1: the constant of round t. */
  function K(t: nat): Word {
    if t < 20 then 0x5a827999
    else if t < 40 then 0x6ed9eba1
    else if t < 60 then 0x8f1bbcdc
    else 0xca62c1d6
  }

  /** Section 5.3.1. */
  function InitialHash(): Hash {
    [0x67452301, 0xefcdab89, 0x98badcfe, 0x10325476, 0xc3d2e1f0]
  }

  /** Section 6.1.2, step 1: the first n words of the message schedule. */
  function Schedule(m: Block, n: nat): (w: seq<Word>)
    requires 16 <= n
    ensures |w| == n && w[..16] == m
  {
    if n == 16 then m
    else
      var w := Schedule(m, n - 1);
      w + [Mix(w[n - 4], w[n - 9], w[n - 15], w[n - 17])]
  }

  function Sum(x: Word, f: Word, e: Word, k: Word, w: Word): Word { x + f + e + k + w }

  /** Section 6.1.2, step 3: one round. */
  function Round(v: Vars, t: nat, w: Word): Vars {
    Vars(Sum(RotL5(v.a), F(t, v.b, v.c, v.d), v.e, K(t), w), v.a, RotL30(v.b), v.c, v.d)
  }

  /** The first n rounds, on a schedule that is complete beforehand. */
  function Rounds(v: Vars, w: seq<Word>, n: nat): Vars
    requires n <= |w|
  {
    if n == 0 then v else Round(Rounds(v, w, n - 1), n - 1, w[n - 1])
  }

  function Load(h: Hash): Vars { Vars(h[0], h[1], h[2], h[3], h[4]) }

  function Plus(x: Word, y: Word): Word { x + y }

  /** Section 6.1.2 for one block. */
  function Compress(h: Hash, m: Block): Hash {
    var v := Rounds(Load(h), Schedule(m, 80), 80);
    [Plus(h[0], v.a), Plus(h[1], v.b), Plus(h[2], v.c), Plus(h[3], v.d), Plus(h[4], v.e)]
  }

  function CompressAll(h: Hash, ms: seq<Block>): Hash {
    if ms == [] then h else Compress(CompressAll(h, ms[..|ms| - 1]), ms[|ms| - 1])
  }

  function Join(x0: Word, x1: Word, x2: Word, x3: Word): Word {
    (x0 << 24) | (x1 << 16) | (x2 << 8) | x3
  }

  /** Section 5.2.1: the big-endian word of four bytes. */
  function WordOf(b0: Byte, b1: Byte, b2: Byte, b3: Byte): Word {
    Join(b0 as Word, b1 as Word, b2 as Word, b3 as Word)
  }

  function Parse(bytes: seq<Byte>): (w: seq<Word>)
    requires |bytes| % 4 == 0
    ensures |w| == |bytes| / 4
  {
    seq(|bytes| / 4, i requires 0 <= i < |bytes| / 4 =>
      WordOf(bytes[4 * i], bytes[4 * i + 1], bytes[4 * i + 2], bytes[4 * i + 3]))
  }

  function Blocks(w: seq<Word>): (r: seq<Block>)
    requires |w| % 16 == 0
    ensures |r| == |w| / 16
  {
    seq(|w| / 16, i requires 0 <= i < |w| / 16 => w[16 * i..16 * i + 16])
  }

  function Zeros(n: nat): (z: seq<Byte>)
    ensures |z| == n
  {
    seq(n, _ => 0)
  }

  /** Section 5.1.1: the smallest number of zero bytes that leaves 8 bytes in the last block. */
  function ZeroCount(len: nat): (k: nat)
    ensures k < 64 && (len + 1 + k) % 64 == 56
  {
    (119 - len % 64) % 64
  }

  /** Section 5.1.1: the 64-bit message length in bits, high word first. */
  function LengthWords(len: nat): (w: seq<Word>)
    ensures |w| == 2
  {
    [((8 * len / 0x1_0000_0000) % 0x1_0000_0000) as Word, ((8 * len) % 0x1_0000_0000) as Word]
  }

  function PadBytes(m: seq<Byte>): (p: seq<Byte>)
    ensures |p| % 64 == 56
  {
    m + [0x80] + Zeros(ZeroCount(|m|))
  }

  lemma PadLength(n: nat)
    requires n % 64 == 56
    ensures n % 4 == 0 && (n / 4 + 2) % 16 == 0
  {}

  function Pad(m: seq<Byte>): (w: seq<Word>)
    ensures |w| % 16 == 0
  {
    var p := PadBytes(m);
    PadLength(|p|);
    Parse(p) + LengthWords(|m|)
  }

  function BytesOf(w: Word): (b: seq<Byte>)
    ensures |b| == 4
  {
    [(w >> 24) as Byte, ((w >> 16) & 0xFF) as Byte, ((w >> 8) & 0xFF) as Byte, (w & 0xFF) as Byte]
  }

  function DigestBytes(h: Hash): (d: seq<Byte>)
    ensures |d| == 20
  {
    BytesOf(h[0]) + BytesOf(h[1]) + BytesOf(h[2]) + BytesOf(h[3]) + BytesOf(h[4])
  }

  /** SHA-1 of a message of whole bytes. */
  function Sha1Digest(m: seq<Byte>): seq<Byte> {
    DigestBytes(CompressAll(InitialHash(), Blocks(Pad(m))))
  }
}

/** `sha1Shift`, `sha1PartHash` and `hashSha1` of the packer. */
module Sha1 {
  import opened Sha1Spec

  function Sha1Shift(v: Word, shift: nat): Word
    requires shift <= 32
  {
    (v << shift) | (v >> (32 - shift))
  }

  // The packer's round functions, with `|` where the standard has exclusive or.
  function Choose(b: Word, c: Word, d: Word): Word { (b & c) | (!b & d) }

  function Odd(b: Word, c: Word, d: Word): Word { b ^ c ^ d }

  function Majority(b: Word, c: Word, d: Word): Word { (b & c) | (b & d) | (c & d) }

  lemma ChooseBits(b: Word, c: Word, d: Word)
    ensures (b & c) | (!b & d) == (b & c) ^ (!b & d)
  {}

  lemma MajorityBits(b: Word, c: Word, d: Word)
    ensures (b & c) | (b & d) | (c & d) == (b & c) ^ (b & d) ^ (c & d)
  {}

  lemma ChooseIsCh(b: Word, c: Word, d: Word)
    ensures Choose(b, c, d) == Ch(b, c, d)
  {
    ChooseBits(b, c, d);
  }

  lemma MajorityIsMaj(b: Word, c: Word, d: Word)
    ensures Majority(b, c, d) == Maj(b, c, d)
  {
    MajorityBits(b, c, d);
  }

  lemma OddIsParity(b: Word, c: Word, d: Word)
    ensures Odd(b, c, d) == Parity(b, c, d)
  {}

  lemma PackerFunctions(t: nat, b: Word, c: Word, d: Word)
    ensures t < 20 ==> Choose(b, c, d) == F(t, b, c, d)
    ensures 40 <= t < 60 ==> Majority(b, c, d) == F(t, b, c, d)
    ensures 20 <= t < 40 || 60 <= t ==> Odd(b, c, d) == F(t, b, c, d)
  {
    hide Choose, Ch, Majority, Maj, Odd, Parity;
    ChooseIsCh(b, c, d);
    MajorityIsMaj(b, c, d);
    OddIsParity(b, c, d);
  }

  lemma PackerShifts(v: Word)
    ensures Sha1Shift(v, 1) == RotL1(v)
    ensures Sha1Shift(v, 5) == RotL5(v)
    ensures Sha1Shift(v, 30) == RotL30(v)
  {}

  function NextWord(x: Word, y: Word, z: Word, u: Word): Word { Sha1Shift(x ^ y ^ z ^ u, 1) }

  lemma NextWordIsMix(x: Word, y: Word, z: Word, u: Word)
    ensures NextWord(x, y, z, u) == Mix(x, y, z, u)
  {
    hide RotL1, Sha1Shift;
    PackerShifts(x ^ y ^ z ^ u);
  }

  /** A shorter schedule is a prefix of a longer one. */
  lemma {:induction false} SchedulePrefix(m: Block, k: nat, n: nat)
    requires 16 <= k <= n
    ensures Schedule(m, n)[..k] == Schedule(m, k)
  {
    hide Mix;
    if k < n {
      SchedulePrefix(m, k, n - 1);
      assert Schedule(m, n)[..k] == Schedule(m, n - 1)[..k];
    }
  }

  /** The recurrence of the schedule, as the packer indexes it. */
  lemma ScheduleStep(m: Block, t: nat)
    requires 16 <= t < 80
    ensures var w := Schedule(m, 80); w[t] == Mix(w[t - 3], w[t - 8], w[t - 14], w[t - 16])
  {
    hide Mix;
    var w, p := Schedule(m, 80), Schedule(m, t);
    SchedulePrefix(m, t + 1, 80);
    SchedulePrefix(m, t, 80);
    assert w[t] == w[..t + 1][t] == Schedule(m, t + 1)[t];
    assert forall i | 0 <= i < t :: w[i] == w[..t][i] == p[i];
  }

  /** The macro `_shiftswap`: one round with the function value f and the constant k. */
  function ShiftSwap(v: Vars, f: Word, k: Word, w: Word): Vars {
    Vars(Sum(Sha1Shift(v.a, 5), f, v.e, k, w), v.a, Sha1Shift(v.b, 30), v.c, v.d)
  }

  lemma ShiftSwapIsRound(v: Vars, t: nat, w: Word)
    ensures ShiftSwap(v, F(t, v.b, v.c, v.d), K(t), w) == Round(v, t, w)
  {
    hide RotL5, RotL30, Sha1Shift, Sum, F, K;
    PackerShifts(v.a);
    PackerShifts(v.b);
  }

  lemma RoundStep(h: Hash, w: seq<Word>, t: nat, v: Vars, f: Word)
    requires t < 80 <= |w|
    requires v == Rounds(Load(h), w, t)
    requires f == F(t, v.b, v.c, v.d)
    ensures ShiftSwap(v, f, K(t), w[t]) == Rounds(Load(h), w, t + 1)
  {
    hide ShiftSwap, Round, F, K;
    ShiftSwapIsRound(v, t, w[t]);
  }

  /** The first line of the macro `_shiftshiftswap`. */
  method ExtendSchedule(temp: array<Word>, ghost m: Block, round: nat)
    requires temp.Length == 80 && 16 <= round < 80
    requires temp[..round] == Schedule(m, 80)[..round]
    modifies temp
    ensures temp[..round + 1] == Schedule(m, 80)[..round + 1]
    ensures temp[round] == Schedule(m, 80)[round]
  {
    ghost var w := Schedule(m, 80);
    hide Mix, NextWord;
    assert forall i | 0 <= i < round :: temp[i] == temp[..round][i] == w[i];
    ScheduleStep(m, round);
    NextWordIsMix(temp[round - 3], temp[round - 8], temp[round - 14], temp[round - 16]);
    temp[round] := NextWord(temp[round - 3], temp[round - 8], temp[round - 14], temp[round - 16]);
  }

  /**
   The 80 rounds, which extend the schedule in `temp` as they go.  The result depends on the
   first 16 words of `temp` alone.
   */
  method RunRounds(h: Hash, temp: array<Word>) returns (v: Vars)
    requires temp.Length == 80
    modifies temp
    ensures v == Rounds(Load(h), Schedule(old(temp[..16]), 80), 80)
  {
    hide F, Round, ShiftSwap, Choose, Odd, Majority, Mix;
    ghost var m: Block := temp[..16];
    ghost var w := Schedule(m, 80);
    v := Vars(h[0], h[1], h[2], h[3], h[4]);
    var round := 0;
    while round < 16
      invariant 0 <= round <= 16
      invariant temp[..16] == w[..16] && temp[round..16] == w[round..16]
      invariant v == Rounds(Load(h), w, round)
    {
      var f := Choose(v.b, v.c, v.d);
      PackerFunctions(round, v.b, v.c, v.d);
      RoundStep(h, w, round, v, f);
      v := ShiftSwap(v, f, 0x5a827999, temp[round]);
      round := round + 1;
    }
    while round < 20
      invariant 16 <= round <= 20 && temp[..round] == w[..round]
      invariant v == Rounds(Load(h), w, round)
    {
      ExtendSchedule(temp, m, round);
      var f := Choose(v.b, v.c, v.d);
      PackerFunctions(round, v.b, v.c, v.d);
      RoundStep(h, w, round, v, f);
      v := ShiftSwap(v, f, 0x5a827999, temp[round]);
      round := round + 1;
    }
    while round < 40
      invariant 20 <= round <= 40 && temp[..round] == w[..round]
      invariant v == Rounds(Load(h), w, round)
    {
      ExtendSchedule(temp, m, round);
      var f := Odd(v.b, v.c, v.d);
      PackerFunctions(round, v.b, v.c, v.d);
      RoundStep(h, w, round, v, f);
      v := ShiftSwap(v, f, 0x6ed9eba1, temp[round]);
      round := round + 1;
    }
    while round < 60
      invariant 40 <= round <= 60 && temp[..round] == w[..round]
      invariant v == Rounds(Load(h), w, round)
    {
      ExtendSchedule(temp, m, round);
      var f := Majority(v.b, v.c, v.d);
      PackerFunctions(round, v.b, v.c, v.d);
      RoundStep(h, w, round, v, f);
      v := ShiftSwap(v, f, 0x8f1bbcdc, temp[round]);
      round := round + 1;
    }
    while round < 80
      invariant 60 <= round <= 80 && temp[..round] == w[..round]
      invariant v == Rounds(Load(h), w, round)
    {
      ExtendSchedule(temp, m, round);
      var f := Odd(v.b, v.c, v.d);
      PackerFunctions(round, v.b, v.c, v.d);
      RoundStep(h, w, round, v, f);
      v := ShiftSwap(v, f, 0xca62c1d6, temp[round]);
      round := round + 1;
    }
  }

  /**
   One block.  The contract mentions only the first 16 words of `temp`: what the previous
   block left behind them never matters.
   */
  method Sha1PartHash(sha: array<Word>, temp: array<Word>)
    requires sha.Length == 5 && temp.Length == 80 && sha != temp
    modifies sha, temp
    ensures sha[..] == Compress(old(sha[..]), old(temp[..16]))
  {
    hide Plus;
    var v := RunRounds(sha[..], temp);
    sha[0] := Plus(sha[0], v.a);
    sha[1] := Plus(sha[1], v.b);
    sha[2] := Plus(sha[2], v.c);
    sha[3] := Plus(sha[3], v.d);
    sha[4] := Plus(sha[4], v.e);
  }

  /** What the packer pads with: it stores only a 32-bit length, over a zero high word. */
  function PackerPad(m: seq<Byte>): (w: seq<Word>)
    ensures |w| % 16 == 0
  {
    PadLength(|PadBytes(m)|);
    Parse(PadBytes(m)) + [0, LengthWords(|m|)[1]]
  }

  /** The packer's padding is the standard's exactly for messages of less than 2^29 bytes. */
  lemma PackerPadIsPad(m: seq<Byte>)
    requires |m| < 0x1_0000_0000
    ensures PackerPad(m) == Pad(m) <==> |m| < 0x2000_0000
  {
    hide LengthWords, Parse, PadBytes;
    PadLength(|PadBytes(m)|);
    var p, l := Parse(PadBytes(m)), LengthWords(|m|);
    assert PackerPad(m) == p + [0, l[1]] && Pad(m) == p + l;
    assert (p + [0, l[1]])[|p|] == 0 && (p + l)[|p|] == l[0];
    HighWord(|m|);
    assert l[0] == 0 ==> l == [0, l[1]];
  }

  lemma HighWord(len: nat)
    requires len < 0x1_0000_0000
    ensures LengthWords(len)[0] == 0 <==> len < 0x2000_0000
  {
    SmallCast(8 * len / 0x1_0000_0000);
  }

  lemma SmallCast(x: nat)
    requires x < 8
    ensures x as Word == 0 <==> x == 0
  {
    assert x == 0 || x == 1 || x == 2 || x == 3 || x == 4 || x == 5 || x == 6 || x == 7;
  }

  function At(t: seq<Byte>, k: nat): Byte {
    if k < |t| then t[k] else 0
  }

  /** Word j of a block whose bytes are t and then zeros. */
  function WordAt(t: seq<Byte>, j: nat): Word {
    WordOf(At(t, 4 * j), At(t, 4 * j + 1), At(t, 4 * j + 2), At(t, 4 * j + 3))
  }

  /** `w |= x << ((3 - r) << 3)`: byte r of a word goes to its place. */
  function OrByte(w: Word, x: Word, r: nat): Word {
    if r == 0 then w | (x << 24)
    else if r == 1 then w | (x << 16)
    else if r == 2 then w | (x << 8)
    else w | x
  }

  // The packer ors one byte after another into a zeroed word.
  lemma OrJoin0(x: Word)
    ensures 0 | (x << 24) == Join(x, 0, 0, 0)
  {}

  lemma OrJoin1(x0: Word, x: Word)
    ensures Join(x0, 0, 0, 0) | (x << 16) == Join(x0, x, 0, 0)
  {}

  lemma OrJoin2(x0: Word, x1: Word, x: Word)
    ensures Join(x0, x1, 0, 0) | (x << 8) == Join(x0, x1, x, 0)
  {}

  lemma OrJoin3(x0: Word, x1: Word, x2: Word, x: Word)
    ensures Join(x0, x1, x2, 0) | x == Join(x0, x1, x2, x)
  {}

  lemma OrJoin(x0: Word, x1: Word, x2: Word, x: Word, r: nat)
    requires r < 4
    ensures r == 0 ==> OrByte(0, x, r) == Join(x, 0, 0, 0)
    ensures r == 1 ==> OrByte(Join(x0, 0, 0, 0), x, r) == Join(x0, x, 0, 0)
    ensures r == 2 ==> OrByte(Join(x0, x1, 0, 0), x, r) == Join(x0, x1, x, 0)
    ensures r == 3 ==> OrByte(Join(x0, x1, x2, 0), x, r) == Join(x0, x1, x2, x)
  {
    hide Join;
    if r == 0 {
      OrJoin0(x);
    } else if r == 1 {
      OrJoin1(x0, x);
    } else if r == 2 {
      OrJoin2(x0, x1, x);
    } else {
      OrJoin3(x0, x1, x2, x);
    }
  }

  /** Oring byte number |t| into its word extends the bytes t by it. */
  lemma OrStep(t: seq<Byte>, x: Byte)
    ensures WordAt(t + [x], |t| / 4) == OrByte(WordAt(t, |t| / 4), x as Word, |t| % 4)
    ensures forall j: nat | j != |t| / 4 :: WordAt(t + [x], j) == WordAt(t, j)
  {
    hide Join, OrByte, WordOf;
    var j := |t| / 4;
    assert forall k: nat | k != |t| :: At(t + [x], k) == At(t, k);
    OrWord(At(t, 4 * j), At(t, 4 * j + 1), At(t, 4 * j + 2), x, |t| % 4);
  }

  lemma OrWord(b0: Byte, b1: Byte, b2: Byte, x: Byte, r: nat)
    requires r < 4
    ensures r == 0 ==> OrByte(WordOf(0, 0, 0, 0), x as Word, r) == WordOf(x, 0, 0, 0)
    ensures r == 1 ==> OrByte(WordOf(b0, 0, 0, 0), x as Word, r) == WordOf(b0, x, 0, 0)
    ensures r == 2 ==> OrByte(WordOf(b0, b1, 0, 0), x as Word, r) == WordOf(b0, b1, x, 0)
    ensures r == 3 ==> OrByte(WordOf(b0, b1, b2, 0), x as Word, r) == WordOf(b0, b1, b2, x)
  {
    hide Join, OrByte;
    ZeroWord();
    OrJoin(b0 as Word, b1 as Word, b2 as Word, x as Word, r);
  }

  lemma ZeroWord()
    ensures WordOf(0, 0, 0, 0) == 0
  {}

  // ---- The blocks the packer feeds are the blocks of the padded message. ----

  function PackerBlocks(m: seq<Byte>): seq<Block> { Blocks(PackerPad(m)) }

  lemma BlockCount(m: seq<Byte>)
    ensures |PackerBlocks(m)| == |m| / 64 + (if |m| % 64 < 56 then 1 else 2)
  {}

  function Tail(m: seq<Byte>): seq<Byte> { m[|m| / 64 * 64..] + [0x80] }

  /** A word in which the message still has all its bytes. */
  lemma MessageWord(m: seq<Byte>, i: nat, j: nat)
    requires 64 * i + 64 <= |m| && j < 16
    ensures i < |PackerBlocks(m)|
    ensures var k := 64 * i + 4 * j;
            PackerBlocks(m)[i][j] == WordOf(m[k], m[k + 1], m[k + 2], m[k + 3])
  {
    hide WordOf, LengthWords, ZeroCount;
    BlockCount(m);
    var p := PadBytes(m);
    var k := 64 * i + 4 * j;
    assert PackerBlocks(m)[i][j] == PackerPad(m)[16 * i + j] == Parse(p)[16 * i + j];
  }

  lemma TailByte(m: seq<Byte>, k: nat)
    requires |m| / 64 * 64 + k < |PadBytes(m)|
    ensures PadBytes(m)[|m| / 64 * 64 + k] == At(Tail(m), k)
  {}

  /** A word of the one or two blocks that hold the end of the message. */
  lemma TailWord(m: seq<Byte>, i: nat, j: nat)
    requires |m| / 64 <= i < |PackerBlocks(m)| && j < 16
    requires i < |PackerBlocks(m)| - 1 || j < 14
    ensures PackerBlocks(m)[i][j] == WordAt(Tail(m), 16 * (i - |m| / 64) + j)
  {
    hide WordOf, LengthWords, ZeroCount, PadBytes, Tail;
    BlockCount(m);
    var k := 64 * (i - |m| / 64) + 4 * j;
    assert PackerBlocks(m)[i][j] == PackerPad(m)[16 * i + j] == Parse(PadBytes(m))[16 * i + j];
    TailByte(m, k);
    TailByte(m, k + 1);
    TailByte(m, k + 2);
    TailByte(m, k + 3);
  }

  /** The last two words hold the length. */
  lemma LastWords(m: seq<Byte>)
    ensures var b := PackerBlocks(m);
            |b| > 0 && b[|b| - 1][14] == 0 && b[|b| - 1][15] == LengthWords(|m|)[1]
  {
    hide WordOf, LengthWords, ZeroCount;
    BlockCount(m);
    var b, w := PackerBlocks(m), PackerPad(m);
    assert b[|b| - 1][14] == w[|w| - 2] && b[|b| - 1][15] == w[|w| - 1];
  }

  // ---- The messages on which the block loop ends. ----

  /** The 32-bit counter `block` after one pass: the inner loop moves it up to `end`. */
  function NextBlock(block: nat): nat {
    var end := (block + 64) % 0x1_0000_0000;
    if block < end then end else block
  }

  function BlockAfter(passes: nat): nat {
    if passes == 0 then 0 else NextBlock(BlockAfter(passes - 1))
  }

  predicate GoesOn(block: nat, len: nat) {
    (block + 64) % 0x1_0000_0000 <= len
  }

  lemma NextBlockIs(block: nat)
    requires block <= 0xffff_ffc0
    ensures NextBlock(block) == if block < 0xffff_ffc0 then block + 64 else block
  {}

  lemma {:induction false} BlockIs(passes: nat)
    ensures BlockAfter(passes) == if passes <= 0x3ff_ffff then 64 * passes else 0xffff_ffc0
  {
    hide NextBlock;
    if passes > 0 {
      BlockIs(passes - 1);
      NextBlockIs(BlockAfter(passes - 1));
    }
  }

  lemma PassIs(len: nat, passes: nat)
    requires len < 0x1_0000_0000
    ensures GoesOn(BlockAfter(passes), len) <==> passes >= 0x3ff_ffff || 64 * passes + 64 <= len
  {
    hide BlockAfter;
    BlockIs(passes);
  }

  /**
   The loop over the whole pieces ends exactly for messages shorter than 2^32 - 64 bytes, and then
   after as many passes as there are pieces; for longer ones `block + 64` becomes 0, and `block`
   stays where it is.
   */
  lemma BlockLoopEnds(len: nat)
    requires len < 0x1_0000_0000
    ensures (exists k: nat :: !GoesOn(BlockAfter(k), len)) <==> len < 0xffff_ffc0
    ensures len < 0xffff_ffc0 ==>
              && BlockAfter(len / 64) == len / 64 * 64 && !GoesOn(BlockAfter(len / 64), len)
              && forall k: nat | k < len / 64 :: GoesOn(BlockAfter(k), len)
  {
    hide BlockAfter, GoesOn;
    forall k: nat
      ensures GoesOn(BlockAfter(k), len) <==> k >= 0x3ff_ffff || 64 * k + 64 <= len
    {
      PassIs(len, k);
    }
    BlockIs(len / 64);
  }

  // ---- hashSha1 ----

  /** The loop over the whole 64-byte pieces of the message. */
  method FeedWholeBlocks(data: array<Byte>, sha: array<Word>, temp: array<Word>) returns (block: nat)
    requires data.Length < 0xffff_ffc0
    requires sha.Length == 5 && temp.Length == 80 && sha != temp
    modifies sha, temp
    ensures block == data.Length / 64 * 64
    ensures sha[..] == CompressAll(old(sha[..]), PackerBlocks(data[..])[..data.Length / 64])
  {
    hide Compress, WordOf, PackerBlocks, BytesOf;
    block := 0;
    ghost var m, h: Hash := data[..], sha[..];
    BlockCount(m);
    var end := block + 64;
    while block + 64 <= data.Length
      invariant block % 64 == 0 && block <= data.Length && end == block + 64
      invariant sha[..] == CompressAll(h, PackerBlocks(m)[..block / 64])
    {
      ghost var first, b := block, PackerBlocks(m);
      ghost var n := first / 64;
      var i := 0;
      while block < end
        invariant block == first + 4 * i && i <= 16
        invariant sha[..] == CompressAll(h, b[..n])
        invariant forall j | 0 <= j < i :: temp[j] == b[n][j]
      {
        MessageWord(m, n, i);
        temp[i] := WordOf(data[block], data[block + 1], data[block + 2], data[block + 3]);
        i := i + 1;
        block := block + 4;
      }
      assert temp[..16] == b[n];
      assert b[..n + 1][..n] == b[..n];
      Sha1PartHash(sha, temp);
      assert block / 64 == n + 1;
      end := block + 64;
    }
  }

  method ClearBlock(temp: array<Word>)
    requires temp.Length == 80
    modifies temp
    ensures forall j | 0 <= j < 16 :: temp[j] == 0
  {
    forall j | 0 <= j < 16 {
      temp[j] := 0;
    }
  }

  /** The bytes after the last whole piece, and the byte 0x80 after them. */
  method LoadTail(data: array<Byte>, block: nat, temp: array<Word>)
    requires temp.Length == 80 && block == data.Length / 64 * 64
    modifies temp
    ensures forall j | 0 <= j < 16 :: temp[j] == WordAt(Tail(data[..]), j)
  {
    hide WordOf, OrByte;
    ghost var t := data[block..];
    var end := data.Length - block;
    ClearBlock(temp);
    ZeroWord();
    var last := 0;
    while last < end
      invariant last <= end
      invariant forall j | 0 <= j < 16 :: temp[j] == WordAt(t[..last], j)
    {
      OrStep(t[..last], data[last + block]);
      assert t[..last + 1] == t[..last] + [data[last + block]];
      temp[last / 4] := OrByte(temp[last / 4], data[last + block] as Word, last % 4);
      last := last + 1;
    }
    assert t[..last] == t && Tail(data[..]) == t + [0x80];
    OrStep(t, 0x80);
    temp[last / 4] := OrByte(temp[last / 4], 0x80, last % 4);
  }

  lemma ZeroTail(t: seq<Byte>, j: nat)
    requires |t| <= 4 * j
    ensures WordAt(t, j) == 0
  {
    ZeroWord();
  }

  /** The last block, or the last two when the length does not fit beside the tail. */
  method FeedTail(data: array<Byte>, ghost h: Hash, sha: array<Word>, temp: array<Word>)
    requires data.Length < 0xffff_ffc0
    requires sha.Length == 5 && temp.Length == 80 && sha != temp
    requires |PackerBlocks(data[..])| >= data.Length / 64
    requires sha[..] == CompressAll(h, PackerBlocks(data[..])[..data.Length / 64])
    modifies sha, temp
    ensures sha[..] == CompressAll(h, PackerBlocks(data[..]))
  {
    hide Compress, CompressAll, PackerBlocks, WordAt, WordOf, Tail;
    ghost var m, b, n := data[..], PackerBlocks(data[..]), data.Length / 64;
    BlockCount(m);
    LastWords(m);
    var block := data.Length / 64 * 64;
    var end := data.Length - block;
    LoadTail(data, block, temp);
    assert |Tail(m)| == end + 1 by { TailLength(m); }
    if end >= 56 {
      forall j | 0 <= j < 16 ensures temp[j] == b[n][j] {
        TailWord(m, n, j);
      }
      assert temp[..16] == b[n];
      Sha1PartHash(sha, temp);
      CompressNext(h, b, n);
      n := n + 1;
      assert sha[..] == CompressAll(h, b[..n]);
      ClearBlock(temp);
      forall j | 0 <= j < 14 ensures temp[j] == b[n][j] {
        TailWord(m, n, j);
        ZeroTail(Tail(m), 16 + j);
      }
    } else {
      forall j | 0 <= j < 14 ensures temp[j] == b[n][j] {
        TailWord(m, n, j);
      }
      ZeroTail(Tail(m), 14);
    }
    temp[15] := ((8 * data.Length) % 0x1_0000_0000) as Word;
    assert |b| == n + 1 && temp[..16] == b[n] && b[..n + 1] == b;
    Sha1PartHash(sha, temp);
    CompressNext(h, b, n);
  }

  lemma CompressNext(h: Hash, b: seq<Block>, n: nat)
    requires n < |b|
    ensures CompressAll(h, b[..n + 1]) == Compress(CompressAll(h, b[..n]), b[n])
  {
    hide Compress;
    assert b[..n + 1][..n] == b[..n];
  }

  lemma TailLength(m: seq<Byte>)
    ensures |Tail(m)| == |m| % 64 + 1
  {}

  method WriteDigest(sha: array<Word>, dest: array<Byte>)
    requires sha.Length == 5 && dest.Length >= 20
    modifies dest
    ensures dest[..20] == DigestBytes(sha[..])
    ensures dest[20..] == old(dest[20..])
  {
    hide BytesOf, ByteAt, DigestBytes;
    ghost var h: Hash := sha[..];
    var i := 19;
    while i >= 0
      invariant -1 <= i <= 19
      invariant forall j | i < j < 20 :: dest[j] == BytesOf(h[j / 4])[j % 4]
      invariant dest[20..] == old(dest[20..])
    {
      ByteIndex(i);
      ByteAtIsByteOf(h[i / 4], i % 4);
      dest[i] := ByteAt(sha[i / 4], (3 - i) % 4);
      i := i - 1;
    }
    DigestAt(h, dest[..20]);
  }

  lemma ByteIndex(i: nat)
    ensures (3 - i) % 4 == 3 - i % 4
  {}

  /** `(w >> (s << 3)) & 0xFF`. */
  function ByteAt(w: Word, s: nat): Byte
    requires s < 4
  {
    if s == 0 then (w & 0xFF) as Byte
    else if s == 1 then ((w >> 8) & 0xFF) as Byte
    else if s == 2 then ((w >> 16) & 0xFF) as Byte
    else ((w >> 24) & 0xFF) as Byte
  }

  lemma TopByte(w: Word)
    ensures (w >> 24) & 0xFF == w >> 24
  {}

  lemma ByteAtIsByteOf(w: Word, r: nat)
    requires r < 4
    ensures BytesOf(w)[r] == ByteAt(w, 3 - r)
  {
    TopByte(w);
  }

  lemma DigestAt(h: Hash, d: seq<Byte>)
    requires |d| == 20 && forall j | 0 <= j < 20 :: d[j] == BytesOf(h[j / 4])[j % 4]
    ensures d == DigestBytes(h)
  {
    hide BytesOf;
    assert d == d[0..4] + d[4..8] + d[8..12] + d[12..16] + d[16..20];
    DigestWord(h, d, 0);
    DigestWord(h, d, 1);
    DigestWord(h, d, 2);
    DigestWord(h, d, 3);
    DigestWord(h, d, 4);
  }

  lemma DigestWord(h: Hash, d: seq<Byte>, k: nat)
    requires k < 5
    requires |d| == 20 && forall j | 0 <= j < 20 :: d[j] == BytesOf(h[j / 4])[j % 4]
    ensures d[4 * k..4 * k + 4] == BytesOf(h[k])
  {
    hide BytesOf;
    forall r | 0 <= r < 4 ensures d[4 * k + r] == BytesOf(h[k])[r] {
      assert (4 * k + r) / 4 == k && (4 * k + r) % 4 == r;
    }
  }

  /**
   The digest that the packer computes.  For messages of 2^29 bytes or more the high word of
   the length is lost (see PackerPadIsPad); from 2^32 - 64 bytes on the loop of the source never ends
   (see BlockLoopEnds).
   */
  method HashSha1(data: array<Byte>, dest: array<Byte>)
    requires data.Length < 0xffff_ffc0 && dest.Length >= 20
    modifies dest
    ensures dest[..20] == DigestBytes(CompressAll(InitialHash(), PackerBlocks(old(data[..]))))
    ensures data.Length < 0x2000_0000 ==> dest[..20] == Sha1Digest(old(data[..]))
    ensures dest[20..] == old(dest[20..])
  {
    hide Compress, BytesOf, PackerPad, Pad;
    var temp := new Word[80];
    var sha := new Word[5] [0x67452301, 0xefcdab89, 0x98badcfe, 0x10325476, 0xc3d2e1f0];
    assert sha[..] == InitialHash();
    var block := FeedWholeBlocks(data, sha, temp);
    BlockCount(data[..]);
    FeedTail(data, InitialHash(), sha, temp);
    PackerPadIsPad(data[..]);
    WriteDigest(sha, dest);
  }
}
