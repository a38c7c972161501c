/** SHA-256 as FIPS 180-4 defines it, and the streaming hasher that computes it. */
module Sha256 {
  import Bytes

  // ---------------------------------------------------------------- section 4: functions and constants

  function RotateRight(x: bv32, n: nat): bv32
    requires 0 < n < 32
  {
    (x >> n) | (x << (32 - n))
  }

  function Choose(x: bv32, y: bv32, z: bv32): bv32 { (x & y) ^ (!x & z) }

  function Majority(x: bv32, y: bv32, z: bv32): bv32 { (x & y) ^ (x & z) ^ (y & z) }

  function BigSigma0(x: bv32): bv32 { RotateRight(x, 2) ^ RotateRight(x, 13) ^ RotateRight(x, 22) }

  function BigSigma1(x: bv32): bv32 { RotateRight(x, 6) ^ RotateRight(x, 11) ^ RotateRight(x, 25) }

  function SmallSigma0(x: bv32): bv32 { RotateRight(x, 7) ^ RotateRight(x, 18) ^ (x >> 3) }

  function SmallSigma1(x: bv32): bv32 { RotateRight(x, 17) ^ RotateRight(x, 19) ^ (x >> 10) }

  /** Addition modulo 2^32. */
  function Add(x: bv32, y: bv32): bv32 { x + y }

  function Add4(w: bv32, x: bv32, y: bv32, z: bv32): bv32 { Add(Add(Add(w, x), y), z) }

  const ROUND_CONSTANTS: seq<bv32> := [
    0x428a2f98, 0x71374491, 0xb5c0fbcf, 0xe9b5dba5, 0x3956c25b, 0x59f111f1, 0x923f82a4, 0xab1c5ed5,
    0xd807aa98, 0x12835b01, 0x243185be, 0x550c7dc3, 0x72be5d74, 0x80deb1fe, 0x9bdc06a7, 0xc19bf174,
    0xe49b69c1, 0xefbe4786, 0x0fc19dc6, 0x240ca1cc, 0x2de92c6f, 0x4a7484aa, 0x5cb0a9dc, 0x76f988da,
    0x983e5152, 0xa831c66d, 0xb00327c8, 0xbf597fc7, 0xc6e00bf3, 0xd5a79147, 0x06ca6351, 0x14292967,
    0x27b70a85, 0x2e1b2138, 0x4d2c6dfc, 0x53380d13, 0x650a7354, 0x766a0abb, 0x81c2c92e, 0x92722c85,
    0xa2bfe8a1, 0xa81a664b, 0xc24b8b70, 0xc76c51a3, 0xd192e819, 0xd6990624, 0xf40e3585, 0x106aa070,
    0x19a4c116, 0x1e376c08, 0x2748774c, 0x34b0bcb5, 0x391c0cb3, 0x4ed8aa4a, 0x5b9cca4f, 0x682e6ff3,
    0x748f82ee, 0x78a5636f, 0x84c87814, 0x8cc70208, 0x90befffa, 0xa4506ceb, 0xbef9a3f7, 0xc67178f2]

  /** The eight working variables, and the eight words of a hash value. */
  datatype Words = Words(a: bv32, b: bv32, c: bv32, d: bv32, e: bv32, f: bv32, g: bv32, h: bv32)

  const INITIAL_HASH: Words :=
    Words(0x6a09e667, 0xbb67ae85, 0x3c6ef372, 0xa54ff53a, 0x510e527f, 0x9b05688c, 0x1f83d9ab, 0x5be0cd19)

  // ---------------------------------------------------------------- section 5: padding and parsing

  const TWO64: nat := Bytes.TWO64

  function Zeros(n: nat): (s: seq<bv8>)
    ensures |s| == n
  {
    if n == 0 then [] else Zeros(n - 1) + [0]
  }

  /** The byte of a 64-bit number that comes `i`-th, most significant first. */
  function LengthByte(n: nat, i: nat): bv8
    requires i < 8
  {
    ((n / Bytes.Pow256(7 - i)) % 256) as bv8
  }

  function LengthBytes(n: nat): (s: seq<bv8>)
    ensures |s| == 8
  {
    [LengthByte(n, 0), LengthByte(n, 1), LengthByte(n, 2), LengthByte(n, 3),
     LengthByte(n, 4), LengthByte(n, 5), LengthByte(n, 6), LengthByte(n, 7)]
  }

  /** How many zero bytes bring a message and its marker to 56 bytes past a block boundary: the fewest that do. */
  function ZeroCount(length: nat): (k: nat)
    ensures k < 64 && (length + 1 + k) % 64 == 56
  {
    (119 - length % 64) % 64
  }

  lemma PaddedLength(n: nat)
    ensures (n + 1 + ZeroCount(n) + 8) % 64 == 0
  {}

  function Padded(message: seq<bv8>): (s: seq<bv8>)
    ensures |s| == |message| + 1 + ZeroCount(|message|) + 8
  {
    message + [0x80] + Zeros(ZeroCount(|message|)) + LengthBytes(8 * |message|)
  }

  // ---------------------------------------------------------------- section 6: the computation

  type Block = b: seq<bv8> | |b| == 64 witness Zeros(64)

  function WordAt(block: Block, t: nat): bv32
    requires t < 16
  {
    ((block[4 * t] as bv32) << 24) | ((block[4 * t + 1] as bv32) << 16)
    | ((block[4 * t + 2] as bv32) << 8) | (block[4 * t + 3] as bv32)
  }

  /** The message schedule. */
  function Schedule(block: Block, t: nat): bv32
    requires t < 64
  {
    if t < 16 then WordAt(block, t)
    else Add4(SmallSigma1(Schedule(block, t - 2)), Schedule(block, t - 7), SmallSigma0(Schedule(block, t - 15)),
              Schedule(block, t - 16))
  }

  function Round(v: Words, k: bv32, w: bv32): Words {
    var t1 := Add(Add4(v.h, BigSigma1(v.e), Choose(v.e, v.f, v.g), k), w);
    var t2 := Add(BigSigma0(v.a), Majority(v.a, v.b, v.c));
    Words(Add(t1, t2), v.a, v.b, v.c, Add(v.d, t1), v.e, v.f, v.g)
  }

  function Rounds(v: Words, block: Block, t: nat): Words
    requires t <= 64
  {
    if t == 0 then v else Round(Rounds(v, block, t - 1), ROUND_CONSTANTS[t - 1], Schedule(block, t - 1))
  }

  function Sum(x: Words, y: Words): Words {
    Words(Add(x.a, y.a), Add(x.b, y.b), Add(x.c, y.c), Add(x.d, y.d), Add(x.e, y.e), Add(x.f, y.f), Add(x.g, y.g),
          Add(x.h, y.h))
  }

  /** One intermediate hash value from the one before. */
  function Compressed(v: Words, block: Block): Words {
    Sum(v, Rounds(v, block, 64))
  }

  function HashBlocks(s: seq<bv8>): Words
    requires Aligned(|s|)
    decreases |s|
  {
    if s == [] then INITIAL_HASH else Compressed(HashBlocks(s[..|s| - 64]), s[|s| - 64..])
  }

  function BytesOfWord(w: bv32): (s: seq<bv8>)
    ensures |s| == 4
  {
    [((w >> 24) & 0xff) as bv8, ((w >> 16) & 0xff) as bv8, ((w >> 8) & 0xff) as bv8, (w & 0xff) as bv8]
  }

  function BytesOf(v: Words): (s: seq<bv8>)
    ensures |s| == 32
  {
    BytesOfWord(v.a) + BytesOfWord(v.b) + BytesOfWord(v.c) + BytesOfWord(v.d)
    + BytesOfWord(v.e) + BytesOfWord(v.f) + BytesOfWord(v.g) + BytesOfWord(v.h)
  }

  /** The digest FIPS 180-4 assigns to a message. */
  function Digest(message: seq<bv8>): (s: seq<bv8>)
    ensures |s| == 32
  {
    PaddedLength(|message|);
    assert Aligned(|Padded(message)|);
    BytesOf(HashBlocks(Padded(message)))
  }

  // ---------------------------------------------------------------- one more block

  predicate Aligned(n: nat) { n % 64 == 0 }

  /** The message length in bits, as a 64-bit counter holds it. */
  function BitsOf(n: nat): nat { (8 * n) % TWO64 }

  lemma HashOneMore(s: seq<bv8>, block: Block)
    requires Aligned(|s|)
    ensures Aligned(|s + block|) && HashBlocks(s + block) == Compressed(HashBlocks(s), block)
  {
    hide Compressed;
    var t := s + block;
    assert t[..|t| - 64] == s && t[|t| - 64..] == block;
  }

  lemma ScheduleStep(block: Block, t: nat)
    requires 16 <= t < 64
    ensures Schedule(block, t)
         == Add4(SmallSigma1(Schedule(block, t - 2)), Schedule(block, t - 7), SmallSigma0(Schedule(block, t - 15)),
                 Schedule(block, t - 16))
  {
    hide Add4, SmallSigma0, SmallSigma1, WordAt;
  }

  lemma RoundStep(v: Words, block: Block, t: nat)
    requires t < 64
    ensures Rounds(v, block, t + 1) == Round(Rounds(v, block, t), ROUND_CONSTANTS[t], Schedule(block, t))
  {
    hide Round, Schedule;
  }

  method ScheduleOf(block: Block) returns (schedule: seq<bv32>)
    ensures |schedule| == 64 && forall t :: 0 <= t < 64 ==> schedule[t] == Schedule(block, t)
  {
    hide Add4, SmallSigma0, SmallSigma1, WordAt, Schedule;
    var words := new bv32[64];
    var t := 0;
    while t < 16
      invariant 0 <= t <= 16
      invariant forall i :: 0 <= i < t ==> words[i] == Schedule(block, i)
    {
      ScheduleStart(block, t);
      words[t] := WordAt(block, t);
      t := t + 1;
    }
    while t < 64
      invariant 16 <= t <= 64
      invariant forall i :: 0 <= i < t ==> words[i] == Schedule(block, i)
    {
      ScheduleStep(block, t);
      words[t] := Add4(SmallSigma1(words[t - 2]), words[t - 7], SmallSigma0(words[t - 15]), words[t - 16]);
      t := t + 1;
    }
    schedule := words[..];
  }

  lemma ScheduleStart(block: Block, t: nat)
    requires t < 16
    ensures Schedule(block, t) == WordAt(block, t)
  {}

  /** The 64 rounds over the working variables. */
  method RunRounds(v: Words, block: Block) returns (w: Words)
    ensures w == Rounds(v, block, 64)
  {
    hide Add, Add4, BigSigma0, BigSigma1, Choose, Majority, Schedule, Rounds;
    var schedule := ScheduleOf(block);
    var a, b, c, d, e, f, g, h := v.a, v.b, v.c, v.d, v.e, v.f, v.g, v.h;
    var t := 0;
    RoundsStart(v, block);
    while t < 64
      invariant 0 <= t <= 64 && Words(a, b, c, d, e, f, g, h) == Rounds(v, block, t)
    {
      RoundStep(v, block, t);
      var temp1 := Add(Add4(h, BigSigma1(e), Choose(e, f, g), ROUND_CONSTANTS[t]), schedule[t]);
      var temp2 := Add(BigSigma0(a), Majority(a, b, c));
      h := g;
      g := f;
      f := e;
      e := Add(d, temp1);
      d := c;
      c := b;
      b := a;
      a := Add(temp1, temp2);
      t := t + 1;
    }
    w := Words(a, b, c, d, e, f, g, h);
  }

  lemma RoundsStart(v: Words, block: Block)
    ensures Rounds(v, block, 0) == v
  {}

  // ---------------------------------------------------------------- the streaming hasher

  class Hasher {
    const state: array<bv32>
    const buffer: array<bv8>
    var buffered: nat
    var bitLength: nat
    /** The whole blocks that are already in the state. */
    ghost var blocks: seq<bv8>

    ghost function Current(): Words
      requires state.Length == 8
      reads this, state
    {
      Words(state[0], state[1], state[2], state[3], state[4], state[5], state[6], state[7])
    }

    /** Whole blocks are in the state, the rest is buffered. */
    ghost predicate Sound()
      reads this, state, buffer
    {
      && state.Length == 8 && buffer.Length == 64 && buffered < 64 && Aligned(|blocks|)
      && Current() == HashBlocks(blocks)
    }

    ghost predicate Valid()
      reads this, state, buffer
    {
      Sound() && bitLength == BitsOf(|blocks| + buffered)
    }

    /** Everything hashed so far. */
    ghost function Message(): (m: seq<bv8>)
      requires Sound()
      reads this, state, buffer
      ensures |m| == |blocks| + buffered
    {
      blocks + buffer[..buffered]
    }

    constructor ()
      ensures Valid() && Message() == [] && fresh(state) && fresh(buffer)
    {
      state := new bv32[8];
      buffer := new bv8[64](_ => 0);
      buffered, bitLength, blocks := 0, 0, [];
      new;
      state[0], state[1], state[2], state[3] := 0x6a09e667, 0xbb67ae85, 0x3c6ef372, 0xa54ff53a;
      state[4], state[5], state[6], state[7] := 0x510e527f, 0x9b05688c, 0x1f83d9ab, 0x5be0cd19;
    }

    /** Fold one block into the state. */
    method Compress(block: Block)
      requires state.Length == 8
      modifies state
      ensures Current() == Compressed(old(Current()), block)
    {
      hide Rounds, Add;
      var w := RunRounds(Words(state[0], state[1], state[2], state[3], state[4], state[5], state[6], state[7]), block);
      state[0] := Add(state[0], w.a);
      state[1] := Add(state[1], w.b);
      state[2] := Add(state[2], w.c);
      state[3] := Add(state[3], w.d);
      state[4] := Add(state[4], w.e);
      state[5] := Add(state[5], w.f);
      state[6] := Add(state[6], w.g);
      state[7] := Add(state[7], w.h);
    }

    /** Hash some more bytes. */
    method Update(data: seq<bv8>)
      requires Valid()
      modifies this, state, buffer
      ensures Valid() && Message() == old(Message()) + data
    {
      hide HashBlocks, Aligned, BitsOf;
      assert Message() + [] == Message();
      if data == [] {
        return;
      }
      ghost var before := Message();
      var total := LongerBy(|before|, |data|);
      var rest := data;
      if buffered > 0 {
        rest := Fill(data);
      }
      if rest != [] {
        Absorb(rest);
      }
      bitLength := total;
      assert |Message()| == |before| + |data|;
    }

    /** Top up the buffer, and fold it in once it is full. */
    method Fill(data: seq<bv8>) returns (rest: seq<bv8>)
      requires Sound() && buffered > 0
      modifies this, state, buffer
      ensures Sound() && bitLength == old(bitLength) && (rest != [] ==> buffered == 0)
      ensures Message() + rest == old(Message()) + data
    {
      hide HashBlocks, Aligned;
      var need := 64 - buffered;
      var take := if |data| < need then |data| else need;
      ghost var before := buffer[..buffered];
      CopyIn(data[..take], buffered);
      buffered := buffered + take;
      rest := data[take..];
      assert data == data[..take] + rest;
      Bytes.Assoc(blocks, before, data[..take]);
      Bytes.Assoc(blocks + before, data[..take], rest);
      if buffered == 64 {
        assert buffer[..] == buffer[..buffered];
        FoldBlock(buffer[..]);
        buffered := 0;
      }
    }

    /** A whole block goes into the state. */
    method FoldBlock(block: Block)
      requires state.Length == 8 && buffer.Length == 64 && Aligned(|blocks|) && Current() == HashBlocks(blocks)
      modifies this`blocks, state
      ensures Aligned(|blocks|) && Current() == HashBlocks(blocks) && blocks == old(blocks) + block
    {
      hide HashBlocks, Compressed, Aligned;
      HashOneMore(blocks, block);
      Compress(block);
      blocks := blocks + block;
    }

    /** Fold in whole blocks, and buffer what is left. */
    method Absorb(data: seq<bv8>)
      requires Sound() && buffered == 0
      modifies this, state, buffer
      ensures Sound() && bitLength == old(bitLength) && Message() == old(Message()) + data
    {
      hide HashBlocks, Aligned;
      ghost var before := blocks;
      assert Message() == before + [] == before;
      var rest := FoldBlocks(data);
      CopyIn(rest, 0);
      buffered := |rest|;
      assert buffer[..0] == [] && buffer[..buffered] == [] + rest == rest;
    }

    /** Fold in whole blocks; what is left is shorter than one. */
    method FoldBlocks(data: seq<bv8>) returns (rest: seq<bv8>)
      requires state.Length == 8 && buffer.Length == 64 && Aligned(|blocks|) && Current() == HashBlocks(blocks)
      modifies this`blocks, state
      ensures Aligned(|blocks|) && Current() == HashBlocks(blocks)
      ensures blocks + rest == old(blocks) + data && |rest| < 64
    {
      hide HashBlocks, Aligned;
      rest := data;
      while |rest| >= 64
        invariant Aligned(|blocks|) && Current() == HashBlocks(blocks) && blocks + rest == old(blocks) + data
        decreases |rest|
      {
        assert rest == rest[..64] + rest[64..];
        Bytes.Assoc(blocks, rest[..64], rest[64..]);
        FoldBlock(rest[..64]);
        rest := rest[64..];
      }
    }

    /** Copy bytes into the buffer. */
    method CopyIn(data: seq<bv8>, at: nat)
      requires buffer.Length == 64 && at + |data| <= 64
      modifies buffer
      ensures buffer[..at + |data|] == old(buffer[..at]) + data
    {
      var i := 0;
      while i < |data|
        invariant 0 <= i <= |data|
        invariant buffer[..at + i] == old(buffer[..at]) + data[..i]
      {
        buffer[at + i] := data[i];
        assert buffer[..at + i + 1] == buffer[..at + i] + [data[i]];
        i := i + 1;
      }
      assert data[..|data|] == data;
    }

    /** The bit counter after some more bytes. */
    method LongerBy(ghost before: nat, more: nat) returns (total: nat)
      requires bitLength == BitsOf(before)
      ensures total == BitsOf(before + more)
    {
      total := (bitLength + 8 * more) % TWO64;
      ghost var q, r := (8 * before) / TWO64, (bitLength + 8 * more) / TWO64;
      assert 8 * (before + more) == TWO64 * (q + r) + total;
      Bytes.DivModUnique(8 * (before + more), TWO64, q + r, total);
    }

    /** Zeros up to the place of the length. */
    method PadWithZeros(ghost m: seq<bv8>)
      requires Valid() && Message() == m + [0x80]
      modifies this, state, buffer
      ensures Valid() && Message() == m + [0x80] + Zeros(ZeroCount(|m|))
    {
      hide HashBlocks, ZeroCount, Aligned, BitsOf, Current;
      ghost var k := 0;
      while buffered != 56
        invariant Valid() && k <= ZeroCount(|m|) && Message() == m + [0x80] + Zeros(k)
        decreases ZeroCount(|m|) - k
      {
        BufferedIs(|blocks|, buffered);
        ZerosLeft(|m|, k);
        Update([0]);
        k := k + 1;
      }
      BufferedIs(|blocks|, buffered);
      ZerosDone(|m|, k);
    }

    /** Pad, and read the digest out of the state. */
    method Final() returns (digest: seq<bv8>)
      requires Valid()
      modifies this, state, buffer
      ensures 8 * |old(Message())| < TWO64 ==> digest == Digest(old(Message()))
    {
      hide HashBlocks, LengthBytes, ZeroCount, BytesOf, Aligned, BitsOf, Current;
      ghost var m := Message();
      var totalBits := bitLength;
      Update([0x80]);
      PadWithZeros(m);
      Update(LengthBytes(totalBits));
      PaddedLength(|m|);
      if 8 * |m| < TWO64 { ExactBits(|m|); }
      BufferedIs(|blocks|, buffered);
      assert Message() == blocks;
      assert 8 * |m| < TWO64 ==> Message() == Padded(m);
      digest := ReadState();
    }

    method ReadState() returns (digest: seq<bv8>)
      requires Sound()
      ensures digest == BytesOf(HashBlocks(blocks))
    {
      digest := BytesOf(Words(state[0], state[1], state[2], state[3], state[4], state[5], state[6], state[7]));
    }

    static lemma BufferedIs(whole: nat, buffered: nat)
      requires Aligned(whole) && buffered < 64
      ensures (whole + buffered) % 64 == buffered
    {}

    static lemma ExactBits(n: nat)
      requires 8 * n < TWO64
      ensures BitsOf(n) == 8 * n
    {}

    /** Short of the boundary there are zeros left to add. */
    static lemma ZerosLeft(length: nat, k: nat)
      requires k <= ZeroCount(length) && (length + 1 + k) % 64 != 56
      ensures k < ZeroCount(length)
    {}

    static lemma ZerosDone(length: nat, k: nat)
      requires k <= ZeroCount(length) && (length + 1 + k) % 64 == 56
      ensures k == ZeroCount(length)
    {}
  }

  /** Everything at once. */
  method HashOf(data: seq<bv8>) returns (digest: seq<bv8>)
    requires 8 * |data| < TWO64
    ensures digest == Digest(data)
  {
    var hasher := new Hasher();
    hasher.Update(data);
    assert hasher.Message() == data;
    digest := hasher.Final();
  }

  function Joined(chunks: seq<seq<bv8>>): seq<bv8> {
    if chunks == [] then [] else Joined(chunks[..|chunks| - 1]) + chunks[|chunks| - 1]
  }

  /** The digest does not depend on how the data was cut into updates. */
  method HashOfChunks(chunks: seq<seq<bv8>>) returns (digest: seq<bv8>)
    requires 8 * |Joined(chunks)| < TWO64
    ensures digest == Digest(Joined(chunks))
  {
    hide Digest;
    var hasher := new Hasher();
    var i := 0;
    while i < |chunks|
      invariant 0 <= i <= |chunks| && hasher.Valid() && fresh(hasher) && fresh(hasher.state) && fresh(hasher.buffer)
      invariant hasher.Message() == Joined(chunks[..i])
    {
      assert chunks[..i + 1][..i] == chunks[..i];
      hasher.Update(chunks[i]);
      i := i + 1;
    }
    assert chunks[..i] == chunks;
    digest := hasher.Final();
  }
}
