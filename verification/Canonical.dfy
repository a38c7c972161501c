/** The canonical byte encoding: fixed-width little-endian numbers and
    length-prefixed text, written by a bounded writer and read back by a reader
    whose failures are sticky.

    `Put…(v, k)` is the encoding of `v` followed by the bytes `k`; `Read…(s)`
    takes a value off the front of `s`. */
module Canonical {
  import opened Bytes

  const MAX_CANONICAL_BYTES: nat := 64 * 1024 * 1024

  datatype Read<+T> = Got(value: T, rest: seq<byte>) | Bad {
    predicate IsFailure() { Bad? }
    function PropagateFailure<U>(): Read<U>
      requires Bad?
    {
      Bad
    }
    function Extract(): (T, seq<byte>)
      requires Got?
    {
      (value, rest)
    }
  }

  // ---------------------------------------------------------------- pieces of an encoding

  function PutLE(v: nat, width: nat, k: seq<byte>): seq<byte> {
    LE(v, width) + k
  }

  function ReadLE(width: nat, s: seq<byte>): Read<nat> {
    if |s| < width then Bad else Got(FromLE(s[..width]), s[width..])
  }

  function PutU8(v: nat, k: seq<byte>): seq<byte> { PutLE(v, 1, k) }
  function PutU16(v: nat, k: seq<byte>): seq<byte> { PutLE(v, 2, k) }
  function PutU32(v: nat, k: seq<byte>): seq<byte> { PutLE(v, 4, k) }
  function PutU64(v: nat, k: seq<byte>): seq<byte> { PutLE(v, 8, k) }
  function PutI64(v: int, k: seq<byte>): seq<byte> { PutU64(AsU64(v), k) }
  function PutBool(v: bool, k: seq<byte>): seq<byte> { PutU8(if v then 1 else 0, k) }
  function PutBytes(t: seq<byte>, k: seq<byte>): seq<byte> { PutU32(|t|, t + k) }
  function PutDigest(d: Digest, k: seq<byte>): seq<byte> { d + k }

  function ReadU8(s: seq<byte>): Read<nat> { ReadLE(1, s) }
  function ReadU16(s: seq<byte>): Read<nat> { ReadLE(2, s) }
  function ReadU32(s: seq<byte>): Read<nat> { ReadLE(4, s) }
  function ReadU64(s: seq<byte>): Read<nat> { ReadLE(8, s) }

  function ReadI64(s: seq<byte>): Read<int> {
    var (u, r) :- ReadU64(s);
    Got(AsI64(u), r)
  }

  /** Any non-zero byte reads as true. */
  function ReadBool(s: seq<byte>): Read<bool> {
    var (u, r) :- ReadU8(s);
    Got(u != 0, r)
  }

  function ReadBytes(s: seq<byte>): Read<seq<byte>> {
    var (n, r) :- ReadU32(s);
    if n > |r| || n > MAX_CANONICAL_BYTES then Bad else Got(r[..n], r[n..])
  }

  function ReadDigest(s: seq<byte>): Read<Digest> {
    if |s| < 32 then Bad else Got(s[..32], s[32..])
  }

  // ---------------------------------------------------------------- reading undoes writing

  lemma ReadPutLE(v: nat, width: nat, k: seq<byte>)
    requires v < Pow256(width)
    ensures ReadLE(width, PutLE(v, width, k)) == Got(v, k)
  {
    SplitAt(LE(v, width), k);
    FromLEOfLE(v, width);
    DivModUnique(v, Pow256(width), 0, v);
  }

  lemma ReadPutU8(v: nat, k: seq<byte>)
    requires v < 256
    ensures ReadU8(PutU8(v, k)) == Got(v, k)
  {
    Pow256Values();
    ReadPutLE(v, 1, k);
  }

  lemma ReadPutU16(v: nat, k: seq<byte>)
    requires v < TWO16
    ensures ReadU16(PutU16(v, k)) == Got(v, k)
  {
    Pow256Values();
    ReadPutLE(v, 2, k);
  }

  lemma ReadPutU32(v: nat, k: seq<byte>)
    requires v < TWO32
    ensures ReadU32(PutU32(v, k)) == Got(v, k)
  {
    Pow256Values();
    ReadPutLE(v, 4, k);
  }

  lemma ReadPutU64(v: nat, k: seq<byte>)
    requires v < TWO64
    ensures ReadU64(PutU64(v, k)) == Got(v, k)
  {
    Pow256Values();
    ReadPutLE(v, 8, k);
  }

  lemma ReadPutI64(v: int, k: seq<byte>)
    requires 0 - TWO63 <= v < TWO63
    ensures ReadI64(PutI64(v, k)) == Got(v, k)
  {
    hide AsU64, AsI64;
    SignedRoundTrip(v);
    ReadPutU64(AsU64(v), k);
  }

  lemma ReadPutBool(v: bool, k: seq<byte>)
    ensures ReadBool(PutBool(v, k)) == Got(v, k)
  {
    ReadPutU8(if v then 1 else 0, k);
  }

  lemma ReadPutBytes(t: seq<byte>, k: seq<byte>)
    requires |t| <= MAX_CANONICAL_BYTES
    ensures ReadBytes(PutBytes(t, k)) == Got(t, k)
  {
    ReadPutU32(|t|, t + k);
    SplitAt(t, k);
  }

  lemma ReadPutDigest(d: Digest, k: seq<byte>)
    ensures ReadDigest(PutDigest(d, k)) == Got(d, k)
  {
    SplitAt(d, k);
  }

  // ---------------------------------------------------------------- the continuation is a suffix

  lemma PutLEThen(v: nat, width: nat, k: seq<byte>, r: seq<byte>)
    ensures PutLE(v, width, k) + r == PutLE(v, width, k + r)
  {
    Assoc(LE(v, width), k, r);
  }

  lemma PutBytesThen(t: seq<byte>, k: seq<byte>, r: seq<byte>)
    ensures PutBytes(t, k) + r == PutBytes(t, k + r)
  {
    PutLEThen(|t|, 4, t + k, r);
    Assoc(t, k, r);
  }

  // ---------------------------------------------------------------- the writer

  /** What a run of writer calls does: all of `bytes` is appended when the ceiling
      allows it, and otherwise the writer has failed, for good. */
  ghost predicate Emitted(before: seq<byte>, okBefore: bool, after: seq<byte>, okAfter: bool, bytes: seq<byte>) {
    if okBefore && |before| + |bytes| <= MAX_CANONICAL_BYTES
    then okAfter && after == before + bytes
    else !okAfter && before <= after
  }

  lemma EmittedInSequence(b0: seq<byte>, ok0: bool, b1: seq<byte>, ok1: bool, b2: seq<byte>, ok2: bool,
                          first: seq<byte>, second: seq<byte>)
    requires Emitted(b0, ok0, b1, ok1, first) && Emitted(b1, ok1, b2, ok2, second)
    ensures Emitted(b0, ok0, b2, ok2, first + second)
  {
    Assoc(b0, first, second);
  }

  /** What a writer holds. Once it has failed, nothing more is appended. */
  datatype Written = Written(buffer: seq<byte>, ok: bool)

  const NOTHING_WRITTEN: Written := Written([], true)

  /** A chunk is appended whole or not at all. */
  function Push(w: Written, chunk: seq<byte>): Written {
    if !w.ok || |w.buffer| + |chunk| > MAX_CANONICAL_BYTES then w.(ok := false) else Written(w.buffer + chunk, true)
  }

  /** Numbers are appended byte by byte. */
  function PushLE(w: Written, v: nat, width: nat): Written
    decreases width
  {
    if width == 0 then w else PushLE(Push(w, [v % 256]), v / 256, width - 1)
  }

  function PushBytes(w: Written, t: seq<byte>): Written {
    if |t| > 0xffff_ffff then w.(ok := false) else Push(PushLE(w, |t|, 4), t)
  }

  lemma {:induction false} FailedStays(w: Written, v: nat, width: nat)
    requires !w.ok
    ensures PushLE(w, v, width) == w
    decreases width
  {
    if width > 0 { FailedStays(w, v / 256, width - 1); }
  }

  /** Of the encoding `full`, `k` remains to be written; or the encoding is too long and the writer has failed. */
  ghost predicate Ahead(w: Written, full: seq<byte>, k: seq<byte>) {
    |w.buffer| <= MAX_CANONICAL_BYTES && if w.ok then full == w.buffer + k else |full| > MAX_CANONICAL_BYTES
  }

  lemma AheadChunk(w: Written, full: seq<byte>, chunk: seq<byte>, k: seq<byte>)
    requires Ahead(w, full, chunk + k)
    ensures Ahead(Push(w, chunk), full, k)
  {
    Assoc(w.buffer, chunk, k);
  }

  lemma {:induction false} AheadLE(w: Written, full: seq<byte>, v: nat, width: nat, k: seq<byte>)
    requires Ahead(w, full, PutLE(v, width, k))
    ensures Ahead(PushLE(w, v, width), full, k)
    decreases width
  {
    hide Ahead, Push;
    if width == 0 {
      assert LE(v, 0) + k == k;
    } else {
      Assoc([v % 256], LE(v / 256, width - 1), k);
      AheadChunk(w, full, [v % 256], PutLE(v / 256, width - 1, k));
      AheadLE(Push(w, [v % 256]), full, v / 256, width - 1, k);
    }
  }

  lemma AheadBytes(w: Written, full: seq<byte>, t: seq<byte>, k: seq<byte>)
    requires Ahead(w, full, PutBytes(t, k))
    ensures Ahead(PushBytes(w, t), full, k)
  {
    hide Push, PushLE, LE;
    if |t| <= 0xffff_ffff {
      AheadLE(w, full, |t|, 4, t + k);
      AheadChunk(PushLE(w, |t|, 4), full, t, k);
    }
  }

  class CanonicalWriter {
    var buffer: seq<byte>
    var ok: bool

    function State(): Written
      reads this
    {
      Written(buffer, ok)
    }

    ghost predicate Valid()
      reads this
    {
      |buffer| <= MAX_CANONICAL_BYTES
    }

    constructor ()
      ensures Valid() && ok && buffer == []
    {
      buffer := [];
      ok := true;
    }

    method Reserve(additional: nat)
      requires Valid()
      modifies this`ok
      ensures Valid()
      ensures ok == (old(ok) && |buffer| + additional <= MAX_CANONICAL_BYTES)
    {
      if !ok {
        return;
      }
      if additional > MAX_CANONICAL_BYTES || |buffer| > MAX_CANONICAL_BYTES - additional {
        ok := false;
      }
    }

    method WriteU8(value: nat)
      requires Valid()
      modifies this
      ensures Valid()
      ensures Emitted(old(buffer), old(ok), buffer, ok, LE(value, 1))
      ensures State() == Push(old(State()), [value % 256])
    {
      Reserve(1);
      if ok {
        buffer := buffer + [value % 256];
        assert LE(value, 1) == [value % 256] + LE(value / 256, 0);
      }
    }

    /** The shift loop of the 16-, 32- and 64-bit writers. */
    method WriteLE(value: nat, width: nat)
      requires Valid()
      modifies this
      ensures Valid()
      ensures Emitted(old(buffer), old(ok), buffer, ok, LE(value, width))
      ensures State() == PushLE(old(State()), value, width)
    {
      var v, n := value, 0;
      assert old(buffer) + [] == old(buffer);
      ghost var done: seq<byte> := [];
      while n < width
        invariant n <= width && Valid() && |done| == n
        invariant Emitted(old(buffer), old(ok), buffer, ok, done)
        invariant LE(value, width) == done + LE(v, width - n)
        invariant PushLE(old(State()), value, width) == PushLE(State(), v, width - n)
      {
        ghost var b, o := buffer, ok;
        WriteU8(v % 256);
        EmittedInSequence(old(buffer), old(ok), b, o, buffer, ok, done, LE(v % 256, 1));
        assert LE(v % 256, 1) == [v % 256] + LE(v % 256 / 256, 0) == [v % 256];
        assert LE(v, width - n) == [v % 256] + LE(v / 256, width - n - 1);
        Assoc(done, [v % 256], LE(v / 256, width - n - 1));
        done := done + [v % 256];
        v, n := v / 256, n + 1;
      }
      assert done == LE(value, width);
    }

    method WriteBytes(bytes: seq<byte>)
      requires Valid()
      modifies this
      ensures Valid()
      ensures Emitted(old(buffer), old(ok), buffer, ok, PutBytes(bytes, []))
      ensures State() == PushBytes(old(State()), bytes)
    {
      assert PutBytes(bytes, []) == LE(|bytes|, 4) + bytes by { assert bytes + [] == bytes; }
      if |bytes| > 0xffff_ffff {
        ok := false;
        return;
      }
      WriteLE(|bytes|, 4);
      if !ok {
        return;
      }
      Reserve(|bytes|);
      if ok {
        ghost var b := buffer;
        buffer := buffer + bytes;
        EmittedInSequence(old(buffer), old(ok), b, true, buffer, ok, LE(|bytes|, 4), bytes);
      }
    }

    method WriteDigest(digest: Digest)
      requires Valid()
      modifies this
      ensures Valid()
      ensures Emitted(old(buffer), old(ok), buffer, ok, digest)
      ensures State() == Push(old(State()), digest)
    {
      Reserve(32);
      if ok {
        buffer := buffer + digest;
      }
    }
  }

  // ---------------------------------------------------------------- the reader

  /** What one reader call does, in terms of the value-level reader. */
  ghost predicate Consumed<T(!new)>(r: Read<T>, okBefore: bool, good: bool, value: T, okAfter: bool, rest: seq<byte>) {
    if okBefore && r.Got?
    then good && okAfter && value == r.value && rest == r.rest
    else !good && !okAfter
  }

  class CanonicalReader {
    const data: seq<byte>
    var offset: nat
    var ok: bool

    ghost predicate Valid()
      reads this
    {
      offset <= |data|
    }

    ghost function Rest(): seq<byte>
      reads this
      requires Valid()
    {
      data[offset..]
    }

    constructor (bytes: seq<byte>)
      ensures Valid() && ok && data == bytes && Rest() == bytes
    {
      data := bytes;
      offset := 0;
      ok := true;
    }

    method TakeU8() returns (good: bool, value: nat)
      requires Valid()
      modifies this
      ensures Valid()
      ensures Consumed(ReadU8(old(Rest())), old(ok), good, value, ok, Rest())
    {
      value := 0;
      if !ok || offset + 1 > |data| {
        ok := false;
        return false, 0;
      }
      value := data[offset];
      offset := offset + 1;
      good := true;
      assert old(Rest())[..1] == [value] && [value][1..] == [];
      assert FromLE([value]) == value + 256 * FromLE([]);
      assert old(Rest())[1..] == Rest();
    }

    /** The shift loop of the 16-, 32- and 64-bit readers. */
    method TakeLE(width: nat) returns (good: bool, value: nat)
      requires Valid() && width > 0
      modifies this
      ensures Valid()
      ensures Consumed(ReadLE(width, old(Rest())), old(ok), good, value, ok, Rest())
    {
      value := 0;
      var n, weight := 0, 1;
      ghost var s := old(Rest());
      assert s[..0] == [];
      while n < width
        invariant n <= width && Valid() && weight == Pow256(n)
        invariant n > 0 ==> ok
        invariant ok == old(ok)
        invariant n <= |s| && Rest() == s[n..]
        invariant value == FromLE(s[..n])
      {
        var got, b := TakeU8();
        if !got {
          return false, 0;
        }
        assert s[n..][..1] == [b] by {
          assert |s[n..]| >= 1;
          assert s[n..][..1] == [s[n]];
          assert FromLE([s[n]]) == s[n] + 256 * FromLE([s[n]][1..]);
        }
        FromLEAppend(s[..n], b);
        assert s[..n] + [b] == s[..n + 1];
        assert s[n..][1..] == s[n + 1..];
        value := value + b * weight;
        weight := weight * 256;
        n := n + 1;
      }
      good := true;
    }

    method TakeBytes() returns (good: bool, value: seq<byte>)
      requires Valid()
      modifies this
      ensures Valid()
      ensures Consumed(ReadBytes(old(Rest())), old(ok), good, value, ok, Rest())
    {
      value := [];
      var got, length := TakeLE(4);
      if !got {
        return false, [];
      }
      if length > |data| - offset {
        ok := false;
        return false, [];
      }
      if length > MAX_CANONICAL_BYTES {
        ok := false;
        return false, [];
      }
      value := data[offset..offset + length];
      assert value == Rest()[..length];
      assert data[offset + length..] == Rest()[length..];
      offset := offset + length;
      good := true;
    }

    method TakeDigest() returns (good: bool, value: Digest)
      requires Valid()
      modifies this
      ensures Valid()
      ensures Consumed(ReadDigest(old(Rest())), old(ok), good, value, ok, Rest())
    {
      value := seq(32, _ => 0);
      if !ok || |data| - offset < 32 {
        ok := false;
        return false, value;
      }
      value := data[offset..offset + 32];
      assert value == Rest()[..32];
      assert data[offset + 32..] == Rest()[32..];
      offset := offset + 32;
      good := true;
    }
  }

  lemma {:induction false} FromLEAppend(s: seq<byte>, b: byte)
    ensures FromLE(s + [b]) == FromLE(s) + b * Pow256(|s|)
  {
    if s == [] {
      assert s + [b] == [b] && [b][1..] == [];
    } else {
      FromLEAppend(s[1..], b);
      assert (s + [b])[1..] == s[1..] + [b];
      var p := Pow256(|s| - 1);
      assert 256 * (b * p) == b * (256 * p);
    }
  }
}
