/** The framed protocol: frames as bytes, and a reader that is fed a byte stream in arbitrary pieces. */
module Wire {
  import opened Bytes
  import opened Model
  import opened Canonical
  import opened JournalFormat

  const WIRE_HEADER_BYTES: nat := 64
  const WIRE_DIGEST_OFFSET: nat := 32
  const PROTOCOL_VERSION: nat := 1
  const FIRST_MESSAGE_TYPE: nat := 1
  const LAST_MESSAGE_TYPE: nat := 8

  /** F R P 1 */
  const WIRE_MAGIC: seq<byte> := [70, 82, 80, 49]

  const FRAME_MAGIC_INVALID: ReasonCode := 600
  const FRAME_VERSION_UNSUPPORTED: ReasonCode := 601
  const FRAME_TYPE_UNKNOWN: ReasonCode := 602
  const FRAME_PAYLOAD_TOO_LARGE: ReasonCode := 603
  const FRAME_DIGEST_MISMATCH: ReasonCode := 604
  const FRAME_TRUNCATED: ReasonCode := 605
  const FRAME_TRAILING_BYTES: ReasonCode := 606

  // ---------------------------------------------------------------- the 32 bytes before the digest

  datatype Fields = Fields(
    magic: seq<byte>, version: nat, kind: nat, flags: nat, reserved: nat, length: nat, session: nat, sequence: nat)

  predicate InRange(f: Fields) {
    && |f.magic| == 4 && f.version < TWO16 && f.kind < TWO16 && f.flags < TWO16 && f.reserved < TWO16
    && f.length < TWO32 && f.session < TWO64 && f.sequence < TWO64
  }

  function PutFields(f: Fields, k: seq<byte>): seq<byte> {
    f.magic + PutU16(f.version, PutU16(f.kind, PutU16(f.flags, PutU16(f.reserved, PutU32(f.length,
      PutU64(f.session, PutU64(f.sequence, k)))))))
  }

  function ReadFields(s: seq<byte>): Read<Fields> {
    var (magic, s1) :- ReadRaw(4, s);
    var (version, s2) :- ReadU16(s1);
    var (kind, s3) :- ReadU16(s2);
    var (flags, s4) :- ReadU16(s3);
    var (reserved, s5) :- ReadU16(s4);
    var (length, s6) :- ReadU32(s5);
    var (session, s7) :- ReadU64(s6);
    var (sequence, s8) :- ReadU64(s7);
    Got(Fields(magic, version, kind, flags, reserved, length, session, sequence), s8)
  }

  lemma ReadPutFields(f: Fields, k: seq<byte>)
    requires InRange(f)
    ensures ReadFields(PutFields(f, k)) == Got(f, k)
  {
    hide ReadRaw, PutU16, ReadU16, PutU32, ReadU32, PutU64, ReadU64;
    var k7 := PutU64(f.sequence, k);
    var k6 := PutU64(f.session, k7);
    var k5 := PutU32(f.length, k6);
    var k4 := PutU16(f.reserved, k5);
    var k3 := PutU16(f.flags, k4);
    var k2 := PutU16(f.kind, k3);
    var k1 := PutU16(f.version, k2);
    ReadRawOf(f.magic, k1);
    ReadPutU16(f.version, k2);
    ReadPutU16(f.kind, k3);
    ReadPutU16(f.flags, k4);
    ReadPutU16(f.reserved, k5);
    ReadPutU32(f.length, k6);
    ReadPutU64(f.session, k7);
    ReadPutU64(f.sequence, k);
  }

  lemma PutOfReadFields(s: seq<byte>)
    requires ReadFields(s).Got?
    ensures InRange(ReadFields(s).value) && s == PutFields(ReadFields(s).value, ReadFields(s).rest)
  {
    hide LE, FromLE, Pow256;
    Pow256Values();
    RawOfRead(4, s);
    var s1 := ReadRaw(4, s).rest;
    var s2 := ReadU16(s1).rest;
    var s3 := ReadU16(s2).rest;
    var s4 := ReadU16(s3).rest;
    var s5 := ReadU16(s4).rest;
    var s6 := ReadU32(s5).rest;
    var s7 := ReadU64(s6).rest;
    PutOfReadLE(2, s1);
    PutOfReadLE(2, s2);
    PutOfReadLE(2, s3);
    PutOfReadLE(2, s4);
    PutOfReadLE(4, s5);
    PutOfReadLE(8, s6);
    PutOfReadLE(8, s7);
  }

  lemma FieldsReadable(s: seq<byte>)
    requires |s| >= WIRE_DIGEST_OFFSET
    ensures ReadFields(s).Got? && ReadFields(s).rest == s[WIRE_DIGEST_OFFSET..]
  {
    hide FromLE;
    var s1 := s[4..];
    var s2 := s1[2..];
    var s3 := s2[2..];
    var s4 := s3[2..];
    var s5 := s4[2..];
    var s6 := s5[4..];
    var s7 := s6[8..];
    assert s2 == s[6..] && s3 == s[8..] && s4 == s[10..] && s5 == s[12..] && s6 == s[16..] && s7 == s[24..];
    assert s7[8..] == s[32..];
  }

  lemma PutFieldsShape(f: Fields, k: seq<byte>)
    requires |f.magic| == 4
    ensures |PutFields(f, [])| == WIRE_DIGEST_OFFSET && PutFields(f, k) == PutFields(f, []) + k
  {
    hide LE;
    var k7 := PutU64(f.sequence, []);
    var k6 := PutU64(f.session, k7);
    var k5 := PutU32(f.length, k6);
    var k4 := PutU16(f.reserved, k5);
    var k3 := PutU16(f.flags, k4);
    var k2 := PutU16(f.kind, k3);
    assert [] + k == k;
    PutLEThen(f.sequence, 8, [], k);
    PutLEThen(f.session, 8, k7, k);
    PutLEThen(f.length, 4, k6, k);
    PutLEThen(f.reserved, 2, k5, k);
    PutLEThen(f.flags, 2, k4, k);
    PutLEThen(f.kind, 2, k3, k);
    PutLEThen(f.version, 2, k2, k);
    Assoc(f.magic, PutU16(f.version, k2), k);
  }

  // ---------------------------------------------------------------- frames

  datatype Frame = Frame(kind: nat, flags: nat, session: nat, sequence: nat, payload: seq<byte>)

  predicate ValidFrame(max: nat, f: Frame) {
    && FIRST_MESSAGE_TYPE <= f.kind <= LAST_MESSAGE_TYPE && f.flags < TWO16 && f.session < TWO64 && f.sequence < TWO64
    && |f.payload| <= max
  }

  function FieldsOf(f: Frame): Fields {
    Fields(WIRE_MAGIC, PROTOCOL_VERSION, f.kind, f.flags, 0, |f.payload|, f.session, f.sequence)
  }

  function EncodeFrame(f: Frame): seq<byte> {
    PutFields(FieldsOf(f), Sha256Of(PutFields(FieldsOf(f), f.payload)) + f.payload)
  }

  function DecodeFrameHeader(max: nat, data: seq<byte>): Result<Fields> {
    var read := ReadFields(data);
    if |data| < WIRE_HEADER_BYTES || read.Bad? then Refused(Indeterminate, FRAME_TRUNCATED)
    else
      var f := read.value;
      if f.magic != WIRE_MAGIC then Refused(Rejected, FRAME_MAGIC_INVALID)
      else if f.version != PROTOCOL_VERSION then Refused(Unsupported, FRAME_VERSION_UNSUPPORTED)
      else if !(FIRST_MESSAGE_TYPE <= f.kind <= LAST_MESSAGE_TYPE) then Refused(Rejected, FRAME_TYPE_UNKNOWN)
      else if f.reserved != 0 then Refused(Rejected, FRAME_TYPE_UNKNOWN)
      else if f.length > max then Refused(LimitExceeded, FRAME_PAYLOAD_TOO_LARGE)
      else Ok(f)
  }

  function VerifyFrameImage(image: seq<byte>): Result<bool> {
    var read := ReadFields(image);
    if |image| < WIRE_HEADER_BYTES || read.Bad? then Refused(Indeterminate, FRAME_TRUNCATED)
    else if read.value.magic != WIRE_MAGIC then Refused(Rejected, FRAME_MAGIC_INVALID)
    else if |image| != WIRE_HEADER_BYTES + read.value.length then Refused(Rejected, FRAME_TRAILING_BYTES)
    else
      var digest := Sha256Of(image[..WIRE_DIGEST_OFFSET] + image[WIRE_HEADER_BYTES..]);
      if image[WIRE_DIGEST_OFFSET..WIRE_HEADER_BYTES] != digest then Refused(IntegrityFailure, FRAME_DIGEST_MISMATCH)
      else Ok(true)
  }

  datatype Reading = More | Broken(code: StatusCode, reason: ReasonCode) | Complete(frame: Frame, rest: seq<byte>)

  /** What the bytes at hand amount to. */
  function NextFrame(max: nat, s: seq<byte>): Reading {
    if |s| < WIRE_HEADER_BYTES then More
    else
      var header := DecodeFrameHeader(max, s);
      if header.Refused? then Broken(header.code, header.reason)
      else
        var total := WIRE_HEADER_BYTES + header.value.length;
        if |s| < total then More
        else
          var verified := VerifyFrameImage(s[..total]);
          if verified.Refused? then Broken(verified.code, verified.reason)
          else
            var h := header.value;
            Complete(Frame(h.kind, h.flags, h.session, h.sequence, s[WIRE_HEADER_BYTES..total]), s[total..])
  }

  // ---------------------------------------------------------------- exactness

  lemma FrameShape(f: Frame)
    requires |f.payload| < TWO32
    ensures var image := EncodeFrame(f);
            && |image| == WIRE_HEADER_BYTES + |f.payload|
            && image[..WIRE_DIGEST_OFFSET] == PutFields(FieldsOf(f), [])
            && image[WIRE_DIGEST_OFFSET..WIRE_HEADER_BYTES] == Sha256Of(PutFields(FieldsOf(f), f.payload))
            && image[WIRE_HEADER_BYTES..] == f.payload
  {
    hide PutFields;
    var digest := Sha256Of(PutFields(FieldsOf(f), f.payload));
    PutFieldsShape(FieldsOf(f), digest + f.payload);
  }

  /** A frame that is written is read back, whatever follows it. */
  lemma ReadOfWrittenFrame(max: nat, f: Frame, rest: seq<byte>)
    requires ValidFrame(max, f) && max < TWO32
    ensures NextFrame(max, EncodeFrame(f) + rest) == Complete(f, rest)
  {
    hide PutFields, ReadFields, Sha256Of;
    var image := EncodeFrame(f);
    var digest := Sha256Of(PutFields(FieldsOf(f), f.payload));
    FrameShape(f);
    PutFieldsShape(FieldsOf(f), digest + f.payload);
    PutFieldsShape(FieldsOf(f), f.payload);
    PutFieldsShape(FieldsOf(f), (digest + f.payload) + rest);
    ReadPutFields(FieldsOf(f), digest + f.payload);
    ReadPutFields(FieldsOf(f), (digest + f.payload) + rest);
    assert image + rest == PutFields(FieldsOf(f), (digest + f.payload) + rest);
    assert (image + rest)[..|image|] == image && (image + rest)[|image|..] == rest;
    assert (image + rest)[WIRE_HEADER_BYTES..|image|] == image[WIRE_HEADER_BYTES..];
  }

  /** A frame that is accepted was written, byte for byte. */
  lemma WrittenOfReadFrame(max: nat, s: seq<byte>)
    requires NextFrame(max, s).Complete? && max < TWO32
    ensures var r := NextFrame(max, s); ValidFrame(max, r.frame) && s == EncodeFrame(r.frame) + r.rest
  {
    hide PutFields, ReadFields, Sha256Of;
    var r := NextFrame(max, s);
    var h := DecodeFrameHeader(max, s).value;
    var total := WIRE_HEADER_BYTES + h.length;
    var image := s[..total];
    FieldsReadable(s);
    PutOfReadFields(s);
    FieldsReadable(image);
    PutOfReadFields(image);
    PutFieldsShape(h, s[WIRE_DIGEST_OFFSET..]);
    var g := ReadFields(image).value;
    PutFieldsShape(g, image[WIRE_DIGEST_OFFSET..]);
    assert PutFields(h, []) == s[..WIRE_DIGEST_OFFSET] == image[..WIRE_DIGEST_OFFSET] == PutFields(g, []);
    ReadPutFields(h, []);
    ReadPutFields(g, []);
    assert g == h && FieldsOf(r.frame) == h;
    PutFieldsShape(h, r.frame.payload);
    assert image[WIRE_HEADER_BYTES..] == r.frame.payload;
    var digest := Sha256Of(PutFields(h, r.frame.payload));
    assert image[WIRE_DIGEST_OFFSET..] == image[WIRE_DIGEST_OFFSET..WIRE_HEADER_BYTES] + image[WIRE_HEADER_BYTES..];
    PutFieldsShape(h, digest + r.frame.payload);
    assert image == image[..WIRE_DIGEST_OFFSET] + image[WIRE_DIGEST_OFFSET..];
    assert s == image + r.rest;
  }

  /** More bytes change neither a complete frame nor a rejection. */
  lemma NextFrameStable(max: nat, s: seq<byte>, more: seq<byte>)
    ensures NextFrame(max, s).Complete? ==>
              NextFrame(max, s + more) == NextFrame(max, s).(rest := NextFrame(max, s).rest + more)
    ensures NextFrame(max, s).Broken? ==> NextFrame(max, s + more) == NextFrame(max, s)
  {
    hide PutFields, ReadFields, VerifyFrameImage;
    if |s| >= WIRE_HEADER_BYTES {
      HeaderStable(max, s, more);
      var header := DecodeFrameHeader(max, s);
      if header.Ok? && |s| >= WIRE_HEADER_BYTES + header.value.length {
        var total := WIRE_HEADER_BYTES + header.value.length;
        assert (s + more)[..total] == s[..total] && (s + more)[total..] == s[total..] + more;
        assert (s + more)[WIRE_HEADER_BYTES..total] == s[WIRE_HEADER_BYTES..total];
      }
    }
  }

  lemma HeaderStable(max: nat, s: seq<byte>, more: seq<byte>)
    requires |s| >= WIRE_HEADER_BYTES
    ensures DecodeFrameHeader(max, s + more) == DecodeFrameHeader(max, s)
  {
    hide PutFields, ReadFields;
    FieldsReadable(s);
    PutOfReadFields(s);
    FieldsReadable(s + more);
    PutOfReadFields(s + more);
    var f, g := ReadFields(s).value, ReadFields(s + more).value;
    PutFieldsShape(f, s[WIRE_DIGEST_OFFSET..]);
    PutFieldsShape(g, (s + more)[WIRE_DIGEST_OFFSET..]);
    assert PutFields(f, []) == s[..WIRE_DIGEST_OFFSET] == (s + more)[..WIRE_DIGEST_OFFSET] == PutFields(g, []);
    ReadPutFields(f, []);
    ReadPutFields(g, []);
  }

  // ---------------------------------------------------------------- whole streams

  datatype Failure = Failure(code: StatusCode, reason: ReasonCode)

  datatype Parsed = Parsed(frames: seq<Frame>, rest: seq<byte>, failure: Option<Failure>)

  lemma CompleteShrinks(max: nat, s: seq<byte>)
    ensures NextFrame(max, s).Complete? ==> |NextFrame(max, s).rest| < |s|
  {
    hide DecodeFrameHeader, VerifyFrameImage;
  }

  /** Everything a stream contains, read in one go. */
  function ParseStream(max: nat, s: seq<byte>): Parsed
    decreases |s|
  {
    CompleteShrinks(max, s);
    match NextFrame(max, s)
    case More => Parsed([], s, None)
    case Broken(code, reason) => Parsed([], s, Some(Failure(code, reason)))
    case Complete(f, rest) =>
      var p := ParseStream(max, rest);
      p.(frames := [f] + p.frames)
  }

  /** Reading on: what the first part left over is where the second part starts. */
  lemma {:induction false} ParseResumes(max: nat, s: seq<byte>, more: seq<byte>)
    ensures var p, q := ParseStream(max, s), ParseStream(max, s + more);
            if p.failure.Some? then q.frames == p.frames && q.failure == p.failure
            else q == ParseStream(max, p.rest + more).(frames := p.frames + ParseStream(max, p.rest + more).frames)
    decreases |s|
  {
    hide NextFrame;
    NextFrameStable(max, s, more);
    CompleteShrinks(max, s);
    match NextFrame(max, s) {
      case More => assert [] + ParseStream(max, s + more).frames == ParseStream(max, s + more).frames;
      case Broken(_, _) =>
      case Complete(f, rest) => ParseResumes(max, rest, more);
    }
  }

  function Images(frames: seq<Frame>): seq<byte> {
    if frames == [] then [] else EncodeFrame(frames[0]) + Images(frames[1..])
  }

  /** The bytes of a stream are exactly the frames read from it, and what is left over. */
  lemma {:induction false} StreamIsExact(max: nat, s: seq<byte>)
    requires max < TWO32
    ensures s == Images(ParseStream(max, s).frames) + ParseStream(max, s).rest
    decreases |s|
  {
    hide NextFrame, EncodeFrame;
    CompleteShrinks(max, s);
    match NextFrame(max, s) {
      case More =>
      case Broken(_, _) =>
      case Complete(f, rest) =>
        WrittenOfReadFrame(max, s);
        StreamIsExact(max, rest);
        var p := ParseStream(max, rest);
        assert ([f] + p.frames)[1..] == p.frames;
    }
  }

  /** A sender's frames come out as they went in, and the start of one more stays buffered. */
  lemma {:induction false} ParseOfImages(max: nat, frames: seq<Frame>, tail: seq<byte>)
    requires max < TWO32 && (forall i :: 0 <= i < |frames| ==> ValidFrame(max, frames[i]))
             && NextFrame(max, tail) == More
    ensures ParseStream(max, Images(frames) + tail) == Parsed(frames, tail, None)
    decreases |frames|
  {
    hide NextFrame, EncodeFrame, ValidFrame;
    if frames == [] {
      assert [] + tail == tail;
    } else {
      var rest := Images(frames[1..]) + tail;
      assert Images(frames) + tail == EncodeFrame(frames[0]) + rest;
      ReadOfWrittenFrame(max, frames[0], rest);
      ParseOfImages(max, frames[1..], tail);
      assert [frames[0]] + frames[1..] == frames;
    }
  }

  // ---------------------------------------------------------------- the reader in place

  class FrameReader {
    const max: nat
    var buffer: seq<byte>
    var offset: nat
    var failed: bool
    var failure: Option<Failure>

    ghost predicate Valid()
      reads this
    {
      offset <= |buffer| && failed == failure.Some?
    }

    ghost function Unread(): seq<byte>
      requires Valid()
      reads this
    {
      buffer[offset..]
    }

    constructor (max: nat)
      ensures Valid() && this.max == max && Unread() == [] && !failed
    {
      this.max := max;
      buffer, offset, failed, failure := [], 0, false, None;
    }

    method Feed(bytes: seq<byte>)
      requires Valid()
      modifies this
      ensures Valid() && failure == old(failure)
      ensures Unread() == if failed then old(Unread()) else old(Unread()) + bytes
    {
      if failed || bytes == [] {
        return;
      }
      buffer := buffer + bytes;
    }

    method Discard()
      requires Valid()
      modifies this`buffer, this`offset
      ensures Valid() && Unread() == old(Unread())
    {
      if offset == 0 {
        return;
      }
      buffer := buffer[offset..];
      offset := 0;
    }

    /** The next complete frame, if there is one. A rejection is final. */
    method Next() returns (frame: Option<Frame>)
      requires Valid()
      modifies this
      ensures Valid()
      ensures old(failed) ==> frame.None? && failure == old(failure) && Unread() == old(Unread())
      ensures !old(failed) ==>
                match NextFrame(max, old(Unread()))
                case More => frame.None? && !failed && Unread() == old(Unread())
                case Broken(code, reason) =>
                  frame.None? && failure == Some(Failure(code, reason)) && Unread() == old(Unread())
                case Complete(f, rest) => frame == Some(f) && !failed && Unread() == rest
    {
      hide DecodeFrameHeader, VerifyFrameImage;
      if failed {
        return None;
      }
      var unread := buffer[offset..];
      if |buffer| - offset < WIRE_HEADER_BYTES {
        return None;
      }
      var header := DecodeFrameHeader(max, unread);
      if header.Refused? {
        failed, failure := true, Some(Failure(header.code, header.reason));
        return None;
      }
      var h := header.value;
      var total := WIRE_HEADER_BYTES + h.length;
      if |buffer| - offset < total {
        return None;
      }
      var image := unread[..total];
      var verified := VerifyFrameImage(image);
      if verified.Refused? {
        failed, failure := true, Some(Failure(verified.code, verified.reason));
        return None;
      }
      frame := Some(Frame(h.kind, h.flags, h.session, h.sequence, image[WIRE_HEADER_BYTES..]));
      assert image[WIRE_HEADER_BYTES..] == unread[WIRE_HEADER_BYTES..total];
      offset := offset + total;
      Discard();
    }
  }

  // ---------------------------------------------------------------- any interleaving

  datatype Call = FeedCall(bytes: seq<byte>) | NextCall

  /** What a reader's calls amount to: the frames handed out, the unread bytes, and whether it has given up. */
  datatype Reader = Reader(frames: seq<Frame>, unread: seq<byte>, failure: Option<Failure>)

  const FRESH_READER: Reader := Reader([], [], None)

  function AfterCall(max: nat, r: Reader, c: Call): Reader {
    if r.failure.Some? then r
    else
      match c
      case FeedCall(bytes) => r.(unread := r.unread + bytes)
      case NextCall =>
        match NextFrame(max, r.unread)
        case More => r
        case Broken(code, reason) => r.(failure := Some(Failure(code, reason)))
        case Complete(f, rest) => Reader(r.frames + [f], rest, None)
  }

  function AfterCalls(max: nat, calls: seq<Call>): Reader {
    if calls == [] then FRESH_READER else AfterCall(max, AfterCalls(max, calls[..|calls| - 1]), calls[|calls| - 1])
  }

  /** A reader driven through a list of calls, and everything it hands out. */
  method DriveReader(max: nat, calls: seq<Call>) returns (frames: seq<Frame>, failure: Option<Failure>)
    ensures frames == AfterCalls(max, calls).frames && failure == AfterCalls(max, calls).failure
  {
    hide NextFrame;
    var reader := new FrameReader(max);
    frames := [];
    var n := 0;
    while n < |calls|
      invariant 0 <= n <= |calls| && fresh(reader) && reader.Valid() && reader.max == max
      invariant AfterCalls(max, calls[..n]) == Reader(frames, reader.Unread(), reader.failure)
    {
      assert calls[..n + 1][..n] == calls[..n];
      match calls[n] {
        case FeedCall(bytes) => reader.Feed(bytes);
        case NextCall =>
          var frame := reader.Next();
          if frame.Some? {
            frames := frames + [frame.value];
          }
      }
      n := n + 1;
    }
    assert calls[..|calls|] == calls;
    failure := reader.failure;
  }

  /** Every byte that was fed, however it was cut up. */
  function Fed(calls: seq<Call>): seq<byte> {
    if calls == [] then []
    else
      var c := calls[|calls| - 1];
      Fed(calls[..|calls| - 1]) + (if c.FeedCall? then c.bytes else [])
  }

  /** The reader's progress through the whole stream. */
  ghost predicate OnTrack(max: nat, fed: seq<byte>, r: Reader) {
    var whole := ParseStream(max, fed);
    if r.failure.Some? then whole.frames == r.frames && whole.failure == r.failure
    else
      var ahead := ParseStream(max, r.unread);
      whole == ahead.(frames := r.frames + ahead.frames)
  }

  lemma FeedOnTrack(max: nat, fed: seq<byte>, r: Reader, bytes: seq<byte>)
    requires OnTrack(max, fed, r)
    ensures OnTrack(max, fed + bytes, AfterCall(max, r, FeedCall(bytes)))
  {
    hide NextFrame, ParseStream;
    ParseResumes(max, fed, bytes);
    if r.failure.None? {
      ParseResumes(max, r.unread, bytes);
      var ahead := ParseStream(max, r.unread);
      if ahead.failure.None? {
        Assoc(r.frames, ahead.frames, ParseStream(max, ahead.rest + bytes).frames);
      } else {
        FailedKeepsAll(max, fed, bytes);
        FailedKeepsAll(max, r.unread, bytes);
      }
    }
  }

  /** What is left over after a rejection is everything from the rejected frame on. */
  lemma {:induction false} FailedKeepsAll(max: nat, s: seq<byte>, more: seq<byte>)
    requires ParseStream(max, s).failure.Some?
    ensures ParseStream(max, s + more).rest == ParseStream(max, s).rest + more
    decreases |s|
  {
    hide NextFrame;
    NextFrameStable(max, s, more);
    CompleteShrinks(max, s);
    if NextFrame(max, s).Complete? { FailedKeepsAll(max, NextFrame(max, s).rest, more); }
  }

  lemma NextOnTrack(max: nat, fed: seq<byte>, r: Reader)
    requires OnTrack(max, fed, r)
    ensures OnTrack(max, fed, AfterCall(max, r, NextCall))
  {
    hide NextFrame;
    if r.failure.None? && NextFrame(max, r.unread).Complete? {
      var f, rest := NextFrame(max, r.unread).frame, NextFrame(max, r.unread).rest;
      CompleteShrinks(max, r.unread);
      Assoc(r.frames, [f], ParseStream(max, rest).frames);
    } else if r.failure.None? {
      assert r.frames + [] == r.frames;
    }
  }

  /** Chunking does not matter: whatever the calls, the frames handed out are the first frames of the whole stream,
      and a reader that gives up does so on the frame, and for the reason, that the whole stream fails on. */
  lemma {:induction false} AnyChunking(max: nat, calls: seq<Call>)
    ensures OnTrack(max, Fed(calls), AfterCalls(max, calls))
  {
    hide OnTrack, AfterCall, ParseStream;
    if calls == [] {
      FreshOnTrack(max);
    } else {
      var front, c := calls[..|calls| - 1], calls[|calls| - 1];
      AnyChunking(max, front);
      match c {
        case FeedCall(bytes) => FeedOnTrack(max, Fed(front), AfterCalls(max, front), bytes);
        case NextCall =>
          NextOnTrack(max, Fed(front), AfterCalls(max, front));
          assert Fed(front) + [] == Fed(front);
      }
    }
  }

  lemma FreshOnTrack(max: nat)
    ensures OnTrack(max, [], FRESH_READER)
  {
    assert NextFrame(max, []) == More;
  }

  /** Two readers fed the same bytes and drained have handed out the same frames, however the bytes were cut. */
  lemma DrainedReadersAgree(max: nat, a: seq<Call>, b: seq<Call>)
    requires Fed(a) == Fed(b)
    requires Drained(max, AfterCalls(max, a)) && Drained(max, AfterCalls(max, b))
    ensures AfterCalls(max, a).frames == AfterCalls(max, b).frames
            && AfterCalls(max, a).failure == AfterCalls(max, b).failure
    ensures AfterCalls(max, a).frames == ParseStream(max, Fed(a)).frames
  {
    hide NextFrame, AfterCalls;
    AnyChunking(max, a);
    AnyChunking(max, b);
    DrainedHasAll(max, Fed(a), AfterCalls(max, a));
    DrainedHasAll(max, Fed(b), AfterCalls(max, b));
  }

  /** `Next` has nothing more to say. */
  predicate Drained(max: nat, r: Reader) {
    r.failure.Some? || NextFrame(max, r.unread) == More
  }

  lemma DrainedHasAll(max: nat, fed: seq<byte>, r: Reader)
    requires OnTrack(max, fed, r) && Drained(max, r)
    ensures r.frames == ParseStream(max, fed).frames && r.failure == ParseStream(max, fed).failure
  {
    hide NextFrame;
    if r.failure.None? {
      assert ParseStream(max, r.unread) == Parsed([], r.unread, None);
    }
  }
}
