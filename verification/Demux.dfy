/**
 The log stream of a container without a terminal: frames of an 8-byte header (stream type, three zero bytes,
 big-endian 32-bit length) and a payload, as the attach endpoint of the Docker Engine API sends them. Text is
 modelled as bytes.
 */
module Demux {
  import S = Text

  newtype byte = x: int | 0 <= x < 256

  type Bytes = seq<byte>

  datatype Frame = Frame(stream: Bytes, payload: Bytes)

  predicate WellFormed(f: Frame) {
    |f.stream| == 4 && |f.payload| < 0x1_0000_0000
  }

  predicate AllWellFormed(frames: seq<Frame>) {
    forall k :: 0 <= k < |frames| ==> WellFormed(frames[k])
  }

  // ---------- Lengths ----------

  function BigEndian(n: nat): (b: Bytes)
    requires n < 0x1_0000_0000
    ensures |b| == 4
  {
    [(n / 0x100_0000) as byte, (n / 0x1_0000 % 0x100) as byte, (n / 0x100 % 0x100) as byte, (n % 0x100) as byte]
  }

  function ReadUInt32BE(b: Bytes, at: nat): (n: nat)
    requires at + 4 <= |b|
    ensures n < 0x1_0000_0000
  {
    b[at] as nat * 0x100_0000 + b[at + 1] as nat * 0x1_0000 + b[at + 2] as nat * 0x100 + b[at + 3] as nat
  }

  lemma Digits(a: nat, b: nat, c: nat, d: nat)
    requires a < 256 && b < 256 && c < 256 && d < 256
    ensures var n := a * 0x100_0000 + b * 0x1_0000 + c * 0x100 + d;
            n / 0x100_0000 == a && n / 0x1_0000 % 0x100 == b && n / 0x100 % 0x100 == c && n % 0x100 == d
  {
    var n := a * 0x100_0000 + b * 0x1_0000 + c * 0x100 + d;
    assert n / 0x100 == a * 0x1_0000 + b * 0x100 + c;
    assert n / 0x1_0000 == a * 0x100 + b;
  }

  lemma LengthReadsBack(n: nat, b: Bytes, at: nat)
    requires n < 0x1_0000_0000 && at + 4 <= |b|
    ensures b[at..at + 4] == BigEndian(n) <==> ReadUInt32BE(b, at) == n
  {
    Digits(b[at] as nat, b[at + 1] as nat, b[at + 2] as nat, b[at + 3] as nat);
    assert BigEndian(ReadUInt32BE(b, at)) == b[at..at + 4];
    if b[at..at + 4] == BigEndian(n) {
      var four := b[at..at + 4];
      assert four[0] == b[at] && four[1] == b[at + 1] && four[2] == b[at + 2] && four[3] == b[at + 3];
      assert n / 0x1_0000 == n / 0x100_0000 * 0x100 + n / 0x1_0000 % 0x100;
      assert n / 0x100 == n / 0x1_0000 * 0x100 + n / 0x100 % 0x100;
    }
  }

  // ---------- Framing ----------

  function Encode(f: Frame): (b: Bytes)
    requires WellFormed(f)
  {
    f.stream + BigEndian(|f.payload|) + f.payload
  }

  function EncodeAll(frames: seq<Frame>): Bytes
    requires AllWellFormed(frames)
  {
    if frames == [] then [] else Encode(frames[0]) + EncodeAll(frames[1..])
  }

  function Payloads(frames: seq<Frame>): Bytes {
    if frames == [] then [] else frames[0].payload + Payloads(frames[1..])
  }

  /** The bytes do not start with a complete frame. */
  predicate Incomplete(tail: Bytes) {
    |tail| < 8 || |tail| < 8 + ReadUInt32BE(tail, 4)
  }

  datatype Parsed = Parsed(frames: seq<Frame>, tail: Bytes)

  function Parse(raw: Bytes): (p: Parsed)
    ensures AllWellFormed(p.frames) && Incomplete(p.tail)
    ensures 8 * |p.frames| + |p.tail| <= |raw|
  {
    if Incomplete(raw) then Parsed([], raw)
    else
      var end := 8 + ReadUInt32BE(raw, 4);
      var p := Parse(raw[end..]);
      Parsed([Frame(raw[..4], raw[8..end])] + p.frames, p.tail)
  }

  lemma FirstFrame(raw: Bytes, end: nat)
    requires 8 <= |raw| && end == 8 + ReadUInt32BE(raw, 4) <= |raw|
    ensures Encode(Frame(raw[..4], raw[8..end])) == raw[..end]
  {
    LengthReadsBack(end - 8, raw, 4);
    assert raw[..end] == raw[..4] + raw[4..8] + raw[8..end];
  }

  lemma {:induction false} ParseJoins(raw: Bytes)
    ensures EncodeAll(Parse(raw).frames) + Parse(raw).tail == raw
  {
    if !Incomplete(raw) {
      var end := 8 + ReadUInt32BE(raw, 4);
      var rest := Parse(raw[end..]);
      ParseJoins(raw[end..]);
      FirstFrame(raw, end);
      EncodeFirst(Frame(raw[..4], raw[8..end]), rest.frames);
      S.Associate(raw[..end], EncodeAll(rest.frames), rest.tail);
      assert raw == raw[..end] + raw[end..];
    }
  }

  lemma EncodeFirst(f: Frame, frames: seq<Frame>)
    requires WellFormed(f) && AllWellFormed(frames)
    ensures EncodeAll([f] + frames) == Encode(f) + EncodeAll(frames)
  {
    assert ([f] + frames)[1..] == frames;
  }

  lemma ParseStep(f: Frame, rest: Bytes)
    requires WellFormed(f)
    ensures Parse(Encode(f) + rest) == Parsed([f] + Parse(rest).frames, Parse(rest).tail)
  {
    var raw, n := Encode(f) + rest, |f.payload|;
    assert raw[4..8] == BigEndian(n);
    LengthReadsBack(n, raw, 4);
    assert raw[..4] == f.stream && raw[8..8 + n] == f.payload && raw[8 + n..] == rest;
  }

  lemma {:induction false} ParseOfJoined(frames: seq<Frame>, tail: Bytes)
    requires AllWellFormed(frames) && Incomplete(tail)
    ensures Parse(EncodeAll(frames) + tail) == Parsed(frames, tail)
  {
    if frames == [] {
      assert EncodeAll(frames) + tail == tail;
    } else {
      var rest := EncodeAll(frames[1..]);
      ParseOfJoined(frames[1..], tail);
      ParseStep(frames[0], rest + tail);
      assert EncodeAll(frames) + tail == Encode(frames[0]) + (rest + tail);
    }
  }

  /** Any bytes are, in one way only, complete frames and then an incomplete one. */
  lemma ParseExact(raw: Bytes, frames: seq<Frame>, tail: Bytes)
    requires AllWellFormed(frames)
    ensures Parse(raw) == Parsed(frames, tail) <==> Incomplete(tail) && raw == EncodeAll(frames) + tail
  {
    ParseJoins(raw);
    if Incomplete(tail) {
      ParseOfJoined(frames, tail);
    }
  }

  // ---------- Demultiplexing ----------

  /** The payloads of the complete frames, then what there is of the last one. */
  function Text(raw: Bytes): Bytes {
    var p := Parse(raw);
    Payloads(p.frames) + if |p.tail| < 8 then [] else p.tail[8..]
  }

  function Subarray(raw: Bytes, start: nat, end: nat): Bytes
    requires start <= |raw| && start <= end
  {
    if end <= |raw| then raw[start..end] else raw[start..]
  }

  /** From the first header on: its payload, as far as there is one, and the text of what follows. */
  lemma TextStep(raw: Bytes)
    requires 8 <= |raw|
    ensures var end := 8 + ReadUInt32BE(raw, 4);
            Text(raw) == Subarray(raw, 8, end) + if end <= |raw| then Text(raw[end..]) else []
  {
    if !Incomplete(raw) {
      var end := 8 + ReadUInt32BE(raw, 4);
      var p := Parse(raw[end..]);
      var all := [Frame(raw[..4], raw[8..end])] + p.frames;
      assert all[1..] == p.frames;
    }
  }

  /** What the loop collects from an offset on. */
  function Collect(raw: Bytes, offset: nat): Bytes
    decreases |raw| - offset
  {
    if offset + 8 > |raw| then []
    else
      var end := offset + 8 + ReadUInt32BE(raw, offset + 4);
      Subarray(raw, offset + 8, end) + Collect(raw, end)
  }

  /** The text, or the raw bytes when it is empty. */
  function Demuxed(raw: Bytes): Bytes {
    if Text(raw) == [] then raw else Text(raw)
  }

  lemma CollectFirst(raw: Bytes, offset: nat, end: nat)
    requires offset + 8 <= |raw| && end == offset + 8 + ReadUInt32BE(raw, offset + 4)
    ensures Collect(raw, offset) == Subarray(raw, offset + 8, end) + Collect(raw, end)
  {
  }

  lemma CollectStep(raw: Bytes, text: Bytes, offset: nat, end: nat)
    requires offset + 8 <= |raw| && end == offset + 8 + ReadUInt32BE(raw, offset + 4)
    ensures text + Collect(raw, offset) == text + Subarray(raw, offset + 8, end) + Collect(raw, end)
  {
    CollectFirst(raw, offset, end);
    S.Associate(text, Subarray(raw, offset + 8, end), Collect(raw, end));
  }

  lemma TextAt(raw: Bytes, offset: nat, end: nat)
    requires offset + 8 <= |raw| && end == offset + 8 + ReadUInt32BE(raw, offset + 4)
    ensures Text(raw[offset..]) == Subarray(raw, offset + 8, end) + if end <= |raw| then Text(raw[end..]) else []
  {
    var rest := raw[offset..];
    TextStep(rest);
    assert Subarray(raw, offset + 8, end) == Subarray(rest, 8, end - offset);
    if end <= |raw| {
      assert raw[end..] == rest[end - offset..];
    }
  }

  lemma {:induction false} CollectIsText(raw: Bytes, offset: nat)
    requires offset <= |raw|
    ensures Collect(raw, offset) == Text(raw[offset..])
    decreases |raw| - offset
  {
    if offset + 8 <= |raw| {
      var end := offset + 8 + ReadUInt32BE(raw, offset + 4);
      TextAt(raw, offset, end);
      CollectFirst(raw, offset, end);
      if end <= |raw| {
        CollectIsText(raw, end);
      }
    }
  }

  lemma CollectsText(raw: Bytes)
    ensures Demuxed(raw) == if Collect(raw, 0) == [] then raw else Collect(raw, 0)
  {
    CollectIsText(raw, 0);
    assert raw[0..] == raw;
  }

  method DemuxLogBuffer(raw: Bytes) returns (text: Bytes, ghost iterations: nat)
    ensures text == Demuxed(raw)
    ensures 8 * iterations <= |raw|
  {
    text, iterations := [], 0;
    var offset := 0;
    while offset + 8 <= |raw|
      invariant 8 * iterations <= offset && 8 * iterations <= |raw|
      invariant Collect(raw, 0) == text + Collect(raw, offset)
      decreases |raw| - offset
    {
      var size := ReadUInt32BE(raw, offset + 4);
      var start := offset + 8;
      CollectStep(raw, text, offset, start + size);
      text := text + Subarray(raw, start, start + size);
      offset := start + size;
      iterations := iterations + 1;
    }
    CollectsText(raw);
    if text == [] {
      text := raw;
    }
  }

  predicate SomePayload(frames: seq<Frame>) {
    exists k :: 0 <= k < |frames| && frames[k].payload != []
  }

  lemma {:induction false} PayloadsEmpty(frames: seq<Frame>)
    ensures Payloads(frames) == [] <==> !SomePayload(frames)
  {
    if frames != [] {
      PayloadsEmpty(frames[1..]);
      assert SomePayload(frames) <==> frames[0].payload != [] || SomePayload(frames[1..]) by {
        assert forall k :: 0 < k < |frames| ==> frames[k] == frames[1..][k - 1];
        if SomePayload(frames[1..]) {
          var k :| 0 <= k < |frames[1..]| && frames[1..][k].payload != [];
          assert frames[k + 1].payload != [];
        }
      }
    }
  }

  /** Demultiplexing undoes framing, except for frames that are all empty: those come back raw. */
  lemma DemuxUndoesFraming(frames: seq<Frame>)
    requires AllWellFormed(frames)
    ensures Demuxed(EncodeAll(frames)) == Payloads(frames) <==> frames == [] || SomePayload(frames)
  {
    ParseOfJoined(frames, []);
    assert EncodeAll(frames) + [] == EncodeAll(frames);
    PayloadsEmpty(frames);
  }

  /** A stream cut anywhere: the text is that of the frames before the cut and the part of the cut frame that
      arrived, so only the last frame can be truncated. */
  lemma CutStream(frames: seq<Frame>, last: Frame, cut: nat)
    requires AllWellFormed(frames) && WellFormed(last) && cut < |Encode(last)|
    ensures Text(EncodeAll(frames) + Encode(last)[..cut])
            == Payloads(frames) + if cut < 8 then [] else last.payload[..cut - 8]
  {
    var whole, tail := Encode(last), Encode(last)[..cut];
    if cut >= 8 {
      assert whole[4..8] == BigEndian(|last.payload|) && whole[8..] == last.payload;
      assert tail[4..8] == whole[4..8];
      LengthReadsBack(|last.payload|, tail, 4);
      assert tail[8..] == last.payload[..cut - 8];
    }
    ParseOfJoined(frames, tail);
  }
}
