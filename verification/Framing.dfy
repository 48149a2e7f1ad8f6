/** Stream framing: content length (8 bytes) | type (4 bytes) | payload, with both
    header integers most significant byte first, and the incremental parser that
    turns a connection's reads into dispatched messages. */
module Framing {
  import opened Basics

  type Byte = b: int | 0 <= b < 256
  type Buffer = seq<Byte>

  const CONTENT_LEN: nat := 8
  const TYPE_LEN: nat := 4
  const HEADER_SIZE: nat := CONTENT_LEN + TYPE_LEN
  const MAX_PAYLOAD_SIZE: nat := 64 * 1024
  const READ_BYTES: nat := 128

  datatype Frame = Frame(messageType: nat, payload: Buffer)

  datatype Meta =
    | Incomplete
    | Invalid
    | Complete(size: nat, payloadSize: nat, messageType: nat, payload: Buffer)

  // ---------------------------------------------------------------- integers

  function Pow256(n: nat): (p: nat)
    ensures p > 0
  {
    if n == 0 then 1 else 256 * Pow256(n - 1)
  }

  /** The number a byte string denotes, most significant byte first. */
  function BigEndian(s: Buffer): nat
  {
    if s == [] then 0 else BigEndian(s[..|s| - 1]) * 256 + s[|s| - 1]
  }

  /** The low `width` base-256 digits of `value`, most significant first. */
  function Digits(value: nat, width: nat): (s: Buffer)
    ensures |s| == width
  {
    if width == 0 then [] else Digits(value / 256, width - 1) + [value % 256]
  }

  lemma {:induction false} BigEndianBound(s: Buffer)
    ensures BigEndian(s) < Pow256(|s|)
  {
    if s != [] {
      BigEndianBound(s[..|s| - 1]);
    }
  }

  /** Network byte order: the first byte counts for most. */
  lemma {:induction false} MostSignificantFirst(b: Byte, s: Buffer)
    ensures BigEndian([b] + s) == b * Pow256(|s|) + BigEndian(s)
  {
    if s != [] {
      var init, last := s[..|s| - 1], s[|s| - 1];
      assert ([b] + s)[..|[b] + s| - 1] == [b] + init;
      MostSignificantFirst(b, init);
      Shifted(b, Pow256(|init|), BigEndian(init), last);
    } else {
      assert ([b] + s)[..0] == [];
    }
  }

  lemma Shifted(b: int, p: int, n: int, last: int)
    ensures (b * p + n) * 256 + last == b * (256 * p) + (n * 256 + last)
  {
  }

  lemma {:induction false} BigEndianOfDigits(value: nat, width: nat)
    requires value < Pow256(width)
    ensures BigEndian(Digits(value, width)) == value
  {
    if width > 0 {
      BigEndianOfDigits(value / 256, width - 1);
      var s := Digits(value, width);
      assert s[..|s| - 1] == Digits(value / 256, width - 1);
    }
  }

  lemma {:induction false} DigitsOfBigEndian(s: Buffer)
    ensures Digits(BigEndian(s), |s|) == s
  {
    if s != [] {
      DigitsOfBigEndian(s[..|s| - 1]);
      assert s == s[..|s| - 1] + [s[|s| - 1]];
    }
  }

  /** `value >> (8 * bytes)`. */
  function ShiftRight(value: nat, bytes: nat): nat
  {
    if bytes == 0 then value else ShiftRight(value, bytes - 1) / 256
  }

  lemma {:induction false} ShiftPastWidth(value: nat, width: nat)
    requires value < Pow256(width)
    ensures ShiftRight(value, width) == 0
  {
    if width > 0 {
      ShiftOfQuotient(value, width - 1);
      ShiftPastWidth(value / 256, width - 1);
    }
  }

  lemma {:induction false} ShiftOfQuotient(value: nat, bytes: nat)
    ensures ShiftRight(value / 256, bytes) == ShiftRight(value, bytes + 1)
  {
    if bytes > 0 {
      ShiftOfQuotient(value, bytes - 1);
    }
  }

  lemma ModOfSmall(x: nat, m: nat)
    requires x < m
    ensures x % m == x
  {
  }

  /** Appends `value` to `dest` one shifted and masked byte at a time. */
  method PutBigEndian(dest: Buffer, value: nat, width: nat) returns (r: Buffer)
    requires width == CONTENT_LEN || width == TYPE_LEN
    requires value < Pow256(width)
    ensures r == dest + Digits(value, width)
    ensures BigEndian(r[|dest|..]) == value
  {
    r := dest;
    var remaining := width;
    ShiftPastWidth(value, width);
    assert Digits(0, 0) == [];
    while remaining > 0
      invariant 0 <= remaining <= width
      invariant r == dest + Digits(ShiftRight(value, remaining), width - remaining)
    {
      var b: Byte := ShiftRight(value, remaining - 1) % 256;
      r := r + [b];
      remaining := remaining - 1;
    }
    assert r[|dest|..] == Digits(value, width);
    BigEndianOfDigits(value, width);
  }

  /** Reads `width` bytes at `offset`; the accumulator is as wide as the result,
      so the shift drops whatever leaves its top byte. */
  method GetBigEndian(src: Buffer, width: nat, offset: nat) returns (value: Option<nat>)
    requires width == CONTENT_LEN || width == TYPE_LEN
    ensures value.Some? <==> offset + width <= |src|
    ensures value.Some? ==> value.value == BigEndian(src[offset..offset + width])
  {
    if offset > |src| || |src| - offset < width {
      return None;
    }
    var v := 0;
    var index := 0;
    while index < width
      invariant index <= width
      invariant v == BigEndian(src[offset..offset + index])
    {
      var read := src[offset..offset + index];
      BigEndianBound(read);
      PowMonotone(index + 1, width);
      ModOfSmall(v * 256, Pow256(width));
      v := (v * 256) % Pow256(width) + src[offset + index];
      assert src[offset..offset + index + 1][..index] == read;
      index := index + 1;
    }
    value := Some(v);
  }

  lemma {:induction false} PowMonotone(m: nat, n: nat)
    requires m <= n
    ensures Pow256(m) <= Pow256(n)
  {
    if m < n {
      PowMonotone(m, n - 1);
    }
  }

  // ---------------------------------------------------------------- one frame

  predicate Sendable(f: Frame)
  {
    f.messageType < Pow256(TYPE_LEN) && |f.payload| <= MAX_PAYLOAD_SIZE
  }

  /** The wire form of a message. */
  function Encode(f: Frame): Buffer
  {
    Digits(|f.payload|, CONTENT_LEN) + Digits(f.messageType, TYPE_LEN) + f.payload
  }

  lemma MaxPayloadFits()
    ensures MAX_PAYLOAD_SIZE < Pow256(CONTENT_LEN)
  {
    assert Pow256(2) == 65536;
    assert Pow256(3) == 256 * 65536;
    PowMonotone(3, 8);
  }

  /** `serialize`: a payload over the limit is the length error. */
  method Serialize(messageType: nat, payload: Buffer) returns (r: Option<Buffer>)
    requires messageType < Pow256(TYPE_LEN)
    ensures r.Some? <==> |payload| <= MAX_PAYLOAD_SIZE
    ensures r.Some? ==> r.value == Encode(Frame(messageType, payload))
  {
    if |payload| > MAX_PAYLOAD_SIZE {
      return None;
    }
    MaxPayloadFits();
    var buffer := PutBigEndian([], |payload|, CONTENT_LEN);
    buffer := PutBigEndian(buffer, messageType, TYPE_LEN);
    r := Some(buffer + payload);
  }

  /** `retrieve_parts`: an empty or reversed range is an empty result. */
  function RetrieveParts(buffer: Buffer, begin: nat, end: nat): Buffer
    requires end <= |buffer|
  {
    if begin >= end then [] else buffer[begin..end]
  }

  /** `destruct_buffer`: the first frame of `buffer`, if it is all there. */
  function DestructBuffer(buffer: Buffer): (m: Meta)
    ensures m.Complete? ==> HEADER_SIZE <= m.size <= |buffer|
  {
    if |buffer| < CONTENT_LEN then Incomplete
    else
      var contentLength := BigEndian(buffer[..CONTENT_LEN]);
      if contentLength > MAX_PAYLOAD_SIZE then Invalid
      else
        var messageLen := HEADER_SIZE + contentLength;
        if |buffer| < messageLen then Incomplete
        else
          Complete(messageLen, contentLength,
                   BigEndian(buffer[CONTENT_LEN..HEADER_SIZE]),
                   buffer[HEADER_SIZE..messageLen])
  }

  /** `destruct_buffer` as the source computes it, by reading the two header
      integers in place. */
  method ReadMeta(buffer: Buffer) returns (m: Meta)
    ensures m == DestructBuffer(buffer)
  {
    var contentLength := GetBigEndian(buffer, CONTENT_LEN, 0);
    if contentLength.None? {
      return Incomplete;
    }
    if contentLength.value > MAX_PAYLOAD_SIZE {
      return Invalid;
    }
    var payloadSize := contentLength.value;
    var messageLen := HEADER_SIZE + payloadSize;
    if |buffer| < messageLen {
      return Incomplete;
    }
    var messageType := GetBigEndian(buffer, TYPE_LEN, CONTENT_LEN);
    m := Complete(messageLen, payloadSize, messageType.value, buffer[HEADER_SIZE..messageLen]);
  }

  /** Parsing what was serialized, whatever follows it, gives the message back
      together with its exact length. */
  lemma ParseOfEncode(f: Frame, suffix: Buffer)
    requires Sendable(f)
    ensures DestructBuffer(Encode(f) + suffix)
         == Complete(HEADER_SIZE + |f.payload|, |f.payload|, f.messageType, f.payload)
  {
    var b := Encode(f) + suffix;
    MaxPayloadFits();
    BigEndianOfDigits(|f.payload|, CONTENT_LEN);
    BigEndianOfDigits(f.messageType, TYPE_LEN);
    PartsOf(Digits(|f.payload|, CONTENT_LEN), Digits(f.messageType, TYPE_LEN), f.payload, suffix);
    assert b == Digits(|f.payload|, CONTENT_LEN) + Digits(f.messageType, TYPE_LEN) + f.payload + suffix;
  }

  /** Conversely, every frame the parser reports is one `serialize` could have
      produced, and re-serializing it gives back exactly the bytes consumed. */
  lemma EncodeOfParse(b: Buffer)
    requires DestructBuffer(b).Complete?
    ensures var m := DestructBuffer(b);
      && Sendable(Frame(m.messageType, m.payload))
      && m.payloadSize == |m.payload|
      && Encode(Frame(m.messageType, m.payload)) == b[..m.size]
  {
    var m := DestructBuffer(b);
    DigitsOfBigEndian(b[..CONTENT_LEN]);
    DigitsOfBigEndian(b[CONTENT_LEN..HEADER_SIZE]);
    BigEndianBound(b[CONTENT_LEN..HEADER_SIZE]);
    ThreeParts(b, CONTENT_LEN, HEADER_SIZE, m.size);
  }

  lemma ThreeParts(b: Buffer, i: nat, j: nat, k: nat)
    requires i <= j <= k <= |b|
    ensures b[..k] == b[..i] + b[i..j] + b[j..k]
  {
  }

  lemma PartsOf(x: Buffer, y: Buffer, z: Buffer, w: Buffer)
    ensures
      var b, i, j := x + y + z + w, |x|, |x| + |y|;
      b[..i] == x && b[i..j] == y && b[j..j + |z|] == z
  {
  }

  /** More bytes never change a verdict that is already in. */
  lemma DestructStable(b: Buffer, more: Buffer)
    ensures !DestructBuffer(b).Incomplete? ==> DestructBuffer(b + more) == DestructBuffer(b)
  {
    if |b| >= CONTENT_LEN {
      assert (b + more)[..CONTENT_LEN] == b[..CONTENT_LEN];
      if |b| >= HEADER_SIZE {
        assert (b + more)[CONTENT_LEN..HEADER_SIZE] == b[CONTENT_LEN..HEADER_SIZE];
        var n := HEADER_SIZE + BigEndian(b[..CONTENT_LEN]);
        if n <= |b| {
          assert (b + more)[HEADER_SIZE..n] == b[HEADER_SIZE..n];
        }
      }
    }
  }

  /** The verdicts, from the bytes: a frame is complete if and only if the buffer begins
      with a serialized message, and invalid, as soon as the length is there, if and only
      if the length is above the limit. */
  lemma VerdictsAreExact(b: Buffer)
    ensures DestructBuffer(b).Complete? <==> exists f, after :: Sendable(f) && b == Encode(f) + after
    ensures DestructBuffer(b).Invalid? <==> CONTENT_LEN <= |b| && BigEndian(b[..CONTENT_LEN]) > MAX_PAYLOAD_SIZE
  {
    if DestructBuffer(b).Complete? {
      var m := DestructBuffer(b);
      EncodeOfParse(b);
      assert b == Encode(Frame(m.messageType, m.payload)) + b[m.size..];
    }
    if f, after :| Sendable(f) && b == Encode(f) + after {
      ParseOfEncode(f, after);
    }
  }

  // ---------------------------------------------------------------- streams

  /** One-shot parsing of a whole stream: the frames, what is left over, and
      whether the stream is well framed so far. */
  datatype Parsed = Parsed(frames: seq<Frame>, rest: Buffer, valid: bool) {
    function After(earlier: seq<Frame>): Parsed
    {
      Parsed(earlier + frames, rest, valid)
    }
  }

  lemma AfterAfter(p: Parsed, a: seq<Frame>, b: seq<Frame>)
    ensures p.After(b).After(a) == p.After(a + b)
    ensures p.After([]) == p
  {
    assert a + (b + p.frames) == a + b + p.frames;
  }

  function ParseAll(stream: Buffer): Parsed
    decreases |stream|
  {
    match DestructBuffer(stream)
    case Incomplete => Parsed([], stream, true)
    case Invalid => Parsed([], [], false)
    case Complete(size, _, t, payload) =>
      ParseAll(stream[size..]).After([Frame(t, payload)])
  }

  function EncodeAll(frames: seq<Frame>): Buffer
  {
    if frames == [] then [] else Encode(frames[0]) + EncodeAll(frames[1..])
  }

  function Flatten(chunks: seq<Buffer>): Buffer
  {
    if chunks == [] then [] else chunks[0] + Flatten(chunks[1..])
  }

  /** Parsing resumes: what was left over, followed by more bytes, parses to
      exactly the frames the longer stream still holds. */
  lemma {:induction false} ParseAppend(a: Buffer, b: Buffer)
    ensures var p := ParseAll(a);
      ParseAll(a + b) == if p.valid then ParseAll(p.rest + b).After(p.frames) else p
    decreases |a|
  {
    DestructStable(a, b);
    match DestructBuffer(a) {
      case Incomplete =>
        AfterAfter(ParseAll(a + b), [], []);
      case Invalid =>
      case Complete(size, _, t, payload) =>
        ParseAppend(a[size..], b);
        assert (a + b)[size..] == a[size..] + b;
        var p := ParseAll(a[size..]);
        AfterAfter(ParseAll(p.rest + b), [Frame(t, payload)], p.frames);
    }
  }

  /** The bytes kept between reads never reach a whole maximal message. */
  lemma {:induction false} RetainedBytesBounded(stream: Buffer)
    ensures |ParseAll(stream).rest| < HEADER_SIZE + MAX_PAYLOAD_SIZE
    ensures DestructBuffer(ParseAll(stream).rest).Incomplete?
    decreases |stream|
  {
    match DestructBuffer(stream) {
      case Incomplete =>
      case Invalid =>
      case Complete(size, _, _, _) => RetainedBytesBounded(stream[size..]);
    }
  }

  lemma EncodeAllCons(f: Frame, fs: seq<Frame>, suffix: Buffer)
    ensures EncodeAll([f] + fs) + suffix == Encode(f) + (EncodeAll(fs) + suffix)
  {
    assert ([f] + fs)[1..] == fs;
    var e := Encode(f);
    assert e + EncodeAll(fs) + suffix == e + (EncodeAll(fs) + suffix);
  }

  /** A well-framed stream is its frames, re-serialized, followed by the rest. */
  lemma {:induction false} StreamIsItsFrames(stream: Buffer)
    requires ParseAll(stream).valid
    ensures EncodeAll(ParseAll(stream).frames) + ParseAll(stream).rest == stream
    ensures forall f :: f in ParseAll(stream).frames ==> Sendable(f)
    decreases |stream|
  {
    if DestructBuffer(stream).Complete? {
      var f, after := FirstFrame(stream);
      StreamIsItsFrames(after);
      EncodeAllCons(f, ParseAll(after).frames, ParseAll(after).rest);
    }
  }

  lemma FirstFrame(stream: Buffer) returns (f: Frame, after: Buffer)
    requires DestructBuffer(stream).Complete?
    ensures Sendable(f) && stream == Encode(f) + after && |after| < |stream|
    ensures ParseAll(stream) == ParseAll(after).After([f])
  {
    var m := DestructBuffer(stream);
    EncodeOfParse(stream);
    f, after := Frame(m.messageType, m.payload), stream[m.size..];
    assert stream == stream[..m.size] + after;
  }

  lemma ParseAfterEncode(f: Frame, after: Buffer)
    requires Sendable(f)
    ensures ParseAll(Encode(f) + after) == ParseAll(after).After([f])
  {
    var b := Encode(f) + after;
    ParseOfEncode(f, after);
    assert b[HEADER_SIZE + |f.payload|..] == after;
  }

  /** Every sequence of messages sent back to back is read back unchanged, and
      what follows them is parsed as if it stood alone. */
  lemma {:induction false} MessagesRoundTrip(frames: seq<Frame>, suffix: Buffer)
    requires forall f :: f in frames ==> Sendable(f)
    ensures ParseAll(EncodeAll(frames) + suffix) == ParseAll(suffix).After(frames)
  {
    if frames == [] {
      assert EncodeAll(frames) + suffix == suffix;
      AfterAfter(ParseAll(suffix), [], []);
    } else {
      var after := EncodeAll(frames[1..]) + suffix;
      MessagesRoundTrip(frames[1..], suffix);
      ParseAfterEncode(frames[0], after);
      assert EncodeAll(frames) + suffix == Encode(frames[0]) + after by {
        EncodeAllCons(frames[0], frames[1..], suffix);
        assert frames == [frames[0]] + frames[1..];
      }
      AfterAfter(ParseAll(suffix), [frames[0]], frames[1..]);
      assert frames == [frames[0]] + frames[1..];
    }
  }

  lemma {:induction false} FlattenAppend(a: seq<Buffer>, b: Buffer)
    ensures Flatten(a + [b]) == Flatten(a) + b
  {
    if a == [] {
      assert a + [b] == [b];
    } else {
      FlattenAppend(a[1..], b);
      assert (a + [b])[1..] == a[1..] + [b];
    }
  }

  // ---------------------------------------------------------------- connection

  /** The per-connection parser. The dispatcher it calls is kept as the log of
      what it was given. */
  class ConnInterpreter {
    var buffer: Buffer
    var dispatched: seq<Frame>

    constructor ()
      ensures buffer == [] && dispatched == []
    {
      buffer := [];
      dispatched := [];
    }

    /** One read of `len` bytes. Each pass of the loop consumes at least a header. */
    method HandleBuffer(chunk: array<Byte>, len: nat) returns (ok: bool)
      requires chunk.Length == READ_BYTES
      modifies this
      ensures len > READ_BYTES ==> !ok && buffer == old(buffer) && dispatched == old(dispatched)
      ensures len <= READ_BYTES ==>
        var p := ParseAll(old(buffer) + chunk[..len]);
        && ok == p.valid
        && buffer == p.rest
        && dispatched == old(dispatched) + p.frames
    {
      if len > chunk.Length {
        return false;
      }
      buffer := buffer + chunk[..len];
      ghost var stream := buffer;
      while true
        invariant dispatched + ParseAll(buffer).frames == old(dispatched) + ParseAll(stream).frames
        invariant ParseAll(buffer).rest == ParseAll(stream).rest
        invariant ParseAll(buffer).valid == ParseAll(stream).valid
        decreases |buffer|
      {
        var meta := ReadMeta(buffer);
        if meta.Invalid? {
          buffer := [];
          return false;
        }
        if meta.Incomplete? {
          return true;
        }
        ghost var before := buffer;
        var f := Frame(meta.messageType, meta.payload);
        buffer := RetrieveParts(buffer, meta.size, |buffer|);
        assert buffer == before[meta.size..];
        assert dispatched + ([f] + ParseAll(buffer).frames) == dispatched + [f] + ParseAll(buffer).frames;
        dispatched := dispatched + [f];
      }
    }

    /** A connection's chain of reads: reading stops at the first read that makes
        the stream malformed. However the stream is cut into reads, what is
        dispatched and the verdict are those of parsing it in one piece. */
    method ReadStream(chunks: seq<Buffer>) returns (ok: bool)
      requires forall i :: 0 <= i < |chunks| ==> |chunks[i]| <= READ_BYTES
      requires buffer == [] && dispatched == []
      modifies this
      ensures ok == ParseAll(Flatten(chunks)).valid
      ensures dispatched == ParseAll(Flatten(chunks)).frames
      ensures |buffer| < HEADER_SIZE + MAX_PAYLOAD_SIZE
    {
      ok := true;
      var i := 0;
      assert chunks[..0] == [];
      while i < |chunks|
        invariant i <= |chunks|
        invariant ok
        invariant ParseAll(Flatten(chunks[..i])) == Parsed(dispatched, buffer, true)
      {
        var read := chunks[i];
        var chunk := FillRead(read);
        ParseAppend(Flatten(chunks[..i]), read);
        FlattenAppend(chunks[..i], read);
        assert chunks[..i + 1] == chunks[..i] + [read];
        ghost var resumed := ParseAll(buffer + read);
        assert ParseAll(Flatten(chunks[..i + 1]))
            == resumed.After(dispatched);
        ok := HandleBuffer(chunk, |read|);
        i := i + 1;
        if !ok {
          FlattenSplit(chunks, i);
          ParseAppend(Flatten(chunks[..i]), Flatten(chunks[i..]));
          RetainedBytesBounded(Flatten(chunks));
          return;
        }
      }
      assert chunks[..i] == chunks;
      RetainedBytesBounded(Flatten(chunks));
    }
  }

  /** The fixed read buffer after a read that returned `read`. */
  method FillRead(read: Buffer) returns (chunk: array<Byte>)
    requires |read| <= READ_BYTES
    ensures fresh(chunk) && chunk.Length == READ_BYTES && chunk[..|read|] == read
  {
    chunk := new Byte[READ_BYTES](_ => 0);
    for k := 0 to |read|
      invariant chunk[..k] == read[..k]
    {
      chunk[k] := read[k];
    }
  }

  lemma {:induction false} FlattenSplit(chunks: seq<Buffer>, i: nat)
    requires i <= |chunks|
    ensures Flatten(chunks) == Flatten(chunks[..i]) + Flatten(chunks[i..])
  {
    if i == 0 {
      assert chunks[i..] == chunks;
    } else {
      FlattenSplit(chunks[1..], i - 1);
      assert chunks[1..][..i - 1] == chunks[..i][1..];
      assert chunks[1..][i - 1..] == chunks[i..];
    }
  }
}
