/** `LengthHeaderCodec`: a four-byte big-endian signed length, then the message
    (source/base/inc/codec.h). */
module Codec {
  import opened Bytes
  import opened Buffers

  const HEADER_LEN := 4
  const MAX_MESSAGE := 65536
  const INT32_LIMIT := 0x8000_0000

  // ---- the header ----

  /** `htobe32` of an `int32_t`, as the four bytes in memory. */
  function ToBe32(n: int): (s: Str)
    ensures |s| == HEADER_LEN
  {
    var u := n % 0x1_0000_0000;
    [u / 256 / 256 / 256, u / 256 / 256 % 256, u / 256 % 256, u % 256]
  }

  /** The first four bytes as an unsigned big-endian number. */
  function Unsigned32(s: Str): int
    requires |s| >= HEADER_LEN
  {
    s[0] as int * 0x100_0000 + s[1] as int * 0x1_0000 + s[2] as int * 256 + s[3]
  }

  /** `be32toh` of the first four bytes, as an `int32_t`. */
  function Be32(s: Str): int
    requires |s| >= HEADER_LEN
  {
    if Unsigned32(s) < INT32_LIMIT then Unsigned32(s) else Unsigned32(s) - 0x1_0000_0000
  }

  lemma Shift(x: int, d: int)
    requires 0 <= d < 256
    ensures (x * 256 + d) / 256 == x && (x * 256 + d) % 256 == d
  {
  }

  lemma Be32RoundTrip(n: int, tail: Str)
    requires -INT32_LIMIT <= n < INT32_LIMIT
    ensures Be32(ToBe32(n) + tail) == n
  {
    var u := n % 0x1_0000_0000;
    var u1, u2 := u / 256, u / 256 / 256;
    assert u == u1 * 256 + u % 256 && u1 == u2 * 256 + u1 % 256 && u2 == u2 / 256 * 256 + u2 % 256;
  }

  /** Comparing two numbers digit by digit. */
  lemma DigitOrder(a: int, x: Byte, b: int, y: Byte)
    ensures a * 256 + x <= b * 256 + y <==> a < b || (a == b && x <= y)
  {
  }

  /** The first of four digits that differs decides. */
  lemma LexFour(a: Str, b: Str)
    requires |a| == |b| == 4
    ensures LexLe(a, b) <==>
      a[0] < b[0] || (a[0] == b[0] &&
        (a[1] < b[1] || (a[1] == b[1] &&
          (a[2] < b[2] || (a[2] == b[2] && a[3] <= b[3])))))
  {
    LexStep(a, b);
    LexStep(a[1..], b[1..]);
    LexStep(a[2..], b[2..]);
    LexStep(a[3..], b[3..]);
    assert a[1..][1..] == a[2..] && a[2..][1..] == a[3..] && a[3..][1..] == [];
    assert b[1..][1..] == b[2..] && b[2..][1..] == b[3..] && b[3..][1..] == [];
  }

  lemma LexStep(a: Str, b: Str)
    requires |a| > 0 && |b| > 0
    ensures LexLe(a, b) <==> a[0] < b[0] || (a[0] == b[0] && LexLe(a[1..], b[1..]))
  {
  }

  function Number(a: int, b: int, c: int, d: int): int { ((a * 256 + b) * 256 + c) * 256 + d }

  /** A length from the digits of its header. */
  lemma HeaderDigits(n: int)
    requires 0 <= n < INT32_LIMIT
    ensures var s := ToBe32(n); Number(s[0], s[1], s[2], s[3]) == n
  {
    var n1, n2 := n / 256, n / 256 / 256;
    assert n == n1 * 256 + n % 256 && n1 == n2 * 256 + n1 % 256 && n2 == n2 / 256 * 256 + n2 % 256;
  }

  lemma NumberOrder(a: Str, b: Str)
    requires |a| == |b| == 4
    ensures LexLe(a, b) <==> Number(a[0], a[1], a[2], a[3]) <= Number(b[0], b[1], b[2], b[3])
  {
    LexFour(a, b);
    var a0: int, b0: int := a[0], b[0];
    DigitOrder(a0, a[1], b0, b[1]);
    DigitOrder(a0 * 256 + a[1], a[2], b0 * 256 + b[1], b[2]);
    DigitOrder((a0 * 256 + a[1]) * 256 + a[2], a[3], (b0 * 256 + b[1]) * 256 + b[2], b[3]);
  }

  /** The header is in network byte order: as byte strings, headers compare as the lengths do. */
  lemma HeaderOrder(m: int, n: int)
    requires 0 <= m < INT32_LIMIT && 0 <= n < INT32_LIMIT
    ensures LexLe(ToBe32(m), ToBe32(n)) <==> m <= n
  {
    HeaderDigits(m);
    HeaderDigits(n);
    NumberOrder(ToBe32(m), ToBe32(n));
  }

  predicate GoodLength(len: int) { 0 <= len <= MAX_MESSAGE }

  /** What `send` puts on the connection for one message. */
  function Frame(m: Str): Str { ToBe32(|m|) + m }

  function Frames(ms: seq<Str>): Str {
    if ms == [] then [] else Frame(ms[0]) + Frames(ms[1..])
  }

  lemma Assoc<T>(a: seq<T>, b: seq<T>, c: seq<T>)
    ensures a + (b + c) == (a + b) + c
  {
  }

  lemma FramesCons(m: Str, ms: seq<Str>)
    ensures Frames([m] + ms) == Frame(m) + Frames(ms)
  {
    assert ([m] + ms)[1..] == ms;
  }

  lemma {:induction false} FramesConcat(a: seq<Str>, b: seq<Str>)
    ensures Frames(a + b) == Frames(a) + Frames(b)
  {
    if a == [] {
      assert a + b == b;
    } else {
      FramesConcat(a[1..], b);
      assert (a + b)[1..] == a[1..] + b;
      Assoc(Frame(a[0]), Frames(a[1..]), Frames(b));
    }
  }

  // ---- the pure decoder ----

  predicate Refused(s: Str) { |s| >= HEADER_LEN && !GoodLength(Be32(s)) }

  predicate HasMessage(s: Str) {
    |s| >= HEADER_LEN && GoodLength(Be32(s)) && |s| >= HEADER_LEN + Be32(s)
  }

  datatype Decoded = Decoded(messages: seq<Str>, rest: Str)

  function Decode(s: Str): Decoded
  {
    if HasMessage(s) then
      var end := HEADER_LEN + Be32(s);
      var d := Decode(s[end..]);
      Decoded([s[HEADER_LEN..end]] + d.messages, d.rest)
    else
      Decoded([], s)
  }

  ghost predicate AllDeliverable(ms: seq<Str>) {
    forall i | 0 <= i < |ms| :: |ms[i]| <= MAX_MESSAGE
  }

  /** The header is the same in a longer stream. */
  lemma HeaderOfPrefix(s: Str, t: Str)
    requires |s| >= HEADER_LEN
    ensures Be32(s + t) == Be32(s)
  {
  }

  lemma DecodeOneFrame(m: Str, tail: Str)
    requires |m| <= MAX_MESSAGE
    ensures HasMessage(Frame(m) + tail)
    ensures Decode(Frame(m) + tail) == Decoded([m] + Decode(tail).messages, Decode(tail).rest)
  {
    var s := Frame(m) + tail;
    assert s == ToBe32(|m|) + (m + tail);
    Be32RoundTrip(|m|, m + tail);
    assert s[HEADER_LEN..HEADER_LEN + |m|] == m;
    assert s[HEADER_LEN + |m|..] == tail;
  }

  lemma {:induction false} DecodeFrames(ms: seq<Str>, tail: Str)
    requires AllDeliverable(ms)
    ensures Decode(Frames(ms) + tail) == Decoded(ms + Decode(tail).messages, Decode(tail).rest)
  {
    if ms == [] {
      assert Frames(ms) + tail == tail;
      assert ms + Decode(tail).messages == Decode(tail).messages;
    } else {
      var d := Decode(tail);
      Assoc(Frame(ms[0]), Frames(ms[1..]), tail);
      DecodeOneFrame(ms[0], Frames(ms[1..]) + tail);
      DecodeFrames(ms[1..], tail);
      Assoc([ms[0]], ms[1..], d.messages);
      assert ms == [ms[0]] + ms[1..];
    }
  }

  /** A header that reads n is the header `send` writes for n. */
  lemma HeaderIsToBe32(s: Str)
    requires |s| >= HEADER_LEN
    ensures s[..HEADER_LEN] == ToBe32(Be32(s))
  {
    var u, u1, u2 := Unsigned32(s), s[0] as int * 0x1_0000 + s[1] as int * 256 + s[2], s[0] as int * 256 + s[1];
    assert Be32(s) % 0x1_0000_0000 == u;
    Shift(u1, s[3]);
    Shift(u2, s[2]);
    Shift(s[0], s[1]);
    assert u == u1 * 256 + s[3] && u1 == u2 * 256 + s[2];
  }

  lemma SplitFirst(s: Str)
    requires HasMessage(s)
    ensures var end := HEADER_LEN + Be32(s); s == Frame(s[HEADER_LEN..end]) + s[end..]
  {
    var end := HEADER_LEN + Be32(s);
    HeaderIsToBe32(s);
    assert s == s[..HEADER_LEN] + s[HEADER_LEN..end] + s[end..];
  }

  lemma {:induction false} DecodeSplits(s: Str)
    ensures s == Frames(Decode(s).messages) + Decode(s).rest
    ensures AllDeliverable(Decode(s).messages) && !HasMessage(Decode(s).rest)
    decreases |s|
  {
    if HasMessage(s) {
      var end := HEADER_LEN + Be32(s);
      var m, d := s[HEADER_LEN..end], Decode(s[end..]);
      DecodeSplits(s[end..]);
      SplitFirst(s);
      FramesCons(m, d.messages);
      Assoc(Frame(m), Frames(d.messages), d.rest);
    }
  }

  /** The decoder computes the only way to read a stream, well formed or not: frames of
      deliverable messages, then bytes that do not begin with one. */
  lemma DecodeCharacterised(s: Str, ms: seq<Str>, rest: Str)
    ensures Decode(s) == Decoded(ms, rest)
       <==> s == Frames(ms) + rest && AllDeliverable(ms) && !HasMessage(rest)
  {
    DecodeSplits(s);
    if s == Frames(ms) + rest && AllDeliverable(ms) && !HasMessage(rest) {
      DecodeFrames(ms, rest);
      assert ms + [] == ms;
    }
  }

  /** Bytes already decoded never need to be looked at again. */
  lemma {:induction false} DecodeIncremental(a: Str, b: Str)
    ensures var d := Decode(a); var e := Decode(d.rest + b);
            Decode(a + b) == Decoded(d.messages + e.messages, e.rest)
  {
    var d := Decode(a);
    DecodeSplits(a);
    assert a + b == Frames(d.messages) + (d.rest + b);
    DecodeFrames(d.messages, d.rest + b);
  }

  // ---- streams that arrive in chunks ----

  function Concat(chunks: seq<Str>): Str {
    if chunks == [] then [] else chunks[0] + Concat(chunks[1..])
  }

  /** One `readFd` and `onMessage` for each chunk, starting with `pending` in the input buffer. */
  function DecodeChunks(pending: Str, chunks: seq<Str>): Decoded
    decreases |chunks|
  {
    if chunks == [] then Decoded([], pending)
    else
      var d := Decode(pending + chunks[0]);
      var e := DecodeChunks(d.rest, chunks[1..]);
      Decoded(d.messages + e.messages, e.rest)
  }

  /** For every stream and every way of cutting it up, the messages and the bytes left over are
      those of the whole stream. */
  lemma {:induction false} ChunkingIsInvisible(pending: Str, chunks: seq<Str>)
    requires !HasMessage(pending)
    ensures DecodeChunks(pending, chunks) == Decode(pending + Concat(chunks))
    decreases |chunks|
  {
    if chunks == [] {
      assert pending + [] == pending;
    } else {
      var c, tail := chunks[0], Concat(chunks[1..]);
      Assoc(pending, c, tail);
      DecodeIncremental(pending + c, tail);
      DecodeSplits(pending + c);
      ChunkingIsInvisible(Decode(pending + c).rest, chunks[1..]);
    }
  }

  /** Once a header is out of range, no later byte produces a message and the header stays in front. */
  lemma RefusedIsFinal(pending: Str, chunks: seq<Str>)
    requires Refused(Decode(pending).rest)
    ensures var d := DecodeChunks(Decode(pending).rest, chunks);
            d.messages == [] && d.rest == Decode(pending).rest + Concat(chunks) && Refused(d.rest)
  {
    var r := Decode(pending).rest;
    HeaderOfPrefix(r, Concat(chunks));
    ChunkingIsInvisible(r, chunks);
  }

  /** Exactly the messages of at most 65536 bytes get through; a longer one blocks the stream. */
  lemma DeliveredIffSmall(m: Str, tail: Str)
    requires |m| < INT32_LIMIT
    ensures Decode(Frame(m)) == Decoded([m], []) <==> |m| <= 65536
    ensures |m| > 65536 ==> Decode(Frame(m) + tail) == Decoded([], Frame(m) + tail)
  {
    if |m| <= MAX_MESSAGE {
      assert Frame(m) + [] == Frame(m);
      DecodeOneFrame(m, []);
      assert [m] + [] == [m];
    } else {
      assert Frame(m) + tail == ToBe32(|m|) + (m + tail);
      Be32RoundTrip(|m|, m + tail);
      Be32RoundTrip(|m|, m);
    }
  }

  // ---- the code ----

  /** `messages` came out of `whole` and `rest` is still to be decoded. */
  ghost predicate Progress(whole: Str, messages: seq<Str>, rest: Str) {
    Decode(whole) == Decoded(messages + Decode(rest).messages, Decode(rest).rest)
  }

  lemma ProgressStart(whole: Str)
    ensures Progress(whole, [], whole)
  {
    assert [] + Decode(whole).messages == Decode(whole).messages;
  }

  lemma ProgressStep(whole: Str, messages: seq<Str>, s: Str)
    requires Progress(whole, messages, s) && HasMessage(s)
    ensures var end := HEADER_LEN + Be32(s); Progress(whole, messages + [s[HEADER_LEN..end]], s[end..])
  {
    var end := HEADER_LEN + Be32(s);
    Assoc(messages, [s[HEADER_LEN..end]], Decode(s[end..]).messages);
  }

  lemma ProgressEnd(whole: Str, messages: seq<Str>, rest: Str)
    requires Progress(whole, messages, rest) && !HasMessage(rest)
    ensures Decode(whole) == Decoded(messages, rest)
  {
    assert messages + [] == messages;
  }

  /** Reading the header through `peek()`. */
  method PeekLength(buf: Buffer) returns (len: int)
    requires buf.Valid() && buf.Lay().Readable() >= HEADER_LEN
    ensures len == Be32(buf.Contents())
  {
    var header := buf.data[buf.readerIndex..buf.readerIndex + HEADER_LEN];
    assert buf.Contents() == header + buf.Contents()[HEADER_LEN..];
    HeaderOfPrefix(header, buf.Contents()[HEADER_LEN..]);
    len := Be32(header);
  }

  /** `retrieve` of the header, the copy of the message, `retrieve` of the message. */
  method TakeMessage(buf: Buffer, len: nat) returns (message: Str)
    requires buf.Valid() && HEADER_LEN + len <= buf.Lay().Readable()
    modifies buf`readerIndex, buf`writerIndex
    ensures buf.Valid() && buf.Contents() == old(buf.Contents())[HEADER_LEN + len..]
    ensures message == old(buf.Contents())[HEADER_LEN..HEADER_LEN + len]
    ensures buf.Lay().Readable() == old(buf.Lay().Readable()) - HEADER_LEN - len
  {
    ghost var s := buf.Contents();
    buf.Retrieve(HEADER_LEN);
    message := buf.data[buf.readerIndex..buf.readerIndex + len];
    assert message == buf.Contents()[..len];
    SliceOfSlice(s, HEADER_LEN, len);
    buf.Retrieve(len);
  }

  lemma SliceOfSlice(s: Str, start: nat, len: nat)
    requires start + len <= |s|
    ensures s[start..][..len] == s[start..start + len] && s[start..][len..] == s[start + len..]
  {
  }

  /** `onMessage`: the loop over the input buffer. `refused` says that `conn->shutdown()` was called. */
  method OnMessage(buf: Buffer) returns (messages: seq<Str>, refused: bool)
    requires buf.Valid()
    modifies buf`readerIndex, buf`writerIndex
    ensures buf.Valid() && Decoded(messages, buf.Contents()) == Decode(old(buf.Contents()))
    ensures refused <==> Refused(buf.Contents())
  {
    messages, refused := [], false;
    ghost var whole := buf.Contents();
    ProgressStart(whole);
    while buf.writerIndex - buf.readerIndex >= HEADER_LEN
      invariant buf.Valid() && Progress(whole, messages, buf.Contents())
      decreases buf.Lay().Readable()
    {
      var len := PeekLength(buf);
      if len > MAX_MESSAGE || len < 0 {
        refused := true;
        break;
      } else if buf.writerIndex - buf.readerIndex >= len + HEADER_LEN {
        ProgressStep(whole, messages, buf.Contents());
        var message := TakeMessage(buf, len);
        messages := messages + [message];
      } else {
        break;
      }
    }
    ProgressEnd(whole, messages, buf.Contents());
  }

  /** The first half of `send`: the length is prepended in front of the message. */
  method Encode(message: Str) returns (buf: Buffer)
    requires |message| < INT32_LIMIT
    ensures buf.Valid() && fresh(buf) && fresh(buf.data) && buf.Contents() == Frame(message)
  {
    buf := new Buffer();
    buf.Append(message);
    buf.Prepend(ToBe32(|message|));
  }
}
