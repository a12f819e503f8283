/**
 The wire codec of knet/datapack.go and knet/message.go: frames
 `[DataLen:4][MsgID:4][Data:DataLen]` in either byte order, and a stateful
 decoder that keeps the bytes of an unfinished frame between calls.

 `Parse` is the one-shot specification of decoding. It is pinned down by
 `ParseIsLossless` and `ParseIsUnique`: it is the only way to write a stream as
 whole frames followed by a tail in which no further frame can be taken.
 */
module Codec {
  import opened Common

  type UInt32 = n: int | 0 <= n < 0x1_0000_0000

  const DEFAULT_MAX_PACKET_SIZE: UInt32 := 4096

  datatype ByteOrder = LittleEndian | BigEndian

  datatype Message = Message(id: UInt32, dataLen: UInt32, data: seq<Byte>, raw: seq<Byte>)

  /** `rest` is what stays buffered; `ok` is false when `rest` starts with an oversized header. */
  datatype Parsed = Parsed(msgs: seq<Message>, rest: seq<Byte>, ok: bool) {
    function Prepend(m: Message): Parsed { Parsed([m] + msgs, rest, ok) }
    function After(ms: seq<Message>): Parsed { Parsed(ms + msgs, rest, ok) }
  }

  // ---------------------------------------------------------------- integers

  function PutUint32(order: ByteOrder, n: UInt32): (s: seq<Byte>)
    ensures |s| == 4
  {
    match order
    case LittleEndian => [n % 256, n / 256 % 256, n / 65536 % 256, n / 16777216]
    case BigEndian => [n / 16777216, n / 65536 % 256, n / 256 % 256, n % 256]
  }

  function Uint32(order: ByteOrder, s: seq<Byte>): UInt32
    requires |s| == 4
  {
    match order
    case LittleEndian => s[0] as int + 256 * s[1] as int + 65536 * s[2] as int + 16777216 * s[3] as int
    case BigEndian => s[3] as int + 256 * s[2] as int + 65536 * s[1] as int + 16777216 * s[0] as int
  }

  lemma Uint32RoundTrip(order: ByteOrder, n: UInt32)
    ensures Uint32(order, PutUint32(order, n)) == n
  {
    assert n == n % 256 + 256 * (n / 256);
    assert n / 256 == n / 256 % 256 + 256 * (n / 65536);
    assert n / 65536 == n / 65536 % 256 + 256 * (n / 16777216);
  }

  lemma LowByte(a: Byte, x: nat)
    ensures (a + 256 * x) % 256 == a && (a + 256 * x) / 256 == x
  {
  }

  lemma DivTwice(n: nat)
    ensures n / 65536 == n / 256 / 256 && n / 16777216 == n / 256 / 256 / 256
  {
    var q := n / 256;
    assert n == 256 * q + n % 256 && q == 256 * (q / 256) + q % 256;
    assert n / 65536 == q / 256;
    var r := q / 256;
    assert r == 256 * (r / 256) + r % 256;
  }

  /** The bytes of a number written in base 256. */
  lemma BytesOf(a: Byte, b: Byte, c: Byte, d: Byte)
    ensures var n := a + 256 * (b + 256 * (c + 256 * d));
            n % 256 == a && n / 256 % 256 == b && n / 65536 % 256 == c && n / 16777216 == d
  {
    LowByte(a, b + 256 * (c + 256 * d));
    LowByte(b, c + 256 * d);
    LowByte(c, d);
    DivTwice(a + 256 * (b + 256 * (c + 256 * d)));
  }

  /**
   Which byte goes where, for the number a + 256 b + 65536 c + 16777216 d: little-endian
   puts the least significant byte first, big-endian the most significant.
   */
  lemma ByteOrders(a: Byte, b: Byte, c: Byte, d: Byte)
    ensures var n := a + 256 * b + 65536 * c + 16777216 * d;
            && PutUint32(LittleEndian, n) == [a, b, c, d] && PutUint32(BigEndian, n) == [d, c, b, a]
            && Uint32(LittleEndian, [a, b, c, d]) == n && Uint32(BigEndian, [d, c, b, a]) == n
  {
    BytesOf(a, b, c, d);
  }

  lemma PutUint32RoundTrip(order: ByteOrder, s: seq<Byte>)
    requires |s| == 4
    ensures PutUint32(order, Uint32(order, s)) == s
  {
    if order.LittleEndian? {
      BytesOf(s[0], s[1], s[2], s[3]);
    } else {
      BytesOf(s[3], s[2], s[1], s[0]);
    }
  }

  // ------------------------------------------------------------------ frames

  /** NewMessage: the length field is the payload length truncated to 32 bits. */
  function NewMessage(id: UInt32, data: seq<Byte>): Message {
    Message(id, |data| % 0x1_0000_0000, data, [])
  }

  function Header(order: ByteOrder, m: Message): (h: seq<Byte>)
    ensures |h| == 8
  {
    PutUint32(order, m.dataLen) + PutUint32(order, m.id)
  }

  /** Pack writes the length the message claims to have, not the length of its payload. */
  function Pack(order: ByteOrder, m: Message): seq<Byte> {
    Header(order, m) + m.data
  }

  function PackAll(order: ByteOrder, ms: seq<Message>): seq<Byte> {
    if ms == [] then [] else Pack(order, ms[0]) + PackAll(order, ms[1..])
  }

  /** The wire format: four bytes of length, four bytes of id, then the payload and nothing else. */
  lemma FrameLayout(order: ByteOrder, m: Message)
    ensures var s := Pack(order, m);
            && |s| == 8 + |m.data|
            && s[0..4] == PutUint32(order, m.dataLen) && s[4..8] == PutUint32(order, m.id) && s[8..] == m.data
            && Uint32(order, s[0..4]) == m.dataLen && Uint32(order, s[4..8]) == m.id
  {
    Uint32RoundTrip(order, m.dataLen);
    Uint32RoundTrip(order, m.id);
  }

  /** maxPacketSize 0 means unlimited. */
  predicate WithinLimit(max: UInt32, len: int) {
    max == 0 || len <= max
  }

  /** What a frame carries once it has been received: an exact length and its 8 header bytes. */
  predicate IsFrame(order: ByteOrder, max: UInt32, m: Message) {
    && m.dataLen == |m.data|
    && WithinLimit(max, m.dataLen)
    && m.raw == Header(order, m)
  }

  predicate AreFrames(order: ByteOrder, max: UInt32, ms: seq<Message>) {
    forall i :: 0 <= i < |ms| ==> IsFrame(order, max, ms[i])
  }

  function ClaimedLen(order: ByteOrder, s: seq<Byte>): UInt32
    requires |s| >= 8
  {
    Uint32(order, s[0..4])
  }

  predicate Oversized(order: ByteOrder, max: UInt32, s: seq<Byte>) {
    |s| >= 8 && !WithinLimit(max, ClaimedLen(order, s))
  }

  /** No frame can be taken from the front of `s`. */
  predicate Stuck(order: ByteOrder, max: UInt32, s: seq<Byte>) {
    |s| < 8 || Oversized(order, max, s) || |s| < 8 + ClaimedLen(order, s)
  }

  function FirstFrame(order: ByteOrder, s: seq<Byte>): Message
    requires |s| >= 8 && |s| >= 8 + ClaimedLen(order, s)
  {
    var n := ClaimedLen(order, s);
    Message(Uint32(order, s[4..8]), n, s[8..8 + n], s[..8])
  }

  function AfterFirst(order: ByteOrder, s: seq<Byte>): seq<Byte>
    requires |s| >= 8 && |s| >= 8 + ClaimedLen(order, s)
  {
    s[8 + ClaimedLen(order, s)..]
  }

  function Parse(order: ByteOrder, max: UInt32, s: seq<Byte>): Parsed
    decreases |s|
  {
    if Stuck(order, max, s) then Parsed([], s, !Oversized(order, max, s))
    else Parse(order, max, AfterFirst(order, s)).Prepend(FirstFrame(order, s))
  }

  // -------------------------------------------- Parse is the unique splitting

  lemma FirstFrameRepacks(order: ByteOrder, max: UInt32, s: seq<Byte>)
    requires !Stuck(order, max, s)
    ensures IsFrame(order, max, FirstFrame(order, s))
    ensures s == Pack(order, FirstFrame(order, s)) + AfterFirst(order, s)
  {
    PutUint32RoundTrip(order, s[0..4]);
    PutUint32RoundTrip(order, s[4..8]);
    assert s[..8] == s[0..4] + s[4..8];
    assert s == s[..8] + s[8..8 + ClaimedLen(order, s)] + s[8 + ClaimedLen(order, s)..];
  }

  lemma PackedFrameIsFirst(order: ByteOrder, max: UInt32, m: Message, tail: seq<Byte>)
    requires IsFrame(order, max, m)
    ensures var s := Pack(order, m) + tail;
            !Stuck(order, max, s) && FirstFrame(order, s) == m && AfterFirst(order, s) == tail
  {
    var s := Pack(order, m) + tail;
    assert s[0..4] == PutUint32(order, m.dataLen);
    assert s[4..8] == PutUint32(order, m.id);
    Uint32RoundTrip(order, m.dataLen);
    Uint32RoundTrip(order, m.id);
    assert s[8..8 + |m.data|] == m.data;
    assert s[..8] == Header(order, m);
  }

  lemma PackAllCons(order: ByteOrder, m: Message, ms: seq<Message>, tail: seq<Byte>)
    ensures PackAll(order, [m] + ms) + tail == Pack(order, m) + (PackAll(order, ms) + tail)
  {
    assert ([m] + ms)[1..] == ms;
  }

  /** Lossless: the decoded frames, re-packed, followed by the leftover are the input. */
  lemma {:induction false} ParseIsLossless(order: ByteOrder, max: UInt32, s: seq<Byte>)
    ensures var p := Parse(order, max, s);
            && s == PackAll(order, p.msgs) + p.rest
            && AreFrames(order, max, p.msgs)
            && Stuck(order, max, p.rest)
            && p.ok == !Oversized(order, max, p.rest)
    decreases |s|
  {
    if !Stuck(order, max, s) {
      var t, m := AfterFirst(order, s), FirstFrame(order, s);
      var q := Parse(order, max, t);
      ParseIsLossless(order, max, t);
      FirstFrameRepacks(order, max, s);
      PackAllCons(order, m, q.msgs, q.rest);
    }
  }

  /** Exact: decoding whole frames followed by a stuck tail gives back those frames and that tail. */
  lemma {:induction false} ParseIsUnique(order: ByteOrder, max: UInt32, ms: seq<Message>, tail: seq<Byte>)
    requires AreFrames(order, max, ms)
    requires Stuck(order, max, tail)
    ensures Parse(order, max, PackAll(order, ms) + tail)
         == Parsed(ms, tail, !Oversized(order, max, tail))
    decreases |ms|
  {
    if ms == [] {
      assert PackAll(order, ms) + tail == tail;
    } else {
      var m, rest := ms[0], ms[1..];
      var t := PackAll(order, rest) + tail;
      assert ms == [m] + rest;
      PackAllCons(order, m, rest, tail);
      PackedFrameIsFirst(order, max, m, t);
      ParseIsUnique(order, max, rest, tail);
    }
  }

  lemma OnlyFramesComeOut(order: ByteOrder, max: UInt32, s: seq<Byte>, m: Message)
    requires m in Parse(order, max, s).msgs
    ensures IsFrame(order, max, m)
  {
    ParseIsLossless(order, max, s);
  }

  /** The form a packed message takes on the receiving side: the same, with its header bytes recorded. */
  function Received(order: ByteOrder, m: Message): Message {
    m.(raw := Header(order, m))
  }

  /**
   A packed message comes back alone and whole exactly when its length field is
   honest and within the receiver's limit: the packer checks neither.
   */
  lemma PackRoundTripIff(order: ByteOrder, max: UInt32, m: Message)
    ensures Parse(order, max, Pack(order, m)) == Parsed([Received(order, m)], [], true)
       <==> m.dataLen == |m.data| && (max == 0 || |m.data| <= max)
  {
    var s := Pack(order, m);
    var r := Received(order, m);
    if m.dataLen == |m.data| && WithinLimit(max, m.dataLen) {
      ParseIsUnique(order, max, [r], []);
      assert PackAll(order, [r][1..]) == [];
      assert PackAll(order, [r]) + [] == s;
    } else if Parse(order, max, s) == Parsed([r], [], true) {
      OnlyFramesComeOut(order, max, s, r);
      assert false;
    }
  }

  /** What a receiver finds: one message with this id and this payload, and nothing left over. */
  predicate Arrives(p: Parsed, id: UInt32, data: seq<Byte>) {
    p.ok && p.rest == [] && |p.msgs| == 1 && p.msgs[0].id == id && p.msgs[0].data == data
  }

  lemma HonestArrives(order: ByteOrder, max: UInt32, m: Message)
    requires m.dataLen == |m.data| && (max == 0 || |m.data| <= max)
    ensures Arrives(Parse(order, max, Pack(order, m)), m.id, m.data)
  {
    PackRoundTripIff(order, max, m);
  }

  lemma WhatArrivesFits(order: ByteOrder, max: UInt32, s: seq<Byte>, id: UInt32, data: seq<Byte>)
    requires Arrives(Parse(order, max, s), id, data)
    ensures |data| < 0x1_0000_0000 && (max == 0 || |data| <= max)
  {
    OnlyFramesComeOut(order, max, s, Parse(order, max, s).msgs[0]);
  }

  /**
   For messages built by NewMessage the condition is on the payload alone, and what
   arrives is the id and the payload that were given.
   */
  lemma NewMessageRoundTripIff(order: ByteOrder, max: UInt32, id: UInt32, data: seq<Byte>)
    ensures Arrives(Parse(order, max, Pack(order, NewMessage(id, data))), id, data)
       <==> |data| < 0x1_0000_0000 && (max == 0 || |data| <= max)
  {
    if |data| < 0x1_0000_0000 && (max == 0 || |data| <= max) {
      HonestArrives(order, max, NewMessage(id, data));
    } else if Arrives(Parse(order, max, Pack(order, NewMessage(id, data))), id, data) {
      WhatArrivesFits(order, max, Pack(order, NewMessage(id, data)), id, data);
    }
  }

  lemma TooLongIsOversized(order: ByteOrder, max: UInt32, m: Message)
    requires 0 < max < m.dataLen
    ensures Oversized(order, max, Pack(order, m))
  {
    FrameLayout(order, m);
  }

  lemma OversizedIsRefused(order: ByteOrder, max: UInt32, s: seq<Byte>)
    requires Oversized(order, max, s)
    ensures Parse(order, max, s) == Parsed([], s, false)
  {
  }

  /** Right at the limit a payload still gets through; one byte more gives the error and no message. */
  lemma LimitIsInclusive(order: ByteOrder, max: UInt32, id: UInt32, data: seq<Byte>)
    requires 0 < max < 0xffff_ffff
    ensures |data| == max ==> Arrives(Parse(order, max, Pack(order, NewMessage(id, data))), id, data)
    ensures |data| == max + 1 ==>
              var s := Pack(order, NewMessage(id, data)); Parse(order, max, s) == Parsed([], s, false)
  {
    if |data| == max {
      HonestArrives(order, max, NewMessage(id, data));
    } else if |data| == max + 1 {
      TooLongIsOversized(order, max, NewMessage(id, data));
      OversizedIsRefused(order, max, Pack(order, NewMessage(id, data)));
    }
  }

  // ------------------------------------------------------- decoding in pieces

  lemma FirstFrameStays(order: ByteOrder, max: UInt32, s: seq<Byte>, t: seq<Byte>)
    requires !Stuck(order, max, s)
    ensures !Stuck(order, max, s + t)
    ensures FirstFrame(order, s + t) == FirstFrame(order, s)
    ensures AfterFirst(order, s + t) == AfterFirst(order, s) + t
  {
    var n := 8 + ClaimedLen(order, s);
    assert (s + t)[0..4] == s[0..4] && (s + t)[4..8] == s[4..8];
    assert (s + t)[8..n] == s[8..n] && (s + t)[..8] == s[..8];
  }

  /** Decoding `s` then feeding `t` to what is left is decoding `s + t`, also across an error. */
  lemma {:induction false} ParseAppend(order: ByteOrder, max: UInt32, s: seq<Byte>, t: seq<Byte>)
    ensures var p := Parse(order, max, s);
            var q := Parse(order, max, p.rest + t);
            Parse(order, max, s + t) == q.After(p.msgs)
    decreases |s|
  {
    if Stuck(order, max, s) {
      assert [] + Parse(order, max, s + t).msgs == Parse(order, max, s + t).msgs;
    } else {
      var m, u := FirstFrame(order, s), AfterFirst(order, s);
      FirstFrameStays(order, max, s, t);
      ParseAppend(order, max, u, t);
      var p := Parse(order, max, u);
      var q := Parse(order, max, p.rest + t);
      assert [m] + (p.msgs + q.msgs) == [m] + p.msgs + q.msgs;
    }
  }

  /** An oversized header blocks the stream for good. */
  lemma OversizedIsSticky(order: ByteOrder, max: UInt32, s: seq<Byte>, t: seq<Byte>)
    requires Oversized(order, max, s)
    ensures Parse(order, max, s + t) == Parsed([], s + t, false)
  {
    assert (s + t)[0..4] == s[0..4];
  }

  function Flatten(chunks: seq<seq<Byte>>): seq<Byte> {
    if chunks == [] then [] else chunks[0] + Flatten(chunks[1..])
  }

  lemma {:induction false} FlattenAppend(a: seq<seq<Byte>>, b: seq<seq<Byte>>)
    ensures Flatten(a + b) == Flatten(a) + Flatten(b)
    decreases |a|
  {
    if a == [] {
      assert a + b == b;
    } else {
      FlattenAppend(a[1..], b);
      assert (a + b)[1..] == a[1..] + b;
    }
  }

  // --------------------------------------------------- what callers rely on

  /** One Decode call of a codec, as a function of its buffered bytes followed by the new ones. */
  type Decoder = seq<Byte> -> Parsed

  ghost predicate AppendLaw(f: Decoder, s: seq<Byte>, t: seq<Byte>) {
    && f(s + t) == f(f(s).rest + t).After(f(s).msgs)
    && (!f(s).ok ==> f(s + t) == Parsed(f(s).msgs, f(s).rest + t, false))
  }

  ghost predicate SplitLaw(f: Decoder, s: seq<Byte>) {
    var p := f(s);
    var n := |s| - |p.rest|;
    && n >= 0
    && s[n..] == p.rest
    && f(s[..n]) == Parsed(p.msgs, [], true)
    && f(p.rest) == Parsed([], p.rest, p.ok)
  }

  /** A decoder that may be fed a stream in pieces, and whose errors are final. */
  ghost predicate Incremental(f: Decoder) {
    && (forall s, t :: AppendLaw(f, s, t))
    && (forall s :: SplitLaw(f, s))
  }

  function TlvDecoder(order: ByteOrder, max: UInt32): Decoder {
    s => Parse(order, max, s)
  }

  lemma TlvAppendLaw(order: ByteOrder, max: UInt32, s: seq<Byte>, t: seq<Byte>)
    ensures AppendLaw(TlvDecoder(order, max), s, t)
  {
    ParseAppend(order, max, s, t);
    if !Parse(order, max, s).ok {
      ParseIsLossless(order, max, s);
      OversizedIsSticky(order, max, Parse(order, max, s).rest, t);
    }
  }

  lemma TlvSplitLaw(order: ByteOrder, max: UInt32, s: seq<Byte>)
    ensures SplitLaw(TlvDecoder(order, max), s)
  {
    var p := Parse(order, max, s);
    var packed := PackAll(order, p.msgs);
    ParseIsLossless(order, max, s);
    ParseIsUnique(order, max, p.msgs, []);
    assert packed + [] == packed && s[..|packed|] == packed && s[|packed|..] == p.rest;
  }

  lemma TlvIsIncremental(order: ByteOrder, max: UInt32)
    ensures Incremental(TlvDecoder(order, max))
  {
    forall s, t ensures AppendLaw(TlvDecoder(order, max), s, t) {
      TlvAppendLaw(order, max, s, t);
    }
    forall s ensures SplitLaw(TlvDecoder(order, max), s) {
      TlvSplitLaw(order, max, s);
    }
  }

  // --------------------------------------------------------- chunked decoding

  /** What one Decode call hands back. */
  datatype Reply = Reply(msgs: seq<Message>, ok: bool)

  /** The replies of successive Decode calls on `chunks`, starting with `buf` buffered. */
  function Replies(f: Decoder, buf: seq<Byte>, chunks: seq<seq<Byte>>): (rs: seq<Reply>)
    ensures |rs| == |chunks|
    decreases |chunks|
  {
    if chunks == [] then []
    else
      var p := f(buf + chunks[0]);
      [Reply(p.msgs, p.ok)] + Replies(f, p.rest, chunks[1..])
  }

  function Buffered(f: Decoder, buf: seq<Byte>, chunks: seq<seq<Byte>>): seq<Byte>
    decreases |chunks|
  {
    if chunks == [] then buf else Buffered(f, f(buf + chunks[0]).rest, chunks[1..])
  }

  function AllMsgs(rs: seq<Reply>): seq<Message> {
    if rs == [] then [] else rs[0].msgs + AllMsgs(rs[1..])
  }

  lemma RepliesCons(f: Decoder, buf: seq<Byte>, chunks: seq<seq<Byte>>)
    requires chunks != []
    ensures var p := f(buf + chunks[0]);
            var rs, later := Replies(f, buf, chunks), Replies(f, p.rest, chunks[1..]);
            && AllMsgs(rs) == p.msgs + AllMsgs(later)
            && rs[|rs| - 1] == if later == [] then Reply(p.msgs, p.ok) else later[|later| - 1]
  {
    var p := f(buf + chunks[0]);
    assert Replies(f, buf, chunks)[1..] == Replies(f, p.rest, chunks[1..]);
  }

  lemma {:induction false} RepliesCompose(f: Decoder, buf: seq<Byte>, chunks: seq<seq<Byte>>)
    requires Incremental(f) && f(buf).msgs == [] && f(buf).rest == buf
    ensures var rs := Replies(f, buf, chunks);
            var whole := f(buf + Flatten(chunks));
            && AllMsgs(rs) == whole.msgs
            && Buffered(f, buf, chunks) == whole.rest
            && (rs != [] ==> rs[|rs| - 1].ok == whole.ok)
    decreases |chunks|
  {
    if chunks == [] {
      assert buf + Flatten(chunks) == buf;
    } else {
      var s, t := buf + chunks[0], Flatten(chunks[1..]);
      assert s + t == buf + Flatten(chunks);
      assert AppendLaw(f, s, t) && SplitLaw(f, s);
      RepliesCompose(f, f(s).rest, chunks[1..]);
      RepliesCons(f, buf, chunks);
      if |chunks| == 1 {
        assert f(s).rest + t == f(s).rest;
      }
    }
  }

  /**
   How a stream is cut into reads is invisible: the messages of all Decode calls
   of a fresh codec, in order, and its final buffer are those of a single Decode
   of the whole stream, whether or not the stream holds an oversized header.
   */
  lemma ChunkingIsInvisible(order: ByteOrder, max: UInt32, chunks: seq<seq<Byte>>)
    ensures var f := TlvDecoder(order, max);
            var rs := Replies(f, [], chunks);
            var whole := Parse(order, max, Flatten(chunks));
            && AllMsgs(rs) == whole.msgs
            && Buffered(f, [], chunks) == whole.rest
            && (rs != [] ==> rs[|rs| - 1].ok == whole.ok)
  {
    TlvIsIncremental(order, max);
    RepliesCompose(TlvDecoder(order, max), [], chunks);
    assert [] + Flatten(chunks) == Flatten(chunks);
  }

  lemma {:induction false} BlockedReplies(f: Decoder, buf: seq<Byte>, chunks: seq<seq<Byte>>, j: nat)
    requires Incremental(f) && f(buf) == Parsed([], buf, false)
    requires j < |chunks|
    ensures Replies(f, buf, chunks)[j] == Reply([], false)
    decreases j
  {
    assert AppendLaw(f, buf, chunks[0]);
    if j > 0 {
      BlockedReplies(f, buf + chunks[0], chunks[1..], j - 1);
    }
  }

  lemma {:induction false} ErrorStays(f: Decoder, buf: seq<Byte>, chunks: seq<seq<Byte>>, i: nat, j: nat)
    requires Incremental(f)
    requires i < j < |chunks| && !Replies(f, buf, chunks)[i].ok
    ensures Replies(f, buf, chunks)[j] == Reply([], false)
    decreases i
  {
    var s := buf + chunks[0];
    if i == 0 {
      assert SplitLaw(f, s);
      BlockedReplies(f, f(s).rest, chunks[1..], j - 1);
    } else {
      ErrorStays(f, f(s).rest, chunks[1..], i - 1, j - 1);
    }
  }

  /** After the first failing Decode, every later one returns no message and the error again. */
  lemma ErrorIsForever(order: ByteOrder, max: UInt32, chunks: seq<seq<Byte>>, i: nat, j: nat)
    requires i < j < |chunks|
    requires !Replies(TlvDecoder(order, max), [], chunks)[i].ok
    ensures Replies(TlvDecoder(order, max), [], chunks)[j] == Reply([], false)
  {
    TlvIsIncremental(order, max);
    ErrorStays(TlvDecoder(order, max), [], chunks, i, j);
  }

  // --------------------------------------------------------- the codec object

  lemma PrependAfter(m: Message, q: Parsed, done: seq<Message>)
    ensures q.Prepend(m).After(done) == q.After(done + [m])
  {
    assert done + ([m] + q.msgs) == done + [m] + q.msgs;
  }

  lemma ParseStops(order: ByteOrder, max: UInt32, s: seq<Byte>, done: seq<Message>)
    requires Stuck(order, max, s)
    ensures Parse(order, max, s).After(done) == Parsed(done, s, !Oversized(order, max, s))
  {
    assert done + [] == done;
  }

  lemma ParseTakes(order: ByteOrder, max: UInt32, s: seq<Byte>, done: seq<Message>)
    requires !Stuck(order, max, s)
    ensures Parse(order, max, s).After(done)
         == Parse(order, max, AfterFirst(order, s)).After(done + [FirstFrame(order, s)])
  {
    PrependAfter(FirstFrame(order, s), Parse(order, max, AfterFirst(order, s)), done);
  }

  class TLVPack {
    const order: ByteOrder
    const maxPacketSize: UInt32
    var pending: seq<Byte>

    /** Without a byte order, little-endian is taken. */
    constructor WithOrder(order: Option<ByteOrder>, maxPacketSize: UInt32)
      ensures this.order == (if order.Some? then order.value else LittleEndian)
      ensures this.maxPacketSize == maxPacketSize && pending == []
    {
      this.order := if order.Some? then order.value else LittleEndian;
      this.maxPacketSize := maxPacketSize;
      pending := [];
    }

    constructor ()
      ensures order == LittleEndian && maxPacketSize == 4096 && pending == []
    {
      order := LittleEndian;
      maxPacketSize := DEFAULT_MAX_PACKET_SIZE;
      pending := [];
    }

    /** The framing loop: takes frames off the front of the buffer until none is left or one is too large. */
    method Decode(buff: seq<Byte>) returns (msgs: seq<Message>, ok: bool)
      modifies this
      ensures Parsed(msgs, pending, ok) == Parse(order, maxPacketSize, old(pending) + buff)
    {
      pending := pending + buff;
      msgs := [];
      ghost var whole := Parse(order, maxPacketSize, pending);
      assert [] + whole.msgs == whole.msgs;
      while true
        invariant whole == Parse(order, maxPacketSize, pending).After(msgs)
        decreases |pending|
      {
        if |pending| < 8 {
          ParseStops(order, maxPacketSize, pending, msgs);
          return msgs, true;
        }
        var dataLen := Uint32(order, pending[0..4]);
        var msgID := Uint32(order, pending[4..8]);
        if maxPacketSize > 0 && dataLen > maxPacketSize {
          ParseStops(order, maxPacketSize, pending, msgs);
          return msgs, false;
        }
        var total := 8 + dataLen;
        if |pending| < total {
          ParseStops(order, maxPacketSize, pending, msgs);
          return msgs, true;
        }
        ParseTakes(order, maxPacketSize, pending, msgs);
        var msg := Message(msgID, dataLen, pending[8..total], pending[..8]);
        assert msg == FirstFrame(order, pending) && pending[total..] == AfterFirst(order, pending);
        msgs := msgs + [msg];
        pending := pending[total..];
      }
    }

    /** A clone shares the configuration and none of the buffered bytes. */
    method Clone() returns (c: TLVPack)
      ensures fresh(c) && c.order == order && c.maxPacketSize == maxPacketSize && c.pending == []
    {
      c := new TLVPack.WithOrder(Some(order), maxPacketSize);
    }
  }
}
