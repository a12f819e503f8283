/**
 The read loop of a connection (startReader, knet/connection.go): each read is
 decoded, and its messages are dispatched only when that Decode reported no error.
 The reads are the chunks the socket returned before it failed. The theorems hold
 for every incremental codec; `Codec.TlvIsIncremental` makes the default one an instance.
 */
module Reader {
  import opened Common
  import opened Codec

  /** Read buffers hold 4096 bytes. */
  const READ_CHUNK_SIZE := 4096

  /** Messages handed to the dispatcher, with `buf` already buffered in the codec. */
  function Dispatched(f: Decoder, buf: seq<Byte>, chunks: seq<seq<Byte>>): seq<Message>
    decreases |chunks|
  {
    if chunks == [] then []
    else
      var p := f(buf + chunks[0]);
      if p.ok then p.msgs + Dispatched(f, p.rest, chunks[1..]) else []
  }

  lemma DispatchStep(f: Decoder, buf: seq<Byte>, chunks: seq<seq<Byte>>, i: nat, sofar: seq<Message>)
    requires i < |chunks|
    ensures var p := f(buf + chunks[i]);
            sofar + Dispatched(f, buf, chunks[i..])
            == if p.ok then sofar + p.msgs + Dispatched(f, p.rest, chunks[i + 1..]) else sofar
  {
    assert chunks[i..][0] == chunks[i] && chunks[i..][1..] == chunks[i + 1..];
    var p := f(buf + chunks[i]);
    var later := Dispatched(f, p.rest, chunks[i + 1..]);
    assert sofar + (p.msgs + later) == sofar + p.msgs + later;
  }

  /** Appends the messages one by one, as the dispatch loop does. */
  method Dispatch(sofar: seq<Message>, msgs: seq<Message>) returns (dispatched: seq<Message>)
    ensures dispatched == sofar + msgs
  {
    dispatched := sofar;
    for j := 0 to |msgs|
      invariant dispatched == sofar + msgs[..j]
    {
      dispatched := dispatched + [msgs[j]];
    }
  }

  method ReadLoop(codec: TLVPack, chunks: seq<seq<Byte>>) returns (dispatched: seq<Message>)
    modifies codec
    ensures dispatched == Dispatched(TlvDecoder(codec.order, codec.maxPacketSize), old(codec.pending), chunks)
  {
    dispatched := [];
    ghost var f := TlvDecoder(codec.order, codec.maxPacketSize);
    ghost var all := Dispatched(f, codec.pending, chunks);
    var i := 0;
    assert chunks[0..] == chunks;
    while i < |chunks|
      invariant 0 <= i <= |chunks|
      invariant all == dispatched + Dispatched(f, codec.pending, chunks[i..])
    {
      DispatchStep(f, codec.pending, chunks, i, dispatched);
      var msgs, ok := codec.Decode(chunks[i]);
      if !ok {
        return;
      }
      dispatched := Dispatch(dispatched, msgs);
      i := i + 1;
    }
  }

  lemma {:induction false} DispatchUpTo(f: Decoder, buf: seq<Byte>, chunks: seq<seq<Byte>>, k: nat)
    requires Incremental(f)
    requires f(buf) == Parsed([], buf, true)
    requires k <= |chunks|
    requires f(buf + Flatten(chunks[..k])).ok
    requires k < |chunks| ==> !f(buf + Flatten(chunks[..k + 1])).ok
    ensures Dispatched(f, buf, chunks) == f(buf + Flatten(chunks[..k])).msgs
    decreases k
  {
    if k == 0 {
      assert buf + Flatten(chunks[..0]) == buf;
      if chunks != [] {
        assert chunks[..1][1..] == [] && Flatten(chunks[..1]) == chunks[0];
      }
    } else {
      var s, rest := buf + chunks[0], chunks[1..];
      assert SplitLaw(f, s);
      assert chunks[..k][1..] == rest[..k - 1];
      assert buf + Flatten(chunks[..k]) == s + Flatten(rest[..k - 1]);
      assert AppendLaw(f, s, Flatten(rest[..k - 1]));
      if k < |chunks| {
        assert chunks[..k + 1][1..] == rest[..k];
        assert buf + Flatten(chunks[..k + 1]) == s + Flatten(rest[..k]);
        assert AppendLaw(f, s, Flatten(rest[..k]));
      }
      DispatchUpTo(f, f(s).rest, rest, k - 1);
    }
  }

  lemma FreshIsStuck(f: Decoder)
    requires Incremental(f)
    ensures f([]) == Parsed([], [], true)
  {
    var s: seq<Byte> := [];
    assert SplitLaw(f, s);
    assert s[..0] == s;
  }

  /**
   With `k` the first read that makes the stream fail to decode (or the number of
   reads), exactly the frames completed by the reads before `k` are dispatched;
   those completed by read `k` itself are discarded.
   */
  lemma DispatchStopsBeforeFailingRead(f: Decoder, chunks: seq<seq<Byte>>, k: nat)
    requires Incremental(f)
    requires k <= |chunks|
    requires f(Flatten(chunks[..k])).ok
    requires k < |chunks| ==> !f(Flatten(chunks[..k + 1])).ok
    ensures Dispatched(f, [], chunks) == f(Flatten(chunks[..k])).msgs
  {
    var x := Flatten(chunks[..k]);
    assert [] + x == x;
    if k < |chunks| {
      var y := Flatten(chunks[..k + 1]);
      assert [] + y == y;
    }
    FreshIsStuck(f);
    DispatchUpTo(f, [], chunks, k);
  }

  lemma {:induction false} DispatchIsPrefix(f: Decoder, buf: seq<Byte>, chunks: seq<seq<Byte>>)
    requires Incremental(f)
    requires f(buf) == Parsed([], buf, true)
    ensures Dispatched(f, buf, chunks) <= f(buf + Flatten(chunks)).msgs
    decreases |chunks|
  {
    if chunks != [] {
      var s := buf + chunks[0];
      assert buf + Flatten(chunks) == s + Flatten(chunks[1..]);
      assert AppendLaw(f, s, Flatten(chunks[1..]));
      assert SplitLaw(f, s);
      if f(s).ok {
        DispatchIsPrefix(f, f(s).rest, chunks[1..]);
      }
    }
  }

  // ------------------------------------------- does the cutting into reads matter?

  /** Chunks that reads into a buffer of the given size can return. */
  predicate AreReads(size: nat, chunks: seq<seq<Byte>>) {
    forall i :: 0 <= i < |chunks| ==> 0 < |chunks[i]| <= size
  }

  /** Every way of receiving the stream dispatches the same messages. */
  ghost predicate ChunkIndependent(f: Decoder, size: nat, stream: seq<Byte>) {
    forall a, b :: Flatten(a) == stream && Flatten(b) == stream && AreReads(size, a) && AreReads(size, b) ==>
      Dispatched(f, [], a) == Dispatched(f, [], b)
  }

  lemma MoreBytesMoreMessages(f: Decoder, s: seq<Byte>, i: nat, j: nat)
    requires Incremental(f) && i <= j <= |s|
    ensures f(s[..i]).msgs <= f(s[..j]).msgs
    ensures f(s[..j]).ok ==> f(s[..i]).ok
  {
    assert s[..j] == s[..i] + s[i..j];
    assert AppendLaw(f, s[..i], s[i..j]);
  }

  /** The length of the shortest prefix that fails to decode. */
  ghost function FirstBad(f: Decoder, s: seq<Byte>): (m: nat)
    requires Incremental(f) && !f(s).ok
    ensures 0 < m <= |s| && !f(s[..m]).ok && f(s[..m - 1]).ok
    decreases |s|
  {
    FreshIsStuck(f);
    var t := s[..|s| - 1];
    assert s[..|s|] == s;
    if f(t).ok then |s|
    else
      var m := FirstBad(f, t);
      assert t[..m] == s[..m] && t[..m - 1] == s[..m - 1];
      m
  }

  function Singles(s: seq<Byte>): (chunks: seq<seq<Byte>>)
    ensures |chunks| == |s| && forall i :: 0 <= i < |s| ==> |chunks[i]| == 1
  {
    if s == [] then [] else [[s[0]]] + Singles(s[1..])
  }

  lemma {:induction false} FlattenSingles(s: seq<Byte>)
    ensures Flatten(Singles(s)) == s
    decreases |s|
  {
    if s != [] {
      FlattenSingles(s[1..]);
      assert Singles(s)[1..] == Singles(s[1..]);
    }
  }

  /** Byte by byte up to `j`, then one read up to `m`, then byte by byte again. */
  function CutAt(s: seq<Byte>, j: nat, m: nat): seq<seq<Byte>>
    requires j < m <= |s|
  {
    Singles(s[..j]) + [s[j..m]] + Singles(s[m..])
  }

  lemma CutIsReads(s: seq<Byte>, j: nat, m: nat, size: nat)
    requires j < m <= |s| && m - j <= size
    ensures AreReads(size, CutAt(s, j, m))
  {
  }

  lemma FlattenSnoc(chunks: seq<seq<Byte>>, c: seq<Byte>)
    ensures Flatten(chunks + [c]) == Flatten(chunks) + c
  {
    FlattenAppend(chunks, [c]);
    assert [c][1..] == [] && c + [] == c;
  }

  lemma CutFlattens(s: seq<Byte>, j: nat, m: nat)
    requires j < m <= |s|
    ensures var chunks := CutAt(s, j, m);
            Flatten(chunks) == s && Flatten(chunks[..j]) == s[..j] && Flatten(chunks[..j + 1]) == s[..m]
  {
    var a, c := Singles(s[..j]), Singles(s[m..]);
    FlattenSingles(s[..j]);
    FlattenSingles(s[m..]);
    FlattenSnoc(a, s[j..m]);
    FlattenAppend(a + [s[j..m]], c);
    assert CutAt(s, j, m)[..j] == a && CutAt(s, j, m)[..j + 1] == a + [s[j..m]];
    assert s[..j] + s[j..m] == s[..m];
    assert s[..m] + s[m..] == s;
  }

  /** When the failing read starts at `j`, what came before is dispatched. */
  lemma CutDispatches(f: Decoder, s: seq<Byte>, j: nat, m: nat)
    requires Incremental(f) && j < m <= |s|
    requires f(s[..j]).ok && !f(s[..m]).ok
    ensures Dispatched(f, [], CutAt(s, j, m)) == f(s[..j]).msgs
  {
    CutFlattens(s, j, m);
    DispatchStopsBeforeFailingRead(f, CutAt(s, j, m), j);
  }

  lemma {:induction false} FirstFailingRead(f: Decoder, chunks: seq<seq<Byte>>, n: nat) returns (k: nat)
    requires Incremental(f) && n <= |chunks| && !f(Flatten(chunks[..n])).ok
    ensures k < n && f(Flatten(chunks[..k])).ok && !f(Flatten(chunks[..k + 1])).ok
    decreases n
  {
    FreshIsStuck(f);
    assert Flatten(chunks[..0]) == [];
    if f(Flatten(chunks[..n - 1])).ok {
      k := n - 1;
    } else {
      k := FirstFailingRead(f, chunks, n - 1);
    }
  }

  lemma FlattenPrefix(chunks: seq<seq<Byte>>, k: nat)
    requires k < |chunks|
    ensures var s, j := Flatten(chunks), |Flatten(chunks[..k])|;
            && j + |chunks[k]| <= |s|
            && Flatten(chunks[..k]) == s[..j] && Flatten(chunks[..k + 1]) == s[..j + |chunks[k]|]
  {
    var a, b, c := chunks[..k], [chunks[k]], chunks[k + 1..];
    assert chunks == a + b + c && chunks[..k + 1] == a + b;
    FlattenAppend(a + b, c);
    FlattenAppend(a, b);
    assert b[1..] == [] && Flatten(b) == chunks[k];
  }

  /** Whatever the reads, the failing one starts within a buffer's length of the byte that gives the error. */
  lemma DispatchOfFailing(f: Decoder, size: nat, chunks: seq<seq<Byte>>) returns (j: nat)
    requires Incremental(f) && AreReads(size, chunks) && !f(Flatten(chunks)).ok
    ensures var s := Flatten(chunks);
            var m := FirstBad(f, s);
            j < m <= j + size && Dispatched(f, [], chunks) == f(s[..j]).msgs
  {
    var s := Flatten(chunks);
    var m := FirstBad(f, s);
    assert chunks[..|chunks|] == chunks;
    var k := FirstFailingRead(f, chunks, |chunks|);
    FlattenPrefix(chunks, k);
    j := |Flatten(chunks[..k])|;
    DispatchStopsBeforeFailingRead(f, chunks, k);
    if m <= j {
      MoreBytesMoreMessages(f, s, m, j);
    }
    if j + |chunks[k]| < m {
      MoreBytesMoreMessages(f, s, j + |chunks[k]|, m - 1);
    }
  }

  /** Nothing is decoded within a buffer's length before the byte that gives the error. */
  ghost predicate QuietBeforeError(f: Decoder, size: nat, s: seq<Byte>)
    requires Incremental(f) && !f(s).ok
  {
    var m := FirstBad(f, s);
    f(s[..if m < size then 0 else m - size]).msgs == f(s[..m - 1]).msgs
  }

  lemma Between(a: seq<Message>, b: seq<Message>, c: seq<Message>)
    requires a <= b <= c && a == c
    ensures b == c
  {
  }

  lemma FailingIndependent(f: Decoder, size: nat, s: seq<Byte>, chunks: seq<seq<Byte>>)
    requires Incremental(f) && !f(s).ok && QuietBeforeError(f, size, s)
    requires Flatten(chunks) == s && AreReads(size, chunks)
    ensures Dispatched(f, [], chunks) == f(s[..FirstBad(f, s) - 1]).msgs
  {
    var m := FirstBad(f, s);
    var lo := if m < size then 0 else m - size;
    var j := DispatchOfFailing(f, size, chunks);
    MoreBytesMoreMessages(f, s, lo, j);
    MoreBytesMoreMessages(f, s, j, m - 1);
    Between(f(s[..lo]).msgs, f(s[..j]).msgs, f(s[..m - 1]).msgs);
  }

  lemma FailingDependent(f: Decoder, size: nat, s: seq<Byte>)
    requires Incremental(f) && size > 0 && !f(s).ok && !QuietBeforeError(f, size, s)
    ensures !ChunkIndependent(f, size, s)
  {
    var m := FirstBad(f, s);
    var lo := if m < size then 0 else m - size;
    MoreBytesMoreMessages(f, s, lo, m - 1);
    CutDispatches(f, s, lo, m);
    CutDispatches(f, s, m - 1, m);
    CutFlattens(s, lo, m);
    CutFlattens(s, m - 1, m);
    CutIsReads(s, lo, m, size);
    CutIsReads(s, m - 1, m, size);
    assert Dispatched(f, [], CutAt(s, lo, m)) != Dispatched(f, [], CutAt(s, m - 1, m));
  }

  /**
   For every codec and every size of the read buffer: dispatch does not depend on the
   cutting exactly when the stream decodes without an error, or nothing is decoded
   within a buffer's length before the byte that gives the error.
   */
  lemma ChunkIndependentIff(f: Decoder, size: nat, stream: seq<Byte>)
    requires Incremental(f) && size > 0
    ensures ChunkIndependent(f, size, stream) <==> f(stream).ok || QuietBeforeError(f, size, stream)
  {
    FreshIsStuck(f);
    if f(stream).ok {
      forall a | Flatten(a) == stream ensures Dispatched(f, [], a) == f(stream).msgs {
        assert [] + Flatten(a) == stream && a[..|a|] == a;
        DispatchUpTo(f, [], a, |a|);
      }
    } else if QuietBeforeError(f, size, stream) {
      forall a | Flatten(a) == stream && AreReads(size, a)
        ensures Dispatched(f, [], a) == f(stream[..FirstBad(f, stream) - 1]).msgs
      {
        FailingIndependent(f, size, stream, a);
      }
    } else {
      FailingDependent(f, size, stream);
    }
  }

  // ------------------------------------------------------------------- TLV streams

  lemma PackedLength(order: ByteOrder, max: UInt32, s: seq<Byte>)
    ensures |PackAll(order, Parse(order, max, s).msgs)| + |Parse(order, max, s).rest| == |s|
  {
    ParseIsLossless(order, max, s);
  }

  lemma FramesHaveBytes(order: ByteOrder, ms: seq<Message>)
    requires ms != []
    ensures |PackAll(order, ms)| >= 8
  {
    assert |Pack(order, ms[0])| >= 8;
  }

  /** One byte less than the frames of a stream take holds fewer frames. */
  ghost predicate FrameLaw(f: Decoder, s: seq<Byte>) {
    var n := |s| - |f(s).rest|;
    f(s).msgs != [] ==> 0 < n <= |s| && f(s[..n - 1]).msgs != f(s).msgs
  }

  /** Eight bytes are enough to see an error. */
  ghost predicate ErrorLaw(f: Decoder, s: seq<Byte>) {
    !f(s).ok ==> |f(s).rest| >= 8 && !f(f(s).rest[..8]).ok
  }

  lemma TooShortFor(order: ByteOrder, max: UInt32, t: seq<Byte>, ms: seq<Message>)
    requires |t| < |PackAll(order, ms)|
    ensures Parse(order, max, t).msgs != ms
  {
    PackedLength(order, max, t);
  }

  lemma TlvFrameLaw(order: ByteOrder, max: UInt32, s: seq<Byte>)
    ensures FrameLaw(TlvDecoder(order, max), s)
  {
    var f := TlvDecoder(order, max);
    PackedLength(order, max, s);
    if f(s).msgs != [] {
      FramesHaveBytes(order, f(s).msgs);
      TooShortFor(order, max, s[..|s| - |f(s).rest| - 1], f(s).msgs);
    }
  }

  lemma EightBytesShowIt(order: ByteOrder, max: UInt32, r: seq<Byte>)
    requires Oversized(order, max, r)
    ensures !Parse(order, max, r[..8]).ok
  {
    assert r[..8][0..4] == r[0..4];
  }

  lemma TlvErrorLaw(order: ByteOrder, max: UInt32, s: seq<Byte>)
    ensures ErrorLaw(TlvDecoder(order, max), s)
  {
    ParseIsLossless(order, max, s);
    if !Parse(order, max, s).ok {
      EightBytesShowIt(order, max, Parse(order, max, s).rest);
    }
  }

  /** A bad header shows behind what comes before it. */
  lemma ErrorBehind(f: Decoder, s: seq<Byte>, n: nat)
    requires Incremental(f) && n == |s| - |f(s).rest| && |f(s).rest| >= 8 && !f(f(s).rest[..8]).ok
    ensures 0 <= n && f(s[..n]) == Parsed(f(s).msgs, [], true) && !f(s[..n + 8]).ok
  {
    assert SplitLaw(f, s);
    var r := f(s).rest;
    assert AppendLaw(f, s[..n], r[..8]);
    assert s[..n + 8] == s[..n] + r[..8] && [] + r[..8] == r[..8];
  }

  lemma LateFrameIsNotQuiet(f: Decoder, size: nat, s: seq<Byte>, n: nat)
    requires Incremental(f) && size >= 9 && 0 < n && n + 8 <= |s| && !f(s).ok
    requires f(s[..n]).ok && !f(s[..n + 8]).ok && f(s[..n - 1]).msgs != f(s[..n]).msgs
    ensures !QuietBeforeError(f, size, s)
  {
    var m := FirstBad(f, s);
    var lo := if m < size then 0 else m - size;
    if m <= n { MoreBytesMoreMessages(f, s, m, n); }
    if n + 8 < m { MoreBytesMoreMessages(f, s, n + 8, m - 1); }
    MoreBytesMoreMessages(f, s, n, m - 1);
    MoreBytesMoreMessages(f, s, n - 1, n);
    MoreBytesMoreMessages(f, s, lo, n - 1);
    var a, b, c, d := f(s[..lo]).msgs, f(s[..n - 1]).msgs, f(s[..n]).msgs, f(s[..m - 1]).msgs;
    assert |a| <= |b| < |c| <= |d|;
  }

  lemma NothingIsQuiet(f: Decoder, size: nat, s: seq<Byte>)
    requires Incremental(f) && !f(s).ok && f(s).msgs == []
    ensures QuietBeforeError(f, size, s)
  {
    var m := FirstBad(f, s);
    assert s[..|s|] == s;
    MoreBytesMoreMessages(f, s, if m < size then 0 else m - size, |s|);
    MoreBytesMoreMessages(f, s, m - 1, |s|);
  }

  lemma QuietIff(f: Decoder, size: nat, s: seq<Byte>)
    requires Incremental(f) && FrameLaw(f, s) && ErrorLaw(f, s) && size >= 9 && !f(s).ok
    ensures QuietBeforeError(f, size, s) <==> f(s).msgs == []
  {
    if f(s).msgs == [] {
      NothingIsQuiet(f, size, s);
    } else {
      var n := |s| - |f(s).rest|;
      ErrorBehind(f, s, n);
      LateFrameIsNotQuiet(f, size, s, n);
    }
  }

  /**
   For the TLV codec and the reader's own buffer: dispatch is the same for all ways of
   receiving the stream exactly when the stream decodes without an error, or fails
   before its first frame. A read of 9 bytes, the last of the last frame and the
   offending header, is enough to lose that frame.
   */
  lemma TlvChunkIndependentIff(order: ByteOrder, max: UInt32, stream: seq<Byte>)
    ensures ChunkIndependent(TlvDecoder(order, max), READ_CHUNK_SIZE, stream)
       <==> Parse(order, max, stream).ok || Parse(order, max, stream).msgs == []
  {
    TlvIsIncremental(order, max);
    ChunkIndependentIff(TlvDecoder(order, max), READ_CHUNK_SIZE, stream);
    if !Parse(order, max, stream).ok {
      TlvFrameLaw(order, max, stream);
      TlvErrorLaw(order, max, stream);
      QuietIff(TlvDecoder(order, max), READ_CHUNK_SIZE, stream);
    }
  }
}
