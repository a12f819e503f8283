/**
 The log ring buffer (klog/ringbuffer.go): a circular array that agrees with the
 last bytes of everything ever written, and the lines read back from it.
 */
module RingBuffer {
  import opened Common

  const NEWLINE: Byte := 10

  const DEFAULT_CAPACITY := 64 * 1024

  // --------------------------------------------------------------------- lines

  /** `x` in front of the first part. */
  function Push(x: Byte, parts: seq<seq<Byte>>): seq<seq<Byte>>
    requires parts != []
  {
    [[x] + parts[0]] + parts[1..]
  }

  /** strings.Split at newlines: one part more than there are newlines. */
  function Split(s: seq<Byte>): (parts: seq<seq<Byte>>)
    ensures parts != []
  {
    if s == [] then [[]]
    else
      var rest := Split(s[1..]);
      if s[0] == NEWLINE then [[]] + rest else Push(s[0], rest)
  }

  function Join(parts: seq<seq<Byte>>): seq<Byte>
    requires parts != []
  {
    if |parts| == 1 then parts[0] else parts[0] + [NEWLINE] + Join(parts[1..])
  }

  /** Split is undone by Join and leaves no newline inside a part. */
  lemma {:induction false} SplitJoins(s: seq<Byte>)
    ensures Join(Split(s)) == s
    ensures forall i :: 0 <= i < |Split(s)| ==> NEWLINE !in Split(s)[i]
    decreases |s|
  {
    if s != [] {
      var rest := Split(s[1..]);
      SplitJoins(s[1..]);
      if s[0] == NEWLINE {
        assert ([[]] + rest)[1..] == rest;
        assert [] + [NEWLINE] + Join(rest) == s;
      } else {
        var parts := Push(s[0], rest);
        assert parts[1..] == rest[1..];
        if |rest| > 1 {
          assert [s[0]] + rest[0] + [NEWLINE] + Join(rest[1..]) == [s[0]] + Join(rest);
        }
        assert Join(parts) == [s[0]] + Join(rest);
      }
    }
  }

  /** The last part of `p` and the first of `q` become one. */
  function Glue(p: seq<seq<Byte>>, q: seq<seq<Byte>>): (g: seq<seq<Byte>>)
    requires p != [] && q != []
    ensures |g| == |p| + |q| - 1
  {
    p[..|p| - 1] + [p[|p| - 1] + q[0]] + q[1..]
  }

  lemma GlueBehindEmpty(p: seq<seq<Byte>>, q: seq<seq<Byte>>)
    requires p != [] && q != []
    ensures Glue([[]] + p, q) == [[]] + Glue(p, q)
  {
    var e: seq<seq<Byte>> := [[]];
    assert (e + p)[..|p|] == e + p[..|p| - 1] && (e + p)[|p|] == p[|p| - 1];
  }

  lemma GluePush(x: Byte, p: seq<seq<Byte>>, q: seq<seq<Byte>>)
    requires p != [] && q != []
    ensures Glue(Push(x, p), q) == Push(x, Glue(p, q))
  {
    var l, r := Glue(Push(x, p), q), Push(x, Glue(p, q));
    assert |l| == |r|;
    if |p| == 1 {
      assert [x] + p[0] + q[0] == [x] + (p[0] + q[0]);
    }
    forall i | 0 <= i < |l| ensures l[i] == r[i] {
    }
  }

  /** Splitting a concatenation glues the splits. */
  lemma {:induction false} SplitConcat(a: seq<Byte>, b: seq<Byte>)
    ensures Split(a + b) == Glue(Split(a), Split(b))
    decreases |a|
  {
    if a == [] {
      var q := Split(b);
      assert a + b == b && [] + q[0] == q[0];
      assert Glue([[]], q) == q;
    } else {
      SplitConcat(a[1..], b);
      assert (a + b)[1..] == a[1..] + b;
      GlueBehindEmpty(Split(a[1..]), Split(b));
      GluePush(a[0], Split(a[1..]), Split(b));
    }
  }

  /** Without the empty part that a final newline leaves. */
  function DropEmptyLast(parts: seq<seq<Byte>>): seq<seq<Byte>>
    requires parts != []
  {
    if parts[|parts| - 1] == [] then parts[..|parts| - 1] else parts
  }

  /** The lines of a text. */
  function LinesOf(s: seq<Byte>): seq<seq<Byte>> {
    if s == [] then [] else DropEmptyLast(Split(s))
  }

  predicate IsSuffix(a: seq<Byte>, b: seq<Byte>) {
    |a| <= |b| && b[|b| - |a|..] == a
  }

  /** `w` are the last lines of `h`, the oldest of them possibly cut at the front. */
  predicate LastLines(w: seq<seq<Byte>>, h: seq<seq<Byte>>) {
    && |w| <= |h|
    && (forall i :: 1 <= i < |w| ==> w[i] == h[|h| - |w| + i])
    && (w != [] ==> IsSuffix(w[0], h[|h| - |w|]))
  }

  lemma SplitOfOne(s: seq<Byte>)
    ensures |Split(s)| == 1 ==> Split(s)[0] == s
  {
    SplitJoins(s);
  }

  lemma GlueParts(p: seq<seq<Byte>>, q: seq<seq<Byte>>, i: nat)
    requires p != [] && q != [] && i < |q|
    ensures i > 0 ==> Glue(p, q)[|p| - 1 + i] == q[i]
    ensures i == 0 ==> IsSuffix(q[0], Glue(p, q)[|p| - 1])
    ensures i == |q| - 1 && (i == 0 ==> q[0] != []) ==>
              (Glue(p, q)[|p| - 1 + i] == [] <==> q[i] == [])
  {
    assert i == 0 ==> Glue(p, q)[|p| - 1] == p[|p| - 1] + q[0];
  }

  /** Gluing something in front keeps the last parts, but for the front of the first. */
  lemma GlueKeepsLast(p: seq<seq<Byte>>, q: seq<seq<Byte>>)
    requires p != [] && q != [] && (|q| == 1 ==> q[0] != [])
    ensures LastLines(DropEmptyLast(q), DropEmptyLast(Glue(p, q)))
  {
    var w, h := DropEmptyLast(q), DropEmptyLast(Glue(p, q));
    GlueParts(p, q, |q| - 1);
    assert |h| - |w| == |p| - 1;
    forall i | 1 <= i < |w| ensures w[i] == h[|h| - |w| + i] {
      GlueParts(p, q, i);
    }
    GlueParts(p, q, 0);
  }

  /** The lines of a window are the last lines of the whole text. */
  lemma WindowLines(cut: seq<Byte>, window: seq<Byte>)
    ensures LastLines(LinesOf(window), LinesOf(cut + window))
  {
    if window != [] {
      SplitConcat(cut, window);
      SplitOfOne(window);
      GlueKeepsLast(Split(cut), Split(window));
    }
  }

  function LastN(lines: seq<seq<Byte>>, n: nat): seq<seq<Byte>> {
    if |lines| <= n then lines else lines[|lines| - n..]
  }

  /** The last min(n, |lines|) of them. */
  lemma LastNIsTheEnd(lines: seq<seq<Byte>>, n: nat)
    ensures |LastN(lines, n)| == if n < |lines| then n else |lines|
    ensures lines == lines[..|lines| - |LastN(lines, n)|] + LastN(lines, n)
  {
  }

  lemma LastNKeeps(w: seq<seq<Byte>>, h: seq<seq<Byte>>, n: nat)
    requires LastLines(w, h)
    ensures LastLines(LastN(w, n), h)
  {
    var l := LastN(w, n);
    assert forall i :: 0 <= i < |l| ==> l[i] == w[|w| - |l| + i];
  }

  lemma NewestAreSame(w: seq<seq<Byte>>, h: seq<seq<Byte>>, n: nat)
    requires LastLines(w, h) && n < |w|
    ensures LastN(w, n) == LastN(h, n)
  {
    assert forall i :: 0 <= i < n ==> LastN(w, n)[i] == w[|w| - n + i];
  }

  /** Lines newer than the window's oldest are whole: asking for fewer lines than it holds gives history's own. */
  lemma FewerLinesAreWhole(cut: seq<Byte>, window: seq<Byte>, n: nat)
    requires n < |LinesOf(window)|
    ensures LastN(LinesOf(window), n) == LastN(LinesOf(cut + window), n)
  {
    WindowLines(cut, window);
    NewestAreSame(LinesOf(window), LinesOf(cut + window), n);
  }

  // ---------------------------------------------------------------- empty lines

  /** No line of the text is empty: it does not start with a newline and has no two in a row. */
  predicate NoBlankLine(s: seq<Byte>) {
    && (s != [] ==> s[0] != NEWLINE)
    && forall i :: 0 < i < |s| && s[i] == NEWLINE ==> s[i - 1] != NEWLINE
  }

  predicate AllNonEmpty(lines: seq<seq<Byte>>) {
    forall i :: 0 <= i < |lines| ==> lines[i] != []
  }

  lemma NoBlankCons(x: Byte, s: seq<Byte>)
    ensures NoBlankLine([x] + s) <==>
              x != NEWLINE && if s != [] && s[0] == NEWLINE then NoBlankLine(s[1..]) else NoBlankLine(s)
  {
    var t := [x] + s;
    assert forall i :: 0 < i < |t| ==> t[i] == s[i - 1];
    if NoBlankLine(t) {
      forall i | 0 < i < |s| && s[i] == NEWLINE ensures s[i - 1] != NEWLINE {
        assert t[i + 1] == NEWLINE && t[i] == s[i - 1];
      }
      if |s| > 1 && s[0] == NEWLINE {
        assert t[1] == NEWLINE && t[2] == s[1];
      }
    }
    if x != NEWLINE && s != [] && s[0] == NEWLINE && NoBlankLine(s[1..]) {
      forall i | 0 < i < |t| && t[i] == NEWLINE ensures t[i - 1] != NEWLINE {
        if i > 1 { assert s[1..][i - 2] == t[i]; }
        if i > 2 { assert s[1..][i - 3] == t[i - 1]; }
      }
    }
  }

  lemma SplitCons(x: Byte, s: seq<Byte>)
    ensures Split([x] + s) == if x == NEWLINE then [[]] + Split(s) else Push(x, Split(s))
  {
    assert ([x] + s)[1..] == s;
  }

  lemma FirstPart(s: seq<Byte>)
    ensures Split(s)[0] == [] <==> s == [] || s[0] == NEWLINE
  {
  }

  /** All parts but the last are non-empty exactly when there is no blank line. */
  lemma {:induction false} PartsNonEmptyIff(s: seq<Byte>)
    ensures AllNonEmpty(Split(s)[..|Split(s)| - 1]) <==> NoBlankLine(s)
    decreases |s|
  {
    if s != [] {
      var x, r := s[0], s[1..];
      assert s == [x] + r;
      SplitCons(x, r);
      NoBlankCons(x, r);
      if x == NEWLINE {
        assert Split(s)[..|Split(s)| - 1][0] == [];
      } else if r != [] && r[0] == NEWLINE {
        PartsNonEmptyIff(r[1..]);
        var p := Split(r[1..]);
        assert r == [r[0]] + r[1..];
        SplitCons(r[0], r[1..]);
        assert [x] + [] == [x] && ([[]] + p)[1..] == p;
        assert Split(s) == [[x]] + p;
        assert Split(s)[..|p|] == [[x]] + p[..|p| - 1];
        NonEmptyCons([x], p[..|p| - 1]);
      } else {
        PartsNonEmptyIff(r);
        PushNonEmpty(x, r);
      }
    }
  }

  lemma NonEmptyCons(l: seq<Byte>, ls: seq<seq<Byte>>)
    ensures AllNonEmpty([l] + ls) <==> l != [] && AllNonEmpty(ls)
  {
    assert AllNonEmpty([l] + ls) ==> ([l] + ls)[0] == l;
    assert forall i :: 0 <= i < |ls| ==> ([l] + ls)[i + 1] == ls[i];
  }

  lemma PushNonEmpty(x: Byte, r: seq<Byte>)
    requires r == [] || r[0] != NEWLINE
    ensures var p, q := Split(r), Push(x, Split(r));
            AllNonEmpty(q[..|q| - 1]) <==> AllNonEmpty(p[..|p| - 1])
  {
    var p, q := Split(r), Push(x, Split(r));
    FirstPart(r);
    if |p| > 1 {
      assert q[..|q| - 1] == [[x] + p[0]] + p[1..|p| - 1] && p[..|p| - 1] == [p[0]] + p[1..|p| - 1];
      NonEmptyCons([x] + p[0], p[1..|p| - 1]);
      NonEmptyCons(p[0], p[1..|p| - 1]);
    }
  }

  /** Lines are all non-empty exactly when the text has no blank line. */
  lemma LinesNonEmptyIff(s: seq<Byte>)
    ensures AllNonEmpty(LinesOf(s)) <==> NoBlankLine(s)
  {
    if s != [] {
      var p := Split(s);
      PartsNonEmptyIff(s);
      assert p == p[..|p| - 1] + [p[|p| - 1]];
      assert forall i :: 0 <= i < |p| - 1 ==> p[..|p| - 1][i] == p[i];
    }
  }

  /** The text behind its first `k` newlines. */
  function AfterNewlines(s: seq<Byte>, k: nat): seq<Byte> {
    if k == 0 || s == [] then s else AfterNewlines(s[1..], if s[0] == NEWLINE then k - 1 else k)
  }

  lemma {:induction false} SplitAfterNewlines(s: seq<Byte>, k: nat)
    requires k < |Split(s)|
    ensures Split(AfterNewlines(s, k)) == Split(s)[k..]
    decreases |s|
  {
    if k > 0 {
      var rest := Split(s[1..]);
      if s[0] == NEWLINE {
        SplitAfterNewlines(s[1..], k - 1);
        assert ([[]] + rest)[k..] == rest[k - 1..];
      } else {
        SplitAfterNewlines(s[1..], k);
        assert Push(s[0], rest)[k..] == rest[k..];
      }
    }
  }

  lemma DropKeepsSuffix(p: seq<seq<Byte>>, k: nat)
    requires p != [] && k < |DropEmptyLast(p)|
    ensures DropEmptyLast(p[k..]) == DropEmptyLast(p)[k..] != []
  {
    assert p[k..][|p| - k - 1] == p[|p| - 1];
    assert p[k..][..|p| - k - 1] == p[..|p| - 1][k..];
  }

  /** Leaving out the first lines is reading the text behind as many newlines. */
  lemma LinesAfterNewlines(s: seq<Byte>, k: nat)
    requires k < |LinesOf(s)|
    ensures LinesOf(AfterNewlines(s, k)) == LinesOf(s)[k..]
  {
    SplitAfterNewlines(s, k);
    DropKeepsSuffix(Split(s), k);
    var t: seq<Byte> := [];
    assert DropEmptyLast(Split(t)) == [];
  }

  /** How many of the lines are left out when the last `n` are asked for. */
  function Skipped(lines: nat, n: nat): nat { if lines <= n then 0 else lines - n }

  /**
   Exactly when the last `n` lines are non-empty, as documented: when there is no blank
   line in the part of the text they are read from.
   */
  lemma LastLinesNonEmptyIff(s: seq<Byte>, n: nat)
    requires n > 0
    ensures AllNonEmpty(LastN(LinesOf(s), n)) <==> NoBlankLine(AfterNewlines(s, Skipped(|LinesOf(s)|, n)))
  {
    var k := Skipped(|LinesOf(s)|, n);
    if k > 0 {
      LinesAfterNewlines(s, k);
    }
    LinesNonEmptyIff(AfterNewlines(s, k));
  }

  /** A blank line between two others is returned as an empty line. */
  lemma BlankLineIsReturned(a: Byte, b: Byte)
    requires a != NEWLINE && b != NEWLINE
    ensures LinesOf([a, 10, 10, b]) == [[a], [], [b]]
  {
    var s := [a, NEWLINE, NEWLINE, b];
    assert s[1..] == [NEWLINE, NEWLINE, b] && s[1..][1..] == [NEWLINE, b];
    assert s[1..][1..][1..] == [b] && [b][1..] == [];
    assert [b] + [] == [b] && [a] + [] == [a];
    assert Split([b]) == [[b]];
    assert Split(s[1..][1..]) == [[], [b]];
    assert Split(s[1..]) == [[], [], [b]];
    assert Push(a, [[], [], [b]]) == [[a], [], [b]];
    assert Split(s) == [[a], [], [b]];
  }

  // -------------------------------------------------------------------- the buffer

  /** What Lines does; a negative count slices out of range and panics unless the buffer is empty. */
  datatype LinesResult = Lines(lines: seq<seq<Byte>>) | PanicsOutOfRange

  /** Split, drop the part behind a final newline, slice. */
  function TakeLines(content: seq<Byte>, n: int): LinesResult {
    if content == [] then Lines([])
    else
      var parts := DropEmptyLast(Split(content));
      if |parts| <= n then Lines(parts)
      else if n < 0 then PanicsOutOfRange
      else Lines(parts[|parts| - n..])
  }

  lemma TakenAreLast(content: seq<Byte>, n: nat)
    ensures TakeLines(content, n) == Lines(LastN(LinesOf(content), n))
  {
  }

  /** The lines taken from a window are the last lines of the whole text. */
  lemma TakenLines(cut: seq<Byte>, content: seq<Byte>, n: nat)
    ensures LastLines(LastN(LinesOf(content), n), LinesOf(cut + content))
  {
    WindowLines(cut, content);
    LastNKeeps(LinesOf(content), LinesOf(cut + content), n);
  }

  /** Index `i` counted from `start` around an array of length `cap`. */
  function Wrap(start: nat, i: nat, cap: nat): nat {
    if start + i < cap then start + i else start + i - cap
  }

  lemma MulMonotone(m: nat, a: int, b: int)
    requires a <= b
    ensures m * a <= m * b
  {
    assert m * b - m * a == m * (b - a);
  }

  lemma ModIsWrap(start: nat, i: nat, cap: nat)
    requires start < cap && i <= cap
    ensures (start + i) % cap == Wrap(start, i, cap)
  {
    var x := start + i;
    var q := x / cap;
    assert x == cap * q + x % cap;
    if q <= 0 { MulMonotone(cap, q, 0); }
    if q >= 2 { MulMonotone(cap, 2, q); }
    if q == 1 { assert cap * q == cap; }
  }

  /** The last bytes of `history` that fit into `cap`. */
  function Window(history: seq<Byte>, cap: nat): seq<Byte> {
    if |history| <= cap then history else history[|history| - cap..]
  }

  /** The last min(cap, |history|) bytes. */
  lemma WindowIsTheEnd(history: seq<Byte>, cap: nat)
    ensures |Window(history, cap)| == if cap < |history| then cap else |history|
    ensures history == history[..|history| - |Window(history, cap)|] + Window(history, cap)
  {
  }

  /** The circular content `c` holds the window of the history, oldest byte at `start`. */
  predicate Holds(c: seq<Byte>, start: nat, len: nat, history: seq<Byte>) {
    && start < |c|
    && len == |Window(history, |c|)|
    && forall i :: 0 <= i < len ==> c[Wrap(start, i, |c|)] == history[|history| - len + i]
  }

  lemma PutWithRoom(c: seq<Byte>, start: nat, len: nat, history: seq<Byte>, b: Byte)
    requires Holds(c, start, len, history) && len < |c|
    ensures Holds(c[Wrap(start, len, |c|) := b], start, len + 1, history + [b])
  {
    var c', h := c[Wrap(start, len, |c|) := b], history + [b];
    forall i | 0 <= i < len + 1 ensures c'[Wrap(start, i, |c|)] == h[|h| - (len + 1) + i] {
      if i < len {
        assert Wrap(start, i, |c|) != Wrap(start, len, |c|);
      }
    }
  }

  lemma PutWhenFull(c: seq<Byte>, start: nat, len: nat, history: seq<Byte>, b: Byte)
    requires Holds(c, start, len, history) && len == |c|
    ensures Holds(c[start := b], Wrap(start, 1, |c|), len, history + [b])
  {
    var c', h, next := c[start := b], history + [b], Wrap(start, 1, |c|);
    forall i | 0 <= i < len ensures c'[Wrap(next, i, |c|)] == h[|h| - len + i] {
      if i < len - 1 {
        assert Wrap(next, i, |c|) == Wrap(start, i + 1, |c|) != start;
        assert c[Wrap(start, i + 1, |c|)] == history[|history| - len + (i + 1)];
      } else {
        assert Wrap(next, i, |c|) == start;
      }
    }
  }

  lemma ReadAt(c: seq<Byte>, start: nat, len: nat, history: seq<Byte>, i: nat)
    requires Holds(c, start, len, history) && i < len
    ensures c[(start + i) % |c|] == Window(history, |c|)[i]
  {
    ModIsWrap(start, i, |c|);
    assert c[Wrap(start, i, |c|)] == history[|history| - len + i];
  }

  class Ring {
    var buf: array<Byte>
    var start: nat
    var len: nat
    ghost var history: seq<Byte>   // everything ever written

    ghost predicate Valid()
      reads this, buf
    {
      Holds(buf[..], start, len, history)
    }

    constructor (capacity: int)
      ensures Valid() && fresh(buf) && history == []
      ensures buf.Length == if capacity <= 0 then 65536 else capacity
    {
      var n := if capacity <= 0 then DEFAULT_CAPACITY else capacity;
      buf := new Byte[n](_ => 0);
      start, len, history := 0, 0, [];
    }

    method Append(b: Byte)
      requires Valid() && len < buf.Length
      modifies this`len, this`history, buf
      ensures Valid() && history == old(history) + [b]
    {
      ghost var c := buf[..];
      ModIsWrap(start, len, buf.Length);
      PutWithRoom(c, start, len, history, b);
      var k := (start + len) % buf.Length;
      buf[k] := b;
      assert buf[..] == c[k := b];
      len := len + 1;
      history := history + [b];
    }

    method Overwrite(b: Byte)
      requires Valid() && len == buf.Length
      modifies this`start, this`history, buf
      ensures Valid() && history == old(history) + [b]
    {
      ghost var c := buf[..];
      ModIsWrap(start, 1, buf.Length);
      PutWhenFull(c, start, len, history, b);
      var k, next := start, (start + 1) % buf.Length;
      assert Holds(c[k := b], next, len, history + [b]);
      buf[k] := b;
      start := next;
      history := history + [b];
      assert buf[..] == c[k := b];
    }

    method Put(b: Byte)
      requires Valid()
      modifies this`start, this`len, this`history, buf
      ensures Valid() && history == old(history) + [b]
    {
      if len < buf.Length {
        Append(b);
      } else {
        Overwrite(b);
      }
    }

    /** Appends byte by byte, evicting the oldest when full; always accepts everything. */
    method Write(p: seq<Byte>) returns (n: nat)
      requires Valid()
      modifies this`start, this`len, this`history, buf
      ensures Valid() && history == old(history) + p && n == |p|
    {
      for i := 0 to |p|
        invariant Valid() && history == old(history) + p[..i]
      {
        Put(p[i]);
        assert p[..i + 1] == p[..i] + [p[i]];
      }
      assert p[..|p|] == p;
      n := |p|;
    }

    /** A copy of the content, oldest byte first: the last min(capacity, written) bytes of the history. */
    method Bytes() returns (out: seq<Byte>)
      requires Valid()
      ensures out == Window(history, buf.Length)
      ensures |out| == if buf.Length < |history| then buf.Length else |history|
    {
      ghost var window := Window(history, buf.Length);
      var copy := new Byte[len](_ => 0);
      for i := 0 to len
        invariant copy[..i] == window[..i]
      {
        ReadAt(buf[..], start, len, history, i);
        copy[i] := buf[(start + i) % buf.Length];
        assert window[..i + 1] == window[..i] + [window[i]];
      }
      out := copy[..];
      assert copy[..len] == copy[..] && window[..len] == window;
    }

    /**
     The last `n` lines of the content. They are the last lines of the whole history,
     whole except that the oldest in the window may have lost its front.
     */
    method LastLinesOf(n: int) returns (r: LinesResult)
      requires Valid()
      ensures n < 0 && history != [] ==> r == PanicsOutOfRange
      ensures n < 0 && history == [] ==> r == Lines([])
      ensures n >= 0 ==>
                && r == Lines(LastN(LinesOf(Window(history, buf.Length)), n))
                && |r.lines| <= n
                && LastLines(r.lines, LinesOf(history))
      ensures n > 0 ==>
                var w := Window(history, buf.Length);
                AllNonEmpty(r.lines) <==> NoBlankLine(AfterNewlines(w, Skipped(|LinesOf(w)|, n)))
    {
      var content := Bytes();
      ghost var cut := history[..|history| - |content|];
      assert history == cut + content;
      if n >= 0 {
        TakenAreLast(content, n);
        TakenLines(cut, content, n);
        if n > 0 { LastLinesNonEmptyIff(content, n); }
      }
      r := TakeLines(content, n);
    }
  }
}
