/** Values that several parts of the model share. */
module Common {

  datatype Option<T> = None | Some(value: T)

  type Byte = b: int | 0 <= b < 256

  lemma Assoc<T>(a: seq<T>, b: seq<T>, c: seq<T>)
    ensures a + b + c == a + (b + c)
  {
  }

  /** Concatenation of four, bracketed in the ways the proofs need. */
  lemma Regroup<T>(a: seq<T>, b: seq<T>, c: seq<T>, d: seq<T>)
    ensures a + b + c + d == a + b + (c + d) == a + (b + c) + d
  {
  }

  lemma {:induction false} SubsetSize(a: set<nat>, b: set<nat>)
    requires a <= b
    ensures |a| <= |b|
    decreases |a|
  {
    if a != {} {
      var x :| x in a;
      SubsetSize(a - {x}, b - {x});
    }
  }

  /** The state a machine reaches by a run of labels, or None when one of them was not enabled. */
  function Run<S, L>(next: (S, L) -> Option<S>, s: S, run: seq<L>): Option<S>
    decreases |run|
  {
    if run == [] then Some(s)
    else
      match next(s, run[0])
      case None => None
      case Some(t) => Run(next, t, run[1..])
  }

  lemma RunCons<S, L>(next: (S, L) -> Option<S>, s: S, l: L, run: seq<L>)
    requires next(s, l).Some?
    ensures Run(next, s, [l] + run) == Run(next, next(s, l).value, run)
  {
    assert ([l] + run)[1..] == run;
  }

  lemma {:induction false} RunAppend<S, L>(next: (S, L) -> Option<S>, s: S, a: seq<L>, t: S, b: seq<L>)
    requires Run(next, s, a) == Some(t)
    ensures Run(next, s, a + b) == Run(next, t, b)
    decreases |a|
  {
    if a == [] {
      assert a + b == b;
    } else {
      RunAppend(next, next(s, a[0]).value, a[1..], t, b);
      assert (a + b)[1..] == a[1..] + b;
    }
  }

  lemma RunSnoc<S, L>(next: (S, L) -> Option<S>, s: S, run: seq<L>, t: S, l: L)
    requires Run(next, s, run) == Some(t)
    ensures Run(next, s, run + [l]) == next(t, l)
  {
    RunAppend(next, s, run, t, [l]);
    assert [l][1..] == [];
  }
}
