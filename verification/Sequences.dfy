/** Sequences, and runs of a machine whose steps may be disabled. */
module Sequences {
  import opened Bytes

  lemma Regroup<T>(a: seq<T>, b: seq<T>, c: seq<T>)
    ensures a + (b + c) == (a + b) + c
  {
  }

  /** The state after `steps`, if each of them is enabled in its turn. */
  function Play<S, T>(next: (S, T) -> Option<S>, s: S, steps: seq<T>): Option<S>
    decreases |steps|
  {
    if steps == [] then Some(s)
    else
      match next(s, steps[0])
      case None => None
      case Some(s') => Play(next, s', steps[1..])
  }

  lemma {:induction false} PlayMore<S, T>(next: (S, T) -> Option<S>, s: S, first: seq<T>, after: seq<T>)
    requires Play(next, s, first).Some?
    ensures Play(next, s, first + after) == Play(next, Play(next, s, first).value, after)
    decreases |first|
  {
    if first == [] {
      assert first + after == after;
    } else {
      assert (first + after)[1..] == first[1..] + after;
      PlayMore(next, next(s, first[0]).value, first[1..], after);
    }
  }

  lemma PlayNone<S, T>(next: (S, T) -> Option<S>, s: S)
    ensures Play(next, s, []) == Some(s)
  {
  }

  lemma PlayOne<S, T>(next: (S, T) -> Option<S>, s: S, step: T)
    requires next(s, step).Some?
    ensures Play(next, s, [step]) == next(s, step)
  {
    assert [step][1..] == [];
  }

  lemma PlayFirst<S, T>(next: (S, T) -> Option<S>, s: S, step: T, after: seq<T>)
    requires next(s, step).Some?
    ensures Play(next, s, [step] + after) == Play(next, next(s, step).value, after)
  {
    assert ([step] + after)[1..] == after;
  }

  /** The states passed on the way. */
  lemma {:induction false} PlayPath<S, T>(next: (S, T) -> Option<S>, s: S, steps: seq<T>) returns (path: seq<S>)
    requires Play(next, s, steps).Some?
    ensures |path| == |steps| + 1 && path[0] == s && path[|steps|] == Play(next, s, steps).value
    ensures forall k :: 0 <= k < |steps| ==> next(path[k], steps[k]) == Some(path[k + 1])
    decreases |steps|
  {
    if steps == [] {
      path := [s];
    } else {
      var rest := PlayPath(next, next(s, steps[0]).value, steps[1..]);
      path := [s] + rest;
      forall k | 0 <= k < |steps| ensures next(path[k], steps[k]) == Some(path[k + 1]) {
        if k > 0 { assert steps[k] == steps[1..][k - 1]; }
      }
    }
  }
}
