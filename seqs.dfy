/**
  Sequence helpers shared by the reflection builder: the functions describe what
  a "for each element, push its descriptor" loop produces, and the methods are
  those loops.
 */
module Seqs {
  import opened Wrappers

  /** `f` applied to every element of `s`, in order. */
  function Map<A, B>(f: A -> B, s: seq<A>): (r: seq<B>)
    ensures |r| == |s|
    ensures forall k :: 0 <= k < |s| ==> r[k] == f(s[k])
  {
    seq(|s|, k requires 0 <= k < |s| => f(s[k]))
  }

  /**
    Each element contributes a (possibly empty) run of entries to two lists; the
    first element whose contribution fails stops the whole walk with its error.
   */
  function SplitConcat<A, B, C, E>(f: A -> Result<(seq<B>, seq<C>), E>, s: seq<A>): Result<(seq<B>, seq<C>), E>
  {
    if s == [] then Success(([], []))
    else
      var head :- f(s[0]);
      var tail :- SplitConcat(f, s[1..]);
      Success((head.0 + tail.0, head.1 + tail.1))
  }

  /** Puts `a` and `b` in front of the two lists of a successful result. */
  function Prepend<B, C, E>(a: seq<B>, b: seq<C>, r: Result<(seq<B>, seq<C>), E>): Result<(seq<B>, seq<C>), E>
  {
    if r.Failure? then Failure(r.error) else Success((a + r.value.0, b + r.value.1))
  }

  /** A walk succeeds exactly when every element's contribution succeeds. */
  lemma {:induction false} SplitConcatSucceeds<A, B, C, E>(f: A -> Result<(seq<B>, seq<C>), E>, s: seq<A>)
    ensures SplitConcat(f, s).Success? <==> forall k :: 0 <= k < |s| ==> f(s[k]).Success?
  {
    if s != [] {
      SplitConcatSucceeds(f, s[1..]);
      assert forall k :: 1 <= k < |s| ==> s[1..][k - 1] == s[k];
    }
  }

  /** Pushes `f(x)` for every `x` of `s` onto `acc`. */
  method AppendEach<A, B>(acc: seq<B>, s: seq<A>, f: A -> B) returns (r: seq<B>)
    ensures r == acc + Map(f, s)
  {
    r := acc;
    var i := 0;
    while i < |s|
      invariant 0 <= i <= |s|
      invariant r + Map(f, s[i..]) == acc + Map(f, s)
    {
      assert Map(f, s[i..]) == [f(s[i])] + Map(f, s[i + 1..]);
      r := r + [f(s[i])];
      i := i + 1;
    }
    assert s[|s|..] == [];
  }

  /**
    Pushes the two runs of every element onto `acc1` and `acc2`, returning at the
    first element whose contribution fails.
   */
  method AppendSplit<A, B, C, E>(acc1: seq<B>, acc2: seq<C>, s: seq<A>, f: A -> Result<(seq<B>, seq<C>), E>)
    returns (r: Result<(seq<B>, seq<C>), E>)
    ensures r == Prepend(acc1, acc2, SplitConcat(f, s))
  {
    var out1, out2 := acc1, acc2;
    var i := 0;
    while i < |s|
      invariant 0 <= i <= |s|
      invariant Prepend(out1, out2, SplitConcat(f, s[i..])) == Prepend(acc1, acc2, SplitConcat(f, s))
    {
      assert s[i..][0] == s[i] && s[i..][1..] == s[i + 1..];
      var step := f(s[i]);
      if step.Failure? {
        assert SplitConcat(f, s[i..]) == Failure(step.error);
        return Failure(step.error);
      }
      var tail := SplitConcat(f, s[i + 1..]);
      if tail.Success? {
        assert out1 + (step.value.0 + tail.value.0) == (out1 + step.value.0) + tail.value.0;
        assert out2 + (step.value.1 + tail.value.1) == (out2 + step.value.1) + tail.value.1;
      }
      out1, out2 := out1 + step.value.0, out2 + step.value.1;
      i := i + 1;
    }
    assert s[|s|..] == [];
    assert out1 + [] == out1 && out2 + [] == out2;
    r := Success((out1, out2));
  }
}
