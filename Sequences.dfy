/** Concatenating a sequence of sequences, in order. */
module Sequences {

  /** `ss[0] + ss[1] + ... + ss[|ss| - 1]`. */
  function Concat<T>(ss: seq<seq<T>>): seq<T>
    decreases |ss|
  {
    if ss == [] then [] else Concat(ss[..|ss| - 1]) + ss[|ss| - 1]
  }

  /** One more part is appended at the end. */
  lemma ConcatSnoc<T>(ss: seq<seq<T>>, x: seq<T>)
    ensures Concat(ss + [x]) == Concat(ss) + x
  {
    assert (ss + [x])[..|ss|] == ss;
  }

  /** Concatenation distributes over appending the outer sequences. */
  lemma {:induction false} ConcatAppend<T>(a: seq<seq<T>>, b: seq<seq<T>>)
    ensures Concat(a + b) == Concat(a) + Concat(b)
    decreases |b|
  {
    if b == [] {
      assert a + b == a;
    } else {
      var n := |b| - 1;
      var ab := a + b;
      assert ab[..|ab| - 1] == a + b[..n];
      assert ab[|ab| - 1] == b[n];
      ConcatAppend(a, b[..n]);
    }
  }

  /** An element is in the concatenation exactly when it is in one of the parts. */
  lemma {:induction false} ConcatMembers<T>(ss: seq<seq<T>>, x: T)
    ensures x in Concat(ss) <==> exists k :: 0 <= k < |ss| && x in ss[k]
    decreases |ss|
  {
    if ss != [] {
      var n := |ss| - 1;
      var p := ss[..n];
      ConcatMembers(p, x);
      if exists k :: 0 <= k < |ss| && x in ss[k] {
        var k :| 0 <= k < |ss| && x in ss[k];
        if k < n {
          assert p[k] == ss[k];
        }
      }
      if x in Concat(p) {
        var k :| 0 <= k < |p| && x in p[k];
        assert ss[k] == p[k];
      }
    }
  }
}
