/**
 * An insertion-ordered set, as JavaScript's `Set` behaves: `add` appends an
 * element that is not yet present and leaves the set unchanged otherwise, and
 * iteration visits the elements in the order they were first added.
 * The set is modelled as a sequence without duplicates.
 */
module OrderedSets {

  /** No element occurs twice. */
  ghost predicate Distinct<T>(s: seq<T>)
  {
    forall i, j :: 0 <= i < j < |s| ==> s[i] != s[j]
  }

  /** `set.add(x)`: existing elements keep their positions, and `x` is present afterwards. */
  function Add<T(==,!new)>(s: seq<T>, x: T): (r: seq<T>)
    ensures s <= r && |r| <= |s| + 1
    ensures forall y :: y in r <==> y in s || y == x
    ensures Distinct(s) ==> Distinct(r)
  {
    if x in s then s else s + [x]
  }

  /** The set obtained by adding the elements of `s` one by one, in order, to an empty set. */
  function Dedup<T(==,!new)>(s: seq<T>): (r: seq<T>)
    ensures Distinct(r)
    ensures |r| <= |s|
    decreases |s|
  {
    if s == [] then [] else Add(Dedup(s[..|s| - 1]), s[|s| - 1])
  }

  /** The set holds exactly the elements of the input. */
  lemma {:induction false} DedupMembers<T(!new)>(s: seq<T>)
    ensures forall y :: y in Dedup(s) <==> y in s
    decreases |s|
  {
    if s != [] {
      var p := s[..|s| - 1];
      assert s == p + [s[|s| - 1]];
      DedupMembers(p);
    }
  }

  /** Index of the first occurrence of `x` in `s`. */
  function FirstIndex<T(==,!new)>(s: seq<T>, x: T): (i: nat)
    requires x in s
    ensures i < |s| && s[i] == x
    ensures forall k :: 0 <= k < i ==> s[k] != x
  {
    if s[0] == x then 0 else 1 + FirstIndex(s[1..], x)
  }

  /** Adding one more element to the input is one more `add` on the set. */
  lemma DedupSnoc<T(!new)>(s: seq<T>, x: T)
    ensures Dedup(s + [x]) == Add(Dedup(s), x)
  {
    assert (s + [x])[..|s|] == s;
  }

  /**
   * `xs.forEach(x => set.add(x))` on the set built from `added`: the result
   * is the set built from `added` followed by `xs`.
   */
  method AddEach<T(==,!new)>(s: seq<T>, ghost added: seq<T>, xs: seq<T>) returns (r: seq<T>)
    requires s == Dedup(added)
    ensures r == Dedup(added + xs)
  {
    r := s;
    var k := 0;
    assert added + xs[..0] == added;
    while k < |xs|
      invariant 0 <= k <= |xs|
      invariant r == Dedup(added + xs[..k])
    {
      assert added + xs[..k + 1] == (added + xs[..k]) + [xs[k]];
      DedupSnoc(added + xs[..k], xs[k]);
      r := Add(r, xs[k]);
      k := k + 1;
    }
    assert xs[..k] == xs;
  }

  /** A sequence that already has no duplicates is its own set, in the same order. */
  lemma {:induction false} DedupOfDistinct<T(!new)>(s: seq<T>)
    requires Distinct(s)
    ensures Dedup(s) == s
  {
    if s != [] {
      var p := s[..|s| - 1];
      assert s == p + [s[|s| - 1]];
      DedupOfDistinct(p);
      DedupMembers(p);
      assert s[|s| - 1] !in p by {
        forall k | 0 <= k < |p| ensures p[k] != s[|s| - 1] {
          assert p[k] == s[k];
        }
      }
    }
  }

  /**
   * Adding the elements of `a` and then those of `b`: the set built from `a`
   * stays a prefix, and what follows it comes from `b` and was not in `a`.
   */
  lemma {:induction false} DedupPrefix<T(!new)>(a: seq<T>, b: seq<T>)
    ensures Dedup(a) <= Dedup(a + b)
    ensures forall k :: |Dedup(a)| <= k < |Dedup(a + b)| ==> Dedup(a + b)[k] in b && Dedup(a + b)[k] !in a
    decreases |b|
  {
    if b == [] {
      assert a + b == a;
    } else {
      var p := b[..|b| - 1];
      var z := b[|b| - 1];
      assert a + b == (a + p) + [z];
      assert b == p + [z];
      DedupPrefix(a, p);
      DedupSnoc(a + p, z);
      DedupMembers(a);
      DedupMembers(a + p);
      var d := Dedup(a + b);
      var q := Dedup(a + p);
      forall k | |Dedup(a)| <= k < |d|
        ensures d[k] in b && d[k] !in a
      {
        if k < |q| {
          assert d[k] == q[k];
        } else {
          assert d[k] == z;
          assert z !in q;
        }
      }
    }
  }

  /** The first occurrence of an element is unaffected by appending after it. */
  lemma FirstIndexSnoc<T(!new)>(s: seq<T>, z: T, x: T)
    requires x in s
    ensures FirstIndex(s + [z], x) == FirstIndex(s, x)
  {
    var a := FirstIndex(s + [z], x);
    var b := FirstIndex(s, x);
    assert (s + [z])[b] == x;
    if a < |s| {
      assert s[a] == x;
    }
  }

  /** An element new to `s` is first seen at the appended position. */
  lemma FirstIndexNew<T(!new)>(s: seq<T>, z: T)
    requires z !in s
    ensures FirstIndex(s + [z], z) == |s|
  {
    assert (s + [z])[|s|] == z;
  }

  /**
   * The set lists its elements in the order of their first occurrence in the
   * input: an element that comes earlier in the set was seen earlier.
   */
  lemma {:induction false} DedupFirstSeenOrder<T(!new)>(s: seq<T>, i: nat, j: nat)
    requires i < j < |Dedup(s)|
    ensures Dedup(s)[i] in s && Dedup(s)[j] in s
    ensures FirstIndex(s, Dedup(s)[i]) < FirstIndex(s, Dedup(s)[j])
    decreases |s|
  {
    var p := s[..|s| - 1];
    var z := s[|s| - 1];
    assert s == p + [z];
    var q := Dedup(p);
    var d := Dedup(s);
    DedupMembers(p);
    assert d[i] in q;
    FirstIndexSnoc(p, z, d[i]);
    if j < |q| {
      assert d[j] in q;
      FirstIndexSnoc(p, z, d[j]);
      DedupFirstSeenOrder(p, i, j);
    } else {
      assert d[j] == z && z !in p;
      FirstIndexNew(p, z);
    }
  }
}
