/** List helpers shared by the pages: `array.filter` and its laws. */
module Lists {
  /** The elements satisfying `p`, in their order (`array.filter`). */
  function Keep<T(!new)>(xs: seq<T>, p: T -> bool): (r: seq<T>)
    ensures |r| <= |xs|
    ensures forall x :: x in r <==> x in xs && p(x)
    decreases |xs|
  {
    if xs == [] then []
    else (if p(xs[0]) then [xs[0]] else []) + Keep(xs[1..], p)
  }

  /** Filtering a concatenation filters each part: what survives keeps its order. */
  lemma {:induction false} KeepAppend<T(!new)>(a: seq<T>, b: seq<T>, p: T -> bool)
    ensures Keep(a + b, p) == Keep(a, p) + Keep(b, p)
    decreases |a|
  {
    if a == [] {
      assert a + b == b;
    } else {
      assert (a + b)[1..] == a[1..] + b;
      KeepAppend(a[1..], b, p);
    }
  }

  /** A filter that every element passes changes nothing. */
  lemma {:induction false} KeepAll<T(!new)>(xs: seq<T>, p: T -> bool)
    requires forall i :: 0 <= i < |xs| ==> p(xs[i])
    ensures Keep(xs, p) == xs
    decreases |xs|
  {
    if xs != [] {
      KeepAll(xs[1..], p);
    }
  }

  /** `sub` is `xs` with some elements left out, the rest in their order. */
  predicate IsSubsequence<T(==)>(sub: seq<T>, xs: seq<T>)
    decreases |xs|
  {
    if sub == [] then true
    else if xs == [] then false
    else if sub[0] == xs[0] then IsSubsequence(sub[1..], xs[1..])
    else IsSubsequence(sub, xs[1..])
  }

  /** A filter keeps the surviving elements in their original order. */
  lemma {:induction false} KeepSubsequence<T(!new)>(xs: seq<T>, p: T -> bool)
    ensures IsSubsequence(Keep(xs, p), xs)
    decreases |xs|
  {
    if xs != [] {
      KeepSubsequence(xs[1..], p);
      var r := Keep(xs, p);
      if p(xs[0]) {
        assert r == [xs[0]] + Keep(xs[1..], p);
        assert r[1..] == Keep(xs[1..], p);
      } else {
        assert r == Keep(xs[1..], p);
        if r != [] {
          assert r[0] in r;
          assert r[0] != xs[0];
        }
      }
    }
  }
}
