/** `Array.prototype.filter` and the subsequence relation it establishes. */
module Lists {

  /** `a` is `b` with some elements dropped, order kept. */
  predicate IsSubseq<T(==)>(a: seq<T>, b: seq<T>)
    decreases |b|
  {
    a == [] || (b != [] && ((a[0] == b[0] && IsSubseq(a[1..], b[1..])) || IsSubseq(a, b[1..])))
  }

  /**
   * `s.filter(p)`: the elements satisfying `p`, in order, each as many times
   * as it occurs in `s`.
   */
  function Filter<T(==, !new)>(s: seq<T>, p: T -> bool): (r: seq<T>)
    ensures |r| <= |s|
    ensures IsSubseq(r, s)
    ensures forall x :: x in r ==> x in s && p(x)
    ensures forall x :: x in s && p(x) ==> x in r
    ensures forall x :: multiset(r)[x] == if p(x) then multiset(s)[x] else 0
    decreases |s|
  {
    if s == [] then []
    else
      assert s == [s[0]] + s[1..];
      if p(s[0]) then [s[0]] + Filter(s[1..], p) else Filter(s[1..], p)
  }

  /** A filter that every element passes returns its input. */
  lemma {:induction false} FilterKeepsAll<T(!new)>(s: seq<T>, p: T -> bool)
    requires forall i :: 0 <= i < |s| ==> p(s[i])
    ensures Filter(s, p) == s
    decreases |s|
  {
    if s != [] {
      FilterKeepsAll(s[1..], p);
    }
  }

  /** Two filters commute. */
  lemma {:induction false} FilterCommutes<T(!new)>(s: seq<T>, p: T -> bool, q: T -> bool)
    ensures Filter(Filter(s, p), q) == Filter(Filter(s, q), p)
    decreases |s|
  {
    if s != [] {
      FilterCommutes(s[1..], p, q);
    }
  }

  /** Filtering preserves the subsequence relation. */
  lemma {:induction false} FilterMonotone<T(!new)>(a: seq<T>, b: seq<T>, p: T -> bool)
    requires IsSubseq(a, b)
    ensures IsSubseq(Filter(a, p), Filter(b, p))
    decreases |b|
  {
    if a == [] {
    } else if a[0] == b[0] && IsSubseq(a[1..], b[1..]) {
      FilterMonotone(a[1..], b[1..], p);
      if p(a[0]) {
        var fa := Filter(a, p);
        assert fa == [a[0]] + Filter(a[1..], p);
        assert fa[1..] == Filter(a[1..], p);
      } else {
        SubseqOfTail(Filter(a, p), Filter(b[1..], p), b[0]);
      }
    } else {
      FilterMonotone(a, b[1..], p);
      if p(b[0]) {
        SubseqOfTail(Filter(a, p), Filter(b[1..], p), b[0]);
      }
    }
  }

  /** Adding an element in front of `b` keeps `a` a subsequence of it. */
  lemma SubseqOfTail<T>(a: seq<T>, b: seq<T>, x: T)
    requires IsSubseq(a, b)
    ensures IsSubseq(a, [x] + b)
  {
    assert ([x] + b)[1..] == b;
  }

  /** Every sequence is a subsequence of itself. */
  lemma {:induction false} SubseqRefl<T>(s: seq<T>)
    ensures IsSubseq(s, s)
  {
    if s != [] {
      SubseqRefl(s[1..]);
    }
  }
}
