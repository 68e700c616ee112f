/**
  The JavaScript array operations the dashboard composes (`filter`, `map`,
  `reduce` with `+`, `Math.max(...)`), over exact values, with the facts the
  rest of the model relies on: what a filter keeps, that it keeps order, and
  that sums and maxima do not depend on the order of their input.
 */
module Seqs {

  /** `s` can be obtained from `t` by deleting elements (order is kept). */
  ghost predicate IsSubsequence<T>(s: seq<T>, t: seq<T>)
    decreases |t|
  {
    if s == [] then true
    else if t == [] then false
    else if s[0] == t[0] then IsSubsequence(s[1..], t[1..])
    else IsSubsequence(s, t[1..])
  }

  /** `Array.prototype.filter`: the elements satisfying `p`, in their original order. */
  function Filter<T(!new)>(p: T -> bool, s: seq<T>): (r: seq<T>)
    ensures |r| <= |s|
    ensures forall i :: 0 <= i < |r| ==> p(r[i])
  {
    if s == [] then []
    else if p(s[0]) then [s[0]] + Filter(p, s[1..])
    else Filter(p, s[1..])
  }

  /**
    What a filter keeps: every element satisfying `p` as often as `s` holds
    it, nothing else, and in the order of `s`.
   */
  lemma {:induction false} FilterKeepsExactly<T(!new)>(p: T -> bool, s: seq<T>)
    ensures forall x :: multiset(Filter(p, s))[x] == if p(x) then multiset(s)[x] else 0
    ensures IsSubsequence(Filter(p, s), s)
  {
    if s != [] {
      FilterKeepsExactly(p, s[1..]);
      assert s == [s[0]] + s[1..];
      var r := Filter(p, s);
      if !p(s[0]) && r != [] {
        assert p(r[0]);
      }
    }
  }

  /** An element is kept exactly when it is in `s` and satisfies `p`. */
  lemma FilterMembers<T(!new)>(p: T -> bool, s: seq<T>)
    ensures forall x :: x in Filter(p, s) <==> x in s && p(x)
  {
    FilterKeepsExactly(p, s);
    forall x
      ensures x in Filter(p, s) <==> x in s && p(x)
    {
      assert x in Filter(p, s) <==> multiset(Filter(p, s))[x] > 0;
      assert x in s <==> multiset(s)[x] > 0;
    }
  }

  /** Filtering a permutation gives a permutation of the filtered sequence. */
  lemma FilterPermutation<T(!new)>(p: T -> bool, s: seq<T>, t: seq<T>)
    requires multiset(s) == multiset(t)
    ensures multiset(Filter(p, s)) == multiset(Filter(p, t))
  {
    FilterKeepsExactly(p, s);
    FilterKeepsExactly(p, t);
    assert forall x :: multiset(Filter(p, s))[x] == multiset(Filter(p, t))[x];
  }

  lemma {:induction false} FilterConcat<T(!new)>(p: T -> bool, a: seq<T>, b: seq<T>)
    ensures Filter(p, a + b) == Filter(p, a) + Filter(p, b)
  {
    if a == [] {
      assert a + b == b;
    } else {
      assert (a + b)[0] == a[0];
      assert (a + b)[1..] == a[1..] + b;
      FilterConcat(p, a[1..], b);
    }
  }

  /** Filtering twice with the same predicate keeps what filtering once kept. */
  lemma {:induction false} FilterIdempotent<T(!new)>(p: T -> bool, s: seq<T>)
    ensures Filter(p, Filter(p, s)) == Filter(p, s)
  {
    if s != [] {
      FilterIdempotent(p, s[1..]);
      if p(s[0]) {
        var r := Filter(p, s[1..]);
        assert ([s[0]] + r)[0] == s[0];
        assert ([s[0]] + r)[1..] == r;
      }
    }
  }

  /** Two predicates that agree on the elements of `s` keep the same elements of it. */
  lemma {:induction false} FilterAgree<T(!new)>(p: T -> bool, q: T -> bool, s: seq<T>)
    requires forall i :: 0 <= i < |s| ==> p(s[i]) == q(s[i])
    ensures Filter(p, s) == Filter(q, s)
  {
    if s != [] {
      FilterAgree(p, q, s[1..]);
    }
  }

  /** A filter whose predicate rejects every element yields nothing. */
  lemma {:induction false} FilterNone<T(!new)>(p: T -> bool, s: seq<T>)
    requires forall i :: 0 <= i < |s| ==> !p(s[i])
    ensures Filter(p, s) == []
  {
    if s != [] {
      FilterNone(p, s[1..]);
    }
  }

  /** A filter whose predicate accepts every element is the identity. */
  lemma {:induction false} FilterAll<T(!new)>(p: T -> bool, s: seq<T>)
    requires forall i :: 0 <= i < |s| ==> p(s[i])
    ensures Filter(p, s) == s
  {
    if s != [] {
      FilterAll(p, s[1..]);
    }
  }

  /** `Array.prototype.map`. */
  function Map<T, U>(f: T -> U, s: seq<T>): (r: seq<U>)
    ensures |r| == |s|
    ensures forall i :: 0 <= i < |s| ==> r[i] == f(s[i])
  {
    if s == [] then [] else [f(s[0])] + Map(f, s[1..])
  }

  lemma {:induction false} MapConcat<T, U>(f: T -> U, a: seq<T>, b: seq<T>)
    ensures Map(f, a + b) == Map(f, a) + Map(f, b)
  {
    if a == [] {
      assert a + b == b;
    } else {
      assert (a + b)[1..] == a[1..] + b;
      MapConcat(f, a[1..], b);
    }
  }

  /** Filtering the images of `f` is mapping `f` over the elements whose image passes. */
  lemma {:induction false} FilterMap<T(!new), U(!new)>(q: U -> bool, f: T -> U, p: T -> bool, s: seq<T>)
    requires forall i :: 0 <= i < |s| ==> q(f(s[i])) == p(s[i])
    ensures Filter(q, Map(f, s)) == Map(f, Filter(p, s))
  {
    if s != [] {
      assert Map(f, s)[1..] == Map(f, s[1..]);
      FilterMap(q, f, p, s[1..]);
    }
  }

  /** `reduce((acc, x) => acc + f(x), 0)`, over exact reals. */
  function SumOf<T>(f: T -> real, s: seq<T>): real
  {
    if s == [] then 0.0 else f(s[0]) + SumOf(f, s[1..])
  }

  function Identity(x: real): real
  {
    x
  }

  /** `reduce((sum, x) => sum + x, 0)`. */
  function Sum(s: seq<real>): real
  {
    SumOf(Identity, s)
  }

  /** `f` where `p` holds, zero elsewhere. */
  function Masked<T>(p: T -> bool, f: T -> real): T -> real
  {
    x => if p(x) then f(x) else 0.0
  }

  /** Summing mapped values is summing the map's function over the original elements. */
  lemma {:induction false} SumMap<T>(f: T -> real, s: seq<T>)
    ensures Sum(Map(f, s)) == SumOf(f, s)
  {
    if s != [] {
      SumMap(f, s[1..]);
      assert Map(f, s)[1..] == Map(f, s[1..]);
    }
  }

  /** A sum does not depend on the order of its terms. */
  lemma SumPermutation(s: seq<real>, t: seq<real>)
    requires multiset(s) == multiset(t)
    ensures Sum(s) == Sum(t)
  {
    SumOfPermutation(Identity, s, t);
  }

  lemma {:induction false} SumOfConcat<T>(f: T -> real, a: seq<T>, b: seq<T>)
    ensures SumOf(f, a + b) == SumOf(f, a) + SumOf(f, b)
  {
    if a == [] {
      assert a + b == b;
    } else {
      assert (a + b)[1..] == a[1..] + b;
      SumOfConcat(f, a[1..], b);
    }
  }

  /** A sum of non-negative terms is non-negative, and it is zero exactly when every term is. */
  lemma {:induction false} SumOfNonNegative<T>(f: T -> real, s: seq<T>)
    requires forall i :: 0 <= i < |s| ==> f(s[i]) >= 0.0
    ensures SumOf(f, s) >= 0.0
    ensures SumOf(f, s) == 0.0 <==> forall i :: 0 <= i < |s| ==> f(s[i]) == 0.0
  {
    if s != [] {
      SumOfNonNegative(f, s[1..]);
      assert forall i :: 1 <= i < |s| ==> f(s[i]) == f(s[1..][i - 1]);
    }
  }

  /** Summing only the kept elements is summing every element with the rejected ones counted as zero. */
  lemma {:induction false} SumOfFilter<T(!new)>(p: T -> bool, f: T -> real, s: seq<T>)
    ensures SumOf(f, Filter(p, s)) == SumOf(Masked(p, f), s)
  {
    if s != [] {
      SumOfFilter(p, f, s[1..]);
      if p(s[0]) {
        var r := Filter(p, s[1..]);
        assert ([s[0]] + r)[1..] == r;
      }
    }
  }

  /** Finds the element `t` has in place of `s`'s first, for the permutation proofs below. */
  lemma MatchFirst<T>(s: seq<T>, t: seq<T>) returns (i: nat)
    requires s != [] && multiset(s) == multiset(t)
    ensures i < |t| && t[i] == s[0]
    ensures t == t[..i] + [s[0]] + t[i + 1..]
    ensures multiset(s[1..]) == multiset(t[..i] + t[i + 1..])
  {
    assert s == [s[0]] + s[1..];
    assert s[0] in multiset(t);
    i :| 0 <= i < |t| && t[i] == s[0];
    assert t == t[..i] + [s[0]] + t[i + 1..];
    assert multiset(t) == multiset(t[..i]) + multiset{s[0]} + multiset(t[i + 1..]);
    assert multiset(s) == multiset{s[0]} + multiset(s[1..]);
    assert multiset(t[..i] + t[i + 1..]) == multiset(t[..i]) + multiset(t[i + 1..]);
    assert multiset(s[1..]) == multiset(s) - multiset{s[0]};
    assert multiset(t[..i] + t[i + 1..]) == multiset(t) - multiset{s[0]};
  }

  /** Mapping a permutation gives a permutation of the mapped sequence. */
  lemma {:induction false} MapPermutation<T, U>(f: T -> U, s: seq<T>, t: seq<T>)
    requires multiset(s) == multiset(t)
    ensures multiset(Map(f, s)) == multiset(Map(f, t))
  {
    if s == [] {
      assert |t| == |multiset(t)| == 0;
    } else {
      var i := MatchFirst(s, t);
      var rest := t[..i] + t[i + 1..];
      MapPermutation(f, s[1..], rest);
      MapConcat(f, t[..i] + [s[0]], t[i + 1..]);
      MapConcat(f, t[..i], [s[0]]);
      MapConcat(f, t[..i], t[i + 1..]);
      assert Map(f, s) == [f(s[0])] + Map(f, s[1..]);
    }
  }

  /** A sum does not depend on the order of its terms. */
  lemma {:induction false} SumOfPermutation<T>(f: T -> real, s: seq<T>, t: seq<T>)
    requires multiset(s) == multiset(t)
    ensures SumOf(f, s) == SumOf(f, t)
  {
    if s == [] {
      assert |t| == |multiset(t)| == 0;
    } else {
      var i := MatchFirst(s, t);
      var rest := t[..i] + t[i + 1..];
      SumOfPermutation(f, s[1..], rest);
      SumOfConcat(f, t[..i], [s[0]] + t[i + 1..]);
      assert ([s[0]] + t[i + 1..])[1..] == t[i + 1..];
      SumOfConcat(f, t[..i], t[i + 1..]);
      assert t[..i] + [s[0]] + t[i + 1..] == t[..i] + ([s[0]] + t[i + 1..]);
    }
  }

  /** `Math.max(...s)` on a non-empty sequence: an element that no element exceeds. */
  function Max(s: seq<real>): (m: real)
    requires s != []
    ensures m in s
    ensures forall i :: 0 <= i < |s| ==> s[i] <= m
  {
    if |s| == 1 then s[0]
    else
      var rest := Max(s[1..]);
      if s[0] >= rest then s[0] else rest
  }

  /** The maximum does not depend on the order of the elements. */
  lemma MaxPermutation(s: seq<real>, t: seq<real>)
    requires s != [] && multiset(s) == multiset(t)
    ensures t != [] && Max(s) == Max(t)
  {
    assert s[0] in multiset(t);
    assert Max(s) in multiset(s) && Max(t) in multiset(t);
  }
}
