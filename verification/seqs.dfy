/** Sequence helpers shared by every component of the dashboard: the
    order-preserving filter of JavaScript's `Array.prototype.filter`, the
    positional `Array.prototype.map`, the additive `reduce` used for totals,
    and the subsequence relation that states "relative order is kept". */
module Seqs {

  /** The elements of `s` that satisfy `p`, in their original order. */
  function Filter<T(==)>(p: T -> bool, s: seq<T>): (r: seq<T>)
    ensures |r| <= |s|
  {
    if s == [] then []
    else (if p(s[0]) then [s[0]] else []) + Filter(p, s[1..])
  }

  /** Soundness and completeness of the filter: an element is kept exactly
      when it occurs in the input and satisfies the predicate. */
  lemma {:induction false} FilterMembers<T>(p: T -> bool, s: seq<T>)
    ensures forall x :: x in Filter(p, s) <==> x in s && p(x)
  {
    if s != [] {
      FilterMembers(p, s[1..]);
      assert forall x :: x in s <==> x == s[0] || x in s[1..];
    }
  }

  /** `r` is obtained from `s` by deleting elements, without reordering. */
  predicate Subsequence<T(==)>(r: seq<T>, s: seq<T>)
    decreases |s|
  {
    if r == [] then true
    else if s == [] then false
    else if r[0] == s[0] then Subsequence(r[1..], s[1..])
    else Subsequence(r, s[1..])
  }

  /** A filter whose predicate holds of no element keeps nothing. */
  lemma {:induction false} FilterNone<T>(p: T -> bool, s: seq<T>)
    requires forall x :: x in s ==> !p(x)
    ensures Filter(p, s) == []
  {
    if s != [] {
      assert s[0] in s;
      FilterNone(p, s[1..]);
    }
  }

  /** Positional map: element `i` of the result is `f` applied to element `i`. */
  function Map<A, B>(f: A -> B, s: seq<A>): (r: seq<B>)
    ensures |r| == |s|
    ensures forall i :: 0 <= i < |s| ==> r[i] == f(s[i])
  {
    if s == [] then [] else [f(s[0])] + Map(f, s[1..])
  }

  /** The sum of `f` over `s`, as `s.reduce((sum, x) => sum + f(x), 0)`. */
  function SumOf<T>(f: T -> int, s: seq<T>): int
  {
    if s == [] then 0 else f(s[0]) + SumOf(f, s[1..])
  }

  /** Filtering distributes over concatenation: this is what "keeps the
      relative order" means for a filter. */
  lemma {:induction false} FilterAppend<T>(p: T -> bool, a: seq<T>, b: seq<T>)
    ensures Filter(p, a + b) == Filter(p, a) + Filter(p, b)
  {
    if a == [] {
      assert a + b == b;
    } else {
      var h := if p(a[0]) then [a[0]] else [];
      assert (a + b)[0] == a[0];
      assert (a + b)[1..] == a[1..] + b;
      assert Filter(p, a + b) == h + Filter(p, a[1..] + b);
      FilterAppend(p, a[1..], b);
      assert Filter(p, a) == h + Filter(p, a[1..]);
    }
  }

  /** Filtering a sequence extended by one element. */
  lemma FilterSnoc<T>(p: T -> bool, s: seq<T>, x: T)
    ensures Filter(p, s + [x]) == Filter(p, s) + (if p(x) then [x] else [])
  {
    FilterAppend(p, s, [x]);
    assert [x][1..] == [];
  }

  /** The first element a filter keeps satisfies its predicate. */
  lemma FilterHead<T>(p: T -> bool, s: seq<T>)
    requires Filter(p, s) != []
    ensures p(Filter(p, s)[0])
  {
    FilterMembers(p, s);
    var r := Filter(p, s);
    assert r[0] in r;
  }

  /** A filter never reorders: its result is a subsequence of its input. */
  lemma {:induction false} FilterIsSubsequence<T>(p: T -> bool, s: seq<T>)
    ensures Subsequence(Filter(p, s), s)
  {
    if s != [] {
      FilterIsSubsequence(p, s[1..]);
      var r := Filter(p, s);
      if p(s[0]) {
        assert r == [s[0]] + Filter(p, s[1..]);
        assert r[1..] == Filter(p, s[1..]);
      } else {
        assert r == Filter(p, s[1..]);
        if r != [] {
          FilterHead(p, s[1..]);
        }
      }
    }
  }

  lemma {:induction false} SubsequenceRefl<T>(s: seq<T>)
    ensures Subsequence(s, s)
  {
    if s != [] {
      SubsequenceRefl(s[1..]);
    }
  }

  /** An element occurs in a filter's result exactly as often as in its input
      when it satisfies the predicate, and not at all otherwise. */
  lemma {:induction false} FilterMultiplicity<T>(p: T -> bool, s: seq<T>, x: T)
    ensures multiset(Filter(p, s))[x] == if p(x) then multiset(s)[x] else 0
  {
    if s != [] {
      FilterMultiplicity(p, s[1..], x);
      assert s == [s[0]] + s[1..];
    }
  }

  /** The filter leaves its input unchanged exactly when every element
      satisfies the predicate. */
  lemma {:induction false} FilterKeepsAll<T>(p: T -> bool, s: seq<T>)
    ensures Filter(p, s) == s <==> forall x :: x in s ==> p(x)
  {
    FilterMembers(p, s);
    if s != [] && forall x :: x in s ==> p(x) {
      assert forall x :: x in s[1..] ==> x in s;
      FilterKeepsAll(p, s[1..]);
    }
  }

  /** Two successive filters select the same elements as one filter by the
      conjunction of their predicates. */
  lemma {:induction false} FilterFilter<T>(p: T -> bool, q: T -> bool, pq: T -> bool, s: seq<T>)
    requires forall x :: pq(x) == (p(x) && q(x))
    ensures Filter(q, Filter(p, s)) == Filter(pq, s)
  {
    if s != [] {
      FilterFilter(p, q, pq, s[1..]);
      assert pq(s[0]) == (p(s[0]) && q(s[0]));
      var f := Filter(p, s);
      if p(s[0]) {
        assert f == [s[0]] + Filter(p, s[1..]);
        assert f[0] == s[0] && f[1..] == Filter(p, s[1..]);
        assert Filter(q, f) == (if q(s[0]) then [s[0]] else []) + Filter(q, f[1..]);
      } else {
        assert f == Filter(p, s[1..]);
        assert Filter(pq, s) == Filter(pq, s[1..]);
      }
    }
  }

  /** Filters by two predicates that never hold together select at most as
      many elements as there are. */
  lemma {:induction false} FilterDisjointLength<T>(p: T -> bool, q: T -> bool, s: seq<T>)
    requires forall x :: !(p(x) && q(x))
    ensures |Filter(p, s)| + |Filter(q, s)| <= |s|
  {
    if s != [] {
      FilterDisjointLength(p, q, s[1..]);
    }
  }

  /** Filters by a predicate and by its negation split the input exactly. */
  lemma {:induction false} FilterComplementLength<T>(p: T -> bool, q: T -> bool, s: seq<T>)
    requires forall x :: q(x) == !p(x)
    ensures |Filter(p, s)| + |Filter(q, s)| == |s|
  {
    if s != [] {
      FilterComplementLength(p, q, s[1..]);
    }
  }

  lemma {:induction false} SumAppend<T>(f: T -> int, a: seq<T>, b: seq<T>)
    ensures SumOf(f, a + b) == SumOf(f, a) + SumOf(f, b)
  {
    if a == [] {
      assert a + b == b;
    } else {
      assert (a + b)[0] == a[0];
      assert (a + b)[1..] == a[1..] + b;
      SumAppend(f, a[1..], b);
    }
  }

  /** When every element satisfies exactly one of `p` and `q`, the sums over
      the two filtered parts add up to the sum over the whole. */
  lemma {:induction false} SumOverPartition<T>(f: T -> int, p: T -> bool, q: T -> bool, s: seq<T>)
    requires forall x :: x in s ==> p(x) != q(x)
    ensures SumOf(f, Filter(p, s)) + SumOf(f, Filter(q, s)) == SumOf(f, s)
  {
    if s != [] {
      assert forall x :: x in s[1..] ==> x in s;
      SumOverPartition(f, p, q, s[1..]);
      var fp, fq := Filter(p, s[1..]), Filter(q, s[1..]);
      if p(s[0]) {
        SumAppend(f, [s[0]], fp);
        assert Filter(q, s) == fq;
      } else {
        SumAppend(f, [s[0]], fq);
        assert Filter(p, s) == fp;
      }
    }
  }

  lemma {:induction false} MapAppend<A, B>(f: A -> B, a: seq<A>, b: seq<A>)
    ensures Map(f, a + b) == Map(f, a) + Map(f, b)
  {
  }

  /** Taking element `j` out before mapping takes its image out after. */
  lemma {:induction false} MapRemove<A, B>(f: A -> B, b: seq<A>, j: nat)
    requires j < |b|
    ensures multiset(Map(f, b)) == multiset(Map(f, b[..j] + b[j + 1..])) + multiset{f(b[j])}
  {
    var pre, post := b[..j], b[j + 1..];
    var mp, mq, y := Map(f, pre), Map(f, post), f(b[j]);
    assert Map(f, b) == mp + ([y] + mq) by {
      assert b == pre + ([b[j]] + post);
      MapAppend(f, pre, [b[j]] + post);
      MapAppend(f, [b[j]], post);
    }
    assert Map(f, pre + post) == mp + mq by {
      MapAppend(f, pre, post);
    }
    MultisetInsert(mp, y, mq);
  }

  /** Inserting one element into a sequence adds it to the multiset. */
  lemma MultisetInsert<T>(a: seq<T>, x: T, c: seq<T>)
    ensures multiset(a + ([x] + c)) == multiset(a + c) + multiset{x}
  {
    assert multiset([x] + c) == multiset{x} + multiset(c);
  }

  /** Mapping respects permutations: equal multisets of inputs give equal
      multisets of outputs. */
  lemma {:induction false} MapPermutation<A, B>(f: A -> B, a: seq<A>, b: seq<A>)
    requires multiset(a) == multiset(b)
    ensures multiset(Map(f, a)) == multiset(Map(f, b))
    decreases |a|
  {
    if a == [] {
      assert |b| == |multiset(b)| == 0;
    } else {
      var x := a[0];
      assert x in multiset(b);
      var j :| 0 <= j < |b| && b[j] == x;
      var rest := b[..j] + b[j + 1..];
      assert b == b[..j] + [x] + b[j + 1..];
      assert multiset(b) == multiset(rest) + multiset{x};
      assert a == [x] + a[1..];
      assert multiset(a) == multiset(a[1..]) + multiset{x};
      forall y
        ensures multiset(a[1..])[y] == multiset(rest)[y]
      {
        assert multiset(a)[y] == multiset(b)[y];
      }
      assert multiset(a[1..]) == multiset(rest);
      MapPermutation(f, a[1..], rest);
      MapRemove(f, b, j);
      MapRemove(f, a, 0);
      assert a[..0] + a[1..] == a[1..];
    }
  }
}
