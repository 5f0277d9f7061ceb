/** Stable sorting by a numeric key, largest key first.

    Both the standings endpoint and the dashboard sort with a comparator of
    the form `(a, b) => key(b) - key(a)`. Section 23.1.3.30 of ECMA-262
    (ECMAScript 2023; section 22.1.3.27 in the 2019 edition) requires
    `Array.prototype.sort` to be stable, so for a consistent comparator the
    result is fully determined: keys are non-increasing and elements with
    equal keys keep their input order. The model is an insertion sort whose
    contract states exactly those two facts plus permutation. */
module StableSort {
  import opened Seqs

  /** Keys are non-increasing from left to right. */
  predicate SortedDesc<T>(key: T -> real, s: seq<T>)
  {
    forall i, j :: 0 <= i < j < |s| ==> key(s[i]) >= key(s[j])
  }

  /** The predicate "has key `v`", used to pick out one class of ties. */
  function HasKey<T>(key: T -> real, v: real): T -> bool
  {
    x => key(x) == v
  }

  /** `s` and `r` agree on the order of every class of ties. */
  ghost predicate TiesInSameOrder<T>(key: T -> real, s: seq<T>, r: seq<T>)
  {
    forall v :: Filter(HasKey(key, v), r) == Filter(HasKey(key, v), s)
  }

  /** Places `x` in front of the first element whose key is not larger. */
  function Insert<T(==)>(key: T -> real, x: T, t: seq<T>): (r: seq<T>)
    ensures |r| == |t| + 1
    ensures multiset(r) == multiset(t) + multiset{x}
    ensures SortedDesc(key, t) ==> SortedDesc(key, r)
  {
    if t == [] || key(t[0]) <= key(x) then
      [x] + t
    else
      var ins := Insert(key, x, t[1..]);
      assert t == [t[0]] + t[1..];
      InsertBelowHead(key, x, t, ins);
      [t[0]] + ins
  }

  /** The recursive step of `Insert`: the head of `t` outranks everything the
      recursive call returns. */
  lemma InsertBelowHead<T>(key: T -> real, x: T, t: seq<T>, ins: seq<T>)
    requires t != [] && key(t[0]) > key(x)
    requires multiset(ins) == multiset(t[1..]) + multiset{x}
    requires SortedDesc(key, t[1..]) ==> SortedDesc(key, ins)
    ensures SortedDesc(key, t) ==> SortedDesc(key, [t[0]] + ins)
  {
    if SortedDesc(key, t) {
      var r := [t[0]] + ins;
      forall j | 1 <= j < |r|
        ensures key(r[0]) >= key(r[j])
      {
        assert r[j] == ins[j - 1];
        assert r[j] in multiset(ins);
        if r[j] != x {
          assert r[j] in multiset(t[1..]);
          var k :| 0 <= k < |t[1..]| && t[1..][k] == r[j];
          assert t[k + 1] == r[j];
        }
      }
      assert SortedDesc(key, t[1..]);
    }
  }

  /** The stable sort, largest key first. */
  function SortDesc<T(==)>(key: T -> real, s: seq<T>): (r: seq<T>)
    ensures |r| == |s|
    ensures multiset(r) == multiset(s)
    ensures SortedDesc(key, r)
  {
    if s == [] then []
    else
      var sorted := SortDesc(key, s[1..]);
      var r := Insert(key, s[0], sorted);
      assert s == [s[0]] + s[1..];
      assert multiset(s) == multiset{s[0]} + multiset(s[1..]);
      assert multiset(r) == multiset(sorted) + multiset{s[0]};
      assert SortedDesc(key, r);
      r
  }

  /** Inserting `x` puts it in front of every element with the same key. */
  lemma {:induction false} InsertKeepsTies<T>(key: T -> real, x: T, t: seq<T>, v: real)
    ensures Filter(HasKey(key, v), Insert(key, x, t)) == Filter(HasKey(key, v), [x] + t)
  {
    var p := HasKey(key, v);
    if t != [] && key(t[0]) > key(x) {
      InsertKeepsTies(key, x, t[1..], v);
      var rest := Insert(key, x, t[1..]);
      FilterAppend(p, [t[0]], rest);
      FilterAppend(p, [x], t[1..]);
      FilterAppend(p, [x], t);
      FilterAppend(p, [t[0]], t[1..]);
      assert t == [t[0]] + t[1..];
      if p(x) {
        assert !p(t[0]);
      }
    }
  }

  /** The sort is stable: every class of equal keys keeps its input order. */
  lemma {:induction false} SortIsStable<T>(key: T -> real, s: seq<T>)
    ensures TiesInSameOrder(key, s, SortDesc(key, s))
  {
    forall v
      ensures Filter(HasKey(key, v), SortDesc(key, s)) == Filter(HasKey(key, v), s)
    {
      SortKeepsTies(key, s, v);
    }
  }

  lemma {:induction false} SortKeepsTies<T>(key: T -> real, s: seq<T>, v: real)
    ensures Filter(HasKey(key, v), SortDesc(key, s)) == Filter(HasKey(key, v), s)
  {
    if s != [] {
      var p := HasKey(key, v);
      var sorted := SortDesc(key, s[1..]);
      assert SortDesc(key, s) == Insert(key, s[0], sorted);
      SortKeepsTies(key, s[1..], v);
      InsertKeepsTies(key, s[0], sorted, v);
      FilterAppend(p, [s[0]], sorted);
      FilterAppend(p, [s[0]], s[1..]);
      assert s == [s[0]] + s[1..];
    }
  }
}
