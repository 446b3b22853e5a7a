/** `Array.prototype.filter` and the facts about it that the dashboards rely on. */
module Seqs {

  /** `s.filter(p)`. */
  function Filter<T>(s: seq<T>, p: T -> bool): (r: seq<T>)
    ensures |r| <= |s|
  {
    if s == [] then []
    else
      var rest := Filter(s[1..], p);
      if p(s[0]) then [s[0]] + rest else rest
  }

  /** The filter keeps exactly the elements that satisfy the predicate. */
  lemma {:induction false} FilterMembers<T>(s: seq<T>, p: T -> bool)
    ensures forall x :: x in Filter(s, p) <==> x in s && p(x)
  {
    if s != [] {
      FilterMembers(s[1..], p);
      assert forall x :: x in s <==> x == s[0] || x in s[1..];
    }
  }

  /** `a` is `b` with some elements left out and the rest kept in order. */
  predicate Subsequence<T(==)>(a: seq<T>, b: seq<T>)
    decreases |b|
  {
    if a == [] then true
    else if b == [] then false
    else (a[0] == b[0] && Subsequence(a[1..], b[1..])) || Subsequence(a, b[1..])
  }

  /** Each kept element is kept as often as it occurs in the input. */
  lemma {:induction false} FilterCounts<T>(s: seq<T>, p: T -> bool)
    ensures forall x :: multiset(Filter(s, p))[x] == if p(x) then multiset(s)[x] else 0
  {
    if s != [] {
      FilterCounts(s[1..], p);
      assert s == [s[0]] + s[1..];
      assert multiset(s) == multiset{s[0]} + multiset(s[1..]);
      if p(s[0]) {
        assert multiset(Filter(s, p)) == multiset{s[0]} + multiset(Filter(s[1..], p));
      }
    }
  }

  /** The kept elements stay in input order. */
  lemma {:induction false} FilterIsSubsequence<T>(s: seq<T>, p: T -> bool)
    ensures Subsequence(Filter(s, p), s)
  {
    if s != [] {
      FilterIsSubsequence(s[1..], p);
      var r := Filter(s, p);
      if p(s[0]) {
        assert r[0] == s[0] && r[1..] == Filter(s[1..], p);
      }
    }
  }

  /** Filtering commutes with concatenation. */
  lemma {:induction false} FilterAppend<T>(a: seq<T>, b: seq<T>, p: T -> bool)
    ensures Filter(a + b, p) == Filter(a, p) + Filter(b, p)
  {
    if a == [] {
      assert a + b == b;
    } else {
      var head := if p(a[0]) then [a[0]] else [];
      assert (a + b)[0] == a[0] && (a + b)[1..] == a[1..] + b;
      assert Filter(a + b, p) == head + Filter(a[1..] + b, p);
      FilterAppend(a[1..], b, p);
      assert Filter(a, p) == head + Filter(a[1..], p);
    }
  }

  /** A filter that keeps everything returns its input. */
  lemma {:induction false} FilterKeepsAll<T>(s: seq<T>, p: T -> bool)
    requires forall x :: x in s ==> p(x)
    ensures Filter(s, p) == s
  {
    if s != [] {
      assert s[0] in s;
      assert forall x :: x in s[1..] ==> x in s;
      FilterKeepsAll(s[1..], p);
    }
  }

  /** An element is kept or dropped, never both: the two counts add up to the length. */
  lemma {:induction false} FilterSplit<T>(s: seq<T>, p: T -> bool, q: T -> bool)
    requires forall x :: q(x) == !p(x)
    ensures |Filter(s, p)| + |Filter(s, q)| == |s|
  {
    if s != [] {
      FilterSplit(s[1..], p, q);
    }
  }

  /** `filter === 'all' ? s : s.filter(x => key(x) === filter)`. */
  function SelectUnlessAll<T(==,!new)>(s: seq<T>, filter: string, key: T -> string): (r: seq<T>)
    ensures filter == "all" ==> r == s
    ensures filter != "all" ==> forall x :: x in r <==> x in s && key(x) == filter
    ensures Subsequence(r, s)
  {
    if filter == "all" then
      SubsequenceRefl(s);
      s
    else Select(s, key, filter)
  }

  /** `s.filter(x => key(x) === v)`. */
  function Select<T(==,!new)>(s: seq<T>, key: T -> string, v: string): (r: seq<T>)
    ensures forall x :: x in r <==> x in s && key(x) == v
    ensures forall x :: multiset(r)[x] == if key(x) == v then multiset(s)[x] else 0
    ensures Subsequence(r, s)
  {
    FilterMembers(s, KeyIs(key, v));
    FilterCounts(s, KeyIs(key, v));
    FilterIsSubsequence(s, KeyIs(key, v));
    Filter(s, KeyIs(key, v))
  }

  /** `x => key(x) === v`. */
  function KeyIs<T>(key: T -> string, v: string): T -> bool
  {
    x => key(x) == v
  }

  /** Applying the same selection again changes nothing. */
  lemma SelectUnlessAllIdempotent<T(!new)>(s: seq<T>, filter: string, key: T -> string)
    ensures SelectUnlessAll(SelectUnlessAll(s, filter, key), filter, key) == SelectUnlessAll(s, filter, key)
  {
    if filter != "all" {
      FilterKeepsAll(SelectUnlessAll(s, filter, key), KeyIs(key, filter));
    }
  }

  lemma {:induction false} SubsequenceRefl<T>(s: seq<T>)
    ensures Subsequence(s, s)
  {
    if s != [] {
      SubsequenceRefl(s[1..]);
    }
  }
}
