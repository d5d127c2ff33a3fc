/** The relational operations the endpoints issue against a table snapshot:
    `WHERE` (a filter), `COUNT(*) ... WHERE`, a column projection, and
    `ORDER BY created_at DESC`. */
module Queries {

  /** `r` is `s` with some rows left out, the rest kept in their order. */
  predicate SubsequenceOf<T(==)>(r: seq<T>, s: seq<T>)
    decreases |s|
  {
    if r == [] then true
    else if s == [] then false
    else if r[0] == s[0] then SubsequenceOf(r[1..], s[1..])
    else SubsequenceOf(r, s[1..])
  }

  /** `SELECT COUNT(*) ... WHERE p`. */
  function Count<T>(s: seq<T>, p: T -> bool): (n: nat)
    ensures n <= |s|
    ensures n == 0 <==> forall i :: 0 <= i < |s| ==> !p(s[i])
  {
    if s == [] then 0
    else (if p(s[0]) then 1 else 0) + Count(s[1..], p)
  }

  /** `SELECT * ... WHERE p`: the rows satisfying `p`, in table order, duplicates kept.
      A subsequence of `s` whose rows all satisfy `p` and that is as long as the
      count of such rows in `s` can only be this one. */
  function Filter<T>(s: seq<T>, p: T -> bool): (r: seq<T>)
    ensures forall i :: 0 <= i < |r| ==> r[i] in s && p(r[i])
    ensures forall i :: 0 <= i < |s| && p(s[i]) ==> s[i] in r
    ensures SubsequenceOf(r, s)
    ensures |r| == Count(s, p)
  {
    if s == [] then []
    else if p(s[0]) then
      var rest := Filter(s[1..], p);
      assert ([s[0]] + rest)[1..] == rest;
      [s[0]] + rest
    else
      Filter(s[1..], p)
  }

  /** When every row satisfies exactly one of `p` and `q`, the `WHERE p` and
      `WHERE q` counts add up to the table size. */
  lemma {:induction false} CountPartition<T>(s: seq<T>, p: T -> bool, q: T -> bool)
    requires forall i :: 0 <= i < |s| ==> p(s[i]) != q(s[i])
    ensures Count(s, p) + Count(s, q) == |s|
  {
    if s != [] {
      assert forall i :: 0 <= i < |s[1..]| ==> s[1..][i] == s[i + 1];
      CountPartition(s[1..], p, q);
    }
  }

  /** A `WHERE p` count never exceeds a `WHERE q` count when `p` implies `q`. */
  lemma {:induction false} CountMonotonic<T>(s: seq<T>, p: T -> bool, q: T -> bool)
    requires forall x :: p(x) ==> q(x)
    ensures Count(s, p) <= Count(s, q)
  {
    if s != [] {
      CountMonotonic(s[1..], p, q);
    }
  }

  /** Two `WHERE` clauses that agree on every row count the same rows. */
  lemma {:induction false} CountAgreeing<T>(s: seq<T>, p: T -> bool, q: T -> bool)
    requires forall i :: 0 <= i < |s| ==> p(s[i]) == q(s[i])
    ensures Count(s, p) == Count(s, q)
  {
    if s != [] {
      assert forall i :: 0 <= i < |s[1..]| ==> s[1..][i] == s[i + 1];
      CountAgreeing(s[1..], p, q);
    }
  }

  /** Projection of each row onto a few columns. */
  function Project<T, U>(s: seq<T>, f: T -> U): (r: seq<U>)
    ensures |r| == |s|
    ensures forall i :: 0 <= i < |s| ==> r[i] == f(s[i])
  {
    if s == [] then [] else [f(s[0])] + Project(s[1..], f)
  }

  /** Ordered by the timestamp `at`, newest first. */
  predicate NewestFirst<T>(s: seq<T>, at: T -> int) {
    forall i, j :: 0 <= i < j < |s| ==> at(s[i]) >= at(s[j])
  }

  /** Every row of a permutation of `tail` plus `x` is at most `bound` when every
      row of `tail` and `x` are. */
  lemma BoundedPermutation<T>(rest: seq<T>, tail: seq<T>, x: T, at: T -> int, bound: int)
    requires multiset(rest) == multiset(tail) + multiset{x}
    requires at(x) <= bound
    requires forall k :: 0 <= k < |tail| ==> at(tail[k]) <= bound
    ensures forall k :: 0 <= k < |rest| ==> at(rest[k]) <= bound
  {
    forall k | 0 <= k < |rest|
      ensures at(rest[k]) <= bound
    {
      assert rest[k] in multiset(rest);
      if rest[k] != x {
        assert rest[k] in multiset(tail);
        var j :| 0 <= j < |tail| && tail[j] == rest[k];
      }
    }
  }

  /** A row at least as new as every row of a newest-first sequence may lead it. */
  lemma PrependNewest<T>(y: T, rest: seq<T>, at: T -> int)
    requires NewestFirst(rest, at)
    requires forall k :: 0 <= k < |rest| ==> at(rest[k]) <= at(y)
    ensures NewestFirst([y] + rest, at)
  {
    var r := [y] + rest;
    forall i, j | 0 <= i < j < |r|
      ensures at(r[i]) >= at(r[j])
    {
      assert r[j] == rest[j - 1];
      if i > 0 {
        assert r[i] == rest[i - 1];
      }
    }
  }

  /** Places `x` into a newest-first sequence. */
  function InsertNewestFirst<T>(x: T, s: seq<T>, at: T -> int): (r: seq<T>)
    requires NewestFirst(s, at)
    ensures NewestFirst(r, at)
    ensures multiset(r) == multiset(s) + multiset{x}
  {
    if s == [] || at(x) >= at(s[0]) then
      PrependNewest(x, s, at);
      [x] + s
    else
      var tail := s[1..];
      var rest := InsertNewestFirst(x, tail, at);
      assert s == [s[0]] + tail;
      BoundedPermutation(rest, tail, x, at, at(s[0]));
      PrependNewest(s[0], rest, at);
      [s[0]] + rest
  }

  /** `ORDER BY created_at DESC`: a newest-first permutation of the rows. */
  function SortNewestFirst<T>(s: seq<T>, at: T -> int): (r: seq<T>)
    ensures NewestFirst(r, at)
    ensures multiset(r) == multiset(s)
  {
    if s == [] then []
    else
      assert s == [s[0]] + s[1..];
      InsertNewestFirst(s[0], SortNewestFirst(s[1..], at), at)
  }
}
