/** Relational operations over in-memory tables: WHERE, inner JOIN, DISTINCT
    and ORDER BY, each on a sequence of rows. */
module Seqs {

  // ---------------------------------------------------------------------------
  // WHERE

  /** The rows of `q` that satisfy `p`, in their order. */
  function Where<R(!new)>(q: seq<R>, p: R -> bool): (r: seq<R>)
    ensures |r| <= |q|
    ensures forall x :: x in r <==> x in q && p(x)
  {
    if q == [] then []
    else
      assert q == [q[0]] + q[1..];
      if p(q[0]) then [q[0]] + Where(q[1..], p) else Where(q[1..], p)
  }

  /** Filtering only drops rows: no row is repeated. */
  lemma {:induction false} WhereSubMultiset<R(!new)>(q: seq<R>, p: R -> bool)
    ensures multiset(Where(q, p)) <= multiset(q)
  {
    if q != [] {
      WhereSubMultiset(q[1..], p);
      assert q == [q[0]] + q[1..];
    }
  }

  /** Filtering depends only on what the predicate says of each row. */
  lemma {:induction false} WhereExt<R(!new)>(q: seq<R>, p: R -> bool, p': R -> bool)
    requires forall x :: x in q ==> p(x) == p'(x)
    ensures Where(q, p) == Where(q, p')
  {
    if q != [] {
      WhereExt(q[1..], p, p');
    }
  }

  /** Two successive filters are one filter by the conjunction. */
  lemma {:induction false} WhereWhere<R(!new)>(q: seq<R>, p: R -> bool, p': R -> bool, both: R -> bool)
    requires forall x :: x in q ==> both(x) == (p(x) && p'(x))
    ensures Where(Where(q, p), p') == Where(q, both)
  {
    if q != [] {
      WhereWhere(q[1..], p, p', both);
    }
  }

  /** A filter every row passes changes nothing. */
  lemma {:induction false} WhereAll<R(!new)>(q: seq<R>, p: R -> bool)
    requires forall x :: x in q ==> p(x)
    ensures Where(q, p) == q
  {
    if q != [] {
      WhereAll(q[1..], p);
    }
  }

  /** A filter no row passes leaves nothing. */
  lemma {:induction false} WhereNone<R(!new)>(q: seq<R>, p: R -> bool)
    requires forall x :: x in q ==> !p(x)
    ensures Where(q, p) == []
  {
    if q != [] {
      WhereNone(q[1..], p);
    }
  }

  // ---------------------------------------------------------------------------
  // SELECT (projection)

  /** The projection `f` of every row, in row order. */
  function Select<A, B>(q: seq<A>, f: A -> B): (r: seq<B>)
    ensures |r| == |q|
    ensures forall i :: 0 <= i < |q| ==> r[i] == f(q[i])
  {
    if q == [] then [] else [f(q[0])] + Select(q[1..], f)
  }

  /** Mapping one more element of a prefix appends its image. */
  lemma SelectPrefixStep<A, B>(q: seq<A>, f: A -> B, n: nat)
    requires n < |q|
    ensures Select(q[..n + 1], f) == Select(q[..n], f) + [f(q[n])]
  {
    var longer := Select(q[..n + 1], f);
    var shorter := Select(q[..n], f);
    assert forall i :: 0 <= i < n ==> longer[i] == shorter[i];
  }

  lemma AppendAssociative<T>(a: seq<T>, b: seq<T>, c: seq<T>)
    ensures a + (b + c) == (a + b) + c
  {
  }

  /** Mapping a sequence with one more element at the end appends its image. */
  lemma SelectAppend<A, B>(q: seq<A>, x: A, f: A -> B)
    ensures Select(q + [x], f) == Select(q, f) + [f(x)]
  {
    var longer := Select(q + [x], f);
    var shorter := Select(q, f);
    assert forall i :: 0 <= i < |q| ==> longer[i] == shorter[i];
  }

  lemma SelectIn<A, B>(q: seq<A>, f: A -> B, y: B)
    ensures y in Select(q, f) <==> exists x :: x in q && f(x) == y
  {
    var r := Select(q, f);
    if y in r {
      var i :| 0 <= i < |r| && r[i] == y;
      assert q[i] in q;
    }
    if exists x :: x in q && f(x) == y {
      var x :| x in q && f(x) == y;
      var i :| 0 <= i < |q| && q[i] == x;
      assert r[i] == y;
    }
  }

  // ---------------------------------------------------------------------------
  // Inner JOIN

  function JoinOne<A(!new), B(!new)>(a: A, bs: seq<B>, on: (A, B) -> bool): (r: seq<(A, B)>)
    ensures forall p :: p in r <==> p.0 == a && p.1 in bs && on(a, p.1)
  {
    if bs == [] then []
    else (if on(a, bs[0]) then [(a, bs[0])] else []) + JoinOne(a, bs[1..], on)
  }

  /** The pairs of rows, one from each side, that satisfy the join condition. */
  function JoinOn<A(!new), B(!new)>(as_: seq<A>, bs: seq<B>, on: (A, B) -> bool): (r: seq<(A, B)>)
    ensures forall p :: p in r <==> p.0 in as_ && p.1 in bs && on(p.0, p.1)
  {
    if as_ == [] then [] else JoinOne(as_[0], bs, on) + JoinOn(as_[1..], bs, on)
  }

  // ---------------------------------------------------------------------------
  // DISTINCT

  /** Each row once (at its last occurrence; SQL leaves the order of DISTINCT open). */
  function Distinct<T(==,!new)>(q: seq<T>): (r: seq<T>)
    ensures forall x :: x in r <==> x in q
    ensures NoDuplicates(r)
  {
    if q == [] then []
    else
      var rest := Distinct(q[1..]);
      assert q == [q[0]] + q[1..];
      if q[0] in q[1..] then rest else [q[0]] + rest
  }

  ghost predicate NoDuplicates<T>(q: seq<T>)
  {
    forall i, j :: 0 <= i < j < |q| ==> q[i] != q[j]
  }

  /** No duplicates means each element occurs once in the multiset. */
  lemma {:induction false} NoDuplicatesCount<T>(q: seq<T>)
    requires NoDuplicates(q)
    ensures forall x :: multiset(q)[x] <= 1
  {
    if q != [] {
      NoDuplicatesCount(q[1..]);
      assert q == [q[0]] + q[1..];
      assert q[0] !in q[1..];
    }
  }

  /** Conversely, elements occurring at most once are at distinct positions. */
  lemma CountNoDuplicates<T>(q: seq<T>)
    requires forall x :: multiset(q)[x] <= 1
    ensures NoDuplicates(q)
  {
    forall i, j | 0 <= i < j < |q|
      ensures q[i] != q[j]
    {
      assert q == q[..j] + q[j..];
      assert q[i] in q[..j];
      assert q[j] in q[j..];
      assert multiset(q)[q[j]] == multiset(q[..j])[q[j]] + multiset(q[j..])[q[j]];
    }
  }

  /** A rearrangement of rows without duplicates has none. */
  lemma NoDuplicatesPermutation<T>(a: seq<T>, b: seq<T>)
    requires multiset(a) == multiset(b)
    requires NoDuplicates(b)
    ensures NoDuplicates(a)
  {
    NoDuplicatesCount(b);
    CountNoDuplicates(a);
  }

  /** Rows with pairwise distinct keys (a primary key). */
  ghost predicate UniqueKeys<T>(q: seq<T>, key: T -> int)
  {
    forall i, j :: 0 <= i < j < |q| ==> key(q[i]) != key(q[j])
  }

  /** Dropping or reordering rows keeps keys distinct. */
  lemma UniqueKeysSub<T>(a: seq<T>, b: seq<T>, key: T -> int)
    requires multiset(a) <= multiset(b)
    requires UniqueKeys(b, key)
    ensures UniqueKeys(a, key)
  {
    assert NoDuplicates(b);
    NoDuplicatesCount(b);
    assert forall x :: multiset(a)[x] <= 1 by {
      forall x ensures multiset(a)[x] <= 1 {
        assert multiset(a)[x] <= multiset(b)[x];
      }
    }
    CountNoDuplicates(a);
    forall i, j | 0 <= i < j < |a| ensures key(a[i]) != key(a[j]) {
      assert a[i] in multiset(b) && a[j] in multiset(b);
      var i' :| 0 <= i' < |b| && b[i'] == a[i];
      var j' :| 0 <= j' < |b| && b[j'] == a[j];
      assert a[i] != a[j];
      assert i' != j';
    }
  }

  // ---------------------------------------------------------------------------
  // ORDER BY

  ghost predicate TotalPreorder<T(!new)>(le: (T, T) -> bool)
  {
    && (forall a, b :: le(a, b) || le(b, a))
    && (forall a, b, c :: le(a, b) && le(b, c) ==> le(a, c))
  }

  predicate SortedBy<T>(q: seq<T>, le: (T, T) -> bool)
  {
    forall i, j :: 0 <= i < j < |q| ==> le(q[i], q[j])
  }

  function Insert<T(!new)>(x: T, q: seq<T>, le: (T, T) -> bool): (r: seq<T>)
    requires TotalPreorder(le)
    requires SortedBy(q, le)
    ensures SortedBy(r, le)
    ensures multiset(r) == multiset(q) + multiset{x}
  {
    if q == [] then [x]
    else if le(x, q[0]) then
      InsertFront(x, q, le);
      [x] + q
    else
      var rest := Insert(x, q[1..], le);
      InsertBehind(x, q, rest, le);
      [q[0]] + rest
  }

  /** A row no later than the first of a sorted sequence may go in front of it. */
  lemma InsertFront<T(!new)>(x: T, q: seq<T>, le: (T, T) -> bool)
    requires TotalPreorder(le)
    requires SortedBy(q, le)
    requires q != [] && le(x, q[0])
    ensures SortedBy([x] + q, le)
  {
    forall j | 0 <= j < |q| ensures le(x, q[j]) {
      if j > 0 {
        assert le(q[0], q[j]);
      }
    }
  }

  /** A row later than the head of a sorted sequence, inserted into its tail, leaves
      the head in front. */
  lemma InsertBehind<T(!new)>(x: T, q: seq<T>, rest: seq<T>, le: (T, T) -> bool)
    requires TotalPreorder(le)
    requires SortedBy(q, le)
    requires q != [] && !le(x, q[0])
    requires SortedBy(rest, le)
    requires multiset(rest) == multiset(q[1..]) + multiset{x}
    ensures SortedBy([q[0]] + rest, le)
    ensures multiset([q[0]] + rest) == multiset(q) + multiset{x}
  {
    forall k | 0 <= k < |rest| ensures le(q[0], rest[k]) {
      assert rest[k] in multiset(rest);
      if rest[k] != x {
        assert rest[k] in multiset(q[1..]);
        var j :| 0 <= j < |q[1..]| && q[1..][j] == rest[k];
        assert q[j + 1] == rest[k];
      }
    }
    assert q == [q[0]] + q[1..];
  }

  /** The rows of `q` rearranged so that `le` holds between every earlier and later row. */
  function SortBy<T(!new)>(q: seq<T>, le: (T, T) -> bool): (r: seq<T>)
    requires TotalPreorder(le)
    ensures SortedBy(r, le)
    ensures multiset(r) == multiset(q)
  {
    if q == [] then []
    else
      assert q == [q[0]] + q[1..];
      Insert(q[0], SortBy(q[1..], le), le)
  }

  /** Sorting keeps exactly the rows it was given. */
  lemma SortByIn<T(!new)>(q: seq<T>, le: (T, T) -> bool)
    requires TotalPreorder(le)
    ensures forall x :: x in SortBy(q, le) <==> x in q
  {
    var r := SortBy(q, le);
    forall x ensures x in r <==> x in q {
      assert x in r <==> x in multiset(r);
    }
  }
}
