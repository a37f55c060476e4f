/** The stable sort the source gets from Python's list.sort(key=...) and from
    sorting a table by a column. Keys are compared lexicographically as
    Rank values, which covers every key the source sorts by: a date, a
    (date, strike) pair, a strike, or a negated OI change. */
module Sorting {

  datatype Rank = Rank(major: int, middle: int, minor: int, last: real)

  predicate RankLe(p: Rank, q: Rank) {
    p.major < q.major || (p.major == q.major &&
      (p.middle < q.middle || (p.middle == q.middle &&
        (p.minor < q.minor || (p.minor == q.minor && p.last <= q.last)))))
  }

  lemma RankLeTotal(p: Rank, q: Rank)
    ensures RankLe(p, q) || RankLe(q, p)
  {
  }

  lemma RankLeTransitive(p: Rank, q: Rank, s: Rank)
    requires RankLe(p, q) && RankLe(q, s)
    ensures RankLe(p, s)
  {
  }

  ghost predicate SortedBy<T>(s: seq<T>, rank: T -> Rank) {
    forall i, j :: 0 <= i < j < |s| ==> RankLe(rank(s[i]), rank(s[j]))
  }

  /** Places x before the first element whose key is not smaller than x's,
      so that x stays ahead of the elements it tied with. */
  function Insert<T>(x: T, s: seq<T>, rank: T -> Rank): (r: seq<T>)
    requires SortedBy(s, rank)
    ensures SortedBy(r, rank)
    ensures multiset(r) == multiset(s) + multiset{x}
    ensures |r| == |s| + 1
  {
    if s == [] then [x]
    else if RankLe(rank(x), rank(s[0])) then
      var r := [x] + s;
      assert forall j :: 0 < j < |r| ==> RankLe(rank(x), rank(r[j])) by {
        forall j | 0 < j < |r| ensures RankLe(rank(x), rank(r[j])) {
          if j > 1 { RankLeTransitive(rank(x), rank(s[0]), rank(s[j - 1])); }
        }
      }
      r
    else
      RankLeTotal(rank(x), rank(s[0]));
      var t := Insert(x, s[1..], rank);
      assert multiset(t) == multiset(s[1..]) + multiset{x};
      var r := [s[0]] + t;
      MultisetCons(s);
      MultisetCons(r);
      assert forall j :: 0 < j < |r| ==> RankLe(rank(s[0]), rank(r[j])) by {
        forall j | 0 < j < |r| ensures RankLe(rank(s[0]), rank(r[j])) {
          assert r[j] in multiset(t);
          assert r[j] == x || r[j] in multiset(s[1..]);
          if r[j] != x {
            var k :| 0 <= k < |s[1..]| && s[1..][k] == r[j];
            assert s[k + 1] == r[j];
          }
        }
      }
      r
  }

  lemma MultisetCons<T>(s: seq<T>)
    requires s != []
    ensures multiset(s) == multiset{s[0]} + multiset(s[1..])
  {
    assert s == [s[0]] + s[1..];
  }

  /** The list sorted by rank: a permutation of s in non-decreasing key order. */
  function SortBy<T>(s: seq<T>, rank: T -> Rank): (r: seq<T>)
    ensures SortedBy(r, rank)
    ensures multiset(r) == multiset(s)
    ensures |r| == |s|
  {
    if s == [] then []
    else
      var t := SortBy(s[1..], rank);
      MultisetCons(s);
      Insert(s[0], t, rank)
  }

  /** The elements of s whose key is k, in their order in s. */
  function WithRank<T>(s: seq<T>, rank: T -> Rank, k: Rank): seq<T> {
    if s == [] then []
    else (if rank(s[0]) == k then [s[0]] else []) + WithRank(s[1..], rank, k)
  }

  lemma WithRankCons<T>(a: T, t: seq<T>, rank: T -> Rank, k: Rank)
    ensures WithRank([a] + t, rank, k) == (if rank(a) == k then [a] else []) + WithRank(t, rank, k)
  {
    assert ([a] + t)[0] == a && ([a] + t)[1..] == t;
  }

  /** Insert puts x ahead of every element with the same key. */
  lemma {:induction false} InsertStable<T>(x: T, s: seq<T>, rank: T -> Rank, k: Rank)
    requires SortedBy(s, rank)
    ensures WithRank(Insert(x, s, rank), rank, k) == (if rank(x) == k then [x] else []) + WithRank(s, rank, k)
    decreases |s|
  {
    if s == [] {
      assert Insert(x, s, rank) == [x];
      WithRankCons(x, s, rank, k);
    } else if RankLe(rank(x), rank(s[0])) {
      assert Insert(x, s, rank) == [x] + s;
      WithRankCons(x, s, rank, k);
    } else {
      InsertBehind(x, s, rank, k);
    }
  }

  lemma {:induction false} InsertBehind<T>(x: T, s: seq<T>, rank: T -> Rank, k: Rank)
    requires SortedBy(s, rank) && s != [] && !RankLe(rank(x), rank(s[0]))
    ensures WithRank(Insert(x, s, rank), rank, k) == (if rank(x) == k then [x] else []) + WithRank(s, rank, k)
    decreases |s|, 0
  {
    var t := Insert(x, s[1..], rank);
    InsertAfterHead(x, s, rank);
    InsertStable(x, s[1..], rank, k);
    WithRankCons(s[0], t, rank, k);
    WithRankCons(s[0], s[1..], rank, k);
    assert s == [s[0]] + s[1..];
  }

  /** An element ranked above the head is inserted into the tail. */
  lemma InsertAfterHead<T>(x: T, s: seq<T>, rank: T -> Rank)
    requires SortedBy(s, rank) && s != [] && !RankLe(rank(x), rank(s[0]))
    ensures Insert(x, s, rank) == [s[0]] + Insert(x, s[1..], rank)
  {
  }

  /** Stability: elements with equal keys keep their relative order. */
  lemma {:induction false} SortByStable<T>(s: seq<T>, rank: T -> Rank, k: Rank)
    ensures WithRank(SortBy(s, rank), rank, k) == WithRank(s, rank, k)
    decreases |s|
  {
    if s != [] {
      SortByStable(s[1..], rank, k);
      InsertStable(s[0], SortBy(s[1..], rank), rank, k);
    }
  }
}
