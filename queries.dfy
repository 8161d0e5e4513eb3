/**
 * The LINQ operators the services use to query their tables, on sequences:
 * `FirstOrDefault` (IndexWhere), `Where` (Filter), `OrderBy` (SortBy, an
 * insertion sort) and `Skip`/`Take` (Window).
 */
module Queries {
  import opened Common

  /**
   * `FirstOrDefault(p)`: the position of the first row satisfying `p`, or
   * `None` when there is none.
   */
  function IndexWhere<T>(s: seq<T>, p: T -> bool): (r: Option<nat>)
    ensures r.Some? ==> r.value < |s| && p(s[r.value])
    ensures r.Some? ==> forall j :: 0 <= j < r.value ==> !p(s[j])
    ensures r.None? ==> forall j :: 0 <= j < |s| ==> !p(s[j])
    decreases |s|
  {
    if s == [] then None
    else if p(s[0]) then Some(0)
    else match IndexWhere(s[1..], p)
      case None => None
      case Some(k) => Some(k + 1)
  }

  /** `Where(p)`: the rows satisfying `p`, in their original order. */
  function Filter<T(!new)>(s: seq<T>, p: T -> bool): (r: seq<T>)
    ensures |r| <= |s|
    ensures forall x :: x in r <==> x in s && p(x)
    ensures forall i :: 0 <= i < |r| ==> p(r[i])
    ensures forall x :: multiset(r)[x] == if p(x) then multiset(s)[x] else 0
    decreases |s|
  {
    if s == [] then []
    else
      assert s == [s[0]] + s[1..];
      if p(s[0]) then [s[0]] + Filter(s[1..], p)
      else Filter(s[1..], p)
  }

  /** `Where` on a row followed by more rows. */
  lemma FilterCons<T(!new)>(x: T, s: seq<T>, p: T -> bool)
    ensures Filter([x] + s, p) == (if p(x) then [x] else []) + Filter(s, p)
  {
    assert ([x] + s)[0] == x && ([x] + s)[1..] == s;
  }

  lemma ConcatAssociative<T>(x: seq<T>, y: seq<T>, z: seq<T>)
    ensures x + (y + z) == (x + y) + z
  {
  }

  /** `Where` over two runs of rows is the two filtered runs in turn: rows keep their order. */
  lemma {:induction false} FilterConcat<T(!new)>(a: seq<T>, b: seq<T>, p: T -> bool)
    ensures Filter(a + b, p) == Filter(a, p) + Filter(b, p)
    decreases |a|
  {
    if a == [] {
      assert a + b == b;
    } else {
      var head := if p(a[0]) then [a[0]] else [];
      assert a == [a[0]] + a[1..] && a + b == [a[0]] + (a[1..] + b);
      FilterCons(a[0], a[1..] + b, p);
      FilterCons(a[0], a[1..], p);
      FilterConcat(a[1..], b, p);
      ConcatAssociative(head, Filter(a[1..], p), Filter(b, p));
    }
  }

  /** Every two rows, taken in table order, are related by `rel`. */
  predicate Pairwise<T>(s: seq<T>, rel: (T, T) -> bool)
  {
    forall i, j :: 0 <= i < j < |s| ==> rel(s[i], s[j])
  }

  /** `Where` keeps a relation that held between every two rows. */
  lemma {:induction false} FilterPairwise<T(!new)>(s: seq<T>, p: T -> bool, rel: (T, T) -> bool)
    requires Pairwise(s, rel)
    ensures Pairwise(Filter(s, p), rel)
    decreases |s|
  {
    if s != [] {
      FilterPairwise(s[1..], p, rel);
      var rest := Filter(s[1..], p);
      if p(s[0]) {
        forall j | 0 <= j < |rest| ensures rel(s[0], rest[j]) {
          assert rest[j] in s[1..];
          var k :| 0 <= k < |s[1..]| && s[1..][k] == rest[j];
          assert s[k + 1] == rest[j];
        }
      }
    }
  }

  /** Every row before a later one is ordered by `le` on their keys. */
  predicate Sorted<T, K>(s: seq<T>, key: T -> K, le: (K, K) -> bool)
  {
    forall i, j :: 0 <= i < j < |s| ==> le(key(s[i]), key(s[j]))
  }

  /** `le` is total and transitive, so that sorting by it is possible. */
  ghost predicate TotalPreorder<K(!new)>(le: (K, K) -> bool)
  {
    && (forall a, b :: le(a, b) || le(b, a))
    && (forall a, b, c :: le(a, b) && le(b, c) ==> le(a, c))
  }

  /** Inserts `x` in front of the first row it is ordered before. */
  function Insert<T(==,!new), K>(x: T, s: seq<T>, key: T -> K, le: (K, K) -> bool): (r: seq<T>)
    ensures multiset(r) == multiset(s) + multiset{x}
    ensures forall y :: y in r <==> y == x || y in s
    decreases |s|
  {
    if s == [] then [x]
    else if le(key(x), key(s[0])) then [x] + s
    else
      assert s == [s[0]] + s[1..];
      [s[0]] + Insert(x, s[1..], key, le)
  }

  /** `OrderBy(key)`: the rows rearranged by an insertion sort on `le`. */
  function SortBy<T(==,!new), K>(s: seq<T>, key: T -> K, le: (K, K) -> bool): (r: seq<T>)
    ensures multiset(r) == multiset(s)
    ensures |r| == |s|
    decreases |s|
  {
    if s == [] then []
    else
      assert s == [s[0]] + s[1..];
      Insert(s[0], SortBy(s[1..], key, le), key, le)
  }

  lemma {:induction false} InsertSorted<T(!new), K(!new)>(x: T, s: seq<T>, key: T -> K, le: (K, K) -> bool)
    requires TotalPreorder(le)
    requires Sorted(s, key, le)
    ensures Sorted(Insert(x, s, key, le), key, le)
    decreases |s|
  {
    if s != [] && !le(key(x), key(s[0])) {
      var tail := Insert(x, s[1..], key, le);
      InsertSorted(x, s[1..], key, le);
      forall j | 0 <= j < |tail| ensures le(key(s[0]), key(tail[j])) {
        assert tail[j] in tail;
        if tail[j] == x {
          assert le(key(x), key(s[0])) || le(key(s[0]), key(x));
        } else {
          var k :| 0 <= k < |s[1..]| && s[1..][k] == tail[j];
          assert s[k + 1] == tail[j];
        }
      }
      var r := [s[0]] + tail;
      assert Insert(x, s, key, le) == r;
      forall a, b | 0 <= a < b < |r| ensures le(key(r[a]), key(r[b])) {
        assert r[b] == tail[b - 1];
        if a > 0 {
          assert r[a] == tail[a - 1];
        }
      }
    } else if s != [] {
      forall j | 0 <= j < |s| ensures le(key(x), key(s[j])) {
        if j > 0 { assert le(key(s[0]), key(s[j])); }
      }
    }
  }

  /** Sorting by a total preorder yields a sorted permutation. */
  lemma {:induction false} SortBySorted<T(!new), K(!new)>(s: seq<T>, key: T -> K, le: (K, K) -> bool)
    requires TotalPreorder(le)
    ensures Sorted(SortBy(s, key, le), key, le)
    decreases |s|
  {
    if s != [] {
      SortBySorted(s[1..], key, le);
      InsertSorted(s[0], SortBy(s[1..], key, le), key, le);
    }
  }

  /** Where a page starts: pages are numbered from 1, and a page below 1 reads as page 1. */
  function PageStart(page: int, size: nat): (skip: nat)
    ensures page > 0 ==> skip == (page - 1) * size
    ensures page <= 0 ==> skip == 0
  {
    if page > 0 then (page - 1) * size else 0
  }

  /** Consecutive pages abut: page `page + 1` starts where page `page` ends. */
  lemma PagesAbut(page: int, size: nat)
    requires page >= 1
    ensures PageStart(page + 1, size) == PageStart(page, size) + size
  {
  }

  /** `Skip(skip).Take(take)`: a negative skip skips nothing, a negative take takes nothing. */
  function Window<T>(s: seq<T>, skip: int, take: int): (r: seq<T>)
    ensures |r| <= (if take < 0 then 0 else take)
    ensures var start := if skip > 0 then skip else 0;
            && (forall i :: 0 <= i < |r| ==> start + i < |s| && r[i] == s[start + i])
            && (take >= 0 ==> |r| == take || start + |r| >= |s|)
  {
    var rest := if skip <= 0 then s else if skip >= |s| then [] else s[skip..];
    if take <= 0 then [] else if take >= |rest| then rest else rest[..take]
  }

  /** Page `page` of `s` in pages of `size`: the run of at most `size` rows from the page's start. */
  function Page<T>(s: seq<T>, page: int, size: nat): (r: seq<T>)
    ensures |r| <= size
    ensures forall i :: 0 <= i < |r| ==> PageStart(page, size) + i < |s| && r[i] == s[PageStart(page, size) + i]
    ensures |r| == size || PageStart(page, size) + |r| >= |s|
    ensures forall x :: x in r ==> x in s
  {
    var r := Window(s, PageStart(page, size), size);
    assert forall x :: x in r ==> exists i :: 0 <= i < |r| && r[i] == x;
    r
  }
}
