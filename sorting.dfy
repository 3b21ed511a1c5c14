/** OrderBy / OrderByDescending / ThenBy, GroupBy with Count, and
    Distinct().OrderBy() as the services use them. Every ordering a query
    uses is a total preorder on its rows; the result is sorted by it and is a
    permutation of the input. */
module Sorting {
  import opened Common

  /** `le` orders every pair of values and is transitive. */
  ghost predicate TotalPreorder<T(!new)>(le: (T, T) -> bool) {
    (forall a, b :: le(a, b) || le(b, a))
    && (forall a, b, c :: le(a, b) && le(b, c) ==> le(a, c))
  }

  predicate SortedBy<T>(s: seq<T>, le: (T, T) -> bool) {
    forall i, j :: 0 <= i < j < |s| ==> le(s[i], s[j])
  }

  /** Inserts `x` before the first element it precedes. */
  function InsertBy<T(!new)>(x: T, s: seq<T>, le: (T, T) -> bool): (r: seq<T>)
    requires TotalPreorder(le) && SortedBy(s, le)
    ensures SortedBy(r, le)
    ensures multiset(r) == multiset(s) + multiset{x}
  {
    if s == [] then [x]
    else if le(x, s[0]) then
      InsertFront(x, s, le);
      [x] + s
    else
      var rest := InsertBy(x, s[1..], le);
      InsertBehind(x, s, rest, le);
      [s[0]] + rest
  }

  /** `x` goes in front of a sorted list whose head it precedes. */
  lemma InsertFront<T(!new)>(x: T, s: seq<T>, le: (T, T) -> bool)
    requires TotalPreorder(le) && SortedBy(s, le) && s != [] && le(x, s[0])
    ensures SortedBy([x] + s, le)
  {
    forall j | 0 < j < |[x] + s| ensures le(([x] + s)[0], ([x] + s)[j]) {
      if j > 1 {
        assert le(s[0], s[j - 1]);
      }
    }
  }

  /** The head stays in front when `x` is inserted further on. */
  lemma InsertBehind<T(!new)>(x: T, s: seq<T>, rest: seq<T>, le: (T, T) -> bool)
    requires TotalPreorder(le) && SortedBy(s, le) && s != [] && !le(x, s[0])
    requires SortedBy(rest, le) && multiset(rest) == multiset(s[1..]) + multiset{x}
    ensures SortedBy([s[0]] + rest, le)
    ensures multiset([s[0]] + rest) == multiset(s) + multiset{x}
  {
    assert s == [s[0]] + s[1..];
    forall j | 0 <= j < |rest| ensures le(s[0], rest[j]) {
      assert rest[j] in multiset(rest);
      if rest[j] != x {
        assert rest[j] in multiset(s[1..]);
        assert rest[j] in s[1..];
      }
    }
  }

  /** `s.OrderBy(..)` for the ordering `le` (an insertion sort). */
  function SortBy<T(!new)>(s: seq<T>, le: (T, T) -> bool): (r: seq<T>)
    requires TotalPreorder(le)
    ensures SortedBy(r, le)
    ensures multiset(r) == multiset(s)
  {
    if s == [] then []
    else
      assert s == [s[0]] + s[1..];
      InsertBy(s[0], SortBy(s[1..], le), le)
  }

  /** A sorted permutation keeps the length and the elements of its input. */
  lemma SortByKeepsElements<T(!new)>(s: seq<T>, le: (T, T) -> bool)
    requires TotalPreorder(le)
    ensures |SortBy(s, le)| == |s|
    ensures forall x :: x in SortBy(s, le) <==> x in s
  {
    var r := SortBy(s, le);
    assert |r| == |multiset(r)| == |multiset(s)| == |s|;
    forall x ensures x in r <==> x in s {
      assert x in r <==> x in multiset(r);
      assert x in s <==> x in multiset(s);
    }
  }

  predicate StrictlyIncreasing(s: seq<int>) {
    forall i, j :: 0 <= i < j < |s| ==> s[i] < s[j]
  }

  /** Inserts `x` into an increasing sequence unless it is already there. */
  function InsertDistinct(x: int, s: seq<int>): (r: seq<int>)
    requires StrictlyIncreasing(s)
    ensures StrictlyIncreasing(r)
    ensures forall y :: y in r <==> y == x || y in s
  {
    if s == [] then [x]
    else if x < s[0] then [x] + s
    else if x == s[0] then s
    else
      var t := InsertDistinct(x, s[1..]);
      assert forall j :: 0 <= j < |t| ==> s[0] < t[j] by {
        forall j | 0 <= j < |t| ensures s[0] < t[j] {
          assert t[j] in t;
          if t[j] != x {
            var k :| 0 <= k < |s[1..]| && s[1..][k] == t[j];
            assert s[k + 1] == t[j];
          }
        }
      }
      [s[0]] + t
  }

  /** `s.Distinct().OrderBy(d => d)`: each value once, ascending. */
  function SortedDistinct(s: seq<int>): (r: seq<int>)
    ensures StrictlyIncreasing(r)
    ensures forall y :: y in r <==> y in s
  {
    if s == [] then [] else InsertDistinct(s[0], SortedDistinct(s[1..]))
  }

  /** Only one ascending duplicate-free sequence holds a given set of values,
      so Distinct().OrderBy() has a single possible result whatever order
      the rows arrive in. */
  lemma {:induction false} StrictlyIncreasingUnique(a: seq<int>, b: seq<int>)
    requires StrictlyIncreasing(a) && StrictlyIncreasing(b)
    requires forall y :: y in a <==> y in b
    ensures a == b
  {
    if a != [] && b != [] {
      assert a[0] == b[0] by {
        assert a[0] in a && b[0] in b;
        assert a[0] in b && b[0] in a;
      }
      forall y ensures y in a[1..] <==> y in b[1..] {
        if y in a[1..] {
          assert y in b && y != b[0];
        }
        if y in b[1..] {
          assert y in a && y != a[0];
        }
      }
      StrictlyIncreasingUnique(a[1..], b[1..]);
      assert a == [a[0]] + a[1..] && b == [b[0]] + b[1..];
    } else if a == [] {
      EmptyIffNoElements(b);
      assert forall y :: y !in b;
    } else {
      EmptyIffNoElements(a);
      assert forall y :: y !in a;
    }
  }

  lemma EmptyIffNoElements<T>(s: seq<T>)
    ensures s == [] <==> forall y :: y !in s
  {
    if s != [] {
      assert s[0] in s;
    }
  }

  /** `s.Distinct()`: each value once, in order of first appearance. */
  function Distinct<T(==,!new)>(s: seq<T>): (r: seq<T>)
    ensures forall x :: x in r <==> x in s
    ensures forall i, j :: 0 <= i < j < |r| ==> r[i] != r[j]
    decreases |s|
  {
    if s == [] then []
    else
      var rest := Distinct(Without(s[1..], s[0]));
      assert forall j :: 0 <= j < |rest| ==> rest[j] != s[0] by {
        forall j | 0 <= j < |rest| ensures rest[j] != s[0] {
          assert rest[j] in rest;
        }
      }
      [s[0]] + rest
  }

  /** `s` with every occurrence of `x` removed. */
  function Without<T(==,!new)>(s: seq<T>, x: T): (r: seq<T>)
    ensures |r| <= |s|
    ensures forall y :: y in r <==> y in s && y != x
  {
    if s == [] then []
    else if s[0] == x then Without(s[1..], x)
    else [s[0]] + Without(s[1..], x)
  }

  /** How many elements of `s` equal `x`: `g.Count()` for the group of `x`. */
  function CountOf<T(==,!new)>(s: seq<T>, x: T): nat {
    multiset(s)[x]
  }

  /** Removing every `x` leaves the count of any other value alone and drops
      exactly the occurrences of `x`. */
  lemma {:induction false} WithoutCounts<T(!new)>(s: seq<T>, x: T, y: T)
    ensures CountOf(Without(s, x), y) == if y == x then 0 else CountOf(s, y)
    ensures |Without(s, x)| == |s| - CountOf(s, x)
  {
    if s != [] {
      assert s == [s[0]] + s[1..];
      WithoutCounts(s[1..], x, y);
    }
  }

  /** The group counts of `s.GroupBy(k)` add up to the number of rows. */
  lemma {:induction false} GroupCountsSum<T(!new)>(s: seq<T>)
    ensures SumBy(Distinct(s), (k: T) => CountOf(s, k)) == |s|
    decreases |s|
  {
    if s != [] {
      var rest := Without(s[1..], s[0]);
      var d := Distinct(rest);
      assert Distinct(s) == [s[0]] + d;
      GroupCountsSum(rest);
      assert |rest| == |s[1..]| - CountOf(s[1..], s[0]) by {
        WithoutCounts(s[1..], s[0], s[0]);
      }
      assert s == [s[0]] + s[1..];
      assert CountOf(s, s[0]) == 1 + CountOf(s[1..], s[0]);
      SumBySameOn(d, (k: T) => CountOf(s, k), (k: T) => CountOf(rest, k), s[0], s);
    }
  }

  /** On a list that does not hold `x`, counting in `s` and counting in `s`
      without its head `x` agree. */
  lemma {:induction false} SumBySameOn<T(!new)>(d: seq<T>, f: T -> int, g: T -> int, x: T, s: seq<T>)
    requires s != [] && x == s[0]
    requires forall k :: f(k) == CountOf(s, k)
    requires forall k :: g(k) == CountOf(Without(s[1..], x), k)
    requires x !in d
    ensures SumBy(d, f) == SumBy(d, g)
  {
    if d != [] {
      assert s == [s[0]] + s[1..];
      WithoutCounts(s[1..], x, d[0]);
      SumBySameOn(d[1..], f, g, x, s);
    }
  }
}
