/** Helpers shared by every service: optional values, keys, money, 32-bit
    integers, and the list operations the LINQ queries are built from
    (Where, Select, FirstOrDefault, Count, Sum). */
module Common {

  /** A value that may be absent: `null` for a reference, `T?` for a value type. */
  datatype Option<+T> = None | Some(value: T) {
    /** `x ?? d` */
    function GetOr(d: T): T {
      match this
      case Some(v) => v
      case None => d
    }
  }

  /** The outcome of a step that may fail with a message. */
  datatype Result<T> = Ok(value: T) | Err(error: string)

  /** A Guid primary or foreign key; only equality matters. */
  type Guid = nat

  /** A decimal(18,2) amount, counted in hundredths. */
  type Cents = int

  const MinInt32: int := -0x8000_0000
  const MaxInt32: int := 0x7fff_ffff

  /** C#'s `int`. */
  type Int32 = x: int | MinInt32 <= x <= MaxInt32

  /** Unchecked 32-bit arithmetic (C#'s default context): `x` wrapped into the
      Int32 range. */
  function Wrap32(x: int): (r: Int32)
    ensures (r - x) % 0x1_0000_0000 == 0
    ensures MinInt32 <= x <= MaxInt32 ==> r == x
  {
    var k := (x - MinInt32) / 0x1_0000_0000;
    x - k * 0x1_0000_0000
  }

  /** `s.Where(p)`, keeping the order of `s`. */
  function Filter<T(!new)>(s: seq<T>, p: T -> bool): (r: seq<T>)
    ensures |r| <= |s|
    ensures forall x :: x in r <==> x in s && p(x)
    ensures forall i :: 0 <= i < |r| ==> p(r[i])
  {
    if s == [] then []
    else if p(s[0]) then [s[0]] + Filter(s[1..], p)
    else Filter(s[1..], p)
  }

  /** Where distributes over concatenation, so a table that grows by one row
      grows its filtered view by at most that row. */
  lemma {:induction false} FilterAppend<T(!new)>(s: seq<T>, t: seq<T>, p: T -> bool)
    ensures Filter(s + t, p) == Filter(s, p) + Filter(t, p)
  {
    if s != [] {
      assert (s + t)[0] == s[0];
      assert (s + t)[1..] == s[1..] + t;
      FilterAppend(s[1..], t, p);
      if p(s[0]) {
        calc {
          Filter(s + t, p);
          [s[0]] + Filter(s[1..] + t, p);
          [s[0]] + (Filter(s[1..], p) + Filter(t, p));
          ([s[0]] + Filter(s[1..], p)) + Filter(t, p);
        }
      }
    } else {
      assert s + t == t;
    }
  }

  /** The multiset of a filtered sequence is the filtered multiset. */
  lemma {:induction false} FilterCount<T(!new)>(s: seq<T>, p: T -> bool, x: T)
    ensures multiset(Filter(s, p))[x] == if p(x) then multiset(s)[x] else 0
  {
    if s != [] {
      assert s == [s[0]] + s[1..];
      FilterCount(s[1..], p, x);
    }
  }

  /** Where depends only on the predicate's values on the elements. */
  lemma {:induction false} FilterSamePredicate<T(!new)>(s: seq<T>, p: T -> bool, q: T -> bool)
    requires forall x :: x in s ==> p(x) == q(x)
    ensures Filter(s, p) == Filter(s, q)
  {
    if s != [] {
      assert forall x :: x in s[1..] ==> x in s;
      FilterSamePredicate(s[1..], p, q);
    }
  }

  /** Where keeps the keys of a table unique. */
  lemma {:induction false} FilterKeepsUniqueKeys<T(!new)>(s: seq<T>, p: T -> bool, key: T -> Guid)
    requires UniqueKeys(s, key)
    ensures UniqueKeys(Filter(s, p), key)
  {
    if s != [] {
      var rest := Filter(s[1..], p);
      FilterKeepsUniqueKeys(s[1..], p, key);
      if p(s[0]) {
        forall j | 0 <= j < |rest| ensures key(rest[j]) != key(s[0]) {
          assert rest[j] in s[1..];
          var k :| 0 <= k < |s[1..]| && s[1..][k] == rest[j];
          assert s[k + 1] == rest[j];
        }
      }
    }
  }

  /** `s.Select(f)`. */
  function Map<T, U>(s: seq<T>, f: T -> U): (r: seq<U>)
    ensures |r| == |s|
    ensures forall i :: 0 <= i < |s| ==> r[i] == f(s[i])
  {
    seq(|s|, i requires 0 <= i < |s| => f(s[i]))
  }

  /** Mapping two orderings of the same elements gives two orderings of the
      same results. */
  lemma {:induction false} MapPermutation<T, U>(a: seq<T>, b: seq<T>, f: T -> U)
    requires multiset(a) == multiset(b)
    ensures multiset(Map(a, f)) == multiset(Map(b, f))
    decreases |a|
  {
    if a == [] {
      assert |b| == |multiset(b)| == 0;
    } else {
      var j := IndexOf(b, a[0]);
      var rest := b[..j] + b[j + 1..];
      RemoveAt(b, j);
      MapCons(a, f);
      MultisetCancel(multiset(a[1..]), multiset(rest), a[0]);
      MapPermutation(a[1..], rest, f);
      MapRemoveAt(b, j, f);
    }
  }

  /** Select of a non-empty list: the first result, then the rest. */
  lemma MapCons<T, U>(s: seq<T>, f: T -> U)
    requires s != []
    ensures multiset(s) == multiset(s[1..]) + multiset{s[0]}
    ensures multiset(Map(s, f)) == multiset(Map(s[1..], f)) + multiset{f(s[0])}
  {
    assert s == [s[0]] + s[1..];
    assert Map(s, f) == [f(s[0])] + Map(s[1..], f);
  }

  /** A position of an element of the multiset of `s`. */
  lemma IndexOf<T>(s: seq<T>, x: T) returns (j: nat)
    requires x in multiset(s)
    ensures j < |s| && s[j] == x
  {
    assert x in s;
    j :| j < |s| && s[j] == x;
  }

  /** One occurrence of `x` on both sides cancels. */
  lemma MultisetCancel<T>(left: multiset<T>, right: multiset<T>, x: T)
    requires left + multiset{x} == right + multiset{x}
    ensures left == right
  {
    forall y ensures left[y] == right[y] {
      assert (left + multiset{x})[y] == (right + multiset{x})[y];
    }
  }

  /** Removing the element at `j` removes one occurrence of it. */
  lemma RemoveAt<T>(s: seq<T>, j: nat)
    requires j < |s|
    ensures multiset(s) == multiset(s[..j] + s[j + 1..]) + multiset{s[j]}
  {
    assert s == s[..j] + [s[j]] + s[j + 1..];
    assert multiset(s) == multiset(s[..j]) + multiset{s[j]} + multiset(s[j + 1..]);
  }

  /** Mapping commutes with removing the element at `j`. */
  lemma MapRemoveAt<T, U>(s: seq<T>, j: nat, f: T -> U)
    requires j < |s|
    ensures multiset(Map(s, f)) == multiset(Map(s[..j] + s[j + 1..], f)) + multiset{f(s[j])}
  {
    var m := Map(s, f);
    assert Map(s[..j] + s[j + 1..], f) == m[..j] + m[j + 1..];
    RemoveAt(m, j);
  }

  /** The index of the first element satisfying `p`, as FirstOrDefault or
      FindAsync locates a row. */
  function FirstIndex<T>(s: seq<T>, p: T -> bool): (r: Option<nat>)
    ensures r.Some? ==> r.value < |s| && p(s[r.value])
    ensures r.Some? ==> forall j :: 0 <= j < r.value ==> !p(s[j])
    ensures r.None? <==> forall j :: 0 <= j < |s| ==> !p(s[j])
  {
    if s == [] then None
    else if p(s[0]) then Some(0)
    else match FirstIndex(s[1..], p)
      case None => None
      case Some(k) => Some(k + 1)
  }

  /** `s.FirstOrDefault(p)`. */
  function FindFirst<T(!new)>(s: seq<T>, p: T -> bool): (r: Option<T>)
    ensures r.Some? ==> r.value in s && p(r.value)
    ensures r.None? <==> forall x :: x in s ==> !p(x)
  {
    match FirstIndex(s, p)
    case None => None
    case Some(i) => Some(s[i])
  }

  /** No two rows of a table share a key. */
  ghost predicate UniqueKeys<T>(s: seq<T>, key: T -> Guid) {
    forall i, j :: 0 <= i < j < |s| ==> key(s[i]) != key(s[j])
  }

  /** `s.Sum(f)`. */
  function SumBy<T>(s: seq<T>, f: T -> int): int {
    if s == [] then 0 else f(s[0]) + SumBy(s[1..], f)
  }

  /** Sum distributes over concatenation; loops that sum a growing prefix use it. */
  lemma {:induction false} SumByAppend<T>(s: seq<T>, t: seq<T>, f: T -> int)
    ensures SumBy(s + t, f) == SumBy(s, f) + SumBy(t, f)
  {
    if s != [] {
      assert (s + t)[1..] == s[1..] + t;
      SumByAppend(s[1..], t, f);
    } else {
      assert s + t == t;
    }
  }

  /** Sums of non-negative terms are non-negative. */
  lemma {:induction false} SumByNonNegative<T>(s: seq<T>, f: T -> int)
    requires forall i :: 0 <= i < |s| ==> f(s[i]) >= 0
    ensures SumBy(s, f) >= 0
  {
    if s != [] {
      SumByNonNegative(s[1..], f);
    }
  }

  /** Two successive Wheres are one Where of the conjunction. */
  lemma {:induction false} FilterFilter<T(!new)>(s: seq<T>, p: T -> bool, q: T -> bool, both: T -> bool)
    requires forall x :: both(x) == (p(x) && q(x))
    ensures Filter(Filter(s, p), q) == Filter(s, both)
  {
    if s != [] {
      FilterFilter(s[1..], p, q, both);
      if p(s[0]) {
        assert Filter(s, p) == [s[0]] + Filter(s[1..], p);
        assert Filter(s, p)[1..] == Filter(s[1..], p);
      }
    }
  }

  /** Summing a Select is summing the composed function. */
  lemma {:induction false} SumByMap<T, U>(s: seq<T>, f: T -> U, g: U -> int)
    ensures SumBy(Map(s, f), g) == SumBy(s, (x: T) => g(f(x)))
  {
    if s != [] {
      assert Map(s, f)[1..] == Map(s[1..], f);
      SumByMap(s[1..], f, g);
    }
  }

  /** `s.Min()` over a non-empty list. */
  function MinOf(s: seq<int>): (r: int)
    requires s != []
    ensures r in s && forall x :: x in s ==> r <= x
  {
    if |s| == 1 then s[0]
    else
      var m := MinOf(s[1..]);
      assert s == [s[0]] + s[1..];
      if s[0] <= m then s[0] else m
  }

  /** `s.Max()` over a non-empty list. */
  function MaxOf(s: seq<int>): (r: int)
    requires s != []
    ensures r in s && forall x :: x in s ==> x <= r
  {
    if |s| == 1 then s[0]
    else
      var m := MaxOf(s[1..]);
      assert s == [s[0]] + s[1..];
      if s[0] >= m then s[0] else m
  }
}
