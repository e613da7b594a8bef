/**
 Rearrangements of sequences: permutations, distinctness and the uniqueness of sorting.
 */
module Sequences {
  predicate Distinct<T(==)>(s: seq<T>) { forall i, j | 0 <= i < j < |s| :: s[i] != s[j] }

  function Map<A, B>(f: A -> B, s: seq<A>): (r: seq<B>)
    ensures |r| == |s| && forall i | 0 <= i < |s| :: r[i] == f(s[i])
  {
    seq(|s|, i requires 0 <= i < |s| => f(s[i]))
  }

  function Without<T>(s: seq<T>, k: nat): seq<T>
    requires k < |s|
  {
    s[..k] + s[k + 1..]
  }

  lemma TakingOne<T>(s: seq<T>, k: nat)
    requires k < |s|
    ensures multiset(s) == multiset(Without(s, k)) + multiset{s[k]}
  {
    assert s == s[..k] + [s[k]] + s[k + 1..];
  }

  lemma MapWithout<A, B>(f: A -> B, s: seq<A>, k: nat)
    requires k < |s|
    ensures Map(f, Without(s, k)) == Without(Map(f, s), k)
  {
  }

  lemma {:induction false} MapPermutes<A, B>(f: A -> B, a: seq<A>, b: seq<A>)
    requires multiset(a) == multiset(b)
    ensures multiset(Map(f, a)) == multiset(Map(f, b))
    decreases |a|
  {
    assert |a| == |multiset(a)| == |multiset(b)| == |b|;
    if a != [] {
      assert a[0] in multiset(b);
      var k :| 0 <= k < |b| && b[k] == a[0];
      TakingOne(a, 0);
      TakingOne(b, k);
      assert multiset(Without(a, 0)) == multiset(a) - multiset{a[0]} == multiset(Without(b, k));
      hide Map, Without;
      MapPermutes(f, Without(a, 0), Without(b, k));
      TakingOne(Map(f, a), 0);
      TakingOne(Map(f, b), k);
      MapWithout(f, a, 0);
      MapWithout(f, b, k);
    }
  }

  /** Rearranging keeps elements distinct. */
  lemma PermutedIsDistinct<T>(a: seq<T>, b: seq<T>)
    requires multiset(a) == multiset(b) && Distinct(a)
    ensures Distinct(b)
  {
    forall i, j | 0 <= i < j < |b|
      ensures b[i] != b[j]
    {
      if b[i] == b[j] {
        TwiceInPermutation(a, b, i, j);
      }
    }
  }

  lemma TwiceInPermutation<T>(a: seq<T>, b: seq<T>, i: nat, j: nat)
    requires multiset(a) == multiset(b) && i < j < |b| && b[i] == b[j]
    ensures !Distinct(a)
  {
    TakingOne(b, j);
    assert b[i] == Without(b, j)[i] && b[i] in multiset(Without(b, j));
    assert multiset(a)[b[i]] >= 2;
    assert b[i] in multiset(a);
    var k :| 0 <= k < |a| && a[k] == b[i];
    TakingOne(a, k);
    assert b[i] in multiset(Without(a, k));
    var m :| 0 <= m < |Without(a, k)| && Without(a, k)[m] == b[i];
    if m < k {
      assert a[m] == a[k];
    } else {
      assert a[m + 1] == a[k];
    }
  }

  lemma {:induction false} DistinctIsSet<T(!new)>(s: seq<T>)
    requires Distinct(s)
    ensures multiset(s) == multiset(set x | x in s) && |set x | x in s| == |s|
    decreases |s|
  {
    if s != [] {
      var front, last := s[..|s| - 1], s[|s| - 1];
      assert s == front + [last];
      DistinctIsSet(front);
      assert (set x | x in s) == (set x | x in front) + {last};
      assert last !in front;
    }
  }

  lemma SubsetOfEqualSize<T>(a: set<T>, b: set<T>)
    requires a <= b && |a| == |b|
    ensures a == b
  {
    assert b == a + (b - a) && |b| == |a| + |b - a|;
  }

  // -------------------------------------------------------------------- sorting

  type Sorter<!T> = seq<T> -> seq<T>

  ghost predicate Ordered<T(!new)>(s: seq<T>, less: (T, T) -> bool) {
    forall i, j | 0 <= i < j < |s| :: !less(s[j], s[i])
  }

  ghost predicate Sorts<T(!new)>(sort: Sorter<T>, less: (T, T) -> bool) {
    forall s :: multiset(sort(s)) == multiset(s) && Ordered(sort(s), less)
  }

  lemma SameHead<T(!new)>(a: seq<T>, b: seq<T>, less: (T, T) -> bool)
    requires a != [] && b != [] && multiset(a) == multiset(b) && Ordered(a, less) && Ordered(b, less)
    requires forall x, y | x in a && y in a && x != y :: less(x, y) || less(y, x)
    ensures a[0] == b[0]
  {
    assert a[0] in multiset(b) && b[0] in multiset(a);
    var i :| 0 <= i < |a| && a[i] == b[0];
    var j :| 0 <= j < |b| && b[j] == a[0];
    assert i > 0 ==> !less(a[i], a[0]);
    assert j > 0 ==> !less(b[j], b[0]);
  }

  lemma TailPermutes<T>(a: seq<T>, b: seq<T>)
    requires a != [] && b != [] && a[0] == b[0] && multiset(a) == multiset(b)
    ensures multiset(a[1..]) == multiset(b[1..])
  {
    assert a == [a[0]] + a[1..] && b == [b[0]] + b[1..];
    assert multiset(a[1..]) == multiset(a) - multiset{a[0]};
    assert multiset(b[1..]) == multiset(b) - multiset{b[0]};
  }

  lemma TailIsOrdered<T(!new)>(a: seq<T>, less: (T, T) -> bool)
    requires a != [] && Ordered(a, less)
    ensures Ordered(a[1..], less)
  {
  }

  /** Two ordered arrangements of the same elements agree when the order tells different elements apart. */
  lemma {:induction false} SortIsUnique<T(!new)>(a: seq<T>, b: seq<T>, less: (T, T) -> bool)
    requires multiset(a) == multiset(b) && Ordered(a, less) && Ordered(b, less)
    requires forall x, y | x in a && y in a && x != y :: less(x, y) || less(y, x)
    ensures a == b
    decreases |a|
  {
    assert |a| == |multiset(a)| == |multiset(b)| == |b|;
    if a != [] {
      SameHead(a, b, less);
      TailPermutes(a, b);
      TailIsOrdered(a, less);
      TailIsOrdered(b, less);
      hide Ordered;
      assert forall x | x in a[1..] :: x in a;
      SortIsUnique(a[1..], b[1..], less);
      assert a == [a[0]] + a[1..] && b == [b[0]] + b[1..];
    }
  }

  function Insert<T>(x: T, s: seq<T>, less: (T, T) -> bool): seq<T> {
    if s == [] then [x] else if less(s[0], x) then [s[0]] + Insert(x, s[1..], less) else [x] + s
  }

  function InsertionSort<T>(s: seq<T>, less: (T, T) -> bool): seq<T> {
    if s == [] then [] else Insert(s[0], InsertionSort(s[1..], less), less)
  }

  function InsertionSorter<T>(less: (T, T) -> bool): Sorter<T> { s => InsertionSort(s, less) }

  ghost predicate PassesOn<T(!new)>(less: (T, T) -> bool) { forall a, b, c :: less(c, a) ==> less(b, a) || less(c, b) }

  ghost predicate OneWay<T(!new)>(less: (T, T) -> bool) { forall a, b :: less(a, b) ==> !less(b, a) }

  lemma {:induction false} InsertAdds<T>(x: T, s: seq<T>, less: (T, T) -> bool)
    ensures multiset(Insert(x, s, less)) == multiset(s) + multiset{x}
    decreases |s|
  {
    if s != [] && less(s[0], x) {
      InsertAdds(x, s[1..], less);
      assert s == [s[0]] + s[1..];
    }
  }

  lemma {:induction false} InsertKeepsOrder<T(!new)>(x: T, s: seq<T>, less: (T, T) -> bool)
    requires Ordered(s, less) && PassesOn(less) && OneWay(less)
    ensures Ordered(Insert(x, s, less), less)
    decreases |s|
  {
    if s != [] && less(s[0], x) {
      var rest := Insert(x, s[1..], less);
      InsertKeepsOrder(x, s[1..], less);
      InsertAdds(x, s[1..], less);
      forall j | 0 <= j < |rest|
        ensures !less(rest[j], s[0])
      {
        assert rest[j] in multiset(rest);
        assert rest[j] == x || rest[j] in multiset(s[1..]);
      }
    } else {
      forall j | 0 <= j < |s|
        ensures !less(s[j], x)
      {
      }
    }
  }

  lemma {:induction false} InsertionSortSorts<T(!new)>(s: seq<T>, less: (T, T) -> bool)
    requires PassesOn(less) && OneWay(less)
    ensures multiset(InsertionSort(s, less)) == multiset(s) && Ordered(InsertionSort(s, less), less)
    decreases |s|
  {
    if s != [] {
      InsertionSortSorts(s[1..], less);
      InsertKeepsOrder(s[0], InsertionSort(s[1..], less), less);
      InsertAdds(s[0], InsertionSort(s[1..], less), less);
      assert s == [s[0]] + s[1..];
    }
  }

  lemma InsertionSorts<T(!new)>(less: (T, T) -> bool)
    requires PassesOn(less) && OneWay(less)
    ensures Sorts(InsertionSorter(less), less)
  {
    forall s: seq<T>
      ensures multiset(InsertionSorter(less)(s)) == multiset(s) && Ordered(InsertionSorter(less)(s), less)
    {
      InsertionSortSorts(s, less);
    }
  }
}
