/** What `sort.Slice` and `sort.Strings` promise: some permutation without inversions. The sort
    is not stable, so only the cases in which that permutation is unique have a canonical result. */
module Sorting {
  import opened GoText

  /** `less` is a strict weak order, which is what sort.Slice asks of its argument. */
  ghost predicate StrictOrder<T(!new)>(less: (T, T) -> bool) {
    && (forall a, b :: less(a, b) ==> !less(b, a))
    && (forall a, b, c :: !less(b, a) && !less(c, b) ==> !less(c, a))
  }

  ghost predicate Ordered<T>(less: (T, T) -> bool, s: seq<T>) {
    forall i, j | 0 <= i < j < |s| :: !less(s[j], s[i])
  }

  /** `r` is a possible outcome of sorting `s`. */
  ghost predicate IsSorting<T>(less: (T, T) -> bool, s: seq<T>, r: seq<T>) {
    multiset(r) == multiset(s) && Ordered(less, r)
  }

  /** No two different elements tie. */
  ghost predicate Separated<T>(less: (T, T) -> bool, s: seq<T>) {
    forall x, y | x in s && y in s && x != y :: less(x, y) || less(y, x)
  }

  lemma {:induction false} SameMembers<T>(a: seq<T>, b: seq<T>)
    requires multiset(a) == multiset(b)
    ensures |a| == |b|
    ensures forall x :: x in a <==> x in b
  {
    assert |multiset(a)| == |multiset(b)|;
    forall x
      ensures x in a <==> x in b
    {
      assert x in a <==> x in multiset(a);
      assert x in b <==> x in multiset(b);
    }
  }

  ghost predicate Distinct<T>(s: seq<T>) {
    forall i, j | 0 <= i < j < |s| :: s[i] != s[j]
  }

  lemma {:induction false} DistinctCounts<T>(s: seq<T>, x: T)
    requires Distinct(s)
    ensures multiset(s)[x] == if x in s then 1 else 0
  {
    if s != [] {
      DistinctCounts(s[..|s| - 1], x);
      assert s == s[..|s| - 1] + [s[|s| - 1]];
    }
  }

  lemma {:induction false} CountsDistinct<T>(s: seq<T>)
    requires forall x | x in s :: multiset(s)[x] <= 1
    ensures Distinct(s)
  {
    forall i, j | 0 <= i < j < |s|
      ensures s[i] != s[j]
    {
      assert s == s[..i] + [s[i]] + s[i + 1..j] + [s[j]] + s[j + 1..];
      assert multiset(s)[s[i]] <= 1;
    }
  }

  /** Lists without repetition that have the same elements are permutations of each other. */
  lemma {:induction false} DistinctSameMembers<T(!new)>(s: seq<T>, t: seq<T>)
    requires Distinct(s) && Distinct(t) && forall x :: x in s <==> x in t
    ensures multiset(s) == multiset(t)
  {
    forall x
      ensures multiset(s)[x] == multiset(t)[x]
    {
      DistinctCounts(s, x);
      DistinctCounts(t, x);
    }
  }

  lemma {:induction false} PermutedDistinct<T(!new)>(s: seq<T>, r: seq<T>)
    requires Distinct(s) && multiset(r) == multiset(s)
    ensures Distinct(r) && forall x :: x in r <==> x in s
  {
    SameMembers(r, s);
    forall x
      ensures multiset(r)[x] <= 1
    {
      DistinctCounts(s, x);
    }
    CountsDistinct(r);
  }

  lemma {:induction false} OrderedTail<T>(less: (T, T) -> bool, s: seq<T>)
    requires s != [] && Ordered(less, s)
    ensures Ordered(less, s[1..])
    ensures forall x | x in s :: x != s[0] ==> !less(x, s[0])
  {
    forall i, j | 0 <= i < j < |s[1..]|
      ensures !less(s[1..][j], s[1..][i])
    {
      assert s[1..][j] == s[j + 1] && s[1..][i] == s[i + 1];
    }
    forall x | x in s && x != s[0]
      ensures !less(x, s[0])
    {
      var k :| 0 <= k < |s| && s[k] == x;
    }
  }

  lemma {:induction false} FirstsAgree<T>(less: (T, T) -> bool, a: seq<T>, b: seq<T>)
    requires multiset(a) == multiset(b) && a != [] && b != []
    requires Ordered(less, a) && Ordered(less, b) && Separated(less, a)
    ensures a[0] == b[0]
    ensures multiset(a[1..]) == multiset(b[1..])
  {
    SameMembers(a, b);
    OrderedTail(less, a);
    OrderedTail(less, b);
    assert a[0] in b && b[0] in a;
    assert a == [a[0]] + a[1..] && b == [b[0]] + b[1..];
    assert multiset(a[1..]) == multiset(a) - multiset{a[0]};
    assert multiset(b[1..]) == multiset(b) - multiset{b[0]};
  }

  /** Sorted permutations of elements that do not tie are equal: the sort is then canonical. */
  lemma {:induction false} SortingUnique<T>(less: (T, T) -> bool, a: seq<T>, b: seq<T>)
    requires multiset(a) == multiset(b)
    requires Ordered(less, a) && Ordered(less, b) && Separated(less, a)
    ensures a == b
    decreases |a|
  {
    SameMembers(a, b);
    if a != [] {
      FirstsAgree(less, a, b);
      OrderedTail(less, a);
      OrderedTail(less, b);
      SortingUnique(less, a[1..], b[1..]);
      assert a == [a[0]] + a[1..] && b == [b[0]] + b[1..];
    }
  }

  // ----- The sort itself -----

  function Insert<T>(less: (T, T) -> bool, x: T, s: seq<T>): seq<T> {
    if s == [] then [x]
    else if less(s[0], x) then [s[0]] + Insert(less, x, s[1..])
    else [x] + s
  }

  function Sort<T>(less: (T, T) -> bool, s: seq<T>): seq<T> {
    if s == [] then [] else Insert(less, s[0], Sort(less, s[1..]))
  }

  lemma {:induction false} InsertSorts<T(!new)>(less: (T, T) -> bool, x: T, s: seq<T>)
    requires StrictOrder(less) && Ordered(less, s)
    ensures multiset(Insert(less, x, s)) == multiset(s) + multiset{x}
    ensures Ordered(less, Insert(less, x, s))
  {
    var r := Insert(less, x, s);
    if s == [] {
    } else if less(s[0], x) {
      OrderedTail(less, s);
      InsertSorts(less, x, s[1..]);
      var rest := Insert(less, x, s[1..]);
      assert s == [s[0]] + s[1..];
      forall j | 0 < j < |r|
        ensures !less(r[j], r[0])
      {
        assert r[j] == rest[j - 1];
        assert rest[j - 1] in multiset(rest);
        if rest[j - 1] != x {
          assert rest[j - 1] in multiset(s[1..]);
          var k :| 0 <= k < |s[1..]| && s[1..][k] == rest[j - 1];
          assert s[k + 1] == r[j];
        }
      }
    } else {
      forall j | 0 < j < |r|
        ensures !less(r[j], r[0])
      {
        assert r[j] == s[j - 1];
        if j > 1 {
          assert !less(s[j - 1], s[0]);
        }
      }
    }
  }

  lemma {:induction false} SortSorts<T(!new)>(less: (T, T) -> bool, s: seq<T>)
    requires StrictOrder(less)
    ensures IsSorting(less, s, Sort(less, s))
  {
    if s != [] {
      SortSorts(less, s[1..]);
      InsertSorts(less, s[0], Sort(less, s[1..]));
      assert s == [s[0]] + s[1..];
    }
  }

  /** sort.Slice: callers learn only that the result is a sorted permutation. */
  method SortSlice<T(!new)>(less: (T, T) -> bool, s: seq<T>) returns (r: seq<T>)
    requires StrictOrder(less)
    ensures IsSorting(less, s, r)
  {
    r := [];
    var i := 0;
    while i < |s|
      invariant 0 <= i <= |s|
      invariant IsSorting(less, s[..i], r)
    {
      InsertSorts(less, s[i], r);
      r := Insert(less, s[i], r);
      assert s[..i + 1] == s[..i] + [s[i]];
      i := i + 1;
    }
    assert s[..i] == s;
  }

  /** Sorting permuted input gives the same list, and sorting twice adds nothing. */
  lemma {:induction false} SortCanonical<T(!new)>(less: (T, T) -> bool, a: seq<T>, b: seq<T>)
    requires StrictOrder(less) && multiset(a) == multiset(b) && Separated(less, a)
    ensures Sort(less, a) == Sort(less, b)
    ensures Sort(less, Sort(less, a)) == Sort(less, a)
  {
    SortSorts(less, a);
    SortSorts(less, b);
    SameMembers(a, Sort(less, a));
    SortingUnique(less, Sort(less, a), Sort(less, b));
    SortSorts(less, Sort(less, a));
    SortingUnique(less, Sort(less, a), Sort(less, Sort(less, a)));
  }

  /** When nothing ties, whatever the sort returns is the canonical list. */
  lemma {:induction false} SortingIsSort<T(!new)>(less: (T, T) -> bool, s: seq<T>, r: seq<T>)
    requires StrictOrder(less) && Separated(less, s) && IsSorting(less, s, r)
    ensures r == Sort(less, s)
  {
    SortSorts(less, s);
    SameMembers(s, r);
    SortingUnique(less, r, Sort(less, s));
  }

  /** Replacing elements by others that tie with them keeps a list sorted. */
  lemma {:induction false} TiesKeepOrder<T(!new)>(less: (T, T) -> bool, r: seq<T>, t: seq<T>)
    requires StrictOrder(less) && Ordered(less, r) && |r| == |t|
    requires forall k | 0 <= k < |r| :: !less(r[k], t[k]) && !less(t[k], r[k])
    ensures Ordered(less, t)
  {
    forall i, j | 0 <= i < j < |t|
      ensures !less(t[j], t[i])
    {
      assert !less(r[j], r[i]) && !less(t[i], r[i]) && !less(r[i], t[i]);
      assert !less(r[j], t[i]);
    }
  }

  /** As soon as two different elements tie, sorting has two possible outcomes. */
  lemma {:induction false} TiesAreAmbiguous<T(!new)>(less: (T, T) -> bool, s: seq<T>, x: T, y: T)
    returns (r1: seq<T>, r2: seq<T>)
    requires StrictOrder(less) && x in s && y in s && x != y && !less(x, y) && !less(y, x)
    ensures IsSorting(less, s, r1) && IsSorting(less, s, r2) && r1 != r2
  {
    SortSorts(less, s);
    r1 := Sort(less, s);
    SameMembers(s, r1);
    var i :| 0 <= i < |r1| && r1[i] == x;
    var j :| 0 <= j < |r1| && r1[j] == y;
    r2 := r1[i := y][j := x];
    TiesKeepOrder(less, r1, r2);
    assert r2[i] != r1[i];
    assert multiset(r1[i := y]) == multiset(r1) - multiset{x} + multiset{y};
  }

  /** Sorting is canonical exactly when no two different elements tie. */
  lemma {:induction false} SortingCanonicalIff<T(!new)>(less: (T, T) -> bool, s: seq<T>)
    requires StrictOrder(less)
    ensures (forall r1, r2 | IsSorting(less, s, r1) && IsSorting(less, s, r2) :: r1 == r2) <==> Separated(less, s)
  {
    if Separated(less, s) {
      forall r1, r2 | IsSorting(less, s, r1) && IsSorting(less, s, r2)
        ensures r1 == r2
      {
        SortingIsSort(less, s, r1);
        SortingIsSort(less, s, r2);
      }
    } else {
      var x, y :| x in s && y in s && x != y && !less(x, y) && !less(y, x);
      var r1, r2 := TiesAreAmbiguous(less, s, x, y);
    }
  }

  // ----- sort.Strings -----

  lemma {:induction false} StrLessIsOrder()
    ensures StrictOrder(StrLess)
    ensures forall s: seq<string> :: Separated(StrLess, s)
  {
    forall a: string, b: string
      ensures StrLess(a, b) ==> !StrLess(b, a)
      ensures a != b ==> StrLess(a, b) || StrLess(b, a)
    {
      StrLessTrichotomy(a, b);
    }
    forall a: string, b: string, c: string | !StrLess(b, a) && !StrLess(c, b)
      ensures !StrLess(c, a)
    {
      StrLessTrichotomy(a, b);
      StrLessTrichotomy(b, c);
      if StrLess(a, b) && StrLess(b, c) {
        StrLessTransitive(a, b, c);
        StrLessTrichotomy(a, c);
      }
    }
  }
}
