/** The canonicalisers share two shapes: a list is trimmed entry by entry and then sorted, and a
    string map is trimmed while Go ranges over it in an unspecified order. */
module Canonical {
  import opened GoText
  import opened Sorting

  datatype Option<T> = None | Some(value: T)

  // ----- Lists -----

  /** What one entry of a list becomes: an entry, nothing, or a reason to refuse the list. */
  datatype Normal<T> = Keep(value: T) | Skip | Reject

  function Collect<T>(norm: T -> Normal<T>, s: seq<T>): Option<seq<T>> {
    if s == [] then Some([])
    else
      match Collect(norm, s[..|s| - 1])
      case None => None
      case Some(r) =>
        match norm(s[|s| - 1])
        case Keep(v) => Some(r + [v])
        case Skip => Some(r)
        case Reject => None
  }

  function Canon<T>(norm: T -> Normal<T>, less: (T, T) -> bool, s: seq<T>): Option<seq<T>> {
    match Collect(norm, s)
    case None => None
    case Some(r) => Some(Sort(less, r))
  }

  /** Elements that do not tie have one sorted order, so sorting is canonical for them. */
  ghost predicate Total<T(!new)>(less: (T, T) -> bool) {
    StrictOrder(less) && forall x, y :: x != y ==> less(x, y) || less(y, x)
  }

  lemma {:induction false} StrLessTotal()
    ensures Total(StrLess)
  {
    StrLessIsOrder();
    forall x: string, y: string | x != y
      ensures StrLess(x, y) || StrLess(y, x)
    {
      StrLessTrichotomy(x, y);
    }
  }

  /** Entries that the trimming produces are left alone by trimming again. */
  ghost predicate Settles<T(!new)>(norm: T -> Normal<T>) {
    forall x :: norm(x).Keep? ==> norm(norm(x).value) == norm(x)
  }

  lemma {:induction false} CollectFailsIff<T>(norm: T -> Normal<T>, s: seq<T>)
    ensures Collect(norm, s).None? <==> exists x | x in s :: norm(x).Reject?
  {
    if s != [] {
      CollectFailsIff(norm, s[..|s| - 1]);
      assert s == s[..|s| - 1] + [s[|s| - 1]];
    }
  }

  lemma {:induction false} CollectConcat<T>(norm: T -> Normal<T>, a: seq<T>, b: seq<T>)
    ensures Collect(norm, a + b) ==
            if Collect(norm, a).None? || Collect(norm, b).None? then None
            else Some(Collect(norm, a).value + Collect(norm, b).value)
  {
    if b == [] {
      assert a + b == a;
      if Collect(norm, a).Some? {
        assert Collect(norm, a).value + [] == Collect(norm, a).value;
      }
    } else {
      CollectConcat(norm, a, b[..|b| - 1]);
      assert (a + b)[..|a + b| - 1] == a + b[..|b| - 1];
      if Collect(norm, a).Some? && Collect(norm, b).Some? && norm(b[|b| - 1]).Keep? {
        var (x, y, last) := (Collect(norm, a).value, Collect(norm, b[..|b| - 1]).value, [norm(b[|b| - 1]).value]);
        assert x + (y + last) == (x + y) + last;
      }
    }
  }

  /** The entries of `s` without position `k`. */
  function Without<T>(s: seq<T>, k: nat): (r: seq<T>)
    requires k < |s|
    ensures |r| == |s| - 1
  {
    s[..k] + s[k + 1..]
  }

  lemma {:induction false} AtIndex<T>(s: seq<T>, x: T) returns (k: nat)
    requires x in s
    ensures k < |s| && s[k] == x
  {
    k :| k < |s| && s[k] == x;
  }

  lemma {:induction false} WithoutMembers<T>(s: seq<T>, k: nat)
    requires k < |s|
    ensures multiset(Without(s, k)) == multiset(s) - multiset{s[k]}
  {
    assert s == s[..k] + [s[k]] + s[k + 1..];
  }

  lemma {:induction false} CollectWithout<T>(norm: T -> Normal<T>, s: seq<T>, k: nat)
    requires k < |s|
    ensures Collect(norm, s).None? <==> norm(s[k]).Reject? || Collect(norm, Without(s, k)).None?
    ensures Collect(norm, s).Some? ==>
      && Collect(norm, [s[k]]).Some?
      && multiset(Collect(norm, s).value)
        == multiset(Collect(norm, Without(s, k)).value) + multiset(Collect(norm, [s[k]]).value)
  {
    assert s == s[..k] + ([s[k]] + s[k + 1..]);
    CollectConcat(norm, s[..k], [s[k]] + s[k + 1..]);
    CollectConcat(norm, [s[k]], s[k + 1..]);
    CollectConcat(norm, s[..k], s[k + 1..]);
    assert [s[k]][..0] == [];
  }

  lemma {:induction false} CollectPermuted<T>(norm: T -> Normal<T>, a: seq<T>, b: seq<T>)
    requires multiset(a) == multiset(b)
    ensures Collect(norm, a).None? <==> Collect(norm, b).None?
    ensures Collect(norm, a).Some? ==> multiset(Collect(norm, a).value) == multiset(Collect(norm, b).value)
    decreases |a|
  {
    hide Collect, Without;
    SameMembers(a, b);
    if a == [] {
      assert b == [];
    } else {
      var k := AtIndex(b, a[0]);
      WithoutMembers(a, 0);
      WithoutMembers(b, k);
      CollectWithout(norm, a, 0);
      CollectWithout(norm, b, k);
      CollectPermuted(norm, Without(a, 0), Without(b, k));
    }
  }

  /** Permuting the input leaves the canonical list, and the refusal, unchanged. */
  lemma {:induction false} CanonPermuted<T(!new)>(norm: T -> Normal<T>, less: (T, T) -> bool, a: seq<T>, b: seq<T>)
    requires multiset(a) == multiset(b) && Total(less)
    ensures Canon(norm, less, a) == Canon(norm, less, b)
  {
    CollectPermuted(norm, a, b);
    if Collect(norm, a).Some? {
      SortCanonical(less, Collect(norm, a).value, Collect(norm, b).value);
    }
  }

  lemma {:induction false} CollectSettled<T>(norm: T -> Normal<T>, s: seq<T>)
    requires forall x | x in s :: norm(x) == Keep(x)
    ensures Collect(norm, s) == Some(s)
  {
    if s != [] {
      CollectSettled(norm, s[..|s| - 1]);
      assert s == s[..|s| - 1] + [s[|s| - 1]];
    }
  }

  lemma {:induction false} CollectedAreNormal<T>(norm: T -> Normal<T>, s: seq<T>)
    requires Collect(norm, s).Some?
    ensures forall y | y in Collect(norm, s).value :: exists x | x in s :: norm(x) == Keep(y)
  {
    if s != [] {
      var init, last := s[..|s| - 1], s[|s| - 1];
      CollectedAreNormal(norm, init);
      assert s == init + [last];
      forall y | y in Collect(norm, s).value
        ensures exists x | x in s :: norm(x) == Keep(y)
      {
        if y in Collect(norm, init).value {
          var x :| x in init && norm(x) == Keep(y);
          assert x in s;
        } else {
          assert last in s && norm(last) == Keep(y);
        }
      }
    }
  }

  /** Canonicalising a canonical list changes nothing. */
  lemma {:induction false} CanonIdempotent<T(!new)>(norm: T -> Normal<T>, less: (T, T) -> bool, s: seq<T>)
    requires Total(less) && Settles(norm) && Canon(norm, less, s).Some?
    ensures Canon(norm, less, Canon(norm, less, s).value) == Canon(norm, less, s)
  {
    var kept := Collect(norm, s).value;
    CollectedAreNormal(norm, s);
    SortSorts(less, kept);
    SameMembers(kept, Sort(less, kept));
    CollectSettled(norm, Sort(less, kept));
    SortCanonical(less, kept, kept);
  }

  /** The loop-then-sort of every list normaliser. A refusal returns at once. */
  method NormalizeList<T(!new)>(norm: T -> Normal<T>, less: (T, T) -> bool, s: seq<T>) returns (r: Option<seq<T>>)
    requires Total(less)
    ensures r == Canon(norm, less, s)
  {
    var out: seq<T> := [];
    var i := 0;
    while i < |s|
      invariant 0 <= i <= |s|
      invariant Collect(norm, s[..i]) == Some(out)
    {
      assert s[..i + 1][..i] == s[..i];
      var next := norm(s[i]);
      if next.Reject? {
        CollectConcat(norm, s[..i + 1], s[i + 1..]);
        assert s == s[..i + 1] + s[i + 1..];
        return None;
      }
      if next.Keep? {
        out := out + [next.value];
      }
      i := i + 1;
    }
    assert s[..i] == s;
    var sorted := SortSlice(less, out);
    SortingIsSort(less, out, sorted);
    r := Some(sorted);
  }

  // ----- Entry by entry -----

  function Mapped<T, U>(f: T -> U, s: seq<T>): (r: seq<U>)
    ensures |r| == |s|
  {
    if s == [] then [] else Mapped(f, s[..|s| - 1]) + [f(s[|s| - 1])]
  }

  lemma {:induction false} MappedAt<T, U>(f: T -> U, s: seq<T>, k: nat)
    requires k < |s|
    ensures Mapped(f, s)[k] == f(s[k])
  {
    if k < |s| - 1 {
      MappedAt(f, s[..|s| - 1], k);
    }
  }

  lemma {:induction false} MappedWithout<T, U>(f: T -> U, s: seq<T>, k: nat)
    requires k < |s|
    ensures Mapped(f, Without(s, k)) == Without(Mapped(f, s), k) && Mapped(f, s)[k] == f(s[k])
  {
    MappedAt(f, s, k);
    hide Mapped;
    forall i | 0 <= i < |s| - 1
      ensures Mapped(f, Without(s, k))[i] == Without(Mapped(f, s), k)[i]
    {
      MappedAt(f, Without(s, k), i);
      MappedAt(f, s, if i < k then i else i + 1);
    }
  }

  lemma {:induction false} MappedPermuted<T, U>(f: T -> U, a: seq<T>, b: seq<T>)
    requires multiset(a) == multiset(b)
    ensures multiset(Mapped(f, a)) == multiset(Mapped(f, b))
    decreases |a|
  {
    hide Mapped, Without;
    SameMembers(a, b);
    if a == [] {
      assert b == [];
    } else {
      var k := AtIndex(b, a[0]);
      WithoutMembers(a, 0);
      WithoutMembers(b, k);
      MappedPermuted(f, Without(a, 0), Without(b, k));
      MappedWithout(f, a, 0);
      MappedWithout(f, b, k);
      WithoutMembers(Mapped(f, a), 0);
      WithoutMembers(Mapped(f, b), k);
      assert Mapped(f, a)[0] in Mapped(f, a) && Mapped(f, b)[k] in Mapped(f, b);
      Regroup(multiset(Mapped(f, a)), multiset(Mapped(f, b)), f(a[0]));
    }
  }

  lemma {:induction false} Regroup<T>(a: multiset<T>, b: multiset<T>, x: T)
    requires x in a && x in b && a - multiset{x} == b - multiset{x}
    ensures a == b
  {
    assert a == a - multiset{x} + multiset{x};
  }

  function Filter<T>(good: T -> bool, s: seq<T>): seq<T> {
    if s == [] then []
    else if good(s[|s| - 1]) then Filter(good, s[..|s| - 1]) + [s[|s| - 1]]
    else Filter(good, s[..|s| - 1])
  }

  lemma {:induction false} FilterKeepsAllIff<T>(good: T -> bool, s: seq<T>)
    ensures |Filter(good, s)| <= |s|
    ensures Filter(good, s) == s <==> forall x | x in s :: good(x)
  {
    if s != [] {
      var init, last := s[..|s| - 1], s[|s| - 1];
      FilterKeepsAllIff(good, init);
      assert s == init + [last];
      if good(last) && Filter(good, s) == s {
        assert Filter(good, init) == Filter(good, s)[..|s| - 1] == init;
      }
    }
  }

  // ----- What a canonical list contains -----

  function Everything<T>(): T -> bool {
    (x: T) => true
  }

  lemma {:induction false} FilterEverything<T>(s: seq<T>)
    ensures Filter(Everything(), s) == s
  {
    FilterKeepsAllIff(Everything(), s);
  }

  lemma {:induction false} MappedOneMore<T, U>(f: T -> U, s: seq<T>, x: T)
    ensures Mapped(f, s + [x]) == Mapped(f, s) + [f(x)]
  {
    assert (s + [x])[..|s|] == s;
  }

  lemma {:induction false} CollectMeans<T>(norm: T -> Normal<T>, good: T -> bool, f: T -> T, s: seq<T>)
    requires Collect(norm, s).Some?
    requires forall x | x in s && !norm(x).Reject? :: norm(x) == if good(x) then Keep(f(x)) else Skip
    ensures Collect(norm, s).value == Mapped(f, Filter(good, s))
  {
    if s != [] {
      hide Mapped;
      var (init, last) := (s[..|s| - 1], s[|s| - 1]);
      assert last in s && forall x | x in init :: x in s;
      CollectMeans(norm, good, f, init);
      MappedOneMore(f, Filter(good, init), last);
    }
  }

  /** A canonical list is a sorting of what the entries that stay are trimmed to. */
  lemma {:induction false} CanonMeans<T(!new)>(norm: T -> Normal<T>, less: (T, T) -> bool, good: T -> bool, f: T -> T,
                                               s: seq<T>)
    requires StrictOrder(less) && Canon(norm, less, s).Some?
    requires forall x | x in s && !norm(x).Reject? :: norm(x) == if good(x) then Keep(f(x)) else Skip
    ensures IsSorting(less, Mapped(f, Filter(good, s)), Canon(norm, less, s).value)
  {
    CollectMeans(norm, good, f, s);
    SortSorts(less, Mapped(f, Filter(good, s)));
  }

  // ----- Sums over a list -----

  function SumBy<T>(size: T -> int, s: seq<T>): int {
    if s == [] then 0 else SumBy(size, s[..|s| - 1]) + size(s[|s| - 1])
  }

  lemma {:induction false} SumConcat<T>(size: T -> int, a: seq<T>, b: seq<T>)
    ensures SumBy(size, a + b) == SumBy(size, a) + SumBy(size, b)
  {
    if b == [] {
      assert a + b == a;
    } else {
      SumConcat(size, a, b[..|b| - 1]);
      assert (a + b)[..|a + b| - 1] == a + b[..|b| - 1];
    }
  }

  lemma {:induction false} SumOne<T>(size: T -> int, x: T)
    ensures SumBy(size, [x]) == size(x)
  {
    assert [x][..0] == [];
  }

  lemma {:induction false} SumWithout<T>(size: T -> int, s: seq<T>, k: nat)
    requires k < |s|
    ensures SumBy(size, s) == size(s[k]) + SumBy(size, Without(s, k))
    decreases |s|
  {
    var n := |s| - 1;
    if k == n {
      assert Without(s, k) == s[..n];
    } else {
      SumWithout(size, s[..n], k);
      assert Without(s, k)[..n - 1] == Without(s[..n], k);
    }
  }

  lemma {:induction false} SumPermuted<T>(size: T -> int, a: seq<T>, b: seq<T>)
    requires multiset(a) == multiset(b)
    ensures SumBy(size, a) == SumBy(size, b)
    decreases |a|
  {
    hide SumBy, Without;
    SameMembers(a, b);
    if a == [] {
      assert b == [];
    } else {
      var k := AtIndex(b, a[0]);
      WithoutMembers(a, 0);
      WithoutMembers(b, k);
      SumPermuted(size, Without(a, 0), Without(b, k));
      SumWithout(size, a, 0);
      SumWithout(size, b, k);
    }
  }

  // ----- Comparators that look at one key after another -----

  function By<T>(key: T -> string, rest: (T, T) -> bool): (T, T) -> bool {
    (x, y) => if key(x) != key(y) then StrLess(key(x), key(y)) else rest(x, y)
  }

  function ByNumber<T>(key: T -> int): (T, T) -> bool {
    (x, y) => key(x) < key(y)
  }

  function ByNumberThen<T>(key: T -> int, rest: (T, T) -> bool): (T, T) -> bool {
    (x, y) => if key(x) != key(y) then key(x) < key(y) else rest(x, y)
  }

  function ByString<T>(key: T -> string): (T, T) -> bool {
    (x, y) => StrLess(key(x), key(y))
  }

  ghost predicate Tie<T>(less: (T, T) -> bool, x: T, y: T) {
    !less(x, y) && !less(y, x)
  }

  lemma {:induction false} ByStringIsOrder<T(!new)>(key: T -> string)
    ensures StrictOrder(ByString(key))
    ensures forall x, y :: Tie(ByString(key), x, y) <==> key(x) == key(y)
  {
    StrLessIsOrder();
    forall x, y
      ensures StrLess(key(x), key(y)) ==> !StrLess(key(y), key(x))
      ensures Tie(ByString(key), x, y) <==> key(x) == key(y)
    {
      StrLessTrichotomy(key(x), key(y));
      StrLessTrichotomy(key(y), key(x));
    }
    forall x, y, z | !StrLess(key(y), key(x)) && !StrLess(key(z), key(y))
      ensures !StrLess(key(z), key(x))
    {
    }
  }

  lemma {:induction false} ByIsOrder<T(!new)>(key: T -> string, rest: (T, T) -> bool)
    requires StrictOrder(rest)
    ensures StrictOrder(By(key, rest))
    ensures forall x, y :: Tie(By(key, rest), x, y) <==> key(x) == key(y) && Tie(rest, x, y)
  {
    var less := By(key, rest);
    forall x, y
      ensures less(x, y) ==> !less(y, x)
      ensures Tie(less, x, y) <==> key(x) == key(y) && Tie(rest, x, y)
    {
      StrLessTrichotomy(key(x), key(y));
    }
    forall x, y, z | !less(y, x) && !less(z, y)
      ensures !less(z, x)
    {
      StrLessTrichotomy(key(x), key(y));
      StrLessTrichotomy(key(y), key(z));
      StrLessTrichotomy(key(x), key(z));
      if StrLess(key(x), key(y)) && StrLess(key(y), key(z)) {
        StrLessTransitive(key(x), key(y), key(z));
      }
    }
  }

  lemma ByNumberThenIsOrder<T(!new)>(key: T -> int, rest: (T, T) -> bool)
    requires StrictOrder(rest)
    ensures StrictOrder(ByNumberThen(key, rest))
    ensures forall x, y :: Tie(ByNumberThen(key, rest), x, y) <==> key(x) == key(y) && Tie(rest, x, y)
  {
  }

  // ----- String maps -----

  /** What Go's `range` over a map promises: every key once, in some order. */
  ghost predicate IsOrderOf(m: map<string, string>, order: seq<string>) {
    && (forall k :: k in order <==> k in m)
    && (forall i, j | 0 <= i < j < |order| :: order[i] != order[j])
  }

  /** normalizeConstraints when the map is visited in the given order: later keys overwrite
      earlier ones that trim to the same string. */
  function Trimmed(m: map<string, string>, order: seq<string>): Option<map<string, string>>
    requires forall k | k in order :: k in m
  {
    if order == [] then Some(map[])
    else
      var last := order[|order| - 1];
      match Trimmed(m, order[..|order| - 1])
      case None => None
      case Some(out) =>
        if TrimSpace(last) == "" then None else Some(out[TrimSpace(last) := TrimSpace(m[last])])
  }

  ghost predicate HasBlankKey(m: map<string, string>) {
    exists k :: k in m && TrimSpace(k) == ""
  }

  /** Two keys that trim alike carry values that trim differently. */
  ghost predicate Clash(m: map<string, string>, k1: string, k2: string) {
    k1 in m && k2 in m && TrimSpace(k1) == TrimSpace(k2) && TrimSpace(m[k1]) != TrimSpace(m[k2])
  }

  lemma {:induction false} TrimmedFailsIff(m: map<string, string>, order: seq<string>)
    requires forall k | k in order :: k in m
    ensures Trimmed(m, order).None? <==> exists k :: k in order && TrimSpace(k) == ""
  {
    if order != [] {
      TrimmedFailsIff(m, order[..|order| - 1]);
      assert order == order[..|order| - 1] + [order[|order| - 1]];
    }
  }

  /** Every trimmed key is there, with the value of a key that trims to it. */
  lemma {:induction false} TrimmedKeys(m: map<string, string>, order: seq<string>)
    requires forall k | k in order :: k in m
    requires Trimmed(m, order).Some?
    ensures forall k | k in order :: TrimSpace(k) in Trimmed(m, order).value
  {
    hide TrimSpace;
    if order != [] {
      TrimmedKeys(m, order[..|order| - 1]);
      assert order == order[..|order| - 1] + [order[|order| - 1]];
    }
  }

  /** `t` got its value from the key `k`. */
  ghost predicate Source(m: map<string, string>, order: seq<string>, t: string, v: string, k: string) {
    k in order && k in m && TrimSpace(k) == t && TrimSpace(m[k]) == v
  }

  lemma {:induction false} TrimmedSource(m: map<string, string>, order: seq<string>, t: string) returns (k: string)
    requires forall k | k in order :: k in m
    requires Trimmed(m, order).Some? && t in Trimmed(m, order).value
    ensures Source(m, order, t, Trimmed(m, order).value[t], k)
  {
    hide TrimSpace;
    var init, last := order[..|order| - 1], order[|order| - 1];
    assert order == init + [last];
    if t == TrimSpace(last) {
      k := last;
    } else {
      k := TrimmedSource(m, init, t);
    }
  }

  lemma {:induction false} NoClashSameEntry(m: map<string, string>, o1: seq<string>, o2: seq<string>, t: string)
    requires IsOrderOf(m, o1) && IsOrderOf(m, o2)
    requires !exists k1, k2 :: Clash(m, k1, k2)
    requires Trimmed(m, o1).Some? && Trimmed(m, o2).Some? && t in Trimmed(m, o1).value
    ensures t in Trimmed(m, o2).value && Trimmed(m, o1).value[t] == Trimmed(m, o2).value[t]
  {
    hide TrimSpace, Trimmed;
    TrimmedKeys(m, o2);
    var k1 := TrimmedSource(m, o1, t);
    assert k1 in o2;
    var k2 := TrimmedSource(m, o2, t);
    assert !Clash(m, k1, k2);
  }

  lemma {:induction false} NoClashSameResult(m: map<string, string>, o1: seq<string>, o2: seq<string>)
    requires IsOrderOf(m, o1) && IsOrderOf(m, o2)
    requires HasBlankKey(m) || !exists k1, k2 :: Clash(m, k1, k2)
    ensures Trimmed(m, o1) == Trimmed(m, o2)
  {
    hide TrimSpace, Trimmed, Clash;
    TrimmedFailsIff(m, o1);
    TrimmedFailsIff(m, o2);
    if Trimmed(m, o1).Some? && Trimmed(m, o2).Some? {
      forall t | t in Trimmed(m, o1).value
        ensures t in Trimmed(m, o2).value && Trimmed(m, o1).value[t] == Trimmed(m, o2).value[t]
      {
        NoClashSameEntry(m, o1, o2, t);
      }
      forall t | t in Trimmed(m, o2).value
        ensures t in Trimmed(m, o1).value
      {
        NoClashSameEntry(m, o2, o1, t);
      }
      assert Trimmed(m, o1).value == Trimmed(m, o2).value;
    }
  }

  lemma {:induction false} AnOrder(m: map<string, string>, keys: set<string>) returns (order: seq<string>)
    requires keys <= m.Keys
    ensures forall k :: k in order <==> k in keys
    ensures forall i, j | 0 <= i < j < |order| :: order[i] != order[j]
    decreases |keys|
  {
    if keys == {} {
      order := [];
    } else {
      var k :| k in keys;
      var rest := AnOrder(m, keys - {k});
      order := [k] + rest;
    }
  }

  lemma {:induction false} TwoMore(m: map<string, string>, rest: seq<string>, k: string, l: string)
    requires k in m && l in m && k != l
    requires forall x :: x in rest <==> x in m && x != k && x != l
    requires forall i, j | 0 <= i < j < |rest| :: rest[i] != rest[j]
    ensures IsOrderOf(m, rest + [k] + [l])
    ensures forall x | x in rest + [k] :: x in m
  {
    var order := rest + [k] + [l];
    forall i, j | 0 <= i < j < |order|
      ensures order[i] != order[j]
    {
      assert i < |rest| ==> order[i] in rest;
      assert j < |rest| ==> order[j] == rest[j];
    }
  }

  lemma {:induction false} LastWins(m: map<string, string>, order: seq<string>, k: string)
    requires (forall x | x in order :: x in m) && k in m
    requires forall x | x in order + [k] :: x in m
    ensures Trimmed(m, order + [k]).Some? ==>
      TrimSpace(k) in Trimmed(m, order + [k]).value && Trimmed(m, order + [k]).value[TrimSpace(k)] == TrimSpace(m[k])
  {
    hide TrimSpace;
    assert (order + [k])[..|order|] == order;
  }

  lemma {:induction false} ClashGivesTwoResults(m: map<string, string>, k1: string, k2: string)
    returns (o1: seq<string>, o2: seq<string>)
    requires !HasBlankKey(m) && Clash(m, k1, k2)
    ensures IsOrderOf(m, o1) && IsOrderOf(m, o2)
    ensures Trimmed(m, o1) != Trimmed(m, o2)
  {
    var rest := AnOrder(m, m.Keys - {k1, k2});
    o1, o2 := rest + [k2] + [k1], rest + [k1] + [k2];
    TwoMore(m, rest, k2, k1);
    TwoMore(m, rest, k1, k2);
    hide Trimmed, TrimSpace;
    TrimmedFailsIff(m, o1);
    TrimmedFailsIff(m, o2);
    LastWins(m, rest + [k2], k1);
    LastWins(m, rest + [k1], k2);
  }

  /** When trimming a map has one possible result, whatever order Go visits the keys in. */
  lemma {:induction false} TrimmedDeterministicIff(m: map<string, string>)
    ensures (forall o1, o2 | IsOrderOf(m, o1) && IsOrderOf(m, o2) :: Trimmed(m, o1) == Trimmed(m, o2))
        <==> HasBlankKey(m) || !exists k1, k2 :: Clash(m, k1, k2)
  {
    if HasBlankKey(m) || !exists k1, k2 :: Clash(m, k1, k2) {
      forall o1, o2 | IsOrderOf(m, o1) && IsOrderOf(m, o2)
        ensures Trimmed(m, o1) == Trimmed(m, o2)
      {
        NoClashSameResult(m, o1, o2);
      }
    } else {
      var k1, k2 :| Clash(m, k1, k2);
      var o1, o2 := ClashGivesTwoResults(m, k1, k2);
      assert IsOrderOf(m, o1) && IsOrderOf(m, o2);
    }
  }

  lemma {:induction false} TrimmedPair(m: map<string, string>, k1: string, k2: string)
    requires k1 in m && k2 in m && TrimSpace(k1) == TrimSpace(k2) != ""
    ensures Trimmed(m, [k1, k2]) == Some(map[TrimSpace(k2) := TrimSpace(m[k2])])
  {
    hide TrimSpace;
    var (one, two) := ([k1], [k1, k2]);
    assert one[..|one| - 1] == [] && two[..|two| - 1] == one;
    assert Trimmed(m, []) == Some(map[]);
    var (t, v1, v2) := (TrimSpace(k2), TrimSpace(m[k1]), TrimSpace(m[k2]));
    assert Trimmed(m, one) == Some(map[t := v1]);
    assert map[t := v1][t := v2] == map[t := v2];
  }

  /** Two constraints that differ only by a space in the key: which value survives depends on the order. */
  lemma {:induction false} AmbiguousConstraints(m: map<string, string>)
    requires m == map[" a" := "1", "a" := "2"]
    ensures IsOrderOf(m, [" a", "a"]) && Trimmed(m, [" a", "a"]) == Some(map["a" := "2"])
    ensures IsOrderOf(m, ["a", " a"]) && Trimmed(m, ["a", " a"]) == Some(map["a" := "1"])
  {
    assert TrimLeft(" a") == TrimLeft("a") == "a" by {
      assert " a"[1..] == "a";
    }
    TrimNothing("a");
    TrimNothing("1");
    TrimNothing("2");
    assert " a" != "a" && m[" a"] == "1" && m["a"] == "2";
    hide TrimLeft, TrimRight, Trimmed;
    TrimmedPair(m, " a", "a");
    TrimmedPair(m, "a", " a");
  }

  /** A map whose keys and values trimming leaves alone. */
  ghost predicate IsTrimmed(m: map<string, string>) {
    forall k | k in m :: TrimSpace(k) == k != "" && TrimSpace(m[k]) == m[k]
  }

  lemma {:induction false} TrimmedIsTrimmed(m: map<string, string>, order: seq<string>)
    requires forall k | k in order :: k in m
    requires Trimmed(m, order).Some?
    ensures IsTrimmed(Trimmed(m, order).value)
  {
    hide TrimSpace, Trimmed;
    TrimmedFailsIff(m, order);
    var out := Trimmed(m, order).value;
    forall t | t in out
      ensures TrimSpace(t) == t != "" && TrimSpace(out[t]) == out[t]
    {
      var k := TrimmedSource(m, order, t);
      TrimSpaceIdempotent(k);
      TrimSpaceIdempotent(m[k]);
    }
  }

  /** Trimming a trimmed map leaves it alone, in any order. */
  lemma {:induction false} TrimmedIdempotent(m: map<string, string>, order: seq<string>)
    requires IsTrimmed(m) && IsOrderOf(m, order)
    ensures Trimmed(m, order) == Some(m)
  {
    hide TrimSpace, Trimmed;
    TrimmedFailsIff(m, order);
    TrimmedKeys(m, order);
    var r := Trimmed(m, order).value;
    forall t
      ensures t in r <==> t in m
      ensures t in r && t in m ==> r[t] == m[t]
    {
      if t in m {
        assert t in order;
      }
      if t in r {
        var k := TrimmedSource(m, order, t);
      }
    }
    assert r == m;
  }

  /** A blank key makes the call fail, however the keys after it would have been visited. */
  lemma {:induction false} RefusedWhateverFollows(m: map<string, string>, visited: seq<string>, rest: set<string>)
    returns (order: seq<string>)
    requires visited != [] && TrimSpace(visited[|visited| - 1]) == ""
    requires rest <= m.Keys && forall k :: k in visited <==> k in m && k !in rest
    requires forall i, j | 0 <= i < j < |visited| :: visited[i] != visited[j]
    ensures IsOrderOf(m, order) && Trimmed(m, order) == None
  {
    hide TrimSpace, Trimmed;
    var tail := AnOrder(m, rest);
    order := visited + tail;
    assert order[|visited| - 1] == visited[|visited| - 1];
    forall i, j | 0 <= i < j < |order|
      ensures order[i] != order[j]
    {
      if i < |visited| <= j {
        assert order[i] in visited && order[j] in tail;
      }
    }
    TrimmedFailsIff(m, order);
  }

  /** A result that trimming can have, for some order of the keys. */
  ghost predicate MayTrimTo(m: map<string, string>, r: Option<map<string, string>>) {
    exists order :: IsOrderOf(m, order) && Trimmed(m, order) == r
  }

  /** The loop over the map, in whatever order this run happens to visit it. */
  method NormalizeConstraints(m: map<string, string>) returns (r: Option<map<string, string>>)
    ensures MayTrimTo(m, r)
  {
    hide TrimSpace;
    var out: map<string, string> := map[];
    var rest := m.Keys;
    ghost var visited: seq<string> := [];
    while rest != {}
      invariant rest <= m.Keys
      invariant forall k :: k in visited <==> k in m && k !in rest
      invariant forall i, j | 0 <= i < j < |visited| :: visited[i] != visited[j]
      invariant Trimmed(m, visited) == Some(out)
      decreases |rest|
    {
      var k :| k in rest;
      rest := rest - {k};
      assert (visited + [k])[..|visited|] == visited;
      visited := visited + [k];
      var key := TrimSpace(k);
      if key == "" {
        ghost var order := RefusedWhateverFollows(m, visited, rest);
        assert IsOrderOf(m, order);
        return None;
      }
      out := out[key := TrimSpace(m[k])];
    }
    assert IsOrderOf(m, visited);
    r := Some(out);
  }

  // ----- Keys in the order in which encoding/json writes them -----

  predicate IsLeast(keys: set<string>, k: string) {
    k in keys && forall j | j in keys :: j == k || StrLess(k, j)
  }

  lemma {:induction false} LeastExists(keys: set<string>)
    requires keys != {}
    ensures exists k :: IsLeast(keys, k)
    decreases |keys|
  {
    var x :| x in keys;
    var rest := keys - {x};
    if rest == {} {
      assert keys == {x};
      assert IsLeast(keys, x);
    } else {
      LeastExists(rest);
      var y :| IsLeast(rest, y);
      StrLessTrichotomy(x, y);
      if StrLess(x, y) {
        forall j | j in keys
          ensures j == x || StrLess(x, j)
        {
          if j != x && j != y {
            StrLessTransitive(x, y, j);
          }
        }
        assert IsLeast(keys, x);
      } else {
        assert IsLeast(keys, y);
      }
    }
  }

  lemma {:induction false} LeastUnique(keys: set<string>, a: string, b: string)
    requires IsLeast(keys, a) && IsLeast(keys, b)
    ensures a == b
  {
    StrLessTrichotomy(a, b);
  }

  function LeastKey(keys: set<string>): (k: string)
    requires keys != {}
    ensures IsLeast(keys, k)
  {
    LeastExists(keys);
    assert forall a, b | IsLeast(keys, a) && IsLeast(keys, b) :: a == b by {
      forall a, b | IsLeast(keys, a) && IsLeast(keys, b)
        ensures a == b
      {
        LeastUnique(keys, a, b);
      }
    }
    var k :| IsLeast(keys, k);
    k
  }

  function SortedKeys(keys: set<string>): (r: seq<string>)
    ensures forall k :: k in r <==> k in keys
    decreases |keys|
  {
    if keys == {} then [] else [LeastKey(keys)] + SortedKeys(keys - {LeastKey(keys)})
  }

  // ----- Sums over a map, whose keys come in any order -----

  function SumOver(f: string -> int, keys: set<string>): int
    decreases |keys|
  {
    if keys == {} then 0 else var k := LeastKey(keys); f(k) + SumOver(f, keys - {k})
  }

  /** Whichever key is taken out first, the sum is the same. */
  lemma {:induction false} SumOverPick(f: string -> int, keys: set<string>, k: string)
    requires k in keys
    ensures SumOver(f, keys) == f(k) + SumOver(f, keys - {k})
    decreases |keys|
  {
    hide StrLess;
    var least := LeastKey(keys);
    if k != least {
      var rest := keys - {least};
      SumOverPick(f, rest, k);
      var without := keys - {k};
      assert IsLeast(without, least);
      LeastUnique(without, least, LeastKey(without));
      assert rest - {k} == without - {least};
    }
  }
}
