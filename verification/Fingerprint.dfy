/** The canonical form that internal/ingress/fingerprint.go hashes. Requests coalesce when their
    canonical forms are equal. */
module Fingerprint {
  import opened GoText
  import opened Sorting
  import opened Canonical

  datatype Request = Request(
    sessionId: string,
    branchId: string,
    task: string,
    refs: seq<string>,
    constraints: map<string, string>,
    allowTools: bool,
    externalContext: string)

  datatype Entry = Entry(key: string, value: string)

  datatype Payload = Payload(
    sessionId: string,
    branchId: string,
    task: string,
    refs: seq<string>,
    constraints: seq<Entry>,
    allowTools: bool,
    externalContext: string)

  function EntryOrder(): (Entry, Entry) -> bool {
    By((e: Entry) => e.key, ByString((e: Entry) => e.value))
  }

  lemma {:induction false} EntryOrderTotal()
    ensures Total(EntryOrder())
  {
    var k1, k2 := (e: Entry) => e.key, (e: Entry) => e.value;
    ByStringIsOrder(k2);
    ByIsOrder(k1, ByString(k2));
    var o := EntryOrder();
    assert o == By(k1, ByString(k2));
    forall x, y | x != y
      ensures o(x, y) || o(y, x)
    {
      assert Tie(o, x, y) ==> Tie(ByString(k2), x, y);
    }
  }

  /** The entries of a map, each once. */
  ghost predicate Lists(m: map<string, string>, s: seq<Entry>) {
    && Distinct(s)
    && forall e :: e in s <==> e.key in m && m[e.key] == e.value
  }

  ghost predicate IsPayload(r: Request, p: Payload) {
    && (p.sessionId, p.branchId, p.task, p.allowTools) == (r.sessionId, r.branchId, r.task, r.allowTools)
    && p.externalContext == TrimSpace(r.externalContext)
    && IsSorting(StrLess, r.refs, p.refs)
    && Lists(r.constraints, p.constraints) && Ordered(EntryOrder(), p.constraints)
  }

  /** The entries in whatever order the range over the map yields them. */
  method Entries(m: map<string, string>) returns (s: seq<Entry>)
    ensures Lists(m, s)
  {
    s := [];
    var rest := m.Keys;
    while rest != {}
      invariant rest <= m.Keys
      invariant forall e :: e in s <==> e.key in m && e.key !in rest && m[e.key] == e.value
      invariant Distinct(s)
      decreases |rest|
    {
      var k :| k in rest;
      rest := rest - {k};
      s := s + [Entry(k, m[k])];
    }
  }

  lemma {:induction false} SortedStillLists(m: map<string, string>, s: seq<Entry>, r: seq<Entry>)
    requires Lists(m, s) && multiset(r) == multiset(s)
    ensures Lists(m, r)
  {
    PermutedDistinct(s, r);
  }

  method FingerprintOf(r: Request) returns (p: Payload)
    ensures IsPayload(r, p)
  {
    hide TrimSpace;
    StrLessIsOrder();
    EntryOrderTotal();
    hide StrLess;
    var refs := SortSlice(StrLess, r.refs);
    var entries := Entries(r.constraints);
    var sorted := SortSlice(EntryOrder(), entries);
    SortedStillLists(r.constraints, entries, sorted);
    p := Payload(r.sessionId, r.branchId, r.task, refs, sorted, r.allowTools, TrimSpace(r.externalContext));
  }

  /** FingerprintRequest trims the external context before Fingerprint trims it again. */
  method FingerprintRequest(r: Request) returns (p: Payload)
    ensures IsPayload(r, p)
  {
    TrimSpaceIdempotent(r.externalContext);
    hide TrimSpace;
    p := FingerprintOf(r.(externalContext := TrimSpace(r.externalContext)));
  }

  /** Logically equivalent requests: the order of the refs and the white space around the external
      context do not matter, everything else does. */
  ghost predicate SameRequest(a: Request, b: Request) {
    && (a.sessionId, a.branchId, a.task, a.allowTools) == (b.sessionId, b.branchId, b.task, b.allowTools)
    && TrimSpace(a.externalContext) == TrimSpace(b.externalContext)
    && multiset(a.refs) == multiset(b.refs)
    && a.constraints == b.constraints
  }

  lemma {:induction false} SameListing(m: map<string, string>, s: seq<Entry>, t: seq<Entry>)
    requires Lists(m, s) && Lists(m, t) && Ordered(EntryOrder(), s) && Ordered(EntryOrder(), t)
    ensures s == t
  {
    DistinctSameMembers(s, t);
    EntryOrderTotal();
    hide EntryOrder;
    SortingUnique(EntryOrder(), s, t);
  }

  lemma {:induction false} SameMap(a: map<string, string>, b: map<string, string>, s: seq<Entry>)
    requires Lists(a, s) && Lists(b, s)
    ensures a == b
  {
    forall k
      ensures k in a <==> k in b
      ensures k in a && k in b ==> a[k] == b[k]
    {
      if k in a {
        assert Entry(k, a[k]) in s;
      }
      if k in b {
        assert Entry(k, b[k]) in s;
      }
    }
  }

  lemma {:induction false} SameRefs(a: seq<string>, b: seq<string>, p: seq<string>, q: seq<string>)
    requires IsSorting(StrLess, a, p) && IsSorting(StrLess, b, q)
    ensures p == q <==> multiset(a) == multiset(b)
  {
    StrLessIsOrder();
    hide StrLess;
    if multiset(a) == multiset(b) {
      SortingUnique(StrLess, p, q);
    }
  }

  /** Two requests have the same canonical form exactly when they are logically equivalent; in
      particular a request has only one, whatever order its map was visited in. */
  lemma {:induction false} SamePayloadIff(a: Request, b: Request, p: Payload, q: Payload)
    requires IsPayload(a, p) && IsPayload(b, q)
    ensures p == q <==> SameRequest(a, b)
  {
    hide TrimSpace, EntryOrder, IsSorting, Lists, Ordered;
    SameRefs(a.refs, b.refs, p.refs, q.refs);
    if p.constraints == q.constraints {
      SameMap(a.constraints, b.constraints, p.constraints);
    }
    if a.constraints == b.constraints {
      SameListing(a.constraints, p.constraints, q.constraints);
    }
  }
}
