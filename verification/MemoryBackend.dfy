/** internal/backend/memory.go: the append-only log of each session with its id index, and the
    manifest store with its paged listing. */
module MemoryBackend {
  import opened GoText
  import opened Sorting
  import opened Canonical
  import opened EventLog
  import opened ConsultManifest

  datatype AppendOutcome = Appended | Cancelled | InvalidEvent | DuplicateEventId

  datatype Lookup = Found(event: Event) | NotFound | LookupCancelled

  datatype Listing<T> = Listed(items: seq<T>) | ListCancelled | InvalidBranchRead | PageOutOfRange

  predicate HasId(log: seq<Event>, id: string) {
    exists e | e in log :: e.id == id
  }

  /** What an attempt to append leaves in the log of the event's session. */
  function Extended(log: seq<Event>, e: Event): seq<Event> {
    if e.Valid() && !HasId(log, e.id) then log + [e] else log
  }

  /** The index holds exactly the events of a list without duplicate ids. */
  ghost predicate IsIndexOf(index: map<string, Event>, log: seq<Event>) {
    && (forall i, j | 0 <= i < j < |log| :: log[i].id != log[j].id)
    && (forall e | e in log :: e.id in index && index[e.id] == e)
    && (forall id | id in index :: index[id] in log && index[id].id == id)
  }

  ghost predicate IsLogOf(sessionId: string, log: seq<Event>) {
    forall e | e in log :: e.Valid() && e.sessionId == sessionId
  }

  lemma {:induction false} LogExtends(sessionId: string, log: seq<Event>, e: Event)
    requires IsLogOf(sessionId, log) && e.Valid() && e.sessionId == sessionId
    ensures IsLogOf(sessionId, log + [e])
  {
    forall d | d in log + [e]
      ensures d in log || d == e
    {
    }
  }

  lemma EmptyLog(sessionId: string)
    ensures IsLogOf(sessionId, [])
  {
  }

  lemma {:induction false} IndexExtends(index: map<string, Event>, log: seq<Event>, e: Event)
    requires IsIndexOf(index, log) && e.id !in index
    ensures IsIndexOf(index[e.id := e], log + [e])
  {
    var (i2, l2) := (index[e.id := e], log + [e]);
    forall d | d in l2
      ensures d.id in i2 && i2[d.id] == d
    {
      assert d in log || d == e;
    }
    forall id | id in i2
      ensures i2[id] in l2 && i2[id].id == id
    {
      if id == e.id {
        assert l2[|log|] == e;
      } else {
        assert index[id] in log;
      }
    }
    assert forall i | 0 <= i < |log| :: log[i] in log;
  }

  lemma IndexAgrees(index: map<string, Event>, log: seq<Event>, id: string)
    requires IsIndexOf(index, log)
    ensures HasId(log, id) <==> id in index
  {
  }

  lemma EmptyIndex()
    ensures IsIndexOf(map[], [])
  {
  }

  class Backend {
    var sessions: map<string, seq<Event>>
    var byId: map<string, map<string, Event>>
    var manifests: map<string, Manifest>

    ghost predicate Valid()
      reads this
    {
      && sessions.Keys == byId.Keys
      && forall s | s in sessions :: IsIndexOf(byId[s], sessions[s]) && IsLogOf(s, sessions[s])
    }

    function Log(sessionId: string): seq<Event>
      reads this
    {
      if sessionId in sessions then sessions[sessionId] else []
    }

    constructor ()
      ensures Valid() && manifests == map[]
      ensures forall s :: Log(s) == []
    {
      sessions, byId, manifests := map[], map[], map[];
    }

    /** Appends to one session's log, or refuses and changes no log. */
    method AppendEvent(cancelled: bool, e: Event) returns (r: AppendOutcome)
      requires Valid()
      modifies this`sessions, this`byId
      ensures Valid()
      ensures r == if cancelled then Cancelled else if !e.Valid() then InvalidEvent
                   else if HasId(old(Log(e.sessionId)), e.id) then DuplicateEventId else Appended
      ensures Log(e.sessionId) == if cancelled then old(Log(e.sessionId)) else Extended(old(Log(e.sessionId)), e)
      ensures forall s | s != e.sessionId :: Log(s) == old(Log(s))
    {
      hide IsIndexOf, IsLogOf, HasId, Event.Valid;
      if cancelled {
        return Cancelled;
      }
      if !e.Valid() {
        return InvalidEvent;
      }
      var s := e.sessionId;
      if s !in byId {
        OpenSession(s);
      }
      IndexAgrees(byId[s], sessions[s], e.id);
      if e.id in byId[s] {
        return DuplicateEventId;
      }
      Store(e);
      r := Appended;
    }

    /** The first event of a session finds no index yet. */
    method OpenSession(s: string)
      requires Valid() && s !in sessions
      modifies this`sessions, this`byId
      ensures Valid() && s in sessions && forall t :: Log(t) == old(Log(t))
    {
      hide IsIndexOf, IsLogOf;
      EmptyIndex();
      EmptyLog(s);
      byId := byId[s := map[]];
      sessions := sessions[s := []];
    }

    /** The two writes of an append. */
    method Store(e: Event)
      requires Valid() && e.Valid() && e.sessionId in sessions && e.id !in byId[e.sessionId]
      modifies this`sessions, this`byId
      ensures Valid() && Log(e.sessionId) == old(Log(e.sessionId)) + [e]
      ensures forall t | t != e.sessionId :: Log(t) == old(Log(t))
    {
      hide IsIndexOf, IsLogOf, Event.Valid;
      var s := e.sessionId;
      IndexExtends(byId[s], sessions[s], e);
      LogExtends(s, sessions[s], e);
      sessions := sessions[s := sessions[s] + [e]];
      byId := byId[s := byId[s][e.id := e]];
    }

    /** The index answers like a search through the log. */
    method GetEventById(cancelled: bool, sessionId: string, eventId: string) returns (r: Lookup)
      requires Valid()
      ensures r.LookupCancelled? <==> cancelled
      ensures r.NotFound? <==> !cancelled && !HasId(Log(sessionId), eventId)
      ensures r.Found? ==> r.event in Log(sessionId) && r.event.id == eventId
    {
      if cancelled {
        return LookupCancelled;
      }
      if sessionId !in byId || eventId !in byId[sessionId] {
        return NotFound;
      }
      r := Found(byId[sessionId][eventId]);
      assert r.event in sessions[sessionId];
    }

    /** Copies the log event by event. */
    method ListEventsBySession(cancelled: bool, sessionId: string) returns (r: Listing<Event>)
      ensures r == if cancelled then ListCancelled else Listed(Log(sessionId))
    {
      if cancelled {
        return ListCancelled;
      }
      var stored := Log(sessionId);
      var out: seq<Event> := [];
      for i := 0 to |stored|
        invariant out == stored[..i]
      {
        out := out + [stored[i]];
      }
      r := Listed(out);
    }

    method ListEventsByBranch(cancelled: bool, sessionId: string, branchId: string) returns (r: Listing<Event>)
      ensures r == if cancelled then ListCancelled else if branchId == "" then InvalidBranchRead
                   else Listed(OnBranch(Log(sessionId), branchId))
    {
      if cancelled {
        return ListCancelled;
      }
      if branchId == "" {
        return InvalidBranchRead;
      }
      var listing := ListEventsBySession(cancelled, sessionId);
      var all := listing.items;
      var out: seq<Event> := [];
      for i := 0 to |all|
        invariant out == OnBranch(all[..i], branchId)
      {
        assert all[..i + 1][..i] == all[..i];
        if all[i].branchId == branchId {
          out := out + [all[i]];
        }
      }
      assert all[..|all|] == all;
      r := Listed(out);
    }

    method SaveManifest(cancelled: bool, m: Manifest) returns (saved: bool)
      modifies this`manifests
      ensures saved == !cancelled
      ensures manifests == if cancelled then old(manifests) else old(manifests)[m.eventId := m]
    {
      if cancelled {
        return false;
      }
      saved := true;
      manifests := manifests[m.eventId := m];
    }

    /** One page of the manifests in the order of their ids; `PageOutOfRange` is Go's panic on a
        slice expression whose end has wrapped around. */
    method ListManifests(cancelled: bool, limit: int, offset: int) returns (r: Listing<Manifest>)
      requires IsInt64(limit) && IsInt64(offset) && IsInt64(|manifests|)
      ensures r == if cancelled then ListCancelled
                   else if EndWraps(|manifests|, limit, offset) then PageOutOfRange
                   else Listed(Page(InOrder(manifests, SortedKeys(manifests.Keys)), limit, offset))
    {
      if cancelled {
        return ListCancelled;
      }
      hide SortedKeys, InOrder;
      var ids := IdsInOrder(manifests);
      var result := ManifestsOf(manifests, ids);
      InOrderLength(manifests, ids[..]);
      SortedKeysLength(manifests.Keys);
      r := CutPage(result, limit, offset);
    }
  }

  // ----- Runs of appends -----

  /** The log of one session after a run of attempts, some for other sessions. */
  function Run(attempts: seq<Event>, sessionId: string): seq<Event> {
    if attempts == [] then []
    else
      var log, e := Run(attempts[..|attempts| - 1], sessionId), attempts[|attempts| - 1];
      if e.sessionId == sessionId then Extended(log, e) else log
  }

  /** An attempt that counts: valid, in the session, and the first one with its id. */
  ghost predicate Counts(attempts: seq<Event>, sessionId: string, k: nat)
    requires k < |attempts|
  {
    && attempts[k].Valid() && attempts[k].sessionId == sessionId
    && forall j | 0 <= j < k && attempts[j].Valid() && attempts[j].sessionId == sessionId ::
      attempts[j].id != attempts[k].id
  }

  /** After any run the log is, in order, the attempts that count: nothing is lost, doubled,
      reordered or overwritten. `at` gives the attempt that each log entry comes from. */
  lemma {:induction false} RunKeepsFirsts(attempts: seq<Event>, sessionId: string) returns (at: seq<nat>)
    ensures |at| == |Run(attempts, sessionId)|
    ensures forall i | 0 <= i < |at| :: at[i] < |attempts| && Run(attempts, sessionId)[i] == attempts[at[i]]
    ensures forall i, j | 0 <= i < j < |at| :: at[i] < at[j]
    ensures forall k: nat | k < |attempts| :: k in at <==> Counts(attempts, sessionId, k)
  {
    hide Event.Valid, HasId;
    if attempts == [] {
      at := [];
    } else {
      var n := |attempts| - 1;
      var init, e := attempts[..n], attempts[n];
      var log := Run(init, sessionId);
      at := RunKeepsFirsts(init, sessionId);
      forall k: nat | k < n
        ensures Counts(attempts, sessionId, k) <==> Counts(init, sessionId, k)
      {
        assert forall j | 0 <= j <= k :: attempts[j] == init[j];
      }
      assert attempts == init + [e];
      assert forall k | k in at :: k < n;
      if e.sessionId == sessionId && e.Valid() {
        DuplicateIff(init, sessionId, at, e);
        if !HasId(log, e.id) {
          at := at + [n];
        }
      }
    }
  }

  lemma {:induction false} DuplicateIff(init: seq<Event>, sessionId: string, at: seq<nat>, e: Event)
    requires e.sessionId == sessionId && e.Valid()
    requires |at| == |Run(init, sessionId)|
    requires forall i | 0 <= i < |at| :: at[i] < |init| && Run(init, sessionId)[i] == init[at[i]]
    requires forall k: nat | k < |init| :: k in at <==> Counts(init, sessionId, k)
    ensures HasId(Run(init, sessionId), e.id) <==> !Counts(init + [e], sessionId, |init|)
  {
    hide Event.Valid;
    var log := Run(init, sessionId);
    if HasId(log, e.id) {
      var i :| 0 <= i < |log| && log[i].id == e.id;
      assert at[i] in at;
      assert (init + [e])[at[i]] == init[at[i]];
    }
    if !Counts(init + [e], sessionId, |init|) {
      var j :| 0 <= j < |init| && init[j].Valid() && init[j].sessionId == sessionId && init[j].id == e.id;
      var k := FirstWithId(init, sessionId, j);
      var i :| 0 <= i < |at| && at[i] == k;
      assert log[i] in log;
    }
  }

  lemma {:induction false} FirstWithId(attempts: seq<Event>, sessionId: string, j: nat) returns (k: nat)
    requires j < |attempts| && attempts[j].Valid() && attempts[j].sessionId == sessionId
    ensures k < |attempts| && Counts(attempts, sessionId, k) && attempts[k].id == attempts[j].id
    decreases j
  {
    hide Event.Valid;
    if Counts(attempts, sessionId, j) {
      k := j;
    } else {
      var i :| 0 <= i < j && attempts[i].Valid() && attempts[i].sessionId == sessionId
        && attempts[i].id == attempts[j].id;
      k := FirstWithId(attempts, sessionId, i);
    }
  }

  /** Listing a branch keeps exactly that branch's events, as often and in the order they are in. */
  lemma {:induction false} OnBranchFilters(log: seq<Event>, branchId: string, e: Event)
    ensures multiset(OnBranch(log, branchId))[e] == if e.branchId == branchId then multiset(log)[e] else 0
  {
    if log != [] {
      OnBranchFilters(log[..|log| - 1], branchId, e);
      assert log == log[..|log| - 1] + [log[|log| - 1]];
    }
  }

  lemma {:induction false} OnBranchConcat(a: seq<Event>, b: seq<Event>, branchId: string)
    ensures OnBranch(a + b, branchId) == OnBranch(a, branchId) + OnBranch(b, branchId)
  {
    if b == [] {
      assert a + b == a;
    } else {
      OnBranchConcat(a, b[..|b| - 1], branchId);
      assert (a + b)[..|a + b| - 1] == a + b[..|b| - 1];
    }
  }

  // ----- The sorted listing -----

  method CollectIds(m: map<string, Manifest>) returns (ids: array<string>)
    ensures fresh(ids) && Distinct(ids[..])
    ensures forall k :: k in ids[..] <==> k in m
  {
    var list: seq<string> := [];
    var rest := m.Keys;
    while rest != {}
      invariant rest <= m.Keys && Distinct(list)
      invariant forall k :: k in list <==> k in m && k !in rest
      decreases |rest|
    {
      var k :| k in rest;
      rest := rest - {k};
      list := list + [k];
    }
    ids := new string[|list|](i requires 0 <= i < |list| => list[i]);
    assert ids[..] == list;
  }

  method IdsInOrder(m: map<string, Manifest>) returns (ids: array<string>)
    ensures fresh(ids) && ids[..] == SortedKeys(m.Keys)
  {
    ids := CollectIds(m);
    ghost var collected := ids[..];
    ExchangeSort(ids);
    hide StrLess, SortedKeys;
    SortedListingIsUnique(m.Keys, collected, ids[..]);
  }

  /** Not after: the order of `<=` on strings. */
  predicate UpTo(a: string, b: string) {
    !StrLess(b, a)
  }

  lemma {:induction false} UpToTransitive()
    ensures forall a, b, c {:trigger UpTo(a, b), UpTo(b, c)} :: UpTo(a, b) && UpTo(b, c) ==> UpTo(a, c)
    ensures forall a, b {:trigger StrLess(b, a)} :: StrLess(b, a) ==> UpTo(b, a)
    ensures forall a {:trigger UpTo(a, a)} :: UpTo(a, a)
  {
    StrLessIsOrder();
    hide StrLess;
  }

  ghost predicate UpToRest(s: seq<string>, i: nat, j: nat)
    requires i < |s| && j <= |s|
  {
    forall k | i <= k < j :: UpTo(s[i], s[k])
  }

  lemma SwapKeepsMembers(s: seq<string>, i: nat, j: nat)
    requires i < j < |s|
    ensures multiset(s[i := s[j]][j := s[i]]) == multiset(s)
  {
  }

  /** The first `i` entries are in their final places. */
  ghost predicate Settled(s: seq<string>, i: nat)
    requires i <= |s|
  {
    forall p | 0 <= p < i :: UpToRest(s, p, |s|)
  }

  /** The exchange sort on the ids, in place. */
  method ExchangeSort(a: array<string>)
    modifies a
    ensures IsSorting(StrLess, old(a[..]), a[..])
  {
    hide StrLess, UpToRest, Settled;
    var i := 0;
    NothingSettled(a[..]);
    while i < a.Length
      invariant 0 <= i <= a.Length
      invariant multiset(a[..]) == multiset(old(a[..]))
      invariant Settled(a[..], i)
    {
      var j := i + 1;
      FirstUpTo(a[..], i);
      while j < a.Length
        invariant i < j <= a.Length
        invariant multiset(a[..]) == multiset(old(a[..]))
        invariant Settled(a[..], i) && UpToRest(a[..], i, j)
      {
        ghost var before := a[..];
        if StrLess(a[j], a[i]) {
          a[i], a[j] := a[j], a[i];
          assert a[..] == before[i := before[j]][j := before[i]];
          SwapKeepsMembers(before, i, j);
          ExchangeSettles(before, a[..], i, j);
        } else {
          NextUpTo(a[..], i, j);
        }
        j := j + 1;
      }
      NextSettled(a[..], i);
      i := i + 1;
    }
    SettledIsOrdered(a[..]);
  }

  lemma NothingSettled(s: seq<string>)
    ensures Settled(s, 0)
  {
  }

  lemma {:induction false} FirstUpTo(s: seq<string>, i: nat)
    requires i < |s|
    ensures UpToRest(s, i, i + 1)
  {
    StrLessIsOrder();
    hide StrLess;
  }

  lemma NextUpTo(s: seq<string>, i: nat, j: nat)
    requires i < j < |s| && UpToRest(s, i, j) && !StrLess(s[j], s[i])
    ensures UpToRest(s, i, j + 1)
  {
  }

  lemma NextSettled(s: seq<string>, i: nat)
    requires i < |s| && Settled(s, i) && UpToRest(s, i, |s|)
    ensures Settled(s, i + 1)
  {
  }

  lemma {:induction false} SettledIsOrdered(s: seq<string>)
    requires Settled(s, |s|)
    ensures Ordered(StrLess, s)
  {
    hide StrLess;
    forall p, q | 0 <= p < q < |s|
      ensures !StrLess(s[q], s[p])
    {
      assert UpToRest(s, p, |s|);
      assert UpTo(s[p], s[q]);
    }
  }

  /** Exchanging two positions behind the settled ones keeps those settled, and the smaller entry
      now stands at `i`. */
  lemma {:induction false} ExchangeSettles(before: seq<string>, after: seq<string>, i: nat, j: nat)
    requires i < j < |before| && after == before[i := before[j]][j := before[i]]
    requires StrLess(before[j], before[i])
    requires Settled(before, i) && UpToRest(before, i, j)
    ensures Settled(after, i) && UpToRest(after, i, j + 1)
  {
    hide StrLess;
    UpToTransitive();
    forall p, k | 0 <= p < i && p <= k < |after|
      ensures UpTo(after[p], after[k])
    {
      assert UpToRest(before, p, |before|);
      assert UpTo(before[p], before[k]) && UpTo(before[p], before[i]) && UpTo(before[p], before[j]);
    }
    forall k | i <= k < j + 1
      ensures UpTo(after[i], after[k])
    {
      assert UpTo(before[j], before[i]);
      if i < k < j {
        assert UpTo(before[i], before[k]);
      }
    }
  }

  lemma {:induction false} SortedKeysOrdered(keys: set<string>)
    ensures Ordered(StrLess, SortedKeys(keys)) && Distinct(SortedKeys(keys))
    decreases |keys|
  {
    hide StrLess;
    if keys != {} {
      var least := LeastKey(keys);
      var rest := SortedKeys(keys - {least});
      SortedKeysOrdered(keys - {least});
      assert SortedKeys(keys) == [least] + rest;
      hide SortedKeys, IsLeast;
      forall j | 0 <= j < |rest|
        ensures !StrLess(rest[j], least) && rest[j] != least
      {
        assert rest[j] in rest;
        LeastBefore(keys, least, rest[j]);
      }
    }
  }

  lemma {:induction false} LeastBefore(keys: set<string>, least: string, k: string)
    requires IsLeast(keys, least) && k in keys && k != least
    ensures !StrLess(k, least)
  {
    StrLessTrichotomy(least, k);
  }

  lemma {:induction false} SortedListingIsUnique(keys: set<string>, s: seq<string>, ids: seq<string>)
    requires IsSorting(StrLess, s, ids) && Distinct(s) && forall k :: k in s <==> k in keys
    ensures ids == SortedKeys(keys)
  {
    hide StrLess;
    SortedKeysOrdered(keys);
    DistinctSameMembers(s, SortedKeys(keys));
    StrLessIsOrder();
    SortingUnique(StrLess, ids, SortedKeys(keys));
  }

  function InOrder(m: map<string, Manifest>, ids: seq<string>): seq<Manifest>
    requires forall k | k in ids :: k in m
  {
    if ids == [] then []
    else
      assert forall k | k in ids[..|ids| - 1] :: k in ids;
      InOrder(m, ids[..|ids| - 1]) + [m[ids[|ids| - 1]]]
  }

  lemma {:induction false} InOrderLength(m: map<string, Manifest>, ids: seq<string>)
    requires forall k | k in ids :: k in m
    ensures |InOrder(m, ids)| == |ids|
  {
    if ids != [] {
      assert forall k | k in ids[..|ids| - 1] :: k in ids;
      InOrderLength(m, ids[..|ids| - 1]);
    }
  }

  lemma {:induction false} SortedKeysLength(keys: set<string>)
    ensures |SortedKeys(keys)| == |keys|
  {
    if keys != {} {
      SortedKeysLength(keys - {LeastKey(keys)});
    }
  }

  method ManifestsOf(m: map<string, Manifest>, ids: array<string>) returns (result: seq<Manifest>)
    requires forall k | k in ids[..] :: k in m
    ensures result == InOrder(m, ids[..])
  {
    result := [];
    for i := 0 to ids.Length
      invariant forall k | k in ids[..i] :: k in m
      invariant result == InOrder(m, ids[..i])
    {
      assert ids[..i + 1][..i] == ids[..i];
      assert ids[i] in ids[..];
      result := result + [m[ids[i]]];
    }
    assert ids[..ids.Length] == ids[..];
  }

  // ----- Pages -----

  predicate IsInt64(n: int) {
    -0x8000_0000_0000_0000 <= n < 0x8000_0000_0000_0000
  }

  /** Go's addition of two ints. */
  function WrappedSum(a: int, b: int): (sum: int)
    requires IsInt64(a) && IsInt64(b)
    ensures IsInt64(sum) && (sum - (a + b)) % 0x1_0000_0000_0000_0000 == 0
  {
    var sum := a + b;
    if sum >= 0x8000_0000_0000_0000 then sum - 0x1_0000_0000_0000_0000
    else if sum < -0x8000_0000_0000_0000 then sum + 0x1_0000_0000_0000_0000
    else sum
  }

  /** A page that starts within a list of `n` entries and whose end is no longer an int. */
  predicate EndWraps(n: nat, limit: int, offset: int) {
    var start := if offset < 0 then 0 else offset;
    var count := if limit <= 0 then n else limit;
    start <= n && !IsInt64(start + count)
  }

  /** It takes a positive offset within the list, and a size, the limit or without one the whole list, that
      leads beyond the largest int. */
  lemma EndWrapsIff(n: nat, limit: int, offset: int)
    requires IsInt64(n) && IsInt64(limit) && IsInt64(offset)
    ensures EndWraps(n, limit, offset) <==>
      0 < offset <= n && offset + (if limit > 0 then limit else n) > 0x7FFF_FFFF_FFFF_FFFF
  {
  }

  /** One manifest, the largest limit and an offset right behind the manifest. */
  lemma PageEndCanWrap()
    ensures EndWraps(1, 0x7FFF_FFFF_FFFF_FFFF, 1)
  {
  }

  method CutPage<T>(result: seq<T>, limit: int, offset: int) returns (page: Listing<T>)
    requires IsInt64(limit) && IsInt64(offset) && IsInt64(|result|)
    ensures page == if EndWraps(|result|, limit, offset) then PageOutOfRange else Listed(Page(result, limit, offset))
  {
    var start := if offset < 0 then 0 else offset;
    var count := if limit <= 0 then |result| else limit;
    if start > |result| {
      return Listed([]);
    }
    var end := WrappedSum(start, count);
    if end > |result| {
      end := |result|;
    }
    if end < start {
      return PageOutOfRange;
    }
    page := Listed(result[start..end]);
  }

  function Page<T>(s: seq<T>, limit: int, offset: int): seq<T> {
    var start := if offset < 0 then 0 else offset;
    var count := if limit <= 0 then |s| else limit;
    if start > |s| then []
    else s[start..if start + count > |s| then |s| else start + count]
  }

  /** A page holds what stands from the offset on, at most as many entries as a positive limit says; a
      negative offset is none. */
  lemma {:induction false} PageMeans<T>(s: seq<T>, limit: int, offset: int)
    ensures var p := Page(s, limit, offset);
      && (offset <= 0 ==> p <= s && |p| == if 0 < limit < |s| then limit else |s|)
      && (0 < offset < |s| ==> p <= s[offset..] && |p| == if 0 < limit < |s| - offset then limit else |s| - offset)
      && (offset > 0 && offset >= |s| ==> p == [])
  {
  }

  /** The first `n` pages of the given size, one after another. */
  function Pages<T>(s: seq<T>, limit: nat, n: nat): seq<T> {
    if n == 0 then [] else Pages(s, limit, n - 1) + Page(s, limit, (n - 1) * limit)
  }

  function UpToPosition<T>(s: seq<T>, k: nat): seq<T> {
    if k > |s| then s else s[..k]
  }

  lemma PageContinues<T>(s: seq<T>, limit: nat, k: nat)
    requires limit > 0
    ensures UpToPosition(s, k) + Page(s, limit, k) == UpToPosition(s, k + limit)
  {
  }

  /** Pages neither overlap nor skip: together they are the listing, cut where the last one ends. */
  lemma {:induction false} PagesConcatenate<T>(s: seq<T>, limit: nat, n: nat)
    requires limit > 0
    ensures Pages(s, limit, n) == UpToPosition(s, n * limit)
  {
    if n > 0 {
      var k := (n - 1) * limit;
      assert k + limit == n * limit;
      PagesConcatenate(s, limit, n - 1);
      PageContinues(s, limit, k);
      hide Page, UpToPosition;
    }
  }
}
