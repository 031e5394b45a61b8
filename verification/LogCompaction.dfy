/** internal/memory/compaction.go: three ways to drop older events from an event list. */
module LogCompaction {
  import opened GoText
  import opened Sorting
  import opened Canonical
  import opened EventLog

  datatype CompactionConfig = CompactionConfig(keepRecent: int, maxCompactEvents: int)

  datatype CompactionResult = CompactionResult(
    originalCount: int,
    compactedCount: int,
    removedCount: int,
    bytesSaved: int,
    compacted: bool)

  function Unchanged(events: seq<Event>): CompactionResult {
    CompactionResult(|events|, |events|, 0, 0, false)
  }

  // ----- Estimated text size -----

  function StringifyMeta(v: Value): string {
    if v.Str? then v.s else ""
  }

  function KeyTextSize(meta: Meta, k: string): nat {
    var s := TrimSpace(k);
    if s == "text" || s == "summary" || k !in meta then 0 else |s| + |StringifyMeta(meta[k])|
  }

  predicate IsText(meta: Meta, key: string) {
    key in meta && meta[key].Str?
  }

  function EventTextSize(e: Event): int {
    if IsText(e.meta, "text") then |e.meta["text"].s|
    else if IsText(e.meta, "summary") then |e.meta["summary"].s|
    else if IsText(e.meta, "reason") then |e.meta["reason"].s|
    else SumOver(k => KeyTextSize(e.meta, k), e.meta.Keys)
  }

  lemma {:induction false} SumOfSizesNonNegative(meta: Meta, keys: set<string>)
    ensures SumOver(k => KeyTextSize(meta, k), keys) >= 0
    decreases |keys|
  {
    if keys != {} {
      SumOfSizesNonNegative(meta, keys - {LeastKey(keys)});
    }
  }

  lemma {:induction false} SizeNonNegative(e: Event)
    ensures EventTextSize(e) >= 0
  {
    SumOfSizesNonNegative(e.meta, e.meta.Keys);
  }

  /** The loop over the metadata gives the same estimate in whatever order it visits the keys. */
  method EstimateEventTextSize(e: Event) returns (total: int)
    ensures total == EventTextSize(e)
  {
    hide TrimSpace;
    if IsText(e.meta, "text") {
      return |e.meta["text"].s|;
    }
    if IsText(e.meta, "summary") {
      return |e.meta["summary"].s|;
    }
    if IsText(e.meta, "reason") {
      return |e.meta["reason"].s|;
    }
    total := 0;
    var rest := e.meta.Keys;
    ghost var size := k => KeyTextSize(e.meta, k);
    while rest != {}
      invariant rest <= e.meta.Keys
      invariant total + SumOver(size, rest) == SumOver(size, e.meta.Keys)
      decreases |rest|
    {
      var k :| k in rest;
      SumOverPick(size, rest, k);
      rest := rest - {k};
      var s := TrimSpace(k);
      if s != "text" && s != "summary" {
        total := total + |s| + |StringifyMeta(e.meta[k])|;
      }
    }
  }

  predicate HasText(meta: Meta) {
    IsText(meta, "text") || IsText(meta, "summary") || IsText(meta, "reason")
  }

  /** What the estimate of an event without a text adds up: each key counts with its trimmed length and
      that of its string, except keys that trim to "text" or "summary". */
  lemma {:induction false} OneMoreKey(e: Event, k: string, v: Value)
    requires k !in e.meta && !HasText(e.meta[k := v])
    ensures EventTextSize(e.(meta := map[])) == 0
    ensures EventTextSize(e.(meta := e.meta[k := v])) == EventTextSize(e)
              + (if TrimSpace(k) == "text" || TrimSpace(k) == "summary" then 0 else |TrimSpace(k)|)
              + (if v.Str? && TrimSpace(k) != "text" && TrimSpace(k) != "summary" then |v.s| else 0)
  {
    hide TrimSpace;
    var more := e.meta[k := v];
    SumOverPick(x => KeyTextSize(more, x), more.Keys, k);
    assert more.Keys - {k} == e.meta.Keys;
    SizesAgree(e.meta, more, e.meta.Keys);
    assert forall x | x in e.meta :: more[x] == e.meta[x];
    assert !HasText(e.meta) by {
      assert forall x | x in e.meta :: IsText(e.meta, x) ==> IsText(more, x);
    }
  }

  lemma {:induction false} SizesAgree(a: Meta, b: Meta, keys: set<string>)
    requires forall k | k in keys :: k in a && k in b && a[k] == b[k]
    ensures SumOver(k => KeyTextSize(a, k), keys) == SumOver(k => KeyTextSize(b, k), keys)
    decreases |keys|
  {
    hide TrimSpace;
    if keys != {} {
      SizesAgree(a, b, keys - {LeastKey(keys)});
    }
  }

  // ----- Greedy removal -----

  function LargerFirst<T>(size: T -> int): (T, T) -> bool {
    (x, y) => size(x) > size(y)
  }

  /** Of a list with the largest first, the first n elements outweigh the next n. */
  lemma {:induction false} ShiftedSum<T>(size: T -> int, s: seq<T>, n: nat)
    requires n < |s| && Ordered(LargerFirst(size), s)
    ensures SumBy(size, s[1..n + 1]) <= SumBy(size, s[..n])
  {
    if n > 0 {
      ShiftedSum(size, s, n - 1);
      assert s[1..n + 1][..n - 1] == s[1..n];
      assert s[1..n + 1][n - 1] == s[n];
      assert s[..n][..n - 1] == s[..n - 1];
      assert !LargerFirst(size)(s[n], s[n - 1]);
    }
  }

  lemma {:induction false} SumHead<T>(size: T -> int, s: seq<T>, n: nat)
    requires 0 < n <= |s|
    ensures SumBy(size, s[..n]) == size(s[0]) + SumBy(size, s[1..][..n - 1])
  {
    hide SumBy;
    assert s[..n] == [s[0]] + s[1..][..n - 1];
    SumConcat(size, [s[0]], s[1..][..n - 1]);
    SumOne(size, s[0]);
  }

  lemma {:induction false} ShiftedHead<T>(size: T -> int, s: seq<T>, n: nat)
    requires n < |s| && Ordered(LargerFirst(size), s)
    ensures SumBy(size, s[1..][..n]) <= SumBy(size, s[..n])
  {
    assert s[1..][..n] == s[1..n + 1];
    ShiftedSum(size, s, n);
  }

  lemma {:induction false} TakeFromBoth<T>(s: seq<T>, pick: seq<T>, k: nat)
    requires s != [] && k < |pick| && pick[k] == s[0] && multiset(pick) <= multiset(s)
    ensures multiset(Without(pick, k)) <= multiset(s[1..])
  {
    WithoutMembers(pick, k);
    assert s == [s[0]] + s[1..];
    assert multiset(s[1..]) == multiset(s) - multiset{s[0]};
  }

  lemma {:induction false} SmallerMultiset<T>(a: multiset<T>, b: multiset<T>)
    requires a <= b
    ensures |a| <= |b|
  {
    assert b == a + (b - a);
  }

  /** No choice of n elements weighs more than the n largest. */
  lemma {:induction false} LargestOutweigh<T(!new)>(size: T -> int, s: seq<T>, pick: seq<T>)
    requires Ordered(LargerFirst(size), s) && multiset(pick) <= multiset(s)
    ensures |pick| <= |s| && SumBy(size, pick) <= SumBy(size, s[..|pick|])
    decreases |s|
  {
    SmallerMultiset(multiset(pick), multiset(s));
    if pick == [] {
      assert s[..0] == [];
    } else {
      OrderedTail(LargerFirst(size), s);
      hide Without, LargerFirst, Ordered, SumBy;
      if s[0] in pick {
        var k := AtIndex(pick, s[0]);
        TakeFromBoth(s, pick, k);
        SumWithout(size, pick, k);
        var rest := Without(pick, k);
        assert |rest| == |pick| - 1;
        LargestOutweigh(size, s[1..], rest);
        SumHead(size, s, |pick|);
      } else {
        PickFromTail(s, pick);
        LargestOutweigh(size, s[1..], pick);
        ShiftedHead(size, s, |pick|);
      }
    }
  }

  lemma {:induction false} PickFromTail<T>(s: seq<T>, pick: seq<T>)
    requires s != [] && s[0] !in pick && multiset(pick) <= multiset(s)
    ensures multiset(pick) <= multiset(s[1..])
  {
    assert s == [s[0]] + s[1..];
    forall x | x in multiset(pick)
      ensures multiset(pick)[x] <= multiset(s[1..])[x]
    {
      assert x in pick;
    }
  }

  lemma {:induction false} PrefixSumsGrow<T>(size: T -> int, s: seq<T>, m: nat, n: nat)
    requires m <= n <= |s| && forall x | x in s :: size(x) >= 0
    ensures SumBy(size, s[..m]) <= SumBy(size, s[..n])
    decreases n
  {
    if m < n {
      PrefixSumsGrow(size, s, m, n - 1);
      assert s[..n][..n - 1] == s[..n - 1];
      assert s[n - 1] in s;
    }
  }

  /** `n` removals is where the greedy loop stops: over budget before every one of them, and then
      within budget, out of candidates or at the limit. */
  ghost predicate GreedyStop<T>(size: T -> int, s: seq<T>, total: int, budget: int, limit: int, n: nat) {
    && n <= |s|
    && (forall j: nat | j < n :: total - SumBy(size, s[..j]) > budget)
    && (n == |s| || n >= limit || total - SumBy(size, s[..n]) <= budget)
  }

  /** Taking the largest first is best: fewer elements never reach the budget, and when the loop
      stops short of it, nothing within the limit reaches it. */
  lemma {:induction false} GreedyIsOptimal<T(!new)>(size: T -> int, s: seq<T>, total: int, budget: int, limit: int,
                                                    n: nat, pick: seq<T>)
    requires Ordered(LargerFirst(size), s) && GreedyStop(size, s, total, budget, limit, n)
    requires multiset(pick) <= multiset(s) && forall x | x in s :: size(x) >= 0
    ensures |pick| < n ==> total - SumBy(size, pick) > budget
    ensures total - SumBy(size, s[..n]) > budget && |pick| <= limit ==> total - SumBy(size, pick) > budget
  {
    LargestOutweigh(size, s, pick);
    if |pick| <= n {
      PrefixSumsGrow(size, s, |pick|, n);
    }
  }

  // ----- What every compaction keeps -----

  function OlderFirst(): (Event, Event) -> bool {
    (x: Event, y: Event) => x.ts < y.ts
  }

  /** A negative number of events to keep keeps none. */
  function KeepFrom(events: seq<Event>, cfg: CompactionConfig): nat
    requires cfg.keepRecent <= |events|
  {
    if cfg.keepRecent < 0 then |events| else |events| - cfg.keepRecent
  }

  function Older(events: seq<Event>, cfg: CompactionConfig): seq<Event>
    requires cfg.keepRecent <= |events|
  {
    events[..KeepFrom(events, cfg)]
  }

  function Recent(events: seq<Event>, cfg: CompactionConfig): seq<Event>
    requires cfg.keepRecent <= |events|
  {
    events[KeepFrom(events, cfg)..]
  }

  /** The events are split into kept and removed ones, the counts are those of the split, only
      events before the recent ones are removed, and what is kept is in order of time. */
  ghost predicate IsCompaction(events: seq<Event>, cfg: CompactionConfig, r: CompactionResult, kept: seq<Event>,
                               removed: seq<Event>)
    requires 0 <= cfg.keepRecent < |events|
  {
    && (r.originalCount, r.compactedCount, r.removedCount) == (|events|, |kept|, |removed|)
    && (r.compacted <==> removed != [])
    && multiset(kept) + multiset(removed) == multiset(events)
    && multiset(removed) <= multiset(Older(events, cfg))
    && Ordered(OlderFirst(), kept)
  }

  function TotalSize(events: seq<Event>): int {
    SumBy(EventTextSize, events)
  }

  /** Removing the given events would meet the budget. */
  ghost predicate Suffices(events: seq<Event>, budget: int, pick: seq<Event>) {
    TotalSize(events) - TotalSize(pick) <= budget
  }

  /** Largest-first removal until the budget is met, `removed` being what goes: no smaller set of
      older events meets the budget; and if this one does not, no set within the limit does. */
  ghost predicate IsGreedy(events: seq<Event>, budget: int, cfg: CompactionConfig, r: CompactionResult,
                           kept: seq<Event>, removed: seq<Event>)
    requires 0 <= cfg.keepRecent < |events|
  {
    && IsCompaction(events, cfg, r, kept, removed) && r.bytesSaved == TotalSize(removed)
    && (|removed| > 0 ==> |removed| <= cfg.maxCompactEvents)
    && (forall pick: seq<Event> | multiset(pick) <= multiset(Older(events, cfg)) ::
          if Suffices(events, budget, removed) then Suffices(events, budget, pick) ==> |pick| >= |removed|
          else |pick| <= cfg.maxCompactEvents ==> !Suffices(events, budget, pick))
  }

  method CompactByTextSize(events: seq<Event>, budgetBytes: int, cfg: CompactionConfig)
    returns (r: CompactionResult, kept: seq<Event>)
    requires cfg.keepRecent >= 0 || TotalSize(events) <= budgetBytes
    ensures |events| <= cfg.keepRecent || TotalSize(events) <= budgetBytes ==>
              r == CompactionResult(|events|, |events|, 0, 0, false) && kept == events
    ensures |events| > cfg.keepRecent && TotalSize(events) > budgetBytes ==>
      exists removed :: IsGreedy(events, budgetBytes, cfg, r, kept, removed)
  {
    hide EventTextSize, Ordered, IsCompaction;
    if |events| <= cfg.keepRecent {
      return Unchanged(events), events;
    }
    var totalSize := MeasureAll(events);
    if totalSize <= budgetBytes {
      return Unchanged(events), events;
    }
    var older := Older(events, cfg);
    LargerFirstIsOrder(EventTextSize);
    var candidates := SortSlice(LargerFirst(EventTextSize), older);
    SameMembers(candidates, older);
    var n := 0;
    var currentSize := totalSize;
    while n < |candidates| && n < cfg.maxCompactEvents && currentSize > budgetBytes
      invariant 0 <= n <= |candidates|
      invariant n > 0 ==> n <= cfg.maxCompactEvents
      invariant currentSize == totalSize - TotalSize(candidates[..n])
      invariant forall j: nat | j < n :: totalSize - TotalSize(candidates[..j]) > budgetBytes
    {
      assert candidates[..n + 1][..n] == candidates[..n];
      var size := EstimateEventTextSize(candidates[n]);
      currentSize := currentSize - size;
      n := n + 1;
    }
    kept := Chronological(candidates[n..] + Recent(events, cfg));
    r := CompactionResult(|events|, |kept|, n, totalSize - currentSize, n > 0);
    SplitIsCompaction(events, cfg, candidates, n, r, kept);
    ghost var removed := candidates[..n];
    forall pick: seq<Event> | multiset(pick) <= multiset(older)
      ensures if Suffices(events, budgetBytes, removed) then Suffices(events, budgetBytes, pick) ==> |pick| >= |removed|
              else |pick| <= cfg.maxCompactEvents ==> !Suffices(events, budgetBytes, pick)
    {
      forall x | x in candidates
        ensures EventTextSize(x) >= 0
      {
        SizeNonNegative(x);
      }
      GreedyIsOptimal(EventTextSize, candidates, totalSize, budgetBytes, cfg.maxCompactEvents, n, pick);
    }
    assert IsGreedy(events, budgetBytes, cfg, r, kept, removed);
  }

  method MeasureAll(events: seq<Event>) returns (total: int)
    ensures total == TotalSize(events)
  {
    hide EventTextSize;
    total := 0;
    for i := 0 to |events|
      invariant total == TotalSize(events[..i])
    {
      assert events[..i + 1][..i] == events[..i];
      var size := EstimateEventTextSize(events[i]);
      total := total + size;
    }
    assert events[..|events|] == events;
  }

  lemma LargerFirstIsOrder<T(!new)>(size: T -> int)
    ensures StrictOrder(LargerFirst(size))
  {
  }

  method Chronological(events: seq<Event>) returns (r: seq<Event>)
    ensures multiset(r) == multiset(events) && Ordered(OlderFirst(), r)
  {
    assert StrictOrder(OlderFirst());
    r := SortSlice(OlderFirst(), events);
  }

  /** Removing a prefix of the reordered candidates splits the events. */
  lemma {:induction false} SplitIsCompaction(events: seq<Event>, cfg: CompactionConfig, candidates: seq<Event>,
                                             n: nat, r: CompactionResult, kept: seq<Event>)
    requires 0 <= cfg.keepRecent < |events| && n <= |candidates|
    requires multiset(candidates) == multiset(Older(events, cfg))
    requires multiset(kept) == multiset(candidates[n..] + Recent(events, cfg)) && Ordered(OlderFirst(), kept)
    requires (r.originalCount, r.compactedCount, r.removedCount) == (|events|, |kept|, n) && (r.compacted <==> n > 0)
    ensures IsCompaction(events, cfg, r, kept, candidates[..n])
  {
    hide Ordered;
    assert candidates == candidates[..n] + candidates[n..];
    assert events == Older(events, cfg) + Recent(events, cfg);
  }

  // ----- By score -----

  /** An event without a score scores zero. */
  function Score(scores: map<string, real>, e: Event): real {
    if e.id in scores then scores[e.id] else 0.0
  }

  function LowerScoreFirst(scores: map<string, real>): (Event, Event) -> bool {
    (x: Event, y: Event) =>
      if Score(scores, x) != Score(scores, y) then Score(scores, x) < Score(scores, y) else x.ts < y.ts
  }

  lemma {:induction false} LowerScoreFirstIsOrder(scores: map<string, real>)
    ensures StrictOrder(LowerScoreFirst(scores))
  {
    hide Score;
  }

  /** How many of `m` candidates go: up to the limit, but half of them when that would be all. */
  function RemovalCount(m: nat, limit: nat): (n: nat)
    ensures n <= limit && (m > 0 ==> n < m)
  {
    if m <= limit then m / 2 else limit
  }

  /** Older events split into survivors and removed ones, as many as the limits say, every removed one
      scoring at least as high as every survivor. */
  ghost predicate KeepsLowest(events: seq<Event>, scores: map<string, real>, cfg: CompactionConfig, r: CompactionResult,
                              kept: seq<Event>, removed: seq<Event>, survivors: seq<Event>)
    requires 0 <= cfg.keepRecent < |events| && cfg.maxCompactEvents >= 0
  {
    && IsCompaction(events, cfg, r, kept, removed) && r.bytesSaved == 0
    && |removed| == RemovalCount(|Older(events, cfg)|, cfg.maxCompactEvents)
    && multiset(survivors) + multiset(removed) == multiset(Older(events, cfg)) && survivors != []
    && forall x, y | x in removed && y in survivors ::
      Score(scores, y) < Score(scores, x) || (Score(scores, y) == Score(scores, x) && y.ts <= x.ts)
  }

  /** The same in terms of the scores: an event without one counts as scored with zero, and among equal
      scores the newer events go. */
  lemma {:induction false} RemovedOutscore(events: seq<Event>, scores: map<string, real>, cfg: CompactionConfig,
                                           r: CompactionResult, kept: seq<Event>, removed: seq<Event>,
                                           survivors: seq<Event>, x: Event, y: Event)
    requires 0 <= cfg.keepRecent < |events| && cfg.maxCompactEvents >= 0
    requires KeepsLowest(events, scores, cfg, r, kept, removed, survivors) && x in removed && y in survivors
    ensures x.id in scores && y.id in scores ==> scores[y.id] <= scores[x.id]
    ensures x.id in scores && y.id !in scores ==> 0.0 <= scores[x.id]
    ensures x.id !in scores && y.id in scores ==> scores[y.id] <= 0.0
    ensures x.id !in scores && y.id !in scores ==> y.ts <= x.ts
    ensures x.id in scores && y.id in scores && scores[x.id] == scores[y.id] ==> y.ts <= x.ts
  {
    hide IsCompaction;
  }

  /** Despite its comment this keeps the front of the ascending order: what it removes scores at
      least as high as every older event that stays. The recent events stay, and so does at least
      one older event. */
  method CompactByScore(events: seq<Event>, scores: map<string, real>, cfg: CompactionConfig)
    returns (r: CompactionResult, kept: seq<Event>)
    requires |events| <= cfg.keepRecent || (cfg.keepRecent >= 0 && cfg.maxCompactEvents >= 0)
    ensures |events| <= cfg.keepRecent ==>
              r == CompactionResult(|events|, |events|, 0, 0, false) && kept == events
    ensures |events| > cfg.keepRecent ==>
      exists removed, survivors :: KeepsLowest(events, scores, cfg, r, kept, removed, survivors)
  {
    hide Score, IsCompaction;
    if |events| <= cfg.keepRecent {
      return Unchanged(events), events;
    }
    LowerScoreFirstIsOrder(scores);
    var older := Older(events, cfg);
    var candidates := SortSlice(LowerScoreFirst(scores), older);
    SameMembers(candidates, older);
    var toRemove := |candidates|;
    if toRemove > cfg.maxCompactEvents {
      toRemove := cfg.maxCompactEvents;
    }
    if toRemove >= |candidates| {
      toRemove := |candidates| / 2;
    }
    var stay := |candidates| - toRemove;
    kept := Chronological(candidates[..stay] + Recent(events, cfg));
    r := CompactionResult(|events|, |kept|, toRemove, 0, toRemove > 0);
    hide Ordered, KeepsLowest;
    SplitByScore(events, scores, cfg, candidates, stay, r, kept);
    assert KeepsLowest(events, scores, cfg, r, kept, candidates[stay..], candidates[..stay]);
  }

  lemma {:induction false} SplitByScore(events: seq<Event>, scores: map<string, real>, cfg: CompactionConfig,
                                        candidates: seq<Event>, stay: nat, r: CompactionResult, kept: seq<Event>)
    requires 0 <= cfg.keepRecent < |events| && cfg.maxCompactEvents >= 0
    requires IsSorting(LowerScoreFirst(scores), Older(events, cfg), candidates)
      && stay <= |candidates| == |Older(events, cfg)|
    requires |candidates| - stay == RemovalCount(|candidates|, cfg.maxCompactEvents)
    requires multiset(kept) == multiset(candidates[..stay] + Recent(events, cfg)) && Ordered(OlderFirst(), kept)
    requires r == CompactionResult(|events|, |kept|, |candidates| - stay, 0, |candidates| - stay > 0)
    ensures KeepsLowest(events, scores, cfg, r, kept, candidates[stay..], candidates[..stay])
  {
    hide Score, IsCompaction, Ordered, LowerScoreFirst;
    var survivors := candidates[..stay];
    var removed := candidates[stay..];
    assert candidates == survivors + removed;
    FrontIsCompaction(events, cfg, survivors, removed, r, kept);
    FrontScoresLowest(scores, survivors, removed);
  }

  lemma {:induction false} FrontScoresLowest(scores: map<string, real>, survivors: seq<Event>, removed: seq<Event>)
    requires Ordered(LowerScoreFirst(scores), survivors + removed)
    ensures forall x, y | x in removed && y in survivors ::
      Score(scores, y) < Score(scores, x) || (Score(scores, y) == Score(scores, x) && y.ts <= x.ts)
  {
    hide Score;
    var all := survivors + removed;
    forall x, y | x in removed && y in survivors
      ensures Score(scores, y) < Score(scores, x) || (Score(scores, y) == Score(scores, x) && y.ts <= x.ts)
    {
      var i := AtIndex(survivors, y);
      var j := AtIndex(removed, x);
      assert !LowerScoreFirst(scores)(all[|survivors| + j], all[i]);
    }
  }

  /** What the comment promises, that the lowest scores go, holds exactly when nothing goes or all
      older events score alike. */
  lemma {:induction false} RemovesLowestIff(events: seq<Event>, scores: map<string, real>, cfg: CompactionConfig,
                                            r: CompactionResult, kept: seq<Event>, removed: seq<Event>,
                                            survivors: seq<Event>)
    requires 0 <= cfg.keepRecent < |events| && cfg.maxCompactEvents >= 0
    requires KeepsLowest(events, scores, cfg, r, kept, removed, survivors)
    ensures (forall x, y | x in removed && y in survivors :: Score(scores, x) <= Score(scores, y))
            <==> RemovalCount(|Older(events, cfg)|, cfg.maxCompactEvents) == 0
                 || forall x, y | x in Older(events, cfg) && y in Older(events, cfg) ::
                      Score(scores, x) == Score(scores, y)
  {
    var older := Older(events, cfg);
    hide Score, IsCompaction, Older;
    forall x
      ensures x in older <==> x in removed || x in survivors
    {
      assert x in multiset(older) <==> x in multiset(removed) || x in multiset(survivors);
    }
    if removed != [] && forall x, y | x in removed && y in survivors :: Score(scores, x) <= Score(scores, y) {
      var level := Score(scores, survivors[0]);
      assert removed[0] in removed && survivors[0] in survivors;
      forall x | x in older
        ensures Score(scores, x) == level
      {
        if x in survivors {
          assert Score(scores, x) == Score(scores, removed[0]) == level;
        }
      }
    }
  }

  function Sample(id: string, ts: int): Event {
    Event(id, "s", ts, KindTurnUser, "main", "", [], map[], "")
  }

  lemma {:induction false} SplitPair<T(!new)>(a: T, b: T, x: seq<T>, y: seq<T>)
    requires multiset(x) + multiset(y) == multiset{a, b} && |y| == 1 && a != b
    ensures (x == [a] && y == [b]) || (x == [b] && y == [a])
  {
    assert y == [y[0]];
    assert y[0] in multiset{a, b};
    var other := if y[0] == a then b else a;
    assert multiset(x) == multiset{other};
    assert |x| == |multiset(x)| == 1;
    assert x[0] in multiset(x);
  }

  /** Of two older events with scores 1 and 0 the one with score 1 goes. */
  lemma {:induction false} HighestIsRemoved(r: CompactionResult, kept: seq<Event>, removed: seq<Event>,
                                            survivors: seq<Event>)
    requires KeepsLowest([Sample("a", 1), Sample("b", 2), Sample("c", 3)], map["a" := 1.0, "b" := 0.0],
                         CompactionConfig(1, 20), r, kept, removed, survivors)
    ensures removed == [Sample("a", 1)] && survivors == [Sample("b", 2)]
  {
    var (a, b, c) := (Sample("a", 1), Sample("b", 2), Sample("c", 3));
    var (scores, older) := (map["a" := 1.0, "b" := 0.0], Older([a, b, c], CompactionConfig(1, 20)));
    assert older == [a, b] && Score(scores, a) == 1.0 && Score(scores, b) == 0.0;
    assert a != b && multiset(older) == multiset{a, b};
    hide IsCompaction, Score, Sample;
    SplitPair(a, b, survivors, removed);
    assert survivors[0] in survivors && removed[0] in removed;
  }

  lemma {:induction false} FrontIsCompaction(events: seq<Event>, cfg: CompactionConfig, survivors: seq<Event>,
                                             removed: seq<Event>, r: CompactionResult, kept: seq<Event>)
    requires 0 <= cfg.keepRecent < |events|
    requires multiset(survivors) + multiset(removed) == multiset(Older(events, cfg))
    requires multiset(kept) == multiset(survivors + Recent(events, cfg)) && Ordered(OlderFirst(), kept)
    requires (r.originalCount, r.compactedCount, r.removedCount) == (|events|, |kept|, |removed|)
    requires r.compacted <==> removed != []
    ensures IsCompaction(events, cfg, r, kept, removed)
  {
    hide Ordered;
    assert events == Older(events, cfg) + Recent(events, cfg);
  }

  // ----- By age -----

  function IsAged(cutoff: int): Event -> bool {
    (e: Event) => e.ts < cutoff
  }

  function IsFresh(cutoff: int): Event -> bool {
    (e: Event) => e.ts >= cutoff
  }

  lemma FilterNone<T>(f: T -> bool, s: seq<T>)
    ensures Filter(f, s[..0]) == []
  {
  }

  lemma {:induction false} FilterNext<T>(f: T -> bool, s: seq<T>, i: nat)
    requires i < |s|
    ensures Filter(f, s[..i + 1]) == Filter(f, s[..i]) + (if f(s[i]) then [s[i]] else [])
  {
    assert s[..i + 1][..i] == s[..i];
  }

  /** Where the loop over the older events stops: at their end, or once the limit is reached. */
  ghost predicate AgeStop(older: seq<Event>, cutoff: int, limit: int, p: nat) {
    && p <= |older|
    && (forall j: nat | j < p :: |Filter(IsAged(cutoff), older[..j])| < limit)
    && (p == |older| || |Filter(IsAged(cutoff), older[..p])| >= limit)
  }

  /** The loop has looked at the first `p` older events; of these the fresh ones stay and the aged ones
      are counted. */
  ghost predicate IsAgeCompaction(events: seq<Event>, cutoff: int, cfg: CompactionConfig, r: CompactionResult,
                                  kept: seq<Event>, p: nat)
    requires cfg.keepRecent <= |events|
  {
    var older := Older(events, cfg);
    && AgeStop(older, cutoff, cfg.maxCompactEvents, p)
    && multiset(kept) == multiset(Filter(IsFresh(cutoff), older[..p])) + multiset(Recent(events, cfg))
    && Ordered(OlderFirst(), kept)
    && r == CompactionResult(|events|, |kept|, |Filter(IsAged(cutoff), older[..p])|, 0,
                             Filter(IsAged(cutoff), older[..p]) != [])
  }

  /** When the limit is reached the loop ends, and the older events it has not yet seen are dropped
      without being counted. `p` is where it ended. */
  method CompactAgeThreshold(events: seq<Event>, cutoff: int, cfg: CompactionConfig)
    returns (r: CompactionResult, kept: seq<Event>, ghost p: nat)
    requires cfg.keepRecent >= 0 || |Filter(IsAged(cutoff), events)| >= cfg.maxCompactEvents
    ensures |events| <= cfg.keepRecent ==>
              r == CompactionResult(|events|, |events|, 0, 0, false) && kept == events
    ensures |events| > cfg.keepRecent ==> IsAgeCompaction(events, cutoff, cfg, r, kept, p)
  {
    hide Ordered, Filter;
    p := 0;
    if |events| <= cfg.keepRecent {
      return Unchanged(events), events, 0;
    }
    var keepFrom := |events| - cfg.keepRecent;
    ghost var older := Older(events, cfg);
    assert events[..|events|] == events;
    var fresh_: seq<Event> := [];
    var removed := 0;
    var i := 0;
    FilterNone(IsFresh(cutoff), older);
    FilterNone(IsAged(cutoff), older);
    while i < keepFrom && removed < cfg.maxCompactEvents
      invariant 0 <= i <= |older|
      invariant fresh_ == Filter(IsFresh(cutoff), older[..i])
      invariant removed == |Filter(IsAged(cutoff), older[..i])|
      invariant i == |events| && cfg.keepRecent < 0 ==> removed >= cfg.maxCompactEvents
      invariant forall j: nat | j < i :: |Filter(IsAged(cutoff), older[..j])| < cfg.maxCompactEvents
    {
      FilterNext(IsFresh(cutoff), older, i);
      FilterNext(IsAged(cutoff), older, i);
      assert older[..|older|] == older;
      if events[i].ts < cutoff {
        removed := removed + 1;
      } else {
        fresh_ := fresh_ + [events[i]];
      }
      i := i + 1;
    }
    p := i;
    kept := Chronological(fresh_ + (if keepFrom < |events| then events[keepFrom..] else []));
    assert Recent(events, cfg) == if keepFrom < |events| then events[keepFrom..] else [];
    r := CompactionResult(|events|, |kept|, removed, 0, removed > 0);
  }

  lemma {:induction false} AgedOrFresh(cutoff: int, s: seq<Event>)
    ensures |Filter(IsAged(cutoff), s)| + |Filter(IsFresh(cutoff), s)| == |s|
  {
    if s != [] {
      AgedOrFresh(cutoff, s[..|s| - 1]);
    }
  }

  lemma {:induction false} AgedGrows(cutoff: int, s: seq<Event>, m: nat, n: nat)
    requires m <= n <= |s|
    ensures |Filter(IsAged(cutoff), s[..m])| <= |Filter(IsAged(cutoff), s[..n])|
    decreases n
  {
    if m < n {
      AgedGrows(cutoff, s, m, n - 1);
      assert s[..n][..n - 1] == s[..n - 1];
    }
  }

  lemma {:induction false} SumOfSizes<T>(s: seq<T>, a: seq<T>, b: seq<T>)
    requires multiset(s) == multiset(a) + multiset(b)
    ensures |s| == |a| + |b|
  {
    assert |s| == |multiset(s)|;
  }

  /** The three counts add up exactly when the limit is not reached before the last older event. */
  lemma {:induction false} AgeCountsAddUpIff(events: seq<Event>, cutoff: int, cfg: CompactionConfig,
                                             r: CompactionResult, kept: seq<Event>, p: nat)
    requires cfg.keepRecent <= |events| && Older(events, cfg) != []
    requires IsAgeCompaction(events, cutoff, cfg, r, kept, p)
    ensures r.compactedCount + r.removedCount == r.originalCount - (|Older(events, cfg)| - p)
    ensures r.compactedCount + r.removedCount == r.originalCount
            <==> |Filter(IsAged(cutoff), Older(events, cfg)[..|Older(events, cfg)| - 1])| < cfg.maxCompactEvents
  {
    hide Ordered;
    var older := Older(events, cfg);
    AgedOrFresh(cutoff, older[..p]);
    SumOfSizes(kept, Filter(IsFresh(cutoff), older[..p]), Recent(events, cfg));
    hide IsFresh, KeepFrom;
    assert |events| == |older| + |Recent(events, cfg)|;
    if p < |older| {
      AgedGrows(cutoff, older, p, |older| - 1);
    }
  }

  /** Two aged events and a limit of one: the second is dropped without being counted. */
  lemma {:induction false} AgedEventIsUncounted(r: CompactionResult, kept: seq<Event>, p: nat)
    requires IsAgeCompaction([Sample("a", 1), Sample("b", 2), Sample("c", 9)], 5, CompactionConfig(1, 1), r, kept, p)
    ensures r.originalCount == 3 && r.compactedCount == 1 && r.removedCount == 1
  {
    var events, cfg := [Sample("a", 1), Sample("b", 2), Sample("c", 9)], CompactionConfig(1, 1);
    var older := Older(events, cfg);
    assert older == events[..2] && Recent(events, cfg) == [events[2]];
    assert older[..0] == [] && older[..1] == [events[0]] && older[..1][..0] == [];
    assert Filter(IsAged(5), older[..1]) == [events[0]] && Filter(IsFresh(5), older[..1]) == [];
    assert p == 1;
    SumOfSizes(kept, [], [events[2]]);
  }

  // ----- Order -----

  ghost predicate StrictlyOrdered(events: seq<Event>) {
    forall i, j | 0 <= i < j < |events| :: events[i].ts < events[j].ts
  }

  /** `at` picks a subsequence. */
  ghost predicate Picks(at: seq<nat>, n: nat) {
    && (forall i | 0 <= i < |at| :: at[i] < n)
    && (forall i, j | 0 <= i < j < |at| :: at[i] < at[j])
  }

  lemma PicksCompare(at: seq<nat>, n: nat, i: nat, j: nat)
    requires Picks(at, n) && i < |at| && j < |at|
    ensures at[i] < at[j] <==> i < j
  {
  }

  lemma {:induction false} PicksLast(at: seq<nat>, n: nat, m: nat, k: nat)
    requires Picks(at, n) && k < m <= n
    requires forall i: nat | n - m <= i < n :: i in at
    ensures |at| > k && at[|at| - 1 - k] == n - 1 - k
  {
    var last := n - 1 - k;
    assert last in at;
    var i := AtIndex(at, last);
    if k == 0 {
      PicksCompare(at, n, i, |at| - 1);
    } else {
      PicksLast(at, n, m, k - 1);
      PicksCompare(at, n, i, |at| - k);
      PicksCompare(at, n, i, |at| - 1 - k);
      PicksCompare(at, n, |at| - 1 - k, |at| - k);
    }
  }

  lemma {:induction false} PositionsIncrease(events: seq<Event>, kept: seq<Event>, at: seq<nat>)
    requires StrictlyOrdered(events) && Ordered(OlderFirst(), kept) && multiset(kept) <= multiset(events)
    requires |at| == |kept| && forall i | 0 <= i < |at| :: at[i] < |events| && events[at[i]] == kept[i]
    ensures Picks(at, |events|)
  {
    forall i, j | 0 <= i < j < |at|
      ensures at[i] < at[j]
    {
      assert !OlderFirst()(kept[j], kept[i]);
      DifferentPositions(events, kept, at, i, j);
      TimeCompare(events, at[j], at[i]);
    }
  }

  lemma TimeCompare(events: seq<Event>, i: nat, j: nat)
    requires StrictlyOrdered(events) && i < |events| && j < |events|
    ensures events[i].ts < events[j].ts <==> i < j
  {
  }

  lemma {:induction false} RepeatedCounts(s: seq<Event>, i: nat, j: nat)
    requires i < j < |s| && s[i] == s[j]
    ensures multiset(s)[s[i]] >= 2
  {
    assert s == s[..i] + [s[i]] + s[i + 1..j] + [s[j]] + s[j + 1..];
  }

  lemma {:induction false} DifferentPositions(events: seq<Event>, kept: seq<Event>, at: seq<nat>, i: nat, j: nat)
    requires Distinct(events) && multiset(kept) <= multiset(events) && |at| == |kept| && i < j < |kept|
    requires forall k | 0 <= k < |at| :: at[k] < |events| && events[at[k]] == kept[k]
    ensures at[i] != at[j]
  {
    if at[i] == at[j] {
      DistinctCounts(events, kept[i]);
      RepeatedCounts(kept, i, j);
      assert false;
    }
  }

  /** Kept are some of the events, all recent ones among them, in order of time. */
  ghost predicate KeepsRecent(events: seq<Event>, cfg: CompactionConfig, kept: seq<Event>)
    requires cfg.keepRecent <= |events|
  {
    && multiset(kept) <= multiset(events) && multiset(Recent(events, cfg)) <= multiset(kept)
    && Ordered(OlderFirst(), kept)
  }

  lemma {:induction false} CompactionKeepsRecent(events: seq<Event>, cfg: CompactionConfig, r: CompactionResult,
                                                 kept: seq<Event>, removed: seq<Event>)
    requires 0 <= cfg.keepRecent < |events| && IsCompaction(events, cfg, r, kept, removed)
    ensures KeepsRecent(events, cfg, kept)
  {
    hide Ordered;
    var (older, recent) := (Older(events, cfg), Recent(events, cfg));
    assert events == older + recent;
    MultisetCancels(multiset(kept), multiset(removed), multiset(older), multiset(recent));
  }

  lemma {:induction false} MultisetCancels<T(!new)>(kept: multiset<T>, removed: multiset<T>, older: multiset<T>,
                                                    recent: multiset<T>)
    requires kept + removed == older + recent && removed <= older
    ensures recent <= kept <= older + recent
  {
    forall x
      ensures recent[x] <= kept[x] <= (older + recent)[x]
    {
      assert (kept + removed)[x] == (older + recent)[x];
      assert removed[x] <= older[x];
    }
  }

  lemma {:induction false} AgeCompactionKeepsRecent(events: seq<Event>, cutoff: int, cfg: CompactionConfig,
                                                    r: CompactionResult, kept: seq<Event>, p: nat)
    requires cfg.keepRecent <= |events| && IsAgeCompaction(events, cutoff, cfg, r, kept, p)
    ensures KeepsRecent(events, cfg, kept)
  {
    hide Ordered, Filter;
    var (older, recent) := (Older(events, cfg), Recent(events, cfg));
    assert events == older + recent;
    FilterIsPart(IsFresh(cutoff), older[..p]);
    assert older == older[..p] + older[p..];
  }

  lemma {:induction false} FilterIsPart<T>(f: T -> bool, s: seq<T>)
    ensures multiset(Filter(f, s)) <= multiset(s)
  {
    if s != [] {
      FilterIsPart(f, s[..|s| - 1]);
      assert s == s[..|s| - 1] + [s[|s| - 1]];
    }
  }

  /** `kept` is what one of the three compactions returns. */
  ghost predicate IsCompacted(events: seq<Event>, cfg: CompactionConfig, kept: seq<Event>)
    requires cfg.keepRecent < |events|
  {
    || (cfg.keepRecent >= 0 && exists r, removed :: IsCompaction(events, cfg, r, kept, removed))
    || exists cutoff, r, p :: IsAgeCompaction(events, cutoff, cfg, r, kept, p)
  }

  /** On a log in strict order of time every compaction returns a subsequence of the log that ends
      with the recent events. */
  lemma {:induction false} CompactionIsSubsequence(events: seq<Event>, cfg: CompactionConfig, kept: seq<Event>)
    returns (at: seq<nat>)
    requires cfg.keepRecent < |events| && StrictlyOrdered(events) && IsCompacted(events, cfg, kept)
    ensures Picks(at, |events|) && |at| == |kept|
    ensures forall i | 0 <= i < |at| :: kept[i] == events[at[i]]
    ensures var m := |Recent(events, cfg)|; |kept| >= m && kept[|kept| - m..] == Recent(events, cfg)
  {
    hide IsCompaction, IsAgeCompaction, KeepsRecent;
    if r, removed :| cfg.keepRecent >= 0 && IsCompaction(events, cfg, r, kept, removed) {
      CompactionKeepsRecent(events, cfg, r, kept, removed);
    } else {
      var cutoff, r, p :| IsAgeCompaction(events, cutoff, cfg, r, kept, p);
      AgeCompactionKeepsRecent(events, cutoff, cfg, r, kept, p);
    }
    at := KeptIsSubsequence(events, cfg, kept);
  }

  lemma {:induction false} KeptIsSubsequence(events: seq<Event>, cfg: CompactionConfig, kept: seq<Event>)
    returns (at: seq<nat>)
    requires cfg.keepRecent <= |events| && StrictlyOrdered(events) && KeepsRecent(events, cfg, kept)
    ensures Picks(at, |events|) && |at| == |kept|
    ensures forall i | 0 <= i < |at| :: kept[i] == events[at[i]]
    ensures var m := |Recent(events, cfg)|; |kept| >= m && kept[|kept| - m..] == Recent(events, cfg)
  {
    at := PositionsIn(events, kept);
    PositionsIncrease(events, kept, at);
    hide Ordered;
    forall k: nat | KeepFrom(events, cfg) <= k < |events|
      ensures k in at
    {
      RecentStaysAt(events, cfg, kept, at, k);
    }
    SuffixByPositions(events, kept, at, |Recent(events, cfg)|);
  }

  lemma {:induction false} SuffixByPositions(events: seq<Event>, kept: seq<Event>, at: seq<nat>, m: nat)
    requires Picks(at, |events|) && m <= |events| && |at| == |kept|
    requires forall i | 0 <= i < |at| :: kept[i] == events[at[i]]
    requires forall k: nat | |events| - m <= k < |events| :: k in at
    ensures m <= |kept| && kept[|kept| - m..] == events[|events| - m..]
  {
    if m > 0 {
      PicksLast(at, |events|, m, m - 1);
    }
    var (ks, es) := (kept[|kept| - m..], events[|events| - m..]);
    forall i | 0 <= i < m
      ensures ks[i] == es[i]
    {
      PicksLast(at, |events|, m, m - 1 - i);
    }
    assert ks == es;
  }

  lemma {:induction false} PositionsIn(events: seq<Event>, kept: seq<Event>) returns (at: seq<nat>)
    requires multiset(kept) <= multiset(events)
    ensures |at| == |kept| && forall i | 0 <= i < |at| :: at[i] < |events| && events[at[i]] == kept[i]
  {
    at := [];
    while |at| < |kept|
      invariant |at| <= |kept|
      invariant forall i | 0 <= i < |at| :: at[i] < |events| && events[at[i]] == kept[i]
    {
      assert kept[|at|] in multiset(kept);
      var k := AtIndex(events, kept[|at|]);
      at := at + [k];
    }
  }

  lemma {:induction false} RecentStaysAt(events: seq<Event>, cfg: CompactionConfig, kept: seq<Event>, at: seq<nat>,
                                         k: nat)
    requires cfg.keepRecent <= |events| && StrictlyOrdered(events) && KeepsRecent(events, cfg, kept)
    requires |at| == |kept| && forall i | 0 <= i < |at| :: at[i] < |events| && events[at[i]] == kept[i]
    requires KeepFrom(events, cfg) <= k < |events|
    ensures k in at
  {
    hide Ordered;
    var recent := Recent(events, cfg);
    assert recent[k - KeepFrom(events, cfg)] == events[k];
    assert events[k] in multiset(recent);
    var i := AtIndex(kept, events[k]);
    assert events[at[i]].ts == events[k].ts;
    assert at[i] == k;
  }
}
