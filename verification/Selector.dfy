/** internal/egress/selector.go: which events of the log become working items of a packet, and why. */
module Selector {
  import opened GoText
  import opened Sorting
  import opened Canonical

  const LARGE_TEXT_BYTES := 1024
  const STALE_DISTANCE := 8
  const MAX_EXCLUDED := 8

  datatype EligibilityClass = Passthrough | SummaryOnly | RefOnly | DropUnlessAsked | DebugNever

  datatype ReasonCode =
    | BranchLocality | RecentTurn | ToolResult | SummaryCheckpoint | CheckpointRef | GlobalRelevant
    | BudgetFit | DebugKind | NonLocal | SensitiveLocal | RefUnavailable
  {
    function Name(): string {
      match this
      case BranchLocality => "branch_locality"
      case RecentTurn => "recent_turn"
      case ToolResult => "tool_result"
      case SummaryCheckpoint => "summary_checkpoint"
      case CheckpointRef => "checkpoint_ref"
      case GlobalRelevant => "global_relevant"
      case BudgetFit => "budget_fit"
      case DebugKind => "debug_never"
      case NonLocal => "non_local"
      case SensitiveLocal => "sensitive_local"
      case RefUnavailable => "ref_unavailable"
    }
  }

  datatype Candidate = Candidate(
    id: string,
    kind: string,
    text: string,
    summaryRef: string,
    blobRef: string,
    frontierOrdinal: int,
    isActiveBranch: bool,
    isGlobalRelevant: bool,
    isCurrentUserTurn: bool,
    isLatestToolResult: bool,
    isCheckpoint: bool,
    isNearestSummary: bool,
    isSensitiveLocal: bool)

  datatype Selected = Selected(
    id: string,
    kind: string,
    eligibility: EligibilityClass,
    reason: ReasonCode,
    include_: bool,
    text: string,
    summaryRef: string,
    blobRef: string,
    frontierOrdinal: int)

  datatype ItemReason = ItemReason(
    id: string,
    kind: string,
    reason: ReasonCode,
    eligibility: EligibilityClass,
    frontierOrdinal: int)

  datatype ReasonCount = ReasonCount(reason: ReasonCode, count: int)

  datatype Explanation = Explanation(
    included: seq<ItemReason>,
    excluded: seq<ItemReason>,
    dominantInclusionReasons: seq<ReasonCount>,
    dominantExclusionReasons: seq<ReasonCount>)

  // ----- Kinds; `fold` stands for strings.ToLower -----

  type Fold = string -> string

  predicate HasPrefix(s: string, p: string) {
    p <= s
  }

  predicate Contains(s: string, part: string) {
    part <= s || (s != "" && Contains(s[1..], part))
  }

  predicate IsDebugNeverKind(fold: Fold, kind: string) {
    var k := TrimSpace(fold(kind));
    HasPrefix(k, "packet.") || HasPrefix(k, "response.")
    || Contains(k, "debug") || Contains(k, "metrics") || Contains(k, "trace")
  }

  /** Spine-only kinds. */
  predicate IsNeverEgressKind(fold: Fold, kind: string) {
    var k := TrimSpace(fold(kind));
    HasPrefix(k, "branch.fork") || HasPrefix(k, "consult.") || HasPrefix(k, "summary.rebuild")
      || HasPrefix(k, "replay.")
    || HasPrefix(k, "recovery.") || HasPrefix(k, "context.compact") || HasPrefix(k, "dream.") || HasPrefix(k, "audit.")
  }

  predicate IsLargeAndStale(c: Candidate, latestOrdinal: int) {
    |c.text| > LARGE_TEXT_BYTES && latestOrdinal - c.frontierOrdinal > STALE_DISTANCE
  }

  // ----- One candidate -----

  /** The switch of the selector. */
  function SelectOne(fold: Fold, c: Candidate, latestOrdinal: int): Selected {
    var s := Selected(c.id, c.kind, Passthrough, BranchLocality, true, c.text, c.summaryRef, c.blobRef,
                      c.frontierOrdinal);
    if IsNeverEgressKind(fold, c.kind) then
      s.(eligibility := DebugNever, include_ := false, reason := DebugKind, text := "", summaryRef := "")
    else if !c.isActiveBranch then
      if c.isGlobalRelevant then
        if c.blobRef == "" then s.(include_ := false, eligibility := DropUnlessAsked, reason := RefUnavailable,
                                   text := "")
        else s.(eligibility := RefOnly, reason := GlobalRelevant, text := "")
      else s.(eligibility := DropUnlessAsked, include_ := false, reason := NonLocal, text := "", summaryRef := "")
    else if IsDebugNeverKind(fold, c.kind) then
      s.(eligibility := DebugNever, include_ := false, reason := DebugKind, text := "", summaryRef := "")
    else if c.isSensitiveLocal then
      s.(eligibility := DropUnlessAsked, include_ := false, reason := SensitiveLocal, text := "", summaryRef := "")
    else if c.isCurrentUserTurn then s.(eligibility := Passthrough, reason := RecentTurn)
    else if c.isLatestToolResult then s.(eligibility := SummaryOnly, reason := ToolResult, text := "")
    else if c.isNearestSummary then s.(eligibility := SummaryOnly, reason := SummaryCheckpoint, text := "")
    else if c.isCheckpoint then s.(eligibility := RefOnly, reason := CheckpointRef, text := "")
    else if IsLargeAndStale(c, latestOrdinal) then s.(eligibility := RefOnly, reason := BudgetFit, text := "")
    else s
  }

  /** Exactly which candidates are included: none of a spine-only kind, whatever else is said of it;
      from another branch only what is globally relevant and has a blob to refer to, debug kinds
      not excepted; from the active branch everything but debug kinds and sensitive items. */
  lemma {:induction false} IncludedIff(fold: Fold, c: Candidate, latestOrdinal: int)
    ensures SelectOne(fold, c, latestOrdinal).include_ <==>
      && !IsNeverEgressKind(fold, c.kind)
      && (if c.isActiveBranch then !IsDebugNeverKind(fold, c.kind) && !c.isSensitiveLocal
          else c.isGlobalRelevant && c.blobRef != "")
  {
    hide IsNeverEgressKind, IsDebugNeverKind;
  }

  ghost predicate Occurs(part: string, s: string) {
    exists a: string, b: string :: s == a + part + b
  }

  lemma {:induction false} OccursLater(part: string, s: string)
    requires s != ""
    ensures Occurs(part, s[1..]) ==> Occurs(part, s)
    ensures Occurs(part, s) ==> part <= s || Occurs(part, s[1..])
  {
    if Occurs(part, s[1..]) {
      var a: string, b: string :| s[1..] == a + part + b;
      assert s == ([s[0]] + a) + part + b;
    }
    if Occurs(part, s) {
      var a: string, b: string :| s == a + part + b;
      if a != "" {
        assert s[1..] == a[1..] + part + b;
      } else {
        assert s[..|part|] == part;
      }
    }
  }

  lemma {:induction false} ContainsIff(s: string, part: string)
    ensures Contains(s, part) <==> Occurs(part, s)
  {
    if part <= s {
      assert s == "" + part + s[|part|..];
    } else if s != "" {
      OccursLater(part, s);
      ContainsIff(s[1..], part);
    } else {
      assert Occurs(part, s) ==> |part| == 0;
    }
  }

  /** The kinds that never leave the spine, by what they begin with. */
  lemma NeverEgressKinds(fold: Fold, kind: string)
    ensures var k := TrimSpace(fold(kind));
      IsNeverEgressKind(fold, kind) <==>
        "branch.fork" <= k || "consult." <= k || "summary.rebuild" <= k || "replay." <= k || "recovery." <= k
        || "context.compact" <= k || "dream." <= k || "audit." <= k
  {
  }

  /** The debug kinds, by what they begin with or contain. */
  lemma {:induction false} DebugKinds(fold: Fold, kind: string)
    ensures var k := TrimSpace(fold(kind));
      IsDebugNeverKind(fold, kind) <==>
        "packet." <= k || "response." <= k || Occurs("debug", k) || Occurs("metrics", k) || Occurs("trace", k)
  {
    var k := TrimSpace(fold(kind));
    ContainsIff(k, "debug");
    ContainsIff(k, "metrics");
    ContainsIff(k, "trace");
    hide TrimSpace, Contains, Occurs;
  }

  /** A candidate of a spine-only kind is never included and keeps neither text nor summary, whatever
      else is said of it; one of another kind and no debug kind passes when it is on the active branch
      and not sensitive. */
  lemma {:induction false} SpineOnlyStays(fold: Fold, c: Candidate, latestOrdinal: int)
    ensures var (k, s) := (TrimSpace(fold(c.kind)), SelectOne(fold, c, latestOrdinal));
      if "branch.fork" <= k || "consult." <= k || "summary.rebuild" <= k || "replay." <= k || "recovery." <= k
         || "context.compact" <= k || "dream." <= k || "audit." <= k
      then !s.include_ && s.eligibility == DebugNever && s.reason == DebugKind && s.text == "" && s.summaryRef == ""
      else if c.isActiveBranch && !c.isSensitiveLocal
              && !("packet." <= k) && !("response." <= k)
              && !Occurs("debug", k) && !Occurs("metrics", k) && !Occurs("trace", k)
      then s.include_
      else c.isActiveBranch ==> !s.include_ && s.text == "" && s.summaryRef == ""
  {
    NeverEgressKinds(fold, c.kind);
    DebugKinds(fold, c.kind);
    hide IsNeverEgressKind, IsDebugNeverKind, TrimSpace, IsLargeAndStale, Occurs;
  }

  /** Why a candidate is in or out. */
  lemma {:induction false} ReasonMeans(fold: Fold, c: Candidate, latestOrdinal: int)
    ensures var s := SelectOne(fold, c, latestOrdinal);
      && (c.isActiveBranch && s.include_ ==>
            s.reason == (
              if c.isCurrentUserTurn then RecentTurn else if c.isLatestToolResult then ToolResult
              else if c.isNearestSummary then SummaryCheckpoint else if c.isCheckpoint then CheckpointRef
              else if |c.text| > 1024 && latestOrdinal - c.frontierOrdinal > 8 then BudgetFit else BranchLocality))
      && (c.isActiveBranch && !s.include_ ==>
            s.reason == if s.eligibility == DebugNever then DebugKind else SensitiveLocal)
      && (!c.isActiveBranch && s.include_ ==> s.reason == GlobalRelevant && s.text == "")
      && (!c.isActiveBranch && !s.include_ && s.eligibility != DebugNever ==>
            s.reason == (if c.isGlobalRelevant then RefUnavailable else NonLocal)
            && s.text == "" && s.summaryRef == if c.isGlobalRelevant then c.summaryRef else "")
  {
    hide IsNeverEgressKind, IsDebugNeverKind;
  }

  /** What becomes of a candidate of the active branch that neither its kind nor its content excludes. */
  lemma {:induction false} ActiveSelected(fold: Fold, c: Candidate, latestOrdinal: int)
    requires c.isActiveBranch && !IsNeverEgressKind(fold, c.kind) && !IsDebugNeverKind(fold, c.kind)
    requires !c.isSensitiveLocal
    ensures var s := SelectOne(fold, c, latestOrdinal);
      && s.include_ && s.id == c.id && s.kind == c.kind && s.blobRef == c.blobRef && s.summaryRef == c.summaryRef
      && s.text == if c.isCurrentUserTurn then c.text
                   else if c.isLatestToolResult || c.isNearestSummary || c.isCheckpoint
                           || (|c.text| > 1024 && latestOrdinal - c.frontierOrdinal > 8) then ""
                   else c.text
  {
    hide IsNeverEgressKind, IsDebugNeverKind;
  }

  lemma NotPrefix(s: string, p: string)
    requires s != "" && p != "" && s[0] != p[0]
    ensures !HasPrefix(s, p)
  {
  }

  /** A debug kind that leaves the spine, by reference, because it is on another branch. */
  lemma {:induction false} DebugKindOfOtherBranch(fold: Fold, c: Candidate, latestOrdinal: int)
    requires c.kind == "metrics.sample" && fold(c.kind) == c.kind
    requires !c.isActiveBranch && c.isGlobalRelevant && c.blobRef != ""
    ensures IsDebugNeverKind(fold, c.kind)
    ensures var s := SelectOne(fold, c, latestOrdinal); s.include_ && s.eligibility == RefOnly && s.blobRef == c.blobRef
  {
    TrimNothing("metrics.sample");
    hide TrimSpace;
    NotPrefix("metrics.sample", "branch.fork");
    NotPrefix("metrics.sample", "consult.");
    NotPrefix("metrics.sample", "summary.rebuild");
    NotPrefix("metrics.sample", "replay.");
    NotPrefix("metrics.sample", "recovery.");
    NotPrefix("metrics.sample", "context.compact");
    NotPrefix("metrics.sample", "dream.");
    NotPrefix("metrics.sample", "audit.");
    assert "metrics" <= "metrics.sample";
    assert Contains("metrics.sample", "metrics");
  }

  /** Exactly which candidates keep their text: included ones of the active branch that are either
      the current user turn or neither the latest tool result, a checkpoint nor large and stale. */
  lemma {:induction false} TextKeptIff(fold: Fold, c: Candidate, latestOrdinal: int)
    requires c.text != ""
    ensures SelectOne(fold, c, latestOrdinal).text == (
      if c.isActiveBranch && SelectOne(fold, c, latestOrdinal).include_
         && (c.isCurrentUserTurn || !(c.isLatestToolResult || c.isNearestSummary || c.isCheckpoint
                                      || IsLargeAndStale(c, latestOrdinal)))
      then c.text else "")
  {
    hide IsNeverEgressKind, IsDebugNeverKind, IsLargeAndStale;
  }

  /** The class says what is shipped: everything, a summary, references only, or nothing. */
  lemma {:induction false} ClassMeans(fold: Fold, c: Candidate, latestOrdinal: int)
    ensures var s := SelectOne(fold, c, latestOrdinal);
      && (s.id, s.kind, s.blobRef, s.frontierOrdinal) == (c.id, c.kind, c.blobRef, c.frontierOrdinal)
      && (s.include_ <==> s.eligibility in {Passthrough, SummaryOnly, RefOnly})
      && (s.eligibility == Passthrough ==> s.text == c.text && s.summaryRef == c.summaryRef)
      && (s.eligibility != Passthrough ==> s.text == "")
      && (s.include_ ==> s.summaryRef == c.summaryRef)
      && (s.eligibility == Passthrough <==> s.reason in {BranchLocality, RecentTurn})
      && (s.eligibility == SummaryOnly <==> s.reason in {ToolResult, SummaryCheckpoint})
      && (s.eligibility == RefOnly <==> s.reason in {GlobalRelevant, CheckpointRef, BudgetFit})
      && (s.eligibility == DebugNever <==> s.reason == DebugKind)
  {
    hide IsNeverEgressKind, IsDebugNeverKind, IsLargeAndStale;
  }

  // ----- The explanation -----

  function ItemOf(s: Selected): ItemReason {
    ItemReason(s.id, s.kind, s.reason, s.eligibility, s.frontierOrdinal)
  }

  function IsIncluded(): Selected -> bool {
    (s: Selected) => s.include_
  }

  function IsExcluded(): Selected -> bool {
    (s: Selected) => !s.include_
  }

  /** How often a reason occurs. */
  function Occurrences(r: ReasonCode, s: seq<Selected>): nat {
    if s == [] then 0 else Occurrences(r, s[..|s| - 1]) + (if s[|s| - 1].reason == r then 1 else 0)
  }

  function ReasonOrder(): (ReasonCount, ReasonCount) -> bool {
    ByNumberThen((c: ReasonCount) => -c.count, ByString((c: ReasonCount) => c.reason.Name()))
  }

  /** Every reason that occurs, with its count, the most frequent first and ties by name. */
  ghost predicate IsDominantList(s: seq<Selected>, r: seq<ReasonCount>) {
    && Distinct(r) && Ordered(ReasonOrder(), r)
    && forall c :: c in r <==> Occurrences(c.reason, s) == c.count > 0
  }

  lemma {:induction false} NamesDiffer(a: ReasonCode, b: ReasonCode)
    requires a.Name() == b.Name()
    ensures a == b
  {
    assert |a.Name()| == |b.Name()|;
    assert a.Name()[0] == b.Name()[0] && a.Name()[1] == b.Name()[1];
  }

  lemma {:induction false} ReasonOrderTotal()
    ensures Total(ReasonOrder())
  {
    var (k1, k2) := ((c: ReasonCount) => -c.count, (c: ReasonCount) => c.reason.Name());
    ByStringIsOrder(k2);
    ByNumberThenIsOrder(k1, ByString(k2));
    var o := ReasonOrder();
    assert o == ByNumberThen(k1, ByString(k2));
    hide ReasonCode.Name;
    forall x, y | x != y
      ensures o(x, y) || o(y, x)
    {
      if x.count == y.count && x.reason.Name() == y.reason.Name() {
        NamesDiffer(x.reason, y.reason);
      }
      assert Tie(o, x, y) ==> Tie(ByString(k2), x, y);
    }
  }

  /** The list of dominant reasons is determined by the selection, and so is the same for every
      order of the candidates that gives the same counts. */
  lemma {:induction false} DominantListUnique(s: seq<Selected>, t: seq<Selected>, r: seq<ReasonCount>,
                                              q: seq<ReasonCount>)
    requires IsDominantList(s, r) && IsDominantList(t, q)
    requires forall x :: Occurrences(x, s) == Occurrences(x, t)
    ensures r == q
  {
    hide Occurrences, ReasonOrder;
    ReasonOrderTotal();
    DistinctSameMembers(r, q);
    SortingUnique(ReasonOrder(), r, q);
  }

  /** The alphabetical order of the reasons' names. */
  function NameRank(r: ReasonCode): nat {
    match r
    case BranchLocality => 0
    case BudgetFit => 1
    case CheckpointRef => 2
    case DebugKind => 3
    case GlobalRelevant => 4
    case NonLocal => 5
    case RecentTurn => 6
    case RefUnavailable => 7
    case SensitiveLocal => 8
    case SummaryCheckpoint => 9
    case ToolResult => 10
  }

  lemma {:induction false} NamesInOrder(a: ReasonCode, b: ReasonCode)
    requires NameRank(a) < NameRank(b)
    ensures StrLess(a.Name(), b.Name())
    decreases NameRank(b) - NameRank(a)
  {
    NextName(a);
    var next := NextReason(a);
    hide NameRank, NextReason, ReasonCode.Name;
    if NameRank(next) == NameRank(b) {
      RankTells(next, b);
    } else {
      NamesInOrder(next, b);
      StrLessTransitive(a.Name(), next.Name(), b.Name());
    }
  }

  lemma {:induction false} EarlyByte(s: string, t: string)
    requires |s| > 2 && |t| > 2
    requires s[0] < t[0] || (s[0] == t[0] && (s[1] < t[1] || (s[1] == t[1] && s[2] < t[2])))
    ensures StrLess(s, t)
  {
    assert s[1..][1..] == s[2..] && t[1..][1..] == t[2..];
    assert s[1] == t[1] && s[2] < t[2] ==> StrLess(s[2..], t[2..]);
    assert s[0] == t[0] ==> StrLess(s[1..], t[1..]);
  }

  /** The alphabetically next name. */
  function NextReason(a: ReasonCode): ReasonCode {
    match a
    case BranchLocality => BudgetFit
    case BudgetFit => CheckpointRef
    case CheckpointRef => DebugKind
    case DebugKind => GlobalRelevant
    case GlobalRelevant => NonLocal
    case NonLocal => RecentTurn
    case RecentTurn => RefUnavailable
    case RefUnavailable => SensitiveLocal
    case SensitiveLocal => SummaryCheckpoint
    case _ => ToolResult
  }

  lemma {:induction false} NextName(a: ReasonCode)
    requires NameRank(a) < 10
    ensures NameRank(NextReason(a)) == NameRank(a) + 1
    ensures StrLess(a.Name(), NextReason(a).Name())
  {
    hide StrLess;
    EarlyByte(a.Name(), NextReason(a).Name());
  }

  lemma RankTells(a: ReasonCode, b: ReasonCode)
    requires NameRank(a) == NameRank(b)
    ensures a == b
  {
  }

  /** How a list of dominant reasons reads: the more frequent first, and equally frequent ones by name. */
  lemma {:induction false} DominantListOrder(s: seq<Selected>, r: seq<ReasonCount>, i: nat, j: nat)
    requires IsDominantList(s, r) && i < j < |r|
    ensures r[i].count > r[j].count || (r[i].count == r[j].count && NameRank(r[i].reason) < NameRank(r[j].reason))
  {
    var (x, y) := (r[i], r[j]);
    assert x != y && !ReasonOrder()(y, x);
    hide IsDominantList, ReasonCode.Name;
    if x.count == y.count && NameRank(y.reason) < NameRank(x.reason) {
      NamesInOrder(y.reason, x.reason);
    }
  }

  method DominantReasons(counts: map<ReasonCode, nat>, ghost s: seq<Selected>) returns (r: seq<ReasonCount>)
    requires forall x :: x in counts <==> Occurrences(x, s) > 0
    requires forall x | x in counts :: counts[x] == Occurrences(x, s)
    ensures IsDominantList(s, r)
  {
    hide Occurrences;
    var out: seq<ReasonCount> := [];
    var rest := counts.Keys;
    while rest != {}
      invariant rest <= counts.Keys && Distinct(out)
      invariant forall c :: c in out <==> c.reason in counts && c.reason !in rest && counts[c.reason] == c.count
      decreases |rest|
    {
      var x :| x in rest;
      rest := rest - {x};
      if counts[x] > 0 {
        out := out + [ReasonCount(x, counts[x])];
      }
    }
    ReasonOrderTotal();
    hide ReasonOrder;
    r := SortSlice(ReasonOrder(), out);
    PermutedDistinct(out, r);
  }

  function Truncated<T>(s: seq<T>, n: nat): seq<T> {
    if |s| > n then s[..n] else s
  }

  ghost predicate Counts(counts: map<ReasonCode, nat>, s: seq<Selected>) {
    && (forall x :: x in counts <==> Occurrences(x, s) > 0)
    && (forall x | x in counts :: counts[x] == Occurrences(x, s))
  }

  /** What the loop has gathered about the selected items so far. */
  datatype Tally = Tally(
    included: seq<ItemReason>,
    excluded: seq<ItemReason>,
    includedCounts: map<ReasonCode, nat>,
    excludedCounts: map<ReasonCode, nat>)

  function Bumped(counts: map<ReasonCode, nat>, x: ReasonCode): map<ReasonCode, nat> {
    counts[x := (if x in counts then counts[x] else 0) + 1]
  }

  /** One round of the loop. */
  function Tallied(t: Tally, sel: Selected): Tally {
    if sel.include_ then t.(included := t.included + [ItemOf(sel)],
                            includedCounts := Bumped(t.includedCounts, sel.reason))
    else t.(excluded := if |t.excluded| < MAX_EXCLUDED then t.excluded + [ItemOf(sel)] else t.excluded,
            excludedCounts := Bumped(t.excludedCounts, sel.reason))
  }

  ghost predicate IsTally(t: Tally, out: seq<Selected>) {
    && t.included == Mapped(ItemOf, Filter(IsIncluded(), out))
    && t.excluded == Truncated(Mapped(ItemOf, Filter(IsExcluded(), out)), MAX_EXCLUDED)
    && Counts(t.includedCounts, Filter(IsIncluded(), out))
    && Counts(t.excludedCounts, Filter(IsExcluded(), out))
  }

  lemma {:induction false} CountsSnoc(counts: map<ReasonCode, nat>, s: seq<Selected>, sel: Selected)
    requires Counts(counts, s)
    ensures Counts(Bumped(counts, sel.reason), s + [sel])
  {
    assert (s + [sel])[..|s|] == s;
  }

  lemma {:induction false} MappedSnoc(s: seq<Selected>, sel: Selected)
    ensures Mapped(ItemOf, s + [sel]) == Mapped(ItemOf, s) + [ItemOf(sel)]
  {
    assert (s + [sel])[..|s|] == s;
  }

  lemma {:induction false} TallySnoc(t: Tally, out: seq<Selected>, sel: Selected)
    requires IsTally(t, out)
    ensures IsTally(Tallied(t, sel), out + [sel])
  {
    hide ItemOf, Counts, Bumped;
    assert (out + [sel])[..|out|] == out;
    if sel.include_ {
      MappedSnoc(Filter(IsIncluded(), out), sel);
      CountsSnoc(t.includedCounts, Filter(IsIncluded(), out), sel);
    } else {
      MappedSnoc(Filter(IsExcluded(), out), sel);
      CountsSnoc(t.excludedCounts, Filter(IsExcluded(), out), sel);
    }
  }

  /** Selected items one by one; the explanation lists all inclusions, the first exclusions and the
      counts of all reasons. */
  method SelectWithExplanation(fold: Fold, candidates: seq<Candidate>) returns (out: seq<Selected>, e: Explanation)
    ensures |out| == |candidates|
    ensures forall i | 0 <= i < |candidates| ::
      out[i] == SelectOne(fold, candidates[i], candidates[|candidates| - 1].frontierOrdinal)
    ensures e.included == Mapped(ItemOf, Filter(IsIncluded(), out))
    ensures var x := Mapped(ItemOf, Filter(IsExcluded(), out)); e.excluded == if |x| <= 8 then x else x[..8]
    ensures IsDominantList(Filter(IsIncluded(), out), e.dominantInclusionReasons)
    ensures IsDominantList(Filter(IsExcluded(), out), e.dominantExclusionReasons)
  {
    hide SelectOne, ReasonOrder, Tallied, IsDominantList, Occurrences, ItemOf;
    out := [];
    if candidates == [] {
      NothingSelected();
      return [], Explanation([], [], [], []);
    }
    var latestOrdinal := candidates[|candidates| - 1].frontierOrdinal;
    var t := Tally([], [], map[], map[]);
    NothingSelected();
    for i := 0 to |candidates|
      invariant |out| == i
      invariant forall j | 0 <= j < i :: out[j] == SelectOne(fold, candidates[j], latestOrdinal)
      invariant IsTally(t, out)
    {
      hide IsTally;
      var sel := SelectOne(fold, candidates[i], latestOrdinal);
      TallySnoc(t, out, sel);
      out := out + [sel];
      t := Tallied(t, sel);
    }
    var inReasons := DominantReasons(t.includedCounts, Filter(IsIncluded(), out));
    var outReasons := DominantReasons(t.excludedCounts, Filter(IsExcluded(), out));
    e := Explanation(t.included, t.excluded, inReasons, outReasons);
  }

  lemma NothingSelected()
    ensures IsTally(Tally([], [], map[], map[]), [])
    ensures IsDominantList([], [])
  {
  }
}
