/** internal/replay: three ways to rebuild branch state from the log. `RebuildSession` keeps heads
    only, `RebuildBranchStateFromEvents` builds the whole graph, and the summary functions start
    from a checkpoint and apply a delta. */
module Replay {
  import opened EventLog
  import opened BranchDag

  datatype ReplayError =
    | InvalidEvent
    | MixedSession
    | InvalidCheckpoint
    | InvalidBranchRecord
    | CheckpointBranchMismatch
    | BasisNotFound
    | GraphFailure(error: GraphError)

  datatype Outcome<+T> = Done(value: T) | Failed(error: ReplayError)

  function SummaryId(e: Event): string { ReadMetaString(e.meta, "summary_id") }

  function BasisId(e: Event): string { ReadMetaString(e.meta, "basis_event_id") }

  function ForkParent(e: Event): string { ReadMetaString(e.meta, "parent_branch_id") }

  predicate IsFork(e: Event) { e.kind.KindBranchFork? }

  predicate IsCheckpoint(e: Event) { e.kind.KindSummaryCheckpoint? }

  /** A rebuild event that names a summary; one without a summary id is an ordinary append. */
  predicate IsRebase(e: Event) { e.kind.KindSummaryRebuild? && SummaryId(e) != "" }

  // ----- Full replay as a fold over the log -----

  function EnsureBranch(g: Branches, branchId: string): Result<Branches> {
    if branchId in g then Ok(g) else Create(g, NewBranch(branchId))
  }

  function ForkOrKeep(g: Branches, e: Event): Result<Branches> {
    match Fork(g, e.branchId, ForkParent(e), e.parentEventId)
    case Ok(forked) => Ok(forked)
    case Err(error) => if error == BranchExists then Ok(g) else Err(error)
  }

  /** Makes sure that the event's branch exists, forking it off its parent when it is a fork. */
  function Prepare(g: Branches, e: Event): Result<Branches> {
    if IsFork(e) && ForkParent(e) != "" then
      match EnsureBranch(g, ForkParent(e))
      case Err(error) => Err(error)
      case Ok(withParent) => ForkOrKeep(withParent, e)
    else EnsureBranch(g, e.branchId)
  }

  function Record(g: Branches, e: Event): Result<Branches> {
    if IsCheckpoint(e) then
      if SummaryId(e) != "" then SetBase(g, e.branchId, SummaryId(e)) else Ok(g)
    else
      match AppendAt(g, e.branchId, e.id)
      case Err(error) => Err(error)
      case Ok(appended) =>
        if IsRebase(e) then Rebase(appended, e.branchId, SummaryId(e), BasisId(e)) else Ok(appended)
  }

  function Step(g: Branches, e: Event): Outcome<Branches> {
    if !e.Valid() then Failed(InvalidEvent)
    else match Prepare(g, e)
      case Err(error) => Failed(GraphFailure(error))
      case Ok(prepared) =>
        match Record(prepared, e)
        case Err(error) => Failed(GraphFailure(error))
        case Ok(after) => Done(after)
  }

  function Replayed(events: seq<Event>): Outcome<Branches> {
    if events == [] then Done(map[])
    else match Replayed(events[..|events| - 1])
      case Failed(error) => Failed(error)
      case Done(before) => Step(before, events[|events| - 1])
  }

  // ----- Invariants of every reachable graph -----

  /** One dirty range at most, well-formed, and reaching exactly to the head. */
  predicate BranchOk(id: string, b: Branch) {
    && b.branchId == id != ""
    && |b.dirtyRanges| <= 1
    && (|b.dirtyRanges| == 1 ==> b.dirtyRanges[0].start != "" && b.dirtyRanges[0].end == b.headEventId != "")
  }

  /** `rank` orders branches by creation: a parent is created before its children. */
  ghost predicate GraphOk(g: Branches, rank: map<string, nat>) {
    && rank.Keys == g.Keys
    && (forall id | id in g :: BranchOk(id, g[id]))
    && (forall id {:trigger g[id].parentBranchId} | id in g && g[id].parentBranchId != "" ::
          g[id].parentBranchId in g && rank[g[id].parentBranchId] < rank[id])
  }

  /** What one event does to the graph: only its own branch changes; a fork may also create its
      parent, empty. A branch is created with rank above its parent's. */
  ghost predicate Touches(g: Branches, g': Branches, e: Event) {
    && e.branchId in g'
    && (forall id | id in g && id != e.branchId :: id in g' && g'[id] == g[id])
    && (forall id | id in g' && id !in g && id != e.branchId ::
          IsFork(e) && id == ForkParent(e) && g'[id] == NewBranch(id))
    && (IsFork(e) && ForkParent(e) != "" ==> ForkParent(e) in g')
  }

  lemma {:induction false} EnsureOk(g: Branches, rank: map<string, nat>, id: string) returns (rank': map<string, nat>)
    requires GraphOk(g, rank) && id != ""
    ensures EnsureBranch(g, id) == Ok(if id in g then g else g[id := NewBranch(id)])
    ensures GraphOk(EnsureBranch(g, id).value, rank')
  {
    rank' := if id in g then rank else rank[id := 0];
  }

  lemma {:induction false} ForkOk(g: Branches, rank: map<string, nat>, child: string, parent: string,
                                  forkEventId: string)
    returns (rank': map<string, nat>)
    requires GraphOk(g, rank) && child != "" && child !in g && parent in g
    ensures GraphOk(g[child := ForkOf(child, parent, g[parent], forkEventId)], rank')
  {
    rank' := rank[child := rank[parent] + 1];
    assert BranchOk(parent, g[parent]);
  }

  lemma {:induction false} PrepareOk(g: Branches, rank: map<string, nat>, e: Event) returns (rank': map<string, nat>)
    requires GraphOk(g, rank) && e.Valid()
    ensures Prepare(g, e).Ok?
    ensures GraphOk(Prepare(g, e).value, rank') && Touches(g, Prepare(g, e).value, e)
    ensures e.branchId in g ==> Prepare(g, e).value[e.branchId] == g[e.branchId]
  {
    var parent := ForkParent(e);
    if IsFork(e) && parent != "" {
      rank' := EnsureOk(g, rank, parent);
      var withParent := EnsureBranch(g, parent).value;
      if e.branchId !in withParent {
        assert BranchOk(parent, withParent[parent]);
        rank' := ForkOk(withParent, rank', e.branchId, parent, e.parentEventId);
      }
    } else {
      rank' := EnsureOk(g, rank, e.branchId);
    }
  }

  /** The event's own branch after the event. */
  function RecordedBranch(b: Branch, e: Event): Branch
    requires BranchOk(b.branchId, b) && e.id != ""
  {
    if IsCheckpoint(e) then
      if SummaryId(e) != "" then b.(baseSummaryId := SummaryId(e)) else b
    else
      var appended := Append(b, e.id).value;
      if IsRebase(e) then Rebased(appended, SummaryId(e), BasisId(e)) else appended
  }

  lemma {:induction false} RecordIsRecorded(g: Branches, e: Event)
    requires e.id != "" && e.branchId in g && BranchOk(e.branchId, g[e.branchId])
    ensures Record(g, e) == Ok(g[e.branchId := RecordedBranch(g[e.branchId], e)])
  {
    var b := g[e.branchId];
    BranchOkIsValid(e.branchId, b);
    if IsCheckpoint(e) {
      assert SummaryId(e) == "" ==> g[e.branchId := b] == g;
    } else {
      var appended := g[e.branchId := Append(b, e.id).value];
      assert AppendAt(g, e.branchId, e.id) == Ok(appended);
      assert IsRebase(e) ==>
        Rebase(appended, e.branchId, SummaryId(e), BasisId(e)).value == g[e.branchId := RecordedBranch(b, e)];
    }
  }

  lemma RecordedOk(b: Branch, e: Event)
    requires BranchOk(b.branchId, b) && e.id != ""
    ensures BranchOk(b.branchId, RecordedBranch(b, e))
    ensures RecordedBranch(b, e).branchId == b.branchId && RecordedBranch(b, e).parentBranchId == b.parentBranchId
  {
  }

  lemma BranchOkIsValid(id: string, b: Branch)
    requires BranchOk(id, b)
    ensures b.Valid()
  {
  }

  lemma {:induction false} RecordOk(g: Branches, rank: map<string, nat>, e: Event)
    requires GraphOk(g, rank) && e.Valid() && e.branchId in g
    ensures BranchOk(e.branchId, g[e.branchId])
    ensures Record(g, e) == Ok(g[e.branchId := RecordedBranch(g[e.branchId], e)])
    ensures GraphOk(Record(g, e).value, rank)
  {
    hide RecordedBranch, Record;
    assert BranchOk(e.branchId, g[e.branchId]);
    RecordIsRecorded(g, e);
    RecordedOk(g[e.branchId], e);
  }

  lemma RecordedHead(b: Branch, e: Event)
    requires BranchOk(b.branchId, b) && e.id != "" && !IsCheckpoint(e)
    ensures RecordedBranch(b, e).headEventId == HeadAfter(e)
  {
  }

  lemma TouchesOwn(g: Branches, g': Branches, e: Event, b: Branch)
    requires Touches(g, g', e)
    ensures Touches(g, g'[e.branchId := b], e)
  {
  }

  /** A valid event is never refused, and keeps the graph's invariants. */
  lemma {:induction false} StepOk(g: Branches, rank: map<string, nat>, e: Event) returns (rank': map<string, nat>)
    requires GraphOk(g, rank) && e.Valid()
    ensures Step(g, e).Done?
    ensures GraphOk(Step(g, e).value, rank') && Touches(g, Step(g, e).value, e)
    ensures e.branchId in g ==> Step(g, e).value[e.branchId] == RecordedBranch(g[e.branchId], e)
    ensures !IsCheckpoint(e) ==> Step(g, e).value[e.branchId].headEventId == HeadAfter(e)
  {
    rank' := PrepareOk(g, rank, e);
    var prepared := Prepare(g, e).value;
    RecordOk(prepared, rank', e);
    var b := RecordedBranch(prepared[e.branchId], e);
    assert Step(g, e) == Done(prepared[e.branchId := b]);
    TouchesOwn(g, prepared, e, b);
    if !IsCheckpoint(e) {
      RecordedHead(prepared[e.branchId], e);
    }
  }

  /** The head that a non-checkpoint event leaves behind. */
  function HeadAfter(e: Event): string {
    if IsRebase(e) && BasisId(e) != "" then BasisId(e) else e.id
  }

  lemma {:induction false} ReplayKeepsInvariant(events: seq<Event>) returns (rank: map<string, nat>)
    requires forall e | e in events :: e.Valid()
    ensures Replayed(events).Done? && GraphOk(Replayed(events).value, rank)
    decreases |events|
  {
    if events == [] {
      rank := map[];
    } else {
      var before := ReplayKeepsInvariant(events[..|events| - 1]);
      rank := StepOk(Replayed(events[..|events| - 1]).value, before, events[|events| - 1]);
    }
  }

  lemma InvalidStepFails(g: Branches, e: Event)
    ensures !e.Valid() ==> Step(g, e) == Failed(InvalidEvent)
  {
  }

  lemma {:induction false} AllValidSnoc(init: seq<Event>, last: Event)
    ensures (forall e | e in init + [last] :: e.Valid()) <==> last.Valid() && forall e | e in init :: e.Valid()
  {
    hide Event.Valid;
    assert last in init + [last];
    assert forall e | e in init :: e in init + [last];
  }

  /** Replay fails exactly when some event is invalid. */
  lemma {:induction false} ReplaySucceedsIff(events: seq<Event>)
    ensures Replayed(events).Done? <==> forall e | e in events :: e.Valid()
    ensures Replayed(events).Failed? ==> Replayed(events).error == InvalidEvent
    decreases |events|
  {
    hide Step, GraphOk, Event.Valid;
    if events != [] {
      var init, last := events[..|events| - 1], events[|events| - 1];
      ReplaySucceedsIff(init);
      assert events == init + [last];
      AllValidSnoc(init, last);
      if Replayed(init).Done? {
        InvalidStepFails(Replayed(init).value, last);
        var rank := ReplayKeepsInvariant(init);
        if last.Valid() {
          rank := StepOk(Replayed(init).value, rank, last);
        }
      }
    }
  }

  /** The n-th branch up the parent links; "" above a root. */
  function Ancestor(g: Branches, id: string, n: nat): string {
    if n == 0 then id
    else
      var below := Ancestor(g, id, n - 1);
      if below in g then g[below].parentBranchId else ""
  }

  lemma {:induction false} AncestorsRankLower(g: Branches, rank: map<string, nat>, id: string, n: nat)
    requires GraphOk(g, rank) && id in g
    ensures var a := Ancestor(g, id, n); a == "" || (a in g && rank[a] + n <= rank[id])
  {
    if n > 0 {
      AncestorsRankLower(g, rank, id, n - 1);
    }
  }

  ghost predicate Acyclic(g: Branches) {
    forall id, n: nat | id in g && n >= 1 :: Ancestor(g, id, n) != id
  }

  lemma {:induction false} RankedIsAcyclic(g: Branches, rank: map<string, nat>)
    requires GraphOk(g, rank)
    ensures Acyclic(g)
  {
    forall id, n: nat | id in g && n >= 1
      ensures Ancestor(g, id, n) != id
    {
      AncestorsRankLower(g, rank, id, n);
      assert BranchOk(id, g[id]);
    }
  }

  /** In every graph reached by replay, each branch is well-formed with at most one dirty range,
      whose end is the head; its parent exists; and no branch is its own ancestor. */
  lemma {:induction false} ReachableGraph(events: seq<Event>, g: Branches)
    requires Replayed(events) == Done(g)
    ensures forall id | id in g :: BranchOk(id, g[id]) && g[id].Valid()
    ensures forall id {:trigger g[id].parentBranchId} | id in g && g[id].parentBranchId != "" ::
      g[id].parentBranchId in g
    ensures Acyclic(g)
  {
    ReplaySucceedsIff(events);
    var rank := ReplayKeepsInvariant(events);
    RankedIsAcyclic(g, rank);
    forall id | id in g
      ensures BranchOk(id, g[id]) && g[id].Valid()
    {
      BranchOkIsValid(id, g[id]);
    }
  }

  /** An append or rebase on one branch leaves every other branch as it was. */
  lemma {:induction false} StepIsLocal(events: seq<Event>, g: Branches, e: Event)
    requires Replayed(events) == Done(g) && e.Valid()
    ensures Step(g, e).Done? && Touches(g, Step(g, e).value, e)
  {
    ReplaySucceedsIff(events);
    var rank := ReplayKeepsInvariant(events);
    rank := StepOk(g, rank, e);
  }

  /** The branch that a fork event makes, before the event is appended to it. */
  function ForkBase(g: Branches, e: Event): Branch {
    var parentId := ForkParent(e);
    if parentId == "" || parentId == e.branchId then NewBranch(e.branchId)
    else ForkOf(e.branchId, parentId, if parentId in g then g[parentId] else NewBranch(parentId), e.parentEventId)
  }

  lemma {:induction false} PreparedFork(g: Branches, rank: map<string, nat>, e: Event)
    requires GraphOk(g, rank) && e.Valid() && e.branchId !in g && IsFork(e)
    ensures Prepare(g, e).Ok? && e.branchId in Prepare(g, e).value && Prepare(g, e).value[e.branchId] == ForkBase(g, e)
  {
    var parentId := ForkParent(e);
    if parentId != "" {
      var parentRank := EnsureOk(g, rank, parentId);
    } else {
      var ownRank := EnsureOk(g, rank, e.branchId);
    }
  }

  lemma {:induction false} RecordedFork(b: Branch, e: Event)
    requires BranchOk(b.branchId, b) && e.id != "" && IsFork(e)
    ensures RecordedBranch(b, e) == b.(headEventId := e.id,
              dirtyRanges := [DirtyRange(if b.dirtyRanges == [] then e.id else b.dirtyRanges[0].start, e.id)])
  {
    BranchOkIsValid(b.branchId, b);
  }

  /** A fork is linked to its parent and fork event, starts from its parent's summary base and dirty
      range, and stretches that range to its own event; without a parent it starts empty. */
  lemma {:induction false} ForkInherits(events: seq<Event>, g: Branches, e: Event)
    requires Replayed(events) == Done(g) && e.Valid() && e.branchId !in g && IsFork(e)
    ensures Step(g, e).Done? && e.branchId in Step(g, e).value
    ensures var (p, b) := (ForkParent(e), Step(g, e).value[e.branchId]);
      && b.branchId == e.branchId && b.headEventId == e.id && b.materializedHint == ""
      && (if p == "" || p == e.branchId then b.parentBranchId == "" && b.forkEventId == ""
          else b.parentBranchId == p && b.forkEventId == e.parentEventId)
      && (if p == e.branchId || p !in g
          then b.baseSummaryId == "" && b.dirtyRanges == [DirtyRange(e.id, e.id)] && b.score == 0.0
          else && b.baseSummaryId == g[p].baseSummaryId && b.score == g[p].score
               && b.dirtyRanges == [DirtyRange(if g[p].dirtyRanges == [] then e.id
                                               else g[p].dirtyRanges[0].start, e.id)])
  {
    ReplaySucceedsIff(events);
    var rank := ReplayKeepsInvariant(events);
    hide Prepare, Record, RecordedBranch, Replayed;
    NoEmptyName(g, rank);
    var preparedRank := PrepareOk(g, rank, e);
    PreparedFork(g, rank, e);
    RecordOk(Prepare(g, e).value, preparedRank, e);
    RecordedFork(ForkBase(g, e), e);
  }

  // ----- Heads only: RebuildSession -----

  datatype SessionState = SessionState(
    sessionId: string,
    branchHeads: map<string, string>,
    lastEventId: string,
    eventCount: nat)

  function SessionStep(state: SessionState, e: Event): Outcome<SessionState> {
    if e.sessionId != state.sessionId then Failed(MixedSession)
    else if !e.Valid() then Failed(InvalidEvent)
    else Done(state.(branchHeads := state.branchHeads[e.branchId := e.id],
                     lastEventId := e.id,
                     eventCount := state.eventCount + 1))
  }

  function SessionFold(sessionId: string, events: seq<Event>): Outcome<SessionState> {
    if events == [] then Done(SessionState(sessionId, map[], "", 0))
    else match SessionFold(sessionId, events[..|events| - 1])
      case Failed(error) => Failed(error)
      case Done(state) => SessionStep(state, events[|events| - 1])
  }

  function Session(events: seq<Event>): Outcome<SessionState> {
    SessionFold(if events == [] then "" else events[0].sessionId, events)
  }

  lemma {:induction false} SessionFailureSticks(sessionId: string, events: seq<Event>, n: nat)
    requires n <= |events| && SessionFold(sessionId, events[..n]).Failed?
    ensures SessionFold(sessionId, events) == SessionFold(sessionId, events[..n])
    decreases |events|
  {
    if n == |events| {
      assert events[..n] == events;
    } else {
      var init := events[..|events| - 1];
      assert init[..n] == events[..n];
      SessionFailureSticks(sessionId, init, n);
    }
  }

  method RebuildSession(events: seq<Event>) returns (r: Outcome<SessionState>)
    ensures r == Session(events)
  {
    hide Event.Valid;
    if |events| == 0 {
      return Done(SessionState("", map[], "", 0));
    }
    var state := SessionState(events[0].sessionId, map[], "", 0);
    for i := 0 to |events|
      invariant state.sessionId == events[0].sessionId
      invariant SessionFold(events[0].sessionId, events[..i]) == Done(state)
    {
      var e := events[i];
      assert events[..i + 1][..i] == events[..i];
      if e.sessionId != state.sessionId {
        SessionFailureSticks(events[0].sessionId, events, i + 1);
        return Failed(MixedSession);
      }
      if !e.Valid() {
        SessionFailureSticks(events[0].sessionId, events, i + 1);
        return Failed(InvalidEvent);
      }
      state := state.(branchHeads := state.branchHeads[e.branchId := e.id]);
      state := state.(lastEventId := e.id);
      state := state.(eventCount := state.eventCount + 1);
    }
    assert events[..|events|] == events;
    r := Done(state);
  }

  // ----- The two replays agree -----

  datatype Last = NoEvent | LastEvent(event: Event)

  /** The last event on a branch. */
  function LastOn(events: seq<Event>, branchId: string): (r: Last)
    ensures r.LastEvent? ==> r.event in events && r.event.branchId == branchId
    ensures r.NoEvent? <==> forall e | e in events :: e.branchId != branchId
  {
    if events == [] then NoEvent
    else
      var n := |events| - 1;
      assert events == events[..n] + [events[n]];
      if events[n].branchId == branchId then LastEvent(events[n]) else LastOn(events[..n], branchId)
  }

  lemma InSnoc<T>(s: seq<T>, e: T)
    ensures forall x :: x in s + [e] <==> x in s || x == e
  {
  }

  /** RebuildSession succeeds exactly on valid logs of one session. */
  lemma {:induction false} SessionSucceedsIff(sessionId: string, events: seq<Event>)
    ensures SessionFold(sessionId, events).Done? <==> forall e | e in events :: e.Valid() && e.sessionId == sessionId
    ensures SessionFold(sessionId, events).Done? ==>
              var s := SessionFold(sessionId, events).value;
              && s.sessionId == sessionId
              && s.eventCount == |events|
              && (events != [] ==> s.lastEventId == events[|events| - 1].id)
    decreases |events|
  {
    hide Event.Valid;
    if events != [] {
      var init, e := events[..|events| - 1], events[|events| - 1];
      SessionSucceedsIff(sessionId, init);
      assert events == init + [e];
      InSnoc(init, e);
    }
  }

  /** It maps a branch to its last event, and has no other branches. */
  lemma {:induction false} SessionHeads(sessionId: string, events: seq<Event>, b: string)
    requires SessionFold(sessionId, events).Done?
    ensures var heads := SessionFold(sessionId, events).value.branchHeads;
            && (b in heads <==> LastOn(events, b).LastEvent?)
            && (b in heads ==> heads[b] == LastOn(events, b).event.id)
    decreases |events|
  {
    hide Event.Valid;
    if events != [] {
      SessionHeads(sessionId, events[..|events| - 1], b);
    }
  }

  ghost predicate IsForkParent(events: seq<Event>, b: string) {
    b != "" && exists e :: e in events && IsFork(e) && ForkParent(e) == b
  }

  lemma {:induction false} ForkParentSnoc(events: seq<Event>, e: Event, b: string)
    ensures IsForkParent(events + [e], b) <==> IsForkParent(events, b) || (IsFork(e) && ForkParent(e) == b != "")
  {
    assert e in events + [e];
    forall f
      ensures f in events + [e] <==> f in events || f == e
    {
    }
  }

  /** The last event on a branch that full replay appends to it. */
  function LastAppended(events: seq<Event>, branchId: string): (r: Last)
    ensures r.LastEvent? ==> r.event in events && r.event.branchId == branchId && !IsCheckpoint(r.event)
  {
    if events == [] then NoEvent
    else
      var n := |events| - 1;
      assert events == events[..n] + [events[n]];
      if events[n].branchId == branchId && !IsCheckpoint(events[n]) then LastEvent(events[n])
      else LastAppended(events[..n], branchId)
  }

  /** The head of a replayed branch, read off the log. */
  function GraphHead(events: seq<Event>, branchId: string): string {
    match LastAppended(events, branchId)
    case NoEvent => ""
    case LastEvent(e) => HeadAfter(e)
  }

  lemma {:induction false} HeadStep(g: Branches, rank: map<string, nat>, e: Event, b: string)
    requires GraphOk(g, rank) && e.Valid() && Step(g, e).Done? && b in Step(g, e).value
    ensures Step(g, e).value[b].headEventId ==
      if b == e.branchId && !IsCheckpoint(e) then HeadAfter(e) else if b in g then g[b].headEventId else ""
  {
    var rank' := StepOk(g, rank, e);
    if b == e.branchId && IsCheckpoint(e) && b !in g {
      FreshCheckpointBranch(g, e);
    }
  }

  lemma FreshCheckpointBranch(g: Branches, e: Event)
    requires e.Valid() && IsCheckpoint(e) && e.branchId !in g
    ensures Step(g, e).Done? && Step(g, e).value[e.branchId].headEventId == ""
  {
  }

  lemma {:induction false} GraphHeadIs(events: seq<Event>, g: Branches, b: string)
    requires Replayed(events) == Done(g) && b in g
    ensures g[b].headEventId == GraphHead(events, b)
    decreases |events|
  {
    hide Step, GraphOk, HeadAfter, Event.Valid;
    var init, e := events[..|events| - 1], events[|events| - 1];
    assert events == init + [e];
    ReplayedPrefix(init, [e]);
    var before := Replayed(init).value;
    var rank := ReplayKeepsInvariant(init);
    HeadStep(before, rank, e, b);
    if b in before {
      GraphHeadIs(init, before, b);
    } else {
      GraphMembers(init, before, b);
      NothingAppended(init, b);
    }
  }

  lemma NothingAppended(events: seq<Event>, b: string)
    requires LastOn(events, b).NoEvent?
    ensures LastAppended(events, b).NoEvent?
  {
  }

  /** The last event on a branch is also the last appended one unless it is a checkpoint. */
  lemma {:induction false} LastAppendedIs(events: seq<Event>, b: string)
    requires LastOn(events, b).LastEvent? && !IsCheckpoint(LastOn(events, b).event)
    ensures LastAppended(events, b) == LastOn(events, b)
  {
    if events[|events| - 1].branchId != b {
      LastAppendedIs(events[..|events| - 1], b);
    }
  }

  lemma {:induction false} LastOnSnoc(events: seq<Event>, e: Event, b: string)
    ensures LastOn(events + [e], b) == if e.branchId == b then LastEvent(e) else LastOn(events, b)
  {
    assert (events + [e])[..|events|] == events;
  }

  lemma {:induction false} GraphMembers(events: seq<Event>, g: Branches, b: string)
    requires Replayed(events) == Done(g)
    ensures b in g <==> LastOn(events, b).LastEvent? || IsForkParent(events, b)
    ensures b in g && LastOn(events, b).NoEvent? ==> g[b] == NewBranch(b)
    decreases |events|
  {
    if events != [] {
      hide Step, GraphOk, Touches, Event.Valid, LastOn, IsForkParent, IsFork, ForkParent;
      var (init, e) := (events[..|events| - 1], events[|events| - 1]);
      assert events == init + [e];
      ReplayedPrefix(init, [e]);
      var before := Replayed(init).value;
      GraphMembers(init, before, b);
      var rank := ReplayKeepsInvariant(init);
      rank := StepOk(before, rank, e);
      ForkParentSnoc(init, e, b);
      LastOnSnoc(init, e, b);
      NoEmptyName(g, rank);
      TouchedMembers(before, g, e, b);
    }
  }

  lemma NoEmptyName(g: Branches, rank: map<string, nat>)
    requires GraphOk(g, rank)
    ensures "" !in g
  {
  }

  lemma TouchedMembers(g: Branches, g': Branches, e: Event, b: string)
    requires Touches(g, g', e) && "" !in g'
    ensures b in g' <==> b in g || b == e.branchId || (IsFork(e) && ForkParent(e) == b != "")
    ensures b in g' && b != e.branchId ==> g'[b] == if b in g then g[b] else NewBranch(b)
  {
  }

  /** The graph has exactly the branches that have an event or are named as a fork's parent; one
      without an event is still as it was created. The head of a branch is its last event that is no
      checkpoint, or the basis if that event is a rebase onto one; with checkpoints only it is empty. */
  lemma {:induction false} GraphMeaning(events: seq<Event>, g: Branches, b: string)
    requires Replayed(events) == Done(g)
    ensures b in g <==> LastOn(events, b).LastEvent? || IsForkParent(events, b)
    ensures b in g && LastOn(events, b).NoEvent? ==> g[b] == NewBranch(b)
    ensures b in g ==> g[b].headEventId == GraphHead(events, b)
  {
    hide *;
    GraphMembers(events, g, b);
    if b in g {
      GraphHeadIs(events, g, b);
    }
  }

  /** On a valid log of one session, RebuildSession and the graph agree on the head of every branch
      whose last event is not a checkpoint, unless that event is a rebase onto another basis; the
      graph's extra branches are exactly the event-less fork parents. */
  lemma {:induction false} HeadsAgree(events: seq<Event>, s: SessionState, g: Branches, b: string)
    requires Session(events) == Done(s) && Replayed(events) == Done(g)
    ensures b in g <==> b in s.branchHeads || IsForkParent(events, b)
    ensures b in g && b !in s.branchHeads ==> g[b] == NewBranch(b)
    ensures b in s.branchHeads <==> LastOn(events, b).LastEvent?
    ensures b in s.branchHeads && !IsCheckpoint(LastOn(events, b).event) ==>
              var last := LastOn(events, b).event;
              g[b].headEventId == s.branchHeads[b]
              <==> !IsRebase(last) || BasisId(last) == "" || BasisId(last) == last.id
  {
    SessionHeads(if events == [] then "" else events[0].sessionId, events, b);
    GraphMeaning(events, g, b);
    if LastOn(events, b).LastEvent? && !IsCheckpoint(LastOn(events, b).event) {
      LastAppendedIs(events, b);
    }
  }

  ghost predicate DistinctIds(events: seq<Event>) {
    forall i, j | 0 <= i < j < |events| :: events[i].id != events[j].id
  }

  lemma {:induction false} ReplayedPrefix(events: seq<Event>, rest: seq<Event>)
    requires Replayed(events + rest).Done?
    ensures Replayed(events).Done? && forall e | e in events + rest :: e.Valid()
  {
    ReplaySucceedsIff(events + rest);
    assert forall e | e in events :: e in events + rest;
    ReplaySucceedsIff(events);
  }

  /** What decides whether full replay shows a branch's last event as its head: a checkpoint is shown
      only if the last other event is a rebase that names it as its basis; any other event is shown
      unless it is a rebase onto another basis. */
  predicate ShowsLast(events: seq<Event>, b: string) {
    match LastOn(events, b)
    case NoEvent => false
    case LastEvent(last) =>
      if IsCheckpoint(last) then
        var appended := LastAppended(events, b);
        appended.LastEvent? && IsRebase(appended.event) && BasisId(appended.event) == last.id
      else !IsRebase(last) || BasisId(last) == "" || BasisId(last) == last.id
  }

  lemma {:induction false} ShownIff(events: seq<Event>, b: string)
    requires DistinctIds(events) && LastOn(events, b).LastEvent? && LastOn(events, b).event.id != ""
    ensures GraphHead(events, b) == LastOn(events, b).event.id <==> ShowsLast(events, b)
  {
    var last := LastOn(events, b).event;
    if !IsCheckpoint(last) {
      LastAppendedIs(events, b);
    } else if LastAppended(events, b).LastEvent? {
      var e := LastAppended(events, b).event;
      hide LastOn, LastAppended;
      var i :| 0 <= i < |events| && events[i] == e;
      var j :| 0 <= j < |events| && events[j] == last;
      assert e.id != last.id;
    }
  }

  /** With distinct event ids, on any log of one session, the two heads agree exactly on the branches
      whose last event full replay shows. */
  lemma {:induction false} HeadsAgreeIff(events: seq<Event>, s: SessionState, g: Branches, b: string)
    requires Session(events) == Done(s) && Replayed(events) == Done(g)
    requires DistinctIds(events) && b in s.branchHeads
    ensures LastOn(events, b).LastEvent? && b in g
    ensures g[b].headEventId == s.branchHeads[b] <==> ShowsLast(events, b)
  {
    hide LastOn, ShowsLast, GraphHead;
    HeadsAgree(events, s, g, b);
    GraphMeaning(events, g, b);
    SessionSucceedsIff(events[0].sessionId, events);
    SessionHeads(events[0].sessionId, events, b);
    assert LastOn(events, b).event.Valid();
    ShownIff(events, b);
  }

  // ----- Summary base and dirty range, read off the log -----

  ghost predicate Known(events: seq<Event>, b: string) {
    LastOn(events, b).LastEvent? || IsForkParent(events, b)
  }

  /** After these events `e` creates its branch as a copy of another one. */
  ghost predicate Forks(events: seq<Event>, e: Event) {
    IsFork(e) && ForkParent(e) != "" && ForkParent(e) != e.branchId && !Known(events, e.branchId)
  }

  /** Where the dirty range of a branch starts, "" if it has none: a fork takes over its parent's, a
      rebase ends it, a checkpoint leaves it, and any other event opens one if there is none. */
  ghost function RangeStart(events: seq<Event>, b: string): string {
    if events == [] then ""
    else
      var init, e := events[..|events| - 1], events[|events| - 1];
      if e.branchId != b || IsCheckpoint(e) then RangeStart(init, b)
      else if IsRebase(e) then ""
      else
        var inherited := RangeStart(init, if Forks(init, e) then ForkParent(e) else b);
        if inherited != "" then inherited else e.id
  }

  /** The summary of the last checkpoint or rebase, a fork's parent's if there is none of its own. */
  ghost function BaseOf(events: seq<Event>, b: string): string {
    if events == [] then ""
    else
      var init, e := events[..|events| - 1], events[|events| - 1];
      if e.branchId != b then BaseOf(init, b)
      else if (IsCheckpoint(e) && SummaryId(e) != "") || IsRebase(e) then SummaryId(e)
      else BaseOf(init, if Forks(init, e) then ForkParent(e) else b)
  }

  function RangeOf(b: Branch): string {
    if b.dirtyRanges == [] then "" else b.dirtyRanges[0].start
  }

  lemma {:induction false} NoOutline(events: seq<Event>, b: string)
    requires LastOn(events, b).NoEvent?
    ensures RangeStart(events, b) == "" && BaseOf(events, b) == ""
  {
    if events != [] {
      NoOutline(events[..|events| - 1], b);
    }
  }

  lemma {:induction false} RecordedOutline(b: Branch, e: Event)
    requires BranchOk(b.branchId, b) && e.id != ""
    ensures RangeOf(RecordedBranch(b, e)) ==
      if IsCheckpoint(e) then RangeOf(b) else if IsRebase(e) then "" else if RangeOf(b) != "" then RangeOf(b) else e.id
    ensures RecordedBranch(b, e).baseSummaryId ==
      if (IsCheckpoint(e) && SummaryId(e) != "") || IsRebase(e) then SummaryId(e) else b.baseSummaryId
  {
    BranchOkIsValid(b.branchId, b);
  }

  /** The record that an event is appended to. */
  function Origin(g: Branches, e: Event): Branch {
    if e.branchId in g then g[e.branchId] else if IsFork(e) then ForkBase(g, e) else NewBranch(e.branchId)
  }

  lemma {:induction false} StepRecords(g: Branches, rank: map<string, nat>, e: Event)
    requires GraphOk(g, rank) && e.Valid()
    ensures BranchOk(e.branchId, Origin(g, e))
    ensures Step(g, e).Done? && e.branchId in Step(g, e).value
    ensures Step(g, e).value[e.branchId] == RecordedBranch(Origin(g, e), e)
  {
    hide Record, RecordedBranch, ForkBase;
    var preparedRank := PrepareOk(g, rank, e);
    if e.branchId !in g {
      if IsFork(e) {
        PreparedFork(g, rank, e);
      } else {
        var ownRank := EnsureOk(g, rank, e.branchId);
      }
    }
    hide Prepare;
    RecordOk(Prepare(g, e).value, preparedRank, e);
  }

  lemma {:induction false} OriginOutline(events: seq<Event>, g: Branches, e: Event)
    requires Replayed(events) == Done(g)
    requires forall x | x in g :: RangeOf(g[x]) == RangeStart(events, x) && g[x].baseSummaryId == BaseOf(events, x)
    ensures var from := if Forks(events, e) then ForkParent(e) else e.branchId;
      && RangeOf(Origin(g, e)) == RangeStart(events, from) && Origin(g, e).baseSummaryId == BaseOf(events, from)
  {
    hide Replayed, RangeStart, BaseOf, IsForkParent, LastOn;
    GraphMembers(events, g, e.branchId);
    GraphMembers(events, g, ForkParent(e));
    if e.branchId !in g {
      NoOutline(events, e.branchId);
    }
    if ForkParent(e) !in g {
      NoOutline(events, ForkParent(e));
    }
  }

  lemma {:induction false} OutlineSnoc(events: seq<Event>, e: Event, b: string)
    ensures e.branchId != b ==>
      RangeStart(events + [e], b) == RangeStart(events, b) && BaseOf(events + [e], b) == BaseOf(events, b)
    ensures var from := if Forks(events, e) then ForkParent(e) else e.branchId;
      && RangeStart(events + [e], e.branchId) == (
        if IsCheckpoint(e) then RangeStart(events, from) else if IsRebase(e) then ""
        else if RangeStart(events, from) != "" then RangeStart(events, from) else e.id)
      && BaseOf(events + [e], e.branchId) == (
        if (IsCheckpoint(e) && SummaryId(e) != "") || IsRebase(e) then SummaryId(e) else BaseOf(events, from))
  {
    hide Known, LastOn;
    assert (events + [e])[..|events|] == events;
  }

  lemma {:induction false} LastReplayed(events: seq<Event>, e: Event, g: Branches)
    requires Replayed(events + [e]) == Done(g)
    ensures Replayed(events).Done? && Step(Replayed(events).value, e) == Done(g) && e.Valid()
  {
    assert (events + [e])[..|events|] == events;
    hide Prepare, Record, Event.Valid;
  }

  /** What full replay makes of a branch besides its head. */
  lemma {:induction false} GraphOutline(events: seq<Event>, g: Branches)
    requires Replayed(events) == Done(g)
    ensures forall b | b in g :: RangeOf(g[b]) == RangeStart(events, b) && g[b].baseSummaryId == BaseOf(events, b)
    decreases |events|
  {
    if events != [] {
      hide Replayed, Step, GraphOk, Touches, Origin, RecordedBranch, Event.Valid, Forks, RangeOf, RangeStart, BaseOf;
      var (init, e) := (events[..|events| - 1], events[|events| - 1]);
      assert events == init + [e];
      LastReplayed(init, e, g);
      ReplayedPrefix(init, [e]);
      var before := Replayed(init).value;
      GraphOutline(init, before);
      var rank := ReplayKeepsInvariant(init);
      StepRecords(before, rank, e);
      OriginOutline(init, before, e);
      ValidId(e);
      RecordedOutline(Origin(before, e), e);
      var after := StepOk(before, rank, e);
      forall b | b in g
        ensures RangeOf(g[b]) == RangeStart(events, b) && g[b].baseSummaryId == BaseOf(events, b)
      {
        OutlineSnoc(init, e, b);
        if b != e.branchId {
          OtherOutline(init, before, g, after, e, b);
        }
      }
    }
  }

  lemma ValidId(e: Event)
    requires e.Valid()
    ensures e.id != ""
  {
  }

  lemma {:induction false} OtherOutline(init: seq<Event>, before: Branches, g: Branches, rank: map<string, nat>,
                                        e: Event, b: string)
    requires Replayed(init) == Done(before) && Touches(before, g, e) && GraphOk(g, rank) && b in g && b != e.branchId
    requires b in before ==> RangeOf(before[b]) == RangeStart(init, b) && before[b].baseSummaryId == BaseOf(init, b)
    ensures RangeOf(g[b]) == RangeStart(init, b) && g[b].baseSummaryId == BaseOf(init, b)
  {
    NoEmptyName(g, rank);
    TouchedMembers(before, g, e, b);
    hide Replayed, GraphOk, Touches, RangeStart, BaseOf, LastOn, IsForkParent;
    if b !in before {
      GraphMembers(init, before, b);
      NoOutline(init, b);
    }
  }

  /** The whole replayed branch, read off the log but for what a fork sets once and for all. */
  lemma {:induction false} GraphBranch(events: seq<Event>, g: Branches, b: string)
    requires Replayed(events) == Done(g) && b in g
    ensures var (start, head) := (RangeStart(events, b), GraphHead(events, b));
      g[b] == g[b].(baseSummaryId := BaseOf(events, b), headEventId := head,
                    dirtyRanges := if start == "" then [] else [DirtyRange(start, head)])
  {
    GraphOutline(events, g);
    GraphHeadIs(events, g, b);
    ReachableGraph(events, g);
    hide Replayed, RangeStart, BaseOf, GraphHead;
    assert BranchOk(b, g[b]);
    if g[b].dirtyRanges != [] {
      assert g[b].dirtyRanges == [g[b].dirtyRanges[0]];
    }
  }

  /** The event that makes a branch known: its own first event, or a fork that names it as parent. */
  ghost predicate Creates(events: seq<Event>, k: nat, b: string) {
    k < |events| && !Known(events[..k], b) && Known(events[..k + 1], b)
  }

  lemma {:induction false} KnownSnoc(events: seq<Event>, e: Event, b: string)
    ensures Known(events + [e], b) <==>
      Known(events, b) || e.branchId == b || (IsFork(e) && ForkParent(e) == b && b != "")
  {
    hide LastOn, IsForkParent;
    LastOnSnoc(events, e, b);
    ForkParentSnoc(events, e, b);
  }

  lemma {:induction false} CreatesLater(events: seq<Event>, e: Event, k: nat, b: string)
    requires k < |events|
    ensures Creates(events + [e], k, b) <==> Creates(events, k, b)
  {
    hide Known;
    assert (events + [e])[..k] == events[..k] && (events + [e])[..k + 1] == events[..k + 1];
  }

  lemma {:induction false} CreatesNow(events: seq<Event>, e: Event, b: string)
    ensures Creates(events + [e], |events|, b) <==> !Known(events, b) && Known(events + [e], b)
  {
    hide Known;
    assert (events + [e])[..|events|] == events && (events + [e])[..|events| + 1] == events + [e];
  }

  /** What a branch keeps of its creation for good. */
  ghost predicate Linked(b: Branch, id: string, e: Event) {
    && b.branchId == id && b.score == 0.0 && b.materializedHint == ""
    && (if e.branchId == id && e.kind.KindBranchFork? && ReadMetaString(e.meta, "parent_branch_id") !in {"", id}
        then b.parentBranchId == ReadMetaString(e.meta, "parent_branch_id") && b.forkEventId == e.parentEventId
        else b.parentBranchId == "" && b.forkEventId == "")
  }

  ghost predicate SameLinks(a: Branch, b: Branch) {
    (a.branchId, a.parentBranchId, a.forkEventId, a.score, a.materializedHint)
    == (b.branchId, b.parentBranchId, b.forkEventId, b.score, b.materializedHint)
  }

  lemma RecordedLinks(b: Branch, e: Event)
    requires BranchOk(b.branchId, b) && e.id != ""
    ensures SameLinks(RecordedBranch(b, e), b)
  {
  }

  lemma OriginLinks(g: Branches, e: Event)
    requires e.branchId !in g
    requires var p := ForkParent(e); p in g ==> g[p].score == 0.0
    ensures Linked(Origin(g, e), e.branchId, e)
  {
  }

  lemma NewLinks(id: string, e: Event)
    requires e.branchId != id
    ensures Linked(NewBranch(id), id, e)
  {
  }

  lemma LinksStay(a: Branch, b: Branch, id: string, e: Event)
    requires Linked(a, id, e) && SameLinks(a, b)
    ensures Linked(b, id, e)
  {
  }

  /** Parent link, fork event, score and hint of every replayed branch, read off the event that created
      it: a fork event on the branch itself that names another branch as its parent gives both links,
      anything else neither. */
  lemma {:induction false} GraphLinks(events: seq<Event>, g: Branches, b: string) returns (k: nat)
    requires Replayed(events) == Done(g) && b in g
    ensures k < |events| && Creates(events, k, b) && Linked(g[b], b, events[k])
    decreases |events|, 0
  {
    assert events != [];
    hide Replayed, Step, GraphOk, Touches, Origin, RecordedBranch, Event.Valid, Known, Linked, SameLinks, Creates;
    var (init, e) := (events[..|events| - 1], events[|events| - 1]);
    assert events == init + [e];
    LastReplayed(init, e, g);
    ReplayedPrefix(init, [e]);
    var before := Replayed(init).value;
    var rank := ReplayKeepsInvariant(init);
    var after := StepOk(before, rank, e);
    NoEmptyName(g, after);
    TouchedMembers(before, g, e, b);
    GraphKnown(init, before, b);
    GraphKnown(events, g, b);
    if b in before {
      k := GraphLinks(init, before, b);
      CreatesLater(init, e, k, b);
      LastingLinks(before, rank, g, e, b);
      LinksStay(before[b], g[b], b, events[k]);
    } else {
      k := |init|;
      CreatesNow(init, e, b);
      if b == e.branchId {
        NewOwnBranch(init, before, rank, g, e);
      } else {
        NewLinks(b, e);
      }
    }
  }

  lemma {:induction false} GraphKnown(events: seq<Event>, g: Branches, b: string)
    requires Replayed(events) == Done(g)
    ensures b in g <==> Known(events, b)
  {
    hide Replayed, LastOn, IsForkParent;
    GraphMembers(events, g, b);
  }

  lemma {:induction false} LastingLinks(before: Branches, rank: map<string, nat>, g: Branches, e: Event, b: string)
    requires GraphOk(before, rank) && e.Valid() && Step(before, e) == Done(g) && Touches(before, g, e)
    requires b in before && b in g
    ensures SameLinks(before[b], g[b])
  {
    StepRecords(before, rank, e);
    hide Step, RecordedBranch;
    if b == e.branchId {
      RecordedLinks(before[b], e);
    }
  }

  lemma {:induction false} NewOwnBranch(init: seq<Event>, before: Branches, rank: map<string, nat>, g: Branches,
                                        e: Event)
    requires Replayed(init) == Done(before) && GraphOk(before, rank) && e.Valid() && Step(before, e) == Done(g)
    requires e.branchId !in before
    ensures e.branchId in g && Linked(g[e.branchId], e.branchId, e)
    decreases |init|, 2
  {
    StepRecords(before, rank, e);
    if ForkParent(e) in before {
      ScoreIsZero(init, before, ForkParent(e));
    }
    hide Replayed, Step, GraphOk, RecordedBranch;
    OriginLinks(before, e);
    RecordedLinks(Origin(before, e), e);
    hide Origin;
    LinksStay(Origin(before, e), g[e.branchId], e.branchId, e);
  }

  lemma {:induction false} ScoreIsZero(events: seq<Event>, g: Branches, b: string)
    requires Replayed(events) == Done(g) && b in g
    ensures g[b].score == 0.0
    decreases |events|, 1
  {
    hide Replayed;
    var k := GraphLinks(events, g, b);
  }

  // ----- Summary and delta -----

  datatype SummaryCheckpoint = SummaryCheckpoint(
    summaryId: string,
    branchId: string,
    basisEventId: string,
    coveredStart: string,
    coveredEnd: string,
    textRef: string,
    blobRef: string,
    byteEstimate: int,
    tokenEstimate: int,
    freshnessVersion: int)
  {
    predicate Valid() {
      && summaryId != "" && branchId != "" && basisEventId != ""
      && coveredStart != "" && coveredEnd != ""
      && !(textRef == "" && blobRef == "")
      && byteEstimate >= 0 && tokenEstimate >= 0 && freshnessVersion >= 0
    }
  }

  /** Appending the events of one branch to its record, in order. */
  function DeltaFold(b: Branch, delta: seq<Event>): Outcome<Branch> {
    if delta == [] then Done(b)
    else match DeltaFold(b, delta[..|delta| - 1])
      case Failed(error) => Failed(error)
      case Done(before) =>
        var e := delta[|delta| - 1];
        if !e.Valid() then Failed(InvalidEvent)
        else if e.branchId != b.branchId then Done(before)
        else match Append(before, e.id)
          case Err(error) => Failed(GraphFailure(error))
          case Ok(after) => Done(after)
  }

  function FromSummaryDelta(b: Branch, checkpoint: SummaryCheckpoint, delta: seq<Event>): Outcome<Branch> {
    if !b.Valid() then Failed(InvalidBranchRecord)
    else if !checkpoint.Valid() then Failed(InvalidCheckpoint)
    else if checkpoint.branchId != b.branchId then Failed(CheckpointBranchMismatch)
    else DeltaFold(Rebased(b, checkpoint.summaryId, checkpoint.basisEventId), delta)
  }

  lemma {:induction false} DeltaSucceedsIff(b: Branch, delta: seq<Event>)
    requires b.Valid()
    ensures DeltaFold(b, delta).Done? <==> forall e | e in delta :: e.Valid()
    ensures DeltaFold(b, delta).Done? ==> DeltaFold(b, delta).value.Valid()
  {
    hide Event.Valid;
    if delta != [] {
      var init, last := delta[..|delta| - 1], delta[|delta| - 1];
      assert delta == init + [last];
      DeltaSucceedsIff(b, init);
      AllValidSnoc(init, last);
      if DeltaFold(b, init).Done? && last.Valid() {
        EventIdThere(last);
        AppendKeepsValid(DeltaFold(b, init).value, last.id);
      }
    }
  }

  lemma EventIdThere(e: Event)
    requires e.Valid()
    ensures e.id != ""
  {
  }

  lemma {:induction false} AppendKeepsValid(b: Branch, id: string)
    requires b.Valid() && id != ""
    ensures Append(b, id).Ok? && Append(b, id).value.Valid()
  {
  }

  /** The summary route fails exactly when the branch record, the checkpoint or an event is incomplete, or
      the checkpoint is of another branch. */
  lemma {:induction false} SummarySucceedsIff(b: Branch, c: SummaryCheckpoint, delta: seq<Event>)
    ensures FromSummaryDelta(b, c, delta).Done? <==>
      && |b.branchId| > 0 && (forall r | r in b.dirtyRanges :: |r.start| > 0 && |r.end| > 0)
      && |c.summaryId| > 0 && |c.basisEventId| > 0 && |c.coveredStart| > 0 && |c.coveredEnd| > 0
      && |c.textRef| + |c.blobRef| > 0 && c.byteEstimate >= 0 && c.tokenEstimate >= 0 && c.freshnessVersion >= 0
      && c.branchId == b.branchId && forall e | e in delta :: e.Valid()
  {
    hide Event.Valid, DeltaFold;
    if b.Valid() && c.Valid() {
      DeltaSucceedsIff(Rebased(b, c.summaryId, c.basisEventId), delta);
    }
  }

  lemma {:induction false} DeltaFailureSticks(b: Branch, delta: seq<Event>, n: nat)
    requires n <= |delta| && DeltaFold(b, delta[..n]).Failed?
    ensures DeltaFold(b, delta) == DeltaFold(b, delta[..n])
    decreases |delta|
  {
    if n == |delta| {
      assert delta[..n] == delta;
    } else {
      var init := delta[..|delta| - 1];
      assert init[..n] == delta[..n];
      DeltaFailureSticks(b, init, n);
    }
  }

  lemma {:induction false} RebaseStep(g: Branches, rank: map<string, nat>, r: Event)
    requires GraphOk(g, rank) && r.Valid() && IsRebase(r) && BasisId(r) != ""
    ensures Step(g, r).Done? && r.branchId in Step(g, r).value
    ensures var b := Step(g, r).value[r.branchId];
            b.Valid() && b.branchId == r.branchId && Rebased(b, SummaryId(r), BasisId(r)) == b
  {
    var rank' := PrepareOk(g, rank, r);
    RecordOk(Prepare(g, r).value, rank', r);
  }

  lemma {:induction false} DeltaSnoc(b: Branch, delta: seq<Event>, e: Event)
    ensures DeltaFold(b, delta + [e]) ==
              (match DeltaFold(b, delta)
               case Failed(error) => Failed(error)
               case Done(before) =>
                 if !e.Valid() then Failed(InvalidEvent)
                 else if e.branchId != b.branchId then Done(before)
                 else match Append(before, e.id)
                   case Err(error) => Failed(GraphFailure(error))
                   case Ok(after) => Done(after))
  {
    assert (delta + [e])[..|delta|] == delta;
  }

  lemma {:induction false} AppendStep(g: Branches, rank: map<string, nat>, e: Event, b: string)
    requires GraphOk(g, rank) && e.Valid() && b in g
    requires e.branchId == b ==> !IsCheckpoint(e) && !IsRebase(e)
    ensures Step(g, e).Done? && b in Step(g, e).value && Append(g[b], e.id).Ok?
    ensures Step(g, e).value[b] == if e.branchId == b then Append(g[b], e.id).value else g[b]
  {
    var rank' := StepOk(g, rank, e);
    assert BranchOk(b, g[b]);
    BranchOkIsValid(b, g[b]);
  }

  lemma {:induction false} DeltaFollowsStep(g: Branches, rank: map<string, nat>, start: Branch, delta: seq<Event>,
                                            e: Event)
    requires GraphOk(g, rank) && e.Valid() && start.branchId in g
    requires e.branchId == start.branchId ==> !IsCheckpoint(e) && !IsRebase(e)
    requires DeltaFold(start, delta) == Done(g[start.branchId])
    ensures Step(g, e).Done? && start.branchId in Step(g, e).value
    ensures DeltaFold(start, delta + [e]) == Done(Step(g, e).value[start.branchId])
  {
    AppendStep(g, rank, e, start.branchId);
    DeltaSnoc(start, delta, e);
  }

  lemma {:induction false} ReplayedSnoc(events: seq<Event>, e: Event)
    requires Replayed(events).Done?
    ensures Replayed(events + [e]) == Step(Replayed(events).value, e)
  {
    assert (events + [e])[..|events|] == events;
  }

  /** While a branch sees no checkpoint and no rebase, full replay moves it as the delta does. */
  lemma {:induction false} DeltaFollowsReplay(prefix: seq<Event>, post: seq<Event>, start: Branch)
    requires Replayed(prefix).Done? && start.branchId in Replayed(prefix).value
    requires start == Replayed(prefix).value[start.branchId]
    requires Replayed(prefix + post).Done?
    requires forall e | e in post && e.branchId == start.branchId :: !IsCheckpoint(e) && !IsRebase(e)
    ensures start.branchId in Replayed(prefix + post).value
    ensures DeltaFold(start, post) == Done(Replayed(prefix + post).value[start.branchId])
    decreases |post|
  {
    hide Step, BranchOk, Event.Valid;
    if post == [] {
      assert prefix + post == prefix;
    } else {
      var init, e := post[..|post| - 1], post[|post| - 1];
      assert post == init + [e];
      var log := prefix + init;
      assert prefix + post == log + [e];
      ReplayedPrefix(log, [e]);
      assert e in log + [e];
      DeltaFollowsReplay(prefix, init, start);
      var rank := ReplayKeepsInvariant(log);
      DeltaFollowsStep(Replayed(log).value, rank, start, init, e);
      ReplayedSnoc(log, e);
    }
  }

  /** Rebase preserves meaning: after a rebase event r on branch b, full replay of any further log
      without checkpoint or rebase on b gives the same branch as starting from the summary and
      appending the delta, whatever the other branches do meanwhile. */
  lemma {:induction false} RebasePreservesMeaning(pre: seq<Event>, r: Event, post: seq<Event>,
                                                  checkpoint: SummaryCheckpoint, g: Branches)
    requires Replayed(pre + [r] + post) == Done(g)
    requires IsRebase(r) && checkpoint.Valid()
    requires checkpoint.branchId == r.branchId && checkpoint.summaryId == SummaryId(r)
      && checkpoint.basisEventId == BasisId(r)
    requires forall e | e in post && e.branchId == r.branchId :: !IsCheckpoint(e) && !IsRebase(e)
    ensures Replayed(pre + [r]).Done? && r.branchId in Replayed(pre + [r]).value && r.branchId in g
    ensures FromSummaryDelta(Replayed(pre + [r]).value[r.branchId], checkpoint, post) == Done(g[r.branchId])
  {
    ReplayedPrefix(pre + [r], post);
    ReplayedPrefix(pre, [r]);
    assert r in pre + [r];
    var rank := ReplayKeepsInvariant(pre);
    RebaseStep(Replayed(pre).value, rank, r);
    ReplayedSnoc(pre, r);
    DeltaFollowsReplay(pre + [r], post, Replayed(pre + [r]).value[r.branchId]);
  }

  /** The position of the first event with the given id; the length when there is none. */
  function IndexOfId(events: seq<Event>, id: string): (k: nat)
    ensures k <= |events|
    ensures k < |events| ==> events[k].id == id
    ensures forall i | 0 <= i < k :: events[i].id != id
  {
    if events == [] || events[0].id == id then 0
    else
      var k := IndexOfId(events[1..], id);
      assert forall i | 0 < i < k + 1 :: events[i] == events[1..][i - 1];
      k + 1
  }

  function FromSummaryAndEvents(b: Branch, checkpoint: SummaryCheckpoint, events: seq<Event>): Outcome<Branch> {
    var k := IndexOfId(events, checkpoint.basisEventId);
    if !checkpoint.Valid() then Failed(InvalidCheckpoint)
    else if k == |events| then Failed(BasisNotFound)
    else FromSummaryDelta(b, checkpoint, OnBranch(events[k + 1..], b.branchId))
  }

  lemma {:induction false} DeltaIgnoresOthers(b: Branch, events: seq<Event>)
    requires forall e | e in events :: e.Valid()
    ensures DeltaFold(b, OnBranch(events, b.branchId)) == DeltaFold(b, events)
    decreases |events|
  {
    if events != [] {
      var init, e := events[..|events| - 1], events[|events| - 1];
      assert events == init + [e];
      DeltaIgnoresOthers(b, init);
      DeltaSnoc(b, init, e);
      DeltaSnoc(b, OnBranch(init, b.branchId), e);
    }
  }

  lemma {:induction false} DeltaHead(b: Branch, events: seq<Event>)
    requires forall e | e in events :: e.Valid()
    requires BranchOk(b.branchId, b)
    ensures DeltaFold(b, events).Done? && BranchOk(b.branchId, DeltaFold(b, events).value)
    ensures DeltaFold(b, events).value.headEventId == (match LastOn(events, b.branchId)
                                                       case NoEvent => b.headEventId
                                                       case LastEvent(e) => e.id)
    decreases |events|
  {
    if events != [] {
      var init, e := events[..|events| - 1], events[|events| - 1];
      assert events == init + [e];
      DeltaHead(b, init);
      BranchOkIsValid(b.branchId, DeltaFold(b, init).value);
      DeltaSnoc(b, init, e);
    }
  }

  lemma {:induction false} LastOnSplit(a: seq<Event>, c: seq<Event>, b: string)
    ensures LastOn(a + c, b) == if LastOn(c, b).LastEvent? then LastOn(c, b) else LastOn(a, b)
    decreases |c|
  {
    if c == [] {
      assert a + c == a;
    } else {
      var n := |c| - 1;
      assert (a + c)[..|a + c| - 1] == a + c[..n];
      LastOnSplit(a, c[..n], b);
    }
  }

  lemma {:induction false} FromSummaryUnfolds(b: Branch, checkpoint: SummaryCheckpoint, events: seq<Event>, k: nat)
    requires b.Valid() && checkpoint.Valid() && checkpoint.branchId == b.branchId
    requires k < |events| && IndexOfId(events, checkpoint.basisEventId) == k
    ensures FromSummaryAndEvents(b, checkpoint, events)
         == DeltaFold(Rebased(b, checkpoint.summaryId, checkpoint.basisEventId), OnBranch(events[k + 1..], b.branchId))
  {
    hide DeltaFold, OnBranch, IndexOfId, SummaryCheckpoint.Valid, Branch.Valid;
  }

  lemma {:induction false} FilteredDeltaHead(b: Branch, branchId: string, events: seq<Event>)
    requires branchId == b.branchId && BranchOk(branchId, b)
    requires forall e | e in events :: e.Valid()
    ensures DeltaFold(b, OnBranch(events, branchId)).Done?
    ensures DeltaFold(b, OnBranch(events, branchId)).value.headEventId == (match LastOn(events, branchId)
                                                                           case NoEvent => b.headEventId
                                                                           case LastEvent(e) => e.id)
  {
    hide *;
    DeltaIgnoresOthers(b, events);
    DeltaHead(b, events);
  }

  lemma {:induction false} SummaryHead(events: seq<Event>, b: Branch, checkpoint: SummaryCheckpoint, k: nat)
    requires b.Valid() && checkpoint.Valid() && checkpoint.branchId == b.branchId
    requires k < |events| && IndexOfId(events, checkpoint.basisEventId) == k
    requires forall e | e in events[k + 1..] :: e.Valid()
    ensures FromSummaryAndEvents(b, checkpoint, events).Done?
    ensures FromSummaryAndEvents(b, checkpoint, events).value.headEventId
         == (match LastOn(events[k + 1..], b.branchId)
             case NoEvent => checkpoint.basisEventId
             case LastEvent(e) => e.id)
  {
    hide *;
    RebasedOk(b, checkpoint);
    FromSummaryUnfolds(b, checkpoint, events, k);
    FilteredDeltaHead(Rebased(b, checkpoint.summaryId, checkpoint.basisEventId), b.branchId, events[k + 1..]);
  }

  lemma RebasedOk(b: Branch, checkpoint: SummaryCheckpoint)
    requires b.Valid() && checkpoint.Valid()
    ensures var start := Rebased(b, checkpoint.summaryId, checkpoint.basisEventId);
            BranchOk(b.branchId, start) && start.branchId == b.branchId && start.headEventId == checkpoint.basisEventId
  {
  }

  lemma {:induction false} LastOnTop(events: seq<Event>, k: nat, b: string)
    requires k < |events|
    ensures LastOn(events[..k + 1], b) == if events[k].branchId == b then LastEvent(events[k])
      else LastOn(events[..k], b)
  {
    assert events[..k + 1][..k] == events[..k];
  }

  /** Rebuilding a branch from a basis event gives the head that RebuildSession reports exactly when
      the basis lies on that branch or the branch has an event after it. */
  lemma {:induction false} SummaryHeadIff(events: seq<Event>, s: SessionState, b: Branch,
                                          checkpoint: SummaryCheckpoint, k: nat)
    requires Session(events) == Done(s) && DistinctIds(events)
    requires b.Valid() && b.branchId in s.branchHeads
    requires checkpoint.Valid() && checkpoint.branchId == b.branchId
    requires k < |events| && events[k].id == checkpoint.basisEventId
    ensures FromSummaryAndEvents(b, checkpoint, events).Done?
    ensures FromSummaryAndEvents(b, checkpoint, events).value.headEventId == s.branchHeads[b.branchId]
       <==> events[k].branchId == b.branchId || LastOn(events[k + 1..], b.branchId).LastEvent?
  {
    hide FromSummaryAndEvents, Event.Valid, Branch.Valid, SummaryCheckpoint.Valid, LastOn, SessionFold, IndexOfId;
    SessionSucceedsIff(events[0].sessionId, events);
    SessionHeads(events[0].sessionId, events, b.branchId);
    assert IndexOfId(events, checkpoint.basisEventId) == k;
    assert forall e | e in events[k + 1..] :: e in events;
    SummaryHead(events, b, checkpoint, k);
    assert events == events[..k + 1] + events[k + 1..];
    LastOnSplit(events[..k + 1], events[k + 1..], b.branchId);
    LastOnTop(events, k, b.branchId);
    if events[k].branchId != b.branchId && LastOn(events[..k], b.branchId).LastEvent? {
      var last := LastOn(events[..k], b.branchId).event;
      var i :| 0 <= i < k && events[..k][i] == last;
      assert events[i].id != events[k].id;
    }
  }

  /** The id of the first event on a branch, "" if there is none. */
  function FirstIdOn(events: seq<Event>, branchId: string): string {
    if events == [] then ""
    else
      var init, e := FirstIdOn(events[..|events| - 1], branchId), events[|events| - 1];
      if init != "" then init else if e.branchId == branchId then e.id else ""
  }

  lemma {:induction false} DeltaBranch(b: Branch, events: seq<Event>)
    requires (forall e | e in events :: e.Valid()) && BranchOk(b.branchId, b)
    ensures DeltaFold(b, events).Done?
    ensures var d := DeltaFold(b, events).value;
      && d == b.(headEventId := d.headEventId, dirtyRanges := d.dirtyRanges) && BranchOk(b.branchId, d)
      && RangeOf(d) == if RangeOf(b) != "" then RangeOf(b) else FirstIdOn(events, b.branchId)
    decreases |events|
  {
    if events != [] {
      var init, e := events[..|events| - 1], events[|events| - 1];
      assert events == init + [e];
      DeltaBranch(b, init);
      BranchOkIsValid(b.branchId, DeltaFold(b, init).value);
      DeltaSnoc(b, init, e);
    }
  }

  lemma {:induction false} SummaryBranch(events: seq<Event>, b: Branch, checkpoint: SummaryCheckpoint, k: nat)
    requires b.Valid() && checkpoint.Valid() && checkpoint.branchId == b.branchId
    requires k < |events| && IndexOfId(events, checkpoint.basisEventId) == k
    requires forall e | e in events[k + 1..] :: e.Valid()
    ensures FromSummaryAndEvents(b, checkpoint, events).Done?
    ensures var (d, first) := (FromSummaryAndEvents(b, checkpoint, events).value,
                               FirstIdOn(events[k + 1..], b.branchId));
      d == b.(baseSummaryId := checkpoint.summaryId, headEventId := d.headEventId,
              dirtyRanges := if first == "" then [] else [DirtyRange(first, d.headEventId)])
  {
    hide *;
    RebasedOk(b, checkpoint);
    FromSummaryUnfolds(b, checkpoint, events, k);
    var start := Rebased(b, checkpoint.summaryId, checkpoint.basisEventId);
    DeltaIgnoresOthers(start, events[k + 1..]);
    DeltaBranch(start, events[k + 1..]);
    StartedFrom(b, checkpoint, DeltaFold(start, events[k + 1..]).value);
  }

  lemma {:induction false} StartedFrom(b: Branch, checkpoint: SummaryCheckpoint, d: Branch)
    requires var start := Rebased(b, checkpoint.summaryId, checkpoint.basisEventId);
      d == start.(headEventId := d.headEventId, dirtyRanges := d.dirtyRanges) && BranchOk(b.branchId, d)
    ensures RangeOf(Rebased(b, checkpoint.summaryId, checkpoint.basisEventId)) == ""
    ensures d == b.(baseSummaryId := checkpoint.summaryId, headEventId := d.headEventId,
                    dirtyRanges := if RangeOf(d) == "" then [] else [DirtyRange(RangeOf(d), d.headEventId)])
  {
    if d.dirtyRanges != [] {
      assert d.dirtyRanges == [d.dirtyRanges[0]];
    }
  }

  /** Against full graph replay the summary route, which appends every later event of the branch,
      agrees exactly when full replay shows the branch's last event: it differs on a final checkpoint,
      which full replay skips, and on a final rebase, after which full replay goes back to the basis. */
  lemma {:induction false} SummaryAgreesIff(events: seq<Event>, s: SessionState, g: Branches,
                                            checkpoint: SummaryCheckpoint, b: string, k: nat)
    requires Session(events) == Done(s) && Replayed(events) == Done(g) && DistinctIds(events)
    requires checkpoint.Valid() && checkpoint.branchId == b
    requires k < |events| && events[k].id == checkpoint.basisEventId && events[k].branchId == b
    ensures b in g && b in s.branchHeads && LastOn(events, b).LastEvent?
    ensures FromSummaryAndEvents(g[b], checkpoint, events).Done?
    ensures FromSummaryAndEvents(g[b], checkpoint, events).value.headEventId == g[b].headEventId
      <==> ShowsLast(events, b)
  {
    hide ShowsLast;
    HeadsAgree(events, s, g, b);
    assert events[k] in events;
    HeadsAgreeIff(events, s, g, b);
    ReachableGraph(events, g);
    assert BranchOk(b, g[b]);
    SummaryHeadIff(events, s, g[b], checkpoint, k);
  }

  /** The two give the very same branch exactly when moreover the checkpoint's summary is the branch's
      last one and the dirty range of full replay starts with the first event after the basis. */
  lemma {:induction false} SummaryIsReplayIff(events: seq<Event>, s: SessionState, g: Branches,
                                              checkpoint: SummaryCheckpoint, b: string, k: nat)
    requires Session(events) == Done(s) && Replayed(events) == Done(g) && DistinctIds(events)
    requires checkpoint.Valid() && checkpoint.branchId == b
    requires k < |events| && events[k].id == checkpoint.basisEventId && events[k].branchId == b
    ensures b in g
    ensures FromSummaryAndEvents(g[b], checkpoint, events) == Done(g[b])
      <==> ShowsLast(events, b) && BaseOf(events, b) == checkpoint.summaryId
           && RangeStart(events, b) == FirstIdOn(events[k + 1..], b)
  {
    hide Session, SessionFold, ShowsLast, FromSummaryAndEvents, Event.Valid, SummaryCheckpoint.Valid, LastOn, BaseOf,
      RangeStart, FirstIdOn;
    SummaryAgreesIff(events, s, g, checkpoint, b, k);
    GraphBranch(events, g, b);
    ReachableGraph(events, g);
    assert BranchOk(b, g[b]);
    ReplaySucceedsIff(events);
    assert IndexOfId(events, checkpoint.basisEventId) == k;
    assert forall e | e in events[k + 1..] :: e in events;
    SummaryBranch(events, g[b], checkpoint, k);
  }

  // ----- Two logs on which the routes differ -----

  function Sample(id: string, kind: Kind, meta: Meta): Event {
    Event(id, "s", 1, kind, "main", "", [], meta, "")
  }

  const SAMPLE_BASIS := Sample("a", KindTurnUser, map[])
  const SAMPLE_CHECKPOINT := Sample("b", KindSummaryCheckpoint, map["summary_id" := Str("sum")])
  const SAMPLE_REBASE := Sample("b", KindSummaryRebuild, map["summary_id" := Str("sum"), "basis_event_id" := Str("a")])

  lemma {:induction false} PairLast(x: Event, y: Event)
    requires x.branchId == y.branchId == "main" && !IsCheckpoint(x)
    ensures LastOn([x, y], "main") == LastEvent(y)
    ensures LastAppended([x, y], "main") == LastEvent(if IsCheckpoint(y) then x else y)
  {
    assert [x, y][..1] == [x] && [x][..0] == [];
  }

  lemma {:induction false} SampleHead(y: Event)
    requires y == SAMPLE_CHECKPOINT || y == SAMPLE_REBASE
    ensures GraphHead([SAMPLE_BASIS, y], "main") == "a"
  {
    PairLast(SAMPLE_BASIS, y);
    hide LastAppended;
  }

  /** A turn and then a checkpoint, or a rebase onto that turn: full replay leaves the head at the
      turn, the other two routes move it to the last event. */
  lemma {:induction false} RoutesDiffer(y: Event, s: SessionState, g: Branches, checkpoint: SummaryCheckpoint)
    requires y == SAMPLE_CHECKPOINT || y == SAMPLE_REBASE
    requires Session([SAMPLE_BASIS, y]) == Done(s) && Replayed([SAMPLE_BASIS, y]) == Done(g)
    requires checkpoint.Valid() && checkpoint.branchId == "main" && checkpoint.basisEventId == "a"
    ensures "main" in g && g["main"].headEventId == "a"
    ensures "main" in s.branchHeads && s.branchHeads["main"] == "b"
    ensures FromSummaryAndEvents(g["main"], checkpoint, [SAMPLE_BASIS, y]).Done?
    ensures FromSummaryAndEvents(g["main"], checkpoint, [SAMPLE_BASIS, y]).value.headEventId == "b"
  {
    var events := [SAMPLE_BASIS, y];
    PairLast(SAMPLE_BASIS, y);
    SampleHead(y);
    hide Session, SessionFold, Replayed, GraphHead, LastOn, LastAppended, ShowsLast, FromSummaryAndEvents,
      SummaryCheckpoint.Valid;
    assert events[0].id == "a" && events[1].id == "b" && events[0].branchId == "main";
    HeadsAgree(events, s, g, "main");
    GraphMeaning(events, g, "main");
    SessionHeads("s", events, "main");
    SummaryAgreesIff(events, s, g, checkpoint, "main", 0);
    SummaryHeadIff(events, s, g["main"], checkpoint, 0);
  }

  // ----- The imperative rebuilds -----

  method RebuildBranchFromSummaryDelta(b: Branch, checkpoint: SummaryCheckpoint, deltaEvents: seq<Event>)
    returns (r: Outcome<Branch>)
    ensures r == FromSummaryDelta(b, checkpoint, deltaEvents)
  {
    if !b.Valid() {
      return Failed(InvalidBranchRecord);
    }
    if !checkpoint.Valid() {
      return Failed(InvalidCheckpoint);
    }
    if checkpoint.branchId != b.branchId {
      return Failed(CheckpointBranchMismatch);
    }
    var out := b;
    out := out.(baseSummaryId := checkpoint.summaryId);
    out := out.(headEventId := checkpoint.basisEventId);
    out := out.(dirtyRanges := []);
    ghost var start := out;
    for i := 0 to |deltaEvents|
      invariant DeltaFold(start, deltaEvents[..i]) == Done(out)
    {
      var e := deltaEvents[i];
      assert deltaEvents[..i + 1][..i] == deltaEvents[..i];
      if !e.Valid() {
        DeltaFailureSticks(start, deltaEvents, i + 1);
        return Failed(InvalidEvent);
      }
      if e.branchId != b.branchId {
        continue;
      }
      var next := Append(out, e.id);
      if next.Err? {
        DeltaFailureSticks(start, deltaEvents, i + 1);
        return Failed(GraphFailure(next.error));
      }
      out := next.value;
    }
    assert deltaEvents[..|deltaEvents|] == deltaEvents;
    r := Done(out);
  }

  method RebuildBranchFromSummaryAndEvents(b: Branch, checkpoint: SummaryCheckpoint, sessionEvents: seq<Event>)
    returns (r: Outcome<Branch>)
    ensures r == FromSummaryAndEvents(b, checkpoint, sessionEvents)
  {
    hide FromSummaryDelta, SummaryCheckpoint.Valid;
    if !checkpoint.Valid() {
      return Failed(InvalidCheckpoint);
    }
    var basisIdx := -1;
    for i := 0 to |sessionEvents|
      invariant basisIdx == -1
      invariant forall j | 0 <= j < i :: sessionEvents[j].id != checkpoint.basisEventId
    {
      if sessionEvents[i].id == checkpoint.basisEventId {
        basisIdx := i;
        break;
      }
    }
    if basisIdx == -1 {
      return Failed(BasisNotFound);
    }
    var tail := sessionEvents[basisIdx + 1..];
    var delta := [];
    for i := 0 to |tail|
      invariant delta == OnBranch(tail[..i], b.branchId)
    {
      assert tail[..i + 1][..i] == tail[..i];
      if tail[i].branchId == b.branchId {
        delta := delta + [tail[i]];
      }
    }
    assert tail[..|tail|] == tail;
    r := RebuildBranchFromSummaryDelta(b, checkpoint, delta);
  }

  lemma {:induction false} ReplayFailureSticks(events: seq<Event>, n: nat)
    requires n <= |events| && Replayed(events[..n]).Failed?
    ensures Replayed(events) == Replayed(events[..n])
    decreases |events|
  {
    if n == |events| {
      assert events[..n] == events;
    } else {
      var init := events[..|events| - 1];
      assert init[..n] == events[..n];
      ReplayFailureSticks(init, n);
    }
  }

  method EnsureBranchIn(graph: Graph, branchId: string) returns (r: Result<Stored>)
    requires graph.Valid()
    modifies graph
    ensures graph.Valid()
    ensures match EnsureBranch(old(graph.Model()), branchId)
            case Err(error) => r == Err(error)
            case Ok(g) => r.Ok? && graph.Model() == g
  {
    hide Create, Branch.Valid;
    r := graph.GetBranch(branchId);
    if r.Ok? {
      return;
    }
    var none := new DirtyRange[0];
    var branch := Stored(branchId, "", "", "", "", none, 0.0, "");
    assert View(branch) == NewBranch(branchId);
    r := graph.CreateBranch(branch);
  }

  method PrepareIn(graph: Graph, e: Event) returns (r: Outcome<()>)
    requires graph.Valid()
    modifies graph
    ensures graph.Valid()
    ensures match Prepare(old(graph.Model()), e)
            case Err(error) => r == Failed(GraphFailure(error))
            case Ok(g) => r.Done? && graph.Model() == g
  {
    if e.kind.KindBranchFork? {
      var parentBranchId := ForkParent(e);
      if parentBranchId != "" {
        var parent := EnsureBranchIn(graph, parentBranchId);
        if parent.Err? {
          return Failed(GraphFailure(parent.error));
        }
        var forked := graph.ForkBranch(e.branchId, parentBranchId, e.parentEventId);
        if forked.Err? && forked.error != BranchExists {
          return Failed(GraphFailure(forked.error));
        }
        return Done(());
      }
    }
    var own := EnsureBranchIn(graph, e.branchId);
    if own.Err? {
      return Failed(GraphFailure(own.error));
    }
    r := Done(());
  }

  method RecordIn(graph: Graph, e: Event) returns (r: Outcome<()>)
    requires graph.Valid()
    modifies graph
    ensures graph.Valid()
    ensures match Record(old(graph.Model()), e)
            case Err(error) => r == Failed(GraphFailure(error))
            case Ok(g) => r.Done? && graph.Model() == g
  {
    if e.kind.KindSummaryCheckpoint? {
      if SummaryId(e) != "" {
        var based := graph.SetBaseSummary(e.branchId, SummaryId(e));
        if based.Err? {
          return Failed(GraphFailure(based.error));
        }
      }
      return Done(());
    }
    var appended := graph.AppendEvent(e.branchId, e.id);
    if appended.Err? {
      return Failed(GraphFailure(appended.error));
    }
    if e.kind.KindSummaryRebuild? {
      if SummaryId(e) != "" {
        var rebased := graph.RebaseOnSummary(e.branchId, SummaryId(e), BasisId(e));
        if rebased.Err? {
          return Failed(GraphFailure(rebased.error));
        }
      }
    }
    r := Done(());
  }

  /** Copies every branch out of the graph, under its own id. */
  method ExportBranches(graph: Graph) returns (out: Branches)
    requires forall id | id in graph.branches :: graph.branches[id].branchId == id
    ensures out == graph.Model()
  {
    out := map[];
    var keys := graph.branches.Keys;
    while keys != {}
      invariant keys <= graph.branches.Keys
      invariant out == map id | id in graph.branches && id !in keys :: View(graph.branches[id])
    {
      var id :| id in keys;
      var b := graph.GetBranch(id);
      out := out[b.value.branchId := View(b.value)];
      keys := keys - {id};
    }
  }

  lemma {:induction false} ExportKeys(events: seq<Event>, g: Branches)
    requires Replayed(events) == Done(g)
    ensures forall id | id in g :: g[id].branchId == id
  {
    ReachableGraph(events, g);
    forall id | id in g
      ensures g[id].branchId == id
    {
      assert BranchOk(id, g[id]);
    }
  }

  method RebuildBranchStateFromEvents(events: seq<Event>) returns (r: Outcome<Branches>)
    ensures r == Replayed(events)
  {
    hide Prepare, Record, BranchOk, Event.Valid;
    var graph := new Graph();
    for i := 0 to |events|
      invariant fresh(graph) && graph.Valid()
      invariant Replayed(events[..i]) == Done(graph.Model())
    {
      var e := events[i];
      assert events[..i + 1][..i] == events[..i];
      ghost var before := graph.Model();
      if !e.Valid() {
        ReplayFailureSticks(events, i + 1);
        return Failed(InvalidEvent);
      }
      var prepared := PrepareIn(graph, e);
      if prepared.Failed? {
        ReplayFailureSticks(events, i + 1);
        return Failed(prepared.error);
      }
      var recorded := RecordIn(graph, e);
      if recorded.Failed? {
        ReplayFailureSticks(events, i + 1);
        return Failed(recorded.error);
      }
      assert Step(before, e) == Done(graph.Model());
    }
    assert events[..|events|] == events;
    ExportKeys(events, graph.Model());
    assert forall id | id in graph.branches ::
      id in graph.Model() && graph.branches[id].branchId == graph.Model()[id].branchId;
    var out := ExportBranches(graph);
    r := Done(out);
  }
}
