/** internal/runtime/session.go: the turn loop. The model, the tools, the audit tracker, the content
    search and the success of every write to the backend are arbitrary; other writers may append to
    the session's log between any two of its own steps. */
module Runtime {
  import GoText
  import opened Sorting
  import opened Canonical
  import opened EventLog
  import opened JsonSize
  import opened JsonText
  import A = Assembler
  import M = MemoryBackend
  import S = Selector

  // ----- Event ids and metadata -----

  function Padded(s: string): string
    decreases 6 - |s|
  {
    if |s| < 6 then Padded("0" + s) else s
  }

  function EventId(sessionId: string, n: nat, kind: string): (id: string)
    ensures id != ""
  {
    sessionId + "." + Padded(DecimalText(n)) + "." + kind
  }

  lemma {:induction false} PaddedDigits(s: string)
    requires forall c | c in s :: '0' <= c <= '9'
    ensures forall c | c in Padded(s) :: '0' <= c <= '9'
    ensures ReadDecimal(Padded(s)) == ReadDecimal(s)
    decreases 6 - |s|
  {
    if |s| < 6 {
      LeadingZero(s);
      PaddedDigits("0" + s);
    }
  }

  lemma {:induction false} LeadingZero(s: string)
    requires forall c | c in s :: '0' <= c <= '9'
    ensures (forall c | c in "0" + s :: '0' <= c <= '9') && ReadDecimal("0" + s) == ReadDecimal(s)
  {
    var longer := "0" + s;
    if s == "" {
      assert longer[..0] == "" && longer == "0";
    } else {
      var init := s[..|s| - 1];
      assert forall c | c in init :: c in s;
      LeadingZero(init);
      assert longer[..|longer| - 1] == "0" + init;
    }
  }

  lemma {:induction false} FirstDot(a: string, b: string, x: string, y: string)
    requires a + "." + x == b + "." + y && '.' !in a && '.' !in b
    ensures a == b
  {
    var (s, t) := (a + "." + x, b + "." + y);
    assert forall i | 0 <= i < |a| :: s[i] == a[i] && a[i] in a;
    assert forall i | 0 <= i < |b| :: t[i] == b[i] && b[i] in b;
    assert s[|a|] == '.' && t[|b|] == '.';
    assert a == s[..|a|] && b == t[..|b|];
  }

  /** Ids are told apart by their numbers, whatever they are for, so a session never uses one twice. */
  lemma {:induction false} EventIdsDiffer(sessionId: string, n: nat, m: nat, kind1: string, kind2: string)
    requires EventId(sessionId, n, kind1) == EventId(sessionId, m, kind2)
    ensures n == m
  {
    var (a, b) := (Padded(DecimalText(n)), Padded(DecimalText(m)));
    DecimalReadsBack(n);
    DecimalReadsBack(m);
    PaddedDigits(DecimalText(n));
    PaddedDigits(DecimalText(m));
    hide Padded, DecimalText, ReadDecimal;
    var (s, t) := (EventId(sessionId, n, kind1), EventId(sessionId, m, kind2));
    assert s == sessionId + "." + (a + "." + kind1) && t == sessionId + "." + (b + "." + kind2);
    assert s[|sessionId| + 1..] == a + "." + kind1 && t[|sessionId| + 1..] == b + "." + kind2;
    FirstDot(a, b, kind1, kind2);
  }

  function StatusName(s: A.ContextStatus): string {
    match s
    case Omitted => "omitted"
    case Included => "included"
    case DroppedBudget => "dropped_budget"
  }

  function PacketMeta(p: A.Packet): Meta {
    map["compact_stage" := Str(DecimalText(p.stage)),
        "envelope_bytes" := Str(DecimalText(p.measurement.envelopeBytes)),
        "external_context_status" := Str(StatusName(p.externalContextStatus)),
        "external_context_bytes" := Str(DecimalText(p.externalContextBytes))]
  }

  // ----- Candidates -----

  predicate OfKind(e: Event, branchId: string, kind: Kind) {
    e.branchId == branchId && e.kind == kind
  }

  /** The id of the last event of a kind on a branch. */
  function LastId(events: seq<Event>, branchId: string, kind: Kind): string {
    if events == [] then ""
    else if OfKind(events[|events| - 1], branchId, kind) then events[|events| - 1].id
    else LastId(events[..|events| - 1], branchId, kind)
  }

  /** The backward scan; it stops early once it has found all three. */
  method LatestIds(events: seq<Event>, branchId: string) returns (user: string, tool: string, checkpoint: string)
    requires forall e | e in events :: e.id != ""
    ensures user == LastId(events, branchId, KindTurnUser)
    ensures tool == LastId(events, branchId, KindToolResult)
    ensures checkpoint == LastId(events, branchId, KindSummaryCheckpoint)
  {
    user, tool, checkpoint := "", "", "";
    var i := |events|;
    assert events[..i] == events;
    while i > 0
      invariant 0 <= i <= |events|
      invariant LastId(events, branchId, KindTurnUser) == if user != "" then user
        else LastId(events[..i], branchId, KindTurnUser)
      invariant LastId(events, branchId, KindToolResult) == if tool != "" then tool
        else LastId(events[..i], branchId, KindToolResult)
      invariant LastId(events, branchId, KindSummaryCheckpoint)
        == if checkpoint != "" then checkpoint else LastId(events[..i], branchId, KindSummaryCheckpoint)
    {
      i := i - 1;
      var e := events[i];
      assert e in events && events[..i + 1][..i] == events[..i];
      if e.branchId == branchId {
        if user == "" && e.kind.KindTurnUser? {
          user := e.id;
        }
        if tool == "" && e.kind.KindToolResult? {
          tool := e.id;
        }
        if checkpoint == "" && e.kind.KindSummaryCheckpoint? {
          checkpoint := e.id;
        }
        if user != "" && tool != "" && checkpoint != "" {
          break;
        }
      }
    }
  }

  /** Only turns and tool results carry text. */
  function CandidateText(e: Event): string {
    match e.kind
    case KindTurnUser => ReadMetaString(e.meta, "text")
    case KindTurnAgent => ReadMetaString(e.meta, "text")
    case KindToolResult => ReadMetaString(e.meta, "summary")
    case _ => ""
  }

  function CandidateSummary(e: Event): string {
    match e.kind
    case KindToolResult => ToolSummary(ReadMetaString(e.meta, "call_id"))
    case KindSummaryCheckpoint => (var s := ReadMetaString(e.meta, "summary_id"); if s != ""
                                   then "summary://checkpoint/" + s else "")
    case _ => ""
  }

  /** `relevant` are the ids that the content search returned. */
  function CandidateOf(e: Event, ordinal: int, branchId: string, user: string, tool: string, checkpoint: string,
                       relevant: set<string>): S.Candidate
  {
    var active := e.branchId == branchId;
    S.Candidate(e.id, e.kind.Name(), CandidateText(e), CandidateSummary(e), e.blobRef, ordinal, active,
      ReadMetaString(e.meta, "global_relevant") == "true" || e.id in relevant,
      active && e.id == user, active && e.id == tool, active && e.kind.KindSummaryCheckpoint?,
      active && e.id == checkpoint, e.kind.KindToolRequest? || e.kind.KindToolFailure?)
  }

  /** What a packet is composed from: the active branch, the three last ids found on it, and the ids
      that the content search returned. */
  datatype View = View(branchId: string, user: string, tool: string, checkpoint: string, relevant: set<string>)

  ghost predicate IsView(events: seq<Event>, v: View) {
    && v.user == LastId(events, v.branchId, KindTurnUser)
    && v.tool == LastId(events, v.branchId, KindToolResult)
    && v.checkpoint == LastId(events, v.branchId, KindSummaryCheckpoint)
  }

  function CandidateAt(events: seq<Event>, i: nat, v: View): S.Candidate
    requires i < |events|
  {
    CandidateOf(events[i], i, v.branchId, v.user, v.tool, v.checkpoint, v.relevant)
  }

  function SelectedAt(fold: S.Fold, events: seq<Event>, i: nat, v: View): S.Selected
    requires i < |events|
  {
    S.SelectOne(fold, CandidateAt(events, i, v), |events| - 1)
  }

  function WorkingOf(s: S.Selected): A.WorkingItem {
    A.WorkingItem(s.id, s.kind, s.text, s.summaryRef, s.blobRef, s.frontierOrdinal, "", false)
  }

  /** The working set holds exactly the included items. */
  ghost predicate IsWorkingSet(fold: S.Fold, events: seq<Event>, v: View, working: seq<A.WorkingItem>) {
    && (forall w | w in working :: exists i: nat | i < |events| ::
          SelectedAt(fold, events, i, v).include_ && w == WorkingOf(SelectedAt(fold, events, i, v)))
    && (forall i: nat | i < |events| && SelectedAt(fold, events, i, v).include_ ::
          WorkingOf(SelectedAt(fold, events, i, v)) in working)
  }

  // ----- What a model call must satisfy -----

  /** What a session is started with, as far as packets depend on it. `fold` and `upper` stand for
      strings.ToLower and ToUpper, `escape` for what encoding/json makes of the characters of a string. */
  datatype Config = Config(
    sessionId: string,
    headers: seq<A.Header>,
    fold: S.Fold,
    escape: Escaping,
    upper: string -> string)
  {
    function Esc(): Escape {
      Lengths(escape)
    }

    ghost predicate Valid() {
      && sessionId != "" && upper("POST") == "POST"
      && forall kind | kind in {"turn.user", "turn.agent", "tool.result", "summary.checkpoint"} :: fold(kind) == kind
    }
  }

  /** All events valid, no id twice. */
  ghost predicate LogOk(log: seq<Event>) {
    && (forall e | e in log :: e.Valid())
    && (forall i, j | 0 <= i < j < |log| :: log[i].id != log[j].id)
  }

  /** What an item may carry of an event: its blob; a reference to the summary of a tool call or a
      checkpoint, made of the id in the event; and the beginning of a turn's text or a tool result's
      summary. */
  ghost predicate CarriesOnly(e: Event, item: A.WorkingItem) {
    && item.blobRef == e.blobRef && item.provenance == ""
    && (item.summaryRef != "" ==>
          || (e.kind.KindToolResult? && item.summaryRef == "summary://tool/" + ReadMetaString(e.meta, "call_id"))
          || (e.kind.KindSummaryCheckpoint?
              && item.summaryRef == "summary://checkpoint/" + ReadMetaString(e.meta, "summary_id")))
    && (item.text != "" ==>
          || ((e.kind.KindTurnUser? || e.kind.KindTurnAgent?) && item.text <= ReadMetaString(e.meta, "text"))
          || (e.kind.KindToolResult? && item.text <= ReadMetaString(e.meta, "summary")))
  }

  lemma CandidateCarries(e: Event, item: A.WorkingItem)
    requires item.blobRef == e.blobRef && item.provenance == ""
    requires item.summaryRef == CandidateSummary(e) && item.text <= CandidateText(e)
    ensures CarriesOnly(e, item)
  {
  }

  /** The item refers to an event of a kind that may leave the spine and carries that event's own
      references; whatever text it has is the beginning of that event's own text, and the event is on
      the packet's branch. */
  ghost predicate MayLeave(fold: S.Fold, log: seq<Event>, branchId: string, item: A.WorkingItem) {
    exists e | e in log ::
      && e.id == item.id && e.kind.Name() == item.kind && !S.IsNeverEgressKind(fold, item.kind)
      && CarriesOnly(e, item) && (item.text != "" ==> e.branchId == branchId)
  }

  ghost predicate IsUserItem(user: Event, item: A.WorkingItem) {
    item.id == user.id && item.text == ReadMetaString(user.meta, "text")
  }

  ghost predicate IsLatestUser(log: seq<Event>, branchId: string, k: nat) {
    k < |log| && OfKind(log[k], branchId, KindTurnUser) && forall j | k < j < |log| ::
      !OfKind(log[j], branchId, KindTurnUser)
  }

  /** When a user turn keeps its text on the way to the model: it is short, or it has no blob and is
      the branch's last user turn or at most eight events from the end of the log. */
  ghost predicate KeepsText(log: seq<Event>, branchId: string, k: nat)
    requires k < |log|
  {
    || |ReadMetaString(log[k].meta, "text")| <= 1024
    || (log[k].blobRef == "" && (IsLatestUser(log, branchId, k) || |log| - 1 - k <= 8))
  }

  /** Up to stage 4 a user turn of the branch is in the packet with its whole text exactly when it keeps it. */
  ghost predicate UserTextsOk(log: seq<Event>, branchId: string, p: A.Packet) {
    p.stage <= 4 ==>
      forall k: nat | k < |log| && OfKind(log[k], branchId, KindTurnUser) ::
        (exists item | item in p.body.workingSet.All() :: IsUserItem(log[k], item)) <==> KeepsText(log, branchId, k)
  }

  /** The first so many bytes. */
  function FirstBytes(s: string, n: nat): string {
    if |s| <= n then s else s[..n]
  }

  /** No other event of the kind follows it on its branch. */
  ghost predicate IsLatest(log: seq<Event>, branchId: string, kind: Kind, k: nat) {
    k < |log| && OfKind(log[k], branchId, kind) && forall j | k < j < |log| :: !OfKind(log[j], branchId, kind)
  }

  /** Up to stage 4 an agent turn of the branch is in the packet with its whole text exactly when it is
      short, or has no blob and is at most eight events from the end of the log. */
  ghost predicate AgentTextsOk(log: seq<Event>, branchId: string, p: A.Packet) {
    p.stage <= 4 ==>
      forall k: nat | k < |log| && OfKind(log[k], branchId, KindTurnAgent) ::
        (exists item | item in p.body.workingSet.All() :: IsUserItem(log[k], item)) <==>
        |ReadMetaString(log[k].meta, "text")| <= 1024 || (log[k].blobRef == "" && |log| - 1 - k <= 8)
  }

  function ToolSummary(callId: string): (ref: string)
    ensures ref == "" <==> callId == ""
  {
    if callId != "" then "summary://tool/" + callId else ""
  }

  /** What a packet says of a tool result: its summary reference, if it names its call; otherwise the
      first 256 bytes of its summary, unless it is the latest one or large and more than eight events
      old. */
  ghost predicate IsToolItem(log: seq<Event>, branchId: string, k: nat, item: A.WorkingItem)
    requires k < |log|
  {
    var summary := ReadMetaString(log[k].meta, "summary");
    && item.id == log[k].id && item.kind == "tool.result" && item.blobRef == log[k].blobRef
    && item.summaryRef == ToolSummary(ReadMetaString(log[k].meta, "call_id"))
    && item.text == (
         if ReadMetaString(log[k].meta, "call_id") != "" || IsLatest(log, branchId, KindToolResult, k)
           || (|summary| > 1024 && |log| - 1 - k > 8)
           then ""
         else FirstBytes(summary, 256))
  }

  /** Up to stage 4 every tool result of the branch is in the packet. */
  ghost predicate ToolResultsOk(log: seq<Event>, branchId: string, p: A.Packet) {
    p.stage <= 4 ==>
      forall k: nat | k < |log| && OfKind(log[k], branchId, KindToolResult) ::
        exists item | item in p.body.workingSet.All() :: IsToolItem(log, branchId, k, item)
  }

  ghost predicate IsCheckpointItem(e: Event, item: A.WorkingItem) {
    var summaryId := ReadMetaString(e.meta, "summary_id");
    && item.id == e.id && item.kind == "summary.checkpoint" && item.blobRef == e.blobRef && item.text == ""
    && item.summaryRef == if summaryId == "" then "" else "summary://checkpoint/" + summaryId
  }

  /** Up to stage 4 every checkpoint of the branch is in the packet, by the reference to its summary. */
  ghost predicate CheckpointsOk(log: seq<Event>, branchId: string, p: A.Packet) {
    p.stage <= 4 ==>
      forall k: nat | k < |log| && OfKind(log[k], branchId, KindSummaryCheckpoint) ::
        exists item | item in p.body.workingSet.All() :: IsCheckpointItem(log[k], item)
  }

  /** Of another branch, marked as globally relevant, with a blob to refer to, and no spine-only kind. */
  ghost predicate IsGlobal(fold: S.Fold, e: Event, branchId: string) {
    && e.branchId != branchId && ReadMetaString(e.meta, "global_relevant") == "true" && e.blobRef != ""
    && !S.IsNeverEgressKind(fold, e.kind.Name())
  }

  ghost predicate RefersTo(e: Event, item: A.WorkingItem) {
    item.id == e.id && item.kind == e.kind.Name() && item.blobRef == e.blobRef && item.text == ""
  }

  /** Events of other branches go out by reference to their blob, and up to stage 4 all those do that
      are marked as globally relevant. */
  ghost predicate ForeignOk(fold: S.Fold, log: seq<Event>, branchId: string, p: A.Packet) {
    && (forall k: nat, item |
          k < |log| && item in p.body.workingSet.All() && item.id == log[k].id && log[k].branchId != branchId ::
          RefersTo(log[k], item) && item.blobRef != "")
    && (p.stage <= 4 ==>
          forall k: nat | k < |log| && IsGlobal(fold, log[k], branchId) ::
            exists item | item in p.body.workingSet.All() :: RefersTo(log[k], item))
  }

  /** Tool requests and failures of the branch stay behind. */
  ghost predicate SensitiveStays(log: seq<Event>, branchId: string, p: A.Packet) {
    forall k: nat, item | k < |log| && item in p.body.workingSet.All() && item.id == log[k].id ::
      !OfKind(log[k], branchId, KindToolRequest) && !OfKind(log[k], branchId, KindToolFailure)
  }

  /** Request line, headers and JSON body, as they go out, have at most 13568 bytes; the measurement
      says how many. */
  ghost predicate WithinBudget(cfg: Config, p: A.Packet) {
    var m := p.measurement;
    && m.requestLineBytes == |REQUEST_LINE| && m.headerBytes == |A.HeaderText(cfg.headers)|
    && m.bodyBytes == |A.BodyText(cfg.escape, p.body)|
    && m.envelopeBytes == |REQUEST_LINE + A.HeaderText(cfg.headers) + A.BodyText(cfg.escape, p.body)| <= 13568
  }

  const REQUEST_LINE := "POST /v1/responses HTTP/1.1\r\n"

  /** Besides the working set the body holds the session, the branch, the stage and, uncompacted only,
      the external context that the caller gave, trimmed; nothing else. */
  ghost predicate BodyOk(cfg: Config, branchId: string, externalContext: string, p: A.Packet) {
    && p.body.sessionId == cfg.sessionId && p.body.branchHandle == branchId && p.body.compactStage == p.stage
    && p.body.frontier == [] && p.body.constraints == [] && p.body.debug == [] && p.body.provenance == []
    && p.body.checkpointSummaryRef == ""
    && (p.body.externalContext == ""
        || (p.body.externalContext == GoText.TrimSpace(externalContext) && p.stage == 0))
    && p.externalContextBytes == |GoText.TrimSpace(externalContext)|
    && (p.externalContextStatus == A.Omitted <==> GoText.TrimSpace(externalContext) == "")
    && (p.externalContextStatus == A.Included <==> p.body.externalContext != "")
  }

  /** `log` is the log as it was read. */
  ghost predicate PacketOk(cfg: Config, log: seq<Event>, branchId: string, externalContext: string, p: A.Packet) {
    && WithinBudget(cfg, p) && BodyOk(cfg, branchId, externalContext, p)
    && (forall item | item in p.body.workingSet.All() :: MayLeave(cfg.fold, log, branchId, item))
    && UserTextsOk(log, branchId, p) && AgentTextsOk(log, branchId, p)
    && ToolResultsOk(log, branchId, p) && SensitiveStays(log, branchId, p)
    && CheckpointsOk(log, branchId, p) && ForeignOk(cfg.fold, log, branchId, p)
  }

  /** No kind that begins like this goes out, as the selector folds and trims kinds. */
  lemma {:induction false} SpineKindsNeverLeave(cfg: Config, log: seq<Event>, branchId: string, externalContext: string,
                                                p: A.Packet, item: A.WorkingItem)
    requires PacketOk(cfg, log, branchId, externalContext, p) && item in p.body.workingSet.All()
    ensures var k := GoText.TrimSpace(cfg.fold(item.kind));
      && !("branch.fork" <= k) && !("consult." <= k) && !("summary.rebuild" <= k) && !("replay." <= k)
      && !("recovery." <= k) && !("context.compact" <= k) && !("dream." <= k) && !("audit." <= k)
  {
    assert MayLeave(cfg.fold, log, branchId, item);
    S.NeverEgressKinds(cfg.fold, item.kind);
    hide S.IsNeverEgressKind, GoText.TrimSpace, CarriesOnly;
  }

  /** A packet handed to the model and what came of it, with the log positions of the user turn it is
      for and of its candidate and sent events, and the lengths of the log when it was read and at the
      call. */
  datatype ModelCall = ModelCall(
    branchId: string,
    externalContext: string,
    packet: A.Packet,
    outcome: ModelOutcome,
    userAt: nat,
    readAt: nat,
    candidateAt: nat,
    sentAt: nat,
    at: nat)

  ghost predicate IsPacketEvent(e: Event, kind: Kind, branchId: string, p: A.Packet) {
    && e.kind == kind && e.branchId == branchId
    && ReadMetaString(e.meta, "compact_stage") == DecimalText(p.stage)
    && ReadMetaString(e.meta, "envelope_bytes") == DecimalText(p.measurement.envelopeBytes)
    && ReadMetaString(e.meta, "external_context_bytes") == DecimalText(p.externalContextBytes)
    && ReadMetaString(e.meta, "external_context_status")
       == if p.externalContextStatus == A.Included then "included"
          else if p.externalContextStatus == A.DroppedBudget then "dropped_budget" else "omitted"
  }

  /** A user turn as a session writes it. */
  ghost predicate IsTurn(log: seq<Event>, branchId: string, k: nat) {
    k < |log| && OfKind(log[k], branchId, KindTurnUser) && log[k].blobRef == ""
  }

  /** Positions of events, in log order. */
  ghost predicate OwnOk(log: seq<Event>, own: seq<nat>) {
    (forall i | 0 <= i < |own| :: own[i] < |log|) && (forall i, j | 0 <= i < j < |own| :: own[i] < own[j])
  }

  lemma OwnStaysOk(log: seq<Event>, longer: seq<Event>, own: seq<nat>)
    requires OwnOk(log, own) && log <= longer
    ensures OwnOk(longer, own)
  {
  }

  lemma {:induction false} OwnGrows(log: seq<Event>, e: Event, own: seq<nat>)
    requires OwnOk(log, own)
    ensures OwnOk(log + [e], own + [|log|])
  {
  }

  /** `own` are the log positions of the session's own events. */
  ghost predicate CallOk(cfg: Config, log: seq<Event>, own: seq<nat>, c: ModelCall) {
    && c.userAt < c.readAt <= c.candidateAt < c.sentAt < c.at <= |log|
    && c.userAt in own && c.candidateAt in own && c.sentAt in own
    && IsTurn(log, c.branchId, c.userAt)
    && IsPacketEvent(log[c.candidateAt], KindPacketCandidate, c.branchId, c.packet)
    && IsPacketEvent(log[c.sentAt], KindPacketSent, c.branchId, c.packet)
    && PacketOk(cfg, log[..c.readAt], c.branchId, c.externalContext, c.packet)
  }

  /** Each call is fit to be made, and reads the log only after the call before it. */
  ghost predicate CallsOk(cfg: Config, log: seq<Event>, own: seq<nat>, calls: seq<ModelCall>) {
    && (forall c | c in calls :: CallOk(cfg, log, own, c))
    && (forall i, j | 0 <= i < j < |calls| :: calls[i].at <= calls[j].readAt)
  }

  lemma {:induction false} CallStaysOk(cfg: Config, log: seq<Event>, longer: seq<Event>, own: seq<nat>,
                                       more: seq<nat>, c: ModelCall)
    requires CallOk(cfg, log, own, c) && log <= longer && own <= more
    ensures CallOk(cfg, longer, more, c)
  {
    assert longer[..c.readAt] == log[..c.readAt];
    hide PacketOk;
  }

  lemma {:induction false} CallsStayOk(cfg: Config, log: seq<Event>, longer: seq<Event>, own: seq<nat>, more: seq<nat>,
                                       calls: seq<ModelCall>)
    requires CallsOk(cfg, log, own, calls) && log <= longer && own <= more
    ensures CallsOk(cfg, longer, more, calls)
  {
    forall c | c in calls
      ensures CallOk(cfg, longer, more, c)
    {
      CallStaysOk(cfg, log, longer, own, more, c);
    }
  }

  lemma {:induction false} CallsAreEarlier(cfg: Config, log: seq<Event>, own: seq<nat>, calls: seq<ModelCall>, n: nat)
    requires CallsOk(cfg, log, own, calls) && |log| <= n
    ensures forall c | c in calls :: c.at <= n
  {
    hide PacketOk;
  }

  lemma {:induction false} CallIsOk(cfg: Config, start: seq<Event>, log: seq<Event>, own: seq<nat>, c: ModelCall)
    requires c.userAt < c.readAt <= c.candidateAt < |start| <= c.sentAt < c.at == |log| && start <= log
    requires c.userAt in own && c.candidateAt in own && own != [] && own[|own| - 1] == c.sentAt
    requires IsTurn(start, c.branchId, c.userAt)
    requires IsPacketEvent(start[c.candidateAt], KindPacketCandidate, c.branchId, c.packet)
    requires IsPacketEvent(log[c.sentAt], KindPacketSent, c.branchId, c.packet)
    requires PacketOk(cfg, start[..c.readAt], c.branchId, c.externalContext, c.packet)
    ensures CallOk(cfg, log, own, c)
  {
    hide PacketOk, IsPacketEvent;
    assert log[..c.readAt] == start[..c.readAt];
  }

  lemma {:induction false} OneMoreCall(cfg: Config, log: seq<Event>, own: seq<nat>, calls: seq<ModelCall>,
                                       c: ModelCall)
    requires CallsOk(cfg, log, own, calls) && CallOk(cfg, log, own, c) && forall d | d in calls :: d.at <= c.readAt
    ensures CallsOk(cfg, log, own, calls + [c])
  {
    hide CallOk;
  }

  /** No two calls share an event: the later one's candidate comes after the earlier one's sent event,
      and only after that call was made. */
  lemma {:induction false} CallsShareNoEvent(cfg: Config, log: seq<Event>, own: seq<nat>, calls: seq<ModelCall>,
                                             i: nat, j: nat)
    requires CallsOk(cfg, log, own, calls) && i < j < |calls|
    ensures calls[i].candidateAt < calls[i].sentAt < calls[i].at <= calls[j].readAt
    ensures calls[j].readAt <= calls[j].candidateAt < calls[j].sentAt
  {
    hide PacketOk;
    assert calls[i] in calls && calls[j] in calls;
  }

  /** Exactly when the text of the turn that a call is for is in the packet, whole, up to stage 4: other
      writers matter only if they push a long text more than eight events back and behind another
      user turn of the same branch. */
  lemma {:induction false} OwnTextIff(cfg: Config, log: seq<Event>, own: seq<nat>, c: ModelCall)
    requires CallOk(cfg, log, own, c) && c.packet.stage <= 4
    ensures var text := ReadMetaString(log[c.userAt].meta, "text");
      (exists item | item in c.packet.body.workingSet.All() :: IsUserItem(log[c.userAt], item)) <==>
      (|text| > 1024 && c.readAt - c.userAt > 9 ==>
         forall j | c.userAt < j < c.readAt :: !OfKind(log[j], c.branchId, KindTurnUser))
  {
    hide MayLeave, IsUserItem, WithinBudget, BodyOk, IsPacketEvent, AgentTextsOk, ToolResultsOk, SensitiveStays;
    var read := log[..c.readAt];
    assert read[c.userAt] == log[c.userAt];
    assert forall j | 0 <= j < c.readAt :: read[j] == log[j];
  }

  /** Two user turns of one branch, the first with 1025 bytes of text, and nine events after them. */
  function LongTurnLog(): seq<Event> {
    seq(11, i requires 0 <= i < 11 => LongTurnEvent(i))
  }

  function LongTurnEvent(i: nat): Event {
    Event(seq(i + 1, _ => 'e'), "s", 1, if i <= 1 then KindTurnUser else KindTurnAgent, "main", "", [],
          map["text" := Str(if i == 0 then seq(1025, _ => 'x') else "x")], "")
  }

  /** No packet that was composed from this log, up to stage 4, has the text of its first turn. */
  lemma {:induction false} LongTurnIsLost(cfg: Config, externalContext: string, p: A.Packet)
    requires PacketOk(cfg, LongTurnLog(), "main", externalContext, p) && p.stage <= 4
    ensures LogOk(LongTurnLog())
    ensures forall item | item in p.body.workingSet.All() :: !IsUserItem(LongTurnLog()[0], item)
  {
    hide MayLeave, IsUserItem, WithinBudget, BodyOk, AgentTextsOk, ToolResultsOk, SensitiveStays;
    var log := LongTurnLog();
    assert log[0] == LongTurnEvent(0) && log[1] == LongTurnEvent(1);
    assert !KeepsText(log, "main", 0);
    forall i, j | 0 <= i < j < |log|
      ensures log[i].id != log[j].id
    {
      assert |log[i].id| == i + 1 && |log[j].id| == j + 1;
    }
  }

  // ----- The packet of a branch -----

  lemma {:induction false} ContainedChars(s: string, part: string, c: char)
    requires S.Contains(s, part) && c in part
    ensures c in s
  {
    if !(part <= s) {
      ContainedChars(s[1..], part, c);
    }
  }

  predicate IsPlainKind(kind: string) {
    && kind != "" && kind[0] == 't' && 'a' <= kind[|kind| - 1] <= 'z'
    && 'd' !in kind && 'm' !in kind && 'c' !in kind
  }

  lemma PlainKinds()
    ensures IsPlainKind("turn.user") && IsPlainKind("turn.agent") && IsPlainKind("tool.result")
  {
  }

  /** Neither kind test hits a plain kind. */
  lemma {:induction false} PlainKindPasses(fold: S.Fold, kind: string)
    requires IsPlainKind(kind) && fold(kind) == kind
    ensures !S.IsNeverEgressKind(fold, kind) && !S.IsDebugNeverKind(fold, kind)
  {
    GoText.TrimNothing(kind);
    hide GoText.TrimSpace, S.Contains;
    if S.Contains(kind, "debug") {
      ContainedChars(kind, "debug", 'd');
    }
    if S.Contains(kind, "metrics") {
      ContainedChars(kind, "metrics", 'm');
    }
    if S.Contains(kind, "trace") {
      ContainedChars(kind, "trace", 'c');
    }
    S.NotPrefix(kind, "branch.fork");
    S.NotPrefix(kind, "consult.");
    S.NotPrefix(kind, "summary.rebuild");
    S.NotPrefix(kind, "replay.");
    S.NotPrefix(kind, "recovery.");
    S.NotPrefix(kind, "context.compact");
    S.NotPrefix(kind, "dream.");
    S.NotPrefix(kind, "audit.");
    S.NotPrefix(kind, "packet.");
    S.NotPrefix(kind, "response.");
  }

  /** strings.ToLower leaves these kinds alone, and neither kind test hits them. */
  lemma {:induction false} KindPasses(fold: S.Fold, kind: string)
    requires kind in {"turn.user", "turn.agent", "tool.result"} && fold(kind) == kind
    ensures !S.IsNeverEgressKind(fold, kind) && !S.IsDebugNeverKind(fold, kind)
  {
    PlainKinds();
    hide IsPlainKind, S.IsNeverEgressKind, S.IsDebugNeverKind;
    PlainKindPasses(fold, kind);
  }

  lemma {:induction false} LastIdFound(log: seq<Event>, branchId: string, kind: Kind) returns (k: nat)
    requires LastId(log, branchId, kind) != ""
    ensures k < |log| && OfKind(log[k], branchId, kind) && log[k].id == LastId(log, branchId, kind)
    ensures forall j | k < j < |log| :: !OfKind(log[j], branchId, kind)
  {
    k := |log| - 1;
    if !OfKind(log[k], branchId, kind) {
      k := LastIdFound(log[..k], branchId, kind);
    }
  }

  lemma {:induction false} LatestUserId(log: seq<Event>, branchId: string, k: nat)
    requires IsLatestUser(log, branchId, k)
    ensures LastId(log, branchId, KindTurnUser) == log[k].id
  {
    if k < |log| - 1 {
      LatestUserId(log[..|log| - 1], branchId, k);
    }
  }

  /** Of the three last ids a user turn can only be the user's. */
  lemma {:induction false} UserIsLatestIff(events: seq<Event>, v: View, k: nat)
    requires LogOk(events) && IsView(events, v) && k < |events| && OfKind(events[k], v.branchId, KindTurnUser)
    ensures events[k].id == v.user <==> IsLatestUser(events, v.branchId, k)
    ensures events[k].id != v.tool && events[k].id != v.checkpoint
  {
    assert events[k].Valid();
    hide LastId, Event.Valid;
    if IsLatestUser(events, v.branchId, k) {
      LatestUserId(events, v.branchId, k);
    }
    if events[k].id == v.user {
      var j := LastIdFound(events, v.branchId, KindTurnUser);
    }
    if events[k].id == v.tool {
      var j := LastIdFound(events, v.branchId, KindToolResult);
    }
    if events[k].id == v.checkpoint {
      var j := LastIdFound(events, v.branchId, KindSummaryCheckpoint);
    }
  }

  /** What selection makes of an event: the item refers to it, and carries its text only on the
      active branch. */
  lemma {:induction false} SelectedMayLeave(fold: S.Fold, events: seq<Event>, i: nat, v: View)
    requires i < |events| && SelectedAt(fold, events, i, v).include_
    ensures MayLeave(fold, events, v.branchId, WorkingOf(SelectedAt(fold, events, i, v)))
  {
    var c := CandidateAt(events, i, v);
    S.IncludedIff(fold, c, |events| - 1);
    if c.text != "" {
      S.TextKeptIff(fold, c, |events| - 1);
    }
    S.ClassMeans(fold, c, |events| - 1);
    hide S.IsNeverEgressKind, S.IsDebugNeverKind, S.SelectOne, CandidateText, CandidateSummary, CarriesOnly;
    assert events[i] in events;
    CandidateCarries(events[i], WorkingOf(SelectedAt(fold, events, i, v)));
  }

  /** Every user turn of the branch passes the selector without a summary; its text stays unless it
      is large, more than eight events old and not the last user turn. */
  lemma {:induction false} UserIsSelected(fold: S.Fold, events: seq<Event>, k: nat, v: View)
    requires fold("turn.user") == "turn.user" && LogOk(events) && IsView(events, v)
    requires k < |events| && OfKind(events[k], v.branchId, KindTurnUser)
    ensures var (s, text) := (SelectedAt(fold, events, k, v), ReadMetaString(events[k].meta, "text"));
      && s.include_ && s.id == events[k].id && s.kind == "turn.user" && s.blobRef == events[k].blobRef
        && s.summaryRef == ""
      && s.text == if |text| <= 1024 || IsLatestUser(events, v.branchId, k) || |events| - 1 - k <= 8 then text else ""
  {
    KindPasses(fold, "turn.user");
    UserIsLatestIff(events, v, k);
    hide S.IsNeverEgressKind, S.IsDebugNeverKind, S.SelectOne, LogOk, IsView, IsLatestUser, ReadMetaString, ToolSummary;
    S.ActiveSelected(fold, CandidateAt(events, k, v), |events| - 1);
  }

  lemma {:induction false} LatestId(log: seq<Event>, branchId: string, kind: Kind, k: nat)
    requires IsLatest(log, branchId, kind, k)
    ensures LastId(log, branchId, kind) == log[k].id
  {
    if k < |log| - 1 {
      LatestId(log[..|log| - 1], branchId, kind, k);
    }
  }

  /** An agent turn is none of the three last ids, a tool result can only be the last one of its kind. */
  lemma {:induction false} NotTheLatest(events: seq<Event>, v: View, k: nat)
    requires LogOk(events) && IsView(events, v) && k < |events| && events[k].branchId == v.branchId
    ensures events[k].kind.KindTurnAgent? || events[k].kind.KindToolResult? ==>
      events[k].id != v.user && events[k].id != v.checkpoint
    ensures events[k].kind.KindTurnAgent? ==> events[k].id != v.tool
    ensures events[k].kind.KindToolResult? ==>
      (events[k].id == v.tool <==> IsLatest(events, v.branchId, KindToolResult, k))
  {
    assert events[k].Valid();
    hide LastId, Event.Valid;
    if IsLatest(events, v.branchId, KindToolResult, k) {
      LatestId(events, v.branchId, KindToolResult, k);
    }
    if events[k].id == v.user {
      var j := LastIdFound(events, v.branchId, KindTurnUser);
    }
    if events[k].id == v.tool {
      var j := LastIdFound(events, v.branchId, KindToolResult);
    }
    if events[k].id == v.checkpoint {
      var j := LastIdFound(events, v.branchId, KindSummaryCheckpoint);
    }
  }

  /** What the selector makes of an agent turn. */
  lemma {:induction false} AgentIsSelected(fold: S.Fold, events: seq<Event>, k: nat, v: View)
    requires fold("turn.agent") == "turn.agent" && LogOk(events) && IsView(events, v)
    requires k < |events| && OfKind(events[k], v.branchId, KindTurnAgent)
    ensures var (s, text) := (SelectedAt(fold, events, k, v), ReadMetaString(events[k].meta, "text"));
      && s.include_ && s.id == events[k].id && s.kind == "turn.agent" && s.blobRef == events[k].blobRef
      && s.summaryRef == "" && s.text == if |text| <= 1024 || |events| - 1 - k <= 8 then text else ""
  {
    hide LogOk, IsView;
    KindPasses(fold, "turn.agent");
    NotTheLatest(events, v, k);
    hide S.IsNeverEgressKind, S.IsDebugNeverKind, S.SelectOne, IsLatest, ReadMetaString, ToolSummary;
    S.ActiveSelected(fold, CandidateAt(events, k, v), |events| - 1);
  }

  /** What the selector makes of a tool result. */
  lemma {:induction false} ToolResultIsSelected(fold: S.Fold, events: seq<Event>, k: nat, v: View)
    requires fold("tool.result") == "tool.result" && LogOk(events) && IsView(events, v)
    requires k < |events| && OfKind(events[k], v.branchId, KindToolResult)
    ensures var (s, e) := (SelectedAt(fold, events, k, v), events[k]);
      var summary := ReadMetaString(e.meta, "summary");
      && s.include_ && s.id == e.id && s.kind == "tool.result" && s.blobRef == e.blobRef
      && s.summaryRef == ToolSummary(ReadMetaString(e.meta, "call_id"))
      && s.text == (if IsLatest(events, v.branchId, KindToolResult, k) || (|summary| > 1024 && |events| - 1 - k > 8)
                    then ""
                    else summary)
  {
    KindPasses(fold, "tool.result");
    NotTheLatest(events, v, k);
    hide S.IsNeverEgressKind, S.IsDebugNeverKind, S.SelectOne, LogOk, IsView, IsLatest, ToolSummary, ReadMetaString;
    S.ActiveSelected(fold, CandidateAt(events, k, v), |events| - 1);
  }

  lemma {:induction false} ContainedPair(s: string, part: string) returns (i: nat)
    requires S.Contains(s, part) && |part| >= 2
    ensures i < |s| - 1 && s[i] == part[0] && s[i + 1] == part[1]
  {
    if part <= s {
      i := 0;
    } else {
      i := ContainedPair(s[1..], part);
      i := i + 1;
    }
  }

  lemma {:induction false} CheckpointIsNoMetric()
    ensures !S.Contains("summary.checkpoint", "debug") && !S.Contains("summary.checkpoint", "metrics")
    ensures !S.Contains("summary.checkpoint", "trace")
  {
    hide S.Contains;
    if S.Contains("summary.checkpoint", "debug") {
      var i := ContainedPair("summary.checkpoint", "debug");
    }
    if S.Contains("summary.checkpoint", "metrics") {
      var i := ContainedPair("summary.checkpoint", "metrics");
    }
    if S.Contains("summary.checkpoint", "trace") {
      var i := ContainedPair("summary.checkpoint", "trace");
    }
  }

  lemma {:induction false} NoPrefixAt(s: string, p: string, i: nat)
    requires i < |s| && i < |p| && s[i] != p[i]
    ensures !S.HasPrefix(s, p)
  {
  }

  /** Neither kind test hits a kind like that of checkpoints. */
  lemma {:induction false} SummaryKindPasses(fold: S.Fold, kind: string)
    requires |kind| > 8 && kind[0] == 's' && kind[8] == 'c' && '!' <= kind[|kind| - 1] <= '~' && fold(kind) == kind
    requires !S.Contains(kind, "debug") && !S.Contains(kind, "metrics") && !S.Contains(kind, "trace")
    ensures !S.IsNeverEgressKind(fold, kind) && !S.IsDebugNeverKind(fold, kind)
  {
    GoText.TrimNothing(kind);
    hide GoText.TrimSpace, S.Contains;
    S.NotPrefix(kind, "branch.fork");
    S.NotPrefix(kind, "consult.");
    NoPrefixAt(kind, "summary.rebuild", 8);
    S.NotPrefix(kind, "replay.");
    S.NotPrefix(kind, "recovery.");
    S.NotPrefix(kind, "context.compact");
    S.NotPrefix(kind, "dream.");
    S.NotPrefix(kind, "audit.");
    S.NotPrefix(kind, "packet.");
    S.NotPrefix(kind, "response.");
  }

  ghost predicate FixesCheckpoint(fold: S.Fold) {
    fold("summary.checkpoint") == "summary.checkpoint"
  }

  lemma ConfigFixesCheckpoint(cfg: Config)
    requires cfg.Valid()
    ensures FixesCheckpoint(cfg.fold)
  {
  }

  lemma {:induction false} CheckpointKindPasses(fold: S.Fold)
    requires FixesCheckpoint(fold)
    ensures !S.IsNeverEgressKind(fold, "summary.checkpoint") && !S.IsDebugNeverKind(fold, "summary.checkpoint")
  {
    CheckpointIsNoMetric();
    hide S.IsNeverEgressKind, S.IsDebugNeverKind, S.Contains;
    SummaryKindPasses(fold, "summary.checkpoint");
  }

  /** What the selector makes of a checkpoint. */
  lemma {:induction false} CheckpointIsSelected(fold: S.Fold, events: seq<Event>, k: nat, v: View)
    requires FixesCheckpoint(fold) && k < |events|
    requires OfKind(events[k], v.branchId, KindSummaryCheckpoint)
    ensures var s := SelectedAt(fold, events, k, v); s.include_ && IsCheckpointItem(events[k], WorkingOf(s))
  {
    CheckpointKindPasses(fold);
    hide S.IsNeverEgressKind, S.IsDebugNeverKind, S.SelectOne, FixesCheckpoint, ReadMetaString;
    S.ActiveSelected(fold, CandidateAt(events, k, v), |events| - 1);
  }

  /** Which events of other branches the selector lets through, and how. */
  lemma {:induction false} ForeignIsSelectedIff(fold: S.Fold, events: seq<Event>, k: nat, v: View)
    requires k < |events| && events[k].branchId != v.branchId
    ensures var (s, e) := (SelectedAt(fold, events, k, v), events[k]);
      && (s.include_ <==>
            && (ReadMetaString(e.meta, "global_relevant") == "true" || e.id in v.relevant)
            && e.blobRef != "" && !S.IsNeverEgressKind(fold, e.kind.Name()))
      && (s.include_ ==> RefersTo(e, WorkingOf(s)))
  {
    hide S.IsNeverEgressKind, S.IsDebugNeverKind;
  }

  /** Tool requests and failures of the branch are not selected. */
  lemma {:induction false} SensitiveIsNotSelected(fold: S.Fold, events: seq<Event>, k: nat, v: View)
    requires k < |events|
    requires OfKind(events[k], v.branchId, KindToolRequest) || OfKind(events[k], v.branchId, KindToolFailure)
    ensures !SelectedAt(fold, events, k, v).include_
  {
    hide S.IsNeverEgressKind, S.IsDebugNeverKind;
  }

  lemma {:induction false} PrefixMayLeave(fold: S.Fold, log: seq<Event>, branchId: string, i: A.WorkingItem,
                                          s: A.WorkingItem)
    requires MayLeave(fold, log, branchId, i) && A.SameItem(i, s) && s.text <= i.text && s.provenance == ""
    ensures MayLeave(fold, log, branchId, s)
  {
    hide S.IsNeverEgressKind, ReadMetaString;
    var e :| e in log && e.id == i.id && e.kind.Name() == i.kind && CarriesOnly(e, i)
             && (i.text != "" ==> e.branchId == branchId);
    assert CarriesOnly(e, s);
  }

  /** Every item of the packet is what is left of one selected event. */
  lemma {:induction false} PacketItemFrom(fold: S.Fold, events: seq<Event>, v: View, esc: Escape,
                                          upper: string -> string, req: A.Request, n: A.Request, r: A.Outcome,
                                          s: A.WorkingItem)
    returns (i: nat)
    requires A.IsNormalized(upper, req, n) && A.Assembled(esc, n, r) && r.Fitting?
      && req.body.checkpointSummaryRef == ""
    requires IsWorkingSet(fold, events, v, req.body.workingSet.All()) && s in r.packet.body.workingSet.All()
    ensures i < |events| && SelectedAt(fold, events, i, v).include_
    ensures var w := WorkingOf(SelectedAt(fold, events, i, v));
      && A.SameItem(w, s) && s.provenance == "" && s.text <= w.text && (s.text == A.NormItem(w).text || s.text == "")
  {
    hide A.IsNormalized, A.Assembled, SelectedAt, A.NormItem;
    var w := A.PacketItemsStem(esc, upper, req, n, r, s);
    i :| i < |events| && SelectedAt(fold, events, i, v).include_ && w == WorkingOf(SelectedAt(fold, events, i, v));
  }

  lemma {:induction false} SelectedKeepsId(fold: S.Fold, events: seq<Event>, i: nat, v: View)
    requires i < |events|
    ensures SelectedAt(fold, events, i, v).id == events[i].id
  {
    S.ClassMeans(fold, CandidateAt(events, i, v), |events| - 1);
    hide S.SelectOne;
  }

  lemma UserNorm(w: A.WorkingItem)
    requires w.kind == "turn.user"
    ensures A.NormItem(w).text == if w.blobRef != "" && |w.text| > 1024 then "" else w.text
  {
  }

  /** The item of a user turn of the branch is sent with its text exactly when it keeps it. */
  lemma {:induction false} UserSentIff(fold: S.Fold, events: seq<Event>, v: View, esc: Escape, upper: string -> string,
                                       req: A.Request, n: A.Request, r: A.Outcome, k: nat)
    requires fold("turn.user") == "turn.user" && LogOk(events) && IsView(events, v)
    requires A.IsNormalized(upper, req, n) && A.Assembled(esc, n, r) && r.Fitting? && r.packet.stage <= 4
    requires req.body.checkpointSummaryRef == "" && IsWorkingSet(fold, events, v, req.body.workingSet.All())
    requires k < |events| && OfKind(events[k], v.branchId, KindTurnUser)
    ensures (exists item | item in r.packet.body.workingSet.All() :: IsUserItem(events[k], item))
      <==> KeepsText(events, v.branchId, k)
  {
    UserIsSelected(fold, events, k, v);
    NormalUser(fold, events, k, v);
    hide A.IsNormalized, A.Assembled, SelectedAt, A.NormItem, IsView, IsLatestUser, KeepsText;
    var w := WorkingOf(SelectedAt(fold, events, k, v));
    if KeepsText(events, v.branchId, k) {
      var s := A.ItemIsSent(esc, upper, req, n, r, w);
      assert IsUserItem(events[k], s);
    }
    if item :| item in r.packet.body.workingSet.All() && IsUserItem(events[k], item) {
      var i := PacketItemFrom(fold, events, v, esc, upper, req, n, r, item);
      SelectedKeepsId(fold, events, i, v);
      assert i == k;
    }
  }

  /** Selection and normalising together leave the whole text exactly when the turn keeps it, and
      otherwise nothing. */
  lemma {:induction false} NormalUser(fold: S.Fold, events: seq<Event>, k: nat, v: View)
    requires fold("turn.user") == "turn.user" && LogOk(events) && IsView(events, v)
    requires k < |events| && OfKind(events[k], v.branchId, KindTurnUser)
    ensures var (w, text) := (WorkingOf(SelectedAt(fold, events, k, v)), ReadMetaString(events[k].meta, "text"));
      && A.NormItem(w).text == (if KeepsText(events, v.branchId, k) then text else "")
      && (text == "" ==> KeepsText(events, v.branchId, k))
  {
    UserIsSelected(fold, events, k, v);
    hide SelectedAt, A.NormItem, IsView, IsLatestUser, LogOk;
    UserNorm(WorkingOf(SelectedAt(fold, events, k, v)));
  }

  lemma AgentNorm(w: A.WorkingItem)
    requires w.kind == "turn.agent"
    ensures A.NormItem(w).text == if w.blobRef != "" && |w.text| > 1024 then "" else w.text
  {
  }

  lemma ToolNorm(w: A.WorkingItem)
    requires w.kind == "tool.result"
    ensures A.NormItem(w).text == if w.summaryRef != "" then "" else FirstBytes(w.text, 256)
  {
  }

  lemma {:induction false} AgentSentIff(cfg: Config, events: seq<Event>, v: View, req: A.Request, n: A.Request,
                                        r: A.Outcome, k: nat)
    requires cfg.Valid() && LogOk(events) && IsView(events, v) && req.body.checkpointSummaryRef == ""
    requires A.IsNormalized(cfg.upper, req, n) && A.Assembled(cfg.Esc(), n, r) && r.Fitting? && r.packet.stage <= 4
    requires IsWorkingSet(cfg.fold, events, v, req.body.workingSet.All())
    requires k < |events| && OfKind(events[k], v.branchId, KindTurnAgent)
    ensures (exists item | item in r.packet.body.workingSet.All() :: IsUserItem(events[k], item)) <==>
      |ReadMetaString(events[k].meta, "text")| <= 1024 || (events[k].blobRef == "" && |events| - 1 - k <= 8)
  {
    AgentIsSelected(cfg.fold, events, k, v);
    hide A.IsNormalized, A.Assembled, SelectedAt, A.NormItem, IsView, Config.Valid;
    var w := WorkingOf(SelectedAt(cfg.fold, events, k, v));
    AgentNorm(w);
    var s := A.ItemIsSent(cfg.Esc(), cfg.upper, req, n, r, w);
    assert s.id == events[k].id && s.text == A.NormItem(w).text;
    if item :| item in r.packet.body.workingSet.All() && IsUserItem(events[k], item) {
      var i := PacketItemFrom(cfg.fold, events, v, cfg.Esc(), cfg.upper, req, n, r, item);
      SelectedKeepsId(cfg.fold, events, i, v);
      assert i == k;
    }
  }

  lemma {:induction false} ToolResultIsSent(cfg: Config, events: seq<Event>, v: View, req: A.Request, n: A.Request,
                                            r: A.Outcome, k: nat)
    requires cfg.Valid() && LogOk(events) && IsView(events, v) && req.body.checkpointSummaryRef == ""
    requires A.IsNormalized(cfg.upper, req, n) && A.Assembled(cfg.Esc(), n, r) && r.Fitting? && r.packet.stage <= 4
    requires IsWorkingSet(cfg.fold, events, v, req.body.workingSet.All())
    requires k < |events| && OfKind(events[k], v.branchId, KindToolResult)
    ensures exists item | item in r.packet.body.workingSet.All() :: IsToolItem(events, v.branchId, k, item)
  {
    ToolResultIsSelected(cfg.fold, events, k, v);
    hide A.IsNormalized, A.Assembled, SelectedAt, A.NormItem, IsView, Config.Valid, IsLatest, LogOk, ToolSummary,
      ReadMetaString, FirstBytes;
    var w := WorkingOf(SelectedAt(cfg.fold, events, k, v));
    ToolNorm(w);
    var s := A.ItemIsSent(cfg.Esc(), cfg.upper, req, n, r, w);
    assert IsToolItem(events, v.branchId, k, s);
  }

  lemma SameCheckpoint(e: Event, i: A.WorkingItem, s: A.WorkingItem)
    requires IsCheckpointItem(e, i) && A.SameItem(i, s) && s.text <= i.text
    ensures IsCheckpointItem(e, s)
  {
  }

  lemma {:induction false} CheckpointIsSent(cfg: Config, events: seq<Event>, v: View, req: A.Request, n: A.Request,
                                            r: A.Outcome, k: nat)
    requires FixesCheckpoint(cfg.fold) && req.body.checkpointSummaryRef == ""
    requires A.IsNormalized(cfg.upper, req, n) && A.Assembled(cfg.Esc(), n, r) && r.Fitting? && r.packet.stage <= 4
    requires IsWorkingSet(cfg.fold, events, v, req.body.workingSet.All())
    requires k < |events| && OfKind(events[k], v.branchId, KindSummaryCheckpoint)
    ensures exists item | item in r.packet.body.workingSet.All() :: IsCheckpointItem(events[k], item)
  {
    hide A.IsNormalized, A.Assembled, SelectedAt, A.NormItem, FixesCheckpoint, IsCheckpointItem, A.SameItem;
    CheckpointIsSelected(cfg.fold, events, k, v);
    var w := WorkingOf(SelectedAt(cfg.fold, events, k, v));
    A.NormItemStems(w);
    var s := A.ItemIsSent(cfg.Esc(), cfg.upper, req, n, r, w);
    SameCheckpoint(events[k], w, s);
  }

  lemma {:induction false} GlobalIsSent(cfg: Config, events: seq<Event>, v: View, req: A.Request, n: A.Request,
                                        r: A.Outcome, k: nat)
    requires req.body.checkpointSummaryRef == ""
    requires A.IsNormalized(cfg.upper, req, n) && A.Assembled(cfg.Esc(), n, r) && r.Fitting? && r.packet.stage <= 4
    requires IsWorkingSet(cfg.fold, events, v, req.body.workingSet.All())
    requires k < |events| && IsGlobal(cfg.fold, events[k], v.branchId)
    ensures exists item | item in r.packet.body.workingSet.All() :: RefersTo(events[k], item)
  {
    ForeignIsSelectedIff(cfg.fold, events, k, v);
    hide A.IsNormalized, A.Assembled, SelectedAt, A.NormItem, S.IsNeverEgressKind, ReadMetaString;
    var w := WorkingOf(SelectedAt(cfg.fold, events, k, v));
    A.NormItemStems(w);
    var s := A.ItemIsSent(cfg.Esc(), cfg.upper, req, n, r, w);
    assert RefersTo(events[k], s);
  }

  lemma {:induction false} ForeignItemRefers(cfg: Config, events: seq<Event>, v: View, req: A.Request, n: A.Request,
                                             r: A.Outcome, k: nat, item: A.WorkingItem)
    requires LogOk(events) && req.body.checkpointSummaryRef == ""
    requires A.IsNormalized(cfg.upper, req, n) && A.Assembled(cfg.Esc(), n, r) && r.Fitting?
    requires IsWorkingSet(cfg.fold, events, v, req.body.workingSet.All())
    requires k < |events| && item in r.packet.body.workingSet.All() && item.id == events[k].id
    requires events[k].branchId != v.branchId
    ensures RefersTo(events[k], item) && item.blobRef != ""
  {
    hide A.IsNormalized, A.Assembled, SelectedAt, A.NormItem, IsWorkingSet, S.IsNeverEgressKind, ReadMetaString;
    var i := PacketItemFrom(cfg.fold, events, v, cfg.Esc(), cfg.upper, req, n, r, item);
    SelectedKeepsId(cfg.fold, events, i, v);
    assert i == k;
    ForeignIsSelectedIff(cfg.fold, events, k, v);
  }

  /** What a packet says of checkpoints and of other branches. */
  lemma {:induction false} ReferencesAreOk(cfg: Config, events: seq<Event>, v: View, req: A.Request, n: A.Request,
                                           r: A.Outcome)
    requires FixesCheckpoint(cfg.fold) && LogOk(events) && req.body.checkpointSummaryRef == ""
    requires A.IsNormalized(cfg.upper, req, n) && A.Assembled(cfg.Esc(), n, r) && r.Fitting?
    requires IsWorkingSet(cfg.fold, events, v, req.body.workingSet.All())
    ensures CheckpointsOk(events, v.branchId, r.packet) && ForeignOk(cfg.fold, events, v.branchId, r.packet)
  {
    hide A.IsNormalized, A.Assembled, IsWorkingSet, LogOk, IsCheckpointItem, RefersTo, IsGlobal, FixesCheckpoint;
    var p := r.packet;
    forall k: nat | k < |events| && OfKind(events[k], v.branchId, KindSummaryCheckpoint) && p.stage <= 4
      ensures exists item | item in p.body.workingSet.All() :: IsCheckpointItem(events[k], item)
    {
      CheckpointIsSent(cfg, events, v, req, n, r, k);
    }
    forall k: nat | k < |events| && IsGlobal(cfg.fold, events[k], v.branchId) && p.stage <= 4
      ensures exists item | item in p.body.workingSet.All() :: RefersTo(events[k], item)
    {
      GlobalIsSent(cfg, events, v, req, n, r, k);
    }
    forall k: nat, item |
      k < |events| && item in p.body.workingSet.All() && item.id == events[k].id && events[k].branchId != v.branchId
      ensures RefersTo(events[k], item) && item.blobRef != ""
    {
      ForeignItemRefers(cfg, events, v, req, n, r, k, item);
    }
  }

  lemma {:induction false} SensitiveIsNotSent(cfg: Config, events: seq<Event>, v: View, req: A.Request, n: A.Request,
                                              r: A.Outcome, k: nat, item: A.WorkingItem)
    requires LogOk(events) && req.body.checkpointSummaryRef == ""
    requires A.IsNormalized(cfg.upper, req, n) && A.Assembled(cfg.Esc(), n, r) && r.Fitting?
    requires IsWorkingSet(cfg.fold, events, v, req.body.workingSet.All())
    requires k < |events| && item in r.packet.body.workingSet.All() && item.id == events[k].id
    ensures !OfKind(events[k], v.branchId, KindToolRequest) && !OfKind(events[k], v.branchId, KindToolFailure)
  {
    hide A.IsNormalized, A.Assembled, SelectedAt, A.NormItem, IsWorkingSet;
    var i := PacketItemFrom(cfg.fold, events, v, cfg.Esc(), cfg.upper, req, n, r, item);
    SelectedKeepsId(cfg.fold, events, i, v);
    assert i == k;
    if OfKind(events[k], v.branchId, KindToolRequest) || OfKind(events[k], v.branchId, KindToolFailure) {
      SensitiveIsNotSelected(cfg.fold, events, k, v);
    }
  }

  /** All that a packet says of the turns and tool calls of its branch. */
  lemma {:induction false} TextsAreOk(cfg: Config, events: seq<Event>, v: View, req: A.Request, n: A.Request,
                                      r: A.Outcome)
    requires cfg.Valid() && LogOk(events) && IsView(events, v) && req.body.checkpointSummaryRef == ""
    requires A.IsNormalized(cfg.upper, req, n) && A.Assembled(cfg.Esc(), n, r) && r.Fitting?
    requires IsWorkingSet(cfg.fold, events, v, req.body.workingSet.All())
    ensures UserTextsOk(events, v.branchId, r.packet) && AgentTextsOk(events, v.branchId, r.packet)
    ensures ToolResultsOk(events, v.branchId, r.packet) && SensitiveStays(events, v.branchId, r.packet)
  {
    hide A.IsNormalized, A.Assembled, SelectedAt, IsWorkingSet, LogOk, IsView, IsUserItem, IsToolItem, KeepsText;
    var p := r.packet;
    forall k: nat | k < |events| && OfKind(events[k], v.branchId, KindTurnUser) && p.stage <= 4
      ensures (exists item | item in p.body.workingSet.All() :: IsUserItem(events[k], item))
        <==> KeepsText(events, v.branchId, k)
    {
      UserSentIff(cfg.fold, events, v, cfg.Esc(), cfg.upper, req, n, r, k);
    }
    forall k: nat | k < |events| && OfKind(events[k], v.branchId, KindTurnAgent) && p.stage <= 4
      ensures (exists item | item in p.body.workingSet.All() :: IsUserItem(events[k], item)) <==>
        |ReadMetaString(events[k].meta, "text")| <= 1024 || (events[k].blobRef == "" && |events| - 1 - k <= 8)
    {
      AgentSentIff(cfg, events, v, req, n, r, k);
    }
    forall k: nat | k < |events| && OfKind(events[k], v.branchId, KindToolResult) && p.stage <= 4
      ensures exists item | item in p.body.workingSet.All() :: IsToolItem(events, v.branchId, k, item)
    {
      ToolResultIsSent(cfg, events, v, req, n, r, k);
    }
    forall k: nat, item | k < |events| && item in p.body.workingSet.All() && item.id == events[k].id
      ensures !OfKind(events[k], v.branchId, KindToolRequest) && !OfKind(events[k], v.branchId, KindToolFailure)
    {
      SensitiveIsNotSent(cfg, events, v, req, n, r, k, item);
    }
  }

  function RequestOf(cfg: Config, branchId: string, working: seq<A.WorkingItem>, externalContext: string): A.Request {
    A.Request("POST", "/v1/responses", cfg.headers,
      A.PacketBody(cfg.sessionId, branchId, A.Items(working), externalContext, [], [], [], [], "", 0))
  }

  lemma {:induction false} LineOf(cfg: Config, req: A.Request, n: A.Request)
    requires cfg.Valid() && req.verb == "POST" && req.path == "/v1/responses" && A.IsNormalized(cfg.upper, req, n)
    ensures A.RequestLineBytes(n) == |REQUEST_LINE| && A.HeaderBytes(n.headers) == A.HeaderBytes(req.headers)
  {
    GoText.TrimNothing("POST");
    GoText.TrimNothing("/v1/responses");
    hide GoText.TrimSpace, A.IsNormalBody, A.HeaderOrder, A.HeaderBytes, Ordered;
    A.HeaderBytesPermuted(n.headers, req.headers);
  }

  lemma {:induction false} PacketIsWithinBudget(cfg: Config, req: A.Request, n: A.Request, r: A.Outcome)
    requires cfg.Valid() && req.verb == "POST" && req.path == "/v1/responses" && req.headers == cfg.headers
    requires A.IsNormalized(cfg.upper, req, n) && A.Assembled(cfg.Esc(), n, r) && r.Fitting?
    ensures WithinBudget(cfg, r.packet)
  {
    hide A.IsNormalized, A.Assembled, A.HeaderBytes, A.BodyLen, A.RequestLineBytes, A.HeaderText, A.BodyText;
    LineOf(cfg, req, n);
    A.FittingIsWithinBudget(cfg.Esc(), n, r);
    A.HeaderLength(req.headers);
    A.BodyLenIsLength(cfg.escape, r.packet.body);
  }

  lemma {:induction false} PacketBodyIsOk(cfg: Config, branchId: string, working: seq<A.WorkingItem>,
                                          externalContext: string, n: A.Request, r: A.Outcome)
    requires A.IsNormalized(cfg.upper, RequestOf(cfg, branchId, working, externalContext), n)
    requires A.Assembled(cfg.Esc(), n, r) && r.Fitting?
    ensures BodyOk(cfg, branchId, externalContext, r.packet)
  {
    hide A.IsNormalized, A.Assembled, GoText.TrimSpace;
    A.PacketFrame(cfg.Esc(), cfg.upper, RequestOf(cfg, branchId, working, externalContext), n, r);
  }

  /** A rejected packet does not fit, not even fully compacted and without its external context. */
  ghost predicate TooLarge(cfg: Config, p: A.Packet) {
    && p.stage == 7 && p.body.externalContext == ""
    && |REQUEST_LINE + A.HeaderText(cfg.headers) + A.BodyText(cfg.escape, p.body)| > 13568
  }

  lemma {:induction false} RejectedIsTooLarge(cfg: Config, req: A.Request, n: A.Request, r: A.Outcome)
    requires cfg.Valid() && req.verb == "POST" && req.path == "/v1/responses" && req.headers == cfg.headers
    requires A.IsNormalized(cfg.upper, req, n) && A.Assembled(cfg.Esc(), n, r) && r.Rejected?
    ensures TooLarge(cfg, r.packet)
  {
    LineOf(cfg, req, n);
    hide A.IsNormalized, A.HeaderBytes, A.BodyLen, A.RequestLineBytes, A.HeaderText, A.BodyText;
    A.RejectedMeasures(cfg.Esc(), n, r);
    A.HeaderLength(req.headers);
    A.BodyLenIsLength(cfg.escape, r.packet.body);
    hide A.Assembled;
  }

  /** A packet that fits inherits all this from its request and the selection. */
  lemma {:induction false} PacketFromWorking(cfg: Config, events: seq<Event>, v: View, externalContext: string,
                                             working: seq<A.WorkingItem>, n: A.Request, r: A.Outcome)
    requires cfg.Valid() && LogOk(events) && IsView(events, v) && IsWorkingSet(cfg.fold, events, v, working)
    requires A.IsNormalized(cfg.upper, RequestOf(cfg, v.branchId, working, externalContext), n)
    requires A.Assembled(cfg.Esc(), n, r) && r.Fitting?
    ensures PacketOk(cfg, events, v.branchId, externalContext, r.packet)
  {
    hide A.IsNormalized, A.Assembled, MayLeave, SelectedAt, A.NormItem, IsWorkingSet, LogOk, IsView, IsUserItem,
      UserTextsOk, AgentTextsOk, ToolResultsOk, SensitiveStays, WithinBudget, BodyOk, Config.Valid, CheckpointsOk,
      ForeignOk;
    var (fold, esc, upper) := (cfg.fold, cfg.Esc(), cfg.upper);
    var req := RequestOf(cfg, v.branchId, working, externalContext);
    PacketIsWithinBudget(cfg, req, n, r);
    PacketBodyIsOk(cfg, v.branchId, working, externalContext, n, r);
    forall s | s in r.packet.body.workingSet.All()
      ensures MayLeave(fold, events, v.branchId, s)
    {
      var i := PacketItemFrom(fold, events, v, esc, upper, req, n, r, s);
      SelectedMayLeave(fold, events, i, v);
      PrefixMayLeave(fold, events, v.branchId, WorkingOf(SelectedAt(fold, events, i, v)), s);
    }
    TextsAreOk(cfg, events, v, req, n, r);
    ConfigFixesCheckpoint(cfg);
    hide FixesCheckpoint;
    ReferencesAreOk(cfg, events, v, req, n, r);
  }

  // ----- What the session itself writes -----

  /** The positions `at` hold events of these kinds, all on the branch. */
  ghost predicate HasKinds(log: seq<Event>, at: seq<nat>, branchId: string, kinds: seq<Kind>) {
    |at| == |kinds| && forall i | 0 <= i < |at| :: at[i] < |log| && OfKind(log[at[i]], branchId, kinds[i])
  }

  /** Between two moments the session has written events of these kinds, in this order. */
  ghost predicate Wrote(before: seq<nat>, after: seq<nat>, log: seq<Event>, branchId: string, kinds: seq<Kind>) {
    before <= after && HasKinds(log, after[|before|..], branchId, kinds)
  }

  lemma {:induction false} WroteNothing(own: seq<nat>, log: seq<Event>, branchId: string)
    ensures Wrote(own, own, log, branchId, [])
  {
  }

  lemma WroteGrows(a: seq<nat>, b: seq<nat>, log: seq<Event>, branchId: string, kinds: seq<Kind>)
    requires Wrote(a, b, log, branchId, kinds)
    ensures a <= b
  {
  }

  lemma {:induction false} WroteMore(a: seq<nat>, b: seq<nat>, log: seq<Event>, longer: seq<Event>, branchId: string,
                                     kinds: seq<Kind>, kind: Kind)
    requires Wrote(a, b, log, branchId, kinds) && log <= longer && longer != []
      && OfKind(longer[|longer| - 1], branchId, kind)
    ensures Wrote(a, b + [|longer| - 1], longer, branchId, kinds + [kind])
  {
    assert (b + [|longer| - 1])[|a|..] == b[|a|..] + [|longer| - 1];
  }

  lemma {:induction false} WroteStays(a: seq<nat>, b: seq<nat>, log: seq<Event>, longer: seq<Event>, branchId: string,
                                      kinds: seq<Kind>)
    requires Wrote(a, b, log, branchId, kinds) && log <= longer
    ensures Wrote(a, b, longer, branchId, kinds)
  {
  }

  /** One tool call on the log: its request, then a result or a failure, both with its tool and the
      same call id, which is the model's if it gave one. */
  ghost predicate IsToolPair(log: seq<Event>, request: nat, outcome: nat, branchId: string, call: ToolCall) {
    && request < outcome < |log|
    && OfKind(log[request], branchId, KindToolRequest)
    && (OfKind(log[outcome], branchId, KindToolResult) || OfKind(log[outcome], branchId, KindToolFailure))
    && ReadMetaString(log[request].meta, "tool") == call.tool == ReadMetaString(log[outcome].meta, "tool")
    && ReadMetaString(log[request].meta, "call_id") == ReadMetaString(log[outcome].meta, "call_id") != ""
    && (call.callId != "" ==> ReadMetaString(log[request].meta, "call_id") == call.callId)
  }

  function ToolMeta(details: Meta, tool: string, callId: string): Meta {
    details["tool" := Str(tool)]["call_id" := Str(callId)]
  }

  lemma ToolMetaReads(details: Meta, tool: string, callId: string)
    ensures ReadMetaString(ToolMeta(details, tool, callId), "tool") == tool
    ensures ReadMetaString(ToolMeta(details, tool, callId), "call_id") == callId
  {
  }

  lemma {:induction false} PairIs(log: seq<Event>, request: nat, outcome: nat, branchId: string, call: ToolCall,
                                  callId: string, first: Meta, second: Meta)
    requires request < outcome < |log| && callId != "" && (call.callId != "" ==> callId == call.callId)
    requires OfKind(log[request], branchId, KindToolRequest)
    requires OfKind(log[outcome], branchId, KindToolResult) || OfKind(log[outcome], branchId, KindToolFailure)
    requires log[request].meta == ToolMeta(first, call.tool, callId)
    requires log[outcome].meta == ToolMeta(second, call.tool, callId)
    ensures IsToolPair(log, request, outcome, branchId, call)
  {
    ToolMetaReads(first, call.tool, callId);
    ToolMetaReads(second, call.tool, callId);
    hide ToolMeta, ReadMetaString;
  }

  /** The first `n` tool calls are on the log, pair by pair, at the positions `at`. */
  ghost predicate ToolPairs(log: seq<Event>, at: seq<nat>, branchId: string, calls: seq<ToolCall>, n: nat) {
    && n <= |calls| && |at| == 2 * n
    && forall i | 0 <= i < n :: IsToolPair(log, at[2 * i], at[2 * i + 1], branchId, calls[i])
  }

  lemma NoToolPairs(log: seq<Event>, branchId: string, calls: seq<ToolCall>)
    ensures ToolPairs(log, [], branchId, calls, 0)
  {
  }

  lemma {:induction false} ToolPairsGrow(log: seq<Event>, at: seq<nat>, branchId: string, calls: seq<ToolCall>, n: nat,
                                         request: nat, outcome: nat)
    requires ToolPairs(log, at, branchId, calls, n) && n < |calls|
      && IsToolPair(log, request, outcome, branchId, calls[n])
    ensures ToolPairs(log, at + [request, outcome], branchId, calls, n + 1)
  {
    hide IsToolPair;
    var after := at + [request, outcome];
    forall i | 0 <= i < n + 1
      ensures IsToolPair(log, after[2 * i], after[2 * i + 1], branchId, calls[i])
    {
      if i < n {
        assert after[2 * i] == at[2 * i] && after[2 * i + 1] == at[2 * i + 1];
      }
    }
  }

  lemma {:induction false} ToolPairsStay(log: seq<Event>, longer: seq<Event>, at: seq<nat>, branchId: string,
                                         calls: seq<ToolCall>, n: nat)
    requires ToolPairs(log, at, branchId, calls, n) && log <= longer
    ensures ToolPairs(longer, at, branchId, calls, n)
  {
    forall i | 0 <= i < n
      ensures IsToolPair(longer, at[2 * i], at[2 * i + 1], branchId, calls[i])
    {
      assert IsToolPair(log, at[2 * i], at[2 * i + 1], branchId, calls[i]);
    }
  }

  // ----- The session -----

  datatype ToolCall = ToolCall(tool: string, callId: string)

  /** What a model call comes back with. */
  datatype ModelOutcome =
    | CallFailed(malformed: bool)
    | Answer(text: string)
    | ToolCalls(calls: seq<ToolCall>)
    | Continue
    | UnknownDecision

  datatype TurnResult =
    | Answered(text: string, envelopeBytes: nat)
    | BackendFailed
    | PacketRejected
    | ModelFailed
    | MalformedResponse
    | ToolsFailed
    | MaxReasoningTurns

  const COMPACTION_REQUEST := KindOther("compaction.request")
  const COMPACTION_FAILURE := KindOther("compaction.failure")
  const COMPACTION_COMPLETE := KindOther("compaction.complete")
  const AST_PERSISTED := KindOther("ast.persisted")

  /** A compaction pass writes a request, then a failure or the two events of a success; a failure to
      write any of these after the first is ignored. */
  ghost predicate IsCompactionTrace(kinds: seq<Kind>) {
    || kinds == [] || kinds == [COMPACTION_REQUEST]
    || kinds == [COMPACTION_REQUEST, COMPACTION_FAILURE]
    || kinds == [COMPACTION_REQUEST, AST_PERSISTED]
    || kinds == [COMPACTION_REQUEST, COMPACTION_COMPLETE]
    || kinds == [COMPACTION_REQUEST, AST_PERSISTED, COMPACTION_COMPLETE]
  }

  /** The answer as the agent's turn on the log. */
  ghost predicate IsAnswer(log: seq<Event>, k: nat, branchId: string, text: string) {
    k < |log| && OfKind(log[k], branchId, KindTurnAgent) && ReadMetaString(log[k].meta, "text") == text
  }

  /** The record of a response that could be stored. */
  ghost predicate IsResponse(log: seq<Event>, k: nat, branchId: string) {
    k < |log| && OfKind(log[k], branchId, KindOther("response.received"))
  }

  /** The session has recorded a response since the log had that length. */
  ghost predicate Responded(log: seq<Event>, own: seq<nat>, since: nat, branchId: string) {
    exists k | k in own :: since <= k && IsResponse(log, k, branchId)
  }

  class Session {
    const cfg: Config
    const defaultBranchId: string
    const maxReasoningTurns: nat
    const hasToolRunner: bool
    var counter: nat
    var log: seq<Event>          // the session's log in the backend
    ghost var own: seq<nat>      // where on it this session's events are
    ghost var calls: seq<ModelCall>

    ghost predicate Valid()
      reads this
    {
      && cfg.Valid() && defaultBranchId != "" && maxReasoningTurns >= 1
      && LogOk(log) && OwnOk(log, own) && CallsOk(cfg, log, own, calls)
    }

    /** StartSession: the counter is seeded with the length of the log that is already there. */
    constructor (cfg: Config, defaultBranchId: string, maxReasoningTurns: int, hasToolRunner: bool, log: seq<Event>)
      requires cfg.Valid() && LogOk(log)
      ensures Valid() && this.cfg == cfg && this.log == log && calls == [] && own == []
      ensures this.maxReasoningTurns == if maxReasoningTurns <= 0 then 4 else maxReasoningTurns
      ensures this.defaultBranchId == if defaultBranchId == "" then "main" else defaultBranchId
    {
      this.cfg, this.hasToolRunner, this.log := cfg, hasToolRunner, log;
      this.defaultBranchId := if defaultBranchId == "" then "main" else defaultBranchId;
      this.maxReasoningTurns := if maxReasoningTurns <= 0 then 4 else maxReasoningTurns;
      counter, calls, own := |log|, [], [];
    }

    /** What others may append meanwhile: any valid events with new ids, on this branch or another. */
    method Interfere()
      requires Valid()
      modifies this`log
      ensures Valid() && old(log) <= log
    {
      hide CallsOk, OwnOk;
      var more: seq<Event> := *;
      if IsForeign(log, more) {
        CallsStayOk(cfg, log, log + more, own, own, calls);
        OwnStaysOk(log, log + more, own);
        log := log + more;
      }
    }

    method NextEventId(kind: string) returns (eventId: string)
      modifies this`counter
      ensures counter == old(counter) + 1 && eventId == EventId(cfg.sessionId, counter, kind)
      ensures eventId != ""
    {
      counter := counter + 1;
      eventId := EventId(cfg.sessionId, counter, kind);
    }

    /** backendAppendEvent: refuses invalid and duplicate events, and may fail for other reasons. */
    method Append(e: Event) returns (ok: bool)
      requires Valid()
      modifies this`log, this`own
      ensures Valid() && log == if ok then old(log) + [e] else old(log)
      ensures own == if ok then old(own) + [|old(log)|] else old(own)
      ensures ok ==> e.Valid()
    {
      hide CallsOk, OwnOk, Event.Valid;
      var cancelled: bool := *;
      if cancelled || !e.Valid() || M.HasId(log, e.id) {
        return false;
      }
      assert forall d | d in log :: d.id != e.id;
      CallsStayOk(cfg, log, log + [e], own, own + [|log|], calls);
      OwnGrows(log, e, own);
      own := own + [|log|];
      log := log + [e];
      ok := true;
    }

    /** Appends an event, after whatever others have appended in the meantime. */
    method AppendOwn(eventId: string, kind: Kind, branchId: string, meta: Meta, blobRef: string) returns (ok: bool)
      requires Valid()
      modifies this`log, this`own
      ensures Valid() && old(log) <= log
      ensures own == if ok then old(own) + [|log| - 1] else old(own)
      ensures ok ==> |log| > |old(log)|
      ensures ok ==> var e := log[|log| - 1];
        OfKind(e, branchId, kind) && e.meta == meta && e.blobRef == blobRef && e.sessionId == cfg.sessionId
    {
      hide CallsOk, OwnOk, LogOk, Event.Valid;
      Interfere();
      var ts: int := *;
      ok := Append(Event(eventId, cfg.sessionId, ts, kind, branchId, "", [], meta, blobRef));
    }

    /** The part of assembleForBranch that writes nothing. */
    method Compose(events: seq<Event>, branchId: string, externalContext: string) returns (r: A.Outcome)
      requires cfg.Valid() && LogOk(events)
      ensures r.Fitting? ==> PacketOk(cfg, events, branchId, externalContext, r.packet)
      ensures r.Rejected? ==> TooLarge(cfg, r.packet)
    {
      hide A.IsNormalized, A.Assembled, PacketOk, IsWorkingSet, CandidateOf, S.SelectOne, S.IsDominantList, LastId;
      ValidIds(events);
      var userId, toolId, checkpointId := LatestIds(events, branchId);
      var relevant: set<string> := *;
      var v := View(branchId, userId, toolId, checkpointId, relevant);
      var candidates := BuildCandidates(events, v);
      var selected, explanation := S.SelectWithExplanation(cfg.fold, candidates);
      SelectionIs(cfg.fold, events, v, candidates, selected);
      var working := BuildWorkingSet(cfg.fold, events, v, selected);
      var req := RequestOf(cfg, branchId, working, externalContext);
      r := A.Assemble(cfg.Esc(), cfg.upper, req);
      assert IsView(events, v);
      hide LogOk, IsView, TooLarge;
      ghost var n :| A.IsNormalized(cfg.upper, req, n) && A.Assembled(cfg.Esc(), n, r);
      if r.Fitting? {
        PacketFromWorking(cfg, events, v, externalContext, working, n, r);
      } else {
        RejectedIsTooLarge(cfg, req, n, r);
      }
    }

    /** Reads the log, composes the packet and writes its candidate event, or a rejection. */
    method AssembleForBranch(branchId: string, externalContext: string)
      returns (result: TurnResult, packet: A.Packet, ghost readAt: nat, ghost at: nat)
      requires Valid()
      modifies this`log, this`own, this`counter
      ensures Valid() && old(log) <= log && old(own) <= own && readAt == |old(log)|
      ensures result.Answered? || result.PacketRejected? || result.BackendFailed?
      ensures result.Answered? ==>
        && readAt <= at < |log| && own == old(own) + [at]
          && IsPacketEvent(log[at], KindPacketCandidate, branchId, packet)
        && PacketOk(cfg, log[..readAt], branchId, externalContext, packet)
      ensures result.PacketRejected? ==> TooLarge(cfg, packet)
      ensures result.PacketRejected? && own != old(own) ==>
        && log != [] && own == old(own) + [|log| - 1] && OfKind(log[|log| - 1], branchId, KindPacketRejected)
        && ReadMetaString(log[|log| - 1].meta, "reason") == "packet rejected by budget"
      ensures result.BackendFailed? ==> own == old(own)
    {
      hide CallsOk, OwnOk, LogOk, PacketOk, IsPacketEvent, PacketMeta, TooLarge;
      readAt, at := |log|, 0;
      var events := log;
      var r := Compose(events, branchId, externalContext);
      packet := r.packet;
      var readable: bool := *;
      if !readable {
        return BackendFailed, packet, readAt, 0;
      }
      if r.Rejected? {
        var rejectedId := NextEventId("packet.rejected");
        var written := AppendOwn(rejectedId, KindPacketRejected, branchId,
                                 map["reason" := Str("packet rejected by budget")], "");
        return PacketRejected, packet, readAt, 0;
      }
      var candidateId := NextEventId("packet.candidate");
      var written := AppendOwn(candidateId, KindPacketCandidate, branchId, PacketMeta(packet), "");
      if !written {
        return BackendFailed, packet, readAt, 0;
      }
      at := |log| - 1;
      ItIsPacketEvent(log[at], KindPacketCandidate, branchId, packet);
      assert log[..readAt] == events;
      result := Answered("", packet.measurement.envelopeBytes);
    }

    /** The sent event, the model call and what the adapter records of it. */
    method CallModel(branchId: string, ghost externalContext: string, packet: A.Packet, ghost userAt: nat,
                     ghost readAt: nat, ghost candidateAt: nat)
      returns (written: bool, outcome: ModelOutcome)
      requires Valid() && userAt < readAt <= candidateAt < |log| && userAt in own && candidateAt in own
      requires IsTurn(log, branchId, userAt) && IsPacketEvent(log[candidateAt], KindPacketCandidate, branchId, packet)
      requires PacketOk(cfg, log[..readAt], branchId, externalContext, packet) && forall d | d in calls ::
        d.at <= readAt
      modifies this`log, this`own, this`counter, this`calls
      ensures Valid() && old(log) <= log && old(own) <= own
      ensures NewCalls(old(calls), calls, branchId, externalContext, userAt, if written then 1 else 0)
      ensures written ==> |calls| == |old(calls)| + 1 && calls[|calls| - 1].packet == packet
      ensures written ==>
        || outcome == CallFailed(false)
        || (calls[|calls| - 1].outcome == outcome
            && (outcome.CallFailed? || Responded(log, own, calls[|calls| - 1].at, branchId)))
    {
      hide PacketOk, LogOk, OwnOk, CallsOk, CallOk, NewCalls, IsPacketEvent, IsTurn, PacketMeta, Responded, IsResponse,
      ReadMetaString;
      outcome := Continue;
      var modelEventId := NextEventId("response");
      ghost var start := log;
      var sentId := NextEventId("packet.sent");
      written := AppendOwn(sentId, KindPacketSent, branchId, PacketMeta(packet), "");
      if !written {
        NoNewCalls(calls, branchId, externalContext, userAt, 0);
        return;
      }
      ghost var sentAt := |log| - 1;
      ItIsPacketEvent(log[sentAt], KindPacketSent, branchId, packet);
      Interfere();
      outcome := *;
      ghost var call := ModelCall(branchId, externalContext, packet, outcome, userAt, readAt, candidateAt, sentAt,
                                  |log|);
      CallIsOk(cfg, start, log, own, call);
      OneMoreCall(cfg, log, own, calls, call);
      OneNewCall(calls, call);
      calls := calls + [call];
      outcome := RecordResponse(branchId, modelEventId, outcome);
    }

    /** ExecuteAndPersist after the call: the response or its schema error becomes an event. */
    method RecordResponse(branchId: string, modelEventId: string, called: ModelOutcome) returns (outcome: ModelOutcome)
      requires Valid()
      modifies this`log, this`own
      ensures Valid() && old(log) <= log && old(own) <= own
      ensures called.CallFailed? ==> outcome == called
      ensures called.CallFailed? && own != old(own) ==>
        && called.malformed && log != [] && own == old(own) + [|log| - 1]
        && OfKind(log[|log| - 1], branchId, KindOther("response.invalid_schema"))
      ensures !called.CallFailed? && outcome == called ==>
        && |log| > |old(log)| && own == old(own) + [|log| - 1]
        && IsResponse(log, |log| - 1, branchId) && log[|log| - 1].blobRef != ""
        && Responded(log, own, |old(log)|, branchId)
      ensures !called.CallFailed? && outcome != called ==> outcome == CallFailed(false) && own == old(own)
    {
      hide LogOk, OwnOk, CallsOk;
      outcome := called;
      if called.CallFailed? {
        if called.malformed {
          var persisted := AppendOwn(modelEventId + ".invalid", KindOther("response.invalid_schema"), branchId, map[],
                                     "");
        }
        return;
      }
      var persisted: bool := *;   // whether the blob with the raw response could be stored
      if persisted {
        persisted := AppendOwn(modelEventId + ".received", KindOther("response.received"), branchId, map[],
                               "blob://model/" + cfg.sessionId + "/" + modelEventId);
      }
      if !persisted {
        outcome := CallFailed(false);
      } else {
        assert own[|own| - 1] == |log| - 1 >= |old(log)|;
      }
    }

    /** An event about a tool call. */
    method WriteToolEvent(kind: Kind, branchId: string, tool: string, callId: string, blobRef: string)
      returns (ok: bool, ghost details: Meta)
      requires Valid()
      modifies this`log, this`own, this`counter
      ensures Valid() && old(log) <= log && (ok ==> |log| > |old(log)|)
      ensures ok ==> own == old(own) + [|log| - 1]
      ensures !ok ==> own == old(own)
      ensures ok ==> OfKind(log[|log| - 1], branchId, kind) && log[|log| - 1].meta == ToolMeta(details, tool, callId)
    {
      hide CallsOk, OwnOk, LogOk, ToolMeta;
      var others: Meta := *;
      details := others;
      var eventId := NextEventId(kind.Name());
      ok := AppendOwn(eventId, kind, branchId, ToolMeta(others, tool, callId), blobRef);
    }

    /** One tool call: its request event, the run, and a result or a failure event. */
    method ExecuteToolCall(branchId: string, toolCall: ToolCall) returns (ok: bool, ghost request: nat)
      requires Valid()
      modifies this`log, this`own, this`counter
      ensures Valid() && old(log) <= log && (ok ==> |log| > |old(log)|)
      ensures ok ==> own == old(own) + [request, |log| - 1] && IsToolPair(log, request, |log| - 1, branchId, toolCall)
      ensures !ok && own != old(own) ==>
        own == old(own) + [request] && request < |log| && OfKind(log[request], branchId, KindToolRequest)
    {
      hide CallsOk, OwnOk, LogOk, ToolMeta, IsToolPair;
      var callId := toolCall.callId;
      if callId == "" {
        callId := NextEventId("tool.call");
      }
      ghost var asked, told;
      ok, asked := WriteToolEvent(KindToolRequest, branchId, toolCall.tool, callId, "");
      if !ok {
        return false, 0;
      }
      request := |log| - 1;
      var succeeded: bool, blobRef: string := *, *;
      if succeeded {
        ok, told := WriteToolEvent(KindToolResult, branchId, toolCall.tool, callId, blobRef);
      } else {
        ok, told := WriteToolEvent(KindToolFailure, branchId, toolCall.tool, callId, "");
      }
      if ok {
        assert old(own) + [request] + [|log| - 1] == old(own) + [request, |log| - 1];
        PairIs(log, request, |log| - 1, branchId, toolCall, callId, asked, told);
      }
    }

    /** executeToolCalls: the calls one after another, as long as every event can be written. `n` of
        them have run to their end. */
    method ExecuteToolCalls(branchId: string, toolCalls: seq<ToolCall>) returns (ok: bool, ghost n: nat)
      requires Valid()
      modifies this`log, this`own, this`counter
      ensures Valid() && old(log) <= log && old(own) <= own
      ensures |old(own)| + 2 * n <= |own| && ToolPairs(log, own[|old(own)|..][..2 * n], branchId, toolCalls, n)
      ensures ok ==> n == |toolCalls| && |own| == |old(own)| + 2 * n
      ensures !ok && |own| > |old(own)| + 2 * n ==>
        |own| == |old(own)| + 2 * n + 1 && own[|own| - 1] < |log|
          && OfKind(log[own[|own| - 1]], branchId, KindToolRequest)
      ensures !hasToolRunner ==> !ok && own == old(own)
      ensures hasToolRunner && n == |toolCalls| ==> ok
    {
      hide CallsOk, OwnOk, LogOk, ToolPairs, IsToolPair;
      ghost var at: seq<nat> := [];
      NoToolPairs(log, branchId, toolCalls);
      n := 0;
      assert own[|old(own)|..] == [];
      if !hasToolRunner {
        return false, 0;
      }
      for i := 0 to |toolCalls|
        invariant Valid() && old(log) <= log && own == old(own) + at && n == i
        invariant |at| == 2 * n && ToolPairs(log, at, branchId, toolCalls, n)
      {
        ghost var before := log;
        ghost var request;
        ok, request := ExecuteToolCall(branchId, toolCalls[i]);
        ToolPairsStay(before, log, at, branchId, toolCalls, n);
        if !ok {
          assert own[|old(own)|..] == at || own[|old(own)|..] == at + [request];
          assert at[..2 * n] == (at + [request])[..2 * n] == at;
          return;
        }
        ToolPairsGrow(log, at, branchId, toolCalls, n, request, |log| - 1);
        at := at + [request, |log| - 1];
        n := n + 1;
      }
      assert own[|old(own)|..] == at && at[..2 * n] == at;
      ok := true;
    }

    /** recordTurnAndMaybeCompact: a compaction pass only adds its own events, and failing to write
        them is ignored. */
    method RecordTurnAndMaybeCompact(branchId: string) returns (ghost kinds: seq<Kind>)
      requires Valid()
      modifies this`log, this`own, this`counter
      ensures Valid() && old(log) <= log
      ensures Wrote(old(own), own, log, branchId, kinds) && IsCompactionTrace(kinds)
    {
      hide CallsOk, OwnOk, LogOk, Wrote;
      kinds := [];
      WroteNothing(own, log, branchId);
      var due: bool := *;
      if !due {
        return;
      }
      var requested;
      requested, kinds := WriteNext(old(own), kinds, "compaction.request", COMPACTION_REQUEST, branchId);
      if !requested {
        return;
      }
      var failed: bool := *;
      var written;
      if failed {
        written, kinds := WriteNext(old(own), kinds, "compaction.failure", COMPACTION_FAILURE, branchId);
        return;
      }
      written, kinds := WriteNext(old(own), kinds, "ast.persisted", AST_PERSISTED, branchId);
      written, kinds := WriteNext(old(own), kinds, "compaction.complete", COMPACTION_COMPLETE, branchId);
    }

    /** Appends one more event to what has been written since `start`. */
    method WriteNext(ghost start: seq<nat>, ghost kinds: seq<Kind>, name: string, kind: Kind, branchId: string)
      returns (written: bool, ghost now: seq<Kind>)
      requires Valid() && Wrote(start, own, log, branchId, kinds)
      modifies this`log, this`own, this`counter
      ensures Valid() && old(log) <= log
      ensures now == (if written then kinds + [kind] else kinds) && Wrote(start, own, log, branchId, now)
    {
      hide CallsOk, OwnOk, LogOk, Wrote;
      var eventId := NextEventId(name);
      var meta: Meta := *;
      ghost var (logBefore, ownBefore) := (log, own);
      written := AppendOwn(eventId, kind, branchId, meta, "");
      if written {
        WroteMore(start, ownBefore, logBefore, log, branchId, kinds, kind);
        now := kinds + [kind];
      } else {
        WroteStays(start, own, logBefore, log, branchId, kinds);
        now := kinds;
      }
    }

    /** The answer of the model becomes the agent's turn. */
    method RecordAnswer(branchId: string, text: string, envelopeBytes: nat) returns (r: TurnResult)
      requires Valid()
      modifies this`log, this`own, this`counter
      ensures Valid() && old(log) <= log
      ensures r == BackendFailed || r == Answered(text, envelopeBytes)
      ensures r.BackendFailed? ==> own == old(own)
      ensures r.Answered? ==>
        |log| > |old(log)| && own == old(own) + [|log| - 1] && IsAnswer(log, |log| - 1, branchId, text)
    {
      hide CallsOk, OwnOk, LogOk;
      var agentId := NextEventId("turn.agent");
      var written := AppendOwn(agentId, KindTurnAgent, branchId, map["text" := Str(text)], "");
      if !written {
        return BackendFailed;
      }
      r := Answered(text, envelopeBytes);
    }

    /** The switch over the model's decision. */
    method ActOn(branchId: string, outcome: ModelOutcome, envelopeBytes: nat) returns (done: bool, r: TurnResult)
      requires Valid() && !outcome.CallFailed?
      modifies this`log, this`own, this`counter
      ensures Valid() && old(log) <= log && old(own) <= own
      ensures match outcome
        case Answer(text) => done && (
          || (r == BackendFailed && own == old(own))
          || (&& r == Answered(text, envelopeBytes) && |own| > |old(own)|
              && own[|old(own)|] >= |old(log)| && IsAnswer(log, own[|old(own)|], branchId, text)
              && exists kinds ::
                   IsCompactionTrace(kinds) && Wrote(old(own) + [own[|old(own)|]], own, log, branchId, kinds)))
        case ToolCalls(cs) =>
          if done then r == ToolsFailed else hasToolRunner && ToolPairs(log, own[|old(own)|..], branchId, cs, |cs|)
        case Continue => !done && log == old(log) && own == old(own)
        case _ => done && r == MalformedResponse && log == old(log) && own == old(own)
    {
      hide CallsOk, OwnOk, LogOk, ToolPairs, Wrote, IsCompactionTrace;
      done, r := true, MalformedResponse;
      match outcome {
        case Answer(text) =>
          r := AnswerTurn(branchId, text, envelopeBytes);
        case ToolCalls(toolCalls) =>
          var ok, n := ExecuteToolCalls(branchId, toolCalls);
          assert ok ==> own[|old(own)|..][..2 * n] == own[|old(own)|..];
          done, r := !ok, ToolsFailed;
        case Continue =>
          done := false;
        case _ =>
      }
    }

    /** Records the answer, and compacts unless the audit tracker ended the turn early. */
    method AnswerTurn(branchId: string, text: string, envelopeBytes: nat) returns (r: TurnResult)
      requires Valid()
      modifies this`log, this`own, this`counter
      ensures Valid() && old(log) <= log && old(own) <= own
      ensures
        || (r == BackendFailed && own == old(own))
        || (&& r == Answered(text, envelopeBytes) && |own| > |old(own)|
            && own[|old(own)|] >= |old(log)| && IsAnswer(log, own[|old(own)|], branchId, text)
            && exists kinds ::
                 IsCompactionTrace(kinds) && Wrote(old(own) + [own[|old(own)|]], own, log, branchId, kinds))
    {
      hide CallsOk, OwnOk, LogOk, Wrote, HasKinds;
      r := RecordAnswer(branchId, text, envelopeBytes);
      if r.BackendFailed? {
        return;
      }
      ghost var answered := own;
      ghost var kinds := [];
      WroteNothing(own, log, branchId);
      var complete: bool := *;
      if !complete {
        kinds := RecordTurnAndMaybeCompact(branchId);
        WroteGrows(answered, own, log, branchId, kinds);
      }
      assert answered == old(own) + [own[|old(own)|]];
      assert IsCompactionTrace(kinds) && Wrote(answered, own, log, branchId, kinds);
    }

    /** One round of the reasoning loop: at most one model call, and exactly one if the loop goes on
        or the turn is answered. */
    method ReasoningRound(branchId: string, externalContext: string, ghost userAt: nat)
      returns (done: bool, r: TurnResult)
      requires Valid() && IsTurn(log, branchId, userAt) && userAt in own
      modifies this`log, this`own, this`counter, this`calls
      ensures Valid() && old(log) <= log && old(own) <= own
      ensures NewCalls(old(calls), calls, branchId, externalContext, userAt, 1)
      ensures !done || r.Answered? ==> |calls| == |old(calls)| + 1
      ensures !done ==> GoesOn(calls[|calls| - 1].outcome)
      ensures done ==> r != MaxReasoningTurns
      ensures done && r.Answered? ==> AnswersLastCall(log, own, calls, branchId, r)
    {
      hide CallsOk, OwnOk, LogOk, PacketOk, NewCalls, IsPacketEvent, ToolPairs, Wrote, IsCompactionTrace,
      AnswersLastCall;
      done := true;
      var packet: A.Packet;
      ghost var readAt, at;
      CallsAreEarlier(cfg, log, own, calls, |log|);
      NoNewCalls(calls, branchId, externalContext, userAt, 1);
      r, packet, readAt, at := AssembleForBranch(branchId, externalContext);
      if !r.Answered? {
        return;
      }
      var written, outcome := CallModel(branchId, externalContext, packet, userAt, readAt, at);
      FewerCalls(old(calls), calls, branchId, externalContext, userAt, if written then 1 else 0, 1);
      if !written {
        return true, BackendFailed;
      }
      done, r := React(branchId, outcome, packet.measurement.envelopeBytes);
    }

    /** The rest of a round after a call that was made. */
    method React(branchId: string, outcome: ModelOutcome, envelopeBytes: nat) returns (done: bool, r: TurnResult)
      requires Valid() && calls != [] && calls[|calls| - 1].packet.measurement.envelopeBytes == envelopeBytes
      requires outcome.CallFailed?
        || (calls[|calls| - 1].outcome == outcome && Responded(log, own, calls[|calls| - 1].at, branchId))
      modifies this`log, this`own, this`counter
      ensures Valid() && old(log) <= log && old(own) <= own
      ensures !done ==> GoesOn(outcome)
      ensures outcome.CallFailed? ==> r == ModelFailed
      ensures done ==> r != MaxReasoningTurns
      ensures done && r.Answered? ==> AnswersLastCall(log, own, calls, branchId, r)
    {
      hide CallsOk, OwnOk, LogOk, ToolPairs, Wrote, IsCompactionTrace, AnswersLastCall, IsAnswer, Responded;
      CallsAreEarlier(cfg, log, own, calls, |log|);
      done := true;
      var audited: bool := *;
      if audited {
        var auditId: string, meta: Meta := *, *;
        var recorded := AppendOwn(auditId, KindOther("audit.decision"), branchId, meta, "");
        RespondedStays(old(log), log, old(own), own, calls[|calls| - 1].at, branchId);
      }
      if outcome.CallFailed? {
        return true, ModelFailed;
      }
      ghost var (logBefore, ownBefore) := (log, own);
      done, r := ActOn(branchId, outcome, envelopeBytes);
      if done && r.Answered? {
        AnswersLast(logBefore, ownBefore, log, own, calls, branchId, r);
      }
    }

    /** The bounded loop of reasoning rounds. */
    method ReasoningLoop(branchId: string, externalContext: string, ghost userAt: nat) returns (r: TurnResult)
      requires Valid() && IsTurn(log, branchId, userAt) && userAt in own
      modifies this`log, this`own, this`counter, this`calls
      ensures Valid() && old(log) <= log && old(own) <= own
      ensures NewCalls(old(calls), calls, branchId, externalContext, userAt, maxReasoningTurns)
      ensures r == MaxReasoningTurns ==> |calls| == |old(calls)| + maxReasoningTurns
      ensures OnlyLastEnds(old(calls), calls)
      ensures r.Answered? ==> |calls| > |old(calls)| && AnswersLastCall(log, own, calls, branchId, r)
    {
      hide CallsOk, OwnOk, LogOk, NewCalls, AnswersLastCall;
      NoNewCalls(calls, branchId, externalContext, userAt, 0);
      for i := 0 to maxReasoningTurns
        invariant Valid() && old(log) <= log && old(own) <= own && IsTurn(log, branchId, userAt) && userAt in own
        invariant NewCalls(old(calls), calls, branchId, externalContext, userAt, i) && |calls| == |old(calls)| + i
        invariant forall j | |old(calls)| <= j < |calls| :: GoesOn(calls[j].outcome)
      {
        ghost var callsBefore := calls;
        Interfere();
        var done;
        done, r := ReasoningRound(branchId, externalContext, userAt);
        MoreCalls(old(calls), callsBefore, calls, branchId, externalContext, userAt, i);
        CallsStand(callsBefore, calls, branchId, externalContext, userAt);
        if done {
          FewerCalls(old(calls), calls, branchId, externalContext, userAt, i + 1, maxReasoningTurns);
          return;
        }
      }
      r := MaxReasoningTurns;
    }

    /** A whole turn. However the model, the tools and other writers behave it makes at most
        `maxReasoningTurns` model calls, all for the turn that stands at `userAt`, every one of them fit
        to be made and with events of its own (CallsOk, in Valid). */
    method HandleUserTurn(branch: string, text: string, externalContext: string)
      returns (r: TurnResult, ghost userAt: nat)
      requires Valid()
      modifies this`log, this`own, this`counter, this`calls
      ensures Valid() && old(log) <= log && old(own) <= own
      ensures var branchId := if branch == "" then defaultBranchId else branch;
        && NewCalls(old(calls), calls, branchId, externalContext, userAt, maxReasoningTurns)
        && (r == MaxReasoningTurns ==> |calls| == |old(calls)| + maxReasoningTurns)
        && OnlyLastEnds(old(calls), calls)
        && (r.Answered? ==> |calls| > |old(calls)| && AnswersLastCall(log, own, calls, branchId, r))
        && (|calls| > |old(calls)| ==> |old(log)| <= userAt && IsTurn(log, branchId, userAt) && userAt in own
                                       && ReadMetaString(log[userAt].meta, "text") == text)
    {
      hide CallsOk, OwnOk, LogOk, NewCalls, AnswersLastCall;
      var branchId := if branch == "" then defaultBranchId else branch;
      var userId := NextEventId("turn.user");
      NoNewCalls(calls, branchId, externalContext, 0, maxReasoningTurns);
      userAt := 0;
      var written := AppendOwn(userId, KindTurnUser, branchId, map["text" := Str(text)], "");
      if !written {
        return BackendFailed, 0;
      }
      userAt := |log| - 1;
      assert own[|own| - 1] == userAt;
      var consultId := NextEventId("consult");
      r := ReasoningLoop(branchId, externalContext, userAt);
    }
  }

  lemma ItIsPacketEvent(e: Event, kind: Kind, branchId: string, p: A.Packet)
    requires OfKind(e, branchId, kind) && e.meta == PacketMeta(p)
    ensures IsPacketEvent(e, kind, branchId, p)
  {
  }

  /** The result is the packet size of the last call and the answer that the model gave in it; since then
      the session has written the record of the response and, after it, the answer as an agent's turn. */
  ghost predicate AnswersLastCall(log: seq<Event>, own: seq<nat>, calls: seq<ModelCall>, branchId: string,
                                  r: TurnResult)
    requires r.Answered?
  {
    && calls != [] && r.envelopeBytes == calls[|calls| - 1].packet.measurement.envelopeBytes
    && calls[|calls| - 1].outcome == Answer(r.text)
    && exists j, k | j in own && k in own ::
         calls[|calls| - 1].at <= j < k && IsResponse(log, j, branchId) && IsAnswer(log, k, branchId, r.text)
  }

  lemma {:induction false} RespondedStays(log: seq<Event>, longer: seq<Event>, own: seq<nat>, more: seq<nat>,
                                          since: nat, branchId: string)
    requires log <= longer && own <= more
    ensures Responded(log, own, since, branchId) ==> Responded(longer, more, since, branchId)
  {
    if k :| k in own && since <= k && IsResponse(log, k, branchId) {
      assert k in more && IsResponse(longer, k, branchId);
    }
  }

  lemma {:induction false} AnswersLast(logBefore: seq<Event>, ownBefore: seq<nat>, log: seq<Event>, own: seq<nat>,
                                       calls: seq<ModelCall>, branchId: string, r: TurnResult)
    requires calls != [] && calls[|calls| - 1].at <= |logBefore|
    requires r.Answered? && r.envelopeBytes == calls[|calls| - 1].packet.measurement.envelopeBytes
    requires calls[|calls| - 1].outcome == Answer(r.text) && logBefore <= log && ownBefore <= own
    requires Responded(logBefore, ownBefore, calls[|calls| - 1].at, branchId)
    requires |own| > |ownBefore| && own[|ownBefore|] >= |logBefore| && IsAnswer(log, own[|ownBefore|], branchId, r.text)
    ensures AnswersLastCall(log, own, calls, branchId, r)
  {
    hide IsAnswer;
    var j :| j in ownBefore && calls[|calls| - 1].at <= j && IsResponse(logBefore, j, branchId);
    assert j in own && IsResponse(log, j, branchId);
    assert own[|ownBefore|] in own;
  }

  // ----- The calls of one turn -----

  /** A call after which the turn may go on. */
  predicate GoesOn(outcome: ModelOutcome) {
    outcome.Continue? || outcome.ToolCalls?
  }

  /** Only the last call of a turn may have an outcome that ends it. */
  ghost predicate OnlyLastEnds(before: seq<ModelCall>, after: seq<ModelCall>) {
    forall j | |before| <= j < |after| - 1 :: GoesOn(after[j].outcome)
  }

  lemma {:induction false} CallsStand(before: seq<ModelCall>, after: seq<ModelCall>, branchId: string,
                                      externalContext: string, userAt: nat)
    requires NewCalls(before, after, branchId, externalContext, userAt, 1)
    ensures |before| <= |after| <= |before| + 1 && forall j | 0 <= j < |before| :: after[j] == before[j]
  {
    assert forall j | 0 <= j < |before| :: after[j] == after[..|before|][j];
  }

  /** At most `n` new calls, all for the given user turn and with its external context. */
  ghost predicate NewCalls(before: seq<ModelCall>, after: seq<ModelCall>, branchId: string, externalContext: string,
                           userAt: nat, n: nat) {
    && |before| <= |after| <= |before| + n && after[..|before|] == before
    && forall c | c in after[|before|..] ::
      c.branchId == branchId && c.externalContext == externalContext && c.userAt == userAt
  }

  lemma {:induction false} NoNewCalls(calls: seq<ModelCall>, branchId: string, externalContext: string, userAt: nat,
                                      n: nat)
    ensures NewCalls(calls, calls, branchId, externalContext, userAt, n)
  {
    assert calls[..|calls|] == calls && calls[|calls|..] == [];
  }

  lemma {:induction false} OneNewCall(calls: seq<ModelCall>, c: ModelCall)
    ensures NewCalls(calls, calls + [c], c.branchId, c.externalContext, c.userAt, 1)
  {
    assert (calls + [c])[|calls|..] == [c];
  }

  lemma {:induction false} MoreCalls(a: seq<ModelCall>, b: seq<ModelCall>, c: seq<ModelCall>, branchId: string,
                                     externalContext: string, userAt: nat, n: nat)
    requires NewCalls(a, b, branchId, externalContext, userAt, n)
      && NewCalls(b, c, branchId, externalContext, userAt, 1)
    ensures NewCalls(a, c, branchId, externalContext, userAt, n + 1)
  {
    assert c[..|a|] == c[..|b|][..|a|];
    assert c[|a|..] == b[|a|..] + c[|b|..];
  }

  lemma {:induction false} FewerCalls(a: seq<ModelCall>, b: seq<ModelCall>, branchId: string, externalContext: string,
                                      userAt: nat, n: nat, m: nat)
    requires NewCalls(a, b, branchId, externalContext, userAt, n) && n <= m
    ensures NewCalls(a, b, branchId, externalContext, userAt, m)
  {
  }

  // ----- Composing a packet -----

  lemma ValidIds(events: seq<Event>)
    requires LogOk(events)
    ensures forall e | e in events :: e.id != ""
  {
  }

  method BuildCandidates(events: seq<Event>, v: View) returns (candidates: seq<S.Candidate>)
    ensures |candidates| == |events|
    ensures forall i | 0 <= i < |events| :: candidates[i] == CandidateAt(events, i, v)
  {
    hide CandidateOf;
    candidates := [];
    for i := 0 to |events|
      invariant |candidates| == i
      invariant forall j | 0 <= j < i :: candidates[j] == CandidateAt(events, j, v)
    {
      candidates := candidates + [CandidateOf(events[i], i, v.branchId, v.user, v.tool, v.checkpoint, v.relevant)];
    }
  }

  /** The selector's latest ordinal is the last position of the log. */
  lemma {:induction false} SelectionIs(fold: S.Fold, events: seq<Event>, v: View, candidates: seq<S.Candidate>,
                                       selected: seq<S.Selected>)
    requires |candidates| == |events| == |selected|
    requires forall i | 0 <= i < |events| :: candidates[i] == CandidateAt(events, i, v)
    requires forall i | 0 <= i < |events| ::
      selected[i] == S.SelectOne(fold, candidates[i], candidates[|candidates| - 1].frontierOrdinal)
    ensures forall i | 0 <= i < |events| :: selected[i] == SelectedAt(fold, events, i, v)
  {
    hide S.SelectOne;
    if events != [] {
      assert CandidateAt(events, |events| - 1, v).frontierOrdinal == |events| - 1;
    }
  }

  /** The included items become working items. */
  method BuildWorkingSet(ghost fold: S.Fold, ghost events: seq<Event>, ghost v: View, selected: seq<S.Selected>)
    returns (working: seq<A.WorkingItem>)
    requires |events| == |selected|
    requires forall i | 0 <= i < |events| :: selected[i] == SelectedAt(fold, events, i, v)
    ensures IsWorkingSet(fold, events, v, working)
  {
    hide SelectedAt;
    working := [];
    for i := 0 to |selected|
      invariant forall w | w in working :: exists j: nat | j < i :: selected[j].include_ && w == WorkingOf(selected[j])
      invariant forall j: nat | j < i && selected[j].include_ :: WorkingOf(selected[j]) in working
    {
      if selected[i].include_ {
        working := working + [WorkingOf(selected[i])];
      }
    }
  }

  predicate IsForeign(log: seq<Event>, more: seq<Event>) {
    && (forall e | e in more :: e.Valid())
    && forall i, j | 0 <= i < j < |log + more| :: (log + more)[i].id != (log + more)[j].id
  }
}
