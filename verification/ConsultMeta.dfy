/** The durable consult record: EventSummary.Meta prints it into event metadata
    (internal/consult/types.go), ListConsultEvents reads it back (internal/replay/replay.go). */
module ConsultMeta {
  import opened GoText
  import opened Canonical
  import opened EventLog
  import opened ConsultTypes
  import opened Replay
  import J = JsonText

  datatype EventSummary = EventSummary(
    schemaVersion: string,
    fingerprint: string,
    contractVersion: string,
    manifestSerializerVersion: string,
    outcome: string,
    role: string,
    leaderConsultEventId: string,
    byteBudget: int,
    actualBytes: int,
    taskSummary: string,
    missing: seq<string>,
    selection: Option<SelectionExplanation>)

  datatype ConsultEvent = ConsultEvent(
    eventId: string,
    sessionId: string,
    branchId: string,
    kind: Kind,
    refs: seq<string>,
    summary: EventSummary)

  // ----- Printing -----

  function SetIf(m: Meta, present: bool, key: string, v: Value): Meta {
    if present then m[key := v] else m
  }

  function PrintItem(i: SelectionItem): Object {
    Object(SetIf(map["id" := Str(i.id), "kind" := Str(i.kind), "reason" := Str(i.reason)],
                 i.itemClass != "", "class", Str(i.itemClass)))
  }

  function PrintReason(c: ReasonCount): Object {
    Object(map["reason" := Str(c.reason), "count" := Int(c.count)])
  }

  function PrintSelection(s: SelectionExplanation): Object {
    var m0: Meta := SetIf(map[], s.included != [], "included", Objs(Mapped(PrintItem, s.included)));
    var m1 := SetIf(m0, s.excluded != [], "excluded", Objs(Mapped(PrintItem, s.excluded)));
    var m2 := SetIf(m1, s.dominantInclusionReasons != [], "dominant_inclusion_reasons",
                    Objs(Mapped(PrintReason, s.dominantInclusionReasons)));
    var m3 := SetIf(m2, s.dominantExclusionReasons != [], "dominant_exclusion_reasons",
                    Objs(Mapped(PrintReason, s.dominantExclusionReasons)));
    Object(SetIf(m3, s.budgetPressure, "budget_pressure", Bool(true)))
  }

  function PrintSummary(e: EventSummary): Meta {
    var m0: Meta := map[
      "schema_version" := Str(e.schemaVersion), "fingerprint" := Str(e.fingerprint),
      "contract_version" := Str(e.contractVersion), "outcome" := Str(e.outcome), "role" := Str(e.role),
      "byte_budget" := Int(e.byteBudget), "actual_bytes" := Int(e.actualBytes)];
    var m1 := SetIf(m0, e.manifestSerializerVersion != "", "manifest_serializer_version",
                    Str(e.manifestSerializerVersion));
    var m2 := SetIf(m1, e.leaderConsultEventId != "", "leader_consult_event_id", Str(e.leaderConsultEventId));
    var m3 := SetIf(m2, e.taskSummary != "", "task_summary", Str(e.taskSummary));
    var m4 := SetIf(m3, e.missing != [], "missing", Strs(e.missing));
    if e.selection.Some? then m4["selection" := Obj(PrintSelection(e.selection.value))] else m4
  }

  method PrintItems(items: seq<SelectionItem>) returns (r: seq<Object>)
    ensures r == Mapped(PrintItem, items)
  {
    r := [];
    for i := 0 to |items|
      invariant r == Mapped(PrintItem, items[..i])
    {
      var entry: Meta := map["id" := Str(items[i].id), "kind" := Str(items[i].kind), "reason" := Str(items[i].reason)];
      if items[i].itemClass != "" {
        entry := entry["class" := Str(items[i].itemClass)];
      }
      assert items[..i + 1][..i] == items[..i];
      r := r + [Object(entry)];
    }
    assert items[..|items|] == items;
  }

  method SelectionReasonMeta(counts: seq<ReasonCount>) returns (r: seq<Object>)
    ensures r == Mapped(PrintReason, counts)
  {
    r := [];
    for i := 0 to |counts|
      invariant r == Mapped(PrintReason, counts[..i])
    {
      assert counts[..i + 1][..i] == counts[..i];
      r := r + [Object(map["reason" := Str(counts[i].reason), "count" := Int(counts[i].count)])];
    }
    assert counts[..|counts|] == counts;
  }

  method SelectionMeta(s: SelectionExplanation) returns (r: Object)
    ensures r == PrintSelection(s)
  {
    var meta: Meta := map[];
    if s.included != [] {
      var items := PrintItems(s.included);
      meta := meta["included" := Objs(items)];
    }
    if s.excluded != [] {
      var items := PrintItems(s.excluded);
      meta := meta["excluded" := Objs(items)];
    }
    if s.dominantInclusionReasons != [] {
      var counts := SelectionReasonMeta(s.dominantInclusionReasons);
      meta := meta["dominant_inclusion_reasons" := Objs(counts)];
    }
    if s.dominantExclusionReasons != [] {
      var counts := SelectionReasonMeta(s.dominantExclusionReasons);
      meta := meta["dominant_exclusion_reasons" := Objs(counts)];
    }
    if s.budgetPressure {
      meta := meta["budget_pressure" := Bool(true)];
    }
    r := Object(meta);
  }

  method SummaryMeta(e: EventSummary) returns (meta: Meta)
    ensures meta == PrintSummary(e)
  {
    hide PrintSelection;
    meta := map[
      "schema_version" := Str(e.schemaVersion), "fingerprint" := Str(e.fingerprint),
      "contract_version" := Str(e.contractVersion), "outcome" := Str(e.outcome), "role" := Str(e.role),
      "byte_budget" := Int(e.byteBudget), "actual_bytes" := Int(e.actualBytes)];
    if e.manifestSerializerVersion != "" {
      meta := meta["manifest_serializer_version" := Str(e.manifestSerializerVersion)];
    }
    if e.leaderConsultEventId != "" {
      meta := meta["leader_consult_event_id" := Str(e.leaderConsultEventId)];
    }
    if e.taskSummary != "" {
      meta := meta["task_summary" := Str(e.taskSummary)];
    }
    if e.missing != [] {
      meta := meta["missing" := Strs(e.missing)];
    }
    if e.selection.Some? {
      var selection := SelectionMeta(e.selection.value);
      meta := meta["selection" := Obj(selection)];
    }
  }

  // ----- Reading -----

  /** The elements that `read` can make sense of, in order. */
  function Gather<T, U>(read: T -> Option<U>, s: seq<T>): seq<U> {
    if s == [] then []
    else
      var init, last := Gather(read, s[..|s| - 1]), read(s[|s| - 1]);
      if last.Some? then init + [last.value] else init
  }

  method GatherAll<T, U>(read: T -> Option<U>, s: seq<T>) returns (r: seq<U>)
    ensures r == Gather(read, s)
  {
    r := [];
    for i := 0 to |s|
      invariant r == Gather(read, s[..i])
    {
      assert s[..i + 1][..i] == s[..i];
      var next := read(s[i]);
      if next.Some? {
        r := r + [next.value];
      }
    }
    assert s[..|s|] == s;
  }

  /** strconv.Atoi: an optional sign and at least one digit, within 64 bits. */
  function Atoi(s: string): Option<int> {
    var signed := s != "" && (s[0] == '+' || s[0] == '-');
    var body := if signed then s[1..] else s;
    if body == "" || exists c | c in body :: !('0' <= c <= '9') then None
    else
      var n := if signed && s[0] == '-' then -Decimal(body) else Decimal(body);
      if -0x8000_0000_0000_0000 <= n < 0x8000_0000_0000_0000 then Some(n) else None
  }

  function Decimal(s: string): int {
    if s == "" then 0 else 10 * Decimal(s[..|s| - 1]) + (s[|s| - 1] as int - '0' as int)
  }

  /** Conversion of a float to an int drops the fraction. */
  function Truncate(r: real): int {
    if r >= 0.0 then r.Floor else -((-r).Floor)
  }

  function ReadInt(meta: Meta, key: string): int {
    if key !in meta then 0
    else
      match meta[key]
      case Int(n) => n
      case Float(r) => Truncate(r)
      case Str(s) => (var n := Atoi(TrimSpace(s)); if n.Some? then n.value else 0)
      case _ => 0
  }

  lemma {:induction false} DecimalIsRead(s: string)
    requires forall c | c in s :: '0' <= c <= '9'
    ensures Decimal(s) == J.ReadDecimal(s)
  {
    if s != "" {
      var init := s[..|s| - 1];
      assert forall c | c in init :: c in s;
      DecimalIsRead(init);
    }
  }

  lemma {:induction false} SignedDigits(sign: string, digits: string)
    requires digits != "" && sign in {"", "+", "-"} && forall c | c in digits :: '0' <= c <= '9'
    ensures var n: int := if sign == "-" then 0 - J.ReadDecimal(digits) else J.ReadDecimal(digits);
      Atoi(sign + digits) == if -0x8000_0000_0000_0000 <= n && n <= 0x7FFF_FFFF_FFFF_FFFF then Some(n) else None
  {
    DecimalIsRead(digits);
    hide Decimal;
    var s := sign + digits;
    assert digits[0] in digits;
    if sign == "" {
      assert s == digits;
    } else {
      assert s[1..] == digits && s[0] == sign[0];
    }
  }

  /** What is no number in decimal notation, with or without a sign, is refused. */
  lemma {:induction false} AtoiNeedsDigits(s: string)
    requires Atoi(s).Some?
    ensures exists sign, digits ::
      && s == sign + digits && sign in {"", "+", "-"} && digits != ""
      && forall c | c in digits :: '0' <= c <= '9'
  {
    if s[0] == '+' || s[0] == '-' {
      assert s == [s[0]] + s[1..];
    } else {
      assert s == "" + s;
    }
  }

  /** Every number of 64 bits is read back from its decimal text, signed or not. */
  lemma {:induction false} NumberReadsBack(n: int)
    requires -0x8000_0000_0000_0000 <= n < 0x8000_0000_0000_0000
    ensures Atoi(J.NumberText(n)) == Some(n)
    ensures n >= 0 ==> Atoi("+" + J.NumberText(n)) == Some(n)
  {
    var digits := J.DecimalText(if n < 0 then -n else n);
    J.DecimalReadsBack(if n < 0 then -n else n);
    J.DecimalLength(if n < 0 then -n else n);
    assert digits != "";
    hide Atoi, J.DecimalText, J.ReadDecimal;
    SignedDigits(if n < 0 then "-" else "", digits);
    if n >= 0 {
      assert "" + digits == digits;
      SignedDigits("+", digits);
    }
  }

  /** What the reader of a number makes of each kind of value: floats lose their fraction, texts are read
      as decimal numbers once trimmed, and everything else is zero. */
  lemma {:induction false} ReadIntMeans(meta: Meta, key: string)
    ensures var n := ReadInt(meta, key);
      && (key in meta && meta[key].Int? ==> n == meta[key].n)
      && (key in meta && meta[key].Float? && meta[key].r >= 0.0 ==> n as real <= meta[key].r < n as real + 1.0)
      && (key in meta && meta[key].Float? && meta[key].r < 0.0 ==> n as real - 1.0 < meta[key].r <= n as real)
      && (key in meta && meta[key].Str? ==> (Atoi(TrimSpace(meta[key].s)) == Some(n)
                                             || (Atoi(TrimSpace(meta[key].s)).None? && n == 0)))
      && (key !in meta || !(meta[key].Int? || meta[key].Float? || meta[key].Str?) ==> n == 0)
  {
    hide Atoi, TrimSpace;
  }

  function AsString(v: Value): Option<string> {
    if v.Str? then Some(v.s) else None
  }

  function ReadStrings(meta: Meta, key: string): seq<string> {
    if key !in meta then []
    else
      match meta[key]
      case Strs(s) => s
      case List(items) => Gather(AsString, items)
      case Str(s) => if TrimSpace(s) == "" then [] else [TrimSpace(s)]
      case _ => []
  }

  /** A single string stands for a list of one, unless it is blank. */
  lemma {:induction false} StringAsList(meta: Meta, key: string)
    requires key in meta && meta[key].Str?
    ensures TrimSpace(meta[key].s) == "" ==> ReadStrings(meta, key) == []
    ensures TrimSpace(meta[key].s) != "" ==> ReadStrings(meta, key) == [TrimSpace(meta[key].s)]
  {
    hide TrimSpace;
  }

  function ItemFromMeta(o: Object): Option<SelectionItem> {
    var id, kind := ReadMetaString(o.fields, "id"), ReadMetaString(o.fields, "kind");
    var reason := ReadMetaString(o.fields, "reason");
    if id == "" || kind == "" || reason == "" then None
    else Some(SelectionItem(id, kind, reason, ReadMetaString(o.fields, "class")))
  }

  function ReasonFromMeta(o: Object): Option<ReasonCount> {
    var reason, count := ReadMetaString(o.fields, "reason"), ReadInt(o.fields, "count");
    if reason == "" || count <= 0 then None else Some(ReasonCount(reason, count))
  }

  /** An element of a generic list counts only when it is an object. */
  function InList<U>(read: Object -> Option<U>): Value -> Option<U> {
    (v: Value) => if v.Obj? then read(v.obj) else None
  }

  function ReadObjects<U>(read: Object -> Option<U>, o: Object, key: string): seq<U> {
    if key !in o.fields then []
    else
      match o.fields[key]
      case Objs(objs) => Gather(read, objs)
      case List(items) => Gather(InList(read), items)
      case _ => []
  }

  predicate IsEmptySelection(s: SelectionExplanation) {
    s.included == [] && s.excluded == [] && s.dominantInclusionReasons == [] && s.dominantExclusionReasons == []
    && !s.budgetPressure
  }

  function SelectionFromMeta(o: Object): SelectionExplanation {
    SelectionExplanation(
      ReadObjects(ItemFromMeta, o, "included"), ReadObjects(ItemFromMeta, o, "excluded"),
      ReadObjects(ReasonFromMeta, o, "dominant_inclusion_reasons"),
      ReadObjects(ReasonFromMeta, o, "dominant_exclusion_reasons"),
      "budget_pressure" in o.fields && o.fields["budget_pressure"].Bool? && o.fields["budget_pressure"].b)
  }

  function ReadSelection(meta: Meta, key: string): Option<SelectionExplanation> {
    if key !in meta || !meta[key].Obj? then None
    else
      var s := SelectionFromMeta(meta[key].obj);
      if IsEmptySelection(s) then None else Some(s)
  }

  predicate IsConsult(e: Event) {
    e.kind.KindConsultResolved? || e.kind.KindConsultUnresolved?
  }

  function OutcomeForKind(kind: Kind): string {
    match kind
    case KindConsultResolved => "resolved"
    case KindConsultUnresolved => "unresolved"
    case _ => ""
  }

  function ReadConsult(e: Event): ConsultEvent {
    var outcome := ReadMetaString(e.meta, "outcome");
    ConsultEvent(e.id, e.sessionId, e.branchId, e.kind, e.refs,
      EventSummary(
        ReadMetaString(e.meta, "schema_version"), ReadMetaString(e.meta, "fingerprint"),
        ReadMetaString(e.meta, "contract_version"), ReadMetaString(e.meta, "manifest_serializer_version"),
        if outcome != "" then outcome else OutcomeForKind(e.kind), ReadMetaString(e.meta, "role"),
        ReadMetaString(e.meta, "leader_consult_event_id"), ReadInt(e.meta, "byte_budget"),
        ReadInt(e.meta, "actual_bytes"), ReadMetaString(e.meta, "task_summary"), ReadStrings(e.meta, "missing"),
        ReadSelection(e.meta, "selection")))
  }

  function ConsultFact(e: Event): Option<ConsultEvent> {
    if IsConsult(e) then Some(ReadConsult(e)) else None
  }

  predicate OneSession(events: seq<Event>) {
    forall e | e in events :: e.sessionId == events[0].sessionId
  }

  method ListConsultEvents(events: seq<Event>) returns (r: Outcome<seq<ConsultEvent>>)
    ensures r == if OneSession(events) then Done(Gather(ConsultFact, events)) else Failed(MixedSession)
  {
    hide ConsultFact;
    if events == [] {
      return Done([]);
    }
    var sessionId := events[0].sessionId;
    var out: seq<ConsultEvent> := [];
    for i := 0 to |events|
      invariant out == Gather(ConsultFact, events[..i])
      invariant forall j | 0 <= j < i :: events[j].sessionId == sessionId
    {
      if events[i].sessionId != sessionId {
        return Failed(MixedSession);
      }
      assert events[..i + 1][..i] == events[..i];
      var fact := ConsultFact(events[i]);
      if fact.Some? {
        out := out + [fact.value];
      }
    }
    assert events[..|events|] == events;
    r := Done(out);
  }

  // ----- What is read back -----

  predicate WellFormedItem(i: SelectionItem) {
    i.id != "" && i.kind != "" && i.reason != ""
  }

  predicate WellFormedReason(c: ReasonCount) {
    c.reason != "" && c.count > 0
  }

  lemma {:induction false} GatherPrinted<T, U>(read: U -> Option<T>, toMeta: T -> U, good: T -> bool, s: seq<T>)
    requires forall x | x in s :: read(toMeta(x)) == if good(x) then Some(x) else None
    ensures Gather(read, Mapped(toMeta, s)) == Filter(good, s)
  {
    if s != [] {
      var init, last := s[..|s| - 1], s[|s| - 1];
      assert s == init + [last];
      GatherPrinted(read, toMeta, good, init);
      assert Mapped(toMeta, s)[..|s| - 1] == Mapped(toMeta, init);
    }
  }

  lemma {:induction false} ItemReadBack(i: SelectionItem)
    ensures ItemFromMeta(PrintItem(i)) == if WellFormedItem(i) then Some(i) else None
  {
    var m := PrintItem(i).fields;
    assert ReadMetaString(m, "id") == i.id && ReadMetaString(m, "kind") == i.kind;
    assert ReadMetaString(m, "reason") == i.reason && ReadMetaString(m, "class") == i.itemClass;
  }

  lemma {:induction false} ReasonReadBack(c: ReasonCount)
    ensures ReasonFromMeta(PrintReason(c)) == if WellFormedReason(c) then Some(c) else None
  {
    var m := PrintReason(c).fields;
    assert ReadMetaString(m, "reason") == c.reason && ReadInt(m, "count") == c.count;
  }

  /** What the reader keeps of a selection: the well-formed entries. */
  function KeptSelection(s: SelectionExplanation): SelectionExplanation {
    SelectionExplanation(Filter(WellFormedItem, s.included), Filter(WellFormedItem, s.excluded),
      Filter(WellFormedReason, s.dominantInclusionReasons), Filter(WellFormedReason, s.dominantExclusionReasons),
      s.budgetPressure)
  }

  lemma {:induction false} ItemsReadBack(o: Object, key: string, items: seq<SelectionItem>)
    requires if items == [] then key !in o.fields
             else key in o.fields && o.fields[key] == Objs(Mapped(PrintItem, items))
    ensures ReadObjects(ItemFromMeta, o, key) == Filter(WellFormedItem, items)
  {
    forall i | i in items
      ensures ItemFromMeta(PrintItem(i)) == if WellFormedItem(i) then Some(i) else None
    {
      ItemReadBack(i);
    }
    hide ItemFromMeta, PrintItem, WellFormedItem;
    GatherPrinted(ItemFromMeta, PrintItem, WellFormedItem, items);
  }

  lemma {:induction false} ReasonsReadBack(o: Object, key: string, counts: seq<ReasonCount>)
    requires if counts == [] then key !in o.fields
             else key in o.fields && o.fields[key] == Objs(Mapped(PrintReason, counts))
    ensures ReadObjects(ReasonFromMeta, o, key) == Filter(WellFormedReason, counts)
  {
    forall c | c in counts
      ensures ReasonFromMeta(PrintReason(c)) == if WellFormedReason(c) then Some(c) else None
    {
      ReasonReadBack(c);
    }
    hide ReasonFromMeta, PrintReason, WellFormedReason;
    GatherPrinted(ReasonFromMeta, PrintReason, WellFormedReason, counts);
  }

  lemma {:induction false} SelectionReadBack(s: SelectionExplanation)
    ensures SelectionFromMeta(PrintSelection(s)) == KeptSelection(s)
  {
    var o := PrintSelection(s);
    hide PrintItem, PrintReason, Mapped, ReadObjects, Filter;
    ItemsReadBack(o, "included", s.included);
    ItemsReadBack(o, "excluded", s.excluded);
    ReasonsReadBack(o, "dominant_inclusion_reasons", s.dominantInclusionReasons);
    ReasonsReadBack(o, "dominant_exclusion_reasons", s.dominantExclusionReasons);
  }

  function RecoveredSelection(s: Option<SelectionExplanation>): Option<SelectionExplanation> {
    if s.None? || IsEmptySelection(KeptSelection(s.value)) then None else Some(KeptSelection(s.value))
  }

  /** What ListConsultEvents makes of a printed summary. */
  function Recovered(e: EventSummary, kind: Kind): EventSummary {
    e.(outcome := if e.outcome == "" then OutcomeForKind(kind) else e.outcome,
       selection := RecoveredSelection(e.selection))
  }

  lemma {:induction false} StringsReadBack(e: EventSummary)
    ensures var m := PrintSummary(e);
      && ReadMetaString(m, "schema_version") == e.schemaVersion
      && ReadMetaString(m, "fingerprint") == e.fingerprint
      && ReadMetaString(m, "contract_version") == e.contractVersion
  {
    hide PrintSelection;
  }

  lemma {:induction false} OutcomeReadsBack(e: EventSummary)
    ensures var m := PrintSummary(e); ReadMetaString(m, "outcome") == e.outcome && ReadMetaString(m, "role") == e.role
  {
    hide PrintSelection;
  }

  lemma {:induction false} OptionalStringsReadBack(e: EventSummary)
    ensures var m := PrintSummary(e);
      && ReadMetaString(m, "manifest_serializer_version") == e.manifestSerializerVersion
      && ReadMetaString(m, "leader_consult_event_id") == e.leaderConsultEventId
      && ReadMetaString(m, "task_summary") == e.taskSummary
  {
    hide PrintSelection;
  }

  lemma {:induction false} NumbersReadBack(e: EventSummary)
    ensures var m := PrintSummary(e);
      && "byte_budget" in m && m["byte_budget"] == Int(e.byteBudget)
      && "actual_bytes" in m && m["actual_bytes"] == Int(e.actualBytes)
  {
    hide PrintSelection;
  }

  lemma {:induction false} ListsReadBack(e: EventSummary)
    ensures var m := PrintSummary(e);
      && ("missing" in m <==> e.missing != [])
      && ("missing" in m ==> m["missing"] == Strs(e.missing))
      && ("selection" in m <==> e.selection.Some?)
      && ("selection" in m ==> m["selection"] == Obj(PrintSelection(e.selection.value)))
  {
    hide PrintSelection;
  }

  /** Printing a summary and reading it back recovers every scalar field; an outcome that was left
      empty is taken from the event's kind, and the selection keeps its well-formed entries. */
  lemma {:induction false} ConsultRoundTrip(e: EventSummary, ev: Event)
    requires ev.meta == PrintSummary(e)
    ensures ReadConsult(ev) == ConsultEvent(ev.id, ev.sessionId, ev.branchId, ev.kind, ev.refs, Recovered(e, ev.kind))
  {
    StringsReadBack(e);
    OutcomeReadsBack(e);
    OptionalStringsReadBack(e);
    NumbersReadBack(e);
    ListsReadBack(e);
    if e.selection.Some? {
      SelectionReadBack(e.selection.value);
    }
    hide PrintSummary, PrintSelection, ReadMetaString, SelectionFromMeta, KeptSelection;
  }

  predicate WellFormedSelection(s: SelectionExplanation) {
    && (forall i | i in s.included :: WellFormedItem(i))
    && (forall i | i in s.excluded :: WellFormedItem(i))
    && (forall c | c in s.dominantInclusionReasons :: WellFormedReason(c))
    && (forall c | c in s.dominantExclusionReasons :: WellFormedReason(c))
  }

  /** Nothing is lost exactly when the outcome is named and a selection, if there is one, is
      well-formed and not empty. */
  lemma {:induction false} RecoveredExactlyIff(e: EventSummary, kind: Kind)
    requires kind.KindConsultResolved? || kind.KindConsultUnresolved?
    ensures Recovered(e, kind) == e <==>
            && e.outcome != ""
            && (e.selection.Some? ==>
                  var s := e.selection.value;
                  && WellFormedSelection(s)
                  && !(s.included == [] && s.excluded == [] && s.dominantInclusionReasons == []
                       && s.dominantExclusionReasons == [] && !s.budgetPressure))
  {
    if e.selection.Some? {
      var s := e.selection.value;
      FilterKeepsAllIff(WellFormedItem, s.included);
      FilterKeepsAllIff(WellFormedItem, s.excluded);
      FilterKeepsAllIff(WellFormedReason, s.dominantInclusionReasons);
      FilterKeepsAllIff(WellFormedReason, s.dominantExclusionReasons);
      hide Filter, WellFormedItem, WellFormedReason;
    }
  }

  /** The consult list of a log grows by exactly the printed summary. */
  lemma {:induction false} AppendedConsultIsListed(log: seq<Event>, e: EventSummary, ev: Event)
    requires (ev.kind.KindConsultResolved? || ev.kind.KindConsultUnresolved?) && ev.meta == PrintSummary(e)
    ensures Gather(ConsultFact, log + [ev]) == Gather(ConsultFact, log)
      + [ConsultEvent(ev.id, ev.sessionId, ev.branchId, ev.kind, ev.refs, Recovered(e, ev.kind))]
    ensures Recovered(e, ev.kind).outcome ==
      if e.outcome != "" then e.outcome else if ev.kind.KindConsultResolved? then "resolved" else "unresolved"
  {
    ConsultRoundTrip(e, ev);
    hide PrintSummary, ReadConsult;
    assert (log + [ev])[..|log|] == log;
  }

  /** Events of any other kind are not listed. */
  lemma {:induction false} OthersAreNotListed(log: seq<Event>, ev: Event)
    requires !ev.kind.KindConsultResolved? && !ev.kind.KindConsultUnresolved?
    ensures Gather(ConsultFact, log + [ev]) == Gather(ConsultFact, log)
  {
    hide ReadConsult;
    assert (log + [ev])[..|log|] == log;
  }

  // ----- Through JSON -----

  /** encoding/json decodes into `any`: every number becomes a float, every list a []any. */
  function Trip(toFloat: int -> real, v: Value): Value {
    match v
    case Int(n) => Float(toFloat(n))
    case Strs(strs) => List(seq(|strs|, i requires 0 <= i < |strs| => Str(strs[i])))
    case List(items) => List(seq(|items|, i requires 0 <= i < |items| => Trip(toFloat, items[i])))
    case Obj(o) => Obj(TripObject(toFloat, o))
    case Objs(objs) => List(seq(|objs|, i requires 0 <= i < |objs| => Obj(TripObject(toFloat, objs[i]))))
    case _ => v
  }

  function TripObject(toFloat: int -> real, o: Object): Object {
    Object(map k | k in o.fields :: Trip(toFloat, o.fields[k]))
  }

  /** `n` is the same after it was a float64. */
  predicate Survives(toFloat: int -> real, n: int) {
    Truncate(toFloat(n)) == n
  }

  /** Rounding to a float keeps positive numbers positive and others not. */
  ghost predicate KeepsSign(toFloat: int -> real) {
    forall n: int :: Truncate(toFloat(n)) > 0 <==> n > 0
  }

  /** Of the counts only those that the reader keeps matter. */
  predicate CountsSurvive(toFloat: int -> real, s: SelectionExplanation) {
    && (forall c | c in s.dominantInclusionReasons && WellFormedReason(c) :: Survives(toFloat, c.count))
    && (forall c | c in s.dominantExclusionReasons && WellFormedReason(c) :: Survives(toFloat, c.count))
  }

  function Through<T, U, V>(read: U -> V, f: T -> U): T -> V {
    (x: T) => read(f(x))
  }

  /** Reading what an object becomes in JSON. */
  function Tripped<U>(toFloat: int -> real, read: Object -> Option<U>): Object -> Option<U> {
    (o: Object) => read(TripObject(toFloat, o))
  }

  lemma {:induction false} GatherMapped<T, U, V>(read: U -> Option<V>, f: T -> U, s: seq<T>)
    ensures Gather(read, Mapped(f, s)) == Gather(Through(read, f), s)
  {
    if s != [] {
      GatherMapped(read, f, s[..|s| - 1]);
      assert Mapped(f, s)[..|s| - 1] == Mapped(f, s[..|s| - 1]);
    }
  }

  lemma {:induction false} GatherTripped<U>(toFloat: int -> real, read: Object -> Option<U>, objs: seq<Object>)
    ensures Gather(InList(read), Trip(toFloat, Objs(objs)).items) == Gather(Tripped(toFloat, read), objs)
  {
    if objs != [] {
      var init := objs[..|objs| - 1];
      GatherTripped(toFloat, read, init);
      assert Trip(toFloat, Objs(objs)).items[..|objs| - 1] == Trip(toFloat, Objs(init)).items;
    }
  }

  /** Two readers that keep the same elements give the same list exactly when they read each alike. */
  lemma {:induction false} GatherSameIff<T, U>(f: T -> Option<U>, g: T -> Option<U>, s: seq<T>)
    requires forall x | x in s :: f(x).Some? <==> g(x).Some?
    ensures |Gather(f, s)| == |Gather(g, s)|
    ensures Gather(f, s) == Gather(g, s) <==> forall x | x in s :: f(x) == g(x)
  {
    if s != [] {
      var (init, last) := (s[..|s| - 1], s[|s| - 1]);
      assert s == init + [last];
      GatherSameIff(f, g, init);
      assert forall x :: x in s <==> x in init || x == last;
      if f(last).Some? {
        SameSnoc(Gather(f, init), f(last).value, Gather(g, init), g(last).value);
      }
    }
  }

  lemma {:induction false} SameSnoc<T>(a: seq<T>, x: T, b: seq<T>, y: T)
    ensures a + [x] == b + [y] <==> a == b && x == y
  {
    if a + [x] == b + [y] {
      assert a == (a + [x])[..|a + [x]| - 1];
      assert b == (b + [y])[..|b + [y]| - 1];
      assert (a + [x])[|a + [x]| - 1] == (b + [y])[|b + [y]| - 1];
    }
  }

  lemma StringTripped(toFloat: int -> real, o: Object, key: string)
    ensures ReadMetaString(TripObject(toFloat, o).fields, key) == ReadMetaString(o.fields, key)
  {
  }

  lemma {:induction false} ItemTripped(toFloat: int -> real, o: Object)
    ensures ItemFromMeta(TripObject(toFloat, o)) == ItemFromMeta(o)
  {
    StringTripped(toFloat, o, "id");
    StringTripped(toFloat, o, "kind");
    StringTripped(toFloat, o, "reason");
    StringTripped(toFloat, o, "class");
  }

  lemma {:induction false} ReasonTripped(toFloat: int -> real, c: ReasonCount)
    requires KeepsSign(toFloat)
    ensures var (o, t) := (PrintReason(c), TripObject(toFloat, PrintReason(c)));
      && (ReasonFromMeta(t).Some? <==> ReasonFromMeta(o).Some?)
      && (ReasonFromMeta(t) == ReasonFromMeta(o) <==> (WellFormedReason(c) ==> Survives(toFloat, c.count)))
  {
    var o := PrintReason(c);
    StringTripped(toFloat, o, "reason");
    assert ReadMetaString(o.fields, "reason") == c.reason;
    assert o.fields["count"] == Int(c.count);
    assert TripObject(toFloat, o).fields["count"] == Float(toFloat(c.count));
    hide ReadMetaString, TripObject, Truncate;
  }

  lemma TripField(toFloat: int -> real, o: Object, key: string)
    ensures key in TripObject(toFloat, o).fields <==> key in o.fields
    ensures key in o.fields ==> TripObject(toFloat, o).fields[key] == Trip(toFloat, o.fields[key])
  {
  }

  /** The two lists that reading an object list gives, before and after JSON. */
  lemma {:induction false} ObjectsTripped<T, U>(toFloat: int -> real, read: Object -> Option<U>, toMeta: T -> Object,
                                                o: Object, key: string, s: seq<T>)
    requires if s == [] then key !in o.fields else key in o.fields && o.fields[key] == Objs(Mapped(toMeta, s))
    ensures ReadObjects(read, o, key) == Gather(Through(read, toMeta), s)
    ensures ReadObjects(read, TripObject(toFloat, o), key)
      == Gather(Through(Tripped(toFloat, read), toMeta), s)
  {
    TripField(toFloat, o, key);
    hide TripObject, Mapped;
    if s != [] {
      GatherMapped(read, toMeta, s);
      GatherTripped(toFloat, read, Mapped(toMeta, s));
      GatherMapped(Tripped(toFloat, read), toMeta, s);
    }
  }

  lemma {:induction false} GatherExtensional<T, U>(f: T -> Option<U>, g: T -> Option<U>, s: seq<T>)
    requires forall x | x in s :: f(x) == g(x)
    ensures Gather(f, s) == Gather(g, s)
  {
    GatherSameIff(f, g, s);
  }

  lemma {:induction false} ItemsTripped(toFloat: int -> real, o: Object, key: string, items: seq<SelectionItem>)
    requires if items == [] then key !in o.fields
             else key in o.fields && o.fields[key] == Objs(Mapped(PrintItem, items))
    ensures ReadObjects(ItemFromMeta, TripObject(toFloat, o), key) == ReadObjects(ItemFromMeta, o, key)
  {
    forall i | i in items
      ensures ItemFromMeta(TripObject(toFloat, PrintItem(i))) == ItemFromMeta(PrintItem(i))
    {
      ItemTripped(toFloat, PrintItem(i));
    }
    hide ItemFromMeta, PrintItem, TripObject, Mapped, Gather, ReadObjects;
    ObjectsTripped(toFloat, ItemFromMeta, PrintItem, o, key, items);
    GatherExtensional(Through(Tripped(toFloat, ItemFromMeta), PrintItem), Through(ItemFromMeta, PrintItem), items);
  }

  lemma {:induction false} ReasonsTripped(toFloat: int -> real, o: Object, key: string, counts: seq<ReasonCount>)
    requires if counts == [] then key !in o.fields
             else key in o.fields && o.fields[key] == Objs(Mapped(PrintReason, counts))
    requires KeepsSign(toFloat)
    ensures |ReadObjects(ReasonFromMeta, TripObject(toFloat, o), key)| == |ReadObjects(ReasonFromMeta, o, key)|
    ensures ReadObjects(ReasonFromMeta, TripObject(toFloat, o), key) == ReadObjects(ReasonFromMeta, o, key)
      <==> forall c | c in counts && WellFormedReason(c) :: Survives(toFloat, c.count)
  {
    var (f, g) := (Through(Tripped(toFloat, ReasonFromMeta), PrintReason), Through(ReasonFromMeta, PrintReason));
    forall c | c in counts
      ensures f(c).Some? <==> g(c).Some?
      ensures f(c) == g(c) <==> (WellFormedReason(c) ==> Survives(toFloat, c.count))
    {
      ReasonTripped(toFloat, c);
    }
    hide ReasonFromMeta, PrintReason, TripObject, Mapped, Gather, ReadObjects, WellFormedReason, Survives;
    ObjectsTripped(toFloat, ReasonFromMeta, PrintReason, o, key, counts);
    GatherSameIff(f, g, counts);
  }

  lemma {:induction false} SelectionTripped(toFloat: int -> real, s: SelectionExplanation)
    requires KeepsSign(toFloat)
    ensures var (was, now) := (SelectionFromMeta(PrintSelection(s)),
                               SelectionFromMeta(TripObject(toFloat, PrintSelection(s))));
      && (IsEmptySelection(now) <==> IsEmptySelection(was))
      && (IsEmptySelection(was) ==> now == was)
      && (now == was <==> CountsSurvive(toFloat, s))
  {
    var o := PrintSelection(s);
    TripField(toFloat, o, "budget_pressure");
    hide PrintItem, PrintReason, Mapped, ReadObjects, WellFormedReason, Survives;
    ItemsTripped(toFloat, o, "included", s.included);
    ItemsTripped(toFloat, o, "excluded", s.excluded);
    ReasonsTripped(toFloat, o, "dominant_inclusion_reasons", s.dominantInclusionReasons);
    ReasonsTripped(toFloat, o, "dominant_exclusion_reasons", s.dominantExclusionReasons);
    hide TripObject, PrintSelection, KeepsSign;
  }

  lemma {:induction false} StringsTripped(toFloat: int -> real, strs: seq<string>)
    ensures Gather(AsString, Trip(toFloat, Strs(strs)).items) == strs
  {
    if strs != [] {
      var init := strs[..|strs| - 1];
      StringsTripped(toFloat, init);
      assert Trip(toFloat, Strs(strs)).items[..|strs| - 1] == Trip(toFloat, Strs(init)).items;
    }
  }

  lemma IntTripped(toFloat: int -> real, o: Object, key: string, n: int)
    requires key in o.fields && o.fields[key] == Int(n)
    ensures ReadInt(TripObject(toFloat, o).fields, key) == Truncate(toFloat(n))
  {
  }

  lemma {:induction false} MissingTripped(toFloat: int -> real, e: EventSummary)
    ensures var m := PrintSummary(e);
      ReadStrings(TripObject(toFloat, Object(m)).fields, "missing") == ReadStrings(m, "missing")
  {
    ListsReadBack(e);
    StringsTripped(toFloat, e.missing);
    hide PrintSummary;
  }

  predicate SelectionSurvives(toFloat: int -> real, e: EventSummary) {
    e.selection.Some? ==> CountsSurvive(toFloat, e.selection.value)
  }

  lemma {:induction false} SummarySelectionTripped(toFloat: int -> real, e: EventSummary)
    requires KeepsSign(toFloat)
    ensures var m := PrintSummary(e);
      ReadSelection(TripObject(toFloat, Object(m)).fields, "selection") == ReadSelection(m, "selection")
      <==> SelectionSurvives(toFloat, e)
  {
    hide PrintSelection, SelectionFromMeta, IsEmptySelection, CountsSurvive, KeepsSign;
    ListsReadBack(e);
    hide PrintSummary;
    if e.selection.Some? {
      SelectionTripped(toFloat, e.selection.value);
    }
  }

  /** Every number in a summary that the reader makes use of survives. */
  predicate AllSurvive(toFloat: int -> real, e: EventSummary) {
    Survives(toFloat, e.byteBudget) && Survives(toFloat, e.actualBytes) && SelectionSurvives(toFloat, e)
  }

  /** An event as it comes back from a store that keeps metadata as JSON. */
  function TripEvent(toFloat: int -> real): Event -> Event {
    (ev: Event) => ev.(meta := TripObject(toFloat, Object(ev.meta)).fields)
  }

  lemma {:induction false} ConsultTripped(toFloat: int -> real, e: EventSummary, ev: Event)
    requires KeepsSign(toFloat) && ev.meta == PrintSummary(e)
    ensures ReadConsult(TripEvent(toFloat)(ev)) == ReadConsult(ev) <==> AllSurvive(toFloat, e)
  {
    NumbersReadBack(e);
    hide PrintSummary, SelectionSurvives;
    var o := Object(ev.meta);
    IntTripped(toFloat, o, "byte_budget", e.byteBudget);
    IntTripped(toFloat, o, "actual_bytes", e.actualBytes);
    assert ReadInt(ev.meta, "byte_budget") == e.byteBudget && ReadInt(ev.meta, "actual_bytes") == e.actualBytes;
    StringTripped(toFloat, o, "schema_version");
    StringTripped(toFloat, o, "fingerprint");
    StringTripped(toFloat, o, "contract_version");
    StringTripped(toFloat, o, "manifest_serializer_version");
    StringTripped(toFloat, o, "outcome");
    StringTripped(toFloat, o, "role");
    StringTripped(toFloat, o, "leader_consult_event_id");
    StringTripped(toFloat, o, "task_summary");
    MissingTripped(toFloat, e);
    SummarySelectionTripped(toFloat, e);
    hide TripObject, ReadMetaString, ReadInt, ReadStrings, ReadSelection, OutcomeForKind, KeepsSign;
  }

  /** Listing the consults of a log before and after its metadata went through JSON gives the same
      list exactly when every number survives that the reader takes from a consult. */
  lemma {:induction false} ConsultsTripped(toFloat: int -> real, log: seq<Event>, summary: Event -> EventSummary)
    requires KeepsSign(toFloat) && forall ev | ev in log && IsConsult(ev) :: ev.meta == PrintSummary(summary(ev))
    ensures Gather(ConsultFact, Mapped(TripEvent(toFloat), log)) == Gather(ConsultFact, log)
      <==> forall ev | ev in log && IsConsult(ev) :: AllSurvive(toFloat, summary(ev))
  {
    var f := Through(ConsultFact, TripEvent(toFloat));
    forall ev | ev in log
      ensures f(ev).Some? <==> ConsultFact(ev).Some?
      ensures f(ev) == ConsultFact(ev) <==> (IsConsult(ev) ==> AllSurvive(toFloat, summary(ev)))
    {
      if IsConsult(ev) {
        ConsultTripped(toFloat, summary(ev), ev);
      }
      hide ReadConsult;
    }
    hide ConsultFact, AllSurvive, KeepsSign, IsConsult, PrintSummary;
    GatherMapped(ConsultFact, TripEvent(toFloat), log);
    GatherSameIff(f, ConsultFact, log);
  }

  // ----- The integers that a float64 holds -----

  function Magnitude(n: int): nat {
    if n < 0 then -n else n
  }

  /** The distance between neighbouring float64 values at this magnitude: 53 bits of precision. */
  function Spacing(m: nat): (u: nat)
    ensures u >= 1 && (m > 0 ==> u <= m)
  {
    if m < 0x20_0000_0000_0000 then 1 else 2 * Spacing(m / 2)
  }

  /** To the nearest multiple, ties to the even one. */
  function RoundEven(m: nat, u: nat): nat
    requires u >= 1
  {
    var (q, r) := (m / u, m % u);
    if 2 * r < u || (2 * r == u && q % 2 == 0) then q * u else (q + 1) * u
  }

  function Pow2(k: nat): nat {
    if k == 0 then 1 else 2 * Pow2(k - 1)
  }

  /** The spacing is a power of two, and a magnitude from 2^53 on is between 2^52 and 2^53 times as large. */
  lemma {:induction false} SpacingMeans(m: nat) returns (k: nat)
    ensures Spacing(m) == Pow2(k)
    ensures if m < 0x20_0000_0000_0000 then k == 0
            else 0x10_0000_0000_0000 * Spacing(m) <= m < 0x20_0000_0000_0000 * Spacing(m)
  {
    if m < 0x20_0000_0000_0000 {
      k := 0;
    } else {
      k := SpacingMeans(m / 2);
      k := k + 1;
    }
  }

  /** Rounding gives the nearest multiple, and of two that are equally near the even one. */
  lemma {:induction false} RoundEvenMeans(m: nat, u: nat, q: nat)
    requires u >= 1
    ensures RoundEven(m, u) == q * u <==>
      var distance := if q * u <= m then m - q * u else q * u - m;
      2 * distance < u || (2 * distance == u && q % 2 == 0)
  {
    var (p, r) := (m / u, m % u);
    assert m == p * u + r;
    var d: int := q - p;
    assert q * u == p * u + d * u;
    assert (p + 1) * u == p * u + u;
    if d >= 2 {
      assert d * u >= 2 * u by {
        assert (d - 2) * u >= 0;
      }
    } else if d < 0 {
      assert d * u + u <= 0 by {
        assert (-1 - d) * u >= 0;
      }
    }
  }

  function Float64(n: int): real {
    var m := RoundEven(Magnitude(n), Spacing(Magnitude(n)));
    if n < 0 then -(m as real) else m as real
  }

  lemma {:induction false} RoundEvenIs(m: nat, u: nat)
    requires u >= 1
    ensures RoundEven(m, u) == m <==> m % u == 0
    ensures u <= m ==> RoundEven(m, u) > 0
  {
    var (q, r) := (m / u, m % u);
    assert m == q * u + r;
    assert (q + 1) * u == q * u + u;
    if u <= m {
      assert q >= 1;
      assert q * u >= u;
    }
  }

  function Rounded(n: int): int {
    var m: int := RoundEven(Magnitude(n), Spacing(Magnitude(n)));
    if n < 0 then -m else m
  }

  lemma {:induction false} TruncateFloat64(n: int)
    ensures Truncate(Float64(n)) == Rounded(n)
  {
    hide RoundEven, Spacing;
    var m: int := RoundEven(Magnitude(n), Spacing(Magnitude(n)));
    assert (m as real).Floor == m;
    assert -(-(m as real)) == m as real;
  }

  /** Exactly the integers that are multiples of the spacing at their magnitude survive; up to 2^53
      these are all. */
  lemma {:induction false} SurvivesFloat64Iff(n: int)
    ensures Survives(Float64, n) <==> Magnitude(n) % Spacing(Magnitude(n)) == 0
    ensures Magnitude(n) <= 0x20_0000_0000_0000 ==> Survives(Float64, n)
  {
    var m := Magnitude(n);
    TruncateFloat64(n);
    RoundEvenIs(m, Spacing(m));
    assert Spacing(0x20_0000_0000_0000) == 2;
    hide RoundEven, Float64, Truncate;
  }

  lemma {:induction false} Float64KeepsSign()
    ensures KeepsSign(Float64)
  {
    forall n: int
      ensures Truncate(Float64(n)) > 0 <==> n > 0
    {
      TruncateFloat64(n);
      RoundEvenIs(Magnitude(n), Spacing(Magnitude(n)));
    }
  }

  /** Going through JSON, with its float64 numbers, leaves the listed consults of a log alone exactly
      when no number that the reader takes from them is rounded; up to 2^53 none is. */
  lemma {:induction false} ConsultsSurviveJson(log: seq<Event>, summary: Event -> EventSummary)
    requires forall ev | ev in log && IsConsult(ev) :: ev.meta == PrintSummary(summary(ev))
    ensures Gather(ConsultFact, Mapped(TripEvent(Float64), log)) == Gather(ConsultFact, log)
      <==> forall ev | ev in log && IsConsult(ev) :: AllSurvive(Float64, summary(ev))
  {
    Float64KeepsSign();
    hide *;
    ConsultsTripped(Float64, log, summary);
  }
}
