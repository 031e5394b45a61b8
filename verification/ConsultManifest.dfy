/** The consult manifest of internal/consult/manifest.go: a canonical record that carries the
    length of its own JSON text. */
module ConsultManifest {
  import opened GoText
  import opened Sorting
  import opened Canonical
  import opened JsonSize
  import opened JsonText
  import opened ConsultTypes

  datatype Input = Input(
    sessionId: string,
    branchId: string,
    fingerprint: string,
    mode: string,
    scope: string,
    refs: seq<string>,
    constraints: map<string, string>,
    selectedItems: seq<SelectedItem>,
    byteBudget: int,
    compacted: bool,
    truncated: bool,
    taskSummary: string,
    selection: Option<SelectionExplanation>)

  datatype Manifest = Manifest(
    eventId: string,
    sessionId: string,
    branchId: string,
    fingerprint: string,
    mode: string,
    scope: string,
    refs: seq<string>,
    constraints: map<string, string>,
    selectedItems: seq<SelectedItem>,
    byteBudget: int,
    actualBytes: int,
    compacted: bool,
    truncated: bool,
    serializerVersion: string,
    taskSummary: string,
    selection: Option<SelectionExplanation>)

  // ----- Size of the marshalled manifest -----

  function SelectedItemLen(esc: Escape, i: SelectedItem): nat {
    Enclosed(Field("id", Quoted(esc, i.id)) + Field("kind", Quoted(esc, i.kind))
      + OptString(esc, "ref", i.refId) + OptString(esc, "summary_ref", i.summaryRef)
      + OptField(i.bytes != 0, "bytes", Number(i.bytes)) + OptString(esc, "reason", i.reason))
  }

  function SelectionItemLen(esc: Escape, i: SelectionItem): nat {
    Enclosed(Field("id", Quoted(esc, i.id)) + Field("kind", Quoted(esc, i.kind))
      + Field("reason", Quoted(esc, i.reason)) + OptString(esc, "class", i.itemClass))
  }

  function ReasonCountLen(esc: Escape, c: ReasonCount): nat {
    Enclosed(Field("reason", Quoted(esc, c.reason)) + Field("count", Number(c.count)))
  }

  function SelectionLen(esc: Escape, s: SelectionExplanation): nat {
    Enclosed(OptArray("included", i => SelectionItemLen(esc, i), s.included)
      + OptArray("excluded", i => SelectionItemLen(esc, i), s.excluded)
      + OptArray("dominant_inclusion_reasons", c => ReasonCountLen(esc, c), s.dominantInclusionReasons)
      + OptArray("dominant_exclusion_reasons", c => ReasonCountLen(esc, c), s.dominantExclusionReasons)
      + OptField(s.budgetPressure, "budget_pressure", Boolean(true)))
  }

  function EntryLen(esc: Escape, m: map<string, string>, key: string): nat {
    Quoted(esc, key) + 1 + (if key in m then Quoted(esc, m[key]) else 0)
  }

  /** All members but `actual_bytes` and `compacted`. */
  function OtherMembers(esc: Escape, m: Manifest): nat {
    Field("event_id", Quoted(esc, m.eventId)) + Field("session_id", Quoted(esc, m.sessionId))
    + Field("branch_id", Quoted(esc, m.branchId)) + Field("fingerprint", Quoted(esc, m.fingerprint))
    + Field("mode", Quoted(esc, m.mode)) + OptString(esc, "scope", m.scope)
    + OptArray("refs", s => Quoted(esc, s), m.refs)
    + OptArray("constraints", k => EntryLen(esc, m.constraints, k), SortedKeys(m.constraints.Keys))
    + OptArray("selected_items", i => SelectedItemLen(esc, i), m.selectedItems)
    + Field("byte_budget", Number(m.byteBudget)) + Field("truncated", Boolean(m.truncated))
    + Field("serializer_version", Quoted(esc, m.serializerVersion))
    + OptString(esc, "task_summary", m.taskSummary)
    + (if m.selection.Some? then Field("selection", SelectionLen(esc, m.selection.value)) else 0)
  }

  /** len(json.Marshal(m)) */
  function MarshalLen(esc: Escape, m: Manifest): nat {
    Enclosed(OtherMembers(esc, m) + Field("actual_bytes", Number(m.actualBytes))
             + Field("compacted", Boolean(m.compacted)))
  }

  // ----- The text behind the size -----

  function StringText(esc: Escaping): string -> string {
    (s: string) => QuotedText(esc, s)
  }

  function SelectedItemText(esc: Escaping): SelectedItem -> string {
    (i: SelectedItem) => ObjectText(
      [MemberText("id", QuotedText(esc, i.id)), MemberText("kind", QuotedText(esc, i.kind))]
      + Optional(i.refId != "", "ref", QuotedText(esc, i.refId))
      + Optional(i.summaryRef != "", "summary_ref", QuotedText(esc, i.summaryRef))
      + Optional(i.bytes != 0, "bytes", NumberText(i.bytes))
      + Optional(i.reason != "", "reason", QuotedText(esc, i.reason)))
  }

  function SelectionItemText(esc: Escaping): SelectionItem -> string {
    (i: SelectionItem) => ObjectText(
      [MemberText("id", QuotedText(esc, i.id)), MemberText("kind", QuotedText(esc, i.kind))]
      + [MemberText("reason", QuotedText(esc, i.reason))]
      + Optional(i.itemClass != "", "class", QuotedText(esc, i.itemClass)))
  }

  function ReasonCountText(esc: Escaping): ReasonCount -> string {
    (c: ReasonCount) => ObjectText(
      [MemberText("reason", QuotedText(esc, c.reason)), MemberText("count", NumberText(c.count))])
  }

  function SelectionText(esc: Escaping, s: SelectionExplanation): string {
    ObjectText(
      Optional(s.included != [], "included", ArrayText(SelectionItemText(esc), s.included))
      + Optional(s.excluded != [], "excluded", ArrayText(SelectionItemText(esc), s.excluded))
      + Optional(s.dominantInclusionReasons != [], "dominant_inclusion_reasons",
                 ArrayText(ReasonCountText(esc), s.dominantInclusionReasons))
      + Optional(s.dominantExclusionReasons != [], "dominant_exclusion_reasons",
                 ArrayText(ReasonCountText(esc), s.dominantExclusionReasons))
      + Optional(s.budgetPressure, "budget_pressure", BooleanText(s.budgetPressure)))
  }

  function EntryText(esc: Escaping, m: map<string, string>): string -> string {
    (k: string) => QuotedText(esc, k) + ":" + (if k in m then QuotedText(esc, m[k]) else "")
  }

  /** A map of strings marshals with its keys in order. */
  function MapText(esc: Escaping, m: map<string, string>): string {
    ObjectText(Texts(EntryText(esc, m), SortedKeys(m.Keys)))
  }

  function FirstMembers(esc: Escaping, m: Manifest): seq<string> {
    [MemberText("event_id", QuotedText(esc, m.eventId)), MemberText("session_id", QuotedText(esc, m.sessionId))]
    + [MemberText("branch_id", QuotedText(esc, m.branchId)), MemberText("fingerprint", QuotedText(esc, m.fingerprint))]
    + [MemberText("mode", QuotedText(esc, m.mode))]
    + Optional(m.scope != "", "scope", QuotedText(esc, m.scope))
    + Optional(m.refs != [], "refs", ArrayText(StringText(esc), m.refs))
    + Optional(m.constraints != map[], "constraints", MapText(esc, m.constraints))
    + Optional(m.selectedItems != [], "selected_items", ArrayText(SelectedItemText(esc), m.selectedItems))
    + [MemberText("byte_budget", NumberText(m.byteBudget))]
  }

  function LastMembers(esc: Escaping, m: Manifest): seq<string> {
    [MemberText("truncated", BooleanText(m.truncated)),
     MemberText("serializer_version", QuotedText(esc, m.serializerVersion))]
    + Optional(m.taskSummary != "", "task_summary", QuotedText(esc, m.taskSummary))
    + (if m.selection.Some? then [MemberText("selection", SelectionText(esc, m.selection.value))] else [])
  }

  /** json.Marshal(m) */
  function ManifestText(esc: Escaping, m: Manifest): string {
    ObjectText(FirstMembers(esc, m)
      + [MemberText("actual_bytes", NumberText(m.actualBytes)), MemberText("compacted", BooleanText(m.compacted))]
      + LastMembers(esc, m))
  }

  lemma {:induction false} SelectedItemLength(esc: Escaping, i: SelectedItem)
    ensures |SelectedItemText(esc)(i)| == SelectedItemLen(Lengths(esc), i)
  {
    var a := [MemberText("id", QuotedText(esc, i.id)), MemberText("kind", QuotedText(esc, i.kind))];
    var b := Optional(i.refId != "", "ref", QuotedText(esc, i.refId));
    var c := Optional(i.summaryRef != "", "summary_ref", QuotedText(esc, i.summaryRef));
    var d := Optional(i.bytes != 0, "bytes", NumberText(i.bytes));
    var e := Optional(i.reason != "", "reason", QuotedText(esc, i.reason));
    NumberLength(i.bytes);
    TwoMembers("id", QuotedText(esc, i.id), "kind", QuotedText(esc, i.kind));
    OptionalTotal(i.refId != "", "ref", QuotedText(esc, i.refId));
    OptionalTotal(i.summaryRef != "", "summary_ref", QuotedText(esc, i.summaryRef));
    OptionalTotal(i.bytes != 0, "bytes", NumberText(i.bytes));
    OptionalTotal(i.reason != "", "reason", QuotedText(esc, i.reason));
    hide CommaBytes, Optional, MemberText, Commas, NumberText, Number, Enclosed;
    TotalConcat(a, b);
    TotalConcat(a + b, c);
    TotalConcat(a + b + c, d);
    TotalConcat(a + b + c + d, e);
    ObjectLength(a + b + c + d + e);
    hide ObjectText;
  }

  lemma {:induction false} SelectionItemLength(esc: Escaping, i: SelectionItem)
    ensures |SelectionItemText(esc)(i)| == SelectionItemLen(Lengths(esc), i)
  {
    var a := [MemberText("id", QuotedText(esc, i.id)), MemberText("kind", QuotedText(esc, i.kind))];
    var b := [MemberText("reason", QuotedText(esc, i.reason))];
    var c := Optional(i.itemClass != "", "class", QuotedText(esc, i.itemClass));
    TwoMembers("id", QuotedText(esc, i.id), "kind", QuotedText(esc, i.kind));
    MemberTotal("reason", QuotedText(esc, i.reason));
    OptionalTotal(i.itemClass != "", "class", QuotedText(esc, i.itemClass));
    hide CommaBytes, Optional, MemberText, Commas, Enclosed;
    TotalConcat(a, b);
    TotalConcat(a + b, c);
    ObjectLength(a + b + c);
    hide ObjectText;
  }

  lemma {:induction false} ReasonCountLength(esc: Escaping, c: ReasonCount)
    ensures |ReasonCountText(esc)(c)| == ReasonCountLen(Lengths(esc), c)
  {
    NumberLength(c.count);
    TwoMembers("reason", QuotedText(esc, c.reason), "count", NumberText(c.count));
    ObjectLength([MemberText("reason", QuotedText(esc, c.reason)), MemberText("count", NumberText(c.count))]);
    hide CommaBytes, MemberText, ObjectText, Enclosed, NumberText, Number;
  }

  lemma {:induction false} SelectionItemsLength(esc: Escaping, name: string, s: seq<SelectionItem>)
    ensures CommaBytes(Optional(s != [], name, ArrayText(SelectionItemText(esc), s)))
      == OptArray(name, i => SelectionItemLen(Lengths(esc), i), s)
  {
    forall i
      ensures |SelectionItemText(esc)(i)| == SelectionItemLen(Lengths(esc), i)
    {
      SelectionItemLength(esc, i);
    }
    hide SelectionItemText, SelectionItemLen;
    ArrayLength(SelectionItemText(esc), i => SelectionItemLen(Lengths(esc), i), s);
    OptionalTotal(s != [], name, ArrayText(SelectionItemText(esc), s));
    hide CommaBytes, Optional, ArrayText, Array;
  }

  lemma {:induction false} ReasonCountsLength(esc: Escaping, name: string, s: seq<ReasonCount>)
    ensures CommaBytes(Optional(s != [], name, ArrayText(ReasonCountText(esc), s)))
      == OptArray(name, c => ReasonCountLen(Lengths(esc), c), s)
  {
    forall c
      ensures |ReasonCountText(esc)(c)| == ReasonCountLen(Lengths(esc), c)
    {
      ReasonCountLength(esc, c);
    }
    hide ReasonCountText, ReasonCountLen;
    ArrayLength(ReasonCountText(esc), c => ReasonCountLen(Lengths(esc), c), s);
    OptionalTotal(s != [], name, ArrayText(ReasonCountText(esc), s));
    hide CommaBytes, Optional, ArrayText, Array;
  }

  lemma {:induction false} SelectionLength(esc: Escaping, s: SelectionExplanation)
    ensures |SelectionText(esc, s)| == SelectionLen(Lengths(esc), s)
  {
    var a := Optional(s.included != [], "included", ArrayText(SelectionItemText(esc), s.included));
    var b := Optional(s.excluded != [], "excluded", ArrayText(SelectionItemText(esc), s.excluded));
    var c := Optional(s.dominantInclusionReasons != [], "dominant_inclusion_reasons",
                      ArrayText(ReasonCountText(esc), s.dominantInclusionReasons));
    var d := Optional(s.dominantExclusionReasons != [], "dominant_exclusion_reasons",
                      ArrayText(ReasonCountText(esc), s.dominantExclusionReasons));
    var e := Optional(s.budgetPressure, "budget_pressure", BooleanText(s.budgetPressure));
    OptionalTotal(s.budgetPressure, "budget_pressure", BooleanText(s.budgetPressure));
    hide CommaBytes, Optional, Commas, ArrayText, Enclosed, OptArray, SelectionItemText, SelectionItemLen,
      ReasonCountText, ReasonCountLen;
    SelectionItemsLength(esc, "included", s.included);
    SelectionItemsLength(esc, "excluded", s.excluded);
    ReasonCountsLength(esc, "dominant_inclusion_reasons", s.dominantInclusionReasons);
    ReasonCountsLength(esc, "dominant_exclusion_reasons", s.dominantExclusionReasons);
    TotalConcat(a, b);
    TotalConcat(a + b, c);
    TotalConcat(a + b + c, d);
    TotalConcat(a + b + c + d, e);
    ObjectLength(a + b + c + d + e);
    hide ObjectText;
  }

  lemma {:induction false} StringsLength(esc: Escaping, name: string, s: seq<string>)
    ensures CommaBytes(Optional(s != [], name, ArrayText(StringText(esc), s)))
      == OptArray(name, x => Quoted(Lengths(esc), x), s)
  {
    ArrayLength(StringText(esc), (x: string) => Quoted(Lengths(esc), x), s);
    OptionalTotal(s != [], name, ArrayText(StringText(esc), s));
    hide CommaBytes, Optional, ArrayText, Array;
  }

  lemma {:induction false} SelectedItemsLength(esc: Escaping, name: string, s: seq<SelectedItem>)
    ensures CommaBytes(Optional(s != [], name, ArrayText(SelectedItemText(esc), s)))
      == OptArray(name, i => SelectedItemLen(Lengths(esc), i), s)
  {
    forall i
      ensures |SelectedItemText(esc)(i)| == SelectedItemLen(Lengths(esc), i)
    {
      SelectedItemLength(esc, i);
    }
    hide SelectedItemText, SelectedItemLen;
    ArrayLength(SelectedItemText(esc), i => SelectedItemLen(Lengths(esc), i), s);
    OptionalTotal(s != [], name, ArrayText(SelectedItemText(esc), s));
    hide CommaBytes, Optional, ArrayText, Array;
  }

  lemma {:induction false} MapLength(esc: Escaping, m: map<string, string>)
    ensures CommaBytes(Optional(m != map[], "constraints", MapText(esc, m)))
      == OptArray("constraints", k => EntryLen(Lengths(esc), m, k), SortedKeys(m.Keys))
  {
    var keys := SortedKeys(m.Keys);
    assert keys == [] <==> m == map[];
    TextsTotal(EntryText(esc, m), k => EntryLen(Lengths(esc), m, k), keys);
    ObjectLength(Texts(EntryText(esc, m), keys));
    OptionalTotal(m != map[], "constraints", MapText(esc, m));
    hide CommaBytes, Optional, ObjectText, Texts;
  }

  lemma {:induction false} FirstLength(esc: Escaping, m: Manifest)
    ensures var l := Lengths(esc);
      CommaBytes(FirstMembers(esc, m)) ==
        Field("event_id", Quoted(l, m.eventId)) + Field("session_id", Quoted(l, m.sessionId))
        + Field("branch_id", Quoted(l, m.branchId)) + Field("fingerprint", Quoted(l, m.fingerprint))
        + Field("mode", Quoted(l, m.mode)) + OptString(l, "scope", m.scope)
        + OptArray("refs", s => Quoted(l, s), m.refs)
        + OptArray("constraints", k => EntryLen(l, m.constraints, k), SortedKeys(m.constraints.Keys))
        + OptArray("selected_items", i => SelectedItemLen(l, i), m.selectedItems)
        + Field("byte_budget", Number(m.byteBudget))
  {
    var a := [MemberText("event_id", QuotedText(esc, m.eventId)),
              MemberText("session_id", QuotedText(esc, m.sessionId))];
    var b := [MemberText("branch_id", QuotedText(esc, m.branchId)),
              MemberText("fingerprint", QuotedText(esc, m.fingerprint))];
    var c := [MemberText("mode", QuotedText(esc, m.mode))];
    var d := Optional(m.scope != "", "scope", QuotedText(esc, m.scope));
    var e := Optional(m.refs != [], "refs", ArrayText(StringText(esc), m.refs));
    var f := Optional(m.constraints != map[], "constraints", MapText(esc, m.constraints));
    var g := Optional(m.selectedItems != [], "selected_items", ArrayText(SelectedItemText(esc), m.selectedItems));
    var h := [MemberText("byte_budget", NumberText(m.byteBudget))];
    TwoMembers("event_id", QuotedText(esc, m.eventId), "session_id", QuotedText(esc, m.sessionId));
    TwoMembers("branch_id", QuotedText(esc, m.branchId), "fingerprint", QuotedText(esc, m.fingerprint));
    MemberTotal("mode", QuotedText(esc, m.mode));
    OptionalTotal(m.scope != "", "scope", QuotedText(esc, m.scope));
    NumberLength(m.byteBudget);
    MemberTotal("byte_budget", NumberText(m.byteBudget));
    hide CommaBytes, Optional, MemberText, ArrayText, MapText, NumberText, Number, OptArray, SelectedItemText,
      SelectedItemLen, EntryLen;
    StringsLength(esc, "refs", m.refs);
    MapLength(esc, m.constraints);
    SelectedItemsLength(esc, "selected_items", m.selectedItems);
    TotalConcat(a, b);
    TotalConcat(a + b, c);
    TotalConcat(a + b + c, d);
    TotalConcat(a + b + c + d, e);
    TotalConcat(a + b + c + d + e, f);
    TotalConcat(a + b + c + d + e + f, g);
    TotalConcat(a + b + c + d + e + f + g, h);
  }

  lemma {:induction false} LastLength(esc: Escaping, m: Manifest)
    ensures var l := Lengths(esc);
      CommaBytes(LastMembers(esc, m)) ==
        Field("truncated", Boolean(m.truncated)) + Field("serializer_version", Quoted(l, m.serializerVersion))
        + OptString(l, "task_summary", m.taskSummary)
        + (if m.selection.Some? then Field("selection", SelectionLen(l, m.selection.value)) else 0)
  {
    var a := [MemberText("truncated", BooleanText(m.truncated)),
              MemberText("serializer_version", QuotedText(esc, m.serializerVersion))];
    var b := Optional(m.taskSummary != "", "task_summary", QuotedText(esc, m.taskSummary));
    var c := if m.selection.Some? then [MemberText("selection", SelectionText(esc, m.selection.value))] else [];
    TwoMembers("truncated", BooleanText(m.truncated), "serializer_version", QuotedText(esc, m.serializerVersion));
    OptionalTotal(m.taskSummary != "", "task_summary", QuotedText(esc, m.taskSummary));
    assert CommaBytes([]) == 0;
    hide CommaBytes, Optional, MemberText, SelectionText, SelectionLen;
    if m.selection.Some? {
      SelectionLength(esc, m.selection.value);
      MemberTotal("selection", SelectionText(esc, m.selection.value));
    }
    TotalConcat(a, b);
    TotalConcat(a + b, c);
  }

  /** The size of a manifest is the length of its JSON text. */
  lemma {:induction false} MarshalLenIsLength(esc: Escaping, m: Manifest)
    ensures |ManifestText(esc, m)| == MarshalLen(Lengths(esc), m)
  {
    var a := FirstMembers(esc, m);
    var b := [MemberText("actual_bytes", NumberText(m.actualBytes)), MemberText("compacted", BooleanText(m.compacted))];
    var c := LastMembers(esc, m);
    NumberLength(m.actualBytes);
    TwoMembers("actual_bytes", NumberText(m.actualBytes), "compacted", BooleanText(m.compacted));
    hide CommaBytes, FirstMembers, LastMembers, MemberText, NumberText, Number, OptArray, SelectionLen, SelectedItemLen,
      EntryLen, Enclosed;
    FirstLength(esc, m);
    LastLength(esc, m);
    TotalConcat(a, b);
    TotalConcat(a + b, c);
    ObjectLength(a + b + c);
    hide ObjectText;
  }

  /** What is left of the length when the digits of `actual_bytes` are not counted. */
  function Base(esc: Escape, m: Manifest): (b: nat) {
    OtherMembers(esc, m) + Field("actual_bytes", 0) + Field("compacted", Boolean(m.compacted)) + 1
  }

  /** The manifest's length depends on the number it carries only through that number's digits. */
  lemma {:induction false} MarshalLenSplits(esc: Escape, m: Manifest, n: nat)
    ensures MarshalLen(esc, m.(actualBytes := n)) == Base(esc, m) + Digits(n)
    ensures Base(esc, m.(actualBytes := n)) == Base(esc, m)
  {
    var k := m.(actualBytes := n);
    assert OtherMembers(esc, k) == OtherMembers(esc, m);
  }

  // ----- The length that describes itself -----

  predicate IsFixpoint(base: nat, n: nat) {
    n == base + Digits(n)
  }

  ghost predicate IsLeastFixpoint(base: nat, n: nat) {
    IsFixpoint(base, n) && forall k: nat | k < n :: !IsFixpoint(base, k)
  }

  /** The number carried by the candidate before marshal number `i`. */
  function Iterate(base: nat, i: nat): nat {
    if i == 0 then 0 else base + Digits(Iterate(base, i - 1))
  }

  /** Three marshals always reach the fixpoint, so a fourth one confirms it. */
  lemma {:induction false} ThreeMarshalsReachIt(base: nat)
    ensures IsFixpoint(base, Iterate(base, 3))
  {
    var n1, n2, n3 := base + 1, base + Digits(base + 1), base + Digits(base + Digits(base + 1));
    assert Iterate(base, 1) == n1;
    assert Iterate(base, 2) == n2;
    assert Iterate(base, 3) == n3;
    DigitsBelow(n1);
    DigitsMonotone(n1, n2);
    DigitsMonotone(n2, n3);
    DigitsStep(n1, n2 - n1);
    DigitsStep(n1, n3 - n1);
  }

  /** No fixpoint lies below an iterate. */
  lemma {:induction false} IteratesStayBelow(base: nat, i: nat, n: nat)
    requires IsFixpoint(base, n)
    ensures Iterate(base, i) <= n
  {
    if i > 0 {
      IteratesStayBelow(base, i - 1, n);
      DigitsMonotone(Iterate(base, i - 1), n);
    }
  }

  lemma {:induction false} LeastIsIterate(base: nat, i: nat)
    requires IsFixpoint(base, Iterate(base, i))
    ensures IsLeastFixpoint(base, Iterate(base, i))
  {
    forall k: nat | k < Iterate(base, i)
      ensures !IsFixpoint(base, k)
    {
      if IsFixpoint(base, k) {
        IteratesStayBelow(base, i, k);
      }
    }
  }

  /** A manifest can describe itself with two different lengths; the least one is taken. */
  lemma {:induction false} TwoFixpoints()
    ensures IsFixpoint(996, 999) && IsFixpoint(996, 1000)
    ensures IsLeastFixpoint(996, 999)
  {
    assert Digits(997) == Digits(999) == 3 && Digits(1000) == 4;
    assert Iterate(996, 1) == 997 && Iterate(996, 2) == 999;
    LeastIsIterate(996, 2);
  }

  /** The length that measuredBytes settles on. */
  function SelfLength(esc: Escape, m: Manifest): (n: nat)
    ensures IsLeastFixpoint(Base(esc, m), n)
  {
    ThreeMarshalsReachIt(Base(esc, m));
    LeastIsIterate(Base(esc, m), 3);
    Iterate(Base(esc, m), 3)
  }

  /** measuredBytes. `marshals` counts the calls of json.Marshal; the loop's own bound of eight is
      never exhausted. */
  method MeasuredBytes(esc: Escape, m: Manifest) returns (n: int, ghost marshals: nat)
    ensures n == SelfLength(esc, m)
    ensures MarshalLen(esc, m.(actualBytes := n)) == n
    ensures marshals <= 4
  {
    hide OtherMembers;
    var candidate := m.(actualBytes := 0);
    ghost var base := Base(esc, m);
    ThreeMarshalsReachIt(base);
    marshals := 0;
    var i := 0;
    while i < 8
      invariant 0 <= i <= 3 && marshals == i
      invariant candidate == m.(actualBytes := Iterate(base, i))
      decreases 8 - i
    {
      MarshalLenSplits(esc, m, Iterate(base, i));
      var length := MarshalLen(esc, candidate);
      marshals := marshals + 1;
      if candidate.actualBytes == length {
        LeastIsIterate(base, i);
        SameLeast(base, length, SelfLength(esc, m));
        return length, marshals;
      }
      candidate := candidate.(actualBytes := length);
      i := i + 1;
    }
    n := candidate.actualBytes;
    assert false;
  }

  lemma {:induction false} SameLeast(base: nat, a: nat, b: nat)
    requires IsLeastFixpoint(base, a) && IsLeastFixpoint(base, b)
    ensures a == b
  {
    assert !(a < b) && !(b < a);
  }

  /** Two less has a digit less. */
  predicate LosesDigit(n: nat) {
    n >= 2 && Digits(n - 2) < Digits(n)
  }

  /** Setting `compacted` shortens the text by one byte, and by one more exactly when a digit goes too. */
  lemma {:induction false} FlipShortens(esc: Escape, m: Manifest)
    requires !m.compacted
    ensures var n := SelfLength(esc, m);
      SelfLength(esc, m.(compacted := true)) == n - (if LosesDigit(n) then 2 else 1)
  {
    var base := Base(esc, m);
    FlippedBase(esc, m);
    hide OtherMembers, Base, SelfLength;
    ShorterBase(base, SelfLength(esc, m), SelfLength(esc, m.(compacted := true)));
  }

  lemma {:induction false} FlippedBase(esc: Escape, m: Manifest)
    requires !m.compacted
    ensures Base(esc, m.(compacted := true)) == Base(esc, m) - 1
  {
    assert OtherMembers(esc, m.(compacted := true)) == OtherMembers(esc, m);
    hide OtherMembers;
  }

  lemma {:induction false} ShorterBase(base: nat, n: nat, shorter: nat)
    requires base > 0 && IsLeastFixpoint(base, n) && IsLeastFixpoint(base - 1, shorter)
    ensures shorter == n - (if LosesDigit(n) then 2 else 1)
  {
    NearBase(base, n, shorter);
    if n > 2 {
      DigitsStep(n - 2, 2);
    }
    if LosesDigit(n) {
      assert IsFixpoint(base - 1, n - 2);
    }
  }

  lemma {:induction false} NearBase(base: nat, n: nat, shorter: nat)
    requires base > 0 && IsLeastFixpoint(base, n) && IsLeastFixpoint(base - 1, shorter)
    ensures n - 2 <= shorter <= n - 1
  {
    ThreeMarshalsReachIt(base - 1);
    LeastIsIterate(base - 1, 3);
    SameLeast(base - 1, shorter, Iterate(base - 1, 3));
    IteratesOrdered(base, 3);
    IteratesStayBelow(base, 3, n);
    DigitsMonotone(shorter, n);
    DigitsSmall(n);
    DigitsStep(shorter, n - shorter);
  }

  lemma {:induction false} IteratesOrdered(base: nat, i: nat)
    requires base > 0
    ensures Iterate(base - 1, i) <= Iterate(base, i)
  {
    if i > 0 {
      IteratesOrdered(base, i - 1);
      DigitsMonotone(Iterate(base - 1, i - 1), Iterate(base, i - 1));
    }
  }

  // ----- Canonical lists -----

  function NormRef(r: string): Normal<string> {
    if TrimSpace(r) == "" then Skip else Keep(TrimSpace(r))
  }

  function NormSelectedItem(i: SelectedItem): Normal<SelectedItem> {
    var id, kind := TrimSpace(i.id), TrimSpace(i.kind);
    if id == "" || kind == "" || i.bytes < 0 then Reject
    else Keep(SelectedItem(id, kind, TrimSpace(i.refId), TrimSpace(i.summaryRef), i.bytes, TrimSpace(i.reason)))
  }

  function NormSelectionItem(i: SelectionItem): Normal<SelectionItem> {
    var id, kind, reason := TrimSpace(i.id), TrimSpace(i.kind), TrimSpace(i.reason);
    if id == "" || kind == "" || reason == "" then Reject
    else Keep(SelectionItem(id, kind, reason, TrimSpace(i.itemClass)))
  }

  function NormReasonCount(c: ReasonCount): Normal<ReasonCount> {
    var code := TrimSpace(c.reason);
    if code == "" || c.count <= 0 then Reject else Keep(ReasonCount(code, c.count))
  }

  function SelectedItemOrder(): (SelectedItem, SelectedItem) -> bool {
    By((i: SelectedItem) => i.id, By((i: SelectedItem) => i.kind, By((i: SelectedItem) => i.refId,
    By((i: SelectedItem) => i.summaryRef, By((i: SelectedItem) => i.reason, ByNumber((i: SelectedItem) => i.bytes))))))
  }

  function SelectionItemOrder(): (SelectionItem, SelectionItem) -> bool {
    By((i: SelectionItem) => i.id, By((i: SelectionItem) => i.kind,
    By((i: SelectionItem) => i.reason, ByString((i: SelectionItem) => i.itemClass))))
  }

  /** Most frequent reason first. */
  function ReasonCountOrder(): (ReasonCount, ReasonCount) -> bool {
    ByNumberThen((c: ReasonCount) => -c.count, ByString((c: ReasonCount) => c.reason))
  }

  /** The comparators look at every field, so no two different entries tie. */
  lemma {:induction false} SelectedItemOrderTotal()
    ensures Total(SelectedItemOrder())
  {
    var k1, k2, k3 := (i: SelectedItem) => i.id, (i: SelectedItem) => i.kind, (i: SelectedItem) => i.refId;
    var k4, k5, k6 := (i: SelectedItem) => i.summaryRef, (i: SelectedItem) => i.reason, (i: SelectedItem) => i.bytes;
    var o6 := ByNumber(k6);
    assert StrictOrder(o6);
    ByIsOrder(k5, o6);
    ByIsOrder(k4, By(k5, o6));
    ByIsOrder(k3, By(k4, By(k5, o6)));
    ByIsOrder(k2, By(k3, By(k4, By(k5, o6))));
    ByIsOrder(k1, By(k2, By(k3, By(k4, By(k5, o6)))));
    var o := SelectedItemOrder();
    assert o == By(k1, By(k2, By(k3, By(k4, By(k5, o6)))));
    forall x, y | x != y
      ensures o(x, y) || o(y, x)
    {
      assert Tie(o, x, y) ==> Tie(o6, x, y);
    }
  }

  lemma {:induction false} SelectionItemOrderTotal()
    ensures Total(SelectionItemOrder())
  {
    var k1, k2 := (i: SelectionItem) => i.id, (i: SelectionItem) => i.kind;
    var k3, k4 := (i: SelectionItem) => i.reason, (i: SelectionItem) => i.itemClass;
    ByStringIsOrder(k4);
    ByIsOrder(k3, ByString(k4));
    ByIsOrder(k2, By(k3, ByString(k4)));
    ByIsOrder(k1, By(k2, By(k3, ByString(k4))));
    var o := SelectionItemOrder();
    assert o == By(k1, By(k2, By(k3, ByString(k4))));
    forall x, y | x != y
      ensures o(x, y) || o(y, x)
    {
      assert Tie(o, x, y) ==> Tie(ByString(k4), x, y);
    }
  }

  lemma {:induction false} ReasonCountOrderTotal()
    ensures Total(ReasonCountOrder())
  {
    var k1, k2 := (c: ReasonCount) => -c.count, (c: ReasonCount) => c.reason;
    ByStringIsOrder(k2);
    ByNumberThenIsOrder(k1, ByString(k2));
    var o := ReasonCountOrder();
    assert o == ByNumberThen(k1, ByString(k2));
    forall x, y | x != y
      ensures o(x, y) || o(y, x)
    {
      assert Tie(o, x, y) ==> Tie(ByString(k2), x, y);
    }
  }

  lemma {:induction false} NormalisersSettle()
    ensures Settles(NormRef) && Settles(NormSelectedItem) && Settles(NormSelectionItem) && Settles(NormReasonCount)
  {
    forall s
      ensures TrimSpace(TrimSpace(s)) == TrimSpace(s)
    {
      TrimSpaceIdempotent(s);
    }
    hide TrimSpace;
  }

  function NormSelection(s: SelectionExplanation): Option<SelectionExplanation> {
    var included := Canon(NormSelectionItem, SelectionItemOrder(), s.included);
    var excluded := Canon(NormSelectionItem, SelectionItemOrder(), s.excluded);
    var inReasons := Canon(NormReasonCount, ReasonCountOrder(), s.dominantInclusionReasons);
    var outReasons := Canon(NormReasonCount, ReasonCountOrder(), s.dominantExclusionReasons);
    if included.None? || excluded.None? || inReasons.None? || outReasons.None? then None
    else Some(SelectionExplanation(included.value, excluded.value, inReasons.value, outReasons.value, s.budgetPressure))
  }

  method NormalizeSelectionExplanation(s: SelectionExplanation) returns (r: Option<SelectionExplanation>)
    ensures r == NormSelection(s)
  {
    SelectionItemOrderTotal();
    ReasonCountOrderTotal();
    var included := NormalizeList(NormSelectionItem, SelectionItemOrder(), s.included);
    if included.None? {
      return None;
    }
    var excluded := NormalizeList(NormSelectionItem, SelectionItemOrder(), s.excluded);
    if excluded.None? {
      return None;
    }
    var inReasons := NormalizeList(NormReasonCount, ReasonCountOrder(), s.dominantInclusionReasons);
    if inReasons.None? {
      return None;
    }
    var outReasons := NormalizeList(NormReasonCount, ReasonCountOrder(), s.dominantExclusionReasons);
    if outReasons.None? {
      return None;
    }
    r := Some(SelectionExplanation(included.value, excluded.value, inReasons.value, outReasons.value,
                                   s.budgetPressure));
  }

  // ----- Generate -----

  /** The manifest before its length is measured. */
  function Draft(input: Input, refs: seq<string>, constraints: map<string, string>, items: seq<SelectedItem>,
                 selection: Option<SelectionExplanation>): Manifest
  {
    Manifest("", TrimSpace(input.sessionId), TrimSpace(input.branchId), TrimSpace(input.fingerprint),
             TrimSpace(input.mode),
             TrimSpace(input.scope), refs, constraints, items, input.byteBudget, 0, input.compacted, input.truncated,
             SERIALIZER_VERSION_V1, TrimSpace(input.taskSummary), selection)
  }

  /** Measure, and mark as compacted what exceeds a positive budget. */
  function Sealed(esc: Escape, m: Manifest): Manifest {
    var n := SelfLength(esc, m);
    if m.byteBudget > 0 && n > m.byteBudget then
      var c := m.(compacted := true);
      c.(actualBytes := SelfLength(esc, c))
    else m.(actualBytes := n)
  }

  function Drafted(input: Input, order: seq<string>): Option<Manifest>
    requires forall k | k in order :: k in input.constraints
  {
    var refs := Canon(NormRef, StrLess, input.refs);
    var constraints := Trimmed(input.constraints, order);
    var items := Canon(NormSelectedItem, SelectedItemOrder(), input.selectedItems);
    var selection := if input.selection.None? then None else NormSelection(input.selection.value);
    if TrimSpace(input.sessionId) == "" || TrimSpace(input.branchId) == "" || TrimSpace(input.fingerprint) == ""
       || TrimSpace(input.mode) == "" || input.byteBudget < 0 || refs.None? || constraints.None? || items.None?
       || (input.selection.Some? && selection.None?) then None
    else Some(Draft(input, refs.value, constraints.value, items.value, selection))
  }

  /** What Generate returns when it happens to visit the constraints in the given order; None is
      ErrMalformedInput. */
  function Generated(esc: Escape, input: Input, order: seq<string>): Option<Manifest>
    requires forall k | k in order :: k in input.constraints
  {
    var m := Drafted(input, order);
    if m.None? then None else Some(Sealed(esc, m.value))
  }

  method Generate(esc: Escape, input: Input) returns (r: Option<Manifest>)
    ensures exists order :: IsOrderOf(input.constraints, order) && Generated(esc, input, order) == r
  {
    hide OtherMembers, TrimSpace, NormSelection, Canon, Trimmed;
    var sessionId, branchId := TrimSpace(input.sessionId), TrimSpace(input.branchId);
    var fingerprint, mode := TrimSpace(input.fingerprint), TrimSpace(input.mode);
    if sessionId == "" || branchId == "" || fingerprint == "" || mode == "" || input.byteBudget < 0 {
      ghost var order := AnOrder(input.constraints, input.constraints.Keys);
      assert IsOrderOf(input.constraints, order) && Generated(esc, input, order) == None;
      return None;
    }
    StrLessTotal();
    SelectedItemOrderTotal();
    var refs := NormalizeList(NormRef, StrLess, input.refs);
    var constraints := NormalizeConstraints(input.constraints);
    ghost var order :| IsOrderOf(input.constraints, order) && Trimmed(input.constraints, order) == constraints;
    var items := NormalizeList(NormSelectedItem, SelectedItemOrder(), input.selectedItems);
    hide StrictOrder, Total, IsOrderOf;
    if refs.None? || constraints.None? || items.None? {
      assert Generated(esc, input, order) == None;
      return None;
    }
    var selection: Option<SelectionExplanation> := None;
    if input.selection.Some? {
      selection := NormalizeSelectionExplanation(input.selection.value);
      if selection.None? {
        assert Generated(esc, input, order) == None;
        return None;
      }
    }
    var m := Seal(esc, Draft(input, refs.value, constraints.value, items.value, selection));
    assert Generated(esc, input, order) == Some(m);
    r := Some(m);
  }

  /** Measures the draft, and measures again if it has to be marked. */
  method Seal(esc: Escape, draft: Manifest) returns (m: Manifest)
    ensures m == Sealed(esc, draft)
  {
    hide OtherMembers;
    ghost var marshals;
    var actual: int;
    actual, marshals := MeasuredBytes(esc, draft);
    m := draft.(actualBytes := actual);
    if m.byteBudget > 0 && m.actualBytes > m.byteBudget {
      m := m.(compacted := true);
      SelfLengthIgnoresActual(esc, draft.(compacted := true), actual);
      actual, marshals := MeasuredBytes(esc, m);
      m := m.(actualBytes := actual);
    }
  }

  lemma {:induction false} SelfLengthIgnoresActual(esc: Escape, m: Manifest, n: nat)
    ensures SelfLength(esc, m.(actualBytes := n)) == SelfLength(esc, m)
  {
    MarshalLenSplits(esc, m, n);
  }

  // ----- What a generated manifest promises -----

  ghost predicate AcceptableSelection(s: SelectionExplanation) {
    && (forall i | i in s.included + s.excluded ::
          TrimSpace(i.id) != "" && TrimSpace(i.kind) != "" && TrimSpace(i.reason) != "")
    && (forall c | c in s.dominantInclusionReasons + s.dominantExclusionReasons ::
        TrimSpace(c.reason) != "" && c.count > 0)
  }

  ghost predicate Acceptable(input: Input) {
    && TrimSpace(input.sessionId) != "" && TrimSpace(input.branchId) != ""
    && TrimSpace(input.fingerprint) != "" && TrimSpace(input.mode) != ""
    && input.byteBudget >= 0 && !HasBlankKey(input.constraints)
    && (forall i | i in input.selectedItems :: TrimSpace(i.id) != "" && TrimSpace(i.kind) != "" && i.bytes >= 0)
    && (input.selection.Some? ==> AcceptableSelection(input.selection.value))
  }

  lemma {:induction false} NormSelectionFailsIff(s: SelectionExplanation)
    ensures NormSelection(s).Some? <==> AcceptableSelection(s)
  {
    hide TrimSpace;
    CollectFailsIff(NormSelectionItem, s.included);
    CollectFailsIff(NormSelectionItem, s.excluded);
    CollectFailsIff(NormReasonCount, s.dominantInclusionReasons);
    CollectFailsIff(NormReasonCount, s.dominantExclusionReasons);
    hide Collect, Sort;
    assert forall i :: i in s.included + s.excluded <==> i in s.included || i in s.excluded;
    assert forall c :: c in s.dominantInclusionReasons + s.dominantExclusionReasons
                       <==> c in s.dominantInclusionReasons || c in s.dominantExclusionReasons;
  }

  /** Generate refuses exactly the malformed inputs, whatever order it visits the constraints in. */
  lemma {:induction false} GenerateSucceedsIff(esc: Escape, input: Input, order: seq<string>)
    requires IsOrderOf(input.constraints, order)
    ensures Generated(esc, input, order).Some? <==> Acceptable(input)
  {
    hide TrimSpace, Trimmed;
    CollectFailsIff(NormRef, input.refs);
    CollectFailsIff(NormSelectedItem, input.selectedItems);
    TrimmedFailsIff(input.constraints, order);
    if input.selection.Some? {
      NormSelectionFailsIff(input.selection.value);
    }
    hide Collect, Sort, NormSelection, AcceptableSelection;
  }

  function TrimmedItem(): SelectedItem -> SelectedItem {
    (i: SelectedItem) => SelectedItem(TrimSpace(i.id), TrimSpace(i.kind), TrimSpace(i.refId), TrimSpace(i.summaryRef),
                                      i.bytes, TrimSpace(i.reason))
  }

  function TrimmedSelectionItem(): SelectionItem -> SelectionItem {
    (i: SelectionItem) => SelectionItem(TrimSpace(i.id), TrimSpace(i.kind), TrimSpace(i.reason), TrimSpace(i.itemClass))
  }

  function TrimmedCount(): ReasonCount -> ReasonCount {
    (c: ReasonCount) => ReasonCount(TrimSpace(c.reason), c.count)
  }

  function NotBlank(): string -> bool {
    (s: string) => TrimSpace(s) != ""
  }

  /** An explanation is trimmed entry by entry, and each of its lists sorted. */
  ghost predicate SelectionIsTrimmed(s: SelectionExplanation, r: SelectionExplanation) {
    && IsSorting(SelectionItemOrder(), Mapped(TrimmedSelectionItem(), s.included), r.included)
    && IsSorting(SelectionItemOrder(), Mapped(TrimmedSelectionItem(), s.excluded), r.excluded)
    && IsSorting(ReasonCountOrder(), Mapped(TrimmedCount(), s.dominantInclusionReasons), r.dominantInclusionReasons)
    && IsSorting(ReasonCountOrder(), Mapped(TrimmedCount(), s.dominantExclusionReasons), r.dominantExclusionReasons)
    && r.budgetPressure == s.budgetPressure
  }

  lemma {:induction false} NormSelectionMeans(s: SelectionExplanation)
    requires NormSelection(s).Some?
    ensures SelectionIsTrimmed(s, NormSelection(s).value)
  {
    SelectionItemOrderTotal();
    ReasonCountOrderTotal();
    CanonMeans(NormSelectionItem, SelectionItemOrder(), Everything(), TrimmedSelectionItem(), s.included);
    CanonMeans(NormSelectionItem, SelectionItemOrder(), Everything(), TrimmedSelectionItem(), s.excluded);
    CanonMeans(NormReasonCount, ReasonCountOrder(), Everything(), TrimmedCount(), s.dominantInclusionReasons);
    CanonMeans(NormReasonCount, ReasonCountOrder(), Everything(), TrimmedCount(), s.dominantExclusionReasons);
    FilterEverything(s.included);
    FilterEverything(s.excluded);
    FilterEverything(s.dominantInclusionReasons);
    FilterEverything(s.dominantExclusionReasons);
    hide Canon, Total, StrictOrder, IsSorting, SelectionItemOrder, ReasonCountOrder;
  }

  /** Field by field, what a generated manifest takes from its input. */
  ghost predicate MatchesInput(input: Input, order: seq<string>, m: Manifest)
    requires forall k | k in order :: k in input.constraints
  {
    && m.eventId == "" && m.sessionId == TrimSpace(input.sessionId) && m.branchId == TrimSpace(input.branchId)
    && m.fingerprint == TrimSpace(input.fingerprint) && m.mode == TrimSpace(input.mode)
    && m.scope == TrimSpace(input.scope) && m.taskSummary == TrimSpace(input.taskSummary)
    && m.byteBudget == input.byteBudget && m.truncated == input.truncated && (input.compacted ==> m.compacted)
    && m.serializerVersion == "consult.v1"
    && IsSorting(StrLess, Mapped(TrimSpace, Filter(NotBlank(), input.refs)), m.refs)
    && Trimmed(input.constraints, order) == Some(m.constraints)
    && IsSorting(SelectedItemOrder(), Mapped(TrimmedItem(), input.selectedItems), m.selectedItems)
    && (m.selection.Some? <==> input.selection.Some?)
    && (m.selection.Some? ==> SelectionIsTrimmed(input.selection.value, m.selection.value))
  }

  lemma {:induction false} DraftedMeans(input: Input, order: seq<string>)
    requires IsOrderOf(input.constraints, order) && Drafted(input, order).Some?
    ensures MatchesInput(input, order, Drafted(input, order).value)
    ensures Drafted(input, order).value.compacted == input.compacted
  {
    hide SelectionIsTrimmed, Trimmed, TrimSpace, Canon, IsSorting, SelectedItemOrder, NormSelection, Filter, Mapped,
      NormRef, NormSelectedItem, TrimmedItem, NotBlank;
    RefsAreTrimmed(input.refs);
    ItemsAreTrimmed(input.selectedItems);
    if input.selection.Some? {
      NormSelectionMeans(input.selection.value);
    }
  }

  lemma {:induction false} RefsAreTrimmed(refs: seq<string>)
    requires Canon(NormRef, StrLess, refs).Some?
    ensures IsSorting(StrLess, Mapped(TrimSpace, Filter(NotBlank(), refs)), Canon(NormRef, StrLess, refs).value)
  {
    StrLessTotal();
    hide TrimSpace, Canon, IsSorting, Filter, Mapped;
    CanonMeans(NormRef, StrLess, NotBlank(), TrimSpace, refs);
  }

  lemma {:induction false} ItemsAreTrimmed(items: seq<SelectedItem>)
    requires Canon(NormSelectedItem, SelectedItemOrder(), items).Some?
    ensures IsSorting(SelectedItemOrder(), Mapped(TrimmedItem(), items),
                      Canon(NormSelectedItem, SelectedItemOrder(), items).value)
  {
    SelectedItemOrderTotal();
    FilterEverything(items);
    hide TrimSpace, Canon, IsSorting, Filter, Mapped, SelectedItemOrder;
    CanonMeans(NormSelectedItem, SelectedItemOrder(), Everything(), TrimmedItem(), items);
  }

  lemma {:induction false} SealedKeeps(esc: Escape, m: Manifest)
    ensures var n := Sealed(esc, m); n == m.(compacted := n.compacted, actualBytes := n.actualBytes)
    ensures m.compacted ==> Sealed(esc, m).compacted
  {
    hide SelfLength;
  }

  lemma {:induction false} GeneratedMeans(esc: Escape, input: Input, order: seq<string>, m: Manifest)
    requires IsOrderOf(input.constraints, order) && Generated(esc, input, order) == Some(m)
    ensures MatchesInput(input, order, m)
  {
    hide Drafted, Sealed, SelectionIsTrimmed, Trimmed, TrimSpace, IsSorting, SelectedItemOrder, Filter, Mapped;
    DraftedMeans(input, order);
    SealedKeeps(esc, Drafted(input, order).value);
  }

  /** What the comparators compare, in order. */
  lemma {:induction false} OrdersMean()
    ensures forall x, y :: SelectedItemOrder()(x, y) <==>
      if x.id != y.id then StrLess(x.id, y.id) else if x.kind != y.kind then StrLess(x.kind, y.kind)
      else if x.refId != y.refId then StrLess(x.refId, y.refId)
      else if x.summaryRef != y.summaryRef then StrLess(x.summaryRef, y.summaryRef)
      else if x.reason != y.reason then StrLess(x.reason, y.reason) else x.bytes < y.bytes
    ensures forall x, y :: SelectionItemOrder()(x, y) <==>
      if x.id != y.id then StrLess(x.id, y.id) else if x.kind != y.kind then StrLess(x.kind, y.kind)
      else if x.reason != y.reason then StrLess(x.reason, y.reason) else StrLess(x.itemClass, y.itemClass)
    ensures forall x, y :: ReasonCountOrder()(x, y) <==>
      x.count > y.count || (x.count == y.count && StrLess(x.reason, y.reason))
  {
    hide StrLess;
  }

  /** The text that is sent is as long as the number in it says, and within a positive budget unless the
      flag is set. */
  lemma {:induction false} GeneratedTextMeasuresItself(esc: Escaping, input: Input, order: seq<string>, m: Manifest)
    requires IsOrderOf(input.constraints, order) && Generated(Lengths(esc), input, order) == Some(m)
    ensures m.actualBytes == |ManifestText(esc, m)|
    ensures m.byteBudget > 0 && !m.compacted ==> |ManifestText(esc, m)| <= m.byteBudget
  {
    hide Generated, ManifestText, MarshalLen, Base, Lengths;
    GeneratedMeasuresItself(Lengths(esc), input, order, m);
    MarshalLenIsLength(esc, m);
  }

  /** The number a generated manifest carries is the length of its own text, the least such number,
      even after the flag was set; without the flag a positive budget is met. */
  lemma {:induction false} GeneratedMeasuresItself(esc: Escape, input: Input, order: seq<string>, m: Manifest)
    requires IsOrderOf(input.constraints, order) && Generated(esc, input, order) == Some(m)
    ensures m.actualBytes == MarshalLen(esc, m)
    ensures IsLeastFixpoint(Base(esc, m), m.actualBytes)
    ensures m.byteBudget > 0 && !m.compacted ==> m.actualBytes <= m.byteBudget
  {
    var draft := Drafted(input, order).value;
    hide Drafted, OtherMembers;
    assert m == Sealed(esc, draft);
    SealedMeasuresItself(esc, draft);
  }

  lemma {:induction false} SealedMeasuresItself(esc: Escape, draft: Manifest)
    ensures var m := Sealed(esc, draft);
            && m.actualBytes == MarshalLen(esc, m)
            && IsLeastFixpoint(Base(esc, m), m.actualBytes)
            && (m.byteBudget > 0 && !m.compacted ==> m.actualBytes <= m.byteBudget)
  {
    hide OtherMembers;
    var n := SelfLength(esc, draft);
    var c := draft.(compacted := true);
    MarshalLenSplits(esc, draft, n);
    MarshalLenSplits(esc, c, SelfLength(esc, c));
  }

  /** The flag is the caller's, or says that the unflagged text was over budget. It can outlive its
      cause, because setting it saves a byte or two: a flagged text is within the budget exactly when
      the budget is one below the unflagged length, or two below it and a digit goes as well. */
  lemma {:induction false} FlagMeans(esc: Escape, draft: Manifest)
    requires !draft.compacted
    ensures var (n, m) := (SelfLength(esc, draft), Sealed(esc, draft));
            && (m.compacted <==> m.byteBudget > 0 && n > m.byteBudget)
            && (m.compacted ==> m.actualBytes == n - (if LosesDigit(n) then 2 else 1))
            && (m.compacted && m.actualBytes <= m.byteBudget
                <==> m.byteBudget > 0 && (m.byteBudget == n - 1 || (m.byteBudget == n - 2 && LosesDigit(n))))
  {
    FlipShortens(esc, draft);
    hide SelfLength;
  }

  const SMALL_DRAFT := Manifest("", "s", "b", "f", "m", "", [], map[], [], 183, 0, false, false,
                                SERIALIZER_VERSION_V1, "", None)

  lemma SmallDraftBase()
    ensures Base(s => |s|, SMALL_DRAFT) == 181
  {
  }

  /** 184 bytes against a budget of 183: the flag is set, and with it the text has 183 bytes. Text
      without special characters has its own length. */
  lemma {:induction false} FlagOutlivesItsCause()
    ensures SelfLength(s => |s|, SMALL_DRAFT) == 184
    ensures var m := Sealed(s => |s|, SMALL_DRAFT); m.compacted && m.actualBytes == m.byteBudget == 183
  {
    var esc: Escape := s => |s|;
    SmallDraftBase();
    hide Base, OtherMembers;
    assert Digits(184) == Digits(182) == Digits(181) == 3;
    SameLeast(181, SelfLength(esc, SMALL_DRAFT), 184) by {
      assert IsLeastFixpoint(181, 184) by {
        assert Iterate(181, 1) == 182 && Iterate(181, 2) == 184;
        LeastIsIterate(181, 2);
      }
    }
    hide SelfLength;
    FlagMeans(esc, SMALL_DRAFT);
  }

  // ----- Canonicity -----

  ghost predicate SameSelection(a: SelectionExplanation, b: SelectionExplanation) {
    && multiset(a.included) == multiset(b.included)
    && multiset(a.excluded) == multiset(b.excluded)
    && multiset(a.dominantInclusionReasons) == multiset(b.dominantInclusionReasons)
    && multiset(a.dominantExclusionReasons) == multiset(b.dominantExclusionReasons)
    && a.budgetPressure == b.budgetPressure
  }

  /** Equal but for the order of their lists. */
  ghost predicate SameInput(a: Input, b: Input) {
    && a == b.(refs := a.refs, selectedItems := a.selectedItems, selection := a.selection)
    && multiset(a.refs) == multiset(b.refs)
    && multiset(a.selectedItems) == multiset(b.selectedItems)
    && (a.selection.Some? <==> b.selection.Some?)
    && (a.selection.Some? ==> SameSelection(a.selection.value, b.selection.value))
  }

  lemma {:induction false} NormSelectionCanonical(a: SelectionExplanation, b: SelectionExplanation)
    requires SameSelection(a, b)
    ensures NormSelection(a) == NormSelection(b)
  {
    SelectionItemOrderTotal();
    ReasonCountOrderTotal();
    CanonPermuted(NormSelectionItem, SelectionItemOrder(), a.included, b.included);
    CanonPermuted(NormSelectionItem, SelectionItemOrder(), a.excluded, b.excluded);
    CanonPermuted(NormReasonCount, ReasonCountOrder(), a.dominantInclusionReasons, b.dominantInclusionReasons);
    CanonPermuted(NormReasonCount, ReasonCountOrder(), a.dominantExclusionReasons, b.dominantExclusionReasons);
    hide Canon, Total;
  }

  lemma {:induction false} DraftedCanonical(a: Input, b: Input, oa: seq<string>, ob: seq<string>)
    requires SameInput(a, b) && IsOrderOf(a.constraints, oa) && IsOrderOf(b.constraints, ob)
    requires HasBlankKey(a.constraints) || !exists k1, k2 :: Clash(a.constraints, k1, k2)
    ensures Drafted(a, oa) == Drafted(b, ob)
  {
    NoClashSameResult(a.constraints, oa, ob);
    hide Clash, Trimmed, TrimSpace, Canon, NormSelection, SameSelection;
    StrLessTotal();
    SelectedItemOrderTotal();
    CanonPermuted(NormRef, StrLess, a.refs, b.refs);
    CanonPermuted(NormSelectedItem, SelectedItemOrder(), a.selectedItems, b.selectedItems);
    hide Total;
    if a.selection.Some? {
      NormSelectionCanonical(a.selection.value, b.selection.value);
    }
  }

  /** Permuting any list leaves the manifest unchanged; so does the order in which the constraints
      are visited, unless two keys trim alike and their values do not (TrimmedDeterministicIff). */
  lemma {:induction false} GenerateCanonical(esc: Escape, a: Input, b: Input, oa: seq<string>, ob: seq<string>)
    requires SameInput(a, b) && IsOrderOf(a.constraints, oa) && IsOrderOf(b.constraints, ob)
    requires HasBlankKey(a.constraints) || !exists k1, k2 :: Clash(a.constraints, k1, k2)
    ensures Generated(esc, a, oa) == Generated(esc, b, ob)
  {
    DraftedCanonical(a, b, oa, ob);
    hide Drafted, Sealed, SameInput, Clash;
  }

  function AsInput(m: Manifest): Input {
    Input(m.sessionId, m.branchId, m.fingerprint, m.mode, m.scope, m.refs, m.constraints, m.selectedItems,
          m.byteBudget, m.compacted, m.truncated, m.taskSummary, m.selection)
  }

  lemma {:induction false} NormSelectionIdempotent(s: SelectionExplanation)
    requires NormSelection(s).Some?
    ensures NormSelection(NormSelection(s).value) == NormSelection(s)
  {
    SelectionItemOrderTotal();
    ReasonCountOrderTotal();
    NormalisersSettle();
    CanonIdempotent(NormSelectionItem, SelectionItemOrder(), s.included);
    CanonIdempotent(NormSelectionItem, SelectionItemOrder(), s.excluded);
    CanonIdempotent(NormReasonCount, ReasonCountOrder(), s.dominantInclusionReasons);
    CanonIdempotent(NormReasonCount, ReasonCountOrder(), s.dominantExclusionReasons);
    hide Canon, Total, Settles;
  }

  lemma {:induction false} DraftedIdempotent(input: Input, order: seq<string>, m: Manifest, again: seq<string>,
                                             compacted: bool, n: int)
    requires IsOrderOf(input.constraints, order) && Drafted(input, order) == Some(m)
    requires IsOrderOf(m.constraints, again)
    ensures Drafted(AsInput(m.(compacted := compacted, actualBytes := n)), again) == Some(m.(compacted := compacted))
  {
    StrLessTotal();
    SelectedItemOrderTotal();
    NormalisersSettle();
    CanonIdempotent(NormRef, StrLess, input.refs);
    CanonIdempotent(NormSelectedItem, SelectedItemOrder(), input.selectedItems);
    if input.selection.Some? {
      NormSelectionIdempotent(input.selection.value);
    }
    TrimmedIsTrimmed(input.constraints, order);
    TrimmedIdempotent(m.constraints, again);
    TrimSpaceIdempotent(input.sessionId);
    TrimSpaceIdempotent(input.branchId);
    TrimSpaceIdempotent(input.fingerprint);
    TrimSpaceIdempotent(input.mode);
    TrimSpaceIdempotent(input.scope);
    TrimSpaceIdempotent(input.taskSummary);
    hide Canon, Trimmed, TrimSpace, NormSelection, StrictOrder, Total, Settles, IsTrimmed;
  }

  lemma {:induction false} SealedIdempotent(esc: Escape, draft: Manifest)
    requires draft.actualBytes == 0
    ensures var m := Sealed(esc, draft);
            && m == draft.(compacted := m.compacted, actualBytes := m.actualBytes)
            && Sealed(esc, draft.(compacted := m.compacted)) == m
  {
    hide SelfLength;
    var c := draft.(compacted := true);
    assert c.(compacted := true) == c;
    assert draft.(compacted := draft.compacted) == draft;
  }

  /** Generating from a generated manifest returns that manifest. */
  lemma {:induction false} GenerateIdempotent(esc: Escape, input: Input, order: seq<string>, m: Manifest,
                                              again: seq<string>)
    requires IsOrderOf(input.constraints, order) && Generated(esc, input, order) == Some(m)
    requires IsOrderOf(m.constraints, again)
    ensures Generated(esc, AsInput(m), again) == Some(m)
  {
    var draft := Drafted(input, order).value;
    assert draft.actualBytes == 0;
    hide Drafted, Sealed, IsOrderOf, AsInput;
    SealedIdempotent(esc, draft);
    DraftedIdempotent(input, order, draft, again, m.compacted, m.actualBytes);
  }
}
