/** internal/assembler: a packet is compacted stage by stage until it fits a fixed envelope, the
    HTTP/1.1 request line and field lines (sections 3 and 5 of RFC 9112) plus a JSON body. */
module Assembler {
  import opened GoText
  import opened Sorting
  import opened Canonical
  import opened JsonSize
  import opened JsonText

  const MAX_ENVELOPE_BYTES: int := 14336
  const SAFETY_MARGIN_BYTES: int := 768
  const LARGE_TEXT_INLINE_THRESHOLD_BYTES := 1024
  const TOOL_RESULT_EXCERPT_BYTES := 256

  datatype Header = Header(name: string, value: string)

  datatype Constraint = Constraint(name: string, value: string)

  datatype WorkingItem = WorkingItem(
    id: string,
    kind: string,
    text: string,
    summaryRef: string,
    blobRef: string,
    frontierOrdinal: int,
    provenance: string,
    provenanceRequired: bool)

  /** The working set has no omitempty, so a nil slice marshals as `null` and an empty one as `[]`. */
  datatype ItemList = NilList | Items(items: seq<WorkingItem>)
  {
    function All(): seq<WorkingItem> {
      if NilList? then [] else items
    }
  }

  datatype PacketBody = PacketBody(
    sessionId: string,
    branchHandle: string,
    workingSet: ItemList,
    externalContext: string,
    frontier: seq<string>,
    constraints: seq<Constraint>,
    debug: seq<string>,
    provenance: seq<string>,
    checkpointSummaryRef: string,
    compactStage: nat)

  datatype Request = Request(verb: string, path: string, headers: seq<Header>, body: PacketBody)

  datatype ContextStatus = Omitted | Included | DroppedBudget

  datatype Measurement = Measurement(
    requestLineBytes: nat,
    headerBytes: nat,
    bodyBudgetBytes: nat,
    bodyBytes: nat,
    envelopeBytes: nat)

  datatype Packet = Packet(
    stage: nat,
    body: PacketBody,
    externalContextStatus: ContextStatus,
    externalContextBytes: nat,
    measurement: Measurement)

  /** Rejected comes with ErrPacketRejectedBudget and the last body. */
  datatype Outcome = Fitting(packet: Packet) | Rejected(packet: Packet)

  // ----- Sizes -----

  function ItemLen(esc: Escape, i: WorkingItem): nat {
    Enclosed(Field("id", Quoted(esc, i.id)) + Field("kind", Quoted(esc, i.kind))
      + OptString(esc, "text", i.text) + OptString(esc, "summary_ref", i.summaryRef)
      + OptString(esc, "blob_ref", i.blobRef)
      + OptField(i.frontierOrdinal != 0, "frontier_ordinal", Number(i.frontierOrdinal))
      + OptString(esc, "provenance", i.provenance))
  }

  function ItemSize(esc: Escape): WorkingItem -> nat {
    (i: WorkingItem) => ItemLen(esc, i)
  }

  function ListLen(esc: Escape, l: ItemList): nat {
    match l
    case NilList => 4
    case Items(items) => Array(ItemSize(esc), items)
  }

  function ConstraintLen(esc: Escape, c: Constraint): nat {
    Enclosed(Field("name", Quoted(esc, c.name)) + Field("value", Quoted(esc, c.value)))
  }

  /** Members that no stage touches. */
  function FixedMembers(esc: Escape, b: PacketBody): nat {
    Field("session_id", Quoted(esc, b.sessionId)) + Field("branch_handle", Quoted(esc, b.branchHandle))
    + OptArray("frontier", (s: string) => Quoted(esc, s), b.frontier)
    + OptArray("constraints", (c: Constraint) => ConstraintLen(esc, c), b.constraints)
    + OptString(esc, "checkpoint_summary_ref", b.checkpointSummaryRef)
  }

  function StringsMember(esc: Escape, name: string, s: seq<string>): nat {
    OptArray(name, (x: string) => Quoted(esc, x), s)
  }

  /** len(json.Marshal(body)) */
  function BodyLen(esc: Escape, b: PacketBody): nat {
    Enclosed(FixedMembers(esc, b) + Field("working_set", ListLen(esc, b.workingSet))
      + OptString(esc, "external_context", b.externalContext) + StringsMember(esc, "debug", b.debug)
      + StringsMember(esc, "provenance", b.provenance) + Field("compact_stage", Number(b.compactStage)))
  }

  function HeaderBytes(headers: seq<Header>): nat {
    if headers == [] then 2
    else HeaderBytes(headers[..|headers| - 1]) + |headers[|headers| - 1].name| + 2 + |headers[|headers| - 1].value| + 2
  }

  method MeasureHeaders(headers: seq<Header>) returns (total: nat)
    ensures total == HeaderBytes(headers)
  {
    total := 0;
    for i := 0 to |headers|
      invariant total + 2 == HeaderBytes(headers[..i])
    {
      assert headers[..i + 1][..i] == headers[..i];
      total := total + |headers[i].name| + |": "| + |headers[i].value| + |"\r\n"|;
    }
    assert headers[..|headers|] == headers;
    total := total + |"\r\n"|;
  }

  function RequestLineBytes(n: Request): nat {
    |n.verb| + 1 + |n.path| + |" HTTP/1.1\r\n"|
  }

  function BodyBudget(n: Request): nat {
    var left := MAX_ENVELOPE_BYTES - SAFETY_MARGIN_BYTES - RequestLineBytes(n) - HeaderBytes(n.headers);
    if left < 0 then 0 else left
  }

  predicate Fits(esc: Escape, n: Request, b: PacketBody) {
    && BodyLen(esc, b) <= BodyBudget(n)
    && RequestLineBytes(n) + HeaderBytes(n.headers) + BodyLen(esc, b) <= MAX_ENVELOPE_BYTES
  }

  /** The clamped budget and the second comparison come to one bound on the whole envelope. */
  lemma {:induction false} FitsIff(esc: Escape, n: Request, b: PacketBody)
    ensures Fits(esc, n, b) <==>
            RequestLineBytes(n) + HeaderBytes(n.headers) + BodyLen(esc, b) <= MAX_ENVELOPE_BYTES - SAFETY_MARGIN_BYTES
  {
    hide RequestLineBytes, HeaderBytes;
    assert BodyLen(esc, b) > 0 by {
      hide FixedMembers, ListLen, StringsMember;
    }
    hide BodyLen;
  }

  // ----- The text behind the sizes -----

  function ItemText(esc: Escaping): WorkingItem -> string {
    (i: WorkingItem) => ObjectText(
      [MemberText("id", QuotedText(esc, i.id)), MemberText("kind", QuotedText(esc, i.kind))]
      + Optional(i.text != "", "text", QuotedText(esc, i.text))
      + Optional(i.summaryRef != "", "summary_ref", QuotedText(esc, i.summaryRef))
      + Optional(i.blobRef != "", "blob_ref", QuotedText(esc, i.blobRef))
      + Optional(i.frontierOrdinal != 0, "frontier_ordinal", NumberText(i.frontierOrdinal))
      + Optional(i.provenance != "", "provenance", QuotedText(esc, i.provenance)))
  }

  function ConstraintText(esc: Escaping): Constraint -> string {
    (c: Constraint) => ObjectText(
      [MemberText("name", QuotedText(esc, c.name)), MemberText("value", QuotedText(esc, c.value))])
  }

  function StringText(esc: Escaping): string -> string {
    (s: string) => QuotedText(esc, s)
  }

  function ListText(esc: Escaping, l: ItemList): string {
    match l
    case NilList => "null"
    case Items(items) => ArrayText(ItemText(esc), items)
  }

  /** json.Marshal(body) */
  function BodyText(esc: Escaping, b: PacketBody): string {
    ObjectText(
      [MemberText("session_id", QuotedText(esc, b.sessionId)),
       MemberText("branch_handle", QuotedText(esc, b.branchHandle)),
       MemberText("working_set", ListText(esc, b.workingSet))]
      + Optional(b.externalContext != "", "external_context", QuotedText(esc, b.externalContext))
      + Optional(b.frontier != [], "frontier", ArrayText(StringText(esc), b.frontier))
      + Optional(b.constraints != [], "constraints", ArrayText(ConstraintText(esc), b.constraints))
      + Optional(b.debug != [], "debug", ArrayText(StringText(esc), b.debug))
      + Optional(b.provenance != [], "provenance", ArrayText(StringText(esc), b.provenance))
      + Optional(b.checkpointSummaryRef != "", "checkpoint_summary_ref", QuotedText(esc, b.checkpointSummaryRef))
      + [MemberText("compact_stage", NumberText(b.compactStage))])
  }

  function HeaderText(headers: seq<Header>): string {
    if headers == [] then "\r\n"
    else
      var h := headers[0];
      h.name + ": " + h.value + "\r\n" + HeaderText(headers[1..])
  }

  /** The request as it goes out. */
  function EnvelopeText(esc: Escaping, n: Request, b: PacketBody): string {
    n.verb + " " + n.path + " HTTP/1.1\r\n" + HeaderText(n.headers) + BodyText(esc, b)
  }

  lemma {:induction false} HeaderLength(headers: seq<Header>)
    ensures |HeaderText(headers)| == HeaderBytes(headers)
  {
    if headers != [] {
      HeaderLength(headers[1..]);
      HeaderBytesSplit([headers[0]], headers[1..]);
      assert [headers[0]] + headers[1..] == headers;
      assert [headers[0]][..0] == [];
    }
  }

  lemma {:induction false} HeaderBytesSplit(a: seq<Header>, b: seq<Header>)
    ensures HeaderBytes(a + b) == HeaderBytes(a) + HeaderBytes(b) - 2
  {
    if b == [] {
      assert a + b == a;
    } else {
      HeaderBytesSplit(a, b[..|b| - 1]);
      assert (a + b)[..|a + b| - 1] == a + b[..|b| - 1];
    }
  }

  lemma {:induction false} ItemLength(esc: Escaping, i: WorkingItem)
    ensures |ItemText(esc)(i)| == ItemLen(Lengths(esc), i)
  {
    var a := [MemberText("id", QuotedText(esc, i.id)), MemberText("kind", QuotedText(esc, i.kind))];
    var b := Optional(i.text != "", "text", QuotedText(esc, i.text));
    var c := Optional(i.summaryRef != "", "summary_ref", QuotedText(esc, i.summaryRef));
    var d := Optional(i.blobRef != "", "blob_ref", QuotedText(esc, i.blobRef));
    var e := Optional(i.frontierOrdinal != 0, "frontier_ordinal", NumberText(i.frontierOrdinal));
    var f := Optional(i.provenance != "", "provenance", QuotedText(esc, i.provenance));
    NumberLength(i.frontierOrdinal);
    TwoMembers("id", QuotedText(esc, i.id), "kind", QuotedText(esc, i.kind));
    OptionalTotal(i.text != "", "text", QuotedText(esc, i.text));
    OptionalTotal(i.summaryRef != "", "summary_ref", QuotedText(esc, i.summaryRef));
    OptionalTotal(i.blobRef != "", "blob_ref", QuotedText(esc, i.blobRef));
    OptionalTotal(i.frontierOrdinal != 0, "frontier_ordinal", NumberText(i.frontierOrdinal));
    OptionalTotal(i.provenance != "", "provenance", QuotedText(esc, i.provenance));
    hide CommaBytes, Optional, MemberText, Commas, NumberText, Number, Enclosed;
    TotalConcat(a, b);
    TotalConcat(a + b, c);
    TotalConcat(a + b + c, d);
    TotalConcat(a + b + c + d, e);
    TotalConcat(a + b + c + d + e, f);
    ObjectLength(a + b + c + d + e + f);
    hide ObjectText;
  }

  lemma {:induction false} ConstraintLength(esc: Escaping, c: Constraint)
    ensures |ConstraintText(esc)(c)| == ConstraintLen(Lengths(esc), c)
  {
    TwoMembers("name", QuotedText(esc, c.name), "value", QuotedText(esc, c.value));
    ObjectLength([MemberText("name", QuotedText(esc, c.name)), MemberText("value", QuotedText(esc, c.value))]);
    hide CommaBytes, MemberText, ObjectText, Enclosed;
  }

  lemma {:induction false} StringsLength(esc: Escaping, name: string, s: seq<string>)
    ensures CommaBytes(Optional(s != [], name, ArrayText(StringText(esc), s))) == StringsMember(Lengths(esc), name, s)
  {
    ArrayLength(StringText(esc), (x: string) => Quoted(Lengths(esc), x), s);
    OptionalTotal(s != [], name, ArrayText(StringText(esc), s));
    hide CommaBytes, Optional, ArrayText, Array;
  }

  lemma {:induction false} ConstraintsLength(esc: Escaping, s: seq<Constraint>)
    ensures CommaBytes(Optional(s != [], "constraints", ArrayText(ConstraintText(esc), s)))
      == OptArray("constraints", (c: Constraint) => ConstraintLen(Lengths(esc), c), s)
  {
    forall c
      ensures |ConstraintText(esc)(c)| == ConstraintLen(Lengths(esc), c)
    {
      ConstraintLength(esc, c);
    }
    hide ConstraintText, ConstraintLen;
    ArrayLength(ConstraintText(esc), (c: Constraint) => ConstraintLen(Lengths(esc), c), s);
    OptionalTotal(s != [], "constraints", ArrayText(ConstraintText(esc), s));
    hide CommaBytes, Optional, ArrayText, Array;
  }

  lemma {:induction false} ListLength(esc: Escaping, l: ItemList)
    ensures |ListText(esc, l)| == ListLen(Lengths(esc), l)
  {
    if l.Items? {
      forall i
        ensures |ItemText(esc)(i)| == ItemLen(Lengths(esc), i)
      {
        ItemLength(esc, i);
      }
      hide ItemText, ItemLen;
      ArrayLength(ItemText(esc), ItemSize(Lengths(esc)), l.items);
      hide ArrayText, Array;
    }
  }

  lemma {:induction false} EightTotals(p: seq<string>, q: seq<string>, r: seq<string>, s: seq<string>, t: seq<string>,
                                       u: seq<string>, v: seq<string>, w: seq<string>)
    ensures CommaBytes(p + q + r + s + t + u + v + w)
      == CommaBytes(p) + CommaBytes(q) + CommaBytes(r) + CommaBytes(s) + CommaBytes(t) + CommaBytes(u)
         + CommaBytes(v) + CommaBytes(w)
  {
    hide CommaBytes;
    TotalConcat(p, q);
    TotalConcat(p + q, r);
    TotalConcat(p + q + r, s);
    TotalConcat(p + q + r + s, t);
    TotalConcat(p + q + r + s + t, u);
    TotalConcat(p + q + r + s + t + u, v);
    TotalConcat(p + q + r + s + t + u + v, w);
  }

  /** The size of a body is the length of its JSON text. */
  lemma {:induction false} BodyLenIsLength(esc: Escaping, b: PacketBody)
    ensures |BodyText(esc, b)| == BodyLen(Lengths(esc), b)
  {
    var p := [MemberText("session_id", QuotedText(esc, b.sessionId)),
              MemberText("branch_handle", QuotedText(esc, b.branchHandle)),
              MemberText("working_set", ListText(esc, b.workingSet))];
    var q := Optional(b.externalContext != "", "external_context", QuotedText(esc, b.externalContext));
    var r := Optional(b.frontier != [], "frontier", ArrayText(StringText(esc), b.frontier));
    var s := Optional(b.constraints != [], "constraints", ArrayText(ConstraintText(esc), b.constraints));
    var t := Optional(b.debug != [], "debug", ArrayText(StringText(esc), b.debug));
    var u := Optional(b.provenance != [], "provenance", ArrayText(StringText(esc), b.provenance));
    var v := Optional(b.checkpointSummaryRef != "", "checkpoint_summary_ref", QuotedText(esc, b.checkpointSummaryRef));
    var w := [MemberText("compact_stage", NumberText(b.compactStage))];
    TwoMembers("session_id", QuotedText(esc, b.sessionId), "branch_handle", QuotedText(esc, b.branchHandle));
    MemberTotal("working_set", ListText(esc, b.workingSet));
    OptionalTotal(b.externalContext != "", "external_context", QuotedText(esc, b.externalContext));
    OptionalTotal(b.checkpointSummaryRef != "", "checkpoint_summary_ref", QuotedText(esc, b.checkpointSummaryRef));
    MemberTotal("compact_stage", NumberText(b.compactStage));
    NumberLength(b.compactStage);
    ListLength(esc, b.workingSet);
    hide CommaBytes, Optional, MemberText, Commas, ArrayText, NumberText, Number, Enclosed, ListText, ListLen;
    StringsLength(esc, "frontier", b.frontier);
    StringsLength(esc, "debug", b.debug);
    StringsLength(esc, "provenance", b.provenance);
    ConstraintsLength(esc, b.constraints);
    hide Array, ConstraintText, ConstraintLen;
    TotalConcat([p[0], p[1]], [p[2]]);
    assert p == [p[0], p[1]] + [p[2]];
    EightTotals(p, q, r, s, t, u, v, w);
    ObjectLength(p + q + r + s + t + u + v + w);
    hide ObjectText;
  }

  // ----- Compaction stages -----

  /** cloneBody: copying an empty slice gives a nil one. */
  function Clone(b: PacketBody): PacketBody {
    if b.workingSet.All() == [] then b.(workingSet := NilList) else b
  }

  function DropProvenance(i: WorkingItem): WorkingItem {
    if i.provenanceRequired then i else i.(provenance := "")
  }

  function PreferSummary(i: WorkingItem): WorkingItem {
    if i.summaryRef != "" then i.(text := "") else i
  }

  function PreferBlob(i: WorkingItem): WorkingItem {
    if i.blobRef != "" then i.(text := "") else i
  }

  function OnItems(f: WorkingItem -> WorkingItem, l: ItemList): ItemList {
    if l.NilList? then NilList else Items(Mapped(f, l.items))
  }

  function Checkpoint(ref: string): WorkingItem {
    WorkingItem("checkpoint", "summary.checkpoint", "", ref, "", 0, "", false)
  }

  /** The first item with the highest ordinal. */
  function Newest(items: seq<WorkingItem>): (k: nat)
    requires items != []
    ensures k < |items|
    ensures forall j | 0 <= j < |items| :: items[j].frontierOrdinal <= items[k].frontierOrdinal
    ensures forall j | 0 <= j < k :: items[j].frontierOrdinal < items[k].frontierOrdinal
  {
    if |items| == 1 then 0
    else
      var k := Newest(items[..|items| - 1]);
      if items[|items| - 1].frontierOrdinal > items[k].frontierOrdinal then |items| - 1 else k
  }

  function Apply(body: PacketBody, stage: nat): PacketBody {
    var b := Clone(body);
    match stage
    case 1 => b.(debug := [])
    case 2 => b.(workingSet := Items(Mapped(DropProvenance, b.workingSet.All())), provenance := [])
    case 3 => b.(workingSet := OnItems(PreferSummary, b.workingSet))
    case 4 =>
      if b.checkpointSummaryRef != "" && |b.workingSet.All()| > 1
      then b.(workingSet := Items([Checkpoint(b.checkpointSummaryRef)])) else b
    case 5 =>
      if |b.workingSet.All()| > 1
      then b.(workingSet := Items([b.workingSet.All()[Newest(b.workingSet.All())]])) else b
    case 6 => b.(workingSet := OnItems(PreferBlob, b.workingSet))
    case _ => b
  }

  /** The body as it is measured at a stage. */
  function StageBody(b: PacketBody, stage: nat): PacketBody {
    if stage == 0 then b.(compactStage := 0) else Apply(StageBody(b, stage - 1), stage).(compactStage := stage)
  }

  function WithoutContext(b: PacketBody): PacketBody {
    Clone(b).(externalContext := "")
  }

  method MapItems(f: WorkingItem -> WorkingItem, l: ItemList) returns (r: ItemList)
    ensures r == OnItems(f, l)
  {
    if l.NilList? {
      return NilList;
    }
    var items := l.items;
    var i := 0;
    while i < |items|
      invariant 0 <= i <= |items| == |l.items|
      invariant forall j | 0 <= j < i :: items[j] == f(l.items[j])
      invariant forall j | i <= j < |items| :: items[j] == l.items[j]
    {
      items := items[i := f(items[i])];
      i := i + 1;
    }
    forall j | 0 <= j < |items|
      ensures items[j] == Mapped(f, l.items)[j]
    {
      MappedAt(f, l.items, j);
    }
    assert items == Mapped(f, l.items);
    r := Items(items);
  }

  method ApplyCompactionStage(body: PacketBody, stage: nat) returns (out: PacketBody)
    ensures out == Apply(body, stage)
  {
    hide DropProvenance, PreferSummary, PreferBlob, Mapped;
    out := Clone(body);
    if stage == 1 {
      out := out.(debug := []);
    } else if stage == 2 {
      var filtered := MapItems(DropProvenance, Items(out.workingSet.All()));
      out := out.(workingSet := filtered, provenance := []);
    } else if stage == 3 {
      var replaced := MapItems(PreferSummary, out.workingSet);
      out := out.(workingSet := replaced);
    } else if stage == 4 {
      if out.checkpointSummaryRef != "" && |out.workingSet.All()| > 1 {
        out := out.(workingSet := Items([Checkpoint(out.checkpointSummaryRef)]));
      }
    } else if stage == 5 {
      var items := out.workingSet.All();
      if |items| > 1 {
        var newest := NewestIndex(items);
        out := out.(workingSet := Items([items[newest]]));
      }
    } else if stage == 6 {
      var replaced := MapItems(PreferBlob, out.workingSet);
      out := out.(workingSet := replaced);
    }
  }

  method NewestIndex(items: seq<WorkingItem>) returns (newest: nat)
    requires items != []
    ensures newest == Newest(items)
  {
    newest := 0;
    for i := 1 to |items|
      invariant newest < i
      invariant forall j | 0 <= j < i :: items[j].frontierOrdinal <= items[newest].frontierOrdinal
      invariant forall j | 0 <= j < newest :: items[j].frontierOrdinal < items[newest].frontierOrdinal
    {
      if items[i].frontierOrdinal > items[newest].frontierOrdinal {
        newest := i;
      }
    }
    var k := Newest(items);
    assert !(newest < k) && !(k < newest);
  }

  // ----- Normalisation -----

  function HeaderOrder(): (Header, Header) -> bool {
    By((h: Header) => h.name, ByString((h: Header) => h.value))
  }

  function ConstraintOrder(): (Constraint, Constraint) -> bool {
    By((c: Constraint) => c.name, ByString((c: Constraint) => c.value))
  }

  function WorkOrder(): (WorkingItem, WorkingItem) -> bool {
    ByNumberThen((i: WorkingItem) => i.frontierOrdinal, ByString((i: WorkingItem) => i.id))
  }

  lemma {:induction false} OrdersAreTotal()
    ensures Total(HeaderOrder()) && Total(ConstraintOrder())
  {
    var (h1, h2) := ((h: Header) => h.name, (h: Header) => h.value);
    ByStringIsOrder(h2);
    ByIsOrder(h1, ByString(h2));
    assert HeaderOrder() == By(h1, ByString(h2));
    forall x, y | x != y
      ensures HeaderOrder()(x, y) || HeaderOrder()(y, x)
    {
      assert Tie(By(h1, ByString(h2)), x, y) ==> Tie(ByString(h2), x, y);
    }
    var (c1, c2) := ((c: Constraint) => c.name, (c: Constraint) => c.value);
    ByStringIsOrder(c2);
    ByIsOrder(c1, ByString(c2));
    assert ConstraintOrder() == By(c1, ByString(c2));
    forall x, y | x != y
      ensures ConstraintOrder()(x, y) || ConstraintOrder()(y, x)
    {
      assert Tie(By(c1, ByString(c2)), x, y) ==> Tie(ByString(c2), x, y);
    }
  }

  /** Two working items tie exactly when they share ordinal and id. */
  lemma {:induction false} WorkOrderTies()
    ensures StrictOrder(WorkOrder())
    ensures forall x, y :: Tie(WorkOrder(), x, y) <==> x.frontierOrdinal == y.frontierOrdinal && x.id == y.id
  {
    var (k1, k2) := ((i: WorkingItem) => i.frontierOrdinal, (i: WorkingItem) => i.id);
    ByStringIsOrder(k2);
    ByNumberThenIsOrder(k1, ByString(k2));
    assert WorkOrder() == ByNumberThen(k1, ByString(k2));
  }

  function NormalizeToolResultItem(i: WorkingItem): WorkingItem {
    if i.summaryRef != "" then i.(text := "")
    else if |i.text| > TOOL_RESULT_EXCERPT_BYTES then i.(text := i.text[..TOOL_RESULT_EXCERPT_BYTES])
    else i
  }

  function NormItem(i: WorkingItem): WorkingItem {
    var t := if i.kind == "tool.result" then NormalizeToolResultItem(i) else i;
    if t.blobRef != "" && |t.text| > LARGE_TEXT_INLINE_THRESHOLD_BYTES then t.(text := "") else t
  }

  function OrDefault(s: string, fallback: string): string {
    if s == "" then fallback else s
  }

  /** The lists of a normalised body are sorted; an empty working set is nil. */
  ghost predicate IsNormalBody(b: PacketBody, n: PacketBody) {
    && n == b.(workingSet := n.workingSet, externalContext := TrimSpace(b.externalContext), frontier := n.frontier,
               constraints := n.constraints, debug := n.debug, provenance := n.provenance)
    && IsSorting(WorkOrder(), Mapped(NormItem, b.workingSet.All()), n.workingSet.All())
    && (n.workingSet.NilList? <==> b.workingSet.All() == [])
    && IsSorting(StrLess, b.frontier, n.frontier)
    && IsSorting(StrLess, b.debug, n.debug)
    && IsSorting(StrLess, b.provenance, n.provenance)
    && IsSorting(ConstraintOrder(), b.constraints, n.constraints)
  }

  /** `n` is a possible result of normalizeRequest. `upper` stands for strings.ToUpper. */
  ghost predicate IsNormalized(upper: string -> string, req: Request, n: Request) {
    && n.verb == OrDefault(upper(TrimSpace(req.verb)), "POST")
    && n.path == OrDefault(TrimSpace(req.path), "/v1/responses")
    && IsSorting(HeaderOrder(), req.headers, n.headers)
    && IsNormalBody(req.body, n.body)
  }

  /** What normalising does to an item: only its text can change, into a prefix; a tool result ships
      at most an excerpt, and nothing next to a summary; a large text is not shipped next to a blob. */
  lemma NormItemMeans(i: WorkingItem)
    ensures var n := NormItem(i);
      && n == i.(text := n.text) && n.text <= i.text
      && (i.kind == "tool.result" ==> |n.text| <= 256 && (i.summaryRef != "" ==> n.text == ""))
      && (i.blobRef != "" ==> |n.text| <= 1024)
      && (n.text != i.text ==> i.kind == "tool.result" || (i.blobRef != "" && |i.text| > 1024))
      && (i.kind == "tool.result" && i.summaryRef == "" ==> |n.text| == if |i.text| > 256 then 256 else |i.text|)
  {
  }

  lemma NormKeepsKey(i: WorkingItem)
    ensures NormItem(i).id == i.id && NormItem(i).frontierOrdinal == i.frontierOrdinal
  {
  }

  /** Normalising an item keeps its sort key, so normalising a sorted list keeps it sorted. */
  lemma {:induction false} NormKeepsOrder(s: seq<WorkingItem>, r: seq<WorkingItem>)
    requires IsSorting(WorkOrder(), s, r)
    ensures IsSorting(WorkOrder(), Mapped(NormItem, s), Mapped(NormItem, r))
  {
    hide WorkOrder, NormItem, Mapped;
    MappedPermuted(NormItem, s, r);
    WorkOrderTies();
    forall k | 0 <= k < |r|
      ensures Tie(WorkOrder(), r[k], Mapped(NormItem, r)[k])
    {
      MappedAt(NormItem, r, k);
      NormKeepsKey(r[k]);
    }
    TiesKeepOrder(WorkOrder(), r, Mapped(NormItem, r));
  }

  /** How the lists of a normalised request are ordered: items by ordinal and then by id, headers and
      constraints by name and then by value. */
  lemma {:induction false} NormalOrder(upper: string -> string, req: Request, n: Request, i: nat, j: nat)
    requires IsNormalized(upper, req, n) && i < j
    ensures var s := n.body.workingSet.All();
      j < |s| ==>
        s[i].frontierOrdinal < s[j].frontierOrdinal
        || (s[i].frontierOrdinal == s[j].frontierOrdinal && !StrLess(s[j].id, s[i].id))
    ensures var s := n.headers;
      j < |s| ==> StrLess(s[i].name, s[j].name) || (s[i].name == s[j].name && !StrLess(s[j].value, s[i].value))
    ensures var s := n.body.constraints;
      j < |s| ==> StrLess(s[i].name, s[j].name) || (s[i].name == s[j].name && !StrLess(s[j].value, s[i].value))
  {
    hide TrimSpace, NormItem, Mapped, StrLess, OrDefault;
    if j < |n.headers| {
      StrLessTrichotomy(n.headers[i].name, n.headers[j].name);
    }
    if j < |n.body.constraints| {
      StrLessTrichotomy(n.body.constraints[i].name, n.body.constraints[j].name);
    }
  }

  method NormalizeRequest(upper: string -> string, req: Request) returns (n: Request)
    ensures IsNormalized(upper, req, n)
    ensures n.verb == var verb := upper(TrimSpace(req.verb)); if |verb| > 0 then verb else "POST"
    ensures n.path == var path := TrimSpace(req.path); if |path| > 0 then path else "/v1/responses"
  {
    hide TrimSpace, NormItem, Mapped, StrLess, WorkOrder, HeaderOrder, ConstraintOrder;
    StrLessIsOrder();
    OrdersAreTotal();
    WorkOrderTies();
    var verb := upper(TrimSpace(req.verb));
    if verb == "" {
      verb := "POST";
    }
    var path := TrimSpace(req.path);
    if path == "" {
      path := "/v1/responses";
    }
    var headers := SortSlice(HeaderOrder(), req.headers);
    var body := Clone(req.body);
    body := body.(externalContext := TrimSpace(body.externalContext));
    var items := SortSlice(WorkOrder(), body.workingSet.All());
    SameMembers(items, body.workingSet.All());
    var frontier := SortSlice(StrLess, body.frontier);
    var debug := SortSlice(StrLess, body.debug);
    var provenance := SortSlice(StrLess, body.provenance);
    var constraints := SortSlice(ConstraintOrder(), body.constraints);
    NormKeepsOrder(body.workingSet.All(), items);
    var normal := MapItems(NormItem, if body.workingSet.NilList? then NilList else Items(items));
    body := body.(workingSet := normal, frontier := frontier, debug := debug, provenance := provenance,
                  constraints := constraints);
    n := Request(verb, path, headers, body);
  }

  // ----- Assemble -----

  function PacketOf(esc: Escape, n: Request, b: PacketBody, status: ContextStatus): Packet {
    var (line, headers, length) := (RequestLineBytes(n), HeaderBytes(n.headers), BodyLen(esc, b));
    Packet(b.compactStage, b, status, |n.body.externalContext|,
           Measurement(line, headers, BodyBudget(n), length, line + headers + length))
  }

  /** The simple description: the whole body if it fits; otherwise, with the external context gone,
      the first stage that fits; otherwise a rejection with the body of stage 7. */
  ghost predicate Assembled(esc: Escape, n: Request, r: Outcome) {
    var (b, d) := (n.body, WithoutContext(n.body));
    var dropped := if b.externalContext == "" then Omitted else DroppedBudget;
    if Fits(esc, n, StageBody(b, 0)) then
      r == Fitting(PacketOf(esc, n, StageBody(b, 0), if b.externalContext == "" then Omitted else Included))
    else
      match r
      case Fitting(p) =>
        && p.stage <= 7 && Fits(esc, n, StageBody(d, p.stage))
        && (forall k: nat | k < p.stage :: !Fits(esc, n, StageBody(d, k)))
        && p == PacketOf(esc, n, StageBody(d, p.stage), dropped)
      case Rejected(p) =>
        && (forall k: nat | k <= 7 :: !Fits(esc, n, StageBody(d, k)))
        && p == PacketOf(esc, n, StageBody(d, 7), dropped)
  }

  method Assemble(esc: Escape, upper: string -> string, req: Request) returns (r: Outcome)
    ensures exists n :: IsNormalized(upper, req, n) && Assembled(esc, n, r)
  {
    var n := NormalizeRequest(upper, req);
    assert Clone(n.body) == n.body;
    hide IsNormalized, BodyLen, HeaderBytes, RequestLineBytes, BodyBudget, Apply;
    r := AssembleNormalized(esc, n);
  }

  method AssembleNormalized(esc: Escape, n: Request) returns (r: Outcome)
    requires Clone(n.body) == n.body
    ensures Assembled(esc, n, r)
  {
    hide BodyLen, HeaderBytes, RequestLineBytes, BodyBudget, Apply, Clone;
    var body := n.body;
    ghost var d := WithoutContext(n.body);
    var status := if body.externalContext != "" then Included else Omitted;
    var dropped := false;
    var headerBytes := MeasureHeaders(n.headers);
    var stage := 0;
    while true
      invariant 0 <= stage <= 7
      invariant stage == 0 ==> body == n.body && !dropped
      invariant stage == 0 ==> status == if n.body.externalContext != "" then Included else Omitted
      invariant stage > 0 ==> body.externalContext == "" && body.(compactStage := stage) == StageBody(d, stage)
      invariant stage > 0 ==> status == if n.body.externalContext != "" then DroppedBudget else Omitted
      invariant stage > 0 ==> !Fits(esc, n, StageBody(n.body, 0))
      invariant forall k: nat | k < stage :: !Fits(esc, n, StageBody(d, k))
      decreases 7 - stage
    {
      body := body.(compactStage := stage);
      if Fits(esc, n, body) {
        return Fitting(PacketOf(esc, n, body, status));
      }
      if body.externalContext != "" && !dropped {
        var bodyWithoutExternal := Clone(body).(externalContext := "", compactStage := stage);
        CloneStaged(n.body, stage);
        if Fits(esc, n, bodyWithoutExternal) {
          return Fitting(PacketOf(esc, n, bodyWithoutExternal, DroppedBudget));
        }
        body := bodyWithoutExternal;
        status := DroppedBudget;
        dropped := true;
      }
      assert body == StageBody(d, stage);
      if stage == 7 {
        return Rejected(PacketOf(esc, n, body, status));
      }
      ApplyKeepsContext(body, stage + 1);
      body := ApplyCompactionStage(body, stage + 1);
      stage := stage + 1;
    }
  }

  lemma CloneStaged(b: PacketBody, stage: nat)
    ensures Clone(b.(compactStage := stage)) == Clone(b).(compactStage := stage)
  {
  }

  lemma ApplyKeepsContext(b: PacketBody, stage: nat)
    ensures Apply(b, stage).externalContext == b.externalContext
    ensures Apply(b, stage).compactStage == b.compactStage
  {
  }

  // ----- What an assembled packet promises -----

  /** A packet that was not rejected leaves the safety margin free, and its measurement is true. */
  lemma {:induction false} FittingIsWithinBudget(esc: Escape, n: Request, r: Outcome)
    requires Assembled(esc, n, r)
    ensures var m := r.packet.measurement;
      && m.requestLineBytes == RequestLineBytes(n) && m.headerBytes == HeaderBytes(n.headers)
      && m.bodyBytes == BodyLen(esc, r.packet.body)
      && m.envelopeBytes == m.requestLineBytes + m.headerBytes + m.bodyBytes
      && (r.Fitting? <==> m.envelopeBytes <= MAX_ENVELOPE_BYTES - SAFETY_MARGIN_BYTES)
  {
    FitsIff(esc, n, r.packet.body);
    hide BodyLen, HeaderBytes, RequestLineBytes, BodyBudget, Apply, Clone;
  }

  lemma {:induction false} EnvelopeLength(esc: Escaping, n: Request, b: PacketBody)
    ensures |EnvelopeText(esc, n, b)| == RequestLineBytes(n) + HeaderBytes(n.headers) + BodyLen(Lengths(esc), b)
  {
    HeaderLength(n.headers);
    BodyLenIsLength(esc, b);
    hide HeaderText, BodyText, BodyLen, HeaderBytes;
  }

  /** The whole request, request line, headers and body, is within the bound. */
  ghost predicate TextFits(esc: Escaping, n: Request, b: PacketBody) {
    |EnvelopeText(esc, n, b)| <= 13568
  }

  lemma {:induction false} FitsIffTextFits(esc: Escaping, n: Request, b: PacketBody)
    ensures Fits(Lengths(esc), n, b) <==> TextFits(esc, n, b)
  {
    FitsIff(Lengths(esc), n, b);
    EnvelopeLength(esc, n, b);
    hide Fits, EnvelopeText, BodyLen, HeaderBytes, RequestLineBytes, BodyBudget, Lengths;
  }

  /** The measurement is the length of what is sent, and sending means that it is within the bound. */
  lemma {:induction false} MeasuredIsSent(esc: Escaping, n: Request, r: Outcome)
    requires Assembled(Lengths(esc), n, r)
    ensures r.packet.measurement.envelopeBytes == |EnvelopeText(esc, n, r.packet.body)|
    ensures r.Fitting? <==> TextFits(esc, n, r.packet.body)
  {
    hide Assembled, EnvelopeText, BodyLen, HeaderBytes, RequestLineBytes, Lengths;
    FittingIsWithinBudget(Lengths(esc), n, r);
    EnvelopeLength(esc, n, r.packet.body);
  }

  /** What is sent, in terms of the request as it goes out: the whole body if that fits; otherwise the
      first stage that fits, of the body without its external context; a rejection if none does. */
  lemma {:induction false} OutcomeMeans(esc: Escaping, n: Request, r: Outcome)
    requires Assembled(Lengths(esc), n, r)
    ensures var (p, d) := (r.packet, WithoutContext(n.body));
      if TextFits(esc, n, StageBody(n.body, 0)) then r.Fitting? && p.body == StageBody(n.body, 0)
      else && p.stage <= 7 && p.body == StageBody(d, p.stage) && (r.Rejected? ==> p.stage == 7)
           && (r.Fitting? <==> TextFits(esc, n, p.body))
           && forall k: nat | k < p.stage :: !TextFits(esc, n, StageBody(d, k))
  {
    hide StageBody, Fits, TextFits, BodyLen, HeaderBytes, RequestLineBytes, BodyBudget, Lengths, WithoutContext;
    var d := WithoutContext(n.body);
    FitsIffTextFits(esc, n, StageBody(n.body, 0));
    MeasuredIsSent(esc, n, r);
    StageKeeps(n.body, 0);
    StageKeeps(d, r.packet.stage);
    StageKeeps(d, 7);
    forall k: nat
      ensures Fits(Lengths(esc), n, StageBody(d, k)) <==> TextFits(esc, n, StageBody(d, k))
    {
      FitsIffTextFits(esc, n, StageBody(d, k));
    }
  }

  /** What is rejected is the body of stage 7 without external context, with its true length. */
  lemma {:induction false} RejectedMeasures(esc: Escape, n: Request, r: Outcome)
    requires Assembled(esc, n, r) && r.Rejected?
    ensures r.packet.stage == 7 && r.packet.body.externalContext == ""
    ensures RequestLineBytes(n) + HeaderBytes(n.headers) + BodyLen(esc, r.packet.body) > 13568
  {
    hide StageBody, RequestLineBytes, HeaderBytes, BodyLen;
    var d := WithoutContext(n.body);
    StageKeeps(d, 7);
    FitsIff(esc, n, StageBody(d, 7));
    hide Fits;
  }

  /** The external context is sent only uncompacted, and the status says what became of it. */
  lemma {:induction false} ContextStatusIsTrue(esc: Escape, n: Request, r: Outcome)
    requires Assembled(esc, n, r)
    ensures var p := r.packet;
      && p.externalContextBytes == |n.body.externalContext|
      && (p.externalContextStatus == Omitted <==> n.body.externalContext == "")
      && (p.externalContextStatus == Included <==> p.body.externalContext != "")
      && (p.body.externalContext != "" ==>
            r.Fitting? && p.stage == 0 && p.body == StageBody(n.body, 0))
  {
    hide StageBody, BodyLen, HeaderBytes, RequestLineBytes, BodyBudget, Apply, Fits, Clone;
    StageKeeps(n.body, 0);
    StageKeeps(WithoutContext(n.body), r.packet.stage);
    StageKeeps(WithoutContext(n.body), 7);
  }

  ghost predicate SameFrame(b: PacketBody, s: PacketBody) {
    && s.sessionId == b.sessionId && s.branchHandle == b.branchHandle
    && s.externalContext == b.externalContext && s.frontier == b.frontier
    && s.constraints == b.constraints && s.checkpointSummaryRef == b.checkpointSummaryRef
  }

  lemma {:induction false} ApplyKeeps(b: PacketBody, stage: nat)
    ensures SameFrame(b, Apply(b, stage))
  {
    hide Mapped, DropProvenance, PreferSummary, PreferBlob;
  }

  /** What no stage changes. */
  lemma {:induction false} StageKeeps(b: PacketBody, stage: nat)
    ensures SameFrame(b, StageBody(b, stage)) && StageBody(b, stage).compactStage == stage
  {
    hide Apply;
    if stage > 0 {
      StageKeeps(b, stage - 1);
      ApplyKeeps(StageBody(b, stage - 1), stage);
    }
  }

  /** From stage 3 on an empty working set is nil. */
  lemma {:induction false} LateStagesAreCloned(b: PacketBody, stage: nat)
    requires stage >= 3
    ensures Clone(StageBody(b, stage)) == StageBody(b, stage)
  {
    ApplyLateCloned(StageBody(b, stage - 1), stage);
  }

  lemma {:induction false} ApplyLateCloned(b: PacketBody, stage: nat)
    requires stage >= 3
    ensures Clone(Apply(b, stage).(compactStage := stage)) == Apply(b, stage).(compactStage := stage)
  {
    if stage == 3 {
      MappedLength(PreferSummary, Clone(b).workingSet.All());
    } else if stage == 6 {
      MappedLength(PreferBlob, Clone(b).workingSet.All());
    }
    hide Mapped;
  }

  lemma MappedLength(f: WorkingItem -> WorkingItem, s: seq<WorkingItem>)
    ensures Mapped(f, s) == [] <==> s == []
  {
  }

  lemma {:induction false} StageNumberLen(esc: Escape, b: PacketBody, s: nat, t: nat)
    requires s <= 9 && t <= 9
    ensures BodyLen(esc, b.(compactStage := s)) == BodyLen(esc, b.(compactStage := t))
  {
    hide FixedMembers, ListLen, StringsMember;
    assert FixedMembers(esc, b.(compactStage := s)) == FixedMembers(esc, b.(compactStage := t)) by {
      FixedMembersOnly(esc, b, s, t);
    }
  }

  lemma FixedMembersOnly(esc: Escape, b: PacketBody, s: nat, t: nat)
    ensures FixedMembers(esc, b.(compactStage := s)) == FixedMembers(esc, b.(compactStage := t))
  {
  }

  /** The hard-failure stage measures the same as stage 6, so no packet is ever sent at stage 7. */
  lemma {:induction false} StageSevenNeverFits(esc: Escape, n: Request, r: Outcome)
    requires Assembled(esc, n, r)
    ensures r.Fitting? ==> r.packet.stage <= 6
  {
    hide StageBody, WithoutContext, Fits, BodyLen, HeaderBytes, RequestLineBytes, BodyBudget;
    StageKeeps(n.body, 0);
    if r.Fitting? && r.packet.stage > 6 {
      SixFitsToo(esc, n, WithoutContext(n.body));
      assert false;
    }
  }

  lemma {:induction false} SixFitsToo(esc: Escape, n: Request, d: PacketBody)
    ensures Fits(esc, n, StageBody(d, 7)) ==> Fits(esc, n, StageBody(d, 6))
  {
    SevenLikeSix(esc, d);
    hide StageBody, BodyLen, HeaderBytes, RequestLineBytes, BodyBudget;
  }

  lemma {:induction false} SevenLikeSix(esc: Escape, b: PacketBody)
    ensures BodyLen(esc, StageBody(b, 7)) == BodyLen(esc, StageBody(b, 6))
  {
    LateStagesAreCloned(b, 6);
    StageKeeps(b, 6);
    var p := StageBody(b, 6);
    assert Apply(p, 7) == p;
    assert p.(compactStage := 6) == p;
    hide BodyLen, Apply;
    StageNumberLen(esc, p, 6, 7);
  }

  // ----- Which stages shrink -----

  lemma {:induction false} ElementsShrink(esc: Escape, f: WorkingItem -> WorkingItem, s: seq<WorkingItem>)
    requires forall x | x in s :: ItemLen(esc, f(x)) <= ItemLen(esc, x)
    ensures Elements(ItemSize(esc), Mapped(f, s)) <= Elements(ItemSize(esc), s)
  {
    hide ItemLen;
    if s != [] {
      ElementsShrink(esc, f, s[..|s| - 1]);
      assert s[|s| - 1] in s;
    }
  }

  lemma {:induction false} ElementFits(esc: Escape, s: seq<WorkingItem>, k: nat)
    requires k < |s|
    ensures ItemLen(esc, s[k]) + 1 <= Elements(ItemSize(esc), s)
  {
    hide ItemLen;
    if k < |s| - 1 {
      ElementFits(esc, s[..|s| - 1], k);
    }
  }

  lemma RewritesShrink(esc: Escape, i: WorkingItem)
    ensures ItemLen(esc, DropProvenance(i)) <= ItemLen(esc, i)
    ensures ItemLen(esc, PreferSummary(i)) <= ItemLen(esc, i)
    ensures ItemLen(esc, PreferBlob(i)) <= ItemLen(esc, i)
  {
  }

  /** Bodies that differ only in what the stages rewrite compare part by part. */
  lemma {:induction false} BodyLenBy(esc: Escape, b: PacketBody, c: PacketBody, k: int)
    requires c == b.(workingSet := c.workingSet, debug := c.debug, provenance := c.provenance,
                     compactStage := c.compactStage)
    requires b.compactStage <= 9 && c.compactStage <= 9
    requires c.debug == b.debug || c.debug == []
    requires c.provenance == b.provenance || c.provenance == []
    requires ListLen(esc, c.workingSet) <= ListLen(esc, b.workingSet) + k
    ensures BodyLen(esc, c) <= BodyLen(esc, b) + k
    ensures c.debug == b.debug && c.provenance == b.provenance ==>
              BodyLen(esc, c) - BodyLen(esc, b) == ListLen(esc, c.workingSet) - ListLen(esc, b.workingSet)
  {
    hide FixedMembers, ListLen, StringsMember, Number;
    OtherPartsAgree(esc, b, c);
    OneDigit(b.compactStage);
    OneDigit(c.compactStage);
  }

  lemma OtherPartsAgree(esc: Escape, b: PacketBody, c: PacketBody)
    requires c == b.(workingSet := c.workingSet, debug := c.debug, provenance := c.provenance,
                     compactStage := c.compactStage)
    ensures FixedMembers(esc, c) == FixedMembers(esc, b)
    ensures StringsMember(esc, "debug", []) == 0 && StringsMember(esc, "provenance", []) == 0
  {
  }

  lemma OneDigit(n: nat)
    requires n <= 9
    ensures Number(n) == 1
  {
  }

  lemma {:induction false} OnItemsShrinks(esc: Escape, f: WorkingItem -> WorkingItem, l: ItemList)
    requires forall i :: ItemLen(esc, f(i)) <= ItemLen(esc, i)
    ensures ListLen(esc, OnItems(f, l)) <= ListLen(esc, l)
  {
    hide ItemLen;
    if l.Items? {
      ElementsShrink(esc, f, l.items);
      hide Elements;
    }
  }

  lemma {:induction false} StageTwoShrinks(esc: Escape, l: ItemList)
    ensures ListLen(esc, Items(Mapped(DropProvenance, l.All()))) <= ListLen(esc, l)
  {
    forall i
      ensures ItemLen(esc, DropProvenance(i)) <= ItemLen(esc, i)
    {
      RewritesShrink(esc, i);
    }
    hide ItemLen, DropProvenance;
    if l.Items? {
      ElementsShrink(esc, DropProvenance, l.items);
      hide Elements;
    }
  }

  lemma {:induction false} StageThreeShrinks(esc: Escape, l: ItemList)
    ensures ListLen(esc, OnItems(PreferSummary, l)) <= ListLen(esc, l)
  {
    forall i
      ensures ItemLen(esc, PreferSummary(i)) <= ItemLen(esc, i)
    {
      RewritesShrink(esc, i);
    }
    OnItemsShrinks(esc, PreferSummary, l);
  }

  lemma {:induction false} StageFiveShrinks(esc: Escape, items: seq<WorkingItem>, k: nat)
    requires k < |items|
    ensures ListLen(esc, Items([items[k]])) <= ListLen(esc, Items(items))
  {
    hide ItemLen;
    ElementFits(esc, items, k);
    assert [items[k]][..0] == [];
    assert Elements(ItemSize(esc), [items[k]]) == ItemLen(esc, items[k]) + 1;
    hide Elements;
  }

  lemma {:induction false} StageSixShrinks(esc: Escape, l: ItemList)
    ensures ListLen(esc, OnItems(PreferBlob, l)) <= ListLen(esc, l)
  {
    forall i
      ensures ItemLen(esc, PreferBlob(i)) <= ItemLen(esc, i)
    {
      RewritesShrink(esc, i);
    }
    OnItemsShrinks(esc, PreferBlob, l);
  }

  lemma StepShape(b: PacketBody, stage: nat)
    requires Clone(b) == b
    ensures var c := Apply(b, stage);
      && c == b.(workingSet := c.workingSet, debug := c.debug, provenance := c.provenance)
      && (c.debug == b.debug || c.debug == [])
      && (c.provenance == b.provenance || c.provenance == [])
  {
  }

  lemma {:induction false} StepList(esc: Escape, b: PacketBody, stage: nat)
    requires Clone(b) == b && 1 <= stage <= 7 && stage != 4
    ensures ListLen(esc, Apply(b, stage).workingSet) <= ListLen(esc, b.workingSet)
  {
    hide ListLen, Mapped, DropProvenance, PreferSummary, PreferBlob;
    if stage == 2 {
      StageTwoShrinks(esc, b.workingSet);
    } else if stage == 3 {
      StageThreeShrinks(esc, b.workingSet);
    } else if stage == 5 && |b.workingSet.All()| > 1 {
      StageFiveShrinks(esc, b.workingSet.All(), Newest(b.workingSet.All()));
    } else if stage == 6 {
      StageSixShrinks(esc, b.workingSet);
    }
  }

  /** One step of a stage other than 4, on a body whose empty working set is nil. */
  lemma {:induction false} StepShrinks(esc: Escape, b: PacketBody, stage: nat)
    requires Clone(b) == b && b.compactStage <= 9 && 1 <= stage <= 7 && stage != 4
    ensures BodyLen(esc, Apply(b, stage).(compactStage := stage)) <= BodyLen(esc, b)
  {
    StepShape(b, stage);
    StepList(esc, b, stage);
    hide BodyLen, ListLen, Apply, Clone;
    BodyLenBy(esc, b, Apply(b, stage).(compactStage := stage), 0);
  }

  lemma {:induction false} CloneGrows(esc: Escape, b: PacketBody)
    requires b.compactStage <= 9
    ensures BodyLen(esc, Clone(b)) == BodyLen(esc, b) + if b.workingSet == Items([]) then 2 else 0
  {
    hide BodyLen;
    assert ListLen(esc, Items([])) == 2;
    BodyLenBy(esc, b, Clone(b), if b.workingSet == Items([]) then 2 else 0);
  }

  lemma ApplyClones(b: PacketBody, stage: nat)
    ensures Apply(Clone(b), stage) == Apply(b, stage) && Clone(Clone(b)) == Clone(b)
  {
  }

  /** Before stage 3 the working set keeps its length. */
  lemma {:induction false} EarlyWorkingSet(b: PacketBody)
    requires Clone(b) == b
    ensures Clone(StageBody(b, 0)) == StageBody(b, 0) && Clone(StageBody(b, 1)) == StageBody(b, 1)
    ensures StageBody(b, 2).workingSet == Items([]) <==> b.workingSet.All() == []
  {
    MappedLength(DropProvenance, b.workingSet.All());
    assert StageBody(b, 1).workingSet == b.workingSet;
    assert StageBody(b, 2) == Apply(StageBody(b, 1), 2).(compactStage := 2);
    hide Mapped;
  }

  lemma {:induction false} StageFollows(b: PacketBody, stage: nat)
    requires stage >= 1
    ensures StageBody(b, stage) == Apply(Clone(StageBody(b, stage - 1)), stage).(compactStage := stage)
  {
    ApplyClones(StageBody(b, stage - 1), stage);
    hide Apply, Clone;
  }

  lemma {:induction false} EmptyStageThree(esc: Escape, p: PacketBody)
    requires p.workingSet == Items([]) && p.compactStage == 2
    ensures BodyLen(esc, Apply(Clone(p), 3).(compactStage := 3)) == BodyLen(esc, p) + 2
  {
    CloneGrows(esc, p);
    assert Apply(Clone(p), 3) == Clone(p);
    assert Clone(p).(compactStage := 2) == Clone(p);
    hide BodyLen;
    StageNumberLen(esc, Clone(p), 2, 3);
  }

  /** Every stage except 4 leaves the packet no longer than the stage before it, but for one case:
      without working items stage 3 turns the list that stage 2 left empty into a nil one, and
      `null` is two bytes longer than `[]`. */
  lemma {:induction false} StagesShrinkExcept(esc: Escape, b: PacketBody, stage: nat)
    requires Clone(b) == b && 1 <= stage <= 7 && stage != 4
    ensures var (before, after) := (BodyLen(esc, StageBody(b, stage - 1)), BodyLen(esc, StageBody(b, stage)));
      if stage == 3 && b.workingSet.All() == [] then after == before + 2 else after <= before
  {
    EarlyWorkingSet(b);
    var p := StageBody(b, stage - 1);
    StageKeeps(b, stage - 1);
    StageFollows(b, stage);
    if stage == 3 && b.workingSet.All() == [] {
      EmptyStageThree(esc, p);
    } else {
      if stage >= 4 {
        LateStagesAreCloned(b, stage - 1);
      }
      assert Clone(p) == p;
      hide BodyLen, Apply, Clone, StageBody;
      StepShrinks(esc, p, stage);
    }
  }

  lemma {:induction false} CheckpointLen(esc: Escape, c: WorkingItem)
    ensures ListLen(esc, Items([c])) == ItemLen(esc, c) + 2
  {
    hide ItemLen;
    assert [c][..0] == [];
    assert Elements(ItemSize(esc), [c]) == ItemLen(esc, c) + 1;
  }

  /** Stage 4 makes the packet longer exactly when it collapses items that together are shorter
      than the one checkpoint item. */
  lemma {:induction false} StageFourGrowsIff(esc: Escape, b: PacketBody)
    requires Clone(b) == b
    ensures var (p, c) := (StageBody(b, 3), Checkpoint(b.checkpointSummaryRef));
      BodyLen(esc, StageBody(b, 4)) > BodyLen(esc, p) <==>
        && b.checkpointSummaryRef != "" && |p.workingSet.All()| > 1
        && ItemLen(esc, c) + 1 > Elements(ItemSize(esc), p.workingSet.All())
  {
    LateStagesAreCloned(b, 3);
    StageKeeps(b, 3);
    StageFollows(b, 4);
    var p := StageBody(b, 3);
    assert Clone(p) == p;
    hide StageBody, BodyLen, ItemLen;
    StepFour(esc, p);
  }

  lemma {:induction false} StepFour(esc: Escape, p: PacketBody)
    requires Clone(p) == p && p.compactStage == 3
    ensures BodyLen(esc, Apply(p, 4).(compactStage := 4)) > BodyLen(esc, p) <==>
      && p.checkpointSummaryRef != "" && |p.workingSet.All()| > 1
      && ItemLen(esc, Checkpoint(p.checkpointSummaryRef)) + 1 > Elements(ItemSize(esc), p.workingSet.All())
  {
    hide BodyLen, ItemLen;
    var c := Checkpoint(p.checkpointSummaryRef);
    if p.checkpointSummaryRef != "" && |p.workingSet.All()| > 1 {
      CheckpointLen(esc, c);
      BodyLenBy(esc, p, Apply(p, 4).(compactStage := 4), ListLen(esc, Items([c])) - ListLen(esc, p.workingSet));
    } else {
      StageNumberLen(esc, p, 3, 4);
      assert p.(compactStage := 3) == p;
    }
  }

  /** Two small items and a checkpoint: stage 4 replaces them by one longer item. Text without
      special characters has its own length. */
  lemma {:induction false} CheckpointCanGrow(b: PacketBody)
    requires b == PacketBody("s", "main", Items([SmallItem("a", 1), SmallItem("b", 2)]), "", [], [], [], [],
                             "summary://checkpoint/sum", 0)
    ensures BodyLen(s => |s|, StageBody(b, 4)) > BodyLen(s => |s|, StageBody(b, 3))
  {
    var esc: Escape := s => |s|;
    var items := [SmallItem("a", 1), SmallItem("b", 2)];
    SmallItemsStay(b);
    PairElements(ItemSize(esc), items[0], items[1]);
    SmallItemLen(items[0]);
    SmallItemLen(items[1]);
    LongCheckpointLen();
    hide StageBody, BodyLen, ItemLen;
    StageFourGrowsIff(esc, b);
  }

  lemma {:induction false} SmallItemsStay(b: PacketBody)
    requires b.workingSet == Items([SmallItem("a", 1), SmallItem("b", 2)])
    ensures StageBody(b, 3).workingSet == b.workingSet
  {
    var items := b.workingSet.items;
    PairMapped(DropProvenance, items[0], items[1]);
    PairMapped(PreferSummary, items[0], items[1]);
    assert DropProvenance(items[0]) == PreferSummary(items[0]) == items[0];
    assert DropProvenance(items[1]) == PreferSummary(items[1]) == items[1];
    hide Mapped, DropProvenance, PreferSummary;
    assert StageBody(b, 1).workingSet == b.workingSet;
    assert StageBody(b, 2).workingSet == b.workingSet;
  }

  lemma SmallItemLen(i: WorkingItem)
    requires i == SmallItem(i.id, i.frontierOrdinal) && |i.id| == 1 && 1 <= i.frontierOrdinal <= 9
    ensures ItemLen(s => |s|, i) == 42
  {
  }

  lemma LongCheckpointLen()
    ensures ItemLen(s => |s|, Checkpoint("summary://checkpoint/sum")) == 88
  {
  }

  function SmallItem(id: string, ordinal: int): WorkingItem {
    WorkingItem(id, "k", "", "", "", ordinal, "", false)
  }

  lemma {:induction false} PairMapped(f: WorkingItem -> WorkingItem, i: WorkingItem, j: WorkingItem)
    ensures Mapped(f, [i, j]) == [f(i), f(j)]
  {
    assert [i, j][..1] == [i] && [i][..0] == [];
    assert Mapped(f, [i]) == [f(i)];
  }

  lemma {:induction false} PairElements(size: WorkingItem -> nat, i: WorkingItem, j: WorkingItem)
    ensures Elements(size, [i, j]) == size(i) + size(j) + 2
  {
    assert [i, j][..1] == [i] && [i][..0] == [];
    assert Elements(size, [i]) == size(i) + 1;
  }

  // ----- What survives compaction -----

  ghost predicate SameItem(i: WorkingItem, s: WorkingItem) {
    (s.id, s.kind, s.summaryRef, s.blobRef, s.frontierOrdinal)
    == (i.id, i.kind, i.summaryRef, i.blobRef, i.frontierOrdinal)
  }

  /** By this stage the items have been collapsed into one checkpoint item. */
  predicate Collapses(b: PacketBody, stage: nat) {
    stage >= 4 && b.checkpointSummaryRef != "" && |b.workingSet.All()| > 1
  }

  lemma {:induction false} ItemStep(p: PacketBody, stage: nat, k: nat)
    requires 1 <= stage <= 4 && !Collapses(p, stage) && k < |p.workingSet.All()|
    ensures var q := Apply(p, stage);
      && |q.workingSet.All()| == |p.workingSet.All()|
      && SameItem(p.workingSet.All()[k], q.workingSet.All()[k])
      && q.workingSet.All()[k].text == if stage == 3 && p.workingSet.All()[k].summaryRef != "" then ""
        else p.workingSet.All()[k].text
  {
    MappedAt(DropProvenance, p.workingSet.All(), k);
    MappedAt(PreferSummary, p.workingSet.All(), k);
    hide Mapped;
  }

  /** Unless stage 4 collapses them, every stage up to 4 keeps the items one by one; only stage 3
      touches texts, and only of items that have a summary. */
  lemma {:induction false} ItemsUpToFour(b: PacketBody, stage: nat, k: nat)
    requires stage <= 4 && !Collapses(b, stage) && k < |b.workingSet.All()|
    ensures |StageBody(b, stage).workingSet.All()| == |b.workingSet.All()|
    ensures var (i, s) := (b.workingSet.All()[k], StageBody(b, stage).workingSet.All()[k]);
      && SameItem(i, s)
      && s.text == if stage >= 3 && i.summaryRef != "" then "" else i.text
  {
    if stage > 0 {
      ItemsUpToFour(b, stage - 1, k);
      StageKeeps(b, stage - 1);
      var p := StageBody(b, stage - 1);
      hide Apply;
      ItemStep(p, stage, k);
      assert StageBody(b, stage) == Apply(p, stage).(compactStage := stage);
    }
  }

  /** What is gone from a stage on: debug fields, optional provenance, texts that a summary stands
      for, all but one item, texts that a blob stands for. */
  ghost predicate Removed(b: PacketBody, stage: nat) {
    var items := b.workingSet.All();
    && (stage >= 1 ==> b.debug == [])
    && (stage >= 2 ==> b.provenance == [])
    && (stage >= 2 ==> forall i | i in items :: i.provenanceRequired || i.provenance == "")
    && (stage >= 3 ==> forall i | i in items :: i.summaryRef == "" || i.text == "")
    && (stage >= 4 && b.checkpointSummaryRef != "" ==> |items| <= 1)
    && (stage >= 5 ==> |items| <= 1)
    && (stage >= 6 ==> forall i | i in items :: i.blobRef == "" || i.text == "")
  }

  lemma {:induction false} StepRemoves(p: PacketBody, stage: nat)
    requires stage >= 1 && Removed(p, stage - 1)
    ensures Removed(Apply(p, stage), stage)
  {
    hide Mapped;
    var (items, after) := (p.workingSet.All(), Apply(p, stage).workingSet.All());
    forall i | i in after
      ensures stage >= 2 ==> i.provenanceRequired || i.provenance == ""
      ensures stage >= 3 ==> i.summaryRef == "" || i.text == ""
      ensures stage >= 6 ==> i.blobRef == "" || i.text == ""
    {
      var k := AtIndex(after, i);
      if stage == 2 {
        MappedAt(DropProvenance, items, k);
      } else if stage == 3 && items != [] {
        MappedAt(PreferSummary, items, k);
      } else if stage == 6 && items != [] {
        MappedAt(PreferBlob, items, k);
      }
    }
  }

  /** What a stage removes stays removed in every later one. */
  lemma {:induction false} StagesRemove(b: PacketBody, stage: nat)
    ensures Removed(StageBody(b, stage), stage)
  {
    if stage > 0 {
      StagesRemove(b, stage - 1);
      StepRemoves(StageBody(b, stage - 1), stage);
      hide Apply;
    }
  }

  /** Of several items stage 5 keeps the newest, the first of the highest ordinal. */
  lemma {:induction false} StageFiveKeepsNewest(b: PacketBody)
    requires |StageBody(b, 4).workingSet.All()| > 1
    ensures var items := StageBody(b, 4).workingSet.All(); exists k: nat | k < |items| ::
      && StageBody(b, 5).workingSet == Items([items[k]])
      && (forall j | 0 <= j < |items| :: items[j].frontierOrdinal <= items[k].frontierOrdinal)
      && (forall j | 0 <= j < k :: items[j].frontierOrdinal < items[k].frontierOrdinal)
  {
    StageFollows(b, 5);
    ApplyClones(StageBody(b, 4), 5);
    hide StageBody;
    StepFive(StageBody(b, 4));
  }

  lemma StepFive(p: PacketBody)
    requires |p.workingSet.All()| > 1
    ensures Apply(p, 5).workingSet == Items([p.workingSet.All()[Newest(p.workingSet.All())]])
  {
  }

  /** `s` is what is left of `i`: the same item, with or without its text and its provenance. */
  ghost predicate StemsFrom(i: WorkingItem, s: WorkingItem) {
    SameItem(i, s) && (s.text == i.text || s.text == "") && (s.provenance == i.provenance || s.provenance == "")
  }

  /** An item of the body or, once they are collapsed, the checkpoint item. */
  ghost predicate IsSource(b: PacketBody, stage: nat, i: WorkingItem) {
    i in b.workingSet.All() || (Collapses(b, stage) && i == Checkpoint(b.checkpointSummaryRef))
  }

  lemma {:induction false} StepStems(p: PacketBody, stage: nat, s: WorkingItem) returns (i: WorkingItem)
    requires s in Apply(p, stage).workingSet.All()
    ensures StemsFrom(i, s)
    ensures i in p.workingSet.All() || (stage == 4 && Collapses(p, 4) && i == Checkpoint(p.checkpointSummaryRef))
  {
    hide Mapped;
    var items := p.workingSet.All();
    var k := AtIndex(Apply(p, stage).workingSet.All(), s);
    if stage == 4 && Collapses(p, 4) {
      i := s;
    } else if stage == 5 && |items| > 1 {
      i := items[Newest(items)];
    } else {
      if stage == 2 {
        MappedAt(DropProvenance, items, k);
      } else if stage == 3 && items != [] {
        MappedAt(PreferSummary, items, k);
      } else if stage == 6 && items != [] {
        MappedAt(PreferBlob, items, k);
      }
      i := items[k];
    }
  }

  lemma StemsAcross(i: WorkingItem, m: WorkingItem, s: WorkingItem)
    requires StemsFrom(i, m) && StemsFrom(m, s)
    ensures StemsFrom(i, s)
  {
  }

  lemma {:induction false} EarlyLength(b: PacketBody, stage: nat)
    requires stage <= 3
    ensures |StageBody(b, stage).workingSet.All()| == |b.workingSet.All()|
  {
    if stage > 0 {
      EarlyLength(b, stage - 1);
      ApplyLength(StageBody(b, stage - 1), stage);
      hide Apply;
    }
  }

  lemma ApplyLength(p: PacketBody, stage: nat)
    requires 1 <= stage <= 3
    ensures |Apply(p, stage).workingSet.All()| == |p.workingSet.All()|
  {
  }

  /** Compaction invents no items: each one stems from the body it started with, or is the one
      checkpoint item from stage 4 on. */
  lemma {:induction false} ItemsStem(b: PacketBody, stage: nat, s: WorkingItem) returns (i: WorkingItem)
    requires s in StageBody(b, stage).workingSet.All()
    ensures StemsFrom(i, s) && IsSource(b, stage, i)
  {
    if stage == 0 {
      i := s;
    } else {
      var before := StageBody(b, stage - 1);
      hide Apply;
      assert StageBody(b, stage).workingSet == Apply(before, stage).workingSet;
      hide StageBody, StemsFrom, SameItem, Collapses;
      var m := StepStems(before, stage, s);
      i := m;
      if m in before.workingSet.All() {
        i := ItemsStem(b, stage - 1, m);
        StemsAcross(i, m, s);
        SourceStays(b, stage, i);
      } else {
        CollapsesLater(b);
      }
    }
  }

  lemma SourceStays(b: PacketBody, stage: nat, i: WorkingItem)
    requires stage > 0 && IsSource(b, stage - 1, i)
    ensures IsSource(b, stage, i)
  {
  }

  /** The body that stage 4 meets is collapsed if the one that came in is. */
  lemma {:induction false} CollapsesLater(b: PacketBody)
    ensures Collapses(StageBody(b, 3), 4) ==> Collapses(b, 4)
    ensures StageBody(b, 3).checkpointSummaryRef == b.checkpointSummaryRef
  {
    StageKeeps(b, 3);
    EarlyLength(b, 3);
    hide StageBody;
  }

  lemma ApplyLists(b: PacketBody, stage: nat)
    ensures Apply(b, stage).debug == if stage == 1 then [] else b.debug
    ensures Apply(b, stage).provenance == if stage == 2 then [] else b.provenance
  {
  }

  /** Debug fields go at stage 1 and provenance at stage 2; until then they are as they were. */
  lemma {:induction false} StageLists(b: PacketBody, stage: nat)
    ensures StageBody(b, stage).debug == if stage >= 1 then [] else b.debug
    ensures StageBody(b, stage).provenance == if stage >= 2 then [] else b.provenance
  {
    hide Apply;
    if stage > 0 {
      StageLists(b, stage - 1);
      ApplyLists(StageBody(b, stage - 1), stage);
    }
  }

  lemma {:induction false} HeaderBytesSum(headers: seq<Header>)
    ensures HeaderBytes(headers) == 2 + SumBy((h: Header) => |h.name| + 2 + |h.value| + 2, headers)
  {
    if headers != [] {
      HeaderBytesSum(headers[..|headers| - 1]);
    }
  }

  /** Sorting the headers does not change how many bytes they take. */
  lemma {:induction false} HeaderBytesPermuted(a: seq<Header>, b: seq<Header>)
    requires multiset(a) == multiset(b)
    ensures HeaderBytes(a) == HeaderBytes(b)
  {
    HeaderBytesSum(a);
    HeaderBytesSum(b);
    SumPermuted((h: Header) => |h.name| + 2 + |h.value| + 2, a, b);
  }

  /** What a packet keeps of its request besides the items: its ids, all of frontier and constraints,
      the external context whole or not at all, and debug and provenance until their stage. */
  ghost predicate FrameOf(req: Request, p: Packet) {
    var (b, c) := (req.body, p.body);
    && c.sessionId == b.sessionId && c.branchHandle == b.branchHandle
      && c.checkpointSummaryRef == b.checkpointSummaryRef
    && multiset(c.frontier) == multiset(b.frontier) && multiset(c.constraints) == multiset(b.constraints)
    && multiset(c.debug) == (if p.stage >= 1 then multiset{} else multiset(b.debug))
    && multiset(c.provenance) == (if p.stage >= 2 then multiset{} else multiset(b.provenance))
    && c.compactStage == p.stage
    && (c.externalContext == "" || (c.externalContext == TrimSpace(b.externalContext) && p.stage == 0))
    && p.externalContextBytes == |TrimSpace(b.externalContext)|
    && (p.externalContextStatus == Omitted <==> TrimSpace(b.externalContext) == "")
    && (p.externalContextStatus == Included <==> c.externalContext != "")
  }

  /** Equal but for the working set and the order of the lists; the external context is trimmed. */
  ghost predicate SameMembersAs(b: PacketBody, n: PacketBody) {
    && n.sessionId == b.sessionId && n.branchHandle == b.branchHandle
      && n.checkpointSummaryRef == b.checkpointSummaryRef
    && multiset(n.frontier) == multiset(b.frontier) && multiset(n.constraints) == multiset(b.constraints)
    && multiset(n.debug) == multiset(b.debug) && multiset(n.provenance) == multiset(b.provenance)
    && n.externalContext == TrimSpace(b.externalContext)
  }

  lemma {:induction false} NormalMembers(b: PacketBody, n: PacketBody)
    requires IsNormalBody(b, n)
    ensures SameMembersAs(b, n)
  {
    hide NormItem, Mapped, WorkOrder, TrimSpace, Ordered, ConstraintOrder, StrLess;
  }

  lemma {:induction false} SentFrame(b: PacketBody, n: PacketBody, d: PacketBody, stage: nat)
    requires SameMembersAs(b, n) && (d == n || d == WithoutContext(n))
    ensures var c := StageBody(d, stage);
      && c.sessionId == b.sessionId && c.branchHandle == b.branchHandle
      && c.checkpointSummaryRef == b.checkpointSummaryRef && c.compactStage == stage
      && multiset(c.frontier) == multiset(b.frontier) && multiset(c.constraints) == multiset(b.constraints)
      && multiset(c.debug) == (if stage >= 1 then multiset{} else multiset(b.debug))
      && multiset(c.provenance) == (if stage >= 2 then multiset{} else multiset(b.provenance))
      && (c.externalContext == "" || c.externalContext == TrimSpace(b.externalContext))
  {
    StageKeeps(d, stage);
    StageLists(d, stage);
    hide StageBody, TrimSpace;
  }

  lemma {:induction false} PacketFrame(esc: Escape, upper: string -> string, req: Request, n: Request, r: Outcome)
    requires IsNormalized(upper, req, n) && Assembled(esc, n, r) && r.Fitting?
    ensures FrameOf(req, r.packet)
  {
    hide IsNormalBody, Assembled, StageBody, TrimSpace, WithoutContext, HeaderOrder, OrDefault;
    NormalMembers(req.body, n.body);
    hide IsNormalized;
    ContextStatusIsTrue(esc, n, r);
    var b := SentBody(esc, n, r);
    SentFrame(req.body, n.body, b, r.packet.stage);
  }

  lemma {:induction false} SentBody(esc: Escape, n: Request, r: Outcome) returns (b: PacketBody)
    requires Assembled(esc, n, r) && r.Fitting?
    ensures b.workingSet.All() == n.body.workingSet.All() && b.checkpointSummaryRef == n.body.checkpointSummaryRef
    ensures r.packet.body == StageBody(b, r.packet.stage) && (b == n.body || b == WithoutContext(n.body))
  {
    hide StageBody, Fits, Apply, BodyLen, HeaderBytes, RequestLineBytes, BodyBudget;
    StageKeeps(n.body, 0);
    StageKeeps(WithoutContext(n.body), r.packet.stage);
    b := if Fits(esc, n, StageBody(n.body, 0)) then n.body else WithoutContext(n.body);
  }

  lemma NormItemStems(i: WorkingItem)
    ensures SameItem(i, NormItem(i)) && NormItem(i).text <= i.text && NormItem(i).provenance == i.provenance
    ensures i.kind != "tool.result" && i.blobRef == "" ==> NormItem(i) == i
  {
  }

  lemma {:induction false} NormalLength(upper: string -> string, req: Request, n: Request)
    requires IsNormalized(upper, req, n)
    ensures |n.body.workingSet.All()| == |req.body.workingSet.All()|
    ensures n.body.checkpointSummaryRef == req.body.checkpointSummaryRef
  {
    hide NormItem, WorkOrder, Ordered;
    var (s, r) := (Mapped(NormItem, req.body.workingSet.All()), n.body.workingSet.All());
    assert |multiset(s)| == |s| && |multiset(r)| == |r|;
  }

  /** Every item of a packet comes from a requested one and carries a prefix of its text: what
      normalising leaves of it, or nothing. The exception is the one checkpoint item into which
      several items may be collapsed from stage 4 on. */
  lemma {:induction false} PacketItemsStem(esc: Escape, upper: string -> string, req: Request, n: Request, r: Outcome,
                                           s: WorkingItem)
    returns (i: WorkingItem)
    requires IsNormalized(upper, req, n) && Assembled(esc, n, r) && r.Fitting?
    requires s in r.packet.body.workingSet.All()
    ensures SameItem(i, s) && IsSource(req.body, r.packet.stage, i)
    ensures s.text <= i.text && (s.text == NormItem(i).text || s.text == "")
    ensures s.provenance == i.provenance || s.provenance == ""
  {
    var items := req.body.workingSet.All();
    SameMembers(Mapped(NormItem, items), n.body.workingSet.All());
    NormalLength(upper, req, n);
    hide Assembled, NormItem, Mapped, WorkOrder, TrimSpace;
    var b := SentBody(esc, n, r);
    hide StageBody;
    var m := ItemsStem(b, r.packet.stage, s);
    if m in b.workingSet.All() {
      var k := AtIndex(Mapped(NormItem, items), m);
      MappedAt(NormItem, items, k);
      i := items[k];
      NormItemStems(i);
    } else {
      i := m;
    }
  }

  /** Up to stage 4, unless it collapses the items, every item is in the packet with all that
      normalising leaves of its text, except that a summary replaces it from stage 3 on. */
  lemma {:induction false} ItemIsSent(esc: Escape, upper: string -> string, req: Request, n: Request, r: Outcome,
                                      i: WorkingItem)
    returns (s: WorkingItem)
    requires IsNormalized(upper, req, n) && Assembled(esc, n, r) && r.Fitting? && r.packet.stage <= 4
    requires !Collapses(req.body, r.packet.stage) && i in req.body.workingSet.All()
    ensures s in r.packet.body.workingSet.All() && SameItem(i, s)
    ensures s.text == if r.packet.stage >= 3 && i.summaryRef != "" then "" else NormItem(i).text
  {
    var items := req.body.workingSet.All();
    SameMembers(Mapped(NormItem, items), n.body.workingSet.All());
    NormalLength(upper, req, n);
    hide Assembled, NormItem, Mapped, WorkOrder, TrimSpace, StageBody;
    var b := SentBody(esc, n, r);
    var k := AtIndex(items, i);
    MappedAt(NormItem, items, k);
    NormItemStems(i);
    assert NormItem(i) in Mapped(NormItem, items);
    var j := AtIndex(b.workingSet.All(), NormItem(i));
    ItemsUpToFour(b, r.packet.stage, j);
    s := StageBody(b, r.packet.stage).workingSet.All()[j];
  }

  /** Up to stage 4, unless it collapses the items, a plain item, no tool result and with neither blob nor summary, is
      in the packet
      with its whole text. */
  lemma {:induction false} PlainItemIsSent(esc: Escape, upper: string -> string, req: Request, n: Request, r: Outcome,
                                           i: WorkingItem)
    returns (s: WorkingItem)
    requires IsNormalized(upper, req, n) && Assembled(esc, n, r) && r.Fitting? && r.packet.stage <= 4
    requires !Collapses(req.body, r.packet.stage) && i in req.body.workingSet.All()
    requires i.kind != "tool.result" && i.blobRef == "" && i.summaryRef == ""
    ensures s in r.packet.body.workingSet.All() && SameItem(i, s) && s.text == i.text
  {
    hide IsNormalized, Assembled, NormItem;
    NormItemStems(i);
    s := ItemIsSent(esc, upper, req, n, r, i);
  }

  // ----- Canonicity -----

  /** The outcome depends on nothing but the normalised request. */
  lemma {:induction false} AssembledUnique(esc: Escape, n: Request, r1: Outcome, r2: Outcome)
    requires Assembled(esc, n, r1) && Assembled(esc, n, r2)
    ensures r1 == r2
  {
    hide StageBody, WithoutContext, Fits, PacketOf;
    var d := WithoutContext(n.body);
    if !Fits(esc, n, StageBody(n.body, 0)) && r1.Fitting? && r2.Fitting? {
      assert !(r1.packet.stage < r2.packet.stage) && !(r2.packet.stage < r1.packet.stage);
    }
  }

  /** Equal but for the order of their lists. */
  ghost predicate SamePacketRequest(a: Request, b: Request) {
    var (p, q) := (a.body, b.body);
    && (a.verb, a.path) == (b.verb, b.path)
    && multiset(a.headers) == multiset(b.headers)
    && q == p.(workingSet := q.workingSet, frontier := q.frontier, constraints := q.constraints, debug := q.debug,
               provenance := q.provenance)
    && multiset(p.workingSet.All()) == multiset(q.workingSet.All())
    && multiset(p.frontier) == multiset(q.frontier)
    && multiset(p.constraints) == multiset(q.constraints)
    && multiset(p.debug) == multiset(q.debug)
    && multiset(p.provenance) == multiset(q.provenance)
  }

  lemma {:induction false} SameSorting<T(!new)>(less: (T, T) -> bool, s: seq<T>, t: seq<T>, p: seq<T>, q: seq<T>)
    requires StrictOrder(less) && Separated(less, s) && multiset(s) == multiset(t)
    requires IsSorting(less, s, p) && IsSorting(less, t, q)
    ensures p == q
  {
    SameMembers(s, p);
    SortingUnique(less, p, q);
  }

  lemma {:induction false} SameWorkingSet(a: ItemList, b: ItemList, x: ItemList, y: ItemList)
    requires multiset(a.All()) == multiset(b.All()) && Separated(WorkOrder(), Mapped(NormItem, a.All()))
    requires IsSorting(WorkOrder(), Mapped(NormItem, a.All()), x.All()) && (x.NilList? <==> a.All() == [])
    requires IsSorting(WorkOrder(), Mapped(NormItem, b.All()), y.All()) && (y.NilList? <==> b.All() == [])
    ensures x == y
  {
    WorkOrderTies();
    hide WorkOrder, NormItem, Mapped, IsSorting, Separated, StrictOrder;
    MappedPermuted(NormItem, a.All(), b.All());
    SameMembers(a.All(), b.All());
    SameSorting(WorkOrder(), Mapped(NormItem, a.All()), Mapped(NormItem, b.All()), x.All(), y.All());
  }

  /** Reordering any list of the request changes neither the normalised request nor the packet, as
      long as no two different normalised items share ordinal and id. */
  lemma {:induction false} AssembleCanonical(esc: Escape, upper: string -> string, a: Request, b: Request,
                          n1: Request, n2: Request, r1: Outcome, r2: Outcome)
    requires SamePacketRequest(a, b) && Separated(WorkOrder(), Mapped(NormItem, a.body.workingSet.All()))
    requires IsNormalized(upper, a, n1) && Assembled(esc, n1, r1)
    requires IsNormalized(upper, b, n2) && Assembled(esc, n2, r2)
    ensures n1 == n2 && r1 == r2
  {
    hide Assembled;
    SameWorkingSet(a.body.workingSet, b.body.workingSet, n1.body.workingSet, n2.body.workingSet);
    StrLessTotal();
    OrdersAreTotal();
    hide WorkOrder, NormItem, Mapped, IsSorting, StrictOrder, TrimSpace, OrDefault;
    SameSorting(HeaderOrder(), a.headers, b.headers, n1.headers, n2.headers);
    SameSorting(ConstraintOrder(), a.body.constraints, b.body.constraints, n1.body.constraints, n2.body.constraints);
    SameSorting(StrLess, a.body.frontier, b.body.frontier, n1.body.frontier, n2.body.frontier);
    SameSorting(StrLess, a.body.debug, b.body.debug, n1.body.debug, n2.body.debug);
    SameSorting(StrLess, a.body.provenance, b.body.provenance, n1.body.provenance, n2.body.provenance);
    hide HeaderOrder, ConstraintOrder, Separated, StrLess;
    AssembledUnique(esc, n1, r1, r2);
  }

  /** A normalised request whose working set is the given one. */
  function WithItems(upper: string -> string, req: Request, items: seq<WorkingItem>): Request {
    Request(OrDefault(upper(TrimSpace(req.verb)), "POST"), OrDefault(TrimSpace(req.path), "/v1/responses"),
            Sort(HeaderOrder(), req.headers),
            req.body.(workingSet := if items == [] then NilList else Items(items),
                      externalContext := TrimSpace(req.body.externalContext),
                      frontier := Sort(StrLess, req.body.frontier),
                      constraints := Sort(ConstraintOrder(), req.body.constraints),
                      debug := Sort(StrLess, req.body.debug), provenance := Sort(StrLess, req.body.provenance)))
  }

  lemma {:induction false} WithItemsIsNormalized(upper: string -> string, req: Request, items: seq<WorkingItem>)
    requires IsSorting(WorkOrder(), Mapped(NormItem, req.body.workingSet.All()), items)
    ensures IsNormalized(upper, req, WithItems(upper, req, items))
  {
    StrLessTotal();
    OrdersAreTotal();
    SortSorts(HeaderOrder(), req.headers);
    SortSorts(ConstraintOrder(), req.body.constraints);
    SortSorts(StrLess, req.body.frontier);
    SortSorts(StrLess, req.body.debug);
    SortSorts(StrLess, req.body.provenance);
    SameMembers(Mapped(NormItem, req.body.workingSet.All()), items);
    hide WorkOrder, NormItem, Mapped, IsSorting, StrictOrder, TrimSpace, OrDefault, Sort, HeaderOrder, ConstraintOrder;
  }

  /** Exactly then normalisation has one result. */
  lemma {:induction false} NormalizedUniqueIff(upper: string -> string, req: Request)
    ensures (forall n1, n2 | IsNormalized(upper, req, n1) && IsNormalized(upper, req, n2) :: n1 == n2)
        <==> Separated(WorkOrder(), Mapped(NormItem, req.body.workingSet.All()))
  {
    var s := Mapped(NormItem, req.body.workingSet.All());
    WorkOrderTies();
    SortingCanonicalIff(WorkOrder(), s);
    if Separated(WorkOrder(), s) {
      forall n1, n2 | IsNormalized(upper, req, n1) && IsNormalized(upper, req, n2)
        ensures n1 == n2
      {
        NormalizedUnique(upper, req, n1, n2);
      }
    } else {
      var r1, r2 :| IsSorting(WorkOrder(), s, r1) && IsSorting(WorkOrder(), s, r2) && r1 != r2;
      hide WorkOrder, NormItem, Mapped, IsNormalized;
      WithItemsIsNormalized(upper, req, r1);
      WithItemsIsNormalized(upper, req, r2);
      assert WithItems(upper, req, r1).body.workingSet.All() == r1;
      assert WithItems(upper, req, r2).body.workingSet.All() == r2;
    }
  }

  /** Two items with one id and one ordinal but different kinds have two normal forms. */
  lemma {:induction false} TiedItemsHaveNoOrder(upper: string -> string, req: Request)
    returns (n1: Request, n2: Request)
    requires req.body.workingSet == Items([SmallItem("a", 1), SmallItem("a", 1).(kind := "l")])
    ensures IsNormalized(upper, req, n1) && IsNormalized(upper, req, n2) && n1 != n2
  {
    var (i, j) := (SmallItem("a", 1), SmallItem("a", 1).(kind := "l"));
    PairMapped(NormItem, i, j);
    WorkOrderTies();
    assert NormItem(i) == i && NormItem(j) == j && i != j && Tie(WorkOrder(), i, j);
    hide NormItem, WorkOrder, Mapped, IsNormalized;
    NormalizedUniqueIff(upper, req);
    assert [i, j][0] == i && [i, j][1] == j;
    assert !Separated(WorkOrder(), [i, j]);
    n1, n2 :| IsNormalized(upper, req, n1) && IsNormalized(upper, req, n2) && n1 != n2;
  }

  lemma {:induction false} NormalizedUnique(upper: string -> string, req: Request, n1: Request, n2: Request)
    requires IsNormalized(upper, req, n1) && IsNormalized(upper, req, n2)
    requires Separated(WorkOrder(), Mapped(NormItem, req.body.workingSet.All()))
    ensures n1 == n2
  {
    SameWorkingSet(req.body.workingSet, req.body.workingSet, n1.body.workingSet, n2.body.workingSet);
    StrLessTotal();
    OrdersAreTotal();
    hide WorkOrder, NormItem, Mapped, IsSorting, StrictOrder, TrimSpace, OrDefault;
    SameSorting(HeaderOrder(), req.headers, req.headers, n1.headers, n2.headers);
    SameSorting(ConstraintOrder(), req.body.constraints, req.body.constraints, n1.body.constraints,
                n2.body.constraints);
    SameSorting(StrLess, req.body.frontier, req.body.frontier, n1.body.frontier, n2.body.frontier);
    SameSorting(StrLess, req.body.debug, req.body.debug, n1.body.debug, n2.body.debug);
    SameSorting(StrLess, req.body.provenance, req.body.provenance, n1.body.provenance, n2.body.provenance);
  }

  lemma NormItemIdempotent(i: WorkingItem)
    ensures NormItem(NormItem(i)) == NormItem(i)
  {
  }

  lemma {:induction false} NormItemsSettle(s: seq<WorkingItem>)
    requires forall i | i in s :: NormItem(i) == i
    ensures Mapped(NormItem, s) == s
  {
    hide NormItem;
    if s != [] {
      NormItemsSettle(s[..|s| - 1]);
      assert s == s[..|s| - 1] + [s[|s| - 1]];
    }
  }

  lemma {:induction false} NormalItems(s: seq<WorkingItem>, r: seq<WorkingItem>)
    requires multiset(r) == multiset(Mapped(NormItem, s))
    ensures Mapped(NormItem, r) == r
  {
    hide NormItem;
    SameMembers(r, Mapped(NormItem, s));
    forall i | i in r
      ensures NormItem(i) == i
    {
      var k := AtIndex(Mapped(NormItem, s), i);
      MappedAt(NormItem, s, k);
      NormItemIdempotent(s[k]);
    }
    NormItemsSettle(r);
  }

  lemma {:induction false} NormalBodySettles(b: PacketBody, n: PacketBody)
    requires IsNormalBody(b, n)
    ensures IsNormalBody(n, n)
  {
    NormalItems(b.workingSet.All(), n.workingSet.All());
    SameMembers(n.workingSet.All(), Mapped(NormItem, b.workingSet.All()));
    TrimSpaceIdempotent(b.externalContext);
    hide WorkOrder, NormItem, Mapped, TrimSpace, ConstraintOrder, StrLess;
  }

  lemma {:induction false} DefaultsTrim()
    ensures TrimSpace("POST") == "POST" && TrimSpace("/v1/responses") == "/v1/responses"
  {
    hide TrimSpace;
    TrimNothing("POST");
    TrimNothing("/v1/responses");
  }

  /** Normalising twice is normalising once: a normalised request is a normal form of itself.
      Upper-casing must leave no white space to trim and nothing more to upper-case. */
  lemma {:induction false} NormalizeIdempotent(upper: string -> string, req: Request, n: Request)
    requires IsNormalized(upper, req, n)
    requires upper("POST") == "POST"
    requires forall s :: upper(TrimSpace(upper(TrimSpace(s)))) == upper(TrimSpace(s))
    ensures IsNormalized(upper, n, n)
  {
    NormalBodySettles(req.body, n.body);
    DefaultsTrim();
    TrimSpaceIdempotent(req.path);
    hide IsNormalBody, TrimSpace, HeaderOrder, StrLess;
  }
}
