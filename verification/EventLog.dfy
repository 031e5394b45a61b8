/** Events of the append-only session log (internal/eventlog) and the dynamically typed values
    that their `Meta` maps hold. */
module EventLog {

  /** Go's `any`, as far as event metadata uses it. */
  datatype Value =
    | Null
    | Str(s: string)
    | Int(n: int)
    | Float(r: real)
    | Bool(b: bool)
    | Strs(strs: seq<string>)               // []string
    | List(items: seq<Value>)               // []any
    | Obj(obj: Object)                      // map[string]any
    | Objs(objs: seq<Object>)               // []map[string]any

  datatype Object = Object(fields: map<string, Value>)

  /** A nil map and an empty one read alike, so both are `map[]`. */
  type Meta = map<string, Value>

  /** The kinds of internal/eventlog/kinds.go that some component treats specially; any other
      string is `KindOther`. */
  datatype Kind =
    | KindTurnUser
    | KindTurnAgent
    | KindToolRequest
    | KindToolResult
    | KindToolFailure
    | KindSummaryCheckpoint
    | KindSummaryRebuild
    | KindBranchFork
    | KindPacketCandidate
    | KindPacketSent
    | KindPacketRejected
    | KindConsultResolved
    | KindConsultUnresolved
    | KindOther(name: string)
  {
    function Name(): string {
      match this
      case KindTurnUser => "turn.user"
      case KindTurnAgent => "turn.agent"
      case KindToolRequest => "tool.request"
      case KindToolResult => "tool.result"
      case KindToolFailure => "tool.failure"
      case KindSummaryCheckpoint => "summary.checkpoint"
      case KindSummaryRebuild => "summary.rebuild"
      case KindBranchFork => "branch.fork"
      case KindPacketCandidate => "packet.candidate"
      case KindPacketSent => "packet.sent"
      case KindPacketRejected => "packet.rejected_budget"
      case KindConsultResolved => "consult.resolved"
      case KindConsultUnresolved => "consult.unresolved"
      case KindOther(name) => name
    }

    /** One representation per Go string: no name with a constructor of its own is `KindOther`. */
    predicate Proper() {
      KindOther? ==> !Among(name, NAMED_KINDS)
    }
  }

  const NAMED_KINDS := [
    KindTurnUser, KindTurnAgent, KindToolRequest, KindToolResult, KindToolFailure, KindSummaryCheckpoint,
    KindSummaryRebuild, KindBranchFork, KindPacketCandidate, KindPacketSent, KindPacketRejected,
    KindConsultResolved, KindConsultUnresolved]

  predicate Among(name: string, kinds: seq<Kind>) {
    kinds != [] && (kinds[|kinds| - 1].Name() == name || Among(name, kinds[..|kinds| - 1]))
  }

  /** `ts` 0 stands for Go's zero time. */
  datatype Event = Event(
    id: string,
    sessionId: string,
    ts: int,
    kind: Kind,
    branchId: string,
    parentEventId: string,
    refs: seq<string>,
    meta: Meta,
    blobRef: string)
  {
    predicate Valid() {
      id != "" && sessionId != "" && ts != 0 && kind != KindOther("") && kind.Proper() && branchId != ""
    }
  }

  lemma {:induction false} NamedAmong(name: string, kinds: seq<Kind>, kind: Kind)
    requires kind in kinds && kind.Name() == name
    ensures Among(name, kinds)
  {
    if kinds[|kinds| - 1] != kind {
      NamedAmong(name, kinds[..|kinds| - 1], kind);
    }
  }

  /** Kinds are told apart by their names. */
  lemma {:induction false} NamesTellKinds(a: Kind, b: Kind)
    requires a.Proper() && b.Proper() && a.Name() == b.Name()
    ensures a == b
  {
    if a.KindOther? && !b.KindOther? {
      NamedAmong(a.Name(), NAMED_KINDS, b);
    } else if b.KindOther? && !a.KindOther? {
      NamedAmong(b.Name(), NAMED_KINDS, a);
    } else if !a.KindOther? {
      var (s, t) := (a.Name(), b.Name());
      assert |s| == |t| && s[0] == t[0] && s[|s| - 1] == t[|t| - 1] && s[|s| / 2] == t[|t| / 2];
    }
  }

  /** What an event must have. */
  lemma {:induction false} ValidIff(e: Event)
    requires e.kind.Proper()
    ensures e.Valid() <==>
      |e.id| > 0 && |e.sessionId| > 0 && e.ts != 0 && |e.kind.Name()| > 0 && |e.branchId| > 0
  {
    hide Kind.Proper;
    assert e.kind.Name() == "" ==> e.kind == KindOther("");
  }

  /** readMetaString: absent keys and values of another type read as the empty string. */
  function ReadMetaString(meta: Meta, key: string): string {
    if key in meta && meta[key].Str? then meta[key].s else ""
  }

  function OnBranch(events: seq<Event>, branchId: string): seq<Event> {
    if events == [] then []
    else
      var init := OnBranch(events[..|events| - 1], branchId);
      var last := events[|events| - 1];
      if last.branchId == branchId then init + [last] else init
  }
}
