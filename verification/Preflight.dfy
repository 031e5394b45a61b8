/** internal/preflight/validate.go: boundary input becomes a typed result, or is malformed. */
module Preflight {
  import opened GoText
  import opened Sorting
  import opened Canonical

  datatype Input = Input(
    mode: string,
    scope: string,
    allowExecution: bool,
    allowTools: bool,
    refs: seq<string>,
    constraints: map<string, string>,
    reason: string)

  datatype Result = Result(
    mode: string,
    resolved: bool,
    missing: seq<string>,
    scope: string,
    allowExecution: bool,
    allowTools: bool,
    refs: seq<string>,
    constraints: map<string, string>,
    reason: string)

  /** Both outcomes carry a result; Malformed comes with ErrMalformedInput. */
  datatype Verdict = Accepted(result: Result) | Malformed(result: Result)

  /** Unlike the consult manifest, preflight refuses a blank ref. */
  function NormRef(r: string): Normal<string> {
    if TrimSpace(r) == "" then Reject else Keep(TrimSpace(r))
  }

  function Started(input: Input): Result {
    Result(TrimSpace(input.mode), false, [], TrimSpace(input.scope), input.allowExecution, input.allowTools, [], map[],
           TrimSpace(input.reason))
  }

  function ReasonFor(reason: string, resolved: bool): string {
    if reason != "" then reason else if resolved then "resolved" else "unresolved intent"
  }

  /** The verdict when the constraints happen to be visited in the given order. */
  function Validated(input: Input, order: seq<string>): Verdict
    requires forall k | k in order :: k in input.constraints
  {
    var start := Started(input);
    var refs, constraints := Canon(NormRef, StrLess, input.refs), Trimmed(input.constraints, order);
    if start.mode == "" then
      Malformed(start.(missing := ["mode"], reason := if start.reason == "" then "malformed boundary input"
                       else start.reason))
    else if refs.None? then Malformed(start.(reason := "invalid refs"))
    else if constraints.None? then Malformed(start.(reason := "invalid constraints", refs := refs.value))
    else
      var resolved := start.scope != "";
      Accepted(start.(refs := refs.value, constraints := constraints.value, resolved := resolved,
                      missing := if resolved then [] else ["scope"], reason := ReasonFor(start.reason, resolved)))
  }

  method Validate(input: Input) returns (v: Verdict)
    ensures exists order :: IsOrderOf(input.constraints, order) && Validated(input, order) == v
  {
    hide TrimSpace, Canon, Trimmed;
    ghost var anyOrder := AnOrder(input.constraints, input.constraints.Keys);
    assert IsOrderOf(input.constraints, anyOrder);
    var result := Started(input);
    if result.mode == "" {
      result := result.(missing := ["mode"]);
      if result.reason == "" {
        result := result.(reason := "malformed boundary input");
      }
      assert Validated(input, anyOrder) == Malformed(result);
      return Malformed(result);
    }
    StrLessTotal();
    var refs := NormalizeList(NormRef, StrLess, input.refs);
    if refs.None? {
      result := result.(reason := "invalid refs");
      assert Validated(input, anyOrder) == Malformed(result);
      return Malformed(result);
    }
    result := result.(refs := refs.value);
    var constraints := NormalizeConstraints(input.constraints);
    ghost var order :| IsOrderOf(input.constraints, order) && Trimmed(input.constraints, order) == constraints;
    if constraints.None? {
      result := result.(reason := "invalid constraints");
      assert Validated(input, order) == Malformed(result);
      return Malformed(result);
    }
    result := result.(constraints := constraints.value);
    var missing: seq<string> := [];
    if result.scope == "" {
      missing := missing + ["scope"];
    }
    result := result.(missing := missing, resolved := |missing| == 0);
    if result.reason == "" {
      if result.resolved {
        result := result.(reason := "resolved");
      } else {
        result := result.(reason := "unresolved intent");
      }
    }
    assert Validated(input, order) == Accepted(result);
    v := Accepted(result);
  }

  /** Malformed are exactly a blank mode, a blank ref and a blank constraint key; an accepted input
      is resolved exactly when nothing is missing, and every verdict gives a reason. */
  lemma {:induction false} ValidatedMeans(input: Input, order: seq<string>)
    requires IsOrderOf(input.constraints, order)
    ensures var v := Validated(input, order);
      && (v.Malformed? <==> TrimSpace(input.mode) == "" || HasBlankKey(input.constraints)
                            || exists r | r in input.refs :: TrimSpace(r) == "")
      && (v.Accepted? ==> v.result.resolved == (v.result.missing == []) == (TrimSpace(input.scope) != ""))
      && v.result.reason != ""
  {
    hide TrimSpace, Trimmed;
    CollectFailsIff(NormRef, input.refs);
    TrimmedFailsIff(input.constraints, order);
    hide Collect, Sort;
  }

  /** Field by field, what the result takes from its input. A malformed one has no more than mode, scope
      and permissions of it, what is wrong, and the refs if it is the constraints. */
  lemma {:induction false} ResultMeans(input: Input, order: seq<string>)
    requires IsOrderOf(input.constraints, order)
    ensures var (v, r) := (Validated(input, order), Validated(input, order).result);
      && r.mode == TrimSpace(input.mode) && r.scope == TrimSpace(input.scope)
      && r.allowExecution == input.allowExecution && r.allowTools == input.allowTools
      && (v.Accepted? ==>
            && IsSorting(StrLess, Mapped(TrimSpace, input.refs), r.refs)
            && Trimmed(input.constraints, order) == Some(r.constraints)
            && r.missing == (if r.scope == "" then ["scope"] else []) && r.resolved == (r.scope != "")
            && r.reason == (if TrimSpace(input.reason) != "" then TrimSpace(input.reason)
                            else if r.resolved then "resolved" else "unresolved intent"))
      && (v.Malformed? ==> !r.resolved && r.constraints == map[])
      && (v.Malformed? && r.mode == "" ==>
            && r.missing == ["mode"] && r.refs == []
            && r.reason == if |TrimSpace(input.reason)| > 0 then TrimSpace(input.reason)
                           else "malformed boundary input")
      && (v.Malformed? && r.mode != "" ==>
            && r.missing == []
            && if exists x | x in input.refs :: TrimSpace(x) == "" then r.reason == "invalid refs" && r.refs == []
               else r.reason == "invalid constraints" && IsSorting(StrLess, Mapped(TrimSpace, input.refs), r.refs))
  {
    StrLessTotal();
    CollectFailsIff(NormRef, input.refs);
    hide Trimmed, Collect, Sort;
    if Canon(NormRef, StrLess, input.refs).Some? {
      CanonMeans(NormRef, StrLess, Everything(), TrimSpace, input.refs);
      FilterEverything(input.refs);
    }
    hide TrimSpace, Canon, Total, StrictOrder, IsSorting, Filter, Mapped;
  }

  /** Permuting the refs changes nothing; nor does the order in which the constraints are visited,
      unless two keys trim alike and their values do not. */
  lemma {:induction false} ValidatedCanonical(a: Input, b: Input, oa: seq<string>, ob: seq<string>)
    requires a == b.(refs := a.refs) && multiset(a.refs) == multiset(b.refs)
    requires IsOrderOf(a.constraints, oa) && IsOrderOf(b.constraints, ob)
    requires HasBlankKey(a.constraints) || !exists k1, k2 :: Clash(a.constraints, k1, k2)
    ensures Validated(a, oa) == Validated(b, ob)
  {
    NoClashSameResult(a.constraints, oa, ob);
    hide Clash, Trimmed, TrimSpace, Canon;
    StrLessTotal();
    CanonPermuted(NormRef, StrLess, a.refs, b.refs);
  }

  function AsInput(r: Result): Input {
    Input(r.mode, r.scope, r.allowExecution, r.allowTools, r.refs, r.constraints, r.reason)
  }

  lemma {:induction false} ReasonTrims(reason: string, resolved: bool)
    ensures TrimSpace(ReasonFor(TrimSpace(reason), resolved)) == ReasonFor(TrimSpace(reason), resolved)
  {
    TrimSpaceIdempotent(reason);
  }

  /** Validating an accepted result again returns it. */
  lemma {:induction false} ValidatedIdempotent(input: Input, order: seq<string>, again: seq<string>)
    requires IsOrderOf(input.constraints, order) && Validated(input, order).Accepted?
    requires IsOrderOf(Validated(input, order).result.constraints, again)
    ensures Validated(AsInput(Validated(input, order).result), again) == Validated(input, order)
  {
    StrLessTotal();
    forall x
      ensures NormRef(x).Keep? ==> NormRef(NormRef(x).value) == NormRef(x)
    {
      TrimSpaceIdempotent(x);
    }
    CanonIdempotent(NormRef, StrLess, input.refs);
    TrimmedIsTrimmed(input.constraints, order);
    TrimmedIdempotent(Validated(input, order).result.constraints, again);
    TrimSpaceIdempotent(input.mode);
    TrimSpaceIdempotent(input.scope);
    ReasonTrims(input.reason, TrimSpace(input.scope) != "");
    hide TrimSpace, Canon, Trimmed, NormRef, Total, Settles, IsTrimmed;
  }
}
