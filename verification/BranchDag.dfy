/** internal/branchdag: branch records, and the graph that owns them. The value
    type `Branch` is what a branch means; `Stored` is the Go struct, whose dirty ranges are a slice
    that lives on the heap and could be shared. */
module BranchDag {

  datatype GraphError =
    | InvalidBranch
    | BranchExists
    | BranchNotFound
    | InvalidEventId
    | InvalidParentRef

  datatype Result<+T> = Ok(value: T) | Err(error: GraphError)

  datatype DirtyRange = DirtyRange(start: string, end: string)

  datatype Branch = Branch(
    branchId: string,
    parentBranchId: string,
    forkEventId: string,
    headEventId: string,
    baseSummaryId: string,
    dirtyRanges: seq<DirtyRange>,
    score: real,
    materializedHint: string)
  {
    predicate Valid() {
      branchId != "" && forall r | r in dirtyRanges :: r.start != "" && r.end != ""
    }
  }

  type Branches = map<string, Branch>

  function NewBranch(branchId: string): Branch {
    Branch(branchId, "", "", "", "", [], 0.0, "")
  }

  /** AppendToBranch: opens a dirty range or stretches the last one, and moves the head. */
  function Append(b: Branch, eventId: string): Result<Branch> {
    if eventId == "" then Err(InvalidEventId)
    else if !b.Valid() then Err(InvalidBranch)
    else
      var n := |b.dirtyRanges|;
      var ranges :=
        if n == 0 then [DirtyRange(eventId, eventId)]
        else b.dirtyRanges[n - 1 := b.dirtyRanges[n - 1].(end := eventId)];
      Ok(b.(dirtyRanges := ranges, headEventId := eventId))
  }

  /** When an append is refused, and what it does otherwise: the last range is stretched to the event, or
      a first one is opened at it. */
  lemma {:induction false} AppendMeans(b: Branch, id: string)
    ensures Append(b, id) == Err(InvalidEventId) <==> |id| == 0
    ensures Append(b, id).Ok? <==>
      |id| > 0 && |b.branchId| > 0 && forall r | r in b.dirtyRanges :: |r.start| > 0 && |r.end| > 0
    ensures Append(b, id).Ok? ==>
      var (a, n) := (Append(b, id).value, |b.dirtyRanges|); var last := |a.dirtyRanges| - 1;
      && a == b.(headEventId := id, dirtyRanges := a.dirtyRanges) && last == (if n == 0 then 0 else n - 1)
      && a.dirtyRanges[last].end == id && a.dirtyRanges[..last] == b.dirtyRanges[..last]
      && a.dirtyRanges[last].start == if n == 0 then id else b.dirtyRanges[last].start
  {
  }

  // ----- The graph operations on values -----

  function Create(g: Branches, b: Branch): Result<Branches> {
    if !b.Valid() then Err(InvalidBranch)
    else if b.branchId in g then Err(BranchExists)
    else Ok(g[b.branchId := b])
  }

  function ForkOf(child: string, parentId: string, parent: Branch, forkEventId: string): Branch {
    Branch(child, parentId, forkEventId, parent.headEventId, parent.baseSummaryId,
           parent.dirtyRanges, parent.score, "")
  }

  function Fork(g: Branches, child: string, parent: string, forkEventId: string): Result<Branches> {
    if child == "" || parent == "" then Err(InvalidBranch)
    else if child in g then Err(BranchExists)
    else if parent !in g then Err(InvalidParentRef)
    else Ok(g[child := ForkOf(child, parent, g[parent], forkEventId)])
  }

  function AppendAt(g: Branches, branchId: string, eventId: string): Result<Branches> {
    if branchId !in g then Err(BranchNotFound)
    else match Append(g[branchId], eventId)
      case Err(e) => Err(e)
      case Ok(b) => Ok(g[branchId := b])
  }

  function SetBase(g: Branches, branchId: string, summaryId: string): Result<Branches> {
    if branchId !in g then Err(BranchNotFound)
    else Ok(g[branchId := g[branchId].(baseSummaryId := summaryId)])
  }

  function Rebased(b: Branch, summaryId: string, basisEventId: string): Branch {
    b.(baseSummaryId := summaryId,
       headEventId := if basisEventId != "" then basisEventId else b.headEventId,
       dirtyRanges := [])
  }

  function Rebase(g: Branches, branchId: string, summaryId: string, basisEventId: string): Result<Branches> {
    if branchId !in g then Err(BranchNotFound)
    else Ok(g[branchId := Rebased(g[branchId], summaryId, basisEventId)])
  }

  /** What each operation of the graph asks for. */
  lemma {:induction false} GraphRefusals(g: Branches, b: Branch, child: string, parent: string, id: string)
    ensures Create(g, b).Ok? <==>
      b.branchId !in g && |b.branchId| > 0 && forall r | r in b.dirtyRanges :: |r.start| > 0 && |r.end| > 0
    ensures Create(g, b) == Err(BranchExists) ==> b.branchId in g
    ensures Fork(g, child, parent, id).Ok? <==> |child| > 0 && |parent| > 0 && child !in g && parent in g
    ensures Fork(g, child, parent, id) == Err(InvalidBranch) <==> |child| == 0 || |parent| == 0
    ensures Fork(g, child, parent, id) == Err(BranchExists) ==> child in g
    ensures Fork(g, child, parent, id) == Err(InvalidParentRef) ==> child !in g && parent !in g
    ensures AppendAt(g, child, id) == Err(BranchNotFound) <==> child !in g
  {
  }

  /** A rebase on a basis makes it the head; without one the head stays. No range is left. */
  lemma {:induction false} RebasedMeans(b: Branch, summaryId: string, basisEventId: string)
    ensures var r := Rebased(b, summaryId, basisEventId);
      && r.dirtyRanges == [] && r.baseSummaryId == summaryId
      && (|basisEventId| > 0 ==> r.headEventId == basisEventId)
      && (|basisEventId| == 0 ==> r.headEventId == b.headEventId)
      && r == b.(baseSummaryId := r.baseSummaryId, headEventId := r.headEventId, dirtyRanges := r.dirtyRanges)
  {
  }

  // ----- The mutable graph -----

  /** A Branch struct as Go stores it: `ranges` refers to the slice's backing storage. */
  datatype Stored = Stored(
    branchId: string,
    parentBranchId: string,
    forkEventId: string,
    headEventId: string,
    baseSummaryId: string,
    ranges: array<DirtyRange>,
    score: real,
    materializedHint: string)

  function View(b: Stored): Branch
    reads b.ranges
  {
    Branch(b.branchId, b.parentBranchId, b.forkEventId, b.headEventId, b.baseSummaryId,
           b.ranges[..], b.score, b.materializedHint)
  }

  method CopyRanges(a: array<DirtyRange>) returns (b: array<DirtyRange>)
    ensures fresh(b) && b[..] == a[..]
  {
    b := new DirtyRange[a.Length](i requires 0 <= i < a.Length reads a => a[i]);
  }

  method CloneBranch(b: Stored) returns (out: Stored)
    ensures fresh(out.ranges) && View(out) == View(b)
  {
    var ranges := CopyRanges(b.ranges);
    out := b.(ranges := ranges);
  }

  method IsValidBranch(b: Stored) returns (ok: bool)
    ensures ok == View(b).Valid()
  {
    if b.branchId == "" {
      return false;
    }
    for i := 0 to b.ranges.Length
      invariant forall j | 0 <= j < i :: b.ranges[j].start != "" && b.ranges[j].end != ""
    {
      if b.ranges[i].start == "" || b.ranges[i].end == "" {
        assert b.ranges[i] in View(b).dirtyRanges;
        return false;
      }
    }
    ok := true;
  }

  /** Works in place, but on a fresh copy: the branch that came in keeps its ranges. */
  method AppendToBranch(b: Stored, eventId: string) returns (r: Result<Stored>)
    ensures match Append(View(b), eventId)
            case Err(e) => r == Err(e)
            case Ok(after) => r.Ok? && fresh(r.value.ranges) && View(r.value) == after
  {
    if eventId == "" {
      return Err(InvalidEventId);
    }
    var valid := IsValidBranch(b);
    if !valid {
      return Err(InvalidBranch);
    }
    var out := CloneBranch(b);
    if out.ranges.Length == 0 {
      var ranges := new DirtyRange[1](_ => DirtyRange(eventId, eventId));
      out := out.(ranges := ranges);
      assert View(out).dirtyRanges == [DirtyRange(eventId, eventId)];
    } else {
      var last := out.ranges.Length - 1;
      out.ranges[last] := out.ranges[last].(end := eventId);
    }
    out := out.(headEventId := eventId);
    r := Ok(out);
  }

  class Graph {
    var branches: map<string, Stored>

    /** No two branches share range storage. */
    ghost predicate Valid()
      reads this
    {
      forall a, b | a in branches && b in branches && a != b :: branches[a].ranges != branches[b].ranges
    }

    /** No stored branch keeps its ranges in this storage. */
    ghost predicate Apart(ranges: array<DirtyRange>)
      reads this
    {
      forall x | x in branches :: branches[x].ranges != ranges
    }

    ghost function Model(): Branches
      reads this, set id | id in branches :: branches[id].ranges
    {
      map id | id in branches :: View(branches[id])
    }

    constructor ()
      ensures Valid() && Model() == map[]
    {
      branches := map[];
    }

    /** Stores a branch whose ranges no other entry uses, and hands out a copy of it. */
    method Put(id: string, b: Stored) returns (out: Stored)
      requires Valid()
      requires forall x | x in branches && x != id :: branches[x].ranges != b.ranges
      modifies this
      ensures Valid() && fresh(out.ranges) && Apart(out.ranges)
      ensures branches == old(branches)[id := b]
      ensures View(out) == old(View(b)) && Model() == old(Model())[id := old(View(b))]
    {
      out := CloneBranch(b);
      Store(id, b);
    }

    method Store(id: string, b: Stored)
      requires Valid()
      requires forall x | x in branches && x != id :: branches[x].ranges != b.ranges
      modifies this
      ensures Valid() && branches == old(branches)[id := b]
      ensures Model() == old(Model())[id := old(View(b))]
    {
      branches := branches[id := b];
    }

    method CreateBranch(branch: Stored) returns (r: Result<Stored>)
      requires Valid()
      modifies this
      ensures Valid()
      ensures match Create(old(Model()), old(View(branch)))
              case Err(e) => r == Err(e) && branches == old(branches)
              case Ok(g) => Model() == g && r.Ok? && fresh(r.value.ranges) && View(r.value) == old(View(branch))
      ensures r.Ok? ==> Apart(r.value.ranges)
      ensures r.Ok? ==> branch.branchId in branches && fresh(branches[branch.branchId].ranges)
    {
      var valid := IsValidBranch(branch);
      if !valid {
        return Err(InvalidBranch);
      }
      if branch.branchId in branches {
        return Err(BranchExists);
      }
      ghost var was := View(branch);
      var stored := CloneBranch(branch);
      assert View(stored) == was;
      var out := Put(branch.branchId, stored);
      assert View(out) == was;
      r := Ok(out);
    }

    method ForkBranch(child: string, parent: string, forkEventId: string) returns (r: Result<Stored>)
      requires Valid()
      modifies this
      ensures Valid()
      ensures match Fork(old(Model()), child, parent, forkEventId)
              case Err(e) => r == Err(e) && branches == old(branches)
              case Ok(g) => Model() == g && r.Ok? && fresh(r.value.ranges) && View(r.value) == g[child]
      ensures r.Ok? ==> Apart(r.value.ranges)
      ensures r.Ok? ==> child in branches && fresh(branches[child].ranges)
      ensures r.Ok? ==> parent in old(branches) && var p := old(View(branches[parent]));
        View(r.value) == Branch(child, parent, forkEventId, p.headEventId, p.baseSummaryId, p.dirtyRanges, p.score, "")
    {
      if child == "" || parent == "" {
        return Err(InvalidBranch);
      }
      if child in branches {
        return Err(BranchExists);
      }
      if parent !in branches {
        return Err(InvalidParentRef);
      }
      var p := branches[parent];
      var ranges := CopyRanges(p.ranges);
      var stored := Stored(child, parent, forkEventId, p.headEventId, p.baseSummaryId, ranges, p.score, "");
      var out := Put(child, stored);
      r := Ok(out);
    }

    method AppendEvent(branchId: string, eventId: string) returns (r: Result<Stored>)
      requires Valid()
      modifies this
      ensures Valid()
      ensures match AppendAt(old(Model()), branchId, eventId)
              case Err(e) => r == Err(e) && branches == old(branches)
              case Ok(g) => Model() == g && r.Ok? && fresh(r.value.ranges) && View(r.value) == g[branchId]
      ensures r.Ok? ==> Apart(r.value.ranges)
    {
      if branchId !in branches {
        return Err(BranchNotFound);
      }
      r := AppendToBranch(branches[branchId], eventId);
      if r.Err? {
        return;
      }
      var updated := r.value;
      assert Append(Model()[branchId], eventId) == Ok(View(updated));
      var out := Put(branchId, updated);
      r := Ok(out);
    }

    method SetBaseSummary(branchId: string, summaryId: string) returns (r: Result<Stored>)
      requires Valid()
      modifies this
      ensures Valid()
      ensures match SetBase(old(Model()), branchId, summaryId)
              case Err(e) => r == Err(e) && branches == old(branches)
              case Ok(g) => Model() == g && r.Ok? && fresh(r.value.ranges) && View(r.value) == g[branchId]
      ensures r.Ok? ==> Apart(r.value.ranges)
    {
      if branchId !in branches {
        return Err(BranchNotFound);
      }
      var branch := branches[branchId].(baseSummaryId := summaryId);
      var out := Put(branchId, branch);
      r := Ok(out);
    }

    method RebaseOnSummary(branchId: string, summaryId: string, basisEventId: string) returns (r: Result<Stored>)
      requires Valid()
      modifies this
      ensures Valid()
      ensures match Rebase(old(Model()), branchId, summaryId, basisEventId)
              case Err(e) => r == Err(e) && branches == old(branches)
              case Ok(g) => Model() == g && r.Ok? && fresh(r.value.ranges) && View(r.value) == g[branchId]
      ensures r.Ok? ==> Apart(r.value.ranges)
    {
      if branchId !in branches {
        return Err(BranchNotFound);
      }
      var branch := branches[branchId].(baseSummaryId := summaryId);
      if basisEventId != "" {
        branch := branch.(headEventId := basisEventId);
      }
      var none := new DirtyRange[0];
      branch := branch.(ranges := none);
      assert View(branch) == Rebased(View(branches[branchId]), summaryId, basisEventId);
      var out := Put(branchId, branch);
      r := Ok(out);
    }

    method GetBranch(branchId: string) returns (r: Result<Stored>)
      ensures branchId !in branches ==> r == Err(BranchNotFound)
      ensures branchId in branches ==>
                r.Ok? && fresh(r.value.ranges) && View(r.value) == View(branches[branchId]) && Apart(r.value.ranges)
    {
      if branchId !in branches {
        return Err(BranchNotFound);
      }
      var out := CloneBranch(branches[branchId]);
      r := Ok(out);
    }
  }
}
