/** The token AST of internal/compactor/schema.go: a model-produced tree is flattened post-order
    into an id-keyed map, and the map is then checked by a traversal that shares one `visited` set. */
module TokenAst {

  const MAX_AST_DEPTH := 4

  datatype LeafKind = EventLeaf | ClusterLeaf | SectionLeaf | RootLeaf

  datatype AstError =
    | UnknownKind
    | EmptyLeaf
    | InvalidDepth
    | InvalidImportance
    | SchemaValidation
    | EmptyRoot
    | CircularRef
    | UndefinedLeaf
    | ParentNotFound
    | ParentDepthMismatch

  datatype Outcome = Pass | Fail(error: AstError)

  datatype Result<+T> = Success(value: T) | Failure(error: AstError)

  /** GeminiLeafNode: the nested tree as the model returns it. */
  datatype GeminiNode = GeminiNode(
    id: string,
    kind: string,
    summary: string,
    eventRefs: seq<string>,
    tags: seq<string>,
    importance: real,
    children: seq<GeminiNode>)

  /** MemoryLeaf: one entry of the flattened map. */
  datatype MemoryLeaf = MemoryLeaf(
    id: string,
    kind: LeafKind,
    depth: int,
    parentId: string,
    childIds: seq<string>,
    summary: string,
    fullText: string,
    eventRefs: seq<string>,
    importance: real,
    tags: seq<string>)
  {
    function Validate(): Outcome {
      if id == "" then Fail(EmptyLeaf)
      else if summary == "" && fullText == "" && eventRefs == [] then Fail(EmptyLeaf)
      else if depth < 0 || depth >= MAX_AST_DEPTH then Fail(InvalidDepth)
      else if importance < 0.0 || importance > 1.0 then Fail(InvalidImportance)
      else match kind
        case EventLeaf => if depth != 0 then Fail(SchemaValidation) else Pass
        case ClusterLeaf => if depth != 1 then Fail(SchemaValidation) else Pass
        case SectionLeaf => if depth != 2 then Fail(SchemaValidation) else Pass
        case RootLeaf => if depth != 3 then Fail(SchemaValidation) else Pass
    }
  }

  type Leaves = map<string, MemoryLeaf>

  function ParseLeafKind(s: string): Result<LeafKind> {
    if s == "event" then Success(EventLeaf)
    else if s == "cluster" then Success(ClusterLeaf)
    else if s == "section" then Success(SectionLeaf)
    else if s == "root" then Success(RootLeaf)
    else Failure(UnknownKind)
  }

  function KindName(kind: LeafKind): string {
    match kind
    case EventLeaf => "event"
    case ClusterLeaf => "cluster"
    case SectionLeaf => "section"
    case RootLeaf => "root"
  }

  // ----- Flattening -----

  /** Tree depth counted from the root, turned into a tier (root 3 ... event 0, clamped). */
  function FibDepth(treeDepth: nat): int {
    var d := MAX_AST_DEPTH - 1 - treeDepth;
    if d < 0 then 0 else d
  }

  function ChildIds(nodes: seq<GeminiNode>): (ids: seq<string>)
    ensures |ids| == |nodes|
    ensures forall i | 0 <= i < |nodes| :: ids[i] == nodes[i].id
  {
    if nodes == [] then [] else ChildIds(nodes[..|nodes| - 1]) + [nodes[|nodes| - 1].id]
  }

  function LeafOf(node: GeminiNode, kind: LeafKind, parentId: string, treeDepth: nat): MemoryLeaf {
    MemoryLeaf(node.id, kind, FibDepth(treeDepth), parentId, ChildIds(node.children),
               node.summary, "", node.eventRefs, node.importance, node.tags)
  }

  /** The map after flattening `node` into `leaves`; a kind that does not parse aborts. */
  function Flatten(leaves: Leaves, node: GeminiNode, parentId: string, treeDepth: nat): Result<Leaves>
    decreases node, 1
  {
    match ParseLeafKind(node.kind)
    case Failure(e) => Failure(e)
    case Success(kind) =>
      match FlattenAll(leaves, node.children, node.id, treeDepth + 1)
      case Failure(e) => Failure(e)
      case Success(below) => Success(below[node.id := LeafOf(node, kind, parentId, treeDepth)])
  }

  function FlattenAll(leaves: Leaves, nodes: seq<GeminiNode>, parentId: string, treeDepth: nat): Result<Leaves>
    decreases nodes, 0
  {
    if nodes == [] then Success(leaves)
    else
      match FlattenAll(leaves, nodes[..|nodes| - 1], parentId, treeDepth)
      case Failure(e) => Failure(e)
      case Success(before) => Flatten(before, nodes[|nodes| - 1], parentId, treeDepth)
  }

  // ----- The traversal of Validate -----

  /** The checks that validateSubtree makes on one visited leaf. */
  function CheckLeaf(leaves: Leaves, id: string): Outcome {
    if id !in leaves then Fail(UndefinedLeaf)
    else
      var leaf := leaves[id];
      if leaf.Validate().Fail? then leaf.Validate()
      else if leaf.parentId == "" then Pass
      else if leaf.parentId !in leaves then Fail(ParentNotFound)
      else if leaves[leaf.parentId].depth != leaf.depth + 1 then Fail(ParentDepthMismatch)
      else Pass
  }

  /** validateSubtree: the new visited set, or the first error. Terminates on every map, cyclic
      ones included, because each call that goes deeper marks one more defined id. */
  function Walk(leaves: Leaves, id: string, visited: set<string>): (r: Result<set<string>>)
    ensures r.Success? ==> visited <= r.value
    decreases leaves.Keys - visited, 1, 0
  {
    if id in visited then Failure(CircularRef)
    else
      match CheckLeaf(leaves, id)
      case Fail(e) => Failure(e)
      case Pass =>
        assert leaves.Keys - (visited + {id}) < leaves.Keys - visited by {
          assert id in leaves.Keys - visited;
        }
        WalkAll(leaves, leaves[id].childIds, visited + {id})
  }

  function WalkAll(leaves: Leaves, ids: seq<string>, visited: set<string>): (r: Result<set<string>>)
    ensures r.Success? ==> visited <= r.value
    decreases leaves.Keys - visited, 2, |ids|
  {
    if ids == [] then Success(visited)
    else
      match Walk(leaves, ids[0], visited)
      case Failure(e) => Failure(e)
      case Success(after) =>
        assert leaves.Keys - after == leaves.Keys - visited || leaves.Keys - after < leaves.Keys - visited;
        WalkAll(leaves, ids[1..], after)
  }

  /** TokenAST.Validate on a map and a root id. */
  function ValidateAst(leaves: Leaves, rootId: string): Outcome {
    if rootId == "" then Fail(EmptyRoot)
    else if rootId !in leaves then Fail(EmptyRoot)
    else if leaves[rootId].Validate().Fail? then leaves[rootId].Validate()
    else if leaves[rootId].kind != RootLeaf then Fail(EmptyRoot)
    else match Walk(leaves, rootId, {})
      case Failure(e) => Fail(e)
      case Success(_) => Pass
  }

  // ----- What a successful traversal means -----

  /** The one place an id is referenced from: child number `index` of `parent`. */
  datatype Slot = Slot(parent: string, index: int)

  /** The ids `nodes` form a forest in `leaves` with the given roots: every one passes its own
      checks, children stay inside, every reference to a child is the only one (`slots` says which
      it is), and roots are not referenced at all. */
  ghost predicate Forest(leaves: Leaves, nodes: set<string>, roots: seq<string>, slots: map<string, Slot>) {
    && slots.Keys <= nodes
    && (forall i | 0 <= i < |roots| :: roots[i] in nodes && roots[i] !in slots)
    && (forall i, j | 0 <= i < j < |roots| :: roots[i] != roots[j])
    && (forall a | a in nodes :: CheckLeaf(leaves, a).Pass?)
    && (forall a, i | a in nodes && 0 <= i < |leaves[a].childIds| ::
          leaves[a].childIds[i] in slots && slots[leaves[a].childIds[i]] == Slot(a, i))
  }

  /** On an arbitrary map, success means that every reached id has exactly one reference. */
  lemma {:induction false} WalkForest(leaves: Leaves, id: string, visited: set<string>)
    returns (slots: map<string, Slot>)
    requires Walk(leaves, id, visited).Success?
    ensures Forest(leaves, Walk(leaves, id, visited).value - visited, [id], slots)
    decreases leaves.Keys - visited, 1, 0
  {
    assert leaves.Keys - (visited + {id}) < leaves.Keys - visited by {
      assert id in leaves.Keys - visited;
    }
    var ids := leaves[id].childIds;
    var below := WalkAllForest(leaves, ids, visited + {id});
    var nodes := WalkAll(leaves, ids, visited + {id}).value - (visited + {id});
    assert Walk(leaves, id, visited).value - visited == {id} + nodes;
    slots := AddRoots(leaves, nodes, ids, below, id);
  }

  /** Puts the roots of a forest under a new common parent. */
  lemma {:induction false} AddRoots(leaves: Leaves, nodes: set<string>, ids: seq<string>, below: map<string, Slot>,
                                    id: string)
    returns (slots: map<string, Slot>)
    requires Forest(leaves, nodes, ids, below)
    requires id !in nodes && CheckLeaf(leaves, id).Pass? && leaves[id].childIds == ids
    ensures Forest(leaves, {id} + nodes, [id], slots)
  {
    slots := below + map x | x in ids :: Slot(id, IndexOf(ids, x));
    forall i | 0 <= i < |ids|
      ensures slots[ids[i]] == Slot(id, i)
    {
      assert ids[i] in ids;
    }
    forall a, i | a in nodes && 0 <= i < |leaves[a].childIds|
      ensures leaves[a].childIds[i] in slots && slots[leaves[a].childIds[i]] == Slot(a, i)
    {
      assert leaves[a].childIds[i] in below;
    }
  }

  function IndexOf(ids: seq<string>, x: string): (i: nat)
    requires x in ids
    ensures i < |ids| && ids[i] == x && x !in ids[..i]
  {
    if ids[0] == x then 0 else 1 + IndexOf(ids[1..], x)
  }

  lemma {:induction false} WalkAllForest(leaves: Leaves, ids: seq<string>, visited: set<string>)
    returns (slots: map<string, Slot>)
    requires WalkAll(leaves, ids, visited).Success?
    ensures Forest(leaves, WalkAll(leaves, ids, visited).value - visited, ids, slots)
    decreases leaves.Keys - visited, 2, |ids|
  {
    if ids == [] {
      slots := map[];
    } else {
      var first := WalkForest(leaves, ids[0], visited);
      var after := Walk(leaves, ids[0], visited).value;
      assert leaves.Keys - after == leaves.Keys - visited || leaves.Keys - after < leaves.Keys - visited;
      var rest := WalkAllForest(leaves, ids[1..], after);
      var all := WalkAll(leaves, ids, visited).value;
      assert all - visited == (after - visited) + (all - after);
      assert ids == [ids[0]] + ids[1..];
      slots := first + rest;
      JoinForests(leaves, after - visited, [ids[0]], first, all - after, ids[1..], rest);
    }
  }

  lemma {:induction false} JoinForests(leaves: Leaves, a: set<string>, aRoots: seq<string>, aSlots: map<string, Slot>,
                    b: set<string>, bRoots: seq<string>, bSlots: map<string, Slot>)
    requires Forest(leaves, a, aRoots, aSlots) && Forest(leaves, b, bRoots, bSlots) && a !! b
    ensures Forest(leaves, a + b, aRoots + bRoots, aSlots + bSlots)
  {
    forall i | 0 <= i < |aRoots + bRoots|
      ensures (aRoots + bRoots)[i] in a + b && (aRoots + bRoots)[i] !in aSlots + bSlots
      ensures i < |aRoots| ==> (aRoots + bRoots)[i] in a
      ensures i >= |aRoots| ==> (aRoots + bRoots)[i] in b
    {
    }
    forall x, i | x in a && 0 <= i < |leaves[x].childIds|
      ensures leaves[x].childIds[i] in aSlots + bSlots && (aSlots + bSlots)[leaves[x].childIds[i]] == Slot(x, i)
    {
      assert leaves[x].childIds[i] in aSlots.Keys && leaves[x].childIds[i] !in bSlots.Keys;
    }
  }

  // ----- Paths of child indices -----

  /** Where a path leads: to an id, or nowhere because some index has no child. */
  datatype Place = At(id: string) | Astray

  /** Follows child indices downward from `id`. */
  function Follow(leaves: Leaves, id: string, path: seq<nat>): Place {
    if path == [] then At(id)
    else
      match Follow(leaves, id, path[..|path| - 1])
      case Astray => Astray
      case At(parent) => ChildAt(leaves, parent, path[|path| - 1])
  }

  function ChildAt(leaves: Leaves, parent: string, index: nat): Place {
    if parent in leaves && index < |leaves[parent].childIds| then At(leaves[parent].childIds[index]) else Astray
  }

  ghost predicate Reaches(leaves: Leaves, id: string, x: string) {
    exists path: seq<nat> :: Follow(leaves, id, path) == At(x)
  }

  /** Every id below `id` passes its own checks, and only one path leads to it. */
  ghost predicate TreeBelow(leaves: Leaves, id: string) {
    && (forall x | Reaches(leaves, id, x) :: CheckLeaf(leaves, x).Pass?)
    && (forall p: seq<nat>, q: seq<nat> ::
          Follow(leaves, id, p).At? && Follow(leaves, id, p) == Follow(leaves, id, q) ==> p == q)
  }

  lemma {:induction false} FollowConcat(leaves: Leaves, id: string, p: seq<nat>, q: seq<nat>)
    ensures Follow(leaves, id, p + q)
      == match Follow(leaves, id, p) { case Astray => Astray case At(x) => Follow(leaves, x, q) }
  {
    if q == [] {
      assert p + q == p;
    } else {
      assert (p + q)[..|p + q| - 1] == p + q[..|q| - 1];
      FollowConcat(leaves, id, p, q[..|q| - 1]);
    }
  }

  lemma {:induction false} FollowChild(leaves: Leaves, id: string, i: nat, q: seq<nat>)
    requires id in leaves && i < |leaves[id].childIds|
    ensures Follow(leaves, id, [i] + q) == Follow(leaves, leaves[id].childIds[i], q)
  {
    FollowConcat(leaves, id, [i], q);
    assert [i][..0] == [];
    assert Follow(leaves, id, [i][..0]) == At(id);
  }

  /** Every id that the traversal marks hangs below the id it started from. */
  lemma {:induction false} WalkReaches(leaves: Leaves, id: string, visited: set<string>, x: string)
    returns (path: seq<nat>)
    requires Walk(leaves, id, visited).Success? && x in Walk(leaves, id, visited).value - visited
    ensures Follow(leaves, id, path) == At(x)
    decreases leaves.Keys - visited, 1, 0
  {
    if x == id {
      path := [];
    } else {
      assert leaves.Keys - (visited + {id}) < leaves.Keys - visited by {
        assert id in leaves.Keys - visited;
      }
      var i, below := WalkAllReaches(leaves, leaves[id].childIds, visited + {id}, x);
      FollowChild(leaves, id, i, below);
      path := [i] + below;
    }
  }

  lemma {:induction false} WalkAllReaches(leaves: Leaves, ids: seq<string>, visited: set<string>, x: string)
    returns (i: nat, path: seq<nat>)
    requires WalkAll(leaves, ids, visited).Success? && x in WalkAll(leaves, ids, visited).value - visited
    ensures i < |ids| && Follow(leaves, ids[i], path) == At(x)
    decreases leaves.Keys - visited, 2, |ids|
  {
    var after := Walk(leaves, ids[0], visited).value;
    assert leaves.Keys - after == leaves.Keys - visited || leaves.Keys - after < leaves.Keys - visited;
    if x in after {
      i := 0;
      path := WalkReaches(leaves, ids[0], visited, x);
    } else {
      i, path := WalkAllReaches(leaves, ids[1..], after, x);
      i := i + 1;
    }
  }

  /** No path leaves a forest. */
  lemma {:induction false} FollowStays(leaves: Leaves, nodes: set<string>, id: string, slots: map<string, Slot>,
                                       path: seq<nat>)
    requires Forest(leaves, nodes, [id], slots) && Follow(leaves, id, path).At?
    ensures Follow(leaves, id, path).id in nodes
  {
    if path == [] {
      assert [id][0] in nodes;
    } else {
      FollowStays(leaves, nodes, id, slots, path[..|path| - 1]);
    }
  }

  lemma {:induction false} OnePath(leaves: Leaves, nodes: set<string>, id: string, slots: map<string, Slot>,
                                   p: seq<nat>, q: seq<nat>)
    requires Forest(leaves, nodes, [id], slots)
    requires Follow(leaves, id, p).At? && Follow(leaves, id, p) == Follow(leaves, id, q)
    ensures p == q
  {
    assert [id][0] !in slots;
    if p != [] && q != [] {
      var (p', q') := (p[..|p| - 1], q[..|q| - 1]);
      FollowStays(leaves, nodes, id, slots, p');
      FollowStays(leaves, nodes, id, slots, q');
      OnePath(leaves, nodes, id, slots, p', q');
      assert p == p' + [p[|p| - 1]] && q == q' + [q[|q| - 1]];
    } else if p != [] {
      FollowStays(leaves, nodes, id, slots, p[..|p| - 1]);
    } else if q != [] {
      FollowStays(leaves, nodes, id, slots, q[..|q| - 1]);
    }
  }

  /** On an arbitrary map: what a successful traversal adds is exactly what hangs below `id`, and
      each such id passes its checks and is reached by one path only. */
  lemma {:induction false} WalkMarks(leaves: Leaves, id: string, visited: set<string>)
    requires Walk(leaves, id, visited).Success?
    ensures TreeBelow(leaves, id)
    ensures forall x :: x in Walk(leaves, id, visited).value - visited <==> Reaches(leaves, id, x)
  {
    var nodes := Walk(leaves, id, visited).value - visited;
    var slots := WalkForest(leaves, id, visited);
    forall x | x in nodes
      ensures Reaches(leaves, id, x)
    {
      var path := WalkReaches(leaves, id, visited, x);
    }
    forall path: seq<nat> | Follow(leaves, id, path).At?
      ensures Follow(leaves, id, path).id in nodes
    {
      FollowStays(leaves, nodes, id, slots, path);
    }
    forall p: seq<nat>, q: seq<nat> | Follow(leaves, id, p).At? && Follow(leaves, id, p) == Follow(leaves, id, q)
      ensures p == q
    {
      OnePath(leaves, nodes, id, slots, p, q);
    }
  }

  /** The subtrees of `ids` are trees, and share nothing with one another or with `visited`. */
  ghost predicate Apart(leaves: Leaves, ids: seq<string>, visited: set<string>) {
    && (forall i | 0 <= i < |ids| :: TreeBelow(leaves, ids[i]))
    && (forall i, x | 0 <= i < |ids| && Reaches(leaves, ids[i], x) :: x !in visited)
    && (forall i, j, x | 0 <= i < j < |ids| && Reaches(leaves, ids[i], x) :: !Reaches(leaves, ids[j], x))
  }

  lemma {:induction false} TreeSucceeds(leaves: Leaves, id: string, visited: set<string>)
    requires TreeBelow(leaves, id)
    requires forall x | Reaches(leaves, id, x) :: x !in visited
    ensures Walk(leaves, id, visited).Success?
    decreases leaves.Keys - visited, 1, 0
  {
    assert Follow(leaves, id, []) == At(id);
    assert Reaches(leaves, id, id);
    assert leaves.Keys - (visited + {id}) < leaves.Keys - visited by {
      assert id in leaves.Keys - visited;
    }
    ChildrenApart(leaves, id, visited);
    ApartSucceeds(leaves, leaves[id].childIds, visited + {id});
  }

  lemma {:induction false} ChildrenApart(leaves: Leaves, id: string, visited: set<string>)
    requires TreeBelow(leaves, id) && id in leaves
    requires forall x | Reaches(leaves, id, x) :: x !in visited
    ensures Apart(leaves, leaves[id].childIds, visited + {id})
  {
    var ids := leaves[id].childIds;
    assert Follow(leaves, id, []) == At(id);
    forall i: nat | i < |ids|
      ensures TreeBelow(leaves, ids[i])
      ensures forall x | Reaches(leaves, ids[i], x) :: Reaches(leaves, id, x) && x != id
    {
      ChildTree(leaves, id, i);
    }
    forall i, j, x | 0 <= i < j < |ids| && Reaches(leaves, ids[i], x)
      ensures !Reaches(leaves, ids[j], x)
    {
      if Reaches(leaves, ids[j], x) {
        SameChild(leaves, id, i, j, x);
      }
    }
  }

  lemma {:induction false} SameChild(leaves: Leaves, id: string, i: nat, j: nat, x: string)
    requires TreeBelow(leaves, id) && id in leaves && i < |leaves[id].childIds| && j < |leaves[id].childIds|
    requires Reaches(leaves, leaves[id].childIds[i], x) && Reaches(leaves, leaves[id].childIds[j], x)
    ensures i == j
  {
    var p: seq<nat> :| Follow(leaves, leaves[id].childIds[i], p) == At(x);
    var q: seq<nat> :| Follow(leaves, leaves[id].childIds[j], q) == At(x);
    FollowChild(leaves, id, i, p);
    FollowChild(leaves, id, j, q);
    assert ([i] + p)[0] == ([j] + q)[0];
  }

  lemma {:induction false} ChildTree(leaves: Leaves, id: string, i: nat)
    requires TreeBelow(leaves, id) && id in leaves && i < |leaves[id].childIds|
    ensures TreeBelow(leaves, leaves[id].childIds[i])
    ensures forall x | Reaches(leaves, leaves[id].childIds[i], x) :: Reaches(leaves, id, x) && x != id
  {
    var child := leaves[id].childIds[i];
    forall x | Reaches(leaves, child, x)
      ensures Reaches(leaves, id, x) && x != id
    {
      var q: seq<nat> :| Follow(leaves, child, q) == At(x);
      FollowChild(leaves, id, i, q);
      assert Follow(leaves, id, []) == At(id);
      assert [i] + q != [];
    }
    forall p: seq<nat>, q: seq<nat> | Follow(leaves, child, p).At?
      && Follow(leaves, child, p) == Follow(leaves, child, q)
      ensures p == q
    {
      FollowChild(leaves, id, i, p);
      FollowChild(leaves, id, i, q);
      assert ([i] + p)[1..] == p && ([i] + q)[1..] == q;
    }
  }

  lemma {:induction false} ApartSucceeds(leaves: Leaves, ids: seq<string>, visited: set<string>)
    requires Apart(leaves, ids, visited)
    ensures WalkAll(leaves, ids, visited).Success?
    decreases leaves.Keys - visited, 2, |ids|
  {
    if ids != [] {
      TreeSucceeds(leaves, ids[0], visited);
      WalkMarks(leaves, ids[0], visited);
      var after := Walk(leaves, ids[0], visited).value;
      assert leaves.Keys - after == leaves.Keys - visited || leaves.Keys - after < leaves.Keys - visited;
      ApartSucceeds(leaves, ids[1..], after);
    }
  }

  /** On an arbitrary map, cyclic ones included, the traversal succeeds exactly when every id below
      the root passes its own checks and is reached by exactly one path. */
  lemma {:induction false} WalkSucceedsIff(leaves: Leaves, rootId: string)
    ensures Walk(leaves, rootId, {}).Success? <==> TreeBelow(leaves, rootId)
  {
    if Walk(leaves, rootId, {}).Success? {
      WalkMarks(leaves, rootId, {});
    }
    if TreeBelow(leaves, rootId) {
      TreeSucceeds(leaves, rootId, {});
    }
  }

  // ----- The reference definition of a well-formed tree -----

  function KindAt(treeDepth: nat): string {
    if treeDepth == 0 then "root"
    else if treeDepth == 1 then "section"
    else if treeDepth == 2 then "cluster"
    else "event"
  }

  /** Right kind on every level, at most four levels, content, an id, and importance in 0..1. */
  predicate WellFormedAt(node: GeminiNode, treeDepth: nat) {
    && treeDepth < MAX_AST_DEPTH
    && node.id != ""
    && node.kind == KindAt(treeDepth)
    && (node.summary != "" || node.eventRefs != [])
    && 0.0 <= node.importance <= 1.0
    && (forall c | c in node.children :: WellFormedAt(c, treeDepth + 1))
  }

  /** The ids of a tree, with multiplicity. */
  function Ids(node: GeminiNode): multiset<string>
    decreases node, 1
  {
    multiset{node.id} + AllIds(node.children)
  }

  function AllIds(nodes: seq<GeminiNode>): multiset<string>
    decreases nodes, 0
  {
    if nodes == [] then multiset{} else AllIds(nodes[..|nodes| - 1]) + Ids(nodes[|nodes| - 1])
  }

  ghost predicate NoRepeats(ids: multiset<string>) {
    forall x | x in ids :: ids[x] == 1
  }

  ghost predicate WellFormed(root: GeminiNode) {
    WellFormedAt(root, 0) && NoRepeats(Ids(root))
  }

  // ----- Well-formed trees are accepted -----

  function IdSet(ids: multiset<string>): set<string> {
    set x | x in ids
  }

  /** `leaves` still holds every node of the tree, not overwritten by another one. */
  ghost predicate Holds(leaves: Leaves, node: GeminiNode, parentId: string, treeDepth: nat) {
    && node.id in leaves
    && ParseLeafKind(node.kind).Success?
    && leaves[node.id] == LeafOf(node, ParseLeafKind(node.kind).value, parentId, treeDepth)
    && (forall c | c in node.children :: Holds(leaves, c, node.id, treeDepth + 1))
  }

  lemma {:induction false} HoldsFrame(a: Leaves, b: Leaves, node: GeminiNode, parentId: string, treeDepth: nat)
    requires Holds(a, node, parentId, treeDepth)
    requires forall x | x in Ids(node) :: x in a ==> x in b && b[x] == a[x]
    ensures Holds(b, node, parentId, treeDepth)
    decreases node
  {
    forall c | c in node.children
      ensures Holds(b, c, node.id, treeDepth + 1)
    {
      MemberIds(node.children, c);
      HoldsFrame(a, b, c, node.id, treeDepth + 1);
    }
  }

  lemma {:induction false} MemberIds(nodes: seq<GeminiNode>, c: GeminiNode)
    requires c in nodes
    ensures Ids(c) <= AllIds(nodes)
    decreases |nodes|
  {
    var last := |nodes| - 1;
    if c != nodes[last] {
      assert nodes == nodes[..last] + [nodes[last]];
      MemberIds(nodes[..last], c);
    }
  }

  /** Flattening touches the ids of the tree only, and loses no node when no id repeats. */
  lemma {:induction false} FlattenHolds(leaves: Leaves, node: GeminiNode, parentId: string, treeDepth: nat)
    requires Flatten(leaves, node, parentId, treeDepth).Success?
    ensures forall x | x !in Ids(node) ::
              var after := Flatten(leaves, node, parentId, treeDepth).value;
              (x in after <==> x in leaves) && (x in leaves ==> after[x] == leaves[x])
    ensures NoRepeats(Ids(node)) ==>
              Holds(Flatten(leaves, node, parentId, treeDepth).value, node, parentId, treeDepth)
    decreases node, 1
  {
    FlattenAllHolds(leaves, node.children, node.id, treeDepth + 1);
    if NoRepeats(Ids(node)) {
      NoRepeatsSplit(multiset{node.id}, AllIds(node.children));
      var below := FlattenAll(leaves, node.children, node.id, treeDepth + 1).value;
      var after := Flatten(leaves, node, parentId, treeDepth).value;
      forall c | c in node.children
        ensures Holds(after, c, node.id, treeDepth + 1)
      {
        MemberIds(node.children, c);
        HoldsFrame(below, after, c, node.id, treeDepth + 1);
      }
    }
  }

  lemma {:induction false} FlattenAllHolds(leaves: Leaves, nodes: seq<GeminiNode>, parentId: string, treeDepth: nat)
    requires FlattenAll(leaves, nodes, parentId, treeDepth).Success?
    ensures forall x | x !in AllIds(nodes) ::
              var after := FlattenAll(leaves, nodes, parentId, treeDepth).value;
              (x in after <==> x in leaves) && (x in leaves ==> after[x] == leaves[x])
    ensures NoRepeats(AllIds(nodes)) ==>
              forall c | c in nodes :: Holds(FlattenAll(leaves, nodes, parentId, treeDepth).value, c, parentId,
                                             treeDepth)
    decreases nodes, 0
  {
    if nodes != [] {
      var init, last := nodes[..|nodes| - 1], nodes[|nodes| - 1];
      FlattenAllHolds(leaves, init, parentId, treeDepth);
      var before := FlattenAll(leaves, init, parentId, treeDepth).value;
      FlattenHolds(before, last, parentId, treeDepth);
      var after := FlattenAll(leaves, nodes, parentId, treeDepth).value;
      if NoRepeats(AllIds(nodes)) {
        NoRepeatsSplit(AllIds(init), Ids(last));
        forall c | c in nodes
          ensures Holds(after, c, parentId, treeDepth)
        {
          if c in init {
            MemberIds(init, c);
            HoldsFrame(before, after, c, parentId, treeDepth);
          } else {
            assert nodes == init + [last];
          }
        }
      }
    }
  }

  lemma {:induction false} NoRepeatsSplit(a: multiset<string>, b: multiset<string>)
    requires NoRepeats(a + b)
    ensures NoRepeats(a) && NoRepeats(b) && a !! b
  {
    forall x | x in a
      ensures a[x] == 1 && x !in b
    {
      assert x in a + b && (a + b)[x] == a[x] + b[x];
    }
    forall x | x in b
      ensures b[x] == 1
    {
      assert x in a + b && (a + b)[x] == a[x] + b[x];
    }
  }

  lemma KindAtParses(node: GeminiNode, treeDepth: nat)
    requires WellFormedAt(node, treeDepth)
    ensures ParseLeafKind(node.kind).Success?
    ensures forall parentId ::
              LeafOf(node, ParseLeafKind(node.kind).value, parentId, treeDepth).Validate().Pass?
  {
  }

  lemma {:induction false} HeldLeafPasses(leaves: Leaves, node: GeminiNode, parentId: string, treeDepth: nat)
    requires Holds(leaves, node, parentId, treeDepth) && WellFormedAt(node, treeDepth)
    requires parentId != "" ==> parentId in leaves && leaves[parentId].depth == FibDepth(treeDepth) + 1
    ensures CheckLeaf(leaves, node.id).Pass?
    ensures node.id in leaves && node.id != "" && leaves[node.id].childIds == ChildIds(node.children)
    ensures node.children != [] ==> leaves[node.id].depth == FibDepth(treeDepth + 1) + 1
  {
    KindAtParses(node, treeDepth);
    if node.children != [] {
      assert node.children[0] in node.children;
    }
  }

  lemma WalkUnfolds(leaves: Leaves, id: string, visited: set<string>, ids: seq<string>)
    requires id !in visited && CheckLeaf(leaves, id).Pass? && leaves[id].childIds == ids
    ensures Walk(leaves, id, visited) == WalkAll(leaves, ids, visited + {id})
  {
  }

  lemma WalkAllUnfolds(leaves: Leaves, ids: seq<string>, visited: set<string>, after: set<string>)
    requires ids != [] && Walk(leaves, ids[0], visited) == Success(after)
    ensures WalkAll(leaves, ids, visited) == WalkAll(leaves, ids[1..], after)
  {
  }

  /** Over a map that holds a well-formed tree, the traversal succeeds and marks exactly its ids. */
  lemma {:induction false} WalkTree(leaves: Leaves, node: GeminiNode, parentId: string, treeDepth: nat,
                                    visited: set<string>)
    requires Holds(leaves, node, parentId, treeDepth) && WellFormedAt(node, treeDepth)
    requires NoRepeats(Ids(node)) && IdSet(Ids(node)) !! visited
    requires parentId != "" ==> parentId in leaves && leaves[parentId].depth == FibDepth(treeDepth) + 1
    ensures Walk(leaves, node.id, visited) == Success(visited + IdSet(Ids(node)))
    decreases node, 1
  {
    HeldLeafPasses(leaves, node, parentId, treeDepth);
    var inner := TreeIdSplit(node, visited);
    WalkUnfolds(leaves, node.id, visited, ChildIds(node.children));
    WalkAllTrees(leaves, node.children, node.id, treeDepth + 1, inner);
  }

  lemma {:induction false} TreeIdSplit(node: GeminiNode, visited: set<string>) returns (inner: set<string>)
    requires NoRepeats(Ids(node)) && IdSet(Ids(node)) !! visited
    ensures inner == visited + {node.id} && node.id !in visited
    ensures NoRepeats(AllIds(node.children)) && IdSet(AllIds(node.children)) !! inner
    ensures inner + IdSet(AllIds(node.children)) == visited + IdSet(Ids(node))
  {
    inner := visited + {node.id};
    NoRepeatsSplit(multiset{node.id}, AllIds(node.children));
    IdSetUnion(multiset{node.id}, AllIds(node.children));
    assert IdSet(multiset{node.id}) == {node.id};
  }

  lemma {:induction false} WalkAllTrees(leaves: Leaves, nodes: seq<GeminiNode>, parentId: string, treeDepth: nat,
                                        visited: set<string>)
    requires forall c | c in nodes :: Holds(leaves, c, parentId, treeDepth)
    requires forall c | c in nodes :: WellFormedAt(c, treeDepth)
    requires NoRepeats(AllIds(nodes)) && IdSet(AllIds(nodes)) !! visited
    requires nodes != [] && parentId != "" ==> parentId in leaves && leaves[parentId].depth == FibDepth(treeDepth) + 1
    ensures WalkAll(leaves, ChildIds(nodes), visited) == Success(visited + IdSet(AllIds(nodes)))
    decreases nodes, 0
  {
    if nodes == [] {
      assert visited + IdSet(AllIds(nodes)) == visited;
    } else {
      var after, all := ForestIdSplit(nodes, visited);
      WalkTree(leaves, nodes[0], parentId, treeDepth, visited);
      WalkAllTrees(leaves, nodes[1..], parentId, treeDepth, after);
      ChildIdsTail(nodes);
      WalkAllUnfolds(leaves, ChildIds(nodes), visited, after);
    }
  }

  lemma ChildIdsTail(nodes: seq<GeminiNode>)
    requires nodes != []
    ensures ChildIds(nodes)[0] == nodes[0].id && ChildIds(nodes)[1..] == ChildIds(nodes[1..])
  {
  }

  lemma {:induction false} ForestIdSplit(nodes: seq<GeminiNode>, visited: set<string>)
    returns (after: set<string>, all: set<string>)
    requires nodes != []
    requires NoRepeats(AllIds(nodes)) && IdSet(AllIds(nodes)) !! visited
    ensures NoRepeats(Ids(nodes[0])) && IdSet(Ids(nodes[0])) !! visited
    ensures after == visited + IdSet(Ids(nodes[0]))
    ensures NoRepeats(AllIds(nodes[1..])) && IdSet(AllIds(nodes[1..])) !! after
    ensures all == visited + IdSet(AllIds(nodes)) == after + IdSet(AllIds(nodes[1..]))
  {
    AllIdsFirst(nodes);
    NoRepeatsSplit(Ids(nodes[0]), AllIds(nodes[1..]));
    IdSetUnion(Ids(nodes[0]), AllIds(nodes[1..]));
    after := visited + IdSet(Ids(nodes[0]));
    all := visited + IdSet(AllIds(nodes));
  }

  lemma IdSetUnion(a: multiset<string>, b: multiset<string>)
    ensures IdSet(a + b) == IdSet(a) + IdSet(b)
    ensures a !! b ==> IdSet(a) !! IdSet(b)
  {
  }

  lemma {:induction false} AllIdsFirst(nodes: seq<GeminiNode>)
    requires nodes != []
    ensures AllIds(nodes) == Ids(nodes[0]) + AllIds(nodes[1..])
    decreases |nodes|
  {
    hide Ids;
    var last := |nodes| - 1;
    if last > 0 {
      AllIdsFirst(nodes[..last]);
      assert nodes[..last][1..] == nodes[1..][..last - 1];
      assert nodes[1..][last - 1] == nodes[last];
      MultisetRegroup(Ids(nodes[0]), AllIds(nodes[1..][..last - 1]), Ids(nodes[last]));
    } else {
      assert nodes[..0] == [] && nodes[1..] == [];
    }
  }

  // ----- Accepted maps come from well-formed trees -----

  /** A node still to be looked at, with the context it was flattened in. */
  datatype Pending = Pending(node: GeminiNode, parentId: string, treeDepth: nat)

  function FlattenPending(pending: seq<Pending>): Result<Leaves> {
    if pending == [] then Success(map[])
    else
      var last := pending[|pending| - 1];
      match FlattenPending(pending[..|pending| - 1])
      case Failure(e) => Failure(e)
      case Success(before) => Flatten(before, last.node, last.parentId, last.treeDepth)
  }

  function PendingIds(pending: seq<Pending>): multiset<string> {
    if pending == [] then multiset{}
    else PendingIds(pending[..|pending| - 1]) + Ids(pending[|pending| - 1].node)
  }

  function Children(p: Pending): seq<Pending> {
    PendAll(p.node.children, p.node.id, p.treeDepth + 1)
  }

  function PendAll(nodes: seq<GeminiNode>, parentId: string, treeDepth: nat): (r: seq<Pending>)
    ensures |r| == |nodes|
    ensures forall i | 0 <= i < |nodes| :: r[i] == Pending(nodes[i], parentId, treeDepth)
  {
    if nodes == [] then []
    else PendAll(nodes[..|nodes| - 1], parentId, treeDepth) + [Pending(nodes[|nodes| - 1], parentId, treeDepth)]
  }

  lemma {:induction false} PendAllFlattens(rest: seq<Pending>, nodes: seq<GeminiNode>, parentId: string, treeDepth: nat)
    requires FlattenPending(rest).Success?
    ensures FlattenPending(rest + PendAll(nodes, parentId, treeDepth))
         == FlattenAll(FlattenPending(rest).value, nodes, parentId, treeDepth)
    decreases |nodes|
  {
    if nodes == [] {
      assert rest + PendAll(nodes, parentId, treeDepth) == rest;
    } else {
      var last := |nodes| - 1;
      PendAllFlattens(rest, nodes[..last], parentId, treeDepth);
      PendAllSnoc(rest, nodes, parentId, treeDepth);
      PendingUnsnoc(rest + PendAll(nodes[..last], parentId, treeDepth), Pending(nodes[last], parentId, treeDepth));
    }
  }

  lemma {:induction false} PendAllIds(rest: seq<Pending>, nodes: seq<GeminiNode>, parentId: string, treeDepth: nat)
    ensures PendingIds(rest + PendAll(nodes, parentId, treeDepth)) == PendingIds(rest) + AllIds(nodes)
    decreases |nodes|
  {
    if nodes == [] {
      assert rest + PendAll(nodes, parentId, treeDepth) == rest;
    } else {
      var last := |nodes| - 1;
      PendAllIds(rest, nodes[..last], parentId, treeDepth);
      PendAllSnoc(rest, nodes, parentId, treeDepth);
      PendingUnsnoc(rest + PendAll(nodes[..last], parentId, treeDepth), Pending(nodes[last], parentId, treeDepth));
      MultisetRegroup(PendingIds(rest), AllIds(nodes[..last]), Ids(nodes[last]));
    }
  }

  lemma PendAllSnoc(rest: seq<Pending>, nodes: seq<GeminiNode>, parentId: string, treeDepth: nat)
    requires nodes != []
    ensures var last := |nodes| - 1;
            rest + PendAll(nodes, parentId, treeDepth)
              == (rest + PendAll(nodes[..last], parentId, treeDepth)) + [Pending(nodes[last], parentId, treeDepth)]
  {
  }

  lemma {:induction false} PendingUnsnoc(rest: seq<Pending>, p: Pending)
    ensures FlattenPending(rest + [p]) ==
              (match FlattenPending(rest)
               case Failure(e) => Failure(e)
               case Success(before) => Flatten(before, p.node, p.parentId, p.treeDepth))
    ensures PendingIds(rest + [p]) == PendingIds(rest) + Ids(p.node)
  {
    assert (rest + [p])[..|rest|] == rest;
  }

  lemma MultisetRegroup(a: multiset<string>, b: multiset<string>, c: multiset<string>)
    ensures (a + b) + c == a + (b + c) == b + (a + c)
  {
  }

  /** The id is the root or a child of a leaf that has been dealt with. */
  ghost predicate Referenced(done: Leaves, slots: map<string, Slot>, rootId: string, x: string) {
    x == rootId || (x in slots && slots[x].parent in done)
  }

  ghost predicate PendingOk(p: Pending, done: Leaves, rootId: string) {
    if p.treeDepth == 0 then p.node.id == rootId && p.parentId == ""
    else p.parentId != "" && p.parentId in done && done[p.parentId].depth == FibDepth(p.treeDepth - 1)
  }

  /** Walking the tree in reverse post-order: `done` are the leaves inserted after everything
      pending, so they are intact in the final map; the rest of the map is the pending trees'. */
  ghost predicate Layered(leaves: Leaves, pending: seq<Pending>, done: Leaves) {
    && FlattenPending(pending).Success?
    && (forall x | x !in done ::
          var below := FlattenPending(pending).value;
          (x in leaves <==> x in below) && (x in leaves ==> leaves[x] == below[x]))
  }

  /** The references of a forest with the single root `rootId`. */
  ghost predicate Slotted(leaves: Leaves, nodes: set<string>, slots: map<string, Slot>, rootId: string) {
    && slots.Keys <= nodes <= leaves.Keys
    && rootId in nodes && rootId !in slots
    && (forall a, i | a in nodes && 0 <= i < |leaves[a].childIds| ::
          leaves[a].childIds[i] in slots && slots[leaves[a].childIds[i]] == Slot(a, i))
  }

  ghost predicate LinkedDone(leaves: Leaves, nodes: set<string>, slots: map<string, Slot>, rootId: string,
                             done: Leaves) {
    && Slotted(leaves, nodes, slots, rootId)
    && done.Keys <= nodes
    && (forall a | a in done :: a in leaves && leaves[a] == done[a])
    && (forall x | x in done :: x == rootId || x in slots)
    && (forall x {:trigger slots[x]} | x in slots && x in done :: slots[x].parent in done)
  }

  ghost predicate LinkedPending(nodes: set<string>, slots: map<string, Slot>, rootId: string, p: Pending,
                                done: Leaves) {
    && p.node.id in nodes
    && p.node.id !in done
    && PendingOk(p, done, rootId)
    && Referenced(done, slots, rootId, p.node.id)
  }

  ghost predicate DistinctPending(pending: seq<Pending>) {
    forall j, k | 0 <= j < k < |pending| :: pending[j].node.id != pending[k].node.id
  }

  /** No id has repeated so far, and every id seen is the root or referenced by a done leaf. */
  ghost predicate Linked(leaves: Leaves, nodes: set<string>, slots: map<string, Slot>, rootId: string,
                         pending: seq<Pending>, done: Leaves) {
    && LinkedDone(leaves, nodes, slots, rootId, done)
    && DistinctPending(pending)
    && (forall k | 0 <= k < |pending| :: LinkedPending(nodes, slots, rootId, pending[k], done))
  }

  lemma {:induction false} FlattenPendingStep(rest: seq<Pending>, p: Pending)
    requires FlattenPending(rest + [p]).Success?
    ensures FlattenPending(rest).Success? && ParseLeafKind(p.node.kind).Success?
    ensures FlattenPending(rest + Children(p)).Success?
    ensures FlattenPending(rest + [p]).value ==
              FlattenPending(rest + Children(p)).value[p.node.id :=
                LeafOf(p.node, ParseLeafKind(p.node.kind).value, p.parentId, p.treeDepth)]
  {
    PendingUnsnoc(rest, p);
    PendAllFlattens(rest, p.node.children, p.node.id, p.treeDepth + 1);
  }

  /** The last pending node was inserted last among the pending ones, so it is intact. */
  lemma LayeredStep(leaves: Leaves, pending: seq<Pending>, next: seq<Pending>, done: Leaves, leaf: MemoryLeaf)
    requires Layered(leaves, pending, done) && leaf.id !in done
    requires FlattenPending(next).Success?
    requires FlattenPending(pending).value == FlattenPending(next).value[leaf.id := leaf]
    ensures leaf.id in leaves && leaves[leaf.id] == leaf
    ensures Layered(leaves, next, done[leaf.id := leaf])
  {
  }

  lemma {:induction false} PendingIdsStep(rest: seq<Pending>, p: Pending)
    ensures PendingIds(rest + [p]) == multiset{p.node.id} + PendingIds(rest + Children(p))
  {
    PendingUnsnoc(rest, p);
    PendAllIds(rest, p.node.children, p.node.id, p.treeDepth + 1);
    MultisetRegroup(PendingIds(rest), multiset{p.node.id}, AllIds(p.node.children));
  }

  /** Taking the last pending node keeps the links: each of its children has its only reference
      here, so it cannot repeat an id that was referenced before. */
  lemma {:induction false} LinkedStep(leaves: Leaves, nodes: set<string>, slots: map<string, Slot>, rootId: string,
                                      rest: seq<Pending>, p: Pending, done: Leaves, kind: LeafKind)
    requires Linked(leaves, nodes, slots, rootId, rest + [p], done)
    requires p.node.id in leaves && leaves[p.node.id] == LeafOf(p.node, kind, p.parentId, p.treeDepth)
    requires p.node.id != ""
    ensures Linked(leaves, nodes, slots, rootId, rest + Children(p), done[p.node.id := leaves[p.node.id]])
  {
    assert (rest + [p])[|rest|] == p;
    LinkedDoneStep(leaves, nodes, slots, rootId, p, done);
    LinkedPendingStep(leaves, nodes, slots, rootId, rest, p, done, kind);
    DistinctStep(leaves, nodes, slots, rootId, rest, p, done, kind);
  }

  lemma LinkedDoneStep(leaves: Leaves, nodes: set<string>, slots: map<string, Slot>, rootId: string, p: Pending,
                       done: Leaves)
    requires LinkedDone(leaves, nodes, slots, rootId, done) && LinkedPending(nodes, slots, rootId, p, done)
    requires p.node.id in leaves
    ensures LinkedDone(leaves, nodes, slots, rootId, done[p.node.id := leaves[p.node.id]])
  {
  }

  lemma {:induction false} LinkedPendingStep(leaves: Leaves, nodes: set<string>, slots: map<string, Slot>,
                                             rootId: string, rest: seq<Pending>, p: Pending, done: Leaves,
                                             kind: LeafKind)
    requires Linked(leaves, nodes, slots, rootId, rest + [p], done)
    requires p.node.id in leaves && leaves[p.node.id] == LeafOf(p.node, kind, p.parentId, p.treeDepth)
    requires p.node.id != ""
    ensures forall k | 0 <= k < |rest + Children(p)| ::
              LinkedPending(nodes, slots, rootId, (rest + Children(p))[k], done[p.node.id := leaves[p.node.id]])
  {
    var pending := rest + [p];
    var next := rest + Children(p);
    assert pending[|rest|] == p;
    forall k | 0 <= k < |next|
      ensures LinkedPending(nodes, slots, rootId, next[k], done[p.node.id := leaves[p.node.id]])
    {
      if k < |rest| {
        assert next[k] == pending[k];
      } else {
        ChildLinked(leaves, nodes, slots, rootId, p, done, kind, k - |rest|);
        assert next[k] == Children(p)[k - |rest|];
      }
    }
  }

  lemma {:induction false} DistinctStep(leaves: Leaves, nodes: set<string>, slots: map<string, Slot>, rootId: string,
                                        rest: seq<Pending>, p: Pending, done: Leaves, kind: LeafKind)
    requires Linked(leaves, nodes, slots, rootId, rest + [p], done)
    requires p.node.id in leaves && leaves[p.node.id] == LeafOf(p.node, kind, p.parentId, p.treeDepth)
    requires p.node.id != ""
    ensures DistinctPending(rest + Children(p))
  {
    var pending := rest + [p];
    var next := rest + Children(p);
    assert pending[|rest|] == p;
    forall j, k | 0 <= j < k < |next|
      ensures next[j].node.id != next[k].node.id
    {
      if k < |rest| {
        assert next[j] == pending[j] && next[k] == pending[k];
      } else {
        ChildLinked(leaves, nodes, slots, rootId, p, done, kind, k - |rest|);
        assert next[k] == Children(p)[k - |rest|];
        if j < |rest| {
          assert next[j] == pending[j];
          assert LinkedPending(nodes, slots, rootId, pending[j], done);
        } else {
          ChildLinked(leaves, nodes, slots, rootId, p, done, kind, j - |rest|);
          assert next[j] == Children(p)[j - |rest|];
        }
      }
    }
  }

  lemma {:induction false} ChildLinked(leaves: Leaves, nodes: set<string>, slots: map<string, Slot>, rootId: string,
                                       p: Pending, done: Leaves, kind: LeafKind, i: nat)
    requires LinkedDone(leaves, nodes, slots, rootId, done) && LinkedPending(nodes, slots, rootId, p, done)
    requires p.node.id in leaves && leaves[p.node.id] == LeafOf(p.node, kind, p.parentId, p.treeDepth)
    requires p.node.id != "" && i < |p.node.children|
    ensures var c := Children(p)[i];
            && LinkedPending(nodes, slots, rootId, c, done[p.node.id := leaves[p.node.id]])
            && c.node.id in slots && slots[c.node.id] == Slot(p.node.id, i)
  {
    assert Children(p)[i].node.id == leaves[p.node.id].childIds[i];
  }

  ghost predicate AllWellFormed(pending: seq<Pending>) {
    forall k | 0 <= k < |pending| :: WellFormedAt(pending[k].node, pending[k].treeDepth)
  }

  lemma {:induction false} AllWellFormedStep(rest: seq<Pending>, p: Pending)
    requires AllWellFormed(rest + Children(p))
    ensures forall c | c in p.node.children :: WellFormedAt(c, p.treeDepth + 1)
    ensures WellFormedAt(p.node, p.treeDepth) ==> AllWellFormed(rest + [p])
  {
    var next := rest + Children(p);
    forall c | c in p.node.children
      ensures WellFormedAt(c, p.treeDepth + 1)
    {
      var i :| 0 <= i < |p.node.children| && p.node.children[i] == c;
      assert next[|rest| + i] == Pending(c, p.node.id, p.treeDepth + 1);
    }
    forall k | 0 <= k < |rest|
      ensures WellFormedAt(rest[k].node, rest[k].treeDepth)
    {
      assert next[k] == rest[k];
    }
  }

  ghost predicate FreshIds(pending: seq<Pending>, done: Leaves) {
    NoRepeats(PendingIds(pending)) && forall x | x in PendingIds(pending) :: x !in done
  }

  lemma {:induction false} FreshIdsStep(rest: seq<Pending>, p: Pending, done: Leaves, leaf: MemoryLeaf)
    requires FreshIds(rest + Children(p), done[p.node.id := leaf]) && p.node.id !in done
    ensures FreshIds(rest + [p], done)
  {
    PendingIdsStep(rest, p);
    assert p.node.id in done[p.node.id := leaf];
  }

  /** Every pending tree is well-formed at its depth, and no id repeats in or across them. */
  lemma {:induction false} Uncover(leaves: Leaves, nodes: set<string>, slots: map<string, Slot>, rootId: string,
                                   pending: seq<Pending>, done: Leaves)
    requires Layered(leaves, pending, done) && Linked(leaves, nodes, slots, rootId, pending, done)
    requires forall a | a in nodes :: CheckLeaf(leaves, a).Pass?
    ensures AllWellFormed(pending) && FreshIds(pending, done)
    decreases |PendingIds(pending)|
  {
    if pending != [] {
      var p, rest := pending[|pending| - 1], pending[..|pending| - 1];
      assert pending == rest + [p];
      UncoverOne(leaves, nodes, slots, rootId, rest, p, done);
      Uncover(leaves, nodes, slots, rootId, rest + Children(p), done[p.node.id := leaves[p.node.id]]);
      AllWellFormedStep(rest, p);
      FreshIdsStep(rest, p, done, leaves[p.node.id]);
      NodeWellFormed(leaves, p, done, rootId);
    }
  }

  lemma {:induction false} UncoverOne(leaves: Leaves, nodes: set<string>, slots: map<string, Slot>, rootId: string,
                                      rest: seq<Pending>, p: Pending, done: Leaves)
    requires Layered(leaves, rest + [p], done) && Linked(leaves, nodes, slots, rootId, rest + [p], done)
    requires forall a | a in nodes :: CheckLeaf(leaves, a).Pass?
    ensures ParseLeafKind(p.node.kind).Success?
    ensures p.node.id in leaves && CheckLeaf(leaves, p.node.id).Pass?
    ensures leaves[p.node.id] == LeafOf(p.node, ParseLeafKind(p.node.kind).value, p.parentId, p.treeDepth)
    ensures p.node.id !in done && PendingOk(p, done, rootId)
    ensures Layered(leaves, rest + Children(p), done[p.node.id := leaves[p.node.id]])
    ensures Linked(leaves, nodes, slots, rootId, rest + Children(p), done[p.node.id := leaves[p.node.id]])
    ensures |PendingIds(rest + Children(p))| < |PendingIds(rest + [p])|
  {
    assert (rest + [p])[|rest|] == p;
    FlattenPendingStep(rest, p);
    var kind := ParseLeafKind(p.node.kind).value;
    LayeredStep(leaves, rest + [p], rest + Children(p), done, LeafOf(p.node, kind, p.parentId, p.treeDepth));
    LinkedStep(leaves, nodes, slots, rootId, rest, p, done, kind);
    PendingIdsStep(rest, p);
  }

  /** A node that passes its own checks under its parent has the right kind, depth and content. */
  lemma NodeWellFormed(leaves: Leaves, p: Pending, done: Leaves, rootId: string)
    requires PendingOk(p, done, rootId)
    requires forall a | a in done :: a in leaves && leaves[a] == done[a]
    requires ParseLeafKind(p.node.kind).Success? && CheckLeaf(leaves, p.node.id).Pass?
    requires leaves[p.node.id] == LeafOf(p.node, ParseLeafKind(p.node.kind).value, p.parentId, p.treeDepth)
    requires forall c | c in p.node.children :: WellFormedAt(c, p.treeDepth + 1)
    ensures WellFormedAt(p.node, p.treeDepth)
  {
  }

  // ----- Main results -----

  /** For every tree that parses, validating the flattened map accepts exactly the well-formed
      trees. In particular a repeated id is always rejected, although it overwrites silently. */
  lemma {:induction false} ValidateExact(root: GeminiNode, leaves: Leaves)
    requires Flatten(map[], root, "", 0) == Success(leaves)
    ensures ValidateAst(leaves, root.id).Pass? <==> WellFormed(root)
  {
    if ValidateAst(leaves, root.id).Pass? {
      AcceptedIsWellFormed(root, leaves);
    }
    if WellFormed(root) {
      FlattenHolds(map[], root, "", 0);
      KindAtParses(root, 0);
      WalkTree(leaves, root, "", 0, {});
    }
  }

  lemma {:induction false} AcceptedIsWellFormed(root: GeminiNode, leaves: Leaves)
    requires Flatten(map[], root, "", 0) == Success(leaves)
    requires Walk(leaves, root.id, {}).Success?
    ensures WellFormed(root)
  {
    var slots := WalkForest(leaves, root.id, {});
    var nodes := Walk(leaves, root.id, {}).value - {};
    var p := Pending(root, "", 0);
    assert [root.id][0] == root.id;
    assert root.id in nodes && root.id !in slots;
    assert nodes <= leaves.Keys by {
      forall a | a in nodes
        ensures a in leaves
      {
        assert CheckLeaf(leaves, a).Pass?;
      }
    }
    assert [] + [p] == [p];
    PendingUnsnoc([], p);
    Uncover(leaves, nodes, slots, root.id, [p], map[]);
    assert WellFormedAt([p][0].node, [p][0].treeDepth);
    assert multiset{} + Ids(root) == Ids(root);
  }

  predicate KindsParse(node: GeminiNode) {
    ParseLeafKind(node.kind).Success? && forall c | c in node.children :: KindsParse(c)
  }

  /** Parsing fails exactly on a tree that uses an unknown kind somewhere. */
  lemma {:induction false} ParseSucceedsIff(leaves: Leaves, node: GeminiNode, parentId: string, treeDepth: nat)
    ensures Flatten(leaves, node, parentId, treeDepth).Success? <==> KindsParse(node)
    decreases node, 1
  {
    ParseAllSucceedsIff(leaves, node.children, node.id, treeDepth + 1);
  }

  lemma {:induction false} ParseAllSucceedsIff(leaves: Leaves, nodes: seq<GeminiNode>, parentId: string, treeDepth: nat)
    ensures FlattenAll(leaves, nodes, parentId, treeDepth).Success? <==> forall c | c in nodes :: KindsParse(c)
    decreases nodes, 0
  {
    if nodes != [] {
      var init, last := nodes[..|nodes| - 1], nodes[|nodes| - 1];
      ParseAllSucceedsIff(leaves, init, parentId, treeDepth);
      assert nodes == init + [last];
      if FlattenAll(leaves, init, parentId, treeDepth).Success? {
        ParseSucceedsIff(FlattenAll(leaves, init, parentId, treeDepth).value, last, parentId, treeDepth);
      }
    }
  }

  // ----- Reading the tree back -----

  /** Rebuilds the nested tree along the child ids; `unseen` are the ids not yet used. */
  function ReadBack(leaves: Leaves, id: string, unseen: set<string>): Result<GeminiNode>
    decreases unseen, 1, 0
  {
    if id !in unseen then Failure(CircularRef)
    else if id !in leaves then Failure(UndefinedLeaf)
    else
      var leaf := leaves[id];
      match ReadBackAll(leaves, leaf.childIds, unseen - {id})
      case Failure(e) => Failure(e)
      case Success(children) =>
        Success(GeminiNode(id, KindName(leaf.kind), leaf.summary, leaf.eventRefs, leaf.tags, leaf.importance, children))
  }

  function ReadBackAll(leaves: Leaves, ids: seq<string>, unseen: set<string>): Result<seq<GeminiNode>>
    decreases unseen, 2, |ids|
  {
    if ids == [] then Success([])
    else
      match ReadBack(leaves, ids[0], unseen)
      case Failure(e) => Failure(e)
      case Success(first) =>
        match ReadBackAll(leaves, ids[1..], unseen)
        case Failure(e) => Failure(e)
        case Success(rest) => Success([first] + rest)
  }

  lemma {:induction false} HeldTreeReadsBack(leaves: Leaves, node: GeminiNode, parentId: string, treeDepth: nat,
                                             unseen: set<string>)
    requires Holds(leaves, node, parentId, treeDepth)
    requires NoRepeats(Ids(node)) && IdSet(Ids(node)) <= unseen
    ensures ReadBack(leaves, node.id, unseen) == Success(node)
    decreases node, 1
  {
    var leaf := leaves[node.id];
    assert node.id in Ids(node);
    NoRepeatsSplit(multiset{node.id}, AllIds(node.children));
    assert IdSet(AllIds(node.children)) <= unseen - {node.id};
    assert unseen - {node.id} < unseen;
    HeldTreesReadBack(leaves, node.children, node.id, treeDepth + 1, unseen - {node.id});
    KindNameInverse(node.kind);
    assert ReadBackAll(leaves, leaf.childIds, unseen - {node.id}) == Success(node.children);
  }

  lemma {:induction false} HeldTreesReadBack(leaves: Leaves, nodes: seq<GeminiNode>, parentId: string, treeDepth: nat,
                                             unseen: set<string>)
    requires forall c | c in nodes :: Holds(leaves, c, parentId, treeDepth)
    requires NoRepeats(AllIds(nodes)) && IdSet(AllIds(nodes)) <= unseen
    ensures ReadBackAll(leaves, ChildIds(nodes), unseen) == Success(nodes)
    decreases nodes, 0
  {
    hide Holds, Ids, AllIds, NoRepeats, ReadBack, ChildIds;
    if nodes == [] {
      ChildIdsEmpty();
    } else {
      AllIdsFirst(nodes);
      NoRepeatsSplit(Ids(nodes[0]), AllIds(nodes[1..]));
      IdSetUnion(Ids(nodes[0]), AllIds(nodes[1..]));
      HeldTreeReadsBack(leaves, nodes[0], parentId, treeDepth, unseen);
      HeldTreesReadBack(leaves, nodes[1..], parentId, treeDepth, unseen);
      ChildIdsTail(nodes);
      assert nodes == [nodes[0]] + nodes[1..];
    }
  }

  lemma ChildIdsEmpty()
    ensures ChildIds([]) == []
  {
  }

  lemma KindNameInverse(kind: string)
    requires ParseLeafKind(kind).Success?
    ensures KindName(ParseLeafKind(kind).value) == kind
  {
  }

  /** Flattening is undone by reading back: an accepted tree is recovered node for node. */
  lemma {:induction false} ReadBackInverse(root: GeminiNode, leaves: Leaves)
    requires Flatten(map[], root, "", 0) == Success(leaves)
    requires ValidateAst(leaves, root.id).Pass?
    ensures ReadBack(leaves, root.id, leaves.Keys) == Success(root)
  {
    ValidateExact(root, leaves);
    FlattenHolds(map[], root, "", 0);
    HeldIdsDefined(leaves, root, "", 0);
    HeldTreeReadsBack(leaves, root, "", 0, leaves.Keys);
  }

  lemma {:induction false} HeldIdsDefined(leaves: Leaves, node: GeminiNode, parentId: string, treeDepth: nat)
    requires Holds(leaves, node, parentId, treeDepth)
    ensures forall x | x in Ids(node) :: x in leaves
    decreases node
  {
    forall x | x in AllIds(node.children)
      ensures x in leaves
    {
      var c := OwnerOf(node.children, x);
      HeldIdsDefined(leaves, c, node.id, treeDepth + 1);
    }
  }

  lemma {:induction false} OwnerOf(nodes: seq<GeminiNode>, x: string) returns (c: GeminiNode)
    requires x in AllIds(nodes)
    ensures c in nodes && x in Ids(c)
    decreases |nodes|
  {
    var last := |nodes| - 1;
    if x in Ids(nodes[last]) {
      c := nodes[last];
    } else {
      c := OwnerOf(nodes[..last], x);
    }
  }

  // ----- Event coverage -----

  /** The event ids that a tree refers to. */
  function Refs(node: GeminiNode): set<string> {
    (set x | x in node.eventRefs) + (set c, x | c in node.children && x in Refs(c) :: x)
  }

  ghost predicate Covers(leaves: Leaves, coverage: seq<string>) {
    && (forall i, j | 0 <= i < j < |coverage| :: coverage[i] != coverage[j])
    && (forall x :: x in coverage <==> exists id :: id in leaves && x in leaves[id].eventRefs)
  }

  lemma {:induction false} HeldNode(leaves: Leaves, node: GeminiNode, parentId: string, treeDepth: nat)
    requires Holds(leaves, node, parentId, treeDepth)
    ensures node.id in Ids(node) && node.id in leaves && leaves[node.id].eventRefs == node.eventRefs
    ensures forall c | c in node.children :: Holds(leaves, c, node.id, treeDepth + 1)
  {
    hide AllIds;
  }

  lemma {:induction false} ChildIdsIncluded(node: GeminiNode, c: GeminiNode)
    requires c in node.children
    ensures Ids(c) <= Ids(node)
  {
    MemberIds(node.children, c);
    hide AllIds;
  }

  lemma {:induction false} RefHasLeaf(leaves: Leaves, node: GeminiNode, parentId: string, treeDepth: nat, x: string)
    returns (id: string)
    requires Holds(leaves, node, parentId, treeDepth) && x in Refs(node)
    ensures id in Ids(node) && id in leaves && x in leaves[id].eventRefs
    decreases node
  {
    hide Holds, Ids;
    HeldNode(leaves, node, parentId, treeDepth);
    if x in node.eventRefs {
      id := node.id;
    } else {
      var c :| c in node.children && x in Refs(c);
      ChildIdsIncluded(node, c);
      id := RefHasLeaf(leaves, c, node.id, treeDepth + 1, x);
    }
  }

  lemma {:induction false} LeafHasRef(leaves: Leaves, node: GeminiNode, parentId: string, treeDepth: nat, id: string,
                                      x: string)
    requires Holds(leaves, node, parentId, treeDepth)
    requires id in Ids(node) && id in leaves && x in leaves[id].eventRefs
    ensures x in Refs(node)
    decreases node
  {
    if id != node.id {
      var c := OwnerOf(node.children, id);
      LeafHasRef(leaves, c, node.id, treeDepth + 1, id, x);
    }
  }

  /** The coverage of an accepted tree is exactly the set of event ids its nodes refer to. */
  lemma {:induction false} CoverageExact(root: GeminiNode, leaves: Leaves, coverage: seq<string>)
    requires Flatten(map[], root, "", 0) == Success(leaves)
    requires ValidateAst(leaves, root.id).Pass? && Covers(leaves, coverage)
    ensures (set x | x in coverage) == Refs(root)
    ensures |coverage| == |Refs(root)|
  {
    ValidateExact(root, leaves);
    FlattenHolds(map[], root, "", 0);
    forall x
      ensures x in coverage <==> x in Refs(root)
    {
      if x in coverage {
        var id :| id in leaves && x in leaves[id].eventRefs;
        LeafHasRef(leaves, root, "", 0, id, x);
      }
      if x in Refs(root) {
        var id := RefHasLeaf(leaves, root, "", 0, x);
      }
    }
    assert (set x | x in coverage) == Refs(root);
    DistinctSize(coverage);
  }

  lemma {:induction false} DistinctSize(s: seq<string>)
    requires forall i, j | 0 <= i < j < |s| :: s[i] != s[j]
    ensures |set x | x in s| == |s|
  {
    if s != [] {
      var last := |s| - 1;
      DistinctSize(s[..last]);
      assert s == s[..last] + [s[last]];
      assert (set x | x in s) == (set x | x in s[..last]) + {s[last]};
      assert s[last] !in s[..last];
    }
  }

  // ----- The mutable AST -----

  /** The `visited` map that one Validate call shares among all its recursive calls. */
  class VisitedSet {
    var ids: set<string>

    constructor ()
      ensures ids == {}
    {
      ids := {};
    }
  }

  lemma {:induction false} FailedPrefixFails(leaves: Leaves, nodes: seq<GeminiNode>, parentId: string, treeDepth: nat,
                                             n: nat)
    requires n <= |nodes| && FlattenAll(leaves, nodes[..n], parentId, treeDepth).Failure?
    ensures FlattenAll(leaves, nodes, parentId, treeDepth) == FlattenAll(leaves, nodes[..n], parentId, treeDepth)
    decreases |nodes|
  {
    if n == |nodes| {
      assert nodes[..n] == nodes;
    } else {
      var init := nodes[..|nodes| - 1];
      assert init[..n] == nodes[..n];
      FailedPrefixFails(leaves, init, parentId, treeDepth, n);
    }
  }

  lemma {:induction false} WalkAllPrefix(leaves: Leaves, ids: seq<string>, visited: set<string>, n: nat)
    requires n < |ids| && WalkAll(leaves, ids[..n], visited).Success?
    ensures WalkAll(leaves, ids[..n + 1], visited) == Walk(leaves, ids[n], WalkAll(leaves, ids[..n], visited).value)
    ensures WalkAll(leaves, ids[..n + 1], visited).Failure? ==>
              WalkAll(leaves, ids, visited) == WalkAll(leaves, ids[..n + 1], visited)
    decreases n
  {
    var one := ids[..n + 1];
    if n == 0 {
      assert one[1..] == [];
    } else {
      var after := Walk(leaves, ids[0], visited).value;
      assert ids[..n][1..] == ids[1..][..n - 1] && one[1..] == ids[1..][..n];
      WalkAllPrefix(leaves, ids[1..], after, n - 1);
    }
  }

  class Ast {
    var rootId: string
    var leaves: Leaves
    var eventCoverage: seq<string>

    constructor ()
      ensures leaves == map[] && rootId == "" && eventCoverage == []
    {
      leaves := map[];
      rootId := "";
      eventCoverage := [];
    }

    /** flattenGeminiNode: children first, then the node itself, into the one map. */
    method FlattenGeminiNode(node: GeminiNode, parentId: string, treeDepth: nat) returns (err: Outcome)
      modifies this`leaves
      ensures match Flatten(old(leaves), node, parentId, treeDepth)
              case Success(after) => err == Pass && leaves == after
              case Failure(e) => err == Fail(e)
      decreases node
    {
      var kind := ParseLeafKind(node.kind);
      if kind.Failure? {
        return Fail(kind.error);
      }
      var childIds := [];
      for i := 0 to |node.children|
        invariant FlattenAll(old(leaves), node.children[..i], node.id, treeDepth + 1) == Success(leaves)
        invariant childIds == ChildIds(node.children[..i])
      {
        var child := node.children[i];
        assert node.children[..i + 1][..i] == node.children[..i];
        childIds := childIds + [child.id];
        err := FlattenGeminiNode(child, node.id, treeDepth + 1);
        if err.Fail? {
          FailedPrefixFails(old(leaves), node.children, node.id, treeDepth + 1, i + 1);
          return;
        }
      }
      assert node.children[..|node.children|] == node.children;
      var leaf := MemoryLeaf(node.id, kind.value, FibDepth(treeDepth), parentId, childIds,
                             node.summary, "", node.eventRefs, node.importance, node.tags);
      leaves := leaves[leaf.id := leaf];
      err := Pass;
    }

    method ValidateSubtree(id: string, visited: VisitedSet) returns (err: Outcome)
      modifies visited
      ensures match Walk(leaves, id, old(visited.ids))
              case Success(after) => err == Pass && visited.ids == after
              case Failure(e) => err == Fail(e)
      decreases leaves.Keys - visited.ids, 0
    {
      if id in visited.ids {
        return Fail(CircularRef);
      }
      visited.ids := visited.ids + {id};
      if id !in leaves {
        return Fail(UndefinedLeaf);
      }
      var leaf := leaves[id];
      err := leaf.Validate();
      if err.Fail? {
        return;
      }
      if leaf.parentId != "" {
        if leaf.parentId !in leaves {
          return Fail(ParentNotFound);
        }
        if leaves[leaf.parentId].depth != leaf.depth + 1 {
          return Fail(ParentDepthMismatch);
        }
      }
      ghost var start := visited.ids;
      assert id in leaves.Keys - old(visited.ids);
      for i := 0 to |leaf.childIds|
        invariant WalkAll(leaves, leaf.childIds[..i], start) == Success(visited.ids)
        invariant start <= visited.ids
      {
        WalkAllPrefix(leaves, leaf.childIds, start, i);
        assert leaves.Keys - visited.ids < leaves.Keys - old(visited.ids) by {
          assert id !in leaves.Keys - visited.ids;
        }
        err := ValidateSubtree(leaf.childIds[i], visited);
        if err.Fail? {
          return;
        }
      }
      assert leaf.childIds[..|leaf.childIds|] == leaf.childIds;
      err := Pass;
    }

    method Validate() returns (err: Outcome)
      ensures err == ValidateAst(leaves, rootId)
    {
      if rootId == "" || rootId !in leaves {
        return Fail(EmptyRoot);
      }
      err := leaves[rootId].Validate();
      if err.Fail? {
        return;
      }
      if leaves[rootId].kind != RootLeaf {
        return Fail(EmptyRoot);
      }
      var visited := new VisitedSet();
      err := ValidateSubtree(rootId, visited);
    }

    /** Collects the event refs of all leaves, in whatever order the map yields them, and drops
        repetitions. */
    method CollectCoverage()
      modifies this`eventCoverage
      ensures Covers(leaves, eventCoverage)
    {
      eventCoverage := [];
      var pending := leaves.Keys;
      while pending != {}
        invariant pending <= leaves.Keys
        invariant forall x ::
          x in eventCoverage <==> exists id :: id in leaves.Keys - pending && x in leaves[id].eventRefs
      {
        var id :| id in pending;
        ghost var before := eventCoverage;
        eventCoverage := eventCoverage + leaves[id].eventRefs;
        ghost var left := pending - {id};
        forall x
          ensures x in eventCoverage <==> exists k :: k in leaves.Keys - left && x in leaves[k].eventRefs
        {
          if x in leaves[id].eventRefs {
            assert id in leaves.Keys - left;
          } else if x in before {
            var k :| k in leaves.Keys - pending && x in leaves[k].eventRefs;
            assert k in leaves.Keys - left;
          }
        }
        pending := pending - {id};
      }
      assert leaves.Keys - pending == leaves.Keys;
      var all := eventCoverage;
      eventCoverage := DeduplicateStrings(all);
    }

    static method ParseGeminiResponse(root: GeminiNode) returns (ast: Ast, err: Outcome)
      ensures fresh(ast)
      ensures err.Pass? <==> Flatten(map[], root, "", 0).Success?
      ensures err.Pass? ==> Flatten(map[], root, "", 0) == Success(ast.leaves) && ast.rootId == root.id
      ensures err.Pass? ==> Covers(ast.leaves, ast.eventCoverage)
    {
      ast := new Ast();
      err := ast.FlattenGeminiNode(root, "", 0);
      if err.Fail? {
        return;
      }
      ast.rootId := root.id;
      ast.CollectCoverage();
    }
  }

  /** First occurrences, in order. */
  method DeduplicateStrings(input: seq<string>) returns (out: seq<string>)
    ensures forall x :: x in out <==> x in input
    ensures forall i, j | 0 <= i < j < |out| :: IndexOf(input, out[i]) < IndexOf(input, out[j])
  {
    var seen: set<string> := {};
    out := [];
    for i := 0 to |input|
      invariant forall x :: x in seen <==> x in out
      invariant forall x :: x in out <==> x in input[..i]
      invariant forall j | 0 <= j < |out| :: out[j] in input && IndexOf(input, out[j]) < i
      invariant forall j, k | 0 <= j < k < |out| :: IndexOf(input, out[j]) < IndexOf(input, out[k])
    {
      if input[i] !in seen {
        seen := seen + {input[i]};
        out := out + [input[i]];
      }
      assert input[..i + 1] == input[..i] + [input[i]];
    }
  }
}
