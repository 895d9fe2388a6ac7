/**
 The category forest of a tenant. Rows are never removed: deleting one marks it, and it keeps its
 parent. Creates, updates, deletes and restores are transactions that run one after another.
 */
module Categories {
  import opened Wrappers
  import opened Inventory
  import opened Text

  datatype Category = Category(
    name: string, parent: Option<nat>, sortOrder: int, active: bool, live: bool, version: nat)

  datatype NewCategory = NewCategory(name: string, parent: Option<nat>, sortOrder: Option<int>)

  /** The parent field of an update: absent, or given, possibly as null. */
  datatype ParentChange = Keep | Move(parent: Option<nat>)

  datatype Edit = Edit(name: string, parent: ParentChange, sortOrder: int, active: bool, version: int)

  // -------------------------------------------------------------- paths upwards

  predicate Linked(rows: seq<Category>) {
    forall n :: 0 <= n < |rows| && rows[n].parent.Some? ==> rows[n].parent.value < |rows|
  }

  /** Nodes that each have the next as their parent. */
  ghost predicate Climb(rows: seq<Category>, path: seq<nat>) {
    && |path| > 0
    && (forall i :: 0 <= i < |path| ==> path[i] < |rows|)
    && (forall i :: 0 <= i < |path| - 1 ==> rows[path[i]].parent == Some(path[i + 1]))
  }

  /** `a` is `n` itself or one of its ancestors. */
  ghost predicate Above(rows: seq<Category>, n: nat, a: nat) {
    exists path :: Climb(rows, path) && path[0] == n && path[|path| - 1] == a
  }

  ghost predicate NoCycles(rows: seq<Category>) {
    forall path :: Climb(rows, path) && |path| > 1 ==> path[0] != path[|path| - 1]
  }

  lemma AboveItself(rows: seq<Category>, n: nat)
    requires n < |rows|
    ensures Above(rows, n, n)
  {
    assert Climb(rows, [n]);
  }

  /** Ancestors are the node and the ancestors of its parent. */
  lemma AboveStep(rows: seq<Category>, n: nat, a: nat)
    requires Linked(rows) && n < |rows|
    ensures Above(rows, n, a) <==> n == a || (rows[n].parent.Some? && Above(rows, rows[n].parent.value, a))
  {
    if n == a {
      AboveItself(rows, n);
    } else if Above(rows, n, a) {
      var path :| Climb(rows, path) && path[0] == n && path[|path| - 1] == a;
      assert rows[path[0]].parent == Some(path[1]);
      assert Climb(rows, path[1..]);
    }
    if rows[n].parent.Some? && Above(rows, rows[n].parent.value, a) {
      var path :| Climb(rows, path) && path[0] == rows[n].parent.value && path[|path| - 1] == a;
      var longer := [n] + path;
      assert Climb(rows, longer) && longer[0] == n && longer[|longer| - 1] == a;
    }
  }

  // ------------------------------------------------------------------ invariants

  /** Each node ranks above its parent: how much of a climb is left. */
  ghost predicate Ranked(rows: seq<Category>, rank: seq<nat>) {
    && |rank| == |rows|
    && forall n :: 0 <= n < |rows| && rows[n].parent.Some? ==>
      rows[n].parent.value < |rows| && rank[rows[n].parent.value] < rank[n]
  }

  ghost predicate LiveUpwards(rows: seq<Category>) {
    forall n :: 0 <= n < |rows| && rows[n].live && rows[n].parent.Some? ==>
      rows[n].parent.value < |rows| && rows[rows[n].parent.value].live
  }

  /** The tenant's names are unique, deleted rows included. */
  predicate NameTaken(rows: seq<Category>, id: nat, name: string) {
    exists n :: 0 <= n < |rows| && n != id && rows[n].name == name
  }

  ghost predicate UniqueNames(rows: seq<Category>) {
    forall m, n :: 0 <= m < n < |rows| ==> rows[m].name != rows[n].name
  }

  ghost predicate Forest(rows: seq<Category>) {
    (exists rank :: Ranked(rows, rank)) && LiveUpwards(rows) && UniqueNames(rows)
  }

  lemma {:induction false} ClimbDescendsInRank(rows: seq<Category>, rank: seq<nat>, path: seq<nat>)
    requires Ranked(rows, rank) && Climb(rows, path)
    ensures |path| > 1 ==> rank[path[|path| - 1]] < rank[path[0]]
  {
    if |path| > 1 {
      assert rows[path[0]].parent == Some(path[1]);
      ClimbDescendsInRank(rows, rank, path[1..]);
    }
  }

  lemma {:induction false} ClimbStaysLive(rows: seq<Category>, path: seq<nat>)
    requires LiveUpwards(rows) && Climb(rows, path) && rows[path[0]].live
    ensures rows[path[|path| - 1]].live
  {
    if |path| > 1 {
      assert rows[path[0]].parent == Some(path[1]);
      ClimbStaysLive(rows, path[1..]);
    }
  }

  /** What the invariants mean: no node is its own ancestor, and a live node has only live ancestors. */
  lemma ForestMeans(rows: seq<Category>)
    requires Forest(rows)
    ensures NoCycles(rows)
    ensures forall n, a: nat :: 0 <= n < |rows| && rows[n].live && Above(rows, n, a) ==> a < |rows| && rows[a].live
  {
    var rank :| Ranked(rows, rank);
    forall path | Climb(rows, path) && |path| > 1 ensures path[0] != path[|path| - 1] {
      ClimbDescendsInRank(rows, rank, path);
    }
    forall n, a: nat | 0 <= n < |rows| && rows[n].live && Above(rows, n, a) ensures a < |rows| && rows[a].live {
      var path :| Climb(rows, path) && path[0] == n && path[|path| - 1] == a;
      ClimbStaysLive(rows, path);
    }
  }

  // ------------------------------------------------------------------ operations

  datatype Changed = Changed(rows: seq<Category>, result: Result<nat>)

  predicate FitsColumns(name: string, sortOrder: int) {
    |Trim(name)| <= 100 && FitsInteger(sortOrder)
  }

  predicate ValidSort(sortOrder: int) {
    SafeInteger(sortOrder) && sortOrder >= 0
  }

  predicate LiveRow(rows: seq<Category>, id: nat) {
    id < |rows| && rows[id].live
  }

  function CreateCategory(rows: seq<Category>, input: NewCategory): Changed {
    var sortOrder := if input.sortOrder.Some? then input.sortOrder.value else 0;
    if Blank(input.name) || !ValidSort(sortOrder) then Changed(rows, Err(Conflict))
    else if input.parent.Some? && !LiveRow(rows, input.parent.value) then Changed(rows, Err(NotFound))
    else if !FitsColumns(input.name, sortOrder) || NameTaken(rows, |rows|, Trim(input.name)) then
      Changed(rows, Err(Constraint))
    else Changed(rows + [Category(Trim(input.name), input.parent, sortOrder, true, true, 0)], Ok(|rows|))
  }

  datatype Walk = Clear | Cycle | Missing

  /** Whether `id` may be placed under `parent`. */
  ghost function Placement(rows: seq<Category>, id: nat, parent: Option<nat>): Walk {
    if parent.None? then Clear
    else if parent.value == id then Cycle
    else if !LiveRow(rows, parent.value) then Missing
    else if Above(rows, parent.value, id) then Cycle
    else Clear
  }

  ghost function UpdateCategory(rows: seq<Category>, id: nat, input: Edit): Changed {
    var target := if input.parent.Move? then input.parent.parent else None;
    if Blank(input.name) || !ValidSort(input.sortOrder) then Changed(rows, Err(Conflict))
    else if id >= |rows| || !Placement(rows, id, target).Clear? then Changed(rows, Err(NotFound))
    else if !rows[id].live || rows[id].version != input.version then Changed(rows, Err(Conflict))
    else if !FitsColumns(input.name, input.sortOrder) || NameTaken(rows, id, Trim(input.name)) then
      Changed(rows, Err(Constraint))
    else
      var parent := if input.parent.Move? then input.parent.parent else rows[id].parent;
      Changed(rows[id := Category(Trim(input.name), parent, input.sortOrder, input.active, true, rows[id].version + 1)],
              Ok(id))
  }

  predicate HasLiveChild(rows: seq<Category>, id: nat) {
    exists n :: 0 <= n < |rows| && rows[n].live && rows[n].parent == Some(id)
  }

  function DeleteCategory(rows: seq<Category>, id: nat, products: nat): Changed {
    if !LiveRow(rows, id) then Changed(rows, Err(NotFound))
    else if products > 0 || HasLiveChild(rows, id) then Changed(rows, Err(Conflict))
    else Changed(rows[id := rows[id].(live := false, active := false, version := rows[id].version + 1)], Ok(id))
  }

  function RestoreCategory(rows: seq<Category>, id: nat): Changed {
    if id >= |rows| || rows[id].live then Changed(rows, Err(NotFound))
    else if rows[id].parent.Some? && !LiveRow(rows, rows[id].parent.value) then Changed(rows, Err(Conflict))
    else Changed(rows[id := rows[id].(live := true, active := false, version := rows[id].version + 1)], Ok(id))
  }

  // ------------------------------------------------------------- every step keeps

  lemma CreateKeepsForest(rows: seq<Category>, input: NewCategory)
    requires Forest(rows)
    ensures Forest(CreateCategory(rows, input).rows)
  {
    hide Trim;
    var rank :| Ranked(rows, rank);
    var after := CreateCategory(rows, input).rows;
    if after != rows {
      var mine := if input.parent.Some? then rank[input.parent.value] + 1 else 0;
      assert Ranked(after, rank + [mine]);
      assert !NameTaken(rows, |rows|, Trim(input.name));
    }
  }

  /** Ranks after `id` moves under `parent`: everything below `id` is lifted above the new parent. */
  ghost function Lifted(rows: seq<Category>, rank: seq<nat>, id: nat, parent: nat): (lifted: seq<nat>)
    requires |rank| == |rows| && parent < |rows|
    ensures |lifted| == |rows|
    ensures forall n :: 0 <= n < |rows| ==>
      lifted[n] == if Above(rows, n, id) then rank[n] + rank[parent] + 1 else rank[n]
  {
    seq(|rows|, n requires 0 <= n < |rows| => if Above(rows, n, id) then rank[n] + rank[parent] + 1 else rank[n])
  }

  /** Moving a node under one that is not below it leaves the rows ranked. */
  lemma MoveKeepsRanks(rows: seq<Category>, rank: seq<nat>, id: nat, moved: Category) returns (ranks: seq<nat>)
    requires Ranked(rows, rank) && id < |rows|
    requires moved.parent.Some? ==> moved.parent.value < |rows| && !Above(rows, moved.parent.value, id)
    ensures Ranked(rows[id := moved], ranks)
  {
    var after := rows[id := moved];
    ranks := rank;
    if moved.parent.Some? {
      ranks := Lifted(rows, rank, id, moved.parent.value);
      AboveItself(rows, id);
      forall n | 0 <= n < |rows| && after[n].parent.Some? ensures ranks[after[n].parent.value] < ranks[n] {
        if n != id {
          AboveStep(rows, n, id);
        }
      }
    }
  }

  lemma UpdateKeepsForest(rows: seq<Category>, id: nat, input: Edit)
    requires Forest(rows)
    ensures Forest(UpdateCategory(rows, id, input).rows)
  {
    hide Trim; hide Above;
    var rank :| Ranked(rows, rank);
    var after := UpdateCategory(rows, id, input).rows;
    if after != rows {
      if input.parent.Move? {
        var ranks := MoveKeepsRanks(rows, rank, id, after[id]);
      } else {
        assert Ranked(after, rank);
      }
      assert !NameTaken(rows, id, Trim(input.name));
    }
  }

  lemma DeleteKeepsForest(rows: seq<Category>, id: nat, products: nat)
    requires Forest(rows)
    ensures Forest(DeleteCategory(rows, id, products).rows)
  {
    var rank :| Ranked(rows, rank);
    assert Ranked(DeleteCategory(rows, id, products).rows, rank);
  }

  lemma RestoreKeepsForest(rows: seq<Category>, id: nat)
    requires Forest(rows)
    ensures Forest(RestoreCategory(rows, id).rows)
  {
    var rank :| Ranked(rows, rank);
    assert Ranked(RestoreCategory(rows, id).rows, rank);
  }

  // -------------------------------------------------------------------- over runs

  datatype Step =
    | Create(input: NewCategory)
    | Update(id: nat, edit: Edit)
    | Delete(id: nat, products: nat)
    | Restore(id: nat)

  ghost function Apply(rows: seq<Category>, step: Step): Changed {
    match step
    case Create(input) => CreateCategory(rows, input)
    case Update(id, edit) => UpdateCategory(rows, id, edit)
    case Delete(id, products) => DeleteCategory(rows, id, products)
    case Restore(id) => RestoreCategory(rows, id)
  }

  ghost function Run(rows: seq<Category>, steps: seq<Step>): seq<Category> {
    if |steps| == 0 then rows else Apply(Run(rows, steps[..|steps| - 1]), steps[|steps| - 1]).rows
  }

  lemma StepKeepsForest(rows: seq<Category>, step: Step)
    requires Forest(rows)
    ensures Forest(Apply(rows, step).rows)
  {
    hide Forest; hide CreateCategory; hide UpdateCategory; hide DeleteCategory; hide RestoreCategory;
    match step
    case Create(input) => CreateKeepsForest(rows, input);
    case Update(id, edit) => UpdateKeepsForest(rows, id, edit);
    case Delete(id, products) => DeleteKeepsForest(rows, id, products);
    case Restore(id) => RestoreKeepsForest(rows, id);
  }

  lemma {:induction false} RunKeepsForest(rows: seq<Category>, steps: seq<Step>)
    requires Forest(rows)
    ensures Forest(Run(rows, steps))
  {
    hide Forest; hide Apply;
    if |steps| > 0 {
      RunKeepsForest(rows, steps[..|steps| - 1]);
      StepKeepsForest(Run(rows, steps[..|steps| - 1]), steps[|steps| - 1]);
    }
  }

  /** After any steps from an empty table, no category is its own ancestor and live ones hang from live ones. */
  lemma CategoriesStayAForest(steps: seq<Step>)
    ensures var rows := Run([], steps);
            && NoCycles(rows) && UniqueNames(rows)
            && forall n, a: nat :: 0 <= n < |rows| && rows[n].live && Above(rows, n, a) ==> a < |rows| && rows[a].live
  {
    assert Ranked([], []);
    assert Forest([]);
    RunKeepsForest([], steps);
    ForestMeans(Run([], steps));
  }

  /** A deleted category can be put back at once, as it was but for its status and version. */
  lemma RestoreUndoesDelete(rows: seq<Category>, id: nat, products: nat)
    requires Forest(rows) && DeleteCategory(rows, id, products).result.Ok?
    ensures RestoreCategory(DeleteCategory(rows, id, products).rows, id) ==
            Changed(rows[id := rows[id].(active := false, version := rows[id].version + 2)], Ok(id))
  {
    var rank :| Ranked(rows, rank);
    var after := DeleteCategory(rows, id, products).rows;
    assert after[id].parent == rows[id].parent;
  }

  // --------------------------------------------------------- two at the same time

  /** The rows after `n` got a new parent. */
  function Moved(rows: seq<Category>, n: nat, parent: nat): seq<Category>
    requires n < |rows|
  {
    rows[n := rows[n].(parent := Some(parent))]
  }

  /** A climb that never leaves from the moved nodes is one in both. */
  lemma ClimbSurvives(rows: seq<Category>, after: seq<Category>, path: seq<nat>)
    requires Climb(rows, path) && |after| == |rows|
    requires forall i :: 0 <= i < |path| - 1 ==> after[path[i]].parent == rows[path[i]].parent
    ensures Climb(after, path)
  {
  }

  /** Climbing from a node that is not below `b`, a move of `b` makes no difference. */
  lemma {:induction false} ClimbAvoids(rows: seq<Category>, b: nat, pb: nat, path: seq<nat>)
    requires Linked(rows) && b < |rows| && Climb(Moved(rows, b, pb), path) && !Above(rows, path[0], b)
    ensures Climb(rows, path)
  {
    AboveStep(rows, path[0], b);
    if |path| > 1 {
      assert Moved(rows, b, pb)[path[0]].parent == Some(path[1]);
      ClimbAvoids(rows, b, pb, path[1..]);
      assert forall i :: 1 <= i < |path| ==> path[i] == path[1..][i - 1];
      forall i | 0 <= i < |path| - 1 ensures rows[path[i]].parent == Some(path[i + 1]) {
        if i > 0 {
          assert rows[path[1..][i - 1]].parent == Some(path[1..][i]);
        }
      }
    }
  }

  /** Two moves, both cleared on the same rows, that leave no cycle when one does not sit below the other. */
  lemma MovesKeepOrder(rows: seq<Category>, rank: seq<nat>, a: nat, pa: nat, b: nat, pb: nat)
    requires Ranked(rows, rank) && a < |rows| && b < |rows| && a != b && pa < |rows| && pb < |rows|
    requires !Above(rows, pa, a) && !Above(rows, pb, b) && !Above(rows, pa, b)
    ensures NoCycles(Moved(Moved(rows, b, pb), a, pa))
  {
    var first := Moved(rows, b, pb);
    var ranks := MoveKeepsRanks(rows, rank, b, first[b]);
    if Above(first, pa, a) {
      var path :| Climb(first, path) && path[0] == pa && path[|path| - 1] == a;
      ClimbAvoids(rows, b, pb, path);
      assert false;
    }
    var last := MoveKeepsRanks(first, ranks, a, Moved(first, a, pa)[a]);
    RankedHasNoCycles(Moved(first, a, pa), last);
  }

  lemma RankedHasNoCycles(rows: seq<Category>, rank: seq<nat>)
    requires Ranked(rows, rank)
    ensures NoCycles(rows)
  {
    forall path | Climb(rows, path) && |path| > 1 ensures path[0] != path[|path| - 1] {
      ClimbDescendsInRank(rows, rank, path);
    }
  }

  lemma NodesAreAbove(rows: seq<Category>, path: seq<nat>, i: nat)
    requires Climb(rows, path) && i < |path|
    ensures Above(rows, path[0], path[i])
  {
    assert Climb(rows, path[..i + 1]);
  }

  /** The way up from a cleared parent to the other moved node is still there after both moves. */
  lemma WayUpSurvives(rows: seq<Category>, after: seq<Category>, start: nat, mine: nat, other: nat)
    returns (path: seq<nat>)
    requires NoCycles(rows) && |after| == |rows| && Above(rows, start, other) && !Above(rows, start, mine)
    requires forall n :: 0 <= n < |rows| && n != mine && n != other ==> after[n] == rows[n]
    ensures Climb(after, path) && path[0] == start && path[|path| - 1] == other
  {
    path :| Climb(rows, path) && path[0] == start && path[|path| - 1] == other;
    forall i | 0 <= i < |path| - 1 ensures path[i] != mine && path[i] != other {
      NodesAreAbove(rows, path, i);
      if path[i] == other {
        assert Climb(rows, path[i..]);
      }
    }
    ClimbSurvives(rows, after, path);
  }

  /**
   Nothing keeps two moves from walking the same rows before either writes. Both cleared, they close a
   cycle iff each would put its category below the other's.
   */
  lemma ConcurrentMovesFormCycleIff(rows: seq<Category>, a: nat, pa: nat, b: nat, pb: nat)
    requires Forest(rows) && a < |rows| && b < |rows| && a != b
    requires Placement(rows, a, Some(pa)).Clear? && Placement(rows, b, Some(pb)).Clear?
    ensures !NoCycles(Moved(Moved(rows, b, pb), a, pa)) <==> Above(rows, pa, b) && Above(rows, pb, a)
  {
    var rank :| Ranked(rows, rank);
    var after := Moved(Moved(rows, b, pb), a, pa);
    if Above(rows, pa, b) && Above(rows, pb, a) {
      RankedHasNoCycles(rows, rank);
      var up := WayUpSurvives(rows, after, pa, a, b);
      var back := WayUpSurvives(rows, after, pb, b, a);
      CircleCloses(after, a, b, up, back);
    } else if Above(rows, pa, b) {
      assert Moved(Moved(rows, a, pa), b, pb) == after;
      MovesKeepOrder(rows, rank, b, pb, a, pa);
    } else {
      MovesKeepOrder(rows, rank, a, pa, b, pb);
    }
  }

  lemma CircleCloses(rows: seq<Category>, a: nat, b: nat, up: seq<nat>, back: seq<nat>)
    requires a < |rows| && b < |rows| && Climb(rows, up) && Climb(rows, back)
    requires rows[a].parent == Some(up[0]) && up[|up| - 1] == b
    requires rows[b].parent == Some(back[0]) && back[|back| - 1] == a
    ensures !NoCycles(rows)
  {
    var circle := [a] + up + back;
    forall i | 0 <= i < |circle| - 1 ensures rows[circle[i]].parent == Some(circle[i + 1]) {
      if 0 < i < |up| {
        assert circle[i] == up[i - 1] && circle[i + 1] == up[i];
      } else if i > |up| {
        assert circle[i] == back[i - |up| - 1] && circle[i + 1] == back[i - |up|];
      }
    }
    assert Climb(rows, circle) && circle[0] == circle[|circle| - 1];
  }

  /** Two top categories, each moved under the other at the same time. */
  lemma TwoMovesFormCycle()
    ensures var rows := [Category("a", None, 0, true, true, 0), Category("b", None, 0, true, true, 0)];
            && Forest(rows)
            && Placement(rows, 0, Some(1)).Clear? && Placement(rows, 1, Some(0)).Clear?
            && !NoCycles(Moved(Moved(rows, 1, 0), 0, 1))
  {
    var rows := [Category("a", None, 0, true, true, 0), Category("b", None, 0, true, true, 0)];
    assert Ranked(rows, [0, 0]);
    AboveStep(rows, 1, 0);
    AboveStep(rows, 0, 1);
    var after := Moved(Moved(rows, 1, 0), 0, 1);
    assert Climb(after, [0, 1, 0]);
  }

  /** A delete and a create cleared on the same rows leave a live category under a deleted one iff they meet. */
  lemma DeleteMeetsCreateIff(rows: seq<Category>, id: nat, products: nat, input: NewCategory)
    requires Forest(rows) && DeleteCategory(rows, id, products).result.Ok? && CreateCategory(rows, input).result.Ok?
    ensures var after := DeleteCategory(rows, id, products).rows + [CreateCategory(rows, input).rows[|rows|]];
            LiveUpwards(after) <==> input.parent != Some(id)
  {
    hide Trim;
    var after := DeleteCategory(rows, id, products).rows + [CreateCategory(rows, input).rows[|rows|]];
    assert after[|rows|].parent == input.parent && after[|rows|].live;
    if input.parent != Some(id) {
      forall n | 0 <= n < |after| && after[n].live && after[n].parent.Some?
        ensures after[n].parent.value < |after| && after[after[n].parent.value].live
      {
        if n < |rows| {
          assert rows[n].live && rows[n].parent == after[n].parent;
        }
      }
    }
  }

  // -------------------------------------------------------------------- the service

  class Catalog {
    var rows: seq<Category>

    constructor ()
      ensures rows == [] && Forest(rows)
    {
      rows := [];
      new;
      assert Ranked(rows, []);
    }

    method Create(input: NewCategory) returns (result: Result<nat>)
      requires Forest(rows)
      modifies this
      ensures Changed(rows, result) == CreateCategory(old(rows), input)
      ensures Forest(rows)
    {
      CreateKeepsForest(rows, input);
      hide Forest; hide Trim;
      if Blank(input.name) || (input.sortOrder.Some? && !ValidSort(input.sortOrder.value)) {
        return Err(Conflict);
      }
      if input.parent.Some? {
        if input.parent.value >= |rows| || !rows[input.parent.value].live {
          return Err(NotFound);
        }
      }
      var sortOrder := if input.sortOrder.Some? then input.sortOrder.value else 0;
      if !FitsColumns(input.name, sortOrder) || NameTaken(rows, |rows|, Trim(input.name)) {
        return Err(Constraint);
      }
      rows := rows + [Category(Trim(input.name), input.parent, sortOrder, true, true, 0)];
      return Ok(|rows| - 1);
    }

    /**
     Walks up from the requested parent. The walk ends, finds `id` exactly when it lies above the
     parent, and can miss no row but the requested parent itself.
     */
    method AssertCategoryParent(id: nat, parentId: Option<nat>) returns (walk: Walk)
      requires Forest(rows) && id < |rows|
      ensures walk == Placement(rows, id, parentId)
    {
      ghost var rank :| Ranked(rows, rank);
      var cursor: Option<nat> := parentId;
      while cursor.Some?
        invariant cursor == parentId || (cursor.Some? ==> LiveRow(rows, cursor.value))
        invariant cursor != parentId ==>
          && parentId.Some? && parentId.value != id && LiveRow(rows, parentId.value)
          && (Above(rows, parentId.value, id) <==> cursor.Some? && Above(rows, cursor.value, id))
        decreases if cursor.Some? && cursor.value < |rows| then rank[cursor.value] + 1
                  else if cursor.Some? then 1 else 0
      {
        if cursor.value == id {
          AboveItself(rows, id);
          return Cycle;
        }
        if cursor.value >= |rows| || !rows[cursor.value].live {
          return Missing;
        }
        AboveStep(rows, cursor.value, id);
        cursor := rows[cursor.value].parent;
      }
      return Clear;
    }

    method Update(id: nat, input: Edit) returns (result: Result<nat>)
      requires Forest(rows)
      modifies this
      ensures Changed(rows, result) == UpdateCategory(old(rows), id, input)
      ensures Forest(rows)
    {
      UpdateKeepsForest(rows, id, input);
      hide Forest; hide Trim; hide Placement;
      if Blank(input.name) || !ValidSort(input.sortOrder) {
        return Err(Conflict);
      }
      if id >= |rows| {
        return Err(NotFound);
      }
      var walk := AssertCategoryParent(id, if input.parent.Move? then input.parent.parent else None);
      if !walk.Clear? {
        return Err(NotFound);
      }
      if !rows[id].live || rows[id].version != input.version {
        return Err(Conflict);
      }
      if !FitsColumns(input.name, input.sortOrder) || NameTaken(rows, id, Trim(input.name)) {
        return Err(Constraint);
      }
      var parent := if input.parent.Move? then input.parent.parent else rows[id].parent;
      rows := rows[id := rows[id].(
        name := Trim(input.name), parent := parent, sortOrder := input.sortOrder,
        active := input.active, version := rows[id].version + 1)];
      return Ok(id);
    }

    method Delete(id: nat, products: nat) returns (result: Result<nat>)
      requires Forest(rows)
      modifies this
      ensures Changed(rows, result) == DeleteCategory(old(rows), id, products)
      ensures Forest(rows)
    {
      DeleteKeepsForest(rows, id, products);
      hide Forest;
      if id >= |rows| || !rows[id].live {
        return Err(NotFound);
      }
      if products > 0 || HasLiveChild(rows, id) {
        return Err(Conflict);
      }
      rows := rows[id := rows[id].(live := false, active := false, version := rows[id].version + 1)];
      return Ok(id);
    }

    method Restore(id: nat) returns (result: Result<nat>)
      requires Forest(rows)
      modifies this
      ensures Changed(rows, result) == RestoreCategory(old(rows), id)
      ensures Forest(rows)
    {
      RestoreKeepsForest(rows, id);
      hide Forest;
      if id >= |rows| || rows[id].live {
        return Err(NotFound);
      }
      if rows[id].parent.Some? {
        var parent := rows[id].parent.value;
        if parent >= |rows| || !rows[parent].live {
          return Err(Conflict);
        }
      }
      rows := rows[id := rows[id].(live := true, active := false, version := rows[id].version + 1)];
      return Ok(id);
    }
  }
}
