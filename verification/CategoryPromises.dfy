/** What editing the category tree promises, in terms of its rows alone, and how versions guard edits. */
module CategoryPromises {
  import opened Wrappers
  import opened Categories
  import Text

  // ------------------------------------------------------------------ each operation

  /** The name is not blank, fits its column, and no other row has it, deleted rows included. */
  ghost predicate NameFits(rows: seq<Category>, id: nat, name: string) {
    && Text.Trim(name) != "" && |Text.Trim(name)| <= 100
    && forall n :: 0 <= n < |rows| && n != id ==> rows[n].name != Text.Trim(name)
  }

  /** A category is created iff its name fits, its sort order too, and its parent is live or absent. */
  lemma CreatePromise(rows: seq<Category>, input: NewCategory)
    ensures CreateCategory(rows, input).result.Ok? <==>
              && NameFits(rows, |rows|, input.name)
              && (input.sortOrder.Some? ==> 0 <= input.sortOrder.value <= 0x7FFF_FFFF)
              && (input.parent.Some? ==> input.parent.value < |rows| && rows[input.parent.value].live)
    ensures CreateCategory(rows, input).result.Ok? ==>
              var after := CreateCategory(rows, input).rows;
              && |after| == |rows| + 1 && after[..|rows|] == rows
              && after[|rows|].name == Text.Trim(input.name) && after[|rows|].parent == input.parent
              && after[|rows|].sortOrder == (if input.sortOrder.Some? then input.sortOrder.value else 0)
              && after[|rows|].active && after[|rows|].live && after[|rows|].version == 0
  {
    hide Text.Trim;
  }

  /** The row is live, unchanged since it was read, and would not come to lie below itself. */
  ghost predicate Editable(rows: seq<Category>, id: nat, input: Edit) {
    && id < |rows| && rows[id].live && rows[id].version == input.version
    && NameFits(rows, id, input.name) && 0 <= input.sortOrder <= 0x7FFF_FFFF
    && (input.parent.Move? && input.parent.parent.Some? ==>
          var parent := input.parent.parent.value;
          parent < |rows| && rows[parent].live && !Above(rows, parent, id))
  }

  /** The row an edit leaves: every field as sent, the parent only where one was sent, the version one up. */
  predicate EditedAs(was: Category, now: Category, input: Edit) {
    && now.name == Text.Trim(input.name) && now.sortOrder == input.sortOrder && now.active == input.active
    && now.parent == (match input.parent case Keep => was.parent case Move(parent) => parent)
    && now.live && now.version == was.version + 1
  }

  lemma UpdatePromise(rows: seq<Category>, id: nat, input: Edit)
    ensures UpdateCategory(rows, id, input).result.Ok? <==> Editable(rows, id, input)
    ensures UpdateCategory(rows, id, input).result.Ok? ==>
              var after := UpdateCategory(rows, id, input).rows;
              && |after| == |rows| && EditedAs(rows[id], after[id], input)
              && forall n :: 0 <= n < |rows| && n != id ==> after[n] == rows[n]
  {
    hide Text.Trim; hide Above;
    if id < |rows| {
      AboveItself(rows, id);
    }
  }

  /** A category is deleted iff it is live and has neither products nor live children. */
  lemma DeletePromise(rows: seq<Category>, id: nat, products: nat)
    ensures DeleteCategory(rows, id, products).result.Ok? <==>
              && id < |rows| && rows[id].live && products == 0
              && forall n :: 0 <= n < |rows| && rows[n].parent == Some(id) ==> !rows[n].live
    ensures DeleteCategory(rows, id, products).result.Ok? ==>
              DeleteCategory(rows, id, products).rows ==
              rows[id := rows[id].(live := false, active := false, version := rows[id].version + 1)]
  {
  }

  /** A deleted category is restored, inactive, iff its parent is live or absent. */
  lemma RestorePromise(rows: seq<Category>, id: nat)
    ensures RestoreCategory(rows, id).result.Ok? <==>
              && id < |rows| && !rows[id].live
              && forall parent :: rows[id].parent == Some(parent) ==> parent < |rows| && rows[parent].live
    ensures RestoreCategory(rows, id).result.Ok? ==>
              RestoreCategory(rows, id).rows ==
              rows[id := rows[id].(live := true, active := false, version := rows[id].version + 1)]
  {
    if id < |rows| && rows[id].parent.Some? {
      assert rows[id].parent == Some(rows[id].parent.value);
    }
  }

  /** Which error a refused edit gets: bad input, something missing, a row changed meanwhile, or a constraint. */
  lemma UpdateErrors(rows: seq<Category>, id: nat, input: Edit)
    requires UpdateCategory(rows, id, input).result.Err?
    ensures UpdateCategory(rows, id, input).rows == rows
    ensures UpdateCategory(rows, id, input).result.error ==
            if Text.Trim(input.name) == "" || !(0 <= input.sortOrder <= 0x1F_FFFF_FFFF_FFFF) then Conflict
            else if id >= |rows| then NotFound
            else if exists parent: nat :: input.parent == Move(Some(parent)) &&
                      (parent >= |rows| || !rows[parent].live || Above(rows, parent, id)) then NotFound
            else if !rows[id].live || rows[id].version != input.version then Conflict
            else Constraint
  {
    hide Text.Trim; hide Above; hide NameTaken;
    if id < |rows| {
      AboveItself(rows, id);
    }
    if input.parent.Move? && input.parent.parent.Some? {
      assert input.parent == Move(Some(input.parent.parent.value));
    }
  }

  /** Which error the other refused operations get; none of them changes a row. */
  lemma OtherErrors(rows: seq<Category>, input: NewCategory, id: nat, products: nat)
    ensures CreateCategory(rows, input).result.Err? ==>
              && CreateCategory(rows, input).rows == rows
              && CreateCategory(rows, input).result.error ==
                 if Text.Trim(input.name) == ""
                    || (input.sortOrder.Some? && !(0 <= input.sortOrder.value <= 0x1F_FFFF_FFFF_FFFF)) then Conflict
                 else if exists parent: nat :: input.parent == Some(parent) && (parent >= |rows| || !rows[parent].live)
                 then NotFound
                 else Constraint
    ensures DeleteCategory(rows, id, products).result.Err? ==>
              DeleteCategory(rows, id, products) ==
              Changed(rows, Err(if id < |rows| && rows[id].live then Conflict else NotFound))
    ensures RestoreCategory(rows, id).result.Err? ==>
              RestoreCategory(rows, id) ==
              Changed(rows, Err(if id < |rows| && !rows[id].live then Conflict else NotFound))
  {
    hide Text.Trim; hide NameTaken;
    if input.parent.Some? {
      assert input.parent == Some(input.parent.value);
    }
  }

  // ------------------------------------------------------------------- versions

  /** The step is aimed at this category. */
  predicate Aims(step: Step, id: nat) {
    match step
    case Create(_) => false
    case Update(n, _) => n == id
    case Delete(n, _) => n == id
    case Restore(n) => n == id
  }

  /** How many steps of a run aimed at the category were accepted. */
  ghost function Accepted(rows: seq<Category>, steps: seq<Step>, id: nat): nat {
    if |steps| == 0 then 0
    else
      var before, last := steps[..|steps| - 1], steps[|steps| - 1];
      Accepted(rows, before, id) + if Aims(last, id) && Apply(Run(rows, before), last).result.Ok? then 1 else 0
  }

  lemma StepRaisesVersion(rows: seq<Category>, step: Step, id: nat)
    requires id < |rows|
    ensures var after := Apply(rows, step);
            && id < |after.rows|
            && after.rows[id].version ==
               rows[id].version + (if Aims(step, id) && after.result.Ok? then 1 else 0)
            && (!(Aims(step, id) && after.result.Ok?) ==> after.rows[id] == rows[id])
  {
    hide Text.Trim; hide Above; hide Placement; hide HasLiveChild; hide NameTaken;
  }

  /** A row's version counts the accepted changes of it. */
  lemma {:induction false} VersionCountsChanges(rows: seq<Category>, steps: seq<Step>, id: nat)
    requires id < |rows|
    ensures id < |Run(rows, steps)|
    ensures Run(rows, steps)[id].version == rows[id].version + Accepted(rows, steps, id)
    ensures Accepted(rows, steps, id) == 0 ==> Run(rows, steps)[id] == rows[id]
  {
    hide Apply; hide Aims;
    if |steps| > 0 {
      VersionCountsChanges(rows, steps[..|steps| - 1], id);
      StepRaisesVersion(Run(rows, steps[..|steps| - 1]), steps[|steps| - 1], id);
    }
  }

  /**
   No edit is lost: an edit read at some version is refused, whatever happened in between, as soon as
   any other change of the row was accepted, and it changes nothing.
   */
  lemma StaleEditIsRefused(rows: seq<Category>, steps: seq<Step>, id: nat, edit: Edit)
    requires id < |rows| && edit.version == rows[id].version && Accepted(rows, steps, id) > 0
    ensures UpdateCategory(Run(rows, steps), id, edit).result.Err?
    ensures UpdateCategory(Run(rows, steps), id, edit).rows == Run(rows, steps)
  {
    hide Text.Trim; hide Above; hide Run; hide Accepted; hide Placement; hide NameTaken;
    VersionCountsChanges(rows, steps, id);
  }

  /** Of two edits read at the same version at most one is accepted, in whatever order they arrive. */
  lemma OneOfTwoEditsWins(rows: seq<Category>, between: seq<Step>, id: nat, first: Edit, second: Edit)
    requires first.version == second.version && UpdateCategory(rows, id, first).result.Ok?
    ensures var later := Run(UpdateCategory(rows, id, first).rows, between);
            UpdateCategory(later, id, second) == Changed(later, UpdateCategory(later, id, second).result)
            && UpdateCategory(later, id, second).result.Err?
  {
    hide Text.Trim; hide Above; hide Run; hide Placement; hide NameTaken;
    UpdatePromise(rows, id, first);
    VersionCountsChanges(UpdateCategory(rows, id, first).rows, between, id);
  }
}
