/**
 * The routine editor (screens/RoutineDetailScreen.js): the routine's list of
 * entries, catalog moves, custom moves and whole steps, and the move the
 * user chose to replace. Ids and timestamps are parameters; storage reads
 * are parameters and storage writes are not modelled.
 */
module RoutineDetail {
  import opened Options
  import opened Values
  import opened Seqs
  import opened MoveLists
  import opened MoveLookup

  /** `{id, addedAt, notes: "", ...moveData}`: the fields of `moveData` win over the defaults. */
  function NewEntry(moveData: Object, id: string, addedAt: string): (r: Object)
    ensures forall k :: k in moveData ==> Get(r, k) == moveData[k]
    ensures "notes" !in moveData ==> Get(r, "notes") == Str("")
    ensures "id" !in moveData ==> Get(r, "id") == Str(id)
    ensures "addedAt" !in moveData ==> Get(r, "addedAt") == Str(addedAt)
  {
    map["id" := Str(id), "addedAt" := Str(addedAt), "notes" := Str("")] + moveData
  }

  /** A step the routine can take as one entry: it has moves, and summing their counts does not throw. */
  predicate AddableStep(step: Value) {
    var moves := Prop(step, "moves");
    Truthy(step) && moves.Arr? && moves.items != [] && NoNullish(moves.items)
  }

  /** The entry `handleAddStep` appends for a step. */
  function StepEntry(step: Value, id: string, addedAt: string): (r: Object)
    requires AddableStep(step)
    ensures Get(r, "isStep") == Bool(true) && Get(r, "stepId") == Prop(step, "id")
    ensures Get(r, "moves") == Prop(step, "moves")
    ensures Get(r, "counts") == SumCounts(Prop(step, "moves").items)
    ensures Get(r, "id") == Str(id) && Get(r, "name") == Prop(step, "name")
  {
    map[
      "id" := Str(id),
      "name" := Prop(step, "name"),
      "isStep" := Bool(true),
      "stepId" := Prop(step, "id"),
      "moves" := Prop(step, "moves"),
      "addedAt" := Str(addedAt),
      "counts" := SumCounts(Prop(step, "moves").items)]
  }

  /**
   * The counts a save writes: the edited counts, plus the ending move's
   * counts (or 0) when an ending is chosen. Endings are switched off in the
   * source (`hasEndings` is always false), so the base is always the edited counts.
   */
  function FinalCounts(form: MoveForm, ending: Value, styleMoves: seq<Value>): (r: Value)
    ensures !Truthy(ending) ==> r == form.counts
    ensures Truthy(ending) && form.counts.Num? && CatalogMove(styleMoves, ending).Some?
      && Prop(CatalogMove(styleMoves, ending).value, "counts").Num?
      ==> r == Num(form.counts.n + Prop(CatalogMove(styleMoves, ending).value, "counts").n)
    ensures Truthy(ending) && form.counts.Num?
      && (CatalogMove(styleMoves, ending).None? || !Truthy(Prop(CatalogMove(styleMoves, ending).value, "counts")))
      ==> r == form.counts
  {
    if Truthy(ending) then
      var endingCounts := match CatalogMove(styleMoves, ending) case None => Undefined case Some(m) => Prop(m, "counts");
      Plus(form.counts, Or(endingCounts, Num(0)))
    else form.counts
  }

  /** The fields `handleSaveNotes` writes into the selected entry. */
  function SaveEdits(form: MoveForm, ending: Value, styleMoves: seq<Value>): (r: Object)
    ensures r.Keys == FORM_KEYS + {"endingMove", "hasEnding"}
    ensures CarriesForm(r, form)
    ensures Get(r, "counts") == FinalCounts(form, ending, styleMoves)
    ensures Get(r, "timing") == Str(ToStr(FinalCounts(form, ending, styleMoves)) + " counts")
    ensures Get(r, "endingMove") == ending && Get(r, "hasEnding") == Bool(Truthy(ending))
  {
    var counts := FinalCounts(form, ending, styleMoves);
    FormEdits(form, counts)["endingMove" := ending]["hasEnding" := Bool(Truthy(ending))]
  }

  class RoutineEditor {
    /** The routine's entries, in order. */
    var moves: seq<Object>
    /** The id of the entry the next submitted move replaces; `null` when adding. */
    var replacingMoveId: Value

    constructor ()
      ensures moves == [] && replacingMoveId == Null
    {
      moves := [];
      replacingMoveId := Null;
    }

    /**
     * `loadMoves`: the stored entries, if any, with every step entry
     * refreshed from its step's stored moves.
     */
    method LoadMoves(stored: Option<seq<Object>>, stepStore: map<string, Value>)
      modifies this
      ensures stored.Some? ==> moves == Refreshed(stored.value, stepStore)
      ensures stored.None? ==> moves == old(moves)
      ensures replacingMoveId == old(replacingMoveId)
    {
      if stored.Some? {
        moves := Refreshed(stored.value, stepStore);
      }
    }

    /** `handleReplaceMove`: remember which entry the next submitted move replaces. */
    method HandleReplaceMove(moveToReplace: Object)
      modifies this
      ensures replacingMoveId == Get(moveToReplace, "id") && moves == old(moves)
    {
      replacingMoveId := Get(moveToReplace, "id");
    }

    /**
     * `handleMoveSubmit`: with an entry to replace, every entry with that id
     * becomes the new entry and the replacement is done; otherwise the new
     * entry is appended.
     */
    method HandleMoveSubmit(moveData: Object, id: string, addedAt: string)
      modifies this
      ensures Truthy(old(replacingMoveId)) ==>
        moves == ReplaceById(old(moves), old(replacingMoveId), NewEntry(moveData, id, addedAt)) && replacingMoveId == Null
      ensures !Truthy(old(replacingMoveId)) ==>
        moves == old(moves) + [NewEntry(moveData, id, addedAt)] && replacingMoveId == old(replacingMoveId)
    {
      var newMove := NewEntry(moveData, id, addedAt);
      if Truthy(replacingMoveId) {
        moves := ReplaceById(moves, replacingMoveId, newMove);
        replacingMoveId := Null;
      } else {
        moves := moves + [newMove];
      }
    }

    /** `handleAddStep`: a step with moves is appended as one entry; anything else changes nothing. */
    method HandleAddStep(step: Value, id: string, addedAt: string) returns (added: bool)
      modifies this
      ensures added == AddableStep(step)
      ensures added ==> moves == old(moves) + [StepEntry(step, id, addedAt)]
      ensures !added ==> moves == old(moves)
      ensures replacingMoveId == old(replacingMoveId)
    {
      added := AddableStep(step);
      if added {
        moves := moves + [StepEntry(step, id, addedAt)];
      }
    }

    /** `handleDeleteMove` once the user confirms: every entry with the move's id goes. */
    method HandleDeleteMove(move: Object, confirmed: bool)
      modifies this
      ensures confirmed ==> moves == DeleteById(old(moves), Get(move, "id"))
      ensures !confirmed ==> moves == old(moves)
      ensures replacingMoveId == old(replacingMoveId)
    {
      if confirmed {
        moves := DeleteById(moves, Get(move, "id"));
      }
    }

    /** `handleSaveNotes`: the form's fields go into the entries with the selected entry's id. */
    method HandleSaveNotes(selected: Object, form: MoveForm, ending: Value, styleMoves: seq<Value>)
      modifies this
      ensures moves == UpdateById(old(moves), Get(selected, "id"), SaveEdits(form, ending, styleMoves))
      ensures replacingMoveId == old(replacingMoveId)
    {
      moves := UpdateById(moves, Get(selected, "id"), SaveEdits(form, ending, styleMoves));
    }

    /** `handleDuplicateMove`: the copy goes right after the selected entry; nothing happens without one. */
    method HandleDuplicateMove(selected: Option<Object>, form: MoveForm, id: string, addedAt: string)
      modifies this
      ensures selected.None? ==> moves == old(moves)
      ensures selected.Some? ==>
        moves == DuplicateAfter(old(moves), Get(selected.value, "id"), DuplicateOf(selected.value, form, id, addedAt))
      ensures replacingMoveId == old(replacingMoveId)
    {
      if selected.Some? {
        moves := DuplicateAfter(moves, Get(selected.value, "id"), DuplicateOf(selected.value, form, id, addedAt));
      }
    }
  }

  /** A step entry's counts are the total of its moves' counts when those are all numbers or missing. */
  lemma StepEntryCounts(step: Value, id: string, addedAt: string)
    requires AddableStep(step)
    requires forall m :: m in Prop(step, "moves").items ==> NumericCounts(m)
    ensures Get(StepEntry(step, id, addedAt), "counts") == Num(Total(Prop(step, "moves").items))
  {
    SumCountsTotal(Prop(step, "moves").items);
  }

  /** Without an ending, a save writes the edited counts and the matching timing text. */
  lemma SaveWithoutEnding(moves: seq<Object>, id: Value, form: MoveForm, styleMoves: seq<Value>)
    ensures var r := UpdateById(moves, id, SaveEdits(form, Null, styleMoves));
      forall i :: 0 <= i < |moves| && HasId(moves[i], id) ==>
        Get(r[i], "counts") == form.counts && Get(r[i], "timing") == Str(ToStr(form.counts) + " counts")
  {
  }
}
