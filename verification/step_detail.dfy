/**
 * The step editor (screens/StepDetailScreen.js): a step's list of moves and
 * the handlers that add, save, duplicate and delete them. Ids and
 * timestamps are parameters; storage writes are not modelled.
 */
module StepDetail {
  import opened Options
  import opened Text
  import opened Values
  import opened Seqs
  import opened MoveLists
  import opened MoveLookup
  import opened Sections

  /** The step editor's `hasVariableTiming`: the catalog move has a truthy `repeatableSection`. */
  predicate HasRepeatableSection(styleMoves: seq<Value>, name: Value) {
    var found := CatalogMove(styleMoves, name);
    found.Some? && Truthy(found.value) && IsObjectLike(found.value) && Truthy(Prop(found.value, "repeatableSection"))
  }

  /** `selectedTimingMultiple || getDefaultCounts(selectedMove)`. */
  function AddedCounts(selectedMove: string, timing: Value, styleMoves: seq<Value>): (r: Value)
    ensures Truthy(timing) ==> r == timing
    ensures !Truthy(timing) ==> r == DefaultCounts(styleMoves, Str(selectedMove))
  {
    Or(timing, DefaultCounts(styleMoves, Str(selectedMove)))
  }

  /** The entry `handleAddMove` appends. */
  function AddedEntry(selectedMove: string, timing: Value, styleMoves: seq<Value>, id: string, addedAt: string): (r: Object)
    ensures Get(r, "name") == Str(selectedMove) && Get(r, "notes") == Str("") && Get(r, "id") == Str(id)
    ensures Get(r, "counts") == AddedCounts(selectedMove, timing, styleMoves)
    ensures Get(r, "timing") == Str(ToStr(AddedCounts(selectedMove, timing, styleMoves)) + " counts")
  {
    var counts := AddedCounts(selectedMove, timing, styleMoves);
    map[
      "id" := Str(id),
      "name" := Str(selectedMove),
      "addedAt" := Str(addedAt),
      "notes" := Str(""),
      "counts" := counts,
      "timing" := Str(ToStr(counts) + " counts")]
  }

  /** `step.danceStyles || [step.danceStyle]`: older steps carry a single style. */
  function StepDanceStyles(step: Value): (r: Value)
    ensures Truthy(Prop(step, "danceStyles")) ==> r == Prop(step, "danceStyles")
    ensures !Truthy(Prop(step, "danceStyles")) ==> r == Arr([Prop(step, "danceStyle")])
  {
    Or(Prop(step, "danceStyles"), Arr([Prop(step, "danceStyle")]))
  }

  /** The step picker's search test: the lower-cased name of an object, or the string itself, contains `query`. */
  predicate NameContains(move: Value, query: string) {
    var name := if IsObjectLike(move) then Prop(move, "name") else move;
    name.Str? && Includes(ToLower(name.s), query)
  }

  /**
   * `filteredMovesSections`: unchanged for a blank query; otherwise the
   * moves whose name contains the lower-cased query, which is not trimmed,
   * in the sections that keep at least one move.
   */
  function FilteredMovesSections(sections: seq<Section>, query: string): (r: seq<Section>)
    ensures IsBlank(query) ==> r == sections
    ensures !IsBlank(query) ==>
      forall s :: s in r ==> s.data != [] && forall m :: m in s.data ==> NameContains(m, ToLower(query))
  {
    if IsBlank(query) then sections
    else FilterSections(sections, (m: Value) => NameContains(m, ToLower(query)))
  }

  class StepEditor {
    /** The step's moves, in order. */
    var moves: seq<Object>

    constructor ()
      ensures moves == []
    {
      moves := [];
    }

    /**
     * `handleAddMove`: nothing without a selected move, or for a move with a
     * repeatable section before a timing is chosen; otherwise one entry is
     * appended.
     */
    method HandleAddMove(selectedMove: string, timing: Value, styleMoves: seq<Value>, id: string, addedAt: string)
      returns (added: bool)
      modifies this
      ensures added <==> selectedMove != "" && !(HasRepeatableSection(styleMoves, Str(selectedMove)) && !Truthy(timing))
      ensures added ==> moves == old(moves) + [AddedEntry(selectedMove, timing, styleMoves, id, addedAt)]
      ensures !added ==> moves == old(moves)
    {
      if selectedMove == "" {
        return false;
      }
      if HasRepeatableSection(styleMoves, Str(selectedMove)) && !Truthy(timing) {
        return false;
      }
      moves := moves + [AddedEntry(selectedMove, timing, styleMoves, id, addedAt)];
      added := true;
    }

    /** `handleDeleteMove` once the user confirms. */
    method HandleDeleteMove(move: Object, confirmed: bool)
      modifies this
      ensures confirmed ==> moves == DeleteById(old(moves), Get(move, "id"))
      ensures !confirmed ==> moves == old(moves)
    {
      if confirmed {
        moves := DeleteById(moves, Get(move, "id"));
      }
    }

    /** `handleSaveNotes`: the form's fields, with the edited counts, go into the selected entry. */
    method HandleSaveNotes(selected: Object, form: MoveForm)
      modifies this
      ensures moves == UpdateById(old(moves), Get(selected, "id"), FormEdits(form, form.counts))
    {
      moves := UpdateById(moves, Get(selected, "id"), FormEdits(form, form.counts));
    }

    /** `handleDuplicateMove`. */
    method HandleDuplicateMove(selected: Option<Object>, form: MoveForm, id: string, addedAt: string)
      modifies this
      ensures selected.None? ==> moves == old(moves)
      ensures selected.Some? ==>
        moves == DuplicateAfter(old(moves), Get(selected.value, "id"), DuplicateOf(selected.value, form, id, addedAt))
    {
      if selected.Some? {
        moves := DuplicateAfter(moves, Get(selected.value, "id"), DuplicateOf(selected.value, form, id, addedAt));
      }
    }
  }

  /**
   * A move with a repeatable section is only added once a timing is chosen,
   * and its entry then carries that timing's counts.
   */
  lemma TimedMoveCarriesTiming(selectedMove: string, timing: Value, styleMoves: seq<Value>, id: string, addedAt: string)
    requires HasRepeatableSection(styleMoves, Str(selectedMove)) && Truthy(timing)
    ensures Get(AddedEntry(selectedMove, timing, styleMoves, id, addedAt), "counts") == timing
  {
  }

  /** A move missing from the style's catalog, added without a timing, gets 8 counts. */
  lemma UnknownMoveGetsEight(selectedMove: string, styleMoves: seq<Value>, id: string, addedAt: string)
    requires forall j :: 0 <= j < |styleMoves| ==> !NamesMove(styleMoves[j], Str(selectedMove))
    ensures Get(AddedEntry(selectedMove, Null, styleMoves, id, addedAt), "counts") == Num(8)
    ensures Get(AddedEntry(selectedMove, Null, styleMoves, id, addedAt), "timing") == Str("8 counts")
  {
    assert NumberText(8) == "8";
  }
}
