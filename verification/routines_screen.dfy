/**
 * The routines list (screens/RoutinesScreen.js): the user's routines, each
 * for one dance style, with create, update and delete. Ids and timestamps
 * are parameters; storage writes are not modelled.
 */
module RoutinesScreen {
  import opened Options
  import opened Text
  import opened Values
  import opened Seqs
  import opened MoveLists

  /** The form is rejected when the trimmed name is empty or no style is chosen. */
  predicate Rejected(routineName: string, danceStyle: string) {
    IsBlank(routineName) || danceStyle == ""
  }

  /** The routine `handleCreateRoutine` appends, given the trimmed name and description. */
  function NewRoutine(name: string, description: string, danceStyle: string, id: string, createdAt: string): (r: Object)
    ensures Get(r, "id") == Str(id) && Get(r, "name") == Str(name)
    ensures Get(r, "description") == Str(description) && Get(r, "danceStyle") == Str(danceStyle)
  {
    map[
      "id" := Str(id),
      "name" := Str(name),
      "description" := Str(description),
      "danceStyle" := Str(danceStyle),
      "createdAt" := Str(createdAt)]
  }

  /** The fields `handleUpdateRoutine` writes into the routine being edited, given the trimmed name and description. */
  function RoutineEdits(name: string, description: string, danceStyle: string, updatedAt: string): (r: Object)
    ensures "id" !in r && Get(r, "updatedAt") == Str(updatedAt)
    ensures Get(r, "name") == Str(name) && Get(r, "description") == Str(description)
    ensures Get(r, "danceStyle") == Str(danceStyle)
  {
    var r := map[
      "name" := Str(name),
      "description" := Str(description),
      "danceStyle" := Str(danceStyle),
      "updatedAt" := Str(updatedAt)];
    assert r.Keys == {"name", "description", "danceStyle", "updatedAt"};
    r
  }

  class RoutinesList {
    /** The saved routines, in order. */
    var routines: seq<Object>

    constructor ()
      ensures routines == []
    {
      routines := [];
    }

    /** `handleCreateRoutine`: a valid form appends one routine. */
    method HandleCreateRoutine(routineName: string, description: string, danceStyle: string, id: string, createdAt: string)
      returns (created: bool)
      modifies this
      ensures created <==> !Rejected(routineName, danceStyle)
      ensures created ==> routines == old(routines) + [NewRoutine(Trim(routineName), Trim(description), danceStyle, id, createdAt)]
      ensures !created ==> routines == old(routines)
    {
      if Rejected(routineName, danceStyle) {
        return false;
      }
      routines := routines + [NewRoutine(Trim(routineName), Trim(description), danceStyle, id, createdAt)];
      created := true;
    }

    /** `handleUpdateRoutine`: a valid form rewrites the routines with the edited routine's id. */
    method HandleUpdateRoutine(editingRoutine: Object, routineName: string, description: string, danceStyle: string, updatedAt: string)
      returns (updated: bool)
      modifies this
      ensures updated <==> !Rejected(routineName, danceStyle)
      ensures updated ==>
        routines == UpdateById(old(routines), Get(editingRoutine, "id"), RoutineEdits(Trim(routineName), Trim(description), danceStyle, updatedAt))
      ensures !updated ==> routines == old(routines)
    {
      if Rejected(routineName, danceStyle) {
        return false;
      }
      routines := UpdateById(routines, Get(editingRoutine, "id"), RoutineEdits(Trim(routineName), Trim(description), danceStyle, updatedAt));
      updated := true;
    }

    /** `handleDeleteRoutine` once the user confirms. */
    method HandleDeleteRoutine(routine: Object, confirmed: bool)
      modifies this
      ensures confirmed ==> routines == DeleteById(old(routines), Get(routine, "id"))
      ensures !confirmed ==> routines == old(routines)
    {
      if confirmed {
        routines := DeleteById(routines, Get(routine, "id"));
      }
    }
  }
}
