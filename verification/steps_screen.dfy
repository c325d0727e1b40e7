/**
 * The steps list (screens/StepsScreen.js): the user's saved steps, named
 * sequences of moves for one or more dance styles, with create, update and
 * delete, the search and style filter, and the style picker of the form.
 * Ids and timestamps are parameters; storage writes are not modelled.
 */
module StepsScreen {
  import opened Options
  import opened Text
  import opened Values
  import opened Seqs
  import opened MoveLists

  /** The form is rejected when the trimmed name is empty or no style is chosen. */
  predicate Rejected(stepName: string, styles: seq<string>) {
    IsBlank(stepName) || styles == []
  }

  function StyleValues(styles: seq<string>): (r: seq<Value>)
    ensures |r| == |styles| && forall i :: 0 <= i < |styles| ==> r[i] == Str(styles[i])
  {
    Map(styles, (s: string) => Str(s))
  }

  /** The step `handleCreateStep` appends, given the trimmed name; its single `danceStyle` is the first style chosen. */
  function NewStep(name: string, styles: seq<string>, videoUri: Value, id: string, createdAt: string): (r: Object)
    requires styles != []
    ensures Get(r, "id") == Str(id) && Get(r, "name") == Str(name)
    ensures Get(r, "danceStyles") == Arr(StyleValues(styles)) && Get(r, "danceStyle") == Str(styles[0])
    ensures Get(r, "videoUri") == Or(videoUri, Null)
  {
    var r := map[
      "id" := Str(id),
      "name" := Str(name),
      "danceStyles" := Arr(StyleValues(styles)),
      "danceStyle" := Str(styles[0]),
      "createdAt" := Str(createdAt),
      "videoUri" := Or(videoUri, Null)];
    assert r.Keys == {"id", "name", "danceStyles", "danceStyle", "createdAt", "videoUri"};
    r
  }

  /** The fields `handleUpdateStep` writes into the step being edited, given the trimmed name. */
  function StepEdits(name: string, styles: seq<string>, videoUri: Value, updatedAt: string): (r: Object)
    requires styles != []
    ensures "id" !in r
    ensures Get(r, "name") == Str(name) && Get(r, "danceStyle") == Str(styles[0])
    ensures Get(r, "danceStyles") == Arr(StyleValues(styles)) && Get(r, "updatedAt") == Str(updatedAt)
    ensures Get(r, "videoUri") == Or(videoUri, Null)
  {
    var r := map[
      "name" := Str(name),
      "danceStyles" := Arr(StyleValues(styles)),
      "danceStyle" := Str(styles[0]),
      "videoUri" := Or(videoUri, Null),
      "updatedAt" := Str(updatedAt)];
    assert r.Keys == {"name", "danceStyles", "danceStyle", "videoUri", "updatedAt"};
    r
  }

  /** After an update, the edited steps again have `danceStyle` equal to the first of their `danceStyles`. */
  lemma UpdatedStepKeepsFirstStyle(steps: seq<Object>, id: Value, name: string, styles: seq<string>, videoUri: Value, updatedAt: string)
    requires styles != []
    ensures var r := UpdateById(steps, id, StepEdits(name, styles, videoUri, updatedAt));
      forall i :: 0 <= i < |steps| && HasId(steps[i], id) ==>
        Get(r[i], "danceStyles").Arr? && Get(r[i], "danceStyles").items != []
        && Get(r[i], "danceStyle") == Get(r[i], "danceStyles").items[0]
        && Get(r[i], "name") == Str(name)
  {
  }

  /** `(step.danceStyles || [step.danceStyle]).includes(style)`; a string list matches by substring. */
  predicate StylesInclude(step: Object, style: string) {
    var styles := Or(Get(step, "danceStyles"), Arr([Get(step, "danceStyle")]));
    (styles.Arr? && Str(style) in styles.items) || (styles.Str? && Includes(styles.s, style))
  }

  /** `(step.name || "").toLowerCase().includes(query)`. */
  predicate StepNameContains(step: Object, query: string) {
    var name := Or(Get(step, "name"), Str(""));
    name.Str? && Includes(ToLower(name.s), query)
  }

  /** The condition a step must meet to stay in `filteredSteps`. */
  predicate Shown(step: Object, searchQuery: string, filterDanceStyle: string) {
    && (Trim(searchQuery) == "" || StepNameContains(step, ToLower(Trim(searchQuery))))
    && (filterDanceStyle == "all" || StylesInclude(step, filterDanceStyle))
  }

  /** `filteredSteps`: the search filter on the trimmed query, then the style filter unless it is `"all"`. */
  function FilteredSteps(steps: seq<Object>, searchQuery: string, filterDanceStyle: string): seq<Object> {
    var query := Trim(searchQuery);
    var byName := if |query| > 0 then Filter(steps, (s: Object) => StepNameContains(s, ToLower(query))) else steps;
    if filterDanceStyle != "all" then Filter(byName, (s: Object) => StylesInclude(s, filterDanceStyle)) else byName
  }

  /** The filtered steps are, in their order, exactly the steps that pass both filters. */
  lemma FilteredStepsExactly(steps: seq<Object>, searchQuery: string, filterDanceStyle: string)
    ensures FilteredSteps(steps, searchQuery, filterDanceStyle) == Filter(steps, (s: Object) => Shown(s, searchQuery, filterDanceStyle))
    ensures IsSubsequence(FilteredSteps(steps, searchQuery, filterDanceStyle), steps)
    ensures forall s :: s in FilteredSteps(steps, searchQuery, filterDanceStyle) <==> s in steps && Shown(s, searchQuery, filterDanceStyle)
  {
    var query := Trim(searchQuery);
    var shown := (s: Object) => Shown(s, searchQuery, filterDanceStyle);
    var byStyle := (s: Object) => StylesInclude(s, filterDanceStyle);
    if |query| > 0 {
      var byName := (s: Object) => StepNameContains(s, ToLower(query));
      if filterDanceStyle != "all" {
        FilterTwice(steps, byName, byStyle, shown);
      } else {
        FilterSame(steps, byName, shown);
      }
    } else {
      if filterDanceStyle != "all" {
        FilterSame(steps, byStyle, shown);
      } else {
        FilterKeepsAll(steps, shown);
      }
    }
    FilterIsSubsequence(steps, shown);
  }

  /** `toggleDanceStyle`: a chosen style is removed, any other is added at the end. */
  function Toggled(styles: seq<string>, style: string): (r: seq<string>)
    ensures style in styles ==> style !in r && forall s :: s in r <==> s in styles && s != style
    ensures style !in styles ==> r == styles + [style]
  {
    if style in styles then Filter(styles, (s: string) => s != style) else styles + [style]
  }

  /** Choosing a style and then un-choosing it restores the chosen list. */
  lemma ToggleTwiceRestores(styles: seq<string>, style: string)
    requires style !in styles
    ensures Toggled(Toggled(styles, style), style) == styles
  {
    var other := (s: string) => s != style;
    FilterAppend(styles, [style], other);
    FilterKeepsAll(styles, other);
    assert Filter([style], other) == [];
  }

  class StepsList {
    /** The saved steps, in order. */
    var steps: seq<Object>
    /** The styles chosen in the create or edit form. */
    var selectedDanceStyles: seq<string>

    constructor ()
      ensures steps == [] && selectedDanceStyles == []
    {
      steps := [];
      selectedDanceStyles := [];
    }

    /** `toggleDanceStyle`. */
    method ToggleDanceStyle(style: string)
      modifies this
      ensures selectedDanceStyles == Toggled(old(selectedDanceStyles), style) && steps == old(steps)
    {
      selectedDanceStyles := Toggled(selectedDanceStyles, style);
    }

    /** `handleCreateStep`: a valid form appends one step and clears the chosen styles. */
    method HandleCreateStep(stepName: string, videoUri: Value, id: string, createdAt: string) returns (created: bool)
      modifies this
      ensures created <==> !Rejected(stepName, old(selectedDanceStyles))
      ensures created ==>
        steps == old(steps) + [NewStep(Trim(stepName), old(selectedDanceStyles), videoUri, id, createdAt)] && selectedDanceStyles == []
      ensures !created ==> steps == old(steps) && selectedDanceStyles == old(selectedDanceStyles)
    {
      if Rejected(stepName, selectedDanceStyles) {
        return false;
      }
      steps := steps + [NewStep(Trim(stepName), selectedDanceStyles, videoUri, id, createdAt)];
      selectedDanceStyles := [];
      created := true;
    }

    /** `handleUpdateStep`: a valid form rewrites the steps with the edited step's id. */
    method HandleUpdateStep(editingStep: Object, stepName: string, videoUri: Value, updatedAt: string) returns (updated: bool)
      modifies this
      ensures updated <==> !Rejected(stepName, old(selectedDanceStyles))
      ensures updated ==>
        steps == UpdateById(old(steps), Get(editingStep, "id"), StepEdits(Trim(stepName), old(selectedDanceStyles), videoUri, updatedAt))
        && selectedDanceStyles == []
      ensures !updated ==> steps == old(steps) && selectedDanceStyles == old(selectedDanceStyles)
    {
      if Rejected(stepName, selectedDanceStyles) {
        return false;
      }
      steps := UpdateById(steps, Get(editingStep, "id"), StepEdits(Trim(stepName), selectedDanceStyles, videoUri, updatedAt));
      selectedDanceStyles := [];
      updated := true;
    }

    /** `handleDeleteStep` once the user confirms. */
    method HandleDeleteStep(step: Object, confirmed: bool)
      modifies this
      ensures confirmed ==> steps == DeleteById(old(steps), Get(step, "id"))
      ensures !confirmed ==> steps == old(steps)
      ensures selectedDanceStyles == old(selectedDanceStyles)
    {
      if confirmed {
        steps := DeleteById(steps, Get(step, "id"));
      }
    }
  }
}
