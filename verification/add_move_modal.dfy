/**
 * The "add move" dialog of the routine editor (components/AddMoveModal.js):
 * the searchable catalog picker, and the form for a custom move. The
 * dialog hands its result to the editor's callback; here a handler returns
 * `None` when it would not call the callback and `Some(argument)` when it would.
 */
module AddMoveModal {
  import opened Options
  import opened Text
  import opened Values
  import opened Seqs
  import opened Sections

  /** `item.name && item.name.toLowerCase().includes(query)`. */
  predicate ItemMatches(item: Value, query: string) {
    var name := Prop(item, "name");
    Truthy(name) && name.Str? && Includes(ToLower(name.s), query)
  }

  /** `filteredMovesSections`: unchanged for a blank query, otherwise the matching items in non-empty sections. */
  function FilteredMovesSections(sections: seq<Section>, query: string): (r: seq<Section>)
    ensures IsBlank(query) ==> r == sections
    ensures !IsBlank(query) ==>
      forall s :: s in r ==> s.data != [] && forall m :: m in s.data ==> ItemMatches(m, ToLower(query))
  {
    if IsBlank(query) then sections
    else FilterSections(sections, (m: Value) => ItemMatches(m, ToLower(query)))
  }

  /** `sections.flatMap(s => s.data)`. */
  function Flatten(sections: seq<Section>): (r: seq<Value>)
    ensures forall m :: m in r <==> exists i :: 0 <= i < |sections| && m in sections[i].data
  {
    if sections == [] then []
    else
      var r := Flatten(sections[..|sections| - 1]) + sections[|sections| - 1].data;
      assert forall i :: 0 <= i < |sections| - 1 ==> sections[..|sections| - 1][i] == sections[i];
      r
  }

  /** `item.name === selectedMove`. */
  predicate NamedAs(item: Value, selectedMove: string) {
    StrictEq(Prop(item, "name"), Str(selectedMove))
  }

  /**
   * `handleAddMove`: no call without a selected move; otherwise the first
   * item, over all sections in order, whose name is the selection, or
   * `undefined` when there is none.
   */
  function HandleAddMove(selectedMove: string, sections: seq<Section>): (r: Option<Value>)
    ensures selectedMove == "" <==> r.None?
    ensures r.Some? && r.value != Undefined ==>
      && r.value in Flatten(sections) && Prop(r.value, "name") == Str(selectedMove)
      && exists j :: 0 <= j < |Flatten(sections)| && Flatten(sections)[j] == r.value
           && forall k :: 0 <= k < j ==> !NamedAs(Flatten(sections)[k], selectedMove)
    ensures r.Some? && (forall m :: m in Flatten(sections) ==> !NamedAs(m, selectedMove)) ==> r.value == Undefined
  {
    if selectedMove == "" then None
    else
      match Find(Flatten(sections), (m: Value) => NamedAs(m, selectedMove))
      case None => Some(Undefined)
      case Some(m) => Some(m)
  }

  /** `customMoveCounts ? parseInt(customMoveCounts) : 2`. */
  function CustomCounts(countsText: string): (r: Value)
    ensures countsText == "" ==> r == Num(2)
    ensures countsText != "" ==> r == ParseInt(countsText)
  {
    if countsText != "" then ParseInt(countsText) else Num(2)
  }

  /**
   * `handleCreateMove`: no call for a blank name; otherwise a move with the
   * trimmed name, the counts typed (2 when none) and the chosen facings.
   */
  function HandleCreateMove(name: string, countsText: string, startFacing: Value, endFacing: Value): (r: Option<Object>)
    ensures IsBlank(name) <==> r.None?
    ensures r.Some? ==>
      && Get(r.value, "name") == Str(Trim(name)) && Trim(name) != ""
      && Get(r.value, "counts") == CustomCounts(countsText)
      && Get(r.value, "startFacing") == startFacing && Get(r.value, "endFacing") == endFacing
  {
    if IsBlank(name) then None
    else Some(map["name" := Str(Trim(name)), "counts" := CustomCounts(countsText), "startFacing" := startFacing, "endFacing" := endFacing])
  }

  /** Typing the digits of a whole number gives a move with exactly that many counts. */
  lemma CreatedCountsRoundTrip(name: string, n: int, startFacing: Value, endFacing: Value)
    requires !IsBlank(name)
    ensures Get(HandleCreateMove(name, NumberText(n), startFacing, endFacing).value, "counts") == Num(n)
  {
    ParseIntNumberText(n);
  }

  /** Text with no digits where `parseInt` looks for them gives NaN counts, not the default of 2. */
  lemma CreatedCountsNaN(name: string, startFacing: Value, endFacing: Value)
    requires !IsBlank(name)
    ensures Get(HandleCreateMove(name, "x", startFacing, endFacing).value, "counts") == NaN
  {
    ParseIntOfLetter();
  }

  lemma ParseIntOfLetter()
    ensures ParseInt("x") == NaN
  {
    assert TrimStart("x") == "x";
    assert DigitValue('x', 10).None?;
    assert DigitRun("x", 10) == 0;
    assert UnsignedPrefix("x") == None;
  }
}
