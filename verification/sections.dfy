/**
 * The sectioned move lists of the "add move" pickers: one section per level,
 * each a title and its moves, narrowed by a search query.
 */
module Sections {
  import opened Values
  import opened Seqs

  datatype Section = Section(title: Value, data: seq<Value>)

  /** `sections.map(s => ({title, data: s.data.filter(keep)})).filter(s => s.data.length > 0)`. */
  function FilterSections(sections: seq<Section>, keep: Value -> bool): (r: seq<Section>)
    ensures forall s :: s in r ==> s.data != [] && forall m :: m in s.data ==> keep(m)
  {
    Filter(Map(sections, (s: Section) => Section(s.title, Filter(s.data, keep))), (s: Section) => s.data != [])
  }

  /**
   * Nothing that matches is lost: every matching move of a section is in a
   * section of the result with the same title; and every move in the result
   * comes from a section of that title.
   */
  lemma FilterSectionsKeepsMatches(sections: seq<Section>, keep: Value -> bool)
    ensures forall i, m :: 0 <= i < |sections| && m in sections[i].data && keep(m) ==>
      Section(sections[i].title, Filter(sections[i].data, keep)) in FilterSections(sections, keep)
    ensures forall s, m :: s in FilterSections(sections, keep) && m in s.data ==>
      exists i :: 0 <= i < |sections| && sections[i].title == s.title && m in sections[i].data
  {
    var mapped := Map(sections, (s: Section) => Section(s.title, Filter(s.data, keep)));
    forall i, m | 0 <= i < |sections| && m in sections[i].data && keep(m)
      ensures Section(sections[i].title, Filter(sections[i].data, keep)) in FilterSections(sections, keep)
    {
      assert mapped[i] == Section(sections[i].title, Filter(sections[i].data, keep));
      assert m in mapped[i].data;
    }
    forall s, m | s in FilterSections(sections, keep) && m in s.data
      ensures exists i :: 0 <= i < |sections| && sections[i].title == s.title && m in sections[i].data
    {
      assert s in mapped;
      var i :| 0 <= i < |mapped| && mapped[i] == s;
      assert m in sections[i].data;
    }
  }
}
