/**
 * The narrowing filters the catalog and the practice screen apply to their
 * tagged move lists, in the same order: dance style, level, then the
 * search query; and the `style||level||name` marks (hidden, favorite) both
 * screens keep for a move.
 */
module MoveFilters {
  import opened Text
  import opened Values
  import opened Seqs
  import opened DeletedMoves

  /** The style filter: `"all"`, or the move's key equals the selection lower-cased with white space runs as `_`. */
  predicate StyleMatches(m: Object, selectedDanceStyle: string) {
    selectedDanceStyle == "all" || StrictEq(Get(m, "danceStyle"), Str(StyleKey(selectedDanceStyle)))
  }

  /** The level filter: `"all"`, or the move's level is the selection. */
  predicate LevelMatches(m: Object, selectedLevel: string) {
    selectedLevel == "all" || StrictEq(Get(m, "level"), Str(selectedLevel))
  }

  /** `(move.name || "").toLowerCase().includes(query)`. */
  predicate NameContains(m: Object, query: string) {
    var name := Or(Get(m, "name"), Str(""));
    name.Str? && Includes(ToLower(name.s), query)
  }

  /** The search filter: a blank query, or the name contains the trimmed, lower-cased query. */
  predicate QueryMatches(m: Object, searchQuery: string) {
    var q := Trim(searchQuery);
    |q| == 0 || NameContains(m, ToLower(q))
  }

  /** A move that passes all three filters. */
  predicate Matches(m: Object, selectedDanceStyle: string, selectedLevel: string, searchQuery: string) {
    StyleMatches(m, selectedDanceStyle) && LevelMatches(m, selectedLevel) && QueryMatches(m, searchQuery)
  }

  /** `!!marks[makeMoveKey(move.danceStyle, move.level, move.name)]`: `isMoveHidden` and `isMoveFavorite`. */
  predicate Marked(m: Object, marks: Object) {
    Truthy(Get(marks, MakeMoveKey(Get(m, "danceStyle"), Get(m, "level"), Get(m, "name"))))
  }

  /**
   * The first three steps of `filteredMoves` and `movesWithVideos`: each
   * selected filter replaces `filtered` with the moves of it that pass. The
   * result keeps, in order, exactly the moves that pass all three.
   */
  method NarrowMoves(allMoves: seq<Object>, selectedDanceStyle: string, selectedLevel: string, searchQuery: string)
    returns (filtered: seq<Object>)
    ensures filtered == Filter(allMoves, (m: Object) => Matches(m, selectedDanceStyle, selectedLevel, searchQuery))
  {
    ghost var byStyle := (m: Object) => StyleMatches(m, selectedDanceStyle);
    ghost var byLevel := (m: Object) => LevelMatches(m, selectedLevel);
    ghost var byQuery := (m: Object) => QueryMatches(m, searchQuery);
    ghost var styleAndLevel := (m: Object) => StyleMatches(m, selectedDanceStyle) && LevelMatches(m, selectedLevel);
    ghost var all := (m: Object) => Matches(m, selectedDanceStyle, selectedLevel, searchQuery);

    filtered := allMoves;
    if selectedDanceStyle != "all" {
      var selectedStyleKey := StyleKey(selectedDanceStyle);
      filtered := Filter(filtered, (m: Object) => StrictEq(Get(m, "danceStyle"), Str(selectedStyleKey)));
      FilterSame(allMoves, (m: Object) => StrictEq(Get(m, "danceStyle"), Str(selectedStyleKey)), byStyle);
    } else {
      FilterKeepsAll(allMoves, byStyle);
    }
    assert filtered == Filter(allMoves, byStyle);
    ghost var afterStyle := filtered;

    if selectedLevel != "all" {
      filtered := Filter(filtered, (m: Object) => StrictEq(Get(m, "level"), Str(selectedLevel)));
      FilterSame(afterStyle, (m: Object) => StrictEq(Get(m, "level"), Str(selectedLevel)), byLevel);
    } else {
      FilterKeepsAll(afterStyle, byLevel);
    }
    FilterTwice(allMoves, byStyle, byLevel, styleAndLevel);
    assert filtered == Filter(allMoves, styleAndLevel);
    ghost var afterLevel := filtered;

    var trimmedQuery := Trim(searchQuery);
    if |trimmedQuery| > 0 {
      var query := ToLower(trimmedQuery);
      filtered := Filter(filtered, (m: Object) => NameContains(m, query));
      FilterSame(afterLevel, (m: Object) => NameContains(m, query), byQuery);
    } else {
      FilterKeepsAll(afterLevel, byQuery);
    }
    FilterTwice(allMoves, styleAndLevel, byQuery, all);
  }

  /** The narrowed list is an order-preserving selection of the whole list: filters only ever narrow. */
  lemma NarrowedIsSelection(allMoves: seq<Object>, selectedDanceStyle: string, selectedLevel: string, searchQuery: string)
    ensures var r := Filter(allMoves, (m: Object) => Matches(m, selectedDanceStyle, selectedLevel, searchQuery));
      IsSubsequence(r, allMoves) && |r| <= |allMoves|
  {
    FilterIsSubsequence(allMoves, (m: Object) => Matches(m, selectedDanceStyle, selectedLevel, searchQuery));
  }
}
