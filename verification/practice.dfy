/**
 * The practice screen: the catalog moves that have a playable clip, the
 * same narrowing filters as the catalog plus a favorites-only switch, a
 * random draw from the filtered list, the check that redraws when the
 * filters drop the current move, and the category buttons that record a
 * category and count the practice.
 */
module Practice {
  import opened Options
  import opened Values
  import opened Seqs
  import opened Catalog
  import opened MoveFilters
  import opened MoveCategories

  /** `allMovesWithVideos`: every named catalog move with a video, a `start` and an `end`, tagged with its style and level. */
  method AllMovesWithVideos(c: DanceMoves) returns (moves: seq<Object>)
    ensures moves == Tagged(Slots(c), HasNamedClip)
    ensures forall o :: o in moves <==> exists s :: s in Slots(c) && HasNamedClip(s.move) && o == Tag(s)
  {
    moves := CollectMoves(c, HasNamedClip);
    forall o ensures o in moves <==> exists s :: s in Slots(c) && HasNamedClip(s.move) && o == Tag(s) {
      TaggedMember(Slots(c), HasNamedClip, o);
    }
  }

  /** The practice list is the catalog list with the moves lacking a clip left out, in the same order. */
  lemma {:induction false} PracticeMovesInCatalog(slots: seq<Slot>)
    ensures IsSubsequence(Tagged(slots, HasNamedClip), Tagged(slots, HasName))
    decreases |slots|
  {
    if slots == [] {
      EmptyIsSubsequence(Tagged(slots, HasName));
    } else {
      var init := slots[..|slots| - 1];
      var s := slots[|slots| - 1];
      PracticeMovesInCatalog(init);
      var a := Tagged(init, HasNamedClip);
      var b := Tagged(init, HasName);
      if HasNamedClip(s.move) {
        assert Tagged(slots, HasNamedClip) == a + [Tag(s)];
        assert Tagged(slots, HasName) == b + [Tag(s)];
        assert (a + [Tag(s)])[..|a|] == a;
        assert (b + [Tag(s)])[..|b|] == b;
      } else if HasName(s.move) {
        assert Tagged(slots, HasNamedClip) == a;
        assert Tagged(slots, HasName) == b + [Tag(s)];
        SubsequenceOfLonger(a, b, Tag(s));
      } else {
        assert Tagged(slots, HasNamedClip) == a;
        assert Tagged(slots, HasName) == b;
      }
    }
  }

  /** A move the practice list shows: it passes the three filters, and is a favorite when only favorites are shown. */
  predicate Practised(m: Object, selectedDanceStyle: string, selectedLevel: string, searchQuery: string,
                      showOnlyFavorites: bool, favoriteMoves: Object) {
    Matches(m, selectedDanceStyle, selectedLevel, searchQuery) && (!showOnlyFavorites || Marked(m, favoriteMoves))
  }

  /**
   * `movesWithVideos`: the three narrowing filters, then the favorites
   * filter when it is switched on; no sort, so the result keeps catalog order.
   */
  method MovesWithVideos(allMovesWithVideos: seq<Object>, selectedDanceStyle: string, selectedLevel: string,
                         searchQuery: string, showOnlyFavorites: bool, favoriteMoves: Object)
    returns (filtered: seq<Object>)
    ensures filtered == Filter(allMovesWithVideos,
      (m: Object) => Practised(m, selectedDanceStyle, selectedLevel, searchQuery, showOnlyFavorites, favoriteMoves))
    ensures IsSubsequence(filtered, allMovesWithVideos)
  {
    ghost var practised := (m: Object) => Practised(m, selectedDanceStyle, selectedLevel, searchQuery, showOnlyFavorites, favoriteMoves);
    ghost var favorite := (m: Object) => !showOnlyFavorites || Marked(m, favoriteMoves);
    filtered := NarrowMoves(allMovesWithVideos, selectedDanceStyle, selectedLevel, searchQuery);
    ghost var narrowed := filtered;
    if showOnlyFavorites {
      filtered := Filter(filtered, (m: Object) => Marked(m, favoriteMoves));
      FilterSame(narrowed, (m: Object) => Marked(m, favoriteMoves), favorite);
    } else {
      FilterKeepsAll(narrowed, favorite);
    }
    FilterTwice(allMovesWithVideos, (m: Object) => Matches(m, selectedDanceStyle, selectedLevel, searchQuery), favorite, practised);
    FilterIsSubsequence(allMovesWithVideos, practised);
  }

  /** `Math.floor(random * n)` for the value `random` that `Math.random()` returned. */
  function RandomIndex(n: nat, random: real): (i: int)
    requires n > 0 && 0.0 <= random < 1.0
    ensures 0 <= i < n
  {
    assert random * n as real < n as real;
    (random * n as real).Floor
  }

  /** Every index is drawn for some value of `Math.random()`, namely `i / n`. */
  lemma EveryIndexDrawn(n: nat, i: nat)
    requires i < n
    ensures 0.0 <= i as real / n as real < 1.0 && RandomIndex(n, i as real / n as real) == i
  {
    var random := i as real / n as real;
    assert random * n as real == i as real;
  }

  /** `getRandomMove`: `null` for an empty list, otherwise the element at the drawn index. */
  function GetRandomMove(moves: seq<Object>, random: real): (r: Option<Object>)
    requires 0.0 <= random < 1.0
    ensures r.None? <==> moves == []
    ensures r.Some? ==> r.value in moves
    ensures r.Some? ==> r.value == moves[RandomIndex(|moves|, random)]
  {
    if |moves| == 0 then None else Some(moves[RandomIndex(|moves|, random)])
  }

  /** `m.name === current.name && m.danceStyle === current.danceStyle && m.level === current.level`. */
  predicate SameMove(m: Object, current: Object) {
    && StrictEq(Get(m, "name"), Get(current, "name"))
    && StrictEq(Get(m, "danceStyle"), Get(current, "danceStyle"))
    && StrictEq(Get(m, "level"), Get(current, "level"))
  }

  /** The filter-change effect redraws when a move is shown and no listed move matches it on name, style and level. */
  predicate NeedsRedraw(loading: bool, currentMove: Option<Object>, moves: seq<Object>) {
    !loading && currentMove.Some? && !Any(moves, (m: Object) => SameMove(m, currentMove.value))
  }

  /** A shown move that the new filters still list is kept: a tagged catalog move never compares as NaN. */
  lemma ListedMoveKept(loading: bool, current: Object, moves: seq<Object>)
    requires current in moves
    requires Truthy(Get(current, "name")) && Get(current, "danceStyle").Str? && Get(current, "level").Str?
    ensures !NeedsRedraw(loading, Some(current), moves)
  {
    var i :| 0 <= i < |moves| && moves[i] == current;
    assert SameMove(moves[i], current);
  }

  /** A redraw happens exactly when the current move has no match in the filtered list. */
  lemma RedrawIffUnmatched(loading: bool, current: Object, moves: seq<Object>)
    requires !loading
    ensures NeedsRedraw(loading, Some(current), moves) <==> forall m :: m in moves ==> !SameMove(m, current)
  {
    if !NeedsRedraw(loading, Some(current), moves) {
      var i :| 0 <= i < |moves| && SameMove(moves[i], current);
      assert moves[i] in moves;
    }
  }

  /** The move on screen and the counters of the practice card. */
  class PracticeSession {
    var currentMove: Option<Object>
    var loading: bool
    var total: int
    var session: int

    constructor ()
      ensures currentMove == None && loading && total == 0 && session == 0
    {
      currentMove := None;
      loading := true;
      total := 0;
      session := 0;
    }

    /** `loadNextMove`, once its fade-out has finished: a fresh draw from the filtered list, and loading ends. */
    method LoadNextMove(moves: seq<Object>, random: real)
      requires 0.0 <= random < 1.0
      modifies this
      ensures currentMove == GetRandomMove(moves, random) && !loading
      ensures total == old(total) && session == old(session)
    {
      currentMove := GetRandomMove(moves, random);
      loading := false;
    }

    /**
     * The filter-change effect, which React runs when `selectedDanceStyle`,
     * `selectedLevel` or `searchQuery` changes: redraws only when the shown
     * move is no longer listed.
     */
    method FiltersChanged(moves: seq<Object>, random: real)
      requires 0.0 <= random < 1.0
      modifies this
      ensures old(NeedsRedraw(loading, currentMove, moves)) ==> currentMove == GetRandomMove(moves, random) && !loading
      ensures !old(NeedsRedraw(loading, currentMove, moves)) ==> currentMove == old(currentMove) && loading == old(loading)
      ensures total == old(total) && session == old(session)
    {
      if NeedsRedraw(loading, currentMove, moves) {
        LoadNextMove(moves, random);
      }
    }

    /**
     * `handleCategorySelection`: nothing without a current move; otherwise
     * the category is recorded for the move and no other, both counters go
     * up by one, and the next move is drawn.
     */
    method HandleCategorySelection(category: Value, store: CategoryStore, moves: seq<Object>, random: real)
      requires 0.0 <= random < 1.0
      modifies this, store
      ensures old(currentMove).None? ==>
        && currentMove == old(currentMove) && loading == old(loading)
        && total == old(total) && session == old(session) && store.stored == old(store.stored)
      ensures old(currentMove).Some? ==>
        var m := old(currentMove).value;
        && store.stored == Some(old(store.AllMoveCategories())[MoveKey(Get(m, "danceStyle"), Get(m, "level"), Get(m, "name")) := category])
        && store.GetMoveCategory(Get(m, "danceStyle"), Get(m, "level"), Get(m, "name")) == Or(category, Null)
        && total == old(total) + 1 && session == old(session) + 1
        && currentMove == GetRandomMove(moves, random) && !loading
    {
      if currentMove.None? {
        return;
      }
      var m := currentMove.value;
      var _ := store.SetMoveCategory(Get(m, "danceStyle"), Get(m, "level"), Get(m, "name"), category);
      total := total + 1;
      session := session + 1;
      LoadNextMove(moves, random);
    }
  }
}
