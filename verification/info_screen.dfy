/**
 * The Info screen's completeness report (screens/InfoScreen.js): for each
 * dance style, whether every bronze, silver and gold move that is still in
 * the catalog has its counts, how many moves each level has, and the green
 * or red colour the report shows.
 */
module InfoScreen {
  import opened Options
  import opened Text
  import opened Values
  import opened Seqs
  import opened Catalog
  import opened DeletedMoves

  const COMPLETE_COLOR := "#4CAF50"
  const INCOMPLETE_COLOR := "#f44336"

  /** `move && typeof move.counts === "number"`; NaN is a number too. */
  predicate HasCounts(move: Value) {
    Truthy(move) && (Prop(move, "counts").Num? || Prop(move, "counts") == NaN)
  }

  /** `allMovesHaveCounts`: false for a non-array or an empty array, otherwise whether every move has counts. */
  function AllMovesHaveCounts(moves: Value): (r: bool)
    ensures !moves.Arr? || moves.items == [] ==> !r
    ensures moves.Arr? && moves.items != [] ==> (r <==> forall m :: m in moves.items ==> HasCounts(m))
  {
    moves.Arr? && |moves.items| > 0 && forall m :: m in moves.items ==> HasCounts(m)
  }

  datatype LevelStatus = LevelStatus(bronze: bool, silver: bool, gold: bool)

  datatype LevelCounts = LevelCounts(bronze: nat, silver: nat, gold: nat)

  /** `getLevelStatus`: all false for a style the catalog lacks; otherwise each level's completeness. */
  function GetLevelStatus(danceStyle: string, c: DanceMoves, deletedMap: Object): (r: LevelStatus)
    ensures GetFilteredStyle(StyleKey(danceStyle), c, deletedMap).None? ==> r == LevelStatus(false, false, false)
    ensures GetFilteredStyle(StyleKey(danceStyle), c, deletedMap).Some? ==>
      var f := GetFilteredStyle(StyleKey(danceStyle), c, deletedMap).value;
      r == LevelStatus(AllMovesHaveCounts(Arr(f.bronze)), AllMovesHaveCounts(Arr(f.silver)), AllMovesHaveCounts(Arr(f.gold)))
  {
    match GetFilteredStyle(StyleKey(danceStyle), c, deletedMap)
    case None => LevelStatus(false, false, false)
    case Some(f) => LevelStatus(AllMovesHaveCounts(Arr(f.bronze)), AllMovesHaveCounts(Arr(f.silver)), AllMovesHaveCounts(Arr(f.gold)))
  }

  /** `getLevelCounts`: each level's number of remaining moves, 0 for a style the catalog lacks. */
  function GetLevelCounts(danceStyle: string, c: DanceMoves, deletedMap: Object): (r: LevelCounts)
    ensures GetFilteredStyle(StyleKey(danceStyle), c, deletedMap).None? ==> r == LevelCounts(0, 0, 0)
    ensures GetFilteredStyle(StyleKey(danceStyle), c, deletedMap).Some? ==>
      var f := GetFilteredStyle(StyleKey(danceStyle), c, deletedMap).value;
      r == LevelCounts(|f.bronze|, |f.silver|, |f.gold|)
  {
    match GetFilteredStyle(StyleKey(danceStyle), c, deletedMap)
    case None => LevelCounts(0, 0, 0)
    case Some(f) => LevelCounts(|f.bronze|, |f.silver|, |f.gold|)
  }

  /**
   * `status[level]` as a condition: the three medal levels carry their flag;
   * a name every object inherits reads a built-in member, which is truthy;
   * any other name reads `undefined`.
   */
  function StatusOf(status: LevelStatus, level: string): bool {
    if level == "bronze" then status.bronze
    else if level == "silver" then status.silver
    else if level == "gold" then status.gold
    else level in INHERITED_NAMES
  }

  /** `getStyleColor`. */
  function GetStyleColor(danceStyle: string, c: DanceMoves, deletedMap: Object): (r: string)
    ensures r == COMPLETE_COLOR || r == INCOMPLETE_COLOR
  {
    var status := GetLevelStatus(danceStyle, c, deletedMap);
    if status.bronze && status.silver && status.gold then COMPLETE_COLOR else INCOMPLETE_COLOR
  }

  /** `getLevelColor`. */
  function GetLevelColor(danceStyle: string, level: string, c: DanceMoves, deletedMap: Object): (r: string)
    ensures r == COMPLETE_COLOR <==> StatusOf(GetLevelStatus(danceStyle, c, deletedMap), level)
    ensures r == COMPLETE_COLOR || r == INCOMPLETE_COLOR
  {
    if StatusOf(GetLevelStatus(danceStyle, c, deletedMap), level) then COMPLETE_COLOR else INCOMPLETE_COLOR
  }

  /** A style is shown green exactly when its bronze, silver and gold lines are all green. */
  lemma StyleGreenIffLevelsGreen(danceStyle: string, c: DanceMoves, deletedMap: Object)
    ensures GetStyleColor(danceStyle, c, deletedMap) == COMPLETE_COLOR <==>
      && GetLevelColor(danceStyle, "bronze", c, deletedMap) == COMPLETE_COLOR
      && GetLevelColor(danceStyle, "silver", c, deletedMap) == COMPLETE_COLOR
      && GetLevelColor(danceStyle, "gold", c, deletedMap) == COMPLETE_COLOR
  {
  }

  /**
   * A name that is not a medal level, such as "other", is shown red, except
   * a name every object inherits, such as "constructor", which is shown green
   * whatever the catalog holds.
   */
  lemma OtherLevelColor(danceStyle: string, level: string, c: DanceMoves, deletedMap: Object)
    requires level != "bronze" && level != "silver" && level != "gold"
    ensures GetLevelColor(danceStyle, level, c, deletedMap) == COMPLETE_COLOR <==> level in INHERITED_NAMES
  {
  }

  /** The "other" level is always shown red. */
  lemma OtherLevelRed(danceStyle: string, c: DanceMoves, deletedMap: Object)
    ensures GetLevelColor(danceStyle, "other", c, deletedMap) == INCOMPLETE_COLOR
  {
    OtherLevelColor(danceStyle, "other", c, deletedMap);
  }

  /**
   * In terms of the catalog itself: a level of a style that the catalog holds
   * as an object is complete exactly when its array holds at least one move
   * that has a name and is not deleted, and every such move has counts.
   */
  lemma LevelCompleteInCatalog(danceStyle: string, level: string, c: DanceMoves, deletedMap: Object)
    requires level == "bronze" || level == "silver" || level == "gold"
    requires LookupStyle(c, StyleKey(danceStyle)).Some? && LookupStyle(c, StyleKey(danceStyle)).value.Levels?
    ensures var key := StyleKey(danceStyle);
      var arr := LookupLevel(LookupStyle(c, key).value.entries, level);
      StatusOf(GetLevelStatus(danceStyle, c, deletedMap), level) <==>
        && arr.Arr?
        && (exists m :: m in arr.items && Kept(key, level, deletedMap, m))
        && (forall m :: m in arr.items && Kept(key, level, deletedMap, m) ==> HasCounts(m))
  {
    var key := StyleKey(danceStyle);
    var entries := LookupStyle(c, key).value.entries;
    var arr := LookupLevel(entries, level);
    FilterLevelContents(key, entries, level, deletedMap);
    var kept := FilterLevel(key, entries, level, deletedMap);
    assert StatusOf(GetLevelStatus(danceStyle, c, deletedMap), level) == AllMovesHaveCounts(Arr(kept));
    if arr.Arr? && kept != [] {
      assert kept[0] in arr.items && Kept(key, level, deletedMap, kept[0]);
    }
  }
}
