/**
 * Moves the user removed from the built-in catalog (utils/deletedMoves.js):
 * a map from `style||level||name` keys to flags, and the catalog view of
 * one style without them. Loading and saving the map's file is not part of
 * this model; the map is an input.
 */
module DeletedMoves {
  import opened Options
  import opened Text
  import opened Values
  import opened Seqs
  import opened Catalog

  /** `makeMoveKey`: the template `${danceStyle}||${level}||${name}`. */
  function MakeMoveKey(danceStyle: Value, level: Value, name: Value): (k: string)
    ensures k == ToStr(danceStyle) + "||" + ToStr(level) + "||" + ToStr(name)
  {
    ToStr(danceStyle) + "||" + ToStr(level) + "||" + ToStr(name)
  }

  /** Styles and levels never contain `|`, so the key of a move determines the move. */
  lemma MakeMoveKeyInjective(s1: string, l1: string, n1: string, s2: string, l2: string, n2: string)
    requires Avoids(s1, '|') && Avoids(l1, '|') && Avoids(s2, '|') && Avoids(l2, '|')
    requires MakeMoveKey(Str(s1), Str(l1), Str(n1)) == MakeMoveKey(Str(s2), Str(l2), Str(n2))
    ensures s1 == s2 && l1 == l2 && n1 == n2
  {
    assert MakeMoveKey(Str(s1), Str(l1), Str(n1)) == s1 + "||" + (l1 + "||" + n1);
    assert MakeMoveKey(Str(s2), Str(l2), Str(n2)) == s2 + "||" + (l2 + "||" + n2);
    SplitAtSeparator(s1, l1 + "||" + n1, s2, l2 + "||" + n2, "||");
    SplitAtSeparator(l1, n1, l2, n2, "||");
  }

  /** `isDeleted`: never for a move missing its style, level or name; otherwise the map's flag at its key. */
  function IsDeleted(danceStyle: Value, level: Value, name: Value, deletedMap: Object): (r: bool)
    ensures !Truthy(danceStyle) || !Truthy(level) || !Truthy(name) ==> !r
    ensures Truthy(danceStyle) && Truthy(level) && Truthy(name) ==>
      (r <==> Truthy(Get(deletedMap, MakeMoveKey(danceStyle, level, name))))
  {
    if !Truthy(danceStyle) || !Truthy(level) || !Truthy(name) then false
    else Truthy(Get(deletedMap, MakeMoveKey(danceStyle, level, name)))
  }

  /** The four levels `getFilteredStyle` returns. */
  datatype FilteredStyle = FilteredStyle(bronze: seq<Value>, silver: seq<Value>, gold: seq<Value>, other: seq<Value>)

  /** The condition `filterLevel` keeps a move of level `levelName` under. */
  predicate Kept(styleKey: string, levelName: string, deletedMap: Object, move: Value) {
    HasName(move) && !IsDeleted(Str(styleKey), Str(levelName), Prop(move, "name"), deletedMap)
  }

  /** `filterLevel`: the named, undeleted moves of the level's array, or `[]` when it is not an array. */
  function FilterLevel(styleKey: string, entries: seq<(string, Value)>, levelName: string, deletedMap: Object): seq<Value> {
    var arr := LookupLevel(entries, levelName);
    if arr.Arr? then Filter(arr.items, (m: Value) => Kept(styleKey, levelName, deletedMap, m)) else []
  }

  /** `getFilteredStyle`: null unless the style maps to an object; otherwise its four filtered levels. */
  function GetFilteredStyle(styleKey: string, c: DanceMoves, deletedMap: Object): (r: Option<FilteredStyle>)
    ensures r.None? <==> (LookupStyle(c, styleKey).None? || LookupStyle(c, styleKey).value.NotObject?)
    ensures r.Some? ==>
      var entries := LookupStyle(c, styleKey).value.entries;
      && r.value.bronze == FilterLevel(styleKey, entries, "bronze", deletedMap)
      && r.value.silver == FilterLevel(styleKey, entries, "silver", deletedMap)
      && r.value.gold == FilterLevel(styleKey, entries, "gold", deletedMap)
      && r.value.other == FilterLevel(styleKey, entries, "other", deletedMap)
  {
    match LookupStyle(c, styleKey)
    case Some(Levels(entries)) =>
      Some(FilteredStyle(
        FilterLevel(styleKey, entries, "bronze", deletedMap),
        FilterLevel(styleKey, entries, "silver", deletedMap),
        FilterLevel(styleKey, entries, "gold", deletedMap),
        FilterLevel(styleKey, entries, "other", deletedMap)))
    case _ => None
  }

  /**
   * A filtered level keeps, in their original order, exactly the moves of the
   * level's array that have a name and are not deleted; a level that is
   * missing or not an array is empty.
   */
  lemma FilterLevelContents(styleKey: string, entries: seq<(string, Value)>, levelName: string, deletedMap: Object)
    ensures var arr := LookupLevel(entries, levelName);
      var r := FilterLevel(styleKey, entries, levelName, deletedMap);
      && (!arr.Arr? ==> r == [])
      && (arr.Arr? ==> IsSubsequence(r, arr.items))
      && (arr.Arr? ==> forall m :: m in r <==> m in arr.items && Kept(styleKey, levelName, deletedMap, m))
  {
    var arr := LookupLevel(entries, levelName);
    if arr.Arr? {
      FilterIsSubsequence(arr.items, (m: Value) => Kept(styleKey, levelName, deletedMap, m));
    }
  }

  /** No move counts as deleted against an empty map, so each level is just its named moves. */
  lemma FilterLevelNothingDeleted(styleKey: string, entries: seq<(string, Value)>, levelName: string)
    ensures var arr := LookupLevel(entries, levelName);
      arr.Arr? ==> FilterLevel(styleKey, entries, levelName, map[]) == Filter(arr.items, HasName)
  {
    var arr := LookupLevel(entries, levelName);
    if arr.Arr? {
      FilterSame(arr.items, (m: Value) => Kept(styleKey, levelName, map[], m), HasName);
    }
  }
}
