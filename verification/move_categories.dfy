/**
 * How well the dancer knows each move (utils/moveCategories.js): a stored
 * object from `style:level:name` keys to one of three categories, with its
 * colours and summary counts. The AsyncStorage item is the `stored` field of
 * `CategoryStore`; `None` is the state with no item.
 */
module MoveCategories {
  import opened Options
  import opened Text
  import opened Values

  const DONT_KNOW: string := "dont_know"
  const FAMILIAR: string := "familiar"
  const KNOW: string := "know"

  /**
   * `CATEGORY_COLORS`. Its fourth entry is keyed by `MOVE_CATEGORIES.SKIP`,
   * which does not exist, so the key is the text `"undefined"`.
   */
  const CATEGORY_COLORS: map<string, string> :=
    map[DONT_KNOW := "#ffcccc", FAMILIAR := "#fff9cc", KNOW := "#ccffcc", "undefined" := "#ccccff"]

  /** `getMoveKey`: the template `${danceStyle}:${level}:${moveName}`. */
  function MoveKey(danceStyle: Value, level: Value, moveName: Value): (k: string)
    ensures k == ToStr(danceStyle) + ":" + ToStr(level) + ":" + ToStr(moveName)
  {
    ToStr(danceStyle) + ":" + ToStr(level) + ":" + ToStr(moveName)
  }

  /** Styles and levels are colon-free, so the key of a move determines the move. */
  lemma MoveKeyInjective(s1: string, l1: string, n1: string, s2: string, l2: string, n2: string)
    requires Avoids(s1, ':') && Avoids(l1, ':') && Avoids(s2, ':') && Avoids(l2, ':')
    requires MoveKey(Str(s1), Str(l1), Str(n1)) == MoveKey(Str(s2), Str(l2), Str(n2))
    ensures s1 == s2 && l1 == l2 && n1 == n2
  {
    assert MoveKey(Str(s1), Str(l1), Str(n1)) == s1 + ":" + (l1 + ":" + n1);
    assert MoveKey(Str(s2), Str(l2), Str(n2)) == s2 + ":" + (l2 + ":" + n2);
    SplitAtSeparator(s1, l1 + ":" + n1, s2, l2 + ":" + n2, ":");
    SplitAtSeparator(l1, n1, l2, n2, ":");
  }

  /** `categories[key] || null`: the category recorded under `key`, or null when absent or falsy. */
  function CategoryAt(categories: Object, key: string): (r: Value)
    ensures key !in categories ==> r == Null
    ensures key in categories && Truthy(categories[key]) ==> r == categories[key]
    ensures key in categories && !Truthy(categories[key]) ==> r == Null
  {
    Or(Get(categories, key), Null)
  }

  /** `category ? CATEGORY_COLORS[category] : "transparent"`. */
  function ColorOf(category: Value): (r: Value)
    ensures !Truthy(category) ==> r == Str("transparent")
    ensures Truthy(category) && ToStr(category) in CATEGORY_COLORS ==> r == Str(CATEGORY_COLORS[ToStr(category)])
    ensures Truthy(category) && ToStr(category) !in CATEGORY_COLORS ==> r == Undefined
  {
    if Truthy(category) then
      var key := ToStr(category);
      if key in CATEGORY_COLORS then Str(CATEGORY_COLORS[key]) else Undefined
    else Str("transparent")
  }

  /** The three known categories each have their own colour. */
  lemma KnownCategoryColors()
    ensures ColorOf(Str(DONT_KNOW)) == Str("#ffcccc")
    ensures ColorOf(Str(FAMILIAR)) == Str("#fff9cc")
    ensures ColorOf(Str(KNOW)) == Str("#ccffcc")
    ensures ColorOf(Null) == Str("transparent")
  {
  }

  /** The number of moves among `done` whose category reads as `c`. */
  function Tally(categories: Object, done: set<string>, c: string): nat {
    |set k | k in done && k in categories && ToStr(categories[k]) == c|
  }

  lemma TallyZero(categories: Object, done: set<string>, c: string)
    requires forall k :: k in done && k in categories ==> ToStr(categories[k]) != c
    ensures Tally(categories, done, c) == 0
  {
    var s := set x | x in done && x in categories && ToStr(categories[x]) == c;
    assert s == {};
  }

  lemma TallyAdd(categories: Object, done: set<string>, k: string, c: string)
    requires k in categories && k !in done
    ensures Tally(categories, done + {k}, c) == Tally(categories, done, c) + (if ToStr(categories[k]) == c then 1 else 0)
  {
    var before := set x | x in done && x in categories && ToStr(categories[x]) == c;
    var after := set x | x in done + {k} && x in categories && ToStr(categories[x]) == c;
    if ToStr(categories[k]) == c {
      assert after == before + {k};
    } else {
      assert after == before;
    }
  }

  /** The stats object `getCategoryStats` starts from. */
  const INITIAL_STATS: Object := map[DONT_KNOW := Num(0), FAMILIAR := Num(0), KNOW := Num(0), "total" := Num(0)]

  /**
   * The stats object as written, after the moves in `done` were visited.
   * `stats[category] !== undefined` holds for the four own keys and for
   * every inherited name, so the result holds each known category's tally; a
   * total that counts a stored value `"total"` twice and a stored inherited
   * name once; and, for each inherited name other than `__proto__` that some
   * move holds, an own entry NaN, which `++` makes of the built-in it read.
   */
  function StatsAsWritten(categories: Object, done: set<string>): Object {
    var d := Tally(categories, done, DONT_KNOW);
    var f := Tally(categories, done, FAMILIAR);
    var k := Tally(categories, done, KNOW);
    var t := Tally(categories, done, "total");
    WrittenOf(d, f, k, t, InheritedTally(categories, done), InheritedSeen(categories, done))
  }

  /**
   * The written stats for the given tallies of the three categories, of
   * `total`, and of inherited names, with NaN entries for the names `seen`.
   */
  function WrittenOf(dontKnow: int, familiar: int, know: int, total: int, inherited: int, seen: set<string>): Object {
    StatsOf(dontKnow, familiar, know, dontKnow + familiar + know + 2 * total + inherited) + NaNEntries(seen)
  }

  /** The number of moves among `done` whose category reads as an inherited name. */
  function InheritedTally(categories: Object, done: set<string>): nat {
    |set k | k in done && k in categories && ToStr(categories[k]) in INHERITED_NAMES|
  }

  /** The inherited names other than `__proto__` that moves among `done` hold. */
  function InheritedSeen(categories: Object, done: set<string>): (r: set<string>)
    ensures r <= INHERITED_NAMES && "__proto__" !in r
  {
    set k | k in done && k in categories && ToStr(categories[k]) in INHERITED_NAMES && ToStr(categories[k]) != "__proto__"
      :: ToStr(categories[k])
  }

  /** An own entry NaN for each of `names`. */
  function NaNEntries(names: set<string>): Object {
    map c | c in names :: NaN
  }

  lemma InheritedTallyAdd(categories: Object, done: set<string>, k: string)
    requires k in categories && k !in done
    ensures InheritedTally(categories, done + {k}) ==
      InheritedTally(categories, done) + (if ToStr(categories[k]) in INHERITED_NAMES then 1 else 0)
  {
    var before := set x | x in done && x in categories && ToStr(categories[x]) in INHERITED_NAMES;
    var after := set x | x in done + {k} && x in categories && ToStr(categories[x]) in INHERITED_NAMES;
    if ToStr(categories[k]) in INHERITED_NAMES {
      assert after == before + {k};
    } else {
      assert after == before;
    }
  }

  lemma InheritedSeenAdd(categories: Object, done: set<string>, k: string)
    requires k in categories && k !in done
    ensures var c := ToStr(categories[k]);
      InheritedSeen(categories, done + {k}) ==
        InheritedSeen(categories, done) + (if c in INHERITED_NAMES && c != "__proto__" then {c} else {})
  {
  }

  /** Without a stored inherited name, the written stats have no inherited part. */
  lemma InheritedNone(categories: Object, done: set<string>)
    requires forall k :: k in done && k in categories ==> ToStr(categories[k]) !in INHERITED_NAMES
    ensures InheritedTally(categories, done) == 0 && InheritedSeen(categories, done) == {}
    ensures NaNEntries(InheritedSeen(categories, done)) == map[]
  {
    var s := set x | x in done && x in categories && ToStr(categories[x]) in INHERITED_NAMES;
    assert s == {};
  }

  /** The stats object intended: the three tallies and their sum. */
  function Stats(categories: Object, done: set<string>): Object {
    var d := Tally(categories, done, DONT_KNOW);
    var f := Tally(categories, done, FAMILIAR);
    var k := Tally(categories, done, KNOW);
    StatsOf(d, f, k, d + f + k)
  }

  /** A stats object with the given counts. */
  function StatsOf(dontKnow: int, familiar: int, know: int, total: int): Object {
    map[DONT_KNOW := Num(dontKnow), FAMILIAR := Num(familiar), KNOW := Num(know), "total" := Num(total)]
  }

  /** One stored move whose value is the text `total` makes the written total 2 while every category stays 0. */
  lemma StatsAsWrittenCountsTotalTwice()
    ensures var cats := map["international_waltz:bronze:Natural Turn" := Str("total")];
      StatsAsWritten(cats, cats.Keys) == StatsOf(0, 0, 0, 2)
  {
    var key := "international_waltz:bronze:Natural Turn";
    var cats := map[key := Str("total")];
    assert cats.Keys == {} + {key};
    OneMoveTallies(cats, key, "total");
    StatKeysNotInherited();
    InheritedNone(cats, cats.Keys);
    assert StatsAsWritten(cats, cats.Keys) == WrittenOf(0, 0, 0, 1, 0, {});
    assert NaNEntries({}) == map[];
  }

  /**
   * One stored move whose value is the text `constructor` makes the written
   * total 1 and adds an entry `constructor` holding NaN, while every category
   * stays 0.
   */
  lemma StatsAsWrittenCountsInheritedName()
    ensures var cats := map["international_waltz:bronze:Natural Turn" := Str("constructor")];
      StatsAsWritten(cats, cats.Keys) == StatsOf(0, 0, 0, 1)["constructor" := NaN]
  {
    var key := "international_waltz:bronze:Natural Turn";
    var cats := map[key := Str("constructor")];
    assert cats.Keys == {} + {key};
    assert "constructor" in INHERITED_NAMES;
    OneMoveTallies(cats, key, "constructor");
    OneMoveInherited(cats, key, "constructor");
    assert StatsAsWritten(cats, cats.Keys) == WrittenOf(0, 0, 0, 0, 1, {"constructor"});
    OneNaNEntry(StatsOf(0, 0, 0, 1), "constructor");
  }

  lemma OneNaNEntry(st: Object, c: string)
    ensures st + NaNEntries({c}) == st[c := NaN]
  {
    assert NaNEntries({c}) == map[c := NaN];
  }

  /** The inherited part of the written stats over a single stored move whose value is the text `v`. */
  lemma OneMoveInherited(cats: Object, key: string, v: string)
    requires cats == map[key := Str(v)]
    ensures InheritedTally(cats, cats.Keys) == (if v in INHERITED_NAMES then 1 else 0)
    ensures InheritedSeen(cats, cats.Keys) == if v in INHERITED_NAMES && v != "__proto__" then {v} else {}
  {
    InheritedNone(cats, {});
    InheritedTallyAdd(cats, {}, key);
    InheritedSeenAdd(cats, {}, key);
    assert {} + {key} == cats.Keys;
  }

  /** The four tallies over a single stored move whose value is the text `v`. */
  lemma OneMoveTallies(cats: Object, key: string, v: string)
    requires cats == map[key := Str(v)]
    ensures Tally(cats, cats.Keys, DONT_KNOW) == (if v == DONT_KNOW then 1 else 0)
    ensures Tally(cats, cats.Keys, FAMILIAR) == (if v == FAMILIAR then 1 else 0)
    ensures Tally(cats, cats.Keys, KNOW) == (if v == KNOW then 1 else 0)
    ensures Tally(cats, cats.Keys, "total") == (if v == "total" then 1 else 0)
  {
    TallyZero(cats, {}, "total");
    TallyZero(cats, {}, DONT_KNOW);
    TallyZero(cats, {}, FAMILIAR);
    TallyZero(cats, {}, KNOW);
    TallyStep(cats, {}, key);
    assert {} + {key} == cats.Keys;
  }

  /** A stored value outside the three categories leaves the intended stats unchanged. */
  lemma StatsIgnoreOtherValues(categories: Object, k: string, v: Value)
    requires k !in categories
    requires ToStr(v) != DONT_KNOW && ToStr(v) != FAMILIAR && ToStr(v) != KNOW
    ensures Stats(categories[k := v], categories.Keys + {k}) == Stats(categories, categories.Keys)
  {
    TallyIgnore(categories, k, v, DONT_KNOW);
    TallyIgnore(categories, k, v, FAMILIAR);
    TallyIgnore(categories, k, v, KNOW);
  }

  /** A new move whose value does not read as `c` leaves the tally of `c` unchanged. */
  lemma TallyIgnore(categories: Object, k: string, v: Value, c: string)
    requires k !in categories && ToStr(v) != c
    ensures Tally(categories[k := v], categories.Keys + {k}, c) == Tally(categories, categories.Keys, c)
  {
    var c2 := categories[k := v];
    TallyAdd(c2, categories.Keys, k, c);
    assert (set x | x in categories.Keys && x in c2 && ToStr(c2[x]) == c)
        == (set x | x in categories.Keys && x in categories && ToStr(categories[x]) == c);
  }

  /** Both stats objects agree when no stored value reads as `total` or as an inherited name. */
  lemma StatsAgreeWithoutStrayValues(categories: Object, done: set<string>)
    requires forall k :: k in done && k in categories ==>
      ToStr(categories[k]) != "total" && ToStr(categories[k]) !in INHERITED_NAMES
    ensures StatsAsWritten(categories, done) == Stats(categories, done)
  {
    TallyZero(categories, done, "total");
    InheritedNone(categories, done);
  }

  class CategoryStore {
    /** The `@move_categories` item: `None` when nothing is stored. */
    var stored: Option<Object>

    constructor ()
      ensures stored == None
    {
      stored := None;
    }

    /** `getAllMoveCategories`: the stored object, or `{}` when there is none. */
    function AllMoveCategories(): (r: Object)
      reads this
      ensures stored.None? ==> r == map[]
      ensures stored.Some? ==> r == stored.value
    {
      if stored.Some? then stored.value else map[]
    }

    /** `getMoveCategory`: the move's recorded category, or null when it has none. */
    function GetMoveCategory(danceStyle: Value, level: Value, moveName: Value): (r: Value)
      reads this
      ensures r == Null || Truthy(r)
      ensures MoveKey(danceStyle, level, moveName) !in AllMoveCategories() ==> r == Null
      ensures Truthy(r) ==> r == AllMoveCategories()[MoveKey(danceStyle, level, moveName)]
    {
      CategoryAt(AllMoveCategories(), MoveKey(danceStyle, level, moveName))
    }

    /** `getMoveCategoryColor`: transparent exactly when the move has no category. */
    function GetMoveCategoryColor(danceStyle: Value, level: Value, moveName: Value): (r: Value)
      reads this
      ensures r == Str("transparent") <==> GetMoveCategory(danceStyle, level, moveName) == Null
      ensures GetMoveCategory(danceStyle, level, moveName) == Str(KNOW) ==> r == Str("#ccffcc")
      ensures GetMoveCategory(danceStyle, level, moveName) == Str(FAMILIAR) ==> r == Str("#fff9cc")
      ensures GetMoveCategory(danceStyle, level, moveName) == Str(DONT_KNOW) ==> r == Str("#ffcccc")
    {
      ColorOf(GetMoveCategory(danceStyle, level, moveName))
    }

    /** `setMoveCategory`: records `category` under the move's key; every other key keeps its value. */
    method SetMoveCategory(danceStyle: Value, level: Value, moveName: Value, category: Value) returns (ok: bool)
      modifies this
      ensures stored == Some(old(AllMoveCategories())[MoveKey(danceStyle, level, moveName) := category])
      ensures GetMoveCategory(danceStyle, level, moveName) == Or(category, Null)
      ensures forall k :: k != MoveKey(danceStyle, level, moveName) ==>
        Get(AllMoveCategories(), k) == Get(old(AllMoveCategories()), k)
      ensures ok
    {
      var categories := AllMoveCategories();
      var key := MoveKey(danceStyle, level, moveName);
      categories := categories[key := category];
      stored := Some(categories);
      ok := true;
    }

    /** `removeMoveCategory`: drops the move's key; the move then reads as uncategorised. */
    method RemoveMoveCategory(danceStyle: Value, level: Value, moveName: Value) returns (ok: bool)
      modifies this
      ensures stored == Some(old(AllMoveCategories()) - {MoveKey(danceStyle, level, moveName)})
      ensures GetMoveCategory(danceStyle, level, moveName) == Null
      ensures forall k :: k != MoveKey(danceStyle, level, moveName) ==>
        Get(AllMoveCategories(), k) == Get(old(AllMoveCategories()), k)
      ensures ok
    {
      var categories := AllMoveCategories();
      var key := MoveKey(danceStyle, level, moveName);
      categories := categories - {key};
      stored := Some(categories);
      ok := true;
    }

    /** `clearAllCategories`: removes the item, so every move reads as uncategorised. */
    method ClearAllCategories() returns (ok: bool)
      modifies this
      ensures stored == None && AllMoveCategories() == map[]
      ensures ok
    {
      stored := None;
      ok := true;
    }

    /**
     * `getCategoryStats` as written: `stats[category] !== undefined` holds for
     * the four own keys of `stats`, `total` among them, and for every inherited
     * name; each such value bumps its entry and `stats.total`.
     */
    method CategoryStatsAsWritten() returns (stats: Object)
      ensures stats == StatsAsWritten(AllMoveCategories(), AllMoveCategories().Keys)
    {
      var categories := AllMoveCategories();
      StatsStart(categories);
      stats := INITIAL_STATS;
      var rest := categories.Keys;
      while rest != {}
        invariant rest <= categories.Keys
        invariant stats == StatsAsWritten(categories, categories.Keys - rest)
        decreases |rest|
      {
        var k :| k in rest;
        StepAsWritten(categories, categories.Keys - rest, k);
        assert (categories.Keys - rest) + {k} == categories.Keys - (rest - {k});
        var category := ToStr(categories[k]);
        if category in stats || category in INHERITED_NAMES {
          // a built-in read through an inherited name becomes NaN; `__proto__` takes no number
          if category != "__proto__" {
            stats := stats[category := Increment(Get(stats, category))];
          }
          stats := stats["total" := Increment(Get(stats, "total"))];
        }
        rest := rest - {k};
      }
      assert categories.Keys - rest == categories.Keys;
    }

    /** `getCategoryStats` counting only the three categories, so that `total` is their sum. */
    method CategoryStats() returns (stats: Object)
      ensures stats == Stats(AllMoveCategories(), AllMoveCategories().Keys)
    {
      var categories := AllMoveCategories();
      StatsStart(categories);
      stats := INITIAL_STATS;
      var rest := categories.Keys;
      while rest != {}
        invariant rest <= categories.Keys
        invariant stats == Stats(categories, categories.Keys - rest)
        decreases |rest|
      {
        var k :| k in rest;
        Step(categories, categories.Keys - rest, k);
        assert (categories.Keys - rest) + {k} == categories.Keys - (rest - {k});
        var category := ToStr(categories[k]);
        if IsCategory(category) {
          stats := stats[category := Increment(stats[category])];
          stats := stats["total" := Increment(Get(stats, "total"))];
        }
        rest := rest - {k};
      }
      assert categories.Keys - rest == categories.Keys;
    }
  }

  lemma StatsStart(categories: Object)
    ensures StatsAsWritten(categories, {}) == INITIAL_STATS
    ensures Stats(categories, {}) == INITIAL_STATS
    ensures categories.Keys - categories.Keys == {}
  {
    TallyZero(categories, {}, DONT_KNOW);
    TallyZero(categories, {}, FAMILIAR);
    TallyZero(categories, {}, KNOW);
    TallyZero(categories, {}, "total");
    InheritedNone(categories, {});
  }

  /** `v++` on a stored count. */
  function Increment(v: Value): Value {
    if v.Num? then Num(v.n + 1) else NaN
  }

  /** One of the three categories a move can be given. */
  predicate IsCategory(c: string) {
    c == DONT_KNOW || c == FAMILIAR || c == KNOW
  }

  /** `stats[category]++` followed by `stats.total++`. */
  function Bump(st: Object, c: string): Object
    requires c in st
  {
    var st1 := st[c := Increment(st[c])];
    st1["total" := Increment(Get(st1, "total"))]
  }

  /** Bumping a stats object raises the category's count and the total; bumping `total` raises the total twice. */
  lemma BumpStats(d: int, f: int, k: int, t: int, c: string)
    requires c in StatsOf(d, f, k, t)
    ensures Bump(StatsOf(d, f, k, t), c) ==
      if c == DONT_KNOW then StatsOf(d + 1, f, k, t + 1)
      else if c == FAMILIAR then StatsOf(d, f + 1, k, t + 1)
      else if c == KNOW then StatsOf(d, f, k + 1, t + 1)
      else StatsOf(d, f, k, t + 2)
  {
  }

  /**
   * One visit of the loop as written, for a value that reads as `c`: when
   * `stats[c] !== undefined`, `stats[c]++` (a built-in read through an
   * inherited name becomes NaN, and `__proto__` ignores the number) and then
   * `stats.total++`.
   */
  function BumpAsWritten(st: Object, c: string): Object {
    if c in st || c in INHERITED_NAMES then CountVisit(st, c) else st
  }

  /** The body of that visit: `stats[c]++` unless `c` is `__proto__`, then `stats.total++`. */
  function CountVisit(st: Object, c: string): Object {
    var st1 := if c == "__proto__" then st else st[c := Increment(Get(st, c))];
    st1["total" := Increment(Get(st1, "total"))]
  }

  /** Visiting one more move adds one to its category and to the total, counting `total` twice and an inherited name once. */
  lemma StepAsWritten(categories: Object, done: set<string>, k: string)
    requires k in categories && k !in done
    ensures StatsAsWritten(categories, done + {k}) ==
      BumpAsWritten(StatsAsWritten(categories, done), ToStr(categories[k]))
  {
    var c := ToStr(categories[k]);
    var d := Tally(categories, done, DONT_KNOW);
    var f := Tally(categories, done, FAMILIAR);
    var n := Tally(categories, done, KNOW);
    var t := Tally(categories, done, "total");
    var p := InheritedTally(categories, done);
    var seen := InheritedSeen(categories, done);
    var isInherited := c in INHERITED_NAMES;
    var d' := Tally(categories, done + {k}, DONT_KNOW);
    var f' := Tally(categories, done + {k}, FAMILIAR);
    var n' := Tally(categories, done + {k}, KNOW);
    var t' := Tally(categories, done + {k}, "total");
    var p' := InheritedTally(categories, done + {k});
    var seen' := InheritedSeen(categories, done + {k});
    assert StatsAsWritten(categories, done) == WrittenOf(d, f, n, t, p, seen);
    assert StatsAsWritten(categories, done + {k}) == WrittenOf(d', f', n', t', p', seen');
    TallyStep(categories, done, k);
    InheritedTallyAdd(categories, done, k);
    InheritedSeenAdd(categories, done, k);
    StatKeysNotInherited();
    WrittenStep(d, f, n, t, p, seen, INHERITED_NAMES, c);
  }

  /**
   * The written stats after one more move whose value reads as `c`, in terms
   * of the tallies and the inherited names seen; `inherited` stands for the
   * inherited names, which the four stats keys are not.
   */
  lemma WrittenStep(d: int, f: int, n: int, t: int, p: int, seen: set<string>, inherited: set<string>, c: string)
    requires seen <= inherited && "__proto__" !in seen
    requires DONT_KNOW !in inherited && FAMILIAR !in inherited && KNOW !in inherited && "total" !in inherited
    ensures var st := WrittenOf(d, f, n, t, p, seen);
      var isInherited := c in inherited;
      var d' := d + (if c == DONT_KNOW then 1 else 0);
      var f' := f + (if c == FAMILIAR then 1 else 0);
      var n' := n + (if c == KNOW then 1 else 0);
      var t' := t + (if c == "total" then 1 else 0);
      var p' := p + (if isInherited then 1 else 0);
      var seen' := seen + (if isInherited && c != "__proto__" then {c} else {});
      WrittenOf(d', f', n', t', p', seen') ==
        if c in st || isInherited then CountVisit(st, c) else st
  {
    var total := d + f + n + 2 * t + p;
    var st := WrittenOf(d, f, n, t, p, seen);
    assert seen + {} == seen;
    if IsCategory(c) || c == "total" {
      assert c !in inherited;
      WrittenStepCategory(d, f, n, t, p, seen, c);
    } else if c in inherited {
      var seen' := seen + (if c != "__proto__" then {c} else {});
      WrittenStepInherited(d, f, n, total, seen, c);
      assert WrittenOf(d, f, n, t, p + 1, seen') == StatsOf(d, f, n, total + 1) + NaNEntries(seen');
    } else {
      assert c !in NaNEntries(seen);
      assert c !in st;
    }
  }

  /** The written stats after one more move whose value is one of the four stats keys. */
  lemma WrittenStepCategory(d: int, f: int, n: int, t: int, p: int, seen: set<string>, c: string)
    requires DONT_KNOW !in seen && FAMILIAR !in seen && KNOW !in seen && "total" !in seen
    requires IsCategory(c) || c == "total"
    ensures var d' := d + (if c == DONT_KNOW then 1 else 0);
      var f' := f + (if c == FAMILIAR then 1 else 0);
      var n' := n + (if c == KNOW then 1 else 0);
      var t' := t + (if c == "total" then 1 else 0);
      c in WrittenOf(d, f, n, t, p, seen) && WrittenOf(d', f', n', t', p, seen) == CountVisit(WrittenOf(d, f, n, t, p, seen), c)
  {
    var total := d + f + n + 2 * t + p;
    WrittenStepOwnKey(d, f, n, total, seen, c);
    BumpStats(d, f, n, total, c);
  }

  /** None of the four keys of a stats object is an inherited name. */
  lemma StatKeysNotInherited()
    ensures DONT_KNOW !in INHERITED_NAMES && FAMILIAR !in INHERITED_NAMES
    ensures KNOW !in INHERITED_NAMES && "total" !in INHERITED_NAMES
  {
  }

  /** An update of a key outside `b` happens in the left operand of `a + b`. */
  lemma UpdateLeft(a: Object, b: Object, c: string, v: Value)
    requires c !in b
    ensures (a + b)[c := v] == a[c := v] + b
  {
  }

  /** A bump of one of the four own keys leaves the NaN entries alone. */
  lemma WrittenStepOwnKey(d: int, f: int, n: int, total: int, seen: set<string>, c: string)
    requires DONT_KNOW !in seen && FAMILIAR !in seen && KNOW !in seen && "total" !in seen
    requires c in StatsOf(d, f, n, total)
    ensures CountVisit(StatsOf(d, f, n, total) + NaNEntries(seen), c) == Bump(StatsOf(d, f, n, total), c) + NaNEntries(seen)
  {
    var stats := StatsOf(d, f, n, total);
    var names := NaNEntries(seen);
    var v := Increment(stats[c]);
    assert c !in names && "total" !in names;
    UpdateLeft(stats, names, c, v);
    UpdateLeft(stats[c := v], names, "total", Increment(Get(stats[c := v], "total")));
  }

  /** A visit through an inherited name adds its NaN entry (none for `__proto__`) and one to the total. */
  lemma WrittenStepInherited(d: int, f: int, n: int, total: int, seen: set<string>, c: string)
    requires "__proto__" !in seen && "total" !in seen
    requires c !in StatsOf(d, f, n, total)
    ensures var seen' := seen + (if c != "__proto__" then {c} else {});
      CountVisit(StatsOf(d, f, n, total) + NaNEntries(seen), c) == StatsOf(d, f, n, total + 1) + NaNEntries(seen')
  {
    var stats := StatsOf(d, f, n, total);
    var seen' := seen + (if c != "__proto__" then {c} else {});
    var names' := NaNEntries(seen');
    var st := stats + NaNEntries(seen);
    var st1 := if c == "__proto__" then st else st[c := Increment(Get(st, c))];
    if c == "__proto__" {
      assert seen' == seen;
    } else {
      assert Increment(Get(st, c)) == NaN;
      UpdateRight(stats, NaNEntries(seen), c, NaN);
      NaNEntriesAdd(seen, c);
    }
    assert st1 == stats + names';
    assert "total" !in names';
    assert Get(st1, "total") == Num(total);
    UpdateLeft(stats, names', "total", Num(total + 1));
  }

  /** An update of a key outside `a` happens in the right operand of `a + b`. */
  lemma UpdateRight(a: Object, b: Object, c: string, v: Value)
    requires c !in a
    ensures (a + b)[c := v] == a + b[c := v]
  {
  }

  lemma NaNEntriesAdd(names: set<string>, c: string)
    ensures NaNEntries(names)[c := NaN] == NaNEntries(names + {c})
  {
  }

  /** Visiting one more move adds one to its category and to the total when it is one of the three. */
  lemma Step(categories: Object, done: set<string>, k: string)
    requires k in categories && k !in done
    ensures var st := Stats(categories, done);
      var c := ToStr(categories[k]);
      Stats(categories, done + {k}) ==
        if IsCategory(c) then Bump(st, c) else st
  {
    TallyAdd(categories, done, k, DONT_KNOW);
    TallyAdd(categories, done, k, FAMILIAR);
    TallyAdd(categories, done, k, KNOW);
    var c := ToStr(categories[k]);
    var d := Tally(categories, done, DONT_KNOW);
    var f := Tally(categories, done, FAMILIAR);
    var n := Tally(categories, done, KNOW);
    if IsCategory(c) {
      BumpStats(d, f, n, d + f + n, c);
    }
  }

  /** The four tallies after one more move: only the one its value names goes up. */
  lemma TallyStep(categories: Object, done: set<string>, k: string)
    requires k in categories && k !in done
    ensures var c := ToStr(categories[k]);
      && Tally(categories, done + {k}, DONT_KNOW) == Tally(categories, done, DONT_KNOW) + (if c == DONT_KNOW then 1 else 0)
      && Tally(categories, done + {k}, FAMILIAR) == Tally(categories, done, FAMILIAR) + (if c == FAMILIAR then 1 else 0)
      && Tally(categories, done + {k}, KNOW) == Tally(categories, done, KNOW) + (if c == KNOW then 1 else 0)
      && Tally(categories, done + {k}, "total") == Tally(categories, done, "total") + (if c == "total" then 1 else 0)
  {
    TallyAdd(categories, done, k, DONT_KNOW);
    TallyAdd(categories, done, k, FAMILIAR);
    TallyAdd(categories, done, k, KNOW);
    TallyAdd(categories, done, k, "total");
  }
}
