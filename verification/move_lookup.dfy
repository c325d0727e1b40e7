/**
 * The catalog lookups the routine and step editors share: finding a move of
 * a style by name, its default counts, the timing and rotation choices it
 * offers, the label of a rotation, and the level a move is listed under.
 * Both editors define these the same way; the move list of a style
 * (`getAllMovesForStyle`) is an input.
 */
module MoveLookup {
  import opened Options
  import opened Text
  import opened Values
  import opened Seqs
  import opened Catalog

  /** The editors' `find` test: an object matches on `name`, anything else on itself. */
  predicate NamesMove(m: Value, name: Value) {
    if IsObjectLike(m) then StrictEq(Prop(m, "name"), name) else StrictEq(m, name)
  }

  /** `moves.find(...)` with the editors' test: the catalog entry for `name`. */
  function CatalogMove(moves: seq<Value>, name: Value): Option<Value> {
    Find(moves, (m: Value) => NamesMove(m, name))
  }

  /** Index `i` holds the first entry of `moves` that names `name`. */
  predicate FirstNaming(moves: seq<Value>, name: Value, i: int) {
    0 <= i < |moves| && NamesMove(moves[i], name) && forall j :: 0 <= j < i ==> !NamesMove(moves[j], name)
  }

  lemma CatalogMoveFirst(moves: seq<Value>, name: Value)
    ensures CatalogMove(moves, name).None? <==> forall j :: 0 <= j < |moves| ==> !NamesMove(moves[j], name)
    ensures CatalogMove(moves, name).Some? ==>
      exists i :: FirstNaming(moves, name, i) && moves[i] == CatalogMove(moves, name).value
  {
    var r := CatalogMove(moves, name);
    if r.Some? {
      var i :| 0 <= i < |moves| && moves[i] == r.value && NamesMove(moves[i], name)
        && (forall k :: 0 <= k < i ==> !NamesMove(moves[k], name));
      assert FirstNaming(moves, name, i);
    }
  }

  /** `getDefaultCounts`: the catalog's `counts` when the move is found as an object, 8 otherwise. */
  function DefaultCounts(moves: seq<Value>, name: Value): (r: Value)
    ensures (forall j :: 0 <= j < |moves| ==> !NamesMove(moves[j], name)) ==> r == Num(8)
    ensures forall i :: FirstNaming(moves, name, i) ==>
      r == (if IsObjectLike(moves[i]) then Prop(moves[i], "counts") else Num(8))
  {
    CatalogMoveFirst(moves, name);
    var found := CatalogMove(moves, name);
    assert forall i, k :: FirstNaming(moves, name, i) && FirstNaming(moves, name, k) ==> i == k;
    if found.Some? && Truthy(found.value) && IsObjectLike(found.value) then Prop(found.value, "counts")
    else Num(8)
  }

  /** A catalog move offers a choice of timings when it has a truthy `repeatableSection` and `counts`. */
  predicate HasVariableTiming(move: Option<Value>) {
    && move.Some? && Truthy(move.value) && IsObjectLike(move.value)
    && Truthy(Prop(move.value, "repeatableSection")) && Truthy(Prop(move.value, "counts"))
  }

  /**
   * `getTimingOptions`: the base counts followed by the base plus one to
   * five repetitions of the repeatable section, or nothing.
   */
  method TimingOptions(moves: seq<Value>, name: Value) returns (options: seq<Value>)
    ensures var found := CatalogMove(moves, name);
      if HasVariableTiming(found) then
        var c := Prop(found.value, "counts");
        var r := Prop(found.value, "repeatableSection");
        && |options| == 6 && options[0] == c
        && (forall i :: 1 <= i < 6 ==> options[i] == Plus(c, Times(i, r)))
        && (c.Num? && r.Num? ==> forall i :: 0 <= i < 6 ==> options[i] == Num(c.n + i * r.n))
      else options == []
  {
    var found := CatalogMove(moves, name);
    if found.Some? && Truthy(found.value) && IsObjectLike(found.value) {
      var moveData := found.value;
      if Truthy(Prop(moveData, "repeatableSection")) && Truthy(Prop(moveData, "counts")) {
        options := RepeatOptions(Prop(moveData, "counts"), Prop(moveData, "repeatableSection"));
        return;
      }
    }
    options := [];
  }

  /** The loop of `getTimingOptions`: the base counts, then the base plus one to five repetitions. */
  method RepeatOptions(baseCounts: Value, repeatSection: Value) returns (options: seq<Value>)
    ensures |options| == 6 && options[0] == baseCounts
    ensures forall i :: 1 <= i < 6 ==> options[i] == Plus(baseCounts, Times(i, repeatSection))
    ensures baseCounts.Num? && repeatSection.Num? ==>
      forall i :: 0 <= i < 6 ==> options[i] == Num(baseCounts.n + i * repeatSection.n)
  {
    options := [baseCounts];
    for i := 1 to 6
      invariant |options| == i && options[0] == baseCounts
      invariant forall k :: 1 <= k < i ==> options[k] == Plus(baseCounts, Times(k, repeatSection))
    {
      options := options + [Plus(baseCounts, Times(i, repeatSection))];
    }
    TimingArithmetic(options, baseCounts, repeatSection);
  }

  /** With numeric counts and section, the options are the base plus 0 to 5 repetitions. */
  lemma TimingArithmetic(options: seq<Value>, c: Value, r: Value)
    requires |options| == 6 && options[0] == c
    requires forall i :: 1 <= i < 6 ==> options[i] == Plus(c, Times(i, r))
    ensures c.Num? && r.Num? ==> forall i :: 0 <= i < 6 ==> options[i] == Num(c.n + i * r.n)
  {
    if c.Num? && r.Num? {
      forall i | 1 <= i < 6 ensures options[i] == Num(c.n + i * r.n) {
        assert Times(i, r) == Num(i * r.n);
      }
    }
  }

  /** The catalog entry is an object move with a truthy `rotation`. */
  predicate HasRotation(found: Option<Value>) {
    found.Some? && Truthy(found.value) && IsObjectLike(found.value) && Truthy(Prop(found.value, "rotation"))
  }

  /** `getMoveRotation`: the catalog `rotation` when the move has a truthy one, otherwise `[0, 0]`; never falsy. */
  function MoveRotation(moves: seq<Value>, name: Value): (r: Value)
    ensures Truthy(r)
    ensures HasRotation(CatalogMove(moves, name)) ==> r == Prop(CatalogMove(moves, name).value, "rotation")
    ensures !HasRotation(CatalogMove(moves, name)) ==> r == Arr([Num(0), Num(0)])
  {
    var found := CatalogMove(moves, name);
    if HasRotation(found) then Prop(found.value, "rotation") else Arr([Num(0), Num(0)])
  }

  /** `v[k]`: an array element, a one-character string, or an own property named by the index. */
  function Index(v: Value, k: nat): Value {
    if v.Arr? then (if k < |v.items| then v.items[k] else Undefined)
    else if v.Str? then (if k < |v.s| then Str([v.s[k]]) else Undefined)
    else if v.Obj? then Get(v.fields, NumberText(k))
    else Undefined
  }

  /**
   * The number `Math.min`/`Math.max` make of an argument (`Number(v)`);
   * `None` is NaN. An array is read through its joined text, a plain object
   * is NaN.
   */
  function NumberArg(v: Value): (r: Option<int>)
    ensures v.Str? || v.Arr? ==> r == StringNumber(ToStr(v))
    ensures v.Obj? || v.Undefined? || v.NaN? ==> r.None?
  {
    if v.Str? || v.Arr? then StringNumber(ToStr(v))
    else if v.Obj? then None
    else ToNumber(v)
  }

  /** Numeric text and a one-element array holding a number read as that number. */
  lemma NumberArgText(n: int)
    ensures NumberArg(Str(NumberText(n))) == Some(n)
    ensures NumberArg(Arr([Num(n)])) == Some(n)
  {
    StringNumberText(n);
    JoinSingle(Num(n));
  }

  /** A rotation written as texts is read like the numbers: `["0", "90"]` ranges from 0 to 90. */
  lemma RotationRangeOfText()
    ensures RotationRange(Arr([Str("0"), Str("90")])) == Some((0, 90))
  {
    var rotation := Arr([Str("0"), Str("90")]);
    assert Index(rotation, 0) == Str("0");
    assert Index(rotation, 1) == Str("90");
    ZeroAndNinetyText();
  }

  /** The texts `"0"` and `"90"` read as 0 and 90. */
  lemma ZeroAndNinetyText()
    ensures NumberArg(Str("0")) == Some(0) && NumberArg(Str("90")) == Some(90)
  {
    NumberArgText(0);
    NumberArgText(90);
    assert NumberText(0) == "0";
    NinetyText();
  }

  lemma NinetyText()
    ensures NumberText(90) == "90"
  {
    assert Decimal(90) == Decimal(9) + [DigitChar(0)];
  }

  /**
   * `[Math.min(r[0], r[1]), Math.max(r[0], r[1])]`: the two bounds in order,
   * or `None` exactly when either bound is NaN.
   */
  function RotationRange(rotation: Value): (r: Option<(int, int)>)
    ensures r.None? <==> NumberArg(Index(rotation, 0)).None? || NumberArg(Index(rotation, 1)).None?
    ensures r.Some? ==> r.value.0 <= r.value.1
    ensures r.Some? ==>
      var a := NumberArg(Index(rotation, 0)).value;
      var b := NumberArg(Index(rotation, 1)).value;
      r.value == (a, b) || r.value == (b, a)
  {
    match (NumberArg(Index(rotation, 0)), NumberArg(Index(rotation, 1)))
    case (Some(a), Some(b)) => Some(if a <= b then (a, b) else (b, a))
    case _ => None
  }

  /** A move without a catalog rotation turns from 0 to 0. */
  lemma DefaultRotationRange()
    ensures RotationRange(Arr([Num(0), Num(0)])) == Some((0, 0))
  {
    assert NumberArg(Index(Arr([Num(0), Num(0)]), 0)) == Some(0);
  }

  /**
   * `getRotationOptions`: the angles from the smaller bound upwards in steps
   * of 45 degrees while they do not pass the larger bound. The last option
   * is the largest such angle, which need not be the larger bound itself.
   */
  method RotationOptions(moves: seq<Value>, name: Value) returns (options: seq<int>)
    ensures RotationRange(MoveRotation(moves, name)).None? ==> options == []
    ensures RotationRange(MoveRotation(moves, name)).Some? ==>
      var lo := RotationRange(MoveRotation(moves, name)).value.0;
      var hi := RotationRange(MoveRotation(moves, name)).value.1;
      && |options| == (hi - lo) / 45 + 1
      && (forall k :: 0 <= k < |options| ==> options[k] == lo + 45 * k)
      && options[|options| - 1] <= hi < options[|options| - 1] + 45
    ensures CatalogMove(moves, name).None? ==> options == [0]
  {
    options := [];
    if CatalogMove(moves, name).None? {
      DefaultRotationRange();
    }
    var range := RotationRange(MoveRotation(moves, name));
    if range.None? {
      return;
    }
    options := AnglesBetween(range.value.0, range.value.1);
  }

  /** The `for` loop of `getRotationOptions`: `deg` from `lo` while `deg <= hi`, stepping by 45. */
  method AnglesBetween(lo: int, hi: int) returns (options: seq<int>)
    requires lo <= hi
    ensures |options| == (hi - lo) / 45 + 1
    ensures forall k :: 0 <= k < |options| ==> options[k] == lo + 45 * k
    ensures options[|options| - 1] <= hi < options[|options| - 1] + 45
  {
    options := [];
    var deg := lo;
    while deg <= hi
      invariant lo <= deg <= hi + 45
      invariant (deg - lo) % 45 == 0
      invariant |options| == (deg - lo) / 45
      invariant forall k :: 0 <= k < |options| ==> options[k] == lo + 45 * k
      decreases hi - deg
    {
      options := options + [deg];
      deg := deg + 45;
    }
  }

  /** The degree sign as the source file spells it: the two characters U+00AC and U+221E, the UTF-8 bytes of a degree sign decoded as Mac Roman. */
  const DEGREE_SIGN_AS_WRITTEN: string := "\U{00AC}\U{221E}"

  /** The degree sign. */
  const DEGREE_SIGN: string := "\U{00B0}"

  /** `Math.round(a / 45)` for a non-negative `a`: halves round up. */
  function Eighths(a: nat): (e: nat)
    ensures 90 * e - 45 <= 2 * a < 90 * e + 45
  {
    (2 * a + 45) / 90
  }

  /** The label `formatRotation` builds, with `glyph` as its degree sign. */
  function RotationLabel(degrees: int, glyph: string): string {
    var abs: nat := if degrees < 0 then -degrees else degrees;
    var direction := if degrees < 0 then " Left" else if degrees > 0 then " Right" else "";
    if degrees == 0 then "No Rotation"
    else if abs == 90 then "1/4 Turn" + direction
    else if abs == 180 then "1/2 Turn" + direction
    else if abs == 270 then "3/4 Turn" + direction
    else if abs == 360 then "Full Turn" + direction
    else NumberText(Eighths(abs)) + "/8 Turn" + direction + " (" + NumberText(abs) + glyph + ")"
  }

  /** `formatRotation` exactly as written, with the mis-decoded degree sign. */
  function FormatRotationAsWritten(degrees: int): string {
    RotationLabel(degrees, DEGREE_SIGN_AS_WRITTEN)
  }

  /** `formatRotation` with the degree sign it evidently means. */
  function FormatRotation(degrees: int): string {
    RotationLabel(degrees, DEGREE_SIGN)
  }

  /** The angles `formatRotation` names instead of counting eighths. */
  predicate NamedTurn(degrees: int) {
    degrees == 90 || degrees == -90 || degrees == 180 || degrees == -180
    || degrees == 270 || degrees == -270 || degrees == 360 || degrees == -360
  }

  /** No turn at all is labelled `No Rotation`, with no direction and no angle. */
  lemma FormatRotationZero()
    ensures FormatRotation(0) == "No Rotation"
    ensures FormatRotationAsWritten(0) == FormatRotation(0)
  {
  }

  /** The quarter turns and the full turn get names; the direction follows the sign. */
  lemma FormatRotationNamedTurns(degrees: int)
    requires NamedTurn(degrees)
    ensures var direction := if degrees < 0 then " Left" else " Right";
      var abs := if degrees < 0 then -degrees else degrees;
      FormatRotation(degrees) ==
        (if abs == 90 then "1/4 Turn" else if abs == 180 then "1/2 Turn"
         else if abs == 270 then "3/4 Turn" else "Full Turn") + direction
  {
  }

  /**
   * Any other angle is labelled with its nearest number of eighths (halves
   * rounding up), the direction, and then the absolute angle in degrees.
   */
  lemma FormatRotationEighths(degrees: int)
    requires degrees != 0
    requires !NamedTurn(degrees)
    ensures var abs := if degrees < 0 then -degrees else degrees;
      exists e: nat ::
        && 90 * e - 45 <= 2 * abs < 90 * e + 45
        && FormatRotation(degrees) == NumberText(e) + "/8 Turn" + (if degrees < 0 then " Left" else " Right")
             + " (" + NumberText(abs) + DEGREE_SIGN + ")"
  {
    var abs: nat := if degrees < 0 then -degrees else degrees;
    var e := Eighths(abs);
    assert FormatRotation(degrees) == NumberText(e) + "/8 Turn" + (if degrees < 0 then " Left" else " Right")
             + " (" + NumberText(abs) + DEGREE_SIGN + ")";
  }

  /** A 45-degree turn to the right: the direction comes before the angle. */
  lemma FormatRotationFortyFive()
    ensures FormatRotation(45) == "1/8 Turn Right (45\U{00B0})"
  {
    LabelFortyFive(DEGREE_SIGN);
  }

  /** The label of a 45-degree turn with any degree sign. */
  lemma LabelFortyFive(glyph: string)
    ensures RotationLabel(45, glyph) == "1/8 Turn Right (45" + glyph + ")"
  {
    assert Eighths(45) == 1;
    assert NumberText(1) == "1";
    TwoDigits(45);
  }

  /** 22 degrees is nearer no turn than an eighth. */
  lemma FormatRotationRoundsDown()
    ensures FormatRotation(22) == "0/8 Turn Right (22\U{00B0})"
  {
    assert Eighths(22) == 0;
    assert NumberText(0) == "0";
    TwoDigits(22);
  }

  /** 23 degrees to the left rounds to one eighth. */
  lemma FormatRotationRoundsUp()
    ensures FormatRotation(-23) == "1/8 Turn Left (23\U{00B0})"
  {
    assert Eighths(23) == 1;
    assert NumberText(1) == "1";
    TwoDigits(23);
  }

  /** A two-digit number is written as its two digits. */
  lemma TwoDigits(n: nat)
    requires 10 <= n < 100
    ensures NumberText(n) == [DigitChar(n / 10), DigitChar(n % 10)]
  {
    assert Decimal(n) == Decimal(n / 10) + [DigitChar(n % 10)];
  }

  /** As written, the label of a 45-degree turn carries U+00AC U+221E where a degree sign (U+00B0) belongs. */
  lemma FormatRotationGlyphDiffers()
    ensures FormatRotationAsWritten(45) == "1/8 Turn Right (45\U{00AC}\U{221E})"
    ensures FormatRotationAsWritten(45) != FormatRotation(45)
  {
    LabelFortyFive(DEGREE_SIGN_AS_WRITTEN);
    FormatRotationFortyFive();
    var written := FormatRotationAsWritten(45);
    assert written == "1/8 Turn Right (45\U{00AC}\U{221E})";
    assert written[18] != FormatRotation(45)[18];
  }

  /** Some entry of `items` is an object named `name`. */
  predicate HoldsNamed(items: seq<Value>, name: Value) {
    exists m :: 0 <= m < |items| && ObjectNamed(items[m], name)
  }

  /** The move named `name` is an object entry of `items` (`typeof m === "object" && m.name === name`). */
  predicate ObjectNamed(m: Value, name: Value) {
    IsObjectLike(m) && StrictEq(Prop(m, "name"), name)
  }

  /** The first level of a style whose array holds an object named `name`. */
  function LevelOf(entries: seq<(string, Value)>, name: Value): (r: Option<string>)
    ensures r.Some? ==>
      exists j :: 0 <= j < |entries| && entries[j] == (r.value, entries[j].1) && entries[j].1.Arr?
        && HoldsNamed(entries[j].1.items, name)
        && forall i :: 0 <= i < j && entries[i].1.Arr? ==> !HoldsNamed(entries[i].1.items, name)
    ensures r.None? ==>
      forall j :: 0 <= j < |entries| && entries[j].1.Arr? ==> !HoldsNamed(entries[j].1.items, name)
    decreases |entries|
  {
    if entries == [] then None
    else if entries[0].1.Arr? && Find(entries[0].1.items, (m: Value) => ObjectNamed(m, name)).Some? then
      assert entries[0] == (entries[0].0, entries[0].1);
      Some(entries[0].0)
    else
      var r := LevelOf(entries[1..], name);
      assert entries[0].1.Arr? ==> !HoldsNamed(entries[0].1.items, name);
      assert r.Some? ==>
        exists j :: 0 <= j < |entries| && entries[j] == (r.value, entries[j].1) && entries[j].1.Arr?
          && HoldsNamed(entries[j].1.items, name)
          && forall i :: 0 <= i < j && entries[i].1.Arr? ==> !HoldsNamed(entries[i].1.items, name)
      by {
        if r.Some? {
          var rest := entries[1..];
          var j :| 0 <= j < |rest| && rest[j] == (r.value, rest[j].1)
            && rest[j].1.Arr? && HoldsNamed(rest[j].1.items, name)
            && forall i :: 0 <= i < j && rest[i].1.Arr? ==> !HoldsNamed(rest[i].1.items, name);
          assert entries[j + 1] == rest[j];
          forall i | 0 <= i < j + 1 && entries[i].1.Arr? ensures !HoldsNamed(entries[i].1.items, name) {
            if i > 0 {
              assert entries[i] == rest[i - 1];
            }
          }
        }
      }
      assert r.None? ==>
        forall j :: 0 <= j < |entries| && entries[j].1.Arr? ==> !HoldsNamed(entries[j].1.items, name)
      by {
        if r.None? {
          forall j | 0 <= j < |entries| && entries[j].1.Arr? ensures !HoldsNamed(entries[j].1.items, name) {
            if j > 0 {
              assert entries[j] == entries[1..][j - 1];
            }
          }
        }
      }
      r
  }

  /** The catalog key of a routine's or step's `danceStyle` (`danceStyle?.toLowerCase().replace(...)`). */
  function StyleKeyOf(danceStyle: Value): string {
    if danceStyle.Str? then StyleKey(danceStyle.s) else "undefined"
  }

  /**
   * `findMoveLevel`: the level, in catalog order, of the first level array of
   * the style holding an object with that name; null when the style is not
   * an object or no level has it.
   */
  method FindMoveLevel(c: DanceMoves, moveName: Value, danceStyle: Value) returns (level: Value)
    ensures LookupStyle(c, StyleKeyOf(danceStyle)).None? || LookupStyle(c, StyleKeyOf(danceStyle)).value.NotObject? ==>
      level == Null
    ensures LookupStyle(c, StyleKeyOf(danceStyle)).Some? && LookupStyle(c, StyleKeyOf(danceStyle)).value.Levels? ==>
      var found := LevelOf(LookupStyle(c, StyleKeyOf(danceStyle)).value.entries, moveName);
      level == (if found.Some? then Str(found.value) else Null)
  {
    var styleData := LookupStyle(c, StyleKeyOf(danceStyle));
    if styleData.None? || styleData.value.NotObject? {
      return Null;
    }
    var entries := styleData.value.entries;
    var i := 0;
    while i < |entries|
      invariant 0 <= i <= |entries|
      invariant LevelOf(entries, moveName) == LevelOf(entries[i..], moveName)
    {
      var (lvl, movesArray) := entries[i];
      LevelOfStep(entries, i, moveName);
      if movesArray.Arr? {
        var foundMove := Find(movesArray.items, (m: Value) => ObjectNamed(m, moveName));
        if foundMove.Some? {
          return Str(lvl);
        }
      }
      i := i + 1;
    }
    return Null;
  }

  /** One step of the level search: the level at `i` if its array holds the move, else the search from `i + 1`. */
  lemma LevelOfStep(entries: seq<(string, Value)>, i: nat, name: Value)
    requires i < |entries|
    ensures LevelOf(entries[i..], name) ==
      if entries[i].1.Arr? && Find(entries[i].1.items, (m: Value) => ObjectNamed(m, name)).Some? then Some(entries[i].0)
      else LevelOf(entries[i + 1..], name)
  {
    assert entries[i..][0] == entries[i];
    assert entries[i..][1..] == entries[i + 1..];
  }
}
