/**
 * The built-in move catalog (`DANCE_MOVES`) as the screens see it: an
 * ordered object from dance-style keys to objects from level names to
 * arrays of moves, walked with `Object.entries(...).forEach` in insertion
 * order. The catalog's contents are an input of the model.
 */
module Catalog {
  import opened Options
  import opened Values
  import opened Seqs

  /**
   * What a style key maps to. `Levels` lists the own entries of an object
   * (or of an array, under its index keys) in `Object.entries` order;
   * `NotObject` is any value for which `levels && typeof levels === "object"`
   * fails.
   */
  datatype StyleValue = Levels(entries: seq<(string, Value)>) | NotObject(v: Value)

  /** `DANCE_MOVES`, in `Object.entries` order. */
  type DanceMoves = seq<(string, StyleValue)>

  /** `DANCE_MOVES[key]`: the entry stored under `key`, if any. */
  function LookupStyle(c: DanceMoves, key: string): (r: Option<StyleValue>)
    ensures r.None? <==> forall i :: 0 <= i < |c| ==> c[i].0 != key
    ensures r.Some? ==> exists i :: 0 <= i < |c| && c[i] == (key, r.value)
  {
    if c == [] then None
    else if c[0].0 == key then Some(c[0].1)
    else
      var r := LookupStyle(c[1..], key);
      assert r.Some? ==> exists i :: 1 <= i < |c| && c[i] == (key, r.value) by {
        if r.Some? {
          var i :| 0 <= i < |c[1..]| && c[1..][i] == (key, r.value);
          assert c[i + 1] == (key, r.value);
        }
      }
      r
  }

  /** `levels[key]` on a style's level object: `undefined` when absent. */
  function LookupLevel(entries: seq<(string, Value)>, key: string): (r: Value)
    ensures r != Undefined ==> exists j :: 0 <= j < |entries| && entries[j] == (key, r)
    ensures (forall j :: 0 <= j < |entries| ==> entries[j].0 != key) ==> r == Undefined
  {
    if entries == [] then Undefined
    else if entries[0].0 == key then entries[0].1
    else
      var r := LookupLevel(entries[1..], key);
      assert r != Undefined ==> exists j :: 1 <= j < |entries| && entries[j] == (key, r) by {
        if r != Undefined {
          var j :| 0 <= j < |entries[1..]| && entries[1..][j] == (key, r);
          assert entries[j + 1] == (key, r);
        }
      }
      r
  }

  /** One visit of the innermost `movesArray.forEach`: a move with the style and level it sits under. */
  datatype Slot = Slot(style: string, level: string, move: Value)

  /** The visits of one level's array. */
  function ItemSlots(style: string, level: string, items: seq<Value>): (r: seq<Slot>)
    ensures |r| == |items|
    ensures forall m :: 0 <= m < |items| ==> r[m] == Slot(style, level, items[m])
  {
    seq(|items|, m requires 0 <= m < |items| => Slot(style, level, items[m]))
  }

  /** The visits of one style's levels; entries that are not arrays are skipped. */
  function LevelSlots(style: string, entries: seq<(string, Value)>): seq<Slot>
    decreases |entries|
  {
    if entries == [] then []
    else
      var (level, moves) := entries[|entries| - 1];
      LevelSlots(style, entries[..|entries| - 1])
        + (if moves.Arr? then ItemSlots(style, level, moves.items) else [])
  }

  function StyleSlots(style: string, levels: StyleValue): seq<Slot> {
    match levels
    case Levels(entries) => LevelSlots(style, entries)
    case NotObject(_) => []
  }

  /** Every move the nested `forEach` walk of the catalog visits, in visiting order. */
  function Slots(c: DanceMoves): seq<Slot>
    decreases |c|
  {
    if c == [] then []
    else Slots(c[..|c| - 1]) + StyleSlots(c[|c| - 1].0, c[|c| - 1].1)
  }

  /** Position (i, j, m) of the catalog holds move `s.move` under style `s.style` and level `s.level`. */
  predicate At(c: DanceMoves, i: int, j: int, m: int, s: Slot) {
    && 0 <= i < |c| && c[i].0 == s.style && c[i].1.Levels?
    && LevelAt(c[i].1.entries, j, m, s.level, s.move)
  }

  predicate LevelAt(entries: seq<(string, Value)>, j: int, m: int, level: string, move: Value) {
    && 0 <= j < |entries| && entries[j].0 == level && entries[j].1.Arr?
    && 0 <= m < |entries[j].1.items| && entries[j].1.items[m] == move
  }

  /** A style's walk visits exactly the moves stored in its level arrays. */
  lemma LevelSlotsMember(style: string, entries: seq<(string, Value)>, s: Slot)
    ensures s in LevelSlots(style, entries) <==>
      s.style == style && exists j, m :: LevelAt(entries, j, m, s.level, s.move)
  {
    if s in LevelSlots(style, entries) {
      LevelSlotsSound(style, entries, s);
    }
    if s.style == style && exists j, m :: LevelAt(entries, j, m, s.level, s.move) {
      var j, m :| LevelAt(entries, j, m, s.level, s.move);
      LevelSlotsComplete(style, entries, j, m, s.level, s.move);
    }
  }

  lemma {:induction false} LevelSlotsSound(style: string, entries: seq<(string, Value)>, s: Slot)
    requires s in LevelSlots(style, entries)
    ensures s.style == style && exists j, m :: LevelAt(entries, j, m, s.level, s.move)
    decreases |entries|
  {
    var n := |entries| - 1;
    var init := entries[..n];
    LevelSlotsSnoc(style, entries, n);
    assert entries[..n + 1] == entries;
    var tail := if entries[n].1.Arr? then ItemSlots(style, entries[n].0, entries[n].1.items) else [];
    if s in LevelSlots(style, init) {
      LevelSlotsSound(style, init, s);
      var j, m :| LevelAt(init, j, m, s.level, s.move);
      assert LevelAt(entries, j, m, s.level, s.move);
    } else {
      assert s in tail;
      var m :| 0 <= m < |tail| && tail[m] == s;
      assert LevelAt(entries, n, m, s.level, s.move);
    }
  }

  lemma {:induction false} LevelSlotsComplete(style: string, entries: seq<(string, Value)>, j: int, m: int, level: string, move: Value)
    requires LevelAt(entries, j, m, level, move)
    ensures Slot(style, level, move) in LevelSlots(style, entries)
    decreases |entries|
  {
    var n := |entries| - 1;
    var init := entries[..n];
    LevelSlotsSnoc(style, entries, n);
    assert entries[..n + 1] == entries;
    if j < n {
      assert LevelAt(init, j, m, level, move);
      LevelSlotsComplete(style, init, j, m, level, move);
    } else {
      var tail := ItemSlots(style, level, entries[n].1.items);
      assert tail[m] == Slot(style, level, move);
    }
  }

  /** The walk visits exactly the moves stored in level arrays of object-valued styles. */
  lemma SlotsMember(c: DanceMoves, s: Slot)
    ensures s in Slots(c) <==> exists i, j, m :: At(c, i, j, m, s)
  {
    if s in Slots(c) {
      SlotsSound(c, s);
    }
    if exists i, j, m :: At(c, i, j, m, s) {
      var i, j, m :| At(c, i, j, m, s);
      SlotsComplete(c, i, j, m, s);
    }
  }

  lemma {:induction false} SlotsSound(c: DanceMoves, s: Slot)
    requires s in Slots(c)
    ensures exists i, j, m :: At(c, i, j, m, s)
    decreases |c|
  {
    var n := |c| - 1;
    var init := c[..n];
    SlotsSnoc(c, n);
    assert c[..n + 1] == c;
    if s in Slots(init) {
      SlotsSound(init, s);
      var i, j, m :| At(init, i, j, m, s);
      assert At(c, i, j, m, s);
    } else {
      assert s in StyleSlots(c[n].0, c[n].1);
      LevelSlotsSound(c[n].0, c[n].1.entries, s);
      var j, m :| LevelAt(c[n].1.entries, j, m, s.level, s.move);
      assert At(c, n, j, m, s);
    }
  }

  lemma {:induction false} SlotsComplete(c: DanceMoves, i: int, j: int, m: int, s: Slot)
    requires At(c, i, j, m, s)
    ensures s in Slots(c)
    decreases |c|
  {
    var n := |c| - 1;
    var init := c[..n];
    SlotsSnoc(c, n);
    assert c[..n + 1] == c;
    if i < n {
      assert At(init, i, j, m, s);
      SlotsComplete(init, i, j, m, s);
    } else {
      LevelSlotsComplete(s.style, c[n].1.entries, j, m, s.level, s.move);
    }
  }

  /** `move && move.name`: the condition under which a catalog move is listed. */
  predicate HasName(move: Value) {
    Truthy(move) && Truthy(Prop(move, "name"))
  }

  /** `move && move.video && move.start !== undefined && move.end !== undefined`. */
  predicate HasClip(move: Value) {
    Truthy(move) && Truthy(Prop(move, "video"))
    && Prop(move, "start") != Undefined && Prop(move, "end") != Undefined
  }

  /** The practice screen's condition: a named move with a playable clip. */
  predicate HasNamedClip(move: Value) {
    HasName(move) && HasClip(move)
  }

  /** The own properties of a move as an object spread sees them. */
  function Fields(move: Value): Object {
    if move.Obj? then move.fields else map[]
  }

  /** `{ ...move, danceStyle, level }`. */
  function Tag(s: Slot): (o: Object)
    ensures Get(o, "danceStyle") == Str(s.style) && Get(o, "level") == Str(s.level)
    ensures forall k :: k != "danceStyle" && k != "level" ==> Get(o, k) == Prop(s.move, k)
    ensures o.Keys == Fields(s.move).Keys + {"danceStyle", "level"}
  {
    Fields(s.move) + map["danceStyle" := Str(s.style), "level" := Str(s.level)]
  }

  /** The tagged copies of the visited moves that `keep` accepts, in visiting order. */
  function Tagged(slots: seq<Slot>, keep: Value -> bool): (r: seq<Object>)
    ensures |r| <= |slots|
    decreases |slots|
  {
    if slots == [] then []
    else
      var s := slots[|slots| - 1];
      Tagged(slots[..|slots| - 1], keep) + (if keep(s.move) then [Tag(s)] else [])
  }

  lemma TaggedSnoc(slots: seq<Slot>, s: Slot, keep: Value -> bool)
    ensures Tagged(slots + [s], keep) == Tagged(slots, keep) + (if keep(s.move) then [Tag(s)] else [])
  {
    assert (slots + [s])[..|slots|] == slots;
  }

  lemma {:induction false} TaggedAppend(a: seq<Slot>, b: seq<Slot>, keep: Value -> bool)
    ensures Tagged(a + b, keep) == Tagged(a, keep) + Tagged(b, keep)
    decreases |b|
  {
    if b == [] {
      assert a + b == a;
    } else {
      var bi := b[..|b| - 1];
      var x := b[|b| - 1];
      TaggedAppend(a, bi, keep);
      assert b == bi + [x];
      AppendAssoc(a, bi, [x]);
      TaggedSnoc(a + bi, x, keep);
      TaggedSnoc(bi, x, keep);
      AppendAssoc(Tagged(a, keep), Tagged(bi, keep), if keep(x.move) then [Tag(x)] else []);
    }
  }

  /** A listed move is the tagged copy of an accepted visited move, and every such move is listed. */
  lemma TaggedMember(slots: seq<Slot>, keep: Value -> bool, o: Object)
    ensures o in Tagged(slots, keep) <==> exists s :: s in slots && keep(s.move) && o == Tag(s)
  {
    if o in Tagged(slots, keep) {
      TaggedSound(slots, keep, o);
    }
    if exists s :: s in slots && keep(s.move) && o == Tag(s) {
      var s :| s in slots && keep(s.move) && o == Tag(s);
      TaggedComplete(slots, keep, s);
    }
  }

  lemma {:induction false} TaggedSound(slots: seq<Slot>, keep: Value -> bool, o: Object)
    requires o in Tagged(slots, keep)
    ensures exists s :: s in slots && keep(s.move) && o == Tag(s)
    decreases |slots|
  {
    var init := slots[..|slots| - 1];
    var last := slots[|slots| - 1];
    if o in Tagged(init, keep) {
      TaggedSound(init, keep, o);
      var s :| s in init && keep(s.move) && o == Tag(s);
      var i :| 0 <= i < |init| && init[i] == s;
      assert slots[i] == s;
    } else {
      assert keep(last.move) && o == Tag(last);
    }
  }

  lemma {:induction false} TaggedComplete(slots: seq<Slot>, keep: Value -> bool, s: Slot)
    requires s in slots && keep(s.move)
    ensures Tag(s) in Tagged(slots, keep)
    decreases |slots|
  {
    var init := slots[..|slots| - 1];
    if s != slots[|slots| - 1] {
      var i :| 0 <= i < |slots| && slots[i] == s;
      assert init[i] == s;
      TaggedComplete(init, keep, s);
    }
  }

  /**
   * The nested `forEach` that builds `allMoves` (and, with another `keep`,
   * `allMovesWithVideos`): every accepted move, tagged with its style and
   * level keys, in catalog order.
   */
  method CollectMoves(c: DanceMoves, keep: Value -> bool) returns (moves: seq<Object>)
    ensures moves == Tagged(Slots(c), keep)
  {
    moves := [];
    var i := 0;
    while i < |c|
      invariant 0 <= i <= |c|
      invariant moves == Tagged(Slots(c[..i]), keep)
    {
      var (style, levels) := c[i];
      SlotsSnoc(c, i);
      TaggedAppend(Slots(c[..i]), StyleSlots(style, levels), keep);
      if levels.Levels? {
        moves := CollectStyleMoves(style, levels.entries, keep, moves);
      } else {
        assert Tagged(StyleSlots(style, levels), keep) == [];
      }
      i := i + 1;
    }
    assert c[..i] == c;
  }

  lemma SlotsSnoc(c: DanceMoves, i: nat)
    requires i < |c|
    ensures Slots(c[..i + 1]) == Slots(c[..i]) + StyleSlots(c[i].0, c[i].1)
  {
    assert c[..i + 1][..i] == c[..i];
  }

  lemma LevelSlotsSnoc(style: string, entries: seq<(string, Value)>, j: nat)
    requires j < |entries|
    ensures LevelSlots(style, entries[..j + 1]) == LevelSlots(style, entries[..j])
      + (if entries[j].1.Arr? then ItemSlots(style, entries[j].0, entries[j].1.items) else [])
  {
    assert entries[..j + 1][..j] == entries[..j];
  }

  /** The `Object.entries(levels).forEach` of one style, pushing onto `moves0`. */
  method CollectStyleMoves(style: string, entries: seq<(string, Value)>, keep: Value -> bool, moves0: seq<Object>)
    returns (moves: seq<Object>)
    ensures moves == moves0 + Tagged(LevelSlots(style, entries), keep)
  {
    moves := moves0;
    var j := 0;
    while j < |entries|
      invariant 0 <= j <= |entries|
      invariant moves == moves0 + Tagged(LevelSlots(style, entries[..j]), keep)
    {
      var level := entries[j].0;
      var movesArray := entries[j].1;
      LevelSlotsSnoc(style, entries, j);
      var tail := if movesArray.Arr? then ItemSlots(style, level, movesArray.items) else [];
      TaggedAppend(LevelSlots(style, entries[..j]), tail, keep);
      AppendAssoc(moves0, Tagged(LevelSlots(style, entries[..j]), keep), Tagged(tail, keep));
      if movesArray.Arr? {
        moves := CollectLevelMoves(style, level, movesArray.items, keep, moves);
      } else {
        assert Tagged(tail, keep) == [];
      }
      j := j + 1;
    }
    assert entries[..j] == entries;
  }

  lemma ItemSlotsSnoc(style: string, level: string, items: seq<Value>, m: nat)
    requires m < |items|
    ensures ItemSlots(style, level, items[..m + 1]) == ItemSlots(style, level, items[..m]) + [Slot(style, level, items[m])]
  {
  }

  /** The `movesArray.forEach` of one level, pushing onto `moves0`. */
  method CollectLevelMoves(style: string, level: string, items: seq<Value>, keep: Value -> bool, moves0: seq<Object>)
    returns (moves: seq<Object>)
    ensures moves == moves0 + Tagged(ItemSlots(style, level, items), keep)
  {
    moves := moves0;
    var m := 0;
    while m < |items|
      invariant 0 <= m <= |items|
      invariant moves == moves0 + Tagged(ItemSlots(style, level, items[..m]), keep)
    {
      var s := Slot(style, level, items[m]);
      ItemSlotsSnoc(style, level, items, m);
      TaggedSnoc(ItemSlots(style, level, items[..m]), s, keep);
      AppendAssoc(moves0, Tagged(ItemSlots(style, level, items[..m]), keep), if keep(s.move) then [Tag(s)] else []);
      if keep(items[m]) {
        moves := moves + [Tag(s)];
      }
      m := m + 1;
    }
    assert items[..m] == items;
  }
}
