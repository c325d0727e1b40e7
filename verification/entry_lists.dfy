/**
 * The list edits the routine and step editors share. A routine's or a
 * step's `moves` state is a sequence of entry objects, each with an `id`;
 * every handler computes a new sequence from the old one and stores it.
 */
module MoveLists {
  import opened Options
  import opened Values
  import opened Seqs

  /** `m.id === id`. */
  predicate HasId(e: Object, id: Value) {
    StrictEq(Get(e, "id"), id)
  }

  /** `moves.map(m => m.id === id ? entry : m)`: replacing the entries with `id`. */
  function ReplaceById(moves: seq<Object>, id: Value, entry: Object): (r: seq<Object>)
    ensures |r| == |moves|
    ensures forall i :: 0 <= i < |moves| && !HasId(moves[i], id) ==> r[i] == moves[i]
    ensures forall i :: 0 <= i < |moves| && HasId(moves[i], id) ==> r[i] == entry
  {
    seq(|moves|, i requires 0 <= i < |moves| => if HasId(moves[i], id) then entry else moves[i])
  }

  /** After a replacement, an entry carrying `id` is the new entry; replacing again changes nothing. */
  lemma ReplaceByIdSettles(moves: seq<Object>, id: Value, entry: Object)
    ensures forall i :: 0 <= i < |moves| && HasId(ReplaceById(moves, id, entry)[i], id) ==>
      ReplaceById(moves, id, entry)[i] == entry
    ensures ReplaceById(ReplaceById(moves, id, entry), id, entry) == ReplaceById(moves, id, entry)
  {
  }

  /** `moves.map(m => m.id === id ? {...m, ...edits} : m)`. */
  function UpdateById(moves: seq<Object>, id: Value, edits: Object): (r: seq<Object>)
    ensures |r| == |moves|
    ensures forall i :: 0 <= i < |moves| && !HasId(moves[i], id) ==> r[i] == moves[i]
    ensures forall i, k :: 0 <= i < |moves| && HasId(moves[i], id) ==>
      Get(r[i], k) == if k in edits then edits[k] else Get(moves[i], k)
  {
    seq(|moves|, i requires 0 <= i < |moves| => if HasId(moves[i], id) then moves[i] + edits else moves[i])
  }

  /** Saving the same edits twice is the same as saving them once, as long as they leave the id alone. */
  lemma {:induction false} UpdateByIdIdempotent(moves: seq<Object>, id: Value, edits: Object)
    requires "id" !in edits
    ensures UpdateById(UpdateById(moves, id, edits), id, edits) == UpdateById(moves, id, edits)
  {
    var once := UpdateById(moves, id, edits);
    var twice := UpdateById(once, id, edits);
    forall i | 0 <= i < |moves|
      ensures twice[i] == once[i]
    {
      if HasId(moves[i], id) {
        assert once[i] == moves[i] + edits;
        assert Get(once[i], "id") == Get(moves[i], "id");
        assert twice[i] == moves[i] + edits + edits;
        assert moves[i] + edits + edits == moves[i] + edits;
      }
    }
  }

  /** `moves.filter(m => m.id !== id)`. */
  function DeleteById(moves: seq<Object>, id: Value): (r: seq<Object>)
    ensures forall e :: e in r <==> e in moves && !HasId(e, id)
  {
    Filter(moves, (m: Object) => !HasId(m, id))
  }

  /**
   * Deleting keeps the other entries in their order and drops exactly the
   * entries with `id`: the two counts add up to the old length, and a list
   * without such an entry is left as it was.
   */
  lemma DeleteByIdRemovesExactly(moves: seq<Object>, id: Value)
    ensures IsSubsequence(DeleteById(moves, id), moves)
    ensures |DeleteById(moves, id)| + |Filter(moves, (m: Object) => HasId(m, id))| == |moves|
    ensures (forall e :: e in moves ==> !HasId(e, id)) ==> DeleteById(moves, id) == moves
  {
    FilterIsSubsequence(moves, (m: Object) => !HasId(m, id));
    FilterPartition(moves, (m: Object) => HasId(m, id), (m: Object) => !HasId(m, id));
    if forall e :: e in moves ==> !HasId(e, id) {
      FilterKeepsAll(moves, (m: Object) => !HasId(m, id));
    }
  }

  /**
   * `[...moves.slice(0, i + 1), copy, ...moves.slice(i + 1)]` for the first
   * index `i` holding `id`; the list itself when there is none.
   */
  function DuplicateAfter(moves: seq<Object>, id: Value, copy: Object): seq<Object> {
    var i := FindIndex(moves, (m: Object) => HasId(m, id));
    if i == -1 then moves else InsertAt(moves, i + 1, copy)
  }

  /** Index `i` holds the first entry with `id`. */
  predicate FirstWithId(moves: seq<Object>, id: Value, i: int) {
    0 <= i < |moves| && HasId(moves[i], id) && forall j :: 0 <= j < i ==> !HasId(moves[j], id)
  }

  /** Without an entry with `id`, duplicating changes nothing. */
  lemma DuplicateAfterMissing(moves: seq<Object>, id: Value, copy: Object)
    requires forall j :: 0 <= j < |moves| ==> !HasId(moves[j], id)
    ensures DuplicateAfter(moves, id, copy) == moves
  {
  }

  /** The copy lands right after the first entry with `id`; the entries before and after it stay where they were. */
  lemma DuplicateAfterPlacesCopy(moves: seq<Object>, id: Value, copy: Object, i: int)
    requires FirstWithId(moves, id, i)
    ensures var r := DuplicateAfter(moves, id, copy);
      && |r| == |moves| + 1
      && r[..i + 1] == moves[..i + 1]
      && r[i + 1] == copy
      && r[i + 2..] == moves[i + 1..]
  {
    var k := FindIndex(moves, (m: Object) => HasId(m, id));
    assert k == i;
  }

  /** Every old entry stays, in the same order, and the copy is the only entry added. */
  lemma DuplicateAfterKeepsEntries(moves: seq<Object>, id: Value, copy: Object)
    ensures IsSubsequence(moves, DuplicateAfter(moves, id, copy))
    ensures (exists j :: 0 <= j < |moves| && HasId(moves[j], id)) ==>
      multiset(DuplicateAfter(moves, id, copy)) == multiset(moves) + multiset{copy}
  {
    var k := FindIndex(moves, (m: Object) => HasId(m, id));
    if k == -1 {
      SubsequenceReflexive(moves);
    } else {
      InsertAtIsSupersequence(moves, k + 1, copy);
      InsertAtMultiset(moves, k + 1, copy);
    }
  }

  /** `m.counts || 0`. */
  function CountsOrZero(m: Value): Value {
    Or(Prop(m, "counts"), Num(0))
  }

  /** `items.reduce((sum, m) => sum + (m.counts || 0), 0)`. */
  function SumCounts(items: seq<Value>): Value {
    if items == [] then Num(0)
    else Plus(SumCounts(items[..|items| - 1]), CountsOrZero(items[|items| - 1]))
  }

  /** The counts a move adds to a step's total: its numeric counts, or 0 when they are missing. */
  function CountOf(m: Value): int {
    var c := CountsOrZero(m);
    if c.Num? then c.n else 0
  }

  function Total(items: seq<Value>): int {
    if items == [] then 0 else Total(items[..|items| - 1]) + CountOf(items[|items| - 1])
  }

  /** A move whose counts are a number or missing (`null`, `undefined`, `0`, `""`, NaN, `false`). */
  predicate NumericCounts(m: Value) {
    CountsOrZero(m).Num?
  }

  /** When every move's counts are numbers or missing, the step's counts are the arithmetic total. */
  lemma {:induction false} SumCountsTotal(items: seq<Value>)
    requires forall m :: m in items ==> NumericCounts(m)
    ensures SumCounts(items) == Num(Total(items))
    decreases |items|
  {
    if items != [] {
      var init := items[..|items| - 1];
      assert forall m :: m in init ==> m in items;
      SumCountsTotal(init);
      var last := items[|items| - 1];
      assert last in items;
      assert CountsOrZero(last) == Num(CountOf(last));
    }
  }

  /** No `null` among the moves; `m.counts` would throw on one. */
  predicate NoNullish(items: seq<Value>) {
    forall m :: m in items ==> !Nullish(m)
  }

  /** The storage key of a step's moves, `step_moves_${stepId}`. */
  function StepMovesKey(stepId: Value): string {
    "step_moves_" + ToStr(stepId)
  }

  /**
   * An entry that stands for a step, and whose step has a readable array of
   * moves in storage: the reload refreshes exactly these.
   */
  predicate Refreshable(e: Object, store: map<string, Value>) {
    var key := StepMovesKey(Get(e, "stepId"));
    && Truthy(Get(e, "isStep")) && Truthy(Get(e, "stepId"))
    && key in store && store[key].Arr? && NoNullish(store[key].items)
  }

  /** One entry after the reload: a refreshable step takes its stored moves and their summed counts. */
  function RefreshEntry(e: Object, store: map<string, Value>): (r: Object)
    ensures !Refreshable(e, store) ==> r == e
    ensures Refreshable(e, store) ==>
      var stepMoves := store[StepMovesKey(Get(e, "stepId"))];
      && Get(r, "moves") == stepMoves
      && Get(r, "counts") == SumCounts(stepMoves.items)
      && forall k :: k != "moves" && k != "counts" ==> Get(r, k) == Get(e, k)
  {
    if Refreshable(e, store) then
      var stepMoves := store[StepMovesKey(Get(e, "stepId"))];
      e + map["moves" := stepMoves, "counts" := SumCounts(stepMoves.items)]
    else e
  }

  /** The reload of a routine's entries, one entry at a time. */
  function Refreshed(entries: seq<Object>, store: map<string, Value>): (r: seq<Object>)
    ensures |r| == |entries|
    ensures forall i :: 0 <= i < |entries| ==> r[i] == RefreshEntry(entries[i], store)
  {
    Map(entries, (e: Object) => RefreshEntry(e, store))
  }

  /** Reloading again with the same storage changes nothing. */
  lemma RefreshedIdempotent(entries: seq<Object>, store: map<string, Value>)
    ensures Refreshed(Refreshed(entries, store), store) == Refreshed(entries, store)
  {
    var once := Refreshed(entries, store);
    forall i | 0 <= i < |entries|
      ensures RefreshEntry(once[i], store) == once[i]
    {
      RefreshEntryIdempotent(entries[i], store);
    }
  }

  lemma RefreshEntryIdempotent(e: Object, store: map<string, Value>)
    ensures RefreshEntry(RefreshEntry(e, store), store) == RefreshEntry(e, store)
  {
    if Refreshable(e, store) {
      var r := RefreshEntry(e, store);
      assert Get(r, "isStep") == Get(e, "isStep");
      assert Get(r, "stepId") == Get(e, "stepId");
      assert Refreshable(r, store);
      var stepMoves := store[StepMovesKey(Get(e, "stepId"))];
      var upd := map["moves" := stepMoves, "counts" := SumCounts(stepMoves.items)];
      assert r == e + upd;
      assert r + upd == r;
    }
  }

  /** The form of the move detail editor: the fields a save or a duplicate writes. */
  datatype MoveForm = MoveForm(notes: Value, technique: Value, counts: Value, description: Value, startFacing: Value, endFacing: Value)

  /** The keys a save or a duplicate writes from the form. */
  const FORM_KEYS: set<string> := {"notes", "technique", "counts", "timing", "description", "startFacing", "endFacing"}

  /** `r` holds the form's notes, technique, description and both facings. */
  predicate CarriesForm(r: Object, form: MoveForm) {
    Get(r, "notes") == form.notes && Get(r, "technique") == form.technique
    && Get(r, "description") == form.description
    && Get(r, "startFacing") == form.startFacing && Get(r, "endFacing") == form.endFacing
  }

  /** The fields a save writes, with `counts` and the `"<counts> counts"` timing text built from `counts`. */
  function FormEdits(form: MoveForm, counts: Value): (r: Object)
    ensures r.Keys == FORM_KEYS
    ensures Get(r, "counts") == counts && Get(r, "timing") == Str(ToStr(counts) + " counts")
    ensures CarriesForm(r, form)
  {
    map[
      "notes" := form.notes,
      "technique" := form.technique,
      "counts" := counts,
      "timing" := Str(ToStr(counts) + " counts"),
      "description" := form.description,
      "startFacing" := form.startFacing,
      "endFacing" := form.endFacing]
  }

  /** The copy both editors' `handleDuplicateMove` makes of the selected entry: a new id and timestamp, and the form's fields. */
  function DuplicateOf(selected: Object, form: MoveForm, id: string, addedAt: string): (r: Object)
    ensures Get(r, "id") == Str(id) && Get(r, "addedAt") == Str(addedAt)
    ensures Get(r, "counts") == form.counts && Get(r, "timing") == Str(ToStr(form.counts) + " counts")
    ensures CarriesForm(r, form)
    ensures r.Keys == selected.Keys + {"id", "addedAt"} + FORM_KEYS
    ensures forall k :: k !in FORM_KEYS && k != "id" && k != "addedAt" ==> Get(r, k) == Get(selected, k)
  {
    selected + map["id" := Str(id), "addedAt" := Str(addedAt)] + FormEdits(form, form.counts)
  }
}
