/**
 * The catalog screen: the display names of style keys and levels, the
 * sorted list of catalog moves the filters and the hidden marks let
 * through, the index of distinct videos with a count of the moves that
 * share each one, and the hide and favorite toggles.
 */
module CatalogScreen {
  import opened Text
  import opened Options
  import opened Values
  import opened Seqs
  import opened Catalog
  import opened DeletedMoves
  import opened MoveFilters

  // ---------------------------------------------------------------------
  // Display names

  /** `toUpperCase` of one character, for the ASCII letters. */
  function UpperChar(c: char): char {
    if 'a' <= c <= 'z' then (c as int - 32) as char else c
  }

  /** `formatDanceName`: split at `_`, capitalise each word, join with spaces. */
  function FormatDanceName(danceStyle: string): (r: string)
    ensures |r| == |danceStyle|
    ensures forall i :: 0 <= i < |r| ==> r[i] != '_'
    ensures forall i :: 0 <= i < |r| && danceStyle[i] == '_' ==> r[i] == ' '
    ensures forall i :: 0 <= i < |r| && danceStyle[i] != '_' ==>
      r[i] == if i == 0 || danceStyle[i - 1] == '_' then UpperChar(danceStyle[i]) else danceStyle[i]
  {
    seq(|danceStyle|, i requires 0 <= i < |danceStyle| =>
      if danceStyle[i] == '_' then ' '
      else if i == 0 || danceStyle[i - 1] == '_' then UpperChar(danceStyle[i])
      else danceStyle[i])
  }

  /** `formatLevel`: the first character upper-cased. */
  function FormatLevel(level: string): string {
    if level == [] then [] else [UpperChar(level[0])] + level[1..]
  }

  /**
   * `formatDanceName` read step by step: `split("_")`, each word's first
   * character upper-cased (the capitalisation `formatLevel` applies), and
   * the words joined with a space.
   */
  function CapitalizedWords(danceStyle: string): string {
    var words := Split(danceStyle, '_');
    Join(seq(|words|, i requires 0 <= i < |words| => FormatLevel(words[i])), " ")
  }

  /** The character-wise definition agrees with split, capitalise and join on every style key. */
  lemma {:induction false} FormatDanceNameWords(danceStyle: string)
    ensures FormatDanceName(danceStyle) == CapitalizedWords(danceStyle)
    decreases |danceStyle|
  {
    var i := IndexOf(danceStyle, '_');
    var w := danceStyle[..i];
    if i == |danceStyle| {
      assert w == danceStyle;
      SplitWhole(danceStyle, '_');
      FormatWord(danceStyle);
    } else {
      var rest := danceStyle[i + 1..];
      assert danceStyle == w + ['_'] + rest;
      SplitFirst(w, rest, '_');
      FormatDanceNameSplit(w, rest);
      FormatDanceNameWords(rest);
      var words := Split(rest, '_');
      var caps := seq(|words|, k requires 0 <= k < |words| => FormatLevel(words[k]));
      var all := Split(danceStyle, '_');
      assert seq(|all|, k requires 0 <= k < |all| => FormatLevel(all[k])) == [FormatLevel(w)] + caps;
    }
  }

  /** A single word is capitalised like a level. */
  lemma FormatWord(w: string)
    requires Avoids(w, '_')
    ensures FormatDanceName(w) == FormatLevel(w)
  {
  }

  /** The first word of a style key is capitalised on its own, and the rest of the key after the space. */
  lemma FormatDanceNameSplit(w: string, rest: string)
    requires Avoids(w, '_')
    ensures FormatDanceName(w + "_" + rest) == FormatLevel(w) + " " + FormatDanceName(rest)
  {
    var s := w + "_" + rest;
    var r := FormatLevel(w) + " " + FormatDanceName(rest);
    var f := FormatLevel(w);
    assert |f| == |w|;
    forall i | 0 <= i < |s| ensures FormatDanceName(s)[i] == r[i] {
      if i < |w| {
        assert s[i] == w[i] && r[i] == f[i];
        assert f[i] == if i == 0 then UpperChar(w[0]) else w[i];
        if i > 0 {
          assert s[i - 1] == w[i - 1];
        }
      } else if i == |w| {
        assert s[i] == '_' && r[i] == ' ';
      } else {
        var j := i - |w| - 1;
        assert s[i] == rest[j] && r[i] == FormatDanceName(rest)[j];
        assert s[i - 1] == if j == 0 then '_' else rest[j - 1];
      }
    }
  }

  /** A dance name shows the words of the key capitalised: `latin_cha_cha` is `Latin Cha Cha`. */
  lemma FormatDanceNameExample()
    ensures FormatDanceName("latin_cha_cha") == "Latin Cha Cha"
  {
  }

  /** A style key is made of lower-case words joined by single underscores. */
  predicate WordKey(k: string) {
    NoUpper(k) && NoSpace(k) && forall i :: 0 <= i < |k| - 1 ==> !(k[i] == '_' && k[i + 1] == '_')
  }

  /** The key with every underscore shown as a space. */
  function Spaced(k: string): (r: string)
    ensures |r| == |k|
    ensures forall i :: 0 <= i < |k| ==> r[i] == (if k[i] == '_' then ' ' else k[i])
  {
    seq(|k|, i requires 0 <= i < |k| => if k[i] == '_' then ' ' else k[i])
  }

  lemma {:induction false} UnderscoredOfSpaced(k: string)
    requires WordKey(k)
    ensures Underscored(Spaced(k)) == k
    decreases |k|
  {
    if k != [] {
      var s := Spaced(k);
      SpacedTail(k);
      UnderscoredOfSpaced(k[1..]);
      if k[0] == '_' {
        SpacedSingleGap(k);
      } else {
        assert !IsSpace(s[0]);
      }
    }
  }

  lemma SpacedTail(k: string)
    requires WordKey(k) && k != []
    ensures Spaced(k)[1..] == Spaced(k[1..])
    ensures WordKey(k[1..])
  {
    assert Spaced(k)[1..] == Spaced(k[1..]);
  }

  /** An underscore of a key becomes one space, followed by a character that is not one. */
  lemma SpacedSingleGap(k: string)
    requires WordKey(k) && k != [] && k[0] == '_'
    ensures IsSpace(Spaced(k)[0])
    ensures TrimStart(Spaced(k)) == Spaced(k)[1..]
  {
    var s := Spaced(k);
    var t := s[1..];
    assert s[0] == ' ';
    if t != [] {
      assert !(k[0] == '_' && k[1] == '_');
      assert t[0] == s[1] == k[1];
      assert !IsSpace(t[0]);
    }
    assert TrimStart(t) == t;
  }

  /** A catalog style key survives being shown by name and normalised back the way the style filter does. */
  lemma FormatDanceNameRoundTrip(k: string)
    requires WordKey(k)
    ensures StyleKey(FormatDanceName(k)) == k
  {
    assert ToLower(FormatDanceName(k)) == Spaced(k);
    UnderscoredOfSpaced(k);
  }

  /** A lower-case level name is recovered from its display form by `toLowerCase`. */
  lemma FormatLevelRoundTrip(level: string)
    requires NoUpper(level)
    ensures ToLower(FormatLevel(level)) == level
  {
    if level != [] {
      assert ToLower(FormatLevel(level))[0] == level[0];
    }
  }

  // ---------------------------------------------------------------------
  // Sort order

  /** `a.localeCompare(b)`, as a comparison of character codes. */
  function LocaleCompare(a: string, b: string): (r: int)
    ensures -1 <= r <= 1
    ensures r == 0 <==> a == b
    decreases |a|
  {
    if a == [] && b == [] then 0
    else if a == [] then -1
    else if b == [] then 1
    else if a[0] < b[0] then -1
    else if a[0] > b[0] then 1
    else LocaleCompare(a[1..], b[1..])
  }

  lemma {:induction false} LocaleCompareFlip(a: string, b: string)
    ensures LocaleCompare(b, a) == -LocaleCompare(a, b)
    decreases |a|
  {
    if a != [] && b != [] && a[0] == b[0] {
      LocaleCompareFlip(a[1..], b[1..]);
    }
  }

  lemma {:induction false} LocaleCompareTrans(a: string, b: string, c: string)
    requires LocaleCompare(a, b) < 0 && LocaleCompare(b, c) < 0
    ensures LocaleCompare(a, c) < 0
    decreases |a|
  {
    if a != [] && b != [] && c != [] && a[0] == b[0] && b[0] == c[0] {
      LocaleCompareTrans(a[1..], b[1..], c[1..]);
    }
  }

  /** `a.danceStyle || ""`. */
  function StyleText(m: Object): string {
    ToStr(Or(Get(m, "danceStyle"), Str("")))
  }

  /** `a.name || ""`. */
  function NameText(m: Object): string {
    ToStr(Or(Get(m, "name"), Str("")))
  }

  /** `levelOrder[a.level]`, or 999 for a level outside the table. */
  function LevelRank(m: Object): int {
    var level := ToStr(Get(m, "level"));
    if level == "bronze" then 0
    else if level == "silver" then 1
    else if level == "gold" then 2
    else if level == "other" then 3
    else 999
  }

  /** The comparator of `filteredMoves`: style, then level rank, then name. */
  function Compare(a: Object, b: Object): int {
    if StyleText(a) != StyleText(b) then LocaleCompare(StyleText(a), StyleText(b))
    else if LevelRank(a) != LevelRank(b) then LevelRank(a) - LevelRank(b)
    else LocaleCompare(NameText(a), NameText(b))
  }

  /** `a` may come before `b`. */
  predicate InOrder(a: Object, b: Object) {
    Compare(a, b) <= 0
  }

  /** The comparator is antisymmetric, so any two moves can be ordered. */
  lemma CompareFlip(a: Object, b: Object)
    ensures Compare(b, a) == -Compare(a, b)
    ensures InOrder(a, b) || InOrder(b, a)
  {
    LocaleCompareFlip(StyleText(a), StyleText(b));
    LocaleCompareFlip(NameText(a), NameText(b));
  }

  /** The comparator is transitive, so it is a total preorder. */
  lemma InOrderTrans(a: Object, b: Object, c: Object)
    requires InOrder(a, b) && InOrder(b, c)
    ensures InOrder(a, c)
  {
    if StyleText(a) != StyleText(b) && StyleText(b) != StyleText(c) {
      if StyleText(a) == StyleText(c) {
        LocaleCompareFlip(StyleText(b), StyleText(c));
      } else {
        LocaleCompareTrans(StyleText(a), StyleText(b), StyleText(c));
      }
    } else if StyleText(a) == StyleText(b) && StyleText(b) == StyleText(c) {
      if LevelRank(a) == LevelRank(b) && LevelRank(b) == LevelRank(c) && NameText(a) != NameText(b) && NameText(b) != NameText(c) && NameText(a) != NameText(c) {
        LocaleCompareTrans(NameText(a), NameText(b), NameText(c));
      }
    }
  }

  /** Every move is in order with every move after it. */
  predicate Sorted(s: seq<Object>) {
    forall i, j :: 0 <= i < j < |s| ==> InOrder(s[i], s[j])
  }

  /** Places `x` after the leading moves that may come before it. */
  function InsertSorted(s: seq<Object>, x: Object): (r: seq<Object>)
    ensures multiset(r) == multiset(s) + multiset{x}
  {
    if s == [] then [x]
    else if !InOrder(s[0], x) then [x] + s
    else
      assert s == [s[0]] + s[1..];
      [s[0]] + InsertSorted(s[1..], x)
  }

  /** Inserting into a sorted list keeps it sorted. */
  lemma {:induction false} InsertSortedSorted(s: seq<Object>, x: Object)
    requires Sorted(s)
    ensures Sorted(InsertSorted(s, x))
    decreases |s|
  {
    if s == [] {
    } else if !InOrder(s[0], x) {
      BeforeHead(s, x);
      ConsSorted(x, s);
    } else {
      var tail := InsertSorted(s[1..], x);
      InsertSortedSorted(s[1..], x);
      HeadBeforeInserted(s, x);
      ConsSorted(s[0], tail);
    }
  }

  /** A move that the head of a sorted list may not come before may come before all of it. */
  lemma BeforeHead(s: seq<Object>, x: Object)
    requires Sorted(s) && s != [] && !InOrder(s[0], x)
    ensures forall y :: y in s ==> InOrder(x, y)
  {
    CompareFlip(s[0], x);
    forall y | y in s ensures InOrder(x, y) {
      if y != s[0] {
        var j :| 0 <= j < |s| && s[j] == y;
        assert InOrder(s[0], s[j]);
        InOrderTrans(x, s[0], y);
      }
    }
  }

  /** The head of a sorted list still heads its tail once a move it may precede is inserted there. */
  lemma HeadBeforeInserted(s: seq<Object>, x: Object)
    requires Sorted(s) && s != [] && InOrder(s[0], x)
    ensures forall y :: y in InsertSorted(s[1..], x) ==> InOrder(s[0], y)
  {
    var tail := InsertSorted(s[1..], x);
    forall y | y in tail ensures InOrder(s[0], y) {
      assert y in multiset(tail);
      if y != x {
        assert y in multiset(s[1..]);
        var j :| 0 <= j < |s[1..]| && s[1..][j] == y;
        assert s[j + 1] == y;
      }
    }
  }

  /** A move in order with every move of a sorted list can head it. */
  lemma ConsSorted(a: Object, t: seq<Object>)
    requires Sorted(t)
    requires forall y :: y in t ==> InOrder(a, y)
    ensures Sorted([a] + t)
  {
    var r := [a] + t;
    forall i, j | 0 <= i < j < |r| ensures InOrder(r[i], r[j]) {
      if i == 0 {
        assert r[j] in t;
      } else {
        assert r[i] == t[i - 1] && r[j] == t[j - 1];
      }
    }
  }

  /** `filtered.sort(compare)`: builds the sorted list one move at a time. */
  method SortMoves(moves: seq<Object>) returns (sorted: seq<Object>)
    ensures Sorted(sorted)
    ensures multiset(sorted) == multiset(moves)
  {
    sorted := [];
    for i := 0 to |moves|
      invariant Sorted(sorted)
      invariant multiset(sorted) == multiset(moves[..i])
    {
      InsertSortedSorted(sorted, moves[i]);
      sorted := InsertSorted(sorted, moves[i]);
      assert moves[..i + 1] == moves[..i] + [moves[i]];
    }
    assert moves[..|moves|] == moves;
  }

  /** `allMoves`: every named catalog move, tagged with its style and level keys, in catalog order. */
  method AllMoves(c: DanceMoves) returns (moves: seq<Object>)
    ensures moves == Tagged(Slots(c), HasName)
    ensures forall o :: o in moves <==> exists s :: s in Slots(c) && HasName(s.move) && o == Tag(s)
  {
    moves := CollectMoves(c, HasName);
    forall o ensures o in moves <==> exists s :: s in Slots(c) && HasName(s.move) && o == Tag(s) {
      TaggedMember(Slots(c), HasName, o);
    }
  }

  /** A listed move: it passes the three filters and is not hidden, unless hidden moves are shown. */
  predicate Listed(m: Object, selectedDanceStyle: string, selectedLevel: string, searchQuery: string,
                   showHiddenMoves: bool, hiddenMoves: Object) {
    Matches(m, selectedDanceStyle, selectedLevel, searchQuery) && (showHiddenMoves || !Marked(m, hiddenMoves))
  }

  /**
   * `filteredMoves`: the three narrowing filters, then the hidden filter,
   * then the sort. The result is sorted and holds, as many times as the
   * whole list does, exactly the moves that pass; favorites play no part.
   */
  method FilteredMoves(allMoves: seq<Object>, selectedDanceStyle: string, selectedLevel: string, searchQuery: string,
                       showHiddenMoves: bool, hiddenMoves: Object) returns (result: seq<Object>)
    ensures Sorted(result)
    ensures multiset(result) ==
      multiset(Filter(allMoves, (m: Object) => Listed(m, selectedDanceStyle, selectedLevel, searchQuery, showHiddenMoves, hiddenMoves)))
    ensures forall m :: m in result <==>
      m in allMoves && Listed(m, selectedDanceStyle, selectedLevel, searchQuery, showHiddenMoves, hiddenMoves)
  {
    var narrowed := NarrowMoves(allMoves, selectedDanceStyle, selectedLevel, searchQuery);
    var filtered := narrowed;
    if !showHiddenMoves {
      filtered := Filter(narrowed, (m: Object) => !Marked(m, hiddenMoves));
    }
    ListedMoves(allMoves, narrowed, filtered, selectedDanceStyle, selectedLevel, searchQuery, showHiddenMoves, hiddenMoves);
    result := SortMoves(filtered);
    SameMembers(result, filtered);
  }

  /** The hidden filter applied after the narrowing filters keeps exactly the listed moves. */
  lemma ListedMoves(allMoves: seq<Object>, narrowed: seq<Object>, filtered: seq<Object>,
                    selectedDanceStyle: string, selectedLevel: string, searchQuery: string,
                    showHiddenMoves: bool, hiddenMoves: Object)
    requires narrowed == Filter(allMoves, (m: Object) => Matches(m, selectedDanceStyle, selectedLevel, searchQuery))
    requires filtered == if showHiddenMoves then narrowed else Filter(narrowed, (m: Object) => !Marked(m, hiddenMoves))
    ensures filtered ==
      Filter(allMoves, (m: Object) => Listed(m, selectedDanceStyle, selectedLevel, searchQuery, showHiddenMoves, hiddenMoves))
  {
    var listed := (m: Object) => Listed(m, selectedDanceStyle, selectedLevel, searchQuery, showHiddenMoves, hiddenMoves);
    var notHidden := (m: Object) => showHiddenMoves || !Marked(m, hiddenMoves);
    if showHiddenMoves {
      FilterKeepsAll(narrowed, notHidden);
    } else {
      FilterSame(narrowed, (m: Object) => !Marked(m, hiddenMoves), notHidden);
    }
    FilterTwice(allMoves, (m: Object) => Matches(m, selectedDanceStyle, selectedLevel, searchQuery), notHidden, listed);
  }

  // ---------------------------------------------------------------------
  // Video index

  /** A record of `allVideos`. */
  datatype VideoRecord = VideoRecord(video: Value, danceStyle: string, level: string, name: string,
                                     movesCount: nat, isCustom: bool)

  /** The contents of the `videosMap` being built: its keys in insertion order and its entries. */
  datatype VideoIndex = VideoIndex(keys: seq<string>, records: map<string, VideoRecord>)

  /** Keys are distinct, list exactly the entries, and each entry is stored under its own video's text. */
  ghost predicate ValidIndex(ix: VideoIndex) {
    && (forall i, j :: 0 <= i < j < |ix.keys| ==> ix.keys[i] != ix.keys[j])
    && (forall k :: k in ix.records <==> k in ix.keys)
    && (forall k :: k in ix.records ==> ToStr(ix.records[k].video) == k)
  }

  /** `move.video.toString()`. */
  function VideoKey(move: Value): string {
    ToStr(Prop(move, "video"))
  }

  /** A catalog slot whose move is a clip of the video with text `key`. */
  predicate ClipOf(s: Slot, key: string) {
    HasClip(s.move) && VideoKey(s.move) == key
  }

  /** How many of the slots are clips of the video `key`. */
  function ClipCount(slots: seq<Slot>, key: string): nat {
    if slots == [] then 0
    else ClipCount(slots[..|slots| - 1], key) + (if ClipOf(slots[|slots| - 1], key) then 1 else 0)
  }

  /** One step of the built-in pass: a new record named `{Dance Style} - {Level}`, or one more move for a known video. */
  function AddClip(ix: VideoIndex, s: Slot): VideoIndex {
    if !HasClip(s.move) then ix
    else
      var key := VideoKey(s.move);
      if key in ix.records then
        ix.(records := ix.records[key := ix.records[key].(movesCount := ix.records[key].movesCount + 1)])
      else
        var name := FormatDanceName(s.style) + " - " + FormatLevel(s.level);
        VideoIndex(ix.keys + [key], ix.records[key := VideoRecord(Prop(s.move, "video"), s.style, s.level, name, 1, false)])
  }

  /** The index after the built-in pass over the slots, in order. */
  function BuiltInIndex(slots: seq<Slot>): VideoIndex {
    if slots == [] then VideoIndex([], map[])
    else AddClip(BuiltInIndex(slots[..|slots| - 1]), slots[|slots| - 1])
  }

  /** One record per distinct video of the catalog clips, counting the clips that share it. */
  lemma {:induction false} BuiltInIndexCounts(slots: seq<Slot>)
    ensures ValidIndex(BuiltInIndex(slots))
    ensures forall k :: k in BuiltInIndex(slots).records <==> ClipCount(slots, k) > 0
    ensures forall k :: k in BuiltInIndex(slots).records ==> BuiltInIndex(slots).records[k].movesCount == ClipCount(slots, k)
    decreases |slots|
  {
    if slots != [] {
      var init := slots[..|slots| - 1];
      var last := slots[|slots| - 1];
      BuiltInIndexCounts(init);
      var ix := BuiltInIndex(init);
      if HasClip(last.move) {
        var key := VideoKey(last.move);
        if key in ix.records {
          AddClipKnown(ix, last);
        } else {
          AddNewKeyValid(ix, key, BuiltInIndex(slots).records[key]);
        }
      }
    }
  }

  /** One more clip of a video already in the index adds one to its count and changes nothing else. */
  lemma AddClipKnown(ix: VideoIndex, s: Slot)
    requires ValidIndex(ix) && HasClip(s.move) && VideoKey(s.move) in ix.records
    ensures ValidIndex(AddClip(ix, s))
    ensures AddClip(ix, s).records.Keys == ix.records.Keys
    ensures AddClip(ix, s).records[VideoKey(s.move)].movesCount == ix.records[VideoKey(s.move)].movesCount + 1
    ensures forall k :: k in ix.records && k != VideoKey(s.move) ==> AddClip(ix, s).records[k] == ix.records[k]
  {
  }

  /** The dance style a folder video's title names, or `"other"`. */
  function FolderStyle(name: string): string {
    if Includes(name, "American") then
      if Includes(name, "Rhythm") then "american_rhythm"
      else if Includes(name, "Foxtrot") then "american_foxtrot"
      else if Includes(name, "Tango") then "american_tango"
      else if Includes(name, "Viennese Waltz") then "american_viennese_waltz"
      else if Includes(name, "Waltz") then "american_waltz"
      else "other"
    else if Includes(name, "International") then
      if Includes(name, "Foxtrot") then "international_foxtrot"
      else if Includes(name, "Quickstep") then "quickstep"
      else if Includes(name, "Tango") then "international_tango"
      else if Includes(name, "Viennese Waltz") then "international_viennese_waltz"
      else if Includes(name, "Waltz") then "international_waltz"
      else if Includes(name, "Cha Cha") then "international_cha_cha"
      else if Includes(name, "Jive") then "jive"
      else if Includes(name, "Paso Doble") then "paso_doble"
      else if Includes(name, "Rumba") then "international_rumba"
      else if Includes(name, "Samba") then "samba"
      else "other"
    else "other"
  }

  /** The level a folder video's title names, or `"other"`. */
  function FolderLevel(name: string): string {
    if Includes(name, "Bronze") then "bronze"
    else if Includes(name, "Silver") then "silver"
    else if Includes(name, "Gold") then "gold"
    else "other"
  }

  /** One step of the folder pass: a video whose key is already present is skipped. */
  function AddFolderVideo(ix: VideoIndex, file: (Value, string)): VideoIndex {
    var key := ToStr(file.0);
    if key in ix.records then ix
    else VideoIndex(ix.keys + [key], ix.records[key := VideoRecord(file.0, FolderStyle(file.1), FolderLevel(file.1), file.1, 1, false)])
  }

  /** The key texts of the folder videos. */
  function FileKeys(files: seq<(Value, string)>): (r: set<string>)
    ensures forall f :: f in files ==> ToStr(f.0) in r
    ensures forall k :: k in r ==> exists f :: f in files && ToStr(f.0) == k
  {
    if files == [] then {}
    else
      var init := files[..|files| - 1];
      assert forall f :: f in init ==> f in files;
      FileKeys(init) + {ToStr(files[|files| - 1].0)}
  }

  /** The index after the folder pass over `files`, in order. */
  function WithFolder(ix: VideoIndex, files: seq<(Value, string)>): VideoIndex {
    if files == [] then ix
    else AddFolderVideo(WithFolder(ix, files[..|files| - 1]), files[|files| - 1])
  }

  /** One folder step keeps the index valid and only appends. */
  lemma AddFolderVideoAppends(ix: VideoIndex, file: (Value, string))
    requires ValidIndex(ix)
    ensures ValidIndex(AddFolderVideo(ix, file))
    ensures |ix.keys| <= |AddFolderVideo(ix, file).keys| && AddFolderVideo(ix, file).keys[..|ix.keys|] == ix.keys
    ensures ix.records.Keys + {ToStr(file.0)} == AddFolderVideo(ix, file).records.Keys
    ensures forall k :: k in ix.records ==> AddFolderVideo(ix, file).records[k] == ix.records[k]
    ensures ToStr(file.0) !in ix.records ==> AddFolderVideo(ix, file).records[ToStr(file.0)].movesCount == 1
  {
    var key := ToStr(file.0);
    if key !in ix.records {
      var r := AddFolderVideo(ix, file);
      assert r.keys[..|ix.keys|] == ix.keys;
      AddNewKeyValid(ix, key, r.records[key]);
    }
  }

  /** Adding a record under a new key that is its own video's text keeps an index valid. */
  lemma AddNewKeyValid(ix: VideoIndex, key: string, rec: VideoRecord)
    requires ValidIndex(ix) && key !in ix.records && ToStr(rec.video) == key
    ensures ValidIndex(VideoIndex(ix.keys + [key], ix.records[key := rec]))
  {
    var keys := ix.keys + [key];
    assert key !in ix.keys;
    forall i, j | 0 <= i < j < |keys| ensures keys[i] != keys[j] {
      if j == |ix.keys| {
        assert keys[i] == ix.keys[i];
      }
    }
  }

  /** The folder pass keeps the index valid, leaves earlier records untouched and adds records counting one move. */
  lemma {:induction false} WithFolderRecords(ix: VideoIndex, files: seq<(Value, string)>)
    requires ValidIndex(ix)
    ensures ValidIndex(WithFolder(ix, files))
    ensures forall k :: k in ix.records ==> k in WithFolder(ix, files).records && WithFolder(ix, files).records[k] == ix.records[k]
    ensures forall k :: k in WithFolder(ix, files).records && k !in ix.records ==> WithFolder(ix, files).records[k].movesCount == 1
    decreases |files|
  {
    if files != [] {
      var init := files[..|files| - 1];
      WithFolderRecords(ix, init);
      AddFolderVideoAppends(WithFolder(ix, init), files[|files| - 1]);
    }
  }

  /** The folder pass only appends keys. */
  lemma {:induction false} WithFolderKeys(ix: VideoIndex, files: seq<(Value, string)>)
    ensures |ix.keys| <= |WithFolder(ix, files).keys| && WithFolder(ix, files).keys[..|ix.keys|] == ix.keys
    ensures WithFolder(ix, files).records.Keys == ix.records.Keys + FileKeys(files)
    decreases |files|
  {
    if files != [] {
      var init := files[..|files| - 1];
      WithFolderKeys(ix, init);
      var prev := WithFolder(ix, init);
      var r := WithFolder(ix, files);
      assert r.keys[..|prev.keys|] == prev.keys;
      assert r.keys[..|ix.keys|] == r.keys[..|prev.keys|][..|ix.keys|];
    }
  }

  /** The folder pass only appends: earlier records are untouched, and every folder video ends up present. */
  lemma WithFolderAppends(ix: VideoIndex, files: seq<(Value, string)>)
    requires ValidIndex(ix)
    ensures ValidIndex(WithFolder(ix, files))
    ensures |ix.keys| <= |WithFolder(ix, files).keys| && WithFolder(ix, files).keys[..|ix.keys|] == ix.keys
    ensures forall k :: k in ix.records ==> k in WithFolder(ix, files).records && WithFolder(ix, files).records[k] == ix.records[k]
    ensures WithFolder(ix, files).records.Keys == ix.records.Keys + FileKeys(files)
    ensures forall k :: k in WithFolder(ix, files).records && k !in ix.records ==> WithFolder(ix, files).records[k].movesCount == 1
  {
    WithFolderRecords(ix, files);
    WithFolderKeys(ix, files);
  }

  /** `Array.from(videosMap.values())`. */
  function VideoList(ix: VideoIndex): (r: seq<VideoRecord>)
    requires ValidIndex(ix)
    ensures |r| == |ix.keys|
  {
    seq(|ix.keys|, i requires 0 <= i < |ix.keys| => ix.records[ix.keys[i]])
  }

  /** The list holds the index's records in key order, each under its own key. */
  lemma VideoListKeys(ix: VideoIndex)
    requires ValidIndex(ix)
    ensures forall i :: 0 <= i < |ix.keys| ==> ix.keys[i] in ix.records && VideoList(ix)[i] == ix.records[ix.keys[i]]
    ensures forall i :: 0 <= i < |ix.keys| ==> ToStr(VideoList(ix)[i].video) == ix.keys[i]
  {
  }

  /** Some entry of the list is the video with text `key`. */
  predicate HasVideo(videos: seq<VideoRecord>, key: string) {
    exists i :: 0 <= i < |videos| && ToStr(videos[i].video) == key
  }

  /** Every record of the index is in the list. */
  lemma VideoListHas(ix: VideoIndex, k: string)
    requires ValidIndex(ix) && k in ix.records
    ensures HasVideo(VideoList(ix), k)
  {
    VideoListKeys(ix);
    var i :| 0 <= i < |ix.keys| && ix.keys[i] == k;
    assert ToStr(VideoList(ix)[i].video) == k;
  }

  /** The list `allVideos` returns has one entry per video, counting the catalog clips that play it (one for a folder-only video). */
  lemma VideoListCounts(slots: seq<Slot>, files: seq<(Value, string)>)
    ensures ValidIndex(WithFolder(BuiltInIndex(slots), files))
    ensures var videos := VideoList(WithFolder(BuiltInIndex(slots), files));
      && (forall i, j :: 0 <= i < j < |videos| ==> ToStr(videos[i].video) != ToStr(videos[j].video))
      && (forall i :: 0 <= i < |videos| ==>
            videos[i].movesCount == (if ClipCount(slots, ToStr(videos[i].video)) > 0 then ClipCount(slots, ToStr(videos[i].video)) else 1))
  {
    BuiltInIndexCounts(slots);
    WithFolderAppends(BuiltInIndex(slots), files);
    VideoListKeys(WithFolder(BuiltInIndex(slots), files));
  }

  /** Every video a catalog clip plays is in the list `allVideos` returns. */
  lemma VideoListCoversClips(slots: seq<Slot>, files: seq<(Value, string)>)
    ensures ValidIndex(WithFolder(BuiltInIndex(slots), files))
    ensures var videos := VideoList(WithFolder(BuiltInIndex(slots), files));
      forall s :: s in slots && HasClip(s.move) ==> HasVideo(videos, VideoKey(s.move))
  {
    var builtIn := BuiltInIndex(slots);
    BuiltInIndexCounts(slots);
    WithFolderRecords(builtIn, files);
    var ix := WithFolder(builtIn, files);
    forall s | s in slots && HasClip(s.move)
      ensures HasVideo(VideoList(ix), VideoKey(s.move))
    {
      ClipCountPositive(slots, s);
      VideoListHas(ix, VideoKey(s.move));
    }
  }

  /** Every folder video is in the list `allVideos` returns. */
  lemma VideoListCoversFiles(slots: seq<Slot>, files: seq<(Value, string)>)
    ensures ValidIndex(WithFolder(BuiltInIndex(slots), files))
    ensures var videos := VideoList(WithFolder(BuiltInIndex(slots), files));
      forall f :: f in files ==> HasVideo(videos, ToStr(f.0))
  {
    var builtIn := BuiltInIndex(slots);
    BuiltInIndexCounts(slots);
    WithFolderRecords(builtIn, files);
    WithFolderKeys(builtIn, files);
    var ix := WithFolder(builtIn, files);
    forall f | f in files
      ensures HasVideo(VideoList(ix), ToStr(f.0))
    {
      VideoListHas(ix, ToStr(f.0));
    }
  }

  /** The built-in pass of `allVideos` over the catalog slots, in visiting order. */
  method AddBuiltInVideos(slots: seq<Slot>) returns (keys: seq<string>, records: map<string, VideoRecord>)
    ensures VideoIndex(keys, records) == BuiltInIndex(slots)
  {
    keys := [];
    records := map[];
    for i := 0 to |slots|
      invariant VideoIndex(keys, records) == BuiltInIndex(slots[..i])
    {
      var s := slots[i];
      if HasClip(s.move) {
        var key := VideoKey(s.move);
        if key !in records {
          var name := FormatDanceName(s.style) + " - " + FormatLevel(s.level);
          records := records[key := VideoRecord(Prop(s.move, "video"), s.style, s.level, name, 1, false)];
          keys := keys + [key];
        } else {
          records := records[key := records[key].(movesCount := records[key].movesCount + 1)];
        }
      }
      assert slots[..i + 1][..i] == slots[..i];
    }
    assert slots[..|slots|] == slots;
  }

  /** `addVideosFromFolder`: each folder video whose key is not yet present is added under its title. */
  method AddVideosFromFolder(keys0: seq<string>, records0: map<string, VideoRecord>, files: seq<(Value, string)>)
    returns (keys: seq<string>, records: map<string, VideoRecord>)
    ensures VideoIndex(keys, records) == WithFolder(VideoIndex(keys0, records0), files)
  {
    keys, records := keys0, records0;
    for i := 0 to |files|
      invariant VideoIndex(keys, records) == WithFolder(VideoIndex(keys0, records0), files[..i])
    {
      var key := ToStr(files[i].0);
      if key !in records {
        var name := files[i].1;
        records := records[key := VideoRecord(files[i].0, FolderStyle(name), FolderLevel(name), name, 1, false)];
        keys := keys + [key];
      }
      assert files[..i + 1][..i] == files[..i];
    }
    assert files[..|files|] == files;
  }

  /**
   * `allVideos`: the built-in pass over every catalog slot, then the
   * folder pass. Each video appears once; a catalog video counts every
   * clip that plays it, a folder-only video counts one.
   */
  method AllVideos(c: DanceMoves, folderFiles: seq<(Value, string)>) returns (videos: seq<VideoRecord>)
    ensures ValidIndex(WithFolder(BuiltInIndex(Slots(c)), folderFiles))
    ensures videos == VideoList(WithFolder(BuiltInIndex(Slots(c)), folderFiles))
    ensures forall i, j :: 0 <= i < j < |videos| ==> ToStr(videos[i].video) != ToStr(videos[j].video)
    ensures forall s :: s in Slots(c) && HasClip(s.move) ==> HasVideo(videos, VideoKey(s.move))
    ensures forall f :: f in folderFiles ==> HasVideo(videos, ToStr(f.0))
    ensures forall i :: 0 <= i < |videos| ==>
              videos[i].movesCount == (if ClipCount(Slots(c), ToStr(videos[i].video)) > 0 then ClipCount(Slots(c), ToStr(videos[i].video)) else 1)
  {
    var keys, records := AddBuiltInVideos(Slots(c));
    keys, records := AddVideosFromFolder(keys, records, folderFiles);
    VideoListCounts(Slots(c), folderFiles);
    VideoListCoversClips(Slots(c), folderFiles);
    VideoListCoversFiles(Slots(c), folderFiles);
    videos := VideoList(VideoIndex(keys, records));
  }

  /** A clip in the slots counts towards its own video. */
  lemma {:induction false} ClipCountPositive(slots: seq<Slot>, s: Slot)
    requires s in slots && HasClip(s.move)
    ensures ClipCount(slots, VideoKey(s.move)) > 0
    decreases |slots|
  {
    if slots[|slots| - 1] != s {
      assert s in slots[..|slots| - 1];
      ClipCountPositive(slots[..|slots| - 1], s);
    }
  }

  // ---------------------------------------------------------------------
  // Hidden and favorite marks

  /** Show a marked move (delete its key), or mark an unmarked one (`[key]: true`). */
  function Toggled(marks: Object, key: string): (r: Object)
    ensures Truthy(Get(r, key)) <==> !Truthy(Get(marks, key))
    ensures forall k :: k != key ==> Get(r, k) == Get(marks, k)
  {
    if Truthy(Get(marks, key)) then marks - {key} else marks[key := Bool(true)]
  }

  /** Marking a move and then showing it again, or the other way round, restores the saved map. */
  lemma ToggleTwiceRestores(marks: Object, key: string)
    requires key !in marks || marks[key] == Bool(true)
    ensures Toggled(Toggled(marks, key), key) == marks
  {
    if key in marks {
      assert (marks - {key})[key := Bool(true)] == marks;
    } else {
      assert marks[key := Bool(true)] - {key} == marks;
    }
  }

  /** The marks the catalog keeps for its moves. */
  class CatalogView {
    var hiddenMoves: Object
    var favoriteMoves: Object

    constructor (hidden: Object, favorites: Object)
      ensures hiddenMoves == hidden && favoriteMoves == favorites
    {
      hiddenMoves := hidden;
      favoriteMoves := favorites;
    }

    /** `confirmHideMove`, once the alert is answered: the move's key is flipped when confirmed. */
    method ConfirmHideMove(move: Object, confirmed: bool)
      modifies this
      ensures hiddenMoves ==
        if confirmed then Toggled(old(hiddenMoves), MakeMoveKey(Get(move, "danceStyle"), Get(move, "level"), Get(move, "name")))
        else old(hiddenMoves)
      ensures confirmed ==> (Marked(move, hiddenMoves) <==> !old(Marked(move, hiddenMoves)))
      ensures favoriteMoves == old(favoriteMoves)
    {
      if confirmed {
        var key := MakeMoveKey(Get(move, "danceStyle"), Get(move, "level"), Get(move, "name"));
        if Marked(move, hiddenMoves) {
          hiddenMoves := hiddenMoves - {key};
        } else {
          hiddenMoves := hiddenMoves[key := Bool(true)];
        }
      }
    }

    /** `confirmToggleFavorite`: flips the favorite mark of the move's key. */
    method ConfirmToggleFavorite(move: Object)
      modifies this
      ensures favoriteMoves == Toggled(old(favoriteMoves), MakeMoveKey(Get(move, "danceStyle"), Get(move, "level"), Get(move, "name")))
      ensures Marked(move, favoriteMoves) <==> !old(Marked(move, favoriteMoves))
      ensures hiddenMoves == old(hiddenMoves)
    {
      var key := MakeMoveKey(Get(move, "danceStyle"), Get(move, "level"), Get(move, "name"));
      if Marked(move, favoriteMoves) {
        favoriteMoves := favoriteMoves - {key};
      } else {
        favoriteMoves := favoriteMoves[key := Bool(true)];
      }
    }
  }
}
