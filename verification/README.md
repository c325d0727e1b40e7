# Dance app data rules, in Dafny

This project models the data logic of a React Native ballroom-dance app. In the app a dancer:

- browses a catalog of figures ("moves") per dance style and level;
- hides moves, marks favorites and records how well they know each move;
- practises randomly drawn moves that have a video clip;
- builds routines and reusable steps out of moves;
- sees on an info page which levels of the catalog are complete.

What is modelled is the logic underneath the screens:

- the storage utilities for move categories, settings and deleted moves;
- the ordered move-list editing of the routine and step editors;
- the timing, rotation and rotation-label helpers;
- the catalog and practice filter/sort pipeline and the video index;
- the routine and step collections;
- the completeness status of the info page.

JavaScript values are a `Values.Value` datatype:
- `undefined`, `null`, booleans, integers, `NaN`, strings, arrays and plain objects;
- truthiness, `||`, `??`, `===`, `+`, template-literal conversion and `parseInt` are written out.

A stored entry, step or routine is an `Object`, which is a `map<string, Value>`.

The catalog (`DANCE_MOVES`) is an input: an ordered sequence of style keys, each mapped to its level arrays.

Each screen whose handlers reassign React state is a class:
- `RoutineDetail.RoutineEditor`
- `StepDetail.StepEditor`
- `StepsScreen.StepsList`
- `RoutinesScreen.RoutinesList`
- `CatalogScreen.CatalogView`
- `Practice.PracticeSession`

Each handler is a method that reassigns the state fields. Each method's `ensures` states the new state in terms of list functions (`ReplaceById`, `UpdateById`, `DeleteById`, `DuplicateAfter`, `Refreshed`), and lemmas prove what those functions guarantee.

The two AsyncStorage documents are the `stored` field of `MoveCategories.CategoryStore` and of `Settings.SettingsStore`. `None` stands for "no item".

Ids, timestamps and the value of `Math.random()` are parameters. A confirmation dialog is a `confirmed` flag; a cancelled dialog leaves the state unchanged.

Modules, one concept each:

| module | what it holds |
|---|---|
| `Text` | trimming, ASCII lower-casing, `includes`, `replace(/\s+/g, "_")` |
| `Values`, `Options` | JavaScript values |
| `Seqs` | `filter`, `map`, `findIndex`, `find` and insertion over sequences |
| `Sections` | section lists |
| `Catalog` | the catalog and its flattening |
| `MoveFilters` | the narrowing filters shared by the catalog and practice screens |
| `DeletedMoves`, `MoveCategories`, `Settings` | the three utility files |
| `MoveLists` | the id-based list operations |
| `MoveLookup` | the catalog look-ups, timing and rotation helpers, shared by both editors |
| remaining modules | one per screen or component |

## Model

| member | source | states |
|---|---|---|
| `MoveCategories.MoveKey` | utils/moveCategories.js:27-29 | the category key is the style, level and name joined by `:` |
| `MoveCategories.MoveKeyInjective` | utils/moveCategories.js:27-29 | for style and level texts without a colon, equal keys mean equal style, level and name |
| `MoveCategories.CategoryAt` | utils/moveCategories.js:52-61 | the recorded category, or null when the key is absent or its value is falsy |
| `MoveCategories.ColorOf` | utils/moveCategories.js:118-126 | `"transparent"` for no category; the table colour for a known one; `undefined` for an unknown one |
| `MoveCategories.KnownCategoryColors` | utils/moveCategories.js:11-16 | each of the three categories has its own colour, and no category gives transparent |
| `MoveCategories.CategoryStore.constructor` | utils/moveCategories.js:35-43 | a new store has no item |
| `MoveCategories.CategoryStore.AllMoveCategories` | utils/moveCategories.js:35-43 | the stored object, or `{}` when nothing is stored |
| `MoveCategories.CategoryStore.GetMoveCategory` | utils/moveCategories.js:52-61 | null or a truthy recorded value; null for a key never set |
| `MoveCategories.CategoryStore.GetMoveCategoryColor` | utils/moveCategories.js:118-126 | transparent exactly when the move has no category; each known category gets its colour |
| `MoveCategories.CategoryStore.SetMoveCategory` | utils/moveCategories.js:71-88 | afterwards the move reads back `category \|\| null`, and every other key keeps its value |
| `MoveCategories.CategoryStore.RemoveMoveCategory` | utils/moveCategories.js:97-109 | afterwards the move reads back null, and every other key keeps its value |
| `MoveCategories.CategoryStore.ClearAllCategories` | utils/moveCategories.js:165-173 | afterwards all categories read as the empty object |
| `MoveCategories.CategoryStore.CategoryStatsAsWritten` | utils/moveCategories.js:132-159 | the `forEach` loop computes the stats as written: a stored `"total"` counted twice, and a stored inherited name such as `"constructor"` counted in `total` and left as an entry NaN (see Findings) |
| `MoveCategories.CategoryStore.CategoryStats` | utils/moveCategories.js:132-159 | the loop with the `total` key excluded computes the three tallies and their sum |
| `MoveCategories.StatsStart` | utils/moveCategories.js:135-140 | before any value is visited, the stats are all zero |
| `MoveCategories.StepAsWritten` | utils/moveCategories.js:142-147 | one visited value bumps its entry and `total` when `stats[value]` is not `undefined`: one of the four own keys or an inherited name (`__proto__` takes no number) |
| `MoveCategories.WrittenStep` | utils/moveCategories.js:142-147 | the same step on the tallies: the value's own tally goes up, `"total"` raises the total twice, and an inherited name raises it once and adds its NaN entry |
| `MoveCategories.Step` | utils/moveCategories.js:142-147 | one visited value bumps its counter and `total` only for the three known categories |
| `MoveCategories.StatsIgnoreOtherValues` | utils/moveCategories.js:142-147 | a value that is none of the three categories does not change the stats |
| `MoveCategories.StatsAgreeWithoutStrayValues` | utils/moveCategories.js:132-159 | when no stored value is `"total"` or an inherited name, the code as written and the corrected stats agree |
| `MoveCategories.StatsAsWrittenCountsTotalTwice` | utils/moveCategories.js:142-147 | one move recorded as `"total"` yields `total == 2` with all three tallies 0 |
| `MoveCategories.StatsAsWrittenCountsInheritedName` | utils/moveCategories.js:142-147 | one move recorded as `"constructor"` yields `total == 1`, all three tallies 0, and an extra entry `constructor: NaN` |
| `Settings.Merged` | utils/settings.js:16-27 | every default key is present and a stored key wins; with nothing stored, exactly the defaults |
| `Settings.SettingOf` | utils/settings.js:34-42 | the stored value, unless null or undefined, in which case the default |
| `Settings.SettingAfterUpdate` | utils/settings.js:50-61 | after `updateSetting(k, v)` with non-null `v`, `getSetting(k)` is `v` |
| `Settings.OtherSettingsAfterUpdate` | utils/settings.js:50-61 | after `updateSetting(k, v)`, every other key reads as before |
| `Settings.SettingsAfterBulkUpdate` | utils/settings.js:68-79 | after `updateSettings(u)`, keys of `u` read `u`'s non-null values, and other keys read as before |
| `Settings.SettingsStore.constructor` | utils/settings.js:16-20 | a new store has no item |
| `Settings.SettingsStore.GetSettings` | utils/settings.js:16-27 | every default key is present; with nothing stored, exactly the defaults |
| `Settings.SettingsStore.GetSetting` | utils/settings.js:34-42 | a setting that has a default never reads as null or undefined |
| `Settings.SettingsStore.UpdateSetting` | utils/settings.js:50-61 | stores the merged settings with the key set; that key reads back the value and the others are unchanged |
| `Settings.SettingsStore.UpdateSettings` | utils/settings.js:68-79 | stores the merged settings overridden by the updates; keys not updated are unchanged |
| `Settings.SettingsStore.ResetSettings` | utils/settings.js:85-94 | stores the defaults, and `getSettings` then equals the defaults |
| `DeletedMoves.MakeMoveKey` | utils/deletedMoves.js:8-9 | the deleted-move key is the style, level and name joined by `\|\|` |
| `DeletedMoves.MakeMoveKeyInjective` | utils/deletedMoves.js:8-9 | for style and level texts without a bar, equal keys mean equal style, level and name |
| `DeletedMoves.IsDeleted` | utils/deletedMoves.js:11-14 | false whenever style, level or name is falsy; otherwise true iff the map holds a truthy value at the key |
| `DeletedMoves.GetFilteredStyle` | utils/deletedMoves.js:45-63 | null iff the style is absent or not an object; otherwise the four filtered levels bronze, silver, gold and other |
| `DeletedMoves.FilterLevelContents` | utils/deletedMoves.js:48-57 | a missing or non-array level is `[]`; otherwise an order-preserving subsequence holding exactly the named, undeleted moves |
| `DeletedMoves.FilterLevelNothingDeleted` | utils/deletedMoves.js:51-56 | with an empty deleted map, a level is exactly its named moves |
| `MoveLists.ReplaceById` | screens/RoutineDetailScreen.js:550-556 | same length; the entries with the id become the new entry and all others are unchanged |
| `MoveLists.ReplaceByIdSettles` | screens/RoutineDetailScreen.js:550-556 | replacing again with the same entry changes nothing |
| `MoveLists.UpdateById` | screens/RoutineDetailScreen.js:697-712 | same length; entries without the id are unchanged, and entries with it take the edited fields and keep the rest |
| `MoveLists.UpdateByIdIdempotent` | screens/StepDetailScreen.js:363-377 | applying the same edits twice equals applying them once |
| `MoveLists.DeleteById` | screens/RoutineDetailScreen.js:609-641 | keeps exactly the entries whose id differs |
| `MoveLists.DeleteByIdRemovesExactly` | screens/StepDetailScreen.js:299-331 | the result is an order-preserving subsequence, shorter by the number of matching entries; without a match, the list is unchanged |
| `MoveLists.DuplicateAfterMissing` | screens/RoutineDetailScreen.js:723-727 | when no entry has the id, the list is unchanged |
| `MoveLists.DuplicateAfterPlacesCopy` | screens/RoutineDetailScreen.js:743-748 | the copy sits at index `i+1` after the first match `i`; the prefix and suffix are the old ones; length +1 |
| `MoveLists.DuplicateAfterKeepsEntries` | screens/StepDetailScreen.js:384-413 | the old list is an order-preserving subsequence of the new one, and the copy is inserted when the id is present |
| `MoveLists.SumCountsTotal` | screens/RoutineDetailScreen.js:589 | the `reduce` over `counts \|\| 0` is the integer sum when every count is numeric |
| `MoveLists.RefreshEntry` | screens/RoutineDetailScreen.js:110-131 | a step entry with stored step moves gets those moves and their re-summed counts, with all else kept; other entries are unchanged |
| `MoveLists.Refreshed` | screens/RoutineDetailScreen.js:109-133 | same length and order, entry by entry refreshed |
| `MoveLists.RefreshedIdempotent` | screens/RoutineDetailScreen.js:109-133 | reloading twice equals reloading once |
| `MoveLists.RefreshEntryIdempotent` | screens/RoutineDetailScreen.js:110-131 | refreshing one entry twice equals refreshing it once |
| `MoveLists.FormEdits` | screens/StepDetailScreen.js:366-375 | exactly the keys notes, technique, counts, timing, description, startFacing and endFacing (so never `id`); `timing` is `"<counts> counts"`; the notes, technique, description and both facings are the form's |
| `MoveLists.DuplicateOf` | screens/RoutineDetailScreen.js:730-741 | the copy has the selected entry's keys plus id, addedAt and the form's keys; the new id and timestamp; the form's notes, technique, counts, timing, description and facings; and every other field of the selected entry |
| `RoutineDetail.NewEntry` | screens/RoutineDetailScreen.js:540-545 | fields of `moveData` override the defaults; `notes` is `""`, and `id` and `addedAt` are given, when `moveData` lacks them |
| `RoutineDetail.StepEntry` | screens/RoutineDetailScreen.js:581-590 | `isStep` is true, `stepId` is the step id, the moves are the step's, and `counts` is the reduce over them |
| `RoutineDetail.StepEntryCounts` | screens/RoutineDetailScreen.js:589 | with numeric counts, a step entry's counts is the sum of its moves' counts |
| `RoutineDetail.FinalCounts` | screens/RoutineDetailScreen.js:689-695 | without an ending, the saved counts are the edited counts; with an ending and numeric edited counts, they are the edited counts plus the ending's catalog counts when those are numeric, and the edited counts when the ending is not in the catalog or its counts are falsy |
| `RoutineDetail.SaveEdits` | screens/RoutineDetailScreen.js:697-710 | exactly the form's keys plus endingMove and hasEnding (so no `id`); the form's notes, technique, description and facings; `counts` and `timing` from the final counts; `endingMove` and `hasEnding` from the ending |
| `RoutineDetail.SaveWithoutEnding` | screens/RoutineDetailScreen.js:688-717 | with no ending, the saved entry's counts and timing are the edited counts |
| `RoutineDetail.RoutineEditor.constructor` | screens/RoutineDetailScreen.js:48-70 | an empty list (`useState([])` at :48) and no move being replaced (`useState(null)` at :70) |
| `RoutineDetail.RoutineEditor.LoadMoves` | screens/RoutineDetailScreen.js:100-140 | a stored list becomes the refreshed list; no stored list leaves the state unchanged |
| `RoutineDetail.RoutineEditor.HandleReplaceMove` | screens/RoutineDetailScreen.js:643-646 | remembers the id of the move to replace; the list is unchanged |
| `RoutineDetail.RoutineEditor.HandleMoveSubmit` | screens/RoutineDetailScreen.js:539-568 | with a replacement pending, replaces the entries with that id and clears it; otherwise appends the new entry |
| `RoutineDetail.RoutineEditor.HandleAddStep` | screens/RoutineDetailScreen.js:570-603 | a step without moves leaves the list unchanged; otherwise exactly its step entry is appended |
| `RoutineDetail.RoutineEditor.HandleDeleteMove` | screens/RoutineDetailScreen.js:609-641 | once confirmed, exactly the entries with the id are removed |
| `RoutineDetail.RoutineEditor.HandleSaveNotes` | screens/RoutineDetailScreen.js:688-717 | only the entries with the selected id take the saved edits |
| `RoutineDetail.RoutineEditor.HandleDuplicateMove` | screens/RoutineDetailScreen.js:719-760 | nothing without a selection; otherwise the copy is placed right after the first entry with the id |
| `StepDetail.AddedCounts` | screens/StepDetailScreen.js:263 | the chosen timing when there is one, else the catalog default counts |
| `StepDetail.AddedEntry` | screens/StepDetailScreen.js:265-272 | name, `notes: ""`, the id, the counts and `"<counts> counts"` |
| `StepDetail.StepDanceStyles` | screens/StepDetailScreen.js:638 | a step's `danceStyles`, or its single `danceStyle` wrapped in an array |
| `StepDetail.FilteredMovesSections` | screens/StepDetailScreen.js:643-658 | a blank query gives the sections unchanged; otherwise only non-empty sections of moves whose name contains the lower-cased, untrimmed query |
| `StepDetail.StepEditor.constructor` | screens/StepDetailScreen.js:43 | an empty list |
| `StepDetail.StepEditor.HandleAddMove` | screens/StepDetailScreen.js:252-287 | adds iff a move is selected and it has no repeatable section or a timing was chosen; then one entry is appended |
| `StepDetail.StepEditor.HandleDeleteMove` | screens/StepDetailScreen.js:299-331 | once confirmed, exactly the entries with the id are removed |
| `StepDetail.StepEditor.HandleSaveNotes` | screens/StepDetailScreen.js:363-382 | only the entries with the selected id take the form's fields |
| `StepDetail.StepEditor.HandleDuplicateMove` | screens/StepDetailScreen.js:384-425 | nothing without a selection; otherwise the copy is placed right after the first entry with the id |
| `StepDetail.TimedMoveCarriesTiming` | screens/StepDetailScreen.js:258-270 | a move with a repeatable section, added with a timing, carries that timing as its counts |
| `StepDetail.UnknownMoveGetsEight` | screens/StepDetailScreen.js:190-201 | a move missing from the catalog, added without a timing, gets 8 counts and `"8 counts"` |
| `MoveLookup.CatalogMoveFirst` | screens/StepDetailScreen.js:193-198 | the look-up finds nothing iff no catalog entry names the move; otherwise the first entry that does |
| `MoveLookup.DefaultCounts` | screens/RoutineDetailScreen.js:858-869 | 8 for a move not in the catalog; the first match's `counts` when it is an object, 8 when it is a plain string |
| `MoveLookup.TimingOptions` | screens/RoutineDetailScreen.js:950-978 | six options `c + i*r` for a move with truthy `repeatableSection` r and `counts` c; otherwise `[]` |
| `MoveLookup.RepeatOptions` | screens/RoutineDetailScreen.js:964-973 | the `for` loop yields `c` then `c + i*r` for i = 1..5, and exactly `c + i*r` on numbers |
| `MoveLookup.TimingArithmetic` | screens/StepDetailScreen.js:236-245 | on numeric counts and section, the six options are the arithmetic progression |
| `MoveLookup.MoveRotation` | screens/RoutineDetailScreen.js:871-886 | the catalog move's `rotation` when it is an object with a truthy one, otherwise `[0, 0]`; never falsy |
| `MoveLookup.NumberArg` | screens/RoutineDetailScreen.js:895-896 | text and arrays are read through their text as `Number` does; objects, `undefined` and NaN give NaN |
| `MoveLookup.NumberArgText` | screens/RoutineDetailScreen.js:895-896 | numeric text and a one-element numeric array read as that number |
| `MoveLookup.RotationRange` | screens/RoutineDetailScreen.js:894-896 | NaN exactly when either bound is NaN; otherwise the two bounds, smaller first |
| `MoveLookup.RotationRangeOfText` | screens/RoutineDetailScreen.js:894-896 | the rotation `["0", "90"]` ranges from 0 to 90 |
| `Values.StringNumberText` | screens/RoutineDetailScreen.js:895-896 | `Number` reads back every integer that `String` writes |
| `MoveLookup.RotationOptions` | screens/RoutineDetailScreen.js:893-905 | starts at the minimum, steps by 45, and ends at the last value not above the maximum; `[0]` for a move with no data |
| `MoveLookup.AnglesBetween` | screens/RoutineDetailScreen.js:898-902 | the loop yields `(hi - lo) / 45 + 1` angles `lo + 45k`, the last one within 45 below `hi` |
| `MoveLookup.Eighths` | screens/RoutineDetailScreen.js:910 | the integer nearest to `\|d\|/45`, with halves rounded up |
| `MoveLookup.FormatRotationZero` | screens/RoutineDetailScreen.js:913 | 0 degrees read `"No Rotation"`, the same as written and corrected |
| `MoveLookup.FormatRotationNamedTurns` | screens/RoutineDetailScreen.js:913-917 | 90, 180, 270 and 360 degrees give the named turns plus the direction |
| `MoveLookup.FormatRotationEighths` | screens/RoutineDetailScreen.js:919 | any other non-zero angle gives `"n/8 Turn<dir>"` with n the rounded eighths, followed by the degrees |
| `MoveLookup.FormatRotationFortyFive` | screens/RoutineDetailScreen.js:907-920 | 45 degrees read `"1/8 Turn Right (45°)"`: direction before degrees |
| `MoveLookup.FormatRotationRoundsDown` | screens/RoutineDetailScreen.js:910 | 22 degrees round down to 0 eighths |
| `MoveLookup.FormatRotationRoundsUp` | screens/RoutineDetailScreen.js:910 | -23 degrees round up to 1 eighth, to the left |
| `MoveLookup.FormatRotationGlyphDiffers` | screens/RoutineDetailScreen.js:919 | the label as written carries `¬∞` instead of the degree sign (see Findings) |
| `MoveLookup.LevelOf` | screens/RoutineDetailScreen.js:221-232 | a level whose array holds an object with the name, with no earlier level array holding one; none when no level does |
| `MoveLookup.FindMoveLevel` | screens/RoutineDetailScreen.js:214-233 | null for a style that is absent or not an object; otherwise the level of the first level array holding the move, or null |
| `Catalog.LookupStyle` | screens/CatalogScreen.js:183-184 | none iff no catalog style has the key; otherwise that style's value |
| `Catalog.LookupLevel` | utils/deletedMoves.js:49 | `undefined` for a missing level; otherwise the level's array |
| `Catalog.SlotsMember` | screens/CatalogScreen.js:183-187 | the flattened catalog holds exactly the moves found at some style, level and index |
| `Catalog.TaggedMember` | screens/CatalogScreen.js:188-194 | the tagged list holds exactly the tags of the accepted moves |
| `Catalog.TaggedAppend` | screens/CatalogScreen.js:183-199 | tagging distributes over concatenation, so nested loops push in catalog order |
| `Catalog.Tag` | screens/CatalogScreen.js:189-193 | the move's fields plus `danceStyle` and `level`, which override any own fields of those names |
| `Catalog.CollectMoves` | screens/PracticeScreen.js:48-72 | the nested `forEach` loops push exactly the tagged accepted moves, in catalog order |
| `CatalogScreen.AllMoves` | screens/CatalogScreen.js:181-201 | every named catalog move, tagged with its style and level, in catalog order, and nothing else |
| `CatalogScreen.FormatDanceName` | screens/CatalogScreen.js:46-51 | same length; each underscore becomes a space, the first character of each word is upper-cased and every other character is kept |
| `CatalogScreen.FormatDanceNameWords` | screens/CatalogScreen.js:46-51 | equals splitting at `_`, upper-casing each word's first character and joining with spaces |
| `CatalogScreen.FormatDanceNameSplit` | screens/CatalogScreen.js:46-51 | the first word is capitalised on its own, followed by a space and the rest of the name |
| `Text.SplitFirst` | screens/CatalogScreen.js:48 | `split` gives the text before the first separator, then the pieces of the rest |
| `CatalogScreen.FormatDanceNameRoundTrip` | screens/CatalogScreen.js:46-51 | turning a lower-case style key into its display name and back gives the key |
| `CatalogScreen.FormatLevelRoundTrip` | screens/CatalogScreen.js:53-55 | lower-casing a display level gives back a lower-case level |
| `CatalogScreen.LocaleCompare` | screens/CatalogScreen.js:550 | -1, 0 or 1, and 0 exactly for equal strings |
| `CatalogScreen.LocaleCompareFlip` | screens/CatalogScreen.js:550 | swapping the arguments negates the comparison |
| `CatalogScreen.LocaleCompareTrans` | screens/CatalogScreen.js:564 | the string order is transitive |
| `CatalogScreen.CompareFlip` | screens/CatalogScreen.js:545-565 | the three-key comparator is antisymmetric and total |
| `CatalogScreen.InOrderTrans` | screens/CatalogScreen.js:545-565 | the three-key comparator is transitive |
| `CatalogScreen.InsertSorted` | screens/CatalogScreen.js:545 | inserting adds exactly the one element |
| `CatalogScreen.InsertSortedSorted` | screens/CatalogScreen.js:545-565 | inserting into a sorted list keeps it sorted by style, level rank and name |
| `CatalogScreen.SortMoves` | screens/CatalogScreen.js:545-565 | the result is sorted by style, then level rank, then name, and is a permutation of the input |
| `CatalogScreen.FilteredMoves` | screens/CatalogScreen.js:512-566 | sorted, and a permutation of exactly the moves that pass the style, level and query filters and are not hidden unless hidden moves are shown |
| `CatalogScreen.ListedMoves` | screens/CatalogScreen.js:539-542 | the hidden filter after the narrowing filters keeps exactly the listed moves, in order |
| `CatalogScreen.BuiltInIndexCounts` | screens/CatalogScreen.js:208-243 | distinct keys; a video is indexed iff some clip plays it; its `movesCount` is the number of such clips |
| `CatalogScreen.AddClipKnown` | screens/CatalogScreen.js:235-237 | a known video gets one more count and nothing else changes |
| `CatalogScreen.AddBuiltInVideos` | screens/CatalogScreen.js:208-243 | the built-in pass computes the built-in index |
| `CatalogScreen.AddFolderVideoAppends` | screens/CatalogScreen.js:459-501 | a folder video is added, with count 1, only when its key is absent; existing records and order are kept |
| `CatalogScreen.WithFolderAppends` | screens/CatalogScreen.js:459-501 | the folder pass keeps every built-in record and its position, and adds the folder keys, each with count 1 |
| `CatalogScreen.AddVideosFromFolder` | screens/CatalogScreen.js:459-501 | the folder loop computes the folder pass |
| `CatalogScreen.FileKeys` | screens/CatalogScreen.js:460 | exactly the texts of the folder videos' paths |
| `CatalogScreen.VideoList` | screens/CatalogScreen.js:507 | one record per key, in insertion order |
| `CatalogScreen.AllVideos` | screens/CatalogScreen.js:204-509 | one record per distinct video, covering every clip and folder file; a catalog video counts its clips and a folder-only video counts 1 |
| `CatalogScreen.ClipCountPositive` | screens/CatalogScreen.js:213-237 | every clip counts towards its own video |
| `CatalogScreen.Toggled` | screens/CatalogScreen.js:650-713 | the key's mark flips, and every other key is unchanged |
| `CatalogScreen.ToggleTwiceRestores` | screens/CatalogScreen.js:697-713 | toggling twice restores a map whose marks are `true` |
| `CatalogScreen.CatalogView.constructor` | screens/CatalogScreen.js:34-37 | the hidden and favorite maps (`useState({})` at :34 and :37) hold what `loadHiddenMoves` and `loadFavoriteMoves` (:69-108) read, a parameter here |
| `CatalogScreen.CatalogView.ConfirmHideMove` | screens/CatalogScreen.js:650-695 | once confirmed, hiding sets the key to true and showing deletes it; favorites are unchanged |
| `CatalogScreen.CatalogView.ConfirmToggleFavorite` | screens/CatalogScreen.js:697-713 | flips the favorite mark of exactly the move's key; hidden marks are unchanged |
| `MoveFilters.NarrowMoves` | screens/CatalogScreen.js:512-537 | the three successive filters keep exactly the moves that pass all three, in order |
| `MoveFilters.NarrowedIsSelection` | screens/PracticeScreen.js:76-100 | the filters only narrow: the result is an order-preserving subsequence |
| `Practice.AllMovesWithVideos` | screens/PracticeScreen.js:47-73 | exactly the named catalog moves with a video and defined `start` and `end`, tagged, in catalog order |
| `Practice.PracticeMovesInCatalog` | screens/PracticeScreen.js:54-60 | the practice list is an order-preserving subsequence of the catalog list |
| `Practice.MovesWithVideos` | screens/PracticeScreen.js:76-115 | the three filters, then favorites-only when enabled; an order-preserving subsequence with no sort |
| `Practice.RandomIndex` | screens/PracticeScreen.js:121 | `floor(r*n)` lies in `[0, n)` for `r` in `[0, 1)` |
| `Practice.EveryIndexDrawn` | screens/PracticeScreen.js:121 | every index is drawn for some random value |
| `Practice.GetRandomMove` | screens/PracticeScreen.js:117-123 | null exactly for an empty list; otherwise the element at `floor(random * length)` |
| `Practice.ListedMoveKept` | screens/PracticeScreen.js:191-204 | a current move that is still listed is not redrawn |
| `Practice.RedrawIffUnmatched` | screens/PracticeScreen.js:191-204 | a redraw happens iff no listed move matches the current one on name, style and level |
| `Practice.PracticeSession.constructor` | screens/PracticeScreen.js:26-29 | no move, loading, and both counters 0 |
| `Practice.PracticeSession.LoadNextMove` | screens/PracticeScreen.js:125-178 | the current move becomes the random draw and loading ends; the counters are unchanged |
| `Practice.PracticeSession.FiltersChanged` | screens/PracticeScreen.js:191-204 | draws again exactly when a redraw is needed; otherwise nothing changes |
| `Practice.PracticeSession.HandleCategorySelection` | screens/PracticeScreen.js:253-277 | nothing without a current move; otherwise stores the category under that move's key with every other key kept, adds exactly 1 to `total` and `session`, draws again and ends loading |
| `StepsScreen.StyleValues` | screens/StepsScreen.js:102 | the selected styles as an array, element by element |
| `StepsScreen.NewStep` | screens/StepsScreen.js:99-107 | the given id and name, the styles, `danceStyle` as the first style, and `videoUri \|\| null` |
| `StepsScreen.StepEdits` | screens/StepsScreen.js:156-163 | no `id`; the name, the styles, `danceStyle` as the first style, `videoUri \|\| null` and `updatedAt` |
| `StepsScreen.UpdatedStepKeepsFirstStyle` | screens/StepsScreen.js:154-165 | every updated step has a non-empty style list whose first element is its `danceStyle` |
| `StepsScreen.FilteredStepsExactly` | screens/StepsScreen.js:213-236 | an order-preserving subsequence holding exactly the steps whose name contains the trimmed query and whose styles include the filter style |
| `StepsScreen.Toggled` | screens/StepsScreen.js:259-265 | removes a present style and appends an absent one |
| `StepsScreen.ToggleTwiceRestores` | screens/StepsScreen.js:259-265 | toggling an absent style twice restores the list |
| `StepsScreen.StepsList.constructor` | screens/StepsScreen.js:25-29 | no steps and no selected styles |
| `StepsScreen.StepsList.ToggleDanceStyle` | screens/StepsScreen.js:259-265 | the selected styles are toggled; the steps are unchanged |
| `StepsScreen.StepsList.HandleCreateStep` | screens/StepsScreen.js:90-126 | rejects a blank name or an empty style list, with nothing changed; otherwise appends the new step and clears the styles |
| `StepsScreen.StepsList.HandleUpdateStep` | screens/StepsScreen.js:145-179 | same rejection; otherwise only the steps with the editing id take the edits |
| `StepsScreen.StepsList.HandleDeleteStep` | screens/StepsScreen.js:181-201 | once confirmed, exactly the steps with the id are removed |
| `RoutinesScreen.NewRoutine` | screens/RoutinesScreen.js:63-69 | the given id, name, description and style |
| `RoutinesScreen.RoutineEdits` | screens/RoutinesScreen.js:120-126 | no `id`; the name, description, style and `updatedAt` |
| `RoutinesScreen.RoutinesList.constructor` | screens/RoutinesScreen.js:24-31 | no routines |
| `RoutinesScreen.RoutinesList.HandleCreateRoutine` | screens/RoutinesScreen.js:57-86 | rejects a blank name or no style, with nothing changed; otherwise appends the routine with trimmed name and description |
| `RoutinesScreen.RoutinesList.HandleUpdateRoutine` | screens/RoutinesScreen.js:112-142 | same rejection; otherwise only the routines with the editing id take the edits |
| `RoutinesScreen.RoutinesList.HandleDeleteRoutine` | screens/RoutinesScreen.js:144-165 | once confirmed, exactly the routines with the id are removed |
| `AddMoveModal.FilteredMovesSections` | components/AddMoveModal.js:59-71 | a blank query gives the sections unchanged; otherwise only non-empty sections of items whose name contains the query |
| `Sections.FilterSections` | components/AddMoveModal.js:63-70 | every kept section is non-empty and holds only matching items |
| `Sections.FilterSectionsKeepsMatches` | components/AddMoveModal.js:63-70 | every matching item survives in its section, and every kept item came from a section of the same title |
| `AddMoveModal.Flatten` | components/AddMoveModal.js:121-122 | the flattened list holds exactly the items of all sections |
| `AddMoveModal.HandleAddMove` | components/AddMoveModal.js:115-127 | nothing without a selection; otherwise the first item, across all sections, named as selected, or `undefined` when none is |
| `AddMoveModal.CustomCounts` | components/AddMoveModal.js:137 | 2 for empty counts text, otherwise `parseInt` of it |
| `AddMoveModal.HandleCreateMove` | components/AddMoveModal.js:129-144 | nothing for a blank name; otherwise the trimmed name, the counts and both facings |
| `AddMoveModal.CreatedCountsRoundTrip` | components/AddMoveModal.js:137 | a counts text written from an integer is read back as that integer |
| `AddMoveModal.CreatedCountsNaN` | components/AddMoveModal.js:137 | a counts text without digits gives `NaN` counts |
| `AddMoveModal.ParseIntOfLetter` | components/AddMoveModal.js:137 | `parseInt("x")` is `NaN` |
| `Values.ParseIntNumberText` | components/AddMoveModal.js:137 | `parseInt` reads back every integer that `String` writes |
| `InfoScreen.AllMovesHaveCounts` | screens/InfoScreen.js:25-28 | false for a non-array or empty array; otherwise true iff every move has numeric counts |
| `InfoScreen.GetLevelStatus` | screens/InfoScreen.js:31-44 | all false when the filtered style is null; otherwise each flag is `allMovesHaveCounts` of that level |
| `InfoScreen.GetLevelCounts` | screens/InfoScreen.js:47-62 | each level's filtered length, or 0 when the style is null |
| `InfoScreen.GetStyleColor` | screens/InfoScreen.js:64-67 | always the complete or the incomplete colour |
| `InfoScreen.GetLevelColor` | screens/InfoScreen.js:69-72 | green exactly when that level's flag holds |
| `InfoScreen.StyleGreenIffLevelsGreen` | screens/InfoScreen.js:64-72 | a style is green iff its bronze, silver and gold levels are all green |
| `InfoScreen.OtherLevelColor` | screens/InfoScreen.js:69-72 | a level other than the three is green exactly when it is an inherited property name such as `constructor`, since `status[level]` then reads a truthy built-in |
| `InfoScreen.OtherLevelRed` | screens/InfoScreen.js:69-72 | a level such as `"other"` is red |
| `InfoScreen.LevelCompleteInCatalog` | screens/InfoScreen.js:25-44 | a level is complete iff its catalog array has a kept move and every kept move has numeric counts |
| `Text.TrimStart` | screens/StepsScreen.js:91 | strips exactly the leading white space |
| `Text.TrimEnd` | screens/StepsScreen.js:91 | strips exactly the trailing white space |
| `Text.BlankIffAllSpace` | screens/StepsScreen.js:91 | a text is blank after trimming iff it is all white space |
| `Text.TrimmedEnds` | screens/StepsScreen.js:101 | a trimmed non-blank text starts and ends with a non-space |
| `Text.ToLower` | screens/CatalogScreen.js:532 | same length, each letter lower-cased |
| `Text.IncludesAt` | screens/CatalogScreen.js:535 | `includes` holds iff the text occurs at some index |
| `Text.Underscored` | screens/CatalogScreen.js:518-520 | the result has no white space |
| `Text.UnderscoredOfSpaceFree` | screens/CatalogScreen.js:518-520 | a text without white space is unchanged by the replacement |
| `Text.UnderscoredKeepsLower` | screens/CatalogScreen.js:518-520 | the replacement keeps a lower-case text lower-case |
| `Text.StyleKeyIdempotent` | screens/CatalogScreen.js:518-520 | turning a style key into a style key again changes nothing |
| `Seqs.Filter` | screens/CatalogScreen.js:521 | keeps exactly the elements that pass, never more than the input |
| `Seqs.FilterIsSubsequence` | screens/CatalogScreen.js:521 | filtering keeps an order-preserving subsequence |
| `Seqs.FilterTwice` | screens/CatalogScreen.js:521-526 | two successive filters equal one filter by both conditions |
| `Seqs.FindIndex` | screens/RoutineDetailScreen.js:723-725 | the first index that satisfies the test, or -1 exactly when none does |
| `Seqs.Find` | screens/RoutineDetailScreen.js:861-866 | none iff no element passes; otherwise the first that does |
| `Seqs.InsertAt` | screens/RoutineDetailScreen.js:744-748 | the element at `i`, with the old prefix before it and the old suffix after it |
| `Seqs.InsertAtIsSupersequence` | screens/RoutineDetailScreen.js:744-748 | inserting keeps every old element in the same relative order |
| `Seqs.InsertAtMultiset` | screens/RoutineDetailScreen.js:744-748 | inserting adds exactly the one new element |

## Left out

- Storage and files:
  - AsyncStorage and the expo file system are the `stored` fields or plain inputs and outputs, and `JSON.parse`/`JSON.stringify` are identities.
  - Write errors are not modelled, so every storage operation reports success, which is what the source returns when the write succeeds.
  - The load and save helpers of the hidden, favorite and deleted maps are left out.
- `Date.now()`, `new Date().toISOString()` and `Math.random()` are parameters.
- `Promise.all` in `loadMoves` is a sequential map over the entries.
- Rendering and navigation are left out:
  - JSX, style sheets, alerts, `window.confirm` and navigation; a confirmation is a `confirmed` flag;
  - modal visibility flags and form resets;
  - animations: `loadNextMove` is reduced to the draw and the loading flag, and the 200 ms delay before the next draw is not modelled.
- Other parts of the source are not part of this model:
  - the PDF export;
  - thumbnails;
  - the video player;
  - the settings screen;
  - `filteredVideos`;
  - the hard-coded folder video list, which is the `folderFiles` input of `CatalogScreen.AllVideos`;
  - the catalog data itself, which is the input `DanceMoves`.
- `useMemo` dependencies: `filteredMoves` leaves `showHiddenMoves` and `hiddenMoves` out of its dependency list, so it can show a stale list. The model recomputes from all inputs.
- The endings feature is switched off in the source:
  - `hasEndings` is constantly false, so `RoutineDetail.FinalCounts` only keeps the ending's addition for an ending that is set;
  - `endingMove` passes through.
- Numbers:
  - only integers, with NaN kept apart; fractional counts, infinities and number-to-string formatting of non-integers are not modelled;
  - `Values.Times` treats a string operand as NaN rather than converting numeric text.
- `CatalogScreen.LocaleCompare` is code-point order, not the locale collation of `localeCompare`.
- Case conversion touches only ASCII letters.
- `CatalogScreen.SortMoves` is an insertion sort over a sequence rather than an in-place sort. Its result is sorted and a permutation, but stability is not stated.
- Values the source would throw on are outside the model. These are:
  - a `null` catalog entry (`typeof null === "object"`, so `m.name` throws) in `findMoveLevel` and in every catalog `find` of the editors: `MoveLookup.CatalogMove`, `MoveLookup.CatalogMoveFirst`, `MoveLookup.DefaultCounts`, `MoveLookup.MoveRotation`, `MoveLookup.TimingOptions`, `RoutineDetail.FinalCounts` and the step editor's look-ups in `StepDetail.AddedCounts` (RoutineDetailScreen.js:788-955, StepDetailScreen.js:172-448). The model's `MoveLookup.NamesMove` compares a `null` entry with `===` and goes on to the next entry;
  - a non-string truthy name in the search filters, where `toLowerCase` would throw;
  - an `editingStep` or `selectedMoveForDetail` of null.

  The model reads a missing property as `undefined` instead.
- `Values.ToStr` of an array joins its elements, and of an object gives `"[object Object]"`. Objects with their own `toString` and Symbol-keyed properties are not modelled.
- `Catalog.Tag` takes the move's own fields only; prototype properties are not modelled.
- `Practice.PracticeSession.HandleCategorySelection`: the 200 ms `setTimeout` and the fade animation before the next draw are not modelled; the store write, the counter update and the draw happen in one step.
- `Practice.PracticeSession.FiltersChanged`: React runs this effect only when `selectedDanceStyle`, `selectedLevel` or `searchQuery` changes. A change of `showOnlyFavorites` or `favoriteMoves` does not run it, and the model does not track which inputs changed.
- `MoveLookup.NumberArg`: only an optional sign followed by decimal digits is read as a number. Fractions, exponents, `0x`/`0o`/`0b` prefixes and `Infinity` read as NaN here, where `Number` would accept them.
- Property reads see own keys only, except where the model names the inherited names of `Object.prototype` (`Values.INHERITED_NAMES`): the written category stats and `status[level]` in `InfoScreen.GetLevelColor`.
- `MoveCategories.ColorOf`: a stored category that is an inherited name, such as `"constructor"`, reads a built-in function from `CATEGORY_COLORS`. A `Value` cannot hold a function, so the model gives `undefined` there.

## Findings

| source | as written | input that shows it | evidently intended | confidence | as-written member | corrected member |
|---|---|---|---|---|---|---|
| screens/RoutineDetailScreen.js:919 | the degree sign is stored mis-encoded as `¬∞` (the UTF-8 bytes of `°` read as Mac Roman) | `formatRotation(45)` gives `"1/8 Turn Right (45¬∞)"` | `"1/8 Turn Right (45°)"` | not executed | `MoveLookup.FormatRotationAsWritten`, `MoveLookup.FormatRotationGlyphDiffers` | `MoveLookup.FormatRotation`, `MoveLookup.FormatRotationFortyFive` |
| utils/moveCategories.js:142-147 | `stats[category] !== undefined` also accepts the value `"total"` and every inherited property name, so `"total"` bumps `total` twice and `"constructor"` bumps `total` and leaves an entry NaN | one move recorded as `"total"`: `total` becomes 2 while all three tallies stay 0; one move recorded as `"constructor"`: `total` becomes 1 and `constructor: NaN` appears | only the three categories are counted, and `total` is their sum | not executed | `MoveCategories.CategoryStore.CategoryStatsAsWritten`, `MoveCategories.StatsAsWrittenCountsTotalTwice`, `MoveCategories.StatsAsWrittenCountsInheritedName` | `MoveCategories.CategoryStore.CategoryStats`, `MoveCategories.StatsIgnoreOtherValues` |
