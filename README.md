# GMS Flags client core in Dafny

GMS Flags is an Android app for viewing and overriding the Phenotype flags
of Google Mobile Services packages. The privileged database work runs in a
root service. This project models the logic on the app's side of that
service:

- **Flag editor view model** (`FlagChange`, class `FlagChangeScreenViewModel`).
  It keeps four full flag maps (Bool, Int, Float, String) and four maps of
  changed flags. It also keeps the current selection, the filter chip, the
  search query and one screen state per type (Loading, Error or Success of a
  map). Loads merge into the maps. The getters filter by chip and by search
  query. Updates, turn all on or off, enable or disable the selection,
  select all and reset change the maps in place. The progress-dialog wait is
  a bucket function of the flag count.
- **Flag editor screen** (`FlagChangeScreen`, class `SelectionMode`). It
  covers the selection mode and its long-click and short-click handlers,
  leaving selection mode when the selection empties, the page to flag-type
  mapping, the add-flag dialog's Bool encoding, and the `name: value` text
  of the selected flags.
- **Search view model** (`Search`, class `SearchScreenViewModel`). The
  installed-apps list is filtered by app name and sorted in one of four
  orders. The GMS packages map is filtered by key and ordered by key. It
  also holds the package dialog's state.
- **Root database connection** (`RootDb`, class `InitRootDB`). It holds the
  initialized flag, the stored binder handle and the published
  initialization state, which the service connection callbacks drive. A
  guarded accessor hands out the handle.
- **Navigation** (`Navigation`). It picks the root graph's start
  destination from the first-start flag and the launching intent, picks the
  one route `rootComposable` registers, and builds the route strings.
- **Common** (`Common`). It holds the shared pieces: the UI state, an
  option type, ASCII ignore-case `contains`, the natural order of strings,
  the key-ordered enumeration of a map, and the search filter on map keys.

Every launched coroutine, including those that collect a Flow, is one
atomic step. Each Flow emission that a view model collects is a method
taking the emitted `UiState`. The binder handle is a type parameter that
the model never inspects. `filterByEnabled` and `filterByDisabled` are
shared helpers whose source is not part of this model. They are
uninterpreted value predicates that the flag editor view model receives at
construction. Key sorting (`toSortMap`, `toSortedMap`) leaves a map's
contents alone. Its order is modelled by `Common.SortedKeys`.

## Model

| member | source | states |
|---|---|---|
| Common.EmptyQueryMatches | features/flagsChange/src/main/kotlin/ua/polodarb/flagsChange/FlagChangeScreenViewModel.kt:234-236 | every key contains the empty query |
| Common.NarrowerQuery | features/search/src/main/kotlin/ua/polodarb/search/SearchScreenViewModel.kt:232-234 | a key that contains a longer query also contains every query that occurs in it |
| Common.SubstringTransitive | features/search/src/main/kotlin/ua/polodarb/search/SearchScreenViewModel.kt:176-178 | containment of strings is transitive |
| Common.LowerChar | features/search/src/main/kotlin/ua/polodarb/search/SearchScreenViewModel.kt:177 | an ASCII capital folds to the small letter at the same alphabet position, and every other character is kept |
| Common.UpperChar | features/search/src/main/kotlin/ua/polodarb/search/SearchScreenViewModel.kt:177 | an ASCII small letter goes to a capital that folds back to it, and every other character is kept |
| Common.LowerIdempotent | features/search/src/main/kotlin/ua/polodarb/search/SearchScreenViewModel.kt:177 | folding an already folded string changes nothing |
| Common.LowerOfUpper | features/search/src/main/kotlin/ua/polodarb/search/SearchScreenViewModel.kt:177 | upper-casing a string before folding it gives the same folded string |
| Common.ContainsIgnoreCase | features/search/src/main/kotlin/ua/polodarb/search/SearchScreenViewModel.kt:177 | a query longer than the name never matches |
| Common.CaseIgnored | features/search/src/main/kotlin/ua/polodarb/search/SearchScreenViewModel.kt:177 | the match is unchanged when the name or the query is upper-cased, and a name matches its own upper-cased form |
| Common.LexLeTotal | features/search/src/main/kotlin/ua/polodarb/search/SearchScreenViewModel.kt:180-189 | any two strings are comparable in String.compareTo order |
| Common.LexLeAntisymmetric | features/search/src/main/kotlin/ua/polodarb/search/SearchScreenViewModel.kt:180-189 | two strings that are each at most the other are equal |
| Common.LexLeTransitive | features/search/src/main/kotlin/ua/polodarb/search/SearchScreenViewModel.kt:180-189 | the string order is transitive |
| Common.LexLeReflexive | features/search/src/main/kotlin/ua/polodarb/search/SearchScreenViewModel.kt:180-189 | every string is at most itself |
| Common.LexLeNotGreater | features/search/src/main/kotlin/ua/polodarb/search/SearchScreenViewModel.kt:180-189 | a string is at most another exactly when the other does not come strictly before it |
| Common.LeastExists | features/search/src/main/kotlin/ua/polodarb/search/SearchScreenViewModel.kt:234 | a non-empty key set has a least key |
| Common.LeastUnique | features/search/src/main/kotlin/ua/polodarb/search/SearchScreenViewModel.kt:234 | the least key is unique |
| Common.SortedKeys | features/search/src/main/kotlin/ua/polodarb/search/SearchScreenViewModel.kt:234 | a key-sorted map iterates each key exactly once, in strictly ascending order |
| Common.FilterKeys | features/flagsChange/src/main/kotlin/ua/polodarb/flagsChange/FlagChangeScreenViewModel.kt:234-236 | a key is kept exactly when it contains the query, ignoring case, and values are unchanged |
| Common.FilterKeysEmptyQuery | features/flagsChange/src/main/kotlin/ua/polodarb/flagsChange/FlagChangeScreenViewModel.kt:234-236 | an empty query keeps the whole map |
| Common.FilterKeysIdempotent | features/flagsChange/src/main/kotlin/ua/polodarb/flagsChange/FlagChangeScreenViewModel.kt:234-236 | filtering twice by the same query is filtering once |
| Common.FilterKeysNarrows | features/flagsChange/src/main/kotlin/ua/polodarb/flagsChange/FlagChangeScreenViewModel.kt:234-236 | a query that contains another keeps a subset of its keys |
| FlagChange.FilterValues | features/flagsChange/src/main/kotlin/ua/polodarb/flagsChange/FlagChangeScreenViewModel.kt:184-185 | the filterByEnabled/filterByDisabled chips keep exactly the entries whose value satisfies the predicate, with values unchanged |
| FlagChange.BoolView | features/flagsChange/src/main/kotlin/ua/polodarb/flagsChange/FlagChangeScreenViewModel.kt:180-193 | the Bool page shows, for each chip, exactly the search-matching keys of the changed list, of the enabled or disabled full entries, or of the full list, with that source's values |
| FlagChange.OtherView | features/flagsChange/src/main/kotlin/ua/polodarb/flagsChange/FlagChangeScreenViewModel.kt:195-232 | the Int, Float and String pages show the search-matching keys of the changed list under Changed, and of the full list otherwise |
| FlagChange.SetValues | features/flagsChange/src/main/kotlin/ua/polodarb/flagsChange/FlagChangeScreenViewModel.kt:246-266 | every listed name maps to the new value, inserted when absent, and every other key keeps its value |
| FlagChange.SetValuesSnoc | features/flagsChange/src/main/kotlin/ua/polodarb/flagsChange/FlagChangeScreenViewModel.kt:254-257 | one more name in the loop is one more single-key update |
| FlagChange.ReplaceExisting | features/flagsChange/src/main/kotlin/ua/polodarb/flagsChange/FlagChangeScreenViewModel.kt:268-311 | `replace` keeps the key set, changes a present key and adds no key |
| FlagChange.EveryValue | features/flagsChange/src/main/kotlin/ua/polodarb/flagsChange/FlagChangeScreenViewModel.kt:414-448 | turning all on or off keeps the key set and makes every value the same |
| FlagChange.SelectedOnly | features/flagsChange/src/main/kotlin/ua/polodarb/flagsChange/FlagChangeScreenViewModel.kt:452-490 | the Int, Float and String override maps are the filtered maps cut down to the selected keys |
| FlagChange.FlipSelected | features/flagsChange/src/main/kotlin/ua/polodarb/flagsChange/FlagChangeScreenViewModel.kt:452-490 | the Bool override map holds exactly the selected keys at the old value, each mapped to the new one |
| FlagChange.SelectedOverrides | features/flagsChange/src/main/kotlin/ua/polodarb/flagsChange/FlagChangeScreenViewModel.kt:452-490 | enable sends exactly the selected "0" Bool keys as "1", disable sends exactly the selected "1" keys as "0", and both send the other types cut down to the selection |
| FlagChange.ProgressDelayAsWritten | features/flagsChange/src/main/kotlin/ua/polodarb/flagsChange/FlagChangeScreenViewModel.kt:641-649 | as written, the wait is between 0 and 10000 ms, is 0 exactly up to 50 flags or at exactly 1501, and is 10000 exactly above 1501 |
| FlagChange.ProgressDelayAsWrittenDrops | features/flagsChange/src/main/kotlin/ua/polodarb/flagsChange/FlagChangeScreenViewModel.kt:641-649 | as written, 1500 flags wait 9000 ms, 1501 wait 0 and 1502 wait 10000 |
| FlagChange.ProgressDelayAsWrittenNotMonotone | features/flagsChange/src/main/kotlin/ua/polodarb/flagsChange/FlagChangeScreenViewModel.kt:641-649 | as written, more flags can mean a shorter wait |
| FlagChange.ProgressDelay | features/flagsChange/src/main/kotlin/ua/polodarb/flagsChange/FlagChangeScreenViewModel.kt:639-649 | the wait is between 0 and 10000 ms, is 0 exactly up to 50 flags and 10000 exactly above 1500, and agrees with the written buckets everywhere except 1501 |
| FlagChange.ProgressDelayMonotone | features/flagsChange/src/main/kotlin/ua/polodarb/flagsChange/FlagChangeScreenViewModel.kt:641-649 | more flags never mean a shorter wait |
| FlagChange.FullSelectionSetsEveryValue | features/flagsChange/src/main/kotlin/ua/polodarb/flagsChange/FlagChangeScreenViewModel.kt:464-468 | when the selection names every shown key once, updating the selection equals turning every value on or off, so the size test picks between equal outcomes |
| FlagChange.SelectAllThenSetEveryValue | features/flagsChange/src/main/kotlin/ua/polodarb/flagsChange/FlagChangeScreenViewModel.kt:616-627 | after select all, updating the selected names gives the same Bool data as setting every value, so enable/disable-selected sets every shown flag either way |
| FlagChange.TurnOnAllReachesHiddenFlags | features/flagsChange/src/main/kotlin/ua/polodarb/flagsChange/FlagChangeScreenViewModel.kt:464-468 | with a search active, the size test can pass while the full Bool list holds a hidden flag: the override names only the shown flag, but every flag in the list is set to "1" |
| FlagChange.ShortcutCachesUnsentValues | features/flagsChange/src/main/kotlin/ua/polodarb/flagsChange/FlagChangeScreenViewModel.kt:464-468 | as written, when the shortcut turns every value on or off, a flag that is not selected and holds the old value is left out of the override sent but changed in the cached Bool list |
| FlagChange.CachedAfterSelected | features/flagsChange/src/main/kotlin/ua/polodarb/flagsChange/FlagChangeScreenViewModel.kt:467 | updating only the selected names sets each of them to the new value, adds no other key, and keeps every other value |
| FlagChange.CachedAfterSelectedAgreesWithSent | features/flagsChange/src/main/kotlin/ua/polodarb/flagsChange/FlagChangeScreenViewModel.kt:452-490 | with that update only selected names change in the cached Bool list, and every Bool override sent is cached with the value sent |
| FlagChange.Added | features/flagsChange/src/main/kotlin/ua/polodarb/flagsChange/FlagChangeScreenViewModel.kt:382-411 | adding a flag by hand puts the name and value into a Success state, keeps its other entries, and leaves Loading and Error as they are |
| FlagChange.Recorded | features/flagsChange/src/main/kotlin/ua/polodarb/flagsChange/FlagChangeScreenViewModel.kt:526-557 | a supplied override value is stored under the flag's name, other entries are kept, and an absent one changes nothing |
| FlagChange.FlagChangeScreenViewModel.constructor | features/flagsChange/src/main/kotlin/ua/polodarb/flagsChange/FlagChangeScreenViewModel.kt:56-98 | every map and the selection start empty, every screen state is Loading, and the chip is All |
| FlagChange.FlagChangeScreenViewModel.GetBoolFlags | features/flagsChange/src/main/kotlin/ua/polodarb/flagsChange/FlagChangeScreenViewModel.kt:180-193 | the Bool state becomes Success of the Bool page's view of the current maps |
| FlagChange.FlagChangeScreenViewModel.GetIntFlags | features/flagsChange/src/main/kotlin/ua/polodarb/flagsChange/FlagChangeScreenViewModel.kt:195-206 | the Int state becomes Success of the Int page's view |
| FlagChange.FlagChangeScreenViewModel.GetFloatFlags | features/flagsChange/src/main/kotlin/ua/polodarb/flagsChange/FlagChangeScreenViewModel.kt:208-219 | the Float state becomes Success of the Float page's view |
| FlagChange.FlagChangeScreenViewModel.GetStringFlags | features/flagsChange/src/main/kotlin/ua/polodarb/flagsChange/FlagChangeScreenViewModel.kt:221-232 | the String state becomes Success of the String page's view |
| FlagChange.FlagChangeScreenViewModel.GetAllFlags | features/flagsChange/src/main/kotlin/ua/polodarb/flagsChange/FlagChangeScreenViewModel.kt:238-243 | all four states are refreshed from the current maps |
| FlagChange.FlagChangeScreenViewModel.InitBoolValues | features/flagsChange/src/main/kotlin/ua/polodarb/flagsChange/FlagChangeScreenViewModel.kt:103-112 | a Success emission merges into the full Bool list and refreshes the page; Loading and Error are shown and merge nothing |
| FlagChange.FlagChangeScreenViewModel.InitIntValues | features/flagsChange/src/main/kotlin/ua/polodarb/flagsChange/FlagChangeScreenViewModel.kt:138-147 | the same for the Int list |
| FlagChange.FlagChangeScreenViewModel.InitFloatValues | features/flagsChange/src/main/kotlin/ua/polodarb/flagsChange/FlagChangeScreenViewModel.kt:149-158 | the same for the Float list |
| FlagChange.FlagChangeScreenViewModel.InitStringValues | features/flagsChange/src/main/kotlin/ua/polodarb/flagsChange/FlagChangeScreenViewModel.kt:160-169 | the same for the String list |
| FlagChange.FlagChangeScreenViewModel.InitOverriddenBoolFlags | features/flagsChange/src/main/kotlin/ua/polodarb/flagsChange/FlagChangeScreenViewModel.kt:314-324 | a Success emission replaces the changed Bool list and merges into the full list without touching the state; Loading and Error are shown |
| FlagChange.FlagChangeScreenViewModel.InitOverriddenIntFlags | features/flagsChange/src/main/kotlin/ua/polodarb/flagsChange/FlagChangeScreenViewModel.kt:326-336 | the same for the Int lists |
| FlagChange.FlagChangeScreenViewModel.InitOverriddenFloatFlags | features/flagsChange/src/main/kotlin/ua/polodarb/flagsChange/FlagChangeScreenViewModel.kt:338-348 | the same for the Float lists |
| FlagChange.FlagChangeScreenViewModel.InitOverriddenStringFlags | features/flagsChange/src/main/kotlin/ua/polodarb/flagsChange/FlagChangeScreenViewModel.kt:350-372 | the same for the String lists |
| FlagChange.FlagChangeScreenViewModel.UpdateBoolFlagValues | features/flagsChange/src/main/kotlin/ua/polodarb/flagsChange/FlagChangeScreenViewModel.kt:246-266 | with Bool data shown, the listed names get the new value in both the state and the full list; otherwise nothing changes |
| FlagChange.FlagChangeScreenViewModel.UpdateIntFlagValue | features/flagsChange/src/main/kotlin/ua/polodarb/flagsChange/FlagChangeScreenViewModel.kt:268-285 | a Success state gains or changes the key; the full Int list changes the key only if present, whatever the state |
| FlagChange.FlagChangeScreenViewModel.UpdateFloatFlagValue | features/flagsChange/src/main/kotlin/ua/polodarb/flagsChange/FlagChangeScreenViewModel.kt:287-299 | with Float data shown, the state gains or changes the key and the full list changes it only if present; otherwise nothing changes |
| FlagChange.FlagChangeScreenViewModel.UpdateStringFlagValue | features/flagsChange/src/main/kotlin/ua/polodarb/flagsChange/FlagChangeScreenViewModel.kt:301-311 | the same for String |
| FlagChange.FlagChangeScreenViewModel.AddManuallyFlag | features/flagsChange/src/main/kotlin/ua/polodarb/flagsChange/FlagChangeScreenViewModel.kt:382-411 | only the state of the chosen type gains the entry, and only when it holds data |
| FlagChange.FlagChangeScreenViewModel.TurnOnAllBoolFlags | features/flagsChange/src/main/kotlin/ua/polodarb/flagsChange/FlagChangeScreenViewModel.kt:414-430 | every value of a Success state and of the full Bool list becomes "1", with key sets kept |
| FlagChange.FlagChangeScreenViewModel.TurnOffAllBoolFlags | features/flagsChange/src/main/kotlin/ua/polodarb/flagsChange/FlagChangeScreenViewModel.kt:432-448 | every value becomes "0", with key sets kept |
| FlagChange.FlagChangeScreenViewModel.EnableSelectedFlag | features/flagsChange/src/main/kotlin/ua/polodarb/flagsChange/FlagChangeScreenViewModel.kt:452-471 | the enable container is sent; then, with Bool data shown, all values turn on when the key count equals the selection size, and otherwise only the selection does; without data the cast fails and nothing changes |
| FlagChange.FlagChangeScreenViewModel.DisableSelectedFlag | features/flagsChange/src/main/kotlin/ua/polodarb/flagsChange/FlagChangeScreenViewModel.kt:473-490 | the mirror image with "0" |
| FlagChange.FlagChangeScreenViewModel.OverrideFlag | features/flagsChange/src/main/kotlin/ua/polodarb/flagsChange/FlagChangeScreenViewModel.kt:526-557 | each supplied value is recorded in the changed list of its type |
| FlagChange.FlagChangeScreenViewModel.SelectAllItems | features/flagsChange/src/main/kotlin/ua/polodarb/flagsChange/FlagChangeScreenViewModel.kt:616-627 | with Bool data shown, the selection becomes every shown key once, in ascending key order; otherwise it is kept |
| FlagChange.FlagChangeScreenViewModel.FalseProgressDelay | features/flagsChange/src/main/kotlin/ua/polodarb/flagsChange/FlagChangeScreenViewModel.kt:631-654 | the dialog opens only with Bool data shown, and waits for the bucket as written of the custom count, or of the shown key count without one; the wait is between 0 and 10000 ms |
| FlagChange.FlagChangeScreenViewModel.ResetFilterLists | features/flagsChange/src/main/kotlin/ua/polodarb/flagsChange/FlagChangeScreenViewModel.kt:690-701 | all eight maps become empty |
| FlagChangeScreen.RemoveFirst | features/flagsChange/src/main/kotlin/ua/polodarb/flagsChange/FlagChangeScreen.kt:563 | `remove` drops one occurrence of a selected name and leaves a selection without it as it is |
| FlagChangeScreen.FirstIndex | features/flagsChange/src/main/kotlin/ua/polodarb/flagsChange/FlagChangeScreen.kt:563 | the index of the first occurrence of a name in the selection |
| FlagChangeScreen.RemoveFirstKeepsOrder | features/flagsChange/src/main/kotlin/ua/polodarb/flagsChange/FlagChangeScreen.kt:563 | `remove` takes out exactly the first occurrence and keeps the order of the rest |
| FlagChangeScreen.RemoveFirstAppended | features/flagsChange/src/main/kotlin/ua/polodarb/flagsChange/FlagChangeScreen.kt:561-566 | removing a name just added to a selection without it gives back the selection |
| FlagChangeScreen.Toggled | features/flagsChange/src/main/kotlin/ua/polodarb/flagsChange/FlagChangeScreen.kt:561-566 | a selected item loses its first occurrence with the order of the rest kept, a selected item not in the list leaves it as it is, and any other item is appended |
| FlagChangeScreen.SelectedFlagsType | features/flagsChange/src/main/kotlin/ua/polodarb/flagsChange/FlagChangeScreen.kt:216-232 | page 0 is Bool, 1 Int, 2 Float, and every other page String, in both directions |
| FlagChangeScreen.AddFlagBoolValue | features/flagsChange/src/main/kotlin/ua/polodarb/flagsChange/FlagChangeScreen.kt:898 | choice 0 is written "1" and any other choice "0", in both directions |
| FlagChangeScreen.FlagLine | features/flagsChange/src/main/kotlin/ua/polodarb/flagsChange/FlagChangeScreen.kt:778 | a `name: value` line holds no line break unless its name or value does |
| FlagChangeScreen.FlagLines | features/flagsChange/src/main/kotlin/ua/polodarb/flagsChange/FlagChangeScreen.kt:774-782 | at most one line per selected name; one `name: value` line per name in selection order when all are present, none when none are |
| FlagChangeScreen.FlagLinesAppend | features/flagsChange/src/main/kotlin/ua/polodarb/flagsChange/FlagChangeScreen.kt:774-782 | the lines of a longer selection are the lines of its parts, concatenated |
| FlagChangeScreen.Join | features/flagsChange/src/main/kotlin/ua/polodarb/flagsChange/FlagChangeScreen.kt:784 | `joinToString` of no lines is empty and of one line is that line |
| FlagChangeScreen.JoinAppend | features/flagsChange/src/main/kotlin/ua/polodarb/flagsChange/FlagChangeScreen.kt:784 | joining two non-empty runs of lines puts one separator between their joins |
| FlagChangeScreen.FlagsText | features/flagsChange/src/main/kotlin/ua/polodarb/flagsChange/FlagChangeScreen.kt:772-784 | the text is empty when no selected name is in the data, and is that one line for a selection of one present name |
| FlagChangeScreen.FlagsTextAppend | features/flagsChange/src/main/kotlin/ua/polodarb/flagsChange/FlagChangeScreen.kt:772-784 | extending the selection appends the new names' text after one newline |
| FlagChangeScreen.SelectionMode.constructor | features/flagsChange/src/main/kotlin/ua/polodarb/flagsChange/FlagChangeScreen.kt:141-143 | selection mode starts off |
| FlagChangeScreen.SelectionMode.SelectedItemLongClick | features/flagsChange/src/main/kotlin/ua/polodarb/flagsChange/FlagChangeScreen.kt:560-572 | a long click ends in selection mode; outside it, it appends the flag, and inside it, it toggles the flag |
| FlagChangeScreen.SelectionMode.SelectedItemShortClick | features/flagsChange/src/main/kotlin/ua/polodarb/flagsChange/FlagChangeScreen.kt:573-582 | a short click toggles the flag in selection mode and changes nothing outside it |
| FlagChangeScreen.SelectionMode.ResetSelectionMode | features/flagsChange/src/main/kotlin/ua/polodarb/flagsChange/FlagChangeScreen.kt:145-148 | selection mode ends and the selection empties |
| FlagChangeScreen.SelectionMode.ExitWhenSelectionEmpty | features/flagsChange/src/main/kotlin/ua/polodarb/flagsChange/FlagChangeScreen.kt:156-163 | afterwards, selection mode implies a non-empty selection, and it stays on exactly when something is selected |
| FlagChangeScreen.LongThenShortClick | features/flagsChange/src/main/kotlin/ua/polodarb/flagsChange/FlagChangeScreen.kt:560-582 | a long click on an unselected flag followed by a short click on it gives back the selection it started from |
| Search.SortOf | features/search/src/main/kotlin/ua/polodarb/search/SearchScreenViewModel.kt:80-87 | each sort label picks its own branch, in both directions; any other label, or none, keeps the filter order |
| Search.UpdateKey | features/search/src/main/kotlin/ua/polodarb/search/SearchScreenViewModel.kt:189-195 | the last-update key is the package info's update time, or 0 when there is none |
| Search.Precedes | features/search/src/main/kotlin/ua/polodarb/search/SearchScreenViewModel.kt:180-196 | under each order an app may stand before another exactly when the other's key does not come strictly first (descending for reversed app name and last update); the unknown label relates every pair |
| Search.PrecedesTotal | features/search/src/main/kotlin/ua/polodarb/search/SearchScreenViewModel.kt:179-198 | every sort order compares any two apps |
| Search.PrecedesTransitive | features/search/src/main/kotlin/ua/polodarb/search/SearchScreenViewModel.kt:179-198 | every sort order is transitive |
| Search.ReversedIsConverse | features/search/src/main/kotlin/ua/polodarb/search/SearchScreenViewModel.kt:181-185 | the descending app-name order is the ascending one read backwards |
| Search.MissingUpdateSortsLast | features/search/src/main/kotlin/ua/polodarb/search/SearchScreenViewModel.kt:189-195 | in the last-update order an app without package info, which counts as 0, goes after every app updated at a non-negative time |
| Search.FilterApps | features/search/src/main/kotlin/ua/polodarb/search/SearchScreenViewModel.kt:176-178 | each app whose name contains the query keeps its multiplicity and every other app is dropped; when every app matches the list is unchanged |
| Search.FilterAppsAppend | features/search/src/main/kotlin/ua/polodarb/search/SearchScreenViewModel.kt:176-178 | filtering keeps list order: the filter of two lists joined is the two filters joined |
| Search.TiedIsMutualPrecedes | features/search/src/main/kotlin/ua/polodarb/search/SearchScreenViewModel.kt:180-196 | two apps have equal keys under an order exactly when each may stand before the other |
| Search.TiesNone | features/search/src/main/kotlin/ua/polodarb/search/SearchScreenViewModel.kt:180-196 | a list with no app of the given key has no equal-key apps to keep in order |
| Search.TiesAppend | features/search/src/main/kotlin/ua/polodarb/search/SearchScreenViewModel.kt:180-196 | the equal-key apps of two joined lists are those of each list, joined |
| Search.Insert | features/search/src/main/kotlin/ua/polodarb/search/SearchScreenViewModel.kt:179-198 | inserting into a sorted list keeps it sorted and adds exactly that app |
| Search.InsertKeepsTies | features/search/src/main/kotlin/ua/polodarb/search/SearchScreenViewModel.kt:180-196 | inserting an app puts it after every app of equal key already in the sorted list |
| Search.InsertionSort | features/search/src/main/kotlin/ua/polodarb/search/SearchScreenViewModel.kt:180-196 | the result is a permutation of the input, sorted by the order, and stable: for every app, the apps of equal key appear in the order of the input |
| Search.SortApps | features/search/src/main/kotlin/ua/polodarb/search/SearchScreenViewModel.kt:179-198 | package name ascending, app name ascending or descending, or last update descending with a missing package info as 0, as a stable sorted permutation; an unknown label changes nothing |
| Search.AppsView | features/search/src/main/kotlin/ua/polodarb/search/SearchScreenViewModel.kt:175-199 | the shown apps are a permutation of the matching apps, sorted by the selected order, with apps of equal key in their filtered order |
| Search.AppsViewEmptyQuery | features/search/src/main/kotlin/ua/polodarb/search/SearchScreenViewModel.kt:175-199 | with an empty query the shown apps are a permutation of all loaded apps |
| Search.PackagesView | features/search/src/main/kotlin/ua/polodarb/search/SearchScreenViewModel.kt:229-237 | exactly the packages whose name contains the query, with values unchanged |
| Search.SearchScreenViewModel.constructor | features/search/src/main/kotlin/ua/polodarb/search/SearchScreenViewModel.kt:45-87 | all states start Loading, the queries and lists start empty, and the sort label starts as "By app name" |
| Search.SearchScreenViewModel.ClearSearchQuery | features/search/src/main/kotlin/ua/polodarb/search/SearchScreenViewModel.kt:74-77 | both queries become empty |
| Search.SearchScreenViewModel.SetPackageToDialog | features/search/src/main/kotlin/ua/polodarb/search/SearchScreenViewModel.kt:110-112 | the dialog's package becomes the argument |
| Search.SearchScreenViewModel.SetEmptyList | features/search/src/main/kotlin/ua/polodarb/search/SearchScreenViewModel.kt:114-116 | the dialog state becomes Success of an empty list |
| Search.SearchScreenViewModel.GetListByPackages | features/search/src/main/kotlin/ua/polodarb/search/SearchScreenViewModel.kt:121-142 | the dialog shows each emission as it is |
| Search.SearchScreenViewModel.InitGms | features/search/src/main/kotlin/ua/polodarb/search/SearchScreenViewModel.kt:94-100 | the loaded apps are dropped before reloading |
| Search.SearchScreenViewModel.GetAllInstalledApps | features/search/src/main/kotlin/ua/polodarb/search/SearchScreenViewModel.kt:173-202 | with no apps loaded the state is left alone; otherwise it becomes Success of the filtered and sorted view |
| Search.SearchScreenViewModel.InitAllInstalledApps | features/search/src/main/kotlin/ua/polodarb/search/SearchScreenViewModel.kt:147-168 | a Success emission is appended to the loaded apps and the view is refreshed; Loading and Error are shown |
| Search.SearchScreenViewModel.GetGmsPackagesList | features/search/src/main/kotlin/ua/polodarb/search/SearchScreenViewModel.kt:229-237 | with no packages loaded the state is left alone; otherwise it becomes Success of the filtered map |
| Search.SearchScreenViewModel.InitGmsPackagesList | features/search/src/main/kotlin/ua/polodarb/search/SearchScreenViewModel.kt:206-227 | a Success emission is merged into the loaded packages and the view is refreshed; Loading and Error are shown |
| RootDb.InitRootDB.constructor | data/databases/gms/impl/src/main/java/ua/polodarb/gms/impl/init/InitRootDBImpl.kt:22-32 | the flag starts false, no handle is stored, and the published state is not initialized |
| RootDb.InitRootDB.SetDatabaseInitialized | data/databases/gms/impl/src/main/java/ua/polodarb/gms/impl/init/InitRootDBImpl.kt:27-29 | only the published state changes |
| RootDb.InitRootDB.OnServiceConnected | data/databases/gms/impl/src/main/java/ua/polodarb/gms/impl/init/InitRootDBImpl.kt:37-46 | a binder is stored and the flag and published state become true; a missing binder changes nothing; agreement of flag and published state is kept |
| RootDb.InitRootDB.OnServiceDisconnected | data/databases/gms/impl/src/main/java/ua/polodarb/gms/impl/init/InitRootDBImpl.kt:48-51 | the flag and published state become false and the handle is kept |
| RootDb.InitRootDB.GetRootDatabase | data/databases/gms/impl/src/main/java/ua/polodarb/gms/impl/init/InitRootDBImpl.kt:56-59 | the handle is handed out exactly when the flag is set, and it is the stored one |
| RootDb.ReconnectScenario | data/databases/gms/impl/src/main/java/ua/polodarb/gms/impl/init/InitRootDBImpl.kt:37-59 | connect, disconnect and reconnect give the first handle, a refusal, then the second handle |
| RootDb.PublishedStateDoesNotUnlock | data/databases/gms/impl/src/main/java/ua/polodarb/gms/impl/init/InitRootDBImpl.kt:27-29 | publishing "initialized" without a connect does not unlock the database |
| Navigation.FixedRoutes | app/src/main/java/ua/polodarb/gmsflags/ui/navigation/AppNavigation.kt:17-46 | the Root, Settings and Packages routes are "root", "settings" and "packages", and the bottom bar starts at "suggestions" |
| Navigation.ScreenRoute | app/src/main/java/ua/polodarb/gmsflags/ui/navigation/AppNavigation.kt:24-36 | every declared destination route is one non-empty path segment |
| Navigation.ScreenRoutesDistinct | app/src/main/java/ua/polodarb/gmsflags/ui/navigation/AppNavigation.kt:24-36 | distinct declared destinations have distinct routes |
| Navigation.NavBarRoute | app/src/main/java/ua/polodarb/gmsflags/ui/navigation/AppNavigation.kt:15-22 | every bottom-bar route is one non-empty path segment |
| Navigation.NavBarRoutesDistinct | app/src/main/java/ua/polodarb/gmsflags/ui/navigation/AppNavigation.kt:15-22 | distinct bottom-bar tabs have distinct routes |
| Navigation.CreateStringRoute | app/src/main/java/ua/polodarb/gmsflags/ui/navigation/AppNavigation.kt:26 | the route is the root route, one slash, then the destination's own route |
| Navigation.CreateFlagChangeRoute | app/src/main/java/ua/polodarb/gmsflags/ui/navigation/AppNavigation.kt:30-32 | the route is the Packages route, one slash, then the package name |
| Navigation.FlagChangeTemplate | app/src/main/java/ua/polodarb/gmsflags/ui/navigation/RootAppNavigation.kt:214 | the flag-change destination is registered as "packages/{flagChange}" |
| Navigation.CreateRouteFillsTemplate | app/src/main/java/ua/polodarb/gmsflags/ui/navigation/AppNavigation.kt:29-33 | createRoute(x) is the registered template with its placeholder replaced by x |
| Navigation.ArgumentOf | app/src/main/java/ua/polodarb/gmsflags/ui/navigation/RootAppNavigation.kt:213-223 | the argument read back from a route is one non-empty path segment, and filling the template with it gives back the route |
| Navigation.FlagChangeRouteRoundTrip | app/src/main/java/ua/polodarb/gmsflags/ui/navigation/RootAppNavigation.kt:213-223 | the flag-change screen reads back the package name createRoute was given, when it is non-empty and holds no slash |
| Navigation.IsLoadFileIntent | app/src/main/java/ua/polodarb/gmsflags/ui/navigation/RootAppNavigation.kt:323-325 | no intent is never a load-file intent; a present one is a load-file intent exactly when its action is VIEW and its type is "application/xml" |
| Navigation.StartDestination | app/src/main/java/ua/polodarb/gmsflags/ui/navigation/RootAppNavigation.kt:59-65 | Welcome exactly on first start; LoadFile exactly after it with a load-file intent; Root exactly otherwise |
| Navigation.RootComposableRoute | app/src/main/java/ua/polodarb/gmsflags/ui/navigation/RootAppNavigation.kt:87-113 | rootComposable registers LoadFile exactly after the first start with a load-file intent, and Root otherwise |
| Navigation.RegisteredDestinations | app/src/main/java/ua/polodarb/gmsflags/ui/navigation/RootAppNavigation.kt:57-83 | the root graph registers every destination but Packages, and of Root and LoadFile only the one its root entry takes |
| Navigation.RootRouteIsStart | app/src/main/java/ua/polodarb/gmsflags/ui/navigation/RootAppNavigation.kt:59-113 | after the first start the route rootComposable registers is the start destination |
| Navigation.StartDestinationRegistered | app/src/main/java/ua/polodarb/gmsflags/ui/navigation/RootAppNavigation.kt:57-83 | the root graph always registers its own start destination |
| Navigation.RootAndLoadFileExclusive | app/src/main/java/ua/polodarb/gmsflags/ui/navigation/RootAppNavigation.kt:87-113 | exactly one of Root and LoadFile is registered, and LoadFile only when the graph starts there |

## Left out

- Root service and binder calls: binding the service, calls on the remote database interface, the shell, and the SQL behind the repositories. These are foreign calls. The handle is an opaque type parameter.
- Override use case, repositories and Room: what `overrideFlagsUseCase`, the flag and app repositories and saved-flag storage do is not part of this model. The model keeps only what the view models compute and store.
- Concurrency: coroutines, dispatchers, Flow collection and synchronized collections. Each handler is one sequential step, and interleavings are not modelled.
- Time: the actual `delay` calls and UI delays. Only the count-to-milliseconds buckets are kept.
- File and platform I/O: file export, FileProvider, mail and settings intents, toasts, the clipboard and haptics.
- Compose layout and animation, and the screens' other content.
- `filterByEnabled` / `filterByDisabled`: their source is not part of this model, so they are uninterpreted predicates on values.
- `toSortMap` / `toSortedMap`: these are modelled as leaving map contents alone; `Common.SortedKeys` gives the iteration order.
- Common.ContainsIgnoreCase: folds only ASCII letters; Kotlin's `ignoreCase` also folds other Unicode letters.
- Common.LexLe: compares Dafny characters; Kotlin compares UTF-16 code units, which differs only for characters outside the Basic Multilingual Plane.
- Search.SearchScreenViewModel.InitGms: only the clearing of the apps list; the loads it starts arrive as separate emissions, and the users and saved-package loads are not modelled.
- FlagChange.FlagChangeScreenViewModel.OverrideFlag: a null argument leaves the changed list as it was. The source passes the platform-typed null to the Java map and stores a null entry. The changed lists here share the string-map type of the full lists and the screen states, which hold no nulls. So a Bool override, which passes null for Int, Float and String, does not add null entries under the flag's name to those three changed lists. In the app those entries would show under those pages' Changed chip until the next overridden-flags emission replaces the lists. Only the changed-list bookkeeping is modelled, not the override, cache clearing or reload.
- FlagChange.Recorded: the same null case. An absent value keeps the changed list as it was, where the source stores a null entry under the name.
- FlagChange.FlagChangeScreenViewModel.EnableSelectedFlag and FlagChange.FlagChangeScreenViewModel.DisableSelectedFlag: when the Bool state is not Success, the source sends the override and then throws on the cast (the cast at FlagChangeScreenViewModel.kt:464 and at :484). The model returns `castHeld == false` and changes nothing else.
- FlagChange.FlagChangeScreenViewModel.DisableSelectedFlag: the same cast failure as enable, modelled the same way.
- FlagChange.ProgressDelay and FlagChange.CachedAfterSelected: these are the corrected definitions from the findings below, and their properties are proved on their own. The view model keeps the source's behaviour, so none of its methods uses them.
- RootDb.InitRootDB.OnServiceConnected: a null binder makes the source throw before any field changes. The model reports `ok == false` with nothing changed. The initialization state is a boolean here, as in the code, rather than a three-valued state.
- FilterMethod: its own state-holder overrides throw "not implemented", so it is a plain enum.
- Destinations other than Root, FlagChange, Settings and Packages have no declared routes in ScreensDestination, so their routes are not modelled. They take part only as names. Route arguments are taken to be non-empty and slash-free; the route-argument encoding done by `Uri.encode` / `Uri.decode` is not modelled.
- MainActivity calls the root navigation without the first-start flag and intent. The model takes both as parameters.

## Findings

| source | as written | input that shows it | evidently intended | confidence | as-written member | corrected member |
|---|---|---|---|---|---|---|
| features/flagsChange/src/main/kotlin/ua/polodarb/flagsChange/FlagChangeScreenViewModel.kt:641-649 | the last bucket is `flagsCount > 1501`, so exactly 1501 matches no bucket and waits 0 ms | 1501 flags: 1500 wait 9000 ms, 1501 wait 0, 1502 wait 10000 | every count above 1500 waits 10000 ms, and the wait grows with the count | not executed | FlagChange.ProgressDelayAsWrittenNotMonotone | FlagChange.ProgressDelayMonotone |
| features/flagsChange/src/main/kotlin/ua/polodarb/flagsChange/FlagChangeScreenViewModel.kt:464-468 | when the selection size equals the shown key count, every value in the cached Bool list is turned on, not only the selected ones sent in the override | Bool list {alpha: 0, beta: 0}, search "alpha", selection [alpha]: the override sends only alpha, but beta is cached as 1 | only the selected names change in the cache, matching the override sent | not executed | FlagChange.ShortcutCachesUnsentValues | FlagChange.CachedAfterSelectedAgreesWithSent |

The view model keeps the buckets as written: `FlagChange.FlagChangeScreenViewModel.FalseProgressDelay`
waits `FlagChange.ProgressDelayAsWritten`. `FlagChange.ProgressDelay` is
the intended bucket function. `FlagChange.ProgressDelayMonotone` proves it
monotone.

The second row concerns enable/disable-selected. The source tests whether
the selection size equals the shown key count. If it does, it turns every
value of the full Bool list on or off, although the override it sent names only
the selected flags. With a search active, `FlagChange.TurnOnAllReachesHiddenFlags`
gives such a case. The view model keeps this behaviour.
`FlagChange.CachedAfterSelected` is the update restricted to the selected
names. `FlagChange.CachedAfterSelectedAgreesWithSent` proves that it
changes only selected names and caches what was sent.
