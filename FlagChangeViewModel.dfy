/** The flag editor's view model: the flags of one package, split by type,
    the lists it filters, the flags the user has overridden, the current
    selection and the four per-type screen states.
 */
module FlagChange {
  import opened Common

  /** The filter chips of the Bool page. */
  datatype FilterMethod = All | Enabled | Disabled | Changed

  datatype FlagsType = Boolean | Integer | Float | String

  /** Flag name to flag value, as the flags database reports them. */
  type Flags = map<string, string>

  /** What the override use case is asked to write, per flag type. */
  datatype OverriddenFlagsContainer = OverriddenFlagsContainer(
    boolValues: Flags, intValues: Flags, floatValues: Flags, stringValues: Flags)

  // ---------------------------------------------------------------------
  // Pure helpers
  // ---------------------------------------------------------------------

  /** `filter { keep(it.value) }` on a flag map. */
  function FilterValues(m: Flags, keep: string -> bool): (r: Flags)
    ensures forall k :: k in r <==> k in m && keep(m[k])
    ensures forall k :: k in r ==> r[k] == m[k]
  {
    map k | k in m && keep(m[k]) :: m[k]
  }

  /** The Bool page: the filter chip picks the source map, then the search
      filter is applied. */
  function BoolView(fm: FilterMethod, full: Flags, changed: Flags, query: string,
                    isEnabled: string -> bool, isDisabled: string -> bool): (r: Flags)
    ensures forall k :: k in r ==> ContainsIgnoreCase(k, query)
    ensures fm == Changed ==>
      (forall k :: k in r <==> k in changed && ContainsIgnoreCase(k, query)) &&
      (forall k :: k in r ==> r[k] == changed[k])
    ensures fm == Enabled ==>
      forall k :: k in r <==> k in full && isEnabled(full[k]) && ContainsIgnoreCase(k, query)
    ensures fm == Disabled ==>
      forall k :: k in r <==> k in full && isDisabled(full[k]) && ContainsIgnoreCase(k, query)
    ensures fm == All ==>
      forall k :: k in r <==> k in full && ContainsIgnoreCase(k, query)
    ensures fm != Changed ==> forall k :: k in r ==> r[k] == full[k]
  {
    var source := match fm
      case Enabled => FilterValues(full, isEnabled)
      case Disabled => FilterValues(full, isDisabled)
      case Changed => changed
      case All => full;
    FilterKeys(source, query)
  }

  /** The Int, Float and String pages: only the Changed chip differs from
      the full list. */
  function OtherView(fm: FilterMethod, full: Flags, changed: Flags, query: string): (r: Flags)
    ensures forall k :: k in r ==> ContainsIgnoreCase(k, query)
    ensures fm == Changed ==>
      (forall k :: k in r <==> k in changed && ContainsIgnoreCase(k, query)) &&
      (forall k :: k in r ==> r[k] == changed[k])
    ensures fm != Changed ==>
      (forall k :: k in r <==> k in full && ContainsIgnoreCase(k, query)) &&
      (forall k :: k in r ==> r[k] == full[k])
  {
    FilterKeys(if fm == Changed then changed else full, query)
  }

  /** Every listed name set to `v`, inserted when absent. */
  function SetValues(m: Flags, names: seq<string>, v: string): (r: Flags)
    ensures r.Keys == m.Keys + set n | n in names
    ensures forall n :: n in names ==> r[n] == v
    ensures forall k :: k in m && k !in names ==> r[k] == m[k]
  {
    map k | k in m.Keys + (set n | n in names) :: if k in names then v else m[k]
  }

  lemma SetValuesSnoc(m: Flags, names: seq<string>, n: string, v: string)
    ensures SetValues(m, names + [n], v) == SetValues(m, names, v)[n := v]
  {
    var l, r := SetValues(m, names + [n], v), SetValues(m, names, v)[n := v];
    assert l.Keys == r.Keys;
    forall k | k in l ensures l[k] == r[k] {
      if k != n && k !in names { assert k !in names + [n]; }
    }
  }

  /** `MutableMap.replace(k, v)`: only a key that is already present changes. */
  function ReplaceExisting(m: Flags, k: string, v: string): (r: Flags)
    ensures r.Keys == m.Keys
    ensures k in m ==> r[k] == v
    ensures forall j :: j in m && j != k ==> r[j] == m[j]
  {
    if k in m then m[k := v] else m
  }

  /** `mapValues { v }` / `replaceAll { _, _ -> v }`. */
  function EveryValue(m: Flags, v: string): (r: Flags)
    ensures r.Keys == m.Keys
    ensures forall k :: k in r ==> r[k] == v
  {
    map k | k in m :: v
  }

  /** The entries of `m` whose key is selected. */
  function SelectedOnly(m: Flags, selected: seq<string>): (r: Flags)
    ensures forall k :: k in r <==> k in m && k in selected
    ensures forall k :: k in r ==> r[k] == m[k]
  {
    map k | k in m && k in selected :: m[k]
  }

  /** The selected Bool flags currently at `from`, each mapped to `to`. */
  function FlipSelected(m: Flags, selected: seq<string>, from: string, to: string): (r: Flags)
    ensures forall k :: k in r <==> k in m && k in selected && m[k] == from
    ensures forall k :: k in r ==> r[k] == to
  {
    map k | k in m && k in selected && m[k] == from :: to
  }

  /** The container enableSelectedFlag (on = true) or disableSelectedFlag
      (on = false) hands to the override use case. */
  function SelectedOverrides(on: bool, listBool: Flags, listInt: Flags, listFloat: Flags,
                             listString: Flags, selected: seq<string>): (c: OverriddenFlagsContainer)
    ensures on ==> forall k :: k in c.boolValues <==> k in listBool && k in selected && listBool[k] == "0"
    ensures !on ==> forall k :: k in c.boolValues <==> k in listBool && k in selected && listBool[k] == "1"
    ensures forall k :: k in c.boolValues ==> c.boolValues[k] == if on then "1" else "0"
    ensures c.intValues == SelectedOnly(listInt, selected)
    ensures c.floatValues == SelectedOnly(listFloat, selected)
    ensures c.stringValues == SelectedOnly(listString, selected)
  {
    OverriddenFlagsContainer(
      if on then FlipSelected(listBool, selected, "0", "1") else FlipSelected(listBool, selected, "1", "0"),
      SelectedOnly(listInt, selected),
      SelectedOnly(listFloat, selected),
      SelectedOnly(listString, selected))
  }

  /** The progress-dialog delay in milliseconds, as the branches are written:
      a count of exactly 1501 matches no bucket and falls to 0. */
  function ProgressDelayAsWritten(count: int): (ms: int)
    ensures 0 <= ms <= 10000
    ensures ms == 0 <==> count <= 50 || count == 1501
    ensures ms == 10000 <==> count > 1501
  {
    if count <= 50 then 0
    else if 51 <= count <= 150 then 3000
    else if 151 <= count <= 500 then 5000
    else if 501 <= count <= 1000 then 7000
    else if 1001 <= count <= 1500 then 9000
    else if count > 1501 then 10000
    else 0
  }

  lemma ProgressDelayAsWrittenDrops()
    ensures ProgressDelayAsWritten(1500) == 9000
    ensures ProgressDelayAsWritten(1501) == 0
    ensures ProgressDelayAsWritten(1502) == 10000
  {
  }

  /** The progress-dialog delay with the last bucket starting right after
      the previous one ends. */
  function ProgressDelay(count: int): (ms: int)
    ensures 0 <= ms <= 10000
    ensures count <= 50 <==> ms == 0
    ensures count > 1500 <==> ms == 10000
    ensures count != 1501 ==> ms == ProgressDelayAsWritten(count)
  {
    if count <= 50 then 0
    else if count <= 150 then 3000
    else if count <= 500 then 5000
    else if count <= 1000 then 7000
    else if count <= 1500 then 9000
    else 10000
  }

  /** More flags never mean a shorter wait. */
  lemma ProgressDelayMonotone(a: int, b: int)
    requires a <= b
    ensures ProgressDelay(a) <= ProgressDelay(b)
  {
  }

  /** The as-written buckets are not monotone. */
  lemma ProgressDelayAsWrittenNotMonotone()
    ensures exists a, b :: a <= b && ProgressDelayAsWritten(a) > ProgressDelayAsWritten(b)
  {
    assert ProgressDelayAsWritten(1500) > ProgressDelayAsWritten(1501);
  }

  /** When the selection lists every shown key once, updating the selected
      names and turning every shown value on give the same screen data. */
  lemma {:induction false} FullSelectionSetsEveryValue(data: Flags, selected: seq<string>, v: string)
    requires forall i, j :: 0 <= i < j < |selected| ==> selected[i] != selected[j]
    requires forall n :: n in selected ==> n in data
    requires |data.Keys| == |selected|
    ensures SetValues(data, selected, v) == EveryValue(data, v)
  {
    var names := set n | n in selected;
    DistinctCard(selected);
    assert names <= data.Keys;
    SubsetSameCard(names, data.Keys);
  }

  /** After selectAllItems, enabling or disabling the selection sets every
      shown Bool value, whichever branch the size test takes. */
  lemma SelectAllThenSetEveryValue(data: Flags, v: string)
    ensures SetValues(data, SortedKeys(data.Keys), v) == EveryValue(data, v)
  {
    var selected := SortedKeys(data.Keys);
    assert forall i, j :: 0 <= i < j < |selected| ==> selected[i] != selected[j] by {
      forall i, j | 0 <= i < j < |selected| ensures selected[i] != selected[j] {
        assert LexLess(selected[i], selected[j]);
      }
    }
    FullSelectionSetsEveryValue(data, selected, v);
  }

  lemma {:induction false} DistinctCard(s: seq<string>)
    requires forall i, j :: 0 <= i < j < |s| ==> s[i] != s[j]
    ensures |set n | n in s| == |s|
    decreases |s|
  {
    if s != [] {
      var tail := s[1..];
      DistinctCard(tail);
      assert (set n | n in s) == {s[0]} + (set n | n in tail);
      assert s[0] !in tail;
    }
  }

  lemma SubsetSameCard(a: set<string>, b: set<string>)
    requires a <= b && |a| == |b|
    ensures a == b
  {
    assert b == a + (b - a);
    assert a * (b - a) == {};
    assert |b - a| == 0;
    assert b <= a;
  }

  /** With a search active, turning every value on reaches flags the search
      hides, which the selection (and so the override sent) never named. */
  lemma TurnOnAllReachesHiddenFlags()
    ensures var listBool := map["alpha" := "0", "beta" := "0"];
            var shown := FilterKeys(listBool, "alpha");
            var selected := ["alpha"];
            |shown.Keys| == |selected| &&
            SelectedOverrides(true, listBool, map[], map[], map[], selected).boolValues == map["alpha" := "1"] &&
            EveryValue(listBool, "1")["beta"] == "1"
  {
    var listBool := map["alpha" := "0", "beta" := "0"];
    var shown := FilterKeys(listBool, "alpha");
    assert OccursAt(Lower("alpha"), Lower("alpha"), 0);
    assert !ContainsIgnoreCase("beta", "alpha");
    assert shown.Keys == {"alpha"};
    var c := SelectedOverrides(true, listBool, map[], map[], map[], ["alpha"]);
    assert c.boolValues.Keys == {"alpha"};
  }

  /** As written, the all-on/all-off shortcut of enable/disable-selected
      changes the cached Bool list at names that were not selected and so
      were never sent: the cache then disagrees with what was written. */
  lemma ShortcutCachesUnsentValues(listBool: Flags, listInt: Flags, listFloat: Flags,
                                   listString: Flags, selected: seq<string>, k: string, on: bool)
    requires k in listBool && k !in selected
    requires listBool[k] == (if on then "0" else "1")
    ensures var sent := SelectedOverrides(on, listBool, listInt, listFloat, listString, selected);
            k !in sent.boolValues &&
            EveryValue(listBool, if on then "1" else "0")[k] != listBool[k]
  {
  }

  /** The cached Bool list after enable (on) or disable, changed only at the
      selected names: the update the non-shortcut branch makes. */
  function CachedAfterSelected(listBool: Flags, selected: seq<string>, on: bool): (r: Flags)
    ensures r.Keys == listBool.Keys + set n | n in selected
    ensures forall k :: k in r && k !in selected ==> r[k] == listBool[k]
    ensures forall k :: k in selected ==> r[k] == if on then "1" else "0"
  {
    SetValues(listBool, selected, if on then "1" else "0")
  }

  /** With that update every cached Bool value that changes is a selected
      one, and every value sent is cached as sent. */
  lemma CachedAfterSelectedAgreesWithSent(listBool: Flags, listInt: Flags, listFloat: Flags,
                                          listString: Flags, selected: seq<string>, on: bool)
    ensures var sent := SelectedOverrides(on, listBool, listInt, listFloat, listString, selected);
            var cache := CachedAfterSelected(listBool, selected, on);
            (forall k :: k in listBool && cache[k] != listBool[k] ==> k in selected) &&
            (forall k :: k in sent.boolValues ==> k in cache && cache[k] == sent.boolValues[k])
  {
    var sent := SelectedOverrides(on, listBool, listInt, listFloat, listString, selected);
    var cache := CachedAfterSelected(listBool, selected, on);
    forall k | k in sent.boolValues ensures k in cache && cache[k] == sent.boolValues[k] {
      assert k in selected;
    }
  }

  // ---------------------------------------------------------------------
  // The view model
  // ---------------------------------------------------------------------

  class FlagChangeScreenViewModel {
    /** The unshown value predicates behind filterByEnabled / filterByDisabled. */
    const isEnabled: string -> bool
    const isDisabled: string -> bool

    var filterMethod: FilterMethod
    var searchQuery: string
    var selectedItems: seq<string>

    var changedFilterBoolList: Flags
    var changedFilterIntList: Flags
    var changedFilterFloatList: Flags
    var changedFilterStringList: Flags

    var listBoolFiltered: Flags
    var listIntFiltered: Flags
    var listFloatFiltered: Flags
    var listStringFiltered: Flags

    var stateBoolean: UiState<Flags>
    var stateInteger: UiState<Flags>
    var stateFloat: UiState<Flags>
    var stateString: UiState<Flags>

    constructor (isEnabled: string -> bool, isDisabled: string -> bool)
      ensures this.isEnabled == isEnabled && this.isDisabled == isDisabled
      ensures filterMethod == All && searchQuery == "" && selectedItems == []
      ensures changedFilterBoolList == changedFilterIntList == changedFilterFloatList == changedFilterStringList == map[]
      ensures listBoolFiltered == listIntFiltered == listFloatFiltered == listStringFiltered == map[]
      ensures stateBoolean == stateInteger == stateFloat == stateString == Loading
    {
      this.isEnabled, this.isDisabled := isEnabled, isDisabled;
      filterMethod, searchQuery, selectedItems := All, "", [];
      changedFilterBoolList, changedFilterIntList := map[], map[];
      changedFilterFloatList, changedFilterStringList := map[], map[];
      listBoolFiltered, listIntFiltered, listFloatFiltered, listStringFiltered := map[], map[], map[], map[];
      stateBoolean, stateInteger, stateFloat, stateString := Loading, Loading, Loading, Loading;
    }

    // --- getBoolFlags / getIntFlags / getFloatFlags / getStringFlags ---

    method GetBoolFlags()
      modifies this`stateBoolean
      ensures stateBoolean == Success(BoolView(filterMethod, listBoolFiltered, changedFilterBoolList,
                                               searchQuery, isEnabled, isDisabled))
    {
      stateBoolean := Success(BoolView(filterMethod, listBoolFiltered, changedFilterBoolList,
                                       searchQuery, isEnabled, isDisabled));
    }

    method GetIntFlags()
      modifies this`stateInteger
      ensures stateInteger == Success(OtherView(filterMethod, listIntFiltered, changedFilterIntList, searchQuery))
    {
      stateInteger := Success(OtherView(filterMethod, listIntFiltered, changedFilterIntList, searchQuery));
    }

    method GetFloatFlags()
      modifies this`stateFloat
      ensures stateFloat == Success(OtherView(filterMethod, listFloatFiltered, changedFilterFloatList, searchQuery))
    {
      stateFloat := Success(OtherView(filterMethod, listFloatFiltered, changedFilterFloatList, searchQuery));
    }

    method GetStringFlags()
      modifies this`stateString
      ensures stateString == Success(OtherView(filterMethod, listStringFiltered, changedFilterStringList, searchQuery))
    {
      stateString := Success(OtherView(filterMethod, listStringFiltered, changedFilterStringList, searchQuery));
    }

    method GetAllFlags()
      modifies this`stateBoolean, this`stateInteger, this`stateFloat, this`stateString
      ensures stateBoolean == Success(BoolView(filterMethod, listBoolFiltered, changedFilterBoolList,
                                               searchQuery, isEnabled, isDisabled))
      ensures stateInteger == Success(OtherView(filterMethod, listIntFiltered, changedFilterIntList, searchQuery))
      ensures stateFloat == Success(OtherView(filterMethod, listFloatFiltered, changedFilterFloatList, searchQuery))
      ensures stateString == Success(OtherView(filterMethod, listStringFiltered, changedFilterStringList, searchQuery))
    {
      GetBoolFlags();
      GetIntFlags();
      GetFloatFlags();
      GetStringFlags();
    }

    // --- init*Values: one emission of the flags flow, through handleUiStates ---

    method InitBoolValues(emitted: UiState<Flags>)
      modifies this`listBoolFiltered, this`stateBoolean
      ensures emitted.Success? ==>
        listBoolFiltered == old(listBoolFiltered) + emitted.data &&
        stateBoolean == Success(BoolView(filterMethod, listBoolFiltered, changedFilterBoolList,
                                         searchQuery, isEnabled, isDisabled))
      ensures !emitted.Success? ==> listBoolFiltered == old(listBoolFiltered) && stateBoolean == emitted
    {
      match emitted
      case Success(data) =>
        listBoolFiltered := listBoolFiltered + data;
        GetBoolFlags();
      case Loading => stateBoolean := Loading;
      case Error => stateBoolean := Error;
    }

    method InitIntValues(emitted: UiState<Flags>)
      modifies this`listIntFiltered, this`stateInteger
      ensures emitted.Success? ==>
        listIntFiltered == old(listIntFiltered) + emitted.data &&
        stateInteger == Success(OtherView(filterMethod, listIntFiltered, changedFilterIntList, searchQuery))
      ensures !emitted.Success? ==> listIntFiltered == old(listIntFiltered) && stateInteger == emitted
    {
      match emitted
      case Success(data) =>
        listIntFiltered := listIntFiltered + data;
        GetIntFlags();
      case Loading => stateInteger := Loading;
      case Error => stateInteger := Error;
    }

    method InitFloatValues(emitted: UiState<Flags>)
      modifies this`listFloatFiltered, this`stateFloat
      ensures emitted.Success? ==>
        listFloatFiltered == old(listFloatFiltered) + emitted.data &&
        stateFloat == Success(OtherView(filterMethod, listFloatFiltered, changedFilterFloatList, searchQuery))
      ensures !emitted.Success? ==> listFloatFiltered == old(listFloatFiltered) && stateFloat == emitted
    {
      match emitted
      case Success(data) =>
        listFloatFiltered := listFloatFiltered + data;
        GetFloatFlags();
      case Loading => stateFloat := Loading;
      case Error => stateFloat := Error;
    }

    method InitStringValues(emitted: UiState<Flags>)
      modifies this`listStringFiltered, this`stateString
      ensures emitted.Success? ==>
        listStringFiltered == old(listStringFiltered) + emitted.data &&
        stateString == Success(OtherView(filterMethod, listStringFiltered, changedFilterStringList, searchQuery))
      ensures !emitted.Success? ==> listStringFiltered == old(listStringFiltered) && stateString == emitted
    {
      match emitted
      case Success(data) =>
        listStringFiltered := listStringFiltered + data;
        GetStringFlags();
      case Loading => stateString := Loading;
      case Error => stateString := Error;
    }

    // --- initOverridden*Flags: one emission of the overridden-flags flow ---

    method InitOverriddenBoolFlags(emitted: UiState<Flags>)
      modifies this`changedFilterBoolList, this`listBoolFiltered, this`stateBoolean
      ensures emitted.Success? ==>
        changedFilterBoolList == emitted.data &&
        listBoolFiltered == old(listBoolFiltered) + emitted.data &&
        stateBoolean == old(stateBoolean)
      ensures !emitted.Success? ==>
        changedFilterBoolList == old(changedFilterBoolList) &&
        listBoolFiltered == old(listBoolFiltered) && stateBoolean == emitted
    {
      match emitted
      case Success(data) =>
        changedFilterBoolList := data;
        listBoolFiltered := listBoolFiltered + data;
      case Loading => stateBoolean := Loading;
      case Error => stateBoolean := Error;
    }

    method InitOverriddenIntFlags(emitted: UiState<Flags>)
      modifies this`changedFilterIntList, this`listIntFiltered, this`stateInteger
      ensures emitted.Success? ==>
        changedFilterIntList == emitted.data &&
        listIntFiltered == old(listIntFiltered) + emitted.data &&
        stateInteger == old(stateInteger)
      ensures !emitted.Success? ==>
        changedFilterIntList == old(changedFilterIntList) &&
        listIntFiltered == old(listIntFiltered) && stateInteger == emitted
    {
      match emitted
      case Success(data) =>
        changedFilterIntList := data;
        listIntFiltered := listIntFiltered + data;
      case Loading => stateInteger := Loading;
      case Error => stateInteger := Error;
    }

    method InitOverriddenFloatFlags(emitted: UiState<Flags>)
      modifies this`changedFilterFloatList, this`listFloatFiltered, this`stateFloat
      ensures emitted.Success? ==>
        changedFilterFloatList == emitted.data &&
        listFloatFiltered == old(listFloatFiltered) + emitted.data &&
        stateFloat == old(stateFloat)
      ensures !emitted.Success? ==>
        changedFilterFloatList == old(changedFilterFloatList) &&
        listFloatFiltered == old(listFloatFiltered) && stateFloat == emitted
    {
      match emitted
      case Success(data) =>
        changedFilterFloatList := data;
        listFloatFiltered := listFloatFiltered + data;
      case Loading => stateFloat := Loading;
      case Error => stateFloat := Error;
    }

    method InitOverriddenStringFlags(emitted: UiState<Flags>)
      modifies this`changedFilterStringList, this`listStringFiltered, this`stateString
      ensures emitted.Success? ==>
        changedFilterStringList == emitted.data &&
        listStringFiltered == old(listStringFiltered) + emitted.data &&
        stateString == old(stateString)
      ensures !emitted.Success? ==>
        changedFilterStringList == old(changedFilterStringList) &&
        listStringFiltered == old(listStringFiltered) && stateString == emitted
    {
      match emitted
      case Success(data) =>
        changedFilterStringList := data;
        listStringFiltered := listStringFiltered + data;
      case Loading => stateString := Loading;
      case Error => stateString := Error;
    }

    // --- updating values ---

    method UpdateBoolFlagValues(flagNames: seq<string>, newValue: string)
      modifies this`stateBoolean, this`listBoolFiltered
      ensures old(stateBoolean).Success? ==>
        stateBoolean == Success(SetValues(old(stateBoolean).data, flagNames, newValue)) &&
        listBoolFiltered == SetValues(old(listBoolFiltered), flagNames, newValue)
      ensures !old(stateBoolean).Success? ==>
        stateBoolean == old(stateBoolean) && listBoolFiltered == old(listBoolFiltered)
    {
      if stateBoolean.Success? {
        var updatedData := stateBoolean.data;
        ghost var data0, list0 := updatedData, listBoolFiltered;
        for i := 0 to |flagNames|
          invariant updatedData == SetValues(data0, flagNames[..i], newValue)
          invariant listBoolFiltered == SetValues(list0, flagNames[..i], newValue)
        {
          assert flagNames[..i + 1] == flagNames[..i] + [flagNames[i]];
          SetValuesSnoc(data0, flagNames[..i], flagNames[i], newValue);
          SetValuesSnoc(list0, flagNames[..i], flagNames[i], newValue);
          updatedData := updatedData[flagNames[i] := newValue];
          listBoolFiltered := listBoolFiltered[flagNames[i] := newValue];
        }
        assert flagNames[..|flagNames|] == flagNames;
        stateBoolean := Success(updatedData);
      }
    }

    method UpdateIntFlagValue(flagName: string, newValue: string)
      modifies this`stateInteger, this`listIntFiltered
      ensures stateInteger == match old(stateInteger)
        case Success(data) => Success(data[flagName := newValue])
        case other => other
      ensures listIntFiltered == ReplaceExisting(old(listIntFiltered), flagName, newValue)
    {
      if stateInteger.Success? {
        stateInteger := Success(stateInteger.data[flagName := newValue]);
      }
      listIntFiltered := ReplaceExisting(listIntFiltered, flagName, newValue);
    }

    method UpdateFloatFlagValue(flagName: string, newValue: string)
      modifies this`stateFloat, this`listFloatFiltered
      ensures old(stateFloat).Success? ==>
        stateFloat == Success(old(stateFloat).data[flagName := newValue]) &&
        listFloatFiltered == ReplaceExisting(old(listFloatFiltered), flagName, newValue)
      ensures !old(stateFloat).Success? ==>
        stateFloat == old(stateFloat) && listFloatFiltered == old(listFloatFiltered)
    {
      if stateFloat.Success? {
        stateFloat := Success(stateFloat.data[flagName := newValue]);
        listFloatFiltered := ReplaceExisting(listFloatFiltered, flagName, newValue);
      }
    }

    method UpdateStringFlagValue(flagName: string, newValue: string)
      modifies this`stateString, this`listStringFiltered
      ensures old(stateString).Success? ==>
        stateString == Success(old(stateString).data[flagName := newValue]) &&
        listStringFiltered == ReplaceExisting(old(listStringFiltered), flagName, newValue)
      ensures !old(stateString).Success? ==>
        stateString == old(stateString) && listStringFiltered == old(listStringFiltered)
    {
      if stateString.Success? {
        stateString := Success(stateString.data[flagName := newValue]);
        listStringFiltered := ReplaceExisting(listStringFiltered, flagName, newValue);
      }
    }

    /** addManuallyBoolFlag / Int / Float / String: only the screen state of
        that type gains the entry, and only when it holds data. */
    method AddManuallyFlag(flagType: FlagsType, flagName: string, flagValue: string)
      modifies this`stateBoolean, this`stateInteger, this`stateFloat, this`stateString
      ensures stateBoolean == if flagType == Boolean then Added(old(stateBoolean), flagName, flagValue) else old(stateBoolean)
      ensures stateInteger == if flagType == Integer then Added(old(stateInteger), flagName, flagValue) else old(stateInteger)
      ensures stateFloat == if flagType == Float then Added(old(stateFloat), flagName, flagValue) else old(stateFloat)
      ensures stateString == if flagType == String then Added(old(stateString), flagName, flagValue) else old(stateString)
    {
      match flagType
      case Boolean => stateBoolean := Added(stateBoolean, flagName, flagValue);
      case Integer => stateInteger := Added(stateInteger, flagName, flagValue);
      case Float => stateFloat := Added(stateFloat, flagName, flagValue);
      case String => stateString := Added(stateString, flagName, flagValue);
    }

    // --- turning every Bool flag on or off ---

    method TurnOnAllBoolFlags()
      modifies this`stateBoolean, this`listBoolFiltered
      ensures stateBoolean == match old(stateBoolean)
        case Success(data) => Success(EveryValue(data, "1"))
        case other => other
      ensures listBoolFiltered == EveryValue(old(listBoolFiltered), "1")
    {
      if stateBoolean.Success? {
        stateBoolean := Success(EveryValue(stateBoolean.data, "1"));
      }
      listBoolFiltered := EveryValue(listBoolFiltered, "1");
    }

    method TurnOffAllBoolFlags()
      modifies this`stateBoolean, this`listBoolFiltered
      ensures stateBoolean == match old(stateBoolean)
        case Success(data) => Success(EveryValue(data, "0"))
        case other => other
      ensures listBoolFiltered == EveryValue(old(listBoolFiltered), "0")
    {
      if stateBoolean.Success? {
        stateBoolean := Success(EveryValue(stateBoolean.data, "0"));
      }
      listBoolFiltered := EveryValue(listBoolFiltered, "0");
    }

    // --- enable / disable the selected flags ---

    /** Returns the container sent to the override use case, and whether the
        cast of the Bool state to Success held; when it does not, the source
        throws after sending and nothing else changes. */
    method EnableSelectedFlag() returns (sent: OverriddenFlagsContainer, castHeld: bool)
      modifies this`stateBoolean, this`listBoolFiltered
      ensures sent == SelectedOverrides(true, old(listBoolFiltered), listIntFiltered, listFloatFiltered,
                                        listStringFiltered, selectedItems)
      ensures castHeld == old(stateBoolean).Success?
      ensures !castHeld ==> stateBoolean == old(stateBoolean) && listBoolFiltered == old(listBoolFiltered)
      ensures castHeld && |old(stateBoolean).data.Keys| == |selectedItems| ==>
        stateBoolean == Success(EveryValue(old(stateBoolean).data, "1")) &&
        listBoolFiltered == EveryValue(old(listBoolFiltered), "1")
      ensures castHeld && |old(stateBoolean).data.Keys| != |selectedItems| ==>
        stateBoolean == Success(SetValues(old(stateBoolean).data, selectedItems, "1")) &&
        listBoolFiltered == SetValues(old(listBoolFiltered), selectedItems, "1")
    {
      sent := SelectedOverrides(true, listBoolFiltered, listIntFiltered, listFloatFiltered,
                                listStringFiltered, selectedItems);
      castHeld := stateBoolean.Success?;
      if castHeld {
        if |stateBoolean.data.Keys| == |selectedItems| {
          TurnOnAllBoolFlags();
        } else {
          UpdateBoolFlagValues(selectedItems, "1");
        }
      }
    }

    method DisableSelectedFlag() returns (sent: OverriddenFlagsContainer, castHeld: bool)
      modifies this`stateBoolean, this`listBoolFiltered
      ensures sent == SelectedOverrides(false, old(listBoolFiltered), listIntFiltered, listFloatFiltered,
                                        listStringFiltered, selectedItems)
      ensures castHeld == old(stateBoolean).Success?
      ensures !castHeld ==> stateBoolean == old(stateBoolean) && listBoolFiltered == old(listBoolFiltered)
      ensures castHeld && |old(stateBoolean).data.Keys| == |selectedItems| ==>
        stateBoolean == Success(EveryValue(old(stateBoolean).data, "0")) &&
        listBoolFiltered == EveryValue(old(listBoolFiltered), "0")
      ensures castHeld && |old(stateBoolean).data.Keys| != |selectedItems| ==>
        stateBoolean == Success(SetValues(old(stateBoolean).data, selectedItems, "0")) &&
        listBoolFiltered == SetValues(old(listBoolFiltered), selectedItems, "0")
    {
      sent := SelectedOverrides(false, listBoolFiltered, listIntFiltered, listFloatFiltered,
                                listStringFiltered, selectedItems);
      castHeld := stateBoolean.Success?;
      if castHeld {
        if |stateBoolean.data.Keys| == |selectedItems| {
          TurnOffAllBoolFlags();
        } else {
          UpdateBoolFlagValues(selectedItems, "0");
        }
      }
    }

    /** The changed-list bookkeeping of overrideFlag: each supplied value is
        recorded under the flag's name in the changed list of its type. */
    method OverrideFlag(name: string, intVal: Option<string>, boolVal: Option<string>,
                        floatVal: Option<string>, stringVal: Option<string>)
      modifies this`changedFilterBoolList, this`changedFilterIntList,
               this`changedFilterFloatList, this`changedFilterStringList
      ensures changedFilterBoolList == Recorded(old(changedFilterBoolList), name, boolVal)
      ensures changedFilterIntList == Recorded(old(changedFilterIntList), name, intVal)
      ensures changedFilterFloatList == Recorded(old(changedFilterFloatList), name, floatVal)
      ensures changedFilterStringList == Recorded(old(changedFilterStringList), name, stringVal)
    {
      changedFilterBoolList := Recorded(changedFilterBoolList, name, boolVal);
      changedFilterIntList := Recorded(changedFilterIntList, name, intVal);
      changedFilterFloatList := Recorded(changedFilterFloatList, name, floatVal);
      changedFilterStringList := Recorded(changedFilterStringList, name, stringVal);
    }

    /** selectAllItems: with Bool data shown, the selection becomes its keys
        in the key order of the sorted screen map. */
    method SelectAllItems()
      modifies this`selectedItems
      ensures selectedItems == if stateBoolean.Success? then SortedKeys(stateBoolean.data.Keys)
                               else old(selectedItems)
    {
      if stateBoolean.Success? {
        selectedItems := SortedKeys(stateBoolean.data.Keys);
      }
    }

    /** The wait of showFalseProgressDialog, with the buckets as written, or
        None when no Bool data is shown and the dialog is not opened. */
    function FalseProgressDelay(customCount: Option<int>): (ms: Option<int>)
      reads this
      ensures ms.Some? <==> stateBoolean.Success?
      ensures ms.Some? && customCount.None? ==> ms.value == ProgressDelayAsWritten(|stateBoolean.data.Keys|)
      ensures ms.Some? && customCount.Some? ==> ms.value == ProgressDelayAsWritten(customCount.value)
      ensures ms.Some? ==> 0 <= ms.value <= 10000
    {
      match stateBoolean
      case Success(data) => Some(ProgressDelayAsWritten(if customCount.Some? then customCount.value else |data.Keys|))
      case _ => None
    }

    method ResetFilterLists()
      modifies this`listBoolFiltered, this`listIntFiltered, this`listFloatFiltered, this`listStringFiltered,
               this`changedFilterBoolList, this`changedFilterIntList, this`changedFilterFloatList,
               this`changedFilterStringList
      ensures listBoolFiltered == listIntFiltered == listFloatFiltered == listStringFiltered == map[]
      ensures changedFilterBoolList == changedFilterIntList == changedFilterFloatList == changedFilterStringList == map[]
    {
      listBoolFiltered, listIntFiltered, listFloatFiltered, listStringFiltered := map[], map[], map[], map[];
      changedFilterBoolList, changedFilterIntList := map[], map[];
      changedFilterFloatList, changedFilterStringList := map[], map[];
    }
  }

  /** A screen state with one entry added when it holds data. */
  function Added(state: UiState<Flags>, name: string, value: string): (r: UiState<Flags>)
    ensures !state.Success? ==> r == state
    ensures state.Success? ==> r.Success? && r.data.Keys == state.data.Keys + {name} && r.data[name] == value
    ensures state.Success? ==> forall k :: k in state.data && k != name ==> r.data[k] == state.data[k]
  {
    match state
    case Success(data) => Success(data[name := value])
    case other => other
  }

  /** A changed list after overrideFlag: a supplied value is stored under the
      name; an absent one leaves the list as it was. */
  function Recorded(m: Flags, name: string, value: Option<string>): (r: Flags)
    ensures value.Some? ==> r.Keys == m.Keys + {name} && r[name] == value.value
    ensures value.None? ==> r == m
    ensures forall k :: k in m && k != name ==> k in r && r[k] == m[k]
  {
    if value.Some? then m[name := value.value] else m
  }
}
