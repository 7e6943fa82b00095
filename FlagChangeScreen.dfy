/** The state logic embedded in the flag editor screen: selection mode and
    its click handlers, the page to flag-type mapping, the encoding of the
    add-flag dialog's Bool choice, and the "name: value" text of the
    selected flags.
 */
module FlagChangeScreen {
  import opened Common
  import opened FlagChange

  // ---------------------------------------------------------------------
  // Pure helpers
  // ---------------------------------------------------------------------

  /** The position of the first occurrence of `x`. */
  function FirstIndex(s: seq<string>, x: string): (i: nat)
    requires x in s
    ensures i < |s| && s[i] == x && x !in s[..i]
  {
    if s[0] == x then 0
    else
      var j := FirstIndex(s[1..], x);
      assert s[..j + 1] == [s[0]] + s[1..][..j];
      j + 1
  }

  /** `MutableList.remove(x)`: drops the first occurrence, if any. */
  function RemoveFirst(s: seq<string>, x: string): (r: seq<string>)
    ensures x !in s ==> r == s
    ensures x in s ==> |r| == |s| - 1
    ensures multiset(r) == multiset(s) - multiset{x}
  {
    if s == [] then []
    else
      assert s == [s[0]] + s[1..];
      if s[0] == x then s[1..] else [s[0]] + RemoveFirst(s[1..], x)
  }

  /** The occurrence removed is the first one, and every other name keeps
      its place in order. */
  lemma {:induction false} RemoveFirstKeepsOrder(s: seq<string>, x: string)
    requires x in s
    ensures RemoveFirst(s, x) == s[..FirstIndex(s, x)] + s[FirstIndex(s, x) + 1..]
  {
    if s[0] != x {
      RemoveFirstKeepsOrder(s[1..], x);
      var j := FirstIndex(s[1..], x);
      assert s[..j + 1] == [s[0]] + s[1..][..j];
      assert s[j + 2..] == s[1..][j + 1..];
    }
  }

  /** Removing what was just appended gives back the selection, as long as the
      name was not selected before. */
  lemma {:induction false} RemoveFirstAppended(s: seq<string>, x: string)
    requires x !in s
    ensures RemoveFirst(s + [x], x) == s
  {
    if s != [] {
      assert (s + [x])[1..] == s[1..] + [x];
      RemoveFirstAppended(s[1..], x);
    }
  }

  /** The selection after a click on an item in selection mode: a selected
      item is removed, any other is appended. */
  function Toggled(selected: seq<string>, isSelected: bool, flagName: string): (r: seq<string>)
    ensures isSelected ==> multiset(r) == multiset(selected) - multiset{flagName}
    ensures isSelected && flagName in selected ==>
      r == selected[..FirstIndex(selected, flagName)] + selected[FirstIndex(selected, flagName) + 1..]
    ensures isSelected && flagName !in selected ==> r == selected
    ensures !isSelected ==> r == selected + [flagName]
  {
    if isSelected then
      if flagName in selected then RemoveFirstKeepsOrder(selected, flagName); RemoveFirst(selected, flagName)
      else RemoveFirst(selected, flagName)
    else selected + [flagName]
  }

  /** The page on show determines the flag type of the page's actions. */
  function SelectedFlagsType(page: int): (t: FlagsType)
    ensures t == Boolean <==> page == 0
    ensures t == Integer <==> page == 1
    ensures t == Float <==> page == 2
    ensures t == String <==> page !in {0, 1, 2}
  {
    match page
    case 0 => Boolean
    case 1 => Integer
    case 2 => Float
    case _ => String
  }

  /** The add-flag dialog's Bool choice: the first option means on. */
  function AddFlagBoolValue(flagBoolean: int): (v: string)
    ensures v == "1" <==> flagBoolean == 0
    ensures v == "0" <==> flagBoolean != 0
  {
    if flagBoolean == 0 then "1" else "0"
  }

  /** One `name: value` line: it holds no line break unless its parts do. */
  function FlagLine(name: string, value: string): (r: string)
    ensures '\n' !in name && '\n' !in value ==> '\n' !in r
  {
    name + ": " + value
  }

  /** One line per selected name present in the Bool data, in selection
      order; absent names give no line. */
  function FlagLines(selected: seq<string>, data: Flags): (r: seq<string>)
    ensures |r| <= |selected|
    ensures (forall n :: n in selected ==> n in data) ==>
      |r| == |selected| && forall i :: 0 <= i < |r| ==> r[i] == FlagLine(selected[i], data[selected[i]])
    ensures (forall n :: n in selected ==> n !in data) ==> r == []
  {
    if selected == [] then []
    else
      var name := selected[0];
      (if name in data then [FlagLine(name, data[name])] else []) + FlagLines(selected[1..], data)
  }

  lemma {:induction false} FlagLinesAppend(s: seq<string>, t: seq<string>, data: Flags)
    ensures FlagLines(s + t, data) == FlagLines(s, data) + FlagLines(t, data)
  {
    if s == [] {
      assert s + t == t;
    } else {
      assert (s + t)[0] == s[0] && (s + t)[1..] == s[1..] + t;
      FlagLinesAppend(s[1..], t, data);
    }
  }

  /** `joinToString(sep)`. */
  function Join(lines: seq<string>, sep: string): (r: string)
    ensures lines == [] ==> r == []
    ensures |lines| == 1 ==> r == lines[0]
  {
    if lines == [] then ""
    else if |lines| == 1 then lines[0]
    else lines[0] + sep + Join(lines[1..], sep)
  }

  lemma {:induction false} JoinAppend(a: seq<string>, b: seq<string>, sep: string)
    requires a != [] && b != []
    ensures Join(a + b, sep) == Join(a, sep) + sep + Join(b, sep)
  {
    if |a| == 1 {
      assert (a + b)[1..] == b;
    } else {
      assert (a + b)[1..] == a[1..] + b;
      JoinAppend(a[1..], b, sep);
    }
  }

  /** The Flags part of the suggestion mail. */
  function FlagsText(selected: seq<string>, data: Flags): (r: string)
    ensures (forall n :: n in selected ==> n !in data) ==> r == ""
    ensures |selected| == 1 && selected[0] in data ==> r == FlagLine(selected[0], data[selected[0]])
  {
    Join(FlagLines(selected, data), "\n")
  }

  /** Extending the selection by names with data appends their lines to the
      text, one newline apart. */
  lemma FlagsTextAppend(s: seq<string>, t: seq<string>, data: Flags)
    requires FlagLines(s, data) != [] && FlagLines(t, data) != []
    ensures FlagsText(s + t, data) == FlagsText(s, data) + "\n" + FlagsText(t, data)
  {
    FlagLinesAppend(s, t, data);
    JoinAppend(FlagLines(s, data), FlagLines(t, data), "\n");
  }

  // ---------------------------------------------------------------------
  // Selection mode
  // ---------------------------------------------------------------------

  /** The screen's isInSelectionMode together with the view model whose
      selectedItems it edits. */
  class SelectionMode {
    const viewModel: FlagChangeScreenViewModel
    var isInSelectionMode: bool

    constructor (viewModel: FlagChangeScreenViewModel)
      ensures this.viewModel == viewModel && !isInSelectionMode
    {
      this.viewModel := viewModel;
      isInSelectionMode := false;
    }

    /** A long click enters selection mode with the item selected, or in
        selection mode toggles the item. */
    method SelectedItemLongClick(isSelected: bool, flagName: string)
      modifies this`isInSelectionMode, viewModel`selectedItems
      ensures isInSelectionMode
      ensures viewModel.selectedItems ==
        if old(isInSelectionMode) then Toggled(old(viewModel.selectedItems), isSelected, flagName)
        else old(viewModel.selectedItems) + [flagName]
    {
      if isInSelectionMode {
        viewModel.selectedItems := Toggled(viewModel.selectedItems, isSelected, flagName);
      } else {
        isInSelectionMode := true;
        viewModel.selectedItems := viewModel.selectedItems + [flagName];
      }
    }

    /** A short click toggles the item in selection mode and does nothing
        outside it. */
    method SelectedItemShortClick(isSelected: bool, flagName: string)
      modifies viewModel`selectedItems
      ensures viewModel.selectedItems ==
        if isInSelectionMode then Toggled(old(viewModel.selectedItems), isSelected, flagName)
        else old(viewModel.selectedItems)
    {
      if isInSelectionMode {
        viewModel.selectedItems := Toggled(viewModel.selectedItems, isSelected, flagName);
      }
    }

    method ResetSelectionMode()
      modifies this`isInSelectionMode, viewModel`selectedItems
      ensures !isInSelectionMode && viewModel.selectedItems == []
    {
      isInSelectionMode := false;
      viewModel.selectedItems := [];
    }

    /** The effect keyed on the mode and the selection size: selection mode
        with nothing selected is left. */
    method ExitWhenSelectionEmpty()
      modifies this`isInSelectionMode
      ensures isInSelectionMode ==> viewModel.selectedItems != []
      ensures isInSelectionMode == (old(isInSelectionMode) && viewModel.selectedItems != [])
    {
      if isInSelectionMode && viewModel.selectedItems == [] {
        isInSelectionMode := false;
      }
    }
  }

  /** A long click that selects a new flag, then a short click on it, give
      back the selection as it was; selection mode then survives the
      empty-selection effect only when something else is still selected. */
  method LongThenShortClick(vm: FlagChangeScreenViewModel, flagName: string) returns (before: seq<string>)
    requires flagName !in vm.selectedItems
    modifies vm`selectedItems
    ensures vm.selectedItems == before == old(vm.selectedItems)
  {
    before := vm.selectedItems;
    var screen := new SelectionMode(vm);
    screen.SelectedItemLongClick(false, flagName);
    assert vm.selectedItems == before + [flagName];
    screen.SelectedItemShortClick(true, flagName);
    RemoveFirstAppended(before, flagName);
    screen.ExitWhenSelectionEmpty();
    assert screen.isInSelectionMode == (before != []);
  }
}
