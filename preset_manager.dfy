/**
 * Preset names and navigation (Service/PresetManager.cpp).
 *
 * The preset directory is a map from preset name to the saved parameter
 * snapshot, and the plugin's value-tree state is one such snapshot. The
 * current preset is the state's presetName property: currentPreset is a
 * juce::Value that refers to it, and valueTreeRedirected re-attaches it to
 * every state that replaces the old one.
 *
 * Whether a file write or delete succeeds is a parameter, and so is the
 * directory listing (its order is whatever findChildFiles returns).
 */
module PresetManager {

  /** A value-tree state: the presetName property and the plugin parameters. */
  datatype Snapshot = Snapshot(presetName: string, parameters: map<string, real>)

  /** The preset directory and the plugin's current state. */
  datatype Store = Store(files: map<string, Snapshot>, state: Snapshot)

  function CurrentPreset(s: Store): string
  {
    s.state.presetName
  }

  //==============================================================================
  // The three file operations

  /**
   * savePreset: sets the current preset, then writes the state to the
   * preset's file; a failed write leaves the directory as it was, but the
   * name is set regardless.
   */
  function Save(s: Store, presetName: string, written: bool): (r: Store)
    ensures presetName == "" ==> r == s
  {
    if presetName == "" then s
    else
      var state := s.state.(presetName := presetName);
      Store(if written then s.files[presetName := state] else s.files, state)
  }

  /** deletePreset: removes an existing preset's file and clears the current preset name. */
  function Delete(s: Store, presetName: string, deleted: bool): (r: Store)
    ensures presetName == "" || presetName !in s.files ==> r == s
  {
    if presetName == "" || presetName !in s.files || !deleted then s
    else Store(s.files - {presetName}, s.state.(presetName := ""))
  }

  /** loadPreset: replaces the state with the saved one and names it after the preset. */
  function Load(s: Store, presetName: string): (r: Store)
    ensures r.files == s.files
    ensures presetName == "" || presetName !in s.files ==> r == s
  {
    if presetName == "" || presetName !in s.files then s
    else Store(s.files, s.files[presetName].(presetName := presetName))
  }

  lemma EmptyNameChangesNothing(s: Store, written: bool, deleted: bool)
    ensures Save(s, "", written) == s && Delete(s, "", deleted) == s && Load(s, "") == s
  {
  }

  /** A name that has a file loads its parameters and becomes the current preset. */
  lemma LoadSetsCurrent(s: Store, presetName: string)
    requires presetName != "" && presetName in s.files
    ensures CurrentPreset(Load(s, presetName)) == presetName
    ensures Load(s, presetName).state.parameters == s.files[presetName].parameters
  {
  }

  /** Saving names the current preset, whether or not the file could be written. */
  lemma SaveSetsCurrent(s: Store, presetName: string, written: bool)
    requires presetName != ""
    ensures CurrentPreset(Save(s, presetName, written)) == presetName
    ensures Save(s, presetName, written).state.parameters == s.state.parameters
    ensures written ==> presetName in Save(s, presetName, written).files
  {
  }

  /** Deleting an existing preset removes its file and clears the current name; the parameters stay. */
  lemma DeleteClearsCurrent(s: Store, presetName: string)
    requires presetName != "" && presetName in s.files
    ensures var r := Delete(s, presetName, true);
            presetName !in r.files && CurrentPreset(r) == "" && r.state.parameters == s.state.parameters
            && forall n :: n in s.files && n != presetName ==> n in r.files && r.files[n] == s.files[n]
  {
  }

  /** Loading a preset just saved brings back the state that was saved. */
  lemma SaveThenLoad(s: Store, presetName: string)
    requires presetName != ""
    ensures Load(Save(s, presetName, true), presetName) == Save(s, presetName, true)
  {
  }

  //==============================================================================
  // Next and previous

  /** StringArray::indexOf: the first position of name in the list, or -1. */
  function IndexOf(names: seq<string>, name: string): (i: int)
    ensures -1 <= i < |names|
    ensures i >= 0 ==> names[i] == name && forall j :: 0 <= j < i ==> names[j] != name
    ensures i == -1 <==> name !in names
    decreases |names|
  {
    if |names| == 0 then -1
    else if names[0] == name then 0
    else
      var k := IndexOf(names[1..], name);
      if k == -1 then -1 else k + 1
  }

  /** The index loadNextPreset selects: one past the current preset, wrapping from the last to 0. */
  function NextIndex(names: seq<string>, current: string): (i: nat)
    requires |names| > 0
    ensures i < |names|
    ensures var c := IndexOf(names, current); i == if c == |names| - 1 then 0 else c + 1
  {
    var currentIndex := IndexOf(names, current);
    if currentIndex + 1 > |names| - 1 then 0 else currentIndex + 1
  }

  /** The index loadPreviousPreset selects: one before the current preset, wrapping from 0 to the last. */
  function PreviousIndex(names: seq<string>, current: string): (i: nat)
    requires |names| > 0
    ensures i < |names|
    ensures var c := IndexOf(names, current); i == if c <= 0 then |names| - 1 else c - 1
  {
    var currentIndex := IndexOf(names, current);
    if currentIndex - 1 >= 0 then currentIndex - 1 else |names| - 1
  }

  /** loadNextPreset: -1 on an empty listing, otherwise the selected index after loading that preset. */
  function LoadNext(s: Store, allPresets: seq<string>): (r: (Store, int))
    ensures |allPresets| == 0 ==> r == (s, -1)
    ensures |allPresets| > 0 ==> 0 <= r.1 < |allPresets| && r.0 == Load(s, allPresets[r.1])
  {
    if |allPresets| == 0 then (s, -1)
    else
      var nextIndex: int := NextIndex(allPresets, CurrentPreset(s));
      (Load(s, allPresets[nextIndex]), nextIndex)
  }

  /** loadPreviousPreset: -1 on an empty listing, otherwise the selected index after loading that preset. */
  function LoadPrevious(s: Store, allPresets: seq<string>): (r: (Store, int))
    ensures |allPresets| == 0 ==> r == (s, -1)
    ensures |allPresets| > 0 ==> 0 <= r.1 < |allPresets| && r.0 == Load(s, allPresets[r.1])
  {
    if |allPresets| == 0 then (s, -1)
    else
      var previousIndex: int := PreviousIndex(allPresets, CurrentPreset(s));
      (Load(s, allPresets[previousIndex]), previousIndex)
  }

  /** A current preset missing from the listing makes next select 0 and previous select the last entry. */
  lemma MissingCurrentSelectsEnds(names: seq<string>, current: string)
    requires |names| > 0 && current !in names
    ensures NextIndex(names, current) == 0 && PreviousIndex(names, current) == |names| - 1
  {
  }

  predicate Distinct(names: seq<string>)
  {
    forall i, j :: 0 <= i < j < |names| ==> names[i] != names[j]
  }

  /** In a list without repeats every entry is found at its own position. */
  lemma IndexOfDistinct(names: seq<string>, i: nat)
    requires Distinct(names) && i < |names|
    ensures IndexOf(names, names[i]) == i
  {
  }

  /** Stepping forward and then back over a list without repeats returns to the starting index. */
  lemma NextThenPreviousIndex(names: seq<string>, current: string)
    requires Distinct(names) && current in names
    ensures PreviousIndex(names, names[NextIndex(names, current)]) == IndexOf(names, current)
  {
    IndexOfDistinct(names, NextIndex(names, current));
  }

  /**
   * When every listed preset has a non-empty name and a file, loading the
   * next preset and then the previous one comes back to the starting
   * preset, at its index in the listing.
   */
  lemma NextThenPrevious(s: Store, allPresets: seq<string>)
    requires Distinct(allPresets) && CurrentPreset(s) in allPresets
    requires forall n :: n in allPresets ==> n != "" && n in s.files
    ensures var after := LoadPrevious(LoadNext(s, allPresets).0, allPresets);
            after.1 == IndexOf(allPresets, CurrentPreset(s)) && CurrentPreset(after.0) == CurrentPreset(s)
  {
    var next := NextIndex(allPresets, CurrentPreset(s));
    var s1 := Load(s, allPresets[next]);
    assert LoadNext(s, allPresets).0 == s1;
    assert allPresets[next] in allPresets;
    LoadSetsCurrent(s, allPresets[next]);
    NextThenPreviousIndex(allPresets, CurrentPreset(s));
    var prev := PreviousIndex(allPresets, CurrentPreset(s1));
    assert prev == IndexOf(allPresets, CurrentPreset(s));
    assert LoadPrevious(s1, allPresets) == (Load(s1, allPresets[prev]), prev);
    assert allPresets[prev] in allPresets;
    LoadSetsCurrent(s1, allPresets[prev]);
  }

  //==============================================================================

  /** Service::PresetManager: the directory it manages and the state its currentPreset refers to. */
  class PresetManager {
    var files: map<string, Snapshot>
    var state: Snapshot

    function Model(): Store
      reads this
    {
      Store(files, state)
    }

    /** Attaches to an existing directory and value-tree state. */
    constructor (directory: map<string, Snapshot>, valueTreeState: Snapshot)
      ensures Model() == Store(directory, valueTreeState)
    {
      files := directory;
      state := valueTreeState;
    }

    function GetCurrentPreset(): (name: string)
      reads this
      ensures name == CurrentPreset(Model())
    {
      state.presetName
    }

    method SavePreset(presetName: string, written: bool)
      modifies this
      ensures Model() == Save(old(Model()), presetName, written)
    {
      if presetName == "" {
        return;
      }
      state := state.(presetName := presetName);
      if written {
        files := files[presetName := state];
      }
    }

    method DeletePreset(presetName: string, deleted: bool)
      modifies this
      ensures Model() == Delete(old(Model()), presetName, deleted)
    {
      if presetName == "" {
        return;
      }
      if presetName !in files {
        return;
      }
      if !deleted {
        return;
      }
      files := files - {presetName};
      state := state.(presetName := "");
    }

    method LoadPreset(presetName: string)
      modifies this
      ensures Model() == Load(old(Model()), presetName)
    {
      if presetName == "" {
        return;
      }
      if presetName !in files {
        return;
      }
      state := files[presetName];
      state := state.(presetName := presetName);
    }

    method LoadNextPreset(allPresets: seq<string>) returns (index: int)
      modifies this
      ensures (Model(), index) == LoadNext(old(Model()), allPresets)
    {
      if |allPresets| == 0 {
        return -1;
      }
      var currentIndex := IndexOf(allPresets, GetCurrentPreset());
      var nextIndex := if currentIndex + 1 > |allPresets| - 1 then 0 else currentIndex + 1;
      LoadPreset(allPresets[nextIndex]);
      return nextIndex;
    }

    method LoadPreviousPreset(allPresets: seq<string>) returns (index: int)
      modifies this
      ensures (Model(), index) == LoadPrevious(old(Model()), allPresets)
    {
      if |allPresets| == 0 {
        return -1;
      }
      var currentIndex := IndexOf(allPresets, GetCurrentPreset());
      var previousIndex := if currentIndex - 1 >= 0 then currentIndex - 1 else |allPresets| - 1;
      LoadPreset(allPresets[previousIndex]);
      return previousIndex;
    }
  }
}
