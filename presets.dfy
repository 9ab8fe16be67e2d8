/** The preset library page (docs/js/presets.js): the category and text
    filter over the loaded presets, the values shown in the detail view, and
    the guards around installing a preset. */
module Presets {
  import opened Wrappers
  import opened Strings
  import opened Dict

  // ---------------------------------------------------------------------
  // Data
  // ---------------------------------------------------------------------

  /** A preset binding: one key code, or (in later presets) a list of them. */
  datatype BindingValue = Single(code: string) | Many(codes: seq<string>)

  datatype PresetProfile = PresetProfile(
    keyBindings: Option<Dict<BindingValue>>,
    mouseSensitivity: Option<real>,
    sensitivityCurve: Option<string>,
    deadzone: Option<real>)

  datatype Preset = Preset(
    id: string,
    name: string,
    description: string,
    author: string,
    category: string,
    tags: Option<seq<string>>,
    profile: Option<PresetProfile>)

  // ---------------------------------------------------------------------
  // Filter
  // ---------------------------------------------------------------------

  /** Name, description, author and tags joined by single spaces, lower-cased. */
  function SearchText(p: Preset): string {
    ToLower(Join([p.name, p.description, p.author] + p.tags.GetOr([]), " "))
  }

  /** Whether a preset passes the filter for an already normalised term. */
  predicate Matches(p: Preset, term: string, category: string) {
    (category == "all" || p.category == category)
    && (term == "" || Contains(SearchText(p), term))
  }

  /** `searchTerm.toLowerCase().trim()` */
  function NormalizeTerm(searchTerm: string): string {
    Trim(ToLower(searchTerm))
  }

  /** `a` is `b` with some elements left out, order kept. */
  predicate Subsequence<T(==)>(a: seq<T>, b: seq<T>)
    decreases |b|
  {
    a == [] || (b != [] && ((a[0] == b[0] && Subsequence(a[1..], b[1..])) || Subsequence(a, b[1..])))
  }

  /** `presets.filter(...)`: the matching presets, in their original order. */
  function Filter(presets: seq<Preset>, term: string, category: string): (r: seq<Preset>)
    ensures Subsequence(r, presets)
    ensures forall p :: p in r <==> p in presets && Matches(p, term, category)
    ensures |r| <= |presets|
  {
    if presets == [] then []
    else
      var rest := Filter(presets[1..], term, category);
      assert forall p :: p in presets <==> p == presets[0] || p in presets[1..];
      if Matches(presets[0], term, category) then
        assert ([presets[0]] + rest)[1..] == rest;
        [presets[0]] + rest
      else rest
  }

  /** The filter keeps every copy of a matching preset and no copy of any
      other: each preset occurs in the result as often as in the input when
      it matches, and not at all otherwise. */
  lemma {:induction false} FilterKeepsCounts(presets: seq<Preset>, term: string, category: string)
    ensures forall p :: multiset(Filter(presets, term, category))[p]
                        == if Matches(p, term, category) then multiset(presets)[p] else 0
  {
    if presets != [] {
      FilterKeepsCounts(presets[1..], term, category);
      assert presets == [presets[0]] + presets[1..];
      assert multiset(presets) == multiset{presets[0]} + multiset(presets[1..]);
      var rest := Filter(presets[1..], term, category);
      if Matches(presets[0], term, category) {
        assert Filter(presets, term, category) == [presets[0]] + rest;
        assert multiset([presets[0]] + rest) == multiset{presets[0]} + multiset(rest);
      }
    }
  }

  /** With category `all` and a blank term every preset is kept, in order. */
  lemma {:induction false} FilterAllBlank(presets: seq<Preset>, searchTerm: string)
    requires NormalizeTerm(searchTerm) == ""
    ensures Filter(presets, NormalizeTerm(searchTerm), "all") == presets
  {
    if presets != [] {
      FilterAllBlank(presets[1..], searchTerm);
    }
  }

  /** A preset of another category never passes, whatever the term. */
  lemma OtherCategoryExcluded(presets: seq<Preset>, term: string, category: string, p: Preset)
    requires category != "all" && p.category != category
    ensures p !in Filter(presets, term, category)
  {
  }

  /** Three fields joined with single spaces. */
  lemma JoinThree(a: string, b: string, c: string)
    ensures Join([a, b, c], " ") == a + " " + b + " " + c
  {
    assert [a, b, c][1..] == [b, c] && [b, c][1..] == [c];
    assert Join([b, c], " ") == b + " " + c;
    assert a + " " + (b + " " + c) == a + " " + b + " " + c;
  }

  /** The search runs over the joined text, so a term can span two fields. */
  lemma MatchSpansFields()
    ensures Matches(Preset("halo", "Halo", "Infinite", "Ann", "fps", None, None), "o i", "all")
  {
    var p := Preset("halo", "Halo", "Infinite", "Ann", "fps", None, None);
    var parts := [p.name, p.description, p.author] + p.tags.GetOr([]);
    assert parts == ["Halo", "Infinite", "Ann"];
    JoinThree("Halo", "Infinite", "Ann");
    var text := Join(parts, " ");
    var lower := SearchText(p);
    assert lower[3] == LowerChar(text[3]) == 'o';
    assert lower[4] == LowerChar(text[4]) == ' ';
    assert lower[5] == LowerChar(text[5]) == 'i';
    assert "o i" <= lower[3..];
  }

  // ---------------------------------------------------------------------
  // Detail view
  // ---------------------------------------------------------------------

  /** `formatCurve`: the two named curves get their labels, anything else is linear. */
  function FormatCurve(curve: string): (r: string)
    ensures r == "Exponential" <==> curve == "exponential"
    ensures r == "S-Curve" <==> curve == "sCurve"
    ensures r == "Linear" <==> curve != "exponential" && curve != "sCurve"
  {
    if curve == "exponential" then "Exponential"
    else if curve == "sCurve" then "S-Curve"
    else "Linear"
  }

  /** `profile.sensitivityCurve || 'linear'`, formatted. */
  function CurveLabel(curve: Option<string>): (r: string)
    ensures curve.None? || curve == Some("") ==> r == "Linear"
  {
    FormatCurve(if curve.Some? && curve.value != "" then curve.value else "linear")
  }

  /** `value || 5`: a missing or zero setting shows as 5. */
  function SettingOrDefault(value: Option<real>): (r: real)
    ensures r != 0.0
    ensures value.None? || value == Some(0.0) ==> r == 5.0
    ensures value.Some? && value.value != 0.0 ==> r == value.value
  {
    if value.Some? && value.value != 0.0 then value.value else 5.0
  }

  /** `KEY_DISPLAY_NAMES` */
  const KeyDisplayNames: map<string, string> := map[
    "KeyW" := "W", "KeyA" := "A", "KeyS" := "S", "KeyD" := "D",
    "KeyQ" := "Q", "KeyE" := "E", "KeyR" := "R", "KeyF" := "F",
    "KeyC" := "C", "KeyV" := "V", "KeyZ" := "Z", "KeyX" := "X",
    "KeyG" := "G", "KeyH" := "H", "KeyB" := "B", "KeyN" := "N",
    "KeyT" := "T", "KeyY" := "Y", "KeyU" := "U", "KeyI" := "I",
    "KeyO" := "O", "KeyP" := "P", "KeyJ" := "J", "KeyK" := "K",
    "KeyL" := "L", "KeyM" := "M",
    "Digit1" := "1", "Digit2" := "2", "Digit3" := "3", "Digit4" := "4",
    "Digit5" := "5", "Digit6" := "6", "Digit7" := "7", "Digit8" := "8",
    "Digit9" := "9", "Digit0" := "0",
    "Space" := "Space",
    "ShiftLeft" := "Shift", "ShiftRight" := "R-Shift",
    "ControlLeft" := "Ctrl", "ControlRight" := "R-Ctrl",
    "AltLeft" := "Alt", "AltRight" := "R-Alt",
    "Tab" := "Tab", "Escape" := "Esc", "Enter" := "Enter",
    "MouseLeft" := "Left Click", "MouseRight" := "Right Click", "MouseMiddle" := "Middle Click",
    "MouseButton4" := "Mouse 4", "MouseButton5" := "Mouse 5",
    "ArrowUp" := "Up", "ArrowDown" := "Down", "ArrowLeft" := "Left", "ArrowRight" := "Right"
  ]

  /** `ACTION_NAMES` */
  const ActionNames: map<string, string> := map[
    "moveForward" := "Move Forward", "moveBackward" := "Move Back",
    "moveLeft" := "Move Left", "moveRight" := "Move Right",
    "actionA" := "A Button", "actionB" := "B Button", "actionX" := "X Button", "actionY" := "Y Button",
    "leftBumper" := "Left Bumper", "rightBumper" := "Right Bumper",
    "leftTrigger" := "Left Trigger", "rightTrigger" := "Right Trigger",
    "dpadUp" := "D-Pad Up", "dpadDown" := "D-Pad Down", "dpadLeft" := "D-Pad Left", "dpadRight" := "D-Pad Right",
    "view" := "View", "menu" := "Menu",
    "leftStickClick" := "L-Stick Click", "rightStickClick" := "R-Stick Click"
  ]

  /** `map[k] || k` over a table whose names are all non-empty. */
  function Lookup(names: map<string, string>, k: string): (r: string)
    ensures k in names && names[k] != "" ==> r == names[k]
    ensures k !in names ==> r == k
  {
    if k in names && names[k] != "" then names[k] else k
  }

  /** `Array.isArray(keys) ? keys : [keys]` */
  function AsList(v: BindingValue): (codes: seq<string>)
    ensures v.Single? ==> codes == [v.code]
    ensures v.Many? ==> codes == v.codes
  {
    match v
    case Single(c) => [c]
    case Many(cs) => cs
  }

  /** Each code through the display table, joined with `, `. */
  function DisplayKeys(v: BindingValue): string {
    var codes := AsList(v);
    Join(seq(|codes|, i requires 0 <= i < |codes| => Lookup(KeyDisplayNames, codes[i])), ", ")
  }

  /** A single-code binding shows exactly as a one-element list does, namely
      as that code's display name (or the code itself). */
  lemma SingleShowsAsList(code: string)
    ensures DisplayKeys(Single(code)) == DisplayKeys(Many([code]))
    ensures DisplayKeys(Single(code)) == Lookup(KeyDisplayNames, code)
  {
  }

  /** One row of the bindings table: the action's display name and its keys. */
  datatype BindingRow = BindingRow(action: string, keys: string)

  function Rows(bindings: Dict<BindingValue>): (rows: seq<BindingRow>)
    ensures |rows| == |bindings|
    ensures forall i :: 0 <= i < |bindings| ==>
      rows[i] == BindingRow(Lookup(ActionNames, bindings[i].0), DisplayKeys(bindings[i].1))
  {
    seq(|bindings|, i requires 0 <= i < |bindings| =>
      BindingRow(Lookup(ActionNames, bindings[i].0), DisplayKeys(bindings[i].1)))
  }

  /** What the detail view shows for a preset. */
  datatype ModalView = ModalView(
    title: string,
    author: string,
    category: string,
    description: string,
    sensitivity: real,
    curve: string,
    deadzone: real,
    bindings: seq<BindingRow>,
    installEnabled: bool)

  /** `presets.find(p => p.id === id)` */
  function Find(presets: seq<Preset>, id: string): (r: Option<Preset>)
    ensures r.None? <==> forall i :: 0 <= i < |presets| ==> presets[i].id != id
    ensures r.Some? ==> r.value in presets && r.value.id == id
    ensures r.Some? ==> exists i :: 0 <= i < |presets| && presets[i] == r.value
                                   && forall j :: 0 <= j < i ==> presets[j].id != id
  {
    if presets == [] then None
    else if presets[0].id == id then Some(presets[0])
    else
      var r := Find(presets[1..], id);
      assert forall i :: 1 <= i < |presets| ==> presets[i] == presets[1..][i - 1];
      if r.Some? then
        var k :| 0 <= k < |presets[1..]| && presets[1..][k] == r.value
                 && forall j :: 0 <= j < k ==> presets[1..][j].id != id;
        assert presets[k + 1] == r.value;
        assert forall j :: 0 <= j < k + 1 ==> presets[j].id != id;
        r
      else r
  }

  /** The outcome of `installPreset` as seen by the user. */
  datatype InstallOutcome =
    | NoSuchPreset
    | ExtensionMissing
    | Installed(name: string)
    | InstallFailed

  /** The extension's reply to an install request. */
  datatype InstallReply = Success | Failure(message: string)

  // ---------------------------------------------------------------------
  // The page state
  // ---------------------------------------------------------------------

  class PresetLibrary {
    var presets: seq<Preset>
    var filteredPresets: seq<Preset>
    var selectedPreset: Option<Preset>
    var extensionInstalled: bool

    /** After loading: every preset shown, none selected. */
    constructor (presets: seq<Preset>, extensionInstalled: bool)
      ensures this.presets == presets && filteredPresets == presets
      ensures selectedPreset.None? && this.extensionInstalled == extensionInstalled
    {
      this.presets := presets;
      this.filteredPresets := presets;
      this.selectedPreset := None;
      this.extensionInstalled := extensionInstalled;
    }

    /** `filterPresets(searchTerm, category)` */
    method FilterPresets(searchTerm: string, category: string)
      modifies this`filteredPresets
      ensures filteredPresets == Filter(presets, NormalizeTerm(searchTerm), category)
    {
      var term := Trim(ToLower(searchTerm));
      filteredPresets := Filter(presets, term, category);
    }

    /** `openPresetModal(id)`: selects the preset with that id (none if there
        is no such preset, in which case nothing is shown) and returns the view. */
    method OpenPresetModal(presetId: string) returns (view: Option<ModalView>)
      modifies this`selectedPreset
      ensures selectedPreset == Find(presets, presetId)
      ensures view.None? <==> selectedPreset.None?
      ensures view.Some? ==>
        var p := selectedPreset.value;
        var profile := p.profile.GetOr(PresetProfile(None, None, None, None));
        && view.value.title == p.name
        && view.value.author == "by " + p.author
        && view.value.category == p.category
        && view.value.description == p.description
        && view.value.sensitivity == SettingOrDefault(profile.mouseSensitivity)
        && view.value.curve == CurveLabel(profile.sensitivityCurve)
        && view.value.deadzone == SettingOrDefault(profile.deadzone)
        && view.value.bindings == Rows(profile.keyBindings.GetOr([]))
        && view.value.installEnabled == extensionInstalled
    {
      selectedPreset := Find(presets, presetId);
      if selectedPreset.None? {
        return None;
      }
      var p := selectedPreset.value;
      var profile := if p.profile.Some? then p.profile.value else PresetProfile(None, None, None, None);
      var bindings := if profile.keyBindings.Some? then profile.keyBindings.value else [];
      view := Some(ModalView(
        p.name, "by " + p.author, p.category, p.description,
        SettingOrDefault(profile.mouseSensitivity),
        CurveLabel(profile.sensitivityCurve),
        SettingOrDefault(profile.deadzone),
        Rows(bindings),
        extensionInstalled));
    }

    /** `closeModal` */
    method CloseModal()
      modifies this`selectedPreset
      ensures selectedPreset.None?
    {
      selectedPreset := None;
    }

    /** `installPreset(id)`; `reply` is the extension's answer, used only when
        the request is sent. An unknown id does nothing; a success closes the view. */
    method InstallPreset(presetId: string, reply: InstallReply) returns (outcome: InstallOutcome)
      modifies this`selectedPreset
      ensures Find(presets, presetId).None? ==> outcome == NoSuchPreset && selectedPreset == old(selectedPreset)
      ensures Find(presets, presetId).Some? && !extensionInstalled ==>
        outcome == ExtensionMissing && selectedPreset == old(selectedPreset)
      ensures Find(presets, presetId).Some? && extensionInstalled && reply.Success? ==>
        outcome == Installed(Find(presets, presetId).value.name) && selectedPreset.None?
      ensures Find(presets, presetId).Some? && extensionInstalled && reply.Failure? ==>
        outcome == InstallFailed && selectedPreset == old(selectedPreset)
    {
      var preset := Find(presets, presetId);
      if preset.None? {
        return NoSuchPreset;
      }
      if !extensionInstalled {
        return ExtensionMissing;
      }
      if reply.Success? {
        outcome := Installed(preset.value.name);
        CloseModal();
      } else {
        outcome := InstallFailed;
      }
    }
  }
}
