/*
 * The hotkey settings dialog (src/gui/components/dialogs/hotkey.rs): the
 * "learn" state machine that captures one key press with its modifiers and
 * binds it to a preset, replacing any mapping for the same combination.
 */
module HotkeyDialog {
  import opened Common
  import opened Hotkey

  datatype LearningState =
    | Idle
    | WaitingForInput
    | InputCaptured(key: string, modifiers: seq<string>, description: string)

  /** `mappings.retain(|m| !(m.key == key && m.modifiers == modifiers))`. */
  function RemoveCombination(ms: seq<HotkeyMapping>, key: string, modifiers: seq<string>): (r: seq<HotkeyMapping>)
    ensures |r| <= |ms|
    ensures forall m :: m in r <==> m in ms && !(m.key == key && m.modifiers == modifiers)
  {
    if ms == [] then []
    else
      var last := ms[|ms| - 1];
      RemoveCombination(ms[..|ms| - 1], key, modifiers)
        + (if last.key == key && last.modifiers == modifiers then [] else [last])
  }

  lemma RemoveCombinationStep(ms: seq<HotkeyMapping>, i: nat, key: string, modifiers: seq<string>)
    requires i < |ms|
    ensures RemoveCombination(ms[..i + 1], key, modifiers)
      == RemoveCombination(ms[..i], key, modifiers)
         + (if ms[i].key == key && ms[i].modifiers == modifiers then [] else [ms[i]])
  {
    assert ms[..i + 1][..i] == ms[..i];
  }

  /** The mapping list after complete_mapping binds `m`. */
  function WithMapping(ms: seq<HotkeyMapping>, m: HotkeyMapping): seq<HotkeyMapping> {
    RemoveCombination(ms, m.key, m.modifiers) + [m]
  }

  /** After binding, the new mapping is the only one stored for its key and modifier list, and it sits last. */
  lemma WithMappingUnique(ms: seq<HotkeyMapping>, m: HotkeyMapping)
    ensures var r := WithMapping(ms, m);
      && r[|r| - 1] == m
      && forall i :: 0 <= i < |r| - 1 ==> !(r[i].key == m.key && r[i].modifiers == m.modifiers)
  {
    var r := WithMapping(ms, m);
    var kept := RemoveCombination(ms, m.key, m.modifiers);
    forall i | 0 <= i < |r| - 1 ensures !(r[i].key == m.key && r[i].modifiers == m.modifiers) {
      assert r[i] == kept[i] && kept[i] in kept;
    }
  }

  /** Every other stored mapping survives a binding. */
  lemma WithMappingKeepsOthers(ms: seq<HotkeyMapping>, m: HotkeyMapping, other: HotkeyMapping)
    requires other in ms && !(other.key == m.key && other.modifiers == m.modifiers)
    ensures other in WithMapping(ms, m)
  {
  }

  class HotkeyDialog {
    var showDialog: bool
    var mappings: seq<HotkeyMapping>
    var availablePresets: seq<string>
    var learningState: LearningState
    var selectedPresetForMapping: Option<string>

    constructor ()
      ensures !showDialog && mappings == [] && availablePresets == []
      ensures learningState == Idle && selectedPresetForMapping == None
    {
      showDialog := false;
      mappings := [];
      availablePresets := [];
      learningState := Idle;
      selectedPresetForMapping := None;
    }

    method Show(presets: seq<string>, ms: seq<HotkeyMapping>)
      modifies this
      ensures showDialog && availablePresets == presets && mappings == ms && learningState == Idle
      ensures selectedPresetForMapping == old(selectedPresetForMapping)
    {
      showDialog := true;
      availablePresets := presets;
      mappings := ms;
      learningState := Idle;
    }

    method Hide()
      modifies this`showDialog, this`learningState
      ensures !showDialog && learningState == Idle
    {
      showDialog := false;
      learningState := Idle;
    }

    function IsVisible(): bool
      reads this
    {
      showDialog
    }

    /** Learning is under way while waiting for a key and after one was captured. */
    function IsLearning(): (b: bool)
      reads this
      ensures b <==> !learningState.Idle?
    {
      learningState.WaitingForInput? || learningState.InputCaptured?
    }

    method StartLearning()
      modifies this`learningState, this`selectedPresetForMapping
      ensures learningState == WaitingForInput && selectedPresetForMapping == None
    {
      learningState := WaitingForInput;
      selectedPresetForMapping := None;
    }

    method CancelLearning()
      modifies this`learningState, this`selectedPresetForMapping
      ensures learningState == Idle && selectedPresetForMapping == None
    {
      learningState := Idle;
      selectedPresetForMapping := None;
    }

    /**
     * on_key_input: while waiting, a capturable and identified key is
     * captured with its modifiers in stored form and the same description
     * format_description gives; anything else is ignored.
     */
    method OnKeyInput(k: Key, mods: Modifiers)
      modifies this`learningState
      ensures IsUncapturableKey(k) || old(learningState) != WaitingForInput || k.Unidentified? ==>
        learningState == old(learningState)
      ensures !IsUncapturableKey(k) && old(learningState) == WaitingForInput && !k.Unidentified? ==>
        && learningState.InputCaptured?
        && learningState.key == SerializeKey(k).value
        && learningState.modifiers == SerializeModifiers(mods)
        && learningState.description == FormatDescription(SerializeModifiers(mods), SerializeKey(k).value)
    {
      if IsUncapturableKey(k) {
        return;
      }
      if learningState != WaitingForInput {
        return;
      }
      var keyStr := SerializeKey(k);
      if keyStr.None? {
        return;
      }
      var modStrs := SerializeModifiers(mods);
      var description := if modStrs == [] then keyStr.value else Join(modStrs) + "+" + keyStr.value;
      learningState := InputCaptured(keyStr.value, modStrs, description);
    }

    method SetPresetForMapping(preset: string)
      modifies this`selectedPresetForMapping
      ensures selectedPresetForMapping == Some(preset)
    {
      selectedPresetForMapping := Some(preset);
    }

    function GetMappings(): seq<HotkeyMapping>
      reads this
    {
      mappings
    }

    /**
     * complete_mapping: with a key captured and a preset chosen, replace any
     * mapping for the same key and modifier list by a new one, appended last,
     * and go idle; otherwise change nothing and return None.
     */
    method CompleteMapping() returns (r: Option<HotkeyMapping>)
      modifies this`mappings, this`learningState, this`selectedPresetForMapping
      ensures r.Some? <==> old(learningState).InputCaptured? && old(selectedPresetForMapping).Some?
      ensures r.None? ==>
        mappings == old(mappings) && learningState == old(learningState)
        && selectedPresetForMapping == old(selectedPresetForMapping)
      ensures r.Some? ==>
        && r.value == NewMapping(old(learningState).key, old(learningState).modifiers,
                                 old(selectedPresetForMapping).value)
        && mappings == WithMapping(old(mappings), r.value)
        && learningState == Idle && selectedPresetForMapping == None
    {
      if !learningState.InputCaptured? {
        return None;
      }
      var key, modifiers := learningState.key, learningState.modifiers;
      if selectedPresetForMapping.None? {
        return None;
      }
      var mapping := NewMapping(key, modifiers, selectedPresetForMapping.value);
      var kept := Retain(mappings, key, modifiers);
      mappings := kept + [mapping];
      learningState := Idle;
      selectedPresetForMapping := None;
      return Some(mapping);
    }

    /** The `retain` step of complete_mapping: keep, in order, the mappings for any other combination. */
    static method Retain(ms: seq<HotkeyMapping>, key: string, modifiers: seq<string>) returns (kept: seq<HotkeyMapping>)
      ensures kept == RemoveCombination(ms, key, modifiers)
    {
      kept := [];
      var i := 0;
      while i < |ms|
        invariant 0 <= i <= |ms|
        invariant kept == RemoveCombination(ms[..i], key, modifiers)
      {
        RemoveCombinationStep(ms, i, key, modifiers);
        if !(ms[i].key == key && ms[i].modifiers == modifiers) {
          kept := kept + [ms[i]];
        }
        i := i + 1;
      }
      assert ms[..i] == ms;
    }

    /** remove_mapping: an index past the end is ignored. */
    method RemoveMapping(index: nat)
      modifies this`mappings
      ensures index < |old(mappings)| ==> mappings == old(mappings)[..index] + old(mappings)[index + 1..]
      ensures index >= |old(mappings)| ==> mappings == old(mappings)
    {
      if index < |mappings| {
        mappings := mappings[..index] + mappings[index + 1..];
      }
    }
  }

  /**
   * A key press captured by the dialog and then bound produces a mapping
   * that matches that very key press and no press with other modifiers.
   */
  lemma CapturedBindingMatches(k: Key, mods: Modifiers, preset: string, mods2: Modifiers)
    requires !k.Unidentified?
    ensures var m := NewMapping(SerializeKey(k).value, SerializeModifiers(mods), preset);
      Matches(m, k, mods) && (mods2 != mods ==> !Matches(m, k, mods2))
  {
    CapturedMappingMatches(k, mods, preset, k, mods);
    CapturedMappingMatches(k, mods, preset, k, mods2);
  }
}
