/*
 * The MIDI settings dialog (src/gui/components/dialogs/midi.rs): a bounded
 * log of recent MIDI inputs and the "learn" state machine that captures one
 * input and binds it to a preset, replacing any mapping for the same input.
 */
module MidiDialog {
  import opened Common
  import opened Midi

  const MAX_DEBUG_MESSAGES: nat := 20

  datatype LearningState =
    | Idle
    | WaitingForInput
    | InputCaptured(channel: u8, control: u8, description: string)

  /** The debug log after a new line is inserted at the front and, if too long, the oldest dropped. */
  function LogMessage(log: seq<string>, msg: string): (r: seq<string>)
    ensures |r| >= 1 && r[0] == msg
    ensures |log| < MAX_DEBUG_MESSAGES ==> r == [msg] + log
    ensures |log| >= MAX_DEBUG_MESSAGES ==> |r| == |log| && r[1..] == log[..|log| - 1]
    ensures |log| <= MAX_DEBUG_MESSAGES ==> |r| <= MAX_DEBUG_MESSAGES
  {
    var inserted := [msg] + log;
    if |inserted| > MAX_DEBUG_MESSAGES then inserted[..|inserted| - 1] else inserted
  }

  /** `mappings.retain(|m| !(m.channel == channel && m.control == control))`. */
  function RemoveMatching(ms: seq<MidiMapping>, channel: u8, control: u8): (r: seq<MidiMapping>)
    ensures |r| <= |ms|
    ensures forall m :: m in r <==> m in ms && !Matches(m, channel, control)
  {
    if ms == [] then []
    else if Matches(ms[0], channel, control) then RemoveMatching(ms[1..], channel, control)
    else [ms[0]] + RemoveMatching(ms[1..], channel, control)
  }

  /** The mapping list after complete_mapping binds `m`. */
  function WithMapping(ms: seq<MidiMapping>, m: MidiMapping): seq<MidiMapping> {
    RemoveMatching(ms, m.channel, m.control) + [m]
  }

  /** After binding, the new mapping is the only one for its input and sits last. */
  lemma WithMappingUnique(ms: seq<MidiMapping>, m: MidiMapping)
    ensures var r := WithMapping(ms, m);
      && r[|r| - 1] == m
      && forall i :: 0 <= i < |r| - 1 ==> !Matches(r[i], m.channel, m.control)
  {
    var r := WithMapping(ms, m);
    var kept := RemoveMatching(ms, m.channel, m.control);
    forall i | 0 <= i < |r| - 1 ensures !Matches(r[i], m.channel, m.control) {
      assert r[i] == kept[i] && kept[i] in kept;
    }
  }

  /** After binding, an input on the bound channel and control selects the bound preset. */
  lemma WithMappingSelects(ms: seq<MidiMapping>, channel: u8, control: u8, preset: string)
    ensures LookupPreset(WithMapping(ms, NewMapping(channel, control, preset)), channel, control) == Some(preset)
  {
    var m := NewMapping(channel, control, preset);
    WithMappingUnique(ms, m);
  }

  /** Binding one input leaves what every other input selects unchanged. */
  lemma {:induction false} WithMappingKeepsOthers(ms: seq<MidiMapping>, m: MidiMapping, channel: u8, control: u8)
    requires !(m.channel == channel && m.control == control)
    ensures LookupPreset(WithMapping(ms, m), channel, control) == LookupPreset(ms, channel, control)
  {
    if ms == [] {
    } else {
      WithMappingKeepsOthers(ms[1..], m, channel, control);
      if Matches(ms[0], m.channel, m.control) {
        assert WithMapping(ms, m) == WithMapping(ms[1..], m);
      } else {
        assert WithMapping(ms, m) == [ms[0]] + WithMapping(ms[1..], m);
        assert (ms[0..1] + WithMapping(ms[1..], m))[1..] == WithMapping(ms[1..], m);
      }
    }
  }

  /** No two mappings share a (channel, control) input. */
  predicate UniqueInputs(ms: seq<MidiMapping>) {
    forall i, j :: 0 <= i < j < |ms| ==> !Matches(ms[j], ms[i].channel, ms[i].control)
  }

  /** Binding keeps every input mapped at most once. */
  lemma {:induction false} WithMappingKeepsUnique(ms: seq<MidiMapping>, m: MidiMapping)
    requires UniqueInputs(ms)
    ensures UniqueInputs(WithMapping(ms, m))
  {
    RemoveMatchingKeepsUnique(ms, m.channel, m.control);
    WithMappingUnique(ms, m);
  }

  /** What `retain` keeps still maps every input at most once. */
  lemma {:induction false} RemoveMatchingKeepsUnique(ms: seq<MidiMapping>, channel: u8, control: u8)
    requires UniqueInputs(ms)
    ensures UniqueInputs(RemoveMatching(ms, channel, control))
  {
    if ms != [] {
      RemoveMatchingKeepsUnique(ms[1..], channel, control);
      var rest := RemoveMatching(ms[1..], channel, control);
      if !Matches(ms[0], channel, control) {
        var r := [ms[0]] + rest;
        forall i, j | 0 <= i < j < |r| ensures !Matches(r[j], r[i].channel, r[i].control) {
          if i == 0 {
            assert r[j] in rest && r[j] in ms[1..];
            var k :| 0 <= k < |ms[1..]| && ms[1..][k] == r[j];
            assert ms[k + 1] == r[j];
          } else {
            assert r[i] == rest[i - 1] && r[j] == rest[j - 1];
          }
        }
      }
    }
  }

  class MidiDialog {
    var showDialog: bool
    var availableControllers: seq<string>
    var selectedController: Option<string>
    var mappings: seq<MidiMapping>
    var availablePresets: seq<string>
    var learningState: LearningState
    var debugMessages: seq<string>
    var selectedPresetForMapping: Option<string>

    ghost predicate Valid()
      reads this
    {
      |debugMessages| <= MAX_DEBUG_MESSAGES
    }

    constructor ()
      ensures Valid()
      ensures !showDialog && availableControllers == [] && selectedController == None
      ensures mappings == [] && availablePresets == [] && learningState == Idle
      ensures debugMessages == [] && selectedPresetForMapping == None
    {
      showDialog := false;
      availableControllers := [];
      selectedController := None;
      mappings := [];
      availablePresets := [];
      learningState := Idle;
      debugMessages := [];
      selectedPresetForMapping := None;
    }

    /** show: `devices` is what the MIDI backend lists when the controllers are refreshed. */
    method Show(presets: seq<string>, ms: seq<MidiMapping>, devices: seq<string>)
      requires Valid()
      modifies this
      ensures Valid()
      ensures showDialog && availablePresets == presets && mappings == ms && learningState == Idle
      ensures availableControllers == devices
      ensures selectedController == old(selectedController) && debugMessages == old(debugMessages)
      ensures selectedPresetForMapping == old(selectedPresetForMapping)
    {
      showDialog := true;
      availablePresets := presets;
      mappings := ms;
      learningState := Idle;
      RefreshControllers(devices);
    }

    method Hide()
      requires Valid()
      modifies this
      ensures Valid()
      ensures !showDialog && learningState == Idle
      ensures availableControllers == old(availableControllers) && selectedController == old(selectedController)
      ensures mappings == old(mappings) && availablePresets == old(availablePresets)
      ensures debugMessages == old(debugMessages) && selectedPresetForMapping == old(selectedPresetForMapping)
    {
      showDialog := false;
      learningState := Idle;
    }

    function IsVisible(): bool
      reads this
    {
      showDialog
    }

    method RefreshControllers(devices: seq<string>)
      modifies this`availableControllers
      ensures availableControllers == devices
    {
      availableControllers := devices;
    }

    method SetSelectedController(controller: Option<string>)
      modifies this`selectedController
      ensures selectedController == controller
    {
      selectedController := controller;
    }

    function GetSelectedController(): Option<string>
      reads this
    {
      selectedController
    }

    method SetMappings(ms: seq<MidiMapping>)
      modifies this`mappings
      ensures mappings == ms
    {
      mappings := ms;
    }

    function GetMappings(): seq<MidiMapping>
      reads this
    {
      mappings
    }

    method StartLearning()
      modifies this`learningState, this`selectedPresetForMapping
      ensures learningState == WaitingForInput && selectedPresetForMapping == None
    {
      learningState := WaitingForInput;
      selectedPresetForMapping := None;
    }

    method CancelLearning()
      modifies this`learningState, this`selectedPresetForMapping
      ensures learningState == Idle && selectedPresetForMapping == None
    {
      learningState := Idle;
      selectedPresetForMapping := None;
    }

    /** Learning is under way while waiting for an input and after one was captured. */
    function IsLearning(): (b: bool)
      reads this
      ensures b <==> !learningState.Idle?
    {
      learningState.WaitingForInput? || learningState.InputCaptured?
    }

    /**
     * on_midi_input: log the event at the front of the bounded log and, when
     * waiting for an input, capture this one.
     */
    method OnMidiInput(event: MidiInputEvent)
      requires Valid()
      modifies this`debugMessages, this`learningState
      ensures Valid()
      ensures debugMessages == LogMessage(old(debugMessages), EventToString(event))
      ensures old(learningState) == WaitingForInput ==>
        learningState == InputCaptured(event.channel, event.control, EventToString(event))
      ensures old(learningState) != WaitingForInput ==> learningState == old(learningState)
    {
      var line := EventToString(event);
      debugMessages := [line] + debugMessages;
      if |debugMessages| > MAX_DEBUG_MESSAGES {
        debugMessages := debugMessages[..|debugMessages| - 1];
      }
      if learningState == WaitingForInput {
        learningState := InputCaptured(event.channel, event.control, line);
      }
    }

    method SetPresetForMapping(preset: string)
      modifies this`selectedPresetForMapping
      ensures selectedPresetForMapping == Some(preset)
    {
      selectedPresetForMapping := Some(preset);
    }

    /**
     * complete_mapping: with an input captured and a preset chosen, replace
     * any mapping for that input by a new one, appended last, and go idle;
     * otherwise change nothing and return None.
     */
    method CompleteMapping() returns (r: Option<MidiMapping>)
      requires Valid()
      modifies this`mappings, this`learningState, this`selectedPresetForMapping
      ensures Valid()
      ensures r.Some? <==> old(learningState).InputCaptured? && old(selectedPresetForMapping).Some?
      ensures r.None? ==>
        mappings == old(mappings) && learningState == old(learningState)
        && selectedPresetForMapping == old(selectedPresetForMapping)
      ensures r.Some? ==>
        && r.value == NewMapping(old(learningState).channel, old(learningState).control,
                                 old(selectedPresetForMapping).value)
        && mappings == WithMapping(old(mappings), r.value)
        && learningState == Idle && selectedPresetForMapping == None
    {
      if !learningState.InputCaptured? {
        return None;
      }
      var channel, control := learningState.channel, learningState.control;
      if selectedPresetForMapping.None? {
        return None;
      }
      var mapping := NewMapping(channel, control, selectedPresetForMapping.value);
      var kept: seq<MidiMapping> := [];
      var i := 0;
      while i < |mappings|
        invariant 0 <= i <= |mappings|
        invariant kept + RemoveMatching(mappings[i..], channel, control) == RemoveMatching(mappings, channel, control)
      {
        assert mappings[i..] == [mappings[i]] + mappings[i + 1..];
        if !Matches(mappings[i], channel, control) {
          kept := kept + [mappings[i]];
        }
        i := i + 1;
      }
      mappings := kept + [mapping];
      learningState := Idle;
      selectedPresetForMapping := None;
      return Some(mapping);
    }

    /** remove_mapping: an index past the end is ignored. */
    method RemoveMapping(index: nat)
      modifies this`mappings
      ensures index < |old(mappings)| ==> mappings == old(mappings)[..index] + old(mappings)[index + 1..]
      ensures index >= |old(mappings)| ==> mappings == old(mappings)
    {
      if index < |mappings| {
        mappings := mappings[..index] + mappings[index + 1..];
      }
    }
  }
}
