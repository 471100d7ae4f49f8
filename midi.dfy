/*
 * MIDI input handling (src/midi/mod.rs): decoding raw MIDI bytes into input
 * events, preset mappings keyed by (channel, control), and the handle that
 * looks an incoming event up among the mappings.
 */
module Midi {
  import opened Common

  datatype MidiMessageType = NoteOn | NoteOff | ControlChange | ProgramChange | Other

  datatype MidiInputEvent = MidiInputEvent(
    channel: u8,
    messageType: MidiMessageType,
    control: u8,
    value: u8,
    rawBytes: seq<u8>)

  datatype MidiMapping = MidiMapping(
    channel: u8,
    control: u8,
    presetName: string,
    description: string)

  /** `status & 0xF0`: the message kind, the high nibble kept in place. */
  function StatusKind(status: u8): u8 {
    status / 16 * 16
  }

  /** `status & 0x0F`: the channel, the low nibble. */
  function StatusChannel(status: u8): u8 {
    status % 16
  }

  /** `channel + 1` on a u8, as a release build computes it (wrapping at 256). */
  function DisplayChannel(channel: u8): nat {
    (channel + 1) % 256
  }

  /** MidiMapping::new: the description names the 1-based channel and the control number. */
  function NewMapping(channel: u8, control: u8, presetName: string): (m: MidiMapping)
    ensures m.channel == channel && m.control == control && m.presetName == presetName
    ensures m.description == "Ch" + NatToString(DisplayChannel(channel)) + " CC/Note " + NatToString(control)
  {
    MidiMapping(channel, control, presetName,
      "Ch" + NatToString(DisplayChannel(channel)) + " CC/Note " + NatToString(control))
  }

  /** `matches`: a mapping answers exactly its own channel and control. */
  predicate Matches(m: MidiMapping, channel: u8, control: u8) {
    m.channel == channel && m.control == control
  }

  /** A new mapping matches exactly the channel and control it was made for, whatever its preset. */
  lemma NewMappingMatches(channel: u8, control: u8, preset: string, channel': u8, control': u8)
    ensures Matches(NewMapping(channel, control, preset), channel', control') <==> channel' == channel && control' == control
  {
  }

  function MessageTypeName(t: MidiMessageType): (name: string)
    ensures |name| > 0
  {
    match t
    case NoteOn => "Note On"
    case NoteOff => "Note Off"
    case ControlChange => "CC"
    case ProgramChange => "Program"
    case Other => "Other"
  }

  /** Different kinds of message are logged under different names. */
  lemma MessageTypeNamesDistinct(a: MidiMessageType, b: MidiMessageType)
    requires MessageTypeName(a) == MessageTypeName(b)
    ensures a == b
  {
  }

  /** The Display form of an event, as the MIDI dialog logs it. */
  function EventToString(e: MidiInputEvent): (s: string)
    ensures var ch := "Ch" + NatToString(DisplayChannel(e.channel)) + " ";
      && |s| > |ch| + |MessageTypeName(e.messageType)|
      && s[..|ch|] == ch
      && s[|ch|..|ch| + |MessageTypeName(e.messageType)|] == MessageTypeName(e.messageType)
  {
    var ch := "Ch" + NatToString(DisplayChannel(e.channel)) + " ";
    var s := ch + MessageTypeName(e.messageType) + " #" + NatToString(e.control) + " val=" + NatToString(e.value);
    assert s == ch + (MessageTypeName(e.messageType) + (" #" + NatToString(e.control) + " val=" + NatToString(e.value)));
    s
  }

  /**
   * parse_midi_message. An empty message, and a note or control-change
   * message shorter than three bytes or a program change shorter than two,
   * decode to nothing; a note-on with velocity 0 is a note-off; any other
   * kind is reported as Other with missing data bytes read as 0.
   */
  function ParseMidiMessage(message: seq<u8>): (r: Option<MidiInputEvent>)
    ensures message == [] ==> r == None
    ensures r.Some? ==> r.value.rawBytes == message && r.value.channel == message[0] % 16
    ensures message != [] && StatusKind(message[0]) !in {0x80, 0x90, 0xB0, 0xC0} ==>
      && r.Some? && r.value.messageType == Other
      && r.value.control == (if |message| >= 2 then message[1] else 0)
      && r.value.value == (if |message| >= 3 then message[2] else 0)
    ensures message != [] && StatusKind(message[0]) in {0x80, 0x90, 0xB0} && r.Some? ==>
      && |message| >= 3
      && r.value.control == message[1] && r.value.value == message[2]
      && r.value.messageType ==
           (if StatusKind(message[0]) == 0xB0 then ControlChange
            else if StatusKind(message[0]) == 0x90 && message[2] != 0 then NoteOn
            else NoteOff)
    ensures message != [] && StatusKind(message[0]) == 0xC0 && r.Some? ==>
      && |message| >= 2
      && r.value.messageType == ProgramChange && r.value.control == message[1] && r.value.value == 0
    ensures r.Some? && r.value.messageType != Other ==>
      |message| >= 2 && r.value.control == message[1]
    ensures r.Some? && r.value.messageType == NoteOn ==> |message| >= 3 && message[2] != 0
  {
    if message == [] then None
    else
      var status := message[0];
      var kind := StatusKind(status);
      var channel := StatusChannel(status);
      if kind == 0x90 then
        if |message| >= 3 then
          var note, velocity := message[1], message[2];
          if velocity == 0 then Some(MidiInputEvent(channel, NoteOff, note, velocity, message))
          else Some(MidiInputEvent(channel, NoteOn, note, velocity, message))
        else None
      else if kind == 0x80 then
        if |message| >= 3 then Some(MidiInputEvent(channel, NoteOff, message[1], message[2], message))
        else None
      else if kind == 0xB0 then
        if |message| >= 3 then Some(MidiInputEvent(channel, ControlChange, message[1], message[2], message))
        else None
      else if kind == 0xC0 then
        if |message| >= 2 then Some(MidiInputEvent(channel, ProgramChange, message[1], 0, message))
        else None
      else
        var control := if |message| >= 2 then message[1] else 0;
        var value := if |message| >= 3 then message[2] else 0;
        Some(MidiInputEvent(channel, Other, control, value, message))
  }

  /** Exactly which messages fail to decode. */
  lemma ParseFailsExactly(message: seq<u8>)
    ensures ParseMidiMessage(message).None? <==>
      (message == []
       || (StatusKind(message[0]) in {0x80, 0x90, 0xB0} && |message| < 3)
       || (StatusKind(message[0]) == 0xC0 && |message| < 2))
  {
  }

  /** The bytes a device sends for a channel-voice message (the inverse of decoding). */
  function EncodeMessage(channel: u8, t: MidiMessageType, control: u8, value: u8): seq<u8>
    requires channel < 16 && t != Other
  {
    match t
    case NoteOn => [0x90 + channel, control, value]
    case NoteOff => [0x80 + channel, control, value]
    case ControlChange => [0xB0 + channel, control, value]
    case ProgramChange => [0xC0 + channel, control]
  }

  /**
   * Decoding what a device encodes gives back the channel, kind, control and
   * value, except that a note-on with velocity 0 comes back as a note-off and
   * a program change always carries value 0.
   */
  lemma ParseEncodeRoundTrip(channel: u8, t: MidiMessageType, control: u8, value: u8)
    requires channel < 16 && t != Other
    ensures var r := ParseMidiMessage(EncodeMessage(channel, t, control, value));
      && r.Some?
      && r.value.channel == channel
      && r.value.control == control
      && r.value.messageType == (if t == NoteOn && value == 0 then NoteOff else t)
      && r.value.value == (if t == ProgramChange then 0 else value)
  {
  }

  /** The preset of the first mapping for (channel, control), if any. */
  function LookupPreset(mappings: seq<MidiMapping>, channel: u8, control: u8): (r: Option<string>)
    ensures r.None? <==> forall i :: 0 <= i < |mappings| ==> !Matches(mappings[i], channel, control)
    ensures r.Some? ==>
      exists i :: 0 <= i < |mappings| && Matches(mappings[i], channel, control)
        && r.value == mappings[i].presetName
        && forall j :: 0 <= j < i ==> !Matches(mappings[j], channel, control)
  {
    if mappings == [] then None
    else if Matches(mappings[0], channel, control) then Some(mappings[0].presetName)
    else
      var r := LookupPreset(mappings[1..], channel, control);
      assert forall i :: 1 <= i < |mappings| ==> mappings[i] == mappings[1..][i - 1];
      r
  }

  /** MidiHandle: the mapping list shared with the MIDI thread. */
  class MidiHandle {
    var mappings: seq<MidiMapping>

    constructor ()
      ensures mappings == []
    {
      mappings := [];
    }

    method SetMappings(ms: seq<MidiMapping>)
      modifies this
      ensures mappings == ms
    {
      mappings := ms;
    }

    function GetMappings(): (ms: seq<MidiMapping>)
      reads this
    {
      mappings
    }

    /** check_mapping: the preset of the first mapping matching the event's channel and control. */
    method CheckMapping(event: MidiInputEvent) returns (r: Option<string>)
      ensures r == LookupPreset(mappings, event.channel, event.control)
      ensures r.None? <==> forall i :: 0 <= i < |mappings| ==> !Matches(mappings[i], event.channel, event.control)
    {
      var i := 0;
      while i < |mappings|
        invariant 0 <= i <= |mappings|
        invariant LookupPreset(mappings, event.channel, event.control)
                  == LookupPreset(mappings[i..], event.channel, event.control)
      {
        if Matches(mappings[i], event.channel, event.control) {
          return Some(mappings[i].presetName);
        }
        assert mappings[i..][1..] == mappings[i + 1..];
        i := i + 1;
      }
      return None;
    }
  }
}
