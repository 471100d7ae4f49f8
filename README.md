# rustortion core, modelled in Dafny

rustortion is a guitar amplifier simulator. It runs a chain of amplifier stages
(compressor, delay, power amp, multiband saturator, noise gate, level) on each
block of audio. It convolves the result with a cabinet impulse response (IR),
using a direct FIR convolver or a two-stage FFT convolver. Beside the signal
path sit a peak meter, a tuner, a metronome and a phase-vocoder pitch shifter.
Presets are saved as JSON files. MIDI control-change messages and keyboard
hotkeys switch presets; each has a "learn" dialog that binds an input to a
preset. The GUI keeps an editable list of stage configurations and rebuilds
the amplifier chain when that list changes. Every label exists in two languages.

This project models that core, one Dafny module per Rust source file:

| module | Rust file |
|---|---|
| `Midi` | src/midi/mod.rs |
| `MidiDialog` | src/gui/components/dialogs/midi.rs |
| `Hotkey` | src/hotkey/mod.rs |
| `HotkeyDialog` | src/gui/components/dialogs/hotkey.rs |
| `AmpChain` | src/amp/chain.rs |
| `StageCommon` | src/amp/stages/common.rs |
| `DelayStage` | src/amp/stages/delay.rs |
| `MultibandSaturator` | src/amp/stages/multiband_saturator.rs |
| `PowerAmp` | src/amp/stages/poweramp.rs |
| `Compressor` | src/amp/stages/compressor.rs |
| `Level` | src/amp/stages/level.rs |
| `NoiseGate` | src/sim/stages/noise_gate.rs |
| `Fir` | src/ir/convolver/fir.rs |
| `FftConvolver` | src/ir/convolver/fft.rs |
| `Cabinet` | src/ir/cabinet.rs |
| `Loader` | src/ir/loader.rs |
| `PeakMeter` | src/audio/peak_meter.rs |
| `PitchShifter` | src/audio/pitch_shifter.rs |
| `Tuner` | src/sim/tuner.rs |
| `Metronome` | src/metronome/mod.rs |
| `PresetManager` | src/preset/manager.rs |
| `Stages` | src/gui/stages/mod.rs |
| `App` | src/gui/app.rs |
| `I18n` | src/i18n/mod.rs |

The model keeps each file's own form:

- Objects whose methods update their fields are Dafny classes. Examples are
  the stages, the convolvers, the dialogs, the meters, the pitch shifter and
  the preset manager.
- Their loops are `while` loops with invariants.
- Each method's postcondition ties the new state to a pure function of the
  old state. The lemmas next to it prove what the Rust code promises about
  that function.
- Pure code is datatypes, functions and lemmas. Examples are MIDI parsing,
  hotkey serialisation, stage configurations and translations.

Three modules hold shared helpers:

- `Common`: option and result types, `u8`, clamping, Rust's truncating casts
  and integer division, and decimal formatting.
- `MathLib`: the transcendental functions.
- `Sorting`: a stable insertion sort and the lexicographic order on strings.

`StageCommon` models common.rs, whose envelope follower, DC blocker and
decibel helpers the stages share.

How the model treats numbers and outside code:

- Audio samples are Dafny `real`s. An `f32` result is therefore exact in the
  model.
- `exp`, `tanh`, `powf`, `log10`, `sqrt`, `cos` and friends are fields of a
  `MathLib` value. The model uses only the laws that the ghost predicate
  `Lawful` states. A witness shows those laws can all hold at once.
- The Rust `Stage` trait object becomes a state type `S` plus a step
  function.
- The FFT library, the WAV reader, directory listings, file writes and the
  spectral core of the pitch shifter are parameters. They are values of
  function type or of a small datatype.

## Model

| member | source | states |
|---|---|---|
| Midi.NewMapping | src/midi/mod.rs:23-30 | a mapping keeps its channel, control and preset; its description is "Ch" + (channel+1, wrapping as a u8) + " CC/Note " + control |
| Midi.Matches | src/midi/mod.rs:33-35 | a mapping answers a (channel, control) pair exactly when both are its own |
| Midi.NewMappingMatches | src/midi/mod.rs:22-35 | a new mapping matches exactly the channel and control it was made for, whatever its preset |
| Midi.MessageTypeName | src/midi/mod.rs:57-67 | each message kind's display name ("Note On", "Note Off", "CC", "Program", "Other"), never empty |
| Midi.MessageTypeNamesDistinct | src/midi/mod.rs:57-67 | different kinds display under different names |
| Midi.EventToString | src/midi/mod.rs:69-80 | the log line starts with "Ch", the 1-based channel and a space, followed by the kind's display name |
| Midi.ParseMidiMessage | src/midi/mod.rs:298-360 | an empty message decodes to None; a decoded event carries the raw bytes and the low nibble of the status byte as channel; a note-on/off or control change is decoded with control = byte 1 and value = byte 2, its type ControlChange for 0xB0, NoteOn for 0x90 with nonzero velocity and NoteOff otherwise; a program change has control = byte 1 and value 0; any other status decodes as Other with control and value taken from bytes 1 and 2 when present and 0 otherwise |
| Midi.ParseFailsExactly | src/midi/mod.rs:299-344 | decoding fails exactly for the empty message, a note-on/off or control change shorter than 3 bytes, and a program change shorter than 2 |
| Midi.ParseEncodeRoundTrip | src/midi/mod.rs:307-351 | decoding the bytes of a channel-voice message gives back channel, kind, control and value, except that NoteOn with velocity 0 comes back as NoteOff and ProgramChange always has value 0 |
| Midi.LookupPreset | src/midi/mod.rs:139-147 | None exactly when no mapping matches (channel, control); otherwise the preset of the first matching mapping |
| Midi.MidiHandle.constructor | src/midi/mod.rs:166-184 | a new handle has no mappings |
| Midi.MidiHandle.SetMappings | src/midi/mod.rs:130-132 | the mapping list is replaced |
| Midi.MidiHandle.GetMappings | src/midi/mod.rs:134-136 | the list last stored by SetMappings (empty for a new handle) |
| Midi.MidiHandle.CheckMapping | src/midi/mod.rs:139-147 | the result is the first matching mapping's preset, None exactly when no mapping matches the event's channel and control |
| MidiDialog.LogMessage | src/gui/components/dialogs/midi.rs:113-117 | the new line goes to the front; once the log holds 20 lines the oldest is dropped, so a log of at most 20 lines stays at most 20 |
| MidiDialog.RemoveMatching | src/gui/components/dialogs/midi.rs:148-149 | exactly the mappings for other inputs survive, and no new ones appear |
| MidiDialog.WithMappingUnique | src/gui/components/dialogs/midi.rs:145-151 | after binding, the new mapping is last and no other mapping has its (channel, control) |
| MidiDialog.WithMappingSelects | src/gui/components/dialogs/midi.rs:145-151 | after binding, the bound input selects the bound preset |
| MidiDialog.WithMappingKeepsOthers | src/gui/components/dialogs/midi.rs:145-151 | binding one input leaves the preset every other input selects unchanged |
| MidiDialog.WithMappingKeepsUnique | src/gui/components/dialogs/midi.rs:145-151 | if every input was mapped at most once, it still is after binding |
| MidiDialog.RemoveMatchingKeepsUnique | src/gui/components/dialogs/midi.rs:148-149 | retain keeps inputs unique |
| MidiDialog.MidiDialog.constructor | src/gui/components/dialogs/midi.rs:43-54 | hidden, idle, and with no controllers, mappings, presets, log lines or selection |
| MidiDialog.MidiDialog.Show | src/gui/components/dialogs/midi.rs:56-62 | visible and idle, with the given presets and mappings and the listed controllers; selection and log kept |
| MidiDialog.MidiDialog.Hide | src/gui/components/dialogs/midi.rs:64-67 | hidden and idle, everything else unchanged |
| MidiDialog.MidiDialog.IsVisible | src/gui/components/dialogs/midi.rs:69-71 | whether the dialog is shown: true after Show, false after Hide and at start |
| MidiDialog.MidiDialog.RefreshControllers | src/gui/components/dialogs/midi.rs:73-75 | the controller list becomes the listed devices |
| MidiDialog.MidiDialog.SetSelectedController | src/gui/components/dialogs/midi.rs:77-79 | the selected controller is stored |
| MidiDialog.MidiDialog.GetSelectedController | src/gui/components/dialogs/midi.rs:81-83 | the controller last stored by SetSelectedController (none at start) |
| MidiDialog.MidiDialog.SetMappings | src/gui/components/dialogs/midi.rs:85-87 | the mapping list is replaced |
| MidiDialog.MidiDialog.GetMappings | src/gui/components/dialogs/midi.rs:89-91 | the dialog's mapping list, as Show, SetMappings, CompleteMapping and RemoveMapping leave it |
| MidiDialog.MidiDialog.StartLearning | src/gui/components/dialogs/midi.rs:93-96 | waiting for input, no preset selected |
| MidiDialog.MidiDialog.CancelLearning | src/gui/components/dialogs/midi.rs:98-101 | idle, no preset selected |
| MidiDialog.MidiDialog.IsLearning | src/gui/components/dialogs/midi.rs:103-108 | true exactly when the state is not Idle |
| MidiDialog.MidiDialog.OnMidiInput | src/gui/components/dialogs/midi.rs:111-127 | the event is logged at the front of the bounded log; it is captured (channel, control, text) only when waiting for input, otherwise the state is unchanged |
| MidiDialog.MidiDialog.SetPresetForMapping | src/gui/components/dialogs/midi.rs:130-132 | the preset is selected |
| MidiDialog.MidiDialog.CompleteMapping | src/gui/components/dialogs/midi.rs:135-156 | Some exactly when an input is captured and a preset selected; then the new mapping replaces any for that input, is appended, and the dialog goes idle with no selection; otherwise nothing changes |
| MidiDialog.MidiDialog.RemoveMapping | src/gui/components/dialogs/midi.rs:158-162 | removes the mapping at the index; an index past the end changes nothing |
| Hotkey.SerializeKey | src/hotkey/mod.rs:47-53 | no stored form exactly for an unidentified key |
| Hotkey.DeserializeModifiers | src/hotkey/mod.rs:74-86 | the loop sets a flag exactly when its name occurs and ignores unknown names |
| Hotkey.SerializeModifiers | src/hotkey/mod.rs:56-71 | only the names Ctrl, Alt, Shift and Super are stored (ModifiersRoundTrip shows they give back the same four flags) |
| Hotkey.ModifiersRoundTrip | src/hotkey/mod.rs:56-86 | reading back the stored modifier names gives the same four flags |
| Hotkey.SerializeIsCanonical | src/hotkey/mod.rs:56-86 | storing what was read gives exactly the recognised names among the input |
| Hotkey.SerializeModifiersOrdered | src/hotkey/mod.rs:56-71 | the stored names come in the order Ctrl, Alt, Shift, Super, each at most once |
| Hotkey.FormatDescription | src/hotkey/mod.rs:89-95 | the description is the modifiers and then the key, joined by "+" (the key alone when there are no modifiers) |
| Hotkey.SplitJoin | src/hotkey/mod.rs:89-95 | splitting a "+"-join of "+"-free parts at "+" recovers the parts |
| Hotkey.DescriptionRoundTrip | src/hotkey/mod.rs:89-95 | a description of "+"-free names splits back into the modifiers followed by the key |
| Hotkey.NewMapping | src/hotkey/mod.rs:17-25 | key, modifiers and preset kept; the description is the "+"-join of modifiers and key |
| Hotkey.CapturedMappingMatches | src/hotkey/mod.rs:28-43 | a mapping made from a key press matches a key event exactly when the stored key and all four modifier flags are equal |
| Hotkey.Matches | src/hotkey/mod.rs:28-43 | a key event matches when its key has a stored form equal to the mapping's key and all four modifier flags equal those the stored names denote; an unidentified key never matches |
| Hotkey.IsUncapturableKey | src/hotkey/mod.rs:99-114 | exactly the named keys Shift, Control, Alt, Super, Meta, Escape, Tab, Enter and Space are refused |
| Hotkey.ModifierKeysUncapturable | src/hotkey/mod.rs:99-114 | a modifier pressed alone is refused and a character key never is |
| HotkeyDialog.RemoveCombination | src/gui/components/dialogs/hotkey.rs:138-139 | exactly the mappings for other key and modifier combinations survive |
| HotkeyDialog.WithMappingUnique | src/gui/components/dialogs/hotkey.rs:135-145 | after binding, the new mapping is last and no other mapping has its key and modifiers |
| HotkeyDialog.WithMappingKeepsOthers | src/gui/components/dialogs/hotkey.rs:135-145 | every mapping for another combination survives a binding |
| HotkeyDialog.HotkeyDialog.constructor | src/gui/components/dialogs/hotkey.rs:40-48 | hidden, idle, and with no mappings, presets or selection |
| HotkeyDialog.HotkeyDialog.Show | src/gui/components/dialogs/hotkey.rs:50-55 | visible and idle with the given presets and mappings |
| HotkeyDialog.HotkeyDialog.Hide | src/gui/components/dialogs/hotkey.rs:57-60 | hidden and idle |
| HotkeyDialog.HotkeyDialog.IsVisible | src/gui/components/dialogs/hotkey.rs:62-64 | whether the dialog is shown: true after Show, false after Hide and at start |
| HotkeyDialog.HotkeyDialog.GetMappings | src/gui/components/dialogs/hotkey.rs:116-118 | the dialog's mapping list, as Show, CompleteMapping and RemoveMapping leave it |
| HotkeyDialog.HotkeyDialog.IsLearning | src/gui/components/dialogs/hotkey.rs:66-71 | true exactly when the state is not Idle |
| HotkeyDialog.HotkeyDialog.StartLearning | src/gui/components/dialogs/hotkey.rs:73-76 | waiting for input, no preset selected |
| HotkeyDialog.HotkeyDialog.CancelLearning | src/gui/components/dialogs/hotkey.rs:78-81 | idle, no preset selected |
| HotkeyDialog.HotkeyDialog.OnKeyInput | src/gui/components/dialogs/hotkey.rs:84-110 | uncapturable or unidentified keys, and any key outside WaitingForInput, leave the state unchanged; otherwise the key, its stored modifiers and their format_description are captured |
| HotkeyDialog.HotkeyDialog.SetPresetForMapping | src/gui/components/dialogs/hotkey.rs:112-114 | the preset is selected |
| HotkeyDialog.HotkeyDialog.CompleteMapping | src/gui/components/dialogs/hotkey.rs:121-146 | Some exactly when a key is captured and a preset selected; then the new mapping replaces any for the same key and modifiers, is appended, and the dialog goes idle; otherwise nothing changes |
| HotkeyDialog.HotkeyDialog.Retain | src/gui/components/dialogs/hotkey.rs:138-139 | the retain loop keeps, in order, the mappings for other combinations |
| HotkeyDialog.HotkeyDialog.RemoveMapping | src/gui/components/dialogs/hotkey.rs:148-152 | removes the mapping at the index; an index past the end changes nothing |
| HotkeyDialog.CapturedBindingMatches | src/gui/components/dialogs/hotkey.rs:84-145 | a captured and bound key press matches that very press and no press with other modifiers |
| AmpChain.ChainBlockSnoc | src/amp/chain.rs:29-33 | one more sample in the block adds one whole-chain step to the block result |
| AmpChain.BlockEqualsSampleWise | src/amp/chain.rs:18-33 | running the block stage by stage gives the same output and stage states as pushing each sample through the whole chain |
| AmpChain.EmptyChainIsIdentity | src/amp/chain.rs:18-26 | an empty chain returns its input unchanged, per sample and per block |
| AmpChain.AmplifierChain.constructor | src/amp/chain.rs:10-12 | a new chain has no stages |
| AmpChain.AmplifierChain.AddStage | src/amp/chain.rs:14-16 | exactly one stage is appended at the end |
| AmpChain.AmplifierChain.Process | src/amp/chain.rs:18-26 | output and new stage states are the fold of the stages in insertion order |
| AmpChain.AmplifierChain.ProcessBlock | src/amp/chain.rs:29-33 | each stage processes the whole block in turn, in order |
| AmpChain.AmplifierChain.StageProcessBlock | src/amp/stages/mod.rs:19-23 | the default per-sample block loop for one stage; other stages untouched |
| StageCommon.DbToLin | src/amp/stages/common.rs:5-7 | a dB level becomes a positive gain |
| StageCommon.DbRoundTrip | src/amp/stages/common.rs:5-7 | reading a stored gain back in dB gives the level it was set from |
| StageCommon.CalculateCoefficient | src/amp/stages/common.rs:14-16 | the coefficient is non-negative, and strictly inside (0, 1) for a positive time and sample rate |
| StageCommon.EnvelopeStepBetween | src/amp/stages/common.rs:88-100 | with coefficients in [0, 1], the new envelope lies between the old envelope and the input's magnitude, so it stays non-negative |
| StageCommon.EnvelopeSettles | src/amp/stages/common.rs:88-100 | a steady input magnitude is a fixed point of the follower |
| StageCommon.FlushDenormal | src/amp/stages/delay.rs:79-83 | values below 1e-20 in magnitude become exactly 0; anything else is kept |
| StageCommon.MulAddIsOnePole | src/amp/stages/poweramp.rs:57-63 | the fused multiply-add form is the same one-pole smoothing step |
| StageCommon.DcBlockDecays | src/amp/stages/common.rs:41-46 | under a constant input the blocker's output decays as coeff^(k+1) times its last output, so DC is removed |
| StageCommon.EnvelopeFollower.constructor | src/amp/stages/common.rs:59-65 | envelope 0 with the given coefficients |
| StageCommon.EnvelopeFollower.FromMs | src/amp/stages/common.rs:68-73 | envelope 0 with coefficients computed from the attack and release times |
| StageCommon.EnvelopeFollower.SetAttackCoeff | src/amp/stages/common.rs:75-77 | only the attack coefficient changes |
| StageCommon.EnvelopeFollower.SetReleaseCoeff | src/amp/stages/common.rs:79-81 | only the release coefficient changes |
| StageCommon.EnvelopeFollower.Process | src/amp/stages/common.rs:88-100 | the result is the stored new envelope, one attack-or-release step from the old one, between it and the input's magnitude |
| StageCommon.DcBlocker.constructor | src/amp/stages/common.rs:31-38 | both histories zero; coefficient exp(-2π·cutoff/rate), inside (0, 1) for positive cutoff and rate |
| StageCommon.DcBlocker.Process | src/amp/stages/common.rs:41-46 | y = x - x_prev + c·y_prev, then x and y are remembered |
| DelayStage.DelaySamplesInRange | src/amp/stages/delay.rs:31-32 | a delay time within [0, 2000] ms is a non-negative sample count no longer than the ring's two seconds |
| DelayStage.SlotBehind | src/amp/stages/delay.rs:71-72 | the slot `delay` behind the write head is inside the ring and is the write head minus the delay, wrapped once |
| DelayStage.LerpBetween | src/amp/stages/delay.rs:75-75 | an interpolation weight in [0, 1] gives a value between the two taps |
| DelayStage.DelayedSampleBetween | src/amp/stages/delay.rs:65-75 | the delayed sample lies between the two ring slots it is interpolated from |
| DelayStage.ReadsBehindWriteHead | src/amp/stages/delay.rs:64-72 | the read delay is at least one sample, so the read slot is never the slot about to be written; the neighbour avoids it exactly while the ring has a spare slot |
| DelayStage.MixOut | src/amp/stages/delay.rs:89-89 | mix 0 outputs the dry input exactly, mix 1 the delayed signal exactly |
| DelayStage.MixBetween | src/amp/stages/delay.rs:89-89 | any mix in [0, 1] lies between dry and delayed sample |
| DelayStage.FeedbackKeepsBound | src/amp/stages/delay.rs:78-83 | with feedback at most 0.95, an input of at most (1 - feedback)·B keeps the stored value within B |
| DelayStage.WriteKeepsBound | src/amp/stages/delay.rs:75-83 | one write keeps every slot of a bounded ring within the bound: the echo tail cannot grow |
| DelayStage.SmoothedFits | src/amp/stages/delay.rs:57-72 | smoothing toward a target in range keeps the read delay inside the ring and its usize cast unsaturated |
| DelayStage.DelayStage.constructor | src/amp/stages/delay.rs:27-47 | delay clamped to [0, 2000], feedback to [0, 0.95], mix to [0, 1]; a zeroed ring of floor(2·rate)+2 slots; smoothing starts at the target |
| DelayStage.DelayStage.Process | src/amp/stages/delay.rs:55-90 | one-pole smoothing of the delay, an interpolated read, input plus feedback written at the head (denormals flushed), head advanced modulo the ring length, dry/wet mix out |
| DelayStage.DelayStage.UpdateDelayTarget | src/amp/stages/delay.rs:49-51 | the target becomes delay_ms·0.001·rate |
| DelayStage.DelayStage.SetParameter | src/amp/stages/delay.rs:92-121 | Ok exactly for delay_time in [0, 2000], feedback in [0, 0.95], mix in [0, 1]; the value then reads back and the other parameters are unchanged; an error changes nothing; unknown names give "Unknown parameter" |
| DelayStage.DelayStage.GetParameter | src/amp/stages/delay.rs:123-130 | Ok exactly for the three known names |
| MultibandSaturator.DesignEdgeGains | src/amp/stages/multiband_saturator.rs:50-71 | the lowpass design has unit gain at DC and zero at Nyquist; the highpass the reverse |
| MultibandSaturator.LowpassEdgeGains | src/amp/stages/multiband_saturator.rs:58-63 | the cookbook lowpass coefficients: unit gain at z = 1, zero at z = -1 |
| MultibandSaturator.HighpassEdgeGains | src/amp/stages/multiband_saturator.rs:64-69 | the cookbook highpass coefficients: zero at z = 1, unit gain at z = -1 |
| MultibandSaturator.BiquadSilence | src/amp/stages/multiband_saturator.rs:74-94 | a biquad at rest stays at rest on silence and outputs 0 |
| MultibandSaturator.BiquadShifts | src/amp/stages/multiband_saturator.rs:74-94 | after a sample, x1 and y1 are this input and output and the old ones move to x2 and y2 |
| MultibandSaturator.NewFilter | src/amp/stages/multiband_saturator.rs:29-48 | histories at rest, the kind kept, the coefficients designed for the cutoff |
| MultibandSaturator.SetCutoff | src/amp/stages/multiband_saturator.rs:50-71 | the coefficients are redesigned for the filter's own kind; histories kept |
| MultibandSaturator.FilterStep | src/amp/stages/multiband_saturator.rs:74-94 | a filter step keeps coefficients and kind |
| MultibandSaturator.FilterSilence | src/amp/stages/multiband_saturator.rs:74-94 | an LR4 filter at rest stays at rest on silence and outputs 0 |
| MultibandSaturator.SoftClip | src/amp/stages/multiband_saturator.rs:103-104 | x/(1+|x|) lies in (-1, 1), keeps the sign and is never louder than x |
| MultibandSaturator.Saturate | src/amp/stages/multiband_saturator.rs:99-105 | the result lies strictly inside (-1, 1) for every input and drive |
| MultibandSaturator.SaturateOdd | src/amp/stages/multiband_saturator.rs:99-105 | saturate(-x, d) = -saturate(x, d) |
| MultibandSaturator.SaturateClean | src/amp/stages/multiband_saturator.rs:99-105 | with drive 0 saturate is x/(1+|x|) |
| MultibandSaturator.BandSaturateBounded | src/amp/stages/multiband_saturator.rs:220-236 | a saturated band stays below 1 + env/2 in magnitude, and below 1 while the envelope is under the gate |
| MultibandSaturator.ParseParam | src/amp/stages/multiband_saturator.rs:247-331 | a name that parses is exactly that parameter's name |
| MultibandSaturator.ParseParamName | src/amp/stages/multiband_saturator.rs:247-331 | every parameter is found under its own name, so no two share a name |
| MultibandSaturator.ParameterOf | src/amp/stages/multiband_saturator.rs:319-331 | Ok exactly for the eight known names, giving that parameter's stored value; otherwise "Unknown parameter" |
| MultibandSaturator.SetThenGet | src/amp/stages/multiband_saturator.rs:247-331 | a set parameter reads back as the value set and every other name reads back as before |
| MultibandSaturator.SettingKeepsTuned | src/amp/stages/multiband_saturator.rs:186-196 | a stage whose filters are designed for its frequencies stays so through any accepted set_parameter |
| MultibandSaturator.Retune | src/amp/stages/multiband_saturator.rs:186-196 | afterwards all six filters are designed for the two frequencies; kinds and histories kept |
| MultibandSaturator.MultibandSaturatorStage.AsWritten | src/amp/stages/multiband_saturator.rs:143-184 | parameters clamped, but the six filters designed from the frequencies as passed (the constructor as written) |
| MultibandSaturator.MultibandSaturatorStage.constructor | src/amp/stages/multiband_saturator.rs:143-184 | drives clamped to [0, 1], levels to [0, 2], low_freq to [50, 500], high_freq to [1000, 6000]; the filters are designed for the clamped frequencies and at rest; envelopes 0 |
| MultibandSaturator.MultibandSaturatorStage.UpdateCrossoverFrequencies | src/amp/stages/multiband_saturator.rs:186-196 | all six filters redesigned for the stored frequencies, histories kept |
| MultibandSaturator.MultibandSaturatorStage.Process | src/amp/stages/multiband_saturator.rs:200-245 | split into three bands, follow each envelope, saturate against it, DC-block, sum with levels; each saturated band stays below 1 + env/2 |
| MultibandSaturator.MultibandSaturatorStage.SetParameter | src/amp/stages/multiband_saturator.rs:247-317 | Ok exactly for a known name and a value in its range; only that parameter changes; a frequency change redesigns the filters; an error changes nothing |
| MultibandSaturator.MultibandSaturatorStage.SetBandParameter | src/amp/stages/multiband_saturator.rs:249-296 | the drive and level arms: Ok exactly within range, changing only that value |
| MultibandSaturator.MultibandSaturatorStage.SetLowFreq | src/amp/stages/multiband_saturator.rs:297-305 | Ok exactly for [50, 500] Hz; the frequency is stored and the filters retuned; else nothing changes |
| MultibandSaturator.MultibandSaturatorStage.SetHighFreq | src/amp/stages/multiband_saturator.rs:306-314 | Ok exactly for [1000, 6000] Hz; the frequency is stored and the filters retuned; else nothing changes |
| MultibandSaturator.MultibandSaturatorStage.GetParameter | src/amp/stages/multiband_saturator.rs:319-331 | each known name reads its stored value; unknown names are errors |
| MultibandSaturator.UnclampedCrossover | src/amp/stages/multiband_saturator.rs:153-180 | as written, a 10 Hz low_freq reports 50 Hz while the low/mid filters are designed for 10 Hz |
| MultibandSaturator.ClampedCrossover | src/amp/stages/multiband_saturator.rs:153-180 | the corrected constructor designs the low/mid filters for the 50 Hz it reports |
| PowerAmp.SagAmount | src/amp/stages/poweramp.rs:48-48 | the sag keeps at least half of the drive |
| PowerAmp.DynamicDriveBounded | src/amp/stages/poweramp.rs:48-49 | the sag amount lies in [0.5, 1], so the dynamic drive lies between half the drive and the drive |
| PowerAmp.DrivenKeepsSign | src/amp/stages/poweramp.rs:52-52 | a non-negative drive only amplifies: the driven signal keeps the input's sign and is at least as large |
| PowerAmp.CrossoverSign | src/amp/stages/poweramp.rs:86-93 | the class AB crossover deadzone keeps the sign of its input |
| PowerAmp.Shape | src/amp/stages/poweramp.rs:70-105 | the shaped output lies strictly inside (-1, 1) and has the sign of the driven signal, for every amplifier class |
| PowerAmp.SagStep | src/amp/stages/poweramp.rs:55-68 | the sag envelope update is the envelope follower's attack-or-release step on the driven level, denormals flushed |
| PowerAmp.SagStepBetween | src/amp/stages/poweramp.rs:55-68 | the sag envelope stays non-negative and never exceeds the larger of its old value and the driven level |
| PowerAmp.PowerAmpStage.constructor | src/amp/stages/poweramp.rs:33-42 | drive and sag clamped to [0, 1], envelope 0, 2 ms attack and 50 ms release coefficients |
| PowerAmp.PowerAmpStage.Process | src/amp/stages/poweramp.rs:46-106 | drive by 1 + 3·drive·sag_amount, update the sag envelope, shape; the output lies strictly in (-1, 1) with the input's sign |
| PowerAmp.PowerAmpStage.SetParameter | src/amp/stages/poweramp.rs:108-128 | Ok exactly for drive or sag in [0, 1], changing only that one; each rejection has its own message; unknown names give "Unknown parameter name" |
| PowerAmp.PowerAmpStage.GetParameter | src/amp/stages/poweramp.rs:130-136 | Ok exactly for drive and sag |
| Compressor.GainReduction | src/amp/stages/compressor.rs:55-60 | no reduction at or below the threshold; with a ratio of at least 1 the reduction is a gain in (0, 1] |
| Compressor.ReducedLevel | src/amp/stages/compressor.rs:55-62 | a reduced and made-up sample is never louder than the input times the makeup gain |
| Compressor.CompressorStage.constructor | src/amp/stages/compressor.rs:15-32 | threshold and makeup converted from dB; the follower starts at 0 with coefficients from the attack and release times |
| Compressor.CompressorStage.UpdateAttack | src/amp/stages/compressor.rs:34-38 | the attack time and the follower's attack coefficient change |
| Compressor.CompressorStage.UpdateRelease | src/amp/stages/compressor.rs:40-44 | the release time and the follower's release coefficient change |
| Compressor.CompressorStage.Process | src/amp/stages/compressor.rs:48-63 | the envelope follows max(|x|, 1e-10); output = input·reduction·makeup; below the threshold only the makeup applies; with ratio ≥ 1 never louder than input·makeup |
| Compressor.CompressorStage.SetParameter | src/amp/stages/compressor.rs:65-109 | Ok exactly for threshold in [-60, 0], ratio in [1, 20], attack in [0.1, 100], release in [10, 1000], makeup in [-12, 24]; the value reads back; nothing else changes; unknown names give "Unknown parameter" |
| Compressor.CompressorStage.GetParameter | src/amp/stages/compressor.rs:111-120 | Ok exactly for the five known names |
| Level.LevelStage.constructor | src/amp/stages/level.rs:8-10 | the gain is taken as given |
| Level.LevelStage.Process | src/amp/stages/level.rs:14-16 | output = input·gain; a gain in [0, 2] at most doubles the level |
| Level.LevelStage.SetParameter | src/amp/stages/level.rs:18-30 | Ok exactly for gain in [0, 2], which then reads back; a rejection changes nothing, with the range message or "Unknown parameter" |
| Level.LevelStage.GetParameter | src/amp/stages/level.rs:32-37 | Ok exactly for "gain", giving the stored gain; otherwise "Unknown parameter name" |
| NoiseGate.NextHold | src/sim/stages/noise_gate.rs:96-100 | the hold counter reloads while the gate should open, otherwise counts down by one and stays at 0 |
| NoiseGate.TargetState | src/sim/stages/noise_gate.rs:102-106 | the target is open (1) exactly while the gate should open or the hold lasts, closed (0) otherwise |
| NoiseGate.GateSmoothInUnit | src/sim/stages/noise_gate.rs:109-117 | the smoothed gate state stays within [0, 1] |
| NoiseGate.ReductionBounds | src/sim/stages/noise_gate.rs:122-128 | with ratio ≥ 1 the applied gain lies in [1/ratio, 1] and is positive |
| NoiseGate.GateStep | src/sim/stages/noise_gate.rs:78-131 | the output is the input times the gain for the new gate state |
| NoiseGate.GatedLevel | src/sim/stages/noise_gate.rs:120-130 | with ratio ≥ 1 the gated sample is between input/ratio and input in magnitude |
| NoiseGate.GateStepSteady | src/sim/stages/noise_gate.rs:78-117 | a step keeps the coefficients in range, the envelope non-negative and the gate state within [0, 1] |
| NoiseGate.GateStepLevel | src/sim/stages/noise_gate.rs:78-131 | a steady gate's output is never louder than its input and never quieter than input/ratio |
| NoiseGate.NoiseGateStage.constructor | src/sim/stages/noise_gate.rs:31-65 | threshold from dB, gate closed and at rest, all four coefficients from their times; steady for positive times and rate |
| NoiseGate.NoiseGateStage.UpdateCoefficients | src/sim/stages/noise_gate.rs:67-70 | both gate coefficients recomputed from the current times |
| NoiseGate.NoiseGateStage.Process | src/sim/stages/noise_gate.rs:78-131 | state and output follow one gate step; settings untouched |
| NoiseGate.NoiseGateStage.ProcessBlock | src/sim/stages/noise_gate.rs:133-137 | the block is the per-sample fold of process, in place |
| NoiseGate.NoiseGateStage.SetParameter | src/sim/stages/noise_gate.rs:139-185 | Ok exactly for threshold in [-80, 0], ratio in [1, 100], attack in [0.1, 100], hold in [0, 500], release in [1, 1000]; the value reads back and every other parameter is unchanged; only attack/release recompute the coefficients; an error changes nothing |
| NoiseGate.NoiseGateStage.GetParameter | src/sim/stages/noise_gate.rs:187-196 | Ok exactly for the five known names, else "Unknown parameter name" |
| Fir.RespondAllAt | src/ir/convolver/fir.rs:72-76 | output i of a block is the response to input i after the inputs before it |
| Fir.ImpulseSum | src/ir/convolver/fir.rs:51-64 | a unit impulse n samples back weights exactly tap n |
| Fir.ImpulseResponse | src/ir/convolver/fir.rs:51-64 | n samples after an impulse the output is tap n, and 0 once the taps run out |
| Fir.ImpulseBlock | src/ir/convolver/fir.rs:43-76 | an impulse block through a freshly loaded convolver comes out as the impulse response, then silence |
| Fir.SilentSum | src/ir/convolver/fir.rs:51-64 | a silent history gives a silent output |
| Fir.SilenceAfterReset | src/ir/convolver/fir.rs:78-81 | after a reset, silence in gives silence out |
| Fir.Behind | src/ir/convolver/fir.rs:55-64 | the slot d places behind the write position is inside the ring |
| Fir.BehindStep | src/ir/convolver/fir.rs:55-64 | one slot further back is the previous slot, wrapping from 0 to len - 1 |
| Fir.BehindAdvance | src/ir/convolver/fir.rs:67-67 | after the write position advances, each slot is one place further back |
| Fir.RingStore | src/ir/convolver/fir.rs:51-51 | storing the input at the write position turns a ring holding the history behind it into one holding the longer history from it |
| Fir.RingAdvance | src/ir/convolver/fir.rs:67-67 | after the write position advances, the ring holds the history behind it again |
| Fir.TapSum | src/ir/convolver/fir.rs:53-64 | the tap loop, walking back from the newest input and wrapping at 0, sums to the convolution of the taps with the history |
| Fir.FirConvolver.constructor | src/ir/convolver/fir.rs:19-26 | no taps and a zeroed ring of max_length slots |
| Fir.FirConvolver.SetIr | src/ir/convolver/fir.rs:28-40 | keeps at most max_length taps, with a fresh zeroed ring of that length; always Ok |
| Fir.FirConvolver.ProcessSample | src/ir/convolver/fir.rs:43-70 | the output is the convolution of the taps with the inputs so far (the input itself with no taps); the write position advances modulo the tap count |
| Fir.FirConvolver.ProcessBlock | src/ir/convolver/fir.rs:72-76 | every sample is replaced by its response, in order |
| Fir.FirConvolver.Reset | src/ir/convolver/fir.rs:78-81 | ring silenced and write position rewound; taps kept |
| Fir.FirConvolver.Latency | src/ir/convolver/fir.rs:83-85 | the FIR has no latency |
| Fir.FirConvolver.IrLength | src/ir/convolver/fir.rs:88-90 | never more than max_length taps |
| FftConvolver.ZeroSpectrum | src/ir/convolver/fft.rs:300-320 | a spectrum of 513 zero bins |
| FftConvolver.DivCeilCovers | src/ir/convolver/fft.rs:146-146 | ceil(n/512) partitions cover the tail, and one fewer would not |
| FftConvolver.HeadOf | src/ir/convolver/fft.rs:124-127 | the head is the first min(len, 256) taps, zero-padded to 256 |
| FftConvolver.PartitionBlock | src/ir/convolver/fft.rs:148-157 | each partition's time block has 1024 samples |
| FftConvolver.PartitionsCoverTail | src/ir/convolver/fft.rs:145-157 | tail sample i lands in partition i/512 at offset i%512, and that partition exists |
| FftConvolver.TimeBlock | src/ir/convolver/fft.rs:231-234 | the input ring read in time order has 1024 samples |
| FftConvolver.HistIdx | src/ir/convolver/fft.rs:253-259 | the history slot j blocks back is inside the history |
| FftConvolver.NewestFirst | src/ir/convolver/fft.rs:253-259 | right after a spectrum is stored, partition 0 pairs with it and partition j with the one j blocks older |
| FftConvolver.Accumulated | src/ir/convolver/fft.rs:256-275 | the accumulated spectrum has 513 bins |
| FftConvolver.OverlapAdd | src/ir/convolver/fft.rs:287-295 | the overlap-added ring keeps its 1024 samples |
| FftConvolver.WrapBack | src/ir/convolver/fft.rs:287-295 | the ring position base + i wrapped once can be unwrapped back to i |
| FftConvolver.TwoStageConvolver.constructor | src/ir/convolver/fft.rs:65-113 | a silent head, no tail, zeroed buffers, every index 0, and an empty record of outputs |
| FftConvolver.TwoStageConvolver.SetIr | src/ir/convolver/fft.rs:115-143 | an empty IR silences the head without a reset; otherwise the head takes the first 256 taps and the tail is partitioned and transformed; Ok leads to a reset; a failed transform is an error naming an untransformable partition; the record of outputs is kept |
| FftConvolver.TwoStageConvolver.PartitionTail | src/ir/convolver/fft.rs:145-173 | ceil(len/512) partitions, Ok exactly when every one transforms, each stored as its transform, with a zeroed history |
| FftConvolver.TwoStageConvolver.Reset | src/ir/convolver/fft.rs:300-320 | every buffer and spectrum zeroed and every index 0; the IR kept |
| FftConvolver.TwoStageConvolver.ProcessHead | src/ir/convolver/fft.rs:177-192 | the input joins the head ring and the output is the 256-tap convolution of the inputs so far |
| FftConvolver.TwoStageConvolver.ProcessSample | src/ir/convolver/fft.rs:176-221 | output = head convolution + the overlap-add sample when there is a tail; with a tail the input is stored in the newer half of the input buffer, the read slot of the overlap-add buffer is cleared and the read position moves on, and on every 512th input the partition step (PartitionRun) runs on the filled block and the block positions move on by 512; without a tail the tail buffers are untouched; the output is appended to the ghost record `outputs` |
| FftConvolver.TwoStageConvolver.ProcessTail | src/ir/convolver/fft.rs:195-218 | returns the overlap-add sample at the read position; the input is stored at input_base + 512 + input_pos; the read slot is cleared and the read position moves on; before the 512th input history and overlap-add buffer are otherwise unchanged; on the 512th input the partition step (PartitionRun) runs on the block, starting from the cleared overlap-add buffer |
| FftConvolver.TwoStageConvolver.BlockStep | src/ir/convolver/fft.rs:224-226 | one iteration of process_block: the sample is replaced by process_sample's output, which is appended to `outputs`, and no other sample changes; with no tail it is the head's response |
| FftConvolver.TwoStageConvolver.ProcessBlock | src/ir/convolver/fft.rs:223-227 | process_sample on each sample in order: the block afterwards is exactly the outputs process_sample appended, in order, with or without a tail; with no tail the block is the head convolution |
| FftConvolver.TwoStageConvolver.ProcessTailPartition | src/ir/convolver/fft.rs:229-298 | PartitionRun: the input block is transformed, stored in the history at the head, which moves on; the history is accumulated against the partitions, transformed back and overlap-added 256 samples on; a failed transform adds nothing; ola_write always moves on 512 |
| FftConvolver.TwoStageConvolver.LoadTimeBlock | src/ir/convolver/fft.rs:231-234 | the transform buffer receives the input ring in time order |
| FftConvolver.TwoStageConvolver.ConvolveSpectrum | src/ir/convolver/fft.rs:251-295 | the spectrum is stored at the history head, which advances; the accumulated spectrum's inverse is overlap-added unless it fails |
| FftConvolver.TwoStageConvolver.AddInto | src/ir/convolver/fft.rs:287-295 | sample i scaled by 1/1024 is added at base + i around the ring |
| FftConvolver.Silence | src/ir/convolver/fft.rs:300-320 | every element becomes 0 |
| FftConvolver.Accumulate | src/ir/convolver/fft.rs:256-264 | each bin is the sum over partitions of history spectrum j blocks old times partition j |
| Cabinet.FirstLoud | src/ir/cabinet.rs:109-109 | the first sample louder than 1e-6, with every earlier one quiet; None exactly when all are quiet |
| Cabinet.LeadingSilence | src/ir/cabinet.rs:109-109 | the trim start lies within the IR |
| Cabinet.TrailingEnd | src/ir/cabinet.rs:112-115 | the end moves down past samples quieter than 1e-6, never below the start, stopping after a non-quiet sample |
| Cabinet.TrimSilence | src/ir/cabinet.rs:107-126 | the loops compute the trimmed slice |
| Cabinet.TrimmedEnds | src/ir/cabinet.rs:107-126 | the trimmed IR is a contiguous slice that drops only silence; it starts on a loud sample when there is one and ends on a non-quiet one |
| Cabinet.SilentTrimsToEmpty | src/ir/cabinet.rs:107-126 | an all-quiet IR trims to nothing |
| Cabinet.Truncated | src/ir/cabinet.rs:80-81 | at most the first max samples; an IR that fits is kept whole |
| Cabinet.Selected | src/ir/cabinet.rs:78-92 | the IR given to the convolver has at most max_ir_samples samples |
| Cabinet.IrCabinet.constructor | src/ir/cabinet.rs:41-69 | the chosen convolver, empty; max_ir_samples = rate·ms/1000; not bypassed; unit gain |
| Cabinet.IrCabinet.SelectIr | src/ir/cabinet.rs:75-105 | a lookup error changes nothing; otherwise the IR truncated and trimmed goes to the convolver, whose error is passed on |
| Cabinet.IrCabinet.ProcessSample | src/ir/cabinet.rs:142-150 | bypassed: the input itself; otherwise the convolver's output times the gain |
| Cabinet.IrCabinet.ProcessBlock | src/ir/cabinet.rs:128-139 | bypassed: nothing changes; otherwise the convolver over the block, then the gain: for the two-stage convolver the block is its newly recorded outputs times the gain, and with no tail the gained head convolution |
| Cabinet.IrCabinet.SetBypass | src/ir/cabinet.rs:152-157 | the flag is stored; bypassing also resets the convolver, keeping its IR |
| Cabinet.IrCabinet.SetGain | src/ir/cabinet.rs:163-165 | the gain is clamped to [0, 2] |
| Cabinet.IrCabinet.SetConvolverType | src/ir/cabinet.rs:180-189 | the same type is a no-op; a new type gets a fresh empty convolver |
| Cabinet.IrCabinet.SetMaxIrMs | src/ir/cabinet.rs:192-204 | the maximum is recomputed; a FIR cabinet gets a fresh FIR convolver of that length |
| Cabinet.WithConfig | src/ir/cabinet.rs:41-69 | fails exactly when the IR directory can be neither listed nor created; otherwise a cabinet with the chosen convolver, unbypassed, unit gain |
| Cabinet.New | src/ir/cabinet.rs:32-39 | as with_config, with the FIR convolver and a 50 ms maximum |
| Loader.WrapI32 | src/ir/loader.rs:54-54 | the two's-complement wrap lands in the i32 range and leaves i32 values alone |
| Loader.IntScale | src/ir/loader.rs:54-54 | the intended divisor 2^(bits-1) is at least 1 |
| Loader.IntScaleAsWrittenFlips32 | src/ir/loader.rs:54-54 | for 32-bit samples the i32 shift gives -2^31 instead of 2^31, so every positive sample becomes negative |
| Loader.IntScaleKeepsRange | src/ir/loader.rs:54-54 | the intended scaling maps the signed range of bits bits into [-1, 1) and keeps the sign |
| Loader.ToFloats | src/ir/loader.rs:48-60 | one float per sample, for float and integer files, integers scaled with the corrected shift (see Findings) |
| Loader.Frames | src/ir/loader.rs:62-69 | one average per chunk of `channels` samples, counting a short last chunk |
| Loader.FrameCountIsCeiling | src/ir/loader.rs:62-69 | the chunk count is ceil(n / channels) |
| Loader.MixdownOfSpread | src/ir/loader.rs:62-69 | mixing down a signal copied onto every channel gives it back |
| Loader.Ratio | src/ir/loader.rs:139-141 | the rate ratio is positive |
| Loader.ResampleLengthIsFloor | src/ir/loader.rs:139-143 | the output length is floor(len·to/from), saturated at usize::MAX |
| Loader.Resampled | src/ir/loader.rs:139-159 | the resampled signal has the computed length |
| Loader.ResampleStaysInside | src/ir/loader.rs:139-159 | every output position lies inside the source, so the silent fallback is never reached |
| Loader.ResampledSample | src/ir/loader.rs:139-159 | each output sample lies between the two source samples around its position, or is the last source sample |
| Loader.ResampleSameRate | src/ir/loader.rs:139-159 | resampling between equal rates gives the signal back |
| Loader.Peak | src/ir/loader.rs:81-83 | the peak fold has a value exactly when there are samples |
| Loader.PeakIsLargest | src/ir/loader.rs:81-83 | the fold yields the largest magnitude, attained by some sample |
| Loader.PeakUnique | src/ir/loader.rs:81-83 | a largest magnitude is unique |
| Loader.NormalizedPeak | src/ir/loader.rs:81-89 | after normalisation a positive peak becomes exactly 0.9 |
| Loader.ZeroPeakKept | src/ir/loader.rs:81-89 | a zero peak means all zeros, and normalisation keeps them |
| Loader.ScaleInPlace | src/ir/loader.rs:85-88 | every sample multiplied by the gain, in place |
| Loader.Normalize | src/ir/loader.rs:81-89 | the in-place loops compute the normalised signal |
| Loader.ResampleLinear | src/ir/loader.rs:139-159 | the loop pushes exactly the resampled signal |
| Loader.LoadedIrPeak | src/ir/loader.rs:44-92 | a loaded IR with a non-zero sample peaks at exactly 0.9 |
| Loader.IrBeforeIsTotalPreorder | src/ir/loader.rs:105-109 | the scan's comparator is total and transitive |
| Loader.SortedIrEntries | src/ir/loader.rs:105-109 | the sorted list is a permutation, by non-decreasing depth, by name within a depth |
| Loader.FirstNamed | src/ir/loader.rs:35-39 | the index of the first entry with that name, None exactly when no entry has it |
| Loader.IrLoader.constructor | src/ir/loader.rs:15-19 | an empty list with the directory and target rate |
| Loader.IrLoader.ScanIrDirectory | src/ir/loader.rs:94-136 | a missing directory is created (or an error) and the list kept; a failed walk keeps what was pushed and passes the error on; a complete walk is sorted |
| Loader.IrLoader.LoadIr | src/ir/loader.rs:44-92 | decoder errors pass through; otherwise mixed down, converted (with the corrected integer scale), resampled and normalised |
| Loader.IrLoader.GetFirst | src/ir/loader.rs:26-32 | the first sorted entry is loaded; an empty list gives "available_ir_paths is empty" |
| Loader.IrLoader.LoadByName | src/ir/loader.rs:34-42 | the first entry with that name is loaded; none gives the not-found error |
| Loader.NewIrLoader | src/ir/loader.rs:14-24 | fails exactly when the scan fails, with its error; otherwise the sorted entries, or none for a new directory |
| PeakMeter.BlockPeak | src/audio/peak_meter.rs:40-40 | the block peak is non-negative and at least every sample's magnitude |
| PeakMeter.BlockPeakAttained | src/audio/peak_meter.rs:40-40 | the block peak is 0 for an empty block and otherwise some sample's magnitude |
| PeakMeter.HeldCoversBlock | src/audio/peak_meter.rs:42-52 | after a block the held peak covers every sample of it, is the old peak or the block's, and the count stays within the hold time |
| PeakMeter.HeldKeepsPeak | src/audio/peak_meter.rs:42-52 | a block no louder than the held peak keeps it exactly while the hold time has not passed (or the block matches it) |
| PeakMeter.InfoFor | src/audio/peak_meter.rs:54-66 | the published reading carries the peak, clips exactly at ≥ 0.95, and reads -100 dB at or below 1e-10 |
| PeakMeter.PeakDbOfPower | src/audio/peak_meter.rs:54-58 | the dB reading of 10^(x/20) is x |
| PeakMeter.InfoCell.constructor | src/audio/peak_meter.rs:26-26 | the shared cell starts at the default reading |
| PeakMeter.PeakMeterHandle.constructor | src/audio/peak_meter.rs:35-35 | the handle shares the meter's cell |
| PeakMeter.PeakMeterHandle.GetInfo | src/audio/peak_meter.rs:77-79 | whatever the meter last published |
| PeakMeter.PeakMeter.constructor | src/audio/peak_meter.rs:25-37 | no peak, no count, a hold of two seconds of samples |
| PeakMeter.PeakMeter.Process | src/audio/peak_meter.rs:39-67 | the held peak and count follow the hold rule, and the reading for the new peak is published |
| PeakMeter.PeakMeter.Reset | src/audio/peak_meter.rs:69-73 | no peak, no count, the default reading published |
| PeakMeter.NewPeakMeter | src/audio/peak_meter.rs:25-37 | a fresh meter and a handle on the same cell, at the default reading |
| Tuner.SumSquares | src/sim/tuner.rs:30-35 | the sum of squares is non-negative |
| Tuner.Rms | src/sim/tuner.rs:30-31 | the RMS level of the buffer is never negative |
| Tuner.LagSearch | src/sim/tuner.rs:40-53 | either no lag beats f32::MAX and the period is 0, or the result is the first lag of least AMDF in the range |
| Tuner.LagLimit | src/sim/tuner.rs:37-42 | the largest lag searched is at most half the buffer |
| Tuner.DetectedLag | src/sim/tuner.rs:29-60 | a detected frequency is the rate over a positive lag in [sr/1200, min(sr/60, 2048)) of least AMDF, the first such, in a buffer loud enough |
| Tuner.SilenceHasNoPitch | src/sim/tuner.rs:30-35 | a silent buffer never yields a pitch |
| Tuner.Cents | src/sim/tuner.rs:88-91 | the cents offset lies in [-50, 50] |
| Tuner.NoteNumber | src/sim/tuner.rs:87-90 | the nearest semitone to the frequency: within half a semitone of 12·log2(f/440) |
| Tuner.NoteName | src/sim/tuner.rs:93-96 | the name is NOTES[n rem_euclid 12] |
| Tuner.NotesDistinct | src/sim/tuner.rs:93-95 | the twelve note names are distinct |
| Tuner.Octave | src/sim/tuner.rs:97-97 | the corrected octave: C4 starts 9 semitones below A4 and each octave spans 12 semitones |
| Tuner.OctaveAgreesFromC4 | src/sim/tuner.rs:97-97 | as written and corrected agree from C4 upwards |
| Tuner.NoteOctaveInjective | src/sim/tuner.rs:93-99 | with the corrected octave, a note name and octave denote exactly one note |
| Tuner.OctaveAsWrittenCollides | src/sim/tuner.rs:97-97 | as written, B3 and B4 both read "B4" |
| Tuner.InfoFor | src/sim/tuner.rs:62-75 | no frequency gives the default; otherwise the frequency, its note label with the corrected octave, cents in [-50, 50], and in tune exactly within the cents window |
| Tuner.ConcertA | src/sim/tuner.rs:106-112 | 440 Hz reads as A4, exactly in tune |
| Tuner.Tuner.constructor | src/sim/tuner.rs:11-18 | a zeroed buffer, nothing received, no frequency |
| Tuner.Tuner.ProcessSample | src/sim/tuner.rs:20-27 | the sample is stored at the write position, which advances; every 1024th sample re-runs the detection, otherwise the frequency is kept |
| Tuner.Tuner.LagDifferenceOf | src/sim/tuner.rs:44-47 | the loop computes the AMDF at the lag |
| Tuner.Tuner.SimpleAmdf | src/sim/tuner.rs:29-60 | the detection over the current buffer |
| Tuner.Tuner.GetTunerInfo | src/sim/tuner.rs:62-75 | the reading for the last detected frequency, with the corrected octave |
| Metronome.SamplesPerBeat | src/metronome/mod.rs:11-11 | for a positive tempo, rate·60/bpm cast to usize; a negative tempo gives 0 |
| Metronome.CounterClosedForm | src/metronome/mod.rs:24-38 | from inside the beat, the counter after k samples is (counter + k) mod the beat length |
| Metronome.ClickEveryBeat | src/metronome/mod.rs:24-38 | from a fresh counter, sample k clicks exactly when k is a multiple of the beat length |
| Metronome.ZeroBeatAlwaysClicks | src/metronome/mod.rs:33-36 | with a zero beat length every sample clicks |
| Metronome.Metronome.constructor | src/metronome/mod.rs:10-22 | counter 0, disabled, beat length from the tempo |
| Metronome.Metronome.ProcessBlock | src/metronome/mod.rs:24-38 | each output sample is a click exactly when the counter is 0; the counter advances by the block length |
| PresetManager.SanitizeFilename | src/preset/manager.rs:104-111 | same length; each ASCII letter, digit, '-' or '_' kept, every other character replaced by '_' |
| PresetManager.SanitizedIsSafe | src/preset/manager.rs:104-111 | a sanitized name holds only safe characters, so no '/' and no '.' |
| PresetManager.SanitizeIdempotent | src/preset/manager.rs:104-111 | sanitizing twice is sanitizing once |
| PresetManager.SanitizeKeepsSafeNames | src/preset/manager.rs:104-111 | a name of safe characters is its own file name |
| PresetManager.LastDot | src/preset/manager.rs:38-38 | the last '.' below n, None exactly when there is none |
| PresetManager.PresetFileIsJson | src/preset/manager.rs:38-62 | a preset with a non-empty name is saved to a file whose extension is "json", so loading reads it back |
| PresetManager.EmptyNameFileIsSkipped | src/preset/manager.rs:38-62 | a preset with an empty name is saved as ".json", which has no extension and is not loaded |
| PresetManager.PresetExists | src/preset/manager.rs:91-93 | true exactly when some preset has exactly that name |
| PresetManager.FindIndex | src/preset/manager.rs:99-101 | the index of the first preset with that name, None exactly when none has it |
| PresetManager.GetPresetByName | src/preset/manager.rs:99-101 | a found preset is in the list and has that name |
| PresetManager.ExistsIffFound | src/preset/manager.rs:91-101 | a preset exists under a name exactly when looking it up finds one |
| PresetManager.LoadedStep | src/preset/manager.rs:34-46 | one more entry adds what that entry pushes |
| PresetManager.SortedAfterLoad | src/preset/manager.rs:49-49 | after loading, the presets are in name order and are a permutation of the loaded ones |
| PresetManager.LoadedHas | src/preset/manager.rs:38-48 | a JSON file that parsed is among the loaded presets |
| PresetManager.SavedPresetIsLoaded | src/preset/manager.rs:61-73 | the file save_preset writes for a preset with a nonempty name, once read back, puts the preset in the sorted list |
| PresetManager.FirstError | src/preset/manager.rs:34-46 | the first error entry, with only good entries before it; None exactly when there is no error |
| PresetManager.Manager.constructor | src/preset/manager.rs:13-25 | an absent directory gives no presets; a readable one gives its JSON presets sorted by name |
| PresetManager.Manager.LoadPresets | src/preset/manager.rs:27-52 | absent directory: empty and Ok; unreadable: empty and Err; an entry error: the presets pushed before it, unsorted, and Err; otherwise every parsed JSON preset sorted by name |
| PresetManager.Manager.ScanEntries | src/preset/manager.rs:34-46 | the loop pushes the parsed JSON presets in listing order and fails exactly at the first entry error |
| PresetManager.Manager.SavePreset | src/preset/manager.rs:61-73 | a failed write is "Failed to write preset file" with the list unchanged; otherwise the directory is reloaded, and a preset with a nonempty name that reads back from its file is in the list |
| PresetManager.Manager.DeletePreset | src/preset/manager.rs:75-89 | a missing file is "Preset file not found: name", a failed removal "Failed to delete preset file", both with the list unchanged; otherwise the directory is reloaded |
| PresetManager.Manager.Exists | src/preset/manager.rs:91-93 | true exactly when some preset has that name |
| PresetManager.Manager.FindByName | src/preset/manager.rs:99-101 | the first preset with that name, found exactly when one exists |
| Stages.FromKind | src/gui/stages/mod.rs:83-98 | the config of the same kind, with that kind's default settings (filter.rs:21-26, preamp.rs:23-29, compressor.rs:24-32, tonestack.rs:24-32, poweramp.rs:22-28, level.rs:20-22, noise_gate.rs:24-32, multiband_saturator.rs:27-38 under src/gui/stages) |
| Stages.DefaultSettings | src/gui/stages/filter.rs:20-27 | each kind's default settings, as that kind's Default impl writes them (this one is the filter's; the others are in the per-kind files named in the FromKind row) |
| Stages.FromKindInjective | src/gui/stages/mod.rs:83-98 | distinct kinds start from distinct configurations |
| Stages.DefaultIsHighpassFilter | src/gui/stages/mod.rs:83-86 | the default kind is a 100 Hz highpass filter |
| Stages.Apply | src/gui/stages/mod.rs:114-150 | true exactly when the message is of the config's kind; then only that setting changes; otherwise nothing changes |
| Stages.ApplyIdempotent | src/gui/stages/mod.rs:114-150 | applying the same message twice is applying it once |
| Stages.ApplyCommutes | src/gui/stages/mod.rs:114-150 | messages to different settings commute |
| App.Swap | src/gui/app.rs:211-217 | the two positions are exchanged and every other one kept |
| App.SwapPermutes | src/gui/app.rs:211-217 | a swap only reorders the list |
| App.RemoveAt | src/gui/app.rs:205-205 | one shorter; the elements after the index shift down by one |
| App.RemoveAtMultiset | src/gui/app.rs:205-205 | removal drops exactly the element at the index |
| App.AddStageAppends | src/gui/app.rs:198-202 | AddStage appends one stage of the selected type at its defaults and marks the chain dirty |
| App.RemoveStageGuarded | src/gui/app.rs:203-208 | RemoveStage marks dirty exactly for an index inside the list and then drops exactly that stage; otherwise the list is unchanged |
| App.MoveStageUpGuarded | src/gui/app.rs:209-214 | MoveStageUp marks dirty exactly when the stage has a predecessor, then swaps them; the list always keeps the same stages |
| App.MoveStageDownGuarded | src/gui/app.rs:215-220 | MoveStageDown marks dirty exactly when the stage has a successor, then swaps them; the list always keeps the same stages |
| App.MoveUpThenDown | src/gui/app.rs:209-220 | moving a stage up and then back down restores the list |
| App.StageMessageMarksIffApplied | src/gui/app.rs:307-313 | a stage message marks dirty exactly when the index exists and the message is of that stage's kind; only that stage can change |
| App.BuildAmplifierChain | src/gui/app.rs:501-511 | the configured stages in list order, at sample_rate·oversampling_factor |
| App.AmplifierApp.constructor | src/gui/app.rs:46-116 | the preset's stages, a pending rebuild, the default stage type, no chain yet |
| App.AmplifierApp.MarkStagesDirty | src/gui/app.rs:484-487 | the chain is marked dirty and the stage list widget shows the current stages |
| App.AmplifierApp.RebuildIfDirty | src/gui/app.rs:476-482 | when dirty, the engine gets a chain built from the current stages; the flag ends cleared; when clean, nothing happens |
| App.AmplifierApp.Update | src/gui/app.rs:191-223 | the stage list follows the message's transition; dirty is set exactly by the arms that change it; RebuildTick rebuilds once and clears the flag |
| App.RebuildTwice | src/gui/app.rs:476-482 | a second rebuild tick hands the engine nothing new |
| I18n.ToU8 | src/i18n/mod.rs:17-22 | English is 0 and Chinese is 1 |
| I18n.FromU8 | src/i18n/mod.rs:24-29 | 1 is Chinese and every other byte English |
| I18n.RoundTrip | src/i18n/mod.rs:17-29 | storing a language and reading it back gives the same language |
| I18n.OtherBytesAreEnglish | src/i18n/mod.rs:24-29 | every byte other than 1 reads as English |
| I18n.LanguagesListed | src/i18n/mod.rs:41-41 | every language is offered, exactly once |
| I18n.ForLanguage | src/i18n/mod.rs:220-225 | English gives the English table, Chinese the Chinese one |
| I18n.TablesDiffer | src/i18n/mod.rs:32-39 | different languages have different tables and display names |
| I18n.DisplayName | src/i18n/mod.rs:32-39 | English shows as "English" and Chinese as its own name; TablesDiffer proves the two names differ |
| I18n.LanguageCell.constructor | src/i18n/mod.rs:5-5 | the global cell starts at 0 |
| I18n.LanguageCell.SetLanguage | src/i18n/mod.rs:44-46 | the cell holds the language's byte |
| I18n.LanguageCell.GetLanguage | src/i18n/mod.rs:49-51 | the language the cell's byte denotes |
| I18n.LanguageCell.CurrentTranslations | src/i18n/mod.rs:55-57 | the table of the current language |
| I18n.SetThenGet | src/i18n/mod.rs:44-57 | reading after setting gives the language set and its table |
| I18n.FreshCellIsEnglish | src/i18n/mod.rs:5-29 | a fresh cell reads as English |
| PitchShifter.WrapPhaseRange | src/audio/pitch_shifter.rs:183-183 | the wrapped phase difference lies in [-π, π] and differs from the raw one by whole turns |
| PitchShifter.LerpPhaseEnds | src/audio/pitch_shifter.rs:8-12 | at t = 0 the start phase; at t = 1 the end phase up to whole turns |
| PitchShifter.HannWindow | src/audio/pitch_shifter.rs:79-81 | the window has FFT_SIZE values |
| PitchShifter.HannWindowShape | src/audio/pitch_shifter.rs:79-81 | every window value lies in [0, 1] and the middle one is exactly 1 |
| PitchShifter.OverlapSquares | src/audio/pitch_shifter.rs:90-95 | the inner COLA sum of squares is non-negative |
| PitchShifter.PositionSquares | src/audio/pitch_shifter.rs:88-97 | the outer COLA sum is non-negative |
| PitchShifter.OverlapSquaresMiddle | src/audio/pitch_shifter.rs:88-97 | the inner sum for position 0 includes the middle window value squared |
| PitchShifter.PositionSquaresFirst | src/audio/pitch_shifter.rs:88-97 | the outer sum is at least its first position's inner sum |
| PitchShifter.OutputScale | src/audio/pitch_shifter.rs:87-99 | a window whose middle value is 1 gives a positive output scale (no division by zero) |
| PitchShifter.HannScale | src/audio/pitch_shifter.rs:79-99 | the Hann window's output scale is positive |
| PitchShifter.MaxMagnitude | src/audio/pitch_shifter.rs:292-297 | at least 1e-12 and at least every magnitude |
| PitchShifter.FoldMax | src/audio/pitch_shifter.rs:292-296 | the fold is non-negative and at least every magnitude |
| PitchShifter.PeakThreshold | src/audio/pitch_shifter.rs:298-298 | the peak threshold is positive |
| PitchShifter.InteriorPeaks | src/audio/pitch_shifter.rs:303-310 | exactly the interior local maxima above the threshold, in increasing order |
| PitchShifter.PeakListShape | src/audio/pitch_shifter.rs:301-311 | the peaks list starts at DC, ends at Nyquist, increases strictly, and holds an interior bin exactly when it is a local maximum above 2% of the largest magnitude |
| PitchShifter.Valley | src/audio/pitch_shifter.rs:320-327 | the first bin of least magnitude between the two peaks |
| PitchShifter.WindowIndex | src/audio/pitch_shifter.rs:315-317 | the window of neighbouring peaks that holds the bin |
| PitchShifter.WindowIndexUnique | src/audio/pitch_shifter.rs:315-317 | windows do not overlap |
| PitchShifter.OwnerBracketed | src/audio/pitch_shifter.rs:315-337 | every bin is owned by one of the two peaks around it, and every peak below Nyquist owns itself |
| PitchShifter.OwnerMonotone | src/audio/pitch_shifter.rs:315-337 | the owning peak never decreases as the bin index grows |
| PitchShifter.CountersStep | src/audio/pitch_shifter.rs:143-155 | the input, output and hop counters each move on by one and wrap at their ring size; a hop completes exactly when the hop counter wraps |
| PitchShifter.WriteStep | src/audio/pitch_shifter.rs:282-282 | after f+1 frames output_write sits (f+2)·HOP_SIZE round the output ring |
| PitchShifter.VocoderCall | src/audio/pitch_shifter.rs:168-275 | a lawful spectral core returns full-size buffers with bounded magnitudes |
| PitchShifter.LastInputs | src/audio/pitch_shifter.rs:163-166 | the last FFT_SIZE samples fed, oldest first |
| PitchShifter.RingPush | src/audio/pitch_shifter.rs:143-144 | overwriting the oldest sample and moving on keeps the ring holding the last FFT_SIZE samples, new one last |
| PitchShifter.OverlapAdded | src/audio/pitch_shifter.rs:278-281 | the output ring keeps its size |
| PitchShifter.OverlapAddedSpan | src/audio/pitch_shifter.rs:278-281 | a frame lands on FFT_SIZE consecutive ring positions; the other positions keep their value |
| PitchShifter.PitchShifter.constructor | src/audio/pitch_shifter.rs:70-130 | ratio 2^(semitones/12), the Hann window and its scale, zeroed rings and phases, writing one hop ahead, the first frame pending |
| PitchShifter.PitchShifter.SetSemitones | src/audio/pitch_shifter.rs:133-138 | a new ratio, both phase arrays zeroed, the next frame seeds its phases afresh |
| PitchShifter.PitchShifter.LoadFrame | src/audio/pitch_shifter.rs:163-166 | the analysis frame is the last FFT_SIZE samples, oldest first, times the window |
| PitchShifter.PitchShifter.AssignRegion | src/audio/pitch_shifter.rs:315-337 | bins up to the valley go to the left peak, the rest to the right; bins outside the window unchanged |
| PitchShifter.PitchShifter.FindPeakRegions | src/audio/pitch_shifter.rs:291-338 | the peaks list is computed and every bin gets its owning peak |
| PitchShifter.PitchShifter.CollectPeaks | src/audio/pitch_shifter.rs:301-311 | the peaks list: DC, the interior peaks, Nyquist |
| PitchShifter.PitchShifter.SplitRegions | src/audio/pitch_shifter.rs:315-337 | every bin gets its owning peak |
| PitchShifter.PitchShifter.OverlapAdd | src/audio/pitch_shifter.rs:277-281 | the windowed, scaled frame is added into the output ring from output_write on |
| PitchShifter.PitchShifter.ProcessFrame | src/audio/pitch_shifter.rs:159-283 | analyse the last FFT_SIZE samples, shift, assign bins to peaks, synthesise, overlap-add, and move output_write on by one hop |
| PitchShifter.PitchShifter.Analyse | src/audio/pitch_shifter.rs:159-254 | the windowed frame through the spectral shift, which gives the new phases, shifted magnitudes and phases and the analysis phases; then the peak regions; the first-frame flag cleared |
| PitchShifter.PitchShifter.Synthesise | src/audio/pitch_shifter.rs:255-283 | synthesise, overlap-add at output_write, advance it one hop |
| PitchShifter.PitchShifter.Feed | src/audio/pitch_shifter.rs:143-144 | the sample is stored in the ring and the position advances |
| PitchShifter.PitchShifter.Tick | src/audio/pitch_shifter.rs:146-150 | the hop counter wraps, and a frame is due, on every HOP_SIZE-th sample |
| PitchShifter.PitchShifter.Emit | src/audio/pitch_shifter.rs:153-155 | the output cell is read and cleared, the read position moves on, and the sample joins the record of emitted outputs |
| PitchShifter.PitchShifter.ProcessSample | src/audio/pitch_shifter.rs:141-156 | one loop iteration: store, process a frame when a hop is complete, emit the cleared output cell |
| PitchShifter.PitchShifter.ProcessBlock | src/audio/pitch_shifter.rs:140-157 | every sample in turn; one frame per completed hop of the whole stream; afterwards the block holds exactly the samples emitted, in order |
| Common.CastToUsize | src/ir/loader.rs:141-141 | Rust's float-to-usize cast: truncation toward zero, saturating at 0 and usize::MAX |
| Common.TruncDiv | src/sim/tuner.rs:97-97 | Rust's integer division rounds toward zero: the remainder a - q·b lies in [0, b) for a ≥ 0 and in (-b, 0] for a < 0, which fixes q |
| Common.RemEuclid | src/sim/tuner.rs:96-96 | rem_euclid lands in [0, 12) and differs from n by a multiple of 12 |
| Common.Round | src/sim/tuner.rs:90-90 | round half away from zero is within 1/2 of its argument |
| Common.NatToStringRoundTrip | src/midi/mod.rs:28-28 | decimal formatting of a number can be read back |
| Common.NatToStringInjective | src/midi/mod.rs:28-28 | distinct numbers format differently |
| Sorting.Sort | src/preset/manager.rs:49-49 | the stable sort returns a permutation of its input |
| Sorting.SortSorted | src/preset/manager.rs:49-49 | under a total preorder the sorted list is ordered |
| Sorting.LexIsTotalPreorder | src/preset/manager.rs:49-49 | String::cmp is a total preorder |

## Left out

- Audio and MIDI I/O, the JACK client, threads and channels: the model works on one block or one message at a time, handed in as a value.
- The MIDI manager's background thread: connect, disconnect, the device list and `try_recv` need a running MIDI stack. Only message parsing, mappings and the learn state are modelled.
- The GUI views (`view` functions, widgets, styling) draw pixels. Only their state and their update logic are modelled.
- Reading WAV files, decoding JSON and walking directories are parameters (`WavReader`, `DirScan`, `PresetDir`). Writing a preset file is a parameter that reports success or failure.
- f32 and f64 rounding, NaN and infinities: samples are exact reals.
- The transcendental functions are abstract. The model uses only the bounds and identities that `MathLib.Lawful` states.
- The FFT library's internals are abstract (`FftConvolver.Fft` with `FftLawful`). Its error results are modelled as `None`, taking the same path as the Rust `Err`.
- The pitch shifter's spectral core is the `PitchShifter.Vocoder` parameter: analysis, phase unwrapping, bin shifting, identity phase locking and the inverse transform. The framing, the rings, the overlap-add and the peak regions are concrete. The `expect` panics on FFT failure are not modelled.
- The cabinet's `latency` calls a convolver method the convolvers do not define, so it has no model.
- Metronome `start` has an empty body and no model.
- `StageConfig::to_runtime` and the per-kind `view` are not modelled. The typed per-kind config structs are flattened into a settings map (`map<string, Setting>`) with each kind's defaults in `Stages.DefaultSettings`, so a field's Rust type is not enforced. Only `StageType`'s display name goes through translation.
- The translation tables are modelled through four of their label fields. The rest are the same kind of lookup.
- The convolver's `num_tail_partitions` getter returns a field the model exposes directly.
- PresetManager.Manager.constructor: does not return the error of `create_dir_all` and does not propagate a `load_presets` error; it takes the directory's state as a value.
- PresetManager.Manager.SavePreset: a JSON serialisation failure is not modelled, because serialising a preset value is total here.
- DelayStage.DelayStage.constructor: requires a positive sample rate and a buffer length that fits in usize. Rust allocates whatever the f32-to-usize cast gives; a zero or negative rate makes that cast 0 and the ring useless.
- StageCommon.DcBlocker.constructor: requires a nonzero sample rate. Rust would divide by zero and store an infinite or NaN coefficient.
- MultibandSaturator.NewFilter: requires a nonzero sample rate, for the same reason as the DC blocker.
- MultibandSaturator.MultibandSaturatorStage.constructor: requires a nonzero sample rate, because it designs filters with NewFilter.
- MultibandSaturator.MultibandSaturatorStage.AsWritten: requires a nonzero sample rate, for the same reason.
- NoiseGate.NoiseGateStage.constructor: the ratio is a nonzero real. Rust would compute 1/0 = inf for the closed-gate gain.
- Tuner.InfoFor: uses the corrected `Tuner.Octave`, not the octave as written in `freq_to_note` (see Findings). Notes from B3 downwards, except the Cs, therefore read one octave lower than the Rust program shows them.
- Tuner.Tuner.GetTunerInfo: reads through `Tuner.InfoFor`, so it also uses the corrected octave (see Findings).
- Loader.ToFloats: scales integer samples with the corrected `Loader.IntScale`, not the i32 shift as written (see Findings). A 32-bit integer file therefore converts as intended.
- Loader.IrLoader.LoadIr: converts through `Loader.ToFloats`, so it also uses the corrected integer scale (see Findings).
- The frame conditions (`Valid`, `Repr`) express Rust's ownership and say nothing about behaviour. They are proof scaffolding, not properties of the source.

## Findings

| source | as written | input that shows it | evidently intended | confidence | as-written member | corrected member |
|---|---|---|---|---|---|---|
| src/sim/tuner.rs:97 | the octave is 4 plus the note number, offset by 9, divided by 12 with Rust's integer division, which truncates toward zero | note_number = -10 (B3, 246.9 Hz): (-10 + 9) / 12 truncates to 0, so the octave reads 4 and the display shows B4, the same as note_number = 2 | floor division, so notes below C4 fall into octave 3 and lower | high, not executed | Tuner.OctaveAsWrittenCollides | Tuner.NoteOctaveInjective |
| src/amp/stages/multiband_saturator.rs:153-180 | the constructor stores the clamped crossover frequencies but designs its filters from the unclamped arguments | low_freq = 10 Hz: the stage reports 50 Hz while its low-pass and mid high-pass filters are designed for 10 Hz | the filters are designed from the clamped values, as `set_parameter` does | high, not executed | MultibandSaturator.UnclampedCrossover | MultibandSaturator.ClampedCrossover |
| src/ir/loader.rs:54 | the integer full scale is 1 shifted left by bits - 1 in i32 arithmetic, then converted to f32 | bits = 32: 1 << 31 is i32::MIN = -2^31, so every sample's sign flips | 2^(bits-1) as a positive divisor, mapping the sample range onto [-1, 1) with its sign kept | high, not executed | Loader.IntScaleAsWrittenFlips32 | Loader.IntScaleKeepsRange |
