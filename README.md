# Ping-pong delay, modelled and verified in Dafny

This project models the engine of a stereo ping-pong delay audio effect,
and the sequential parts of the host adaptor that drives it.

The engine, `PingPongDelayUnit`, keeps two circular sample buffers of one
fixed size and a shared write cursor. Each call of `GetSample` does four things:

- It works out a delay length in samples. In asynchronous mode it uses
  milliseconds and the sample rate. In synchronised mode it uses the tempo
  and a table of beat ratios.
- It reads two wrapped indices, one and two delay lengths behind the cursor.
- It overwrites the cursor slot of each buffer with the fed-back input.
- It mixes a panned, wet/dry output and advances the cursor.

Five setters map parameters in [0, 1] onto the unit's working values:

- an integer bucket mapping for the milliseconds and the ratio index;
- a linear mapping for the feedback gain;
- complements for panorama and wet;
- an exact test against 0 for the synchronisation mode.

The adaptor, `PingPongDelayEffect`, does three things. It runs the unit over
the frames of a block, from the input channels into the output channels.
It dispatches parameters by index. It picks the value and the label the host
shows for each parameter.

The project has four modules, one per file:

- `UnitArith` (`unit_arith.dfy`) holds the integer and real helpers:
  - the C++ truncating `%` and float-to-int cast written out over unbounded numbers;
  - `BufferModulo`;
  - both `Corresponding` mappings;
  - the cursor step.
- `UnitModel` (`unit_model.dfy`) is the value-level model:
  - the constant tables;
  - the settings record and one pure function per setter;
  - the delay line as a datatype;
  - `Process`, one call of `GetSample`, and `ProcessFrames`, a block of such calls in order.

  All properties of the mixing and of blocks are proved here.
- `DelayUnit` (`delay_unit.dfy`) is the unit as a class with two `array<real>`
  buffers and mutable parameter fields. Every method is proved against the
  functions of `UnitModel`.
- `DelayEffect` (`delay_effect.dfy`) holds the adaptor:
  - the parameter indices and the default settings;
  - the dispatch functions and their properties;
  - a class that owns the unit and runs `processReplacing` as the source's
    `while (--sampleFrames >= 0)` loop over the arrays.

Samples and gains are `real`, and the sample arithmetic is linear. The three
`(int)` casts (`PingPongDelayUnit.cpp` lines 158, 166 and 426) are all of
non-negative floats, where they round down.

`BufferModulo` is written as the source writes it, with two truncating
remainders. It is proved equal to Dafny's Euclidean `%`, which the
value-level model uses for the read indices.

The host's time information is a `TimeInfo(sampleRate, tempo)` value passed
to `GetSample` and `ProcessReplacing`. The sample rate must be positive, and
in synchronised mode so must the tempo.

The constructor of the unit reads the primary panning quotient before any
assignment to it: the first `SetPanoramaParam` computes the secondary
quotient from it. The model makes that unknown value a constructor
parameter, `indeterminatePrimary`. `UnitModel.InitialSettingsConsistent` and
`UnitModel.PanningQuotientsIgnorePanorama` hold for every value it may have.
`UnitModel.PanningQuotientsAlternate` needs a primary quotient in [0, 1].
These lemmas state two consequences of the setter as written:

- the quotients never depend on the panorama set;
- once the primary quotient lies in [0, 1], the quotients alternate between
  two values from the second call on.

Each call maps a primary quotient p to p + 1/2 when p < 1/2, and to 3/2 - p
otherwise. From a primary outside [0, 1] the quotients do not alternate
straight away. From 5, for example, the primaries are -3.5, -3, -2.5, and so
on, rising by 1/2 until they reach [0, 1].

The comment at `PingPongDelayUnit.cpp:305-311` describes quotients that
depend on the panorama: a mono delayed signal at panorama 0 and 1, and
stereo panning at 1/2. The code at `PingPongDelayUnit.cpp:312-314` reads the
previous primary quotient and never the panorama, so it never behaves that
way. The model follows the code and does not guess at the intended formula.

Where descriptions of the effect differ from its code, the model follows the
code:

- The Sync parameter shows "Off" in asynchronous mode (sync value 0) and
  "On" otherwise, the intuitive polarity. It is not the reverse.
- Only Feedback shows a derived value, the gain. Panorama and Wet show their
  raw parameter values.
- Feedback 0 gives no echo at all, not a single repeat. The input reaches the
  buffers only multiplied by the feedback gain (`PingPongDelayUnit.cpp:174-175`).
  With that gain at 0, silent buffers stay silent and the output is the dry
  term alone (`UnitModel.NoEchoWithoutFeedback`,
  `UnitModel.FramesNoEchoWithoutFeedback`).

## Model

| member | source | states |
|---|---|---|
| UnitArith.CastToInt | PingPongDelayUnit.cpp:426 | the `(int)` conversion of a non-negative float, here and at lines 158 and 166, is its floor: a non-negative integer at most x and above x - 1 |
| UnitArith.CRem | PingPongDelayUnit.cpp:404 | a minus the C++ remainder is a multiple of n; the remainder is non-negative and below n for a non-negative dividend, and in (-n, 0] for a negative one |
| UnitArith.BufferModulo | PingPongDelayUnit.cpp:401-405 | the result is a valid buffer index and is the mathematical residue of the index modulo the size, negative indices included |
| UnitArith.ResidueOfStepBack | PingPongDelayUnit.cpp:170-171 | stepping d slots back from a valid slot and d slots forward again, modulo the size, returns to that slot |
| UnitArith.CorrespondingInt | PingPongDelayUnit.cpp:415-427 | models the integer mapping: parameter 1 gives max, any other parameter the cast of param * (max - min + 1) + min; its contract-level properties are the five lemmas below |
| UnitArith.CorrespondingIntBelowOne | PingPongDelayUnit.cpp:415-427 | for a parameter in [0, 1) the integer mapping is floor(param * (max - min + 1)) + min, which lies in [min, max] |
| UnitArith.CorrespondingIntInRange | PingPongDelayUnit.h:225-233 | every result lies in the closed interval [min, max]; parameter 1 gives exactly max and 0 gives min |
| UnitArith.CorrespondingIntMonotone | PingPongDelayUnit.cpp:422-426 | a larger parameter never maps to a smaller integer |
| UnitArith.CorrespondingIntOnto | PingPongDelayUnit.cpp:422-426 | each integer of [min, max] is reached from the lower edge of its equal-width bucket |
| UnitArith.CorrespondingReal | PingPongDelayUnit.cpp:437-441 | models the real mapping, (max - min) * param + min; its ends, monotonicity and range are the three lemmas below |
| UnitArith.CorrespondingRealEnds | PingPongDelayUnit.cpp:437-441 | the real mapping gives min at 0 and max at 1 |
| UnitArith.CorrespondingRealMonotone | PingPongDelayUnit.cpp:437-441 | the real mapping is monotone in the parameter when min <= max |
| UnitArith.CorrespondingRealInRange | PingPongDelayUnit.cpp:437-441 | for a parameter in [0, 1] the real mapping lies in [min, max] |
| UnitArith.NextCursor | PingPongDelayUnit.cpp:380-391 | models the cursor step: one slot on, or back to 0 from the last slot; the two lemmas below state what it computes |
| UnitArith.NextCursorIsSuccessorMod | PingPongDelayUnit.cpp:380-391 | the cursor step keeps a valid cursor valid and is the successor modulo the size, so the last slot goes to 0 |
| UnitArith.NextCursorOfResidue | PingPongDelayUnit.cpp:380-391 | stepping from the residue of a gives the residue of a + 1 |
| UnitModel.SyncDelayRatiosPositive | PingPongDelayUnit.cpp:45-50 | the ratio table has the declared count of entries, all positive |
| UnitModel.Consistent | PingPongDelayUnit.h:287-349 | the invariants the header documents: each derived field is the mapping of its raw value, panorama and wet have their complements, the two quotients sum to 1, and the mode is asynchronous exactly at sync 0; established by InitialSettingsConsistent and kept by the setter lemmas |
| UnitModel.WithDelayParam | PingPongDelayUnit.cpp:207-214 | models SetDelayParam on a settings value; DelayParamSetter states its effect |
| UnitModel.WithFeedbackParam | PingPongDelayUnit.cpp:258-262 | models SetFeedbackParam on a settings value; FeedbackParamSetter and FeedbackMonotone state its effect |
| UnitModel.WithPanoramaParam | PingPongDelayUnit.cpp:300-315 | models SetPanoramaParam on a settings value, the secondary quotient read from the previous primary; PanoramaParamSetter and the two quotient lemmas state its effect |
| UnitModel.WithWetParam | PingPongDelayUnit.cpp:336-341 | models SetWetParam on a settings value; WetParamSetter states its effect |
| UnitModel.WithSyncParam | PingPongDelayUnit.cpp:362-366 | models SetSyncParam on a settings value; SyncParamSetter states its effect |
| UnitModel.InitialSettings | PingPongDelayUnit.cpp:120-125 | models the constructor's five setter calls in order from unassigned fields; InitialSettingsConsistent states its effect |
| UnitModel.DelayParamSetter | PingPongDelayUnit.cpp:207-214 | after the delay setter the raw value is stored, the delay lies in [10, 2000] ms, the ratio index in [0, 6], the invariants hold and no other field changes |
| UnitModel.FeedbackParamSetter | PingPongDelayUnit.cpp:258-262 | after the feedback setter the raw value is stored, the gain lies in [0, 0.8] and is 0 at 0 and 0.8 at 1, the invariants hold and no other field changes |
| UnitModel.FeedbackMonotone | PingPongDelayUnit.cpp:258-262 | the feedback gain grows with the feedback parameter |
| UnitModel.PanoramaParamSetter | PingPongDelayUnit.cpp:300-315 | after the panorama setter the raw value is stored, panorama and complement sum to 1, the two panning quotients sum to 1, and no other field changes |
| UnitModel.WetParamSetter | PingPongDelayUnit.cpp:336-341 | after the wet setter the raw value is stored, wet and dry gains sum to 1 and no other field changes |
| UnitModel.SyncParamSetter | PingPongDelayUnit.cpp:362-366 | after the sync setter the raw value is stored, the unit is asynchronous exactly when the value is 0, and no other field changes |
| UnitModel.InitialSettingsConsistent | PingPongDelayUnit.cpp:120-125 | the five setters applied in the constructor's order store the five arguments and establish every documented invariant, whatever the unassigned quotient held |
| UnitModel.PanningQuotientsIgnorePanorama | PingPongDelayUnit.cpp:312-314 | the panning quotients left by the panorama setter do not depend on the panorama value set |
| UnitModel.PanningQuotientsAlternate | PingPongDelayUnit.cpp:312-314 | from a primary quotient in [0, 1] one panorama update leaves it in [1/2, 1], and every second update after that restores it |
| UnitModel.DelaySamples | PingPongDelayUnit.cpp:151-167 | models the delay length in both modes; DelayIsWholeSamples and ShortestAsyncDelayAt44100 state its value |
| UnitModel.SemiCursor | PingPongDelayUnit.cpp:170 | models the semi-delayed read index; ReadCursorsInBounds states its range and position |
| UnitModel.FullCursor | PingPongDelayUnit.cpp:171 | models the full-delayed read index; ReadCursorsInBounds states its range and position |
| UnitModel.FedBack | PingPongDelayUnit.cpp:173-175 | models the write of one buffer and keeps its length; ProcessWritesOnlyAtCursor, FedBackSilence and FedBackZeroGain state its effect |
| UnitModel.Mix | PingPongDelayUnit.cpp:177-184 | models the output mix; MixPanoramaSplitsWet and the Process lemmas state its properties |
| UnitModel.Process | PingPongDelayUnit.cpp:149-189 | models one GetSample call and keeps the delay line well formed and its size; the lemmas below state its effect |
| UnitModel.DelayIsWholeSamples | PingPongDelayUnit.cpp:151-167 | the delay length is the exact milliseconds-times-rate or samples-per-beat-times-ratio value rounded down, and is non-negative |
| UnitModel.ShortestAsyncDelayAt44100 | PingPongDelayUnit.cpp:155-158 | at 44.1 kHz the shortest asynchronous delay of 10 ms is 441 samples |
| UnitModel.ReadCursorsInBounds | PingPongDelayUnit.cpp:169-171 | both read indices are valid slots, one and two delay lengths behind the cursor modulo the size |
| UnitModel.ProcessWritesOnlyAtCursor | PingPongDelayUnit.cpp:170-187 | one call changes each buffer only at the old cursor, where it stores (input + full-delayed sample) * feedback, and moves the cursor on by one modulo the size |
| UnitModel.ProcessMovesCursor | PingPongDelayUnit.cpp:186-187 | one call moves the cursor by the cursor step, which is the successor of the old cursor modulo the buffer size |
| UnitModel.FedBackSilence | PingPongDelayUnit.cpp:173-175 | writing a fed-back zero input into a silent buffer leaves it silent |
| UnitModel.ProcessSilence | PingPongDelayUnit.cpp:173-184 | with silent buffers and a zero input the output is zero and both buffers stay silent |
| UnitModel.FedBackZeroGain | PingPongDelayUnit.cpp:173-175 | with the feedback gain at 0 a write into a silent buffer leaves it silent, whatever the input |
| UnitModel.NoEchoWithoutFeedback | PingPongDelayUnit.cpp:173-184 | with the feedback gain at 0 and silent buffers, the buffers stay silent and the output is the dry gain times the input |
| UnitModel.ProcessDryWhenWetZero | PingPongDelayUnit.cpp:177-184 | with the wet gain at 0 the output equals the input |
| UnitModel.ProcessPanoramaZero | PingPongDelayUnit.cpp:177-184 | with the panorama at 0 the left wet term reads only the semi-delayed slot and the right wet term only the full-delayed slot |
| UnitModel.ProcessPanoramaSplitsWet | PingPongDelayUnit.cpp:177-184 | for any panorama the two wet terms add up to the wet gain times both panned delayed reads: the panorama only distributes the wet signal |
| UnitModel.MixPanoramaSplitsWet | PingPongDelayUnit.cpp:177-184 | the same distribution property for the output mix on any buffer contents |
| UnitModel.ProcessFrames | PingPongDelayEffect.cpp:213-226 | models a block of n GetSample calls in frame order and gives n outputs per channel; the lemmas below state its effect |
| UnitModel.FramesAdvanceCursor | PingPongDelayEffect.cpp:213-226 | a block of n frames advances the cursor by n modulo the buffer size: one step per frame |
| UnitModel.BufferSizeFramesRestoreCursor | PingPongDelayUnit.cpp:380-391 | as many consecutive calls as the buffer has slots bring the cursor back to its start |
| UnitModel.FramesSilence | PingPongDelayEffect.cpp:213-226 | a silent block into silent buffers gives silent output channels and leaves the buffers silent |
| UnitModel.FramesDryWhenWetZero | PingPongDelayEffect.cpp:213-226 | with the wet gain at 0 a block's output channels are exactly its input channels |
| UnitModel.FramesSilentWithoutFeedback | PingPongDelayEffect.cpp:213-226 | with the feedback gain at 0, silent buffers stay silent over a whole block, whatever its input |
| UnitModel.LastFrameDry | PingPongDelayEffect.cpp:213-226 | with the feedback gain at 0 and silent buffers, the last output frame of a block is the dry gain times its input frame |
| UnitModel.FramesPrefix | PingPongDelayEffect.cpp:213-226 | a block is causal: the outputs of its first m frames are those of the block of m frames alone |
| UnitModel.FramesNoEchoWithoutFeedback | PingPongDelayEffect.cpp:213-226 | with the feedback gain at 0 and silent buffers, every output frame m of a block is the dry gain times input frame m, and the buffers stay silent |
| DelayUnit.PingPongDelayUnit.constructor | PingPongDelayUnit.cpp:107-126 | the buffers are fresh, zeroed and of the given size, the cursor is 0, the settings are the five setters applied in order, and the invariant holds |
| DelayUnit.PingPongDelayUnit.GetSample | PingPongDelayUnit.cpp:149-189 | the new buffers, cursor and returned sample are the value-level step for the old state and the current delay length; the parameter fields are unchanged |
| DelayUnit.PingPongDelayUnit.DelaySamplesNow | PingPongDelayUnit.cpp:151-167 | the computed delay equals the value-level delay length for the current settings |
| DelayUnit.PingPongDelayUnit.WriteFedBack | PingPongDelayUnit.cpp:173-175 | each buffer gets the fed-back input at the cursor and nothing else changes |
| DelayUnit.PingPongDelayUnit.MixNow | PingPongDelayUnit.cpp:177-184 | the returned sample is the value-level mix of the buffers as they are after the write |
| DelayUnit.PingPongDelayUnit.IncrementBufferCursor | PingPongDelayUnit.cpp:380-391 | the cursor becomes its successor modulo the buffer size and stays valid |
| DelayUnit.PingPongDelayUnit.GetDelayParam | PingPongDelayUnit.cpp:195-198 | returns the stored raw delay value, which lies in [0, 1] |
| DelayUnit.PingPongDelayUnit.SetDelayParam | PingPongDelayUnit.cpp:207-214 | the settings become the value-level delay setter's result, the cursor is unchanged and the invariant is kept |
| DelayUnit.PingPongDelayUnit.GetAsyncDelayMs | PingPongDelayUnit.h:101-106 | returns the stored milliseconds, in [10, 2000], whatever the mode |
| DelayUnit.PingPongDelayUnit.GetSyncDelayRatio | PingPongDelayUnit.h:108-113 | the ratio index is in bounds and the stored ratio's string is returned whatever the mode |
| DelayUnit.PingPongDelayUnit.GetFeedbackParam | PingPongDelayUnit.cpp:244-247 | returns the stored raw feedback value, which lies in [0, 1] |
| DelayUnit.PingPongDelayUnit.SetFeedbackParam | PingPongDelayUnit.cpp:258-262 | the settings become the value-level feedback setter's result, the cursor is unchanged and the invariant is kept |
| DelayUnit.PingPongDelayUnit.GetFeedback | PingPongDelayUnit.cpp:269-272 | returns the derived gain, which lies in [0, 0.8] |
| DelayUnit.PingPongDelayUnit.GetPanoramaParam | PingPongDelayUnit.cpp:284-287 | returns the stored raw panorama value, which lies in [0, 1] |
| DelayUnit.PingPongDelayUnit.SetPanoramaParam | PingPongDelayUnit.cpp:300-315 | the settings become the value-level panorama setter's result, the quotients coming from the previous primary; the cursor is unchanged and the invariant is kept |
| DelayUnit.PingPongDelayUnit.GetWetParam | PingPongDelayUnit.cpp:323-326 | returns the stored raw wet value, which lies in [0, 1] |
| DelayUnit.PingPongDelayUnit.SetWetParam | PingPongDelayUnit.cpp:336-341 | the settings become the value-level wet setter's result, the cursor is unchanged and the invariant is kept |
| DelayUnit.PingPongDelayUnit.GetSyncParam | PingPongDelayUnit.cpp:350-353 | returns the stored raw sync value, which lies in [0, 1] |
| DelayUnit.PingPongDelayUnit.SetSyncParam | PingPongDelayUnit.cpp:362-366 | the settings become the value-level sync setter's result, the cursor is unchanged and the invariant is kept |
| DelayUnit.PingPongDelayUnit.IsAsync | PingPongDelayUnit.cpp:372-375 | the unit is asynchronous exactly when the stored sync value is 0 |
| DelayEffect.SetParameterOf | PingPongDelayEffect.cpp:255-278 | models setParameter's dispatch on a settings value; SetThenGetParameter states its effect |
| DelayEffect.ParameterValue | PingPongDelayEffect.cpp:292-318 | models getParameter's dispatch; SetThenGetParameter and ParameterValueInRange state its value |
| DelayEffect.DisplayOf | PingPongDelayEffect.cpp:397-435 | models getParameterDisplay's choice of value; the display lemmas below state it |
| DelayEffect.LabelOf | PingPongDelayEffect.cpp:358-389 | models getParameterLabel's choice of label; DelayDisplayFollowsMode and DisplayAndLabelForParametersOnly state it |
| DelayEffect.ParameterName | PingPongDelayEffect.cpp:326-350 | a name exists exactly for the five parameter indices |
| DelayEffect.SetThenGetParameter | PingPongDelayEffect.cpp:255-318 | setting a parameter keeps the invariants, makes getParameter return the value set, leaves every other raw value unchanged, and an index that is not a parameter changes nothing |
| DelayEffect.ParameterValueInRange | PingPongDelayEffect.cpp:292-318 | every parameter reads as a value in [0, 1], and any other index reads as 0 |
| DelayEffect.DelayDisplayFollowsMode | PingPongDelayEffect.cpp:358-410 | the Delay parameter shows milliseconds in [10, 2000] with the "ms" label exactly when the sync value is 0, and otherwise a ratio string with the "ratio" label |
| DelayEffect.SyncDisplayFollowsMode | PingPongDelayEffect.cpp:424-433 | the Sync parameter shows "Off" exactly when its raw value is 0 and "On" exactly when it is not |
| DelayEffect.NumberDisplays | PingPongDelayEffect.cpp:412-422 | Feedback shows the derived gain, 0.8 times the raw value, not the raw value; Panorama and Wet show their raw values |
| DelayEffect.DisplayAndLabelForParametersOnly | PingPongDelayEffect.cpp:358-435 | a label and a display value exist exactly for the five parameter indices |
| DelayEffect.DefaultSettings | PingPongDelayEffect.cpp:31-56 | the default settings are consistent and asynchronous, with a 1602 ms delay, ratio index 5 ("3/2"), feedback gain 0.2, dry gain 0.75 and panorama complement 1 |
| DelayEffect.PingPongDelayEffect.constructor | PingPongDelayEffect.cpp:167-175 | the effect owns a fresh unit of 300000 zeroed slots, cursor 0, the default settings and asynchronous mode |
| DelayEffect.PingPongDelayEffect.ProcessReplacing | PingPongDelayEffect.cpp:206-227 | the loop makes one GetSample call per frame, sampleFrames calls when that is positive and none otherwise; each output channel holds the block's outputs for those frames, in order, followed by its old contents; the unit's buffers and cursor are those the block leaves, the cursor having moved on by that many frames modulo the unit's size; the settings are unchanged; input and output channels may be the same arrays |
| DelayEffect.PingPongDelayEffect.ProcessFrame | PingPongDelayEffect.cpp:215-220 | one frame replaces only slot i of each output channel with the value-level step's output for input frame i, and the unit moves to the step's delay line |
| DelayEffect.PingPongDelayEffect.SetParameter | PingPongDelayEffect.cpp:255-278 | the unit's settings become the value-level dispatch's result and its buffers and cursor are unchanged |
| DelayEffect.PingPongDelayEffect.GetParameter | PingPongDelayEffect.cpp:292-318 | the value read through the unit's getters is the dispatch on the unit's settings |
| DelayEffect.PingPongDelayEffect.GetParameterDisplay | PingPongDelayEffect.cpp:397-435 | the display read through the unit's getters is the display chosen from the unit's settings |
| DelayEffect.PingPongDelayEffect.GetParameterLabel | PingPongDelayEffect.cpp:358-389 | the label chosen through the unit's mode is the label chosen from the unit's settings |

## Left out

- Floating point: samples, gains and parameters are exact reals. Single-precision rounding is not modelled, so 0.8f is 0.8 and 1.0f / 3.0f is 1/3.
- UnitModel.ShortestAsyncDelayAt44100: over reals 10 * 44.1 is exactly 441. In single precision 44100.0f / 1000 is 44.09999847412109375, ten times that is 440.9999847412109375, and 441 comes out only because that product rounds to the float 441.0f (a tie, broken to even). The model does not capture this dependence on single-precision rounding.
- Integer width: `int` and `VstInt32` are unbounded. An `asyncDelayMs_ * msSamples` or `delaySamples * 2` that overflows 32 bits is not modelled. The `(int)` casts are applied to non-negative values only, where they round down.
- UnitArith.CorrespondingInt: requires `0 <= min <= max`, the only bounds the unit passes (10..2000 and 0..6). For a negative `min` the C++ cast rounds toward zero rather than down, and that case is not modelled.
- DelayUnit.PingPongDelayUnit.GetSample: takes the host's time information as an immutable `TimeInfo` with a positive sample rate and, in synchronised mode, a positive tempo, instead of reading a host-owned `VstTimeInfo*` that may change between calls.
- DelayEffect.PingPongDelayEffect.ProcessReplacing: requires the two output channels to be different arrays. The source, given one array for both, would keep the right sample in each slot; that case is not modelled.
- DelayEffect.PingPongDelayEffect.ProcessReplacing and DelayEffect.PingPongDelayEffect.ProcessFrame: require the channels to be arrays other than the unit's own buffers, which the unit never hands out.
- DelayEffect.PingPongDelayEffect.SetParameter: the `editor->setParameter` notification at PingPongDelayEffect.cpp:280-283 belongs to the editor, which is not part of this model.
- DelayEffect.PingPongDelayEffect.GetParameterDisplay: `int2string`, `float2string` and `vst_strncpy` are SDK formatting calls. The display is the `Display` value they would format, not text.
- DelayEffect.ParameterName: `getParameterName` writes through `vst_strncpy`; the model returns the name itself.
- The editor and the host factory entry point: they are user interface and SDK glue. So are the program name, vendor and product strings, version and plugin category of the effect, and the `setNumInputs`/`setUniqueID`/`canProcessReplacing` calls in the effect's constructor.
- Memory management: allocation, `memset` and destruction of the buffers become a constructor postcondition of fresh, zeroed arrays.
- Concurrency: host-thread setters running beside the audio callback are not modelled; every call is sequential.
- The unassigned primary panning quotient read by the first `SetPanoramaParam` is an arbitrary constructor argument. The model does not invent a formula for it.
