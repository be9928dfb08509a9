/**
 * The host adaptor around the delay unit: the per-frame processing loop,
 * parameter dispatch by index, and the mode-dependent display values and
 * labels the host shows for each parameter.
 */
module DelayEffect {
  import opened UnitArith
  import opened UnitModel
  import opened DelayUnit

  datatype Option<T> = None | Some(value: T)

  // Parameter indices, in the order of the parameter enum.
  const DelayParam: int := 0
  const FeedbackParam: int := 1
  const PanoramaParam: int := 2
  const WetParam: int := 3
  const SyncParam: int := 4
  const NumParams: int := 5

  // The initial settings of the unit.
  const DefaultUnitBufferSize: int := 300000
  const DefaultDelayParam: real := 0.8
  const DefaultFeedbackParam: real := 0.25
  const DefaultPanoramaParam: real := 0.0
  const DefaultWetParam: real := 0.25
  const DefaultSyncParam: real := 0.0

  // Parameter names, units and the two states of the Sync parameter.
  const DelayParamName: string := "Delay"
  const FeedbackParamName: string := "Feedback"
  const PanoramaParamName: string := "Panorama"
  const WetParamName: string := "Wet"
  const SyncParamName: string := "Sync"
  const MsLabel: string := "ms"
  const RatioLabel: string := "ratio"
  const StateLabel: string := "state"
  const OffLabel: string := "Off"
  const OnLabel: string := "On"

  /**
   * What the host is shown for a parameter, before formatting: a whole
   * number of milliseconds, a ratio string, a number, a state string, or
   * nothing for an index that is not a parameter.
   */
  datatype Display = Milliseconds(ms: int) | RatioText(ratio: string) | Number(value: real) | StateText(state: string) | NoDisplay

  predicate IsParameter(index: int) {
    0 <= index < NumParams
  }

  // ---------------------------------------------------------------------
  // Parameter dispatch on settings values

  /** `setParameter`: the setter of the indexed parameter; any other index changes nothing. */
  function SetParameterOf(s: UnitSettings, index: int, value: real): UnitSettings
    requires IsParameter(index) ==> InUnitInterval(value)
  {
    if index == DelayParam then WithDelayParam(s, value)
    else if index == FeedbackParam then WithFeedbackParam(s, value)
    else if index == PanoramaParam then WithPanoramaParam(s, value)
    else if index == WetParam then WithWetParam(s, value)
    else if index == SyncParam then WithSyncParam(s, value)
    else s
  }

  /** `getParameter`: the raw value of the indexed parameter, 0 for any other index. */
  function ParameterValue(s: UnitSettings, index: int): real {
    if index == DelayParam then s.delayParam
    else if index == FeedbackParam then s.feedbackParam
    else if index == PanoramaParam then s.panoramaParam
    else if index == WetParam then s.wetParam
    else if index == SyncParam then s.syncParam
    else 0.0
  }

  /** `getParameterDisplay`: the derived value the host shows for the indexed parameter. */
  function DisplayOf(s: UnitSettings, index: int): Display
    requires Consistent(s)
  {
    if index == DelayParam then
      if s.isAsync then Milliseconds(s.asyncDelayMs) else RatioText(SyncDelayRatioStrings[s.syncDelayRatioIndex])
    else if index == FeedbackParam then Number(s.feedback)
    else if index == PanoramaParam then Number(s.panoramaParam)
    else if index == WetParam then Number(s.wetParam)
    else if index == SyncParam then StateText(if s.isAsync then OffLabel else OnLabel)
    else NoDisplay
  }

  /** `getParameterLabel`: the unit shown beside the indexed parameter; nothing for any other index. */
  function LabelOf(s: UnitSettings, index: int): Option<string> {
    if index == DelayParam then Some(if s.isAsync then MsLabel else RatioLabel)
    else if index == FeedbackParam || index == PanoramaParam || index == WetParam then Some(RatioLabel)
    else if index == SyncParam then Some(StateLabel)
    else None
  }

  /** `getParameterName`: the name of the indexed parameter; nothing for any other index. */
  function ParameterName(index: int): (r: Option<string>)
    ensures r.Some? <==> IsParameter(index)
  {
    if index == DelayParam then Some(DelayParamName)
    else if index == FeedbackParam then Some(FeedbackParamName)
    else if index == PanoramaParam then Some(PanoramaParamName)
    else if index == WetParam then Some(WetParamName)
    else if index == SyncParam then Some(SyncParamName)
    else None
  }

  // ---------------------------------------------------------------------
  // Properties of the dispatch

  /**
   * Setting a parameter keeps the settings consistent, makes `getParameter`
   * return the value set, and leaves the raw value of every other parameter
   * as it was; an index that is not a parameter changes nothing.
   */
  lemma SetThenGetParameter(s: UnitSettings, index: int, value: real)
    requires Consistent(s)
    requires IsParameter(index) ==> InUnitInterval(value)
    ensures var r := SetParameterOf(s, index, value);
      && Consistent(r)
      && (IsParameter(index) ==> ParameterValue(r, index) == value)
      && (!IsParameter(index) ==> r == s)
      && (forall j :: j != index ==> ParameterValue(r, j) == ParameterValue(s, j))
  {
    if index == DelayParam {
      DelayParamSetter(s, value);
    } else if index == FeedbackParam {
      FeedbackParamSetter(s, value);
    } else if index == PanoramaParam {
      PanoramaParamSetter(s, value);
    } else if index == WetParam {
      WetParamSetter(s, value);
    } else if index == SyncParam {
      SyncParamSetter(s, value);
    }
  }

  /** Every parameter's raw value lies in [0, 1]; any other index reads as 0. */
  lemma ParameterValueInRange(s: UnitSettings, index: int)
    requires Consistent(s)
    ensures InUnitInterval(ParameterValue(s, index))
    ensures !IsParameter(index) ==> ParameterValue(s, index) == 0.0
  {
  }

  // ---------------------------------------------------------------------
  // Properties of the display and the labels

  /**
   * The Delay parameter shows whole milliseconds in [10, 2000], with the
   * "ms" label, exactly when the unit is asynchronous, that is when the
   * raw Sync value is 0; otherwise it shows one of the ratio strings,
   * with the "ratio" label.
   */
  lemma DelayDisplayFollowsMode(s: UnitSettings)
    requires Consistent(s)
    ensures DisplayOf(s, DelayParam).Milliseconds? <==> s.syncParam == 0.0
    ensures DisplayOf(s, DelayParam).Milliseconds? <==> LabelOf(s, DelayParam) == Some(MsLabel)
    ensures DisplayOf(s, DelayParam).Milliseconds? ==>
      MinAsyncDelayMs <= DisplayOf(s, DelayParam).ms <= MaxAsyncDelayMs
    ensures DisplayOf(s, DelayParam).RatioText? ==>
      DisplayOf(s, DelayParam).ratio in SyncDelayRatioStrings && LabelOf(s, DelayParam) == Some(RatioLabel)
  {
  }

  /** The Sync parameter shows "Off" exactly when its raw value is 0, and "On" otherwise. */
  lemma SyncDisplayFollowsMode(s: UnitSettings)
    requires Consistent(s)
    ensures DisplayOf(s, SyncParam) == StateText(OffLabel) <==> s.syncParam == 0.0
    ensures DisplayOf(s, SyncParam) == StateText(OnLabel) <==> s.syncParam != 0.0
  {
  }

  /**
   * The Feedback parameter shows the derived gain, 0.8 times the raw value,
   * in [0, 0.8]; Panorama and Wet show their raw values.
   */
  lemma NumberDisplays(s: UnitSettings)
    requires Consistent(s)
    ensures DisplayOf(s, FeedbackParam) == Number(MaxFeedback * ParameterValue(s, FeedbackParam))
    ensures MinFeedback <= DisplayOf(s, FeedbackParam).value <= MaxFeedback
    ensures DisplayOf(s, PanoramaParam) == Number(ParameterValue(s, PanoramaParam))
    ensures DisplayOf(s, WetParam) == Number(ParameterValue(s, WetParam))
  {
  }

  /** A label and a display value exist for exactly the five parameters. */
  lemma DisplayAndLabelForParametersOnly(s: UnitSettings, index: int)
    requires Consistent(s)
    ensures LabelOf(s, index).Some? <==> IsParameter(index)
    ensures DisplayOf(s, index).NoDisplay? <==> !IsParameter(index)
  {
  }

  // ---------------------------------------------------------------------
  // The initial settings

  /**
   * With the defaults the unit starts asynchronous with a 1602 ms delay,
   * ratio index 5 ("3/2") held for synchronised mode, feedback gain 0.2
   * and dry gain 0.75.
   */
  lemma DefaultSettings(indeterminatePrimary: real)
    ensures var s := InitialSettings(indeterminatePrimary, DefaultDelayParam, DefaultFeedbackParam,
                                     DefaultPanoramaParam, DefaultWetParam, DefaultSyncParam);
      && Consistent(s)
      && s.isAsync
      && s.asyncDelayMs == 1602
      && s.syncDelayRatioIndex == 5 && SyncDelayRatioStrings[s.syncDelayRatioIndex] == "3/2"
      && s.feedback == 0.2
      && s.wetParamC == 0.75
      && s.panoramaParamC == 1.0
  {
    InitialSettingsConsistent(indeterminatePrimary, DefaultDelayParam, DefaultFeedbackParam,
                              DefaultPanoramaParam, DefaultWetParam, DefaultSyncParam);
    CorrespondingIntBelowOne(DefaultDelayParam, MinAsyncDelayMs, MaxAsyncDelayMs);
    CorrespondingIntBelowOne(DefaultDelayParam, 0, SyncDelayRatioCount - 1);
    assert (0.8 * 1991.0).Floor == 1592;
    assert (0.8 * 7.0).Floor == 5;
  }

  /** The number of frames a call of `processReplacing` handles: `sampleFrames`, or none when it is not positive. */
  function Frames(sampleFrames: int): nat {
    if sampleFrames > 0 then sampleFrames else 0
  }

  /** Once the first `|done|` slots of a channel are replaced, its next slot still holds the original value. */
  lemma UnreadInput(current: seq<real>, done: seq<real>, original: seq<real>)
    requires |done| < |original| && current == done + original[|done|..]
    ensures current[|done|] == original[|done|]
  {
  }

  /** Replacing the next slot of a partly replaced channel extends the replaced part by one. */
  lemma ReplaceNext(done: seq<real>, original: seq<real>, x: real)
    requires |done| < |original|
    ensures (done + original[|done|..])[|done| := x] == (done + [x]) + original[|done| + 1..]
  {
  }

  // ---------------------------------------------------------------------
  // The effect

  class PingPongDelayEffect {
    const unit: PingPongDelayUnit

    predicate Valid()
      reads this, unit
    {
      unit.Valid()
    }

    /**
     * The constructor: a unit of 300000 slots with the default settings.
     * `indeterminatePrimary` is the unit's unassigned primary panning
     * quotient before its first panorama update.
     */
    constructor (indeterminatePrimary: real)
      ensures Valid()
      ensures fresh(unit) && fresh(unit.leftBuffer) && fresh(unit.rightBuffer)
      ensures unit.bufferSize == DefaultUnitBufferSize && unit.bufferCursor == 0
      ensures Silent(unit.leftBuffer[..]) && Silent(unit.rightBuffer[..])
      ensures unit.Settings() == InitialSettings(indeterminatePrimary, DefaultDelayParam, DefaultFeedbackParam,
                                                 DefaultPanoramaParam, DefaultWetParam, DefaultSyncParam)
      ensures unit.IsAsync()
    {
      unit := new PingPongDelayUnit(DefaultUnitBufferSize, DefaultDelayParam, DefaultFeedbackParam,
                                    DefaultPanoramaParam, DefaultWetParam, DefaultSyncParam, indeterminatePrimary);
      DefaultSettings(indeterminatePrimary);
    }

    /**
     * `processReplacing`: runs the unit over the first `sampleFrames` frames
     * of the input channels in order and writes each returned sample to the
     * same frame of the output channels. The input and output channels may
     * be the same arrays; the two output channels must differ.
     */
    method ProcessReplacing(leftInput: array<real>, rightInput: array<real>,
                            leftOutput: array<real>, rightOutput: array<real>,
                            sampleFrames: int, t: TimeInfo)
      requires Valid() && ValidTimeInfo(unit.Settings(), t)
      requires Frames(sampleFrames) <= leftInput.Length && Frames(sampleFrames) <= rightInput.Length
      requires Frames(sampleFrames) <= leftOutput.Length && Frames(sampleFrames) <= rightOutput.Length
      requires leftOutput != rightOutput
      requires leftInput != unit.leftBuffer && leftInput != unit.rightBuffer
      requires rightInput != unit.leftBuffer && rightInput != unit.rightBuffer
      requires leftOutput != unit.leftBuffer && leftOutput != unit.rightBuffer
      requires rightOutput != unit.leftBuffer && rightOutput != unit.rightBuffer
      modifies leftOutput, rightOutput, unit`bufferCursor, unit.leftBuffer, unit.rightBuffer
      ensures Valid()
      ensures unit.Settings() == old(unit.Settings())
      ensures var frames := Frames(sampleFrames);
        var block := ProcessFrames(old(unit.Settings()), old(unit.Line()),
                                   old(leftInput[..]), old(rightInput[..]), frames, DelaySamples(old(unit.Settings()), t));
        && leftOutput[..] == block.left + old(leftOutput[..])[frames..]
        && rightOutput[..] == block.right + old(rightOutput[..])[frames..]
        && unit.Line() == block.line
      ensures unit.bufferCursor == (old(unit.bufferCursor) + Frames(sampleFrames)) % unit.bufferSize
    {
      ghost var frames := Frames(sampleFrames);
      ghost var settings, line := unit.Settings(), unit.Line();
      ghost var ls, rs := leftInput[..], rightInput[..];
      ghost var lo, ro := leftOutput[..], rightOutput[..];
      ghost var delay := DelaySamples(settings, t);
      var i := 0;
      var remaining := sampleFrames - 1;
      while remaining >= 0
        invariant 0 <= i <= frames
        invariant remaining == sampleFrames - 1 - i
        invariant unit.Valid() && unit.Settings() == settings
        invariant var block := ProcessFrames(settings, line, ls, rs, i, delay);
          && leftOutput[..] == block.left + lo[i..]
          && rightOutput[..] == block.right + ro[i..]
          && unit.Line() == block.line
        decreases remaining
      {
        ghost var before := ProcessFrames(settings, line, ls, rs, i, delay);
        assert leftInput[i] == ls[i] by {
          if leftInput == leftOutput {
            UnreadInput(leftOutput[..], before.left, lo);
          } else if leftInput == rightOutput {
            UnreadInput(rightOutput[..], before.right, ro);
          }
        }
        assert rightInput[i] == rs[i] by {
          if rightInput == leftOutput {
            UnreadInput(leftOutput[..], before.left, lo);
          } else if rightInput == rightOutput {
            UnreadInput(rightOutput[..], before.right, ro);
          }
        }
        ProcessFrame(leftInput, rightInput, leftOutput, rightOutput, i, t);
        ReplaceNext(before.left, lo, leftOutput[i]);
        ReplaceNext(before.right, ro, rightOutput[i]);
        i := i + 1;
        remaining := remaining - 1;
      }
      assert i == frames;
      assert ls == old(leftInput[..]) && rs == old(rightInput[..]);
      assert lo == old(leftOutput[..]) && ro == old(rightOutput[..]);
      FramesAdvanceCursor(settings, line, ls, rs, frames, delay);
    }

    /** One frame of the loop of `processReplacing`: input frame `i` through the unit into output frame `i`. */
    method ProcessFrame(leftInput: array<real>, rightInput: array<real>,
                        leftOutput: array<real>, rightOutput: array<real>,
                        i: nat, t: TimeInfo)
      requires Valid() && ValidTimeInfo(unit.Settings(), t)
      requires i < leftInput.Length && i < rightInput.Length
      requires i < leftOutput.Length && i < rightOutput.Length
      requires leftOutput != rightOutput
      requires leftOutput != unit.leftBuffer && leftOutput != unit.rightBuffer
      requires rightOutput != unit.leftBuffer && rightOutput != unit.rightBuffer
      modifies leftOutput, rightOutput, unit`bufferCursor, unit.leftBuffer, unit.rightBuffer
      ensures Valid() && unit.Settings() == old(unit.Settings())
      ensures var step := Process(old(unit.Settings()), old(unit.Line()),
                                  StereoSample(old(leftInput[i]), old(rightInput[i])),
                                  DelaySamples(old(unit.Settings()), t));
        && unit.Line() == step.line
        && leftOutput[..] == old(leftOutput[..])[i := step.output.left]
        && rightOutput[..] == old(rightOutput[..])[i := step.output.right]
    {
      var stereoSample := unit.GetSample(StereoSample(leftInput[i], rightInput[i]), t);
      leftOutput[i] := stereoSample.left;
      rightOutput[i] := stereoSample.right;
    }

    /** `setParameter`: applies the setter of the indexed parameter to the unit; any other index changes nothing. */
    method SetParameter(index: int, value: real)
      requires Valid()
      requires IsParameter(index) ==> InUnitInterval(value)
      modifies unit
      ensures Valid()
      ensures unit.Settings() == SetParameterOf(old(unit.Settings()), index, value)
      ensures unit.Line() == old(unit.Line())
    {
      if index == DelayParam {
        unit.SetDelayParam(value);
      } else if index == FeedbackParam {
        unit.SetFeedbackParam(value);
      } else if index == PanoramaParam {
        unit.SetPanoramaParam(value);
      } else if index == WetParam {
        unit.SetWetParam(value);
      } else if index == SyncParam {
        unit.SetSyncParam(value);
      }
    }

    /** `getParameter`: the raw value of the indexed parameter, read through the unit's getters. */
    function GetParameter(index: int): (r: real)
      reads this, unit
      requires Valid()
      ensures r == ParameterValue(unit.Settings(), index)
    {
      if index == DelayParam then unit.GetDelayParam()
      else if index == FeedbackParam then unit.GetFeedbackParam()
      else if index == PanoramaParam then unit.GetPanoramaParam()
      else if index == WetParam then unit.GetWetParam()
      else if index == SyncParam then unit.GetSyncParam()
      else 0.0
    }

    /** `getParameterDisplay`: the value shown for the indexed parameter, read through the unit's getters. */
    function GetParameterDisplay(index: int): (r: Display)
      reads this, unit
      requires Valid()
      ensures r == DisplayOf(unit.Settings(), index)
    {
      if index == DelayParam then
        if unit.IsAsync() then Milliseconds(unit.GetAsyncDelayMs()) else RatioText(unit.GetSyncDelayRatio())
      else if index == FeedbackParam then Number(unit.GetFeedback())
      else if index == PanoramaParam then Number(unit.GetPanoramaParam())
      else if index == WetParam then Number(unit.GetWetParam())
      else if index == SyncParam then StateText(if unit.IsAsync() then OffLabel else OnLabel)
      else NoDisplay
    }

    /** `getParameterLabel`: the unit label of the indexed parameter, read through the unit's mode. */
    function GetParameterLabel(index: int): (r: Option<string>)
      reads this, unit
      requires Valid()
      ensures r == LabelOf(unit.Settings(), index)
    {
      if index == DelayParam then Some(if unit.IsAsync() then MsLabel else RatioLabel)
      else if index == FeedbackParam || index == PanoramaParam || index == WetParam then Some(RatioLabel)
      else if index == SyncParam then Some(StateLabel)
      else None
    }
  }
}
