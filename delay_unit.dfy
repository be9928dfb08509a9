/**
 * The ping-pong delay unit as the stateful object it is: two circular
 * sample buffers of one fixed size, a shared write cursor, the five raw
 * parameters and the fields derived from them. Every method is tied to the
 * value-level model in module UnitModel.
 */
module DelayUnit {
  import opened UnitArith
  import opened UnitModel

  class PingPongDelayUnit {
    const bufferSize: int
    const leftBuffer: array<real>
    const rightBuffer: array<real>

    var delayParam: real
    var feedbackParam: real
    var panoramaParam: real
    var wetParam: real
    var syncParam: real

    var asyncDelayMs: int
    var syncDelayRatioIndex: int
    var feedback: real
    var panoramaParamC: real
    var primaryPanningQuotient: real
    var secondaryPanningQuotient: real
    var wetParamC: real
    var isAsync: bool

    var bufferCursor: int

    /** The parameter fields as one value. */
    function Settings(): UnitSettings
      reads this
    {
      UnitSettings(delayParam, feedbackParam, panoramaParam, wetParam, syncParam,
                   asyncDelayMs, syncDelayRatioIndex, feedback, panoramaParamC,
                   primaryPanningQuotient, secondaryPanningQuotient, wetParamC, isAsync)
    }

    /** The buffers and the cursor as one value. */
    ghost function Line(): DelayLine
      reads this, leftBuffer, rightBuffer
    {
      DelayLine(leftBuffer[..], rightBuffer[..], bufferCursor)
    }

    /** The object invariant: the buffer layout, the cursor bound and the documented parameter invariants. */
    predicate Valid()
      reads this
    {
      && bufferSize > 3
      && leftBuffer.Length == bufferSize && rightBuffer.Length == bufferSize
      && leftBuffer != rightBuffer
      && 0 <= bufferCursor < bufferSize
      && Consistent(Settings())
    }

    /**
     * The constructor: zeroed buffers, cursor 0, and the five setters applied
     * in order. `indeterminatePrimary` stands for whatever the primary panning
     * quotient holds before it is first assigned, since the first
     * `SetPanoramaParam` reads it.
     */
    constructor (bufferSize: int, delayParam: real, feedbackParam: real, panoramaParam: real,
                 wetParam: real, syncParam: real, indeterminatePrimary: real)
      requires bufferSize > 3
      requires InUnitInterval(delayParam) && InUnitInterval(feedbackParam)
      requires InUnitInterval(panoramaParam) && InUnitInterval(wetParam) && InUnitInterval(syncParam)
      ensures Valid()
      ensures fresh(leftBuffer) && fresh(rightBuffer)
      ensures this.bufferSize == bufferSize && bufferCursor == 0
      ensures Silent(leftBuffer[..]) && Silent(rightBuffer[..])
      ensures Settings() == InitialSettings(indeterminatePrimary, delayParam, feedbackParam,
                                            panoramaParam, wetParam, syncParam)
    {
      this.bufferSize := bufferSize;
      leftBuffer := new real[bufferSize](_ => 0.0);
      rightBuffer := new real[bufferSize](_ => 0.0);
      bufferCursor := 0;
      primaryPanningQuotient := indeterminatePrimary;
      new;
      SetDelayParam(delayParam);
      SetFeedbackParam(feedbackParam);
      SetPanoramaParam(panoramaParam);
      SetWetParam(wetParam);
      SetSyncParam(syncParam);
      InitialSettingsConsistent(indeterminatePrimary, delayParam, feedbackParam,
                                panoramaParam, wetParam, syncParam);
    }

    /**
     * Processes one stereo sample: writes the fed-back input at the cursor of
     * both buffers, mixes the output from the semi- and full-delayed slots and
     * advances the cursor. Everything but the two written slots and the
     * cursor stays as it was.
     */
    method GetSample(input: StereoSample, t: TimeInfo) returns (output: StereoSample)
      requires Valid() && ValidTimeInfo(Settings(), t)
      modifies this`bufferCursor, leftBuffer, rightBuffer
      ensures Valid()
      ensures Step(Line(), output) == Process(old(Settings()), old(Line()), input, DelaySamples(old(Settings()), t))
      ensures Settings() == old(Settings())
    {
      var delaySamples := DelaySamplesNow(t);
      var semiDelayedCursor := BufferModulo(bufferCursor - delaySamples, bufferSize);
      var fullDelayedCursor := BufferModulo(bufferCursor - (delaySamples * 2), bufferSize);
      WriteFedBack(input.left, input.right, fullDelayedCursor);
      output := MixNow(input, semiDelayedCursor, fullDelayedCursor);
      IncrementBufferCursor();
    }

    /** The delay length of the current settings in samples. */
    method DelaySamplesNow(t: TimeInfo) returns (delaySamples: int)
      requires DelayFieldsInRange(Settings()) && ValidTimeInfo(Settings(), t)
      ensures delaySamples == DelaySamples(Settings(), t)
    {
      if isAsync {
        var msSamples := t.sampleRate / MsInS as real;
        MulNonNegativeReal(asyncDelayMs as real, msSamples);
        delaySamples := CastToInt(asyncDelayMs as real * msSamples);
      } else {
        var beatsPerSec := t.tempo / SInMin as real;
        var samplesPerBeat := t.sampleRate / beatsPerSec;
        SyncDelayRatiosPositive();
        MulNonNegativeReal(samplesPerBeat, SyncDelayRatios[syncDelayRatioIndex]);
        delaySamples := CastToInt(samplesPerBeat * SyncDelayRatios[syncDelayRatioIndex]);
      }
    }

    /** Stores each input channel plus its full-delayed sample, times the feedback gain, at the cursor of its buffer. */
    method WriteFedBack(inputLeft: real, inputRight: real, full: int)
      requires leftBuffer.Length == rightBuffer.Length && leftBuffer != rightBuffer
      requires 0 <= bufferCursor < leftBuffer.Length && 0 <= full < leftBuffer.Length
      modifies leftBuffer, rightBuffer
      ensures leftBuffer[..] == FedBack(old(leftBuffer[..]), bufferCursor, full, inputLeft, feedback)
      ensures rightBuffer[..] == FedBack(old(rightBuffer[..]), bufferCursor, full, inputRight, feedback)
    {
      ghost var left, right := leftBuffer[..], rightBuffer[..];
      var newLeft := (inputLeft + leftBuffer[full]) * feedback;
      var newRight := (inputRight + rightBuffer[full]) * feedback;
      assert newLeft == (inputLeft + left[full]) * feedback;
      assert newRight == (inputRight + right[full]) * feedback;
      leftBuffer[bufferCursor] := newLeft;
      rightBuffer[bufferCursor] := newRight;
      assert leftBuffer[..] == left[bufferCursor := newLeft];
      assert rightBuffer[..] == right[bufferCursor := newRight];
    }

    /** The output mix read from the buffers as they are now. */
    method MixNow(input: StereoSample, semi: int, full: int) returns (output: StereoSample)
      requires leftBuffer.Length == rightBuffer.Length
      requires 0 <= semi < leftBuffer.Length && 0 <= full < leftBuffer.Length
      ensures output == Mix(Settings(), leftBuffer[..], rightBuffer[..], semi, full, input)
    {
      var semiTap := primaryPanningQuotient * leftBuffer[semi] + secondaryPanningQuotient * rightBuffer[semi];
      var fullTap := secondaryPanningQuotient * leftBuffer[full] + primaryPanningQuotient * rightBuffer[full];
      var left := (wetParamC * input.left) + (wetParam * ((panoramaParamC * semiTap) + (panoramaParam * fullTap)));
      var right := (wetParamC * input.right) + (wetParam * ((panoramaParam * semiTap) + (panoramaParamC * fullTap)));
      output := StereoSample(left, right);
    }

    /** Moves the cursor on one slot, wrapping from the last slot to the first. */
    method IncrementBufferCursor()
      requires Valid()
      modifies this`bufferCursor
      ensures Valid()
      ensures bufferCursor == (old(bufferCursor) + 1) % bufferSize
      ensures bufferCursor == NextCursor(old(bufferCursor), bufferSize)
    {
      NextCursorIsSuccessorMod(bufferCursor, bufferSize);
      if bufferCursor != bufferSize - 1 {
        bufferCursor := bufferCursor + 1;
      } else {
        bufferCursor := 0;
      }
    }

    /** The delay parameter last set. */
    function GetDelayParam(): (r: real)
      reads this
      requires Valid()
      ensures r == Settings().delayParam && InUnitInterval(r)
    {
      delayParam
    }

    /** Sets the delay parameter and derives the millisecond delay and the ratio index from it. */
    method SetDelayParam(delayParam: real)
      requires InUnitInterval(delayParam)
      modifies this
      ensures Settings() == WithDelayParam(old(Settings()), delayParam)
      ensures bufferCursor == old(bufferCursor)
      ensures old(Valid()) ==> Valid()
    {
      ghost var before := Settings();
      this.delayParam := delayParam;
      asyncDelayMs := CorrespondingInt(delayParam, MinAsyncDelayMs, MaxAsyncDelayMs);
      syncDelayRatioIndex := CorrespondingInt(delayParam, 0, SyncDelayRatioCount - 1);
      if Consistent(before) {
        DelayParamSetter(before, delayParam);
      }
    }

    /** The asynchronous delay in milliseconds, whatever the current mode. */
    function GetAsyncDelayMs(): (ms: int)
      reads this
      requires Valid()
      ensures ms == Settings().asyncDelayMs
      ensures MinAsyncDelayMs <= ms <= MaxAsyncDelayMs
    {
      asyncDelayMs
    }

    /** The display string of the selected synchronisation ratio, whatever the current mode. */
    function GetSyncDelayRatio(): (ratio: string)
      reads this
      requires Valid()
      ensures 0 <= Settings().syncDelayRatioIndex < |SyncDelayRatioStrings|
      ensures ratio == SyncDelayRatioStrings[Settings().syncDelayRatioIndex]
    {
      SyncDelayRatioStrings[syncDelayRatioIndex]
    }

    /** The feedback parameter last set. */
    function GetFeedbackParam(): (r: real)
      reads this
      requires Valid()
      ensures r == Settings().feedbackParam && InUnitInterval(r)
    {
      feedbackParam
    }

    /** Sets the feedback parameter and derives the feedback gain from it. */
    method SetFeedbackParam(feedbackParam: real)
      requires InUnitInterval(feedbackParam)
      modifies this
      ensures Settings() == WithFeedbackParam(old(Settings()), feedbackParam)
      ensures bufferCursor == old(bufferCursor)
      ensures old(Valid()) ==> Valid()
    {
      ghost var before := Settings();
      this.feedbackParam := feedbackParam;
      feedback := CorrespondingReal(feedbackParam, MinFeedback, MaxFeedback);
      if Consistent(before) {
        FeedbackParamSetter(before, feedbackParam);
      }
    }

    /** The derived feedback gain, in [0, 0.8]. */
    function GetFeedback(): (gain: real)
      reads this
      requires Valid()
      ensures gain == Settings().feedback
      ensures MinFeedback <= gain <= MaxFeedback
    {
      feedback
    }

    /** The panorama parameter last set. */
    function GetPanoramaParam(): (r: real)
      reads this
      requires Valid()
      ensures r == Settings().panoramaParam && InUnitInterval(r)
    {
      panoramaParam
    }

    /**
     * Sets the panorama parameter and its complement; the panning quotients
     * are recomputed from the previous primary quotient.
     */
    method SetPanoramaParam(panoramaParam: real)
      requires InUnitInterval(panoramaParam)
      modifies this
      ensures Settings() == WithPanoramaParam(old(Settings()), panoramaParam)
      ensures bufferCursor == old(bufferCursor)
      ensures old(Valid()) ==> Valid()
    {
      ghost var before := Settings();
      this.panoramaParam := panoramaParam;
      panoramaParamC := 1.0 - panoramaParam;
      secondaryPanningQuotient := Abs(0.5 - primaryPanningQuotient);
      primaryPanningQuotient := 1.0 - secondaryPanningQuotient;
      if Consistent(before) {
        PanoramaParamSetter(before, panoramaParam);
      }
    }

    /** The wet parameter last set. */
    function GetWetParam(): (r: real)
      reads this
      requires Valid()
      ensures r == Settings().wetParam && InUnitInterval(r)
    {
      wetParam
    }

    /** Sets the wet parameter and derives the dry gain from it. */
    method SetWetParam(wetParam: real)
      requires InUnitInterval(wetParam)
      modifies this
      ensures Settings() == WithWetParam(old(Settings()), wetParam)
      ensures bufferCursor == old(bufferCursor)
      ensures old(Valid()) ==> Valid()
    {
      ghost var before := Settings();
      this.wetParam := wetParam;
      wetParamC := 1.0 - wetParam;
      if Consistent(before) {
        WetParamSetter(before, wetParam);
      }
    }

    /** The synchronisation parameter last set. */
    function GetSyncParam(): (r: real)
      reads this
      requires Valid()
      ensures r == Settings().syncParam && InUnitInterval(r)
    {
      syncParam
    }

    /** Sets the synchronisation parameter; the unit becomes asynchronous exactly when it is 0. */
    method SetSyncParam(syncParam: real)
      requires InUnitInterval(syncParam)
      modifies this
      ensures Settings() == WithSyncParam(old(Settings()), syncParam)
      ensures bufferCursor == old(bufferCursor)
      ensures old(Valid()) ==> Valid()
    {
      ghost var before := Settings();
      this.syncParam := syncParam;
      isAsync := syncParam == 0.0;
      if Consistent(before) {
        SyncParamSetter(before, syncParam);
      }
    }

    /** Whether the unit runs on milliseconds rather than on the host tempo: exactly when the sync parameter is 0. */
    function IsAsync(): (async: bool)
      reads this
      requires Valid()
      ensures async == Settings().isAsync
      ensures async <==> GetSyncParam() == 0.0
    {
      isAsync
    }
  }
}
