/**
 * Value-level model of the ping-pong delay unit: its constant tables, the
 * settings it derives from the five normalised parameters, and what one
 * call of `GetSample` (and a block of such calls) does to the delay line.
 * The class in module DelayUnit is proved against these functions.
 */
module UnitModel {
  import opened UnitArith

  // ---------------------------------------------------------------------
  // Constant tables of the unit

  const MinAsyncDelayMs: int := 10
  const MaxAsyncDelayMs: int := 2000
  const SyncDelayRatioCount: int := 7
  /** Beat fractions selectable in synchronised mode. */
  const SyncDelayRatios: seq<real> := [1.0 / 4.0, 1.0 / 3.0, 1.0 / 2.0, 2.0 / 3.0, 1.0, 3.0 / 2.0, 2.0]
  /** Display strings of `SyncDelayRatios`, index by index. */
  const SyncDelayRatioStrings: seq<string> := ["1/4", "1/3", "1/2", "2/3", "1", "3/2", "2"]
  const MinFeedback: real := 0.0
  const MaxFeedback: real := 0.8
  const SInMin: int := 60
  const MsInS: int := 1000

  /** The host's transport snapshot: sample rate in samples per second and tempo in beats per minute. */
  datatype TimeInfo = TimeInfo(sampleRate: real, tempo: real)

  /** What the delay length needs of the host: a positive sample rate and, when the delay follows the tempo, a positive tempo. */
  predicate ValidTimeInfo(s: UnitSettings, t: TimeInfo) {
    t.sampleRate > 0.0 && (s.isAsync || t.tempo > 0.0)
  }

  /** A stereo sample: left and right channel. */
  datatype StereoSample = StereoSample(left: real, right: real)

  predicate InUnitInterval(x: real) {
    0.0 <= x <= 1.0
  }

  // ---------------------------------------------------------------------
  // Parameters: raw values and the fields derived from them

  /** The raw parameter fields of the unit and the fields its setters derive from them. */
  datatype UnitSettings = UnitSettings(
    delayParam: real,
    feedbackParam: real,
    panoramaParam: real,
    wetParam: real,
    syncParam: real,
    asyncDelayMs: int,
    syncDelayRatioIndex: int,
    feedback: real,
    panoramaParamC: real,
    primaryPanningQuotient: real,
    secondaryPanningQuotient: real,
    wetParamC: real,
    isAsync: bool)

  /**
   * The invariants the header documents for the unit's fields, together with
   * the ranges the derived fields take when every raw value lies in [0, 1].
   */
  predicate Consistent(s: UnitSettings) {
    && InUnitInterval(s.delayParam)
    && InUnitInterval(s.feedbackParam)
    && InUnitInterval(s.panoramaParam)
    && InUnitInterval(s.wetParam)
    && InUnitInterval(s.syncParam)
    && s.asyncDelayMs == CorrespondingInt(s.delayParam, MinAsyncDelayMs, MaxAsyncDelayMs)
    && MinAsyncDelayMs <= s.asyncDelayMs <= MaxAsyncDelayMs
    && s.syncDelayRatioIndex == CorrespondingInt(s.delayParam, 0, SyncDelayRatioCount - 1)
    && 0 <= s.syncDelayRatioIndex < SyncDelayRatioCount
    && s.feedback == CorrespondingReal(s.feedbackParam, MinFeedback, MaxFeedback)
    && MinFeedback <= s.feedback <= MaxFeedback
    && s.panoramaParamC + s.panoramaParam == 1.0
    && s.primaryPanningQuotient + s.secondaryPanningQuotient == 1.0
    && s.wetParamC + s.wetParam == 1.0
    && s.isAsync == (s.syncParam == 0.0)
  }

  /** `SetDelayParam`: stores the raw value and derives the millisecond delay and the ratio index. */
  function WithDelayParam(s: UnitSettings, delayParam: real): UnitSettings
    requires InUnitInterval(delayParam)
  {
    s.(delayParam := delayParam,
       asyncDelayMs := CorrespondingInt(delayParam, MinAsyncDelayMs, MaxAsyncDelayMs),
       syncDelayRatioIndex := CorrespondingInt(delayParam, 0, SyncDelayRatioCount - 1))
  }

  /** `SetFeedbackParam`: stores the raw value and derives the feedback gain. */
  function WithFeedbackParam(s: UnitSettings, feedbackParam: real): UnitSettings {
    s.(feedbackParam := feedbackParam,
       feedback := CorrespondingReal(feedbackParam, MinFeedback, MaxFeedback))
  }

  /**
   * `SetPanoramaParam`: stores the raw value and its complement. The
   * secondary panning quotient is computed from the PREVIOUS primary
   * quotient, not from the argument, and the primary is then its complement.
   */
  function WithPanoramaParam(s: UnitSettings, panoramaParam: real): UnitSettings {
    var secondary := Abs(0.5 - s.primaryPanningQuotient);
    s.(panoramaParam := panoramaParam,
       panoramaParamC := 1.0 - panoramaParam,
       secondaryPanningQuotient := secondary,
       primaryPanningQuotient := 1.0 - secondary)
  }

  /** `SetWetParam`: stores the raw value and derives the dry gain. */
  function WithWetParam(s: UnitSettings, wetParam: real): UnitSettings {
    s.(wetParam := wetParam, wetParamC := 1.0 - wetParam)
  }

  /** `SetSyncParam`: stores the raw value; the unit is asynchronous exactly at 0. */
  function WithSyncParam(s: UnitSettings, syncParam: real): UnitSettings {
    s.(syncParam := syncParam, isAsync := syncParam == 0.0)
  }

  function Abs(x: real): real {
    if x < 0.0 then -x else x
  }

  /**
   * The settings the constructor leaves: the five setters applied in the
   * constructor's order to fields that are not yet initialised, of which
   * only the primary panning quotient is ever read (`indeterminatePrimary`).
   */
  function InitialSettings(indeterminatePrimary: real, delayParam: real, feedbackParam: real,
                           panoramaParam: real, wetParam: real, syncParam: real): UnitSettings
    requires InUnitInterval(delayParam)
  {
    var unset := UnitSettings(0.0, 0.0, 0.0, 0.0, 0.0, 0, 0, 0.0, 0.0, indeterminatePrimary, 0.0, 0.0, false);
    WithSyncParam(WithWetParam(WithPanoramaParam(WithFeedbackParam(WithDelayParam(
      unset, delayParam), feedbackParam), panoramaParam), wetParam), syncParam)
  }

  // ---------------------------------------------------------------------
  // Properties of the setters

  /** After `SetDelayParam` the delay lies in [10, 2000] ms and the ratio index in [0, 6]; nothing else changes. */
  lemma DelayParamSetter(s: UnitSettings, v: real)
    requires Consistent(s) && InUnitInterval(v)
    ensures var r := WithDelayParam(s, v);
      && Consistent(r)
      && r.delayParam == v
      && MinAsyncDelayMs <= r.asyncDelayMs <= MaxAsyncDelayMs
      && 0 <= r.syncDelayRatioIndex <= SyncDelayRatioCount - 1
      && r.(delayParam := s.delayParam, asyncDelayMs := s.asyncDelayMs,
            syncDelayRatioIndex := s.syncDelayRatioIndex) == s
  {
    CorrespondingIntInRange(v, MinAsyncDelayMs, MaxAsyncDelayMs);
    CorrespondingIntInRange(v, 0, SyncDelayRatioCount - 1);
  }

  /** After `SetFeedbackParam` the gain lies in [0, 0.8], at the ends of the parameter range exactly; nothing else changes. */
  lemma FeedbackParamSetter(s: UnitSettings, v: real)
    requires Consistent(s) && InUnitInterval(v)
    ensures var r := WithFeedbackParam(s, v);
      && Consistent(r)
      && r.feedbackParam == v
      && MinFeedback <= r.feedback <= MaxFeedback
      && (v == 0.0 ==> r.feedback == MinFeedback)
      && (v == 1.0 ==> r.feedback == MaxFeedback)
      && r.(feedbackParam := s.feedbackParam, feedback := s.feedback) == s
  {
    CorrespondingRealInRange(v, MinFeedback, MaxFeedback);
    CorrespondingRealEnds(MinFeedback, MaxFeedback);
  }

  /** The feedback gain grows with the feedback parameter. */
  lemma FeedbackMonotone(s: UnitSettings, v: real, v': real)
    requires v <= v'
    ensures WithFeedbackParam(s, v).feedback <= WithFeedbackParam(s, v').feedback
  {
    CorrespondingRealMonotone(v, v', MinFeedback, MaxFeedback);
  }

  /** After `SetPanoramaParam` the panorama and the two quotients are complementary pairs; nothing else changes. */
  lemma PanoramaParamSetter(s: UnitSettings, v: real)
    requires Consistent(s) && InUnitInterval(v)
    ensures var r := WithPanoramaParam(s, v);
      && Consistent(r)
      && r.panoramaParam == v
      && r.panoramaParamC + r.panoramaParam == 1.0
      && r.primaryPanningQuotient + r.secondaryPanningQuotient == 1.0
      && r.(panoramaParam := s.panoramaParam, panoramaParamC := s.panoramaParamC,
            primaryPanningQuotient := s.primaryPanningQuotient,
            secondaryPanningQuotient := s.secondaryPanningQuotient) == s
  {
  }

  /** After `SetWetParam` the wet and dry gains are complementary; nothing else changes. */
  lemma WetParamSetter(s: UnitSettings, v: real)
    requires Consistent(s) && InUnitInterval(v)
    ensures var r := WithWetParam(s, v);
      && Consistent(r)
      && r.wetParam == v
      && r.wetParamC + r.wetParam == 1.0
      && r.(wetParam := s.wetParam, wetParamC := s.wetParamC) == s
  {
  }

  /** After `SetSyncParam` the unit is asynchronous exactly when the value is 0; nothing else changes. */
  lemma SyncParamSetter(s: UnitSettings, v: real)
    requires Consistent(s) && InUnitInterval(v)
    ensures var r := WithSyncParam(s, v);
      && Consistent(r)
      && r.syncParam == v
      && (r.isAsync <==> v == 0.0)
      && r.(syncParam := s.syncParam, isAsync := s.isAsync) == s
  {
  }

  /** The constructor's settings satisfy every documented invariant, whatever the uninitialised quotient held. */
  lemma InitialSettingsConsistent(g: real, d: real, f: real, p: real, w: real, sy: real)
    requires InUnitInterval(d) && InUnitInterval(f) && InUnitInterval(p)
    requires InUnitInterval(w) && InUnitInterval(sy)
    ensures var s := InitialSettings(g, d, f, p, w, sy);
      && Consistent(s)
      && s.delayParam == d && s.feedbackParam == f && s.panoramaParam == p
      && s.wetParam == w && s.syncParam == sy
  {
    CorrespondingIntInRange(d, MinAsyncDelayMs, MaxAsyncDelayMs);
    CorrespondingIntInRange(d, 0, SyncDelayRatioCount - 1);
    CorrespondingRealInRange(f, MinFeedback, MaxFeedback);
  }

  /**
   * The panning quotients `SetPanoramaParam` leaves do not depend on its
   * argument at all: two calls that differ only in the value set leave the
   * same quotients.
   */
  lemma PanningQuotientsIgnorePanorama(s: UnitSettings, v: real, v': real)
    ensures WithPanoramaParam(s, v).primaryPanningQuotient == WithPanoramaParam(s, v').primaryPanningQuotient
    ensures WithPanoramaParam(s, v).secondaryPanningQuotient == WithPanoramaParam(s, v').secondaryPanningQuotient
  {
  }

  /**
   * From a primary quotient in [0, 1], one `SetPanoramaParam` leaves it in
   * [1/2, 1], and from then on every second call restores it: the quotients
   * alternate between two values, whatever panorama is set.
   */
  lemma PanningQuotientsAlternate(s: UnitSettings, v: real, v': real)
    requires 0.0 <= s.primaryPanningQuotient <= 1.0
    ensures var s1 := WithPanoramaParam(s, v);
      && 0.5 <= s1.primaryPanningQuotient <= 1.0
      && WithPanoramaParam(WithPanoramaParam(s1, v'), v).primaryPanningQuotient == s1.primaryPanningQuotient
  {
  }

  // ---------------------------------------------------------------------
  // The delay line and one call of GetSample

  /** The two circular buffers and the shared write cursor. */
  datatype DelayLine = DelayLine(left: seq<real>, right: seq<real>, cursor: int)

  predicate WellFormed(line: DelayLine) {
    |line.left| > 0 && |line.right| == |line.left| && 0 <= line.cursor < |line.left|
  }

  predicate Silent(xs: seq<real>) {
    forall i :: 0 <= i < |xs| ==> xs[i] == 0.0
  }

  /** The fields `GetSample` needs in range to work out the delay length. */
  predicate DelayFieldsInRange(s: UnitSettings) {
    s.asyncDelayMs >= 0 && 0 <= s.syncDelayRatioIndex < SyncDelayRatioCount
  }

  lemma SyncDelayRatiosPositive()
    ensures |SyncDelayRatios| == SyncDelayRatioCount
    ensures forall i :: 0 <= i < SyncDelayRatioCount ==> SyncDelayRatios[i] > 0.0
  {
  }

  /** The delay length in samples, from milliseconds and the sample rate, or from the tempo and the ratio table. */
  function DelaySamples(s: UnitSettings, t: TimeInfo): int
    requires DelayFieldsInRange(s) && ValidTimeInfo(s, t)
  {
    if s.isAsync then
      var msSamples := t.sampleRate / MsInS as real;
      MulNonNegativeReal(s.asyncDelayMs as real, msSamples);
      CastToInt(s.asyncDelayMs as real * msSamples)
    else
      var beatsPerSec := t.tempo / SInMin as real;
      var samplesPerBeat := t.sampleRate / beatsPerSec;
      SyncDelayRatiosPositive();
      MulNonNegativeReal(samplesPerBeat, SyncDelayRatios[s.syncDelayRatioIndex]);
      CastToInt(samplesPerBeat * SyncDelayRatios[s.syncDelayRatioIndex])
  }

  /** Read index of the semi delay: `delay` slots behind the cursor, wrapped onto the buffer. */
  function SemiCursor(line: DelayLine, delay: int): int
    requires WellFormed(line)
  {
    (line.cursor - delay) % |line.left|
  }

  /** Read index of the full delay: twice `delay` slots behind the cursor, wrapped onto the buffer. */
  function FullCursor(line: DelayLine, delay: int): int
    requires WellFormed(line)
  {
    (line.cursor - delay * 2) % |line.left|
  }

  /** A panned read of both buffers at slot `k`. */
  function Tap(left: seq<real>, right: seq<real>, k: int, leftGain: real, rightGain: real): real
    requires 0 <= k < |left| && k < |right|
  {
    leftGain * left[k] + rightGain * right[k]
  }

  /** A buffer after `GetSample` stores the input `x` plus the full-delayed sample, times `gain`, at `cursor`. */
  function FedBack(buffer: seq<real>, cursor: int, full: int, x: real, gain: real): (r: seq<real>)
    requires 0 <= cursor < |buffer| && 0 <= full < |buffer|
    ensures |r| == |buffer|
  {
    buffer[cursor := (x + buffer[full]) * gain]
  }

  /**
   * The output of `GetSample`: the dry input plus the wet gain times the
   * panned semi- and full-delayed taps, the panorama deciding which tap
   * feeds which channel.
   */
  function Mix(s: UnitSettings, left: seq<real>, right: seq<real>, semi: int, full: int, input: StereoSample): StereoSample
    requires |right| == |left| && 0 <= semi < |left| && 0 <= full < |left|
  {
    var semiTap := Tap(left, right, semi, s.primaryPanningQuotient, s.secondaryPanningQuotient);
    var fullTap := Tap(left, right, full, s.secondaryPanningQuotient, s.primaryPanningQuotient);
    StereoSample(s.wetParamC * input.left + s.wetParam * (s.panoramaParamC * semiTap + s.panoramaParam * fullTap),
                 s.wetParamC * input.right + s.wetParam * (s.panoramaParam * semiTap + s.panoramaParamC * fullTap))
  }

  /** What one call of `GetSample` returns, and the delay line it leaves. */
  datatype Step = Step(line: DelayLine, output: StereoSample)

  /**
   * One call of `GetSample` with a delay length of `delay` samples (the
   * caller works it out with `DelaySamples`): both buffers get the fed-back
   * sample at the cursor, the output mixes the dry input with the panned
   * semi- and full-delayed reads of the buffers AFTER that write, and the
   * cursor moves on.
   */
  function Process(s: UnitSettings, line: DelayLine, input: StereoSample, delay: int): (r: Step)
    requires WellFormed(line)
    ensures WellFormed(r.line) && |r.line.left| == |line.left|
  {
    var semi := SemiCursor(line, delay);
    var full := FullCursor(line, delay);
    var left := FedBack(line.left, line.cursor, full, input.left, s.feedback);
    var right := FedBack(line.right, line.cursor, full, input.right, s.feedback);
    Step(DelayLine(left, right, NextCursor(line.cursor, |line.left|)), Mix(s, left, right, semi, full, input))
  }

  // ---------------------------------------------------------------------
  // Properties of one call

  /**
   * The delay length is a whole, non-negative number of samples: the
   * milliseconds times the samples per millisecond, or the samples per beat
   * times the selected ratio, rounded down.
   */
  lemma DelayIsWholeSamples(s: UnitSettings, t: TimeInfo)
    requires Consistent(s) && ValidTimeInfo(s, t)
    ensures var exact := if s.isAsync then s.asyncDelayMs as real * t.sampleRate / 1000.0
                         else 60.0 * t.sampleRate / t.tempo * SyncDelayRatios[s.syncDelayRatioIndex];
      && exact >= 0.0
      && DelaySamples(s, t) >= 0
      && DelaySamples(s, t) as real <= exact < DelaySamples(s, t) as real + 1.0
  {
    if s.isAsync {
      MulNonNegativeReal(s.asyncDelayMs as real, t.sampleRate / 1000.0);
    } else {
      var beatsPerSec := t.tempo / 60.0;
      var samplesPerBeat := t.sampleRate / beatsPerSec;
      assert samplesPerBeat == 60.0 * t.sampleRate / t.tempo;
      MulNonNegativeReal(samplesPerBeat, SyncDelayRatios[s.syncDelayRatioIndex]);
    }
  }

  /** The two read indices are valid slots, one and two delay lengths behind the cursor modulo the size. */
  lemma ReadCursorsInBounds(line: DelayLine, d: int)
    requires WellFormed(line)
    ensures 0 <= SemiCursor(line, d) < |line.left|
    ensures 0 <= FullCursor(line, d) < |line.left|
    ensures (SemiCursor(line, d) + d) % |line.left| == line.cursor
    ensures (FullCursor(line, d) + d * 2) % |line.left| == line.cursor
  {
    ResidueOfStepBack(line.cursor, d, |line.left|);
    ResidueOfStepBack(line.cursor, d * 2, |line.left|);
    assert SemiCursor(line, d) == (line.cursor - d) % |line.left|;
    assert FullCursor(line, d) == (line.cursor - d * 2) % |line.left|;
  }

  /**
   * `GetSample` writes each buffer only at the old cursor, where it stores
   * the input plus the full-delayed sample times the feedback gain, and then
   * moves the cursor on by one modulo the buffer size.
   */
  lemma ProcessWritesOnlyAtCursor(s: UnitSettings, line: DelayLine, input: StereoSample, d: int)
    requires WellFormed(line)
    ensures var r := Process(s, line, input, d);
      var full := FullCursor(line, d);
      && |r.line.left| == |line.left| && |r.line.right| == |line.right|
      && (forall j :: 0 <= j < |line.left| && j != line.cursor ==>
            r.line.left[j] == line.left[j] && r.line.right[j] == line.right[j])
      && r.line.left[line.cursor] == (input.left + line.left[full]) * s.feedback
      && r.line.right[line.cursor] == (input.right + line.right[full]) * s.feedback
      && r.line.cursor == (line.cursor + 1) % |line.left|
  {
    NextCursorIsSuccessorMod(line.cursor, |line.left|);
  }

  /** `GetSample` moves the cursor on by one slot, wrapping to 0 after the last. */
  lemma ProcessMovesCursor(s: UnitSettings, line: DelayLine, input: StereoSample, d: int)
    requires WellFormed(line)
    ensures Process(s, line, input, d).line.cursor == NextCursor(line.cursor, |line.left|)
    ensures Process(s, line, input, d).line.cursor == (line.cursor + 1) % |line.left|
  {
    NextCursorIsSuccessorMod(line.cursor, |line.left|);
  }

  /** Feeding back silence into a silent buffer leaves it silent. */
  lemma FedBackSilence(buffer: seq<real>, cursor: int, full: int, gain: real)
    requires 0 <= cursor < |buffer| && 0 <= full < |buffer| && Silent(buffer)
    ensures Silent(FedBack(buffer, cursor, full, 0.0, gain))
  {
    var r := FedBack(buffer, cursor, full, 0.0, gain);
    assert r[cursor] == 0.0 * gain;
    forall i | 0 <= i < |r|
      ensures r[i] == 0.0
    {
      if i != cursor {
        assert r[i] == buffer[i];
      }
    }
  }

  /** Silence in, silence out: zero buffers and a zero input give a zero output and leave the buffers zero. */
  lemma ProcessSilence(s: UnitSettings, line: DelayLine, d: int)
    requires WellFormed(line)
    requires Silent(line.left) && Silent(line.right)
    ensures var r := Process(s, line, StereoSample(0.0, 0.0), d);
      && r.output == StereoSample(0.0, 0.0)
      && Silent(r.line.left) && Silent(r.line.right)
  {
    var semi, full := SemiCursor(line, d), FullCursor(line, d);
    var left := FedBack(line.left, line.cursor, full, 0.0, s.feedback);
    var right := FedBack(line.right, line.cursor, full, 0.0, s.feedback);
    FedBackSilence(line.left, line.cursor, full, s.feedback);
    FedBackSilence(line.right, line.cursor, full, s.feedback);
    var out := Mix(s, left, right, semi, full, StereoSample(0.0, 0.0));
    assert Tap(left, right, semi, s.primaryPanningQuotient, s.secondaryPanningQuotient) == 0.0;
    assert Tap(left, right, full, s.secondaryPanningQuotient, s.primaryPanningQuotient) == 0.0;
    assert out == StereoSample(0.0, 0.0);
  }

  /** With the feedback gain at 0 a write stores 0 whatever the input, so a silent buffer stays silent. */
  lemma FedBackZeroGain(buffer: seq<real>, cursor: int, full: int, x: real)
    requires 0 <= cursor < |buffer| && 0 <= full < |buffer| && Silent(buffer)
    ensures Silent(FedBack(buffer, cursor, full, x, 0.0))
  {
    var r := FedBack(buffer, cursor, full, x, 0.0);
    assert r[cursor] == (x + buffer[full]) * 0.0;
    forall i | 0 <= i < |r|
      ensures r[i] == 0.0
    {
      if i != cursor {
        assert r[i] == buffer[i];
      }
    }
  }

  /**
   * No echo without feedback: the input reaches the buffers only through
   * the feedback gain, so with that gain at 0 silent buffers stay silent and
   * the output is the dry term alone.
   */
  lemma NoEchoWithoutFeedback(s: UnitSettings, line: DelayLine, input: StereoSample, d: int)
    requires WellFormed(line) && Silent(line.left) && Silent(line.right) && s.feedback == 0.0
    ensures var r := Process(s, line, input, d);
      && Silent(r.line.left) && Silent(r.line.right)
      && r.output == StereoSample(s.wetParamC * input.left, s.wetParamC * input.right)
  {
    var semi, full := SemiCursor(line, d), FullCursor(line, d);
    var left := FedBack(line.left, line.cursor, full, input.left, s.feedback);
    var right := FedBack(line.right, line.cursor, full, input.right, s.feedback);
    FedBackZeroGain(line.left, line.cursor, full, input.left);
    FedBackZeroGain(line.right, line.cursor, full, input.right);
    assert Tap(left, right, semi, s.primaryPanningQuotient, s.secondaryPanningQuotient) == 0.0;
    assert Tap(left, right, full, s.secondaryPanningQuotient, s.primaryPanningQuotient) == 0.0;
  }

  /** With the wet gain at 0 the output is the input. */
  lemma ProcessDryWhenWetZero(s: UnitSettings, line: DelayLine, input: StereoSample, d: int)
    requires WellFormed(line)
    requires s.wetParam == 0.0 && s.wetParamC + s.wetParam == 1.0
    ensures Process(s, line, input, d).output == input
  {
  }

  /**
   * With the panorama at 0 the left wet term reads only the semi-delayed
   * slot and the right wet term only the full-delayed slot.
   */
  lemma ProcessPanoramaZero(s: UnitSettings, line: DelayLine, input: StereoSample, d: int)
    requires WellFormed(line) && s.panoramaParamC + s.panoramaParam == 1.0
    requires s.panoramaParam == 0.0
    ensures var r := Process(s, line, input, d);
      var q1, q2 := s.primaryPanningQuotient, s.secondaryPanningQuotient;
      && r.output.left == s.wetParamC * input.left
           + s.wetParam * Tap(r.line.left, r.line.right, SemiCursor(line, d), q1, q2)
      && r.output.right == s.wetParamC * input.right
           + s.wetParam * Tap(r.line.left, r.line.right, FullCursor(line, d), q2, q1)
  {
  }

  /**
   * The panorama only distributes the wet signal between the channels: the
   * two wet terms together are the wet gain times both delayed reads.
   */
  lemma ProcessPanoramaSplitsWet(s: UnitSettings, line: DelayLine, input: StereoSample, d: int)
    requires WellFormed(line) && s.panoramaParamC + s.panoramaParam == 1.0
    ensures var r := Process(s, line, input, d);
      var q1, q2 := s.primaryPanningQuotient, s.secondaryPanningQuotient;
      (r.output.left - s.wetParamC * input.left) + (r.output.right - s.wetParamC * input.right)
        == s.wetParam * (Tap(r.line.left, r.line.right, SemiCursor(line, d), q1, q2)
                         + Tap(r.line.left, r.line.right, FullCursor(line, d), q2, q1))
  {
    var r := Process(s, line, input, d);
    var semi, full := SemiCursor(line, d), FullCursor(line, d);
    assert r.output == Mix(s, r.line.left, r.line.right, semi, full, input);
    MixPanoramaSplitsWet(s, r.line.left, r.line.right, semi, full, input);
  }

  /** `ProcessPanoramaSplitsWet` for the mix alone, on any buffer contents. */
  lemma MixPanoramaSplitsWet(s: UnitSettings, left: seq<real>, right: seq<real>, semi: int, full: int, input: StereoSample)
    requires |right| == |left| && 0 <= semi < |left| && 0 <= full < |left|
    requires s.panoramaParamC + s.panoramaParam == 1.0
    ensures var o := Mix(s, left, right, semi, full, input);
      var q1, q2 := s.primaryPanningQuotient, s.secondaryPanningQuotient;
      (o.left - s.wetParamC * input.left) + (o.right - s.wetParamC * input.right)
        == s.wetParam * (Tap(left, right, semi, q1, q2) + Tap(left, right, full, q2, q1))
  {
    var q1, q2 := s.primaryPanningQuotient, s.secondaryPanningQuotient;
    SplitSumsTo(s.wetParam, s.panoramaParam, s.panoramaParamC,
                Tap(left, right, semi, q1, q2), Tap(left, right, full, q2, q1));
  }

  /** Two complementary weightings of `a` and `b`, added, weigh each of them fully. */
  lemma SplitSumsTo(w: real, p: real, c: real, a: real, b: real)
    requires c + p == 1.0
    ensures w * (c * a + p * b) + w * (p * a + c * b) == w * (a + b)
  {
    assert w * (c * a + p * b) + w * (p * a + c * b) == w * ((c + p) * a + (c + p) * b);
  }

  // ---------------------------------------------------------------------
  // A block of calls, in order

  /** The delay line after a block, and the output channels. */
  datatype Block = Block(line: DelayLine, left: seq<real>, right: seq<real>)

  /** `GetSample` run over the first `n` frames of `ls` and `rs` in order, collecting the outputs. */
  function ProcessFrames(s: UnitSettings, line: DelayLine, ls: seq<real>, rs: seq<real>, n: nat, d: int): (r: Block)
    requires WellFormed(line)
    requires n <= |ls| && n <= |rs|
    ensures WellFormed(r.line) && |r.line.left| == |line.left|
    ensures |r.left| == n && |r.right| == n
  {
    if n == 0 then Block(line, [], [])
    else
      var before := ProcessFrames(s, line, ls, rs, n - 1, d);
      var step := Process(s, before.line, StereoSample(ls[n - 1], rs[n - 1]), d);
      Block(step.line, before.left + [step.output.left], before.right + [step.output.right])
  }

  /** A block of `n` frames advances the cursor by `n` modulo the buffer size. */
  lemma {:induction false} FramesAdvanceCursor(s: UnitSettings, line: DelayLine, ls: seq<real>, rs: seq<real>, n: nat, d: int)
    requires WellFormed(line)
    requires n <= |ls| && n <= |rs|
    ensures ProcessFrames(s, line, ls, rs, n, d).line.cursor == (line.cursor + n) % |line.left|
  {
    var size := |line.left|;
    if n == 0 {
      ModOfMultiple(line.cursor, size, 0, line.cursor);
    } else {
      var before := ProcessFrames(s, line, ls, rs, n - 1, d);
      FramesAdvanceCursor(s, line, ls, rs, n - 1, d);
      ProcessMovesCursor(s, before.line, StereoSample(ls[n - 1], rs[n - 1]), d);
      NextCursorOfResidue(line.cursor + n - 1, size);
    }
  }

  /** A block as long as the buffers brings the cursor back to where it started. */
  lemma BufferSizeFramesRestoreCursor(s: UnitSettings, line: DelayLine, ls: seq<real>, rs: seq<real>, d: int)
    requires WellFormed(line)
    requires |line.left| <= |ls| && |line.left| <= |rs|
    ensures ProcessFrames(s, line, ls, rs, |line.left|, d).line.cursor == line.cursor
  {
    FramesAdvanceCursor(s, line, ls, rs, |line.left|, d);
    ModOfMultiple(line.cursor + |line.left|, |line.left|, 1, line.cursor);
  }

  /** Silence in, silence out, over a whole block. */
  lemma {:induction false} FramesSilence(s: UnitSettings, line: DelayLine, ls: seq<real>, rs: seq<real>, n: nat, d: int)
    requires WellFormed(line)
    requires n <= |ls| && n <= |rs| && Silent(ls[..n]) && Silent(rs[..n])
    requires Silent(line.left) && Silent(line.right)
    ensures var r := ProcessFrames(s, line, ls, rs, n, d);
      Silent(r.left) && Silent(r.right) && Silent(r.line.left) && Silent(r.line.right)
  {
    if n > 0 {
      assert ls[..n - 1] == ls[..n][..n - 1] && rs[..n - 1] == rs[..n][..n - 1];
      assert ls[n - 1] == ls[..n][n - 1] && rs[n - 1] == rs[..n][n - 1];
      FramesSilence(s, line, ls, rs, n - 1, d);
      var before := ProcessFrames(s, line, ls, rs, n - 1, d);
      ProcessSilence(s, before.line, d);
    }
  }

  /** With the wet gain at 0 the block's output channels are its input channels. */
  lemma {:induction false} FramesDryWhenWetZero(s: UnitSettings, line: DelayLine, ls: seq<real>, rs: seq<real>, n: nat, d: int)
    requires WellFormed(line)
    requires n <= |ls| && n <= |rs| && s.wetParam == 0.0 && s.wetParamC + s.wetParam == 1.0
    ensures var r := ProcessFrames(s, line, ls, rs, n, d);
      r.left == ls[..n] && r.right == rs[..n]
  {
    if n > 0 {
      PrefixExtends(ls, n);
      PrefixExtends(rs, n);
      FramesDryWhenWetZero(s, line, ls, rs, n - 1, d);
      var before := ProcessFrames(s, line, ls, rs, n - 1, d);
      ProcessDryWhenWetZero(s, before.line, StereoSample(ls[n - 1], rs[n - 1]), d);
    }
  }

  /** With the feedback gain at 0, silent buffers stay silent over a whole block, whatever its input. */
  lemma {:induction false} FramesSilentWithoutFeedback(s: UnitSettings, line: DelayLine, ls: seq<real>, rs: seq<real>, n: nat, d: int)
    requires WellFormed(line) && n <= |ls| && n <= |rs|
    requires Silent(line.left) && Silent(line.right) && s.feedback == 0.0
    ensures var r := ProcessFrames(s, line, ls, rs, n, d);
      Silent(r.line.left) && Silent(r.line.right)
  {
    if n > 0 {
      FramesSilentWithoutFeedback(s, line, ls, rs, n - 1, d);
      var before := ProcessFrames(s, line, ls, rs, n - 1, d);
      NoEchoWithoutFeedback(s, before.line, StereoSample(ls[n - 1], rs[n - 1]), d);
    }
  }

  /** With the feedback gain at 0, the last frame of a block from silent buffers is the dry term alone. */
  lemma LastFrameDry(s: UnitSettings, line: DelayLine, ls: seq<real>, rs: seq<real>, n: nat, d: int)
    requires WellFormed(line) && 0 < n <= |ls| && n <= |rs|
    requires Silent(line.left) && Silent(line.right) && s.feedback == 0.0
    ensures var r := ProcessFrames(s, line, ls, rs, n, d);
      r.left[n - 1] == s.wetParamC * ls[n - 1] && r.right[n - 1] == s.wetParamC * rs[n - 1]
  {
    FramesSilentWithoutFeedback(s, line, ls, rs, n - 1, d);
    var before := ProcessFrames(s, line, ls, rs, n - 1, d);
    NoEchoWithoutFeedback(s, before.line, StereoSample(ls[n - 1], rs[n - 1]), d);
  }

  /**
   * No echo without feedback, over a whole block: from silent buffers and
   * with the feedback gain at 0, frame `m` (counting from 1) of a block of
   * `n` frames is the dry term of input frame `m`, and the buffers are
   * still silent after the block.
   */
  lemma FramesNoEchoWithoutFeedback(s: UnitSettings, line: DelayLine, ls: seq<real>, rs: seq<real>, n: nat, m: nat, d: int)
    requires WellFormed(line) && n <= |ls| && n <= |rs| && 0 < m <= n
    requires Silent(line.left) && Silent(line.right) && s.feedback == 0.0
    ensures var r := ProcessFrames(s, line, ls, rs, n, d);
      && Silent(r.line.left) && Silent(r.line.right)
      && r.left[m - 1] == s.wetParamC * ls[m - 1] && r.right[m - 1] == s.wetParamC * rs[m - 1]
  {
    FramesSilentWithoutFeedback(s, line, ls, rs, n, d);
    FramesPrefix(s, line, ls, rs, n, m, d);
    LastFrameDry(s, line, ls, rs, m, d);
    var r := ProcessFrames(s, line, ls, rs, n, d);
    assert r.left[m - 1] == r.left[..m][m - 1] && r.right[m - 1] == r.right[..m][m - 1];
  }

  /**
   * A block is causal: the outputs of its first `m` frames are the outputs
   * of the block of those `m` frames alone.
   */
  lemma {:induction false} FramesPrefix(s: UnitSettings, line: DelayLine, ls: seq<real>, rs: seq<real>, n: nat, m: nat, d: int)
    requires WellFormed(line) && n <= |ls| && n <= |rs| && m <= n
    ensures var r, p := ProcessFrames(s, line, ls, rs, n, d), ProcessFrames(s, line, ls, rs, m, d);
      r.left[..m] == p.left && r.right[..m] == p.right
  {
    var r := ProcessFrames(s, line, ls, rs, n, d);
    if m < n {
      FramesPrefix(s, line, ls, rs, n - 1, m, d);
      var q := ProcessFrames(s, line, ls, rs, n - 1, d);
      assert r.left[..n - 1] == q.left && r.right[..n - 1] == q.right;
      assert r.left[..m] == r.left[..n - 1][..m] && r.right[..m] == r.right[..n - 1][..m];
    } else {
      assert r.left[..m] == r.left && r.right[..m] == r.right;
    }
  }

  /** The prefix of length `n` is the prefix of length `n - 1` followed by element `n - 1`. */
  lemma PrefixExtends(xs: seq<real>, n: nat)
    requires 0 < n <= |xs|
    ensures xs[..n - 1] + [xs[n - 1]] == xs[..n]
  {
    assert (xs[..n - 1] + [xs[n - 1]])[n - 1] == xs[n - 1];
  }

  // ---------------------------------------------------------------------
  // Worked values

  /** At 44.1 kHz the shortest asynchronous delay, 10 ms, is 441 samples. */
  lemma ShortestAsyncDelayAt44100(s: UnitSettings, tempo: real)
    requires Consistent(s) && s.isAsync && s.delayParam == 0.0
    ensures s.asyncDelayMs == 10
    ensures DelaySamples(s, TimeInfo(44100.0, tempo)) == 441
  {
    CorrespondingIntInRange(0.0, MinAsyncDelayMs, MaxAsyncDelayMs);
  }
}
