/**
 * The energy-based voice activity detector. The first ten full-length frames after
 * construction or `reset` only calibrate (their energies are summed); after that each
 * full-length frame is voice when its energy exceeds the adaptive threshold scaled by the
 * aggressiveness multiplier.
 *
 * `float` arithmetic is modelled on reals, without rounding, except that a division by
 * zero yields the IEEE 754 infinities and NaN. A frame's energy (`calculateEnergy`) is a
 * parameter of the step that consumes it.
 */
module Vad {
  import opened Common

  const CALIBRATION_FRAMES: nat := 10
  const DEFAULT_AGGRESSIVENESS: int := 2
  const DEFAULT_THRESHOLD: real := 1000.0
  const MIN_AGGRESSIVENESS: int := 0
  const MAX_AGGRESSIVENESS: int := 3

  /** A `float` value where it matters: finite, infinite or not a number. */
  datatype Float = Finite(x: real) | PosInf | NegInf | NaN

  /** IEEE 754 division: a zero divisor gives an infinity, or NaN for 0/0. */
  function FloatDiv(a: real, b: real): (r: Float)
    ensures b != 0.0 ==> r == Finite(a / b)
    ensures b == 0.0 ==> (r == NaN <==> a == 0.0)
  {
    if b != 0.0 then Finite(a / b)
    else if a > 0.0 then PosInf
    else if a < 0.0 then NegInf
    else NaN
  }

  /** `std::clamp(v, 0.0f, 1.0f)`: both comparisons fail for NaN, which is returned as is. */
  function ClampUnit(v: Float): (r: Float)
    ensures v == NaN <==> r == NaN
    ensures r != NaN ==> r.Finite? && 0.0 <= r.x <= 1.0
    ensures v.Finite? && 0.0 <= v.x <= 1.0 ==> r == v
  {
    match v
    case NaN => NaN
    case PosInf => Finite(1.0)
    case NegInf => Finite(0.0)
    case Finite(x) => Finite(if x < 0.0 then 0.0 else if 1.0 < x then 1.0 else x)
  }

  /** The detector's state (`Impl`'s fields; `sampleRate_` is stored but never read). */
  datatype VadState = VadState(
    frameSize: nat,
    aggressiveness: int,
    frameCount: nat,
    energySum: real,
    threshold: real)

  /** `getAggressivenessMultiplier()`: a higher level lowers the bar for voice. */
  function Multiplier(aggressiveness: int): (m: real)
    ensures aggressiveness == 0 ==> m == 2.0
    ensures aggressiveness == 1 ==> m == 1.5
    ensures aggressiveness == 2 ==> m == 1.0
    ensures aggressiveness == 3 ==> m == 0.7
    ensures !(0 <= aggressiveness <= 3) ==> m == 1.0
  {
    match aggressiveness
    case 0 => 2.0
    case 1 => 1.5
    case 2 => 1.0
    case 3 => 0.7
    case _ => 1.0
  }

  /** The factor `1.5 - aggressiveness * 0.15` applied to the calibrated average energy. */
  function ThresholdFactor(aggressiveness: int): real {
    1.5 - aggressiveness as real * 0.15
  }

  /** A higher level lowers both the decision multiplier and the threshold factor. */
  lemma HigherAggressivenessLowersTheBar(a: int, b: int)
    requires MIN_AGGRESSIVENESS <= a < b <= MAX_AGGRESSIVENESS
    ensures Multiplier(b) < Multiplier(a)
    ensures ThresholdFactor(b) < ThresholdFactor(a)
  {
  }

  /** `updateThreshold()`: the scaled average energy, or 1000 before any calibration frame. */
  function UpdateThreshold(s: VadState): (r: VadState)
    ensures r == s.(threshold := r.threshold)
    ensures s.frameCount == 0 ==> r.threshold == DEFAULT_THRESHOLD
  {
    if s.frameCount > 0 then
      s.(threshold := (s.energySum / s.frameCount as real) * ThresholdFactor(s.aggressiveness))
    else
      s.(threshold := DEFAULT_THRESHOLD)
  }

  /** The state the constructor leaves; the frame is `sampleRate * frameSizeMs / 1000` samples. */
  function Initial(sampleRate: int, frameSizeMs: int): VadState
    requires -0x8000_0000 <= sampleRate * frameSizeMs < 0x8000_0000
  {
    UpdateThreshold(VadState(ToSizeT(TruncDiv(sampleRate * frameSizeMs, 1000)), DEFAULT_AGGRESSIVENESS, 0, 0.0, 1000.0))
  }

  datatype Processed = Processed(voice: bool, after: VadState)

  /** `processFrame(audio, length)`, where `energy` is the frame's mean-square energy. */
  function ProcessStep(s: VadState, length: nat, energy: real): Processed {
    if length < s.frameSize then Processed(false, s)
    else if s.frameCount < CALIBRATION_FRAMES then
      Processed(false, s.(energySum := s.energySum + energy, frameCount := s.frameCount + 1))
    else
      Processed(energy > s.threshold * Multiplier(s.aggressiveness), UpdateThreshold(s))
  }

  /** `setAggressiveness(level)`. */
  function SetAggressivenessStep(s: VadState, level: int): (r: VadState)
    ensures MIN_AGGRESSIVENESS <= r.aggressiveness <= MAX_AGGRESSIVENESS
    ensures MIN_AGGRESSIVENESS <= level <= MAX_AGGRESSIVENESS ==> r.aggressiveness == level
    ensures r == s.(aggressiveness := r.aggressiveness)
  {
    s.(aggressiveness := Clamp(level, MIN_AGGRESSIVENESS, MAX_AGGRESSIVENESS))
  }

  /** `reset()`. */
  function ResetStep(s: VadState): VadState {
    UpdateThreshold(s.(frameCount := 0, energySum := 0.0))
  }

  /** The mean calibration energy (only meaningful once a frame was counted). */
  function AverageEnergy(s: VadState): real
    requires s.frameCount > 0
  {
    s.energySum / s.frameCount as real
  }

  /** `getVoiceProbability()` as written. */
  function VoiceProbability(s: VadState): Float {
    if s.frameCount == 0 then Finite(0.0)
    else ClampUnit(FloatDiv(AverageEnergy(s), s.threshold * 2.0))
  }

  /** `getVoiceProbability()` with a zero threshold guarded, so 0/0 gives 0, not NaN. */
  function VoiceProbabilityGuarded(s: VadState): real {
    if s.frameCount == 0 then 0.0
    else if s.threshold * 2.0 == 0.0 then (if AverageEnergy(s) > 0.0 then 1.0 else 0.0)
    else
      var p := AverageEnergy(s) / (s.threshold * 2.0);
      if p < 0.0 then 0.0 else if 1.0 < p then 1.0 else p
  }

  // ---------------------------------------------------------------------------
  // Properties
  // ---------------------------------------------------------------------------

  /** What every reachable state satisfies. */
  ghost predicate Inv(s: VadState) {
    s.frameCount <= CALIBRATION_FRAMES && MIN_AGGRESSIVENESS <= s.aggressiveness <= MAX_AGGRESSIVENESS
  }

  /**
   * A frame judged voice at one level is voice at every higher level, and after a
   * calibration with positive energy the next threshold is lower at the higher level.
   */
  lemma {:induction false} HigherAggressivenessIsMoreSensitive(s: VadState, b: int, length: nat, energy: real)
    requires Inv(s) && s.aggressiveness < b <= MAX_AGGRESSIVENESS && s.threshold >= 0.0
    ensures ProcessStep(s, length, energy).voice ==> ProcessStep(s.(aggressiveness := b), length, energy).voice
    ensures s.frameCount > 0 && s.energySum > 0.0 ==>
      UpdateThreshold(s.(aggressiveness := b)).threshold < UpdateThreshold(s).threshold
  {
    HigherAggressivenessLowersTheBar(s.aggressiveness, b);
    if s.frameCount > 0 && s.energySum > 0.0 {
      var avg := s.energySum / s.frameCount as real;
      assert avg > 0.0;
      assert avg * ThresholdFactor(b) < avg * ThresholdFactor(s.aggressiveness);
    }
    if ProcessStep(s, length, energy).voice {
      assert energy > s.threshold * Multiplier(s.aggressiveness);
      assert s.threshold * Multiplier(b) <= s.threshold * Multiplier(s.aggressiveness);
    }
  }

  /** The constructor's state: frame size from the integer division, level 2, threshold 1000. */
  lemma InitialState(sampleRate: int, frameSizeMs: int)
    requires -0x8000_0000 <= sampleRate * frameSizeMs < 0x8000_0000
    ensures var s := Initial(sampleRate, frameSizeMs);
      && Inv(s)
      && s.aggressiveness == DEFAULT_AGGRESSIVENESS && s.frameCount == 0
      && s.energySum == 0.0 && s.threshold == DEFAULT_THRESHOLD
      && (sampleRate * frameSizeMs >= 0 ==> s.frameSize == sampleRate * frameSizeMs / 1000)
  {
  }

  /** Every operation keeps the invariant, so `frameCount_` never exceeds 10. */
  lemma StepsPreserveInv(s: VadState, length: nat, energy: real, level: int)
    requires Inv(s)
    ensures Inv(ProcessStep(s, length, energy).after)
    ensures Inv(SetAggressivenessStep(s, level))
    ensures Inv(ResetStep(s))
  {
  }

  /** A frame shorter than the configured size is never voice and changes nothing. */
  lemma ShortFrameIgnored(s: VadState, length: nat, energy: real)
    requires length < s.frameSize
    ensures ProcessStep(s, length, energy) == Processed(false, s)
  {
  }

  datatype Frame = Frame(length: nat, energy: real)

  /** The decisions `processFrame` returns for a series of frames. */
  function Decisions(s: VadState, frames: seq<Frame>): (d: seq<bool>)
    ensures |d| == |frames|
    decreases |frames|
  {
    if frames == [] then []
    else
      var p := ProcessStep(s, frames[0].length, frames[0].energy);
      [p.voice] + Decisions(p.after, frames[1..])
  }

  /** The state after a series of frames. */
  function Run(s: VadState, frames: seq<Frame>): VadState
    decreases |frames|
  {
    if frames == [] then s
    else Run(ProcessStep(s, frames[0].length, frames[0].energy).after, frames[1..])
  }

  function TotalEnergy(frames: seq<Frame>): real
    decreases |frames|
  {
    if frames == [] then 0.0 else frames[0].energy + TotalEnergy(frames[1..])
  }

  ghost predicate FullLength(s: VadState, frames: seq<Frame>) {
    forall i :: 0 <= i < |frames| ==> frames[i].length >= s.frameSize
  }

  /** `frameCount_` stays at most 10 over any series of frames. */
  lemma {:induction false} FrameCountNeverExceedsTen(s: VadState, frames: seq<Frame>)
    requires Inv(s)
    ensures Inv(Run(s, frames))
    decreases |frames|
  {
    if frames != [] {
      StepsPreserveInv(s, frames[0].length, frames[0].energy, 0);
      FrameCountNeverExceedsTen(ProcessStep(s, frames[0].length, frames[0].energy).after, frames[1..]);
    }
  }

  /**
   * Calibration: while fewer than ten frames are counted, full-length frames are never
   * voice; each one is counted and its energy summed, and the threshold stays put.
   */
  lemma {:induction false} CalibrationFramesAreSilent(s: VadState, frames: seq<Frame>)
    requires FullLength(s, frames) && s.frameCount + |frames| <= CALIBRATION_FRAMES
    ensures forall i :: 0 <= i < |frames| ==> !Decisions(s, frames)[i]
    ensures Run(s, frames) == s.(frameCount := s.frameCount + |frames|, energySum := s.energySum + TotalEnergy(frames))
    decreases |frames|
  {
    if frames != [] {
      var next := ProcessStep(s, frames[0].length, frames[0].energy).after;
      assert FullLength(next, frames[1..]) by {
        forall i | 0 <= i < |frames[1..]| ensures frames[1..][i].length >= next.frameSize {
          assert frames[1..][i] == frames[i + 1];
        }
      }
      CalibrationFramesAreSilent(next, frames[1..]);
      forall i | 0 <= i < |frames| ensures !Decisions(s, frames)[i] {
        if i > 0 {
          assert Decisions(s, frames)[i] == Decisions(next, frames[1..])[i - 1];
        }
      }
    }
  }

  /**
   * After calibration the summed energy is frozen, so "updating" the threshold always
   * gives the same value: it moves only when the aggressiveness is changed.
   */
  lemma ThresholdFrozenAfterCalibration(s: VadState, length: nat, energy: real)
    requires s.frameCount == CALIBRATION_FRAMES && length >= s.frameSize
    ensures var p := ProcessStep(s, length, energy);
      && p.after.energySum == s.energySum && p.after.frameCount == s.frameCount
      && p.after.threshold == AverageEnergy(s) * ThresholdFactor(s.aggressiveness)
      && ProcessStep(p.after, length, energy).after == p.after
  {
  }

  /**
   * The first decision after calibration still compares against the default threshold
   * of 1000 (scaled by the multiplier): calibration itself never updates it.
   */
  lemma FirstDecisionUsesDefaultThreshold(s: VadState, frames: seq<Frame>, length: nat, energy: real)
    requires s.frameCount == 0 && s.threshold == DEFAULT_THRESHOLD
    requires |frames| == CALIBRATION_FRAMES && FullLength(s, frames) && length >= s.frameSize
    ensures ProcessStep(Run(s, frames), length, energy).voice == (energy > DEFAULT_THRESHOLD * Multiplier(s.aggressiveness))
  {
    CalibrationFramesAreSilent(s, frames);
  }

  /** `reset` restarts calibration and keeps the aggressiveness and frame size. */
  lemma ResetRestartsCalibration(s: VadState)
    ensures var r := ResetStep(s);
      && r.frameCount == 0 && r.energySum == 0.0 && r.threshold == DEFAULT_THRESHOLD
      && r.aggressiveness == s.aggressiveness && r.frameSize == s.frameSize
      && VoiceProbability(r) == Finite(0.0)
  {
  }

  /** Once the threshold tracks a positive average, the probability is a constant of the level alone. */
  lemma ProbabilityDependsOnlyOnAggressiveness(s: VadState)
    requires Inv(s) && s.frameCount > 0 && s.energySum > 0.0
    ensures VoiceProbability(UpdateThreshold(s)) == Finite(1.0 / (2.0 * ThresholdFactor(s.aggressiveness)))
  {
    var a := AverageEnergy(s);
    var f := ThresholdFactor(s.aggressiveness);
    assert a > 0.0 && f > 1.0;
    assert (a * f) * 2.0 != 0.0;
    assert a / ((a * f) * 2.0) == 1.0 / (2.0 * f);
  }

  /** As written: a silent calibration drives the threshold to 0, and the probability to 0/0. */
  lemma SilentCalibrationGivesNaN(s: VadState, length: nat, energy: real)
    requires s.frameCount == CALIBRATION_FRAMES && s.energySum == 0.0 && length >= s.frameSize
    ensures VoiceProbability(ProcessStep(s, length, energy).after) == NaN
  {
  }

  /** The concrete run: reset, ten silent frames of 480 samples, one more frame, then NaN. */
  lemma SilentRunExample(s: VadState, frames: seq<Frame>)
    requires s.frameSize == 480
    requires frames == seq(CALIBRATION_FRAMES, _ => Frame(480, 0.0))
    ensures VoiceProbability(ProcessStep(Run(ResetStep(s), frames), 480, 0.0).after) == NaN
  {
    SilentTotal(frames);
    CalibrationFramesAreSilent(ResetStep(s), frames);
  }

  lemma {:induction false} SilentTotal(frames: seq<Frame>)
    requires forall i :: 0 <= i < |frames| ==> frames[i].energy == 0.0
    ensures TotalEnergy(frames) == 0.0
    decreases |frames|
  {
    if frames != [] {
      SilentTotal(frames[1..]);
    }
  }

  /** Corrected: the guarded probability is 0 before calibration and always within [0, 1]. */
  lemma GuardedProbabilityInUnitRange(s: VadState)
    ensures 0.0 <= VoiceProbabilityGuarded(s) <= 1.0
    ensures s.frameCount == 0 ==> VoiceProbabilityGuarded(s) == 0.0
  {
  }

  /** The guard changes nothing except where the code as written returns NaN. */
  lemma GuardedAgreesUnlessNaN(s: VadState)
    ensures VoiceProbability(s) != NaN ==> VoiceProbability(s) == Finite(VoiceProbabilityGuarded(s))
    ensures VoiceProbability(s) == NaN ==> VoiceProbabilityGuarded(s) == 0.0
  {
  }

  // ---------------------------------------------------------------------------
  // The detector object
  // ---------------------------------------------------------------------------

  class VadProcessor {
    const sampleRate: int
    const frameSize: nat
    var aggressiveness: int
    var frameCount: nat
    var energySum: real
    var threshold: real

    function View(): VadState
      reads this
    {
      VadState(frameSize, aggressiveness, frameCount, energySum, threshold)
    }

    /** `VadProcessor(sampleRate, frameSizeMs)`; the product must not overflow `int`. */
    constructor (rate: int, frameSizeMs: int)
      requires -0x8000_0000 <= rate * frameSizeMs < 0x8000_0000
      ensures sampleRate == rate && View() == Initial(rate, frameSizeMs)
    {
      sampleRate := rate;
      frameSize := ToSizeT(TruncDiv(rate * frameSizeMs, 1000));
      aggressiveness := DEFAULT_AGGRESSIVENESS;
      frameCount := 0;
      energySum := 0.0;
      threshold := 1000.0;
      new;
      UpdateThresholdInPlace();
    }

    method UpdateThresholdInPlace()
      modifies this
      ensures View() == UpdateThreshold(old(View()))
    {
      if frameCount > 0 {
        var avgEnergy := energySum / frameCount as real;
        threshold := avgEnergy * (1.5 - aggressiveness as real * 0.15);
      } else {
        threshold := 1000.0;
      }
    }

    /** `processFrame(audio, length)`; `energy` is what `calculateEnergy(audio, length)` gives. */
    method ProcessFrame(length: nat, energy: real) returns (hasVoice: bool)
      modifies this
      ensures Processed(hasVoice, View()) == ProcessStep(old(View()), length, energy)
    {
      if length < frameSize {
        return false;
      }
      if frameCount < CALIBRATION_FRAMES {
        energySum := energySum + energy;
        frameCount := frameCount + 1;
        return false;
      }
      hasVoice := energy > threshold * Multiplier(aggressiveness);
      UpdateThresholdInPlace();
    }

    /** `setAggressiveness(level)`. */
    method SetAggressiveness(level: int)
      modifies this
      ensures View() == SetAggressivenessStep(old(View()), level)
    {
      aggressiveness := Clamp(level, MIN_AGGRESSIVENESS, MAX_AGGRESSIVENESS);
    }

    /** `getVoiceProbability()`, as written. */
    method GetVoiceProbability() returns (p: Float)
      ensures p == VoiceProbability(View())
    {
      if frameCount == 0 {
        return Finite(0.0);
      }
      var avgEnergy := energySum / frameCount as real;
      p := ClampUnit(FloatDiv(avgEnergy, threshold * 2.0));
    }

    /** `getVoiceProbability()` with the zero-threshold guard. */
    method GetVoiceProbabilityGuarded() returns (p: real)
      ensures p == VoiceProbabilityGuarded(View())
      ensures 0.0 <= p <= 1.0
    {
      GuardedProbabilityInUnitRange(View());
      if frameCount == 0 {
        return 0.0;
      }
      var avgEnergy := energySum / frameCount as real;
      var denominator := threshold * 2.0;
      if denominator == 0.0 {
        return if avgEnergy > 0.0 then 1.0 else 0.0;
      }
      p := avgEnergy / denominator;
      p := if p < 0.0 then 0.0 else if 1.0 < p then 1.0 else p;
    }

    /** `reset()`. */
    method Reset()
      modifies this
      ensures View() == ResetStep(old(View()))
    {
      frameCount := 0;
      energySum := 0.0;
      UpdateThresholdInPlace();
    }
  }
}
