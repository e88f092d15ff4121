/**
 * The noise suppressor's control paths. A frame is copied through unchanged when
 * suppression is off, copied (truncated) when its length differs from the configured
 * frame size, and otherwise run through the spectral gate, which is counted. The gate's
 * floating-point arithmetic is not modelled: the samples it produces and the noise floor
 * it learns are parameters of the step.
 */
module Denoise {
  import opened Common

  const MIN_SUPPRESSION_DB: int := 0
  const MAX_SUPPRESSION_DB: int := 45
  /** The gate learns the noise floor only during the first 100 suppressed frames. */
  const NOISE_LEARNING_FRAMES: nat := 100

  /** The entries of the noise profile vectors for a frame of `frameSize` samples. */
  function ProfileBins(frameSize: int): int {
    TruncDiv(frameSize, 2) + 1
  }

  /** What `processFrame` does with a frame. */
  datatype Path = Bypass | SizeMismatch | Suppress

  /** The suppressor's integer state (`Impl`'s scalar fields; `sampleRate_` is never read). */
  datatype NsState = NsState(frameSize: nat, suppressionDb: int, isReady: bool, frameCount: nat)

  function Route(s: NsState, length: nat): (p: Path)
    ensures p == Bypass <==> !s.isReady || s.suppressionDb == 0
    ensures p == Suppress ==> length == s.frameSize
  {
    if !s.isReady || s.suppressionDb == 0 then Bypass
    else if length != s.frameSize then SizeMismatch
    else Suppress
  }

  /** The number of output samples `processFrame` writes and reports. */
  function SamplesHandled(s: NsState, length: nat): (n: nat)
    ensures n <= length
    ensures Route(s, length) == SizeMismatch ==> n <= s.frameSize
  {
    match Route(s, length)
    case Bypass => length
    case SizeMismatch => if length < s.frameSize then length else s.frameSize
    case Suppress => length
  }

  /** The state after `processFrame`: only a suppressed frame is counted. */
  function ProcessStep(s: NsState, length: nat): NsState {
    if Route(s, length) == Suppress then s.(frameCount := s.frameCount + 1) else s
  }

  /**
   * The output buffer after `processFrame`: the gate's samples on the suppression path,
   * otherwise the first `SamplesHandled` input samples; later samples are untouched.
   */
  function ProcessedOutput(s: NsState, input: seq<i16>, output: seq<i16>, length: nat, gated: seq<i16>): (out: seq<i16>)
    requires |input| >= length && |output| >= length && |gated| == length
    ensures |out| == |output|
    ensures out[SamplesHandled(s, length)..] == output[SamplesHandled(s, length)..]
  {
    var n := SamplesHandled(s, length);
    if Route(s, length) == Suppress then gated + output[n..] else input[..n] + output[n..]
  }

  /** `setSuppression(db)`. */
  function SetSuppressionStep(s: NsState, db: int): (r: NsState)
    ensures MIN_SUPPRESSION_DB <= r.suppressionDb <= MAX_SUPPRESSION_DB
    ensures MIN_SUPPRESSION_DB <= db <= MAX_SUPPRESSION_DB ==> r.suppressionDb == db
    ensures r == s.(suppressionDb := r.suppressionDb)
  {
    s.(suppressionDb := Clamp(db, MIN_SUPPRESSION_DB, MAX_SUPPRESSION_DB))
  }

  // ---------------------------------------------------------------------------
  // Properties
  // ---------------------------------------------------------------------------

  /** Suppression off: all `length` samples are copied unchanged, whatever the frame size, and nothing is counted. */
  lemma BypassCopiesEverything(s: NsState, input: seq<i16>, output: seq<i16>, length: nat, gated: seq<i16>)
    requires |input| >= length && |output| >= length && |gated| == length
    requires s.suppressionDb == 0
    ensures SamplesHandled(s, length) == length
    ensures ProcessedOutput(s, input, output, length, gated)[..length] == input[..length]
    ensures ProcessStep(s, length) == s
  {
  }

  /** A frame of the wrong size is truncated to the frame size, copied unchanged, and not counted. */
  lemma MismatchCopiesPrefix(s: NsState, input: seq<i16>, output: seq<i16>, length: nat, gated: seq<i16>)
    requires |input| >= length && |output| >= length && |gated| == length
    requires s.isReady && s.suppressionDb > 0 && length != s.frameSize
    ensures var n := SamplesHandled(s, length);
      && n == (if length < s.frameSize then length else s.frameSize)
      && ProcessedOutput(s, input, output, length, gated)[..n] == input[..n]
    ensures ProcessStep(s, length) == s
  {
  }

  /** A full frame with suppression on is gated, reported whole, and counted exactly once. */
  lemma SuppressedFrameCounted(s: NsState, input: seq<i16>, output: seq<i16>, length: nat, gated: seq<i16>)
    requires |input| >= length && |output| >= length && |gated| == length
    requires s.isReady && s.suppressionDb > 0 && length == s.frameSize
    ensures SamplesHandled(s, length) == length
    ensures ProcessedOutput(s, input, output, length, gated)[..length] == gated
    ensures ProcessStep(s, length).frameCount == s.frameCount + 1
    ensures ProcessStep(s, length) == s.(frameCount := s.frameCount + 1)
  {
  }

  /** Only the gate alters audio: on every other path the written samples equal the input. */
  lemma OnlyTheGateAltersSamples(s: NsState, input: seq<i16>, output: seq<i16>, length: nat, gated: seq<i16>)
    requires |input| >= length && |output| >= length && |gated| == length
    requires Route(s, length) != Suppress
    ensures var n := SamplesHandled(s, length);
      ProcessedOutput(s, input, output, length, gated)[..n] == input[..n]
    ensures ProcessStep(s, length) == s
  {
  }

  /** The reported count is `length` converted to `int`, exact below 2^31. */
  lemma ReportedCountExact(s: NsState, length: nat)
    requires length < 0x8000_0000
    ensures ToInt32(SamplesHandled(s, length)) == SamplesHandled(s, length)
  {
  }

  /** Setting the level twice is setting it once, and the new level is reported back. */
  lemma SetSuppressionIdempotent(s: NsState, db: int)
    ensures SetSuppressionStep(SetSuppressionStep(s, db), db) == SetSuppressionStep(s, db)
    ensures SetSuppressionStep(s, db).suppressionDb == Clamp(db, MIN_SUPPRESSION_DB, MAX_SUPPRESSION_DB)
  {
  }

  // ---------------------------------------------------------------------------
  // The suppressor object
  // ---------------------------------------------------------------------------

  /** `memcpy(dst, src, n * sizeof(int16_t))`. */
  method CopySamples(dst: array<i16>, src: seq<i16>, n: nat)
    requires n <= dst.Length && n <= |src|
    modifies dst
    ensures dst[..n] == src[..n]
    ensures dst[n..] == old(dst[n..])
  {
    var i := 0;
    while i < n
      invariant 0 <= i <= n
      invariant dst[..i] == src[..i]
      invariant dst[i..] == old(dst[i..])
    {
      dst[i] := src[i];
      i := i + 1;
      assert dst[..i] == dst[..i - 1] + [src[i - 1]];
      assert src[..i] == src[..i - 1] + [src[i - 1]];
    }
  }

  /** `std::fill(v.begin(), v.end(), 0.0f)`. */
  method FillZero(a: array<real>)
    modifies a
    ensures forall i :: 0 <= i < a.Length ==> a[i] == 0.0
  {
    var i := 0;
    while i < a.Length
      invariant 0 <= i <= a.Length
      invariant forall j :: 0 <= j < i ==> a[j] == 0.0
    {
      a[i] := 0.0;
      i := i + 1;
    }
  }

  /** Overwrite the whole of `a` with `values`. */
  method StoreAll(a: array<real>, values: seq<real>)
    requires |values| == a.Length
    modifies a
    ensures a[..] == values
  {
    var i := 0;
    while i < a.Length
      invariant 0 <= i <= a.Length
      invariant a[..i] == values[..i]
    {
      a[i] := values[i];
      i := i + 1;
      assert a[..i] == a[..i - 1] + [values[i - 1]];
      assert values[..i] == values[..i - 1] + [values[i - 1]];
    }
    assert a[..] == a[..a.Length];
  }

  class NoiseSuppressor {
    const sampleRate: int
    const frameSize: nat
    var suppressionDb: int
    var isReady: bool
    var frameCount: nat
    /** `noiseFloor_` and `smoothedPower_`, `frameSize / 2 + 1` entries each. */
    const noiseFloor: array<real>
    const smoothedPower: array<real>

    ghost predicate Valid()
      reads this
    {
      && noiseFloor != smoothedPower
      && noiseFloor.Length == smoothedPower.Length
      && MIN_SUPPRESSION_DB <= suppressionDb <= MAX_SUPPRESSION_DB
    }

    function View(): NsState
      reads this
    {
      NsState(frameSize, suppressionDb, isReady, frameCount)
    }

    /**
     * `NoiseSuppressor(sampleRate, frameSize)`. A size below -3 would ask for a vector of
     * negative length, which the vector constructor rejects.
     */
    constructor (rate: int, size: int)
      requires ProfileBins(size) >= 0 && size < SIZE_T_MOD
      ensures Valid() && fresh(noiseFloor) && fresh(smoothedPower)
      ensures sampleRate == rate && View() == NsState(ToSizeT(size), 0, true, 0)
      ensures noiseFloor.Length == ProfileBins(size)
      ensures forall i :: 0 <= i < noiseFloor.Length ==> noiseFloor[i] == 0.0 && smoothedPower[i] == 0.0
    {
      sampleRate := rate;
      frameSize := ToSizeT(size);
      suppressionDb := 0;
      isReady := false;
      frameCount := 0;
      noiseFloor := new real[ProfileBins(size)](_ => 0.0);
      smoothedPower := new real[ProfileBins(size)](_ => 0.0);
      new;
      isReady := true;
    }

    /**
     * `processFrame(input, output, length)`. `gated` stands for the samples the spectral
     * gate computes and `learnedFloor` for the noise profile it leaves, while it still learns.
     */
    method ProcessFrame(input: seq<i16>, output: array<i16>, length: nat, gated: seq<i16>, learnedFloor: seq<real>)
      returns (n: int)
      requires Valid() && length < SIZE_T_MOD
      requires |input| >= length && output.Length >= length
      requires |gated| == length && |learnedFloor| == noiseFloor.Length
      modifies this, output, noiseFloor
      ensures Valid()
      ensures n == ToInt32(SamplesHandled(old(View()), length))
      ensures View() == ProcessStep(old(View()), length)
      ensures output[..] == ProcessedOutput(old(View()), input, old(output[..]), length, gated)
      ensures noiseFloor[..] ==
        if Route(old(View()), length) == Suppress && old(frameCount) < NOISE_LEARNING_FRAMES then learnedFloor
        else old(noiseFloor[..])
      ensures smoothedPower[..] == old(smoothedPower[..])
    {
      if !isReady || suppressionDb == 0 {
        CopySamples(output, input, length);
        assert output[..] == output[..length] + output[length..];
        return ToInt32(length);
      }
      if length != frameSize {
        var copySize := if length < frameSize then length else frameSize;
        CopySamples(output, input, copySize);
        assert output[..] == output[..copySize] + output[copySize..];
        return ToInt32(copySize);
      }
      ApplyNoiseSuppression(output, length, gated, learnedFloor);
      frameCount := frameCount + 1;
      return ToInt32(length);
    }

    /** `applyNoiseSuppression`: the gate's samples, and a new noise floor while it learns. */
    method ApplyNoiseSuppression(output: array<i16>, length: nat, gated: seq<i16>, learnedFloor: seq<real>)
      requires Valid() && output.Length >= length && |gated| == length && |learnedFloor| == noiseFloor.Length
      modifies output, noiseFloor
      ensures output[..] == gated + old(output[length..])
      ensures noiseFloor[..] == if frameCount < NOISE_LEARNING_FRAMES then learnedFloor else old(noiseFloor[..])
    {
      CopySamples(output, gated, length);
      assert gated[..length] == gated;
      assert output[..] == output[..length] + output[length..];
      if frameCount < NOISE_LEARNING_FRAMES {
        StoreAll(noiseFloor, learnedFloor);
      }
    }

    /** `setSuppression(db)`. */
    method SetSuppression(db: int)
      requires Valid()
      modifies this
      ensures Valid()
      ensures View() == SetSuppressionStep(old(View()), db)
    {
      suppressionDb := Clamp(db, MIN_SUPPRESSION_DB, MAX_SUPPRESSION_DB);
    }

    /** `getSuppression()`. */
    method GetSuppression() returns (db: int)
      requires Valid()
      ensures db == suppressionDb && MIN_SUPPRESSION_DB <= db <= MAX_SUPPRESSION_DB
    {
      db := suppressionDb;
    }

    /** `isReady()`. */
    method IsReady() returns (ready: bool)
      ensures ready == isReady
    {
      ready := isReady;
    }

    /** `reset()`: restart the frame count and zero both profiles; the level is kept. */
    method Reset()
      requires Valid()
      modifies this, noiseFloor, smoothedPower
      ensures Valid() && View() == old(View()).(frameCount := 0)
      ensures forall i :: 0 <= i < noiseFloor.Length ==> noiseFloor[i] == 0.0 && smoothedPower[i] == 0.0
    {
      frameCount := 0;
      FillZero(noiseFloor);
      FillZero(smoothedPower);
    }
  }
}
