/**
 * The Opus wrapper: an encoder and a decoder object around libopus handles, and a
 * factory that hands out only initialised ones. The library itself is not modelled: a
 * handle is an object that records the control requests (`opus_*_ctl`) it receives, and
 * every result the library computes (creation, encode, decode) is a parameter.
 */
module Opus {
  import opened Common

  const OPUS_OK: int := 0
  const OPUS_SAMPLE_RATE: int := 16000
  const OPUS_CHANNELS: int := 1
  /** Samples per codec frame, as the code defines it. */
  const OPUS_FRAME_SIZE: int := 960
  const OPUS_BITRATE: int := 12000
  const OPUS_MAX_PACKET_SIZE: int := 4000

  const MIN_BITRATE: int := 6000
  const MAX_BITRATE: int := 64000
  const MIN_COMPLEXITY: int := 0
  const MAX_COMPLEXITY: int := 10
  const DEFAULT_COMPLEXITY: int := 5
  /** The packet loss the encoder is told to expect, in percent. */
  const EXPECTED_LOSS_PERCENT: int := 5

  /** Milliseconds of audio in `samples` samples at the codec's sample rate. */
  function FrameMillis(samples: int): int {
    samples * 1000 / OPUS_SAMPLE_RATE
  }

  /**
   * At the codec's 16 kHz a frame of 960 samples lasts 60 ms (960 samples is 20 ms only
   * at 48 kHz); the 20 ms frame at 16 kHz is 320 samples.
   */
  lemma FrameSizeIsSixtyMillis()
    ensures FrameMillis(OPUS_FRAME_SIZE) == 60
    ensures FrameMillis(320) == 20
  {
  }

  /** `OpusMode`: the libopus application the encoder is created for. */
  datatype OpusMode = Voip | Audio | LowDelay

  // ---------------------------------------------------------------------------
  // Library handles
  // ---------------------------------------------------------------------------

  /** An encoder setting that `opus_encoder_ctl` can set. */
  datatype EncoderSetting = Bitrate | Complexity | InbandFec | PacketLossPerc | Dtx

  datatype EncoderCtl = SetEncoder(setting: EncoderSetting, value: int) | ResetEncoder

  /** The value most recently requested for `setting`, if any request was made. */
  function LastValue(ctls: seq<EncoderCtl>, setting: EncoderSetting): (r: Option<int>)
    ensures r.Some? ==> SetEncoder(setting, r.value) in ctls
    ensures r.None? ==> forall i :: 0 <= i < |ctls| ==> !(ctls[i].SetEncoder? && ctls[i].setting == setting)
  {
    if ctls == [] then None
    else
      var c := ctls[|ctls| - 1];
      if c.SetEncoder? && c.setting == setting then Some(c.value)
      else LastValue(ctls[..|ctls| - 1], setting)
  }

  /** A request for `setting` is what that setting now holds. */
  lemma LastValueAfterSet(ctls: seq<EncoderCtl>, setting: EncoderSetting, v: int)
    ensures LastValue(ctls + [SetEncoder(setting, v)], setting) == Some(v)
  {
  }

  /** A request for another setting, or a state reset, leaves `setting` as it was. */
  lemma {:induction false} LastValueAfterOther(ctls: seq<EncoderCtl>, setting: EncoderSetting, c: EncoderCtl)
    requires !(c.SetEncoder? && c.setting == setting)
    ensures LastValue(ctls + [c], setting) == LastValue(ctls, setting)
  {
    assert (ctls + [c])[..|ctls|] == ctls;
  }

  /** The `opus_encoder_ctl` requests `initialize` makes, in order. */
  function InitRequests(bitrate: int, complexity: int, fec: bool): (r: seq<EncoderCtl>)
    ensures |r| == 5
  {
    [SetEncoder(Bitrate, bitrate), SetEncoder(Complexity, complexity),
     SetEncoder(InbandFec, if fec then 1 else 0), SetEncoder(PacketLossPerc, EXPECTED_LOSS_PERCENT),
     SetEncoder(Dtx, 1)]
  }

  /**
   * After `initialize`, the encoder runs with the stored bitrate, complexity and FEC flag,
   * 5% expected loss and discontinuous transmission on.
   */
  lemma {:induction false} InitPushesStoredSettings(bitrate: int, complexity: int, fec: bool)
    ensures var r := InitRequests(bitrate, complexity, fec);
      && LastValue(r, Bitrate) == Some(bitrate)
      && LastValue(r, Complexity) == Some(complexity)
      && LastValue(r, InbandFec) == Some(if fec then 1 else 0)
      && LastValue(r, PacketLossPerc) == Some(EXPECTED_LOSS_PERCENT)
      && LastValue(r, Dtx) == Some(1)
  {
    var f := if fec then 1 else 0;
    var r1 := [SetEncoder(Bitrate, bitrate)];
    var r2 := r1 + [SetEncoder(Complexity, complexity)];
    var r3 := r2 + [SetEncoder(InbandFec, f)];
    var r4 := r3 + [SetEncoder(PacketLossPerc, EXPECTED_LOSS_PERCENT)];
    var r5 := r4 + [SetEncoder(Dtx, 1)];
    assert r5 == InitRequests(bitrate, complexity, fec);
    LastValueAfterSet([], Bitrate, bitrate);
    assert [] + [SetEncoder(Bitrate, bitrate)] == r1;
    LastValueAfterSet(r1, Complexity, complexity);
    LastValueAfterOther(r1, Bitrate, SetEncoder(Complexity, complexity));
    LastValueAfterSet(r2, InbandFec, f);
    LastValueAfterOther(r2, Bitrate, SetEncoder(InbandFec, f));
    LastValueAfterOther(r2, Complexity, SetEncoder(InbandFec, f));
    LastValueAfterSet(r3, PacketLossPerc, EXPECTED_LOSS_PERCENT);
    LastValueAfterOther(r3, Bitrate, SetEncoder(PacketLossPerc, EXPECTED_LOSS_PERCENT));
    LastValueAfterOther(r3, Complexity, SetEncoder(PacketLossPerc, EXPECTED_LOSS_PERCENT));
    LastValueAfterOther(r3, InbandFec, SetEncoder(PacketLossPerc, EXPECTED_LOSS_PERCENT));
    LastValueAfterSet(r4, Dtx, 1);
    LastValueAfterOther(r4, Bitrate, SetEncoder(Dtx, 1));
    LastValueAfterOther(r4, Complexity, SetEncoder(Dtx, 1));
    LastValueAfterOther(r4, InbandFec, SetEncoder(Dtx, 1));
    LastValueAfterOther(r4, PacketLossPerc, SetEncoder(Dtx, 1));
  }

  /** An `OpusEncoder*` from `opus_encoder_create`: its application and the requests it got. */
  class LibEncoder {
    const application: OpusMode
    var requests: seq<EncoderCtl>

    constructor (mode: OpusMode)
      ensures application == mode && requests == []
    {
      application := mode;
      requests := [];
    }

    /** `opus_encoder_ctl(handle, request)`. */
    method Ctl(request: EncoderCtl)
      modifies this
      ensures requests == old(requests) + [request]
    {
      requests := requests + [request];
    }
  }

  datatype DecoderCtl = SetDecoderInbandFec(value: int) | ResetDecoder

  /** An `OpusDecoder*` from `opus_decoder_create` and the requests it got. */
  class LibDecoder {
    var requests: seq<DecoderCtl>

    constructor ()
      ensures requests == []
    {
      requests := [];
    }

    /** `opus_decoder_ctl(handle, request)`. */
    method Ctl(request: DecoderCtl)
      modifies this
      ensures requests == old(requests) + [request]
    {
      requests := requests + [request];
    }
  }

  // ---------------------------------------------------------------------------
  // Encoder configuration
  // ---------------------------------------------------------------------------

  /** What `setBitrate(b)` stores: `b` clamped to 6000..64000 bps. */
  function BitrateSetting(b: int): (r: int)
    ensures MIN_BITRATE <= r <= MAX_BITRATE
    ensures MIN_BITRATE <= b <= MAX_BITRATE ==> r == b
    ensures b < MIN_BITRATE ==> r == MIN_BITRATE
    ensures b > MAX_BITRATE ==> r == MAX_BITRATE
  {
    if b < MIN_BITRATE || b > MAX_BITRATE then Clamp(b, MIN_BITRATE, MAX_BITRATE) else b
  }

  /** What `setComplexity(c)` stores: `c` clamped to 0..10. */
  function ComplexitySetting(c: int): (r: int)
    ensures MIN_COMPLEXITY <= r <= MAX_COMPLEXITY
    ensures MIN_COMPLEXITY <= c <= MAX_COMPLEXITY ==> r == c
    ensures c < MIN_COMPLEXITY ==> r == MIN_COMPLEXITY
    ensures c > MAX_COMPLEXITY ==> r == MAX_COMPLEXITY
  {
    if c < MIN_COMPLEXITY || c > MAX_COMPLEXITY then Clamp(c, MIN_COMPLEXITY, MAX_COMPLEXITY) else c
  }

  /** Setting a stored value again keeps it; a larger request never stores less. */
  lemma SettingsIdempotentAndMonotone(b1: int, b2: int, c1: int, c2: int)
    ensures BitrateSetting(BitrateSetting(b1)) == BitrateSetting(b1)
    ensures ComplexitySetting(ComplexitySetting(c1)) == ComplexitySetting(c1)
    ensures b1 <= b2 ==> BitrateSetting(b1) <= BitrateSetting(b2)
    ensures c1 <= c2 ==> ComplexitySetting(c1) <= ComplexitySetting(c2)
  {
  }

  /** The default bitrate is one the setter would keep unchanged. */
  lemma DefaultConfigurationInRange()
    ensures BitrateSetting(OPUS_BITRATE) == OPUS_BITRATE
    ensures ComplexitySetting(DEFAULT_COMPLEXITY) == DEFAULT_COMPLEXITY
  {
  }

  /** What `encode` returns: -1 without a handle, else the library's result, whatever the frame size. */
  function EncodeResult(hasEncoder: bool, frameSize: int, libResult: int): (r: int)
    ensures !hasEncoder ==> r == -1
    ensures hasEncoder ==> r == libResult
  {
    if !hasEncoder then -1 else libResult
  }

  /** A frame size other than 960 is never rejected: it only changes the log. */
  lemma FrameSizeNeverRejected(frameSize: int, libResult: int)
    ensures EncodeResult(true, frameSize, libResult) == EncodeResult(true, OPUS_FRAME_SIZE, libResult)
  {
  }

  class OpusEncoder {
    var encoder: LibEncoder?
    var bitrate: int
    var fecEnabled: bool
    var complexity: int

    constructor ()
      ensures encoder == null && bitrate == OPUS_BITRATE && !fecEnabled && complexity == DEFAULT_COMPLEXITY
      ensures Synced()
    {
      encoder := null;
      bitrate := OPUS_BITRATE;
      fecEnabled := false;
      complexity := DEFAULT_COMPLEXITY;
    }

    /** The handle, if any, was last told exactly the settings the getters report. */
    ghost predicate Synced()
      reads this, encoder
    {
      encoder != null ==>
        && LastValue(encoder.requests, Bitrate) == Some(bitrate)
        && LastValue(encoder.requests, Complexity) == Some(complexity)
        && LastValue(encoder.requests, InbandFec) == Some(if fecEnabled then 1 else 0)
    }

    /**
     * `initialize(mode)`. `created` is whether `opus_encoder_create` returned a handle
     * and `error` the code it reported; the settings are pushed only when both are good.
     */
    method Initialize(mode: OpusMode, created: bool, error: int) returns (ok: bool)
      modifies this
      ensures ok <==> created && error == OPUS_OK
      ensures created ==> fresh(encoder) && encoder.application == mode
      ensures !created ==> encoder == null
      ensures ok ==> encoder.requests == InitRequests(bitrate, complexity, fecEnabled) && Synced()
      ensures !ok && encoder != null ==> encoder.requests == []
      ensures bitrate == old(bitrate) && complexity == old(complexity) && fecEnabled == old(fecEnabled)
    {
      if created {
        encoder := new LibEncoder(mode);
      } else {
        encoder := null;
      }
      if error != OPUS_OK || encoder == null {
        return false;
      }
      encoder.Ctl(SetEncoder(Bitrate, bitrate));
      encoder.Ctl(SetEncoder(Complexity, complexity));
      encoder.Ctl(SetEncoder(InbandFec, if fecEnabled then 1 else 0));
      encoder.Ctl(SetEncoder(PacketLossPerc, EXPECTED_LOSS_PERCENT));
      encoder.Ctl(SetEncoder(Dtx, 1));
      InitPushesStoredSettings(bitrate, complexity, fecEnabled);
      ok := true;
    }

    /** `encode(pcm, frameSize, output, maxOutputSize)`; `libResult` is what `opus_encode` returns. */
    method Encode(frameSize: int, libResult: int) returns (n: int)
      ensures n == EncodeResult(encoder != null, frameSize, libResult)
    {
      if encoder == null {
        return -1;
      }
      n := libResult;
    }

    /** `reset()`: asks the handle, if any, to reset its state; the settings are kept. */
    method Reset()
      requires Synced()
      modifies encoder
      ensures encoder != null ==> encoder.requests == old(encoder.requests) + [ResetEncoder]
      ensures Synced()
    {
      if encoder != null {
        LastValueAfterOther(encoder.requests, Bitrate, ResetEncoder);
        LastValueAfterOther(encoder.requests, Complexity, ResetEncoder);
        LastValueAfterOther(encoder.requests, InbandFec, ResetEncoder);
        encoder.Ctl(ResetEncoder);
      }
    }

    /** `setBitrate(b)`. */
    method SetBitrate(b: int)
      requires Synced()
      modifies this, encoder
      ensures bitrate == BitrateSetting(b)
      ensures encoder == old(encoder) && complexity == old(complexity) && fecEnabled == old(fecEnabled)
      ensures encoder != null ==> encoder.requests == old(encoder.requests) + [SetEncoder(Bitrate, bitrate)]
      ensures Synced()
    {
      var value := b;
      if value < MIN_BITRATE || value > MAX_BITRATE {
        value := Clamp(value, MIN_BITRATE, MAX_BITRATE);
      }
      bitrate := value;
      if encoder != null {
        LastValueAfterSet(encoder.requests, Bitrate, value);
        LastValueAfterOther(encoder.requests, Complexity, SetEncoder(Bitrate, value));
        LastValueAfterOther(encoder.requests, InbandFec, SetEncoder(Bitrate, value));
        encoder.Ctl(SetEncoder(Bitrate, value));
      }
    }

    /** `setFEC(enable)`. */
    method SetFec(enable: bool)
      requires Synced()
      modifies this, encoder
      ensures fecEnabled == enable
      ensures encoder == old(encoder) && bitrate == old(bitrate) && complexity == old(complexity)
      ensures encoder != null ==>
        encoder.requests == old(encoder.requests) + [SetEncoder(InbandFec, if enable then 1 else 0)]
      ensures Synced()
    {
      fecEnabled := enable;
      if encoder != null {
        var c := SetEncoder(InbandFec, if enable then 1 else 0);
        LastValueAfterSet(encoder.requests, InbandFec, c.value);
        LastValueAfterOther(encoder.requests, Bitrate, c);
        LastValueAfterOther(encoder.requests, Complexity, c);
        encoder.Ctl(c);
      }
    }

    /** `setComplexity(c)`. */
    method SetComplexity(c: int)
      requires Synced()
      modifies this, encoder
      ensures complexity == ComplexitySetting(c)
      ensures encoder == old(encoder) && bitrate == old(bitrate) && fecEnabled == old(fecEnabled)
      ensures encoder != null ==> encoder.requests == old(encoder.requests) + [SetEncoder(Complexity, complexity)]
      ensures Synced()
    {
      var value := c;
      if value < MIN_COMPLEXITY || value > MAX_COMPLEXITY {
        value := Clamp(value, MIN_COMPLEXITY, MAX_COMPLEXITY);
      }
      complexity := value;
      if encoder != null {
        LastValueAfterSet(encoder.requests, Complexity, value);
        LastValueAfterOther(encoder.requests, Bitrate, SetEncoder(Complexity, value));
        LastValueAfterOther(encoder.requests, InbandFec, SetEncoder(Complexity, value));
        encoder.Ctl(SetEncoder(Complexity, value));
      }
    }
  }

  // ---------------------------------------------------------------------------
  // Decoder error bookkeeping
  // ---------------------------------------------------------------------------

  /** The decoder's observable state: whether it has a handle, and `lastError_`. */
  datatype DecoderView = DecoderView(hasDecoder: bool, lastError: int)

  datatype Decoded = Decoded(samples: int, after: DecoderView)

  /** `decode`: -1 and nothing changes without a handle; otherwise the error follows the result. */
  function DecodeStep(v: DecoderView, libResult: int): Decoded {
    if !v.hasDecoder then Decoded(-1, v)
    else Decoded(libResult, v.(lastError := if libResult < 0 then libResult else OPUS_OK))
  }

  /** `decodePLC`: like `decode`, except that a success leaves the last error as it was. */
  function PlcStep(v: DecoderView, libResult: int): Decoded {
    if !v.hasDecoder then Decoded(-1, v)
    else if libResult < 0 then Decoded(libResult, v.(lastError := libResult))
    else Decoded(libResult, v)
  }

  /** The rules of `decode`, read off its result. */
  lemma DecodeRules(v: DecoderView, libResult: int)
    ensures !v.hasDecoder ==> DecodeStep(v, libResult) == Decoded(-1, v)
    ensures v.hasDecoder ==> DecodeStep(v, libResult).samples == libResult
    ensures v.hasDecoder ==> (DecodeStep(v, libResult).after.lastError < 0 <==> libResult < 0)
    ensures v.hasDecoder && libResult < 0 ==> DecodeStep(v, libResult).after.lastError == libResult
    ensures DecodeStep(v, libResult).after.hasDecoder == v.hasDecoder
  {
  }

  /** The rules of `decodePLC`: only a failure is recorded. */
  lemma PlcRules(v: DecoderView, libResult: int)
    ensures !v.hasDecoder ==> PlcStep(v, libResult) == Decoded(-1, v)
    ensures v.hasDecoder ==> PlcStep(v, libResult).samples == libResult
    ensures libResult >= 0 ==> PlcStep(v, libResult).after == v
    ensures v.hasDecoder && libResult < 0 ==> PlcStep(v, libResult).after.lastError == libResult
  {
  }

  /** A successful `decode` clears an error a failed concealment left behind. */
  lemma DecodeClearsPlcError(v: DecoderView, plcResult: int, decodeResult: int)
    requires v.hasDecoder && plcResult < 0 && decodeResult >= 0
    ensures PlcStep(v, plcResult).after.lastError == plcResult
    ensures DecodeStep(PlcStep(v, plcResult).after, decodeResult).after.lastError == OPUS_OK
  {
  }

  datatype DecoderCall = DecodeCall(libResult: int) | PlcCall(libResult: int)

  /** The decoder's state after a series of `decode` / `decodePLC` calls. */
  function RunDecoder(v: DecoderView, calls: seq<DecoderCall>): DecoderView
    decreases |calls|
  {
    if calls == [] then v
    else
      var step := match calls[0]
        case DecodeCall(r) => DecodeStep(v, r)
        case PlcCall(r) => PlcStep(v, r);
      RunDecoder(step.after, calls[1..])
  }

  /** Library error codes are negative, so `lastError_` is never positive once it is not. */
  lemma {:induction false} LastErrorNeverPositive(v: DecoderView, calls: seq<DecoderCall>)
    requires v.lastError <= OPUS_OK
    ensures RunDecoder(v, calls).lastError <= OPUS_OK
    ensures RunDecoder(v, calls).hasDecoder == v.hasDecoder
    decreases |calls|
  {
    if calls != [] {
      var step := match calls[0]
        case DecodeCall(r) => DecodeStep(v, r)
        case PlcCall(r) => PlcStep(v, r);
      LastErrorNeverPositive(step.after, calls[1..]);
    }
  }

  /** No call on a decoder without a handle changes anything. */
  lemma {:induction false} NoHandleNoChange(v: DecoderView, calls: seq<DecoderCall>)
    requires !v.hasDecoder
    ensures RunDecoder(v, calls) == v
    decreases |calls|
  {
    if calls != [] {
      NoHandleNoChange(v, calls[1..]);
    }
  }

  class OpusDecoder {
    var decoder: LibDecoder?
    var lastError: int

    constructor ()
      ensures decoder == null && lastError == OPUS_OK
    {
      decoder := null;
      lastError := OPUS_OK;
    }

    function View(): DecoderView
      reads this
    {
      DecoderView(decoder != null, lastError)
    }

    /**
     * `initialize()`. `created` and `error` are what `opus_decoder_create` gave; a
     * failure records `error` as the last error.
     */
    method Initialize(created: bool, error: int) returns (ok: bool)
      modifies this
      ensures ok <==> created && error == OPUS_OK
      ensures created ==> fresh(decoder)
      ensures !created ==> decoder == null
      ensures ok ==> decoder.requests == [SetDecoderInbandFec(1)] && lastError == old(lastError)
      ensures !ok ==> lastError == error && (decoder != null ==> decoder.requests == [])
    {
      if created {
        decoder := new LibDecoder();
      } else {
        decoder := null;
      }
      if error != OPUS_OK || decoder == null {
        lastError := error;
        return false;
      }
      decoder.Ctl(SetDecoderInbandFec(1));
      ok := true;
    }

    /** `decode(input, inputSize, output, frameSize)`; `libResult` is what `opus_decode` returns. */
    method Decode(libResult: int) returns (samples: int)
      modifies this
      ensures Decoded(samples, View()) == DecodeStep(old(View()), libResult)
      ensures decoder == old(decoder)
    {
      if decoder == null {
        return -1;
      }
      if libResult < 0 {
        lastError := libResult;
        return libResult;
      }
      lastError := OPUS_OK;
      samples := libResult;
    }

    /** `decodePLC(output, frameSize)`; `libResult` is what the concealing `opus_decode` returns. */
    method DecodePlc(libResult: int) returns (samples: int)
      modifies this
      ensures Decoded(samples, View()) == PlcStep(old(View()), libResult)
      ensures decoder == old(decoder)
    {
      if decoder == null {
        return -1;
      }
      if libResult < 0 {
        lastError := libResult;
      }
      samples := libResult;
    }

    /** `reset()`: asks the handle, if any, to reset its state. */
    method Reset()
      modifies decoder
      ensures decoder != null ==> decoder.requests == old(decoder.requests) + [ResetDecoder]
    {
      if decoder != null {
        decoder.Ctl(ResetDecoder);
      }
    }
  }

  // ---------------------------------------------------------------------------
  // Factory
  // ---------------------------------------------------------------------------

  /** `OpusCodecFactory::createEncoder(mode)`: null exactly when `initialize` fails. */
  method CreateEncoder(mode: OpusMode, created: bool, error: int) returns (e: OpusEncoder?)
    ensures e == null <==> !(created && error == OPUS_OK)
    ensures e != null ==>
      && fresh(e) && fresh(e.encoder) && e.encoder.application == mode
      && e.bitrate == OPUS_BITRATE && !e.fecEnabled && e.complexity == DEFAULT_COMPLEXITY
      && e.encoder.requests == InitRequests(OPUS_BITRATE, DEFAULT_COMPLEXITY, false)
      && e.Synced()
  {
    e := new OpusEncoder();
    var ok := e.Initialize(mode, created, error);
    if !ok {
      return null;
    }
  }

  /** `OpusCodecFactory::createDecoder()`: null exactly when `initialize` fails. */
  method CreateDecoder(created: bool, error: int) returns (d: OpusDecoder?)
    ensures d == null <==> !(created && error == OPUS_OK)
    ensures d != null ==>
      && fresh(d) && fresh(d.decoder) && d.lastError == OPUS_OK
      && d.decoder.requests == [SetDecoderInbandFec(1)]
  {
    d := new OpusDecoder();
    var ok := d.Initialize(created, error);
    if !ok {
      return null;
    }
  }
}
