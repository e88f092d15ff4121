/**
 * The capture stream's callback: while the engine captures, each microphone buffer is
 * handed to the host callback untouched; otherwise the buffer is overwritten with silence.
 * Samples are 16-bit mono PCM, so a callback of `numFrames` frames covers `2 * numFrames` bytes.
 */
module AudioCapture {
  import opened Common
  import opened PttAudio

  /** Bytes in `numFrames` frames of mono `int16_t` PCM. */
  function FrameBytes(numFrames: nat): nat {
    numFrames * 2
  }

  /** What the host callback hears about one capture buffer, if anything. */
  function CaptureDelivery(capturing: bool, hasCallback: bool, audio: seq<byte>, numFrames: nat): (d: Option<seq<byte>>)
    requires FrameBytes(numFrames) <= |audio|
    ensures d.Some? <==> capturing && hasCallback
    ensures d.Some? ==> |d.value| == FrameBytes(numFrames) && d.value == audio[..FrameBytes(numFrames)]
  {
    if capturing && hasCallback then Some(audio[..FrameBytes(numFrames)]) else None
  }

  /** The buffer after the callback: silence while not capturing, untouched otherwise. */
  function CaptureOutput(capturing: bool, audio: seq<byte>, numFrames: nat): (out: seq<byte>)
    requires FrameBytes(numFrames) <= |audio|
    ensures |out| == |audio|
    ensures !capturing ==> out[..FrameBytes(numFrames)] == Zeros(FrameBytes(numFrames))
    ensures out[FrameBytes(numFrames)..] == audio[FrameBytes(numFrames)..]
    ensures capturing ==> out == audio
  {
    if capturing then audio else Zeros(FrameBytes(numFrames)) + audio[FrameBytes(numFrames)..]
  }

  /** A stopped capture never reaches the host, and a running one never alters the samples. */
  lemma CaptureEitherSilencesOrForwards(capturing: bool, hasCallback: bool, audio: seq<byte>, numFrames: nat)
    requires FrameBytes(numFrames) <= |audio|
    ensures CaptureDelivery(capturing, hasCallback, audio, numFrames).Some? ==>
      CaptureOutput(capturing, audio, numFrames) == audio
    ensures CaptureOutput(capturing, audio, numFrames) != audio ==>
      CaptureDelivery(capturing, hasCallback, audio, numFrames).None?
  {
  }

  class CaptureCallback {
    const engine: AudioEngine

    constructor (e: AudioEngine)
      ensures engine == e
    {
      engine := e;
    }

    /** `onAudioReady(stream, audioData, numFrames)`. */
    method OnAudioReady(audioData: array<byte>, numFrames: nat) returns (r: DataCallbackResult)
      requires FrameBytes(numFrames) <= audioData.Length
      modifies audioData, engine.callback
      ensures r == Continue
      ensures audioData[..] == CaptureOutput(old(engine.isCapturing), old(audioData[..]), numFrames)
      ensures engine.callback != null ==>
        var d := CaptureDelivery(engine.isCapturing, true, old(audioData[..]), numFrames);
        && engine.callback.audioData == old(engine.callback.audioData) + (if d.Some? then [d.value] else [])
        && engine.callback.errors == old(engine.callback.errors)
    {
      if !engine.isCapturing {
        ZeroFill(audioData, FrameBytes(numFrames));
        assert audioData[..] == audioData[..FrameBytes(numFrames)] + audioData[FrameBytes(numFrames)..];
        return Continue;
      }
      if engine.callback != null {
        engine.callback.OnAudioData(audioData[..FrameBytes(numFrames)]);
      }
      return Continue;
    }

    /** `onErrorBeforeClose(stream, error)`: the error code goes to the host iff it registered. */
    method OnErrorBeforeClose(error: int)
      modifies engine.callback
      ensures engine.callback != null ==>
        engine.callback.errors == old(engine.callback.errors) + [error]
        && engine.callback.audioData == old(engine.callback.audioData)
    {
      if engine.callback != null {
        engine.callback.OnAudioError(error);
      }
    }
  }
}
