/**
 * The PTT audio engine: one capture and one playback Oboe stream, each guarded by a
 * flag (`isCapturing_`, `isPlaying_`), and the host callback the audio callbacks report
 * to. Oboe streams are objects whose `requestStart` result is an oracle parameter.
 */
module PttAudio {
  import opened Common

  /** What an Oboe data callback tells the stream; these callbacks always continue. */
  datatype DataCallbackResult = Continue | Stop

  /** The life cycle of an Oboe stream as the engine drives it. */
  datatype StreamState = Open | Started | Stopped | Closed

  /** An opened Oboe stream. `latencyMillis` is what its `getLatencyMillis` reports. */
  class OboeStream {
    var state: StreamState
    const latencyMillis: int

    constructor (latency: int)
      ensures state == Open && latencyMillis == latency
    {
      state := Open;
      latencyMillis := latency;
    }

    /** `requestStart()`, which returns `Result::OK` iff `ok`. */
    method RequestStart(ok: bool) returns (result: bool)
      modifies this
      ensures result == ok
      ensures state == (if ok then Started else old(state))
    {
      if ok {
        state := Started;
      }
      result := ok;
    }

    method StopStream()
      modifies this
      ensures state == Stopped
    {
      state := Stopped;
    }

    method Close()
      modifies this
      ensures state == Closed
    {
      state := Closed;
    }
  }

  /** The host's `AudioEngineCallback`: it records what it is told, call by call. */
  class HostCallback {
    var audioData: seq<seq<byte>>
    var errors: seq<int>

    constructor ()
      ensures audioData == [] && errors == []
    {
      audioData := [];
      errors := [];
    }

    /** `onAudioData(data, size)`. */
    method OnAudioData(data: seq<byte>)
      modifies this
      ensures audioData == old(audioData) + [data] && errors == old(errors)
    {
      audioData := audioData + [data];
    }

    /** `onAudioError(errorCode)`. */
    method OnAudioError(code: int)
      modifies this
      ensures errors == old(errors) + [code] && audioData == old(audioData)
    {
      errors := errors + [code];
    }
  }

  // ---------------------------------------------------------------------------
  // Specification: one direction (capture or playback) of the engine
  // ---------------------------------------------------------------------------

  /** A direction: whether its stream pointer is set, the stream's state, and the flag. */
  datatype Side = Side(hasStream: bool, stream: StreamState, active: bool)

  datatype StartResult = StartResult(ok: bool, after: Side)

  /**
   * `startCapture` / `startPlayback`: already active succeeds at once; no stream fails;
   * otherwise the flag follows what `requestStart` returned.
   */
  function StartSide(s: Side, startOk: bool): StartResult {
    if s.active then StartResult(true, s)
    else if !s.hasStream then StartResult(false, s)
    else if !startOk then StartResult(false, s)
    else StartResult(true, s.(stream := Started, active := true))
  }

  /** `stopCapture` / `stopPlayback`: a no-op unless active; then stop and close, flag off. */
  function StopSide(s: Side): Side {
    if !s.active then s
    else if s.hasStream then s.(stream := Closed, active := false)
    else s.(active := false)
  }

  /** The four rules of `start`: what it returns and when the flag may turn on. */
  lemma StartRules(s: Side, startOk: bool)
    ensures var r := StartSide(s, startOk);
      && (s.active ==> r.ok && r.after == s)
      && (!s.active && !s.hasStream ==> !r.ok && r.after == s)
      && (!s.active ==> (r.after.active <==> s.hasStream && startOk))
      && (!s.active ==> r.ok == r.after.active)
      && (r.after.active && !s.active ==> r.after.stream == Started)
  {
  }

  /** `stop` always leaves the direction inactive, with its stream (if any) closed when it was active. */
  lemma StopRules(s: Side)
    ensures !StopSide(s).active
    ensures StopSide(s).hasStream == s.hasStream
    ensures s.active && s.hasStream ==> StopSide(s).stream == Closed
    ensures !s.active ==> StopSide(s) == s
  {
  }

  /** Stopping twice is stopping once. */
  lemma StopIdempotent(s: Side)
    ensures StopSide(StopSide(s)) == StopSide(s)
  {
  }

  /** Starting an active direction again changes nothing and reports success. */
  lemma StartIdempotent(s: Side, ok1: bool, ok2: bool)
    requires StartSide(s, ok1).ok
    ensures StartSide(StartSide(s, ok1).after, ok2) == StartResult(true, StartSide(s, ok1).after)
  {
  }

  /** A successful start followed by a stop leaves the direction off and its stream closed. */
  lemma StartThenStop(s: Side, ok: bool)
    requires !s.active && StartSide(s, ok).ok
    ensures StopSide(StartSide(s, ok).after) == s.(stream := Closed, active := false)
  {
  }

  /** `getLatencyMillis`: 0 without both streams, otherwise the sum of their latencies. */
  function Latency(capture: Option<int>, playback: Option<int>): (r: int)
    ensures capture.None? || playback.None? ==> r == 0
    ensures capture.Some? && playback.Some? ==> r == capture.value + playback.value
  {
    if capture.None? || playback.None? then 0 else capture.value + playback.value
  }

  // ---------------------------------------------------------------------------
  // The engine object
  // ---------------------------------------------------------------------------

  class AudioEngine {
    var captureStream: OboeStream?
    var playbackStream: OboeStream?
    var isCapturing: bool
    var isPlaying: bool
    var callback: HostCallback?

    constructor ()
      ensures Valid()
      ensures captureStream == null && playbackStream == null
      ensures !isCapturing && !isPlaying && callback == null
    {
      captureStream := null;
      playbackStream := null;
      isCapturing := false;
      isPlaying := false;
      callback := null;
    }

    /** The two directions never share a stream object: `initialize` opens a separate one for each. */
    ghost predicate Valid()
      reads this
    {
      captureStream != null && playbackStream != null ==> captureStream != playbackStream
    }

    function CaptureSide(): Side
      reads this, captureStream
    {
      Side(captureStream != null, if captureStream != null then captureStream.state else Closed, isCapturing)
    }

    function PlaybackSide(): Side
      reads this, playbackStream
    {
      Side(playbackStream != null, if playbackStream != null then playbackStream.state else Closed, isPlaying)
    }

    /**
     * `initialize(callback)`. `capture` / `playback` are what creating each stream gave:
     * `Some(latency)` for a stream opened with that latency, `None` for a failure, which
     * leaves that stream pointer as it was. The playback stream is not attempted after
     * a capture failure.
     */
    method Initialize(cb: HostCallback?, capture: Option<int>, playback: Option<int>) returns (ok: bool)
      requires Valid()
      modifies this
      ensures Valid()
      ensures callback == cb
      ensures ok <==> capture.Some? && playback.Some?
      ensures capture.Some? ==>
        fresh(captureStream) && captureStream.latencyMillis == capture.value && captureStream.state == Open
      ensures capture.None? ==> captureStream == old(captureStream)
      ensures capture.Some? && playback.Some? ==>
        fresh(playbackStream) && playbackStream.latencyMillis == playback.value && playbackStream.state == Open
      ensures !(capture.Some? && playback.Some?) ==> playbackStream == old(playbackStream)
      ensures isCapturing == old(isCapturing) && isPlaying == old(isPlaying)
    {
      callback := cb;
      if capture.None? {
        return false;
      }
      captureStream := new OboeStream(capture.value);
      if playback.None? {
        return false;
      }
      playbackStream := new OboeStream(playback.value);
      ok := true;
    }

    /** `startCapture()`, where `startOk` is whether `requestStart` returned OK. */
    method StartCapture(startOk: bool) returns (ok: bool)
      requires Valid()
      modifies this, captureStream
      ensures Valid() && PlaybackSide() == old(PlaybackSide())
      ensures StartResult(ok, CaptureSide()) == StartSide(old(CaptureSide()), startOk)
      ensures captureStream == old(captureStream) && playbackStream == old(playbackStream)
      ensures isPlaying == old(isPlaying) && callback == old(callback)
    {
      if isCapturing {
        return true;
      }
      if captureStream == null {
        return false;
      }
      var result := captureStream.RequestStart(startOk);
      if !result {
        return false;
      }
      isCapturing := true;
      ok := true;
    }

    method StopCapture()
      requires Valid()
      modifies this, captureStream
      ensures Valid() && PlaybackSide() == old(PlaybackSide())
      ensures CaptureSide() == StopSide(old(CaptureSide()))
      ensures captureStream == old(captureStream) && playbackStream == old(playbackStream)
      ensures isPlaying == old(isPlaying) && callback == old(callback)
    {
      if !isCapturing {
        return;
      }
      if captureStream != null {
        captureStream.StopStream();
        captureStream.Close();
      }
      isCapturing := false;
    }

    /** `startPlayback()`, where `startOk` is whether `requestStart` returned OK. */
    method StartPlayback(startOk: bool) returns (ok: bool)
      requires Valid()
      modifies this, playbackStream
      ensures Valid() && CaptureSide() == old(CaptureSide())
      ensures StartResult(ok, PlaybackSide()) == StartSide(old(PlaybackSide()), startOk)
      ensures captureStream == old(captureStream) && playbackStream == old(playbackStream)
      ensures isCapturing == old(isCapturing) && callback == old(callback)
    {
      if isPlaying {
        return true;
      }
      if playbackStream == null {
        return false;
      }
      var result := playbackStream.RequestStart(startOk);
      if !result {
        return false;
      }
      isPlaying := true;
      ok := true;
    }

    method StopPlayback()
      requires Valid()
      modifies this, playbackStream
      ensures Valid() && CaptureSide() == old(CaptureSide())
      ensures PlaybackSide() == StopSide(old(PlaybackSide()))
      ensures captureStream == old(captureStream) && playbackStream == old(playbackStream)
      ensures isCapturing == old(isCapturing) && callback == old(callback)
    {
      if !isPlaying {
        return;
      }
      if playbackStream != null {
        playbackStream.StopStream();
        playbackStream.Close();
      }
      isPlaying := false;
    }

    /** `getLatencyMillis()`. */
    method GetLatencyMillis() returns (latency: int)
      ensures latency == Latency(if captureStream == null then None else Some(captureStream.latencyMillis),
                                 if playbackStream == null then None else Some(playbackStream.latencyMillis))
    {
      if captureStream == null || playbackStream == null {
        return 0;
      }
      latency := captureStream.latencyMillis + playbackStream.latencyMillis;
    }
  }
}
