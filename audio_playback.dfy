/**
 * The playback stream's callback: while the engine plays, each speaker buffer is filled
 * from the playback jitter buffer, which the callback allocates on the first packet it
 * is fed. Samples are 16-bit mono PCM, `2 * numFrames` bytes per callback.
 */
module AudioPlayback {
  import opened Common
  import opened JitterBuffer
  import opened PttAudio
  import opened AudioCapture

  /** The oldest queued packet fits the buffer (the copy is not bounded by the request). */
  predicate HeadFits(queue: Option<seq<seq<byte>>>, audio: seq<byte>) {
    queue.Some? && queue.value != [] ==> |queue.value[0]| <= |audio|
  }

  /** `2 * numFrames` bytes of silence at the front of the buffer, the rest untouched. */
  function Silenced(audio: seq<byte>, numFrames: nat): (out: seq<byte>)
    requires FrameBytes(numFrames) <= |audio|
    ensures |out| == |audio|
    ensures out[..FrameBytes(numFrames)] == Zeros(FrameBytes(numFrames))
    ensures out[FrameBytes(numFrames)..] == audio[FrameBytes(numFrames)..]
  {
    Zeros(FrameBytes(numFrames)) + audio[FrameBytes(numFrames)..]
  }

  /**
   * The speaker buffer after `onAudioReady` as written. `queue` is the playback jitter
   * buffer's contents, `None` before one is allocated. A dequeued packet is copied whole,
   * RTP header included. When the buffer is empty, `dequeue` has already set the size it
   * was passed to 0, so the silence that follows clears no byte at all.
   */
  function PlaybackFill(playing: bool, queue: Option<seq<seq<byte>>>, audio: seq<byte>, numFrames: nat): (out: seq<byte>)
    requires FrameBytes(numFrames) <= |audio| && HeadFits(queue, audio)
    ensures |out| == |audio|
  {
    if !playing || queue.None? then Silenced(audio, numFrames)
    else if queue.value == [] then audio
    else queue.value[0] + audio[|queue.value[0]|..]
  }

  /** The evidently intended fill: an empty jitter buffer gives `2 * numFrames` bytes of silence. */
  function PlaybackFillIntended(playing: bool, queue: Option<seq<seq<byte>>>, audio: seq<byte>, numFrames: nat): (out: seq<byte>)
    requires FrameBytes(numFrames) <= |audio| && HeadFits(queue, audio)
    ensures |out| == |audio|
  {
    if !playing || queue.None? || queue.value == [] then Silenced(audio, numFrames)
    else queue.value[0] + audio[|queue.value[0]|..]
  }

  /** Not playing, or no jitter buffer yet: the requested frames are silence and nothing else moves. */
  lemma SilentWithoutPlaybackOrBuffer(playing: bool, queue: Option<seq<seq<byte>>>, audio: seq<byte>, numFrames: nat)
    requires FrameBytes(numFrames) <= |audio| && HeadFits(queue, audio)
    requires !playing || queue.None?
    ensures var out := PlaybackFill(playing, queue, audio, numFrames);
      && out[..FrameBytes(numFrames)] == Zeros(FrameBytes(numFrames))
      && out[FrameBytes(numFrames)..] == audio[FrameBytes(numFrames)..]
  {
  }

  /**
   * While playing, the oldest packet lands whole at the front of the buffer, whatever
   * `numFrames` asked for, and the bytes after it are untouched.
   */
  lemma PacketCopiedWhole(queue: seq<seq<byte>>, audio: seq<byte>, numFrames: nat)
    requires FrameBytes(numFrames) <= |audio| && queue != [] && |queue[0]| <= |audio|
    ensures var out := PlaybackFill(true, Some(queue), audio, numFrames);
      && out[..|queue[0]|] == queue[0]
      && out[|queue[0]|..] == audio[|queue[0]|..]
  {
  }

  /** As written: an underrun leaves the previous contents of the speaker buffer in place. */
  lemma UnderrunLeavesStaleAudio(audio: seq<byte>, numFrames: nat)
    requires FrameBytes(numFrames) <= |audio|
    ensures PlaybackFill(true, Some([]), audio, numFrames) == audio
  {
  }

  /** A concrete underrun: one frame of non-silent stale samples is played again. */
  lemma UnderrunExample()
    ensures var out := PlaybackFill(true, Some([]), [1, 1], 1);
      out[..FrameBytes(1)] != Zeros(FrameBytes(1))
  {
    assert Zeros(2)[0] == 0;
  }

  /** Intended: every case where no packet is played outputs silence for the requested frames. */
  lemma {:induction false} IntendedFillSilentWithoutPacket(playing: bool, queue: Option<seq<seq<byte>>>, audio: seq<byte>, numFrames: nat)
    requires FrameBytes(numFrames) <= |audio| && HeadFits(queue, audio)
    requires !playing || queue.None? || queue.value == []
    ensures PlaybackFillIntended(playing, queue, audio, numFrames)[..FrameBytes(numFrames)] == Zeros(FrameBytes(numFrames))
  {
  }

  /** The two fills differ only on an underrun while playing. */
  lemma IntendedDiffersOnlyOnUnderrun(playing: bool, queue: Option<seq<seq<byte>>>, audio: seq<byte>, numFrames: nat)
    requires FrameBytes(numFrames) <= |audio| && HeadFits(queue, audio)
    ensures PlaybackFill(playing, queue, audio, numFrames) != PlaybackFillIntended(playing, queue, audio, numFrames) ==>
      playing && queue == Some([])
  {
  }

  class PlaybackCallback {
    const engine: AudioEngine
    var jitterBuffer: RtpJitterBuffer?

    constructor (e: AudioEngine)
      ensures engine == e && jitterBuffer == null
      ensures Valid()
    {
      engine := e;
      jitterBuffer := null;
    }

    ghost predicate Valid()
      reads this, jitterBuffer, if jitterBuffer != null then {jitterBuffer.buffer} else {}
    {
      jitterBuffer != null ==> jitterBuffer.Valid()
    }

    /** The jitter buffer's packets, or `None` before it exists. */
    ghost function Queue(): Option<seq<seq<byte>>>
      reads this, jitterBuffer
    {
      if jitterBuffer == null then None else Some(jitterBuffer.Contents)
    }

    /** `onAudioReady(stream, audioData, numFrames)`, as written. */
    method OnAudioReady(audioData: array<byte>, numFrames: nat) returns (r: DataCallbackResult)
      requires Valid()
      requires FrameBytes(numFrames) <= audioData.Length && HeadFits(Queue(), audioData[..])
      requires jitterBuffer != null ==> audioData as object != jitterBuffer.buffer as object
      modifies audioData, jitterBuffer
      ensures Valid() && r == Continue && jitterBuffer == old(jitterBuffer)
      ensures audioData[..] == PlaybackFill(old(engine.isPlaying), old(Queue()), old(audioData[..]), numFrames)
      ensures jitterBuffer != null && old(engine.isPlaying) ==>
        jitterBuffer.ToView() == AfterDequeue(old(jitterBuffer.ToView()))
      ensures jitterBuffer != null && !old(engine.isPlaying) ==>
        jitterBuffer.ToView() == old(jitterBuffer.ToView())
    {
      if !engine.isPlaying {
        ZeroFill(audioData, FrameBytes(numFrames));
        assert audioData[..] == audioData[..FrameBytes(numFrames)] + audioData[FrameBytes(numFrames)..];
        return Continue;
      }
      if jitterBuffer != null {
        var bytesNeeded := FrameBytes(numFrames);
        var hasData;
        hasData, bytesNeeded := jitterBuffer.Dequeue(audioData);   // `size` is passed by reference
        if !hasData {
          ZeroFill(audioData, bytesNeeded);
        }
        assert audioData[..] == audioData[..bytesNeeded] + audioData[bytesNeeded..];
      } else {
        ZeroFill(audioData, FrameBytes(numFrames));
        assert audioData[..] == audioData[..FrameBytes(numFrames)] + audioData[FrameBytes(numFrames)..];
      }
      return Continue;
    }

    /** `onAudioReady` with the silence the underrun branch evidently means to write. */
    method OnAudioReadyWithSilence(audioData: array<byte>, numFrames: nat) returns (r: DataCallbackResult)
      requires Valid()
      requires FrameBytes(numFrames) <= audioData.Length && HeadFits(Queue(), audioData[..])
      requires jitterBuffer != null ==> audioData as object != jitterBuffer.buffer as object
      modifies audioData, jitterBuffer
      ensures Valid() && r == Continue && jitterBuffer == old(jitterBuffer)
      ensures audioData[..] == PlaybackFillIntended(old(engine.isPlaying), old(Queue()), old(audioData[..]), numFrames)
      ensures jitterBuffer != null && old(engine.isPlaying) ==>
        jitterBuffer.ToView() == AfterDequeue(old(jitterBuffer.ToView()))
      ensures jitterBuffer != null && !old(engine.isPlaying) ==>
        jitterBuffer.ToView() == old(jitterBuffer.ToView())
    {
      if !engine.isPlaying || jitterBuffer == null {
        ZeroFill(audioData, FrameBytes(numFrames));
        assert audioData[..] == audioData[..FrameBytes(numFrames)] + audioData[FrameBytes(numFrames)..];
        return Continue;
      }
      var hasData, size := jitterBuffer.Dequeue(audioData);
      if !hasData {
        ZeroFill(audioData, FrameBytes(numFrames));
        assert audioData[..] == audioData[..FrameBytes(numFrames)] + audioData[FrameBytes(numFrames)..];
      } else {
        assert audioData[..] == audioData[..size] + audioData[size..];
      }
      return Continue;
    }

    /** `onErrorBeforeClose(stream, error)`: the error code goes to the host iff it registered. */
    method OnErrorBeforeClose(error: int)
      modifies engine.callback
      ensures engine.callback != null ==>
        engine.callback.errors == old(engine.callback.errors) + [error]
        && engine.callback.audioData == old(engine.callback.audioData)
    {
      if engine.callback != null {
        engine.callback.OnAudioError(error);
      }
    }

    /** `enqueueAudio(data, size)`: the jitter buffer is made on first use, then reused. */
    method EnqueueAudio(data: seq<byte>)
      requires Valid()
      requires |data| <= SLOT_SIZE   // the jitter buffer copies into a 1500-byte slot
      modifies this, jitterBuffer, if jitterBuffer != null then {jitterBuffer.buffer} else {}
      ensures Valid() && jitterBuffer != null
      ensures old(jitterBuffer) != null ==>
        jitterBuffer == old(jitterBuffer) && jitterBuffer.ToView() == AfterEnqueue(old(jitterBuffer.ToView()), data)
      ensures old(jitterBuffer) == null ==>
        fresh(jitterBuffer) && jitterBuffer.ToView() == AfterEnqueue(Initial, data)
    {
      if jitterBuffer == null {
        jitterBuffer := new RtpJitterBuffer();
      }
      jitterBuffer.Enqueue(data);
    }

    /** `resetJitterBuffer()`: a no-op before the jitter buffer exists. */
    method ResetJitterBuffer()
      requires Valid()
      modifies jitterBuffer
      ensures Valid() && jitterBuffer == old(jitterBuffer)
      ensures jitterBuffer != null ==> jitterBuffer.ToView() == Initial
    {
      if jitterBuffer != null {
        jitterBuffer.Reset();
      }
    }
  }
}
