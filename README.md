# Mesh Rider Wave PTT audio core, modelled in Dafny

This project models the native push-to-talk (PTT) audio core of the Mesh Rider Wave
Android app and proves properties of that model. The core is:

- **the RTP layer.** It covers the 12-byte RTP header with its bit setters and its
  big-endian wire form, and the receive-side jitter buffer. That buffer is a 50-slot ring
  with head/tail indices and sequence-gap loss counting. The layer also covers the
  packetizer, which owns:
  - the socket set-up branching;
  - DSCP marking;
  - the start/stop flags;
  - the send step, which numbers, stamps and truncates each datagram;
  - one iteration of the receive loop.
- **the audio engine.** Two Oboe streams start and stop behind their `isCapturing_` and
  `isPlaying_` flags. The capture and playback data callbacks write silence or audio into
  the device buffer in place. The playback callback feeds from a jitter buffer that it
  allocates on first use.
- **the Opus wrapper's bookkeeping.** It clamps the bitrate and complexity settings,
  pushes them to the library handle, and tracks decoder errors. A factory hands out only
  initialised coders.
- **the integer control paths of the voice activity detector and the noise suppressor.**
  For the detector these are calibration, the decision and its threshold, aggressiveness,
  and voice probability. For the suppressor they are the bypass, size-mismatch and
  suppression paths, the frame counter, and the level setting.

Each component is one Dafny module:

| module | file | models |
|---|---|---|
| `Common` | common.dfy | byte and machine-integer types, C conversions, `memset`/`memcpy` |
| `RtpHeader` | rtp_header.dfy | `RtpHeader` setters, wire form, 16-bit sequence arithmetic |
| `JitterBuffer` | jitter_buffer.dfy | `RtpJitterBuffer` |
| `RtpPacketizer` | rtp_packetizer.dfy | `RtpPacketizer` |
| `PttAudio` | audio_engine.dfy | `AudioEngine`, Oboe streams, the host `AudioEngineCallback` |
| `AudioCapture` | audio_capture.dfy | `AudioEngine::CaptureCallback` |
| `AudioPlayback` | audio_playback.dfy | `AudioEngine::PlaybackCallback` |
| `Opus` | opus_codec.dfy | `OpusEncoder`, `OpusDecoder`, `OpusCodecFactory` |
| `Vad` | vad_processor.dfy | `VadProcessor` |
| `Denoise` | noise_suppressor.dfy | `NoiseSuppressor` |

Every object the source updates in place is a Dafny `class` with the same fields. Its
methods carry `modifies` clauses. Each class has a pure specification beside it: a value
datatype (a "view") and step functions. For example, `JitterBuffer.View` has
`AfterEnqueue`. Every mutating method is proved to move its object's view exactly as the
step function does. The properties the source promises are then lemmas about the step
functions, many over whole sequences of operations.

Calls into code outside the core are parameters of the method that makes them. This covers:

- the operating system (`socket`, `setsockopt`, `bind`, `sendto`, `recvfrom`);
- Oboe (`openStream`, `requestStart`, `getLatencyMillis`);
- libopus (`opus_*_create`, `opus_encode`, `opus_decode`);
- the random SSRC;
- the floating-point helpers (`calculateEnergy`, the spectral gate).

A library handle (`Opus.LibEncoder`, `Opus.LibDecoder`) is an object that records the
control requests it receives.

Where the code and its own documentation disagree, the model follows the code:

- The encoder's bitrate is clamped to 6000..64000 bps. The header comment says 24000.
- The jitter buffer is strictly FIFO in arrival order, although the header says it handles
  reordering. A late or duplicated packet is charged as a sequence gap of almost 2^16
  (`JitterBuffer.DuplicateChargedAsHugeGap`).
- No packet is dropped for carrying the local SSRC. The receiver's own multicast packets
  reach its callback and jitter buffer.
- Incoming PCM is sent whole, one datagram per `sendAudio` call, with no accumulation into
  codec frames. Nothing is Opus-encoded on this path.
- The RTP timestamp advances by half the byte count it was given, before truncation.
- The playback callback copies the whole dequeued datagram into the speaker buffer,
  RTP header included, and with no decoding.
- `OPUS_FRAME_SIZE` is 960 samples. At the codec's 16 kHz that is 60 ms, not the 20 ms
  its comment gives (`Opus.FrameSizeIsSixtyMillis`). An `encode` with any other frame size
  is only logged.
- `resetJitterBuffer` is defined in AudioPlayback.cpp but not declared in AudioEngine.h.
  It is modelled as defined.

## Model

| member | source | states |
|---|---|---|
| `Common.Clamp` | app/src/main/cpp/ptt/OpusCodec.cpp:108 | `std::max(lo, std::min(hi, x))` lies in [lo, hi], keeps in-range values and maps values below/above to lo/hi |
| `Common.TruncDiv` | app/src/main/cpp/ptt/VadProcessor.cpp:26 | C's quotient: the remainder `a - q*b` is smaller than b in magnitude and is 0 or has the sign of a, so the quotient truncates toward zero |
| `Common.ToSizeT` | app/src/main/cpp/ptt/NoiseSuppressor.cpp:40 | an `int` stored in a `size_t` becomes the value in [0, 2^64) congruent to it modulo 2^64 |
| `Common.ToInt32` | app/src/main/cpp/ptt/NoiseSuppressor.cpp:60 | `static_cast<int>` of a `size_t` is exact below 2^31 and lies in the 32-bit range |
| `Common.ZeroFill` | app/src/main/cpp/ptt/AudioCapture.cpp:48 | `memset(p, 0, n)` zeroes exactly the first n bytes and leaves the rest |
| `Common.CopyInto` | app/src/main/cpp/ptt/RtpPacketizer.cpp:85 | `memcpy` writes the source bytes at the front of the destination and nothing else |
| `RtpHeader.SetVersion` | app/src/main/cpp/ptt/RtpPacketizer.h:29-31 | the version's two low bits land in the top two bits of the first byte, all else zero; version 2 gives 0x80 |
| `RtpHeader.SetMarker` | app/src/main/cpp/ptt/RtpPacketizer.h:32-34 | bit 7 becomes the flag and the payload-type bits are kept |
| `RtpHeader.SetPayloadType` | app/src/main/cpp/ptt/RtpPacketizer.h:35-37 | the low seven bits become the type and the marker bit is kept |
| `RtpHeader.SendHeader` | app/src/main/cpp/ptt/RtpPacketizer.cpp:251-256 | whatever the prior bytes, the sent header has first byte 0x80 and second byte marker plus 111 |
| `RtpHeader.NextSequence` | app/src/main/cpp/ptt/RtpPacketizer.cpp:254 | the 16-bit counter steps by one and wraps from 65535 to 0 |
| `RtpHeader.AdvanceIsModular` | app/src/main/cpp/ptt/RtpPacketizer.cpp:254 | n steps of the counter equal adding n modulo 2^16 |
| `RtpHeader.AdvanceDistinct` | app/src/main/cpp/ptt/RtpPacketizer.cpp:254 | fewer than 2^16 steps never revisit a sequence number |
| `RtpHeader.BigEndian16RoundTrip` | app/src/main/cpp/ptt/RtpPacketizer.cpp:40 | `ntohs(htons(x)) == x` |
| `RtpHeader.BigEndian32RoundTrip` | app/src/main/cpp/ptt/RtpPacketizer.cpp:255-256 | `ntohl(htonl(x)) == x` |
| `RtpHeader.ParseSerialize` | app/src/main/cpp/ptt/RtpPacketizer.h:22-28 | reading a header back from its 12 packed bytes, whatever follows them, gives the same header |
| `RtpHeader.SerializeParse` | app/src/main/cpp/ptt/RtpPacketizer.h:22-28 | any 12 leading bytes are exactly the packing of the header read from them |
| `JitterBuffer.LossGap` | app/src/main/cpp/ptt/RtpPacketizer.cpp:43-49 | the gap is 0 iff nothing was received yet, the previous number was 0, or the expected number arrived; otherwise the expected number plus the gap is the one received, modulo 2^16 |
| `JitterBuffer.AfterEnqueue` | app/src/main/cpp/ptt/RtpPacketizer.cpp:32-68 | the queue never holds more than 49 packets |
| `JitterBuffer.ShortDatagramIgnored` | app/src/main/cpp/ptt/RtpPacketizer.cpp:36 | a datagram shorter than 12 bytes changes nothing |
| `JitterBuffer.EnqueueAccounting` | app/src/main/cpp/ptt/RtpPacketizer.cpp:43-66 | received +1, last sequence updated, lost grows by the gap plus one per eviction, and the datagram is the newest entry |
| `JitterBuffer.DuplicateChargedAsHugeGap` | app/src/main/cpp/ptt/RtpPacketizer.cpp:43-49 | a repeated sequence number is charged 65535 lost packets |
| `JitterBuffer.NoGapCountedAfterZero` | app/src/main/cpp/ptt/RtpPacketizer.cpp:43 | after a packet numbered 0 no gap is charged for the next, only a possible eviction |
| `JitterBuffer.Step` | app/src/main/cpp/ptt/RtpPacketizer.cpp:32-99 | every operation keeps the queue within capacity |
| `JitterBuffer.CountersMonotone` | app/src/main/cpp/ptt/RtpPacketizer.cpp:47-59 | without a reset, the received and lost counters never decrease over any operation sequence |
| `JitterBuffer.EnqueueAllKeepsNewest` | app/src/main/cpp/ptt/RtpPacketizer.cpp:55-66 | after any series of enqueues the buffer holds the newest 49 datagrams in arrival order, each eviction counted as lost |
| `JitterBuffer.DrainIsFifo` | app/src/main/cpp/ptt/RtpPacketizer.cpp:70-89 | repeated dequeues hand out the queued packets oldest first |
| `JitterBuffer.ArrivalOrderPreserved` | app/src/main/cpp/ptt/RtpPacketizer.cpp:32-89 | up to 49 datagrams come out in arrival order whatever their sequence numbers (no resequencing) |
| `JitterBuffer.DequeueFailsAfterReset` | app/src/main/cpp/ptt/RtpPacketizer.cpp:91-99 | after reset the buffer is empty, a dequeue fails, and the statistics are zero |
| `JitterBuffer.RtpJitterBuffer.constructor` | app/src/main/cpp/ptt/RtpPacketizer.cpp:22-26 | a new ring is empty with zeroed statistics |
| `JitterBuffer.RtpJitterBuffer.Enqueue` | app/src/main/cpp/ptt/RtpPacketizer.cpp:32-68 | the ring's contents and counters move exactly as `AfterEnqueue` |
| `JitterBuffer.RtpJitterBuffer.Push` | app/src/main/cpp/ptt/RtpPacketizer.cpp:55-67 | when full the oldest is evicted and counted lost, then the datagram is stored at the tail |
| `JitterBuffer.RtpJitterBuffer.EvictOldest` | app/src/main/cpp/ptt/RtpPacketizer.cpp:55-60 | a full ring drops exactly its oldest packet and counts it lost |
| `JitterBuffer.RtpJitterBuffer.Append` | app/src/main/cpp/ptt/RtpPacketizer.cpp:62-67 | a ring with room gains the datagram as its newest packet and nothing else changes |
| `JitterBuffer.RtpJitterBuffer.Dequeue` | app/src/main/cpp/ptt/RtpPacketizer.cpp:70-89 | succeeds iff a packet is queued; copies the oldest one out with its size; on failure the size is 0; the rest of the output is untouched |
| `JitterBuffer.RtpJitterBuffer.Reset` | app/src/main/cpp/ptt/RtpPacketizer.cpp:91-99 | the ring returns to its initial state |
| `RtpPacketizer.TosFor` | app/src/main/cpp/ptt/RtpPacketizer.cpp:186-189 | the DSCP sits above two clear ECN bits; a six-bit code point fits the byte; EF gives 184 |
| `RtpPacketizer.BuildPacket` | app/src/main/cpp/ptt/RtpPacketizer.cpp:248-263 | the datagram is 12 bytes plus the payload truncated to 1388, so at most 1400 |
| `RtpPacketizer.BuildPacketLayout` | app/src/main/cpp/ptt/RtpPacketizer.cpp:248-263 | the datagram's header reads back as version 2, marker, type 111, the sequence, timestamp and SSRC, followed by the truncated payload |
| `RtpPacketizer.SentSequenceParsesBack` | app/src/main/cpp/ptt/RtpPacketizer.cpp:254 | the sequence number written is the one the jitter buffer reads |
| `RtpPacketizer.DeliveryFor` | app/src/main/cpp/ptt/RtpPacketizer.cpp:316-328 | the callback fires iff the datagram is longer than 12 bytes and a callback is set, with the bytes after the header and the SSRC from bytes 8..11 |
| `RtpPacketizer.SendReceiveRoundTrip` | app/src/main/cpp/ptt/RtpPacketizer.cpp:242-328 | a sent datagram reaches a receiver's callback with the truncated payload and sender SSRC intact, except that an empty payload is never delivered |
| `RtpPacketizer.SendAll` | app/src/main/cpp/ptt/RtpPacketizer.cpp:242-286 | every datagram sent is between 12 and 1500 bytes; while running, each call sends one |
| `RtpPacketizer.SendRefusedWithoutSocket` | app/src/main/cpp/ptt/RtpPacketizer.cpp:243-245 | stopped, or without a socket, nothing is sent and nothing changes |
| `RtpPacketizer.FailedSendConsumesSequence` | app/src/main/cpp/ptt/RtpPacketizer.cpp:254-283 | a rejected `sendto` still uses up its sequence number but moves neither timestamp nor counter |
| `RtpPacketizer.SendAllUnfold` | app/src/main/cpp/ptt/RtpPacketizer.cpp:242-286 | the first send of a running burst carries the current sequence number and leaves the next one |
| `RtpPacketizer.BurstAdvancesSequence` | app/src/main/cpp/ptt/RtpPacketizer.cpp:254 | a burst of n sends advances the sequence counter n times |
| `RtpPacketizer.BurstSequenceAt` | app/src/main/cpp/ptt/RtpPacketizer.cpp:254 | the i-th datagram of a burst carries the start sequence advanced i times |
| `RtpPacketizer.BurstSequencesConsecutive` | app/src/main/cpp/ptt/RtpPacketizer.cpp:254 | successive datagrams carry consecutive sequence numbers modulo 2^16, whatever `sendto` returns |
| `RtpPacketizer.BurstSequencesDistinct` | app/src/main/cpp/ptt/RtpPacketizer.cpp:254 | within 2^16 sends no two datagrams share a sequence number |
| `RtpPacketizer.Packetizer.constructor` | app/src/main/cpp/ptt/RtpPacketizer.cpp:102-116 | no socket, stopped, counters zero, port 5004, empty group, no callback, the drawn nonzero SSRC; every field is given |
| `RtpPacketizer.Packetizer.SetAudioCallback` | app/src/main/cpp/ptt/RtpPacketizer.h:136 | registers or clears the callback; every other field is unchanged |
| `RtpPacketizer.Packetizer.Initialize` | app/src/main/cpp/ptt/RtpPacketizer.cpp:123-128 | keeps at most 15 characters of the group, stores the port, then changes exactly what `createSocket` changes; succeeds iff socket, reuse and bind succeed |
| `RtpPacketizer.Packetizer.CreateSocket` | app/src/main/cpp/ptt/RtpPacketizer.cpp:130-179 | socket, SO_REUSEADDR and bind failures are fatal: the descriptor is stored and closed and nothing else changes; otherwise the socket is open, TOS follows `setDscp` and membership the join, all else unchanged |
| `RtpPacketizer.Packetizer.SetDscp` | app/src/main/cpp/ptt/RtpPacketizer.cpp:186-201 | reports the `setsockopt` result; on success the socket carries TOS dscp<<2; every other field is unchanged |
| `RtpPacketizer.Packetizer.JoinMulticastGroup` | app/src/main/cpp/ptt/RtpPacketizer.cpp:203-217 | membership follows the `setsockopt` result; every other field is unchanged |
| `RtpPacketizer.Packetizer.CloseSocket` | app/src/main/cpp/ptt/RtpPacketizer.cpp:219-224 | an open socket is closed and set to -1; otherwise nothing changes; no other field changes |
| `RtpPacketizer.Packetizer.Start` | app/src/main/cpp/ptt/RtpPacketizer.cpp:226-235 | always succeeds and leaves the packetizer running; no other field changes |
| `RtpPacketizer.Packetizer.Stop` | app/src/main/cpp/ptt/RtpPacketizer.cpp:237-240 | clears the running and receive flags; no other field changes |
| `RtpPacketizer.Packetizer.StartReceiveLoop` | app/src/main/cpp/ptt/RtpPacketizer.cpp:288-295 | sets the receive flag (already set is a no-op); no other field changes |
| `RtpPacketizer.Packetizer.StopReceiveLoop` | app/src/main/cpp/ptt/RtpPacketizer.cpp:297-302 | clears the receive flag; no other field changes |
| `RtpPacketizer.Packetizer.SendAudio` | app/src/main/cpp/ptt/RtpPacketizer.cpp:242-286 | the sender state and the datagram move exactly as `SendStep`; only sequence, timestamp and sent counter can change |
| `RtpPacketizer.Packetizer.ReceiveOnce` | app/src/main/cpp/ptt/RtpPacketizer.cpp:313-331 | a datagram over 12 bytes is enqueued whole, delivered per `DeliveryFor` and counted, with no other field changed; anything else changes nothing |
| `PttAudio.OboeStream.RequestStart` | app/src/main/cpp/ptt/AudioEngine.cpp:64 | returns the oracle's result and starts the stream only on success |
| `PttAudio.HostCallback.OnAudioData` | app/src/main/cpp/ptt/AudioEngine.h:31 | the host records one more data buffer |
| `PttAudio.HostCallback.OnAudioError` | app/src/main/cpp/ptt/AudioEngine.h:30 | the host records one more error code |
| `PttAudio.StartRules` | app/src/main/cpp/ptt/AudioEngine.cpp:53-76 | already active succeeds with no change; no stream fails; the flag turns on iff a stream exists and `requestStart` is OK, and the result equals the new flag |
| `PttAudio.StopRules` | app/src/main/cpp/ptt/AudioEngine.cpp:78-91 | stop always ends inactive, closes an active direction's stream, and is a no-op when inactive |
| `PttAudio.StopIdempotent` | app/src/main/cpp/ptt/AudioEngine.cpp:78-91 | stopping twice equals stopping once |
| `PttAudio.StartIdempotent` | app/src/main/cpp/ptt/AudioEngine.cpp:53-56 | a second start after a successful one reports success and changes nothing |
| `PttAudio.StartThenStop` | app/src/main/cpp/ptt/AudioEngine.cpp:53-91 | a successful start then a stop leaves the direction off with its stream closed |
| `PttAudio.Latency` | app/src/main/cpp/ptt/AudioEngine.cpp:133-143 | 0 without both streams, otherwise the sum of the two latencies |
| `PttAudio.AudioEngine.constructor` | app/src/main/cpp/ptt/AudioEngine.h:66-74 | no streams, both flags off, no callback; the engine invariant (distinct streams) holds |
| `PttAudio.AudioEngine.Initialize` | app/src/main/cpp/ptt/AudioEngine.cpp:25-51 | stores the callback first; succeeds iff both streams open; playback is not attempted after a capture failure; the two streams are distinct objects |
| `PttAudio.AudioEngine.StartCapture` | app/src/main/cpp/ptt/AudioEngine.cpp:53-76 | the capture side and result move exactly as `StartSide`; the playback side is unchanged |
| `PttAudio.AudioEngine.StopCapture` | app/src/main/cpp/ptt/AudioEngine.cpp:78-91 | the capture side moves exactly as `StopSide`; the playback side is unchanged |
| `PttAudio.AudioEngine.StartPlayback` | app/src/main/cpp/ptt/AudioEngine.cpp:93-116 | the playback side and result move exactly as `StartSide`; the capture side is unchanged |
| `PttAudio.AudioEngine.StopPlayback` | app/src/main/cpp/ptt/AudioEngine.cpp:118-131 | the playback side moves exactly as `StopSide`; the capture side is unchanged |
| `PttAudio.AudioEngine.GetLatencyMillis` | app/src/main/cpp/ptt/AudioEngine.cpp:133-143 | returns `Latency` of the two streams |
| `AudioCapture.CaptureDelivery` | app/src/main/cpp/ptt/AudioCapture.cpp:46-60 | the host hears of a buffer iff capturing with a callback, and gets exactly its first 2·numFrames bytes |
| `AudioCapture.CaptureOutput` | app/src/main/cpp/ptt/AudioCapture.cpp:46-50 | not capturing, the first 2·numFrames bytes become silence; capturing, the buffer is untouched; later bytes are never touched |
| `AudioCapture.CaptureEitherSilencesOrForwards` | app/src/main/cpp/ptt/AudioCapture.cpp:41-63 | delivered audio is never altered, and altered audio is never delivered |
| `AudioCapture.CaptureCallback.OnAudioReady` | app/src/main/cpp/ptt/AudioCapture.cpp:41-63 | returns Continue; the buffer becomes `CaptureOutput`; the host log grows by the delivery, if any |
| `AudioCapture.CaptureCallback.OnErrorBeforeClose` | app/src/main/cpp/ptt/AudioCapture.cpp:65-76 | the error code reaches the host iff one is registered |
| `AudioPlayback.Silenced` | app/src/main/cpp/ptt/AudioPlayback.cpp:43 | 2·numFrames zero bytes at the front, the rest untouched |
| `AudioPlayback.SilentWithoutPlaybackOrBuffer` | app/src/main/cpp/ptt/AudioPlayback.cpp:41-62 | not playing, or no jitter buffer yet, the requested frames are silence |
| `AudioPlayback.PacketCopiedWhole` | app/src/main/cpp/ptt/AudioPlayback.cpp:49-54 | while playing, the oldest datagram is copied whole to the front, header included, whatever numFrames asked |
| `AudioPlayback.UnderrunLeavesStaleAudio` | app/src/main/cpp/ptt/AudioPlayback.cpp:50-59 | as written, an empty jitter buffer leaves the speaker buffer exactly as it was |
| `AudioPlayback.UnderrunExample` | app/src/main/cpp/ptt/AudioPlayback.cpp:50-59 | a concrete underrun replays a non-silent frame |
| `AudioPlayback.IntendedFillSilentWithoutPacket` | app/src/main/cpp/ptt/AudioPlayback.cpp:56-59 | corrected: whenever no packet is played, the requested frames are silence |
| `AudioPlayback.IntendedDiffersOnlyOnUnderrun` | app/src/main/cpp/ptt/AudioPlayback.cpp:36-65 | the corrected fill differs from the written one only on an underrun while playing |
| `AudioPlayback.PlaybackCallback.constructor` | app/src/main/cpp/ptt/AudioEngine.h:118 | bound to its engine, no jitter buffer yet |
| `AudioPlayback.PlaybackCallback.OnAudioReady` | app/src/main/cpp/ptt/AudioPlayback.cpp:36-65 | returns Continue; the buffer becomes `PlaybackFill`; the jitter buffer loses its oldest packet iff playing |
| `AudioPlayback.PlaybackCallback.OnAudioReadyWithSilence` | app/src/main/cpp/ptt/AudioPlayback.cpp:36-65 | the corrected callback: the buffer becomes `PlaybackFillIntended`, with the same jitter-buffer effect |
| `AudioPlayback.PlaybackCallback.OnErrorBeforeClose` | app/src/main/cpp/ptt/AudioPlayback.cpp:67-78 | the error code reaches the host iff one is registered |
| `AudioPlayback.PlaybackCallback.EnqueueAudio` | app/src/main/cpp/ptt/AudioPlayback.cpp:80-88 | the first call allocates a fresh jitter buffer, later calls reuse it; the datagram is enqueued per `AfterEnqueue` |
| `AudioPlayback.PlaybackCallback.ResetJitterBuffer` | app/src/main/cpp/ptt/AudioPlayback.cpp:90-94 | resets an existing jitter buffer; a no-op before one exists |
| `Opus.FrameSizeIsSixtyMillis` | app/src/main/cpp/ptt/OpusCodec.h:22-24 | 960 samples at 16 kHz last 60 ms; 20 ms would be 320 samples |
| `Opus.LastValue` | app/src/main/cpp/ptt/OpusCodec.cpp:51-57 | a setting's current value is one that was requested; none means it was never requested |
| `Opus.LastValueAfterSet` | app/src/main/cpp/ptt/OpusCodec.cpp:112 | a request for a setting becomes its value |
| `Opus.LastValueAfterOther` | app/src/main/cpp/ptt/OpusCodec.cpp:99 | a request for another setting, or a state reset, leaves a setting unchanged |
| `Opus.InitRequests` | app/src/main/cpp/ptt/OpusCodec.cpp:51-57 | `initialize` makes five control requests |
| `Opus.InitPushesStoredSettings` | app/src/main/cpp/ptt/OpusCodec.cpp:51-57 | after `initialize` the handle runs the stored bitrate, complexity and FEC, 5% loss and DTX on |
| `Opus.LibEncoder.Ctl` | app/src/main/cpp/ptt/OpusCodec.cpp:51 | the handle records one more request |
| `Opus.LibDecoder.Ctl` | app/src/main/cpp/ptt/OpusCodec.cpp:169 | the handle records one more request |
| `Opus.BitrateSetting` | app/src/main/cpp/ptt/OpusCodec.cpp:104-110 | the stored bitrate lies in 6000..64000, equals an in-range request, and is the nearer bound otherwise |
| `Opus.ComplexitySetting` | app/src/main/cpp/ptt/OpusCodec.cpp:123-129 | the stored complexity lies in 0..10, equals an in-range request, and is the nearer bound otherwise |
| `Opus.SettingsIdempotentAndMonotone` | app/src/main/cpp/ptt/OpusCodec.cpp:104-129 | setting a stored value again keeps it, and a larger request never stores less |
| `Opus.DefaultConfigurationInRange` | app/src/main/cpp/ptt/OpusCodec.cpp:19-24 | the default bitrate 12000 and complexity 5 are values the setters keep |
| `Opus.EncodeResult` | app/src/main/cpp/ptt/OpusCodec.cpp:66-95 | -1 without a handle, otherwise the library's result |
| `Opus.FrameSizeNeverRejected` | app/src/main/cpp/ptt/OpusCodec.cpp:73-76 | a frame size other than 960 gives the same result |
| `Opus.OpusEncoder.constructor` | app/src/main/cpp/ptt/OpusCodec.cpp:19-25 | no handle, 12000 bps, FEC off, complexity 5 |
| `Opus.OpusEncoder.Initialize` | app/src/main/cpp/ptt/OpusCodec.cpp:34-64 | succeeds iff the library made a handle without error; only then are the five settings pushed and the handle in sync |
| `Opus.OpusEncoder.Encode` | app/src/main/cpp/ptt/OpusCodec.cpp:66-95 | returns `EncodeResult`, whatever the frame size |
| `Opus.OpusEncoder.Reset` | app/src/main/cpp/ptt/OpusCodec.cpp:97-102 | an existing handle gets a state reset; settings stay in sync |
| `Opus.OpusEncoder.SetBitrate` | app/src/main/cpp/ptt/OpusCodec.cpp:104-114 | stores `BitrateSetting(b)` and pushes it to an existing handle, keeping it in sync |
| `Opus.OpusEncoder.SetFec` | app/src/main/cpp/ptt/OpusCodec.cpp:116-121 | stores the flag and pushes 1/0 to an existing handle |
| `Opus.OpusEncoder.SetComplexity` | app/src/main/cpp/ptt/OpusCodec.cpp:123-133 | stores `ComplexitySetting(c)` and pushes it to an existing handle |
| `Opus.DecodeRules` | app/src/main/cpp/ptt/OpusCodec.cpp:178-205 | without a handle: -1 and no change; otherwise the library result, and the last error is negative iff the result is, equal to it then |
| `Opus.PlcRules` | app/src/main/cpp/ptt/OpusCodec.cpp:207-230 | without a handle -1; a success leaves the state untouched; a failure is recorded |
| `Opus.DecodeClearsPlcError` | app/src/main/cpp/ptt/OpusCodec.cpp:203-226 | a failed concealment's error is cleared by the next successful decode |
| `Opus.LastErrorNeverPositive` | app/src/main/cpp/ptt/OpusCodec.cpp:196-229 | over any series of decode/PLC calls the last error never becomes positive |
| `Opus.NoHandleNoChange` | app/src/main/cpp/ptt/OpusCodec.cpp:180-210 | no series of calls on a decoder without a handle changes anything |
| `Opus.OpusDecoder.constructor` | app/src/main/cpp/ptt/OpusCodec.cpp:140-144 | no handle, last error OK |
| `Opus.OpusDecoder.Initialize` | app/src/main/cpp/ptt/OpusCodec.cpp:153-176 | succeeds iff a handle came without error, then in-band FEC is enabled; a failure records the error |
| `Opus.OpusDecoder.Decode` | app/src/main/cpp/ptt/OpusCodec.cpp:178-205 | result and state move exactly as `DecodeStep` |
| `Opus.OpusDecoder.DecodePlc` | app/src/main/cpp/ptt/OpusCodec.cpp:207-230 | result and state move exactly as `PlcStep` |
| `Opus.OpusDecoder.Reset` | app/src/main/cpp/ptt/OpusCodec.cpp:232-237 | an existing handle gets a state reset |
| `Opus.CreateEncoder` | app/src/main/cpp/ptt/OpusCodec.cpp:244-250 | null exactly when `initialize` fails; otherwise a fresh, initialised, synced encoder with the defaults |
| `Opus.CreateDecoder` | app/src/main/cpp/ptt/OpusCodec.cpp:252-258 | null exactly when `initialize` fails; otherwise a fresh decoder with FEC enabled and no error |
| `Vad.FloatDiv` | app/src/main/cpp/ptt/VadProcessor.cpp:71 | IEEE division: exact for a nonzero divisor; a zero divisor gives NaN iff the dividend is 0 |
| `Vad.ClampUnit` | app/src/main/cpp/ptt/VadProcessor.cpp:72 | `std::clamp` to [0, 1] returns NaN iff given NaN, else a value in [0, 1], keeping in-range values |
| `Vad.Multiplier` | app/src/main/cpp/ptt/VadProcessor.cpp:107-116 | levels 0..3 give 2.0, 1.5, 1.0, 0.7; any other gives 1.0 |
| `Vad.HigherAggressivenessLowersTheBar` | app/src/main/cpp/ptt/VadProcessor.cpp:101-116 | over levels 0..3 a higher level has a strictly smaller multiplier and threshold factor |
| `Vad.HigherAggressivenessIsMoreSensitive` | app/src/main/cpp/ptt/VadProcessor.cpp:53-56 | a frame that is voice at one level is voice at any higher level, and a positive calibration gives a lower threshold at the higher level |
| `Vad.UpdateThreshold` | app/src/main/cpp/ptt/VadProcessor.cpp:97-105 | only the threshold changes, and it is 1000 before any calibration frame |
| `Vad.SetAggressivenessStep` | app/src/main/cpp/ptt/VadProcessor.cpp:61-63 | the level is clamped to 0..3, kept when in range, and nothing else changes |
| `Vad.InitialState` | app/src/main/cpp/ptt/VadProcessor.cpp:24-32 | frame size `sampleRate*frameSizeMs/1000`, level 2, no frames, threshold 1000 |
| `Vad.StepsPreserveInv` | app/src/main/cpp/ptt/VadProcessor.cpp:45-79 | every operation keeps frameCount ≤ 10 and the level in 0..3 |
| `Vad.ShortFrameIgnored` | app/src/main/cpp/ptt/VadProcessor.cpp:37-39 | a short frame is not voice and changes nothing |
| `Vad.Decisions` | app/src/main/cpp/ptt/VadProcessor.cpp:36-59 | one decision per frame |
| `Vad.FrameCountNeverExceedsTen` | app/src/main/cpp/ptt/VadProcessor.cpp:45-50 | over any series of frames frameCount stays ≤ 10 |
| `Vad.CalibrationFramesAreSilent` | app/src/main/cpp/ptt/VadProcessor.cpp:45-50 | while calibrating, full frames are never voice, each is counted and its energy summed, and the threshold stays put |
| `Vad.ThresholdFrozenAfterCalibration` | app/src/main/cpp/ptt/VadProcessor.cpp:53-105 | after calibration the energy sum is frozen, so the threshold is the same value on every frame |
| `Vad.FirstDecisionUsesDefaultThreshold` | app/src/main/cpp/ptt/VadProcessor.cpp:45-56 | the first decision after ten calibration frames still uses the default threshold 1000 |
| `Vad.ResetRestartsCalibration` | app/src/main/cpp/ptt/VadProcessor.cpp:75-79 | reset zeroes the count and sum, sets the threshold to 1000, keeps level and frame size; the probability is 0 |
| `Vad.ProbabilityDependsOnlyOnAggressiveness` | app/src/main/cpp/ptt/VadProcessor.cpp:65-105 | once the threshold tracks a positive average, the probability is 1/(2·(1.5 − 0.15·level)) |
| `Vad.SilentCalibrationGivesNaN` | app/src/main/cpp/ptt/VadProcessor.cpp:65-105 | as written, a silent calibration followed by one full frame makes the probability NaN |
| `Vad.SilentRunExample` | app/src/main/cpp/ptt/VadProcessor.cpp:36-79 | reset, ten silent 480-sample frames and one more give NaN |
| `Vad.SilentTotal` | app/src/main/cpp/ptt/VadProcessor.cpp:47 | silent frames sum to zero energy |
| `Vad.GuardedProbabilityInUnitRange` | app/src/main/cpp/ptt/VadProcessor.cpp:65-73 | corrected: the probability is 0 with no frames and always in [0, 1] |
| `Vad.GuardedAgreesUnlessNaN` | app/src/main/cpp/ptt/VadProcessor.cpp:65-73 | the guard changes the result only where the written code gives NaN |
| `Vad.VadProcessor.constructor` | app/src/main/cpp/ptt/VadProcessor.cpp:24-32 | the state is `Initial(sampleRate, frameSizeMs)` |
| `Vad.VadProcessor.UpdateThresholdInPlace` | app/src/main/cpp/ptt/VadProcessor.cpp:97-105 | the state moves as `UpdateThreshold` |
| `Vad.VadProcessor.ProcessFrame` | app/src/main/cpp/ptt/VadProcessor.cpp:36-59 | decision and state move exactly as `ProcessStep` |
| `Vad.VadProcessor.SetAggressiveness` | app/src/main/cpp/ptt/VadProcessor.cpp:61-63 | the state moves as `SetAggressivenessStep` |
| `Vad.VadProcessor.GetVoiceProbability` | app/src/main/cpp/ptt/VadProcessor.cpp:65-73 | returns `VoiceProbability` of the state |
| `Vad.VadProcessor.GetVoiceProbabilityGuarded` | app/src/main/cpp/ptt/VadProcessor.cpp:65-73 | corrected: returns a value in [0, 1] |
| `Vad.VadProcessor.Reset` | app/src/main/cpp/ptt/VadProcessor.cpp:75-79 | the state moves as `ResetStep` |
| `Denoise.Route` | app/src/main/cpp/ptt/NoiseSuppressor.cpp:56-71 | bypass iff not ready or suppression is 0; the gate runs only on a frame of exactly the configured size |
| `Denoise.SamplesHandled` | app/src/main/cpp/ptt/NoiseSuppressor.cpp:56-74 | never more than `length` samples, and on a size mismatch never more than the frame size |
| `Denoise.ProcessedOutput` | app/src/main/cpp/ptt/NoiseSuppressor.cpp:56-74 | samples past the handled count are never written |
| `Denoise.SetSuppressionStep` | app/src/main/cpp/ptt/NoiseSuppressor.cpp:77-79 | the level is clamped to 0..45, kept when in range, and nothing else changes |
| `Denoise.BypassCopiesEverything` | app/src/main/cpp/ptt/NoiseSuppressor.cpp:57-61 | with suppression 0, all `length` samples are copied unchanged whatever the frame size, and nothing is counted |
| `Denoise.MismatchCopiesPrefix` | app/src/main/cpp/ptt/NoiseSuppressor.cpp:63-67 | a wrong-size frame copies min(length, frameSize) samples unchanged, reports that count, and is not counted |
| `Denoise.SuppressedFrameCounted` | app/src/main/cpp/ptt/NoiseSuppressor.cpp:71-74 | a full frame is gated, reported whole, and increments the frame count by exactly 1 |
| `Denoise.OnlyTheGateAltersSamples` | app/src/main/cpp/ptt/NoiseSuppressor.cpp:56-68 | off the gate path the written samples equal the input and the state is unchanged |
| `Denoise.ReportedCountExact` | app/src/main/cpp/ptt/NoiseSuppressor.cpp:60-74 | the `int` count equals the sample count below 2^31 |
| `Denoise.SetSuppressionIdempotent` | app/src/main/cpp/ptt/NoiseSuppressor.cpp:77-83 | setting a level twice equals setting it once; `getSuppression` reads the clamped value |
| `Denoise.CopySamples` | app/src/main/cpp/ptt/NoiseSuppressor.cpp:59-66 | `memcpy` of n samples writes exactly those and nothing else |
| `Denoise.FillZero` | app/src/main/cpp/ptt/NoiseSuppressor.cpp:91-92 | `std::fill` with 0 zeroes every entry |
| `Denoise.StoreAll` | app/src/main/cpp/ptt/NoiseSuppressor.cpp:126-127 | the noise profile takes the learned values |
| `Denoise.NoiseSuppressor.constructor` | app/src/main/cpp/ptt/NoiseSuppressor.cpp:38-52 | level 0, ready, no frames, two zeroed profiles of frameSize/2+1 entries |
| `Denoise.NoiseSuppressor.ProcessFrame` | app/src/main/cpp/ptt/NoiseSuppressor.cpp:56-75 | count, state and output move per `SamplesHandled`, `ProcessStep` and `ProcessedOutput`; the noise floor changes only on the gate path during the first 100 frames; the smoothed power never changes |
| `Denoise.NoiseSuppressor.ApplyNoiseSuppression` | app/src/main/cpp/ptt/NoiseSuppressor.cpp:105-157 | writes the gate's samples and learns the floor only while fewer than 100 frames were gated |
| `Denoise.NoiseSuppressor.SetSuppression` | app/src/main/cpp/ptt/NoiseSuppressor.cpp:77-79 | keeps the invariant; the state moves as `SetSuppressionStep` |
| `Denoise.NoiseSuppressor.GetSuppression` | app/src/main/cpp/ptt/NoiseSuppressor.cpp:81-83 | returns the stored level, which lies in 0..45 |
| `Denoise.NoiseSuppressor.IsReady` | app/src/main/cpp/ptt/NoiseSuppressor.cpp:85-87 | returns the ready flag, which the constructor sets |
| `Denoise.NoiseSuppressor.Reset` | app/src/main/cpp/ptt/NoiseSuppressor.cpp:89-93 | frame count 0, both profiles zero, the level unchanged |

## Left out

- Threads, `std::mutex` and the atomics. Every operation is sequential, and the receive
  loop is modelled as one iteration, `RtpPacketizer.Packetizer.ReceiveOnce`. Joining the
  receive thread in `stopReceiveLoop` is not modelled.
- Socket I/O (`socket`, `setsockopt`, `bind`, `sendto`, `recvfrom`, `close`, `inet_addr`).
  Each result is a parameter, and the addresses passed to them are not modelled.
- Oboe stream building (`createCaptureStream`, `createPlaybackStream`). The engine takes
  each creation's result and latency as a parameter. The empty `setSpeakerOutput` and
  `setBluetoothOutput` are not modelled.
- libopus. Encoded bytes, decoded PCM and the meaning of the control requests are not
  modelled. `OpusCodecFactory::getVersion` and `getLookahead` only query the library.
- The random SSRC draw. The constructor takes the drawn value, which must be nonzero.
- Floating-point numerics: `calculateEnergy` and the spectral gate arithmetic in
  `applyNoiseSuppression` and `calculateSuppressionFactor`. The energy, the gated samples
  and the learned noise floor are parameters. The detector's `float` arithmetic is exact
  real arithmetic plus IEEE division by zero, with no rounding. A NaN energy (an empty
  frame when the frame size is 0) is not modelled.
- JNI: JniBridge.cpp and the `extern "C"` exports in VadProcessor.cpp and
  NoiseSuppressor.cpp. Logging. Destructors.
- The `size_t` counters (`packetsReceived_`, `packetsLost_`, `packetsSent_`, the
  suppressor's `frameCount_`) are unbounded naturals. Their 2^64 wrap is not modelled.
- `Vad.VadProcessor.constructor`: requires the `int` product `sampleRate * frameSizeMs`
  not to overflow. Signed overflow is undefined in C++.
- `Denoise.NoiseSuppressor.constructor`: requires `frameSize / 2 + 1 >= 0`. A smaller size
  makes the vector constructor throw.
- `JitterBuffer.RtpJitterBuffer.Enqueue`: requires a datagram of at most 1500 bytes. The
  code's `memcpy` overflows the slot beyond that.
- `JitterBuffer.RtpJitterBuffer.Dequeue`: requires that the output buffer holds the oldest
  packet and is not the ring's own storage. The code copies without a bound.
- `AudioPlayback.PlaybackCallback.OnAudioReady`: requires the oldest queued datagram to
  fit the speaker buffer. The code copies it regardless of `numFrames`, which overflows
  for a datagram longer than the buffer.
- `AudioCapture.CaptureCallback.OnAudioReady`: `numFrames` is taken as non-negative, and
  the buffer must hold 2·numFrames bytes. Oboe guarantees both.
- `PttAudio.AudioEngine.GetLatencyMillis`: the stream latencies are integers. Summing
  Oboe's `double` results and casting the sum to `int32_t` is not modelled.
- `PttAudio.AudioEngine.Initialize`: a failed stream creation leaves that stream pointer as
  it was. What `openStream` does to the pointer on failure is Oboe's business.
- `Opus.OpusEncoder.Reset`, `Opus.OpusEncoder.SetBitrate`, `Opus.OpusEncoder.SetFec` and
  `Opus.OpusEncoder.SetComplexity`: each requires the handle to be in sync with the stored
  settings. After an `initialize` whose creation gave a handle and an error, the handle
  gets no settings and these methods are not covered.

## Findings

| source | as written | input that shows it | evidently intended | confidence | as-written member | corrected member |
|---|---|---|---|---|---|---|
| app/src/main/cpp/ptt/AudioPlayback.cpp:50-59 | on an empty jitter buffer, `dequeue` sets `bytesNeeded` to 0 before the "silence" `memset(audioData, 0, bytesNeeded)`, so nothing is cleared and the previous buffer contents are played again | playing, jitter buffer allocated but empty, speaker buffer `[1, 1]`, `numFrames` 1: the output is `[1, 1]` | an underrun outputs 2·numFrames bytes of silence | high (not executed) | `AudioPlayback.UnderrunExample` | `AudioPlayback.IntendedFillSilentWithoutPacket` |
| app/src/main/cpp/ptt/VadProcessor.cpp:65-73 | after a calibration of ten silent frames, the first decision frame sets the threshold to 0·factor = 0, and `getVoiceProbability` computes 0/0 = NaN, which `std::clamp` passes through | reset, ten full-length frames of energy 0, one more full-length frame, then `getVoiceProbability()` | a probability in [0, 1] (0 when there is no energy) | medium (not executed) | `Vad.SilentCalibrationGivesNaN` | `Vad.GuardedProbabilityInUnitRange` |
