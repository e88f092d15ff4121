/**
 * The RTP packetizer: builds and sends one datagram per `sendAudio` call, and, one
 * datagram at a time, feeds what the receive loop reads into the jitter buffer and
 * the registered audio callback. Socket calls are oracles: each method takes the
 * result the operating system returned as a parameter.
 */
module RtpPacketizer {
  import opened Common
  import opened RtpHeader
  import opened JitterBuffer

  /** Largest payload that fits a datagram after the header. */
  const MAX_PAYLOAD: nat := MAX_PACKET_SIZE - RTP_HEADER_SIZE

  /** Port used until `initialize` names one. */
  const DEFAULT_PORT: u16 := 5004

  /** Bytes of the group address `strncpy` keeps (the 16-byte field minus its terminator). */
  const GROUP_CHARS: nat := 15

  function Min(a: nat, b: nat): nat {
    if a <= b then a else b
  }

  /** `setDscp`: the DS field sits in the top six bits of the IPv4 TOS byte (RFC 2474 section 3). */
  function TosFor(dscp: byte): (tos: int)
    ensures tos % 4 == 0 && tos / 4 == dscp          // ECN bits clear, DSCP above them
    ensures dscp < 64 ==> 0 <= tos < 256                    // a six-bit code point fits the byte
    ensures dscp == DSCP_EF ==> tos == 184
  {
    dscp * 4
  }

  /**
   * The datagram `sendAudio` hands to `sendto`: the header (the packet buffer is
   * uninitialised stack memory, which `SendHeader` shows does not matter) followed by
   * the payload truncated to MAX_PAYLOAD bytes.
   */
  function BuildPacket(sequence: u16, timestamp: u32, ssrc: u32, marker: bool, pcm: seq<byte>): (p: seq<byte>)
    ensures |p| == RTP_HEADER_SIZE + Min(|pcm|, MAX_PAYLOAD)
    ensures |p| <= MAX_PACKET_SIZE && |p| <= SLOT_SIZE
  {
    var h := SendHeader(Header(0, 0, 0, 0, 0), marker, sequence, timestamp, ssrc);
    Serialize(h) + pcm[..Min(|pcm|, MAX_PAYLOAD)]
  }

  /** The layout of a built datagram: the header fields read back, then the truncated payload. */
  lemma BuildPacketLayout(sequence: u16, timestamp: u32, ssrc: u32, marker: bool, pcm: seq<byte>)
    ensures var p := BuildPacket(sequence, timestamp, ssrc, marker, pcm);
      && Parse(p) == Header(0x80, (if marker then 0x80 else 0) + RTP_PAYLOAD_OPUS, sequence, timestamp, ssrc)
      && p[RTP_HEADER_SIZE..] == pcm[..Min(|pcm|, MAX_PAYLOAD)]
  {
    var h := SendHeader(Header(0, 0, 0, 0, 0), marker, sequence, timestamp, ssrc);
    ParseSerialize(h, pcm[..Min(|pcm|, MAX_PAYLOAD)]);
  }

  /** A sequence number written by `sendAudio` is the one `enqueue` reads back. */
  lemma SentSequenceParsesBack(sequence: u16, timestamp: u32, ssrc: u32, marker: bool, pcm: seq<byte>)
    ensures SequenceOf(BuildPacket(sequence, timestamp, ssrc, marker, pcm)) == sequence
  {
    BuildPacketLayout(sequence, timestamp, ssrc, marker, pcm);
  }

  /** What the receive loop passes to the audio callback. */
  datatype Delivery = Delivery(payload: seq<byte>, ssrc: u32)

  /** One `recvfrom` result: an error (or timeout), or the bytes of one datagram. */
  datatype RecvResult = RecvFailed | Received(bytes: seq<byte>)

  /**
   * The callback a received datagram triggers: only datagrams longer than the header
   * count, and the callback gets the bytes after the header and the SSRC from bytes 8..11.
   * No SSRC is compared with the local one: the receiver's own packets are delivered too.
   */
  function DeliveryFor(bytes: seq<byte>, hasCallback: bool): (d: Option<Delivery>)
    ensures d.Some? <==> |bytes| > RTP_HEADER_SIZE && hasCallback
    ensures d.Some? ==> (d.value.payload == bytes[RTP_HEADER_SIZE..] &&
                         d.value.ssrc == FromBigEndian32(bytes[8], bytes[9], bytes[10], bytes[11]))
  {
    if |bytes| > RTP_HEADER_SIZE && hasCallback then
      Some(Delivery(bytes[RTP_HEADER_SIZE..], Parse(bytes).ssrc))
    else
      None
  }

  /**
   * A datagram built by `sendAudio` reaches a receiver's callback with the (truncated)
   * payload and the sender's SSRC intact, unless the payload was empty: a header-only
   * datagram is ignored by every receiver.
   */
  lemma SendReceiveRoundTrip(sequence: u16, timestamp: u32, ssrc: u32, marker: bool, pcm: seq<byte>)
    ensures var p := BuildPacket(sequence, timestamp, ssrc, marker, pcm);
      && (pcm == [] ==> DeliveryFor(p, true) == None)
      && (pcm != [] ==> DeliveryFor(p, true) == Some(Delivery(pcm[..Min(|pcm|, MAX_PAYLOAD)], ssrc)))
  {
    BuildPacketLayout(sequence, timestamp, ssrc, marker, pcm);
  }

  // ---------------------------------------------------------------------------
  // Specification of the send path
  // ---------------------------------------------------------------------------

  /** The send-side state of a packetizer. */
  datatype SenderView = SenderView(running: bool, socket: int, sequence: u16, timestamp: u32, packetsSent: nat)

  datatype SendResult = SendResult(ok: bool, after: SenderView, datagram: Option<seq<byte>>)

  /**
   * `sendAudio(pcm, marker)` when `sendto` succeeds iff `sendOk`: a sequence number is
   * consumed as soon as the guard passes; the timestamp (by the untruncated sample
   * count, modulo 2^32) and the sent counter move only on success.
   */
  function SendStep(v: SenderView, ssrc: u32, pcm: seq<byte>, marker: bool, sendOk: bool): SendResult {
    if !v.running || v.socket < 0 then SendResult(false, v, None)
    else
      var p := BuildPacket(v.sequence, v.timestamp, ssrc, marker, pcm);
      var consumed := v.(sequence := NextSequence(v.sequence));
      if !sendOk then SendResult(false, consumed, Some(p))
      else SendResult(true, consumed.(timestamp := (v.timestamp + |pcm| / 2) % U32_MOD,
                                      packetsSent := v.packetsSent + 1), Some(p))
  }

  /** One call of `sendAudio`: the payload, the marker flag and what `sendto` returned. */
  datatype SendRequest = SendRequest(pcm: seq<byte>, marker: bool, sendOk: bool)

  datatype Burst = Burst(after: SenderView, datagrams: seq<seq<byte>>)

  /** A series of `sendAudio` calls and the datagrams they hand to `sendto`. */
  function SendAll(v: SenderView, ssrc: u32, reqs: seq<SendRequest>): (b: Burst)
    ensures forall i :: 0 <= i < |b.datagrams| ==> RTP_HEADER_SIZE <= |b.datagrams[i]| <= SLOT_SIZE
    ensures v.running && v.socket >= 0 ==> |b.datagrams| == |reqs| && b.after.running && b.after.socket == v.socket
    decreases |reqs|
  {
    if reqs == [] then Burst(v, [])
    else
      var r := SendStep(v, ssrc, reqs[0].pcm, reqs[0].marker, reqs[0].sendOk);
      var rest := SendAll(r.after, ssrc, reqs[1..]);
      Burst(rest.after, (if r.datagram.Some? then [r.datagram.value] else []) + rest.datagrams)
  }

  /** The guard: a stopped packetizer or one without a socket sends nothing and changes nothing. */
  lemma SendRefusedWithoutSocket(v: SenderView, ssrc: u32, pcm: seq<byte>, marker: bool, sendOk: bool)
    requires !v.running || v.socket < 0
    ensures SendStep(v, ssrc, pcm, marker, sendOk) == SendResult(false, v, None)
  {
  }

  /** Past the guard, a send that `sendto` rejects still consumes its sequence number. */
  lemma FailedSendConsumesSequence(v: SenderView, ssrc: u32, pcm: seq<byte>, marker: bool)
    requires v.running && v.socket >= 0
    ensures var r := SendStep(v, ssrc, pcm, marker, false);
      && !r.ok && r.after.sequence == NextSequence(v.sequence)
      && r.after.timestamp == v.timestamp && r.after.packetsSent == v.packetsSent
      && r.datagram.Some? && SequenceOf(r.datagram.value) == v.sequence
  {
  }

  /**
   * One unfolding of a burst past the guard: the first send's datagram carries the
   * current sequence number and leaves the sender running with the next one.
   */
  lemma SendAllUnfold(v: SenderView, ssrc: u32, reqs: seq<SendRequest>) returns (d: seq<byte>, next: SenderView)
    requires v.running && v.socket >= 0 && reqs != []
    ensures |d| >= RTP_HEADER_SIZE && SequenceOf(d) == v.sequence
    ensures next.running && next.socket == v.socket && next.sequence == NextSequence(v.sequence)
    ensures SendAll(v, ssrc, reqs).datagrams == [d] + SendAll(next, ssrc, reqs[1..]).datagrams
    ensures SendAll(v, ssrc, reqs).after == SendAll(next, ssrc, reqs[1..]).after
  {
    var r := SendStep(v, ssrc, reqs[0].pcm, reqs[0].marker, reqs[0].sendOk);
    d, next := r.datagram.value, r.after;
    SentSequenceParsesBack(v.sequence, v.timestamp, ssrc, reqs[0].marker, reqs[0].pcm);
  }

  /** After a running burst, the next sequence number is the first advanced by the number of sends. */
  lemma {:induction false} BurstAdvancesSequence(v: SenderView, ssrc: u32, reqs: seq<SendRequest>)
    requires v.running && v.socket >= 0
    ensures SendAll(v, ssrc, reqs).after.sequence == Advance(v.sequence, |reqs|)
    decreases |reqs|
  {
    if reqs == [] {
      assert SendAll(v, ssrc, reqs).after == v;
    } else {
      var d, next := SendAllUnfold(v, ssrc, reqs);
      assert |reqs[1..]| == |reqs| - 1;
      BurstAdvancesSequence(next, ssrc, reqs[1..]);
    }
  }

  /** The i-th datagram of a running burst carries the first sequence number advanced i times. */
  lemma {:induction false} BurstSequenceAt(v: SenderView, ssrc: u32, reqs: seq<SendRequest>, i: nat)
    requires v.running && v.socket >= 0 && i < |reqs|
    ensures SequenceOf(SendAll(v, ssrc, reqs).datagrams[i]) == Advance(v.sequence, i)
    decreases i
  {
    var d, next := SendAllUnfold(v, ssrc, reqs);
    var ds := SendAll(v, ssrc, reqs).datagrams;
    if i == 0 {
      assert ds[0] == d;
    } else {
      var rest := SendAll(next, ssrc, reqs[1..]).datagrams;
      assert ds[i] == rest[i - 1];
      BurstSequenceAt(next, ssrc, reqs[1..], i - 1);
    }
  }

  /**
   * While the packetizer runs, successive sends carry consecutive sequence numbers
   * modulo 2^16, whatever `sendto` returns.
   */
  lemma BurstSequencesConsecutive(v: SenderView, ssrc: u32, reqs: seq<SendRequest>)
    requires v.running && v.socket >= 0
    ensures var b := SendAll(v, ssrc, reqs);
      && b.after.sequence == (v.sequence + |reqs|) % U16_MOD
      && forall i :: 0 <= i < |reqs| ==> SequenceOf(b.datagrams[i]) == (v.sequence + i) % U16_MOD
  {
    BurstAdvancesSequence(v, ssrc, reqs);
    AdvanceIsModular(v.sequence, |reqs|);
    forall i | 0 <= i < |reqs|
      ensures SequenceOf(SendAll(v, ssrc, reqs).datagrams[i]) == (v.sequence + i) % U16_MOD
    {
      BurstSequenceAt(v, ssrc, reqs, i);
      AdvanceIsModular(v.sequence, i);
    }
  }

  /** Within one wrap of the counter, no two datagrams of a burst share a sequence number. */
  lemma BurstSequencesDistinct(v: SenderView, ssrc: u32, reqs: seq<SendRequest>, i: nat, j: nat)
    requires v.running && v.socket >= 0
    requires i < j < |reqs| <= U16_MOD
    ensures var b := SendAll(v, ssrc, reqs);
      SequenceOf(b.datagrams[i]) != SequenceOf(b.datagrams[j])
  {
    BurstSequenceAt(v, ssrc, reqs, i);
    BurstSequenceAt(v, ssrc, reqs, j);
    AdvanceDistinct(v.sequence, i, j);
  }

  // ---------------------------------------------------------------------------
  // The packetizer object
  // ---------------------------------------------------------------------------

  /** The socket-option calls `createSocket` makes, with what each returned. */
  datatype SocketOracle = SocketOracle(fd: int, reuseOk: bool, bindOk: bool, tosOk: bool, joinOk: bool)

  /** Every mutable field of a packetizer, so that each method can say what it leaves alone. */
  datatype PacketizerState = PacketizerState(
    socket: int, socketOpen: bool, socketTos: Option<int>, joined: bool,
    isRunning: bool, sequence: u16, timestamp: u32,
    multicastGroup: string, port: u16, receiveRunning: bool,
    hasAudioCallback: bool, packetsSent: nat, packetsReceived: nat)

  class Packetizer {
    var socket: int
    /** Whether the descriptor in `socket` is open at the operating-system level. */
    var socketOpen: bool
    /** The IP_TOS value the socket carries once `setsockopt` accepted one. */
    var socketTos: Option<int>
    /** Whether the socket joined the multicast group. */
    var joined: bool
    var isRunning: bool
    var sequence: u16
    var timestamp: u32
    const ssrc: u32
    var multicastGroup: string
    var port: u16
    var receiveRunning: bool
    const jitterBuffer: RtpJitterBuffer
    var hasAudioCallback: bool
    var packetsSent: nat
    var packetsReceived: nat

    ghost predicate Valid()
      reads this, jitterBuffer, jitterBuffer.buffer
    {
      ssrc != 0 && jitterBuffer.Valid() && |multicastGroup| <= GROUP_CHARS
    }

    function Sender(): SenderView
      reads this
    {
      SenderView(isRunning, socket, sequence, timestamp, packetsSent)
    }

    ghost function State(): PacketizerState
      reads this
    {
      PacketizerState(socket, socketOpen, socketTos, joined, isRunning, sequence, timestamp,
                      multicastGroup, port, receiveRunning, hasAudioCallback, packetsSent, packetsReceived)
    }

    /** `randomSsrc` is the value the random generator drew from [1, 2^32 - 1]. */
    constructor (randomSsrc: u32)
      requires randomSsrc != 0
      ensures Valid() && fresh(jitterBuffer) && fresh(jitterBuffer.buffer)
      ensures ssrc == randomSsrc
      ensures State() == PacketizerState(-1, false, None, false, false, 0, 0, "", DEFAULT_PORT,
                                         false, false, 0, 0)
      ensures jitterBuffer.ToView() == Initial
    {
      socket := -1;
      socketOpen := false;
      socketTos := None;
      joined := false;
      isRunning := false;
      sequence, timestamp := 0, 0;
      ssrc := randomSsrc;
      multicastGroup := "";
      port := DEFAULT_PORT;
      receiveRunning := false;
      jitterBuffer := new RtpJitterBuffer();
      hasAudioCallback := false;
      packetsSent, packetsReceived := 0, 0;
    }

    method SetAudioCallback(present: bool)
      requires Valid()
      modifies this
      ensures Valid()
      ensures State() == old(State()).(hasAudioCallback := present)
    {
      hasAudioCallback := present;
    }

    /** `initialize(group, port)`: keep at most 15 characters of the group, then `createSocket`. */
    method Initialize(group: string, p: u16, os: SocketOracle) returns (ok: bool)
      requires Valid()
      modifies this
      ensures Valid()
      ensures ok == (os.fd >= 0 && os.reuseOk && os.bindOk)
      ensures !ok ==> State() == old(State()).(multicastGroup := group[..Min(|group|, GROUP_CHARS)], port := p,
                                               socket := os.fd, socketOpen := false)
      ensures ok ==> State() == old(State()).(multicastGroup := group[..Min(|group|, GROUP_CHARS)], port := p,
                                              socket := os.fd, socketOpen := true,
                                              socketTos := if os.tosOk then Some(TosFor(DSCP_EF)) else old(socketTos),
                                              joined := os.joinOk)
    {
      multicastGroup := group[..Min(|group|, GROUP_CHARS)];
      port := p;
      ok := CreateSocket(os);
    }

    /**
     * `createSocket`: failing to open, to set SO_REUSEADDR or to bind is fatal (the
     * descriptor is closed but `socket` keeps its number); failing to set the DSCP or to
     * join the group is not.
     */
    method CreateSocket(os: SocketOracle) returns (ok: bool)
      requires Valid()
      modifies this
      ensures Valid()
      ensures ok == (os.fd >= 0 && os.reuseOk && os.bindOk)
      ensures !ok ==> State() == old(State()).(socket := os.fd, socketOpen := false)
      ensures ok ==> State() == old(State()).(socket := os.fd, socketOpen := true,
                                              socketTos := if os.tosOk then Some(TosFor(DSCP_EF)) else old(socketTos),
                                              joined := os.joinOk)
    {
      socket := os.fd;
      if socket < 0 {
        socketOpen := false;
        return false;
      }
      socketOpen := true;
      if !os.reuseOk {
        socketOpen := false;   // close(socket_)
        return false;
      }
      if !os.bindOk {
        socketOpen := false;   // close(socket_)
        return false;
      }
      var dscpSet := SetDscp(DSCP_EF, os.tosOk);   // not fatal
      JoinMulticastGroup(os.joinOk);               // not fatal
      return true;
    }

    /** `setDscp(dscp)`: write TOS = dscp << 2 to the socket; report whether `setsockopt` took it. */
    method SetDscp(dscp: byte, setsockoptOk: bool) returns (ok: bool)
      requires Valid()
      modifies this
      ensures Valid()
      ensures ok == setsockoptOk
      ensures State() == old(State()).(socketTos := if ok then Some(TosFor(dscp)) else old(socketTos))
    {
      var tos := dscp * 4;
      if !setsockoptOk {
        return false;
      }
      socketTos := Some(tos);
      return true;
    }

    method JoinMulticastGroup(membershipOk: bool)
      requires Valid()
      modifies this
      ensures Valid()
      ensures State() == old(State()).(joined := membershipOk)
    {
      joined := membershipOk;
    }

    /** `closeSocket`. */
    method CloseSocket()
      requires Valid()
      modifies this
      ensures Valid()
      ensures old(socket) >= 0 ==> State() == old(State()).(socket := -1, socketOpen := false)
      ensures old(socket) < 0 ==> State() == old(State())
    {
      if socket >= 0 {
        socketOpen := false;
        socket := -1;
      }
    }

    method Start() returns (ok: bool)
      requires Valid()
      modifies this
      ensures Valid()
      ensures ok && State() == old(State()).(isRunning := true)
    {
      if isRunning {
        return true;
      }
      isRunning := true;
      return true;
    }

    /** `stop`: clears the running flag and the receive flag; joining the thread is not modelled. */
    method Stop()
      requires Valid()
      modifies this
      ensures Valid()
      ensures State() == old(State()).(isRunning := false, receiveRunning := false)
    {
      isRunning := false;
      StopReceiveLoop();
    }

    method StartReceiveLoop()
      requires Valid()
      modifies this
      ensures Valid()
      ensures State() == old(State()).(receiveRunning := true)
    {
      if receiveRunning {
        return;
      }
      receiveRunning := true;
    }

    method StopReceiveLoop()
      requires Valid()
      modifies this
      ensures Valid()
      ensures State() == old(State()).(receiveRunning := false)
    {
      receiveRunning := false;
    }

    /** `sendAudio(pcm, pcm.size(), isMarker)`, where `sendOk` is whether `sendto` succeeded. */
    method SendAudio(pcm: seq<byte>, isMarker: bool, sendOk: bool) returns (ok: bool, datagram: Option<seq<byte>>)
      requires Valid()
      modifies this
      ensures Valid()
      ensures SendResult(ok, Sender(), datagram) == SendStep(old(Sender()), ssrc, pcm, isMarker, sendOk)
      ensures State() == old(State()).(sequence := sequence, timestamp := timestamp, packetsSent := packetsSent)
    {
      if !isRunning || socket < 0 {
        return false, None;
      }
      var s := sequence;
      sequence := NextSequence(sequence);   // fetch_add(1) on a 16-bit atomic
      var payloadSize := |pcm|;
      if payloadSize > MAX_PACKET_SIZE - RTP_HEADER_SIZE {
        payloadSize := MAX_PACKET_SIZE - RTP_HEADER_SIZE;
      }
      var header := SendHeader(Header(0, 0, 0, 0, 0), isMarker, s, timestamp, ssrc);
      var packet := Serialize(header) + pcm[..payloadSize];
      assert packet == BuildPacket(s, timestamp, ssrc, isMarker, pcm);
      datagram := Some(packet);
      if !sendOk {
        return false, datagram;
      }
      timestamp := (timestamp + |pcm| / 2) % U32_MOD;
      packetsSent := packetsSent + 1;
      ok := true;
    }

    /**
     * One iteration of `receiveLoop`: a datagram longer than the header goes whole into
     * the jitter buffer, then to the callback (if one is registered), and is counted.
     */
    method ReceiveOnce(r: RecvResult) returns (delivered: Option<Delivery>)
      requires Valid()
      requires r.Received? ==> |r.bytes| <= MAX_PACKET_SIZE   // recvfrom fills a 1400-byte buffer
      modifies this, jitterBuffer, jitterBuffer.buffer
      ensures Valid()
      ensures r.Received? && |r.bytes| > RTP_HEADER_SIZE ==>
        && jitterBuffer.ToView() == AfterEnqueue(old(jitterBuffer.ToView()), r.bytes)
        && delivered == DeliveryFor(r.bytes, hasAudioCallback)
        && State() == old(State()).(packetsReceived := old(packetsReceived) + 1)
      ensures !(r.Received? && |r.bytes| > RTP_HEADER_SIZE) ==>
        && jitterBuffer.ToView() == old(jitterBuffer.ToView())
        && delivered == None && State() == old(State())
    {
      delivered := None;
      if r.Received? && |r.bytes| > RTP_HEADER_SIZE {
        jitterBuffer.Enqueue(r.bytes);
        if hasAudioCallback {
          var header := Parse(r.bytes);
          delivered := Some(Delivery(r.bytes[RTP_HEADER_SIZE..], header.ssrc));
        }
        packetsReceived := packetsReceived + 1;
      }
    }
  }
}
