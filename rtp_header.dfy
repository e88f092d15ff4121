/**
 * The 12-byte fixed RTP header of RFC 3550 section 5.1 as the packetizer lays it
 * out: vpxcc, mpt, then sequence number, timestamp and SSRC in network byte order.
 */
module RtpHeader {
  import opened Common

  const RTP_VERSION: byte := 2
  const RTP_PAYLOAD_OPUS: byte := 111
  const RTP_HEADER_SIZE: nat := 12
  /** Largest datagram the packetizer builds (MTU-safe). */
  const MAX_PACKET_SIZE: nat := 1400

  /** DS field code points (RFC 2474 section 3); AF41 is declared twice in the source with one value. */
  const DSCP_CS0: byte := 0x00
  const DSCP_CS1: byte := 0x08
  const DSCP_AF11: byte := 0x0A
  const DSCP_AF21: byte := 0x12
  const DSCP_AF31: byte := 0x1A
  const DSCP_AF41: byte := 0x22
  const DSCP_AF32: byte := 0x14
  const DSCP_AF33: byte := 0x1C
  const DSCP_EF: byte := 0x2E
  const DSCP_VOICE_ACE: byte := DSCP_EF
  const DSCP_NC: byte := 0x00

  /** The packed header struct; `seq`, `timestamp` and `ssrc` hold host-order values. */
  datatype Header = Header(vpxcc: byte, mpt: byte, sequence: u16, timestamp: u32, ssrc: u32)

  // Bits of a byte, numbered from 0 (least significant): bit k of x is (x / 2^k) % 2,
  // and x & 0x7F is x % 128.

  /** `setVersion(v)`: the whole first byte becomes `(v & 3) << 6`, the version in its top two bits. */
  function SetVersion(v: byte): (vpxcc: byte)
    ensures vpxcc / 64 == v % 4
    ensures vpxcc % 64 == 0            // padding, extension and CSRC count are cleared
    ensures v == RTP_VERSION ==> vpxcc == 0x80
  {
    (v % 4) * 64
  }

  /** `setMarker(m)`: only bit 7 of the second byte changes. */
  function SetMarker(mpt: byte, m: bool): (r: byte)
    ensures (r / 0x80 == 1) == m
    ensures r % 0x80 == mpt % 0x80
  {
    if m then 0x80 + mpt % 0x80 else mpt % 0x80
  }

  /** `setPayloadType(pt)`: `(mpt & 0x80) | (pt & 0x7F)`, only the low seven bits change. */
  function SetPayloadType(mpt: byte, pt: byte): (r: byte)
    ensures r / 0x80 == mpt / 0x80
    ensures r % 0x80 == pt % 0x80
  {
    (mpt / 0x80) * 0x80 + pt % 0x80
  }

  /**
   * The header `sendAudio` fills in: setVersion(2), setMarker(m), setPayloadType(111)
   * applied to whatever the packet buffer held, then the three numeric fields.
   */
  function SendHeader(prior: Header, m: bool, sequence: u16, timestamp: u32, ssrc: u32): (h: Header)
    ensures h.vpxcc == 0x80
    ensures h.mpt == (if m then 0x80 else 0) + RTP_PAYLOAD_OPUS
    ensures h.sequence == sequence && h.timestamp == timestamp && h.ssrc == ssrc
  {
    var withVersion := prior.(vpxcc := SetVersion(RTP_VERSION));
    var withMarker := withVersion.(mpt := SetMarker(withVersion.mpt, m));
    var withType := withMarker.(mpt := SetPayloadType(withMarker.mpt, RTP_PAYLOAD_OPUS));
    withType.(sequence := sequence, timestamp := timestamp, ssrc := ssrc)
  }

  /** The sequence number after `s`: 16-bit unsigned arithmetic wraps 65535 around to 0. */
  function NextSequence(s: u16): (r: u16)
    ensures s < U16_MOD - 1 ==> r == s + 1
    ensures s == U16_MOD - 1 ==> r == 0
  {
    (s + 1) % U16_MOD
  }

  /** The sequence number `n` steps after `s`. */
  function Advance(s: u16, n: nat): u16
    decreases n
  {
    if n == 0 then s else Advance(NextSequence(s), n - 1)
  }

  /** Stepping `n` times is adding `n` modulo 2^16. */
  lemma {:induction false} AdvanceIsModular(s: u16, n: nat)
    ensures Advance(s, n) == (s + n) % U16_MOD
    decreases n
  {
    if n > 0 {
      AdvanceIsModular(NextSequence(s), n - 1);
      var t := NextSequence(s);
      if s == U16_MOD - 1 {
        assert (t + (n - 1)) % U16_MOD == (s + n) % U16_MOD by {
          assert s + n == (n - 1) + U16_MOD;
        }
      }
    }
  }

  /** Within one wrap, stepping different numbers of times gives different sequence numbers. */
  lemma AdvanceDistinct(s: u16, i: nat, j: nat)
    requires i < j < U16_MOD
    ensures Advance(s, i) != Advance(s, j)
  {
    AdvanceIsModular(s, i);
    AdvanceIsModular(s, j);
    var d := (s + j) / U16_MOD - (s + i) / U16_MOD;
    assert (s + j) % U16_MOD - (s + i) % U16_MOD == (j - i) - d * U16_MOD;
  }

  // Network byte order (big-endian), what htons/htonl and ntohs/ntohl do.

  function BigEndian16(x: u16): (b: seq<byte>)
    ensures |b| == 2
  {
    [x / 0x100, x % 0x100]
  }

  function FromBigEndian16(b0: byte, b1: byte): (x: u16)
    ensures x >= b0 * 0x100
  {
    b0 * 0x100 + b1
  }

  /** The two bytes are the high and low digits, base 256, of the value they encode. */
  lemma FromBigEndian16Digits(b0: byte, b1: byte)
    ensures FromBigEndian16(b0, b1) / 0x100 == b0 && FromBigEndian16(b0, b1) % 0x100 == b1
  {
  }

  function BigEndian32(x: u32): (b: seq<byte>)
    ensures |b| == 4
  {
    BigEndian16(x / 0x1_0000) + BigEndian16(x % 0x1_0000)
  }

  function FromBigEndian32(b0: byte, b1: byte, b2: byte, b3: byte): (x: u32)
    ensures x >= FromBigEndian16(b0, b1) * 0x1_0000
  {
    FromBigEndian16(b0, b1) * 0x1_0000 + FromBigEndian16(b2, b3)
  }

  /** The four bytes are the high and low 16-bit halves of the value they encode. */
  lemma FromBigEndian32Halves(b0: byte, b1: byte, b2: byte, b3: byte)
    ensures FromBigEndian32(b0, b1, b2, b3) / 0x1_0000 == FromBigEndian16(b0, b1)
    ensures FromBigEndian32(b0, b1, b2, b3) % 0x1_0000 == FromBigEndian16(b2, b3)
  {
  }

  /** The 12 wire bytes of a header. */
  function Serialize(h: Header): (b: seq<byte>)
    ensures |b| == RTP_HEADER_SIZE
    ensures b[0] == h.vpxcc && b[1] == h.mpt
  {
    [h.vpxcc, h.mpt] + BigEndian16(h.sequence) + BigEndian32(h.timestamp) + BigEndian32(h.ssrc)
  }

  /** Reading the header back from the first 12 bytes of a datagram (memcpy plus ntohs/ntohl). */
  function Parse(b: seq<byte>): (h: Header)
    requires |b| >= RTP_HEADER_SIZE
    ensures h.vpxcc == b[0] && h.mpt == b[1]
  {
    Header(b[0], b[1],
           FromBigEndian16(b[2], b[3]),
           FromBigEndian32(b[4], b[5], b[6], b[7]),
           FromBigEndian32(b[8], b[9], b[10], b[11]))
  }

  lemma BigEndian16RoundTrip(x: u16)
    ensures FromBigEndian16(BigEndian16(x)[0], BigEndian16(x)[1]) == x
  {
  }

  lemma BigEndian32RoundTrip(x: u32)
    ensures var b := BigEndian32(x); FromBigEndian32(b[0], b[1], b[2], b[3]) == x
  {
    BigEndian16RoundTrip(x / 0x1_0000);
    BigEndian16RoundTrip(x % 0x1_0000);
  }

  /** Parsing a serialised header gives it back, whatever payload follows it. */
  lemma {:induction false} ParseSerialize(h: Header, payload: seq<byte>)
    ensures Parse(Serialize(h) + payload) == h
  {
    var b := Serialize(h) + payload;
    BigEndian16RoundTrip(h.sequence);
    BigEndian32RoundTrip(h.timestamp);
    BigEndian32RoundTrip(h.ssrc);
    assert b[2..4] == BigEndian16(h.sequence);
    assert b[4..8] == BigEndian32(h.timestamp);
    assert b[8..12] == BigEndian32(h.ssrc);
  }

  /** Serialising a parsed header gives back exactly the first 12 bytes. */
  lemma {:induction false} SerializeParse(b: seq<byte>)
    requires |b| >= RTP_HEADER_SIZE
    ensures Serialize(Parse(b)) == b[..RTP_HEADER_SIZE]
  {
    var h := Parse(b);
    FromBigEndian16Digits(b[2], b[3]);
    FromBigEndian16Digits(b[4], b[5]);
    FromBigEndian16Digits(b[6], b[7]);
    FromBigEndian16Digits(b[8], b[9]);
    FromBigEndian16Digits(b[10], b[11]);
    FromBigEndian32Halves(b[4], b[5], b[6], b[7]);
    FromBigEndian32Halves(b[8], b[9], b[10], b[11]);
    assert BigEndian16(h.sequence) == b[2..4];
    assert BigEndian16(h.timestamp / 0x1_0000) == b[4..6];
    assert BigEndian16(h.timestamp % 0x1_0000) == b[6..8];
    assert BigEndian16(h.ssrc / 0x1_0000) == b[8..10];
    assert BigEndian16(h.ssrc % 0x1_0000) == b[10..12];
  }
}
