/**
 * The receive-side jitter buffer: a fixed ring of 50 packet slots with `head`/`tail`
 * indices, FIFO in arrival order (no resequencing), and sequence-gap loss counting.
 *
 * The pure functions over `View` are the specification; the class `RtpJitterBuffer`
 * is the in-place ring, and each of its methods is proved to move its `View` exactly
 * as the corresponding function does.
 */
module JitterBuffer {
  import opened Common
  import opened RtpHeader

  /** Number of slots in the ring; one is always kept free, so 49 packets fit. */
  const BUFFER_SIZE: nat := 50
  /** Bytes of storage in each slot. */
  const SLOT_SIZE: nat := 1500
  /** Packets the ring can hold at once: full is detected as `next == head`. */
  const CAPACITY: nat := BUFFER_SIZE - 1

  // ---------------------------------------------------------------------------
  // Specification
  // ---------------------------------------------------------------------------

  /** What a caller can observe: the queued packets (oldest first) and the statistics. */
  datatype View = View(queue: seq<seq<byte>>, received: nat, lost: nat, lastSeq: u16)

  /** A fresh or reset buffer. */
  const Initial: View := View([], 0, 0, 0)

  /**
   * The loss charged for a packet with sequence number `s`. A gap is looked for only
   * when a packet has been received before AND the previous sequence number is not 0;
   * the gap is the number of sequence numbers skipped, counted forward modulo 2^16,
   * so a late or duplicated packet is charged as a gap of almost 2^16.
   */
  function LossGap(received: nat, lastSeq: u16, s: u16): (gap: nat)
    ensures gap < U16_MOD
    ensures gap == 0 <==> (received == 0 || lastSeq == 0 || s == NextSequence(lastSeq))
    ensures received > 0 && lastSeq != 0 ==> (NextSequence(lastSeq) + gap) % U16_MOD == s
  {
    if received > 0 && lastSeq != 0 && s != NextSequence(lastSeq) then
      (s - NextSequence(lastSeq)) % U16_MOD
    else
      0
  }

  /** The sequence number `enqueue` reads from a datagram's header. */
  function SequenceOf(data: seq<byte>): u16
    requires |data| >= RTP_HEADER_SIZE
  {
    Parse(data).sequence
  }

  /** `enqueue(data)`: datagrams shorter than a header are ignored; when full, the oldest is evicted. */
  function AfterEnqueue(v: View, data: seq<byte>): (r: View)
    requires |v.queue| <= CAPACITY
    ensures |r.queue| <= CAPACITY
  {
    if |data| < RTP_HEADER_SIZE then v
    else
      var s := SequenceOf(data);
      var lost := v.lost + LossGap(v.received, v.lastSeq, s);
      if |v.queue| == CAPACITY then View(v.queue[1..] + [data], v.received + 1, lost + 1, s)
      else View(v.queue + [data], v.received + 1, lost, s)
  }

  /** The state after `dequeue`: the oldest packet leaves; statistics are untouched. */
  function AfterDequeue(v: View): View {
    if v.queue == [] then v else v.(queue := v.queue[1..])
  }

  /** The operations a client can apply to the buffer. */
  datatype Op = Enqueue(data: seq<byte>) | Dequeue | Reset

  predicate WellSized(v: View) {
    |v.queue| <= CAPACITY
  }

  function Step(v: View, op: Op): (r: View)
    requires WellSized(v)
    ensures WellSized(r)
  {
    match op
    case Enqueue(data) => AfterEnqueue(v, data)
    case Dequeue => AfterDequeue(v)
    case Reset => Initial
  }

  function Run(v: View, ops: seq<Op>): (r: View)
    requires WellSized(v)
    ensures WellSized(r)
    decreases |ops|
  {
    if ops == [] then v else Run(Step(v, ops[0]), ops[1..])
  }

  function EnqueueAll(v: View, packets: seq<seq<byte>>): (r: View)
    requires WellSized(v)
    ensures WellSized(r)
    decreases |packets|
  {
    if packets == [] then v else EnqueueAll(AfterEnqueue(v, packets[0]), packets[1..])
  }

  /** The packets `dequeue` hands out, one call per entry of the result, until empty. */
  function Drain(v: View, n: nat): (out: seq<seq<byte>>)
    decreases n
  {
    if n == 0 || v.queue == [] then [] else [v.queue[0]] + Drain(AfterDequeue(v), n - 1)
  }

  /** How many of the oldest entries a CAPACITY-slot window has to drop to hold all of `s`. */
  function Evicted(s: seq<seq<byte>>): nat {
    if |s| > CAPACITY then |s| - CAPACITY else 0
  }

  /** The newest CAPACITY entries of `s`, in order. */
  function Newest(s: seq<seq<byte>>): (r: seq<seq<byte>>)
    ensures |r| <= CAPACITY
  {
    s[Evicted(s)..]
  }

  predicate AllHeaders(packets: seq<seq<byte>>) {
    forall i :: 0 <= i < |packets| ==> |packets[i]| >= RTP_HEADER_SIZE
  }

  predicate NoReset(ops: seq<Op>) {
    forall i :: 0 <= i < |ops| ==> !ops[i].Reset?
  }

  // ---------------------------------------------------------------------------
  // Properties of the specification
  // ---------------------------------------------------------------------------

  /** A datagram shorter than the RTP header changes nothing at all. */
  lemma ShortDatagramIgnored(v: View, data: seq<byte>)
    requires WellSized(v) && |data| < RTP_HEADER_SIZE
    ensures AfterEnqueue(v, data) == v
  {
  }

  /** One accepted datagram: exactly how each counter and the queue move. */
  lemma EnqueueAccounting(v: View, data: seq<byte>)
    requires WellSized(v) && |data| >= RTP_HEADER_SIZE
    ensures var r := AfterEnqueue(v, data);
      && r.received == v.received + 1
      && r.lastSeq == SequenceOf(data)
      && r.lost == v.lost + LossGap(v.received, v.lastSeq, SequenceOf(data))
                  + (if |v.queue| == CAPACITY then 1 else 0)
      && |r.queue| == (if |v.queue| == CAPACITY then CAPACITY else |v.queue| + 1)
      && r.queue[|r.queue| - 1] == data
  {
  }

  /** A duplicate of the previous packet is charged as 65535 lost packets. */
  lemma DuplicateChargedAsHugeGap(v: View, data: seq<byte>)
    requires WellSized(v) && |data| >= RTP_HEADER_SIZE
    requires v.received > 0 && v.lastSeq != 0 && SequenceOf(data) == v.lastSeq
    ensures AfterEnqueue(v, data).lost >= v.lost + U16_MOD - 1
  {
    var e := NextSequence(v.lastSeq);
    var gap := LossGap(v.received, v.lastSeq, v.lastSeq);
    assert (e + gap) % U16_MOD == v.lastSeq;
    if v.lastSeq == U16_MOD - 1 {
      assert e == 0;
    } else {
      assert e == v.lastSeq + 1;
    }
  }

  /** Right after a packet numbered 0 no gap is looked for, whatever number comes next. */
  lemma NoGapCountedAfterZero(v: View, p: seq<byte>, q: seq<byte>)
    requires WellSized(v) && |p| >= RTP_HEADER_SIZE && |q| >= RTP_HEADER_SIZE
    requires SequenceOf(p) == 0
    ensures var w := AfterEnqueue(v, p);
      AfterEnqueue(w, q).lost == w.lost + (if |w.queue| == CAPACITY then 1 else 0)
  {
    var w := AfterEnqueue(v, p);
    EnqueueAccounting(v, p);
    EnqueueAccounting(w, q);
  }

  /** Statistics never decrease except through `reset`. */
  lemma {:induction false} CountersMonotone(v: View, ops: seq<Op>)
    requires WellSized(v) && NoReset(ops)
    ensures Run(v, ops).received >= v.received
    ensures Run(v, ops).lost >= v.lost
    decreases |ops|
  {
    if ops != [] {
      assert !ops[0].Reset?;
      assert NoReset(ops[1..]) by {
        forall i | 0 <= i < |ops[1..]| ensures !ops[1..][i].Reset? {
          assert ops[1..][i] == ops[i + 1];
        }
      }
      CountersMonotone(Step(v, ops[0]), ops[1..]);
    }
  }

  /**
   * Enqueuing datagrams keeps the most recent CAPACITY of them in arrival order:
   * the oldest are evicted first, and every eviction is charged one lost packet.
   */
  lemma {:induction false} EnqueueAllKeepsNewest(v: View, packets: seq<seq<byte>>)
    requires WellSized(v) && AllHeaders(packets)
    ensures EnqueueAll(v, packets).queue == Newest(v.queue + packets)
    ensures EnqueueAll(v, packets).lost >= v.lost + Evicted(v.queue + packets)
    ensures EnqueueAll(v, packets).received == v.received + |packets|
    decreases |packets|
  {
    if packets != [] {
      var w := AfterEnqueue(v, packets[0]);
      assert EnqueueAll(v, packets) == EnqueueAll(w, packets[1..]);
      assert AllHeaders(packets[1..]) by {
        forall i | 0 <= i < |packets[1..]| ensures |packets[1..][i]| >= RTP_HEADER_SIZE {
          assert packets[1..][i] == packets[i + 1];
        }
      }
      EnqueueAllKeepsNewest(w, packets[1..]);
      assert |packets[0]| >= RTP_HEADER_SIZE;
      EnqueueAccounting(v, packets[0]);
      assert w.queue == (if |v.queue| == CAPACITY then v.queue[1..] else v.queue) + [packets[0]];
      assert packets == [packets[0]] + packets[1..];
      WindowAfterPush(v.queue, packets[0], packets[1..]);
    }
  }

  /** One push onto a window of at most CAPACITY entries, seen from everything still to come. */
  lemma WindowAfterPush(q: seq<seq<byte>>, x: seq<byte>, rest: seq<seq<byte>>)
    requires |q| <= CAPACITY
    ensures var pushed := (if |q| == CAPACITY then q[1..] else q) + [x];
      && Newest(pushed + rest) == Newest(q + ([x] + rest))
      && Evicted(q + ([x] + rest)) == Evicted(pushed + rest) + (if |q| == CAPACITY then 1 else 0)
  {
    var all := q + ([x] + rest);
    var pushed := (if |q| == CAPACITY then q[1..] else q) + [x];
    if |q| == CAPACITY {
      assert pushed + rest == all[1..];
    } else {
      assert pushed + rest == all;
    }
  }

  /** Draining hands out exactly the queued packets, oldest first: no reordering. */
  lemma {:induction false} DrainIsFifo(v: View)
    ensures Drain(v, |v.queue|) == v.queue
    decreases |v.queue|
  {
    if v.queue != [] {
      DrainIsFifo(AfterDequeue(v));
    }
  }

  /**
   * Up to CAPACITY datagrams enqueued into an empty buffer come out of `dequeue` in
   * the order they arrived, whatever their sequence numbers.
   */
  lemma ArrivalOrderPreserved(packets: seq<seq<byte>>)
    requires AllHeaders(packets) && |packets| <= CAPACITY
    ensures Drain(EnqueueAll(Initial, packets), |packets|) == packets
  {
    EnqueueAllKeepsNewest(Initial, packets);
    assert EnqueueAll(Initial, packets).queue == packets;
    DrainIsFifo(EnqueueAll(Initial, packets));
  }

  /** After `reset`, a `dequeue` fails and the statistics read zero. */
  lemma DequeueFailsAfterReset(v: View)
    requires WellSized(v)
    ensures var r := Step(v, Reset);
      r.queue == [] && AfterDequeue(r) == r && r.received == 0 && r.lost == 0 && r.lastSeq == 0
  {
  }

  // ---------------------------------------------------------------------------
  // The ring itself
  // ---------------------------------------------------------------------------

  /** One ring cell: 1500 bytes of storage, the stored length, its sequence number, a validity flag. */
  datatype Slot = Slot(data: seq<byte>, size: nat, sequence: u16, valid: bool)

  predicate SlotOk(s: Slot) {
    |s.data| == SLOT_SIZE && s.size <= SLOT_SIZE
  }

  /** The packet a slot holds: its first `size` bytes. */
  function Stored(s: Slot): seq<byte>
    requires SlotOk(s)
  {
    s.data[..s.size]
  }

  const ZeroSlot: Slot := Slot(Zeros(SLOT_SIZE), 0, 0, false)

  class RtpJitterBuffer {
    const buffer: array<Slot>
    var head: nat
    var tail: nat
    var isEmpty: bool
    var packetsReceived: nat
    var packetsLost: nat
    var lastSeq: u16

    /** The packets held, oldest first. */
    ghost var Contents: seq<seq<byte>>

    /** Slot index of the i-th oldest packet. */
    function SlotAt(i: nat): nat
      reads this
    {
      if head + i < BUFFER_SIZE then head + i else head + i - BUFFER_SIZE
    }

    /** `(tail - head) mod BUFFER_SIZE`. */
    function Count(): int
      reads this
    {
      if head <= tail then tail - head else tail + BUFFER_SIZE - head
    }

    ghost predicate Valid()
      reads this, buffer
    {
      && buffer.Length == BUFFER_SIZE
      && head < BUFFER_SIZE && tail < BUFFER_SIZE
      && (isEmpty ==> head == tail)
      && |Contents| == Count()
      && (forall k :: 0 <= k < BUFFER_SIZE ==> SlotOk(buffer[k]))
      && (forall i :: 0 <= i < |Contents| ==> SlotAt(i) < BUFFER_SIZE && Contents[i] == Stored(buffer[SlotAt(i)]))
    }

    ghost function ToView(): View
      reads this
    {
      View(Contents, packetsReceived, packetsLost, lastSeq)
    }

    constructor ()
      ensures Valid() && fresh(buffer)
      ensures ToView() == Initial
    {
      buffer := new Slot[BUFFER_SIZE](_ => ZeroSlot);
      head, tail := 0, 0;
      isEmpty := true;
      packetsReceived, packetsLost, lastSeq := 0, 0, 0;
      Contents := [];
    }

    /** Bytes of the oldest packet, the length `dequeue` will copy out. */
    ghost function HeadSize(): nat
      reads this
    {
      if Contents == [] then 0 else |Contents[0]|
    }

    method Enqueue(data: seq<byte>)
      requires Valid()
      requires |data| <= SLOT_SIZE   // memcpy into a 1500-byte slot
      modifies this, buffer
      ensures Valid()
      ensures ToView() == AfterEnqueue(old(ToView()), data)
    {
      if |data| < RTP_HEADER_SIZE {
        return;
      }
      ghost var v := ToView();
      var header := Parse(data);
      var s := header.sequence;
      assert s == SequenceOf(data);
      if packetsReceived > 0 && lastSeq != 0 {
        var expected := (lastSeq + 1) % U16_MOD;
        assert expected == NextSequence(lastSeq);
        if s != expected {
          var lost := (s - expected) % U16_MOD;
          packetsLost := packetsLost + lost;
        }
      }
      assert packetsLost == v.lost + LossGap(v.received, v.lastSeq, s);
      lastSeq := s;
      packetsReceived := packetsReceived + 1;

      Push(data, s);
      assert Contents == (if |v.queue| == CAPACITY then v.queue[1..] else v.queue) + [data];
    }

    /** The second half of `enqueue`: evict the oldest when full, then store at the tail. */
    method Push(data: seq<byte>, s: u16)
      requires Valid() && |data| <= SLOT_SIZE
      modifies this, buffer
      ensures Valid()
      ensures Contents == (if |old(Contents)| == CAPACITY then old(Contents)[1..] else old(Contents)) + [data]
      ensures packetsLost == old(packetsLost) + (if |old(Contents)| == CAPACITY then 1 else 0)
      ensures packetsReceived == old(packetsReceived) && lastSeq == old(lastSeq)
    {
      if (tail + 1) % BUFFER_SIZE == head {
        EvictOldest();
      }
      Append(data, s);
    }

    /** A full ring drops its oldest packet, which counts as lost. */
    method EvictOldest()
      requires Valid() && (tail + 1) % BUFFER_SIZE == head
      modifies this
      ensures Valid() && |old(Contents)| == CAPACITY
      ensures Contents == old(Contents)[1..] && packetsLost == old(packetsLost) + 1
      ensures packetsReceived == old(packetsReceived) && lastSeq == old(lastSeq)
    {
      ghost var oldHead, oldContents := head, Contents;
      head := (head + 1) % BUFFER_SIZE;
      packetsLost := packetsLost + 1;
      Contents := Contents[1..];
      forall i | 0 <= i < |Contents|
        ensures SlotAt(i) < BUFFER_SIZE && Contents[i] == Stored(buffer[SlotAt(i)])
      {
        assert Contents[i] == oldContents[i + 1];
        assert SlotAt(i) == (if oldHead + i + 1 < BUFFER_SIZE then oldHead + i + 1 else oldHead + i + 1 - BUFFER_SIZE);
      }
    }

    /** A ring with room stores `data` at the tail and advances it. */
    method Append(data: seq<byte>, s: u16)
      requires Valid() && (tail + 1) % BUFFER_SIZE != head && |data| <= SLOT_SIZE
      modifies this, buffer
      ensures Valid() && |old(Contents)| < CAPACITY
      ensures Contents == old(Contents) + [data]
      ensures packetsLost == old(packetsLost) && packetsReceived == old(packetsReceived) && lastSeq == old(lastSeq)
    {
      ghost var oldTail, oldContents := tail, Contents;
      WriteSlot(data, s);
      tail := (tail + 1) % BUFFER_SIZE;
      isEmpty := false;
      Contents := Contents + [data];
      forall i | 0 <= i < |Contents|
        ensures SlotAt(i) < BUFFER_SIZE && Contents[i] == Stored(buffer[SlotAt(i)])
      {
        if i < |Contents| - 1 {
          assert Contents[i] == oldContents[i];
        } else {
          assert SlotAt(i) == oldTail;
        }
      }
    }

    /** Stores `data` in the tail slot (the part of `enqueue` that fills `buffer_[tail_]`). */
    method WriteSlot(data: seq<byte>, s: u16)
      requires buffer.Length == BUFFER_SIZE && tail < BUFFER_SIZE
      requires SlotOk(buffer[tail]) && |data| <= SLOT_SIZE
      modifies buffer
      ensures buffer[tail] == Slot(data + old(buffer[tail]).data[|data|..], |data|, s, true)
      ensures SlotOk(buffer[tail]) && Stored(buffer[tail]) == data
      ensures forall k :: 0 <= k < BUFFER_SIZE && k != tail ==> buffer[k] == old(buffer[k])
    {
      var previous := buffer[tail];
      buffer[tail] := Slot(data + previous.data[|data|..], |data|, s, true);
    }

    method Dequeue(out: array<byte>) returns (ok: bool, size: nat)
      requires Valid()
      requires HeadSize() <= out.Length   // memcpy of the stored packet into `out`
      requires out as object != buffer as object   // the caller's buffer is not the ring's storage
      modifies this, out
      ensures Valid()
      ensures ok == (old(Contents) != [])
      ensures ok ==> size == |old(Contents)[0]| && out[..size] == old(Contents)[0]
      ensures !ok ==> size == 0
      ensures out[size..] == old(out[size..])
      ensures ToView() == AfterDequeue(old(ToView()))
    {
      if isEmpty {
        return false, 0;
      }
      if head == tail {
        isEmpty := true;
        return false, 0;
      }
      assert Count() > 0;
      var slot := buffer[head];
      size := slot.size;
      assert slot.data[..size] == Contents[0];
      ghost var slots := buffer[..];
      CopyInto(out, slot.data[..size]);
      assert buffer[..] == slots;
      ghost var oldHead := head;
      head := (head + 1) % BUFFER_SIZE;
      Contents := Contents[1..];
      forall i | 0 <= i < |Contents|
        ensures SlotAt(i) < BUFFER_SIZE && Contents[i] == Stored(buffer[SlotAt(i)])
      {
        assert SlotAt(i) == (if oldHead + i + 1 < BUFFER_SIZE then oldHead + i + 1 else oldHead + i + 1 - BUFFER_SIZE);
      }
      ok := true;
    }

    method Reset()
      requires Valid()
      modifies this
      ensures Valid()
      ensures ToView() == Initial
    {
      head, tail := 0, 0;
      isEmpty := true;
      packetsReceived, packetsLost, lastSeq := 0, 0, 0;
      Contents := [];
    }
  }
}
