/**
 What the receive path promises about every run of the playout ring: samples
 are conserved, no buffered sample changes before it is played, playout is
 contiguous and never early, and a replacement stream is joined without loss.
 */
module PlayoutTheorems {
  import opened Words
  import opened Media
  import opened PlayoutModel

  lemma {:induction false} RunKeepsValid(b: Buffer, ops: seq<Op>)
    requires b.Valid()
    ensures Run(b, ops).Valid()
  {
    if ops != [] {
      RunKeepsValid(b, ops[..|ops| - 1]);
      ApplyKeepsValid(Run(b, ops[..|ops| - 1]), ops[|ops| - 1]);
    }
  }

  // ------------------------------------------------------ conservation

  function Played(slots: seq<Slot>): int {
    |slots| - Gaps(slots)
  }

  /** Every offered sample so far that has not been played. */
  function Settled(b: Buffer): nat {
    b.stats.late + b.stats.overflow + b.stats.duplicate + |b.stored|
  }

  lemma DepositOneSettles(b: Buffer, position: int, sample: Sample)
    ensures Settled(DepositOne(b, position, sample)) == Settled(b) + 1
  {
  }

  lemma {:induction false} DepositSettles(b: Buffer, offset: int, samples: seq<Sample>)
    ensures Settled(Deposit(b, offset, samples)) == Settled(b) + |samples|
  {
    if samples != [] {
      var n := |samples| - 1;
      DepositSettles(b, offset, samples[..n]);
      DepositOneSettles(Deposit(b, offset, samples[..n]), offset + n, samples[n]);
    }
  }

  lemma PopSettles(b: Buffer)
    ensures |b.stored| == |Pop(b).stored| + if Peek(b).sample.None? then 0 else 1
  {
    if b.cursor in b.stored {
      assert b.stored.Keys == Pop(b).stored.Keys + {b.cursor};
      assert |b.stored.Keys| == |Pop(b).stored.Keys| + 1;
    } else {
      assert b.stored == Pop(b).stored;
    }
  }

  lemma {:induction false} TakeSettles(b: Buffer, count: nat)
    ensures |b.stored| == |Take(b, count).stored| + Played(Taken(b, count))
  {
    if count > 0 {
      TakeSettles(b, count - 1);
      PopSettles(Take(b, count - 1));
      assert Taken(b, count)[..count - 1] == Taken(b, count - 1);
    }
  }

  lemma InsertSettles(b: Buffer, timestamp: u32, samples: seq<Sample>, now: int)
    requires b.Valid()
    ensures Settled(Insert(b, timestamp, samples, now)) == Settled(b) + |samples|
  {
    if samples != [] {
      var anchored := Anchored(b, timestamp, now);
      var offset := Offset(anchored, timestamp);
      DepositSettles(Rewound(anchored, offset), offset, samples);
    }
  }

  function Brings(op: Op): nat {
    if op.Inserted? then |op.samples| else 0
  }

  lemma ApplySettles(b: Buffer, op: Op)
    requires b.Valid()
    ensures Settled(b) + Brings(op) == Settled(Apply(b, op)) + Played(Emits(b, op))
    ensures Apply(b, op).stats.missing == b.stats.missing + Gaps(Emits(b, op))
  {
    match op
    case Inserted(timestamp, samples, now) =>
      InsertSettles(b, timestamp, samples, now);
      InsertFacts(b, timestamp, samples, now);
    case Restarted(timestamp) =>
    case Received(now) =>
      if Due(b, now) {
        TakenIgnoresClock(b, FRAME_SAMPLES);
        TakeSettles(Started(b), FRAME_SAMPLES);
        TakeFrameRule(Started(b), FRAME_SAMPLES);
      }
    case Drained =>
      TakeSettles(b, Backlog(b));
      TakeFrameRule(b, Backlog(b));
  }

  function Offered(ops: seq<Op>): nat {
    if ops == [] then 0 else Offered(ops[..|ops| - 1]) + Brings(ops[|ops| - 1])
  }

  /** Over any run, samples offered = late + overflow + duplicate + played + still
      buffered, and samples emitted = played + missing. */
  lemma {:induction false} SamplesAreConserved(b: Buffer, ops: seq<Op>)
    requires b.Valid()
    ensures var after := Run(b, ops);
      && Settled(b) + Offered(ops) == Settled(after) + Played(Emitted(b, ops))
      && |Emitted(b, ops)| == Played(Emitted(b, ops)) + (after.stats.missing - b.stats.missing)
  {
    if ops != [] {
      var front, op := ops[..|ops| - 1], ops[|ops| - 1];
      SamplesAreConserved(b, front);
      RunKeepsValid(b, front);
      ApplySettles(Run(b, front), op);
      GapsAppend(Emitted(b, front), Emits(Run(b, front), op));
    }
  }

  // -------------------------------------------------- fidelity and order

  lemma ApplyKeepsSample(b: Buffer, op: Op, p: int)
    requires b.Valid() && p in b.stored
    ensures var after := Apply(b, op);
      || (p in after.stored && after.stored[p] == b.stored[p])
      || Slot(p, Some(b.stored[p])) in Emits(b, op)
  {
    var k := p - b.cursor;
    match op
    case Inserted(timestamp, samples, now) =>
      InsertFacts(b, timestamp, samples, now);
    case Restarted(timestamp) =>
    case Received(now) =>
      if Due(b, now) {
        TakeStores(Started(b), FRAME_SAMPLES);
        if k < FRAME_SAMPLES {
          TakenAt(b, FRAME_SAMPLES, k);
        }
      }
    case Drained =>
      TakenAt(b, Backlog(b), k);
  }

  /** A buffered sample is never altered or dropped: after any run it is still
      buffered with its value, or it has been played with that value. */
  lemma {:induction false} BufferedSamplesSurvive(b: Buffer, ops: seq<Op>, p: int)
    requires b.Valid() && p in b.stored
    ensures var after := Run(b, ops);
      || (p in after.stored && after.stored[p] == b.stored[p])
      || Slot(p, Some(b.stored[p])) in Emitted(b, ops)
  {
    if ops != [] {
      var front, op := ops[..|ops| - 1], ops[|ops| - 1];
      BufferedSamplesSurvive(b, front, p);
      RunKeepsValid(b, front);
      if p in Run(b, front).stored {
        ApplyKeepsSample(Run(b, front), op, p);
      }
    }
  }

  lemma ApplyMovesCursor(b: Buffer, op: Op)
    requires b.Valid()
    ensures var after, slots := Apply(b, op), Emits(b, op);
      && after.cursor <= b.cursor + |slots|
      && (b.started ==> after.started && after.cursor == b.cursor + |slots|)
      && (forall k :: 0 <= k < |slots| ==> slots[k].position == b.cursor + k)
  {
    match op
    case Inserted(timestamp, samples, now) =>
      InsertFacts(b, timestamp, samples, now);
      if b.started && samples != [] {
        var anchored := Anchored(b, timestamp, now);
        DepositFrame(anchored, Offset(anchored, timestamp), samples);
      }
    case Restarted(timestamp) =>
    case Received(now) =>
      if Due(b, now) {
        TakeStores(Started(b), FRAME_SAMPLES);
        TakeFrameRule(Started(b), FRAME_SAMPLES);
        forall k: nat | k < FRAME_SAMPLES ensures Taken(b, FRAME_SAMPLES)[k].position == b.cursor + k {
          TakenAt(b, FRAME_SAMPLES, k);
        }
      }
    case Drained =>
      TakeFrameRule(b, Backlog(b));
      forall k: nat | k < Backlog(b) ensures Taken(b, Backlog(b))[k].position == b.cursor + k {
        TakenAt(b, Backlog(b), k);
      }
  }

  /** Once the first frame has played, every position plays exactly once and in
      order: the k-th slot emitted from then on is position cursor + k. */
  lemma {:induction false} PlaysEachPositionOnceInOrder(b: Buffer, ops: seq<Op>)
    requires b.Valid() && b.started
    ensures Run(b, ops).started
    ensures Run(b, ops).cursor == b.cursor + |Emitted(b, ops)|
    ensures forall k :: 0 <= k < |Emitted(b, ops)| ==> Emitted(b, ops)[k].position == b.cursor + k
  {
    if ops != [] {
      PlaysEachPositionOnceInOrder(b, ops[..|ops| - 1]);
      RunKeepsValid(b, ops[..|ops| - 1]);
      ApplyMovesCursor(Run(b, ops[..|ops| - 1]), ops[|ops| - 1]);
    }
  }

  lemma DrainEmits(b: Buffer, p: int)
    requires b.Valid() && p in b.stored
    ensures 0 <= p - b.cursor < Backlog(b) && Taken(b, Backlog(b))[p - b.cursor] == Slot(p, Some(b.stored[p]))
  {
    TakenAt(b, Backlog(b), p - b.cursor);
  }

  /** A drain empties the ring: every buffered sample comes out, in stream order,
      and nothing after the last one. */
  lemma DrainEmitsEverything(b: Buffer)
    requires b.Valid()
    ensures Drain(b).stored == map[] && Drain(b).cursor == b.Tail()
    ensures |Taken(b, Backlog(b))| == Backlog(b)
    ensures forall p :: p in b.stored ==>
      0 <= p - b.cursor < Backlog(b) && Taken(b, Backlog(b))[p - b.cursor] == Slot(p, Some(b.stored[p]))
    ensures Backlog(Drain(b)) == 0
  {
    TakeStores(b, Backlog(b));
    TakeFrameRule(b, Backlog(b));
    assert forall p :: p in b.stored ==> b.cursor <= p < b.cursor + Backlog(b);
    var left := Take(b, Backlog(b)).stored;
    assert forall p :: p !in left;
    assert left == map[];
    forall p | p in b.stored
      ensures 0 <= p - b.cursor < Backlog(b) && Taken(b, Backlog(b))[p - b.cursor] == Slot(p, Some(b.stored[p]))
    {
      DrainEmits(b, p);
    }
  }

  /** What the modem is handed: the k-th slot played is sample k of the frames, with
      silence for a gap, and the last frame is filled up. */
  lemma {:induction false} FramesCarrySlots(slots: seq<Slot>, k: nat)
    requires k < |slots|
    ensures |Frames(slots)| == (|slots| + FRAME_SAMPLES - 1) / FRAME_SAMPLES
    ensures k / FRAME_SAMPLES < |Frames(slots)|
    ensures Frames(slots)[k / FRAME_SAMPLES][k % FRAME_SAMPLES] == match slots[k].sample case Some(value) => value case None => 0
    decreases |slots|
  {
    if |slots| > FRAME_SAMPLES {
      var rest := slots[FRAME_SAMPLES..];
      FramesCarrySlots(rest, if k < FRAME_SAMPLES then 0 else k - FRAME_SAMPLES);
      assert k >= FRAME_SAMPLES ==> rest[k - FRAME_SAMPLES] == slots[k];
    }
  }

  // ------------------------------------------------------- receive clock

  /** When the run's first nonempty packet arrived. */
  function FirstInsert(ops: seq<Op>): Option<int> {
    if ops == [] then None
    else
      var earlier := FirstInsert(ops[..|ops| - 1]);
      if earlier.Some? then earlier
      else match ops[|ops| - 1]
           case Inserted(_, samples, now) => if samples != [] then Some(now) else None
           case _ => None
  }

  function FramesReceived(b: Buffer, ops: seq<Op>): nat {
    if ops == [] then 0
    else
      var earlier := FramesReceived(b, ops[..|ops| - 1]);
      match ops[|ops| - 1]
      case Received(now) => if Due(Run(b, ops[..|ops| - 1]), now) then earlier + 1 else earlier
      case _ => earlier
  }

  lemma ApplyMovesDeadline(b: Buffer, op: Op)
    requires b.Valid()
    ensures Apply(b, op).delay == b.delay
    ensures Apply(b, op).next == match op
      case Inserted(_, samples, now) => if b.next.None? && samples != [] then Some(now + b.delay) else b.next
      case Restarted(_) => b.next
      case Received(now) => if Due(b, now) then Some(b.next.value + 20) else b.next
      case Drained => b.next
  {
    match op
    case Inserted(timestamp, samples, now) => InsertFacts(b, timestamp, samples, now);
    case Restarted(timestamp) =>
    case Received(now) =>
      if Due(b, now) {
        TakeFrameRule(Started(b), FRAME_SAMPLES);
      }
    case Drained =>
      TakeFrameRule(b, Backlog(b));
  }

  lemma {:induction false} DeadlineAfter(delay: nat, ops: seq<Op>)
    ensures Run(Empty(delay), ops).delay == delay
    ensures Run(Empty(delay), ops).next
         == match FirstInsert(ops)
            case None => None
            case Some(at) => Some(at + delay + 20 * FramesReceived(Empty(delay), ops))
    ensures FirstInsert(ops).None? ==> FramesReceived(Empty(delay), ops) == 0
  {
    if ops != [] {
      DeadlineAfter(delay, ops[..|ops| - 1]);
      RunKeepsValid(Empty(delay), ops[..|ops| - 1]);
      ApplyMovesDeadline(Run(Empty(delay), ops[..|ops| - 1]), ops[|ops| - 1]);
    }
  }

  /** Whatever the traffic, stalls and stream restarts, frame k is never released
      before the first arrival plus the configured delay plus k frame times, and a
      worker asking at or after that time always gets it. */
  lemma PlayoutClock(delay: nat, ops: seq<Op>, now: int)
    ensures Due(Run(Empty(delay), ops), now) <==>
      (FirstInsert(ops).Some? && now >= FirstInsert(ops).value + delay + 20 * FramesReceived(Empty(delay), ops))
  {
    DeadlineAfter(delay, ops);
  }

  // ------------------------------------------------------- stream splice

  datatype Packet = Packet(timestamp: u32, samples: seq<Sample>)

  /** Consecutive packets of one source: no gap in the sample clock. */
  ghost predicate Contiguous(packets: seq<Packet>) {
    forall i :: 0 < i < |packets| ==>
      packets[i].timestamp == Wrap32(packets[i - 1].timestamp + |packets[i - 1].samples|)
  }

  function Audio(packets: seq<Packet>): seq<Sample> {
    if packets == [] then [] else Audio(packets[..|packets| - 1]) + packets[|packets| - 1].samples
  }

  function InsertAll(b: Buffer, packets: seq<Packet>, now: int): Buffer {
    if packets == [] then b
    else
      var last := packets[|packets| - 1];
      Insert(InsertAll(b, packets[..|packets| - 1], now), last.timestamp, last.samples, now)
  }

  /** The replacement stream as the endpoint joins it. */
  function Splice(b: Buffer, packets: seq<Packet>, now: int): Buffer
    requires packets != []
  {
    InsertAll(RestartStream(b, packets[0].timestamp), packets, now)
  }

  /** Depositing two runs of samples back to back is depositing their concatenation. */
  lemma {:induction false} DepositAppend(b: Buffer, offset: int, first: seq<Sample>, second: seq<Sample>)
    ensures Deposit(Deposit(b, offset, first), offset + |first|, second) == Deposit(b, offset, first + second)
    decreases |second|
  {
    if second == [] {
      assert first + second == first;
    } else {
      var n := |second| - 1;
      DepositAppend(b, offset, first, second[..n]);
      assert (first + second)[..|first| + n] == first + second[..n];
    }
  }

  lemma ClockStep(first: u32, previous: u32, next: u32, before: nat, count: nat)
    requires previous == Wrap32(first + before) && next == Wrap32(previous + count)
    ensures next == Wrap32(first + (before + count))
  {
    WrapAdd(first, before, count);
  }

  lemma {:induction false} TimestampOf(packets: seq<Packet>)
    requires packets != [] && Contiguous(packets)
    ensures packets[|packets| - 1].timestamp == Wrap32(packets[0].timestamp + |Audio(packets[..|packets| - 1])|)
  {
    var n := |packets|;
    if n == 1 {
      assert Audio(packets[..0]) == [];
    } else {
      var front := packets[..n - 1];
      TimestampOf(front);
      assert front[..n - 2] == packets[..n - 2];
      var audio, count := Audio(packets[..n - 2]), |packets[n - 2].samples|;
      assert |Audio(front)| == |audio| + count;
      ClockStep(packets[0].timestamp, packets[n - 2].timestamp, packets[n - 1].timestamp, |audio|, count);
    }
  }

  /** The ring computes the right position for a packet that is `count` samples
      into the replacement stream. */
  lemma OffsetInSplice(first: u32, anchor: u32, timestamp: u32, tail: int, count: nat)
    requires 0 <= tail && tail + count < TWO_31
    requires anchor == Wrap32(first - Wrap32(tail))
    requires timestamp == Wrap32(first + count)
    ensures Signed32(Wrap32(timestamp - anchor)) == tail + count
  {
    WrappedDistance(first, tail, tail + count);
    assert first + (tail + count - tail) == first + count;
  }

  /** One more packet of the replacement stream extends the deposited audio. */
  lemma AppendPacket(b: Buffer, audio: seq<Sample>, packet: Packet, now: int)
    requires b.anchor.Some? && b.cursor <= b.Tail()
    requires packet.samples != [] ==> Offset(b, packet.timestamp) == b.Tail() + |audio|
    ensures Insert(Deposit(b, b.Tail(), audio), packet.timestamp, packet.samples, now)
         == Deposit(b, b.Tail(), audio + packet.samples)
  {
    if packet.samples == [] {
      assert audio + packet.samples == audio;
    } else {
      var before := Deposit(b, b.Tail(), audio);
      assert before.anchor == b.anchor && before.cursor == b.cursor by { DepositFrame(b, b.Tail(), audio); }
      InsertAt(before, packet.timestamp, packet.samples, b.Tail() + |audio|, now);
      DepositAppend(b, b.Tail(), audio, packet.samples);
    }
  }

  /** Every packet of the stream is placed right behind the audio before it. */
  ghost predicate Aligned(b: Buffer, packets: seq<Packet>) {
    b.anchor.Some? && b.cursor <= b.Tail() &&
    forall i :: 0 <= i < |packets| && packets[i].samples != [] ==>
      Offset(b, packets[i].timestamp) == b.Tail() + |Audio(packets[..i])|
  }

  lemma {:induction false} AudioOfPrefix(packets: seq<Packet>, i: nat)
    requires i < |packets|
    ensures |Audio(packets[..i])| + |packets[i].samples| <= |Audio(packets)|
    decreases |packets|
  {
    var front := packets[..|packets| - 1];
    if i < |front| {
      AudioOfPrefix(front, i);
      assert front[..i] == packets[..i];
    }
  }

  lemma TimestampAt(packets: seq<Packet>, i: nat)
    requires i < |packets| && Contiguous(packets)
    ensures packets[i].timestamp == Wrap32(packets[0].timestamp + |Audio(packets[..i])|)
  {
    TimestampOf(packets[..i + 1]);
    assert packets[..i + 1][..i] == packets[..i];
  }

  lemma PacketIsAligned(b: Buffer, packets: seq<Packet>, i: nat)
    requires b.anchor.Some? && Contiguous(packets) && b.Tail() >= 0
    requires i < |packets| && b.anchor.value == Wrap32(packets[0].timestamp - Wrap32(b.Tail()))
    requires b.Tail() + |Audio(packets[..i])| < TWO_31
    ensures Offset(b, packets[i].timestamp) == b.Tail() + |Audio(packets[..i])|
  {
    TimestampAt(packets, i);
    OffsetInSplice(packets[0].timestamp, b.anchor.value, packets[i].timestamp, b.Tail(), |Audio(packets[..i])|);
  }

  lemma SpliceIsAligned(b: Buffer, packets: seq<Packet>)
    requires b.anchor.Some? && packets != [] && Contiguous(packets) && b.Tail() >= 0
    requires b.anchor.value == Wrap32(packets[0].timestamp - Wrap32(b.Tail()))
    requires b.Tail() + |Audio(packets)| <= TWO_31
    ensures Aligned(b, packets)
  {
    forall i | 0 <= i < |packets| && packets[i].samples != []
      ensures Offset(b, packets[i].timestamp) == b.Tail() + |Audio(packets[..i])|
    {
      AudioOfPrefix(packets, i);
      PacketIsAligned(b, packets, i);
    }
  }

  lemma {:induction false} InsertAllIsOneDeposit(b: Buffer, packets: seq<Packet>, now: int)
    requires Aligned(b, packets)
    ensures InsertAll(b, packets, now) == Deposit(b, b.Tail(), Audio(packets))
  {
    if packets != [] {
      var n := |packets| - 1;
      forall i | 0 <= i < n
        ensures packets[..n][..i] == packets[..i]
      {
      }
      InsertAllIsOneDeposit(b, packets[..n], now);
      AppendPacket(b, Audio(packets[..n]), packets[n], now);
    }
  }

  function Located(at: int, samples: seq<Sample>): (r: map<int, Sample>)
    ensures forall p :: p in r <==> at <= p < at + |samples|
    ensures forall p :: p in r ==> r[p] == samples[p - at]
  {
    if samples == [] then map[]
    else Located(at, samples[..|samples| - 1])[at + |samples| - 1 := samples[|samples| - 1]]
  }

  lemma DepositAtTail(b: Buffer, joined: Buffer, samples: seq<Sample>)
    requires b.Valid() && b.anchor.Some? && joined.anchor.Some?
    requires joined == b.(anchor := joined.anchor)
    ensures var after := Deposit(joined, b.Tail(), samples);
      && after.Valid()
      && after.cursor == b.cursor && after.next == b.next && after.started == b.started
      && after.stored == b.stored + Accepted(b.stored, b.cursor, b.Limit(), b.Tail(), samples)
      && after.stats == b.stats.(overflow := b.stats.overflow + Between(b.Tail() + |samples| - b.Limit(), |samples|))
  {
    DepositKeepsValid(joined, b.Tail(), samples);
    DepositFrame(joined, b.Tail(), samples);
    DepositStores(joined, b.Tail(), samples);
    assert Accepted(joined.stored, joined.cursor, joined.Limit(), b.Tail(), samples) == Accepted(b.stored, b.cursor, b.Limit(), b.Tail(), samples);
    DepositCounts(joined, b.Tail(), samples);
    CountedAtTail(joined, samples);
  }

  /** Behind everything buffered nothing is late and nothing occupied. */
  lemma CountedAtTail(b: Buffer, samples: seq<Sample>)
    requires b.Valid()
    ensures Counted(b, b.Tail(), |samples|)
      == b.stats.(overflow := b.stats.overflow + Between(b.Tail() + |samples| - b.Limit(), |samples|))
  {
    assert Repeats(b, b.Tail(), |samples|) == {};
  }

  /** A replacement source joins the buffered tail for every timestamp base,
      wrapping or not: its samples land contiguously from the tail, no sample is
      late or duplicate, the clock and the window do not move, and nothing already
      buffered changes. Exactly the samples past the window are lost. */
  lemma SpliceJoinsTail(b: Buffer, packets: seq<Packet>, now: int)
    requires b.Valid() && b.anchor.Some? && packets != [] && Contiguous(packets)
    requires b.Tail() + |Audio(packets)| <= TWO_31
    ensures var after, audio := Splice(b, packets, now), Audio(packets);
      && after.Valid()
      && after.cursor == b.cursor && after.next == b.next && after.started == b.started
      && after.stored == b.stored + Accepted(b.stored, b.cursor, b.Limit(), b.Tail(), audio)
      && after.stats == b.stats.(overflow := b.stats.overflow + Between(b.Tail() + |audio| - b.Limit(), |audio|))
  {
    var joined := RestartStream(b, packets[0].timestamp);
    SpliceIsAligned(joined, packets);
    InsertAllIsOneDeposit(joined, packets, now);
    DepositAtTail(b, joined, Audio(packets));
  }

  lemma AcceptedWhole(stored: map<int, Sample>, low: int, limit: int, tail: int, audio: seq<Sample>)
    requires low <= tail <= limit
    requires forall p :: p in stored ==> p < tail
    ensures (tail + |audio| <= limit || audio == []) <==>
      stored + Accepted(stored, low, limit, tail, audio) == stored + Located(tail, audio)
  {
    var accepted, located := Accepted(stored, low, limit, tail, audio), Located(tail, audio);
    if tail + |audio| <= limit || audio == [] {
      assert accepted == located;
    } else {
      var lost := tail + |audio| - 1;
      assert lost in stored + located;
      assert lost !in stored + accepted;
    }
  }

  /** The splice loses nothing if and only if the new samples fit the window. */
  lemma SpliceIsLosslessIffItFits(b: Buffer, packets: seq<Packet>, now: int)
    requires b.Valid() && b.anchor.Some? && packets != [] && Contiguous(packets)
    requires b.Tail() + |Audio(packets)| <= TWO_31
    ensures var after, audio := Splice(b, packets, now), Audio(packets);
      (b.Tail() + |audio| <= b.Limit() || audio == []) <==>
        (after.stored == b.stored + Located(b.Tail(), audio) && after.stats == b.stats)
  {
    SpliceJoinsTail(b, packets, now);
    AcceptedWhole(b.stored, b.cursor, b.Limit(), b.Tail(), Audio(packets));
  }

  /** Stream positions stay near the amount of audio played, so the 32-bit
      distances above are exact for every call within its time limit. */
  lemma {:induction false} PositionsAreBounded(delay: nat, ops: seq<Op>)
    ensures var b := Run(Empty(delay), ops);
      && b.Valid() && b.delay == delay
      && b.cursor <= |Emitted(Empty(delay), ops)|
      && 0 <= b.Tail() <= |Emitted(Empty(delay), ops)| + b.Capacity()
  {
    RunKeepsValid(Empty(delay), ops);
    DeadlineAfter(delay, ops);
    if ops != [] {
      PositionsAreBounded(delay, ops[..|ops| - 1]);
      RunKeepsValid(Empty(delay), ops[..|ops| - 1]);
      ApplyMovesCursor(Run(Empty(delay), ops[..|ops| - 1]), ops[|ops| - 1]);
    }
  }

  // ------------------------------------------------------ the length of a call

  function Drains(ops: seq<Op>): nat {
    if ops == [] then 0 else Drains(ops[..|ops| - 1]) + if ops[|ops| - 1].Drained? then 1 else 0
  }

  /** Everything that has a time happens between these two. */
  ghost predicate Within(ops: seq<Op>, from: int, to: int) {
    forall i :: 0 <= i < |ops| ==> Timely(ops[i], from, to)
  }

  predicate Timely(op: Op, from: int, to: int) {
    op.Inserted? || op.Received? ==> from <= op.now <= to
  }

  lemma ApplyEmits(b: Buffer, op: Op)
    requires b.Valid()
    ensures |Emits(b, op)| <= match op
      case Received(now) => if Due(b, now) then FRAME_SAMPLES else 0
      case Drained => b.Capacity()
      case _ => 0
  {
  }

  lemma {:induction false} EmittedIsCounted(delay: nat, ops: seq<Op>)
    ensures |Emitted(Empty(delay), ops)|
      <= FRAME_SAMPLES * FramesReceived(Empty(delay), ops) + Empty(delay).Capacity() * Drains(ops)
  {
    if ops != [] {
      var front, op := ops[..|ops| - 1], ops[|ops| - 1];
      EmittedIsCounted(delay, front);
      RunKeepsValid(Empty(delay), front);
      DeadlineAfter(delay, front);
      ApplyEmits(Run(Empty(delay), front), op);
      CapacityTimes(Empty(delay).Capacity(), Drains(front));
    }
  }

  lemma CapacityTimes(capacity: nat, n: nat)
    ensures capacity * (n + 1) == capacity * n + capacity
  {
  }

  lemma {:induction false} FirstIsWithin(ops: seq<Op>, from: int, to: int)
    requires Within(ops, from, to)
    ensures FirstInsert(ops).Some? ==> from <= FirstInsert(ops).value
  {
    if ops != [] {
      FirstIsWithin(ops[..|ops| - 1], from, to);
      assert Timely(ops[|ops| - 1], from, to);
    }
  }

  /** Frames are played no faster than the clock allows. */
  lemma {:induction false} FramesTakeTime(delay: nat, ops: seq<Op>, from: int, to: int)
    requires Within(ops, from, to)
    ensures FramesReceived(Empty(delay), ops) > 0 ==> 20 * (FramesReceived(Empty(delay), ops) - 1) <= to - from
  {
    if ops != [] {
      var front, op := ops[..|ops| - 1], ops[|ops| - 1];
      FramesTakeTime(delay, front, from, to);
      assert Timely(op, from, to);
      if op.Received? {
        PlayoutClock(delay, front, op.now);
        FirstIsWithin(front, from, to);
      }
    }
  }

  /** Over a span of time positions grow with the clock, and by one window for each
      time everything was drained. */
  lemma PositionsFollowClock(delay: nat, ops: seq<Op>, from: int, to: int)
    requires Within(ops, from, to) && from <= to
    ensures 0 <= Run(Empty(delay), ops).Tail() <= 8 * (to - from) + FRAME_SAMPLES + Empty(delay).Capacity() * (Drains(ops) + 1)
  {
    PositionsAreBounded(delay, ops);
    EmittedIsCounted(delay, ops);
    FramesTakeTime(delay, ops, from, to);
    CapacityTimes(Empty(delay).Capacity(), Drains(ops));
  }

  // --------------------------------------------------------- runs in parts

  lemma {:induction false} RunJoins(b: Buffer, first: seq<Op>, second: seq<Op>)
    ensures Run(b, first + second) == Run(Run(b, first), second)
    decreases |second|
  {
    if second == [] {
      assert first + second == first;
    } else {
      var n := |second| - 1;
      RunJoins(b, first, second[..n]);
      assert (first + second)[..|first| + n] == first + second[..n];
    }
  }

  lemma WithinJoins(first: seq<Op>, second: seq<Op>, from: int, to: int)
    requires Within(first, from, to) && Within(second, from, to)
    ensures Within(first + second, from, to)
  {
  }

  lemma {:induction false} DrainsJoin(first: seq<Op>, second: seq<Op>)
    ensures Drains(first + second) == Drains(first) + Drains(second)
    decreases |second|
  {
    if second == [] {
      assert first + second == first;
    } else {
      var n := |second| - 1;
      DrainsJoin(first, second[..n]);
      assert (first + second)[..|first| + n] == first + second[..n];
    }
  }
}
