/**
 What one packet, and any run of early ones, must bring into the ring: where the window
 goes, which samples are kept, and that before playout the order of arrival is no matter.
 */
module PlayoutArrivals {
  import opened Words
  import opened Media
  import opened PlayoutModel
  import Ring = PlayoutTheorems

  /** Where a packet belongs: its signed 32-bit distance from the first one. */
  function Position(anchor: Option<u32>, timestamp: u32): int {
    match anchor
    case None => 0
    case Some(first) => Signed32(Wrap32(timestamp - first))
  }

  /** Before playout, a packet from ahead of the window moves it back if everything fits. */
  function Landing(b: Buffer, at: int): int {
    if !b.started && at < b.cursor && b.end - at <= b.Capacity() then at else b.cursor
  }

  /** With its window at `cursor`, the buffer has taken what falls in it on free positions,
      and counted the rest. */
  ghost predicate Lands(b: Buffer, cursor: int, at: int, samples: seq<Sample>, after: Buffer) {
    var limit := cursor + b.Capacity();
    && after.Valid() && after.anchor.Some? && after.delay == b.delay && after.started == b.started
    && after.cursor == cursor
    && after.stored == b.stored + Accepted(b.stored, cursor, limit, at, samples)
    && after.stats.missing == b.stats.missing
    && after.stats.late == b.stats.late + Between(cursor - at, |samples|)
    && after.stats.overflow == b.stats.overflow + Between(at + |samples| - limit, |samples|)
    && after.end == if Max(at, cursor) < Min(at + |samples|, limit) then Max(b.end, Min(at + |samples|, limit)) else b.end
  }

  lemma SameDistance(timestamp: u32)
    ensures Signed32(Wrap32(timestamp - timestamp)) == 0
  {
  }

  lemma LandsBy(met: Buffer, at: int, samples: seq<Sample>, after: Buffer)
    requires met.anchor.Some? && after.Valid()
    requires after == met.(stored := after.stored, end := after.end, stats := after.stats)
    requires after.stored == met.stored + Accepted(met.stored, met.cursor, met.Limit(), at, samples)
    requires after.stats == Counted(met, at, |samples|)
    requires after.end == if Max(at, met.cursor) < Min(at + |samples|, met.Limit())
                          then Max(met.end, Min(at + |samples|, met.Limit())) else met.end
    ensures Lands(met, met.cursor, at, samples, after)
  {
  }

  lemma DepositLands(met: Buffer, at: int, samples: seq<Sample>) returns (after: Buffer)
    requires met.Valid() && met.anchor.Some?
    ensures after == Deposit(met, at, samples) && after.anchor == met.anchor
    ensures Lands(met, met.cursor, at, samples, after)
  {
    after := Deposit(met, at, samples);
    DepositFrame(met, at, samples);
    DepositStores(met, at, samples);
    DepositCounts(met, at, samples);
    DepositEnds(met, at, samples);
    DepositKeepsValid(met, at, samples);
    LandsBy(met, at, samples, after);
  }

  /** The buffer a packet meets: anchored by the first one, and moved back if it may be. */
  function Met(b: Buffer, timestamp: u32, now: int): Buffer {
    Buffer(b.delay, Some(if b.anchor.Some? then b.anchor.value else timestamp), Landing(b, Position(b.anchor, timestamp)),
           b.end, if b.anchor.Some? then b.next else Some(now + b.delay), b.started, b.stored, b.stats)
  }

  lemma MetIsValid(b: Buffer, timestamp: u32, now: int)
    requires b.Valid()
    ensures Met(b, timestamp, now).Valid()
  {
  }

  lemma InsertMeets(b: Buffer, timestamp: u32, samples: seq<Sample>, now: int)
    requires samples != []
    ensures Insert(b, timestamp, samples, now) == Deposit(Met(b, timestamp, now), Position(b.anchor, timestamp), samples)
  {
    SameDistance(timestamp);
    var anchored := Anchored(b, timestamp, now);
    var at := Position(b.anchor, timestamp);
    assert Offset(anchored, timestamp) == at;
    assert Rewound(anchored, at) == Met(b, timestamp, now);
  }

  lemma LandsFrom(b: Buffer, met: Buffer, at: int, samples: seq<Sample>, after: Buffer)
    requires met == b.(anchor := met.anchor, next := met.next, cursor := met.cursor)
    requires Lands(met, met.cursor, at, samples, after)
    ensures Lands(b, met.cursor, at, samples, after)
  {
  }

  /** What a packet does, whole. The window moves back to the packet's position exactly if
      playout has not begun, the packet lies before the window and everything fits;
      then every sample on a free position of the window is stored where it belongs. */
  lemma InsertOutcome(b: Buffer, timestamp: u32, samples: seq<Sample>, now: int)
    requires b.Valid() && samples != []
    ensures var at := Position(b.anchor, timestamp);
      Lands(b, Landing(b, at), at, samples, Insert(b, timestamp, samples, now))
    ensures Insert(b, timestamp, samples, now).anchor == Some(if b.anchor.Some? then b.anchor.value else timestamp)
  {
    var met := Met(b, timestamp, now);
    InsertMeets(b, timestamp, samples, now);
    MetIsValid(b, timestamp, now);
    var after := DepositLands(met, Position(b.anchor, timestamp), samples);
    LandsFrom(b, met, Position(b.anchor, timestamp), samples, after);
  }

  /** An early packet that lies before the window is kept as a whole: nothing of it is late,
      and every sample on a free position of the moved window is stored at its own. */
  lemma EarlierPacketIsKept(b: Buffer, timestamp: u32, samples: seq<Sample>, now: int)
    requires b.Valid() && samples != [] && b.anchor.Some?
    requires var d := Signed32(Wrap32(timestamp - b.anchor.value)); !b.started && d < b.cursor && b.end - d <= b.Capacity()
    ensures var d := Signed32(Wrap32(timestamp - b.anchor.value));
      var after := Insert(b, timestamp, samples, now);
      && after.cursor == d && after.stats.late == b.stats.late
      && (forall p :: d <= p < d + |samples| && p < d + b.Capacity() && p !in b.stored ==>
            p in after.stored && after.stored[p] == samples[p - d])
  {
    InsertOutcome(b, timestamp, samples, now);
  }

  /** It does happen: the second packet comes first, and the first one is not lost. */
  lemma SwappedPacketsAreBothKept(first: seq<Sample>, second: seq<Sample>)
    requires |first| == |second| == FRAME_SAMPLES
    ensures var b := Insert(Insert(Empty(200), 160, second, 0), 0, first, 5);
      && b.cursor == -160 && b.stats.late == 0 && b.stats.overflow == 0
      && (forall k :: -160 <= k < 0 ==> k in b.stored && b.stored[k] == first[k + 160])
      && (forall k :: 0 <= k < 160 ==> k in b.stored && b.stored[k] == second[k])
  {
    var b := Insert(Empty(200), 160, second, 0);
    InsertOutcome(Empty(200), 160, second, 0);
    assert Position(Some(160), 0) == -160;
    InsertOutcome(b, 0, first, 5);
  }

  // --------------------------------------------------- before the first frame

  ghost predicate OnlyPackets(ops: seq<Op>) {
    forall i :: 0 <= i < |ops| ==> ops[i].Inserted? && ops[i].samples != []
  }

  function PositionOf(ops: seq<Op>, i: nat): int
    requires OnlyPackets(ops) && i < |ops|
  {
    Signed32(Wrap32(ops[i].timestamp - ops[0].timestamp))
  }

  /** From the earliest position of any to the end of any, the packets fit the window. */
  ghost predicate FitTogether(ops: seq<Op>, capacity: nat)
    requires OnlyPackets(ops)
  {
    forall i, j :: 0 <= i < |ops| && 0 <= j < |ops| ==>
      PositionOf(ops, i) + |ops[i].samples| - PositionOf(ops, j) <= capacity
  }

  /** Packet `i` brings a sample for position `p`. */
  predicate Offers(ops: seq<Op>, i: nat, p: int)
    requires OnlyPackets(ops) && i < |ops|
  {
    PositionOf(ops, i) <= p < PositionOf(ops, i) + |ops[i].samples|
  }

  /** The window begins at the earliest packet and the buffer ends with the last. */
  ghost predicate Spans(b: Buffer, ops: seq<Op>)
    requires OnlyPackets(ops) && ops != []
  {
    && b.Valid() && !b.started && b.anchor == Some(ops[0].timestamp)
    && (forall i :: 0 <= i < |ops| ==> b.cursor <= PositionOf(ops, i) && PositionOf(ops, i) + |ops[i].samples| <= b.end)
    && (exists i :: 0 <= i < |ops| && b.cursor == PositionOf(ops, i))
    && (exists i :: 0 <= i < |ops| && b.end == PositionOf(ops, i) + |ops[i].samples|)
  }

  /** Every position offered, with the sample of the first packet that offered it. */
  function FirstOffered(ops: seq<Op>): map<int, Sample>
    requires OnlyPackets(ops)
    decreases |ops|
  {
    if ops == [] then map[]
    else
      var n := |ops| - 1;
      Ring.Located(Signed32(Wrap32(ops[n].timestamp - ops[0].timestamp)), ops[n].samples) + FirstOffered(ops[..n])
  }

  lemma SamePositions(ops: seq<Op>, n: nat)
    requires OnlyPackets(ops) && 0 < n <= |ops|
    ensures OnlyPackets(ops[..n])
    ensures forall i :: 0 <= i < n ==> PositionOf(ops[..n], i) == PositionOf(ops, i)
  {
  }

  lemma SameOffers(ops: seq<Op>, n: nat, i: nat, p: int)
    requires OnlyPackets(ops) && i < n <= |ops|
    ensures OnlyPackets(ops[..n]) && Offers(ops[..n], i, p) == Offers(ops, i, p)
  {
  }

  /** What `FirstOffered` means: its positions are those of the packets, and each has the
      sample of the first of them. */
  lemma {:induction false} FirstOfferedIs(ops: seq<Op>, i: nat, p: int)
    requires OnlyPackets(ops) && i < |ops| && Offers(ops, i, p)
    ensures p in FirstOffered(ops)
    ensures (forall j :: 0 <= j < i ==> !Offers(ops, j, p)) ==> FirstOffered(ops)[p] == ops[i].samples[p - PositionOf(ops, i)]
    decreases |ops|
  {
    var n := |ops| - 1;
    if i < n {
      SameOffers(ops, n, i, p);
      forall j | 0 <= j < i
        ensures Offers(ops[..n], j, p) == Offers(ops, j, p)
      {
        SameOffers(ops, n, j, p);
      }
      FirstOfferedIs(ops[..n], i, p);
    } else if p in FirstOffered(ops[..n]) {
      var j := OnlyOffered(ops[..n], p);
      SameOffers(ops, n, j, p);
    }
  }

  lemma OfferedStep(ops: seq<Op>, p: int)
    requires OnlyPackets(ops) && ops != []
    ensures OnlyPackets(ops[..|ops| - 1])
    ensures p in FirstOffered(ops) <==> Offers(ops, |ops| - 1, p) || p in FirstOffered(ops[..|ops| - 1])
  {
  }

  lemma {:induction false} OnlyOffered(ops: seq<Op>, p: int) returns (i: nat)
    requires OnlyPackets(ops) && p in FirstOffered(ops)
    ensures i < |ops| && Offers(ops, i, p)
    decreases |ops|
  {
    var n := |ops| - 1;
    OfferedStep(ops, p);
    if Offers(ops, n, p) {
      i := n;
    } else {
      i := OnlyOffered(ops[..n], p);
      SameOffers(ops, n, i, p);
    }
  }

  /** A packet within the window brings everything it has. */
  lemma AllAccepted(stored: map<int, Sample>, cursor: int, limit: int, at: int, samples: seq<Sample>)
    requires cursor <= at && at + |samples| <= limit
    ensures stored + Accepted(stored, cursor, limit, at, samples) == Ring.Located(at, samples) + stored
  {
  }

  predicate NothingLost(stats: ReceiveStats) {
    stats.late == 0 && stats.overflow == 0 && stats.missing == 0
  }

  /** An early packet that fits is taken whole. */
  lemma EarlyInsert(b: Buffer, op: Op, at: int) returns (after: Buffer)
    requires b.Valid() && !b.started && op.Inserted? && op.samples != [] && NothingLost(b.stats)
    requires at == Position(b.anchor, op.timestamp)
    requires (at < b.cursor ==> b.end - at <= b.Capacity()) && at + |op.samples| <= Min(b.cursor, at) + b.Capacity()
    ensures after == Apply(b, op) && after.anchor == Some(if b.anchor.Some? then b.anchor.value else op.timestamp)
    ensures after.Valid() && !after.started && after.delay == b.delay && NothingLost(after.stats)
    ensures after.cursor == Min(b.cursor, at) && after.end == Max(b.end, at + |op.samples|)
    ensures after.stored == Ring.Located(at, op.samples) + b.stored
  {
    after := Insert(b, op.timestamp, op.samples, op.now);
    InsertOutcome(b, op.timestamp, op.samples, op.now);
    LandsWhole(b, at, op.samples, after);
  }

  lemma LandsWhole(b: Buffer, at: int, samples: seq<Sample>, after: Buffer)
    requires !b.started && samples != [] && NothingLost(b.stats) && Lands(b, Landing(b, at), at, samples, after)
    requires (at < b.cursor ==> b.end - at <= b.Capacity()) && at + |samples| <= Min(b.cursor, at) + b.Capacity()
    ensures NothingLost(after.stats) && after.cursor == Min(b.cursor, at) && after.end == Max(b.end, at + |samples|)
    ensures after.stored == Ring.Located(at, samples) + b.stored
  {
    AllAccepted(b.stored, Min(b.cursor, at), Min(b.cursor, at) + b.Capacity(), at, samples);
  }

  lemma FirstPacket(delay: nat, op: Op) returns (b: Buffer)
    requires op.Inserted? && op.samples != [] && |op.samples| <= Empty(delay).Capacity()
    ensures b == Apply(Empty(delay), op)
    ensures Spans(b, [op]) && b.stored == FirstOffered([op]) && NothingLost(b.stats) && b.delay == delay
  {
    b := EarlyInsert(Empty(delay), op, 0);
    OfferedByOne(op);
    SpansOne(op, b);
  }

  lemma OfferedByOne(op: Op)
    requires op.Inserted? && op.samples != []
    ensures FirstOffered([op]) == Ring.Located(0, op.samples) + map[]
  {
    SameDistance(op.timestamp);
    assert [op][..0] == [];
  }

  lemma SpansOne(op: Op, b: Buffer)
    requires op.Inserted? && op.samples != [] && b.Valid() && !b.started && b.anchor == Some(op.timestamp)
    requires b.cursor == 0 && b.end == |op.samples|
    ensures Spans(b, [op])
  {
    SameDistance(op.timestamp);
    assert PositionOf([op], 0) == 0;
  }

  lemma NextPacket(b: Buffer, ops: seq<Op>) returns (after: Buffer)
    requires OnlyPackets(ops) && |ops| > 1 && FitTogether(ops, b.Capacity())
    requires OnlyPackets(ops[..|ops| - 1]) && Spans(b, ops[..|ops| - 1])
    requires b.stored == FirstOffered(ops[..|ops| - 1]) && NothingLost(b.stats)
    ensures after == Apply(b, ops[|ops| - 1])
    ensures Spans(after, ops) && after.stored == FirstOffered(ops) && NothingLost(after.stats) && after.delay == b.delay
  {
    var at := PositionOf(ops, |ops| - 1);
    EarlyWindow(b, ops);
    after := EarlyInsert(b, ops[|ops| - 1], at);
    SpansOneMore(b, ops, after);
  }

  /** The window goes to the earliest position, and the packet fits behind it. */
  lemma EarlyWindow(b: Buffer, ops: seq<Op>)
    requires OnlyPackets(ops) && |ops| > 1 && OnlyPackets(ops[..|ops| - 1])
    requires FitTogether(ops, b.Capacity()) && Spans(b, ops[..|ops| - 1])
    ensures var n := |ops| - 1; var at := PositionOf(ops, n);
      && (at < b.cursor ==> b.end - at <= b.Capacity())
      && at + |ops[n].samples| <= Min(b.cursor, at) + b.Capacity()
  {
    var n := |ops| - 1;
    SamePositions(ops, n);
    var i :| 0 <= i < n && b.end == PositionOf(ops[..n], i) + |ops[..n][i].samples|;
    var j :| 0 <= j < n && b.cursor == PositionOf(ops[..n], j);
    assert PositionOf(ops, i) + |ops[i].samples| - PositionOf(ops, n) <= b.Capacity();
    assert PositionOf(ops, n) + |ops[n].samples| - PositionOf(ops, j) <= b.Capacity();
    assert PositionOf(ops, n) + |ops[n].samples| - PositionOf(ops, n) <= b.Capacity();
  }

  lemma SpansOneMore(b: Buffer, ops: seq<Op>, after: Buffer)
    requires OnlyPackets(ops) && |ops| > 1 && OnlyPackets(ops[..|ops| - 1]) && Spans(b, ops[..|ops| - 1])
    requires var n := |ops| - 1; var at := PositionOf(ops, n);
      && after.Valid() && !after.started && after.anchor == b.anchor
      && after.cursor == Min(b.cursor, at) && after.end == Max(b.end, at + |ops[n].samples|)
    ensures Spans(after, ops)
  {
    var n := |ops| - 1;
    SamePositions(ops, n);
    forall i | 0 <= i < |ops|
      ensures after.cursor <= PositionOf(ops, i) && PositionOf(ops, i) + |ops[i].samples| <= after.end
    {
      assert i < n ==> b.cursor <= PositionOf(ops[..n], i) && PositionOf(ops[..n], i) + |ops[..n][i].samples| <= b.end;
    }
    var j :| 0 <= j < n && b.cursor == PositionOf(ops[..n], j);
    var k :| 0 <= k < n && b.end == PositionOf(ops[..n], k) + |ops[..n][k].samples|;
    assert after.cursor == PositionOf(ops, if PositionOf(ops, n) < b.cursor then n else j);
    var last := if PositionOf(ops, n) + |ops[n].samples| > b.end then n else k;
    assert after.end == PositionOf(ops, last) + |ops[last].samples|;
  }

  /** Before the first frame the order of arrival is no matter: as long as the packets fit
      the window together, none of their samples is late or lost, the window begins at
      the earliest, and every position holds the sample first offered for it. */
  lemma {:induction false} EarlyPacketsAreKept(delay: nat, ops: seq<Op>)
    requires OnlyPackets(ops) && ops != [] && FitTogether(ops, Empty(delay).Capacity())
    ensures var b := Run(Empty(delay), ops);
      && Spans(b, ops) && b.stored == FirstOffered(ops) && NothingLost(b.stats) && b.delay == delay
    decreases |ops|
  {
    var n := |ops| - 1;
    if n == 0 {
      SameDistance(ops[0].timestamp);
      assert PositionOf(ops, 0) == 0;
      assert PositionOf(ops, 0) + |ops[0].samples| - PositionOf(ops, 0) <= Empty(delay).Capacity();
      assert ops == [ops[0]] && ops[..0] == [];
      var b := FirstPacket(delay, ops[0]);
    } else {
      SamePositions(ops, n);
      forall i, j | 0 <= i < n && 0 <= j < n
        ensures PositionOf(ops[..n], i) + |ops[..n][i].samples| - PositionOf(ops[..n], j) <= Empty(delay).Capacity()
      {
        assert PositionOf(ops, i) + |ops[i].samples| - PositionOf(ops, j) <= Empty(delay).Capacity();
      }
      EarlyPacketsAreKept(delay, ops[..n]);
      var b := NextPacket(Run(Empty(delay), ops[..n]), ops);
    }
  }
}
