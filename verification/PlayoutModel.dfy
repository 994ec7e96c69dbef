/**
 What the playout ring stands for: a finite map from stream positions to
 samples inside a moving window, with the receive clock and the loss counters.
 Everything here is stated on values; Playout.dfy proves the ring against it.
 */
module PlayoutModel {
  import opened Words
  import opened Media

  datatype ReceiveStats = ReceiveStats(late: nat, overflow: nat, duplicate: nat, missing: nat)

  datatype Buffer = Buffer(
    delay: nat,
    anchor: Option<u32>,
    cursor: int,
    end: int,
    next: Option<int>,
    started: bool,
    stored: map<int, Sample>,
    stats: ReceiveStats)
  {
    function Capacity(): nat {
      (delay + 1000) * 8
    }

    /** First position past the window. */
    function Limit(): int {
      cursor + Capacity()
    }

    /** Where a replacement stream is joined: after everything buffered, or at
        the play position when the buffer ran dry. */
    function Tail(): int {
      Max(end, cursor)
    }

    ghost predicate Valid() {
      && (forall p :: p in stored ==> cursor <= p < end)
      && 0 <= end <= Limit()
      && (!started ==> cursor <= end)
      && (anchor.None? <==> next.None?)
      && (anchor.None? ==> cursor == end == 0 && !started && stored == map[])
    }
  }

  /** One sample period handed to the modem: a stored sample, or a gap. */
  datatype Slot = Slot(position: int, sample: Option<Sample>)

  function Empty(delay: nat): (b: Buffer)
    ensures b.Valid()
  {
    Buffer(delay, None, 0, 0, None, false, map[], ReceiveStats(0, 0, 0, 0))
  }

  function Lookup(m: map<int, Sample>, p: int): Option<Sample> {
    if p in m then Some(m[p]) else None
  }

  // ---------------------------------------------------------------- arrival

  function RestartStream(b: Buffer, timestamp: u32): Buffer {
    if b.anchor.Some? then b.(anchor := Some(Wrap32(timestamp - Wrap32(b.Tail())))) else b
  }

  /** The first packet fixes the timestamp origin and the playout deadline. */
  function Anchored(b: Buffer, timestamp: u32, now: int): Buffer {
    if b.anchor.Some? then b else b.(anchor := Some(timestamp), next := Some(now + b.delay))
  }

  function Offset(b: Buffer, timestamp: u32): int
    requires b.anchor.Some?
  {
    Signed32(Wrap32(timestamp - b.anchor.value))
  }

  /** Before playout starts a preceding packet may pull the window back. */
  function Rewound(b: Buffer, offset: int): Buffer {
    if !b.started && offset < b.cursor && b.end - offset <= b.Capacity() then b.(cursor := offset) else b
  }

  function Insert(b: Buffer, timestamp: u32, samples: seq<Sample>, now: int): Buffer {
    if samples == [] then b else
    var anchored := Anchored(b, timestamp, now);
    var offset := Offset(anchored, timestamp);
    Deposit(Rewound(anchored, offset), offset, samples)
  }

  function DepositOne(b: Buffer, position: int, sample: Sample): Buffer {
    if position < b.cursor then b.(stats := b.stats.(late := b.stats.late + 1))
    else if position >= b.Limit() then b.(stats := b.stats.(overflow := b.stats.overflow + 1))
    else if position in b.stored then b.(stats := b.stats.(duplicate := b.stats.duplicate + 1))
    else b.(stored := b.stored[position := sample], end := Max(b.end, position + 1))
  }

  function Deposit(b: Buffer, offset: int, samples: seq<Sample>): Buffer {
    if samples == [] then b
    else
      var n := |samples| - 1;
      DepositOne(Deposit(b, offset, samples[..n]), offset + n, samples[n])
  }

  function Between(x: int, n: nat): nat {
    if x < 0 then 0 else if x < n then x else n
  }

  lemma BetweenStep(x: int, n: nat)
    ensures Between(x, n + 1) == Between(x, n) + if x > n then 1 else 0
    ensures Between(x + 1, n + 1) == Between(x, n) + if x >= 0 then 1 else 0
  {
  }

  /** Positions of a packet that are already occupied. */
  function Repeats(b: Buffer, offset: int, count: nat): set<int> {
    set p | offset <= p < offset + count && p in b.stored
  }

  /** The samples of a packet that fall in the window on free positions. */
  function Accepted(stored: map<int, Sample>, low: int, limit: int, offset: int, samples: seq<Sample>): map<int, Sample> {
    map p | offset <= p < offset + |samples| && low <= p < limit && p !in stored :: samples[p - offset]
  }

  lemma RepeatsStep(b: Buffer, offset: int, count: nat)
    ensures |Repeats(b, offset, count + 1)|
         == |Repeats(b, offset, count)| + if offset + count in b.stored then 1 else 0
  {
    if offset + count in b.stored {
      assert Repeats(b, offset, count + 1) == Repeats(b, offset, count) + {offset + count};
    } else {
      assert Repeats(b, offset, count + 1) == Repeats(b, offset, count);
    }
  }

  lemma AcceptedStep(stored: map<int, Sample>, low: int, limit: int, offset: int, samples: seq<Sample>, sample: Sample)
    ensures var position := offset + |samples|;
      Accepted(stored, low, limit, offset, samples + [sample])
      == if low <= position < limit && position !in stored
         then Accepted(stored, low, limit, offset, samples)[position := sample]
         else Accepted(stored, low, limit, offset, samples)
  {
  }

  lemma MapPut(m: map<int, Sample>, put: map<int, Sample>, p: int, sample: Sample)
    ensures m + put[p := sample] == (m + put)[p := sample]
    ensures p in m + put <==> p in m || p in put
  {
  }

  lemma {:induction false} DepositFrame(b: Buffer, offset: int, samples: seq<Sample>)
    ensures var after := Deposit(b, offset, samples);
      after == b.(stored := after.stored, end := after.end, stats := after.stats)
  {
    if samples != [] {
      DepositFrame(b, offset, samples[..|samples| - 1]);
    }
  }

  lemma DepositOneStores(b: Buffer, put: map<int, Sample>, now: Buffer, position: int, sample: Sample)
    requires now.stored == b.stored + put && now.cursor == b.cursor && now.delay == b.delay
    requires position !in put
    ensures DepositOne(now, position, sample).stored
         == b.stored + if b.cursor <= position < b.Limit() && position !in b.stored then put[position := sample] else put
  {
    MapPut(b.stored, put, position, sample);
  }

  /** What a whole packet does at once: free positions inside the window get its
      samples, and nothing else in the buffer changes. */
  lemma {:induction false} DepositStores(b: Buffer, offset: int, samples: seq<Sample>)
    ensures Deposit(b, offset, samples).stored == b.stored + Accepted(b.stored, b.cursor, b.Limit(), offset, samples)
  {
    if samples != [] {
      var n := |samples| - 1;
      var front := samples[..n];
      DepositFrame(b, offset, front);
      DepositStores(b, offset, front);
      DepositOneStores(b, Accepted(b.stored, b.cursor, b.Limit(), offset, front), Deposit(b, offset, front), offset + n, samples[n]);
      AcceptedStep(b.stored, b.cursor, b.Limit(), offset, front, samples[n]);
      assert samples == front + [samples[n]];
    }
  }

  /** A packet's own earlier samples never collide with its later ones. */
  lemma FreeStaysFree(b: Buffer, offset: int, samples: seq<Sample>)
    ensures offset + |samples| in Deposit(b, offset, samples).stored <==> offset + |samples| in b.stored
  {
    DepositStores(b, offset, samples);
  }

  /** The losses after `n` samples of a packet: those before the window are late, those
      past it overflow, those on occupied positions are duplicates. */
  function Counted(b: Buffer, offset: int, n: nat): ReceiveStats {
    b.stats.(
      late := b.stats.late + Between(b.cursor - offset, n),
      overflow := b.stats.overflow + Between(offset + n - b.Limit(), n),
      duplicate := b.stats.duplicate + |Repeats(b, offset, n)|)
  }

  /** The sample behind the first `n` of a packet is counted once, where it falls. */
  lemma DepositOneCounts(b: Buffer, before: Buffer, offset: int, n: nat, sample: Sample)
    requires b.Valid() && before.cursor == b.cursor && before.delay == b.delay && before.stats == Counted(b, offset, n)
    requires offset + n in before.stored <==> offset + n in b.stored
    ensures DepositOne(before, offset + n, sample).stats == Counted(b, offset, n + 1)
  {
    RepeatsStep(b, offset, n);
    BetweenStep(b.cursor - offset, n);
    BetweenStep(offset + n - b.Limit(), n);
  }

  /** The losses of a whole packet. */
  lemma {:induction false} DepositCounts(b: Buffer, offset: int, samples: seq<Sample>)
    requires b.Valid()
    ensures Deposit(b, offset, samples).stats == Counted(b, offset, |samples|)
  {
    if samples == [] {
      assert Repeats(b, offset, 0) == {};
    } else {
      var n := |samples| - 1;
      var front := samples[..n];
      DepositCounts(b, offset, front);
      DepositFrame(b, offset, front);
      FreeStaysFree(b, offset, front);
      DepositOneCounts(b, Deposit(b, offset, front), offset, n, samples[n]);
    }
  }

  lemma {:induction false} DepositEnds(b: Buffer, offset: int, samples: seq<Sample>)
    requires b.Valid()
    ensures var first, last := Max(offset, b.cursor), Min(offset + |samples|, b.Limit());
      Deposit(b, offset, samples).end == if first < last then Max(b.end, last) else b.end
  {
    if samples != [] {
      var n := |samples| - 1;
      DepositEnds(b, offset, samples[..n]);
      DepositFrame(b, offset, samples[..n]);
      DepositStores(b, offset, samples[..n]);
    }
  }

  lemma DepositOneKeepsValid(b: Buffer, position: int, sample: Sample)
    requires b.Valid() && b.anchor.Some?
    ensures DepositOne(b, position, sample).Valid()
  {
  }

  lemma {:induction false} DepositKeepsValid(b: Buffer, offset: int, samples: seq<Sample>)
    requires b.Valid() && b.anchor.Some?
    ensures Deposit(b, offset, samples).Valid() && Deposit(b, offset, samples).anchor.Some?
  {
    if samples != [] {
      var n := |samples| - 1;
      DepositKeepsValid(b, offset, samples[..n]);
      DepositOneKeepsValid(Deposit(b, offset, samples[..n]), offset + n, samples[n]);
    }
  }

  lemma InsertAt(b: Buffer, timestamp: u32, samples: seq<Sample>, position: int, now: int)
    requires b.anchor.Some? && samples != []
    requires Offset(b, timestamp) == position && b.cursor <= position
    ensures Insert(b, timestamp, samples, now) == Deposit(b, position, samples)
  {
  }

  /** What one packet leaves alone, whatever it carries. */
  lemma InsertFacts(b: Buffer, timestamp: u32, samples: seq<Sample>, now: int)
    requires b.Valid()
    ensures var after := Insert(b, timestamp, samples, now);
      && after.Valid()
      && after.delay == b.delay && after.started == b.started
      && after.stats.missing == b.stats.missing
      && after.cursor <= b.cursor
      && after.next == (if samples == [] then b.next else Anchored(b, timestamp, now).next)
      && (forall p :: p in b.stored ==> p in after.stored && after.stored[p] == b.stored[p])
  {
    if samples != [] {
      var anchored := Anchored(b, timestamp, now);
      var offset := Offset(anchored, timestamp);
      var ready := Rewound(anchored, offset);
      DepositKeepsValid(ready, offset, samples);
      DepositFrame(ready, offset, samples);
      DepositStores(ready, offset, samples);
      DepositCounts(ready, offset, samples);
    }
  }

  // ---------------------------------------------------------------- playout

  function Peek(b: Buffer): Slot {
    Slot(b.cursor, Lookup(b.stored, b.cursor))
  }

  /** The play position moves on; a gap counts as missing. */
  function Pop(b: Buffer): Buffer {
    b.(cursor := b.cursor + 1,
       stored := b.stored - {b.cursor},
       stats := if b.cursor in b.stored then b.stats else b.stats.(missing := b.stats.missing + 1))
  }

  function Take(b: Buffer, count: nat): Buffer {
    if count == 0 then b else Pop(Take(b, count - 1))
  }

  function Taken(b: Buffer, count: nat): (r: seq<Slot>)
    ensures |r| == count
  {
    if count == 0 then [] else Taken(b, count - 1) + [Peek(Take(b, count - 1))]
  }

  function Gaps(slots: seq<Slot>): nat {
    if slots == [] then 0 else Gaps(slots[..|slots| - 1]) + if slots[|slots| - 1].sample.None? then 1 else 0
  }

  function Due(b: Buffer, now: int): bool {
    b.next.Some? && b.next.value <= now
  }

  function Started(b: Buffer): Buffer {
    if b.next.Some? then b.(next := Some(b.next.value + 20), started := true) else b
  }

  function Receive(b: Buffer, now: int): Buffer {
    if Due(b, now) then Take(Started(b), FRAME_SAMPLES) else b
  }

  function Backlog(b: Buffer): nat {
    Max(0, b.end - b.cursor)
  }

  function Drain(b: Buffer): Buffer {
    Take(b, Backlog(b))
  }

  /** What the modem hears: gaps are silence, and a short frame is padded. */
  function Frame(slots: seq<Slot>): (r: seq<Sample>)
    ensures |r| == FRAME_SAMPLES
  {
    seq(FRAME_SAMPLES, i => if 0 <= i < |slots| && slots[i].sample.Some? then slots[i].sample.value else 0)
  }

  function Frames(slots: seq<Slot>): (r: seq<seq<Sample>>)
    ensures forall i :: 0 <= i < |r| ==> |r[i]| == FRAME_SAMPLES
  {
    if slots == [] then []
    else if |slots| <= FRAME_SAMPLES then [Frame(slots)]
    else [Frame(slots[..FRAME_SAMPLES])] + Frames(slots[FRAME_SAMPLES..])
  }

  lemma {:induction false} GapsAppend(a: seq<Slot>, c: seq<Slot>)
    ensures Gaps(a + c) == Gaps(a) + Gaps(c)
    decreases |c|
  {
    if c == [] {
      assert a + c == a;
    } else {
      var front := c[..|c| - 1];
      assert (a + c)[..|a + c| - 1] == a + front;
      GapsAppend(a, front);
    }
  }

  /** Taking in two steps is taking once: nothing is skipped or played twice between them. */
  lemma {:induction false} TakeSplit(b: Buffer, i: nat, j: nat)
    ensures Take(b, i + j) == Take(Take(b, i), j)
    ensures Taken(b, i + j) == Taken(b, i) + Taken(Take(b, i), j)
  {
    if j > 0 {
      TakeSplit(b, i, j - 1);
      assert i + j - 1 == i + (j - 1);
    }
  }

  lemma {:induction false} TakeFrameRule(b: Buffer, count: nat)
    ensures var after := Take(b, count);
      && after == b.(cursor := b.cursor + count, stored := after.stored, stats := after.stats)
      && after.stats == b.stats.(missing := b.stats.missing + Gaps(Taken(b, count)))
  {
    if count > 0 {
      TakeFrameRule(b, count - 1);
      assert Taken(b, count)[..count - 1] == Taken(b, count - 1);
      TakeStores(b, count - 1);
    }
  }

  lemma {:induction false} TakeStores(b: Buffer, count: nat)
    ensures forall p :: p in Take(b, count).stored <==> p in b.stored && !(b.cursor <= p < b.cursor + count)
    ensures forall p :: p in Take(b, count).stored ==> Take(b, count).stored[p] == b.stored[p]
    ensures Take(b, count).cursor == b.cursor + count
  {
    if count > 0 {
      TakeStores(b, count - 1);
    }
  }

  /** The k-th slot taken is the sample stored k positions after the play position. */
  lemma {:induction false} TakenAt(b: Buffer, count: nat, k: nat)
    requires k < count
    ensures Taken(b, count)[k] == Slot(b.cursor + k, Lookup(b.stored, b.cursor + k))
  {
    if k < count - 1 {
      TakenAt(b, count - 1, k);
    } else {
      TakeStores(b, count - 1);
    }
  }

  lemma {:induction false} TakenIgnoresClock(b: Buffer, count: nat)
    ensures Taken(Started(b), count) == Taken(b, count)
    ensures Take(Started(b), count) == Started(Take(b, count))
  {
    if count > 0 {
      TakenIgnoresClock(b, count - 1);
      TakeFrameRule(b, count - 1);
    }
  }

  lemma PopKeepsValid(b: Buffer)
    requires b.Valid() && b.anchor.Some? && (b.started || b.cursor < b.end)
    ensures Pop(b).Valid()
  {
  }

  lemma {:induction false} TakeKeepsValid(b: Buffer, count: nat)
    requires b.Valid() && b.anchor.Some?
    requires b.started || b.cursor + count <= b.end
    ensures Take(b, count).Valid()
  {
    if count > 0 {
      TakeKeepsValid(b, count - 1);
      TakeFrameRule(b, count - 1);
      PopKeepsValid(Take(b, count - 1));
    }
  }

  // ---------------------------------------------------------- whole runs

  datatype Op =
    | Inserted(timestamp: u32, samples: seq<Sample>, now: int)
    | Restarted(timestamp: u32)
    | Received(now: int)
    | Drained

  function Apply(b: Buffer, op: Op): Buffer {
    match op
    case Inserted(timestamp, samples, now) => Insert(b, timestamp, samples, now)
    case Restarted(timestamp) => RestartStream(b, timestamp)
    case Received(now) => Receive(b, now)
    case Drained => Drain(b)
  }

  function Emits(b: Buffer, op: Op): seq<Slot> {
    match op
    case Inserted(_, _, _) => []
    case Restarted(_) => []
    case Received(now) => if Due(b, now) then Taken(b, FRAME_SAMPLES) else []
    case Drained => Taken(b, Backlog(b))
  }

  function Run(b: Buffer, ops: seq<Op>): Buffer {
    if ops == [] then b else Apply(Run(b, ops[..|ops| - 1]), ops[|ops| - 1])
  }

  function Emitted(b: Buffer, ops: seq<Op>): seq<Slot> {
    if ops == [] then []
    else Emitted(b, ops[..|ops| - 1]) + Emits(Run(b, ops[..|ops| - 1]), ops[|ops| - 1])
  }

  lemma ApplyKeepsValid(b: Buffer, op: Op)
    requires b.Valid()
    ensures Apply(b, op).Valid()
  {
    match op
    case Inserted(timestamp, samples, now) =>
      InsertFacts(b, timestamp, samples, now);
    case Restarted(timestamp) =>
    case Received(now) =>
      if Due(b, now) {
        TakeKeepsValid(Started(b), FRAME_SAMPLES);
      }
    case Drained =>
      if Backlog(b) > 0 {
        TakeKeepsValid(b, Backlog(b));
      }
  }
}
