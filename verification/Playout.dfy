/**
 The playout ring itself: a fixed array of optional samples addressed by stream
 position modulo its length, updated in place. Each method is proved against
 the finite map of PlayoutModel that the ring stands for.
 */
module PlayoutRing {
  import opened Words
  import opened Media
  import opened PlayoutModel

  /** Ring slot of a stream position, which may be negative before playout starts. */
  function SlotOf(position: int, capacity: nat): (r: nat)
    requires capacity > 0
    ensures r < capacity
  {
    position % capacity
  }

  lemma DistinctSlots(p: int, q: int, low: int, capacity: nat)
    requires capacity > 0 && low <= p < low + capacity && low <= q < low + capacity && p != q
    ensures SlotOf(p, capacity) != SlotOf(q, capacity)
  {
    if SlotOf(p, capacity) == SlotOf(q, capacity) {
      SameResidue(p, q, capacity);
      assert false;
    }
  }

  /** When the window slides by one, only the slot of the position it left is reused. */
  lemma SlideSlots(cursor: int, capacity: nat)
    requires capacity > 0
    ensures SlotOf(cursor - 1 + capacity, capacity) == SlotOf(cursor - 1, capacity)
    ensures forall p :: cursor <= p < cursor - 1 + capacity ==> SlotOf(p, capacity) != SlotOf(cursor - 1, capacity)
  {
    ModShift(cursor - 1, 1, capacity);
    forall p | cursor <= p < cursor - 1 + capacity
      ensures SlotOf(p, capacity) != SlotOf(cursor - 1, capacity)
    {
      DistinctSlots(p, cursor - 1, cursor - 1, capacity);
    }
  }

  class Playout {
    const decode: Decoder
    const delay: nat
    const samples: array<Option<Sample>>
    var anchor: Option<u32>
    var cursor: int
    var end: int
    var next: Option<int>
    var started: bool
    var stats: ReceiveStats
    ghost var stored: map<int, Sample>

    ghost function View(): Buffer
      reads this
    {
      Buffer(delay, anchor, cursor, end, next, started, stored, stats)
    }

    /** Every slot of the window holds exactly what the map has at its position. */
    ghost predicate Holds(m: map<int, Sample>, low: int)
      requires samples.Length > 0
      reads samples
    {
      forall p :: low <= p < low + samples.Length ==> samples[SlotOf(p, samples.Length)] == Lookup(m, p)
    }

    ghost predicate Valid()
      reads this, samples
    {
      && samples.Length == View().Capacity()
      && View().Valid()
      && Holds(stored, cursor)
    }

    constructor (delayMs: nat, decode: Decoder)
      requires 40 <= delayMs <= 1000
      ensures Valid() && View() == Empty(delayMs) && fresh(samples) && this.decode == decode
    {
      this.decode := decode;
      delay := delayMs;
      samples := new Option<Sample>[(delayMs + 1000) * 8](_ => None);
      anchor := None;
      cursor, end := 0, 0;
      next := None;
      started := false;
      stats := ReceiveStats(0, 0, 0, 0);
      stored := map[];
    }

    /** The configured delay is checked before a ring is built. */
    static method New(delayMs: nat, decode: Decoder) returns (r: Option<Playout>)
      ensures r.Some? <==> 40 <= delayMs <= 1000
      ensures r.Some? ==> r.value.Valid() && r.value.View() == Empty(delayMs) && fresh(r.value) && fresh(r.value.samples)
    {
      if delayMs < 40 || delayMs > 1000 {
        return None;
      }
      var ring := new Playout(delayMs, decode);
      r := Some(ring);
    }

    method RestartStream(timestamp: u32)
      requires Valid()
      modifies this`anchor
      ensures Valid() && View() == PlayoutModel.RestartStream(old(View()), timestamp)
    {
      if anchor.Some? {
        anchor := Some(Wrap32(timestamp - Wrap32(Max(end, cursor))));
      }
    }

    /** Moving the window back before playout is sound because nothing is stored
        at or beyond `end`, so the slots that change meaning are all empty. */
    lemma RewindIsSound(offset: int)
      requires Valid() && offset < cursor && end - offset <= samples.Length
      ensures Holds(stored, offset)
    {
      forall p | offset <= p < offset + samples.Length
        ensures samples[SlotOf(p, samples.Length)] == Lookup(stored, p)
      {
        if p < cursor {
          var lap := (cursor - 1 - p) / samples.Length + 1;
          SlotBehindWindow(p, lap);
        }
      }
    }

    lemma SlotBehindWindow(p: int, lap: int)
      requires Valid() && p < cursor && lap == (cursor - 1 - p) / samples.Length + 1
      requires end <= p + samples.Length
      ensures samples[SlotOf(p, samples.Length)] == None
    {
      var q := p + lap * samples.Length;
      ModShift(p, lap, samples.Length);
      var gap := cursor - 1 - p;
      assert gap == (gap / samples.Length) * samples.Length + gap % samples.Length;
      assert lap * samples.Length == (gap / samples.Length) * samples.Length + samples.Length;
      assert cursor <= q < cursor + samples.Length;
      assert lap * samples.Length >= samples.Length by { MultipleIsFar(lap, samples.Length); }
      assert q >= end;
      assert samples[SlotOf(q, samples.Length)] == Lookup(stored, q);
    }

    method Insert(timestamp: u32, payload: seq<byte>, codec: G711, now: int)
      requires Valid()
      modifies this, samples
      ensures Valid()
      ensures View() == PlayoutModel.Insert(old(View()), timestamp, Decoded(decode, codec, payload), now)
    {
      if |payload| == 0 {
        return;
      }
      if anchor.None? {
        next := Some(now + delay);
        anchor := Some(timestamp);
      }
      var offset := Signed32(Wrap32(timestamp - anchor.value));
      var capacity := samples.Length;
      if !started && offset < cursor && end - offset <= capacity {
        RewindIsSound(offset);
        cursor := offset;
      }
      Fill(offset, payload, codec);
    }

    method Fill(offset: int, payload: seq<byte>, codec: G711)
      requires Valid() && anchor.Some?
      modifies this`end, this`stats, this`stored, samples
      ensures Valid()
      ensures View() == Deposit(old(View()), offset, Decoded(decode, codec, payload))
    {
      ghost var decoded := Decoded(decode, codec, payload);
      for index := 0 to |payload|
        invariant Valid()
        invariant View() == Deposit(old(View()), offset, decoded[..index])
      {
        Put(offset + index, decode(codec, payload[index]));
        assert decoded[..index + 1][..index] == decoded[..index];
      }
      assert decoded[..|payload|] == decoded;
    }

    method Put(position: int, sample: Sample)
      requires Valid() && anchor.Some?
      modifies this`end, this`stats, this`stored, samples
      ensures Valid()
      ensures View() == DepositOne(old(View()), position, sample)
    {
      if position < cursor {
        stats := stats.(late := stats.late + 1);
      } else if position >= cursor + samples.Length {
        stats := stats.(overflow := stats.overflow + 1);
      } else {
        var slot := SlotOf(position, samples.Length);
        if samples[slot].Some? {
          stats := stats.(duplicate := stats.duplicate + 1);
        } else {
          samples[slot] := Some(sample);
          end := Max(end, position + 1);
          stored := stored[position := sample];
          forall p | cursor <= p < cursor + samples.Length
            ensures samples[SlotOf(p, samples.Length)] == Lookup(stored, p)
          {
            if p != position {
              DistinctSlots(p, position, cursor, samples.Length);
            }
          }
        }
      }
    }

    method Receive(now: int) returns (frame: Option<seq<Sample>>)
      requires Valid()
      modifies this, samples
      ensures Valid() && View() == PlayoutModel.Receive(old(View()), now)
      ensures frame == if Due(old(View()), now) then Some(Frame(Emits(old(View()), Received(now)))) else None
    {
      if next.None? || now < next.value {
        return None;
      }
      next := Some(next.value + 20);
      started := true;
      TakenIgnoresClock(old(View()), FRAME_SAMPLES);
      var played := TakeFrame(FRAME_SAMPLES);
      frame := Some(played);
    }

    /** Emptying the slot at the play position makes it the far end of the window. */
    method TakeOne() returns (sample: Option<Sample>)
      requires Valid() && (started || cursor < end) && anchor.Some?
      modifies this`cursor, this`stats, this`stored, samples
      ensures Valid() && View() == Pop(old(View()))
      ensures sample == Peek(old(View())).sample
    {
      var slot := SlotOf(cursor, samples.Length);
      sample := samples[slot];
      samples[slot] := None;
      if sample.None? {
        stats := stats.(missing := stats.missing + 1);
      }
      stored := stored - {cursor};
      cursor := cursor + 1;
      SlideSlots(cursor, samples.Length);
    }

    method TakeFrame(count: nat) returns (frame: seq<Sample>)
      requires Valid() && count <= FRAME_SAMPLES && (started || cursor + count <= end) && anchor.Some?
      modifies this`cursor, this`stats, this`stored, samples
      ensures Valid() && View() == Take(old(View()), count)
      ensures cursor == old(cursor) + count && end == old(end)
      ensures frame == Frame(Taken(old(View()), count))
    {
      frame := seq(FRAME_SAMPLES, _ => 0);
      ghost var was := View();
      for index := 0 to count
        invariant Valid() && anchor.Some?
        invariant View() == Take(was, index)
        invariant |frame| == FRAME_SAMPLES && frame == Frame(Taken(was, index))
      {
        TakeFrameRule(was, index);
        var sample := TakeOne();
        FrameExtends(Taken(was, index), Peek(Take(was, index)));
        frame := frame[index := match sample case Some(value) => value case None => 0];
      }
      TakeFrameRule(was, count);
    }

    method Drain() returns (frames: seq<seq<Sample>>)
      requires Valid()
      modifies this, samples
      ensures Valid() && View() == PlayoutModel.Drain(old(View()))
      ensures frames == Frames(Taken(old(View()), Backlog(old(View()))))
    {
      frames := [];
      ghost var was := View();
      while cursor < end
        invariant Valid()
        invariant DrainedSoFar(was, View(), frames)
      {
        ghost var before := View();
        var count := if end - cursor < FRAME_SAMPLES then end - cursor else FRAME_SAMPLES;
        var frame := TakeFrame(count);
        DrainStep(was, before, frames, count);
        frames := frames + [frame];
      }
      TakeFrameRule(was, Min(FRAME_SAMPLES * |frames|, Backlog(was)));
    }
  }

  /** So many frames of the backlog have been taken: all of them full, except
      perhaps the last one of the stream. */
  ghost predicate DrainedSoFar(was: Buffer, now: Buffer, frames: seq<seq<Sample>>) {
    var done := Min(FRAME_SAMPLES * |frames|, Backlog(was));
    now == Take(was, done) && frames == Frames(Taken(was, done))
  }

  lemma FrameExtends(slots: seq<Slot>, slot: Slot)
    requires |slots| < FRAME_SAMPLES
    ensures Frame(slots + [slot])
         == Frame(slots)[|slots| := match slot.sample case Some(value) => value case None => 0]
  {
  }

  lemma DrainStep(was: Buffer, before: Buffer, frames: seq<seq<Sample>>, count: nat)
    requires DrainedSoFar(was, before, frames) && before.cursor < before.end
    requires count == Min(before.end - before.cursor, FRAME_SAMPLES)
    ensures DrainedSoFar(was, Take(before, count), frames + [Frame(Taken(before, count))])
  {
    var done := FRAME_SAMPLES * |frames|;
    assert before.cursor == was.cursor + Min(done, Backlog(was)) && before.end == was.end by {
      TakeFrameRule(was, Min(done, Backlog(was)));
    }
    TakeSplit(was, done, count);
    FramesAppend(Taken(was, done), Taken(before, count), |frames|);
  }

  /** A run of full frames is followed by one more frame. */
  lemma {:induction false} FramesAppend(full: seq<Slot>, last: seq<Slot>, k: nat)
    requires |full| == FRAME_SAMPLES * k && 0 < |last| <= FRAME_SAMPLES
    ensures Frames(full + last) == Frames(full) + [Frame(last)]
    decreases k
  {
    if k == 0 {
      assert full + last == last;
    } else {
      assert (full + last)[FRAME_SAMPLES..] == full[FRAME_SAMPLES..] + last;
      assert (full + last)[..FRAME_SAMPLES] == full[..FRAME_SAMPLES];
      if k == 1 {
        assert full[FRAME_SAMPLES..] + last == last;
        assert full[..FRAME_SAMPLES] == full;
      } else {
        FramesAppend(full[FRAME_SAMPLES..], last, k - 1);
      }
    }
  }
}
