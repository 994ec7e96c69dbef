/**
 What must be heard: packets of the peer are played, a source that has passed its
 probation is taken up, and a renegotiation lets the next source in.
 */
module NetworkProgress {
  import opened Words
  import opened Media
  import opened Addresses
  import opened RtpPackets
  import opened NatPeer
  import opened PlayoutModel
  import opened NetworkModel
  import opened NetworkTheorems
  import Ring = PlayoutTheorems
  import Arrivals = PlayoutArrivals
  import Stun

  /** Where the samples of a packet belong that is played by an endpoint. A first packet
      of a source goes behind everything buffered. */
  function PlaceOf(l: Link, p: Rtp): int {
    if l.buffer.anchor.None? then 0
    else if l.source.None? then l.buffer.Tail()
    else Signed32(Wrap32(p.timestamp - l.buffer.anchor.value))
  }

  lemma TailIsPlace(b: Buffer, timestamp: u32)
    requires b.Valid() && b.anchor.Some? && b.Tail() < TWO_31
    ensures Arrivals.Position(RestartStream(b, timestamp).anchor, timestamp) == b.Tail()
  {
    WrappedDistance(timestamp, b.Tail(), b.Tail());
  }

  lemma PlayLands(l: Link, p: Rtp, decode: Decoder, now: int)
    requires l.buffer.Valid() && p.payload != [] && l.buffer.Tail() < TWO_31
    ensures var at, after := PlaceOf(l, p), Play(l, p, decode, now);
      Arrivals.Lands(l.buffer, Arrivals.Landing(l.buffer, at), at, Decoded(decode, l.codec, p.payload), after.buffer)
  {
    PlaceIsPosition(l, p);
    ReadyLands(l.buffer, Ready(l, p), PlaceOf(l, p), p.timestamp, Decoded(decode, l.codec, p.payload), now);
    PlayInserts(l, p, decode, now);
  }

  /** The buffer that a played packet is put into. */
  function Ready(l: Link, p: Rtp): Buffer {
    if l.source.None? then RestartStream(l.buffer, p.timestamp) else l.buffer
  }

  lemma PlayInserts(l: Link, p: Rtp, decode: Decoder, now: int)
    ensures Play(l, p, decode, now).buffer == Insert(Ready(l, p), p.timestamp, Decoded(decode, l.codec, p.payload), now)
  {
  }

  lemma PlaceIsPosition(l: Link, p: Rtp)
    requires l.buffer.Valid() && l.buffer.Tail() < TWO_31
    ensures Ready(l, p) == l.buffer.(anchor := Ready(l, p).anchor) && Ready(l, p).Valid()
    ensures Arrivals.Position(Ready(l, p).anchor, p.timestamp) == PlaceOf(l, p)
  {
    if l.source.None? && l.buffer.anchor.Some? {
      TailIsPlace(l.buffer, p.timestamp);
    }
  }

  lemma ReadyLands(b: Buffer, ready: Buffer, at: int, timestamp: u32, samples: seq<Sample>, now: int)
    requires ready == b.(anchor := ready.anchor) && ready.Valid() && samples != []
    requires Arrivals.Position(ready.anchor, timestamp) == at
    ensures Arrivals.Lands(b, Arrivals.Landing(b, at), at, samples, Insert(ready, timestamp, samples, now))
  {
    Arrivals.InsertOutcome(ready, timestamp, samples, now);
    LandsAnchored(b, ready, at, samples, Insert(ready, timestamp, samples, now));
  }

  lemma LandsAnchored(b: Buffer, ready: Buffer, at: int, samples: seq<Sample>, after: Buffer)
    requires ready == b.(anchor := ready.anchor)
    requires Arrivals.Lands(ready, Arrivals.Landing(ready, at), at, samples, after)
    ensures Arrivals.Lands(b, Arrivals.Landing(b, at), at, samples, after)
  {
    assert Arrivals.Landing(ready, at) == Arrivals.Landing(b, at);
    LandsAt(b, ready, Arrivals.Landing(b, at), at, samples, after);
  }

  lemma LandsAt(b: Buffer, ready: Buffer, cursor: int, at: int, samples: seq<Sample>, after: Buffer)
    requires ready.delay == b.delay && ready.started == b.started && ready.end == b.end
    requires ready.stored == b.stored && ready.stats == b.stats
    requires Arrivals.Lands(ready, cursor, at, samples, after)
    ensures Arrivals.Lands(b, cursor, at, samples, after)
  {
  }

  /** Every sample of a payload at `at` that falls in the window on a free position is in
      the ring afterwards, at its own. */
  ghost predicate FreeStored(b: Buffer, at: int, payload: seq<byte>, codec: G711, decode: Decoder, after: Buffer) {
    forall q :: at <= q < at + |payload| && after.cursor <= q < after.Limit() && q !in b.stored ==>
      q in after.stored && after.stored[q] == decode(codec, payload[q - at])
  }

  lemma FreeSamplesLand(b: Buffer, cursor: int, at: int, payload: seq<byte>, codec: G711, decode: Decoder, after: Buffer)
    requires Arrivals.Lands(b, cursor, at, Decoded(decode, codec, payload), after)
    ensures after.cursor == cursor && FreeStored(b, at, payload, codec, decode, after)
  {
  }

  lemma PeersPacketGoesOn(l: Link, p: Rtp, decode: Decoder, now: int)
    requires Playable(l.codec, p) && (l.source.None? || l.source == Some(p.ssrc))
    ensures Step(l, Packet(p, l.peer.address, now), decode) == Play(l.(peer := l.peer.(pinned := true)), p, decode, now)
  {
  }

  /** A packet in the negotiated format from the peer's own address, of the selected
      source or when none is selected, is never turned away: its source is, or becomes, the
      selected one, and every sample that falls in the window on a free position is in
      the ring afterwards, at its own. */
  lemma PeersPacketIsPlayed(l: Link, p: Rtp, decode: Decoder, now: int) returns (after: Link)
    requires Valid(l) && Playable(l.codec, p) && (l.source.None? || l.source == Some(p.ssrc)) && l.buffer.Tail() < TWO_31
    ensures after == Step(l, Packet(p, l.peer.address, now), decode)
    ensures after.source == Some(p.ssrc) && after.counters == l.counters && after.lastReceived == now
    ensures after.peer == l.peer.(pinned := true)
    ensures after.buffer.cursor == Arrivals.Landing(l.buffer, PlaceOf(l, p))
    ensures FreeStored(l.buffer, PlaceOf(l, p), p.payload, l.codec, decode, after.buffer)
  {
    PeersPacketGoesOn(l, p, decode, now);
    var known := l.(peer := l.peer.(pinned := true));
    var at := PlaceOf(known, p);
    assert at == PlaceOf(l, p);
    after := Played(known, p, decode, now);
    FreeSamplesLand(l.buffer, Arrivals.Landing(l.buffer, at), at, p.payload, l.codec, decode, after.buffer);
  }

  lemma Played(l: Link, p: Rtp, decode: Decoder, now: int) returns (after: Link)
    requires l.buffer.Valid() && p.payload != [] && l.buffer.Tail() < TWO_31
    ensures after == Play(l, p, decode, now)
    ensures after.source == Some(p.ssrc) && after.counters == l.counters && after.lastReceived == now && after.peer == l.peer
    ensures var at := PlaceOf(l, p);
      Arrivals.Lands(l.buffer, Arrivals.Landing(l.buffer, at), at, Decoded(decode, l.codec, p.payload), after.buffer)
  {
    after := Play(l, p, decode, now);
    PlayLands(l, p, decode, now);
  }

  lemma HeardPacketGoesOn(l: Link, p: Rtp, from: Address, decode: Decoder, now: int)
    requires Playable(l.codec, p) && (l.source.None? || l.source == Some(p.ssrc)) && Judged(l, p, from).1
    ensures Step(l, Packet(p, from, now), decode) == Play(l.(peer := Judged(l, p, from).0), p, decode, now)
  {
  }

  /** The same for a packet that has just taught us the peer's port. */
  lemma LearnedPacketIsPlayed(l: Link, p: Rtp, from: Address, decode: Decoder, now: int) returns (after: Link)
    requires Valid(l) && Playable(l.codec, p) && (l.source.None? || l.source == Some(p.ssrc)) && l.buffer.Tail() < TWO_31
    requires Judged(l, p, from).1
    ensures after == Step(l, Packet(p, from, now), decode)
    ensures after.source == Some(p.ssrc) && after.counters == l.counters && after.peer.address == from
    ensures var at := PlaceOf(l, p);
      Arrivals.Lands(l.buffer, Arrivals.Landing(l.buffer, at), at, Decoded(decode, l.codec, p.payload), after.buffer)
  {
    var known := l.(peer := Judged(l, p, from).0);
    HeardPacketGoesOn(l, p, from, decode, now);
    assert PlaceOf(known, p) == PlaceOf(l, p);
    after := Played(known, p, decode, now);
  }

  // ------------------------------------------------------------- switching

  lemma TwoBefore(candidate: seq<Rtp>, rivals: seq<Rtp>, p: Rtp)
    requires Tracks(candidate, rivals) && Chain(candidate) && |candidate| < 3
    ensures |OnProbation(candidate, p)| == 3 <==> |rivals + [p]| >= 3 && Chain(Last(rivals + [p], 3))
  {
    NoLongerChain(candidate, rivals, p);
    var tried := OnProbation(candidate, p);
    assert Last(rivals + [p], |tried|) == tried;
    if |rivals + [p]| >= 3 && Chain(Last(rivals + [p], 3)) {
      LastChains(rivals + [p], |tried|);
    }
    if |tried| == 3 {
      assert Chain(tried) by {
        TriedIsChain(candidate, p);
      }
    }
  }

  /** The end of a chain of three is a chain as long as it is. */
  lemma LastChains(packets: seq<Rtp>, n: nat)
    requires |packets| >= 3 && Chain(Last(packets, 3)) && 0 < n
    ensures n < 3 ==> Chain(Last(packets, n + 1))
  {
    var three := Last(packets, 3);
    if n == 1 {
      assert Last(packets, 2) == [three[1], three[2]];
      assert Follows(three[1], three[2]);
    }
  }

  /** Over any run, a rival packet brings its source in exactly when it is the third of
      three rival packets consecutive in sequence and sample clock; then the old source
      is retired. */
  lemma SwitchesExactlyAfterThree(l: Link, events: seq<Event>, e: Event, decode: Decoder)
    requires Valid(l) && l.candidate == [] && IsRival(NetworkTheorems.Run(l, events, decode), e)
    ensures var s, rivals := NetworkTheorems.Run(l, events, decode), Rivals(l, events, decode) + [e.p];
      var after := Step(s, e, decode);
      && (after.source == Some(e.p.ssrc) <==> |rivals| >= 3 && Chain(Last(rivals, 3)))
      && (after.source == Some(e.p.ssrc) || after.source == s.source)
      && (after.source == Some(e.p.ssrc) ==> after.retired == s.source)
  {
    var s := NetworkTheorems.Run(l, events, decode);
    RunKeepsValid(l, events, decode);
    CandidateTracksRivals(l, events, decode);
    RivalStep(s, e, decode, Rivals(l, events, decode));
    TwoBefore(s.candidate, Rivals(l, events, decode), e.p);
    RivalOutcome(s, e, decode);
  }

  /** After a change of codec on the same address, the first packet of a new source in the
      new format from the peer takes over at once, behind everything buffered. */
  lemma CodecChangeLetsNextSourceIn(l: Link, codec: G711, p: Rtp, decode: Decoder, changed: int, now: int)
    requires Valid(l) && codec != l.codec && l.source.Some? && l.buffer.Tail() < TWO_31
    requires Playable(codec, p) && l.source != Some(p.ssrc) && l.retired != Some(p.ssrc)
    ensures var updated := Step(l, Update(l.signaled, codec, changed), decode);
      var after := Step(updated, Packet(p, l.peer.address, now), decode);
      && updated.pending && updated.source == l.source && updated.buffer == l.buffer && updated.codec == codec
      && after.source == Some(p.ssrc) && after.retired == l.source && !after.pending
      && Arrivals.Lands(l.buffer, Arrivals.Landing(l.buffer, l.buffer.Tail()), l.buffer.Tail(), Decoded(decode, codec, p.payload), after.buffer)
  {
    var updated := Step(l, Update(l.signaled, codec, changed), decode);
    RestartedLands(l.buffer, p, codec, decode, now);
    InsertOne(RestartStream(l.buffer, p.timestamp), p, codec, decode, now);
  }

  lemma RestartedLands(b: Buffer, p: Rtp, codec: G711, decode: Decoder, now: int)
    requires b.Valid() && b.anchor.Some? && p.payload != [] && b.Tail() < TWO_31
    ensures Arrivals.Lands(b, Arrivals.Landing(b, b.Tail()), b.Tail(), Decoded(decode, codec, p.payload),
                           InsertPacket(RestartStream(b, p.timestamp), p, codec, decode, now))
  {
    TailIsPlace(b, p.timestamp);
    ReadyLands(b, RestartStream(b, p.timestamp), b.Tail(), p.timestamp, Decoded(decode, codec, p.payload), now);
  }

  /** After a change of address the first packet in the format from there is played. */
  lemma NewAddressIsHeard(l: Link, address: Address, codec: G711, p: Rtp, decode: Decoder, changed: int, now: int)
    requires Valid(l) && address != l.signaled && Playable(codec, p) && l.buffer.Tail() < TWO_31
    ensures var updated := Step(l, Update(address, codec, changed), decode);
      var after := Step(updated, Packet(p, address, now), decode);
      && updated.buffer == l.buffer && updated.peer.address == address
      && after.source == Some(p.ssrc) && after.retired == None
      && Arrivals.Lands(l.buffer, Arrivals.Landing(l.buffer, PlaceOf(updated, p)), PlaceOf(updated, p),
                        Decoded(decode, codec, p.payload), after.buffer)
  {
    var updated := Step(l, Update(address, codec, changed), decode);
    UpdateKeepsValid(l, address, codec, changed);
    PlayLands(updated.(peer := updated.peer.(pinned := true)), p, decode, now);
  }

  // ----------------------------------------------------- from datagrams

  predicate IsOurStun(server: Option<Address>, d: Datagram) {
    server == Some(d.from) && Stun.IsStun(d.bytes)
  }

  /** The RTP packets among the datagrams, in order. */
  function PacketsOf(server: Option<Address>, queue: seq<Datagram>): seq<Event>
    decreases |queue|
  {
    if queue == [] then []
    else
      var d, before := queue[|queue| - 1], PacketsOf(server, queue[..|queue| - 1]);
      if IsOurStun(server, d) || Parse(d.bytes).None? then before else before + [Packet(Parse(d.bytes).value, d.from, d.at)]
  }

  function Malformed(server: Option<Address>, queue: seq<Datagram>): nat
    decreases |queue|
  {
    if queue == [] then 0
    else
      var d, before := queue[|queue| - 1], Malformed(server, queue[..|queue| - 1]);
      if IsOurStun(server, d) || Parse(d.bytes).Some? then before else before + 1
  }

  /** The same endpoint, having counted more datagrams. */
  function Counted(l: Link, received: nat, malformed: nat): Link {
    l.(counters := l.counters.(received := l.counters.received + received, malformed := l.counters.malformed + malformed))
  }

  lemma HandlingIgnoresCounts(l: Link, p: Rtp, from: Address, decode: Decoder, now: int, received: nat, malformed: nat)
    ensures Handle(Counted(l, received, malformed), p, from, decode, now) == Counted(Handle(l, p, from, decode, now), received, malformed)
  {
    var m := Counted(l, received, malformed);
    PlayableIsAccepted(l, p, from, decode, now);
    PlayableIsAccepted(m, p, from, decode, now);
    var (peer, ok) := Judged(l, p, from);
    assert Judged(m, p, from) == (peer, ok) && m.(peer := peer) == Counted(l.(peer := peer), received, malformed);
    AcceptingIgnoresCounts(l.(peer := peer), ok, p, decode, now, received, malformed);
  }

  lemma PlayableIsAccepted(l: Link, p: Rtp, from: Address, decode: Decoder, now: int)
    ensures Handle(l, p, from, decode, now) ==
      if Playable(l.codec, p) then Accept(l.(peer := Judged(l, p, from).0), Judged(l, p, from).1, p, decode, now)
      else l.(counters := l.counters.(payload := l.counters.payload + 1))
  {
  }

  /** What is done with a playable packet once the peer is known. */
  function Accept(known: Link, ok: bool, p: Rtp, decode: Decoder, now: int): Link {
    if !ok then known.(counters := known.counters.(peer := known.counters.peer + 1))
    else if known.source.None? || known.source.value == p.ssrc then Play(known, p, decode, now)
    else Compete(Passed(known), p, decode, now)
  }

  /** One packet more of a source that is not the selected one. */
  function Passed(l: Link): Link {
    l.(counters := l.counters.(unselected := l.counters.unselected + 1))
  }

  lemma AcceptingIgnoresCounts(l: Link, ok: bool, p: Rtp, decode: Decoder, now: int, received: nat, malformed: nat)
    ensures Accept(Counted(l, received, malformed), ok, p, decode, now) == Counted(Accept(l, ok, p, decode, now), received, malformed)
  {
    if !ok {
    } else if l.source.None? || l.source.value == p.ssrc {
      PlayingIgnoresCounts(l, p, decode, now, received, malformed);
    } else {
      CompetingIgnoresCounts(Passed(l), p, decode, now, received, malformed);
      assert Passed(Counted(l, received, malformed)) == Counted(Passed(l), received, malformed);
    }
  }

  lemma PlayingIgnoresCounts(l: Link, p: Rtp, decode: Decoder, now: int, received: nat, malformed: nat)
    ensures Play(Counted(l, received, malformed), p, decode, now) == Counted(Play(l, p, decode, now), received, malformed)
  {
  }

  lemma CompetingIgnoresCounts(l: Link, p: Rtp, decode: Decoder, now: int, received: nat, malformed: nat)
    ensures Compete(Counted(l, received, malformed), p, decode, now) == Counted(Compete(l, p, decode, now), received, malformed)
  {
    if l.retired != Some(p.ssrc) {
      if l.pending {
        ReplacingIgnoresCounts(l, p, decode, now, received, malformed);
      } else {
        TryingIgnoresCounts(l, p, decode, now, received, malformed);
      }
    }
  }

  lemma TryingIgnoresCounts(l: Link, p: Rtp, decode: Decoder, now: int, received: nat, malformed: nat)
    requires l.retired != Some(p.ssrc) && !l.pending
    ensures Compete(Counted(l, received, malformed), p, decode, now) == Counted(Compete(l, p, decode, now), received, malformed)
  {
    var tried := l.(candidate := OnProbation(l.candidate, p));
    assert Counted(l, received, malformed).(candidate := tried.candidate) == Counted(tried, received, malformed);
    ReplacingIgnoresCounts(tried, p, decode, now, received, malformed);
  }

  lemma ReplacingIgnoresCounts(l: Link, p: Rtp, decode: Decoder, now: int, received: nat, malformed: nat)
    ensures Replace(Counted(l, received, malformed), p, decode, now) == Counted(Replace(l, p, decode, now), received, malformed)
  {
  }

  /** Of the datagrams queued exactly the RTP packets are handled, each once and in order;
      what cannot be read is counted, and answers of the configured server are not media. */
  lemma {:induction false} QueuedPacketsAreHeard(l: Link, queue: seq<Datagram>, decode: Decoder)
    ensures ArriveAll(l, queue, decode) ==
      Counted(NetworkTheorems.Run(l, PacketsOf(l.server, queue), decode), |PacketsOf(l.server, queue)|, Malformed(l.server, queue))
    decreases |queue|
  {
    if queue != [] {
      var d, rest := queue[|queue| - 1], queue[..|queue| - 1];
      QueuedPacketsAreHeard(l, rest, decode);
      var packets, more := PacketsOf(l.server, rest), PacketsOf(l.server, queue);
      ServerIsKept(l, packets, decode);
      if more != packets {
        RunOneMore(l, packets, decode, more[|packets|]);
      }
      NextIsHeard(NetworkTheorems.Run(l, packets, decode), NetworkTheorems.Run(l, more, decode), d, decode,
                  |packets|, Malformed(l.server, rest), |more|, Malformed(l.server, queue));
    }
  }

  lemma NextIsHeard(before: Link, after: Link, d: Datagram, decode: Decoder, n: nat, bad: nat, m: nat, worse: nat)
    requires if IsOurStun(before.server, d) then after == before && m == n && worse == bad
             else match Parse(d.bytes)
               case None => after == before && m == n && worse == bad + 1
               case Some(p) => after == Step(before, Packet(p, d.from, d.at), decode) && m == n + 1 && worse == bad
    ensures Arrive(Counted(before, n, bad), d, decode) == Counted(after, m, worse)
  {
    OneArrives(before, d, decode, n, bad);
  }

  lemma RunOneMore(l: Link, events: seq<Event>, decode: Decoder, e: Event)
    ensures NetworkTheorems.Run(l, events + [e], decode) == Step(NetworkTheorems.Run(l, events, decode), e, decode)
  {
    assert (events + [e])[..|events + [e]| - 1] == events;
  }

  lemma OneArrives(l: Link, d: Datagram, decode: Decoder, received: nat, malformed: nat)
    ensures var v := Arrive(Counted(l, received, malformed), d, decode);
      v == if IsOurStun(l.server, d) then Counted(l, received, malformed)
           else match Parse(d.bytes)
             case None => Counted(l, received, malformed + 1)
             case Some(p) => Counted(Step(l, Packet(p, d.from, d.at), decode), received + 1, malformed)
  {
    if !IsOurStun(l.server, d) && Parse(d.bytes).Some? {
      PacketArrives(l, d, decode, received, malformed);
    }
  }

  lemma PacketArrives(l: Link, d: Datagram, decode: Decoder, received: nat, malformed: nat)
    requires !IsOurStun(l.server, d) && Parse(d.bytes).Some?
    ensures Arrive(Counted(l, received, malformed), d, decode) ==
      Counted(Step(l, Packet(Parse(d.bytes).value, d.from, d.at), decode), received + 1, malformed)
  {
    PacketIsHandled(Counted(l, received, malformed), d, decode);
    assert Counted(Counted(l, received, malformed), 1, 0) == Counted(l, received + 1, malformed);
    HandlingIgnoresCounts(l, Parse(d.bytes).value, d.from, decode, d.at, received + 1, malformed);
  }

  lemma PacketIsHandled(l: Link, d: Datagram, decode: Decoder)
    requires !IsOurStun(l.server, d) && Parse(d.bytes).Some?
    ensures Arrive(l, d, decode) == Handle(Counted(l, 1, 0), Parse(d.bytes).value, d.from, decode, d.at)
  {
    assert l.(counters := l.counters.(received := l.counters.received + 1)) == Counted(l, 1, 0);
  }

  lemma StepKeepsServer(l: Link, e: Event, decode: Decoder)
    ensures Step(l, e, decode).server == l.server
  {
  }

  lemma {:induction false} ServerIsKept(l: Link, events: seq<Event>, decode: Decoder)
    ensures NetworkTheorems.Run(l, events, decode).server == l.server
    decreases |events|
  {
    if events != [] {
      ServerIsKept(l, events[..|events| - 1], decode);
      StepKeepsServer(NetworkTheorems.Run(l, events[..|events| - 1], decode), events[|events| - 1], decode);
    }
  }
}
