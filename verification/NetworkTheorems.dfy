/** Source selection over whole runs of packets and re-INVITEs. */
module NetworkTheorems {
  import opened Words
  import opened Media
  import opened RtpPackets
  import opened NatPeer
  import opened Addresses
  import opened PlayoutModel
  import opened NetworkModel
  import Ring = PlayoutTheorems

  datatype Event =
    | Packet(p: Rtp, from: Address, now: int)
    | Update(address: Address, codec: G711, now: int)
    | Received(now: int)
    | Drained

  function Step(l: Link, e: Event, decode: Decoder): Link {
    match e
    case Packet(p, from, now) => Handle(l, p, from, decode, now)
    case Update(address, codec, now) => UpdateRemote(l, address, codec, now)
    case Received(now) => l.(buffer := Receive(l.buffer, now))
    case Drained => l.(buffer := Drain(l.buffer))
  }

  function Run(l: Link, events: seq<Event>, decode: Decoder): Link {
    if events == [] then l else Step(Run(l, events[..|events| - 1], decode), events[|events| - 1], decode)
  }

  /** Accepted by the peer check and in the negotiated format. */
  predicate Eligible(l: Link, p: Rtp, from: Address) {
    Playable(l.codec, p) && Judged(l, p, from).1
  }

  /** An eligible packet of a source that is neither selected nor retired, while
      no codec renegotiation is outstanding. */
  predicate IsRival(l: Link, e: Event) {
    e.Packet? && Eligible(l, e.p, e.from) && l.source.Some? && !l.pending
    && l.source != Some(e.p.ssrc) && l.retired != Some(e.p.ssrc)
  }

  /** An accepted packet of the selected source, or a re-INVITE that changes the media. */
  predicate Restores(l: Link, e: Event) {
    match e
    case Packet(p, from, _) => Eligible(l, p, from) && l.source == Some(p.ssrc)
    case Update(address, codec, _) => address != l.signaled || codec != l.codec
    case _ => false
  }

  /** The rival packets since the selected source was last heard or last changed. */
  function Rivals(l: Link, events: seq<Event>, decode: Decoder): seq<Rtp> {
    if events == [] then []
    else
      var earlier, e := events[..|events| - 1], events[|events| - 1];
      var before := Run(l, earlier, decode);
      if Restores(before, e) || Step(before, e, decode).source != before.source then []
      else if IsRival(before, e) then Rivals(l, earlier, decode) + [e.p]
      else Rivals(l, earlier, decode)
  }

  // ------------------------------------------------------------ invariant

  lemma InsertPacketKeepsValid(b: Buffer, p: Rtp, codec: G711, decode: Decoder, now: int)
    requires b.Valid()
    ensures InsertPacket(b, p, codec, decode, now).Valid()
    ensures b.anchor.Some? || p.payload != [] ==> InsertPacket(b, p, codec, decode, now).anchor.Some?
  {
    InsertFacts(b, p.timestamp, Decoded(decode, codec, p.payload), now);
  }

  lemma {:induction false} InsertPacketsKeepValid(b: Buffer, packets: seq<Rtp>, codec: G711, decode: Decoder, now: int)
    requires b.Valid() && b.anchor.Some?
    ensures InsertPackets(b, packets, codec, decode, now).Valid()
    ensures InsertPackets(b, packets, codec, decode, now).anchor.Some?
  {
    if packets != [] {
      var n := |packets| - 1;
      InsertPacketsKeepValid(b, packets[..n], codec, decode, now);
      InsertPacketKeepsValid(InsertPackets(b, packets[..n], codec, decode, now), packets[n], codec, decode, now);
    }
  }

  lemma PlayKeepsValid(l: Link, p: Rtp, decode: Decoder, now: int)
    requires l.buffer.Valid() && p.payload != [] && l.retired != Some(p.ssrc)
    ensures Valid(Play(l, p, decode, now))
  {
    InsertPacketKeepsValid(RestartStream(l.buffer, p.timestamp), p, l.codec, decode, now);
    InsertPacketKeepsValid(l.buffer, p, l.codec, decode, now);
  }

  lemma ReplaceKeepsValid(l: Link, p: Rtp, decode: Decoder, now: int)
    requires l.buffer.Valid() && l.buffer.anchor.Some? && p.payload != []
    requires l.source.Some? && l.source != Some(p.ssrc) && (l.pending ==> l.candidate == [])
    ensures Valid(Replace(l, p, decode, now))
  {
    var first := if l.candidate == [] then p.timestamp else l.candidate[0].timestamp;
    var joined := l.(retired := l.source, buffer := RestartStream(l.buffer, first));
    if l.candidate == [] {
      PlayKeepsValid(joined, p, decode, now);
    } else {
      InsertPacketsKeepValid(joined.buffer, l.candidate, l.codec, decode, now);
    }
  }

  lemma CompeteKeepsValid(l: Link, p: Rtp, decode: Decoder, now: int)
    requires Valid(l) && Playable(l.codec, p) && l.source.Some? && l.source != Some(p.ssrc)
    ensures Valid(Compete(l, p, decode, now))
  {
    if l.retired != Some(p.ssrc) {
      if l.pending {
        ReplaceKeepsValid(l, p, decode, now);
      } else {
        var tried := l.(candidate := OnProbation(l.candidate, p));
        if |tried.candidate| >= 3 {
          ReplaceKeepsValid(tried, p, decode, now);
        }
      }
    }
  }

  /** Neither what is known of the peer nor the counters matter to the invariant. */
  lemma ValidIgnores(l: Link, peer: PeerState, counters: Counters)
    requires Valid(l)
    ensures Valid(l.(peer := peer, counters := counters))
  {
  }

  lemma HandleKeepsValid(l: Link, p: Rtp, from: Address, decode: Decoder, now: int)
    requires Valid(l)
    ensures Valid(Handle(l, p, from, decode, now))
  {
    var (peer, ok) := Judged(l, p, from);
    if !Playable(l.codec, p) {
      ValidIgnores(l, l.peer, Handle(l, p, from, decode, now).counters);
    } else if !ok {
      ValidIgnores(l, peer, Handle(l, p, from, decode, now).counters);
    } else if l.source.None? || l.source.value == p.ssrc {
      ValidIgnores(l, peer, l.counters);
      PlayKeepsValid(l.(peer := peer), p, decode, now);
    } else {
      var counters := l.counters.(unselected := l.counters.unselected + 1);
      ValidIgnores(l, peer, counters);
      CompeteKeepsValid(l.(peer := peer, counters := counters), p, decode, now);
    }
  }

  lemma UpdateKeepsValid(l: Link, address: Address, codec: G711, now: int)
    requires Valid(l)
    ensures Valid(UpdateRemote(l, address, codec, now))
  {
  }

  lemma StepKeepsValid(l: Link, e: Event, decode: Decoder)
    requires Valid(l)
    ensures Valid(Step(l, e, decode))
  {
    match e
    case Packet(p, from, now) => HandleKeepsValid(l, p, from, decode, now);
    case Update(address, codec, now) => UpdateKeepsValid(l, address, codec, now);
    case Received(now) => PlayoutKeepsValid(l, Op.Received(now));
    case Drained => PlayoutKeepsValid(l, Op.Drained);
  }

  lemma PlayoutKeepsValid(l: Link, op: Op)
    requires Valid(l) && (op.Received? || op.Drained?)
    ensures Valid(l.(buffer := Apply(l.buffer, op)))
  {
    ApplyKeepsValid(l.buffer, op);
    match op
    case Received(now) => TakeFrameRule(Started(l.buffer), FRAME_SAMPLES);
    case Drained => TakeFrameRule(l.buffer, Backlog(l.buffer));
  }

  lemma {:induction false} RunKeepsValid(l: Link, events: seq<Event>, decode: Decoder)
    requires Valid(l)
    ensures Valid(Run(l, events, decode))
  {
    if events != [] {
      RunKeepsValid(l, events[..|events| - 1], decode);
      StepKeepsValid(Run(l, events[..|events| - 1], decode), events[|events| - 1], decode);
    }
  }

  // ------------------------------------------------ replacing a source

  /** The candidate packets are the latest rivals, as far back as they are consecutive. */
  ghost predicate Tracks(candidate: seq<Rtp>, rivals: seq<Rtp>) {
    && |candidate| <= |rivals| && Last(rivals, |candidate|) == candidate
    && (|candidate| == |rivals| || !Chain(Last(rivals, |candidate| + 1)))
  }

  lemma NoLongerChain(candidate: seq<Rtp>, rivals: seq<Rtp>, p: Rtp)
    requires Tracks(candidate, rivals)
    ensures Tracks(OnProbation(candidate, p), rivals + [p])
  {
    var tried := OnProbation(candidate, p);
    assert Last(rivals + [p], |tried|) == tried;
    if rivals != [] {
      assert Chain(Last(rivals, 1)) && candidate != [];
      if |tried| == 1 {
        assert Last(rivals + [p], 2) == [rivals[|rivals| - 1], p];
        assert !Chain([rivals[|rivals| - 1], p]) by {
          assert !Follows([rivals[|rivals| - 1], p][0], [rivals[|rivals| - 1], p][1]);
        }
      } else if |candidate| < |rivals| {
        ChainWith(Last(rivals, |candidate| + 1), p);
        assert Last(rivals + [p], |tried| + 1) == Last(rivals, |candidate| + 1) + [p];
      }
    }
  }

  lemma ChainWith(packets: seq<Rtp>, p: Rtp)
    ensures Chain(packets + [p]) ==> Chain(packets)
  {
    if Chain(packets + [p]) {
      forall i | 0 < i < |packets|
        ensures Follows(packets[i - 1], packets[i])
      {
        assert Follows((packets + [p])[i - 1], (packets + [p])[i]);
      }
    }
  }

  lemma TriedIsChain(candidate: seq<Rtp>, p: Rtp)
    requires Chain(candidate)
    ensures Chain(OnProbation(candidate, p))
  {
  }

  lemma RivalOutcome(l: Link, e: Event, decode: Decoder)
    requires Valid(l) && IsRival(l, e)
    ensures var tried, after := OnProbation(l.candidate, e.p), Step(l, e, decode);
      if |tried| < 3 then after.source == l.source && after.candidate == tried
      else |tried| == 3 && after.source == Some(e.p.ssrc) && after.retired == l.source
  {
  }

  lemma RivalStep(l: Link, e: Event, decode: Decoder, rivals: seq<Rtp>)
    requires Valid(l) && IsRival(l, e) && Tracks(l.candidate, rivals)
    ensures Tracks(OnProbation(l.candidate, e.p), rivals + [e.p])
    ensures Chain(OnProbation(l.candidate, e.p))
    ensures |OnProbation(l.candidate, e.p)| < 3 ==>
      Step(l, e, decode).candidate == OnProbation(l.candidate, e.p) && Step(l, e, decode).source == l.source
    ensures |OnProbation(l.candidate, e.p)| == 3 ==> Step(l, e, decode).source == Some(e.p.ssrc)
  {
    NoLongerChain(l.candidate, rivals, e.p);
    TriedIsChain(l.candidate, e.p);
    RivalOutcome(l, e, decode);
  }

  lemma QuietStep(l: Link, e: Event, decode: Decoder)
    requires Valid(l) && !IsRival(l, e) && !Restores(l, e) && Step(l, e, decode).source == l.source
    ensures Step(l, e, decode).candidate == l.candidate
  {
  }

  lemma ResetStep(l: Link, e: Event, decode: Decoder)
    requires Valid(l) && (Restores(l, e) || Step(l, e, decode).source != l.source)
    ensures Step(l, e, decode).candidate == []
  {
  }

  lemma {:induction false} CandidateTracksRivals(l: Link, events: seq<Event>, decode: Decoder)
    requires Valid(l) && l.candidate == []
    ensures Tracks(Run(l, events, decode).candidate, Rivals(l, events, decode))
  {
    if events != [] {
      var earlier, e := events[..|events| - 1], events[|events| - 1];
      CandidateTracksRivals(l, earlier, decode);
      RunKeepsValid(l, earlier, decode);
      var before := Run(l, earlier, decode);
      if Restores(before, e) || Step(before, e, decode).source != before.source {
        ResetStep(before, e, decode);
      } else if IsRival(before, e) {
        RivalStep(before, e, decode, Rivals(l, earlier, decode));
      } else {
        QuietStep(before, e, decode);
      }
    }
  }

  /** Outside a renegotiation the selected source changes only to the source of a
      rival packet, and only when the probation of three is complete. */
  lemma SwitchIsByRival(l: Link, e: Event, decode: Decoder)
    requires Valid(l) && l.source.Some? && !l.pending
    requires Step(l, e, decode).source != l.source && Step(l, e, decode).source.Some?
    ensures IsRival(l, e) && |OnProbation(l.candidate, e.p)| == 3
    ensures Step(l, e, decode).source == Some(e.p.ssrc) && Step(l, e, decode).retired == l.source
  {
  }

  /** Over any run, a source is replaced without a codec renegotiation only by three
      rival packets in a row, consecutive in sequence number and sample clock, of
      one other source, with no accepted packet of the old source among them. */
  lemma SwitchNeedsProbation(l: Link, events: seq<Event>, e: Event, decode: Decoder)
    requires Valid(l) && l.candidate == []
    requires var s := Run(l, events, decode);
      s.source.Some? && !s.pending && Step(s, e, decode).source.Some? && Step(s, e, decode).source != s.source
    ensures e.Packet? && IsRival(Run(l, events, decode), e)
    ensures var rivals := Rivals(l, events, decode) + [e.p];
      |rivals| >= 3 && Chain(Last(rivals, 3))
    ensures Step(Run(l, events, decode), e, decode).source == Some(e.p.ssrc)
  {
    var s := Run(l, events, decode);
    RunKeepsValid(l, events, decode);
    CandidateTracksRivals(l, events, decode);
    SwitchIsByRival(s, e, decode);
    RivalStep(s, e, decode, Rivals(l, events, decode));
  }

  // --------------------------------------------------- the retired source

  predicate ChangesEndpoint(l: Link, e: Event) {
    e.Update? && e.address != l.signaled
  }

  lemma RetiredStaysOut(l: Link, e: Event, decode: Decoder)
    requires Valid(l) && l.source.Some? && l.retired.Some? && !ChangesEndpoint(l, e)
    ensures var after := Step(l, e, decode);
      || (after.source == l.source && after.retired == l.retired)
      || (after.source.Some? && after.source != l.source && after.source != l.retired && after.retired == l.source)
  {
  }

  /** Event k ends the reign of the initial source: a change of endpoint, or a
      switch to a source that is neither it nor the retired one. */
  ghost predicate Departs(l: Link, events: seq<Event>, k: nat, decode: Decoder) {
    k < |events| &&
    var before := Run(l, events[..k], decode);
    var after := Step(before, events[k], decode);
    || ChangesEndpoint(before, events[k])
    || (before.source == l.source && after.source.Some? && after.source != l.source && after.source != l.retired)
  }

  lemma {:induction false} ReignUntilDeparture(l: Link, events: seq<Event>, decode: Decoder)
    requires Valid(l) && l.source.Some? && l.retired.Some?
    ensures var s := Run(l, events, decode);
      (s.source == l.source && s.retired == l.retired) || exists k: nat :: Departs(l, events, k, decode)
  {
    if events != [] {
      var n := |events| - 1;
      var earlier := events[..n];
      ReignUntilDeparture(l, earlier, decode);
      var s := Run(l, earlier, decode);
      if s.source == l.source && s.retired == l.retired {
        RunKeepsValid(l, earlier, decode);
        if !ChangesEndpoint(s, events[n]) {
          RetiredStaysOut(s, events[n], decode);
        }
        assert Departs(l, events, n, decode) || Run(l, events, decode).source == l.source;
      } else {
        var k: nat :| Departs(l, earlier, k, decode);
        assert earlier[..k] == events[..k];
        assert Departs(l, events, k, decode);
      }
    }
  }

  /** Once replaced, a source is heard again only after a further switch to a third
      source or after a change of endpoint. */
  lemma RetiredReturnsOnlyAfterDeparture(l: Link, events: seq<Event>, decode: Decoder)
    requires Valid(l) && l.source.Some? && l.retired.Some?
    requires Run(l, events, decode).source == l.retired
    ensures exists k: nat :: Departs(l, events, k, decode)
  {
    ReignUntilDeparture(l, events, decode);
  }

  // ------------------------------------------------------ lossless splice

  function Sampled(p: Rtp, codec: G711, decode: Decoder): Ring.Packet {
    Ring.Packet(p.timestamp, Decoded(decode, codec, p.payload))
  }

  function AllSampled(packets: seq<Rtp>, codec: G711, decode: Decoder): (r: seq<Ring.Packet>)
    ensures |r| == |packets|
    ensures forall i :: 0 <= i < |packets| ==> r[i] == Sampled(packets[i], codec, decode)
  {
    seq(|packets|, i requires 0 <= i < |packets| => Sampled(packets[i], codec, decode))
  }

  lemma {:induction false} InsertPacketsIsInsertAll(b: Buffer, packets: seq<Rtp>, codec: G711, decode: Decoder, now: int)
    ensures InsertPackets(b, packets, codec, decode, now) == Ring.InsertAll(b, AllSampled(packets, codec, decode), now)
  {
    if packets != [] {
      var n := |packets| - 1;
      InsertPacketsIsInsertAll(b, packets[..n], codec, decode, now);
      assert AllSampled(packets, codec, decode)[..n] == AllSampled(packets[..n], codec, decode);
    }
  }

  lemma ChainIsContiguous(packets: seq<Rtp>, codec: G711, decode: Decoder)
    requires Chain(packets)
    ensures Ring.Contiguous(AllSampled(packets, codec, decode))
  {
    var sampled := AllSampled(packets, codec, decode);
    forall i | 0 < i < |sampled|
      ensures sampled[i].timestamp == Wrap32(sampled[i - 1].timestamp + |sampled[i - 1].samples|)
    {
      assert Follows(packets[i - 1], packets[i]);
    }
  }

  lemma SwitchSplices(l: Link, e: Event, decode: Decoder)
    requires Valid(l) && IsRival(l, e) && |OnProbation(l.candidate, e.p)| == 3
    ensures Step(l, e, decode).buffer
         == Ring.Splice(l.buffer, AllSampled(OnProbation(l.candidate, e.p), l.codec, decode), e.now)
  {
    var packets := OnProbation(l.candidate, e.p);
    InsertPacketsIsInsertAll(RestartStream(l.buffer, packets[0].timestamp), packets, l.codec, decode, e.now);
  }

  /** The audio is stored from the tail on as far as the window reaches, and all of it
      exactly when it fits; clock and window stay. */
  ghost predicate JoinsTail(b: Buffer, after: Buffer, audio: seq<Sample>) {
    && after.cursor == b.cursor && after.next == b.next
    && after.stored == b.stored + Accepted(b.stored, b.cursor, b.Limit(), b.Tail(), audio)
    && after.stats == b.stats.(overflow := b.stats.overflow + Between(b.Tail() + |audio| - b.Limit(), |audio|))
    && (b.Tail() + |audio| <= b.Limit() <==>
          (after.stored == b.stored + Ring.Located(b.Tail(), audio) && after.stats == b.stats))
  }

  /** The samples of the three probation packets join the buffered tail without a
      gap: they are stored from the first free position on, as far as the window
      reaches, no sample is late or duplicate, no buffered sample changes, and the
      playout clock keeps running. Nothing is lost if and only if they fit. */
  lemma ProbationSpliceIsLossless(l: Link, e: Event, decode: Decoder)
    requires Valid(l) && l.source.Some? && !l.pending
    requires Step(l, e, decode).source != l.source && Step(l, e, decode).source.Some?
    requires l.buffer.Tail() + 9600 <= TWO_31
    ensures e.Packet? && JoinsTail(l.buffer, Step(l, e, decode).buffer, Ring.Audio(AllSampled(OnProbation(l.candidate, e.p), l.codec, decode)))
  {
    SwitchIsByRival(l, e, decode);
    var packets := OnProbation(l.candidate, e.p);
    RivalStep(l, e, decode, l.candidate);
    SwitchSplices(l, e, decode);
    ChainJoinsTail(l.buffer, packets, l.codec, decode, e.now);
  }

  lemma ChainJoinsTail(b: Buffer, packets: seq<Rtp>, codec: G711, decode: Decoder, now: int)
    requires b.Valid() && b.anchor.Some? && b.Tail() + 9600 <= TWO_31
    requires Chain(packets) && |packets| == 3 && forall i :: 0 <= i < 3 ==> Playable(codec, packets[i])
    ensures var sampled := AllSampled(packets, codec, decode); JoinsTail(b, Ring.Splice(b, sampled, now), Ring.Audio(sampled))
  {
    var sampled := AllSampled(packets, codec, decode);
    ChainIsContiguous(packets, codec, decode);
    ProbationAudioIsBounded(packets, codec, decode);
    Ring.SpliceJoinsTail(b, sampled, now);
    Ring.SpliceIsLosslessIffItFits(b, sampled, now);
  }

  lemma ProbationAudioIsBounded(packets: seq<Rtp>, codec: G711, decode: Decoder)
    requires |packets| == 3 && forall i :: 0 <= i < 3 ==> Playable(codec, packets[i])
    ensures 0 < |Ring.Audio(AllSampled(packets, codec, decode))| <= 9600
  {
    var sampled := AllSampled(packets, codec, decode);
    assert sampled[..2][..1] == sampled[..1] && sampled[..1][..0] == [];
    assert |Ring.Audio(sampled[..1])| == |packets[0].payload|;
    assert |Ring.Audio(sampled[..2])| == |packets[0].payload| + |packets[1].payload|;
  }

  // ------------------------------------------- what the ring goes through

  function Inserts(packets: seq<Rtp>, codec: G711, decode: Decoder, now: int): seq<Op> {
    if packets == [] then []
    else
      var p := packets[|packets| - 1];
      Inserts(packets[..|packets| - 1], codec, decode, now) + [Inserted(p.timestamp, Decoded(decode, codec, p.payload), now)]
  }

  function JoinOps(packets: seq<Rtp>, codec: G711, decode: Decoder, now: int): seq<Op>
    requires packets != []
  {
    [Restarted(packets[0].timestamp)] + Inserts(packets, codec, decode, now)
  }

  function PlayOps(l: Link, p: Rtp, decode: Decoder, now: int): seq<Op> {
    if l.source.None? then JoinOps([p], l.codec, decode, now) else Inserts([p], l.codec, decode, now)
  }

  function CompeteOps(l: Link, p: Rtp, decode: Decoder, now: int): seq<Op> {
    if l.retired == Some(p.ssrc) then []
    else
      var packets := if l.pending then [p] else OnProbation(l.candidate, p);
      if !l.pending && |packets| < 3 then []
      else JoinOps(packets, l.codec, decode, now)
  }

  /** The steps of the ring in one step of the endpoint. */
  function OpsOf(l: Link, e: Event, decode: Decoder): seq<Op> {
    match e
    case Packet(p, from, now) =>
      if !Eligible(l, p, from) then []
      else if l.source.None? || l.source.value == p.ssrc then PlayOps(l, p, decode, now)
      else CompeteOps(l, p, decode, now)
    case Update(_, _, _) => []
    case Received(now) => [Op.Received(now)]
    case Drained => [Op.Drained]
  }

  function History(l: Link, events: seq<Event>, decode: Decoder): seq<Op> {
    if events == [] then []
    else
      var earlier := events[..|events| - 1];
      History(l, earlier, decode) + OpsOf(Run(l, earlier, decode), events[|events| - 1], decode)
  }

  lemma OneOp(b: Buffer, op: Op)
    ensures PlayoutModel.Run(b, [op]) == Apply(b, op)
    ensures PlayoutModel.Run(b, []) == b
  {
    assert [op][..0] == [];
  }

  lemma {:induction false} InsertsRun(b: Buffer, packets: seq<Rtp>, codec: G711, decode: Decoder, now: int)
    ensures PlayoutModel.Run(b, Inserts(packets, codec, decode, now)) == InsertPackets(b, packets, codec, decode, now)
  {
    if packets != [] {
      var n := |packets| - 1;
      InsertsRun(b, packets[..n], codec, decode, now);
      assert Inserts(packets, codec, decode, now)[..|Inserts(packets, codec, decode, now)| - 1] == Inserts(packets[..n], codec, decode, now);
    }
  }

  lemma JoinRun(b: Buffer, packets: seq<Rtp>, codec: G711, decode: Decoder, now: int)
    requires packets != []
    ensures PlayoutModel.Run(b, JoinOps(packets, codec, decode, now))
      == InsertPackets(RestartStream(b, packets[0].timestamp), packets, codec, decode, now)
  {
    var timestamp := packets[0].timestamp;
    OneOp(b, Restarted(timestamp));
    Ring.RunJoins(b, [Restarted(timestamp)], Inserts(packets, codec, decode, now));
    InsertsRun(RestartStream(b, timestamp), packets, codec, decode, now);
  }

  lemma InsertOne(b: Buffer, p: Rtp, codec: G711, decode: Decoder, now: int)
    ensures InsertPackets(b, [p], codec, decode, now) == InsertPacket(b, p, codec, decode, now)
  {
    assert [p][..0] == [];
  }

  lemma PlayIsOps(l: Link, p: Rtp, decode: Decoder, now: int)
    ensures Play(l, p, decode, now).buffer == PlayoutModel.Run(l.buffer, PlayOps(l, p, decode, now))
  {
    if l.source.None? {
      JoinRun(l.buffer, [p], l.codec, decode, now);
      InsertOne(RestartStream(l.buffer, p.timestamp), p, l.codec, decode, now);
    } else {
      InsertsRun(l.buffer, [p], l.codec, decode, now);
      InsertOne(l.buffer, p, l.codec, decode, now);
    }
  }

  lemma ReplaceInserts(l: Link, p: Rtp, decode: Decoder, now: int)
    requires l.source.Some?
    ensures var packets := if l.candidate == [] then [p] else l.candidate;
      Replace(l, p, decode, now).buffer
      == InsertPackets(RestartStream(l.buffer, packets[0].timestamp), packets, l.codec, decode, now)
  {
    if l.candidate == [] {
      InsertOne(RestartStream(l.buffer, p.timestamp), p, l.codec, decode, now);
    }
  }

  lemma CompeteIsOps(l: Link, p: Rtp, decode: Decoder, now: int)
    requires Valid(l) && l.source.Some?
    ensures Compete(l, p, decode, now).buffer == PlayoutModel.Run(l.buffer, CompeteOps(l, p, decode, now))
  {
    if l.retired != Some(p.ssrc) {
      var packets := if l.pending then [p] else OnProbation(l.candidate, p);
      JoinRun(l.buffer, packets, l.codec, decode, now);
      if l.pending {
        ReplaceInserts(l, p, decode, now);
      } else {
        ReplaceInserts(l.(candidate := packets), p, decode, now);
      }
    }
  }

  lemma SameBuffer(l: Link, known: Link, p: Rtp, decode: Decoder, now: int)
    requires known == l.(peer := known.peer, counters := known.counters)
    ensures PlayOps(known, p, decode, now) == PlayOps(l, p, decode, now)
    ensures CompeteOps(known, p, decode, now) == CompeteOps(l, p, decode, now)
  {
  }

  lemma StepIsOps(l: Link, e: Event, decode: Decoder)
    requires Valid(l)
    ensures Step(l, e, decode).buffer == PlayoutModel.Run(l.buffer, OpsOf(l, e, decode))
  {
    match e
    case Packet(p, from, now) =>
      if Eligible(l, p, from) {
        var known := l.(peer := Judged(l, p, from).0);
        if l.source.None? || l.source.value == p.ssrc {
          SameBuffer(l, known, p, decode, now);
          PlayIsOps(known, p, decode, now);
        } else {
          var counted := known.(counters := l.counters.(unselected := l.counters.unselected + 1));
          SameBuffer(l, counted, p, decode, now);
          CompeteIsOps(counted, p, decode, now);
        }
      }
    case Update(_, _, _) =>
    case Received(now) => OneOp(l.buffer, Op.Received(now));
    case Drained => OneOp(l.buffer, Op.Drained);
  }

  /** Whatever an endpoint goes through, its ring goes through a run of its own, so
      conservation, order and clock hold on every run of the endpoint. */
  lemma {:induction false} RingRunsUnderneath(l: Link, events: seq<Event>, decode: Decoder)
    requires Valid(l)
    ensures Run(l, events, decode).buffer == PlayoutModel.Run(l.buffer, History(l, events, decode))
  {
    if events != [] {
      var earlier := events[..|events| - 1];
      var before := Run(l, earlier, decode);
      RingRunsUnderneath(l, earlier, decode);
      RunKeepsValid(l, earlier, decode);
      StepIsOps(before, events[|events| - 1], decode);
      Ring.RunJoins(l.buffer, History(l, earlier, decode), OpsOf(before, events[|events| - 1], decode));
    }
  }

  /** Through renegotiations and switches of source, a buffered sample stays as it is
      until it is played at its own position. */
  lemma BufferedAudioSurvives(l: Link, events: seq<Event>, decode: Decoder, p: int)
    requires Valid(l) && p in l.buffer.stored
    ensures var after := Run(l, events, decode).buffer;
      || (p in after.stored && after.stored[p] == l.buffer.stored[p])
      || Slot(p, Some(l.buffer.stored[p])) in Emitted(l.buffer, History(l, events, decode))
  {
    RingRunsUnderneath(l, events, decode);
    Ring.BufferedSamplesSurvive(l.buffer, History(l, events, decode), p);
  }

  // ---------------------------------------------------- a call of bounded length

  /** A call is ended after thirty minutes; twice that leaves room for its last turn. */
  const CALL_LIMIT := 60 * 60 * 1000

  /** A call drains its ring when it ends, in at most two places. */
  const DRAIN_LIMIT := 1000

  ghost predicate Within(events: seq<Event>, from: int, to: int) {
    forall i :: 0 <= i < |events| ==> Timely(events[i], from, to)
  }

  predicate Timely(e: Event, from: int, to: int) {
    e.Packet? || e.Received? ==> from <= e.now <= to
  }

  function Drains(events: seq<Event>): nat {
    if events == [] then 0 else Drains(events[..|events| - 1]) + if events[|events| - 1].Drained? then 1 else 0
  }

  lemma {:induction false} InsertsWithin(packets: seq<Rtp>, codec: G711, decode: Decoder, now: int, from: int, to: int)
    requires from <= now <= to
    ensures Ring.Within(Inserts(packets, codec, decode, now), from, to)
    ensures Ring.Drains(Inserts(packets, codec, decode, now)) == 0
  {
    if packets != [] {
      var n := |packets| - 1;
      InsertsWithin(packets[..n], codec, decode, now, from, to);
      var ops := Inserts(packets, codec, decode, now);
      assert ops[..|ops| - 1] == Inserts(packets[..n], codec, decode, now);
    }
  }

  lemma JoinWithin(packets: seq<Rtp>, codec: G711, decode: Decoder, now: int, from: int, to: int)
    requires packets != [] && from <= now <= to
    ensures Ring.Within(JoinOps(packets, codec, decode, now), from, to)
    ensures Ring.Drains(JoinOps(packets, codec, decode, now)) == 0
  {
    var restart := [Restarted(packets[0].timestamp)];
    assert restart[..0] == [] && restart[0].Restarted?;
    InsertsWithin(packets, codec, decode, now, from, to);
    Ring.WithinJoins(restart, Inserts(packets, codec, decode, now), from, to);
    Ring.DrainsJoin(restart, Inserts(packets, codec, decode, now));
  }

  lemma PlayOpsWithin(l: Link, p: Rtp, decode: Decoder, now: int, from: int, to: int)
    requires from <= now <= to
    ensures Ring.Within(PlayOps(l, p, decode, now), from, to) && Ring.Drains(PlayOps(l, p, decode, now)) == 0
  {
    InsertsWithin([p], l.codec, decode, now, from, to);
    JoinWithin([p], l.codec, decode, now, from, to);
  }

  lemma CompeteOpsWithin(l: Link, p: Rtp, decode: Decoder, now: int, from: int, to: int)
    requires from <= now <= to
    ensures Ring.Within(CompeteOps(l, p, decode, now), from, to) && Ring.Drains(CompeteOps(l, p, decode, now)) == 0
  {
    JoinWithin(if l.pending then [p] else OnProbation(l.candidate, p), l.codec, decode, now, from, to);
  }

  lemma OpsWithin(l: Link, e: Event, decode: Decoder, from: int, to: int)
    requires Timely(e, from, to)
    ensures Ring.Within(OpsOf(l, e, decode), from, to)
    ensures Ring.Drains(OpsOf(l, e, decode)) == if e.Drained? then 1 else 0
  {
    match e
    case Packet(p, _, now) =>
      PlayOpsWithin(l, p, decode, now, from, to);
      CompeteOpsWithin(l, p, decode, now, from, to);
    case Update(_, _, _) =>
    case Received(now) => assert [Op.Received(now)][..0] == [];
    case Drained => assert [Op.Drained][..0] == [];
  }

  lemma {:induction false} HistoryWithin(l: Link, events: seq<Event>, decode: Decoder, from: int, to: int)
    requires Within(events, from, to)
    ensures Ring.Within(History(l, events, decode), from, to)
    ensures Ring.Drains(History(l, events, decode)) == Drains(events)
  {
    if events != [] {
      var earlier, e := events[..|events| - 1], events[|events| - 1];
      HistoryWithin(l, earlier, decode, from, to);
      var before, ops := History(l, earlier, decode), OpsOf(Run(l, earlier, decode), e, decode);
      OpsWithin(Run(l, earlier, decode), e, decode, from, to);
      Ring.WithinJoins(before, ops, from, to);
      Ring.DrainsJoin(before, ops);
    }
  }

  /** A new endpoint as a call builds it. */
  ghost predicate IsNew(l: Link, delay: nat) {
    Valid(l) && l.buffer == Empty(delay)
  }

  lemma ConnectedIsNew(address: Address, codec: G711, symmetric: bool, server: Option<Address>, delay: nat, now: int)
    ensures IsNew(Connected(address, codec, symmetric, server, delay, now), delay)
  {
  }

  /** Within the time of a call no position comes near 2^31, so every 32-bit distance
      the ring takes at a switch is exact. */
  lemma PositionsFitACall(l: Link, delay: nat, events: seq<Event>, decode: Decoder, from: int, to: int)
    requires IsNew(l, delay) && delay <= 1000
    requires Within(events, from, to) && from <= to <= from + CALL_LIMIT && Drains(events) <= DRAIN_LIMIT
    ensures 0 <= Run(l, events, decode).buffer.Tail() && Run(l, events, decode).buffer.Tail() + 9600 <= TWO_31
  {
    var ops := History(l, events, decode);
    RingRunsUnderneath(l, events, decode);
    HistoryWithin(l, events, decode, from, to);
    Ring.PositionsFollowClock(delay, ops, from, to);
    assert Empty(delay).Capacity() <= 16000;
    assert Empty(delay).Capacity() * (Ring.Drains(ops) + 1) <= 16000 * 1001 by {
      TimesMonotone(Empty(delay).Capacity(), 16000, Ring.Drains(ops) + 1);
      TimesMonotone(Ring.Drains(ops) + 1, 1001, 16000);
    }
  }

  /** In any call, at any switch to another source, the three probation packets join the
      buffered tail: no sample is late or duplicate, no buffered one changes, the clock
      runs on, and nothing is lost if and only if they fit. */
  lemma SwitchesAreLossless(l: Link, delay: nat, events: seq<Event>, e: Event, decode: Decoder, from: int, to: int)
    requires IsNew(l, delay) && delay <= 1000
    requires Within(events, from, to) && from <= to <= from + CALL_LIMIT && Drains(events) <= DRAIN_LIMIT
    requires var s := Run(l, events, decode);
      s.source.Some? && !s.pending && Step(s, e, decode).source.Some? && Step(s, e, decode).source != s.source
    ensures var s := Run(l, events, decode);
      e.Packet? && JoinsTail(s.buffer, Step(s, e, decode).buffer, Ring.Audio(AllSampled(OnProbation(s.candidate, e.p), s.codec, decode)))
  {
    RunKeepsValid(l, events, decode);
    PositionsFitACall(l, delay, events, decode, from, to);
    ProbationSpliceIsLossless(Run(l, events, decode), e, decode);
  }
}
