/**
 Which RTP source feeds the playout buffer. A selected source stays selected
 until a codec renegotiation or until another source passes a probation of three
 packets; the source it replaces is retired.
 */
module NetworkModel {
  import opened Words
  import opened Media
  import opened RtpPackets
  import opened NatPeer
  import opened PlayoutModel
  import opened Addresses
  import Stun

  datatype Counters = Counters(received: nat, malformed: nat, payload: nat, peer: nat, unselected: nat)

  datatype Link = Link(
    peer: PeerState,
    signaled: Address,
    symmetric: bool,
    server: Option<Address>,
    codec: G711,
    source: Option<u32>,
    pending: bool,
    retired: Option<u32>,
    candidate: seq<Rtp>,
    buffer: Buffer,
    counters: Counters,
    lastReceived: int)

  function Connected(address: Address, codec: G711, symmetric: bool, server: Option<Address>, delay: nat, now: int): Link {
    Link(PeerState(address, symmetric, false, None), address, symmetric, server, codec, None, false, None, [],
         Empty(delay), Counters(0, 0, 0, 0, 0), now)
  }

  /** A re-INVITE: a new endpoint starts over, a new codec may bring a new source. */
  function UpdateRemote(l: Link, address: Address, codec: G711, now: int): Link {
    if address != l.signaled then
      l.(signaled := address, peer := PeerState(address, l.symmetric, false, None), source := None, pending := false,
         retired := None, candidate := [], lastReceived := now, codec := codec)
    else if codec != l.codec then l.(pending := true, candidate := [], codec := codec)
    else l
  }

  predicate Playable(codec: G711, p: Rtp) {
    p.payloadType == codec.PayloadType() && p.payload != [] && |p.payload| <= 3200
  }

  /** The next packet of the same stream: sequence and sample clock both continue. */
  predicate Follows(previous: Rtp, p: Rtp) {
    && previous.ssrc == p.ssrc
    && p.sequence == Wrap16(previous.sequence + 1)
    && p.timestamp == Wrap32(previous.timestamp + |previous.payload|)
  }

  function OnProbation(candidate: seq<Rtp>, p: Rtp): seq<Rtp> {
    if candidate != [] && !Follows(candidate[|candidate| - 1], p) then [p] else candidate + [p]
  }

  function Judged(l: Link, p: Rtp, from: Address): (PeerState, bool) {
    Judge(l.peer, Arrival(from, p.sequence, p.ssrc))
  }

  function InsertPacket(b: Buffer, p: Rtp, codec: G711, decode: Decoder, now: int): Buffer {
    Insert(b, p.timestamp, Decoded(decode, codec, p.payload), now)
  }

  function InsertPackets(b: Buffer, packets: seq<Rtp>, codec: G711, decode: Decoder, now: int): Buffer {
    if packets == [] then b
    else
      var n := |packets| - 1;
      InsertPacket(InsertPackets(b, packets[..n], codec, decode, now), packets[n], codec, decode, now)
  }

  /** The ordinary path: the packet belongs to the selected (or a first) source. */
  function Play(l: Link, p: Rtp, decode: Decoder, now: int): Link {
    var ready := if l.source.None? then RestartStream(l.buffer, p.timestamp) else l.buffer;
    l.(candidate := [], pending := false, source := Some(p.ssrc),
       buffer := InsertPacket(ready, p, l.codec, decode, now), lastReceived := now)
  }

  function Replace(l: Link, p: Rtp, decode: Decoder, now: int): Link {
    var first := if l.candidate == [] then p.timestamp else l.candidate[0].timestamp;
    var joined := l.(retired := l.source, buffer := RestartStream(l.buffer, first));
    if l.candidate == [] then Play(joined, p, decode, now)
    else
      joined.(candidate := [], source := Some(p.ssrc), lastReceived := now,
              buffer := InsertPackets(joined.buffer, l.candidate, l.codec, decode, now))
  }

  function Handle(l: Link, p: Rtp, from: Address, decode: Decoder, now: int): Link {
    if !Playable(l.codec, p) then l.(counters := l.counters.(payload := l.counters.payload + 1)) else
    var (peer, ok) := Judged(l, p, from);
    var known := l.(peer := peer);
    if !ok then known.(counters := l.counters.(peer := l.counters.peer + 1))
    else if l.source.None? || l.source.value == p.ssrc then Play(known, p, decode, now)
    else Compete(known.(counters := l.counters.(unselected := l.counters.unselected + 1)), p, decode, now)
  }

  function Compete(l: Link, p: Rtp, decode: Decoder, now: int): Link {
    if l.retired == Some(p.ssrc) then l
    else if l.pending then Replace(l, p, decode, now)
    else
      var tried := l.(candidate := OnProbation(l.candidate, p));
      if |tried.candidate| < 3 then tried else Replace(tried, p, decode, now)
  }

  datatype Datagram = Datagram(bytes: seq<byte>, from: Address, at: int)

  /** A STUN message from the configured server is not media. */
  function Arrive(l: Link, d: Datagram, decode: Decoder): Link {
    if l.server == Some(d.from) && Stun.IsStun(d.bytes) then l
    else match Parse(d.bytes)
      case None => l.(counters := l.counters.(malformed := l.counters.malformed + 1))
      case Some(p) => Handle(l.(counters := l.counters.(received := l.counters.received + 1)), p, d.from, decode, d.at)
  }

  function ArriveAll(l: Link, queue: seq<Datagram>, decode: Decoder): Link {
    if queue == [] then l else Arrive(ArriveAll(l, queue[..|queue| - 1], decode), queue[|queue| - 1], decode)
  }

  // ------------------------------------------------------------ invariant

  ghost predicate Chain(packets: seq<Rtp>) {
    forall i :: 0 < i < |packets| ==> Follows(packets[i - 1], packets[i])
  }

  ghost predicate Valid(l: Link) {
    && l.buffer.Valid()
    && Chain(l.candidate) && |l.candidate| < 3
    && (l.source.Some? ==> l.buffer.anchor.Some?)
    && (l.source.None? ==> l.candidate == [] && l.retired == None)
    && (l.pending ==> l.candidate == [])
    && (l.source.Some? ==> l.retired != l.source)
    && (forall i :: 0 <= i < |l.candidate| ==>
          l.source != Some(l.candidate[i].ssrc) && l.retired != Some(l.candidate[i].ssrc)
          && Playable(l.codec, l.candidate[i]))
  }
}
