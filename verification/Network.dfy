/** The RTP endpoint of one call, updated in place as datagrams and re-INVITEs arrive. */
module Network {
  import opened Words
  import opened Media
  import opened RtpPackets
  import opened NatPeer
  import opened Addresses
  import Stun
  import opened PlayoutModel
  import opened NetworkModel
  import Ring = PlayoutRing
  import Theorems = NetworkTheorems

  class AudioNetwork {
    const decode: Decoder
    const encode: Encoder
    const symmetric: bool
    const server: Option<Address>
    const ssrc: u32
    var peer: Peer
    var signaled: Address
    var codec: G711
    var sequence: u16
    var timestamp: u32
    var source: Option<u32>
    var pending: bool
    var retired: Option<u32>
    var candidate: seq<Rtp>
    var counters: Counters
    const playout: Ring.Playout
    var lastReceived: int

    ghost function View(): Link
      reads this, peer, playout
    {
      Link(peer.View(), signaled, symmetric, server, codec, source, pending, retired, candidate,
           playout.View(), counters, lastReceived)
    }

    ghost predicate Valid()
      reads this, peer, playout, playout.samples
    {
      && playout.Valid() && playout.decode == decode
      && NetworkModel.Valid(View())
    }

    constructor (address: Address, codec: G711, symmetric: bool, server: Option<Address>, ring: Ring.Playout,
                 encode: Encoder, random: (u16, u32, u32), ghost delay: nat, now: int)
      requires ring.Valid() && ring.View() == Empty(delay)
      ensures Valid() && View() == Connected(address, codec, symmetric, server, delay, now)
      ensures playout == ring && fresh(peer)
      ensures sequence == random.0 && timestamp == random.1 && ssrc == random.2 && this.encode == encode
    {
      this.decode := ring.decode;
      this.encode := encode;
      peer := new Peer(address, symmetric);
      signaled := address;
      this.symmetric := symmetric;
      this.server := server;
      this.codec := codec;
      sequence, timestamp, ssrc := random.0, random.1, random.2;
      source, pending, retired, candidate := None, false, None, [];
      counters := Counters(0, 0, 0, 0, 0);
      playout := ring;
      lastReceived := now;
    }

    method UpdateRemote(address: Address, newCodec: G711, now: int)
      requires Valid()
      modifies this`peer, this`signaled, this`source, this`pending, this`retired, this`candidate, this`lastReceived, this`codec
      ensures Valid() && View() == NetworkModel.UpdateRemote(old(View()), address, newCodec, now)
      ensures peer == old(peer) || fresh(peer)
    {
      if address != signaled {
        signaled := address;
        peer := new Peer(address, symmetric);
        source := None;
        pending := false;
        retired := None;
        candidate := [];
        lastReceived := now;
      } else if newCodec != codec {
        pending := true;
        candidate := [];
      }
      codec := newCodec;
      Theorems.UpdateKeepsValid(old(View()), address, newCodec, now);
    }

    /** One outgoing frame: the modem clock never restarts, whatever is renegotiated,
        and a frame the socket refuses does not use up a sequence number. */
    method Send(samples: seq<Sample>, writable: bool) returns (packet: Option<seq<byte>>)
      requires |samples| == FRAME_SAMPLES
      modifies this`sequence, this`timestamp
      ensures packet.Some? <==> writable
      ensures !writable ==> sequence == old(sequence) && timestamp == old(timestamp)
      ensures writable ==>
        && sequence == Wrap16(old(sequence) + 1) && timestamp == Wrap32(old(timestamp) + FRAME_SAMPLES)
        && Parse(packet.value)
             == Some(Rtp(codec.PayloadType(), old(sequence), old(timestamp), ssrc, Encoded(encode, codec, samples)))
    {
      var payload := Encoded(encode, codec, samples);
      var bytes := [0x80, codec.PayloadType()] + Write16(sequence) + Write32(timestamp) + Write32(ssrc) + payload;
      if !writable {
        return None;
      }
      ParsePlain(Rtp(codec.PayloadType(), sequence, timestamp, ssrc, payload));
      sequence := Wrap16(sequence + 1);
      timestamp := Wrap32(timestamp + FRAME_SAMPLES);
      return Some(bytes);
    }

    method InsertPacket(p: Rtp, now: int)
      requires playout.Valid() && playout.decode == decode
      modifies playout, playout.samples
      ensures playout.Valid()
      ensures playout.View() == NetworkModel.InsertPacket(old(playout.View()), p, codec, decode, now)
    {
      playout.Insert(p.timestamp, p.payload, codec, now);
    }

    method InsertPackets(packets: seq<Rtp>, now: int)
      requires playout.Valid() && playout.decode == decode
      modifies playout, playout.samples
      ensures playout.Valid()
      ensures playout.View() == NetworkModel.InsertPackets(old(playout.View()), packets, codec, decode, now)
    {
      for i := 0 to |packets|
        invariant playout.Valid()
        invariant playout.View() == NetworkModel.InsertPackets(old(playout.View()), packets[..i], codec, decode, now)
      {
        InsertPacket(packets[i], now);
        assert packets[..i + 1][..i] == packets[..i];
      }
      assert packets[..|packets|] == packets;
    }

    /** Take up the packet's source, replacing the selected one if there is one. */
    method Replace(p: Rtp, now: int)
      requires playout.Valid() && playout.decode == decode
      modifies this`retired, this`candidate, this`source, this`lastReceived, this`pending, playout, playout.samples
      ensures playout.Valid()
      ensures View() == NetworkModel.Replace(old(View()), p, decode, now)
    {
      retired := source;
      var first := if candidate == [] then p.timestamp else candidate[0].timestamp;
      playout.RestartStream(first);
      if candidate == [] {
        Play(p, now);
        return;
      }
      InsertPackets(candidate, now);
      candidate := [];
      source := Some(p.ssrc);
      lastReceived := now;
    }

    method Play(p: Rtp, now: int)
      requires playout.Valid() && playout.decode == decode
      modifies this`candidate, this`source, this`lastReceived, this`pending, playout, playout.samples
      ensures playout.Valid()
      ensures View() == NetworkModel.Play(old(View()), p, decode, now)
    {
      candidate := [];
      if source.None? {
        playout.RestartStream(p.timestamp);
      }
      pending := false;
      source := Some(p.ssrc);
      InsertPacket(p, now);
      lastReceived := now;
    }

    method Handle(p: Rtp, from: Address, now: int)
      requires Valid()
      modifies this, peer, playout, playout.samples
      ensures peer == old(peer) && playout.Valid()
      ensures View() == NetworkModel.Handle(old(View()), p, from, decode, now)
    {
      if p.payloadType != codec.PayloadType() || p.payload == [] || |p.payload| > 3200 {
        counters := counters.(payload := counters.payload + 1);
        return;
      }
      var accepted := peer.Accept(from, p.sequence, p.ssrc);
      if !accepted {
        counters := counters.(peer := counters.peer + 1);
        return;
      }
      if source.Some? && source.value != p.ssrc {
        counters := counters.(unselected := counters.unselected + 1);
        Compete(p, now);
        return;
      }
      Play(p, now);
    }

    /** A packet of another source: ignored, put on probation, or the end of it. */
    method Compete(p: Rtp, now: int)
      requires playout.Valid() && playout.decode == decode
      modifies this`retired, this`candidate, this`source, this`lastReceived, this`pending, playout, playout.samples
      ensures playout.Valid()
      ensures View() == NetworkModel.Compete(old(View()), p, decode, now)
    {
      if retired == Some(p.ssrc) {
        return;
      }
      if !pending {
        if candidate != [] && !Follows(candidate[|candidate| - 1], p) {
          candidate := [];
        }
        candidate := candidate + [p];
        if |candidate| < 3 {
          return;
        }
      }
      Replace(p, now);
    }

    /** Up to 64 queued datagrams per turn. */
    method ReceivePackets(queue: seq<Datagram>) returns (taken: nat)
      requires Valid()
      modifies this, peer, playout, playout.samples
      ensures Valid() && peer == old(peer)
      ensures taken == Min(|queue|, 64)
      ensures View() == ArriveAll(old(View()), queue[..taken], decode)
    {
      taken := 0;
      while taken < 64 && taken < |queue|
        invariant taken <= |queue| && taken <= 64
        invariant Valid() && peer == old(peer)
        invariant View() == ArriveAll(old(View()), queue[..taken], decode)
      {
        ReceivePacket(queue[taken]);
        assert queue[..taken + 1][..taken] == queue[..taken];
        taken := taken + 1;
      }
    }

    /** One turn of the receiver: the queued datagrams, then a frame if it is due. */
    method Receive(queue: seq<Datagram>, now: int) returns (frame: Option<seq<Sample>>, taken: nat)
      requires Valid()
      modifies this, peer, playout, playout.samples
      ensures Valid() && peer == old(peer) && taken == Min(|queue|, 64)
      ensures var heard := ArriveAll(old(View()), queue[..taken], decode);
        && View() == Theorems.Step(heard, Theorems.Received(now), decode)
        && frame == if Due(heard.buffer, now) then Some(Frame(Taken(heard.buffer, FRAME_SAMPLES))) else None
    {
      taken := ReceivePackets(queue);
      ghost var heard := View();
      frame := playout.Receive(now);
      Theorems.StepKeepsValid(heard, Theorems.Received(now), decode);
    }

    /** At the end of a call: the queued datagrams, then everything still buffered. */
    method Drain(queue: seq<Datagram>) returns (frames: seq<seq<Sample>>, taken: nat)
      requires Valid()
      modifies this, peer, playout, playout.samples
      ensures Valid() && peer == old(peer) && taken == Min(|queue|, 64)
      ensures var heard := ArriveAll(old(View()), queue[..taken], decode);
        && View() == Theorems.Step(heard, Theorems.Drained, decode)
        && frames == Frames(Taken(heard.buffer, Backlog(heard.buffer)))
    {
      taken := ReceivePackets(queue);
      ghost var heard := View();
      frames := playout.Drain();
      Theorems.StepKeepsValid(heard, Theorems.Drained, decode);
    }

    method ReceivePacket(d: Datagram)
      requires Valid()
      modifies this, peer, playout, playout.samples
      ensures Valid() && peer == old(peer)
      ensures View() == Arrive(old(View()), d, decode)
    {
      if server == Some(d.from) && Stun.IsStun(d.bytes) {
        return;
      }
      var parsed := Parse(d.bytes);
      if parsed.None? {
        counters := counters.(malformed := counters.malformed + 1);
        return;
      }
      counters := counters.(received := counters.received + 1);
      HandleValid(parsed.value, d.from, d.at);
    }

    method HandleValid(p: Rtp, from: Address, now: int)
      requires Valid()
      modifies this, peer, playout, playout.samples
      ensures Valid() && peer == old(peer)
      ensures View() == NetworkModel.Handle(old(View()), p, from, decode, now)
    {
      Handle(p, from, now);
      Theorems.HandleKeepsValid(old(View()), p, from, decode, now);
    }
  }

  /** The packets of successive `Send` calls. */
  function SentStream(codec: G711, sequence: u16, timestamp: u32, ssrc: u32, payloads: seq<seq<byte>>): (r: seq<Rtp>)
    ensures |r| == |payloads|
    ensures r != [] ==> r[0] == Rtp(codec.PayloadType(), sequence, timestamp, ssrc, payloads[0])
    decreases |payloads|
  {
    if payloads == [] then []
    else
      var rest := SentStream(codec, Wrap16(sequence + 1), Wrap32(timestamp + FRAME_SAMPLES), ssrc, payloads[1..]);
      [Rtp(codec.PayloadType(), sequence, timestamp, ssrc, payloads[0])] + rest
  }

  /** The stream this endpoint sends always passes the peer's own probation test,
      across every wrap of the sequence number and of the timestamp. */
  lemma {:induction false} SentStreamPassesProbation(
      codec: G711, sequence: u16, timestamp: u32, ssrc: u32, payloads: seq<seq<byte>>)
    requires forall i :: 0 <= i < |payloads| ==> |payloads[i]| == FRAME_SAMPLES
    ensures Chain(SentStream(codec, sequence, timestamp, ssrc, payloads))
    decreases |payloads|
  {
    if |payloads| > 1 {
      var rest := SentStream(codec, Wrap16(sequence + 1), Wrap32(timestamp + FRAME_SAMPLES), ssrc, payloads[1..]);
      SentStreamPassesProbation(codec, Wrap16(sequence + 1), Wrap32(timestamp + FRAME_SAMPLES), ssrc, payloads[1..]);
      var all := SentStream(codec, sequence, timestamp, ssrc, payloads);
      forall i | 0 < i < |all|
        ensures Follows(all[i - 1], all[i])
      {
        assert all[i] == rest[i - 1];
      }
    }
  }
}
