/** Learning the media peer's port behind a NAT, from its own packets only. */
module NatPeer {
  import opened Words
  import opened Addresses

  /** The endpoint being tried, its last sequence number, its stream and its run length. */
  datatype Probe = Probe(source: Address, sequence: u16, stream: u32, count: nat)

  datatype PeerState = PeerState(address: Address, enabled: bool, pinned: bool, candidate: Option<Probe>)

  datatype Arrival = Arrival(source: Address, sequence: u16, stream: u32)

  function Extends(candidate: Option<Probe>, a: Arrival): bool {
    candidate.Some? && candidate.value.source == a.source && candidate.value.stream == a.stream
    && a.sequence == Wrap16(candidate.value.sequence + 1)
  }

  /** A packet that may compete for the peer address: same host, another port. */
  predicate Contends(p: PeerState, a: Arrival) {
    a.source != p.address && p.enabled && !p.pinned && a.source.ip == p.address.ip
  }

  function Judge(p: PeerState, a: Arrival): (PeerState, bool) {
    if a.source == p.address then (p.(pinned := true), true)
    else if !Contends(p, a) then (p, false)
    else
      var count := if Extends(p.candidate, a) then p.candidate.value.count + 1 else 1;
      var tried := p.(candidate := Some(Probe(a.source, a.sequence, a.stream, count)));
      if count < 3 then (tried, false) else (tried.(address := a.source, pinned := true), true)
  }

  class Peer {
    var address: Address
    const enabled: bool
    var pinned: bool
    var candidate: Option<Probe>

    function View(): PeerState
      reads this
    {
      PeerState(address, enabled, pinned, candidate)
    }

    constructor (address: Address, enabled: bool)
      ensures View() == PeerState(address, enabled, false, None)
    {
      this.address := address;
      this.enabled := enabled;
      pinned := false;
      candidate := None;
    }

    method Accept(source: Address, sequence: u16, stream: u32) returns (accepted: bool)
      modifies this
      ensures (View(), accepted) == Judge(old(View()), Arrival(source, sequence, stream))
    {
      if source == address {
        pinned := true;
        return true;
      }
      if !enabled || pinned || source.ip != address.ip {
        return false;
      }
      var count := 1;
      if candidate.Some? && candidate.value.source == source && candidate.value.stream == stream
         && sequence == Wrap16(candidate.value.sequence + 1) {
        count := candidate.value.count + 1;
      }
      candidate := Some(Probe(source, sequence, stream, count));
      if count < 3 {
        return false;
      }
      address := source;
      pinned := true;
      return true;
    }
  }

  // -------------------------------------------------------------- whole runs

  function Run(p: PeerState, arrivals: seq<Arrival>): PeerState {
    if arrivals == [] then p
    else Judge(Run(p, arrivals[..|arrivals| - 1]), arrivals[|arrivals| - 1]).0
  }

  /** The competing packets of a run, in order. */
  function Contenders(p: PeerState, arrivals: seq<Arrival>): seq<Arrival> {
    if arrivals == [] then []
    else
      var earlier := arrivals[..|arrivals| - 1];
      var last := arrivals[|arrivals| - 1];
      if Contends(Run(p, earlier), last) then Contenders(p, earlier) + [last] else Contenders(p, earlier)
  }

  /** The peer's host never changes, and a pinned address is final. */
  lemma {:induction false} HostIsFixedAndPinIsFinal(p: PeerState, arrivals: seq<Arrival>)
    ensures Run(p, arrivals).address.ip == p.address.ip
    ensures p.pinned ==> Run(p, arrivals).pinned && Run(p, arrivals).address == p.address
    ensures Run(p, arrivals).enabled == p.enabled
    ensures !p.enabled ==> Run(p, arrivals).address == p.address
  {
    if arrivals != [] {
      HostIsFixedAndPinIsFinal(p, arrivals[..|arrivals| - 1]);
    }
  }

  /** The next packet of the same stream, from the same place. */
  predicate Next(a: Arrival, b: Arrival) {
    b.source == a.source && b.stream == a.stream && b.sequence == Wrap16(a.sequence + 1)
  }

  /** A run of arrivals of one stream with consecutive sequence numbers. */
  ghost predicate Consecutive(run: seq<Arrival>) {
    forall i :: 0 < i < |run| ==> Next(run[i - 1], run[i])
  }

  function Last<T>(s: seq<T>, n: nat): seq<T>
    requires n <= |s|
  {
    s[|s| - n..]
  }

  /** A candidate describes the latest competing packets. */
  ghost predicate Describes(candidate: Option<Probe>, rivals: seq<Arrival>) {
    match candidate
    case None => rivals == []
    case Some(probe) =>
      && 0 < probe.count <= |rivals|
      && Consecutive(Last(rivals, probe.count))
      && rivals[|rivals| - 1] == Arrival(probe.source, probe.sequence, probe.stream)
      && NoLonger(rivals, probe.count)
  }

  /** The run does not reach further back. */
  ghost predicate NoLonger(rivals: seq<Arrival>, count: nat)
    requires count <= |rivals|
  {
    count == |rivals| || !Consecutive(Last(rivals, count + 1))
  }

  lemma LastExtends(rivals: seq<Arrival>, a: Arrival, count: nat)
    requires 0 < count <= |rivals| && Consecutive(Last(rivals, count))
    requires Next(rivals[|rivals| - 1], a)
    ensures Consecutive(Last(rivals + [a], count + 1))
  {
    var run := Last(rivals, count);
    assert Last(rivals + [a], count + 1) == run + [a];
    assert run[|run| - 1] == rivals[|rivals| - 1];
  }

  lemma NoLongerWith(rivals: seq<Arrival>, a: Arrival, count: nat)
    requires count <= |rivals| && NoLonger(rivals, count)
    ensures NoLonger(rivals + [a], count + 1)
  {
    if count < |rivals| {
      var before, after := Last(rivals, count + 1), Last(rivals + [a], count + 2);
      assert after == before + [a];
      var i :| 0 < i < |before| && !Next(before[i - 1], before[i]);
      assert !Next(after[i - 1], after[i]);
    }
  }

  lemma DescribesStep(p: PeerState, rivals: seq<Arrival>, a: Arrival)
    requires Describes(p.candidate, rivals) && Contends(p, a)
    ensures Describes(Judge(p, a).0.candidate, rivals + [a])
  {
    if Extends(p.candidate, a) {
      LastExtends(rivals, a, p.candidate.value.count);
      NoLongerWith(rivals, a, p.candidate.value.count);
    } else {
      assert Last(rivals + [a], 1) == [a];
      assert rivals != [] ==> Last(rivals + [a], 2) == [rivals[|rivals| - 1], a];
    }
  }

  lemma RecentStep(p: PeerState, rivals: seq<Arrival>, a: Arrival)
    requires !p.pinned ==> Describes(p.candidate, rivals)
    ensures var q := Judge(p, a).0;
      !q.pinned ==> !p.pinned && q.address == p.address && Describes(q.candidate, if Contends(p, a) then rivals + [a] else rivals)
    ensures var q := Judge(p, a).0;
      !q.pinned && (p.candidate.Some? ==> p.candidate.value.count < 3) ==> (q.candidate.Some? ==> q.candidate.value.count < 3)
  {
    if Contends(p, a) {
      DescribesStep(p, rivals, a);
    }
  }

  lemma {:induction false} CandidateIsRecent(p: PeerState, arrivals: seq<Arrival>)
    requires !p.pinned && p.candidate == None
    ensures !Run(p, arrivals).pinned ==>
      Run(p, arrivals).address == p.address && Describes(Run(p, arrivals).candidate, Contenders(p, arrivals))
    ensures !Run(p, arrivals).pinned && Run(p, arrivals).candidate.Some? ==> Run(p, arrivals).candidate.value.count < 3
  {
    if arrivals != [] {
      var earlier, last := arrivals[..|arrivals| - 1], arrivals[|arrivals| - 1];
      CandidateIsRecent(p, earlier);
      RecentStep(Run(p, earlier), Contenders(p, earlier), last);
    }
  }

  lemma AdoptionStep(p: PeerState, rivals: seq<Arrival>, a: Arrival)
    requires Describes(p.candidate, rivals) && Judge(p, a).0.address != p.address
    ensures |rivals + [a]| >= 3 && Consecutive(Last(rivals + [a], 3))
    ensures Contends(p, a) && Judge(p, a).0.address == a.source
  {
    var run := Last(rivals, p.candidate.value.count);
    assert Last(run, 2) == Last(rivals, 2);
    assert Last(rivals + [a], 3) == Last(rivals, 2) + [a];
    assert Last(rivals, 2)[1] == rivals[|rivals| - 1];
  }

  /** A port other than the signalled one is adopted only after three competing
      packets in a row from it, of one stream and consecutive in sequence. */
  lemma PortIsLearnedFromThreePackets(p: PeerState, arrivals: seq<Arrival>, a: Arrival)
    requires !p.pinned && p.candidate == None
    requires Judge(Run(p, arrivals), a).0.address != Run(p, arrivals).address
    ensures var rivals := Contenders(p, arrivals + [a]);
      |rivals| >= 3 && Consecutive(Last(rivals, 3)) && rivals[|rivals| - 1] == a
    ensures Judge(Run(p, arrivals), a).0.address == a.source && a.source.ip == p.address.ip
  {
    CandidateIsRecent(p, arrivals);
    HostIsFixedAndPinIsFinal(p, arrivals);
    assert (arrivals + [a])[..|arrivals|] == arrivals;
    AdoptionStep(Run(p, arrivals), Contenders(p, arrivals), a);
  }

  lemma Three(rivals: seq<Arrival>, a: Arrival)
    requires |rivals| >= 2
    ensures Last(rivals + [a], 3) == [rivals[|rivals| - 2], rivals[|rivals| - 1], a]
    ensures Consecutive(Last(rivals + [a], 3)) <==> Next(rivals[|rivals| - 2], rivals[|rivals| - 1]) && Next(rivals[|rivals| - 1], a)
  {
    var three := [rivals[|rivals| - 2], rivals[|rivals| - 1], a];
    assert Last(rivals + [a], 3) == three;
    assert Consecutive(three) ==> Next(three[0], three[1]) && Next(three[1], three[2]);
  }

  lemma Two(rivals: seq<Arrival>)
    requires |rivals| >= 2
    ensures Consecutive(Last(rivals, 2)) <==> Next(rivals[|rivals| - 2], rivals[|rivals| - 1])
  {
    var two := [rivals[|rivals| - 2], rivals[|rivals| - 1]];
    assert Last(rivals, 2) == two;
    assert Consecutive(two) ==> Next(two[0], two[1]);
  }

  /** A run of two is on record exactly when the latest two are consecutive. */
  lemma TwoOnRecord(candidate: Option<Probe>, rivals: seq<Arrival>)
    requires Describes(candidate, rivals) && (candidate.Some? ==> candidate.value.count < 3)
    ensures candidate.Some? && candidate.value.count == 2 <==> |rivals| >= 2 && Consecutive(Last(rivals, 2))
  {
  }

  lemma ThirdInARow(candidate: Option<Probe>, rivals: seq<Arrival>, a: Arrival)
    requires Describes(candidate, rivals) && (candidate.Some? ==> candidate.value.count < 3)
    ensures (Extends(candidate, a) && candidate.value.count == 2)
      <==> |rivals + [a]| >= 3 && Consecutive(Last(rivals + [a], 3))
  {
    TwoOnRecord(candidate, rivals);
    if |rivals| >= 2 {
      Two(rivals);
      Three(rivals, a);
      assert Extends(candidate, a) <==> Next(rivals[|rivals| - 1], a);
    }
  }

  /** Over any arrivals, exactly these are heard: one from the current address, and the
      third in a row, of one stream and consecutive in sequence, from one other port of
      the same host, while ports are learned and none is pinned. And exactly what is heard
      from another port moves the address there. */
  lemma HeardExactly(p: PeerState, arrivals: seq<Arrival>, a: Arrival)
    requires !p.pinned && p.candidate == None
    ensures var q, row := Run(p, arrivals), Contenders(p, arrivals) + [a];
      var (after, heard) := Judge(q, a);
      && (heard <==>
          || a.source == q.address
          || (p.enabled && !q.pinned && a.source != q.address && a.source.ip == p.address.ip
              && |row| >= 3 && Consecutive(Last(row, 3))))
      && after.address == (if heard then a.source else q.address)
      && (heard ==> after.pinned)
  {
    var q := Run(p, arrivals);
    CandidateIsRecent(p, arrivals);
    HostIsFixedAndPinIsFinal(p, arrivals);
    if Contends(q, a) {
      ThirdInARow(q.candidate, Contenders(p, arrivals), a);
    }
  }

  ghost predicate HeardAt(p: PeerState, arrivals: seq<Arrival>, k: nat) {
    k < |arrivals| && Judge(Run(p, arrivals[..k]), arrivals[k]).1
  }

  /** An address is pinned exactly when something has been heard. */
  lemma {:induction false} PinnedOnceHeard(p: PeerState, arrivals: seq<Arrival>)
    requires !p.pinned
    ensures Run(p, arrivals).pinned <==> exists k: nat :: HeardAt(p, arrivals, k)
  {
    if arrivals != [] {
      var n := |arrivals| - 1;
      PinnedOnceHeard(p, arrivals[..n]);
      if k: nat :| HeardAt(p, arrivals[..n], k) {
        assert arrivals[..n][..k] == arrivals[..k];
        assert HeardAt(p, arrivals, k);
      }
      if k: nat :| HeardAt(p, arrivals, k) {
        if k < n {
          assert arrivals[..n][..k] == arrivals[..k];
          assert HeardAt(p, arrivals[..n], k);
        }
      }
      assert HeardAt(p, arrivals, n) <==> Judge(Run(p, arrivals[..n]), arrivals[n]).1;
    }
  }
}
