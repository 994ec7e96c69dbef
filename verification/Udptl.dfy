/**
 Sending T.38 packets with redundancy: each datagram repeats as many of the latest
 packets as the peer's datagram limit allows. The encoding is foreign; it is a size.
 */
module Udptl {
  import opened Words

  type Payload = seq<byte>

  /** The primary packet and the redundant ones, newest first. */
  datatype Datagram = Datagram(sequence: u16, primary: Payload, redundancy: seq<Payload>)

  type SizeOf = (Payload, seq<Payload>) -> nat

  const REDUNDANCY := 3

  /** The latest packets before position `n` of what was sent, newest first. */
  function Recent(sent: seq<Payload>, n: nat): (r: seq<Payload>)
    ensures |r| == Min(n, |sent|)
    ensures forall j :: 0 <= j < |r| ==> r[j] == sent[|sent| - 1 - j]
    decreases n
  {
    if n == 0 || sent == [] then [] else [sent[|sent| - 1]] + Recent(sent[..|sent| - 1], n - 1)
  }

  /** The most redundancy, up to `n` packets, with which the datagram fits. */
  function Fitting(size: SizeOf, primary: Payload, recent: seq<Payload>, n: nat, limit: nat): (r: Option<nat>)
    requires n <= |recent|
    ensures r.Some? ==> r.value <= n && size(primary, recent[..r.value]) <= limit
    ensures r.Some? ==> forall k :: r.value < k <= n ==> size(primary, recent[..k]) > limit
    ensures r.None? ==> forall k :: 0 <= k <= n ==> size(primary, recent[..k]) > limit
    decreases n
  {
    if size(primary, recent[..n]) <= limit then Some(n)
    else if n == 0 then None
    else Fitting(size, primary, recent, n - 1, limit)
  }

  function Repetitions(requested: int): (n: nat)
    ensures 1 <= n <= 6
  {
    if requested < 1 then 1 else if requested > 6 then 6 else requested
  }

  /** What was sent so far, and the datagrams it was sent in. */
  datatype Log = Log(sent: seq<Payload>, wire: seq<Datagram>)

  /** One packet is sent with all the redundancy that fits, or refused. */
  function Sent(log: Log, size: SizeOf, payload: Payload, limit: nat): Log {
    var recent := Recent(log.sent, REDUNDANCY);
    match Fitting(size, payload, recent, |recent|, limit)
    case None => log
    case Some(n) => Log(log.sent + [payload], log.wire + [Datagram(Wrap16(|log.sent|), payload, recent[..n])])
  }

  function SendAll(size: SizeOf, payloads: seq<Payload>, limit: nat): Log {
    if payloads == [] then Log([], [])
    else Sent(SendAll(size, payloads[..|payloads| - 1], limit), size, payloads[|payloads| - 1], limit)
  }

  class PacketNetwork {
    const limit: nat
    var sequence: u16
    var history: seq<Payload>
    var transmittedBytes: nat
    ghost var log: Log

    /** The number counts the datagrams, and the latest packets are remembered. */
    ghost predicate Valid()
      reads this
    {
      sequence == Wrap16(|log.sent|) && history == Last(log.sent)
    }

    constructor (limit: nat)
      ensures Valid() && log == Log([], []) && this.limit == limit && transmittedBytes == 0
    {
      this.limit := limit;
      sequence, history, transmittedBytes, log := 0, [], 0, Log([], []);
    }

    /** The datagram with the most redundancy that fits, or none at all. */
    method Envelope(size: SizeOf, payload: Payload) returns (d: Option<Datagram>)
      requires Valid()
      ensures var recent := Recent(log.sent, REDUNDANCY);
        var n := Fitting(size, payload, recent, |recent|, limit);
        d == if n.Some? then Some(Datagram(sequence, payload, recent[..n.value])) else None
      ensures d.None? <==> Oversized(size, payload, Recent(log.sent, REDUNDANCY), limit)
    {
      NoneFits(size, payload, Recent(log.sent, REDUNDANCY), limit);
      var redundancy := Newest(history);
      ghost var recent := redundancy;
      while size(payload, redundancy) > limit
        invariant |redundancy| <= |recent| && redundancy == recent[..|redundancy|]
        invariant Fitting(size, payload, recent, |redundancy|, limit) == Fitting(size, payload, recent, |recent|, limit)
        decreases |redundancy|
      {
        if redundancy == [] {
          return None;
        }
        redundancy := redundancy[..|redundancy| - 1];
      }
      d := Some(Datagram(sequence, payload, redundancy));
    }

    /** `history`, newest first. */
    method Newest(history: seq<Payload>) returns (recent: seq<Payload>)
      requires history == Last(log.sent)
      ensures recent == Recent(log.sent, REDUNDANCY)
    {
      recent := seq(|history|, i requires 0 <= i < |history| => history[|history| - 1 - i]);
      ghost var r := Recent(log.sent, REDUNDANCY);
      assert forall j :: 0 <= j < |r| ==> recent[j] == r[j];
    }

    /** Only the latest packets are remembered. */
    method Remember(payload: Payload)
      requires |history| <= REDUNDANCY
      modifies `history
      ensures history == Last(old(history) + [payload])
    {
      history := history + [payload];
      ghost var all := history;
      while |history| > REDUNDANCY
        invariant history == all || (|all| == REDUNDANCY + 1 && history == all[1..])
        decreases |history|
      {
        history := history[1..];
      }
    }

    /** A packet that cannot fit at all is refused and leaves nothing behind. */
    method Send(size: SizeOf, payload: Payload, requested: int) returns (d: Option<Datagram>)
      requires Valid()
      modifies this
      ensures Valid() && log == Sent(old(log), size, payload, limit)
      ensures d.Some? ==> log.wire == old(log).wire + [d.value]
      ensures d.Some? ==> transmittedBytes == old(transmittedBytes) + Repetitions(requested) * size(payload, d.value.redundancy)
      ensures d.None? ==> log == old(log) && transmittedBytes == old(transmittedBytes)
      ensures d.None? <==> Oversized(size, payload, Recent(old(log).sent, REDUNDANCY), limit)
    {
      d := Envelope(size, payload);
      if d.None? {
        return;
      }
      Transmit(size(payload, d.value.redundancy), requested);
      NextSequence(|log.sent|);
      LastOfMore(log.sent, payload);
      sequence := Wrap16(sequence + 1);
      Remember(payload);
      log := Log(log.sent + [payload], log.wire + [d.value]);
    }

    method Transmit(length: nat, requested: int)
      modifies `transmittedBytes
      ensures transmittedBytes == old(transmittedBytes) + Repetitions(requested) * length
    {
      for i := 0 to Repetitions(requested)
        invariant transmittedBytes == old(transmittedBytes) + i * length
      {
        transmittedBytes := transmittedBytes + length;
      }
    }
  }

  /** Alone and with any redundancy, the packet exceeds the limit. */
  predicate Oversized(size: SizeOf, payload: Payload, recent: seq<Payload>, limit: nat) {
    forall k :: 0 <= k <= |recent| ==> size(payload, recent[..k]) > limit
  }

  lemma NoneFits(size: SizeOf, payload: Payload, recent: seq<Payload>, limit: nat)
    ensures Fitting(size, payload, recent, |recent|, limit).None? <==> Oversized(size, payload, recent, limit)
  {
    var n := Fitting(size, payload, recent, |recent|, limit);
    if n.Some? {
      assert size(payload, recent[..n.value]) <= limit;
    }
  }

  /** A packet is refused exactly if it exceeds the limit alone and with any redundancy;
      otherwise it goes out once. */
  lemma RefusedExactlyIfOversized(log: Log, size: SizeOf, payload: Payload, limit: nat)
    ensures var v := Sent(log, size, payload, limit);
      && (v == log <==> Oversized(size, payload, Recent(log.sent, REDUNDANCY), limit))
      && (v != log ==> v.sent == log.sent + [payload] && |v.wire| == |log.wire| + 1 && v.wire[|log.wire|].primary == payload)
  {
    var recent := Recent(log.sent, REDUNDANCY);
    NoneFits(size, payload, recent, limit);
    if Fitting(size, payload, recent, |recent|, limit).Some? {
      assert |Sent(log, size, payload, limit).sent| == |log.sent| + 1;
    }
  }

  function Last(sent: seq<Payload>): seq<Payload> {
    sent[|sent| - Min(REDUNDANCY, |sent|)..]
  }

  lemma LastOfMore(sent: seq<Payload>, payload: Payload)
    ensures Last(Last(sent) + [payload]) == Last(sent + [payload])
  {
  }

  lemma NextSequence(n: nat)
    ensures Wrap16(Wrap16(n) + 1) == Wrap16(n + 1)
  {
  }

  /** Packet `k`, and entry `j` of its redundancy is the packet `j + 1` before it. */
  ghost predicate Carries(d: Datagram, sent: seq<Payload>, k: nat)
    requires k < |sent|
  {
    && d.sequence == Wrap16(k) && d.primary == sent[k] && |d.redundancy| <= Min(REDUNDANCY, k)
    && forall j :: 0 <= j < |d.redundancy| ==> d.redundancy[j] == sent[k - 1 - j]
  }

  ghost predicate OnWire(log: Log) {
    |log.wire| == |log.sent| && forall k :: 0 <= k < |log.wire| ==> Carries(log.wire[k], log.sent, k)
  }

  lemma CarriesMore(d: Datagram, sent: seq<Payload>, k: nat, payload: Payload)
    requires k < |sent| && Carries(d, sent, k)
    ensures Carries(d, sent + [payload], k)
  {
  }

  lemma SentCarries(log: Log, size: SizeOf, payload: Payload, limit: nat)
    requires OnWire(log)
    ensures OnWire(Sent(log, size, payload, limit))
  {
    var next := Sent(log, size, payload, limit);
    if next != log {
      forall k | 0 <= k < |log.wire|
        ensures Carries(next.wire[k], next.sent, k)
      {
        CarriesMore(log.wire[k], log.sent, k, payload);
      }
    }
  }

  /** Over any run of sends, every datagram carries its own packet and the ones just
      before it, in order. */
  lemma {:induction false} EverySendCarries(size: SizeOf, payloads: seq<Payload>, limit: nat)
    ensures OnWire(SendAll(size, payloads, limit))
  {
    if payloads != [] {
      EverySendCarries(size, payloads[..|payloads| - 1], limit);
      SentCarries(SendAll(size, payloads[..|payloads| - 1], limit), size, payloads[|payloads| - 1], limit);
    }
  }

  // ------------------------------------------------------------- a receiver

  /** A receiver that knows only the numbers: the one it expects next, and what it has
      delivered. A number less than half the range ahead is new, any other is old. */
  datatype Receiver = Receiver(expected: u16, delivered: seq<Payload>)

  const HALF := 0x8000

  function Backwards(redundancy: seq<Payload>): (r: seq<Payload>)
    ensures |r| == |redundancy| && forall i :: 0 <= i < |r| ==> r[i] == redundancy[|redundancy| - 1 - i]
  {
    seq(|redundancy|, i requires 0 <= i < |redundancy| => redundancy[|redundancy| - 1 - i])
  }

  /** Missing packets are taken from the redundancy as far as it goes, oldest first. */
  function Hear(r: Receiver, d: Datagram): Receiver {
    var missing := Wrap16(d.sequence - r.expected);
    if missing >= HALF then r
    else Receiver(Wrap16(d.sequence + 1), r.delivered + Backwards(d.redundancy[..Min(missing, |d.redundancy|)]) + [d.primary])
  }

  /** The datagrams at these positions arrive, in this order. */
  function Received(wire: seq<Datagram>, got: seq<nat>): Receiver
    requires forall i :: 0 <= i < |got| ==> got[i] < |wire|
  {
    if got == [] then Receiver(0, []) else Hear(Received(wire, got[..|got| - 1]), wire[got[|got| - 1]])
  }

  /** How far the packets that arrived reach. */
  function Reached(got: seq<nat>): nat {
    if got == [] then 0 else Max(Reached(got[..|got| - 1]), got[|got| - 1] + 1)
  }

  /** No datagram arrives half the number range early or late. */
  predicate Near(got: seq<nat>) {
    got == [] || (Near(got[..|got| - 1]) && -HALF <= got[|got| - 1] - Reached(got[..|got| - 1]) < HALF)
  }

  /** Each datagram that skips some packets when it arrives repeats all of them. */
  predicate GapsAreCovered(wire: seq<Datagram>, got: seq<nat>)
    requires forall i :: 0 <= i < |got| ==> got[i] < |wire|
  {
    got == [] ||
    (GapsAreCovered(wire, got[..|got| - 1]) && got[|got| - 1] - Reached(got[..|got| - 1]) <= |wire[got[|got| - 1]].redundancy|)
  }

  /** Numbers less than half the range apart tell the distance, across every wrap. */
  lemma Distance(k: nat, expected: nat)
    requires -HALF <= k - expected < HALF
    ensures Wrap16(Wrap16(k) - Wrap16(expected)) == if k >= expected then k - expected else k - expected + 0x1_0000
  {
  }

  lemma HearNew(log: Log, r: Receiver, k: nat, expected: nat)
    requires OnWire(log) && k < |log.wire| && expected <= k < expected + HALF && r.expected == Wrap16(expected)
    ensures var after := Hear(r, log.wire[k]);
      && after.expected == Wrap16(k + 1)
      && |after.delivered| == |r.delivered| + Min(k - expected, |log.wire[k].redundancy|) + 1
      && (k - expected <= |log.wire[k].redundancy| ==> after.delivered == r.delivered + log.sent[expected..k + 1])
  {
    var d := log.wire[k];
    assert Carries(d, log.sent, k);
    Distance(k, expected);
    NextSequence(k);
    if k - expected <= |d.redundancy| {
      Filled(log, k, expected);
      assert Hear(r, d).delivered == r.delivered + Backwards(d.redundancy[..k - expected]) + [d.primary];
      assert r.delivered + Backwards(d.redundancy[..k - expected]) + [d.primary]
          == r.delivered + (Backwards(d.redundancy[..k - expected]) + [d.primary]);
    }
  }

  lemma Filled(log: Log, k: nat, expected: nat)
    requires OnWire(log) && k < |log.wire| && expected <= k && k - expected <= |log.wire[k].redundancy|
    ensures Backwards(log.wire[k].redundancy[..k - expected]) + [log.wire[k].primary] == log.sent[expected..k + 1]
  {
    assert Carries(log.wire[k], log.sent, k);
  }

  lemma HearOld(log: Log, r: Receiver, k: nat, expected: nat)
    requires OnWire(log) && k < |log.wire| && k < expected <= k + HALF && r.expected == Wrap16(expected)
    ensures Hear(r, log.wire[k]) == r
  {
    assert Carries(log.wire[k], log.sent, k);
    Distance(k, expected);
  }

  /** All packets up to `reached` were delivered if nothing was skipped, and else fewer. */
  ghost predicate Delivers(r: Receiver, log: Log, reached: nat, covered: bool) {
    && r.expected == Wrap16(reached) && reached <= |log.sent|
    && (if covered then r.delivered == log.sent[..reached] else |r.delivered| < reached)
  }

  lemma HearDelivers(log: Log, r: Receiver, k: nat, reached: nat, covered: bool)
    requires OnWire(log) && k < |log.wire| && -HALF <= k - reached < HALF && Delivers(r, log, reached, covered)
    ensures Delivers(Hear(r, log.wire[k]), log, Max(reached, k + 1), covered && k - reached <= |log.wire[k].redundancy|)
  {
    if k < reached {
      HearOld(log, r, k, reached);
    } else {
      HearNew(log, r, k, reached);
      assert log.sent[..reached] + log.sent[reached..k + 1] == log.sent[..k + 1];
    }
  }

  lemma {:induction false} ReceivedSoFar(log: Log, got: seq<nat>)
    requires OnWire(log) && Near(got) && forall i :: 0 <= i < |got| ==> got[i] < |log.wire|
    ensures Delivers(Received(log.wire, got), log, Reached(got), GapsAreCovered(log.wire, got))
  {
    if got != [] {
      var front := got[..|got| - 1];
      ReceivedSoFar(log, front);
      HearDelivers(log, Received(log.wire, front), got[|got| - 1], Reached(front), GapsAreCovered(log.wire, front));
    }
  }

  /** Over any run of sends and any losses, repetitions and reorderings on the way, a
      receiver that sees only the 16-bit numbers delivers every packet up to the latest
      once and in order, exactly when each datagram that skips some repeats all it skips. */
  lemma LostPacketsAreRecovered(size: SizeOf, payloads: seq<Payload>, limit: nat, got: seq<nat>)
    requires Near(got) && forall i :: 0 <= i < |got| ==> got[i] < |SendAll(size, payloads, limit).wire|
    ensures var log := SendAll(size, payloads, limit);
      Reached(got) <= |log.sent|
      && (Received(log.wire, got).delivered == log.sent[..Reached(got)] <==> GapsAreCovered(log.wire, got))
  {
    EverySendCarries(size, payloads, limit);
    ReceivedSoFar(SendAll(size, payloads, limit), got);
  }
}
