/** The keepalive of one TLS connection and the loop that feeds it, in place. */
module TlsKeepalive {
  import opened Words
  import opened KeepaliveModel
  import Theorems = KeepaliveTheorems

  class Keepalive {
    var lastPing: int
    var pendingPing: Option<int>
    var pongSupported: bool
    var firstCrlf: Option<Remembered>

    ghost function View(): State
      reads this
    {
      State(lastPing, pendingPing, pongSupported, firstCrlf)
    }

    ghost predicate Valid()
      reads this
    {
      ProbesAreLatest(View())
    }

    constructor (now: int)
      ensures Valid() && View() == New(now)
    {
      lastPing, pendingPing, pongSupported, firstCrlf := now, None, false, None;
    }

    /** Until this moment a tick does nothing, and from it on something is due. */
    function NextDeadline(): (at: int)
      requires Valid()
      reads this
      ensures forall now :: Judge(View(), now) != Idle <==> now >= at
    {
      if pongSupported && pendingPing.Some? then pendingPing.value + PONG_TIMEOUT else lastPing + PING_INTERVAL
    }

    /** True when the token completes a peer ping, which must be answered. */
    method Crlf() returns (reply: bool)
      requires Valid()
      modifies this
      ensures Valid()
      ensures View() == OnCrlf(old(View())) && reply == old(firstCrlf).Some?
    {
      if firstCrlf.Some? {
        var first := firstCrlf.value;
        firstCrlf := None;
        if first.probe.Some? {
          pendingPing, pongSupported := first.probe, first.supported;
        }
        return true;
      }
      firstCrlf := Some(Remembered(pendingPing, pongSupported));
      pendingPing := None;
      if firstCrlf.value.probe.Some? {
        pongSupported := true;
      }
      reply := false;
    }

    method Message()
      requires Valid()
      modifies this
      ensures Valid()
      ensures View() == OnMessage(old(View()))
    {
      firstCrlf := None;
    }

    method Tick(now: int) returns (verdict: Verdict)
      requires Valid()
      modifies this
      ensures Valid()
      ensures verdict == Judge(old(View()), now)
      ensures View() == if verdict == SendProbe then OnProbe(old(View()), now) else old(View())
    {
      if pongSupported && pendingPing.Some? && now >= pendingPing.value + PONG_TIMEOUT {
        return Dead;
      }
      if now >= lastPing + PING_INTERVAL {
        if firstCrlf.Some? && firstCrlf.value.probe.Some? {
          firstCrlf := None;
        }
        lastPing, pendingPing := now, Some(now);
        return SendProbe;
      }
      verdict := Idle;
    }
  }

  class Transport {
    const keepalive: Keepalive
    var incoming: seq<byte>
    var replies: nat
    var messages: seq<seq<byte>>
    var probes: seq<int>
    var dead: bool

    ghost function View(): Link
      reads this, keepalive
    {
      Link(keepalive.View(), incoming, replies, messages)
    }

    ghost function Turns(): Session
      reads this, keepalive
    {
      Session(View(), probes, dead)
    }

    constructor (now: int)
      ensures fresh(keepalive) && keepalive.Valid() && Turns() == Connected(now)
    {
      keepalive := new Keepalive(now);
      incoming, replies, messages, probes, dead := [], 0, [], [], false;
    }

    /** Received bytes join the buffer, and every complete token is taken off it. */
    method Receive(bytes: seq<byte>, parser: Parser)
      requires keepalive.Valid()
      modifies this`incoming, this`replies, this`messages, keepalive
      ensures keepalive.Valid() && View() == Scan(Extended(old(View()), bytes), parser)
    {
      incoming := incoming + bytes;
      while true
        invariant keepalive.Valid()
        invariant Scan(View(), parser) == Scan(Extended(old(View()), bytes), parser)
        decreases |incoming|
      {
        ghost var before := View();
        if StartsWithCrlf(incoming) {
          incoming := incoming[2..];
          var reply := keepalive.Crlf();
          if reply {
            replies := replies + 1;
          }
          assert View() == TakeCrlf(before);
          continue;
        }
        if incoming == [CR] {
          break;
        }
        if incoming != [] {
          keepalive.Message();
        }
        if incoming == [] {
          break;
        }
        Theorems.HeardTwice(before, parser);
        var size := parser(incoming);
        if !(0 < size <= |incoming|) {
          break;
        }
        messages, incoming := messages + [incoming[..size]], incoming[size..];
        assert View() == TakeMessage(before, size);
      }
    }

    /** One turn: everything received is taken first, so that an answer already here
        counts, and only then is the time looked at. */
    method Poll(bytes: seq<byte>, now: int, parser: Parser)
      requires keepalive.Valid()
      modifies this, keepalive
      ensures keepalive.Valid() && Turns() == KeepaliveModel.Poll(old(Turns()), Read(bytes, now), parser)
    {
      if dead {
        return;
      }
      Receive(bytes, parser);
      var verdict := keepalive.Tick(now);
      match verdict {
        case Dead => dead := true;
        case SendProbe => probes := probes + [now];
        case Idle =>
      }
    }
  }
}
