/**
 The keepalive's few fields are exactly what its whole token history means.
 */
module KeepaliveTheorems {
  import opened Words
  import opened KeepaliveModel

  ghost predicate Open(log: seq<Entry>) {
    exists i: nat :: i < |log| && OpenAt(log, i)
  }

  ghost predicate Represents(k: State, log: seq<Entry>) {
    && k.pending == Outstanding(log) && k.supported == Answered(log)
    && (k.first.Some? <==> Open(log))
    && (forall i: nat :: i < |log| && OpenAt(log, i) ==>
      k.first == Some(Remembered(Outstanding(log[..i]), Answered(log[..i]))))
  }

  lemma Appended(log: seq<Entry>, e: Entry)
    ensures (log + [e])[..|log|] == log
    ensures forall i :: 0 <= i < |log| ==> (log + [e])[..i] == log[..i] && Answers(log + [e], i) == Answers(log, i)
    ensures Answers(log + [e], |log|) == (e == Lone && Outstanding(log).Some?)
    ensures Answered(log + [e]) == (Answered(log) || (e == Lone && Outstanding(log).Some?))
  {
    var more := log + [e];
    assert forall i :: 0 <= i < |log| ==> more[..i] == log[..i];
    assert forall i :: 0 <= i < |log| ==> Answers(more, i) == Answers(log, i);
    if Answered(more) {
      var i :| 0 <= i < |more| && Answers(more, i);
      assert i < |log| ==> Answers(log, i);
    }
    if Answered(log) {
      var i :| 0 <= i < |log| && Answers(log, i);
      assert Answers(more, i);
    }
  }

  lemma HeardStep(k: State, log: seq<Entry>)
    requires Represents(k, log)
    ensures Represents(OnMessage(k), log + [Heard])
  {
    Appended(log, Heard);
    assert !Open(log + [Heard]) by {
      assert (log + [Heard])[|log|] == Heard;
    }
  }

  lemma LoneStep(k: State, log: seq<Entry>)
    requires Represents(k, log) && k.first.None?
    ensures Represents(OnCrlf(k), log + [Lone])
  {
    Appended(log, Lone);
    var more := log + [Lone];
    assert OpenAt(more, |log|);
    forall i: nat | i < |more| && OpenAt(more, i)
      ensures i == |log|
    {
      assert more[|log|] == Lone;
    }
  }

  lemma ProbeStep(k: State, log: seq<Entry>, at: int)
    requires Represents(k, log)
    ensures Represents(OnProbe(k, at), log + [Sent(at)])
  {
    Appended(log, Sent(at));
    var more := log + [Sent(at)];
    forall i: nat | i < |more| && OpenAt(more, i)
      ensures i < |log| && OpenAt(log, i) && !Answers(log, i)
    {
      assert Answers(more, i) == Answers(log, i);
      assert forall j :: i < j < |log| ==> log[j] == more[j];
    }
    forall i: nat | i < |log| && OpenAt(log, i) && !Answers(log, i)
      ensures OpenAt(more, i)
    {
      assert Answers(more, i) == Answers(log, i);
    }
    if k.first.Some? {
      var i: nat :| i < |log| && OpenAt(log, i);
      assert k.first.value.probe.Some? <==> Answers(log, i);
    }
  }

  /** Reading an open lone CRLF as half a ping takes its answer back, if it gave one. */
  lemma Reread(log: seq<Entry>, i: nat)
    requires i < |log| && OpenAt(log, i)
    ensures var other := log[i := PeerPing];
      && !Open(other)
      && Outstanding(other) == (if Answers(log, i) then Outstanding(log[..i]) else Outstanding(log))
      && Answered(other) == (if Answers(log, i) then Answered(log[..i]) else Answered(log))
  {
    var other := log[i := PeerPing];
    assert other[i] == PeerPing && forall j :: i < j < |log| ==> other[j].Sent?;
    forall m: nat | m < |other|
      ensures !OpenAt(other, m)
    {
      assert m < i ==> !other[i].Sent?;
    }
    if Answers(log, i) {
      assert other == log[..i] + [PeerPing];
      Appended(log[..i], PeerPing);
    } else {
      assert |log| > i + 1 ==> other[|log| - 1] == log[|log| - 1];
      assert other[..i] == log[..i];
      if |log| == i + 1 {
        assert other[..|other| - 1] == log[..i];
      }
      forall j: nat | j < |log|
        ensures Answers(other, j) == Answers(log, j)
      {
        assert j < i ==> other[..j] == log[..j] && other[j] == log[j];
      }
    }
  }

  lemma PairStep(k: State, log: seq<Entry>, i: nat)
    requires Represents(k, log) && i < |log| && OpenAt(log, i)
    ensures Represents(OnCrlf(k), log[i := PeerPing])
  {
    Reread(log, i);
  }

  /** After any tokens and probes, the fields are what the reading of them means:
      which probe is outstanding, whether one was ever answered, and what would be
      taken back if the next token were a CRLF. */
  lemma {:induction false} FieldsAreTheReading(start: int, tokens: seq<Token>)
    ensures Represents(After(New(start), tokens), Reading(tokens))
    decreases |tokens|
  {
    if tokens == [] {
    } else {
      var init := tokens[..|tokens| - 1];
      FieldsAreTheReading(start, init);
      var k, log := After(New(start), init), Reading(init);
      match tokens[|tokens| - 1]
      case Message => HeardStep(k, log);
      case Probe(at) => ProbeStep(k, log, at);
      case Crlf =>
        if i: nat :| i < |log| && OpenAt(log, i) {
          assert Open(log);
          var j: nat :| j < |log| && OpenAt(log, j) && Reading(tokens) == log[j := PeerPing];
          PairStep(k, log, j);
        } else {
          LoneStep(k, log);
        }
    }
  }

  lemma {:induction false} OutstandingIsLatest(log: seq<Entry>)
    ensures Outstanding(log).Some? ==> Outstanding(log) == LastSent(log)
    decreases |log|
  {
    if log != [] {
      OutstandingIsLatest(log[..|log| - 1]);
    }
  }

  lemma {:induction false} ReadingKeepsProbes(start: int, tokens: seq<Token>)
    ensures var last := LastSent(Reading(tokens));
      After(New(start), tokens).lastPing == if last.Some? then last.value else start
    decreases |tokens|
  {
    if tokens != [] {
      var init := tokens[..|tokens| - 1];
      ReadingKeepsProbes(start, init);
      var log := Reading(init);
      if tokens[|tokens| - 1].Crlf? {
        if i: nat :| i < |log| && OpenAt(log, i) {
          var j: nat :| j < |log| && OpenAt(log, j) && Reading(tokens) == log[j := PeerPing];
          RereadKeepsProbes(log, j);
        }
      }
    }
  }

  lemma {:induction false} RereadKeepsProbes(log: seq<Entry>, i: nat)
    requires i < |log| && log[i] == Lone
    ensures LastSent(log[i := PeerPing]) == LastSent(log)
    decreases |log|
  {
    var init := log[..|log| - 1];
    if i < |log| - 1 {
      RereadKeepsProbes(init, i);
      assert log[i := PeerPing][..|log| - 1] == init[i := PeerPing];
    } else {
      assert log[i := PeerPing][..|log| - 1] == init;
    }
  }

  lemma {:induction false} LaterProbes(log: seq<Entry>, i: nat)
    requires i < |log| && log[i] == Lone && i == |log| - 1
    ensures LastSent(log[..i]) == LastSent(log)
  {
  }

  /** An outstanding probe, and one a CRLF may have answered, is always the latest sent. */
  lemma ProbesAreTheLatest(start: int, tokens: seq<Token>)
    ensures ProbesAreLatest(After(New(start), tokens))
  {
    var k, log := After(New(start), tokens), Reading(tokens);
    FieldsAreTheReading(start, tokens);
    ReadingKeepsProbes(start, tokens);
    OutstandingIsLatest(log);
    if k.first.Some? {
      var i: nat :| i < |log| && OpenAt(log, i);
      OutstandingIsLatest(log[..i]);
      if Answers(log, i) {
        LaterProbes(log, i);
      }
    }
  }

  /** The connection is given up exactly when the peer has answered a probe with a CRLF
      of its own before, and the latest probe has gone unanswered for the timeout. */
  lemma DeadExactlyAfterAnAnswer(start: int, tokens: seq<Token>, now: int)
    ensures var log := Reading(tokens);
      Judge(After(New(start), tokens), now) == Dead
      <==> Answered(log) && Outstanding(log).Some? && LastSent(log).Some? && now >= LastSent(log).value + PONG_TIMEOUT
  {
    FieldsAreTheReading(start, tokens);
    OutstandingIsLatest(Reading(tokens));
  }

  /** Two adjacent CRLFs leave everything as it was before them. */
  lemma PairLeavesNoTrace(start: int, tokens: seq<Token>)
    requires After(New(start), tokens).first.None?
    ensures After(New(start), tokens + [Crlf, Crlf]) == After(New(start), tokens)
    ensures Replies(New(start), tokens + [Crlf, Crlf]) == Replies(New(start), tokens) + 1
  {
    var one, two := tokens + [Crlf], tokens + [Crlf, Crlf];
    assert one[..|one| - 1] == tokens && two[..|two| - 1] == one;
    var k := After(New(start), tokens);
    assert After(New(start), one) == OnCrlf(k);
  }

  lemma {:induction false} RereadCounts(log: seq<Entry>, i: nat)
    requires i < |log| && log[i] == Lone
    ensures Pings(log[i := PeerPing]) == Pings(log) + 1
    decreases |log|
  {
    var init := log[..|log| - 1];
    if i < |log| - 1 {
      RereadCounts(init, i);
      assert log[i := PeerPing][..|log| - 1] == init[i := PeerPing];
    } else {
      assert log[i := PeerPing][..|log| - 1] == init;
    }
  }

  /** Every peer ping is answered, once. */
  lemma {:induction false} EachPingIsAnsweredOnce(start: int, tokens: seq<Token>)
    ensures Replies(New(start), tokens) == Pings(Reading(tokens))
    decreases |tokens|
  {
    if tokens != [] {
      var init := tokens[..|tokens| - 1];
      EachPingIsAnsweredOnce(start, init);
      FieldsAreTheReading(start, init);
      var log := Reading(init);
      if tokens[|tokens| - 1].Crlf? {
        if i: nat :| i < |log| && OpenAt(log, i) {
          var j: nat :| j < |log| && OpenAt(log, j) && Reading(tokens) == log[j := PeerPing];
          RereadCounts(log, j);
          assert Open(log);
        }
      }
    }
  }

  /** Nothing happens before the deadline, and something does at it. */
  lemma DeadlineIsExact(start: int, tokens: seq<Token>, now: int)
    ensures var k := After(New(start), tokens);
      Judge(k, now) != Idle <==> now >= NextDeadline(k)
  {
    ProbesAreTheLatest(start, tokens);
  }

  // ------------------------------------------------------ the byte stream

  /** More bytes never change what the parser made of a message it already took. */
  ghost predicate Stable(parser: Parser) {
    forall a: seq<byte>, b: seq<byte> :: 0 < parser(a) <= |a| ==> parser(a + b) == parser(a)
  }

  lemma TokenStaysInFront(link: Link, more: seq<byte>)
    requires StartsWithCrlf(link.incoming)
    ensures StartsWithCrlf(Extended(link, more).incoming)
    ensures TakeCrlf(Extended(link, more)) == Extended(TakeCrlf(link), more)
  {
    assert (link.incoming + more)[2..] == link.incoming[2..] + more;
  }

  lemma MessageStaysInFront(link: Link, more: seq<byte>, size: nat)
    requires 0 < size <= |link.incoming|
    ensures TakeMessage(Extended(link, more), size) == Extended(TakeMessage(link, size), more)
  {
    assert (link.incoming + more)[size..] == link.incoming[size..] + more;
    assert (link.incoming + more)[..size] == link.incoming[..size];
  }

  lemma HeardTwice(link: Link, parser: Parser)
    requires !StartsWithCrlf(link.incoming) && link.incoming != [CR] && link.incoming != []
    ensures Scan(link.(keepalive := OnMessage(link.keepalive)), parser) == Scan(link, parser)
  {
    var size := parser(link.incoming);
    if 0 < size <= |link.incoming| {
      assert TakeMessage(link.(keepalive := OnMessage(link.keepalive)), size) == TakeMessage(link, size);
    }
  }

  /** Without a tick between them, two scans are one: everything is the same however the
      bytes are cut. What a tick between them changes is `SplitIsHarmlessIff`. */
  lemma {:induction false} ScansJoin(link: Link, parser: Parser, more: seq<byte>)
    requires Stable(parser)
    ensures Scan(Extended(Scan(link, parser), more), parser) == Scan(Extended(link, more), parser)
    decreases |link.incoming|
  {
    if StartsWithCrlf(link.incoming) {
      TokenStaysInFront(link, more);
      ScansJoin(TakeCrlf(link), parser, more);
    } else if link.incoming == [CR] || link.incoming == [] {
    } else {
      var size := parser(link.incoming);
      var all := Extended(link, more);
      assert !StartsWithCrlf(all.incoming) && all.incoming != [CR] && all.incoming != [];
      if 0 < size <= |link.incoming| {
        MessageStaysInFront(link, more, size);
        ScansJoin(TakeMessage(link, size), parser, more);
      } else {
        HeardTwice(all, parser);
        assert Extended(Scan(link, parser), more) == all.(keepalive := OnMessage(link.keepalive));
      }
    }
  }
}
