/**
 Whole runs of polls. Each poll ends with a tick, which may send a probe between two
 reads; where that can change what the peer's bytes are taken for is stated exactly.
 */
module KeepaliveRuns {
  import opened Words
  import opened KeepaliveModel
  import opened KeepaliveTheorems

  // --------------------------------------------- how the stream is cut into reads

  /** The same bytes are left, and the same replies and messages came of the others. */
  predicate SameTaken(a: Link, b: Link) {
    a.incoming == b.incoming && a.replies == b.replies && a.messages == b.messages
  }

  predicate Alike(a: Link, b: Link) {
    SameTaken(a, b) && a.keepalive.first.Some? == b.keepalive.first.Some?
  }

  lemma {:induction false} ScanAlike(a: Link, b: Link, parser: Parser)
    requires Alike(a, b)
    ensures Alike(Scan(a, parser), Scan(b, parser))
    decreases |a.incoming|
  {
    if StartsWithCrlf(a.incoming) {
      ScanAlike(TakeCrlf(a), TakeCrlf(b), parser);
    } else if a.incoming == [CR] || a.incoming == [] {
    } else {
      var size := parser(a.incoming);
      if 0 < size <= |a.incoming| {
        ScanAlike(TakeMessage(a, size), TakeMessage(b, size), parser);
      }
    }
  }

  predicate AtRest(link: Link, parser: Parser) {
    || link.incoming == [] || link.incoming == [CR]
    || (!StartsWithCrlf(link.incoming) && !(0 < parser(link.incoming) <= |link.incoming|) && link.keepalive.first.None?)
  }

  lemma {:induction false} ScanRests(link: Link, parser: Parser)
    ensures AtRest(Scan(link, parser), parser)
    ensures |Scan(link, parser).messages| >= |link.messages|
    decreases |link.incoming|
  {
    if StartsWithCrlf(link.incoming) {
      ScanRests(TakeCrlf(link), parser);
    } else if link.incoming == [CR] || link.incoming == [] {
    } else {
      var size := parser(link.incoming);
      if 0 < size <= |link.incoming| {
        ScanRests(TakeMessage(link, size), parser);
      }
    }
  }

  /** At any rest some next bytes are taken, or kept, by an open connection. */
  lemma SomethingIsTaken(link: Link, parser: Parser) returns (more: seq<byte>)
    requires AtRest(link, parser)
    ensures !SameTaken(Scan(Extended(link, more), parser), link)
  {
    if link.incoming == [] {
      more := [CR];
    } else if link.incoming == [CR] {
      more := [LF];
      assert Extended(link, more).incoming == [CR, LF];
      assert TakeCrlf(Extended(link, more)).incoming == [];
    } else {
      more := [0];
      var all := Extended(link, more);
      assert all.incoming[0] == link.incoming[0] && !StartsWithCrlf(all.incoming);
      var size := parser(all.incoming);
      if 0 < size <= |all.incoming| {
        ScanRests(TakeMessage(all, size), parser);
      }
    }
  }

  function Rest(link: Link): seq<byte> {
    if link.incoming == [CR] then [LF] else [CR, LF]
  }

  /** The second half of an open pair is answered, and a first half is not. */
  lemma HalfDecides(link: Link, parser: Parser)
    requires AtRest(link, parser) && (link.incoming == [] || link.incoming == [CR])
    ensures Scan(Extended(link, Rest(link)), parser).replies == link.replies + if link.keepalive.first.Some? then 1 else 0
  {
    var all := Extended(link, Rest(link));
    assert all.incoming == [CR, LF];
    assert TakeCrlf(all).incoming == [];
  }

  function ScannedRead(s: Session, bytes: seq<byte>, parser: Parser): Link {
    Scan(Extended(s.link, bytes), parser)
  }

  lemma ExtendedTwice(link: Link, bytes: seq<byte>, more: seq<byte>)
    ensures Extended(Extended(link, bytes), more) == Extended(link, bytes + more)
  {
    assert (link.incoming + bytes) + more == link.incoming + (bytes + more);
  }

  lemma SplitRead(s: Session, bytes: seq<byte>, more: seq<byte>, parser: Parser)
    requires Stable(parser)
    ensures ScannedRead(s, bytes + more, parser) == Scan(Extended(ScannedRead(s, bytes, parser), more), parser)
  {
    ScansJoin(Extended(s.link, bytes), parser, more);
    ExtendedTwice(s.link, bytes, more);
  }

  ghost predicate SplitIsHarmless(s: Session, bytes: seq<byte>, at: int, parser: Parser) {
    forall more: seq<byte>, now: int ::
      SameTaken(Poll(Poll(s, Read(bytes, at), parser), Read(more, now), parser).link, Poll(s, Read(bytes + more, now), parser).link)
  }

  lemma UndisturbedSplit(s: Session, bytes: seq<byte>, at: int, parser: Parser, more: seq<byte>, now: int)
    requires Stable(parser) && !s.dead && !Disturbs(ScannedRead(s, bytes, parser).keepalive, at)
    ensures SameTaken(Poll(Poll(s, Read(bytes, at), parser), Read(more, now), parser).link, Poll(s, Read(bytes + more, now), parser).link)
  {
    var heard := ScannedRead(s, bytes, parser);
    SplitRead(s, bytes, more, parser);
    ScanAlike(Extended(Poll(s, Read(bytes, at), parser).link, more), Extended(heard, more), parser);
  }

  lemma DisturbedSplit(s: Session, bytes: seq<byte>, at: int, parser: Parser) returns (more: seq<byte>)
    requires Stable(parser) && !s.dead && Disturbs(ScannedRead(s, bytes, parser).keepalive, at)
    ensures !SameTaken(Poll(Poll(s, Read(bytes, at), parser), Read(more, at), parser).link, Poll(s, Read(bytes + more, at), parser).link)
  {
    var heard := ScannedRead(s, bytes, parser);
    ScanRests(Extended(s.link, bytes), parser);
    if Judge(heard.keepalive, at) == Dead {
      more := SomethingIsTaken(heard, parser);
    } else {
      more := Rest(heard);
      HalfDecides(heard, parser);
      HalfDecides(Poll(s, Read(bytes, at), parser).link, parser);
    }
    SplitRead(s, bytes, more, parser);
  }

  /** Cutting a read in two changes no reply and no message, whatever follows, exactly
      when the tick between the halves neither gives the connection up nor sends a probe
      while the last CRLF, having answered one, may still be half a ping. */
  lemma SplitIsHarmlessIff(s: Session, bytes: seq<byte>, at: int, parser: Parser)
    requires Stable(parser) && !s.dead
    ensures SplitIsHarmless(s, bytes, at, parser) <==> !Disturbs(ScannedRead(s, bytes, parser).keepalive, at)
  {
    if Disturbs(ScannedRead(s, bytes, parser).keepalive, at) {
      var more := DisturbedSplit(s, bytes, at, parser);
    } else {
      forall more: seq<byte>, now: int
        ensures SameTaken(Poll(Poll(s, Read(bytes, at), parser), Read(more, now), parser).link, Poll(s, Read(bytes + more, now), parser).link)
      {
        UndisturbedSplit(s, bytes, at, parser, more, now);
      }
    }
  }

  /** With nothing due at the tick between them, two polls are one in everything. */
  lemma QuietSplitIsOnePoll(s: Session, bytes: seq<byte>, at: int, parser: Parser, more: seq<byte>, now: int)
    requires Stable(parser) && Judge(ScannedRead(s, bytes, parser).keepalive, at) == Idle
    ensures Poll(Poll(s, Read(bytes, at), parser), Read(more, now), parser) == Poll(s, Read(bytes + more, now), parser)
  {
    SplitRead(s, bytes, more, parser);
  }

  function Stream(turns: seq<Read>): seq<byte>
    decreases |turns|
  {
    if turns == [] then [] else Stream(turns[..|turns| - 1]) + turns[|turns| - 1].bytes
  }

  predicate DisturbedAt(start: int, turns: seq<Read>, n: nat, parser: Parser)
    requires n < |turns|
  {
    Disturbs(ScannedRead(Polls(Connected(start), turns[..n], parser), turns[n].bytes, parser).keepalive, turns[n].now)
  }

  lemma PollAlike(s: Session, link: Link, read: Read, parser: Parser)
    requires !s.dead && Alike(s.link, link) && !Disturbs(ScannedRead(s, read.bytes, parser).keepalive, read.now)
    ensures !Poll(s, read, parser).dead && Alike(Poll(s, read, parser).link, Scan(Extended(link, read.bytes), parser))
  {
    ScanAlike(Extended(s.link, read.bytes), Extended(link, read.bytes), parser);
  }

  /** Over a whole run whose ticks disturb nothing, replies, messages and what is left are
      those of the byte stream taken at once, however and whenever it arrived. */
  lemma {:induction false} ReadsMayBeSplitAnywhere(start: int, turns: seq<Read>, parser: Parser)
    requires Stable(parser)
    requires forall n: nat :: n < |turns| ==> !DisturbedAt(start, turns, n, parser)
    ensures !Polls(Connected(start), turns, parser).dead
    ensures Alike(Polls(Connected(start), turns, parser).link, ScannedRead(Connected(start), Stream(turns), parser))
    decreases |turns|
  {
    if turns == [] {
    } else {
      var init, last := turns[..|turns| - 1], turns[|turns| - 1];
      forall n: nat | n < |init|
        ensures !DisturbedAt(start, init, n, parser)
      {
        assert init[..n] == turns[..n];
        assert !DisturbedAt(start, turns, n, parser);
      }
      ReadsMayBeSplitAnywhere(start, init, parser);
      assert !DisturbedAt(start, turns, |init|, parser);
      SplitRead(Connected(start), Stream(init), last.bytes, parser);
      PollAlike(Polls(Connected(start), init, parser), ScannedRead(Connected(start), Stream(init), parser), last, parser);
    }
  }

  // ---------------------------------------------------- the tokens of a run

  lemma {:induction false} AfterJoins(k: State, a: seq<Token>, b: seq<Token>)
    ensures After(k, a + b) == After(After(k, a), b)
    decreases |b|
  {
    if b == [] {
      assert a + b == a;
    } else {
      AfterJoins(k, a, b[..|b| - 1]);
      assert (a + b)[..|a + b| - 1] == a + b[..|b| - 1];
    }
  }

  lemma AfterOne(k: State, token: Token)
    ensures After(k, [token]) == match token case Crlf => OnCrlf(k) case Message => OnMessage(k) case Probe(at) => OnProbe(k, at)
  {
    assert [token][..0] == [];
  }

  lemma {:induction false} ScanIsTokens(link: Link, parser: Parser)
    ensures Scan(link, parser).keepalive == After(link.keepalive, Tokens(link.incoming, parser))
    decreases |link.incoming|
  {
    if StartsWithCrlf(link.incoming) {
      ScanIsTokens(TakeCrlf(link), parser);
      AfterOne(link.keepalive, Crlf);
      AfterJoins(link.keepalive, [Crlf], Tokens(link.incoming[2..], parser));
    } else if link.incoming == [CR] || link.incoming == [] {
    } else {
      var size := parser(link.incoming);
      AfterOne(link.keepalive, Message);
      if 0 < size <= |link.incoming| {
        ScanIsTokens(TakeMessage(link, size), parser);
        AfterJoins(link.keepalive, [Message], Tokens(link.incoming[size..], parser));
      }
    }
  }

  /** What one poll observes: the tokens it takes, then the probe it sends. */
  function Observed(s: Session, read: Read, parser: Parser): seq<Token> {
    if s.dead then []
    else
      var tokens := Tokens(s.link.incoming + read.bytes, parser);
      tokens + if Judge(After(s.link.keepalive, tokens), read.now) == SendProbe then [Probe(read.now)] else []
  }

  function History(start: int, turns: seq<Read>, parser: Parser): seq<Token>
    decreases |turns|
  {
    if turns == [] then []
    else
      var init := turns[..|turns| - 1];
      History(start, init, parser) + Observed(Polls(Connected(start), init, parser), turns[|turns| - 1], parser)
  }

  lemma PollIsTokens(s: Session, read: Read, parser: Parser)
    ensures Poll(s, read, parser).link.keepalive == After(s.link.keepalive, Observed(s, read, parser))
    ensures Poll(s, read, parser).dead ==> s.dead || Judge(Poll(s, read, parser).link.keepalive, read.now) == Dead
  {
    if !s.dead {
      var tokens := Tokens(s.link.incoming + read.bytes, parser);
      ScanIsTokens(Extended(s.link, read.bytes), parser);
      AfterJoins(s.link.keepalive, tokens, [Probe(read.now)]);
      AfterOne(After(s.link.keepalive, tokens), Probe(read.now));
      assert tokens + [] == tokens;
    }
  }

  /** Over any run of polls the keepalive is what its tokens and probes, in order, make
      of it, so every theorem about tokens speaks of runs. */
  lemma {:induction false} PollsAreTokens(start: int, turns: seq<Read>, parser: Parser)
    ensures var s := Polls(Connected(start), turns, parser);
      && s.link.keepalive == After(New(start), History(start, turns, parser))
      && (s.dead ==> exists now :: Judge(s.link.keepalive, now) == Dead)
    decreases |turns|
  {
    if turns != [] {
      var init := turns[..|turns| - 1];
      var before := Polls(Connected(start), init, parser);
      PollsAreTokens(start, init, parser);
      PollIsTokens(before, turns[|turns| - 1], parser);
      AfterJoins(New(start), History(start, init, parser), Observed(before, turns[|turns| - 1], parser));
    }
  }

  // -------------------------------------------------- a peer that only pings

  /** The peer has sent an odd number of CRLFs since its last message. */
  predicate Unpaired(tokens: seq<Token>)
    decreases |tokens|
  {
    if tokens == [] then false
    else
      var init := tokens[..|tokens| - 1];
      match tokens[|tokens| - 1]
      case Crlf => !Unpaired(init)
      case Message => false
      case Probe(_) => Unpaired(init)
  }

  /** The peer sends CRLFs only in adjacent pairs, whenever our probes go out. */
  predicate OnlyPings(tokens: seq<Token>) {
    forall n: nat :: n < |tokens| && tokens[n].Message? ==> !Unpaired(tokens[..n])
  }

  predicate Parted(start: int, tokens: seq<Token>, n: nat)
    requires n < |tokens|
  {
    tokens[n].Probe? && PartsPing(After(New(start), tokens[..n]))
  }

  ghost predicate NeverParted(start: int, tokens: seq<Token>) {
    forall n: nat :: n < |tokens| ==> !Parted(start, tokens, n)
  }

  ghost predicate NeverGivenUp(start: int, tokens: seq<Token>) {
    forall n: nat, now: int :: n <= |tokens| ==> Judge(After(New(start), tokens[..n]), now) != Dead
  }

  predicate Undemanding(k: State, unpaired: bool) {
    && k.first.Some? == unpaired
    && (!unpaired ==> !k.supported)
    && (unpaired ==>
      && !k.first.value.supported
      && (k.supported <==> k.first.value.probe.Some?)
      && (k.supported ==> k.pending.None?))
  }

  lemma OnlyPingsSoFar(start: int, tokens: seq<Token>, n: nat)
    requires n <= |tokens|
    ensures OnlyPings(tokens) ==> OnlyPings(tokens[..n])
    ensures NeverParted(start, tokens) ==> NeverParted(start, tokens[..n])
  {
    forall m: nat | m < n
      ensures tokens[..n][..m] == tokens[..m]
      ensures Parted(start, tokens[..n], m) == Parted(start, tokens, m)
    {
      assert tokens[..n][..m] == tokens[..m];
    }
  }

  lemma {:induction false} PairsDemandNothing(start: int, tokens: seq<Token>)
    requires OnlyPings(tokens) && NeverParted(start, tokens)
    ensures Undemanding(After(New(start), tokens), Unpaired(tokens))
    decreases |tokens|
  {
    if tokens != [] {
      var init := tokens[..|tokens| - 1];
      OnlyPingsSoFar(start, tokens, |init|);
      PairsDemandNothing(start, init);
      assert !Parted(start, tokens, |init|);
    }
  }

  lemma PartedIsGivenUp(start: int, tokens: seq<Token>, n: nat)
    requires n < |tokens| && Parted(start, tokens, n)
    ensures Judge(After(New(start), tokens[..n + 1]), tokens[n].at + PONG_TIMEOUT) == Dead
  {
    FieldsAreTheReading(start, tokens[..n]);
    AnswerIsSupport(start, tokens[..n]);
    assert tokens[..n + 1][..n] == tokens[..n];
  }

  /** A CRLF that answered a probe counts as support while it may still be half a ping. */
  lemma {:induction false} AnswerIsSupport(start: int, tokens: seq<Token>)
    ensures PartsPing(After(New(start), tokens)) ==> After(New(start), tokens).supported
    decreases |tokens|
  {
    if tokens != [] {
      AnswerIsSupport(start, tokens[..|tokens| - 1]);
    }
  }

  /** A peer that only ever pings, in pairs, and never answers a probe is never given up,
      exactly when no probe goes out between the halves of a ping whose first half was
      taken for an answer. */
  lemma PingsAreNoPromiseIff(start: int, tokens: seq<Token>)
    requires OnlyPings(tokens)
    ensures NeverGivenUp(start, tokens) <==> NeverParted(start, tokens)
  {
    if NeverParted(start, tokens) {
      forall n: nat, now: int | n <= |tokens|
        ensures Judge(After(New(start), tokens[..n]), now) != Dead
      {
        OnlyPingsSoFar(start, tokens, n);
        PairsDemandNothing(start, tokens[..n]);
      }
    } else {
      var n: nat :| n < |tokens| && Parted(start, tokens, n);
      PartedIsGivenUp(start, tokens, n);
    }
  }

  /** The same for a run of polls: the connection lives on. */
  lemma PingingPeerKeepsConnection(start: int, turns: seq<Read>, parser: Parser)
    requires OnlyPings(History(start, turns, parser)) && NeverParted(start, History(start, turns, parser))
    ensures !Polls(Connected(start), turns, parser).dead
  {
    var tokens := History(start, turns, parser);
    PollsAreTokens(start, turns, parser);
    PairsDemandNothing(start, tokens);
  }

  // ------------------------------------------------------- where it fails

  const PAIR: seq<byte> := [CR, LF, CR, LF]
  const HALF: seq<byte> := [CR, LF]

  lemma ScanHalf(link: Link, parser: Parser)
    requires link.incoming == []
    ensures Scan(Extended(link, HALF), parser) == TakeCrlf(Extended(link, HALF))
    ensures TakeCrlf(Extended(link, HALF)).incoming == []
    ensures Scan(Extended(link, []), parser) == link
  {
    assert Extended(link, HALF).incoming == HALF && HALF[2..] == [];
    assert Extended(link, []) == link;
  }

  /** A link with nothing left over. */
  function Drained(k: State, replies: nat): Link {
    Link(k, [], replies, [])
  }

  lemma PollHalf(k: State, replies: nat, probes: seq<int>, now: int, parser: Parser)
    ensures Poll(Session(Drained(k, replies), probes, false), Read(HALF, now), parser)
      == Ticked(Drained(OnCrlf(k), replies + if k.first.Some? then 1 else 0), probes, now)
    ensures Poll(Session(Drained(k, replies), probes, false), Read([], now), parser) == Ticked(Drained(k, replies), probes, now)
  {
    ScanHalf(Drained(k, replies), parser);
  }

  lemma PollsStep(s: Session, turns: seq<Read>, read: Read, parser: Parser)
    ensures Polls(s, turns + [read], parser) == Poll(Polls(s, turns, parser), read, parser)
  {
    assert (turns + [read])[..|turns + [read]| - 1] == turns;
  }

  lemma PollPair(k: State, probes: seq<int>, now: int, parser: Parser)
    ensures Poll(Session(Drained(k, 0), probes, false), Read(PAIR, now), parser) == Ticked(Drained(OnCrlf(OnCrlf(k)), 1), probes, now)
  {
    var link := Extended(Drained(k, 0), PAIR);
    var half := TakeCrlf(link);
    assert link.incoming == PAIR && half.incoming == HALF && HALF[2..] == [];
    assert half == Extended(Drained(half.keepalive, half.replies), HALF);
    ScanHalf(Drained(half.keepalive, half.replies), parser);
    assert TakeCrlf(half) == Drained(OnCrlf(OnCrlf(k)), 1);
    assert Scan(link, parser) == Scan(half, parser);
  }

  const PROBED := [Read([], 25000)]

  lemma AfterProbe(parser: Parser)
    ensures Polls(Connected(0), PROBED, parser) == Session(Drained(State(25000, Some(25000), false, None), 0), [25000], false)
  {
    PollHalf(New(0), 0, [], 25000, parser);
    PollsStep(Connected(0), [], Read([], 25000), parser);
    assert [] + PROBED == PROBED;
  }

  /** A ping read at once is answered and promises nothing. The same four bytes in two
      polls, with a probe due between the halves, are two answers to two probes. */
  lemma PingAcrossProbeIsTwoAnswers(parser: Parser)
    ensures var whole := Polls(Connected(0), PROBED + [Read(PAIR, 50000)], parser).link;
      whole.replies == 1 && !whole.keepalive.supported
    ensures var parted := Polls(Connected(0), PROBED + [Read(HALF, 50000)] + [Read(HALF, 50001)], parser).link;
      parted.replies == 0 && parted.keepalive.supported
  {
    AfterProbe(parser);
    PollsStep(Connected(0), PROBED, Read(PAIR, 50000), parser);
    PollsStep(Connected(0), PROBED, Read(HALF, 50000), parser);
    PollsStep(Connected(0), PROBED + [Read(HALF, 50000)], Read(HALF, 50001), parser);
    var k := State(25000, Some(25000), false, None);
    PollPair(k, [25000], 50000, parser);
    PollHalf(k, 0, [25000], 50000, parser);
    PollHalf(OnProbe(OnCrlf(k), 50000), 0, [25000] + [50000], 50001, parser);
  }

  /** A peer that sent one ping and nothing else is given up, all probes being due. */
  lemma PingingPeerIsGivenUp(parser: Parser)
    ensures var turns := PROBED + [Read(HALF, 50000)] + [Read(HALF, 75000)] + [Read([], 85000)];
      Stream(turns) == PAIR && Polls(Connected(0), turns, parser).dead
      && Polls(Connected(0), turns, parser).probes == [25000, 50000, 75000]
  {
    AfterProbe(parser);
    var one, two := PROBED + [Read(HALF, 50000)], PROBED + [Read(HALF, 50000)] + [Read(HALF, 75000)];
    PollsStep(Connected(0), PROBED, Read(HALF, 50000), parser);
    PollsStep(Connected(0), one, Read(HALF, 75000), parser);
    PollsStep(Connected(0), two, Read([], 85000), parser);
    var k := State(25000, Some(25000), false, None);
    PollHalf(k, 0, [25000], 50000, parser);
    var l := OnProbe(OnCrlf(k), 50000);
    PollHalf(l, 0, [25000, 50000], 75000, parser);
    PollHalf(OnProbe(OnCrlf(l), 75000), 0, [25000, 50000, 75000], 85000, parser);
    StreamOfPair();
  }

  lemma StreamStep(turns: seq<Read>, read: Read)
    ensures Stream(turns + [read]) == Stream(turns) + read.bytes
  {
    assert (turns + [read])[..|turns + [read]| - 1] == turns;
  }

  lemma StreamOfPair()
    ensures Stream(PROBED + [Read(HALF, 50000)] + [Read(HALF, 75000)] + [Read([], 85000)]) == PAIR
  {
    StreamStep([], Read([], 25000));
    assert [] + PROBED == PROBED;
    StreamStep(PROBED, Read(HALF, 50000));
    StreamStep(PROBED + [Read(HALF, 50000)], Read(HALF, 75000));
    StreamStep(PROBED + [Read(HALF, 50000)] + [Read(HALF, 75000)], Read([], 85000));
  }
}
