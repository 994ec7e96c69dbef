/** Every byte of a page is credited exactly once, and only once it has left. */
module EcmTheorems {
  import opened Words
  import opened EcmModel

  function Pending(s: State): seq<byte> {
    if s.pending.Some? then s.pending.value else []
  }

  predicate Numbers(seen: set<byte>, sent: nat) {
    forall n: byte :: n in seen <==> n < sent
  }

  ghost predicate Tracks(s: State, stats: Stats, w: Sender) {
    && s.decoder.Some? && s.decoder.value.page == Page(stats)
    && s.decoder.value.fed == w.left && s.decoder.value.fed + Pending(s) == w.image
    && w.sent <= 256 && Numbers(s.seen, w.sent)
    && (w.asked ==> s.awaitingAck)
  }

  lemma EventKeeps(s: State, stats: Stats, w: Sender, e: Event)
    requires Tracks(s, stats, w) && Legal(w, e)
    ensures Tracks(OnEvent(s, stats, e), stats, Sends(w, e))
  {
    var v, x := OnEvent(s, stats, e), Sends(w, e);
    if Outgoing(e) {
      assert Flushed(s).decoder.value.fed == w.image;
    }
    if e.Data? && !w.repeating {
      assert Numbers(v.seen, x.sent);
    }
    if e.Acknowledged? {
      assert Numbers(v.seen, x.sent);
    }
    assert [] + w.image == w.image && w.image + [] == w.image;
  }

  lemma {:induction false} RunKeeps(s: State, stats: Stats, w: Sender, events: seq<Event>)
    requires Tracks(s, stats, w) && Follows(w, events)
    ensures Tracks(Run(s, stats, events), stats, Sent(w, events))
    decreases |events|
  {
    if events != [] {
      var init := events[..|events| - 1];
      RunKeeps(s, stats, w, init);
      EventKeeps(Run(s, stats, init), stats, Sent(w, init), events[|events| - 1]);
    }
  }

  lemma FirstFrame(s: State, stats: Stats, bytes: seq<byte>)
    requires (s.decoder.None? || s.decoder.value.page != Page(stats)) && NewDecoder(stats).Some?
    ensures Tracks(OnEvent(s, stats, Data(0, bytes)), stats, Sends(Fresh(), Data(0, bytes)))
  {
    var v := OnEvent(s, stats, Data(0, bytes));
    assert Numbers(v.seen, 1);
    assert [] + bytes == bytes;
  }

  lemma {:induction false} RunAppends(s: State, stats: Stats, first: Event, rest: seq<Event>)
    ensures Run(s, stats, [first] + rest) == Run(OnEvent(s, stats, first), stats, rest)
    decreases |rest|
  {
    var all := [first] + rest;
    if rest == [] {
      assert all == [first] && all[..0] == [];
    } else {
      RunAppends(s, stats, first, rest[..|rest| - 1]);
      assert all[..|all| - 1] == [first] + rest[..|rest| - 1];
    }
  }

  lemma {:induction false} SentAppends(w: Sender, first: Event, rest: seq<Event>)
    requires Follows(w, [first] + rest)
    ensures Legal(w, first) && Follows(Sends(w, first), rest)
    ensures Sent(w, [first] + rest) == Sent(Sends(w, first), rest)
    decreases |rest|
  {
    var all := [first] + rest;
    if rest == [] {
      assert all == [first] && all[..0] == [];
    } else {
      assert all[..|all| - 1] == [first] + rest[..|rest| - 1];
      SentAppends(w, first, rest[..|rest| - 1]);
    }
  }

  /** For a page begun in any state, and any sender that numbers a block's frames in
      order and repeats them at will until the block is acknowledged: at every moment
      the decoder has been fed the page's image so far except the last outgoing frame
      when that is new, and with the frame still pending it is the image so far. */
  lemma PageIsCreditedOnce(s: State, stats: Stats, events: seq<Event>)
    requires (s.decoder.None? || s.decoder.value.page != Page(stats)) && NewDecoder(stats).Some?
    requires events != [] && events[0].Data? && Follows(Fresh(), events)
    ensures var v, w := Run(s, stats, events), Sent(Fresh(), events);
      && v.decoder.Some? && v.decoder.value.page == Page(stats)
      && v.decoder.value.fed == w.left && v.decoder.value.fed + Pending(v) == w.image
  {
    var first, rest := events[0], events[1..];
    assert events == [first] + rest;
    SentAppends(Fresh(), first, rest);
    RunAppends(s, stats, first, rest);
    assert first.number == 0;
    FirstFrame(s, stats, first.bytes);
    RunKeeps(OnEvent(s, stats, first), stats, Sends(Fresh(), first), rest);
  }

  // ---------------------------------------------------------- whole pages

  /** One block: its frames in order, then any repeats, then its acknowledgement. */
  datatype Block = Block(frames: seq<seq<byte>>, repeats: seq<Event>)

  function Flat(frames: seq<seq<byte>>, n: nat): seq<byte>
    requires n <= |frames|
    decreases n
  {
    if n == 0 then [] else Flat(frames, n - 1) + frames[n - 1]
  }

  function FirstRound(frames: seq<seq<byte>>, n: nat): seq<Event>
    requires n <= |frames| <= 256
    decreases n
  {
    if n == 0 then [] else FirstRound(frames, n - 1) + [Data(n - 1, frames[n - 1])]
  }

  function Repeated(b: Block): seq<Event>
    requires |b.frames| <= 256
  {
    FirstRound(b.frames, |b.frames|) + [EndOfBlock] + b.repeats
  }

  function Events(b: Block): seq<Event>
    requires |b.frames| <= 256
  {
    Repeated(b) + [Acknowledged]
  }

  /** Repeats are of the block's own frames, in any order and any number, between any
      other signals but the acknowledgement. */
  predicate WellFormed(b: Block) {
    && 0 < |b.frames| <= 256
    && forall i :: 0 <= i < |b.repeats| ==>
      !b.repeats[i].Acknowledged? && (b.repeats[i].Data? ==> b.repeats[i].number < |b.frames|)
  }

  predicate AllWellFormed(blocks: seq<Block>) {
    forall i :: 0 <= i < |blocks| ==> WellFormed(blocks[i])
  }

  function PageEvents(blocks: seq<Block>): seq<Event>
    requires AllWellFormed(blocks)
    decreases |blocks|
  {
    if blocks == [] then [] else PageEvents(blocks[..|blocks| - 1]) + Events(blocks[|blocks| - 1])
  }

  function Image(blocks: seq<Block>): seq<byte>
    decreases |blocks|
  {
    if blocks == [] then [] else Image(blocks[..|blocks| - 1]) + Flat(blocks[|blocks| - 1].frames, |blocks[|blocks| - 1].frames|)
  }

  /** Between two blocks of a page with `image` so far. */
  predicate Between(w: Sender, image: seq<byte>) {
    w.sent == 0 && !w.repeating && !w.asked && w.image == image
  }

  lemma OneMore(w: Sender, events: seq<Event>, e: Event)
    ensures Sent(w, events + [e]) == Sends(Sent(w, events), e)
    ensures Follows(w, events + [e]) <==> Follows(w, events) && Legal(Sent(w, events), e)
  {
    assert (events + [e])[..|events + [e]| - 1] == events;
  }

  lemma {:induction false} SentJoins(w: Sender, a: seq<Event>, b: seq<Event>)
    ensures Sent(w, a + b) == Sent(Sent(w, a), b)
    ensures Follows(w, a + b) <==> Follows(w, a) && Follows(Sent(w, a), b)
    decreases |b|
  {
    if b == [] {
      assert a + b == a;
    } else {
      var init, last := b[..|b| - 1], b[|b| - 1];
      SentJoins(w, a, init);
      OneMore(w, a + init, last);
      assert a + b == a + init + [last];
    }
  }

  predicate FirstTime(w: Sender, sent: nat, image: seq<byte>) {
    w.sent == sent && !w.repeating && !w.asked && w.image == image
  }

  lemma Associates(a: seq<byte>, b: seq<byte>, c: seq<byte>)
    ensures a + (b + c) == a + b + c && a + [] == a
  {
  }

  lemma NewFrame(w: Sender, events: seq<Event>, number: byte, bytes: seq<byte>, image: seq<byte>)
    requires Follows(w, events) && FirstTime(Sent(w, events), number, image)
    ensures Follows(w, events + [Data(number, bytes)])
    ensures FirstTime(Sent(w, events + [Data(number, bytes)]), number + 1, image + bytes)
  {
    OneMore(w, events, Data(number, bytes));
  }

  lemma {:induction false} FirstRoundSends(w: Sender, frames: seq<seq<byte>>, n: nat)
    requires n <= |frames| <= 256 && Between(w, w.image)
    ensures Follows(w, FirstRound(frames, n)) && FirstTime(Sent(w, FirstRound(frames, n)), n, w.image + Flat(frames, n))
    decreases n
  {
    if n == 0 {
      Associates(w.image, [], []);
    } else {
      FirstRoundSends(w, frames, n - 1);
      NewFrame(w, FirstRound(frames, n - 1), n - 1, frames[n - 1], w.image + Flat(frames, n - 1));
      Associates(w.image, Flat(frames, n - 1), frames[n - 1]);
    }
  }

  predicate Repeating(w: Sender, b: Block) {
    w.sent == |b.frames| && w.repeating && w.asked
  }

  lemma {:induction false} RepeatsChangeNothing(w: Sender, b: Block, n: nat)
    requires WellFormed(b) && n <= |b.repeats| && Repeating(w, b)
    ensures var y := Sent(w, b.repeats[..n]);
      Follows(w, b.repeats[..n]) && Repeating(y, b) && y.image == w.image
    decreases n
  {
    if n > 0 {
      RepeatsChangeNothing(w, b, n - 1);
      OneMore(w, b.repeats[..n - 1], b.repeats[n - 1]);
      assert b.repeats[..n] == b.repeats[..n - 1] + [b.repeats[n - 1]];
    }
  }

  lemma BlockSends(w: Sender, b: Block)
    requires WellFormed(b) && Between(w, w.image)
    ensures Follows(w, Events(b)) && Between(Sent(w, Events(b)), w.image + Flat(b.frames, |b.frames|))
  {
    var first := FirstRound(b.frames, |b.frames|);
    FirstRoundSends(w, b.frames, |b.frames|);
    OneMore(w, first, EndOfBlock);
    var x := Sent(w, first + [EndOfBlock]);
    RepeatsChangeNothing(x, b, |b.repeats|);
    assert b.repeats[..|b.repeats|] == b.repeats;
    SentJoins(w, first + [EndOfBlock], b.repeats);
    OneMore(w, Repeated(b), Acknowledged);
  }

  lemma {:induction false} PageSends(blocks: seq<Block>)
    requires AllWellFormed(blocks)
    ensures Follows(Fresh(), PageEvents(blocks)) && Between(Sent(Fresh(), PageEvents(blocks)), Image(blocks))
    decreases |blocks|
  {
    if blocks != [] {
      var before := PageEvents(blocks[..|blocks| - 1]);
      PageSends(blocks[..|blocks| - 1]);
      BlockSends(Sent(Fresh(), before), blocks[|blocks| - 1]);
      SentJoins(Fresh(), before, Events(blocks[|blocks| - 1]));
    }
  }

  lemma {:induction false} StartsWithData(blocks: seq<Block>)
    requires AllWellFormed(blocks) && blocks != []
    ensures PageEvents(blocks) != [] && PageEvents(blocks)[0].Data?
    decreases |blocks|
  {
    var last := blocks[|blocks| - 1];
    if |blocks| == 1 {
      FirstRoundStarts(last.frames, |last.frames|);
      assert PageEvents(blocks[..0]) == [];
    } else {
      StartsWithData(blocks[..|blocks| - 1]);
    }
  }

  lemma {:induction false} FirstRoundStarts(frames: seq<seq<byte>>, n: nat)
    requires 0 < n <= |frames| <= 256
    ensures FirstRound(frames, n) != [] && FirstRound(frames, n)[0].Data?
    decreases n
  {
    if n > 1 {
      FirstRoundStarts(frames, n - 1);
    }
  }

  /** A whole page, block by block with any repeats: its image data, each byte once. */
  lemma WholePageIsCreditedOnce(s: State, stats: Stats, blocks: seq<Block>)
    requires (s.decoder.None? || s.decoder.value.page != Page(stats)) && NewDecoder(stats).Some?
    requires AllWellFormed(blocks) && blocks != []
    ensures var v := Run(s, stats, PageEvents(blocks));
      v.decoder.Some? && v.decoder.value.fed + Pending(v) == Image(blocks)
  {
    PageSends(blocks);
    StartsWithData(blocks);
    PageIsCreditedOnce(s, stats, PageEvents(blocks));
  }

  // --------------------------------------------------- frames as they are sent

  /** A frame by its address, control and facsimile control fields; the lowest bit of the
      last tells who sends, and does not matter here. */
  function FrameOf(address: byte, control: byte, kind: byte, rest: seq<byte>): seq<byte> {
    [address, control, kind] + rest
  }

  predicate Means(kind: byte, field: byte) {
    kind == field || kind == field + 1
  }

  /** An image frame is read with its number and all its bytes, and the frames around it
      for what they are, each exactly by its control field. */
  lemma FramesAreRead(address: byte, control: byte, kind: byte, number: byte, bytes: seq<byte>, rest: seq<byte>)
    requires bytes != []
    ensures EventOf(false, FrameOf(address, control, kind, [number] + bytes)) == Data(number, bytes) <==> Means(kind, FCD)
    ensures EventOf(false, FrameOf(address, control, kind, rest)) == EndOfBlock <==> Means(kind, PPS)
    ensures EventOf(true, FrameOf(address, control, kind, rest)) == Acknowledged <==> Means(kind, MCF)
    ensures EventOf(false, FrameOf(address, control, kind, rest)).Data? <==> Means(kind, FCD) && |rest| >= 2
  {
    var frame := FrameOf(address, control, kind, [number] + bytes);
    assert frame[3] == number && frame[4..] == bytes;
  }

  // -------------------------------------------- pages without error correction

  function PlainRun(s: State, stats: Stats, chunks: seq<seq<byte>>): State
    decreases |chunks|
  {
    if chunks == [] then s
    else OnPlainData(PlainRun(s, stats, chunks[..|chunks| - 1]), stats, chunks[|chunks| - 1])
  }

  function Joined(chunks: seq<seq<byte>>): seq<byte>
    decreases |chunks|
  {
    if chunks == [] then [] else Joined(chunks[..|chunks| - 1]) + chunks[|chunks| - 1]
  }

  /** Without error correction the page is credited, chunk for chunk, exactly once the peer
      has said that it is ready. */
  lemma {:induction false} PlainPageIsCreditedIffReady(s: State, stats: Stats, chunks: seq<seq<byte>>)
    requires !stats.ecm && chunks != [] && NewDecoder(stats).Some?
    requires s.decoder.None? || s.decoder.value.page != Page(stats)
    ensures var v := PlainRun(s, stats, chunks);
      && (s.imageReady ==> v == s.(decoder := Some(Decoder(Page(stats), TotalRows(stats), Joined(chunks)))))
      && (!s.imageReady ==> v == s)
    decreases |chunks|
  {
    var before := chunks[..|chunks| - 1];
    if before == [] {
      assert [] + chunks[0] == chunks[0];
    } else {
      PlainPageIsCreditedIffReady(s, stats, before);
    }
    if !s.imageReady && before != [] {
      assert PlainRun(s, stats, before) == s;
    }
  }

  /** The peer is ready from its confirmation until it asks for training again; each
      confirmation starts a page anew. */
  lemma ReadinessIsTheLastAnswer(s: State, address: byte, control: byte, kind: byte, rest: seq<byte>)
    ensures var v := OnPlainFrame(s, true, FrameOf(address, control, kind, rest));
      && v.imageReady == (Means(kind, CFR) || (s.imageReady && !Means(kind, FTT)))
      && v.decoder == if Means(kind, CFR) then None else s.decoder
    ensures OnPlainFrame(s, false, FrameOf(address, control, kind, rest)) == s
  {
  }
}
