/**
 The CRLF keepalive of a TLS connection. A lone CRLF answers our probe, two
 adjacent ones are the peer's own ping (section 4.4.1 of RFC 5626), and which of
 the two a CRLF is can only be told when the next token arrives.
 */
module KeepaliveModel {
  import opened Words

  const PING_INTERVAL := 25000
  const PONG_TIMEOUT := 10000

  /** What was known before a CRLF that may yet turn out to be half a ping. */
  datatype Remembered = Remembered(probe: Option<int>, supported: bool)

  datatype State = State(lastPing: int, pending: Option<int>, supported: bool, first: Option<Remembered>)

  datatype Verdict = Idle | SendProbe | Dead

  function New(now: int): State {
    State(now, None, false, None)
  }

  function OnCrlf(k: State): State {
    match k.first
    case Some(first) =>
      if first.probe.Some? then k.(first := None, pending := first.probe, supported := first.supported)
      else k.(first := None)
    case None =>
      k.(first := Some(Remembered(k.pending, k.supported)), pending := None, supported := k.supported || k.pending.Some?)
  }

  function OnMessage(k: State): State {
    k.(first := None)
  }

  function Judge(k: State, now: int): Verdict {
    if k.supported && k.pending.Some? && now >= k.pending.value + PONG_TIMEOUT then Dead
    else if now >= k.lastPing + PING_INTERVAL then SendProbe
    else Idle
  }

  function OnProbe(k: State, now: int): State {
    State(now, Some(now), k.supported, if k.first.Some? && k.first.value.probe.Some? then None else k.first)
  }

  function NextDeadline(k: State): int {
    if k.supported && k.pending.Some? then k.pending.value + PONG_TIMEOUT else k.lastPing + PING_INTERVAL
  }

  /** An outstanding probe, and one that a CRLF may have answered, is the latest sent. */
  predicate ProbesAreLatest(k: State) {
    && (k.pending.Some? ==> k.pending.value == k.lastPing)
    && (k.first.Some? && k.first.value.probe.Some? ==> k.first.value.probe.value == k.lastPing)
  }

  // ---------------------------------------------------- what was observed

  /** Tokens in the order they were received, and the probes sent between them. */
  datatype Token = Crlf | Message | Probe(at: int)

  function After(k: State, tokens: seq<Token>): State
    decreases |tokens|
  {
    if tokens == [] then k
    else
      var before := After(k, tokens[..|tokens| - 1]);
      match tokens[|tokens| - 1]
      case Crlf => OnCrlf(before)
      case Message => OnMessage(before)
      case Probe(at) => OnProbe(before, at)
  }

  /** A reading of the tokens: each CRLF alone, or two of them as one peer ping. */
  datatype Entry = Lone | PeerPing | Heard | Sent(at: int)

  /** The probe that no lone CRLF has answered yet. */
  function Outstanding(log: seq<Entry>): Option<int>
    decreases |log|
  {
    if log == [] then None
    else match log[|log| - 1]
    case Sent(at) => Some(at)
    case Lone => None
    case _ => Outstanding(log[..|log| - 1])
  }

  function LastSent(log: seq<Entry>): Option<int>
    decreases |log|
  {
    if log == [] then None
    else if log[|log| - 1].Sent? then Some(log[|log| - 1].at)
    else LastSent(log[..|log| - 1])
  }

  /** The CRLF at `i` answered a probe of ours. */
  predicate Answers(log: seq<Entry>, i: nat)
    requires i < |log|
  {
    log[i] == Lone && Outstanding(log[..i]).Some?
  }

  predicate Answered(log: seq<Entry>) {
    exists i :: 0 <= i < |log| && Answers(log, i)
  }

  /** The lone CRLF at `i` is still adjacent to whatever comes next: only probes were
      sent since, and none at all if it answered one. */
  predicate OpenAt(log: seq<Entry>, i: nat)
    requires i < |log|
  {
    && log[i] == Lone && (forall j :: i < j < |log| ==> log[j].Sent?)
    && (Answers(log, i) ==> i == |log| - 1)
  }

  /** The reading: a CRLF next to an open lone one makes the two a peer ping. */
  ghost function Reading(tokens: seq<Token>): (log: seq<Entry>)
    decreases |tokens|
  {
    if tokens == [] then []
    else
      var log := Reading(tokens[..|tokens| - 1]);
      match tokens[|tokens| - 1]
      case Message => log + [Heard]
      case Probe(at) => log + [Sent(at)]
      case Crlf =>
        if i: nat :| i < |log| && OpenAt(log, i) then log[i := PeerPing] else log + [Lone]
  }

  /** How often a CRLF made us answer the peer with one. */
  function Replies(k: State, tokens: seq<Token>): nat
    decreases |tokens|
  {
    if tokens == [] then 0
    else
      var init := tokens[..|tokens| - 1];
      Replies(k, init) + if tokens[|tokens| - 1].Crlf? && After(k, init).first.Some? then 1 else 0
  }

  function Pings(log: seq<Entry>): nat
    decreases |log|
  {
    if log == [] then 0 else Pings(log[..|log| - 1]) + if log[|log| - 1].PeerPing? then 1 else 0
  }

  // ------------------------------------------------------ the byte stream

  /** What PJSIP's parser consumes of a buffer: nothing while a message is incomplete.
      The parser is not part of this model; only its answers are. */
  type Parser = seq<byte> -> nat

  const CR: byte := 13
  const LF: byte := 10

  predicate StartsWithCrlf(bytes: seq<byte>) {
    |bytes| >= 2 && bytes[0] == CR && bytes[1] == LF
  }

  datatype Link = Link(keepalive: State, incoming: seq<byte>, replies: nat, messages: seq<seq<byte>>)

  function TakeCrlf(link: Link): Link
    requires StartsWithCrlf(link.incoming)
  {
    Link(OnCrlf(link.keepalive), link.incoming[2..], link.replies + (if link.keepalive.first.Some? then 1 else 0), link.messages)
  }

  function TakeMessage(link: Link, size: nat): Link
    requires size <= |link.incoming|
  {
    Link(OnMessage(link.keepalive), link.incoming[size..], link.replies, link.messages + [link.incoming[..size]])
  }

  /** Take tokens off the buffer until it is empty or a token is incomplete. */
  function Scan(link: Link, parser: Parser): Link
    decreases |link.incoming|
  {
    if StartsWithCrlf(link.incoming) then Scan(TakeCrlf(link), parser)
    else if link.incoming == [CR] || link.incoming == [] then link
    else
      var size := parser(link.incoming);
      if 0 < size <= |link.incoming| then Scan(TakeMessage(link, size), parser)
      else link.(keepalive := OnMessage(link.keepalive))
  }

  function Extended(link: Link, more: seq<byte>): Link {
    link.(incoming := link.incoming + more)
  }

  /** The tokens a scan takes. A message that is still incomplete is one already: it
      ends a pair. */
  function Tokens(incoming: seq<byte>, parser: Parser): seq<Token>
    decreases |incoming|
  {
    if StartsWithCrlf(incoming) then [Crlf] + Tokens(incoming[2..], parser)
    else if incoming == [CR] || incoming == [] then []
    else
      var size := parser(incoming);
      [Message] + if 0 < size <= |incoming| then Tokens(incoming[size..], parser) else []
  }

  // ----------------------------------------------------------------- polls

  /** One turn of the connection: the bytes that were there, and the time it took them. */
  datatype Read = Read(bytes: seq<byte>, now: int)

  /** A connection given up is closed by its owner and takes no more turns. */
  datatype Session = Session(link: Link, probes: seq<int>, dead: bool)

  function Connected(now: int): Session {
    Session(Link(New(now), [], 0, []), [], false)
  }

  /** Every turn ends with the tick, after all received bytes were taken. */
  function Ticked(link: Link, probes: seq<int>, now: int): Session {
    match Judge(link.keepalive, now)
    case Dead => Session(link, probes, true)
    case SendProbe => Session(link.(keepalive := OnProbe(link.keepalive, now)), probes + [now], false)
    case Idle => Session(link, probes, false)
  }

  function Poll(s: Session, read: Read, parser: Parser): Session {
    if s.dead then s else Ticked(Scan(Extended(s.link, read.bytes), parser), s.probes, read.now)
  }

  function Polls(s: Session, turns: seq<Read>, parser: Parser): Session
    decreases |turns|
  {
    if turns == [] then s else Poll(Polls(s, turns[..|turns| - 1], parser), turns[|turns| - 1], parser)
  }

  /** A tick that sends a probe while the last CRLF has answered one and may yet be half
      a ping: the half is forgotten. */
  predicate PartsPing(k: State) {
    k.first.Some? && k.first.value.probe.Some?
  }

  /** The tick at `now` ends the connection or forgets half a ping. */
  predicate Disturbs(k: State, now: int) {
    Judge(k, now) == Dead || (Judge(k, now) == SendProbe && PartsPing(k))
  }
}
