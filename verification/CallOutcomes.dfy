/**
 What a call must do: exactly what ends it, when an offer is made, taken up or given up,
 and when its modem starts.
 */
module CallOutcomes {
  import opened Words
  import opened CallModel
  import opened CallTheorems

  // ------------------------------------------------------- single events

  /** An unanswered outgoing call in automatic mode is placed again after its first 488. */
  predicate PlacedAgain(p: Pump, code: int) {
    p.mode == Auto && !p.receiving && p.connected.None? && code == 488 && !p.directRetry
  }

  /** The response that decides about the open offer. */
  predicate Decides(attempt: Attempt, cseq: int, code: int) {
    attempt.Waiting? && attempt.cseq == cseq && code >= 200 && code != 401 && code != 407
  }

  /** A collision that leaves another attempt. */
  predicate Collides(talk: Talk, code: int) {
    talk.attempt.Waiting? && talk.attempt.kind == T38 && code == 491 && talk.glare < 2
  }

  /** T.38 is refused by a peer on audio. */
  predicate Refuses(p: Pump, code: int) {
    p.talk.attempt.Waiting? && p.talk.attempt.kind == T38 && code >= 300 && !Collides(p.talk, code)
    && p.media.remote.Some? && p.media.remote.value.kind == Audio
  }

  /** The offer is accepted with a description of its kind. */
  predicate Agrees(attempt: Attempt, code: int) {
    attempt.Waiting? && code < 300 && attempt.ready
  }

  /** An accepted or refused T.38 offer after which the medium is unclear. */
  predicate Unclear(p: Pump, code: int) {
    !Collides(p.talk, code) && !Refuses(p, code) && !Agrees(p.talk.attempt, code)
  }

  /** A running modem cannot follow the peer's description. */
  predicate Breaks(media: Media, negotiated: Remote) {
    media.fax.Some? && media.remote != Some(negotiated) && !(media.fax == Some(Audio) && negotiated.kind == Audio)
  }

  /** Exactly these events end a call. */
  predicate EventEnds(p: Pump, e: Event, stack: Stack) {
    match e
    case PeerHangup => true
    case Disconnected(code) => !PlacedAgain(p, code) || stack.inviteFails
    case Described(None) => true
    case Described(Some(negotiated)) => Breaks(p.media, negotiated)
    case MediaError => !p.talk.attempt.Waiting?
    case InviteFinal(cseq, code) =>
      Decides(p.talk.attempt, cseq, code) && Unclear(p, code) && (p.talk.attempt.kind == Audio || stack.reinviteFails)
    case Ringing | Connected | InviteStarted(_) | Unrelated => false
  }

  lemma EventEndsIff(p: Pump, e: Event, now: int, stack: Stack)
    requires Inv(p) && !p.over
    ensures OnEvent(p, e, now, stack).over <==> EventEnds(p, e, stack)
  {
  }

  /** What a response decides: the offer is taken up, refused or postponed, or G.711 is
      offered instead, each exactly in its case. */
  lemma ResponsesDecideExactly(p: Pump, cseq: int, code: int, now: int, stack: Stack) returns (v: Pump)
    requires Inv(p) && !p.over && p.talk.attempt.Waiting?
    ensures v == OnEvent(p, InviteFinal(cseq, code), now, stack)
    ensures !Decides(p.talk.attempt, cseq, code) ==> v == p
    ensures Decides(p.talk.attempt, cseq, code) ==>
      && (v.talk.attempt == Accepted <==> p.talk.attempt.kind == T38 && Agrees(p.talk.attempt, code))
      && (v.talk.attempt == Rejected <==> Refuses(p, code) || (p.talk.attempt.kind == Audio && Agrees(p.talk.attempt, code)))
      && (v.talk.attempt.Backoff? <==> Collides(p.talk, code))
      && (Collides(p.talk, code) ==> v.talk.attempt == Backoff(now + GlareDelay(p.receiving, stack.random)) && v.talk.glare == p.talk.glare + 1)
      && (v.talk.offersG711 == (if p.talk.attempt.kind == T38 && Unclear(p, code) then 1 else p.talk.offersG711))
      && (p.talk.attempt.kind == T38 && Unclear(p, code) && !stack.reinviteFails ==>
            v.talk.attempt == Waiting(Audio, stack.cseq, now, false, false))
  {
    v := OnEvent(p, InviteFinal(cseq, code), now, stack);
  }

  /** Before a modem runs, every description of the peer is taken, and its network built. */
  lemma DescriptionIsTaken(p: Pump, negotiated: Remote, now: int, stack: Stack) returns (v: Pump)
    requires Inv(p) && !p.over && p.media.fax.None?
    ensures v == OnEvent(p, Described(Some(negotiated)), now, stack)
    ensures !v.over && v.media.remote == Some(negotiated) && v.connected == p.connected && v.media.fax.None?
    ensures v.media.audio == (p.media.audio || negotiated.kind == Audio) && v.media.packets == (p.media.packets || negotiated.kind == T38)
    ensures v.talk == if p.talk.attempt.Waiting?
                      then p.talk.(attempt := p.talk.attempt.(ready := negotiated.kind == p.talk.attempt.kind)) else p.talk
  {
    v := OnEvent(p, Described(Some(negotiated)), now, stack);
  }

  /** A call that is placed again starts over, offering T.38, and only once. */
  lemma RefusedCallIsPlacedAgain(p: Pump, now: int, stack: Stack) returns (v: Pump)
    requires !p.over && PlacedAgain(p, 488) && !stack.inviteFails
    ensures v == OnEvent(p, Disconnected(488), now, stack)
    ensures !v.over && v.directRetry && v.media.remote.None? && !v.media.audio && !v.media.packets && v.media.current == T38
    ensures forall code :: !PlacedAgain(v, code)
  {
    v := OnEvent(p, Disconnected(488), now, stack);
  }

  // ------------------------------------------------- the events of a turn

  /** One of the queued events ends the call. */
  predicate SomeEventEnds(p: Pump, events: seq<Event>, now: int, stack: Stack)
    decreases |events|
  {
    events != [] && (EventEnds(p, events[0], stack) || SomeEventEnds(OnEvent(p, events[0], now, stack), events[1..], now, stack))
  }

  lemma {:induction false} DrainEndsIff(p: Pump, events: seq<Event>, now: int, stack: Stack)
    requires Inv(p) && !p.over
    ensures Drain(p, events, now, stack).over <==> SomeEventEnds(p, events, now, stack)
    decreases |events|
  {
    if events != [] {
      EventEndsIff(p, events[0], now, stack);
      EventKeeps(p, events[0], now, stack);
      if !EventEnds(p, events[0], stack) {
        DrainEndsIff(OnEvent(p, events[0], now, stack), events[1..], now, stack);
      }
    }
  }

  /** A call is connected from the first turn that hears so. */
  lemma {:induction false} ConnectedExactly(p: Pump, events: seq<Event>, now: int, stack: Stack)
    ensures var q := Drain(p, events, now, stack);
      q.over || q.connected == if p.connected.Some? then p.connected else if Connected in events then Some(now) else None
    decreases |events|
  {
    if events != [] && !p.over {
      ConnectedExactly(OnEvent(p, events[0], now, stack), events[1..], now, stack);
      assert events == [events[0]] + events[1..];
    }
  }

  /** The number of the INVITE now awaiting its response. */
  function LastStarted(events: seq<Event>, cseq: int): int
    decreases |events|
  {
    if events == [] then cseq
    else LastStarted(events[1..], if events[0].InviteStarted? then events[0].cseq else cseq)
  }

  /** Whether the last word on the medium was a description of this kind. */
  function LastWord(events: seq<Event>, kind: Kind, ready: bool): bool
    decreases |events|
  {
    if events == [] then ready
    else
      match events[0]
      case Described(Some(negotiated)) => LastWord(events[1..], kind, negotiated.kind == kind)
      case MediaError => LastWord(events[1..], kind, false)
      case _ => LastWord(events[1..], kind, ready)
  }

  /** While it is open, an offer awaits the response to the INVITE last sent for it, and
      counts as taken up exactly if the last word on the medium was of its kind. */
  lemma {:induction false} OpenOfferFollows(p: Pump, events: seq<Event>, now: int, stack: Stack)
    requires p.talk.attempt.Waiting? && (forall e :: e in events ==> !e.InviteFinal?)
    ensures var q := Drain(p, events, now, stack); var offer := p.talk.attempt;
      q.over || q.talk.attempt == offer.(cseq := LastStarted(events, offer.cseq), ready := LastWord(events, offer.kind, offer.ready))
    decreases |events|
  {
    if events != [] && !p.over {
      assert !events[0].InviteFinal?;
      var v := OnEvent(p, events[0], now, stack);
      assert p.talk.attempt == v.talk.attempt.(cseq := p.talk.attempt.cseq, ready := p.talk.attempt.ready);
      OpenOfferFollows(v, events[1..], now, stack);
    }
  }

  // ------------------------------------------------------------ whole turns

  predicate Late(p: Pump, now: int, cancelled: bool) {
    cancelled || now - p.started > 1_800_000 || (p.connected.None? && now - p.started > 60_000)
  }

  /** An open offer is given up: it cannot be cancelled, or has not settled in its time. */
  predicate OfferFails(attempt: Attempt, now: int, stack: Stack) {
    attempt.Waiting?
    && if now - attempt.since >= 5_000 && !attempt.cancelling then stack.cancelFails else now - attempt.since > 38_000
  }

  /** T.38 is offered as soon as we have received a call, or 3.5 s after ours was
      answered, and again when the wait after a collision is over. */
  predicate ShouldOffer(p: Pump, now: int) {
    p.mode == Auto && p.media.fax.None? && p.connected.Some? && p.media.remote.Some? && p.media.remote.value.kind == Audio
    && ((p.talk.attempt.NotStarted? && (p.receiving || now - p.connected.value >= 3_500))
        || (p.talk.attempt.Backoff? && now >= p.talk.attempt.retryAt))
  }

  /** The modem a turn must start: on T.38 unless an offer is open, on audio where that is
      asked for, or where T.38 was refused. */
  function Wanted(p: Pump): Option<Kind> {
    if p.media.fax.Some? || p.media.remote.None? then None
    else if p.media.remote.value.kind == T38 then if p.talk.attempt.Waiting? then None else Some(T38)
    else if p.mode == OnlyG711 || (p.mode == Auto && p.talk.attempt == Rejected) then Some(Audio)
    else None
  }

  /** The call has no medium, or not the one it is restricted to. */
  predicate Unusable(p: Pump, now: int) {
    p.media.fax.None? && p.connected.Some?
    && match p.media.remote
       case None => now - p.connected.value > 5_000
       case Some(remote) => remote.kind == Audio && p.mode == OnlyT38
  }

  /** With the events heard, these end the call. */
  predicate DecisionEnds(q: Pump, now: int, stack: Stack) {
    q.connected.Some?
    && (|| OfferFails(q.talk.attempt, now, stack)
        || Unusable(q, now)
        || (Wanted(q).Some? && stack.modemFails)
        || (ShouldOffer(q, now) && stack.reinviteFails))
  }

  predicate TurnEnds(p: Pump, events: seq<Event>, now: int, cancelled: bool, stack: Stack) {
    Late(p, now, cancelled) || SomeEventEnds(p, events, now, stack) || DecisionEnds(Drain(p, events, now, stack), now, stack)
  }

  /** What a turn decides about a connected call. */
  function Decided(q: Pump, now: int, stack: Stack): Pump {
    var r := Watch(q, now, stack);
    if r.over then r else Choose(r, now, stack)
  }

  lemma DecisionEndsIff(q: Pump, now: int, stack: Stack)
    requires Inv(q) && !q.over && q.connected.Some?
    ensures Decided(q, now, stack).over <==> DecisionEnds(q, now, stack)
  {
  }

  /** A turn ends the call exactly if it is cancelled or out of time, an event ends it, its
      open offer fails, it has no usable medium, or the stack fails what is due. */
  lemma TurnEndsIff(p: Pump, events: seq<Event>, now: int, cancelled: bool, stack: Stack)
    requires Inv(p) && !p.over
    ensures Step(p, events, now, cancelled, stack).over <==> TurnEnds(p, events, now, cancelled, stack)
  {
    DrainEndsIff(p, events, now, stack);
    DrainKeeps(p, events, now, stack);
    var q := Drain(p, events, now, stack);
    if !q.over && q.connected.Some? {
      DecisionEndsIff(q, now, stack);
    }
  }

  // --------------------------------------------------- what a turn decides

  lemma ModemsStart(q: Pump, now: int, stack: Stack)
    requires Inv(q) && !q.over && q.connected.Some? && q.media.fax.None? && !OfferFails(q.talk.attempt, now, stack)
    ensures var v := Decided(q, now, stack);
      && (Wanted(q).Some? && !stack.modemFails ==>
            !v.over && v.media == q.media.(fax := Wanted(q), switchAllowed := false, modems := 1) && v.talk == q.talk)
      && (Wanted(q).Some? && stack.modemFails ==> v.over)
      && (Wanted(q).None? || stack.modemFails ==> v.media == q.media)
  {
  }

  lemma OffersAreMade(q: Pump, now: int, stack: Stack)
    requires Inv(q) && !q.over && q.connected.Some? && q.media.fax.None?
    ensures var v := Decided(q, now, stack);
      && (v.talk.offersT38 == q.talk.offersT38 + (if ShouldOffer(q, now) then 1 else 0))
      && (ShouldOffer(q, now) && !stack.reinviteFails ==> !v.over && v.talk.attempt == Waiting(T38, stack.cseq, now, false, false))
  {
  }

  /** An open offer is cancelled after 5 s, and otherwise left as it is. */
  lemma OffersAreCancelled(q: Pump, now: int, stack: Stack)
    requires Inv(q) && !q.over && q.connected.Some? && q.talk.attempt.Waiting?
    ensures var v := Decided(q, now, stack);
      v.over || v.talk.attempt == q.talk.attempt.(cancelling := q.talk.attempt.cancelling || now - q.talk.attempt.since >= 5_000)
  {
  }

  /** The turn that hears of the medium starts the modem it is for, exactly unless the
      modem cannot be started: T.38 once described with no offer open, audio where only
      G.711 is asked for, audio in automatic mode once T.38 is refused. */
  lemma ModemStartsExactly(p: Pump, events: seq<Event>, now: int, cancelled: bool, stack: Stack) returns (v: Pump)
    requires Inv(p) && !p.over && !Late(p, now, cancelled) && !SomeEventEnds(p, events, now, stack)
    requires var q := Drain(p, events, now, stack);
      q.connected.Some? && q.media.fax.None? && !OfferFails(q.talk.attempt, now, stack)
    ensures v == Step(p, events, now, cancelled, stack)
    ensures var q := Drain(p, events, now, stack);
      && (Wanted(q).Some? ==> (!v.over && v.media.fax == Wanted(q) <==> !stack.modemFails))
      && (Wanted(q).None? ==> v.media.fax.None?)
  {
    DrainEndsIff(p, events, now, stack);
    DrainKeeps(p, events, now, stack);
    var q := Drain(p, events, now, stack);
    ModemsStart(q, now, stack);
    v := Decided(q, now, stack);
  }

  /** T.38 is offered by exactly those turns that find it due. */
  lemma OfferIsMadeExactly(p: Pump, events: seq<Event>, now: int, cancelled: bool, stack: Stack) returns (v: Pump)
    requires Inv(p) && !p.over && !Late(p, now, cancelled) && !SomeEventEnds(p, events, now, stack)
    requires Drain(p, events, now, stack).connected.Some?
    ensures v == Step(p, events, now, cancelled, stack)
    ensures var q := Drain(p, events, now, stack);
      && (ShouldOffer(q, now) && !stack.reinviteFails ==> !v.over && v.talk.attempt == Waiting(T38, stack.cseq, now, false, false))
      && v.talk.offersT38 == q.talk.offersT38 + (if ShouldOffer(q, now) then 1 else 0)
  {
    DrainEndsIff(p, events, now, stack);
    DrainKeeps(p, events, now, stack);
    var q := Drain(p, events, now, stack);
    if q.media.fax.None? {
      OffersAreMade(q, now, stack);
    }
    v := Decided(q, now, stack);
  }

  /** A T.38 offer that the peer accepts and describes starts the modem in the same turn. */
  lemma AcceptedOfferStartsModem(p: Pump, detail: nat, code: int, now: int, stack: Stack) returns (v: Pump)
    requires Inv(p) && !p.over && p.connected.Some? && p.media.fax.None? && !Late(p, now, false) && !stack.modemFails
    requires p.talk.attempt.Waiting? && p.talk.attempt.kind == T38 && 200 <= code < 300
    ensures v == Step(p, [Described(Some(Remote(T38, detail))), InviteFinal(p.talk.attempt.cseq, code)], now, false, stack)
    ensures !v.over && v.media.fax == Some(T38) && v.talk.attempt == Accepted
  {
    var events := [Described(Some(Remote(T38, detail))), InviteFinal(p.talk.attempt.cseq, code)];
    var described := DescriptionIsTaken(p, Remote(T38, detail), now, stack);
    EventKeeps(p, events[0], now, stack);
    var accepted := ResponsesDecideExactly(described, p.talk.attempt.cseq, code, now, stack);
    EventKeeps(described, events[1], now, stack);
    EventEndsIff(described, events[1], now, stack);
    var rest := events[1..];
    assert rest == [events[1]] && rest[1..] == [];
    assert Drain(accepted, [], now, stack) == accepted && Drain(described, rest, now, stack) == accepted;
    ModemsStart(accepted, now, stack);
    v := Decided(accepted, now, stack);
  }

  /** A T.38 offer that a peer on audio refuses starts the audio modem in the same turn. */
  lemma RefusedOfferFallsBack(p: Pump, code: int, now: int, stack: Stack) returns (v: Pump)
    requires Inv(p) && !p.over && p.media.fax.None? && !Late(p, now, false) && !stack.modemFails
    requires p.talk.attempt.Waiting? && Decides(p.talk.attempt, p.talk.attempt.cseq, code) && Refuses(p, code)
    ensures v == Step(p, [InviteFinal(p.talk.attempt.cseq, code)], now, false, stack)
    ensures !v.over && v.media.fax == Some(Audio) && v.talk.attempt == Rejected
  {
    var refusal := InviteFinal(p.talk.attempt.cseq, code);
    var refused := ResponsesDecideExactly(p, p.talk.attempt.cseq, code, now, stack);
    EventKeeps(p, refusal, now, stack);
    EventEndsIff(p, refusal, now, stack);
    assert [refusal][1..] == [];
    assert Drain(refused, [], now, stack) == refused && Drain(p, [refusal], now, stack) == refused;
    ModemsStart(refused, now, stack);
    v := Decided(refused, now, stack);
  }

  // ------------------------------------------------------------ whole runs

  /** One of the turns of a run ends the call. */
  predicate SomeTurnEnds(p: Pump, actions: seq<Action>)
    decreases |actions|
  {
    actions != []
    && ((actions[0].Turn? && TurnEnds(p, actions[0].events, actions[0].now, actions[0].cancelled, actions[0].stack))
        || SomeTurnEnds(Apply(p, actions[0]), actions[1..]))
  }

  lemma {:induction false} OverIsOver(p: Pump, actions: seq<Action>)
    requires p.over
    ensures Run(p, actions).over
    decreases |actions|
  {
    if actions != [] {
      OverIsOver(Apply(p, actions[0]), actions[1..]);
    }
  }

  lemma {:induction false} OverExactlyIfEnded(p: Pump, actions: seq<Action>)
    requires Inv(p) && !p.over
    ensures Run(p, actions).over <==> SomeTurnEnds(p, actions)
    decreases |actions|
  {
    if actions != [] {
      var v := Apply(p, actions[0]);
      if actions[0].Turn? {
        TurnEndsIff(p, actions[0].events, actions[0].now, actions[0].cancelled, actions[0].stack);
        StepKeeps(p, actions[0].events, actions[0].now, actions[0].cancelled, actions[0].stack);
      }
      if v.over {
        OverIsOver(v, actions[1..]);
      } else {
        OverExactlyIfEnded(v, actions[1..]);
      }
    }
  }

  /** A call is over exactly if one of its turns had to end it, by the list above. */
  lemma CallsEndExactly(mode: Mode, receiving: bool, started: int, actions: seq<Action>)
    ensures Run(New(mode, receiving, started), actions).over <==> SomeTurnEnds(New(mode, receiving, started), actions)
  {
    OverExactlyIfEnded(New(mode, receiving, started), actions);
  }

  /** Once a turn has to start a modem and the stack can, the call has that modem and goes
      on exactly until a later turn must end it. */
  lemma StartedModemRunsOn(mode: Mode, receiving: bool, started: int, earlier: seq<Action>, turn: Action, later: seq<Action>)
    requires turn.Turn? && !turn.stack.modemFails && !Run(New(mode, receiving, started), earlier).over
    requires var p := Run(New(mode, receiving, started), earlier);
      var q := Drain(p, turn.events, turn.now, turn.stack);
      && !Late(p, turn.now, turn.cancelled) && !SomeEventEnds(p, turn.events, turn.now, turn.stack)
      && q.connected.Some? && !OfferFails(q.talk.attempt, turn.now, turn.stack) && Wanted(q).Some?
    ensures var p := Run(New(mode, receiving, started), earlier);
      var v := Apply(p, turn);
      && v.media.fax == Wanted(Drain(p, turn.events, turn.now, turn.stack)) && !v.over
      && Run(v, later).media.fax == v.media.fax && (Run(v, later).over <==> SomeTurnEnds(v, later))
  {
    RunKeeps(New(mode, receiving, started), earlier);
    var p := Run(New(mode, receiving, started), earlier);
    var v := ModemStartsExactly(p, turn.events, turn.now, turn.cancelled, turn.stack);
    StepKeeps(p, turn.events, turn.now, turn.cancelled, turn.stack);
    ModemIsForGood(v, later);
    OverExactlyIfEnded(v, later);
  }

  // ------------------------------------------------- the peer's own offers

  /** Another medium may be chosen in automatic mode, as long as no modem runs. */
  predicate Open(p: Pump) {
    p.media.switchAllowed <==> p.mode == Auto && p.media.fax.None?
  }

  lemma EventKeepsOpen(p: Pump, e: Event, now: int, stack: Stack)
    requires Open(p)
    ensures Open(OnEvent(p, e, now, stack)) && OnEvent(p, e, now, stack).mode == p.mode
  {
  }

  lemma {:induction false} DrainKeepsOpen(p: Pump, events: seq<Event>, now: int, stack: Stack)
    requires Open(p)
    ensures Open(Drain(p, events, now, stack)) && Drain(p, events, now, stack).mode == p.mode
    decreases |events|
  {
    if events != [] && !p.over {
      EventKeepsOpen(p, events[0], now, stack);
      DrainKeepsOpen(OnEvent(p, events[0], now, stack), events[1..], now, stack);
    }
  }

  lemma DecisionKeepsOpen(q: Pump, now: int, stack: Stack)
    requires Open(q)
    ensures Open(Decided(q, now, stack)) && Decided(q, now, stack).mode == q.mode
  {
    ChoiceKeepsOpen(Watch(q, now, stack), now, stack);
  }

  lemma ChoiceKeepsOpen(q: Pump, now: int, stack: Stack)
    requires Open(q)
    ensures Open(Choose(q, now, stack)) && Choose(q, now, stack).mode == q.mode
  {
  }

  lemma {:induction false} RunKeepsOpen(p: Pump, actions: seq<Action>)
    requires Open(p)
    ensures Open(Run(p, actions)) && Run(p, actions).mode == p.mode
    decreases |actions|
  {
    if actions != [] {
      if actions[0].Turn? {
        var Turn(events, now, cancelled, stack) := actions[0];
        DrainKeepsOpen(p, events, now, stack);
        DecisionKeepsOpen(Drain(p, events, now, stack), now, stack);
      }
      RunKeepsOpen(Apply(p, actions[0]), actions[1..]);
    }
  }

  /** In every call, an offer of the peer's for a medium not excluded by the mode is let
      through exactly if it is for the medium in use, or the mode is automatic and no modem
      runs yet. */
  lemma PeersOffersAreLetThrough(mode: Mode, receiving: bool, started: int, actions: seq<Action>, kind: Kind)
    ensures var p := Run(New(mode, receiving, started), actions);
      Accepts(p, kind) <==> mode != (if kind == Audio then OnlyT38 else OnlyG711)
                            && (p.media.current == kind || (mode == Auto && p.media.fax.None?))
  {
    RunKeepsOpen(New(mode, receiving, started), actions);
  }
}
