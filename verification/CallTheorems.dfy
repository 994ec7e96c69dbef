/** Media negotiation is bounded and safe over every run of events and turns. */
module CallTheorems {
  import opened Words
  import opened CallModel

  /** How many offers have been made, by where the negotiation stands. */
  predicate Budget(over: bool, talk: Talk) {
    && talk.glare <= 2 && talk.offersT38 <= 3 && talk.offersG711 <= 1
    && (!over ==> match talk.attempt
      case NotStarted => talk.glare == 0 && talk.offersT38 == 0 && talk.offersG711 == 0
      case Backoff(_) => talk.glare >= 1 && talk.offersT38 == talk.glare && talk.offersG711 == 0
      case Waiting(kind, _, _, _, _) => talk.offersT38 == talk.glare + 1 && talk.offersG711 == (if kind == Audio then 1 else 0)
      case Accepted => talk.offersT38 == talk.glare + 1 && talk.offersG711 == 0
      case Rejected => talk.offersT38 == talk.glare + 1)
  }

  /** A modem runs only on the medium the peer's description selects, and a medium only
      on the network built for it. */
  predicate MediaSafe(media: Media) {
    && media.modems == (if media.fax.Some? then 1 else 0)
    && (media.fax.Some? ==> media.remote.Some? && media.remote.value.kind == media.fax.value && !media.switchAllowed)
    && (media.remote.Some? ==> if media.remote.value.kind == Audio then media.audio else media.packets)
  }

  /** No modem while an offer of ours is open, and in automatic mode none on audio until
      T.38 is refused. */
  predicate ModemSafe(fax: Option<Kind>, attempt: Attempt, mode: Mode, connected: Option<int>) {
    && (fax.Some? ==> connected.Some? && !attempt.Waiting?)
    && (fax == Some(Audio) ==> mode != OnlyT38 && (mode == Auto ==> attempt == Rejected))
    && (attempt != NotStarted ==> mode == Auto && connected.Some?)
  }

  /** An offer counts as taken up only while the peer's description is of its kind. */
  predicate ReadySafe(attempt: Attempt, remote: Option<Remote>) {
    attempt.Waiting? && attempt.ready ==> remote.Some? && remote.value.kind == attempt.kind
  }

  predicate Inv(p: Pump) {
    && Budget(p.over, p.talk) && MediaSafe(p.media)
    && ModemSafe(p.media.fax, p.talk.attempt, p.mode, p.connected) && ReadySafe(p.talk.attempt, p.media.remote)
  }

  // ------------------------------------------------------- single events

  lemma OverKeeps(p: Pump)
    requires Inv(p)
    ensures Inv(Over(p))
  {
  }

  lemma TakenKeeps(media: Media, negotiated: Remote)
    requires MediaSafe(media)
    ensures var taken := Taken(media, negotiated);
      && (taken.None? ==> media.fax.Some?)
      && (taken.Some? ==> MediaSafe(taken.value) && taken.value.remote == Some(negotiated) && taken.value.fax == media.fax
                          && taken.value.current == media.current)
  {
  }

  lemma MediaKeeps(p: Pump, description: Option<Remote>)
    requires Inv(p) && !p.over
    ensures Inv(OnMedia(p, description))
  {
    if description.Some? {
      TakenKeeps(p.media, description.value);
      if Taken(p.media, description.value).None? {
        assert NoteReady(p, description.value.kind) == p;
      }
    }
  }

  lemma ReinviteKeeps(p: Pump, kind: Kind, now: int, stack: Stack)
    requires Inv(p) && !p.over && p.media.fax.None? && p.mode == Auto && p.connected.Some?
    requires if kind == T38 then p.talk.attempt.NotStarted? || p.talk.attempt.Backoff?
             else p.talk.attempt.Waiting? && p.talk.attempt.kind == T38
    ensures Inv(Reinvited(p, kind, now, stack)) && Reinvited(p, kind, now, stack).media == p.media
  {
  }

  /** How a final response moves the negotiation: an accepted offer means the peer's
      description is T.38 at that moment, a refused one that it is audio, and only a
      collision postpones an offer, by the time prescribed for our side. */
  lemma FinalResponsesDecide(p: Pump, cseq: int, code: int, now: int, stack: Stack)
    requires Inv(p) && !p.over && p.talk.attempt.Waiting?
    ensures Inv(OnInviteFinal(p, cseq, code, now, stack)) && OnInviteFinal(p, cseq, code, now, stack).media == p.media
    ensures match OnInviteFinal(p, cseq, code, now, stack).talk.attempt
      case Accepted => p.media.remote.Some? && p.media.remote.value.kind == T38 && 200 <= code < 300
      case Rejected => p.media.remote.Some? && p.media.remote.value.kind == Audio
      case Backoff(retryAt) =>
        code == 491 && p.talk.attempt.kind == T38 && p.talk.glare < 2
        && (if p.receiving then now <= retryAt <= now + 2000 else now + 2100 <= retryAt <= now + 4000)
      case _ => true
  {
    if p.talk.attempt.cseq == cseq && code >= 200 && code != 401 && code != 407 {
      if p.talk.attempt.kind == T38 && code == 491 && p.talk.glare < 2 {
      } else if p.talk.attempt.kind == T38 && code >= 300 && p.media.remote.Some? && p.media.remote.value.kind == Audio {
      } else if code < 300 && p.talk.attempt.ready {
      } else if p.talk.attempt.kind == T38 {
        ReinviteKeeps(p, Audio, now, stack);
      }
    }
  }

  lemma DisconnectedKeeps(p: Pump, code: int, stack: Stack)
    requires Inv(p) && !p.over
    ensures Inv(OnDisconnected(p, code, stack))
  {
  }

  lemma EventKeeps(p: Pump, e: Event, now: int, stack: Stack)
    requires Inv(p) && !p.over
    ensures Inv(OnEvent(p, e, now, stack))
  {
    match e
    case Described(description) => MediaKeeps(p, description);
    case InviteFinal(cseq, code) =>
      if p.talk.attempt.Waiting? {
        FinalResponsesDecide(p, cseq, code, now, stack);
      }
    case Disconnected(code) => DisconnectedKeeps(p, code, stack);
    case PeerHangup => OverKeeps(p);
    case _ =>
  }

  lemma {:induction false} DrainKeeps(p: Pump, events: seq<Event>, now: int, stack: Stack)
    requires Inv(p)
    ensures Inv(Drain(p, events, now, stack))
    decreases |events|
  {
    if events != [] && !p.over {
      EventKeeps(p, events[0], now, stack);
      DrainKeeps(OnEvent(p, events[0], now, stack), events[1..], now, stack);
    }
  }

  // ----------------------------------------------------------- whole turns

  lemma WatchKeeps(p: Pump, now: int, stack: Stack)
    requires Inv(p) && !p.over
    ensures var v := Watch(p, now, stack); Inv(v) && v.connected == p.connected && v.media == p.media
  {
  }

  lemma ModemKeeps(p: Pump, kind: Kind, stack: Stack)
    requires Inv(p) && !p.over && p.connected.Some? && p.media.fax.None?
    requires p.media.remote.Some? && p.media.remote.value.kind == kind && !p.talk.attempt.Waiting?
    requires kind == Audio ==> p.mode != OnlyT38 && (p.mode == Auto ==> p.talk.attempt == Rejected)
    ensures Inv(Modem(p, kind, stack))
  {
  }

  lemma ChooseKeeps(p: Pump, now: int, stack: Stack)
    requires Inv(p) && !p.over && p.connected.Some?
    ensures Inv(Choose(p, now, stack))
    ensures p.media.fax.Some? ==> Choose(p, now, stack) == p
  {
    if p.media.fax.None? && p.media.remote.Some? {
      if p.media.remote.value.kind == T38 {
        if !p.talk.attempt.Waiting? {
          ModemKeeps(p, T38, stack);
        }
      } else if p.mode == OnlyG711 {
        ModemKeeps(p, Audio, stack);
      } else if p.mode == Auto {
        if OfferDue(p, now) {
          ReinviteKeeps(p, T38, now, stack);
        } else if p.talk.attempt.Rejected? {
          ModemKeeps(p, Audio, stack);
        }
      }
    }
  }

  lemma StepKeeps(p: Pump, events: seq<Event>, now: int, cancelled: bool, stack: Stack)
    requires Inv(p)
    ensures Inv(Step(p, events, now, cancelled, stack))
  {
    DrainKeeps(p, events, now, stack);
    var q := Drain(p, events, now, stack);
    OverKeeps(p);
    if !q.over {
      WatchKeeps(q, now, stack);
      var r := Watch(q, now, stack);
      if !r.over && r.connected.Some? {
        ChooseKeeps(r, now, stack);
      }
    }
  }

  lemma {:induction false} RunKeeps(p: Pump, actions: seq<Action>)
    requires Inv(p)
    ensures Inv(Run(p, actions))
    decreases |actions|
  {
    if actions != [] {
      match actions[0] {
        case Turn(events, now, cancelled, stack) => StepKeeps(p, events, now, cancelled, stack);
        case Negotiated(kind) =>
      }
      RunKeeps(Apply(p, actions[0]), actions[1..]);
    }
  }

  /** Whatever the peer and the stack do, a call offers T.38 at most three times and
      restores G.711 at most once, and starts at most one modem: on the peer's medium,
      with no offer of ours open, on audio in automatic mode only after a refusal. */
  lemma NegotiationIsBoundedAndSafe(mode: Mode, receiving: bool, started: int, actions: seq<Action>)
    ensures var p := Run(New(mode, receiving, started), actions);
      && p.talk.offersT38 <= 3 && p.talk.offersG711 <= 1 && p.media.modems <= 1
      && (p.media.fax.Some? <==> p.media.modems == 1)
      && (p.media.fax.Some? ==> p.media.remote.Some? && p.media.remote.value.kind == p.media.fax.value && !p.talk.attempt.Waiting?)
      && (p.media.fax == Some(Audio) && p.mode == Auto ==> p.talk.attempt == Rejected)
      && (p.media.fax == Some(Audio) ==> p.mode != OnlyT38)
  {
    RunKeeps(New(mode, receiving, started), actions);
  }

  // ------------------------------------------------------ one modem for good

  lemma EventKeepsModem(p: Pump, e: Event, now: int, stack: Stack)
    requires Inv(p) && !p.over && p.media.fax.Some?
    ensures OnEvent(p, e, now, stack).media.fax == p.media.fax
  {
    match e
    case Described(Some(negotiated)) => TakenKeeps(p.media, negotiated);
    case _ =>
  }

  lemma {:induction false} DrainKeepsModem(p: Pump, events: seq<Event>, now: int, stack: Stack)
    requires Inv(p) && p.media.fax.Some?
    ensures Drain(p, events, now, stack).media.fax == p.media.fax
    decreases |events|
  {
    if events != [] && !p.over {
      EventKeeps(p, events[0], now, stack);
      EventKeepsModem(p, events[0], now, stack);
      DrainKeepsModem(OnEvent(p, events[0], now, stack), events[1..], now, stack);
    }
  }

  lemma StepKeepsModem(p: Pump, events: seq<Event>, now: int, cancelled: bool, stack: Stack)
    requires Inv(p) && p.media.fax.Some?
    ensures Step(p, events, now, cancelled, stack).media.fax == p.media.fax
  {
    DrainKeepsModem(p, events, now, stack);
    DrainKeeps(p, events, now, stack);
    var q := Drain(p, events, now, stack);
    if !q.over {
      WatchKeeps(q, now, stack);
      var r := Watch(q, now, stack);
      if !r.over && r.connected.Some? {
        ChooseKeeps(r, now, stack);
      }
    }
  }

  /** Once a modem runs, it is the call's modem for good. */
  lemma {:induction false} ModemIsForGood(p: Pump, actions: seq<Action>)
    requires Inv(p) && p.media.fax.Some?
    ensures Run(p, actions).media.fax == p.media.fax
    decreases |actions|
  {
    if actions != [] {
      match actions[0] {
        case Turn(events, now, cancelled, stack) =>
          StepKeeps(p, events, now, cancelled, stack);
          StepKeepsModem(p, events, now, cancelled, stack);
        case Negotiated(kind) =>
      }
      ModemIsForGood(Apply(p, actions[0]), actions[1..]);
    }
  }

  /** A turn that finds an offer open for longer than the limits ends the call or has
      just asked to cancel it; no fax starts on an unsettled offer. */
  lemma OpenOffersSettle(p: Pump, now: int, stack: Stack)
    requires Inv(p) && !p.over && p.talk.attempt.Waiting? && now - p.talk.attempt.since > SETTLE_LIMIT
    ensures var v := Watch(p, now, stack);
      v.over || (!p.talk.attempt.cancelling && v.talk.attempt == p.talk.attempt.(cancelling := true)
                 && Choose(v, now, stack).media.fax.None?)
  {
    var v := Watch(p, now, stack);
    if !v.over {
      assert !OfferDue(v, now) && v.media.fax.None?;
    }
  }

  // ------------------------------------------------- the peer's own offers

  /** The kinds of the negotiations a turn hears of, in order. */
  function MediaKinds(events: seq<Event>): seq<Kind>
    decreases |events|
  {
    if events == [] then []
    else if events[0].Described? && events[0].description.Some?
    then [events[0].description.value.kind] + MediaKinds(events[1..])
    else MediaKinds(events[1..])
  }

  /** A dialog's disconnection is its last event. */
  predicate EndsOnce(events: seq<Event>) {
    forall i :: 0 <= i < |events| - 1 ==> !events[i].Disconnected?
  }

  predicate OwnOffer(p: Pump) {
    p.talk.attempt.Waiting? || p.connected.None?
  }

  /** Negotiations complete only for an offer of ours or one the pump lets through, and
      each turn hears of all that completed since the last. */
  predicate Hears(p: Pump, queued: seq<Kind>, actions: seq<Action>)
    decreases |actions|
  {
    actions == [] || match actions[0]
      case Negotiated(kind) => (OwnOffer(p) || Accepts(p, kind)) && Hears(Apply(p, actions[0]), queued + [kind], actions[1..])
      case Turn(events, _, _, _) =>
        EndsOnce(events) && MediaKinds(events) == queued && Hears(Apply(p, actions[0]), [], actions[1..])
  }

  /** The answers to come agree with the negotiations not yet heard of. */
  predicate Steady(media: Media, queued: seq<Kind>) {
    match media.fax
    case Some(kind) => media.current == kind && forall i :: 0 <= i < |queued| ==> queued[i] == kind
    case None =>
      if queued != [] then media.current == queued[|queued| - 1]
      else media.remote.Some? ==> media.current == media.remote.value.kind
  }

  lemma HeardNext(media: Media, negotiated: Remote, rest: seq<Kind>)
    requires MediaSafe(media) && Steady(media, [negotiated.kind] + rest) && Taken(media, negotiated).Some?
    ensures Steady(Taken(media, negotiated).value, rest)
  {
    TakenKeeps(media, negotiated);
    var queued := [negotiated.kind] + rest;
    assert rest != [] ==> queued[|rest|] == rest[|rest| - 1];
    assert forall i :: 0 <= i < |rest| ==> rest[i] == queued[i + 1];
  }

  lemma EventKeepsSteady(p: Pump, events: seq<Event>, now: int, stack: Stack)
    requires Inv(p) && !p.over && events != [] && EndsOnce(events) && Steady(p.media, MediaKinds(events))
    ensures var v := OnEvent(p, events[0], now, stack);
      v.over || Steady(v.media, MediaKinds(events[1..]))
  {
    match events[0]
    case Described(Some(negotiated)) =>
      if Taken(p.media, negotiated).Some? {
        HeardNext(p.media, negotiated, MediaKinds(events[1..]));
      }
    case Disconnected(code) => assert events[1..] == [];
    case InviteFinal(cseq, code) =>
      if p.talk.attempt.Waiting? {
        FinalResponsesDecide(p, cseq, code, now, stack);
      }
    case _ =>
  }

  lemma {:induction false} DrainKeepsSteady(p: Pump, events: seq<Event>, now: int, stack: Stack)
    requires Inv(p) && EndsOnce(events) && (p.over || Steady(p.media, MediaKinds(events)))
    ensures var v := Drain(p, events, now, stack); v.over || Steady(v.media, [])
    decreases |events|
  {
    if events != [] && !p.over {
      EventKeeps(p, events[0], now, stack);
      EventKeepsSteady(p, events, now, stack);
      DrainKeepsSteady(OnEvent(p, events[0], now, stack), events[1..], now, stack);
    }
  }

  lemma ChooseKeepsSteady(p: Pump, now: int, stack: Stack)
    requires Inv(p) && !p.over && p.connected.Some? && Steady(p.media, [])
    ensures Steady(Choose(p, now, stack).media, [])
  {
    ChooseKeeps(p, now, stack);
  }

  lemma TurnKeepsSteady(p: Pump, events: seq<Event>, now: int, cancelled: bool, stack: Stack)
    requires Inv(p) && EndsOnce(events) && (p.over || Steady(p.media, MediaKinds(events)))
    ensures var v := Step(p, events, now, cancelled, stack); v.over || Steady(v.media, [])
  {
    DrainKeepsSteady(p, events, now, stack);
    DrainKeeps(p, events, now, stack);
    var q := Drain(p, events, now, stack);
    if !q.over {
      WatchKeeps(q, now, stack);
      var r := Watch(q, now, stack);
      if !r.over && r.connected.Some? {
        ChooseKeepsSteady(r, now, stack);
      }
    }
  }

  lemma NegotiatedKeepsSteady(p: Pump, queued: seq<Kind>, kind: Kind)
    requires Inv(p) && Steady(p.media, queued) && (OwnOffer(p) || Accepts(p, kind))
    ensures Steady(Apply(p, Negotiated(kind)).media, queued + [kind])
  {
  }

  /** With a modem running, the peer's offers are let through only for the modem's own
      medium, so the call never leaves it. */
  lemma {:induction false} MediumIsKept(p: Pump, queued: seq<Kind>, actions: seq<Action>)
    requires Inv(p) && (p.over || Steady(p.media, queued)) && Hears(p, queued, actions)
    ensures var v := Run(p, actions);
      !v.over && v.media.fax.Some? ==>
        v.media.current == v.media.fax.value && forall kind :: Accepts(v, kind) ==> kind == v.media.fax.value
    decreases |actions|
  {
    if actions == [] {
    } else {
      match actions[0] {
        case Turn(events, now, cancelled, stack) =>
          StepKeeps(p, events, now, cancelled, stack);
          TurnKeepsSteady(p, events, now, cancelled, stack);
          MediumIsKept(Apply(p, actions[0]), [], actions[1..]);
        case Negotiated(kind) =>
          if !p.over {
            NegotiatedKeepsSteady(p, queued, kind);
          }
          MediumIsKept(Apply(p, actions[0]), queued + [kind], actions[1..]);
      }
    }
  }

  lemma StartsSteady(mode: Mode, receiving: bool, now: int)
    ensures Inv(New(mode, receiving, now)) && Steady(New(mode, receiving, now).media, [])
  {
  }

  /** A running audio modem follows every audio update of the peer's description. */
  lemma AudioFollowsUpdates(p: Pump, negotiated: Remote)
    requires Inv(p) && !p.over && p.media.fax == Some(Audio) && negotiated.kind == Audio
    ensures var v := OnMedia(p, Some(negotiated));
      !v.over && v.media.fax == p.media.fax && v.media.remote == Some(negotiated)
  {
  }
}
