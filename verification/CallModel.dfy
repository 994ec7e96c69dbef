/**
 Media negotiation of one call: T.38 against G.711, with collisions (section 14.1 of
 RFC 3261), fallback and restoration. Times are milliseconds.
 */
module CallModel {
  import opened Words

  datatype Mode = Auto | OnlyT38 | OnlyG711

  datatype Kind = Audio | T38

  /** What the peer's last description selects; `detail` is its address and parameters. */
  datatype Remote = Remote(kind: Kind, detail: nat)

  datatype Attempt =
    | NotStarted
    | Backoff(retryAt: int)
    | Waiting(kind: Kind, cseq: int, since: int, cancelling: bool, ready: bool)
    | Accepted
    | Rejected

  datatype Event =
    | Ringing
    | Connected
    | Disconnected(code: int)
    | PeerHangup
    | Described(description: Option<Remote>)
    | MediaError
    | InviteStarted(cseq: int)
    | InviteFinal(cseq: int, code: int)
    | Unrelated

  /** Where our own offers stand, and how many re-INVITEs made them. */
  datatype Talk = Talk(attempt: Attempt, glare: nat, offersT38: nat, offersG711: nat)

  /** The peer's medium, the networks built for it and the modem running on one of them.
      `switchAllowed` and `current` steer the answers to the peer's own offers. */
  datatype Media = Media(remote: Option<Remote>, audio: bool, packets: bool, fax: Option<Kind>, modems: nat,
                         switchAllowed: bool, current: Kind)

  datatype Pump = Pump(mode: Mode, receiving: bool, started: int, connected: Option<int>, directRetry: bool,
                       talk: Talk, media: Media, over: bool)

  function New(mode: Mode, receiving: bool, now: int): Pump {
    Pump(mode, receiving, now, None, false, Talk(NotStarted, 0, 0, 0),
         Media(None, false, false, None, 0, mode == Auto, if mode == OnlyT38 then T38 else Audio), false)
  }

  /** The stack's answers to what the pump asks of it during one step. */
  datatype Stack = Stack(cseq: int, reinviteFails: bool, inviteFails: bool, cancelFails: bool, modemFails: bool, random: nat)

  function Over(p: Pump): Pump {
    p.(over := true)
  }

  /** Wait before offering T.38 again after a collision: the owner of the Call-ID waits
      2.1 to 4 seconds, the other side at most 2, in units of 10 ms. */
  function GlareDelay(receiving: bool, random: nat): (delay: nat)
    ensures delay % 10 == 0
    ensures receiving ==> delay <= 2000
    ensures !receiving ==> 2100 <= delay <= 4000
  {
    var ticks := if receiving then random % 201 else 210 + random % 191;
    ticks * 10
  }

  /** A re-INVITE offering `kind`, from now on awaiting its outcome. */
  function Reinvited(p: Pump, kind: Kind, now: int, stack: Stack): Pump {
    var talk := if kind == T38 then p.talk.(offersT38 := p.talk.offersT38 + 1) else p.talk.(offersG711 := p.talk.offersG711 + 1);
    if stack.reinviteFails then p.(talk := talk, over := true)
    else p.(talk := talk.(attempt := Waiting(kind, stack.cseq, now, false, false)))
  }

  function OnConnected(p: Pump, now: int): Pump {
    if p.connected.None? then p.(connected := Some(now)) else p
  }

  /** An unanswered call refused with 488 is placed once more, offering T.38 alone. */
  function OnDisconnected(p: Pump, code: int, stack: Stack): Pump {
    if p.mode == Auto && !p.receiving && p.connected.None? && code == 488 && !p.directRetry then
      var media := p.media.(remote := None, audio := false, packets := false, current := T38);
      var q := p.(directRetry := true, media := media);
      if stack.inviteFails then Over(q) else q
    else Over(p)
  }

  function Moved(p: Pump, attempt: Attempt): Pump {
    p.(talk := p.talk.(attempt := attempt))
  }

  function NoteReady(p: Pump, kind: Kind): Pump {
    if p.talk.attempt.Waiting? then Moved(p, p.talk.attempt.(ready := kind == p.talk.attempt.kind)) else p
  }

  /** The peer's new medium: its network is built, or told of the change. */
  function Taken(media: Media, negotiated: Remote): Option<Media> {
    if media.remote == Some(negotiated) then Some(media)
    else if media.audio && negotiated.kind == Audio && media.fax != Some(T38) then Some(media.(remote := Some(negotiated)))
    else if media.fax.Some? then None
    else if negotiated.kind == Audio then Some(media.(audio := true, remote := Some(negotiated)))
    else Some(media.(packets := true, remote := Some(negotiated)))
  }

  function OnMedia(p: Pump, description: Option<Remote>): Pump {
    match description
    case None => Over(p)
    case Some(negotiated) =>
      var q := NoteReady(p, negotiated.kind);
      match Taken(p.media, negotiated)
      case None => Over(q)
      case Some(media) => q.(media := media)
  }

  function OnInviteFinal(p: Pump, cseq: int, code: int, now: int, stack: Stack): Pump {
    if !p.talk.attempt.Waiting? || p.talk.attempt.cseq != cseq || code < 200 || code == 401 || code == 407 then p
    else if p.talk.attempt.kind == T38 && code == 491 && p.talk.glare < 2 then
      p.(talk := p.talk.(glare := p.talk.glare + 1, attempt := Backoff(now + GlareDelay(p.receiving, stack.random))))
    else if p.talk.attempt.kind == T38 && code >= 300 && p.media.remote.Some? && p.media.remote.value.kind == Audio then
      Moved(p, Rejected)
    else if code < 300 && p.talk.attempt.ready then Moved(p, if p.talk.attempt.kind == T38 then Accepted else Rejected)
    else if p.talk.attempt.kind == T38 then Reinvited(p, Audio, now, stack)
    else Over(p)
  }

  function OnMediaError(p: Pump): Pump {
    if p.talk.attempt.Waiting? then Moved(p, p.talk.attempt.(ready := false)) else Over(p)
  }

  function OnEvent(p: Pump, e: Event, now: int, stack: Stack): Pump {
    match e
    case Ringing | Unrelated => p
    case Connected => OnConnected(p, now)
    case Disconnected(code) => OnDisconnected(p, code, stack)
    case PeerHangup => Over(p)
    case Described(description) => OnMedia(p, description)
    case MediaError => OnMediaError(p)
    case InviteStarted(cseq) => if p.talk.attempt.Waiting? then Moved(p, p.talk.attempt.(cseq := cseq)) else p
    case InviteFinal(cseq, code) => OnInviteFinal(p, cseq, code, now, stack)
  }

  function Drain(p: Pump, events: seq<Event>, now: int, stack: Stack): Pump
    decreases |events|
  {
    if events == [] || p.over then p else Drain(OnEvent(p, events[0], now, stack), events[1..], now, stack)
  }

  const ANSWER_LIMIT := 60000
  const CALL_LIMIT := 1800000
  const CANCEL_AFTER := 5000
  const SETTLE_LIMIT := 38000
  const OFFER_AFTER := 3500
  const MEDIA_LIMIT := 5000

  /** A re-INVITE that stays open is cancelled, and ends the call if that does not help. */
  function Watch(p: Pump, now: int, stack: Stack): Pump {
    if !p.talk.attempt.Waiting? then p
    else if now - p.talk.attempt.since >= CANCEL_AFTER && !p.talk.attempt.cancelling then
      if stack.cancelFails then Over(p) else Moved(p, p.talk.attempt.(cancelling := true))
    else if now - p.talk.attempt.since > SETTLE_LIMIT then Over(p)
    else p
  }

  function Modem(p: Pump, kind: Kind, stack: Stack): Pump {
    if stack.modemFails then Over(p) else p.(media := p.media.(fax := Some(kind), switchAllowed := false, modems := p.media.modems + 1))
  }

  predicate OfferDue(p: Pump, now: int) {
    match p.talk.attempt
    case NotStarted => p.receiving || (p.connected.Some? && now - p.connected.value >= OFFER_AFTER)
    case Backoff(retryAt) => now >= retryAt
    case _ => false
  }

  /** Start the fax, offer T.38, or wait. */
  function Choose(p: Pump, now: int, stack: Stack): Pump {
    if p.media.fax.Some? then p
    else match p.media.remote
    case None => if p.connected.Some? && now - p.connected.value > MEDIA_LIMIT then Over(p) else p
    case Some(Remote(T38, _)) => if p.talk.attempt.Waiting? then p else Modem(p, T38, stack)
    case Some(Remote(Audio, _)) =>
      match p.mode
      case OnlyT38 => Over(p)
      case OnlyG711 => Modem(p, Audio, stack)
      case Auto =>
        if OfferDue(p, now) then Reinvited(p, T38, now, stack)
        else if p.talk.attempt.Rejected? then Modem(p, Audio, stack)
        else p
  }

  function Expired(p: Pump, now: int, cancelled: bool): bool {
    cancelled || now - p.started > CALL_LIMIT || (p.connected.None? && now - p.started > ANSWER_LIMIT)
  }

  /** One turn of the pump over the signalling events queued since the last. */
  function Step(p: Pump, events: seq<Event>, now: int, cancelled: bool, stack: Stack): Pump {
    if p.over then p
    else if Expired(p, now, cancelled) then Over(p)
    else
      var q := Drain(p, events, now, stack);
      if q.over || q.connected.None? then q
      else
        var r := Watch(q, now, stack);
        if r.over then r else Choose(r, now, stack)
  }

  /** Whether the peer's own offer of `kind` may be accepted. */
  predicate Accepts(p: Pump, kind: Kind) {
    && (if kind == Audio then p.mode != OnlyT38 else p.mode != OnlyG711)
    && (p.media.switchAllowed || p.media.current == kind)
  }

  /** What happens to the call between and during turns. A completed negotiation shows at
      once in `current`, and reaches the pump as an event of a later turn. */
  datatype Action =
    | Turn(events: seq<Event>, now: int, cancelled: bool, stack: Stack)
    | Negotiated(kind: Kind)

  function Apply(p: Pump, a: Action): Pump {
    match a
    case Turn(events, now, cancelled, stack) => Step(p, events, now, cancelled, stack)
    case Negotiated(kind) => p.(media := p.media.(current := kind))
  }

  function Run(p: Pump, actions: seq<Action>): Pump
    decreases |actions|
  {
    if actions == [] then p else Run(Apply(p, actions[0]), actions[1..])
  }
}
