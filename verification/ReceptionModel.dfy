/**
 One reception across the SIP service, the engine actor and the durable inbox: an offer
 is recorded before it is answered, and every recorded reception is closed once.
 */
module ReceptionModel {
  import opened Words

  type Id = nat

  datatype Outcome = Receiving | Closed

  /** Offers awaiting an answer whose caller is still there, and the answered calls. */
  datatype Service = Service(up: bool, pending: set<Id>, calls: set<Id>)

  /** What is under way between the two threads. `admits` are positive answers and
      `denials` negative ones. */
  datatype Mail = Mail(offers: set<Id>, admits: set<Id>, denials: set<Id>, progress: multiset<Id>, finished: multiset<Id>)

  /** `held` are offers not decided yet; `answering` one whose record was just written. */
  datatype Actor = Actor(held: set<Id>, answering: Option<Id>, stopping: bool)

  /** `closed` counts, for every reception, how often it left `Receiving`; `stranded`
      are those whose answer was dropped by a service that had ended. */
  datatype Disk = Disk(records: map<Id, Outcome>, used: set<Id>, stranded: set<Id>, closed: multiset<Id>)

  datatype State = State(service: Service, mail: Mail, actor: Actor, disk: Disk)

  const NO_MAIL: Mail := Mail({}, {}, {}, multiset{}, multiset{})

  function Empty(): State {
    State(Service(true, {}, {}), NO_MAIL, Actor({}, None, false), Disk(map[], {}, {}, multiset{}))
  }

  // ---------------------------------------------------------- the service

  function Offer(s: State, id: Id): State {
    s.(service := s.service.(pending := s.service.pending + {id}), mail := s.mail.(offers := s.mail.offers + {id}),
       disk := s.disk.(used := s.disk.used + {id}))
  }

  /** Timeout, hang-up, sleep, account failure or refusal: the offer is no longer valid. */
  function Withdraw(s: State, id: Id): State {
    s.(service := s.service.(pending := s.service.pending - {id}))
  }

  /** A positive answer becomes a call, or ends the record at once. */
  function TakeAdmit(s: State, id: Id, answered: bool): State {
    if id in s.service.pending && answered then
      s.(service := s.service.(pending := s.service.pending - {id}, calls := s.service.calls + {id}),
         mail := s.mail.(admits := s.mail.admits - {id}))
    else
      s.(service := s.service.(pending := s.service.pending - {id}),
         mail := s.mail.(admits := s.mail.admits - {id}, finished := s.mail.finished + multiset{id}))
  }

  function TakeDenial(s: State, id: Id): State {
    s.(service := s.service.(pending := s.service.pending - {id}), mail := s.mail.(denials := s.mail.denials - {id}))
  }

  function Tell(s: State, id: Id): State {
    s.(mail := s.mail.(progress := s.mail.progress + multiset{id}))
  }

  function EndCall(s: State, id: Id): State {
    s.(service := s.service.(calls := s.service.calls - {id}), mail := s.mail.(finished := s.mail.finished + multiset{id}))
  }

  /** The service loop is left: calls end, and answers still queued are dropped. */
  function EndService(s: State): State {
    State(Service(false, {}, {}),
          s.mail.(admits := {}, denials := {}, finished := s.mail.finished + multiset(s.service.calls)),
          s.actor, s.disk.(stranded := s.disk.stranded + s.mail.admits))
  }

  // ------------------------------------------------------------- the actor

  function Close(disk: Disk, id: Id): Disk {
    if id in disk.records && disk.records[id] == Receiving
    then disk.(records := disk.records[id := Closed], closed := disk.closed + multiset{id})
    else disk
  }

  /** An offer arrives; a stopping actor, or one too late, refuses it. */
  function Hear(s: State, id: Id): State {
    var t := s.(mail := s.mail.(offers := s.mail.offers - {id}));
    if s.actor.stopping || id !in s.service.pending then t
    else t.(actor := t.actor.(held := t.actor.held + {id}))
  }

  function Refuse(s: State, id: Id): State {
    s.(actor := s.actor.(held := s.actor.held - {id}))
  }

  /** Accepting writes the record first; an offer that expired leaves nothing behind, and
      a record that cannot be written is a negative answer. */
  function Reserve(s: State, id: Id, saved: bool): State {
    var t := Refuse(s, id);
    if id !in s.service.pending then t
    else if s.actor.stopping || !saved then t.(mail := t.mail.(denials := t.mail.denials + {id}))
    else t.(actor := t.actor.(answering := Some(id)), disk := t.disk.(records := t.disk.records[id := Receiving]))
  }

  /** Then the service is answered; if it is gone, the record is closed here. */
  function Respond(s: State): State
    requires s.actor.answering.Some?
  {
    var id := s.actor.answering.value;
    var t := s.(actor := s.actor.(answering := None));
    if s.service.up then t.(mail := t.mail.(admits := t.mail.admits + {id}))
    else t.(disk := Close(t.disk, id))
  }

  function HearProgress(s: State, id: Id): State {
    s.(mail := s.mail.(progress := s.mail.progress - multiset{id}))
  }

  function HearFinished(s: State, id: Id): State {
    s.(mail := s.mail.(finished := s.mail.finished - multiset{id}), disk := Close(s.disk, id))
  }

  function StopActor(s: State): State {
    s.(actor := s.actor.(held := {}, stopping := true))
  }

  /** The process ends, at any moment, and the next one closes what is still receiving. */
  function Reopen(s: State): State {
    State(Service(true, {}, {}), NO_MAIL, Actor({}, None, false), Recover(s.disk))
  }

  function Open(records: map<Id, Outcome>): set<Id> {
    set id | id in records && records[id] == Receiving
  }

  function Recover(disk: Disk): Disk {
    Disk(map id | id in disk.records :: Closed, disk.used, {}, disk.closed + multiset(Open(disk.records)))
  }

  datatype Action =
    | Offered(id: Id) | Withdrawn(id: Id) | AdmitTaken(id: Id, answered: bool) | DenialTaken(id: Id) | Told(id: Id) | CallEnded(id: Id) | ServiceEnded(orderly: bool)
    | Heard(id: Id) | Refused(id: Id) | Reserved(id: Id, saved: bool) | Responded | ProgressHeard(id: Id) | FinishedHeard(id: Id)
    | Stopped | Reopened

  /** Messages are taken from the mail, identifiers are new, and the actor finishes an
      answer it has begun before it does anything else. The stop command follows every
      answer in the one command queue, so a service ended by it has no answer left; one
      ended by an error of its own may have. */
  predicate Enabled(s: State, a: Action) {
    match a
    case Offered(id) => s.service.up && id !in s.disk.used
    case Withdrawn(id) => true
    case AdmitTaken(id, _) => s.service.up && id in s.mail.admits
    case DenialTaken(id) => s.service.up && id in s.mail.denials
    case Told(id) => id in s.service.calls
    case CallEnded(id) => id in s.service.calls
    case ServiceEnded(orderly) => s.service.up && (orderly ==> s.actor.stopping && s.mail.admits == {})
    case Heard(id) => id in s.mail.offers && s.actor.answering.None?
    case Refused(id) => s.actor.answering.None?
    case Reserved(id, _) => id in s.actor.held && s.actor.answering.None?
    case Responded => s.actor.answering.Some?
    case ProgressHeard(id) => id in s.mail.progress && s.actor.answering.None?
    case FinishedHeard(id) => id in s.mail.finished && s.actor.answering.None?
    case Stopped => s.actor.answering.None?
    case Reopened => true
  }

  function Step(s: State, a: Action): State
    requires Enabled(s, a)
  {
    match a
    case Offered(id) => Offer(s, id)
    case Withdrawn(id) => Withdraw(s, id)
    case AdmitTaken(id, answered) => TakeAdmit(s, id, answered)
    case DenialTaken(id) => TakeDenial(s, id)
    case Told(id) => Tell(s, id)
    case CallEnded(id) => EndCall(s, id)
    case ServiceEnded(_) => EndService(s)
    case Heard(id) => Hear(s, id)
    case Refused(id) => Refuse(s, id)
    case Reserved(id, saved) => Reserve(s, id, saved)
    case Responded => Respond(s)
    case ProgressHeard(id) => HearProgress(s, id)
    case FinishedHeard(id) => HearFinished(s, id)
    case Stopped => StopActor(s)
    case Reopened => Reopen(s)
  }

  predicate Runs(s: State, actions: seq<Action>)
    decreases |actions|
  {
    actions == [] || (Enabled(s, actions[0]) && Runs(Step(s, actions[0]), actions[1..]))
  }

  function After(s: State, actions: seq<Action>): State
    requires Runs(s, actions)
    decreases |actions|
  {
    if actions == [] then s else After(Step(s, actions[0]), actions[1..])
  }
}
