/**
 Admission and call accounting of the SIP service loop. Each stage of one loop
 turn is an action; incoming INVITEs may arrive between any two of them.
 */
module ServiceModel {
  import opened Words

  type Id = nat
  type Token = nat
  type AccountId = nat

  /** A media call: an outgoing one answers to a send command's reply channel. */
  datatype Call = Outgoing(account: AccountId, token: Token) | Incoming(account: AccountId)

  datatype Admission = Admission(account: AccountId, deadline: int)

  datatype Send = Send(token: Token, account: AccountId)

  datatype Slot = Slot(direct: bool, username: string, account: AccountId)

  datatype Limits = Limits(outgoing: nat, incoming: nat)

  /** `accepted`, `answered` and `persisted` record history: the send commands the
      service has taken, the offers it was answered, and those answered with a
      persisted reception. `finished` and `ended` are the messages sent. */
  datatype State = State(
    limits: Limits,
    calls: map<Id, Call>,
    pending: seq<Send>,
    admissions: map<Id, Admission>,
    ids: map<Id, string>,
    available: seq<Slot>,
    used: set<Id>,
    offered: set<Id>,
    accepted: set<Token>,
    finished: multiset<Token>,
    answered: set<Id>,
    persisted: set<Id>,
    ended: multiset<Id>)

  function Started(limits: Limits): State {
    State(limits, map[], [], map[], map[], [], {}, {}, {}, multiset{}, {}, {}, multiset{})
  }

  // -------------------------------------------------- small transitions

  /** A call ends: its one `Finished` message goes to whoever owns it. */
  function FinishCall(s: State, id: Id): State {
    if id !in s.calls then s
    else match s.calls[id]
    case Outgoing(_, token) =>
      s.(calls := s.calls - {id}, ids := s.ids - {id}, finished := s.finished + multiset{token})
    case Incoming(_) =>
      s.(calls := s.calls - {id}, ids := s.ids - {id}, ended := s.ended + multiset{id})
  }

  function DropAdmission(s: State, id: Id): State {
    s.(admissions := s.admissions - {id}, ids := s.ids - {id})
  }

  function FailSend(s: State, token: Token): State {
    s.(finished := s.finished + multiset{token})
  }

  /** Finish the listed calls, in the order given. */
  function FinishCalls(s: State, which: seq<Id>): State
    decreases |which|
  {
    if which == [] then s else FinishCalls(FinishCall(s, which[0]), which[1..])
  }

  function DropAdmissions(s: State, which: seq<Id>): State
    decreases |which|
  {
    if which == [] then s else DropAdmissions(DropAdmission(s, which[0]), which[1..])
  }

  // -------------------------------------------------------- the actions

  datatype Screening = Screening(user: Option<string>, mappingPending: bool, setupFails: bool)

  datatype Prepared = Ready(id: Id) | Waiting | Refused

  datatype Command =
    | Configure
    | Submit(token: Token, account: AccountId)
    | CancelIncoming(id: Id)
    | Admit(id: Id, persisted: bool)
    | Reject(id: Id)
    | Reconnect
    | Stop

  datatype Action =
    | Invite(id: Id, callId: string, account: AccountId, screening: Screening, now: int, timeout: nat)
    | Take(command: Command, now: int, hungUp: bool, answerFails: bool)
    | Woke(calls: seq<Id>, admissions: seq<Id>)
    | AccountFails(account: AccountId, calls: seq<Id>, admissions: seq<Id>, desired: bool)
    | ClearAvailable
    | Refill(slots: seq<Slot>)
    | Prepare(outcomes: seq<Prepared>)
    | Expire(admissions: seq<Id>)
    | Tick(calls: seq<Id>)
    | Shutdown(calls: seq<Id>, admissions: seq<Id>, queue: seq<Command>)

  function Offered(s: State, id: Id, callId: string, admission: Admission): State {
    s.(available := if s.available == [] then [] else s.available[1..], ids := s.ids[id := callId],
       used := s.used + {id}, offered := s.offered + {id}, admissions := s.admissions[id := admission])
  }

  const UNANSWERED: nat := 0

  /** The answer to an INVITE. One that belongs to a call already known is left to its
      dialog; the first free slot decides about any other. */
  function Status(known: map<Id, string>, limit: nat, available: seq<Slot>, a: Action): nat
    requires a.Invite?
  {
    if a.callId in known.Values then UNANSWERED
    else if |known| >= limit then 486
    else if available == [] then 480
    else if !available[0].direct && a.screening.user != Some(available[0].username) then 404
    else if a.screening.mappingPending then 480
    else if a.screening.setupFails then 488
    else 100
  }

  /** Only a call that is set up, or fails to be, uses up its slot. */
  function Replied(s: State, a: Action, status: nat): State
    requires a.Invite?
  {
    if status == 100 then Offered(s, a.id, a.callId, Admission(a.account, a.now + a.timeout))
    else if status == 488 then s.(available := if s.available == [] then [] else s.available[1..])
    else s
  }

  function OnIncoming(s: State, a: Action): State
    requires a.Invite?
  {
    Replied(s, a, Status(s.ids, s.limits.incoming, s.available, a))
  }

  function Admitted(s: State, id: Id): State
    requires id in s.admissions
  {
    s.(answered := s.answered + {id}, persisted := s.persisted + {id},
       admissions := s.admissions - {id}, calls := s.calls[id := Incoming(s.admissions[id].account)])
  }

  /** An answer that does not become a call ends its persisted record at once. */
  function Answered(s: State, id: Id, persisted: bool): State {
    if persisted
    then s.(answered := s.answered + {id}, persisted := s.persisted + {id}, ended := s.ended + multiset{id})
    else s.(answered := s.answered + {id})
  }

  /** An answered offer becomes a call only if it is still pending, in time, not
      hung up and answerable; a persisted one that does not is ended at once. */
  function OnAdmit(s: State, id: Id, persisted: bool, now: int, hungUp: bool, answerFails: bool): State {
    if id in s.admissions then
      if persisted && now < s.admissions[id].deadline && !hungUp && !answerFails then Admitted(s, id)
      else Answered(DropAdmission(s, id), id, persisted)
    else Answered(s, id, persisted)
  }

  function OutgoingIds(calls: map<Id, Call>): set<Id> {
    set id | id in calls && calls[id].Outgoing?
  }

  function OnSubmit(s: State, token: Token, account: AccountId): State {
    var taken := s.(accepted := s.accepted + {token});
    if |OutgoingIds(s.calls)| + |s.pending| >= s.limits.outgoing then FailSend(taken, token)
    else taken.(pending := s.pending + [Send(token, account)])
  }

  function OnCommand(s: State, command: Command, now: int, hungUp: bool, answerFails: bool): State {
    match command
    case Configure => s.(available := [])
    case Submit(token, account) => OnSubmit(s, token, account)
    case Admit(id, persisted) => OnAdmit(s, id, persisted, now, hungUp, answerFails)
    case Reject(id) => if id in s.admissions then DropAdmission(s, id) else s
    case _ => s
  }

  function Connected(s: State, id: Id, send: Send): State {
    s.(calls := s.calls[id := Outgoing(send.account, send.token)], used := s.used + {id})
  }

  function Attempted(s: State, send: Send, outcome: Prepared): State {
    match outcome
    case Ready(id) => Connected(s, id, send)
    case Waiting => s.(pending := s.pending + [send])
    case Refused => FailSend(s, send.token)
  }

  /** One queued send after another: connect it, keep it waiting, or fail it. */
  function OnPrepare(s: State, sends: seq<Send>, outcomes: seq<Prepared>): State
    requires |sends| == |outcomes|
    decreases |sends|
  {
    if sends == [] then s else OnPrepare(Attempted(s, sends[0], outcomes[0]), sends[1..], outcomes[1..])
  }

  /** A lost account fails its own queued sends and keeps the others in order. */
  function FailSends(s: State, sends: seq<Send>, account: AccountId): State
    decreases |sends|
  {
    if sends == [] then s
    else if sends[0].account == account then FailSends(FailSend(s, sends[0].token), sends[1..], account)
    else FailSends(s.(pending := s.pending + [sends[0]]), sends[1..], account)
  }

  function FailAll(s: State, sends: seq<Send>): State
    decreases |sends|
  {
    if sends == [] then s else FailAll(FailSend(s, sends[0].token), sends[1..])
  }

  /** Commands still queued at a stop: a send is answered, everything else is dropped. */
  function FlushQueue(s: State, queue: seq<Command>): State
    decreases |queue|
  {
    if queue == [] then s
    else
      var next := match queue[0]
        case Submit(token, _) => FailSend(s.(accepted := s.accepted + {token}), token)
        case _ => s;
      FlushQueue(next, queue[1..])
  }

  function OnShutdown(s: State, calls: seq<Id>, admissions: seq<Id>, queue: seq<Command>): State {
    var quiet := FinishCalls(DropAdmissions(s, admissions).(available := []), calls);
    FlushQueue(FailAll(quiet.(pending := []), quiet.pending), queue).(ids := map[])
  }

  /** A duplicate-free listing of a set, in the order a hash table yields it. */
  ghost predicate Lists(all: set<Id>, listing: seq<Id>) {
    && (forall i, j :: 0 <= i < j < |listing| ==> listing[i] != listing[j])
    && (forall i :: 0 <= i < |listing| ==> listing[i] in all)
    && (forall id :: id in all ==> id in listing)
  }

  function Step(s: State, a: Action): State
    requires a.Prepare? ==> |a.outcomes| == |s.pending|
  {
    match a
    case Invite(_, _, _, _, _, _) => OnIncoming(s, a)
    case Take(command, now, hungUp, answerFails) => OnCommand(s, command, now, hungUp, answerFails)
    case Woke(calls, admissions) => DropAdmissions(FinishCalls(s, calls), admissions)
    case AccountFails(account, calls, admissions, desired) =>
      var failed := FailSends(s.(pending := []), s.pending, account);
      var quiet := DropAdmissions(FinishCalls(failed, calls), admissions);
      if desired then quiet.(available := []) else quiet
    case ClearAvailable => s.(available := [])
    case Refill(slots) => s.(available := s.available + slots)
    case Prepare(outcomes) => OnPrepare(s.(pending := []), s.pending, outcomes)
    case Expire(admissions) => DropAdmissions(s, admissions)
    case Tick(calls) => FinishCalls(s, calls)
    case Shutdown(calls, admissions, queue) => OnShutdown(s, calls, admissions, queue)
  }

  function CallsOf(s: State, account: AccountId): set<Id> {
    set id | id in s.calls && s.calls[id].account == account
  }

  function AdmissionsOf(s: State, account: AccountId): set<Id> {
    set id | id in s.admissions && s.admissions[id].account == account
  }

  ghost predicate FreshIds(s: State, outcomes: seq<Prepared>) {
    && (forall i :: 0 <= i < |outcomes| && outcomes[i].Ready? ==> outcomes[i].id !in s.used)
    && (forall i, j :: 0 <= i < j < |outcomes| && outcomes[i].Ready? && outcomes[j].Ready? ==> outcomes[i].id != outcomes[j].id)
  }

  ghost predicate FreshTokens(s: State, queue: seq<Command>) {
    && (forall i :: 0 <= i < |queue| && queue[i].Submit? ==> queue[i].token !in s.accepted)
    && (forall i, j :: 0 <= i < j < |queue| && queue[i].Submit? && queue[j].Submit? ==> queue[i].token != queue[j].token)
  }

  /** What the surroundings guarantee: identifiers are new, an offer is answered at
      most once, every send command has its own reply channel. */
  ghost predicate Enabled(s: State, a: Action) {
    match a
    case Invite(id, _, _, _, _, _) => id !in s.used
    case Take(Admit(id, _), _, _, _) => id in s.offered && id !in s.answered
    case Take(Submit(token, _), _, _, _) => token !in s.accepted
    case Take(_, _, _, _) => true
    case Woke(calls, admissions) => Lists(s.calls.Keys, calls) && Lists(s.admissions.Keys, admissions)
    case AccountFails(account, calls, admissions, _) =>
      Lists(CallsOf(s, account), calls) && Lists(AdmissionsOf(s, account), admissions)
    case ClearAvailable => true
    case Refill(slots) => slots == [] || |s.ids| + |s.available| + |slots| <= s.limits.incoming
    case Prepare(outcomes) => |outcomes| == |s.pending| && FreshIds(s, outcomes)
    case Expire(admissions) => forall i :: 0 <= i < |admissions| ==> admissions[i] in s.admissions
    case Tick(calls) => true
    case Shutdown(calls, admissions, queue) =>
      Lists(s.calls.Keys, calls) && Lists(s.admissions.Keys, admissions) && FreshTokens(s, queue)
  }

  ghost predicate Runs(s: State, actions: seq<Action>, after: State)
    decreases |actions|
  {
    if actions == [] then after == s
    else Enabled(s, actions[0]) && Runs(Step(s, actions[0]), actions[1..], after)
  }
}
