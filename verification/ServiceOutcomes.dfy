/**
 What the service must do: which events begin and end a call, what becomes of an
 answered offer and of a queued send.
 */
module ServiceOutcomes {
  import opened Words
  import opened ServiceModel
  import opened ServiceTheorems

  // -------------------------------------------------- one answer, one send

  /** A pending offer is answered with a persisted reception, in time, to a caller that is
      still there and can be told. */
  predicate Takes(admissions: map<Id, Admission>, id: Id, persisted: bool, now: int, hungUp: bool, answerFails: bool) {
    id in admissions && persisted && now < admissions[id].deadline && !hungUp && !answerFails
  }

  /** What an answer does to the tables. */
  ghost predicate AdmitDoes(s: State, v: State, id: Id, persisted: bool, now: int, hungUp: bool, answerFails: bool) {
    && v.admissions == s.admissions - {id}
    && if Takes(s.admissions, id, persisted, now, hungUp, answerFails) then
         v.calls == s.calls[id := Incoming(s.admissions[id].account)] && v.ids == s.ids && v.ended == s.ended
       else
         && v.calls == s.calls && v.ids == (if id in s.admissions then s.ids - {id} else s.ids)
         && v.ended == if persisted then s.ended + multiset{id} else s.ended
  }

  /** An answer makes a call exactly if it is taken in time; otherwise a persisted
      reception is ended at once. */
  lemma AdmitOutcome(s: State, id: Id, persisted: bool, now: int, hungUp: bool, answerFails: bool) returns (v: State)
    ensures v == Step(s, Take(Admit(id, persisted), now, hungUp, answerFails))
    ensures AdmitDoes(s, v, id, persisted, now, hungUp, answerFails)
    ensures id !in s.calls ==> (id in v.calls <==> Takes(s.admissions, id, persisted, now, hungUp, answerFails))
  {
    v := OnAdmit(s, id, persisted, now, hungUp, answerFails);
    if id !in s.admissions {
      assert s.admissions - {id} == s.admissions;
    }
  }

  /** A send is queued last exactly if calls and queue leave room for it; otherwise it is
      answered at once. */
  lemma SubmitOutcome(s: State, token: Token, account: AccountId, now: int) returns (v: State)
    ensures v == Step(s, Take(Submit(token, account), now, false, false))
    ensures var room := |OutgoingIds(s.calls)| + |s.pending| < s.limits.outgoing;
      && v.pending == (if room then s.pending + [Send(token, account)] else s.pending)
      && v.finished == (if room then s.finished else s.finished + multiset{token})
      && v.calls == s.calls
  {
    v := Step(s, Take(Submit(token, account), now, false, false));
  }

  // ------------------------------------------------------- queued sends

  /** The sends that are not connected yet, in order. */
  function StillWaiting(sends: seq<Send>, outcomes: seq<Prepared>): seq<Send>
    requires |sends| == |outcomes|
    decreases |sends|
  {
    if sends == [] then []
    else (if outcomes[0].Waiting? then [sends[0]] else []) + StillWaiting(sends[1..], outcomes[1..])
  }

  function RefusedTokens(sends: seq<Send>, outcomes: seq<Prepared>): multiset<Token>
    requires |sends| == |outcomes|
    decreases |sends|
  {
    if sends == [] then multiset{}
    else (if outcomes[0].Refused? then multiset{sends[0].token} else multiset{}) + RefusedTokens(sends[1..], outcomes[1..])
  }

  predicate Distinct(outcomes: seq<Prepared>) {
    forall i, j :: 0 <= i < j < |outcomes| && outcomes[i].Ready? && outcomes[j].Ready? ==> outcomes[i].id != outcomes[j].id
  }

  /** The identifier of a call connected now. */
  predicate Begun(outcomes: seq<Prepared>, id: Id) {
    Ready(id) in outcomes
  }

  lemma {:induction false} PrepareKeepsOrder(s: State, sends: seq<Send>, outcomes: seq<Prepared>)
    requires |sends| == |outcomes|
    ensures OnPrepare(s, sends, outcomes).pending == s.pending + StillWaiting(sends, outcomes)
    decreases |sends|
  {
    if sends != [] {
      PrepareKeepsOrder(Attempted(s, sends[0], outcomes[0]), sends[1..], outcomes[1..]);
    }
  }

  lemma {:induction false} PrepareAnswers(s: State, sends: seq<Send>, outcomes: seq<Prepared>)
    requires |sends| == |outcomes|
    ensures OnPrepare(s, sends, outcomes).finished == s.finished + RefusedTokens(sends, outcomes)
    decreases |sends|
  {
    if sends != [] {
      PrepareAnswers(Attempted(s, sends[0], outcomes[0]), sends[1..], outcomes[1..]);
    }
  }

  lemma BegunSplits(outcomes: seq<Prepared>, id: Id)
    requires outcomes != []
    ensures Begun(outcomes, id) <==> outcomes[0] == Ready(id) || Begun(outcomes[1..], id)
  {
    assert outcomes == [outcomes[0]] + outcomes[1..];
  }

  lemma {:induction false} PrepareBegins(s: State, sends: seq<Send>, outcomes: seq<Prepared>, id: Id)
    requires |sends| == |outcomes|
    ensures var v := OnPrepare(s, sends, outcomes);
      && (id in v.calls <==> id in s.calls || Begun(outcomes, id))
      && (id in s.calls && !Begun(outcomes, id) ==> v.calls[id] == s.calls[id])
    decreases |sends|
  {
    if sends != [] {
      BegunSplits(outcomes, id);
      PrepareBegins(Attempted(s, sends[0], outcomes[0]), sends[1..], outcomes[1..], id);
    }
  }

  /** A send that can be connected is in a call under its new identifier. */
  lemma {:induction false} PrepareConnects(s: State, sends: seq<Send>, outcomes: seq<Prepared>, i: nat)
    requires |sends| == |outcomes| && i < |sends| && outcomes[i].Ready? && Distinct(outcomes)
    ensures var v := OnPrepare(s, sends, outcomes);
      outcomes[i].id in v.calls && v.calls[outcomes[i].id] == Outgoing(sends[i].account, sends[i].token)
    decreases |sends|
  {
    var next := Attempted(s, sends[0], outcomes[0]);
    if i == 0 {
      PrepareBegins(next, sends[1..], outcomes[1..], outcomes[0].id);
    } else {
      PrepareConnects(next, sends[1..], outcomes[1..], i - 1);
    }
  }

  /** Every queued send is connected under its new identifier, kept in order, or failed. */
  lemma PrepareOutcome(s: State, outcomes: seq<Prepared>) returns (v: State)
    requires |outcomes| == |s.pending| && Distinct(outcomes)
    ensures v == Step(s, Prepare(outcomes))
    ensures v.pending == StillWaiting(s.pending, outcomes) && v.finished == s.finished + RefusedTokens(s.pending, outcomes)
    ensures forall i :: 0 <= i < |outcomes| && outcomes[i].Ready? ==>
      outcomes[i].id in v.calls && v.calls[outcomes[i].id] == Outgoing(s.pending[i].account, s.pending[i].token)
    ensures forall id :: id in v.calls <==> id in s.calls || Begun(outcomes, id)
  {
    var empty := s.(pending := []);
    v := OnPrepare(empty, s.pending, outcomes);
    PrepareKeepsOrder(empty, s.pending, outcomes);
    PrepareAnswers(empty, s.pending, outcomes);
    forall i | 0 <= i < |outcomes| && outcomes[i].Ready?
      ensures outcomes[i].id in v.calls && v.calls[outcomes[i].id] == Outgoing(s.pending[i].account, s.pending[i].token)
    {
      PrepareConnects(empty, s.pending, outcomes, i);
    }
    forall id ensures id in v.calls <==> id in s.calls || Begun(outcomes, id) {
      PrepareBegins(empty, s.pending, outcomes, id);
    }
  }

  function OfOthers(sends: seq<Send>, account: AccountId): seq<Send>
    decreases |sends|
  {
    if sends == [] then []
    else (if sends[0].account == account then [] else [sends[0]]) + OfOthers(sends[1..], account)
  }

  function TokensOf(sends: seq<Send>, account: AccountId): multiset<Token>
    decreases |sends|
  {
    if sends == [] then multiset{}
    else (if sends[0].account == account then multiset{sends[0].token} else multiset{}) + TokensOf(sends[1..], account)
  }

  lemma {:induction false} FailSendsKeepsOrder(s: State, sends: seq<Send>, account: AccountId)
    ensures FailSends(s, sends, account).pending == s.pending + OfOthers(sends, account)
    decreases |sends|
  {
    if sends != [] {
      if sends[0].account == account {
        FailSendsKeepsOrder(FailSend(s, sends[0].token), sends[1..], account);
      } else {
        FailSendsKeepsOrder(s.(pending := s.pending + [sends[0]]), sends[1..], account);
      }
    }
  }

  lemma {:induction false} FailSendsAnswers(s: State, sends: seq<Send>, account: AccountId)
    ensures FailSends(s, sends, account).finished == s.finished + TokensOf(sends, account)
    decreases |sends|
  {
    if sends != [] {
      if sends[0].account == account {
        FailSendsAnswers(FailSend(s, sends[0].token), sends[1..], account);
      } else {
        FailSendsAnswers(s.(pending := s.pending + [sends[0]]), sends[1..], account);
      }
    }
  }

  lemma {:induction false} FailSendsOnly(s: State, sends: seq<Send>, account: AccountId)
    ensures var v := FailSends(s, sends, account); v == s.(pending := v.pending, finished := v.finished)
    decreases |sends|
  {
    if sends != [] {
      if sends[0].account == account {
        FailSendsOnly(FailSend(s, sends[0].token), sends[1..], account);
      } else {
        FailSendsOnly(s.(pending := s.pending + [sends[0]]), sends[1..], account);
      }
    }
  }

  /** A lost account fails its own queued sends, and keeps the others in order. */
  lemma FailSendsOutcome(s: State, account: AccountId) returns (v: State)
    ensures v == FailSends(s.(pending := []), s.pending, account)
    ensures v == s.(pending := OfOthers(s.pending, account), finished := s.finished + TokensOf(s.pending, account))
  {
    var empty := s.(pending := []);
    v := FailSends(empty, s.pending, account);
    FailSendsOnly(empty, s.pending, account);
    FailSendsKeepsOrder(empty, s.pending, account);
    FailSendsAnswers(empty, s.pending, account);
  }

  // ------------------------------------ what begins and ends calls and admissions

  /** What ends a call: sleep, stop, the loss of its account, or its own outcome. */
  predicate EndsCall(calls: map<Id, Call>, a: Action, id: Id)
    requires id in calls
  {
    match a
    case Woke(_, _) | Shutdown(_, _, _) => true
    case AccountFails(account, _, _, _) => calls[id].account == account
    case Tick(over) => id in over
    case _ => false
  }

  /** What makes a call: an offer taken in time, or a send that could be connected. */
  predicate BeginsCall(s: State, a: Action, id: Id) {
    match a
    case Take(Admit(answered, persisted), now, hungUp, answerFails) =>
      answered == id && Takes(s.admissions, id, persisted, now, hungUp, answerFails)
    case Prepare(outcomes) => Begun(outcomes, id)
    case _ => false
  }

  /** What ends the wait for an answer. */
  predicate EndsAdmission(admissions: map<Id, Admission>, a: Action, id: Id)
    requires id in admissions
  {
    match a
    case Woke(_, _) | Shutdown(_, _, _) => true
    case AccountFails(account, _, _, _) => admissions[id].account == account
    case Expire(over) => id in over
    case Take(Admit(answered, _), _, _, _) => answered == id
    case Take(Reject(rejected), _, _, _) => rejected == id
    case _ => false
  }

  lemma WokenCalls(s: State, calls: seq<Id>, admissions: seq<Id>, id: Id)
    ensures var v := DropAdmissions(FinishCalls(s, calls), admissions);
      && (id in v.calls <==> id in s.calls && id !in calls) && (id in v.admissions <==> id in s.admissions && id !in admissions)
      && (id in v.calls ==> v.calls[id] == s.calls[id]) && (id in v.admissions ==> v.admissions[id] == s.admissions[id])
  {
    FinishCallsFrame(s, calls);
    DropAdmissionsFrame(FinishCalls(s, calls), admissions);
    FinishedValues(s, calls, id);
    DroppedValues(FinishCalls(s, calls), admissions, id);
  }

  lemma {:induction false} FinishedValues(s: State, which: seq<Id>, id: Id)
    ensures id in FinishCalls(s, which).calls ==> id in s.calls && FinishCalls(s, which).calls[id] == s.calls[id]
    decreases |which|
  {
    if which != [] {
      FinishedValues(FinishCall(s, which[0]), which[1..], id);
    }
  }

  lemma {:induction false} DroppedValues(s: State, which: seq<Id>, id: Id)
    ensures var v := DropAdmissions(s, which); id in v.admissions ==> id in s.admissions && v.admissions[id] == s.admissions[id]
    decreases |which|
  {
    if which != [] {
      DroppedValues(DropAdmission(s, which[0]), which[1..], id);
    }
  }

  lemma ShutdownEnds(s: State, a: Action, id: Id)
    requires a.Shutdown? && Enabled(s, a)
    ensures id !in Step(s, a).calls && id !in Step(s, a).admissions
  {
    var quiet := FinishCalls(DropAdmissions(s, a.admissions).(available := []), a.calls);
    DropAdmissionsFrame(s, a.admissions);
    FinishCallsFrame(DropAdmissions(s, a.admissions).(available := []), a.calls);
    FailAllTables(quiet.(pending := []), quiet.pending);
    FlushTables(FailAll(quiet.(pending := []), quiet.pending), a.queue);
  }

  lemma {:induction false} FailAllTables(s: State, sends: seq<Send>)
    ensures var v := FailAll(s, sends); v.calls == s.calls && v.admissions == s.admissions && v.used == s.used && v.available == s.available
    decreases |sends|
  {
    if sends != [] {
      FailAllTables(FailSend(s, sends[0].token), sends[1..]);
    }
  }

  lemma {:induction false} FlushTables(s: State, queue: seq<Command>)
    ensures var v := FlushQueue(s, queue); v.calls == s.calls && v.admissions == s.admissions && v.used == s.used && v.available == s.available
    decreases |queue|
  {
    if queue != [] {
      FlushTables(match queue[0] case Submit(token, _) => FailSend(s.(accepted := s.accepted + {token}), token) case _ => s, queue[1..]);
    }
  }

  lemma AccountEnds(s: State, a: Action, id: Id)
    requires a.AccountFails? && Enabled(s, a)
    ensures var v := Step(s, a);
      && (id in v.calls <==> id in s.calls && s.calls[id].account != a.account)
      && (id in v.admissions <==> id in s.admissions && s.admissions[id].account != a.account)
      && (id in v.calls ==> v.calls[id] == s.calls[id]) && (id in v.admissions ==> v.admissions[id] == s.admissions[id])
  {
    var failed := FailSendsOutcome(s, a.account);
    WokenCalls(failed, a.calls, a.admissions, id);
    assert id in CallsOf(s, a.account) <==> id in a.calls;
    assert id in AdmissionsOf(s, a.account) <==> id in a.admissions;
  }

  /** The call has begun, or was there and has not ended. */
  predicate CallAfter(s: State, a: Action, id: Id, now: map<Id, Call>) {
    && (id in now <==> BeginsCall(s, a, id) || (id in s.calls && !EndsCall(s.calls, a, id)))
    && (id in s.calls && id in now && !BeginsCall(s, a, id) ==> now[id] == s.calls[id])
  }

  /** After any event, exactly those calls are there that were and have not ended, and
      those that have begun. */
  lemma CallsAfter(s: State, a: Action, id: Id)
    requires Enabled(s, a)
    ensures CallAfter(s, a, id, Step(s, a).calls)
  {
    match a
    case Take(_, _, _, _) => CallAfterCommand(s, a, id);
    case Woke(calls, admissions) => WokenCalls(s, calls, admissions, id);
    case AccountFails(_, _, _, _) => AccountEnds(s, a, id);
    case Tick(calls) => WokenCalls(s, calls, [], id);
    case Prepare(outcomes) => PrepareBegins(s.(pending := []), s.pending, outcomes, id);
    case Shutdown(_, _, _) => ShutdownEnds(s, a, id);
    case Expire(admissions) => WokenCalls(s, [], admissions, id);
    case _ =>
  }

  lemma CallAfterCommand(s: State, a: Action, id: Id)
    requires a.Take?
    ensures CallAfter(s, a, id, Step(s, a).calls)
  {
    if a.command.Admit? {
      var v := AdmitOutcome(s, a.command.id, a.command.persisted, a.now, a.hungUp, a.answerFails);
    }
  }

  lemma {:induction false} PrepareTables(s: State, sends: seq<Send>, outcomes: seq<Prepared>)
    requires |sends| == |outcomes|
    ensures OnPrepare(s, sends, outcomes).admissions == s.admissions
    decreases |sends|
  {
    if sends != [] {
      PrepareTables(Attempted(s, sends[0], outcomes[0]), sends[1..], outcomes[1..]);
    }
  }

  /** The offer is the one just made, or was pending and is not over. */
  predicate PendingAfter(s: State, a: Action, id: Id, now: map<Id, Admission>) {
    if a.Invite? && a.id == id && Status(s.ids, s.limits.incoming, s.available, a) == 100 then
      id in now && now[id] == Admission(a.account, a.now + a.timeout)
    else
      && (id in now <==> id in s.admissions && !EndsAdmission(s.admissions, a, id))
      && (id in now ==> now[id] == s.admissions[id])
  }

  /** After any event, exactly those offers are pending that were and are not over, and
      the one just made. */
  lemma AdmissionsAfter(s: State, a: Action, id: Id)
    requires Enabled(s, a)
    ensures PendingAfter(s, a, id, Step(s, a).admissions)
  {
    match a
    case Invite(_, _, _, _, _, _) => ReplyIs(s, a);
    case Take(_, _, _, _) => PendingAfterCommand(s, a, id);
    case Woke(calls, admissions) => WokenCalls(s, calls, admissions, id);
    case AccountFails(_, _, _, _) => AccountEnds(s, a, id);
    case Tick(calls) => WokenCalls(s, calls, [], id);
    case Prepare(outcomes) => PrepareTables(s.(pending := []), s.pending, outcomes);
    case Shutdown(_, _, _) => ShutdownEnds(s, a, id);
    case Expire(admissions) => WokenCalls(s, [], admissions, id);
    case _ =>
  }

  lemma PendingAfterCommand(s: State, a: Action, id: Id)
    requires a.Take?
    ensures PendingAfter(s, a, id, Step(s, a).admissions)
  {
    if a.command.Admit? {
      var v := AdmitOutcome(s, a.command.id, a.command.persisted, a.now, a.hungUp, a.answerFails);
    }
  }

  // ------------------------------------------------------------- over runs

  /** An identifier that has been a call or an offer, and is none now. */
  predicate Gone(s: State, id: Id) {
    id in s.used && id !in s.calls && id !in s.admissions
  }

  lemma UsedIsKept(s: State, a: Action, id: Id)
    requires Enabled(s, a) && id in s.used
    ensures id in Step(s, a).used
  {
    match a
    case Woke(calls, admissions) =>
      FinishCallsFrame(s, calls);
      DropAdmissionsFrame(FinishCalls(s, calls), admissions);
    case AccountFails(account, calls, admissions, _) =>
      var failed := FailSendsOutcome(s, account);
      FinishCallsFrame(failed, calls);
      DropAdmissionsFrame(FinishCalls(failed, calls), admissions);
    case Prepare(outcomes) => PrepareKeepsUsed(s.(pending := []), s.pending, outcomes, id);
    case Expire(admissions) => DropAdmissionsFrame(s, admissions);
    case Tick(calls) => FinishCallsFrame(s, calls);
    case Shutdown(calls, admissions, queue) => ShutdownKeepsUsed(s, a);
    case _ =>
  }

  lemma {:induction false} PrepareKeepsUsed(s: State, sends: seq<Send>, outcomes: seq<Prepared>, id: Id)
    requires |sends| == |outcomes| && id in s.used
    ensures id in OnPrepare(s, sends, outcomes).used
    decreases |sends|
  {
    if sends != [] {
      PrepareKeepsUsed(Attempted(s, sends[0], outcomes[0]), sends[1..], outcomes[1..], id);
    }
  }

  lemma ShutdownKeepsUsed(s: State, a: Action)
    requires a.Shutdown?
    ensures Step(s, a).used == s.used && Step(s, a).available == []
  {
    var idle := DropAdmissions(s, a.admissions).(available := []);
    DropAdmissionsFrame(s, a.admissions);
    FinishCallsFrame(idle, a.calls);
    var quiet := FinishCalls(idle, a.calls);
    FailAllTables(quiet.(pending := []), quiet.pending);
    FlushTables(FailAll(quiet.(pending := []), quiet.pending), a.queue);
  }

  lemma StaysGone(s: State, a: Action, id: Id)
    requires Enabled(s, a) && Gone(s, id)
    ensures !BeginsCall(s, a, id) && Gone(Step(s, a), id)
  {
    NotBegunAgain(s, a, id);
    CallsAfter(s, a, id);
    AdmissionsAfter(s, a, id);
    UsedIsKept(s, a, id);
  }

  lemma NotBegunAgain(s: State, a: Action, id: Id)
    requires Enabled(s, a) && id in s.used && id !in s.admissions
    ensures !BeginsCall(s, a, id)
  {
    if a.Prepare? {
      NoneIsOld(s, a.outcomes, id);
    }
  }

  lemma NoneIsOld(s: State, outcomes: seq<Prepared>, id: Id)
    requires FreshIds(s, outcomes) && id in s.used
    ensures !Begun(outcomes, id)
  {
  }

  lemma {:induction false} GoneForGood(s: State, actions: seq<Action>, after: State, id: Id)
    requires Runs(s, actions, after) && Gone(s, id)
    ensures id !in after.calls
    decreases |actions|
  {
    if actions != [] {
      StaysGone(s, actions[0], id);
      GoneForGood(Step(s, actions[0]), actions[1..], after, id);
    }
  }

  /** Nothing ends the call in the course of a run. */
  ghost predicate NothingEnds(s: State, actions: seq<Action>, id: Id)
    decreases |actions|
  {
    actions == [] || (id in s.calls && Enabled(s, actions[0]) && !EndsCall(s.calls, actions[0], id)
                      && NothingEnds(Step(s, actions[0]), actions[1..], id))
  }

  lemma CallMayEnd(s: State, a: Action, id: Id)
    requires Inv(s) && Enabled(s, a) && id in s.calls
    ensures EndsCall(s.calls, a, id) ==> Gone(Step(s, a), id)
    ensures !EndsCall(s.calls, a, id) ==> id in Step(s, a).calls && Step(s, a).calls[id] == s.calls[id]
  {
    NotBegunAgain(s, a, id);
    CallsAfter(s, a, id);
    NotOffered(s, a, id);
    AdmissionsAfter(s, a, id);
    UsedIsKept(s, a, id);
  }

  lemma NotOffered(s: State, a: Action, id: Id)
    requires Inv(s) && Enabled(s, a) && id in s.calls
    ensures id in s.used && id !in s.admissions && !(a.Invite? && a.id == id)
  {
  }

  /** Over any run, a call is there, as it was, exactly as long as nothing ends it. */
  lemma {:induction false} CallLasts(s: State, actions: seq<Action>, after: State, id: Id)
    requires Inv(s) && Runs(s, actions, after) && id in s.calls
    ensures id in after.calls <==> NothingEnds(s, actions, id)
    ensures id in after.calls ==> after.calls[id] == s.calls[id]
    decreases |actions|
  {
    if actions != [] {
      CallMayEnd(s, actions[0], id);
      StepKeepsInv(s, actions[0]);
      if EndsCall(s.calls, actions[0], id) {
        GoneForGood(Step(s, actions[0]), actions[1..], after, id);
      } else {
        CallLasts(Step(s, actions[0]), actions[1..], after, id);
      }
    }
  }

  /** Nothing ends the wait for the answer in the course of a run. */
  ghost predicate NothingWithdraws(s: State, actions: seq<Action>, id: Id)
    decreases |actions|
  {
    actions == [] || (id in s.admissions && Enabled(s, actions[0]) && !EndsAdmission(s.admissions, actions[0], id)
                      && NothingWithdraws(Step(s, actions[0]), actions[1..], id))
  }

  lemma {:induction false} OfferLasts(s: State, actions: seq<Action>, after: State, id: Id)
    requires Runs(s, actions, after) && id in s.admissions && id in s.used && NothingWithdraws(s, actions, id)
    ensures id in after.admissions && after.admissions[id] == s.admissions[id]
    decreases |actions|
  {
    if actions != [] {
      AdmissionsAfter(s, actions[0], id);
      UsedIsKept(s, actions[0], id);
      OfferLasts(Step(s, actions[0]), actions[1..], after, id);
    }
  }

  lemma OfferIsMade(s: State, a: Action)
    requires a.Invite? && Status(s.ids, s.limits.incoming, s.available, a) == 100
    ensures var v := Step(s, a);
      a.id in v.admissions && v.admissions[a.id] == Admission(a.account, a.now + a.timeout) && a.id in v.used
  {
    ReplyIs(s, a);
  }

  /** An offer that is still pending when it is answered with a persisted reception, in
      time, to a caller still there, is a call of its account from then on, until something
      ends it. */
  lemma AnsweredInTimeIsACall(limits: Limits, earlier: seq<Action>, s: State, a: Action, between: seq<Action>, t: State,
                              now: int, later: seq<Action>, u: State)
    requires Runs(Started(limits), earlier, s)
    requires Enabled(s, a) && a.Invite? && Status(s.ids, s.limits.incoming, s.available, a) == 100
    requires Runs(Step(s, a), between, t) && NothingWithdraws(Step(s, a), between, a.id)
    requires Enabled(t, Take(Admit(a.id, true), now, false, false)) && now < a.now + a.timeout
    requires Runs(Step(t, Take(Admit(a.id, true), now, false, false)), later, u)
    ensures var v := Step(t, Take(Admit(a.id, true), now, false, false));
      && a.id in v.calls && v.calls[a.id] == Incoming(a.account)
      && (a.id in u.calls <==> NothingEnds(v, later, a.id)) && (a.id in u.calls ==> u.calls[a.id] == Incoming(a.account))
  {
    StartedInv(limits);
    RunKeepsInv(Started(limits), earlier, s);
    StepKeepsInv(s, a);
    RunKeepsInv(Step(s, a), between, t);
    OfferIsMade(s, a);
    OfferLasts(Step(s, a), between, t, a.id);
    var answer := Take(Admit(a.id, true), now, false, false);
    var v := AdmitOutcome(t, a.id, true, now, false, false);
    StepKeepsInv(t, answer);
    CallLasts(v, later, u, a.id);
  }

  // ------------------------------------------------------------- free slots

  /** What an event does to the free slots. */
  function SlotsAfterEvent(s: State, a: Action): seq<Slot> {
    match a
    case Invite(_, _, _, _, _, _) =>
      if Status(s.ids, s.limits.incoming, s.available, a) in {100, 488} && s.available != [] then s.available[1..] else s.available
    case Take(Configure, _, _, _) | ClearAvailable | Shutdown(_, _, _) => []
    case AccountFails(_, _, _, desired) => if desired then [] else s.available
    case Refill(slots) => s.available + slots
    case _ => s.available
  }

  /** Slots are used up by calls set up, dropped when the configuration or its connection
      changes, and otherwise kept in order. */
  lemma SlotsAfter(s: State, a: Action)
    requires Enabled(s, a)
    ensures Step(s, a).available == SlotsAfterEvent(s, a)
  {
    match a
    case Woke(calls, admissions) =>
      FinishCallsFrame(s, calls);
      DropAdmissionsFrame(FinishCalls(s, calls), admissions);
    case AccountFails(account, calls, admissions, _) =>
      var failed := FailSendsOutcome(s, account);
      FinishCallsFrame(failed, calls);
      DropAdmissionsFrame(FinishCalls(failed, calls), admissions);
    case Prepare(outcomes) => PrepareKeepsSlots(s.(pending := []), s.pending, outcomes);
    case Expire(admissions) => DropAdmissionsFrame(s, admissions);
    case Tick(calls) => FinishCallsFrame(s, calls);
    case Shutdown(_, _, _) => ShutdownKeepsUsed(s, a);
    case _ =>
  }

  lemma {:induction false} PrepareKeepsSlots(s: State, sends: seq<Send>, outcomes: seq<Prepared>)
    requires |sends| == |outcomes|
    ensures OnPrepare(s, sends, outcomes).available == s.available
    decreases |sends|
  {
    if sends != [] {
      PrepareKeepsSlots(Attempted(s, sends[0], outcomes[0]), sends[1..], outcomes[1..]);
    }
  }
}
