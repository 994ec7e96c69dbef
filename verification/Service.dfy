/**
 The SIP service loop's tables, updated in place. Every stage of a loop turn is
 one method and takes exactly one step of `ServiceModel`.
 */
module SipService {
  import opened Words
  import opened ServiceModel
  import Theorems = ServiceTheorems
  import Outcomes = ServiceOutcomes

  lemma {:induction false} FinishOneMore(s: State, done: seq<Id>, id: Id)
    ensures FinishCalls(s, done + [id]) == FinishCall(FinishCalls(s, done), id)
    decreases |done|
  {
    if done == [] {
      assert [] + [id] == [id] && [id][1..] == [];
    } else {
      assert (done + [id])[1..] == done[1..] + [id];
      FinishOneMore(FinishCall(s, done[0]), done[1..], id);
    }
  }

  lemma {:induction false} DropOneMore(s: State, done: seq<Id>, id: Id)
    ensures DropAdmissions(s, done + [id]) == DropAdmission(DropAdmissions(s, done), id)
    decreases |done|
  {
    if done == [] {
      assert [] + [id] == [id] && [id][1..] == [];
    } else {
      assert (done + [id])[1..] == done[1..] + [id];
      DropOneMore(DropAdmission(s, done[0]), done[1..], id);
    }
  }

  lemma ListOneMore(done: set<Id>, order: seq<Id>, id: Id)
    requires Lists(done, order) && id !in done
    ensures Lists(done + {id}, order + [id])
  {
  }

  lemma RepliedParts(s: State, v: State, a: Action, status: nat)
    requires a.Invite?
    requires v == s.(available := v.available, ids := v.ids, used := v.used, offered := v.offered, admissions := v.admissions)
    requires v.available == if status in {100, 488} && s.available != [] then s.available[1..] else s.available
    requires v.ids == if status == 100 then s.ids[a.id := a.callId] else s.ids
    requires v.admissions == if status == 100 then s.admissions[a.id := Admission(a.account, a.now + a.timeout)] else s.admissions
    requires v.used == if status == 100 then s.used + {a.id} else s.used
    requires v.offered == if status == 100 then s.offered + {a.id} else s.offered
    ensures v == Replied(s, a, status)
  {
  }

  class Service {
    const limits: Limits
    var calls: map<Id, Call>
    var pending: seq<Send>
    var admissions: map<Id, Admission>
    var ids: map<Id, string>
    var available: seq<Slot>
    var finished: multiset<Token>
    var ended: multiset<Id>
    ghost var used: set<Id>
    ghost var offered: set<Id>
    ghost var accepted: set<Token>
    ghost var answered: set<Id>
    ghost var persisted: set<Id>

    ghost function View(): State
      reads this
    {
      State(limits, calls, pending, admissions, ids, available, used, offered, accepted, finished,
            answered, persisted, ended)
    }

    constructor (limits: Limits)
      ensures View() == Started(limits)
    {
      this.limits := limits;
      calls, pending, admissions, ids, available := map[], [], map[], map[], [];
      finished, ended := multiset{}, multiset{};
      used, offered, accepted, answered, persisted := {}, {}, {}, {}, {};
    }

    method ForgetIncoming(id: Id)
      modifies `ids
      ensures ids == old(ids) - {id}
    {
      ids := ids - {id};
    }

    method Finish(id: Id)
      requires id in calls
      modifies `calls, `ids, `finished, `ended
      ensures View() == FinishCall(old(View()), id)
    {
      var call := calls[id];
      ForgetIncoming(id);
      calls := calls - {id};
      match call {
        case Outgoing(_, token) => finished := finished + multiset{token};
        case Incoming(_) => ended := ended + multiset{id};
      }
    }

    method Withdraw(id: Id)
      modifies `admissions, `ids
      ensures View() == DropAdmission(old(View()), id)
    {
      admissions := admissions - {id};
      ForgetIncoming(id);
    }

    /** Finish every call of `affected`, in whatever order the table yields them. */
    method FinishEach(affected: set<Id>) returns (order: seq<Id>)
      requires affected <= calls.Keys
      modifies `calls, `ids, `finished, `ended
      ensures Lists(affected, order)
      ensures View() == FinishCalls(old(View()), order)
    {
      var left := affected;
      order := [];
      while left != {}
        invariant left <= affected && left <= calls.Keys
        invariant Lists(affected - left, order)
        invariant View() == FinishCalls(old(View()), order)
      {
        var id :| id in left;
        FinishOneMore(old(View()), order, id);
        ListOneMore(affected - left, order, id);
        assert affected - (left - {id}) == affected - left + {id};
        Finish(id);
        order, left := order + [id], left - {id};
      }
      assert affected - left == affected;
    }

    method WithdrawEach(affected: set<Id>) returns (order: seq<Id>)
      modifies `admissions, `ids
      ensures Lists(affected, order)
      ensures View() == DropAdmissions(old(View()), order)
    {
      var left := affected;
      order := [];
      while left != {}
        invariant left <= affected
        invariant Lists(affected - left, order)
        invariant View() == DropAdmissions(old(View()), order)
      {
        var id :| id in left;
        DropOneMore(old(View()), order, id);
        ListOneMore(affected - left, order, id);
        assert affected - (left - {id}) == affected - left + {id};
        Withdraw(id);
        order, left := order + [id], left - {id};
      }
      assert affected - left == affected;
    }

    /** The slot is taken off the free ones, looked at, and put back unless it is used. */
    method Screen(a: Action) returns (status: nat)
      requires a.Invite?
      modifies `available
      ensures status == Status(ids, limits.incoming, old(available), a)
      ensures available == if status in {100, 488} then old(available)[1..] else old(available)
      ensures status in {100, 488} ==> old(available) != []
    {
      if a.callId in ids.Values {
        return UNANSWERED;
      }
      if |ids| >= limits.incoming {
        return 486;
      }
      if available == [] {
        return 480;
      }
      var slot := available[0];
      available := available[1..];
      if !slot.direct && a.screening.user != Some(slot.username) {
        available := [slot] + available;
        return 404;
      }
      if a.screening.mappingPending {
        available := [slot] + available;
        return 480;
      }
      status := if a.screening.setupFails then 488 else 100;
    }

    /** An INVITE arrives, possibly between any two stages. */
    method OnInvite(a: Action) returns (status: nat)
      requires a.Invite?
      modifies `available, `ids, `admissions, `used, `offered
      ensures status == Status(old(ids), limits.incoming, old(available), a)
      ensures View() == Replied(old(View()), a, status)
    {
      status := Screen(a);
      if status == 100 {
        ids := ids[a.id := a.callId];
        admissions := admissions[a.id := Admission(a.account, a.now + a.timeout)];
        used, offered := used + {a.id}, offered + {a.id};
      }
      RepliedParts(old(View()), View(), a, status);
    }

    /** A persisted record that gets no call is closed at once. */
    method Close(id: Id, path: bool)
      modifies `answered, `persisted, `ended
      ensures View() == Answered(old(View()), id, path)
    {
      answered := answered + {id};
      if path {
        persisted, ended := persisted + {id}, ended + multiset{id};
      }
    }

    /** The answer to an offer. `path` is whether the reception was persisted. */
    method Admit(id: Id, path: bool, now: int, hungUp: bool, answerFails: bool)
      modifies this
      ensures View() == OnAdmit(old(View()), id, path, now, hungUp, answerFails)
      ensures Outcomes.AdmitDoes(old(View()), View(), id, path, now, hungUp, answerFails)
    {
      ghost var _ := Outcomes.AdmitOutcome(View(), id, path, now, hungUp, answerFails);
      if id in admissions {
        var admission := admissions[id];
        if path && now < admission.deadline && !hungUp && !answerFails {
          answered, persisted := answered + {id}, persisted + {id};
          admissions := admissions - {id};
          calls := calls[id := Incoming(admission.account)];
        } else {
          Withdraw(id);
          Close(id, path);
        }
      } else {
        Close(id, path);
      }
    }

    method Submit(token: Token, account: AccountId)
      modifies `pending, `finished, `accepted
      ensures View() == OnSubmit(old(View()), token, account)
    {
      var count := |OutgoingIds(calls)| + |pending|;
      accepted := accepted + {token};
      if count >= limits.outgoing {
        finished := finished + multiset{token};
      } else {
        pending := pending + [Send(token, account)];
      }
    }

    method Handle(command: Command, now: int, hungUp: bool, answerFails: bool)
      modifies this
      ensures View() == Step(old(View()), Take(command, now, hungUp, answerFails))
    {
      match command {
        case Configure => available := [];
        case Submit(token, account) => Submit(token, account);
        case Admit(id, path) => Admit(id, path, now, hungUp, answerFails);
        case Reject(id) =>
          if id in admissions {
            Withdraw(id);
          }
        case _ =>
      }
    }

    /** The computer slept: every call and every pending admission is dropped. */
    method Wake() returns (ghost step: Action)
      modifies this
      ensures Enabled(old(View()), step) && step.Woke?
      ensures View() == Step(old(View()), step)
    {
      var over := FinishEach(calls.Keys);
      Theorems.FinishCallsFrame(old(View()), over);
      var withdrawn := WithdrawEach(admissions.Keys);
      step := Woke(over, withdrawn);
    }

    /** Queued sends of the lost account fail; the others stay in order. */
    method FailQueued(account: AccountId)
      modifies `pending, `finished
      ensures View() == FailSends(old(View()).(pending := []), old(pending), account)
    {
      var sends := pending;
      pending := [];
      for i := 0 to |sends|
        invariant FailSends(View(), sends[i..], account) == FailSends(old(View()).(pending := []), sends, account)
      {
        assert sends[i..][0] == sends[i] && sends[i..][1..] == sends[i + 1..];
        if sends[i].account == account {
          finished := finished + multiset{sends[i].token};
        } else {
          pending := pending + [sends[i]];
        }
      }
    }

    /** A connection failed; `desired` is whether it carries the receiving account. */
    method LoseAccount(account: AccountId, desired: bool) returns (ghost step: Action)
      modifies this
      ensures Enabled(old(View()), step) && step.AccountFails?
      ensures View() == Step(old(View()), step)
    {
      FailQueued(account);
      ghost var failed := View();
      var over := FinishEach(set id | id in calls && calls[id].account == account);
      Theorems.FinishCallsFrame(failed, over);
      var withdrawn := WithdrawEach(set id | id in admissions && admissions[id].account == account);
      step := AccountFails(account, over, withdrawn, desired);
      if desired {
        available := [];
      }
    }

    method ClearSlots()
      modifies `available
      ensures View() == Step(old(View()), ClearAvailable)
    {
      available := [];
    }

    /** Bind a slot for every free place; `bound` is how many sockets can be had. */
    method FillSlots(slot: Slot, bound: nat) returns (complete: bool, ghost step: Action)
      modifies `available
      ensures step.Refill? && Enabled(old(View()), step)
      ensures View() == Step(old(View()), step)
      ensures complete ==> |ids| + |available| == Max(old(|ids| + |available|), limits.incoming)
    {
      var occupied := |ids| + |available|;
      ghost var slots: seq<Slot> := [];
      complete := true;
      for i := occupied to Max(occupied, limits.incoming)
        invariant available == old(available) + slots
        invariant |slots| == i - occupied
      {
        if i - occupied >= bound {
          complete := false;
          break;
        }
        available := available + [slot];
        slots := slots + [slot];
      }
      step := Refill(slots);
    }

    method Attempt(send: Send, outcome: Prepared)
      modifies `pending, `calls, `finished, `used
      ensures View() == Attempted(old(View()), send, outcome)
    {
      match outcome {
        case Ready(id) =>
          calls := calls[id := Outgoing(send.account, send.token)];
          used := used + {id};
        case Waiting => pending := pending + [send];
        case Refused => finished := finished + multiset{send.token};
      }
    }

    /** Try every queued send once; `outcomes` is what connecting each one yields. */
    method PrepareSends(outcomes: seq<Prepared>)
      requires |outcomes| == |pending|
      modifies `pending, `calls, `finished, `used
      ensures View() == Step(old(View()), Prepare(outcomes))
    {
      var sends := pending;
      pending := [];
      for i := 0 to |sends|
        invariant OnPrepare(View(), sends[i..], outcomes[i..]) == OnPrepare(old(View()).(pending := []), sends, outcomes)
      {
        assert sends[i..][0] == sends[i] && sends[i..][1..] == sends[i + 1..];
        assert outcomes[i..][0] == outcomes[i] && outcomes[i..][1..] == outcomes[i + 1..];
        Attempt(sends[i], outcomes[i]);
      }
    }

    /** Withdraw every admission whose time is over or whose caller hung up. */
    method ExpireAdmissions(now: int, hungUp: set<Id>) returns (ghost step: Action)
      modifies `admissions, `ids
      ensures step.Expire? && Enabled(old(View()), step)
      ensures View() == Step(old(View()), step)
      ensures forall id :: id in admissions <==> id in old(admissions) && now < old(admissions)[id].deadline && id !in hungUp
    {
      var expired := set id | id in admissions && (now >= admissions[id].deadline || id in hungUp);
      var order := WithdrawEach(expired);
      step := Expire(order);
      Theorems.DropAdmissionsFrame(old(View()), order);
    }

    /** Poll every call; `over` holds those whose media reached an outcome. */
    method TickCalls(over: set<Id>) returns (ghost step: Action)
      modifies `calls, `ids, `finished, `ended
      ensures step.Tick? && Enabled(old(View()), step)
      ensures View() == Step(old(View()), step)
      ensures calls.Keys == old(calls.Keys) - over
    {
      var order := FinishEach(over * calls.Keys);
      step := Tick(order);
      Theorems.FinishCallsFrame(old(View()), order);
    }

    method FailAllQueued()
      modifies `pending, `finished
      ensures View() == FailAll(old(View()).(pending := []), old(pending))
    {
      var sends := pending;
      pending := [];
      for i := 0 to |sends|
        invariant pending == []
        invariant FailAll(View(), sends[i..]) == FailAll(old(View()).(pending := []), sends)
      {
        assert sends[i..][0] == sends[i] && sends[i..][1..] == sends[i + 1..];
        finished := finished + multiset{sends[i].token};
      }
    }

    method Flush(queue: seq<Command>)
      modifies `finished, `accepted
      ensures View() == FlushQueue(old(View()), queue)
    {
      for i := 0 to |queue|
        invariant FlushQueue(View(), queue[i..]) == FlushQueue(old(View()), queue)
      {
        assert queue[i..][0] == queue[i] && queue[i..][1..] == queue[i + 1..];
        match queue[i] {
          case Submit(token, _) =>
            accepted := accepted + {token};
            finished := finished + multiset{token};
          case _ =>
        }
      }
    }

    method WithdrawAndFinish() returns (withdrawn: seq<Id>, over: seq<Id>)
      modifies `admissions, `ids, `available, `calls, `finished, `ended
      ensures Lists(old(admissions).Keys, withdrawn) && Lists(old(calls).Keys, over)
      ensures View() == FinishCalls(DropAdmissions(old(View()), withdrawn).(available := []), over)
    {
      withdrawn := WithdrawEach(admissions.Keys);
      Theorems.DropAdmissionsFrame(old(View()), withdrawn);
      available := [];
      over := FinishEach(calls.Keys);
    }

    method EndEverything(queue: seq<Command>) returns (ghost step: Action)
      requires FreshTokens(View(), queue)
      modifies this
      ensures step.Shutdown? && Enabled(old(View()), step)
      ensures View() == Step(old(View()), step)
    {
      var withdrawn, over := WithdrawAndFinish();
      FailAllQueued();
      Flush(queue);
      ids := map[];
      step := Shutdown(over, withdrawn, queue);
    }

    /** The loop is left: everything still open is ended and answered. */
    method StopService(queue: seq<Command>) returns (ghost step: Action)
      requires Theorems.Inv(View()) && FreshTokens(View(), queue)
      modifies this
      ensures step.Shutdown? && Enabled(old(View()), step)
      ensures View() == Step(old(View()), step)
      ensures calls == map[] && pending == [] && admissions == map[] && ids == map[] && available == []
      ensures forall token :: finished[token] == if token in accepted then 1 else 0
      ensures forall id :: ended[id] == if id in persisted then 1 else 0
    {
      step := EndEverything(queue);
      Theorems.ShutdownSettles(old(View()), step);
      Theorems.SettledAnswers(View());
    }
  }
}
