/** Accounting over every run of the service loop. */
module ServiceTheorems {
  import opened Words
  import opened ServiceModel

  function IncomingIds(calls: map<Id, Call>): set<Id> {
    set id | id in calls && calls[id].Incoming?
  }

  // ---------------------------------------------------------- invariants

  /** The known Call-IDs are exactly the pending admissions and the active
      incoming calls, and the slots never exceed the limits. */
  ghost predicate Accounted(s: State) {
    && Partition(s.ids.Keys, s.admissions.Keys, s.calls.Keys, IncomingIds(s.calls))
    && |s.ids| + |s.available| <= s.limits.incoming
    && Provenance(s.calls.Keys, s.admissions.Keys, IncomingIds(s.calls), OutgoingIds(s.calls), s.offered, s.used)
  }

  /** Incoming calls and admissions come from offers; outgoing calls never do. */
  ghost predicate Provenance(calls: set<Id>, admissions: set<Id>, incoming: set<Id>, outgoing: set<Id>, offered: set<Id>, used: set<Id>) {
    calls <= used && admissions <= offered && offered <= used && incoming <= offered && outgoing !! offered
  }

  ghost predicate Partition(ids: set<Id>, admissions: set<Id>, calls: set<Id>, incoming: set<Id>) {
    ids == admissions + incoming && admissions !! calls && incoming <= calls
  }

  ghost predicate Capacity(s: State) {
    |OutgoingIds(s.calls)| + |s.pending| <= s.limits.outgoing
  }

  ghost predicate Called(calls: map<Id, Call>, token: Token) {
    exists id :: id in calls && calls[id].Outgoing? && calls[id].token == token
  }

  ghost predicate Queued(queue: seq<Send>, token: Token) {
    exists i :: 0 <= i < |queue| && queue[i].token == token
  }

  /** Where a send command is: answered, queued, or in a call. */
  ghost function Places(calls: map<Id, Call>, queue: seq<Send>, finished: multiset<Token>, token: Token): nat {
    finished[token] + (if Queued(queue, token) then 1 else 0) + (if Called(calls, token) then 1 else 0)
  }

  /** Every accepted send command is in exactly one place, any other in none. */
  ghost predicate SendsInv(calls: map<Id, Call>, queue: seq<Send>, finished: multiset<Token>, accepted: set<Token>) {
    && (forall t :: Places(calls, queue, finished, t) == if t in accepted then 1 else 0)
    && (forall i, j :: 0 <= i < j < |queue| ==> queue[i].token != queue[j].token)
    && (forall a, b :: a in calls && b in calls && a != b && calls[a].Outgoing? && calls[b].Outgoing? ==> calls[a].token != calls[b].token)
  }

  /** A persisted reception is either in a call or has had its one ending. */
  ghost predicate ReceptionsInv(s: State) {
    && (forall id :: s.ended[id] == if id in s.persisted && id !in IncomingIds(s.calls) then 1 else 0)
    && IncomingIds(s.calls) <= s.persisted <= s.answered <= s.offered && s.admissions.Keys !! s.answered
  }

  ghost predicate Inv(s: State) {
    Accounted(s) && Capacity(s) && SendsInv(s.calls, s.pending, s.finished, s.accepted) && ReceptionsInv(s)
  }

  // --------------------------------------------------- single transitions

  lemma FinishCallKeepsSends(s: State, id: Id, queue: seq<Send>)
    requires id in s.calls && SendsInv(s.calls, queue, s.finished, s.accepted)
    ensures var v := FinishCall(s, id); SendsInv(v.calls, queue, v.finished, v.accepted)
  {
    var v := FinishCall(s, id);
    forall t
      ensures Places(v.calls, queue, v.finished, t) == if t in s.accepted then 1 else 0
    {
      assert Places(s.calls, queue, s.finished, t) == if t in s.accepted then 1 else 0;
      if s.calls[id].Outgoing? && s.calls[id].token == t {
        assert Called(s.calls, t);
        assert !Called(v.calls, t);
      } else {
        assert Called(s.calls, t) <==> Called(v.calls, t) by {
          if Called(s.calls, t) {
            var other :| other in s.calls && s.calls[other].Outgoing? && s.calls[other].token == t;
            assert other in v.calls;
          }
        }
      }
    }
  }

  lemma RemoveKey<V>(m: map<Id, V>, id: Id)
    ensures (m - {id}).Keys == m.Keys - {id}
    ensures |m - {id}| <= |m|
    ensures id in m ==> |m - {id}| == |m| - 1
  {
    assert (m - {id}).Keys == m.Keys - {id};
    assert |(m - {id}).Keys| == |m - {id}|;
    if id in m {
      assert |m.Keys - {id}| == |m.Keys| - 1;
    } else {
      assert m - {id} == m;
    }
  }

  lemma RemoveCall(s: State, id: Id)
    requires id in s.calls
    ensures var v := FinishCall(s, id);
      && v.calls == s.calls - {id} && v.ids == s.ids - {id}
      && OutgoingIds(v.calls) == OutgoingIds(s.calls) - {id} && IncomingIds(v.calls) == IncomingIds(s.calls) - {id}
      && v.ended == (if s.calls[id].Incoming? then s.ended + multiset{id} else s.ended)
      && v == s.(calls := v.calls, ids := v.ids, ended := v.ended, finished := v.finished)
  {
    var v := FinishCall(s, id);
    assert OutgoingIds(v.calls) == OutgoingIds(s.calls) - {id};
    assert IncomingIds(v.calls) == IncomingIds(s.calls) - {id};
  }

  lemma FinishCallKeepsAccounts(s: State, id: Id)
    requires Accounted(s)
    ensures Accounted(FinishCall(s, id))
  {
    if id in s.calls {
      var v := FinishCall(s, id);
      RemoveCall(s, id);
      RemoveKey(s.ids, id);
      RemoveKey(s.calls, id);
      assert Partition(v.ids.Keys, v.admissions.Keys, v.calls.Keys, IncomingIds(v.calls)) by {
        PartitionWithout(s.ids.Keys, s.admissions.Keys, s.calls.Keys, IncomingIds(s.calls), id);
      }
    }
  }

  lemma PartitionWithout(ids: set<Id>, admissions: set<Id>, calls: set<Id>, incoming: set<Id>, id: Id)
    requires Partition(ids, admissions, calls, incoming) && id in calls
    ensures Partition(ids - {id}, admissions, calls - {id}, incoming - {id})
  {
  }

  lemma FinishCallKeepsReceptions(s: State, id: Id)
    requires ReceptionsInv(s)
    ensures ReceptionsInv(FinishCall(s, id))
  {
    if id in s.calls {
      RemoveCall(s, id);
      assert s.calls[id].Incoming? <==> id in IncomingIds(s.calls);
    }
  }

  lemma DropAdmissionKeepsAccounts(s: State, id: Id)
    requires Accounted(s) && (id in s.admissions || id !in s.ids)
    ensures Accounted(DropAdmission(s, id))
  {
    RemoveKey(s.ids, id);
    RemoveKey(s.admissions, id);
  }

  // ------------------------------------------------- listed transitions

  /** Ending the listed calls leaves the queue and the admissions alone. */
  lemma {:induction false} FinishCallsFrame(s: State, which: seq<Id>)
    ensures var v := FinishCalls(s, which);
      && v == s.(calls := v.calls, ids := v.ids, ended := v.ended, finished := v.finished)
      && (forall id :: id in v.calls <==> id in s.calls && id !in which)
      && OutgoingIds(v.calls) <= OutgoingIds(s.calls)
    decreases |which|
  {
    if which != [] {
      FinishCallsFrame(FinishCall(s, which[0]), which[1..]);
      if which[0] in s.calls {
        RemoveCall(s, which[0]);
      }
    }
  }

  lemma {:induction false} FinishCallsKeepAccounts(s: State, which: seq<Id>)
    requires Accounted(s)
    ensures Accounted(FinishCalls(s, which))
    decreases |which|
  {
    if which != [] {
      FinishCallKeepsAccounts(s, which[0]);
      FinishCallsKeepAccounts(FinishCall(s, which[0]), which[1..]);
    }
  }

  lemma {:induction false} FinishCallsKeepReceptions(s: State, which: seq<Id>)
    requires ReceptionsInv(s)
    ensures ReceptionsInv(FinishCalls(s, which))
    decreases |which|
  {
    if which != [] {
      FinishCallKeepsReceptions(s, which[0]);
      FinishCallsKeepReceptions(FinishCall(s, which[0]), which[1..]);
    }
  }

  lemma {:induction false} FinishCallsKeepSends(s: State, which: seq<Id>, queue: seq<Send>)
    requires SendsInv(s.calls, queue, s.finished, s.accepted)
    ensures var v := FinishCalls(s, which); SendsInv(v.calls, queue, v.finished, v.accepted)
    decreases |which|
  {
    if which != [] {
      if which[0] in s.calls {
        FinishCallKeepsSends(s, which[0], queue);
      }
      FinishCallsKeepSends(FinishCall(s, which[0]), which[1..], queue);
    }
  }

  lemma {:induction false} DropAdmissionsFrame(s: State, which: seq<Id>)
    ensures var v := DropAdmissions(s, which);
      && v == s.(admissions := v.admissions, ids := v.ids)
      && (forall id :: id in v.admissions <==> id in s.admissions && id !in which)
    decreases |which|
  {
    if which != [] {
      DropAdmissionsFrame(DropAdmission(s, which[0]), which[1..]);
    }
  }

  lemma {:induction false} DropAdmissionsKeepAccounts(s: State, which: seq<Id>)
    requires Accounted(s)
    requires forall i :: 0 <= i < |which| ==> which[i] in s.admissions || which[i] !in s.ids
    ensures Accounted(DropAdmissions(s, which))
    decreases |which|
  {
    if which != [] {
      DropAdmissionKeepsAccounts(s, which[0]);
      StillPending(s, which[0], which);
      DropAdmissionsKeepAccounts(DropAdmission(s, which[0]), which[1..]);
    }
  }

  lemma StillPending(s: State, gone: Id, which: seq<Id>)
    requires forall i :: 0 <= i < |which| ==> which[i] in s.admissions || which[i] !in s.ids
    ensures var v := DropAdmission(s, gone); forall i :: 0 <= i < |which| ==> which[i] in v.admissions || which[i] !in v.ids
  {
  }

  // ------------------------------------------------------ queued sends

  lemma FailSendKeepsSends(s: State, rest: seq<Send>, send: Send, queue: seq<Send>)
    requires SendsInv(s.calls, queue + [send] + rest, s.finished, s.accepted)
    ensures SendsInv(s.calls, queue + rest, FailSend(s, send.token).finished, s.accepted)
  {
    var before, after := queue + [send] + rest, queue + rest;
    assert before[|queue|] == send;
    forall t
      ensures Places(s.calls, after, s.finished + multiset{send.token}, t) == if t in s.accepted then 1 else 0
    {
      assert Places(s.calls, before, s.finished, t) == if t in s.accepted then 1 else 0;
      QueuedWithout(queue, send, rest, t);
    }
    forall i, j | 0 <= i < j < |after|
      ensures after[i].token != after[j].token
    {
      var k, l := if i < |queue| then i else i + 1, if j < |queue| then j else j + 1;
      assert before[k] == after[i] && before[l] == after[j];
    }
  }

  lemma QueuedWithout(queue: seq<Send>, send: Send, rest: seq<Send>, t: Token)
    requires forall i, j :: 0 <= i < j < |queue + [send] + rest| ==>
      (queue + [send] + rest)[i].token != (queue + [send] + rest)[j].token
    ensures Queued(queue + [send] + rest, t) <==> t == send.token || Queued(queue + rest, t)
    ensures !Queued(queue + rest, send.token)
  {
    var before, after := queue + [send] + rest, queue + rest;
    assert before[|queue|] == send;
    forall i | 0 <= i < |after|
      ensures before[if i < |queue| then i else i + 1] == after[i]
    {
    }
    forall k | 0 <= k < |before| && k != |queue|
      ensures after[if k < |queue| then k else k - 1] == before[k]
    {
    }
  }

  lemma ConnectKeepsSends(s: State, rest: seq<Send>, send: Send, queue: seq<Send>, id: Id)
    requires SendsInv(s.calls, queue + [send] + rest, s.finished, s.accepted) && id !in s.calls
    ensures SendsInv(s.calls[id := Outgoing(send.account, send.token)], queue + rest, s.finished, s.accepted)
  {
    var calls := s.calls[id := Outgoing(send.account, send.token)];
    var before, after := queue + [send] + rest, queue + rest;
    assert before[|queue|] == send;
    QueuedWithout(queue, send, rest, send.token);
    assert Places(s.calls, before, s.finished, send.token) <= 1;
    assert !Called(s.calls, send.token);
    forall t
      ensures Places(calls, after, s.finished, t) == if t in s.accepted then 1 else 0
    {
      assert Places(s.calls, before, s.finished, t) == if t in s.accepted then 1 else 0;
      QueuedWithout(queue, send, rest, t);
      CalledWith(s.calls, id, Outgoing(send.account, send.token), t);
    }
    forall i, j | 0 <= i < j < |after|
      ensures after[i].token != after[j].token
    {
      var k, l := if i < |queue| then i else i + 1, if j < |queue| then j else j + 1;
      assert before[k] == after[i] && before[l] == after[j];
    }
    forall a, b | a in calls && b in calls && a != b && calls[a].Outgoing? && calls[b].Outgoing?
      ensures calls[a].token != calls[b].token
    {
      if a == id {
        assert calls[b] == s.calls[b];
      } else if b == id {
        assert calls[a] == s.calls[a];
      }
    }
  }

  lemma CalledWith(calls: map<Id, Call>, id: Id, call: Call, t: Token)
    requires id !in calls
    ensures Called(calls[id := call], t) <==> Called(calls, t) || (call.Outgoing? && call.token == t)
  {
    if Called(calls, t) {
      var other :| other in calls && calls[other].Outgoing? && calls[other].token == t;
      assert other in calls[id := call] && calls[id := call][other] == calls[other];
    }
    if call.Outgoing? && call.token == t {
      assert calls[id := call][id] == call;
    }
  }

  lemma {:induction false} FailSendsKeepsSends(s: State, sends: seq<Send>, account: AccountId)
    requires SendsInv(s.calls, s.pending + sends, s.finished, s.accepted)
    ensures var v := FailSends(s, sends, account);
      && SendsInv(v.calls, v.pending, v.finished, v.accepted)
      && v == s.(pending := v.pending, finished := v.finished) && |v.pending| <= |s.pending| + |sends|
    decreases |sends|
  {
    if sends == [] {
      assert s.pending + sends == s.pending;
    } else {
      assert s.pending + sends == s.pending + [sends[0]] + sends[1..];
      if sends[0].account == account {
        FailSendKeepsSends(s, sends[1..], sends[0], s.pending);
        FailSendsKeepsSends(FailSend(s, sends[0].token), sends[1..], account);
      } else {
        FailSendsKeepsSends(s.(pending := s.pending + [sends[0]]), sends[1..], account);
      }
    }
  }

  lemma {:induction false} FailAllKeepsSends(s: State, sends: seq<Send>)
    requires SendsInv(s.calls, sends, s.finished, s.accepted)
    ensures var v := FailAll(s, sends);
      SendsInv(v.calls, [], v.finished, v.accepted) && v == s.(finished := v.finished)
    decreases |sends|
  {
    if sends != [] {
      assert sends == [] + [sends[0]] + sends[1..];
      FailSendKeepsSends(s, sends[1..], sends[0], []);
      assert [] + sends[1..] == sends[1..];
      FailAllKeepsSends(FailSend(s, sends[0].token), sends[1..]);
    }
  }

  lemma AnswerKeepsSends(s: State, token: Token, queue: seq<Send>)
    requires SendsInv(s.calls, queue, s.finished, s.accepted) && token !in s.accepted
    ensures SendsInv(s.calls, queue, s.finished + multiset{token}, s.accepted + {token})
  {
    forall t
      ensures Places(s.calls, queue, s.finished + multiset{token}, t) == if t in s.accepted + {token} then 1 else 0
    {
      assert Places(s.calls, queue, s.finished, t) == if t in s.accepted then 1 else 0;
    }
  }

  lemma {:induction false} FlushQueueKeepsSends(s: State, queue: seq<Command>)
    requires SendsInv(s.calls, [], s.finished, s.accepted) && FreshTokens(s, queue)
    ensures var v := FlushQueue(s, queue);
      SendsInv(v.calls, [], v.finished, v.accepted) && v == s.(finished := v.finished, accepted := v.accepted)
      && s.accepted <= v.accepted
    decreases |queue|
  {
    if queue != [] {
      if queue[0].Submit? {
        AnswerKeepsSends(s, queue[0].token, []);
        var next := FailSend(s.(accepted := s.accepted + {queue[0].token}), queue[0].token);
        assert FreshTokens(next, queue[1..]);
        FlushQueueKeepsSends(next, queue[1..]);
      } else {
        FlushQueueKeepsSends(s, queue[1..]);
      }
    }
  }

  lemma QueueKeepsSends(s: State, send: Send)
    requires SendsInv(s.calls, s.pending, s.finished, s.accepted) && send.token !in s.accepted
    ensures SendsInv(s.calls, s.pending + [send], s.finished, s.accepted + {send.token})
  {
    var queue := s.pending + [send];
    forall t
      ensures Places(s.calls, queue, s.finished, t) == if t in s.accepted + {send.token} then 1 else 0
    {
      assert Places(s.calls, s.pending, s.finished, t) == if t in s.accepted then 1 else 0;
      assert Queued(queue, t) <==> Queued(s.pending, t) || t == send.token by {
        if Queued(s.pending, t) {
          var i :| 0 <= i < |s.pending| && s.pending[i].token == t;
          assert queue[i].token == t;
        }
        assert queue[|s.pending|] == send;
      }
    }
    assert Places(s.calls, s.pending, s.finished, send.token) == 0;
    forall i, j | 0 <= i < j < |queue|
      ensures queue[i].token != queue[j].token
    {
      assert !Queued(s.pending, send.token);
    }
  }

  // ------------------------------------------------------------ actions

  lemma AddOutgoingIds(calls: map<Id, Call>, id: Id, call: Call)
    requires id !in calls && call.Outgoing?
    ensures OutgoingIds(calls[id := call]) == OutgoingIds(calls) + {id}
    ensures id !in OutgoingIds(calls)
  {
  }

  lemma AddOutgoingKeepsIncoming(calls: map<Id, Call>, id: Id, call: Call)
    requires id !in calls && call.Outgoing?
    ensures IncomingIds(calls[id := call]) == IncomingIds(calls)
  {
  }

  lemma AddOutgoing(calls: map<Id, Call>, id: Id, account: AccountId, token: Token)
    requires id !in calls
    ensures var v := calls[id := Outgoing(account, token)];
      && OutgoingIds(v) == OutgoingIds(calls) + {id} && IncomingIds(v) == IncomingIds(calls)
      && |OutgoingIds(v)| == |OutgoingIds(calls)| + 1
  {
    AddOutgoingIds(calls, id, Outgoing(account, token));
    AddOutgoingKeepsIncoming(calls, id, Outgoing(account, token));
  }

  lemma {:induction false} PrepareKeepsSends(s: State, sends: seq<Send>, outcomes: seq<Prepared>)
    requires |sends| == |outcomes| && FreshIds(s, outcomes) && s.calls.Keys <= s.used
    requires SendsInv(s.calls, s.pending + sends, s.finished, s.accepted)
    ensures var v := OnPrepare(s, sends, outcomes); SendsInv(v.calls, v.pending, v.finished, v.accepted)
    decreases |sends|
  {
    if sends == [] {
      assert s.pending + sends == s.pending;
    } else {
      assert s.pending + sends == s.pending + [sends[0]] + sends[1..];
      match outcomes[0]
      case Ready(id) =>
        ConnectKeepsSends(s, sends[1..], sends[0], s.pending, id);
        PrepareKeepsSends(Connected(s, id, sends[0]), sends[1..], outcomes[1..]);
      case Waiting =>
        PrepareKeepsSends(s.(pending := s.pending + [sends[0]]), sends[1..], outcomes[1..]);
      case Refused =>
        FailSendKeepsSends(s, sends[1..], sends[0], s.pending);
        PrepareKeepsSends(FailSend(s, sends[0].token), sends[1..], outcomes[1..]);
    }
  }

  lemma {:induction false} PrepareKeepsAccounts(s: State, sends: seq<Send>, outcomes: seq<Prepared>)
    requires |sends| == |outcomes| && FreshIds(s, outcomes) && Accounted(s) && ReceptionsInv(s)
    ensures Accounted(OnPrepare(s, sends, outcomes)) && ReceptionsInv(OnPrepare(s, sends, outcomes))
    decreases |sends|
  {
    if sends != [] {
      match outcomes[0]
      case Ready(id) =>
        ConnectKeepsAccounts(s, id, sends[0]);
        PrepareKeepsAccounts(Connected(s, id, sends[0]), sends[1..], outcomes[1..]);
      case Waiting =>
        PrepareKeepsAccounts(s.(pending := s.pending + [sends[0]]), sends[1..], outcomes[1..]);
      case Refused =>
        PrepareKeepsAccounts(FailSend(s, sends[0].token), sends[1..], outcomes[1..]);
    }
  }

  lemma AttemptKeepsCapacity(s: State, send: Send, outcome: Prepared)
    requires s.calls.Keys <= s.used && (outcome.Ready? ==> outcome.id !in s.used)
    ensures var v := Attempted(s, send, outcome);
      && |OutgoingIds(v.calls)| + |v.pending| <= |OutgoingIds(s.calls)| + |s.pending| + 1 && v.limits == s.limits
      && v.calls.Keys <= v.used && s.used <= v.used <= s.used + if outcome.Ready? then {outcome.id} else {}
  {
    if outcome.Ready? {
      AddOutgoing(s.calls, outcome.id, send.account, send.token);
    }
  }

  /** One queued send at a time: the commitments never exceed what was queued. */
  lemma {:induction false} PrepareKeepsCapacity(s: State, sends: seq<Send>, outcomes: seq<Prepared>)
    requires |sends| == |outcomes| && FreshIds(s, outcomes) && s.calls.Keys <= s.used
    ensures var v := OnPrepare(s, sends, outcomes);
      |OutgoingIds(v.calls)| + |v.pending| <= |OutgoingIds(s.calls)| + |s.pending| + |sends| && v.limits == s.limits
    decreases |sends|
  {
    if sends != [] {
      AttemptKeepsCapacity(s, sends[0], outcomes[0]);
      PrepareKeepsCapacity(Attempted(s, sends[0], outcomes[0]), sends[1..], outcomes[1..]);
    }
  }

  lemma ConnectKeepsAccounts(s: State, id: Id, send: Send)
    requires Accounted(s) && ReceptionsInv(s) && id !in s.used
    ensures Accounted(Connected(s, id, send)) && ReceptionsInv(Connected(s, id, send))
  {
    AddOutgoing(s.calls, id, send.account, send.token);
    var v := Connected(s, id, send);
    assert Partition(v.ids.Keys, v.admissions.Keys, v.calls.Keys, IncomingIds(v.calls));
  }

  lemma AddKey<V>(m: map<Id, V>, id: Id, value: V)
    requires id !in m
    ensures m[id := value].Keys == m.Keys + {id} && |m[id := value]| == |m| + 1
  {
    assert m[id := value].Keys == m.Keys + {id};
    assert |m[id := value].Keys| == |m.Keys| + 1;
    assert |m[id := value]| == |m[id := value].Keys|;
  }

  lemma OfferKeepsPartition(ids: set<Id>, admissions: set<Id>, calls: set<Id>, incoming: set<Id>, id: Id)
    requires Partition(ids, admissions, calls, incoming) && id !in calls
    ensures Partition(ids + {id}, admissions + {id}, calls, incoming)
  {
  }

  lemma AdmitKeepsPartition(ids: set<Id>, admissions: set<Id>, calls: set<Id>, incoming: set<Id>, id: Id)
    requires Partition(ids, admissions, calls, incoming) && id in admissions
    ensures Partition(ids, admissions - {id}, calls + {id}, incoming + {id})
  {
  }

  lemma OfferKeepsAccounts(s: State, id: Id, callId: string, admission: Admission)
    requires Accounted(s) && id !in s.used && s.available != []
    ensures Accounted(Offered(s, id, callId, admission))
  {
    var v := Offered(s, id, callId, admission);
    AddKey(s.ids, id, callId);
    AddKey(s.admissions, id, admission);
    assert Partition(v.ids.Keys, v.admissions.Keys, v.calls.Keys, IncomingIds(v.calls)) by {
      OfferKeepsPartition(s.ids.Keys, s.admissions.Keys, s.calls.Keys, IncomingIds(s.calls), id);
    }
  }

  lemma OfferKeepsReceptions(s: State, id: Id, callId: string, admission: Admission)
    requires Accounted(s) && ReceptionsInv(s) && id !in s.used && s.answered <= s.offered
    ensures ReceptionsInv(Offered(s, id, callId, admission))
  {
    AddKey(s.admissions, id, admission);
  }

  lemma OfferKeepsInv(s: State, id: Id, callId: string, admission: Admission)
    requires Inv(s) && id !in s.used && s.available != []
    ensures Inv(Offered(s, id, callId, admission))
  {
    OfferKeepsAccounts(s, id, callId, admission);
    OfferKeepsReceptions(s, id, callId, admission);
  }

  /** An INVITE changes nothing but what its answer says: 100 opens one admission in the
      first free slot, 488 uses that slot up, and any other leaves every table alone. */
  lemma InviteOutcome(s: State, a: Action)
    requires a.Invite?
    ensures var status, v := Status(s.ids, s.limits.incoming, s.available, a), OnIncoming(s, a);
      && v == s.(available := v.available, ids := v.ids, used := v.used, offered := v.offered, admissions := v.admissions)
      && (a.id !in s.ids ==> (status == 100 <==> v.ids != s.ids))
      && (status == 100 ==>
        && v.admissions == s.admissions[a.id := Admission(a.account, a.now + a.timeout)] && v.ids == s.ids[a.id := a.callId]
        && v.offered == s.offered + {a.id} && |s.ids| < s.limits.incoming && a.callId !in s.ids.Values)
      && (status in {100, 488} ==> s.available != [] && v.available == s.available[1..])
      && (status !in {100, 488} ==> v == s)
      && (status == 488 ==> v == s.(available := v.available))
  {
    assert a.id in s.ids[a.id := a.callId];
  }

  lemma SlotGoneKeepsInv(s: State)
    requires Inv(s) && s.available != []
    ensures Inv(s.(available := s.available[1..]))
  {
    assert Accounted(s.(available := s.available[1..]));
  }

  lemma ReplyIs(s: State, a: Action)
    requires a.Invite?
    ensures var status := Status(s.ids, s.limits.incoming, s.available, a);
      OnIncoming(s, a) == if status == 100 then Offered(s, a.id, a.callId, Admission(a.account, a.now + a.timeout))
                          else if status == 488 then s.(available := s.available[1..])
                          else s
    ensures Status(s.ids, s.limits.incoming, s.available, a) in {100, 488} ==> s.available != []
  {
  }

  lemma InviteKeepsInv(s: State, a: Action)
    requires Inv(s) && a.Invite? && a.id !in s.used
    ensures Inv(OnIncoming(s, a))
  {
    ReplyIs(s, a);
    if Status(s.ids, s.limits.incoming, s.available, a) == 100 {
      OfferKeepsInv(s, a.id, a.callId, Admission(a.account, a.now + a.timeout));
    } else if Status(s.ids, s.limits.incoming, s.available, a) == 488 {
      SlotGoneKeepsInv(s);
    }
  }

  lemma AddIncoming(calls: map<Id, Call>, id: Id, account: AccountId)
    requires id !in calls
    ensures IncomingIds(calls[id := Incoming(account)]) == IncomingIds(calls) + {id}
    ensures OutgoingIds(calls[id := Incoming(account)]) == OutgoingIds(calls)
  {
    assert IncomingIds(calls[id := Incoming(account)]) == IncomingIds(calls) + {id};
    assert OutgoingIds(calls[id := Incoming(account)]) == OutgoingIds(calls);
  }

  lemma AddIncomingKeepsSends(s: State, id: Id, account: AccountId)
    requires SendsInv(s.calls, s.pending, s.finished, s.accepted) && id !in s.calls
    ensures SendsInv(s.calls[id := Incoming(account)], s.pending, s.finished, s.accepted)
  {
    var calls := s.calls[id := Incoming(account)];
    forall t
      ensures Places(calls, s.pending, s.finished, t) == if t in s.accepted then 1 else 0
    {
      assert Places(s.calls, s.pending, s.finished, t) == if t in s.accepted then 1 else 0;
      CalledWith(s.calls, id, Incoming(account), t);
    }
  }

  lemma AdmittedKeepsAccounts(s: State, id: Id)
    requires Accounted(s) && id in s.admissions
    ensures Accounted(Admitted(s, id))
  {
    var v := Admitted(s, id);
    AddIncoming(s.calls, id, s.admissions[id].account);
    RemoveKey(s.admissions, id);
    AddKey(s.calls, id, Incoming(s.admissions[id].account));
    assert Partition(v.ids.Keys, v.admissions.Keys, v.calls.Keys, IncomingIds(v.calls)) by {
      AdmitKeepsPartition(s.ids.Keys, s.admissions.Keys, s.calls.Keys, IncomingIds(s.calls), id);
    }
  }

  lemma AdmittedKeepsReceptions(s: State, id: Id)
    requires Accounted(s) && ReceptionsInv(s) && id in s.admissions
    ensures ReceptionsInv(Admitted(s, id))
  {
    AddIncoming(s.calls, id, s.admissions[id].account);
    RemoveKey(s.admissions, id);
  }

  lemma AdmittedKeepsInv(s: State, id: Id)
    requires Inv(s) && id in s.admissions && id in s.offered && id !in s.answered
    ensures Inv(Admitted(s, id))
  {
    AddIncoming(s.calls, id, s.admissions[id].account);
    AddIncomingKeepsSends(s, id, s.admissions[id].account);
    AdmittedKeepsAccounts(s, id);
    AdmittedKeepsReceptions(s, id);
  }

  lemma AnsweredKeepsInv(s: State, id: Id, persisted: bool)
    requires Inv(s) && id !in s.admissions && id !in s.answered && id in s.offered
    ensures Inv(Answered(s, id, persisted))
  {
    var v := Answered(s, id, persisted);
    assert id !in s.persisted;
    assert ReceptionsInv(v);
  }

  lemma DropKeepsInv(s: State, id: Id)
    requires Inv(s) && id in s.admissions
    ensures Inv(DropAdmission(s, id))
  {
    DropAdmissionKeepsAccounts(s, id);
  }

  lemma AdmitKeepsInv(s: State, id: Id, persisted: bool, now: int, hungUp: bool, answerFails: bool)
    requires Inv(s) && id in s.offered && id !in s.answered
    ensures Inv(OnAdmit(s, id, persisted, now, hungUp, answerFails))
  {
    if id in s.admissions {
      if persisted && now < s.admissions[id].deadline && !hungUp && !answerFails {
        AdmittedKeepsInv(s, id);
      } else {
        DropKeepsInv(s, id);
        AnsweredKeepsInv(DropAdmission(s, id), id, persisted);
      }
    } else {
      AnsweredKeepsInv(s, id, persisted);
    }
  }

  lemma SubmitKeepsInv(s: State, token: Token, account: AccountId)
    requires Inv(s) && token !in s.accepted
    ensures Inv(OnSubmit(s, token, account))
  {
    if |OutgoingIds(s.calls)| + |s.pending| >= s.limits.outgoing {
      AnswerKeepsSends(s, token, s.pending);
    } else {
      QueueKeepsSends(s, Send(token, account));
    }
  }

  lemma CommandKeepsInv(s: State, a: Action)
    requires Inv(s) && Enabled(s, a) && a.Take?
    ensures Inv(Step(s, a))
  {
    match a.command
    case Submit(token, account) => SubmitKeepsInv(s, token, account);
    case Admit(id, persisted) => AdmitKeepsInv(s, id, persisted, a.now, a.hungUp, a.answerFails);
    case Reject(id) =>
      if id in s.admissions {
        DropKeepsInv(s, id);
      }
    case _ =>
  }

  lemma EndingsKeepInv(s: State, calls: seq<Id>, admissions: seq<Id>)
    requires Inv(s)
    requires forall i :: 0 <= i < |admissions| ==> admissions[i] in s.admissions
    ensures Inv(DropAdmissions(FinishCalls(s, calls), admissions))
  {
    var v := FinishCalls(s, calls);
    FinishCallsFrame(s, calls);
    FinishCallsKeepAccounts(s, calls);
    FinishCallsKeepReceptions(s, calls);
    FinishCallsKeepSends(s, calls, s.pending);
    SubsetIsSmaller(OutgoingIds(v.calls), OutgoingIds(s.calls));
    DropAdmissionsFrame(v, admissions);
    DropsKeepAccounts(v, admissions);
  }

  /** Dropping an admission twice is dropping it once. */
  lemma DropsKeepAccounts(s: State, which: seq<Id>)
    requires Accounted(s) && forall i :: 0 <= i < |which| ==> which[i] in s.admissions || which[i] !in s.ids
    ensures Accounted(DropAdmissions(s, which))
  {
    DropAdmissionsKeepAccounts(s, which);
  }

  lemma AccountFailsKeepsInv(s: State, a: Action)
    requires Inv(s) && Enabled(s, a) && a.AccountFails?
    ensures Inv(Step(s, a))
  {
    var empty := s.(pending := []);
    assert empty.pending + s.pending == s.pending;
    FailSendsKeepsSends(empty, s.pending, a.account);
    var failed := FailSends(empty, s.pending, a.account);
    EndingsKeepInv(failed, a.calls, a.admissions);
  }

  lemma PrepareKeepsInv(s: State, a: Action)
    requires Inv(s) && Enabled(s, a) && a.Prepare?
    ensures Inv(Step(s, a))
  {
    var empty := s.(pending := []);
    assert empty.pending + s.pending == s.pending;
    PrepareKeepsSends(empty, s.pending, a.outcomes);
    PrepareKeepsAccounts(empty, s.pending, a.outcomes);
    PrepareKeepsCapacity(empty, s.pending, a.outcomes);
  }

  /** After a stop nothing is active and nothing is owed. */
  lemma ShutdownSettles(s: State, a: Action)
    requires Inv(s) && Enabled(s, a) && a.Shutdown?
    ensures Inv(Step(s, a))
    ensures var v := Step(s, a);
      v.calls == map[] && v.pending == [] && v.admissions == map[] && v.ids == map[] && v.available == []
  {
    var dropped := DropAdmissions(s, a.admissions);
    DropAdmissionsFrame(s, a.admissions);
    DropsKeepAccounts(s, a.admissions);
    assert dropped.admissions.Keys == {};
    var idle := dropped.(available := []);
    EndingsKeepInv(idle, a.calls, []);
    FinishCallsFrame(idle, a.calls);
    var quiet := FinishCalls(idle, a.calls);
    assert quiet.calls.Keys == {};
    FinishCallsKeepSends(idle, a.calls, s.pending);
    FailAllKeepsSends(quiet, quiet.pending);
    var answered := FailAll(quiet.(pending := []), quiet.pending);
    FailAllKeepsSends(quiet.(pending := []), quiet.pending);
    FlushQueueKeepsSends(answered, a.queue);
  }

  lemma StepKeepsInv(s: State, a: Action)
    requires Inv(s) && Enabled(s, a)
    ensures Inv(Step(s, a))
  {
    match a
    case Invite(_, _, _, _, _, _) => InviteKeepsInv(s, a);
    case Take(_, _, _, _) => CommandKeepsInv(s, a);
    case Woke(calls, admissions) => EndingsKeepInv(s, calls, admissions);
    case AccountFails(_, _, _, _) => AccountFailsKeepsInv(s, a);
    case ClearAvailable =>
    case Refill(_) =>
    case Prepare(_) => PrepareKeepsInv(s, a);
    case Expire(admissions) => EndingsKeepInv(s, [], admissions);
    case Tick(calls) => EndingsKeepInv(s, calls, []);
    case Shutdown(_, _, _) => ShutdownSettles(s, a);
  }

  lemma {:induction false} RunKeepsInv(s: State, actions: seq<Action>, after: State)
    requires Inv(s) && Runs(s, actions, after)
    ensures Inv(after)
    decreases |actions|
  {
    if actions != [] {
      StepKeepsInv(s, actions[0]);
      RunKeepsInv(Step(s, actions[0]), actions[1..], after);
    }
  }

  lemma StartedInv(limits: Limits)
    ensures Inv(Started(limits))
  {
    var s := Started(limits);
    assert IncomingIds(s.calls) == {} && OutgoingIds(s.calls) == {};
    assert Partition(s.ids.Keys, s.admissions.Keys, s.calls.Keys, IncomingIds(s.calls));
    forall t
      ensures Places(s.calls, s.pending, s.finished, t) == 0
    {
    }
  }

  // ------------------------------------------------------ main theorems

  /** In every reachable state of the service the known Call-IDs are the disjoint
      union of the pending admissions and the active incoming calls, occupied and
      free slots together respect the incoming limit, and outgoing calls together
      with queued sends respect the outgoing limit. */
  lemma AdmissionAccounting(limits: Limits, actions: seq<Action>, s: State)
    requires Runs(Started(limits), actions, s)
    ensures s.ids.Keys == s.admissions.Keys + IncomingIds(s.calls)
    ensures s.admissions.Keys !! IncomingIds(s.calls)
    ensures |s.ids| + |s.available| <= limits.incoming
    ensures |OutgoingIds(s.calls)| + |s.pending| <= limits.outgoing
  {
    StartedInv(limits);
    RunKeepsInv(Started(limits), actions, s);
    LimitsAreFixed(Started(limits), actions, s);
  }

  /** Nothing is offered and no offer answered. */
  predicate SameOffers(s: State, v: State) {
    v.limits == s.limits && v.offered == s.offered && v.answered == s.answered
  }

  lemma StepKeepsLimits(s: State, a: Action)
    requires a.Prepare? ==> |a.outcomes| == |s.pending|
    ensures Step(s, a).limits == s.limits
    ensures !a.Invite? && !(a.Take? && a.command.Admit?) ==> SameOffers(s, Step(s, a))
  {
    match a
    case Woke(calls, admissions) =>
      FinishCallsFrame(s, calls);
      DropAdmissionsFrame(FinishCalls(s, calls), admissions);
    case AccountFails(account, calls, admissions, _) =>
      FailSendsFrame(s.(pending := []), s.pending, account);
      FinishCallsFrame(FailSends(s.(pending := []), s.pending, account), calls);
      DropAdmissionsFrame(FinishCalls(FailSends(s.(pending := []), s.pending, account), calls), admissions);
    case Prepare(outcomes) => PrepareFrame(s.(pending := []), s.pending, outcomes);
    case Expire(admissions) => DropAdmissionsFrame(s, admissions);
    case Tick(calls) => FinishCallsFrame(s, calls);
    case Shutdown(calls, admissions, queue) =>
      DropAdmissionsFrame(s, admissions);
      FinishCallsFrame(DropAdmissions(s, admissions).(available := []), calls);
      var quiet := FinishCalls(DropAdmissions(s, admissions).(available := []), calls);
      FailAllFrame(quiet.(pending := []), quiet.pending);
      FlushQueueFrame(FailAll(quiet.(pending := []), quiet.pending), queue);
    case _ =>
  }

  lemma {:induction false} FailSendsFrame(s: State, sends: seq<Send>, account: AccountId)
    ensures SameOffers(s, FailSends(s, sends, account))
    decreases |sends|
  {
    if sends != [] {
      FailSendsFrame(FailSend(s, sends[0].token), sends[1..], account);
      FailSendsFrame(s.(pending := s.pending + [sends[0]]), sends[1..], account);
    }
  }

  lemma {:induction false} FailAllFrame(s: State, sends: seq<Send>)
    ensures SameOffers(s, FailAll(s, sends))
    decreases |sends|
  {
    if sends != [] {
      FailAllFrame(FailSend(s, sends[0].token), sends[1..]);
    }
  }

  lemma {:induction false} FlushQueueFrame(s: State, queue: seq<Command>)
    ensures SameOffers(s, FlushQueue(s, queue))
    decreases |queue|
  {
    if queue != [] {
      if queue[0].Submit? {
        FlushQueueFrame(FailSend(s.(accepted := s.accepted + {queue[0].token}), queue[0].token), queue[1..]);
      } else {
        FlushQueueFrame(s, queue[1..]);
      }
    }
  }

  lemma {:induction false} PrepareFrame(s: State, sends: seq<Send>, outcomes: seq<Prepared>)
    requires |sends| == |outcomes|
    ensures SameOffers(s, OnPrepare(s, sends, outcomes))
    decreases |sends|
  {
    if sends != [] {
      match outcomes[0]
      case Ready(id) => PrepareFrame(Connected(s, id, sends[0]), sends[1..], outcomes[1..]);
      case Waiting => PrepareFrame(s.(pending := s.pending + [sends[0]]), sends[1..], outcomes[1..]);
      case Refused => PrepareFrame(FailSend(s, sends[0].token), sends[1..], outcomes[1..]);
    }
  }

  lemma {:induction false} LimitsAreFixed(s: State, actions: seq<Action>, after: State)
    requires Runs(s, actions, after)
    ensures after.limits == s.limits
    decreases |actions|
  {
    if actions != [] {
      StepKeepsLimits(s, actions[0]);
      LimitsAreFixed(Step(s, actions[0]), actions[1..], after);
    }
  }

  /** Every send command the service ever takes is, at any moment, exactly one of
      queued, in a call, or answered by one `Finished`; once the service has
      stopped, each has been answered exactly once. */
  lemma EachSendEndsOnce(limits: Limits, actions: seq<Action>, s: State, token: Token)
    requires Runs(Started(limits), actions, s)
    ensures token in s.accepted ==> Places(s.calls, s.pending, s.finished, token) == 1
    ensures token !in s.accepted ==> Places(s.calls, s.pending, s.finished, token) == 0
    ensures s.calls == map[] && s.pending == [] ==> s.finished[token] == if token in s.accepted then 1 else 0
  {
    StartedInv(limits);
    RunKeepsInv(Started(limits), actions, s);
    assert Places(s.calls, s.pending, s.finished, token) == if token in s.accepted then 1 else 0;
  }

  /** Every persisted reception is in a call until it is ended, and is ended exactly
      once, whatever the order of acceptance, timeout, hang-up, sleep and stop. */
  lemma EachReceptionEndsOnce(limits: Limits, actions: seq<Action>, s: State, id: Id)
    requires Runs(Started(limits), actions, s)
    ensures s.ended[id] == if id in s.persisted && id !in IncomingIds(s.calls) then 1 else 0
    ensures id in IncomingIds(s.calls) ==> id in s.persisted
    ensures s.calls == map[] ==> s.ended[id] == if id in s.persisted then 1 else 0
  {
    StartedInv(limits);
    RunKeepsInv(Started(limits), actions, s);
  }

  /** With nothing left open, everything taken has been answered exactly once. */
  lemma SettledAnswers(s: State)
    requires Inv(s) && s.calls == map[] && s.pending == []
    ensures forall token :: s.finished[token] == if token in s.accepted then 1 else 0
    ensures forall id :: s.ended[id] == if id in s.persisted then 1 else 0
  {
    forall token
      ensures s.finished[token] == if token in s.accepted then 1 else 0
    {
      assert Places(s.calls, s.pending, s.finished, token) == if token in s.accepted then 1 else 0;
    }
  }
}
