/**
 The service loop of `ServiceModel` behaves, towards the engine, as the service of
 `ReceptionModel`: each of its stages is a sequence of that service's steps.
 */
module ServiceRefinement {
  import opened Words
  import S = ServiceModel
  import T = ServiceTheorems
  import R = ReceptionModel

  /** The same receptions are pending and in a call. */
  ghost predicate Mirrors(s: S.State, r: R.State) {
    r.service.up && r.service.pending == s.admissions.Keys && r.service.calls == T.IncomingIds(s.calls)
  }

  /** By steps of the service alone, one can get from `r` to `after`. */
  ghost predicate Serves(r: R.State, after: R.State) {
    exists steps: seq<R.Action> :: ByService(steps) && R.Runs(r, steps) && R.After(r, steps) == after
  }

  /** All that changed is what is pending and in a call, and `ended` more endings were sent. */
  predicate Quiet(r: R.State, after: R.State, ended: multiset<R.Id>) {
    after == r.(service := after.service, mail := r.mail.(finished := r.mail.finished + ended))
  }

  predicate ByService(steps: seq<R.Action>) {
    forall i :: 0 <= i < |steps| ==>
      steps[i].Offered? || steps[i].Withdrawn? || steps[i].AdmitTaken? || steps[i].DenialTaken? || steps[i].CallEnded? || steps[i].ServiceEnded?
  }

  lemma Idle(r: R.State)
    ensures Serves(r, r)
  {
    var steps: seq<R.Action> := [];
    assert ByService(steps) && R.Runs(r, steps) && R.After(r, steps) == r;
  }

  lemma Once(r: R.State, a: R.Action)
    requires R.Enabled(r, a) && ByService([a])
    ensures Serves(r, R.Step(r, a))
  {
    var v := R.Step(r, a);
    var steps := [a];
    assert steps[1..] == [];
    assert R.Runs(v, []) && R.After(v, []) == v;
    assert R.Runs(r, steps) && R.After(r, steps) == v;
  }

  lemma {:induction false} Join(r: R.State, first: seq<R.Action>, second: seq<R.Action>)
    requires R.Runs(r, first) && R.Runs(R.After(r, first), second)
    ensures R.Runs(r, first + second) && R.After(r, first + second) == R.After(R.After(r, first), second)
    decreases |first|
  {
    if first == [] {
      assert first + second == second;
    } else {
      Join(R.Step(r, first[0]), first[1..], second);
      assert (first + second)[1..] == first[1..] + second;
    }
  }

  lemma Then(r: R.State, mid: R.State, after: R.State)
    requires Serves(r, mid) && Serves(mid, after)
    ensures Serves(r, after)
  {
    var first: seq<R.Action> :| ByService(first) && R.Runs(r, first) && R.After(r, first) == mid;
    var second: seq<R.Action> :| ByService(second) && R.Runs(mid, second) && R.After(mid, second) == after;
    Join(r, first, second);
    assert ByService(first + second);
  }

  lemma QuietTwice(r: R.State, mid: R.State, after: R.State, a: multiset<R.Id>, b: multiset<R.Id>)
    requires Quiet(r, mid, a) && Quiet(mid, after, b)
    ensures Quiet(r, after, a + b)
  {
    assert r.mail.finished + a + b == r.mail.finished + (a + b);
  }

  /** `s` and `r` go on to `v` and `after` together, with the same endings sent. */
  ghost predicate Together(s: S.State, v: S.State, r: R.State, after: R.State) {
    && Mirrors(v, after) && Serves(r, after)
    && exists ended: multiset<R.Id> :: Quiet(r, after, ended) && v.ended == s.ended + ended
  }

  lemma Unseen(s: S.State, v: S.State, r: R.State)
    requires Mirrors(s, r) && v.admissions == s.admissions && T.IncomingIds(v.calls) == T.IncomingIds(s.calls) && v.ended == s.ended
    ensures Together(s, v, r, r)
  {
    Idle(r);
    assert v.ended == s.ended + multiset{} && r.mail.finished == r.mail.finished + multiset{};
    assert Quiet(r, r, multiset{});
  }

  lemma Onward(s: S.State, v: S.State, w: S.State, r: R.State, mid: R.State, after: R.State)
    requires Together(s, v, r, mid) && Together(v, w, mid, after)
    ensures Together(s, w, r, after)
  {
    var a: multiset<R.Id> :| Quiet(r, mid, a) && v.ended == s.ended + a;
    var b: multiset<R.Id> :| Quiet(mid, after, b) && w.ended == v.ended + b;
    Then(r, mid, after);
    QuietTwice(r, mid, after, a, b);
    assert w.ended == s.ended + (a + b);
  }

  lemma FinishOne(s: S.State, r: R.State, id: S.Id) returns (after: R.State)
    requires Mirrors(s, r)
    ensures Together(s, S.FinishCall(s, id), r, after)
  {
    var v := S.FinishCall(s, id);
    if id in s.calls && s.calls[id].Incoming? {
      assert T.IncomingIds(v.calls) == T.IncomingIds(s.calls) - {id};
      after := R.Step(r, R.CallEnded(id));
      Once(r, R.CallEnded(id));
      assert Quiet(r, after, multiset{id});
    } else {
      assert T.IncomingIds(v.calls) == T.IncomingIds(s.calls);
      Unseen(s, v, r);
      after := r;
    }
  }

  lemma DropOne(s: S.State, r: R.State, id: S.Id) returns (after: R.State)
    requires Mirrors(s, r)
    ensures Together(s, S.DropAdmission(s, id), r, after)
  {
    after := R.Step(r, R.Withdrawn(id));
    Once(r, R.Withdrawn(id));
    assert S.DropAdmission(s, id).ended == s.ended + multiset{} && r.mail.finished == r.mail.finished + multiset{};
    assert Quiet(r, after, multiset{});
  }

  lemma {:induction false} FinishEach(s: S.State, r: R.State, which: seq<S.Id>) returns (after: R.State)
    requires Mirrors(s, r)
    ensures Together(s, S.FinishCalls(s, which), r, after)
    decreases |which|
  {
    if which == [] {
      Unseen(s, s, r);
      after := r;
    } else {
      var mid := FinishOne(s, r, which[0]);
      var v := S.FinishCall(s, which[0]);
      after := FinishEach(v, mid, which[1..]);
      Onward(s, v, S.FinishCalls(v, which[1..]), r, mid, after);
    }
  }

  lemma {:induction false} DropEach(s: S.State, r: R.State, which: seq<S.Id>) returns (after: R.State)
    requires Mirrors(s, r)
    ensures Together(s, S.DropAdmissions(s, which), r, after)
    decreases |which|
  {
    if which == [] {
      Unseen(s, s, r);
      after := r;
    } else {
      var mid := DropOne(s, r, which[0]);
      var v := S.DropAdmission(s, which[0]);
      after := DropEach(v, mid, which[1..]);
      Onward(s, v, S.DropAdmissions(v, which[1..]), r, mid, after);
    }
  }

  // --------------------------------------- stages the engine does not see

  lemma {:induction false} FailSendsUnseen(s: S.State, sends: seq<S.Send>, account: S.AccountId)
    ensures var v := S.FailSends(s, sends, account); v.admissions == s.admissions && v.calls == s.calls && v.ended == s.ended
    decreases |sends|
  {
    if sends != [] {
      FailSendsUnseen(S.FailSend(s, sends[0].token), sends[1..], account);
      FailSendsUnseen(s.(pending := s.pending + [sends[0]]), sends[1..], account);
    }
  }

  lemma {:induction false} PrepareUnseen(s: S.State, sends: seq<S.Send>, outcomes: seq<S.Prepared>)
    requires |sends| == |outcomes| && S.FreshIds(s, outcomes) && s.calls.Keys <= s.used
    ensures var v := S.OnPrepare(s, sends, outcomes);
      v.admissions == s.admissions && T.IncomingIds(v.calls) == T.IncomingIds(s.calls) && v.ended == s.ended
    decreases |sends|
  {
    if sends != [] {
      var next := S.Attempted(s, sends[0], outcomes[0]);
      if outcomes[0].Ready? {
        T.AddOutgoingKeepsIncoming(s.calls, outcomes[0].id, S.Outgoing(sends[0].account, sends[0].token));
      }
      PrepareUnseen(next, sends[1..], outcomes[1..]);
    }
  }

  lemma RejectSeen(s: S.State, r: R.State, a: S.Action) returns (after: R.State)
    requires Mirrors(s, r) && a.Take? && !a.command.Admit?
    ensures Together(s, S.Step(s, a), r, after)
  {
    match a.command
    case Reject(id) =>
      if id in s.admissions {
        after := DropOne(s, r, id);
      } else {
        Unseen(s, s, r);
        after := r;
      }
    case Admit(_, _) => assert false;
    case Configure | Submit(_, _) | CancelIncoming(_) | Reconnect | Stop =>
      Unseen(s, S.Step(s, a), r);
      after := r;
  }

  lemma LossSeen(s: S.State, r: R.State, a: S.Action) returns (after: R.State)
    requires Mirrors(s, r) && a.AccountFails?
    ensures Together(s, S.Step(s, a), r, after)
  {
    var failed := S.FailSends(s.(pending := []), s.pending, a.account);
    FailSendsUnseen(s.(pending := []), s.pending, a.account);
    Unseen(s, failed, r);
    var mid := FinishEach(failed, r, a.calls);
    var ended := S.FinishCalls(failed, a.calls);
    Onward(s, failed, ended, r, r, mid);
    after := DropEach(ended, mid, a.admissions);
    var quiet := S.DropAdmissions(ended, a.admissions);
    Onward(s, ended, quiet, r, mid, after);
    Unseen(quiet, S.Step(s, a), after);
    Onward(s, quiet, S.Step(s, a), r, after, after);
  }

  lemma WakeSeen(s: S.State, r: R.State, a: S.Action) returns (after: R.State)
    requires Mirrors(s, r) && a.Woke?
    ensures Together(s, S.Step(s, a), r, after)
  {
    var mid := FinishEach(s, r, a.calls);
    var v := S.FinishCalls(s, a.calls);
    after := DropEach(v, mid, a.admissions);
    Onward(s, v, S.DropAdmissions(v, a.admissions), r, mid, after);
  }

  /** A stage that neither offers, nor is answered, nor stops. */
  predicate IsQuiet(a: S.Action) {
    !a.Invite? && !a.Shutdown? && !(a.Take? && a.command.Admit?)
  }

  lemma QuietSeen(s: S.State, r: R.State, a: S.Action) returns (after: R.State)
    requires T.Inv(s) && S.Enabled(s, a) && Mirrors(s, r) && IsQuiet(a)
    ensures Together(s, S.Step(s, a), r, after)
  {
    match a
    case Take(_, _, _, _) => after := RejectSeen(s, r, a);
    case Woke(_, _) => after := WakeSeen(s, r, a);
    case AccountFails(_, _, _, _) => after := LossSeen(s, r, a);
    case Prepare(outcomes) =>
      PrepareUnseen(s.(pending := []), s.pending, outcomes);
      Unseen(s, S.Step(s, a), r);
      after := r;
    case Expire(admissions) => after := DropEach(s, r, admissions);
    case Tick(calls) => after := FinishEach(s, r, calls);
    case ClearAvailable =>
      Unseen(s, s.(available := []), r);
      after := r;
    case Refill(slots) =>
      Unseen(s, s.(available := s.available + slots), r);
      after := r;
  }

  // ------------------------------------------------------- the engine's view

  /** What is pending and in a call after a stage. */
  function Holding(v: S.State, a: S.Action): R.Service {
    if a.Shutdown? then R.Service(false, {}, {}) else R.Service(true, v.admissions.Keys, T.IncomingIds(v.calls))
  }

  function Fresh(s: S.State, v: S.State, a: S.Action): set<R.Id> {
    if a.Invite? then v.offered - s.offered else {}
  }

  /** Answers of one kind still under way: a stage takes one, or all at a stop. */
  function Left(answers: set<R.Id>, a: S.Action, persisted: bool): set<R.Id> {
    match a
    case Take(Admit(id, p), _, _, _) => if p == persisted then answers - {id} else answers
    case Shutdown(_, _, _) => {}
    case _ => answers
  }

  /** How one stage of the loop, from `s` to `v`, changes what is under way between the
      loop and the engine: new offers and endings are sent, and answers are taken. */
  function Toward(s: S.State, v: S.State, r: R.State, a: S.Action): R.State {
    R.State(
      Holding(v, a),
      R.Mail(r.mail.offers + Fresh(s, v, a), Left(r.mail.admits, a, true), Left(r.mail.denials, a, false), r.mail.progress,
             r.mail.finished + (v.ended - s.ended)),
      r.actor,
      r.disk.(used := r.disk.used + Fresh(s, v, a), stranded := r.disk.stranded + if a.Shutdown? then r.mail.admits else {}))
  }

  /** What a stage takes from the engine was sent by it, and an identifier is new. */
  predicate Prompted(r: R.State, a: S.Action) {
    match a
    case Invite(id, _, _, _, _, _) => r.service.up && id !in r.disk.used
    case Take(Admit(id, persisted), _, _, _) => r.service.up && id in (if persisted then r.mail.admits else r.mail.denials)
    case _ => r.service.up
  }

  lemma NothingFresh(r: R.State)
    ensures r.mail.offers + {} == r.mail.offers && r.disk.used + {} == r.disk.used && r.disk.stranded + {} == r.disk.stranded
  {
  }

  lemma QuietStage(s: S.State, r: R.State, a: S.Action)
    requires T.Inv(s) && S.Enabled(s, a) && Mirrors(s, r) && IsQuiet(a)
    ensures Serves(r, Toward(s, S.Step(s, a), r, a))
  {
    var v := S.Step(s, a);
    var after := QuietSeen(s, r, a);
    var ended: multiset<R.Id> :| Quiet(r, after, ended) && v.ended == s.ended + ended;
    assert v.ended - s.ended == ended;
    NothingFresh(r);
    assert after == Toward(s, v, r, a);
  }

  lemma NothingEnded(s: S.State, r: R.State)
    ensures r.mail.finished + (s.ended - s.ended) == r.mail.finished
  {
  }

  lemma OfferMade(s: S.State, r: R.State, a: S.Action, v: S.State)
    requires Mirrors(s, r) && a.Invite? && Prompted(r, a) && a.id !in s.offered
    requires v.offered == s.offered + {a.id} && v.admissions.Keys == s.admissions.Keys + {a.id}
    requires v.calls == s.calls && v.ended == s.ended
    ensures Serves(r, Toward(s, v, r, a))
  {
    assert Fresh(s, v, a) == {a.id};
    NothingEnded(s, r);
    Once(r, R.Offered(a.id));
    assert r.disk.stranded + {} == r.disk.stranded;
    assert Toward(s, v, r, a) == R.Step(r, R.Offered(a.id));
  }

  lemma OfferIgnored(s: S.State, r: R.State, a: S.Action, v: S.State)
    requires Mirrors(s, r) && a.Invite?
    requires v.offered == s.offered && v.admissions == s.admissions && v.calls == s.calls && v.ended == s.ended
    ensures Serves(r, Toward(s, v, r, a))
  {
    assert Fresh(s, v, a) == {};
    NothingEnded(s, r);
    NothingFresh(r);
    Idle(r);
    assert Toward(s, v, r, a) == r;
  }

  lemma OfferStage(s: S.State, r: R.State, a: S.Action)
    requires Mirrors(s, r) && a.Invite? && Prompted(r, a) && a.id !in s.offered
    ensures Serves(r, Toward(s, S.OnIncoming(s, a), r, a))
  {
    var v := S.OnIncoming(s, a);
    T.InviteOutcome(s, a);
    if S.Status(s.ids, s.limits.incoming, s.available, a) == 100 {
      KeysWith(s.admissions, a.id, S.Admission(a.account, a.now + a.timeout));
      OfferMade(s, r, a, v);
    } else {
      OfferIgnored(s, r, a, v);
    }
  }

  lemma KeysWith<V>(m: map<S.Id, V>, id: S.Id, value: V)
    ensures m[id := value].Keys == m.Keys + {id}
  {
  }

  /** Whether the taking of a positive answer makes a call. */
  predicate MakesCall(s: S.State, a: S.Action)
    requires a.Take? && a.command.Admit?
  {
    a.command.id in s.admissions && a.now < s.admissions[a.command.id].deadline && !a.hungUp && !a.answerFails
  }

  lemma CallStage(s: S.State, r: R.State, a: S.Action)
    requires Mirrors(s, r) && a.Take? && a.command.Admit? && Prompted(r, a) && a.command.persisted && MakesCall(s, a)
    requires a.command.id !in s.calls
    ensures Serves(r, Toward(s, S.Step(s, a), r, a))
  {
    var id, v := a.command.id, S.Step(s, a);
    T.AddIncoming(s.calls, id, s.admissions[id].account);
    NothingEnded(s, r);
    NothingFresh(r);
    Once(r, R.AdmitTaken(id, true));
    assert Toward(s, v, r, a) == R.Step(r, R.AdmitTaken(id, true));
  }

  lemma EndStage(s: S.State, r: R.State, a: S.Action)
    requires Mirrors(s, r) && a.Take? && a.command.Admit? && Prompted(r, a) && a.command.persisted && !MakesCall(s, a)
    ensures Serves(r, Toward(s, S.Step(s, a), r, a))
  {
    var id, v := a.command.id, S.Step(s, a);
    assert v.ended - s.ended == multiset{id};
    assert v.admissions.Keys == s.admissions.Keys - {id};
    NothingFresh(r);
    Once(r, R.AdmitTaken(id, false));
    assert Toward(s, v, r, a) == R.Step(r, R.AdmitTaken(id, false));
  }

  lemma DenialStage(s: S.State, r: R.State, a: S.Action)
    requires Mirrors(s, r) && a.Take? && a.command.Admit? && Prompted(r, a) && !a.command.persisted
    ensures Serves(r, Toward(s, S.Step(s, a), r, a))
  {
    var id, v := a.command.id, S.Step(s, a);
    assert v.admissions.Keys == s.admissions.Keys - {id};
    NothingEnded(s, r);
    NothingFresh(r);
    Once(r, R.DenialTaken(id));
    assert Toward(s, v, r, a) == R.Step(r, R.DenialTaken(id));
  }

  lemma {:induction false} FailAllUnseen(s: S.State, sends: seq<S.Send>)
    ensures S.FailAll(s, sends).ended == s.ended
    decreases |sends|
  {
    if sends != [] {
      FailAllUnseen(S.FailSend(s, sends[0].token), sends[1..]);
    }
  }

  lemma {:induction false} FlushUnseen(s: S.State, queue: seq<S.Command>)
    ensures S.FlushQueue(s, queue).ended == s.ended
    decreases |queue|
  {
    if queue != [] {
      match queue[0]
      case Submit(token, _) => FlushUnseen(S.FailSend(s.(accepted := s.accepted + {token}), token), queue[1..]);
      case _ => FlushUnseen(s, queue[1..]);
    }
  }

  lemma EverythingEnds(s: S.State, r: R.State, calls: seq<S.Id>, admissions: seq<S.Id>) returns (mid: R.State)
    requires Mirrors(s, r) && S.Lists(s.calls.Keys, calls)
    ensures var quiet := S.FinishCalls(S.DropAdmissions(s, admissions).(available := []), calls);
      Together(s, quiet, r, mid) && mid.service.calls == {}
  {
    var dropped := S.DropAdmissions(s, admissions);
    var first := DropEach(s, r, admissions);
    T.DropAdmissionsFrame(s, admissions);
    var idle := dropped.(available := []);
    Unseen(dropped, idle, first);
    Onward(s, dropped, idle, r, first, first);
    mid := FinishEach(idle, first, calls);
    var quiet := S.FinishCalls(idle, calls);
    Onward(s, idle, quiet, r, first, mid);
    T.FinishCallsFrame(idle, calls);
    assert quiet.calls.Keys == {};
  }

  lemma StopUnseen(s: S.State, a: S.Action)
    requires a.Shutdown?
    ensures S.Step(s, a).ended == S.FinishCalls(S.DropAdmissions(s, a.admissions).(available := []), a.calls).ended
  {
    var quiet := S.FinishCalls(S.DropAdmissions(s, a.admissions).(available := []), a.calls);
    FailAllUnseen(quiet.(pending := []), quiet.pending);
    FlushUnseen(S.FailAll(quiet.(pending := []), quiet.pending), a.queue);
  }

  /** The end of the abstract service, when its calls have ended. */
  function Closed(r: R.State, ended: multiset<R.Id>): R.State {
    R.State(
      R.Service(false, {}, {}),
      r.mail.(admits := {}, denials := {}, finished := r.mail.finished + ended),
      r.actor,
      r.disk.(stranded := r.disk.stranded + r.mail.admits))
  }

  lemma QuietEnd(r: R.State, mid: R.State, ended: multiset<R.Id>)
    requires Serves(r, mid) && Quiet(r, mid, ended) && mid.service.up && mid.service.calls == {}
    ensures Serves(r, Closed(r, ended))
  {
    assert multiset(mid.service.calls) == multiset{} && mid.mail.finished + multiset{} == mid.mail.finished;
    Once(mid, R.ServiceEnded(false));
    Then(r, mid, R.Step(mid, R.ServiceEnded(false)));
    assert Closed(r, ended) == R.Step(mid, R.ServiceEnded(false));
  }

  /** A stop is the abstract service's end, after the calls and offers it still had. */
  lemma StopStage(s: S.State, r: R.State, a: S.Action)
    requires S.Enabled(s, a) && a.Shutdown? && Mirrors(s, r)
    ensures Serves(r, Toward(s, S.Step(s, a), r, a))
  {
    var mid := EverythingEnds(s, r, a.calls, a.admissions);
    StopUnseen(s, a);
    var ended: multiset<R.Id> :| Quiet(r, mid, ended) && S.Step(s, a).ended == s.ended + ended;
    QuietEnd(r, mid, ended);
    assert S.Step(s, a).ended - s.ended == ended;
    NothingFresh(r);
    assert Toward(s, S.Step(s, a), r, a) == Closed(r, ended);
  }

  /** Every stage of the loop changes what is between the loop and the engine as some
      steps of the abstract service do: offers, answers, endings and the stop. */
  lemma StageIsService(s: S.State, r: R.State, a: S.Action)
    requires T.Inv(s) && S.Enabled(s, a) && Mirrors(s, r) && Prompted(r, a)
    ensures Serves(r, Toward(s, S.Step(s, a), r, a))
  {
    if IsQuiet(a) {
      QuietStage(s, r, a);
    } else if a.Invite? {
      OfferStage(s, r, a);
    } else if a.Shutdown? {
      StopStage(s, r, a);
    } else if !a.command.persisted {
      DenialStage(s, r, a);
    } else if MakesCall(s, a) {
      assert a.command.id !in s.calls;
      CallStage(s, r, a);
    } else {
      EndStage(s, r, a);
    }
  }
}
