/** A recorded reception is always on its way to exactly one ending. */
module ReceptionTheorems {
  import opened Words
  import opened ReceptionModel

  function One(b: bool): nat {
    if b then 1 else 0
  }

  /** How many endings are on their way to the record: an answer being given or queued,
      a call, a `Finished` queued, or none but the next opening. */
  function Endings(s: State, id: Id): nat {
    One(s.actor.answering == Some(id)) + One(id in s.mail.admits) + One(id in s.service.calls) + s.mail.finished[id]
    + One(id in s.disk.stranded)
  }

  predicate IsReceiving(s: State, id: Id) {
    id in s.disk.records && s.disk.records[id] == Receiving
  }

  /** All a state says about one reception. */
  predicate Consistent(s: State, id: Id) {
    && Endings(s, id) == One(IsReceiving(s, id))
    && s.disk.closed[id] == One(id in s.disk.records && s.disk.records[id] == Closed)
    && (id in s.disk.records ==> id in s.disk.used)
    && (id in s.mail.progress ==> id in s.disk.records)
    && (id in s.actor.held ==> id in s.disk.used && id !in s.disk.records)
    && (id in s.mail.offers ==> id in s.disk.used && id !in s.disk.records && id !in s.actor.held)
    && (id in s.service.pending ==> id in s.disk.used && s.service.up)
    && (id in s.mail.admits ==> s.service.up)
    && (id in s.mail.denials ==>
      s.service.up && id in s.disk.used && id !in s.disk.records && id !in s.actor.held && id !in s.mail.offers)
  }

  lemma ServiceKeeps(s: State, a: Action, id: Id)
    requires Enabled(s, a) && Consistent(s, id)
    requires a.Offered? || a.Withdrawn? || a.AdmitTaken? || a.DenialTaken? || a.Told? || a.CallEnded? || a.ServiceEnded?
    ensures Consistent(Step(s, a), id)
  {
  }

  lemma DecisionKeeps(s: State, a: Action, id: Id)
    requires Enabled(s, a) && Consistent(s, id) && (a.Heard? || a.Refused? || a.Reserved? || a.Stopped?)
    ensures Consistent(Step(s, a), id)
  {
  }

  lemma AnswerKeeps(s: State, id: Id)
    requires s.actor.answering.Some? && Consistent(s, id)
    ensures Consistent(Respond(s), id)
  {
  }

  lemma EventKeeps(s: State, a: Action, id: Id)
    requires Enabled(s, a) && Consistent(s, id) && (a.ProgressHeard? || a.FinishedHeard?)
    ensures Consistent(Step(s, a), id)
  {
  }

  lemma ReopenKeeps(s: State, id: Id)
    requires Consistent(s, id)
    ensures Consistent(Reopen(s), id)
  {
    assert id in Open(s.disk.records) <==> IsReceiving(s, id);
  }

  ghost predicate Inv(s: State) {
    forall id :: Consistent(s, id)
  }

  lemma StepKeeps(s: State, a: Action)
    requires Enabled(s, a) && Inv(s)
    ensures Inv(Step(s, a))
  {
    forall id
      ensures Consistent(Step(s, a), id)
    {
      match a {
        case Heard(_) | Refused(_) | Reserved(_, _) | Stopped => DecisionKeeps(s, a, id);
        case Responded => AnswerKeeps(s, id);
        case ProgressHeard(_) | FinishedHeard(_) => EventKeeps(s, a, id);
        case Reopened => ReopenKeeps(s, id);
        case _ => ServiceKeeps(s, a, id);
      }
    }
  }

  lemma {:induction false} RunKeeps(s: State, actions: seq<Action>)
    requires Inv(s) && Runs(s, actions)
    ensures Inv(After(s, actions))
    decreases |actions|
  {
    if actions != [] {
      StepKeeps(s, actions[0]);
      RunKeeps(Step(s, actions[0]), actions[1..]);
    }
  }

  /** Every event under way is about a reception that is recorded. */
  lemma EventsFollowRecords(actions: seq<Action>, id: Id)
    requires Runs(Empty(), actions)
    ensures var s := After(Empty(), actions);
      id in s.mail.progress || id in s.mail.finished || id in s.service.calls ==> id in s.disk.records
  {
    RunKeeps(Empty(), actions);
    assert Consistent(After(Empty(), actions), id);
  }

  /** At every moment of every run, whatever the order of answers, timeouts, hang-ups,
      stops and process deaths: a record is receiving exactly when one ending is on its
      way to it, and never two. */
  lemma OneEndingIsOnItsWay(actions: seq<Action>, id: Id)
    requires Runs(Empty(), actions)
    ensures var s := After(Empty(), actions);
      Endings(s, id) == if IsReceiving(s, id) then 1 else 0
  {
    RunKeeps(Empty(), actions);
    assert Consistent(After(Empty(), actions), id);
  }

  lemma CloseIsFinal(s: State, a: Action, id: Id)
    requires Enabled(s, a) && Consistent(s, id) && id in s.disk.records
    ensures id in Step(s, a).disk.records && (s.disk.records[id] == Closed ==> Step(s, a).disk.records[id] == Closed)
  {
  }

  /** A record leaves `Receiving` at most once and never returns to it. */
  lemma {:induction false} ClosedForGood(s: State, actions: seq<Action>, id: Id)
    requires Inv(s) && Runs(s, actions) && id in s.disk.records && s.disk.records[id] == Closed
    ensures var v := After(s, actions);
      id in v.disk.records && v.disk.records[id] == Closed && v.disk.closed[id] == 1 && v.mail.finished[id] == 0
    decreases |actions|
  {
    assert Consistent(s, id);
    if actions != [] {
      CloseIsFinal(s, actions[0], id);
      StepKeeps(s, actions[0]);
      ClosedForGood(Step(s, actions[0]), actions[1..], id);
    }
  }

  /** Once the service has ended and every event has been heard, only receptions whose
      answer it never took are still open; the next opening closes those too. */
  lemma OnlyStrandedStayOpen(actions: seq<Action>, id: Id)
    requires Runs(Empty(), actions)
    requires var s := After(Empty(), actions);
      s.service.calls == {} && s.mail.admits == {} && s.mail.finished == multiset{} && s.actor.answering.None?
    ensures var s := After(Empty(), actions);
      (IsReceiving(s, id) <==> id in s.disk.stranded)
      && !IsReceiving(Reopen(s), id) && (id in s.disk.records ==> Reopen(s).disk.closed[id] == 1)
  {
    RunKeeps(Empty(), actions);
    var s := After(Empty(), actions);
    assert Consistent(s, id);
    ReopenKeeps(s, id);
  }

  predicate OnlyOrderlyEnds(actions: seq<Action>) {
    forall i :: 0 <= i < |actions| && actions[i].ServiceEnded? ==> actions[i].orderly
  }

  lemma {:induction false} NothingIsStranded(s: State, actions: seq<Action>)
    requires Runs(s, actions) && OnlyOrderlyEnds(actions) && s.disk.stranded == {}
    ensures After(s, actions).disk.stranded == {}
    decreases |actions|
  {
    if actions != [] {
      NothingIsStranded(Step(s, actions[0]), actions[1..]);
    }
  }

  /** When the service only ever ends by the actor's stop, hearing all events closes
      every reception; nothing waits for the next opening. */
  lemma OrderlyStopsCloseEverything(actions: seq<Action>, id: Id)
    requires Runs(Empty(), actions) && OnlyOrderlyEnds(actions)
    requires var s := After(Empty(), actions);
      s.service.calls == {} && s.mail.admits == {} && s.mail.finished == multiset{} && s.actor.answering.None?
    ensures !IsReceiving(After(Empty(), actions), id)
  {
    NothingIsStranded(Empty(), actions);
    OnlyStrandedStayOpen(actions, id);
  }

  // ------------------------------------------------ what the actor must do

  /** An offer is held, recorded and answered exactly while its caller is there and the
      actor is not stopping; what cannot be recorded is refused. */
  lemma OffersAreDecidedExactly(s: State, id: Id, saved: bool)
    ensures Enabled(s, Heard(id)) ==>
      (id in Step(s, Heard(id)).actor.held <==> id in s.actor.held || (!s.actor.stopping && id in s.service.pending))
    ensures Enabled(s, Reserved(id, saved)) ==>
      var v := Step(s, Reserved(id, saved));
      && (v.actor.answering == Some(id) <==> id in s.service.pending && !s.actor.stopping && saved)
      && (v.actor.answering == Some(id) ==> IsReceiving(v, id))
      && (id in v.mail.denials <==> id in s.mail.denials || (id in s.service.pending && (s.actor.stopping || !saved)))
  {
  }

  /** The answer reaches a service that is up; otherwise its record is closed here. */
  lemma AnswersAreDelivered(s: State)
    requires Enabled(s, Responded) && Consistent(s, s.actor.answering.value)
    ensures var id, v := s.actor.answering.value, Step(s, Responded);
      if s.service.up then id in v.mail.admits && IsReceiving(v, id) else id in v.disk.records && v.disk.records[id] == Closed
  {
  }

  /** Left undisturbed, an accepted offer becomes a call whose record is open, and its end
      closes the record. */
  lemma AcceptedOfferIsReceived(s: State, id: Id) returns (called: State, ended: State)
    requires (forall k :: Consistent(s, k)) && Enabled(s, Offered(id)) && !s.actor.stopping && s.actor.answering.None?
    ensures var accepting := [Offered(id), Heard(id), Reserved(id, true), Responded, AdmitTaken(id, true)];
      Runs(s, accepting) && called == After(s, accepting)
    ensures id in called.service.calls && IsReceiving(called, id)
    ensures Runs(called, [CallEnded(id), FinishedHeard(id)]) && ended == After(called, [CallEnded(id), FinishedHeard(id)])
    ensures id in ended.disk.records && ended.disk.records[id] == Closed
  {
    assert Consistent(s, id);
    var offered := Step(s, Offered(id));
    var held := Step(offered, Heard(id));
    var written := Step(held, Reserved(id, true));
    var answered := Step(written, Responded);
    called := Step(answered, AdmitTaken(id, true));
    OneAfter(answered, AdmitTaken(id, true), []);
    OneAfter(written, Responded, [AdmitTaken(id, true)]);
    OneAfter(held, Reserved(id, true), [Responded, AdmitTaken(id, true)]);
    OneAfter(offered, Heard(id), [Reserved(id, true), Responded, AdmitTaken(id, true)]);
    OneAfter(s, Offered(id), [Heard(id), Reserved(id, true), Responded, AdmitTaken(id, true)]);
    var finished := Step(called, CallEnded(id));
    ended := Step(finished, FinishedHeard(id));
    OneAfter(finished, FinishedHeard(id), []);
    OneAfter(called, CallEnded(id), [FinishedHeard(id)]);
  }

  lemma OneAfter(s: State, a: Action, rest: seq<Action>)
    requires Enabled(s, a) && Runs(Step(s, a), rest)
    ensures Runs(s, [a] + rest) && After(s, [a] + rest) == After(Step(s, a), rest)
  {
    assert ([a] + rest)[1..] == rest;
  }
}
