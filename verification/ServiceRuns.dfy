/**
 The service loop and the engine together. The engine decides and records, the loop
 offers and calls, and the messages between them are all either has of the other. That
 an offer is answered at most once, which the loop relies on, is what the engine does.
 */
module ServiceRuns {
  import opened Words
  import S = ServiceModel
  import T = ServiceTheorems
  import R = ReceptionModel
  import RT = ReceptionTheorems
  import opened ServiceRefinement

  /** `heard` are the endings this process has taken from the mail. */
  datatype Joint = Joint(loop: S.State, engine: R.State, heard: multiset<R.Id>)

  datatype Move = Stage(stage: S.Action) | Engine(step: R.Action) | Restart(limits: S.Limits)

  /** Steps of the actor, and the reports of a running call. */
  predicate OfEngine(a: R.Action) {
    || a.Heard? || a.Refused? || a.Reserved? || a.Responded? || a.Told? || a.ProgressHeard? || a.FinishedHeard? || a.Stopped?
  }

  /** The guarantees of `S.Enabled` that do not come from the engine. */
  ghost predicate Possible(s: S.State, a: S.Action) {
    (a.Take? && a.command.Admit?) || S.Enabled(s, a)
  }

  /** An answer can be taken if it was sent; that nobody answers twice is not asked for. */
  ghost predicate CanMove(j: Joint, m: Move) {
    match m
    case Stage(a) => Possible(j.loop, a) && Prompted(j.engine, a)
    case Engine(a) => OfEngine(a) && R.Enabled(j.engine, a)
    case Restart(_) => true
  }

  function Moved(j: Joint, m: Move): Joint
    requires m.Engine? ==> R.Enabled(j.engine, m.step)
    requires m.Stage? && m.stage.Prepare? ==> |m.stage.outcomes| == |j.loop.pending|
  {
    match m
    case Stage(a) => Joint(S.Step(j.loop, a), Toward(j.loop, S.Step(j.loop, a), j.engine, a), j.heard)
    case Engine(a) => Joint(j.loop, R.Step(j.engine, a), if a.FinishedHeard? then j.heard + multiset{a.id} else j.heard)
    case Restart(limits) => Joint(S.Started(limits), R.Reopen(j.engine), multiset{})
  }

  function Begun(limits: S.Limits): Joint {
    Joint(S.Started(limits), R.Empty(), multiset{})
  }

  ghost predicate Runs(j: Joint, moves: seq<Move>)
    decreases |moves|
  {
    moves == [] || (CanMove(j, moves[0]) && Runs(Moved(j, moves[0]), moves[1..]))
  }

  ghost function After(j: Joint, moves: seq<Move>): Joint
    requires Runs(j, moves)
    decreases |moves|
  {
    if moves == [] then j else After(Moved(j, moves[0]), moves[1..])
  }

  // ------------------------------------------------------------- invariant

  /** The engine may still answer this offer, or has, and the loop has not taken it. */
  predicate Undecided(r: R.State, id: R.Id) {
    || id in r.mail.offers || id in r.actor.held || r.actor.answering == Some(id)
    || id in r.mail.admits || id in r.mail.denials
  }

  ghost predicate Unanswered(r: R.State, offered: set<S.Id>, answered: set<S.Id>) {
    forall id :: Undecided(r, id) ==> id in offered && id !in answered
  }

  ghost predicate SameCalls(s: S.State, r: R.State) {
    r.service.pending == s.admissions.Keys && r.service.calls == T.IncomingIds(s.calls)
  }

  ghost predicate Inv(j: Joint) {
    && T.Inv(j.loop) && RT.Inv(j.engine) && SameCalls(j.loop, j.engine)
    && Unanswered(j.engine, j.loop.offered, j.loop.answered)
    && j.loop.ended == j.engine.mail.finished + j.heard
  }

  /** What the loop relies on, the engine provides: an answer it takes is for an offer of
      its own that was not answered before. */
  lemma AnswersAreOnce(j: Joint, a: S.Action)
    requires Inv(j) && CanMove(j, Stage(a))
    ensures S.Enabled(j.loop, a)
  {
    if a.Take? && a.command.Admit? {
      assert Undecided(j.engine, a.command.id);
    }
  }

  lemma {:induction false} ServiceRunKeeps(r: R.State, steps: seq<R.Action>)
    requires RT.Inv(r) && R.Runs(r, steps)
    ensures RT.Inv(R.After(r, steps))
  {
    RT.RunKeeps(r, steps);
  }

  lemma StageKeepsEngine(s: S.State, r: R.State, a: S.Action)
    requires T.Inv(s) && RT.Inv(r) && S.Enabled(s, a) && SameCalls(s, r) && Prompted(r, a)
    ensures RT.Inv(Toward(s, S.Step(s, a), r, a))
  {
    StageIsService(s, r, a);
    var steps: seq<R.Action> :| ByService(steps) && R.Runs(r, steps) && R.After(r, steps) == Toward(s, S.Step(s, a), r, a);
    ServiceRunKeeps(r, steps);
  }

  lemma StageKeepsCalls(s: S.State, r: R.State, a: S.Action)
    requires T.Inv(s) && S.Enabled(s, a)
    ensures SameCalls(S.Step(s, a), Toward(s, S.Step(s, a), r, a))
  {
    if a.Shutdown? {
      T.ShutdownSettles(s, a);
    }
  }

  /** Taking an answer leaves nothing else that could answer the same offer. */
  lemma TakenIsDecided(r: R.State, id: R.Id, persisted: bool)
    requires RT.Inv(r) && id in (if persisted then r.mail.admits else r.mail.denials)
    ensures id !in r.mail.offers && id !in r.actor.held && r.actor.answering != Some(id)
    ensures id !in (if persisted then r.mail.denials else r.mail.admits)
  {
    assert RT.Consistent(r, id);
  }

  lemma AnswerKeepsUnanswered(s: S.State, r: R.State, a: S.Action)
    requires RT.Inv(r) && a.Take? && a.command.Admit? && Prompted(r, a) && Unanswered(r, s.offered, s.answered)
    ensures var v := S.Step(s, a); Unanswered(Toward(s, v, r, a), v.offered, v.answered)
  {
    var v, id := S.Step(s, a), a.command.id;
    TakenIsDecided(r, id, a.command.persisted);
    assert v.offered == s.offered && v.answered == s.answered + {id};
    forall other | Undecided(Toward(s, v, r, a), other)
      ensures other in v.offered && other !in v.answered
    {
      assert Undecided(r, other);
    }
  }

  lemma OfferKeepsUnanswered(s: S.State, r: R.State, a: S.Action)
    requires S.Enabled(s, a) && a.Invite? && Unanswered(r, s.offered, s.answered) && s.answered <= s.offered <= s.used
    ensures var v := S.Step(s, a); Unanswered(Toward(s, v, r, a), v.offered, v.answered)
  {
    var v := S.Step(s, a);
    assert v.answered == s.answered && s.offered <= v.offered <= s.offered + {a.id};
    forall id | Undecided(Toward(s, v, r, a), id)
      ensures id in v.offered && id !in v.answered
    {
      assert Undecided(r, id) || id in v.offered - s.offered;
    }
  }

  lemma StageKeepsUnanswered(s: S.State, r: R.State, a: S.Action)
    requires T.Inv(s) && RT.Inv(r) && S.Enabled(s, a) && Prompted(r, a) && Unanswered(r, s.offered, s.answered)
    ensures var v := S.Step(s, a); Unanswered(Toward(s, v, r, a), v.offered, v.answered)
  {
    if a.Invite? {
      OfferKeepsUnanswered(s, r, a);
    } else if a.Take? && a.command.Admit? {
      AnswerKeepsUnanswered(s, r, a);
    } else {
      T.StepKeepsLimits(s, a);
      forall id | Undecided(Toward(s, S.Step(s, a), r, a), id)
        ensures Undecided(r, id)
      {
      }
    }
  }

  lemma EndedGrows(s: S.State, a: S.Action, r: R.State)
    requires T.Inv(s) && S.Enabled(s, a) && SameCalls(s, r) && Prompted(r, a)
    ensures S.Step(s, a).ended == s.ended + (S.Step(s, a).ended - s.ended)
  {
    if IsQuiet(a) {
      var after := QuietSeen(s, r, a);
    } else if a.Shutdown? {
      var mid := EverythingEnds(s, r, a.calls, a.admissions);
      StopUnseen(s, a);
    }
  }

  lemma StageKeeps(j: Joint, a: S.Action)
    requires Inv(j) && CanMove(j, Stage(a)) && S.Enabled(j.loop, a)
    ensures Inv(Moved(j, Stage(a)))
  {
    T.StepKeepsInv(j.loop, a);
    StageKeepsEngine(j.loop, j.engine, a);
    StageKeepsCalls(j.loop, j.engine, a);
    StageKeepsUnanswered(j.loop, j.engine, a);
    EndedGrows(j.loop, a, j.engine);
    Regrouped(j.loop.ended, j.engine.mail.finished, j.heard, S.Step(j.loop, a).ended - j.loop.ended);
  }

  lemma Regrouped(ended: multiset<R.Id>, finished: multiset<R.Id>, heard: multiset<R.Id>, more: multiset<R.Id>)
    requires ended == finished + heard
    ensures ended + more == (finished + more) + heard
  {
  }

  lemma EngineIsUnanswered(r: R.State, a: R.Action, id: R.Id)
    requires OfEngine(a) && R.Enabled(r, a) && Undecided(R.Step(r, a), id)
    ensures Undecided(r, id)
  {
  }

  lemma EngineKeepsService(r: R.State, a: R.Action)
    requires OfEngine(a) && R.Enabled(r, a)
    ensures R.Step(r, a).service == r.service
    ensures R.Step(r, a).mail.finished == if a.FinishedHeard? then r.mail.finished - multiset{a.id} else r.mail.finished
  {
  }

  lemma EngineKeeps(j: Joint, a: R.Action)
    requires Inv(j) && CanMove(j, Engine(a))
    ensures Inv(Moved(j, Engine(a)))
  {
    RT.StepKeeps(j.engine, a);
    EngineKeepsService(j.engine, a);
    forall id | Undecided(R.Step(j.engine, a), id)
      ensures Undecided(j.engine, id)
    {
      EngineIsUnanswered(j.engine, a, id);
    }
  }

  lemma RestartKeeps(j: Joint, limits: S.Limits)
    requires Inv(j)
    ensures Inv(Moved(j, Restart(limits)))
  {
    T.StartedInv(limits);
    RT.StepKeeps(j.engine, R.Reopened);
    assert T.IncomingIds(map[]) == {};
  }

  lemma MoveKeeps(j: Joint, m: Move)
    requires Inv(j) && CanMove(j, m)
    ensures m.Stage? ==> S.Enabled(j.loop, m.stage)
    ensures Inv(Moved(j, m))
  {
    match m
    case Stage(a) =>
      AnswersAreOnce(j, a);
      StageKeeps(j, a);
    case Engine(a) => EngineKeeps(j, a);
    case Restart(limits) => RestartKeeps(j, limits);
  }

  lemma {:induction false} RunKeepsInv(j: Joint, moves: seq<Move>)
    requires Inv(j) && Runs(j, moves)
    ensures Inv(After(j, moves))
    decreases |moves|
  {
    if moves != [] {
      MoveKeeps(j, moves[0]);
      RunKeepsInv(Moved(j, moves[0]), moves[1..]);
    }
  }

  lemma BegunInv(limits: S.Limits)
    ensures Inv(Begun(limits))
  {
    T.StartedInv(limits);
    assert T.IncomingIds(map[]) == {};
  }

  // ---------------------------------------------------------- main results

  /** In every joint run, whatever answer the loop takes next is for an offer it made and
      has not been answered on, and every stage is one the loop's own theorems allow. */
  lemma EveryStageIsEnabled(limits: S.Limits, moves: seq<Move>, a: S.Action)
    requires Runs(Begun(limits), moves) && CanMove(After(Begun(limits), moves), Stage(a))
    ensures S.Enabled(After(Begun(limits), moves).loop, a)
  {
    BegunInv(limits);
    RunKeepsInv(Begun(limits), moves);
    AnswersAreOnce(After(Begun(limits), moves), a);
  }

  /** The engine's side of a joint run is a run of the reception model, so everything
      proved there holds with the concrete loop for its service. */
  lemma {:induction false} EngineSeesReceptions(j: Joint, moves: seq<Move>) returns (actions: seq<R.Action>)
    requires Inv(j) && Runs(j, moves)
    ensures R.Runs(j.engine, actions) && R.After(j.engine, actions) == After(j, moves).engine
    decreases |moves|
  {
    if moves == [] {
      actions := [];
    } else {
      MoveKeeps(j, moves[0]);
      var first := MoveIsActions(j, moves[0]);
      var rest := EngineSeesReceptions(Moved(j, moves[0]), moves[1..]);
      Join(j.engine, first, rest);
      actions := first + rest;
    }
  }

  lemma OneAction(r: R.State, a: R.Action)
    requires R.Enabled(r, a)
    ensures R.Runs(r, [a]) && R.After(r, [a]) == R.Step(r, a)
  {
    assert [a][1..] == [];
  }

  lemma MoveIsActions(j: Joint, m: Move) returns (actions: seq<R.Action>)
    requires Inv(j) && CanMove(j, m)
    ensures R.Runs(j.engine, actions) && R.After(j.engine, actions) == Moved(j, m).engine
  {
    match m
    case Stage(a) =>
      AnswersAreOnce(j, a);
      StageIsService(j.loop, j.engine, a);
      actions :| ByService(actions) && R.Runs(j.engine, actions) && R.After(j.engine, actions) == Moved(j, m).engine;
    case Engine(a) =>
      actions := [a];
      OneAction(j.engine, a);
    case Restart(_) =>
      actions := [R.Reopened];
      OneAction(j.engine, R.Reopened);
  }

  /** The endings on their way to a record: an answer being given, an answer the loop has
      not taken, a call of the loop, an ending the loop has sent and the engine not heard,
      or the next opening. */
  function Endings(j: Joint, id: R.Id): int {
    var sent: int, heard: int := j.loop.ended[id], j.heard[id];
    RT.One(j.engine.actor.answering == Some(id)) + RT.One(id in j.engine.mail.admits)
    + RT.One(id in j.loop.calls && j.loop.calls[id].Incoming?) + (sent - heard)
    + RT.One(id in j.engine.disk.stranded)
  }

  /** With the concrete loop: at every moment a record is receiving exactly when one
      ending is on its way to it, and never two. */
  lemma OneEndingIsOnItsWay(limits: S.Limits, moves: seq<Move>, id: R.Id)
    requires Runs(Begun(limits), moves)
    ensures var j := After(Begun(limits), moves);
      Endings(j, id) == if RT.IsReceiving(j.engine, id) then 1 else 0
  {
    BegunInv(limits);
    RunKeepsInv(Begun(limits), moves);
    var actions := EngineSeesReceptions(Begun(limits), moves);
    RT.OneEndingIsOnItsWay(actions, id);
  }

  /** With the concrete loop: once no call is left, every answer has been taken or dropped
      and every ending heard, only receptions whose answer a stopped loop dropped are
      open, and the next opening closes those. */
  lemma OnlyStrandedStayOpen(limits: S.Limits, moves: seq<Move>, id: R.Id)
    requires Runs(Begun(limits), moves)
    requires var j := After(Begun(limits), moves);
      && j.loop.calls == map[] && j.loop.ended == j.heard
      && j.engine.mail.admits == {} && j.engine.actor.answering.None?
    ensures var j := After(Begun(limits), moves);
      && (RT.IsReceiving(j.engine, id) <==> id in j.engine.disk.stranded)
      && !RT.IsReceiving(R.Reopen(j.engine), id)
  {
    BegunInv(limits);
    RunKeepsInv(Begun(limits), moves);
    var j := After(Begun(limits), moves);
    assert T.IncomingIds(j.loop.calls) == {};
    assert j.engine.mail.finished == multiset{} by {
      assert |j.loop.ended| == |j.engine.mail.finished| + |j.heard|;
    }
    var actions := EngineSeesReceptions(Begun(limits), moves);
    RT.OnlyStrandedStayOpen(actions, id);
  }
}
