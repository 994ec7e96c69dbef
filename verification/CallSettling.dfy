/**
 A connected call does not negotiate for ever: with turns no further apart than `gap`, it
 is over or its modem runs within a fixed time, except in one state, where it waits for
 the call limit.
 */
module CallSettling {
  import opened Words
  import opened CallModel
  import opened CallTheorems

  /** Longest stay in one open offer, seen from turn to turn. */
  function OpenFor(gap: nat): nat {
    SETTLE_LIMIT + 2 * gap
  }

  /** An open offer, the longest wait after a collision, and the turn that offers again. */
  function Round(gap: nat): nat {
    OpenFor(gap) + 4000 + gap
  }

  /** When the offer after so many collisions has been made at the latest, after answering. */
  function OfferBy(glare: nat, gap: nat): nat {
    MEDIA_LIMIT + gap + if glare == 0 then 0 else if glare == 1 then Round(gap) else 2 * Round(gap)
  }

  /** Three T.38 offers and the restoration of G.711. */
  function SettlesWithin(gap: nat): nat {
    OfferBy(2, gap) + OpenFor(gap) + SETTLE_LIMIT + gap
  }

  /** Accepted, but the peer's description has gone back to audio. */
  predicate Stalled(p: Pump) {
    !p.over && p.connected.Some? && p.mode == Auto
    && p.talk.attempt == Accepted && p.media.remote.Some? && p.media.remote.value.kind == Audio
  }

  predicate Settled(p: Pump) {
    p.over || p.media.fax.Some?
  }

  predicate IsAudio(remote: Option<Remote>) {
    remote.Some? && remote.value.kind == Audio
  }

  /** Where the negotiation of a call answered at `c` may still be at `last`. With `slack`
      0 this is the end of a turn, with `gap` the middle of the next one. */
  predicate OnTime(c: int, talk: Talk, fax: Option<Kind>, remote: Option<Remote>, last: int, slack: nat, gap: nat) {
    && (talk.attempt != NotStarted ==> remote.Some?)
    && match talk.attempt
       case NotStarted => fax.None? ==> last <= c + MEDIA_LIMIT + slack
       case Backoff(retryAt) => (fax.None? ==> last < retryAt + slack) && retryAt + gap <= c + OfferBy(talk.glare, gap)
       case Waiting(kind, _, since, cancelling, _) =>
         && since <= last <= since + SETTLE_LIMIT + gap + slack
         && since <= c + OfferBy(talk.glare, gap) + (if kind == Audio then OpenFor(gap) else 0)
         && (!cancelling ==> last < since + CANCEL_AFTER + slack)
       case Accepted => slack == 0 && fax.None? ==> IsAudio(remote)
       case Rejected => slack == 0 ==> fax.Some?
  }

  predicate Timely(p: Pump, last: int, slack: nat, gap: nat) {
    !p.over && p.connected.Some? ==> OnTime(p.connected.value, p.talk, p.media.fax, p.media.remote, last, slack, gap)
  }

  // ------------------------------------------------------ within a turn

  lemma DescribedOnTime(p: Pump, description: Option<Remote>, now: int, gap: nat)
    requires Inv(p) && !p.over && Timely(p, now, gap, gap) && gap > 0
    ensures Timely(OnMedia(p, description), now, gap, gap)
  {
    if description.Some? {
      TakenKeeps(p.media, description.value);
    }
  }

  /** A collision postpones the next offer within its round. */
  lemma BackoffOnTime(p: Pump, retryAt: int, now: int, gap: nat)
    requires !p.over && p.connected.Some? && p.talk.attempt.Waiting? && p.talk.attempt.kind == T38 && p.talk.glare < 2 && gap > 0
    requires Timely(p, now, gap, gap) && now <= retryAt <= now + 4000
    ensures Timely(p.(talk := p.talk.(glare := p.talk.glare + 1, attempt := Backoff(retryAt))), now, gap, gap)
  {
  }

  /** The restoration of G.711 begins when the T.38 offer ends. */
  lemma RestorationOnTime(p: Pump, now: int, stack: Stack, gap: nat)
    requires !p.over && p.connected.Some? && p.talk.attempt.Waiting? && p.talk.attempt.kind == T38 && gap > 0
    requires Timely(p, now, gap, gap)
    ensures Timely(Reinvited(p, Audio, now, stack), now, gap, gap)
  {
  }

  lemma FinalOnTime(p: Pump, cseq: int, code: int, now: int, stack: Stack, gap: nat)
    requires Inv(p) && !p.over && Timely(p, now, gap, gap) && gap > 0
    ensures Timely(OnInviteFinal(p, cseq, code, now, stack), now, gap, gap)
  {
    if p.talk.attempt.Waiting? && p.talk.attempt.kind == T38 {
      RestorationOnTime(p, now, stack, gap);
      if p.talk.glare < 2 {
        BackoffOnTime(p, now + GlareDelay(p.receiving, stack.random), now, gap);
      }
    }
  }

  lemma OtherOnTime(p: Pump, e: Event, now: int, stack: Stack, gap: nat)
    requires Inv(p) && !p.over && Timely(p, now, gap, gap) && gap > 0
    requires !e.Described? && !e.InviteFinal?
    ensures Timely(OnEvent(p, e, now, stack), now, gap, gap)
  {
  }

  lemma {:induction false} DrainOnTime(p: Pump, events: seq<Event>, now: int, stack: Stack, gap: nat)
    requires Inv(p) && Timely(p, now, gap, gap) && gap > 0
    ensures Timely(Drain(p, events, now, stack), now, gap, gap)
    decreases |events|
  {
    if events != [] && !p.over {
      EventKeeps(p, events[0], now, stack);
      match events[0] {
        case Described(description) => DescribedOnTime(p, description, now, gap);
        case InviteFinal(cseq, code) => FinalOnTime(p, cseq, code, now, stack, gap);
        case _ => OtherOnTime(p, events[0], now, stack, gap);
      }
      DrainOnTime(OnEvent(p, events[0], now, stack), events[1..], now, stack, gap);
    }
  }

  /** The watch on an open offer makes up for the time since the last turn. */
  predicate Watched(attempt: Attempt, now: int, gap: nat) {
    attempt.Waiting? ==>
      now <= attempt.since + SETTLE_LIMIT + gap && (!attempt.cancelling ==> now < attempt.since + CANCEL_AFTER)
  }

  lemma WatchOnTime(p: Pump, now: int, stack: Stack, gap: nat)
    requires !p.over && p.connected.Some? && Timely(p, now, gap, gap) && gap > 0
    ensures var v := Watch(p, now, stack);
      v.over || (Timely(v, now, gap, gap) && Watched(v.talk.attempt, now, gap) && v.connected == p.connected && v.media == p.media)
  {
  }

  lemma WaitsOnTime(p: Pump, now: int, gap: nat)
    requires Timely(p, now, gap, gap) && !p.over && p.connected.Some? && Watched(p.talk.attempt, now, gap)
    requires p.talk.attempt.Waiting? || p.media.fax.Some?
    ensures Timely(p, now, 0, gap)
  {
  }

  lemma OfferOnTime(p: Pump, now: int, stack: Stack, gap: nat)
    requires Inv(p) && Timely(p, now, gap, gap) && !p.over && p.connected.Some? && p.media.fax.None? && IsAudio(p.media.remote)
    requires p.talk.attempt.NotStarted? || p.talk.attempt.Backoff?
    ensures Timely(Reinvited(p, T38, now, stack), now, 0, gap)
  {
  }

  lemma AutoOnTime(p: Pump, now: int, stack: Stack, gap: nat)
    requires Inv(p) && Timely(p, now, gap, gap) && !p.over && p.connected.Some? && p.media.fax.None?
    requires IsAudio(p.media.remote) && p.mode == Auto && Watched(p.talk.attempt, now, gap)
    ensures Timely(Choose(p, now, stack), now, 0, gap)
  {
    if OfferDue(p, now) {
      OfferOnTime(p, now, stack, gap);
    } else if p.talk.attempt.Waiting? {
      WaitsOnTime(p, now, gap);
    }
  }

  lemma ModemOnTime(p: Pump, kind: Kind, now: int, stack: Stack, gap: nat)
    requires Timely(p, now, gap, gap) && !p.over && p.connected.Some? && !p.talk.attempt.Waiting?
    ensures Timely(Modem(p, kind, stack), now, 0, gap)
  {
  }

  lemma ChooseOnTime(p: Pump, now: int, stack: Stack, gap: nat)
    requires Inv(p) && Timely(p, now, gap, gap) && !p.over && p.connected.Some? && Watched(p.talk.attempt, now, gap)
    ensures Timely(Choose(p, now, stack), now, 0, gap)
  {
    if p.media.fax.Some? {
      WaitsOnTime(p, now, gap);
    } else if IsAudio(p.media.remote) {
      match p.mode {
        case Auto => AutoOnTime(p, now, stack, gap);
        case OnlyG711 => ModemOnTime(p, Audio, now, stack, gap);
        case OnlyT38 =>
      }
    } else if p.media.remote.Some? {
      if p.talk.attempt.Waiting? {
        WaitsOnTime(p, now, gap);
      } else {
        ModemOnTime(p, T38, now, stack, gap);
      }
    }
  }

  lemma LaterOnTime(p: Pump, last: int, now: int, gap: nat)
    requires Timely(p, last, 0, gap) && last <= now <= last + gap && gap > 0
    ensures Timely(p, now, gap, gap)
  {
  }

  lemma TurnOnTime(p: Pump, last: int, events: seq<Event>, now: int, cancelled: bool, stack: Stack, gap: nat)
    requires Inv(p) && Timely(p, last, 0, gap) && last <= now <= last + gap && gap > 0
    ensures Timely(Step(p, events, now, cancelled, stack), now, 0, gap)
  {
    if !p.over && !Expired(p, now, cancelled) {
      LaterOnTime(p, last, now, gap);
      DrainKeeps(p, events, now, stack);
      DrainOnTime(p, events, now, stack, gap);
      var q := Drain(p, events, now, stack);
      if !q.over && q.connected.Some? {
        WatchKeeps(q, now, stack);
        WatchOnTime(q, now, stack, gap);
        var r := Watch(q, now, stack);
        if !r.over {
          ChooseOnTime(r, now, stack, gap);
        }
      }
    }
  }

  // ------------------------------------------------------------ whole runs

  /** Turns follow each other within `gap`. */
  predicate Paced(last: int, actions: seq<Action>, gap: nat)
    decreases |actions|
  {
    actions == [] ||
    if actions[0].Turn? then last <= actions[0].now <= last + gap && Paced(actions[0].now, actions[1..], gap)
    else Paced(last, actions[1..], gap)
  }

  /** When the last turn was. */
  function LastTurn(last: int, actions: seq<Action>): int
    decreases |actions|
  {
    if actions == [] then last else LastTurn(if actions[0].Turn? then actions[0].now else last, actions[1..])
  }

  lemma {:induction false} RunOnTime(p: Pump, last: int, actions: seq<Action>, gap: nat)
    requires Inv(p) && Timely(p, last, 0, gap) && Paced(last, actions, gap) && gap > 0
    ensures Inv(Run(p, actions)) && Timely(Run(p, actions), LastTurn(last, actions), 0, gap)
    decreases |actions|
  {
    if actions != [] {
      match actions[0] {
        case Turn(events, now, cancelled, stack) =>
          StepKeeps(p, events, now, cancelled, stack);
          TurnOnTime(p, last, events, now, cancelled, stack, gap);
          RunOnTime(Apply(p, actions[0]), now, actions[1..], gap);
        case Negotiated(kind) =>
          RunOnTime(Apply(p, actions[0]), last, actions[1..], gap);
      }
    }
  }

  /** Whatever the peer and the stack do, once a connected call has had its time it is
      over or its modem runs, exactly unless its offer was accepted and the peer has
      described audio again. */
  lemma ConnectedCallsSettle(mode: Mode, receiving: bool, started: int, actions: seq<Action>, gap: nat)
    requires Paced(started, actions, gap) && gap > 0
    ensures var p, now := Run(New(mode, receiving, started), actions), LastTurn(started, actions);
      p.connected.Some? && now > p.connected.value + SettlesWithin(gap) ==> (Settled(p) <==> !Stalled(p))
  {
    RunOnTime(New(mode, receiving, started), started, actions, gap);
  }

  // ------------------------------------------------------- where it fails

  /** A stalled call stays as it is through every turn that hears nothing, until the
      limit of the whole call. */
  lemma {:induction false} StalledStays(p: Pump, actions: seq<Action>)
    requires Inv(p) && Stalled(p)
    requires forall i :: 0 <= i < |actions| ==>
      actions[i].Turn? && actions[i].events == [] && !actions[i].cancelled && actions[i].now - p.started <= CALL_LIMIT
    ensures Run(p, actions) == p && p.media.fax.None?
    decreases |actions|
  {
    if actions != [] {
      assert Drain(p, [], actions[0].now, actions[0].stack) == p;
      StalledStays(p, actions[1..]);
    }
  }

  const QUIET := Stack(7, false, false, false, false, 0)

  /** It does happen: the peer accepts T.38 and describes audio again before the next turn. */
  lemma AcceptedCallStalls()
    ensures var p := Run(New(Auto, true, 0), [
        Turn([Connected, Described(Some(Remote(Audio, 1)))], 0, false, QUIET),
        Turn([Described(Some(Remote(T38, 2))), InviteFinal(7, 200), Described(Some(Remote(Audio, 1)))], 20, false, QUIET)]);
      Stalled(p) && p.started == 0 && !Settled(p)
  {
    var answered := [Connected, Described(Some(Remote(Audio, 1)))];
    var changed := [Described(Some(Remote(T38, 2))), InviteFinal(7, 200), Described(Some(Remote(Audio, 1)))];
    var one, two := Turn(answered, 0, false, QUIET), Turn(changed, 20, false, QUIET);
    var p := New(Auto, true, 0);
    var q := Apply(p, one);
    OfferIsOpen(p, answered);
    OfferIsAccepted(q, changed);
    assert [one, two][1..] == [two] && [two][1..] == [];
    assert Run(p, [one, two]) == Run(q, [two]) == Run(Apply(q, two), []);
  }

  lemma OfferIsOpen(p: Pump, events: seq<Event>)
    requires p == New(Auto, true, 0) && events == [Connected, Described(Some(Remote(Audio, 1)))]
    ensures Step(p, events, 0, false, QUIET) == p.(
      connected := Some(0), talk := Talk(Waiting(T38, 7, 0, false, false), 0, 1, 0),
      media := Media(Some(Remote(Audio, 1)), true, false, None, 0, true, Audio))
  {
    var last := [Described(Some(Remote(Audio, 1)))];
    assert events[1..] == last && last[1..] == [];
    var q := OnEvent(p, Connected, 0, QUIET);
    var r := OnEvent(q, last[0], 0, QUIET);
    assert Drain(r, [], 0, QUIET) == r && Drain(q, last, 0, QUIET) == r;
  }

  lemma OfferIsAccepted(p: Pump, events: seq<Event>)
    requires p == New(Auto, true, 0).(
      connected := Some(0), talk := Talk(Waiting(T38, 7, 0, false, false), 0, 1, 0),
      media := Media(Some(Remote(Audio, 1)), true, false, None, 0, true, Audio))
    requires events == [Described(Some(Remote(T38, 2))), InviteFinal(7, 200), Described(Some(Remote(Audio, 1)))]
    ensures Step(p, events, 20, false, QUIET) == p.(
      talk := Talk(Accepted, 0, 1, 0), media := Media(Some(Remote(Audio, 1)), true, true, None, 0, true, Audio))
  {
    var two := [InviteFinal(7, 200), Described(Some(Remote(Audio, 1)))];
    var one := [Described(Some(Remote(Audio, 1)))];
    assert events[1..] == two && two[1..] == one && one[1..] == [];
    var q := OnEvent(p, events[0], 20, QUIET);
    var r := OnEvent(q, two[0], 20, QUIET);
    var s := OnEvent(r, one[0], 20, QUIET);
    assert r.talk.attempt == Accepted;
    assert Drain(s, [], 20, QUIET) == s && Drain(r, one, 20, QUIET) == s && Drain(q, two, 20, QUIET) == s;
  }
}
