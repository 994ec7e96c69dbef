/** The pump of one call, turn by turn, in place. */
module CallPumps {
  import opened Words
  import opened CallModel

  class CallPump {
    const mode: Mode
    const receiving: bool
    const started: int
    var connected: Option<int>
    var directRetry: bool
    var attempt: Attempt
    var glareRetries: nat
    var remote: Option<Remote>
    var audio: bool
    var packets: bool
    var fax: Option<Kind>
    var switchAllowed: bool
    var current: Kind
    var over: bool
    ghost var offersT38: nat
    ghost var offersG711: nat
    ghost var modems: nat

    ghost function View(): Pump
      reads this
    {
      Pump(mode, receiving, started, connected, directRetry, Talk(attempt, glareRetries, offersT38, offersG711),
           Media(remote, audio, packets, fax, modems, switchAllowed, current), over)
    }

    constructor (mode: Mode, receiving: bool, now: int)
      ensures View() == New(mode, receiving, now)
    {
      this.mode, this.receiving, started := mode, receiving, now;
      connected, directRetry, attempt, glareRetries := None, false, NotStarted, 0;
      remote, audio, packets, fax := None, false, false, None;
      switchAllowed, current := mode == Auto, if mode == OnlyT38 then T38 else Audio;
      over, offersT38, offersG711, modems := false, 0, 0, 0;
    }

    method Fail()
      modifies `over
      ensures View() == Over(old(View()))
    {
      over := true;
    }

    method Reinvite(kind: Kind, now: int, stack: Stack) returns (ok: bool)
      modifies `attempt, `over, `offersT38, `offersG711
      ensures View() == Reinvited(old(View()), kind, now, stack) && ok == !stack.reinviteFails
    {
      if kind == T38 {
        offersT38 := offersT38 + 1;
      } else {
        offersG711 := offersG711 + 1;
      }
      if stack.reinviteFails {
        Fail();
        return false;
      }
      attempt := Waiting(kind, stack.cseq, now, false, false);
      ok := true;
    }

    /** A dialog ended before the call was answered may be placed once more. */
    method Hangup(code: int, stack: Stack)
      modifies `directRetry, `remote, `audio, `packets, `current, `over
      ensures View() == OnDisconnected(old(View()), code, stack)
    {
      if mode == Auto && !receiving && connected.None? && code == 488 && !directRetry {
        directRetry, remote, audio, packets, current := true, None, false, false, T38;
        if stack.inviteFails {
          Fail();
        }
      } else {
        Fail();
      }
    }

    method TakeMedia(negotiated: Remote)
      modifies `remote, `audio, `packets, `over
      ensures var taken := Taken(old(View()).media, negotiated);
        View() == if taken.None? then Over(old(View())) else old(View()).(media := taken.value)
    {
      if remote == Some(negotiated) {
        return;
      }
      if audio && negotiated.kind == Audio && fax != Some(T38) {
        remote := Some(negotiated);
        return;
      }
      if fax.Some? {
        Fail();
        return;
      }
      if negotiated.kind == Audio {
        audio := true;
      } else {
        packets := true;
      }
      remote := Some(negotiated);
    }

    method Negotiate(description: Option<Remote>)
      modifies `attempt, `remote, `audio, `packets, `over
      ensures View() == OnMedia(old(View()), description)
    {
      if description.None? {
        Fail();
        return;
      }
      if attempt.Waiting? {
        attempt := attempt.(ready := description.value.kind == attempt.kind);
      }
      TakeMedia(description.value);
    }

    /** The final response to an INVITE of ours. */
    method Settle(cseq: int, code: int, now: int, stack: Stack)
      modifies `attempt, `glareRetries, `over, `offersT38, `offersG711
      ensures View() == OnInviteFinal(old(View()), cseq, code, now, stack)
    {
      if !attempt.Waiting? || attempt.cseq != cseq || code < 200 || code == 401 || code == 407 {
        return;
      }
      var kind := attempt.kind;
      if kind == T38 && code == 491 && glareRetries < 2 {
        glareRetries := glareRetries + 1;
        attempt := Backoff(now + GlareDelay(receiving, stack.random));
      } else if kind == T38 && code >= 300 && remote.Some? && remote.value.kind == Audio {
        attempt := Rejected;
      } else if code < 300 && attempt.ready {
        attempt := if kind == T38 then Accepted else Rejected;
      } else if kind == T38 {
        var _ := Reinvite(Audio, now, stack);
      } else {
        Fail();
      }
    }

    method Handle(e: Event, now: int, stack: Stack)
      modifies this
      ensures View() == OnEvent(old(View()), e, now, stack)
    {
      match e {
        case Ringing | Unrelated =>
        case Connected =>
          if connected.None? {
            connected := Some(now);
          }
        case Disconnected(code) => Hangup(code, stack);
        case PeerHangup => Fail();
        case Described(description) => Negotiate(description);
        case InviteStarted(cseq) =>
          if attempt.Waiting? {
            attempt := attempt.(cseq := cseq);
          }
        case InviteFinal(cseq, code) => Settle(cseq, code, now, stack);
        case MediaError =>
          if attempt.Waiting? {
            attempt := attempt.(ready := false);
          } else {
            Fail();
          }
      }
    }

    method Drain(events: seq<Event>, now: int, stack: Stack)
      requires !over
      modifies this
      ensures View() == CallModel.Drain(old(View()), events, now, stack)
    {
      for i := 0 to |events|
        invariant !over
        invariant CallModel.Drain(View(), events[i..], now, stack) == CallModel.Drain(old(View()), events, now, stack)
      {
        assert events[i..][0] == events[i] && events[i..][1..] == events[i + 1..];
        Handle(events[i], now, stack);
        if over {
          return;
        }
      }
    }

    method CheckOffer(now: int, stack: Stack)
      modifies `attempt, `over
      ensures View() == Watch(old(View()), now, stack)
    {
      if attempt.Waiting? {
        if now - attempt.since >= CANCEL_AFTER && !attempt.cancelling {
          if stack.cancelFails {
            Fail();
          } else {
            attempt := attempt.(cancelling := true);
          }
        } else if now - attempt.since > SETTLE_LIMIT {
          Fail();
        }
      }
    }

    method StartFax(kind: Kind, stack: Stack)
      modifies `fax, `switchAllowed, `modems, `over
      ensures View() == Modem(old(View()), kind, stack)
    {
      if stack.modemFails {
        Fail();
      } else {
        fax, switchAllowed, modems := Some(kind), false, modems + 1;
      }
    }

    /** In automatic mode: offer T.38, fall back, or wait. */
    method OfferOrFallBack(now: int, stack: Stack)
      requires mode == Auto && fax.None? && remote.Some? && remote.value.kind == Audio
      modifies this
      ensures View() == CallModel.Choose(old(View()), now, stack)
    {
      var due := match attempt
        case NotStarted => receiving || (connected.Some? && now - connected.value >= OFFER_AFTER)
        case Backoff(retryAt) => now >= retryAt
        case _ => false;
      if due {
        var _ := Reinvite(T38, now, stack);
      } else if attempt.Rejected? {
        StartFax(Audio, stack);
      }
    }

    method Choose(now: int, stack: Stack)
      modifies this
      ensures View() == CallModel.Choose(old(View()), now, stack)
    {
      if fax.Some? {
        return;
      }
      match remote {
        case None =>
          if connected.Some? && now - connected.value > MEDIA_LIMIT {
            Fail();
          }
        case Some(Remote(T38, _)) =>
          if !attempt.Waiting? {
            StartFax(T38, stack);
          }
        case Some(Remote(Audio, _)) =>
          match mode {
            case OnlyT38 => Fail();
            case OnlyG711 => StartFax(Audio, stack);
            case Auto => OfferOrFallBack(now, stack);
          }
      }
    }

    /** One turn; false once the call is over. */
    method Step(events: seq<Event>, now: int, cancelled: bool, stack: Stack) returns (goesOn: bool)
      requires !over
      modifies this
      ensures View() == CallModel.Step(old(View()), events, now, cancelled, stack) && goesOn == !over
    {
      if cancelled || now - started > CALL_LIMIT || (connected.None? && now - started > ANSWER_LIMIT) {
        Fail();
        return false;
      }
      Drain(events, now, stack);
      if over || connected.None? {
        return !over;
      }
      CheckOffer(now, stack);
      if !over {
        Choose(now, stack);
      }
      goesOn := !over;
    }
  }
}
