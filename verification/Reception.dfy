/** The actor's side of receptions, in place: offers, answers, events, recovery. */
module ReceptionInbox {
  import opened Words
  import opened ReceptionModel

  class Inbox {
    var records: map<Id, Outcome>
    var held: set<Id>
    var stopping: bool
    var mail: Mail
    var service: Service
    ghost var used: set<Id>
    ghost var stranded: set<Id>
    ghost var closed: multiset<Id>

    ghost function View(): State
      reads this
    {
      State(service, mail, Actor(held, None, stopping), Disk(records, used, stranded, closed))
    }

    constructor ()
      ensures View() == Empty()
    {
      records, held, stopping, mail, service := map[], {}, false, NO_MAIL, Service(true, {}, {});
      used, stranded, closed := {}, {}, multiset{};
    }

    /** A new process closes whatever an earlier one left receiving, one record at a time. */
    constructor Open(before: map<Id, Outcome>, ghost last: State)
      requires last.disk.records == before
      ensures View() == Step(last, Reopened)
    {
      held, stopping, mail, service := {}, false, NO_MAIL, Service(true, {}, {});
      used, stranded, closed := last.disk.used, {}, last.disk.closed + multiset(ReceptionModel.Open(before));
      records := before;
      new;
      var left := before.Keys;
      while left != {}
        invariant left <= records.Keys == before.Keys
        invariant forall id :: id in records && id !in left ==> records[id] == Closed
        invariant forall id :: id in left ==> records[id] == before[id]
        invariant View() == State(Service(true, {}, {}), NO_MAIL, Actor({}, None, false),
                                  Disk(records, last.disk.used, {}, last.disk.closed + multiset(ReceptionModel.Open(before))))
      {
        var id :| id in left;
        if records[id] == Receiving {
          records := records[id := Closed];
        }
        left := left - {id};
      }
    }

    // ------------------------------------ the service thread, as the inbox meets it

    /** The service puts an offer into the mail. */
    method OfferArrives(id: Id)
      requires service.up && id !in used
      modifies `service, `mail, `used
      ensures View() == Step(old(View()), Offered(id))
    {
      service := service.(pending := service.pending + {id});
      mail := mail.(offers := mail.offers + {id});
      used := used + {id};
    }

    method OfferExpires(id: Id)
      modifies `service
      ensures View() == Step(old(View()), Withdrawn(id))
    {
      service := service.(pending := service.pending - {id});
    }

    /** The service takes a positive answer: a call begins, or its ending is sent at once. */
    method AnswerIsTaken(id: Id, answered: bool)
      requires service.up && id in mail.admits
      modifies `service, `mail
      ensures View() == Step(old(View()), AdmitTaken(id, answered))
    {
      mail := mail.(admits := mail.admits - {id});
      if id in service.pending && answered {
        service := service.(calls := service.calls + {id});
      } else {
        mail := mail.(finished := mail.finished + multiset{id});
      }
      service := service.(pending := service.pending - {id});
    }

    method DenialIsTaken(id: Id)
      requires service.up && id in mail.denials
      modifies `service, `mail
      ensures View() == Step(old(View()), DenialTaken(id))
    {
      service := service.(pending := service.pending - {id});
      mail := mail.(denials := mail.denials - {id});
    }

    method CallReports(id: Id)
      requires id in service.calls
      modifies `mail
      ensures View() == Step(old(View()), Told(id))
    {
      mail := mail.(progress := mail.progress + multiset{id});
    }

    method CallEnds(id: Id)
      requires id in service.calls
      modifies `service, `mail
      ensures View() == Step(old(View()), CallEnded(id))
    {
      service := service.(calls := service.calls - {id});
      mail := mail.(finished := mail.finished + multiset{id});
    }

    method ServiceEnds(orderly: bool)
      requires Enabled(View(), ServiceEnded(orderly))
      modifies `service, `mail, `stranded
      ensures View() == Step(old(View()), ServiceEnded(orderly))
    {
      stranded := stranded + mail.admits;
      mail := mail.(admits := {}, denials := {}, finished := mail.finished + multiset(service.calls));
      service := Service(false, {}, {});
    }

    // ------------------------------------------------------------- the actor

    /** An offer reaches the actor; it is held, or refused if it comes too late. */
    method OfferIncoming(id: Id)
      requires id in mail.offers
      modifies `mail, `held
      ensures View() == Step(old(View()), Heard(id))
    {
      mail := mail.(offers := mail.offers - {id});
      if !stopping && id in service.pending {
        held := held + {id};
      }
    }

    method CloseRecord(id: Id)
      modifies `records, `closed
      ensures Disk(records, used, stranded, closed) == Close(old(Disk(records, used, stranded, closed)), id)
    {
      if id in records && records[id] == Receiving {
        records, closed := records[id := Closed], closed + multiset{id};
      }
    }

    /** Accepting records the reception and then answers; an answer nobody can take
        closes the record here. */
    method AcceptIncoming(id: Id, writable: bool) returns (recorded: bool)
      requires id in held
      modifies this
      ensures var reserved := Step(old(View()), Reserved(id, writable));
        View() == if reserved.actor.answering.Some? then Step(reserved, Responded) else reserved
      ensures recorded <==> !old(stopping) && writable && id in old(service.pending)
    {
      held := held - {id};
      if id !in service.pending {
        return false;
      }
      if stopping || !writable {
        mail := mail.(denials := mail.denials + {id});
        return false;
      }
      records := records[id := Receiving];
      if service.up {
        mail := mail.(admits := mail.admits + {id});
      } else {
        CloseRecord(id);
      }
      recorded := true;
    }

    method RejectIncoming(id: Id)
      modifies `held
      ensures View() == Step(old(View()), Refused(id))
    {
      held := held - {id};
    }

    method Progressed(id: Id)
      requires id in mail.progress
      modifies `mail
      ensures View() == Step(old(View()), ProgressHeard(id))
    {
      mail := mail.(progress := mail.progress - multiset{id});
    }

    /** The service's one message that a reception is over. */
    method Received(id: Id)
      requires id in mail.finished
      modifies `mail, `records, `closed
      ensures View() == Step(old(View()), FinishedHeard(id))
    {
      mail := mail.(finished := mail.finished - multiset{id});
      CloseRecord(id);
    }

    method Stop()
      modifies `held, `stopping
      ensures View() == Step(old(View()), Stopped)
    {
      held, stopping := {}, true;
    }
  }
}
