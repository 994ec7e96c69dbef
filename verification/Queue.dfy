/**
 The job table and the engine actor that caches it, updated in place. Each method
 takes exactly one step of `QueueModel`.
 */
module Queue {
  import opened Words
  import opened QueueModel
  import Theorems = QueueTheorems

  lemma {:induction false} OldestOf(rows: map<Id, Row>, among: set<Id>, next: nat) returns (id: Id)
    requires Theorems.RowsInOrder(rows, next) && among <= rows.Keys && among != {}
    ensures id in among && forall other :: other in among && other != id ==> Before(rows[id], rows[other])
    decreases among
  {
    id :| id in among;
    if among != {id} {
      var rest := OldestOf(rows, among - {id}, next);
      if !Before(rows[id], rows[rest]) {
        id := rest;
      }
    }
  }

  lemma OldestExists(rows: map<Id, Row>, next: nat)
    requires Theorems.RowsInOrder(rows, next) && HasWaiting(rows)
    ensures exists id :: id in rows && Oldest(rows, id)
  {
    var among := set id | id in rows && rows[id].status == Waiting;
    var some :| some in rows && rows[some].status == Waiting;
    assert some in among;
    var id := OldestOf(rows, among, next);
    assert Oldest(rows, id);
  }

  /** The durable table. */
  class Store {
    var rows: map<Id, Row>
    var next: nat

    constructor ()
      ensures rows == map[] && next == 0
    {
      rows, next := map[], 0;
    }

    /** Jobs that were active when the last process ended are closed, one by one. */
    method Recover(now: int)
      modifies `rows
      ensures rows == RecoveredRows(old(rows), now)
    {
      var left := rows.Keys;
      while left != {}
        invariant left <= rows.Keys == old(rows.Keys)
        invariant forall id :: id in rows ==> rows[id] == if id in left then old(rows)[id] else Recovered(old(rows)[id], now)
      {
        var id :| id in left;
        var job := rows[id].job;
        if IsActive(job.state) {
          var _ := UpdateJob(job.(state := Interrupted), now, id);
        }
        left := left - {id};
      }
    }

    method Enqueue(id: Id, pages: nat, retryOf: Option<Id>, now: int) returns (job: Job)
      modifies this
      ensures job == Job(id, pages, now, Queued, retryOf, [], 0, None)
      ensures rows == old(rows)[id := Row(now, old(next), Waiting, job)] && next == old(next) + 1
    {
      job := Job(id, pages, now, Queued, retryOf, [], 0, None);
      rows, next := rows[id := Row(now, next, Waiting, job)], next + 1;
    }

    method ClaimNext(now: int) returns (job: Option<Job>, ghost claimed: Id)
      requires Theorems.RowsInOrder(rows, next)
      modifies `rows
      ensures job.None? <==> !old(HasWaiting(rows))
      ensures job.None? ==> rows == old(rows)
      ensures job.Some? ==> old(Oldest(rows, claimed))
      ensures job.Some? ==> job.value == old(rows[claimed]).job.(state := Connecting, updated := now)
      ensures job.Some? ==> rows == old(rows)[claimed := old(rows[claimed]).(status := Active, job := job.value)]
    {
      if !exists id :: id in rows && rows[id].status == Waiting {
        return None, 0;
      }
      OldestExists(rows, next);
      var id :| id in rows && Oldest(rows, id);
      var found := rows[id].job.(state := Connecting, updated := now);
      rows := rows[id := rows[id].(status := Active, job := found)];
      return Some(found), id;
    }

    /** Writes a job back with the status its state implies; false if its row is gone. */
    method UpdateJob(job: Job, now: int, id: Id) returns (ok: bool)
      modifies `rows
      ensures ok <==> id in old(rows)
      ensures rows == if ok then old(rows)[id := Stored(old(rows)[id], job.(updated := now))] else old(rows)
    {
      if id !in rows {
        return false;
      }
      var kept := job.(updated := now);
      rows := rows[id := rows[id].(status := StatusOf(kept.state), job := kept)];
      ok := true;
    }

    method ClearQueue() returns (count: nat)
      modifies `rows
      ensures rows == ActiveRows(old(rows))
      ensures count == old(|rows|) - |rows|
    {
      var kept := ActiveRows(rows);
      Theorems.Fewer(rows, kept);
      count := |rows| - |kept|;
      rows := kept;
    }

    method RemoveJob(id: Id)
      modifies `rows
      ensures rows == old(rows) - {id}
    {
      rows := rows - {id};
    }
  }

  // --------------------------------------------------------- the cached list

  ghost predicate Listed(jobs: seq<Job>, id: Id) {
    exists i :: 0 <= i < |jobs| && jobs[i].id == id
  }

  /** `jobs` lists every job of `view` exactly once. */
  ghost predicate Shows(jobs: seq<Job>, view: map<Id, Job>) {
    && (forall i :: 0 <= i < |jobs| ==> jobs[i].id in view && view[jobs[i].id] == jobs[i])
    && (forall i, j :: 0 <= i < j < |jobs| ==> jobs[i].id != jobs[j].id)
    && (forall id :: id in view ==> Listed(jobs, id))
  }

  lemma ReplacedShows(jobs: seq<Job>, view: map<Id, Job>, i: nat, job: Job)
    requires Shows(jobs, view) && i < |jobs| && jobs[i].id == job.id
    ensures Shows(jobs[i := job], view[job.id := job])
  {
    forall id | id in view
      ensures Listed(jobs[i := job], id)
    {
      var k :| 0 <= k < |jobs| && jobs[k].id == id;
      assert jobs[i := job][k].id == id;
    }
  }

  lemma PrependedShows(jobs: seq<Job>, view: map<Id, Job>, job: Job)
    requires Shows(jobs, view) && job.id !in view
    ensures Shows([job] + jobs, view[job.id := job])
  {
    assert ([job] + jobs)[0] == job;
    forall id | id in view
      ensures Listed([job] + jobs, id)
    {
      var k :| 0 <= k < |jobs| && jobs[k].id == id;
      assert ([job] + jobs)[k + 1].id == id;
    }
  }

  /** Replace the job with the same identifier, or put a new one first. */
  method Upsert(jobs: seq<Job>, job: Job, ghost view: map<Id, Job>) returns (listed: seq<Job>)
    requires Shows(jobs, view)
    ensures Shows(listed, view[job.id := job])
  {
    for i := 0 to |jobs|
      invariant forall k :: 0 <= k < i ==> jobs[k].id != job.id
    {
      if jobs[i].id == job.id {
        ReplacedShows(jobs, view, i, job);
        return jobs[i := job];
      }
    }
    assert job.id in view ==> Listed(jobs, job.id);
    PrependedShows(jobs, view, job);
    listed := [job] + jobs;
  }

  /** The rows of a freshly opened table, as the list the view starts from. */
  method ListRows(rows: map<Id, Row>) returns (jobs: seq<Job>, ghost view: map<Id, Job>)
    requires forall id :: id in rows ==> rows[id].job.id == id
    ensures Shows(jobs, view) && view == JobsOf(rows)
  {
    var left := rows.Keys;
    jobs, view := [], map[];
    while left != {}
      invariant left <= rows.Keys
      invariant view == map id | id in rows && id !in left :: rows[id].job
      invariant Shows(jobs, view)
    {
      var id :| id in left;
      PrependedShows(jobs, view, rows[id].job);
      jobs, view := [rows[id].job] + jobs, view[id := rows[id].job];
      left := left - {id};
    }
  }

  class Actor {
    const limit: nat
    const store: Store
    var jobs: seq<Job>
    var active: map<Id, Job>
    var clearActive: set<Id>
    var cancelled: set<Id>
    var stopping: bool
    ghost var view: map<Id, Job>
    ghost var starting: set<Id>
    ghost var used: set<Id>
    ghost var dialled: multiset<Id>

    ghost function View(): State
      reads this, store
    {
      State(limit, store.rows, store.next, view, active, clearActive, cancelled, starting, stopping, used, dialled)
    }

    ghost predicate Valid()
      reads this, store
    {
      && Shows(jobs, view)
      && (forall id :: id in active ==> active[id].id == id)
      && (forall id :: id in store.rows ==> store.rows[id].job.id == id)
    }

    constructor (limit: nat)
      ensures Valid() && fresh(store) && View() == Empty(limit)
    {
      this.limit := limit;
      store := new Store();
      jobs, active, clearActive, cancelled, stopping := [], map[], {}, {}, false;
      view, starting, used, dialled := map[], {}, {}, multiset{};
    }

    /** A new process opens the table an earlier one left behind. */
    constructor Open(store: Store, limit: nat, now: int, ghost before: State)
      requires before.rows == store.rows && before.next == store.next && before.limit == limit
      requires forall id :: id in store.rows ==> store.rows[id].job.id == id
      modifies store
      ensures Valid() && this.store == store && View() == Step(before, Reopen(now))
    {
      this.limit, this.store := limit, store;
      active, clearActive, cancelled, stopping := map[], {}, {}, false;
      starting, used, dialled := {}, before.used, before.dialled;
      new;
      store.Recover(now);
      jobs, view := ListRows(store.rows);
    }

    method JobChanged(job: Job)
      requires Shows(jobs, view)
      modifies `jobs, `view
      ensures Shows(jobs, view) && view == old(view)[job.id := job]
    {
      if job in jobs {
        assert view[job.id := job] == view;
      } else {
        jobs := Upsert(jobs, job, view);
        view := view[job.id := job];
      }
    }

    method Enqueue(id: Id, pages: nat, now: int) returns (job: Job)
      requires Valid() && id !in used
      modifies this, store
      ensures Valid() && View() == Step(old(View()), QueueModel.Enqueue(id, pages, now))
    {
      job := store.Enqueue(id, pages, None, now);
      used := used + {id};
      JobChanged(job);
    }

    method Retry(previous: Id, id: Id, now: int) returns (job: Option<Job>)
      requires Valid() && id !in used
      modifies this, store
      ensures Valid() && View() == OnRetry(old(View()), previous, id, now)
      ensures job.None? ==> View() == old(View())
    {
      if previous !in store.rows || !IsFinished(store.rows[previous].job.state) {
        return None;
      }
      var again := store.Enqueue(id, store.rows[previous].job.pages, Some(previous), now);
      used := used + {id};
      JobChanged(again);
      job := Some(again);
    }

    method Cancel(id: Id, now: int) returns (ok: bool)
      requires Valid()
      modifies this, store
      ensures Valid() && View() == OnCancel(old(View()), id, now)
      ensures !ok ==> View() == old(View())
    {
      if id in active {
        cancelled := cancelled + {id};
        return true;
      }
      if id !in store.rows || !store.rows[id].job.state.Queued? {
        return false;
      }
      var job := store.rows[id].job.(state := Cancelled(0));
      ok := store.UpdateJob(job, now, id);
      JobChanged(job.(updated := now));
    }

    /** Sets the cancellation of every running send, and marks it for clearing if asked. */
    method CancelRunning(clear: bool)
      modifies `cancelled, `clearActive
      ensures cancelled == old(cancelled) + active.Keys
      ensures clearActive == if clear then old(clearActive) + active.Keys else old(clearActive)
    {
      var left := active.Keys;
      while left != {}
        invariant left <= active.Keys
        invariant cancelled == old(cancelled) + (active.Keys - left)
        invariant clearActive == if clear then old(clearActive) + (active.Keys - left) else old(clearActive)
      {
        var id :| id in left;
        cancelled := cancelled + {id};
        if clear {
          clearActive := clearActive + {id};
        }
        left := left - {id};
      }
    }

    /** Cancels every running send and drops everything else. */
    method ClearQueue() returns (count: nat)
      requires Valid()
      modifies this, store
      ensures Valid() && View() == OnClear(old(View()))
    {
      CancelRunning(true);
      count := store.ClearQueue();
      jobs, view := [], map[];
    }

    method Stop()
      requires Valid()
      modifies this
      ensures Valid() && View() == Step(old(View()), QueueModel.Stop)
    {
      stopping := true;
      CancelRunning(false);
    }

    /** The worker of a claimed job checks its cancellation, then calls the backend. */
    method Dial(id: Id) returns (dials: bool)
      requires Valid() && id in starting
      modifies this
      ensures Valid() && dials == (id !in old(cancelled))
      ensures View() == if dials then Step(old(View()), QueueModel.Dial(id)) else old(View())
    {
      if id in cancelled {
        return false;
      }
      starting, dialled := starting - {id}, dialled + multiset{id};
      dials := true;
    }

    /** Record the final state, or remove the row of a cleared job. */
    method Close(id: Id, job: Job, now: int)
      requires Valid() && job.id == id
      modifies `clearActive, `jobs, `view, store`rows
      ensures Valid() && View() == Closed(old(View()), id, job.(updated := now))
    {
      if id in clearActive {
        clearActive := clearActive - {id};
        store.RemoveJob(id);
      } else {
        var ok := store.UpdateJob(job, now, id);
        if ok {
          JobChanged(job.(updated := now));
        }
      }
    }

    /** The send of `id` is over, with or without a receipt. */
    method Sent(id: Id, outcome: Outcome, now: int)
      requires Valid()
      modifies this, store
      ensures Valid() && View() == OnDone(old(View()), id, outcome, now)
    {
      if id in active {
        var job := active[id];
        active, starting := active - {id}, starting - {id};
        var state := EndState(job, outcome, stopping);
        Close(id, job.(state := state), now);
      }
    }

    method Room() returns (room: bool)
      requires Valid() && Theorems.Inv(View())
      ensures room == MayStart(View())
    {
      Theorems.GuardIsExact(View());
      room := |active| < limit && exists i :: 0 <= i < |jobs| && jobs[i].state.Queued?;
      assert room ==> ShowsWaiting(view) by {
        if room {
          var i :| 0 <= i < |jobs| && jobs[i].state.Queued?;
          assert view[jobs[i].id].state.Queued?;
        }
      }
      assert ShowsWaiting(view) ==> exists i :: 0 <= i < |jobs| && jobs[i].state.Queued? by {
        if ShowsWaiting(view) {
          var id :| id in view && view[id].state.Queued?;
          assert Listed(jobs, id);
          var i :| 0 <= i < |jobs| && jobs[i].id == id;
          assert jobs[i].state.Queued?;
        }
      }
    }

    method Claim(now: int) returns (claimed: Id)
      requires Valid() && Theorems.RowsInOrder(store.rows, store.next) && HasWaiting(store.rows)
      modifies this, store
      ensures Oldest(old(store.rows), claimed)
      ensures Valid() && View() == Claimed(old(View()), claimed, now)
    {
      var job, id := store.ClaimNext(now);
      claimed := job.value.id;
      active, starting, cancelled := active[claimed := job.value], starting + {claimed}, cancelled - {claimed};
      JobChanged(job.value);
    }

    /** Claim the oldest waiting job and spawn its worker, if there is room for one. */
    method StartSend(now: int, spawned: bool) returns (ghost claimed: Id)
      requires Valid() && Theorems.Inv(View()) && !stopping
      modifies this, store
      ensures Enabled(old(View()), Start(claimed, now, spawned))
      ensures Valid() && View() == OnStart(old(View()), claimed, now, spawned)
    {
      var room := Room();
      claimed := 0;
      if room {
        var id := Claim(now);
        claimed := id;
        if !spawned {
          Sent(id, Error, now);
        }
      }
    }

    /** Show, and unless it is mere activity store, what a report changed. */
    method Record(id: Id, report: Job, activity: bool, now: int) returns (ok: bool)
      requires Valid() && report.id == id
      modifies `active, `cancelled, `jobs, `view, store`rows
      ensures Valid() && View() == Recorded(old(View()), id, report, activity, now)
      ensures ok || id !in old(store.rows)
    {
      ok := true;
      var job := report;
      if id !in clearActive && !activity {
        ok := store.UpdateJob(job, now, id);
        job := job.(updated := now);
      }
      active := active[id := job];
      if !ok {
        cancelled := cancelled + {id};
      } else if id !in clearActive {
        JobChanged(job);
      }
    }

    /** A worker's report; false if the table no longer holds the job. */
    method Progress(id: Id, progress: QueueModel.Progress, now: int) returns (ok: bool)
      requires Valid()
      modifies this, store
      ensures Valid() && View() == OnReport(old(View()), id, progress, now)
      ensures ok || (id in old(active) && id !in old(store.rows))
    {
      ok := true;
      if id in active {
        var job := Reported(active[id], progress, now);
        if job != active[id] {
          ok := Record(id, job, ActivityOnly(progress), now);
        }
      }
    }
  }

  /** The state a job ends in; a stop turns cancellations into interruptions. */
  method EndState(job: Job, outcome: Outcome, stopping: bool) returns (state: JobState)
    ensures state == Ended(job, outcome, stopping)
  {
    match outcome {
      case Receipt(pages) => state := if pages == job.pages then Succeeded(pages) else Failed(pages);
      case Aborted => state := Cancelled(Acknowledged(job.state));
      case Error => state := Failed(Acknowledged(job.state));
    }
    if stopping && state.Cancelled? {
      state := Interrupted;
    }
  }

  /** The actor's reading of one report, step by step. */
  method Reported(before: Job, progress: QueueModel.Progress, now: int) returns (job: Job)
    ensures job == Progressed(before, progress, now)
  {
    job := before;
    match progress {
      case AtStage(stage) =>
        if job.steps == [] || job.steps[|job.steps| - 1].stage != stage {
          job := job.(steps := job.steps + [JobStep(stage, now)]);
        }
        if Acknowledged(job.state) == 0 {
          job := job.(state := StageState(stage));
        }
      case T38Activity(bytes) =>
        if bytes > job.bytes {
          job := job.(bytes := bytes);
        }
      case PageRows(page) =>
        if Advances(job.progress, page) {
          job := job.(progress := Some(page));
        }
      case PageAcknowledged(count) =>
        if count >= job.pages && (job.steps == [] || job.steps[|job.steps| - 1].stage != Confirming) {
          job := job.(steps := job.steps + [JobStep(Confirming, now)]);
        }
        job := job.(state := Sending(if count > Acknowledged(job.state) then count else Acknowledged(job.state)));
    }
  }
}
