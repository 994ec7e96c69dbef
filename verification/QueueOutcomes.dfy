/** What the queue must do with each request, report and ending, and to nothing else. */
module QueueOutcomes {
  import opened Words
  import opened QueueModel
  import opened QueueTheorems

  // -------------------------------------------------------------- endings

  /** How a send ends: delivered, failed, interrupted by a stop, or cancelled, with the
      pages that are known to have arrived. */
  predicate EndsAs(job: Job, outcome: Outcome, stopping: bool, state: JobState) {
    && (state.Succeeded? <==> outcome == Receipt(job.pages))
    && (state.Failed? <==> outcome.Error? || (outcome.Receipt? && outcome.pages != job.pages))
    && (state.Interrupted? <==> outcome.Aborted? && stopping)
    && (state.Cancelled? <==> outcome.Aborted? && !stopping)
    && (!state.Interrupted? ==> Acknowledged(state) == if outcome.Receipt? then outcome.pages else Acknowledged(job.state))
  }

  /** The end of a send is stored and shown with its state, and only the state and time
      change; the row of a cleared job goes instead. No other job is touched. */
  lemma SendEndsExactly(s: State, id: Id, outcome: Outcome, now: int) returns (v: State)
    requires Inv(s) && id in s.active
    ensures v == Step(s, Done(id, outcome, now)) && v.active == s.active - {id}
    ensures id !in s.clearing ==>
      && id in v.rows && EndsAs(s.active[id], outcome, s.stopping, v.rows[id].job.state)
      && v.rows[id].job == s.active[id].(state := v.rows[id].job.state, updated := now)
      && v.rows == s.rows[id := s.rows[id].(status := Finished, job := v.rows[id].job)]
      && v.view == s.view[id := v.rows[id].job]
    ensures id in s.clearing ==> v.rows == s.rows - {id} && v.view == s.view
  {
    assert Consistent(id, At(s, id));
    v := Step(s, Done(id, outcome, now));
  }

  // -------------------------------------------------------------- reports

  /** The most pages any report has acknowledged. */
  function MostPages(reports: seq<Progress>): nat
    decreases |reports|
  {
    if reports == [] then 0
    else
      var last := reports[|reports| - 1];
      var before := MostPages(reports[..|reports| - 1]);
      if last.PageAcknowledged? then Max(before, last.count) else before
  }

  function MostBytes(reports: seq<Progress>): nat
    decreases |reports|
  {
    if reports == [] then 0
    else
      var last := reports[|reports| - 1];
      var before := MostBytes(reports[..|reports| - 1]);
      if last.T38Activity? then Max(before, last.bytes) else before
  }

  /** The stage last reported, if any. */
  function LastStage(reports: seq<Progress>): Option<Stage>
    decreases |reports|
  {
    if reports == [] then None
    else
      var last := reports[|reports| - 1];
      if last.AtStage? then Some(last.stage) else LastStage(reports[..|reports| - 1])
  }

  predicate Acknowledges(reports: seq<Progress>) {
    exists i :: 0 <= i < |reports| && reports[i].PageAcknowledged?
  }

  function Reported(job: Job, reports: seq<Progress>, times: seq<int>): Job
    requires |reports| == |times|
    decreases |reports|
  {
    if reports == [] then job
    else
      var n := |reports| - 1;
      Progressed(Reported(job, reports[..n], times[..n]), reports[n], times[n])
  }

  /** After any reports, a claimed job shows the most pages and bytes reported; and until
      a page is acknowledged, the state of the stage it is at. */
  lemma {:induction false} ReportsAreShown(job: Job, reports: seq<Progress>, times: seq<int>)
    requires |reports| == |times| && job.state == Connecting && job.bytes == 0
    ensures var v := Reported(job, reports, times);
      && Acknowledged(v.state) == MostPages(reports) && v.bytes == MostBytes(reports)
      && (!Acknowledges(reports) ==> v.state == if LastStage(reports).Some? then StageState(LastStage(reports).value) else Connecting)
      && (MostPages(reports) > 0 ==> v.state == Sending(MostPages(reports)))
      && v == job.(state := v.state, bytes := v.bytes, steps := v.steps, progress := v.progress)
    decreases |reports|
  {
    if reports != [] {
      var n := |reports| - 1;
      ReportsAreShown(job, reports[..n], times[..n]);
      assert !Acknowledges(reports) ==> !Acknowledges(reports[..n]) && !reports[n].PageAcknowledged? by {
        if Acknowledges(reports[..n]) {
          var i :| 0 <= i < n && reports[..n][i].PageAcknowledged?;
          assert reports[i].PageAcknowledged?;
        }
      }
    }
  }

  /** A stage is noted, with its time, exactly when it is not the one noted last. */
  lemma StagesAreNoted(job: Job, stage: Stage, now: int)
    ensures var v := Progressed(job, AtStage(stage), now);
      && v.steps != [] && v.steps[|v.steps| - 1].stage == stage
      && v.steps == if job.steps != [] && job.steps[|job.steps| - 1].stage == stage then job.steps else job.steps + [JobStep(stage, now)]
  {
  }

  /** The last page acknowledged is followed by the wait for the receipt. */
  lemma LastPageAwaitsReceipt(job: Job, count: nat, now: int)
    requires count >= job.pages
    ensures var v := Progressed(job, PageAcknowledged(count), now);
      v.steps != [] && v.steps[|v.steps| - 1].stage == Confirming
  {
  }

  /** A page report is shown exactly if it makes sense and is not behind the one shown. */
  lemma PageIsShownIff(job: Job, page: Page, now: int)
    requires job.progress != Some(page)
    ensures Progressed(job, PageRows(page), now).progress == Some(page) <==>
      page.total > 0 && page.rows <= page.total
      && (job.progress.None? || page.page > job.progress.value.page
          || (page.page == job.progress.value.page && page.rows * job.progress.value.total >= job.progress.value.rows * page.total))
    ensures Progressed(job, PageRows(page), now) == job || Progressed(job, PageRows(page), now).progress == Some(page)
  {
  }

  /** A report is shown at once, and stored unless it is mere activity; one for a job
      being cleared goes no further than the send itself. */
  lemma ReportIsRecorded(s: State, id: Id, progress: Progress, now: int) returns (v: State)
    requires Inv(s) && id in s.active && Progressed(s.active[id], progress, now) != s.active[id]
    ensures v == Step(s, Report(id, progress, now)) && id in s.rows
    ensures var job := Progressed(s.active[id], progress, now); var stored := job.(updated := now);
      if id in s.clearing then v == s.(active := s.active[id := job])
      else if progress.T38Activity? || progress.PageRows? then v == s.(active := s.active[id := job], view := s.view[id := job])
      else v == s.(active := s.active[id := stored], view := s.view[id := stored], rows := s.rows[id := s.rows[id].(job := stored)])
  {
    assert Consistent(id, At(s, id));
    ProgressedKeeps(s.active[id], progress, now);
    v := Step(s, Report(id, progress, now));
  }

  // ------------------------------------------------------------- requests

  /** A finished job is sent again as a new one, waiting behind all others, and the old
      one stays as it is; nothing else can be sent again. */
  lemma RetryOutcome(s: State, previous: Id, id: Id, now: int) returns (v: State)
    requires Inv(s) && Enabled(s, Retry(previous, id, now))
    ensures v == Step(s, Retry(previous, id, now))
    ensures if previous in s.rows && s.rows[previous].status == Finished then
        var job := Job(id, s.rows[previous].job.pages, now, Queued, Some(previous), [], 0, None);
        v.rows == s.rows[id := Row(now, s.next, Waiting, job)] && v.view == s.view[id := job] && v.next == s.next + 1
        && (forall k :: k in s.rows ==> s.rows[k].rowid < v.rows[id].rowid)
      else v == s
  {
    assert Consistent(previous, At(s, previous));
    v := Step(s, Retry(previous, id, now));
  }

  /** Cancelling stops a running send, closes a waiting one, and does nothing otherwise. */
  lemma CancelOutcome(s: State, id: Id, now: int) returns (v: State)
    requires Inv(s)
    ensures v == Step(s, Cancel(id, now))
    ensures
      if id in s.rows && s.rows[id].status == Active then v == s.(cancelled := s.cancelled + {id})
      else if id in s.rows && s.rows[id].status == Waiting then
        var job := s.rows[id].job.(state := Cancelled(0), updated := now);
        v == s.(rows := s.rows[id := s.rows[id].(status := Finished, job := job)], view := s.view[id := job])
      else v == s
  {
    assert Consistent(id, At(s, id));
    v := Step(s, Cancel(id, now));
  }

  /** A claimed job whose worker cannot be spawned has failed, and leaves its place. */
  lemma UnspawnedHasFailed(s: State, id: Id, now: int) returns (v: State)
    requires Inv(s) && Enabled(s, Start(id, now, false)) && MayStart(s)
    ensures v == Step(s, Start(id, now, false)) && v.active == s.active - {id} && id in v.rows && id in v.view
    ensures v.rows[id].status == Finished && v.rows[id].job == s.rows[id].job.(state := Failed(0), updated := now)
    ensures v.view[id] == v.rows[id].job && v.dialled == s.dialled
  {
    assert Consistent(id, At(s, id));
    v := Step(s, Start(id, now, false));
  }

  /** A new process shows every stored job, those that were being sent as interrupted. */
  lemma ReopenOutcome(s: State, now: int) returns (v: State)
    requires Inv(s)
    ensures v == Step(s, Reopen(now)) && v.view.Keys == v.rows.Keys == s.rows.Keys && v.active == map[]
    ensures forall id :: id in s.rows ==>
      && v.view[id] == v.rows[id].job
      && v.rows[id] == if s.rows[id].status == Active
                       then s.rows[id].(status := Finished, job := s.rows[id].job.(state := Interrupted, updated := now))
                       else s.rows[id]
  {
    v := Step(s, Reopen(now));
    forall id | id in s.rows
      ensures v.rows[id] == if s.rows[id].status == Active
                            then s.rows[id].(status := Finished, job := s.rows[id].job.(state := Interrupted, updated := now))
                            else s.rows[id]
    {
      assert Consistent(id, At(s, id));
    }
  }

  /** A new job waits behind all others, and is shown. */
  lemma EnqueueOutcome(s: State, id: Id, pages: nat, now: int) returns (v: State)
    requires Inv(s) && Enabled(s, Enqueue(id, pages, now))
    ensures v == Step(s, Enqueue(id, pages, now))
    ensures var job := Job(id, pages, now, Queued, None, [], 0, None);
      && v.rows == s.rows[id := Row(now, s.next, Waiting, job)] && v.view == s.view[id := job]
      && (forall k :: k in s.rows ==> k != id && s.rows[k].rowid < v.rows[id].rowid)
  {
    assert Consistent(id, At(s, id));
    v := Step(s, Enqueue(id, pages, now));
  }

  /** A worker that may dial reaches the backend, once; a stop, or clearing the queue,
      cancels every running send, so that none still starting does. */
  lemma DialOrCancelled(s: State, id: Id)
    requires Inv(s)
    ensures Enabled(s, Dial(id)) ==>
      Step(s, Dial(id)).dialled == s.dialled + multiset{id} && s.dialled[id] == 0 && !Enabled(Step(s, Dial(id)), Dial(id))
    ensures var v := Step(s, QueueModel.Stop);
      v.stopping && v.active == s.active && s.active.Keys <= v.cancelled && !Enabled(v, Dial(id))
    ensures var v := Step(s, Clear); v.active == s.active && s.active.Keys <= v.cancelled && !Enabled(v, Dial(id))
  {
    assert Consistent(id, At(s, id));
  }
}
