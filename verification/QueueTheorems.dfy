/**
 What every run of the queue keeps, over any number of process deaths. The
 invariant speaks about one job at a time: `At` is all a state says of a job.
 */
module QueueTheorems {
  import opened Words
  import opened QueueModel

  function Get<K, V>(m: map<K, V>, k: K): Option<V> {
    if k in m then Some(m[k]) else None
  }

  datatype Local = Local(row: Option<Row>, shown: Option<Job>, sending: Option<Job>, clearing: bool,
                         starting: bool, used: bool, dialled: nat)

  function At(s: State, id: Id): Local {
    Local(Get(s.rows, id), Get(s.view, id), Get(s.active, id), id in s.clearing, id in s.starting, id in s.used,
          s.dialled[id])
  }

  predicate SameButActivity(stored: Job, shown: Job) {
    shown == stored.(bytes := shown.bytes, progress := shown.progress)
  }

  predicate Measured(job: Job) {
    job.progress.Some? ==> job.progress.value.total > 0
  }

  /** What a stored job says of itself: a waiting one is untouched and was never dialled,
      a delivered one was dialled once and acknowledged in full. */
  predicate Truthful(job: Job, dialled: nat) {
    && (job.state.Queued? ==> dialled == 0 && job.progress.None?)
    && (job.state.Succeeded? ==> dialled == 1 && job.state.pages == job.pages)
  }

  /** A stored job is active exactly while a send runs for it, and is shown exactly
      while it is not being cleared; what is shown is what is stored, but for the
      activity of a running send. A running send has dialled once unless it is starting. */
  predicate Consistent(id: Id, l: Local) {
    && (l.row.Some? ==> l.used && l.row.value.job.id == id && l.row.value.status == StatusOf(l.row.value.job.state))
    && (l.sending.Some? <==> l.row.Some? && l.row.value.status == Active)
    && (l.sending.Some? ==> l.sending.value.id == id && IsActive(l.sending.value.state))
    && (l.clearing ==> l.sending.Some?)
    && (l.shown.Some? <==> l.row.Some? && !l.clearing)
    && (l.shown.Some? && l.sending.None? ==> l.shown == Some(l.row.value.job))
    && (l.shown.Some? && l.sending.Some? ==> l.shown == l.sending && SameButActivity(l.row.value.job, l.shown.value))
    && (l.sending.Some? ==> Measured(l.sending.value) && l.dialled == if l.starting then 0 else 1)
    && (l.starting ==> l.sending.Some?)
    && (l.row.Some? ==> Truthful(l.row.value.job, l.dialled))
    && (!l.used ==> l.dialled == 0)
    && l.dialled <= 1
  }

  // ----------------------------------------------- one action, one job

  /** 0 unknown, 1 waiting, 2 active, 3 finished, 4 removed. */
  function Phase(l: Local): nat {
    if !l.used then 0
    else if l.row.None? then 4
    else match l.row.value.status case Waiting => 1 case Active => 2 case Finished => 3
  }

  /** One action keeps what is known of a job and never takes it back. */
  predicate Keeps(id: Id, l: Local, m: Local) {
    Consistent(id, m) && Phase(l) <= Phase(m)
  }

  lemma InsertedKeeps(s: State, id: Id, pages: nat, retryOf: Option<Id>, now: int, k: Id)
    requires Consistent(k, At(s, k)) && (k == id ==> id !in s.used)
    ensures Keeps(k, At(s, k), At(Inserted(s, id, pages, retryOf, now), k))
  {
  }

  lemma CancelKeeps(s: State, id: Id, now: int, k: Id)
    requires Consistent(k, At(s, k))
    ensures Keeps(k, At(s, k), At(OnCancel(s, id, now), k))
  {
  }

  lemma ClearKeeps(s: State, k: Id)
    requires Consistent(k, At(s, k))
    ensures Keeps(k, At(s, k), At(OnClear(s), k))
  {
  }

  lemma ClaimedKeeps(s: State, id: Id, now: int, k: Id)
    requires Consistent(k, At(s, k)) && id in s.rows && s.rows[id].status == Waiting
    ensures Keeps(k, At(s, k), At(Claimed(s, id, now), k))
  {
  }

  lemma ProgressedKeeps(job: Job, progress: Progress, now: int)
    requires IsActive(job.state) && Measured(job)
    ensures var j := Progressed(job, progress, now);
      && IsActive(j.state) && Measured(j) && j.id == job.id && j.pages == job.pages
      && (ActivityOnly(progress) ==> SameButActivity(job, j))
  {
  }

  lemma RecordedKeeps(s: State, id: Id, job: Job, activity: bool, now: int)
    requires Consistent(id, At(s, id)) && id in s.active
    requires IsActive(job.state) && Measured(job) && job.id == id && job.pages == s.active[id].pages
    requires activity ==> SameButActivity(s.active[id], job)
    ensures Keeps(id, At(s, id), At(Recorded(s, id, job, activity, now), id))
  {
  }

  lemma ReportKeeps(s: State, id: Id, progress: Progress, now: int)
    requires Consistent(id, At(s, id))
    ensures Keeps(id, At(s, id), At(OnReport(s, id, progress, now), id))
  {
    if id in s.active {
      var job := Progressed(s.active[id], progress, now);
      ProgressedKeeps(s.active[id], progress, now);
      if job != s.active[id] {
        RecordedKeeps(s, id, job, ActivityOnly(progress), now);
      }
    }
  }

  lemma DoneKeeps(s: State, id: Id, outcome: Outcome, now: int)
    requires Consistent(id, At(s, id)) && Enabled(s, Done(id, outcome, now))
    ensures Keeps(id, At(s, id), At(OnDone(s, id, outcome, now), id))
  {
  }

  lemma ReportTouchesOne(s: State, id: Id, progress: Progress, now: int, k: Id)
    requires k != id
    ensures At(OnReport(s, id, progress, now), k) == At(s, k)
  {
  }

  lemma DoneTouchesOne(s: State, id: Id, outcome: Outcome, now: int, k: Id)
    requires k != id
    ensures At(OnDone(s, id, outcome, now), k) == At(s, k)
  {
  }

  lemma DialKeeps(s: State, id: Id, k: Id)
    requires Consistent(k, At(s, k)) && id in s.starting
    ensures Keeps(k, At(s, k), At(Step(s, Dial(id)), k))
  {
  }

  lemma ReopenKeeps(s: State, now: int, k: Id)
    requires Consistent(k, At(s, k))
    ensures Keeps(k, At(s, k), At(OnReopen(s, now), k))
  {
  }

  lemma StartKeeps(s: State, id: Id, now: int, spawned: bool, k: Id)
    requires Consistent(k, At(s, k)) && Enabled(s, Start(id, now, spawned))
    ensures Keeps(k, At(s, k), At(OnStart(s, id, now, spawned), k))
  {
    if MayStart(s) {
      ClaimedKeeps(s, id, now, k);
      var t := Claimed(s, id, now);
      if k == id {
        DoneKeeps(t, id, Error, now);
      } else {
        DoneTouchesOne(t, id, Error, now, k);
      }
    }
  }

  lemma StepKeeps(s: State, a: Action, k: Id)
    requires Consistent(k, At(s, k)) && Enabled(s, a)
    ensures Keeps(k, At(s, k), At(Step(s, a), k))
  {
    match a
    case Enqueue(id, pages, now) => InsertedKeeps(s, id, pages, None, now, k);
    case Retry(previous, id, now) =>
      if previous in s.rows {
        InsertedKeeps(s, id, s.rows[previous].job.pages, Some(previous), now, k);
      }
    case Cancel(id, now) => CancelKeeps(s, id, now, k);
    case Clear => ClearKeeps(s, k);
    case Start(id, now, spawned) => StartKeeps(s, id, now, spawned, k);
    case Dial(id) => DialKeeps(s, id, k);
    case Report(id, progress, now) =>
      if k == id {
        ReportKeeps(s, id, progress, now);
      } else {
        ReportTouchesOne(s, id, progress, now, k);
      }
    case Done(id, outcome, now) =>
      if k == id {
        DoneKeeps(s, id, outcome, now);
      } else {
        DoneTouchesOne(s, id, outcome, now, k);
      }
    case Stop =>
    case Reopen(now) => ReopenKeeps(s, now, k);
  }

  // ---------------------------------------------------- the whole state

  ghost predicate AllConsistent(s: State) {
    forall id :: Consistent(id, At(s, id))
  }

  ghost predicate RowsInOrder(rows: map<Id, Row>, next: nat) {
    && (forall id :: id in rows ==> rows[id].rowid < next)
    && (forall a, b :: a in rows && b in rows && a != b ==> rows[a].rowid != rows[b].rowid)
  }

  ghost predicate Inv(s: State) {
    AllConsistent(s) && RowsInOrder(s.rows, s.next) && |s.active| <= s.limit
  }

  /** Rows are rewritten in place or deleted, never renumbered. */
  predicate SameNumbers(before: map<Id, Row>, after: map<Id, Row>) {
    forall id :: id in after ==> id in before && after[id].rowid == before[id].rowid
  }

  lemma SameNumbersKeepOrder(before: map<Id, Row>, after: map<Id, Row>, next: nat)
    requires RowsInOrder(before, next) && SameNumbers(before, after)
    ensures RowsInOrder(after, next)
  {
  }

  lemma InsertKeepsOrder(rows: map<Id, Row>, id: Id, row: Row, next: nat)
    requires RowsInOrder(rows, next) && row.rowid == next
    ensures RowsInOrder(rows[id := row], next + 1)
  {
  }

  lemma StartKeepsNumbers(s: State, id: Id, now: int, spawned: bool)
    ensures SameNumbers(s.rows, OnStart(s, id, now, spawned).rows) && OnStart(s, id, now, spawned).next == s.next
  {
  }

  lemma ReportKeepsNumbers(s: State, id: Id, progress: Progress, now: int)
    ensures SameNumbers(s.rows, OnReport(s, id, progress, now).rows) && OnReport(s, id, progress, now).next == s.next
  {
  }

  lemma DoneKeepsNumbers(s: State, id: Id, outcome: Outcome, now: int)
    ensures SameNumbers(s.rows, OnDone(s, id, outcome, now).rows) && OnDone(s, id, outcome, now).next == s.next
  {
  }

  lemma StepKeepsNumbers(s: State, a: Action)
    requires !a.Enqueue? && !a.Retry?
    ensures SameNumbers(s.rows, Step(s, a).rows) && Step(s, a).next == s.next
  {
    match a
    case Start(id, now, spawned) => StartKeepsNumbers(s, id, now, spawned);
    case Report(id, progress, now) => ReportKeepsNumbers(s, id, progress, now);
    case Done(id, outcome, now) => DoneKeepsNumbers(s, id, outcome, now);
    case _ =>
  }

  lemma InsertedKeepsOrder(s: State, id: Id, pages: nat, retryOf: Option<Id>, now: int)
    requires RowsInOrder(s.rows, s.next)
    ensures var v := Inserted(s, id, pages, retryOf, now); RowsInOrder(v.rows, v.next)
  {
    InsertKeepsOrder(s.rows, id, Inserted(s, id, pages, retryOf, now).rows[id], s.next);
  }

  /** Row numbers are never reused for another row, whatever is rewritten or deleted. */
  lemma StepKeepsOrder(s: State, a: Action)
    requires RowsInOrder(s.rows, s.next)
    ensures RowsInOrder(Step(s, a).rows, Step(s, a).next)
  {
    if a.Enqueue? {
      InsertedKeepsOrder(s, a.id, a.pages, None, a.now);
    } else if a.Retry? {
      if a.previous in s.rows {
        InsertedKeepsOrder(s, a.id, s.rows[a.previous].job.pages, Some(a.previous), a.now);
      }
    } else {
      StepKeepsNumbers(s, a);
      SameNumbersKeepOrder(s.rows, Step(s, a).rows, s.next);
    }
  }

  lemma Grow<V>(m: map<Id, V>, id: Id, v: V)
    ensures |m[id := v]| <= |m| + 1
    ensures id in m ==> |m[id := v]| == |m|
  {
    assert m[id := v].Keys == m.Keys + {id};
    assert |m| == |m.Keys| && |m[id := v]| == |m[id := v].Keys|;
  }

  lemma Shrink<V>(m: map<Id, V>, id: Id)
    ensures |m - {id}| <= |m|
  {
    assert (m - {id}).Keys == m.Keys - {id};
    assert |m| == |m.Keys| && |m - {id}| == |(m - {id}).Keys|;
  }

  lemma Fewer<V>(m: map<Id, V>, kept: map<Id, V>)
    requires kept.Keys <= m.Keys
    ensures |kept| <= |m|
  {
    assert |kept| == |kept.Keys| && |m| == |m.Keys|;
    SubsetIsSmaller(kept.Keys, m.Keys);
  }

  lemma ReportKeepsLimit(s: State, id: Id, progress: Progress, now: int)
    requires |s.active| <= s.limit
    ensures OnReport(s, id, progress, now).limit == s.limit && |OnReport(s, id, progress, now).active| <= s.limit
  {
    if id in s.active {
      Grow(s.active, id, OnReport(s, id, progress, now).active[id]);
    }
  }

  lemma StartKeepsLimit(s: State, id: Id, now: int, spawned: bool)
    requires |s.active| <= s.limit
    ensures OnStart(s, id, now, spawned).limit == s.limit && |OnStart(s, id, now, spawned).active| <= s.limit
  {
    if MayStart(s) && id in s.rows {
      var t := Claimed(s, id, now);
      Grow(s.active, id, t.active[id]);
      Shrink(t.active, id);
    }
  }

  lemma DoneKeepsLimit(s: State, id: Id, outcome: Outcome, now: int)
    requires |s.active| <= s.limit
    ensures OnDone(s, id, outcome, now).limit == s.limit && |OnDone(s, id, outcome, now).active| <= s.limit
  {
    Shrink(s.active, id);
  }

  /** Requests leave the running sends alone, and a new process has none. */
  lemma OthersKeepSends(s: State, a: Action)
    requires !a.Start? && !a.Report? && !a.Done?
    ensures Step(s, a).limit == s.limit && Step(s, a).active == if a.Reopen? then map[] else s.active
  {
  }

  /** Sends in progress never exceed the configured limit. */
  lemma StepKeepsLimit(s: State, a: Action)
    requires |s.active| <= s.limit
    ensures Step(s, a).limit == s.limit && |Step(s, a).active| <= s.limit
  {
    match a
    case Start(id, now, spawned) => StartKeepsLimit(s, id, now, spawned);
    case Report(id, progress, now) => ReportKeepsLimit(s, id, progress, now);
    case Done(id, outcome, now) => DoneKeepsLimit(s, id, outcome, now);
    case _ => OthersKeepSends(s, a);
  }

  lemma StepKeepsInv(s: State, a: Action)
    requires Inv(s) && Enabled(s, a)
    ensures Inv(Step(s, a))
  {
    forall id
      ensures Consistent(id, At(Step(s, a), id))
    {
      StepKeeps(s, a, id);
    }
    StepKeepsOrder(s, a);
    StepKeepsLimit(s, a);
  }

  lemma {:induction false} RunKeepsInv(s: State, actions: seq<Action>)
    requires Inv(s) && Runs(s, actions)
    ensures Inv(After(s, actions)) && After(s, actions).limit == s.limit
    decreases |actions|
  {
    if actions != [] {
      StepKeepsInv(s, actions[0]);
      StepKeepsLimit(s, actions[0]);
      RunKeepsInv(Step(s, actions[0]), actions[1..]);
    }
  }

  lemma EmptyInv(limit: nat)
    ensures Inv(Empty(limit))
  {
  }

  // -------------------------------------------------------- main results

  /** Between any two steps of any run: the view is exactly the stored jobs not
      being cleared, equal but for the activity of running sends; the running sends
      are exactly the rows marked active, and never more than the limit. */
  lemma ViewAgreesWithStore(limit: nat, actions: seq<Action>)
    requires Runs(Empty(limit), actions)
    ensures var s := After(Empty(limit), actions);
      && s.view.Keys == s.rows.Keys - s.clearing
      && s.active.Keys == (set id | id in s.rows && s.rows[id].status == Active)
      && s.clearing <= s.active.Keys && |s.active| <= limit
      && (forall id :: id in s.view && id !in s.active ==> s.view[id] == s.rows[id].job)
      && (forall id :: id in s.view && id in s.active ==> s.view[id] == s.active[id] && SameButActivity(s.rows[id].job, s.view[id]))
  {
    EmptyInv(limit);
    RunKeepsInv(Empty(limit), actions);
    var s := After(Empty(limit), actions);
    forall id
      ensures id in s.view <==> id in s.rows && id !in s.clearing
      ensures id in s.active <==> id in s.rows && s.rows[id].status == Active
      ensures id in s.clearing ==> id in s.active
      ensures id in s.view && id !in s.active ==> s.view[id] == s.rows[id].job
      ensures id in s.view && id in s.active ==> s.view[id] == s.active[id] && SameButActivity(s.rows[id].job, s.view[id])
    {
      assert Consistent(id, At(s, id));
    }
  }

  /** However often the process dies and reopens, no job reaches the backend twice. */
  lemma AtMostOneDial(limit: nat, actions: seq<Action>, id: Id)
    requires Runs(Empty(limit), actions)
    ensures After(Empty(limit), actions).dialled[id] <= 1
  {
    EmptyInv(limit);
    RunKeepsInv(Empty(limit), actions);
    assert Consistent(id, At(After(Empty(limit), actions), id));
  }

  /** The cached view answers "is anything waiting?" exactly as the table would. */
  lemma GuardIsExact(s: State)
    requires Inv(s)
    ensures ShowsWaiting(s.view) <==> HasWaiting(s.rows)
  {
    if ShowsWaiting(s.view) {
      var id :| id in s.view && s.view[id].state.Queued?;
      assert Consistent(id, At(s, id));
      assert s.rows[id].status == Waiting;
    }
    if HasWaiting(s.rows) {
      var id :| id in s.rows && s.rows[id].status == Waiting;
      assert Consistent(id, At(s, id));
      assert s.view[id].state.Queued?;
    }
  }

  /** With room and a waiting job, a turn claims the oldest waiting job and nothing else. */
  lemma ClaimsTheOldest(s: State, id: Id, now: int)
    requires Inv(s) && Enabled(s, Start(id, now, true)) && |s.active| < s.limit && HasWaiting(s.rows)
    ensures var v := Step(s, Start(id, now, true));
      && v.active.Keys == s.active.Keys + {id} && id !in s.active && id in v.starting
      && (forall k :: k in s.rows && s.rows[k].status == Waiting && k != id ==> Before(s.rows[id], s.rows[k]) && v.rows[k] == s.rows[k])
  {
    GuardIsExact(s);
    assert Consistent(id, At(s, id));
  }

  /** A job only moves forward: once active never waiting, once finished never
      waiting or active, once removed never back; process deaths included. */
  lemma {:induction false} JobsOnlyMoveForward(s: State, actions: seq<Action>, id: Id)
    requires Inv(s) && Runs(s, actions)
    ensures Phase(At(s, id)) <= Phase(At(After(s, actions), id))
    decreases |actions|
  {
    if actions != [] {
      assert Consistent(id, At(s, id));
      StepKeeps(s, actions[0], id);
      StepKeepsInv(s, actions[0]);
      JobsOnlyMoveForward(Step(s, actions[0]), actions[1..], id);
    }
  }

  // ------------------------------------------------- clearing the queue

  /** Clearing empties the view and leaves nothing but the running sends to end. */
  lemma ClearingEmptiesTheQueue(s: State)
    requires Inv(s)
    ensures var v := Step(s, Clear); v.view == map[] && v.rows.Keys == v.clearing == v.active.Keys == s.active.Keys
  {
    forall id
      ensures id in Step(s, Clear).rows <==> id in s.active
      ensures id in s.clearing ==> id in s.active
    {
      assert Consistent(id, At(s, id));
    }
  }

  /** The row of a cleared job goes when its send ends, and with it the job. */
  lemma ClearedRowIsRemoved(s: State, id: Id, outcome: Outcome, now: int)
    requires Inv(s) && id in s.clearing
    ensures Phase(At(Step(s, Done(id, outcome, now)), id)) == 4
  {
    assert Consistent(id, At(s, id));
  }

  /** The job is in the view at some moment of the run. */
  predicate EverShown(s: State, actions: seq<Action>, id: Id)
    decreases |actions|
  {
    id in s.view || (actions != [] && EverShown(Step(s, actions[0]), actions[1..], id))
  }

  /** The process dies while the job's send is still being cleared away. */
  predicate DiesWhileClearing(s: State, actions: seq<Action>, id: Id)
    decreases |actions|
  {
    actions != [] && ((actions[0].Reopen? && id in s.clearing) || DiesWhileClearing(Step(s, actions[0]), actions[1..], id))
  }

  lemma HiddenStep(s: State, a: Action, id: Id)
    requires Consistent(id, At(s, id)) && Enabled(s, a) && id in s.used && id !in s.view
    ensures id in Step(s, a).used
    ensures id in Step(s, a).view <==> a.Reopen? && id in s.clearing
  {
    match a
    case Start(k, now, spawned) => StartKeeps(s, k, now, spawned, id);
    case Report(k, progress, now) =>
      if k != id {
        ReportTouchesOne(s, k, progress, now, id);
      }
    case Done(k, outcome, now) =>
      if k != id {
        DoneTouchesOne(s, k, outcome, now, id);
      }
    case _ =>
  }

  /** A known job that is not shown, because it was cleared, comes back into the view
      exactly when the process dies before the job's send has ended. */
  lemma {:induction false} ClearedReappearsIffDeathBeforeEnd(s: State, actions: seq<Action>, id: Id)
    requires Inv(s) && Runs(s, actions) && id in s.used && id !in s.view
    ensures EverShown(s, actions, id) <==> DiesWhileClearing(s, actions, id)
    decreases |actions|
  {
    if actions != [] {
      assert Consistent(id, At(s, id));
      HiddenStep(s, actions[0], id);
      StepKeepsInv(s, actions[0]);
      if id !in Step(s, actions[0]).view {
        ClearedReappearsIffDeathBeforeEnd(Step(s, actions[0]), actions[1..], id);
      }
    }
  }

  /** It does happen: clear the queue during a send and let the process die. */
  lemma ClearedJobReappears(s: State, id: Id, now: int)
    requires Inv(s) && id in s.active
    ensures Runs(s, [Clear, Reopen(now)])
    ensures After(s, [Clear]).view == map[]
    ensures var v := After(s, [Clear, Reopen(now)]); id in v.view && v.view[id].state == Interrupted
  {
    assert Consistent(id, At(s, id));
    assert [Clear, Reopen(now)][1..] == [Reopen(now)] && [Reopen(now)][1..] == [] && [Clear][1..] == [];
    var cleared := Step(s, Clear);
    assert After(s, [Clear]) == cleared;
    assert After(s, [Clear, Reopen(now)]) == Step(cleared, Reopen(now)) by {
      assert After(cleared, [Reopen(now)]) == Step(cleared, Reopen(now));
    }
    assert Runs(cleared, [Reopen(now)]);
  }

  /** The first send of an empty queue is such a state. */
  lemma AJobIsActive(now: int)
    ensures var actions := [Enqueue(7, 1, now), Start(7, now, true)];
      Runs(Empty(1), actions) && 7 in After(Empty(1), actions).active
  {
    var actions := [Enqueue(7, 1, now), Start(7, now, true)];
    assert actions[1..] == [Start(7, now, true)] && actions[1..][1..] == [];
    var s := Step(Empty(1), Enqueue(7, 1, now));
    assert 7 in s.view && s.view[7].state.Queued? && s.rows[7].status == Waiting;
    assert MayStart(s) && Oldest(s.rows, 7);
    assert After(s, [Start(7, now, true)]) == Step(s, Start(7, now, true));
  }

  // ------------------------------------------------------------ progress

  /** How far a page has come, as a fraction of its rows. */
  predicate PageAtMost(a: Page, b: Page) {
    a.page < b.page || (a.page == b.page && a.rows * b.total <= b.rows * a.total)
  }

  predicate AtMost(a: Job, b: Job) {
    && a.pages == b.pages && Acknowledged(a.state) <= Acknowledged(b.state) && a.bytes <= b.bytes
    && (a.progress.Some? ==> b.progress.Some? && PageAtMost(a.progress.value, b.progress.value))
    && (b.progress.Some? ==> b.progress.value.total > 0)
  }

  lemma FractionsCompose(r0: nat, t0: nat, r1: nat, t1: nat, r2: nat, t2: nat)
    requires t0 > 0 && t1 > 0 && t2 > 0 && r0 * t1 <= r1 * t0 && r1 * t2 <= r2 * t1
    ensures r0 * t2 <= r2 * t0
  {
    calc {
      (r0 * t2) * t1;
      (r0 * t1) * t2;
    <=  { TimesMonotone(r0 * t1, r1 * t0, t2); }
      (r1 * t0) * t2;
      (r1 * t2) * t0;
    <=  { TimesMonotone(r1 * t2, r2 * t1, t0); }
      (r2 * t1) * t0;
      (r2 * t0) * t1;
    }
    Unscaled(r0 * t2, r2 * t0, t1);
  }

  lemma Unscaled(a: nat, b: nat, c: nat)
    requires c > 0 && a * c <= b * c
    ensures a <= b
  {
    if a > b {
      assert a * c == b * c + (a - b) * c;
      assert (a - b) * c >= c by { TimesMonotone(1, a - b, c); }
    }
  }

  lemma AtMostComposes(a: Job, b: Job, c: Job)
    requires AtMost(a, b) && AtMost(b, c) && Measured(a)
    ensures AtMost(a, c)
  {
    if a.progress.Some? && a.progress.value.page == c.progress.value.page {
      FractionsCompose(a.progress.value.rows, a.progress.value.total, b.progress.value.rows, b.progress.value.total,
                       c.progress.value.rows, c.progress.value.total);
    }
  }

  lemma ReportsAdvance(job: Job, progress: Progress, now: int)
    requires Measured(job) && IsActive(job.state)
    ensures AtMost(job, Progressed(job, progress, now))
  {
  }

  /** The active job's own account: measured, and never behind an earlier one. */
  lemma StepAdvances(s: State, a: Action, id: Id)
    requires Inv(s) && Enabled(s, a) && id in s.active && id in Step(s, a).active
    ensures AtMost(s.active[id], Step(s, a).active[id])
  {
    assert Consistent(id, At(s, id));
    match a
    case Start(k, now, spawned) => StartKeepsOther(s, k, now, spawned, id);
    case Report(k, progress, now) =>
      if k == id {
        ReportsAdvance(s.active[id], progress, now);
        ReportShows(s, id, progress, now);
      } else {
        ReportTouchesOne(s, k, progress, now, id);
      }
    case Done(k, outcome, now) => EndedIsGone(s, k, outcome, now, id);
    case _ => OthersKeepSends(s, a);
  }

  lemma StartKeepsOther(s: State, k: Id, now: int, spawned: bool, id: Id)
    requires Enabled(s, Start(k, now, spawned)) && Consistent(id, At(s, id)) && id in s.active
    ensures Get(OnStart(s, k, now, spawned).active, id) == Get(s.active, id)
  {
    if MayStart(s) {
      DoneTouchesOther(s, k, now, id);
    }
  }

  lemma ReportShows(s: State, id: Id, progress: Progress, now: int)
    requires id in s.active
    ensures var after := OnReport(s, id, progress, now);
      id in after.active && after.active[id] == Progressed(s.active[id], progress, now).(updated := after.active[id].updated)
  {
  }

  lemma EndedIsGone(s: State, k: Id, outcome: Outcome, now: int, id: Id)
    requires id in OnDone(s, k, outcome, now).active
    ensures id in s.active && OnDone(s, k, outcome, now).active[id] == s.active[id]
  {
  }

  lemma DoneTouchesOther(s: State, k: Id, now: int, id: Id)
    requires Oldest(s.rows, k) && Consistent(id, At(s, id)) && id in s.active
    ensures id != k && At(Claimed(s, k, now), id) == At(s, id) == At(OnDone(Claimed(s, k, now), k, Error, now), id)
  {
    DoneTouchesOne(Claimed(s, k, now), k, Error, now, id);
  }

  lemma ActiveStays(s: State, actions: seq<Action>, id: Id)
    requires Inv(s) && Runs(s, actions) && actions != [] && id in s.active && id in After(s, actions).active
    ensures id in Step(s, actions[0]).active
  {
    var t := Step(s, actions[0]);
    StepKeepsInv(s, actions[0]);
    assert Consistent(id, At(s, id)) && Consistent(id, At(t, id)) by {
      StepKeeps(s, actions[0], id);
    }
    JobsOnlyMoveForward(t, actions[1..], id);
    RunKeepsInv(t, actions[1..]);
    assert Consistent(id, At(After(t, actions[1..]), id));
    StepKeeps(s, actions[0], id);
  }

  /** While a job is active, its acknowledged pages, wire bytes and page progress
      never go back, over any run. */
  lemma {:induction false} ProgressNeverGoesBack(s: State, actions: seq<Action>, id: Id)
    requires Inv(s) && Runs(s, actions) && id in s.active && id in After(s, actions).active
    ensures AtMost(s.active[id], After(s, actions).active[id])
    decreases |actions|
  {
    assert Consistent(id, At(s, id));
    if actions != [] {
      var t := Step(s, actions[0]);
      ActiveStays(s, actions, id);
      StepAdvances(s, actions[0], id);
      StepKeepsInv(s, actions[0]);
      ProgressNeverGoesBack(t, actions[1..], id);
      AtMostComposes(s.active[id], t.active[id], After(s, actions).active[id]);
    }
  }

  // ------------------------------------------------------------- endings

  /** A job ends delivered exactly when the receipt covers its document; cleared or
      not, a finished send leaves nothing active. */
  lemma DeliveredExactlyOnFullReceipt(s: State, id: Id, outcome: Outcome, now: int)
    requires Inv(s) && id in s.active && id !in s.clearing
    ensures var v := Step(s, Done(id, outcome, now));
      && id in v.rows && v.rows[id].status == Finished && id !in v.active && v.view[id] == v.rows[id].job
      && (v.rows[id].job.state.Succeeded? <==> outcome == Receipt(s.rows[id].job.pages))
  {
    assert Consistent(id, At(s, id));
  }

  /** Whatever the table calls delivered was dialled exactly once, with every page of
      the document acknowledged. */
  lemma DeliveredMeansDialledOnce(limit: nat, actions: seq<Action>, id: Id)
    requires Runs(Empty(limit), actions) && id in After(Empty(limit), actions).rows
    requires After(Empty(limit), actions).rows[id].job.state.Succeeded?
    ensures var s := After(Empty(limit), actions);
      s.dialled[id] == 1 && s.rows[id].job.state.pages == s.rows[id].job.pages
  {
    EmptyInv(limit);
    RunKeepsInv(Empty(limit), actions);
    assert Consistent(id, At(After(Empty(limit), actions), id));
  }

  /** Not dialled, and not going to be. */
  predicate Stopped(s: State, id: Id) {
    id in s.used && s.dialled[id] == 0 && (id in s.starting ==> id in s.cancelled) && (id in s.rows ==> s.rows[id].status != Waiting)
  }

  /** No step but a claim forgets a cancellation, and a claim concerns another job. */
  lemma CancellationStays(s: State, a: Action, id: Id)
    requires Inv(s) && Enabled(s, a) && Stopped(s, id)
    ensures id in Step(s, a).starting ==> id in Step(s, a).cancelled
  {
  }

  lemma StoppedStep(s: State, a: Action, id: Id)
    requires Inv(s) && Enabled(s, a) && Stopped(s, id)
    ensures Stopped(Step(s, a), id)
  {
    assert Consistent(id, At(s, id));
    StepKeeps(s, a, id);
    assert Phase(At(s, id)) >= 2;
    CancellationStays(s, a, id);
    assert a == Dial(id) ==> false;
  }

  /** Cancelling, clearing or stopping before the worker reaches the backend means the
      job is never dialled, in this process or any later one. */
  lemma {:induction false} CancelledBeforeDialIsNeverDialled(s: State, actions: seq<Action>, id: Id)
    requires Inv(s) && Runs(s, actions) && Stopped(s, id)
    ensures After(s, actions).dialled[id] == 0
    decreases |actions|
  {
    if actions != [] {
      StoppedStep(s, actions[0], id);
      StepKeepsInv(s, actions[0]);
      CancelledBeforeDialIsNeverDialled(Step(s, actions[0]), actions[1..], id);
    }
  }
}
