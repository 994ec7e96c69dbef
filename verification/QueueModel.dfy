/**
 The outgoing queue: the engine actor's cached view and active sends over the
 durable job table. Every request, worker message and process death is an action.
 */
module QueueModel {
  import opened Words

  type Id = nat

  datatype Stage =
    | DialSetup | Securing | Registering | Calling | Ringing | Connected | OfferingT38 | FallingBack
    | Negotiating | SendingT38 | SendingG711 | Confirming

  datatype JobState =
    | Queued | Connecting | Negotiation | Sending(pages: nat)
    | Succeeded(pages: nat) | Failed(pages: nat) | Cancelled(pages: nat) | Interrupted

  predicate IsActive(state: JobState) {
    state.Connecting? || state.Negotiation? || state.Sending?
  }

  predicate IsFinished(state: JobState) {
    !state.Queued? && !IsActive(state)
  }

  function Acknowledged(state: JobState): nat {
    match state
    case Sending(n) => n
    case Succeeded(n) => n
    case Failed(n) => n
    case Cancelled(n) => n
    case _ => 0
  }

  /** The table's status column, derived from the job when it is written. */
  datatype Status = Waiting | Active | Finished

  function StatusOf(state: JobState): Status {
    if state.Queued? then Waiting else if IsActive(state) then Active else Finished
  }

  /** Rows of a page put on the wire so far. */
  datatype Page = Page(page: nat, rows: nat, total: nat)

  datatype JobStep = JobStep(stage: Stage, at: int)

  datatype Job = Job(id: Id, pages: nat, updated: int, state: JobState, retryOf: Option<Id>,
                     steps: seq<JobStep>, bytes: nat, progress: Option<Page>)

  datatype Row = Row(created: int, rowid: nat, status: Status, job: Job)

  /** `rows` survives the process; `used` and `dialled` record history. `starting`
      holds the claimed jobs whose worker has not reached the backend yet. */
  datatype State = State(
    limit: nat,
    rows: map<Id, Row>,
    next: nat,
    view: map<Id, Job>,
    active: map<Id, Job>,
    clearing: set<Id>,
    cancelled: set<Id>,
    starting: set<Id>,
    stopping: bool,
    used: set<Id>,
    dialled: multiset<Id>)

  function Empty(limit: nat): State {
    State(limit, map[], 0, map[], map[], {}, {}, {}, false, {}, multiset{})
  }

  // ------------------------------------------------------------ the table

  predicate Before(a: Row, b: Row) {
    a.created < b.created || (a.created == b.created && a.rowid < b.rowid)
  }

  predicate HasWaiting(rows: map<Id, Row>) {
    exists id :: id in rows && rows[id].status == Waiting
  }

  predicate Oldest(rows: map<Id, Row>, id: Id) {
    && id in rows && rows[id].status == Waiting
    && forall other :: other in rows && rows[other].status == Waiting && other != id ==> Before(rows[id], rows[other])
  }

  function Stored(row: Row, job: Job): Row {
    row.(status := StatusOf(job.state), job := job)
  }

  // ------------------------------------------------------------ progress

  datatype Progress = AtStage(stage: Stage) | PageAcknowledged(count: nat) | T38Activity(bytes: nat) | PageRows(page: Page)

  /** Page progress is replaced only by one that is not behind it. */
  predicate Advances(before: Option<Page>, page: Page) {
    && page.total > 0 && page.rows <= page.total
    && (before.None? || page.page > before.value.page
        || (page.page == before.value.page && page.rows * before.value.total >= before.value.rows * page.total))
  }

  function WithStep(job: Job, stage: Stage, now: int): Job {
    if job.steps != [] && job.steps[|job.steps| - 1].stage == stage then job
    else job.(steps := job.steps + [JobStep(stage, now)])
  }

  function StageState(stage: Stage): JobState {
    match stage
    case DialSetup | Securing | Registering | Calling | Ringing => Connecting
    case SendingT38 | SendingG711 | Confirming => Sending(0)
    case Connected | OfferingT38 | FallingBack | Negotiating => Negotiation
  }

  function Progressed(job: Job, progress: Progress, now: int): Job {
    match progress
    case AtStage(stage) =>
      var j := WithStep(job, stage, now);
      if Acknowledged(j.state) == 0 then j.(state := StageState(stage)) else j
    case T38Activity(bytes) => job.(bytes := if bytes > job.bytes then bytes else job.bytes)
    case PageRows(page) => if Advances(job.progress, page) then job.(progress := Some(page)) else job
    case PageAcknowledged(count) =>
      var j := if count >= job.pages then WithStep(job, Confirming, now) else job;
      j.(state := Sending(if count > Acknowledged(j.state) then count else Acknowledged(j.state)))
  }

  predicate ActivityOnly(progress: Progress) {
    progress.T38Activity? || progress.PageRows?
  }

  // ------------------------------------------------------------- outcome

  datatype Outcome = Receipt(pages: nat) | Aborted | Error

  function Ended(job: Job, outcome: Outcome, stopping: bool): JobState {
    match outcome
    case Receipt(pages) => if pages == job.pages then Succeeded(pages) else Failed(pages)
    case Aborted => if stopping then Interrupted else Cancelled(Acknowledged(job.state))
    case Error => Failed(Acknowledged(job.state))
  }

  // ------------------------------------------------------------- actions

  datatype Action =
    | Enqueue(id: Id, pages: nat, now: int)
    | Retry(previous: Id, id: Id, now: int)
    | Cancel(id: Id, now: int)
    | Clear
    | Start(id: Id, now: int, spawned: bool)
    | Dial(id: Id)
    | Report(id: Id, progress: Progress, now: int)
    | Done(id: Id, outcome: Outcome, now: int)
    | Stop
    | Reopen(now: int)

  function Inserted(s: State, id: Id, pages: nat, retryOf: Option<Id>, now: int): State {
    var job := Job(id, pages, now, Queued, retryOf, [], 0, None);
    s.(rows := s.rows[id := Row(now, s.next, Waiting, job)], next := s.next + 1, used := s.used + {id},
       view := s.view[id := job])
  }

  function OnRetry(s: State, previous: Id, id: Id, now: int): State {
    if previous in s.rows && IsFinished(s.rows[previous].job.state)
    then Inserted(s, id, s.rows[previous].job.pages, Some(previous), now)
    else s
  }

  function OnCancel(s: State, id: Id, now: int): State {
    if id in s.active then s.(cancelled := s.cancelled + {id})
    else if id in s.rows && s.rows[id].job.state.Queued? then
      var job := s.rows[id].job.(state := Cancelled(0), updated := now);
      s.(rows := s.rows[id := Stored(s.rows[id], job)], view := s.view[id := job])
    else s
  }

  function ActiveRows(rows: map<Id, Row>): map<Id, Row> {
    map id | id in rows && rows[id].status == Active :: rows[id]
  }

  function OnClear(s: State): State {
    s.(cancelled := s.cancelled + s.active.Keys, clearing := s.clearing + s.active.Keys,
       rows := ActiveRows(s.rows), view := map[])
  }

  predicate ShowsWaiting(view: map<Id, Job>) {
    exists id :: id in view && view[id].state.Queued?
  }

  predicate MayStart(s: State) {
    |s.active| < s.limit && ShowsWaiting(s.view) && HasWaiting(s.rows)
  }

  function Claimed(s: State, id: Id, now: int): State
    requires id in s.rows
  {
    var job := s.rows[id].job.(state := Connecting, updated := now);
    s.(rows := s.rows[id := s.rows[id].(status := Active, job := job)], active := s.active[id := job],
       view := s.view[id := job], starting := s.starting + {id}, cancelled := s.cancelled - {id})
  }

  /** A worker that cannot be spawned ends the claimed job at once. */
  function OnStart(s: State, id: Id, now: int, spawned: bool): State {
    if !MayStart(s) || id !in s.rows then s
    else if spawned then Claimed(s, id, now) else OnDone(Claimed(s, id, now), id, Error, now)
  }

  /** Activity is only shown; anything else is also stored, unless being cleared. */
  function Recorded(s: State, id: Id, job: Job, activity: bool, now: int): State {
    if id in s.clearing then s.(active := s.active[id := job])
    else if activity then s.(active := s.active[id := job], view := s.view[id := job])
    else
      var kept := job.(updated := now);
      if id !in s.rows then s.(active := s.active[id := kept], cancelled := s.cancelled + {id})
      else s.(active := s.active[id := kept], rows := s.rows[id := Stored(s.rows[id], kept)], view := s.view[id := kept])
  }

  function OnReport(s: State, id: Id, progress: Progress, now: int): State {
    if id !in s.active then s
    else
      var job := Progressed(s.active[id], progress, now);
      if job == s.active[id] then s else Recorded(s, id, job, ActivityOnly(progress), now)
  }

  /** The final state is recorded, or the row of a cleared job removed. */
  function Closed(s: State, id: Id, job: Job): State {
    if id in s.clearing then s.(clearing := s.clearing - {id}, rows := s.rows - {id})
    else if id !in s.rows then s
    else s.(rows := s.rows[id := Stored(s.rows[id], job)], view := s.view[id := job])
  }

  function OnDone(s: State, id: Id, outcome: Outcome, now: int): State {
    if id !in s.active then s
    else
      var job := s.active[id].(state := Ended(s.active[id], outcome, s.stopping), updated := now);
      Closed(s.(active := s.active - {id}, starting := s.starting - {id}), id, job)
  }

  function Recovered(row: Row, now: int): Row {
    if IsActive(row.job.state) then Stored(row, row.job.(state := Interrupted, updated := now)) else row
  }

  function RecoveredRows(rows: map<Id, Row>, now: int): map<Id, Row> {
    map id | id in rows :: Recovered(rows[id], now)
  }

  function JobsOf(rows: map<Id, Row>): map<Id, Job> {
    map id | id in rows :: rows[id].job
  }

  /** The process dies, at any moment, and the next one opens the same table. */
  function OnReopen(s: State, now: int): State {
    var rows := RecoveredRows(s.rows, now);
    State(s.limit, rows, s.next, JobsOf(rows), map[], {}, {}, {}, false, s.used, s.dialled)
  }

  function Step(s: State, a: Action): State {
    match a
    case Enqueue(id, pages, now) => Inserted(s, id, pages, None, now)
    case Retry(previous, id, now) => OnRetry(s, previous, id, now)
    case Cancel(id, now) => OnCancel(s, id, now)
    case Clear => OnClear(s)
    case Start(id, now, spawned) => OnStart(s, id, now, spawned)
    case Dial(id) => s.(starting := s.starting - {id}, dialled := s.dialled + multiset{id})
    case Report(id, progress, now) => OnReport(s, id, progress, now)
    case Done(id, outcome, now) => OnDone(s, id, outcome, now)
    case Stop => s.(stopping := true, cancelled := s.cancelled + s.active.Keys)
    case Reopen(now) => OnReopen(s, now)
  }

  /** New identifiers are new, the table yields its oldest waiting row, a worker whose
      job was cancelled does not reach the backend, and only the backend gives receipts. */
  predicate Enabled(s: State, a: Action) {
    match a
    case Enqueue(id, _, _) => id !in s.used
    case Retry(_, id, _) => id !in s.used
    case Start(id, _, _) => !s.stopping && (MayStart(s) ==> Oldest(s.rows, id))
    case Dial(id) => id in s.starting && id !in s.cancelled
    case Done(id, outcome, _) => outcome.Receipt? ==> id !in s.starting
    case _ => true
  }

  predicate Runs(s: State, actions: seq<Action>)
    decreases |actions|
  {
    actions == [] || (Enabled(s, actions[0]) && Runs(Step(s, actions[0]), actions[1..]))
  }

  function After(s: State, actions: seq<Action>): State
    decreases |actions|
  {
    if actions == [] then s else After(Step(s, actions[0]), actions[1..])
  }
}
