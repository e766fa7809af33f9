/** The apply pipeline as a state machine: applications in the database, Arq's queue of job ids,
    the workers that hold a job, and the calls that requests still owe after a commit.
    Every committed transaction and every queue operation is one step. */
module Pipeline {
  import opened Wrappers

  const MAX_TRIES: nat := 3

  type UserId = nat
  type JobId = nat
  type ResumeId = nat
  type AppId = nat
  type WorkerId = nat
  type Time = nat

  datatype Status =
    | Queued | PendingReview | Approved | Applying | Applied
    | Interview | Rejected | Offer | Withdrawn | Failed

  datatype Mode = Autonomous | Review | Batch

  datatype Note = BelowThreshold | Exhausted(tries: nat) | TimedOut | Broken | Written(text: string)

  datatype App = App(user: UserId, job: JobId, resume: Option<ResumeId>, mode: Mode,
                     status: Status, appliedAt: Option<Time>, note: Option<Note>)

  /** A live Arq job: waiting for its `try`-th invocation, or inside it. */
  datatype Ticket = Waiting(try: nat) | InProgress(try: nat)

  /** Where a worker stands between two commits of `_apply`; `Closing` is after its last one. */
  datatype Phase = Started | Loaded | Marked | Submitting | Submitted | Closing

  datatype Run = Run(app: AppId, try: nat, phase: Phase)

  /** What the history records, in order. */
  datatype Fact =
    | ApprovedBy(app: AppId)
    | Accepted(app: AppId)
    | Invoked(app: AppId)
    | Passed(app: AppId)
    | SubmitCalled(app: AppId)
    | SubmitConfirmed(app: AppId)

  datatype State = State(
    apps: map<AppId, App>,
    jobs: map<JobId, UserId>,
    resumes: map<ResumeId, UserId>,
    queue: map<AppId, Ticket>,
    workers: map<WorkerId, Run>,
    toDispatch: multiset<AppId>,
    toEnqueue: multiset<AppId>,
    log: seq<Fact>)

  datatype Failure = NotFound | Conflict | BadState

  /** How the browser submission of one invocation ends. A cancelled coroutine is either dropped
      (job timeout) or run again (worker shutdown); marking it failed is best-effort. A failure whose mark
      does not get committed ends in the same way as a cancellation whose mark fails. */
  datatype Outcome = Success | Transient | Terminal | Cancelled(marked: bool, rerun: bool)

  // ---------------------------------------------------------------- the applications table

  predicate IsActive(status: Status) {
    status != Rejected && status != Withdrawn && status != Failed
  }

  predicate Rivals(a: App, b: App) {
    a.user == b.user && a.job == b.job && IsActive(a.status) && IsActive(b.status)
  }

  /** The partial unique index: one active row per (user, job). */
  predicate IndexHolds(apps: map<AppId, App>) {
    forall a, b :: a in apps && b in apps && a != b ==> !Rivals(apps[a], apps[b])
  }

  /** Would writing `row` under `id` violate the index? */
  predicate Clashes(apps: map<AppId, App>, id: AppId, row: App) {
    exists b :: b in apps && b != id && Rivals(apps[b], row)
  }

  predicate Owned(owners: map<nat, UserId>, id: nat, user: UserId) {
    id in owners && owners[id] == user
  }

  predicate ResumeOwned(s: State, resume: Option<ResumeId>, user: UserId) {
    resume.Some? ==> Owned(s.resumes, resume.value, user)
  }

  predicate HasActive(apps: map<AppId, App>, user: UserId, job: JobId) {
    exists a :: a in apps && apps[a].user == user && apps[a].job == job && IsActive(apps[a].status)
  }

  function NewRow(user: UserId, job: JobId, resume: Option<ResumeId>, mode: Mode): App {
    App(user, job, resume, mode, Queued, None, None)
  }

  // ---------------------------------------------------------------- requests

  ghost function ActiveFor(apps: map<AppId, App>, user: UserId, job: JobId): AppId
    requires HasActive(apps, user, job)
  {
    var a :| a in apps && apps[a].user == user && apps[a].job == job && IsActive(apps[a].status);
    a
  }

  /** Create, up to its commit; the route then owes a dispatch of the row it got. */
  ghost function Create(s: State, user: UserId, job: JobId, resume: Option<ResumeId>, mode: Mode, newId: AppId)
    : (State, Result<AppId, Failure>)
    requires newId !in s.apps
  {
    if !Owned(s.jobs, job, user) || !ResumeOwned(s, resume, user) then (s, Err(NotFound))
    else if HasActive(s.apps, user, job) then
      var id := ActiveFor(s.apps, user, job);
      (s.(toDispatch := s.toDispatch + multiset{id}), Ok(id))
    else
      (s.(apps := s.apps[newId := NewRow(user, job, resume, mode)],
          toDispatch := s.toDispatch + multiset{newId}), Ok(newId))
  }

  /** The positions of a batch whose job has no active application yet, with their new ids. */
  ghost function BatchRows(apps: map<AppId, App>, user: UserId, jobs: seq<JobId>, newIds: seq<AppId>)
    : (rows: seq<(AppId, JobId)>)
    requires |newIds| == |jobs|
  {
    if jobs == [] then []
    else
      var n := |jobs| - 1;
      var before := BatchRows(apps, user, jobs[..n], newIds[..n]);
      if HasActive(apps, user, jobs[n]) then before else before + [(newIds[n], jobs[n])]
  }

  ghost function Inserted(apps: map<AppId, App>, user: UserId, resume: Option<ResumeId>, mode: Mode,
                          rows: seq<(AppId, JobId)>): map<AppId, App>
  {
    if rows == [] then apps
    else
      var n := |rows| - 1;
      Inserted(apps, user, resume, mode, rows[..n])[rows[n].0 := NewRow(user, rows[n].1, resume, mode)]
  }

  function Ids(rows: seq<(AppId, JobId)>): seq<AppId> {
    seq(|rows|, i requires 0 <= i < |rows| => rows[i].0)
  }

  predicate FreshIds(apps: map<AppId, App>, newIds: seq<AppId>) {
    (forall i :: 0 <= i < |newIds| ==> newIds[i] !in apps) &&
    (forall i, j :: 0 <= i < j < |newIds| ==> newIds[i] != newIds[j])
  }

  /** Batch create: one commit for all new rows, which the index accepts or refuses as a whole. */
  ghost function CreateBatch(s: State, user: UserId, jobs: seq<JobId>, resume: Option<ResumeId>, mode: Mode,
                             newIds: seq<AppId>): (State, Result<seq<AppId>, Failure>)
    requires |newIds| == |jobs|
  {
    if !ResumeOwned(s, resume, user) || (exists j :: j in jobs && !Owned(s.jobs, j, user)) then
      (s, Err(NotFound))
    else
      var rows := BatchRows(s.apps, user, jobs, newIds);
      var apps := Inserted(s.apps, user, resume, mode, rows);
      if !IndexHolds(apps) then (s, Err(Conflict))
      else (s.(apps := apps, toDispatch := s.toDispatch + multiset(Ids(rows))), Ok(Ids(rows)))
  }

  /** `dispatch_for_mode`, up to its commit; an autonomous row is then owed an enqueue. */
  ghost function Dispatch(s: State, id: AppId): State
    requires id in s.apps && id in s.toDispatch
  {
    var row := s.apps[id];
    var next := row.(status := if row.mode == Autonomous then Queued else PendingReview);
    var t := s.(toDispatch := s.toDispatch - multiset{id});
    if Clashes(s.apps, id, next) then t
    else if row.mode == Autonomous then
      t.(apps := s.apps[id := next], toEnqueue := s.toEnqueue + multiset{id})
    else t.(apps := s.apps[id := next])
  }

  /** `enqueue_apply`: refused while the job id is live, or when the queue is unavailable. */
  ghost function Enqueue(s: State, id: AppId, available: bool): State
    requires id in s.toEnqueue
  {
    var t := s.(toEnqueue := s.toEnqueue - multiset{id});
    if !available || id in s.queue then t
    else t.(queue := s.queue[id := Waiting(1)], log := s.log + [Accepted(id)])
  }

  predicate Staged(apps: map<AppId, App>, user: UserId, id: AppId) {
    id in apps && apps[id].user == user && (apps[id].status == PendingReview || apps[id].status == Queued)
  }

  ghost function Approve(s: State, user: UserId, id: AppId): (State, Result<AppId, Failure>) {
    if id !in s.apps || s.apps[id].user != user then (s, Err(NotFound))
    else if !Staged(s.apps, user, id) then (s, Err(BadState))
    else
      (s.(apps := s.apps[id := s.apps[id].(status := Approved)],
          toEnqueue := s.toEnqueue + multiset{id},
          log := s.log + [ApprovedBy(id)]), Ok(id))
  }

  /** The rows a bulk-approve SELECT may return: the staged ones among `ids`, each once. */
  ghost predicate Selects(apps: map<AppId, App>, user: UserId, ids: seq<AppId>, rows: seq<AppId>) {
    (forall i, j :: 0 <= i < j < |rows| ==> rows[i] != rows[j]) &&
    (forall id :: id in rows <==> id in ids && Staged(apps, user, id))
  }

  function Approvals(rows: seq<AppId>): seq<Fact> {
    seq(|rows|, i requires 0 <= i < |rows| => ApprovedBy(rows[i]))
  }

  function AllApproved(apps: map<AppId, App>, rows: seq<AppId>): map<AppId, App> {
    map id | id in apps :: if id in rows then apps[id].(status := Approved) else apps[id]
  }

  ghost function BulkApprove(s: State, rows: seq<AppId>): State {
    s.(apps := AllApproved(s.apps, rows),
       toEnqueue := s.toEnqueue + multiset(rows),
       log := s.log + Approvals(rows))
  }

  ghost function SetStatus(s: State, user: UserId, id: AppId, status: Status, note: Option<string>, now: Time)
    : (State, Result<AppId, Failure>)
  {
    if id !in s.apps || s.apps[id].user != user then (s, Err(NotFound))
    else
      var row := s.apps[id].(
        status := status,
        note := if note.Some? then Some(Written(note.value)) else s.apps[id].note,
        appliedAt := if status == Applied then Some(now) else s.apps[id].appliedAt);
      if Clashes(s.apps, id, row) then (s, Err(Conflict))
      else (s.(apps := s.apps[id := row]), Ok(id))
  }

  // ---------------------------------------------------------------- the worker

  /** Arq hands a waiting job to an idle worker and locks it. */
  ghost function Start(s: State, w: WorkerId, id: AppId): State
    requires id in s.queue
  {
    var t := s.queue[id].try;
    s.(queue := s.queue[id := InProgress(t)],
       workers := s.workers[w := Run(id, t, Started)],
       log := s.log + [Invoked(id)])
  }

  /** The job is over: its id is free again and the worker idle. */
  ghost function Finish(s: State, w: WorkerId): State
    requires w in s.workers
  {
    s.(queue := s.queue - {s.workers[w].app}, workers := s.workers - {w})
  }

  /** The worker gives the job back for its next try. */
  ghost function Requeue(s: State, w: WorkerId): State
    requires w in s.workers
  {
    s.(queue := s.queue[s.workers[w].app := Waiting(s.workers[w].try + 1)], workers := s.workers - {w})
  }

  ghost function MarkFailed(s: State, id: AppId, note: Note): State
    requires id in s.apps
  {
    s.(apps := s.apps[id := s.apps[id].(status := Failed, note := Some(note))])
  }

  ghost function MoveTo(s: State, w: WorkerId, phase: Phase): State
    requires w in s.workers
  {
    s.(workers := s.workers[w := s.workers[w].(phase := phase)])
  }

  ghost function Load(s: State, w: WorkerId): State
    requires w in s.workers
  {
    var id := s.workers[w].app;
    if id !in s.apps || s.apps[id].status == Applied then Finish(s, w)
    else MoveTo(s.(log := s.log + [Passed(id)]), w, Loaded)
  }

  /** The score gate, then the commit of the in-flight marker. */
  ghost function Gate(s: State, w: WorkerId, ok: bool): State
    requires w in s.workers && s.workers[w].app in s.apps
  {
    var id := s.workers[w].app;
    var row := s.apps[id].(status := Applying);
    if !ok then MoveTo(MarkFailed(s, id, BelowThreshold), w, Closing)
    else if Clashes(s.apps, id, row) then Finish(s, w)
    else MoveTo(s.(apps := s.apps[id := row]), w, Marked)
  }

  ghost function CallSubmission(s: State, w: WorkerId): State
    requires w in s.workers
  {
    MoveTo(s.(log := s.log + [SubmitCalled(s.workers[w].app)]), w, Submitting)
  }

  /** A timeout, a shutdown or an error that nothing catches: outside the submission, also after the last
      commit. The invocation is over without a word to the database: given back for a rerun while tries are
      left, dropped otherwise. */
  ghost function Interrupt(s: State, w: WorkerId, rerun: bool): State
    requires w in s.workers
  {
    if rerun && s.workers[w].try < MAX_TRIES then Requeue(s, w) else Finish(s, w)
  }

  ghost function Settle(s: State, w: WorkerId, outcome: Outcome): State
    requires w in s.workers && s.workers[w].app in s.apps
  {
    var Run(id, t, _) := s.workers[w];
    match outcome
    case Success => MoveTo(s.(log := s.log + [SubmitConfirmed(id)]), w, Submitted)
    case Transient => if t >= MAX_TRIES then MoveTo(MarkFailed(s, id, Exhausted(t)), w, Closing) else Requeue(s, w)
    case Terminal => MoveTo(MarkFailed(s, id, Broken), w, Closing)
    case Cancelled(marked, rerun) => Interrupt(if marked then MarkFailed(s, id, TimedOut) else s, w, rerun)
  }

  ghost function Record(s: State, w: WorkerId, now: Time): State
    requires w in s.workers && s.workers[w].app in s.apps
  {
    var id := s.workers[w].app;
    var row := s.apps[id].(status := Applied, appliedAt := Some(now));
    if Clashes(s.apps, id, row) then Finish(s, w)
    else MoveTo(s.(apps := s.apps[id := row]), w, Closing)
  }

  // ---------------------------------------------------------------- runs

  /** A transaction of a request, or the queue operation that follows one. */
  datatype Call =
    | CreateCall(user: UserId, job: JobId, resume: Option<ResumeId>, mode: Mode, newId: AppId)
    | BatchCall(user: UserId, jobs: seq<JobId>, resume: Option<ResumeId>, mode: Mode, newIds: seq<AppId>)
    | DispatchCall(id: AppId)
    | EnqueueCall(id: AppId, available: bool)
    | ApproveCall(user: UserId, id: AppId)
    | BulkCall(user: UserId, asked: seq<AppId>, rows: seq<AppId>)
    | StatusCall(user: UserId, id: AppId, status: Status, note: Option<string>, now: Time)

  /** One stretch of a worker between two commits. */
  datatype Task =
    | StartTask(id: AppId)
    | LoadTask
    | GateTask(ok: bool)
    | CallTask
    | InterruptTask(rerun: bool)
    | SettleTask(outcome: Outcome)
    | RecordTask(now: Time)
    | EndTask

  datatype Event = Calls(call: Call) | Works(w: WorkerId, task: Task)

  ghost predicate CallEnabled(s: State, c: Call) {
    match c
    case CreateCall(_, _, _, _, newId) => newId !in s.apps
    case BatchCall(_, jobs, _, _, newIds) => |newIds| == |jobs| && FreshIds(s.apps, newIds)
    case DispatchCall(id) => id in s.apps && id in s.toDispatch
    case EnqueueCall(id, _) => id in s.toEnqueue
    case ApproveCall(_, _) => true
    case BulkCall(user, asked, rows) => Selects(s.apps, user, asked, rows)
    case StatusCall(_, _, _, _, _) => true
  }

  ghost function NextCall(s: State, c: Call): State
    requires CallEnabled(s, c)
  {
    match c
    case CreateCall(user, job, resume, mode, newId) => Create(s, user, job, resume, mode, newId).0
    case BatchCall(user, jobs, resume, mode, newIds) => CreateBatch(s, user, jobs, resume, mode, newIds).0
    case DispatchCall(id) => Dispatch(s, id)
    case EnqueueCall(id, available) => Enqueue(s, id, available)
    case ApproveCall(user, id) => Approve(s, user, id).0
    case BulkCall(_, _, rows) => BulkApprove(s, rows)
    case StatusCall(user, id, status, note, now) => SetStatus(s, user, id, status, note, now).0
  }

  ghost predicate Stands(s: State, w: WorkerId, phase: Phase) {
    w in s.workers && s.workers[w].phase == phase && s.workers[w].app in s.apps
  }

  ghost predicate TaskEnabled(s: State, w: WorkerId, k: Task) {
    match k
    case StartTask(id) => w !in s.workers && id in s.queue && s.queue[id].Waiting?
    case LoadTask => w in s.workers && s.workers[w].phase == Started
    case GateTask(ok) => Stands(s, w, Loaded) && (ok || s.apps[s.workers[w].app].resume.Some?)
    case CallTask => Stands(s, w, Marked)
    case InterruptTask(_) => w in s.workers && s.workers[w].phase != Submitting
    case SettleTask(_) => Stands(s, w, Submitting)
    case RecordTask(_) => Stands(s, w, Submitted)
    case EndTask => w in s.workers && s.workers[w].phase == Closing
  }

  ghost function NextTask(s: State, w: WorkerId, k: Task): State
    requires TaskEnabled(s, w, k)
  {
    match k
    case StartTask(id) => Start(s, w, id)
    case LoadTask => Load(s, w)
    case GateTask(ok) => Gate(s, w, ok)
    case CallTask => CallSubmission(s, w)
    case InterruptTask(rerun) => Interrupt(s, w, rerun)
    case SettleTask(outcome) => Settle(s, w, outcome)
    case RecordTask(now) => Record(s, w, now)
    case EndTask => Finish(s, w)
  }

  ghost predicate Enabled(s: State, e: Event) {
    match e
    case Calls(c) => CallEnabled(s, c)
    case Works(w, k) => TaskEnabled(s, w, k)
  }

  ghost function Next(s: State, e: Event): State
    requires Enabled(s, e)
  {
    match e
    case Calls(c) => NextCall(s, c)
    case Works(w, k) => NextTask(s, w, k)
  }

  ghost predicate Initial(s: State) {
    s.apps == map[] && s.queue == map[] && s.workers == map[] &&
    s.toDispatch == multiset{} && s.toEnqueue == multiset{} && s.log == []
  }

  /** The state after a whole run, if each event was enabled when it happened. */
  ghost function After(s: State, es: seq<Event>): Option<State> {
    if es == [] then Some(s)
    else
      var n := |es| - 1;
      var m := After(s, es[..n]);
      if m.None? || !Enabled(m.value, es[n]) then None else Some(Next(m.value, es[n]))
  }
}
