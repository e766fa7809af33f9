/** What every run of the apply pipeline keeps, whatever the interleaving. */
module PipelineSafety {
  import opened Wrappers
  import opened Pipeline

  // ---------------------------------------------------------------- the invariants

  /** Arq's lock: a job is in progress exactly while one worker holds it. */
  ghost predicate Locked(s: State) {
    (forall w :: w in s.workers ==>
      s.workers[w].app in s.queue && s.queue[s.workers[w].app] == InProgress(s.workers[w].try)) &&
    (forall v, w :: v in s.workers && w in s.workers && v != w ==> s.workers[v].app != s.workers[w].app) &&
    (forall id :: id in s.queue && s.queue[id].InProgress? ==> exists w :: w in s.workers && s.workers[w].app == id) &&
    (forall id :: id in s.queue ==> 1 <= s.queue[id].try <= MAX_TRIES)
  }

  ghost predicate Known(s: State) {
    s.queue.Keys <= s.apps.Keys &&
    (forall id :: id in s.toDispatch ==> id in s.apps) &&
    (forall id :: id in s.toEnqueue ==> id in s.apps) &&
    (forall i :: 0 <= i < |s.log| ==> s.log[i].app in s.apps)
  }

  ghost function Times(s: State, f: Fact): nat {
    multiset(s.log)[f]
  }

  /** The invocations an application's accepted enqueues have paid for. */
  ghost predicate Paid(s: State, id: AppId) {
    var accepted := Times(s, Accepted(id));
    Times(s, SubmitCalled(id)) <= Times(s, Invoked(id)) &&
    if id !in s.queue then
      Times(s, Invoked(id)) <= MAX_TRIES * accepted
    else
      accepted >= 1 &&
      (s.queue[id].Waiting? ==> Times(s, Invoked(id)) <= MAX_TRIES * (accepted - 1) + s.queue[id].try - 1) &&
      (s.queue[id].InProgress? ==> Times(s, Invoked(id)) <= MAX_TRIES * (accepted - 1) + s.queue[id].try)
  }

  /** A worker that has not called the submission yet still has its call to spend. */
  ghost predicate Unspent(s: State, w: WorkerId)
    requires w in s.workers
  {
    var id := s.workers[w].app;
    s.workers[w].phase.Started? || s.workers[w].phase.Loaded? || s.workers[w].phase.Marked? ==>
      Times(s, SubmitCalled(id)) < Times(s, Invoked(id))
  }

  /** The confirmations of an application's current job, since it was last accepted. */
  function ConfirmedSince(log: seq<Fact>, id: AppId): nat {
    if log == [] then 0
    else
      var f := log[|log| - 1];
      if f == Accepted(id) then 0
      else ConfirmedSince(log[..|log| - 1], id) + if f == SubmitConfirmed(id) then 1 else 0
  }

  /** How often a job whose submission was already confirmed was loaded again and not found applied. */
  function Reopened(log: seq<Fact>, id: AppId): nat {
    if log == [] then 0
    else
      var before, f := log[..|log| - 1], log[|log| - 1];
      Reopened(before, id) + if f == Passed(id) && ConfirmedSince(before, id) > 0 then 1 else 0
  }

  /** The confirmations still allowed: accepted enqueues and reopenings, less those there have been. */
  function Spare(log: seq<Fact>, id: AppId): int {
    multiset(log)[Accepted(id)] + Reopened(log, id) - multiset(log)[SubmitConfirmed(id)]
  }

  ghost predicate Covered(s: State, id: AppId) {
    Spare(s.log, id) >= 0 && (id in s.queue && ConfirmedSince(s.log, id) == 0 ==> Spare(s.log, id) > 0)
  }

  /** A worker on its way to a confirmation has one to spare. */
  ghost predicate Covers(s: State, w: WorkerId)
    requires w in s.workers
  {
    s.workers[w].phase.Loaded? || s.workers[w].phase.Marked? || s.workers[w].phase.Submitting? ==>
      Spare(s.log, s.workers[w].app) > 0
  }

  ghost predicate Backed(s: State) {
    (forall id :: Covered(s, id)) && (forall w :: w in s.workers ==> Covers(s, w))
  }

  ghost predicate Budgeted(s: State) {
    (forall id :: Paid(s, id)) && (forall w :: w in s.workers ==> Unspent(s, w))
  }

  /** A staged application that nobody approved is nowhere near the queue. */
  ghost predicate Held(s: State) {
    forall id :: id in s.apps && s.apps[id].mode != Autonomous && ApprovedBy(id) !in s.log
      ==> id !in s.toEnqueue && id !in s.queue
  }

  /** In the history, every submission of a staged application follows its approval. */
  ghost predicate ApprovedFirst(s: State) {
    forall i :: 0 <= i < |s.log| && s.log[i].SubmitCalled? && s.log[i].app in s.apps &&
                s.apps[s.log[i].app].mode != Autonomous
      ==> ApprovedBy(s.log[i].app) in s.log[..i]
  }

  ghost predicate Dated(s: State) {
    forall id :: id in s.apps && s.apps[id].status == Applied ==> s.apps[id].appliedAt.Some?
  }

  ghost predicate Safe(s: State) {
    IndexHolds(s.apps) && Locked(s) && Known(s) && Budgeted(s) && Backed(s) && Held(s) && ApprovedFirst(s) && Dated(s)
  }

  // ---------------------------------------------------------------- the index and the batch

  lemma {:induction false} BatchRowsCome(apps: map<AppId, App>, user: UserId, jobs: seq<JobId>, newIds: seq<AppId>,
                                         row: (AppId, JobId))
    requires |newIds| == |jobs| && row in BatchRows(apps, user, jobs, newIds)
    ensures row.0 in newIds && row.1 in jobs && !HasActive(apps, user, row.1)
  {
    var n := |jobs| - 1;
    if row in BatchRows(apps, user, jobs[..n], newIds[..n]) {
      BatchRowsCome(apps, user, jobs[..n], newIds[..n], row);
    }
  }

  lemma {:induction false} BatchRowsDiffer(apps: map<AppId, App>, user: UserId, jobs: seq<JobId>, newIds: seq<AppId>)
    requires |newIds| == |jobs| && FreshIds(apps, newIds)
    ensures var rows := BatchRows(apps, user, jobs, newIds);
      forall k, l :: 0 <= k < l < |rows| ==> rows[k].0 != rows[l].0
  {
    if jobs != [] {
      var n := |jobs| - 1;
      var before := BatchRows(apps, user, jobs[..n], newIds[..n]);
      BatchRowsDiffer(apps, user, jobs[..n], newIds[..n]);
      forall k | 0 <= k < |before|
        ensures before[k].0 != newIds[n]
      {
        BatchRowsCome(apps, user, jobs[..n], newIds[..n], before[k]);
      }
    }
  }

  lemma {:induction false} BatchRowsCover(apps: map<AppId, App>, user: UserId, jobs: seq<JobId>, newIds: seq<AppId>,
                                          j: JobId)
    returns (k: nat)
    requires |newIds| == |jobs| && j in jobs && !HasActive(apps, user, j)
    ensures k < |BatchRows(apps, user, jobs, newIds)| && BatchRows(apps, user, jobs, newIds)[k].1 == j
  {
    var n := |jobs| - 1;
    if j == jobs[n] {
      k := |BatchRows(apps, user, jobs, newIds)| - 1;
    } else {
      k := BatchRowsCover(apps, user, jobs[..n], newIds[..n], j);
    }
  }

  lemma BatchRowsShape(apps: map<AppId, App>, user: UserId, jobs: seq<JobId>, newIds: seq<AppId>)
    requires |newIds| == |jobs| && FreshIds(apps, newIds)
    ensures var rows := BatchRows(apps, user, jobs, newIds);
      && (forall k :: 0 <= k < |rows| ==>
            rows[k].0 in newIds && rows[k].1 in jobs && !HasActive(apps, user, rows[k].1))
      && (forall k, l :: 0 <= k < l < |rows| ==> rows[k].0 != rows[l].0)
      && (forall j :: j in jobs && !HasActive(apps, user, j) ==> exists k :: 0 <= k < |rows| && rows[k].1 == j)
  {
    var rows := BatchRows(apps, user, jobs, newIds);
    BatchRowsDiffer(apps, user, jobs, newIds);
    forall k | 0 <= k < |rows|
      ensures rows[k].0 in newIds && rows[k].1 in jobs && !HasActive(apps, user, rows[k].1)
    {
      BatchRowsCome(apps, user, jobs, newIds, rows[k]);
    }
    forall j | j in jobs && !HasActive(apps, user, j)
      ensures exists k :: 0 <= k < |rows| && rows[k].1 == j
    {
      var k := BatchRowsCover(apps, user, jobs, newIds, j);
    }
  }

  lemma IdsSnoc(rows: seq<(AppId, JobId)>, id: AppId)
    requires rows != []
    ensures id in Ids(rows) <==> id in Ids(rows[..|rows| - 1]) || id == rows[|rows| - 1].0
  {
    var n := |rows| - 1;
    assert Ids(rows) == Ids(rows[..n]) + [rows[n].0];
  }

  lemma {:induction false} InsertedElsewhere(apps: map<AppId, App>, user: UserId, resume: Option<ResumeId>, mode: Mode,
                                             rows: seq<(AppId, JobId)>, id: AppId)
    ensures var t := Inserted(apps, user, resume, mode, rows);
      (id in t <==> id in apps || id in Ids(rows)) && (id in apps && id !in Ids(rows) ==> t[id] == apps[id])
  {
    if rows != [] {
      IdsSnoc(rows, id);
      InsertedElsewhere(apps, user, resume, mode, rows[..|rows| - 1], id);
    }
  }

  lemma {:induction false} InsertedAt(apps: map<AppId, App>, user: UserId, resume: Option<ResumeId>, mode: Mode,
                                      rows: seq<(AppId, JobId)>, k: nat)
    requires forall k, l :: 0 <= k < l < |rows| ==> rows[k].0 != rows[l].0
    requires k < |rows|
    ensures var t := Inserted(apps, user, resume, mode, rows);
      rows[k].0 in t && t[rows[k].0] == NewRow(user, rows[k].1, resume, mode)
  {
    if k < |rows| - 1 { InsertedAt(apps, user, resume, mode, rows[..|rows| - 1], k); }
  }

  lemma InsertedRows(apps: map<AppId, App>, user: UserId, resume: Option<ResumeId>, mode: Mode,
                     rows: seq<(AppId, JobId)>)
    requires forall k, l :: 0 <= k < l < |rows| ==> rows[k].0 != rows[l].0
    ensures var t := Inserted(apps, user, resume, mode, rows);
      && (forall id: AppId :: id in t <==> id in apps || id in Ids(rows))
      && (forall id: AppId :: id in apps && id !in Ids(rows) ==> t[id] == apps[id])
      && (forall k :: 0 <= k < |rows| ==> rows[k].0 in t && t[rows[k].0] == NewRow(user, rows[k].1, resume, mode))
  {
    var t := Inserted(apps, user, resume, mode, rows);
    forall id: AppId
      ensures (id in t <==> id in apps || id in Ids(rows)) && (id in apps && id !in Ids(rows) ==> t[id] == apps[id])
    {
      InsertedElsewhere(apps, user, resume, mode, rows, id);
    }
    forall k | 0 <= k < |rows|
      ensures rows[k].0 in t && t[rows[k].0] == NewRow(user, rows[k].1, resume, mode)
    {
      InsertedAt(apps, user, resume, mode, rows, k);
    }
  }

  // ---------------------------------------------------------------- the unique index

  lemma PutKeepsIndex(apps: map<AppId, App>, id: AppId, row: App)
    requires IndexHolds(apps) && !Clashes(apps, id, row)
    ensures IndexHolds(apps[id := row])
  {
  }

  /** A row that was active may stay active, and any row may become terminal. */
  lemma PutNoClash(apps: map<AppId, App>, id: AppId, row: App)
    requires IndexHolds(apps) && id in apps && apps[id].user == row.user && apps[id].job == row.job
    requires IsActive(row.status) ==> IsActive(apps[id].status)
    ensures !Clashes(apps, id, row) && IndexHolds(apps[id := row])
  {
    forall b | b in apps && b != id
      ensures !Rivals(apps[b], row)
    {
      assert !Rivals(apps[b], apps[id]);
    }
    PutKeepsIndex(apps, id, row);
  }

  lemma BulkKeepsIndex(apps: map<AppId, App>, user: UserId, ids: seq<AppId>, rows: seq<AppId>)
    requires IndexHolds(apps) && Selects(apps, user, ids, rows)
    ensures IndexHolds(AllApproved(apps, rows))
  {
    var t := AllApproved(apps, rows);
    forall a, b | a in t && b in t && a != b
      ensures !Rivals(t[a], t[b])
    {
      assert !Rivals(apps[a], apps[b]);
      assert forall id :: id in rows ==> Staged(apps, user, id);
    }
  }

  lemma CallKeepsIndex(s: State, c: Call)
    requires IndexHolds(s.apps) && CallEnabled(s, c)
    ensures IndexHolds(NextCall(s, c).apps)
  {
    match c
    case CreateCall(user, job, resume, mode, newId) =>
      if !HasActive(s.apps, user, job) { PutKeepsIndex(s.apps, newId, NewRow(user, job, resume, mode)); }
    case BatchCall(_, _, _, _, _) =>
    case DispatchCall(id) =>
      var row := s.apps[id].(status := if s.apps[id].mode == Autonomous then Queued else PendingReview);
      if !Clashes(s.apps, id, row) { PutKeepsIndex(s.apps, id, row); }
    case EnqueueCall(_, _) =>
    case ApproveCall(user, id) =>
      if Staged(s.apps, user, id) { PutNoClash(s.apps, id, s.apps[id].(status := Approved)); }
    case BulkCall(user, asked, rows) => BulkKeepsIndex(s.apps, user, asked, rows);
    case StatusCall(user, id, status, note, now) =>
      var t := SetStatus(s, user, id, status, note, now);
      if t.1.Ok? { PutKeepsIndex(s.apps, id, t.0.apps[id]); }
  }

  lemma TaskKeepsIndex(s: State, w: WorkerId, k: Task)
    requires IndexHolds(s.apps) && TaskEnabled(s, w, k)
    ensures IndexHolds(NextTask(s, w, k).apps)
  {
    match k
    case StartTask(_) =>
    case LoadTask =>
    case GateTask(ok) =>
      var id := s.workers[w].app;
      var row := s.apps[id].(status := Applying);
      PutNoClash(s.apps, id, s.apps[id].(status := Failed, note := Some(BelowThreshold)));
      if !Clashes(s.apps, id, row) { PutKeepsIndex(s.apps, id, row); }
    case CallTask =>
    case InterruptTask(_) =>
    case SettleTask(outcome) =>
      var Run(id, t, _) := s.workers[w];
      PutNoClash(s.apps, id, s.apps[id].(status := Failed, note := Some(Exhausted(t))));
      PutNoClash(s.apps, id, s.apps[id].(status := Failed, note := Some(Broken)));
      PutNoClash(s.apps, id, s.apps[id].(status := Failed, note := Some(TimedOut)));
    case RecordTask(now) =>
      var id := s.workers[w].app;
      var row := s.apps[id].(status := Applied, appliedAt := Some(now));
      if !Clashes(s.apps, id, row) { PutKeepsIndex(s.apps, id, row); }
    case EndTask =>
  }

  // ---------------------------------------------------------------- what every step respects

  /** Rows stay, with their user, job and mode; the history is only extended. */
  ghost predicate Grows(s: State, t: State) {
    s.log <= t.log &&
    forall id :: id in s.apps ==>
      id in t.apps && t.apps[id].mode == s.apps[id].mode &&
      t.apps[id].user == s.apps[id].user && t.apps[id].job == s.apps[id].job
  }

  /** Whatever a step makes owed was autonomous, or approved; whatever it makes live was owed. */
  ghost predicate Owes(s: State, t: State) {
    (forall id :: id in t.toEnqueue ==>
      id in s.toEnqueue || (id in t.apps && t.apps[id].mode == Autonomous) || ApprovedBy(id) in t.log) &&
    (forall id :: id in t.queue ==> id in s.queue || id in s.toEnqueue)
  }

  /** New mentions are of rows, or of ids already owed or live. */
  ghost predicate Mentions(s: State, t: State) {
    (forall id :: id in t.toDispatch ==> id in s.toDispatch || id in t.apps) &&
    (forall id :: id in t.toEnqueue ==> id in s.toEnqueue || id in t.apps) &&
    (forall i :: |s.log| <= i < |t.log| ==>
      t.log[i].app in t.apps || t.log[i].app in s.toEnqueue || t.log[i].app in s.queue)
  }

  ghost predicate Dates(s: State, t: State) {
    forall id :: id in t.apps && t.apps[id].status == Applied ==>
      t.apps[id].appliedAt.Some? || (id in s.apps && t.apps[id] == s.apps[id])
  }

  ghost predicate Respects(s: State, t: State) {
    Grows(s, t) && Dates(s, t) && Owes(s, t) && Mentions(s, t)
  }

  lemma CreateRows(s: State, c: Call)
    requires c.CreateCall? && CallEnabled(s, c)
    ensures Grows(s, NextCall(s, c)) && Dates(s, NextCall(s, c))
  {
  }

  lemma CreateDues(s: State, c: Call)
    requires c.CreateCall? && CallEnabled(s, c)
    ensures Owes(s, NextCall(s, c)) && Mentions(s, NextCall(s, c))
  {
  }

  lemma BatchIds(apps: map<AppId, App>, user: UserId, jobs: seq<JobId>, newIds: seq<AppId>)
    requires |newIds| == |jobs| && FreshIds(apps, newIds)
    ensures var rows := BatchRows(apps, user, jobs, newIds);
      forall id :: id in Ids(rows) ==> id !in apps && exists k :: 0 <= k < |rows| && rows[k].0 == id
  {
    BatchRowsShape(apps, user, jobs, newIds);
    var rows := BatchRows(apps, user, jobs, newIds);
    forall k | 0 <= k < |rows|
      ensures Ids(rows)[k] == rows[k].0 && rows[k].0 !in apps
    {
      assert rows[k].0 in newIds;
    }
  }

  /** What a batch may add: rows under ids that were free, not yet applied, with their dispatches. */
  ghost predicate AddsQueued(s: State, t: State) {
    t.log == s.log && t.queue == s.queue && t.toEnqueue == s.toEnqueue &&
    (forall id :: id in s.apps ==> id in t.apps && t.apps[id] == s.apps[id]) &&
    (forall id :: id in t.apps && id !in s.apps ==> t.apps[id].status == Queued) &&
    (forall id :: id in t.toDispatch ==> id in s.toDispatch || id in t.apps)
  }

  lemma InsertedAreQueued(apps: map<AppId, App>, user: UserId, resume: Option<ResumeId>, mode: Mode,
                          rows: seq<(AppId, JobId)>)
    requires forall k, l :: 0 <= k < l < |rows| ==> rows[k].0 != rows[l].0
    requires forall id :: id in Ids(rows) ==> id !in apps
    ensures var t := Inserted(apps, user, resume, mode, rows);
      && (forall id :: id in apps ==> id in t && t[id] == apps[id])
      && (forall id :: id in t && id !in apps ==> t[id].status == Queued)
      && (forall id :: id in Ids(rows) ==> id in t)
  {
    InsertedRows(apps, user, resume, mode, rows);
    forall id | id in Ids(rows)
      ensures Inserted(apps, user, resume, mode, rows)[id].status == Queued
    {
      var k :| 0 <= k < |rows| && Ids(rows)[k] == id;
      assert rows[k].0 == id;
    }
  }

  lemma BatchAddsQueued(s: State, user: UserId, jobs: seq<JobId>, resume: Option<ResumeId>, mode: Mode,
                        newIds: seq<AppId>)
    requires |newIds| == |jobs| && FreshIds(s.apps, newIds)
    ensures AddsQueued(s, CreateBatch(s, user, jobs, resume, mode, newIds).0)
  {
    var rows := BatchRows(s.apps, user, jobs, newIds);
    BatchRowsDiffer(s.apps, user, jobs, newIds);
    BatchIds(s.apps, user, jobs, newIds);
    InsertedAreQueued(s.apps, user, resume, mode, rows);
    CreateBatchIs(s, user, jobs, resume, mode, newIds);
  }

  lemma CreateBatchIs(s: State, user: UserId, jobs: seq<JobId>, resume: Option<ResumeId>, mode: Mode,
                      newIds: seq<AppId>)
    requires |newIds| == |jobs|
    ensures var t, rows := CreateBatch(s, user, jobs, resume, mode, newIds).0, BatchRows(s.apps, user, jobs, newIds);
      t == s ||
      t == s.(apps := Inserted(s.apps, user, resume, mode, rows), toDispatch := s.toDispatch + multiset(Ids(rows)))
  {
  }

  lemma AddsQueuedRespects(s: State, t: State)
    requires AddsQueued(s, t)
    ensures Respects(s, t)
  {
  }

  lemma BatchRespects(s: State, user: UserId, jobs: seq<JobId>, resume: Option<ResumeId>, mode: Mode,
                      newIds: seq<AppId>)
    requires |newIds| == |jobs| && FreshIds(s.apps, newIds)
    ensures Respects(s, CreateBatch(s, user, jobs, resume, mode, newIds).0)
  {
    BatchAddsQueued(s, user, jobs, resume, mode, newIds);
    AddsQueuedRespects(s, CreateBatch(s, user, jobs, resume, mode, newIds).0);
  }

  /** One row rewritten in place, keeping whose it is and for which job. */
  lemma OneRow(s: State, t: State, id: AppId, row: App)
    requires id in s.apps && t.apps == s.apps[id := row] && s.log <= t.log
    requires row.mode == s.apps[id].mode && row.user == s.apps[id].user && row.job == s.apps[id].job
    requires row.status == Applied ==> row.appliedAt.Some?
    ensures Grows(s, t) && Dates(s, t)
  {
  }

  lemma DispatchRows(s: State, c: Call)
    requires c.DispatchCall? && CallEnabled(s, c)
    ensures Grows(s, NextCall(s, c)) && Dates(s, NextCall(s, c))
  {
    var t := NextCall(s, c);
    if t.apps != s.apps { OneRow(s, t, c.id, t.apps[c.id]); }
  }

  lemma DispatchDues(s: State, c: Call)
    requires c.DispatchCall? && CallEnabled(s, c)
    ensures Owes(s, NextCall(s, c)) && Mentions(s, NextCall(s, c))
  {
  }

  lemma EnqueueRows(s: State, c: Call)
    requires c.EnqueueCall? && CallEnabled(s, c)
    ensures Grows(s, NextCall(s, c)) && Dates(s, NextCall(s, c))
  {
  }

  lemma EnqueueDues(s: State, c: Call)
    requires c.EnqueueCall? && CallEnabled(s, c)
    ensures Owes(s, NextCall(s, c)) && Mentions(s, NextCall(s, c))
  {
  }

  lemma ApproveRows(s: State, c: Call)
    requires c.ApproveCall?
    ensures Grows(s, NextCall(s, c)) && Dates(s, NextCall(s, c))
  {
    var t := NextCall(s, c);
    if t.apps != s.apps { OneRow(s, t, c.id, t.apps[c.id]); }
  }

  lemma ApproveDues(s: State, c: Call)
    requires c.ApproveCall?
    ensures Owes(s, NextCall(s, c)) && Mentions(s, NextCall(s, c))
  {
    var t := NextCall(s, c);
    assert t.log == s.log || t.log[|s.log|] == ApprovedBy(c.id);
  }

  lemma BulkRows(s: State, c: Call)
    requires c.BulkCall? && CallEnabled(s, c)
    ensures Grows(s, NextCall(s, c)) && Dates(s, NextCall(s, c))
  {
  }

  lemma BulkLogs(s: State, rows: seq<AppId>)
    ensures var t := BulkApprove(s, rows);
      && (forall i :: |s.log| <= i < |t.log| ==> t.log[i].ApprovedBy? && t.log[i].app in rows)
      && (forall id :: id in rows ==> ApprovedBy(id) in t.log)
  {
    var t := BulkApprove(s, rows);
    forall id | id in rows
      ensures ApprovedBy(id) in t.log
    {
      var i :| 0 <= i < |rows| && rows[i] == id;
      assert t.log[|s.log| + i] == ApprovedBy(id);
    }
  }

  lemma BulkOwes(s: State, c: Call)
    requires c.BulkCall? && CallEnabled(s, c)
    ensures Owes(s, NextCall(s, c))
  {
    BulkLogs(s, c.rows);
  }

  lemma BulkMentions(s: State, c: Call)
    requires c.BulkCall? && CallEnabled(s, c)
    ensures Mentions(s, NextCall(s, c))
  {
    BulkLogs(s, c.rows);
    assert forall id :: id in c.rows ==> Staged(s.apps, c.user, id);
    assert forall id :: id in multiset(c.rows) <==> id in c.rows;
  }

  lemma StatusRows(s: State, c: Call)
    requires c.StatusCall?
    ensures Grows(s, NextCall(s, c)) && Dates(s, NextCall(s, c))
  {
    var t := NextCall(s, c);
    if t.apps != s.apps { OneRow(s, t, c.id, t.apps[c.id]); }
  }

  lemma StatusDues(s: State, c: Call)
    requires c.StatusCall?
    ensures Owes(s, NextCall(s, c)) && Mentions(s, NextCall(s, c))
  {
  }

  lemma TaskRows(s: State, w: WorkerId, k: Task)
    requires TaskEnabled(s, w, k)
    ensures Grows(s, NextTask(s, w, k)) && Dates(s, NextTask(s, w, k))
  {
    var t := NextTask(s, w, k);
    TaskLog(s, w, k);
    if !KeepsRows(k) && t.apps != s.apps {
      TaskRow(s, w, k);
      OneRow(s, t, s.workers[w].app, t.apps[s.workers[w].app]);
    }
  }

  predicate KeepsRows(k: Task) {
    k.StartTask? || k.LoadTask? || k.CallTask? || k.InterruptTask? || k.EndTask?
  }

  lemma TaskLog(s: State, w: WorkerId, k: Task)
    requires TaskEnabled(s, w, k)
    ensures s.log <= NextTask(s, w, k).log
    ensures KeepsRows(k) ==> NextTask(s, w, k).apps == s.apps
  {
    if k.SettleTask? { SettleLog(s, w, k.outcome); }
  }

  lemma SettleLog(s: State, w: WorkerId, outcome: Outcome)
    requires Stands(s, w, Submitting)
    ensures s.log <= Settle(s, w, outcome).log
  {
  }

  /** A worker rewrites at most its own row, and not whose it is. */
  ghost predicate OwnRow(s: State, t: State, id: AppId) {
    id in s.apps && id in t.apps && t.apps == s.apps[id := t.apps[id]] &&
    (t.apps[id] == s.apps[id] ||
     (t.apps[id].mode == s.apps[id].mode && t.apps[id].user == s.apps[id].user && t.apps[id].job == s.apps[id].job &&
      (t.apps[id].status == Applied ==> t.apps[id].appliedAt.Some?)))
  }

  lemma SameRows(s: State, t: State, id: AppId)
    requires id in s.apps && t.apps == s.apps
    ensures OwnRow(s, t, id)
  {
    assert s.apps == s.apps[id := s.apps[id]];
  }

  lemma GateRow(s: State, w: WorkerId, ok: bool)
    requires Stands(s, w, Loaded)
    ensures OwnRow(s, Gate(s, w, ok), s.workers[w].app)
  {
    if Gate(s, w, ok).apps == s.apps { SameRows(s, Gate(s, w, ok), s.workers[w].app); }
  }

  lemma InterruptRows(s: State, w: WorkerId, rerun: bool)
    requires w in s.workers
    ensures Interrupt(s, w, rerun).apps == s.apps
  {
  }

  lemma SettleRow(s: State, w: WorkerId, outcome: Outcome)
    requires Stands(s, w, Submitting)
    ensures OwnRow(s, Settle(s, w, outcome), s.workers[w].app)
  {
    if outcome.Cancelled? {
      InterruptRows(if outcome.marked then MarkFailed(s, s.workers[w].app, TimedOut) else s, w, outcome.rerun);
    }
    if Settle(s, w, outcome).apps == s.apps { SameRows(s, Settle(s, w, outcome), s.workers[w].app); }
  }

  lemma RecordRow(s: State, w: WorkerId, now: Time)
    requires Stands(s, w, Submitted)
    ensures OwnRow(s, Record(s, w, now), s.workers[w].app)
  {
    if Record(s, w, now).apps == s.apps { SameRows(s, Record(s, w, now), s.workers[w].app); }
  }

  lemma TaskRow(s: State, w: WorkerId, k: Task)
    requires TaskEnabled(s, w, k) && !KeepsRows(k)
    ensures OwnRow(s, NextTask(s, w, k), s.workers[w].app)
  {
    match k
    case GateTask(ok) => GateRow(s, w, ok);
    case SettleTask(outcome) => SettleRow(s, w, outcome);
    case RecordTask(now) => RecordRow(s, w, now);
  }

  lemma TaskOwesNothing(s: State, w: WorkerId, k: Task)
    requires TaskEnabled(s, w, k)
    ensures NextTask(s, w, k).toDispatch == s.toDispatch && NextTask(s, w, k).toEnqueue == s.toEnqueue
  {
  }

  lemma EffectDues(s: State, t: State)
    requires Locked(s) && t.toDispatch == s.toDispatch && t.toEnqueue == s.toEnqueue
    requires || (exists w, id :: Invokes(s, t, w, id)) || (exists w :: Releases(s, t, w) || GivesBack(s, t, w))
             || (exists w :: Advances(s, t, w))
    ensures Owes(s, t) && Mentions(s, t)
  {
    if w :| Advances(s, t, w) {
      assert s.workers[w].app in s.queue;
    } else if w :| Releases(s, t, w) || GivesBack(s, t, w) {
      assert s.workers[w].app in s.queue;
    }
  }

  lemma TaskDues(s: State, w: WorkerId, k: Task)
    requires TaskEnabled(s, w, k) && Locked(s)
    ensures Owes(s, NextTask(s, w, k)) && Mentions(s, NextTask(s, w, k))
  {
    TaskEffect(s, w, k);
    TaskOwesNothing(s, w, k);
    EffectDues(s, NextTask(s, w, k));
  }

  lemma NextRespects(s: State, e: Event)
    requires Enabled(s, e) && Locked(s)
    ensures Respects(s, Next(s, e))
  {
    match e
    case Works(w, k) =>
      TaskRows(s, w, k);
      TaskDues(s, w, k);
    case Calls(c) =>
      match c {
        case CreateCall(_, _, _, _, _) =>
          CreateRows(s, c);
          CreateDues(s, c);
        case BatchCall(user, jobs, resume, mode, newIds) => BatchRespects(s, user, jobs, resume, mode, newIds);
        case DispatchCall(_) =>
          DispatchRows(s, c);
          DispatchDues(s, c);
        case EnqueueCall(_, _) =>
          EnqueueRows(s, c);
          EnqueueDues(s, c);
        case ApproveCall(_, _) =>
          ApproveRows(s, c);
          ApproveDues(s, c);
        case BulkCall(_, _, _) =>
          BulkRows(s, c);
          BulkOwes(s, c);
          BulkMentions(s, c);
        case StatusCall(_, _, _, _, _) =>
          StatusRows(s, c);
          StatusDues(s, c);
      }
  }

  // ---------------------------------------------------------------- what a step does to queue, workers and history

  /** A request touches the queue only to add a job id that is not live. */
  ghost predicate OnlyApproves(s: State, t: State) {
    t.queue == s.queue && t.workers == s.workers && s.log <= t.log &&
    forall i :: |s.log| <= i < |t.log| ==> t.log[i].ApprovedBy?
  }

  ghost predicate Accepts(s: State, t: State, id: AppId) {
    id !in s.queue && t.queue == s.queue[id := Waiting(1)] && t.workers == s.workers &&
    t.log == s.log + [Accepted(id)]
  }

  ghost predicate Invokes(s: State, t: State, w: WorkerId, id: AppId) {
    w !in s.workers && id in s.queue && s.queue[id].Waiting? &&
    t.queue == s.queue[id := InProgress(s.queue[id].try)] &&
    t.workers == s.workers[w := Run(id, s.queue[id].try, Started)] &&
    t.log == s.log + [Invoked(id)]
  }

  ghost predicate Releases(s: State, t: State, w: WorkerId) {
    w in s.workers && t.queue == s.queue - {s.workers[w].app} && t.workers == s.workers - {w} && t.log == s.log
  }

  ghost predicate GivesBack(s: State, t: State, w: WorkerId) {
    w in s.workers && s.workers[w].try < MAX_TRIES &&
    t.queue == s.queue[s.workers[w].app := Waiting(s.workers[w].try + 1)] &&
    t.workers == s.workers - {w} && t.log == s.log
  }

  /** A worker goes on to its next phase, leaving the mark of that phase in the history. */
  ghost predicate Advances(s: State, t: State, w: WorkerId) {
    w in s.workers && w in t.workers && t.queue == s.queue &&
    t.workers == s.workers[w := s.workers[w].(phase := t.workers[w].phase)] &&
    match (s.workers[w].phase, t.workers[w].phase)
    case (Started, Loaded) => t.log == s.log + [Passed(s.workers[w].app)]
    case (Loaded, Marked) => t.log == s.log
    case (Marked, Submitting) => t.log == s.log + [SubmitCalled(s.workers[w].app)]
    case (Submitting, Submitted) => t.log == s.log + [SubmitConfirmed(s.workers[w].app)]
    case (Loaded, Closing) => t.log == s.log
    case (Submitting, Closing) => t.log == s.log
    case (Submitted, Closing) => t.log == s.log
    case _ => false
  }

  ghost predicate Quiet(s: State, t: State) {
    t.queue == s.queue && t.workers == s.workers && t.log == s.log
  }

  lemma CreateIsQuiet(s: State, c: Call)
    requires c.CreateCall? && CallEnabled(s, c)
    ensures Quiet(s, NextCall(s, c))
  {
  }

  lemma BatchIsQuiet(s: State, c: Call)
    requires c.BatchCall? && CallEnabled(s, c)
    ensures Quiet(s, NextCall(s, c))
  {
  }

  lemma DispatchIsQuiet(s: State, c: Call)
    requires c.DispatchCall? && CallEnabled(s, c)
    ensures Quiet(s, NextCall(s, c))
  {
  }

  lemma StatusIsQuiet(s: State, c: Call)
    requires c.StatusCall?
    ensures Quiet(s, NextCall(s, c))
  {
  }

  lemma ApproveEffect(s: State, c: Call)
    requires c.ApproveCall?
    ensures OnlyApproves(s, NextCall(s, c))
  {
  }

  lemma BulkEffect(s: State, c: Call)
    requires c.BulkCall? && CallEnabled(s, c)
    ensures OnlyApproves(s, NextCall(s, c))
  {
  }

  lemma EnqueueEffect(s: State, c: Call)
    requires c.EnqueueCall? && CallEnabled(s, c)
    ensures OnlyApproves(s, NextCall(s, c)) || Accepts(s, NextCall(s, c), c.id)
  {
  }

  lemma CallEffect(s: State, c: Call)
    requires CallEnabled(s, c)
    ensures OnlyApproves(s, NextCall(s, c)) || (c.EnqueueCall? && Accepts(s, NextCall(s, c), c.id))
  {
    match c
    case CreateCall(_, _, _, _, _) => CreateIsQuiet(s, c);
    case BatchCall(_, _, _, _, _) => BatchIsQuiet(s, c);
    case DispatchCall(_) => DispatchIsQuiet(s, c);
    case EnqueueCall(_, _) => EnqueueEffect(s, c);
    case ApproveCall(_, _) => ApproveEffect(s, c);
    case BulkCall(_, _, _) => BulkEffect(s, c);
    case StatusCall(_, _, _, _, _) => StatusIsQuiet(s, c);
  }

  lemma InterruptEffect(s: State, w: WorkerId, rerun: bool)
    requires w in s.workers
    ensures var t := Interrupt(s, w, rerun); Releases(s, t, w) || GivesBack(s, t, w)
  {
  }

  lemma CancelledEffect(s: State, w: WorkerId, outcome: Outcome)
    requires Stands(s, w, Submitting) && outcome.Cancelled?
    ensures var t := Settle(s, w, outcome); Releases(s, t, w) || GivesBack(s, t, w)
  {
    InterruptEffect(if outcome.marked then MarkFailed(s, s.workers[w].app, TimedOut) else s, w, outcome.rerun);
  }

  lemma SettleEffect(s: State, w: WorkerId, outcome: Outcome)
    requires Stands(s, w, Submitting)
    ensures var t := Settle(s, w, outcome); Releases(s, t, w) || GivesBack(s, t, w) || Advances(s, t, w)
  {
    if outcome.Cancelled? { CancelledEffect(s, w, outcome); }
  }

  lemma GateEffect(s: State, w: WorkerId, ok: bool)
    requires Stands(s, w, Loaded)
    ensures var t := Gate(s, w, ok); Releases(s, t, w) || Advances(s, t, w)
  {
  }

  lemma TaskEffect(s: State, w: WorkerId, k: Task)
    requires TaskEnabled(s, w, k)
    ensures var t := NextTask(s, w, k);
      || (k.StartTask? && Invokes(s, t, w, k.id)) || Releases(s, t, w) || GivesBack(s, t, w) || Advances(s, t, w)
  {
    match k
    case StartTask(_) =>
    case LoadTask =>
    case GateTask(ok) => GateEffect(s, w, ok);
    case CallTask =>
    case InterruptTask(rerun) => InterruptEffect(s, w, rerun);
    case SettleTask(outcome) => SettleEffect(s, w, outcome);
    case RecordTask(_) =>
    case EndTask =>
  }

  /** The step relation the control invariants are proved against. */
  ghost predicate Effect(s: State, t: State) {
    || OnlyApproves(s, t)
    || (exists id :: Accepts(s, t, id))
    || (exists w, id :: Invokes(s, t, w, id))
    || (exists w :: Releases(s, t, w))
    || (exists w :: GivesBack(s, t, w))
    || (exists w :: Advances(s, t, w))
  }

  lemma NextEffect(s: State, e: Event)
    requires Enabled(s, e)
    ensures Effect(s, Next(s, e))
  {
    match e
    case Calls(c) => CallEffect(s, c);
    case Works(w, k) => TaskEffect(s, w, k);
  }

  // ---------------------------------------------------------------- the lock

  lemma InvokeKeepsLock(s: State, t: State, w: WorkerId, id: AppId)
    requires Locked(s) && Invokes(s, t, w, id)
    ensures Locked(t)
  {
    assert t.workers[w].app == id;
    forall a | a in t.queue && t.queue[a].InProgress? && a != id
      ensures exists v :: v in t.workers && t.workers[v].app == a
    {
      var v :| v in s.workers && s.workers[v].app == a;
      assert v in t.workers;
    }
  }

  lemma AdvanceKeepsLock(s: State, t: State, w: WorkerId)
    requires Locked(s) && Advances(s, t, w)
    ensures Locked(t)
  {
    forall id | id in t.queue && t.queue[id].InProgress?
      ensures exists v :: v in t.workers && t.workers[v].app == id
    {
      var v :| v in s.workers && s.workers[v].app == id;
      assert v in t.workers && t.workers[v].app == id;
    }
  }

  lemma ReleaseKeepsLock(s: State, t: State, w: WorkerId)
    requires Locked(s) && (Releases(s, t, w) || GivesBack(s, t, w))
    ensures Locked(t)
  {
    forall id | id in t.queue && t.queue[id].InProgress?
      ensures exists v :: v in t.workers && t.workers[v].app == id
    {
      var v :| v in s.workers && s.workers[v].app == id;
      assert v in t.workers && t.workers[v].app == id;
    }
  }

  lemma EffectKeepsLock(s: State, t: State)
    requires Locked(s) && Effect(s, t)
    ensures Locked(t)
  {
    if w, id :| Invokes(s, t, w, id) {
      InvokeKeepsLock(s, t, w, id);
    } else if w :| Advances(s, t, w) {
      AdvanceKeepsLock(s, t, w);
    } else if w :| Releases(s, t, w) || GivesBack(s, t, w) {
      ReleaseKeepsLock(s, t, w);
    }
  }

  // ---------------------------------------------------------------- the budget

  lemma OneMore(s: State, t: State, f: Fact)
    requires t.log == s.log + [f]
    ensures forall g :: Times(t, g) == Times(s, g) + (if g == f then 1 else 0)
  {
    assert multiset(t.log) == multiset(s.log) + multiset{f};
  }

  lemma OnlyApprovals(s: State, t: State)
    requires OnlyApproves(s, t)
    ensures forall g: Fact :: !g.ApprovedBy? ==> Times(t, g) == Times(s, g)
  {
    var more := t.log[|s.log|..];
    assert t.log == s.log + more;
    assert multiset(t.log) == multiset(s.log) + multiset(more);
    forall g: Fact | !g.ApprovedBy?
      ensures g !in more
    {
    }
  }

  lemma AcceptKeepsBudget(s: State, t: State, id: AppId)
    requires Budgeted(s) && Locked(s) && Accepts(s, t, id)
    ensures Budgeted(t)
  {
    OneMore(s, t, Accepted(id));
    assert Paid(s, id);
    forall a
      ensures Paid(t, a)
    {
      assert Paid(s, a);
    }
    forall w | w in t.workers
      ensures Unspent(t, w)
    {
      assert Unspent(s, w);
    }
  }

  lemma InvokeCounts(s: State, t: State, w: WorkerId, id: AppId, a: AppId)
    requires Invokes(s, t, w, id)
    ensures Times(t, Accepted(a)) == Times(s, Accepted(a))
    ensures Times(t, Invoked(a)) == Times(s, Invoked(a)) + (if a == id then 1 else 0)
    ensures Times(t, SubmitCalled(a)) == Times(s, SubmitCalled(a))
  {
    OneMore(s, t, Invoked(id));
  }

  lemma InvokePays(s: State, t: State, w: WorkerId, id: AppId, a: AppId)
    requires Budgeted(s) && Locked(s) && Invokes(s, t, w, id)
    ensures Paid(t, a)
  {
    InvokeCounts(s, t, w, id, a);
    assert Paid(s, a);
  }

  lemma InvokeSpends(s: State, t: State, w: WorkerId, id: AppId, v: WorkerId)
    requires Budgeted(s) && Locked(s) && Invokes(s, t, w, id) && v in t.workers
    ensures Unspent(t, v)
  {
    InvokeCounts(s, t, w, id, t.workers[v].app);
    assert Paid(s, id);
    if v != w { assert Unspent(s, v); }
  }

  lemma InvokeKeepsBudget(s: State, t: State, w: WorkerId, id: AppId)
    requires Budgeted(s) && Locked(s) && Invokes(s, t, w, id)
    ensures Budgeted(t)
  {
    forall a ensures Paid(t, a) { InvokePays(s, t, w, id, a); }
    forall v | v in t.workers ensures Unspent(t, v) { InvokeSpends(s, t, w, id, v); }
  }

  lemma ReleaseKeepsBudget(s: State, t: State, w: WorkerId)
    requires Budgeted(s) && Locked(s) && (Releases(s, t, w) || GivesBack(s, t, w))
    ensures Budgeted(t)
  {
    var id := s.workers[w].app;
    assert Unspent(s, w) && Paid(s, id);
    forall a
      ensures Paid(t, a)
    {
      assert Paid(s, a);
    }
    forall v | v in t.workers
      ensures Unspent(t, v)
    {
      assert Unspent(s, v);
    }
  }

  /** What an advance leaves in the history, counted. */
  lemma AdvanceCounts(s: State, t: State, w: WorkerId, a: AppId)
    requires Advances(s, t, w)
    ensures var id, phase := s.workers[w].app, t.workers[w].phase;
      && Times(t, Accepted(a)) == Times(s, Accepted(a)) && Times(t, Invoked(a)) == Times(s, Invoked(a))
      && Times(t, SubmitCalled(a)) == Times(s, SubmitCalled(a)) + (if a == id && phase == Submitting then 1 else 0)
  {
    if t.workers[w].phase == Loaded { OneMore(s, t, Passed(s.workers[w].app)); }
    if t.workers[w].phase == Submitting { OneMore(s, t, SubmitCalled(s.workers[w].app)); }
    if t.workers[w].phase == Submitted { OneMore(s, t, SubmitConfirmed(s.workers[w].app)); }
  }

  lemma AdvancePays(s: State, t: State, w: WorkerId, a: AppId)
    requires Budgeted(s) && Locked(s) && Advances(s, t, w)
    ensures Paid(t, a)
  {
    assert Unspent(s, w) && Paid(s, a);
    AdvanceCounts(s, t, w, a);
  }

  lemma AdvanceSpends(s: State, t: State, w: WorkerId, v: WorkerId)
    requires Budgeted(s) && Locked(s) && Advances(s, t, w) && v in t.workers
    ensures Unspent(t, v)
  {
    assert Unspent(s, v) && Unspent(s, w);
    AdvanceCounts(s, t, w, s.workers[v].app);
  }

  lemma AdvanceKeepsBudget(s: State, t: State, w: WorkerId)
    requires Budgeted(s) && Locked(s) && Advances(s, t, w)
    ensures Budgeted(t)
  {
    forall a ensures Paid(t, a) { AdvancePays(s, t, w, a); }
    forall v | v in t.workers ensures Unspent(t, v) { AdvanceSpends(s, t, w, v); }
  }

  lemma EffectKeepsBudget(s: State, t: State)
    requires Budgeted(s) && Locked(s) && Effect(s, t)
    ensures Budgeted(t)
  {
    if w, id :| Invokes(s, t, w, id) {
      InvokeKeepsBudget(s, t, w, id);
    } else if id :| Accepts(s, t, id) {
      AcceptKeepsBudget(s, t, id);
    } else if w :| Advances(s, t, w) {
      AdvanceKeepsBudget(s, t, w);
    } else if w :| Releases(s, t, w) || GivesBack(s, t, w) {
      ReleaseKeepsBudget(s, t, w);
    } else {
      OnlyApprovals(s, t);
      forall a ensures Paid(t, a) { assert Paid(s, a); }
      forall v | v in t.workers ensures Unspent(t, v) { assert Unspent(s, v); }
    }
  }

  // ---------------------------------------------------------------- confirmations

  lemma ConfirmedSnoc(log: seq<Fact>, f: Fact, id: AppId)
    ensures ConfirmedSince(log + [f], id) ==
      if f == Accepted(id) then 0 else ConfirmedSince(log, id) + if f == SubmitConfirmed(id) then 1 else 0
  {
    assert (log + [f])[..|log|] == log;
  }

  lemma ReopenedSnoc(log: seq<Fact>, f: Fact, id: AppId)
    ensures Reopened(log + [f], id) ==
      Reopened(log, id) + if f == Passed(id) && ConfirmedSince(log, id) > 0 then 1 else 0
  {
    assert (log + [f])[..|log|] == log;
  }

  lemma ConfirmSnoc(log: seq<Fact>, f: Fact, id: AppId)
    ensures ConfirmedSince(log + [f], id) ==
      if f == Accepted(id) then 0 else ConfirmedSince(log, id) + if f == SubmitConfirmed(id) then 1 else 0
    ensures Spare(log + [f], id) == Spare(log, id) +
      (if f == Accepted(id) then 1 else if f == SubmitConfirmed(id) then -1
       else if f == Passed(id) && ConfirmedSince(log, id) > 0 then 1 else 0)
  {
    ConfirmedSnoc(log, f, id);
    ReopenedSnoc(log, f, id);
    assert multiset(log + [f]) == multiset(log) + multiset{f};
  }

  lemma {:induction false} ConfirmSkips(log: seq<Fact>, more: seq<Fact>, id: AppId)
    requires forall f :: f in more ==> f.ApprovedBy?
    ensures ConfirmedSince(log + more, id) == ConfirmedSince(log, id) && Spare(log + more, id) == Spare(log, id)
  {
    if more == [] {
      assert log + more == log;
    } else {
      var n := |more| - 1;
      assert more[n] in more;
      ConfirmSkips(log, more[..n], id);
      assert log + more == (log + more[..n]) + [more[n]];
      ConfirmSnoc(log + more[..n], more[n], id);
    }
  }

  lemma AcceptKeepsBacked(s: State, t: State, id: AppId)
    requires Backed(s) && Locked(s) && Accepts(s, t, id)
    ensures Backed(t)
  {
    forall a ensures Covered(t, a) {
      assert Covered(s, a);
      ConfirmSnoc(s.log, Accepted(id), a);
    }
    forall v | v in t.workers ensures Covers(t, v) {
      assert Covers(s, v);
      ConfirmSnoc(s.log, Accepted(id), s.workers[v].app);
    }
  }

  lemma InvokeKeepsBacked(s: State, t: State, w: WorkerId, id: AppId)
    requires Backed(s) && Invokes(s, t, w, id)
    ensures Backed(t)
  {
    forall a ensures Covered(t, a) {
      assert Covered(s, a);
      ConfirmSnoc(s.log, Invoked(id), a);
    }
    forall v | v in t.workers ensures Covers(t, v) {
      if v != w { assert Covers(s, v); }
      ConfirmSnoc(s.log, Invoked(id), t.workers[v].app);
    }
  }

  lemma ReleaseKeepsBacked(s: State, t: State, w: WorkerId)
    requires Backed(s) && Locked(s) && (Releases(s, t, w) || GivesBack(s, t, w))
    ensures Backed(t)
  {
    forall a ensures Covered(t, a) { assert Covered(s, a); }
    forall v | v in t.workers ensures Covers(t, v) { assert Covers(s, v); }
  }

  /** What an advance leaves in the history for the confirmations of `a`. */
  lemma AdvanceSpares(s: State, t: State, w: WorkerId, a: AppId)
    requires Advances(s, t, w)
    ensures var own := a == s.workers[w].app; var phase := t.workers[w].phase;
      && ConfirmedSince(t.log, a) == ConfirmedSince(s.log, a) + (if own && phase == Submitted then 1 else 0)
      && Spare(t.log, a) == Spare(s.log, a) +
           (if own && phase == Submitted then -1
            else if own && phase == Loaded && ConfirmedSince(s.log, a) > 0 then 1 else 0)
  {
    ConfirmSnoc(s.log, Passed(s.workers[w].app), a);
    ConfirmSnoc(s.log, SubmitCalled(s.workers[w].app), a);
    ConfirmSnoc(s.log, SubmitConfirmed(s.workers[w].app), a);
  }

  lemma AdvanceKeepsBacked(s: State, t: State, w: WorkerId)
    requires Backed(s) && Locked(s) && Advances(s, t, w)
    ensures Backed(t)
  {
    assert Covers(s, w);
    forall a ensures Covered(t, a) {
      assert Covered(s, a);
      AdvanceSpares(s, t, w, a);
    }
    forall v | v in t.workers ensures Covers(t, v) {
      assert Covers(s, v) && Covered(s, s.workers[v].app);
      AdvanceSpares(s, t, w, s.workers[v].app);
    }
  }

  lemma ApprovalsKeepBacked(s: State, t: State)
    requires Backed(s) && OnlyApproves(s, t)
    ensures Backed(t)
  {
    var more := t.log[|s.log|..];
    assert t.log == s.log + more;
    forall a ensures Covered(t, a) {
      assert Covered(s, a);
      ConfirmSkips(s.log, more, a);
    }
    forall v | v in t.workers ensures Covers(t, v) {
      assert Covers(s, v);
      ConfirmSkips(s.log, more, s.workers[v].app);
    }
  }

  lemma EffectKeepsBacked(s: State, t: State)
    requires Backed(s) && Locked(s) && Effect(s, t)
    ensures Backed(t)
  {
    if w, id :| Invokes(s, t, w, id) {
      InvokeKeepsBacked(s, t, w, id);
    } else if id :| Accepts(s, t, id) {
      AcceptKeepsBacked(s, t, id);
    } else if w :| Advances(s, t, w) {
      AdvanceKeepsBacked(s, t, w);
    } else if w :| Releases(s, t, w) || GivesBack(s, t, w) {
      ReleaseKeepsBacked(s, t, w);
    } else {
      ApprovalsKeepBacked(s, t);
    }
  }

  // ---------------------------------------------------------------- approval before submission

  lemma HoldStep(s: State, t: State)
    requires Held(s) && Known(s) && Grows(s, t) && Owes(s, t)
    ensures Held(t)
  {
  }

  /** A step calls a submission only for a job that is live. */
  ghost predicate CallsLive(s: State, t: State) {
    forall i :: |s.log| <= i < |t.log| && t.log[i].SubmitCalled? ==> t.log[i].app in s.queue && t.log[..i] == s.log
  }

  lemma EffectCallsLive(s: State, t: State)
    requires Locked(s) && Effect(s, t)
    ensures CallsLive(s, t)
  {
    if w :| Advances(s, t, w) {
      assert s.workers[w].app in s.queue;
    }
  }

  lemma ApprovedFirstStep(s: State, t: State)
    requires ApprovedFirst(s) && Held(s) && Known(s) && Grows(s, t) && CallsLive(s, t)
    ensures ApprovedFirst(t)
  {
    forall i | 0 <= i < |t.log| && t.log[i].SubmitCalled? && t.log[i].app in t.apps &&
               t.apps[t.log[i].app].mode != Autonomous
      ensures ApprovedBy(t.log[i].app) in t.log[..i]
    {
      if i < |s.log| {
        assert s.log[i] == t.log[i] && s.log[..i] == t.log[..i];
      } else {
        assert t.log[i].app in s.queue;
      }
    }
  }

  lemma KnownStep(s: State, t: State)
    requires Known(s) && Grows(s, t) && Owes(s, t) && Mentions(s, t)
    ensures Known(t)
  {
    forall i | 0 <= i < |t.log|
      ensures t.log[i].app in t.apps
    {
      if i < |s.log| { assert t.log[i] == s.log[i]; }
    }
  }

  // ---------------------------------------------------------------- runs

  lemma NextIsSafe(s: State, e: Event)
    requires Safe(s) && Enabled(s, e)
    ensures Safe(Next(s, e))
  {
    var t := Next(s, e);
    assert IndexHolds(t.apps) by {
      match e
      case Calls(c) => CallKeepsIndex(s, c);
      case Works(w, k) => TaskKeepsIndex(s, w, k);
    }
    NextRespects(s, e);
    NextEffect(s, e);
    StepIsSafe(s, t);
  }

  lemma StepIsSafe(s: State, t: State)
    requires Safe(s) && Respects(s, t) && Effect(s, t) && IndexHolds(t.apps)
    ensures Safe(t)
  {
    EffectKeepsLock(s, t);
    EffectKeepsBudget(s, t);
    EffectKeepsBacked(s, t);
    HoldStep(s, t);
    EffectCallsLive(s, t);
    ApprovedFirstStep(s, t);
    KnownStep(s, t);
  }

  lemma {:induction false} RunsAreSafe(s: State, es: seq<Event>)
    requires Safe(s) && After(s, es).Some?
    ensures Safe(After(s, es).value)
  {
    if es != [] {
      var n := |es| - 1;
      RunsAreSafe(s, es[..n]);
      NextIsSafe(After(s, es[..n]).value, es[n]);
    }
  }
}
