/** The promises of the apply pipeline, for every run and every request. */
module PipelineTheorems {
  import opened Wrappers
  import opened Pipeline
  import opened PipelineSafety

  // ---------------------------------------------------------------- every run

  lemma InitialIsSafe(s: State)
    requires Initial(s)
    ensures Safe(s)
  {
  }

  ghost predicate InsideSubmit(s: State, w: WorkerId, id: AppId) {
    w in s.workers && s.workers[w].app == id && s.workers[w].phase.Submitting?
  }

  /** Whatever the interleaving: one worker at a time inside the submit of an application, no more
      invocations or submissions than its accepted enqueues allow, and no more confirmations than those and
      the reopenings: the reloads of a job already confirmed that do not find the application applied. */
  lemma SubmissionBounds(s: State, es: seq<Event>, id: AppId)
    requires Initial(s) && After(s, es).Some?
    ensures var t := After(s, es).value;
      && (forall v, w :: InsideSubmit(t, v, id) && InsideSubmit(t, w, id) ==> v == w)
      && Times(t, SubmitCalled(id)) <= Times(t, Invoked(id)) <= MAX_TRIES * Times(t, Accepted(id))
      && Times(t, SubmitConfirmed(id)) <= Times(t, Accepted(id)) + Reopened(t.log, id)
  {
    InitialIsSafe(s);
    RunsAreSafe(s, es);
    assert Paid(After(s, es).value, id) && Covered(After(s, es).value, id);
  }

  /** A review or batch application is never submitted before somebody approved it. */
  lemma NoSubmissionWithoutApproval(s: State, es: seq<Event>, i: nat)
    requires Initial(s) && After(s, es).Some?
    requires var t := After(s, es).value; i < |t.log| && t.log[i].SubmitCalled?
    ensures var t := After(s, es).value; var id := t.log[i].app;
      id in t.apps && (t.apps[id].mode == Autonomous || exists j :: 0 <= j < i && t.log[j] == ApprovedBy(id))
  {
    InitialIsSafe(s);
    RunsAreSafe(s, es);
    var t := After(s, es).value;
    var id := t.log[i].app;
    if t.apps[id].mode != Autonomous {
      var j :| 0 <= j < i && t.log[..i][j] == ApprovedBy(id);
      assert t.log[j] == ApprovedBy(id);
    }
  }

  /** An approve or bulk-approve step that takes in this application, which it finds staged. */
  predicate Approves(s: State, e: Event, id: AppId) {
    e.Calls? &&
    ((e.call.ApproveCall? && e.call.id == id && Staged(s.apps, e.call.user, id)) ||
     (e.call.BulkCall? && id in e.call.rows))
  }

  /** The history gains an approval of an application exactly by such a step, one each. */
  lemma ApprovalIsAStep(s: State, e: Event, id: AppId)
    requires Enabled(s, e)
    ensures Times(Next(s, e), ApprovedBy(id)) == Times(s, ApprovedBy(id)) + if Approves(s, e, id) then 1 else 0
    ensures Approves(s, e, id) ==> Staged(s.apps, e.call.user, id) && (e.call.BulkCall? ==> id in e.call.asked)
  {
    match e
    case Works(w, k) => TasksApproveNothing(s, w, k, id);
    case Calls(c) =>
      if c.BulkCall? { BulkCounts(s, c, id); }
      else if c.ApproveCall? { ApproveCounts(s, c, id); }
      else { OtherCallsCount(s, c, id); }
  }

  lemma BulkCounts(s: State, c: Call, id: AppId)
    requires c.BulkCall? && CallEnabled(s, c)
    ensures Times(NextCall(s, c), ApprovedBy(id)) == Times(s, ApprovedBy(id)) + multiset(c.rows)[id]
    ensures multiset(c.rows)[id] == if id in c.rows then 1 else 0
    ensures Times(NextCall(s, c), Accepted(id)) == Times(s, Accepted(id))
  {
    ApprovalsCount(c.rows, id);
    assert multiset(s.log + Approvals(c.rows)) == multiset(s.log) + multiset(Approvals(c.rows));
    assert Accepted(id) !in Approvals(c.rows);
  }

  lemma ApproveCounts(s: State, c: Call, id: AppId)
    requires c.ApproveCall?
    ensures Times(NextCall(s, c), ApprovedBy(id)) ==
      Times(s, ApprovedBy(id)) + if Approves(s, Calls(c), id) then 1 else 0
    ensures Times(NextCall(s, c), Accepted(id)) == Times(s, Accepted(id))
  {
    if Staged(s.apps, c.user, c.id) { OneMore(s, NextCall(s, c), ApprovedBy(c.id)); }
  }

  lemma OtherCallsCount(s: State, c: Call, id: AppId)
    requires CallEnabled(s, c) && !c.ApproveCall? && !c.BulkCall?
    ensures Times(NextCall(s, c), ApprovedBy(id)) == Times(s, ApprovedBy(id))
  {
    OtherCallsApproveNothing(s, c);
    if NextCall(s, c).log != s.log { OneMore(s, NextCall(s, c), Accepted(c.id)); }
  }

  lemma {:induction false} ApprovalsCount(rows: seq<AppId>, id: AppId)
    requires forall i, j :: 0 <= i < j < |rows| ==> rows[i] != rows[j]
    ensures multiset(Approvals(rows))[ApprovedBy(id)] == (if id in rows then 1 else 0) == multiset(rows)[id]
  {
    if rows != [] {
      var n := |rows| - 1;
      ApprovalsCount(rows[..n], id);
      assert rows == rows[..n] + [rows[n]];
      assert Approvals(rows) == Approvals(rows[..n]) + [ApprovedBy(rows[n])];
    }
  }

  lemma TasksApproveNothing(s: State, w: WorkerId, k: Task, id: AppId)
    requires TaskEnabled(s, w, k)
    ensures Times(NextTask(s, w, k), ApprovedBy(id)) == Times(s, ApprovedBy(id))
    ensures Times(NextTask(s, w, k), Accepted(id)) == Times(s, Accepted(id))
  {
    var t := NextTask(s, w, k);
    TaskEffect(s, w, k);
    if t.log != s.log { OneMore(s, t, t.log[|s.log|]); }
  }

  lemma OtherCallsApproveNothing(s: State, c: Call)
    requires CallEnabled(s, c) && !c.ApproveCall? && !c.BulkCall?
    ensures NextCall(s, c).log == s.log || (c.EnqueueCall? && NextCall(s, c).log == s.log + [Accepted(c.id)])
  {
    CallEffect(s, c);
    match c
    case CreateCall(_, _, _, _, _) => CreateIsQuiet(s, c);
    case BatchCall(_, _, _, _, _) => BatchIsQuiet(s, c);
    case DispatchCall(_) => DispatchIsQuiet(s, c);
    case EnqueueCall(_, _) =>
    case StatusCall(_, _, _, _, _) => StatusIsQuiet(s, c);
  }

  /** Each accepted or owed enqueue of a review or batch application has an approval of its own. */
  ghost predicate Vouched(s: State, id: AppId) {
    id in s.apps && s.apps[id].mode != Autonomous ==>
      Times(s, Accepted(id)) + s.toEnqueue[id] <= Times(s, ApprovedBy(id))
  }

  lemma UnknownIsUnheardOf(s: State, id: AppId)
    requires Known(s) && id !in s.apps
    ensures Times(s, Accepted(id)) == 0 && s.toEnqueue[id] == 0
  {
    assert forall i :: 0 <= i < |s.log| ==> s.log[i].app in s.apps;
    assert Accepted(id) !in s.log;
  }

  lemma TasksKeepVouched(s: State, w: WorkerId, k: Task, id: AppId)
    requires Known(s) && Vouched(s, id) && TaskEnabled(s, w, k)
    ensures Vouched(NextTask(s, w, k), id)
  {
    if id in s.apps { TaskRows(s, w, k); } else { UnknownIsUnheardOf(s, id); }
    TaskOwesNothing(s, w, k);
    TasksApproveNothing(s, w, k, id);
  }

  lemma BulkKeepsVouched(s: State, c: Call, id: AppId)
    requires Vouched(s, id) && c.BulkCall? && CallEnabled(s, c)
    ensures Vouched(NextCall(s, c), id)
  {
    BulkCounts(s, c, id);
  }

  lemma ApproveKeepsVouched(s: State, c: Call, id: AppId)
    requires Vouched(s, id) && c.ApproveCall?
    ensures Vouched(NextCall(s, c), id)
  {
    ApproveCounts(s, c, id);
  }

  lemma EnqueueKeepsVouched(s: State, c: Call, id: AppId)
    requires Vouched(s, id) && c.EnqueueCall? && CallEnabled(s, c)
    ensures Vouched(NextCall(s, c), id)
  {
    if NextCall(s, c).log != s.log { OneMore(s, NextCall(s, c), Accepted(c.id)); }
  }

  lemma DispatchKeepsVouched(s: State, c: Call, id: AppId)
    requires Vouched(s, id) && c.DispatchCall? && CallEnabled(s, c)
    ensures Vouched(NextCall(s, c), id)
  {
    DispatchIsQuiet(s, c);
  }

  /** The other requests owe no enqueue and write no history. */
  lemma OthersOweNothing(s: State, c: Call)
    requires CallEnabled(s, c) && (c.CreateCall? || c.BatchCall? || c.StatusCall?)
    ensures NextCall(s, c).toEnqueue == s.toEnqueue && NextCall(s, c).log == s.log
  {
  }

  lemma OthersKeepVouched(s: State, c: Call, id: AppId)
    requires Safe(s) && Vouched(s, id) && CallEnabled(s, c) && (c.CreateCall? || c.BatchCall? || c.StatusCall?)
    ensures Vouched(NextCall(s, c), id)
  {
    OthersOweNothing(s, c);
    if id in s.apps { NextRespects(s, Calls(c)); } else { UnknownIsUnheardOf(s, id); }
  }

  lemma {:induction false} RunsVouch(s: State, es: seq<Event>, id: AppId)
    requires Initial(s) && After(s, es).Some?
    ensures Vouched(After(s, es).value, id)
  {
    if es != [] {
      var n := |es| - 1;
      var m := After(s, es[..n]).value;
      RunsVouch(s, es[..n], id);
      InitialIsSafe(s);
      RunsAreSafe(s, es[..n]);
      match es[n]
      case Works(w, k) => TasksKeepVouched(m, w, k, id);
      case Calls(c) =>
        if c.BulkCall? { BulkKeepsVouched(m, c, id); }
        else if c.ApproveCall? { ApproveKeepsVouched(m, c, id); }
        else if c.EnqueueCall? { EnqueueKeepsVouched(m, c, id); }
        else if c.DispatchCall? { DispatchKeepsVouched(m, c, id); }
        else { OthersKeepVouched(m, c, id); }
    }
  }

  /** An approval pays for one accepted enqueue: a review or batch application is enqueued at most as often
      as it was approved, and so invoked and submitted at most `MAX_TRIES` times an approval. */
  lemma ApprovalsPayForSubmissions(s: State, es: seq<Event>, id: AppId)
    requires Initial(s) && After(s, es).Some?
    requires var t := After(s, es).value; id in t.apps && t.apps[id].mode != Autonomous
    ensures var t := After(s, es).value;
      && Times(t, Accepted(id)) + t.toEnqueue[id] <= Times(t, ApprovedBy(id))
      && Times(t, SubmitCalled(id)) <= Times(t, Invoked(id)) <= MAX_TRIES * Times(t, ApprovedBy(id))
  {
    RunsVouch(s, es, id);
    SubmissionBounds(s, es, id);
  }

  /** An application of `user` for `job` that is neither rejected, withdrawn nor failed. */
  predicate StillOpen(row: App, user: UserId, job: JobId) {
    row.user == user && row.job == job &&
    row.status != Rejected && row.status != Withdrawn && row.status != Failed
  }

  lemma OneActivePerJob(s: State, es: seq<Event>, user: UserId, job: JobId, a: AppId, b: AppId)
    requires Initial(s) && After(s, es).Some?
    requires var apps := After(s, es).value.apps;
      a in apps && b in apps && StillOpen(apps[a], user, job) && StillOpen(apps[b], user, job)
    ensures a == b
  {
    InitialIsSafe(s);
    RunsAreSafe(s, es);
  }

  lemma AppliedIsDated(s: State, es: seq<Event>, id: AppId)
    requires Initial(s) && After(s, es).Some?
    requires id in After(s, es).value.apps && After(s, es).value.apps[id].status == Applied
    ensures After(s, es).value.apps[id].appliedAt.Some?
  {
    InitialIsSafe(s);
    RunsAreSafe(s, es);
  }

  // ---------------------------------------------------------------- create

  /** A row as a request makes it: what the request says, queued, without date or note. */
  predicate MadeBy(row: App, user: UserId, job: JobId, resume: Option<ResumeId>, mode: Mode) {
    row.user == user && row.job == job && row.resume == resume && row.mode == mode &&
    row.status == Queued && row.appliedAt == None && row.note == None
  }

  /** The job is the user's, and so is the resume if one is named. */
  predicate Allowed(s: State, user: UserId, job: JobId, resume: Option<ResumeId>) {
    job in s.jobs && s.jobs[job] == user &&
    (resume.Some? ==> resume.value in s.resumes && s.resumes[resume.value] == user)
  }

  /** Create hands back the open application of the job, and makes one, as the request says, only if there
      was none. */
  lemma CreateIsIdempotent(s: State, user: UserId, job: JobId, resume: Option<ResumeId>, mode: Mode, newId: AppId)
    requires IndexHolds(s.apps) && newId !in s.apps
    ensures var (t, r) := Create(s, user, job, resume, mode, newId);
      && (r.Ok? <==> Allowed(s, user, job, resume))
      && (r.Err? ==> t == s && r.error == NotFound)
      && (r.Ok? ==> t.apps - {newId} == s.apps)
      && (r.Ok? ==> t == s.(apps := t.apps, toDispatch := s.toDispatch + multiset{r.value}))
      && (r.Ok? ==> forall id :: id in t.apps && StillOpen(t.apps[id], user, job) <==> id == r.value)
      && (r.Ok? ==> (newId in t.apps <==> forall id :: id in s.apps ==> !StillOpen(s.apps[id], user, job)))
      && (newId in t.apps ==> r == Ok(newId) && MadeBy(t.apps[newId], user, job, resume, mode))
  {
    var (t, r) := Create(s, user, job, resume, mode, newId);
    if r.Ok? {
      assert t.apps - {newId} == s.apps;
      OpenIsActive(s.apps, user, job);
      CreatedIsTheOpenOne(s, user, job, resume, mode, newId);
    }
  }

  lemma OpenIsActive(apps: map<AppId, App>, user: UserId, job: JobId)
    ensures HasActive(apps, user, job) <==> exists id :: id in apps && StillOpen(apps[id], user, job)
  {
    if HasActive(apps, user, job) { assert StillOpen(apps[ActiveFor(apps, user, job)], user, job); }
  }

  lemma CreatedIsTheOpenOne(s: State, user: UserId, job: JobId, resume: Option<ResumeId>, mode: Mode, newId: AppId)
    requires IndexHolds(s.apps) && newId !in s.apps && Create(s, user, job, resume, mode, newId).1.Ok?
    ensures var (t, r) := Create(s, user, job, resume, mode, newId);
      forall id :: id in t.apps && StillOpen(t.apps[id], user, job) <==> id == r.value
  {
    var (t, r) := Create(s, user, job, resume, mode, newId);
    PutKeepsIndexIfNew(s, user, job, resume, mode, newId);
    assert StillOpen(t.apps[r.value], user, job);
    OnlyOneOpen(t.apps, user, job, r.value);
  }

  lemma OnlyOneOpen(apps: map<AppId, App>, user: UserId, job: JobId, a: AppId)
    requires IndexHolds(apps) && a in apps && StillOpen(apps[a], user, job)
    ensures forall id :: id in apps && StillOpen(apps[id], user, job) <==> id == a
  {
    forall id | id in apps && StillOpen(apps[id], user, job)
      ensures id == a
    {
      assert Rivals(apps[id], apps[a]);
    }
  }

  lemma PutKeepsIndexIfNew(s: State, user: UserId, job: JobId, resume: Option<ResumeId>, mode: Mode, newId: AppId)
    requires IndexHolds(s.apps) && newId !in s.apps
    ensures IndexHolds(Create(s, user, job, resume, mode, newId).0.apps)
  {
    CallKeepsIndex(s, CreateCall(user, job, resume, mode, newId));
  }

  // ---------------------------------------------------------------- batch

  ghost function NewJobs(apps: map<AppId, App>, user: UserId, jobs: seq<JobId>): seq<JobId> {
    if jobs == [] then []
    else
      var n := |jobs| - 1;
      NewJobs(apps, user, jobs[..n]) + (if HasActive(apps, user, jobs[n]) then [] else [jobs[n]])
  }

  ghost predicate Distinct(jobs: seq<JobId>) {
    forall i, j :: 0 <= i < j < |jobs| ==> jobs[i] != jobs[j]
  }

  lemma {:induction false} NewJobsIff(apps: map<AppId, App>, user: UserId, jobs: seq<JobId>, j: JobId)
    ensures j in NewJobs(apps, user, jobs) <==> j in jobs && !HasActive(apps, user, j)
  {
    if jobs != [] { NewJobsIff(apps, user, jobs[..|jobs| - 1], j); }
  }

  /** No job without an active application is listed twice. */
  ghost predicate NoNewTwice(apps: map<AppId, App>, user: UserId, jobs: seq<JobId>) {
    forall i, j :: 0 <= i < j < |jobs| && jobs[i] == jobs[j] ==> HasActive(apps, user, jobs[i])
  }

  lemma NoNewTwiceSnoc(apps: map<AppId, App>, user: UserId, jobs: seq<JobId>, x: JobId)
    ensures NoNewTwice(apps, user, jobs + [x]) <==>
      NoNewTwice(apps, user, jobs) && (x in jobs ==> HasActive(apps, user, x))
  {
    var all := jobs + [x];
    assert forall i :: 0 <= i < |jobs| ==> all[i] == jobs[i];
    assert all[|jobs|] == x;
    if NoNewTwice(apps, user, all) && x in jobs {
      var i :| 0 <= i < |jobs| && jobs[i] == x;
      assert all[i] == all[|jobs|];
    }
  }

  lemma DistinctSnoc(jobs: seq<JobId>, x: JobId)
    ensures Distinct(jobs + [x]) <==> Distinct(jobs) && x !in jobs
  {
    var all := jobs + [x];
    assert forall i :: 0 <= i < |jobs| ==> all[i] == jobs[i];
    assert all[|jobs|] == x;
  }

  lemma {:induction false} NewJobsDistinctIff(apps: map<AppId, App>, user: UserId, jobs: seq<JobId>)
    ensures Distinct(NewJobs(apps, user, jobs)) <==> NoNewTwice(apps, user, jobs)
  {
    if jobs != [] {
      var n := |jobs| - 1;
      NewJobsDistinctIff(apps, user, jobs[..n]);
      NewJobsIff(apps, user, jobs[..n], jobs[n]);
      assert jobs == jobs[..n] + [jobs[n]];
      NoNewTwiceSnoc(apps, user, jobs[..n], jobs[n]);
      DistinctSnoc(NewJobs(apps, user, jobs[..n]), jobs[n]);
      assert HasActive(apps, user, jobs[n]) ==> NewJobs(apps, user, jobs) == NewJobs(apps, user, jobs[..n]);
    }
  }

  lemma NewJobsAreTheInactive(apps: map<AppId, App>, user: UserId, jobs: seq<JobId>)
    ensures forall j: JobId :: j in NewJobs(apps, user, jobs) <==> j in jobs && !HasActive(apps, user, j)
    ensures Distinct(NewJobs(apps, user, jobs)) <==> NoNewTwice(apps, user, jobs)
  {
    forall j: JobId
      ensures j in NewJobs(apps, user, jobs) <==> j in jobs && !HasActive(apps, user, j)
    {
      NewJobsIff(apps, user, jobs, j);
    }
    NewJobsDistinctIff(apps, user, jobs);
  }

  lemma {:induction false} BatchRowsCarryNewJobs(apps: map<AppId, App>, user: UserId, jobs: seq<JobId>,
                                                 newIds: seq<AppId>)
    requires |newIds| == |jobs|
    ensures var rows := BatchRows(apps, user, jobs, newIds);
      |rows| == |NewJobs(apps, user, jobs)| && forall k :: 0 <= k < |rows| ==> rows[k].1 == NewJobs(apps, user, jobs)[k]
  {
    if jobs != [] {
      var n := |jobs| - 1;
      BatchRowsCarryNewJobs(apps, user, jobs[..n], newIds[..n]);
    }
  }

  /** The table after a batch: the old rows, and one new row for each of `jobs`, under `ids`. */
  ghost predicate Extended(apps: map<AppId, App>, t: map<AppId, App>, user: UserId, resume: Option<ResumeId>,
                           mode: Mode, ids: seq<AppId>, jobs: seq<JobId>)
  {
    |ids| == |jobs| &&
    (forall id :: id in t <==> id in apps || id in ids) &&
    (forall id :: id in apps ==> id !in ids && id in t && t[id] == apps[id]) &&
    (forall k :: 0 <= k < |ids| ==> ids[k] in t && MadeBy(t[ids[k]], user, jobs[k], resume, mode)) &&
    (forall k, l :: 0 <= k < l < |ids| ==> ids[k] != ids[l])
  }

  lemma BatchExtends(apps: map<AppId, App>, user: UserId, jobs: seq<JobId>, resume: Option<ResumeId>, mode: Mode,
                     newIds: seq<AppId>)
    requires |newIds| == |jobs| && FreshIds(apps, newIds)
    ensures var rows := BatchRows(apps, user, jobs, newIds);
      Extended(apps, Inserted(apps, user, resume, mode, rows), user, resume, mode, Ids(rows), NewJobs(apps, user, jobs))
  {
    var rows := BatchRows(apps, user, jobs, newIds);
    BatchRowsShape(apps, user, jobs, newIds);
    BatchIds(apps, user, jobs, newIds);
    BatchRowsCarryNewJobs(apps, user, jobs, newIds);
    InsertedRows(apps, user, resume, mode, rows);
    RowsAreMade(Inserted(apps, user, resume, mode, rows), user, resume, mode, rows, NewJobs(apps, user, jobs));
  }

  lemma RowsAreMade(t: map<AppId, App>, user: UserId, resume: Option<ResumeId>, mode: Mode, rows: seq<(AppId, JobId)>,
                    jobs: seq<JobId>)
    requires |rows| == |jobs| && forall k :: 0 <= k < |rows| ==> rows[k].1 == jobs[k]
    requires forall k :: 0 <= k < |rows| ==> rows[k].0 in t && t[rows[k].0] == NewRow(user, rows[k].1, resume, mode)
    ensures forall k :: 0 <= k < |Ids(rows)| ==>
      Ids(rows)[k] in t && MadeBy(t[Ids(rows)[k]], user, jobs[k], resume, mode)
  {
  }

  lemma NewRowsDoNotClash(apps: map<AppId, App>, t: map<AppId, App>, user: UserId, resume: Option<ResumeId>, mode: Mode,
                          ids: seq<AppId>, jobs: seq<JobId>, k: nat, b: AppId)
    requires Extended(apps, t, user, resume, mode, ids, jobs) && Distinct(jobs)
    requires forall j :: j in jobs ==> !HasActive(apps, user, j)
    requires k < |ids| && b in t && b != ids[k]
    ensures !Rivals(t[ids[k]], t[b])
  {
    assert !HasActive(apps, user, jobs[k]);
    if b in ids {
      var l :| 0 <= l < |ids| && ids[l] == b;
    }
  }

  /** The index accepts a batch exactly when no new job is asked for twice. */
  lemma ExtendedIndex(apps: map<AppId, App>, t: map<AppId, App>, user: UserId, resume: Option<ResumeId>, mode: Mode,
                      ids: seq<AppId>, jobs: seq<JobId>)
    requires IndexHolds(apps) && Extended(apps, t, user, resume, mode, ids, jobs)
    requires forall j :: j in jobs ==> !HasActive(apps, user, j)
    ensures IndexHolds(t) <==> Distinct(jobs)
  {
    if Distinct(jobs) {
      forall a, b | a in t && b in t && a != b
        ensures !Rivals(t[a], t[b])
      {
        if a in ids {
          var k :| 0 <= k < |ids| && ids[k] == a;
          NewRowsDoNotClash(apps, t, user, resume, mode, ids, jobs, k, b);
        } else if b in ids {
          var k :| 0 <= k < |ids| && ids[k] == b;
          NewRowsDoNotClash(apps, t, user, resume, mode, ids, jobs, k, a);
        } else {
          assert !Rivals(apps[a], apps[b]);
        }
      }
    } else {
      var i, j :| 0 <= i < j < |jobs| && jobs[i] == jobs[j];
      assert Rivals(t[ids[i]], t[ids[j]]);
    }
  }

  /** A batch goes through exactly when everything is owned and no job without an active application
      is listed twice; otherwise nothing changes. */
  lemma BatchSucceedsIff(s: State, user: UserId, jobs: seq<JobId>, resume: Option<ResumeId>, mode: Mode,
                         newIds: seq<AppId>)
    requires IndexHolds(s.apps) && |newIds| == |jobs| && FreshIds(s.apps, newIds)
    ensures var (t, r) := CreateBatch(s, user, jobs, resume, mode, newIds);
      && (r.Ok? <==>
            (resume.Some? ==> resume.value in s.resumes && s.resumes[resume.value] == user) &&
            (forall j :: j in jobs ==> j in s.jobs && s.jobs[j] == user) &&
            NoNewTwice(s.apps, user, jobs))
      && (r.Err? ==> t == s)
  {
    var rows := BatchRows(s.apps, user, jobs, newIds);
    var apps := Inserted(s.apps, user, resume, mode, rows);
    assert IndexHolds(apps) <==> Distinct(NewJobs(s.apps, user, jobs)) by {
      BatchExtends(s.apps, user, jobs, resume, mode, newIds);
      NewJobsAreTheInactive(s.apps, user, jobs);
      ExtendedIndex(s.apps, apps, user, resume, mode, Ids(rows), NewJobs(s.apps, user, jobs));
    }
    NewJobsAreTheInactive(s.apps, user, jobs);
  }

  /** A batch that goes through returns its new rows in request order, and leaves exactly one active
      application for each requested job. */
  lemma BatchLeavesOneActiveEach(s: State, user: UserId, jobs: seq<JobId>, resume: Option<ResumeId>, mode: Mode,
                                 newIds: seq<AppId>)
    requires |newIds| == |jobs| && FreshIds(s.apps, newIds)
    requires CreateBatch(s, user, jobs, resume, mode, newIds).1.Ok?
    ensures var (t, r) := CreateBatch(s, user, jobs, resume, mode, newIds);
      && Extended(s.apps, t.apps, user, resume, mode, r.value, NewJobs(s.apps, user, jobs))
      && (forall j :: j in jobs ==> HasActive(t.apps, user, j))
      && IndexHolds(t.apps)
      && t == s.(apps := t.apps, toDispatch := s.toDispatch + multiset(r.value))
  {
    var (t, r) := CreateBatch(s, user, jobs, resume, mode, newIds);
    BatchExtends(s.apps, user, jobs, resume, mode, newIds);
    ExtendedHasAll(s.apps, t.apps, user, jobs, resume, mode, r.value);
  }

  lemma ExtendedHasAll(apps: map<AppId, App>, t: map<AppId, App>, user: UserId, jobs: seq<JobId>,
                       resume: Option<ResumeId>, mode: Mode, ids: seq<AppId>)
    requires Extended(apps, t, user, resume, mode, ids, NewJobs(apps, user, jobs))
    ensures forall j :: j in jobs ==> HasActive(t, user, j)
  {
    NewJobsAreTheInactive(apps, user, jobs);
    forall j | j in jobs
      ensures HasActive(t, user, j)
    {
      if HasActive(apps, user, j) {
        var a :| a in apps && apps[a].user == user && apps[a].job == j && IsActive(apps[a].status);
        assert t[a] == apps[a];
      } else {
        var k :| 0 <= k < |ids| && NewJobs(apps, user, jobs)[k] == j;
        assert MadeBy(t[ids[k]], user, j, resume, mode);
      }
    }
  }

  // ---------------------------------------------------------------- nothing gets stuck

  ghost predicate Unstuck(s: State) {
    forall id :: id in s.apps && s.apps[id].status == Applying ==> id in s.queue
  }

  /** A status request that puts an application without a live job into `applying`. */
  ghost predicate Strands(s: State, c: Call) {
    c.StatusCall? && c.status == Applying && c.id !in s.queue &&
    SetStatus(s, c.user, c.id, c.status, c.note, c.now).1.Ok?
  }

  /** Besides status requests, requests only write the statuses before a worker's. */
  ghost predicate Restages(s: State, t: State) {
    s.queue.Keys <= t.queue.Keys &&
    forall id :: id in t.apps ==>
      (id in s.apps && t.apps[id] == s.apps[id]) ||
      t.apps[id].status == Queued || t.apps[id].status == PendingReview || t.apps[id].status == Approved
  }

  lemma AddedIsRestaged(s: State, t: State)
    requires AddsQueued(s, t)
    ensures Restages(s, t)
  {
  }

  lemma BulkRestages(s: State, c: Call)
    requires c.BulkCall? && CallEnabled(s, c)
    ensures Restages(s, NextCall(s, c))
  {
  }

  lemma CreateRestages(s: State, c: Call)
    requires c.CreateCall? && CallEnabled(s, c)
    ensures Restages(s, NextCall(s, c))
  {
  }

  lemma DispatchRestages(s: State, c: Call)
    requires c.DispatchCall? && CallEnabled(s, c)
    ensures Restages(s, NextCall(s, c))
  {
  }

  lemma EnqueueRestages(s: State, c: Call)
    requires c.EnqueueCall? && CallEnabled(s, c)
    ensures Restages(s, NextCall(s, c))
  {
  }

  lemma ApproveRestages(s: State, c: Call)
    requires c.ApproveCall?
    ensures Restages(s, NextCall(s, c))
  {
  }

  lemma CallRestages(s: State, c: Call)
    requires CallEnabled(s, c) && !c.StatusCall?
    ensures Restages(s, NextCall(s, c))
  {
    match c
    case BatchCall(user, jobs, resume, mode, newIds) =>
      BatchAddsQueued(s, user, jobs, resume, mode, newIds);
      AddedIsRestaged(s, NextCall(s, c));
    case BulkCall(_, _, _) => BulkRestages(s, c);
    case CreateCall(_, _, _, _, _) => CreateRestages(s, c);
    case DispatchCall(_) => DispatchRestages(s, c);
    case EnqueueCall(_, _) => EnqueueRestages(s, c);
    case ApproveCall(_, _) => ApproveRestages(s, c);
  }

  /** Among the requests, exactly those strand an application. */
  lemma CallStrandsIff(s: State, c: Call)
    requires Unstuck(s) && CallEnabled(s, c)
    ensures Unstuck(NextCall(s, c)) <==> !Strands(s, c)
  {
    if c.StatusCall? {
      StatusStrandsIff(s, c);
    } else {
      CallRestages(s, c);
      RestagedIsUnstuck(s, NextCall(s, c));
    }
  }

  lemma StatusStrandsIff(s: State, c: Call)
    requires Unstuck(s) && c.StatusCall?
    ensures Unstuck(NextCall(s, c)) <==> !Strands(s, c)
  {
    if Strands(s, c) { assert NextCall(s, c).apps[c.id].status == Applying; }
  }

  lemma RestagedIsUnstuck(s: State, t: State)
    requires Unstuck(s) && Restages(s, t)
    ensures Unstuck(t)
  {
  }

  lemma GateKeepsUnstuck(s: State, w: WorkerId, ok: bool)
    requires Unstuck(s) && IndexHolds(s.apps) && Stands(s, w, Loaded) && s.workers[w].app in s.queue
    ensures Unstuck(Gate(s, w, ok))
  {
    var id := s.workers[w].app;
    if s.apps[id].status == Applying { PutNoClash(s.apps, id, s.apps[id].(status := Applying)); }
  }

  lemma RecordKeepsUnstuck(s: State, w: WorkerId, now: Time)
    requires Unstuck(s) && IndexHolds(s.apps) && Stands(s, w, Submitted)
    ensures Unstuck(Record(s, w, now))
  {
    var id := s.workers[w].app;
    if s.apps[id].status == Applying { PutNoClash(s.apps, id, s.apps[id].(status := Applied, appliedAt := Some(now))); }
  }

  /** An end of the invocation that no handler writes to the database: one outside the submission, or a
      cancellation inside it whose best-effort mark fails. */
  predicate Unwritten(k: Task) {
    k.InterruptTask? || (k.SettleTask? && k.outcome.Cancelled? && !k.outcome.marked)
  }

  predicate Reruns(k: Task, try: nat) {
    try < MAX_TRIES &&
    ((k.InterruptTask? && k.rerun) || (k.SettleTask? && k.outcome.Cancelled? && k.outcome.rerun))
  }

  /** A worker step that drops the job of an application in `applying`: without writing its end, or after
      a request wrote `applying` over the end. */
  predicate TaskStrands(s: State, w: WorkerId, k: Task) {
    w in s.workers && (k.EndTask? || (Unwritten(k) && !Reruns(k, s.workers[w].try))) &&
    s.workers[w].app in s.apps && s.apps[s.workers[w].app].status == Applying
  }

  lemma InterruptStrandsIff(s: State, w: WorkerId, rerun: bool)
    requires Unstuck(s) && w in s.workers && s.workers[w].app in s.queue
    ensures Unstuck(Interrupt(s, w, rerun)) <==>
      (rerun && s.workers[w].try < MAX_TRIES) ||
      (s.workers[w].app in s.apps ==> s.apps[s.workers[w].app].status != Applying)
  {
    var t := Interrupt(s, w, rerun);
    assert t.apps == s.apps;
    if !(rerun && s.workers[w].try < MAX_TRIES) { assert s.workers[w].app !in t.queue; }
  }

  lemma SettleStrandsIff(s: State, w: WorkerId, outcome: Outcome)
    requires Unstuck(s) && Stands(s, w, Submitting) && s.workers[w].app in s.queue
    ensures Unstuck(Settle(s, w, outcome)) <==> !TaskStrands(s, w, SettleTask(outcome))
  {
    if outcome.Cancelled? && !outcome.marked { InterruptStrandsIff(s, w, outcome.rerun); }
  }

  /** Among the worker's steps, exactly those strand an application. */
  lemma TaskStrandsIff(s: State, w: WorkerId, k: Task)
    requires Unstuck(s) && IndexHolds(s.apps) && TaskEnabled(s, w, k)
    requires w in s.workers ==> s.workers[w].app in s.queue
    ensures Unstuck(NextTask(s, w, k)) <==> !TaskStrands(s, w, k)
  {
    match k
    case StartTask(_) =>
    case LoadTask =>
    case GateTask(ok) => GateKeepsUnstuck(s, w, ok);
    case CallTask =>
    case InterruptTask(rerun) => InterruptStrandsIff(s, w, rerun);
    case SettleTask(outcome) => SettleStrandsIff(s, w, outcome);
    case RecordTask(now) => RecordKeepsUnstuck(s, w, now);
    case EndTask => InterruptStrandsIff(s, w, false);
  }

  ghost predicate EventStrands(s: State, e: Event) {
    match e
    case Calls(c) => Strands(s, c)
    case Works(w, k) => TaskStrands(s, w, k)
  }

  lemma EventStrandsIff(s: State, e: Event)
    requires Safe(s) && Unstuck(s) && Enabled(s, e)
    ensures Unstuck(Next(s, e)) <==> !EventStrands(s, e)
  {
    match e
    case Calls(c) => CallStrandsIff(s, c);
    case Works(w, k) => TaskStrandsIff(s, w, k);
  }

  /** The run is unstuck all along. */
  ghost predicate NeverStuck(s: State, es: seq<Event>)
    requires After(s, es).Some?
  {
    if es == [] then Unstuck(s)
    else NeverStuck(s, es[..|es| - 1]) && Unstuck(After(s, es).value)
  }

  /** No event of the run strands an application in the state it happens in. */
  ghost predicate NoneStrands(s: State, es: seq<Event>)
    requires After(s, es).Some?
  {
    es == [] ||
    (NoneStrands(s, es[..|es| - 1]) && !EventStrands(After(s, es[..|es| - 1]).value, es[|es| - 1]))
  }

  /** A run is never stuck exactly when none of its events strands an application: no status request
      writes `applying` to one without a live job, and no invocation of one in `applying` is dropped
      unwritten. */
  lemma {:induction false} NothingGetsStuckIff(s: State, es: seq<Event>)
    requires Initial(s) && After(s, es).Some?
    ensures NeverStuck(s, es) <==> NoneStrands(s, es)
    ensures NeverStuck(s, es) ==> Unstuck(After(s, es).value)
  {
    if es != [] {
      var n := |es| - 1;
      NothingGetsStuckIff(s, es[..n]);
      InitialIsSafe(s);
      RunsAreSafe(s, es[..n]);
      if NeverStuck(s, es[..n]) { EventStrandsIff(After(s, es[..n]).value, es[n]); }
    }
  }

  /** Events that do not write `applying` from outside and do not cut an invocation short. */
  predicate Harmless(e: Event) {
    match e
    case Calls(c) => !(c.StatusCall? && c.status == Applying)
    case Works(_, k) => !Unwritten(k)
  }

  /** A worker that made its last commit has left its application out of `applying`. */
  ghost predicate Concluded(s: State) {
    forall w :: w in s.workers && s.workers[w].phase == Closing && s.workers[w].app in s.apps ==>
      s.apps[s.workers[w].app].status != Applying
  }

  lemma CallKeepsConcluded(s: State, c: Call)
    requires Concluded(s) && Known(s) && Locked(s) && CallEnabled(s, c) && Harmless(Calls(c))
    ensures Concluded(NextCall(s, c))
  {
    CallEffect(s, c);
    if !c.StatusCall? { CallRestages(s, c); }
  }

  lemma OwnTaskConcludes(s: State, w: WorkerId, k: Task)
    requires TaskEnabled(s, w, k) && w in NextTask(s, w, k).workers && NextTask(s, w, k).workers[w].phase == Closing
    ensures var t := NextTask(s, w, k); t.workers[w].app in t.apps && t.apps[t.workers[w].app].status != Applying
  {
  }

  lemma TaskKeepsConcluded(s: State, w: WorkerId, k: Task)
    requires Concluded(s) && Locked(s) && TaskEnabled(s, w, k)
    ensures Concluded(NextTask(s, w, k))
  {
    var t := NextTask(s, w, k);
    TaskEffect(s, w, k);
    forall v | v in t.workers && t.workers[v].phase == Closing && t.workers[v].app in t.apps
      ensures t.apps[t.workers[v].app].status != Applying
    {
      if v == w {
        OwnTaskConcludes(s, w, k);
      } else {
        assert v in s.workers && t.workers[v] == s.workers[v];
        if KeepsRows(k) { TaskLog(s, w, k); } else { TaskRow(s, w, k); }
      }
    }
  }

  lemma {:induction false} HarmlessStrandNothing(s: State, es: seq<Event>)
    requires Initial(s) && After(s, es).Some? && forall i :: 0 <= i < |es| ==> Harmless(es[i])
    ensures NoneStrands(s, es) && Concluded(After(s, es).value)
  {
    if es != [] {
      var n := |es| - 1;
      var m := After(s, es[..n]).value;
      HarmlessStrandNothing(s, es[..n]);
      InitialIsSafe(s);
      RunsAreSafe(s, es[..n]);
      assert Harmless(es[n]);
      match es[n]
      case Calls(c) => CallKeepsConcluded(m, c);
      case Works(w, k) => TaskKeepsConcluded(m, w, k);
    }
  }

  /** In a run whose status requests never write `applying` and whose invocations all end in a handler,
      an application in that state always has a job that is waiting or in progress. */
  lemma NothingGetsStuck(s: State, es: seq<Event>)
    requires Initial(s) && After(s, es).Some?
    requires forall i :: 0 <= i < |es| ==> Harmless(es[i])
    ensures Unstuck(After(s, es).value)
  {
    HarmlessStrandNothing(s, es);
    NothingGetsStuckIff(s, es);
  }

  function PhaseLeft(phase: Phase): nat {
    match phase
    case Started => 6
    case Loaded => 5
    case Marked => 4
    case Submitting => 3
    case Submitted => 2
    case Closing => 1
  }

  /** How many worker steps a live job can still take. */
  ghost function StepsLeft(s: State, id: AppId): nat
    requires id in s.queue ==> s.queue[id].try <= MAX_TRIES
    requires id in s.queue && s.queue[id].InProgress? ==> exists w :: w in s.workers && s.workers[w].app == id
  {
    if id !in s.queue then 0
    else
      7 * (MAX_TRIES - s.queue[id].try) +
      match s.queue[id] {
        case Waiting(_) => 7
        case InProgress(_) =>
          var w :| w in s.workers && s.workers[w].app == id;
          PhaseLeft(s.workers[w].phase)
      }
  }

  ghost function TaskApp(w: WorkerId, k: Task, s: State): AppId
    requires TaskEnabled(s, w, k)
  {
    if k.StartTask? then k.id else s.workers[w].app
  }

  lemma StepsLeftOf(s: State, w: WorkerId)
    requires Locked(s) && w in s.workers
    ensures StepsLeft(s, s.workers[w].app) == 7 * (MAX_TRIES - s.workers[w].try) + PhaseLeft(s.workers[w].phase)
  {
  }

  lemma TaskKeepsLock(s: State, w: WorkerId, k: Task)
    requires Locked(s) && TaskEnabled(s, w, k)
    ensures Locked(NextTask(s, w, k))
  {
    NextEffect(s, Works(w, k));
    EffectKeepsLock(s, NextTask(s, w, k));
  }

  /** Every worker step uses up a step of its own job, of which there are never more than 21. */
  lemma WorkersProgress(s: State, w: WorkerId, k: Task)
    requires Locked(s) && TaskEnabled(s, w, k)
    ensures Locked(NextTask(s, w, k))
    ensures StepsLeft(NextTask(s, w, k), TaskApp(w, k, s)) < StepsLeft(s, TaskApp(w, k, s)) <= 21
  {
    var t, id := NextTask(s, w, k), TaskApp(w, k, s);
    TaskKeepsLock(s, w, k);
    TaskEffect(s, w, k);
    if w in s.workers { StepsLeftOf(s, w); }
    if w in t.workers { StepsLeftOf(t, w); }
  }

  /** What a worker's step leaves of another application's job. */
  lemma OthersUntouched(s: State, w: WorkerId, k: Task, a: AppId)
    requires Locked(s) && TaskEnabled(s, w, k) && a != TaskApp(w, k, s)
    ensures var t := NextTask(s, w, k);
      && (a in t.queue <==> a in s.queue) && (a in s.queue ==> t.queue[a] == s.queue[a])
      && (forall v :: v in s.workers && s.workers[v].app == a ==> v in t.workers && t.workers[v] == s.workers[v])
  {
    TaskEffect(s, w, k);
  }

  lemma WorkersLeaveOthers(s: State, w: WorkerId, k: Task, a: AppId)
    requires Locked(s) && TaskEnabled(s, w, k) && a != TaskApp(w, k, s)
    ensures Locked(NextTask(s, w, k))
    ensures StepsLeft(NextTask(s, w, k), a) == StepsLeft(s, a)
  {
    TaskKeepsLock(s, w, k);
    OthersUntouched(s, w, k, a);
    SameStepsLeft(s, NextTask(s, w, k), a);
  }

  lemma SameStepsLeft(s: State, t: State, a: AppId)
    requires Locked(s) && Locked(t) && (a in t.queue <==> a in s.queue) && (a in s.queue ==> t.queue[a] == s.queue[a])
    requires forall v :: v in s.workers && s.workers[v].app == a ==> v in t.workers && t.workers[v] == s.workers[v]
    ensures StepsLeft(t, a) == StepsLeft(s, a)
  {
    if a in s.queue && s.queue[a].InProgress? {
      var v :| v in s.workers && s.workers[v].app == a;
      StepsLeftOf(s, v);
      StepsLeftOf(t, v);
    }
  }

  /** No live job waits for anything but a worker: its next step is always enabled. */
  lemma LiveJobsCanStep(s: State, id: AppId, idle: WorkerId)
    requires Safe(s) && id in s.queue && idle !in s.workers
    ensures exists w, k :: TaskEnabled(s, w, k) && TaskApp(w, k, s) == id
  {
    if s.queue[id].Waiting? {
      assert TaskEnabled(s, idle, StartTask(id)) && TaskApp(idle, StartTask(id), s) == id;
    } else {
      var w :| w in s.workers && s.workers[w].app == id;
      var k := match s.workers[w].phase {
        case Started => LoadTask
        case Loaded => GateTask(true)
        case Marked => CallTask
        case Submitting => SettleTask(Terminal)
        case Submitted => RecordTask(0)
        case Closing => EndTask
      };
      assert TaskEnabled(s, w, k) && TaskApp(w, k, s) == id;
    }
  }

  // ---------------------------------------------------------------- invocations of one job

  /** The invocations of `id` since its last accepted enqueue. */
  function InvokedSince(log: seq<Fact>, id: AppId): nat {
    if log == [] then 0
    else
      var f := log[|log| - 1];
      if f == Accepted(id) then 0
      else InvokedSince(log[..|log| - 1], id) + if f == Invoked(id) then 1 else 0
  }

  lemma InvokedSnoc(log: seq<Fact>, f: Fact, id: AppId)
    ensures InvokedSince(log + [f], id) ==
      if f == Accepted(id) then 0 else InvokedSince(log, id) + if f == Invoked(id) then 1 else 0
  {
    assert (log + [f])[..|log|] == log;
  }

  lemma {:induction false} InvokedSkips(log: seq<Fact>, more: seq<Fact>, id: AppId)
    requires forall f :: f in more ==> f.ApprovedBy?
    ensures InvokedSince(log + more, id) == InvokedSince(log, id)
  {
    if more == [] {
      assert log + more == log;
    } else {
      var n := |more| - 1;
      assert more[n] in more;
      InvokedSkips(log, more[..n], id);
      assert log + more == (log + more[..n]) + [more[n]];
      InvokedSnoc(log + more[..n], more[n], id);
    }
  }

  /** A live job has been invoked as often as its try says. */
  ghost predicate Counted(s: State, id: AppId) {
    if id in s.queue then
      InvokedSince(s.log, id) == match s.queue[id] { case Waiting(try) => try - 1 case InProgress(try) => try }
    else InvokedSince(s.log, id) <= MAX_TRIES
  }

  lemma InvokeKeepsCounted(s: State, t: State, w: WorkerId, a: AppId, id: AppId)
    requires Locked(s) && Invokes(s, t, w, a) && Counted(s, id)
    ensures Counted(t, id)
  {
    InvokedSnoc(s.log, Invoked(a), id);
  }

  lemma AcceptKeepsCounted(s: State, t: State, a: AppId, id: AppId)
    requires Accepts(s, t, a) && Counted(s, id)
    ensures Counted(t, id)
  {
    InvokedSnoc(s.log, Accepted(a), id);
  }

  lemma AdvanceInvokesNone(s: State, t: State, w: WorkerId, id: AppId)
    requires Advances(s, t, w)
    ensures InvokedSince(t.log, id) == InvokedSince(s.log, id)
  {
    InvokedSnoc(s.log, Passed(s.workers[w].app), id);
    InvokedSnoc(s.log, SubmitCalled(s.workers[w].app), id);
    InvokedSnoc(s.log, SubmitConfirmed(s.workers[w].app), id);
  }

  lemma SameCounted(s: State, t: State, id: AppId)
    requires t.queue == s.queue && InvokedSince(t.log, id) == InvokedSince(s.log, id) && Counted(s, id)
    ensures Counted(t, id)
  {
  }

  lemma ReleaseKeepsCounted(s: State, t: State, w: WorkerId, id: AppId)
    requires Locked(s) && (Releases(s, t, w) || GivesBack(s, t, w)) && Counted(s, id)
    ensures Counted(t, id)
  {
    assert s.queue[s.workers[w].app] == InProgress(s.workers[w].try);
  }

  lemma EffectKeepsCounted(s: State, t: State, id: AppId)
    requires Locked(s) && Effect(s, t) && Counted(s, id)
    ensures Counted(t, id)
  {
    if w, a :| Invokes(s, t, w, a) {
      InvokeKeepsCounted(s, t, w, a, id);
    } else if a :| Accepts(s, t, a) {
      AcceptKeepsCounted(s, t, a, id);
    } else if w :| Advances(s, t, w) {
      AdvanceInvokesNone(s, t, w, id);
      SameCounted(s, t, id);
    } else if w :| Releases(s, t, w) || GivesBack(s, t, w) {
      ReleaseKeepsCounted(s, t, w, id);
    } else {
      var more := t.log[|s.log|..];
      assert t.log == s.log + more;
      InvokedSkips(s.log, more, id);
    }
  }

  lemma {:induction false} RunsCount(s: State, es: seq<Event>, id: AppId)
    requires Initial(s) && After(s, es).Some?
    ensures Counted(After(s, es).value, id)
  {
    if es != [] {
      var n := |es| - 1;
      RunsCount(s, es[..n], id);
      InitialIsSafe(s);
      RunsAreSafe(s, es[..n]);
      NextEffect(After(s, es[..n]).value, es[n]);
      EffectKeepsCounted(After(s, es[..n]).value, After(s, es).value, id);
    }
  }

  /** At every point of a run, an application has been invoked at most `MAX_TRIES` times since its last
      accepted enqueue; and while its job lives, exactly as often as the job's try says. */
  lemma AtMostMaxTriesEach(s: State, es: seq<Event>, id: AppId)
    requires Initial(s) && After(s, es).Some?
    ensures var t := After(s, es).value;
      && InvokedSince(t.log, id) <= MAX_TRIES
      && (id in t.queue && t.queue[id].InProgress? ==> InvokedSince(t.log, id) == t.queue[id].try)
      && (id in t.queue && t.queue[id].Waiting? ==> InvokedSince(t.log, id) == t.queue[id].try - 1)
  {
    RunsCount(s, es, id);
    InitialIsSafe(s);
    RunsAreSafe(s, es);
  }
}
