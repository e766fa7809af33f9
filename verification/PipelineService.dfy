/** The services and the worker of the apply pipeline as they run: one object whose fields the
    transactions update in place, each transaction proved equal to its step of the state machine. */
module PipelineService {
  import opened Wrappers
  import opened Pipeline
  import opened PipelineReruns
  import opened PipelineSafety
  import opened PipelineTheorems

  /** The jobs for which `user` has an active application. */
  function ActiveJobs(apps: map<AppId, App>, user: UserId): (jobs: set<JobId>)
    ensures forall j: JobId :: j in jobs <==> HasActive(apps, user, j)
  {
    set a | a in apps && apps[a].user == user && IsActive(apps[a].status) :: apps[a].job
  }

  /** Whether the end of a submission gives the job back for its next try. */
  predicate GoesBack(outcome: Outcome, try: nat) {
    try < MAX_TRIES && (outcome.Transient? || (outcome.Cancelled? && outcome.rerun))
  }

  /** The row an uninterrupted submission leaves. */
  function Ended(app: App, outcome: Outcome, try: nat, now: Time): App {
    match outcome
    case Success => RecordedRow(app, now)
    case Transient => if try < MAX_TRIES then app else app.(status := Failed, note := Some(Exhausted(try)))
    case Terminal => app.(status := Failed, note := Some(Broken))
    case Cancelled(marked, _) => if marked then app.(status := Failed, note := Some(TimedOut)) else app
  }

  /** Whether an uninterrupted invocation gets as far as the submission. */
  ghost predicate Submits(apps: map<AppId, App>, id: AppId, gateOk: bool) {
    id in apps && apps[id].status != Applied && gateOk && !Clashes(apps, id, apps[id].(status := Applying))
  }

  /** The rows after an invocation that does not get to submit: a refused gate marks the row as failed. */
  function Refused(apps: map<AppId, App>, id: AppId, gateOk: bool): map<AppId, App>
    requires id in apps
  {
    if gateOk then apps else apps[id := apps[id].(status := Failed, note := Some(BelowThreshold))]
  }

  /** The queue with a first try for each of `rows` that has no live job, if it can be reached. */
  function Enqueued(queue: map<AppId, Ticket>, rows: seq<AppId>, available: bool): map<AppId, Ticket> {
    map id | id in queue.Keys + (if available then set r | r in rows else {}) ::
      if id in queue then queue[id] else Waiting(1)
  }

  lemma OneMoreEnqueued(queue: map<AppId, Ticket>, rows: seq<AppId>, k: nat, available: bool)
    requires k < |rows|
    ensures var before := Enqueued(queue, rows[..k], available);
      Enqueued(queue, rows[..k + 1], available) ==
        if available && rows[k] !in before then before[rows[k] := Waiting(1)] else before
  {
    assert forall r :: r in rows[..k + 1] <==> r in rows[..k] || r == rows[k];
  }

  lemma DropFirst(rows: seq<AppId>, k: nat, others: multiset<AppId>)
    requires k < |rows|
    ensures others + multiset(rows[k..]) - multiset{rows[k]} == others + multiset(rows[k + 1..])
    ensures rows[k] in others + multiset(rows[k..])
  {
    assert rows[k..] == [rows[k]] + rows[k + 1..];
  }

  function Confirmations(log: seq<Fact>, id: AppId): nat {
    multiset(log)[SubmitConfirmed(id)]
  }

  lemma LoadCounts(log: seq<Fact>, id: AppId)
    ensures Confirmations(log + [Invoked(id)], id) == Confirmations(log, id)
    ensures Confirmations(log + [Invoked(id), Passed(id)], id) == Confirmations(log, id)
  {
    assert multiset(log + [Invoked(id)]) == multiset(log) + multiset([Invoked(id)]);
    assert multiset(log + [Invoked(id), Passed(id)]) == multiset(log) + multiset([Invoked(id), Passed(id)]);
  }

  lemma SubmissionCounts(log: seq<Fact>, id: AppId, confirmed: bool)
    ensures Confirmations(log + [SubmitCalled(id)] + (if confirmed then [SubmitConfirmed(id)] else []), id) ==
      Confirmations(log, id) + if confirmed then 1 else 0
  {
    var more := if confirmed then [SubmitConfirmed(id)] else [];
    assert multiset(log + [SubmitCalled(id)] + more) == multiset(log) + multiset([SubmitCalled(id)]) + multiset(more);
  }

  class Backend {
    var apps: map<AppId, App>
    var jobs: map<JobId, UserId>
    var resumes: map<ResumeId, UserId>
    var queue: map<AppId, Ticket>
    var workers: map<WorkerId, Run>
    ghost var toDispatch: multiset<AppId>
    ghost var toEnqueue: multiset<AppId>
    ghost var log: seq<Fact>

    ghost function Snapshot(): State
      reads this
    {
      State(apps, jobs, resumes, queue, workers, toDispatch, toEnqueue, log)
    }

    constructor (jobs: map<JobId, UserId>, resumes: map<ResumeId, UserId>)
      ensures Initial(Snapshot()) && Safe(Snapshot())
      ensures this.jobs == jobs && this.resumes == resumes
    {
      apps, queue, workers := map[], map[], map[];
      this.jobs, this.resumes := jobs, resumes;
      toDispatch, toEnqueue, log := multiset{}, multiset{}, [];
    }

    /** Tries the insert first, and falls back to the row the index protects. */
    method CreateApplication(user: UserId, job: JobId, resume: Option<ResumeId>, mode: Mode, newId: AppId)
      returns (r: Result<AppId, Failure>)
      requires IndexHolds(apps) && newId !in apps
      modifies this
      ensures (Snapshot(), r) == Create(old(Snapshot()), user, job, resume, mode, newId)
      ensures IndexHolds(apps)
      ensures newId in apps ==> MadeBy(apps[newId], user, job, resume, mode)
    {
      PutKeepsIndexIfNew(Snapshot(), user, job, resume, mode, newId);
      if !Owned(jobs, job, user) {
        return Err(NotFound);
      }
      if resume.Some? && !Owned(resumes, resume.value, user) {
        return Err(NotFound);
      }
      var application := NewRow(user, job, resume, mode);
      if Clashes(apps, newId, application) {
        var existing :| existing in apps && apps[existing].user == user && apps[existing].job == job &&
          IsActive(apps[existing].status);
        assert Rivals(apps[existing], application);
        assert existing == ActiveFor(apps, user, job);
        toDispatch := toDispatch + multiset{existing};
        return Ok(existing);
      }
      apps := apps[newId := application];
      toDispatch := toDispatch + multiset{newId};
      r := Ok(newId);
    }

    /** Skips the jobs that have an active application, adds a row for each other one, and commits
        all of them or none. */
    method CreateApplications(user: UserId, jobIds: seq<JobId>, resume: Option<ResumeId>, mode: Mode,
                              newIds: seq<AppId>)
      returns (r: Result<seq<AppId>, Failure>)
      requires IndexHolds(apps) && |newIds| == |jobIds|
      modifies this
      ensures (Snapshot(), r) == CreateBatch(old(Snapshot()), user, jobIds, resume, mode, newIds)
      ensures IndexHolds(apps)
      ensures r.Ok? && FreshIds(old(apps), newIds) ==>
        Extended(old(apps), apps, user, resume, mode, r.value, NewJobs(old(apps), user, jobIds))
    {
      if resume.Some? && !Owned(resumes, resume.value, user) {
        return Err(NotFound);
      }
      if exists j :: j in jobIds && !Owned(jobs, j, user) {
        return Err(NotFound);
      }
      var existingActive := ActiveJobs(apps, user);
      var applications, session := AddRows(apps, user, jobIds, resume, mode, newIds, existingActive);
      r := if IndexHolds(session) then Ok(Ids(applications)) else Err(Conflict);
      if r.Ok? {
        BatchExtendsIfFresh(apps, user, jobIds, resume, mode, newIds);
        apps := session;
        toDispatch := toDispatch + multiset(Ids(applications));
      }
    }

    /** The rows a batch adds to the session, skipping `existingActive`. */
    static method AddRows(apps: map<AppId, App>, user: UserId, jobIds: seq<JobId>, resume: Option<ResumeId>, mode: Mode,
                          newIds: seq<AppId>, existingActive: set<JobId>)
      returns (applications: seq<(AppId, JobId)>, session: map<AppId, App>)
      requires |newIds| == |jobIds|
      requires forall j: JobId :: j in existingActive <==> HasActive(apps, user, j)
      ensures applications == BatchRows(apps, user, jobIds, newIds)
      ensures session == Inserted(apps, user, resume, mode, applications)
    {
      applications, session := [], apps;
      for k := 0 to |jobIds|
        invariant applications == BatchRows(apps, user, jobIds[..k], newIds[..k])
        invariant session == Inserted(apps, user, resume, mode, applications)
      {
        assert jobIds[..k + 1][..k] == jobIds[..k] && newIds[..k + 1][..k] == newIds[..k];
        if jobIds[k] !in existingActive {
          ghost var before := applications;
          session := session[newIds[k] := NewRow(user, jobIds[k], resume, mode)];
          applications := applications + [(newIds[k], jobIds[k])];
          assert applications[..|applications| - 1] == before;
        }
      }
      assert jobIds[..|jobIds|] == jobIds && newIds[..|newIds|] == newIds;
    }

    /** Returns whether the application is now owed an enqueue. */
    method DispatchForMode(id: AppId) returns (owed: bool)
      requires id in apps && id in toDispatch
      modifies this`apps, this`toDispatch, this`toEnqueue
      ensures Snapshot() == Dispatch(old(Snapshot()), id)
      ensures owed <==> toEnqueue == old(toEnqueue) + multiset{id}
      ensures owed <==> old(apps)[id].mode == Autonomous && !Clashes(old(apps), id, old(apps)[id].(status := Queued))
    {
      toDispatch := toDispatch - multiset{id};
      var row := apps[id];
      owed := false;
      if row.mode == Autonomous {
        row := row.(status := Queued);
        if !Clashes(apps, id, row) {
          apps := apps[id := row];
          toEnqueue := toEnqueue + multiset{id};
          owed := true;
        }
      } else {
        row := row.(status := PendingReview);
        if !Clashes(apps, id, row) {
          apps := apps[id := row];
        }
      }
    }

    method EnqueueApply(id: AppId, available: bool) returns (accepted: bool)
      requires id in toEnqueue
      modifies this`queue, this`toEnqueue, this`log
      ensures Snapshot() == Enqueue(old(Snapshot()), id, available)
      ensures accepted <==> available && id !in old(queue)
    {
      toEnqueue := toEnqueue - multiset{id};
      if !available || id in queue {
        return false;
      }
      queue := queue[id := Waiting(1)];
      log := log + [Accepted(id)];
      accepted := true;
    }

    method ApproveApplication(user: UserId, id: AppId) returns (r: Result<AppId, Failure>)
      modifies this`apps, this`toEnqueue, this`log
      ensures (Snapshot(), r) == Approve(old(Snapshot()), user, id)
    {
      if id !in apps || apps[id].user != user {
        return Err(NotFound);
      }
      if apps[id].status != PendingReview && apps[id].status != Queued {
        return Err(BadState);
      }
      apps := apps[id := apps[id].(status := Approved)];
      toEnqueue := toEnqueue + multiset{id};
      log := log + [ApprovedBy(id)];
      r := Ok(id);
    }

    /** The scoped SELECT of the staged rows among `ids`. */
    method SelectStaged(user: UserId, ids: seq<AppId>) returns (rows: seq<AppId>)
      ensures Selects(apps, user, ids, rows)
    {
      rows := [];
      for k := 0 to |ids|
        invariant Selects(apps, user, ids[..k], rows)
      {
        if Staged(apps, user, ids[k]) && ids[k] !in rows {
          rows := rows + [ids[k]];
        }
      }
      assert ids[..|ids|] == ids;
    }

    /** Approves every selected row in one commit; the caller enqueues them one by one afterwards. */
    method BulkApproveRows(user: UserId, ids: seq<AppId>) returns (rows: seq<AppId>)
      modifies this`apps, this`toEnqueue, this`log
      ensures Selects(old(apps), user, ids, rows)
      ensures Snapshot() == BulkApprove(old(Snapshot()), rows)
    {
      rows := SelectStaged(user, ids);
      for k := 0 to |rows|
        invariant apps == AllApproved(old(apps), rows[..k])
        invariant toEnqueue == old(toEnqueue) && log == old(log)
        invariant Selects(old(apps), user, ids, rows)
      {
        assert rows[k] in rows && rows[..k + 1] == rows[..k] + [rows[k]];
        assert rows[k] !in rows[..k];
        apps := apps[rows[k] := apps[rows[k]].(status := Approved)];
      }
      assert rows[..|rows|] == rows;
      assert apps == AllApproved(old(apps), rows);
      toEnqueue := toEnqueue + multiset(rows);
      log := log + Approvals(rows);
    }

    method UpdateStatus(user: UserId, id: AppId, status: Status, note: Option<string>, now: Time)
      returns (r: Result<AppId, Failure>)
      modifies this`apps
      ensures (Snapshot(), r) == SetStatus(old(Snapshot()), user, id, status, note, now)
    {
      if id !in apps || apps[id].user != user {
        return Err(NotFound);
      }
      var app := apps[id].(status := status);
      if note.Some? {
        app := app.(note := Some(Written(note.value)));
      }
      if status == Applied {
        app := app.(appliedAt := Some(now));
      }
      if Clashes(apps, id, app) {
        return Err(Conflict);
      }
      apps := apps[id := app];
      r := Ok(id);
    }

    // -------------------------------------------------------------- the worker, commit by commit

    method StartJob(w: WorkerId, id: AppId)
      requires TaskEnabled(Snapshot(), w, StartTask(id))
      modifies this`queue, this`workers, this`log
      ensures Snapshot() == NextTask(old(Snapshot()), w, StartTask(id))
    {
      var jobTry := queue[id].try;
      queue := queue[id := InProgress(jobTry)];
      workers := workers[w := Run(id, jobTry, Started)];
      log := log + [Invoked(id)];
    }

    method EndJob(w: WorkerId)
      requires w in workers
      modifies this`queue, this`workers
      ensures Snapshot() == Finish(old(Snapshot()), w)
    {
      queue := queue - {workers[w].app};
      workers := workers - {w};
    }

    method LoadApplication(w: WorkerId)
      requires TaskEnabled(Snapshot(), w, LoadTask)
      modifies this`queue, this`workers, this`log
      ensures Snapshot() == NextTask(old(Snapshot()), w, LoadTask)
    {
      var id := workers[w].app;
      if id !in apps {
        EndJob(w);
      } else if apps[id].status == Applied {
        EndJob(w);
      } else {
        log := log + [Passed(id)];
        workers := workers[w := workers[w].(phase := Loaded)];
      }
    }

    method FailApplication(id: AppId, note: Note)
      requires id in apps
      modifies this`apps
      ensures Snapshot() == MarkFailed(old(Snapshot()), id, note)
    {
      apps := apps[id := apps[id].(status := Failed)];
      apps := apps[id := apps[id].(note := Some(note))];
    }

    method PassGate(w: WorkerId, ok: bool)
      requires TaskEnabled(Snapshot(), w, GateTask(ok))
      modifies this`apps, this`queue, this`workers
      ensures Snapshot() == NextTask(old(Snapshot()), w, GateTask(ok))
    {
      var id := workers[w].app;
      if !ok {
        FailApplication(id, BelowThreshold);
        workers := workers[w := workers[w].(phase := Closing)];
        return;
      }
      var row := apps[id].(status := Applying);
      if Clashes(apps, id, row) {
        EndJob(w);
        return;
      }
      apps := apps[id := row];
      workers := workers[w := workers[w].(phase := Marked)];
    }

    method BeginSubmission(w: WorkerId)
      requires TaskEnabled(Snapshot(), w, CallTask)
      modifies this`workers, this`log
      ensures Snapshot() == NextTask(old(Snapshot()), w, CallTask)
    {
      log := log + [SubmitCalled(workers[w].app)];
      workers := workers[w := workers[w].(phase := Submitting)];
    }

    /** Arq's side of an invocation that ends in a cancellation or an error: rerun, or dropped. */
    method InterruptJob(w: WorkerId, rerun: bool)
      requires w in workers
      modifies this`queue, this`workers
      ensures Snapshot() == Interrupt(old(Snapshot()), w, rerun)
    {
      if rerun && workers[w].try < MAX_TRIES {
        queue := queue[workers[w].app := Waiting(workers[w].try + 1)];
        workers := workers - {w};
      } else {
        EndJob(w);
      }
    }

    method SettleSubmission(w: WorkerId, outcome: Outcome)
      requires TaskEnabled(Snapshot(), w, SettleTask(outcome))
      modifies this`apps, this`queue, this`workers, this`log
      ensures Snapshot() == NextTask(old(Snapshot()), w, SettleTask(outcome))
    {
      var id, jobTry := workers[w].app, workers[w].try;
      match outcome {
        case Success =>
          workers := workers[w := workers[w].(phase := Submitted)];
          log := log + [SubmitConfirmed(id)];
        case Transient =>
          if jobTry >= MAX_TRIES {
            FailApplication(id, Exhausted(jobTry));
            workers := workers[w := workers[w].(phase := Closing)];
          } else {
            queue := queue[id := Waiting(jobTry + 1)];
            workers := workers - {w};
          }
        case Terminal =>
          FailApplication(id, Broken);
          workers := workers[w := workers[w].(phase := Closing)];
        case Cancelled(marked, rerun) =>
          if marked {
            FailApplication(id, TimedOut);
          }
          InterruptJob(w, rerun);
      }
    }

    method RecordSuccess(w: WorkerId, now: Time)
      requires TaskEnabled(Snapshot(), w, RecordTask(now))
      modifies this`apps, this`queue, this`workers
      ensures Snapshot() == NextTask(old(Snapshot()), w, RecordTask(now))
    {
      var id := workers[w].app;
      var row := apps[id].(status := Applied);
      row := row.(appliedAt := Some(now));
      if Clashes(apps, id, row) {
        EndJob(w);
        return;
      }
      apps := apps[id := row];
      workers := workers[w := workers[w].(phase := Closing)];
    }

    /** A confirmed submission, recorded with no other event in between. */
    method ConcludeSuccess(w: WorkerId, now: Time)
      requires IndexHolds(apps) && Stands(Snapshot(), w, Submitted) && IsActive(apps[workers[w].app].status)
      modifies this`apps, this`queue, this`workers
      ensures IndexHolds(apps) && workers == old(workers) - {w} && queue == old(queue) - {old(workers)[w].app}
      ensures apps == old(apps)[old(workers)[w].app := RecordedRow(old(apps)[old(workers)[w].app], now)]
    {
      var Run(id, try, _) := workers[w];
      RecordStep(Snapshot(), w, id, try, now);
      DroppedTwice(workers, w, Run(id, try, Closing));
      RecordSuccess(w, now);
      EndJob(w);
    }

    /** Any other end of a submission: given back, or over. */
    method ConcludeFailure(w: WorkerId, outcome: Outcome, now: Time)
      requires IndexHolds(apps) && Stands(Snapshot(), w, Submitting) && !outcome.Success?
      modifies this`apps, this`queue, this`workers, this`log
      ensures IndexHolds(apps) && workers == old(workers) - {w} && log == old(log)
      ensures var Run(id, try, _) := old(workers)[w];
        && apps == old(apps)[id := Ended(old(apps)[id], outcome, try, now)]
        && queue == if GoesBack(outcome, try) then old(queue)[id := Waiting(try + 1)] else old(queue) - {id}
    {
      var Run(id, try, _) := workers[w];
      SettledIsEnded(Snapshot(), w, id, try, outcome, now);
      SettledGoesBack(Snapshot(), w, id, try, outcome);
      TaskKeepsIndex(Snapshot(), w, SettleTask(outcome));
      DroppedTwice(workers, w, Run(id, try, Closing));
      SettleSubmission(w, outcome);
      if w in workers {
        EndJob(w);
      }
    }

    /** The end of a submission and what follows it. */
    method Conclude(w: WorkerId, outcome: Outcome, now: Time)
      requires IndexHolds(apps) && Stands(Snapshot(), w, Submitting) && IsActive(apps[workers[w].app].status)
      modifies this`apps, this`queue, this`workers, this`log
      ensures IndexHolds(apps) && workers == old(workers) - {w}
      ensures var Run(id, try, _) := old(workers)[w];
        && apps == old(apps)[id := Ended(old(apps)[id], outcome, try, now)]
        && queue == (if GoesBack(outcome, try) then old(queue)[id := Waiting(try + 1)] else old(queue) - {id})
        && log == old(log) + (if outcome.Success? then [SubmitConfirmed(id)] else [])
    {
      var Run(id, try, _) := workers[w];
      if outcome.Success? {
        ConfirmStep(Snapshot(), w, id, try);
        DroppedTwice(workers, w, Run(id, try, Submitted));
        SettleSubmission(w, outcome);
        ConcludeSuccess(w, now);
      } else {
        ConcludeFailure(w, outcome, now);
      }
    }

    /** The rest of an invocation whose application is marked, with no other event in between. */
    method Submit(w: WorkerId, outcome: Outcome, now: Time)
      requires IndexHolds(apps) && Stands(Snapshot(), w, Marked) && IsActive(apps[workers[w].app].status)
      modifies this`apps, this`queue, this`workers, this`log
      ensures IndexHolds(apps) && workers == old(workers) - {w}
      ensures var Run(id, try, _) := old(workers)[w];
        && apps == old(apps)[id := Ended(old(apps)[id], outcome, try, now)]
        && queue == (if GoesBack(outcome, try) then old(queue)[id := Waiting(try + 1)] else old(queue) - {id})
        && Confirmations(log, id) == Confirmations(old(log), id) + if outcome.Success? then 1 else 0
    {
      var Run(id, try, _) := workers[w];
      CallStep(Snapshot(), w, id, try);
      DroppedTwice(workers, w, Run(id, try, Submitting));
      SubmissionCounts(log, id, outcome.Success?);
      BeginSubmission(w);
      Conclude(w, outcome, now);
    }

    /** The gate and the commit of the in-flight marker: whether the invocation gets past them. */
    method Admit(w: WorkerId, gateOk: bool) returns (marked: bool)
      requires IndexHolds(apps) && TaskEnabled(Snapshot(), w, GateTask(gateOk))
      modifies this`apps, this`queue, this`workers
      ensures IndexHolds(apps)
      ensures var Run(id, try, _) := old(workers)[w];
        && (marked <==> gateOk && !Clashes(old(apps), id, old(apps)[id].(status := Applying)))
        && (marked ==> apps == InApplying(old(Snapshot()), id).apps && queue == old(queue) &&
                       workers == old(workers)[w := Run(id, try, Marked)])
        && (!marked ==> queue == old(queue) - {id} && workers == old(workers) - {w})
        && (!marked ==> apps == (if gateOk then old(apps) else MarkFailed(old(Snapshot()), id, BelowThreshold).apps))
    {
      var Run(id, try, _) := workers[w];
      TaskKeepsIndex(Snapshot(), w, GateTask(gateOk));
      DroppedTwice(workers, w, Run(id, try, Closing));
      PassGate(w, gateOk);
      marked := w in workers && workers[w].phase == Marked;
      if w in workers && workers[w].phase == Closing {
        EndJob(w);
      }
    }

    /** An invocation up to its load: whether it finds an application that is not applied. */
    method Begin(w: WorkerId, id: AppId) returns (loaded: bool)
      requires TaskEnabled(Snapshot(), w, StartTask(id))
      modifies this`queue, this`workers, this`log
      ensures loaded <==> id in apps && apps[id].status != Applied
      ensures log == old(log) + if loaded then [Invoked(id), Passed(id)] else [Invoked(id)]
      ensures !loaded ==> workers == old(workers) && queue == old(queue) - {id}
      ensures loaded ==>
        queue == old(queue)[id := InProgress(old(queue)[id].try)] &&
        workers == old(workers)[w := Run(id, old(queue)[id].try, Loaded)]
    {
      ghost var try := queue[id].try;
      StartJob(w, id);
      DroppedTwice(old(queue), id, InProgress(try));
      DroppedTwice(old(workers), w, Run(id, try, Started));
      if id in apps && apps[id].status != Applied {
        LoadStep(Snapshot(), w, id, try);
        UpdateTwice(old(workers), w, Run(id, try, Started), Run(id, try, Loaded));
      }
      LoadApplication(w);
      loaded := w in workers;
      assert old(log) + [Invoked(id)] + [Passed(id)] == old(log) + [Invoked(id), Passed(id)];
    }

    /** The rest of a loaded invocation. */
    method Proceed(w: WorkerId, gateOk: bool, outcome: Outcome, now: Time)
      requires IndexHolds(apps) && TaskEnabled(Snapshot(), w, GateTask(gateOk))
      modifies this`apps, this`queue, this`workers, this`log
      ensures workers == old(workers) - {w}
      ensures var Run(id, try, _) := old(workers)[w];
        if gateOk && !Clashes(old(apps), id, old(apps)[id].(status := Applying)) then
          apps == old(apps)[id := Ended(old(apps)[id].(status := Applying), outcome, try, now)] &&
          queue == (if GoesBack(outcome, try) then old(queue)[id := Waiting(try + 1)] else old(queue) - {id}) &&
          Confirmations(log, id) == Confirmations(old(log), id) + if outcome.Success? then 1 else 0
        else queue == old(queue) - {id} && log == old(log) && apps == Refused(old(apps), id, gateOk)
    {
      var Run(id, try, _) := workers[w];
      DroppedTwice(workers, w, Run(id, try, Marked));
      UpdateTwice(apps, id, apps[id].(status := Applying), Ended(apps[id].(status := Applying), outcome, try, now));
      var marked := Admit(w, gateOk);
      if marked {
        Submit(w, outcome, now);
      }
    }

    /** One invocation of the apply task with no other event in between. */
    method ApplyToJob(w: WorkerId, id: AppId, gateOk: bool, outcome: Outcome, now: Time)
      requires IndexHolds(apps) && TaskEnabled(Snapshot(), w, StartTask(id))
      requires gateOk || (id in apps && apps[id].resume.Some?)
      modifies this`apps, this`queue, this`workers, this`log
      ensures workers == old(workers)
      ensures !Submits(old(apps), id, gateOk) ==> queue == old(queue) - {id}
      ensures id in old(apps) && old(apps)[id].status == Applied ==> apps == old(apps)
      ensures id in old(apps) && old(apps)[id].status != Applied && !Submits(old(apps), id, gateOk) ==>
        apps == Refused(old(apps), id, gateOk)
      ensures Submits(old(apps), id, gateOk) ==> var try := old(queue)[id].try;
        && apps == old(apps)[id := Ended(old(apps)[id].(status := Applying), outcome, try, now)]
        && queue == if GoesBack(outcome, try) then old(queue)[id := Waiting(try + 1)] else old(queue) - {id}
      ensures Confirmations(log, id) == Confirmations(old(log), id) +
        if Submits(old(apps), id, gateOk) && outcome.Success? then 1 else 0
    {
      ghost var try := queue[id].try;
      LoadCounts(log, id);
      var loaded := Begin(w, id);
      if loaded {
        DroppedTwice(old(queue), id, InProgress(try));
        DroppedTwice(old(workers), w, Run(id, try, Loaded));
        UpdateTwice(old(queue), id, InProgress(try), Waiting(try + 1));
        Proceed(w, gateOk, outcome, now);
      }
    }

    // -------------------------------------------------------------- the routes, run alone

    /** Create and dispatch: a new autonomous application ends in the queue, a new review or batch
        application stays out of it. */
    method CreateRoute(user: UserId, job: JobId, resume: Option<ResumeId>, mode: Mode, newId: AppId, available: bool)
      returns (r: Result<AppId, Failure>)
      requires IndexHolds(apps) && newId !in apps && newId !in queue
      modifies this
      ensures IndexHolds(apps)
      ensures r.Err? ==> Snapshot() == old(Snapshot())
      ensures r.Ok? ==> r.value in apps
      ensures r == Ok(newId) ==> MadeBy(apps[newId].(status := Queued), user, job, resume, mode)
      ensures r.Ok? && r.value == newId && mode != Autonomous ==>
        apps[newId].status == PendingReview && queue == old(queue)
      ensures r.Ok? && r.value == newId && mode == Autonomous ==>
        apps[newId].status == Queued && (available ==> queue == old(queue)[newId := Waiting(1)])
    {
      ghost var s := Snapshot();
      r := CreateApplication(user, job, resume, mode, newId);
      CreatedIsOwed(s, user, job, resume, mode, newId);
      if r.Ok? {
        ghost var m := Snapshot();
        DispatchWrites(m, r.value);
        var owed := DispatchForMode(r.value);
        if owed {
          EnqueueQueues(Snapshot(), r.value, available);
          var accepted := EnqueueApply(r.value, available);
        }
      }
    }

    /** Approve and enqueue. */
    method ApproveRoute(user: UserId, id: AppId, available: bool) returns (r: Result<AppId, Failure>)
      modifies this`apps, this`queue, this`toEnqueue, this`log
      ensures r.Ok? <==> Staged(old(apps), user, id)
      ensures r.Err? ==> Snapshot() == old(Snapshot())
      ensures r.Ok? ==> apps == old(apps)[id := old(apps)[id].(status := Approved)] && toEnqueue == old(toEnqueue)
      ensures r.Ok? ==> queue == if available && id !in old(queue) then old(queue)[id := Waiting(1)] else old(queue)
    {
      r := ApproveApplication(user, id);
      if r.Ok? {
        var accepted := EnqueueApply(id, available);
        assert toEnqueue == old(toEnqueue) + multiset{id} - multiset{id} == old(toEnqueue);
      }
    }

    /** Enqueues `rows` one by one; the live jobs stay as they are. */
    method EnqueueAll(rows: seq<AppId>, available: bool, ghost others: multiset<AppId>)
      requires toEnqueue == others + multiset(rows)
      modifies this`queue, this`toEnqueue, this`log
      ensures toEnqueue == others && old(log) <= log
      ensures queue == Enqueued(old(queue), rows, available)
    {
      assert queue == Enqueued(queue, rows[..0], available);
      for k := 0 to |rows|
        invariant toEnqueue == others + multiset(rows[k..]) && old(log) <= log
        invariant queue == Enqueued(old(queue), rows[..k], available)
      {
        OneMoreEnqueued(old(queue), rows, k, available);
        DropFirst(rows, k, others);
        var accepted := EnqueueApply(rows[k], available);
      }
      assert rows[..|rows|] == rows && rows[|rows|..] == [];
    }

    /** Approves the staged applications among `ids` and enqueues them one by one. */
    method BulkApproveRoute(user: UserId, ids: seq<AppId>, available: bool) returns (count: nat)
      modifies this`apps, this`queue, this`toEnqueue, this`log
      ensures count == |set id | id in ids && Staged(old(apps), user, id)|
      ensures forall id :: id in apps <==> id in old(apps)
      ensures forall id :: id in apps ==>
        apps[id] ==
          (if id in ids && Staged(old(apps), user, id) then old(apps)[id].(status := Approved) else old(apps)[id])
      ensures toEnqueue == old(toEnqueue)
      ensures forall id :: id in queue <==>
        id in old(queue) || (available && id in ids && Staged(old(apps), user, id))
      ensures forall id :: id in queue ==> queue[id] == if id in old(queue) then old(queue)[id] else Waiting(1)
    {
      var rows := BulkApproveRows(user, ids);
      EnqueueAll(rows, available, old(toEnqueue));
      count := |rows|;
      CountsDistinct(rows, set id | id in ids && Staged(old(apps), user, id));
    }
  }

  /** Any other end than a success is written, if at all, by its own handler. */
  lemma SettledIsEnded(s: State, w: WorkerId, id: AppId, try: nat, outcome: Outcome, now: Time)
    requires id in s.apps && w in s.workers && s.workers[w] == Run(id, try, Submitting) && !outcome.Success?
    ensures Settle(s, w, outcome).apps == s.apps[id := Ended(s.apps[id], outcome, try, now)]
  {
    assert s.apps[id := s.apps[id]] == s.apps;
  }

  lemma SettledGoesBack(s: State, w: WorkerId, id: AppId, try: nat, outcome: Outcome)
    requires id in s.apps && w in s.workers && s.workers[w] == Run(id, try, Submitting) && !outcome.Success?
    ensures var t := Settle(s, w, outcome);
      t.log == s.log &&
      if w in t.workers then
        !GoesBack(outcome, try) && t.queue == s.queue && t.workers == s.workers[w := Run(id, try, Closing)]
      else
        t.workers == s.workers - {w} &&
        t.queue == if GoesBack(outcome, try) then s.queue[id := Waiting(try + 1)] else s.queue - {id}
  {
    if outcome.Cancelled? {
      var m := if outcome.marked then MarkFailed(s, id, TimedOut) else s;
      InterruptGoesBack(m, w, id, try, outcome.rerun);
    }
  }

  lemma InterruptGoesBack(s: State, w: WorkerId, id: AppId, try: nat, rerun: bool)
    requires w in s.workers && s.workers[w].app == id && s.workers[w].try == try
    ensures var t := Interrupt(s, w, rerun);
      t.log == s.log && t.workers == s.workers - {w} &&
      t.queue == if rerun && try < MAX_TRIES then s.queue[id := Waiting(try + 1)] else s.queue - {id}
  {
  }

  lemma {:induction false} CountsDistinct(rows: seq<AppId>, ids: set<AppId>)
    requires forall i, j :: 0 <= i < j < |rows| ==> rows[i] != rows[j]
    requires forall id :: id in rows <==> id in ids
    ensures |ids| == |rows|
  {
    if rows == [] {
      assert ids == {};
    } else {
      var n := |rows| - 1;
      CountsDistinct(rows[..n], ids - {rows[n]});
    }
  }

  lemma BatchExtendsIfFresh(apps: map<AppId, App>, user: UserId, jobs: seq<JobId>, resume: Option<ResumeId>, mode: Mode,
                            newIds: seq<AppId>)
    requires |newIds| == |jobs|
    ensures var rows := BatchRows(apps, user, jobs, newIds); FreshIds(apps, newIds) ==>
      Extended(apps, Inserted(apps, user, resume, mode, rows), user, resume, mode, Ids(rows), NewJobs(apps, user, jobs))
  {
    if FreshIds(apps, newIds) { BatchExtends(apps, user, jobs, resume, mode, newIds); }
  }

  lemma DispatchWrites(s: State, id: AppId)
    requires IndexHolds(s.apps) && id in s.apps && id in s.toDispatch
    ensures var t := Dispatch(s, id);
      && IndexHolds(t.apps) && id in t.apps && t.queue == s.queue
      && (FreelyWritable(s.apps, id) ==>
        t.apps[id].status == if s.apps[id].mode == Autonomous then Queued else PendingReview)
  {
    CallKeepsIndex(s, DispatchCall(id));
  }

  lemma EnqueueQueues(s: State, id: AppId, available: bool)
    requires id in s.toEnqueue
    ensures Enqueue(s, id, available).apps == s.apps
    ensures available && id !in s.queue ==> Enqueue(s, id, available).queue == s.queue[id := Waiting(1)]
  {
  }

  /** No status written to this row can violate the index. */
  ghost predicate FreelyWritable(apps: map<AppId, App>, id: AppId)
    requires id in apps
  {
    forall status :: !Clashes(apps, id, apps[id].(status := status))
  }

  lemma CreatedIsOwed(s: State, user: UserId, job: JobId, resume: Option<ResumeId>, mode: Mode, newId: AppId)
    requires IndexHolds(s.apps) && newId !in s.apps
    ensures var (t, r) := Create(s, user, job, resume, mode, newId);
      && (r.Err? ==> t == s)
      && (r.Ok? ==> r.value in t.apps && r.value in t.toDispatch && t.queue == s.queue)
      && (r == Ok(newId) ==> FreelyWritable(t.apps, newId) && t.apps[newId] == NewRow(user, job, resume, mode))
  {
    PutKeepsIndexIfNew(s, user, job, resume, mode, newId);
    var (t, r) := Create(s, user, job, resume, mode, newId);
    if r == Ok(newId) {
      forall status
        ensures !Clashes(t.apps, newId, t.apps[newId].(status := status))
      {
        PutNoClash(t.apps, newId, t.apps[newId].(status := status));
      }
    }
  }
}
