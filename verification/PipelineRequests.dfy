/** What each request of the apply pipeline writes, and when it is refused, field by field. */
module PipelineRequests {
  import opened Wrappers
  import opened Pipeline
  import opened PipelineSafety
  import opened PipelineTheorems

  // ---------------------------------------------------------------- dispatch and enqueue

  /** `t` is `s` but for the row of `id`, which is `row` now. */
  ghost predicate OnlyWrites(s: State, t: State, id: AppId, row: App) {
    id in s.apps && t.apps == s.apps[id := row]
  }

  /** Another open application of the same user and job stands in the way of opening this one. */
  ghost predicate Blocked(apps: map<AppId, App>, id: AppId)
    requires id in apps
  {
    exists b :: b in apps && b != id && StillOpen(apps[b], apps[id].user, apps[id].job)
  }

  lemma BlockedIff(apps: map<AppId, App>, id: AppId, row: App)
    requires id in apps && row.user == apps[id].user && row.job == apps[id].job
    ensures Clashes(apps, id, row) <==> StillOpen(row, row.user, row.job) && Blocked(apps, id)
  {
    if Blocked(apps, id) && StillOpen(row, row.user, row.job) {
      var b :| b in apps && b != id && StillOpen(apps[b], apps[id].user, apps[id].job);
      assert Rivals(apps[b], row);
    }
    if b :| b in apps && b != id && Rivals(apps[b], row) {
      assert StillOpen(apps[b], apps[id].user, apps[id].job);
    }
  }

  /** The one dispatch that was owed is made: an autonomous row is queued and owed an enqueue, any other one
      waits for review; where the index refuses the row, nothing is written or owed. */
  lemma DispatchStages(s: State, id: AppId)
    requires id in s.apps && id in s.toDispatch
    ensures var t, auto := Dispatch(s, id), s.apps[id].mode == Autonomous;
      && t == s.(apps := t.apps, toDispatch := s.toDispatch - multiset{id}, toEnqueue := t.toEnqueue)
      && (Blocked(s.apps, id) ==> t.apps == s.apps && t.toEnqueue == s.toEnqueue)
      && (!Blocked(s.apps, id) ==> OnlyWrites(s, t, id, s.apps[id].(status := if auto then Queued else PendingReview)))
      && (!Blocked(s.apps, id) ==> t.toEnqueue == if auto then s.toEnqueue + multiset{id} else s.toEnqueue)
  {
    BlockedIff(s.apps, id, s.apps[id].(status := if s.apps[id].mode == Autonomous then Queued else PendingReview));
  }

  /** An enqueue that was owed is accepted, as a first try, exactly when the queue can be reached and no job
      of the application is live. */
  lemma EnqueueAccepts(s: State, id: AppId, available: bool)
    requires id in s.toEnqueue
    ensures var t := Enqueue(s, id, available);
      && t == s.(queue := t.queue, toEnqueue := s.toEnqueue - multiset{id}, log := t.log)
      && if available && id !in s.queue
         then t.queue == s.queue[id := Waiting(1)] && t.log == s.log + [Accepted(id)]
         else t.queue == s.queue && t.log == s.log
  {
  }

  // ---------------------------------------------------------------- approvals and status requests

  predicate CanBeApproved(row: App, user: UserId) {
    row.user == user && (row.status == PendingReview || row.status == Queued)
  }

  /** An approval goes through exactly for a row of the user that waits for review or is queued; it writes
      that row's status, owes an enqueue and is recorded. */
  lemma ApproveIff(s: State, user: UserId, id: AppId)
    ensures var (t, r) := Approve(s, user, id);
      && (r.Ok? <==> id in s.apps && CanBeApproved(s.apps[id], user))
      && (r.Err? ==> t == s && (r.error == NotFound <==> id !in s.apps || s.apps[id].user != user))
      && (r.Ok? ==> OnlyWrites(s, t, id, s.apps[id].(status := Approved)))
      && (r.Ok? ==> t == s.(apps := t.apps, toEnqueue := s.toEnqueue + multiset{id}, log := s.log + [ApprovedBy(id)]))
  {
  }

  /** A bulk approval takes in exactly the rows asked for that an approval would, each once. */
  lemma BulkApproveIff(s: State, user: UserId, asked: seq<AppId>, rows: seq<AppId>, id: AppId)
    requires CallEnabled(s, BulkCall(user, asked, rows))
    ensures var t := BulkApprove(s, rows); var takes := id in asked && id in s.apps && CanBeApproved(s.apps[id], user);
      && t == s.(apps := t.apps, toEnqueue := t.toEnqueue, log := t.log)
      && (id in t.apps <==> id in s.apps)
      && (id in s.apps ==> t.apps[id] == if takes then s.apps[id].(status := Approved) else s.apps[id])
      && t.toEnqueue[id] == s.toEnqueue[id] + (if takes then 1 else 0)
      && Times(t, ApprovedBy(id)) == Times(s, ApprovedBy(id)) + if takes then 1 else 0
  {
    BulkCounts(s, BulkCall(user, asked, rows), id);
  }

  /** A status request goes through exactly for a row of the user, unless it would open the row beside another
      open one. It writes the status, the note if one is given, and the date exactly with `applied`. */
  lemma StatusIff(s: State, user: UserId, id: AppId, status: Status, note: Option<string>, now: Time)
    ensures var (t, r) := SetStatus(s, user, id, status, note, now);
      && (r.Err? ==> t == s)
      && (r == Err(NotFound) <==> id !in s.apps || s.apps[id].user != user)
      && (r == Err(Conflict) <==> id in s.apps && s.apps[id].user == user && Blocked(s.apps, id) &&
                                  status != Rejected && status != Withdrawn && status != Failed)
      && (r.Ok? ==> t == s.(apps := t.apps) && id in s.apps && id in t.apps && t.apps - {id} == s.apps - {id})
      && (r.Ok? ==> t.apps[id].status == status)
      && (r.Ok? ==> t.apps[id].note == if note.Some? then Some(Written(note.value)) else s.apps[id].note)
      && (r.Ok? ==> t.apps[id].appliedAt == if status == Applied then Some(now) else s.apps[id].appliedAt)
      && (r.Ok? ==> t.apps[id].user == user && t.apps[id].job == s.apps[id].job)
      && (r.Ok? ==> t.apps[id].resume == s.apps[id].resume && t.apps[id].mode == s.apps[id].mode)
  {
    if id in s.apps {
      var noted := if note.Some? then Some(Written(note.value)) else s.apps[id].note;
      var dated := if status == Applied then Some(now) else s.apps[id].appliedAt;
      var row := s.apps[id].(status := status, note := noted, appliedAt := dated);
      BlockedIff(s.apps, id, row);
      assert s.apps[id := row] - {id} == s.apps - {id};
    }
  }

  // ---------------------------------------------------------------- the three tries

  /** A transient failure, a shutdown or a cancellation to be rerun gives the job back for its next try on
      the first and the second try, and never on the third. */
  lemma ThirdTryIsTheLast(s: State, w: WorkerId)
    requires Stands(s, w, Submitting)
    ensures var Run(id, try, _) := s.workers[w];
      && (try < 3 ==> Settle(s, w, Transient) == Requeue(s, w))
      && (try >= 3 ==> Settle(s, w, Transient).apps ==
                       s.apps[id := s.apps[id].(status := Failed, note := Some(Exhausted(try)))])
      && Interrupt(s, w, true) == (if try < 3 then Requeue(s, w) else Finish(s, w))
      && Settle(s, w, Cancelled(false, true)) == (if try < 3 then Requeue(s, w) else Finish(s, w))
      && Requeue(s, w).queue == s.queue[id := Waiting(try + 1)]
  {
  }
}
