/** How an application gets to be submitted more than once, and how its job gets lost. */
module PipelineReruns {
  import opened Wrappers
  import opened Pipeline
  import opened PipelineSafety
  import opened PipelineTheorems

  // ---------------------------------------------------------------- submitted twice

  /** No worker is between the check that skips applied rows and its last commit. */
  ghost predicate Dormant(s: State, id: AppId) {
    id in s.apps &&
    forall w :: w in s.workers && s.workers[w].app == id ==>
      s.workers[w].phase == Started || s.workers[w].phase == Closing
  }

  ghost predicate Settled(s: State, id: AppId) {
    Dormant(s, id) && s.apps[id].status == Applied
  }

  /** A dispatch of the application, or its owner writing a status other than `applied`. */
  predicate Unsettles(s: State, e: Event, id: AppId) {
    e.Calls? && id in s.apps &&
    ((e.call.DispatchCall? && e.call.id == id) ||
     (e.call.StatusCall? && e.call.id == id && e.call.user == s.apps[id].user && e.call.status != Applied))
  }

  /** Its owner writing `applied`, where the index lets that through. */
  ghost predicate Settles(s: State, e: Event, id: AppId) {
    e.Calls? && e.call.StatusCall? && e.call.id == id && e.call.status == Applied &&
    SetStatus(s, e.call.user, id, Applied, e.call.note, e.call.now).1.Ok?
  }

  /** A load that does not find the application applied, and so goes on to its submission. */
  predicate Passes(s: State, e: Event, id: AppId) {
    e.Works? && e.task.LoadTask? && e.w in s.workers && s.workers[e.w].app == id &&
    id in s.apps && s.apps[id].status != Applied
  }

  ghost predicate AppliedNext(s: State, e: Event, id: AppId)
    requires id in s.apps
  {
    !Unsettles(s, e, id) && (Settles(s, e, id) || s.apps[id].status == Applied)
  }

  lemma BatchLeavesRow(s: State, c: Call, id: AppId)
    requires c.BatchCall? && CallEnabled(s, c) && id in s.apps
    ensures id in NextCall(s, c).apps && NextCall(s, c).apps[id] == s.apps[id]
  {
    BatchAddsQueued(s, c.user, c.jobs, c.resume, c.mode, c.newIds);
  }

  lemma ApprovalLeavesApplied(s: State, c: Call, id: AppId)
    requires (c.ApproveCall? || c.BulkCall?) && CallEnabled(s, c) && id in s.apps
    ensures id in NextCall(s, c).apps && (NextCall(s, c).apps[id].status == Applied <==> s.apps[id].status == Applied)
  {
  }

  lemma DispatchUnapplies(s: State, id: AppId)
    requires IndexHolds(s.apps) && id in s.apps && id in s.toDispatch
    ensures id in Dispatch(s, id).apps && Dispatch(s, id).apps[id].status != Applied
  {
    var row := s.apps[id];
    if row.status == Applied {
      PutNoClash(s.apps, id, row.(status := if row.mode == Autonomous then Queued else PendingReview));
    }
  }

  lemma StatusApplies(s: State, c: Call, id: AppId)
    requires IndexHolds(s.apps) && c.StatusCall? && c.id == id && id in s.apps
    ensures id in NextCall(s, c).apps
    ensures NextCall(s, c).apps[id].status == Applied <==> AppliedNext(s, Calls(c), id)
  {
    var row := s.apps[id];
    if row.status == Applied {
      var note := if c.note.Some? then Some(Written(c.note.value)) else row.note;
      PutNoClash(s.apps, id, row.(status := c.status, note := note));
    }
  }

  lemma OtherCallLeavesRow(s: State, c: Call, id: AppId)
    requires id in s.apps && CallEnabled(s, c) && !c.BatchCall? && !c.BulkCall? && !c.ApproveCall?
    requires c.DispatchCall? || c.StatusCall? ==> c.id != id
    ensures id in NextCall(s, c).apps && NextCall(s, c).apps[id] == s.apps[id]
  {
  }

  /** After a request the application is applied exactly if it was written so, or was and is not unsettled. */
  lemma CallAppliesIff(s: State, c: Call, id: AppId)
    requires IndexHolds(s.apps) && id in s.apps && CallEnabled(s, c)
    ensures id in NextCall(s, c).apps
    ensures NextCall(s, c).apps[id].status == Applied <==> AppliedNext(s, Calls(c), id)
  {
    if c.BatchCall? { BatchLeavesRow(s, c, id); }
    else if c.BulkCall? || c.ApproveCall? { ApprovalLeavesApplied(s, c, id); }
    else if c.DispatchCall? && c.id == id { DispatchUnapplies(s, id); }
    else if c.StatusCall? && c.id == id { StatusApplies(s, c, id); }
    else { OtherCallLeavesRow(s, c, id); }
  }

  lemma CallKeepsDormant(s: State, c: Call, id: AppId)
    requires IndexHolds(s.apps) && Dormant(s, id) && CallEnabled(s, c)
    ensures Dormant(NextCall(s, c), id) && Times(NextCall(s, c), SubmitCalled(id)) == Times(s, SubmitCalled(id))
  {
    var t := NextCall(s, c);
    CallAppliesIff(s, c, id);
    CallEffect(s, c);
    if c.EnqueueCall? && Accepts(s, t, c.id) { OneMore(s, t, Accepted(c.id)); }
    else { OnlyApprovals(s, t); }
  }

  lemma TaskLeavesRow(s: State, w: WorkerId, k: Task, id: AppId)
    requires Dormant(s, id) && TaskEnabled(s, w, k)
    ensures id in NextTask(s, w, k).apps && NextTask(s, w, k).apps[id] == s.apps[id]
  {
    if KeepsRows(k) { TaskLog(s, w, k); } else { TaskRow(s, w, k); }
  }

  /** A step of a dormant application's own worker ends its invocation, or starts one. */
  lemma OwnTaskStaysDormant(s: State, w: WorkerId, k: Task, id: AppId)
    requires Dormant(s, id) && TaskEnabled(s, w, k) && !Passes(s, Works(w, k), id)
    requires w in s.workers && s.workers[w].app == id
    ensures w !in NextTask(s, w, k).workers
  {
  }

  lemma TaskKeepsDormant(s: State, w: WorkerId, k: Task, id: AppId)
    requires Dormant(s, id) && Locked(s) && TaskEnabled(s, w, k) && !Passes(s, Works(w, k), id)
    ensures Dormant(NextTask(s, w, k), id) && Times(NextTask(s, w, k), SubmitCalled(id)) == Times(s, SubmitCalled(id))
    ensures NextTask(s, w, k).apps[id] == s.apps[id]
  {
    TaskLeavesRow(s, w, k, id);
    if w in s.workers && s.workers[w].app == id { OwnTaskStaysDormant(s, w, k, id); }
    TaskEffect(s, w, k);
    EffectKeepsDormant(s, NextTask(s, w, k), id);
  }

  lemma EffectKeepsDormant(s: State, t: State, id: AppId)
    requires Dormant(s, id) && id in t.apps
    requires || (exists w, a :: Invokes(s, t, w, a))
             || (exists w :: (Releases(s, t, w) || GivesBack(s, t, w)))
             || (exists w :: Advances(s, t, w) && s.workers[w].app != id)
    ensures Dormant(t, id) && Times(t, SubmitCalled(id)) == Times(s, SubmitCalled(id))
  {
    if w :| Advances(s, t, w) {
      if |t.log| > |s.log| { OneMore(s, t, t.log[|s.log|]); }
    } else if w, a :| Invokes(s, t, w, a) {
      OneMore(s, t, Invoked(a));
    }
  }

  /** Until a load passes, a dormant application stays dormant and is not submitted, and every step says
      exactly whether it is applied next. */
  lemma DormantStep(s: State, e: Event, id: AppId)
    requires Safe(s) && Dormant(s, id) && Enabled(s, e) && !Passes(s, e, id)
    ensures Dormant(Next(s, e), id) && Times(Next(s, e), SubmitCalled(id)) == Times(s, SubmitCalled(id))
    ensures Next(s, e).apps[id].status == Applied <==> AppliedNext(s, e, id)
  {
    match e
    case Calls(c) =>
      CallAppliesIff(s, c, id);
      CallKeepsDormant(s, c, id);
    case Works(w, k) => TaskKeepsDormant(s, w, k, id);
  }

  /** An application that is applied and settled stays so through exactly the other events. */
  lemma NextKeepsSettledIff(s: State, e: Event, id: AppId)
    requires Safe(s) && Settled(s, id) && Enabled(s, e)
    ensures Settled(Next(s, e), id) <==> !Unsettles(s, e, id)
    ensures !Unsettles(s, e, id) ==> Times(Next(s, e), SubmitCalled(id)) == Times(s, SubmitCalled(id))
  {
    DormantStep(s, e, id);
  }

  ghost predicate AlwaysSettled(s: State, es: seq<Event>, id: AppId)
    requires After(s, es).Some?
  {
    if es == [] then Settled(s, id)
    else AlwaysSettled(s, es[..|es| - 1], id) && Settled(After(s, es).value, id)
  }

  ghost predicate NoneUnsettles(s: State, es: seq<Event>, id: AppId)
    requires After(s, es).Some?
  {
    es == [] ||
    (NoneUnsettles(s, es[..|es| - 1], id) && !Unsettles(After(s, es[..|es| - 1]).value, es[|es| - 1], id))
  }

  /** Once applied, an application stays applied all along a run exactly when the run has no dispatch of
      it and no status request that takes it out of `applied`; and then it is not submitted again. */
  lemma {:induction false} AppliedStaysAppliedIff(s: State, es: seq<Event>, id: AppId)
    requires Safe(s) && Settled(s, id) && After(s, es).Some?
    ensures AlwaysSettled(s, es, id) <==> NoneUnsettles(s, es, id)
    ensures AlwaysSettled(s, es, id) ==>
      Settled(After(s, es).value, id) && Times(After(s, es).value, SubmitCalled(id)) == Times(s, SubmitCalled(id))
  {
    if es != [] {
      var n := |es| - 1;
      AppliedStaysAppliedIff(s, es[..n], id);
      RunsAreSafe(s, es[..n]);
      if AlwaysSettled(s, es[..n], id) { NextKeepsSettledIff(After(s, es[..n]).value, es[n], id); }
    }
  }

  lemma AfterSnoc(s: State, es: seq<Event>, e: Event)
    requires After(s, es).Some? && Enabled(After(s, es).value, e)
    ensures After(s, es + [e]) == Some(Next(After(s, es).value, e))
  {
    assert (es + [e])[..|es|] == es;
  }

  lemma {:induction false} AfterConcat(s: State, es: seq<Event>, more: seq<Event>)
    requires After(s, es).Some?
    ensures After(s, es + more) == After(After(s, es).value, more)
  {
    if more == [] {
      assert es + more == es;
    } else {
      var n := |more| - 1;
      AfterConcat(s, es, more[..n]);
      assert (es + more)[..|es + more| - 1] == es + more[..n];
    }
  }

  lemma AfterOne(s: State, e: Event)
    requires Enabled(s, e)
    ensures After(s, [e]) == Some(Next(s, e))
  {
    assert [e][..0] == [];
  }

  lemma AfterTwo(s: State, e1: Event, e2: Event)
    requires Enabled(s, e1) && Enabled(Next(s, e1), e2)
    ensures After(s, [e1, e2]) == Some(Next(Next(s, e1), e2))
  {
    AfterOne(s, e1);
    assert [e1, e2][..1] == [e1];
  }

  /** A second create request for the job of `app`, with whatever resume and mode, and the dispatch the
      route makes of the row it gets back. */
  function CreateAgain(app: App, id: AppId, resume: Option<ResumeId>, mode: Mode, newId: AppId): seq<Event> {
    [Calls(CreateCall(app.user, app.job, resume, mode, newId)), Calls(DispatchCall(id))]
  }

  function EnqueueOf(id: AppId, available: bool): seq<Event> {
    [Calls(EnqueueCall(id, available))]
  }

  /** The whole route: an autonomous row is enqueued as well. */
  function RouteAgain(app: App, id: AppId, resume: Option<ResumeId>, mode: Mode, newId: AppId,
                      available: bool): seq<Event> {
    CreateAgain(app, id, resume, mode, newId) + if app.mode == Autonomous then EnqueueOf(id, available) else []
  }

  /** The row back before its submission, by its own mode. */
  function Restaged(app: App): App {
    app.(status := if app.mode == Autonomous then Queued else PendingReview)
  }

  lemma CreatingAgainRestages(s: State, id: AppId, resume: Option<ResumeId>, mode: Mode, newId: AppId)
    requires IndexHolds(s.apps) && id in s.apps && s.apps[id].status == Applied && newId !in s.apps
    requires Owned(s.jobs, s.apps[id].job, s.apps[id].user) && ResumeOwned(s, resume, s.apps[id].user)
    ensures After(s, CreateAgain(s.apps[id], id, resume, mode, newId)) == Some(s.(
      apps := s.apps[id := Restaged(s.apps[id])],
      toEnqueue := if s.apps[id].mode == Autonomous then s.toEnqueue + multiset{id} else s.toEnqueue))
  {
    var app := s.apps[id];
    var e1 := Calls(CreateCall(app.user, app.job, resume, mode, newId));
    assert ActiveFor(s.apps, app.user, app.job) == id;
    var s1 := s.(toDispatch := s.toDispatch + multiset{id});
    assert Next(s, e1) == s1;
    PutNoClash(s.apps, id, Restaged(app));
    assert s1.toDispatch - multiset{id} == s.toDispatch;
    AfterTwo(s, e1, Calls(DispatchCall(id)));
  }

  lemma EnqueuingAgain(s: State, es: seq<Event>, t: State, id: AppId, available: bool)
    requires After(s, es) == Some(t)
    requires t.toEnqueue == s.toEnqueue + multiset{id} && t.queue == s.queue && t.log == s.log
    ensures var r := After(s, es + EnqueueOf(id, available));
      && r.Some? && r.value.apps == t.apps && r.value.workers == t.workers && r.value.toEnqueue == s.toEnqueue
      && if available && id !in s.queue
         then r.value.queue == s.queue[id := Waiting(1)] && r.value.log == s.log + [Accepted(id)]
         else r.value.queue == s.queue && r.value.log == s.log
  {
    AfterSnoc(s, es, Calls(EnqueueCall(id, available)));
    assert s.toEnqueue + multiset{id} - multiset{id} == s.toEnqueue;
  }

  /** Repeating the create request of an applied application takes it back to before its submission,
      whatever resume and mode the request names. It is queued again exactly when it is autonomous, the
      queue can be reached and no job of it is live; a review or batch one waits for approval again. */
  lemma CreatingAgainQueuesIff(s: State, id: AppId, resume: Option<ResumeId>, mode: Mode, newId: AppId, available: bool)
    requires IndexHolds(s.apps) && id in s.apps && s.apps[id].status == Applied && newId !in s.apps
    requires Owned(s.jobs, s.apps[id].job, s.apps[id].user) && ResumeOwned(s, resume, s.apps[id].user)
    ensures var r := After(s, RouteAgain(s.apps[id], id, resume, mode, newId, available));
      && r.Some? && r.value.apps == s.apps[id := Restaged(s.apps[id])] && IndexHolds(r.value.apps)
      && r.value.workers == s.workers && r.value.toEnqueue == s.toEnqueue
      && if s.apps[id].mode == Autonomous && available && id !in s.queue
         then r.value.queue == s.queue[id := Waiting(1)] && r.value.log == s.log + [Accepted(id)]
         else r.value.queue == s.queue && r.value.log == s.log
  {
    var app := s.apps[id];
    var first := CreateAgain(app, id, resume, mode, newId);
    CreatingAgainRestages(s, id, resume, mode, newId);
    PutNoClash(s.apps, id, Restaged(app));
    if app.mode == Autonomous {
      EnqueuingAgain(s, first, After(s, first).value, id, available);
    } else {
      assert first + [] == first;
    }
  }

  function CallTasks(w: WorkerId, id: AppId): seq<Event> {
    [Works(w, StartTask(id)), Works(w, LoadTask)] + [Works(w, GateTask(true)), Works(w, CallTask)]
  }

  function SubmitTasks(w: WorkerId, id: AppId): seq<Event> {
    CallTasks(w, id) + [Works(w, SettleTask(Success))]
  }

  lemma UpdateTwice<K, V>(m: map<K, V>, k: K, a: V, b: V)
    ensures m[k := a][k := b] == m[k := b]
  {
  }

  lemma LoadStep(s: State, w: WorkerId, id: AppId, try: nat)
    requires id in s.apps && s.apps[id].status != Applied && w in s.workers && s.workers[w] == Run(id, try, Started)
    ensures Load(s, w) == s.(workers := s.workers[w := Run(id, try, Loaded)], log := s.log + [Passed(id)])
  {
  }

  lemma GateStep(s: State, w: WorkerId, id: AppId, try: nat)
    requires IndexHolds(s.apps) && id in s.apps && IsActive(s.apps[id].status)
    requires w in s.workers && s.workers[w] == Run(id, try, Loaded)
    ensures Gate(s, w, true) ==
      s.(apps := s.apps[id := s.apps[id].(status := Applying)], workers := s.workers[w := Run(id, try, Marked)])
    ensures IndexHolds(s.apps[id := s.apps[id].(status := Applying)])
  {
    PutNoClash(s.apps, id, s.apps[id].(status := Applying));
  }

  lemma CallStep(s: State, w: WorkerId, id: AppId, try: nat)
    requires w in s.workers && s.workers[w] == Run(id, try, Marked)
    ensures CallSubmission(s, w) ==
      s.(workers := s.workers[w := Run(id, try, Submitting)], log := s.log + [SubmitCalled(id)])
  {
  }

  lemma ConfirmStep(s: State, w: WorkerId, id: AppId, try: nat)
    requires id in s.apps && w in s.workers && s.workers[w] == Run(id, try, Submitting)
    ensures Settle(s, w, Success) ==
      s.(workers := s.workers[w := Run(id, try, Submitted)], log := s.log + [SubmitConfirmed(id)])
  {
  }

  /** The state in which the invocation stands at `phase`, having left `facts`. */
  ghost function Reached(s: State, w: WorkerId, id: AppId, try: nat, phase: Phase, facts: seq<Fact>): State {
    s.(queue := s.queue[id := InProgress(try)], workers := s.workers[w := Run(id, try, phase)], log := s.log + facts)
  }

  ghost function InApplying(s: State, id: AppId): State
    requires id in s.apps
  {
    s.(apps := s.apps[id := s.apps[id].(status := Applying)])
  }

  lemma WaitingGetsLoaded(s: State, w: WorkerId, id: AppId, try: nat)
    requires id in s.apps && s.apps[id].status != Applied
    requires id in s.queue && s.queue[id] == Waiting(try) && w !in s.workers
    ensures After(s, [Works(w, StartTask(id)), Works(w, LoadTask)]) ==
      Some(Reached(s, w, id, try, Loaded, [Invoked(id), Passed(id)]))
  {
    var m := Start(s, w, id);
    LoadStep(m, w, id, try);
    UpdateTwice(s.workers, w, Run(id, try, Started), Run(id, try, Loaded));
    AfterTwo(s, Works(w, StartTask(id)), Works(w, LoadTask));
    assert s.log + [Invoked(id)] + [Passed(id)] == s.log + [Invoked(id), Passed(id)];
  }

  lemma LoadedGetsCalled(s: State, w: WorkerId, id: AppId, try: nat)
    requires IndexHolds(s.apps) && id in s.apps && IsActive(s.apps[id].status)
    requires w in s.workers && s.workers[w] == Run(id, try, Loaded)
    ensures After(s, [Works(w, GateTask(true)), Works(w, CallTask)]) == Some(
      InApplying(s, id).(workers := s.workers[w := Run(id, try, Submitting)], log := s.log + [SubmitCalled(id)]))
    ensures IndexHolds(InApplying(s, id).apps)
  {
    GateStep(s, w, id, try);
    var m := Gate(s, w, true);
    CallStep(m, w, id, try);
    UpdateTwice(s.workers, w, Run(id, try, Marked), Run(id, try, Submitting));
    AfterTwo(s, Works(w, GateTask(true)), Works(w, CallTask));
  }

  lemma WaitingGetsCalled(s: State, w: WorkerId, id: AppId, try: nat)
    requires IndexHolds(s.apps) && id in s.apps && IsActive(s.apps[id].status) && s.apps[id].status != Applied
    requires id in s.queue && s.queue[id] == Waiting(try) && w !in s.workers
    ensures After(s, CallTasks(w, id)) == Some(
      Reached(InApplying(s, id), w, id, try, Submitting, [Invoked(id), Passed(id), SubmitCalled(id)]))
    ensures IndexHolds(InApplying(s, id).apps)
  {
    var first := [Works(w, StartTask(id)), Works(w, LoadTask)];
    WaitingGetsLoaded(s, w, id, try);
    LoadedGetsCalled(After(s, first).value, w, id, try);
    AfterConcat(s, first, [Works(w, GateTask(true)), Works(w, CallTask)]);
    UpdateTwice(s.workers, w, Run(id, try, Loaded), Run(id, try, Submitting));
    assert s.log + [Invoked(id), Passed(id)] + [SubmitCalled(id)] ==
      s.log + [Invoked(id), Passed(id), SubmitCalled(id)];
  }

  function SubmittedFacts(id: AppId): seq<Fact> {
    [Invoked(id), Passed(id), SubmitCalled(id), SubmitConfirmed(id)]
  }

  lemma WaitingGetsSubmitted(s: State, w: WorkerId, id: AppId, try: nat)
    requires IndexHolds(s.apps) && id in s.apps && IsActive(s.apps[id].status) && s.apps[id].status != Applied
    requires id in s.queue && s.queue[id] == Waiting(try) && w !in s.workers
    ensures After(s, SubmitTasks(w, id)) == Some(Reached(InApplying(s, id), w, id, try, Submitted, SubmittedFacts(id)))
    ensures IndexHolds(InApplying(s, id).apps)
  {
    WaitingGetsCalled(s, w, id, try);
    ConfirmStep(After(s, CallTasks(w, id)).value, w, id, try);
    AfterSnoc(s, CallTasks(w, id), Works(w, SettleTask(Success)));
    UpdateTwice(s.workers, w, Run(id, try, Submitting), Run(id, try, Submitted));
    assert s.log + [Invoked(id), Passed(id), SubmitCalled(id)] + [SubmitConfirmed(id)] == s.log + SubmittedFacts(id);
  }

  /** What turns the restaged application into a waiting job: nothing more, or its approval. */
  function ApproveAgain(app: App, id: AppId): seq<Event> {
    if app.mode == Autonomous then [] else [Calls(ApproveCall(app.user, id)), Calls(EnqueueCall(id, true))]
  }

  /** What the history gains on the way there. */
  function AcceptedAgain(app: App, id: AppId): seq<Fact> {
    if app.mode == Autonomous then [Accepted(id)] else [ApprovedBy(id), Accepted(id)]
  }

  lemma RestagedGetsApproved(s: State, id: AppId)
    requires IndexHolds(s.apps) && id in s.apps && s.apps[id].status == PendingReview && id !in s.queue
    ensures var r := After(s, [Calls(ApproveCall(s.apps[id].user, id)), Calls(EnqueueCall(id, true))]);
      r.Some? && IndexHolds(r.value.apps) && id in r.value.apps && r.value.apps[id].status == Approved &&
      r.value.queue == s.queue[id := Waiting(1)] && r.value.workers == s.workers &&
      r.value.log == s.log + [ApprovedBy(id), Accepted(id)]
  {
    var e := Calls(ApproveCall(s.apps[id].user, id));
    PutNoClash(s.apps, id, s.apps[id].(status := Approved));
    assert Next(s, e).apps == s.apps[id := s.apps[id].(status := Approved)];
    AfterTwo(s, e, Calls(EnqueueCall(id, true)));
  }

  lemma CreatingAgainWaits(s: State, id: AppId, resume: Option<ResumeId>, mode: Mode, newId: AppId)
    requires IndexHolds(s.apps) && id in s.apps && s.apps[id].status == Applied && newId !in s.apps && id !in s.queue
    requires Owned(s.jobs, s.apps[id].job, s.apps[id].user) && ResumeOwned(s, resume, s.apps[id].user)
    ensures var r := After(s, RouteAgain(s.apps[id], id, resume, mode, newId, true) + ApproveAgain(s.apps[id], id));
      r.Some? && IndexHolds(r.value.apps) && id in r.value.apps && IsActive(r.value.apps[id].status) &&
      r.value.apps[id].status != Applied && r.value.queue == s.queue[id := Waiting(1)] &&
      r.value.workers == s.workers && r.value.log == s.log + AcceptedAgain(s.apps[id], id)
  {
    var app := s.apps[id];
    var route := RouteAgain(app, id, resume, mode, newId, true);
    CreatingAgainQueuesIff(s, id, resume, mode, newId, true);
    if app.mode == Autonomous {
      assert route + ApproveAgain(app, id) == route;
    } else {
      RestagedGetsApproved(After(s, route).value, id);
      AfterConcat(s, route, ApproveAgain(app, id));
    }
  }

  /** Then a worker submits it a second time, after a new approval unless it is autonomous. */
  lemma CreatingAgainSubmitsAgain(s: State, id: AppId, resume: Option<ResumeId>, mode: Mode, newId: AppId, w: WorkerId)
    requires IndexHolds(s.apps) && id in s.apps && s.apps[id].status == Applied && newId !in s.apps
    requires Owned(s.jobs, s.apps[id].job, s.apps[id].user) && ResumeOwned(s, resume, s.apps[id].user)
    requires id !in s.queue && w !in s.workers
    ensures var r := After(s, RouteAgain(s.apps[id], id, resume, mode, newId, true) + ApproveAgain(s.apps[id], id) +
                              SubmitTasks(w, id));
      r.Some? && Times(r.value, SubmitConfirmed(id)) == Times(s, SubmitConfirmed(id)) + 1
  {
    var app := s.apps[id];
    var es := RouteAgain(app, id, resume, mode, newId, true) + ApproveAgain(app, id);
    CreatingAgainWaits(s, id, resume, mode, newId);
    WaitingGoesOn(s, es, AcceptedAgain(app, id), w, id);
  }

  lemma WaitingGoesOn(s: State, es: seq<Event>, accepted: seq<Fact>, w: WorkerId, id: AppId)
    requires After(s, es).Some?
    requires var m := After(s, es).value;
      && IndexHolds(m.apps) && id in m.apps && IsActive(m.apps[id].status) && m.apps[id].status != Applied
      && id in m.queue && m.queue[id] == Waiting(1) && w !in m.workers && m.log == s.log + accepted
    requires forall f :: f in accepted ==> f.ApprovedBy? || f.Accepted?
    ensures var r := After(s, es + SubmitTasks(w, id));
      r.Some? && Times(r.value, SubmitConfirmed(id)) == Times(s, SubmitConfirmed(id)) + 1
  {
    var t := SubmittedAfter(s, es, w, id, 1);
    ConfirmedOnceMore(s.log, accepted, id);
  }

  /** A run that leaves a job of the application waiting, gone on with up to its confirmation. */
  lemma SubmittedAfter(s: State, es: seq<Event>, w: WorkerId, id: AppId, try: nat) returns (t: State)
    requires After(s, es).Some?
    requires var m := After(s, es).value;
      && IndexHolds(m.apps) && id in m.apps && IsActive(m.apps[id].status) && m.apps[id].status != Applied
      && id in m.queue && m.queue[id] == Waiting(try) && w !in m.workers
    ensures After(s, es + SubmitTasks(w, id)) == Some(t)
    ensures var m := After(s, es).value;
      && t == Reached(InApplying(m, id), w, id, try, Submitted, SubmittedFacts(id)) && IndexHolds(t.apps)
      && t.log == m.log + SubmittedFacts(id)
  {
    var m := After(s, es).value;
    WaitingGetsSubmitted(m, w, id, try);
    AfterConcat(s, es, SubmitTasks(w, id));
    t := Reached(InApplying(m, id), w, id, try, Submitted, SubmittedFacts(id));
  }

  lemma SubmittedFactsCount(log: seq<Fact>, id: AppId)
    ensures var more := log + SubmittedFacts(id);
      && multiset(more)[Accepted(id)] == multiset(log)[Accepted(id)]
      && multiset(more)[SubmitConfirmed(id)] == multiset(log)[SubmitConfirmed(id)] + 1
  {
    assert multiset(log + SubmittedFacts(id)) == multiset(log) + multiset(SubmittedFacts(id));
    assert multiset(SubmittedFacts(id)) == multiset{Invoked(id), Passed(id), SubmitCalled(id), SubmitConfirmed(id)};
  }

  lemma ConfirmedOnceMore(log: seq<Fact>, accepted: seq<Fact>, id: AppId)
    requires forall f :: f in accepted ==> f.ApprovedBy? || f.Accepted?
    ensures multiset(log + accepted + SubmittedFacts(id))[SubmitConfirmed(id)] == multiset(log)[SubmitConfirmed(id)] + 1
  {
    SubmittedFactsCount(log + accepted, id);
    assert multiset(log + accepted) == multiset(log) + multiset(accepted);
    assert SubmitConfirmed(id) !in accepted;
  }

  // ---------------------------------------------------------------- reruns after the confirmation

  lemma {:induction false} ReopenedSkips(log: seq<Fact>, more: seq<Fact>, id: AppId)
    requires forall f :: f in more ==> !f.Passed?
    ensures Reopened(log + more, id) == Reopened(log, id)
  {
    if more == [] {
      assert log + more == log;
    } else {
      var n := |more| - 1;
      assert more[n] in more;
      ReopenedSkips(log, more[..n], id);
      assert log + more == (log + more[..n]) + [more[n]];
      ReopenedSnoc(log + more[..n], more[n], id);
    }
  }

  lemma CallsReopenNothing(s: State, c: Call, id: AppId)
    requires CallEnabled(s, c)
    ensures Reopened(NextCall(s, c).log, id) == Reopened(s.log, id)
  {
    var t := NextCall(s, c);
    CallEffect(s, c);
    var more := t.log[|s.log|..];
    assert t.log == s.log + more;
    ReopenedSkips(s.log, more, id);
  }

  lemma TasksReopen(s: State, w: WorkerId, k: Task, id: AppId)
    requires TaskEnabled(s, w, k)
    ensures var t := NextTask(s, w, k);
      t.log == s.log ||
      (t.log == s.log + [t.log[|s.log|]] && (t.log[|s.log|] == Passed(id) <==> Passes(s, Works(w, k), id)))
    ensures Passes(s, Works(w, k), id) ==> NextTask(s, w, k).log == s.log + [Passed(id)]
  {
    TaskEffect(s, w, k);
  }

  /** A step reopens a job exactly by such a load of one whose submission is already confirmed. */
  lemma ReopeningIsAReload(s: State, e: Event, id: AppId)
    requires Enabled(s, e)
    ensures Reopened(Next(s, e).log, id) ==
      Reopened(s.log, id) + if Passes(s, e, id) && ConfirmedSince(s.log, id) > 0 then 1 else 0
  {
    match e
    case Calls(c) => CallsReopenNothing(s, c, id);
    case Works(w, k) =>
      TasksReopen(s, w, k, id);
      var t := NextTask(s, w, k);
      if t.log != s.log { ReopenedSnoc(s.log, t.log[|s.log|], id); }
  }

  /** The row once its submission is recorded. */
  function RecordedRow(app: App, now: Time): App {
    app.(status := Applied, appliedAt := Some(now))
  }

  /** The commit of a success, unless the index refuses it, leaves the application applied and settled. */
  lemma RecordSettlesIff(s: State, w: WorkerId, now: Time)
    requires Safe(s) && Stands(s, w, Submitted)
    ensures var id := s.workers[w].app; var t := Record(s, w, now);
      Settled(t, id) <==> !Clashes(s.apps, id, RecordedRow(s.apps[id], now))
  {
    var id := s.workers[w].app;
    var row := RecordedRow(s.apps[id], now);
    if Clashes(s.apps, id, row) && s.apps[id].status == Applied { PutNoClash(s.apps, id, row); }
  }

  ghost predicate NonePasses(s: State, es: seq<Event>, id: AppId)
    requires After(s, es).Some?
  {
    es == [] ||
    (NonePasses(s, es[..|es| - 1], id) && !Passes(After(s, es[..|es| - 1]).value, es[|es| - 1], id))
  }

  /** Of the events of the run that settle or unsettle the application, the last one unsettles it. */
  ghost predicate EndsUnsettled(s: State, es: seq<Event>, id: AppId)
    requires After(s, es).Some?
  {
    if es == [] then false
    else
      var m, e := After(s, es[..|es| - 1]).value, es[|es| - 1];
      Unsettles(m, e, id) || (EndsUnsettled(s, es[..|es| - 1], id) && !Settles(m, e, id))
  }

  lemma {:induction false} StaysDormant(s: State, es: seq<Event>, id: AppId)
    requires Safe(s) && Settled(s, id) && After(s, es).Some? && NonePasses(s, es, id)
    ensures var t := After(s, es).value;
      Dormant(t, id) && (t.apps[id].status == Applied <==> !EndsUnsettled(s, es, id)) &&
      Times(t, SubmitCalled(id)) == Times(s, SubmitCalled(id))
  {
    if es != [] {
      var n := |es| - 1;
      StaysDormant(s, es[..n], id);
      RunsAreSafe(s, es[..n]);
      DormantStep(After(s, es[..n]).value, es[n], id);
    }
  }

  /** The rerun of a recorded job: up to its reload nothing is submitted, and the reload ends it exactly when
      no event since the record unsettled the application, or the owner wrote `applied` again after it. */
  lemma RerunIsIdleIff(s: State, es: seq<Event>, w: WorkerId, id: AppId)
    requires Safe(s) && Settled(s, id) && After(s, es).Some? && NonePasses(s, es, id)
    requires var t := After(s, es).value; TaskEnabled(t, w, LoadTask) && t.workers[w].app == id
    ensures var t := After(s, es).value;
      && Times(t, SubmitCalled(id)) == Times(s, SubmitCalled(id))
      && (NextTask(t, w, LoadTask) == Finish(t, w) <==> !EndsUnsettled(s, es, id))
      && (w in NextTask(t, w, LoadTask).workers <==> EndsUnsettled(s, es, id))
  {
    StaysDormant(s, es, id);
  }

  // ---------------------------------------------------------------- two runs from the start

  /** An application created, dispatched and queued. */
  function Queueing(user: UserId, job: JobId, id: AppId): seq<Event> {
    [Calls(CreateCall(user, job, None, Autonomous, id)), Calls(DispatchCall(id))] + EnqueueOf(id, true)
  }

  lemma FirstCreate(s: State, user: UserId, job: JobId, id: AppId)
    requires Initial(s) && Owned(s.jobs, job, user)
    ensures Create(s, user, job, None, Autonomous, id).0 ==
      s.(apps := map[id := NewRow(user, job, None, Autonomous)], toDispatch := multiset{id})
  {
  }

  lemma FirstDispatch(s: State, row: App, id: AppId)
    requires s.apps == map[id := row] && row.status == Queued && row.mode == Autonomous
    requires s.toDispatch == multiset{id} && s.toEnqueue == multiset{}
    ensures Dispatch(s, id) == s.(toDispatch := multiset{}, toEnqueue := multiset{id})
  {
    assert !Clashes(s.apps, id, row);
    assert s.apps[id := row] == s.apps;
    assert multiset{id} - multiset{id} == multiset{};
  }

  lemma QueueingQueues(s: State, user: UserId, job: JobId, id: AppId)
    requires Initial(s) && Owned(s.jobs, job, user)
    ensures After(s, Queueing(user, job, id)) == Some(s.(
      apps := map[id := NewRow(user, job, None, Autonomous)], queue := map[id := Waiting(1)], log := [Accepted(id)]))
  {
    var row := NewRow(user, job, None, Autonomous);
    var e1, e2 := Calls(CreateCall(user, job, None, Autonomous, id)), Calls(DispatchCall(id));
    FirstCreate(s, user, job, id);
    FirstDispatch(Next(s, e1), row, id);
    AfterTwo(s, e1, e2);
    var m := After(s, [e1, e2]).value;
    AfterSnoc(s, [e1, e2], Calls(EnqueueCall(id, true)));
    assert m.toEnqueue - multiset{id} == multiset{};
    assert m.log + [Accepted(id)] == [Accepted(id)];
  }

  /** A success is recorded, and a shutdown of the worker right after the commit gives the job back. */
  function RecordedAndRerun(w: WorkerId, now: Time): seq<Event> {
    [Works(w, RecordTask(now)), Works(w, InterruptTask(true))]
  }

  lemma RecordStep(s: State, w: WorkerId, id: AppId, try: nat, now: Time)
    requires IndexHolds(s.apps) && id in s.apps && IsActive(s.apps[id].status)
    requires w in s.workers && s.workers[w] == Run(id, try, Submitted)
    ensures Record(s, w, now) ==
      s.(apps := s.apps[id := RecordedRow(s.apps[id], now)], workers := s.workers[w := Run(id, try, Closing)])
    ensures IndexHolds(s.apps[id := RecordedRow(s.apps[id], now)])
  {
    PutNoClash(s.apps, id, RecordedRow(s.apps[id], now));
  }

  lemma DroppedTwice<K, V>(m: map<K, V>, k: K, a: V)
    ensures m[k := a] - {k} == m - {k}
  {
  }

  lemma RerunStep(s: State, w: WorkerId, id: AppId, try: nat)
    requires w in s.workers && s.workers[w] == Run(id, try, Closing) && try < MAX_TRIES
    ensures Interrupt(s, w, true) == s.(queue := s.queue[id := Waiting(try + 1)], workers := s.workers - {w})
  {
  }

  lemma RecordedWaits(s: State, w: WorkerId, id: AppId, try: nat, now: Time)
    requires IndexHolds(s.apps) && id in s.apps && IsActive(s.apps[id].status)
    requires w in s.workers && s.workers[w] == Run(id, try, Submitted) && try < MAX_TRIES
    ensures After(s, RecordedAndRerun(w, now)) == Some(s.(
      apps := s.apps[id := RecordedRow(s.apps[id], now)],
      queue := s.queue[id := Waiting(try + 1)],
      workers := s.workers - {w}))
    ensures IndexHolds(s.apps[id := RecordedRow(s.apps[id], now)])
  {
    RecordStep(s, w, id, try, now);
    RerunStep(Record(s, w, now), w, id, try);
    DroppedTwice(s.workers, w, Run(id, try, Closing));
    AfterTwo(s, Works(w, RecordTask(now)), Works(w, InterruptTask(true)));
  }

  lemma RelabelStep(s: State, user: UserId, id: AppId, status: Status, now: Time)
    requires IndexHolds(s.apps) && id in s.apps && s.apps[id].user == user && IsActive(s.apps[id].status)
    requires status != Applied
    ensures SetStatus(s, user, id, status, None, now).0 == s.(apps := s.apps[id := s.apps[id].(status := status)])
    ensures IndexHolds(s.apps[id := s.apps[id].(status := status)])
  {
    PutNoClash(s.apps, id, s.apps[id].(status := status));
  }

  /** Try 1 is confirmed, recorded and given back; the owner relabels the application; try 2 submits again. */
  function SubmittedTwice(user: UserId, job: JobId, id: AppId, w: WorkerId, now: Time): seq<Event> {
    Queueing(user, job, id) + SubmitTasks(w, id) + RecordedAndRerun(w, now) +
    [Calls(StatusCall(user, id, Interview, None, now))] + SubmitTasks(w, id)
  }

  /** From the start: one accepted enqueue and two confirmed submissions, one of them of a reopened job. */
  lemma RerunSubmitsAgain(s: State, user: UserId, job: JobId, id: AppId, w: WorkerId, now: Time)
    requires Initial(s) && Owned(s.jobs, job, user)
    ensures var r := After(s, SubmittedTwice(user, job, id, w, now));
      r.Some? && Times(r.value, Accepted(id)) == 1 && Times(r.value, SubmitConfirmed(id)) == 2 &&
      Reopened(r.value.log, id) == 1
  {
    var e0 := Queueing(user, job, id);
    QueueingQueues(s, user, job, id);
    var s1 := SubmittedAfter(s, e0, w, id, 1);
    var e1 := e0 + SubmitTasks(w, id);
    RecordedWaits(s1, w, id, 1, now);
    AfterConcat(s, e1, RecordedAndRerun(w, now));
    var e2 := e1 + RecordedAndRerun(w, now);
    var s2 := After(s, e2).value;
    RelabelStep(s2, user, id, Interview, now);
    AfterSnoc(s, e2, Calls(StatusCall(user, id, Interview, None, now)));
    var e3 := e2 + [Calls(StatusCall(user, id, Interview, None, now))];
    var s3 := SubmittedAfter(s, e3, w, id, 2);
    assert s3.log == [Accepted(id)] + SubmittedFacts(id) + SubmittedFacts(id);
    TwiceInHistory(id);
  }

  lemma SubmittedFactsReopen(log: seq<Fact>, id: AppId)
    ensures var more := log + SubmittedFacts(id);
      && ConfirmedSince(more, id) == ConfirmedSince(log, id) + 1
      && Reopened(more, id) == Reopened(log, id) + if ConfirmedSince(log, id) > 0 then 1 else 0
  {
    assert log + SubmittedFacts(id) == log + [Invoked(id)] + [Passed(id)] + [SubmitCalled(id)] + [SubmitConfirmed(id)];
    HistorySnoc(log, Invoked(id), id);
    HistorySnoc(log + [Invoked(id)], Passed(id), id);
    HistorySnoc(log + [Invoked(id)] + [Passed(id)], SubmitCalled(id), id);
    HistorySnoc(log + [Invoked(id)] + [Passed(id)] + [SubmitCalled(id)], SubmitConfirmed(id), id);
  }

  lemma HistorySnoc(log: seq<Fact>, f: Fact, id: AppId)
    requires f != Accepted(id)
    ensures ConfirmedSince(log + [f], id) == ConfirmedSince(log, id) + if f == SubmitConfirmed(id) then 1 else 0
    ensures Reopened(log + [f], id) ==
      Reopened(log, id) + if f == Passed(id) && ConfirmedSince(log, id) > 0 then 1 else 0
  {
    ConfirmedSnoc(log, f, id);
    ReopenedSnoc(log, f, id);
  }

  lemma TwiceInHistory(id: AppId)
    ensures var log := [Accepted(id)] + SubmittedFacts(id) + SubmittedFacts(id);
      multiset(log)[Accepted(id)] == 1 && multiset(log)[SubmitConfirmed(id)] == 2 && Reopened(log, id) == 1
  {
    var first := [Accepted(id)];
    assert first[..0] == [];
    assert ConfirmedSince(first, id) == 0 && Reopened(first, id) == 0;
    SubmittedFactsCount(first, id);
    SubmittedFactsReopen(first, id);
    SubmittedFactsCount(first + SubmittedFacts(id), id);
    SubmittedFactsReopen(first + SubmittedFacts(id), id);
  }

  /** A retried invocation that is timed out before it calls the submission again. */
  function TimedOutRetry(w: WorkerId, id: AppId): seq<Event> {
    [Works(w, SettleTask(Transient))] + [Works(w, StartTask(id)), Works(w, LoadTask)] + [Works(w, InterruptTask(false))]
  }

  lemma TransientWaits(s: State, w: WorkerId, id: AppId, try: nat)
    requires id in s.apps && w in s.workers && s.workers[w] == Run(id, try, Submitting) && try < MAX_TRIES
    ensures After(s, [Works(w, SettleTask(Transient))]) == Some(
      s.(queue := s.queue[id := Waiting(try + 1)], workers := s.workers - {w}))
  {
    AfterOne(s, Works(w, SettleTask(Transient)));
  }

  lemma RetryIsDropped(s: State, w: WorkerId, id: AppId, try: nat)
    requires id in s.apps && s.apps[id].status == Applying
    requires w in s.workers && s.workers[w] == Run(id, try, Submitting) && try < MAX_TRIES
    ensures var r := After(s, TimedOutRetry(w, id));
      r.Some? && r.value.apps == s.apps && id !in r.value.queue && r.value.log == s.log + [Invoked(id), Passed(id)]
  {
    var e1, e2 := [Works(w, SettleTask(Transient))], [Works(w, StartTask(id)), Works(w, LoadTask)];
    TransientWaits(s, w, id, try);
    WaitingGetsLoaded(After(s, e1).value, w, id, try + 1);
    AfterConcat(s, e1, e2);
    AfterSnoc(s, e1 + e2, Works(w, InterruptTask(false)));
  }

  /** From the start: an application that ends in `applying` without a live job. */
  lemma TimedOutRetryStrands(s: State, user: UserId, job: JobId, id: AppId, w: WorkerId)
    requires Initial(s) && Owned(s.jobs, job, user)
    ensures var r := After(s, Queueing(user, job, id) + CallTasks(w, id) + TimedOutRetry(w, id));
      r.Some? && id in r.value.apps && r.value.apps[id].status == Applying && id !in r.value.queue && !Unstuck(r.value)
  {
    var e0 := Queueing(user, job, id);
    QueueingQueues(s, user, job, id);
    var q := After(s, e0).value;
    WaitingGetsCalled(q, w, id, 1);
    AfterConcat(s, e0, CallTasks(w, id));
    RetryIsDropped(After(s, e0 + CallTasks(w, id)).value, w, id, 1);
    AfterConcat(s, e0 + CallTasks(w, id), TimedOutRetry(w, id));
  }
}
