/** When the statuses of a step and its job agree, and exactly which retries can break that. */
module StepQueueAgreement {
  import opened Wrappers
  import opened StepQueueModel
  import opened StepQueueTally
  import opened StepQueueInvariant
  import opened StepQueueSequence
  import opened StepQueueSafety
  import opened StepQueueTrace
  import opened StepQueueRuns
  import opened StepQueueReach
  import opened StepQueueIsolation
  import opened StepQueueJobs

  predicate JobBusy(s: State, id: StepId)
    requires id in s.steps
  {
    JobStatus(s, id) == Some(Processing) || JobStatus(s, id) == Some(Completed)
  }

  /** While a call executes the step its job is PROCESSING or COMPLETED; in the catch block the step is FAILED. */
  ghost predicate AgreesCall(s: State, c: CallId, id: StepId)
    requires id in s.steps && c in s.calls
  {
    Owner(s.calls[c].stage) == Some(id) ==> JobBusy(s, id) && (Tail(s.calls[c].stage, id) ==> s.steps[id].status == Failed)
  }

  ghost predicate ClosingOn(s: State, id: StepId)
  {
    exists c :: c in s.calls && s.calls[c].stage.Closing? && s.calls[c].stage.stepId == id
  }

  /** A COMPLETED step has a COMPLETED job, unless a call is about to write that. */
  ghost predicate AgreesRow(s: State, id: StepId)
    requires id in s.steps
  {
    s.steps[id].status == Completed ==> JobStatus(s, id) == Some(Completed) || ClosingOn(s, id)
  }

  ghost predicate Agrees(s: State, id: StepId)
    requires id in s.steps
  {
    && AgreesRow(s, id)
    && (forall c {:trigger AgreesCall(s, c, id)} :: c in s.calls ==> AgreesCall(s, c, id))
    && (forall c, d :: c in s.calls && d in s.calls && Tail(s.calls[c].stage, id) && Tail(s.calls[d].stage, id) ==> c == d)
  }

  // ---------------------------------------------------------------- every event but an early retry keeps it

  ghost predicate Unwatched(s: State, id: StepId)
  {
    forall d :: d in s.calls ==> !Watched(s.calls[d].stage, id)
  }

  lemma UnwatchedAgrees(s: State, id: StepId)
    requires id in s.steps && Unwatched(s, id) && s.steps[id].status != Completed
    ensures Agrees(s, id)
  {
  }

  /** A step that is FAILED has nobody at work on it. */
  lemma FailedUnwatched(s: State, b: Book, d: CallId, i: Input, id: StepId)
    requires Inv(s, b) && id in s.steps && s.steps[id].status == Failed && d in s.calls
    ensures Watched(s.calls[d].stage, id) ==> Tail(s.calls[d].stage, id)
  {
    hide Inv, EnteredEver;
    WatchedIsTouched(s.calls[d].stage, i, id);
    if Watched(s.calls[d].stage, id) {
      Poise(s, b, d, i, id);
    }
  }

  /** A retry of a step nobody is concerned with any more starts afresh, whatever happened before. */
  lemma RetryAgrees(s: State, b: Book, c: CallId, id: StepId)
    requires Inv(s, b) && Enabled(s, Retry(c, id)) && !Tailed(s, id)
    ensures Agrees(Apply(s, Retry(c, id)), id)
  {
    var s2 := Apply(s, Retry(c, id));
    hide Inv, Agrees;
    forall d | d in s2.calls
      ensures !Watched(s2.calls[d].stage, id)
    {
      if d != c {
        FailedUnwatched(s, b, d, Input(true, 0, 0, []), id);
      }
    }
    UnwatchedAgrees(s2, id);
  }

  lemma InsertAgrees(s: State, b: Book, c: CallId, i: Input, id: StepId)
    requires Inv(s, b) && CanAct(s, c, i) && s.calls[c].stage.Inserting? && id !in s.steps && id in ApplyAct(s, c, i).steps
    ensures Agrees(ApplyAct(s, c, i), id)
  {
    var s2 := ApplyAct(s, c, i);
    hide Inv, Agrees;
    forall d | d in s2.calls
      ensures !Watched(s2.calls[d].stage, id)
    {
      if d != c {
        WatchesOwn(s, b, d, i, id);
      }
    }
    UnwatchedAgrees(s2, id);
  }

  lemma LeavesAgrees(s: State, b: Book, s2: State, id: StepId)
    requires Inv(s, b) && id in s.steps && Agrees(s, id) && Leaves(s, s2, id)
    ensures Agrees(s2, id)
  {
    if s.steps[id].jobId.Some? {
      JobOfStep(s, b, id);
    }
    hide Inv;
    forall d | d in s2.calls
      ensures AgreesCall(s2, d, id)
    {
      if Watched(s2.calls[d].stage, id) {
        assert AgreesCall(s, d, id);
      }
    }
    if ClosingOn(s, id) {
      var d :| d in s.calls && s.calls[d].stage.Closing? && s.calls[d].stage.stepId == id;
      assert Watched(s.calls[d].stage, id);
    }
  }

  /** Where statuses agree, a call that touches a step is alone with it. */
  lemma Alone(s: State, b: Book, c: CallId, i: Input, d: CallId, id: StepId)
    requires Inv(s, b) && id in s.steps && Agrees(s, id) && c in s.calls && d in s.calls && d != c
    requires Touches(s.calls[c].stage, i, id) && !s.calls[c].stage.Inserting?
    ensures !Watched(s.calls[d].stage, id)
  {
    assert AgreesCall(s, d, id) && AgreesCall(s, c, id);
    hide Inv, EnteredEver, AgreesRow;
    Poise(s, b, c, i, id);
    if Watched(s.calls[d].stage, id) {
      if Token(s.calls[c].stage) {
        OnlyTails(s, b, c, d, i, id);
      } else {
        FailedUnwatched(s, b, d, i, id);
      }
    }
  }

  lemma CallAgrees(s: State, s2: State, c: CallId, i: Input, id: StepId)
    requires id in s.steps && c in s.calls && AgreesCall(s, c, id)
    requires Touches(s.calls[c].stage, i, id) && !s.calls[c].stage.Inserting? && Poised(s, c, id) && Moved(s, s2, c, id)
    ensures id in s2.steps && (c in s2.calls ==> AgreesCall(s2, c, id))
  {
    hide EnteredEver;
  }

  lemma RowAgrees(s: State, s2: State, c: CallId, i: Input, id: StepId)
    requires id in s.steps && c in s.calls && AgreesRow(s, id)
    requires forall d :: d in s.calls && d != c ==> !Watched(s.calls[d].stage, id)
    requires AgreesCall(s, c, id)
    requires Touches(s.calls[c].stage, i, id) && !s.calls[c].stage.Inserting? && Poised(s, c, id) && Moved(s, s2, c, id)
    ensures id in s2.steps && AgreesRow(s2, id)
  {
    hide EnteredEver;
    if ClosingOn(s, id) {
      var d :| d in s.calls && s.calls[d].stage.Closing? && s.calls[d].stage.stepId == id;
      assert Watched(s.calls[d].stage, id);
    }
  }

  lemma TouchAgrees(s: State, b: Book, c: CallId, i: Input, id: StepId)
    requires Inv(s, b) && CanAct(s, c, i) && Touches(s.calls[c].stage, i, id) && !s.calls[c].stage.Inserting?
    requires id in s.steps && Agrees(s, id)
    ensures id in ApplyAct(s, c, i).steps && Agrees(ApplyAct(s, c, i), id)
  {
    var s2 := ApplyAct(s, c, i);
    hide Inv, CanAct, ApplyAct, Touches, Poised, Moved, AgreesRow, AgreesCall;
    Acts(s, c, i);
    ActMoves(s, b, c, i, id);
    ActOthersStay(s, c, i);
    forall d | d in s.calls && d != c
      ensures !Watched(s.calls[d].stage, id)
    {
      Alone(s, b, c, i, d, id);
    }
    assert AgreesCall(s, c, id);
    RowAgrees(s, s2, c, i, id);
    CallAgrees(s, s2, c, i, id);
    forall d | d in s2.calls && d != c
      ensures AgreesCall(s2, d, id)
    {
      UnwatchedAgreesCall(s2, d, id);
    }
    OneTail(s2, c, id);
  }

  lemma UnwatchedAgreesCall(s: State, d: CallId, id: StepId)
    requires id in s.steps && d in s.calls && !Watched(s.calls[d].stage, id)
    ensures AgreesCall(s, d, id)
  {
  }

  lemma OneTail(s: State, c: CallId, id: StepId)
    requires forall d :: d in s.calls && d != c ==> !Watched(s.calls[d].stage, id)
    ensures forall d, e :: d in s.calls && e in s.calls && Tail(s.calls[d].stage, id) && Tail(s.calls[e].stage, id) ==> d == e
  {
  }

  /** The event is no retry of the step that overtakes a catch block of it. */
  ghost predicate InTime(s: State, e: Event, id: StepId)
  {
    e.Retry? && e.stepId == id ==> !Tailed(s, id)
  }

  lemma EventAgrees(s: State, b: Book, e: Event, id: StepId)
    requires Inv(s, b) && Enabled(s, e) && id in Apply(s, e).steps && (id in s.steps ==> Agrees(s, id)) && InTime(s, e, id)
    ensures Agrees(Apply(s, e), id)
  {
    hide Inv, Agrees, ApplyAct, Touches, CanAct, SameTables, SameCalls;
    if e.Act? {
      Acts(s, e.call, e.input);
    }
    if EventTouches(s, e, id) {
      if e.Retry? {
        RetryAgrees(s, b, e.call, id);
      } else if s.calls[e.call].stage.Inserting? {
        InsertedIsNew(s, e.call, e.input, id);
        InsertAgrees(s, b, e.call, e.input, id);
      } else {
        Poise(s, b, e.call, e.input, id);
        TouchAgrees(s, b, e.call, e.input, id);
      }
    } else {
      EventLeaves(s, b, e, id);
      assert id in s.steps by { LeftInPlace(s, Apply(s, e), id); }
      LeavesAgrees(s, b, Apply(s, e), id);
    }
  }

  // ---------------------------------------------------------------- the guard a caller can test

  /** The job of a FAILED step says that nobody is concerned with it: it is neither PROCESSING nor COMPLETED. */
  predicate Guard(s: State, id: StepId)
    requires id in s.steps
  {
    JobStatus(s, id) == Some(Failed) || JobStatus(s, id) == Some(Pending)
  }

  /** Every retry of `id` is taken with its job FAILED or PENDING. */
  ghost predicate Careful(s: State, es: seq<Event>, id: StepId)
    requires Legal(s, es)
  {
    es == [] ||
    var n := |es| - 1;
    Careful(s, es[..n], id) && (es[n].Retry? && es[n].stepId == id ==> id in Exec(s, es[..n]).steps && Guard(Exec(s, es[..n]), id))
  }

  lemma FailedHasJob(s: State, b: Book, id: StepId)
    requires Inv(s, b) && id in s.steps && s.steps[id].status == Failed
    ensures s.steps[id].jobId.Some?
  {
    hide Inv, SequenceOk;
    FailedIsFree(s, b, id);
    FreeHasJob(s, s.steps[id].workerId, b.order[s.steps[id].workerId], id);
  }

  lemma FreeHasJob(s: State, w: SequenceId, ids: seq<StepId>, id: StepId)
    requires SequenceOk(s, w, ids, Free) && id in s.steps && Placed(s.steps, ids, id) && s.steps[id].status == Failed
    ensures s.steps[id].jobId.Some?
  {
    assert RowsOf(s.steps, ids)[s.steps[id].stepNumber - 1] == s.steps[id];
  }

  /** While statuses agree, the job of a FAILED step tells exactly whether its catch block has finished. */
  lemma GuardTells(s: State, b: Book, id: StepId)
    requires Inv(s, b) && id in s.steps && s.steps[id].status == Failed && Agrees(s, id) && Tracked(s, id)
    ensures Guard(s, id) <==> !Tailed(s, id)
    ensures JobStatus(s, id) == Some(Failed) <==> !Tailed(s, id) && EnteredEver(s, id)
  {
    FailedHasJob(s, b, id);
    hide Inv, EnteredEver, AgreesRow;
    if Tailed(s, id) {
      var c :| c in s.calls && Tail(s.calls[c].stage, id);
      assert AgreesCall(s, c, id);
    }
  }

  lemma {:induction false} CarefulRunAgrees(es: seq<Event>, id: StepId)
    requires Legal(EMPTY, es) && id in Exec(EMPTY, es).steps && Careful(EMPTY, es, id)
    ensures Agrees(Exec(EMPTY, es), id)
  {
    hide Enabled, Apply, Agrees, Guard, Tailed;
    if es != [] {
      var n := |es| - 1;
      var s := Exec(EMPTY, es[..n]);
      var b := KeepRun(es[..n]);
      hide Inv;
      if id in s.steps {
        CarefulRunAgrees(es[..n], id);
        TrackedRun(es[..n], id);
      }
      if es[n].Retry? && es[n].stepId == id {
        RetriesFailed(s, es[n]);
        GuardTells(s, b, id);
      }
      EventAgrees(s, b, es[n], id);
    }
  }

  lemma RetriesFailed(s: State, e: Event)
    requires Enabled(s, e) && e.Retry?
    ensures e.stepId in s.steps && s.steps[e.stepId].status == Failed && e.call !in s.calls
  {
  }

  // ---------------------------------------------------------------- the theorems

  /** In every run a step's job names the step, and `completedAt` is set exactly on COMPLETED jobs. */
  lemma JobsNameSteps(es: seq<Event>)
    requires Legal(EMPTY, es)
    ensures forall id :: id in Exec(EMPTY, es).steps && Exec(EMPTY, es).steps[id].jobId.Some? ==>
              JobOf(Exec(EMPTY, es), id, Exec(EMPTY, es).steps[id].jobId.value)
    ensures JobsDated(Exec(EMPTY, es))
  {
    var s := Exec(EMPTY, es);
    var b := KeepRun(es);
    hide Exec, Legal, Inv, JobsDated;
    Dated(s, b);
    forall id | id in s.steps && s.steps[id].jobId.Some?
      ensures JobOf(s, id, s.steps[id].jobId.value)
    {
      JobOfStep(s, b, id);
    }
  }

  predicate JobOf(s: State, id: StepId, job: JobId)
  {
    job in s.jobs && s.jobs[job].stepId == id
  }

  /**
   * In every run, once its catch blocks have finished, a FAILED step has a FAILED job exactly if its handler was ever
   * entered, and otherwise (it was only ever rejected for want of a handler) a PENDING one.
   */
  lemma FailedStepsJob(es: seq<Event>, id: StepId)
    requires Legal(EMPTY, es) && id in Exec(EMPTY, es).steps && Exec(EMPTY, es).steps[id].status == Failed
    requires !Tailed(Exec(EMPTY, es), id)
    ensures JobStatus(Exec(EMPTY, es), id) == Some(Failed) <==> EnteredEver(Exec(EMPTY, es), id)
    ensures JobStatus(Exec(EMPTY, es), id) == Some(Pending) <==> !EnteredEver(Exec(EMPTY, es), id)
  {
    var b := KeepRun(es);
    TrackedRun(es, id);
    hide Exec, Legal, Inv, EnteredEver, Tailed;
    FailedHasJob(Exec(EMPTY, es), b, id);
  }

  /** A FAILED step whose last deed was not a rejection has been entered. */
  lemma LastDeedEntered(es: seq<Event>, id: StepId, j: nat)
    requires Legal(EMPTY, es) && id in Exec(EMPTY, es).steps && Exec(EMPTY, es).steps[id].status == Failed
    requires LastOf(Exec(EMPTY, es).log, Exec(EMPTY, es).steps[id].workerId, j)
    ensures IsFailure(Exec(EMPTY, es).log[j].deed)
    ensures Exec(EMPTY, es).log[j].stepNumber == Exec(EMPTY, es).steps[id].stepNumber
    ensures !Exec(EMPTY, es).log[j].deed.Rejected? ==> EnteredEver(Exec(EMPTY, es), id)
  {
    var s := Exec(EMPTY, es);
    var b := KeepRun(es);
    hide Exec, Legal, Inv, SequenceOk;
    FailedIsFree(s, b, id);
    FailedLast(s, s.steps[id].workerId, b.order[s.steps[id].workerId], id, j);
  }

  /** The last entry of sequence `w` is at `j`. */
  predicate LastOf(log: seq<Entry>, w: SequenceId, j: nat)
  {
    j < |log| && log[j].workerId == w && forall m :: j < m < |log| ==> log[m].workerId != w
  }

  lemma FailedLast(s: State, w: SequenceId, ids: seq<StepId>, id: StepId, j: nat)
    requires SequenceOk(s, w, ids, Free) && id in s.steps && Placed(s.steps, ids, id) && s.steps[id].status == Failed
    requires s.steps[id].workerId == w && LastOf(s.log, w, j)
    ensures IsFailure(s.log[j].deed) && s.log[j].stepNumber == s.steps[id].stepNumber
    ensures !s.log[j].deed.Rejected? ==> EnteredEver(s, id)
  {
    assert RowsOf(s.steps, ids)[s.steps[id].stepNumber - 1] == s.steps[id];
    var m := DownAtFailure(s.log, w);
    if s.log[j].deed.Threw? {
      SettledAfterEntry(s.log, w, j);
    } else if s.log[j].deed.Refused? {
      RefusedAfterEntry(s.log, w, j);
    }
  }

  /** With retries taken only when the job is FAILED or PENDING, a COMPLETED step has a COMPLETED job, or is about to. */
  lemma CompletedStepsJob(es: seq<Event>, id: StepId)
    requires Legal(EMPTY, es) && id in Exec(EMPTY, es).steps && Careful(EMPTY, es, id)
    requires Exec(EMPTY, es).steps[id].status == Completed
    ensures JobStatus(Exec(EMPTY, es), id) == Some(Completed) || ClosingOn(Exec(EMPTY, es), id)
  {
    CarefulRunAgrees(es, id);
    hide Exec, Legal, ClosingOn;
  }

  /** In such runs the job of a FAILED step is FAILED or PENDING exactly when no catch block of it is under way. */
  lemma GuardIff(es: seq<Event>, id: StepId)
    requires Legal(EMPTY, es) && id in Exec(EMPTY, es).steps && Careful(EMPTY, es, id)
    requires Exec(EMPTY, es).steps[id].status == Failed
    ensures Guard(Exec(EMPTY, es), id) <==> !Tailed(Exec(EMPTY, es), id)
    ensures JobStatus(Exec(EMPTY, es), id) == Some(Failed)
       <==> !Tailed(Exec(EMPTY, es), id) && EnteredEver(Exec(EMPTY, es), id)
  {
    var b := KeepRun(es);
    CarefulRunAgrees(es, id);
    TrackedRun(es, id);
    hide *;
    GuardTells(Exec(EMPTY, es), b, id);
  }
}
