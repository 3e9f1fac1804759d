/** How the job of a step follows the step: exactly, in every run, and what a retry that comes too early breaks. */
module StepQueueJobs {
  import opened Wrappers
  import opened StepQueueModel
  import opened StepQueueTally
  import opened StepQueueInvariant
  import opened StepQueueSequence
  import opened StepQueueSafety
  import opened StepQueueTrace
  import opened StepQueueRuns
  import opened StepQueueReach
  import opened StepQueueIsolation

  /** The status of a step's job, if it has one. */
  function JobStatus(s: State, id: StepId): Option<Status>
    requires id in s.steps
  {
    var job := s.steps[id].jobId;
    if job.Some? && job.value in s.jobs then Some(s.jobs[job.value].status) else None
  }

  /** The handler of step `id` has been entered. */
  ghost predicate EnteredEver(s: State, id: StepId)
    requires id in s.steps
  {
    exists j :: 0 <= j < |s.log| && s.log[j].workerId == s.steps[id].workerId
                && s.log[j].stepNumber == s.steps[id].stepNumber && s.log[j].deed.Entered?
  }

  /** The call is in the catch block of step `id`, about to mark its job FAILED. */
  predicate Tail(stage: Stage, id: StepId)
  {
    (stage.Tracing? || stage.Voiding?) && stage.stepId == id
  }

  ghost predicate Tailed(s: State, id: StepId)
  {
    exists c :: c in s.calls && Tail(s.calls[c].stage, id)
  }

  // ---------------------------------------------------------------- what holds in every run

  /** What a waiting step's job says: FAILED once its handler has been entered, PENDING before. */
  ghost predicate TrackedRow(s: State, id: StepId)
    requires id in s.steps
  {
    (s.steps[id].status == Pending || s.steps[id].status == Failed) && s.steps[id].jobId.Some? && !Tailed(s, id) ==>
      JobStatus(s, id) == Some(if EnteredEver(s, id) then Failed else Pending)
  }

  ghost predicate TrackedCall(s: State, c: CallId, id: StepId)
    requires id in s.steps && c in s.calls
  {
    var stage := s.calls[c].stage;
    && (Owner(stage) == Some(id) && !stage.Calling? ==> EnteredEver(s, id))
    && (stage.Voiding? && stage.stepId == id ==> s.steps[id].jobId == Some(stage.jobId))
    && (stage.Linking? && stage.next == id ==> stage.jobId in s.jobs && s.jobs[stage.jobId].status == Pending)
  }

  ghost predicate Tracked(s: State, id: StepId)
    requires id in s.steps
  {
    TrackedRow(s, id) && forall c {:trigger TrackedCall(s, c, id)} :: c in s.calls ==> TrackedCall(s, c, id)
  }

  // ---------------------------------------------------------------- before and after an action

  /** What the invariant says of step `id` when a call is about to touch it. */
  ghost predicate Poised(s: State, c: CallId, id: StepId)
    requires c in s.calls && id in s.steps
  {
    var row := s.steps[id];
    && (row.jobId.Some? ==> row.jobId.value in s.jobs && s.jobs[row.jobId.value].stepId == id)
    && match s.calls[c].stage
       case Starting(_, _) => row.status == Pending && row.jobId.Some?
       case Fetching(_, _) => row.status == Processing && row.jobId.Some?
       case Claiming(_, _, job) => row.status == Processing && row.jobId == Some(job)
       case Calling(_, _, job) => row.status == Processing && row.jobId == Some(job)
       case Running(_, _, job) => row.status == Processing && row.jobId == Some(job)
       case Finishing(_, _, job) => row.status == Processing && row.jobId == Some(job)
       case Closing(_, _, job) => row.status == Completed && row.jobId == Some(job)
       case Advancing(_, _) => row.status == Completed && row.jobId.Some?
       case Drafting(owner, _, next) => Handing(s, owner, next, id)
       case Linking(owner, _, next, job) => Handing(s, owner, next, id) && job in s.jobs && s.jobs[job].stepId == next
       case Sending(owner, _, next, _) => Handing(s, owner, next, id)
       case Failing(_, _) => (row.status == Processing || row.status == Completed) && row.jobId.Some?
       case Tracing(_) => row.jobId.Some?
       case Voiding(_, job) => job in s.jobs && s.jobs[job].stepId == id
       case _ => true
  }

  ghost predicate Handing(s: State, owner: Option<StepId>, next: StepId, id: StepId)
    requires id in s.steps
  {
    && (owner == Some(id) ==> next != id && s.steps[id].status == Completed && s.steps[id].jobId.Some?)
    && (next == id ==> s.steps[id].status == Pending && !EnteredEver(s, id))
  }

  lemma NextNotEntered(s: State, w: SequenceId, ids: seq<StepId>, c: CallId, next: StepId)
    requires SequenceOk(s, w, ids, Held(c))
    requires var stage := s.calls[c].stage; (stage.Drafting? || stage.Linking? || stage.Sending?) && stage.next == next
    ensures next in s.steps && s.steps[next].status == Pending && !EnteredEver(s, next)
    ensures s.calls[c].stage.owner != Some(next)
  {
    var t := TallyOf(s.log, w);
    assert RowAt(s, ids, w, Cursor(t));
    assert RowsOf(s.steps, ids)[Cursor(t)] == s.steps[next];
    if t.k < |ids| {
      assert RowAt(s, ids, w, t.k);
    }
    if EnteredEver(s, next) {
      var j :| 0 <= j < |s.log| && s.log[j].workerId == w && s.log[j].stepNumber == Cursor(t) + 1 && s.log[j].deed.Entered?;
      EnteredBelow(s.log, w, j);
      Silent(s.log, w);
    }
  }

  lemma PoisedToken(s: State, w: SequenceId, ids: seq<StepId>, c: CallId, i: Input, id: StepId)
    requires SequenceOk(s, w, ids, Held(c)) && PapersOk(s, s.calls[c])
    requires Touches(s.calls[c].stage, i, id) && !s.calls[c].stage.Inserting?
    ensures id in s.steps && Poised(s, c, id)
  {
    var t := TallyOf(s.log, w);
    if t.k < |ids| {
      assert RowAt(s, ids, w, t.k);
      assert RowsOf(s.steps, ids)[t.k] == s.steps[ids[t.k]];
    }
    if Cursor(t) < |ids| {
      assert RowAt(s, ids, w, Cursor(t));
      assert RowsOf(s.steps, ids)[Cursor(t)] == s.steps[ids[Cursor(t)]];
    }
    var stage := s.calls[c].stage;
    if stage.Drafting? || stage.Linking? || stage.Sending? {
      NextNotEntered(s, w, ids, c, stage.next);
    }
  }

  lemma Poise(s: State, b: Book, c: CallId, i: Input, id: StepId)
    requires Inv(s, b) && c in s.calls && Touches(s.calls[c].stage, i, id) && !s.calls[c].stage.Inserting?
    ensures id in s.steps && s.steps[id].workerId == s.calls[c].workerId && Poised(s, c, id)
  {
    hide Inv, SequenceOk, Touches, JobNames;
    Seated(s, b, c);
    Named(s, b, c);
    if Token(s.calls[c].stage) {
      hide Poised;
      PoisedToken(s, s.calls[c].workerId, b.order[s.calls[c].workerId], c, i, id);
    } else {
      TailTouches(s.calls[c].stage, i, id);
      if s.steps[id].jobId.Some? {
        JobOfStep(s, b, id);
      }
    }
  }

  lemma TailTouches(stage: Stage, i: Input, id: StepId)
    requires !Token(stage) && Touches(stage, i, id)
    ensures stage.stepId == id
  {
  }

  /** What the action does to the step it touches, to its job and to the call. */
  ghost predicate Moved(s: State, s2: State, c: CallId, id: StepId)
    requires c in s.calls && id in s.steps
  {
    && id in s2.steps
    && var row, row2 := s.steps[id], s2.steps[id];
       var job, job2 := JobStatus(s, id), JobStatus(s2, id);
       match s.calls[c].stage
       case Starting(_, ids) =>
         && row2.jobId == row.jobId && job2 == job
         && if row.kind in s.handlers then row2.status == Processing && At(s2, c, Fetching(id, ids))
            else row2.status == Failed && c !in s2.calls
       case Fetching(_, ids) => row2 == row && job2 == job && row.jobId.Some? && At(s2, c, Claiming(id, ids, row.jobId.value))
       case Claiming(_, ids, j) => row2 == row && job2 == Some(Processing) && At(s2, c, Calling(id, ids, j))
       case Calling(_, ids, j) => row2 == row && job2 == job && At(s2, c, Running(id, ids, j)) && EnteredEver(s2, id)
       case Running(_, ids, j) =>
         row2 == row && job2 == job && (At(s2, c, Finishing(id, ids, j)) || At(s2, c, StepQueueModel.Failing(id, ids)))
       case Finishing(_, ids, j) =>
         row2.status == Completed && row2.jobId == row.jobId && job2 == job && At(s2, c, Closing(id, ids, j))
       case Closing(_, ids, _) => row2 == row && job2 == Some(Completed) && At(s2, c, Advancing(Some(id), ids))
       case Advancing(_, ids) =>
         && row2 == row && job2 == job
         && (c in s2.calls ==> s2.calls[c].stage.Drafting? && s2.calls[c].stage.owner == Some(id))
       case Drafting(owner, ids, next) =>
         && row2 == row && job2 == job
         && c in s2.calls && s2.calls[c].stage.Linking? && s2.calls[c].stage.owner == owner && s2.calls[c].stage.next == next
         && var j := s2.calls[c].stage.jobId; j in s2.jobs && s2.jobs[j].status == Pending
       case Linking(owner, ids, next, j) =>
         && row2.status == row.status
         && (if next == id then row2.jobId == Some(j) && j in s.jobs && job2 == Some(s.jobs[j].status) else row2 == row && job2 == job)
         && At(s2, c, Sending(owner, ids, next, j))
       case Sending(_, ids, _, _) => row2 == row && job2 == job && (c in s2.calls ==> At(s2, c, StepQueueModel.Failing(id, ids)))
       case Failing(_, _) => row2.status == Failed && row2.jobId == row.jobId && job2 == job && At(s2, c, Tracing(id))
       case Tracing(_) => row2 == row && job2 == job && row.jobId.Some? && At(s2, c, Voiding(id, row.jobId.value))
       case Voiding(_, j) => row2 == row && c !in s2.calls && (row.jobId == Some(j) ==> job2 == Some(Failed))
       case _ => true
  }

  lemma QueueingMoves(s: State, c: CallId, i: Input, id: StepId)
    requires CanAct(s, c, i) && Queueing(s.calls[c].stage) && !s.calls[c].stage.Inserting?
    requires Touches(s.calls[c].stage, i, id) && id in s.steps && Poised(s, c, id)
    ensures Moved(s, ApplyAct(s, c, i), c, id)
  {
    hide NextPending, IsOrdered, Among, EnteredEver;
  }

  lemma EarlyMoves(s: State, c: CallId, i: Input, id: StepId)
    requires CanAct(s, c, i) && Early(s.calls[c].stage)
    requires Touches(s.calls[c].stage, i, id) && id in s.steps && Poised(s, c, id)
    ensures Moved(s, ApplyAct(s, c, i), c, id)
  {
    hide NextPending, IndexOf, IsOrdered, Among, StepsOf, EnteredEver;
  }

  lemma CallingMoves(s: State, c: CallId, i: Input, id: StepId)
    requires CanAct(s, c, i) && s.calls[c].stage.Calling?
    requires Touches(s.calls[c].stage, i, id) && id in s.steps && Poised(s, c, id)
    ensures Moved(s, ApplyAct(s, c, i), c, id)
  {
    hide NextPending, IndexOf, IsOrdered, Among, StepsOf;
    assert ApplyAct(s, c, i).log[|s.log|].deed.Entered?;
  }

  lemma LateMoves(s: State, c: CallId, i: Input, id: StepId)
    requires CanAct(s, c, i) && !Queueing(s.calls[c].stage) && !Early(s.calls[c].stage) && !s.calls[c].stage.Calling?
    requires Touches(s.calls[c].stage, i, id) && id in s.steps && Poised(s, c, id)
    ensures Moved(s, ApplyAct(s, c, i), c, id)
  {
    hide NextPending, IndexOf, IsOrdered, Among, StepsOf, EnteredEver;
  }

  lemma ActMoves(s: State, b: Book, c: CallId, i: Input, id: StepId)
    requires Inv(s, b) && CanAct(s, c, i) && Touches(s.calls[c].stage, i, id) && !s.calls[c].stage.Inserting?
    ensures id in s.steps && s.steps[id].workerId == s.calls[c].workerId
    ensures Poised(s, c, id) && Moved(s, ApplyAct(s, c, i), c, id)
  {
    hide *;
    Acts(s, c, i);
    Poise(s, b, c, i, id);
    if Queueing(s.calls[c].stage) {
      QueueingMoves(s, c, i, id);
    } else if Early(s.calls[c].stage) {
      EarlyMoves(s, c, i, id);
    } else if s.calls[c].stage.Calling? {
      CallingMoves(s, c, i, id);
    } else {
      LateMoves(s, c, i, id);
    }
  }

  // ---------------------------------------------------------------- every event keeps it

  /** No handler of step `id` is entered. */
  ghost predicate SameEntered(s: State, s2: State, id: StepId)
  {
    id in s.steps && id in s2.steps && (EnteredEver(s2, id) <==> EnteredEver(s, id))
  }

  lemma StaysEntered(s: State, s2: State, id: StepId)
    requires Extends(s, s2) && id in s.steps
    ensures id in s2.steps && (EnteredEver(s, id) ==> EnteredEver(s2, id))
  {
    assert SameStep(s.steps[id], s2.steps[id]);
    if EnteredEver(s, id) {
      var j :| 0 <= j < |s.log| && s.log[j].workerId == s.steps[id].workerId
               && s.log[j].stepNumber == s.steps[id].stepNumber && s.log[j].deed.Entered?;
      assert s2.log[j] == s.log[j];
    }
  }

  /** What is appended to the history is not the entry of the handler of `id`. */
  ghost predicate NotEntry(s: State, s2: State, id: StepId)
    requires id in s.steps
  {
    && |s.log| <= |s2.log| <= |s.log| + 1
    && (|s2.log| > |s.log| && s2.log[|s.log|].deed.Entered? ==>
          s2.log[|s.log|].workerId != s.steps[id].workerId || s2.log[|s.log|].stepNumber != s.steps[id].stepNumber)
  }

  lemma NotEntryKeeps(s: State, s2: State, id: StepId)
    requires Extends(s, s2) && id in s.steps && NotEntry(s, s2, id)
    ensures SameEntered(s, s2, id)
  {
    StaysEntered(s, s2, id);
    assert SameStep(s.steps[id], s2.steps[id]);
    if EnteredEver(s2, id) {
      var j :| 0 <= j < |s2.log| && s2.log[j].workerId == s2.steps[id].workerId
               && s2.log[j].stepNumber == s2.steps[id].stepNumber && s2.log[j].deed.Entered?;
      assert j < |s.log|;
      assert s.log[j] == s2.log[j];
    }
  }

  lemma QueueingNotes(s: State, c: CallId, i: Input, id: StepId)
    requires CanAct(s, c, i) && Queueing(s.calls[c].stage) && id in s.steps
    ensures NotEntry(s, ApplyAct(s, c, i), id)
  {
    hide NextPending, IsOrdered, Among;
  }

  lemma ExecutingNotes(s: State, c: CallId, i: Input, id: StepId)
    requires CanAct(s, c, i) && !Queueing(s.calls[c].stage) && id in s.steps
    requires s.calls[c].stage.Calling? ==>
               var x := s.calls[c].stage.stepId;
               s.steps[x].workerId != s.steps[id].workerId || s.steps[x].stepNumber != s.steps[id].stepNumber
    ensures NotEntry(s, ApplyAct(s, c, i), id)
  {
    hide NextPending, IndexOf, IsOrdered, Among, StepsOf;
  }

  /** No two steps have the same number in the same sequence. */
  lemma OwnPlace(s: State, b: Book, x: StepId, id: StepId)
    requires Inv(s, b) && x in s.steps && id in s.steps && x != id
    ensures s.steps[x].workerId != s.steps[id].workerId || s.steps[x].stepNumber != s.steps[id].stepNumber
  {
    hide Inv, SequenceOk;
    InItsPlace(s, b, x);
    InItsPlace(s, b, id);
  }

  lemma ActNotes(s: State, b: Book, c: CallId, i: Input, id: StepId)
    requires Inv(s, b) && CanAct(s, c, i) && id in s.steps
    requires s.calls[c].stage.Calling? ==> s.calls[c].stage.stepId != id
    ensures SameEntered(s, ApplyAct(s, c, i), id)
  {
    hide Inv, ApplyAct, Queueing, NotEntry, Extends, SameEntered;
    ActExtends(s, c, i);
    if Queueing(s.calls[c].stage) {
      QueueingNotes(s, c, i, id);
    } else {
      if s.calls[c].stage.Calling? {
        OwnPlace(s, b, s.calls[c].stage.stepId, id);
      }
      ExecutingNotes(s, c, i, id);
    }
    NotEntryKeeps(s, ApplyAct(s, c, i), id);
  }

  lemma EventNotes(s: State, b: Book, e: Event, id: StepId)
    requires Inv(s, b) && Enabled(s, e) && id in s.steps
    requires e.Act? && s.calls[e.call].stage.Calling? ==> s.calls[e.call].stage.stepId != id
    ensures SameEntered(s, Apply(s, e), id)
  {
    hide Inv, ApplyAct, SameEntered, CanAct;
    if e.Act? {
      ActNotes(s, b, e.call, e.input, id);
    } else {
      ApplyExtends(s, e);
      assert NotEntry(s, Apply(s, e), id);
      NotEntryKeeps(s, Apply(s, e), id);
    }
  }

  /** The step and all that concerns it stay as they were. */
  lemma LeavesTracked(s: State, b: Book, s2: State, id: StepId)
    requires Inv(s, b) && id in s.steps && Tracked(s, id) && Leaves(s, s2, id) && SameEntered(s, s2, id)
    ensures Tracked(s2, id)
  {
    hide EnteredEver;
    if s.steps[id].jobId.Some? {
      JobOfStep(s, b, id);
    }
    hide Inv;
    forall d | d in s2.calls
      ensures TrackedCall(s2, d, id)
    {
      if Watched(s2.calls[d].stage, id) {
        assert TrackedCall(s, d, id);
        Named(s, b, d);
      }
    }
    forall d | d in s.calls && Tail(s.calls[d].stage, id)
      ensures d in s2.calls && Tail(s2.calls[d].stage, id)
    {
      assert Watched(s.calls[d].stage, id);
    }
  }

  lemma RetryTracked(s: State, b: Book, c: CallId, id: StepId)
    requires Inv(s, b) && Enabled(s, Retry(c, id)) && Tracked(s, id)
    ensures Tracked(Apply(s, Retry(c, id)), id)
  {
    var s2 := Apply(s, Retry(c, id));
    EventNotes(s, b, Retry(c, id), id);
    hide Inv, EnteredEver;
    forall d | d in s2.calls
      ensures TrackedCall(s2, d, id)
    {
      if d != c {
        assert TrackedCall(s, d, id);
      }
    }
    forall d | d in s.calls && Tail(s.calls[d].stage, id)
      ensures d in s2.calls && Tail(s2.calls[d].stage, id)
    {
    }
  }

  lemma WatchesOwn(s: State, b: Book, d: CallId, i: Input, id: StepId)
    requires Inv(s, b) && d in s.calls
    ensures Watched(s.calls[d].stage, id) ==> id in s.steps && s.steps[id].workerId == s.calls[d].workerId
  {
    hide Inv, JobNames;
    Named(s, b, d);
    WatchedIsTouched(s.calls[d].stage, i, id);
  }

  lemma InsertTracked(s: State, b: Book, c: CallId, i: Input, id: StepId)
    requires Inv(s, b) && CanAct(s, c, i) && s.calls[c].stage.Inserting? && id !in s.steps && id in ApplyAct(s, c, i).steps
    ensures Tracked(ApplyAct(s, c, i), id)
  {
    var s2 := ApplyAct(s, c, i);
    hide Inv;
    forall d | d in s2.calls
      ensures TrackedCall(s2, d, id)
    {
      WatchesOwn(s, b, d, i, id);
    }
  }

  /** Beside a call at work on a sequence only catch blocks can be concerned with its steps. */
  lemma OnlyTails(s: State, b: Book, c: CallId, d: CallId, i: Input, id: StepId)
    requires Inv(s, b) && c in s.calls && d in s.calls && c != d && Token(s.calls[c].stage)
    requires id in s.steps && s.steps[id].workerId == s.calls[c].workerId && Watched(s.calls[d].stage, id)
    ensures Tail(s.calls[d].stage, id)
  {
    hide Inv, SequenceOk, PapersOk;
    WatchesOwn(s, b, d, i, id);
    Seated(s, b, c);
    Seated(s, b, d);
  }

  /** The calls other than `c` are as they were. */
  ghost predicate OthersStay(s: State, s2: State, c: CallId)
  {
    && (forall d :: d in s.calls && d != c ==> d in s2.calls && s2.calls[d] == s.calls[d])
    && (forall d :: d in s2.calls && d != c ==> d in s.calls)
  }

  lemma ActOthersStay(s: State, c: CallId, i: Input)
    requires CanAct(s, c, i)
    ensures OthersStay(s, ApplyAct(s, c, i), c)
  {
    hide ApplyAct, Queueing, CanAct;
    Acts(s, c, i);
    forall d | d in s.calls && d != c
      ensures d in ApplyAct(s, c, i).calls && ApplyAct(s, c, i).calls[d] == s.calls[d]
    {
      ActLeavesOthers(s, c, i, d);
    }
    if Queueing(s.calls[c].stage) {
      QueueingKeys(s, c, i);
    } else {
      ExecutingKeys(s, c, i);
    }
  }

  lemma QueueingKeys(s: State, c: CallId, i: Input)
    requires CanAct(s, c, i) && Queueing(s.calls[c].stage)
    ensures ApplyAct(s, c, i).calls.Keys <= s.calls.Keys
  {
    hide NextPending, IsOrdered, Among;
  }

  lemma ExecutingKeys(s: State, c: CallId, i: Input)
    requires CanAct(s, c, i) && !Queueing(s.calls[c].stage)
    ensures ApplyAct(s, c, i).calls.Keys <= s.calls.Keys
  {
    hide NextPending, IndexOf, IsOrdered, Among, StepsOf;
  }

  /** The other calls keep their part when `c` touches the step. */
  lemma OtherTracked(s: State, b: Book, s2: State, c: CallId, i: Input, d: CallId, id: StepId)
    requires Inv(s, b) && id in s.steps && Tracked(s, id) && Extends(s, s2) && OthersStay(s, s2, c)
    requires c in s.calls && d in s2.calls && d != c && s.steps[id].workerId == s.calls[c].workerId
    requires !s.calls[c].stage.Inserting?
    requires Touches(s.calls[c].stage, i, id) && Poised(s, c, id) && Moved(s, s2, c, id)
    ensures id in s2.steps && TrackedCall(s2, d, id)
  {
    StaysEntered(s, s2, id);
    assert TrackedCall(s, d, id) && TrackedCall(s, c, id);
    assert d in s.calls && s2.calls[d] == s.calls[d];
    hide Inv, EnteredEver, Extends, TrackedRow, TrackedCall, Poised, Moved, OthersStay, Watched, Touches;
    if !Watched(s.calls[d].stage, id) {
      UnwatchedTracked(s2, d, id);
    } else if Token(s.calls[c].stage) {
      OnlyTails(s, b, c, d, i, id);
      TailBesideToken(s, s2, c, i, d, id);
    } else {
      NotLinking(s, b, c, i, d, id);
      BesideTail(s, s2, c, i, d, id);
    }
  }

  lemma UnwatchedTracked(s: State, d: CallId, id: StepId)
    requires id in s.steps && d in s.calls && !Watched(s.calls[d].stage, id)
    ensures TrackedCall(s, d, id)
  {
  }

  lemma TailBesideToken(s: State, s2: State, c: CallId, i: Input, d: CallId, id: StepId)
    requires id in s.steps && c in s.calls && d in s.calls && d in s2.calls && s2.calls[d] == s.calls[d]
    requires Tail(s.calls[d].stage, id) && Token(s.calls[c].stage) && TrackedCall(s, d, id)
    requires Touches(s.calls[c].stage, i, id) && !s.calls[c].stage.Inserting? && Poised(s, c, id) && Moved(s, s2, c, id)
    requires id in s2.steps && (EnteredEver(s, id) ==> EnteredEver(s2, id))
    ensures TrackedCall(s2, d, id)
  {
    hide EnteredEver;
  }

  /** While a catch block of a step is under way nobody links a job to it: its handler has been entered. */
  lemma NotLinking(s: State, b: Book, c: CallId, i: Input, d: CallId, id: StepId)
    requires Inv(s, b) && id in s.steps && c in s.calls && d in s.calls && TrackedCall(s, c, id)
    requires !Token(s.calls[c].stage) && Touches(s.calls[c].stage, i, id)
    ensures s.calls[d].stage.Linking? ==> s.calls[d].stage.next != id
  {
    hide Inv, EnteredEver;
    if s.calls[d].stage.Linking? && s.calls[d].stage.next == id {
      Poise(s, b, d, i, id);
    }
  }

  lemma BesideTail(s: State, s2: State, c: CallId, i: Input, d: CallId, id: StepId)
    requires id in s.steps && c in s.calls && d in s.calls && d in s2.calls && s2.calls[d] == s.calls[d]
    requires !Token(s.calls[c].stage) && TrackedCall(s, d, id)
    requires s.calls[d].stage.Linking? ==> s.calls[d].stage.next != id
    requires Touches(s.calls[c].stage, i, id) && Moved(s, s2, c, id)
    requires id in s2.steps && (EnteredEver(s, id) ==> EnteredEver(s2, id))
    ensures TrackedCall(s2, d, id)
  {
    hide EnteredEver;
  }

  lemma CallTracked(s: State, s2: State, c: CallId, i: Input, id: StepId)
    requires id in s.steps && Tracked(s, id) && Extends(s, s2) && c in s.calls
    requires Touches(s.calls[c].stage, i, id) && !s.calls[c].stage.Inserting? && Poised(s, c, id) && Moved(s, s2, c, id)
    ensures id in s2.steps && (c in s2.calls ==> TrackedCall(s2, c, id))
  {
    StaysEntered(s, s2, id);
    assert TrackedCall(s, c, id);
    hide EnteredEver, Extends, TrackedRow;
  }

  lemma RowTracked(s: State, s2: State, c: CallId, i: Input, id: StepId)
    requires id in s.steps && Tracked(s, id) && Extends(s, s2) && c in s.calls && OthersStay(s, s2, c)
    requires s.calls[c].stage.Calling? || SameEntered(s, s2, id)
    requires Touches(s.calls[c].stage, i, id) && !s.calls[c].stage.Inserting? && Poised(s, c, id) && Moved(s, s2, c, id)
    ensures id in s2.steps && TrackedRow(s2, id)
  {
    assert TrackedCall(s, c, id);
    hide EnteredEver, Extends;
    if !Tailed(s2, id) && Tailed(s, id) {
      var d :| d in s.calls && Tail(s.calls[d].stage, id);
      assert d == c;
    }
  }

  lemma TouchTracked(s: State, b: Book, c: CallId, i: Input, id: StepId)
    requires Inv(s, b) && CanAct(s, c, i) && Touches(s.calls[c].stage, i, id) && !s.calls[c].stage.Inserting?
    requires id in s.steps && Tracked(s, id)
    ensures id in ApplyAct(s, c, i).steps && Tracked(ApplyAct(s, c, i), id)
  {
    var s2 := ApplyAct(s, c, i);
    hide Inv, CanAct, ApplyAct, Touches, Poised, Moved, TrackedRow, TrackedCall, OthersStay, Extends, SameEntered;
    Acts(s, c, i);
    ActMoves(s, b, c, i, id);
    ActOthersStay(s, c, i);
    ActExtends(s, c, i);
    if !s.calls[c].stage.Calling? {
      ActNotes(s, b, c, i, id);
    }
    RowTracked(s, s2, c, i, id);
    CallTracked(s, s2, c, i, id);
    forall d | d in s2.calls && d != c
      ensures TrackedCall(s2, d, id)
    {
      OtherTracked(s, b, s2, c, i, d, id);
    }
  }

  /** Whatever happens, the job of a waiting step says whether its handler has been entered. */
  lemma EventTracked(s: State, b: Book, e: Event, id: StepId)
    requires Inv(s, b) && Enabled(s, e) && id in Apply(s, e).steps && (id in s.steps ==> Tracked(s, id))
    ensures Tracked(Apply(s, e), id)
  {
    hide Inv, Tracked, ApplyAct, Touches, CanAct, SameEntered, SameTables, SameCalls;
    if e.Act? {
      Acts(s, e.call, e.input);
    }
    if EventTouches(s, e, id) {
      if e.Retry? {
        RetryTracked(s, b, e.call, id);
      } else if s.calls[e.call].stage.Inserting? {
        InsertedIsNew(s, e.call, e.input, id);
        InsertTracked(s, b, e.call, e.input, id);
      } else {
        Poise(s, b, e.call, e.input, id);
        TouchTracked(s, b, e.call, e.input, id);
      }
    } else {
      EventLeaves(s, b, e, id);
      assert id in s.steps by { LeftInPlace(s, Apply(s, e), id); }
      if e.Act? && s.calls[e.call].stage.Calling? {
        CallingTouches(s.calls[e.call].stage, e.input);
      }
      EventNotes(s, b, e, id);
      LeavesTracked(s, b, Apply(s, e), id);
    }
  }

  lemma CallingTouches(stage: Stage, i: Input)
    requires stage.Calling?
    ensures Touches(stage, i, stage.stepId)
  {
  }

  lemma LeftInPlace(s: State, s2: State, id: StepId)
    requires Leaves(s, s2, id) && id in s2.steps
    ensures id in s.steps
  {
  }

  lemma InsertedIsNew(s: State, c: CallId, i: Input, id: StepId)
    requires CanAct(s, c, i) && s.calls[c].stage.Inserting? && Touches(s.calls[c].stage, i, id)
    ensures id !in s.steps
  {
  }

  lemma {:induction false} TrackedRun(es: seq<Event>, id: StepId)
    requires Legal(EMPTY, es) && id in Exec(EMPTY, es).steps
    ensures Tracked(Exec(EMPTY, es), id)
  {
    hide Enabled, Apply, Tracked;
    if es != [] {
      var before := es[..|es| - 1];
      var b := KeepRun(before);
      hide Inv;
      if id in Exec(EMPTY, before).steps {
        TrackedRun(before, id);
      }
      EventTracked(Exec(EMPTY, before), b, es[|es| - 1], id);
    }
  }
}
