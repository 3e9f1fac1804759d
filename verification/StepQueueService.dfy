/**
 * `StepQueueService` as a class over the tables and the queue.
 *
 * Every method follows the source statement by statement.  Between two statements it awaits, and
 * `Await` lets other calls take any actions they are able to take; `others(n)` is what they try during
 * the n-th wait.  Each method is proved to be a run of the transition system, whatever the others do.
 */
module StepQueueServices {
  import opened Wrappers
  import opened StepQueueModel
  import opened StepQueueTally
  import opened StepQueueInvariant
  import opened StepQueueSafety
  import opened StepQueueRuns
  import opened StepQueueReach

  method Fresh(used: set<nat>) returns (id: nat)
    ensures id !in used
  {
    id := 0;
    var rest := used;
    while rest != {}
      invariant rest <= used
      invariant forall x :: x in used && x !in rest ==> x < id
    {
      var x :| x in rest;
      rest := rest - {x};
      if id <= x {
        id := x + 1;
      }
    }
  }

  lemma {:induction false} LeastExists(steps: map<StepId, Step>, keys: set<StepId>) returns (x: StepId)
    requires keys != {} && keys <= steps.Keys
    ensures x in keys && forall y :: y in keys ==> steps[x].stepNumber <= steps[y].stepNumber
  {
    x :| x in keys;
    if keys != {x} {
      assert keys - {x} != {} by {
        assert exists y :: y in keys && y != x;
      }
      var y := LeastExists(steps, keys - {x});
      if steps[y].stepNumber < steps[x].stepNumber {
        x := y;
      }
    }
  }

  /** `ids` are the first steps of sequence `w`, of the given kinds and numbered in order. */
  predicate AreSteps(steps: map<StepId, Step>, ids: seq<StepId>, kinds: seq<StepType>, w: SequenceId)
  {
    |ids| <= |kinds| && forall n :: 0 <= n < |ids| ==> IsStep(steps, ids[n], kinds[n], n + 1, w)
  }

  lemma StayingSteps(s: State, s2: State, ids: seq<StepId>, kinds: seq<StepType>, w: SequenceId)
    requires Extends(s, s2) && AreSteps(s.steps, ids, kinds, w)
    ensures AreSteps(s2.steps, ids, kinds, w)
  {
    forall n | 0 <= n < |ids|
      ensures IsStep(s2.steps, ids[n], kinds[n], n + 1, w)
    {
      assert IsStep(s.steps, ids[n], kinds[n], n + 1, w);
      assert SameStep(s.steps[ids[n]], s2.steps[ids[n]]);
    }
  }

  /** The row at `k` is PENDING, and no row before it is PENDING or FAILED. */
  predicate FirstPending(steps: map<StepId, Step>, rows: seq<StepId>, k: nat)
    requires k < |rows| && forall x :: x in rows ==> x in steps
  {
    && steps[rows[k]].status == Pending
    && forall j :: 0 <= j < k ==> steps[rows[j]].status != Pending && steps[rows[j]].status != Failed
  }

  /** The row at `k` is PROCESSING, and no row before it is. */
  predicate FirstProcessing(steps: map<StepId, Step>, rows: seq<StepId>, k: nat)
    requires k < |rows| && Known(steps, rows)
  {
    steps[rows[k]].status == Processing && forall j :: 0 <= j < k ==> steps[rows[j]].status != Processing
  }

  datatype StepReport = StepReport(
    id: StepId, stepNumber: nat, kind: StepType, status: Status, jobId: Option<JobId>, jobStatus: Option<Status>)

  /** The line of a status report about step `id`, with the status of the job it names. */
  predicate Reports(s: State, id: StepId, line: StepReport)
  {
    && id in s.steps && line.id == id
    && Step(line.kind, line.status, line.stepNumber, line.jobId, s.steps[id].workerId) == s.steps[id]
    && (line.jobStatus.Some? <==> line.jobId.Some? && line.jobId.value in s.jobs)
    && (line.jobStatus.Some? ==> line.jobStatus.value == s.jobs[line.jobId.value].status)
  }

  class StepQueueService {
    var stepHandlers: set<StepType>
    var steps: map<StepId, Step>
    var jobs: map<JobId, Job>
    var stepQueue: multiset<Message>
    var calls: map<CallId, Call>
    var created: set<SequenceId>
    var log: seq<Entry>

    function State(): State
      reads this
    {
      StepQueueModel.State(stepHandlers, steps, jobs, stepQueue, calls, created, log)
    }

    constructor ()
      ensures State() == EMPTY && Reachable(State())
    {
      stepHandlers, steps, jobs, stepQueue, calls, created, log := {}, map[], map[], multiset{}, map[], {}, [];
      new;
      RanNowhere(EMPTY);
    }

    method RegisterStepHandler(kind: StepType)
      requires Reachable(State())
      modifies this
      ensures State() == Apply(old(State()), Register(kind)) && Reachable(State())
    {
      RanOn(EMPTY, State(), Register(kind));
      stepHandlers := stepHandlers + {kind};
    }

    method Become(s: State)
      modifies this
      ensures State() == s
    {
      stepHandlers, steps, jobs, stepQueue := s.handlers, s.steps, s.jobs, s.queue;
      calls, created, log := s.calls, s.created, s.log;
    }

    /** The state was reached from `from`, itself reachable, by some run. */
    ghost predicate Live(from: State)
      reads this
    {
      Reachable(State()) && Ran(from, State())
    }

    /** Other calls act while `c` waits for the database, the queue or a handler. */
    method Await(c: CallId, others: seq<Event>, ghost from: State)
      requires Live(from) && c in calls
      modifies this
      ensures Live(from) && c in calls && calls[c] == old(calls[c])
      ensures Extends(old(State()), State())
    {
      for n := 0 to |others|
        invariant Live(from) && c in calls && calls[c] == old(calls[c])
        invariant Extends(old(State()), State())
      {
        var s, e := State(), others[n];
        if Enabled(s, e) && Actor(e) != Some(c) {
          ApplyExtends(s, e);
          RanOn(EMPTY, s, e);
          RanOn(from, s, e);
          OthersLeaveCall(s, e, c);
          Become(Apply(s, e));
        }
      }
    }

    /** Proof step: the statement just executed was an action of `c`. */
    lemma Acted(s: State, i: Input, c: CallId, from: State)
      requires Reachable(s) && Ran(from, s) && CanAct(s, c, i) && State() == ApplyAct(s, c, i)
      ensures Live(from)
    {
      RanOn(EMPTY, s, Act(c, i));
      RanOn(from, s, Act(c, i));
    }

    /** `findMany` with `orderBy: { stepNumber: 'asc' }`. */
    method FindMany(keys: set<StepId>) returns (rows: seq<StepId>)
      requires keys <= steps.Keys
      ensures IsOrdered(steps, keys, rows)
    {
      rows := [];
      var rest := keys;
      while rest != {}
        invariant rest <= keys
        invariant forall x :: x in keys <==> x in rest || x in rows
        invariant forall x :: x in rows ==> x in keys && x !in rest
        invariant forall i, j :: 0 <= i < j < |rows| ==> rows[i] != rows[j]
        invariant forall i, j :: 0 <= i < j < |rows| ==> steps[rows[i]].stepNumber <= steps[rows[j]].stepNumber
        invariant forall i, y :: 0 <= i < |rows| && y in rest ==> steps[rows[i]].stepNumber <= steps[y].stepNumber
      {
        ghost var least := LeastExists(steps, rest);
        var x :| x in rest && forall y :: y in rest ==> steps[x].stepNumber <= steps[y].stepNumber;
        rest := rest - {x};
        rows := rows + [x];
      }
    }

    /** The first PENDING step in order; a FAILED step before it stops the search. */
    method FindNextPendingStep(stepIds: seq<StepId>) returns (next: Option<StepId>, rows: seq<StepId>)
      ensures IsOrdered(steps, Among(steps, stepIds), rows)
      ensures forall x :: x in rows ==> x in steps
      ensures next == NextPending(steps, rows)
      ensures next.Some? <==> exists k :: 0 <= k < |rows| && FirstPending(steps, rows, k)
      ensures next.Some? ==> exists k :: 0 <= k < |rows| && FirstPending(steps, rows, k) && next.value == rows[k]
    {
      rows := FindMany(Among(steps, stepIds));
      hide IsOrdered;
      for n := 0 to |rows|
        invariant NextPending(steps, rows) == NextPending(steps, rows[n..])
        invariant forall k :: 0 <= k < n ==> steps[rows[k]].status != Pending && steps[rows[k]].status != Failed
      {
        if steps[rows[n]].status == Pending {
          assert FirstPending(steps, rows, n);
          return Some(rows[n]), rows;
        }
        if steps[rows[n]].status == Failed {
          return None, rows;
        }
      }
      next := None;
    }

    // -------------------------------------------------------------- single statements, each with its wait

    method UpdateJobStatus(id: JobId, status: Status, now: nat)
      requires id in jobs
      modifies this`jobs
      ensures jobs == old(jobs)[id := old(jobs)[id].(status := status,
                                                     completedAt := if status == Completed then Some(now) else None)]
    {
      jobs := jobs[id := jobs[id].(status := status, completedAt := if status == Completed then Some(now) else None)];
    }

    method SetStepStatus(id: StepId, status: Status)
      requires id in steps
      modifies this`steps
      ensures steps == old(steps)[id := old(steps)[id].(status := status)]
    {
      steps := steps[id := steps[id].(status := status)];
    }

    method Record(id: StepId, deed: Deed)
      requires id in steps
      modifies this`log
      ensures log == old(log) + [Entry(steps[id].workerId, steps[id].stepNumber, deed)]
    {
      log := log + [Entry(steps[id].workerId, steps[id].stepNumber, deed)];
    }

    method Proceed(c: CallId, stage: Stage)
      requires c in calls
      modifies this`calls
      ensures calls == old(calls)[c := old(calls)[c].(stage := stage)]
    {
      calls := calls[c := calls[c].(stage := stage)];
    }

    method MarkStepProcessing(c: CallId, id: StepId, ids: seq<StepId>, others: seq<Event>, ghost from: State)
      requires Live(from) && c in calls && calls[c].stage == Starting(id, ids)
      requires id in steps && steps[id].kind in stepHandlers
      modifies this
      ensures Live(from)
      ensures c in calls && calls[c].stage == Fetching(id, ids)
    {
      ghost var s := State();
      ghost var i := Able(s, c);
      SetStepStatus(id, Processing);
      Proceed(c, Fetching(id, ids));
      Acted(s, i, c, from);
      Await(c, others, from);
    }

    /** The branch of executeStep without a handler. */
    method RejectStep(c: CallId, id: StepId, ids: seq<StepId>, ghost from: State)
      requires Live(from) && c in calls && calls[c].stage == Starting(id, ids)
      requires id in steps && steps[id].kind !in stepHandlers
      modifies this
      ensures Live(from) && c !in calls
      ensures Recorded(old(State()), State(), id, Rejected)
    {
      ghost var s := State();
      ghost var i := Able(s, c);
      SetStepStatus(id, Failed);
      Record(id, Rejected);
      calls := calls - {c};
      Acted(s, i, c, from);
      assert log[|s.log|] == Entry(s.steps[id].workerId, s.steps[id].stepNumber, Rejected);
    }

    method FindJobForStep(c: CallId, id: StepId, ids: seq<StepId>, others: seq<Event>, ghost from: State)
      returns (job: Option<JobId>)
      requires Live(from) && c in calls && calls[c].stage == Fetching(id, ids)
      modifies this
      ensures Live(from)
      ensures c in calls && job.Some? && calls[c].stage == Claiming(id, ids, job.value)
    {
      ghost var s := State();
      ghost var i := Able(s, c);
      JobAtHand(s, c, id, ids);
      job := steps[id].jobId;
      Proceed(c, if job.None? then Failing(id, ids) else Claiming(id, ids, job.value));
      Acted(s, i, c, from);
      Await(c, others, from);
    }

    method ClaimJob(c: CallId, id: StepId, ids: seq<StepId>, job: JobId, now: nat, others: seq<Event>, ghost from: State)
      requires Live(from) && c in calls && calls[c].stage == Claiming(id, ids, job)
      modifies this
      ensures Live(from)
      ensures c in calls && calls[c].stage == Calling(id, ids, job)
    {
      ghost var s := State();
      ghost var i := Able(s, c);
      i := i.(now := now);
      UpdateJobStatus(job, Processing, now);
      Proceed(c, Calling(id, ids, job));
      Acted(s, i, c, from);
      Await(c, others, from);
    }

    /** The handler runs while others act; it returns or throws as `ok` says. */
    method ExecuteHandler(c: CallId, id: StepId, ids: seq<StepId>, job: JobId, ok: bool, others: seq<Event>, ghost from: State)
      requires Live(from) && c in calls && calls[c].stage == Calling(id, ids, job)
      modifies this
      ensures Live(from)
      ensures c in calls && calls[c].stage == if ok then Finishing(id, ids, job) else Failing(id, ids)
      ensures id in old(steps) ==> Recorded(old(State()), State(), id, if ok then Returned else Threw)
    {
      ghost var before := State();
      RanNowhere(before);
      EnterHandler(c, id, ids, job, others, before);
      ghost var entered := State();
      RanThrough(from, before, entered);
      LeaveHandler(c, id, ids, job, ok, from);
      if id in before.steps {
        RecordedEarlier(before, entered, State(), id, if ok then Returned else Threw);
      }
    }

    method LeaveHandler(c: CallId, id: StepId, ids: seq<StepId>, job: JobId, ok: bool, ghost from: State)
      requires Live(from) && c in calls && calls[c].stage == Running(id, ids, job)
      modifies this
      ensures Live(from)
      ensures c in calls && calls[c].stage == if ok then Finishing(id, ids, job) else Failing(id, ids)
      ensures Recorded(old(State()), State(), id, if ok then Returned else Threw)
    {
      ghost var s := State();
      ghost var i := Able(s, c);
      i := i.(ok := ok);
      Record(id, if ok then Returned else Threw);
      Proceed(c, if ok then Finishing(id, ids, job) else Failing(id, ids));
      Acted(s, i, c, from);
      assert log[|s.log|] == Entry(s.steps[id].workerId, s.steps[id].stepNumber, if ok then Returned else Threw);
    }

    method EnterHandler(c: CallId, id: StepId, ids: seq<StepId>, job: JobId, others: seq<Event>, ghost from: State)
      requires Live(from) && c in calls && calls[c].stage == Calling(id, ids, job)
      modifies this
      ensures Live(from)
      ensures c in calls && calls[c].stage == Running(id, ids, job)
    {
      ghost var s := State();
      ghost var i := Able(s, c);
      Record(id, Entered(IndexOf(ids, id) + 1, |ids|));
      Proceed(c, Running(id, ids, job));
      Acted(s, i, c, from);
      Await(c, others, from);
    }

    method MarkStepCompleted(c: CallId, id: StepId, ids: seq<StepId>, job: JobId, others: seq<Event>, ghost from: State)
      requires Live(from) && c in calls && calls[c].stage == Finishing(id, ids, job)
      modifies this
      ensures Live(from)
      ensures c in calls && calls[c].stage == Closing(id, ids, job)
    {
      ghost var s := State();
      ghost var i := Able(s, c);
      SetStepStatus(id, Completed);
      Proceed(c, Closing(id, ids, job));
      Acted(s, i, c, from);
      Await(c, others, from);
    }

    method CloseJob(c: CallId, id: StepId, ids: seq<StepId>, job: JobId, now: nat, others: seq<Event>, ghost from: State)
      requires Live(from) && c in calls && calls[c].stage == Closing(id, ids, job)
      modifies this
      ensures Live(from)
      ensures c in calls && calls[c].stage == Advancing(Some(id), ids)
    {
      ghost var s := State();
      ghost var i := Able(s, c);
      i := i.(now := now);
      UpdateJobStatus(job, Completed, now);
      Proceed(c, Advancing(Some(id), ids));
      Acted(s, i, c, from);
      Await(c, others, from);
    }

    method CreateJob(c: CallId, owner: Option<StepId>, ids: seq<StepId>, next: StepId, others: seq<Event>, ghost from: State)
      returns (job: JobId)
      requires Live(from) && c in calls && calls[c].stage == Drafting(owner, ids, next)
      modifies this
      ensures Live(from)
      ensures c in calls && calls[c] == Call(old(calls)[c].workerId, Linking(owner, ids, next, job))
    {
      ghost var s := State();
      ghost var i := Able(s, c);
      job := Fresh(jobs.Keys);
      i := i.(id := job);
      jobs := jobs[job := Job(Pending, next, ids, None)];
      Proceed(c, Linking(owner, ids, next, job));
      Acted(s, i, c, from);
      Await(c, others, from);
    }

    method LinkJob(c: CallId, owner: Option<StepId>, ids: seq<StepId>, next: StepId, job: JobId, others: seq<Event>, ghost from: State)
      requires Live(from) && c in calls && calls[c].stage == Linking(owner, ids, next, job)
      modifies this
      ensures Live(from)
      ensures c in calls && calls[c] == Call(old(calls)[c].workerId, Sending(owner, ids, next, job))
    {
      ghost var s := State();
      ghost var i := Able(s, c);
      steps := steps[next := steps[next].(jobId := Some(job))];
      Proceed(c, Sending(owner, ids, next, job));
      Acted(s, i, c, from);
      Await(c, others, from);
    }

    /** `stepQueue.add`, which throws when `accepted` is false. */
    method QueueJobInBull(c: CallId, owner: Option<StepId>, ids: seq<StepId>, next: StepId, job: JobId, accepted: bool,
                          ghost from: State)
      requires Live(from) && c in calls && calls[c].stage == Sending(owner, ids, next, job)
      modifies this
      ensures Live(from)
      ensures if accepted || owner.None? then c !in calls
              else c in calls && calls[c].stage == Failing(owner.value, ids)
      ensures !accepted && owner.None? ==> StartRefused(State(), old(calls)[c].workerId)
      ensures accepted ==> Message(job, next, ids) in stepQueue
      ensures !accepted && owner.Some? ==> Recorded(old(State()), State(), owner.value, Refused)
    {
      ghost var s := State();
      ghost var i := Able(s, c);
      i := i.(ok := accepted);
      if accepted {
        stepQueue := stepQueue + multiset{Message(job, next, ids)};
        calls := calls - {c};
      } else if owner.None? {
        FirstOfSequence(s, c, ids, next, job);
        Record(next, Stalled);
        calls := calls - {c};
        assert log[|s.log|] == Entry(s.calls[c].workerId, 1, Stalled);
      } else {
        Record(owner.value, Refused);
        Proceed(c, Failing(owner.value, ids));
        assert log[|s.log|] == Entry(s.steps[owner.value].workerId, s.steps[owner.value].stepNumber, Refused);
      }
      Acted(s, i, c, from);
    }

    method MarkStepFailed(c: CallId, id: StepId, ids: seq<StepId>, others: seq<Event>, ghost from: State)
      requires Live(from) && c in calls && calls[c].stage == Failing(id, ids)
      modifies this
      ensures Live(from)
      ensures c in calls && calls[c].stage == Tracing(id)
    {
      ghost var s := State();
      ghost var i := Able(s, c);
      SetStepStatus(id, Failed);
      Proceed(c, Tracing(id));
      Acted(s, i, c, from);
      Await(c, others, from);
    }

    // -------------------------------------------------------------- the service's methods

    /**
     * Creates and queues the job of the next pending step.  False means it threw; a throw with no owner
     * ends the call, any other leaves it to the catch block of executeStep.
     */
    method CreateAndQueueNextJob(c: CallId, owner: Option<StepId>, ids: seq<StepId>, accepted: bool,
                                 others: nat -> seq<Event>, ghost from: State)
      returns (ok: bool)
      requires Live(from) && c in calls && calls[c].stage == Advancing(owner, ids)
      modifies this
      ensures Live(from)
      ensures if ok || owner.None? then c !in calls else c in calls && calls[c].stage == Failing(owner.value, ids)
      ensures owner.None? ==>
        && (ok <==> accepted)
        && if ok then Queued(State(), ids, 0) else StartRefused(State(), old(calls)[c].workerId)
      ensures owner.Some? ==>
        && owner.value in old(steps)
        && (ok <==> accepted || old(steps)[owner.value].stepNumber == |ids|)
        && Advanced(old(State()), State(), owner.value, ids, accepted)
    {
      var next, rows := FindNextPendingStep(ids);
      ghost var s := State();
      ghost var i := Input(true, 0, 0, rows);
      NextOf(s, c, owner, ids, rows);
      if next.None? {
        calls := calls - {c};
        Acted(s, i, c, from);
        return true;
      }
      Proceed(c, Drafting(owner, ids, next.value));
      ghost var drafted := State();
      Acted(s, i, c, from);
      ActExtends(s, c, i);
      QueueStep(c, owner, ids, next.value, accepted, others, from);
      ok := accepted;
      if !ok && owner.Some? {
        RecordedSince(s, drafted, State(), owner.value, Refused);
      }
    }

    /** The job of the step chosen is created, linked and queued. */
    method QueueStep(c: CallId, owner: Option<StepId>, ids: seq<StepId>, next: StepId, accepted: bool,
                     others: nat -> seq<Event>, ghost from: State)
      requires Live(from) && c in calls && calls[c].stage == Drafting(owner, ids, next)
      modifies this
      ensures Live(from)
      ensures if accepted || owner.None? then c !in calls
              else c in calls && calls[c].stage == Failing(owner.value, ids)
      ensures !accepted && owner.None? ==> StartRefused(State(), old(calls)[c].workerId)
      ensures accepted ==> exists job :: Message(job, next, ids) in stepQueue
      ensures !accepted && owner.Some? && owner.value in old(steps) ==> Recorded(old(State()), State(), owner.value, Refused)
    {
      ghost var before := State();
      RanNowhere(before);
      Await(c, others(0), before);
      var job := CreateJob(c, owner, ids, next, others(1), before);
      LinkJob(c, owner, ids, next, job, others(2), before);
      ghost var linked := State();
      QueueJobInBull(c, owner, ids, next, job, accepted, before);
      RanThrough(from, before, State());
      if !accepted && owner.Some? && owner.value in before.steps {
        RecordedEarlier(before, linked, State(), owner.value, Refused);
      }
    }

    /** The try block of executeStep; false means it threw. */
    method TryStep(c: CallId, id: StepId, ids: seq<StepId>, handled: bool, accepted: bool, now: nat,
                   others: nat -> seq<Event>, ghost from: State)
      returns (ok: bool)
      requires Live(from) && c in calls && calls[c].stage == Starting(id, ids)
      requires id in steps && steps[id].kind in stepHandlers
      modifies this
      ensures Live(from)
      ensures if ok then c !in calls else c in calls && calls[c].stage == Failing(id, ids)
      ensures ok <==> handled && (accepted || old(steps)[id].stepNumber == |ids|)
      ensures Executed(old(State()), State(), id, ids, handled, accepted)
      ensures Recorded(old(State()), State(), id, if handled then Returned else Threw)
    {
      ghost var before := State();
      RanNowhere(before);
      var job := CallHandler(c, id, ids, handled, now, others, before);
      ghost var left := State();
      RanThrough(from, before, left);
      if !handled {
        return false;
      }
      RanNowhere(left);
      StillThere(before, left, id);
      ok := Conclude(c, id, ids, job, accepted, now, (n: nat) => others(n + 4), left);
      RanThrough(from, left, State());
      StaysRecorded(before, left, State(), id, Returned);
      AdvancedEarlier(before, left, State(), id, ids, accepted);
    }

    /** Up to the return or throw of the handler; the job is always found, so the throw for a missing one is not reached. */
    method CallHandler(c: CallId, id: StepId, ids: seq<StepId>, handled: bool, now: nat, others: nat -> seq<Event>,
                       ghost from: State)
      returns (job: JobId)
      requires Live(from) && c in calls && calls[c].stage == Starting(id, ids)
      requires id in steps && steps[id].kind in stepHandlers
      modifies this
      ensures Live(from) && c in calls
      ensures calls[c].stage == if handled then Finishing(id, ids, job) else Failing(id, ids)
      ensures Recorded(old(State()), State(), id, if handled then Returned else Threw)
    {
      ghost var before := State();
      RanNowhere(before);
      MarkStepProcessing(c, id, ids, others(0), before);
      var found := FindJobForStep(c, id, ids, others(1), before);
      job := found.value;
      ClaimJob(c, id, ids, job, now, others(2), before);
      ghost var called := State();
      StillThere(before, called, id);
      ExecuteHandler(c, id, ids, job, handled, others(3), before);
      RecordedEarlier(before, called, State(), id, if handled then Returned else Threw);
      RanThrough(from, before, State());
    }

    /** After the handler has returned: the step and its job are completed, and the next step is queued. */
    method Conclude(c: CallId, id: StepId, ids: seq<StepId>, job: JobId, accepted: bool, now: nat,
                    others: nat -> seq<Event>, ghost from: State)
      returns (ok: bool)
      requires Live(from) && c in calls && calls[c].stage == Finishing(id, ids, job) && id in steps
      modifies this
      ensures Live(from)
      ensures if ok then c !in calls else c in calls && calls[c].stage == Failing(id, ids)
      ensures ok <==> accepted || old(steps)[id].stepNumber == |ids|
      ensures Advanced(old(State()), State(), id, ids, accepted)
    {
      ghost var before := State();
      RanNowhere(before);
      MarkStepCompleted(c, id, ids, job, others(0), before);
      CloseJob(c, id, ids, job, now, others(1), before);
      ghost var closed := State();
      RanExtends(before, closed);
      assert SameStep(before.steps[id], closed.steps[id]);
      RanThrough(from, before, closed);
      ok := CreateAndQueueNextJob(c, Some(id), ids, accepted, (n: nat) => others(n + 2), from);
      AdvancedEarlier(before, closed, State(), id, ids, accepted);
    }

    /** The catch block of executeStep. */
    method SettleFailure(c: CallId, id: StepId, ids: seq<StepId>, now: nat, others: nat -> seq<Event>, ghost from: State)
      requires Live(from) && c in calls && calls[c].stage == Failing(id, ids)
      modifies this
      ensures Live(from) && c !in calls
    {
      MarkStepFailed(c, id, ids, others(0), from);
      ghost var s := State();
      ghost var i := Able(s, c);
      var job := steps[id].jobId;
      if job.None? {
        calls := calls - {c};
        Acted(s, i, c, from);
        return;
      }
      Proceed(c, Voiding(id, job.value));
      Acted(s, i, c, from);
      Await(c, others(1), from);
      FailJob(c, id, job.value, now, from);
    }

    method FailJob(c: CallId, id: StepId, job: JobId, now: nat, ghost from: State)
      requires Live(from) && c in calls && calls[c].stage == Voiding(id, job)
      modifies this
      ensures Live(from) && c !in calls
      ensures job in jobs && jobs[job].status == Failed && jobs[job].completedAt == None
    {
      ghost var s := State();
      ghost var i := Able(s, c);
      i := i.(now := now);
      UpdateJobStatus(job, Failed, now);
      calls := calls - {c};
      Acted(s, i, c, from);
    }

    method ExecuteStep(c: CallId, id: StepId, ids: seq<StepId>, handled: bool, accepted: bool, now: nat,
                       others: nat -> seq<Event>, ghost from: State)
      requires Live(from) && c in calls && calls[c].stage == Starting(id, ids)
      modifies this
      ensures Live(from) && c !in calls
      ensures Executed(old(State()), State(), id, ids, handled, accepted)
      ensures Recorded(old(State()), State(), id,
                       if old(steps)[id].kind !in old(stepHandlers) then Rejected else if handled then Returned else Threw)
    {
      ghost var i := Able(State(), c);
      if steps[id].kind !in stepHandlers {
        RejectStep(c, id, ids, from);
        return;
      }
      ghost var before := State();
      var ok := TryStep(c, id, ids, handled, accepted, now, others, from);
      if !ok {
        ghost var failed := State();
        RanNowhere(failed);
        SettleFailure(c, id, ids, now, (n: nat) => others(n + 9), failed);
        RanThrough(from, failed, State());
        StaysRecorded(before, failed, State(), id, if handled then Returned else Threw);
        ExecutedStays(before, failed, State(), id, ids, handled, accepted);
      }
    }

    /** The Bull processor: takes a message off the queue and executes its step. */
    method ProcessStepJob(c: CallId, m: Message, handled: bool, accepted: bool, now: nat, others: nat -> seq<Event>)
      requires Reachable(State()) && c !in calls && m in stepQueue && m.stepId in steps
      modifies this
      ensures Reachable(State()) && Ran(old(State()), State()) && c !in calls
      ensures old(log) + [Entry(old(steps)[m.stepId].workerId, old(steps)[m.stepId].stepNumber, Delivered)] <= log
      ensures Executed(old(State()), State(), m.stepId, m.stepIds, handled, accepted)
    {
      ghost var before := State();
      RanNowhere(before);
      RanOn(EMPTY, before, Deliver(c, m));
      RanOn(before, before, Deliver(c, m));
      stepQueue := stepQueue - multiset{m};
      calls := calls[c := Call(steps[m.stepId].workerId, Loading(m))];
      Record(m.stepId, Delivered);
      ghost var begun := State();
      RanNowhere(begun);
      LoadStep(c, m, handled, accepted, now, others, begun);
      RanThrough(before, begun, State());
      RanExtends(begun, State());
      ExecutedEarlier(before, begun, State(), m.stepId, m.stepIds, handled, accepted);
    }

    method LoadStep(c: CallId, m: Message, handled: bool, accepted: bool, now: nat, others: nat -> seq<Event>,
                    ghost from: State)
      requires Live(from) && c in calls && calls[c].stage == Loading(m)
      modifies this
      ensures Live(from) && c !in calls
      ensures m.stepId in old(steps) ==> Executed(old(State()), State(), m.stepId, m.stepIds, handled, accepted)
    {
      ghost var before := State();
      RanNowhere(before);
      Await(c, others(0), before);
      ghost var s := State();
      ghost var i := Able(s, c);
      Proceed(c, Starting(m.stepId, m.stepIds));
      Acted(s, i, c, before);
      ghost var started := State();
      RanThrough(from, before, started);
      ExecuteStep(c, m.stepId, m.stepIds, handled, accepted, now, (n: nat) => others(n + 1), from);
      if m.stepId in before.steps {
        ExecutedEarlier(before, started, State(), m.stepId, m.stepIds, handled, accepted);
      }
    }

    /** Retries a FAILED step; any other step, or none, is an error and changes nothing. */
    method RetryStep(c: CallId, id: StepId, handled: bool, accepted: bool, now: nat, others: nat -> seq<Event>)
      returns (result: Result<string, string>, ghost ids: seq<StepId>)
      requires Reachable(State()) && c !in calls
      modifies this
      ensures Reachable(State()) && Ran(old(State()), State()) && c !in calls
      ensures result.Ok? <==> id in old(steps) && old(steps)[id].status == Failed
      ensures result.Ok? ==> old(log) + [Entry(old(steps)[id].workerId, old(steps)[id].stepNumber, Retried)] <= log
      ensures result.Ok? ==> Executed(old(State()), State(), id, ids, handled, accepted)
      ensures result.Ok? ==> Whole(old(State()), State(), ids, old(steps)[id].workerId)
      ensures result.Err? ==> State() == old(State())
    {
      ghost var before := State();
      RanNowhere(before);
      if id !in steps {
        return Err("not found"), [];
      }
      if steps[id].status != Failed {
        return Err("not in failed status"), [];
      }
      RanOn(EMPTY, before, Retry(c, id));
      RanOn(before, before, Retry(c, id));
      calls := calls[c := Call(steps[id].workerId, Listing(id))];
      SetStepStatus(id, Pending);
      Record(id, Retried);
      ghost var begun := State();
      RanNowhere(begun);
      ids := ResumeSequence(c, id, handled, accepted, now, others, begun);
      RanThrough(before, begun, State());
      RanExtends(begun, State());
      RanExtends(before, begun);
      WholeSince(before, begun, State(), ids, before.steps[id].workerId);
      ExecutedEarlier(before, begun, State(), id, ids, handled, accepted);
      result := Ok("Step retry initiated");
    }

    /** The rest of retryStep: lists the whole sequence in order and processes its next pending step. */
    method ResumeSequence(c: CallId, id: StepId, handled: bool, accepted: bool, now: nat, others: nat -> seq<Event>,
                          ghost from: State)
      returns (ghost ids: seq<StepId>)
      requires Live(from) && c in calls && calls[c].stage == Listing(id)
      modifies this
      ensures Live(from) && c !in calls
      ensures id in old(steps) ==> Executed(old(State()), State(), id, ids, handled, accepted)
      ensures Whole(old(State()), State(), ids, old(calls)[c].workerId)
    {
      ghost var before := State();
      RanNowhere(before);
      Await(c, others(0), before);
      ghost var s := State();
      CallsCreated(s, c);
      var rows := FindMany(StepsOf(steps, calls[c].workerId));
      RanExtends(before, s);
      ListingIsWhole(before, s, rows, calls[c].workerId);
      Proceed(c, Selecting(id, rows));
      Acted(s, Input(true, 0, 0, rows), c, before);
      ghost var listed := State();
      RanThrough(from, before, listed);
      ids := rows;
      RanNowhere(listed);
      ProcessNextStep(c, id, rows, handled, accepted, now, (n: nat) => others(n + 1), listed);
      RanThrough(from, listed, State());
      RanExtends(listed, State());
      StaysWhole(before, listed, State(), rows, before.calls[c].workerId);
      if id in before.steps {
        RanExtends(before, listed);
        ExecutedEarlier(before, listed, State(), id, ids, handled, accepted);
      }
    }

    /** Executes the next pending step of the sequence, which is the step retried. */
    method ProcessNextStep(c: CallId, id: StepId, ids: seq<StepId>, handled: bool, accepted: bool, now: nat,
                           others: nat -> seq<Event>, ghost from: State)
      requires Live(from) && c in calls && calls[c].stage == Selecting(id, ids)
      modifies this
      ensures Live(from) && c !in calls
      ensures id in old(steps) ==> Executed(old(State()), State(), id, ids, handled, accepted)
    {
      ghost var before := State();
      RanNowhere(before);
      Await(c, others(0), before);
      ghost var s := State();
      var next, rows := FindNextPendingStep(ids);
      SelectsRetried(s, c, id, ids, rows);
      if next.Some? {
        Proceed(c, Starting(next.value, ids));
        Acted(s, Input(true, 0, 0, rows), c, before);
        ghost var started := State();
        RanThrough(from, before, started);
        ExecuteStep(c, next.value, ids, handled, accepted, now, (n: nat) => others(n + 1), from);
        if id in before.steps {
          ExecutedEarlier(before, started, State(), id, ids, handled, accepted);
        }
      }
    }

    /** One iteration of the insertion loop. */
    method CreateStep(c: CallId, w: SequenceId, kinds: seq<StepType>, ids: seq<StepId>, others: seq<Event>,
                      ghost from: State)
      returns (id: StepId)
      requires Live(from) && c in calls && calls[c] == Call(w, Inserting(kinds, ids)) && |ids| < |kinds|
      modifies this
      ensures Live(from) && c in calls && calls[c] == Call(w, Inserting(kinds, ids + [id]))
      ensures IsStep(steps, id, kinds[|ids|], |ids| + 1, w)
      ensures Extends(old(State()), State())
    {
      ghost var s := State();
      ghost var i := Able(s, c);
      id := Fresh(steps.Keys);
      steps := steps[id := Step(kinds[|ids|], Pending, |ids| + 1, None, w)];
      Proceed(c, Inserting(kinds, ids + [id]));
      Acted(s, i.(id := id), c, from);
      ActExtends(s, c, i.(id := id));
      Await(c, others, from);
    }

    /** Inserts one PENDING step per type and queues the first; false means the enqueue threw. */
    method CreateStepSequence(c: CallId, w: SequenceId, kinds: seq<StepType>, accepted: bool, others: nat -> seq<Event>)
      returns (stepIds: seq<StepId>, ok: bool)
      requires Reachable(State()) && c !in calls && w !in created
      modifies this
      ensures Reachable(State()) && Ran(old(State()), State()) && c !in calls
      ensures |stepIds| == |kinds| && AreSteps(steps, stepIds, kinds, w)
      ensures ok <==> accepted || kinds == []
      ensures if !ok then StartRefused(State(), w) else kinds == [] || Queued(State(), stepIds, 0)
    {
      ghost var from := State();
      RanNowhere(from);
      RanOn(EMPTY, from, Create(c, w, kinds));
      RanOn(from, from, Create(c, w, kinds));
      created := created + {w};
      calls := calls[c := Call(w, Inserting(kinds, []))];
      stepIds := InsertSteps(c, w, kinds, others, from);
      ghost var inserted := State();
      RanNowhere(inserted);
      ok := StartSequence(c, w, kinds, stepIds, accepted, (n: nat) => others(n + |kinds|), inserted);
      RanThrough(from, inserted, State());
      RanExtends(inserted, State());
      StayingSteps(inserted, State(), stepIds, kinds, w);
    }

    method InsertSteps(c: CallId, w: SequenceId, kinds: seq<StepType>, others: nat -> seq<Event>, ghost from: State)
      returns (stepIds: seq<StepId>)
      requires Live(from) && c in calls && calls[c] == Call(w, Inserting(kinds, []))
      modifies this
      ensures Live(from) && c in calls && calls[c] == Call(w, Inserting(kinds, stepIds))
      ensures |stepIds| == |kinds| && AreSteps(steps, stepIds, kinds, w)
    {
      stepIds := [];
      for n := 0 to |kinds|
        invariant Live(from) && |stepIds| == n && AreSteps(steps, stepIds, kinds, w)
        invariant c in calls && calls[c] == Call(w, Inserting(kinds, stepIds))
      {
        ghost var before := State();
        var id := CreateStep(c, w, kinds, stepIds, others(n), from);
        StayingSteps(before, State(), stepIds, kinds, w);
        stepIds := stepIds + [id];
      }
    }

    method StartSequence(c: CallId, w: SequenceId, kinds: seq<StepType>, ids: seq<StepId>, accepted: bool,
                         others: nat -> seq<Event>, ghost from: State)
      returns (ok: bool)
      requires Live(from) && c in calls && calls[c] == Call(w, Inserting(kinds, ids)) && |ids| == |kinds|
      modifies this
      ensures Live(from) && c !in calls
      ensures ok <==> accepted || kinds == []
      ensures if !ok then StartRefused(State(), w) else kinds == [] || Queued(State(), ids, 0)
    {
      ghost var s := State();
      ghost var i := Able(s, c);
      if ids == [] {
        calls := calls - {c};
        Acted(s, i, c, from);
        return true;
      }
      Proceed(c, Advancing(None, ids));
      Acted(s, i, c, from);
      ok := CreateAndQueueNextJob(c, None, ids, accepted, others, from);
    }

    method ReportLines(rows: seq<StepId>) returns (lines: seq<StepReport>)
      requires Known(steps, rows)
      ensures |lines| == |rows| && forall k :: 0 <= k < |rows| ==> Reports(State(), rows[k], lines[k])
    {
      lines := [];
      for n := 0 to |rows|
        invariant |lines| == n && forall k :: 0 <= k < n ==> Reports(State(), rows[k], lines[k])
      {
        var row := steps[rows[n]];
        var jobStatus := if row.jobId.Some? && row.jobId.value in jobs then Some(jobs[row.jobId.value].status) else None;
        lines := lines + [StepReport(rows[n], row.stepNumber, row.kind, row.status, row.jobId, jobStatus)];
      }
    }

    method CountStatus(rows: seq<StepId>, status: Status) returns (count: nat)
      requires Known(steps, rows)
      ensures count == HowMany(RowsOf(steps, rows), status)
    {
      ghost var table := RowsOf(steps, rows);
      count := 0;
      for n := 0 to |rows|
        invariant count == HowMany(table[..n], status)
      {
        HowManySnoc(table, n);
        if steps[rows[n]].status == status {
          count := count + 1;
        }
      }
      assert table[..|rows|] == table;
    }

    /** The first PROCESSING row, if there is one. */
    method FindProcessing(rows: seq<StepId>) returns (current: Option<StepId>)
      requires Known(steps, rows)
      ensures current.Some? <==> exists k :: 0 <= k < |rows| && FirstProcessing(steps, rows, k)
      ensures current.Some? ==> exists k :: 0 <= k < |rows| && FirstProcessing(steps, rows, k) && current.value == rows[k]
    {
      for n := 0 to |rows|
        invariant forall k :: 0 <= k < n ==> steps[rows[k]].status != Processing
      {
        if steps[rows[n]].status == Processing {
          assert FirstProcessing(steps, rows, n);
          return Some(rows[n]);
        }
      }
      current := None;
    }

    /** The ordered rows of a status report, its counts, its lines, and the first PROCESSING step. */
    method GetSequenceStatus(stepIds: seq<StepId>)
      returns (rows: seq<StepId>, completedSteps: nat, failedSteps: nat, currentStep: Option<StepId>, lines: seq<StepReport>)
      ensures IsOrdered(steps, Among(steps, stepIds), rows) && Known(steps, rows)
      ensures completedSteps == HowMany(RowsOf(steps, rows), Completed)
      ensures failedSteps == HowMany(RowsOf(steps, rows), Failed)
      ensures currentStep.Some? <==> exists k :: 0 <= k < |rows| && FirstProcessing(steps, rows, k)
      ensures currentStep.Some? ==> exists k :: 0 <= k < |rows| && FirstProcessing(steps, rows, k) && currentStep.value == rows[k]
      ensures |lines| == |rows| && forall k :: 0 <= k < |rows| ==> Reports(State(), rows[k], lines[k])
    {
      rows := FindMany(Among(steps, stepIds));
      assert Known(steps, rows);
      hide IsOrdered, Among, HowMany, Reports, FirstProcessing;
      completedSteps := CountStatus(rows, Completed);
      failedSteps := CountStatus(rows, Failed);
      currentStep := FindProcessing(rows);
      lines := ReportLines(rows);
    }
  }
}
