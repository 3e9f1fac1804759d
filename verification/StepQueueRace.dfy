/**
 * Two runs.  A retry that overtakes the last write of the catch block leaves a COMPLETED step with a FAILED job,
 * and a first enqueue that is refused leaves a sequence nobody works on.
 */
module StepQueueRace {
  import opened Wrappers
  import opened StepQueueModel
  import opened StepQueueRuns
  import opened StepQueueReach

  const KIND: StepType := "WEBSITE_LOADING"

  const OTHER: StepType := "OTHER"

  /** One sequence of one step, number 0, whose job is number 0. */
  function Scene(kind: StepType, step: Status, job: Status, at: Option<nat>, calls: map<CallId, Call>, log: seq<Entry>): State
  {
    State({KIND}, map[0 := Step(kind, step, 1, Some(0), 0)], map[0 := Job(job, 0, [0], at)], multiset{}, calls, {0}, log)
  }

  function Creating(steps: map<StepId, Step>, jobs: map<JobId, Job>, stage: Stage): State
  {
    State({KIND}, steps, jobs, multiset{}, map[1 := Call(0, stage)], {0}, [])
  }

  function At(rest: map<CallId, Call>, c: CallId, stage: Stage): map<CallId, Call>
  {
    rest[c := Call(0, stage)]
  }

  /** Call `c` takes its next action, and that leads to `s2`. */
  lemma Then(s: State, c: CallId, ok: bool, s2: State)
    requires var i := Input(ok, 0, 0, [0]); Reachable(s) && CanAct(s, c, i) && ApplyAct(s, c, i) == s2
    ensures Reachable(s2)
  {
    RanOn(EMPTY, s, Act(c, Input(ok, 0, 0, [0])));
  }

  lemma Created(kind: StepType) returns (s: State)
    ensures Reachable(s) && s == Creating(map[], map[], Inserting([kind], []))
  {
    RanNowhere(EMPTY);
    RanOn(EMPTY, EMPTY, Register(KIND));
    var s0 := Apply(EMPTY, Register(KIND));
    RanOn(EMPTY, s0, Create(1, 0, [kind]));
    s := Creating(map[], map[], Inserting([kind], []));
    assert s == Apply(s0, Create(1, 0, [kind]));
  }

  lemma Chosen(kind: StepType) returns (s: State)
    ensures Reachable(s)
    ensures s == Creating(map[0 := Step(kind, Pending, 1, None, 0)], map[], Drafting(None, [0], 0))
  {
    var s0 := Inserted(kind);
    s := Creating(s0.steps, map[], Drafting(None, [0], 0));
    Then(s0, 1, true, s);
  }

  lemma Inserted(kind: StepType) returns (s: State)
    ensures Reachable(s)
    ensures s == Creating(map[0 := Step(kind, Pending, 1, None, 0)], map[], Advancing(None, [0]))
  {
    var s0 := Created(kind);
    assert [] + [0] == [0];
    var s1 := Creating(map[0 := Step(kind, Pending, 1, None, 0)], map[], Inserting([kind], [0]));
    Then(s0, 1, true, s1);
    s := Creating(s1.steps, map[], Advancing(None, [0]));
    Then(s1, 1, true, s);
  }

  lemma Linked(kind: StepType) returns (s: State)
    ensures Reachable(s) && s == Scene(kind, Pending, Pending, None, map[1 := Call(0, Sending(None, [0], 0, 0))], [])
  {
    var s0 := Chosen(kind);
    var s1 := Creating(s0.steps, map[0 := Job(Pending, 0, [0], None)], Linking(None, [0], 0, 0));
    Then(s0, 1, true, s1);
    s := Scene(kind, Pending, Pending, None, map[1 := Call(0, Sending(None, [0], 0, 0))], []);
    Then(s1, 1, true, s);
  }

  const L1: seq<Entry> := [Entry(0, 1, Delivered)]

  /** The step's message is sent and delivered to call 2. */
  lemma Loaded(kind: StepType) returns (s: State)
    ensures Reachable(s) && s == Scene(kind, Pending, Pending, None, At(map[], 2, Starting(0, [0])), L1)
  {
    var s0 := Linked(kind);
    var s1 := Scene(kind, Pending, Pending, None, map[], []).(queue := multiset{Message(0, 0, [0])});
    Then(s0, 1, true, s1);
    RanOn(EMPTY, s1, Deliver(2, Message(0, 0, [0])));
    var s2 := Scene(kind, Pending, Pending, None, At(map[], 2, Loading(Message(0, 0, [0]))), L1);
    assert s2 == Apply(s1, Deliver(2, Message(0, 0, [0])));
    s := Scene(kind, Pending, Pending, None, At(map[], 2, Starting(0, [0])), L1);
    Then(s2, 2, true, s);
  }

  lemma ToClaiming(rest: map<CallId, Call>, c: CallId, job: Status, log: seq<Entry>)
    requires Reachable(Scene(KIND, Pending, job, None, At(rest, c, Starting(0, [0])), log))
    ensures Reachable(Scene(KIND, Processing, job, None, At(rest, c, Claiming(0, [0], 0)), log))
  {
    var s1 := Scene(KIND, Processing, job, None, At(rest, c, Fetching(0, [0])), log);
    Then(Scene(KIND, Pending, job, None, At(rest, c, Starting(0, [0])), log), c, true, s1);
    Then(s1, c, true, Scene(KIND, Processing, job, None, At(rest, c, Claiming(0, [0], 0)), log));
  }

  lemma ToCalling(rest: map<CallId, Call>, c: CallId, job: Status, log: seq<Entry>)
    requires Reachable(Scene(KIND, Pending, job, None, At(rest, c, Starting(0, [0])), log))
    ensures Reachable(Scene(KIND, Processing, Processing, None, At(rest, c, Calling(0, [0], 0)), log))
  {
    ToClaiming(rest, c, job, log);
    Then(Scene(KIND, Processing, job, None, At(rest, c, Claiming(0, [0], 0)), log), c, true,
         Scene(KIND, Processing, Processing, None, At(rest, c, Calling(0, [0], 0)), log));
  }

  lemma ToRunning(rest: map<CallId, Call>, c: CallId, job: Status, log: seq<Entry>)
    requires Reachable(Scene(KIND, Pending, job, None, At(rest, c, Starting(0, [0])), log))
    ensures Reachable(Scene(KIND, Processing, Processing, None, At(rest, c, Running(0, [0], 0)),
                            log + [Entry(0, 1, Entered(1, 1))]))
  {
    ToCalling(rest, c, job, log);
    Then(Scene(KIND, Processing, Processing, None, At(rest, c, Calling(0, [0], 0)), log), c, true,
         Scene(KIND, Processing, Processing, None, At(rest, c, Running(0, [0], 0)), log + [Entry(0, 1, Entered(1, 1))]));
  }

  const L3: seq<Entry> := L1 + [Entry(0, 1, Entered(1, 1))] + [Entry(0, 1, Threw)]

  lemma Thrown() returns (s: State)
    ensures Reachable(s) && s == Scene(KIND, Failed, Processing, None, At(map[], 2, Tracing(0)), L3)
  {
    var s1 := Throwing();
    s := Scene(KIND, Failed, Processing, None, At(map[], 2, Tracing(0)), L3);
    Then(s1, 2, true, s);
  }

  lemma Throwing() returns (s: State)
    ensures Reachable(s) && s == Scene(KIND, Processing, Processing, None, At(map[], 2, Failing(0, [0])), L3)
  {
    var s0 := Loaded(KIND);
    ToRunning(map[], 2, Pending, L1);
    s := Scene(KIND, Processing, Processing, None, At(map[], 2, Failing(0, [0])), L3);
    Then(Scene(KIND, Processing, Processing, None, At(map[], 2, Running(0, [0], 0)), L1 + [Entry(0, 1, Entered(1, 1))]), 2,
         false, s);
  }

  /** The catch block of call 2 is about to write the job. */
  const LATE: map<CallId, Call> := map[2 := Call(0, Voiding(0, 0))]

  lemma Reset() returns (s: State)
    ensures Reachable(s) && s == Scene(KIND, Pending, Processing, None, At(LATE, 3, Listing(0)), L3 + [Entry(0, 1, Retried)])
  {
    var s0 := Thrown();
    var s1 := Scene(KIND, Failed, Processing, None, LATE, L3);
    Then(s0, 2, true, s1);
    RanOn(EMPTY, s1, Retry(3, 0));
    s := Scene(KIND, Pending, Processing, None, At(LATE, 3, Listing(0)), L3 + [Entry(0, 1, Retried)]);
    assert s == Apply(s1, Retry(3, 0));
  }

  lemma Restarted() returns (log: seq<Entry>)
    ensures Reachable(Scene(KIND, Processing, Processing, None, At(LATE, 3, Running(0, [0], 0)), log))
  {
    var s0 := Reset();
    var s1 := Scene(KIND, Pending, Processing, None, At(LATE, 3, Selecting(0, [0])), s0.log);
    Then(s0, 3, true, s1);
    var s2 := Scene(KIND, Pending, Processing, None, At(LATE, 3, Starting(0, [0])), s0.log);
    Then(s1, 3, true, s2);
    ToRunning(LATE, 3, Processing, s0.log);
    log := s0.log + [Entry(0, 1, Entered(1, 1))];
  }

  lemma Succeeded() returns (log: seq<Entry>)
    ensures Reachable(Scene(KIND, Completed, Processing, None, At(LATE, 3, Closing(0, [0], 0)), log))
  {
    var before := Restarted();
    log := before + [Entry(0, 1, Returned)];
    var s1 := Scene(KIND, Processing, Processing, None, At(LATE, 3, Finishing(0, [0], 0)), log);
    Then(Scene(KIND, Processing, Processing, None, At(LATE, 3, Running(0, [0], 0)), before), 3, true, s1);
    Then(s1, 3, true, Scene(KIND, Completed, Processing, None, At(LATE, 3, Closing(0, [0], 0)), log));
  }

  lemma Closed() returns (log: seq<Entry>)
    ensures Reachable(Scene(KIND, Completed, Completed, Some(0), At(LATE, 3, Advancing(Some(0), [0])), log))
  {
    log := Succeeded();
    Then(Scene(KIND, Completed, Processing, None, At(LATE, 3, Closing(0, [0], 0)), log), 3, true,
         Scene(KIND, Completed, Completed, Some(0), At(LATE, 3, Advancing(Some(0), [0])), log));
  }

  lemma Overtaken() returns (log: seq<Entry>)
    ensures Reachable(Scene(KIND, Completed, Completed, Some(0), LATE, log))
  {
    log := Closed();
    var s1 := Scene(KIND, Completed, Completed, Some(0), At(LATE, 3, Advancing(Some(0), [0])), log);
    assert s1.calls - {3} == LATE;
    assert [0][1..] == [];
    assert NextPending(s1.steps, [0]) == None;
    Then(s1, 3, true, Scene(KIND, Completed, Completed, Some(0), LATE, log));
  }

  /** The first enqueue of a sequence of one step is refused: its step is PENDING, with a job nobody will run. */
  lemma FirstEnqueueRefused() returns (s: State)
    ensures Reachable(s) && StartRefused(s, 0) && s.calls == map[] && s.queue == multiset{}
    ensures 0 in s.created && 0 in s.steps && s.steps[0].workerId == 0 && s.steps[0].status == Pending
  {
    var s0 := Linked(KIND);
    s := Scene(KIND, Pending, Pending, None, map[], [Entry(0, 1, Stalled)]);
    Then(s0, 1, false, s);
    assert s.log[0] == Entry(0, 1, Stalled);
  }

  /** A step without a handler: it is FAILED and its job still PENDING. */
  lemma RejectedStepKeepsItsJob() returns (s: State)
    ensures Reachable(s) && s.calls == map[] && s.queue == multiset{}
    ensures 0 in s.steps && s.steps[0].status == Failed && s.steps[0].jobId == Some(0)
    ensures 0 in s.jobs && s.jobs[0].status == Pending
  {
    var s0 := Loaded(OTHER);
    s := Scene(OTHER, Failed, Pending, None, map[], L1 + [Entry(0, 1, Rejected)]);
    Then(s0, 2, true, s);
  }

  /** The retry overtakes: with nobody at work the step is COMPLETED and its job FAILED. */
  lemma OvertakingRetryDisagrees() returns (s: State)
    ensures Reachable(s) && s.calls == map[] && s.queue == multiset{}
    ensures 0 in s.steps && s.steps[0].status == Completed && s.steps[0].jobId == Some(0)
    ensures 0 in s.jobs && s.jobs[0].status == Failed
  {
    var log := Overtaken();
    s := Scene(KIND, Completed, Failed, None, map[], log);
    Then(Scene(KIND, Completed, Completed, Some(0), LATE, log), 2, true, s);
  }
}
