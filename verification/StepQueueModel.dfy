/**
 * The step queue as a transition system.
 *
 * A call of `createStepSequence`, `processStepJob` or `retryStep` is a record in `calls`
 * whose stage says which `await` it has reached.  One event is one atomic action: one
 * database statement, one `stepQueue.add`, or the entry to or exit from a step handler.
 * Calls of any number of sequences interleave in any order.
 */
module StepQueueModel {
  import opened Wrappers

  type StepId = nat
  type JobId = nat
  type SequenceId = nat
  type CallId = nat
  type StepType = string

  /** JobStatus and ProcessingStepStatus have the same four values. */
  datatype Status = Pending | Processing | Completed | Failed

  datatype Step = Step(kind: StepType, status: Status, stepNumber: nat, jobId: Option<JobId>, workerId: SequenceId)

  datatype Job = Job(status: Status, stepId: StepId, allStepIds: seq<StepId>, completedAt: Option<nat>)

  datatype Message = Message(jobId: JobId, stepId: StepId, stepIds: seq<StepId>)

  datatype Stage =
    // createStepSequence: the insertion loop
    | Inserting(kinds: seq<StepType>, stepIds: seq<StepId>)
    // processStepJob: a delivered message, before the step is looked up
    | Loading(message: Message)
    // retryStep: after the reset, before the sequence is listed, then before the pending step is chosen
    | Listing(stepId: StepId)
    | Selecting(stepId: StepId, stepIds: seq<StepId>)
    // executeStep
    | Starting(stepId: StepId, stepIds: seq<StepId>)
    | Fetching(stepId: StepId, stepIds: seq<StepId>)
    | Claiming(stepId: StepId, stepIds: seq<StepId>, jobId: JobId)
    | Calling(stepId: StepId, stepIds: seq<StepId>, jobId: JobId)
    | Running(stepId: StepId, stepIds: seq<StepId>, jobId: JobId)
    | Finishing(stepId: StepId, stepIds: seq<StepId>, jobId: JobId)
    | Closing(stepId: StepId, stepIds: seq<StepId>, jobId: JobId)
    // createAndQueueNextJob; the owner is the step just executed, or nobody for a new sequence
    | Advancing(owner: Option<StepId>, stepIds: seq<StepId>)
    | Drafting(owner: Option<StepId>, stepIds: seq<StepId>, next: StepId)
    | Linking(owner: Option<StepId>, stepIds: seq<StepId>, next: StepId, jobId: JobId)
    | Sending(owner: Option<StepId>, stepIds: seq<StepId>, next: StepId, jobId: JobId)
    // the catch block of executeStep
    | Failing(stepId: StepId, stepIds: seq<StepId>)
    | Tracing(stepId: StepId)
    | Voiding(stepId: StepId, jobId: JobId)

  /** `workerId` is the sequence the call works on; it never influences what the call does to the tables. */
  datatype Call = Call(workerId: SequenceId, stage: Stage)

  /** What the history records about one step of one sequence; `Stalled` is a refused first enqueue. */
  datatype Deed =
    | Delivered
    | Retried
    | Entered(currentStepNumber: int, totalSteps: nat)
    | Returned
    | Threw
    | Refused
    | Rejected
    | Stalled

  datatype Entry = Entry(workerId: SequenceId, stepNumber: nat, deed: Deed)

  /** The tables, the Bull queue, the calls in progress, and the history: sequences created and deeds done. */
  datatype State = State(
    handlers: set<StepType>,
    steps: map<StepId, Step>,
    jobs: map<JobId, Job>,
    queue: multiset<Message>,
    calls: map<CallId, Call>,
    created: set<SequenceId>,
    log: seq<Entry>)

  const EMPTY := State({}, map[], map[], multiset{}, map[], {}, [])

  /** What the environment decides in one action: success, a fresh id, the clock, the rows a query returns. */
  datatype Input = Input(ok: bool, id: nat, now: nat, rows: seq<StepId>)

  datatype Event =
    | Register(kind: StepType)
    | Create(call: CallId, workerId: SequenceId, kinds: seq<StepType>)
    | Deliver(call: CallId, message: Message)
    | Retry(call: CallId, stepId: StepId)
    | Act(call: CallId, input: Input)

  // ---------------------------------------------------------------- queries

  /** `rows` lists exactly `keys`, once each, in ascending stepNumber order. */
  predicate IsOrdered(steps: map<StepId, Step>, keys: set<StepId>, rows: seq<StepId>)
  {
    && keys <= steps.Keys
    && (forall x :: x in keys ==> x in rows)
    && (forall x :: x in rows ==> x in keys)
    && (forall i, j :: 0 <= i < j < |rows| ==> rows[i] != rows[j])
    && (forall i, j :: 0 <= i < j < |rows| ==> steps[rows[i]].stepNumber <= steps[rows[j]].stepNumber)
  }

  function StepsOf(steps: map<StepId, Step>, w: SequenceId): set<StepId>
  {
    set id | id in steps && steps[id].workerId == w
  }

  function Among(steps: map<StepId, Step>, ids: seq<StepId>): set<StepId>
  {
    set id | id in ids && id in steps
  }

  /** The loop of findNextPendingStep over rows already ordered by stepNumber. */
  function NextPending(steps: map<StepId, Step>, rows: seq<StepId>): Option<StepId>
    requires forall x :: x in rows ==> x in steps
  {
    if rows == [] then None
    else if steps[rows[0]].status == Pending then Some(rows[0])
    else if steps[rows[0]].status == Failed then None
    else NextPending(steps, rows[1..])
  }

  /** Array.prototype.indexOf. */
  function IndexOf(ids: seq<StepId>, id: StepId): int
  {
    if ids == [] then -1
    else if ids[0] == id then 0
    else var r := IndexOf(ids[1..], id); if r < 0 then -1 else r + 1
  }

  // ---------------------------------------------------------------- elementary changes

  function SetStatus(s: State, id: StepId, status: Status): State
    requires id in s.steps
  {
    s.(steps := s.steps[id := s.steps[id].(status := status)])
  }

  function SetJob(s: State, id: JobId, status: Status, now: nat): State
    requires id in s.jobs
  {
    s.(jobs := s.jobs[id := s.jobs[id].(status := status,
                                        completedAt := if status == Completed then Some(now) else None)])
  }

  function Goto(s: State, c: CallId, stage: Stage): State
    requires c in s.calls
  {
    s.(calls := s.calls[c := s.calls[c].(stage := stage)])
  }

  function Leave(s: State, c: CallId): State
  {
    s.(calls := s.calls - {c})
  }

  function Note(s: State, id: StepId, deed: Deed): State
    requires id in s.steps
  {
    s.(log := s.log + [Entry(s.steps[id].workerId, s.steps[id].stepNumber, deed)])
  }

  // ---------------------------------------------------------------- actions

  /** The rows an action reads or writes exist, fresh ids are fresh, and query results are right. */
  predicate CanAct(s: State, c: CallId, i: Input)
  {
    c in s.calls &&
    match s.calls[c].stage
    case Inserting(kinds, ids) => |ids| < |kinds| ==> i.id !in s.steps
    case Loading(m) => m.stepId in s.steps
    case Listing(_) => IsOrdered(s.steps, StepsOf(s.steps, s.calls[c].workerId), i.rows)
    case Selecting(_, ids) => IsOrdered(s.steps, Among(s.steps, ids), i.rows)
    case Starting(id, _) => id in s.steps
    case Fetching(id, _) => id in s.steps
    case Claiming(_, _, job) => job in s.jobs
    case Calling(id, _, _) => id in s.steps
    case Running(id, _, _) => id in s.steps
    case Finishing(id, _, _) => id in s.steps
    case Closing(_, _, job) => job in s.jobs
    case Advancing(_, ids) => IsOrdered(s.steps, Among(s.steps, ids), i.rows)
    case Drafting(_, _, _) => i.id !in s.jobs
    case Linking(_, _, next, job) => next in s.steps
    case Sending(owner, _, next, _) => next in s.steps && (owner.Some? ==> owner.value in s.steps)
    case Failing(id, _) => id in s.steps
    case Tracing(id) => id in s.steps
    case Voiding(_, job) => job in s.jobs
  }

  function ActInsert(s: State, c: CallId, i: Input, kinds: seq<StepType>, ids: seq<StepId>): State
    requires c in s.calls
  {
    if |ids| < |kinds| then
      var row := Step(kinds[|ids|], Pending, |ids| + 1, None, s.calls[c].workerId);
      Goto(s.(steps := s.steps[i.id := row]), c, Inserting(kinds, ids + [i.id]))
    else if ids == [] then Leave(s, c)
    else Goto(s, c, Advancing(None, ids))
  }

  /** executeStep up to its first write: no handler fails the step, otherwise it is marked PROCESSING. */
  function ActStart(s: State, c: CallId, id: StepId, ids: seq<StepId>): State
    requires c in s.calls && id in s.steps
  {
    if s.steps[id].kind in s.handlers
    then Goto(SetStatus(s, id, Processing), c, Fetching(id, ids))
    else Leave(Note(SetStatus(s, id, Failed), id, Rejected), c)
  }

  function ActFetch(s: State, c: CallId, id: StepId, ids: seq<StepId>): State
    requires c in s.calls && id in s.steps
  {
    match s.steps[id].jobId
    case None => Goto(s, c, Failing(id, ids))
    case Some(job) => Goto(s, c, Claiming(id, ids, job))
  }

  function ActReturn(s: State, c: CallId, ok: bool, id: StepId, ids: seq<StepId>, job: JobId): State
    requires c in s.calls && id in s.steps
  {
    if ok
    then Goto(Note(s, id, Returned), c, Finishing(id, ids, job))
    else Goto(Note(s, id, Threw), c, Failing(id, ids))
  }

  /** createAndQueueNextJob, the choice of the next pending step. */
  function ActAdvance(s: State, c: CallId, rows: seq<StepId>, owner: Option<StepId>, ids: seq<StepId>): State
    requires c in s.calls && forall x :: x in rows ==> x in s.steps
  {
    match NextPending(s.steps, rows)
    case None => Leave(s, c)
    case Some(next) => Goto(s, c, Drafting(owner, ids, next))
  }

  function ActDraft(s: State, c: CallId, job: JobId, owner: Option<StepId>, ids: seq<StepId>, next: StepId): State
    requires c in s.calls
  {
    Goto(s.(jobs := s.jobs[job := Job(Pending, next, ids, None)]), c, Linking(owner, ids, next, job))
  }

  function ActLink(s: State, c: CallId, owner: Option<StepId>, ids: seq<StepId>, next: StepId, job: JobId): State
    requires c in s.calls && next in s.steps
  {
    Goto(s.(steps := s.steps[next := s.steps[next].(jobId := Some(job))]), c, Sending(owner, ids, next, job))
  }

  /** `stepQueue.add`: a refusal is caught by executeStep, or ends createStepSequence. */
  function ActSend(s: State, c: CallId, ok: bool, owner: Option<StepId>, ids: seq<StepId>, next: StepId, job: JobId): State
    requires c in s.calls && next in s.steps && (owner.Some? ==> owner.value in s.steps)
  {
    if ok then Leave(s.(queue := s.queue + multiset{Message(job, next, ids)}), c)
    else if owner.None? then Leave(Note(s, next, Stalled), c)
    else Goto(Note(s, owner.value, Refused), c, Failing(owner.value, ids))
  }

  function ApplyAct(s: State, c: CallId, i: Input): State
    requires CanAct(s, c, i)
  {
    match s.calls[c].stage
    case Inserting(kinds, ids) => ActInsert(s, c, i, kinds, ids)
    case Loading(m) => Goto(s, c, Starting(m.stepId, m.stepIds))
    case Listing(id) => Goto(s, c, Selecting(id, i.rows))
    case Selecting(id, ids) =>
      (match NextPending(s.steps, i.rows)
       case None => Leave(s, c)
       case Some(next) => Goto(s, c, Starting(next, ids)))
    case Starting(id, ids) => ActStart(s, c, id, ids)
    case Fetching(id, ids) => ActFetch(s, c, id, ids)
    case Claiming(id, ids, job) => Goto(SetJob(s, job, Processing, i.now), c, Calling(id, ids, job))
    case Calling(id, ids, job) =>
      Goto(Note(s, id, Entered(IndexOf(ids, id) + 1, |ids|)), c, Running(id, ids, job))
    case Running(id, ids, job) => ActReturn(s, c, i.ok, id, ids, job)
    case Finishing(id, ids, job) => Goto(SetStatus(s, id, Completed), c, Closing(id, ids, job))
    case Closing(id, ids, job) => Goto(SetJob(s, job, Completed, i.now), c, Advancing(Some(id), ids))
    case Advancing(owner, ids) => ActAdvance(s, c, i.rows, owner, ids)
    case Drafting(owner, ids, next) => ActDraft(s, c, i.id, owner, ids, next)
    case Linking(owner, ids, next, job) => ActLink(s, c, owner, ids, next, job)
    case Sending(owner, ids, next, job) => ActSend(s, c, i.ok, owner, ids, next, job)
    case Failing(id, ids) => Goto(SetStatus(s, id, Failed), c, Tracing(id))
    case Tracing(id) =>
      (match s.steps[id].jobId
       case None => Leave(s, c)
       case Some(job) => Goto(s, c, Voiding(id, job)))
    case Voiding(id, job) => Leave(SetJob(s, job, Failed, i.now), c)
  }

  predicate Enabled(s: State, e: Event)
  {
    match e
    case Register(_) => true
    case Create(c, w, _) => c !in s.calls && w !in s.created
    case Deliver(c, m) => c !in s.calls && m in s.queue && m.stepId in s.steps
    case Retry(c, id) => c !in s.calls && id in s.steps && s.steps[id].status == Failed
    case Act(c, i) => CanAct(s, c, i)
  }

  function Apply(s: State, e: Event): State
    requires Enabled(s, e)
  {
    match e
    case Register(kind) => s.(handlers := s.handlers + {kind})
    case Create(c, w, kinds) =>
      s.(created := s.created + {w}, calls := s.calls[c := Call(w, Inserting(kinds, []))])
    case Deliver(c, m) =>
      Note(s.(queue := s.queue - multiset{m}, calls := s.calls[c := Call(s.steps[m.stepId].workerId, Loading(m))]),
           m.stepId, Delivered)
    case Retry(c, id) =>
      Note(SetStatus(s.(calls := s.calls[c := Call(s.steps[id].workerId, Listing(id))]), id, Pending), id, Retried)
    case Act(c, i) => ApplyAct(s, c, i)
  }

  // ---------------------------------------------------------------- runs

  /** `es` is a run from `s`: every event was enabled when it happened. */
  ghost predicate Legal(s: State, es: seq<Event>)
    decreases |es|, 0
  {
    es == [] || (Legal(s, es[..|es| - 1]) && Enabled(Exec(s, es[..|es| - 1]), es[|es| - 1]))
  }

  ghost function Exec(s: State, es: seq<Event>): State
    requires Legal(s, es)
    decreases |es|, 1
  {
    if es == [] then s else Apply(Exec(s, es[..|es| - 1]), es[|es| - 1])
  }
}
