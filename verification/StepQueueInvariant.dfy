/**
 * The invariant of every reachable state, and its preservation by every event.
 *
 * The proof gives each sequence one seat: free, taken by a queued message, or taken by a call.
 * Seats and the order of the sequence's steps are proof-only data, kept outside the state.
 */
module StepQueueInvariant {
  import opened Wrappers
  import opened StepQueueModel
  import opened StepQueueTally

  datatype Seat = Free | Mail(message: Message) | Held(call: CallId)

  datatype Book = Book(order: map<SequenceId, seq<StepId>>, seat: map<SequenceId, Seat>)

  /** A call keeps its sequence's seat until it returns, or has marked the failed step FAILED. */
  predicate Token(stage: Stage)
  {
    !stage.Tracing? && !stage.Voiding?
  }

  predicate Known(steps: map<StepId, Step>, ids: seq<StepId>)
  {
    forall i :: 0 <= i < |ids| ==> ids[i] in steps
  }

  /** The rows of the steps `ids`, in that order. */
  function RowsOf(steps: map<StepId, Step>, ids: seq<StepId>): (rows: seq<Step>)
    requires Known(steps, ids)
    ensures |rows| == |ids|
    ensures forall i :: 0 <= i < |ids| ==> rows[i] == steps[ids[i]]
  {
    seq(|ids|, i requires 0 <= i < |ids| => steps[ids[i]])
  }

  /** COMPLETED below k, `mid` at k, PENDING above. */
  predicate Shape(rows: seq<Step>, k: int, mid: Status)
  {
    && 0 <= k <= |rows|
    && (forall i :: 0 <= i < k ==> rows[i].status == Completed)
    && (k < |rows| ==> rows[k].status == mid)
    && (forall i :: k < i < |rows| ==> rows[i].status == Pending)
  }

  predicate Balance(t: Tally, armed: int, down: int)
  {
    t.armed == armed && t.down == down
  }

  /** Nothing has been done to the sequence yet. */
  predicate Untouched(t: Tally)
  {
    t == START
  }

  /** `id` is the step at the cursor and has status `mid`. */
  predicate AtCursor(rows: seq<Step>, ids: seq<StepId>, t: Tally, id: StepId, mid: Status)
  {
    Open(t) && Cursor(t) < |ids| && ids[Cursor(t)] == id && Shape(rows, Cursor(t), mid)
  }

  /** Nobody works on the sequence: its start was refused, it is done, or it waits for a retry at the cursor. */
  predicate FreeOk(rows: seq<Step>, ids: seq<StepId>, t: Tally)
    requires |rows| == |ids|
  {
    if t.phase == Stuck then 0 < |ids| && t.k == 0 && Balance(t, 0, 0) && Shape(rows, 0, Pending)
    else
      && Open(t)
      && Cursor(t) <= |ids|
      && if Cursor(t) == |ids| then Shape(rows, |ids|, Pending) && Balance(t, 0, 0)
         else Shape(rows, Cursor(t), Failed) && Balance(t, 0, 1) && rows[Cursor(t)].jobId.Some?
  }

  predicate MailOk(rows: seq<Step>, ids: seq<StepId>, t: Tally, m: Message)
    requires |rows| == |ids|
  {
    && m.stepIds == ids
    && AtCursor(rows, ids, t, m.stepId, Pending)
    && rows[Cursor(t)].jobId == Some(m.jobId)
    && Balance(t, 0, 0)
  }

  /** An execution has begun on the step at the cursor, which has a job; its handler has not been entered. */
  predicate Armed(rows: seq<Step>, ids: seq<StepId>, t: Tally, id: StepId, ids': seq<StepId>, mid: Status)
    requires |rows| == |ids|
  {
    && ids' == ids
    && AtCursor(rows, ids, t, id, mid)
    && rows[Cursor(t)].jobId.Some?
    && Balance(t, 1, 0)
  }

  predicate ArmedWith(rows: seq<Step>, ids: seq<StepId>, t: Tally, id: StepId, ids': seq<StepId>, job: JobId)
    requires |rows| == |ids|
  {
    Armed(rows, ids, t, id, ids', Processing) && rows[Cursor(t)].jobId == Some(job)
  }

  /** The handler of `id` was entered last; `id` has a job and status `mid`. */
  predicate Latest(rows: seq<Step>, ids: seq<StepId>, t: Tally, id: StepId, ids': seq<StepId>, mid: Status)
    requires |rows| == |ids|
  {
    ids' == ids && t.k < |ids| && ids[t.k] == id && Shape(rows, t.k, mid) && rows[t.k].jobId.Some?
  }

  /** The owner has just succeeded (or there is none yet), and the rest of the sequence is pending. */
  predicate HandingOver(rows: seq<Step>, ids: seq<StepId>, t: Tally, owner: Option<StepId>, ids': seq<StepId>)
    requires |rows| == |ids|
  {
    && ids' == ids && 0 < |ids|
    && Balance(t, 0, 0)
    && Open(t)
    && Shape(rows, Cursor(t), Pending)
    && match owner
       case None => Untouched(t)
       case Some(id) => t.phase == Succeeded && ids[t.k] == id && rows[t.k].jobId.Some?
  }

  predicate Passing(rows: seq<Step>, ids: seq<StepId>, t: Tally, owner: Option<StepId>, ids': seq<StepId>, next: StepId)
    requires |rows| == |ids|
  {
    HandingOver(rows, ids, t, owner, ids') && Cursor(t) < |ids| && ids[Cursor(t)] == next
  }

  predicate StageOk(rows: seq<Step>, ids: seq<StepId>, t: Tally, stage: Stage)
    requires |rows| == |ids|
  {
    match stage
    case Inserting(kinds, ids') => ids' == ids && Untouched(t) && |ids| <= |kinds| && Shape(rows, 0, Pending)
    case Loading(m) => Armed(rows, ids, t, m.stepId, m.stepIds, Pending)
    case Listing(id) => Armed(rows, ids, t, id, ids, Pending)
    case Selecting(id, ids') => Armed(rows, ids, t, id, ids', Pending)
    case Starting(id, ids') => Armed(rows, ids, t, id, ids', Pending)
    case Fetching(id, ids') => Armed(rows, ids, t, id, ids', Processing)
    case Claiming(id, ids', job) => ArmedWith(rows, ids, t, id, ids', job)
    case Calling(id, ids', job) => ArmedWith(rows, ids, t, id, ids', job)
    case Running(id, ids', job) =>
      && Latest(rows, ids, t, id, ids', Processing) && rows[t.k].jobId == Some(job)
      && t.phase == Busy && Balance(t, 0, 0)
    case Finishing(id, ids', job) =>
      && Latest(rows, ids, t, id, ids', Processing) && rows[t.k].jobId == Some(job)
      && t.phase == Succeeded && Balance(t, 0, 0)
    case Closing(id, ids', job) =>
      HandingOver(rows, ids, t, Some(id), ids') && rows[t.k].jobId == Some(job)
    case Advancing(owner, ids') => HandingOver(rows, ids, t, owner, ids')
    case Drafting(owner, ids', next) => Passing(rows, ids, t, owner, ids', next)
    case Linking(owner, ids', next, job) => Passing(rows, ids, t, owner, ids', next)
    case Sending(owner, ids', next, job) =>
      Passing(rows, ids, t, owner, ids', next) && rows[Cursor(t)].jobId == Some(job)
    case Failing(id, ids') =>
      && t.phase == Ready && Balance(t, 0, 1)
      && (Latest(rows, ids, t, id, ids', Processing) || Latest(rows, ids, t, id, ids', Completed))
    case Tracing(_) => false
    case Voiding(_, _) => false
  }

  /** Row `i` is step i + 1 of sequence `w`, and its job names it. */
  predicate RowAt(s: State, ids: seq<StepId>, w: SequenceId, i: nat)
    requires Known(s.steps, ids) && i < |ids|
  {
    var row := s.steps[ids[i]];
    && row.workerId == w
    && row.stepNumber == i + 1
    && (row.jobId.Some? ==> row.jobId.value in s.jobs && s.jobs[row.jobId.value].stepId == ids[i])
  }

  ghost predicate Rows(s: State, ids: seq<StepId>, w: SequenceId)
  {
    Known(s.steps, ids) && forall i {:trigger RowAt(s, ids, w, i)} :: 0 <= i < |ids| ==> RowAt(s, ids, w, i)
  }

  ghost predicate SeatOk(s: State, w: SequenceId, rows: seq<Step>, ids: seq<StepId>, seat: Seat)
    requires |rows| == |ids|
  {
    var t := TallyOf(s.log, w);
    match seat
    case Free => FreeOk(rows, ids, t)
    case Mail(m) => m in s.queue && MailOk(rows, ids, t, m)
    case Held(c) => c in s.calls && s.calls[c].workerId == w && StageOk(rows, ids, t, s.calls[c].stage)
  }

  /** What holds of one sequence. */
  ghost predicate SequenceOk(s: State, w: SequenceId, ids: seq<StepId>, seat: Seat)
  {
    && Rows(s, ids, w)
    && Orderly(s.log, w)
    && SeatOk(s, w, RowsOf(s.steps, ids), ids, seat)
  }

  /** The job a call has drafted, or is about to fail, names the call's step. */
  ghost predicate PapersOk(s: State, call: Call)
  {
    match call.stage
    case Linking(_, _, next, job) => job in s.jobs && s.jobs[job].stepId == next
    case Tracing(id) => id in s.steps && s.steps[id].workerId == call.workerId && s.steps[id].jobId.Some?
    case Voiding(id, job) =>
      id in s.steps && s.steps[id].workerId == call.workerId && job in s.jobs && s.jobs[job].stepId == id
    case _ => true
  }

  /** `id` stands at its own step number in `ids`. */
  predicate Placed(steps: map<StepId, Step>, ids: seq<StepId>, id: StepId)
    requires id in steps
  {
    1 <= steps[id].stepNumber <= |ids| && ids[steps[id].stepNumber - 1] == id
  }

  predicate Belongs(steps: map<StepId, Step>, b: Book, id: StepId)
    requires id in steps
  {
    steps[id].workerId in b.order && Placed(steps, b.order[steps[id].workerId], id)
  }

  ghost predicate RowsBelong(s: State, b: Book)
  {
    forall id {:trigger Belongs(s.steps, b, id)} :: id in s.steps ==> Belongs(s.steps, b, id)
  }

  ghost predicate CallsSeated(s: State, b: Book)
  {
    forall c :: c in s.calls ==>
      && s.calls[c].workerId in b.seat
      && (Token(s.calls[c].stage) ==> b.seat[s.calls[c].workerId] == Held(c))
      && PapersOk(s, s.calls[c])
  }

  ghost predicate MailSeated(s: State, b: Book)
  {
    forall m :: m in s.queue ==>
      && s.queue[m] == 1
      && m.stepId in s.steps
      && s.steps[m.stepId].workerId in b.seat
      && b.seat[s.steps[m.stepId].workerId] == Mail(m)
  }

  ghost predicate JobsDated(s: State)
  {
    forall j :: j in s.jobs ==> (s.jobs[j].completedAt.Some? <==> s.jobs[j].status == Completed)
  }

  ghost predicate LogKnown(s: State)
  {
    forall i :: 0 <= i < |s.log| ==> s.log[i].workerId in s.created
  }

  ghost predicate BookedOk(s: State, b: Book, w: SequenceId)
    requires w in b.order && w in b.seat
  {
    SequenceOk(s, w, b.order[w], b.seat[w])
  }

  ghost predicate SequencesOk(s: State, b: Book)
    requires b.order.Keys == b.seat.Keys == s.created
  {
    forall w {:trigger BookedOk(s, b, w)} :: w in s.created ==> BookedOk(s, b, w)
  }

  ghost predicate Inv(s: State, b: Book)
  {
    && b.order.Keys == s.created && b.seat.Keys == s.created
    && RowsBelong(s, b)
    && CallsSeated(s, b)
    && MailSeated(s, b)
    && JobsDated(s)
    && LogKnown(s)
    && SequencesOk(s, b)
  }

  lemma InitInv()
    ensures Inv(EMPTY, Book(map[], map[]))
  {
  }
}
