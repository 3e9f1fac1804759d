/** What each action does to the sequence it works on. */
module StepQueueSequence {
  import opened Wrappers
  import opened StepQueueModel
  import opened StepQueueTally
  import opened StepQueueInvariant

  // ---------------------------------------------------------------- rows

  /** Rewriting one row of a sequence rewrites one element of its row list. */
  lemma RowRewritten(s: State, s2: State, w: SequenceId, ids: seq<StepId>, k: nat, row: Step)
    requires Rows(s, ids, w) && k < |ids|
    requires s2.steps == s.steps[ids[k] := row]
    requires row.workerId == w && row.stepNumber == k + 1
    requires row.jobId.Some? ==> row.jobId.value in s2.jobs && s2.jobs[row.jobId.value].stepId == ids[k]
    requires forall j :: j in s.jobs ==> j in s2.jobs && s2.jobs[j].stepId == s.jobs[j].stepId
    ensures Rows(s2, ids, w)
    ensures RowsOf(s2.steps, ids) == RowsOf(s.steps, ids)[k := row]
  {
    assert RowAt(s, ids, w, k);
    forall i | 0 <= i < |ids|
      ensures ids[i] in s2.steps && (i != k ==> ids[i] != ids[k])
    {
      assert RowAt(s, ids, w, i);
    }
    forall i | 0 <= i < |ids|
      ensures RowAt(s2, ids, w, i)
    {
      assert RowAt(s, ids, w, i);
    }
  }

  lemma RowsUntouched(s: State, s2: State, w: SequenceId, ids: seq<StepId>)
    requires Rows(s, ids, w) && s2.steps == s.steps
    requires forall j :: j in s.jobs ==> j in s2.jobs && s2.jobs[j].stepId == s.jobs[j].stepId
    ensures Rows(s2, ids, w) && RowsOf(s2.steps, ids) == RowsOf(s.steps, ids)
  {
    forall i | 0 <= i < |ids|
      ensures RowAt(s2, ids, w, i)
    {
      assert RowAt(s, ids, w, i);
    }
  }

  // ---------------------------------------------------------------- queries

  /** `out` lists steps of `ids` only, all of them, in strictly ascending stepNumber order. */
  ghost predicate Enumerates(steps: map<StepId, Step>, ids: seq<StepId>, out: seq<StepId>)
  {
    && (forall x :: x in ids ==> x in out)
    && (forall i :: 0 <= i < |out| ==> out[i] in steps && Placed(steps, ids, out[i]))
    && (forall i, j :: 0 <= i < j < |out| ==> steps[out[i]].stepNumber < steps[out[j]].stepNumber)
  }

  /** A sequence's steps have distinct numbers 1, 2, ..., so the ordered query returns them in sequence order. */
  lemma OrderedIsSequence(s: State, w: SequenceId, ids: seq<StepId>, keys: set<StepId>, out: seq<StepId>)
    requires Rows(s, ids, w)
    requires forall x :: x in keys <==> x in ids
    requires IsOrdered(s.steps, keys, out)
    ensures out == ids
  {
    Numbered(s, w, ids, keys, out);
    hide IsOrdered;
    hide Enumerates;
    forall i | 0 <= i < |ids|
      ensures i < |out| && out[i] == ids[i]
    {
      Aligned(s, w, ids, out, i);
    }
    SameLength(s, w, ids, out);
  }

  lemma Numbered(s: State, w: SequenceId, ids: seq<StepId>, keys: set<StepId>, out: seq<StepId>)
    requires Rows(s, ids, w)
    requires forall x :: x in keys <==> x in ids
    requires IsOrdered(s.steps, keys, out)
    ensures Enumerates(s.steps, ids, out)
  {
    forall i | 0 <= i < |out|
      ensures out[i] in s.steps && Placed(s.steps, ids, out[i])
    {
      assert out[i] in keys;
      var j :| 0 <= j < |ids| && ids[j] == out[i];
      assert RowAt(s, ids, w, j);
    }
  }

  lemma Aligned(s: State, w: SequenceId, ids: seq<StepId>, out: seq<StepId>, i: nat)
    requires Rows(s, ids, w) && i < |ids| && Enumerates(s.steps, ids, out)
    ensures i < |out| && out[i] == ids[i]
  {
    assert RowAt(s, ids, w, i);
    assert ids[i] in ids;
    var j :| 0 <= j < |out| && out[j] == ids[i];
    Counted(s, w, ids, out, j);
  }

  lemma SameLength(s: State, w: SequenceId, ids: seq<StepId>, out: seq<StepId>)
    requires Rows(s, ids, w) && Enumerates(s.steps, ids, out)
    ensures |out| == |ids|
  {
    if ids != [] {
      Aligned(s, w, ids, out, |ids| - 1);
    }
    if out != [] {
      Counted(s, w, ids, out, |out| - 1);
    }
  }

  /** In an ascending listing of all of 1..n, the row at `j` has number j + 1. */
  lemma {:induction false} Counted(s: State, w: SequenceId, ids: seq<StepId>, out: seq<StepId>, j: nat)
    requires Rows(s, ids, w) && j < |out| && Enumerates(s.steps, ids, out)
    ensures s.steps[out[j]].stepNumber == j + 1
  {
    assert Placed(s.steps, ids, out[j]);
    if j > 0 {
      Counted(s, w, ids, out, j - 1);
    }
    if s.steps[out[j]].stepNumber > j + 1 {
      assert RowAt(s, ids, w, j) && ids[j] in out;
      var i :| 0 <= i < |out| && out[i] == ids[j];
      assert false;
    }
  }

  /** With COMPLETED rows before position k and a PENDING row there, the loop stops at k. */
  lemma {:induction false} NextAt(steps: map<StepId, Step>, ids: seq<StepId>, k: nat)
    requires Known(steps, ids) && k <= |ids|
    requires forall i :: 0 <= i < k ==> steps[ids[i]].status == Completed
    requires k < |ids| ==> steps[ids[k]].status == Pending
    ensures NextPending(steps, ids) == if k < |ids| then Some(ids[k]) else None
  {
    if k > 0 {
      assert forall i :: 0 <= i < |ids| - 1 ==> ids[1..][i] == ids[i + 1];
      NextAt(steps, ids[1..], k - 1);
    }
  }

  lemma {:induction false} IndexOfAt(ids: seq<StepId>, k: nat)
    requires k < |ids| && forall i :: 0 <= i < k ==> ids[i] != ids[k]
    ensures IndexOf(ids, ids[k]) == k
  {
    if k > 0 {
      assert forall i :: 0 <= i < |ids| - 1 ==> ids[1..][i] == ids[i + 1];
      IndexOfAt(ids[1..], k - 1);
    }
  }

  lemma Chosen(s: State, w: SequenceId, ids: seq<StepId>, rows: seq<StepId>, k: nat)
    requires Rows(s, ids, w) && Shape(RowsOf(s.steps, ids), k, Pending)
    requires IsOrdered(s.steps, Among(s.steps, ids), rows)
    ensures rows == ids
    ensures NextPending(s.steps, rows) == if k < |ids| then Some(ids[k]) else None
  {
    OrderedIsSequence(s, w, ids, Among(s.steps, ids), rows);
    var rs := RowsOf(s.steps, ids);
    forall i | 0 <= i < |ids|
      ensures s.steps[ids[i]] == rs[i]
    {
    }
    NextAt(s.steps, ids, k);
  }

  // ---------------------------------------------------------------- actions of a seated call

  lemma SeqStart(s: State, w: SequenceId, ids: seq<StepId>, c: CallId, id: StepId, ids': seq<StepId>)
    requires SequenceOk(s, w, ids, Held(c)) && s.calls[c].stage == Starting(id, ids')
    requires id in s.steps
    ensures s.steps[id].workerId == w && s.steps[id].jobId.Some?
    ensures SequenceOk(ActStart(s, c, id, ids'), w, ids, if s.steps[id].kind in s.handlers then Held(c) else Free)
  {
    var t := TallyOf(s.log, w);
    var k := Cursor(t);
    assert RowAt(s, ids, w, k);
    var s2 := ActStart(s, c, id, ids');
    RowRewritten(s, s2, w, ids, k, s2.steps[id]);
    if s.steps[id].kind !in s.handlers {
      TallyOfNote(s.log, Entry(w, k + 1, Rejected), w);
    }
  }

  /** Loading, Listing and Selecting move on without touching a row. */
  lemma SeqApproach(s: State, w: SequenceId, ids: seq<StepId>, c: CallId, i: Input)
    requires SequenceOk(s, w, ids, Held(c)) && CanAct(s, c, i)
    requires s.calls[c].stage.Loading? || s.calls[c].stage.Listing? || s.calls[c].stage.Selecting?
    requires s.calls[c].stage.Listing? ==> StepsOf(s.steps, w) == Among(s.steps, ids)
    ensures ApplyAct(s, c, i) == Goto(s, c, match s.calls[c].stage
                                            case Loading(m) => Starting(m.stepId, ids)
                                            case Listing(id) => Selecting(id, ids)
                                            case Selecting(id, _) => Starting(id, ids)
                                            case other => other)
    ensures SequenceOk(ApplyAct(s, c, i), w, ids, Held(c))
  {
    var k := Cursor(TallyOf(s.log, w));
    assert RowAt(s, ids, w, k);
    if !s.calls[c].stage.Loading? {
      Chosen(s, w, ids, i.rows, k);
    }
    RowsUntouched(s, ApplyAct(s, c, i), w, ids);
  }

  lemma SeqFetch(s: State, w: SequenceId, ids: seq<StepId>, c: CallId, id: StepId, ids': seq<StepId>)
    requires SequenceOk(s, w, ids, Held(c)) && s.calls[c].stage == Fetching(id, ids')
    requires id in s.steps
    ensures s.steps[id].jobId.Some?
    ensures SequenceOk(ActFetch(s, c, id, ids'), w, ids, Held(c))
  {
    assert RowAt(s, ids, w, Cursor(TallyOf(s.log, w)));
    RowsUntouched(s, ActFetch(s, c, id, ids'), w, ids);
  }

  lemma SeqCall(s: State, w: SequenceId, ids: seq<StepId>, c: CallId, i: Input)
    requires SequenceOk(s, w, ids, Held(c)) && CanAct(s, c, i) && s.calls[c].stage.Calling?
    ensures var stage := s.calls[c].stage;
            && IndexOf(stage.stepIds, stage.stepId) + 1 == s.steps[stage.stepId].stepNumber
            && stage.stepIds == ids
            && s.steps[stage.stepId].workerId == w
    ensures SequenceOk(ApplyAct(s, c, i), w, ids, Held(c))
  {
    var k := Cursor(TallyOf(s.log, w));
    forall j | 0 <= j < k
      ensures ids[j] != ids[k]
    {
      assert RowAt(s, ids, w, j) && RowAt(s, ids, w, k);
    }
    IndexOfAt(ids, k);
    assert RowAt(s, ids, w, k);
    TallyOfNote(s.log, Entry(w, k + 1, Entered(k + 1, |ids|)), w);
    RowsUntouched(s, ApplyAct(s, c, i), w, ids);
  }

  lemma SeqReturn(s: State, w: SequenceId, ids: seq<StepId>, c: CallId, i: Input)
    requires SequenceOk(s, w, ids, Held(c)) && CanAct(s, c, i) && s.calls[c].stage.Running?
    ensures s.steps[s.calls[c].stage.stepId].workerId == w
    ensures SequenceOk(ApplyAct(s, c, i), w, ids, Held(c))
  {
    var k := TallyOf(s.log, w).k;
    assert RowAt(s, ids, w, k);
    TallyOfNote(s.log, Entry(w, k + 1, if i.ok then Returned else Threw), w);
    RowsUntouched(s, ApplyAct(s, c, i), w, ids);
  }

  lemma SeqFinish(s: State, w: SequenceId, ids: seq<StepId>, c: CallId, i: Input)
    requires SequenceOk(s, w, ids, Held(c)) && CanAct(s, c, i) && s.calls[c].stage.Finishing?
    ensures s.steps[s.calls[c].stage.stepId].workerId == w
    ensures SequenceOk(ApplyAct(s, c, i), w, ids, Held(c))
  {
    var k := TallyOf(s.log, w).k;
    assert RowAt(s, ids, w, k);
    var s2 := ApplyAct(s, c, i);
    RowRewritten(s, s2, w, ids, k, s2.steps[ids[k]]);
  }

  /** The two job updates of the success path leave the rows of the steps alone. */
  lemma SeqJob(s: State, w: SequenceId, ids: seq<StepId>, c: CallId, i: Input)
    requires SequenceOk(s, w, ids, Held(c)) && CanAct(s, c, i)
    requires s.calls[c].stage.Claiming? || s.calls[c].stage.Closing?
    ensures SequenceOk(ApplyAct(s, c, i), w, ids, Held(c))
  {
    RowsUntouched(s, ApplyAct(s, c, i), w, ids);
  }

  lemma HandingShape(rows: seq<Step>, ids: seq<StepId>, t: Tally, owner: Option<StepId>, ids': seq<StepId>)
    requires |rows| == |ids| && HandingOver(rows, ids, t, owner, ids')
    ensures ids' == ids && Open(t) && Cursor(t) <= |ids| && Shape(rows, Cursor(t), Pending)
    ensures Balance(t, 0, 0)
    ensures owner == None ==> Untouched(t) && 0 < |ids|
  {
  }

  /** Naming a job for the next step does not disturb the hand-over. */
  lemma HandingLinked(rows: seq<Step>, ids: seq<StepId>, t: Tally, owner: Option<StepId>, job: JobId)
    requires |rows| == |ids| && HandingOver(rows, ids, t, owner, ids) && Cursor(t) < |ids|
    ensures HandingOver(rows[Cursor(t) := rows[Cursor(t)].(jobId := Some(job))], ids, t, owner, ids)
  {
  }

  /** After the last step nothing is pending, and the seat is given up. */
  lemma SeqEnd(s: State, w: SequenceId, ids: seq<StepId>, c: CallId, rows: seq<StepId>, owner: Option<StepId>)
    requires SequenceOk(s, w, ids, Held(c)) && s.calls[c].stage == Advancing(owner, ids)
    requires IsOrdered(s.steps, Among(s.steps, ids), rows)
    requires Cursor(TallyOf(s.log, w)) == |ids|
    ensures NextPending(s.steps, rows) == None
    ensures SequenceOk(Leave(s, c), w, ids, Free)
  {
    HandingShape(RowsOf(s.steps, ids), ids, TallyOf(s.log, w), owner, ids);
    Chosen(s, w, ids, rows, |ids|);
    RowsUntouched(s, Leave(s, c), w, ids);
  }

  lemma SeqAdvance(s: State, w: SequenceId, ids: seq<StepId>, c: CallId, rows: seq<StepId>, owner: Option<StepId>)
    requires SequenceOk(s, w, ids, Held(c)) && s.calls[c].stage == Advancing(owner, ids)
    requires IsOrdered(s.steps, Among(s.steps, ids), rows)
    requires Cursor(TallyOf(s.log, w)) != |ids|
    ensures NextPending(s.steps, rows).Some?
    ensures SequenceOk(Goto(s, c, Drafting(owner, ids, NextPending(s.steps, rows).value)), w, ids, Held(c))
  {
    var k := Cursor(TallyOf(s.log, w));
    HandingShape(RowsOf(s.steps, ids), ids, TallyOf(s.log, w), owner, ids);
    Chosen(s, w, ids, rows, k);
    RowsUntouched(s, Goto(s, c, Drafting(owner, ids, ids[k])), w, ids);
  }

  lemma SeqDraft(s: State, w: SequenceId, ids: seq<StepId>, c: CallId, job: JobId, owner: Option<StepId>, ids': seq<StepId>, next: StepId)
    requires SequenceOk(s, w, ids, Held(c)) && s.calls[c].stage == Drafting(owner, ids', next) && job !in s.jobs
    ensures SequenceOk(ActDraft(s, c, job, owner, ids', next), w, ids, Held(c))
  {
    RowsUntouched(s, ActDraft(s, c, job, owner, ids', next), w, ids);
  }

  lemma SeqLink(s: State, w: SequenceId, ids: seq<StepId>, c: CallId, owner: Option<StepId>, ids': seq<StepId>, next: StepId, job: JobId)
    requires SequenceOk(s, w, ids, Held(c)) && s.calls[c].stage == Linking(owner, ids', next, job)
    requires job in s.jobs && s.jobs[job].stepId == next
    ensures next in s.steps && s.steps[next].workerId == w
    ensures SequenceOk(ActLink(s, c, owner, ids', next, job), w, ids, Held(c))
  {
    var t := TallyOf(s.log, w);
    var k := Cursor(t);
    assert RowAt(s, ids, w, k);
    var s2 := ActLink(s, c, owner, ids', next, job);
    HandingLinked(RowsOf(s.steps, ids), ids, t, owner, job);
    RowRewritten(s, s2, w, ids, k, s2.steps[ids[k]]);
  }

  lemma SeqSent(s: State, w: SequenceId, ids: seq<StepId>, c: CallId, owner: Option<StepId>, next: StepId, job: JobId)
    requires SequenceOk(s, w, ids, Held(c)) && s.calls[c].stage == Sending(owner, ids, next, job)
    ensures next in s.steps && s.steps[next].workerId == w
    ensures var m := Message(job, next, ids);
            SequenceOk(Leave(s.(queue := s.queue + multiset{m}), c), w, ids, Mail(m))
  {
    HandingShape(RowsOf(s.steps, ids), ids, TallyOf(s.log, w), owner, ids);
    assert RowAt(s, ids, w, Cursor(TallyOf(s.log, w)));
    RowsUntouched(s, Leave(s.(queue := s.queue + multiset{Message(job, next, ids)}), c), w, ids);
  }

  /** A refused first enqueue leaves the sequence unstarted, with nobody working on it. */
  lemma SeqStalled(s: State, w: SequenceId, ids: seq<StepId>, c: CallId, next: StepId, job: JobId)
    requires SequenceOk(s, w, ids, Held(c)) && s.calls[c].stage == Sending(None, ids, next, job)
    ensures next in s.steps && s.steps[next].workerId == w
    ensures SequenceOk(Leave(Note(s, next, Stalled), c), w, ids, Free)
  {
    SendingFirst(s, w, ids, c, next, job);
    hide SeatOk, FreeOk, Orderly, TallyOf, StageOk;
    TallyOfNote(s.log, Entry(w, 1, Stalled), w);
    RowsUntouched(s, Leave(Note(s, next, Stalled), c), w, ids);
    assert SeatOk(Leave(Note(s, next, Stalled), c), w, RowsOf(s.steps, ids), ids, Free) by {
      StalledSeat(Leave(Note(s, next, Stalled), c), w, RowsOf(s.steps, ids), ids);
    }
  }

  lemma SendingFirst(s: State, w: SequenceId, ids: seq<StepId>, c: CallId, next: StepId, job: JobId)
    requires SequenceOk(s, w, ids, Held(c)) && s.calls[c].stage == Sending(None, ids, next, job)
    ensures next in s.steps && s.steps[next].workerId == w && s.steps[next].stepNumber == 1
    ensures Rows(s, ids, w) && Orderly(s.log, w) && TallyOf(s.log, w) == START
    ensures 0 < |ids| && Shape(RowsOf(s.steps, ids), 0, Pending)
  {
    hide Orderly, TallyOf;
    assert RowAt(s, ids, w, 0);
  }

  lemma StalledSeat(s: State, w: SequenceId, rows: seq<Step>, ids: seq<StepId>)
    requires |rows| == |ids| && 0 < |ids| && Shape(rows, 0, Pending)
    requires TallyOf(s.log, w) == START.(phase := Stuck)
    ensures SeatOk(s, w, rows, ids, Free)
  {
    hide TallyOf, Shape;
  }

  lemma SeqRefused(s: State, w: SequenceId, ids: seq<StepId>, c: CallId, owner: StepId, next: StepId, job: JobId)
    requires SequenceOk(s, w, ids, Held(c)) && s.calls[c].stage == Sending(Some(owner), ids, next, job)
    ensures owner in s.steps && s.steps[owner].workerId == w
    ensures SequenceOk(Goto(Note(s, owner, Refused), c, Failing(owner, ids)), w, ids, Held(c))
  {
    var k := TallyOf(s.log, w).k;
    assert RowAt(s, ids, w, k);
    TallyOfNote(s.log, Entry(w, k + 1, Refused), w);
    RowsUntouched(s, Goto(Note(s, owner, Refused), c, Failing(owner, ids)), w, ids);
  }

  lemma SeqFail(s: State, w: SequenceId, ids: seq<StepId>, c: CallId, i: Input)
    requires SequenceOk(s, w, ids, Held(c)) && CanAct(s, c, i) && s.calls[c].stage.Failing?
    ensures s.steps[s.calls[c].stage.stepId].workerId == w && s.steps[s.calls[c].stage.stepId].jobId.Some?
    ensures SequenceOk(ApplyAct(s, c, i), w, ids, Free)
  {
    var k := TallyOf(s.log, w).k;
    assert RowAt(s, ids, w, k);
    var s2 := ApplyAct(s, c, i);
    RowRewritten(s, s2, w, ids, k, s2.steps[ids[k]]);
  }

  // ---------------------------------------------------------------- insertion, delivery, retry

  function Inserted(s: State, w: SequenceId, c: CallId, id: StepId, kinds: seq<StepType>, ids: seq<StepId>): State
    requires c in s.calls && |ids| < |kinds|
  {
    Goto(s.(steps := s.steps[id := Step(kinds[|ids|], Pending, |ids| + 1, None, w)]), c, Inserting(kinds, ids + [id]))
  }

  lemma SeqInsert(s: State, w: SequenceId, ids: seq<StepId>, c: CallId, id: StepId, kinds: seq<StepType>)
    requires SequenceOk(s, w, ids, Held(c)) && s.calls[c].stage == Inserting(kinds, ids)
    requires |ids| < |kinds| && id !in s.steps
    ensures SequenceOk(Inserted(s, w, c, id, kinds, ids), w, ids + [id], Held(c))
  {
    var s2 := Inserted(s, w, c, id, kinds, ids);
    assert Known(s2.steps, ids + [id]);
    forall i | 0 <= i < |ids + [id]|
      ensures RowAt(s2, ids + [id], w, i)
    {
      if i < |ids| {
        assert RowAt(s, ids, w, i);
      }
    }
    assert RowsOf(s2.steps, ids + [id])[..|ids|] == RowsOf(s.steps, ids);
  }

  lemma SeqInserted(s: State, w: SequenceId, ids: seq<StepId>, c: CallId, kinds: seq<StepType>)
    requires SequenceOk(s, w, ids, Held(c)) && s.calls[c].stage == Inserting(kinds, ids)
    ensures ids == [] ==> SequenceOk(Leave(s, c), w, ids, Free)
    ensures ids != [] ==> SequenceOk(Goto(s, c, Advancing(None, ids)), w, ids, Held(c))
  {
    RowsUntouched(s, if ids == [] then Leave(s, c) else Goto(s, c, Advancing(None, ids)), w, ids);
  }

  lemma SeqDeliver(s: State, w: SequenceId, ids: seq<StepId>, c: CallId, m: Message)
    requires SequenceOk(s, w, ids, Mail(m)) && c !in s.calls && m.stepId in s.steps
    ensures s.steps[m.stepId].workerId == w
    ensures SequenceOk(Apply(s, Deliver(c, m)), w, ids, Held(c))
  {
    var k := Cursor(TallyOf(s.log, w));
    assert RowAt(s, ids, w, k);
    TallyOfNote(s.log, Entry(w, k + 1, Delivered), w);
    RowsUntouched(s, Apply(s, Deliver(c, m)), w, ids);
  }

  /** Only the step at the cursor of a free sequence can be FAILED, so a retry resumes exactly there. */
  lemma SeqRetry(s: State, w: SequenceId, ids: seq<StepId>, c: CallId, i: nat)
    requires SequenceOk(s, w, ids, Free) && i < |ids| && s.steps[ids[i]].status == Failed && c !in s.calls
    ensures i == Cursor(TallyOf(s.log, w))
    ensures SequenceOk(Apply(s, Retry(c, ids[i])), w, ids, Held(c))
  {
    assert RowAt(s, ids, w, i);
    var rows := RowsOf(s.steps, ids);
    assert rows[i].status == Failed;
    var s2 := Apply(s, Retry(c, ids[i]));
    TallyOfNote(s.log, Entry(w, i + 1, Retried), w);
    RowRewritten(s, s2, w, ids, i, s2.steps[ids[i]]);
  }

  /** While a message or a call holds the seat, no row is FAILED. */
  lemma SeatedNotFailed(s: State, w: SequenceId, ids: seq<StepId>, seat: Seat, i: nat)
    requires SequenceOk(s, w, ids, seat) && seat != Free && i < |ids|
    ensures s.steps[ids[i]].status != Failed
  {
    assert RowsOf(s.steps, ids)[i] == s.steps[ids[i]];
  }
}
