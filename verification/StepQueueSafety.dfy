/** Every event keeps the invariant, so every run does. */
module StepQueueSafety {
  import opened Wrappers
  import opened StepQueueModel
  import opened StepQueueTally
  import opened StepQueueInvariant
  import opened StepQueueFrame
  import opened StepQueueSequence

  lemma Seated(s: State, b: Book, c: CallId)
    requires Inv(s, b) && c in s.calls
    ensures var w := s.calls[c].workerId;
            && w in s.created && w in b.order && w in b.seat
            && JobsDated(s)
            && PapersOk(s, s.calls[c])
            && (Token(s.calls[c].stage) ==> b.seat[w] == Held(c) && SequenceOk(s, w, b.order[w], Held(c)))
  {
    assert BookedOk(s, b, s.calls[c].workerId);
  }

  /** The three queries of a sequence's own steps agree. */
  lemma StepsOfSequence(s: State, b: Book, w: SequenceId)
    requires Inv(s, b) && w in s.created
    ensures StepsOf(s.steps, w) == Among(s.steps, b.order[w])
  {
    var ids := b.order[w];
    assert BookedOk(s, b, w);
    forall id | id in StepsOf(s.steps, w)
      ensures id in ids
    {
      assert Belongs(s.steps, b, id);
    }
    forall id | id in Among(s.steps, ids)
      ensures s.steps[id].workerId == w
    {
      var i :| 0 <= i < |ids| && ids[i] == id;
      assert RowAt(s, ids, w, i);
    }
  }

  /** `b2` keeps the books after a quiet action of `c`. */
  function Reseated(b: Book, w: SequenceId, seat: Seat): Book
    requires w in b.order
  {
    Book(b.order[w := b.order[w]], b.seat[w := seat])
  }

  lemma QuietGoto(s: State, c: CallId, stage: Stage)
    requires c in s.calls && Token(stage) && !stage.Linking? && JobsDated(s)
    ensures Quiet(s, Goto(s, c, stage), s.calls[c].workerId, c, Held(c))
  {
  }

  /** Moving the program counter of a seated call, when its sequence is fine with that. */
  lemma KeepGoto(s: State, b: Book, c: CallId, stage: Stage)
    requires Inv(s, b) && c in s.calls && Token(s.calls[c].stage) && Token(stage) && !stage.Linking?
    requires s.calls[c].workerId in b.order
    requires SequenceOk(Goto(s, c, stage), s.calls[c].workerId, b.order[s.calls[c].workerId], Held(c))
    ensures Inv(Goto(s, c, stage), Reseated(b, s.calls[c].workerId, Held(c)))
  {
    hide Inv, SequenceOk, Quiet, JobsDated, PapersOk;
    Seated(s, b, c);
    QuietGoto(s, c, stage);
    AssembleQuiet(s, b, Goto(s, c, stage), s.calls[c].workerId, c, Held(c));
  }

  lemma KeepApproach(s: State, b: Book, c: CallId, i: Input)
    requires Inv(s, b) && CanAct(s, c, i)
    requires s.calls[c].stage.Loading? || s.calls[c].stage.Listing? || s.calls[c].stage.Selecting?
    ensures s.calls[c].workerId in b.order
    ensures Inv(ApplyAct(s, c, i), Reseated(b, s.calls[c].workerId, Held(c)))
  {
    Seated(s, b, c);
    hide Inv;
    hide SequenceOk;
    var w := s.calls[c].workerId;
    StepsOfSequence(s, b, w);
    SeqApproach(s, w, b.order[w], c, i);
    KeepGoto(s, b, c, ApplyAct(s, c, i).calls[c].stage);
  }

  lemma QuietStart(s: State, c: CallId, id: StepId, ids: seq<StepId>)
    requires c in s.calls && s.calls[c].stage == Starting(id, ids) && id in s.steps
    requires JobsDated(s) && PapersOk(s, s.calls[c])
    requires s.steps[id].workerId == s.calls[c].workerId
    ensures Quiet(s, ActStart(s, c, id, ids), s.calls[c].workerId, c, if s.steps[id].kind in s.handlers then Held(c) else Free)
  {
  }

  lemma KeepStart(s: State, b: Book, c: CallId, id: StepId, ids: seq<StepId>)
    requires Inv(s, b) && c in s.calls && s.calls[c].stage == Starting(id, ids) && id in s.steps
    ensures s.calls[c].workerId in b.order
    ensures Inv(ActStart(s, c, id, ids), Reseated(b, s.calls[c].workerId, if s.steps[id].kind in s.handlers then Held(c) else Free))
  {
    Seated(s, b, c);
    hide Inv;
    hide SequenceOk;
    hide Quiet;
    var w := s.calls[c].workerId;
    SeqStart(s, w, b.order[w], c, id, ids);
    QuietStart(s, c, id, ids);
    AssembleQuiet(s, b, ActStart(s, c, id, ids), w, c, if s.steps[id].kind in s.handlers then Held(c) else Free);
  }

  lemma QuietFetch(s: State, c: CallId, id: StepId, ids: seq<StepId>)
    requires c in s.calls && s.calls[c].stage == Fetching(id, ids) && id in s.steps
    requires JobsDated(s) && PapersOk(s, s.calls[c])
    ensures Quiet(s, ActFetch(s, c, id, ids), s.calls[c].workerId, c, Held(c))
  {
  }

  lemma KeepFetch(s: State, b: Book, c: CallId, id: StepId, ids: seq<StepId>)
    requires Inv(s, b) && c in s.calls && s.calls[c].stage == Fetching(id, ids) && id in s.steps
    ensures s.calls[c].workerId in b.order
    ensures Inv(ActFetch(s, c, id, ids), Reseated(b, s.calls[c].workerId, Held(c)))
  {
    Seated(s, b, c);
    hide Inv;
    hide SequenceOk;
    hide Quiet;
    var w := s.calls[c].workerId;
    SeqFetch(s, w, b.order[w], c, id, ids);
    QuietFetch(s, c, id, ids);
    AssembleQuiet(s, b, ActFetch(s, c, id, ids), w, c, Held(c));
  }

  lemma QuietJob(s: State, c: CallId, i: Input)
    requires CanAct(s, c, i) && (s.calls[c].stage.Claiming? || s.calls[c].stage.Closing?)
    requires JobsDated(s) && PapersOk(s, s.calls[c])
    ensures Quiet(s, ApplyAct(s, c, i), s.calls[c].workerId, c, Held(c))
  {
  }

  lemma KeepJob(s: State, b: Book, c: CallId, i: Input)
    requires Inv(s, b) && CanAct(s, c, i) && (s.calls[c].stage.Claiming? || s.calls[c].stage.Closing?)
    ensures s.calls[c].workerId in b.order
    ensures Inv(ApplyAct(s, c, i), Reseated(b, s.calls[c].workerId, Held(c)))
  {
    Seated(s, b, c);
    hide Inv;
    hide SequenceOk;
    hide Quiet;
    var w := s.calls[c].workerId;
    SeqJob(s, w, b.order[w], c, i);
    QuietJob(s, c, i);
    AssembleQuiet(s, b, ApplyAct(s, c, i), w, c, Held(c));
  }

  lemma QuietCall(s: State, c: CallId, i: Input)
    requires CanAct(s, c, i) && s.calls[c].stage.Calling?
    requires JobsDated(s) && PapersOk(s, s.calls[c])
    requires s.steps[s.calls[c].stage.stepId].workerId == s.calls[c].workerId
    ensures Quiet(s, ApplyAct(s, c, i), s.calls[c].workerId, c, Held(c))
  {
  }

  lemma KeepCall(s: State, b: Book, c: CallId, i: Input)
    requires Inv(s, b) && CanAct(s, c, i) && s.calls[c].stage.Calling?
    ensures s.calls[c].workerId in b.order
    ensures Inv(ApplyAct(s, c, i), Reseated(b, s.calls[c].workerId, Held(c)))
  {
    Seated(s, b, c);
    hide Inv;
    hide SequenceOk;
    hide Quiet;
    var w := s.calls[c].workerId;
    SeqCall(s, w, b.order[w], c, i);
    QuietCall(s, c, i);
    AssembleQuiet(s, b, ApplyAct(s, c, i), w, c, Held(c));
  }

  lemma QuietReturn(s: State, c: CallId, i: Input)
    requires CanAct(s, c, i) && s.calls[c].stage.Running?
    requires JobsDated(s) && PapersOk(s, s.calls[c])
    requires s.steps[s.calls[c].stage.stepId].workerId == s.calls[c].workerId
    ensures Quiet(s, ApplyAct(s, c, i), s.calls[c].workerId, c, Held(c))
  {
  }

  lemma KeepReturn(s: State, b: Book, c: CallId, i: Input)
    requires Inv(s, b) && CanAct(s, c, i) && s.calls[c].stage.Running?
    ensures s.calls[c].workerId in b.order
    ensures Inv(ApplyAct(s, c, i), Reseated(b, s.calls[c].workerId, Held(c)))
  {
    Seated(s, b, c);
    hide Inv;
    hide SequenceOk;
    hide Quiet;
    var w := s.calls[c].workerId;
    SeqReturn(s, w, b.order[w], c, i);
    QuietReturn(s, c, i);
    AssembleQuiet(s, b, ApplyAct(s, c, i), w, c, Held(c));
  }

  lemma QuietFinish(s: State, c: CallId, i: Input)
    requires CanAct(s, c, i) && s.calls[c].stage.Finishing?
    requires JobsDated(s) && PapersOk(s, s.calls[c])
    requires s.steps[s.calls[c].stage.stepId].workerId == s.calls[c].workerId
    ensures Quiet(s, ApplyAct(s, c, i), s.calls[c].workerId, c, Held(c))
  {
  }

  lemma KeepFinish(s: State, b: Book, c: CallId, i: Input)
    requires Inv(s, b) && CanAct(s, c, i) && s.calls[c].stage.Finishing?
    ensures s.calls[c].workerId in b.order
    ensures Inv(ApplyAct(s, c, i), Reseated(b, s.calls[c].workerId, Held(c)))
  {
    Seated(s, b, c);
    hide Inv;
    hide SequenceOk;
    hide Quiet;
    var w := s.calls[c].workerId;
    SeqFinish(s, w, b.order[w], c, i);
    QuietFinish(s, c, i);
    AssembleQuiet(s, b, ApplyAct(s, c, i), w, c, Held(c));
  }

  lemma QuietDraft(s: State, c: CallId, job: JobId, owner: Option<StepId>, ids: seq<StepId>, next: StepId)
    requires c in s.calls && s.calls[c].stage == Drafting(owner, ids, next) && job !in s.jobs
    requires JobsDated(s) && PapersOk(s, s.calls[c])
    ensures Quiet(s, ActDraft(s, c, job, owner, ids, next), s.calls[c].workerId, c, Held(c))
  {
  }

  lemma KeepDraft(s: State, b: Book, c: CallId, job: JobId, owner: Option<StepId>, ids: seq<StepId>, next: StepId)
    requires Inv(s, b) && c in s.calls && s.calls[c].stage == Drafting(owner, ids, next) && job !in s.jobs
    ensures s.calls[c].workerId in b.order
    ensures Inv(ActDraft(s, c, job, owner, ids, next), Reseated(b, s.calls[c].workerId, Held(c)))
  {
    Seated(s, b, c);
    hide Inv;
    hide SequenceOk;
    hide Quiet;
    var w := s.calls[c].workerId;
    SeqDraft(s, w, b.order[w], c, job, owner, ids, next);
    QuietDraft(s, c, job, owner, ids, next);
    AssembleQuiet(s, b, ActDraft(s, c, job, owner, ids, next), w, c, Held(c));
  }

  lemma QuietLink(s: State, c: CallId, owner: Option<StepId>, ids: seq<StepId>, next: StepId, job: JobId)
    requires c in s.calls && s.calls[c].stage == Linking(owner, ids, next, job) && next in s.steps
    requires JobsDated(s) && PapersOk(s, s.calls[c])
    requires s.steps[next].workerId == s.calls[c].workerId
    ensures Quiet(s, ActLink(s, c, owner, ids, next, job), s.calls[c].workerId, c, Held(c))
  {
  }

  lemma KeepLink(s: State, b: Book, c: CallId, owner: Option<StepId>, ids: seq<StepId>, next: StepId, job: JobId)
    requires Inv(s, b) && c in s.calls && s.calls[c].stage == Linking(owner, ids, next, job) && next in s.steps
    ensures s.calls[c].workerId in b.order
    ensures Inv(ActLink(s, c, owner, ids, next, job), Reseated(b, s.calls[c].workerId, Held(c)))
  {
    Seated(s, b, c);
    hide Inv;
    hide SequenceOk;
    hide Quiet;
    var w := s.calls[c].workerId;
    SeqLink(s, w, b.order[w], c, owner, ids, next, job);
    QuietLink(s, c, owner, ids, next, job);
    AssembleQuiet(s, b, ActLink(s, c, owner, ids, next, job), w, c, Held(c));
  }

  lemma QuietFail(s: State, c: CallId, i: Input)
    requires CanAct(s, c, i) && s.calls[c].stage.Failing?
    requires JobsDated(s) && PapersOk(s, s.calls[c])
    requires s.steps[s.calls[c].stage.stepId].workerId == s.calls[c].workerId && s.steps[s.calls[c].stage.stepId].jobId.Some?
    ensures Quiet(s, ApplyAct(s, c, i), s.calls[c].workerId, c, Free)
  {
  }

  lemma KeepFail(s: State, b: Book, c: CallId, i: Input)
    requires Inv(s, b) && CanAct(s, c, i) && s.calls[c].stage.Failing?
    ensures s.calls[c].workerId in b.order
    ensures Inv(ApplyAct(s, c, i), Reseated(b, s.calls[c].workerId, Free))
  {
    Seated(s, b, c);
    hide Inv;
    hide SequenceOk;
    hide Quiet;
    var w := s.calls[c].workerId;
    SeqFail(s, w, b.order[w], c, i);
    QuietFail(s, c, i);
    AssembleQuiet(s, b, ApplyAct(s, c, i), w, c, Free);
  }

  lemma QuietLeave(s: State, c: CallId)
    requires c in s.calls && JobsDated(s)
    ensures Quiet(s, Leave(s, c), s.calls[c].workerId, c, Free)
  {
  }

  lemma KeepAdvance(s: State, b: Book, c: CallId, i: Input) returns (b2: Book)
    requires Inv(s, b) && CanAct(s, c, i) && s.calls[c].stage.Advancing?
    ensures Inv(ApplyAct(s, c, i), b2)
  {
    hide Inv, SequenceOk, Quiet, NextPending, JobsDated, PapersOk, TallyOf;
    Seated(s, b, c);
    var w := s.calls[c].workerId;
    var owner, ids, t := s.calls[c].stage.owner, b.order[w], TallyOf(s.log, w);
    AdvancingIds(s, w, ids, c);
    if Cursor(t) == |ids| {
      SeqEnd(s, w, ids, c, i.rows, owner);
      QuietLeave(s, c);
      AssembleQuiet(s, b, Leave(s, c), w, c, Free);
      b2 := Reseated(b, w, Free);
    } else {
      SeqAdvance(s, w, ids, c, i.rows, owner);
      KeepGoto(s, b, c, Drafting(owner, ids, NextPending(s.steps, i.rows).value));
      b2 := Reseated(b, w, Held(c));
    }
  }

  lemma AdvancingIds(s: State, w: SequenceId, ids: seq<StepId>, c: CallId)
    requires SequenceOk(s, w, ids, Held(c))
    requires s.calls[c].stage.Advancing? || s.calls[c].stage.Sending?
    ensures s.calls[c].stage.stepIds == ids
  {
  }

  lemma QuietRefused(s: State, c: CallId, owner: StepId, ids: seq<StepId>)
    requires c in s.calls && JobsDated(s) && owner in s.steps && s.steps[owner].workerId == s.calls[c].workerId
    ensures Quiet(s, Goto(Note(s, owner, Refused), c, Failing(owner, ids)), s.calls[c].workerId, c, Held(c))
  {
  }

  lemma QuietStalled(s: State, c: CallId, next: StepId)
    requires c in s.calls && JobsDated(s) && next in s.steps && s.steps[next].workerId == s.calls[c].workerId
    ensures Quiet(s, Leave(Note(s, next, Stalled), c), s.calls[c].workerId, c, Free)
  {
  }

  lemma KeepSend(s: State, b: Book, c: CallId, i: Input) returns (b2: Book)
    requires Inv(s, b) && CanAct(s, c, i) && s.calls[c].stage.Sending?
    ensures Inv(ApplyAct(s, c, i), b2)
  {
    Seated(s, b, c);
    hide Inv;
    hide SequenceOk;
    hide Quiet;
    var w := s.calls[c].workerId;
    var ids := b.order[w];
    AdvancingIds(s, w, ids, c);
    var Sending(owner, _, next, job) := s.calls[c].stage;
    if i.ok {
      b2 := KeepSent(s, b, c, owner, next, job);
    } else if owner.None? {
      SeqStalled(s, w, ids, c, next, job);
      QuietStalled(s, c, next);
      AssembleQuiet(s, b, Leave(Note(s, next, Stalled), c), w, c, Free);
      b2 := Reseated(b, w, Free);
    } else {
      SeqRefused(s, w, ids, c, owner.value, next, job);
      QuietRefused(s, c, owner.value, ids);
      AssembleQuiet(s, b, Goto(Note(s, owner.value, Refused), c, Failing(owner.value, ids)), w, c, Held(c));
      b2 := Reseated(b, w, Held(c));
    }
  }

  lemma RowsHomeKept(s: State, b: Book, s2: State, w: SequenceId)
    requires Inv(s, b) && w in b.order && s2.steps == s.steps
    ensures RowsHome(s, s2, w, b.order[w])
  {
    forall id | id in s2.steps && s2.steps[id].workerId == w
      ensures Placed(s2.steps, b.order[w], id)
    {
      assert Belongs(s.steps, b, id);
    }
  }

  lemma SentHome(s: State, b: Book, c: CallId, m: Message)
    requires Inv(s, b) && c in s.calls && Token(s.calls[c].stage) && m.stepId in s.steps
    requires s.steps[m.stepId].workerId == s.calls[c].workerId
    ensures var s2, w := Leave(s.(queue := s.queue + multiset{m}), c), s.calls[c].workerId;
            Local(s, s2, w, c) && MailHome(s, s2, w, Mail(m)) && CallHome(s2, w, c, Mail(m))
  {
    forall x | x in s.queue
      ensures s.steps[x.stepId].workerId != s.calls[c].workerId
    {
      assert b.seat[s.calls[c].workerId] == Held(c);
    }
  }

  lemma KeepSent(s: State, b: Book, c: CallId, owner: Option<StepId>, next: StepId, job: JobId) returns (b2: Book)
    requires Inv(s, b) && c in s.calls && s.calls[c].workerId in b.order
    requires s.calls[c].stage == Sending(owner, b.order[s.calls[c].workerId], next, job)
    ensures Inv(Leave(s.(queue := s.queue + multiset{Message(job, next, b.order[s.calls[c].workerId])}), c), b2)
  {
    Seated(s, b, c);
    hide Inv;
    hide SequenceOk;
    hide Local;
    hide MailHome;
    hide RowsHome;
    hide CallHome;
    var w := s.calls[c].workerId;
    var ids := b.order[w];
    var m := Message(job, next, ids);
    var s2 := Leave(s.(queue := s.queue + multiset{m}), c);
    SeqSent(s, w, ids, c, owner, next, job);
    RowsHomeKept(s, b, s2, w);
    SentHome(s, b, c, m);
    Assemble(s, b, s2, w, c, ids, Mail(m));
    b2 := Book(b.order[w := ids], b.seat[w := Mail(m)]);
  }

  // ---------------------------------------------------------------- calls that gave their seat up

  /** A step's job exists and names the step. */
  lemma JobOfStep(s: State, b: Book, id: StepId)
    requires Inv(s, b) && id in s.steps && s.steps[id].jobId.Some?
    ensures s.steps[id].jobId.value in s.jobs && s.jobs[s.steps[id].jobId.value].stepId == id
  {
    assert Belongs(s.steps, b, id);
    var w := s.steps[id].workerId;
    assert BookedOk(s, b, w);
    assert RowAt(s, b.order[w], w, s.steps[id].stepNumber - 1);
  }

  /** The last writes of the catch block touch no step, so they disturb no sequence. */
  lemma KeepTail(s: State, b: Book, c: CallId, i: Input) returns (b2: Book)
    requires Inv(s, b) && CanAct(s, c, i) && !Token(s.calls[c].stage)
    ensures Inv(ApplyAct(s, c, i), b2)
  {
    Seated(s, b, c);
    TailSequence(s, b, c, i);
    if s.calls[c].stage.Tracing? {
      JobOfStep(s, b, s.calls[c].stage.stepId);
    }
    hide Inv;
    hide SequenceOk;
    hide Quiet;
    var w := s.calls[c].workerId;
    QuietTail(s, c, i, b.seat[w]);
    AssembleQuiet(s, b, ApplyAct(s, c, i), w, c, b.seat[w]);
    b2 := Reseated(b, w, b.seat[w]);
  }

  lemma TailSequence(s: State, b: Book, c: CallId, i: Input)
    requires Inv(s, b) && CanAct(s, c, i) && !Token(s.calls[c].stage)
    ensures var w := s.calls[c].workerId;
            w in b.order && w in b.seat && SequenceOk(ApplyAct(s, c, i), w, b.order[w], b.seat[w])
  {
    Seated(s, b, c);
    var w := s.calls[c].workerId;
    assert BookedOk(s, b, w);
    NotTail(s, w, b.order[w], b.seat[w], c);
    hide Inv;
    hide SequenceOk;
    TailElsewhere(s, ApplyAct(s, c, i), w, b.order[w], b.seat[w], c);
  }

  lemma NotTail(s: State, w: SequenceId, ids: seq<StepId>, seat: Seat, c: CallId)
    requires SequenceOk(s, w, ids, seat) && c in s.calls && !Token(s.calls[c].stage)
    ensures seat != Held(c)
  {
  }

  lemma QuietTail(s: State, c: CallId, i: Input, seat: Seat)
    requires CanAct(s, c, i) && !Token(s.calls[c].stage) && JobsDated(s) && PapersOk(s, s.calls[c])
    requires s.calls[c].stage.Tracing? ==>
               var j := s.steps[s.calls[c].stage.stepId].jobId;
               j.Some? && j.value in s.jobs && s.jobs[j.value].stepId == s.calls[c].stage.stepId
    ensures Quiet(s, ApplyAct(s, c, i), s.calls[c].workerId, c, seat)
  {
  }

  lemma TailElsewhere(s: State, s2: State, w: SequenceId, ids: seq<StepId>, seat: Seat, c: CallId)
    requires SequenceOk(s, w, ids, seat) && seat != Held(c)
    requires s2.steps == s.steps && s2.queue == s.queue && s2.log == s.log
    requires forall j :: j in s.jobs ==> j in s2.jobs && s2.jobs[j].stepId == s.jobs[j].stepId
    requires forall d :: d in s.calls && d != c ==> d in s2.calls && s2.calls[d] == s.calls[d]
    ensures SequenceOk(s2, w, ids, seat)
  {
    RowsUntouched(s, s2, w, ids);
  }

  // ---------------------------------------------------------------- insertion

  lemma InsertingIds(s: State, w: SequenceId, ids: seq<StepId>, c: CallId)
    requires SequenceOk(s, w, ids, Held(c)) && s.calls[c].stage.Inserting?
    ensures s.calls[c].stage.stepIds == ids && |ids| <= |s.calls[c].stage.kinds|
  {
  }

  lemma KeepInsert(s: State, b: Book, c: CallId, i: Input) returns (b2: Book)
    requires Inv(s, b) && CanAct(s, c, i) && s.calls[c].stage.Inserting?
    ensures Inv(ApplyAct(s, c, i), b2)
  {
    Seated(s, b, c);
    hide Inv;
    hide SequenceOk;
    hide Quiet;
    var w := s.calls[c].workerId;
    var ids, kinds := b.order[w], s.calls[c].stage.kinds;
    InsertingIds(s, w, ids, c);
    if |ids| < |kinds| {
      b2 := KeepInserted(s, b, c, i.id, kinds);
    } else {
      SeqInserted(s, w, ids, c, kinds);
      if ids == [] {
        QuietLeave(s, c);
        AssembleQuiet(s, b, Leave(s, c), w, c, Free);
        b2 := Reseated(b, w, Free);
      } else {
        KeepGoto(s, b, c, Advancing(None, ids));
        b2 := Reseated(b, w, Held(c));
      }
    }
  }

  lemma InsertHome(s: State, b: Book, c: CallId, id: StepId, kinds: seq<StepType>)
    requires Inv(s, b) && c in s.calls && s.calls[c].workerId in b.order && id !in s.steps
    requires s.calls[c].stage == Inserting(kinds, b.order[s.calls[c].workerId])
    requires |b.order[s.calls[c].workerId]| < |kinds|
    ensures var w := s.calls[c].workerId;
            var s2 := Inserted(s, w, c, id, kinds, b.order[w]);
            Local(s, s2, w, c) && MailHome(s, s2, w, Held(c)) && CallHome(s2, w, c, Held(c))
  {
    var w := s.calls[c].workerId;
    forall m | m in s.queue
      ensures m.stepId in s.steps && s.steps[m.stepId].workerId != w
    {
      assert b.seat[w] == Held(c);
    }
  }

  lemma InsertRows(s: State, b: Book, c: CallId, id: StepId, kinds: seq<StepType>)
    requires Inv(s, b) && c in s.calls && s.calls[c].workerId in b.order && id !in s.steps
    requires |b.order[s.calls[c].workerId]| < |kinds|
    ensures var w := s.calls[c].workerId;
            RowsHome(s, Inserted(s, w, c, id, kinds, b.order[w]), w, b.order[w] + [id])
  {
    var w := s.calls[c].workerId;
    var s2 := Inserted(s, w, c, id, kinds, b.order[w]);
    forall x | x in s2.steps && s2.steps[x].workerId == w
      ensures Placed(s2.steps, b.order[w] + [id], x)
    {
      if x != id {
        assert Belongs(s.steps, b, x);
      }
    }
  }

  lemma KeepInserted(s: State, b: Book, c: CallId, id: StepId, kinds: seq<StepType>) returns (b2: Book)
    requires Inv(s, b) && c in s.calls && s.calls[c].workerId in b.order && id !in s.steps
    requires s.calls[c].stage == Inserting(kinds, b.order[s.calls[c].workerId])
    requires |b.order[s.calls[c].workerId]| < |kinds|
    ensures Inv(Inserted(s, s.calls[c].workerId, c, id, kinds, b.order[s.calls[c].workerId]), b2)
  {
    Seated(s, b, c);
    InsertHome(s, b, c, id, kinds);
    InsertRows(s, b, c, id, kinds);
    hide Inv;
    hide SequenceOk;
    hide Local;
    hide MailHome;
    hide RowsHome;
    hide CallHome;
    var w := s.calls[c].workerId;
    var ids := b.order[w];
    SeqInsert(s, w, ids, c, id, kinds);
    Assemble(s, b, Inserted(s, w, c, id, kinds, ids), w, c, ids + [id], Held(c));
    b2 := Book(b.order[w := ids + [id]], b.seat[w := Held(c)]);
  }

  // ---------------------------------------------------------------- new calls

  lemma CreateHome(s: State, b: Book, c: CallId, w: SequenceId, kinds: seq<StepType>)
    requires Inv(s, b) && Enabled(s, Create(c, w, kinds))
    ensures var s2 := Apply(s, Create(c, w, kinds));
            && Local(s, s2, w, c) && RowsHome(s, s2, w, []) && MailHome(s, s2, w, Held(c))
            && CallHome(s2, w, c, Held(c)) && SequenceOk(s2, w, [], Held(c))
  {
    var s2 := Apply(s, Create(c, w, kinds));
    forall x | x in s2.steps
      ensures s2.steps[x].workerId != w
    {
      assert Belongs(s.steps, b, x);
    }
    NoHistory(s.log, w);
  }

  lemma {:induction false} NoHistory(log: seq<Entry>, w: SequenceId)
    requires forall i :: 0 <= i < |log| ==> log[i].workerId != w
    ensures TallyOf(log, w) == START && Orderly(log, w)
  {
    if log != [] {
      NoHistory(log[..|log| - 1], w);
    }
  }

  lemma KeepCreate(s: State, b: Book, c: CallId, w: SequenceId, kinds: seq<StepType>) returns (b2: Book)
    requires Inv(s, b) && Enabled(s, Create(c, w, kinds))
    ensures Inv(Apply(s, Create(c, w, kinds)), b2)
  {
    CreateHome(s, b, c, w, kinds);
    var s2 := Apply(s, Create(c, w, kinds));
    assert JobsDated(s2) && w !in b.seat;
    hide Inv;
    hide SequenceOk;
    hide Local;
    hide MailHome;
    hide RowsHome;
    hide CallHome;
    Assemble(s, b, s2, w, c, [], Held(c));
    b2 := Book(b.order[w := []], b.seat[w := Held(c)]);
  }

  /** A queued message has its sequence's seat; the delivery passes the seat to the new call. */
  lemma DeliverHome(s: State, b: Book, c: CallId, m: Message)
    requires Inv(s, b) && Enabled(s, Deliver(c, m))
    ensures var w := s.steps[m.stepId].workerId;
            var s2 := Apply(s, Deliver(c, m));
            && w in b.order && w in b.seat && b.seat[w] == Mail(m)
            && Local(s, s2, w, c) && RowsHome(s, s2, w, b.order[w]) && MailHome(s, s2, w, Held(c))
            && CallHome(s2, w, c, Held(c)) && s2.created == s.created + {w}
  {
    RowsHomeKept(s, b, Apply(s, Deliver(c, m)), s.steps[m.stepId].workerId);
  }

  lemma KeepDeliver(s: State, b: Book, c: CallId, m: Message) returns (b2: Book)
    requires Inv(s, b) && Enabled(s, Deliver(c, m))
    ensures Inv(Apply(s, Deliver(c, m)), b2)
  {
    DeliverHome(s, b, c, m);
    var w := s.steps[m.stepId].workerId;
    var s2 := Apply(s, Deliver(c, m));
    assert BookedOk(s, b, w);
    assert JobsDated(s2);
    hide Inv;
    hide SequenceOk;
    hide Local;
    hide MailHome;
    hide RowsHome;
    hide CallHome;
    SeqDeliver(s, w, b.order[w], c, m);
    Assemble(s, b, s2, w, c, b.order[w], Held(c));
    b2 := Reseated(b, w, Held(c));
  }

  /** A FAILED step's sequence is free, so the retry can take its seat. */
  lemma FailedIsFree(s: State, b: Book, id: StepId)
    requires Inv(s, b) && id in s.steps && s.steps[id].status == Failed
    ensures var w := s.steps[id].workerId;
            && w in b.order && w in b.seat && b.seat[w] == Free && SequenceOk(s, w, b.order[w], Free)
            && Placed(s.steps, b.order[w], id)
  {
    assert Belongs(s.steps, b, id);
    var w := s.steps[id].workerId;
    assert BookedOk(s, b, w);
    if b.seat[w] != Free {
      SeatedNotFailed(s, w, b.order[w], b.seat[w], s.steps[id].stepNumber - 1);
    }
  }

  lemma RetryLocal(s: State, c: CallId, id: StepId)
    requires Enabled(s, Retry(c, id)) && JobsDated(s)
    ensures Local(s, Apply(s, Retry(c, id)), s.steps[id].workerId, c) && JobsDated(Apply(s, Retry(c, id)))
  {
  }

  lemma RetryHome(s: State, b: Book, c: CallId, id: StepId)
    requires Inv(s, b) && Enabled(s, Retry(c, id)) && s.steps[id].workerId in b.seat
    requires b.seat[s.steps[id].workerId] == Free
    ensures var w := s.steps[id].workerId;
            var s2 := Apply(s, Retry(c, id));
            MailHome(s, s2, w, Held(c)) && CallHome(s2, w, c, Held(c)) && s2.created == s.created + {w}
  {
  }

  lemma RetryRows(s: State, b: Book, c: CallId, id: StepId)
    requires Inv(s, b) && Enabled(s, Retry(c, id)) && s.steps[id].workerId in b.order
    ensures RowsHome(s, Apply(s, Retry(c, id)), s.steps[id].workerId, b.order[s.steps[id].workerId])
  {
    var w := s.steps[id].workerId;
    var s2 := Apply(s, Retry(c, id));
    forall x | x in s2.steps && s2.steps[x].workerId == w
      ensures Placed(s2.steps, b.order[w], x)
    {
      assert Belongs(s.steps, b, x);
    }
  }

  lemma RetrySequence(s: State, c: CallId, id: StepId, ids: seq<StepId>)
    requires Enabled(s, Retry(c, id)) && Placed(s.steps, ids, id) && SequenceOk(s, s.steps[id].workerId, ids, Free)
    ensures SequenceOk(Apply(s, Retry(c, id)), s.steps[id].workerId, ids, Held(c))
  {
    hide SequenceOk, Apply;
    SeqRetry(s, s.steps[id].workerId, ids, c, s.steps[id].stepNumber - 1);
  }

  lemma KeepRetry(s: State, b: Book, c: CallId, id: StepId) returns (b2: Book)
    requires Inv(s, b) && Enabled(s, Retry(c, id))
    ensures Inv(Apply(s, Retry(c, id)), b2)
  {
    hide Inv, SequenceOk, Local, MailHome, RowsHome, CallHome, JobsDated, Apply, Placed;
    FailedIsFree(s, b, id);
    var w := s.steps[id].workerId;
    assert JobsDated(s) by { Dated(s, b); }
    RetryLocal(s, c, id);
    RetryHome(s, b, c, id);
    RetryRows(s, b, c, id);
    RetrySequence(s, c, id, b.order[w]);
    Assemble(s, b, Apply(s, Retry(c, id)), w, c, b.order[w], Held(c));
    b2 := Reseated(b, w, Held(c));
  }

  lemma Dated(s: State, b: Book)
    requires Inv(s, b)
    ensures JobsDated(s)
  {
    hide SequencesOk, RowsBelong, CallsSeated, MailSeated, LogKnown, JobsDated;
  }

  lemma RegisterSequence(s: State, kind: StepType, w: SequenceId, ids: seq<StepId>, seat: Seat)
    requires SequenceOk(s, w, ids, seat)
    ensures SequenceOk(Apply(s, Register(kind)), w, ids, seat)
  {
    hide StageOk, FreeOk, MailOk, Orderly;
    RowsUntouched(s, Apply(s, Register(kind)), w, ids);
  }

  lemma RegisterRows(s: State, b: Book, kind: StepType)
    requires RowsBelong(s, b)
    ensures RowsBelong(Apply(s, Register(kind)), b)
  {
    forall id | id in s.steps
      ensures Belongs(Apply(s, Register(kind)).steps, b, id)
    {
      assert Belongs(s.steps, b, id);
    }
  }

  lemma KeepRegister(s: State, b: Book, kind: StepType)
    requires Inv(s, b)
    ensures Inv(Apply(s, Register(kind)), b)
  {
    hide SequenceOk, RowsBelong;
    forall w | w in s.created
      ensures BookedOk(Apply(s, Register(kind)), b, w)
    {
      assert BookedOk(s, b, w);
      RegisterSequence(s, kind, w, b.order[w], b.seat[w]);
    }
    RegisterRows(s, b, kind);
  }

  // ---------------------------------------------------------------- every event, every run

  lemma KeepAct(s: State, b: Book, c: CallId, i: Input) returns (b2: Book)
    requires Inv(s, b) && CanAct(s, c, i)
    ensures Inv(ApplyAct(s, c, i), b2)
  {
    hide Inv;
    b2 := b;
    match s.calls[c].stage
    case Inserting(_, _) => b2 := KeepInsert(s, b, c, i);
    case Loading(_) => KeepApproach(s, b, c, i); b2 := Reseated(b, s.calls[c].workerId, Held(c));
    case Listing(_) => KeepApproach(s, b, c, i); b2 := Reseated(b, s.calls[c].workerId, Held(c));
    case Selecting(_, _) => KeepApproach(s, b, c, i); b2 := Reseated(b, s.calls[c].workerId, Held(c));
    case Starting(id, ids) =>
      KeepStart(s, b, c, id, ids);
      b2 := Reseated(b, s.calls[c].workerId, if s.steps[id].kind in s.handlers then Held(c) else Free);
    case Fetching(id, ids) => KeepFetch(s, b, c, id, ids); b2 := Reseated(b, s.calls[c].workerId, Held(c));
    case Claiming(_, _, _) => KeepJob(s, b, c, i); b2 := Reseated(b, s.calls[c].workerId, Held(c));
    case Calling(_, _, _) => KeepCall(s, b, c, i); b2 := Reseated(b, s.calls[c].workerId, Held(c));
    case Running(_, _, _) => KeepReturn(s, b, c, i); b2 := Reseated(b, s.calls[c].workerId, Held(c));
    case Finishing(_, _, _) => KeepFinish(s, b, c, i); b2 := Reseated(b, s.calls[c].workerId, Held(c));
    case Closing(_, _, _) => KeepJob(s, b, c, i); b2 := Reseated(b, s.calls[c].workerId, Held(c));
    case Advancing(_, _) => b2 := KeepAdvance(s, b, c, i);
    case Drafting(owner, ids, next) =>
      KeepDraft(s, b, c, i.id, owner, ids, next); b2 := Reseated(b, s.calls[c].workerId, Held(c));
    case Linking(owner, ids, next, job) =>
      KeepLink(s, b, c, owner, ids, next, job); b2 := Reseated(b, s.calls[c].workerId, Held(c));
    case Sending(_, _, _, _) => b2 := KeepSend(s, b, c, i);
    case Failing(_, _) => KeepFail(s, b, c, i); b2 := Reseated(b, s.calls[c].workerId, Free);
    case Tracing(_) => b2 := KeepTail(s, b, c, i);
    case Voiding(_, _) => b2 := KeepTail(s, b, c, i);
  }

  lemma KeepEvent(s: State, b: Book, e: Event) returns (b2: Book)
    requires Inv(s, b) && Enabled(s, e)
    ensures Inv(Apply(s, e), b2)
  {
    hide Inv;
    b2 := b;
    match e
    case Register(kind) => KeepRegister(s, b, kind);
    case Create(c, w, kinds) => b2 := KeepCreate(s, b, c, w, kinds);
    case Deliver(c, m) => b2 := KeepDeliver(s, b, c, m);
    case Retry(c, id) => b2 := KeepRetry(s, b, c, id);
    case Act(c, i) => b2 := KeepAct(s, b, c, i);
  }

  lemma {:induction false} KeepRun(es: seq<Event>) returns (b: Book)
    requires Legal(EMPTY, es)
    ensures Inv(Exec(EMPTY, es), b)
  {
    if es == [] {
      InitInv();
      b := Book(map[], map[]);
    } else {
      var prior := KeepRun(es[..|es| - 1]);
      b := KeepEvent(Exec(EMPTY, es[..|es| - 1]), prior, es[|es| - 1]);
    }
  }
}
