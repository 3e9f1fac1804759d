/** Every job's payload names a step and lists the whole sequence of that step, in order. */
module StepQueuePayloads {
  import opened Wrappers
  import opened StepQueueModel
  import opened StepQueueTally
  import opened StepQueueInvariant
  import opened StepQueueSequence
  import opened StepQueueSafety
  import opened StepQueueRuns
  import opened StepQueueReach
  import opened StepQueueIsolation

  predicate PayloadNames(s: State, job: JobId)
    requires job in s.jobs
  {
    s.jobs[job].stepId in s.steps
  }

  ghost predicate PayloadLists(s: State, job: JobId)
    requires job in s.jobs && PayloadNames(s, job)
  {
    Listed(s, s.steps[s.jobs[job].stepId].workerId, s.jobs[job].allStepIds)
  }

  /** No job belongs to a sequence whose steps are still being inserted. */
  predicate Unfinished(s: State, c: CallId, job: JobId)
    requires c in s.calls && job in s.jobs && PayloadNames(s, job)
  {
    s.calls[c].stage.Inserting? ==> s.calls[c].workerId != s.steps[s.jobs[job].stepId].workerId
  }

  ghost predicate PayloadOk(s: State, job: JobId)
    requires job in s.jobs
  {
    && PayloadNames(s, job) && PayloadLists(s, job)
    && forall c {:trigger Unfinished(s, c, job)} :: c in s.calls ==> Unfinished(s, c, job)
  }

  // ---------------------------------------------------------------- what an event does to jobs

  /** The job a call is about to create. */
  predicate Drafts(stage: Stage, i: Input, job: JobId)
  {
    stage.Drafting? && i.id == job
  }

  predicate SamePayload(s: State, s2: State, job: JobId)
    requires job in s2.jobs
  {
    job in s.jobs && s2.jobs[job].stepId == s.jobs[job].stepId && s2.jobs[job].allStepIds == s.jobs[job].allStepIds
  }

  lemma QueueingPayload(s: State, c: CallId, i: Input, job: JobId)
    requires CanAct(s, c, i) && Queueing(s.calls[c].stage) && job in ApplyAct(s, c, i).jobs
    ensures if Drafts(s.calls[c].stage, i, job)
            then ApplyAct(s, c, i).jobs[job] == Job(Pending, s.calls[c].stage.next, s.calls[c].stage.stepIds, None)
            else SamePayload(s, ApplyAct(s, c, i), job)
  {
    hide NextPending, IsOrdered, Among;
  }

  lemma ExecutingPayload(s: State, c: CallId, i: Input, job: JobId)
    requires CanAct(s, c, i) && !Queueing(s.calls[c].stage) && job in ApplyAct(s, c, i).jobs
    ensures SamePayload(s, ApplyAct(s, c, i), job)
  {
    hide NextPending, IndexOf, IsOrdered, Among, StepsOf;
  }

  // ---------------------------------------------------------------- keeping the lists

  /** A list stays the whole sequence while no step is added to it. */
  lemma StaysListed(s: State, s2: State, w: SequenceId, ids: seq<StepId>)
    requires Extends(s, s2) && Listed(s, w, ids) && StepsOf(s2.steps, w) == StepsOf(s.steps, w)
    ensures Listed(s2, w, ids)
  {
    forall x | x in ids
      ensures x in s2.steps && s2.steps[x].stepNumber == s.steps[x].stepNumber
    {
      assert SameStep(s.steps[x], s2.steps[x]);
    }
  }

  lemma QueueingRows(s: State, c: CallId, i: Input)
    requires CanAct(s, c, i) && Queueing(s.calls[c].stage) && !s.calls[c].stage.Inserting?
    ensures ApplyAct(s, c, i).steps.Keys == s.steps.Keys
  {
    hide NextPending, IsOrdered, Among;
  }

  lemma ExecutingRows(s: State, c: CallId, i: Input)
    requires CanAct(s, c, i) && !Queueing(s.calls[c].stage)
    ensures ApplyAct(s, c, i).steps.Keys == s.steps.Keys
  {
    hide NextPending, IndexOf, IsOrdered, Among, StepsOf;
  }

  lemma InsertingRows(s: State, c: CallId, i: Input, w: SequenceId)
    requires CanAct(s, c, i) && s.calls[c].stage.Inserting? && s.calls[c].workerId != w
    ensures StepsOf(ApplyAct(s, c, i).steps, w) == StepsOf(s.steps, w)
  {
  }

  lemma SameStepsOf(s: State, s2: State, w: SequenceId)
    requires Extends(s, s2) && s2.steps.Keys == s.steps.Keys
    ensures StepsOf(s2.steps, w) == StepsOf(s.steps, w)
  {
    forall x | x in s.steps
      ensures s2.steps[x].workerId == s.steps[x].workerId
    {
      assert SameStep(s.steps[x], s2.steps[x]);
    }
  }

  /** Only a sequence still being inserted gets new steps. */
  lemma ActStepsOf(s: State, c: CallId, i: Input, w: SequenceId)
    requires CanAct(s, c, i) && (s.calls[c].stage.Inserting? ==> s.calls[c].workerId != w)
    ensures StepsOf(ApplyAct(s, c, i).steps, w) == StepsOf(s.steps, w)
  {
    hide ApplyAct, Queueing, Extends, StepsOf;
    if s.calls[c].stage.Inserting? {
      InsertingRows(s, c, i, w);
    } else {
      ActExtends(s, c, i);
      assert ApplyAct(s, c, i).steps.Keys == s.steps.Keys by {
        if Queueing(s.calls[c].stage) { QueueingRows(s, c, i); } else { ExecutingRows(s, c, i); }
      }
      SameStepsOf(s, ApplyAct(s, c, i), w);
    }
  }

  /** A call that starts inserting after an action was inserting before. */
  lemma StillInserting(s: State, c: CallId, i: Input)
    requires CanAct(s, c, i)
    ensures var s2 := ApplyAct(s, c, i);
            && (c in s2.calls && s2.calls[c].stage.Inserting? ==>
                  s.calls[c].stage.Inserting? && s2.calls[c].workerId == s.calls[c].workerId)
            && (forall d :: d in s2.calls && d != c ==> d in s.calls && s2.calls[d] == s.calls[d])
  {
    hide ApplyAct, Queueing, CanAct;
    Acts(s, c, i);
    if Queueing(s.calls[c].stage) { QueueingInserts(s, c, i); } else { ExecutingInserts(s, c, i); }
    forall d | d in ApplyAct(s, c, i).calls && d != c
      ensures d in s.calls && ApplyAct(s, c, i).calls[d] == s.calls[d]
    {
      ActLeavesOthers(s, c, i, d);
    }
  }

  lemma QueueingInserts(s: State, c: CallId, i: Input)
    requires CanAct(s, c, i) && Queueing(s.calls[c].stage)
    ensures var s2 := ApplyAct(s, c, i);
            && s2.calls.Keys <= s.calls.Keys
            && (c in s2.calls && s2.calls[c].stage.Inserting? ==>
                  s.calls[c].stage.Inserting? && s2.calls[c].workerId == s.calls[c].workerId)
  {
    hide NextPending, IsOrdered, Among;
  }

  lemma ExecutingInserts(s: State, c: CallId, i: Input)
    requires CanAct(s, c, i) && !Queueing(s.calls[c].stage)
    ensures var s2 := ApplyAct(s, c, i);
            s2.calls.Keys <= s.calls.Keys && (c in s2.calls ==> !s2.calls[c].stage.Inserting?)
  {
    hide NextPending, IndexOf, IsOrdered, Among, StepsOf;
  }

  lemma OldPayload(s: State, c: CallId, i: Input, job: JobId)
    requires CanAct(s, c, i) && job in ApplyAct(s, c, i).jobs
    requires SamePayload(s, ApplyAct(s, c, i), job) && PayloadOk(s, job)
    ensures PayloadOk(ApplyAct(s, c, i), job)
  {
    var s2 := ApplyAct(s, c, i);
    Acts(s, c, i);
    assert Unfinished(s, c, job);
    hide ApplyAct, CanAct, Listed, StepsOf;
    var w := s.steps[s.jobs[job].stepId].workerId;
    ActExtends(s, c, i);
    assert SameStep(s.steps[s.jobs[job].stepId], s2.steps[s.jobs[job].stepId]);
    ActStepsOf(s, c, i, w);
    StaysListed(s, s2, w, s.jobs[job].allStepIds);
    StillInserting(s, c, i);
    forall d | d in s2.calls
      ensures Unfinished(s2, d, job)
    {
      if d in s.calls { assert Unfinished(s, d, job); }
    }
  }

  /** A call that drafts a job carries the whole sequence of its step. */
  lemma DraftLists(s: State, b: Book, c: CallId)
    requires Inv(s, b) && c in s.calls && s.calls[c].stage.Drafting?
    ensures var stage, w := s.calls[c].stage, s.calls[c].workerId;
            && stage.next in s.steps && s.steps[stage.next].workerId == w && Listed(s, w, stage.stepIds)
    ensures forall d :: d in s.calls && s.calls[d].stage.Inserting? ==> s.calls[d].workerId != s.calls[c].workerId
  {
    var w := s.calls[c].workerId;
    hide Inv, SequenceOk;
    Seated(s, b, c);
    StepsOfSequence(s, b, w);
    DraftCarries(s, w, b.order[w], c);
    forall d | d in s.calls && s.calls[d].stage.Inserting?
      ensures s.calls[d].workerId != w
    {
      Seated(s, b, d);
    }
  }

  lemma DraftCarries(s: State, w: SequenceId, order: seq<StepId>, c: CallId)
    requires SequenceOk(s, w, order, Held(c)) && s.calls[c].stage.Drafting?
    ensures var stage := s.calls[c].stage;
            stage.stepIds == order && stage.next in s.steps && s.steps[stage.next].workerId == w
    ensures IsOrdered(s.steps, Among(s.steps, order), order)
  {
    OrderExists(s.steps, order, s, w);
    assert RowAt(s, order, w, Cursor(TallyOf(s.log, w)));
  }

  lemma NewPayload(s: State, b: Book, c: CallId, i: Input)
    requires Inv(s, b) && CanAct(s, c, i) && s.calls[c].stage.Drafting?
    ensures i.id in ApplyAct(s, c, i).jobs && PayloadOk(ApplyAct(s, c, i), i.id)
  {
    hide Inv, IsOrdered, StepsOf;
    DraftLists(s, b, c);
    var s2 := ApplyAct(s, c, i);
    forall d | d in s2.calls
      ensures Unfinished(s2, d, i.id)
    {
    }
  }

  lemma ActPayload(s: State, b: Book, c: CallId, i: Input, job: JobId)
    requires Inv(s, b) && CanAct(s, c, i) && job in ApplyAct(s, c, i).jobs && (job in s.jobs ==> PayloadOk(s, job))
    ensures PayloadOk(ApplyAct(s, c, i), job)
  {
    hide Inv, ApplyAct, Queueing, PayloadOk;
    if Drafts(s.calls[c].stage, i, job) {
      NewPayload(s, b, c, i);
    } else {
      if Queueing(s.calls[c].stage) { QueueingPayload(s, c, i, job); } else { ExecutingPayload(s, c, i, job); }
      OldPayload(s, c, i, job);
    }
  }

  lemma CommandPayload(s: State, b: Book, e: Event, job: JobId)
    requires Inv(s, b) && Enabled(s, e) && !e.Act? && job in s.jobs && PayloadOk(s, job)
    ensures job in Apply(s, e).jobs && PayloadOk(Apply(s, e), job)
  {
    var s2 := Apply(s, e);
    var id := s.jobs[job].stepId;
    InItsPlace(s, b, id);
    hide Inv, SequenceOk, Listed;
    ApplyExtends(s, e);
    SameStepsOf(s, s2, s.steps[id].workerId);
    StaysListed(s, s2, s.steps[id].workerId, s.jobs[job].allStepIds);
    forall d | d in s2.calls
      ensures Unfinished(s2, d, job)
    {
      if d in s.calls { assert Unfinished(s, d, job); }
      if e.Create? && d == e.call { NotYetCreated(s, b, e.workerId, id); }
    }
  }

  lemma NotYetCreated(s: State, b: Book, w: SequenceId, id: StepId)
    requires Inv(s, b) && w !in s.created && id in s.steps
    ensures s.steps[id].workerId != w
  {
    assert Belongs(s.steps, b, id);
  }

  lemma CommandJobs(s: State, e: Event)
    requires Enabled(s, e) && !e.Act?
    ensures Apply(s, e).jobs == s.jobs
  {
  }

  lemma {:induction false} PayloadRun(es: seq<Event>, job: JobId)
    requires Legal(EMPTY, es) && job in Exec(EMPTY, es).jobs
    ensures PayloadOk(Exec(EMPTY, es), job)
  {
    hide Enabled, Apply, PayloadOk;
    if es != [] {
      var n := |es| - 1;
      var s := Exec(EMPTY, es[..n]);
      var b := KeepRun(es[..n]);
      if job in s.jobs { PayloadRun(es[..n], job); }
      hide Inv, Legal, Exec;
      EventPayload(s, b, es[n], job);
    }
  }

  lemma EventPayload(s: State, b: Book, e: Event, job: JobId)
    requires Inv(s, b) && Enabled(s, e) && job in Apply(s, e).jobs && (job in s.jobs ==> PayloadOk(s, job))
    ensures PayloadOk(Apply(s, e), job)
  {
    hide Inv, PayloadOk, ApplyAct, CanAct;
    if e.Act? {
      ActPayload(s, b, e.call, e.input, job);
    } else {
      CommandJobs(s, e);
      CommandPayload(s, b, e, job);
    }
  }

  /** In every run the payload of every job names an existing step and lists exactly its sequence, in order. */
  lemma PayloadsListSequences(es: seq<Event>, job: JobId)
    requires Legal(EMPTY, es) && job in Exec(EMPTY, es).jobs
    ensures PayloadNames(Exec(EMPTY, es), job) && PayloadLists(Exec(EMPTY, es), job)
  {
    PayloadRun(es, job);
    hide Exec, Legal, PayloadLists, PayloadNames, Unfinished;
  }
}
