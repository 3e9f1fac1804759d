/** What an event may touch: one step's row, jobs and calls, and nothing of any other sequence. */
module StepQueueIsolation {
  import opened Wrappers
  import opened StepQueueModel
  import opened StepQueueTally
  import opened StepQueueInvariant
  import opened StepQueueSequence
  import opened StepQueueSafety
  import opened StepQueueRuns
  import opened StepQueueReach

  /** The step whose execution a call is in the middle of, from the claim of its job to the end of its catch block. */
  function Owner(stage: Stage): Option<StepId>
  {
    match stage
    case Calling(id, _, _) => Some(id)
    case Running(id, _, _) => Some(id)
    case Finishing(id, _, _) => Some(id)
    case Closing(id, _, _) => Some(id)
    case Advancing(owner, _) => owner
    case Drafting(owner, _, _) => owner
    case Linking(owner, _, _, _) => owner
    case Sending(owner, _, _, _) => owner
    case Failing(id, _) => Some(id)
    case Tracing(id) => Some(id)
    case Voiding(id, _) => Some(id)
    case _ => None
  }

  /** The call executes step `id`, or is about to link a new job to it. */
  predicate Watched(stage: Stage, id: StepId)
  {
    Owner(stage) == Some(id) || (stage.Linking? && stage.next == id)
  }

  /** The next action of a call at `stage` may touch step `id`. */
  predicate Touches(stage: Stage, i: Input, id: StepId)
  {
    match stage
    case Inserting(kinds, ids) => |ids| < |kinds| && i.id == id
    case Starting(x, _) => x == id
    case Fetching(x, _) => x == id
    case Claiming(x, _, _) => x == id
    case Drafting(owner, _, next) => owner == Some(id) || next == id
    case _ => Watched(stage, id)
  }

  /** The job a call writes is a job of its step. */
  predicate JobNames(s: State, stage: Stage)
  {
    match stage
    case Claiming(id, _, job) => job in s.jobs && s.jobs[job].stepId == id
    case Closing(id, _, job) => job in s.jobs && s.jobs[job].stepId == id
    case Linking(_, _, next, job) => job in s.jobs && s.jobs[job].stepId == next
    case Voiding(id, job) => job in s.jobs && s.jobs[job].stepId == id
    case _ => true
  }

  /** Step `id` and its jobs are the same in both states. */
  ghost predicate SameTables(s: State, s2: State, id: StepId)
  {
    && (id in s.steps <==> id in s2.steps) && (id in s.steps ==> s2.steps[id] == s.steps[id])
    && (forall j :: j in s.jobs && s.jobs[j].stepId == id ==> j in s2.jobs && s2.jobs[j] == s.jobs[j])
    && (forall j :: j in s2.jobs && s2.jobs[j].stepId == id ==> j in s.jobs && s2.jobs[j] == s.jobs[j])
  }

  /** So are the calls that watch it. */
  ghost predicate SameCalls(s: State, s2: State, id: StepId)
  {
    && (forall d :: d in s.calls && Watched(s.calls[d].stage, id) ==> d in s2.calls && s2.calls[d] == s.calls[d])
    && (forall d :: d in s2.calls && Watched(s2.calls[d].stage, id) ==> d in s.calls && s2.calls[d] == s.calls[d])
  }

  ghost predicate Leaves(s: State, s2: State, id: StepId)
  {
    SameTables(s, s2, id) && SameCalls(s, s2, id)
  }

  lemma QueueingTables(s: State, c: CallId, i: Input, id: StepId)
    requires CanAct(s, c, i) && Queueing(s.calls[c].stage) && JobNames(s, s.calls[c].stage)
    requires !Touches(s.calls[c].stage, i, id)
    ensures SameTables(s, ApplyAct(s, c, i), id)
  {
    hide NextPending, IsOrdered, Among;
  }

  lemma EarlyTables(s: State, c: CallId, i: Input, id: StepId)
    requires CanAct(s, c, i) && Early(s.calls[c].stage) && JobNames(s, s.calls[c].stage)
    requires !Touches(s.calls[c].stage, i, id)
    ensures SameTables(s, ApplyAct(s, c, i), id)
  {
    hide NextPending, IndexOf, IsOrdered, Among, StepsOf;
  }

  lemma LateTables(s: State, c: CallId, i: Input, id: StepId)
    requires CanAct(s, c, i) && !Queueing(s.calls[c].stage) && !Early(s.calls[c].stage)
    requires JobNames(s, s.calls[c].stage) && !Touches(s.calls[c].stage, i, id)
    ensures SameTables(s, ApplyAct(s, c, i), id)
  {
    hide NextPending, IndexOf, IsOrdered, Among, StepsOf;
  }

  lemma ActTables(s: State, c: CallId, i: Input, id: StepId)
    requires CanAct(s, c, i) && JobNames(s, s.calls[c].stage) && !Touches(s.calls[c].stage, i, id)
    ensures SameTables(s, ApplyAct(s, c, i), id)
  {
    hide ApplyAct, Queueing, Early, Touches, SameTables, JobNames;
    if Queueing(s.calls[c].stage) {
      QueueingTables(s, c, i, id);
    } else if Early(s.calls[c].stage) {
      EarlyTables(s, c, i, id);
    } else {
      LateTables(s, c, i, id);
    }
  }

  /** An action that does not touch a step leaves its call unconcerned with it. */
  lemma StillUnwatched(s: State, c: CallId, i: Input, id: StepId)
    requires CanAct(s, c, i) && !Touches(s.calls[c].stage, i, id)
    ensures !Watched(s.calls[c].stage, id)
    ensures var s2 := ApplyAct(s, c, i);
            s2.calls.Keys <= s.calls.Keys && (c in s2.calls ==> !Watched(s2.calls[c].stage, id))
  {
    hide ApplyAct, CanAct, Queueing, Early, Touches, Watched;
    Acts(s, c, i);
    WatchedIsTouched(s.calls[c].stage, i, id);
    if Queueing(s.calls[c].stage) {
      QueueingUnwatched(s, c, i, id);
    } else if Early(s.calls[c].stage) {
      EarlyUnwatched(s, c, i, id);
    } else {
      LateUnwatched(s, c, i, id);
    }
  }

  lemma QueueingUnwatched(s: State, c: CallId, i: Input, id: StepId)
    requires CanAct(s, c, i) && Queueing(s.calls[c].stage) && !Touches(s.calls[c].stage, i, id)
    ensures var s2 := ApplyAct(s, c, i);
            s2.calls.Keys <= s.calls.Keys && (c in s2.calls ==> !Watched(s2.calls[c].stage, id))
  {
    hide NextPending, IsOrdered, Among;
  }

  lemma WatchedIsTouched(stage: Stage, i: Input, id: StepId)
    ensures Watched(stage, id) ==> Touches(stage, i, id)
  {
  }

  lemma EarlyUnwatched(s: State, c: CallId, i: Input, id: StepId)
    requires CanAct(s, c, i) && Early(s.calls[c].stage) && !Touches(s.calls[c].stage, i, id)
    ensures var s2 := ApplyAct(s, c, i);
            s2.calls.Keys <= s.calls.Keys && (c in s2.calls ==> !Watched(s2.calls[c].stage, id))
  {
    hide NextPending, IndexOf, IsOrdered, Among, StepsOf;
  }

  lemma LateUnwatched(s: State, c: CallId, i: Input, id: StepId)
    requires CanAct(s, c, i) && !Queueing(s.calls[c].stage) && !Early(s.calls[c].stage)
    requires !Touches(s.calls[c].stage, i, id)
    ensures var s2 := ApplyAct(s, c, i);
            s2.calls.Keys <= s.calls.Keys && (c in s2.calls ==> !Watched(s2.calls[c].stage, id))
  {
    hide NextPending, IndexOf, IsOrdered, Among, StepsOf;
  }

  lemma ActCalls(s: State, c: CallId, i: Input, id: StepId)
    requires CanAct(s, c, i) && !Touches(s.calls[c].stage, i, id)
    ensures SameCalls(s, ApplyAct(s, c, i), id)
  {
    hide ApplyAct, Touches, Watched;
    StillUnwatched(s, c, i, id);
    forall d | d in s.calls && d != c
      ensures d in ApplyAct(s, c, i).calls && ApplyAct(s, c, i).calls[d] == s.calls[d]
    {
      ActLeavesOthers(s, c, i, d);
    }
  }

  /** The steps a call touches or sends are steps of sequence `w`. */
  ghost predicate Owned(s: State, stage: Stage, w: SequenceId)
  {
    && (forall i, id :: Touches(stage, i, id) && !stage.Inserting? ==> id in s.steps && s.steps[id].workerId == w)
    && (stage.Sending? ==> stage.next in s.steps && s.steps[stage.next].workerId == w)
  }

  lemma NamedToken(s: State, w: SequenceId, ids: seq<StepId>, c: CallId)
    requires SequenceOk(s, w, ids, Held(c)) && PapersOk(s, s.calls[c])
    ensures JobNames(s, s.calls[c].stage) && Owned(s, s.calls[c].stage, w)
  {
    var t := TallyOf(s.log, w);
    if t.k < |ids| {
      assert RowAt(s, ids, w, t.k);
    }
    if Cursor(t) < |ids| {
      assert RowAt(s, ids, w, Cursor(t));
    }
  }

  /** What a call touches belongs to its sequence. */
  lemma Named(s: State, b: Book, c: CallId)
    requires Inv(s, b) && c in s.calls
    ensures JobNames(s, s.calls[c].stage) && Owned(s, s.calls[c].stage, s.calls[c].workerId)
  {
    hide Inv, SequenceOk;
    Seated(s, b, c);
    if Token(s.calls[c].stage) {
      NamedToken(s, s.calls[c].workerId, b.order[s.calls[c].workerId], c);
    }
  }

  lemma ActLeaves(s: State, b: Book, c: CallId, i: Input, id: StepId)
    requires Inv(s, b) && CanAct(s, c, i) && !Touches(s.calls[c].stage, i, id)
    ensures Leaves(s, ApplyAct(s, c, i), id)
  {
    hide Inv, ApplyAct, Touches, SameTables, SameCalls, JobNames;
    Named(s, b, c);
    ActTables(s, c, i, id);
    ActCalls(s, c, i, id);
  }

  /** The event may touch step `id`. */
  predicate EventTouches(s: State, e: Event, id: StepId)
    requires Enabled(s, e)
  {
    match e
    case Retry(_, x) => x == id
    case Act(c, i) => Touches(s.calls[c].stage, i, id)
    case _ => false
  }

  lemma EventLeaves(s: State, b: Book, e: Event, id: StepId)
    requires Inv(s, b) && Enabled(s, e) && !EventTouches(s, e, id)
    ensures Leaves(s, Apply(s, e), id)
  {
    hide Inv, CanAct, ApplyAct, Touches;
    if e.Act? {
      ActLeaves(s, b, e.call, e.input, id);
    }
  }

  // ---------------------------------------------------------------- sequences do not disturb each other

  /** The sequence an event works on. */
  function SequenceOf(s: State, e: Event): Option<SequenceId>
    requires Enabled(s, e)
  {
    match e
    case Register(_) => None
    case Create(_, w, _) => Some(w)
    case Deliver(_, m) => Some(s.steps[m.stepId].workerId)
    case Retry(_, id) => Some(s.steps[id].workerId)
    case Act(c, _) => Some(s.calls[c].workerId)
  }

  /** The history of one sequence. */
  function History(log: seq<Entry>, w: SequenceId): seq<Entry>
  {
    if log == [] then []
    else
      var e := log[|log| - 1];
      History(log[..|log| - 1], w) + if e.workerId == w then [e] else []
  }

  /** The rows, jobs and history of sequence `w` are the same in both states. */
  ghost predicate Apart(s: State, s2: State, w: SequenceId)
  {
    && StepsOf(s2.steps, w) == StepsOf(s.steps, w)
    && (forall id :: id in StepsOf(s.steps, w) ==> s2.steps[id] == s.steps[id])
    && (forall j :: j in s.jobs && s.jobs[j].stepId in StepsOf(s.steps, w) ==> j in s2.jobs && s2.jobs[j] == s.jobs[j])
    && (forall j :: j in s2.jobs && s2.jobs[j].stepId in StepsOf(s.steps, w) ==> j in s.jobs && s2.jobs[j] == s.jobs[j])
    && History(s2.log, w) == History(s.log, w)
  }

  lemma HistoryNote(log: seq<Entry>, e: Entry, w: SequenceId)
    ensures History(log + [e], w) == History(log, w) + if e.workerId == w then [e] else []
  {
    assert (log + [e])[..|log|] == log;
  }

  /** What an action notes concerns its own sequence, and the row it inserts is its own. */
  ghost predicate OwnWork(s: State, s2: State, w: SequenceId)
  {
    && s.log <= s2.log && |s2.log| <= |s.log| + 1 && (|s2.log| > |s.log| ==> s2.log[|s.log|].workerId == w)
    && forall id :: id in s2.steps && id !in s.steps ==> s2.steps[id].workerId == w
  }

  lemma QueueingOwn(s: State, c: CallId, i: Input)
    requires CanAct(s, c, i) && Queueing(s.calls[c].stage) && Owned(s, s.calls[c].stage, s.calls[c].workerId)
    ensures OwnWork(s, ApplyAct(s, c, i), s.calls[c].workerId)
  {
    hide NextPending, IsOrdered, Among;
    var stage := s.calls[c].stage;
    assert stage.Sending? && stage.owner.Some? ==> Touches(stage, i, stage.owner.value);
  }

  lemma ExecutingOwn(s: State, c: CallId, i: Input)
    requires CanAct(s, c, i) && !Queueing(s.calls[c].stage) && Owned(s, s.calls[c].stage, s.calls[c].workerId)
    ensures OwnWork(s, ApplyAct(s, c, i), s.calls[c].workerId)
  {
    hide NextPending, IndexOf, IsOrdered, Among, StepsOf;
    var stage := s.calls[c].stage;
    if stage.Starting? || stage.Calling? || stage.Running? {
      assert Touches(stage, i, stage.stepId);
    }
  }

  lemma EventOwn(s: State, b: Book, e: Event)
    requires Inv(s, b) && Enabled(s, e) && SequenceOf(s, e).Some?
    ensures OwnWork(s, Apply(s, e), SequenceOf(s, e).value)
  {
    hide Inv, Owned, ApplyAct, CanAct;
    if e.Act? {
      assert CanAct(s, e.call, e.input);
      Acts(s, e.call, e.input);
      Named(s, b, e.call);
      if Queueing(s.calls[e.call].stage) {
        QueueingOwn(s, e.call, e.input);
      } else {
        ExecutingOwn(s, e.call, e.input);
      }
    }
  }

  lemma Acts(s: State, c: CallId, i: Input)
    requires CanAct(s, c, i)
    ensures c in s.calls
  {
  }

  /** An event of another sequence touches no step of `w`. */
  lemma ElsewhereTouchesNothing(s: State, b: Book, e: Event, w: SequenceId, id: StepId)
    requires Inv(s, b) && Enabled(s, e) && SequenceOf(s, e) != Some(w)
    requires id in s.steps && s.steps[id].workerId == w
    ensures !EventTouches(s, e, id)
  {
    hide Inv, JobNames, Touches;
    if e.Act? {
      Named(s, b, e.call);
      if s.calls[e.call].stage.Inserting? {
        NewRow(s, e, id);
      }
    }
  }

  lemma NewRow(s: State, e: Event, id: StepId)
    requires e.Act? && CanAct(s, e.call, e.input) && s.calls[e.call].stage.Inserting? && id in s.steps
    ensures !Touches(s.calls[e.call].stage, e.input, id)
  {
  }

  lemma HistoryGrows(s: State, s2: State, v: SequenceId, w: SequenceId)
    requires OwnWork(s, s2, v) && v != w
    ensures History(s2.log, w) == History(s.log, w)
  {
    if |s2.log| > |s.log| {
      assert s2.log == s.log + [s2.log[|s.log|]];
      HistoryNote(s.log, s2.log[|s.log|], w);
    } else {
      assert s2.log == s.log;
    }
  }

  lemma SameSteps(s: State, s2: State, v: SequenceId, w: SequenceId)
    requires Extends(s, s2) && OwnWork(s, s2, v) && v != w
    ensures StepsOf(s2.steps, w) == StepsOf(s.steps, w)
  {
    forall id | id in s.steps
      ensures s2.steps[id].workerId == s.steps[id].workerId
    {
      assert SameStep(s.steps[id], s2.steps[id]);
    }
  }

  lemma ApartBy(s: State, s2: State, w: SequenceId)
    requires StepsOf(s2.steps, w) == StepsOf(s.steps, w) && History(s2.log, w) == History(s.log, w)
    requires forall id :: id in StepsOf(s.steps, w) ==> SameTables(s, s2, id)
    ensures Apart(s, s2, w)
  {
    hide History;
    forall j | j in s.jobs && s.jobs[j].stepId in StepsOf(s.steps, w)
      ensures j in s2.jobs && s2.jobs[j] == s.jobs[j]
    {
      assert SameTables(s, s2, s.jobs[j].stepId);
    }
    forall j | j in s2.jobs && s2.jobs[j].stepId in StepsOf(s.steps, w)
      ensures j in s.jobs && s2.jobs[j] == s.jobs[j]
    {
      assert SameTables(s, s2, s2.jobs[j].stepId);
    }
  }

  /** An event of one sequence changes no row, no job and no history of another. */
  lemma EventApart(s: State, b: Book, e: Event, w: SequenceId)
    requires Inv(s, b) && Enabled(s, e) && SequenceOf(s, e) != Some(w)
    ensures Apart(s, Apply(s, e), w)
  {
    hide *;
    var s2 := Apply(s, e);
    if SequenceOf(s, e).Some? {
      ApplyExtends(s, e);
      EventOwn(s, b, e);
      SameSteps(s, s2, SequenceOf(s, e).value, w);
      HistoryGrows(s, s2, SequenceOf(s, e).value, w);
    } else {
      RegisterChangesNothing(s, e);
    }
    forall id | id in StepsOf(s.steps, w)
      ensures SameTables(s, s2, id)
    {
      ElsewhereUntouched(s, b, e, w, id);
    }
    ApartBy(s, s2, w);
  }

  lemma ElsewhereUntouched(s: State, b: Book, e: Event, w: SequenceId, id: StepId)
    requires Inv(s, b) && Enabled(s, e) && SequenceOf(s, e) != Some(w) && id in StepsOf(s.steps, w)
    ensures SameTables(s, Apply(s, e), id)
  {
    hide Inv, Enabled, Apply, EventTouches, SequenceOf, SameTables, SameCalls;
    ElsewhereTouchesNothing(s, b, e, w, id);
    EventLeaves(s, b, e, id);
  }

  lemma ApartThrough(s: State, s2: State, s3: State, w: SequenceId)
    requires Apart(s, s2, w) && Apart(s2, s3, w)
    ensures Apart(s, s3, w)
  {
    hide History;
  }

  lemma RegisterChangesNothing(s: State, e: Event)
    requires Enabled(s, e) && SequenceOf(s, e).None?
    ensures Apply(s, e).log == s.log && Apply(s, e).steps == s.steps
  {
  }

  /** None of the events works on `w`. */
  ghost predicate Elsewhere(s: State, es: seq<Event>, w: SequenceId)
    requires Legal(s, es)
  {
    es == [] || (Elsewhere(s, es[..|es| - 1], w) && SequenceOf(Exec(s, es[..|es| - 1]), es[|es| - 1]) != Some(w))
  }

  /** Whatever runs elsewhere, the rows, jobs and history of a sequence stay as they are. */
  lemma {:induction false} Isolation(es: seq<Event>, es2: seq<Event>, w: SequenceId)
    requires Legal(EMPTY, es) && Legal(Exec(EMPTY, es), es2) && Elsewhere(Exec(EMPTY, es), es2, w)
    ensures Apart(Exec(EMPTY, es), Exec(Exec(EMPTY, es), es2), w)
  {
    hide Enabled, Apply, SequenceOf, Inv, History, StepsOf;
    if es2 != [] {
      var n := |es2| - 1;
      var s, s2 := Exec(EMPTY, es), Exec(Exec(EMPTY, es), es2[..n]);
      Isolation(es, es2[..n], w);
      RunsCompose(EMPTY, es, es2[..n]);
      var b := KeepRun(es + es2[..n]);
      hide Apart;
      EventApart(s2, b, es2[n], w);
      ApartThrough(s, s2, Apply(s2, es2[n]), w);
    }
  }
}
