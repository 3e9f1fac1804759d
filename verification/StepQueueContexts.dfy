/** Handler contexts tell the truth. */
module StepQueueContexts {
  import opened Wrappers
  import opened StepQueueModel
  import opened StepQueueTally
  import opened StepQueueInvariant
  import opened StepQueueFrame
  import opened StepQueueSequence
  import opened StepQueueSafety
  import opened StepQueueTrace
  import opened StepQueueRuns

  // ---------------------------------------------------------------- handler contexts

  /** Every handler was told its step's stored number and the number of steps of its sequence. */
  ghost predicate Truthful(s: State)
  {
    forall j :: 0 <= j < |s.log| && s.log[j].deed.Entered? ==>
      && s.log[j].deed.currentStepNumber == s.log[j].stepNumber
      && s.log[j].deed.totalSteps == |StepsOf(s.steps, s.log[j].workerId)|
  }

  /** The same rows, and no handler entered. */
  ghost predicate Uneventful(s: State, s2: State)
  {
    && s2.steps.Keys == s.steps.Keys
    && (forall id :: id in s.steps ==> s2.steps[id].workerId == s.steps[id].workerId)
    && (s2.log == s.log ||
        (|s2.log| == |s.log| + 1 && s2.log[..|s.log|] == s.log && !s2.log[|s.log|].deed.Entered?))
  }

  lemma UneventfulTruth(s: State, s2: State)
    requires Truthful(s) && Uneventful(s, s2)
    ensures Truthful(s2)
  {
    forall w
      ensures StepsOf(s2.steps, w) == StepsOf(s.steps, w)
    {
    }
    forall j | 0 <= j < |s2.log| && s2.log[j].deed.Entered?
      ensures s2.log[j].deed.currentStepNumber == s2.log[j].stepNumber
      ensures s2.log[j].deed.totalSteps == |StepsOf(s2.steps, s2.log[j].workerId)|
    {
      assert j < |s.log| && s2.log[j] == s2.log[..|s.log|][j];
    }
  }

  lemma {:induction false} SizeOf(ids: seq<StepId>, set_: set<StepId>)
    requires forall i, j :: 0 <= i < j < |ids| ==> ids[i] != ids[j]
    requires forall x :: x in set_ <==> x in ids
    ensures |set_| == |ids|
  {
    if ids == [] {
      assert set_ == {};
    } else {
      var last := ids[|ids| - 1];
      assert last in set_ && last !in ids[..|ids| - 1];
      assert ids == ids[..|ids| - 1] + [last];
      SizeOf(ids[..|ids| - 1], set_ - {last});
    }
  }

  lemma SequenceSize(s: State, b: Book, w: SequenceId)
    requires Inv(s, b) && w in s.created
    ensures |StepsOf(s.steps, w)| == |b.order[w]|
  {
    assert BookedOk(s, b, w);
    StepsOfSequence(s, b, w);
    OrderExists(s.steps, b.order[w], s, w);
    hide Inv;
    SizeOf(b.order[w], StepsOf(s.steps, w));
  }

  lemma CallTruth(s: State, b: Book, c: CallId, i: Input)
    requires Inv(s, b) && Truthful(s) && CanAct(s, c, i) && s.calls[c].stage.Calling?
    ensures Truthful(ApplyAct(s, c, i))
  {
    hide Inv, SequenceOk, Truthful, PapersOk;
    Seated(s, b, c);
    var w := s.calls[c].workerId;
    SequenceSize(s, b, w);
    SeqCall(s, w, b.order[w], c, i);
    EntryTruth(s, c, i);
  }

  lemma EntryTruth(s: State, c: CallId, i: Input)
    requires Truthful(s) && CanAct(s, c, i) && s.calls[c].stage.Calling?
    requires var stage := s.calls[c].stage;
             && IndexOf(stage.stepIds, stage.stepId) + 1 == s.steps[stage.stepId].stepNumber
             && |stage.stepIds| == |StepsOf(s.steps, s.steps[stage.stepId].workerId)|
    ensures Truthful(ApplyAct(s, c, i))
  {
    hide StepsOf, IndexOf;
    assert ApplyAct(s, c, i).steps == s.steps;
  }

  lemma InsertTruth(s: State, b: Book, c: CallId, i: Input)
    requires Inv(s, b) && Truthful(s) && CanAct(s, c, i) && s.calls[c].stage.Inserting?
    ensures Truthful(ApplyAct(s, c, i))
  {
    Seated(s, b, c);
    hide Inv;
    var w := s.calls[c].workerId;
    assert SequenceOk(s, w, b.order[w], Held(c));
    Silent(s.log, w);
    hide SequenceOk;
    var s2 := ApplyAct(s, c, i);
    forall w' | w' != w
      ensures StepsOf(s2.steps, w') == StepsOf(s.steps, w')
    {
    }
  }

  lemma KeepTruth(s: State, b: Book, e: Event)
    requires Inv(s, b) && Truthful(s) && Enabled(s, e)
    ensures Truthful(Apply(s, e))
  {
    hide Inv;
    hide Truthful;
    match e
    case Act(c, i) =>
      if s.calls[c].stage.Inserting? {
        InsertTruth(s, b, c, i);
      } else if s.calls[c].stage.Calling? {
        CallTruth(s, b, c, i);
      } else {
        ActUneventful(s, c, i);
        UneventfulTruth(s, ApplyAct(s, c, i));
      }
    case Register(_) => UneventfulTruth(s, Apply(s, e));
    case Create(_, _, _) => UneventfulTruth(s, Apply(s, e));
    case Deliver(_, _) => UneventfulTruth(s, Apply(s, e));
    case Retry(_, _) => UneventfulTruth(s, Apply(s, e));
  }

  lemma ActUneventful(s: State, c: CallId, i: Input)
    requires CanAct(s, c, i) && !s.calls[c].stage.Inserting? && !s.calls[c].stage.Calling?
    ensures Uneventful(s, ApplyAct(s, c, i))
  {
  }

  lemma {:induction false} ContextsTruthful(es: seq<Event>) returns (b: Book)
    requires Legal(EMPTY, es)
    ensures Inv(Exec(EMPTY, es), b) && Truthful(Exec(EMPTY, es))
  {
    if es == [] {
      InitInv();
      b := Book(map[], map[]);
    } else {
      var s := Exec(EMPTY, es[..|es| - 1]);
      var prior := ContextsTruthful(es[..|es| - 1]);
      hide Inv;
      KeepTruth(s, prior, es[|es| - 1]);
      b := KeepEvent(s, prior, es[|es| - 1]);
    }
  }

  /** In every run each handler is told the stored number of its step and the size of its sequence. */
  lemma HandlerContext(es: seq<Event>, j: nat)
    requires Legal(EMPTY, es) && j < |Exec(EMPTY, es).log| && Exec(EMPTY, es).log[j].deed.Entered?
    ensures var s := Exec(EMPTY, es);
            var e := s.log[j];
            && e.deed.currentStepNumber == e.stepNumber
            && e.deed.totalSteps == |StepsOf(s.steps, e.workerId)|
            && 1 <= e.deed.currentStepNumber <= e.deed.totalSteps
  {
    var b := ContextsTruthful(es);
    var s := Exec(EMPTY, es);
    var w := s.log[j].workerId;
    SequenceSize(s, b, w);
    EntryInRange(s, b, j);
  }

  lemma EntryInRange(s: State, b: Book, j: nat)
    requires Inv(s, b) && j < |s.log| && s.log[j].deed.Entered?
    ensures 1 <= s.log[j].stepNumber <= |b.order[s.log[j].workerId]|
  {
    var w := s.log[j].workerId;
    assert BookedOk(s, b, w);
    Was(s.log, w, j);
    ReachGrows(s.log, w, j + 1);
    Ledger(s.log, w);
    hide Inv;
    ReachInRange(s, w, b.order[w], b.seat[w]);
    var t := TallyOf(s.log, w);
    if t.phase == Ready && t.armed == 0 && t.down == 0 {
      Silent(s.log, w);
    }
  }

  lemma ReachInRange(s: State, w: SequenceId, ids: seq<StepId>, seat: Seat)
    requires SequenceOk(s, w, ids, seat)
    ensures var t := TallyOf(s.log, w);
            Reach(t) <= |ids| || (t.phase == Ready && t.armed == 0 && t.down == 0)
  {
  }
}
