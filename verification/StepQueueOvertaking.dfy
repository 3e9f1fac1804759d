/** A retry can leave a COMPLETED step with a FAILED job exactly when a catch block of that step is still under way. */
module StepQueueOvertaking {
  import opened Wrappers
  import opened StepQueueModel
  import opened StepQueueTally
  import opened StepQueueInvariant
  import opened StepQueueSequence
  import opened StepQueueSafety
  import opened StepQueueRuns
  import opened StepQueueReach
  import opened StepQueueIsolation
  import opened StepQueueJobs
  import opened StepQueueAgreement

  /** The step is COMPLETED, its job FAILED, and nobody is at work on its sequence. */
  ghost predicate Contradicts(s: State, id: StepId)
  {
    && id in s.steps && s.steps[id].status == Completed && JobStatus(s, id) == Some(Failed)
    && Unmanned(s, s.steps[id].workerId)
  }

  ghost predicate Unmanned(s: State, w: SequenceId)
  {
    forall c :: c in s.calls && s.calls[c].workerId == w ==> !Token(s.calls[c].stage)
  }

  predicate NoRetry(es: seq<Event>, id: StepId)
  {
    forall i :: 0 <= i < |es| ==> !(es[i].Retry? && es[i].stepId == id)
  }

  /** After the retry some run, with no further retry of the step, ends in a contradiction. */
  ghost predicate Overtakes(s: State, c: CallId, id: StepId)
    requires Enabled(s, Retry(c, id))
  {
    exists s2 :: Onward(Apply(s, Retry(c, id)), s2, id) && Contradicts(s2, id)
  }

  /** Some run without a retry of `id` leads from `s` to `s2`. */
  ghost predicate Onward(s: State, s2: State, id: StepId)
  {
    exists es :: Legal(s, es) && NoRetry(es, id) && Exec(s, es) == s2
  }

  lemma OnwardNowhere(s: State, id: StepId)
    ensures Onward(s, s, id)
  {
    assert Legal(s, []) && NoRetry([], id) && Exec(s, []) == s;
  }

  lemma OnwardOn(s: State, s2: State, e: Event, id: StepId)
    requires Onward(s, s2, id) && Enabled(s2, e) && !e.Retry?
    ensures Onward(s, Apply(s2, e), id)
  {
    var es :| Legal(s, es) && NoRetry(es, id) && Exec(s, es) == s2;
    assert (es + [e])[..|es|] == es;
    assert Legal(s, es + [e]) && NoRetry(es + [e], id) && Exec(s, es + [e]) == Apply(s2, e);
  }

  // ---------------------------------------------------------------- a retry in time is safe

  lemma {:induction false} AgreesOnward(es: seq<Event>, es2: seq<Event>, id: StepId)
    requires Legal(EMPTY, es) && id in Exec(EMPTY, es).steps && Agrees(Exec(EMPTY, es), id)
    requires Legal(Exec(EMPTY, es), es2) && NoRetry(es2, id)
    ensures id in Exec(Exec(EMPTY, es), es2).steps && Agrees(Exec(Exec(EMPTY, es), es2), id)
  {
    hide Enabled, Apply, Agrees, Tailed;
    if es2 != [] {
      var n := |es2| - 1;
      var s := Exec(Exec(EMPTY, es), es2[..n]);
      AgreesOnward(es, es2[..n], id);
      RunsCompose(EMPTY, es, es2[..n]);
      var b := KeepRun(es + es2[..n]);
      hide Inv;
      ApplyExtends(s, es2[n]);
      EventAgrees(s, b, es2[n], id);
    }
  }

  /** Where statuses agree no contradiction can arise. */
  lemma AgreesNeverContradicts(s: State, b: Book, id: StepId)
    requires Inv(s, b) && id in s.steps && Agrees(s, id)
    ensures !Contradicts(s, id)
  {
    hide Inv;
    if s.steps[id].status == Completed && ClosingOn(s, id) {
      var c :| c in s.calls && s.calls[c].stage.Closing? && s.calls[c].stage.stepId == id;
      WatchesOwn(s, b, c, Input(true, 0, 0, []), id);
    }
  }

  lemma InTimeIsSafe(es: seq<Event>, c: CallId, id: StepId, s2: State)
    requires Legal(EMPTY, es) && Enabled(Exec(EMPTY, es), Retry(c, id)) && !Tailed(Exec(EMPTY, es), id)
    requires Onward(Apply(Exec(EMPTY, es), Retry(c, id)), s2, id)
    ensures !Contradicts(s2, id)
  {
    var s := Exec(EMPTY, es);
    var es1 := es + [Retry(c, id)];
    assert es1[..|es|] == es;
    assert Legal(EMPTY, es1) && Exec(EMPTY, es1) == Apply(s, Retry(c, id));
    var b := KeepRun(es);
    RetryAgrees(s, b, c, id);
    var es2 :| Legal(Exec(EMPTY, es1), es2) && NoRetry(es2, id) && Exec(Exec(EMPTY, es1), es2) == s2;
    hide Inv, Enabled, Apply, Agrees, Contradicts, NoRetry;
    ApplyExtends(s, Retry(c, id));
    hide Extends;
    AgreesOnward(es1, es2, id);
    RunsCompose(EMPTY, es1, es2);
    var b2 := KeepRun(es1 + es2);
    AgreesNeverContradicts(s2, b2, id);
  }

  // ---------------------------------------------------------------- a retry too early is not

  const ANY := Input(true, 0, 0, [])

  lemma TouchesAny(stage: Stage, i: Input, j: Input, id: StepId)
    requires Touches(stage, i, id) && !stage.Inserting?
    ensures Touches(stage, j, id)
  {
  }

  /** With success a running handler returns and a sent message is accepted. */
  predicate Succeeds(s: State, s2: State, c: CallId)
    requires c in s.calls
  {
    match s.calls[c].stage
    case Running(id, ids, job) => At(s2, c, Finishing(id, ids, job))
    case Sending(_, _, _, _) => c !in s2.calls
    case _ => true
  }

  lemma ActSucceeds(s: State, c: CallId, i: Input)
    requires CanAct(s, c, i) && i.ok && (s.calls[c].stage.Running? || s.calls[c].stage.Sending?)
    ensures Succeeds(s, ApplyAct(s, c, i), c)
  {
  }

  /** The handlers stay, and a call stays with its sequence. */
  predicate SameHands(s: State, s2: State, c: CallId)
    requires c in s.calls
  {
    s2.handlers == s.handlers && (c in s2.calls ==> s2.calls[c].workerId == s.calls[c].workerId)
  }

  lemma QueueingHandlers(s: State, c: CallId, i: Input)
    requires CanAct(s, c, i) && Queueing(s.calls[c].stage)
    ensures SameHands(s, ApplyAct(s, c, i), c)
  {
    hide NextPending, IsOrdered, Among;
  }

  lemma ExecutingHandlers(s: State, c: CallId, i: Input)
    requires CanAct(s, c, i) && !Queueing(s.calls[c].stage)
    ensures SameHands(s, ApplyAct(s, c, i), c)
  {
    hide NextPending, IndexOf, IsOrdered, Among, StepsOf;
  }

  /** Call `c` takes its next action, successfully, on the step it touches. */
  ghost predicate Took(s: State, s2: State, c: CallId, id: StepId)
  {
    && c in s.calls && id in s.steps && s.steps[id].workerId == s.calls[c].workerId
    && Poised(s, c, id) && Moved(s, s2, c, id) && OthersStay(s, s2, c) && Succeeds(s, s2, c)
    && SameHands(s, s2, c) && Extends(s, s2)
  }

  ghost predicate Driven(s0: State, s: State, id: StepId)
  {
    Reachable(s) && Onward(s0, s, id)
  }

  lemma Drive(s0: State, s: State, c: CallId, id: StepId) returns (s2: State)
    requires Driven(s0, s, id) && c in s.calls && Touches(s.calls[c].stage, ANY, id) && !s.calls[c].stage.Inserting?
    ensures Driven(s0, s2, id) && Took(s, s2, c, id)
  {
    var i := Able(s, c);
    s2 := ApplyAct(s, c, i);
    Enables(s, c, i);
    RanOn(EMPTY, s, Act(c, i));
    OnwardOn(s0, s, Act(c, i), id);
    var es :| Legal(EMPTY, es) && Exec(EMPTY, es) == s;
    var b := KeepRun(es);
    hide *;
    TouchesAny(s.calls[c].stage, ANY, i, id);
    ActMoves(s, b, c, i, id);
    ActOthersStay(s, c, i);
    ActExtends(s, c, i);
    DriveEffects(s, c, i);
    assert Took(s, s2, c, id) by { IsTaken(s, s2, c, id); }
  }

  lemma Enables(s: State, c: CallId, i: Input)
    requires CanAct(s, c, i)
    ensures Enabled(s, Act(c, i)) && Apply(s, Act(c, i)) == ApplyAct(s, c, i)
  {
  }

  lemma DriveEffects(s: State, c: CallId, i: Input)
    requires CanAct(s, c, i) && i.ok
    ensures c in s.calls && Succeeds(s, ApplyAct(s, c, i), c) && SameHands(s, ApplyAct(s, c, i), c)
  {
    hide CanAct, ApplyAct, Queueing;
    Acts(s, c, i);
    if s.calls[c].stage.Running? || s.calls[c].stage.Sending? {
      ActSucceeds(s, c, i);
    }
    if Queueing(s.calls[c].stage) {
      QueueingHandlers(s, c, i);
    } else {
      ExecutingHandlers(s, c, i);
    }
  }

  lemma IsTaken(s: State, s2: State, c: CallId, id: StepId)
    requires c in s.calls && id in s.steps && s.steps[id].workerId == s.calls[c].workerId
    requires Poised(s, c, id) && Moved(s, s2, c, id) && OthersStay(s, s2, c) && Succeeds(s, s2, c)
    requires SameHands(s, s2, c) && Extends(s, s2)
    ensures Took(s, s2, c, id)
  {
    hide Poised, Moved, OthersStay, Succeeds, Extends, SameHands;
  }

  /** The retrying call `c` and the late catch block `d` of step `id`, whose kind has a handler. */
  ghost predicate Racing(s0: State, s: State, c: CallId, d: CallId, id: StepId)
  {
    && Driven(s0, s, id) && c in s.calls && d in s.calls && c != d && Tail(s.calls[d].stage, id)
    && id in s.steps && s.steps[id].kind in s.handlers && s.calls[c].workerId == s.steps[id].workerId
  }

  /** The retrying call is executing the step, or handing over to the next. */
  predicate OnPath(stage: Stage, id: StepId)
  {
    match stage
    case Starting(x, _) => x == id
    case Fetching(x, _) => x == id
    case Claiming(x, _, _) => x == id
    case Failing(_, _) => false
    case Tracing(_) => false
    case Voiding(_, _) => false
    case _ => Owner(stage) == Some(id)
  }

  /** One successful action further along the path, or past its end with the step COMPLETED. */
  lemma PathOn(s: State, s2: State, c: CallId, id: StepId)
    requires Took(s, s2, c, id) && OnPath(s.calls[c].stage, id) && s.steps[id].kind in s.handlers
    ensures if c in s2.calls then OnPath(s2.calls[c].stage, id) && Distance(s2.calls[c].stage) < Distance(s.calls[c].stage)
            else id in s2.steps && s2.steps[id].status == Completed
  {
    hide EnteredEver, Extends, OthersStay;
  }

  lemma PathTouches(stage: Stage, id: StepId)
    requires OnPath(stage, id)
    ensures Touches(stage, ANY, id) && !stage.Inserting? && Token(stage)
  {
  }

  lemma StillRacing(s0: State, s: State, s2: State, c: CallId, d: CallId, id: StepId)
    requires Racing(s0, s, c, d, id) && Took(s, s2, c, id) && Driven(s0, s2, id) && OnPath(s.calls[c].stage, id)
    ensures d in s2.calls && s2.calls[d] == s.calls[d] && id in s2.steps && s2.steps[id].workerId == s.steps[id].workerId
    ensures c in s2.calls ==> Racing(s0, s2, c, d, id)
  {
    hide Poised, Driven, Succeeds;
    assert SameStep(s.steps[id], s2.steps[id]);
  }

  lemma NoneBeside(s: State, b: Book, c: CallId)
    requires Inv(s, b) && c in s.calls && Token(s.calls[c].stage)
    ensures forall d :: d in s.calls && d != c && s.calls[d].workerId == s.calls[c].workerId ==> !Token(s.calls[d].stage)
  {
    hide Inv, SequenceOk, PapersOk;
    Seated(s, b, c);
    forall d | d in s.calls && d != c && s.calls[d].workerId == s.calls[c].workerId
      ensures !Token(s.calls[d].stage)
    {
      Seated(s, b, d);
    }
  }

  /** Once the call at work has returned, nobody is at work on the sequence. */
  lemma LeftUnmanned(s: State, s2: State, c: CallId, id: StepId)
    requires Reachable(s) && Took(s, s2, c, id) && Token(s.calls[c].stage) && c !in s2.calls
    ensures id in s2.steps && Unmanned(s2, s2.steps[id].workerId)
  {
    var es :| Legal(EMPTY, es) && Exec(EMPTY, es) == s;
    var b := KeepRun(es);
    NoneBeside(s, b, c);
    hide Inv, Exec, Legal, Poised, Moved, Succeeds;
    assert SameStep(s.steps[id], s2.steps[id]);
  }

  /** Undisturbed and successful, the retrying call completes the step and returns, and the catch block is still there. */
  lemma {:induction false} Complete(s0: State, s: State, c: CallId, d: CallId, id: StepId) returns (s2: State)
    requires Racing(s0, s, c, d, id) && OnPath(s.calls[c].stage, id)
    ensures Driven(s0, s2, id) && d in s2.calls && s2.calls[d] == s.calls[d]
    ensures id in s2.steps && s2.steps[id].status == Completed && Unmanned(s2, s2.steps[id].workerId)
    decreases Distance(s.calls[c].stage)
  {
    hide Took, OnPath, Distance, Reachable, Onward, Touches, Unmanned;
    PathTouches(s.calls[c].stage, id);
    var s1 := Drive(s0, s, c, id);
    PathOn(s, s1, c, id);
    StillRacing(s0, s, s1, c, d, id);
    if c in s1.calls {
      s2 := Complete(s0, s1, c, d, id);
    } else {
      s2 := s1;
      LeftUnmanned(s, s1, c, id);
    }
  }

  /** The late catch block finishes: the job of the COMPLETED step is marked FAILED. */
  lemma {:induction false} Void(s0: State, s: State, d: CallId, id: StepId) returns (s2: State)
    requires Driven(s0, s, id) && d in s.calls && Tail(s.calls[d].stage, id)
    requires id in s.steps && s.steps[id].status == Completed && Unmanned(s, s.steps[id].workerId)
    ensures Driven(s0, s2, id) && Contradicts(s2, id)
    decreases Distance(s.calls[d].stage)
  {
    hide Reachable, Onward, Distance;
    var s1 := Drive(s0, s, d, id);
    TailOn(s, s1, d, id);
    if d in s1.calls {
      s2 := Void(s0, s1, d, id);
    } else {
      s2 := s1;
    }
  }

  lemma TailOn(s: State, s2: State, d: CallId, id: StepId)
    requires Reachable(s) && Took(s, s2, d, id) && Tail(s.calls[d].stage, id)
    requires s.steps[id].status == Completed && Unmanned(s, s.steps[id].workerId)
    ensures id in s2.steps && s2.steps[id].status == Completed && Unmanned(s2, s2.steps[id].workerId)
    ensures if d in s2.calls then Tail(s2.calls[d].stage, id) && Distance(s2.calls[d].stage) < Distance(s.calls[d].stage)
            else JobStatus(s2, id) == Some(Failed)
  {
    var es :| Legal(EMPTY, es) && Exec(EMPTY, es) == s;
    TrackedRun(es, id);
    assert TrackedCall(s, d, id);
    hide *;
    TailRow(s, s2, d, id);
    TailUnmanned(s, s2, d, id);
  }

  lemma TailRow(s: State, s2: State, d: CallId, id: StepId)
    requires Took(s, s2, d, id) && Tail(s.calls[d].stage, id) && TrackedCall(s, d, id)
    ensures id in s2.steps && s2.steps[id] == s.steps[id]
    ensures if d in s2.calls then Tail(s2.calls[d].stage, id) && Distance(s2.calls[d].stage) < Distance(s.calls[d].stage)
            else JobStatus(s2, id) == Some(Failed)
  {
    hide EnteredEver, Extends, OthersStay, SameHands;
  }

  lemma TailUnmanned(s: State, s2: State, d: CallId, id: StepId)
    requires Took(s, s2, d, id) && Tail(s.calls[d].stage, id) && Unmanned(s, s.steps[id].workerId)
    ensures Unmanned(s2, s.steps[id].workerId)
  {
    hide EnteredEver, Extends, JobStatus;
  }

  /** From the reset on, the retrying call finds the step again and starts it. */
  lemma Approach(s0: State, s: State, c: CallId, d: CallId, id: StepId) returns (s2: State)
    requires Racing(s0, s, c, d, id)
    requires s.calls[c].stage == Listing(id) || (s.calls[c].stage.Selecting? && s.calls[c].stage.stepId == id)
    ensures Racing(s0, s2, c, d, id)
    ensures s2.calls[c].stage.Selecting? || s2.calls[c].stage.Starting?
    ensures s2.calls[c].stage.stepId == id && (s.calls[c].stage.Selecting? ==> s2.calls[c].stage.Starting?)
  {
    hide Reachable, Onward, CanAct, ApplyAct, Inv, Exec, Legal, Enabled, Apply, Goto;
    var i := Able(s, c);
    s2 := ApplyAct(s, c, i);
    DrivenOn(s0, s, c, i, id);
    Approaches(s, c, i, id);
    var stage :| s2 == Goto(s, c, stage) && (stage.Selecting? || stage.Starting?)
                 && stage.stepId == id && (s.calls[c].stage.Selecting? ==> stage.Starting?);
    GoneTo(s0, s, s2, c, d, id, stage);
  }

  lemma DrivenOn(s0: State, s: State, c: CallId, i: Input, id: StepId)
    requires Driven(s0, s, id) && CanAct(s, c, i)
    ensures Driven(s0, ApplyAct(s, c, i), id)
  {
    hide CanAct, ApplyAct, Reachable, Onward;
    Enables(s, c, i);
    OnwardOn(s0, s, Act(c, i), id);
    StillReachable(s, Act(c, i));
  }

  lemma StillReachable(s: State, e: Event)
    requires Reachable(s) && Enabled(s, e)
    ensures Reachable(Apply(s, e))
  {
    hide Enabled, Apply, Ran;
    RanOn(EMPTY, s, e);
  }

  lemma GoneTo(s0: State, s: State, s2: State, c: CallId, d: CallId, id: StepId, stage: Stage)
    requires Racing(s0, s, c, d, id) && s2 == Goto(s, c, stage) && Driven(s0, s2, id)
    ensures Racing(s0, s2, c, d, id) && s2.calls[c].stage == stage
  {
    hide Driven;
  }

  lemma Approaches(s: State, c: CallId, i: Input, id: StepId)
    requires Reachable(s) && CanAct(s, c, i)
    requires s.calls[c].stage == Listing(id) || (s.calls[c].stage.Selecting? && s.calls[c].stage.stepId == id)
    ensures exists stage :: ApplyAct(s, c, i) == Goto(s, c, stage) && (stage.Selecting? || stage.Starting?)
              && stage.stepId == id && (s.calls[c].stage.Selecting? ==> stage.Starting?)
  {
    var es :| Legal(EMPTY, es) && Exec(EMPTY, es) == s;
    var b := KeepRun(es);
    var w := s.calls[c].workerId;
    hide Exec, Legal, Inv, SequenceOk, IsOrdered, StepsOf, Among;
    Seated(s, b, c);
    StepsOfSequence(s, b, w);
    SeqApproach(s, w, b.order[w], c, i);
  }

  lemma Registered(s0: State, s: State, c: CallId, d: CallId, id: StepId) returns (s2: State)
    requires Driven(s0, s, id) && c in s.calls && d in s.calls && c != d && Tail(s.calls[d].stage, id)
    requires id in s.steps && s.calls[c].workerId == s.steps[id].workerId
    ensures Racing(s0, s2, c, d, id) && s2.calls == s.calls
  {
    var e := Register(s.steps[id].kind);
    s2 := Apply(s, e);
    RanOn(EMPTY, s, e);
    OnwardOn(s0, s, e, id);
  }

  lemma Overtake(s0: State, s: State, c: CallId, d: CallId, id: StepId) returns (s2: State)
    requires Driven(s0, s, id) && c in s.calls && d in s.calls && c != d && Tail(s.calls[d].stage, id)
    requires id in s.steps && s.calls[c].workerId == s.steps[id].workerId && s.calls[c].stage == Listing(id)
    ensures Driven(s0, s2, id) && Contradicts(s2, id)
  {
    hide Driven, Contradicts, Racing, Unmanned;
    var s1 := Registered(s0, s, c, d, id);
    assert c in s1.calls && s1.calls[c].stage == Listing(id);
    var s3 := Approach(s0, s1, c, d, id);
    assert c in s3.calls && d in s3.calls && Tail(s3.calls[d].stage, id) by { Racers(s0, s3, c, d, id); }
    if s3.calls[c].stage.Selecting? {
      s3 := Approach(s0, s3, c, d, id);
      assert c in s3.calls && d in s3.calls && Tail(s3.calls[d].stage, id) by { Racers(s0, s3, c, d, id); }
    }
    var s4 := Complete(s0, s3, c, d, id);
    s2 := Void(s0, s4, d, id);
  }

  lemma Racers(s0: State, s: State, c: CallId, d: CallId, id: StepId)
    requires Racing(s0, s, c, d, id)
    ensures c in s.calls && d in s.calls && Tail(s.calls[d].stage, id)
  {
  }

  lemma TooEarlyIsUnsafe(s: State, c: CallId, id: StepId)
    requires Reachable(s) && Enabled(s, Retry(c, id)) && Tailed(s, id)
    ensures Overtakes(s, c, id)
  {
    var d :| d in s.calls && Tail(s.calls[d].stage, id);
    var s0 := Apply(s, Retry(c, id));
    RanOn(EMPTY, s, Retry(c, id));
    OnwardNowhere(s0, id);
    hide Reachable, Onward, Contradicts;
    var s2 := Overtake(s0, s0, c, d, id);
  }

  /**
   * Exactly which retries can do harm: in any reachable state a retry of a FAILED step can be followed, without another
   * retry of it, by a run that leaves the step COMPLETED, its job FAILED and nobody at work on the sequence,
   * if and only if a catch block of the step is still under way when it is taken.
   */
  lemma RetryOvertakesIff(s: State, c: CallId, id: StepId)
    requires Reachable(s) && Enabled(s, Retry(c, id))
    ensures Overtakes(s, c, id) <==> Tailed(s, id)
  {
    if Tailed(s, id) {
      TooEarlyIsUnsafe(s, c, id);
    } else {
      var es :| Legal(EMPTY, es) && Exec(EMPTY, es) == s;
      hide Exec, Legal, Contradicts, Tailed, Enabled, Apply;
      forall s2 | Onward(Apply(s, Retry(c, id)), s2, id)
        ensures !Contradicts(s2, id)
      {
        InTimeIsSafe(es, c, id, s2);
      }
    }
  }

  /** What a caller can check: if all retries so far were taken with the job FAILED or PENDING, this one is safe exactly if it is too. */
  lemma GuardedRetryIff(es: seq<Event>, c: CallId, id: StepId)
    requires Legal(EMPTY, es) && id in Exec(EMPTY, es).steps && Careful(EMPTY, es, id)
    requires Enabled(Exec(EMPTY, es), Retry(c, id))
    ensures Overtakes(Exec(EMPTY, es), c, id) <==> !Guard(Exec(EMPTY, es), id)
  {
    var s := Exec(EMPTY, es);
    RetriesFailed(s, Retry(c, id));
    GuardIff(es, id);
    assert Reachable(s);
    hide *;
    RetryOvertakesIff(s, c, id);
  }
}
