/** Runs as a relation between states: what they compose to, what they leave alone, what they record. */
module StepQueueReach {
  import opened Wrappers
  import opened StepQueueModel
  import opened StepQueueTally
  import opened StepQueueInvariant
  import opened StepQueueSequence
  import opened StepQueueSafety
  import opened StepQueueRuns

  /** Some run leads from `s` to `s2`. */
  ghost predicate Ran(s: State, s2: State)
  {
    exists es :: Legal(s, es) && Exec(s, es) == s2
  }

  ghost predicate Reachable(s: State)
  {
    Ran(EMPTY, s)
  }

  lemma RanNowhere(s: State)
    ensures Ran(s, s)
  {
    assert Legal(s, []) && Exec(s, []) == s;
  }

  lemma RanOn(s: State, s2: State, e: Event)
    requires Ran(s, s2) && Enabled(s2, e)
    ensures Ran(s, Apply(s2, e))
  {
    var es :| Legal(s, es) && Exec(s, es) == s2;
    assert (es + [e])[..|es|] == es;
    assert Legal(s, es + [e]) && Exec(s, es + [e]) == Apply(s2, e);
  }

  lemma {:induction false} RunsCompose(a: State, es: seq<Event>, es2: seq<Event>)
    requires Legal(a, es) && Legal(Exec(a, es), es2)
    ensures Legal(a, es + es2) && Exec(a, es + es2) == Exec(Exec(a, es), es2)
  {
    hide Enabled, Apply;
    if es2 == [] {
      assert es + es2 == es;
    } else {
      var n := |es2| - 1;
      RunsCompose(a, es, es2[..n]);
      assert (es + es2)[..|es| + n] == es + es2[..n];
    }
  }

  lemma RanThrough(a: State, b: State, c: State)
    requires Ran(a, b) && Ran(b, c)
    ensures Ran(a, c)
  {
    var es :| Legal(a, es) && Exec(a, es) == b;
    var es2 :| Legal(b, es2) && Exec(b, es2) == c;
    RunsCompose(a, es, es2);
  }

  /** The call an event belongs to. */
  function Actor(e: Event): Option<CallId>
  {
    match e
    case Register(_) => None
    case Create(c, _, _) => Some(c)
    case Deliver(c, _) => Some(c)
    case Retry(c, _) => Some(c)
    case Act(c, _) => Some(c)
  }

  lemma QueueingLeavesOthers(s: State, d: CallId, i: Input, c: CallId)
    requires CanAct(s, d, i) && Queueing(s.calls[d].stage) && d != c && c in s.calls
    ensures c in ApplyAct(s, d, i).calls && ApplyAct(s, d, i).calls[c] == s.calls[c]
  {
    hide NextPending, IsOrdered, Among;
  }

  lemma ExecutingLeavesOthers(s: State, d: CallId, i: Input, c: CallId)
    requires CanAct(s, d, i) && !Queueing(s.calls[d].stage) && d != c && c in s.calls
    ensures c in ApplyAct(s, d, i).calls && ApplyAct(s, d, i).calls[c] == s.calls[c]
  {
    hide NextPending, IndexOf, IsOrdered, Among, StepsOf;
  }

  lemma ActLeavesOthers(s: State, d: CallId, i: Input, c: CallId)
    requires CanAct(s, d, i) && d != c && c in s.calls
    ensures c in ApplyAct(s, d, i).calls && ApplyAct(s, d, i).calls[c] == s.calls[c]
  {
    hide ApplyAct, Queueing;
    if Queueing(s.calls[d].stage) {
      QueueingLeavesOthers(s, d, i, c);
    } else {
      ExecutingLeavesOthers(s, d, i, c);
    }
  }

  lemma OthersLeaveCall(s: State, e: Event, c: CallId)
    requires Enabled(s, e) && Actor(e) != Some(c) && c in s.calls
    ensures c in Apply(s, e).calls && Apply(s, e).calls[c] == s.calls[c]
  {
    if e.Act? {
      ActLeavesOthers(s, e.call, e.input, c);
    }
  }

  /** History and rows are only added to, and what a step is never changes. */
  ghost predicate Extends(s: State, s2: State)
  {
    && s.log <= s2.log
    && forall id :: id in s.steps ==> id in s2.steps && SameStep(s.steps[id], s2.steps[id])
  }

  predicate SameStep(a: Step, b: Step)
  {
    a.kind == b.kind && a.stepNumber == b.stepNumber && a.workerId == b.workerId
  }

  lemma QueueingExtends(s: State, c: CallId, i: Input)
    requires CanAct(s, c, i) && Queueing(s.calls[c].stage)
    ensures Extends(s, ApplyAct(s, c, i))
  {
    hide NextPending, IsOrdered, Among;
  }

  lemma EarlyExtends(s: State, c: CallId, i: Input)
    requires CanAct(s, c, i) && Early(s.calls[c].stage)
    ensures Extends(s, ApplyAct(s, c, i))
  {
    hide NextPending, IndexOf, IsOrdered, Among, StepsOf;
  }

  lemma LateExtends(s: State, c: CallId, i: Input)
    requires CanAct(s, c, i) && !Queueing(s.calls[c].stage) && !Early(s.calls[c].stage)
    ensures Extends(s, ApplyAct(s, c, i))
  {
    hide NextPending, IndexOf, IsOrdered, Among, StepsOf;
  }

  lemma ActExtends(s: State, c: CallId, i: Input)
    requires CanAct(s, c, i)
    ensures Extends(s, ApplyAct(s, c, i))
  {
    hide ApplyAct, Queueing, Early, Extends;
    if Queueing(s.calls[c].stage) {
      QueueingExtends(s, c, i);
    } else if Early(s.calls[c].stage) {
      EarlyExtends(s, c, i);
    } else {
      LateExtends(s, c, i);
    }
  }

  lemma ApplyExtends(s: State, e: Event)
    requires Enabled(s, e)
    ensures Extends(s, Apply(s, e))
  {
    hide CanAct, ApplyAct;
    if e.Act? {
      ActExtends(s, e.call, e.input);
    }
  }

  lemma {:induction false} RunExtends(s: State, es: seq<Event>)
    requires Legal(s, es)
    ensures Extends(s, Exec(s, es))
  {
    if es != [] {
      hide Enabled, Apply;
      RunExtends(s, es[..|es| - 1]);
      ApplyExtends(Exec(s, es[..|es| - 1]), es[|es| - 1]);
    }
  }

  lemma RanExtends(s: State, s2: State)
    requires Ran(s, s2)
    ensures Extends(s, s2)
  {
    var es :| Legal(s, es) && Exec(s, es) == s2;
    RunExtends(s, es);
  }

  lemma SelectsRetried(s: State, c: CallId, id: StepId, ids: seq<StepId>, rows: seq<StepId>)
    requires Reachable(s) && c in s.calls && s.calls[c].stage == Selecting(id, ids)
    requires IsOrdered(s.steps, Among(s.steps, ids), rows)
    ensures (forall x :: x in rows ==> x in s.steps) && NextPending(s.steps, rows) == Some(id)
  {
    var es :| Legal(EMPTY, es) && Exec(EMPTY, es) == s;
    RetrySelectsItsStep(es, c, id, ids, rows);
  }

  /** Since `before`, the history has recorded `deed` for step `id`. */
  ghost predicate Recorded(before: State, now: State, id: StepId, deed: Deed)
  {
    && id in before.steps
    && exists k :: |before.log| <= k < |now.log|
         && now.log[k] == Entry(before.steps[id].workerId, before.steps[id].stepNumber, deed)
  }

  lemma StaysRecorded(before: State, s: State, s2: State, id: StepId, deed: Deed)
    requires Recorded(before, s, id, deed) && Ran(s, s2)
    ensures Recorded(before, s2, id, deed)
  {
    RanExtends(s, s2);
    var k :| |before.log| <= k < |s.log|
             && s.log[k] == Entry(before.steps[id].workerId, before.steps[id].stepNumber, deed);
    assert s2.log[k] == s.log[k];
  }

  lemma RecordedEarlier(before: State, s: State, s2: State, id: StepId, deed: Deed)
    requires Ran(before, s) && Recorded(s, s2, id, deed) && id in before.steps
    ensures Recorded(before, s2, id, deed)
  {
    RanExtends(before, s);
    assert SameStep(before.steps[id], s.steps[id]);
    var k :| |s.log| <= k < |s2.log|
             && s2.log[k] == Entry(s.steps[id].workerId, s.steps[id].stepNumber, deed);
  }

  /** A message for the step at `n` of the sequence is queued. */
  ghost predicate Queued(s: State, ids: seq<StepId>, n: nat)
  {
    n < |ids| && exists m :: m in s.queue && m.stepId == ids[n] && m.stepIds == ids
  }

  /**
   * What executing step `id` comes to: a rejection if its kind has no handler, else a throw, else a return after which the
   * message of the next step, if there is one, is queued or its refusal recorded.
   */
  ghost predicate Executed(before: State, now: State, id: StepId, ids: seq<StepId>, handled: bool, accepted: bool)
  {
    && id in before.steps
    && (|| Recorded(before, now, id, Rejected)
        || (!handled && Recorded(before, now, id, Threw))
        || (handled && Recorded(before, now, id, Returned) && Advanced(before, now, id, ids, accepted)))
  }

  ghost predicate Advanced(before: State, now: State, id: StepId, ids: seq<StepId>, accepted: bool)
    requires id in before.steps
  {
    || before.steps[id].stepNumber == |ids|
    || if accepted then Queued(now, ids, before.steps[id].stepNumber) else Recorded(before, now, id, Refused)
  }

  lemma ExecutedEarlier(before: State, s: State, s2: State, id: StepId, ids: seq<StepId>, handled: bool, accepted: bool)
    requires Ran(before, s) && Executed(s, s2, id, ids, handled, accepted) && id in before.steps
    ensures Executed(before, s2, id, ids, handled, accepted)
  {
    RanExtends(before, s);
    assert SameStep(before.steps[id], s.steps[id]);
    hide Recorded, Ran, Queued;
    forall deed | Recorded(s, s2, id, deed)
      ensures Recorded(before, s2, id, deed)
    {
      RecordedEarlier(before, s, s2, id, deed);
    }
  }

  lemma StillThere(before: State, s: State, id: StepId)
    requires Ran(before, s) && id in before.steps
    ensures id in s.steps && s.steps[id].stepNumber == before.steps[id].stepNumber
  {
    RanExtends(before, s);
    assert SameStep(before.steps[id], s.steps[id]);
  }

  /** `ids` are the steps of sequence `w`, all that existed before among them, each at its own number. */
  ghost predicate Whole(before: State, now: State, ids: seq<StepId>, w: SequenceId)
  {
    && (forall x :: x in before.steps && before.steps[x].workerId == w ==> x in ids)
    && (forall k :: 0 <= k < |ids| ==>
          ids[k] in now.steps && now.steps[ids[k]].workerId == w && now.steps[ids[k]].stepNumber == k + 1)
  }

  lemma ListingIsWhole(before: State, s: State, ids: seq<StepId>, w: SequenceId)
    requires Reachable(s) && Extends(before, s) && w in s.created && Listed(s, w, ids)
    ensures Whole(before, s, ids, w)
  {
    var es :| Legal(EMPTY, es) && Exec(EMPTY, es) == s;
    var b := KeepRun(es);
    ListedIsOrder(s, b, w, ids);
    hide Exec, Legal, Inv;
    forall k | 0 <= k < |ids|
      ensures ids[k] in s.steps && s.steps[ids[k]].workerId == w && s.steps[ids[k]].stepNumber == k + 1
    {
      assert RowAt(s, ids, w, k);
    }
    hide SequenceOk;
    forall x | x in before.steps && before.steps[x].workerId == w
      ensures x in ids
    {
      assert SameStep(before.steps[x], s.steps[x]);
    }
  }

  lemma StaysWhole(before: State, s: State, s2: State, ids: seq<StepId>, w: SequenceId)
    requires Whole(before, s, ids, w) && Extends(s, s2)
    ensures Whole(before, s2, ids, w)
  {
    forall k | 0 <= k < |ids|
      ensures ids[k] in s2.steps && s2.steps[ids[k]].workerId == w && s2.steps[ids[k]].stepNumber == k + 1
    {
      assert SameStep(s.steps[ids[k]], s2.steps[ids[k]]);
    }
  }

  lemma WholeSince(before: State, s: State, s2: State, ids: seq<StepId>, w: SequenceId)
    requires Whole(s, s2, ids, w) && Extends(before, s)
    ensures Whole(before, s2, ids, w)
  {
    forall x | x in before.steps && before.steps[x].workerId == w
      ensures x in ids
    {
      assert SameStep(before.steps[x], s.steps[x]);
    }
  }

  lemma CallsCreated(s: State, c: CallId)
    requires Reachable(s) && c in s.calls
    ensures s.calls[c].workerId in s.created
  {
    var es :| Legal(EMPTY, es) && Exec(EMPTY, es) == s;
    var b := KeepRun(es);
    hide Exec, Legal, Inv, SequenceOk;
    Seated(s, b, c);
  }

  lemma RecordedSince(before: State, s: State, s2: State, id: StepId, deed: Deed)
    requires Extends(before, s) && Recorded(s, s2, id, deed) && id in before.steps
    ensures Recorded(before, s2, id, deed)
  {
    assert SameStep(before.steps[id], s.steps[id]);
    var k :| |s.log| <= k < |s2.log|
             && s2.log[k] == Entry(s.steps[id].workerId, s.steps[id].stepNumber, deed);
  }

  lemma AdvancedEarlier(before: State, s: State, s2: State, id: StepId, ids: seq<StepId>, accepted: bool)
    requires Ran(before, s) && id in before.steps && id in s.steps && Advanced(s, s2, id, ids, accepted)
    ensures Advanced(before, s2, id, ids, accepted)
  {
    RanExtends(before, s);
    assert SameStep(before.steps[id], s.steps[id]);
    hide Recorded, Ran, Queued;
    if Recorded(s, s2, id, Refused) {
      RecordedEarlier(before, s, s2, id, Refused);
    }
  }

  /** What was recorded of a failed execution stays recorded; nothing was queued. */
  lemma ExecutedStays(before: State, s: State, s2: State, id: StepId, ids: seq<StepId>, handled: bool, accepted: bool)
    requires Ran(s, s2) && Executed(before, s, id, ids, handled, accepted)
    requires !handled || (!accepted && before.steps[id].stepNumber != |ids|)
    ensures Executed(before, s2, id, ids, handled, accepted)
  {
    hide Recorded, Ran, Queued;
    forall deed | Recorded(before, s, id, deed)
      ensures Recorded(before, s2, id, deed)
    {
      StaysRecorded(before, s, s2, id, deed);
    }
  }

  lemma HowManySnoc(table: seq<Step>, n: nat)
    requires n < |table|
    ensures forall status ::
      HowMany(table[..n + 1], status) == HowMany(table[..n], status) + if table[n].status == status then 1 else 0
  {
    assert table[..n + 1][..n] == table[..n];
  }

  /** Row `id` is step number `n` of sequence `w`, of the given kind. */
  predicate IsStep(steps: map<StepId, Step>, id: StepId, kind: StepType, n: nat, w: SequenceId)
  {
    id in steps && steps[id].kind == kind && steps[id].stepNumber == n && steps[id].workerId == w
  }

  /** The step createAndQueueNextJob finds: the first of a new sequence, the next after a success, none after the last. */
  lemma NextOf(s: State, c: CallId, owner: Option<StepId>, ids: seq<StepId>, rows: seq<StepId>)
    requires Reachable(s) && At(s, c, Advancing(owner, ids)) && IsOrdered(s.steps, Among(s.steps, ids), rows)
    ensures forall x :: x in rows ==> x in s.steps
    ensures owner.None? ==> 0 < |ids| && NextPending(s.steps, rows) == Some(ids[0])
    ensures owner.Some? ==>
      && owner.value in s.steps && s.steps[owner.value].stepNumber <= |ids|
      && NextPending(s.steps, rows)
         == if s.steps[owner.value].stepNumber < |ids| then Some(ids[s.steps[owner.value].stepNumber]) else None
  {
    var es :| Legal(EMPTY, es) && Exec(EMPTY, es) == s;
    hide Exec, Legal, IsOrdered, NextPending;
    if owner.Some? {
      HandsOverToSuccessor(es, c, owner.value, ids, rows);
    } else {
      var b := KeepRun(es);
      hide Inv, SequenceOk;
      Seated(s, b, c);
      FirstPendingOf(s, s.calls[c].workerId, b.order[s.calls[c].workerId], c, ids, rows);
    }
  }

  lemma FirstPendingOf(s: State, w: SequenceId, order: seq<StepId>, c: CallId, ids: seq<StepId>, rows: seq<StepId>)
    requires SequenceOk(s, w, order, Held(c)) && s.calls[c].stage == Advancing(None, ids)
    requires IsOrdered(s.steps, Among(s.steps, ids), rows)
    ensures forall x :: x in rows ==> x in s.steps
    ensures 0 < |ids| && NextPending(s.steps, rows) == Some(ids[0])
  {
    Chosen(s, w, order, rows, 0);
  }

  /** A step being executed has its job. */
  lemma JobAtHand(s: State, c: CallId, id: StepId, ids: seq<StepId>)
    requires Reachable(s) && c in s.calls && s.calls[c].stage == Fetching(id, ids)
    ensures id in s.steps && s.steps[id].jobId.Some?
  {
    var es :| Legal(EMPTY, es) && Exec(EMPTY, es) == s;
    var b := KeepRun(es);
    Seated(s, b, c);
    hide *;
    ArmedHasJob(s, s.calls[c].workerId, b.order[s.calls[c].workerId], c, id, ids);
  }

  lemma ArmedHasJob(s: State, w: SequenceId, order: seq<StepId>, c: CallId, id: StepId, ids: seq<StepId>)
    requires SequenceOk(s, w, order, Held(c)) && s.calls[c].stage == Fetching(id, ids)
    ensures id in s.steps && s.steps[id].jobId.Some?
  {
  }

  /** The step a new sequence sends first is its step number 1. */
  lemma FirstOfSequence(s: State, c: CallId, ids: seq<StepId>, next: StepId, job: JobId)
    requires Reachable(s) && c in s.calls && s.calls[c].stage == Sending(None, ids, next, job)
    ensures next in s.steps && s.steps[next].stepNumber == 1 && s.steps[next].workerId == s.calls[c].workerId
  {
    var es :| Legal(EMPTY, es) && Exec(EMPTY, es) == s;
    var b := KeepRun(es);
    Seated(s, b, c);
    hide *;
    FirstSent(s, s.calls[c].workerId, b.order[s.calls[c].workerId], c, ids, next, job);
  }

  lemma FirstSent(s: State, w: SequenceId, order: seq<StepId>, c: CallId, ids: seq<StepId>, next: StepId, job: JobId)
    requires SequenceOk(s, w, order, Held(c)) && s.calls[c].stage == Sending(None, ids, next, job)
    ensures next in s.steps && s.steps[next].stepNumber == 1 && s.steps[next].workerId == w
  {
    assert RowAt(s, order, w, 0);
  }

  lemma {:induction false} FreshExists(used: set<nat>) returns (id: nat)
    ensures forall x :: x in used ==> x < id
  {
    if used == {} {
      id := 0;
    } else {
      var x :| x in used;
      id := FreshExists(used - {x});
      assert forall y :: y in used ==> y == x || y in used - {x};
      id := if id <= x then x + 1 else id;
    }
  }

  /** In a reachable state a call's next action is possible. */
  lemma Able(s: State, c: CallId) returns (i: Input)
    requires Reachable(s) && c in s.calls
    ensures CanAct(s, c, i) && i.ok
  {
    var es :| Legal(EMPTY, es) && Exec(EMPTY, es) == s;
    var id := FreshExists(s.steps.Keys + s.jobs.Keys);
    var rows := NeverStuck(es, c, true, id, 0);
    i := Input(true, id, 0, rows);
  }
}
