/** A sequence whose first enqueue is refused: exactly the one that never starts, and it never does. */
module StepQueueStalling {
  import opened Wrappers
  import opened StepQueueModel
  import opened StepQueueTally
  import opened StepQueueInvariant
  import opened StepQueueSequence
  import opened StepQueueSafety
  import opened StepQueueTrace
  import opened StepQueueRuns
  import opened StepQueueReach
  import opened StepQueueIsolation
  import opened StepQueueJobs

  lemma RefusedSequence(s: State, w: SequenceId, ids: seq<StepId>, seat: Seat)
    requires SequenceOk(s, w, ids, seat) && StartRefused(s, w)
    ensures seat == Free && 0 < |ids| && Shape(RowsOf(s.steps, ids), 0, Pending)
    ensures TallyOf(s.log, w).phase == Stuck
  {
    StuckHistory(s.log, w);
  }

  lemma RefusedCreated(s: State, b: Book, w: SequenceId)
    requires Inv(s, b) && StartRefused(s, w)
    ensures w in s.created && w in b.order && w in b.seat && b.seat[w] == Free
    ensures 0 < |b.order[w]| && Known(s.steps, b.order[w]) && Shape(RowsOf(s.steps, b.order[w]), 0, Pending)
  {
    assert w in s.created;
    assert BookedOk(s, b, w);
    hide Inv, SequenceOk;
    RefusedSequence(s, w, b.order[w], b.seat[w]);
    assert Known(s.steps, b.order[w]) by { KnownRows(s, w, b.order[w], b.seat[w]); }
  }

  lemma KnownRows(s: State, w: SequenceId, ids: seq<StepId>, seat: Seat)
    requires SequenceOk(s, w, ids, seat)
    ensures Known(s.steps, ids)
  {
  }

  lemma FreeIsIdle(s: State, b: Book, w: SequenceId)
    requires Inv(s, b) && w in b.seat && b.seat[w] == Free
    ensures Idle(s, w)
  {
    hide SequencesOk, PapersOk;
  }

  /** Its first enqueue was refused exactly if a sequence has steps, none of them ever delivered, and nobody at work on it. */
  lemma RefusedStartIff(es: seq<Event>, w: SequenceId, rows: seq<StepId>)
    requires Legal(EMPTY, es) && w in Exec(EMPTY, es).created && Listed(Exec(EMPTY, es), w, rows)
    ensures StartRefused(Exec(EMPTY, es), w)
       <==> Idle(Exec(EMPTY, es), w) && rows != [] && Total(Exec(EMPTY, es), w, IsDelivered) == 0
  {
    var s := Exec(EMPTY, es);
    var b := KeepRun(es);
    ListedIsOrder(s, b, w, rows);
    hide Exec, Legal, Inv, Listed, Idle, SequenceOk, Total, StartRefused;
    if StartRefused(s, w) {
      RefusedSequence(s, w, rows, b.seat[w]);
      FreeIsIdle(s, b, w);
      FreeOutcome(s, w, rows);
    } else if Idle(s, w) && rows != [] {
      IdleIsFree(s, b, w);
      FreeOutcome(s, w, rows);
    }
  }

  // ---------------------------------------------------------------- for good

  lemma NoCatchBlock(s: State, b: Book, w: SequenceId, c: CallId)
    requires Inv(s, b) && StartRefused(s, w) && c in s.calls
    requires forall id :: id in s.steps ==> Tracked(s, id)
    ensures s.calls[c].workerId != w
  {
    hide StartRefused;
    RefusedCreated(s, b, w);
    if s.calls[c].workerId == w {
      var id := s.calls[c].stage.stepId;
      assert PapersOk(s, s.calls[c]) && id in s.steps && TrackedCall(s, c, id);
      NeverEntered(s, b, w, id);
    }
  }

  lemma NeverEntered(s: State, b: Book, w: SequenceId, id: StepId)
    requires Inv(s, b) && StartRefused(s, w) && id in s.steps && s.steps[id].workerId == w
    ensures !EnteredEver(s, id)
  {
    RefusedCreated(s, b, w);
    assert BookedOk(s, b, w);
    StuckHistory(s.log, w);
  }

  lemma RefusedNotFailed(s: State, b: Book, w: SequenceId, id: StepId)
    requires Inv(s, b) && StartRefused(s, w) && id in s.steps && s.steps[id].workerId == w
    ensures s.steps[id].status == Pending
  {
    RefusedCreated(s, b, w);
    InItsPlace(s, b, id);
    assert RowsOf(s.steps, b.order[w])[s.steps[id].stepNumber - 1] == s.steps[id];
  }

  /** No event of any kind can work on it: it has no message, no call, and no step to retry. */
  lemma NothingHappens(es: seq<Event>, w: SequenceId, e: Event)
    requires Legal(EMPTY, es) && StartRefused(Exec(EMPTY, es), w) && Enabled(Exec(EMPTY, es), e)
    ensures SequenceOf(Exec(EMPTY, es), e) != Some(w)
  {
    var s := Exec(EMPTY, es);
    var b := KeepRun(es);
    forall id | id in s.steps
      ensures Tracked(s, id)
    {
      TrackedRun(es, id);
    }
    hide Exec, Legal, Inv, Tracked, CanAct, StartRefused;
    RefusedCreated(s, b, w);
    match e
    case Register(_) =>
    case Create(_, _, _) =>
    case Deliver(_, m) => FreeIsIdle(s, b, w);
    case Retry(_, id) => if s.steps[id].workerId == w { RefusedNotFailed(s, b, w, id); }
    case Act(c, i) => ActsElsewhere(s, b, w, c, i);
  }

  lemma ActsElsewhere(s: State, b: Book, w: SequenceId, c: CallId, i: Input)
    requires Inv(s, b) && StartRefused(s, w) && CanAct(s, c, i)
    requires forall id :: id in s.steps ==> Tracked(s, id)
    ensures c in s.calls && s.calls[c].workerId != w
  {
    hide Inv, Tracked, StartRefused, CanAct;
    Acts(s, c, i);
    NoCatchBlock(s, b, w, c);
  }

  lemma StaysRefused(s: State, s2: State, w: SequenceId)
    requires Extends(s, s2) && StartRefused(s, w)
    ensures StartRefused(s2, w)
  {
    var j :| 0 <= j < |s.log| && s.log[j] == Entry(w, 1, Stalled);
    assert s2.log[j] == s.log[j];
  }

  lemma {:induction false} AllElsewhere(es: seq<Event>, es2: seq<Event>, w: SequenceId)
    requires Legal(EMPTY, es) && StartRefused(Exec(EMPTY, es), w) && Legal(Exec(EMPTY, es), es2)
    ensures Elsewhere(Exec(EMPTY, es), es2, w) && StartRefused(Exec(Exec(EMPTY, es), es2), w)
  {
    hide StartRefused, SequenceOf, Enabled, Apply;
    if es2 != [] {
      var n := |es2| - 1;
      AllElsewhere(es, es2[..n], w);
      RunsCompose(EMPTY, es, es2[..n]);
      NothingHappens(es + es2[..n], w, es2[n]);
      var s := Exec(Exec(EMPTY, es), es2[..n]);
      ApplyExtends(s, es2[n]);
      StaysRefused(s, Apply(s, es2[n]), w);
    }
  }

  /** For good: whatever runs afterwards, nobody works on the sequence and its rows, jobs and history never change. */
  lemma RefusedForGood(es: seq<Event>, es2: seq<Event>, w: SequenceId)
    requires Legal(EMPTY, es) && StartRefused(Exec(EMPTY, es), w) && Legal(Exec(EMPTY, es), es2)
    ensures Apart(Exec(EMPTY, es), Exec(Exec(EMPTY, es), es2), w)
    ensures Idle(Exec(Exec(EMPTY, es), es2), w)
    ensures forall id :: id in Exec(Exec(EMPTY, es), es2).steps && Exec(Exec(EMPTY, es), es2).steps[id].workerId == w ==>
              Exec(Exec(EMPTY, es), es2).steps[id].status == Pending
  {
    AllElsewhere(es, es2, w);
    Isolation(es, es2, w);
    RunsCompose(EMPTY, es, es2);
    var b := KeepRun(es + es2);
    var s := Exec(Exec(EMPTY, es), es2);
    hide *;
    RefusedCreated(s, b, w);
    FreeIsIdle(s, b, w);
    forall id | id in s.steps && s.steps[id].workerId == w
      ensures s.steps[id].status == Pending
    {
      RefusedNotFailed(s, b, w, id);
    }
  }
}
