/** The guarantees of the step queue, over every run of any number of interleaved calls. */
module StepQueueRuns {
  import opened Wrappers
  import opened StepQueueModel
  import opened StepQueueTally
  import opened StepQueueInvariant
  import opened StepQueueFrame
  import opened StepQueueSequence
  import opened StepQueueSafety
  import opened StepQueueTrace

  /** `rows` is the sequence `w` as the database lists it: its steps by ascending stepNumber. */
  ghost predicate Listed(s: State, w: SequenceId, rows: seq<StepId>)
  {
    IsOrdered(s.steps, StepsOf(s.steps, w), rows)
  }

  /** Nobody works on `w`: no message of it is queued and no call holds it. */
  ghost predicate Idle(s: State, w: SequenceId)
  {
    && (forall m :: m in s.queue ==> m.stepId in s.steps ==> s.steps[m.stepId].workerId != w)
    && (forall c :: c in s.calls && s.calls[c].workerId == w ==> !Token(s.calls[c].stage))
  }

  function Total(s: State, w: SequenceId, which: Deed -> bool): nat
  {
    Count(s.log, w, which)
  }

  lemma ListedIsOrder(s: State, b: Book, w: SequenceId, rows: seq<StepId>)
    requires Inv(s, b) && w in s.created && Listed(s, w, rows)
    ensures rows == b.order[w] && Known(s.steps, rows) && SequenceOk(s, w, rows, b.seat[w])
  {
    assert BookedOk(s, b, w);
    StepsOfSequence(s, b, w);
    OrderedIsSequence(s, w, b.order[w], StepsOf(s.steps, w), rows);
  }

  // ---------------------------------------------------------------- the token

  /** At most one queued message or call at work per sequence, and never both. */
  ghost predicate OneToken(s: State)
  {
    && (forall m :: m in s.queue ==> s.queue[m] == 1 && m.stepId in s.steps)
    && (forall m, m' | m in s.queue && m' in s.queue ::
          s.steps[m.stepId].workerId == s.steps[m'.stepId].workerId ==> m == m')
    && (forall c, c' | c in s.calls && c' in s.calls && Token(s.calls[c].stage) && Token(s.calls[c'].stage) ::
          s.calls[c].workerId == s.calls[c'].workerId ==> c == c')
    && (forall m, c :: m in s.queue && c in s.calls && Token(s.calls[c].stage) ==>
          s.steps[m.stepId].workerId != s.calls[c].workerId)
  }

  /** A call is at work until it returns, or has marked the step that failed FAILED. */
  lemma OneTokenPerSequence(es: seq<Event>)
    requires Legal(EMPTY, es)
    ensures OneToken(Exec(EMPTY, es))
  {
    var b := KeepRun(es);
    hide SequencesOk;
  }

  // ---------------------------------------------------------------- the frontier

  /** COMPLETED rows, then at most one row in any state, then PENDING rows. */
  predicate Frontier(rows: seq<Step>, k: nat)
  {
    && k <= |rows|
    && (forall i :: 0 <= i < k ==> rows[i].status == Completed)
    && (forall i :: k < i < |rows| ==> rows[i].status == Pending)
  }

  lemma SequenceFrontier(s: State, w: SequenceId, ids: seq<StepId>, seat: Seat) returns (k: nat)
    requires SequenceOk(s, w, ids, seat)
    ensures Frontier(RowsOf(s.steps, ids), k)
  {
    var t := TallyOf(s.log, w);
    var rows := RowsOf(s.steps, ids);
    k := if Frontier(rows, t.k) then t.k else Cursor(t);
  }

  lemma NotCreated(s: State, b: Book, w: SequenceId)
    requires Inv(s, b) && w !in s.created
    ensures StepsOf(s.steps, w) == {}
  {
    forall id | id in s.steps
      ensures s.steps[id].workerId != w
    {
      assert Belongs(s.steps, b, id);
    }
  }

  lemma Inhabited(rows: seq<StepId>)
    requires rows != []
    ensures exists x :: x in rows
  {
    assert rows[0] in rows;
  }

  lemma FrontierShape(es: seq<Event>, w: SequenceId, rows: seq<StepId>) returns (k: nat)
    requires Legal(EMPTY, es) && Listed(Exec(EMPTY, es), w, rows)
    ensures Known(Exec(EMPTY, es).steps, rows) && Frontier(RowsOf(Exec(EMPTY, es).steps, rows), k)
  {
    var s := Exec(EMPTY, es);
    var b := KeepRun(es);
    if w in s.created {
      ListedIsOrder(s, b, w, rows);
      hide Inv;
      hide SequenceOk;
      k := SequenceFrontier(s, w, rows, b.seat[w]);
    } else {
      k := 0;
      NotCreated(s, b, w);
      hide Inv;
      if rows != [] {
        Inhabited(rows);
      }
    }
  }

  /** At most one step of a sequence is PROCESSING, so `currentStep` of its status report is the only one. */
  lemma OneProcessing(es: seq<Event>, x: StepId, y: StepId)
    requires Legal(EMPTY, es)
    requires var s := Exec(EMPTY, es);
             && x in s.steps && y in s.steps && s.steps[x].workerId == s.steps[y].workerId
             && s.steps[x].status == Processing && s.steps[y].status == Processing
    ensures x == y
  {
    var s := Exec(EMPTY, es);
    var b := KeepRun(es);
    InItsPlace(s, b, x);
    InItsPlace(s, b, y);
    hide *;
    OneInFrontier(s, s.steps[x].workerId, b.order[s.steps[x].workerId], b.seat[s.steps[x].workerId], x, y);
  }

  lemma InItsPlace(s: State, b: Book, x: StepId)
    requires Inv(s, b) && x in s.steps
    ensures var w := s.steps[x].workerId;
            && w in b.order && w in b.seat
            && Placed(s.steps, b.order[w], x) && SequenceOk(s, w, b.order[w], b.seat[w])
  {
    assert Belongs(s.steps, b, x);
    assert BookedOk(s, b, s.steps[x].workerId);
  }

  lemma OneInFrontier(s: State, w: SequenceId, ids: seq<StepId>, seat: Seat, x: StepId, y: StepId)
    requires SequenceOk(s, w, ids, seat)
    requires x in s.steps && y in s.steps && Placed(s.steps, ids, x) && Placed(s.steps, ids, y)
    requires s.steps[x].status == Processing && s.steps[y].status == Processing
    ensures x == y
  {
    var k := SequenceFrontier(s, w, ids, seat);
    hide SequenceOk;
    var rows := RowsOf(s.steps, ids);
    assert rows[s.steps[x].stepNumber - 1] == s.steps[x] && rows[s.steps[y].stepNumber - 1] == s.steps[y];
  }

  function HowMany(rows: seq<Step>, status: Status): nat
  {
    if rows == [] then 0
    else HowMany(rows[..|rows| - 1], status) + if rows[|rows| - 1].status == status then 1 else 0
  }

  lemma {:induction false} FrontierCounts(rows: seq<Step>, k: nat)
    requires Frontier(rows, k)
    ensures HowMany(rows, Completed) == if k < |rows| && rows[k].status == Completed then k + 1 else k
    ensures HowMany(rows, Processing) == if k < |rows| && rows[k].status == Processing then 1 else 0
    ensures HowMany(rows, Failed) == if k < |rows| && rows[k].status == Failed then 1 else 0
  {
    if rows != [] {
      FrontierCounts(rows[..|rows| - 1], if k == |rows| then k - 1 else k);
    }
  }

  /**
   * What a status report of a whole sequence means: its completed count is the length of the completed
   * prefix, and at most one step is PROCESSING or FAILED, namely the one right after that prefix.
   */
  predicate ReportMeans(table: seq<Step>)
  {
    var done := HowMany(table, Completed);
    && done <= |table|
    && (forall i :: 0 <= i < |table| ==> (table[i].status == Completed <==> i < done))
    && (forall i :: 0 <= i < |table| && table[i].status != Completed && table[i].status != Pending ==> i == done)
    && HowMany(table, Processing) + HowMany(table, Failed) <= 1
  }

  lemma StatusReport(es: seq<Event>, w: SequenceId, rows: seq<StepId>)
    requires Legal(EMPTY, es) && Listed(Exec(EMPTY, es), w, rows)
    ensures Known(Exec(EMPTY, es).steps, rows) && ReportMeans(RowsOf(Exec(EMPTY, es).steps, rows))
  {
    var k := FrontierShape(es, w, rows);
    FrontierCounts(RowsOf(Exec(EMPTY, es).steps, rows), k);
  }

  // ---------------------------------------------------------------- retry

  predicate At(s: State, c: CallId, stage: Stage)
  {
    c in s.calls && s.calls[c].stage == stage
  }

  /** The search of findNextPendingStep over `rows` finds `next`. */
  predicate Selects(s: State, rows: seq<StepId>, next: Option<StepId>)
  {
    (forall x :: x in rows ==> x in s.steps) && NextPending(s.steps, rows) == next
  }

  /** `id` is a step of `ids`, at its own step number. */
  predicate StandsIn(s: State, ids: seq<StepId>, id: StepId)
  {
    id in s.steps && Placed(s.steps, ids, id)
  }

  function Successor(s: State, ids: seq<StepId>, id: StepId): Option<StepId>
    requires StandsIn(s, ids, id)
  {
    var n := s.steps[id].stepNumber;
    if n < |ids| then Some(ids[n]) else None
  }

  /** A retry selects the step retried, whatever else ran since: its list is the whole sequence in order. */
  lemma RetrySelectsItsStep(es: seq<Event>, c: CallId, id: StepId, ids: seq<StepId>, rows: seq<StepId>)
    requires Legal(EMPTY, es) && At(Exec(EMPTY, es), c, Selecting(id, ids))
    requires IsOrdered(Exec(EMPTY, es).steps, Among(Exec(EMPTY, es).steps, ids), rows)
    ensures Listed(Exec(EMPTY, es), Exec(EMPTY, es).calls[c].workerId, ids) && rows == ids
    ensures Selects(Exec(EMPTY, es), rows, Some(id))
  {
    var s := Exec(EMPTY, es);
    var b := KeepRun(es);
    var w := s.calls[c].workerId;
    Seated(s, b, c);
    StepsOfSequence(s, b, w);
    assert SequenceOk(s, w, b.order[w], Held(c));
    Chosen(s, w, b.order[w], rows, Cursor(TallyOf(s.log, w)));
  }

  /** After a success the next step chosen is the immediate successor, and none after the last. */
  lemma HandsOverToSuccessor(es: seq<Event>, c: CallId, id: StepId, ids: seq<StepId>, rows: seq<StepId>)
    requires Legal(EMPTY, es) && At(Exec(EMPTY, es), c, Advancing(Some(id), ids))
    requires IsOrdered(Exec(EMPTY, es).steps, Among(Exec(EMPTY, es).steps, ids), rows)
    ensures Listed(Exec(EMPTY, es), Exec(EMPTY, es).calls[c].workerId, ids) && rows == ids
    ensures StandsIn(Exec(EMPTY, es), ids, id) && Selects(Exec(EMPTY, es), rows, Successor(Exec(EMPTY, es), ids, id))
  {
    var b := KeepRun(es);
    SeatedSuccessor(Exec(EMPTY, es), b, c, id, ids, rows);
  }

  lemma SeatedSuccessor(s: State, b: Book, c: CallId, id: StepId, ids: seq<StepId>, rows: seq<StepId>)
    requires Inv(s, b) && At(s, c, Advancing(Some(id), ids))
    requires IsOrdered(s.steps, Among(s.steps, ids), rows)
    ensures Listed(s, s.calls[c].workerId, ids) && rows == ids
    ensures StandsIn(s, ids, id) && Selects(s, rows, Successor(s, ids, id))
  {
    hide Inv, SequenceOk, IsOrdered, NextPending, Among, StepsOf;
    Seated(s, b, c);
    StepsOfSequence(s, b, s.calls[c].workerId);
    SequenceSuccessor(s, s.calls[c].workerId, b.order[s.calls[c].workerId], c, id, rows);
  }

  lemma SequenceSuccessor(s: State, w: SequenceId, ids: seq<StepId>, c: CallId, id: StepId, rows: seq<StepId>)
    requires SequenceOk(s, w, ids, Held(c))
    requires s.calls[c].stage.Advancing? && s.calls[c].stage.owner == Some(id)
    requires IsOrdered(s.steps, Among(s.steps, s.calls[c].stage.stepIds), rows)
    ensures s.calls[c].stage.stepIds == ids && rows == ids && forall x :: x in rows ==> x in s.steps
    ensures id in s.steps && 1 <= s.steps[id].stepNumber <= |ids| && ids[s.steps[id].stepNumber - 1] == id
    ensures var n := s.steps[id].stepNumber; NextPending(s.steps, rows) == if n < |ids| then Some(ids[n]) else None
  {
    var t := TallyOf(s.log, w);
    assert RowAt(s, ids, w, t.k);
    Chosen(s, w, ids, rows, Cursor(t));
  }

  // ---------------------------------------------------------------- outcomes

  /** The enqueue that should have started the sequence was refused: createStepSequence threw. */
  ghost predicate StartRefused(s: State, w: SequenceId)
  {
    exists j :: 0 <= j < |s.log| && s.log[j] == Entry(w, 1, Stalled)
  }

  /**
   * An idle sequence is finished, waits for a retry of its one FAILED step, or its first enqueue was refused.
   * In each case the history is determined:
   * every step up to the failed one was delivered exactly once; every failure but the last was answered by
   * exactly one retry; handler calls = steps passed + handler failures + refused enqueues.
   */
  ghost predicate Outcome(s: State, w: SequenceId, rows: seq<StepId>, k: nat)
    requires Known(s.steps, rows)
  {
    var rs := RowsOf(s.steps, rows);
    var failures := Total(s, w, IsThrew) + Total(s, w, IsRefused) + Total(s, w, IsRejected);
    && k <= |rows|
    && Total(s, w, IsEntered) == k + Total(s, w, IsThrew) + Total(s, w, IsRefused)
    && Total(s, w, IsReturned) == k + Total(s, w, IsRefused)
    && if k == |rows| then
         && (forall i :: 0 <= i < |rs| ==> rs[i].status == Completed)
         && Total(s, w, IsDelivered) == |rows| && Total(s, w, IsRetried) == failures
       else if StartRefused(s, w) then
         && k == 0 && Shape(rs, 0, Pending) && Total(s, w, IsDelivered) == 0
         && forall i :: 0 <= i < |s.log| && s.log[i].workerId == w ==> s.log[i] == Entry(w, 1, Stalled)
       else
         && Shape(rs, k, Failed)
         && Total(s, w, IsDelivered) == k + 1 && Total(s, w, IsRetried) + 1 == failures
  }

  lemma IdleOutcome(es: seq<Event>, w: SequenceId, rows: seq<StepId>) returns (k: nat)
    requires Legal(EMPTY, es) && w in Exec(EMPTY, es).created && Listed(Exec(EMPTY, es), w, rows) && Idle(Exec(EMPTY, es), w)
    ensures Known(Exec(EMPTY, es).steps, rows) && Outcome(Exec(EMPTY, es), w, rows, k)
    ensures k == Cursor(TallyOf(Exec(EMPTY, es).log, w)) && Orderly(Exec(EMPTY, es).log, w)
  {
    var s := Exec(EMPTY, es);
    var b := KeepRun(es);
    ListedIsOrder(s, b, w, rows);
    IdleIsFree(s, b, w);
    k := Cursor(TallyOf(s.log, w));
    hide Inv, Exec, Legal, Listed, Idle;
    FreeOutcome(s, w, rows);
  }

  lemma FreeOutcome(s: State, w: SequenceId, ids: seq<StepId>)
    requires SequenceOk(s, w, ids, Free)
    ensures Outcome(s, w, ids, Cursor(TallyOf(s.log, w))) && Orderly(s.log, w)
  {
    Ledger(s.log, w);
    StuckHistory(s.log, w);
    if StartRefused(s, w) {
      CountNone(s.log, w, IsDelivered);
    }
  }

  lemma IdleIsFree(s: State, b: Book, w: SequenceId)
    requires Inv(s, b) && w in s.created && Idle(s, w)
    ensures b.seat[w] == Free
  {
    assert BookedOk(s, b, w);
    if b.seat[w].Mail? {
      MailOwned(s, w, b.order[w], b.seat[w].message);
    }
  }

  /** Something was delivered, and no handler threw or was missing and no enqueue was refused. */
  predicate Clean(s: State, w: SequenceId)
  {
    && Total(s, w, IsThrew) == 0 && Total(s, w, IsRefused) == 0 && Total(s, w, IsRejected) == 0
    && 0 < Total(s, w, IsDelivered)
  }

  /** With every enqueue accepted, every kind handled and no handler throwing, an idle started sequence is done. */
  lemma CleanRunCompletes(es: seq<Event>, w: SequenceId, rows: seq<StepId>)
    requires Legal(EMPTY, es) && w in Exec(EMPTY, es).created && Listed(Exec(EMPTY, es), w, rows) && Idle(Exec(EMPTY, es), w)
    requires Clean(Exec(EMPTY, es), w)
    ensures forall x :: x in rows ==> x in Exec(EMPTY, es).steps && Exec(EMPTY, es).steps[x].status == Completed
    ensures Total(Exec(EMPTY, es), w, IsDelivered) == |rows|
    ensures Total(Exec(EMPTY, es), w, IsEntered) == |rows| && Total(Exec(EMPTY, es), w, IsRetried) == 0
  {
    var k := IdleOutcome(es, w, rows);
    hide Exec, Legal, Listed, Idle;
    CleanOutcome(Exec(EMPTY, es), w, rows, k);
  }

  lemma CleanOutcome(s: State, w: SequenceId, rows: seq<StepId>, k: nat)
    requires Known(s.steps, rows) && Outcome(s, w, rows, k) && Clean(s, w)
    ensures forall x :: x in rows ==> x in s.steps && s.steps[x].status == Completed
    ensures Total(s, w, IsDelivered) == |rows| && Total(s, w, IsEntered) == |rows| && Total(s, w, IsRetried) == 0
  {
    hide Total;
    var rs := RowsOf(s.steps, rows);
    forall x | x in rows
      ensures x in s.steps && s.steps[x].status == Completed
    {
      var i :| 0 <= i < |rows| && rows[i] == x;
      assert rs[i] == s.steps[x];
    }
  }

  // ---------------------------------------------------------------- whole-run order

  /** In every run the handler calls of a sequence come in step order, one at a time, each step after its predecessor. */
  ghost predicate InOrder(log: seq<Entry>, w: SequenceId, j: nat)
    requires j < |log|
  {
    && 1 <= log[j].stepNumber
    && (1 < log[j].stepNumber ==>
          exists i :: 0 <= i < j && log[i] == Entry(w, log[j].stepNumber - 1, Returned))
    && (forall i :: 0 <= i < j && log[i].workerId == w ==> log[i].stepNumber <= log[j].stepNumber)
    && (forall i :: 0 <= i < j && log[i].workerId == w && log[i].deed.Entered? ==>
          exists m :: i < m < j && log[m].workerId == w && (log[m].deed.Returned? || log[m].deed.Threw?))
    && (forall i :: 0 <= i < j && Precedes(log, w, i, j) ==> log[j].stepNumber <= log[i].stepNumber + 1)
  }

  /** The handler call at `i` is the last one of the sequence before `j`. */
  ghost predicate Precedes(log: seq<Entry>, w: SequenceId, i: nat, j: nat)
    requires i < j < |log|
  {
    && log[i].workerId == w && log[i].deed.Entered?
    && forall m :: i < m < j && log[m].workerId == w ==> !log[m].deed.Entered?
  }

  lemma HandlerOrder(es: seq<Event>, w: SequenceId, j: nat)
    requires Legal(EMPTY, es) && j < |Exec(EMPTY, es).log|
    requires Exec(EMPTY, es).log[j].workerId == w && Exec(EMPTY, es).log[j].deed.Entered?
    ensures InOrder(Exec(EMPTY, es).log, w, j)
  {
    var s := Exec(EMPTY, es);
    RunOrderly(es, w);
    hide Exec, Legal, Orderly;
    EnteredAfterSuccess(s.log, w, j);
    forall i | 0 <= i < j && s.log[i].workerId == w
      ensures s.log[i].stepNumber <= s.log[j].stepNumber
    {
      NeverGoesBack(s.log, w, i, j);
    }
    forall i | 0 <= i < j && s.log[i].workerId == w && s.log[i].deed.Entered?
      ensures exists m :: i < m < j && s.log[m].workerId == w && (s.log[m].deed.Returned? || s.log[m].deed.Threw?)
    {
      NoOverlap(s.log, w, i, j);
    }
    forall i | 0 <= i < j && Precedes(s.log, w, i, j)
      ensures s.log[j].stepNumber <= s.log[i].stepNumber + 1
    {
      RisesByOne(s.log, w, i, j);
    }
  }

  /** In every run a return or throw is that of the handler entered last, for the same step, with nothing in between. */
  lemma HandlerOutcomes(es: seq<Event>, w: SequenceId, j: nat) returns (i: nat)
    requires Legal(EMPTY, es) && j < |Exec(EMPTY, es).log| && Exec(EMPTY, es).log[j].workerId == w
    requires Exec(EMPTY, es).log[j].deed.Returned? || Exec(EMPTY, es).log[j].deed.Threw?
    ensures i < j && Precedes(Exec(EMPTY, es).log, w, i, j)
    ensures Exec(EMPTY, es).log[i].stepNumber == Exec(EMPTY, es).log[j].stepNumber
    ensures forall m :: i < m < j ==> Exec(EMPTY, es).log[m].workerId != w
  {
    var log := Exec(EMPTY, es).log;
    RunOrderly(es, w);
    SettledAfterEntry(log, w, j);
    i :| 0 <= i < j && log[i].workerId == w && log[i].deed.Entered? && log[i].stepNumber == log[j].stepNumber
         && forall m :: i < m < j ==> log[m].workerId != w;
  }

  lemma RunOrderly(es: seq<Event>, w: SequenceId)
    requires Legal(EMPTY, es)
    ensures Orderly(Exec(EMPTY, es).log, w)
  {
    var s := Exec(EMPTY, es);
    var b := KeepRun(es);
    if w in s.created {
      assert BookedOk(s, b, w);
    } else {
      NoHistory(s.log, w);
    }
  }

  /** Until an enqueue is refused, the successful calls are steps 1, 2, ..., m of the sequence, once each. */
  lemma SuccessPrefix(es: seq<Event>, w: SequenceId)
    requires Legal(EMPTY, es) && Total(Exec(EMPTY, es), w, IsRefused) == 0
    ensures var successes := Successes(Exec(EMPTY, es).log, w);
            forall i :: 0 <= i < |successes| ==> successes[i] == i + 1
  {
    RunOrderly(es, w);
    SuccessesArePrefix(Exec(EMPTY, es).log, w);
  }

  /** Handler calls are bounded by the length of the sequence and the number of retries. */
  lemma CallsBounded(es: seq<Event>, w: SequenceId, rows: seq<StepId>)
    requires Legal(EMPTY, es) && w in Exec(EMPTY, es).created && Listed(Exec(EMPTY, es), w, rows)
    ensures var s := Exec(EMPTY, es);
            && Total(s, w, IsDelivered) <= |rows|
            && Total(s, w, IsEntered) <= |rows| + Total(s, w, IsRetried)
  {
    var s := Exec(EMPTY, es);
    var b := KeepRun(es);
    ListedIsOrder(s, b, w, rows);
    hide Inv;
    hide SequenceOk;
    SequenceBounded(s, w, rows, b.seat[w]);
  }

  lemma SequenceBounded(s: State, w: SequenceId, ids: seq<StepId>, seat: Seat)
    requires SequenceOk(s, w, ids, seat)
    ensures Total(s, w, IsDelivered) <= |ids| && Total(s, w, IsEntered) <= |ids| + Total(s, w, IsRetried)
  {
    InFlight(s, w, ids, seat);
    hide SequenceOk, Count, TallyOf, Orderly;
    assert Orderly(s.log, w) by { SequenceOrderly(s, w, ids, seat); }
    Ledger(s.log, w);
  }

  lemma SequenceOrderly(s: State, w: SequenceId, ids: seq<StepId>, seat: Seat)
    requires SequenceOk(s, w, ids, seat)
    ensures Orderly(s.log, w)
  {
    hide SeatOk, Rows;
  }

  /** The steps passed and the one in hand are steps of the sequence. */
  lemma InFlight(s: State, w: SequenceId, ids: seq<StepId>, seat: Seat)
    requires SequenceOk(s, w, ids, seat)
    ensures var t := TallyOf(s.log, w); Standing(t) + t.armed + t.down + (if t.phase == Busy then 1 else 0) <= |ids|
  {
    hide Orderly, TallyOf, RowAt;
  }

  // ---------------------------------------------------------------- progress

  /** Each action of a call brings it closer to its end, whatever the others do in between. */
  function Distance(stage: Stage): nat
  {
    match stage
    case Inserting(kinds, ids) => 20 + if |kinds| > |ids| then 17 * (|kinds| - |ids|) else 0
    case Loading(_) => 14
    case Listing(_) => 15
    case Selecting(_, _) => 14
    case Starting(_, _) => 13
    case Fetching(_, _) => 12
    case Claiming(_, _, _) => 11
    case Calling(_, _, _) => 10
    case Running(_, _, _) => 9
    case Finishing(_, _, _) => 8
    case Closing(_, _, _) => 7
    case Advancing(_, _) => 6
    case Drafting(_, _, _) => 5
    case Linking(_, _, _, _) => 4
    case Sending(_, _, _, _) => 3
    case Failing(_, _) => 2
    case Tracing(_) => 1
    case Voiding(_, _) => 0
  }

  /** The stages that create steps and jobs; the others execute a step. */
  predicate Queueing(stage: Stage)
  {
    stage.Inserting? || stage.Advancing? || stage.Drafting? || stage.Linking? || stage.Sending?
  }

  /** The call has not claimed a job yet. */
  predicate Early(stage: Stage)
  {
    stage.Loading? || stage.Listing? || stage.Selecting? || stage.Starting? || stage.Fetching? || stage.Claiming?
  }

  lemma QueueingEnds(s: State, c: CallId, i: Input)
    requires CanAct(s, c, i) && Queueing(s.calls[c].stage)
    ensures var s2 := ApplyAct(s, c, i);
            c in s2.calls ==> Distance(s2.calls[c].stage) < Distance(s.calls[c].stage)
  {
  }

  lemma ExecutingEnds(s: State, c: CallId, i: Input)
    requires CanAct(s, c, i) && !Queueing(s.calls[c].stage)
    ensures var s2 := ApplyAct(s, c, i);
            c in s2.calls ==> Distance(s2.calls[c].stage) < Distance(s.calls[c].stage)
  {
  }

  lemma CallsEnd(s: State, c: CallId, i: Input)
    requires CanAct(s, c, i)
    ensures var s2 := ApplyAct(s, c, i);
            c in s2.calls ==> Distance(s2.calls[c].stage) < Distance(s.calls[c].stage)
  {
    hide ApplyAct, Queueing, Distance;
    if Queueing(s.calls[c].stage) {
      QueueingEnds(s, c, i);
    } else {
      ExecutingEnds(s, c, i);
    }
  }

  lemma OrderExists(steps: map<StepId, Step>, ids: seq<StepId>, s: State, w: SequenceId)
    requires steps == s.steps && Rows(s, ids, w)
    ensures IsOrdered(steps, Among(steps, ids), ids)
  {
    forall i, j | 0 <= i < j < |ids|
      ensures ids[i] != ids[j] && steps[ids[i]].stepNumber <= steps[ids[j]].stepNumber
    {
      assert RowAt(s, ids, w, i) && RowAt(s, ids, w, j);
    }
  }

  /** No call is ever stuck: in every reachable state each call can take its next action. */
  lemma NeverStuck(es: seq<Event>, c: CallId, ok: bool, id: nat, now: nat) returns (rows: seq<StepId>)
    requires Legal(EMPTY, es) && c in Exec(EMPTY, es).calls
    requires id !in Exec(EMPTY, es).steps && id !in Exec(EMPTY, es).jobs
    ensures CanAct(Exec(EMPTY, es), c, Input(ok, id, now, rows))
  {
    var s := Exec(EMPTY, es);
    var b := KeepRun(es);
    Seated(s, b, c);
    var w := s.calls[c].workerId;
    rows := b.order[w];
    assert BookedOk(s, b, w);
    StepsOfSequence(s, b, w);
    OrderExists(s.steps, rows, s, w);
    if Token(s.calls[c].stage) {
      TokenCanAct(s, w, rows, c, Input(ok, id, now, rows));
    }
  }

  lemma TokenCanAct(s: State, w: SequenceId, ids: seq<StepId>, c: CallId, i: Input)
    requires SequenceOk(s, w, ids, Held(c)) && i.rows == ids && StepsOf(s.steps, w) == Among(s.steps, ids)
    requires IsOrdered(s.steps, Among(s.steps, ids), ids)
    requires i.id !in s.steps && i.id !in s.jobs
    ensures CanAct(s, c, i)
  {
    var t := TallyOf(s.log, w);
    if t.k < |ids| {
      assert RowAt(s, ids, w, t.k);
    }
    if Cursor(t) < |ids| {
      assert RowAt(s, ids, w, Cursor(t));
    }
  }
}
