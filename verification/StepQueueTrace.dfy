/** What an orderly history says about handler calls, deliveries, failures and retries. */
module StepQueueTrace {
  import opened StepQueueModel
  import opened StepQueueTally

  predicate IsDelivered(d: Deed) { d.Delivered? }
  predicate IsRetried(d: Deed) { d.Retried? }
  predicate IsEntered(d: Deed) { d.Entered? }
  predicate IsReturned(d: Deed) { d.Returned? }
  predicate IsThrew(d: Deed) { d.Threw? }
  predicate IsRefused(d: Deed) { d.Refused? }
  predicate IsRejected(d: Deed) { d.Rejected? }
  predicate IsStalled(d: Deed) { d.Stalled? }

  function Count(log: seq<Entry>, w: SequenceId, which: Deed -> bool): nat
  {
    if log == [] then 0
    else
      var e := log[|log| - 1];
      Count(log[..|log| - 1], w, which) + if e.workerId == w && which(e.deed) then 1 else 0
  }

  lemma {:induction false} CountNone(log: seq<Entry>, w: SequenceId, which: Deed -> bool)
    requires forall i :: 0 <= i < |log| && log[i].workerId == w ==> !which(log[i].deed)
    ensures Count(log, w, which) == 0
  {
    if log != [] {
      CountNone(log[..|log| - 1], w, which);
    }
  }

  /** The step numbers of the successful handler calls of `w`, in order. */
  function Successes(log: seq<Entry>, w: SequenceId): seq<nat>
  {
    if log == [] then []
    else
      var e := log[|log| - 1];
      Successes(log[..|log| - 1], w) + if e.workerId == w && e.deed.Returned? then [e.stepNumber] else []
  }

  /** Steps whose successful call still stands. */
  function Standing(t: Tally): nat
  {
    if t.phase == Succeeded then t.k + 1 else t.k
  }

  /** Executions begun are executions settled, up to the one under way. */
  lemma {:induction false} Executions(log: seq<Entry>, w: SequenceId)
    requires Orderly(log, w)
    ensures Count(log, w, IsDelivered) + Count(log, w, IsRetried)
         == Count(log, w, IsEntered) + Count(log, w, IsRejected) + TallyOf(log, w).armed
    ensures 0 <= TallyOf(log, w).armed
  {
    if log != [] {
      Executions(log[..|log| - 1], w);
    }
  }

  /** Failures are answered by retries, up to the one that is down. */
  lemma {:induction false} Failures(log: seq<Entry>, w: SequenceId)
    requires Orderly(log, w)
    ensures Count(log, w, IsThrew) + Count(log, w, IsRefused) + Count(log, w, IsRejected)
         == Count(log, w, IsRetried) + TallyOf(log, w).down
    ensures 0 <= TallyOf(log, w).down
  {
    if log != [] {
      Failures(log[..|log| - 1], w);
    }
  }

  /** Handler calls end in a return or a throw, up to the one running. */
  lemma {:induction false} HandlerCalls(log: seq<Entry>, w: SequenceId)
    requires Orderly(log, w)
    ensures Count(log, w, IsEntered)
         == Count(log, w, IsReturned) + Count(log, w, IsThrew) + if TallyOf(log, w).phase == Busy then 1 else 0
  {
    if log != [] {
      HandlerCalls(log[..|log| - 1], w);
    }
  }

  /** Successful calls stand, except those undone by a refused enqueue. */
  lemma {:induction false} SuccessfulCalls(log: seq<Entry>, w: SequenceId)
    requires Orderly(log, w)
    ensures Count(log, w, IsReturned) == Count(log, w, IsRefused) + Standing(TallyOf(log, w))
  {
    if log != [] {
      SuccessfulCalls(log[..|log| - 1], w);
    }
  }

  /**
   * The books balance: deliveries, retries, calls and failures determine each other.
   * In particular a step's message is delivered once, however often its handler is called.
   */
  lemma Ledger(log: seq<Entry>, w: SequenceId)
    requires Orderly(log, w)
    ensures var t := TallyOf(log, w);
            && Count(log, w, IsDelivered) + Count(log, w, IsRetried)
               == Count(log, w, IsEntered) + Count(log, w, IsRejected) + t.armed
            && Count(log, w, IsThrew) + Count(log, w, IsRefused) + Count(log, w, IsRejected)
               == Count(log, w, IsRetried) + t.down
            && Count(log, w, IsEntered)
               == Count(log, w, IsReturned) + Count(log, w, IsThrew) + (if t.phase == Busy then 1 else 0)
            && Count(log, w, IsReturned) == Count(log, w, IsRefused) + Standing(t)
            && 0 <= t.armed && 0 <= t.down
  {
    hide *;
    Executions(log, w);
    Failures(log, w);
    HandlerCalls(log, w);
    SuccessfulCalls(log, w);
  }

  lemma {:induction false} OrderlyPrefix(log: seq<Entry>, w: SequenceId, j: nat)
    requires Orderly(log, w) && j <= |log|
    ensures Orderly(log[..j], w)
  {
    if j == |log| {
      assert log[..j] == log;
    } else {
      assert log[..|log| - 1][..j] == log[..j];
      OrderlyPrefix(log[..|log| - 1], w, j);
    }
  }

  /** What `Follows` said when entry `j` was made. */
  lemma Was(log: seq<Entry>, w: SequenceId, j: nat)
    requires Orderly(log, w) && j < |log| && log[j].workerId == w
    ensures Orderly(log[..j], w) && Follows(TallyOf(log[..j], w), log[j].deed, log[j].stepNumber)
    ensures Orderly(log[..j + 1], w)
    ensures TallyOf(log[..j + 1], w) == Next(TallyOf(log[..j], w), log[j].deed, log[j].stepNumber)
  {
    OrderlyPrefix(log, w, j);
    OrderlyPrefix(log, w, j + 1);
    assert log[..j + 1][..j] == log[..j];
  }

  /** A positive number of standing steps rests on a successful call of the last of them. */
  lemma {:induction false} Earned(log: seq<Entry>, w: SequenceId)
    requires Orderly(log, w) && 0 < Standing(TallyOf(log, w))
    ensures exists i :: 0 <= i < |log| && log[i] == Entry(w, Standing(TallyOf(log, w)), Returned)
  {
    var n := Standing(TallyOf(log, w));
    var prior := log[..|log| - 1];
    var e := log[|log| - 1];
    if Standing(TallyOf(prior, w)) == n {
      Earned(prior, w);
      var i :| 0 <= i < |prior| && prior[i] == Entry(w, n, Returned);
      assert log[i] == Entry(w, n, Returned);
    } else if e.workerId == w && e.deed.Refused? {
      EarnedBefore(prior, w);
      var i :| 0 <= i < |prior| && prior[i] == Entry(w, n, Returned);
      assert log[i] == Entry(w, n, Returned);
    }
  }

  /** Every step below the last one entered has a successful call. */
  lemma {:induction false} EarnedBefore(log: seq<Entry>, w: SequenceId)
    requires Orderly(log, w) && 0 < TallyOf(log, w).k
    ensures exists i :: 0 <= i < |log| && log[i] == Entry(w, TallyOf(log, w).k, Returned)
  {
    var k := TallyOf(log, w).k;
    var prior := log[..|log| - 1];
    if TallyOf(prior, w).k == k {
      EarnedBefore(prior, w);
      var i :| 0 <= i < |prior| && prior[i] == Entry(w, k, Returned);
      assert log[i] == Entry(w, k, Returned);
    } else {
      Earned(prior, w);
      var i :| 0 <= i < |prior| && prior[i] == Entry(w, k, Returned);
      assert log[i] == Entry(w, k, Returned);
    }
  }

  /** The handler of step n > 1 is entered only after the handler of step n - 1 has returned. */
  lemma EnteredAfterSuccess(log: seq<Entry>, w: SequenceId, j: nat)
    requires Orderly(log, w) && j < |log| && log[j].workerId == w && log[j].deed.Entered?
    ensures 1 <= log[j].stepNumber
    ensures 1 < log[j].stepNumber ==> exists i :: 0 <= i < j && log[i] == Entry(w, log[j].stepNumber - 1, Returned)
  {
    Was(log, w, j);
    if 1 < log[j].stepNumber {
      Earned(log[..j], w);
      var i :| 0 <= i < j && log[..j][i] == Entry(w, log[j].stepNumber - 1, Returned);
      assert log[i] == Entry(w, log[j].stepNumber - 1, Returned);
    }
  }

  /** A handler returns or throws only if it is the one entered last. */
  lemma {:induction false} SettledAfterEntry(log: seq<Entry>, w: SequenceId, j: nat)
    requires Orderly(log, w) && j < |log| && log[j].workerId == w && (log[j].deed.Returned? || log[j].deed.Threw?)
    ensures exists i :: 0 <= i < j && log[i].workerId == w && log[i].deed.Entered? &&
                        log[i].stepNumber == log[j].stepNumber &&
                        forall m :: i < m < j ==> log[m].workerId != w
  {
    Was(log, w, j);
    BusySince(log[..j], w);
    var i :| 0 <= i < j && log[..j][i].workerId == w && log[..j][i].deed.Entered? &&
             log[..j][i].stepNumber == log[j].stepNumber && forall m :: i < m < j ==> log[..j][m].workerId != w;
    assert forall m :: i < m < j ==> log[m] == log[..j][m];
    assert log[i] == log[..j][i];
  }

  lemma {:induction false} BusySince(log: seq<Entry>, w: SequenceId)
    requires Orderly(log, w) && TallyOf(log, w).phase == Busy
    ensures exists i :: 0 <= i < |log| && log[i].workerId == w && log[i].deed.Entered? &&
                        log[i].stepNumber == TallyOf(log, w).k + 1 &&
                        forall m :: i < m < |log| ==> log[m].workerId != w
  {
    var prior := log[..|log| - 1];
    if log[|log| - 1].workerId == w {
      assert log[|log| - 1].deed.Entered?;
    } else {
      BusySince(prior, w);
      var i :| 0 <= i < |prior| && prior[i].workerId == w && prior[i].deed.Entered? &&
               prior[i].stepNumber == TallyOf(prior, w).k + 1 &&
               forall m :: i < m < |prior| ==> prior[m].workerId != w;
      assert forall m :: i < m < |prior| ==> log[m] == prior[m];
      assert log[i] == prior[i];
    }
  }

  /** Between two entries of handlers of one sequence the first handler has finished. */
  lemma NoOverlap(log: seq<Entry>, w: SequenceId, i: nat, j: nat)
    requires Orderly(log, w) && i < j < |log|
    requires log[i].workerId == w && log[i].deed.Entered? && log[j].workerId == w && log[j].deed.Entered?
    ensures exists m :: i < m < j && log[m].workerId == w && (log[m].deed.Returned? || log[m].deed.Threw?)
  {
    Was(log, w, i);
    Was(log, w, j);
    FirstAfterEntry(log, w, i, j);
  }

  lemma {:induction false} FirstAfterEntry(log: seq<Entry>, w: SequenceId, i: nat, j: nat)
    requires i < j <= |log| && TallyOf(log[..i + 1], w).phase == Busy && TallyOf(log[..j], w).phase != Busy
    requires Orderly(log[..j], w)
    ensures exists m :: i < m < j && log[m].workerId == w && (log[m].deed.Returned? || log[m].deed.Threw?)
    decreases j
  {
    assert log[..j][..j - 1] == log[..j - 1];
    if TallyOf(log[..j - 1], w).phase == Busy {
      assert i + 1 <= j - 1 && log[j - 1].workerId == w;
    } else {
      FirstAfterEntry(log, w, i, j - 1);
    }
  }

  /** Between two entries `k` stays that of the first, unless a handler is entered in between. */
  lemma {:induction false} SameUntilEntered(log: seq<Entry>, w: SequenceId, i: nat, j: nat)
    requires Orderly(log, w) && i < j <= |log| && log[i].workerId == w && log[i].deed.Entered?
    requires forall m :: i < m < j && log[m].workerId == w ==> !log[m].deed.Entered?
    ensures TallyOf(log[..j], w).k + 1 == log[i].stepNumber
    decreases j
  {
    if j == i + 1 {
      Was(log, w, i);
    } else {
      SameUntilEntered(log, w, i, j - 1);
      assert log[..j][..j - 1] == log[..j - 1];
    }
  }

  /** From one handler call to the next the step number rises by one at most. */
  lemma RisesByOne(log: seq<Entry>, w: SequenceId, i: nat, j: nat)
    requires Orderly(log, w) && i < j < |log|
    requires log[i].workerId == w && log[i].deed.Entered? && log[j].workerId == w && log[j].deed.Entered?
    requires forall m :: i < m < j && log[m].workerId == w ==> !log[m].deed.Entered?
    ensures log[i].stepNumber <= log[j].stepNumber <= log[i].stepNumber + 1
  {
    Was(log, w, j);
    SameUntilEntered(log, w, i, j);
    NeverGoesBack(log, w, i, j);
  }

  /** No handler beyond the step at `k` has been entered. */
  lemma {:induction false} EnteredBelow(log: seq<Entry>, w: SequenceId, j: nat)
    requires Orderly(log, w) && j < |log| && log[j].workerId == w && log[j].deed.Entered?
    ensures log[j].stepNumber <= TallyOf(log, w).k + 1
  {
    if j < |log| - 1 {
      EnteredBelow(log[..|log| - 1], w, j);
    }
  }

  // ---------------------------------------------------------------- failures and refused starts

  predicate IsFailure(d: Deed)
  {
    d.Threw? || d.Refused? || d.Rejected?
  }

  /** A sequence that is down has failed last, at the step it would execute next. */
  lemma {:induction false} DownAtFailure(log: seq<Entry>, w: SequenceId) returns (j: nat)
    requires Orderly(log, w) && TallyOf(log, w).down == 1
    ensures j < |log| && log[j].workerId == w && IsFailure(log[j].deed)
    ensures log[j].stepNumber == Cursor(TallyOf(log, w)) + 1
    ensures forall m :: j < m < |log| ==> log[m].workerId != w
  {
    var prior, e := log[..|log| - 1], log[|log| - 1];
    if e.workerId == w {
      j := |log| - 1;
    } else {
      j := DownAtFailure(prior, w);
    }
  }

  /** An enqueue is refused only after a successful handler call of its owner. */
  lemma RefusedAfterEntry(log: seq<Entry>, w: SequenceId, j: nat)
    requires Orderly(log, w) && j < |log| && log[j].workerId == w && log[j].deed.Refused?
    ensures exists i :: 0 <= i < j && log[i].workerId == w && log[i].deed.Entered? && log[i].stepNumber == log[j].stepNumber
  {
    Was(log, w, j);
    Earned(log[..j], w);
    var m :| 0 <= m < j && log[..j][m] == Entry(w, log[j].stepNumber, Returned);
    assert log[m] == log[..j][m];
    SettledAfterEntry(log, w, m);
  }

  /** A refused first enqueue is the whole history of its sequence. */
  lemma {:induction false} StuckHistory(log: seq<Entry>, w: SequenceId)
    requires Orderly(log, w)
    ensures TallyOf(log, w).phase == Stuck <==> exists j :: 0 <= j < |log| && log[j] == Entry(w, 1, Stalled)
    ensures TallyOf(log, w).phase == Stuck ==>
      forall j :: 0 <= j < |log| && log[j].workerId == w ==> log[j] == Entry(w, 1, Stalled)
  {
    if log != [] {
      var prior, e := log[..|log| - 1], log[|log| - 1];
      StuckHistory(prior, w);
      if j :| 0 <= j < |prior| && prior[j] == Entry(w, 1, Stalled) {
        assert log[j] == Entry(w, 1, Stalled);
      }
      if e.workerId == w && e.deed.Stalled? {
        Silent(prior, w);
      }
    }
  }

  /** The step number up to which the history of a sequence has come. */
  function Reach(t: Tally): nat
  {
    if t.phase == Succeeded && t.armed == 0 && t.down == 0 then t.k + 1
    else if t.phase == Busy then t.k + 1
    else Cursor(t) + 1
  }

  lemma {:induction false} ReachGrows(log: seq<Entry>, w: SequenceId, i: nat)
    requires Orderly(log, w) && i <= |log|
    ensures Reach(TallyOf(log[..i], w)) <= Reach(TallyOf(log, w))
  {
    if i < |log| {
      var prior := log[..|log| - 1];
      assert prior[..i] == log[..i];
      ReachGrows(prior, w, i);
      Ledger(prior, w);
    } else {
      assert log[..i] == log;
    }
  }

  /** Nothing that happens to a sequence ever concerns an earlier step than what happened before. */
  lemma NeverGoesBack(log: seq<Entry>, w: SequenceId, i: nat, j: nat)
    requires Orderly(log, w) && i <= j < |log| && log[i].workerId == w && log[j].workerId == w
    ensures log[i].stepNumber <= log[j].stepNumber
  {
    Was(log, w, i);
    Was(log, w, j);
    if i < j {
      assert log[..j][..i + 1] == log[..i + 1];
      ReachGrows(log[..j], w, i + 1);
      Ledger(log[..i], w);
      Ledger(log[..j], w);
    }
  }

  /** Without refused enqueues the successful calls are steps 1, 2, ..., m, once each. */
  lemma {:induction false} SuccessesArePrefix(log: seq<Entry>, w: SequenceId)
    requires Orderly(log, w) && Count(log, w, IsRefused) == 0
    ensures |Successes(log, w)| == Standing(TallyOf(log, w))
    ensures forall i :: 0 <= i < |Successes(log, w)| ==> Successes(log, w)[i] == i + 1
  {
    if log != [] {
      SuccessesArePrefix(log[..|log| - 1], w);
    }
  }

  /** The m-th message delivered for a sequence is that of step m: no step is delivered twice or out of turn. */
  lemma DeliveriesInOrder(log: seq<Entry>, w: SequenceId, j: nat)
    requires Orderly(log, w) && j < |log| && log[j].workerId == w && log[j].deed == Delivered
    ensures log[j].stepNumber == Count(log[..j], w, IsDelivered) + 1
  {
    Was(log, w, j);
    Ledger(log[..j], w);
  }

  /** A sequence that is ready, with nothing in flight and nothing down, has no history. */
  lemma {:induction false} Silent(log: seq<Entry>, w: SequenceId)
    requires Orderly(log, w)
    requires var t := TallyOf(log, w); t.phase == Ready && t.armed == 0 && t.down == 0
    ensures forall i :: 0 <= i < |log| ==> log[i].workerId != w
    ensures TallyOf(log, w).k == 0
  {
    if log != [] {
      var prior := log[..|log| - 1];
      Ledger(prior, w);
      assert log[|log| - 1].workerId != w;
      Silent(prior, w);
    }
  }
}
