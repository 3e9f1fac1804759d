/**
 * The history of one sequence, read by a small automaton.
 * `k` is the zero-based index of the step the handler last ran (or will run first);
 * `armed` is executions begun less executions settled; `down` is failures less retries.
 */
module StepQueueTally {
  import opened StepQueueModel

  datatype Phase = Ready | Busy | Succeeded | Stuck

  datatype Tally = Tally(k: nat, phase: Phase, armed: int, down: int)

  const START := Tally(0, Ready, 0, 0)

  /** The zero-based index of the step to execute next, when no handler is running. */
  function Cursor(t: Tally): nat
  {
    if t.phase == Succeeded then t.k + 1 else t.k
  }

  /** No handler is running, and the sequence may still go on. */
  predicate Open(t: Tally)
  {
    t.phase == Ready || t.phase == Succeeded
  }

  /** The deed `d` on step number `n` may come next. */
  predicate Follows(t: Tally, d: Deed, n: nat)
  {
    match d
    case Delivered => Open(t) && n == Cursor(t) + 1 && t.armed == 0 && t.down == 0
    case Retried => Open(t) && n == Cursor(t) + 1 && t.armed == 0 && t.down == 1
    case Entered(_, _) => Open(t) && n == Cursor(t) + 1 && t.armed == 1 && t.down == 0
    case Rejected => Open(t) && n == Cursor(t) + 1 && t.armed == 1 && t.down == 0
    case Returned => t.phase == Busy && n == t.k + 1 && t.armed == 0 && t.down == 0
    case Threw => t.phase == Busy && n == t.k + 1 && t.armed == 0 && t.down == 0
    case Refused => t.phase == Succeeded && n == t.k + 1 && t.armed == 0 && t.down == 0
    case Stalled => t == START && n == 1
  }

  function Next(t: Tally, d: Deed, n: nat): Tally
  {
    match d
    case Delivered => t.(armed := t.armed + 1)
    case Retried => t.(armed := t.armed + 1, down := t.down - 1)
    case Rejected => t.(armed := t.armed - 1, down := t.down + 1)
    case Entered(_, _) => t.(armed := t.armed - 1, phase := Busy, k := if n == 0 then 0 else n - 1)
    case Returned => t.(phase := Succeeded)
    case Threw => t.(phase := Ready, down := t.down + 1)
    case Refused => t.(phase := Ready, down := t.down + 1)
    case Stalled => t.(phase := Stuck)
  }

  function TallyOf(log: seq<Entry>, w: SequenceId): Tally
  {
    if log == [] then START
    else
      var t := TallyOf(log[..|log| - 1], w);
      var e := log[|log| - 1];
      if e.workerId == w then Next(t, e.deed, e.stepNumber) else t
  }

  /** Every deed of the sequence followed from those before it. */
  predicate Orderly(log: seq<Entry>, w: SequenceId)
  {
    log == [] ||
    var e := log[|log| - 1];
    Orderly(log[..|log| - 1], w) &&
    (e.workerId == w ==> Follows(TallyOf(log[..|log| - 1], w), e.deed, e.stepNumber))
  }

  lemma TallyOfNote(log: seq<Entry>, e: Entry, w: SequenceId)
    ensures TallyOf(log + [e], w) ==
            if e.workerId == w then Next(TallyOf(log, w), e.deed, e.stepNumber) else TallyOf(log, w)
    ensures Orderly(log + [e], w) <==>
            Orderly(log, w) && (e.workerId == w ==> Follows(TallyOf(log, w), e.deed, e.stepNumber))
  {
    assert (log + [e])[..|log|] == log;
  }
}
