/** Every run is finite, ends with nobody at work, and what a drained sequence looks like. */
module StepQueueProgress {
  import opened Wrappers
  import opened StepQueueModel
  import opened StepQueueTally
  import opened StepQueueInvariant
  import opened StepQueueSequence
  import opened StepQueueSafety
  import opened StepQueueTrace
  import opened StepQueueRuns
  import opened StepQueueReach

  // ---------------------------------------------------------------- the potential

  /** The actions all calls in progress may still take. */
  ghost function Load(calls: map<CallId, Call>): nat
    decreases |calls|
  {
    if calls == map[] then 0
    else
      var c :| c in calls;
      assert |calls - {c}| < |calls| by { assert calls.Keys == (calls - {c}).Keys + {c}; }
      Distance(calls[c].stage) + 1 + Load(calls - {c})
  }

  lemma {:induction false} LoadSplit(calls: map<CallId, Call>, c: CallId)
    requires c in calls
    ensures Load(calls) == Distance(calls[c].stage) + 1 + Load(calls - {c})
    decreases |calls|
  {
    var d :| d in calls && Load(calls) == Distance(calls[d].stage) + 1 + Load(calls - {d});
    if d != c {
      assert calls.Keys == (calls - {c}).Keys + {c};
      assert calls.Keys == (calls - {d}).Keys + {d};
      LoadSplit(calls - {d}, c);
      LoadSplit(calls - {c}, d);
      assert calls - {d} - {c} == calls - {c} - {d};
    }
  }

  /** The message of step `id` has been delivered. */
  ghost predicate DeliveredEver(s: State, id: StepId)
    requires id in s.steps
  {
    exists j :: 0 <= j < |s.log| && s.log[j] == Entry(s.steps[id].workerId, s.steps[id].stepNumber, Delivered)
  }

  ghost function Undelivered(s: State): set<StepId>
  {
    set id | id in s.steps && !DeliveredEver(s, id)
  }

  /** What is left to do: the actions of the calls in progress, and a delivery with its actions for each other step. */
  ghost function Remaining(s: State): nat
  {
    Load(s.calls) + 16 * |Undelivered(s)|
  }

  /** No step is delivered; `added` is the row that may have been inserted. */
  ghost predicate NoDelivery(s: State, s2: State, added: set<StepId>)
  {
    && s2.steps.Keys <= s.steps.Keys + added
    && Extends(s, s2)
    && |s2.log| <= |s.log| + 1 && (|s2.log| > |s.log| ==> s2.log[|s.log|].deed != Delivered)
  }

  lemma StaysDelivered(s: State, s2: State, id: StepId)
    requires Extends(s, s2) && id in s.steps
    ensures id in s2.steps && (DeliveredEver(s, id) ==> DeliveredEver(s2, id))
  {
    assert SameStep(s.steps[id], s2.steps[id]);
    if j :| 0 <= j < |s.log| && s.log[j] == Entry(s.steps[id].workerId, s.steps[id].stepNumber, Delivered) {
      assert s2.log[j] == s.log[j];
    }
  }

  lemma NoDeliveryKeeps(s: State, s2: State, added: set<StepId>)
    requires NoDelivery(s, s2, added)
    ensures Undelivered(s2) <= Undelivered(s) + added
    ensures |Undelivered(s2)| <= |Undelivered(s)| + |added|
  {
    forall id | id in Undelivered(s2) && id !in added
      ensures id in Undelivered(s)
    {
      StaysDelivered(s, s2, id);
    }
    SubsetSize(Undelivered(s2), Undelivered(s) + added);
    assert |Undelivered(s) + added| <= |Undelivered(s)| + |added|;
  }

  lemma {:induction false} SubsetSize<T>(small: set<T>, large: set<T>)
    requires small <= large
    ensures |small| <= |large|
  {
    assert large == small + (large - small);
  }

  // ---------------------------------------------------------------- one event

  /** The row an action inserts. */
  function Inserts(s: State, c: CallId, i: Input): set<StepId>
    requires c in s.calls
  {
    match s.calls[c].stage
    case Inserting(kinds, ids) => if |ids| < |kinds| then {i.id} else {}
    case _ => {}
  }

  lemma QueueingDelivers(s: State, c: CallId, i: Input)
    requires CanAct(s, c, i) && Queueing(s.calls[c].stage)
    ensures ApplyAct(s, c, i).steps.Keys <= s.steps.Keys + Inserts(s, c, i)
    ensures var log := ApplyAct(s, c, i).log;
            |log| <= |s.log| + 1 && (|log| > |s.log| ==> log[|s.log|].deed != Delivered)
    ensures ApplyAct(s, c, i).calls.Keys <= s.calls.Keys
  {
    hide NextPending, IsOrdered, Among;
  }

  lemma EarlyDelivers(s: State, c: CallId, i: Input)
    requires CanAct(s, c, i) && Early(s.calls[c].stage)
    ensures ApplyAct(s, c, i).steps.Keys <= s.steps.Keys + Inserts(s, c, i)
    ensures var log := ApplyAct(s, c, i).log;
            |log| <= |s.log| + 1 && (|log| > |s.log| ==> log[|s.log|].deed != Delivered)
    ensures ApplyAct(s, c, i).calls.Keys <= s.calls.Keys
  {
    hide NextPending, IndexOf, IsOrdered, Among, StepsOf;
  }

  lemma LateDelivers(s: State, c: CallId, i: Input)
    requires CanAct(s, c, i) && !Queueing(s.calls[c].stage) && !Early(s.calls[c].stage)
    ensures ApplyAct(s, c, i).steps.Keys <= s.steps.Keys + Inserts(s, c, i)
    ensures var log := ApplyAct(s, c, i).log;
            |log| <= |s.log| + 1 && (|log| > |s.log| ==> log[|s.log|].deed != Delivered)
    ensures ApplyAct(s, c, i).calls.Keys <= s.calls.Keys
  {
    hide NextPending, IndexOf, IsOrdered, Among, StepsOf;
  }

  lemma ActDelivers(s: State, c: CallId, i: Input)
    requires CanAct(s, c, i)
    ensures NoDelivery(s, ApplyAct(s, c, i), Inserts(s, c, i))
    ensures ApplyAct(s, c, i).calls.Keys <= s.calls.Keys
  {
    hide ApplyAct, Queueing, Early, Inserts, Extends;
    ActExtends(s, c, i);
    if Queueing(s.calls[c].stage) {
      QueueingDelivers(s, c, i);
    } else if Early(s.calls[c].stage) {
      EarlyDelivers(s, c, i);
    } else {
      LateDelivers(s, c, i);
    }
  }

  /** An insertion pays for the delivery of the row it inserts. */
  lemma InsertPays(s: State, c: CallId, i: Input)
    requires CanAct(s, c, i) && Inserts(s, c, i) != {}
    ensures var s2 := ApplyAct(s, c, i);
            c in s2.calls && Distance(s2.calls[c].stage) + 17 == Distance(s.calls[c].stage)
  {
  }

  lemma ActPays(s: State, c: CallId, i: Input)
    requires CanAct(s, c, i)
    ensures Remaining(ApplyAct(s, c, i)) < Remaining(s)
  {
    hide ApplyAct, Distance, CanAct, Inserts, NoDelivery;
    assert c in s.calls by { Acting(s, c, i); }
    var s2 := ApplyAct(s, c, i);
    ActDelivers(s, c, i);
    NoDeliveryKeeps(s, s2, Inserts(s, c, i));
    LoadSplit(s.calls, c);
    forall d | d in s.calls && d != c
      ensures d in s2.calls && s2.calls[d] == s.calls[d]
    {
      ActLeavesOthers(s, c, i, d);
    }
    assert s2.calls - {c} == s.calls - {c};
    CallsEnd(s, c, i);
    if c in s2.calls {
      LoadSplit(s2.calls, c);
    } else {
      assert s2.calls == s2.calls - {c};
    }
    if Inserts(s, c, i) != {} {
      InsertPays(s, c, i);
      assert |Inserts(s, c, i)| <= 1 by { OneInsert(s, c, i); }
    }
  }

  lemma Acting(s: State, c: CallId, i: Input)
    requires CanAct(s, c, i)
    ensures c in s.calls
  {
  }

  lemma OneInsert(s: State, c: CallId, i: Input)
    requires c in s.calls
    ensures |Inserts(s, c, i)| <= 1
  {
  }

  lemma {:induction false} DeliveredBelow(log: seq<Entry>, w: SequenceId, j: nat)
    requires Orderly(log, w) && j < |log| && log[j].workerId == w && log[j].deed == Delivered
    ensures log[j].stepNumber <= Count(log, w, IsDelivered)
  {
    if j < |log| - 1 {
      DeliveredBelow(log[..|log| - 1], w, j);
    } else {
      DeliveriesInOrder(log, w, j);
    }
  }

  /** A queued message is the first of its step. */
  lemma MailIsFirst(s: State, w: SequenceId, ids: seq<StepId>, m: Message)
    requires SequenceOk(s, w, ids, Mail(m))
    ensures m.stepId in s.steps && s.steps[m.stepId].workerId == w && !DeliveredEver(s, m.stepId)
  {
    var t := TallyOf(s.log, w);
    assert RowAt(s, ids, w, Cursor(t));
    Ledger(s.log, w);
    forall j | 0 <= j < |s.log| && s.log[j].workerId == w && s.log[j].deed == Delivered
      ensures s.log[j].stepNumber <= Cursor(t)
    {
      DeliveredBelow(s.log, w, j);
    }
  }

  lemma DeliverPays(s: State, b: Book, c: CallId, m: Message)
    requires Inv(s, b) && Enabled(s, Deliver(c, m))
    ensures Remaining(Apply(s, Deliver(c, m))) < Remaining(s)
  {
    hide Inv, SequenceOk;
    DeliverSeat(s, b, c, m);
    MailIsFirst(s, s.steps[m.stepId].workerId, b.order[s.steps[m.stepId].workerId], m);
    DeliverCounts(s, c, m);
    var s2 := Apply(s, Deliver(c, m));
    LoadSplit(s2.calls, c);
    assert s2.calls - {c} == s.calls;
  }

  lemma DeliverCounts(s: State, c: CallId, m: Message)
    requires Enabled(s, Deliver(c, m)) && !DeliveredEver(s, m.stepId)
    ensures |Undelivered(Apply(s, Deliver(c, m)))| + 1 <= |Undelivered(s)|
  {
    var s2 := Apply(s, Deliver(c, m));
    assert Extends(s, s2) && s2.steps == s.steps;
    assert s2.log[|s.log|] == Entry(s.steps[m.stepId].workerId, s.steps[m.stepId].stepNumber, Delivered);
    hide Extends, Apply;
    assert DeliveredEver(s2, m.stepId);
    forall id | id in Undelivered(s2)
      ensures id in Undelivered(s)
    {
      StaysDelivered(s, s2, id);
    }
    SubsetSize(Undelivered(s2), Undelivered(s) - {m.stepId});
    assert |Undelivered(s) - {m.stepId}| == |Undelivered(s)| - 1;
  }

  lemma DeliverSeat(s: State, b: Book, c: CallId, m: Message)
    requires Inv(s, b) && Enabled(s, Deliver(c, m))
    ensures var w := s.steps[m.stepId].workerId;
            w in b.order && w in b.seat && SequenceOk(s, w, b.order[w], Mail(m))
  {
    assert BookedOk(s, b, s.steps[m.stepId].workerId);
  }

  /** What a command adds to the work to be done, itself included. */
  function Cost(e: Event): nat
  {
    match e
    case Register(_) => 1
    case Create(_, _, kinds) => 22 + 17 * |kinds|
    case Retry(_, _) => 17
    case Deliver(_, _) => 0
    case Act(_, _) => 0
  }

  lemma CommandPays(s: State, e: Event)
    requires Enabled(s, e) && (e.Register? || e.Create? || e.Retry?)
    ensures Remaining(Apply(s, e)) + 1 <= Remaining(s) + Cost(e)
  {
    hide *;
    CommandDelivers(s, e);
    NoDeliveryKeeps(s, Apply(s, e), {});
    CommandLoads(s, e);
    Sums(s);
    Sums(Apply(s, e));
  }

  lemma Sums(s: State)
    ensures Remaining(s) == Load(s.calls) + 16 * |Undelivered(s)|
  {
    hide Load, Undelivered;
  }

  lemma CommandLoads(s: State, e: Event)
    requires Enabled(s, e) && (e.Register? || e.Create? || e.Retry?)
    ensures Load(Apply(s, e).calls) + 1 <= Load(s.calls) + Cost(e)
  {
    hide Load;
    var calls := Apply(s, e).calls;
    match e
    case Create(c, _, _) => LoadSplit(calls, c); assert calls - {c} == s.calls;
    case Retry(c, _) => LoadSplit(calls, c); assert calls - {c} == s.calls;
    case Register(_) =>
  }

  lemma CommandDelivers(s: State, e: Event)
    requires Enabled(s, e) && (e.Register? || e.Create? || e.Retry?)
    ensures NoDelivery(s, Apply(s, e), {})
  {
  }

  /** Actions and deliveries consume what commands provide. */
  lemma EventPays(s: State, b: Book, e: Event)
    requires Inv(s, b) && Enabled(s, e)
    ensures Remaining(Apply(s, e)) + 1 <= Remaining(s) + Cost(e)
  {
    hide Inv, Remaining;
    match e
    case Act(c, i) => ActPays(s, c, i);
    case Deliver(c, m) => DeliverPays(s, b, c, m);
    case _ => CommandPays(s, e);
  }

  // ---------------------------------------------------------------- every run is finite

  /** The sum of the costs of the commands given. */
  function Budget(es: seq<Event>): nat
  {
    if es == [] then 0 else Budget(es[..|es| - 1]) + Cost(es[|es| - 1])
  }

  /**
   * The length of a run is bounded by its commands alone: 22 for each creation and 17 for each of its steps,
   * 17 for each retry, 1 for each registration.  Actions and deliveries are free, so no run goes on forever without commands.
   */
  lemma {:induction false} RunsAreFinite(es: seq<Event>)
    requires Legal(EMPTY, es)
    ensures |es| + Remaining(Exec(EMPTY, es)) <= Budget(es)
  {
    if es == [] {
      assert Undelivered(EMPTY) == {};
    } else {
      var before := es[..|es| - 1];
      RunsAreFinite(before);
      var b := KeepRun(before);
      hide Inv, Remaining, Cost, Enabled, Apply;
      EventPays(Exec(EMPTY, before), b, es[|es| - 1]);
    }
  }

  /** After any run, further actions and deliveries are limited to what remains. */
  lemma {:induction false} WorkIsLimited(es: seq<Event>, es2: seq<Event>)
    requires Legal(EMPTY, es) && Legal(Exec(EMPTY, es), es2) && Works(es2)
    ensures |es2| <= Remaining(Exec(EMPTY, es))
  {
    var n := Worked(es, es2);
  }

  lemma {:induction false} Worked(es: seq<Event>, es2: seq<Event>) returns (left: nat)
    requires Legal(EMPTY, es) && Legal(Exec(EMPTY, es), es2) && Works(es2)
    ensures left == Remaining(Exec(Exec(EMPTY, es), es2)) && |es2| + left <= Remaining(Exec(EMPTY, es))
  {
    hide Remaining, Enabled, Apply;
    left := Remaining(Exec(Exec(EMPTY, es), es2));
    if es2 != [] {
      var n := |es2| - 1;
      var mid := Worked(es, es2[..n]);
      RunsCompose(EMPTY, es, es2[..n]);
      var b := KeepRun(es + es2[..n]);
      hide Inv;
      EventPays(Exec(Exec(EMPTY, es), es2[..n]), b, es2[n]);
    }
  }

  // ---------------------------------------------------------------- where runs end

  /** No call can act and no message can be delivered. */
  ghost predicate Quiescent(s: State)
  {
    && (forall c, i :: !CanAct(s, c, i))
    && (forall c, m :: !Enabled(s, Deliver(c, m)))
  }

  /** Every queued message can be delivered. */
  lemma MessagesAreDeliverable(es: seq<Event>, c: CallId, m: Message)
    requires Legal(EMPTY, es) && c !in Exec(EMPTY, es).calls
    ensures m in Exec(EMPTY, es).queue <==> Enabled(Exec(EMPTY, es), Deliver(c, m))
  {
    OneTokenPerSequence(es);
  }

  /** A run can stop only when the queue is empty and every call has returned; then every sequence is idle. */
  lemma QuiescentIff(es: seq<Event>)
    requires Legal(EMPTY, es)
    ensures Quiescent(Exec(EMPTY, es)) <==> Exec(EMPTY, es).calls == map[] && Exec(EMPTY, es).queue == multiset{}
    ensures Quiescent(Exec(EMPTY, es)) ==> forall w :: Idle(Exec(EMPTY, es), w)
  {
    var s := Exec(EMPTY, es);
    hide Exec, Legal;
    if Quiescent(s) {
      if s.calls != map[] {
        var e := NextEvent(es, (s, c) => true);
        assert false;
      } else if s.queue != multiset{} {
        var e := NextEvent(es, (s, c) => true);
        assert false;
      }
    } else if c, i :| CanAct(s, c, i) {
      Acting(s, c, i);
    }
  }

  /** While a call is in progress or a message queued, some action or delivery is possible. */
  lemma NextEvent(es: seq<Event>, policy: (State, CallId) -> bool) returns (e: Event)
    requires Legal(EMPTY, es)
    requires Exec(EMPTY, es).calls != map[] || Exec(EMPTY, es).queue != multiset{}
    ensures Enabled(Exec(EMPTY, es), e) && (e.Act? || e.Deliver?)
    ensures e.Act? ==> e.input.ok == policy(Exec(EMPTY, es), e.call)
  {
    var s := Exec(EMPTY, es);
    if s.calls != map[] {
      var c :| c in s.calls;
      var id := FreshExists(s.steps.Keys + s.jobs.Keys);
      var rows := NeverStuck(es, c, policy(s, c), id, 0);
      e := Act(c, Input(policy(s, c), id, 0, rows));
    } else {
      var m :| m in s.queue;
      var c := FreshExists(s.calls.Keys);
      MessagesAreDeliverable(es, c, m);
      e := Deliver(c, m);
    }
  }

  /** The environment decides as `policy` says whenever a call acts. */
  ghost predicate Steered(s: State, es: seq<Event>, policy: (State, CallId) -> bool)
    requires Legal(s, es)
  {
    es == [] ||
    var n := |es| - 1;
    && Steered(s, es[..n], policy)
    && (es[n].Act? ==> es[n].input.ok == policy(Exec(s, es[..n]), es[n].call))
  }

  /** `es2` takes actions and deliveries only. */
  predicate Works(es2: seq<Event>)
  {
    forall i :: 0 <= i < |es2| ==> es2[i].Act? || es2[i].Deliver?
  }

  lemma {:induction false} DrainOn(es: seq<Event>, done: seq<Event>, policy: (State, CallId) -> bool) returns (es2: seq<Event>)
    requires Legal(EMPTY, es) && Legal(Exec(EMPTY, es), done) && Works(done) && Steered(Exec(EMPTY, es), done, policy)
    requires Legal(EMPTY, es + done) && Exec(EMPTY, es + done) == Exec(Exec(EMPTY, es), done)
    ensures Legal(Exec(EMPTY, es), es2) && Works(es2) && Steered(Exec(EMPTY, es), es2, policy)
    ensures Exec(Exec(EMPTY, es), es2).calls == map[] && Exec(Exec(EMPTY, es), es2).queue == multiset{}
    decreases Remaining(Exec(EMPTY, es + done))
  {
    hide Remaining, Enabled, Apply;
    var s := Exec(EMPTY, es + done);
    if s.calls == map[] && s.queue == multiset{} {
      es2 := done;
    } else {
      var e := NextEvent(es + done, policy);
      var b := KeepRun(es + done);
      hide Inv;
      EventPays(s, b, e);
      assert (done + [e])[..|done|] == done;
      assert es + (done + [e]) == (es + done) + [e];
      assert ((es + done) + [e])[..|es + done|] == es + done;
      es2 := DrainOn(es, done + [e], policy);
    }
  }

  /** From every reachable state, whatever the handlers and enqueues do, work alone leads to a state at rest. */
  lemma CanDrain(es: seq<Event>, policy: (State, CallId) -> bool) returns (es2: seq<Event>)
    requires Legal(EMPTY, es)
    ensures Legal(Exec(EMPTY, es), es2) && Works(es2) && Steered(Exec(EMPTY, es), es2, policy)
    ensures |es2| <= Remaining(Exec(EMPTY, es))
    ensures Quiescent(Exec(Exec(EMPTY, es), es2))
  {
    assert es + [] == es;
    es2 := DrainOn(es, [], policy);
    WorkIsLimited(es, es2);
    RunsCompose(EMPTY, es, es2);
    QuiescentIff(es + es2);
  }

  // ---------------------------------------------------------------- draining one sequence

  /** The handlers of `w` throw at step `k` and at no other. */
  ghost predicate ThrowsAt(s: State, w: SequenceId, k: nat)
  {
    forall j :: 0 <= j < |s.log| && s.log[j].workerId == w ==>
      && (s.log[j].deed.Threw? ==> s.log[j].stepNumber == k)
      && (s.log[j].deed.Returned? ==> s.log[j].stepNumber != k)
  }

  /** Every enqueue was accepted, every step had a handler, and nothing was retried. */
  ghost predicate Undisturbed(s: State, w: SequenceId)
  {
    && !StartRefused(s, w) && Total(s, w, IsRefused) == 0 && Total(s, w, IsRejected) == 0 && Total(s, w, IsRetried) == 0
  }

  /** COMPLETED up to step k - 1, FAILED at step k, PENDING after; all COMPLETED if there is no step k. */
  ghost predicate DrainedAt(s: State, w: SequenceId, rows: seq<StepId>, k: nat)
    requires Known(s.steps, rows) && 1 <= k
  {
    var n := if k <= |rows| then k else |rows|;
    && Total(s, w, IsDelivered) == n && Total(s, w, IsEntered) == n
    && if k <= |rows| then Shape(RowsOf(s.steps, rows), k - 1, Failed)
       else Shape(RowsOf(s.steps, rows), |rows|, Pending)
  }

  lemma {:induction false} ReturnedUpTo(log: seq<Entry>, w: SequenceId, n: nat)
    requires Orderly(log, w) && Count(log, w, IsRefused) == 0 && 1 <= n <= Standing(TallyOf(log, w))
    ensures exists j :: 0 <= j < |log| && log[j] == Entry(w, n, Returned)
  {
    var prior, e := log[..|log| - 1], log[|log| - 1];
    if n <= Standing(TallyOf(prior, w)) {
      ReturnedUpTo(prior, w, n);
      var j :| 0 <= j < |prior| && prior[j] == Entry(w, n, Returned);
      assert log[j] == Entry(w, n, Returned);
    } else {
      assert e == Entry(w, n, Returned);
    }
  }

  lemma {:induction false} CountSome(log: seq<Entry>, w: SequenceId, which: Deed -> bool, j: nat)
    requires j < |log| && log[j].workerId == w && which(log[j].deed)
    ensures 0 < Count(log, w, which)
  {
    if j < |log| - 1 {
      CountSome(log[..|log| - 1], w, which, j);
    }
  }

  lemma OutcomeDrained(s: State, w: SequenceId, rows: seq<StepId>, k: nat)
    requires Known(s.steps, rows) && Orderly(s.log, w) && Outcome(s, w, rows, Cursor(TallyOf(s.log, w)))
    requires 1 <= k && Undisturbed(s, w) && ThrowsAt(s, w, k)
    ensures DrainedAt(s, w, rows, k)
  {
    var t := TallyOf(s.log, w);
    Ledger(s.log, w);
    if Cursor(t) == |rows| {
      if k <= |rows| {
        ReturnedUpTo(s.log, w, k);
      }
    } else {
      var j := DownAtFailure(s.log, w);
      if s.log[j].deed.Refused? { CountSome(s.log, w, IsRefused, j); }
      if s.log[j].deed.Rejected? { CountSome(s.log, w, IsRejected, j); }
    }
  }

  /**
   * With enqueues accepted and handlers present, every run that can go no further has delivered exactly k messages
   * of a sequence whose handlers first throw at step k, and leaves it COMPLETED, FAILED at k, and PENDING after;
   * without a throw it has delivered them all.
   */
  lemma DrainOutcome(es: seq<Event>, w: SequenceId, rows: seq<StepId>, k: nat)
    requires Legal(EMPTY, es) && w in Exec(EMPTY, es).created && Listed(Exec(EMPTY, es), w, rows)
    requires Quiescent(Exec(EMPTY, es))
    requires 1 <= k && Undisturbed(Exec(EMPTY, es), w) && ThrowsAt(Exec(EMPTY, es), w, k)
    ensures Exec(EMPTY, es).queue == multiset{} && Exec(EMPTY, es).calls == map[]
    ensures Known(Exec(EMPTY, es).steps, rows) && DrainedAt(Exec(EMPTY, es), w, rows, k)
  {
    hide *;
    QuiescentIff(es);
    var n := IdleOutcome(es, w, rows);
    OutcomeDrained(Exec(EMPTY, es), w, rows, k);
  }
}
