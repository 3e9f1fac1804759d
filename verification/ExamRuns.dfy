/** What holds of exams over every run: one running exam per slot, a one-way life cycle, an exact deadline. */
module ExamRuns {
  import opened Wrappers
  import opened Lists
  import opened AnswerBank
  import opened Exams

  // ---------------------------------------------------------------- the clock

  /** Elapsed minutes are rounded down, yet the time is up exactly at the reported end time, one minute a unit of the limit. */
  lemma TimeIsUpAtTheEnd(plan: Plan, now: int)
    ensures EndTime(plan) == plan.startedAt + plan.timeLimit * 60000
    ensures Remaining(plan, now) == 0 <==> now >= EndTime(plan)
    ensures now < EndTime(plan) ==>
      (Remaining(plan, now) - 1) * 60000 < EndTime(plan) - now <= Remaining(plan, now) * 60000
    ensures 0 <= Remaining(plan, now)
    ensures Remaining(plan, now) <= plan.timeLimit <==> now >= plan.startedAt
  {
    var elapsed := (now - plan.startedAt) / MINUTE;
    assert elapsed * MINUTE <= now - plan.startedAt < elapsed * MINUTE + MINUTE;
  }

  lemma RemainingNeverRises(plan: Plan, now: int, later: int)
    requires now <= later
    ensures Remaining(plan, later) <= Remaining(plan, now)
  {
    DivMonotone(now - plan.startedAt, later - plan.startedAt);
  }

  lemma DivMonotone(a: int, b: int)
    requires a <= b
    ensures a / MINUTE <= b / MINUTE
  {
  }

  // ---------------------------------------------------------------- the invariant

  predicate SameSlot(a: Exam, b: Exam)
  {
    && a.userId == b.userId && a.plan.data.examType == b.plan.data.examType
    && (a.plan.data.examType == SUBJECT ==> a.plan.data.subjectId == b.plan.data.subjectId)
    && (a.plan.data.examType == TICKET ==> a.plan.data.ticketId == b.plan.data.ticketId)
  }

  predicate PlanOk(plan: Plan)
  {
    && plan.timeLimit == plan.questionCount == |plan.questionIds|
    && Distinct(plan.questionIds)
    && (if plan.data.examType == RANDOM then plan.questionCount == RANDOM_COUNT else plan.questionCount >= 1)
    && (plan.data.examType == SUBJECT ==> plan.data.subjectId.Some?)
    && (plan.data.examType == TICKET ==> plan.data.ticketId.Some?)
  }

  predicate RowOk(exams: seq<Exam>, k: nat)
    requires k < |exams|
  {
    exams[k].id == k && PlanOk(exams[k].plan) && (exams[k].endedAt.Some? <==> exams[k].status != Active)
  }

  ghost predicate OnePerSlot(exams: seq<Exam>)
  {
    forall i, j :: 0 <= i < j < |exams| && exams[i].status == Active && exams[j].status == Active
      ==> !SameSlot(exams[i], exams[j])
  }

  ghost predicate Inv(exams: seq<Exam>)
  {
    (forall k {:trigger RowOk(exams, k)} :: 0 <= k < |exams| ==> RowOk(exams, k)) && OnePerSlot(exams)
  }

  /** Question ids are primary keys. */
  ghost predicate Admissible(e: Event)
  {
    e.Start? ==> Distinct(Ids(e.bank.questions))
  }

  // ---------------------------------------------------------------- queries

  /** The candidates are the questions not deleted that carry the requested subject or ticket, in stored order. */
  lemma CandidatesAre(questions: seq<Question>, data: Data) returns (at: seq<nat>)
    ensures Picks(at, questions, Candidates(questions, data))
    ensures forall i :: 0 <= i < |questions| ==>
      (i in at <==>
        && !questions[i].isDeleted
        && (data.examType == SUBJECT && data.subjectId.Some? ==> questions[i].subjectId == data.subjectId.value)
        && (data.examType == TICKET && data.ticketId.Some? ==> questions[i].ticketId == data.ticketId.value))
  {
    CandidatesWhere(questions, data);
    at := WherePicks(questions, (q: Question) => Fits(q, data));
  }

  lemma {:induction false} CandidatesWhere(questions: seq<Question>, data: Data)
    ensures Candidates(questions, data) == Where(questions, (q: Question) => Fits(q, data))
  {
    if questions != [] { CandidatesWhere(questions[1..], data); }
  }

  /** The options of a question are its answers that are not deleted. */
  lemma LiveAnswersAre(answers: seq<Answer>, q: Id) returns (at: seq<nat>)
    ensures Picks(at, answers, LiveAnswers(answers, q))
    ensures forall i :: 0 <= i < |answers| ==> (i in at <==> answers[i].questionId == q && !answers[i].isDeleted)
  {
    LiveAnswersWhere(answers, q);
    at := WherePicks(answers, (a: Answer) => a.questionId == q && !a.isDeleted);
  }

  lemma {:induction false} LiveAnswersWhere(answers: seq<Answer>, q: Id)
    ensures LiveAnswers(answers, q) == Where(answers, (a: Answer) => a.questionId == q && !a.isDeleted)
  {
    if answers != [] { LiveAnswersWhere(answers[1..], q); }
  }

  lemma {:induction false} CorrectOnesWhere(answers: seq<Answer>)
    ensures CorrectOnes(answers) == Where(answers, (a: Answer) => a.isCorrect)
  {
    if answers != [] { CorrectOnesWhere(answers[1..]); }
  }

  /** A question is well posed exactly if it has two options or more, and one of them and no other is correct. */
  lemma WellPosedIff(answers: seq<Answer>, q: Id)
    ensures WellPosed(answers, q) <==>
      && |LiveAnswers(answers, q)| >= 2
      && exists k :: 0 <= k < |LiveAnswers(answers, q)| && OnlyCorrect(LiveAnswers(answers, q), k)
  {
    hide LiveAnswers;
    OneCorrectIff(LiveAnswers(answers, q));
  }

  lemma OneCorrectIff(options: seq<Answer>)
    ensures |CorrectOnes(options)| == 1 <==> exists k :: 0 <= k < |options| && OnlyCorrect(options, k)
  {
    CorrectOnesWhere(options);
    var at := WherePicks(options, (a: Answer) => a.isCorrect);
    hide CorrectOnes, Where;
    if |at| == 1 {
      assert OnlyCorrect(options, at[0]);
    }
    if k :| 0 <= k < |options| && OnlyCorrect(options, k) {
      assert k in at;
      forall j | 0 <= j < |at| ensures at[j] == k { assert at[j] in at; }
      FirstTwoDiffer(at, options, Where(options, (a: Answer) => a.isCorrect));
    }
  }

  lemma FirstTwoDiffer<T>(at: seq<nat>, xs: seq<T>, out: seq<T>)
    requires Picks(at, xs, out)
    ensures |at| >= 2 ==> at[0] != at[1]
  {
  }

  predicate OnlyCorrect(options: seq<Answer>, k: nat)
    requires k < |options|
  {
    forall j :: 0 <= j < |options| ==> (options[j].isCorrect <==> j == k)
  }

  /** Why a request is refused, in the order of the checks. */
  lemma ObstacleTells(bank: Bank, data: Data)
    ensures var all, o := Candidates(bank.questions, data), Obstacle(bank, data);
      var needed := if data.examType == RANDOM then 20 else 1;
      if data.examType == SUBJECT && data.subjectId == None then o == Some(SubjectIdRequired)
      else if data.examType == SUBJECT && data.subjectId.value !in bank.subjects then o == Some(SubjectNotFound)
      else if data.examType == TICKET && data.ticketId == None then o == Some(TicketIdRequired)
      else if data.examType == TICKET && data.ticketId.value !in bank.tickets then o == Some(TicketNotFound)
      else if |all| < needed then o == Some(Insufficient(needed, |all|))
      else if exists q :: q in all && !WellPosed(bank.answers, q.id) then o == Some(InvalidQuestions)
      else o == None
  {
    var all := Candidates(bank.questions, data);
    if i :| 0 <= i < |all| && !WellPosed(bank.answers, all[i].id) { assert all[i] in all; }
    hide Candidates, WellPosed;
  }

  // ---------------------------------------------------------------- selection

  lemma {:induction false} CandidatesFit(questions: seq<Question>, data: Data)
    ensures forall q :: q in Candidates(questions, data) <==> q in questions && Fits(q, data)
  {
    if questions != [] {
      CandidatesFit(questions[1..], data);
      assert questions == [questions[0]] + questions[1..];
    }
  }

  lemma {:induction false} CandidatesDistinct(questions: seq<Question>, data: Data)
    requires Distinct(Ids(questions))
    ensures Distinct(Ids(Candidates(questions, data)))
  {
    if questions != [] {
      var rest := questions[1..];
      assert forall i | 0 <= i < |rest| :: Ids(rest)[i] == Ids(questions)[i + 1];
      CandidatesDistinct(rest, data);
      CandidatesFit(rest, data);
      var tail := Candidates(rest, data);
      if Fits(questions[0], data) {
        forall j | 0 <= j < |tail| ensures tail[j].id != questions[0].id {
          assert tail[j] in rest;
          var m :| 0 <= m < |rest| && rest[m] == tail[j];
          assert Ids(questions)[m + 1] == tail[j].id;
          assert Ids(questions)[0] == questions[0].id;
        }
        assert Candidates(questions, data) == [questions[0]] + tail;
        Prepend(questions[0].id, Ids(tail));
        assert Ids([questions[0]] + tail) == [questions[0].id] + Ids(tail);
      } else {
        assert Candidates(questions, data) == tail;
      }
    }
  }

  lemma ChosenDistinct(all: seq<Question>, chosen: seq<Question>, rest: seq<Question>)
    requires Distinct(Ids(all)) && multiset(chosen + rest) == multiset(all)
    ensures Distinct(Ids(chosen)) && forall q :: q in chosen ==> q in all
  {
    assert Distinct(all) by {
      forall i, j | 0 <= i < j < |all| ensures all[i] != all[j] { assert Ids(all)[i] != Ids(all)[j]; }
    }
    RearrangedDistinct(all, chosen, rest);
    forall i, j | 0 <= i < j < |chosen| ensures chosen[i].id != chosen[j].id {
      assert chosen[i] in chosen && chosen[j] in chosen;
      var m :| 0 <= m < |all| && all[m] == chosen[i];
      var n :| 0 <= n < |all| && all[n] == chosen[j];
      assert Ids(all)[m] == chosen[i].id && Ids(all)[n] == chosen[j].id;
    }
  }

  ghost predicate Asked(bank: Bank, data: Data, chosen: seq<Question>)
  {
    forall q :: q in chosen ==>
      && q in bank.questions && !q.isDeleted && WellPosed(bank.answers, q.id)
      && (data.examType == SUBJECT && data.subjectId.Some? ==> q.subjectId == data.subjectId.value)
      && (data.examType == TICKET && data.ticketId.Some? ==> q.ticketId == data.ticketId.value)
  }

  /** Every question of a new exam is live, fits the request and is well posed; there are enough and none twice. */
  lemma SelectionIsSound(bank: Bank, data: Data, chosen: seq<Question>)
    requires Distinct(Ids(bank.questions)) && Obstacle(bank, data) == None && Selection(bank, data, chosen)
    ensures Asked(bank, data, chosen) && Distinct(Ids(chosen)) && |chosen| >= 1
    ensures data.examType == RANDOM ==> |chosen| == 20
    ensures data.examType != RANDOM ==> forall q :: q in bank.questions && Fits(q, data) ==> q in chosen
  {
    var all := Candidates(bank.questions, data);
    CandidatesFit(bank.questions, data);
    CandidatesDistinct(bank.questions, data);
    assert forall i | 0 <= i < |all| :: WellPosed(bank.answers, all[i].id);
    if data.examType == RANDOM {
      var rest :| multiset(chosen + rest) == multiset(all);
      ChosenDistinct(all, chosen, rest);
    }
  }

  // ---------------------------------------------------------------- one step

  /** Rows are only added, their plans never change, and a row that is no longer active never changes at all. */
  ghost predicate Advances(before: seq<Exam>, after: seq<Exam>)
  {
    && |before| <= |after|
    && forall k :: 0 <= k < |before| ==>
      && after[k].userId == before[k].userId && after[k].plan == before[k].plan
      && (before[k].status != Active ==> after[k] == before[k])
  }

  lemma CloseOne(before: seq<Exam>, k: nat, closed: Exam)
    requires Inv(before) && k < |before| && before[k].status == Active
    requires closed.id == k && closed.userId == before[k].userId && closed.plan == before[k].plan
    requires closed.status != Active && closed.endedAt.Some?
    ensures Inv(before[k := closed]) && Advances(before, before[k := closed])
  {
    var after := before[k := closed];
    assert RowOk(before, k);
    forall i | 0 <= i < |after| ensures RowOk(after, i) { assert RowOk(before, i); }
    forall i, j | 0 <= i < j < |after| && after[i].status == Active && after[j].status == Active
      ensures !SameSlot(after[i], after[j])
    {
      assert after[i] == before[i] && after[j] == before[j];
    }
  }

  lemma AddOne(before: seq<Exam>, user: Id, data: Data, chosen: seq<Question>, now: int)
    requires Inv(before) && !Running(before, user, data)
    requires PlanOk(NewExam(|before|, user, data, chosen, now).plan)
    ensures Inv(before + [NewExam(|before|, user, data, chosen, now)])
  {
    var x := NewExam(|before|, user, data, chosen, now);
    var after := before + [x];
    forall i | 0 <= i < |after| ensures RowOk(after, i) {
      if i < |before| { assert RowOk(before, i); }
    }
    forall i, j | 0 <= i < j < |after| && after[i].status == Active && after[j].status == Active
      ensures !SameSlot(after[i], after[j])
    {
      if j == |before| {
        assert !Matches(before[i], user, data);
      }
    }
  }

  lemma PlanFits(bank: Bank, data: Data, chosen: seq<Question>, id: Id, user: Id, now: int)
    requires Distinct(Ids(bank.questions)) && Obstacle(bank, data) == None && Selection(bank, data, chosen)
    ensures PlanOk(NewExam(id, user, data, chosen, now).plan)
  {
    SelectionIsSound(bank, data, chosen);
  }

  lemma RowId(exams: seq<Exam>, k: nat)
    requires Inv(exams) && k < |exams|
    ensures exams[k].id == k && PlanOk(exams[k].plan)
  {
    assert RowOk(exams, k);
  }

  lemma KeepStep(before: seq<Exam>, e: Event, after: seq<Exam>)
    requires Inv(before) && Step(before, e, after) && Admissible(e)
    ensures Inv(after) && Advances(before, after)
  {
    hide Inv, Selection, Obstacle, Running;
    match e
    case Start(user, data, bank, now, outcome) =>
      match outcome {
        case Resumed(k, remaining) =>
          if remaining <= 0 { RowId(before, k); CloseOne(before, k, Expire(before[k], now)); }
        case Created(k) =>
          var chosen :| Selection(bank, data, chosen) && after == before + [NewExam(k, user, data, chosen, now)];
          PlanFits(bank, data, chosen, k, user, now);
          AddOne(before, user, data, chosen, now);
        case Refused(_) =>
      }
    case Finish(user, k, correct, now, accepted) =>
      if accepted { RowId(before, k); CloseOne(before, k, Finished(before[k], correct, now)); }
  }

  // ---------------------------------------------------------------- runs

  ghost predicate Run(states: seq<seq<Exam>>, es: seq<Event>)
  {
    && |states| == |es| + 1
    && forall i {:trigger es[i]} :: 0 <= i < |es| ==> Admissible(es[i]) && Step(states[i], es[i], states[i + 1])
  }

  /** In every run from a sound table: one running exam per slot, and rows that end exactly when they leave `Active`. */
  lemma {:induction false} KeepRun(states: seq<seq<Exam>>, es: seq<Event>, n: nat)
    requires Run(states, es) && Inv(states[0]) && n <= |es|
    ensures Inv(states[n])
  {
    if n > 0 {
      KeepRun(states, es, n - 1);
      KeepStep(states[n - 1], es[n - 1], states[n]);
    }
  }

  /** Between any two moments of a run plans are immutable and ended rows are final. */
  lemma {:induction false} RunAdvances(states: seq<seq<Exam>>, es: seq<Event>, m: nat, n: nat)
    requires Run(states, es) && Inv(states[0]) && m <= n <= |es|
    ensures Advances(states[m], states[n])
    decreases n
  {
    if m < n {
      RunAdvances(states, es, m, n - 1);
      KeepRun(states, es, n - 1);
      KeepStep(states[n - 1], es[n - 1], states[n]);
    }
  }

  // ---------------------------------------------------------------- resuming until the deadline

  /** The request names its slot: a subject for SUBJECT, a ticket for TICKET. */
  predicate Named(data: Data)
  {
    (data.examType == SUBJECT ==> data.subjectId.Some?) && (data.examType == TICKET ==> data.ticketId.Some?)
  }

  /** A request that names its slot finds the one running exam there. */
  lemma OnlyMatch(exams: seq<Exam>, user: Id, data: Data, k: nat, j: nat)
    requires Inv(exams) && Named(data) && k < |exams| && j < |exams|
    requires Matches(exams[k], user, data) && Matches(exams[j], user, data)
    ensures j == k
  {
    assert SameSlot(exams[k], exams[j]) && SameSlot(exams[j], exams[k]);
  }

  lemma ResumesRunning(before: seq<Exam>, e: Event, after: seq<Exam>, k: nat)
    requires Inv(before) && Step(before, e, after) && e.Start? && Named(e.data)
    requires k < |before| && Matches(before[k], e.user, e.data)
    ensures e.outcome == Resumed(k, Remaining(before[k].plan, e.now))
    ensures after == if e.now >= EndTime(before[k].plan) then before[k := Expire(before[k], e.now)] else before
  {
    assert Running(before, e.user, e.data);
    assert e.outcome.Resumed?;
    OnlyMatch(before, e.user, e.data, k, e.outcome.exam);
    TimeIsUpAtTheEnd(before[k].plan, e.now);
  }

  /** Events before the deadline that do not finish the exam. */
  ghost predicate Spares(es: seq<Event>, k: nat, deadline: int)
  {
    forall i {:trigger es[i]} :: 0 <= i < |es| ==> es[i].now < deadline && !(es[i].Finish? && es[i].exam == k && es[i].accepted)
  }

  lemma SparedStep(before: seq<Exam>, e: Event, after: seq<Exam>, k: nat)
    requires Inv(before) && Step(before, e, after) && k < |before| && k < |after|
    requires e.now < EndTime(before[k].plan) && !(e.Finish? && e.exam == k && e.accepted)
    ensures after[k] == before[k]
  {
    hide Inv, Selection, Obstacle, Running;
    if e.Start? && e.outcome.Resumed? && e.outcome.exam == k { TimeIsUpAtTheEnd(before[k].plan, e.now); }
  }

  /** Until its end time an exam that is not finished stays as it is, whatever anyone starts. */
  lemma {:induction false} StaysUntilDeadline(states: seq<seq<Exam>>, es: seq<Event>, k: nat, n: nat)
    requires Run(states, es) && Inv(states[0]) && k < |states[0]| && n <= |es|
    requires Spares(es, k, EndTime(states[0][k].plan))
    ensures k < |states[n]| && states[n][k] == states[0][k]
    decreases n
  {
    if n > 0 {
      StaysUntilDeadline(states, es, k, n - 1);
      KeepRun(states, es, n - 1);
      KeepStep(states[n - 1], es[n - 1], states[n]);
      SparedStep(states[n - 1], es[n - 1], states[n], k);
    }
  }

  /** Every start for the slot before the end time returns that exam with time left and adds no row. */
  lemma StartsResumeUntilDeadline(states: seq<seq<Exam>>, es: seq<Event>, k: nat, n: nat)
    requires Run(states, es) && Inv(states[0]) && k < |states[0]| && n < |es|
    requires Spares(es, k, EndTime(states[0][k].plan))
    requires es[n].Start? && Named(es[n].data) && Matches(states[0][k], es[n].user, es[n].data)
    ensures es[n].outcome == Resumed(k, Remaining(states[0][k].plan, es[n].now))
    ensures es[n].outcome.remaining > 0
    ensures states[n + 1] == states[n]
  {
    StaysUntilDeadline(states, es, k, n);
    KeepRun(states, es, n);
    ResumesRunning(states[n], es[n], states[n + 1], k);
    TimeIsUpAtTheEnd(states[0][k].plan, es[n].now);
  }

  /**
   * The first start at or after the end time returns the exam with no time left and expires it; the next
   * creates a new one or is refused.
   */
  lemma ExpiresThenCreates(before: seq<Exam>, e: Event, mid: seq<Exam>, next: Event, after: seq<Exam>, k: nat)
    requires Inv(before) && Step(before, e, mid) && Step(mid, next, after) && Admissible(e)
    requires k < |before| && e.Start? && Named(e.data) && Matches(before[k], e.user, e.data)
    requires e.now >= EndTime(before[k].plan)
    requires next.Start? && next.user == e.user && next.data == e.data
    ensures e.outcome == Resumed(k, 0)
    ensures mid == before[k := before[k].(status := Expired, endedAt := Some(e.now))]
    ensures match Obstacle(next.bank, next.data)
      case None => next.outcome == Created(|before|)
      case Some(error) => next.outcome == Refused(error)
  {
    ResumesRunning(before, e, mid, k);
    TimeIsUpAtTheEnd(before[k].plan, e.now);
    KeepStep(before, e, mid);
    if next.outcome.Resumed? {
      var j := next.outcome.exam;
      assert mid[k].status == Expired;
      assert j != k && mid[j] == before[j];
      OnlyMatch(before, e.user, e.data, k, j);
    }
  }

  /** After the expiring start, whoever resumes the slot resumes an exam created later. */
  lemma AfterExpiryOnlyNewer(states: seq<seq<Exam>>, es: seq<Event>, k: nat, n: nat)
    requires Run(states, es) && Inv(states[0]) && 0 < n < |es|
    requires k < |states[0]| && es[0].Start? && Named(es[0].data) && Matches(states[0][k], es[0].user, es[0].data)
    requires es[0].now >= EndTime(states[0][k].plan)
    requires es[n].Start? && es[n].user == es[0].user && es[n].data == es[0].data && es[n].outcome.Resumed?
    ensures es[n].outcome.exam >= |states[0]|
  {
    var j := es[n].outcome.exam;
    RunAdvances(states, es, 1, n);
    KeepStep(states[0], es[0], states[1]);
    ResumesRunning(states[0], es[0], states[1], k);
    assert Step(states[n], es[n], states[n + 1]);
    if j < |states[0]| {
      assert states[1][j].status == Active && states[n][j].plan == states[1][j].plan;
      assert Matches(states[0][j], es[0].user, es[0].data);
      OnlyMatch(states[0], es[0].user, es[0].data, k, j);
    }
  }

  /** An exam that has ended is never resumed or finished again, and its result is final. */
  lemma EndedIsFinal(states: seq<seq<Exam>>, es: seq<Event>, k: nat, n: nat)
    requires Run(states, es) && Inv(states[0]) && k < |states[0]| && states[0][k].status != Active && n < |es|
    ensures k < |states[n]| && states[n][k] == states[0][k]
    ensures es[n].Start? && es[n].outcome.Resumed? ==> es[n].outcome.exam != k
    ensures es[n].Finish? && es[n].accepted ==> es[n].exam != k
  {
    RunAdvances(states, es, 0, n);
  }

  /** An exam created at some moment keeps its questions, count, limit and start for the rest of the run. */
  lemma CreatedStays(states: seq<seq<Exam>>, es: seq<Event>, m: nat, n: nat)
    requires Run(states, es) && Inv(states[0]) && m < n <= |es|
    requires es[m].Start? && es[m].outcome.Created?
    ensures var k := es[m].outcome.exam;
      && k == |states[m]| < |states[n]| && states[n][k].userId == es[m].user
      && (exists chosen :: Selection(es[m].bank, es[m].data, chosen) && Asked(es[m].bank, es[m].data, chosen)
           && states[n][k].plan == Plan(es[m].data, Ids(chosen), |chosen|, es[m].now, |chosen|))
  {
    RunAdvances(states, es, m + 1, n);
    var e, k := es[m], es[m].outcome.exam;
    assert StartStep(states[m], e.user, e.data, e.bank, e.now, e.outcome, states[m + 1]);
    assert Admissible(es[m]);
    var chosen :| Selection(e.bank, e.data, chosen) && states[m + 1] == states[m] + [NewExam(k, e.user, e.data, chosen, e.now)];
    SelectionIsSound(e.bank, e.data, chosen);
    assert states[m + 1][k] == NewExam(k, e.user, e.data, chosen, e.now);
  }

  /** The row a creation adds: active, not ended, nothing answered, one minute a question. */
  lemma CreatedIsActive(before: seq<Exam>, e: Event, after: seq<Exam>)
    requires Step(before, e, after) && e.Start? && e.outcome.Created?
    ensures |after| == |before| + 1 && after[..|before|] == before && e.outcome.exam == |before|
    ensures var x := after[|before|];
      && x.id == |before| && x.userId == e.user && x.status == Active && x.endedAt == None && x.correct == []
      && x.plan.data == e.data && x.plan.startedAt == e.now
      && x.plan.timeLimit == x.plan.questionCount == |x.plan.questionIds|
      && exists chosen :: Selection(e.bank, e.data, chosen) && x.plan.questionIds == Ids(chosen)
  {
    var chosen :| Selection(e.bank, e.data, chosen)
                  && after == before + [NewExam(e.outcome.exam, e.user, e.data, chosen, e.now)];
    assert after[..|before|] == before;
  }

  /** The events of a run between two moments. */
  lemma Suffix(states: seq<seq<Exam>>, es: seq<Event>, m: nat)
    requires Run(states, es) && Inv(states[0]) && m <= |es|
    ensures Run(states[m..], es[m..]) && Inv(states[m..][0])
  {
    KeepRun(states, es, m);
    hide Inv, Step, Admissible;
    forall i {:trigger es[m..][i]} | 0 <= i < |es[m..]|
      ensures Admissible(es[m..][i]) && Step(states[m..][i], es[m..][i], states[m..][i + 1])
    {
      assert es[m..][i] == es[m + i];
    }
  }

  /** From its creation to its end time an exam that is not finished is the running exam of its slot. */
  lemma CreatedRuns(states: seq<seq<Exam>>, es: seq<Event>, m: nat, n: nat)
    requires Run(states, es) && Inv(states[0]) && m < n <= |es| && es[m].Start? && es[m].outcome.Created?
    requires Spares(es[m + 1..], es[m].outcome.exam, EndTime(states[m + 1][es[m].outcome.exam].plan))
    ensures var k := es[m].outcome.exam;
      && k < |states[m + 1]| && k < |states[n]| && states[n][k] == states[m + 1][k]
      && Matches(states[n][k], es[m].user, es[m].data)
  {
    CreatedIsActive(states[m], es[m], states[m + 1]);
    Suffix(states, es, m + 1);
    StaysUntilDeadline(states[m + 1..], es[m + 1..], es[m].outcome.exam, n - m - 1);
  }

  /** A created exam is resumed by every start for its slot before the end time. */
  lemma CreatedResumes(states: seq<seq<Exam>>, es: seq<Event>, m: nat, n: nat)
    requires Run(states, es) && Inv(states[0]) && m < n < |es| && es[m].Start? && es[m].outcome.Created?
    requires Spares(es[m + 1..], es[m].outcome.exam, EndTime(states[m + 1][es[m].outcome.exam].plan))
    requires es[n].Start? && es[n].user == es[m].user && es[n].data == es[m].data
    ensures es[n].outcome.Resumed? && es[n].outcome.exam == es[m].outcome.exam && es[n].outcome.remaining > 0
    ensures states[n + 1] == states[n]
  {
    var k := es[m].outcome.exam;
    CreatedRuns(states, es, m, n);
    KeepRun(states, es, n);
    assert RowOk(states[n], k);
    assert es[m + 1..][n - m - 1] == es[n];
    ResumesRunning(states[n], es[n], states[n + 1], k);
    TimeIsUpAtTheEnd(states[n][k].plan, es[n].now);
  }

  /** Its owner's first finish before the end time is accepted and completes it. */
  lemma CreatedFinishes(states: seq<seq<Exam>>, es: seq<Event>, m: nat, n: nat)
    requires Run(states, es) && Inv(states[0]) && m < n < |es| && es[m].Start? && es[m].outcome.Created?
    requires Spares(es[m + 1..n], es[m].outcome.exam, EndTime(states[m + 1][es[m].outcome.exam].plan))
    requires es[n].Finish? && es[n].user == es[m].user && es[n].exam == es[m].outcome.exam
    ensures es[n].accepted && es[n].exam < |states[n]| && es[n].exam < |states[n + 1]|
    ensures states[n + 1][es[n].exam]
         == states[n][es[n].exam].(status := Completed, endedAt := Some(es[n].now), correct := es[n].correct)
  {
    assert Run(states[..n + 1], es[..n]) by {
      forall i {:trigger es[..n][i]} | 0 <= i < n
        ensures Admissible(es[..n][i]) && Step(states[..n + 1][i], es[..n][i], states[..n + 1][i + 1])
      {
        assert es[..n][i] == es[i];
      }
    }
    assert es[..n][m + 1..] == es[m + 1..n];
    CreatedRuns(states[..n + 1], es[..n], m, n);
    assert Step(states[n], es[n], states[n + 1]);
  }

  // ---------------------------------------------------------------- resuming the questions

  lemma {:induction false} StillLiveWhere(ids: seq<Id>, questions: seq<Question>)
    ensures StillLive(ids, questions) == Where(ids, (id: Id) => Exists(questions, id))
  {
    hide Exists;
    if ids != [] { StillLiveWhere(ids[1..], questions); }
  }

  /** What a resume returns: exactly the stored ids that name a question not deleted, in stored order. */
  lemma StillLiveOrder(ids: seq<Id>, questions: seq<Question>) returns (at: seq<nat>)
    ensures Picks(at, ids, StillLive(ids, questions))
    ensures forall i :: 0 <= i < |ids| ==> (i in at <==> exists q :: q in questions && q.id == ids[i] && !q.isDeleted)
  {
    StillLiveWhere(ids, questions);
    at := WherePicks(ids, (id: Id) => Exists(questions, id));
    forall i | 0 <= i < |ids|
      ensures Exists(questions, ids[i]) <==> exists q :: q in questions && q.id == ids[i] && !q.isDeleted
    {
      if k :| 0 <= k < |questions| && LiveQuestion(questions[k], ids[i]) { assert questions[k] in questions; }
      if q :| q in questions && q.id == ids[i] && !q.isDeleted {
        var k :| 0 <= k < |questions| && questions[k] == q;
        assert LiveQuestion(questions[k], ids[i]);
      }
    }
  }

  /** Resuming on the bank the exam was created from returns every question. */
  lemma ResumeReturnsAll(bank: Bank, data: Data, chosen: seq<Question>)
    requires Distinct(Ids(bank.questions)) && Obstacle(bank, data) == None && Selection(bank, data, chosen)
    ensures StillLive(Ids(chosen), bank.questions) == Ids(chosen)
  {
    SelectionIsSound(bank, data, chosen);
    forall i | 0 <= i < |chosen| ensures Exists(bank.questions, Ids(chosen)[i]) {
      assert chosen[i] in bank.questions;
      var j :| 0 <= j < |bank.questions| && bank.questions[j] == chosen[i];
      assert LiveQuestion(bank.questions[j], chosen[i].id);
    }
    AllStillLive(Ids(chosen), bank.questions);
  }

  lemma {:induction false} AllStillLive(ids: seq<Id>, questions: seq<Question>)
    requires forall i :: 0 <= i < |ids| ==> Exists(questions, ids[i])
    ensures StillLive(ids, questions) == ids
  {
    if ids != [] { AllStillLive(ids[1..], questions); }
  }

  /** A later resume shows a part of what an earlier one showed, when questions are only deleted in between. */
  lemma {:induction false} DeletionsCompose(ids: seq<Id>, earlier: seq<Question>, later: seq<Question>)
    requires forall id :: Exists(later, id) ==> Exists(earlier, id)
    ensures StillLive(StillLive(ids, earlier), later) == StillLive(ids, later)
  {
    hide Exists;
    if ids != [] {
      DeletionsCompose(ids[1..], earlier, later);
      var rest := StillLive(ids[1..], earlier);
      if Exists(earlier, ids[0]) {
        assert StillLive(ids, earlier)[0] == ids[0] && StillLive(ids, earlier)[1..] == rest;
      } else {
        assert StillLive(ids, earlier) == rest;
      }
    }
  }

  // ---------------------------------------------------------------- exams on a sound answer bank

  lemma {:induction false} CorrectLive(answers: seq<Answer>, q: Id)
    requires AtMostOneCorrect(answers)
    ensures |CorrectOnes(LiveAnswers(answers, q))| <= 1
    ensures |CorrectOnes(LiveAnswers(answers, q))| == 1 <==> HasCorrect(answers, q)
  {
    if answers != [] {
      var rest := answers[1..];
      assert forall i | 0 <= i < |rest| :: rest[i] == answers[i + 1];
      CorrectLive(rest, q);
      var live := LiveAnswers(rest, q);
      if answers[0].questionId == q && !answers[0].isDeleted {
        assert LiveAnswers(answers, q)[0] == answers[0] && LiveAnswers(answers, q)[1..] == live;
      } else {
        assert LiveAnswers(answers, q) == live;
      }
      if LiveCorrect(answers[0], q) {
        assert !HasCorrect(rest, q);
      } else if HasCorrect(answers, q) {
        var i :| 0 <= i < |answers| && LiveCorrect(answers[i], q);
        assert rest[i - 1] == answers[i];
      } else {
        assert !HasCorrect(rest, q);
      }
    }
  }

  /** With the bank's invariant the validator passes exactly when each question has two options and some correct one. */
  lemma ValidatorOnSoundBank(questions: seq<Question>, answers: seq<Answer>, required: nat)
    requires Sound(answers)
    ensures ValidateQuestions(questions, answers, required) == None <==>
      && |questions| >= required
      && forall i :: 0 <= i < |questions| ==>
        |LiveAnswers(answers, questions[i].id)| >= 2 && Keys(answers, questions[i].id) != {}
  {
    forall i | 0 <= i < |questions|
      ensures WellPosed(answers, questions[i].id) <==>
        |LiveAnswers(answers, questions[i].id)| >= 2 && Keys(answers, questions[i].id) != {}
    {
      CorrectLive(answers, questions[i].id);
      NoKeys(answers, questions[i].id);
    }
  }
}
