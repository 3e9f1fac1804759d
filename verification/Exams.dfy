/** Exam rows, the queries that select questions, and one step of the exam protocol. */
module Exams {
  import opened Wrappers
  import opened AnswerBank

  datatype ExamType = SUBJECT | TICKET | RANDOM

  datatype Status = Active | Completed | Expired

  datatype Question = Question(id: Id, subjectId: Id, ticketId: Id, title: Name, isDeleted: bool)

  /** The tables an exam reads; `questions` is kept in order of creation. */
  datatype Bank = Bank(subjects: set<Id>, tickets: set<Id>, questions: seq<Question>, answers: seq<Answer>)

  /** What startExam is asked for; an absent id and an empty one are the same. */
  datatype Data = Data(examType: ExamType, subjectId: Option<Id>, ticketId: Option<Id>)

  /** The columns that creation fixes. */
  datatype Plan = Plan(data: Data, questionIds: seq<Id>, questionCount: nat, startedAt: int, timeLimit: nat)

  datatype Exam = Exam(id: Id, userId: Id, plan: Plan, status: Status, endedAt: Option<int>, correct: seq<Id>)

  datatype ExamError =
    | SubjectIdRequired | SubjectNotFound | TicketIdRequired | TicketNotFound
    | Insufficient(required: nat, available: nat) | InvalidQuestions | SessionNotFound

  const MINUTE := 60000

  const RANDOM_COUNT := 20

  // ---------------------------------------------------------------- looking for a running exam

  predicate Matches(x: Exam, user: Id, data: Data)
  {
    && x.userId == user && x.status == Active && x.plan.data.examType == data.examType
    && (data.examType == SUBJECT && data.subjectId.Some? ==> x.plan.data.subjectId == data.subjectId)
    && (data.examType == TICKET && data.ticketId.Some? ==> x.plan.data.ticketId == data.ticketId)
  }

  predicate Running(exams: seq<Exam>, user: Id, data: Data)
  {
    exists k :: 0 <= k < |exams| && Matches(exams[k], user, data)
  }

  // ---------------------------------------------------------------- choosing questions

  predicate Fits(q: Question, data: Data)
  {
    && !q.isDeleted
    && (data.examType == SUBJECT && data.subjectId.Some? ==> q.subjectId == data.subjectId.value)
    && (data.examType == TICKET && data.ticketId.Some? ==> q.ticketId == data.ticketId.value)
  }

  function Candidates(questions: seq<Question>, data: Data): seq<Question>
  {
    if questions == [] then []
    else (if Fits(questions[0], data) then [questions[0]] else []) + Candidates(questions[1..], data)
  }

  function LiveAnswers(answers: seq<Answer>, q: Id): seq<Answer>
  {
    if answers == [] then []
    else (if answers[0].questionId == q && !answers[0].isDeleted then [answers[0]] else []) + LiveAnswers(answers[1..], q)
  }

  function CorrectOnes(answers: seq<Answer>): seq<Answer>
  {
    if answers == [] then []
    else (if answers[0].isCorrect then [answers[0]] else []) + CorrectOnes(answers[1..])
  }

  /** At least two options, exactly one of them correct. */
  predicate WellPosed(answers: seq<Answer>, q: Id)
  {
    var options := LiveAnswers(answers, q);
    |options| >= 2 && |CorrectOnes(options)| == 1
  }

  function ValidateExamType(bank: Bank, data: Data): Option<ExamError>
  {
    match data.examType
    case SUBJECT =>
      if data.subjectId.None? then Some(SubjectIdRequired)
      else if data.subjectId.value !in bank.subjects then Some(SubjectNotFound)
      else None
    case TICKET =>
      if data.ticketId.None? then Some(TicketIdRequired)
      else if data.ticketId.value !in bank.tickets then Some(TicketNotFound)
      else None
    case RANDOM => None
  }

  function ValidateQuestions(questions: seq<Question>, answers: seq<Answer>, required: nat): Option<ExamError>
  {
    if |questions| < required then Some(Insufficient(required, |questions|))
    else if exists i :: 0 <= i < |questions| && !WellPosed(answers, questions[i].id) then Some(InvalidQuestions)
    else None
  }

  function Required(data: Data): nat
  {
    if data.examType == RANDOM then RANDOM_COUNT else 1
  }

  /** Why no exam can be created, if so. */
  function Obstacle(bank: Bank, data: Data): Option<ExamError>
  {
    match ValidateExamType(bank, data)
    case Some(e) => Some(e)
    case None => ValidateQuestions(Candidates(bank.questions, data), bank.answers, Required(data))
  }

  /** A random exam takes twenty of the candidates in any order, the others take all as they are stored. */
  ghost predicate Selection(bank: Bank, data: Data, chosen: seq<Question>)
  {
    var all := Candidates(bank.questions, data);
    if data.examType == RANDOM
    then |chosen| == RANDOM_COUNT && exists rest :: multiset(chosen + rest) == multiset(all)
    else chosen == all
  }

  function Ids(questions: seq<Question>): (ids: seq<Id>)
    ensures |ids| == |questions|
  {
    seq(|questions|, i requires 0 <= i < |questions| => questions[i].id)
  }

  function NewExam(id: Id, user: Id, data: Data, chosen: seq<Question>, now: int): Exam
  {
    Exam(id, user, Plan(data, Ids(chosen), |chosen|, now, |chosen|), Active, None, [])
  }

  // ---------------------------------------------------------------- the clock

  function Max(a: int, b: int): int
  {
    if a < b then b else a
  }

  /** Minutes left: elapsed time is rounded down to whole minutes. */
  function Remaining(plan: Plan, now: int): int
  {
    Max(0, plan.timeLimit - (now - plan.startedAt) / MINUTE)
  }

  function EndTime(plan: Plan): int
  {
    plan.startedAt + plan.timeLimit * MINUTE
  }

  function Expire(x: Exam, now: int): Exam
  {
    x.(status := Expired, endedAt := Some(now))
  }

  function Finished(x: Exam, correct: seq<Id>, now: int): Exam
  {
    x.(status := Completed, endedAt := Some(now), correct := correct)
  }

  // ---------------------------------------------------------------- resuming

  predicate LiveQuestion(q: Question, id: Id)
  {
    q.id == id && !q.isDeleted
  }

  predicate Exists(questions: seq<Question>, id: Id)
  {
    exists i :: 0 <= i < |questions| && LiveQuestion(questions[i], id)
  }

  /** `find` on the live questions among the stored ids. */
  function Lookup(questions: seq<Question>, id: Id): (r: Option<Question>)
    ensures r.Some? <==> Exists(questions, id)
    ensures r.Some? ==> r.value in questions && LiveQuestion(r.value, id)
  {
    if questions == [] then None
    else if LiveQuestion(questions[0], id) then Some(questions[0])
    else
      var r := Lookup(questions[1..], id);
      assert Exists(questions[1..], id) <==> Exists(questions, id) by {
        assert forall i | 0 < i < |questions| :: questions[1..][i - 1] == questions[i];
      }
      r
  }

  /** The stored ids that still name a live question, in stored order. */
  function StillLive(ids: seq<Id>, questions: seq<Question>): seq<Id>
  {
    if ids == [] then []
    else (if Exists(questions, ids[0]) then [ids[0]] else []) + StillLive(ids[1..], questions)
  }

  // ---------------------------------------------------------------- one step

  datatype Outcome = Resumed(exam: Id, remaining: int) | Created(exam: Id) | Refused(error: ExamError)

  datatype Event =
    | Start(user: Id, data: Data, bank: Bank, now: int, outcome: Outcome)
    | Finish(user: Id, exam: Id, correct: seq<Id>, now: int, accepted: bool)

  ghost predicate StartStep(before: seq<Exam>, user: Id, data: Data, bank: Bank, now: int, outcome: Outcome, after: seq<Exam>)
  {
    match outcome
    case Resumed(k, remaining) =>
      && k < |before| && Matches(before[k], user, data)
      && remaining == Remaining(before[k].plan, now)
      && after == if remaining <= 0 then before[k := Expire(before[k], now)] else before
    case Created(k) =>
      && !Running(before, user, data) && Obstacle(bank, data) == None && k == |before|
      && exists chosen :: Selection(bank, data, chosen) && after == before + [NewExam(k, user, data, chosen, now)]
    case Refused(e) =>
      !Running(before, user, data) && Obstacle(bank, data) == Some(e) && after == before
  }

  ghost predicate Step(before: seq<Exam>, e: Event, after: seq<Exam>)
  {
    match e
    case Start(user, data, bank, now, outcome) => StartStep(before, user, data, bank, now, outcome, after)
    case Finish(user, k, correct, now, accepted) =>
      && (accepted <==> k < |before| && before[k].userId == user && before[k].status == Active)
      && after == if accepted then before[k := Finished(before[k], correct, now)] else before
  }
}
