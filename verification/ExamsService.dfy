/** `ExamsService`: start, resume, lazy expiry and finish. */
module ExamsServices {
  import opened Wrappers
  import opened Lists
  import opened AnswerBank
  import opened Exams
  import opened ExamRuns

  datatype ExamQuestion = ExamQuestion(question: Question, answers: seq<Answer>)

  datatype Response = Response(sessionId: Id, questions: seq<ExamQuestion>, plan: Plan, endTime: int, remaining: Option<int>)

  /** Each listed question as the bank holds it, with its live answers in some order. */
  ghost predicate Shows(bank: Bank, ids: seq<Id>, shown: seq<ExamQuestion>)
  {
    && |shown| == |ids|
    && forall i :: 0 <= i < |shown| ==>
      && shown[i].question in bank.questions && shown[i].question.id == ids[i] && !shown[i].question.isDeleted
      && multiset(shown[i].answers) == multiset(LiveAnswers(bank.answers, ids[i]))
  }

  class ExamsService {
    var bank: Bank
    var exams: seq<Exam>

    ghost predicate Valid()
      reads this
    {
      Inv(exams) && Distinct(Ids(bank.questions))
    }

    constructor (bank: Bank)
      requires Distinct(Ids(bank.questions))
      ensures Valid() && this.bank == bank && exams == []
    {
      this.bank := bank;
      exams := [];
    }

    /** What the caller of startExam gets, whichever way the exam came about. */
    ghost predicate Answers(outcome: Outcome, r: Result<Response, ExamError>, now: int)
      reads this
    {
      match outcome
      case Refused(e) => r == Err(e)
      case Resumed(k, remaining) => r.Ok? && Presents(r.value, k, Some(remaining))
      case Created(k) => r.Ok? && Presents(r.value, k, None)
    }

    ghost predicate Presents(out: Response, k: nat, remaining: Option<int>)
      reads this
    {
      && k < |exams| && out.sessionId == k && out.plan == exams[k].plan && out.endTime == exams[k].plan.startedAt + exams[k].plan.timeLimit * 60000
      && out.remaining == remaining
      && Shows(bank, StillLive(exams[k].plan.questionIds, bank.questions), out.questions)
    }

    method StartExam(data: Data, user: Id, now: int) returns (r: Result<Response, ExamError>, ghost outcome: Outcome)
      requires Valid()
      modifies this
      ensures Valid() && bank == old(bank)
      ensures Step(old(exams), Start(user, data, bank, now, outcome), exams)
      ensures Answers(outcome, r, now)
      ensures outcome.Created? ==>
        var x := exams[|old(exams)|];
        && |exams| == |old(exams)| + 1 && exams[..|old(exams)|] == old(exams) && outcome.exam == |old(exams)|
        && x.userId == user && x.plan.data == data && x.plan.startedAt == now
        && x.status == Active && x.endedAt == None && x.correct == []
    {
      ghost var before := exams;
      var existing := FindActiveExam(user, data);
      if existing.Some? {
        var response := FormatResumed(existing.value, now);
        outcome := Resumed(existing.value, Remaining(before[existing.value].plan, now));
        KeepStep(before, Start(user, data, bank, now, outcome), exams);
        return Ok(response), outcome;
      }
      var invalid := ValidateExamType(bank, data);
      if invalid.Some? {
        return Err(invalid.value), Refused(invalid.value);
      }
      var questions := GetQuestionsByType(data);
      if questions.Err? {
        return Err(questions.error), Refused(questions.error);
      }
      var id := CreateExamSession(data, user, questions.value, now);
      outcome := Created(id);
      KeepStep(before, Start(user, data, bank, now, outcome), exams);
      CreatedIsActive(before, Start(user, data, bank, now, outcome), exams);
      ResumeReturnsAll(bank, data, questions.value);
      SelectionIsSound(bank, data, questions.value);
      var shown := FormatNew(questions.value);
      r := Ok(Response(id, shown, exams[id].plan, EndTime(exams[id].plan), None));
    }

    /** Any row that matches, as the database pleases. */
    method FindActiveExam(user: Id, data: Data) returns (found: Option<Id>)
      ensures found.Some? ==> found.value < |exams| && Matches(exams[found.value], user, data)
      ensures found.Some? ==>
        var x := exams[found.value];
        && x.userId == user && x.status == Active && x.plan.data.examType == data.examType
        && (data.examType == SUBJECT && data.subjectId.Some? ==> x.plan.data.subjectId == data.subjectId)
        && (data.examType == TICKET && data.ticketId.Some? ==> x.plan.data.ticketId == data.ticketId)
      ensures found.None? ==> forall x :: x in exams && x.userId == user && x.status == Active ==>
        || x.plan.data.examType != data.examType
        || (data.examType == SUBJECT && data.subjectId.Some? && x.plan.data.subjectId != data.subjectId)
        || (data.examType == TICKET && data.ticketId.Some? && x.plan.data.ticketId != data.ticketId)
      ensures found.None? <==> !Running(exams, user, data)
    {
      if exists k :: 0 <= k < |exams| && Matches(exams[k], user, data) {
        var k: nat :| k < |exams| && Matches(exams[k], user, data);
        found := Some(k);
      } else {
        found := None;
      }
    }

    method GetQuestionsByType(data: Data) returns (r: Result<seq<Question>, ExamError>)
      requires ValidateExamType(bank, data) == None
      ensures r.Ok? ==> forall q :: q in r.value ==>
        && q in bank.questions && !q.isDeleted
        && (data.examType == SUBJECT ==> data.subjectId == Some(q.subjectId))
        && (data.examType == TICKET ==> data.ticketId == Some(q.ticketId))
      ensures r.Ok? <==> Obstacle(bank, data) == None
      ensures r.Ok? ==> Selection(bank, data, r.value)
      ensures r.Err? ==> Obstacle(bank, data) == Some(r.error)
    {
      var questions := Candidates(bank.questions, data);
      CandidatesFit(bank.questions, data);
      var invalid := ValidateQuestions(questions, bank.answers, Required(data));
      if invalid.Some? { return Err(invalid.value); }
      if data.examType == RANDOM {
        var shuffled := Shuffle(questions);
        assert shuffled == shuffled[..RANDOM_COUNT] + shuffled[RANDOM_COUNT..];
        forall q | q in shuffled ensures q in questions { assert q in multiset(shuffled); }
        r := Ok(shuffled[..RANDOM_COUNT]);
      } else {
        r := Ok(questions);
      }
    }

    method CreateExamSession(data: Data, user: Id, questions: seq<Question>, now: int) returns (id: Id)
      modifies this`exams
      ensures id == |old(exams)| && exams == old(exams) + [NewExam(id, user, data, questions, now)]
      ensures exams[id].userId == user && exams[id].status == Active && exams[id].endedAt == None && exams[id].correct == []
      ensures exams[id].plan.data == data && exams[id].plan.startedAt == now
      ensures exams[id].plan.timeLimit == exams[id].plan.questionCount == |exams[id].plan.questionIds| == |questions|
      ensures forall i :: 0 <= i < |questions| ==> exams[id].plan.questionIds[i] == questions[i].id
    {
      id := |exams|;
      exams := exams + [NewExam(id, user, data, questions, now)];
    }

    /** Resuming: when no minute is left the row expires, but the caller still gets its questions. */
    method FormatResumed(k: Id, now: int) returns (out: Response)
      requires k < |exams|
      modifies this`exams
      ensures var x := old(exams)[k];
        exams == if now >= x.plan.startedAt + x.plan.timeLimit * 60000
                 then old(exams)[k := x.(status := Expired, endedAt := Some(now))] else old(exams)
      ensures Presents(out, k, Some(Remaining(old(exams)[k].plan, now)))
    {
      var plan := exams[k].plan;
      var timeSpent := (now - plan.startedAt) / MINUTE;
      var remaining := Max(0, plan.timeLimit - timeSpent);
      TimeIsUpAtTheEnd(plan, now);
      if remaining <= 0 {
        exams := exams[k := Expire(exams[k], now)];
      }
      var shown := FormatQuestions(plan.questionIds);
      out := Response(k, shown, plan, EndTime(plan), Some(remaining));
    }

    /** Ids without a live question are left out; the answers of the others come in random order. */
    method FormatQuestions(ids: seq<Id>) returns (shown: seq<ExamQuestion>)
      ensures Shows(bank, StillLive(ids, bank.questions), shown)
      ensures forall i :: 0 <= i < |shown| ==> !shown[i].question.isDeleted && shown[i].question.id in ids
    {
      assert forall x :: x in StillLive(ids, bank.questions) ==> x in ids by { StillLiveAmong(ids, bank.questions); }
      shown := [];
      for i := 0 to |ids|
        invariant Shows(bank, StillLive(ids[..i], bank.questions), shown)
      {
        assert ids[..i + 1] == ids[..i] + [ids[i]];
        StillLiveAppend(ids[..i], ids[i], bank.questions);
        var question := Lookup(bank.questions, ids[i]);
        if question.Some? {
          var answers := Shuffle(LiveAnswers(bank.answers, ids[i]));
          shown := shown + [ExamQuestion(question.value, answers)];
        }
      }
      assert ids[..|ids|] == ids;
    }

    /** A new exam shows the questions just selected; looking them up by id would find the same ones. */
    method FormatNew(questions: seq<Question>) returns (shown: seq<ExamQuestion>)
      requires Distinct(Ids(bank.questions))
      requires forall q :: q in questions ==> q in bank.questions && !q.isDeleted
      ensures Shows(bank, Ids(questions), shown)
    {
      shown := [];
      for i := 0 to |questions|
        invariant Shows(bank, Ids(questions[..i]), shown)
      {
        assert Ids(questions[..i + 1]) == Ids(questions[..i]) + [questions[i].id];
        var answers := Shuffle(LiveAnswers(bank.answers, questions[i].id));
        shown := shown + [ExamQuestion(questions[i], answers)];
      }
      assert questions[..|questions|] == questions;
    }

    /** Neither the time nor the submitted ids are checked. */
    method Finish(id: Id, correct: seq<Id>, user: Id, now: int) returns (r: Result<(Id, nat, nat), ExamError>)
      requires Valid()
      modifies this`exams
      ensures Valid()
      ensures Step(old(exams), Event.Finish(user, id, correct, now, r.Ok?), exams)
      ensures r.Ok? ==> id < |exams| && r.value == (id, |correct|, exams[id].plan.questionCount)
      ensures r.Ok? ==> exams[id] == old(exams[id]).(status := Completed, endedAt := Some(now), correct := correct)
      ensures r.Err? ==> r.error == SessionNotFound && exams == old(exams)
    {
      ghost var before := exams;
      if !(id < |exams| && exams[id].userId == user && exams[id].status == Active) {
        return Err(SessionNotFound);
      }
      exams := exams[id := Finished(exams[id], correct, now)];
      KeepStep(before, Event.Finish(user, id, correct, now, true), exams);
      r := Ok((id, |correct|, exams[id].plan.questionCount));
    }
  }

  lemma StillLiveAmong(ids: seq<Id>, questions: seq<Question>)
    ensures forall x :: x in StillLive(ids, questions) ==> x in ids
  {
    var at := StillLiveOrder(ids, questions);
    forall x | x in StillLive(ids, questions) ensures x in ids {
      var j :| 0 <= j < |at| && StillLive(ids, questions)[j] == x;
      assert ids[at[j]] == x;
    }
  }

  lemma {:induction false} StillLiveAppend(ids: seq<Id>, id: Id, questions: seq<Question>)
    ensures StillLive(ids + [id], questions) == StillLive(ids, questions) + if Exists(questions, id) then [id] else []
  {
    hide Exists;
    if ids == [] {
      assert ids + [id] == [id];
      assert StillLive([id][1..], questions) == [];
    } else {
      var rest, more := StillLive(ids[1..], questions), if Exists(questions, id) then [id] else [];
      assert (ids + [id])[0] == ids[0] && (ids + [id])[1..] == ids[1..] + [id];
      StillLiveAppend(ids[1..], id, questions);
      assert StillLive((ids + [id])[1..], questions) == rest + more;
      assert StillLive(ids, questions) == (if Exists(questions, ids[0]) then [ids[0]] else []) + rest;
    }
  }
}
