/** `AnswersService`: the four mutators on the answer table. */
module AnswersServices {
  import opened Wrappers
  import opened AnswerBank

  class AnswersService {
    var answers: seq<Answer>

    ghost predicate Valid()
      reads this
    {
      Sound(answers)
    }

    constructor ()
      ensures Valid() && answers == []
    {
      answers := [];
    }

    method Create(questionId: Id, item: Item) returns (r: Result<Answer, Refusal>)
      requires Valid() && !Present(answers, item.id)
      modifies this
      ensures Valid()
      ensures r.Err? <==>
        && item.isCorrect == Some(true)
        && exists a :: a in old(answers) && a.questionId == questionId && a.isCorrect && !a.isDeleted
      ensures r.Ok? ==> answers == old(answers) + [r.value]
      ensures r.Ok? ==> r.value == Answer(item.id, questionId, item.title, item.isCorrect == Some(true), false)
      ensures r.Err? ==> answers == old(answers) && r.error == AlreadyCorrect
      ensures answers == Next(old(answers), AnswerBank.Create(questionId, item))
      ensures r.Err? ==> Handle(old(answers), AnswerBank.Create(questionId, item)) == Err(r.error)
    {
      ghost var req := AnswerBank.Create(questionId, item);
      KeepRequest(answers, req);
      NoKeys(answers, questionId);
      if item.isCorrect == Some(true) {
        var existing := FindCorrect(questionId);
        if existing { return Err(AlreadyCorrect); }
      }
      var answer := Row(questionId, item);
      answers := answers + [answer];
      r := Ok(answer);
    }

    /** All answers are inserted or none. */
    method CreateMultiple(questionId: Id, items: seq<Item>) returns (r: Result<seq<Answer>, Refusal>)
      requires Valid() && Fresh(answers, AnswerBank.CreateMultiple(questionId, items))
      modifies this
      ensures Valid()
      ensures r == Err(SeveralCorrect) <==>
        exists i, j :: 0 <= i < j < |items| && items[i].isCorrect == items[j].isCorrect == Some(true)
      ensures r == Err(NoneCorrect) <==> forall i :: 0 <= i < |items| ==> items[i].isCorrect != Some(true)
      ensures r == Err(AlreadyCorrect) <==> |Correct(items)| == 1 && Keys(old(answers), questionId) != {}
      ensures r.Ok? <==> |Correct(items)| == 1 && Keys(old(answers), questionId) == {}
      ensures r.Ok? ==> answers == old(answers) + r.value && |r.value| == |items|
      ensures r.Ok? ==> forall i :: 0 <= i < |items| ==>
        r.value[i] == Answer(items[i].id, questionId, items[i].title, items[i].isCorrect == Some(true), false)
      ensures r.Ok? ==> |Keys(answers, questionId)| == 1
      ensures r.Err? ==> answers == old(answers)
      ensures answers == Next(old(answers), AnswerBank.CreateMultiple(questionId, items))
      ensures r.Err? ==> Handle(old(answers), AnswerBank.CreateMultiple(questionId, items)) == Err(r.error)
    {
      ghost var req := AnswerBank.CreateMultiple(questionId, items);
      KeepRequest(answers, req);
      NoKeys(answers, questionId);
      CorrectMembers(items);
      var correct := Correct(items);
      if |correct| > 1 { return Err(SeveralCorrect); }
      if |correct| == 0 { return Err(NoneCorrect); }
      var existing := FindCorrect(questionId);
      if existing { return Err(AlreadyCorrect); }
      ghost var k := BulkCreatesOne(answers, questionId, items);
      var created: seq<Answer> := [];
      for i := 0 to |items|
        invariant created == Rows(questionId, items[..i])
        invariant answers == old(answers) + created
      {
        var answer := Row(questionId, items[i]);
        created := created + [answer];
        answers := answers + [answer];
      }
      assert items[..|items|] == items;
      assert Keys(answers, questionId) == {items[k].id};
      r := Ok(created);
    }

    /** Marking an answer correct first clears the mark on the question's other live answers. */
    method Update(id: Id, title: Option<Name>, isCorrect: Option<bool>) returns (r: Result<Answer, Refusal>)
      requires Valid()
      modifies this
      ensures Valid()
      ensures r.Ok? <==> exists i :: 0 <= i < |old(answers)| && old(answers)[i].id == id
      ensures r.Err? ==> answers == old(answers)
      ensures r.Err? ==> r.error == if isCorrect == Some(true) then AnswerNotFound else RecordNotFound
      ensures |answers| == |old(answers)| && (r.Ok? ==> r.value in answers && r.value.id == id)
      ensures r.Ok? ==> forall i :: 0 <= i < |answers| ==>
        var a := old(answers)[i];
        answers[i] ==
          if a.id == id then a.(title := if title.Some? then title.value else a.title,
                                isCorrect := if isCorrect.Some? then isCorrect.value else a.isCorrect)
          else if isCorrect == Some(true) && a.questionId == r.value.questionId && !a.isDeleted then a.(isCorrect := false)
          else a
      ensures r.Ok? && isCorrect == Some(true) ==>
        Keys(answers, r.value.questionId) == if r.value.isDeleted then {} else {id}
      ensures answers == Next(old(answers), AnswerBank.Update(id, title, isCorrect))
      ensures r.Err? ==> Handle(old(answers), AnswerBank.Update(id, title, isCorrect)) == Err(r.error)
    {
      ghost var req := AnswerBank.Update(id, title, isCorrect);
      KeepRequest(answers, req);
      if isCorrect == Some(true) {
        if !(exists i :: 0 <= i < |answers| && answers[i].id == id) { return Err(AnswerNotFound); }
        var k := Find(answers, id);
        MarkedIsTheOnlyOne(answers, id, title);
        answers := ResetOthers(answers, answers[k].questionId, id);
        answers := Edit(answers, id, title, isCorrect);
        r := Ok(answers[k]);
      } else {
        if !(exists i :: 0 <= i < |answers| && answers[i].id == id) { return Err(RecordNotFound); }
        var k := Find(answers, id);
        answers := Edit(answers, id, title, isCorrect);
        r := Ok(answers[k]);
      }
    }

    method Remove(id: Id) returns (r: Result<Answer, Refusal>)
      requires Valid()
      modifies this
      ensures Valid()
      ensures r.Ok? <==> exists i :: 0 <= i < |old(answers)| && old(answers)[i].id == id
      ensures r.Err? ==> answers == old(answers) && r.error == RecordNotFound
      ensures |answers| == |old(answers)| && (r.Ok? ==> r.value in answers && r.value.id == id)
      ensures forall i :: 0 <= i < |answers| ==>
        answers[i] == if old(answers)[i].id == id then old(answers)[i].(isDeleted := true) else old(answers)[i]
      ensures forall q :: Keys(answers, q) == Keys(old(answers), q) - {id}
      ensures answers == Next(old(answers), AnswerBank.Remove(id))
      ensures r.Err? ==> Handle(old(answers), AnswerBank.Remove(id)) == Err(r.error)
    {
      ghost var before := answers;
      KeepRequest(answers, AnswerBank.Remove(id));
      if !(exists i :: 0 <= i < |answers| && answers[i].id == id) {
        assert !Present(before, id);
        forall q { KeysPresent(before, q); }
        return Err(RecordNotFound);
      }
      var k := Find(answers, id);
      answers := Delete(answers, id);
      forall q { RemoveKeys(before, id, q); }
      r := Ok(answers[k]);
    }

    method FindCorrect(questionId: Id) returns (found: bool)
      ensures found <==> Keys(answers, questionId) != {}
      ensures found <==> exists a :: a in answers && a.questionId == questionId && a.isCorrect && !a.isDeleted
    {
      NoKeys(answers, questionId);
      found := exists i :: 0 <= i < |answers| && LiveCorrect(answers[i], questionId);
    }
  }
}
