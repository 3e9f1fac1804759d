/** The script's transformation, with the mutable list of answers it fills while mapping the questions. */
module MigrationScript {
  import opened Wrappers
  import opened Lists
  import opened AnswerBank
  import opened Migration
  import opened MigrationLaws

  /** The id drawn k-th is `first + k`; only their distinctness matters.  `at` is the question that fails. */
  method MigrateQuestions(lessons: seq<Lesson>, subjectsData: seq<SubjectData>, first: Id)
    returns (r: Result<Tables, MigrationError>, ghost at: nat)
    ensures r.Ok? <==> Known(lessons, subjectsData)
    ensures r.Ok? ==> Migrated(All(lessons), subjectsData, first, r.value)
    ensures r.Ok? ==> Sound(r.value.answers)
    ensures r.Err? ==> at < |All(lessons)| && FirstUnknown(All(lessons), subjectsData, at)
    ensures r.Err? ==> r.error == NotMigrated(All(lessons)[at].question.id)
  {
    hide *;
    var subjectsArr := SubjectRows(subjectsData, first);
    var pureSubjects := Number(LessonIds(subjectsData), first);
    var allQuestions := All(lessons);
    var ticketsArr := Number(SortInts(Dedupe(BiletIds(allQuestions))), first + |subjectsArr|);
    var photos := Shuffle(Dedupe(Photos(allQuestions)));
    var filesArr := Number(NonNull(photos), first + |subjectsArr| + |ticketsArr|);
    PhotosAreFiles(allQuestions, photos, first + |subjectsArr| + |ticketsArr|);
    var base := first + |subjectsArr| + |ticketsArr| + |filesArr|;
    var mapped, failed := MapQuestions(allQuestions, subjectsData, first, ticketsArr, first + |subjectsArr|, filesArr, base);
    at := failed;
    if mapped.Err? {
      IsFirstUnknown(lessons, subjectsData, at);
      return Err(mapped.error), at;
    }
    var questionsArr, answersArr := mapped.value.0, mapped.value.1;
    AllKnown(lessons, subjectsData);
    r := Ok(Tables(subjectsArr, ticketsArr, filesArr, questionsArr, answersArr));
    IsMigrated(allQuestions, subjectsData, first, r.value);
  }

  method MapQuestions(all: seq<Entry>, data: seq<SubjectData>, first: Id, tickets: seq<Keyed<int>>, ghost firstTicket: Id,
                      files: seq<Keyed<string>>, base: Id)
    returns (r: Result<(seq<QuestionRow>, seq<Answer>), MigrationError>, ghost at: nat)
    requires tickets == Number(SortInts(Dedupe(BiletIds(all))), firstTicket)
    ensures r.Ok? ==> KnownUpTo(all, data, |all|) && |r.value.0| == |all| && Sound(r.value.1)
    ensures r.Ok? ==> Rekeyed(all, Number(LessonIds(data), first), tickets, files, base, r.value.0)
    ensures r.Ok? ==> r.value.1 == AnswersFor(all, base)
    ensures r.Err? ==> at < |all| && KnownUpTo(all, data, at) && all[at].lessonId !in LessonIds(data)
    ensures r.Err? ==> r.error == NotMigrated(all[at].question.id)
  {
    hide *;
    var subjects := Number(LessonIds(data), first);
    var next := base;
    var answersArr: seq<Answer> := [];
    var questionsArr: seq<QuestionRow> := [];
    NothingYet(all, data, subjects, tickets, files, base);
    for n := 0 to |all|
      invariant next == base + Drawn(all[..n])
      invariant answersArr == AnswersFor(all[..n], base)
      invariant |questionsArr| == n
      invariant Rekeyed(all, subjects, tickets, files, base, questionsArr)
      invariant KnownUpTo(all, data, n)
    {
      var question := all[n].question;
      var questionId := next;
      var ticketId := FindId(tickets, question.biletId);
      var subjectId := FindId(subjects, all[n].lessonId);
      var fileId := if question.photo.Some? then FindId(files, question.photo.value) else None;
      BiletFound(all, n);
      InNumbered(SortInts(Dedupe(BiletIds(all))), firstTicket, question.biletId);
      InNumbered(LessonIds(data), first, all[n].lessonId);
      if ticketId.None? || subjectId.None? {
        return Err(NotMigrated(question.id)), n;
      }
      var row := QuestionRow(questionId, ticketId.value, subjectId.value, fileId, question.title);
      AddQuestion(all, subjects, tickets, files, base, questionsArr, row);
      AddKnown(all, data, n);
      AnswersForSnoc(all, n, base);
      answersArr, next := PushAnswers(question, questionId, answersArr);
      questionsArr := questionsArr + [row];
    }
    assert all[..|all|] == all;
    AnswersAreSound(all, |all|, base);
    r := Ok((questionsArr, answersArr));
    at := 0;
  }

  /** The answers of one question, one row an index of the longest language. */
  method PushAnswers(question: Source, questionId: Id, answersArr: seq<Answer>) returns (out: seq<Answer>, next: Id)
    ensures out == answersArr + AnswerRows(question, questionId)
    ensures next == questionId + 1 + AnswerCount(question)
  {
    next := questionId + 1;
    out := answersArr;
    if question.answers.Some? {
      var data := question.answers.value;
      for i := 0 to AnswerCount(question)
        invariant next == questionId + 1 + i
        invariant out == answersArr + AnswerRows(question, questionId)[..i]
      {
        out := out + [AnswerRow(data, i, questionId, next)];
        next := next + 1;
      }
    }
  }

  lemma NothingYet(all: seq<Entry>, data: seq<SubjectData>, subjects: seq<Keyed<int>>, tickets: seq<Keyed<int>>,
                   files: seq<Keyed<string>>, base: Id)
    ensures Drawn(all[..0]) == 0 && AnswersFor(all[..0], base) == []
    ensures Rekeyed(all, subjects, tickets, files, base, []) && KnownUpTo(all, data, 0)
  {
  }

  lemma AddQuestion(all: seq<Entry>, subjects: seq<Keyed<int>>, tickets: seq<Keyed<int>>, files: seq<Keyed<string>>,
                    base: Id, rows: seq<QuestionRow>, row: QuestionRow)
    requires Rekeyed(all, subjects, tickets, files, base, rows) && |rows| < |all|
    requires FindId(tickets, all[|rows|].question.biletId) == Some(row.ticketId)
    requires FindId(subjects, all[|rows|].lessonId) == Some(row.subjectId)
    requires row.fileId
          == if all[|rows|].question.photo.Some? then FindId(files, all[|rows|].question.photo.value) else None
    requires row.title == all[|rows|].question.title && row.id == base + Drawn(all[..|rows|])
    ensures Rekeyed(all, subjects, tickets, files, base, rows + [row])
  {
    hide FindId, Drawn;
  }

  lemma IsMigrated(all: seq<Entry>, data: seq<SubjectData>, first: Id, t: Tables)
    requires t.subjects == SubjectRows(data, first)
    requires t.tickets == Number(SortInts(Dedupe(BiletIds(all))), first + |t.subjects|)
    requires FilesOf(all, t.files, first + |t.subjects| + |t.tickets|)
    requires |t.questions| == |all|
    requires Rekeyed(all, Number(LessonIds(data), first), t.tickets, t.files,
                     first + |t.subjects| + |t.tickets| + |t.files|, t.questions)
    requires t.answers == AnswersFor(all, first + |t.subjects| + |t.tickets| + |t.files|)
    ensures Migrated(all, data, first, t)
  {
    hide FilesOf, Rekeyed, Number, SortInts, Dedupe, AnswersFor;
  }

  predicate KnownUpTo(all: seq<Entry>, data: seq<SubjectData>, n: nat)
  {
    n <= |all| && forall i :: 0 <= i < n ==> all[i].lessonId in LessonIds(data)
  }

  lemma AddKnown(all: seq<Entry>, data: seq<SubjectData>, n: nat)
    requires KnownUpTo(all, data, n) && n < |all| && all[n].lessonId in LessonIds(data)
    ensures KnownUpTo(all, data, n + 1)
  {
  }

  lemma AllKnown(lessons: seq<Lesson>, data: seq<SubjectData>)
    requires KnownUpTo(All(lessons), data, |All(lessons)|)
    ensures Known(lessons, data)
  {
    KnownLessons(lessons, data);
  }

  lemma IsFirstUnknown(lessons: seq<Lesson>, data: seq<SubjectData>, n: nat)
    requires KnownUpTo(All(lessons), data, n) && n < |All(lessons)| && All(lessons)[n].lessonId !in LessonIds(data)
    ensures !Known(lessons, data) && FirstUnknown(All(lessons), data, n)
  {
    KnownLessons(lessons, data);
    assert All(lessons)[n] in All(lessons);
  }

  /** The first question, in order, whose lesson is not a subject. */
  predicate FirstUnknown(all: seq<Entry>, data: seq<SubjectData>, n: nat)
    requires n < |all|
  {
    all[n].lessonId !in LessonIds(data) && KnownUpTo(all, data, n)
  }

  lemma InNumbered<K>(keys: seq<K>, first: Id, key: K)
    ensures FindId(Number(keys, first), key).Some? <==> key in keys
  {
    var k := FindIdFinds(Number(keys, first), key);
    if key in keys {
      var i :| 0 <= i < |keys| && keys[i] == key;
      assert Number(keys, first)[i].key == key;
    }
  }

  lemma KnownLessons(lessons: seq<Lesson>, data: seq<SubjectData>)
    ensures Known(lessons, data) <==> forall e :: e in All(lessons) ==> e.lessonId in LessonIds(data)
  {
    AllMembers(lessons);
    FlattenMembers(lessons);
    assert forall i | 0 <= i < |data| :: LessonIds(data)[i] == data[i].id;
    if Known(lessons, data) {
      forall e | e in All(lessons) ensures e.lessonId in LessonIds(data) {
        var k :| 0 <= k < |lessons| && e.lessonId == lessons[k].lessonId && e.question in lessons[k].questions;
        assert lessons[k].questions != [];
      }
    }
    if forall e :: e in All(lessons) ==> e.lessonId in LessonIds(data) {
      forall k | 0 <= k < |lessons| && lessons[k].questions != []
        ensures exists i :: 0 <= i < |data| && data[i].id == lessons[k].lessonId
      {
        var e := Entry(lessons[k].questions[0], lessons[k].lessonId);
        assert e in Flatten(lessons);
        assert e.lessonId in LessonIds(data);
      }
    }
  }

  /** The photos found, rearranged and without null, are the names of the files. */
  lemma PhotosAreFiles(all: seq<Entry>, photos: seq<Option<string>>, first: Id)
    requires multiset(photos) == multiset(Dedupe(Photos(all)))
    ensures FilesOf(all, Number(NonNull(photos), first), first)
  {
    var found := Dedupe(Photos(all));
    DedupeOnce(Photos(all));
    assert photos + [] == photos;
    RearrangedDistinct(found, photos, []);
    RearrangedDistinctBack(found, photos);
    NonNullMembers(photos);
    forall name ensures name in NonNull(photos) <==> exists i :: 0 <= i < |all| && all[i].question.photo == Some(name) {
      assert name in NonNull(photos) <==> Some(name) in Photos(all);
      if i :| 0 <= i < |all| && all[i].question.photo == Some(name) { assert Photos(all)[i] == Some(name); }
    }
  }

  lemma RearrangedDistinctBack<T>(xs: seq<T>, ys: seq<T>)
    requires multiset(ys) == multiset(xs)
    ensures forall x :: x in xs <==> x in ys
  {
    forall x ensures x in xs <==> x in ys {
      assert x in xs <==> x in multiset(xs);
      assert x in ys <==> x in multiset(ys);
    }
  }
}
