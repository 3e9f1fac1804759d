/** What the migration preserves: grouping, counts, answers, and an answer bank fit for exams. */
module MigrationLaws {
  import opened Wrappers
  import opened Lists
  import opened AnswerBank
  import opened Migration
  import Exams
  import ExamRuns

  // ---------------------------------------------------------------- grouping

  lemma BiletFound(all: seq<Entry>, i: nat)
    requires i < |all|
    ensures all[i].question.biletId in SortInts(Dedupe(BiletIds(all)))
  {
    DedupeOnce(BiletIds(all));
    SortIntsSorts(Dedupe(BiletIds(all)));
    assert BiletIds(all)[i] == all[i].question.biletId;
  }

  lemma RowOf(all: seq<Entry>, data: seq<SubjectData>, first: Id, t: Tables, i: nat)
    requires Migrated(all, data, first, t) && i < |all|
    ensures t.subjects == SubjectRows(data, first)
    ensures t.tickets == Number(SortInts(Dedupe(BiletIds(all))), first + |t.subjects|)
    ensures FilesOf(all, t.files, first + |t.subjects| + |t.tickets|)
    ensures FindId(t.tickets, all[i].question.biletId) == Some(t.questions[i].ticketId)
    ensures FindId(Number(LessonIds(data), first), all[i].lessonId) == Some(t.questions[i].subjectId)
    ensures t.questions[i].fileId
         == if all[i].question.photo.Some? then FindId(t.files, all[i].question.photo.value) else None
  {
    hide FilesOf, Number, SortInts, Dedupe, FindId, Drawn;
  }

  lemma FileFound(all: seq<Entry>, files: seq<Keyed<string>>, at: Id, i: nat, j: nat)
    requires FilesOf(all, files, at) && i < |all| && j < |all|
    requires all[i].question.photo.Some? && all[j].question.photo.Some?
    ensures FindId(files, all[i].question.photo.value).Some? && FindId(files, all[j].question.photo.value).Some?
    ensures FindId(files, all[i].question.photo.value) == FindId(files, all[j].question.photo.value)
       <==> all[i].question.photo == all[j].question.photo
  {
    hide FindId;
    var names :| files == Number(names, at) && Distinct(names)
      && forall name :: name in names <==> exists i :: 0 <= i < |all| && all[i].question.photo == Some(name);
    var a, b := all[i].question.photo, all[j].question.photo;
    assert a == Some(a.value) && b == Some(b.value);
    FindIdInjective(names, at, a.value, b.value);
  }

  /** Questions share a ticket or a subject exactly when they shared a bilet or a lesson. */
  lemma GroupingIsKept(all: seq<Entry>, data: seq<SubjectData>, first: Id, t: Tables, i: nat, j: nat)
    requires Migrated(all, data, first, t) && i < |all| && j < |all|
    ensures t.questions[i].ticketId == t.questions[j].ticketId <==> all[i].question.biletId == all[j].question.biletId
    ensures t.questions[i].subjectId == t.questions[j].subjectId <==> all[i].lessonId == all[j].lessonId
  {
    hide *;
    RowOf(all, data, first, t, i);
    RowOf(all, data, first, t, j);
    BiletFound(all, i);
    BiletFound(all, j);
    LessonFound(data, first, all[i].lessonId);
    LessonFound(data, first, all[j].lessonId);
    var bilets := SortInts(Dedupe(BiletIds(all)));
    FindIdInjective(bilets, first + |t.subjects|, all[i].question.biletId, all[j].question.biletId);
    FindIdInjective(LessonIds(data), first, all[i].lessonId, all[j].lessonId);
  }

  lemma LessonFound(data: seq<SubjectData>, first: Id, lessonId: int)
    requires FindId(Number(LessonIds(data), first), lessonId).Some?
    ensures lessonId in LessonIds(data)
  {
    var k := FindIdFinds(Number(LessonIds(data), first), lessonId);
    assert LessonIds(data)[k] == lessonId;
  }

  /** Questions share a file exactly when they shared a photo, and have none exactly when they had none. */
  lemma FilesAreKept(all: seq<Entry>, data: seq<SubjectData>, first: Id, t: Tables, i: nat, j: nat)
    requires Migrated(all, data, first, t) && i < |all| && j < |all|
    ensures t.questions[i].fileId.None? <==> all[i].question.photo.None?
    ensures t.questions[i].fileId == t.questions[j].fileId <==> all[i].question.photo == all[j].question.photo
  {
    hide *;
    RowOf(all, data, first, t, i);
    RowOf(all, data, first, t, j);
    var at := first + |t.subjects| + |t.tickets|;
    if all[i].question.photo.Some? { FileFound(all, t.files, at, i, i); }
    if all[j].question.photo.Some? { FileFound(all, t.files, at, j, j); }
    if all[i].question.photo.Some? && all[j].question.photo.Some? { FileFound(all, t.files, at, i, j); }
  }

  /** Every key of a question names a row that carries the scraped value it replaces. */
  lemma KeysResolve(all: seq<Entry>, data: seq<SubjectData>, first: Id, t: Tables, i: nat)
    returns (ticket: nat, subject: nat, file: nat)
    requires Migrated(all, data, first, t) && i < |all|
    ensures ticket < |t.tickets| && t.tickets[ticket] == Keyed(all[i].question.biletId, t.questions[i].ticketId)
    ensures subject < |t.subjects| == |data| && data[subject].id == all[i].lessonId
    ensures t.subjects[subject] == SubjectRow(t.questions[i].subjectId, data[subject].name)
    ensures all[i].question.photo.Some? ==>
      file < |t.files| && t.questions[i].fileId.Some?
      && t.files[file] == Keyed(all[i].question.photo.value, t.questions[i].fileId.value)
  {
    hide Migrated, FilesOf, FindId, SortInts, Dedupe, BiletIds, FirstQuestionId, Drawn;
    RowOf(all, data, first, t, i);
    ticket := FindIdFinds(t.tickets, all[i].question.biletId);
    subject := FindIdFinds(Number(LessonIds(data), first), all[i].lessonId);
    file := 0;
    if all[i].question.photo.Some? {
      FileFound(all, t.files, first + |t.subjects| + |t.tickets|, i, i);
      file := FindIdFinds(t.files, all[i].question.photo.value);
    }
  }

  // ---------------------------------------------------------------- ids

  lemma {:induction false} DrawnGrows(all: seq<Entry>, i: nat, j: nat)
    requires i < j <= |all|
    ensures Drawn(all[..i]) + 1 + AnswerCount(all[i].question) <= Drawn(all[..j])
  {
    var n := j - 1;
    assert all[..j][..n] == all[..n];
    if i < n { DrawnGrows(all, i, n); }
  }

  lemma QuestionIds(all: seq<Entry>, data: seq<SubjectData>, first: Id, t: Tables, i: nat)
    requires Migrated(all, data, first, t) && i < |all|
    ensures t.questions[i].id == FirstQuestionId(t, first) + Drawn(all[..i])
    ensures t.questions[i].title == all[i].question.title
  {
  }

  lemma QuestionIdsDiffer(all: seq<Entry>, data: seq<SubjectData>, first: Id, t: Tables, i: nat, j: nat)
    requires Migrated(all, data, first, t) && i < j < |all|
    ensures t.questions[i].id < t.questions[j].id
  {
    QuestionIds(all, data, first, t, i);
    QuestionIds(all, data, first, t, j);
    DrawnGrows(all, i, j);
  }

  // ---------------------------------------------------------------- answers

  lemma AnswersForSnoc(all: seq<Entry>, n: nat, first: Id)
    requires n < |all|
    ensures AnswersFor(all[..n + 1], first)
         == AnswersFor(all[..n], first) + AnswerRows(all[n].question, first + Drawn(all[..n]))
    ensures Drawn(all[..n + 1]) == Drawn(all[..n]) + 1 + AnswerCount(all[n].question)
  {
    assert all[..n + 1][..n] == all[..n];
  }

  /** Every answer is drawn after its question and before `limit`. */
  predicate Below(rows: seq<Answer>, limit: Id)
  {
    forall k :: 0 <= k < |rows| ==> rows[k].questionId < rows[k].id < limit
  }

  lemma RowsOfOne(q: Source, question: Id)
    ensures Below(AnswerRows(q, question), question + 1 + AnswerCount(q)) && Sound(AnswerRows(q, question))
    ensures Belong(AnswerRows(q, question), question)
  {
    hide AnswerCount, Text, CorrectIndex;
  }

  lemma AddRows(rows: seq<Answer>, more: seq<Answer>, question: Id, limit: Id)
    requires Sound(rows) && Below(rows, question) && Sound(more) && Below(more, limit) && question <= limit
    requires Belong(more, question)
    ensures Sound(rows + more) && Below(rows + more, limit)
  {
    FreshIdsStayDistinct(rows, more);
    AppendKeeps(rows, more, question);
  }

  /** The migrated answers meet the invariant of the answer bank. */
  lemma {:induction false} AnswersAreSound(all: seq<Entry>, n: nat, first: Id)
    requires n <= |all|
    ensures Sound(AnswersFor(all[..n], first)) && Below(AnswersFor(all[..n], first), first + Drawn(all[..n]))
  {
    if n > 0 {
      var m := n - 1;
      AnswersAreSound(all, m, first);
      AnswersForSnoc(all, m, first);
      RowsOfOne(all[m].question, first + Drawn(all[..m]));
      hide AnswersFor, AnswerRows, Sound, Below, Drawn, AnswerCount;
      AddRows(AnswersFor(all[..m], first), AnswerRows(all[m].question, first + Drawn(all[..m])),
              first + Drawn(all[..m]), first + Drawn(all[..n]));
    }
  }

  lemma {:induction false} LiveAnswersAppend(a: seq<Answer>, b: seq<Answer>, q: Id)
    ensures Exams.LiveAnswers(a + b, q) == Exams.LiveAnswers(a, q) + Exams.LiveAnswers(b, q)
  {
    if a == [] {
      assert a + b == b;
    } else {
      assert (a + b)[1..] == a[1..] + b;
      LiveAnswersAppend(a[1..], b, q);
    }
  }

  lemma {:induction false} LiveAnswersNone(a: seq<Answer>, q: Id)
    requires forall k :: 0 <= k < |a| ==> a[k].questionId != q
    ensures Exams.LiveAnswers(a, q) == []
  {
    if a != [] { LiveAnswersNone(a[1..], q); }
  }

  lemma {:induction false} LiveAnswersAll(a: seq<Answer>, q: Id)
    requires forall k :: 0 <= k < |a| ==> a[k].questionId == q && !a[k].isDeleted
    ensures Exams.LiveAnswers(a, q) == a
  {
    if a != [] { LiveAnswersAll(a[1..], q); }
  }

  /** Undeleted rows of one question. */
  predicate Belong(rows: seq<Answer>, question: Id)
  {
    forall k :: 0 <= k < |rows| ==> rows[k].questionId == question && !rows[k].isDeleted
  }

  lemma LiveAnswersAppendOne(rows: seq<Answer>, more: seq<Answer>, question: Id, q: Id)
    requires Belong(more, question)
    ensures Exams.LiveAnswers(rows + more, q) == Exams.LiveAnswers(rows, q) + if question == q then more else []
  {
    LiveAnswersAppend(rows, more, q);
    if question == q { LiveAnswersAll(more, q); } else { LiveAnswersNone(more, q); }
  }

  lemma NoAnswersYet(all: seq<Entry>, first: Id, q: Id)
    ensures Exams.LiveAnswers(AnswersFor(all[..0], first), q) == []
  {
  }

  lemma {:induction false} AnswersOfOne(all: seq<Entry>, n: nat, first: Id, i: nat, q: Id)
    requires n <= |all| && i < |all| && q == first + Drawn(all[..i])
    ensures Exams.LiveAnswers(AnswersFor(all[..n], first), q) == if i < n then AnswerRows(all[i].question, q) else []
  {
    hide *;
    if n == 0 {
      NoAnswersYet(all, first, q);
    } else {
      var m := n - 1;
      var p := first + Drawn(all[..m]);
      AnswersOfOne(all, m, first, i, q);
      AnswersForSnoc(all, m, first);
      RowsOfOne(all[m].question, p);
      if i < m { DrawnGrows(all, i, m); } else if m < i { DrawnGrows(all, m, i); }
      LiveAnswersAppendOne(AnswersFor(all[..m], first), AnswerRows(all[m].question, p), p, q);
    }
  }

  /** The index of the correct answer, from 1 on: the status, or 1 if it is absent or 0. */
  predicate PointsAt(a: AnswerData, n: int)
  {
    match a.status
    case None => n == 1
    case Some(status) => if status == 0 then n == 1 else n == status
  }

  /** What the question has in one language at `k`: its text, or nothing beyond the end of the list. */
  predicate Says(texts: Option<seq<string>>, k: nat, text: string)
  {
    match texts
    case None => text == ""
    case Some(list) => if k < |list| then text == list[k] else text == ""
  }

  /** The number of answers is the length of the longest list. */
  predicate Longest(a: AnswerData, n: nat)
  {
    && (a.oz.Some? ==> |a.oz.value| <= n) && (a.uz.Some? ==> |a.uz.value| <= n) && (a.ru.Some? ==> |a.ru.value| <= n)
    && (n == 0 || (a.oz.Some? && n == |a.oz.value|) || (a.uz.Some? && n == |a.uz.value|) || (a.ru.Some? && n == |a.ru.value|))
  }

  /** `rows` are the scraped answers, in order and language by language, the one the status points at marked. */
  predicate AreScraped(rows: seq<Answer>, q: Source)
  {
    match q.answers
    case None => rows == []
    case Some(a) =>
      && Longest(a, |rows|)
      && forall k :: 0 <= k < |rows| ==>
        && Says(a.oz, k, rows[k].title.oz) && Says(a.uz, k, rows[k].title.uz) && Says(a.ru, k, rows[k].title.ru)
        && (rows[k].isCorrect <==> PointsAt(a, k + 1))
  }

  /** The longest language of a question. */
  lemma AnswerCountIsLongest(q: Source)
    requires q.answers.Some?
    ensures Longest(q.answers.value, AnswerCount(q))
  {
  }

  lemma RowsAreScraped(q: Source, question: Id)
    ensures AreScraped(AnswerRows(q, question), q)
  {
    if q.answers.Some? { AnswerCountIsLongest(q); }
    hide AnswerCount;
  }

  /** A question's answers are its scraped ones: none lost, none mixed up with another question's. */
  lemma AnswersOfQuestion(all: seq<Entry>, data: seq<SubjectData>, first: Id, t: Tables, i: nat)
    requires Migrated(all, data, first, t) && i < |all|
    ensures AreScraped(Exams.LiveAnswers(t.answers, t.questions[i].id), all[i].question)
  {
    assert t.answers == AnswersFor(all, FirstQuestionId(t, first));
    hide *;
    QuestionIds(all, data, first, t, i);
    AnswersOfOne(all, |all|, FirstQuestionId(t, first), i, t.questions[i].id);
    assert all[..|all|] == all;
    RowsAreScraped(all[i].question, t.questions[i].id);
  }

  lemma {:induction false} CorrectOnesNone(rows: seq<Answer>)
    ensures |Exams.CorrectOnes(rows)| == 0 <==> forall k :: 0 <= k < |rows| ==> !rows[k].isCorrect
  {
    if rows != [] {
      CorrectOnesNone(rows[1..]);
      assert forall k | 0 < k < |rows| :: rows[k] == rows[1..][k - 1];
    }
  }

  /** At most one answer of a question is correct, and one is exactly when the scraped status points at an answer. */
  lemma OneCorrectIff(all: seq<Entry>, data: seq<SubjectData>, first: Id, t: Tables, i: nat)
    requires Migrated(all, data, first, t) && i < |all|
    ensures var rows := Exams.LiveAnswers(t.answers, t.questions[i].id);
      && |Exams.CorrectOnes(rows)| <= 1
      && (|Exams.CorrectOnes(rows)| == 1 <==>
            all[i].question.answers.Some? && exists n :: 1 <= n <= |rows| && PointsAt(all[i].question.answers.value, n))
  {
    var q := t.questions[i].id;
    assert all[..|all|] == all;
    AnswersAreSound(all, |all|, FirstQuestionId(t, first));
    ExamRuns.CorrectLive(t.answers, q);
    AnswersOfQuestion(all, data, first, t, i);
    var rows := Exams.LiveAnswers(t.answers, q);
    CorrectOnesNone(rows);
    hide Migrated, Exams.LiveAnswers, Exams.CorrectOnes, AnswersFor, Sound, FirstQuestionId;
    if k :| 0 <= k < |rows| && rows[k].isCorrect {
      assert PointsAt(all[i].question.answers.value, k + 1);
    }
    if all[i].question.answers.Some? {
      if n :| 1 <= n <= |rows| && PointsAt(all[i].question.answers.value, n) { assert rows[n - 1].isCorrect; }
    }
  }

  /** A migrated question can be asked in an exam exactly when it has two answers and its status points at one. */
  lemma WellPosedIff(all: seq<Entry>, data: seq<SubjectData>, first: Id, t: Tables, i: nat)
    requires Migrated(all, data, first, t) && i < |all|
    ensures var rows := Exams.LiveAnswers(t.answers, t.questions[i].id);
      Exams.WellPosed(t.answers, t.questions[i].id) <==>
        && |rows| >= 2 && all[i].question.answers.Some?
        && exists n :: 1 <= n <= |rows| && PointsAt(all[i].question.answers.value, n)
  {
    OneCorrectIff(all, data, first, t, i);
    hide Exams.LiveAnswers, Exams.CorrectOnes, Migrated;
  }

  /** Every answer belongs to a migrated question. */
  lemma {:induction false} AnswersBelong(all: seq<Entry>, n: nat, first: Id, k: nat) returns (i: nat)
    requires n <= |all| && k < |AnswersFor(all[..n], first)|
    ensures i < n && AnswersFor(all[..n], first)[k].questionId == first + Drawn(all[..i])
    decreases n
  {
    var m := n - 1;
    AnswersForSnoc(all, m, first);
    RowsOfOne(all[m].question, first + Drawn(all[..m]));
    hide AnswersFor, AnswerRows, Drawn, AnswerCount;
    if k < |AnswersFor(all[..m], first)| {
      i := AnswersBelong(all, m, first, k);
    } else {
      i := m;
    }
  }

  lemma AnswersResolve(all: seq<Entry>, data: seq<SubjectData>, first: Id, t: Tables, k: nat) returns (i: nat)
    requires Migrated(all, data, first, t) && k < |t.answers|
    ensures i < |t.questions| && t.answers[k].questionId == t.questions[i].id
  {
    assert all[..|all|] == all;
    i := AnswersBelong(all, |all|, FirstQuestionId(t, first), k);
    QuestionIds(all, data, first, t, i);
  }

  lemma {:induction false} WithIdWhere(es: seq<Entry>, id: int)
    ensures WithId(es, id) == Where(es, (e: Entry) => e.question.id == id)
  {
    if es != [] { WithIdWhere(es[1..], id); }
  }

  /** No question is lost or invented, and they come in the order of their scraped ids. */
  lemma QuestionsAreKept(lessons: seq<Lesson>, data: seq<SubjectData>, first: Id, t: Tables, id: int)
    requires Migrated(All(lessons), data, first, t)
    ensures |t.questions| == Sum(lessons)
    ensures SortedById(All(lessons)) && multiset(All(lessons)) == multiset(Flatten(lessons))
    ensures Where(All(lessons), (e: Entry) => e.question.id == id) == Where(Flatten(lessons), (e: Entry) => e.question.id == id)
  {
    SortByIdSorts(Flatten(lessons), id);
    WithIdWhere(All(lessons), id);
    WithIdWhere(Flatten(lessons), id);
    FlattenSize(lessons);
    SameSize(Flatten(lessons), All(lessons));
  }

  // ---------------------------------------------------------------- the other tables

  /** One row an entry, in order, with its name, under different ids. */
  lemma SubjectsAre(all: seq<Entry>, data: seq<SubjectData>, first: Id, t: Tables)
    requires Migrated(all, data, first, t)
    ensures |t.subjects| == |data|
    ensures forall i :: 0 <= i < |data| ==> t.subjects[i].name == data[i].name
    ensures forall i, j :: 0 <= i < j < |t.subjects| ==> t.subjects[i].id != t.subjects[j].id
  {
    hide SortInts, Dedupe, FilesOf, Rekeyed, AnswersFor, Number;
  }

  /** The bilets of the questions, each once, ascending. */
  predicate AreBilets(keys: seq<int>, all: seq<Entry>)
  {
    && (forall i, j :: 0 <= i < j < |keys| ==> keys[i] < keys[j])
    && (forall key :: key in keys ==> exists i :: 0 <= i < |all| && all[i].question.biletId == key)
    && (forall i :: 0 <= i < |all| ==> all[i].question.biletId in keys)
  }

  lemma BiletsSorted(all: seq<Entry>)
    ensures AreBilets(SortInts(Dedupe(BiletIds(all))), all)
  {
    DedupeOnce(BiletIds(all));
    SortIntsSorts(Dedupe(BiletIds(all)));
    hide SortInts, Dedupe;
    forall i | 0 <= i < |all| ensures all[i].question.biletId in SortInts(Dedupe(BiletIds(all))) {
      assert BiletIds(all)[i] in BiletIds(all);
    }
  }

  /** One ticket a bilet, ascending, under different ids. */
  lemma TicketsAre(all: seq<Entry>, data: seq<SubjectData>, first: Id, t: Tables) returns (keys: seq<int>)
    requires Migrated(all, data, first, t)
    ensures AreBilets(keys, all) && |keys| == |t.tickets|
    ensures forall i :: 0 <= i < |keys| ==> t.tickets[i].key == keys[i]
    ensures forall i, j :: 0 <= i < j < |keys| ==> t.tickets[i].id != t.tickets[j].id
  {
    keys := SortInts(Dedupe(BiletIds(all)));
    BiletsSorted(all);
    hide SortInts, Dedupe, FilesOf, Rekeyed, AnswersFor, AreBilets, SubjectRows;
  }

  /** The j-th question of the k-th lesson comes after all questions of earlier lessons and the j before it. */
  lemma {:induction false} FlattenAt(lessons: seq<Lesson>, k: nat, j: nat)
    requires k < |lessons| && j < |lessons[k].questions|
    ensures Sum(lessons[..k]) + j < |Flatten(lessons)|
    ensures Flatten(lessons)[Sum(lessons[..k]) + j] == Entry(lessons[k].questions[j], lessons[k].lessonId)
  {
    if k > 0 {
      FlattenAt(lessons[1..], k - 1, j);
      assert lessons[..k][1..] == lessons[1..][..k - 1];
    } else {
      assert Sum(lessons[..0]) == 0;
    }
  }
}
