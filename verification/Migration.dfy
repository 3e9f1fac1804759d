/** `migrateQuestions`: scraped lessons become five linked tables. */
module Migration {
  import opened Wrappers
  import opened Lists
  import opened AnswerBank

  // ---------------------------------------------------------------- what was scraped

  datatype AnswerData = AnswerData(
    status: Option<int>, oz: Option<seq<string>>, uz: Option<seq<string>>, ru: Option<seq<string>>)

  datatype Source = Source(id: int, biletId: int, photo: Option<string>, title: string, answers: Option<AnswerData>)

  datatype Lesson = Lesson(lessonId: int, questions: seq<Source>)

  datatype SubjectData = SubjectData(id: int, name: string)

  /** A question with the id of the lesson it came from. */
  datatype Entry = Entry(question: Source, lessonId: int)

  // ---------------------------------------------------------------- what is inserted

  /** A row and the scraped value it stands for. */
  datatype Keyed<K> = Keyed(key: K, id: Id)

  datatype SubjectRow = SubjectRow(id: Id, name: string)

  datatype QuestionRow = QuestionRow(id: Id, ticketId: Id, subjectId: Id, fileId: Option<Id>, title: string)

  /** The key of a ticket is kept in its name, that of a file is its name. */
  datatype Tables = Tables(
    subjects: seq<SubjectRow>, tickets: seq<Keyed<int>>, files: seq<Keyed<string>>,
    questions: seq<QuestionRow>, answers: seq<Answer>)

  datatype MigrationError = NotMigrated(question: int)

  // ---------------------------------------------------------------- flattening and sorting

  function Tagged(questions: seq<Source>, lessonId: int): (out: seq<Entry>)
    ensures |out| == |questions|
  {
    seq(|questions|, i requires 0 <= i < |questions| => Entry(questions[i], lessonId))
  }

  function Flatten(lessons: seq<Lesson>): seq<Entry>
  {
    if lessons == [] then [] else Tagged(lessons[0].questions, lessons[0].lessonId) + Flatten(lessons[1..])
  }

  function InsertById(e: Entry, es: seq<Entry>): seq<Entry>
  {
    if es == [] || e.question.id <= es[0].question.id then [e] + es else [es[0]] + InsertById(e, es[1..])
  }

  /** A stable sort by question id. */
  function SortById(es: seq<Entry>): seq<Entry>
  {
    if es == [] then [] else InsertById(es[0], SortById(es[1..]))
  }

  function All(lessons: seq<Lesson>): seq<Entry>
  {
    SortById(Flatten(lessons))
  }

  // ---------------------------------------------------------------- keys

  /** The elements of a list without repetition, in order of first occurrence. */
  function Dedupe<T(==)>(xs: seq<T>): seq<T>
  {
    if xs == [] then []
    else
      var n := |xs| - 1;
      Dedupe(xs[..n]) + if xs[n] in xs[..n] then [] else [xs[n]]
  }

  function InsertInt(x: int, xs: seq<int>): seq<int>
  {
    if xs == [] || x <= xs[0] then [x] + xs else [xs[0]] + InsertInt(x, xs[1..])
  }

  function SortInts(xs: seq<int>): seq<int>
  {
    if xs == [] then [] else InsertInt(xs[0], SortInts(xs[1..]))
  }

  function BiletIds(all: seq<Entry>): (out: seq<int>)
    ensures |out| == |all|
  {
    seq(|all|, i requires 0 <= i < |all| => all[i].question.biletId)
  }

  function Photos(all: seq<Entry>): (out: seq<Option<string>>)
    ensures |out| == |all|
  {
    seq(|all|, i requires 0 <= i < |all| => all[i].question.photo)
  }

  function LessonIds(data: seq<SubjectData>): (out: seq<int>)
    ensures |out| == |data|
  {
    seq(|data|, i requires 0 <= i < |data| => data[i].id)
  }

  function NonNull<T>(xs: seq<Option<T>>): seq<T>
  {
    if xs == [] then [] else (if xs[0].Some? then [xs[0].value] else []) + NonNull(xs[1..])
  }

  /** One row a key, with ids drawn in order from `first` on. */
  function Number<K>(keys: seq<K>, first: Id): (rows: seq<Keyed<K>>)
    ensures |rows| == |keys|
  {
    seq(|keys|, i requires 0 <= i < |keys| => Keyed(keys[i], first + i))
  }

  function FindId<K(==)>(rows: seq<Keyed<K>>, key: K): Option<Id>
  {
    if rows == [] then None else if rows[0].key == key then Some(rows[0].id) else FindId(rows[1..], key)
  }

  // ---------------------------------------------------------------- answers

  function Length(texts: Option<seq<string>>): nat
  {
    if texts.Some? then |texts.value| else 0
  }

  function Text(texts: Option<seq<string>>, i: nat): string
  {
    if i < Length(texts) then texts.value[i] else ""
  }

  function AnswerCount(q: Source): nat
  {
    match q.answers
    case None => 0
    case Some(a) =>
      var n := if Length(a.oz) < Length(a.uz) then Length(a.uz) else Length(a.oz);
      if n < Length(a.ru) then Length(a.ru) else n
  }

  /** `status || 1` */
  function CorrectIndex(a: AnswerData): int
  {
    if a.status.Some? && a.status.value != 0 then a.status.value else 1
  }

  function AnswerRow(a: AnswerData, i: nat, question: Id, id: Id): Answer
  {
    Answer(id, question, Name(Text(a.oz, i), Text(a.uz, i), Text(a.ru, i)), i + 1 == CorrectIndex(a), false)
  }

  /** The answers of one question; their ids are drawn right after the question's. */
  function AnswerRows(q: Source, question: Id): (rows: seq<Answer>)
    ensures |rows| == AnswerCount(q)
    ensures forall k :: 0 <= k < |rows| ==>
      q.answers.Some? && rows[k] == AnswerRow(q.answers.value, k, question, question + 1 + k)
  {
    match q.answers
    case None => []
    case Some(a) => seq(AnswerCount(q), i requires 0 <= i < AnswerCount(q) => AnswerRow(a, i, question, question + 1 + i))
  }

  // ---------------------------------------------------------------- all questions

  /** How many ids a list of questions and their answers draws. */
  function Drawn(all: seq<Entry>): nat
  {
    if all == [] then 0
    else
      var n := |all| - 1;
      Drawn(all[..n]) + 1 + AnswerCount(all[n].question)
  }

  function AnswersFor(all: seq<Entry>, first: Id): seq<Answer>
  {
    if all == [] then []
    else
      var n := |all| - 1;
      AnswersFor(all[..n], first) + AnswerRows(all[n].question, first + Drawn(all[..n]))
  }

  function Rekey(e: Entry, subjects: seq<Keyed<int>>, tickets: seq<Keyed<int>>, files: seq<Keyed<string>>, id: Id)
    : Option<QuestionRow>
  {
    var ticket := FindId(tickets, e.question.biletId);
    var subject := FindId(subjects, e.lessonId);
    var file := if e.question.photo.Some? then FindId(files, e.question.photo.value) else None;
    if ticket.None? || subject.None? then None
    else Some(QuestionRow(id, ticket.value, subject.value, file, e.question.title))
  }

  // ---------------------------------------------------------------- the whole migration

  function SubjectRows(data: seq<SubjectData>, first: Id): (rows: seq<SubjectRow>)
    ensures |rows| == |data|
  {
    seq(|data|, i requires 0 <= i < |data| => SubjectRow(first + i, data[i].name))
  }

  /** Every lesson with a question is a known subject. */
  predicate Known(lessons: seq<Lesson>, data: seq<SubjectData>)
  {
    forall k :: 0 <= k < |lessons| && lessons[k].questions != [] ==>
      exists i :: 0 <= i < |data| && data[i].id == lessons[k].lessonId
  }

  /** One file a photo, in whatever order. */
  ghost predicate FilesOf(all: seq<Entry>, files: seq<Keyed<string>>, first: Id)
  {
    exists names :: files == Number(names, first) && Distinct(names)
      && forall name :: name in names <==> exists i :: 0 <= i < |all| && all[i].question.photo == Some(name)
  }

  function FirstQuestionId(t: Tables, first: Id): Id
  {
    first + |t.subjects| + |t.tickets| + |t.files|
  }

  /** `rows` are the first of `all`, rekeyed; the ids of a question and its answers follow those of the one before. */
  ghost predicate Rekeyed(all: seq<Entry>, subjects: seq<Keyed<int>>, tickets: seq<Keyed<int>>, files: seq<Keyed<string>>,
                          first: Id, rows: seq<QuestionRow>)
  {
    && |rows| <= |all|
    && forall i :: 0 <= i < |rows| ==> Rekey(all[i], subjects, tickets, files, first + Drawn(all[..i])) == Some(rows[i])
  }

  ghost predicate Migrated(all: seq<Entry>, data: seq<SubjectData>, first: Id, t: Tables)
  {
    && t.subjects == SubjectRows(data, first)
    && t.tickets == Number(SortInts(Dedupe(BiletIds(all))), first + |t.subjects|)
    && FilesOf(all, t.files, first + |t.subjects| + |t.tickets|)
    && |t.questions| == |all|
    && Rekeyed(all, Number(LessonIds(data), first), t.tickets, t.files, FirstQuestionId(t, first), t.questions)
    && t.answers == AnswersFor(all, FirstQuestionId(t, first))
  }

  // ---------------------------------------------------------------- sorting keeps every question

  predicate SortedById(es: seq<Entry>)
  {
    forall i, j :: 0 <= i < j < |es| ==> es[i].question.id <= es[j].question.id
  }

  function WithId(es: seq<Entry>, id: int): seq<Entry>
  {
    if es == [] then [] else (if es[0].question.id == id then [es[0]] else []) + WithId(es[1..], id)
  }

  lemma {:induction false} InsertByIdKeeps(e: Entry, es: seq<Entry>)
    ensures multiset(InsertById(e, es)) == multiset([e] + es)
  {
    if !(es == [] || e.question.id <= es[0].question.id) {
      InsertByIdKeeps(e, es[1..]);
      assert es == [es[0]] + es[1..];
    }
  }

  lemma {:induction false} InsertByIdSorts(e: Entry, es: seq<Entry>)
    requires SortedById(es)
    ensures SortedById(InsertById(e, es))
  {
    if !(es == [] || e.question.id <= es[0].question.id) {
      InsertByIdSorts(e, es[1..]);
      InsertByIdKeeps(e, es[1..]);
      var rest := InsertById(e, es[1..]);
      forall i | 0 <= i < |rest| ensures es[0].question.id <= rest[i].question.id {
        assert rest[i] in multiset([e] + es[1..]);
      }
    }
  }

  lemma WithIdCons(e: Entry, es: seq<Entry>, id: int)
    ensures WithId([e] + es, id) == (if e.question.id == id then [e] else []) + WithId(es, id)
  {
    assert ([e] + es)[1..] == es;
  }

  lemma {:induction false} InsertByIdStable(e: Entry, es: seq<Entry>, id: int)
    ensures WithId(InsertById(e, es), id) == WithId([e] + es, id)
  {
    if !(es == [] || e.question.id <= es[0].question.id) {
      var rest, head := es[1..], es[0];
      InsertByIdStable(e, rest, id);
      WithIdCons(head, InsertById(e, rest), id);
      WithIdCons(e, es, id);
      WithIdCons(e, rest, id);
      WithIdCons(head, rest, id);
      hide WithId;
      assert es == [head] + rest;
      assert InsertById(e, es) == [head] + InsertById(e, rest);
      var tail := WithId(rest, id);
      if head.question.id == id {
        assert WithId([e] + rest, id) == tail && WithId(es, id) == [head] + tail;
      } else {
        assert WithId(es, id) == tail;
      }
    }
  }

  /** Sorting rearranges the questions by id and keeps those with equal ids in their order. */
  lemma {:induction false} SortByIdSorts(es: seq<Entry>, id: int)
    ensures SortedById(SortById(es)) && multiset(SortById(es)) == multiset(es)
    ensures WithId(SortById(es), id) == WithId(es, id)
  {
    if es != [] {
      SortByIdSorts(es[1..], id);
      var rest := SortById(es[1..]);
      InsertByIdSorts(es[0], rest);
      InsertByIdKeeps(es[0], rest);
      InsertByIdStable(es[0], rest, id);
      WithIdCons(es[0], rest, id);
      assert es == [es[0]] + es[1..];
    }
  }

  lemma {:induction false} FlattenMembers(lessons: seq<Lesson>)
    ensures forall e :: e in Flatten(lessons) <==>
      exists k :: 0 <= k < |lessons| && e.lessonId == lessons[k].lessonId && e.question in lessons[k].questions
  {
    if lessons != [] {
      var l, rest := lessons[0], lessons[1..];
      FlattenMembers(rest);
      forall e ensures e in Flatten(lessons) <==>
        exists k :: 0 <= k < |lessons| && e.lessonId == lessons[k].lessonId && e.question in lessons[k].questions
      {
        assert e in Tagged(l.questions, l.lessonId) <==> e.lessonId == l.lessonId && e.question in l.questions by {
          if e.lessonId == l.lessonId && e.question in l.questions {
            var i :| 0 <= i < |l.questions| && l.questions[i] == e.question;
            assert Tagged(l.questions, l.lessonId)[i] == e;
          }
        }
        if e in Flatten(rest) {
          var k :| 0 <= k < |rest| && e.lessonId == rest[k].lessonId && e.question in rest[k].questions;
          assert lessons[k + 1] == rest[k];
        }
        if k :| 0 < k < |lessons| && e.lessonId == lessons[k].lessonId && e.question in lessons[k].questions {
          assert rest[k - 1] == lessons[k];
        }
      }
    }
  }

  lemma AllMembers(lessons: seq<Lesson>)
    ensures forall e :: e in All(lessons) <==> e in Flatten(lessons)
  {
    SortByIdSorts(Flatten(lessons), 0);
    forall e ensures e in All(lessons) <==> e in Flatten(lessons) {
      assert e in All(lessons) <==> e in multiset(All(lessons));
    }
  }

  function Sum(lessons: seq<Lesson>): nat
  {
    if lessons == [] then 0 else |lessons[0].questions| + Sum(lessons[1..])
  }

  lemma {:induction false} FlattenSize(lessons: seq<Lesson>)
    ensures |Flatten(lessons)| == Sum(lessons)
  {
    if lessons != [] { FlattenSize(lessons[1..]); }
  }

  // ---------------------------------------------------------------- keys are distinct and complete

  lemma {:induction false} DedupeOnce<T>(xs: seq<T>)
    ensures Distinct(Dedupe(xs)) && forall x :: x in Dedupe(xs) <==> x in xs
  {
    if xs != [] {
      DedupeOnce(xs[..|xs| - 1]);
      assert xs == xs[..|xs| - 1] + [xs[|xs| - 1]];
    }
  }

  lemma {:induction false} InsertIntSorts(x: int, xs: seq<int>)
    requires x !in xs && forall i, j :: 0 <= i < j < |xs| ==> xs[i] < xs[j]
    ensures forall y :: y in InsertInt(x, xs) <==> y == x || y in xs
    ensures forall i, j :: 0 <= i < j < |InsertInt(x, xs)| ==> InsertInt(x, xs)[i] < InsertInt(x, xs)[j]
  {
    if xs != [] && xs[0] < x {
      InsertIntSorts(x, xs[1..]);
      var rest := InsertInt(x, xs[1..]);
      forall i | 0 <= i < |rest| ensures xs[0] < rest[i] {
        assert rest[i] in rest;
      }
    }
  }

  lemma {:induction false} SortIntsSorts(xs: seq<int>)
    requires Distinct(xs)
    ensures forall y :: y in SortInts(xs) <==> y in xs
    ensures forall i, j :: 0 <= i < j < |SortInts(xs)| ==> SortInts(xs)[i] < SortInts(xs)[j]
  {
    if xs != [] {
      SortIntsSorts(xs[1..]);
      InsertIntSorts(xs[0], SortInts(xs[1..]));
    }
  }

  lemma {:induction false} NonNullMembers<T>(xs: seq<Option<T>>)
    ensures forall x :: x in NonNull(xs) <==> Some(x) in xs
    ensures Distinct(xs) ==> Distinct(NonNull(xs))
  {
    if xs != [] {
      NonNullMembers(xs[1..]);
      assert xs == [xs[0]] + xs[1..];
      if Distinct(xs) {
        if xs[0].Some? { Prepend(xs[0].value, NonNull(xs[1..])); }
      }
    }
  }

  ghost predicate HasKey<K>(rows: seq<Keyed<K>>, key: K)
  {
    exists i :: 0 <= i < |rows| && rows[i].key == key
  }

  lemma {:induction false} FindIdFinds<K>(rows: seq<Keyed<K>>, key: K) returns (k: nat)
    ensures FindId(rows, key).Some? <==> HasKey(rows, key)
    ensures FindId(rows, key).Some? ==> k < |rows| && rows[k].key == key && FindId(rows, key) == Some(rows[k].id)
  {
    k := 0;
    if rows != [] && rows[0].key != key {
      var j := FindIdFinds(rows[1..], key);
      k := j + 1;
      if HasKey(rows, key) {
        var i :| 0 <= i < |rows| && rows[i].key == key;
        assert rows[1..][i - 1] == rows[i];
      }
    }
  }

  /** Numbered rows: different keys are found under different ids. */
  lemma FindIdInjective<K>(keys: seq<K>, first: Id, a: K, b: K)
    requires a in keys && b in keys
    ensures FindId(Number(keys, first), a).Some? && FindId(Number(keys, first), b).Some?
    ensures FindId(Number(keys, first), a) == FindId(Number(keys, first), b) <==> a == b
  {
    var rows := Number(keys, first);
    var i :| 0 <= i < |keys| && keys[i] == a;
    var j :| 0 <= j < |keys| && keys[j] == b;
    assert rows[i].key == a && rows[j].key == b;
    var k := FindIdFinds(rows, a);
    var m := FindIdFinds(rows, b);
  }
}
