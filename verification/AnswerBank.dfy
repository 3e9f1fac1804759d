/** The answer table and its four mutators: a question never has two live correct answers. */
module AnswerBank {
  import opened Wrappers

  type Id = nat

  datatype Name = Name(oz: string, uz: string, ru: string)

  datatype Answer = Answer(id: Id, questionId: Id, title: Name, isCorrect: bool, isDeleted: bool)

  datatype Item = Item(id: Id, title: Name, isCorrect: Option<bool>)

  datatype Request =
    | Create(questionId: Id, item: Item)
    | CreateMultiple(questionId: Id, items: seq<Item>)
    | Update(id: Id, title: Option<Name>, isCorrect: Option<bool>)
    | Remove(id: Id)

  datatype Refusal = SeveralCorrect | NoneCorrect | AlreadyCorrect | AnswerNotFound | RecordNotFound

  // ---------------------------------------------------------------- queries and updates

  predicate LiveCorrect(a: Answer, q: Id)
  {
    a.questionId == q && a.isCorrect && !a.isDeleted
  }

  predicate HasCorrect(rows: seq<Answer>, q: Id)
  {
    exists i :: 0 <= i < |rows| && LiveCorrect(rows[i], q)
  }

  predicate Present(rows: seq<Answer>, id: Id)
  {
    exists i :: 0 <= i < |rows| && rows[i].id == id
  }

  /** The index of the first row with the given id. */
  function Find(rows: seq<Answer>, id: Id): (k: nat)
    requires Present(rows, id)
    ensures k < |rows| && rows[k].id == id
  {
    if rows[0].id == id then 0
    else
      assert Present(rows[1..], id) by { var i :| 0 <= i < |rows| && rows[i].id == id; assert rows[1..][i - 1] == rows[i]; }
      1 + Find(rows[1..], id)
  }

  /** `isCorrect` defaults to false in the schema. */
  function Row(q: Id, item: Item): Answer
  {
    Answer(item.id, q, item.title, item.isCorrect == Some(true), false)
  }

  function Rows(q: Id, items: seq<Item>): (out: seq<Answer>)
    ensures |out| == |items|
  {
    seq(|items|, i requires 0 <= i < |items| => Row(q, items[i]))
  }

  function Correct(items: seq<Item>): seq<Item>
  {
    if items == [] then []
    else
      var last := items[|items| - 1];
      Correct(items[..|items| - 1]) + if last.isCorrect == Some(true) then [last] else []
  }

  function ResetOthers(rows: seq<Answer>, q: Id, id: Id): (out: seq<Answer>)
    ensures |out| == |rows|
  {
    seq(|rows|, i requires 0 <= i < |rows| =>
      if rows[i].questionId == q && !rows[i].isDeleted && rows[i].id != id then rows[i].(isCorrect := false) else rows[i])
  }

  function Edited(a: Answer, title: Option<Name>, isCorrect: Option<bool>): Answer
  {
    a.(title := if title.Some? then title.value else a.title,
       isCorrect := if isCorrect.Some? then isCorrect.value else a.isCorrect)
  }

  function Edit(rows: seq<Answer>, id: Id, title: Option<Name>, isCorrect: Option<bool>): (out: seq<Answer>)
    ensures |out| == |rows|
  {
    seq(|rows|, i requires 0 <= i < |rows| => if rows[i].id == id then Edited(rows[i], title, isCorrect) else rows[i])
  }

  function Delete(rows: seq<Answer>, id: Id): (out: seq<Answer>)
    ensures |out| == |rows|
  {
    seq(|rows|, i requires 0 <= i < |rows| => if rows[i].id == id then rows[i].(isDeleted := true) else rows[i])
  }

  /** What a request does to the table, or why it is refused. */
  function Handle(rows: seq<Answer>, req: Request): Result<seq<Answer>, Refusal>
  {
    match req
    case Create(q, item) =>
      if item.isCorrect == Some(true) && HasCorrect(rows, q) then Err(AlreadyCorrect)
      else Ok(rows + [Row(q, item)])
    case CreateMultiple(q, items) =>
      if |Correct(items)| > 1 then Err(SeveralCorrect)
      else if |Correct(items)| == 0 then Err(NoneCorrect)
      else if HasCorrect(rows, q) then Err(AlreadyCorrect)
      else Ok(rows + Rows(q, items))
    case Update(id, title, isCorrect) =>
      if !Present(rows, id) then Err(if isCorrect == Some(true) then AnswerNotFound else RecordNotFound)
      else if isCorrect == Some(true) then
        Ok(Edit(ResetOthers(rows, rows[Find(rows, id)].questionId, id), id, title, isCorrect))
      else Ok(Edit(rows, id, title, isCorrect))
    case Remove(id) =>
      if Present(rows, id) then Ok(Delete(rows, id)) else Err(RecordNotFound)
  }

  function Next(rows: seq<Answer>, req: Request): seq<Answer>
  {
    match Handle(rows, req)
    case Ok(out) => out
    case Err(_) => rows
  }

  /** Newly drawn ids are unused and differ from each other. */
  predicate Fresh(rows: seq<Answer>, req: Request)
  {
    match req
    case Create(_, item) => !Present(rows, item.id)
    case CreateMultiple(_, items) =>
      && (forall i :: 0 <= i < |items| ==> !Present(rows, items[i].id))
      && (forall i, j :: 0 <= i < j < |items| ==> items[i].id != items[j].id)
    case _ => true
  }

  // ---------------------------------------------------------------- the invariant

  ghost predicate DistinctIds(rows: seq<Answer>)
  {
    forall i, j :: 0 <= i < j < |rows| ==> rows[i].id != rows[j].id
  }

  ghost predicate AtMostOneCorrect(rows: seq<Answer>)
  {
    forall q, i, j :: 0 <= i < |rows| && 0 <= j < |rows| && LiveCorrect(rows[i], q) && LiveCorrect(rows[j], q) ==> i == j
  }

  ghost predicate Sound(rows: seq<Answer>)
  {
    DistinctIds(rows) && AtMostOneCorrect(rows)
  }

  /** The ids of a question's live correct answers. */
  function Keys(rows: seq<Answer>, q: Id): set<Id>
  {
    set i | 0 <= i < |rows| && LiveCorrect(rows[i], q) :: rows[i].id
  }

  lemma InKeys(rows: seq<Answer>, q: Id, i: nat)
    requires DistinctIds(rows) && i < |rows|
    ensures rows[i].id in Keys(rows, q) <==> LiveCorrect(rows[i], q)
  {
  }

  /** The invariant in numbers: no question has two live correct answers. */
  lemma SoundCounts(rows: seq<Answer>)
    requires DistinctIds(rows)
    ensures AtMostOneCorrect(rows) <==> forall q :: |Keys(rows, q)| <= 1
  {
    if AtMostOneCorrect(rows) {
      forall q ensures |Keys(rows, q)| <= 1 {
        if id :| id in Keys(rows, q) {
          assert Keys(rows, q) == {id};
        }
      }
    }
    if forall q :: |Keys(rows, q)| <= 1 {
      forall q, i, j | 0 <= i < |rows| && 0 <= j < |rows| && LiveCorrect(rows[i], q) && LiveCorrect(rows[j], q) ensures i == j {
        assert rows[i].id in Keys(rows, q) && rows[j].id in Keys(rows, q);
        Singleton(Keys(rows, q), rows[i].id, rows[j].id);
      }
    }
  }

  lemma Singleton<T>(s: set<T>, x: T, y: T)
    requires |s| <= 1 && x in s && y in s
    ensures x == y
  {
    assert |s - {x}| == |s| - 1 && s - {x} == {};
  }

  /** The key an accepted request leaves a question with. */
  function NextKeys(rows: seq<Answer>, req: Request, q: Id): set<Id>
    requires Handle(rows, req).Ok?
  {
    var keys := Keys(rows, q);
    match req
    case Create(p, item) => if p == q && item.isCorrect == Some(true) then {item.id} else keys
    case CreateMultiple(p, items) =>
      if p == q then set i | 0 <= i < |items| && items[i].isCorrect == Some(true) :: items[i].id else keys
    case Update(id, _, Some(true)) =>
      var a := rows[Find(rows, id)];
      if a.questionId != q then keys else if a.isDeleted then {} else {id}
    case Update(id, _, Some(false)) => keys - {id}
    case Update(_, _, None) => keys
    case Remove(id) => keys - {id}
  }

  // ---------------------------------------------------------------- proofs

  lemma {:induction false} CorrectMembers(items: seq<Item>)
    ensures |Correct(items)| == 0 <==> forall i :: 0 <= i < |items| ==> items[i].isCorrect != Some(true)
    ensures |Correct(items)| <= 1 <==>
      forall i, j :: 0 <= i < j < |items| ==> !(items[i].isCorrect == Some(true) && items[j].isCorrect == Some(true))
  {
    if items != [] {
      var n := |items| - 1;
      CorrectMembers(items[..n]);
      assert forall i | 0 <= i < n :: items[..n][i] == items[i];
      if |Correct(items[..n])| != 0 {
        var i :| 0 <= i < n && items[..n][i].isCorrect == Some(true);
        assert items[i].isCorrect == Some(true);
      }
    }
  }

  lemma AppendKeeps(rows: seq<Answer>, more: seq<Answer>, q: Id)
    requires Sound(rows) && DistinctIds(rows + more) && AtMostOneCorrect(more)
    requires forall i :: 0 <= i < |more| ==> more[i].questionId == q
    requires HasCorrect(rows, q) ==> forall i :: 0 <= i < |more| ==> !more[i].isCorrect
    ensures Sound(rows + more)
  {
  }

  lemma FreshIdsStayDistinct(rows: seq<Answer>, more: seq<Answer>)
    requires DistinctIds(rows) && DistinctIds(more)
    requires forall i :: 0 <= i < |more| ==> !Present(rows, more[i].id)
    ensures DistinctIds(rows + more)
  {
  }

  lemma KeepCreateMultiple(rows: seq<Answer>, q: Id, items: seq<Item>)
    requires Sound(rows) && Fresh(rows, CreateMultiple(q, items)) && Handle(rows, CreateMultiple(q, items)).Ok?
    ensures Sound(rows + Rows(q, items))
  {
    CorrectMembers(items);
    FreshIdsStayDistinct(rows, Rows(q, items));
    AppendKeeps(rows, Rows(q, items), q);
  }

  lemma KeepUpdate(rows: seq<Answer>, id: Id, title: Option<Name>, isCorrect: Option<bool>)
    requires Sound(rows) && Present(rows, id)
    ensures Sound(Next(rows, Update(id, title, isCorrect)))
  {
    var k := Find(rows, id);
    var out := Next(rows, Update(id, title, isCorrect));
    forall i | 0 <= i < |rows|
      ensures out[i].id == rows[i].id && out[i].questionId == rows[i].questionId
      ensures LiveCorrect(out[i], out[i].questionId) ==>
        if isCorrect == Some(true) && rows[i].questionId == rows[k].questionId then i == k
        else LiveCorrect(rows[i], rows[i].questionId)
    {
      SameId(rows, id, i);
    }
  }

  lemma KeepRemove(rows: seq<Answer>, id: Id)
    requires Sound(rows)
    ensures Sound(Delete(rows, id))
  {
  }

  /** No request, accepted or refused, breaks the invariant. */
  lemma KeepRequest(rows: seq<Answer>, req: Request)
    requires Sound(rows) && Fresh(rows, req)
    ensures Sound(Next(rows, req))
  {
    hide Present, Edit, ResetOthers, Delete, DistinctIds, AtMostOneCorrect;
    match req
    case Create(q, item) =>
      FreshIdsStayDistinct(rows, [Row(q, item)]);
      if Handle(rows, req).Ok? { AppendKeeps(rows, [Row(q, item)], q); }
    case CreateMultiple(q, items) =>
      if Handle(rows, req).Ok? { KeepCreateMultiple(rows, q, items); }
    case Update(id, title, isCorrect) =>
      if Present(rows, id) { KeepUpdate(rows, id, title, isCorrect); }
    case Remove(id) => KeepRemove(rows, id);
  }

  lemma KeysOfAppend(rows: seq<Answer>, more: seq<Answer>, q: Id)
    ensures Keys(rows + more, q) == Keys(rows, q) + Keys(more, q)
  {
    forall id | id in Keys(more, q) ensures id in Keys(rows + more, q) {
      var i :| 0 <= i < |more| && LiveCorrect(more[i], q) && more[i].id == id;
      assert (rows + more)[|rows| + i] == more[i];
    }
    forall id | id in Keys(rows, q) ensures id in Keys(rows + more, q) {
      var i :| 0 <= i < |rows| && LiveCorrect(rows[i], q) && rows[i].id == id;
      assert (rows + more)[i] == rows[i];
    }
  }

  /** Updates keep the ids, so the keys change exactly where a row becomes or stops being live and correct. */
  lemma KeysOfUpdate(rows: seq<Answer>, out: seq<Answer>, q: Id, keys: set<Id>)
    requires |out| == |rows|
    requires forall i :: 0 <= i < |rows| ==> out[i].id == rows[i].id && (LiveCorrect(out[i], q) <==> rows[i].id in keys)
    requires forall id :: id in keys ==> Present(rows, id)
    ensures Keys(out, q) == keys
  {
    forall id | id in keys ensures id in Keys(out, q) {
      var i :| 0 <= i < |rows| && rows[i].id == id;
      assert LiveCorrect(out[i], q);
    }
  }

  lemma KeysPresent(rows: seq<Answer>, q: Id)
    ensures forall id :: id in Keys(rows, q) ==> Present(rows, id)
  {
  }

  lemma UpdateKeys(rows: seq<Answer>, id: Id, title: Option<Name>, isCorrect: Option<bool>, q: Id)
    requires Sound(rows) && Present(rows, id)
    ensures Keys(Next(rows, Update(id, title, isCorrect)), q) == NextKeys(rows, Update(id, title, isCorrect), q)
  {
    var req := Update(id, title, isCorrect);
    var out := Next(rows, req);
    KeysPresent(rows, q);
    forall i | 0 <= i < |rows| ensures LiveCorrect(out[i], q) <==> rows[i].id in NextKeys(rows, req, q) {
      InKeys(rows, q, i);
      SameId(rows, id, i);
    }
    KeysOfUpdate(rows, out, q, NextKeys(rows, req, q));
  }

  lemma RemoveKeys(rows: seq<Answer>, id: Id, q: Id)
    requires Sound(rows)
    ensures Keys(Delete(rows, id), q) == Keys(rows, q) - {id}
  {
    KeysPresent(rows, q);
    forall i | 0 <= i < |rows| ensures LiveCorrect(Delete(rows, id)[i], q) <==> rows[i].id in Keys(rows, q) - {id} {
      InKeys(rows, q, i);
    }
    KeysOfUpdate(rows, Delete(rows, id), q, Keys(rows, q) - {id});
  }

  lemma CreateMultipleKeys(rows: seq<Answer>, p: Id, items: seq<Item>, q: Id)
    requires Sound(rows) && Handle(rows, CreateMultiple(p, items)).Ok?
    ensures Keys(rows + Rows(p, items), q) == NextKeys(rows, CreateMultiple(p, items), q)
  {
    KeysOfAppend(rows, Rows(p, items), q);
    KeysOfRows(p, items, q);
  }

  /** The table refines one optional key per question. */
  lemma RefinesKeys(rows: seq<Answer>, req: Request, q: Id)
    requires Sound(rows) && Handle(rows, req).Ok?
    ensures Keys(Next(rows, req), q) == NextKeys(rows, req, q)
  {
    hide Sound, ResetOthers, Edit, Delete, Keys;
    match req
    case Create(p, item) =>
      KeysOfAppend(rows, [Row(p, item)], q);
      KeysOfOne(Row(p, item), q);
      assert HasCorrect(rows, q) || Keys(rows, q) == {} by { NoKeys(rows, q); }
    case CreateMultiple(p, items) => CreateMultipleKeys(rows, p, items, q);
    case Update(id, title, isCorrect) => UpdateKeys(rows, id, title, isCorrect, q);
    case Remove(id) => RemoveKeys(rows, id, q);
  }

  lemma NoKeys(rows: seq<Answer>, q: Id)
    ensures Keys(rows, q) == {} <==> !HasCorrect(rows, q)
  {
    if HasCorrect(rows, q) {
      var i :| 0 <= i < |rows| && LiveCorrect(rows[i], q);
      assert rows[i].id in Keys(rows, q);
    }
  }

  lemma KeysOfOne(a: Answer, q: Id)
    ensures Keys([a], q) == if LiveCorrect(a, q) then {a.id} else {}
  {
    assert [a][0] == a;
  }

  lemma SameId(rows: seq<Answer>, id: Id, i: nat)
    requires DistinctIds(rows) && Present(rows, id) && i < |rows|
    ensures rows[i].id == id <==> i == Find(rows, id)
  {
  }

  lemma KeysOfRows(p: Id, items: seq<Item>, q: Id)
    ensures Keys(Rows(p, items), q)
         == if p == q then set i | 0 <= i < |items| && items[i].isCorrect == Some(true) :: items[i].id else {}
  {
    var rows := Rows(p, items);
    assert forall i | 0 <= i < |items| :: rows[i] == Row(p, items[i]);
    if p == q {
      forall i | 0 <= i < |items| && items[i].isCorrect == Some(true) ensures items[i].id in Keys(rows, q) {
        assert LiveCorrect(rows[i], q);
      }
    }
  }

  // ---------------------------------------------------------------- runs

  ghost predicate Runs(rows: seq<Answer>, reqs: seq<Request>)
    decreases |reqs|
  {
    reqs == [] || (Fresh(rows, reqs[0]) && Runs(Next(rows, reqs[0]), reqs[1..]))
  }

  function RunOf(rows: seq<Answer>, reqs: seq<Request>): seq<Answer>
    decreases |reqs|
  {
    if reqs == [] then rows else RunOf(Next(rows, reqs[0]), reqs[1..])
  }

  /** After any sequence of requests, from any sound table, every question has at most one live correct answer. */
  lemma {:induction false} KeepRun(rows: seq<Answer>, reqs: seq<Request>)
    requires Sound(rows) && Runs(rows, reqs)
    ensures Sound(RunOf(rows, reqs))
    ensures forall q :: |Keys(RunOf(rows, reqs), q)| <= 1
    decreases |reqs|
  {
    if reqs == [] {
      SoundCounts(rows);
    } else {
      KeepRequest(rows, reqs[0]);
      KeepRun(Next(rows, reqs[0]), reqs[1..]);
    }
  }

  /** Marking an answer correct makes it the only correct one; on a deleted answer it leaves the question with none. */
  lemma MarkedIsTheOnlyOne(rows: seq<Answer>, id: Id, title: Option<Name>)
    requires Sound(rows) && Present(rows, id)
    ensures var a := rows[Find(rows, id)];
      Keys(Next(rows, Update(id, title, Some(true))), a.questionId) == if a.isDeleted then {} else {id}
  {
    RefinesKeys(rows, Update(id, title, Some(true)), rows[Find(rows, id)].questionId);
  }

  /** A bulk creation gives the question exactly one correct answer, the one marked in the request. */
  lemma BulkCreatesOne(rows: seq<Answer>, q: Id, items: seq<Item>) returns (k: nat)
    requires Sound(rows) && Handle(rows, CreateMultiple(q, items)).Ok?
    ensures k < |items| && items[k].isCorrect == Some(true)
    ensures Keys(Next(rows, CreateMultiple(q, items)), q) == {items[k].id}
  {
    CorrectMembers(items);
    k :| 0 <= k < |items| && items[k].isCorrect == Some(true);
    RefinesKeys(rows, CreateMultiple(q, items), q);
  }
}
