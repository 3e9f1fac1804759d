/** The session table implements a list of at most three sessions per user, newest first, in every run. */
module SessionRuns {
  import opened Lists
  import opened Sessions

  function Filter(xs: seq<Uuid>, keep: set<Uuid>): (ys: seq<Uuid>)
    ensures forall x :: x in ys <==> x in xs && x in keep
  {
    if xs == [] then [] else (if xs[0] in keep then [xs[0]] else []) + Filter(xs[1..], keep)
  }

  function Without(xs: seq<Uuid>, x: Uuid): (ys: seq<Uuid>)
    ensures forall y :: y in ys <==> y in xs && y != x
  {
    if xs == [] then [] else (if xs[0] != x then [xs[0]] else []) + Without(xs[1..], x)
  }

  /** What an event makes of a user's list. */
  function After(db: Db, e: Event, user: Uuid): seq<Uuid>
  {
    var before := Active(db.sessions, user);
    if Issues(db, e, user) then [e.sid] + Take(2, before)
    else if e.Logout? then Without(before, e.sid)
    else if e == Reset(user) then []
    else before
  }

  // ---------------------------------------------------------------- lists and rows

  ghost predicate HasRow(rows: seq<Session>, sid: Uuid, user: Uuid)
  {
    exists i :: 0 <= i < |rows| && rows[i].sessionId == sid && rows[i].userId == user
  }

  ghost predicate HasLive(rows: seq<Session>, sid: Uuid, user: Uuid)
  {
    exists i :: 0 <= i < |rows| && rows[i].sessionId == sid && rows[i].userId == user && Live(rows[i])
  }

  lemma {:induction false} ActiveMembers(rows: seq<Session>, user: Uuid)
    ensures forall sid :: sid in Active(rows, user) <==> HasLive(rows, sid, user)
  {
    if rows != [] {
      var init, last := rows[..|rows| - 1], rows[|rows| - 1];
      ActiveMembers(init, user);
      forall sid ensures sid in Active(rows, user) <==> HasLive(rows, sid, user) {
        if HasLive(init, sid, user) {
          var i :| 0 <= i < |init| && init[i].sessionId == sid && init[i].userId == user && Live(init[i]);
          assert rows[i] == init[i];
        }
        if HasLive(rows, sid, user) {
          var i :| 0 <= i < |rows| && rows[i].sessionId == sid && rows[i].userId == user && Live(rows[i]);
          if i < |init| { assert init[i] == rows[i]; }
        }
      }
    }
  }

  lemma {:induction false} ActiveDistinct(rows: seq<Session>, user: Uuid)
    requires DistinctIds(rows)
    ensures Distinct(Active(rows, user))
  {
    if rows != [] {
      var init, last := rows[..|rows| - 1], rows[|rows| - 1];
      ActiveDistinct(init, user);
      ActiveMembers(init, user);
      assert !HasLive(init, last.sessionId, user) by {
        forall i | 0 <= i < |init| ensures init[i].sessionId != last.sessionId { assert init[i] == rows[i]; }
      }
    }
  }

  ghost predicate Keeps(rows: seq<Session>, out: seq<Session>, user: Uuid, keep: set<Uuid>)
  {
    && |out| == |rows|
    && forall i :: 0 <= i < |rows| ==>
      && out[i].userId == rows[i].userId && out[i].sessionId == rows[i].sessionId
      && (rows[i].userId == user ==> (Live(out[i]) <==> Live(rows[i]) && rows[i].sessionId in keep))
  }

  lemma {:induction false} ActiveFilter(rows: seq<Session>, out: seq<Session>, user: Uuid, keep: set<Uuid>)
    requires Keeps(rows, out, user, keep)
    ensures Active(out, user) == Filter(Active(rows, user), keep)
  {
    if rows != [] {
      var n := |rows| - 1;
      ActiveFilter(rows[..n], out[..n], user, keep);
      var rest := Active(rows[..n], user);
      if rows[n].userId == user && Live(rows[n]) {
        assert Active(rows, user)[0] == rows[n].sessionId && Active(rows, user)[1..] == rest;
      } else {
        assert Active(rows, user) == rest;
      }
    }
  }

  lemma {:induction false} FilterAll(xs: seq<Uuid>, keep: set<Uuid>)
    requires forall x :: x in xs ==> x in keep
    ensures Filter(xs, keep) == xs
  {
    if xs != [] { FilterAll(xs[1..], keep); }
  }

  lemma {:induction false} FilterNone(xs: seq<Uuid>, keep: set<Uuid>)
    requires forall x :: x in xs ==> x !in keep
    ensures Filter(xs, keep) == []
  {
    if xs != [] { FilterNone(xs[1..], keep); }
  }

  lemma {:induction false} FilterWithout(xs: seq<Uuid>, keep: set<Uuid>, sid: Uuid)
    requires forall x :: x in xs ==> (x in keep <==> x != sid)
    ensures Filter(xs, keep) == Without(xs, sid)
  {
    if xs != [] { FilterWithout(xs[1..], keep, sid); }
  }

  lemma {:induction false} FilterPrefix(xs: seq<Uuid>, keep: set<Uuid>, n: nat)
    requires Distinct(xs)
    requires forall x :: x in xs ==> (x in keep <==> x in Take(n, xs))
    ensures Filter(xs, keep) == Take(n, xs)
  {
    if xs != [] {
      if n == 0 {
        FilterNone(xs, keep);
      } else {
        assert xs[0] in Take(n, xs);
        forall x | x in xs[1..] ensures x in keep <==> x in Take(n - 1, xs[1..]) {
          var j :| 0 <= j < |xs[1..]| && xs[1..][j] == x;
          assert xs[1 + j] == x != xs[0];
          assert Take(n, xs) == [xs[0]] + Take(n - 1, xs[1..]);
        }
        FilterPrefix(xs[1..], keep, n - 1);
        assert Take(n, xs) == [xs[0]] + Take(n - 1, xs[1..]);
      }
    }
  }

  // ---------------------------------------------------------------- the two newest live sessions

  function Names(rows: seq<Session>): (out: seq<Uuid>)
    ensures |out| == |rows|
  {
    seq(|rows|, i requires 0 <= i < |rows| => rows[i].sessionId)
  }

  lemma {:induction false} ActiveReversesQuery(rows: seq<Session>, user: Uuid)
    ensures Names(Reversed(WhereLive(rows, user))) == Active(rows, user)
  {
    if rows != [] {
      var init, r := rows[..|rows| - 1], rows[|rows| - 1];
      ActiveReversesQuery(init, user);
      if r.userId == user && Live(r) {
        var found := WhereLive(rows, user);
        var rest := WhereLive(init, user);
        assert found == rest + [r];
        assert found[..|found| - 1] == rest;
        assert Reversed(found) == [r] + Reversed(rest);
        assert Names([r] + Reversed(rest)) == [r.sessionId] + Names(Reversed(rest));
      } else {
        assert WhereLive(rows, user) == WhereLive(init, user);
      }
    }
  }

  ghost predicate Ordered(rows: seq<Session>)
  {
    && Ascending(rows) && DistinctIds(rows)
    && forall i :: 0 <= i < |rows| ==> rows[i].id == i
  }

  lemma QueryHeadsTheList(rows: seq<Session>, user: Uuid) returns (kept: seq<Session>)
    requires Ascending(rows)
    ensures kept == Take(2, OrderDesc(WhereLive(rows, user)))
    ensures Names(kept) == Take(2, Active(rows, user))
    ensures forall k :: 0 <= k < |kept| ==> kept[k] in rows
  {
    var found := WhereLive(rows, user);
    WhereLiveRows(rows, user);
    OrderDescReverses(found);
    ActiveReversesQuery(rows, user);
    kept := Take(2, Reversed(found));
    assert Take(2, Names(Reversed(found))) == Names(kept);
    forall k | 0 <= k < |kept| ensures kept[k] in rows {
      assert kept[k] == Reversed(found)[k];
    }
  }

  /** The ids excluded from retirement are those of the rows heading the user's list. */
  lemma KeptHeadTheList(rows: seq<Session>, user: Uuid, i: nat)
    requires Ordered(rows) && i < |rows|
    ensures rows[i].id in KeptIds(rows, user) <==> rows[i].sessionId in Take(2, Active(rows, user))
  {
    var kept := QueryHeadsTheList(rows, user);
    hide Active, WhereLive, OrderDesc, Take;
    assert KeptIds(rows, user) == set k | 0 <= k < |kept| :: kept[k].id;
    forall k | 0 <= k < |kept| ensures kept[k].id == rows[i].id <==> Names(kept)[k] == rows[i].sessionId {
      var j :| 0 <= j < |rows| && rows[j] == kept[k];
    }
    if rows[i].sessionId in Names(kept) {
      var k :| 0 <= k < |kept| && Names(kept)[k] == rows[i].sessionId;
      assert kept[k].id == rows[i].id;
    }
  }

  // ---------------------------------------------------------------- each update on the lists

  lemma RetireKeepsTwo(rows: seq<Session>, user: Uuid)
    requires Ordered(rows)
    ensures Active(Retire(rows, user, KeptIds(rows, user)), user) == Take(2, Active(rows, user))
  {
    var list := Active(rows, user);
    var keep := set i | 0 <= i < |Take(2, list)| :: Take(2, list)[i];
    var out := Retire(rows, user, KeptIds(rows, user));
    forall i | 0 <= i < |rows| && rows[i].userId == user
      ensures Live(out[i]) <==> Live(rows[i]) && rows[i].sessionId in keep
    {
      if Live(rows[i]) { KeptHeadTheList(rows, user, i); }
    }
    ActiveFilter(rows, out, user, keep);
    ActiveDistinct(rows, user);
    FilterPrefix(list, keep, 2);
  }

  lemma Untouched(rows: seq<Session>, out: seq<Session>, user: Uuid)
    requires |out| == |rows|
    requires forall i :: 0 <= i < |rows| ==> out[i].userId == rows[i].userId && out[i].sessionId == rows[i].sessionId
    requires forall i :: 0 <= i < |rows| && rows[i].userId == user ==> out[i] == rows[i]
    ensures Active(out, user) == Active(rows, user)
  {
    var keep := set i | 0 <= i < |rows| :: rows[i].sessionId;
    ActiveFilter(rows, out, user, keep);
    ActiveMembers(rows, user);
    FilterAll(Active(rows, user), keep);
  }

  lemma LogoutRemoves(rows: seq<Session>, sid: Uuid, user: Uuid)
    ensures Active(Deactivate(rows, sid), user) == Without(Active(rows, user), sid)
  {
    var keep := set i | 0 <= i < |rows| && rows[i].sessionId != sid :: rows[i].sessionId;
    ActiveFilter(rows, Deactivate(rows, sid), user, keep);
    ActiveMembers(rows, user);
    FilterWithout(Active(rows, user), keep, sid);
  }

  lemma ResetClears(rows: seq<Session>, who: Uuid, user: Uuid)
    ensures Active(Invalidate(rows, who), user) == if who == user then [] else Active(rows, user)
  {
    if who == user {
      ActiveFilter(rows, Invalidate(rows, who), user, {});
      FilterNone(Active(rows, user), {});
    } else {
      Untouched(rows, Invalidate(rows, who), user);
    }
  }

  /** The update of refreshTokens changes the table exactly when the id it is given owns an active undeleted row. */
  lemma SessionIdFilterHits(rows: seq<Session>, id: Uuid)
    ensures DeactivateUser(rows, id) != rows <==> exists sid :: HasLive(rows, sid, id)
  {
    var out := DeactivateUser(rows, id);
    if out != rows {
      var i :| 0 <= i < |rows| && out[i] != rows[i];
      assert HasLive(rows, rows[i].sessionId, id);
    }
    if sid :| HasLive(rows, sid, id) {
      var i :| 0 <= i < |rows| && rows[i].sessionId == sid && rows[i].userId == id && Live(rows[i]);
      assert out[i] != rows[i];
    }
  }

  lemma RefreshFilterHitsNothing(db: Db, token: Jwt)
    requires Inv(db) && Accepts(db, token)
    ensures DeactivateUser(db.sessions, token.sessionId) == db.sessions
  {
    assert Stored(db, token);
  }

  // ---------------------------------------------------------------- one event

  ghost predicate Grows(db: Db, next: Db)
  {
    && |db.sessions| <= |next.sessions|
    && forall i :: 0 <= i < |db.sessions| ==>
      && next.sessions[i].sessionId == db.sessions[i].sessionId && next.sessions[i].userId == db.sessions[i].userId
      && (Live(next.sessions[i]) ==> Live(db.sessions[i]))
  }

  lemma IssueKeepsRows(db: Db, user: Uuid, sid: Uuid)
    requires TableOk(db.sessions, db.clock) && FreshId(db, user, sid)
    ensures TableOk(IssueTokens(db, user, sid).sessions, db.clock + 1)
    ensures Grows(db, IssueTokens(db, user, sid))
  {
    hide KeptIds;
    var next := IssueTokens(db, user, sid);
    var n := |db.sessions|;
    assert |next.sessions| == n + 1 && next.sessions[n] == Session(n, sid, user, true, false, db.clock);
    assert next.sessions[..n] == Retire(db.sessions, user, KeptIds(db.sessions, user));
    forall i | 0 <= i < n
      ensures next.sessions[i] == db.sessions[i]
        || next.sessions[i] == db.sessions[i].(isActive := false, isDeleted := true)
    {
      assert next.sessions[i] == next.sessions[..n][i];
    }
  }

  lemma IssueKeepsTokens(db: Db, user: Uuid, sid: Uuid, t: Jwt)
    requires Grows(db, IssueTokens(db, user, sid))
    requires t in IssueTokens(db, user, sid).tokens && (t in db.tokens ==> Stored(db, t))
    ensures Stored(IssueTokens(db, user, sid), t)
  {
    hide KeptIds;
    var next := IssueTokens(db, user, sid);
    var n := |db.sessions|;
    assert next.sessions[n].sessionId == sid && next.sessions[n].userId == user;
    if t != Refresh(user, sid) {
      var i :| 0 <= i < n && db.sessions[i].sessionId == t.sessionId && db.sessions[i].userId == t.userId;
      assert next.sessions[i].sessionId == t.sessionId && next.sessions[i].userId == t.userId;
    }
  }

  lemma IssueStep(db: Db, user: Uuid, sid: Uuid)
    requires Inv(db) && FreshId(db, user, sid)
    ensures Inv(IssueTokens(db, user, sid)) && Grows(db, IssueTokens(db, user, sid))
  {
    hide KeptIds, FreshId, Grows, Stored, TableOk;
    var next := IssueTokens(db, user, sid);
    IssueKeepsRows(db, user, sid);
    forall t | t in next.tokens ensures Stored(next, t) { IssueKeepsTokens(db, user, sid, t); }
  }

  lemma IssueLists(db: Db, user: Uuid, sid: Uuid, u: Uuid)
    requires Inv(db)
    ensures Active(IssueTokens(db, user, sid).sessions, u)
         == if u == user then [sid] + Take(2, Active(db.sessions, user)) else Active(db.sessions, u)
  {
    hide KeptIds, Stored;
    var rows := Retire(db.sessions, user, KeptIds(db.sessions, user));
    var next := IssueTokens(db, user, sid);
    assert next.sessions[..|rows|] == rows;
    if u == user {
      RetireKeepsTwo(db.sessions, user);
    } else {
      Untouched(db.sessions, rows, u);
    }
  }

  predicate Flagged(rows: seq<Session>, out: seq<Session>)
  {
    && |out| == |rows|
    && forall i :: 0 <= i < |rows| ==>
      || out[i] == rows[i]
      || out[i] == rows[i].(isActive := false)
      || out[i] == rows[i].(isActive := false, isDeleted := true)
  }

  lemma FlagRows(db: Db, next: Db)
    requires TableOk(db.sessions, db.clock) && Flagged(db.sessions, next.sessions)
    ensures TableOk(next.sessions, db.clock) && Grows(db, next)
  {
    var rows, out := db.sessions, next.sessions;
    forall i | 0 <= i < |rows|
      ensures && out[i].id == rows[i].id && out[i].sessionId == rows[i].sessionId
              && out[i].userId == rows[i].userId && out[i].createdAt == rows[i].createdAt
              && (out[i].isActive ==> rows[i].isActive && out[i].isDeleted == rows[i].isDeleted)
    { }
  }

  lemma FlagStep(db: Db, next: Db)
    requires Inv(db) && next.clock == db.clock && Flagged(db.sessions, next.sessions)
    requires forall t :: t in next.tokens ==> t in db.tokens && next.tokens[t].userId == db.tokens[t].userId
    ensures Inv(next) && Grows(db, next)
  {
    FlagRows(db, next);
    hide TableOk, Flagged;
    forall t | t in next.tokens ensures Stored(next, t) {
      assert Stored(db, t);
      var i :| 0 <= i < |db.sessions| && db.sessions[i].sessionId == t.sessionId && db.sessions[i].userId == t.userId;
      assert next.sessions[i].sessionId == t.sessionId;
    }
  }

  lemma KeepStep(db: Db, e: Event)
    requires Inv(db) && Fresh(db, e)
    ensures Inv(Step(db, e)) && Grows(db, Step(db, e))
  {
    match e
    case Issue(user, sid) => IssueStep(db, user, sid);
    case Renew(token, user, sid) =>
      if Accepts(db, token) {
        RefreshFilterHitsNothing(db, token);
        IssueStep(db, user, sid);
      }
    case Logout(_, _, _) => FlagStep(db, Step(db, e));
    case Reset(_) => FlagStep(db, Step(db, e));
  }

  /** Issue prepends and keeps two, logout removes, reset clears; every other list stays. */
  lemma StepRefines(db: Db, e: Event, user: Uuid)
    requires Inv(db) && Fresh(db, e)
    ensures Active(Step(db, e).sessions, user) == After(db, e, user)
  {
    match e
    case Issue(u, sid) => IssueLists(db, u, sid, user);
    case Renew(token, u, sid) =>
      if Accepts(db, token) {
        RefreshFilterHitsNothing(db, token);
        IssueLists(db, u, sid, user);
      }
    case Logout(_, sid, _) => LogoutRemoves(db.sessions, sid, user);
    case Reset(u) => ResetClears(db.sessions, u, user);
  }

  /** Issuing for one user leaves the rows of every other user as they were. */
  lemma OthersUntouched(db: Db, e: Event, i: nat)
    requires Inv(db) && Fresh(db, e) && i < |db.sessions|
    requires Issues(db, e, e.user) && db.sessions[i].userId != e.user
    ensures i < |Step(db, e).sessions| && Step(db, e).sessions[i] == db.sessions[i]
  {
    if e.Renew? { RefreshFilterHitsNothing(db, e.token); }
  }

  // ---------------------------------------------------------------- runs

  ghost predicate Runs(db: Db, es: seq<Event>)
    decreases |es|
  {
    es == [] || (Fresh(db, es[0]) && Runs(Step(db, es[0]), es[1..]))
  }

  function RunOf(db: Db, es: seq<Event>): Db
    decreases |es|
  {
    if es == [] then db else RunOf(Step(db, es[0]), es[1..])
  }

  function Issued(db: Db, es: seq<Event>, user: Uuid): seq<Uuid>
    decreases |es|
  {
    if es == [] then []
    else Issued(Step(db, es[0]), es[1..], user) + if Issues(db, es[0], user) then [es[0].sid] else []
  }

  lemma {:induction false} KeepRun(db: Db, es: seq<Event>)
    requires Inv(db) && Runs(db, es)
    ensures Inv(RunOf(db, es)) && Grows(db, RunOf(db, es))
    decreases |es|
  {
    if es != [] {
      KeepStep(db, es[0]);
      KeepRun(Step(db, es[0]), es[1..]);
    }
  }

  /** Never more than three live sessions, all distinct. */
  lemma {:induction false} AtMostThree(db: Db, es: seq<Event>, user: Uuid)
    requires Inv(db) && Runs(db, es) && |Active(db.sessions, user)| <= 3
    ensures |Active(RunOf(db, es).sessions, user)| <= 3 && Distinct(Active(RunOf(db, es).sessions, user))
    decreases |es|
  {
    hide Step, Fresh, Active;
    if es == [] {
      ActiveDistinct(db.sessions, user);
    } else {
      KeepStep(db, es[0]);
      StepRefines(db, es[0], user);
      if es[0].Logout? { WithoutShrinks(Active(db.sessions, user), es[0].sid); }
      AtMostThree(Step(db, es[0]), es[1..], user);
    }
  }

  lemma {:induction false} WithoutShrinks(xs: seq<Uuid>, x: Uuid)
    ensures |Without(xs, x)| <= |xs|
    ensures x !in xs ==> Without(xs, x) == xs
  {
    if xs != [] { WithoutShrinks(xs[1..], x); }
  }

  /** Any run from empty tables: ids are distinct, every stored token has its session, and no user has more than three. */
  lemma FromEmptyTables(es: seq<Event>)
    requires Runs(EMPTY, es)
    ensures Inv(RunOf(EMPTY, es))
    ensures forall user :: |Active(RunOf(EMPTY, es).sessions, user)| <= 3 && Distinct(Active(RunOf(EMPTY, es).sessions, user))
  {
    KeepRun(EMPTY, es);
    forall user {
      AtMostThree(EMPTY, es, user);
    }
  }

  /** No event of the run logs out a session of `user` or resets the user. */
  predicate Spared(es: seq<Event>, owned: seq<Uuid>, user: Uuid)
  {
    forall i :: 0 <= i < |es| ==> es[i] != Reset(user) && (es[i].Logout? ==> es[i].sid !in owned)
  }

  lemma StackThree(rest: seq<Uuid>, sid: Uuid, before: seq<Uuid>)
    ensures Take(3, rest + ([sid] + Take(2, before))) == Take(3, (rest + [sid]) + before)
  {
    assert (rest + [sid]) + before == rest + ([sid] + before);
  }

  /** Without logouts and resets the list is the three newest of all that was ever issued. */
  lemma {:induction false} ThreeNewest(db: Db, es: seq<Event>, user: Uuid)
    requires Inv(db) && Runs(db, es) && |Active(db.sessions, user)| <= 3
    requires Spared(es, Issued(db, es, user) + Active(db.sessions, user), user)
    ensures Active(RunOf(db, es).sessions, user) == Take(3, Issued(db, es, user) + Active(db.sessions, user))
    decreases |es|
  {
    hide Step, Inv, Active, Fresh;
    if es != [] {
      var e, next := es[0], Step(db, es[0]);
      var before, after := Active(db.sessions, user), Active(next.sessions, user);
      var rest := Issued(next, es[1..], user);
      KeepStep(db, e);
      StepRefines(db, e, user);
      if Issues(db, e, user) {
        StackThree(rest, e.sid, before);
      } else if e.Logout? {
        WithoutShrinks(before, e.sid);
      }
      assert forall x :: x in rest + after ==> x in Issued(db, es, user) + before;
      assert forall i | 0 <= i < |es[1..]| :: es[1..][i] == es[i + 1];
      ThreeNewest(next, es[1..], user);
    }
  }

  // ---------------------------------------------------------------- validity of one session

  ghost predicate At(db: Db, sid: Uuid, user: Uuid, p: nat)
  {
    p < |Active(db.sessions, user)| && Active(db.sessions, user)[p] == sid
  }

  /** A session is valid exactly when it stands in its owner's list. */
  lemma ValidIffListed(db: Db, sid: Uuid, user: Uuid)
    requires Inv(db) && HasRow(db.sessions, sid, user)
    ensures Validates(db.sessions, sid) <==> sid in Active(db.sessions, user)
  {
    ActiveMembers(db.sessions, user);
  }

  lemma {:induction false} WithoutPosition(xs: seq<Uuid>, x: Uuid, p: nat) returns (q: nat)
    requires p < |xs| && xs[p] != x
    ensures q <= p && q < |Without(xs, x)| && Without(xs, x)[q] == xs[p]
  {
    if p == 0 {
      q := 0;
    } else {
      var r := WithoutPosition(xs[1..], x, p - 1);
      q := if xs[0] != x then r + 1 else r;
    }
  }

  /** An event that spares a session moves it back by at most the one session it issues. */
  lemma PositionMoves(db: Db, e: Event, sid: Uuid, user: Uuid, p: nat) returns (q: nat)
    requires Inv(db) && Fresh(db, e) && At(db, sid, user, p)
    requires e != Reset(user) && (e.Logout? ==> e.sid != sid)
    requires Issues(db, e, user) ==> p < 2
    ensures At(Step(db, e), sid, user, q) && q <= if Issues(db, e, user) then p + 1 else p
  {
    StepRefines(db, e, user);
    hide Step, Inv, Active, Fresh;
    if Issues(db, e, user) {
      q := p + 1;
    } else if e.Logout? {
      q := WithoutPosition(Active(db.sessions, user), e.sid, p);
    } else {
      q := p;
    }
  }

  /** Not logged out and not reset, a session outlives every run with few enough later issues for its user. */
  lemma {:induction false} Survives(db: Db, es: seq<Event>, sid: Uuid, user: Uuid, p: nat)
    requires Inv(db) && Runs(db, es) && At(db, sid, user, p)
    requires Spared(es, [sid], user)
    requires p + |Issued(db, es, user)| < 3
    ensures Validates(RunOf(db, es).sessions, sid)
    decreases |es|
  {
    hide Step, Inv, Active, Fresh, Issues;
    if es == [] {
      ActiveMembers(db.sessions, user);
      assert sid in Active(db.sessions, user);
      assert HasLive(db.sessions, sid, user);
    } else {
      assert es[0].Logout? ==> es[0].sid != [sid][0];
      KeepStep(db, es[0]);
      var q := PositionMoves(db, es[0], sid, user, p);
      Survives(Step(db, es[0]), es[1..], sid, user, q);
    }
  }

  /** Without any logout of the user the bound is exact: fewer than three later issues, and the session is valid. */
  lemma SurvivesExactly(db: Db, es: seq<Event>, sid: Uuid, user: Uuid)
    requires Inv(db) && Runs(db, es) && At(db, sid, user, 0) && |Active(db.sessions, user)| <= 3
    requires Spared(es, Issued(db, es, user) + Active(db.sessions, user), user)
    ensures Validates(RunOf(db, es).sessions, sid) <==> |Issued(db, es, user)| < 3
  {
    var end := RunOf(db, es);
    var news, list := Issued(db, es, user), Active(db.sessions, user);
    KeepRun(db, es);
    ActiveMembers(db.sessions, user);
    assert HasRow(end.sessions, sid, user) by {
      assert HasLive(db.sessions, sid, user);
      var i :| 0 <= i < |db.sessions| && db.sessions[i].sessionId == sid && db.sessions[i].userId == user;
      assert end.sessions[i].sessionId == sid;
    }
    ValidIffListed(end, sid, user);
    ThreeNewest(db, es, user);
    if |news| < 3 {
      assert Take(3, news + list)[|news|] == sid;
    } else {
      assert Take(3, news + list) == news[..3];
      IssuedAreNew(db, es, user, sid);
    }
  }

  lemma {:induction false} IssuedAreNew(db: Db, es: seq<Event>, user: Uuid, sid: Uuid)
    requires Inv(db) && Runs(db, es)
    requires exists i :: 0 <= i < |db.sessions| && db.sessions[i].sessionId == sid
    ensures sid !in Issued(db, es, user)
    decreases |es|
  {
    if es != [] {
      KeepStep(db, es[0]);
      var i :| 0 <= i < |db.sessions| && db.sessions[i].sessionId == sid;
      assert Step(db, es[0]).sessions[i].sessionId == sid;
      IssuedAreNew(Step(db, es[0]), es[1..], user, sid);
    }
  }

  ghost predicate Known(db: Db, sid: Uuid)
  {
    exists i :: 0 <= i < |db.sessions| && db.sessions[i].sessionId == sid
  }

  /** An issued session that is no longer valid never becomes valid again. */
  lemma StaysInvalid(db: Db, es: seq<Event>, sid: Uuid)
    requires Inv(db) && Runs(db, es) && Known(db, sid) && !Validates(db.sessions, sid)
    ensures !Validates(RunOf(db, es).sessions, sid)
  {
    var end := RunOf(db, es);
    KeepRun(db, es);
    var i :| 0 <= i < |db.sessions| && db.sessions[i].sessionId == sid;
    assert end.sessions[i].sessionId == sid;
    forall j | 0 <= j < |end.sessions| && end.sessions[j].sessionId == sid ensures !Live(end.sessions[j]) {
      assert j == i;
    }
  }

  // ---------------------------------------------------------------- refresh tokens

  /** A refresh token is accepted exactly when it is stored and its session stands in its user's list. */
  lemma AcceptedIffListed(db: Db, token: Jwt)
    requires Inv(db)
    ensures Accepts(db, token) <==>
      token in db.tokens && !db.tokens[token].isDeleted && token.sessionId in Active(db.sessions, token.userId)
  {
    if token in db.tokens {
      assert Stored(db, token);
      assert HasRow(db.sessions, token.sessionId, token.userId);
      ValidIffListed(db, token.sessionId, token.userId);
    }
  }

  /** The bearer token of a logout is an access token, and no stored row holds one. */
  lemma LogoutLeavesTokenRows(db: Db, user: Uuid, sid: Uuid, bearer: Jwt)
    requires Inv(db) && bearer.Access?
    ensures Step(db, Logout(user, sid, bearer)).tokens == db.tokens
  {
    assert forall t | t in db.tokens :: Stored(db, t);
  }

  /** After a reset no token of an earlier session of the user is accepted, in any continuation. */
  lemma ResetRevokes(db: Db, user: Uuid, token: Jwt, es: seq<Event>)
    requires Inv(db) && HasRow(db.sessions, token.sessionId, user)
    requires Runs(Step(db, Reset(user)), es)
    ensures !Accepts(RunOf(Step(db, Reset(user)), es), token)
  {
    var next := Step(db, Reset(user));
    KeepStep(db, Reset(user));
    var i :| 0 <= i < |db.sessions| && db.sessions[i].sessionId == token.sessionId && db.sessions[i].userId == user;
    assert next.sessions[i].sessionId == token.sessionId && next.sessions[i].userId == user;
    ValidIffListed(next, token.sessionId, user);
    StepRefines(db, Reset(user), user);
    StaysInvalid(next, es, token.sessionId);
  }

  /** After a logout no token of that session is accepted, in any continuation. */
  lemma LogoutRevokes(db: Db, user: Uuid, sid: Uuid, bearer: Jwt, token: Jwt, es: seq<Event>)
    requires Inv(db) && Known(db, sid) && token.sessionId == sid
    requires Runs(Step(db, Logout(user, sid, bearer)), es)
    ensures !Accepts(RunOf(Step(db, Logout(user, sid, bearer)), es), token)
  {
    var e := Logout(user, sid, bearer);
    var next := Step(db, e);
    KeepStep(db, e);
    var i :| 0 <= i < |db.sessions| && db.sessions[i].sessionId == sid;
    var owner := db.sessions[i].userId;
    assert next.sessions[i].sessionId == sid && next.sessions[i].userId == owner;
    ValidIffListed(next, sid, owner);
    StepRefines(db, e, owner);
    StaysInvalid(next, es, sid);
  }

  /** A session issued in the run heads its owner's list and its token is accepted at once. */
  lemma IssuedIsAccepted(db: Db, e: Event)
    requires Inv(db) && Fresh(db, e) && Issues(db, e, e.user)
    ensures Accepts(Step(db, e), Refresh(e.user, e.sid))
    ensures At(Step(db, e), e.sid, e.user, 0)
  {
    KeepStep(db, e);
    StepRefines(db, e, e.user);
    AcceptedIffListed(Step(db, e), Refresh(e.user, e.sid));
  }

  // ---------------------------------------------------------------- stored tokens

  /** What becomes of a stored token: a reset of its user deletes it, a logout with it as bearer flags it, nothing else touches it. */
  lemma StepTokens(db: Db, e: Event, t: Jwt)
    requires Inv(db) && Fresh(db, e) && t in db.tokens
    ensures var next, row := Step(db, e).tokens, db.tokens[t];
      if e.Reset? && row.userId == e.user then t !in next
      else if e.Logout? && t == e.bearer && row.userId == e.user then t in next && next[t] == TokenRow(row.userId, true)
      else t in next && next[t] == row
  {
    assert Stored(db, t);
    if e.Renew? && Accepts(db, e.token) { RefreshFilterHitsNothing(db, e.token); }
  }

  /** The only token an event stores is the one it issues, unflagged. */
  lemma NewTokens(db: Db, e: Event, t: Jwt)
    requires Inv(db) && Fresh(db, e) && t in Step(db, e).tokens && t !in db.tokens
    ensures Issues(db, e, e.user) && t == Refresh(e.user, e.sid) && Step(db, e).tokens[t] == TokenRow(e.user, false)
  {
  }

  predicate NeverBearer(es: seq<Event>, token: Jwt)
  {
    forall i :: 0 <= i < |es| && es[i].Logout? ==> es[i].bearer != token
  }

  /** A stored token stays stored and unflagged while its user is not reset and it is no logout's bearer. */
  lemma {:induction false} TokenStays(db: Db, es: seq<Event>, token: Jwt)
    requires Inv(db) && Runs(db, es) && token in db.tokens && !db.tokens[token].isDeleted
    requires forall i :: 0 <= i < |es| ==> es[i] != Reset(token.userId)
    requires NeverBearer(es, token)
    ensures token in RunOf(db, es).tokens && !RunOf(db, es).tokens[token].isDeleted
    decreases |es|
  {
    assert Stored(db, token);
    hide Step, Fresh, Inv, Stored;
    if es != [] {
      assert es[0] != Reset(token.userId);
      KeepStep(db, es[0]);
      StepTokens(db, es[0], token);
      TokenStays(Step(db, es[0]), es[1..], token);
    }
  }

  /**
   * An accepted refresh token stays accepted through every run that neither logs out its session nor resets its user,
   * never logs out with it as bearer, and issues fewer than 3 - p sessions to its user.
   */
  lemma AcceptedSurvives(db: Db, es: seq<Event>, token: Jwt, p: nat)
    requires Inv(db) && Runs(db, es) && Accepts(db, token) && At(db, token.sessionId, token.userId, p)
    requires Spared(es, [token.sessionId], token.userId) && NeverBearer(es, token)
    requires p + |Issued(db, es, token.userId)| < 3
    ensures Accepts(RunOf(db, es), token)
  {
    TokenStays(db, es, token);
    Survives(db, es, token.sessionId, token.userId, p);
  }

  /** Without any logout of the user, the token just issued is accepted exactly while fewer than three more are issued. */
  lemma AcceptedExactly(db: Db, es: seq<Event>, token: Jwt)
    requires Inv(db) && Runs(db, es) && Accepts(db, token) && At(db, token.sessionId, token.userId, 0)
    requires |Active(db.sessions, token.userId)| <= 3 && NeverBearer(es, token)
    requires Spared(es, Issued(db, es, token.userId) + Active(db.sessions, token.userId), token.userId)
    ensures Accepts(RunOf(db, es), token) <==> |Issued(db, es, token.userId)| < 3
  {
    TokenStays(db, es, token);
    SurvivesExactly(db, es, token.sessionId, token.userId);
  }

  // ---------------------------------------------------------------- rows, field by field

  /** The user's rows outside `top` are flagged, all others stay, and one live row is added. */
  predicate IssuedRows(rows: seq<Session>, next: seq<Session>, user: Uuid, sid: Uuid, top: seq<Uuid>, clock: nat)
  {
    && |next| == |rows| + 1
    && next[|rows|] == Session(|rows|, sid, user, true, false, clock)
    && forall i :: 0 <= i < |rows| ==>
      next[i] == if rows[i].userId == user && rows[i].sessionId !in top
                 then rows[i].(isActive := false, isDeleted := true) else rows[i]
  }

  /** An issue flags the user's rows other than the two newest live sessions. */
  lemma IssueRows(db: Db, user: Uuid, sid: Uuid)
    requires Inv(db)
    ensures IssuedRows(db.sessions, IssueTokens(db, user, sid).sessions, user, sid, Take(2, Active(db.sessions, user)), db.clock)
  {
    forall i | 0 <= i < |db.sessions|
      ensures db.sessions[i].id in KeptIds(db.sessions, user)
         <==> db.sessions[i].sessionId in Take(2, Active(db.sessions, user))
    {
      KeptHeadTheList(db.sessions, user, i);
    }
    hide KeptIds, Active, Take;
  }
}
