/**
 * Sessions and refresh tokens of `AuthService`, as the tables store them and as the list they implement.
 *
 * Rows are only flagged, never removed.  Ids come from `uuid` and are fresh; `createdAt` is taken from a
 * clock that moves on with every insertion.  A JSON web token is the value it carries and the secret that signs it.
 */
module Sessions {

  type Uuid = nat

  datatype Jwt = Access(userId: Uuid, sessionId: Uuid) | Refresh(userId: Uuid, sessionId: Uuid)

  datatype Session = Session(id: nat, sessionId: Uuid, userId: Uuid, isActive: bool, isDeleted: bool, createdAt: nat)

  datatype TokenRow = TokenRow(userId: Uuid, isDeleted: bool)

  datatype Db = Db(sessions: seq<Session>, tokens: map<Jwt, TokenRow>, clock: nat)

  const EMPTY := Db([], map[], 0)

  // ---------------------------------------------------------------- queries

  predicate Live(s: Session)
  {
    s.isActive && !s.isDeleted
  }

  function WhereLive(rows: seq<Session>, user: Uuid): seq<Session>
  {
    if rows == [] then []
    else
      var r := rows[|rows| - 1];
      WhereLive(rows[..|rows| - 1], user) + if r.userId == user && Live(r) then [r] else []
  }

  function InsertDesc(x: Session, rows: seq<Session>): seq<Session>
  {
    if rows == [] || rows[0].createdAt < x.createdAt then [x] + rows
    else [rows[0]] + InsertDesc(x, rows[1..])
  }

  /** `orderBy: { createdAt: 'desc' }` */
  function OrderDesc(rows: seq<Session>): seq<Session>
  {
    if rows == [] then [] else InsertDesc(rows[|rows| - 1], OrderDesc(rows[..|rows| - 1]))
  }

  function Take<T>(n: nat, xs: seq<T>): seq<T>
  {
    if |xs| <= n then xs else xs[..n]
  }

  /** The row ids of the two newest live sessions of `user`. */
  function KeptIds(rows: seq<Session>, user: Uuid): set<nat>
  {
    var kept := Take(2, OrderDesc(WhereLive(rows, user)));
    set i | 0 <= i < |kept| :: kept[i].id
  }

  predicate Validates(rows: seq<Session>, sid: Uuid)
  {
    exists i :: 0 <= i < |rows| && rows[i].sessionId == sid && Live(rows[i])
  }

  /** The checks of refreshTokens: signature, stored row, live session. */
  predicate Accepts(db: Db, token: Jwt)
  {
    token.Refresh? && token in db.tokens && !db.tokens[token].isDeleted && Validates(db.sessions, token.sessionId)
  }

  // ---------------------------------------------------------------- bulk updates

  /** generateTokens: flag all other rows of the user. */
  function Retire(rows: seq<Session>, user: Uuid, kept: set<nat>): (out: seq<Session>)
    ensures |out| == |rows|
  {
    seq(|rows|, i requires 0 <= i < |rows| =>
      if rows[i].userId == user && rows[i].id !in kept then rows[i].(isActive := false, isDeleted := true) else rows[i])
  }

  /** logout: deactivate the live rows of a session. */
  function Deactivate(rows: seq<Session>, sid: Uuid): (out: seq<Session>)
    ensures |out| == |rows|
  {
    seq(|rows|, i requires 0 <= i < |rows| =>
      if rows[i].sessionId == sid && Live(rows[i]) then rows[i].(isActive := false) else rows[i])
  }

  /** refreshTokens: deactivate the undeleted rows whose user id is `id`; the code passes a session id. */
  function DeactivateUser(rows: seq<Session>, id: Uuid): (out: seq<Session>)
    ensures |out| == |rows|
  {
    seq(|rows|, i requires 0 <= i < |rows| =>
      if rows[i].userId == id && !rows[i].isDeleted then rows[i].(isActive := false) else rows[i])
  }

  /** resetPassword: flag the active rows of the user. */
  function Invalidate(rows: seq<Session>, user: Uuid): (out: seq<Session>)
    ensures |out| == |rows|
  {
    seq(|rows|, i requires 0 <= i < |rows| =>
      if rows[i].userId == user && rows[i].isActive then rows[i].(isActive := false, isDeleted := true) else rows[i])
  }

  /** logout: flag the user's stored row of the given token. */
  function RevokeToken(tokens: map<Jwt, TokenRow>, user: Uuid, token: Jwt): map<Jwt, TokenRow>
  {
    if token in tokens && tokens[token].userId == user && !tokens[token].isDeleted
    then tokens[token := tokens[token].(isDeleted := true)]
    else tokens
  }

  function DropTokens(tokens: map<Jwt, TokenRow>, user: Uuid): map<Jwt, TokenRow>
  {
    map t | t in tokens && tokens[t].userId != user :: tokens[t]
  }

  // ---------------------------------------------------------------- events

  function IssueTokens(db: Db, user: Uuid, sid: Uuid): Db
  {
    var rows := Retire(db.sessions, user, KeptIds(db.sessions, user));
    Db(rows + [Session(|rows|, sid, user, true, false, db.clock)],
       db.tokens[Refresh(user, sid) := TokenRow(user, false)],
       db.clock + 1)
  }

  datatype Event =
    | Issue(user: Uuid, sid: Uuid)
    | Renew(token: Jwt, user: Uuid, sid: Uuid)
    | Logout(user: Uuid, sid: Uuid, bearer: Jwt)
    | Reset(user: Uuid)

  function Step(db: Db, e: Event): Db
  {
    match e
    case Issue(user, sid) => IssueTokens(db, user, sid)
    case Renew(token, user, sid) =>
      if Accepts(db, token)
      then IssueTokens(db.(sessions := DeactivateUser(db.sessions, token.sessionId)), user, sid)
      else db
    case Logout(user, sid, bearer) =>
      db.(sessions := Deactivate(db.sessions, sid), tokens := RevokeToken(db.tokens, user, bearer))
    case Reset(user) => db.(sessions := Invalidate(db.sessions, user), tokens := DropTokens(db.tokens, user))
  }

  /** The session id drawn is new, and session ids are never user ids. */
  predicate Fresh(db: Db, e: Event)
  {
    match e
    case Issue(user, sid) => FreshId(db, user, sid)
    case Renew(_, user, sid) => FreshId(db, user, sid)
    case Logout(_, _, _) => true
    case Reset(_) => true
  }

  predicate FreshId(db: Db, user: Uuid, sid: Uuid)
  {
    sid != user && forall i :: 0 <= i < |db.sessions| ==>
      db.sessions[i].sessionId != sid && db.sessions[i].userId != sid && db.sessions[i].sessionId != user
  }

  /** The session a successful event issues for `user`, if any. */
  predicate Issues(db: Db, e: Event, user: Uuid)
  {
    match e
    case Issue(u, _) => u == user
    case Renew(token, u, _) => u == user && Accepts(db, token)
    case _ => false
  }

  // ---------------------------------------------------------------- the invariant

  predicate Ascending(rows: seq<Session>)
  {
    forall i, j :: 0 <= i < j < |rows| ==> rows[i].createdAt < rows[j].createdAt
  }

  ghost predicate DistinctIds(rows: seq<Session>)
  {
    forall i, j :: 0 <= i < j < |rows| ==> rows[i].sessionId != rows[j].sessionId
  }

  ghost predicate TableOk(rows: seq<Session>, clock: nat)
  {
    && (forall i :: 0 <= i < |rows| ==> rows[i].id == i && rows[i].createdAt < clock && (rows[i].isDeleted ==> !rows[i].isActive))
    && Ascending(rows) && DistinctIds(rows)
    && forall i, j :: 0 <= i < |rows| && 0 <= j < |rows| ==> rows[i].sessionId != rows[j].userId
  }

  /** Every stored refresh token belongs to a session row of the same user. */
  ghost predicate Stored(db: Db, t: Jwt)
    requires t in db.tokens
  {
    && t.Refresh? && db.tokens[t].userId == t.userId
    && exists i :: 0 <= i < |db.sessions| && db.sessions[i].sessionId == t.sessionId && db.sessions[i].userId == t.userId
  }

  ghost predicate Inv(db: Db)
  {
    TableOk(db.sessions, db.clock) && forall t :: t in db.tokens ==> Stored(db, t)
  }

  /** The list the rows implement: the live sessions of a user, newest first. */
  function Active(rows: seq<Session>, user: Uuid): seq<Uuid>
  {
    if rows == [] then []
    else
      var r := rows[|rows| - 1];
      (if r.userId == user && Live(r) then [r.sessionId] else []) + Active(rows[..|rows| - 1], user)
  }

  // ---------------------------------------------------------------- the query finds the newest two

  function Reversed<T>(xs: seq<T>): seq<T>
  {
    if xs == [] then [] else [xs[|xs| - 1]] + Reversed(xs[..|xs| - 1])
  }

  /** Sorting a table kept in insertion order by descending creation time reverses it. */
  lemma {:induction false} OrderDescReverses(rows: seq<Session>)
    requires Ascending(rows)
    ensures OrderDesc(rows) == Reversed(rows)
    ensures forall i :: 0 <= i < |Reversed(rows)| ==> Reversed(rows)[i] in rows
  {
    if rows != [] {
      var init := rows[..|rows| - 1];
      OrderDescReverses(init);
      if init != [] {
        assert Reversed(init)[0] in init;
      }
    }
  }

  lemma {:induction false} WhereLiveRows(rows: seq<Session>, user: Uuid)
    requires Ascending(rows)
    ensures Ascending(WhereLive(rows, user))
    ensures forall x :: x in WhereLive(rows, user) <==> x in rows && x.userId == user && Live(x)
  {
    if rows != [] {
      WhereLiveRows(rows[..|rows| - 1], user);
      assert rows == rows[..|rows| - 1] + [rows[|rows| - 1]];
    }
  }
}
