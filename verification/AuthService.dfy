/** `AuthService`: token issue, refresh, logout and password reset on the session and token tables. */
module AuthServices {
  import opened Wrappers
  import opened Sessions
  import opened SessionRuns

  datatype Tokens = Tokens(accessToken: Jwt, refreshToken: Jwt)

  datatype Rejection = Unauthorized(message: string)

  class AuthService {
    var userSessions: seq<Session>
    var refreshTokens: map<Jwt, TokenRow>
    var clock: nat

    ghost function Tables(): Db
      reads this
    {
      Db(userSessions, refreshTokens, clock)
    }

    ghost predicate Valid()
      reads this
    {
      Inv(Tables())
    }

    function List(user: Uuid): seq<Uuid>
      reads this
    {
      Active(userSessions, user)
    }

    constructor ()
      ensures Tables() == EMPTY && Valid()
    {
      userSessions, refreshTokens, clock := [], map[], 0;
    }

    /** Retires all but the two newest live sessions of the user, opens a new one and stores its token. */
    method GenerateTokens(user: Uuid, sessionId: Uuid) returns (tokens: Tokens)
      requires Valid() && FreshId(Tables(), user, sessionId)
      modifies this
      ensures Valid() && Tables() == Step(old(Tables()), Issue(user, sessionId))
      ensures List(user) == [sessionId] + Take(2, old(List(user)))
      ensures forall u | u != user :: List(u) == old(List(u))
      ensures tokens == Tokens(Access(user, sessionId), Refresh(user, sessionId))
      ensures Accepts(Tables(), tokens.refreshToken)
      ensures IssuedRows(old(userSessions), userSessions, user, sessionId, Take(2, old(List(user))), old(clock))
      ensures refreshTokens == old(refreshTokens)[Refresh(user, sessionId) := TokenRow(user, false)]
    {
      ghost var before := Tables();
      var kept := KeptIds(userSessions, user);
      userSessions := Retire(userSessions, user, kept);
      userSessions := userSessions + [Session(|userSessions|, sessionId, user, true, false, clock)];
      tokens := Tokens(Access(user, sessionId), Refresh(user, sessionId));
      refreshTokens := refreshTokens[tokens.refreshToken := TokenRow(user, false)];
      clock := clock + 1;
      assert Tables() == IssueTokens(before, user, sessionId);
      ghost var e := Issue(user, sessionId);
      KeepStep(before, e);
      IssuedIsAccepted(before, e);
      IssueRows(before, user, sessionId);
      forall u { StepRefines(before, e, u); }
    }

    /**
     * The transaction's first update is meant to end the user's other sessions, but it compares their user id
     * with the token's session id.  `unexpired` is the verdict of the JSON web token library on the token's age.
     */
    method RefreshTokens(token: Jwt, unexpired: bool, user: Uuid, sessionId: Uuid) returns (r: Result<Tokens, Rejection>)
      requires Valid() && FreshId(Tables(), user, sessionId)
      modifies this
      ensures Valid()
      ensures r.Ok? <==> unexpired && old(Accepts(Tables(), token))
      ensures Tables() == if unexpired then Step(old(Tables()), Renew(token, user, sessionId)) else old(Tables())
      ensures r.Ok? ==> List(user) == [sessionId] + Take(2, old(List(user)))
      ensures r.Ok? ==> r.value == Tokens(Access(user, sessionId), Refresh(user, sessionId))
      ensures r.Ok? ==> refreshTokens == old(refreshTokens)[Refresh(user, sessionId) := TokenRow(user, false)]
      ensures r.Ok? ==> IssuedRows(old(userSessions), userSessions, user, sessionId, Take(2, old(List(user))), old(clock))
      ensures r.Err? ==> Tables() == old(Tables()) && r.error == Unauthorized("Invalid refresh token")
      ensures forall u | u != user || r.Err? :: List(u) == old(List(u))
    {
      if !(token.Refresh? && unexpired) {
        return Err(Unauthorized("Invalid refresh token"));
      }
      if token !in refreshTokens || refreshTokens[token].isDeleted {
        return Err(Unauthorized("Invalid refresh token"));
      }
      var alive := ValidateSession(token.sessionId);
      if !alive {
        return Err(Unauthorized("Invalid refresh token"));
      }
      RefreshFilterHitsNothing(Tables(), token);
      hide Inv, Active, Take, IssuedRows;
      userSessions := DeactivateUser(userSessions, token.sessionId);
      var tokens := GenerateTokens(user, sessionId);
      r := Ok(tokens);
    }

    /** `bearer` is the token the request was authorised with. */
    method Logout(user: Uuid, sessionId: Uuid, bearer: Jwt)
      requires Valid()
      modifies this
      ensures Valid() && Tables() == Step(old(Tables()), Sessions.Logout(user, sessionId, bearer))
      ensures forall u :: List(u) == Without(old(List(u)), sessionId)
      ensures bearer.Access? ==> refreshTokens == old(refreshTokens)
      ensures !Validates(userSessions, sessionId)
      ensures refreshTokens.Keys == old(refreshTokens).Keys
      ensures forall t :: t in refreshTokens ==>
        refreshTokens[t] == if t == bearer && old(refreshTokens)[t].userId == user then TokenRow(user, true) else old(refreshTokens)[t]
      ensures |userSessions| == |old(userSessions)|
      ensures forall i :: 0 <= i < |userSessions| ==>
        var row := old(userSessions)[i];
        userSessions[i] == if row.sessionId == sessionId && row.isActive && !row.isDeleted then row.(isActive := false) else row
    {
      ghost var before := Tables();
      ghost var e := Sessions.Logout(user, sessionId, bearer);
      refreshTokens := RevokeToken(refreshTokens, user, bearer);
      userSessions := Deactivate(userSessions, sessionId);
      KeepStep(before, e);
      forall u { StepRefines(before, e, u); }
      if bearer.Access? { LogoutLeavesTokenRows(before, user, sessionId, bearer); }
    }

    /** The session and token part of resetPassword. */
    method ResetPassword(user: Uuid)
      requires Valid()
      modifies this
      ensures Valid() && Tables() == Step(old(Tables()), Reset(user))
      ensures List(user) == [] && forall u | u != user :: List(u) == old(List(u))
      ensures forall t :: t in refreshTokens <==> t in old(refreshTokens) && old(refreshTokens)[t].userId != user
      ensures forall t :: t in refreshTokens ==> t.userId != user && refreshTokens[t] == old(refreshTokens)[t]
      ensures |userSessions| == |old(userSessions)|
      ensures forall i :: 0 <= i < |userSessions| ==>
        var row := old(userSessions)[i];
        userSessions[i] == if row.userId == user && row.isActive then row.(isActive := false, isDeleted := true) else row
    {
      ghost var before := Tables();
      userSessions := Invalidate(userSessions, user);
      refreshTokens := DropTokens(refreshTokens, user);
      KeepStep(before, Reset(user));
      forall u { StepRefines(before, Reset(user), u); }
      assert forall t :: t in before.tokens ==> Stored(before, t);
    }

    method ValidateSession(sessionId: Uuid) returns (valid: bool)
      ensures valid <==> Validates(userSessions, sessionId)
      ensures valid <==>
        exists row :: row in userSessions && row.sessionId == sessionId && row.isActive && !row.isDeleted
    {
      valid := exists i :: 0 <= i < |userSessions| && userSessions[i].sessionId == sessionId && Live(userSessions[i]);
    }
  }
}
