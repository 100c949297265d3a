/**
 * Signing out: `POST /logout` revokes the session of the bearer token the
 * request came with, `POST /logout-all` every live session of the account.
 * Both run after the session-checking `get_current_user`, so the account is
 * already authenticated; a revoked session is one whose `revoked_at` is set,
 * and the dependency then refuses its token.
 */
module Logout {
  import opened Common
  import opened Handlers
  import opened IdentityModel
  import opened Security
  import IdentityDb
  import AuthMiddleware

  const HEADER_MISSING: string := "Authorization header missing"
  const LOGGED_OUT: string := "Logged out successfully"
  const LOGOUT: string := "logout"
  const LOGOUT_ALL: string := "logout_all"

  /** The message of `/logout-all` for `n` revoked sessions. */
  function LoggedOutFrom(n: nat): string
  {
    "Logged out from " + NatToString(n) + " devices successfully"
  }

  /** The token `/logout` reads from the header: the second space-separated part, or the whole header without a space. */
  function HeaderToken(header: string): (r: string)
    ensures ' ' !in header ==> r == header
    ensures ' ' in header ==> ' ' !in r
  {
    if ' ' in header then
      var parts := Split(header, ' ');
      assert |parts| >= 2;
      parts[1]
    else header
  }

  /** Splitting at the first space: the part before it, then the splits of the rest. */
  lemma {:induction false} SplitAtFirstSpace(a: string, b: string)
    requires ' ' !in a
    ensures Split(a + " " + b, ' ') == [a] + Split(b, ' ')
  {
    var x := a + " " + b;
    if a == [] {
      assert x[0] == ' ' && x[1..] == b;
    } else {
      assert x[0] == a[0] && a[0] != ' ';
      assert x[1..] == a[1..] + " " + b;
      var rest := Split(x[1..], ' ');
      SplitAtFirstSpace(a[1..], b);
      assert rest == [a[1..]] + Split(b, ' ');
      assert Split(x, ' ') == [[x[0]] + rest[0]] + rest[1..];
      assert [a[0]] + a[1..] == a;
    }
  }

  /** For `Authorization: Bearer <token>` the handler reads back exactly the token `get_current_user` checked. */
  lemma BearerHeaderGivesItsToken(token: string)
    requires ' ' !in token
    ensures HeaderToken("Bearer " + token) == token
  {
    SplitAtFirstSpace("Bearer", token);
    SplitWithoutSeparator(token, ' ');
    assert "Bearer " + token == "Bearer" + " " + token;
  }

  /** A live session of the account carrying this token. */
  function LiveSessionOf(uid: Id, token: string): UserSession -> bool
  {
    (s: UserSession) => s.userId == uid && s.token == token && s.revokedAt.None?
  }

  /** A live session of the account, whatever its token. */
  function LiveOf(uid: Id): UserSession -> bool
  {
    (s: UserSession) => s.userId == uid && s.revokedAt.None?
  }

  /** The session table after `/logout`: the first live session of the account with the token gets `revoked_at`. */
  function SignedOut(sessions: seq<UserSession>, uid: Id, token: string, now: Moment): (r: seq<UserSession>)
    ensures |r| == |sessions|
    ensures FirstMatch(sessions, LiveSessionOf(uid, token)).None? ==> r == sessions
    ensures FirstMatch(sessions, LiveSessionOf(uid, token)).Some? ==>
              var i := FirstMatch(sessions, LiveSessionOf(uid, token)).value;
              r == sessions[i := sessions[i].(revokedAt := Some(now))]
  {
    var i := FirstMatch(sessions, LiveSessionOf(uid, token));
    if i.None? then sessions else sessions[i.value := sessions[i.value].(revokedAt := Some(now))]
  }

  /**
   * `logout`: 401 without an `Authorization` header (or an empty one);
   * otherwise the account's live session with the header's token is
   * revoked and a `logout` event recorded, or nothing happens when there is
   * none. The answer is the same success message either way.
   */
  method SignOut(d: IdentityDb.Directory, u: Account, header: Option<string>, origin: Origin, now: Moment)
    returns (r: Result<string>)
    modifies d`sessions, d`events
    ensures !Truthy(header) ==> r == Err(UNAUTHORIZED, HEADER_MISSING) && d.sessions == old(d.sessions)
                                 && d.events == old(d.events)
    ensures Truthy(header) ==>
              var token := HeaderToken(header.value);
              r == Ok(LOGGED_OUT) && d.sessions == SignedOut(old(d.sessions), u.id, token, now)
              && d.events == if FirstMatch(old(d.sessions), LiveSessionOf(u.id, token)).None? then old(d.events)
                             else old(d.events) + [IdentityDb.NewEvent(IdentityDb.FreshKey(old(d.events), IdentityDb.AuthEventIdOf),
                                                                        Some(u.id), LOGOUT, origin, true, None)]
  {
    if !Truthy(header) {
      return Err(UNAUTHORIZED, HEADER_MISSING);
    }
    var token := HeaderToken(header.value);
    var i := FirstMatch(d.sessions, LiveSessionOf(u.id, token));
    if i.Some? {
      d.sessions := d.sessions[i.value := d.sessions[i.value].(revokedAt := Some(now))];
      var key := IdentityDb.FreshKey(d.events, IdentityDb.AuthEventIdOf);
      d.events := d.events + [IdentityDb.NewEvent(key, Some(u.id), LOGOUT, origin, true, None)];
    }
    r := Ok(LOGGED_OUT);
  }

  /** `token` is unique in `user_sessions`: no two rows carry the same access token. */
  predicate TokensUnique(sessions: seq<UserSession>)
  {
    forall a, b :: 0 <= a < b < |sessions| ==> sessions[a].token != sessions[b].token
  }

  /**
   * Signing out ends the token: a token that authenticated the account
   * (the unique row carrying it is a live session of the account) is
   * refused as revoked at any later moment it still decodes, while every
   * other row is untouched.
   */
  lemma SignedOutTokenIsRefused(j: Jwt, sessions: seq<UserSession>, users: seq<Account>, u: Account, token: string,
                                now: Moment, later: Moment)
    requires TokensUnique(sessions)
    requires AuthMiddleware.GetCurrentUser(j, sessions, users, token, now) == Ok(u)
    requires AccountKeysUnique(users)
    requires AuthMiddleware.IsAccessToken(j, token, later)
    ensures AuthMiddleware.GetCurrentUser(j, SignedOut(sessions, u.id, token, now), users, token, later)
            == Err(UNAUTHORIZED, AuthMiddleware.SESSION_REVOKED)
    ensures forall k :: 0 <= k < |sessions| && sessions[k].token != token ==> SignedOut(sessions, u.id, token, now)[k] == sessions[k]
  {
    var k :| 0 <= k < |sessions| && AuthMiddleware.LiveSession(token)(sessions[k]) && sessions[k].userId == u.id
             && Stamp(now) <= Stamp(sessions[k].expiresAt);
    assert LiveSessionOf(u.id, token)(sessions[k]);
    var i := FirstMatch(sessions, LiveSessionOf(u.id, token)).value;
    assert i == k by {
      assert sessions[i].token == token;
    }
    var after := SignedOut(sessions, u.id, token, now);
    assert forall m :: 0 <= m < |after| ==> !AuthMiddleware.LiveSession(token)(after[m]) by {
      forall m | 0 <= m < |after| ensures !AuthMiddleware.LiveSession(token)(after[m]) {
        if m != k {
          assert sessions[m].token != token;
        }
      }
    }
  }

  /** A session with its `revoked_at` set when it is a live one of the account. */
  function Revoked(uid: Id, now: Moment, s: UserSession): (r: UserSession)
    ensures LiveOf(uid)(s) ==> r == s.(revokedAt := Some(now))
    ensures !LiveOf(uid)(s) ==> r == s
  {
    if LiveOf(uid)(s) then s.(revokedAt := Some(now)) else s
  }

  /** The session table after `/logout-all`: every live session of the account revoked, row for row. */
  function SignedOutEverywhere(sessions: seq<UserSession>, uid: Id, now: Moment): (r: seq<UserSession>)
    ensures |r| == |sessions|
    ensures forall k :: 0 <= k < |r| ==> r[k] == Revoked(uid, now, sessions[k])
  {
    MapSeq(sessions, (s: UserSession) => Revoked(uid, now, s))
  }

  /**
   * `logout_all`: the account's live sessions are revoked one by one, a
   * `logout_all` event is recorded and the message counts the revoked
   * sessions (the event's `metadata` keyword names no column, so the count
   * is not stored).
   */
  method SignOutEverywhere(d: IdentityDb.Directory, u: Account, origin: Origin, now: Moment) returns (r: Result<string>)
    modifies d`sessions, d`events
    ensures r == Ok(LoggedOutFrom(Count(old(d.sessions), LiveOf(u.id))))
    ensures d.sessions == SignedOutEverywhere(old(d.sessions), u.id, now)
    ensures d.events == old(d.events) + [IdentityDb.NewEvent(IdentityDb.FreshKey(old(d.events), IdentityDb.AuthEventIdOf),
                                                              Some(u.id), LOGOUT_ALL, origin, true, None)]
  {
    var n := Count(d.sessions, LiveOf(u.id));
    var i := 0;
    while i < |d.sessions|
      invariant 0 <= i <= |d.sessions| == |old(d.sessions)|
      invariant forall k :: 0 <= k < i ==> d.sessions[k] == Revoked(u.id, now, old(d.sessions)[k])
      invariant forall k :: i <= k < |d.sessions| ==> d.sessions[k] == old(d.sessions)[k]
      invariant d.events == old(d.events)
    {
      if LiveOf(u.id)(d.sessions[i]) {
        d.sessions := d.sessions[i := d.sessions[i].(revokedAt := Some(now))];
      }
      i := i + 1;
    }
    var key := IdentityDb.FreshKey(d.events, IdentityDb.AuthEventIdOf);
    d.events := d.events + [IdentityDb.NewEvent(key, Some(u.id), LOGOUT_ALL, origin, true, None)];
    r := Ok(LoggedOutFrom(n));
  }

  /**
   * After `/logout-all` the account has no live session left, so every
   * access token whose rows all belong to the account is refused; the
   * sessions of every other account are exactly as they were.
   */
  lemma EverywhereMeansEverySession(j: Jwt, sessions: seq<UserSession>, users: seq<Account>, uid: Id, now: Moment,
                                    token: string, later: Moment)
    requires forall k :: 0 <= k < |sessions| && sessions[k].token == token ==> sessions[k].userId == uid
    requires AuthMiddleware.IsAccessToken(j, token, later)
    ensures Count(SignedOutEverywhere(sessions, uid, now), LiveOf(uid)) == 0
    ensures AuthMiddleware.GetCurrentUser(j, SignedOutEverywhere(sessions, uid, now), users, token, later)
            == Err(UNAUTHORIZED, AuthMiddleware.SESSION_REVOKED)
    ensures forall k :: 0 <= k < |sessions| && sessions[k].userId != uid
                        ==> SignedOutEverywhere(sessions, uid, now)[k] == sessions[k]
  {
    var after := SignedOutEverywhere(sessions, uid, now);
    assert forall m :: 0 <= m < |after| ==> !LiveOf(uid)(after[m]) by {
      forall m | 0 <= m < |after| ensures !LiveOf(uid)(after[m]) {
        assert after[m] == Revoked(uid, now, sessions[m]);
      }
    }
    NoneMatchingCountsZero(after, LiveOf(uid));
    assert forall m :: 0 <= m < |after| ==> !AuthMiddleware.LiveSession(token)(after[m]) by {
      forall m | 0 <= m < |after| ensures !AuthMiddleware.LiveSession(token)(after[m]) {
        assert after[m] == Revoked(uid, now, sessions[m]);
      }
    }
  }

  /** The count in the message is the number of rows `/logout-all` changed. */
  lemma {:induction false} CountIsRowsChanged(sessions: seq<UserSession>, uid: Id, now: Moment)
    ensures Count(sessions, LiveOf(uid)) == RowsChanged(sessions, SignedOutEverywhere(sessions, uid, now))
  {
    if sessions != [] {
      var after := SignedOutEverywhere(sessions, uid, now);
      CountIsRowsChanged(sessions[1..], uid, now);
      assert after[1..] == SignedOutEverywhere(sessions[1..], uid, now);
      assert after[0] == Revoked(uid, now, sessions[0]);
    }
  }
}
