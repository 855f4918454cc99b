/**
  The session binding of server.js. express-session keeps, per browser, the
  value passport serialized at login; every request rehydrates the user row
  from it. The model keeps only that value: a user id or nothing.
*/
module Session {
  import opened Wrappers
  import opened Schema

  /** What the session holds for passport: the serialized user id, if any. */
  type SessionState = Option<int>

  /** An anonymous session, as after `req.logout` (server.js:205-210). */
  const Anonymous: SessionState := None

  /** serializeUser (server.js:94-96): the session stores the user's id. */
  function SerializeUser(u: User): (s: SessionState)
    ensures s.Some? && s.value == u.id
  {
    Some(u.id)
  }

  /** deserializeUser (server.js:98-105): `SELECT * FROM users WHERE id = $1`
      and its first row. A session without an id leaves the request without
      a user. A session whose id no row has yields `undefined`, on which
      passport fails the request; the model treats that session as
      anonymous too. */
  function DeserializeUser(us: seq<User>, s: SessionState): (r: Option<User>)
    ensures r.Some? <==> s.Some? && exists i :: 0 <= i < |us| && us[i].id == s.value
    ensures r.Some? ==> r.value in us && r.value.id == s.value
  {
    match s
    case None => None
    case Some(id) =>
      match UserWithId(us, id)
      case None => None
      case Some(k) => Some(us[k])
  }

  /** `req.isAuthenticated()`, which isAuthenticated (server.js:130-135)
      asks: the request carries a rehydrated user, that is, the session
      holds the id of some row. */
  function IsAuthenticated(us: seq<User>, s: SessionState): (b: bool)
    ensures b <==> s.Some? && exists i :: 0 <= i < |us| && us[i].id == s.value
  {
    DeserializeUser(us, s).Some?
  }

  /** The body of `GET /api/me` (server.js:212-218). */
  datatype MeResponse = MeResponse(authenticated: bool, user: Option<User>)

  function Me(us: seq<User>, s: SessionState): (r: MeResponse)
    ensures r.authenticated <==> s.Some? && exists i :: 0 <= i < |us| && us[i].id == s.value
    ensures r.user.Some? <==> r.authenticated
    ensures r.user.Some? ==> r.user.value in us && r.user.value.id == s.value
  {
    if IsAuthenticated(us, s) then MeResponse(true, DeserializeUser(us, s))
    else MeResponse(false, None)
  }

  /** Logging a user in and rehydrating the session gives back exactly that
      user's row: ids are unique, so the id lookup cannot land on another row. */
  lemma LogInRoundTrip(us: seq<User>, k: nat)
    requires UsersValid(us) && k < |us|
    ensures DeserializeUser(us, SerializeUser(us[k])) == Some(us[k])
    ensures Me(us, SerializeUser(us[k])) == MeResponse(true, Some(us[k]))
  {
  }

  /** After logout nothing is authenticated, whatever the table holds. */
  lemma LogOutIsAnonymous(us: seq<User>)
    ensures !IsAuthenticated(us, Anonymous)
    ensures Me(us, Anonymous) == MeResponse(false, None)
  {
  }
}
