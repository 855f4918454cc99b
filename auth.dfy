/**
  The request-time checks of server.js that only read state: the local
  (email and password) strategy's guard chain, the login route that binds
  the session on success, and the shared-key check on the webhook.
  bcrypt's comparison is a parameter `matches(plain, hash)`.
*/
module Auth {
  import opened Wrappers
  import opened Schema
  import opened Session

  /** The outcomes of the local strategy callback, one per `done` call. */
  datatype LoginOutcome =
    | UserNotFound     // 'Usuario no encontrado'
    | UseGoogle        // 'Usa el inicio de sesión con Google'
    | NotVerified      // 'Por favor verifica tu correo electrónico'
    | WrongPassword    // 'Contraseña incorrecta'
    | LoggedIn(user: User)

  /** `user.password` is truthy: a NULL and an empty hash both count as no
      password (server.js:76). */
  predicate HasPassword(u: User) {
    Truthy(u.password)
  }

  /** The local strategy callback (server.js:68-92): look the email up, then
      fail on the first guard that does not hold, in this order: no row, no
      password, not verified, password mismatch. */
  function LocalLogin(us: seq<User>, email: Text, password: Text,
                      matches: (Text, Text) -> bool): (r: LoginOutcome)
    ensures var k := UserWithEmail(us, email);
      && (r.UserNotFound? <==> k.None?)
      && (r.UseGoogle? <==> k.Some? && !HasPassword(us[k.value]))
      && (r.NotVerified? <==> k.Some? && HasPassword(us[k.value]) && !us[k.value].isVerified)
      && (r.WrongPassword? <==> k.Some? && HasPassword(us[k.value]) && us[k.value].isVerified
                                && !matches(password, us[k.value].password.value))
    ensures r.LoggedIn? ==>
      && r.user in us && r.user.email == email
      && HasPassword(r.user) && r.user.isVerified
      && matches(password, r.user.password.value)
  {
    match UserWithEmail(us, email)
    case None => UserNotFound
    case Some(k) =>
      var u := us[k];
      if !HasPassword(u) then UseGoogle
      else if !u.isVerified then NotVerified
      else if !matches(password, u.password.value) then WrongPassword
      else LoggedIn(u)
  }

  /** Login succeeds exactly when SOME row has this email, a password, is
      verified, and the password matches its hash; in a valid table there is
      at most one such row. Stated without the lookup, over the rows. */
  lemma LocalLoginSucceedsIff(us: seq<User>, email: Text, password: Text,
                              matches: (Text, Text) -> bool)
    requires UsersValid(us)
    ensures LocalLogin(us, email, password, matches).LoggedIn? <==>
      exists i :: 0 <= i < |us| && us[i].email == email && HasPassword(us[i])
        && us[i].isVerified && matches(password, us[i].password.value)
  {
  }

  /** An unverified account is refused even with the right password, and a
      passwordless (Google-only) account is refused before that. */
  lemma UnverifiedNeverLogsIn(us: seq<User>, k: nat, password: Text,
                              matches: (Text, Text) -> bool)
    requires UsersValid(us) && k < |us| && !us[k].isVerified
    ensures !LocalLogin(us, us[k].email, password, matches).LoggedIn?
    ensures LocalLogin(us, us[k].email, password, matches) ==
      (if HasPassword(us[k]) then NotVerified else UseGoogle)
  {
  }

  /** The reply of `POST /auth/login` (server.js:194-203): 200 with the user,
      or 400 with the strategy's message. */
  datatype LoginReply = LoginOk(user: User) | LoginRefused(reason: LoginOutcome)

  /** The login route: on success `req.logIn` binds the session to the
      user's id; on failure the session is left as it was. */
  function LoginRoute(us: seq<User>, email: Text, password: Text,
                      matches: (Text, Text) -> bool, s: SessionState): (r: (LoginReply, SessionState))
    ensures r.0.LoginOk? <==> LocalLogin(us, email, password, matches).LoggedIn?
    ensures r.0.LoginOk? ==> r.0.user == LocalLogin(us, email, password, matches).user
    ensures r.0.LoginRefused? ==> r.0.reason == LocalLogin(us, email, password, matches)
    ensures r.0.LoginOk? ==> r.0.user.email == email && r.1 == Some(r.0.user.id)
    ensures r.0.LoginOk? ==> IsAuthenticated(us, r.1)
    ensures r.0.LoginRefused? ==> r.1 == s && !r.0.reason.LoggedIn?
  {
    match LocalLogin(us, email, password, matches)
    case LoggedIn(u) => (LoginOk(u), SerializeUser(u))
    case failure => (LoginRefused(failure), s)
  }

  /** The key used when the environment sets none (server.js:16). */
  const DefaultApiKey: Text := "secret-key"

  /** `process.env.API_KEY || 'secret-key'`: an unset or empty variable
      falls back on the default, so the configured key is never empty. */
  function ConfiguredApiKey(env: Option<Text>): (k: Text)
    ensures k != ""
    ensures Truthy(env) ==> k == env.value
    ensures !Truthy(env) ==> k == DefaultApiKey
  {
    if Truthy(env) then env.value else DefaultApiKey
  }

  /** authenticateWebhook (server.js:122-128): the `x-api-key` header must be
      present and strictly equal to the key configured by `env`. The header
      passes exactly when it equals a non-empty `API_KEY`, or 'secret-key'
      when the variable is unset or empty. */
  function WebhookAuthorized(providedKey: Option<Text>, env: Option<Text>): (ok: bool)
    ensures ok ==> Truthy(providedKey)
    ensures Truthy(env) ==> (ok <==> providedKey == env)
    ensures !Truthy(env) ==> (ok <==> providedKey == Some(DefaultApiKey))
  {
    providedKey == Some(ConfiguredApiKey(env))
  }

  /** A request without the header, or with an empty one, never passes,
      whatever the environment configures. */
  lemma MissingKeyRejected(env: Option<Text>)
    ensures !WebhookAuthorized(None, env)
    ensures !WebhookAuthorized(Some(""), env)
  {
  }
}
