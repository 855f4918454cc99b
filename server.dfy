/**
  The handlers of server.js that write to the database, over a `Store`
  holding the `users` and `tenders` tables and the two SERIAL sequences
  that number their rows.

  - ResolveGoogle: the Google strategy callback (lookup by Google id, else
    link the Google identity onto the row with that email, else insert a
    pre-verified user).
  - Register: `POST /auth/register` (refuse a taken email, else insert an
    unverified row carrying the verification token).
  - Verify: `GET /auth/verify/:token` (one UPDATE over every row holding
    the token).
  - IngestTender: `POST /api/webhooks/tenders` (key, then required fields,
    then `INSERT ... ON CONFLICT (code) DO UPDATE`).

  bcrypt's hash, the random token, the outcome of sending the verification
  mail and the database clock are parameters.
*/
module Server {
  import opened Wrappers
  import opened Schema
  import opened Auth
  import Session

  // ------------------------------------------------------- row invariants

  /** Rows are never deleted, and no handler changes a user's id, email or
      creation time. */
  predicate UserRowsKept(before: seq<User>, after: seq<User>) {
    && |before| <= |after|
    && forall i :: 0 <= i < |before| ==>
         && after[i].id == before[i].id
         && after[i].email == before[i].email
         && after[i].createdAt == before[i].createdAt
  }

  /** Rows are never deleted, and only `ai_summary` and `ai_score` of a
      tender ever change after its insertion. */
  predicate TenderRowsKept(before: seq<Tender>, after: seq<Tender>) {
    && |before| <= |after|
    && forall i :: 0 <= i < |before| ==>
         after[i] == before[i].(aiSummary := after[i].aiSummary, aiScore := after[i].aiScore)
  }

  /** Appending a row whose id, email and Google id are new, and whose
      columns fit, keeps the table's constraints. */
  lemma AppendUserKeepsValid(us: seq<User>, row: User)
    requires UsersValid(us) && UserFits(row)
    requires forall i :: 0 <= i < |us| ==> us[i].id != row.id && us[i].email != row.email
    requires row.googleId.Some? ==> forall i :: 0 <= i < |us| ==> us[i].googleId != row.googleId
    ensures UsersValid(us + [row])
  {
  }

  // ------------------------------------------------------- Google sign-in

  /** The fields of the Google profile the strategy reads: `profile.id`,
      `profile.emails[0].value`, `profile.displayName`,
      `profile.photos[0].value`. */
  datatype Profile = Profile(id: Text, email: Text, displayName: Option<Text>, photo: Text)

  /** The callback's `done`: the user to log in, or the error passed on. */
  datatype GoogleOutcome = SignedIn(user: User) | GoogleFailed

  /** The row after `UPDATE users SET google_id = $1, avatar_url = $2`
      (server.js:47-48): it carries the profile's Google id and photo, and
      every other column is as before. */
  function Linked(u: User, p: Profile): (r: User)
    ensures r.googleId == Some(p.id) && r.avatarUrl == Some(p.photo)
    ensures r.(googleId := u.googleId, avatarUrl := u.avatarUrl) == u
  {
    u.(googleId := Some(p.id), avatarUrl := Some(p.photo))
  }

  /** The row `INSERT INTO users (google_id, email, display_name,
      avatar_url, is_verified)` builds (server.js:51-54). */
  function GoogleUser(id: int, now: Timestamp, p: Profile): (u: User)
    ensures u.isVerified && u.googleId == Some(p.id) && u.email == p.email
    ensures u.displayName == p.displayName && u.avatarUrl == Some(p.photo)
    ensures u.password.None? && u.verificationToken.None?
    ensures u.id == id && u.createdAt == now
  {
    NewUser(id, now, Some(p.id), p.email, None, p.displayName, Some(p.photo), None, Given(true))
  }

  /** Linking a Google id that no row holds keeps the constraints: the email
      and id of the row do not change. */
  lemma LinkKeepsValid(us: seq<User>, k: nat, p: Profile)
    requires UsersValid(us) && k < |us|
    requires UserWithGoogleId(us, p.id).None? && |p.id| <= UserVarchar
    ensures UsersValid(us[k := Linked(us[k], p)])
  {
  }

  /** The session the callback binds uses the id of the row as it was read
      before the UPDATE; rehydrating it yields the linked row. */
  lemma LinkedSessionSeesLink(us: seq<User>, k: nat, p: Profile)
    requires UsersValid(us) && k < |us|
    requires UserWithGoogleId(us, p.id).None? && |p.id| <= UserVarchar
    ensures Session.DeserializeUser(us[k := Linked(us[k], p)], Session.SerializeUser(us[k]))
            == Some(Linked(us[k], p))
  {
    LinkKeepsValid(us, k, p);
    Session.LogInRoundTrip(us[k := Linked(us[k], p)], k);
  }

  /** After linking, a second Google sign-in with the same profile finds
      the linked row by its Google id and changes nothing. */
  lemma LinkThenGoogleIdFound(us: seq<User>, k: nat, p: Profile)
    requires UsersValid(us) && k < |us|
    requires UserWithGoogleId(us, p.id).None? && |p.id| <= UserVarchar
    ensures UserWithGoogleId(us[k := Linked(us[k], p)], p.id) == Some(k)
  {
    LinkKeepsValid(us, k, p);
    UniqueGoogleIdLookup(us[k := Linked(us[k], p)], k);
  }

  // ------------------------------------------------------ local accounts

  /** The outcome of `POST /auth/register`: 200, 400 for a taken email, 500
      when the mail could not be sent (the row stays: there is no
      rollback), 500 when the INSERT fails. */
  datatype RegisterOutcome = Registered | EmailTaken | MailFailed | RegisterFailed

  /** The row `INSERT INTO users (email, password, display_name,
      verification_token, is_verified)` builds (server.js:155-158). */
  function LocalUser(id: int, now: Timestamp, email: Text, hash: Text,
                     name: Option<Text>, token: Text): (u: User)
    ensures !u.isVerified && u.verificationToken == Some(token)
    ensures u.password == Some(hash) && u.googleId.None?
    ensures u.email == email && u.displayName == name && u.avatarUrl.None?
    ensures u.id == id && u.createdAt == now
  {
    NewUser(id, now, None, email, Some(hash), name, None, Some(token), Given(false))
  }

  /** Some row still waits for this token. */
  predicate HoldsToken(us: seq<User>, token: Text) {
    exists i :: 0 <= i < |us| && us[i].verificationToken == Some(token)
  }

  /** One row under `SET is_verified = TRUE, verification_token = NULL
      WHERE verification_token = $1` (server.js:179): afterwards it does not
      hold the token; a row that held it is verified; only those two
      columns can change. */
  function Redeem(u: User, token: Text): (r: User)
    ensures r.verificationToken != Some(token)
    ensures u.verificationToken == Some(token) ==> r.isVerified
    ensures u.verificationToken != Some(token) ==> r == u
    ensures r.(isVerified := u.isVerified, verificationToken := u.verificationToken) == u
  {
    if u.verificationToken == Some(token) then u.(isVerified := true, verificationToken := None)
    else u
  }

  /** The table after the verification UPDATE (server.js:178-181): every
      row holding the token is verified and loses it, every other row is
      untouched, and no row holds the token any more. */
  function Redeemed(us: seq<User>, token: Text): (r: seq<User>)
    ensures |r| == |us| && !HoldsToken(r, token)
    ensures forall i :: 0 <= i < |us| && us[i].verificationToken == Some(token) ==>
              r[i] == us[i].(isVerified := true, verificationToken := None)
    ensures forall i :: 0 <= i < |us| && us[i].verificationToken != Some(token) ==> r[i] == us[i]
  {
    seq(|us|, i requires 0 <= i < |us| => Redeem(us[i], token))
  }

  lemma RedeemedKeepsValid(us: seq<User>, token: Text)
    requires UsersValid(us)
    ensures UsersValid(Redeemed(us, token))
    ensures UserRowsKept(us, Redeemed(us, token))
  {
  }

  /** A token is good for one redemption: the second finds no row and
      leaves the table as the first left it. */
  lemma RedeemTwiceFails(us: seq<User>, token: Text)
    ensures !HoldsToken(Redeemed(us, token), token)
    ensures Redeemed(Redeemed(us, token), token) == Redeemed(us, token)
  {
  }

  /** Registration, verification and login, end to end: the new account is
      refused as unverified until its token is redeemed, and logs in with
      the right password afterwards. Nothing requires the token to be
      unused by other rows. */
  lemma RegisterVerifyLogIn(us: seq<User>, id: int, now: Timestamp, email: Text, hash: Text,
                            name: Option<Text>, token: Text, password: Text,
                            matches: (Text, Text) -> bool)
    requires UsersValid(us) && UserWithEmail(us, email).None?
    requires forall i :: 0 <= i < |us| ==> us[i].id != id
    requires UserFits(LocalUser(id, now, email, hash, name, token))
    requires hash != "" && matches(password, hash)
    ensures var registered := us + [LocalUser(id, now, email, hash, name, token)];
      && HoldsToken(registered, token)
      && LocalLogin(registered, email, password, matches) == NotVerified
      && LocalLogin(Redeemed(registered, token), email, password, matches)
         == LoggedIn(LocalUser(id, now, email, hash, name, token).(isVerified := true, verificationToken := None))
  {
    var row := LocalUser(id, now, email, hash, name, token);
    var registered := us + [row];
    AppendUserKeepsValid(us, row);
    assert registered[|us|] == row;
    UniqueEmailLookup(registered, |us|);
    RedeemedKeepsValid(registered, token);
    UniqueEmailLookup(Redeemed(registered, token), |us|);
  }

  // -------------------------------------------------------------- tenders

  /** The body fields of `POST /api/webhooks/tenders`; an absent field is
      None. */
  datatype TenderFields = TenderFields(
    code: Option<Text>, title: Option<Text>, description: Option<Text>,
    deadline: Option<Timestamp>, aiSummary: Option<Text>, aiScore: Option<int>)

  /** `!code || !title` (server.js:238): an empty string is as missing as
      an absent field. */
  predicate HasRequiredFields(f: TenderFields) {
    Truthy(f.code) && Truthy(f.title)
  }

  /** The outcome of the webhook: 201 with the stored row, 401, 400, or 500
      when the statement fails. */
  datatype IngestOutcome = Saved(row: Tender) | BadKey | MissingFields | SaveFailed

  /** The row the webhook's INSERT proposes. All six body fields are listed
      as columns, so an absent `ai_score` is stored as NULL, not as the
      column default 0; `status` and `created_at` are left out and take
      their defaults. */
  function ProposedTender(id: int, now: Timestamp, f: TenderFields): (t: Tender)
    requires HasRequiredFields(f)
    ensures t.code == f.code.value && t.title == f.title.value
    ensures t.description == f.description && t.deadline == f.deadline
    ensures t.aiSummary == f.aiSummary && t.aiScore == f.aiScore
    ensures t.status == Some("new") && t.createdAt == now && t.id == id
  {
    NewTender(id, now, f.code.value, f.title.value, f.description, f.deadline,
              f.aiSummary, Given(f.aiScore), Omitted)
  }

  /** Where the upsert leaves its row: the conflicting row, or the end. */
  function UpsertIndex(ts: seq<Tender>, row: Tender): nat {
    match TenderWithCode(ts, row.code)
    case Some(k) => k
    case None => |ts|
  }

  /** `INSERT ... ON CONFLICT (code) DO UPDATE SET ai_summary =
      EXCLUDED.ai_summary, ai_score = EXCLUDED.ai_score` (server.js:241-246). */
  function Upserted(ts: seq<Tender>, row: Tender): (r: seq<Tender>)
    ensures |r| == |ts| || r == ts + [row]
    ensures TenderRowsKept(ts, r)
    ensures (forall i :: 0 <= i < |ts| ==> ts[i].code != row.code) ==> r == ts + [row]
  {
    match TenderWithCode(ts, row.code)
    case Some(k) => ts[k := ts[k].(aiSummary := row.aiSummary, aiScore := row.aiScore)]
    case None => ts + [row]
  }

  /** A new code appends the proposed row as it is. */
  lemma UpsertNewCode(ts: seq<Tender>, row: Tender)
    requires forall i :: 0 <= i < |ts| ==> ts[i].code != row.code
    ensures Upserted(ts, row) == ts + [row]
    ensures UpsertIndex(ts, row) == |ts|
  {
  }

  /** An existing code overwrites that row's summary and score, even with
      NULL, and nothing else: title, description, deadline, status, id and
      creation time stay, and every other row stays. */
  lemma UpsertExistingCode(ts: seq<Tender>, row: Tender, k: nat)
    requires TendersValid(ts) && k < |ts| && ts[k].code == row.code
    ensures UpsertIndex(ts, row) == k
    ensures Upserted(ts, row) == ts[k := ts[k].(aiSummary := row.aiSummary, aiScore := row.aiScore)]
    ensures TenderRowsKept(ts, Upserted(ts, row))
  {
  }

  /** The upsert returns the row stored under the proposed code, carrying
      the proposed summary and score; every earlier row keeps its
      identity, and the table grows by at most one row. */
  lemma UpsertResult(ts: seq<Tender>, row: Tender)
    ensures var r, k := Upserted(ts, row), UpsertIndex(ts, row);
      && k < |r| && r[k].code == row.code
      && r[k].aiSummary == row.aiSummary && r[k].aiScore == row.aiScore
      && (|r| == |ts| || |r| == |ts| + 1)
      && TenderRowsKept(ts, r)
  {
  }

  /** The upsert keeps the constraints of `tenders`: at most one row per
      code, whatever the table held before. */
  lemma UpsertKeepsValid(ts: seq<Tender>, row: Tender)
    requires TendersValid(ts) && TenderFits(row)
    requires forall i :: 0 <= i < |ts| ==> ts[i].id != row.id
    ensures TendersValid(Upserted(ts, row))
  {
  }

  /** Replaying a delivery is harmless: a second upsert with the same code,
      summary and score leaves the table as the first left it, whatever the
      rest of the second row says. */
  lemma UpsertIdempotent(ts: seq<Tender>, row: Tender, again: Tender)
    requires again.code == row.code && again.aiSummary == row.aiSummary && again.aiScore == row.aiScore
    ensures Upserted(Upserted(ts, row), again) == Upserted(ts, row)
  {
    UpsertResult(ts, row);
  }

  /** The example of two deliveries of T-1: the second one's title is
      ignored, its score is taken. */
  lemma RoadWorksExample()
    ensures var f1 := TenderFields(Some("T-1"), Some("Road works"), None, None, None, Some(40));
      var f2 := TenderFields(Some("T-1"), Some("Road works v2"), None, None, None, Some(90));
      var once := Upserted([], ProposedTender(1, 100, f1));
      var twice := Upserted(once, ProposedTender(2, 200, f2));
      |twice| == 1 && twice[0].title == "Road works" && twice[0].aiScore == Some(90)
      && twice[0].createdAt == 100 && twice[0].id == 1
  {
  }

  // ---------------------------------------------------------------- store

  class Store {
    var users: seq<User>
    var tenders: seq<Tender>
    /** The next values of the SERIAL sequences behind users.id and
        tenders.id. */
    var nextUserId: int
    var nextTenderId: int

    /** The table constraints, every id drawn below the sequence, and,
        because the webhook is the only writer of `tenders` and refuses
        empty values, a non-empty code and title on every tender. */
    ghost predicate Valid()
      reads this
    {
      && UsersValid(users) && TendersValid(tenders)
      && (forall i :: 0 <= i < |users| ==> users[i].id < nextUserId)
      && (forall i :: 0 <= i < |tenders| ==> tenders[i].id < nextTenderId)
      && (forall i :: 0 <= i < |tenders| ==> tenders[i].code != "" && tenders[i].title != "")
    }

    /** Empty tables, as `initDb` creates them; SERIAL starts at 1. */
    constructor ()
      ensures Valid() && users == [] && tenders == []
      ensures nextUserId == 1 && nextTenderId == 1
    {
      users, tenders := [], [];
      nextUserId, nextTenderId := 1, 1;
    }

    /** The Google strategy callback (server.js:36-62). */
    method ResolveGoogle(p: Profile, now: Timestamp) returns (r: GoogleOutcome)
      requires Valid()
      modifies this
      ensures Valid()
      ensures tenders == old(tenders) && nextTenderId == old(nextTenderId)
      ensures UserRowsKept(old(users), users)
      ensures nextUserId == old(nextUserId) + |users| - |old(users)|
      // A row already holds this Google id: it is the user, nothing changes.
      ensures var g := UserWithGoogleId(old(users), p.id);
        g.Some? ==> r == SignedIn(old(users)[g.value]) && users == old(users)
      // Otherwise a row with this email gets the Google id and avatar; the
      // user returned is that row as read before the UPDATE.
      ensures var g, e := UserWithGoogleId(old(users), p.id), UserWithEmail(old(users), p.email);
        g.None? && e.Some? ==>
          if |p.id| <= UserVarchar then
            && r == SignedIn(old(users)[e.value])
            && users == old(users)[e.value := Linked(old(users)[e.value], p)]
          else r == GoogleFailed && users == old(users)
      // Otherwise exactly one new, verified row is appended.
      ensures var g, e := UserWithGoogleId(old(users), p.id), UserWithEmail(old(users), p.email);
        g.None? && e.None? ==>
          var row := GoogleUser(old(nextUserId), now, p);
          if UserFits(row) then r == SignedIn(row) && users == old(users) + [row]
          else r == GoogleFailed && users == old(users)
    {
      var g := UserWithGoogleId(users, p.id);
      if g.Some? {
        return SignedIn(users[g.value]);
      }
      var e := UserWithEmail(users, p.email);
      if e.Some? {
        var k := e.value;
        var u := users[k];
        if |p.id| > UserVarchar {
          return GoogleFailed;  // google_id VARCHAR(255)
        }
        LinkKeepsValid(users, k, p);
        users := users[k := Linked(u, p)];
        return SignedIn(u);
      }
      var row := GoogleUser(nextUserId, now, p);
      if !UserFits(row) {
        return GoogleFailed;
      }
      AppendUserKeepsValid(users, row);
      users := users + [row];
      nextUserId := nextUserId + 1;
      return SignedIn(row);
    }

    /** `POST /auth/register` (server.js:144-172). The body's `email` may be
        absent (None); `hash` is bcrypt's result, None when the body has no
        `password`, for `bcrypt.hash(undefined, 10)` rejects. An absent
        email matches no row (`email = NULL` is never true), and then the
        INSERT breaks `email ... NOT NULL`: a 500 and no row. */
    method Register(email: Option<Text>, hash: Option<Text>, name: Option<Text>, token: Text,
                    mailSent: bool, now: Timestamp) returns (r: RegisterOutcome)
      requires Valid()
      modifies this
      ensures Valid()
      ensures tenders == old(tenders) && nextTenderId == old(nextTenderId)
      ensures UserRowsKept(old(users), users)
      ensures nextUserId == old(nextUserId) + |users| - |old(users)|
      ensures email.Some? && UserWithEmail(old(users), email.value).Some? ==>
        r == EmailTaken && users == old(users)
      ensures (email.None? || hash.None?) && !(email.Some? && UserWithEmail(old(users), email.value).Some?) ==>
        r == RegisterFailed && users == old(users)
      ensures email.Some? && hash.Some? && UserWithEmail(old(users), email.value).None? ==>
        var row := LocalUser(old(nextUserId), now, email.value, hash.value, name, token);
        if UserFits(row) then
          && users == old(users) + [row]
          && r == (if mailSent then Registered else MailFailed)
        else r == RegisterFailed && users == old(users)
    {
      if email.Some? {
        var existing := UserWithEmail(users, email.value);
        if existing.Some? {
          return EmailTaken;
        }
      }
      if hash.None? || email.None? {
        return RegisterFailed;  // bcrypt rejects, or email NOT NULL
      }
      var row := LocalUser(nextUserId, now, email.value, hash.value, name, token);
      if !UserFits(row) {
        return RegisterFailed;
      }
      AppendUserKeepsValid(users, row);
      users := users + [row];
      nextUserId := nextUserId + 1;
      r := if mailSent then Registered else MailFailed;
    }

    /** `GET /auth/verify/:token` (server.js:175-191): success exactly when
        some row held the token. */
    method Verify(token: Text) returns (ok: bool)
      requires Valid()
      modifies this
      ensures Valid()
      ensures ok <==> HoldsToken(old(users), token)
      ensures users == Redeemed(old(users), token)
      ensures UserRowsKept(old(users), users)
      ensures tenders == old(tenders)
      ensures nextUserId == old(nextUserId) && nextTenderId == old(nextTenderId)
    {
      ok := HoldsToken(users, token);
      RedeemedKeepsValid(users, token);
      users := Redeemed(users, token);
    }

    /** `POST /api/webhooks/tenders` behind authenticateWebhook, with `env`
        the value of `process.env.API_KEY`
        (server.js:122-128, 236-256). The upsert draws a value from the id
        sequence even when it takes the conflict path. */
    method IngestTender(providedKey: Option<Text>, env: Option<Text>, f: TenderFields,
                        now: Timestamp) returns (r: IngestOutcome)
      requires Valid()
      modifies this
      ensures Valid()
      ensures users == old(users) && nextUserId == old(nextUserId)
      ensures TenderRowsKept(old(tenders), tenders)
      ensures !Truthy(providedKey) ==> r == BadKey
      ensures !WebhookAuthorized(providedKey, env) ==>
        r == BadKey && tenders == old(tenders) && nextTenderId == old(nextTenderId)
      ensures WebhookAuthorized(providedKey, env) && !HasRequiredFields(f) ==>
        r == MissingFields && tenders == old(tenders) && nextTenderId == old(nextTenderId)
      ensures WebhookAuthorized(providedKey, env) && HasRequiredFields(f) ==>
        var row := ProposedTender(old(nextTenderId), now, f);
        if TenderFits(row) then
          && tenders == Upserted(old(tenders), row)
          && nextTenderId == old(nextTenderId) + 1
          && r == Saved(tenders[UpsertIndex(old(tenders), row)])
        else r == SaveFailed && tenders == old(tenders) && nextTenderId == old(nextTenderId)
    {
      if !WebhookAuthorized(providedKey, env) {
        return BadKey;
      }
      if !HasRequiredFields(f) {
        return MissingFields;
      }
      var row := ProposedTender(nextTenderId, now, f);
      if !TenderFits(row) {
        return SaveFailed;  // code VARCHAR(50), ai_score INTEGER
      }
      UpsertKeepsValid(tenders, row);
      UpsertResult(tenders, row);
      var k := UpsertIndex(tenders, row);
      tenders := Upserted(tenders, row);
      nextTenderId := nextTenderId + 1;
      r := Saved(tenders[k]);
    }
  }
}
