# licitaciones.ia: accounts, sessions and tenders

This Dafny project models the server of a tender (public procurement bid)
dashboard. An automation pipeline pushes tender records through a webhook.
The server stores them in PostgreSQL and serves them, ordered by an
AI-computed relevance score, to users who have signed in. Users sign in
with Google or with a verified email and password.

The model covers:

- the two tables created by `db.js` (`users`, `tenders`): their row shapes,
  column defaults, UNIQUE / NOT NULL constraints, VARCHAR lengths and the
  INTEGER range (`schema.dfy`);
- the session binding: serialize, deserialize, `isAuthenticated`,
  `/api/me`, logout (`session.dfy`);
- the local strategy's guard chain, the login route and the webhook key
  check (`auth.dfy`);
- `GET /api/tenders` with `ORDER BY ai_score DESC, created_at DESC`
  (`listing.dfy`);
- the handlers that write: Google sign-in with account linking,
  registration, email verification and the tender upsert. They are methods
  of a `Store` class whose `users` and `tenders` sequences they update
  (`server.dfy`);
- the score badge class and the summary fallback of the dashboard script
  (`dashboard.dfy`).

Quirks of the code that the model keeps:

- `!code || !title` and `!user.password` follow JavaScript truthiness, so
  an empty string counts as missing.
- The webhook lists `ai_score` among the INSERT columns. An absent score is
  therefore stored as NULL, not as the column default 0. PostgreSQL sorts
  NULL first under `DESC`, so unscored tenders head the listing.
  `getScoreClass(null)` gives no badge class.
- A conflicting upsert overwrites `ai_summary` and `ai_score` with the new
  values, NULL included, and keeps every other column.
- The upsert draws a value from the `tenders` id sequence even when it
  takes the conflict path.
- Verification is one UPDATE over every row holding the token. A token is
  good once, and the proof does not need tokens to be unique.
- When registration cannot send the verification mail, the reply is 500
  but the new row stays.
- Account linking returns the user row as it was read before the UPDATE
  (server.js:46-48, 58). The session is bound to that row's id, and
  rehydrating the session yields the linked row.
- The local login fails in four distinct ways, each with its own message
  (server.js:73-86).
- A missing webhook field gets one 400 reply that does not say which
  field is missing (server.js:238).
- A registration body without `email` or `password` ends in a 500 and
  writes nothing: bcrypt refuses an undefined password, and the INSERT
  refuses a NULL email.

External effects become parameters: bcrypt's hash (`hash`) and comparison
(`matches`), the random token (`token`), whether the mail was sent
(`mailSent`), the database clock (`now`) and the `API_KEY` environment
variable (`env`, see `ConfiguredApiKey`).

## Model

| member | source | states |
|---|---|---|
| Schema.NewUser | db.js:15-27 | an inserted user gets the given id and timestamp; `is_verified` is false when the INSERT leaves it out, the given value otherwise |
| Schema.NewTender | db.js:42-54 | an inserted tender's `ai_score` is 0 and `status` is 'new' only when the INSERT leaves the column out; a listed value, NULL included, is kept |
| Schema.IndexWhere | server.js:38-39 | `rows[0]` of a SELECT: a matching row (the model takes the first in table order; on the UNIQUE keys looked up here there is only one), or none exactly when no row matches |
| Schema.UserWithGoogleId | server.js:38-39 | finds a row holding the Google id, or none exactly when no row holds it |
| Schema.UserWithEmail | server.js:70-71 | finds a row holding the email, or none exactly when no row holds it |
| Schema.UserWithId | server.js:100-101 | finds a row with the id, or none exactly when no row has it |
| Schema.TenderWithCode | server.js:242-244 | finds the row the upsert conflicts with on `code`, or none exactly when no row has the code |
| Schema.UniqueEmailLookup | db.js:19 | with emails unique, the email lookup returns the one row holding that email |
| Schema.UniqueGoogleIdLookup | db.js:18 | with non-NULL Google ids unique, the Google id lookup returns the one row holding it |
| Schema.UniqueIdLookup | db.js:17 | with ids unique, the id lookup returns the one row with that id |
| Schema.UniqueCodeLookup | db.js:45 | with codes unique, the conflict lookup returns the one row with that code |
| Schema.UsersValid | db.js:15-27 | the `users` constraints: ids, emails and non-NULL Google ids pairwise distinct; every value fits its VARCHAR column |
| Schema.TendersValid | db.js:42-54 | the `tenders` constraints: ids and codes pairwise distinct; every value fits its column, the score the INTEGER range |
| Session.DeserializeUser | server.js:98-105 | yields a user exactly when the session holds an id that some row has, and that user is a row of the table with that id |
| Session.IsAuthenticated | server.js:130-135 | a request is authenticated exactly when its session holds an id that some row of the table has |
| Session.Me | server.js:212-218 | `/api/me` says authenticated exactly when the session holds an id some row has; it returns a user exactly then, a row of the table with that id |
| Session.LogInRoundTrip | server.js:94-105 | serializing a row and deserializing the session gives back that same row |
| Session.LogOutIsAnonymous | server.js:205-210 | after logout the request is not authenticated and `/api/me` says so |
| Auth.LocalLogin | server.js:68-92 | the guard chain in order: no row, then no password (NULL or empty, as `!user.password` reads it, `HasPassword`), then unverified, then mismatch; success returns a verified row with this email whose hash matches |
| Auth.LocalLoginSucceedsIff | server.js:70-88 | in a valid table, login succeeds exactly when some row has the email, a password, is verified and matches |
| Auth.UnverifiedNeverLogsIn | server.js:76-81 | an unverified account is refused whatever the password: NotVerified, or UseGoogle when it has no password |
| Auth.LoginRoute | server.js:194-203 | the reply is the strategy's outcome: on success the very row `LocalLogin` matched, with the session bound to its id and authenticated; on refusal the guard that failed, with the session unchanged |
| Auth.ConfiguredApiKey | server.js:16 | the key is the environment value when non-empty, else 'secret-key'; it is never empty |
| Auth.WebhookAuthorized | server.js:122-126 | the header passes exactly when it equals a non-empty `API_KEY`, or 'secret-key' when that is unset or empty; a missing or empty header never passes |
| Auth.MissingKeyRejected | server.js:122-126 | a request without the key header, or with an empty one, never passes the webhook check, whatever `API_KEY` holds |
| Listing.InsertByRank | server.js:228 | placing a row into an ordered listing keeps it ordered and adds exactly that row |
| Listing.SortByRank | server.js:228 | the result is ordered by score DESC NULLS FIRST, then creation time DESC, and is a permutation of the table |
| Listing.ListTenders | server.js:226-229 | 401 exactly when the session is not authenticated; otherwise every tender, as an ordered permutation of the table |
| Listing.ListingOrderMeaning | server.js:228 | in an ordered listing, unscored tenders come before scored ones, higher scores before lower ones, and newer before older at equal score |
| Listing.OrderedListingsAgreeOnKeys | server.js:228 | any two ordered permutations of one table show the same scores and creation times at every position; only ties can differ |
| Server.AppendUserKeepsValid | db.js:16-26 | appending a row with a new id, email and Google id whose columns fit keeps the users constraints |
| Server.Linked | server.js:47-48 | the linked row carries the profile's Google id and photo; every other column is unchanged |
| Server.GoogleUser | server.js:51-54 | the user Google sign-in creates is verified, has no password and no token, and carries the profile's id, email, name and photo |
| Server.LinkKeepsValid | server.js:47-48 | linking a Google id no row holds onto a row keeps ids, emails and Google ids unique |
| Server.LinkedSessionSeesLink | server.js:46-58 | the session bound to the pre-update row's id rehydrates to the linked row |
| Server.LinkThenGoogleIdFound | server.js:38-48 | after linking, the next sign-in with that profile finds the linked row by Google id |
| Server.LocalUser | server.js:155-158 | a registered user is unverified, holds the token and the hash, and has no Google id |
| Server.Redeem | server.js:179 | a row no longer holds the token; it is verified if it held it, and unchanged otherwise; only those two columns change |
| Server.Redeemed | server.js:178-181 | rows holding the token become verified and lose it; other rows are unchanged; no row holds the token afterwards |
| Server.RedeemedKeepsValid | server.js:178-181 | verification keeps the users constraints and every row's id, email and creation time |
| Server.RedeemTwiceFails | server.js:178-185 | a second redemption of the same token finds no row and changes nothing |
| Server.RegisterVerifyLogIn | server.js:155-185 | a freshly registered account is refused as unverified, and logs in with the right password once its token is redeemed |
| Server.ProposedTender | server.js:237-248 | the webhook's row carries the body's fields, a NULL score when the body has none, status 'new' and the statement's timestamp |
| Server.Upserted | server.js:241-246 | the upsert keeps the row count or appends the proposed row; earlier rows keep everything but summary and score; a new code appends the row |
| Server.UpsertNewCode | server.js:242-243 | a code not in the table appends the proposed row as is |
| Server.UpsertExistingCode | server.js:244-245 | an existing code overwrites only that row's summary and score, NULL included; the rest of the table is unchanged |
| Server.UpsertResult | server.js:241-251 | the returned row has the proposed code, summary and score; the table grows by at most one row and earlier rows keep everything but summary and score |
| Server.UpsertKeepsValid | db.js:45 | after the upsert, no two tenders share a code or an id |
| Server.UpsertIdempotent | server.js:241-249 | delivering the same code, summary and score again leaves the table unchanged |
| Server.RoadWorksExample | server.js:241-249 | two deliveries of T-1: the first title and creation time stay, the second score is stored |
| Server.Store.Valid | db.js:15-54 | both tables meet their constraints, every id lies below its sequence, and every tender has a non-empty code and title |
| Server.Store.constructor | db.js:15-54 | both tables start empty and valid; both sequences start at 1 |
| Server.Store.ResolveGoogle | server.js:36-62 | a matching Google id returns that row and changes nothing; else a matching email links that row and returns the pre-update row; else one verified row is appended; tenders are untouched |
| Server.Store.Register | server.js:144-172 | a taken email is refused and changes nothing; a missing email or password fails and changes nothing; else one unverified row with the token is appended, and a mail failure still keeps it |
| Server.Store.Verify | server.js:175-191 | succeeds exactly when some row held the token, and leaves the table as `Redeemed` describes |
| Server.Store.IngestTender | server.js:236-256 | a missing or empty key, or one other than `API_KEY` (else 'secret-key'), gives 401, then a missing or empty code or title gives 400 (`!code || !title`, `HasRequiredFields`), neither writing anything; else the table becomes the upsert and the stored row is returned; every stored tender keeps a unique, non-empty code and a non-empty title |
| Dashboard.ScoreClass | public/app.js:26-30 | 'score-high' exactly when the score is at least 80, 'score-med' exactly when it is 50 to 79, '' when it is lower or null |
| Dashboard.ScoreClassMonotone | public/app.js:26-30 | a higher score never gets a lower badge; a null score gets the badge of 0 |
| Dashboard.SummaryText | public/app.js:14 | the stored summary when it is non-empty, 'Sin resumen disponible.' otherwise; never empty |

## Left out

- bcrypt hashing and comparison are a foreign library. They are the
  `hash` and `matches` parameters.
- `crypto.randomBytes` is randomness. The token is a parameter.
- nodemailer and `sendMail` are network I/O. Only whether the mail was sent
  is modelled, as `mailSent`; the mail's text is not.
- Express, CORS, static files and the express-session store are framework
  glue. The session is reduced to an optional user id. Session
  regeneration at login is not modelled.
- passport-local refuses a request with an empty email or password before
  the callback runs ("Missing credentials"). That library check is not
  modelled; `LocalLogin` models the callback only.
- Connection failures and other database errors (the `catch` branches
  that answer 500) are not modelled. The only store errors modelled are
  the column constraints: VARCHAR lengths and the INTEGER range.
- PostgreSQL silently truncates an over-long VARCHAR value when the excess
  characters are all spaces. That is not modelled; every over-long value
  is an error.
- The pg `Pool`, `initDb`, its ALTER TABLE migrations and `client.release`
  are I/O and DDL. The model starts from empty tables with the final
  schema.
- Concurrent requests, and so the race between the duplicate-email check
  and the INSERT, are out of scope. Requests run one at a time.
- JSON body fields of a non-string type (a numeric `code`, say) are not
  modelled. Text fields of a request body are strings or absent.
- Server.Store.IngestTender: `ai_score` is an integer or absent. A
  fractional number such as 72.5 (PostgreSQL refuses it, a 500) and a
  numeric string such as "85" (PostgreSQL casts it) are not modelled.
- Session.DeserializeUser: a session holding an id that no row has makes
  passport fail the request ("Failed to deserialize user out of
  session", a 500). The model treats that session as anonymous, so
  `Me`, `IsAuthenticated` and `ListTenders` answer as for a logged-out
  request. No modelled handler deletes a row, so the store never reaches
  that state on its own.
- Parsing `deadline` text into a TIMESTAMP is not modelled, and neither is
  the error an unparsable date raises. `deadline` is a timestamp or absent.
- A Google profile without an email or a photo is not modelled. The
  callback would throw on `emails[0]` or `photos[0]`; `Profile` always
  carries both.
- Which sequence values a failing INSERT consumes is not modelled. Ids are
  only required to be unique and below the sequence, and SERIAL overflow
  is ignored.
- PostgreSQL leaves the order of rows with equal score and creation time
  open. `SortByRank` picks one order. `OrderedListingsAgreeOnKeys` shows
  that every valid order has the same keys at every position.
- The response message texts (Spanish) are not modelled. Each outcome is
  a constructor, with the message in a comment.
- `/health`, `new Date()`, `toLocaleDateString`, and rendering the cards
  into `innerHTML` (including the "null% Match" text for an unscored
  tender) are clock reads, locale formatting and DOM output.
