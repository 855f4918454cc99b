/**
  The two tables created by db.js: the shape of a `users` row and of a
  `tenders` row, the column defaults an INSERT falls back on, the column
  constraints (NOT NULL, UNIQUE, VARCHAR lengths, INTEGER range), and the
  single-row lookups (`SELECT * ... WHERE col = $1`, then `rows[0]`) that
  the request handlers run against them.
*/
module Schema {
  import opened Wrappers

  type Text = seq<char>

  /** A TIMESTAMP value. The database clock is outside the model: callers
      pass the value CURRENT_TIMESTAMP has for the statement. */
  type Timestamp = int

  /** How a column appears in an INSERT: left out of the column list, so
      that its DEFAULT applies, or listed with a value (possibly NULL). */
  datatype Col<T> = Omitted | Given(value: T)

  function WithDefault<T>(c: Col<T>, default: T): T {
    match c
    case Omitted => default
    case Given(v) => v
  }

  /** Length of the VARCHAR(255) columns of `users`. */
  const UserVarchar: nat := 255
  /** `code VARCHAR(50)` and `status VARCHAR(20)` of `tenders`. */
  const CodeVarchar: nat := 50
  const StatusVarchar: nat := 20
  /** The range of a PostgreSQL INTEGER column. */
  const Int4Min: int := -0x8000_0000
  const Int4Max: int := 0x7fff_ffff

  /** A nullable VARCHAR(n) column accepts NULL or at most n characters. */
  predicate FitsVarchar(v: Option<Text>, n: nat) {
    v.None? || |v.value| <= n
  }

  predicate FitsInt4(v: Option<int>) {
    v.None? || Int4Min <= v.value <= Int4Max
  }

  /** JavaScript truthiness of a string field that may be absent:
      `undefined`, `null` and `""` are all falsy. */
  predicate Truthy(v: Option<Text>) {
    v.Some? && v.value != ""
  }

  // ---------------------------------------------------------------- users

  datatype User = User(
    id: int,                          // SERIAL PRIMARY KEY
    googleId: Option<Text>,           // VARCHAR(255) UNIQUE, nullable
    email: Text,                      // VARCHAR(255) UNIQUE NOT NULL
    password: Option<Text>,           // bcrypt hash, nullable
    displayName: Option<Text>,
    avatarUrl: Option<Text>,          // TEXT
    verificationToken: Option<Text>,
    isVerified: bool,                 // BOOLEAN DEFAULT FALSE
    createdAt: Timestamp)             // DEFAULT CURRENT_TIMESTAMP

  /** The length limits of the `users` columns. */
  predicate UserFits(u: User) {
    && FitsVarchar(u.googleId, UserVarchar)
    && |u.email| <= UserVarchar
    && FitsVarchar(u.password, UserVarchar)
    && FitsVarchar(u.displayName, UserVarchar)
    && FitsVarchar(u.verificationToken, UserVarchar)
  }

  /** The row an `INSERT INTO users` builds: `id` is the next value of the
      table's sequence, `created_at` the statement's timestamp, and
      `is_verified` falls back on FALSE when the INSERT leaves it out. */
  function NewUser(id: int, now: Timestamp, googleId: Option<Text>, email: Text,
                   password: Option<Text>, displayName: Option<Text>,
                   avatarUrl: Option<Text>, verificationToken: Option<Text>,
                   isVerified: Col<bool>): (u: User)
    ensures u.id == id && u.createdAt == now && u.email == email
    ensures isVerified.Omitted? ==> !u.isVerified
    ensures isVerified.Given? ==> u.isVerified == isVerified.value
  {
    User(id, googleId, email, password, displayName, avatarUrl, verificationToken,
         WithDefault(isVerified, false), now)
  }

  /** The constraints of the `users` table: unique ids, unique emails,
      unique non-NULL Google ids (several NULLs are allowed), and the column
      lengths. `email NOT NULL` is carried by the type. */
  predicate UsersValid(us: seq<User>) {
    && (forall i, j :: 0 <= i < j < |us| ==>
          && us[i].id != us[j].id
          && us[i].email != us[j].email
          && (us[i].googleId.Some? ==> us[i].googleId != us[j].googleId))
    && (forall i :: 0 <= i < |us| ==> UserFits(us[i]))
  }

  // -------------------------------------------------------------- tenders

  datatype Tender = Tender(
    id: int,                          // SERIAL PRIMARY KEY
    code: Text,                       // VARCHAR(50) UNIQUE NOT NULL
    title: Text,                      // TEXT NOT NULL
    description: Option<Text>,
    deadline: Option<Timestamp>,
    aiSummary: Option<Text>,
    aiScore: Option<int>,             // INTEGER DEFAULT 0, nullable
    status: Option<Text>,             // VARCHAR(20) DEFAULT 'new', nullable
    createdAt: Timestamp)             // DEFAULT CURRENT_TIMESTAMP

  predicate TenderFits(t: Tender) {
    && |t.code| <= CodeVarchar
    && FitsInt4(t.aiScore)
    && FitsVarchar(t.status, StatusVarchar)
  }

  /** The row an `INSERT INTO tenders` builds. `ai_score` falls back on 0
      and `status` on 'new' only when the INSERT leaves the column out; a
      listed NULL stays NULL. */
  function NewTender(id: int, now: Timestamp, code: Text, title: Text,
                     description: Option<Text>, deadline: Option<Timestamp>,
                     aiSummary: Option<Text>, aiScore: Col<Option<int>>,
                     status: Col<Option<Text>>): (t: Tender)
    ensures t.id == id && t.createdAt == now && t.code == code && t.title == title
    ensures aiScore.Omitted? ==> t.aiScore == Some(0)
    ensures aiScore.Given? ==> t.aiScore == aiScore.value
    ensures status.Omitted? ==> t.status == Some("new")
    ensures status.Given? ==> t.status == status.value
  {
    Tender(id, code, title, description, deadline, aiSummary,
           WithDefault(aiScore, Some(0)), WithDefault(status, Some("new")), now)
  }

  /** The constraints of the `tenders` table: unique ids, unique codes, and
      the column lengths and ranges. */
  predicate TendersValid(ts: seq<Tender>) {
    && (forall i, j :: 0 <= i < j < |ts| ==> ts[i].id != ts[j].id && ts[i].code != ts[j].code)
    && (forall i :: 0 <= i < |ts| ==> TenderFits(ts[i]))
  }

  // -------------------------------------------------------------- lookups

  /** `rows[0]` of a `SELECT * ... WHERE` (None when no row matches).
      Without ORDER BY the database may return the matching rows in any
      order; the model takes the first in table order. Every lookup below is
      on a UNIQUE column, so the `Unique*Lookup` lemmas show that any
      choice lands on the same row. */
  function IndexWhere<T>(s: seq<T>, p: T -> bool): (r: Option<nat>)
    ensures r.Some? ==> r.value < |s| && p(s[r.value])
    ensures r.Some? ==> forall i :: 0 <= i < r.value ==> !p(s[i])
    ensures r.None? ==> forall i :: 0 <= i < |s| ==> !p(s[i])
  {
    if s == [] then None
    else if p(s[0]) then Some(0)
    else match IndexWhere(s[1..], p)
      case None => None
      case Some(k) => Some(k + 1)
  }

  /** `SELECT * FROM users WHERE google_id = $1` (server.js:38). */
  function UserWithGoogleId(us: seq<User>, googleId: Text): (r: Option<nat>)
    ensures r.Some? ==> r.value < |us| && us[r.value].googleId == Some(googleId)
    ensures r.None? ==> forall i :: 0 <= i < |us| ==> us[i].googleId != Some(googleId)
  {
    IndexWhere(us, (u: User) => u.googleId == Some(googleId))
  }

  /** `SELECT * FROM users WHERE email = $1` (server.js:43, 70, 147). */
  function UserWithEmail(us: seq<User>, email: Text): (r: Option<nat>)
    ensures r.Some? ==> r.value < |us| && us[r.value].email == email
    ensures r.None? ==> forall i :: 0 <= i < |us| ==> us[i].email != email
  {
    IndexWhere(us, (u: User) => u.email == email)
  }

  /** `SELECT * FROM users WHERE id = $1` (server.js:100). */
  function UserWithId(us: seq<User>, id: int): (r: Option<nat>)
    ensures r.Some? ==> r.value < |us| && us[r.value].id == id
    ensures r.None? ==> forall i :: 0 <= i < |us| ==> us[i].id != id
  {
    IndexWhere(us, (u: User) => u.id == id)
  }

  /** The row that conflicts on `code` in `INSERT ... ON CONFLICT (code)`. */
  function TenderWithCode(ts: seq<Tender>, code: Text): (r: Option<nat>)
    ensures r.Some? ==> r.value < |ts| && ts[r.value].code == code
    ensures r.None? ==> forall i :: 0 <= i < |ts| ==> ts[i].code != code
  {
    IndexWhere(ts, (t: Tender) => t.code == code)
  }

  /** Under the UNIQUE constraints the lookups find THE row: whichever row
      holds the key is the one `rows[0]` returns. */
  lemma UniqueEmailLookup(us: seq<User>, k: nat)
    requires UsersValid(us) && k < |us|
    ensures UserWithEmail(us, us[k].email) == Some(k)
  {
  }

  lemma UniqueGoogleIdLookup(us: seq<User>, k: nat)
    requires UsersValid(us) && k < |us| && us[k].googleId.Some?
    ensures UserWithGoogleId(us, us[k].googleId.value) == Some(k)
  {
  }

  lemma UniqueIdLookup(us: seq<User>, k: nat)
    requires UsersValid(us) && k < |us|
    ensures UserWithId(us, us[k].id) == Some(k)
  {
  }

  lemma UniqueCodeLookup(ts: seq<Tender>, k: nat)
    requires TendersValid(ts) && k < |ts|
    ensures TenderWithCode(ts, ts[k].code) == Some(k)
  {
  }
}
