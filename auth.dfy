/** The authenticator of src/lib/auth.ts: student login (register number and bcrypt
    password), admin login (shared passkey), token verification and the public user
    projection. The user store, bcrypt and jsonwebtoken are outside the model: they
    are the fields of `Oracles`, and every proof below is about the control flow that
    calls them. */
module Auth {
  import opened Wrappers

  // ---------------------------------------------------------------------------
  // Rows, users, claims

  /** A row of the `users` table, password hash included. */
  datatype DbUser = DbUser(
    id: string,
    registerNumber: string,
    name: string,
    email: string,
    password: string,
    dateOfBirth: Option<string>,
    role: string,
    createdAt: string,
    updatedAt: string)

  /** The public view of a user handed back to clients: it has no password field. */
  datatype User = User(
    id: string,
    registerNumber: string,
    name: string,
    email: string,
    role: string,
    dateOfBirth: Option<string>)

  /** The claims put into a session token when it is signed. */
  datatype Claims = Claims(userId: string, registerNumber: string, role: string)

  /** A verified token's payload as read back: any claim may be missing (or not a string). */
  datatype Payload = Payload(userId: Option<string>, registerNumber: Option<string>, role: Option<string>)

  /** What `authenticateStudent` / `authenticateAdmin` resolve to: the record
      `{success, user?, token?, error?}` with its optional fields. */
  datatype AuthResponse = AuthResponse(
    success: bool,
    user: Option<User>,
    token: Option<string>,
    error: Option<string>)

  /** What `verifyToken` returns: `{valid, payload?}`. */
  datatype Verification = Verification(valid: bool, payload: Option<Payload>)

  const StudentRole: string := "student"
  const AdminRole: string := "admin"

  /** The `expiresIn` option given to `jwt.sign`: twenty-four hours. */
  const TokenExpiresIn: string := "24h"
  /** The same lifetime in seconds. */
  const TokenLifetimeSeconds: nat := 24 * 60 * 60
  /** bcrypt cost factor (`saltRounds`) used by `hashPassword`. */
  const SaltRounds: nat := 12

  const StudentNotFound: string := "Invalid registration number or user not found"
  const InvalidPassword: string := "Invalid password"
  const StudentAuthFailed: string := "Authentication failed"
  const InvalidPasskey: string := "Invalid admin passkey"
  const AdminNotFound: string := "Admin user not found"
  const AdminAuthFailed: string := "Admin authentication failed"

  // ---------------------------------------------------------------------------
  // Queries against the users table

  /** One `.eq(column, value)` filter. A value of `undefined` is modelled as matching
      no row: the query builder sends it as the text "undefined", which no `id` of the
      table is taken to equal. */
  datatype Filter = Eq(column: string, value: Option<string>)

  /** A query is the conjunction of its filters, answered with `.single()`. */
  type Query = seq<Filter>

  /** The value a row holds in a named column (`None` for SQL null or an unknown column). */
  function Column(row: DbUser, column: string): Option<string> {
    match column
    case "id" => Some(row.id)
    case "register_number" => Some(row.registerNumber)
    case "name" => Some(row.name)
    case "email" => Some(row.email)
    case "password" => Some(row.password)
    case "date_of_birth" => row.dateOfBirth
    case "role" => Some(row.role)
    case "created_at" => Some(row.createdAt)
    case "updated_at" => Some(row.updatedAt)
    case _ => None
  }

  predicate Holds(row: DbUser, f: Filter) {
    f.value.Some? && Column(row, f.column) == f.value
  }

  /** Whether a row satisfies every filter of a query, checked filter by filter. */
  function Matches(row: DbUser, q: Query): bool
    decreases q
  {
    if q == [] then true else Holds(row, q[0]) && Matches(row, q[1..])
  }

  lemma {:induction false} MatchesEveryFilter(row: DbUser, q: Query)
    ensures Matches(row, q) <==> forall i :: 0 <= i < |q| ==> Holds(row, q[i])
    decreases q
  {
    if q != [] {
      MatchesEveryFilter(row, q[1..]);
      assert forall i :: 1 <= i < |q| ==> q[i] == q[1..][i - 1];
    }
  }

  /** `.eq('register_number', registerNumber).eq('role', 'student')` */
  function StudentQuery(registerNumber: string): Query {
    [Eq("register_number", Some(registerNumber)), Eq("role", Some(StudentRole))]
  }

  /** `.eq('role', 'admin')` */
  function AdminQuery(): Query {
    [Eq("role", Some(AdminRole))]
  }

  /** `.eq('id', userId)` */
  function IdQuery(userId: Option<string>): Query {
    [Eq("id", userId)]
  }

  // ---------------------------------------------------------------------------
  // The code outside the model

  /** The foreign calls the authenticator makes. `lookup` runs a `.single()` query
      and yields no row when the store reports an error or finds nothing; `compare`
      is `bcrypt.compare(plain, hash)`; `hash` is `bcrypt.hash(plain, rounds)`;
      `sign` is `jwt.sign(claims, JWT_SECRET, {expiresIn})` and `verify` is
      `jwt.verify(token, JWT_SECRET)`, the clock and the secret folded in. */
  datatype Oracles = Oracles(
    lookup: Query -> Fallible<Option<DbUser>>,
    compare: (string, string) -> Fallible<bool>,
    hash: (string, nat) -> Fallible<string>,
    sign: (Claims, string) -> Fallible<string>,
    verify: string -> Fallible<Payload>)

  /** The row a lookup produced, if it produced one. */
  function Found(o: Oracles, q: Query): Option<DbUser> {
    match o.lookup(q)
    case Returned(Some(row)) => Some(row)
    case _ => None
  }

  /** The store answers query `q` honestly: a row it returns satisfies the filters. */
  predicate StoreAnswers(o: Oracles, q: Query) {
    Found(o, q).Some? ==> Matches(Found(o, q).value, q)
  }

  /** jsonwebtoken reads back what it signed: a token produced for claims `c` is a
      non-empty string that verifies (within its lifetime) to exactly those claims. */
  predicate CodecReadsBack(o: Oracles, c: Claims) {
    o.sign(c, TokenExpiresIn).Returned? ==>
      o.sign(c, TokenExpiresIn).value != ""
      && o.verify(o.sign(c, TokenExpiresIn).value) == Returned(PayloadOf(c))
  }

  // ---------------------------------------------------------------------------
  // Projections

  /** The public user built from a row: every column but the password and timestamps. */
  function ToUser(row: DbUser): User {
    User(row.id, row.registerNumber, row.name, row.email, row.role, row.dateOfBirth)
  }

  /** Two rows agree on every column a client may see. */
  predicate SamePublicColumns(a: DbUser, b: DbUser) {
    a.id == b.id && a.registerNumber == b.registerNumber && a.name == b.name
    && a.email == b.email && a.role == b.role && a.dateOfBirth == b.dateOfBirth
  }

  /** The projection is determined by the public columns and by nothing else: in
      particular the password hash never reaches it. */
  lemma ToUserKeepsPublicColumnsOnly(a: DbUser, b: DbUser)
    ensures ToUser(a) == ToUser(b) <==> SamePublicColumns(a, b)
    ensures ToUser(a) == ToUser(a.(password := b.password))
  {
  }

  /** The claims signed for a row. */
  function ClaimsOf(row: DbUser): Claims {
    Claims(row.id, row.registerNumber, row.role)
  }

  /** The payload a correctly signed token decodes to: all three claims present. */
  function PayloadOf(c: Claims): Payload {
    Payload(Some(c.userId), Some(c.registerNumber), Some(c.role))
  }

  // ---------------------------------------------------------------------------
  // Responses

  function Failure(message: string): AuthResponse {
    AuthResponse(false, None, None, Some(message))
  }

  function Success(user: User, token: string): AuthResponse {
    AuthResponse(true, Some(user), Some(token), None)
  }

  /** A success carries a user and a token and no error; a failure carries an
      error and neither a user nor a token. */
  predicate WellFormed(r: AuthResponse) {
    if r.success then r.user.Some? && r.token.Some? && r.error.None?
    else r.user.None? && r.token.None? && r.error.Some?
  }

  // ---------------------------------------------------------------------------
  // authenticateStudent

  /** Logs a student in: find the student row for the register number, check the
      password against its bcrypt hash, sign the row's claims for 24 hours. */
  function AuthenticateStudent(registerNumber: string, password: string, o: Oracles): (r: AuthResponse)
    ensures WellFormed(r)
    ensures
      var row := Found(o, StudentQuery(registerNumber));
      r.success <==>
        row.Some? && o.compare(password, row.value.password) == Returned(true)
        && o.sign(ClaimsOf(row.value), TokenExpiresIn).Returned?
    ensures
      var row := Found(o, StudentQuery(registerNumber));
      r.success ==>
        r.user == Some(ToUser(row.value))
        && o.sign(ClaimsOf(row.value), TokenExpiresIn) == Returned(r.token.value)
  {
    match o.lookup(StudentQuery(registerNumber))
    case Threw => Failure(StudentAuthFailed)
    case Returned(None) => Failure(StudentNotFound)
    case Returned(Some(row)) =>
      match o.compare(password, row.password)
      case Threw => Failure(StudentAuthFailed)
      case Returned(false) => Failure(InvalidPassword)
      case Returned(true) =>
        match o.sign(ClaimsOf(row), TokenExpiresIn)
        case Threw => Failure(StudentAuthFailed)
        case Returned(token) => Success(ToUser(row), token)
  }

  /** Which message each failure carries: no row means "not found" (before any
      password check), a rejected password means "Invalid password", and a thrown
      error anywhere means the generic "Authentication failed". */
  lemma StudentFailureMessages(registerNumber: string, password: string, o: Oracles)
    ensures o.lookup(StudentQuery(registerNumber)) == Returned(None) ==>
      AuthenticateStudent(registerNumber, password, o).error == Some(StudentNotFound)
    ensures o.lookup(StudentQuery(registerNumber)) == Threw ==>
      AuthenticateStudent(registerNumber, password, o).error == Some(StudentAuthFailed)
    ensures
      var row := Found(o, StudentQuery(registerNumber));
      row.Some? && o.compare(password, row.value.password) == Returned(false) ==>
        AuthenticateStudent(registerNumber, password, o).error == Some(InvalidPassword)
    ensures
      var row := Found(o, StudentQuery(registerNumber));
      row.Some? && o.compare(password, row.value.password) == Threw ==>
        AuthenticateStudent(registerNumber, password, o).error == Some(StudentAuthFailed)
    ensures
      var row := Found(o, StudentQuery(registerNumber));
      row.Some? && o.compare(password, row.value.password) == Returned(true)
      && o.sign(ClaimsOf(row.value), TokenExpiresIn) == Threw ==>
        AuthenticateStudent(registerNumber, password, o).error == Some(StudentAuthFailed)
  {
  }

  /** With an honest store, the claims a student login signs name the register number
      that was typed and the role "student". */
  lemma StudentClaimsAreStudent(registerNumber: string, password: string, o: Oracles)
    requires StoreAnswers(o, StudentQuery(registerNumber))
    requires AuthenticateStudent(registerNumber, password, o).success
    ensures
      var row := Found(o, StudentQuery(registerNumber)).value;
      ClaimsOf(row).registerNumber == registerNumber && ClaimsOf(row).role == StudentRole
      && AuthenticateStudent(registerNumber, password, o).user.value.role == StudentRole
  {
    var q := StudentQuery(registerNumber);
    var row := Found(o, q).value;
    MatchesEveryFilter(row, q);
    assert Holds(row, q[0]) && Holds(row, q[1]);
  }

  // ---------------------------------------------------------------------------
  // authenticateAdmin

  /** Logs the administrator in: the passkey must equal the configured ADMIN_PASSKEY
      (an unset variable matches nothing); then the single admin row is fetched and
      its claims signed for 24 hours. */
  function AuthenticateAdmin(passkey: string, adminPasskey: Option<string>, o: Oracles): (r: AuthResponse)
    ensures WellFormed(r)
    ensures adminPasskey != Some(passkey) ==> r == Failure(InvalidPasskey)
    ensures
      var row := Found(o, AdminQuery());
      r.success <==>
        adminPasskey == Some(passkey) && row.Some?
        && o.sign(ClaimsOf(row.value), TokenExpiresIn).Returned?
    ensures
      var row := Found(o, AdminQuery());
      r.success ==>
        r.user == Some(ToUser(row.value))
        && o.sign(ClaimsOf(row.value), TokenExpiresIn) == Returned(r.token.value)
  {
    if adminPasskey != Some(passkey) then Failure(InvalidPasskey)
    else
      match o.lookup(AdminQuery())
      case Threw => Failure(AdminAuthFailed)
      case Returned(None) => Failure(AdminNotFound)
      case Returned(Some(admin)) =>
        match o.sign(ClaimsOf(admin), TokenExpiresIn)
        case Threw => Failure(AdminAuthFailed)
        case Returned(token) => Success(ToUser(admin), token)
  }

  /** A wrong passkey is refused before the store or the signer is consulted: the
      answer is the same whatever they would have done. */
  lemma WrongPasskeyTouchesNothing(passkey: string, adminPasskey: Option<string>, o1: Oracles, o2: Oracles)
    requires adminPasskey != Some(passkey)
    ensures AuthenticateAdmin(passkey, adminPasskey, o1) == AuthenticateAdmin(passkey, adminPasskey, o2)
    ensures !AuthenticateAdmin(passkey, adminPasskey, o1).success
  {
  }

  /** With the right passkey, a missing admin row is "Admin user not found", and an
      error thrown by the lookup or by the signer is the generic admin failure. */
  lemma AdminFailureMessages(passkey: string, o: Oracles)
    ensures o.lookup(AdminQuery()) == Returned(None) ==>
      AuthenticateAdmin(passkey, Some(passkey), o).error == Some(AdminNotFound)
    ensures o.lookup(AdminQuery()) == Threw ==>
      AuthenticateAdmin(passkey, Some(passkey), o).error == Some(AdminAuthFailed)
    ensures Found(o, AdminQuery()).Some? && o.sign(ClaimsOf(Found(o, AdminQuery()).value), TokenExpiresIn) == Threw ==>
      AuthenticateAdmin(passkey, Some(passkey), o).error == Some(AdminAuthFailed)
  {
  }

  /** With an honest store, an admin login's claims carry the role "admin". */
  lemma AdminClaimsAreAdmin(passkey: string, adminPasskey: Option<string>, o: Oracles)
    requires StoreAnswers(o, AdminQuery())
    requires AuthenticateAdmin(passkey, adminPasskey, o).success
    ensures ClaimsOf(Found(o, AdminQuery()).value).role == AdminRole
  {
    var row := Found(o, AdminQuery()).value;
    MatchesEveryFilter(row, AdminQuery());
    assert Holds(row, AdminQuery()[0]);
  }

  // ---------------------------------------------------------------------------
  // verifyToken and hashPassword

  /** `verifyToken`: valid with the decoded payload when jsonwebtoken accepts the
      token, otherwise invalid with no payload. */
  function VerifyToken(token: string, verify: string -> Fallible<Payload>): (v: Verification)
    ensures v.valid <==> verify(token).Returned?
    ensures v.valid ==> v.payload == Some(verify(token).value)
    ensures !v.valid ==> v.payload.None?
  {
    match verify(token)
    case Returned(payload) => Verification(true, Some(payload))
    case Threw => Verification(false, None)
  }

  /** `hashPassword`: bcrypt with twelve salt rounds. */
  function HashPassword(password: string, o: Oracles): Fallible<string> {
    o.hash(password, SaltRounds)
  }

  /** A student whose stored hash came from `hashPassword(pw)` logs in with `pw`, provided
      bcrypt accepts a password against its own hash and the signer does not fail. */
  lemma HashedPasswordAuthenticates(registerNumber: string, password: string, o: Oracles)
    requires HashPassword(password, o).Returned?
    requires Found(o, StudentQuery(registerNumber)).Some?
    requires Found(o, StudentQuery(registerNumber)).value.password == HashPassword(password, o).value
    requires o.compare(password, HashPassword(password, o).value) == Returned(true)
    requires o.sign(ClaimsOf(Found(o, StudentQuery(registerNumber)).value), TokenExpiresIn).Returned?
    ensures AuthenticateStudent(registerNumber, password, o).success
  {
  }
}
