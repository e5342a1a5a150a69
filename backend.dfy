/** The account and import rules of backend/app.py: password hashing, the
    mapping of token-decoding outcomes to HTTP errors, sign-up, login, the
    token-verification and refresh endpoints, and the row filter of the
    spreadsheet import.

    The user table is a sequence of rows in table order, and a query's
    `.first()` is the first matching row. SHA-256, token creation (which
    reads the clock), token decoding, `uuid4`, pandas' file parsing and
    Python's `float` are parameters: their outcomes are inputs. */
module Backend {
  import opened Common

  // ---------------------------------------------------------------------
  // HTTP errors
  // ---------------------------------------------------------------------

  datatype HttpError = HttpError(status: int, detail: string)

  const EmailTakenText := "Email already registered"
  const BadCredentialsText := "Invalid email or password"
  const InvalidTokenText := "Invalid token"
  const TokenExpiredText := "Token expired"
  const InvalidRefreshText := "Invalid refresh token"
  const RefreshExpiredText := "Refresh token expired"
  const UserNotFoundText := "User not found"
  const UnsupportedFileText := "Only .csv and .xlsx files are supported"
  const NoValidDataText := "No valid data found in file"

  // ---------------------------------------------------------------------
  // Passwords
  // ---------------------------------------------------------------------

  /** `hash_password`: the hex digest of the password under `sha`. */
  function HashPassword(password: string, sha: string -> string): string {
    sha(password)
  }

  /** `verify_password`: the plain password hashes to the stored hash. */
  function VerifyPassword(plain: string, hashed: string, sha: string -> string): bool {
    HashPassword(plain, sha) == hashed
  }

  /** Every password verifies against its own hash, and a password verifies
      against a stored hash only if hashing it gives that hash. */
  lemma PasswordRoundTrip(password: string, hashed: string, sha: string -> string)
    ensures VerifyPassword(password, HashPassword(password, sha), sha)
    ensures VerifyPassword(password, hashed, sha) <==> hashed == sha(password)
  {
  }

  // ---------------------------------------------------------------------
  // Tokens
  // ---------------------------------------------------------------------

  /** What `jwt.decode` makes of a bearer token: a payload (with or without
      a "sub" claim), an expired signature, or any other decoding error. */
  datatype Decoded = Payload(sub: Option<string>) | Expired | Undecodable

  /** `verify_token` and `verify_refresh_token`: the user id of the "sub"
      claim, or a 401 whose detail is the expiry text for an expired token
      and the invalid text for every other failure. */
  function CheckToken(d: Decoded, invalidText: string, expiredText: string): (r: Result<string, HttpError>)
    ensures r.Ok? <==> d.Payload? && d.sub.Some?
    ensures r.Ok? ==> r.value == d.sub.value
    ensures r.Err? ==> r.error.status == 401
    ensures r.Err? ==> r.error.detail == (if d.Expired? then expiredText else invalidText)
  {
    match d
    case Payload(sub) =>
      if sub.None? then Err(HttpError(401, invalidText)) else Ok(sub.value)
    case Expired => Err(HttpError(401, expiredText))
    case Undecodable => Err(HttpError(401, invalidText))
  }

  function VerifyToken(d: Decoded): Result<string, HttpError> {
    CheckToken(d, InvalidTokenText, TokenExpiredText)
  }

  function VerifyRefreshToken(d: Decoded): Result<string, HttpError> {
    CheckToken(d, InvalidRefreshText, RefreshExpiredText)
  }

  /** The access-token check says "Token expired" only for an expired
      token; a token without a subject and an undecodable one get the same
      "Invalid token". */
  lemma AccessTokenErrors(d: Decoded)
    ensures VerifyToken(d).Err? ==> VerifyToken(d).error.status == 401
    ensures VerifyToken(d) == Err(HttpError(401, TokenExpiredText)) <==> d.Expired?
    ensures VerifyToken(d) == Err(HttpError(401, InvalidTokenText)) <==> d.Undecodable? || d == Payload(None)
  {
  }

  // ---------------------------------------------------------------------
  // The user table
  // ---------------------------------------------------------------------

  /** A row of the user table; `password` is the stored hash. */
  datatype UserRow = UserRow(id: string, name: string, email: string, password: string, role: string)

  /** The body of a successful sign-up, login or refresh. */
  datatype UserResponse = UserResponse(id: string, name: string, email: string, role: string, accessToken: string, refreshToken: string)

  /** The body of a successful token verification. */
  datatype UserInfo = UserInfo(id: string, name: string, email: string, role: string)

  datatype SignupRequest = SignupRequest(name: string, email: string, password: string, role: string)

  datatype LoginRequest = LoginRequest(email: string, password: string)

  /** The two columns the endpoints look users up by. */
  datatype Column = ByEmail | ById

  /** The value of a row in a lookup column. */
  function KeyOf(c: Column, u: UserRow): string {
    match c
    case ByEmail => u.email
    case ById => u.id
  }

  /** `db.query(User).filter(column == key).first()`: the first row whose
      cell in the column is the key, if any. */
  function FindFirst(rows: seq<UserRow>, c: Column, key: string): (r: Option<UserRow>)
    ensures r.None? <==> forall i :: 0 <= i < |rows| ==> KeyOf(c, rows[i]) != key
    ensures r.Some? ==> r.value in rows && KeyOf(c, r.value) == key
  {
    if rows == [] then None
    else if KeyOf(c, rows[0]) == key then Some(rows[0])
    else FindFirst(rows[1..], c, key)
  }

  /** A row appended after rows with other keys is the one found. */
  lemma {:induction false} FindAppended(rows: seq<UserRow>, c: Column, row: UserRow)
    requires forall i :: 0 <= i < |rows| ==> KeyOf(c, rows[i]) != KeyOf(c, row)
    ensures FindFirst(rows + [row], c, KeyOf(c, row)) == Some(row)
  {
    if rows != [] {
      assert (rows + [row])[1..] == rows[1..] + [row];
      FindAppended(rows[1..], c, row);
    }
  }

  /** No two rows share an email. */
  ghost predicate EmailsUnique(rows: seq<UserRow>) {
    forall i, j :: 0 <= i < j < |rows| ==> rows[i].email != rows[j].email
  }

  /** `login`: the account of the email when the password verifies against
      its stored hash, with fresh tokens for its id; otherwise 401 with one
      and the same detail, whether the email is unknown or the password
      wrong. */
  function Login(rows: seq<UserRow>, creds: LoginRequest, sha: string -> string,
                 accessToken: string -> string, refreshToken: string -> string): (r: Result<UserResponse, HttpError>)
    ensures r.Err? <==>
      (forall i :: 0 <= i < |rows| ==> rows[i].email != creds.email)
      || FindFirst(rows, ByEmail, creds.email).value.password != sha(creds.password)
    ensures r.Err? ==> r.error == HttpError(401, BadCredentialsText)
    ensures r.Ok? ==>
      exists i :: 0 <= i < |rows| && rows[i].email == creds.email && rows[i].password == sha(creds.password)
        && r.value == UserResponse(rows[i].id, rows[i].name, rows[i].email, rows[i].role,
                                   accessToken(rows[i].id), refreshToken(rows[i].id))
  {
    var user := FindFirst(rows, ByEmail, creds.email);
    if user.None? || !VerifyPassword(creds.password, user.value.password, sha) then
      Err(HttpError(401, BadCredentialsText))
    else
      var u := user.value;
      Ok(UserResponse(u.id, u.name, u.email, u.role, accessToken(u.id), refreshToken(u.id)))
  }

  /** `verify_token_endpoint`: the token's user, a token error as it is, or
      404 when no row carries the token's id. */
  function VerifyTokenEndpoint(rows: seq<UserRow>, d: Decoded): (r: Result<UserInfo, HttpError>)
    ensures VerifyToken(d).Err? ==> r == Err(VerifyToken(d).error)
    ensures VerifyToken(d).Ok? ==>
      var id := VerifyToken(d).value;
      && (r.Err? <==> forall i :: 0 <= i < |rows| ==> rows[i].id != id)
      && (r.Err? ==> r.error == HttpError(404, UserNotFoundText))
      && (r.Ok? ==> exists i :: 0 <= i < |rows| && rows[i].id == id
                       && r.value == UserInfo(rows[i].id, rows[i].name, rows[i].email, rows[i].role))
  {
    match VerifyToken(d)
    case Err(e) => Err(e)
    case Ok(id) =>
      var user := FindFirst(rows, ById, id);
      if user.None? then Err(HttpError(404, UserNotFoundText))
      else Ok(UserInfo(user.value.id, user.value.name, user.value.email, user.value.role))
  }

  /** `refresh_token`: for a valid refresh token of an existing user, the
      user with a new access token and the same refresh token; a
      refresh-token error as it is, or 404 for an unknown id. */
  function Refresh(rows: seq<UserRow>, presented: string, d: Decoded, accessToken: string -> string): (r: Result<UserResponse, HttpError>)
    ensures VerifyRefreshToken(d).Err? ==> r == Err(VerifyRefreshToken(d).error)
    ensures VerifyRefreshToken(d).Ok? ==>
      var id := VerifyRefreshToken(d).value;
      && (r.Err? <==> forall i :: 0 <= i < |rows| ==> rows[i].id != id)
      && (r.Err? ==> r.error == HttpError(404, UserNotFoundText))
      && (r.Ok? ==> exists i :: 0 <= i < |rows| && rows[i].id == id
                       && r.value == UserResponse(rows[i].id, rows[i].name, rows[i].email, rows[i].role, accessToken(id), presented))
  {
    match VerifyRefreshToken(d)
    case Err(e) => Err(e)
    case Ok(id) =>
      var user := FindFirst(rows, ById, id);
      if user.None? then Err(HttpError(404, UserNotFoundText))
      else
        var u := user.value;
        Ok(UserResponse(u.id, u.name, u.email, u.role, accessToken(u.id), presented))
  }

  class UserTable {
    var rows: seq<UserRow>

    constructor(initial: seq<UserRow>)
      ensures rows == initial
    {
      rows := initial;
    }

    /** `signup`: a taken email is refused with 400 and the table is left
        as it is; otherwise exactly one row is appended, with the new id,
        the given name, email and role and the hash of the password, and the
        response carries the same fields and tokens for the new id. */
    method Signup(data: SignupRequest, newId: string, sha: string -> string,
                  accessToken: string -> string, refreshToken: string -> string)
      returns (r: Result<UserResponse, HttpError>)
      modifies this
      ensures FindFirst(old(rows), ByEmail, data.email).Some? <==> r.Err?
      ensures r.Err? ==> r.error == HttpError(400, EmailTakenText) && rows == old(rows)
      ensures r.Ok? ==>
        && rows == old(rows) + [UserRow(newId, data.name, data.email, HashPassword(data.password, sha), data.role)]
        && r.value == UserResponse(newId, data.name, data.email, data.role, accessToken(newId), refreshToken(newId))
    {
      if FindFirst(rows, ByEmail, data.email).Some? {
        return Err(HttpError(400, EmailTakenText));
      }
      var hashed := HashPassword(data.password, sha);
      rows := rows + [UserRow(newId, data.name, data.email, hashed, data.role)];
      r := Ok(UserResponse(newId, data.name, data.email, data.role, accessToken(newId), refreshToken(newId)));
    }
  }

  /** Sign-up keeps emails unique, and the account it creates can log in at
      once with the same password: login answers with the new account's id,
      name, email and role. The tokens are left out of the comparison: in
      the service they carry an expiry time taken from the clock, so they
      differ between the two calls. */
  method SignupThenLogin(table: UserTable, data: SignupRequest, newId: string, sha: string -> string,
                         accessToken: string -> string, refreshToken: string -> string)
    returns (signedUp: Result<UserResponse, HttpError>, loggedIn: Result<UserResponse, HttpError>)
    requires EmailsUnique(table.rows)
    modifies table
    ensures EmailsUnique(table.rows)
    ensures signedUp.Ok? ==> loggedIn.Ok?
    ensures signedUp.Ok? ==>
      && loggedIn.value.id == signedUp.value.id && loggedIn.value.name == signedUp.value.name
      && loggedIn.value.email == signedUp.value.email && loggedIn.value.role == signedUp.value.role
    ensures signedUp.Err? ==> table.rows == old(table.rows)
  {
    signedUp := table.Signup(data, newId, sha, accessToken, refreshToken);
    if signedUp.Ok? {
      var row := UserRow(newId, data.name, data.email, HashPassword(data.password, sha), data.role);
      FindAppended(old(table.rows), ByEmail, row);
    }
    loggedIn := Login(table.rows, LoginRequest(data.email, data.password), sha, accessToken, refreshToken);
  }

  // ---------------------------------------------------------------------
  // Spreadsheet import
  // ---------------------------------------------------------------------

  /** A spreadsheet row: the cells present, by column name, as text. */
  type Row = map<string, string>

  /** A converted row; `value` and `target` are the numbers Python's
      `float` gives. */
  datatype QualityData = QualityData(timestamp: string, metricName: string, value: real, target: real,
                                     unit: string, process: string, operator: string, notes: string)

  /** What pandas makes of the upload: the rows, or the error text. */
  datatype Frame = Rows(rows: seq<Row>) | ParseError(text: string)

  datatype ImportResponse = ImportResponse(success: bool, message: string, importedRows: nat, sampleData: seq<QualityData>)

  predicate EndsWith(s: string, suffix: string) {
    |suffix| <= |s| && s[|s| - |suffix|..] == suffix
  }

  /** `row.get(key, default)`. */
  function Cell(row: Row, key: string, default: string): string {
    if key in row then row[key] else default
  }

  /** The conversion of one row: missing text cells take their defaults
      (the current time, "Unknown", the empty string), missing numbers are
      0, and the row is skipped when `value` or `target` is not a number. */
  function Convert(row: Row, now: string, toFloat: string -> Option<real>): (q: Option<QualityData>)
    ensures q.Some? <==>
      ("value" in row ==> toFloat(row["value"]).Some?) && ("target" in row ==> toFloat(row["target"]).Some?)
    ensures q.Some? ==> q.value.metricName == Cell(row, "metric_name", "Unknown") && q.value.timestamp == Cell(row, "timestamp", now)
    ensures q.Some? ==>
      && q.value.value == (if "value" in row then toFloat(row["value"]).value else 0.0)
      && q.value.target == (if "target" in row then toFloat(row["target"]).value else 0.0)
    ensures q.Some? ==>
      && q.value.unit == Cell(row, "unit", "") && q.value.process == Cell(row, "process", "")
      && q.value.operator == Cell(row, "operator", "") && q.value.notes == Cell(row, "notes", "")
  {
    var value := if "value" in row then toFloat(row["value"]) else Some(0.0);
    var target := if "target" in row then toFloat(row["target"]) else Some(0.0);
    if value.None? || target.None? then None
    else Some(QualityData(Cell(row, "timestamp", now), Cell(row, "metric_name", "Unknown"), value.value, target.value,
                          Cell(row, "unit", ""), Cell(row, "process", ""), Cell(row, "operator", ""), Cell(row, "notes", "")))
  }

  /** The converted rows, in order, without the skipped ones. */
  function ConvertAll(rows: seq<Row>, now: string, toFloat: string -> Option<real>): seq<QualityData> {
    if rows == [] then []
    else
      var last := rows[|rows| - 1];
      var c := Convert(last, now, toFloat);
      ConvertAll(rows[..|rows| - 1], now, toFloat) + (if c.Some? then [c.value] else [])
  }

  /** The number of rows that convert. */
  function ValidCount(rows: seq<Row>, now: string, toFloat: string -> Option<real>): nat {
    if rows == [] then 0
    else ValidCount(rows[..|rows| - 1], now, toFloat) + (if Convert(rows[|rows| - 1], now, toFloat).Some? then 1 else 0)
  }

  /** One record per convertible row, none for the others. */
  lemma {:induction false} ConvertAllCount(rows: seq<Row>, now: string, toFloat: string -> Option<real>)
    ensures |ConvertAll(rows, now, toFloat)| == ValidCount(rows, now, toFloat) <= |rows|
    ensures forall q :: q in ConvertAll(rows, now, toFloat) ==> exists i :: 0 <= i < |rows| && Convert(rows[i], now, toFloat) == Some(q)
  {
    if rows != [] {
      var init := rows[..|rows| - 1];
      ConvertAllCount(init, now, toFloat);
      forall q | q in ConvertAll(rows, now, toFloat)
        ensures exists i :: 0 <= i < |rows| && Convert(rows[i], now, toFloat) == Some(q)
      {
        if q in ConvertAll(init, now, toFloat) {
          var i :| 0 <= i < |init| && Convert(init[i], now, toFloat) == Some(q);
          assert rows[i] == init[i];
        } else {
          assert Convert(rows[|rows| - 1], now, toFloat) == Some(q);
        }
      }
    }
  }

  function Min(a: nat, b: nat): nat {
    if a < b then a else b
  }

  function ImportMessage(n: nat): string {
    "Successfully imported " + NatToString(n) + " quality data records"
  }

  /** `import_excel_data`: an upload whose name ends neither in ".csv" nor
      in ".xlsx" is refused, a parse failure is reported with its text, and
      otherwise every row is converted in order, the unconvertible ones
      skipped. No record at all is a 400; otherwise the response counts the
      records, says so in its message, and samples the first (at most) five.
      The WebSocket broadcast written after the `return` is never reached,
      so no import update is sent. */
  method ImportExcel(filename: string, frame: Frame, now: string, toFloat: string -> Option<real>)
    returns (r: Result<ImportResponse, HttpError>)
    ensures !(EndsWith(filename, ".csv") || EndsWith(filename, ".xlsx")) ==> r == Err(HttpError(400, UnsupportedFileText))
    ensures (EndsWith(filename, ".csv") || EndsWith(filename, ".xlsx")) && frame.ParseError? ==>
      r == Err(HttpError(400, "File parse error: " + frame.text))
    ensures (EndsWith(filename, ".csv") || EndsWith(filename, ".xlsx")) && frame.Rows? ==>
      var data := ConvertAll(frame.rows, now, toFloat);
      && (r.Err? <==> data == [])
      && (r.Err? ==> r.error == HttpError(400, NoValidDataText))
      && (r.Ok? ==> r.value == ImportResponse(true, ImportMessage(|data|), |data|, data[..Min(5, |data|)]))
  {
    if !(EndsWith(filename, ".csv") || EndsWith(filename, ".xlsx")) {
      return Err(HttpError(400, UnsupportedFileText));
    }
    if frame.ParseError? {
      return Err(HttpError(400, "File parse error: " + frame.text));
    }
    var rows := frame.rows;
    var imported: seq<QualityData> := [];
    var i := 0;
    while i < |rows|
      invariant 0 <= i <= |rows|
      invariant imported == ConvertAll(rows[..i], now, toFloat)
    {
      assert rows[..i + 1][..i] == rows[..i];
      var q := Convert(rows[i], now, toFloat);
      if q.Some? {
        imported := imported + [q.value];
      }
      i := i + 1;
    }
    assert rows[..|rows|] == rows;
    if imported == [] {
      return Err(HttpError(400, NoValidDataText));
    }
    var n := |imported|;
    r := Ok(ImportResponse(true, ImportMessage(n), n, imported[..Min(5, n)]));
  }

  /** The import message states the number of imported records in decimal. */
  lemma ImportMessageStatesCount(n: nat)
    ensures var m := ImportMessage(n);
      var digits := m[|"Successfully imported "|..|m| - |" quality data records"|];
      digits == NatToString(n) && DecimalValue(digits) == n
  {
    NatToStringValue(n);
  }
}
