/**
 * The user-directory HTTP handlers as pure functions. The database is an
 * abstract input: the rows a query returned, or a failure carrying the
 * PostgreSQL SQLSTATE code (Appendix A of the PostgreSQL documentation) when
 * there is one. Each handler yields the HTTP status and JSON body it sends.
 */
module UserApi {
  import opened Wrappers
  import opened JsString

  datatype User = User(id: int, username: string, email: string)

  /** What the query returned: rows, or an error with an optional SQLSTATE `code`. */
  datatype DbOutcome = Rows(rows: seq<User>) | DbFailure(code: Option<string>)

  datatype Body =
    | UserList(users: seq<User>)
    | UserRecord(user: User)
    | ErrorMessage(error: string)
    | HealthStatus(status: string)

  datatype Response = Response(status: int, body: Body)

  datatype Endpoint = ListUsers | GetUser | UpdateUsername

  /**
   * The `username` member of the PUT request's JSON body: missing (or null),
   * a string, or some other JSON value, which JavaScript treats as truthy or
   * falsy (`0` and `false` are falsy).
   */
  datatype UsernameField = Absent | Text(s: string) | NonText(truthy: bool)

  /** The outcome of the PUT handler: the response, and the username value it sent to the database, if it sent an update. */
  datatype PutOutcome = PutOutcome(response: Response, update: Option<string>)

  // SQLSTATE codes the handlers recognise.
  const InvalidCatalogName := "3D000"
  const InvalidPassword := "28P01"
  const UndefinedTable := "42P01"
  const UniqueViolation := "23505"

  const DatabaseMissingMessage := "Database does not exist. Please run the database setup scripts first."
  const AuthFailedMessage := "Database authentication failed. Please check your .env file credentials."
  const TableMissingMessage := "Users table does not exist. Please run the schema.sql script."
  const DuplicateMessage := "Username already exists"
  const InternalMessage := "Internal server error"
  const NotFoundMessage := "User not found"
  const RequiredMessage := "Username is required"

  /**
   * The catch block of each endpoint. All three recognise a missing database
   * and failed authentication; the list and update endpoints also recognise
   * a missing table; only the update endpoint turns a unique violation into
   * a conflict. Everything else, including an error with no code, is a
   * generic internal error.
   */
  function StorageFailure(endpoint: Endpoint, code: Option<string>): (r: Response)
    ensures r.body.ErrorMessage?
    ensures r.status == 409 <==> endpoint == UpdateUsername && code == Some(UniqueViolation)
    ensures r.status != 409 ==> r.status == 500
    ensures code == Some(InvalidCatalogName) ==> r.body.error == DatabaseMissingMessage
    ensures code == Some(InvalidPassword) ==> r.body.error == AuthFailedMessage
    ensures code == Some(UndefinedTable) ==>
      r.body.error == (if endpoint == GetUser then InternalMessage else TableMissingMessage)
    ensures r.status == 409 ==> r.body.error == DuplicateMessage
    ensures code !in {Some(InvalidCatalogName), Some(InvalidPassword), Some(UndefinedTable)}
            && !(endpoint == UpdateUsername && code == Some(UniqueViolation)) ==>
      r.body.error == InternalMessage
  {
    if code == Some(InvalidCatalogName) then Response(500, ErrorMessage(DatabaseMissingMessage))
    else if code == Some(InvalidPassword) then Response(500, ErrorMessage(AuthFailedMessage))
    else if code == Some(UndefinedTable) && endpoint != GetUser then Response(500, ErrorMessage(TableMissingMessage))
    else if code == Some(UniqueViolation) && endpoint == UpdateUsername then Response(409, ErrorMessage(DuplicateMessage))
    else Response(500, ErrorMessage(InternalMessage))
  }

  /**
   * The list endpoint and the update endpoint agree on every storage error
   * except a unique violation; the by-id endpoint agrees with the list
   * endpoint on every storage error except a missing table, which it reports
   * as a generic internal error.
   */
  lemma EndpointFailuresAgree(code: Option<string>)
    ensures code != Some(UniqueViolation) ==> StorageFailure(UpdateUsername, code) == StorageFailure(ListUsers, code)
    ensures code != Some(UndefinedTable) ==> StorageFailure(GetUser, code) == StorageFailure(ListUsers, code)
    ensures StorageFailure(GetUser, Some(UndefinedTable)) == StorageFailure(GetUser, None)
    ensures StorageFailure(ListUsers, Some(UniqueViolation)) == StorageFailure(ListUsers, None)
  {
  }

  /** GET /api/users: every row on success, otherwise the mapped storage error. */
  function ListUsersHandler(db: DbOutcome): (r: Response)
    ensures r.status == 200 <==> db.Rows?
    ensures db.Rows? ==> r.body == UserList(db.rows)
    ensures db.DbFailure? ==> r == StorageFailure(ListUsers, db.code) && r.status == 500
  {
    match db
    case Rows(rows) => Response(200, UserList(rows))
    case DbFailure(code) => StorageFailure(ListUsers, code)
  }

  /** GET /api/users/:id: the first row, 404 when no row came back, otherwise the mapped storage error. */
  function GetUserHandler(db: DbOutcome): (r: Response)
    ensures r.status == 404 <==> db.Rows? && |db.rows| == 0
    ensures r.status == 404 ==> r.body == ErrorMessage(NotFoundMessage)
    ensures r.status == 200 <==> db.Rows? && |db.rows| > 0
    ensures r.status == 200 ==> r.body == UserRecord(db.rows[0])
    ensures db.DbFailure? ==> r == StorageFailure(GetUser, db.code) && r.status == 500
  {
    match db
    case Rows(rows) =>
      if |rows| == 0 then Response(404, ErrorMessage(NotFoundMessage))
      else Response(200, UserRecord(rows[0]))
    case DbFailure(code) => StorageFailure(GetUser, code)
  }

  /** The username is rejected before any update: it is missing, falsy, or blank once trimmed. */
  predicate UsernameRejected(u: UsernameField) {
    match u
    case Absent => true
    case NonText(truthy) => !truthy
    case Text(s) => AllWhiteSpace(s)
  }

  /**
   * PUT /api/users/:id/username. A missing, falsy or blank username is
   * refused with 400 and no update. A truthy non-string has no `trim`
   * method, so the call throws an error without a SQLSTATE code and the
   * handler answers with the generic 500, again with no update. Otherwise
   * the trimmed username is sent to the database and `db` is what came
   * back: the first row, 404 when no row matched, or the mapped storage
   * error.
   */
  function PutUsernameHandler(u: UsernameField, db: DbOutcome): (r: PutOutcome)
    ensures r.response.status == 400 <==> UsernameRejected(u)
    ensures r.response.status == 400 ==> r.response.body == ErrorMessage(RequiredMessage)
    ensures r.update.Some? <==> u.Text? && !AllWhiteSpace(u.s)
    ensures r.update.Some? ==> r.update.value == Trim(u.s) && IsTrimmed(r.update.value) && |r.update.value| > 0
    ensures u.NonText? && u.truthy ==> r.response == Response(500, ErrorMessage(InternalMessage))
    ensures r.update.Some? ==>
      && (r.response.status == 404 <==> db.Rows? && |db.rows| == 0)
      && (r.response.status == 200 <==> db.Rows? && |db.rows| > 0)
      && (r.response.status == 200 ==> r.response.body == UserRecord(db.rows[0]))
      && (r.response.status == 404 ==> r.response.body == ErrorMessage(NotFoundMessage))
      && (db.DbFailure? ==> r.response == StorageFailure(UpdateUsername, db.code))
  {
    match u
    case Absent => PutOutcome(Response(400, ErrorMessage(RequiredMessage)), None)
    case NonText(truthy) =>
      if !truthy then PutOutcome(Response(400, ErrorMessage(RequiredMessage)), None)
      else PutOutcome(StorageFailure(UpdateUsername, None), None)
    case Text(s) =>
      var name := Trim(s);
      if |s| == 0 || |name| == 0 then PutOutcome(Response(400, ErrorMessage(RequiredMessage)), None)
      else
        var response :=
          match db
          case Rows(rows) =>
            if |rows| == 0 then Response(404, ErrorMessage(NotFoundMessage))
            else Response(200, UserRecord(rows[0]))
          case DbFailure(code) => StorageFailure(UpdateUsername, code);
        PutOutcome(response, Some(name))
  }

  /**
   * When the database hands back the row it updated (`RETURNING`), the
   * username in a successful PUT response is the trimmed request value:
   * non-empty, with no white space at either end.
   */
  lemma PutReturnsTrimmedUsername(u: UsernameField, db: DbOutcome)
    ensures var r := PutUsernameHandler(u, db);
      r.response.status == 200 ==>
        && r.update.Some?
        && r.response.body.UserRecord?
        && (r.response.body.user.username == r.update.value ==>
              IsTrimmed(r.response.body.user.username) && |r.response.body.user.username| > 0)
  {
  }

  /** GET /health: always 200 with status "ok"; it never consults the database. */
  function HealthHandler(): (r: Response)
    ensures r.status == 200 && r.body == HealthStatus("ok")
  {
    Response(200, HealthStatus("ok"))
  }
}
