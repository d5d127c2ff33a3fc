/** The request dependencies of `app/dependencies.py`: resolve a bearer token to a
    row of `users`, and the role gates in front of the patient and admin endpoints.
    Token decoding is the caller-supplied `decode`, which yields the claims or
    nothing for a token that does not verify. */
module Dependencies {
  import opened Errors
  import opened Models
  import opened Users

  /** The claims of a decoded access token. */
  type Claims = map<string, string>

  const InvalidCredentials := HttpError(Unauthorized, "Invalid authentication credentials")
  const UserNotFound := HttpError(Unauthorized, "User not found")
  const PatientsOnly := HttpError(Forbidden, "Only patients can access this endpoint")
  const AdminsOnly := HttpError(Forbidden, "Only admins can access this endpoint")

  /** `get_current_user`: the row whose e-mail is the token's "sub" claim; 401 when
      the token does not decode, has no "sub", or names nobody. */
  function GetCurrentUser(users: seq<User>, decode: string -> Option<Claims>, token: string): (r: Result<User>)
    ensures decode(token).None? ==> r == Fail(InvalidCredentials)
    ensures decode(token).Some? && "sub" !in decode(token).value ==> r == Fail(InvalidCredentials)
    ensures (decode(token).Some? && "sub" in decode(token).value
             && FindByEmail(users, decode(token).value["sub"]).None?) ==> r == Fail(UserNotFound)
    ensures r.Fail? ==> r.error.status == Unauthorized
    ensures r.Ok? <==>
      decode(token).Some? && "sub" in decode(token).value &&
      exists u :: u in users && u.email == decode(token).value["sub"]
    ensures r.Ok? ==> r.value in users && r.value.email == decode(token).value["sub"]
  {
    match decode(token)
    case None => Fail(InvalidCredentials)
    case Some(payload) =>
      if "sub" !in payload then Fail(InvalidCredentials)
      else
        match FindByEmail(users, payload["sub"])
        case None => Fail(UserNotFound)
        case Some(user) => Ok(user)
  }

  /** `get_current_patient`: passes the user through unchanged when the role is PATIENT, else 403. */
  function GetCurrentPatient(current: User): (r: Result<User>)
    ensures r.Ok? <==> current.role.Value() == "PATIENT"
    ensures r.Ok? ==> r.value == current
    ensures r.Fail? ==> r.error == PatientsOnly
  {
    if current.role != Patient then Fail(PatientsOnly) else Ok(current)
  }

  /** `get_current_admin`: passes the user through unchanged when the role is ADMIN, else 403. */
  function GetCurrentAdmin(current: User): (r: Result<User>)
    ensures r.Ok? <==> current.role.Value() == "ADMIN"
    ensures r.Ok? ==> r.value == current
    ensures r.Fail? ==> r.error == AdminsOnly
  {
    if current.role != Admin then Fail(AdminsOnly) else Ok(current)
  }

  /** Every user passes exactly one of the two role gates. */
  lemma GatesPartitionUsers(current: User)
    ensures GetCurrentPatient(current).Ok? != GetCurrentAdmin(current).Ok?
  {
  }

  /** `get_current_user_optional`: no credentials, or any authentication failure,
      gives no user; otherwise the user `get_current_user` resolves. */
  function GetCurrentUserOptional(users: seq<User>, decode: string -> Option<Claims>, credentials: Option<string>)
    : (r: Option<User>)
    ensures credentials.None? ==> r.None?
    ensures credentials.Some? ==>
      (r.Some? <==> GetCurrentUser(users, decode, credentials.value).Ok?)
    ensures r.Some? ==> r.value == GetCurrentUser(users, decode, credentials.value).value
  {
    match credentials
    case None => None
    case Some(token) =>
      match GetCurrentUser(users, decode, token)
      case Fail(_) => None
      case Ok(user) => Some(user)
  }

  /** With unique e-mails, a token naming a user's e-mail resolves to exactly that user. */
  lemma TokenResolvesToItsUser(users: seq<User>, decode: string -> Option<Claims>, token: string, u: User)
    requires EmailsUnique(users)
    requires u in users
    requires decode(token).Some? && "sub" in decode(token).value && decode(token).value["sub"] == u.email
    ensures GetCurrentUser(users, decode, token) == Ok(u)
  {
    FindByEmailFindsTheRow(users, u);
  }
}
