/** Registration and login of `app/routers/auth.py`. Password hashing, password
    verification and token creation are caller-supplied functions; any of them
    that raises is the `None` answer. */
module Auth {
  import opened Errors
  import opened Models
  import opened Users
  import opened Dependencies

  /** The login response. */
  datatype Token = Token(accessToken: string, tokenType: string)

  /** The columns registration answers with: the new row without its password hash. */
  datatype UserResponse = UserResponse(
    id: string, email: string, fullName: string, dateOfBirth: Option<Date>,
    gender: Option<string>, phoneNumber: Option<string>, role: UserRole, createdAt: int)

  function PublicView(u: User): UserResponse {
    UserResponse(u.id, u.email, u.fullName, u.dateOfBirth, u.gender, u.phoneNumber, u.role, u.createdAt)
  }

  const EmailAlreadyRegistered := HttpError(BadRequest, "Email already registered")
  const RegistrationFailed := HttpError(InternalServerError, "Registration failed")
  const IncorrectCredentials := HttpError(Unauthorized, "Incorrect email or password")
  const LoginFailed := HttpError(InternalServerError, "Login failed")

  /** The claims put into a user's access token. */
  function TokenClaims(u: User): Claims {
    map["sub" := u.email, "role" := u.role.Value()]
  }

  /** The `users` table as registration changes it. */
  class UserRegistry {
    var users: seq<User>

    ghost predicate Valid()
      reads this
    {
      EmailsUnique(users) && IdsUnique(users)
    }

    constructor ()
      ensures Valid() && users == []
    {
      users := [];
    }

    /** `register`: 400 if the e-mail is taken; otherwise store the password's hash
        and insert one row whose role is always PATIENT. A failing hash is a 500.
        Either failure leaves the table as it was. `newId` and `now` are the values
        the database generates. */
    method Register(reg: UserRegister, hash: string -> Option<string>, newId: string, now: int)
      returns (r: Result<UserResponse>)
      requires Valid()
      requires forall u :: u in users ==> u.id != newId
      modifies this
      ensures Valid()
      ensures FindByEmail(old(users), reg.email).Some? ==> r == Fail(EmailAlreadyRegistered)
      ensures r.Ok? <==> FindByEmail(old(users), reg.email).None? && hash(reg.password).Some?
      ensures r.Fail? ==> users == old(users)
      ensures r.Fail? && FindByEmail(old(users), reg.email).None? ==> r.error == RegistrationFailed
      ensures r.Ok? ==>
        && users == old(users) + [User(newId, reg.email, hash(reg.password).value, reg.fullName,
                                       Some(reg.dateOfBirth), Some(reg.gender.Value()), reg.phoneNumber,
                                       Patient, now)]
        && users[|old(users)|].role == Patient
        && users[|old(users)|].passwordHash == hash(reg.password).value
        && r.value == PublicView(users[|old(users)|])
    {
      var existing := FindByEmail(users, reg.email);
      if existing.Some? {
        return Fail(EmailAlreadyRegistered);
      }
      var hashed := hash(reg.password);
      if hashed.None? {
        return Fail(RegistrationFailed);
      }
      var user := User(newId, reg.email, hashed.value, reg.fullName,
                       Some(reg.dateOfBirth), Some(reg.gender.Value()), reg.phoneNumber,
                       Patient, now);
      AppendFreshEmail(users, user);
      users := users + [user];
      r := Ok(PublicView(user));
    }
  }

  /** `login`: the same 401 for an unknown e-mail and for a wrong password; on success
      a bearer token whose claims are the user's e-mail and stored role. A password
      check or token function that raises is a 500. */
  function Login(
    users: seq<User>, credentials: UserLogin,
    verify: (string, string) -> Option<bool>, createToken: Claims -> Option<string>)
    : (r: Result<Token>)
    ensures var found := FindByEmail(users, credentials.email);
      r == Fail(IncorrectCredentials) <==>
        found.None? || verify(credentials.password, found.value.passwordHash) == Some(false)
    ensures var found := FindByEmail(users, credentials.email);
      r == Fail(LoginFailed) <==>
        && found.Some?
        && (|| verify(credentials.password, found.value.passwordHash).None?
            || (verify(credentials.password, found.value.passwordHash) == Some(true)
                && createToken(TokenClaims(found.value)).None?))
    ensures var found := FindByEmail(users, credentials.email);
      r.Ok? <==>
        && found.Some?
        && verify(credentials.password, found.value.passwordHash) == Some(true)
        && createToken(TokenClaims(found.value)).Some?
    ensures var found := FindByEmail(users, credentials.email);
      r.Ok? ==>
        && found.value in users && found.value.email == credentials.email
        && r.value == Token(createToken(TokenClaims(found.value)).value, "bearer")
  {
    match FindByEmail(users, credentials.email)
    case None => Fail(IncorrectCredentials)
    case Some(user) =>
      match verify(credentials.password, user.passwordHash)
      case None => Fail(LoginFailed)
      case Some(false) => Fail(IncorrectCredentials)
      case Some(true) =>
        match createToken(TokenClaims(user))
        case None => Fail(LoginFailed)
        case Some(token) => Ok(Token(token, "bearer"))
  }

  /** A token issued by login authenticates as the user who logged in, given that
      decoding inverts token creation. */
  lemma LoginTokenAuthenticates(
    users: seq<User>, credentials: UserLogin,
    verify: (string, string) -> Option<bool>, createToken: Claims -> Option<string>,
    decode: string -> Option<Claims>)
    requires EmailsUnique(users)
    requires forall c :: createToken(c).Some? ==> decode(createToken(c).value) == Some(c)
    requires Login(users, credentials, verify, createToken).Ok?
    ensures var token := Login(users, credentials, verify, createToken).value.accessToken;
      && GetCurrentUser(users, decode, token).Ok?
      && GetCurrentUser(users, decode, token).value == FindByEmail(users, credentials.email).value
      && GetCurrentUser(users, decode, token).value.email == credentials.email
  {
    var user := FindByEmail(users, credentials.email).value;
    var token := Login(users, credentials, verify, createToken).value.accessToken;
    assert decode(token) == Some(TokenClaims(user));
    TokenResolvesToItsUser(users, decode, token, user);
  }

  /** A freshly registered user can log in with the password whose hash was stored,
      given that verification accepts a password against its own hash. */
  lemma LoginAfterRegister(
    users: seq<User>, u: User, password: string,
    verify: (string, string) -> Option<bool>, createToken: Claims -> Option<string>)
    requires FindByEmail(users, u.email).None?
    requires verify(password, u.passwordHash) == Some(true)
    requires createToken(TokenClaims(u)).Some?
    ensures Login(users + [u], UserLogin(u.email, password), verify, createToken)
         == Ok(Token(createToken(TokenClaims(u)).value, "bearer"))
  {
    FindByEmailAppend(users, u, u.email);
  }
}
