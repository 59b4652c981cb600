/** The authentication service's endpoints as operations on the user store:
    register, log in, read the current user and update the current user's
    profile. Requests are handled one at a time. */
module AuthService {
  import opened Wrappers
  import opened Entities
  import opened UserStore
  import opened Auth

  const EmailTaken: string := "Email já registrado"
  const BadCredentials: string := "Email ou senha incorretos"
  const UserNotFound: string := "Usuário não encontrado"
  const BearerType: string := "bearer"

  /** The registration form (`UserCreate`). */
  datatype UserCreate = UserCreate(email: string, password: string)

  /** The `Token` response: the signed token and its type. */
  datatype TokenResponse = TokenResponse(accessToken: Jwt, tokenType: string)

  /** `POST /api/auth/register`. `hashed` is the bcrypt hash of the password,
      which is salted and so not a function of the password. */
  function RegisterUser(db: Users, userIn: UserCreate, hashed: string, now: int): (h: Handled<Users, TokenResponse>)
    ensures GetUserByEmail(db, userIn.email).Some? ==>
      h == Handled(db, Err(HttpException(BadRequest, EmailTaken, map[])))
    ensures GetUserByEmail(db, userIn.email).None? ==>
      && h.state == CreateUser(db, userIn.email, hashed).users
      && h.reply.Ok?
      && h.reply.value.tokenType == BearerType
      && h.reply.value.accessToken
           == CreateAccessToken(map[SubKey := Str(userIn.email), UserIdKey := Num(db.nextId)], None, now)
  {
    if GetUserByEmail(db, userIn.email).Some? then
      Handled(db, Err(HttpException(BadRequest, EmailTaken, map[])))
    else
      var created := CreateUser(db, userIn.email, hashed);
      Handled(created.users, Ok(TokenResponse(CreateAccessToken(UserClaims(created.user), None, now), BearerType)))
  }

  /** Registering keeps the store valid: in particular emails stay unique. */
  lemma {:induction false} RegisterKeepsValid(db: Users, userIn: UserCreate, hashed: string, now: int)
    requires Valid(db)
    ensures Valid(RegisterUser(db, userIn, hashed, now).state)
  {
    if GetUserByEmail(db, userIn.email).None? {
      var rows := RegisterUser(db, userIn, hashed, now).state.rows;
      assert rows == db.rows + [rows[|db.rows|]];
      assert forall i | 0 <= i < |db.rows| :: rows[i] == db.rows[i] && db.rows[i].email != userIn.email;
    }
  }

  /** One registration request: the form and the hash computed for it. */
  datatype Registration = Registration(userIn: UserCreate, hashed: string)

  /** The store after a sequence of registration requests, successful or not. */
  function RegisterAll(db: Users, reqs: seq<Registration>, now: int): Users
    decreases |reqs|
  {
    if reqs == [] then db
    else RegisterAll(RegisterUser(db, reqs[0].userIn, reqs[0].hashed, now).state, reqs[1..], now)
  }

  /** Over any sequence of registrations no two users share an email. */
  lemma {:induction false} RegisterAllKeepsEmailsUnique(db: Users, reqs: seq<Registration>, now: int)
    requires Valid(db)
    ensures UniqueEmails(RegisterAll(db, reqs, now))
    ensures Valid(RegisterAll(db, reqs, now))
    decreases |reqs|
  {
    if reqs != [] {
      RegisterKeepsValid(db, reqs[0].userIn, reqs[0].hashed, now);
      RegisterAllKeepsEmailsUnique(RegisterUser(db, reqs[0].userIn, reqs[0].hashed, now).state, reqs[1..], now);
    }
  }

  /** The token a registration returns authenticates the new user. */
  lemma {:induction false} RegisteredTokenResolves(db: Users, userIn: UserCreate, hashed: string, now: int)
    requires ValidIds(db)
    requires GetUserByEmail(db, userIn.email).None?
    ensures var h := RegisterUser(db, userIn, hashed, now);
      GetCurrentUser(h.state, Some(h.reply.value.accessToken.payload))
        == Ok(StoredUser(db.nextId, userIn.email, None, None, hashed))
  {
    var h := RegisterUser(db, userIn, hashed, now);
    assert ValidIds(h.state);
    IssuedTokenResolves(h.state, |db.rows|, None, now);
  }

  /** `POST /api/auth/login`, with the form's username taken as the email. */
  function LoginForAccessToken(db: Users, username: string, password: string,
                               verify: (string, string) -> bool, now: int): (r: Result<TokenResponse, HttpException>)
    ensures AuthenticateUser(db, username, password, verify).None? ==>
      r == Err(HttpException(Unauthorized, BadCredentials, BearerChallenge))
    ensures r.Ok? <==> AuthenticateUser(db, username, password, verify).Some?
    ensures r.Ok? ==>
      var user := AuthenticateUser(db, username, password, verify).value;
      && r.value.tokenType == BearerType
      && r.value.accessToken
           == CreateAccessToken(map[SubKey := Str(username), UserIdKey := Num(user.id)], None, now)
  {
    match AuthenticateUser(db, username, password, verify)
    case None => Err(HttpException(Unauthorized, BadCredentials, BearerChallenge))
    case Some(user) => Ok(TokenResponse(CreateAccessToken(UserClaims(user), None, now), BearerType))
  }

  /** The token a successful login returns authenticates the same user. */
  lemma {:induction false} LoginTokenResolves(db: Users, username: string, password: string,
                                              verify: (string, string) -> bool, now: int)
    requires ValidIds(db)
    requires LoginForAccessToken(db, username, password, verify, now).Ok?
    ensures GetCurrentUser(db, Some(LoginForAccessToken(db, username, password, verify, now).value.accessToken.payload))
         == Ok(AuthenticateUser(db, username, password, verify).value)
  {
    var user := AuthenticateUser(db, username, password, verify).value;
    var k :| 0 <= k < |db.rows| && db.rows[k] == user;
    IssuedTokenResolves(db, k, None, now);
  }

  /** `GET /api/auth/me`. */
  function ReadUsersMe(db: Users, decoded: Option<Claims>): (r: Result<User, HttpException>)
    ensures r.Ok? <==> GetCurrentUser(db, decoded).Ok?
    ensures r.Ok? ==> r.value == Public(GetCurrentUser(db, decoded).value)
    ensures r.Err? ==> r.error == GetCurrentUser(db, decoded).error
  {
    match GetCurrentUser(db, decoded)
    case Err(e) => Err(e)
    case Ok(user) => Ok(Public(user))
  }

  /** The handler body of `PUT /api/auth/profile`, given the resolved user. */
  function UpdateUserProfile(db: Users, current: StoredUser, profile: ProfileUpdate): (h: Handled<Users, User>)
    ensures h.state == UpdateProfile(db, current.id, profile).users
    ensures GetUserById(db, current.id).None? ==> h.reply == Err(HttpException(NotFound, UserNotFound, map[]))
    ensures h.reply.Ok? <==> GetUserById(db, current.id).Some?
    ensures h.reply.Ok? ==> h.reply.value.id == current.id
    ensures h.reply.Ok? ==> h.reply.value == Public(ApplyProfile(GetUserById(db, current.id).value, profile))
  {
    var updated := UpdateProfile(db, current.id, profile);
    match updated.user
    case None => Handled(updated.users, Err(HttpException(NotFound, UserNotFound, map[])))
    case Some(user) => Handled(updated.users, Ok(Public(user)))
  }

  /** `PUT /api/auth/profile`: the dependency resolves the user first; its
      failure is the response and the handler does not run. */
  function UpdateProfileEndpoint(db: Users, decoded: Option<Claims>, profile: ProfileUpdate): (h: Handled<Users, User>)
    ensures GetCurrentUser(db, decoded).Err? ==> h == Handled(db, Err(GetCurrentUser(db, decoded).error))
    ensures GetCurrentUser(db, decoded).Ok? ==>
      h == UpdateUserProfile(db, GetCurrentUser(db, decoded).value, profile)
  {
    match GetCurrentUser(db, decoded)
    case Err(e) => Handled(db, Err(e))
    case Ok(current) => UpdateUserProfile(db, current, profile)
  }

  /** Handled one at a time, a profile update for a resolved user never answers
      404, changes only that user's row, and keeps the store valid. */
  lemma {:induction false} ProfileUpdateTargetsCurrentUser(db: Users, decoded: Option<Claims>, profile: ProfileUpdate)
    requires Valid(db)
    requires GetCurrentUser(db, decoded).Ok?
    ensures var current := GetCurrentUser(db, decoded).value;
      var h := UpdateProfileEndpoint(db, decoded, profile);
      && h.reply.Ok?
      && h.reply.value.id == current.id
      && (forall i | 0 <= i < |db.rows| && db.rows[i].id != current.id :: h.state.rows[i] == db.rows[i])
      && Valid(h.state)
  {
    var current := GetCurrentUser(db, decoded).value;
    UpdateKeepsValid(db, current.id, profile);
  }
}
