/** Token issuing, credential checking and current-user resolution for the
    authentication service. JWT signing and decoding, bcrypt and the clock are
    not modelled: a token is represented by the payload it carries, decoding is
    an oracle that either yields that payload or fails, password verification
    is a function parameter, and `now` is a parameter in seconds. */
module Auth {
  import opened Wrappers
  import opened Entities
  import opened UserStore
  import opened Text

  /** Default token lifetime: seven days. */
  const AccessTokenExpireMinutes: int := 60 * 24 * 7
  const SecondsPerMinute: int := 60

  const CredentialsDetail: string := "Não foi possível validar as credenciais"
  const BearerChallenge: map<string, string> := map["WWW-Authenticate" := "Bearer"]
  const ExpKey: string := "exp"
  const SubKey: string := "sub"
  const UserIdKey: string := "user_id"

  /** A JSON claim value; a JWT stores `exp` as a number of seconds. */
  datatype Claim = Str(text: string) | Num(number: int) | Null

  type Claims = map<string, Claim>

  /** A signed token, represented by its payload. */
  datatype Jwt = Jwt(payload: Claims)

  /** The expiry instant: `now + delta` for a non-zero delta, otherwise
      `now + 7 days`. A zero `timedelta` is falsy in Python. */
  function Expiry(now: int, delta: Option<int>): (exp: int)
    ensures delta.Some? && delta.value != 0 ==> exp == now + delta.value
    ensures delta.None? || delta.value == 0 ==> exp == now + AccessTokenExpireMinutes * SecondsPerMinute
  {
    if delta.Some? && delta.value != 0 then now + delta.value
    else now + AccessTokenExpireMinutes * SecondsPerMinute
  }

  /** `create_access_token`: a copy of the claims with `exp` set, signed. */
  function CreateAccessToken(data: Claims, delta: Option<int>, now: int): (t: Jwt)
    ensures t.payload.Keys == data.Keys + {ExpKey}
    ensures forall k | k in data && k != ExpKey :: t.payload[k] == data[k]
    ensures t.payload[ExpKey] == Num(Expiry(now, delta))
  {
    Jwt(data[ExpKey := Num(Expiry(now, delta))])
  }

  /** The claims the services put in every token they issue. */
  function UserClaims(u: StoredUser): Claims {
    map[SubKey := Str(u.email), UserIdKey := Num(u.id)]
  }

  /** A zero lifetime is treated like no lifetime at all. */
  lemma ZeroDeltaUsesDefault(data: Claims, now: int)
    ensures CreateAccessToken(data, Some(0), now) == CreateAccessToken(data, None, now)
  {
  }

  /** `authenticate_user`: the stored user for `email` whose hash accepts
      `password`, or `None`. */
  function AuthenticateUser(db: Users, email: string, password: string,
                            verify: (string, string) -> bool): (r: Option<StoredUser>)
    ensures GetUserByEmail(db, email).None? ==> r.None?
    ensures r.Some? <==>
      GetUserByEmail(db, email).Some? && verify(password, GetUserByEmail(db, email).value.hashedPassword)
    ensures r.Some? ==> r == GetUserByEmail(db, email) && r.value.email == email
  {
    match GetUserByEmail(db, email)
    case None => None
    case Some(user) => if verify(password, user.hashedPassword) then Some(user) else None
  }

  function CredentialsError(): HttpException {
    HttpException(Unauthorized, CredentialsDetail, BearerChallenge)
  }

  /** An exception no handler catches becomes a bare 500. */
  function UnhandledError(): HttpException {
    HttpException(InternalServerError, "Internal Server Error", map[])
  }

  /** The id `TokenData` makes of a non-null `user_id` claim. Its `user_id` is
      an optional integer, so validation keeps a number and reads text written
      in decimal as its value; any other text fails validation (`None`). */
  function ClaimedId(c: Claim): (r: Option<int>)
    requires !c.Null?
    ensures c.Num? ==> r == Some(c.number)
    ensures c.Str? ==> (r.Some? <==> IsDecimal(c.text))
  {
    match c
    case Num(n) => Some(n)
    case Str(t) => if IsDecimal(t) then Some(DigitsValue(t)) else None
  }

  /** `get_current_user`. `decoded` is what decoding the bearer token gave:
      `None` when the signature or the expiry is rejected. A `user_id` that
      fails `TokenData` validation raises an error that nothing catches. */
  function GetCurrentUser(db: Users, decoded: Option<Claims>): (r: Result<StoredUser, HttpException>)
    ensures decoded.None? ==> r == Err(CredentialsError())
    ensures decoded.Some? && (UserIdKey !in decoded.value || decoded.value[UserIdKey] == Null) ==>
      r == Err(CredentialsError())
    ensures decoded.Some? && UserIdKey in decoded.value && decoded.value[UserIdKey].Str?
            && !IsDecimal(decoded.value[UserIdKey].text) ==>
      r == Err(UnhandledError())
    ensures decoded.Some? && UserIdKey in decoded.value && !decoded.value[UserIdKey].Null?
            && ClaimedId(decoded.value[UserIdKey]).Some? ==>
      var found := GetUserById(db, ClaimedId(decoded.value[UserIdKey]).value);
      && (found.None? ==> r == Err(CredentialsError()))
      && (found.Some? ==> r == Ok(found.value) && r.value.id == ClaimedId(decoded.value[UserIdKey]).value
                          && r.value in db.rows)
    ensures r.Ok? <==>
      && decoded.Some? && UserIdKey in decoded.value && !decoded.value[UserIdKey].Null?
      && ClaimedId(decoded.value[UserIdKey]).Some?
      && GetUserById(db, ClaimedId(decoded.value[UserIdKey]).value).Some?
  {
    if decoded.None? then Err(CredentialsError())
    else
      var claims := decoded.value;
      if UserIdKey !in claims || claims[UserIdKey].Null? then Err(CredentialsError())
      else
        match ClaimedId(claims[UserIdKey])
        case None => Err(UnhandledError())
        case Some(id) =>
          match GetUserById(db, id)
          case None => Err(CredentialsError())
          case Some(user) => Ok(user)
  }

  /** A token issued for a stored user resolves back to that user. */
  lemma {:induction false} IssuedTokenResolves(db: Users, k: nat, delta: Option<int>, now: int)
    requires ValidIds(db) && k < |db.rows|
    ensures GetCurrentUser(db, Some(CreateAccessToken(UserClaims(db.rows[k]), delta, now).payload))
         == Ok(db.rows[k])
  {
    FindStoredById(db, k);
  }

  /** A `user_id` written as the decimal text of a stored id resolves to that
      user just as the number does. */
  lemma {:induction false} DecimalTextIdResolves(db: Users, k: nat, claims: Claims)
    requires ValidIds(db) && k < |db.rows| && db.rows[k].id >= 0
    ensures GetCurrentUser(db, Some(claims[UserIdKey := Str(Decimal(db.rows[k].id))])) == Ok(db.rows[k])
  {
    DecimalRoundTrip(db.rows[k].id);
    FindStoredById(db, k);
  }
}
