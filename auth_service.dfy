/**
 * AuthService: JWT payloads for access and refresh tokens, login, refresh
 * token rotation, credential checking, and the parsing of `Authorization`
 * headers and Basic credentials. The JWT library, the base64 decoder, bcrypt
 * and the user store are parameters.
 */
module Auth {
  import opened JsRuntime

  /** A stored user, as UsersService returns it. */
  datatype User = User(id: int, email: string, password: string)

  /** `Pick<UsersModel, 'email' | 'password'>`: what a login presents. */
  datatype Credentials = Credentials(email: string, password: string)

  /** `Pick<UsersModel, 'email' | 'id'>` as signToken reads it. Its fields are
      values: an object spread from a decoded payload has no `id`. */
  datatype TokenUser = TokenUser(email: Value, id: Value)

  /** The claims signToken puts in a token. */
  datatype Payload = Payload(email: Value, sub: Value, kind: string)

  datatype SignOptions = SignOptions(secret: string, expiresIn: nat)

  datatype Tokens = Tokens(accessToken: string, refreshToken: string)

  /** JwtService's sign and verify; verify gives None where it throws (a bad
      signature, a malformed or an expired token). */
  datatype Jwt = Jwt(sign: (Payload, SignOptions) -> string, verify: (string, string) -> Option<Payload>)

  const AccessType := "access"
  const RefreshType := "refresh"
  const AccessLifetime := 300
  const RefreshLifetime := 3600

  const NoSuchUserMessage := "존재하지 않는 사용자 입니다."
  const WrongPasswordMessage := "비밀번호가 틀렸습니다."
  const InvalidTokenMessage := "잘못 된 토큰입니다."
  const InvalidBasicTokenMessage := "잘못 된 유형의 토큰입니다."
  const ExpiredOrInvalidMessage := "토큰이 만료 됐거나 잘못 된 토큰 입니다."
  const RefreshOnlyMessage := "토큰 재 발급은 refresh 토큰으로만 가능합니다"

  /** A user as the service hands it to signToken. */
  function AsTokenUser(user: User): TokenUser {
    TokenUser(Str(user.email), Num(user.id))
  }

  // ------------------------------------------------------------ signing

  /** The payload of a token: the user's email, the user's id as `sub`, and
      the kind of token. */
  function TokenPayload(user: TokenUser, isRefreshToken: bool): (p: Payload)
    ensures p.email == user.email && p.sub == user.id
    ensures p.kind == RefreshType <==> isRefreshToken
    ensures p.kind == AccessType <==> !isRefreshToken
  {
    Payload(user.email, user.id, if isRefreshToken then RefreshType else AccessType)
  }

  /** The options of a token: the secret, and an hour for a refresh token,
      five minutes for an access token. */
  function TokenOptions(secret: string, isRefreshToken: bool): (o: SignOptions)
    ensures o.secret == secret
    ensures o.expiresIn == RefreshLifetime <==> isRefreshToken
    ensures o.expiresIn == AccessLifetime <==> !isRefreshToken
  {
    SignOptions(secret, if isRefreshToken then RefreshLifetime else AccessLifetime)
  }

  /** signToken: the payload signed with its options; under a sound library
      the token verifies, with the same secret, to that payload. */
  function SignToken(jwt: Jwt, secret: string, user: TokenUser, isRefreshToken: bool): (t: string)
    ensures t == jwt.sign(TokenPayload(user, isRefreshToken), TokenOptions(secret, isRefreshToken))
    ensures Sound(jwt) ==> jwt.verify(t, secret) == Some(TokenPayload(user, isRefreshToken))
  {
    jwt.sign(TokenPayload(user, isRefreshToken), TokenOptions(secret, isRefreshToken))
  }

  /** The access token is signed as a non-refresh token, the refresh token as
      a refresh token, both for the same user. */
  function LoginUser(jwt: Jwt, secret: string, user: TokenUser): (t: Tokens)
    ensures t.accessToken == SignToken(jwt, secret, user, false)
    ensures t.refreshToken == SignToken(jwt, secret, user, true)
  {
    Tokens(SignToken(jwt, secret, user, false), SignToken(jwt, secret, user, true))
  }

  /** A JWT library in which a token verifies, under the secret it was signed
      with, to the payload it was signed with. */
  ghost predicate Sound(jwt: Jwt) {
    forall p: Payload, o: SignOptions :: jwt.verify(jwt.sign(p, o), o.secret) == Some(p)
  }

  // ------------------------------------------------------------ verification

  /** A token verifies to its payload; any failure of the library becomes an
      Unauthorized error. */
  function VerifyToken(jwt: Jwt, secret: string, token: string): (r: Result<Payload>)
    ensures r.Ok? <==> jwt.verify(token, secret).Some?
    ensures r.Ok? ==> r.value == jwt.verify(token, secret).value
    ensures r.Err? ==> r.error == Unauthorized(ExpiredOrInvalidMessage)
  {
    match jwt.verify(token, secret)
    case None => Err(Unauthorized(ExpiredOrInvalidMessage))
    case Some(p) => Ok(p)
  }

  /** A new token for the holder of a refresh token. The library's own error
      is not caught. The new token is signed for `{...decoded}`, which has an
      email but no `id`, so its `sub` is undefined. */
  function RotateToken(jwt: Jwt, secret: string, token: string, isRefreshToken: bool): (r: Result<string>)
    ensures r.Err? <==> jwt.verify(token, secret).None? || jwt.verify(token, secret).value.kind != RefreshType
    ensures jwt.verify(token, secret).None? ==> r == Err(TokenError)
    ensures jwt.verify(token, secret).Some? && jwt.verify(token, secret).value.kind != RefreshType ==>
      r == Err(Unauthorized(RefreshOnlyMessage))
    ensures r.Ok? ==> r.value == SignToken(jwt, secret, TokenUser(jwt.verify(token, secret).value.email, Undefined), isRefreshToken)
  {
    match jwt.verify(token, secret)
    case None => Err(TokenError)
    case Some(decoded) =>
      if decoded.kind != RefreshType then Err(Unauthorized(RefreshOnlyMessage))
      else Ok(SignToken(jwt, secret, TokenUser(decoded.email, Undefined), isRefreshToken))
  }

  /** With a sound library, the tokens of a login verify to an access and a
      refresh payload carrying the user's email and id. */
  lemma LoginTokensVerify(jwt: Jwt, secret: string, user: TokenUser)
    requires Sound(jwt)
    ensures VerifyToken(jwt, secret, LoginUser(jwt, secret, user).accessToken) == Ok(Payload(user.email, user.id, AccessType))
    ensures VerifyToken(jwt, secret, LoginUser(jwt, secret, user).refreshToken) == Ok(Payload(user.email, user.id, RefreshType))
  {
    var t := LoginUser(jwt, secret, user);
    assert jwt.verify(jwt.sign(TokenPayload(user, false), TokenOptions(secret, false)), secret) == Some(TokenPayload(user, false));
    assert jwt.verify(jwt.sign(TokenPayload(user, true), TokenOptions(secret, true)), secret) == Some(TokenPayload(user, true));
  }

  /** The login tokens are signed with the secret: the access token for five
      minutes, the refresh token for an hour. */
  lemma LoginTokenLifetimes(jwt: Jwt, secret: string, user: TokenUser)
    ensures LoginUser(jwt, secret, user).accessToken ==
      jwt.sign(Payload(user.email, user.id, AccessType), SignOptions(secret, 300))
    ensures LoginUser(jwt, secret, user).refreshToken ==
      jwt.sign(Payload(user.email, user.id, RefreshType), SignOptions(secret, 3600))
  {
  }

  /** An access token cannot be rotated. */
  lemma RotateAccessTokenRejected(jwt: Jwt, secret: string, user: TokenUser, isRefreshToken: bool)
    requires Sound(jwt)
    ensures RotateToken(jwt, secret, LoginUser(jwt, secret, user).accessToken, isRefreshToken) == Err(Unauthorized(RefreshOnlyMessage))
  {
    assert jwt.verify(jwt.sign(TokenPayload(user, false), TokenOptions(secret, false)), secret) == Some(TokenPayload(user, false));
  }

  /** A refresh token rotates to a token of the requested kind that keeps the
      email but has lost the user id. */
  lemma RotateRefreshToken(jwt: Jwt, secret: string, user: TokenUser, isRefreshToken: bool)
    requires Sound(jwt)
    ensures var r := RotateToken(jwt, secret, LoginUser(jwt, secret, user).refreshToken, isRefreshToken);
      && r.Ok?
      && VerifyToken(jwt, secret, r.value) == Ok(Payload(user.email, Undefined, if isRefreshToken then RefreshType else AccessType))
  {
    assert jwt.verify(jwt.sign(TokenPayload(user, true), TokenOptions(secret, true)), secret) == Some(TokenPayload(user, true));
    var rotated := TokenUser(user.email, Undefined);
    assert jwt.verify(jwt.sign(TokenPayload(rotated, isRefreshToken), TokenOptions(secret, isRefreshToken)), secret)
      == Some(TokenPayload(rotated, isRefreshToken));
  }

  /** Whatever token is rotated, the new token carries no user id. */
  lemma RotationLosesSubject(jwt: Jwt, secret: string, token: string, isRefreshToken: bool)
    requires Sound(jwt)
    requires RotateToken(jwt, secret, token, isRefreshToken).Ok?
    ensures VerifyToken(jwt, secret, RotateToken(jwt, secret, token, isRefreshToken).value).Ok?
    ensures VerifyToken(jwt, secret, RotateToken(jwt, secret, token, isRefreshToken).value).value.sub == Undefined
  {
    var decoded := jwt.verify(token, secret).value;
    var rotated := TokenUser(decoded.email, Undefined);
    assert jwt.verify(jwt.sign(TokenPayload(rotated, isRefreshToken), TokenOptions(secret, isRefreshToken)), secret)
      == Some(TokenPayload(rotated, isRefreshToken));
  }

  // ------------------------------------------------------------ credentials

  /** The stored user for the email, when the password matches its hash.
      `compare` stands for bcrypt.compare(plain, hash). */
  function AuthenticateWithEmailAndPassword(
    credentials: Credentials, userByEmail: string -> Option<User>, compare: (string, string) -> bool): (r: Result<User>)
    ensures userByEmail(credentials.email).None? ==> r == Err(Unauthorized(NoSuchUserMessage))
    ensures userByEmail(credentials.email).Some? && !compare(credentials.password, userByEmail(credentials.email).value.password) ==>
      r == Err(Unauthorized(WrongPasswordMessage))
    ensures r.Ok? <==> userByEmail(credentials.email).Some? && compare(credentials.password, userByEmail(credentials.email).value.password)
    ensures r.Ok? ==> r.value == userByEmail(credentials.email).value
  {
    match userByEmail(credentials.email)
    case None => Err(Unauthorized(NoSuchUserMessage))
    case Some(existing) =>
      if !compare(credentials.password, existing.password) then Err(Unauthorized(WrongPasswordMessage))
      else Ok(existing)
  }

  /** Login: the tokens of the authenticated user, or the authentication error. */
  function LoginWithEmail(
    jwt: Jwt, secret: string, credentials: Credentials, userByEmail: string -> Option<User>,
    compare: (string, string) -> bool): (r: Result<Tokens>)
    ensures var auth := AuthenticateWithEmailAndPassword(credentials, userByEmail, compare);
      && (r.Ok? <==> auth.Ok?)
      && (auth.Err? ==> r == Err(auth.error))
      && (auth.Ok? ==> r.value == LoginUser(jwt, secret, AsTokenUser(auth.value)))
  {
    var existing :- AuthenticateWithEmailAndPassword(credentials, userByEmail, compare);
    Ok(LoginUser(jwt, secret, AsTokenUser(existing)))
  }

  /** A successful login with a sound library hands out a refresh token whose
      subject is the stored user's id. */
  lemma LoginWithEmailSubject(
    jwt: Jwt, secret: string, credentials: Credentials, userByEmail: string -> Option<User>,
    compare: (string, string) -> bool)
    requires Sound(jwt)
    requires LoginWithEmail(jwt, secret, credentials, userByEmail, compare).Ok?
    ensures var user := userByEmail(credentials.email).value;
      VerifyToken(jwt, secret, LoginWithEmail(jwt, secret, credentials, userByEmail, compare).value.refreshToken)
        == Ok(Payload(Str(user.email), Num(user.id), RefreshType))
  {
    LoginTokensVerify(jwt, secret, AsTokenUser(userByEmail(credentials.email).value));
  }

  // ------------------------------------------------------------ headers

  function TokenPrefix(isBearer: bool): string {
    if isBearer then "Bearer" else "Basic"
  }

  /** The token of an `Authorization` header `<prefix> <token>`: the header
      must split on ' ' into exactly the prefix and the token. */
  function ExtractTokenFromHeader(header: string, isBearer: bool): (r: Result<string>)
    ensures r.Ok? <==> |Split(header, " ")| == 2 && Split(header, " ")[0] == TokenPrefix(isBearer)
    ensures r.Ok? ==> header == TokenPrefix(isBearer) + " " + r.value && ' ' !in r.value
    ensures r.Err? ==> r.error == Unauthorized(InvalidTokenMessage)
  {
    var splitToken := Split(header, " ");
    if |splitToken| != 2 || splitToken[0] != TokenPrefix(isBearer) then Err(Unauthorized(InvalidTokenMessage))
    else
      JoinSplit(header, " ");
      SplitPiecesFree(header, " ");
      FreeChar(splitToken[1], ' ');
      Ok(splitToken[1])
  }

  /** A token without a space is read back from the header built from it. */
  lemma ExtractTokenRoundTrip(token: string, isBearer: bool)
    requires ' ' !in token
    ensures ExtractTokenFromHeader(TokenPrefix(isBearer) + " " + token, isBearer) == Ok(token)
  {
    FreeChar(token, ' ');
    SplitFree(token, " ");
    SplitCharJoin(TokenPrefix(isBearer), ' ', token);
  }

  /** The header is accepted exactly when it is the prefix, one space and a
      token without a space. */
  lemma ExtractTokenIff(header: string, isBearer: bool, token: string)
    ensures ExtractTokenFromHeader(header, isBearer) == Ok(token) <==>
      header == TokenPrefix(isBearer) + " " + token && ' ' !in token
  {
    if header == TokenPrefix(isBearer) + " " + token && ' ' !in token {
      ExtractTokenRoundTrip(token, isBearer);
    }
  }

  // ------------------------------------------------------------ basic credentials

  /** The email and password of a Basic token: the decoded text must split on
      ':' into exactly two parts. `decode` stands for the base64 to UTF-8
      decoding. */
  function DecodeBasicToken(base64String: string, decode: string -> string): (r: Result<Credentials>)
    ensures r.Ok? <==> |Split(decode(base64String), ":")| == 2
    ensures r.Ok? ==> decode(base64String) == r.value.email + ":" + r.value.password
    ensures r.Ok? ==> ':' !in r.value.email && ':' !in r.value.password
    ensures r.Err? ==> r.error == Unauthorized(InvalidBasicTokenMessage)
  {
    var decoded := decode(base64String);
    var split := Split(decoded, ":");
    if |split| != 2 then Err(Unauthorized(InvalidBasicTokenMessage))
    else
      JoinSplit(decoded, ":");
      SplitPiecesFree(decoded, ":");
      FreeChar(split[0], ':');
      FreeChar(split[1], ':');
      Ok(Credentials(split[0], split[1]))
  }

  /** Credentials without ':' are read back from `email:password`. */
  lemma DecodeBasicTokenRoundTrip(base64String: string, decode: string -> string, email: string, password: string)
    requires ':' !in email && ':' !in password
    requires decode(base64String) == email + ":" + password
    ensures DecodeBasicToken(base64String, decode) == Ok(Credentials(email, password))
  {
    FreeChar(password, ':');
    SplitFree(password, ":");
    SplitCharJoin(email, ':', password);
  }

  /** A password containing ':' cannot be sent as Basic credentials. */
  lemma ColonInPasswordRejected(base64String: string, decode: string -> string, email: string, password: string)
    requires ':' !in email && ':' in password
    requires decode(base64String) == email + ":" + password
    ensures DecodeBasicToken(base64String, decode).Err?
  {
    SplitCharJoin(email, ':', password);
    FreeChar(password, ':');
    SplitPiecesFree(password, ":");
  }
}
