/**
 * The auth service's session engine: the module-level `users` list and
 * `refreshTokens` set, and the register / login / refresh / logout / me
 * handlers that read and change them.
 *
 * Each handler is specified by a pure step function from the store before
 * the request to the store after it and the response; `SessionStore` holds
 * the store as fields and its methods change them step by step, proved to
 * agree with the step functions. The lemmas at the end relate several steps.
 *
 * A JSON body field that is absent is modelled as the empty string: both are
 * falsy, and the handlers only test falsiness. The clock (whole seconds for
 * tokens, an ISO string for the user record) and `crypto.randomUUID()` are
 * parameters.
 */
module Auth {
  import opened Wrappers
  import opened Crypto

  /** A stored user; `password` holds the bcrypt digest. */
  datatype User = User(
    id: string, email: string, password: string,
    firstName: string, lastName: string, role: string,
    createdAt: string, updatedAt: string)

  /** What `sanitizeUser` returns: every field but `password`. */
  datatype PublicUser = PublicUser(
    id: string, email: string,
    firstName: string, lastName: string, role: string,
    createdAt: string, updatedAt: string)

  /** The `code` field of the service's error bodies. */
  datatype ErrorCode =
    | MissingFields | PasswordTooShort | EmailExists | InvalidCredentials
    | TokenMissing | TokenExpired | TokenInvalid | UserNotFound

  /** An HTTP response: a status with a body, or a status with an error code. */
  datatype Response<T> = Ok(status: int, body: T) | Err(status: int, code: ErrorCode)

  datatype TokenPair = TokenPair(accessToken: string, refreshToken: string)

  datatype LoginBody = LoginBody(accessToken: string, refreshToken: string, user: PublicUser)

  /** The service's whole mutable state. */
  datatype Sessions = Sessions(users: seq<User>, refreshTokens: set<string>)

  /** The state after a request, and the response sent. */
  datatype Step<T> = Step(after: Sessions, response: Response<T>)

  const MinPasswordLength: int := 8

  // ---------------------------------------------------------------------------
  // Lookups and projections

  /** Index of the first user `matches` accepts, or -1: what `users.find` searches for. */
  function FirstIndex(users: seq<User>, matches: User -> bool): (i: int)
    ensures -1 <= i < |users|
    ensures i == -1 <==> forall k | 0 <= k < |users| :: !matches(users[k])
    ensures 0 <= i ==> matches(users[i]) && forall k | 0 <= k < i :: !matches(users[k])
    decreases |users|
  {
    if users == [] then -1
    else if matches(users[0]) then 0
    else
      var j := FirstIndex(users[1..], matches);
      if j == -1 then -1 else j + 1
  }

  /** `users.find(matches)`. */
  function Find(users: seq<User>, matches: User -> bool): Option<User> {
    var i := FirstIndex(users, matches);
    if i < 0 then None else Some(users[i])
  }

  /** `findUserByEmail`: the first user with exactly this email (no case folding). */
  function FindUserByEmail(users: seq<User>, email: string): (r: Option<User>)
    ensures r.None? <==> forall k | 0 <= k < |users| :: users[k].email != email
    ensures r.Some? ==> exists k | 0 <= k < |users| ::
      users[k] == r.value && r.value.email == email && forall j | 0 <= j < k :: users[j].email != email
  {
    Find(users, (u: User) => u.email == email)
  }

  /** `findUserById`: the first user with this id. */
  function FindUserById(users: seq<User>, id: string): (r: Option<User>)
    ensures r.None? <==> forall k | 0 <= k < |users| :: users[k].id != id
    ensures r.Some? ==> exists k | 0 <= k < |users| ::
      users[k] == r.value && r.value.id == id && forall j | 0 <= j < k :: users[j].id != id
  {
    Find(users, (u: User) => u.id == id)
  }

  /** The stored record a public user and a digest came from. */
  function WithPassword(p: PublicUser, password: string): User {
    User(p.id, p.email, password, p.firstName, p.lastName, p.role, p.createdAt, p.updatedAt)
  }

  /** `sanitizeUser`: the user without its password digest, and nothing else lost. */
  function Sanitize(u: User): (r: PublicUser)
    ensures WithPassword(r, u.password) == u
  {
    PublicUser(u.id, u.email, u.firstName, u.lastName, u.role, u.createdAt, u.updatedAt)
  }

  /** Two users look the same from outside exactly when they differ in nothing but the digest. */
  lemma SanitizeHidesOnlyPassword(u: User, v: User)
    ensures Sanitize(u) == Sanitize(v) <==> u.(password := v.password) == v
  {
  }

  /** No two stored users share an email. */
  ghost predicate EmailsDistinct(users: seq<User>) {
    forall i, j | 0 <= i < j < |users| :: users[i].email != users[j].email
  }

  /** How many stored users have this email. */
  function CountEmail(users: seq<User>, email: string): nat {
    if users == [] then 0
    else CountEmail(users[..|users| - 1], email) + (if users[|users| - 1].email == email then 1 else 0)
  }

  // ---------------------------------------------------------------------------
  // Tokens

  /** `generateTokens(user)` at clock second `now`. */
  function GenerateTokens(jwt: Jwt, u: User, now: int): (r: TokenPair)
    ensures JwtSound(jwt) ==>
      && r.accessToken != "" && ' ' !in r.accessToken
      && r.refreshToken != "" && ' ' !in r.refreshToken
      && jwt.verify(r.accessToken, now) == Decoded(Payload(AccessClaims(u.id, u.email, u.role), now, now + AccessTtl))
      && jwt.verify(r.refreshToken, now) == Decoded(Payload(RefreshClaims(u.id), now, now + RefreshTtl))
  {
    TokenPair(
      jwt.sign(Payload(AccessClaims(u.id, u.email, u.role), now, now + AccessTtl)),
      jwt.sign(Payload(RefreshClaims(u.id), now, now + RefreshTtl)))
  }

  /** Both issued tokens verify to the user's claims until their own expiry and as expired afterwards. */
  lemma GeneratedTokensVerify(jwt: Jwt, u: User, now: int, later: int)
    requires JwtSound(jwt)
    ensures var pair := GenerateTokens(jwt, u, now);
      && jwt.verify(pair.accessToken, later) ==
           (if later < now + AccessTtl
            then Decoded(Payload(AccessClaims(u.id, u.email, u.role), now, now + AccessTtl))
            else Expired)
      && jwt.verify(pair.refreshToken, later) ==
           (if later < now + RefreshTtl
            then Decoded(Payload(RefreshClaims(u.id), now, now + RefreshTtl))
            else Expired)
  {
  }

  /** Length of the prefix of `s` before its first space. */
  function FieldEnd(s: string): (n: nat)
    ensures n <= |s| && ' ' !in s[..n]
    ensures n < |s| ==> s[n] == ' '
  {
    if s == [] || s[0] == ' ' then 0
    else
      var n := 1 + FieldEnd(s[1..]);
      assert s[..n] == [s[0]] + s[1..][..n - 1];
      n
  }

  /**
   * `authHeader.split(' ')[1]`: the text between the header's first and
   * second space. A header without a space has no second field, which the
   * model writes as "" since the source only tests it for falsiness.
   */
  function BearerToken(header: string): (r: string)
    ensures ' ' !in r
    ensures ' ' !in header ==> r == ""
    ensures |r| < |header| || r == ""
  {
    var i := FieldEnd(header);
    if i == |header| then ""
    else
      var rest := header[i + 1..];
      rest[..FieldEnd(rest)]
  }

  lemma {:induction false} FieldEndOfConcat(a: string, b: string)
    requires ' ' !in a
    requires b == [] || b[0] == ' '
    ensures FieldEnd(a + b) == |a|
  {
    if a != [] {
      assert (a + b)[1..] == a[1..] + b;
      FieldEndOfConcat(a[1..], b);
    }
  }

  /** Splitting `scheme + " " + token + more` recovers the token. */
  lemma BearerTokenOfHeader(scheme: string, token: string, more: string)
    requires ' ' !in scheme && ' ' !in token
    requires more == [] || more[0] == ' '
    ensures BearerToken(scheme + " " + token + more) == token
  {
    var h := scheme + " " + token + more;
    assert h == scheme + (" " + token + more);
    FieldEndOfConcat(scheme, " " + token + more);
    assert h[|scheme| + 1..] == token + more;
    FieldEndOfConcat(token, more);
    assert (token + more)[..|token|] == token;
  }

  /** The outcome of the `authenticateToken` middleware. */
  datatype AuthResult = Authenticated(payload: Payload) | Rejected(status: int, code: ErrorCode)

  /** `authenticateToken`: missing, expired and otherwise invalid tokens are three distinct rejections. */
  function Authenticate(jwt: Jwt, authorization: string, now: int): (r: AuthResult)
    ensures r == Rejected(401, TokenMissing) <==> BearerToken(authorization) == ""
    ensures r == Rejected(401, TokenExpired) <==>
      BearerToken(authorization) != "" && jwt.verify(BearerToken(authorization), now) == Expired
    ensures r == Rejected(403, TokenInvalid) <==>
      BearerToken(authorization) != "" && jwt.verify(BearerToken(authorization), now) == Invalid
    ensures r.Authenticated? <==>
      BearerToken(authorization) != "" && jwt.verify(BearerToken(authorization), now).Decoded?
    ensures r.Authenticated? ==> jwt.verify(BearerToken(authorization), now) == Decoded(r.payload)
  {
    var token := BearerToken(authorization);
    if token == "" then Rejected(401, TokenMissing)
    else
      match jwt.verify(token, now)
      case Expired => Rejected(401, TokenExpired)
      case Invalid => Rejected(403, TokenInvalid)
      case Decoded(p) => Authenticated(p)
  }

  /** A bearer header carrying a token the service signed passes until `exp`, then reads as expired. */
  lemma AuthenticateSignedToken(jwt: Jwt, scheme: string, p: Payload, now: int)
    requires JwtSound(jwt) && ' ' !in scheme
    ensures Authenticate(jwt, scheme + " " + jwt.sign(p), now) ==
      if now < p.exp then Authenticated(p) else Rejected(401, TokenExpired)
  {
    BearerTokenOfHeader(scheme, jwt.sign(p), "");
    assert scheme + " " + jwt.sign(p) + "" == scheme + " " + jwt.sign(p);
  }

  // ---------------------------------------------------------------------------
  // Handlers as step functions

  /**
   * The user record `POST /auth/register` builds. The clock is read once for
   * each timestamp, so the two may differ.
   */
  function NewUser(hasher: Hasher, email: string, password: string,
                   firstName: string, lastName: string, id: string,
                   createdAt: string, updatedAt: string): User
  {
    User(id, email, hasher.hash(password), firstName, lastName, "user", createdAt, updatedAt)
  }

  /** `POST /auth/register`. */
  function RegisterStep(s: Sessions, hasher: Hasher, email: string, password: string,
                        firstName: string, lastName: string, id: string,
                        createdAt: string, updatedAt: string): (r: Step<PublicUser>)
    ensures r.after.refreshTokens == s.refreshTokens
    ensures r.response.Err? ==> r.after == s
    ensures email == "" || password == "" ==> r.response == Err(400, MissingFields)
    ensures email != "" && password != "" && |password| < MinPasswordLength ==>
      r.response == Err(400, PasswordTooShort)
    ensures email != "" && |password| >= MinPasswordLength && FindUserByEmail(s.users, email).Some? ==>
      r.response == Err(409, EmailExists)
    ensures r.response.Ok? <==>
      email != "" && |password| >= MinPasswordLength && FindUserByEmail(s.users, email).None?
    ensures r.response.Ok? ==>
      && |r.after.users| == |s.users| + 1
      && r.after.users[..|s.users|] == s.users
      && var u := r.after.users[|s.users|];
         && u.id == id && u.email == email && u.password == hasher.hash(password)
         && u.firstName == firstName && u.lastName == lastName && u.role == "user"
         && u.createdAt == createdAt && u.updatedAt == updatedAt
         && r.response == Ok(201, Sanitize(u))
    ensures EmailsDistinct(s.users) ==> EmailsDistinct(r.after.users)
  {
    if email == "" || password == "" then Step(s, Err(400, MissingFields))
    else if |password| < MinPasswordLength then Step(s, Err(400, PasswordTooShort))
    else if FindUserByEmail(s.users, email).Some? then Step(s, Err(409, EmailExists))
    else
      var u := NewUser(hasher, email, password, firstName, lastName, id, createdAt, updatedAt);
      assert (s.users + [u])[..|s.users|] == s.users;
      Step(Sessions(s.users + [u], s.refreshTokens), Ok(201, Sanitize(u)))
  }

  /** The stored user with this email exists and its digest accepts the password. */
  predicate CredentialsMatch(users: seq<User>, hasher: Hasher, email: string, password: string) {
    match FindUserByEmail(users, email)
    case None => false
    case Some(u) => hasher.compare(password, u.password)
  }

  /** `POST /auth/login`. */
  function LoginStep(s: Sessions, jwt: Jwt, hasher: Hasher,
                     email: string, password: string, now: int): (r: Step<LoginBody>)
    ensures r.after.users == s.users
    ensures r.response.Err? ==> r.after == s
    ensures r.response.Ok? <==> email != "" && password != "" && CredentialsMatch(s.users, hasher, email, password)
    ensures r.response.Err? ==>
      r.response == if email == "" || password == "" then Err(400, MissingFields) else Err(401, InvalidCredentials)
    ensures r.response.Ok? ==>
      && FindUserByEmail(s.users, email).Some?
      && var pair := GenerateTokens(jwt, FindUserByEmail(s.users, email).value, now);
         && r.response == Ok(200, LoginBody(pair.accessToken, pair.refreshToken,
                                            Sanitize(FindUserByEmail(s.users, email).value)))
         && r.after.refreshTokens == s.refreshTokens + {pair.refreshToken}
  {
    if email == "" || password == "" then Step(s, Err(400, MissingFields))
    else
      match FindUserByEmail(s.users, email)
      case None => Step(s, Err(401, InvalidCredentials))
      case Some(u) =>
        if !hasher.compare(password, u.password) then Step(s, Err(401, InvalidCredentials))
        else
          var pair := GenerateTokens(jwt, u, now);
          Step(Sessions(s.users, s.refreshTokens + {pair.refreshToken}),
               Ok(200, LoginBody(pair.accessToken, pair.refreshToken, Sanitize(u))))
  }

  /** `POST /auth/refresh`: a token is honoured once, only while it is in the set. */
  function RefreshStep(s: Sessions, jwt: Jwt, token: string, now: int): (r: Step<TokenPair>)
    ensures r.after.users == s.users
    ensures token == "" ==> r == Step(s, Err(400, TokenMissing))
    ensures token != "" && token !in s.refreshTokens ==> r == Step(s, Err(403, TokenInvalid))
    ensures token != "" && token in s.refreshTokens && r.response.Err? ==>
      r.after.refreshTokens == s.refreshTokens - {token}
    ensures r.response.Ok? ==>
      r.after.refreshTokens == s.refreshTokens - {token} + {r.response.body.refreshToken}
    ensures r.response.Ok? ==>
      && jwt.verify(token, now).Decoded?
      && FindUserById(s.users, jwt.verify(token, now).payload.claims.id).Some?
      && r.response == Ok(200, GenerateTokens(jwt, FindUserById(s.users, jwt.verify(token, now).payload.claims.id).value, now))
    ensures r.response.Ok? <==>
      && token != "" && token in s.refreshTokens
      && jwt.verify(token, now).Decoded?
      && FindUserById(s.users, jwt.verify(token, now).payload.claims.id).Some?
    ensures r.response.Err? ==>
      r.response in {Err(400, TokenMissing), Err(403, TokenInvalid), Err(403, UserNotFound)}
    ensures r.response.Err? && r.response.code == UserNotFound ==>
      jwt.verify(token, now).Decoded? && FindUserById(s.users, jwt.verify(token, now).payload.claims.id).None?
    ensures token != "" && token in s.refreshTokens && !jwt.verify(token, now).Decoded? ==>
      r.response == Err(403, TokenInvalid)
    ensures token != "" && token in s.refreshTokens && jwt.verify(token, now).Decoded? &&
            FindUserById(s.users, jwt.verify(token, now).payload.claims.id).None? ==>
      r.response == Err(403, UserNotFound)
  {
    if token == "" then Step(s, Err(400, TokenMissing))
    else if token !in s.refreshTokens then Step(s, Err(403, TokenInvalid))
    else
      var remaining := s.refreshTokens - {token};
      match jwt.verify(token, now)
      case Expired => Step(Sessions(s.users, remaining), Err(403, TokenInvalid))
      case Invalid => Step(Sessions(s.users, remaining), Err(403, TokenInvalid))
      case Decoded(p) =>
        match FindUserById(s.users, p.claims.id)
        case None => Step(Sessions(s.users, remaining), Err(403, UserNotFound))
        case Some(u) =>
          var pair := GenerateTokens(jwt, u, now);
          Step(Sessions(s.users, remaining + {pair.refreshToken}), Ok(200, pair))
  }

  /** `POST /auth/logout`: always succeeds, and forgets the token if one is given. */
  function LogoutStep(s: Sessions, token: string): (r: Step<()>)
    ensures r.response == Ok(200, ())
    ensures r.after.users == s.users
    ensures token != "" ==> token !in r.after.refreshTokens
    ensures r.after.refreshTokens <= s.refreshTokens
    ensures s.refreshTokens - r.after.refreshTokens <= {token}
    ensures token == "" ==> r.after == s
  {
    if token != "" then Step(Sessions(s.users, s.refreshTokens - {token}), Ok(200, ()))
    else Step(s, Ok(200, ()))
  }

  /** `GET /auth/me`: `authenticateToken`, then the user named by the token's `id` claim. */
  function Me(users: seq<User>, jwt: Jwt, authorization: string, now: int): (r: Response<PublicUser>)
    ensures r.Ok? <==>
      Authenticate(jwt, authorization, now).Authenticated? &&
      FindUserById(users, Authenticate(jwt, authorization, now).payload.claims.id).Some?
    ensures r.Ok? ==> r.status == 200 && exists k | 0 <= k < |users| ::
      && users[k].id == Authenticate(jwt, authorization, now).payload.claims.id
      && (forall j | 0 <= j < k :: users[j].id != users[k].id)
      && r.body == Sanitize(users[k])
    ensures Authenticate(jwt, authorization, now).Rejected? ==>
      r == Err(Authenticate(jwt, authorization, now).status, Authenticate(jwt, authorization, now).code)
    ensures Authenticate(jwt, authorization, now).Authenticated? &&
            FindUserById(users, Authenticate(jwt, authorization, now).payload.claims.id).None? ==>
      r == Err(404, UserNotFound)
  {
    match Authenticate(jwt, authorization, now)
    case Rejected(status, code) => Err(status, code)
    case Authenticated(p) =>
      match FindUserById(users, p.claims.id)
      case None => Err(404, UserNotFound)
      case Some(u) => Ok(200, Sanitize(u))
  }

  // ---------------------------------------------------------------------------
  // Properties that span several requests

  lemma {:induction false} CountEmailAppend(users: seq<User>, u: User, email: string)
    ensures CountEmail(users + [u], email) == CountEmail(users, email) + (if u.email == email then 1 else 0)
  {
    assert (users + [u])[..|users|] == users;
  }

  lemma {:induction false} CountEmailAbsent(users: seq<User>, email: string)
    requires forall k | 0 <= k < |users| :: users[k].email != email
    ensures CountEmail(users, email) == 0
  {
    if users != [] {
      CountEmailAbsent(users[..|users| - 1], email);
    }
  }

  /** Registering an email a second time is refused with EMAIL_EXISTS and leaves exactly one user with it. */
  lemma RegisterSameEmailTwice(s: Sessions, hasher: Hasher, email: string,
                               password1: string, firstName1: string, lastName1: string, id1: string,
                               created1: string, updated1: string,
                               password2: string, firstName2: string, lastName2: string, id2: string,
                               created2: string, updated2: string)
    requires RegisterStep(s, hasher, email, password1, firstName1, lastName1, id1, created1, updated1).response.Ok?
    requires |password2| >= MinPasswordLength
    ensures var first := RegisterStep(s, hasher, email, password1, firstName1, lastName1, id1, created1, updated1);
      var second := RegisterStep(first.after, hasher, email, password2, firstName2, lastName2, id2, created2, updated2);
      && second == Step(first.after, Err(409, EmailExists))
      && CountEmail(second.after.users, email) == 1
  {
    var first := RegisterStep(s, hasher, email, password1, firstName1, lastName1, id1, created1, updated1);
    var u := first.after.users[|s.users|];
    assert first.after.users == s.users + [u];
    CountEmailAbsent(s.users, email);
    CountEmailAppend(s.users, u, email);
    assert FindUserByEmail(first.after.users, email).Some? by {
      assert first.after.users[|s.users|].email == email;
    }
  }

  /** An unknown email and a wrong password get the very same response, and neither changes the store. */
  lemma LoginHidesWhetherEmailIsRegistered(s: Sessions, jwt: Jwt, hasher: Hasher,
                                           unknown: string, password1: string,
                                           known: string, password2: string, now: int)
    requires unknown != "" && password1 != "" && known != "" && password2 != ""
    requires FindUserByEmail(s.users, unknown).None?
    requires FindUserByEmail(s.users, known).Some?
    requires !hasher.compare(password2, FindUserByEmail(s.users, known).value.password)
    ensures LoginStep(s, jwt, hasher, unknown, password1, now) == Step(s, Err(401, InvalidCredentials))
    ensures LoginStep(s, jwt, hasher, known, password2, now) == Step(s, Err(401, InvalidCredentials))
  {
  }

  /**
   * Whoever registers can log in with the same credentials, and the access
   * token they get decodes to their id, email and role until it expires.
   */
  lemma RegisterThenLogin(s: Sessions, jwt: Jwt, hasher: Hasher, email: string, password: string,
                          firstName: string, lastName: string, id: string, created: string, updated: string,
                          now: int, later: int)
    requires HasherSound(hasher) && JwtSound(jwt)
    requires RegisterStep(s, hasher, email, password, firstName, lastName, id, created, updated).response.Ok?
    requires later < now + AccessTtl
    ensures var registered := RegisterStep(s, hasher, email, password, firstName, lastName, id, created, updated);
      var login := LoginStep(registered.after, jwt, hasher, email, password, now);
      && login.response.Ok?
      && jwt.verify(login.response.body.accessToken, later) ==
           Decoded(Payload(AccessClaims(id, email, "user"), now, now + AccessTtl))
  {
    var registered := RegisterStep(s, hasher, email, password, firstName, lastName, id, created, updated);
    var u := registered.after.users[|s.users|];
    assert registered.after.users == s.users + [u];
    var found := FindUserByEmail(registered.after.users, email);
    assert found == Some(u) by {
      assert registered.after.users[|s.users|].email == email;
    }
    assert hasher.compare(password, u.password);
    GeneratedTokensVerify(jwt, u, now, later);
  }

  /**
   * Once a refresh token has been presented, it is refused from then on:
   * whether its redemption failed or succeeded, unless the successful
   * rotation handed back the very same string.
   */
  lemma RedeemedTokenIsRefused(s: Sessions, jwt: Jwt, token: string, now: int, later: int)
    requires token != "" && token in s.refreshTokens
    requires var first := RefreshStep(s, jwt, token, now);
      first.response.Err? || first.response.body.refreshToken != token
    ensures var first := RefreshStep(s, jwt, token, now);
      RefreshStep(first.after, jwt, token, later) == Step(first.after, Err(403, TokenInvalid))
  {
  }

  /**
   * jsonwebtoken's `iat` counts whole seconds, so a token is a function of the
   * user id and the second it was signed in: rotating a refresh token in the
   * second it was issued hands back the same string, which stays redeemable.
   */
  lemma RotationInSameSecondReissuesToken(s: Sessions, jwt: Jwt, u: User, now: int)
    requires JwtSound(jwt)
    requires GenerateTokens(jwt, u, now).refreshToken in s.refreshTokens
    requires FindUserById(s.users, u.id).Some?
    ensures var token := GenerateTokens(jwt, u, now).refreshToken;
      var r := RefreshStep(s, jwt, token, now);
      r.response.Ok? && r.response.body.refreshToken == token && token in r.after.refreshTokens
  {
    GeneratedTokensVerify(jwt, u, now, now);
  }

  /** Refresh at each second of `times` in turn, each time with the token the previous call returned. */
  function RefreshChain(s: Sessions, jwt: Jwt, token: string, times: seq<int>): (Sessions, seq<Response<TokenPair>>)
    decreases |times|
  {
    if times == [] then (s, [])
    else
      var first := RefreshStep(s, jwt, token, times[0]);
      var next := if first.response.Ok? then first.response.body.refreshToken else token;
      var rest := RefreshChain(first.after, jwt, next, times[1..]);
      (rest.0, [first.response] + rest.1)
  }

  /** Each second of `times` comes before the expiry of the token issued at the one before it. */
  ghost predicate InTime(iat: int, times: seq<int>)
    decreases |times|
  {
    times == [] || (times[0] < iat + RefreshTtl && InTime(times[0], times[1..]))
  }

  /**
   * Rotation chain: a refresh token issued at `iat` to a stored user can be
   * rotated again and again, for any number of steps, as long as each
   * rotation comes before the current token expires.
   */
  lemma {:induction false} RotationChain(s: Sessions, jwt: Jwt, id: string, iat: int, times: seq<int>)
    requires JwtSound(jwt)
    requires FindUserById(s.users, id).Some?
    requires jwt.sign(Payload(RefreshClaims(id), iat, iat + RefreshTtl)) in s.refreshTokens
    requires InTime(iat, times)
    decreases |times|
    ensures var chain := RefreshChain(s, jwt, jwt.sign(Payload(RefreshClaims(id), iat, iat + RefreshTtl)), times);
      && |chain.1| == |times|
      && forall k | 0 <= k < |times| :: chain.1[k].Ok?
  {
    if times != [] {
      var token := jwt.sign(Payload(RefreshClaims(id), iat, iat + RefreshTtl));
      var first := RefreshStep(s, jwt, token, times[0]);
      assert jwt.verify(token, times[0]) == Decoded(Payload(RefreshClaims(id), iat, iat + RefreshTtl));
      var u := FindUserById(s.users, id).value;
      assert first.response == Ok(200, GenerateTokens(jwt, u, times[0]));
      RotationChain(first.after, jwt, id, times[0], times[1..]);
    }
  }

  /** Logging out twice leaves the store as logging out once. */
  lemma LogoutIsIdempotent(s: Sessions, token: string)
    ensures LogoutStep(LogoutStep(s, token).after, token) == LogoutStep(s, token)
  {
  }

  /** A token that has been logged out is refused by refresh. */
  lemma LoggedOutTokenIsRefused(s: Sessions, jwt: Jwt, token: string, now: int)
    requires token != ""
    ensures var out := LogoutStep(s, token).after;
      RefreshStep(out, jwt, token, now) == Step(out, Err(403, TokenInvalid))
  {
  }

  // ---------------------------------------------------------------------------
  // The store, changed in place

  class SessionStore {
    var users: seq<User>
    var refreshTokens: set<string>
    const jwt: Jwt
    const hasher: Hasher

    ghost predicate Valid()
      reads this
    {
      EmailsDistinct(users)
    }

    ghost function State(): Sessions
      reads this
    {
      Sessions(users, refreshTokens)
    }

    constructor (jwt: Jwt, hasher: Hasher)
      ensures Valid() && State() == Sessions([], {})
      ensures this.jwt == jwt && this.hasher == hasher
    {
      this.jwt := jwt;
      this.hasher := hasher;
      users := [];
      refreshTokens := {};
    }

    method Register(email: string, password: string, firstName: string, lastName: string,
                    id: string, createdAt: string, updatedAt: string) returns (r: Response<PublicUser>)
      requires Valid()
      modifies this`users
      ensures Valid()
      ensures Step(State(), r) == RegisterStep(old(State()), hasher, email, password, firstName, lastName, id, createdAt, updatedAt)
    {
      if email == "" || password == "" {
        return Err(400, MissingFields);
      }
      if |password| < MinPasswordLength {
        return Err(400, PasswordTooShort);
      }
      if FindUserByEmail(users, email).Some? {
        return Err(409, EmailExists);
      }
      var hashed := hasher.hash(password);
      var user := User(id, email, hashed, firstName, lastName, "user", createdAt, updatedAt);
      users := users + [user];
      r := Ok(201, Sanitize(user));
    }

    method Login(email: string, password: string, now: int) returns (r: Response<LoginBody>)
      requires Valid()
      modifies this`refreshTokens
      ensures Valid()
      ensures Step(State(), r) == LoginStep(old(State()), jwt, hasher, email, password, now)
    {
      if email == "" || password == "" {
        return Err(400, MissingFields);
      }
      var found := FindUserByEmail(users, email);
      if found.None? {
        return Err(401, InvalidCredentials);
      }
      var user := found.value;
      var isValidPassword := hasher.compare(password, user.password);
      if !isValidPassword {
        return Err(401, InvalidCredentials);
      }
      var pair := GenerateTokens(jwt, user, now);
      refreshTokens := refreshTokens + {pair.refreshToken};
      r := Ok(200, LoginBody(pair.accessToken, pair.refreshToken, Sanitize(user)));
    }

    method Refresh(token: string, now: int) returns (r: Response<TokenPair>)
      requires Valid()
      modifies this`refreshTokens
      ensures Valid()
      ensures Step(State(), r) == RefreshStep(old(State()), jwt, token, now)
    {
      if token == "" {
        return Err(400, TokenMissing);
      }
      if token !in refreshTokens {
        return Err(403, TokenInvalid);
      }
      var verified := jwt.verify(token, now);
      if !verified.Decoded? {
        refreshTokens := refreshTokens - {token};
        return Err(403, TokenInvalid);
      }
      var found := FindUserById(users, verified.payload.claims.id);
      if found.None? {
        refreshTokens := refreshTokens - {token};
        return Err(403, UserNotFound);
      }
      refreshTokens := refreshTokens - {token};
      var pair := GenerateTokens(jwt, found.value, now);
      refreshTokens := refreshTokens + {pair.refreshToken};
      r := Ok(200, pair);
    }

    method Logout(token: string) returns (r: Response<()>)
      requires Valid()
      modifies this`refreshTokens
      ensures Valid()
      ensures Step(State(), r) == LogoutStep(old(State()), token)
    {
      if token != "" {
        refreshTokens := refreshTokens - {token};
      }
      r := Ok(200, ());
    }
  }
}
