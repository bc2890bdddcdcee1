/** Sign-up, login, token refresh and token-subject validation over the
    database's user table, which is not the user service's in-memory array.
    bcrypt and the JWT library are opaque: they are passed in as
    functions, and the only property assumed of them is that a password
    matches its own hash. */
module Auth {
  import opened Common
  import opened Lists
  import opened Users

  /** The claims both tokens carry. */
  datatype JwtPayload = JwtPayload(userId: string, login: string)

  /** The opaque primitives. `hash(password, salt)` is `bcrypt.hash` with the
      salt it draws; `verify` yields `None` where `jwtService.verify` throws
      (bad signature, expired, malformed). */
  datatype Crypto = Crypto(
    hash: (string, string) -> string,
    compare: (string, string) -> bool,
    sign: (JwtPayload, string, string) -> string,
    verify: (string, string) -> Option<JwtPayload>)

  /** `bcrypt.compare(p, bcrypt.hash(p, salt))` holds for every password. */
  ghost predicate HashMatches(c: Crypto)
  {
    forall p, salt :: c.compare(p, c.hash(p, salt))
  }

  /** `JWT_ACCESS_SECRET`, `JWT_ACCESS_EXPIRES_IN`, `JWT_REFRESH_SECRET`,
      `JWT_REFRESH_EXPIRES_IN` from the configuration. */
  datatype JwtConfig = JwtConfig(accessSecret: string, accessExpiresIn: string, refreshSecret: string, refreshExpiresIn: string)

  /** The credentials are checked with `typeof`, so they arrive untyped. */
  datatype Credentials = Credentials(login: Field<Json>, password: Field<Json>)

  datatype RefreshTokenDto = RefreshTokenDto(refreshToken: Field<string>)

  datatype AuthResponse = AuthResponse(accessToken: string, refreshToken: string)

  /** The `unique: true` constraint on the `login` column. */
  function UserLogin(u: User): string
  {
    u.login
  }

  /** Both logins and passwords are non-empty strings. */
  predicate WellFormed(dto: Credentials)
  {
    IsNonEmptyString(dto.login) && IsNonEmptyString(dto.password)
  }

  /** `findOne({ where: { login } })`: the first user with this login. */
  function LoginPosition(users: seq<User>, login: string): (r: int)
    ensures -1 <= r < |users|
    ensures r == -1 <==> forall j :: 0 <= j < |users| ==> users[j].login != login
    ensures r >= 0 ==> users[r].login == login && forall j :: 0 <= j < r ==> users[j].login != login
  {
    FindIndex(users, (u: User) => u.login == login)
  }

  /** `generateAccessToken` and `generateRefreshToken` over one payload:
      each token is signed with its own secret and expiry. */
  function IssueTokens(c: Crypto, cfg: JwtConfig, payload: JwtPayload): (r: AuthResponse)
    ensures r.accessToken == c.sign(payload, cfg.accessSecret, cfg.accessExpiresIn)
    ensures r.refreshToken == c.sign(payload, cfg.refreshSecret, cfg.refreshExpiresIn)
  {
    AuthResponse(
      c.sign(payload, cfg.accessSecret, cfg.accessExpiresIn),
      c.sign(payload, cfg.refreshSecret, cfg.refreshExpiresIn))
  }

  /** `login`. An unknown login and a wrong password fail alike. */
  function Login(users: seq<User>, c: Crypto, cfg: JwtConfig, dto: Credentials): (r: Result<AuthResponse>)
    ensures !WellFormed(dto) ==> r == Err(BadRequest("Login and password must be provided as strings"))
    ensures WellFormed(dto) ==>
      var i := LoginPosition(users, dto.login.value.s);
      r.Ok? <==> i != -1 && c.compare(dto.password.value.s, users[i].password)
    ensures WellFormed(dto) && r.Err? ==> r == Err(Forbidden("Authentication failed"))
    ensures WellFormed(dto) && r.Ok? ==>
      var i := LoginPosition(users, dto.login.value.s);
      r.value == IssueTokens(c, cfg, JwtPayload(users[i].id, users[i].login))
  {
    if !WellFormed(dto) then Err(BadRequest("Login and password must be provided as strings"))
    else
      var i := LoginPosition(users, dto.login.value.s);
      if i == -1 then Err(Forbidden("Authentication failed"))
      else if !c.compare(dto.password.value.s, users[i].password) then Err(Forbidden("Authentication failed"))
      else Ok(IssueTokens(c, cfg, JwtPayload(users[i].id, users[i].login)))
  }

  /** `refresh`. Everything that goes wrong after the emptiness check is
      reported as the same Forbidden error. */
  function Refresh(users: seq<User>, c: Crypto, cfg: JwtConfig, dto: RefreshTokenDto): (r: Result<AuthResponse>)
    ensures !Filled(dto.refreshToken) ==> r == Err(Unauthorized("Refresh token is required"))
    ensures Filled(dto.refreshToken) ==>
      var claims := c.verify(dto.refreshToken.value, cfg.refreshSecret);
      r.Ok? <==> claims.Some? && UserPosition(users, claims.value.userId) != -1
    ensures Filled(dto.refreshToken) && r.Err? ==> r == Err(Forbidden("Invalid or expired refresh token"))
    ensures r.Ok? ==>
      var claims := c.verify(dto.refreshToken.value, cfg.refreshSecret);
      var i := UserPosition(users, claims.value.userId);
      r.value == IssueTokens(c, cfg, JwtPayload(users[i].id, users[i].login))
  {
    if !Filled(dto.refreshToken) then Err(Unauthorized("Refresh token is required"))
    else
      var claims := c.verify(dto.refreshToken.value, cfg.refreshSecret);
      if claims.None? then Err(Forbidden("Invalid or expired refresh token"))
      else
        var i := UserPosition(users, claims.value.userId);
        if i == -1 then Err(Forbidden("Invalid or expired refresh token"))
        else Ok(IssueTokens(c, cfg, JwtPayload(users[i].id, users[i].login)))
  }

  /** `validateUser`: the stored user the token names. */
  function ValidateUser(users: seq<User>, payload: JwtPayload): (r: Result<User>)
    ensures r.Ok? <==> exists i :: 0 <= i < |users| && users[i].id == payload.userId
    ensures r.Ok? ==> r.value == users[UserPosition(users, payload.userId)]
    ensures r.Err? ==> r == Err(Unauthorized("User not found"))
  {
    var i := UserPosition(users, payload.userId);
    if i == -1 then Err(Unauthorized("User not found")) else Ok(users[i])
  }

  /** With the login column unique, the user `findOne` picks is the only one
      with that login: logging in succeeds exactly when that user's stored
      hash matches, and signs for that user. */
  lemma LoginFindsTheOneUser(users: seq<User>, c: Crypto, cfg: JwtConfig, dto: Credentials, k: int)
    requires UniqueBy(users, UserLogin) && WellFormed(dto)
    requires 0 <= k < |users| && users[k].login == dto.login.value.s
    ensures LoginPosition(users, dto.login.value.s) == k
    ensures Login(users, c, cfg, dto).Ok? <==> c.compare(dto.password.value.s, users[k].password)
    ensures Login(users, c, cfg, dto).Ok? ==>
      Login(users, c, cfg, dto).value == IssueTokens(c, cfg, JwtPayload(users[k].id, users[k].login))
  {
    var i := LoginPosition(users, dto.login.value.s);
    assert i != -1;
  }

  /** The record `signUp` saves: the hash, never the raw password. */
  function RegisteredUser(c: Crypto, newId: string, login: string, password: string, salt: string, now: int): (r: User)
    ensures r.id == newId && r.login == login && r.version == 1 && r.createdAt == now == r.updatedAt
    ensures r.password == c.hash(password, salt)
    ensures HashMatches(c) ==> c.compare(password, r.password)
  {
    User(newId, login, c.hash(password, salt), 1, now, now)
  }

  /** Signing up and then logging in with the same credentials succeeds and
      issues the tokens of the new user. */
  lemma LoginAfterSignUp(users: seq<User>, c: Crypto, cfg: JwtConfig, newId: string, login: string, password: string, salt: string, now: int)
    requires HashMatches(c)
    requires login != "" && password != ""
    requires forall j :: 0 <= j < |users| ==> users[j].login != login
    ensures
      var dto := Credentials(Defined(JStr(login)), Defined(JStr(password)));
      Login(users + [RegisteredUser(c, newId, login, password, salt, now)], c, cfg, dto)
        == Ok(IssueTokens(c, cfg, JwtPayload(newId, login)))
  {
    var after := users + [RegisteredUser(c, newId, login, password, salt, now)];
    assert after[|users|].login == login;
    var i := LoginPosition(after, login);
    assert i != -1;
    assert i == |users|;
    assert c.compare(password, c.hash(password, salt));
  }

  /** The `users` table the injected repository reads and writes: the
      primary key and the unique login column hold. */
  class UserRepository {
    var users: seq<User>

    ghost predicate Valid()
      reads this
    {
      UniqueBy(users, UserId) && UniqueBy(users, UserLogin)
    }

    constructor ()
      ensures Valid() && users == []
    {
      users := [];
    }
  }

  class AuthService {
    const repository: UserRepository
    const crypto: Crypto
    const config: JwtConfig

    constructor (repository: UserRepository, crypto: Crypto, config: JwtConfig)
      ensures this.repository == repository && this.crypto == crypto && this.config == config
    {
      this.repository := repository;
      this.crypto := crypto;
      this.config := config;
    }

    /** `signUp`: `newId` is the id the repository generates, `salt` the one
        bcrypt draws (10 rounds) and `now` the save time. It answers with a
        message only. */
    method SignUp(dto: Credentials, newId: string, salt: string, now: int) returns (r: Result<string>)
      requires repository.Valid()
      requires forall j :: 0 <= j < |repository.users| ==> repository.users[j].id != newId
      modifies repository
      ensures repository.Valid()
      ensures !WellFormed(dto) ==>
        r == Err(BadRequest("Login and password must be provided as strings")) && repository.users == old(repository.users)
      ensures WellFormed(dto) && LoginPosition(old(repository.users), dto.login.value.s) != -1 ==>
        r == Err(BadRequest("User with this login already exists")) && repository.users == old(repository.users)
      ensures WellFormed(dto) && LoginPosition(old(repository.users), dto.login.value.s) == -1 ==>
        && r == Ok("User registered successfully")
        && repository.users == old(repository.users)
             + [RegisteredUser(crypto, newId, dto.login.value.s, dto.password.value.s, salt, now)]
    {
      if !WellFormed(dto) {
        return Err(BadRequest("Login and password must be provided as strings"));
      }
      var login, password := dto.login.value.s, dto.password.value.s;
      if LoginPosition(repository.users, login) != -1 {
        return Err(BadRequest("User with this login already exists"));
      }
      var hashedPassword := crypto.hash(password, salt);
      var user := User(newId, login, hashedPassword, 1, now, now);
      repository.users := repository.users + [user];
      r := Ok("User registered successfully");
    }
  }
}
