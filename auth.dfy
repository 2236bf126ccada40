/** The auth service: credential check, login with session creation or rotation, access
    token refresh, logout from one or all devices, and the verification-code password reset.
    Read-only flows are functions of the stores they read; the flows that write are methods
    of AuthService, each proved equal to a specification function on store values. */
module Auth {
  import opened Wrappers
  import opened Documents
  import opened Repositories
  import opened RefreshSessions
  import opened Tokens
  import opened VerificationCodes

  /** A user document of the directory; `password` holds the bcrypt hash. */
  datatype UserRecord = UserRecord(_id: string, login: string, password: string, firstName: string, lastName: string)

  /** What `validateUser` returns. `const { password, ...result } = user` on a Mongoose
      document copies its own properties, so `password` is gone from the top level while the
      stored record stays reachable under `_doc`, which `login` reads. */
  datatype ValidatedUser = ValidatedUser(_doc: UserRecord)

  datatype LoginDto = LoginDto(login: string, password: string)
  datatype RegisterUserDto = RegisterUserDto(login: string, password: string, firstName: string, lastName: string)
  datatype ResetPasswordDto = ResetPasswordDto(email: string, code: string, newPassword: string)

  /** The user the JWT guard puts on the request: `{ userId }`. */
  datatype PayloadUser = PayloadUser(userId: string)

  datatype TokenPair = TokenPair(accessToken: TokenDto, refreshToken: TokenDto)

  /** `{ status: 'success', data }` or `{ status: 'fail', message }`. */
  datatype RegistrationResult = Success(data: UserRecord) | Fail(message: HttpError)

  /** Calls made to collaborators the model does not own, in order: a mail handed to the
      mailer, a password change handed to the user directory (which hashes it). */
  datatype Effect =
    | Mail(to: string, from: string, subject: string, text: string, html: string)
    | PasswordUpdate(email: string, newPassword: string)

  /** The environment of the service: configuration, the JWT library and `bcrypt.compare`
      (plain password, stored hash). */
  datatype Env = Env(config: Config, jwt: Jwt, passwordMatches: (string, string) -> bool)

  /** `usersService.findUserByLogin`: the first user with that login. */
  function FindUserByLogin(users: seq<UserRecord>, login: string): (r: Option<UserRecord>)
    ensures r.Some? ==> r.value in users && r.value.login == login
    ensures r.Some? ==> exists i :: 0 <= i < |users| && users[i] == r.value && forall j :: 0 <= j < i ==> users[j].login != login
    ensures r.None? ==> forall u :: u in users ==> u.login != login
  {
    if users == [] then None
    else if users[0].login == login then Some(users[0])
    else
      var rest := FindUserByLogin(users[1..], login);
      if rest.Some? then
        ghost var i :| 0 <= i < |users[1..]| && users[1..][i] == rest.value && forall j :: 0 <= j < i ==> users[1..][j].login != login;
        assert users[i + 1] == rest.value;
        rest
      else rest
  }

  /** `usersService.getUserById`: the first user with that `_id`. */
  function GetUserById(users: seq<UserRecord>, id: string): (r: Option<UserRecord>)
    ensures r.Some? ==> r.value in users && r.value._id == id
    ensures r.None? ==> forall u :: u in users ==> u._id != id
  {
    if users == [] then None
    else if users[0]._id == id then Some(users[0])
    else GetUserById(users[1..], id)
  }

  /** `validateUser`: NotFound for an unknown login, Unauthorized when the password does not
      match the stored hash, otherwise the user without its top-level password. The final
      `return null` is unreachable: a success always carries a user. */
  function ValidateUser(env: Env, users: seq<UserRecord>, login: string, password: string): (r: Result<Option<ValidatedUser>>)
    ensures r.Ok? ==> r.value.Some?
    ensures r == Err(NotFound("There is no user with such an login")) <==> forall u :: u in users ==> u.login != login
    ensures r == Err(Unauthorized("Invalid password")) <==>
      FindUserByLogin(users, login).Some? && !env.passwordMatches(password, FindUserByLogin(users, login).value.password)
    ensures r.Ok? ==> (r.value.value._doc in users && r.value.value._doc.login == login &&
                       env.passwordMatches(password, r.value.value._doc.password))
    ensures r.Ok? ==> FindUserByLogin(users, login).Some? && r.value.value._doc == FindUserByLogin(users, login).value
  {
    var user := FindUserByLogin(users, login);
    if user.None? then Err(NotFound("There is no user with such an login"))
    else
      var comparePassword := env.passwordMatches(password, user.value.password);
      if !comparePassword then Err(Unauthorized("Invalid password"))
      else if user.Some? && comparePassword then Ok(Some(ValidatedUser(user.value)))
      else Ok(None)
  }

  /** The access token `login` and `refreshToken` issue for a user. */
  function AccessToken(env: Env, userId: string, now: int): TokenDto {
    CreateToken(env.jwt, userId, env.config.accessExpiresIn, env.config.accessSecret, now)
  }

  /** The refresh token `login` issues for a user. */
  function NewRefreshToken(env: Env, userId: string, now: int): TokenDto {
    CreateToken(env.jwt, userId, env.config.refreshExpiresIn, env.config.refreshSecret, now)
  }

  /** The refresh-session store as a value: its documents and the next `_id`. */
  datatype Store = Store(docs: seq<Doc>, nextId: nat)

  datatype LoginStep = LoginStep(after: Store, result: Result<TokenPair>)

  /** The access and refresh tokens a login issues to a user at time `now`. */
  function IssuedPair(env: Env, userId: string, now: int): TokenPair {
    TokenPair(AccessToken(env, userId, now), NewRefreshToken(env, userId, now))
  }

  /** The store after `createRefreshSession` for a user, a device and a refresh token. */
  function WithSession(before: Store, userId: string, device: Metadata, refreshToken: string): (after: Store)
    ensures after.nextId == before.nextId + 1 && |after.docs| == |before.docs| + 1
    ensures after.docs[..|before.docs|] == before.docs
    ensures after.docs[|before.docs|] == Doc(before.nextId, SessionFields(userId, device, refreshToken))
  {
    Store(before.docs + [Doc(before.nextId, SessionFields(userId, device, refreshToken))], before.nextId + 1)
  }

  /** `login` as written. After the credential check, with no session for (ip, ua, userId)
      a pair is issued and one session created. Otherwise the `try` block always throws:
      `refreshSession` is the ARRAY `find` returned, so `.refreshToken` is undefined and
      verifying it fails, and were it to pass, "you are authorized" is thrown inside the same
      `try`. The `catch` issues a pair and writes the refresh token into the user's FIRST
      session, filtered by userId alone. */
  function LoginSpec(env: Env, users: seq<UserRecord>, before: Store, dto: LoginDto, device: Metadata, now: int): LoginStep {
    var validated := ValidateUser(env, users, dto.login, dto.password);
    if validated.Err? then LoginStep(before, Err(validated.error))
    else
      var userId := validated.value.value._doc._id;
      var pair := IssuedPair(env, userId, now);
      if Select(before.docs, DeviceQuery(device, userId)) == [] then
        LoginStep(WithSession(before, userId, device, pair.refreshToken.token), Ok(pair))
      else
        LoginStep(Store(PatchFirst(before.docs, UserQuery(userId), TokenPatch(pair.refreshToken.token)), before.nextId), Ok(pair))
  }

  /** The rejection `login` means to give a device whose session is still live. */
  const AlreadyAuthorized := BadRequest("you are authorized")

  /** The refresh token a stored document holds; undefined when it has none. */
  function SessionToken(d: Doc): (r: Option<string>)
    ensures r.Some? <==> RefreshTokenField in d.fields
    ensures r.Some? ==> r.value == d.fields[RefreshTokenField]
  {
    if RefreshTokenField in d.fields then Some(d.fields[RefreshTokenField]) else None
  }

  /** `login` as evidently intended: the device's own session is looked at; while its refresh
      token still verifies the login is refused and nothing changes, and once it does not,
      that same session (filtered by device and user) receives the new refresh token. */
  function LoginIntended(env: Env, users: seq<UserRecord>, before: Store, dto: LoginDto, device: Metadata, now: int): LoginStep {
    var validated := ValidateUser(env, users, dto.login, dto.password);
    if validated.Err? then LoginStep(before, Err(validated.error))
    else
      var userId := validated.value.value._doc._id;
      var pair := IssuedPair(env, userId, now);
      var refreshSession := Select(before.docs, DeviceQuery(device, userId));
      if refreshSession == [] then
        LoginStep(WithSession(before, userId, device, pair.refreshToken.token), Ok(pair))
      else if Verify(env.jwt, SessionToken(refreshSession[0]), env.config.refreshSecret, now) then
        LoginStep(before, Err(AlreadyAuthorized))
      else
        LoginStep(Store(PatchFirst(before.docs, DeviceQuery(device, userId), TokenPatch(pair.refreshToken.token)), before.nextId), Ok(pair))
  }

  /** The error every failure of `refreshToken` is turned into by its `catch`. */
  const InvalidRefreshToken := BadRequest("refresh token is not valid")

  /** `refreshToken`: fails unless some session of the device holds exactly this token and
      the token verifies under the refresh secret, every failure being the same BadRequest;
      on success an access token for the first such session's user. Nothing is written. */
  function RefreshToken(env: Env, sessions: seq<Doc>, refreshToken: string, device: Metadata, now: int): (r: Result<TokenDto>)
    requires AllSessions(sessions)
    ensures r.Err? ==> r.error == InvalidRefreshToken
    ensures r.Ok? <==>
      (exists d :: d in sessions && Matches(d, RefreshQuery(device, refreshToken))) &&
      Verify(env.jwt, Some(refreshToken), env.config.refreshSecret, now)
    ensures r.Ok? ==> exists d :: (d in sessions && Matches(d, RefreshQuery(device, refreshToken)) &&
                                   r.value == AccessToken(env, d.fields[UserIdField], now))
  {
    var refreshSession := Select(sessions, RefreshQuery(device, refreshToken));
    if |refreshSession| == 0 then Err(InvalidRefreshToken)
    else if !Verify(env.jwt, Some(refreshToken), env.config.refreshSecret, now) then Err(InvalidRefreshToken)
    else
      assert refreshSession[0] in refreshSession;
      Ok(AccessToken(env, refreshSession[0].fields[UserIdField], now))
  }

  datatype Removal = Removal(after: seq<Doc>, result: Result<()>)

  /** `deleteRefreshSessionById(query)`: NotFound when nothing matches, else every match goes. */
  function DeleteSessions(docs: seq<Doc>, query: Filter): (r: Removal)
    ensures Select(docs, query) == [] <==> r.result.Err?
    ensures r.result.Err? ==> r == Removal(docs, Err(SessionNotFound))
    ensures r.result.Ok? ==> forall d :: d in r.after <==> d in docs && !Matches(d, query)
  {
    if Select(docs, query) == [] then Removal(docs, Err(SessionNotFound))
    else Removal(Reject(docs, query), Ok(()))
  }

  /** `logoutFromDevice`: removes every session of the user on this device. */
  function LogoutFromDeviceSpec(docs: seq<Doc>, user: PayloadUser, device: Metadata): Removal {
    DeleteSessions(docs, DeviceQuery(device, user.userId))
  }

  /** `logoutFromAllDevices`: removes every session of the user. */
  function LogoutFromAllDevicesSpec(docs: seq<Doc>, user: PayloadUser): Removal {
    DeleteSessions(docs, UserQuery(user.userId))
  }

  /** The verification-code cache (email to code) and the collaborator calls made so far. */
  datatype CodeStore = CodeStore(cache: map<string, string>, sent: seq<Effect>)

  function VerificationMail(from: string, email: string, code: string): Effect {
    Mail(email, from, "Verification Code", "code", VerificationHtml(code))
  }

  /** `sendVerificationCodeByEmail`: the hex code of 32 random bytes replaces the email's
      cache entry, and a mail embedding it goes to that email. */
  function SendVerificationCodeSpec(before: CodeStore, from: string, email: string, random: Bytes32): CodeStore {
    var code := Hex(random);
    CodeStore(before.cache[email := code], before.sent + [VerificationMail(from, email, code)])
  }

  datatype ResetStep = ResetStep(after: CodeStore, result: Result<()>)

  /** The code on file for an email: a missing key reads as null. */
  function CachedCode(cache: map<string, string>, email: string): Option<string> {
    if email in cache then Some(cache[email]) else None
  }

  /** `resetPassword`: unless the cached code equals the supplied one (none on file never
      does), BadRequest and nothing changes; otherwise the new password goes to the user
      directory and then the code is deleted. */
  function ResetPasswordSpec(before: CodeStore, dto: ResetPasswordDto): ResetStep {
    if CachedCode(before.cache, dto.email) != Some(dto.code) then ResetStep(before, Err(BadRequest("not valid code")))
    else ResetStep(CodeStore(before.cache - {dto.email}, before.sent + [PasswordUpdate(dto.email, dto.newPassword)]), Ok(()))
  }

  class AuthService {
    const env: Env
    const refreshSessions: RefreshSessionService
    /** The user directory, in insertion order. */
    var users: seq<UserRecord>
    /** The verification-code cache: email to code. */
    var cache: map<string, string>
    /** Collaborator calls made so far. */
    var sent: seq<Effect>

    ghost predicate Valid()
      reads refreshSessions.repo
    {
      refreshSessions.Valid()
    }

    ghost function Sessions(): Store
      reads refreshSessions.repo
    {
      Store(refreshSessions.repo.docs, refreshSessions.repo.nextId)
    }

    ghost function Codes(): CodeStore
      reads this
    {
      CodeStore(cache, sent)
    }

    constructor (env: Env, refreshSessions: RefreshSessionService, users: seq<UserRecord>)
      requires refreshSessions.Valid()
      ensures Valid() && this.env == env && this.refreshSessions == refreshSessions
      ensures this.users == users && cache == map[] && sent == []
    {
      this.env := env;
      this.refreshSessions := refreshSessions;
      this.users := users;
      cache := map[];
      sent := [];
    }

    /** `login`, step by step through the session service. */
    method Login(dto: LoginDto, device: Metadata, now: int) returns (r: Result<TokenPair>)
      requires Valid()
      modifies refreshSessions.repo
      ensures Valid()
      ensures LoginStep(Sessions(), r) == LoginSpec(env, users, old(Sessions()), dto, device, now)
    {
      var validated := ValidateUser(env, users, dto.login, dto.password);
      if validated.Err? {
        return Err(validated.error);
      }
      var user := validated.value.value._doc;
      var refreshSession := refreshSessions.GetRefreshSession(DeviceQuery(device, user._id));
      if |refreshSession| == 0 {
        var accessToken := CreateToken(env.jwt, user._id, env.config.accessExpiresIn, env.config.accessSecret, now);
        var refreshToken := CreateToken(env.jwt, user._id, env.config.refreshExpiresIn, env.config.refreshSecret, now);
        var created := refreshSessions.CreateRefreshSession(user._id, device, refreshToken.token);
        return Ok(TokenPair(accessToken, refreshToken));
      }
      // The try block cannot complete: it verifies `refreshSession.refreshToken`, a missing
      // property of the array (Verify(env.jwt, None, ...) is false), and its fallback throw is
      // inside the same try. Whatever it throws, the catch below runs.
      var accessToken := CreateToken(env.jwt, user._id, env.config.accessExpiresIn, env.config.accessSecret, now);
      var refreshToken := CreateToken(env.jwt, user._id, env.config.refreshExpiresIn, env.config.refreshSecret, now);
      assert refreshSession[0] in Select(refreshSessions.repo.docs, UserQuery(user._id));
      var updated := refreshSessions.UpdateRefreshSessionByUserId(user._id, refreshToken.token);
      r := Ok(TokenPair(accessToken, refreshToken));
    }

    /** `logoutFromDevice`. */
    method LogoutFromDevice(user: PayloadUser, device: Metadata) returns (r: Result<()>)
      requires Valid()
      modifies refreshSessions.repo
      ensures Valid() && refreshSessions.repo.nextId == old(refreshSessions.repo.nextId)
      ensures Removal(refreshSessions.repo.docs, r) == LogoutFromDeviceSpec(old(refreshSessions.repo.docs), user, device)
    {
      r := refreshSessions.DeleteRefreshSessionById(DeviceQuery(device, user.userId));
    }

    /** `logoutFromAllDevices`. */
    method LogoutFromAllDevices(user: PayloadUser) returns (r: Result<()>)
      requires Valid()
      modifies refreshSessions.repo
      ensures Valid() && refreshSessions.repo.nextId == old(refreshSessions.repo.nextId)
      ensures Removal(refreshSessions.repo.docs, r) == LogoutFromAllDevicesSpec(old(refreshSessions.repo.docs), user)
    {
      r := refreshSessions.DeleteRefreshSessionById(UserQuery(user.userId));
    }

    /** `sendVerificationCodeByEmail`, with the 32 random bytes as a parameter. */
    method SendVerificationCodeByEmail(email: string, random: Bytes32)
      modifies this
      ensures users == old(users)
      ensures Codes() == SendVerificationCodeSpec(old(Codes()), env.config.smtpUsername, email, random)
    {
      var code := Hex(random);
      cache := cache[email := code];
      var html := VerificationHtml(code);
      sent := sent + [Mail(email, env.config.smtpUsername, "Verification Code", "code", html)];
    }

    /** `resetPassword`. */
    method ResetPassword(dto: ResetPasswordDto) returns (r: Result<()>)
      modifies this
      ensures users == old(users)
      ensures ResetStep(Codes(), r) == ResetPasswordSpec(old(Codes()), dto)
    {
      var cacheCode := CachedCode(cache, dto.email);
      if cacheCode != Some(dto.code) {
        return Err(BadRequest("not valid code"));
      }
      sent := sent + [PasswordUpdate(dto.email, dto.newPassword)];
      cache := cache - {dto.email};
      r := Ok(());
    }

    /** `registration`, with the bcrypt hash and the directory's answer as parameters:
        `rejected` is the message of the error the repository raises on insert, if any (the
        users service rethrows it as a BadRequest), and `newId` the `_id` it assigns. */
    method Registration(dto: RegisterUserDto, hash: string, newId: string, rejected: Option<string>) returns (r: RegistrationResult)
      modifies this
      ensures cache == old(cache) && sent == old(sent)
      ensures rejected.None? ==>
        var saved := UserRecord(newId, dto.login, hash, dto.firstName, dto.lastName);
        users == old(users) + [saved] && r == Success(saved)
      ensures rejected.Some? ==> users == old(users) && r == Fail(BadRequest(rejected.value))
    {
      if rejected.Some? {
        return Fail(BadRequest(rejected.value));
      }
      var savedUser := UserRecord(newId, dto.login, hash, dto.firstName, dto.lastName);
      users := users + [savedUser];
      r := Success(savedUser);
    }
  }
}
