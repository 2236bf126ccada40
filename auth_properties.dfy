/** Properties that relate several auth operations: the session store keeps every refresh
    token bound to its user, a fresh login can be refreshed and grants access, logout revokes,
    the verification code works exactly once, and the three defects of the code as written
    next to the behaviour evidently intended. */
module AuthProperties {
  import opened Wrappers
  import opened Documents
  import opened Repositories
  import opened RefreshSessions
  import opened Tokens
  import opened VerificationCodes
  import opened Auth
  import opened JwtStrategy

  /** Every stored session's refresh token decodes to a payload naming that session's user. */
  predicate BoundTokens(jwt: Jwt, docs: seq<Doc>)
    requires AllSessions(docs)
  {
    forall d :: d in docs ==>
      jwt.decode(d.fields[RefreshTokenField]).Some? &&
      jwt.decode(d.fields[RefreshTokenField]).value.user._id == d.fields[UserIdField]
  }

  /** The user a successful login is for. */
  function LoggedInUser(env: Env, users: seq<UserRecord>, dto: LoginDto): (userId: string)
    requires ValidateUser(env, users, dto.login, dto.password).Ok?
    ensures exists u :: u in users && u._id == userId && u.login == dto.login
  {
    ValidateUser(env, users, dto.login, dto.password).value.value._doc._id
  }

  // ---------------------------------------------------------------- the session invariant

  /** A session created with a token issued to its own user keeps the store bound. */
  lemma WithSessionKeepsBound(env: Env, before: Store, userId: string, device: Metadata, now: int)
    requires Sound(env.jwt) && AllSessions(before.docs) && BoundTokens(env.jwt, before.docs)
    ensures var after := WithSession(before, userId, device, NewRefreshToken(env, userId, now).token);
      AllSessions(after.docs) && BoundTokens(env.jwt, after.docs)
  {
    var after := WithSession(before, userId, device, NewRefreshToken(env, userId, now).token);
    assert after.docs == before.docs + [after.docs[|before.docs|]];
  }

  /** Writing a token issued to `userId` into the first match of a filter that selects only
      sessions of `userId` keeps the store bound. */
  lemma RotationKeepsBound(env: Env, docs: seq<Doc>, f: Filter, userId: string, now: int)
    requires Sound(env.jwt) && AllSessions(docs) && BoundTokens(env.jwt, docs)
    requires forall d :: Matches(d, f) ==> UserIdField in d.fields && d.fields[UserIdField] == userId
    ensures AllSessions(PatchFirst(docs, f, TokenPatch(NewRefreshToken(env, userId, now).token)))
    ensures BoundTokens(env.jwt, PatchFirst(docs, f, TokenPatch(NewRefreshToken(env, userId, now).token)))
  {
    var u := TokenPatch(NewRefreshToken(env, userId, now).token);
    var r := PatchFirst(docs, f, u);
    PatchFirstKeepsSessions(docs, f, u);
    forall d | d in r
      ensures env.jwt.decode(d.fields[RefreshTokenField]).Some?
      ensures env.jwt.decode(d.fields[RefreshTokenField]).value.user._id == d.fields[UserIdField]
    {
      var j :| 0 <= j < |r| && r[j] == d;
      assert docs[j] in docs;
    }
  }

  /** `login` as written keeps every session's token bound to its user. */
  lemma LoginKeepsBound(env: Env, users: seq<UserRecord>, before: Store, dto: LoginDto, device: Metadata, now: int)
    requires Sound(env.jwt) && AllSessions(before.docs) && BoundTokens(env.jwt, before.docs)
    ensures AllSessions(LoginSpec(env, users, before, dto, device, now).after.docs)
    ensures BoundTokens(env.jwt, LoginSpec(env, users, before, dto, device, now).after.docs)
  {
    if ValidateUser(env, users, dto.login, dto.password).Ok? {
      var userId := LoggedInUser(env, users, dto);
      if Select(before.docs, DeviceQuery(device, userId)) == [] {
        WithSessionKeepsBound(env, before, userId, device, now);
      } else {
        RotationKeepsBound(env, before.docs, UserQuery(userId), userId, now);
      }
    }
  }

  /** Removing sessions keeps the rest bound. */
  lemma DeleteKeepsBound(jwt: Jwt, docs: seq<Doc>, query: Filter)
    requires AllSessions(docs) && BoundTokens(jwt, docs)
    ensures AllSessions(DeleteSessions(docs, query).after) && BoundTokens(jwt, DeleteSessions(docs, query).after)
  {
  }

  // ---------------------------------------------------------------- login as written

  /** The first login from a device appends exactly one session, of that user and device,
      holding the returned refresh token; it returns both tokens with their configured
      lifetimes, each signed over the user's `_id` alone. */
  lemma LoginCreatesOneSession(env: Env, users: seq<UserRecord>, before: Store, dto: LoginDto, device: Metadata, now: int)
    requires Sound(env.jwt)
    requires ValidateUser(env, users, dto.login, dto.password).Ok?
    requires Select(before.docs, DeviceQuery(device, LoggedInUser(env, users, dto))) == []
    ensures var userId := LoggedInUser(env, users, dto);
      var step := LoginSpec(env, users, before, dto, device, now);
      && step.result.Ok?
      && step.after.docs == before.docs + [Doc(before.nextId, SessionFields(userId, device, step.result.value.refreshToken.token))]
      && step.after.nextId == before.nextId + 1
      && step.result.value.accessToken.expiresIn == env.config.accessExpiresIn
      && step.result.value.refreshToken.expiresIn == env.config.refreshExpiresIn
      && env.jwt.decode(step.result.value.accessToken.token) == Some(Claims(JwtUser(userId), now, now + env.config.accessExpiresIn))
      && env.jwt.decode(step.result.value.refreshToken.token) == Some(Claims(JwtUser(userId), now, now + env.config.refreshExpiresIn))
  {
    var step := LoginSpec(env, users, before, dto, device, now);
    assert step.after.docs == step.after.docs[..|before.docs|] + [step.after.docs[|before.docs|]];
  }

  /** A login from a device that already has a session never refuses and never creates one:
      the store keeps its size and ids, the user's first session (whatever its device) takes
      the new refresh token, and every other session is unchanged. */
  lemma LoginRotatesInPlace(env: Env, users: seq<UserRecord>, before: Store, dto: LoginDto, device: Metadata, now: int)
    requires ValidateUser(env, users, dto.login, dto.password).Ok?
    requires Select(before.docs, DeviceQuery(device, LoggedInUser(env, users, dto))) != []
    ensures FirstMatch(before.docs, UserQuery(LoggedInUser(env, users, dto))).Some?
    ensures var userId := LoggedInUser(env, users, dto);
      var step := LoginSpec(env, users, before, dto, device, now);
      var i := FirstMatch(before.docs, UserQuery(userId)).value;
      && step.result == Ok(IssuedPair(env, userId, now))
      && step.after.nextId == before.nextId && |step.after.docs| == |before.docs|
      && step.after.docs[i] == Patched(before.docs[i], TokenPatch(step.result.value.refreshToken.token))
      && (forall j :: 0 <= j < |before.docs| && j != i ==> step.after.docs[j] == before.docs[j])
  {
    var userId := LoggedInUser(env, users, dto);
    var existing := Select(before.docs, DeviceQuery(device, userId));
    assert existing[0] in existing;
    assert existing[0] in Select(before.docs, UserQuery(userId));
    FirstMatchHeadsSelect(before.docs, UserQuery(userId));
  }

  // ---------------------------------------------------------------- one session per device

  /** Creating a session for a device that has none keeps one session per device. */
  lemma WithSessionKeepsOnePerDevice(before: Store, userId: string, device: Metadata, refreshToken: string)
    requires AllSessions(before.docs) && OnePerDevice(before.docs)
    requires Select(before.docs, DeviceQuery(device, userId)) == []
    ensures var after := WithSession(before, userId, device, refreshToken);
      AllSessions(after.docs) && OnePerDevice(after.docs)
  {
    var after := WithSession(before, userId, device, refreshToken);
    assert after.docs == before.docs + [after.docs[|before.docs|]];
    forall i, j | 0 <= i < j < |after.docs| ensures Owner(after.docs[i]) != Owner(after.docs[j]) {
      assert after.docs[i] == before.docs[i] && before.docs[i] in before.docs;
      if j < |before.docs| {
        assert after.docs[j] == before.docs[j];
      }
    }
  }

  /** `login` as written keeps at most one session per user and device: it creates a
      session only for a device that has none, and its rotation changes no owner. */
  lemma LoginKeepsOnePerDevice(env: Env, users: seq<UserRecord>, before: Store, dto: LoginDto, device: Metadata, now: int)
    requires AllSessions(before.docs) && OnePerDevice(before.docs)
    ensures AllSessions(LoginSpec(env, users, before, dto, device, now).after.docs)
    ensures OnePerDevice(LoginSpec(env, users, before, dto, device, now).after.docs)
  {
    if ValidateUser(env, users, dto.login, dto.password).Ok? {
      var userId := LoggedInUser(env, users, dto);
      var token := NewRefreshToken(env, userId, now).token;
      if Select(before.docs, DeviceQuery(device, userId)) == [] {
        WithSessionKeepsOnePerDevice(before, userId, device, token);
      } else {
        PatchFirstKeepsOwners(before.docs, UserQuery(userId), token);
      }
    }
  }

  /** The intended login keeps at most one session per user and device. */
  lemma LoginIntendedKeepsOnePerDevice(env: Env, users: seq<UserRecord>, before: Store, dto: LoginDto, device: Metadata, now: int)
    requires AllSessions(before.docs) && OnePerDevice(before.docs)
    ensures AllSessions(LoginIntended(env, users, before, dto, device, now).after.docs)
    ensures OnePerDevice(LoginIntended(env, users, before, dto, device, now).after.docs)
  {
    if ValidateUser(env, users, dto.login, dto.password).Ok? {
      var userId := LoggedInUser(env, users, dto);
      var token := NewRefreshToken(env, userId, now).token;
      if Select(before.docs, DeviceQuery(device, userId)) == [] {
        WithSessionKeepsOnePerDevice(before, userId, device, token);
      } else {
        PatchFirstKeepsOwners(before.docs, DeviceQuery(device, userId), token);
      }
    }
  }

  /** Both logouts keep at most one session per user and device. */
  lemma DeleteKeepsOnePerDevice(docs: seq<Doc>, query: Filter)
    requires AllSessions(docs) && OnePerDevice(docs)
    ensures AllSessions(DeleteSessions(docs, query).after) && OnePerDevice(DeleteSessions(docs, query).after)
  {
    RejectKeepsOnePerDevice(docs, query);
  }

  /** After a successful login the device has exactly one session of the user. */
  lemma LoginLeavesOneDeviceSession(env: Env, users: seq<UserRecord>, before: Store, dto: LoginDto, device: Metadata, now: int)
    requires AllSessions(before.docs) && OnePerDevice(before.docs)
    requires ValidateUser(env, users, dto.login, dto.password).Ok?
    ensures |Select(LoginSpec(env, users, before, dto, device, now).after.docs, DeviceQuery(device, LoggedInUser(env, users, dto)))| == 1
  {
    var userId := LoggedInUser(env, users, dto);
    var step := LoginSpec(env, users, before, dto, device, now);
    var q := DeviceQuery(device, userId);
    LoginKeepsOnePerDevice(env, users, before, dto, device, now);
    DeviceSessionUnique(step.after.docs, device, userId);
    var existing := Select(before.docs, q);
    if existing == [] {
      assert step.after.docs[|before.docs|] in Select(step.after.docs, q);
    } else {
      var i :| 0 <= i < |before.docs| && before.docs[i] == existing[0];
      assert existing[0] in existing;
      PatchFirstKeepsMatch(before.docs, UserQuery(userId), q, TokenPatch(step.result.value.refreshToken.token), i);
      assert step.after.docs[i] in Select(step.after.docs, q);
    }
  }

  /** In a bound store with one session per device, at most one session holds a given refresh
      token on a device: the session `refreshToken` reads is the only candidate. */
  lemma RefreshSessionUnique(jwt: Jwt, docs: seq<Doc>, device: Metadata, token: string)
    requires AllSessions(docs) && OnePerDevice(docs) && BoundTokens(jwt, docs)
    ensures |Select(docs, RefreshQuery(device, token))| <= 1
  {
    if jwt.decode(token).Some? {
      var userId := jwt.decode(token).value.user._id;
      SelectNarrower(docs, RefreshQuery(device, token), DeviceQuery(device, userId));
      DeviceSessionUnique(docs, device, userId);
    } else {
      SelectNone(docs, RefreshQuery(device, token));
    }
  }

  /** A successful refresh reads the one session of the device that holds the token, and
      issues the access token for that session's user. */
  lemma RefreshReadsOnlySession(env: Env, sessions: seq<Doc>, token: string, device: Metadata, now: int)
    requires AllSessions(sessions) && OnePerDevice(sessions) && BoundTokens(env.jwt, sessions)
    ensures RefreshToken(env, sessions, token, device, now).Ok? ==>
      && |Select(sessions, RefreshQuery(device, token))| == 1
      && RefreshToken(env, sessions, token, device, now) ==
         Ok(AccessToken(env, Select(sessions, RefreshQuery(device, token))[0].fields[UserIdField], now))
  {
    RefreshSessionUnique(env.jwt, sessions, device, token);
  }

  // ---------------------------------------------------------------- refresh

  /** In a bound store a refresh issues the access token for the refresh token's own user. */
  lemma RefreshIssuesForSubject(env: Env, sessions: seq<Doc>, token: string, device: Metadata, now: int)
    requires AllSessions(sessions) && BoundTokens(env.jwt, sessions)
    ensures RefreshToken(env, sessions, token, device, now).Ok? ==>
      RefreshToken(env, sessions, token, device, now) == Ok(AccessToken(env, env.jwt.decode(token).value.user._id, now))
  {
  }

  /** A refresh for a device with a session holding a token issued to `userId` at `issued`
      succeeds exactly until that token expires, and yields that user's access token. */
  lemma RefreshStoredToken(env: Env, sessions: seq<Doc>, userId: string, device: Metadata, issued: int, later: int, i: nat)
    requires Sound(env.jwt) && AllSessions(sessions) && BoundTokens(env.jwt, sessions)
    requires i < |sessions| && Matches(sessions[i], RefreshQuery(device, NewRefreshToken(env, userId, issued).token))
    ensures RefreshToken(env, sessions, NewRefreshToken(env, userId, issued).token, device, later) ==
      if later < issued + env.config.refreshExpiresIn then Ok(AccessToken(env, userId, later)) else Err(InvalidRefreshToken)
  {
    var token := NewRefreshToken(env, userId, issued).token;
    assert sessions[i] in sessions;
    VerifyCreatedToken(env.jwt, userId, env.config.refreshExpiresIn, env.config.refreshSecret, issued, env.config.refreshSecret, later);
    RefreshIssuesForSubject(env, sessions, token, device, later);
  }

  /** The first login from a device returns a refresh token that the same device can refresh
      until it expires. */
  lemma FirstLoginThenRefresh(env: Env, users: seq<UserRecord>, before: Store, dto: LoginDto, device: Metadata, now: int, later: int)
    requires Sound(env.jwt) && AllSessions(before.docs) && BoundTokens(env.jwt, before.docs)
    requires ValidateUser(env, users, dto.login, dto.password).Ok?
    requires Select(before.docs, DeviceQuery(device, LoggedInUser(env, users, dto))) == []
    ensures var step := LoginSpec(env, users, before, dto, device, now);
      && step.result == Ok(IssuedPair(env, LoggedInUser(env, users, dto), now))
      && RefreshToken(env, step.after.docs, step.result.value.refreshToken.token, device, later) ==
         if later < now + env.config.refreshExpiresIn then Ok(AccessToken(env, LoggedInUser(env, users, dto), later))
         else Err(InvalidRefreshToken)
  {
    var userId := LoggedInUser(env, users, dto);
    var step := LoginSpec(env, users, before, dto, device, now);
    LoginKeepsBound(env, users, before, dto, device, now);
    RefreshStoredToken(env, step.after.docs, userId, device, now, later, |before.docs|);
  }

  // ---------------------------------------------------------------- logout

  /** Logging out from a device leaves that device without a session of the user. */
  lemma LogoutFromDeviceClears(docs: seq<Doc>, user: PayloadUser, device: Metadata)
    ensures Select(LogoutFromDeviceSpec(docs, user, device).after, DeviceQuery(device, user.userId)) == []
  {
    var after := LogoutFromDeviceSpec(docs, user, device).after;
    if Select(docs, DeviceQuery(device, user.userId)) != [] {
      SelectNone(after, DeviceQuery(device, user.userId));
    }
  }

  /** Logging out from a device keeps the sessions of every other (device, user) pair, in order. */
  lemma LogoutFromDeviceKeepsOthers(docs: seq<Doc>, user: PayloadUser, device: Metadata, device': Metadata, userId': string)
    requires device' != device || userId' != user.userId
    ensures Select(LogoutFromDeviceSpec(docs, user, device).after, DeviceQuery(device', userId')) ==
            Select(docs, DeviceQuery(device', userId'))
  {
    if Select(docs, DeviceQuery(device, user.userId)) != [] {
      SelectRejectOther(docs, DeviceQuery(device', userId'), DeviceQuery(device, user.userId));
    }
  }

  /** Logging out is not idempotent: the second logout from a device finds nothing and
      fails with NotFound, leaving the store as it was. */
  lemma LogoutTwiceFails(docs: seq<Doc>, user: PayloadUser, device: Metadata)
    ensures var first := LogoutFromDeviceSpec(docs, user, device);
      LogoutFromDeviceSpec(first.after, user, device) == Removal(first.after, Err(SessionNotFound))
  {
    LogoutFromDeviceClears(docs, user, device);
  }

  /** Logging out everywhere removes every session of the user and no session of anyone else. */
  lemma LogoutFromAllDevicesScope(docs: seq<Doc>, user: PayloadUser, userId': string)
    requires userId' != user.userId
    ensures var after := LogoutFromAllDevicesSpec(docs, user).after;
      && Select(after, UserQuery(user.userId)) == []
      && Select(after, UserQuery(userId')) == Select(docs, UserQuery(userId'))
  {
    var after := LogoutFromAllDevicesSpec(docs, user).after;
    if Select(docs, UserQuery(user.userId)) != [] {
      SelectRejectOther(docs, UserQuery(userId'), UserQuery(user.userId));
      SelectNone(after, UserQuery(user.userId));
    }
  }

  /** After logging out everywhere, no refresh token of the user is accepted on any device. */
  lemma LogoutAllThenRefreshFails(env: Env, docs: seq<Doc>, user: PayloadUser, token: string, device: Metadata, now: int)
    requires AllSessions(docs) && BoundTokens(env.jwt, docs)
    requires env.jwt.decode(token).Some? && env.jwt.decode(token).value.user._id == user.userId
    ensures RefreshToken(env, LogoutFromAllDevicesSpec(docs, user).after, token, device, now) == Err(InvalidRefreshToken)
  {
    var after := LogoutFromAllDevicesSpec(docs, user).after;
    DeleteKeepsBound(env.jwt, docs, UserQuery(user.userId));
    SelectNone(after, RefreshQuery(device, token));
  }

  /** After logging out from a device, no access token of the user passes the guard there. */
  lemma LogoutRevokesAccess(env: Env, users: seq<UserRecord>, docs: seq<Doc>, user: PayloadUser, device: Metadata, token: string, now: int)
    requires env.jwt.decode(token).Some? && env.jwt.decode(token).value.user._id == user.userId
    ensures Authenticate(env, users, LogoutFromDeviceSpec(docs, user, device).after, device, token, now) == Err(GuardUnauthorized)
  {
    LogoutFromDeviceClears(docs, user, device);
  }

  // ---------------------------------------------------------------- the guard

  /** The access token of a login passes the guard on the same device until it expires,
      whichever branch the login took, and identifies the logged-in user. */
  lemma AccessAfterLogin(env: Env, users: seq<UserRecord>, before: Store, dto: LoginDto, device: Metadata, now: int, later: int)
    requires Sound(env.jwt)
    requires ValidateUser(env, users, dto.login, dto.password).Ok?
    ensures var step := LoginSpec(env, users, before, dto, device, now);
      step.result.Ok? &&
      Authenticate(env, users, step.after.docs, device, step.result.value.accessToken.token, later) ==
        if later < now + env.config.accessExpiresIn then Ok(PayloadUser(LoggedInUser(env, users, dto)))
        else Err(GuardUnauthorized)
  {
    var userId := LoggedInUser(env, users, dto);
    var step := LoginSpec(env, users, before, dto, device, now);
    var q := DeviceQuery(device, userId);
    var existing := Select(before.docs, q);
    if existing == [] {
      assert step.after.docs[|before.docs|] in step.after.docs;
    } else {
      var i :| 0 <= i < |before.docs| && before.docs[i] == existing[0];
      assert existing[0] in existing;
      PatchFirstKeepsMatch(before.docs, UserQuery(userId), q, TokenPatch(step.result.value.refreshToken.token), i);
      assert step.after.docs[i] in step.after.docs;
    }
    VerifyCreatedToken(env.jwt, userId, env.config.accessExpiresIn, env.config.accessSecret, now, env.config.accessSecret, later);
  }

  /** A token signed with any secret but the access secret never passes the guard, whatever
      sessions exist: the key provider looks only at the decoded payload, but the signature is
      then checked under the key it returns. */
  lemma ForgedTokenRejected(env: Env, users: seq<UserRecord>, sessions: seq<Doc>, device: Metadata, claims: Claims, secret: string, now: int)
    requires Sound(env.jwt) && secret != env.config.accessSecret
    ensures Authenticate(env, users, sessions, device, env.jwt.encode(claims, secret), now).Err?
  {
    var token := env.jwt.encode(claims, secret);
    assert !env.jwt.signedWith(token, env.config.accessSecret);
  }

  /** With distinct secrets a refresh token is never accepted as an access token. */
  lemma RefreshTokenIsNotAccess(env: Env, users: seq<UserRecord>, sessions: seq<Doc>, device: Metadata, userId: string, issued: int, now: int)
    requires Sound(env.jwt) && env.config.refreshSecret != env.config.accessSecret
    ensures Authenticate(env, users, sessions, device, NewRefreshToken(env, userId, issued).token, now).Err?
  {
    ForgedTokenRejected(env, users, sessions, device, Claims(JwtUser(userId), issued, issued + env.config.refreshExpiresIn),
      env.config.refreshSecret, now);
  }

  /** The key provider hands the access secret to any token naming a user with a session on
      the device, however it was signed. */
  lemma KeyIgnoresSignature(config: Config, jwt: Jwt, sessions: seq<Doc>, device: Metadata, claims: Claims, secret: string, secret': string)
    requires Sound(jwt)
    ensures SecretOrKey(config, jwt, sessions, device, jwt.encode(claims, secret)) ==
            SecretOrKey(config, jwt, sessions, device, jwt.encode(claims, secret'))
  {
  }

  // ---------------------------------------------------------------- registration and reset

  /** The first user with a login is still found after appending another user. */
  lemma {:induction false} FindUserByLoginAppend(users: seq<UserRecord>, user: UserRecord, login: string)
    ensures FindUserByLogin(users + [user], login) ==
      if FindUserByLogin(users, login).Some? then FindUserByLogin(users, login)
      else if user.login == login then Some(user) else None
  {
    if users != [] {
      assert (users + [user])[1..] == users[1..] + [user];
      FindUserByLoginAppend(users[1..], user, login);
    }
  }

  /** A user registered under a fresh login validates with the password whose hash was stored. */
  lemma RegisteredUserValidates(env: Env, users: seq<UserRecord>, dto: RegisterUserDto, hash: string, newId: string)
    requires forall u :: u in users ==> u.login != dto.login
    requires env.passwordMatches(dto.password, hash)
    ensures var saved := UserRecord(newId, dto.login, hash, dto.firstName, dto.lastName);
      ValidateUser(env, users + [saved], dto.login, dto.password) == Ok(Some(ValidatedUser(saved)))
  {
    var saved := UserRecord(newId, dto.login, hash, dto.firstName, dto.lastName);
    FindUserByLoginAppend(users, saved, dto.login);
  }

  /** `sendVerificationCodeByEmail` stores a 64-character lower-case hex code for the address,
      keeps every other address's entry, and mails that code to the address. */
  lemma SendStoresCode(before: CodeStore, from: string, email: string, random: Bytes32, other: string)
    requires other != email
    ensures var mailed := SendVerificationCodeSpec(before, from, email, random);
      && CachedCode(mailed.cache, email) == Some(Hex(random))
      && |Hex(random)| == 64 && IsHex(Hex(random))
      && CachedCode(mailed.cache, other) == CachedCode(before.cache, other)
      && mailed.sent == before.sent + [VerificationMail(from, email, Hex(random))]
  {
  }

  /** `resetPassword` succeeds exactly when the code on file for the address equals the
      supplied one. A failure changes nothing; a success records the new password and drops
      that address's code, and only it. */
  lemma ResetPasswordOutcome(before: CodeStore, dto: ResetPasswordDto, other: string)
    requires other != dto.email
    ensures var reset := ResetPasswordSpec(before, dto);
      && (reset.result.Ok? <==> dto.email in before.cache && before.cache[dto.email] == dto.code)
      && (reset.result.Err? ==> reset == ResetStep(before, Err(BadRequest("not valid code"))))
      && (reset.result.Ok? ==>
            && CachedCode(reset.after.cache, dto.email).None?
            && reset.after.sent == before.sent + [PasswordUpdate(dto.email, dto.newPassword)])
      && CachedCode(reset.after.cache, other) == CachedCode(before.cache, other)
  {
  }

  /** The mail of `sendVerificationCodeByEmail` goes to the address and carries the code, which
      encodes the random bytes; a reset for that address then succeeds exactly with that code,
      records the new password, consumes the code so that the same reset fails afterwards, and
      leaves every other address's code alone. */
  lemma SendThenReset(before: CodeStore, from: string, email: string, random: Bytes32, dto: ResetPasswordDto, other: string)
    requires dto.email == email && other != email
    ensures var mailed := SendVerificationCodeSpec(before, from, email, random);
      var mail := mailed.sent[|mailed.sent| - 1];
      var reset := ResetPasswordSpec(mailed, dto);
      && mail.Mail? && mail.to == email
      && mail.html[|HtmlPrefix|..|HtmlPrefix| + 64] == Hex(random)
      && Unhex(mail.html[|HtmlPrefix|..|HtmlPrefix| + 64]) == random
      && (reset.result.Ok? <==> dto.code == Hex(random))
      && (reset.result.Ok? ==> reset.after.sent == mailed.sent + [PasswordUpdate(email, dto.newPassword)])
      && (reset.result.Ok? ==> ResetPasswordSpec(reset.after, dto).result == Err(BadRequest("not valid code")))
      && CachedCode(reset.after.cache, other) == CachedCode(before.cache, other)
  {
    UnhexHex(random);
  }

  /** A second code for the same address supersedes the first: only the newer one resets. */
  lemma LatestCodeWins(before: CodeStore, from: string, email: string, first: Bytes32, second: Bytes32, newPassword: string)
    requires first != second
    ensures var mailed := SendVerificationCodeSpec(SendVerificationCodeSpec(before, from, email, first), from, email, second);
      && ResetPasswordSpec(mailed, ResetPasswordDto(email, Hex(first), newPassword)).result.Err?
      && ResetPasswordSpec(mailed, ResetPasswordDto(email, Hex(second), newPassword)).result.Ok?
  {
    HexInjective(first, second);
  }

  // ---------------------------------------------------------------- findings: login

  /** As written, a second login from the same device while its session is live is not
      refused: it succeeds and rotates, where the intended login refuses it with "you are
      authorized" and leaves the store unchanged. */
  lemma SecondLoginNotRejected(env: Env, users: seq<UserRecord>, before: Store, dto: LoginDto, device: Metadata, now: int, later: int)
    requires Sound(env.jwt)
    requires ValidateUser(env, users, dto.login, dto.password).Ok?
    requires Select(before.docs, DeviceQuery(device, LoggedInUser(env, users, dto))) == []
    requires later < now + env.config.refreshExpiresIn
    ensures var first := LoginSpec(env, users, before, dto, device, now);
      && first.result.Ok?
      && LoginSpec(env, users, first.after, dto, device, later).result.Ok?
      && LoginIntended(env, users, first.after, dto, device, later) == LoginStep(first.after, Err(AlreadyAuthorized))
  {
    var userId := LoggedInUser(env, users, dto);
    var first := LoginSpec(env, users, before, dto, device, now);
    var q := DeviceQuery(device, userId);
    var created := first.after.docs[|before.docs|];
    SelectAppend(before.docs, [created], q);
    assert first.after.docs == before.docs + [created];
    assert Select([created], q) == [created];
    VerifyCreatedToken(env.jwt, userId, env.config.refreshExpiresIn, env.config.refreshSecret, now, env.config.refreshSecret, later);
  }

  /** The intended login refuses a device whose session's token still verifies, and leaves
      the store unchanged. */
  lemma LoginIntendedRefusesLiveSession(env: Env, users: seq<UserRecord>, before: Store, dto: LoginDto, device: Metadata, now: int)
    requires ValidateUser(env, users, dto.login, dto.password).Ok?
    requires Select(before.docs, DeviceQuery(device, LoggedInUser(env, users, dto))) != []
    requires Verify(env.jwt, SessionToken(Select(before.docs, DeviceQuery(device, LoggedInUser(env, users, dto)))[0]),
                    env.config.refreshSecret, now)
    ensures LoginIntended(env, users, before, dto, device, now) == LoginStep(before, Err(AlreadyAuthorized))
  {
  }

  /** The intended login keeps every session's token bound to its user. */
  lemma LoginIntendedKeepsBound(env: Env, users: seq<UserRecord>, before: Store, dto: LoginDto, device: Metadata, now: int)
    requires Sound(env.jwt) && AllSessions(before.docs) && BoundTokens(env.jwt, before.docs)
    ensures AllSessions(LoginIntended(env, users, before, dto, device, now).after.docs)
    ensures BoundTokens(env.jwt, LoginIntended(env, users, before, dto, device, now).after.docs)
  {
    if ValidateUser(env, users, dto.login, dto.password).Ok? {
      var userId := LoggedInUser(env, users, dto);
      if Select(before.docs, DeviceQuery(device, userId)) == [] {
        WithSessionKeepsBound(env, before, userId, device, now);
      } else {
        RotationKeepsBound(env, before.docs, DeviceQuery(device, userId), userId, now);
      }
    }
  }

  /** Whenever the intended login succeeds, the device can refresh the returned refresh token
      until it expires: a new session holds it, or the device's own session was rotated to it. */
  lemma LoginIntendedThenRefresh(env: Env, users: seq<UserRecord>, before: Store, dto: LoginDto, device: Metadata, now: int, later: int)
    requires Sound(env.jwt) && AllSessions(before.docs) && BoundTokens(env.jwt, before.docs)
    requires ValidateUser(env, users, dto.login, dto.password).Ok?
    ensures var step := LoginIntended(env, users, before, dto, device, now);
      step.result.Ok? ==>
        RefreshToken(env, step.after.docs, step.result.value.refreshToken.token, device, later) ==
          if later < now + env.config.refreshExpiresIn then Ok(AccessToken(env, LoggedInUser(env, users, dto), later))
          else Err(InvalidRefreshToken)
  {
    var userId := LoggedInUser(env, users, dto);
    var step := LoginIntended(env, users, before, dto, device, now);
    var q := DeviceQuery(device, userId);
    var token := NewRefreshToken(env, userId, now).token;
    LoginIntendedKeepsBound(env, users, before, dto, device, now);
    if step.result.Ok? {
      if Select(before.docs, q) == [] {
        RefreshStoredToken(env, step.after.docs, userId, device, now, later, |before.docs|);
      } else {
        FirstMatchHeadsSelect(before.docs, q);
        var i := FirstMatch(before.docs, q).value;
        assert step.after.docs[i] == Patched(before.docs[i], TokenPatch(token));
        RefreshStoredToken(env, step.after.docs, userId, device, now, later, i);
      }
    }
  }

  /** As written, the rotation writes the new refresh token into the user's first session
      whatever its device: a user with a session on device A and an older one on device B who
      logs in again from B gets a refresh token that B cannot refresh. */
  lemma RotationStrandsOtherDevice(env: Env, users: seq<UserRecord>, dto: LoginDto, deviceA: Metadata, deviceB: Metadata,
                                   tokenA: string, issuedB: int, now: int, later: int)
    requires Sound(env.jwt)
    requires ValidateUser(env, users, dto.login, dto.password).Ok?
    requires deviceA != deviceB && issuedB != now
    ensures var userId := LoggedInUser(env, users, dto);
      var before := Store([Doc(0, SessionFields(userId, deviceA, tokenA)),
                           Doc(1, SessionFields(userId, deviceB, NewRefreshToken(env, userId, issuedB).token))], 2);
      var step := LoginSpec(env, users, before, dto, deviceB, now);
      && step.result.Ok?
      && RefreshToken(env, step.after.docs, step.result.value.refreshToken.token, deviceB, later) == Err(InvalidRefreshToken)
  {
    var userId := LoggedInUser(env, users, dto);
    var sessionA := Doc(0, SessionFields(userId, deviceA, tokenA));
    var tokenB := NewRefreshToken(env, userId, issuedB).token;
    var sessionB := Doc(1, SessionFields(userId, deviceB, tokenB));
    var before := Store([sessionA, sessionB], 2);
    var step := LoginSpec(env, users, before, dto, deviceB, now);
    var token := NewRefreshToken(env, userId, now).token;
    assert sessionB in Select(before.docs, DeviceQuery(deviceB, userId));
    assert FirstMatch(before.docs, UserQuery(userId)) == Some(0);
    assert step.after.docs == [Patched(sessionA, TokenPatch(token)), sessionB];
    assert env.jwt.decode(tokenB) != env.jwt.decode(token);
    SelectNone(step.after.docs, RefreshQuery(deviceB, token));
  }

  // ---------------------------------------------------------------- findings: projection

  /** As written, projecting ["a", "b"] and skipping ["c"] produces a projection keyed by
      position in which "a" does not occur at all; the intended projection maps "a" and "b"
      to 1 and "c" to 0. */
  lemma ExpandProjectionLosesColumns()
    ensures var options := Some(QueryOptions(Some(["a", "b"]), Some(["c"])));
      && ExpandProjectionAsWritten(options) == map[0 := ("c", 0), 1 := ("b", 1)]
      && ExpandProjection(options) == map["a" := 1, "b" := 1, "c" := 0]
  {
    var options := Some(QueryOptions(Some(["a", "b"]), Some(["c"])));
    var written := ExpandProjectionAsWritten(options);
    assert written.Keys == {0, 1};
    var intended := ExpandProjection(options);
    assert "a" in ["a", "b"] && "b" in ["a", "b"] && "c" in ["c"];
    assert intended.Keys == {"a", "b", "c"};
  }
}
