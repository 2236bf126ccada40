/** The bearer-token guard: the key provider, which hands out the access secret only to a
    device that still has a session of the token's user, and `validate`, which maps the
    verified payload to the request user. */
module JwtStrategy {
  import opened Wrappers
  import opened Documents
  import opened RefreshSessions
  import opened Tokens
  import opened Auth

  /** What reading `_id` of the null that `jwt.decode` returns for a malformed token raises. */
  const MalformedTokenError := InternalError("Cannot read properties of null (reading '_id')")

  /** The 401 the guard answers with when the token is not accepted. */
  const GuardUnauthorized := Unauthorized("Unauthorized")

  /** `secretOrKeyProvider`: decodes the token WITHOUT checking its signature, then yields
      the access secret when the request's device has a session of the decoded user, and no
      key otherwise. A token that does not decode fails before any lookup. */
  function SecretOrKey(config: Config, jwt: Jwt, sessions: seq<Doc>, device: Metadata, token: string): (r: Result<Option<string>>)
    ensures r.Err? <==> jwt.decode(token).None?
    ensures r.Err? ==> r.error == MalformedTokenError
    ensures r.Ok? ==> (r.value.Some? <==>
      exists d :: d in sessions && Matches(d, DeviceQuery(device, jwt.decode(token).value.user._id)))
    ensures r.Ok? && r.value.Some? ==> r.value.value == config.accessSecret
  {
    var decodeToken := jwt.decode(token);
    if decodeToken.None? then Err(MalformedTokenError)
    else
      var result := Select(sessions, DeviceQuery(device, decodeToken.value.user._id));
      if |result| > 0 then
        assert result[0] in result;
        Ok(Some(config.accessSecret))
      else Ok(None)
  }

  /** `validate`: the payload's user must still exist; the request user is `{ userId }`. */
  function Validate(users: seq<UserRecord>, payload: Claims): (r: Result<PayloadUser>)
    ensures r.Ok? <==> exists u :: u in users && u._id == payload.user._id
    ensures r.Ok? ==> r.value == PayloadUser(payload.user._id)
    ensures r.Err? ==> r.error == GuardUnauthorized
  {
    var user := GetUserById(users, payload.user._id);
    if user.None? then Err(GuardUnauthorized)
    else Ok(PayloadUser(user.value._id))
  }

  /** The guard as a whole: key lookup, then signature and expiry checked under that key
      (expiration is not ignored; no key means rejection), then `validate` on the payload. */
  function Authenticate(env: Env, users: seq<UserRecord>, sessions: seq<Doc>, device: Metadata, token: string, now: int): (r: Result<PayloadUser>)
    ensures r.Ok? ==> Verify(env.jwt, Some(token), env.config.accessSecret, now)
    ensures r.Ok? ==> r.value.userId == env.jwt.decode(token).value.user._id
    ensures r.Ok? ==> exists d :: d in sessions && Matches(d, DeviceQuery(device, r.value.userId))
    ensures r.Ok? ==> exists u :: u in users && u._id == r.value.userId
    ensures r.Err? ==> r.error in {MalformedTokenError, GuardUnauthorized}
  {
    var key := SecretOrKey(env.config, env.jwt, sessions, device, token);
    if key.Err? then Err(key.error)
    else if key.value.None? then Err(GuardUnauthorized)
    else if !Verify(env.jwt, Some(token), key.value.value, now) then Err(GuardUnauthorized)
    else Validate(users, env.jwt.decode(token).value)
  }
}
