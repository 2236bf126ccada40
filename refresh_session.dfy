/** The refresh-session store: one document per device session, and the service that
    fixes which filter each auth operation uses. */
module RefreshSessions {
  import opened Wrappers
  import opened Documents
  import opened Repositories

  /** The fields of a refresh-session document besides its `_id`. */
  const UserIdField := "userId"
  const RefreshTokenField := "refreshToken"
  const UaField := "ua"
  const IpField := "ip"

  /** The name the session model is registered under, which the NotFound messages carry. */
  const SessionModelName := "RefreshSessionEntity"

  /** The NotFound the repository throws when no session matches a delete or an update. */
  const SessionNotFound := NotFound("Document of type " + SessionModelName + " not found")

  /** The device fingerprint: the `x-forwarded-for` and `user-agent` request headers. */
  datatype Metadata = Metadata(ip: string, ua: string)

  /** The body of a new session for a user on a device. */
  function SessionFields(userId: string, device: Metadata, refreshToken: string): (r: map<string, string>)
    ensures r.Keys == {UserIdField, IpField, UaField, RefreshTokenField}
    ensures r[UserIdField] == userId && r[RefreshTokenField] == refreshToken
    ensures r[IpField] == device.ip && r[UaField] == device.ua
  {
    map[UserIdField := userId, IpField := device.ip, UaField := device.ua, RefreshTokenField := refreshToken]
  }

  /** A stored document that has every field of a session. */
  predicate IsSession(d: Doc) {
    UserIdField in d.fields && RefreshTokenField in d.fields && UaField in d.fields && IpField in d.fields
  }

  predicate AllSessions(docs: seq<Doc>) {
    forall d :: d in docs ==> IsSession(d)
  }

  /** `{ ip, ua, userId }`: the sessions of a user on one device. */
  function DeviceQuery(device: Metadata, userId: string): (f: Filter)
    ensures forall d :: Matches(d, f) <==>
      && IpField in d.fields && d.fields[IpField] == device.ip
      && UaField in d.fields && d.fields[UaField] == device.ua
      && UserIdField in d.fields && d.fields[UserIdField] == userId
  {
    map[IpField := device.ip, UaField := device.ua, UserIdField := userId]
  }

  /** `{ userId }`: every session of a user, whatever the device. */
  function UserQuery(userId: string): (f: Filter)
    ensures forall d :: Matches(d, f) <==> UserIdField in d.fields && d.fields[UserIdField] == userId
  {
    map[UserIdField := userId]
  }

  /** `{ ua, ip, refreshToken }`: the sessions of a device that hold a given refresh token. */
  function RefreshQuery(device: Metadata, refreshToken: string): (f: Filter)
    ensures forall d :: Matches(d, f) <==>
      && UaField in d.fields && d.fields[UaField] == device.ua
      && IpField in d.fields && d.fields[IpField] == device.ip
      && RefreshTokenField in d.fields && d.fields[RefreshTokenField] == refreshToken
  {
    map[UaField := device.ua, IpField := device.ip, RefreshTokenField := refreshToken]
  }

  /** `{ refreshToken }`: the update that rotates a session's token. */
  function TokenPatch(refreshToken: string): (u: Patch)
    ensures u.Keys == {RefreshTokenField} && u[RefreshTokenField] == refreshToken
  {
    map[RefreshTokenField := refreshToken]
  }

  /** The user and the device a session belongs to. */
  function Owner(d: Doc): (o: (string, Metadata))
    requires IsSession(d)
    ensures forall device, userId :: Matches(d, DeviceQuery(device, userId)) <==> o == (userId, device)
  {
    (d.fields[UserIdField], Metadata(d.fields[IpField], d.fields[UaField]))
  }

  /** No two stored sessions belong to the same user on the same device. */
  predicate OnePerDevice(docs: seq<Doc>)
    requires AllSessions(docs)
  {
    forall i, j :: 0 <= i < j < |docs| ==> Owner(docs[i]) != Owner(docs[j])
  }

  /** One session per device for a session followed by others: the others have it, and none
      of them shares the first one's owner. */
  lemma OnePerDeviceTail(x: Doc, rest: seq<Doc>)
    requires AllSessions([x] + rest) && OnePerDevice([x] + rest)
    ensures AllSessions(rest) && OnePerDevice(rest)
    ensures forall d :: d in rest ==> Owner(d) != Owner(x)
  {
    var docs := [x] + rest;
    forall i, j | 0 <= i < j < |rest| ensures Owner(rest[i]) != Owner(rest[j]) {
      assert rest[i] == docs[i + 1] && rest[j] == docs[j + 1];
    }
    forall d | d in rest ensures Owner(d) != Owner(x) {
      var k :| 0 <= k < |rest| && rest[k] == d;
      assert docs[0] == x && docs[k + 1] == d;
    }
  }

  /** Conversely, a session whose owner no other session shares can head them. */
  lemma OnePerDeviceCons(x: Doc, rest: seq<Doc>)
    requires AllSessions([x] + rest) && OnePerDevice(rest)
    requires forall d :: d in rest ==> Owner(d) != Owner(x)
    ensures OnePerDevice([x] + rest)
  {
    var docs := [x] + rest;
    forall i, j | 0 <= i < j < |docs| ensures Owner(docs[i]) != Owner(docs[j]) {
      if i == 0 {
        assert docs[j] == rest[j - 1];
      } else {
        assert docs[i] == rest[i - 1] && docs[j] == rest[j - 1];
      }
    }
  }

  /** With one session per device, a user has at most one session on a device. */
  lemma {:induction false} DeviceSessionUnique(docs: seq<Doc>, device: Metadata, userId: string)
    requires AllSessions(docs) && OnePerDevice(docs)
    ensures |Select(docs, DeviceQuery(device, userId))| <= 1
  {
    if docs != [] {
      var rest := docs[1..];
      assert docs == [docs[0]] + rest;
      OnePerDeviceTail(docs[0], rest);
      if Matches(docs[0], DeviceQuery(device, userId)) {
        SelectNone(rest, DeviceQuery(device, userId));
      } else {
        DeviceSessionUnique(rest, device, userId);
      }
    }
  }

  /** Removing sessions keeps one session per device. */
  lemma {:induction false} RejectKeepsOnePerDevice(docs: seq<Doc>, f: Filter)
    requires AllSessions(docs) && OnePerDevice(docs)
    ensures AllSessions(Reject(docs, f)) && OnePerDevice(Reject(docs, f))
  {
    if docs != [] {
      var rest := docs[1..];
      assert docs == [docs[0]] + rest;
      OnePerDeviceTail(docs[0], rest);
      RejectKeepsOnePerDevice(rest, f);
      if !Matches(docs[0], f) {
        assert Reject(docs, f) == [docs[0]] + Reject(rest, f);
        OnePerDeviceCons(docs[0], Reject(rest, f));
      }
    }
  }

  /** Rotating a token changes no session's owner. */
  lemma PatchFirstKeepsOwners(docs: seq<Doc>, f: Filter, refreshToken: string)
    requires AllSessions(docs)
    ensures AllSessions(PatchFirst(docs, f, TokenPatch(refreshToken)))
    ensures forall i :: 0 <= i < |docs| ==> Owner(PatchFirst(docs, f, TokenPatch(refreshToken))[i]) == Owner(docs[i])
  {
    PatchFirstKeepsSessions(docs, f, TokenPatch(refreshToken));
  }

  /** Updating the first match keeps every document a session. */
  lemma PatchFirstKeepsSessions(docs: seq<Doc>, f: Filter, u: Patch)
    requires AllSessions(docs)
    ensures AllSessions(PatchFirst(docs, f, u))
  {
    var r := PatchFirst(docs, f, u);
    forall d | d in r ensures IsSession(d) {
      var j :| 0 <= j < |r| && r[j] == d;
      assert docs[j] in docs;
    }
  }

  /** The service over the session repository. */
  class RefreshSessionService {
    const repo: Repository

    ghost predicate Valid()
      reads repo
    {
      repo.Valid() && repo.modelName == SessionModelName && AllSessions(repo.docs)
    }

    constructor (repo: Repository)
      requires repo.Valid() && repo.modelName == SessionModelName && AllSessions(repo.docs)
      ensures Valid() && this.repo == repo
    {
      this.repo := repo;
    }

    /** `createRefreshSession`: exactly one session is appended, with the given user,
        device and token, and it is returned. */
    method CreateRefreshSession(userId: string, device: Metadata, refreshToken: string) returns (r: Option<Doc>)
      requires Valid()
      modifies repo
      ensures Valid() && repo.nextId == old(repo.nextId) + 1
      ensures repo.docs == old(repo.docs) + [Doc(old(repo.nextId), SessionFields(userId, device, refreshToken))]
      ensures r == Some(Doc(old(repo.nextId), SessionFields(userId, device, refreshToken)))
    {
      r := repo.Create(SessionFields(userId, device, refreshToken));
    }

    /** `getRefreshSession`: every session matching the query, possibly none. */
    function GetRefreshSession(query: Filter): (r: seq<Doc>)
      reads repo
      ensures r == Select(repo.docs, query)
      ensures forall d :: d in r <==> d in repo.docs && Matches(d, query)
    {
      repo.Find(query, None).value
    }

    /** `deleteRefreshSessionById`: despite its name it deletes every session matching an
        arbitrary query, and throws NotFound when none does. */
    method DeleteRefreshSessionById(query: Filter) returns (r: Result<()>)
      requires Valid()
      modifies repo
      ensures Valid() && repo.nextId == old(repo.nextId)
      ensures Select(old(repo.docs), query) == [] ==>
        r == Err(SessionNotFound) && repo.docs == old(repo.docs)
      ensures Select(old(repo.docs), query) != [] ==> r == Ok(()) && repo.docs == Reject(old(repo.docs), query)
    {
      var deleted := repo.Delete(query);
      if deleted.Err? {
        return Err(deleted.error);
      }
      r := Ok(());
    }

    /** `updateRefreshSessionByUserId`: filters on the user only, so the token is written into
        the user's first session whatever its device. NotFound when the user has none;
        otherwise the returned session is that user's, holding the new token. */
    method UpdateRefreshSessionByUserId(userId: string, refreshToken: string) returns (r: Result<Doc>)
      requires Valid()
      modifies repo
      ensures Valid() && repo.nextId == old(repo.nextId)
      ensures Select(old(repo.docs), UserQuery(userId)) == [] ==>
        r == Err(SessionNotFound) && repo.docs == old(repo.docs)
      ensures Select(old(repo.docs), UserQuery(userId)) != [] ==>
        && repo.docs == PatchFirst(old(repo.docs), UserQuery(userId), TokenPatch(refreshToken))
        && r.Ok? && IsSession(r.value) && r.value.fields[UserIdField] == userId && r.value.fields[RefreshTokenField] == refreshToken
    {
      ghost var before := repo.docs;
      r := repo.UpdateAndGet(UserQuery(userId), TokenPatch(refreshToken));
      PatchFirstKeepsSessions(before, UserQuery(userId), TokenPatch(refreshToken));
      FirstMatchHeadsSelect(before, UserQuery(userId));
    }
  }
}
