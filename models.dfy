/** The records the activity module keeps in MongoDB and ClickHouse, their defaults, the
    rate-limit tiers and their cache keys, endpoint patterns, day truncation, and the
    default-filling of an activity row before it is inserted. */
module Models {
  import opened Wrappers
  import opened Text

  /** The API prefix (`API_V1_STR`). */
  const ApiV1: string := "/api/v1"
  /** The token-claim endpoint, where a bearer header never identifies a user. */
  const LoginClaimPath: string := ApiV1 + "/login/claim"

  const SecondsPerDay: int := 86400

  /** Python truthiness of an optional string: present and non-empty. */
  predicate Truthy(o: Option<string>) {
    o.Some? && o.value != ""
  }

  // ---------------------------------------------------------------------------------------
  // Time

  /** Midnight (UTC) of the day holding the timestamp `t` (seconds): what
      `replace(hour=0, minute=0, second=0, microsecond=0)` does to a datetime. */
  function DayStart(t: int): (d: int)
    ensures d <= t < d + SecondsPerDay
    ensures d % SecondsPerDay == 0
  {
    t - t % SecondsPerDay
  }

  /** The midnight of a day is the only whole-day boundary at most one day before `t`,
      so `DayStart` is fully determined by its contract. */
  lemma DayStartUnique(t: int, d: int)
    requires d % SecondsPerDay == 0 && d <= t < d + SecondsPerDay
    ensures DayStart(t) == d
  {
    var e := DayStart(t);
    var k := d / SecondsPerDay;
    var m := e / SecondsPerDay;
    assert d == k * SecondsPerDay && e == m * SecondsPerDay;
    assert -1 < k - m < 1;
  }

  /** Truncating twice is truncating once. */
  lemma DayStartIdempotent(t: int)
    ensures DayStart(DayStart(t)) == DayStart(t)
  {
    DayStartUnique(DayStart(t), DayStart(t));
  }

  // ---------------------------------------------------------------------------------------
  // Rate-limit tiers and their keys

  /** The three windowed rate-limit tiers; the name is the `type` column of a violation and
      the `record_type` of an analytics request. */
  datatype Scope = IpScope | UserScope | EndpointScope {
    function Name(): string {
      match this
      case IpScope => "ip"
      case UserScope => "user"
      case EndpointScope => "endpoint"
    }
  }

  /** The dispatch on `record_type`: which tier a type name selects, if any. */
  function ScopeOfName(name: string): (r: Option<Scope>)
    ensures r.Some? ==> r.value.Name() == name
    ensures r.None? ==> forall k: Scope :: k.Name() != name
  {
    if name == "ip" then Some(IpScope)
    else if name == "user" then Some(UserScope)
    else if name == "endpoint" then Some(EndpointScope)
    else None
  }

  /** Key of the per-IP window. */
  function IpKey(ip: string): string {
    "ip:" + ip
  }

  /** Key of the per-user, per-path window. */
  function UserKey(userId: string, path: string): string {
    "user:" + userId + ":" + path
  }

  /** Key of the per-endpoint, per-IP window. */
  function EndpointKey(path: string, ip: string): string {
    "endpoint:" + path + ":" + ip
  }

  /** The three tiers never share a key, whatever the ids, paths and addresses, and the
      IP-tier key identifies its address. */
  lemma TierKeysDistinct(ip: string, ip2: string, user: string, path: string, path2: string)
    ensures IpKey(ip) != UserKey(user, path)
    ensures IpKey(ip) != EndpointKey(path, ip2)
    ensures UserKey(user, path) != EndpointKey(path2, ip2)
    ensures IpKey(ip) == IpKey(ip2) ==> ip == ip2
  {
    assert IpKey(ip)[0] == 'i';
    assert UserKey(user, path)[0] == 'u';
    assert EndpointKey(path2, ip2)[0] == 'e';
    assert EndpointKey(path, ip2)[0] == 'e';
    if IpKey(ip) == IpKey(ip2) {
      assert ip == IpKey(ip)[3..];
      assert ip2 == IpKey(ip2)[3..];
    }
  }

  // ---------------------------------------------------------------------------------------
  // Endpoint patterns

  /** A configured endpoint (or sensitive path) pattern covers a request path when it is
      the path itself, or when it ends in `*` and the path starts with what precedes it. */
  predicate PatternMatches(pattern: string, path: string) {
    (EndsWith(pattern, "*") && StartsWith(path, pattern[..|pattern| - 1])) || path == pattern
  }

  /** `"*"` covers every path. */
  lemma StarMatchesEverything(path: string)
    ensures PatternMatches("*", path)
  {
    assert "*"[..0] == [];
    assert path[..0] == [];
  }

  /** A pattern without a trailing `*` covers exactly one path; one with it covers the
      paths extending its stem. */
  lemma PatternMeaning(pattern: string, path: string)
    ensures !EndsWith(pattern, "*") ==> (PatternMatches(pattern, path) <==> path == pattern)
    ensures EndsWith(pattern, "*") ==>
              (PatternMatches(pattern, path) <==> StartsWith(path, pattern[..|pattern| - 1]))
  {
    if EndsWith(pattern, "*") && path == pattern {
      assert path[..|pattern| - 1] == pattern[..|pattern| - 1];
    }
  }

  // ---------------------------------------------------------------------------------------
  // Records

  /** A device (address, user agent) seen for a user. `deviceName` is only set on devices
      registered explicitly as trusted. `id` is not a declared field: it is the extra key
      the stored document of such a device carries, and it survives only until the profile
      is next read into the declared model and written back whole. */
  datatype ClientFingerprint = ClientFingerprint(
    ip: string,
    deviceName: Option<string>,
    userAgent: string,
    firstSeen: int,
    lastSeen: int,
    requestCount: int,
    id: Option<string>)

  /** A fingerprint created on first sight: one request, first and last seen now. */
  function NewFingerprint(ip: string, userAgent: string, now: int): (fp: ClientFingerprint)
    ensures fp.ip == ip && fp.userAgent == userAgent && fp.deviceName.None? && fp.id.None?
    ensures fp.requestCount == 1 && fp.firstSeen == now && fp.lastSeen == now
  {
    ClientFingerprint(ip, None, userAgent, now, now, 1, None)
  }

  /** A rate-limit counter row (ClickHouse `rate_limits`). */
  datatype RateLimitCounter = RateLimitCounter(key: string, counter: int, windowStart: int, windowEnd: int)

  /** The length of a counter row's default window, in seconds. */
  const CounterWindowSeconds: int := 60

  /** A counter row created at `now` with its defaults: one hit, a window opening now and
      closing a minute later. */
  function NewRateLimitCounter(key: string, now: int): (c: RateLimitCounter)
    ensures c.key == key && c.counter == 1
    ensures c.windowStart == now && c.windowEnd - c.windowStart == CounterWindowSeconds
  {
    RateLimitCounter(key, 1, now, now + CounterWindowSeconds)
  }

  /** Per-user security profile (MongoDB `user_security_profiles`). */
  datatype UserSecurityProfile = UserSecurityProfile(
    userId: string,
    knownFingerprints: seq<ClientFingerprint>,
    suspiciousActivityCount: int,
    lastSuspiciousActivity: Option<int>,
    isRestricted: bool,
    lastTrustedDevice: Option<ClientFingerprint>)

  /** A profile with its declared defaults: no suspicious activity, not restricted. */
  function NewProfile(userId: string, fingerprints: seq<ClientFingerprint>): (p: UserSecurityProfile)
    ensures p.userId == userId && p.knownFingerprints == fingerprints
    ensures p.suspiciousActivityCount == 0 && p.lastSuspiciousActivity.None? && !p.isRestricted
    ensures p.lastTrustedDevice.None?
  {
    UserSecurityProfile(userId, fingerprints, 0, None, false, None)
  }

  /** Endpoint rate-limit configuration (MongoDB `rate_limit_configs`, unique per
      `(endpoint, active)`). */
  datatype RateLimitConfig = RateLimitConfig(
    id: string,
    endpoint: string,
    maxRequests: int,
    windowSeconds: int,
    active: bool,
    bypassRoles: seq<string>,
    createdAt: int,
    updatedAt: int,
    description: Option<string>)

  /** Per-user limits replacing the tier defaults (MongoDB `rate_limit_overrides`, unique per
      `(user_id, path)`; the path `"*"` stands for every path). */
  datatype RateLimitOverride = RateLimitOverride(
    id: string,
    userId: string,
    path: string,
    maxRequests: int,
    windowSeconds: int,
    createdAt: int,
    expiresAt: Option<int>,
    createdBy: Option<string>,
    reason: Option<string>)

  /** The path an override applies to when none is given. */
  const AllPaths: string := "*"

  /** A window that reached its limit (ClickHouse `rate_limit_violations`). */
  datatype RateLimitViolation = RateLimitViolation(
    timestamp: int,
    date: int,
    key: string,
    kind: Scope,
    limit: int,
    attempts: int,
    userId: Option<string>,
    clientIp: Option<string>,
    endpoint: Option<string>)

  /** A violation recorded at `now`: its `date` is the midnight of its timestamp. */
  function ViolationAt(now: int, key: string, kind: Scope, limit: int, attempts: int,
                       userId: Option<string>, clientIp: Option<string>, endpoint: Option<string>)
    : (v: RateLimitViolation)
    ensures v.date <= v.timestamp < v.date + SecondsPerDay && v.date % SecondsPerDay == 0
  {
    RateLimitViolation(now, DayStart(now), key, kind, limit, attempts, userId, clientIp, endpoint)
  }

  /** Persistent per-user block (MongoDB `user_rate_limits`, unique per `user_id`). The
      pipeline also keys IP-tier blocks here, under `"ip:{address}"`. */
  datatype UserRateLimit = UserRateLimit(
    userId: string,
    isLimited: bool,
    reason: Option<string>,
    limitedUntil: Option<int>,
    createdAt: int,
    updatedAt: int)

  /** Blocked address (MongoDB `user_ip_blacklist`). */
  datatype IPBlacklistEntry = IPBlacklistEntry(
    ip: string,
    reason: string,
    createdAt: int,
    createdBy: Option<string>,
    expiresAt: Option<int>)

  datatype Severity = Low | Medium | High {
    function Name(): string {
      match this
      case Low => "low"
      case Medium => "medium"
      case High => "high"
    }
  }

  /** Suspicious-activity row (ClickHouse `user_suspicious_activity`). Path, method and
      status are required: they have no default. */
  datatype SuspiciousActivity = SuspiciousActivity(
    timestamp: int,
    date: int,
    userId: string,
    clientIp: string,
    userAgent: string,
    path: string,
    httpMethod: string,
    statusCode: int,
    activityType: string,
    severity: Severity,
    details: Option<string>,
    isResolved: bool,
    resolutionId: Option<string>)

  // ---------------------------------------------------------------------------------------
  // Activity rows

  /** A value of an activity row as it is handed to ClickHouse. */
  datatype Field = Null | Time(t: int) | Str(s: string) | Int(n: int) | Bool(b: bool)

  /** A row field that `dict_for_insert` treats as missing: absent, or explicitly null. */
  predicate Missing(data: map<string, Field>, name: string) {
    name !in data || data[name] == Null
  }

  /** The shape a dumped activity row has: the time fields hold times and the identifier
      fields hold strings. */
  predicate WellTyped(data: map<string, Field>) {
    && ("timestamp" in data ==> data["timestamp"].Time? || data["timestamp"] == Null)
    && ("date" in data ==> data["date"].Time? || data["date"] == Null)
    && ("event_id" in data ==> data["event_id"].Str? || data["event_id"] == Null)
    && ("user_id" in data ==> data["user_id"].Str? || data["user_id"] == Null)
    && ("client_ip" in data ==> data["client_ip"].Str?)
  }

  /** The row `dict_for_insert` hands to ClickHouse: a missing timestamp becomes `now`; a
      missing date becomes the midnight of the (possibly just filled) timestamp; a missing or
      empty event id becomes `freshId`; a missing user id becomes `"anon-{client_ip}"`, or
      `"anon-unknown"` without an address. Each fill happens in place, one field at a time. */
  method DictForInsert(data0: map<string, Field>, now: int, freshId: string)
    returns (data: map<string, Field>)
    requires WellTyped(data0)
    requires freshId != ""
    ensures data.Keys == data0.Keys + {"timestamp", "date", "event_id", "user_id"}
    ensures forall k :: k in data0 && k !in {"timestamp", "date", "event_id", "user_id"} ==>
              data[k] == data0[k]
    ensures data["timestamp"] == if Missing(data0, "timestamp") then Time(now) else data0["timestamp"]
    ensures data["date"].Time?
    ensures !Missing(data0, "date") ==> data["date"] == data0["date"]
    ensures Missing(data0, "date") ==> data["date"] == Time(DayStart(data["timestamp"].t))
    ensures Missing(data0, "event_id") || data0["event_id"] == Str("") ==> data["event_id"] == Str(freshId)
    ensures !(Missing(data0, "event_id") || data0["event_id"] == Str("")) ==>
              data["event_id"] == data0["event_id"]
    ensures data["event_id"].Str? && data["event_id"].s != ""
    ensures !Missing(data0, "user_id") ==> data["user_id"] == data0["user_id"]
    ensures Missing(data0, "user_id") ==>
              data["user_id"] == Str("anon-" + (if "client_ip" in data0 then data0["client_ip"].s else "unknown"))
    ensures data["user_id"].Str?
  {
    data := data0;
    if Missing(data, "timestamp") {
      data := data["timestamp" := Time(now)];
    }
    if Missing(data, "date") {
      data := data["date" := Time(DayStart(data["timestamp"].t))];
    }
    if Missing(data, "event_id") || data["event_id"] == Str("") {
      data := data["event_id" := Str(freshId)];
    }
    if Missing(data, "user_id") {
      var ip := if "client_ip" in data then data["client_ip"].s else "unknown";
      data := data["user_id" := Str("anon-" + ip)];
    }
  }

  // ---------------------------------------------------------------------------------------
  // Bearer tokens

  const BearerPrefix: string := "Bearer "

  /** What the token decoder (`deps.get_token_payload`) made of a token: it raised, or it
      gave a payload whose subject may be absent. */
  datatype Decoded = Rejected | Accepted(sub: Option<string>)

  /** The token both middlewares hand to the decoder: present only for a non-empty
      `authorization` header starting with `"Bearer "` on a path other than the login-claim
      path, and then the header with every `"Bearer "` removed. */
  function BearerToken(authHeader: Option<string>, path: string): (token: Option<string>)
    ensures token.Some? <==> Truthy(authHeader) && StartsWith(authHeader.value, BearerPrefix) && path != LoginClaimPath
    ensures token.Some? ==> |token.value| <= |authHeader.value| - |BearerPrefix|
  {
    if Truthy(authHeader) && StartsWith(authHeader.value, BearerPrefix) && path != LoginClaimPath
    then Some(RemoveAll(authHeader.value, BearerPrefix))
    else None
  }

  /** A header `"Bearer " + t` yields `t` itself when `t` holds no further `"Bearer "`. */
  lemma BearerTokenOfHeader(t: string, path: string)
    requires !Contains(t, BearerPrefix) && path != LoginClaimPath
    ensures BearerToken(Some(BearerPrefix + t), path) == Some(t)
  {
    var h := BearerPrefix + t;
    assert h[..|BearerPrefix|] == BearerPrefix && h[|BearerPrefix|..] == t;
    RemoveAllAbsent(t, BearerPrefix);
  }
}
