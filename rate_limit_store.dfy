/** The rate-limit store (`CRUDRateLimit`): per-user overrides, endpoint configurations and
    persistent user blocks in MongoDB, and the violation log in ClickHouse, with the rules
    that read and write them. ClickHouse aggregates (window sums and request counts) are
    inputs; a `StoreError` input stands for a failed query. */
module RateLimitStore {
  import opened Wrappers
  import opened Text
  import opened Models

  // ---------------------------------------------------------------------------------------
  // Remaining quota

  /** What `get_user_limit_status` reports. */
  datatype RateLimitStatus = RateLimitStatus(
    totalAllowed: int, remaining: int, resetAt: int, windowSeconds: int)

  /** The aggregate over the user's counter rows inside the window: `sum(counter)` and
      `max(window_end)` (absent when null). */
  datatype WindowRow = WindowRow(totalCount: int, latestExpiry: Option<int>)

  /** Requests left in a window: `max(0, max_requests - total_count)`. */
  function Remaining(maxRequests: int, totalCount: int): (r: int)
    ensures r >= 0
    ensures r == 0 <==> totalCount >= maxRequests
    ensures r > 0 ==> r + totalCount == maxRequests
    ensures 0 <= totalCount && 0 <= maxRequests ==> r <= maxRequests
  {
    if maxRequests - totalCount > 0 then maxRequests - totalCount else 0
  }

  /** An override whose expiry is set and strictly in the past no longer applies. */
  predicate OverrideExpired(o: RateLimitOverride, now: int) {
    o.expiresAt.Some? && o.expiresAt.value < now
  }

  // ---------------------------------------------------------------------------------------
  // Endpoint configurations

  /** The MongoDB unique indexes of `rate_limit_configs`: ids, and `(endpoint, active)`. */
  ghost predicate ConfigsUnique(cs: seq<RateLimitConfig>) {
    forall i, j :: 0 <= i < j < |cs| ==>
      cs[i].id != cs[j].id && (cs[i].endpoint != cs[j].endpoint || cs[i].active != cs[j].active)
  }

  /** `rows` is what `find({"active": True}).sort("endpoint", -1)` yields over `cs`: the
      active configurations, endpoints strictly descending. */
  ghost predicate ActiveListing(cs: seq<RateLimitConfig>, rows: seq<RateLimitConfig>) {
    && (forall c :: c in rows <==> c in cs && c.active)
    && (forall i, j :: 0 <= i < j < |rows| ==> LexLess(rows[j].endpoint, rows[i].endpoint))
  }

  /** `c` is the active configuration covering `endpoint` whose endpoint string is the
      greatest among all active configurations covering it. */
  ghost predicate IsBestMatch(cs: seq<RateLimitConfig>, endpoint: string, c: RateLimitConfig) {
    && c in cs && c.active && PatternMatches(c.endpoint, endpoint)
    && forall d :: d in cs && d.active && PatternMatches(d.endpoint, endpoint) ==>
         d == c || LexLess(d.endpoint, c.endpoint)
  }

  /** Because the pick goes by string order, a wildcard `p + "*"` outranks the exact
      configuration for `p` itself: the exact one is never chosen while both are active. */
  lemma WildcardOutranksExact(cs: seq<RateLimitConfig>, exact: RateLimitConfig, wild: RateLimitConfig)
    requires exact in cs && wild in cs && exact.active && wild.active
    requires wild.endpoint == exact.endpoint + "*"
    ensures PatternMatches(wild.endpoint, exact.endpoint)
    ensures !IsBestMatch(cs, exact.endpoint, exact)
  {
    var p := exact.endpoint;
    assert wild.endpoint[..|wild.endpoint| - 1] == p;
    assert p[..|p|] == p;
    LexLessExtension(p, "*");
    LexLessAsymmetric(p, wild.endpoint);
  }

  /** How `rate_limit_configs` is searched: by id, as `ObjectId(config_id)` parses it (the
      hexadecimal digits in either case), or by the exact endpoint string. */
  datatype ConfigLookup = ById(id: string) | ByEndpoint(endpoint: string)

  /** The configuration is one the lookup's filter selects. */
  predicate Selects(k: ConfigLookup, c: RateLimitConfig) {
    match k
    case ById(id) => Lower(c.id) == Lower(id)
    case ByEndpoint(endpoint) => c.endpoint == endpoint
  }

  /** Position of the first configuration the lookup selects (`find_one` in natural order),
      `|cs|` when there is none. */
  function IndexOf(cs: seq<RateLimitConfig>, k: ConfigLookup): (i: nat)
    ensures i <= |cs|
    ensures i < |cs| ==> Selects(k, cs[i])
    ensures forall j :: 0 <= j < i ==> !Selects(k, cs[j])
  {
    if cs == [] then 0
    else if Selects(k, cs[0]) then 0
    else 1 + IndexOf(cs[1..], k)
  }

  /** Looking a configuration up by an id written with upper-case hexadecimal digits finds
      the same configuration as the id in lower case. */
  lemma {:induction false} IdLookupIgnoresCase(cs: seq<RateLimitConfig>, id: string)
    ensures IndexOf(cs, ById(id)) == IndexOf(cs, ById(Lower(id)))
  {
    LowerIdempotent(id);
    if cs != [] {
      IdLookupIgnoresCase(cs[1..], id);
    }
  }

  /** Some configuration other than the one at `skip` already holds `(endpoint, active)`:
      writing that pair at `skip` breaks the unique index. */
  predicate Collides(cs: seq<RateLimitConfig>, skip: int, endpoint: string, active: bool) {
    exists j :: 0 <= j < |cs| && j != skip && cs[j].endpoint == endpoint && cs[j].active == active
  }

  predicate IsHexDigit(c: char) {
    '0' <= c <= '9' || 'a' <= c <= 'f' || 'A' <= c <= 'F'
  }

  /** A string `ObjectId(...)` accepts: 24 hexadecimal digits. */
  predicate IsObjectId(s: string) {
    |s| == 24 && forall i :: 0 <= i < |s| ==> IsHexDigit(s[i])
  }

  /** A configuration after a partial update: the given fields replaced, `updated_at`
      stamped, everything else as it was. */
  function Patched(c: RateLimitConfig, maxRequests: Option<int>, windowSeconds: Option<int>,
                   active: Option<bool>, bypassRoles: Option<seq<string>>,
                   description: Option<string>, now: int): RateLimitConfig
  {
    c.(updatedAt := now,
       maxRequests := maxRequests.GetOr(c.maxRequests),
       windowSeconds := windowSeconds.GetOr(c.windowSeconds),
       active := active.GetOr(c.active),
       bypassRoles := bypassRoles.GetOr(c.bypassRoles),
       description := if description.Some? then description else c.description)
  }

  /** A partial update never touches the identity of a configuration, leaves every field it
      is not given as it was, and with nothing given only stamps the update time. */
  lemma PatchedKeepsUnsetFields(c: RateLimitConfig, maxRequests: Option<int>, windowSeconds: Option<int>,
                                active: Option<bool>, bypassRoles: Option<seq<string>>,
                                description: Option<string>, now: int)
    ensures var u := Patched(c, maxRequests, windowSeconds, active, bypassRoles, description, now);
      && u.id == c.id && u.endpoint == c.endpoint && u.createdAt == c.createdAt && u.updatedAt == now
      && (maxRequests.None? ==> u.maxRequests == c.maxRequests)
      && (windowSeconds.None? ==> u.windowSeconds == c.windowSeconds)
      && (active.None? ==> u.active == c.active)
      && (bypassRoles.None? ==> u.bypassRoles == c.bypassRoles)
      && (description.None? ==> u.description == c.description)
    ensures Patched(c, None, None, None, None, None, now) == c.(updatedAt := now)
  {
  }

  /** Applying the same partial update twice is applying it once. */
  lemma PatchedIdempotent(c: RateLimitConfig, maxRequests: Option<int>, windowSeconds: Option<int>,
                          active: Option<bool>, bypassRoles: Option<seq<string>>,
                          description: Option<string>, now: int)
    ensures var u := Patched(c, maxRequests, windowSeconds, active, bypassRoles, description, now);
      Patched(u, maxRequests, windowSeconds, active, bypassRoles, description, now) == u
  {
  }

  // ---------------------------------------------------------------------------------------
  // Violations

  /** The filter of one of the quick `check_*_limit` queries on `rate_limit_violations`. */
  datatype ViolationQuery = ViolationQuery(
    kind: Scope, clientIp: Option<string>, userId: Option<string>, endpoint: Option<string>)

  function IpQuery(ip: string): ViolationQuery {
    ViolationQuery(IpScope, Some(ip), None, None)
  }

  function UserQuery(userId: string, path: string): ViolationQuery {
    ViolationQuery(UserScope, None, Some(userId), Some(path))
  }

  function EndpointQuery(path: string, ip: string): ViolationQuery {
    ViolationQuery(EndpointScope, Some(ip), None, Some(path))
  }

  /** A violation row the query selects: same tier, every given column equal, and recorded
      at or after `since`. */
  predicate Hits(v: RateLimitViolation, q: ViolationQuery, since: int) {
    && v.kind == q.kind
    && v.timestamp >= since
    && (q.clientIp.Some? ==> v.clientIp == q.clientIp)
    && (q.userId.Some? ==> v.userId == q.userId)
    && (q.endpoint.Some? ==> v.endpoint == q.endpoint)
  }

  /** `SELECT 1 ... LIMIT 1` found a row. */
  function AnyHit(vs: seq<RateLimitViolation>, q: ViolationQuery, since: int): (r: bool)
    ensures r <==> exists i :: 0 <= i < |vs| && Hits(vs[i], q, since)
  {
    if vs == [] then false
    else Hits(vs[|vs| - 1], q, since) || AnyHit(vs[..|vs| - 1], q, since)
  }

  /** The violation `update_ip_request_count` records. */
  function IpViolation(ip: string, maxRequests: int, count: int, now: int): RateLimitViolation {
    ViolationAt(now, IpKey(ip), IpScope, maxRequests, count, None, Some(ip), None)
  }

  /** The violation `update_user_request_count` records. */
  function UserViolation(userId: string, path: string, maxRequests: int, count: int, now: int)
    : RateLimitViolation
  {
    ViolationAt(now, UserKey(userId, path), UserScope, maxRequests, count, Some(userId), None, Some(path))
  }

  /** The violation `update_endpoint_request_count` records. */
  function EndpointViolation(path: string, ip: string, maxRequests: int, count: int, now: int)
    : RateLimitViolation
  {
    ViolationAt(now, EndpointKey(path, ip), EndpointScope, maxRequests, count, None, Some(ip), Some(path))
  }

  /** A recorded violation is found by its own tier's quick check for as long as the check's
      window reaches back to it, and is invisible to the other tiers' checks. */
  lemma ViolationsAreSeenByTheirCheck(vs: seq<RateLimitViolation>, ip: string, userId: string,
                                      path: string, m: int, count: int, now: int, since: int)
    requires since <= now
    ensures AnyHit(vs + [IpViolation(ip, m, count, now)], IpQuery(ip), since)
    ensures AnyHit(vs + [UserViolation(userId, path, m, count, now)], UserQuery(userId, path), since)
    ensures AnyHit(vs + [EndpointViolation(path, ip, m, count, now)], EndpointQuery(path, ip), since)
    ensures !Hits(IpViolation(ip, m, count, now), UserQuery(userId, path), since)
    ensures !Hits(IpViolation(ip, m, count, now), EndpointQuery(path, ip), since)
    ensures !Hits(UserViolation(userId, path, m, count, now), IpQuery(ip), since)
    ensures !Hits(UserViolation(userId, path, m, count, now), EndpointQuery(path, ip), since)
    ensures !Hits(EndpointViolation(path, ip, m, count, now), IpQuery(ip), since)
    ensures !Hits(EndpointViolation(path, ip, m, count, now), UserQuery(userId, path), since)
  {
    var v1 := IpViolation(ip, m, count, now);
    assert (vs + [v1])[|vs|] == v1;
    var v2 := UserViolation(userId, path, m, count, now);
    assert (vs + [v2])[|vs|] == v2;
    var v3 := EndpointViolation(path, ip, m, count, now);
    assert (vs + [v3])[|vs|] == v3;
  }

  /** The window count reached the limit: a row-less answer counts 0; a failed query never
      records anything. */
  predicate Exceeded(count: Fetch<Option<nat>>, maxRequests: int) {
    count.Rows? && count.rows.GetOr(0) >= maxRequests
  }

  // ---------------------------------------------------------------------------------------
  // Persistent blocks

  /** A persistent block is in force at `now`: flagged, with a deadline strictly later. */
  predicate BlockedAt(r: UserRateLimit, now: int) {
    r.isLimited && r.limitedUntil.Some? && r.limitedUntil.value > now
  }

  class CrudRateLimit {
    /** `rate_limit_overrides`, keyed by its unique index `(user_id, path)`. */
    var overrides: map<(string, string), RateLimitOverride>
    /** `rate_limit_configs` in natural (insertion) order. */
    var configs: seq<RateLimitConfig>
    /** `user_rate_limits`, keyed by its unique index `user_id`. */
    var userLimits: map<string, UserRateLimit>
    /** `rate_limit_violations` in insertion order. */
    var violations: seq<RateLimitViolation>

    ghost predicate Valid()
      reads this
    {
      && (forall k :: k in overrides ==> overrides[k].userId == k.0 && overrides[k].path == k.1)
      && ConfigsUnique(configs)
      && (forall u :: u in userLimits ==> userLimits[u].userId == u)
    }

    constructor()
      ensures Valid()
      ensures overrides == map[] && configs == [] && userLimits == map[] && violations == []
    {
      overrides := map[];
      configs := [];
      userLimits := map[];
      violations := [];
    }

    /** The override for `(user, path)`, else the user's all-paths override, else none. */
    function GetUserOverride(userId: string, path: string): (r: Option<RateLimitOverride>)
      reads this
      ensures (userId, path) in overrides ==> r == Some(overrides[(userId, path)])
      ensures (userId, path) !in overrides ==>
                r == if (userId, AllPaths) in overrides then Some(overrides[(userId, AllPaths)]) else None
      ensures Valid() && r.Some? ==> r.value.userId == userId && (r.value.path == path || r.value.path == AllPaths)
    {
      if (userId, path) in overrides then Some(overrides[(userId, path)])
      else if (userId, AllPaths) in overrides then Some(overrides[(userId, AllPaths)])
      else None
    }

    /** The user's quota on `path`: a live override replaces the caller's limits, a stale
        one is deleted; remaining requests come from the window aggregate; when the
        aggregate query fails the whole (possibly overridden) quota is reported left. */
    method GetUserLimitStatus(userId: string, path: string, maxRequests: int, windowSeconds: int,
                              now: int, window: Fetch<Option<WindowRow>>)
      returns (status: RateLimitStatus)
      requires Valid()
      modifies this
      ensures Valid()
      ensures configs == old(configs) && userLimits == old(userLimits) && violations == old(violations)
      ensures var found := old(GetUserOverride(userId, path));
              var stale := found.Some? && OverrideExpired(found.value, now);
              && overrides == (if stale then old(overrides) - {(found.value.userId, found.value.path)}
                               else old(overrides))
              && status.totalAllowed == (if found.Some? && !stale then found.value.maxRequests else maxRequests)
              && status.windowSeconds == (if found.Some? && !stale then found.value.windowSeconds else windowSeconds)
      ensures window.StoreError? ==>
                status.remaining == status.totalAllowed && status.resetAt == now + status.windowSeconds
      ensures window == Rows(None) ==>
                status.remaining == Remaining(status.totalAllowed, 0) && status.resetAt == now + status.windowSeconds
      ensures window.Rows? && window.rows.Some? ==>
                && status.remaining == Remaining(status.totalAllowed, window.rows.value.totalCount)
                && status.resetAt == window.rows.value.latestExpiry.GetOr(now + status.windowSeconds)
    {
      var m, w := maxRequests, windowSeconds;
      var found := GetUserOverride(userId, path);
      if found.Some? {
        var o := found.value;
        if o.expiresAt.Some? && o.expiresAt.value < now {
          overrides := overrides - {(o.userId, o.path)};
        } else {
          m, w := o.maxRequests, o.windowSeconds;
        }
      }
      match window
      case StoreError =>
        status := RateLimitStatus(m, m, now + w, w);
      case Rows(row) =>
        var total := if row.Some? then row.value.totalCount else 0;
        var resetAt := if row.Some? && row.value.latestExpiry.Some? then row.value.latestExpiry.value else now + w;
        status := RateLimitStatus(m, Remaining(m, total), resetAt, w);
    }

    /** Upsert keyed by `(user_id, path)`: the stored override takes every given value,
        `created_at` is reset to now, and an existing record keeps its id. */
    method CreateUserOverride(userId: string, path: string, maxRequests: int, windowSeconds: int,
                              expiresAt: Option<int>, createdBy: Option<string>, reason: Option<string>,
                              now: int, freshId: string)
      returns (o: RateLimitOverride)
      requires Valid()
      requires freshId != ""
      modifies this
      ensures Valid()
      ensures configs == old(configs) && userLimits == old(userLimits) && violations == old(violations)
      ensures o == RateLimitOverride(
                if (userId, path) in old(overrides) then old(overrides)[(userId, path)].id else freshId,
                userId, path, maxRequests, windowSeconds, now, expiresAt, createdBy, reason)
      ensures overrides == old(overrides)[(userId, path) := o]
      ensures GetUserOverride(userId, path) == Some(o)
    {
      var id := if (userId, path) in overrides then overrides[(userId, path)].id else freshId;
      o := RateLimitOverride(id, userId, path, maxRequests, windowSeconds, now, expiresAt, createdBy, reason);
      overrides := overrides[(userId, path) := o];
    }

    /** The configuration for a request path: walks the active configurations in descending
        endpoint order and returns the first whose pattern covers the path; none when nothing
        covers it or when the query fails. */
    method GetRateLimitConfig(endpoint: string, cursor: Fetch<seq<RateLimitConfig>>)
      returns (r: Option<RateLimitConfig>)
      requires cursor.Rows? ==> ActiveListing(configs, cursor.rows)
      ensures cursor.StoreError? ==> r.None?
      ensures r.Some? ==> IsBestMatch(configs, endpoint, r.value)
      ensures cursor.Rows? && r.None? ==>
                forall c :: c in configs && c.active ==> !PatternMatches(c.endpoint, endpoint)
    {
      if cursor.StoreError? {
        return None;
      }
      var rows := cursor.rows;
      var i := 0;
      while i < |rows|
        invariant 0 <= i <= |rows|
        invariant forall j :: 0 <= j < i ==> !PatternMatches(rows[j].endpoint, endpoint)
      {
        var cfg := rows[i];
        if PatternMatches(cfg.endpoint, endpoint) {
          forall d | d in configs && d.active && PatternMatches(d.endpoint, endpoint)
            ensures d == cfg || LexLess(d.endpoint, cfg.endpoint)
          {
            var j :| 0 <= j < |rows| && rows[j] == d;
            assert j >= i;
          }
          return Some(cfg);
        }
        i := i + 1;
      }
      forall c | c in configs && c.active
        ensures !PatternMatches(c.endpoint, endpoint)
      {
        var j :| 0 <= j < |rows| && rows[j] == c;
      }
      return None;
    }

    /** Upsert keyed by `endpoint`: the first configuration with that endpoint takes the new
        values and keeps its id and `created_at`; otherwise a new one is inserted. When the
        write would duplicate `(endpoint, active)` the store is left alone and a response
        with id `"error"` echoes the request. */
    method CreateRateLimitConfig(endpoint: string, maxRequests: int, windowSeconds: int,
                                 bypassRoles: Option<seq<string>>, description: Option<string>,
                                 active: bool, now: int, freshId: string)
      returns (resp: RateLimitConfig)
      requires Valid()
      requires freshId != "" && freshId != "error"
      requires forall c :: c in configs ==> c.id != freshId
      modifies this
      ensures Valid()
      ensures overrides == old(overrides) && userLimits == old(userLimits) && violations == old(violations)
      ensures var i := IndexOf(old(configs), ByEndpoint(endpoint));
              var roles := bypassRoles.GetOr([]);
              if i == |old(configs)| then
                && resp == RateLimitConfig(freshId, endpoint, maxRequests, windowSeconds, active, roles,
                                           now, now, description)
                && configs == old(configs) + [resp]
              else if Collides(old(configs), i, endpoint, active) then
                && resp == RateLimitConfig("error", endpoint, maxRequests, windowSeconds, active, roles,
                                           now, now, description)
                && configs == old(configs)
              else
                && resp == RateLimitConfig(old(configs)[i].id, endpoint, maxRequests, windowSeconds, active,
                                           roles, old(configs)[i].createdAt, now, description)
                && configs == old(configs)[i := resp]
    {
      var roles := bypassRoles.GetOr([]);
      var i := IndexOf(configs, ByEndpoint(endpoint));
      if i == |configs| {
        resp := RateLimitConfig(freshId, endpoint, maxRequests, windowSeconds, active, roles,
                                now, now, description);
        configs := configs + [resp];
      } else if Collides(configs, i, endpoint, active) {
        resp := RateLimitConfig("error", endpoint, maxRequests, windowSeconds, active, roles,
                                now, now, description);
      } else {
        var existing := configs[i];
        resp := RateLimitConfig(existing.id, endpoint, maxRequests, windowSeconds, active, roles,
                                existing.createdAt, now, description);
        configs := configs[i := resp];
      }
    }

    /** Partial update by id: only the given fields change, plus `updated_at`. None for an id
        that is not an ObjectId, for an unknown id, and for an update that would duplicate
        `(endpoint, active)`; the store is then left alone. */
    method UpdateRateLimitConfig(configId: string, maxRequests: Option<int>, windowSeconds: Option<int>,
                                 active: Option<bool>, bypassRoles: Option<seq<string>>,
                                 description: Option<string>, now: int)
      returns (r: Option<RateLimitConfig>)
      requires Valid()
      modifies this
      ensures Valid()
      ensures overrides == old(overrides) && userLimits == old(userLimits) && violations == old(violations)
      ensures var i := IndexOf(old(configs), ById(configId));
              if !IsObjectId(configId) || i == |old(configs)| then
                r.None? && configs == old(configs)
              else
                var u := Patched(old(configs)[i], maxRequests, windowSeconds, active, bypassRoles, description, now);
                if Collides(old(configs), i, u.endpoint, u.active) then
                  r.None? && configs == old(configs)
                else
                  r == Some(u) && configs == old(configs)[i := u]
    {
      if !IsObjectId(configId) {
        return None;
      }
      var i := IndexOf(configs, ById(configId));
      if i == |configs| {
        return None;
      }
      var u := Patched(configs[i], maxRequests, windowSeconds, active, bypassRoles, description, now);
      if Collides(configs, i, u.endpoint, u.active) {
        return None;
      }
      configs := configs[i := u];
      r := Some(u);
    }

    // -------------------------------------------------------------------------------------
    // Quick window checks: allow unless a same-tier violation was recorded within the
    // window; allow when ClickHouse cannot be queried (`reachable` false).

    function CheckIpLimit(ip: string, windowSeconds: int, now: int, reachable: bool): (allowed: bool)
      reads this
      ensures allowed <==>
                !reachable || forall i :: 0 <= i < |violations| ==> !Hits(violations[i], IpQuery(ip), now - windowSeconds)
    {
      !reachable || !AnyHit(violations, IpQuery(ip), now - windowSeconds)
    }

    function CheckUserLimit(userId: string, path: string, windowSeconds: int, now: int, reachable: bool)
      : (allowed: bool)
      reads this
      ensures allowed <==>
                !reachable || forall i :: 0 <= i < |violations| ==> !Hits(violations[i], UserQuery(userId, path), now - windowSeconds)
    {
      !reachable || !AnyHit(violations, UserQuery(userId, path), now - windowSeconds)
    }

    function CheckEndpointLimit(path: string, ip: string, windowSeconds: int, now: int, reachable: bool)
      : (allowed: bool)
      reads this
      ensures allowed <==>
                !reachable || forall i :: 0 <= i < |violations| ==> !Hits(violations[i], EndpointQuery(path, ip), now - windowSeconds)
    {
      !reachable || !AnyHit(violations, EndpointQuery(path, ip), now - windowSeconds)
    }

    // -------------------------------------------------------------------------------------
    // Background counters: record a violation when the window count reached the limit.
    // `inserted` says whether the violation insert went through; a failed insert is logged
    // and leaves no row.

    method UpdateIpRequestCount(ip: string, maxRequests: int, windowSeconds: int, now: int,
                                count: Fetch<Option<nat>>, inserted: bool)
      modifies this
      ensures overrides == old(overrides) && configs == old(configs) && userLimits == old(userLimits)
      ensures violations == old(violations) +
                (if Exceeded(count, maxRequests) && inserted then [IpViolation(ip, maxRequests, count.rows.GetOr(0), now)] else [])
      ensures Exceeded(count, maxRequests) && inserted ==>
                forall t, w :: t - w <= now ==> !CheckIpLimit(ip, w, t, true)
    {
      if Exceeded(count, maxRequests) && inserted {
        var v := IpViolation(ip, maxRequests, count.rows.GetOr(0), now);
        ghost var before := violations;
        violations := violations + [v];
        forall t, w | t - w <= now
          ensures !CheckIpLimit(ip, w, t, true)
        {
          ViolationsAreSeenByTheirCheck(before, ip, "", "", maxRequests, count.rows.GetOr(0), now, t - w);
        }
      }
    }

    method UpdateUserRequestCount(userId: string, path: string, maxRequests: int, windowSeconds: int,
                                  now: int, count: Fetch<Option<nat>>, inserted: bool)
      modifies this
      ensures overrides == old(overrides) && configs == old(configs) && userLimits == old(userLimits)
      ensures violations == old(violations) +
                (if Exceeded(count, maxRequests) && inserted
                 then [UserViolation(userId, path, maxRequests, count.rows.GetOr(0), now)] else [])
      ensures Exceeded(count, maxRequests) && inserted ==>
                forall t, w :: t - w <= now ==> !CheckUserLimit(userId, path, w, t, true)
    {
      if Exceeded(count, maxRequests) && inserted {
        var v := UserViolation(userId, path, maxRequests, count.rows.GetOr(0), now);
        ghost var before := violations;
        violations := violations + [v];
        forall t, w | t - w <= now
          ensures !CheckUserLimit(userId, path, w, t, true)
        {
          ViolationsAreSeenByTheirCheck(before, "", userId, path, maxRequests, count.rows.GetOr(0), now, t - w);
        }
      }
    }

    method UpdateEndpointRequestCount(path: string, ip: string, maxRequests: int, windowSeconds: int,
                                      now: int, count: Fetch<Option<nat>>, inserted: bool)
      modifies this
      ensures overrides == old(overrides) && configs == old(configs) && userLimits == old(userLimits)
      ensures violations == old(violations) +
                (if Exceeded(count, maxRequests) && inserted
                 then [EndpointViolation(path, ip, maxRequests, count.rows.GetOr(0), now)] else [])
      ensures Exceeded(count, maxRequests) && inserted ==>
                forall t, w :: t - w <= now ==> !CheckEndpointLimit(path, ip, w, t, true)
    {
      if Exceeded(count, maxRequests) && inserted {
        var v := EndpointViolation(path, ip, maxRequests, count.rows.GetOr(0), now);
        ghost var before := violations;
        violations := violations + [v];
        forall t, w | t - w <= now
          ensures !CheckEndpointLimit(path, ip, w, t, true)
        {
          ViolationsAreSeenByTheirCheck(before, ip, "", path, maxRequests, count.rows.GetOr(0), now, t - w);
        }
      }
    }

    // -------------------------------------------------------------------------------------
    // Persistent blocks

    /** Blocks the user until `now + duration_minutes` with the given reason: the existing
        record is updated in place (keeping `created_at`), or one is created. `mongoUp` false
        stands for a failed read or write: the call answers false and stores nothing. */
    method SetUserRateLimited(userId: string, reason: string, durationMinutes: int, now: int, mongoUp: bool)
      returns (ok: bool)
      requires Valid()
      modifies this
      ensures Valid()
      ensures ok == mongoUp
      ensures overrides == old(overrides) && configs == old(configs) && violations == old(violations)
      ensures !ok ==> userLimits == old(userLimits)
      ensures ok ==> userLimits.Keys == old(userLimits).Keys + {userId}
      ensures forall u :: u in old(userLimits) && u != userId ==> userLimits[u] == old(userLimits)[u]
      ensures ok ==>
                var r := userLimits[userId];
                && r.isLimited && r.reason == Some(reason) && r.limitedUntil == Some(now + 60 * durationMinutes)
                && r.updatedAt == now
                && r.createdAt == (if userId in old(userLimits) then old(userLimits)[userId].createdAt else now)
      ensures ok ==> forall t :: BlockedAt(userLimits[userId], t) <==> t < now + 60 * durationMinutes
    {
      if !mongoUp {
        return false;
      }
      var until := now + 60 * durationMinutes;
      if userId in userLimits {
        var r := userLimits[userId];
        r := r.(isLimited := true, reason := Some(reason), limitedUntil := Some(until), updatedAt := now);
        userLimits := userLimits[userId := r];
      } else {
        userLimits := userLimits[userId := UserRateLimit(userId, true, Some(reason), Some(until), now, now)];
      }
      ok := true;
    }

    /** Lifts the user's block: clears the flag, the reason and the deadline; false when the
        user has no record, and false with nothing changed when MongoDB fails. */
    method RemoveUserRateLimit(userId: string, now: int, mongoUp: bool) returns (removed: bool)
      requires Valid()
      modifies this
      ensures Valid()
      ensures overrides == old(overrides) && configs == old(configs) && violations == old(violations)
      ensures removed <==> mongoUp && userId in old(userLimits)
      ensures !removed ==> userLimits == old(userLimits)
      ensures removed ==>
                userLimits == old(userLimits)[userId := old(userLimits)[userId].(
                  isLimited := false, reason := None, limitedUntil := None, updatedAt := now)]
      ensures removed ==> forall t :: !BlockedAt(userLimits[userId], t)
    {
      if !mongoUp || userId !in userLimits {
        return false;
      }
      var r := userLimits[userId];
      r := r.(isLimited := false, reason := None, limitedUntil := None, updatedAt := now);
      userLimits := userLimits[userId := r];
      removed := true;
    }

    /** Whether the user is blocked now, with the stored reason or `"Rate limited"`. A
        flagged record whose deadline is missing or past is rewritten as not limited; that
        lazy rewrite changes no verdict at `now` or later. When MongoDB fails the answer is
        `(false, None)`, whatever the record says, and nothing is written. */
    method IsUserRateLimited(userId: string, now: int, mongoUp: bool) returns (limited: bool, reason: Option<string>)
      requires Valid()
      modifies this
      ensures Valid()
      ensures overrides == old(overrides) && configs == old(configs) && violations == old(violations)
      ensures limited <==> mongoUp && old(userId in userLimits && BlockedAt(userLimits[userId], now))
      ensures limited ==>
                reason == Some(if Truthy(old(userLimits[userId].reason)) then old(userLimits[userId].reason.value)
                               else "Rate limited")
      ensures !limited ==> reason.None?
      ensures userLimits ==
                if mongoUp && old(userId in userLimits && userLimits[userId].isLimited && !BlockedAt(userLimits[userId], now))
                then old(userLimits)[userId := old(userLimits[userId]).(isLimited := false)]
                else old(userLimits)
      ensures forall t :: t >= now ==>
                ((userId in userLimits && BlockedAt(userLimits[userId], t)) <==>
                 old(userId in userLimits && BlockedAt(userLimits[userId], t)))
    {
      if !mongoUp {
        return false, None;
      }
      if userId in userLimits && userLimits[userId].isLimited {
        var r := userLimits[userId];
        if r.limitedUntil.Some? && r.limitedUntil.value > now {
          var text := if r.reason.Some? && r.reason.value != "" then r.reason.value else "Rate limited";
          return true, Some(text);
        }
        userLimits := userLimits[userId := r.(isLimited := false)];
      }
      return false, None;
    }
  }
}
