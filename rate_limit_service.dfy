/** The rate-limit service (`RateLimitService`): the Redis caches in front of the rate-limit
    store. Redis is a map from key to value and expiry; an entry is visible while the clock
    is strictly before its expiry. */
module RateLimitService {
  import opened Wrappers
  import opened Text
  import opened Models
  import opened RateLimitStore

  /** Namespace of every key the service writes. */
  const RedisPrefix: string := "ratelimit:"
  const ConfigPrefix: string := RedisPrefix + "config:"
  /** How long an "allow" decision is cached, in seconds. */
  const DecisionTtl: nat := 30
  /** How long a cached endpoint configuration lives, in seconds. */
  const ConfigTtl: nat := 120
  /** How long a blacklisted address stays cached, in seconds. */
  const IpBlacklistTtl: nat := 86400
  const AllowMark: string := "A"
  const DenyMark: string := "D:"
  const DefaultBlacklistReason: string := "IP blacklisted"

  function CheckKey(key: string): string { RedisPrefix + "check:" + key }
  function ConfigKey(endpoint: string): string { ConfigPrefix + endpoint }
  function BlacklistKey(ip: string): string { RedisPrefix + "blacklist:ip:" + ip }
  function ViolationKey(ip: string): string { RedisPrefix + "violation:ip:" + ip }

  /** Only configuration keys live under the configuration prefix. */
  lemma KeyNamespaces(key: string, ip: string, endpoint: string)
    ensures StartsWith(ConfigKey(endpoint), ConfigPrefix)
    ensures !StartsWith(CheckKey(key), ConfigPrefix)
    ensures !StartsWith(ViolationKey(ip), ConfigPrefix)
    ensures !StartsWith(BlacklistKey(ip), ConfigPrefix)
  {
    assert ConfigKey(endpoint)[..|ConfigPrefix|] == ConfigPrefix;
    assert CheckKey(key)[11] == 'h' && ConfigPrefix[11] == 'o';
    assert ViolationKey(ip)[10] == 'v' && ConfigPrefix[10] == 'c';
    assert BlacklistKey(ip)[10] == 'b';
  }

  /** Distinct window keys have distinct decision keys, and no decision key is a
      configuration or blacklist key. */
  lemma CheckKeysDistinct(key: string, key2: string, ip: string, endpoint: string)
    ensures CheckKey(key) == CheckKey(key2) ==> key == key2
    ensures CheckKey(key) != ConfigKey(endpoint)
    ensures CheckKey(key) != ViolationKey(ip)
  {
    KeyNamespaces(key, ip, endpoint);
    if CheckKey(key) == CheckKey(key2) {
      assert key == CheckKey(key)[|RedisPrefix + "check:"|..];
      assert key2 == CheckKey(key2)[|RedisPrefix + "check:"|..];
    }
    assert CheckKey(key)[10] == 'c' && ViolationKey(ip)[10] == 'v';
  }

  /** The part of a cached endpoint configuration the middleware reads: the JSON document
      of a `rate_limit_configs` row, whose limit fields may be absent. */
  datatype ConfigDoc = ConfigDoc(endpoint: string, maxRequests: Option<int>, windowSeconds: Option<int>)

  function DocOf(c: RateLimitConfig): (d: ConfigDoc)
    ensures d.endpoint == c.endpoint && d.maxRequests == Some(c.maxRequests) && d.windowSeconds == Some(c.windowSeconds)
  {
    ConfigDoc(c.endpoint, Some(c.maxRequests), Some(c.windowSeconds))
  }

  /** A Redis value: plain text, or the JSON of a configuration document. */
  datatype Value = Text(s: string) | ConfigJson(doc: ConfigDoc)

  /** A Redis entry; `expiresAt` is absent for a key without a time to live. */
  datatype Entry = Entry(value: Value, expiresAt: Option<int>)

  predicate Live(e: Entry, now: int) {
    e.expiresAt.None? || now < e.expiresAt.value
  }

  /** What `GET key` returns at `now` when the key holds text. */
  function TextAt(redis: map<string, Entry>, key: string, now: int): (r: Option<string>)
    ensures r.Some? <==> key in redis && Live(redis[key], now) && redis[key].value.Text?
    ensures r.Some? ==> r.value == redis[key].value.s
  {
    if key in redis && Live(redis[key], now) && redis[key].value.Text? then Some(redis[key].value.s) else None
  }

  /** Two keyspaces that agree on every key outside `ks`. */
  ghost predicate SameExcept(r1: map<string, Entry>, r2: map<string, Entry>, ks: set<string>) {
    forall x :: x !in ks ==> (x in r1 <==> x in r2) && (x in r1 ==> r1[x] == r2[x])
  }

  /** `SET key value EX ttl` at `now`. */
  function SetEx(redis: map<string, Entry>, key: string, v: Value, ttl: nat, now: int): map<string, Entry> {
    redis[key := Entry(v, Some(now + ttl))]
  }

  /** A value written with a positive time to live reads back until it expires, and not
      after. */
  lemma SetExReadsBack(redis: map<string, Entry>, key: string, s: string, ttl: nat, now: int, t: int)
    ensures TextAt(SetEx(redis, key, Text(s), ttl, now), key, t) == (if t < now + ttl then Some(s) else None)
  {
  }

  // ---------------------------------------------------------------------------------------
  // Cached decisions

  /** The cached deny mark: blocked until the given second. */
  function DenyValue(until: nat): (s: string)
    ensures StartsWith(s, DenyMark)
  {
    DenyMark + NatToString(until)
  }

  /** The decision a cached `check:` value stands for at `now`: a deny mark whose deadline
      is still ahead denies, the allow mark allows, and anything else (no value, an empty
      value, a past or unreadable deadline) decides nothing. */
  function CachedDecision(v: Option<string>, now: int): (d: Option<bool>)
    ensures d == Some(true) <==> v == Some(AllowMark)
    ensures d == Some(false) ==> v.Some? && StartsWith(v.value, DenyMark)
  {
    if v.None? || v.value == "" then None
    else if StartsWith(v.value, DenyMark) then
      match ParseNat(v.value[|DenyMark|..])
      case Some(until) => if until > now then Some(false) else None
      case None => None
    else if v.value == AllowMark then Some(true)
    else None
  }

  /** A deny mark written for a deadline denies strictly before it and decides nothing
      from then on. */
  lemma DenyValueRoundTrip(until: nat, t: int)
    ensures CachedDecision(Some(DenyValue(until)), t) == (if t < until then Some(false) else None)
  {
    var s := DenyValue(until);
    assert s[|DenyMark|..] == NatToString(until);
    ParseNatToString(until);
  }

  /** `check_limit`'s denial for `key`: a live deny mark in the cache, or, when the cache
      decides nothing, a denial in the store's answer (`answer` is none when the call carries
      no record or names no tier). */
  predicate DeniedBy(redis: map<string, Entry>, key: string, answer: Option<bool>, now: int) {
    var cached := CachedDecision(TextAt(redis, CheckKey(key), now), now);
    cached == Some(false) || (cached.None? && answer == Some(false))
  }

  /** The keyspace after `check_limit` for `key`: an allow (from the cache, or from the
      store when the cache decides nothing) is cached for `DecisionTtl` seconds; a store
      denial is cached as a deny mark for the window when the window is positive; anything
      else writes nothing. Only the decision key of `key` changes. */
  function AfterCheck(redis: map<string, Entry>, key: string, answer: Option<bool>, windowSeconds: int,
                      now: nat): (r: map<string, Entry>)
    ensures SameExcept(redis, r, {CheckKey(key)})
  {
    var cached := CachedDecision(TextAt(redis, CheckKey(key), now), now);
    if cached == Some(true) || (cached.None? && answer == Some(true))
    then SetEx(redis, CheckKey(key), Text(AllowMark), DecisionTtl, now)
    else if cached.None? && answer == Some(false) && windowSeconds > 0
    then SetEx(redis, CheckKey(key), Text(DenyValue(now + windowSeconds)), windowSeconds, now)
    else redis
  }

  /** A write to another key leaves the decision for `key` as it was. */
  lemma DeniedByElsewhere(r1: map<string, Entry>, r2: map<string, Entry>, ks: set<string>, key: string,
                          answer: Option<bool>, now: int)
    requires SameExcept(r1, r2, ks) && CheckKey(key) !in ks
    ensures DeniedBy(r1, key, answer, now) == DeniedBy(r2, key, answer, now)
  {
    assert TextAt(r1, CheckKey(key), now) == TextAt(r2, CheckKey(key), now);
  }

  /** A live configuration document is cached for the path. */
  predicate Cached(redis: map<string, Entry>, endpoint: string, now: int) {
    var key := ConfigKey(endpoint);
    key in redis && Live(redis[key], now) && redis[key].value.ConfigJson?
  }

  /** `config` is what `get_cached_config` finds for the path: the live cached document;
      otherwise the document of the best-matching active configuration, and none only when
      the store `failed` or no active configuration covers the path. */
  ghost predicate Resolves(redis: map<string, Entry>, configs: seq<RateLimitConfig>, endpoint: string,
                           now: int, failed: bool, config: Option<ConfigDoc>) {
    if Cached(redis, endpoint, now) then config == Some(redis[ConfigKey(endpoint)].value.doc)
    else
      && (config.Some? ==> exists c :: IsBestMatch(configs, endpoint, c) && config.value == DocOf(c))
      && (config.None? ==> failed || forall c :: c in configs && c.active ==> !PatternMatches(c.endpoint, endpoint))
  }

  /** Writes to other keys leave what `get_cached_config` finds as it was. */
  lemma ResolvesElsewhere(r1: map<string, Entry>, r2: map<string, Entry>, ks: set<string>,
                          configs: seq<RateLimitConfig>, endpoint: string, now: int, failed: bool,
                          config: Option<ConfigDoc>)
    requires SameExcept(r1, r2, ks) && ConfigKey(endpoint) !in ks
    ensures Resolves(r1, configs, endpoint, now, failed, config) == Resolves(r2, configs, endpoint, now, failed, config)
  {
    assert Cached(r1, endpoint, now) == Cached(r2, endpoint, now);
  }

  /** Analytics handed to a background task: the tier's request counter update. */
  datatype AnalyticsTask = AnalyticsTask(
    recordType: string, recordData: map<string, string>, maxRequests: int, windowSeconds: int)

  /** `record_type and record_data`: both given and non-empty. */
  predicate Recorded(recordType: Option<string>, recordData: map<string, string>) {
    Truthy(recordType) && |recordData| > 0
  }

  /** The violation the background counter update of a task records, if any: the tier's
      violation when the window count reached the limit and the insert went through. The
      tier is looked up from `record_type`, and an unknown type records nothing. A task whose
      data lacks a field its tier needs also records nothing here (the middleware always
      supplies every field). */
  function TaskViolation(task: AnalyticsTask, now: int, count: Fetch<Option<nat>>, inserted: bool)
    : (v: Option<RateLimitViolation>)
    ensures v.Some? ==> Exceeded(count, task.maxRequests) && inserted && v.value.timestamp == now
    ensures v.Some? ==> ScopeOfName(task.recordType) == Some(v.value.kind)
  {
    var d := task.recordData;
    if !Exceeded(count, task.maxRequests) || !inserted then None
    else
      var n := count.rows.GetOr(0);
      match ScopeOfName(task.recordType)
      case Some(IpScope) =>
        if "ip" in d then Some(IpViolation(d["ip"], task.maxRequests, n, now)) else None
      case Some(UserScope) =>
        if "user_id" in d && "path" in d then Some(UserViolation(d["user_id"], d["path"], task.maxRequests, n, now))
        else None
      case Some(EndpointScope) =>
        if "path" in d && "ip" in d then Some(EndpointViolation(d["path"], d["ip"], task.maxRequests, n, now))
        else None
      case None => None
  }

  class RateLimitService {
    /** The Redis keyspace. */
    var redis: map<string, Entry>
    /** The store behind the cache. */
    const crud: CrudRateLimit

    /** Configuration documents are stored under configuration keys and nowhere else. */
    ghost predicate Valid()
      reads this
    {
      forall k :: k in redis ==> (redis[k].value.ConfigJson? <==> StartsWith(k, ConfigPrefix))
    }

    constructor(crud: CrudRateLimit)
      ensures this.crud == crud && redis == map[] && Valid()
    {
      this.crud := crud;
      redis := map[];
    }

    /** `_check_limit`: the store's quick check for the tier `record_type` names; none for
        an unknown type. A field the tier needs that the record lacks is passed as null;
        the model takes the query to find no violation row then, so the check allows. */
    function CheckByType(recordType: string, data: map<string, string>, windowSeconds: int, now: int,
                         reachable: bool): (r: Option<bool>)
      reads crud
      ensures r.Some? <==> ScopeOfName(recordType).Some?
      ensures recordType == "ip" ==>
                r == Some("ip" !in data || crud.CheckIpLimit(data["ip"], windowSeconds, now, reachable))
      ensures recordType == "user" ==>
                r == Some("user_id" !in data || "path" !in data ||
                          crud.CheckUserLimit(data["user_id"], data["path"], windowSeconds, now, reachable))
      ensures recordType == "endpoint" ==>
                r == Some("path" !in data || "ip" !in data ||
                          crud.CheckEndpointLimit(data["path"], data["ip"], windowSeconds, now, reachable))
      ensures !reachable && r.Some? ==> r == Some(true)
    {
      match ScopeOfName(recordType)
      case Some(IpScope) =>
        Some("ip" !in data || crud.CheckIpLimit(data["ip"], windowSeconds, now, reachable))
      case Some(UserScope) =>
        Some("user_id" !in data || "path" !in data ||
             crud.CheckUserLimit(data["user_id"], data["path"], windowSeconds, now, reachable))
      case Some(EndpointScope) =>
        Some("path" !in data || "ip" !in data ||
             crud.CheckEndpointLimit(data["path"], data["ip"], windowSeconds, now, reachable))
      case None => None
    }

    /** `check_limit`: consults the cached decision for `key`; on a miss asks the store (when
        the call carries a record) and caches its answer, an allow for `DecisionTtl` seconds
        and a deny until the end of the window. A cached allow is refreshed; a cached deny
        is left alone. A request the cache and the store cannot decide is allowed. The
        counter update is returned as a background task when the call carries a record. */
    method CheckLimit(key: string, maxRequests: int, windowSeconds: int, recordType: Option<string>,
                      recordData: map<string, string>, now: nat, reachable: bool)
      returns (allowed: bool, task: Option<AnalyticsTask>)
      requires Valid()
      modifies this
      ensures Valid()
      ensures task == if Recorded(recordType, recordData)
                      then Some(AnalyticsTask(recordType.value, recordData, maxRequests, windowSeconds)) else None
      ensures var cached := CachedDecision(TextAt(old(redis), CheckKey(key), now), now);
              var answer := if Recorded(recordType, recordData)
                           then CheckByType(recordType.value, recordData, windowSeconds, now, reachable) else None;
              && (!allowed <==> DeniedBy(old(redis), key, answer, now))
              && redis == AfterCheck(old(redis), key, answer, windowSeconds, now)
      ensures SameExcept(old(redis), redis, {CheckKey(key)})
      ensures var cached := CachedDecision(TextAt(old(redis), CheckKey(key), now), now);
              && (!allowed && cached.None? && windowSeconds > 0 ==>
                    forall t :: now <= t < now + windowSeconds ==>
                      CachedDecision(TextAt(redis, CheckKey(key), t), t) == Some(false))
              && (allowed && redis != old(redis) ==>
                    forall t :: now <= t < now + DecisionTtl ==>
                      CachedDecision(TextAt(redis, CheckKey(key), t), t) == Some(true))
    {
      var rkey := CheckKey(key);
      KeyNamespaces(key, "", "");
      var cached := CachedDecision(TextAt(redis, rkey, now), now);
      var recorded := recordType.Some? && recordType.value != "" && |recordData| > 0;
      task := if recorded then Some(AnalyticsTask(recordType.value, recordData, maxRequests, windowSeconds)) else None;
      if cached == Some(true) {
        redis := SetEx(redis, rkey, Text(AllowMark), DecisionTtl, now);
        allowed := true;
      } else if cached.None? {
        allowed := true;
        if recorded {
          var answer := CheckByType(recordType.value, recordData, windowSeconds, now, reachable);
          if answer == Some(true) {
            redis := SetEx(redis, rkey, Text(AllowMark), DecisionTtl, now);
          } else if answer == Some(false) {
            allowed := false;
            if windowSeconds > 0 {
              var until: nat := now + windowSeconds;
              redis := SetEx(redis, rkey, Text(DenyValue(until)), windowSeconds, now);
              forall t | now <= t < now + windowSeconds
                ensures CachedDecision(TextAt(redis, rkey, t), t) == Some(false)
              {
                DenyValueRoundTrip(until, t);
              }
            }
          }
        }
      } else {
        allowed := false;
      }
    }

    /** `_record_analytics`: runs the counter update of the task's tier against the store;
        `inserted` says whether a violation insert goes through. */
    method RecordAnalytics(task: AnalyticsTask, now: int, count: Fetch<Option<nat>>, inserted: bool)
      modifies crud
      ensures crud.overrides == old(crud.overrides) && crud.configs == old(crud.configs)
      ensures crud.userLimits == old(crud.userLimits)
      ensures var v := TaskViolation(task, now, count, inserted);
              crud.violations == old(crud.violations) + (if v.Some? then [v.value] else [])
      ensures TaskViolation(task, now, count, inserted).Some? ==>
                forall t, w :: t - w <= now ==>
                  CheckByType(task.recordType, task.recordData, w, t, true) == Some(false)
    {
      var d := task.recordData;
      match ScopeOfName(task.recordType)
      case Some(IpScope) =>
        if "ip" in d {
          crud.UpdateIpRequestCount(d["ip"], task.maxRequests, task.windowSeconds, now, count, inserted);
        }
      case Some(UserScope) =>
        if "user_id" in d && "path" in d {
          crud.UpdateUserRequestCount(d["user_id"], d["path"], task.maxRequests, task.windowSeconds, now,
                                      count, inserted);
        }
      case Some(EndpointScope) =>
        if "path" in d && "ip" in d {
          crud.UpdateEndpointRequestCount(d["path"], d["ip"], task.maxRequests, task.windowSeconds, now,
                                          count, inserted);
        }
      case None =>
    }

    /** `get_cached_config`: the cached document for the path, or the store's best match,
        which is then cached for `ConfigTtl` seconds; nothing is cached when the store has
        no match. */
    method GetCachedConfig(endpoint: string, now: int, cursor: Fetch<seq<RateLimitConfig>>)
      returns (config: Option<ConfigDoc>)
      requires Valid()
      requires cursor.Rows? ==> ActiveListing(crud.configs, cursor.rows)
      modifies this
      ensures Valid()
      ensures Resolves(old(redis), crud.configs, endpoint, now, cursor.StoreError?, config)
      ensures SameExcept(old(redis), redis, {ConfigKey(endpoint)})
      ensures redis == if Cached(old(redis), endpoint, now) || config.None? then old(redis)
                       else old(redis)[ConfigKey(endpoint) := Entry(ConfigJson(config.value), Some(now + ConfigTtl))]
    {
      var key := ConfigKey(endpoint);
      if key in redis && Live(redis[key], now) && redis[key].value.ConfigJson? {
        return Some(redis[key].value.doc);
      }
      var fetched := crud.GetRateLimitConfig(endpoint, cursor);
      if fetched.None? {
        return None;
      }
      config := Some(DocOf(fetched.value));
      KeyNamespaces("", "", endpoint);
      redis := redis[key := Entry(ConfigJson(config.value), Some(now + ConfigTtl))];
    }

    /** The address's cached blacklist reason, from either cache key; an empty cached
        value counts as absent. */
    function CachedBlacklist(ip: string, now: int): (r: Option<string>)
      reads this
      ensures r.Some? ==> (r.value != "" &&
                (TextAt(redis, BlacklistKey(ip), now) == r || TextAt(redis, ViolationKey(ip), now) == r))
      ensures r.None? ==> !Truthy(TextAt(redis, BlacklistKey(ip), now)) && !Truthy(TextAt(redis, ViolationKey(ip), now))
    {
      var b := TextAt(redis, BlacklistKey(ip), now);
      if Truthy(b) then b
      else
        var v := TextAt(redis, ViolationKey(ip), now);
        if Truthy(v) then v else None
    }

    /** `is_ip_blacklisted`: the cached reason if there is one; otherwise the store's answer
        (`db`, absent when no lookup is given), and a blacklisted answer is cached for a
        day with its reason, or a default one when the store has none. */
    method IsIpBlacklisted(ip: string, now: int, db: Option<(bool, Option<string>)>)
      returns (blacklisted: bool, reason: Option<string>)
      requires Valid()
      modifies this
      ensures Valid()
      ensures old(CachedBlacklist(ip, now)).Some? ==>
                blacklisted && reason == old(CachedBlacklist(ip, now)) && redis == old(redis)
      ensures old(CachedBlacklist(ip, now)).None? && db.None? ==>
                !blacklisted && reason.None? && redis == old(redis)
      ensures old(CachedBlacklist(ip, now)).None? && db.Some? ==>
                && (blacklisted, reason) == db.value
                && redis == (if blacklisted
                             then SetEx(old(redis), ViolationKey(ip),
                                        Text(if Truthy(reason) then reason.value else DefaultBlacklistReason),
                                        IpBlacklistTtl, now)
                             else old(redis))
      ensures SameExcept(old(redis), redis, {ViolationKey(ip)})
      ensures old(CachedBlacklist(ip, now)).None? && blacklisted ==>
                forall t :: now <= t < now + IpBlacklistTtl ==> CachedBlacklist(ip, t).Some?
    {
      var cached := CachedBlacklist(ip, now);
      if cached.Some? {
        return true, cached;
      }
      if db.None? {
        return false, None;
      }
      blacklisted, reason := db.value.0, db.value.1;
      if blacklisted {
        var ok := BlacklistIp(ip, if Truthy(reason) then reason.value else DefaultBlacklistReason,
                              Some(IpBlacklistTtl), now);
      }
    }

    /** `blacklist_ip`: caches the reason under the address's violation key for the given
        number of seconds, a day when none (or zero) is given. A negative duration is refused
        and nothing is written. */
    method BlacklistIp(ip: string, reason: string, durationSeconds: Option<int>, now: int) returns (ok: bool)
      requires Valid()
      modifies this
      ensures Valid()
      ensures ok <==> BlacklistExpiration(durationSeconds) > 0
      ensures ok ==> redis == SetEx(old(redis), ViolationKey(ip), Text(reason), BlacklistExpiration(durationSeconds) as nat, now)
      ensures !ok ==> redis == old(redis)
      ensures ok && reason != "" ==>
                forall t :: now <= t < now + BlacklistExpiration(durationSeconds) ==> CachedBlacklist(ip, t).Some?
    {
      var expiration := BlacklistExpiration(durationSeconds);
      if expiration <= 0 {
        return false;
      }
      KeyNamespaces("", ip, "");
      redis := SetEx(redis, ViolationKey(ip), Text(reason), expiration as nat, now);
      ok := true;
    }
  }

  /** `duration_seconds or IP_BLACKLIST_TTL`. */
  function BlacklistExpiration(durationSeconds: Option<int>): (e: int)
    ensures durationSeconds.None? || durationSeconds == Some(0) ==> e == IpBlacklistTtl
    ensures durationSeconds.Some? && durationSeconds.value != 0 ==> e == durationSeconds.value
  {
    if durationSeconds.Some? && durationSeconds.value != 0 then durationSeconds.value else IpBlacklistTtl
  }
}
