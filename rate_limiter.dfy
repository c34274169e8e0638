/** The rate-limiting middleware (`RateLimitingMiddleware`): the admission pipeline each
    request passes before it reaches a route, and the response a denial turns into. */
module RateLimiter {
  import opened Wrappers
  import opened Text
  import opened Models
  import opened RateLimitStore
  import opened RateLimitService
  import opened ActivityStore

  const IpMaxRequests: int := 100
  const IpWindowSeconds: int := 60
  const UserMaxRequests: int := 300
  const UserWindowSeconds: int := 60
  /** Endpoint limits used when the configuration document lacks them. */
  const EndpointDefaultMaxRequests: int := 100
  const EndpointDefaultWindowSeconds: int := 60
  /** Persistent block lengths, in minutes, scheduled by the window tiers. */
  const IpBlockMinutes: int := 15
  const UserBlockMinutes: int := 10
  /** Reasons stored with the persistent blocks the window tiers schedule. */
  const IpBlockReason: string := "IP-based rate limit exceeded"
  const UserBlockReason: string := "User rate limit exceeded for "
  /** Messages of the window denials; the endpoint one is followed by the path. */
  const IpDenyDetail: string := "Too many requests from this IP address"
  const UserDenyDetail: string := "Too many requests - please slow down"
  const EndpointDenyDetail: string := "Rate limit exceeded for "
  /** Messages of the gate denials when no reason is known. */
  const PersistentDenyDetail: string := "Rate limited"
  const BlacklistDenyDetail: string := "Access denied"

  /** The checks of the pipeline; a denial is named after the check that made it. */
  datatype Stage = PersistentStage | BlacklistStage | IpStage | UserStage | EndpointStage {
    /** The `rate_limit_type` of a denial at this check. */
    function Name(): string {
      match this
      case PersistentStage => "user_persistent"
      case BlacklistStage => "ip_blacklist"
      case IpStage => "ip"
      case UserStage => "user"
      case EndpointStage => "endpoint"
    }

    predicate IsWindow() {
      this == IpStage || this == UserStage || this == EndpointStage
    }
  }

  /** The window checks a request meets, in order, when none of them denies: the IP
      window, the user window only with a user, the endpoint window only when a
      configuration covers the path. */
  function WindowPlan(hasUser: bool, hasConfig: bool): (p: seq<Stage>)
    ensures p != [] && p[0] == IpStage
    ensures forall i :: 0 <= i < |p| ==> p[i].IsWindow()
    ensures UserStage in p <==> hasUser
    ensures EndpointStage in p <==> hasConfig
  {
    if hasUser && hasConfig then [IpStage, UserStage, EndpointStage]
    else if hasUser then [IpStage, UserStage]
    else if hasConfig then [IpStage, EndpointStage]
    else [IpStage]
  }

  /** The windows after the IP window, in order: the user window only with a user, the
      endpoint window only when a configuration covers the path. */
  function LaterPlan(hasUser: bool, hasConfig: bool): (p: seq<Stage>)
    ensures WindowPlan(hasUser, hasConfig) == [IpStage] + p
    ensures IpStage !in p
  {
    (if hasUser then [UserStage] else []) + (if hasConfig then [EndpointStage] else [])
  }

  /** The gate checks a request meets, in order, before any window: the persistent block
      only with a user, then the blacklist. */
  function Gates(hasUser: bool): (p: seq<Stage>)
    ensures p != [] && p[|p| - 1] == BlacklistStage
    ensures forall i :: 0 <= i < |p| ==> !p[i].IsWindow()
    ensures PersistentStage in p <==> hasUser
  {
    if hasUser then [PersistentStage, BlacklistStage] else [BlacklistStage]
  }

  /** All the checks a request meets, in order, when none of them denies. */
  function Plan(hasUser: bool, hasConfig: bool): (p: seq<Stage>)
    ensures BlacklistStage in p && IpStage in p
    ensures PersistentStage in p <==> hasUser
    ensures UserStage in p <==> hasUser
    ensures EndpointStage in p <==> hasConfig
  {
    var g, w := Gates(hasUser), WindowPlan(hasUser, hasConfig);
    assert forall s :: s in g + w <==> s in g || s in w;
    g + w
  }

  /** The pipeline's verdict: admitted, or denied by a check with a message. */
  datatype Decision = Admit | Deny(stage: Stage, detail: string)

  /** `ran` is what running `plan` up to `decision` goes through: a prefix of the plan, all of
      it when admitted, ending at the denying check otherwise. */
  predicate Follows(ran: seq<Stage>, plan: seq<Stage>, decision: Decision) {
    && |ran| <= |plan| && ran == plan[..|ran|]
    && (decision.Admit? ==> ran == plan)
    && (decision.Deny? ==> ran != [] && ran[|ran| - 1] == decision.stage)
  }

  /** Passing every gate and then running the windows follows the whole plan. */
  lemma FollowsThrough(gates: seq<Stage>, windows: seq<Stage>, plan: seq<Stage>, decision: Decision)
    requires Follows(windows, plan, decision)
    ensures Follows(gates + windows, gates + plan, decision)
  {
    assert (gates + plan)[..|gates| + |windows|] == gates + plan[..|windows|];
  }

  /** A denial at a gate follows any plan that starts with the gates. */
  lemma FollowsStops(ran: seq<Stage>, gates: seq<Stage>, windows: seq<Stage>, decision: Decision)
    requires decision.Deny? && Follows(ran, gates, decision)
    ensures Follows(ran, gates + windows, decision)
  {
    assert (gates + windows)[..|ran|] == gates[..|ran|];
  }

  /** Running a whole plan follows it, whether admitted or denied at its last check. */
  lemma FollowsAll(plan: seq<Stage>, decision: Decision)
    requires decision.Deny? ==> plan != [] && plan[|plan| - 1] == decision.stage
    ensures Follows(plan, plan, decision)
  {
    assert plan[..|plan|] == plan;
  }

  /** The window check a stage makes: its decision-cache key, the counter update it hands
      to the background (record type, record data and the tier's limits), and the message
      of its denial. The endpoint window takes its limits from the configuration document,
      100 requests per 60 seconds where the document lacks them. */
  datatype WindowCheck = WindowCheck(key: string, task: AnalyticsTask, detail: string)

  function WindowFor(stage: Stage, userId: string, path: string, ip: string, config: Option<ConfigDoc>)
    : (w: WindowCheck)
    requires stage.IsWindow()
    ensures w.task.recordType == stage.Name() && |w.task.recordData| > 0
  {
    match stage
    case IpStage =>
      WindowCheck(IpKey(ip), AnalyticsTask("ip", map["ip" := ip], IpMaxRequests, IpWindowSeconds), IpDenyDetail)
    case UserStage =>
      WindowCheck(UserKey(userId, path),
                  AnalyticsTask("user", map["user_id" := userId, "path" := path], UserMaxRequests, UserWindowSeconds),
                  UserDenyDetail)
    case EndpointStage =>
      var maxRequests := if config.Some? then config.value.maxRequests.GetOr(EndpointDefaultMaxRequests)
                         else EndpointDefaultMaxRequests;
      var windowSeconds := if config.Some? then config.value.windowSeconds.GetOr(EndpointDefaultWindowSeconds)
                           else EndpointDefaultWindowSeconds;
      WindowCheck(EndpointKey(path, ip),
                  AnalyticsTask("endpoint", map["ip" := ip, "path" := path], maxRequests, windowSeconds),
                  EndpointDenyDetail + path)
  }

  /** The three windows of one request keep their decisions under three different cache
      keys, none of them a configuration or blacklist key. */
  lemma WindowKeysDistinct(s1: Stage, s2: Stage, userId: string, path: string, ip: string,
                           config: Option<ConfigDoc>, endpoint: string, ip2: string)
    requires s1.IsWindow() && s2.IsWindow()
    ensures s1 != s2 ==> CheckKey(WindowFor(s1, userId, path, ip, config).key) !=
                         CheckKey(WindowFor(s2, userId, path, ip, config).key)
    ensures CheckKey(WindowFor(s1, userId, path, ip, config).key) != ConfigKey(endpoint)
    ensures CheckKey(WindowFor(s1, userId, path, ip, config).key) != ViolationKey(ip2)
  {
    var k1, k2 := WindowFor(s1, userId, path, ip, config).key, WindowFor(s2, userId, path, ip, config).key;
    TierKeysDistinct(ip, ip, userId, path, path);
    CheckKeysDistinct(k1, k2, ip2, endpoint);
  }

  /** The counter updates of the windows in `ran`, in order; gates hand none. */
  function TasksOf(ran: seq<Stage>, userId: string, path: string, ip: string, config: Option<ConfigDoc>)
    : (ts: seq<AnalyticsTask>)
    ensures |ts| <= |ran|
    ensures (forall i :: 0 <= i < |ran| ==> !ran[i].IsWindow()) ==> ts == []
  {
    if ran == [] then []
    else (if ran[0].IsWindow() then [WindowFor(ran[0], userId, path, ip, config).task] else [])
         + TasksOf(ran[1..], userId, path, ip, config)
  }

  /** A persistent block the pipeline schedules in the background. */
  datatype BlockIntent = BlockIntent(userId: string, reason: string, durationMinutes: int)

  /** The persistent blocks a denial schedules: the client's address after an IP window
      denial, the user after a user window denial, nothing otherwise. */
  function ScheduledBlocks(decision: Decision, userId: string, path: string, ip: string): (bs: seq<BlockIntent>)
    ensures |bs| <= 1
    ensures bs != [] <==> decision.Deny? && (decision.stage == IpStage || decision.stage == UserStage)
  {
    if decision.Deny? && decision.stage == IpStage then [BlockIntent(IpKey(ip), IpBlockReason, IpBlockMinutes)]
    else if decision.Deny? && decision.stage == UserStage
    then [BlockIntent(userId, UserBlockReason + path, UserBlockMinutes)]
    else []
  }

  /** The user the pipeline acts for: the subject of a bearer token the decoder accepts. */
  function RequestUser(authHeader: Option<string>, path: string, decode: string -> Decoded): (user: Option<string>)
    ensures user.Some? ==> BearerToken(authHeader, path).Some? && decode(BearerToken(authHeader, path).value).Accepted?
  {
    var token := BearerToken(authHeader, path);
    if token.None? then None
    else match decode(token.value)
      case Rejected => None
      case Accepted(sub) => sub
  }

  /** A request on the login-claim path acts for nobody, whatever its header says. */
  lemma LoginClaimIsAnonymous(authHeader: Option<string>, decode: string -> Decoded)
    ensures RequestUser(authHeader, LoginClaimPath, decode).None?
  {
  }

  /** A persistent block is in force for the user at `now`. */
  predicate PersistentBlockActive(limits: map<string, UserRateLimit>, userId: string, now: int) {
    userId in limits && BlockedAt(limits[userId], now)
  }

  /** The message of a persistent-block denial: the block's reason, or `"Rate limited"`. */
  function PersistentDetail(r: UserRateLimit): (d: string)
    ensures d != ""
    ensures Truthy(r.reason) ==> d == r.reason.value
  {
    if Truthy(r.reason) then r.reason.value else PersistentDenyDetail
  }

  /** The message of a blacklist denial: the cached reason, else the stored one when it is
      non-empty, else `"Access denied"`. */
  function BlacklistDetail(cached: Option<string>, stored: Option<string>): (d: string)
    ensures Truthy(cached) ==> d == cached.value
    ensures !Truthy(cached) && !Truthy(stored) ==> d == BlacklistDenyDetail
  {
    if Truthy(cached) then cached.value else if Truthy(stored) then stored.value else BlacklistDenyDetail
  }

  /** The keys a request's pass through the windows may write: the three decision keys and
      the configuration key of the path. */
  function WindowKeys(userId: string, path: string, ip: string): set<string> {
    {CheckKey(IpKey(ip)), CheckKey(UserKey(userId, path)), ConfigKey(path), CheckKey(EndpointKey(path, ip))}
  }

  /** Agreement outside a set of keys composes. */
  lemma SameExceptTrans(r1: map<string, Entry>, r2: map<string, Entry>, r3: map<string, Entry>,
                        a: set<string>, b: set<string>)
    requires SameExcept(r1, r2, a) && SameExcept(r2, r3, b)
    ensures SameExcept(r1, r3, a + b)
  {
  }

  /** The response a denial becomes. */
  datatype Response = Response(status: int, rateLimitType: string, retryAfter: string, detail: string)

  const TooManyRequests: int := 429

  /** `_handle_exception` for a rate-limit denial: status 429 (section 4 of RFC 6585) with
      the denial type, and a `Retry-After` in delay-seconds (section 10.2.3 of RFC 9110): a
      day for a blacklisted address, ten minutes for a persistent user block, a minute
      otherwise. */
  function HandleRateLimit(rateLimitType: string, detail: string): (r: Response)
    ensures r.status == TooManyRequests && r.rateLimitType == rateLimitType && r.detail == detail
    ensures r.retryAfter != [] && AllDigits(r.retryAfter)
    ensures ParseNat(r.retryAfter) ==
              Some(if rateLimitType == "ip_blacklist" then 86400
                   else if rateLimitType == "user_persistent" then 600
                   else 60)
  {
    var seconds: nat := if rateLimitType == "ip_blacklist" then 24 * 60 * 60
                        else if rateLimitType == "user_persistent" then 10 * 60
                        else 60;
    ParseNatToString(seconds);
    Response(TooManyRequests, rateLimitType, NatToString(seconds), detail)
  }

  /** Paths the middleware never limits: the given ones followed by the API docs and the
      OpenAPI schema. */
  const RateLimitExcluded: seq<string> := [ApiV1 + "/docs", ApiV1 + "/openapi.json"]

  function ExcludedPaths(given: seq<string>): (r: seq<string>)
    ensures |r| == |given| + 2 && r[..|given|] == given && r[|given|..] == RateLimitExcluded
    ensures forall p :: p in r <==> p in given || p in RateLimitExcluded
  {
    given + RateLimitExcluded
  }

  class RateLimitingMiddleware {
    const crud: CrudRateLimit
    const service: RateLimitService
    const activity: CrudActivity
    const excludedPaths: seq<string>

    ghost predicate Valid()
      reads this, crud, service, activity
    {
      service.crud == crud && crud.Valid() && service.Valid() && activity.Valid()
    }

    constructor(crud: CrudRateLimit, service: RateLimitService, activity: CrudActivity, given: seq<string>)
      requires service.crud == crud
      ensures this.crud == crud && this.service == service && this.activity == activity
      ensures excludedPaths == ExcludedPaths(given)
    {
      this.crud := crud;
      this.service := service;
      this.activity := activity;
      excludedPaths := ExcludedPaths(given);
    }

    /** The window check `w` denies over the keyspace `redis`: `check_limit`'s verdict for its
        key, with the store's quick check for its record. */
    predicate Denies(redis: map<string, Entry>, w: WindowCheck, now: int, reachable: bool)
      reads service.crud
    {
      DeniedBy(redis, w.key, service.CheckByType(w.task.recordType, w.task.recordData, w.task.windowSeconds,
                                                 now, reachable), now)
    }

    /** The window `s` decides as its check does over the keyspace `redis`: it denies
        exactly when it is the stage of the denial. */
    ghost predicate Agrees(redis: map<string, Entry>, s: Stage, decision: Decision, userId: string, path: string,
                           ip: string, config: Option<ConfigDoc>, now: int, reachable: bool)
      requires s.IsWindow()
      reads service.crud
    {
      Denies(redis, WindowFor(s, userId, path, ip, config), now, reachable) <==> decision.Deny? && decision.stage == s
    }

    /** Every window in `ran` decides as its check does over the keyspace `redis`, and a
        window's denial carries its tier's message. */
    ghost predicate WindowsAgree(redis: map<string, Entry>, ran: seq<Stage>, decision: Decision, userId: string,
                                 path: string, ip: string, config: Option<ConfigDoc>, now: int, reachable: bool)
      reads service.crud
    {
      && (forall s :: s in ran && s.IsWindow() ==> Agrees(redis, s, decision, userId, path, ip, config, now, reachable))
      && (decision.Deny? && decision.stage.IsWindow() ==>
            decision.detail == WindowFor(decision.stage, userId, path, ip, config).detail)
    }

    /** Writes to keys none of the windows in `ran` reads leave their verdicts as they were. */
    lemma AgreeElsewhere(r1: map<string, Entry>, r2: map<string, Entry>, ks: set<string>, ran: seq<Stage>,
                         decision: Decision, userId: string, path: string, ip: string, config: Option<ConfigDoc>,
                         now: int, reachable: bool)
      requires SameExcept(r1, r2, ks)
      requires forall s :: s in ran && s.IsWindow() ==> CheckKey(WindowFor(s, userId, path, ip, config).key) !in ks
      ensures WindowsAgree(r1, ran, decision, userId, path, ip, config, now, reachable) ==
              WindowsAgree(r2, ran, decision, userId, path, ip, config, now, reachable)
    {
      forall s | s in ran && s.IsWindow()
        ensures Agrees(r1, s, decision, userId, path, ip, config, now, reachable) ==
                Agrees(r2, s, decision, userId, path, ip, config, now, reachable)
      {
        var w := WindowFor(s, userId, path, ip, config);
        DeniedByElsewhere(r1, r2, ks, w.key,
                          service.CheckByType(w.task.recordType, w.task.recordData, w.task.windowSeconds, now, reachable),
                          now);
      }
    }

    /** The verdicts of two runs over the same keyspace make the verdicts of the joined run. */
    lemma AgreeConcat(redis: map<string, Entry>, a: seq<Stage>, b: seq<Stage>, decision: Decision, userId: string,
                      path: string, ip: string, config: Option<ConfigDoc>, now: int, reachable: bool)
      requires WindowsAgree(redis, a, decision, userId, path, ip, config, now, reachable)
      requires WindowsAgree(redis, b, decision, userId, path, ip, config, now, reachable)
      ensures WindowsAgree(redis, a + b, decision, userId, path, ip, config, now, reachable)
    {
      forall s | s in a + b && s.IsWindow()
        ensures Agrees(redis, s, decision, userId, path, ip, config, now, reachable)
      {
        assert s in a || s in b;
      }
    }

    /** Gates in front of the windows change no window's verdict. */
    lemma AgreeThroughGates(redis: map<string, Entry>, gates: seq<Stage>, windows: seq<Stage>, decision: Decision,
                            userId: string, path: string, ip: string, config: Option<ConfigDoc>, now: int,
                            reachable: bool)
      requires forall i :: 0 <= i < |gates| ==> !gates[i].IsWindow()
      requires WindowsAgree(redis, windows, decision, userId, path, ip, config, now, reachable)
      ensures WindowsAgree(redis, gates + windows, decision, userId, path, ip, config, now, reachable)
    {
      forall s | s in gates + windows && s.IsWindow()
        ensures s in windows
      {
      }
    }

    /** `_pre_process`: runs the checks of `Plan` in order and stops at the first denial.
        `ran` lists the checks run; `tasks` the counter updates of the windows run; `blocks`
        the persistent block a denying IP or user window schedules; `config` the endpoint
        configuration found, when the endpoint window was reached. The path has already
        been normalised; the client address is given. `mongoUp` false stands for a failed
        read of the persistent blocks, which then deny nobody. */
    method PreProcess(path: string, normalizedPath: string, clientIp: string, authHeader: Option<string>,
                      decode: string -> Decoded, now: nat, reachable: bool, mongoUp: bool,
                      cursor: Fetch<seq<RateLimitConfig>>)
      returns (decision: Decision, ran: seq<Stage>, blocks: seq<BlockIntent>, tasks: seq<AnalyticsTask>,
               config: Option<ConfigDoc>)
      requires Valid()
      requires cursor.Rows? ==> ActiveListing(crud.configs, cursor.rows)
      modifies crud, service
      ensures Valid()
      ensures crud.configs == old(crud.configs) && crud.overrides == old(crud.overrides)
      ensures crud.violations == old(crud.violations) && crud.userLimits.Keys == old(crud.userLimits).Keys
      ensures forall u, t :: t >= now ==>
                (PersistentBlockActive(crud.userLimits, u, t) <==> PersistentBlockActive(old(crud.userLimits), u, t))
      ensures var user := RequestUser(authHeader, path, decode);
              && Follows(ran, Plan(Truthy(user), config.Some?), decision)
              && ((decision.Deny? && decision.stage == PersistentStage) <==>
                    Truthy(user) && mongoUp && PersistentBlockActive(old(crud.userLimits), user.value, now))
              && (decision.Deny? && decision.stage == PersistentStage ==>
                    decision.detail == PersistentDetail(old(crud.userLimits)[user.value]))
      ensures BlacklistStage in ran ==>
                ((decision.Deny? && decision.stage == BlacklistStage) <==>
                   old(service.CachedBlacklist(clientIp, now)).Some? || clientIp in activity.blacklist)
      ensures decision.Deny? && decision.stage == BlacklistStage ==>
                decision.detail == BlacklistDetail(old(service.CachedBlacklist(clientIp, now)),
                                                   activity.CheckIpBlacklisted(clientIp).1)
      ensures var uid := RequestUser(authHeader, path, decode).GetOr("");
              && WindowsAgree(old(service.redis), ran, decision, uid, normalizedPath, clientIp, config, now, reachable)
              && tasks == TasksOf(ran, uid, normalizedPath, clientIp, config)
              && (EndpointStage in ran || decision.Admit? ==>
                    Resolves(old(service.redis), crud.configs, normalizedPath, now, cursor.StoreError?, config))
              && SameExcept(old(service.redis), service.redis,
                            WindowKeys(uid, normalizedPath, clientIp) + {ViolationKey(clientIp)})
      ensures blocks == ScheduledBlocks(decision, RequestUser(authHeader, path, decode).GetOr(""), normalizedPath,
                                        clientIp)
    {
      ran, config := [], None;
      var user := RequestUser(authHeader, path, decode);
      var userId := if Truthy(user) then Some(user.value) else None;
      var uid := user.GetOr("");
      ghost var r0 := service.redis;
      var denial;
      denial, ran := RunGates(userId, clientIp, now, mongoUp);
      if denial.Some? {
        decision := denial.value;
        FollowsStops(ran, Gates(userId.Some?), WindowPlan(userId.Some?, false), decision);
      } else {
        ghost var r1 := service.redis;
        var windows;
        decision, windows, config := RunWindows(userId, normalizedPath, clientIp, now, reachable, cursor);
        GatesAndWindows(r0, r1, service.redis, ran, windows, userId.Some?, decision, uid, normalizedPath, clientIp,
                        config, now, reachable, crud.configs, cursor.StoreError?);
        ran := ran + windows;
      }
      tasks := TasksOf(ran, uid, normalizedPath, clientIp, config);
      blocks := ScheduledBlocks(decision, uid, normalizedPath, clientIp);
    }

    /** The window verdicts, the configuration found and the keys written after the
        blacklist check, which writes only the address's blacklist cache, are those over the
        keyspace before the gates; the gates and the windows together follow the plan. */
    lemma GatesAndWindows(r0: map<string, Entry>, r1: map<string, Entry>, r2: map<string, Entry>, gates: seq<Stage>,
                          windows: seq<Stage>, hasUser: bool, decision: Decision, uid: string, path: string,
                          ip: string, config: Option<ConfigDoc>, now: int, reachable: bool,
                          configs: seq<RateLimitConfig>, failed: bool)
      requires SameExcept(r0, r1, {ViolationKey(ip)})
      requires gates == Gates(hasUser)
      requires Follows(windows, WindowPlan(hasUser, config.Some?), decision)
      requires WindowsAgree(r1, windows, decision, uid, path, ip, config, now, reachable)
      requires decision.Admit? || decision.stage == EndpointStage ==> Resolves(r1, configs, path, now, failed, config)
      requires SameExcept(r1, r2, WindowKeys(uid, path, ip))
      ensures Follows(gates + windows, Plan(hasUser, config.Some?), decision)
      ensures WindowsAgree(r0, gates + windows, decision, uid, path, ip, config, now, reachable)
      ensures decision.Admit? || decision.stage == EndpointStage ==> Resolves(r0, configs, path, now, failed, config)
      ensures SameExcept(r0, r2, WindowKeys(uid, path, ip) + {ViolationKey(ip)})
    {
      forall s: Stage | s.IsWindow()
        ensures CheckKey(WindowFor(s, uid, path, ip, config).key) !in {ViolationKey(ip)}
      {
        WindowKeysDistinct(s, s, uid, path, ip, config, path, ip);
      }
      AgreeElsewhere(r0, r1, {ViolationKey(ip)}, windows, decision, uid, path, ip, config, now, reachable);
      AgreeThroughGates(r0, gates, windows, decision, uid, path, ip, config, now, reachable);
      KeyNamespaces("", ip, path);
      ResolvesElsewhere(r0, r1, {ViolationKey(ip)}, configs, path, now, failed, config);
      SameExceptTrans(r0, r1, r2, {ViolationKey(ip)}, WindowKeys(uid, path, ip));
      assert WindowKeys(uid, path, ip) + {ViolationKey(ip)} == {ViolationKey(ip)} + WindowKeys(uid, path, ip);
      FollowsThrough(gates, windows, WindowPlan(hasUser, config.Some?), decision);
    }

    /** The persistent-block and blacklist checks of `_pre_process`; `ran` lists the
        checks run and `denial` the first denial, if any. */
    method RunGates(userId: Option<string>, clientIp: string, now: int, mongoUp: bool)
      returns (denial: Option<Decision>, ran: seq<Stage>)
      requires Valid()
      modifies crud, service
      ensures Valid()
      ensures crud.configs == old(crud.configs) && crud.overrides == old(crud.overrides)
      ensures crud.violations == old(crud.violations) && crud.userLimits.Keys == old(crud.userLimits).Keys
      ensures forall u, t :: t >= now ==>
                (PersistentBlockActive(crud.userLimits, u, t) <==> PersistentBlockActive(old(crud.userLimits), u, t))
      ensures denial.None? ==> ran == Gates(userId.Some?)
      ensures denial.Some? ==> denial.value.Deny? && Follows(ran, Gates(userId.Some?), denial.value)
      ensures forall i :: 0 <= i < |ran| ==> !ran[i].IsWindow()
      ensures (denial.Some? && denial.value.stage == PersistentStage) <==>
                userId.Some? && mongoUp && PersistentBlockActive(old(crud.userLimits), userId.value, now)
      ensures denial.Some? && denial.value.stage == PersistentStage ==>
                denial.value.detail == PersistentDetail(old(crud.userLimits)[userId.value])
      ensures BlacklistStage in ran ==>
                ((denial.Some? && denial.value.stage == BlacklistStage) <==>
                   old(service.CachedBlacklist(clientIp, now)).Some? || clientIp in activity.blacklist)
      ensures denial.Some? && denial.value.stage == BlacklistStage ==>
                denial.value.detail == BlacklistDetail(old(service.CachedBlacklist(clientIp, now)),
                                                       activity.CheckIpBlacklisted(clientIp).1)
      ensures SameExcept(old(service.redis), service.redis, {ViolationKey(clientIp)})
    {
      ran := [];
      if userId.Some? {
        ran := [PersistentStage];
        var limited, detail := CheckPersistentBlock(userId.value, now, mongoUp);
        if limited {
          return Some(Deny(PersistentStage, detail)), ran;
        }
      }
      ran := ran + [BlacklistStage];
      var listed, detail := CheckBlacklist(clientIp, now);
      denial := if listed then Some(Deny(BlacklistStage, detail)) else None;
    }

    /** The window checks of `_pre_process`, from the IP window on; `ran` lists the windows
        checked. */
    method RunWindows(userId: Option<string>, normalizedPath: string, clientIp: string, now: nat,
                      reachable: bool, cursor: Fetch<seq<RateLimitConfig>>)
      returns (decision: Decision, ran: seq<Stage>, config: Option<ConfigDoc>)
      requires Valid()
      requires cursor.Rows? ==> ActiveListing(crud.configs, cursor.rows)
      modifies service
      ensures Valid()
      ensures Follows(ran, WindowPlan(userId.Some?, config.Some?), decision)
      ensures decision.Deny? ==> decision.stage.IsWindow()
      ensures decision.Deny? && decision.stage != EndpointStage ==> config.None?
      ensures decision.Admit? || decision.stage == EndpointStage ==>
                Resolves(old(service.redis), crud.configs, normalizedPath, now, cursor.StoreError?, config)
      ensures WindowsAgree(old(service.redis), ran, decision, userId.GetOr(""), normalizedPath, clientIp, config,
                           now, reachable)
      ensures SameExcept(old(service.redis), service.redis, WindowKeys(userId.GetOr(""), normalizedPath, clientIp))
    {
      var uid := userId.GetOr("");
      ghost var r0 := service.redis;
      var ipCheck := WindowFor(IpStage, uid, normalizedPath, clientIp, None);
      var ipAllowed := CheckWindow(ipCheck, now, reachable);
      if !ipAllowed {
        decision, ran, config := Deny(IpStage, IpDenyDetail), [IpStage], None;
        assert Agrees(r0, IpStage, decision, uid, normalizedPath, clientIp, None, now, reachable);
        return;
      }
      ghost var r1 := service.redis;
      var later;
      decision, later, config := RunLaterWindows(userId, normalizedPath, clientIp, now, reachable, cursor);
      IpAndLater(r0, r1, service.redis, later, userId.Some?, decision, uid, normalizedPath, clientIp, config, now,
                 reachable, crud.configs, cursor.StoreError?);
      ran := [IpStage] + later;
    }

    /** An IP window that admits, followed by later windows whose verdicts are taken after it
        wrote its decision: all the verdicts are those over the keyspace before it. */
    lemma IpAndLater(r0: map<string, Entry>, r1: map<string, Entry>, r2: map<string, Entry>, later: seq<Stage>,
                     hasUser: bool, decision: Decision, uid: string, path: string, ip: string,
                     config: Option<ConfigDoc>, now: int, reachable: bool, configs: seq<RateLimitConfig>, failed: bool)
      requires !Denies(r0, WindowFor(IpStage, uid, path, ip, None), now, reachable)
      requires SameExcept(r0, r1, {CheckKey(IpKey(ip))})
      requires Follows(later, LaterPlan(hasUser, config.Some?), decision)
      requires decision.Deny? ==> decision.stage != IpStage
      requires WindowsAgree(r1, later, decision, uid, path, ip, config, now, reachable)
      requires decision.Admit? || decision.stage == EndpointStage ==> Resolves(r1, configs, path, now, failed, config)
      requires SameExcept(r1, r2, {CheckKey(UserKey(uid, path)), ConfigKey(path), CheckKey(EndpointKey(path, ip))})
      ensures Follows([IpStage] + later, WindowPlan(hasUser, config.Some?), decision)
      ensures WindowsAgree(r0, [IpStage] + later, decision, uid, path, ip, config, now, reachable)
      ensures decision.Admit? || decision.stage == EndpointStage ==> Resolves(r0, configs, path, now, failed, config)
      ensures SameExcept(r0, r2, WindowKeys(uid, path, ip))
    {
      assert WindowFor(IpStage, uid, path, ip, config) == WindowFor(IpStage, uid, path, ip, None);
      assert Agrees(r0, IpStage, decision, uid, path, ip, config, now, reachable);
      forall s | s in later && s.IsWindow()
        ensures CheckKey(WindowFor(s, uid, path, ip, config).key) !in {CheckKey(IpKey(ip))}
      {
        assert s in LaterPlan(hasUser, config.Some?);
        WindowKeysDistinct(s, IpStage, uid, path, ip, config, path, ip);
      }
      AgreeElsewhere(r0, r1, {CheckKey(IpKey(ip))}, later, decision, uid, path, ip, config, now, reachable);
      AgreeConcat(r0, [IpStage], later, decision, uid, path, ip, config, now, reachable);
      CheckKeysDistinct(IpKey(ip), IpKey(ip), ip, path);
      ResolvesElsewhere(r0, r1, {CheckKey(IpKey(ip))}, configs, path, now, failed, config);
      SameExceptTrans(r0, r1, r2, {CheckKey(IpKey(ip))},
                      {CheckKey(UserKey(uid, path)), ConfigKey(path), CheckKey(EndpointKey(path, ip))});
      FollowsThrough([IpStage], later, LaterPlan(hasUser, config.Some?), decision);
    }

    /** The user and endpoint windows, once the IP window has admitted the request. */
    method RunLaterWindows(userId: Option<string>, normalizedPath: string, clientIp: string, now: nat,
                           reachable: bool, cursor: Fetch<seq<RateLimitConfig>>)
      returns (decision: Decision, ran: seq<Stage>, config: Option<ConfigDoc>)
      requires Valid()
      requires cursor.Rows? ==> ActiveListing(crud.configs, cursor.rows)
      modifies service
      ensures Valid()
      ensures Follows(ran, LaterPlan(userId.Some?, config.Some?), decision)
      ensures decision.Deny? ==> decision.stage == UserStage || decision.stage == EndpointStage
      ensures decision.Deny? && decision.stage != EndpointStage ==> config.None?
      ensures decision.Admit? || decision.stage == EndpointStage ==>
                Resolves(old(service.redis), crud.configs, normalizedPath, now, cursor.StoreError?, config)
      ensures WindowsAgree(old(service.redis), ran, decision, userId.GetOr(""), normalizedPath, clientIp, config,
                           now, reachable)
      ensures SameExcept(old(service.redis), service.redis,
                         {CheckKey(UserKey(userId.GetOr(""), normalizedPath)), ConfigKey(normalizedPath),
                          CheckKey(EndpointKey(normalizedPath, clientIp))})
    {
      var uid := userId.GetOr("");
      ghost var r1 := service.redis;
      var userDenied, userRan := RunUserWindow(userId, normalizedPath, clientIp, now, reachable);
      if userDenied {
        decision, ran, config := Deny(UserStage, UserDenyDetail), [UserStage], None;
        assert Agrees(r1, UserStage, decision, uid, normalizedPath, clientIp, None, now, reachable);
        FollowsAll(ran, decision);
        return;
      }
      ghost var r2 := service.redis;
      var endpointRan;
      decision, endpointRan, config := RunEndpointWindow(normalizedPath, clientIp, now, reachable, cursor);
      ran := userRan + endpointRan;
      LaterAgree(r1, r2, service.redis, userId, normalizedPath, clientIp, config, decision, userRan, endpointRan, now,
                 reachable, crud.configs, cursor.StoreError?);
    }

    /** The user window admitted and the endpoint window ran after it: the run follows the
        later plan, and its verdicts, the configuration found and what it wrote, taken over
        the keyspaces in between, are those over the keyspace before both. */
    lemma LaterAgree(r1: map<string, Entry>, r2: map<string, Entry>, r3: map<string, Entry>, userId: Option<string>,
                     path: string, ip: string, config: Option<ConfigDoc>, decision: Decision, userRan: seq<Stage>,
                     endpointRan: seq<Stage>, now: int, reachable: bool, configs: seq<RateLimitConfig>, failed: bool)
      requires userRan == (if userId.Some? then [UserStage] else [])
      requires userId.Some? ==> !Denies(r1, WindowFor(UserStage, userId.value, path, ip, None), now, reachable)
      requires endpointRan == (if config.Some? then [EndpointStage] else [])
      requires decision.Deny? <==>
                 config.Some? && Denies(r2, WindowFor(EndpointStage, "", path, ip, config), now, reachable)
      requires decision.Deny? ==> decision == Deny(EndpointStage, WindowFor(EndpointStage, "", path, ip, config).detail)
      requires SameExcept(r1, r2, {CheckKey(UserKey(userId.GetOr(""), path))})
      requires Resolves(r2, configs, path, now, failed, config)
      requires SameExcept(r2, r3, {ConfigKey(path), CheckKey(EndpointKey(path, ip))})
      ensures Follows(userRan + endpointRan, LaterPlan(userId.Some?, config.Some?), decision)
      ensures WindowsAgree(r1, userRan + endpointRan, decision, userId.GetOr(""), path, ip, config, now, reachable)
      ensures Resolves(r1, configs, path, now, failed, config)
      ensures SameExcept(r1, r3, {CheckKey(UserKey(userId.GetOr(""), path)), ConfigKey(path),
                                  CheckKey(EndpointKey(path, ip))})
    {
      var uid := userId.GetOr("");
      var userCheck := WindowFor(UserStage, uid, path, ip, config);
      var endpointCheck := WindowFor(EndpointStage, uid, path, ip, config);
      assert userCheck == WindowFor(UserStage, uid, path, ip, None);
      assert endpointCheck == WindowFor(EndpointStage, "", path, ip, config);
      assert WindowsAgree(r1, userRan, decision, uid, path, ip, config, now, reachable) by {
        if userId.Some? {
          assert Agrees(r1, UserStage, decision, uid, path, ip, config, now, reachable);
        }
      }
      WindowKeysDistinct(EndpointStage, UserStage, uid, path, ip, config, path, ip);
      DeniedByElsewhere(r1, r2, {CheckKey(userCheck.key)}, endpointCheck.key,
                        service.CheckByType(endpointCheck.task.recordType, endpointCheck.task.recordData,
                                            endpointCheck.task.windowSeconds, now, reachable), now);
      assert WindowsAgree(r1, endpointRan, decision, uid, path, ip, config, now, reachable) by {
        if config.Some? {
          assert Agrees(r1, EndpointStage, decision, uid, path, ip, config, now, reachable);
        }
      }
      AgreeConcat(r1, userRan, endpointRan, decision, uid, path, ip, config, now, reachable);
      CheckKeysDistinct(UserKey(uid, path), UserKey(uid, path), ip, path);
      ResolvesElsewhere(r1, r2, {CheckKey(userCheck.key)}, configs, path, now, failed, config);
      SameExceptTrans(r1, r2, r3, {CheckKey(userCheck.key)}, {ConfigKey(path), CheckKey(EndpointKey(path, ip))});
      FollowsAll(userRan + endpointRan, decision);
    }

    /** The user window of `_pre_process`: checked only with a user. */
    method RunUserWindow(userId: Option<string>, normalizedPath: string, clientIp: string, now: nat, reachable: bool)
      returns (denied: bool, ran: seq<Stage>)
      requires Valid()
      modifies service
      ensures Valid()
      ensures ran == (if userId.Some? then [UserStage] else [])
      ensures denied <==>
                userId.Some? &&
                Denies(old(service.redis), WindowFor(UserStage, userId.value, normalizedPath, clientIp, None), now, reachable)
      ensures SameExcept(old(service.redis), service.redis, {CheckKey(UserKey(userId.GetOr(""), normalizedPath))})
    {
      denied, ran := false, [];
      if userId.Some? {
        ran := [UserStage];
        var allowed := CheckWindow(WindowFor(UserStage, userId.value, normalizedPath, clientIp, None), now, reachable);
        denied := !allowed;
      }
    }

    /** The endpoint window of `_pre_process`: checked only when a configuration covers the
        path, with the configured limits or the defaults. */
    method RunEndpointWindow(normalizedPath: string, clientIp: string, now: nat, reachable: bool,
                             cursor: Fetch<seq<RateLimitConfig>>)
      returns (decision: Decision, ran: seq<Stage>, config: Option<ConfigDoc>)
      requires Valid()
      requires cursor.Rows? ==> ActiveListing(crud.configs, cursor.rows)
      modifies service
      ensures Valid()
      ensures Resolves(old(service.redis), crud.configs, normalizedPath, now, cursor.StoreError?, config)
      ensures ran == (if config.Some? then [EndpointStage] else [])
      ensures decision.Deny? <==>
                config.Some? &&
                Denies(old(service.redis), WindowFor(EndpointStage, "", normalizedPath, clientIp, config), now, reachable)
      ensures decision.Deny? ==>
                decision == Deny(EndpointStage, WindowFor(EndpointStage, "", normalizedPath, clientIp, config).detail)
      ensures SameExcept(old(service.redis), service.redis,
                         {ConfigKey(normalizedPath), CheckKey(EndpointKey(normalizedPath, clientIp))})
    {
      ran := [];
      ghost var r0 := service.redis;
      config := service.GetCachedConfig(normalizedPath, now, cursor);
      decision := Admit;
      if config.Some? {
        ran := [EndpointStage];
        var check := WindowFor(EndpointStage, "", normalizedPath, clientIp, config);
        ghost var r1 := service.redis;
        var endpointAllowed := CheckWindow(check, now, reachable);
        CheckKeysDistinct(check.key, check.key, clientIp, normalizedPath);
        DeniedByElsewhere(r0, r1, {ConfigKey(normalizedPath)}, check.key,
                          service.CheckByType(check.task.recordType, check.task.recordData, check.task.windowSeconds,
                                              now, reachable), now);
        SameExceptTrans(r0, r1, service.redis, {ConfigKey(normalizedPath)}, {CheckKey(check.key)});
        if !endpointAllowed {
          decision := Deny(EndpointStage, check.detail);
        }
      }
    }

    /** The persistent-block check: denied while a block is in force, with the stored
        reason or `"Rate limited"`; a lapsed block is cleared on the way. */
    method CheckPersistentBlock(userId: string, now: int, mongoUp: bool) returns (limited: bool, detail: string)
      requires Valid()
      modifies crud
      ensures Valid()
      ensures crud.configs == old(crud.configs) && crud.overrides == old(crud.overrides)
      ensures crud.violations == old(crud.violations)
      ensures limited <==> mongoUp && PersistentBlockActive(old(crud.userLimits), userId, now)
      ensures limited ==> detail == PersistentDetail(old(crud.userLimits)[userId])
      ensures crud.userLimits ==
                if mongoUp && userId in old(crud.userLimits) && old(crud.userLimits)[userId].isLimited &&
                   !PersistentBlockActive(old(crud.userLimits), userId, now)
                then old(crud.userLimits)[userId := old(crud.userLimits)[userId].(isLimited := false)]
                else old(crud.userLimits)
      ensures forall u, t :: t >= now ==>
                (PersistentBlockActive(crud.userLimits, u, t) <==> PersistentBlockActive(old(crud.userLimits), u, t))
    {
      var reason;
      limited, reason := crud.IsUserRateLimited(userId, now, mongoUp);
      detail := if Truthy(reason) then reason.value else PersistentDenyDetail;
    }

    /** The blacklist check against the cache, then the store's blacklist; denied with the
        reason or `"Access denied"`. A blacklisting found in the store is cached for a day. */
    method CheckBlacklist(clientIp: string, now: int) returns (listed: bool, detail: string)
      requires Valid()
      modifies service
      ensures Valid()
      ensures listed <==> old(service.CachedBlacklist(clientIp, now)).Some? || clientIp in activity.blacklist
      ensures listed ==>
                detail == BlacklistDetail(old(service.CachedBlacklist(clientIp, now)),
                                          activity.CheckIpBlacklisted(clientIp).1)
      ensures !listed ==> service.redis == old(service.redis)
      ensures SameExcept(old(service.redis), service.redis, {ViolationKey(clientIp)})
      ensures old(service.CachedBlacklist(clientIp, now)).None? && listed ==>
                forall t :: now <= t < now + IpBlacklistTtl ==> service.CachedBlacklist(clientIp, t).Some?
    {
      var why;
      listed, why := service.IsIpBlacklisted(clientIp, now, Some(activity.CheckIpBlacklisted(clientIp)));
      detail := if Truthy(why) then why.value else BlacklistDenyDetail;
    }

    /** One window check through the decision cache: `check_limit` with the window's key,
        limits and record. The counter update it hands to the background is the window's
        task (see `TasksOf`). */
    method CheckWindow(w: WindowCheck, now: nat, reachable: bool) returns (allowed: bool)
      requires Valid()
      requires w.task.recordType != "" && |w.task.recordData| > 0
      modifies service
      ensures Valid()
      ensures !allowed <==> Denies(old(service.redis), w, now, reachable)
      ensures service.redis ==
                AfterCheck(old(service.redis), w.key,
                           service.CheckByType(w.task.recordType, w.task.recordData, w.task.windowSeconds, now, reachable),
                           w.task.windowSeconds, now)
    {
      var task;
      allowed, task := service.CheckLimit(w.key, w.task.maxRequests, w.task.windowSeconds, Some(w.task.recordType),
                                          w.task.recordData, now, reachable);
    }

    /** The background task a block intent starts: the persistent block of the intent's id,
        unless MongoDB fails; no other id's block changes. A user intent's block denies that
        user at the persistent check until it ends; an IP intent's block is stored under
        `"ip:{client_ip}"`, which the persistent check, reading only token subjects, does not
        consult for that address. */
    method RunBlockIntent(intent: BlockIntent, now: int, mongoUp: bool)
      requires Valid()
      modifies crud
      ensures Valid()
      ensures crud.configs == old(crud.configs) && crud.overrides == old(crud.overrides)
      ensures crud.violations == old(crud.violations)
      ensures mongoUp ==>
                forall t :: PersistentBlockActive(crud.userLimits, intent.userId, t) <==>
                              t < now + 60 * intent.durationMinutes
      ensures !mongoUp ==> crud.userLimits == old(crud.userLimits)
      ensures forall u, t :: u != intent.userId ==>
                (PersistentBlockActive(crud.userLimits, u, t) <==> PersistentBlockActive(old(crud.userLimits), u, t))
    {
      var ok := crud.SetUserRateLimited(intent.userId, intent.reason, intent.durationMinutes, now, mongoUp);
    }
  }
}
