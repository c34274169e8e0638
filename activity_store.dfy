/** The activity store (`CRUDUserActivity`): per-user security profiles and the IP blacklist
    in MongoDB, and the activity and suspicious-activity tables in ClickHouse, with the
    fingerprinting and anomaly rules that read and write them. */
module ActivityStore {
  import opened Wrappers
  import opened Text
  import opened Models

  /** More distinct addresses than this for one user within a day is suspicious. */
  const MaxUniqueIpsPerDay: int := 5

  // ---------------------------------------------------------------------------------------
  // Severity and attribution of suspicious-activity rows

  const HighKeywords: seq<string> := ["password", "auth", "login", "token", "multiple", "admin"]
  const LowKeywords: seq<string> := ["new device", "different location", "unusual time"]

  /** Python's `any(k in s for k in keywords)`. */
  predicate ContainsAny(s: string, keywords: seq<string>) {
    exists i | 0 <= i < |keywords| :: Contains(s, keywords[i])
  }

  /** Severity from the lower-cased reason: high on any high keyword, else low on any low
      keyword, else medium. */
  function ClassifySeverity(reason: string): (sev: Severity)
    ensures sev == High <==> ContainsAny(Lower(reason), HighKeywords)
    ensures sev == Low <==>
              !ContainsAny(Lower(reason), HighKeywords) && ContainsAny(Lower(reason), LowKeywords)
    ensures sev == Medium <==>
              !ContainsAny(Lower(reason), HighKeywords) && !ContainsAny(Lower(reason), LowKeywords)
  {
    var text := Lower(reason);
    if ContainsAny(text, HighKeywords) then High
    else if ContainsAny(text, LowKeywords) then Low
    else Medium
  }

  /** The classification ignores letter case. */
  lemma SeverityIgnoresCase(reason: string)
    ensures ClassifySeverity(Lower(reason)) == ClassifySeverity(reason)
  {
    LowerIdempotent(reason);
  }

  /** The reason logged when a user reaches a login endpoint is always high severity. */
  lemma LoginReasonIsHigh()
    ensures ClassifySeverity(SensitiveReason(ApiV1 + "/login/*")) == High
  {
    var reason := SensitiveReason(ApiV1 + "/login/*");
    var text := Lower(reason);
    assert |reason| == 55;
    assert text[48..53] == "login";
    assert OccursAt(text, "login", 48);
    assert Contains(text, HighKeywords[2]);
  }

  /** Who a suspicious-activity row is attributed to: the user, or for an anonymous request
      the pair `"{client_ip}#{user_agent}"`. */
  function Attribution(userId: Option<string>, clientIp: string, userAgent: string): (who: string)
    ensures Truthy(userId) ==> who == userId.value
    ensures !Truthy(userId) ==> who == clientIp + "#" + userAgent && '#' in who
  {
    if Truthy(userId) then userId.value else clientIp + "#" + userAgent
  }

  /** Building a suspicious-activity row from keyword arguments: path, method and status code
      have no default, so leaving any of them out is a validation error (`None`) instead of a
      row; the fields given are the row's. */
  function SuspiciousRow(timestamp: int, date: int, userId: string, clientIp: string, userAgent: string,
                         path: Option<string>, httpMethod: Option<string>, statusCode: Option<int>,
                         activityType: string, severity: Severity, details: Option<string>)
    : (row: Option<SuspiciousActivity>)
    ensures row.Some? <==> path.Some? && httpMethod.Some? && statusCode.Some?
    ensures row.Some? ==> && row.value.path == path.value && row.value.httpMethod == httpMethod.value
                          && row.value.statusCode == statusCode.value && row.value.userId == userId
                          && row.value.severity == severity && row.value.details == details
                          && !row.value.isResolved && row.value.resolutionId.None?
  {
    if path.None? || httpMethod.None? || statusCode.None? then None
    else Some(SuspiciousActivity(timestamp, date, userId, clientIp, userAgent, path.value, httpMethod.value,
                                 statusCode.value, activityType, severity, details, false, None))
  }

  /** The row `create_suspicious_activity_log` inserts. */
  function SuspiciousLog(userId: Option<string>, clientIp: string, userAgent: string, path: string,
                         httpMethod: string, statusCode: int, reason: string, now: int)
    : (row: SuspiciousActivity)
    ensures row.severity == ClassifySeverity(reason)
    ensures row.userId == Attribution(userId, clientIp, userAgent)
    ensures row.date <= row.timestamp < row.date + SecondsPerDay && row.date % SecondsPerDay == 0
    ensures row.path == path && row.httpMethod == httpMethod && row.statusCode == statusCode
    ensures !row.isResolved && row.details == Some(reason)
  {
    SuspiciousRow(now, DayStart(now), Attribution(userId, clientIp, userAgent), clientIp, userAgent,
                  Some(path), Some(httpMethod), Some(statusCode), "suspicious_behavior",
                  ClassifySeverity(reason), Some(reason)).value
  }

  const DiversityReason: string := "Too many different IPs used in a short time"
  const FailedAccessReason: string := "Failed access attempt to sensitive endpoint"

  function SensitiveReason(pattern: string): string {
    "New device accessed sensitive endpoint: " + pattern
  }

  /** The sensitive path patterns; `adminPrefix` is the configured admin segment. */
  function SensitivePaths(adminPrefix: string): (ps: seq<string>)
    ensures |ps| == 3
    ensures forall i :: 0 <= i < |ps| ==> StartsWith(ps[i], ApiV1) && EndsWith(ps[i], "*")
  {
    var ps := [ApiV1 + "/login/*", ApiV1 + "/users/*", ApiV1 + adminPrefix + "/*"];
    assert forall i :: 0 <= i < |ps| ==> ps[i][..|ApiV1|] == ApiV1 && ps[i][|ps[i]| - 1..] == "*";
    ps
  }

  /** The first pattern in order that covers `path`. */
  function FirstMatchingPattern(patterns: seq<string>, path: string): (r: Option<string>)
    ensures r.Some? ==> PatternMatches(r.value, path)
    ensures r.Some? ==> exists i :: 0 <= i < |patterns| && patterns[i] == r.value
                                    && forall j :: 0 <= j < i ==> !PatternMatches(patterns[j], path)
    ensures r.None? <==> forall i :: 0 <= i < |patterns| ==> !PatternMatches(patterns[i], path)
  {
    if patterns == [] then None
    else if PatternMatches(patterns[0], path) then Some(patterns[0])
    else FirstMatchingPattern(patterns[1..], path)
  }

  /** The loop over the sensitive patterns: stops at the first one covering `path`. */
  method FindSensitivePattern(patterns: seq<string>, path: string) returns (hit: Option<string>)
    ensures hit == FirstMatchingPattern(patterns, path)
  {
    var i := 0;
    while i < |patterns|
      invariant 0 <= i <= |patterns|
      invariant FirstMatchingPattern(patterns[i..], path) == FirstMatchingPattern(patterns, path)
    {
      if PatternMatches(patterns[i], path) {
        return Some(patterns[i]);
      }
      assert patterns[i..][1..] == patterns[i + 1..];
      i := i + 1;
    }
    return None;
  }

  // ---------------------------------------------------------------------------------------
  // Fingerprints

  /** A fingerprint of the device `(ip, user_agent)`. */
  predicate SameDevice(fp: ClientFingerprint, ip: string, userAgent: string) {
    fp.ip == ip && fp.userAgent == userAgent
  }

  predicate KnowsDevice(fps: seq<ClientFingerprint>, ip: string, userAgent: string) {
    exists i :: 0 <= i < |fps| && SameDevice(fps[i], ip, userAgent)
  }

  /** No device appears twice. */
  predicate DistinctDevices(fps: seq<ClientFingerprint>) {
    forall i, j :: 0 <= i < j < |fps| ==> !SameDevice(fps[j], fps[i].ip, fps[i].userAgent)
  }

  /** Position of the first fingerprint of the device, `|fps|` when it is unknown. */
  function IndexOfDevice(fps: seq<ClientFingerprint>, ip: string, userAgent: string): (i: nat)
    ensures i <= |fps|
    ensures i < |fps| ==> SameDevice(fps[i], ip, userAgent)
    ensures forall j :: 0 <= j < i ==> !SameDevice(fps[j], ip, userAgent)
    ensures i < |fps| <==> KnowsDevice(fps, ip, userAgent)
  {
    if fps == [] then 0
    else if SameDevice(fps[0], ip, userAgent) then 0
    else 1 + IndexOfDevice(fps[1..], ip, userAgent)
  }

  /** One more request from a known device, seen now. */
  function Bump(fp: ClientFingerprint, now: int): ClientFingerprint {
    fp.(lastSeen := now, requestCount := fp.requestCount + 1)
  }

  /** The fingerprint list after a request from `(ip, user_agent)`: the first fingerprint of
      the device is bumped, or a new one is appended. */
  function Touched(fps: seq<ClientFingerprint>, ip: string, userAgent: string, now: int)
    : seq<ClientFingerprint>
  {
    var i := IndexOfDevice(fps, ip, userAgent);
    if i < |fps| then fps[i := Bump(fps[i], now)] else fps + [NewFingerprint(ip, userAgent, now)]
  }

  /** A known device keeps the list length and changes only its own first entry, by one
      request; an unknown one adds exactly one entry, with one request. Either way the
      device is known afterwards. */
  lemma TouchedShape(fps: seq<ClientFingerprint>, ip: string, userAgent: string, now: int)
    ensures var out := Touched(fps, ip, userAgent, now);
      && KnowsDevice(out, ip, userAgent)
      && (KnowsDevice(fps, ip, userAgent) ==>
            var i := IndexOfDevice(fps, ip, userAgent);
            && |out| == |fps|
            && (forall j :: 0 <= j < |fps| && j != i ==> out[j] == fps[j])
            && out[i].requestCount == fps[i].requestCount + 1 && out[i].lastSeen == now
            && SameDevice(out[i], ip, userAgent) && out[i].firstSeen == fps[i].firstSeen)
      && (!KnowsDevice(fps, ip, userAgent) ==>
            && out == fps + [NewFingerprint(ip, userAgent, now)]
            && out[|fps|].requestCount == 1 && out[|fps|].firstSeen == now && out[|fps|].lastSeen == now)
  {
    var out := Touched(fps, ip, userAgent, now);
    var i := IndexOfDevice(fps, ip, userAgent);
    assert SameDevice(out[i], ip, userAgent);
  }

  /** Touching never introduces a second fingerprint for a device. */
  lemma TouchedKeepsDevicesDistinct(fps: seq<ClientFingerprint>, ip: string, userAgent: string, now: int)
    requires DistinctDevices(fps)
    ensures DistinctDevices(Touched(fps, ip, userAgent, now))
  {
    var out := Touched(fps, ip, userAgent, now);
    var i := IndexOfDevice(fps, ip, userAgent);
    if i < |fps| {
      forall a, b | 0 <= a < b < |out|
        ensures !SameDevice(out[b], out[a].ip, out[a].userAgent)
      {
        assert SameDevice(out[a], fps[a].ip, fps[a].userAgent) && SameDevice(out[b], fps[b].ip, fps[b].userAgent);
      }
    } else {
      forall a, b | 0 <= a < b < |out|
        ensures !SameDevice(out[b], out[a].ip, out[a].userAgent)
      {
        if b == |fps| {
          assert !SameDevice(fps[a], ip, userAgent);
        }
      }
    }
  }

  /** A first request creates a single fingerprint; a second from the same device bumps it
      to two requests. */
  lemma TouchedTwice(ip: string, userAgent: string, t1: int, t2: int)
    ensures Touched([], ip, userAgent, t1) == [NewFingerprint(ip, userAgent, t1)]
    ensures Touched(Touched([], ip, userAgent, t1), ip, userAgent, t2) ==
              [ClientFingerprint(ip, None, userAgent, t1, t2, 2, None)]
  {
    var once := Touched([], ip, userAgent, t1);
    assert once == [NewFingerprint(ip, userAgent, t1)];
    assert IndexOfDevice(once, ip, userAgent) == 0;
  }

  /** The in-place loop of `_update_user_security_profile` over the known fingerprints. */
  method TouchFingerprint(fps: seq<ClientFingerprint>, ip: string, userAgent: string, now: int)
    returns (out: seq<ClientFingerprint>)
    ensures out == Touched(fps, ip, userAgent, now)
  {
    var known := fps;
    var seen := false;
    var i := 0;
    while i < |known| && !seen
      decreases |known| - i, if seen then 0 else 1
      invariant 0 <= i <= |known| == |fps|
      invariant !seen ==> known == fps && forall j :: 0 <= j < i ==> !SameDevice(fps[j], ip, userAgent)
      invariant seen ==> known == Touched(fps, ip, userAgent, now)
    {
      if known[i].ip == ip && known[i].userAgent == userAgent {
        assert IndexOfDevice(fps, ip, userAgent) == i;
        known := known[i := known[i].(lastSeen := now, requestCount := known[i].requestCount + 1)];
        seen := true;
      } else {
        i := i + 1;
      }
    }
    if !seen {
      assert IndexOfDevice(fps, ip, userAgent) == |fps|;
      known := known + [NewFingerprint(ip, userAgent, now)];
    }
    out := known;
  }

  /** The lookup loop of `check_suspicious_activity`: is the device already known? */
  method IsKnownDevice(fps: seq<ClientFingerprint>, ip: string, userAgent: string) returns (known: bool)
    ensures known <==> KnowsDevice(fps, ip, userAgent)
  {
    known := false;
    var i := 0;
    while i < |fps| && !known
      decreases |fps| - i, if known then 0 else 1
      invariant 0 <= i <= |fps|
      invariant !known ==> forall j :: 0 <= j < i ==> !SameDevice(fps[j], ip, userAgent)
      invariant known ==> KnowsDevice(fps, ip, userAgent)
    {
      if fps[i].ip == ip && fps[i].userAgent == userAgent {
        known := true;
      } else {
        i := i + 1;
      }
    }
  }

  /** The fingerprint list without the trusted devices carrying `id` (MongoDB `$pull`). */
  function WithoutDevice(fps: seq<ClientFingerprint>, id: string): (r: seq<ClientFingerprint>)
    ensures forall fp :: fp in r <==> fp in fps && fp.id != Some(id)
    ensures |r| <= |fps|
    ensures |r| == |fps| <==> forall i :: 0 <= i < |fps| ==> fps[i].id != Some(id)
  {
    if fps == [] then []
    else if fps[0].id == Some(id) then WithoutDevice(fps[1..], id)
    else [fps[0]] + WithoutDevice(fps[1..], id)
  }

  /** Removing a device right after registering it under a fresh id restores the list. */
  lemma {:induction false} RemoveUndoesAdd(fps: seq<ClientFingerprint>, fp: ClientFingerprint, id: string)
    requires fp.id == Some(id)
    requires forall i :: 0 <= i < |fps| ==> fps[i].id != Some(id)
    ensures WithoutDevice(fps + [fp], id) == fps
  {
    if fps == [] {
      assert [] + [fp] == [fp];
      assert [fp][1..] == [];
    } else {
      assert (fps + [fp])[0] == fps[0];
      assert (fps + [fp])[1..] == fps[1..] + [fp];
      RemoveUndoesAdd(fps[1..], fp, id);
    }
  }

  /** A fingerprint as the declared model reads it back: without the extra `id` key. */
  function Untagged(fp: ClientFingerprint): ClientFingerprint {
    fp.(id := None)
  }

  /** The profile as it is stored after being read into the declared model and written back
      whole (`model_dump`): each fingerprint of the declared list loses its `id`; the last
      trusted device is a free-form dictionary, so it keeps every key, `id` included; everything
      else is kept. */
  function WrittenBack(p: UserSecurityProfile): (q: UserSecurityProfile)
    ensures q.userId == p.userId && q.suspiciousActivityCount == p.suspiciousActivityCount
    ensures q.lastSuspiciousActivity == p.lastSuspiciousActivity && q.isRestricted == p.isRestricted
    ensures |q.knownFingerprints| == |p.knownFingerprints|
    ensures forall i :: 0 <= i < |p.knownFingerprints| ==>
              var (a, b) := (q.knownFingerprints[i], p.knownFingerprints[i]);
              && a.id.None? && SameDevice(a, b.ip, b.userAgent) && a.deviceName == b.deviceName
              && a.firstSeen == b.firstSeen && a.lastSeen == b.lastSeen && a.requestCount == b.requestCount
    ensures q.lastTrustedDevice == p.lastTrustedDevice
  {
    var fps := p.knownFingerprints;
    p.(knownFingerprints := seq(|fps|, i requires 0 <= i < |fps| => Untagged(fps[i])))
  }

  /** A list in which no device carries an id loses nothing to a removal by id. */
  lemma {:induction false} UntaggedListsKeepEverything(fps: seq<ClientFingerprint>, id: string)
    requires forall i :: 0 <= i < |fps| ==> fps[i].id.None?
    ensures WithoutDevice(fps, id) == fps
  {
    if fps != [] {
      UntaggedListsKeepEverything(fps[1..], id);
    }
  }

  /** The profiles after a signed-in request from `(ip, user_agent)`: a new profile holding only
      that device, or the user's profile with the device touched and the profile written back. */
  function AfterRequest(profiles: map<string, UserSecurityProfile>, userId: string, ip: string,
                        userAgent: string, now: int): (r: map<string, UserSecurityProfile>)
    ensures r.Keys == profiles.Keys + {userId}
    ensures forall u :: u in profiles && u != userId ==> r[u] == profiles[u]
    ensures KnowsDevice(r[userId].knownFingerprints, ip, userAgent)
    ensures userId !in profiles ==> r[userId] == NewProfile(userId, [NewFingerprint(ip, userAgent, now)])
    ensures userId in profiles ==>
              var (before, after) := (profiles[userId], r[userId]);
              && after.userId == before.userId
              && after.suspiciousActivityCount == before.suspiciousActivityCount
              && after.lastSuspiciousActivity == before.lastSuspiciousActivity
              && after.isRestricted == before.isRestricted
              && after.lastTrustedDevice == before.lastTrustedDevice
              && |after.knownFingerprints| <= |before.knownFingerprints| + 1
              && forall i :: 0 <= i < |after.knownFingerprints| ==> after.knownFingerprints[i].id.None?
  {
    if userId !in profiles then
      var fps := [NewFingerprint(ip, userAgent, now)];
      assert SameDevice(fps[0], ip, userAgent);
      profiles[userId := NewProfile(userId, fps)]
    else
      var before := profiles[userId];
      var touched := Touched(before.knownFingerprints, ip, userAgent, now);
      TouchedShape(before.knownFingerprints, ip, userAgent, now);
      var after := WrittenBack(before.(knownFingerprints := touched));
      var k := IndexOfDevice(touched, ip, userAgent);
      assert SameDevice(after.knownFingerprints[k], ip, userAgent);
      profiles[userId := after]
  }

  /** A trusted device can be removed by its id only until the user's next signed-in request:
      the profile is written back without ids, so `remove_trusted_device` then finds nothing. */
  lemma RequestForgetsTrustedIds(profiles: map<string, UserSecurityProfile>, userId: string, ip: string,
                                 userAgent: string, now: int, id: string)
    ensures var fps := AfterRequest(profiles, userId, ip, userAgent, now)[userId].knownFingerprints;
            WithoutDevice(fps, id) == fps
  {
    var fps := AfterRequest(profiles, userId, ip, userAgent, now)[userId].knownFingerprints;
    UntaggedListsKeepEverything(fps, id);
  }

  // ---------------------------------------------------------------------------------------
  // The anomaly triggers

  /** The request `check_suspicious_activity` looks at. */
  datatype Request = Request(userId: Option<string>, clientIp: string, userAgent: string, path: string,
                             httpMethod: string, statusCode: int, now: int)

  /** The IP-diversity trigger: a user with a profile, on a device the profile does not
      know, seen from more than `MaxUniqueIpsPerDay` addresses. */
  predicate DiversityFires(profiles: map<string, UserSecurityProfile>, req: Request, distinctIps: nat) {
    && Truthy(req.userId) && req.userId.value in profiles
    && !KnowsDevice(profiles[req.userId.value].knownFingerprints, req.clientIp, req.userAgent)
    && distinctIps > MaxUniqueIpsPerDay
  }

  /** The sensitive-path trigger: the pattern a user's request hits, if any. */
  function SensitiveFires(req: Request, adminPrefix: string): Option<string> {
    if Truthy(req.userId) then FirstMatchingPattern(SensitivePaths(adminPrefix), req.path) else None
  }

  /** The failed-access trigger: the pattern an error response's path hits, if any. */
  function FailedFires(req: Request, adminPrefix: string): Option<string> {
    if req.statusCode >= 400 then FirstMatchingPattern(SensitivePaths(adminPrefix), req.path) else None
  }

  /** The profile update the IP-diversity trigger makes; the profile is written back whole. */
  function MarkSuspicious(profiles: map<string, UserSecurityProfile>, userId: string, now: int)
    : (r: map<string, UserSecurityProfile>)
    requires userId in profiles
    ensures r.Keys == profiles.Keys
    ensures forall u :: u in r && u != userId ==> r[u] == profiles[u]
    ensures r[userId].userId == profiles[userId].userId
    ensures r[userId].suspiciousActivityCount == profiles[userId].suspiciousActivityCount + 1
    ensures r[userId].lastSuspiciousActivity == Some(now)
    ensures r[userId].isRestricted == profiles[userId].isRestricted
    ensures r[userId].lastTrustedDevice == profiles[userId].lastTrustedDevice
    ensures |r[userId].knownFingerprints| == |profiles[userId].knownFingerprints|
  {
    var p := profiles[userId];
    profiles[userId := WrittenBack(p.(suspiciousActivityCount := p.suspiciousActivityCount + 1,
                                      lastSuspiciousActivity := Some(now)))]
  }

  function LogFor(req: Request, reason: string): SuspiciousActivity {
    SuspiciousLog(req.userId, req.clientIp, req.userAgent, req.path, req.httpMethod, req.statusCode, reason, req.now)
  }

  /** The rows one request logs, one per trigger that fires, in trigger order. */
  function Findings(profiles: map<string, UserSecurityProfile>, req: Request, distinctIps: nat,
                    adminPrefix: string): (rows: seq<SuspiciousActivity>)
    ensures |rows| <= 3
    ensures forall i :: 0 <= i < |rows| ==> rows[i].userId == Attribution(req.userId, req.clientIp, req.userAgent)
    ensures rows == [] <==> !DiversityFires(profiles, req, distinctIps) && SensitiveFires(req, adminPrefix).None?
                            && FailedFires(req, adminPrefix).None?
  {
    (if DiversityFires(profiles, req, distinctIps) then [LogFor(req, DiversityReason)] else [])
    + PathFindings(req, adminPrefix)
  }

  /** The rows of the two path triggers: the sensitive-path row, then the failed-access row. */
  function PathFindings(req: Request, adminPrefix: string): (rows: seq<SuspiciousActivity>)
    ensures |rows| <= 2
    ensures rows == [] <==> SensitiveFires(req, adminPrefix).None? && FailedFires(req, adminPrefix).None?
  {
    (var s := SensitiveFires(req, adminPrefix); if s.Some? then [LogFor(req, SensitiveReason(s.value))] else [])
    + (if FailedFires(req, adminPrefix).Some? then [LogFor(req, FailedAccessReason)] else [])
  }

  /** Without a user only the failed-access trigger can fire, and then the row is
      attributed to `"{client_ip}#{user_agent}"`. */
  lemma AnonymousFindings(profiles: map<string, UserSecurityProfile>, req: Request, distinctIps: nat,
                          adminPrefix: string)
    requires !Truthy(req.userId)
    ensures Findings(profiles, req, distinctIps, adminPrefix) ==
              (if FailedFires(req, adminPrefix).Some? then [LogFor(req, FailedAccessReason)] else [])
    ensures forall r :: r in Findings(profiles, req, distinctIps, adminPrefix) ==>
              r.userId == req.clientIp + "#" + req.userAgent
  {
  }

  /** A request off every sensitive path by a device the user's profile already knows logs
      nothing, whatever the address count. */
  lemma KnownDeviceOffSensitivePathsIsQuiet(profiles: map<string, UserSecurityProfile>, req: Request,
                                            distinctIps: nat, adminPrefix: string)
    requires Truthy(req.userId) && req.userId.value in profiles
    requires KnowsDevice(profiles[req.userId.value].knownFingerprints, req.clientIp, req.userAgent)
    requires forall i :: 0 <= i < 3 ==> !PatternMatches(SensitivePaths(adminPrefix)[i], req.path)
    ensures Findings(profiles, req, distinctIps, adminPrefix) == []
  {
  }

  /** A failed login by a signed-in user logs two rows: the sensitive-path row (high
      severity, since its reason names the login pattern) and the failed-access row. */
  lemma FailedLoginLogsTwice(profiles: map<string, UserSecurityProfile>, req: Request, distinctIps: nat,
                             adminPrefix: string)
    requires Truthy(req.userId) && !DiversityFires(profiles, req, distinctIps)
    requires StartsWith(req.path, ApiV1 + "/login/") && req.statusCode >= 400
    ensures var rows := Findings(profiles, req, distinctIps, adminPrefix);
              |rows| == 2 && rows[0].severity == High && rows[1].details == Some(FailedAccessReason)
  {
    var login := ApiV1 + "/login/*";
    assert login[..|login| - 1] == ApiV1 + "/login/";
    assert PatternMatches(login, req.path);
    assert FirstMatchingPattern(SensitivePaths(adminPrefix), req.path) == Some(login);
    LoginReasonIsHigh();
  }

  // ---------------------------------------------------------------------------------------
  // The store

  class CrudActivity {
    /** `user_security_profiles`, keyed by `user_id`. */
    var profiles: map<string, UserSecurityProfile>
    /** `user_ip_blacklist`, keyed by `ip`. */
    var blacklist: map<string, IPBlacklistEntry>
    /** `user_suspicious_activity` in insertion order. */
    var suspicious: seq<SuspiciousActivity>
    /** `user_activity` rows in insertion order. */
    var activities: seq<map<string, Field>>

    ghost predicate Valid()
      reads this
    {
      && (forall u :: u in profiles ==> profiles[u].userId == u)
      && (forall ip :: ip in blacklist ==> blacklist[ip].ip == ip)
    }

    constructor()
      ensures Valid()
      ensures profiles == map[] && blacklist == map[] && suspicious == [] && activities == []
    {
      profiles := map[];
      blacklist := map[];
      suspicious := [];
      activities := [];
    }

    /** The user's profile after a request from `(ip, user_agent)`: a new profile holding
        only that device, or the existing one with the device touched and written back. */
    method UpdateUserSecurityProfile(userId: string, ip: string, userAgent: string, now: int)
      requires Valid()
      modifies this
      ensures Valid()
      ensures blacklist == old(blacklist) && suspicious == old(suspicious) && activities == old(activities)
      ensures profiles == AfterRequest(old(profiles), userId, ip, userAgent, now)
      ensures KnowsDevice(profiles[userId].knownFingerprints, ip, userAgent)
    {
      if userId !in profiles {
        var fp := NewFingerprint(ip, userAgent, now);
        profiles := profiles[userId := NewProfile(userId, [fp])];
        return;
      }
      var profile := profiles[userId];
      var fps := TouchFingerprint(profile.knownFingerprints, ip, userAgent, now);
      profiles := profiles[userId := WrittenBack(profile.(knownFingerprints := fps))];
    }
    /** Runs the three anomaly triggers and logs one row per trigger that fires, in this
        order (see `Findings`):
        - IP diversity: a user with a profile, on an unknown device, with more than
          `MaxUniqueIpsPerDay` distinct addresses in the last day (`distinctIps`, the
          ClickHouse count); also raises the profile's suspicious-activity count by one;
        - sensitive path: any user on a path some sensitive pattern covers;
        - failed access: status 400 or more on such a path, with or without a user.
        The result is whether any trigger fired. `logged` says whether ClickHouse took the
        inserts: a failed insert is only logged, so the rows are missing and the result is
        the same. */
    method CheckSuspiciousActivity(userId: Option<string>, clientIp: string, userAgent: string,
                                   path: string, httpMethod: string, statusCode: int, now: int,
                                   distinctIps: nat, adminPrefix: string, logged: bool)
      returns (flagged: bool)
      requires Valid()
      modifies this
      ensures Valid()
      ensures blacklist == old(blacklist) && activities == old(activities)
      ensures var ctx := Request(userId, clientIp, userAgent, path, httpMethod, statusCode, now);
              var diverse := DiversityFires(old(profiles), ctx, distinctIps);
              var rows := Findings(old(profiles), ctx, distinctIps, adminPrefix);
              && profiles == (if diverse then MarkSuspicious(old(profiles), userId.value, now) else old(profiles))
              && suspicious == old(suspicious) + (if logged then rows else [])
              && (flagged <==> rows != [])
    {
      var req := Request(userId, clientIp, userAgent, path, httpMethod, statusCode, now);
      var diverse := FlagIpDiversity(userId, clientIp, userAgent, path, httpMethod, statusCode, now, distinctIps,
                                     logged);
      var rows := ScanSensitivePaths(req, adminPrefix);
      if logged {
        suspicious := suspicious + rows;
      }
      flagged := diverse || rows != [];
    }

    /** The sensitive-path and failed-access triggers: both look the path up in the sensitive
        patterns; the first only for a signed-in user, the second only for an error status. */
    method ScanSensitivePaths(req: Request, adminPrefix: string) returns (rows: seq<SuspiciousActivity>)
      ensures rows == PathFindings(req, adminPrefix)
    {
      var patterns := SensitivePaths(adminPrefix);
      rows := [];
      if Truthy(req.userId) {
        var sensitive := FindSensitivePattern(patterns, req.path);
        if sensitive.Some? {
          rows := [LogFor(req, SensitiveReason(sensitive.value))];
        }
      }
      if req.statusCode >= 400 {
        var failed := FindSensitivePattern(patterns, req.path);
        if failed.Some? {
          rows := rows + [LogFor(req, FailedAccessReason)];
        }
      }
    }

    /** The IP-diversity trigger alone: on a hit the profile is marked and one row logged. */
    method FlagIpDiversity(userId: Option<string>, clientIp: string, userAgent: string, path: string,
                           httpMethod: string, statusCode: int, now: int, distinctIps: nat, logged: bool)
      returns (diverse: bool)
      requires Valid()
      modifies this
      ensures Valid()
      ensures blacklist == old(blacklist) && activities == old(activities)
      ensures var ctx := Request(userId, clientIp, userAgent, path, httpMethod, statusCode, now);
              && diverse == DiversityFires(old(profiles), ctx, distinctIps)
              && profiles == (if diverse then MarkSuspicious(old(profiles), userId.value, now) else old(profiles))
              && suspicious == old(suspicious) + (if diverse && logged then [LogFor(ctx, DiversityReason)] else [])
    {
      diverse := false;
      if userId.Some? && userId.value != "" && userId.value in profiles {
        var user := userId.value;
        var profile := profiles[user];
        var known := IsKnownDevice(profile.knownFingerprints, clientIp, userAgent);
        if !known && distinctIps > MaxUniqueIpsPerDay {
          profiles := MarkSuspicious(profiles, user, now);
          if logged {
            suspicious := suspicious + [SuspiciousLog(userId, clientIp, userAgent, path, httpMethod, statusCode,
                                                      DiversityReason, now)];
          }
          diverse := true;
        }
      }
    }

    /** Records an API request: the row goes to the activity table with the user id, or
        `"anon-{client_ip}"` for an anonymous request; an authenticated request also updates
        the user's security profile. `inserted` says whether ClickHouse took the row; when it
        did not, the error is caught, nothing changes and the result is false. */
    method CreateActivity(userId: Option<string>, path: string, httpMethod: string, clientIp: string,
                          userAgent: string, statusCode: int, now: int, eventId: string, inserted: bool)
      returns (ok: bool)
      requires Valid()
      requires eventId != ""
      modifies this
      ensures Valid() && ok == inserted
      ensures blacklist == old(blacklist) && suspicious == old(suspicious)
      ensures !inserted ==> activities == old(activities) && profiles == old(profiles)
      ensures var authenticated := Truthy(userId);
              var effective := if authenticated then userId.value else "anon-" + clientIp;
              inserted ==>
                && activities == old(activities) + [ActivityRow(eventId, now, effective, path, httpMethod,
                                                                clientIp, userAgent, statusCode, authenticated)]
                && profiles == (if authenticated then AfterRequest(old(profiles), effective, clientIp, userAgent, now)
                                else old(profiles))
    {
      var authenticated := userId.Some? && userId.value != "";
      var effective := if authenticated then userId.value else "anon-" + clientIp;
      var row := ActivityRow(eventId, now, effective, path, httpMethod, clientIp, userAgent, statusCode, authenticated);
      var data := DictForInsert(row, now, eventId);
      assert data == row;
      if !inserted {
        return false;
      }
      activities := activities + [data];
      if authenticated {
        UpdateUserSecurityProfile(effective, clientIp, userAgent, now);
      }
      ok := true;
    }

    /** The profile of the user, created with the defaults when missing. */
    method GetSecurityProfile(userId: string) returns (p: UserSecurityProfile)
      requires Valid()
      modifies this
      ensures Valid()
      ensures blacklist == old(blacklist) && suspicious == old(suspicious) && activities == old(activities)
      ensures userId in old(profiles) ==> p == old(profiles)[userId] && profiles == old(profiles)
      ensures userId !in old(profiles) ==> p == NewProfile(userId, []) && profiles == old(profiles)[userId := p]
    {
      if userId in profiles {
        return profiles[userId];
      }
      p := NewProfile(userId, []);
      profiles := profiles[userId := p];
    }

    /** Registers a trusted device under the fresh id: appended to the known fingerprints
        (no check for an existing entry) and remembered as the last trusted device. */
    method AddTrustedDevice(userId: string, ip: string, userAgent: string, deviceName: Option<string>,
                            now: int, freshId: string)
      returns (fp: ClientFingerprint)
      requires Valid()
      modifies this
      ensures Valid()
      ensures blacklist == old(blacklist) && suspicious == old(suspicious) && activities == old(activities)
      ensures fp == ClientFingerprint(ip, deviceName, userAgent, now, now, 1, Some(freshId))
      ensures var before := if userId in old(profiles) then old(profiles)[userId] else NewProfile(userId, []);
              profiles == old(profiles)[userId := before.(knownFingerprints := before.knownFingerprints + [fp],
                                                          lastTrustedDevice := Some(fp))]
    {
      var profile := GetSecurityProfile(userId);
      fp := ClientFingerprint(ip, deviceName, userAgent, now, now, 1, Some(freshId));
      profiles := profiles[userId := profile.(knownFingerprints := profile.knownFingerprints + [fp],
                                              lastTrustedDevice := Some(fp))];
    }

    /** Drops every trusted device carrying `deviceId` from the user's list; false when the
        user has no profile or no device carries the id (nothing is modified). */
    method RemoveTrustedDevice(userId: string, deviceId: string) returns (removed: bool)
      requires Valid()
      modifies this
      ensures Valid()
      ensures blacklist == old(blacklist) && suspicious == old(suspicious) && activities == old(activities)
      ensures removed <==> (userId in old(profiles) &&
                exists i :: 0 <= i < |old(profiles)[userId].knownFingerprints| &&
                  old(profiles)[userId].knownFingerprints[i].id == Some(deviceId))
      ensures !removed ==> profiles == old(profiles)
      ensures removed ==>
                profiles == old(profiles)[userId := old(profiles)[userId].(knownFingerprints :=
                  WithoutDevice(old(profiles)[userId].knownFingerprints, deviceId))]
    {
      if userId !in profiles {
        return false;
      }
      var profile := profiles[userId];
      var kept := WithoutDevice(profile.knownFingerprints, deviceId);
      if |kept| == |profile.knownFingerprints| {
        return false;
      }
      profiles := profiles[userId := profile.(knownFingerprints := kept)];
      removed := true;
    }

    /** Restricts the user: false when the user has no profile; otherwise the profile is
        flagged restricted, and then building the `account_restricted` row fails validation
        (`RestrictionRow`), so the call raises: no row is logged and the suspicious-activity
        count is not raised. */
    method RestrictUser(userId: string, reason: string, now: int) returns (outcome: RestrictOutcome)
      requires Valid()
      modifies this
      ensures Valid()
      ensures blacklist == old(blacklist) && activities == old(activities) && suspicious == old(suspicious)
      ensures outcome == NoProfile <==> userId !in old(profiles)
      ensures outcome == NoProfile ==> profiles == old(profiles)
      ensures outcome == Raised ==>
                profiles == old(profiles)[userId := old(profiles)[userId].(isRestricted := true)]
    {
      if userId !in profiles {
        return NoProfile;
      }
      profiles := profiles[userId := profiles[userId].(isRestricted := true)];
      var row := RestrictionRow(userId, reason, now);
      assert row.None?;
      return Raised;
    }

    /** Upsert keyed by address: the entry for `ip` takes all the given values. */
    method BlockIp(ip: string, reason: string, createdBy: Option<string>, expiresAt: Option<int>, now: int)
      returns (entry: IPBlacklistEntry)
      requires Valid()
      modifies this
      ensures Valid()
      ensures profiles == old(profiles) && suspicious == old(suspicious) && activities == old(activities)
      ensures entry == IPBlacklistEntry(ip, reason, now, createdBy, expiresAt)
      ensures blacklist == old(blacklist)[ip := entry]
      ensures CheckIpBlacklisted(ip) == (true, Some(reason))
    {
      entry := IPBlacklistEntry(ip, reason, now, createdBy, expiresAt);
      blacklist := blacklist[ip := entry];
    }

    /** Deletes the entry for `ip`; false when there is none. */
    method UnblockIp(ip: string) returns (removed: bool)
      requires Valid()
      modifies this
      ensures Valid()
      ensures profiles == old(profiles) && suspicious == old(suspicious) && activities == old(activities)
      ensures removed <==> ip in old(blacklist)
      ensures blacklist == old(blacklist) - {ip}
      ensures CheckIpBlacklisted(ip) == (false, None)
    {
      if ip !in blacklist {
        return false;
      }
      blacklist := blacklist - {ip};
      removed := true;
    }

    /** Whether an entry exists for the address, with its reason; the entry's expiry is
        not consulted. */
    function CheckIpBlacklisted(ip: string): (r: (bool, Option<string>))
      reads this
      ensures r.0 <==> ip in blacklist
      ensures r.1 == if ip in blacklist then Some(blacklist[ip].reason) else None
    {
      if ip in blacklist then (true, Some(blacklist[ip].reason)) else (false, None)
    }
  }

  /** The activity row `create_activity` builds before `dict_for_insert`. */
  function ActivityRow(eventId: string, now: int, userId: string, path: string, httpMethod: string,
                       clientIp: string, userAgent: string, statusCode: int, authenticated: bool)
    : (row: map<string, Field>)
    ensures WellTyped(row)
    ensures !Missing(row, "timestamp") && !Missing(row, "date") && !Missing(row, "user_id")
    ensures !Missing(row, "event_id") && (eventId != "" ==> row["event_id"] != Str(""))
  {
    map["event_id" := Str(eventId), "timestamp" := Time(now), "date" := Time(DayStart(now)),
        "user_id" := Str(userId), "path" := Str(path), "method" := Str(httpMethod),
        "client_ip" := Str(clientIp), "user_agent" := Str(userAgent), "status_code" := Int(statusCode),
        "is_authenticated" := Bool(authenticated)]
  }

  /** How `restrict_user` ends: `False` for a user without a profile, or the validation
      error raised while building the row it logs. */
  datatype RestrictOutcome = NoProfile | Raised

  /** The row `record_suspicious_activity` builds for `restrict_user`: attributed to the
      system, with no path, method or status code, so it is never built. */
  function RestrictionRow(userId: string, reason: string, now: int): (row: Option<SuspiciousActivity>)
    ensures row.None?
  {
    SuspiciousRow(now, now, userId, "system", "system", None, None, None, "account_restricted", High,
                  Some(reason))
  }
}
