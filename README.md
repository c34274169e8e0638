# stufio activity module: rate limiting and activity tracking, in Dafny

This project models the core of the stufio activity module. Each request to a stufio API
passes two middlewares.

- The **rate-limiting middleware** (`RateLimitingMiddleware`) admits or denies the request. It
  checks, in order:
  - a persistent per-user block (MongoDB `user_rate_limits`);
  - the IP blacklist, first in Redis, then in MongoDB `user_ip_blacklist`;
  - three sliding windows: per IP, per user and path, and per endpoint when an endpoint
    configuration covers the path.

  Each window decision is cached in Redis: an allow (`"A"`) for 30 seconds, a deny
  (`"D:<until>"`) for the window. The counters are updated in the background, and a violation
  is written to ClickHouse when a window fills. A denying IP or user window also schedules a
  persistent block. A denial becomes a 429 response carrying the denial type and a
  `Retry-After`.
- The **activity-tracking middleware** (`ActivityTrackingMiddleware`) publishes one activity
  event per API request. The event is attributed to the authenticated user, or to
  `"anon-{client_ip}"` when there is none.

The stores behind them are modelled as classes:
- `CrudRateLimit` (`CRUDRateLimit` in the code) holds user overrides, endpoint configurations,
  persistent user blocks and the violation table.
- `CrudActivity` (`CRUDUserActivity` in the code) holds security profiles with known device
  fingerprints, the IP blacklist, suspicious-activity rows and activity rows.
- `RateLimitService` holds the Redis map, with per-key expiry.

Each store operation is a method. Its contract states the store's whole new state, and the
rules behind it are pure functions with lemmas. Examples of those rules:
- which endpoint configuration applies;
- the remaining quota;
- the severity of a suspicious-activity row;
- the fingerprint bookkeeping;
- the anomaly triggers;
- the cached-decision encoding and its round trip.

Time is integer seconds. Background tasks (`asyncio.create_task`) become values the pipeline
returns: `BlockIntent` and `AnalyticsTask`. Results of ClickHouse queries and generated ids are
parameters. Some store failures the code catches are parameters too: a failed MongoDB call in
the persistent-block operations (`mongoUp`), a failed violation insert (`inserted`), a failed
activity or suspicious-activity insert, and an unreachable ClickHouse in the window checks.
Each failure path that is not modelled is listed under "Left out", on the line of the member
it belongs to.

Files:
- `wrappers.dfy`: the `Option` and `Fetch` types.
- `text.dfy`: the Python string operations used.
- `models.dfy`: records, defaults, keys, day truncation, `dict_for_insert` and bearer tokens.
- `rate_limit_store.dfy`: `crud/crud_rate_limit.py`.
- `activity_store.dfy`: `crud/crud_activity.py`.
- `rate_limit_service.dfy`: `services/rate_limit.py`.
- `rate_limiter.dfy`: `middleware/rate_limiter.py`.
- `activity_tracking.dfy`: `middleware/activity_tracking.py`.

Behaviour of the code worth knowing when reading the model:
- The persistent-block check runs before the blacklist check (`rate_limiter.py:93-113`).
- `get_rate_limit_config` sorts the active configurations by endpoint in descending string
  order and takes the first whose pattern covers the path (`crud_rate_limit.py:393-417`).
- A recorded violation's `attempts` is the window count (`crud_rate_limit.py:644`, `:722`,
  `:801`).
- The MongoDB blacklist lookup does not look at `expires_at` (`crud_activity.py:664-673`).
- Every rate-limit denial answers 429 (`rate_limiter.py:207-211`; section 4 of RFC 6585).
- The IP window schedules its persistent block under the id `"ip:{client_ip}"`
  (`rate_limiter.py:126-130`). The persistent check reads only the token's subject
  (`rate_limiter.py:94-95`), so that block never denies the address it was written for.
- `restrict_user` builds its log row without a path, method or status code, which the row
  type requires (`crud_activity.py:595-603`, `models/security.py:16-18`). The call raises after
  the profile was flagged, so no row is logged and the count is not raised.
- A trusted device's `id` is written by a raw `$push` (`crud_activity.py:456-467`). The
  declared fingerprint has no `id` field (`models/activity.py:11-19`), and the profile is
  written back whole on the user's next request (`crud_activity.py:162-165`) or on an
  IP-diversity hit (`:226-230`). The id is then gone from the fingerprint list, and
  `remove_trusted_device` finds nothing to remove. The copy in `last_trusted_device` is a
  free-form dictionary (`models/activity.py:102`), so it keeps its `id` through the write-back.

## Model

Paths are relative to `stufio/modules/activity/` in the repository; the table writes them out
in full.

| member | source | states |
|---|---|---|
| Models.DayStart | stufio/modules/activity/models/activity.py:55-58 | the midnight of a timestamp is a whole-day boundary at most a day before it |
| Models.DayStartUnique | stufio/modules/activity/models/activity.py:55-58 | that boundary is the only one, so the truncation is fully determined |
| Models.DayStartIdempotent | stufio/modules/activity/models/activity.py:55-58 | truncating twice changes nothing |
| Models.ScopeOfName | stufio/modules/activity/services/rate_limit.py:202-229 | the record type selects the tier whose name it is, and no tier when it names none |
| Models.TierKeysDistinct | stufio/modules/activity/middleware/rate_limiter.py:116-176 | the IP, user and endpoint cache keys never collide, and the IP key determines the address |
| Models.StarMatchesEverything | stufio/modules/activity/crud/crud_rate_limit.py:393-417 | the pattern `*` covers every path |
| Models.PatternMeaning | stufio/modules/activity/crud/crud_rate_limit.py:393-417 | a pattern without a trailing `*` matches only itself; one with it matches exactly the paths starting with its stem |
| Models.PatternMatches | stufio/modules/activity/crud/crud_rate_limit.py:393-417 | the matching rule shared with `crud_activity.py:246`; its meaning is `PatternMeaning`'s |
| Models.NewFingerprint | stufio/modules/activity/models/activity.py:11-19 | a new fingerprint has one request, was first and last seen now, and has no device name or id |
| Models.NewRateLimitCounter | stufio/modules/activity/models/activity.py:71-77 | a new counter row holds one hit, and its window closes 60 s after it opens |
| Models.NewProfile | stufio/modules/activity/models/activity.py:95-102 | a new profile is unrestricted, with no suspicious activity and no trusted device |
| Models.ViolationAt | stufio/modules/activity/crud/crud_rate_limit.py:92-128 | a violation row's date is the midnight of its timestamp |
| Models.DictForInsert | stufio/modules/activity/models/activity.py:47-68 | fills a missing timestamp with now, a missing date with the timestamp's midnight, a missing or empty event id with a fresh non-empty one, and a missing user id with `"anon-{client_ip or 'unknown'}"`; every field present is kept |
| Models.BearerToken | stufio/modules/activity/middleware/rate_limiter.py:79-86 | a token is handed to the decoder iff the header is non-empty, starts with `"Bearer "` and the path is not the login-claim path |
| Models.BearerTokenOfHeader | stufio/modules/activity/middleware/rate_limiter.py:86 | `"Bearer " + t` yields `t` when `t` holds no further `"Bearer "` |
| Text.RemoveAllAbsent | stufio/modules/activity/middleware/activity_tracking.py:56 | `replace(pat, "")` leaves text without `pat` unchanged |
| Text.TakeUntilHead | stufio/modules/activity/middleware/activity_tracking.py:85 | `split(",")[0]` of `"a,…"` is `a` |
| Text.StripTrimmed | stufio/modules/activity/middleware/activity_tracking.py:85 | `strip()` leaves text without Python whitespace (`str.isspace`, latin-1 and beyond) at its ends unchanged |
| Text.StripShape | stufio/modules/activity/middleware/activity_tracking.py:85 | `strip()` keeps one slice and drops only Python whitespace on either side |
| Text.StripIsBlankPadded | stufio/modules/activity/middleware/activity_tracking.py:85 | `strip()` of a text is that text with only whitespace removed from its two ends |
| Text.StripPadded | stufio/modules/activity/middleware/activity_tracking.py:85 | `strip()` removes any whitespace padding from a text that starts and ends with non-whitespace |
| Text.ParseNatToString | stufio/modules/activity/services/rate_limit.py:57 | a rendered whole number reads back as itself |
| Text.LowerIdempotent | stufio/modules/activity/crud/crud_activity.py:298-308 | lower-casing twice is lower-casing once |
| Text.LexLessAsymmetric | stufio/modules/activity/crud/crud_rate_limit.py:393-417 | the string order used to sort configurations is strict |
| Text.LexLessExtension | stufio/modules/activity/crud/crud_rate_limit.py:393-417 | a string sorts before each of its proper extensions |
| RateLimitStore.Remaining | stufio/modules/activity/crud/crud_rate_limit.py:74-75 | the remaining quota is never negative; it is zero iff the count reached the limit, and otherwise it is the limit minus the count |
| RateLimitStore.WildcardOutranksExact | stufio/modules/activity/crud/crud_rate_limit.py:393-417 | an active `p*` configuration beside an exact `p` makes the exact one not the chosen match for `p` |
| RateLimitStore.IsBestMatch | stufio/modules/activity/crud/crud_rate_limit.py:393-417 | the chosen configuration: active, covering the path, and sorting before every other active one that does |
| RateLimitStore.IndexOf | stufio/modules/activity/crud/crud_rate_limit.py:447-556 | the first configuration the lookup selects (by endpoint, or by id ignoring hex-digit case), or none |
| RateLimitStore.IdLookupIgnoresCase | stufio/modules/activity/crud/crud_rate_limit.py:520-539 | an id in upper-case hex finds the same configuration as in lower case |
| RateLimitStore.Patched | stufio/modules/activity/crud/crud_rate_limit.py:521-536 | a partial update; its meaning is `PatchedKeepsUnsetFields`'s |
| RateLimitStore.PatchedKeepsUnsetFields | stufio/modules/activity/crud/crud_rate_limit.py:521-536 | a partial update keeps the id, endpoint and creation time and every field not given; with nothing given it only stamps `updated_at` |
| RateLimitStore.PatchedIdempotent | stufio/modules/activity/crud/crud_rate_limit.py:521-536 | applying the same partial update twice equals applying it once |
| RateLimitStore.AnyHit | stufio/modules/activity/crud/crud_rate_limit.py:576-609 | a window query hits iff some violation matches it since the window start |
| RateLimitStore.ViolationsAreSeenByTheirCheck | stufio/modules/activity/crud/crud_rate_limit.py:611-806 | a violation written by a tier is seen by that tier's check for its whole window, and by neither of the two other tiers' checks (all six cross-tier pairs) |
| RateLimitStore.Exceeded | stufio/modules/activity/crud/crud_rate_limit.py:634-640 | the window count query answered and the count reached the limit |
| RateLimitStore.BlockedAt | stufio/modules/activity/crud/crud_rate_limit.py:866-887 | a block is in force: flagged, with a deadline strictly later |
| RateLimitStore.CrudRateLimit.GetUserOverride | stufio/modules/activity/crud/crud_rate_limit.py:130-146 | the exact `(user, path)` override wins over the user's `*` override |
| RateLimitStore.CrudRateLimit.GetUserLimitStatus | stufio/modules/activity/crud/crud_rate_limit.py:25-90 | a live override replaces the limits and a stale one is deleted; the remaining quota is computed from the window count; a failed query reports the whole quota |
| RateLimitStore.CrudRateLimit.CreateUserOverride | stufio/modules/activity/crud/crud_rate_limit.py:148-181 | an upsert on `(user, path)`; afterwards the lookup finds it |
| RateLimitStore.CrudRateLimit.GetRateLimitConfig | stufio/modules/activity/crud/crud_rate_limit.py:393-417 | the result matches the path and sorts first among active matches; none means no active configuration matches, or the query failed |
| RateLimitStore.CrudRateLimit.CreateRateLimitConfig | stufio/modules/activity/crud/crud_rate_limit.py:447-506 | inserts a new endpoint, or updates the first same-endpoint configuration in place keeping its id and creation time; a duplicate `(endpoint, active)` gives the `"error"` response and changes nothing |
| RateLimitStore.CrudRateLimit.UpdateRateLimitConfig | stufio/modules/activity/crud/crud_rate_limit.py:508-556 | an invalid id, an unknown id (compared without regard to hex-digit case, as `ObjectId` does) or a duplicate `(endpoint, active)` gives none and changes nothing; otherwise only that configuration is patched |
| RateLimitStore.CrudRateLimit.CheckIpLimit | stufio/modules/activity/crud/crud_rate_limit.py:576-609 | allowed iff no IP violation is recorded within the window, or ClickHouse is unreachable |
| RateLimitStore.CrudRateLimit.CheckUserLimit | stufio/modules/activity/crud/crud_rate_limit.py:650-685 | the same for the user and path |
| RateLimitStore.CrudRateLimit.CheckEndpointLimit | stufio/modules/activity/crud/crud_rate_limit.py:729-764 | the same for the endpoint and IP |
| RateLimitStore.CrudRateLimit.UpdateIpRequestCount | stufio/modules/activity/crud/crud_rate_limit.py:611-648 | a violation is appended iff the window count reached the limit and the insert went through, after which the IP check denies for the whole window; a failed insert leaves no row |
| RateLimitStore.CrudRateLimit.UpdateUserRequestCount | stufio/modules/activity/crud/crud_rate_limit.py:687-727 | the same for the user tier |
| RateLimitStore.CrudRateLimit.UpdateEndpointRequestCount | stufio/modules/activity/crud/crud_rate_limit.py:766-806 | the same for the endpoint tier |
| RateLimitStore.CrudRateLimit.SetUserRateLimited | stufio/modules/activity/crud/crud_rate_limit.py:808-842 | an upsert; the user is blocked exactly until now plus the duration, and other users are untouched; a MongoDB failure answers false and stores nothing |
| RateLimitStore.CrudRateLimit.RemoveUserRateLimit | stufio/modules/activity/crud/crud_rate_limit.py:844-864 | false iff there is no record or MongoDB fails, and then nothing changes; otherwise the user is blocked at no time |
| RateLimitStore.CrudRateLimit.IsUserRateLimited | stufio/modules/activity/crud/crud_rate_limit.py:866-887 | limited iff MongoDB answers and a flagged record's deadline is in the future, with the stored reason or `"Rate limited"`; an error answers `(false, none)`; the lazy reset of a stale record changes no verdict from now on |
| ActivityStore.ClassifySeverity | stufio/modules/activity/crud/crud_activity.py:298-308 | high iff the lower-cased reason holds a high keyword; low iff none of those but a low keyword; medium otherwise |
| ActivityStore.SeverityIgnoresCase | stufio/modules/activity/crud/crud_activity.py:298-308 | the severity does not depend on letter case |
| ActivityStore.LoginReasonIsHigh | stufio/modules/activity/crud/crud_activity.py:245-258 | the sensitive-path reason for the login pattern is high severity |
| ActivityStore.Attribution | stufio/modules/activity/crud/crud_activity.py:295-296 | a row without a user is attributed to `"{client_ip}#{user_agent}"` |
| ActivityStore.SuspiciousLog | stufio/modules/activity/crud/crud_activity.py:278-343 | a new row is unresolved, carries the request's path, method and status, the reason as its details and the classified severity, and is dated at the midnight of its timestamp |
| ActivityStore.SuspiciousRow | stufio/modules/activity/models/security.py:9-25 | a row is built iff path, method and status code are all given, and then carries them |
| ActivityStore.SensitivePaths | stufio/modules/activity/crud/crud_activity.py:181-185 | three patterns, each under the API prefix and ending in `*` |
| ActivityStore.FirstMatchingPattern | stufio/modules/activity/crud/crud_activity.py:245-276 | the pattern found covers the path and no earlier pattern does; none means no pattern covers it |
| ActivityStore.FindSensitivePattern | stufio/modules/activity/crud/crud_activity.py:245-276 | the loop over the patterns returns the first match |
| ActivityStore.IndexOfDevice | stufio/modules/activity/crud/crud_activity.py:143-160 | the first fingerprint of the device, found iff the device is known |
| ActivityStore.TouchedShape | stufio/modules/activity/crud/crud_activity.py:143-160 | a known device's first fingerprint is bumped (one more request, seen now) and nothing else changes; an unknown device gets a new fingerprint appended |
| ActivityStore.Touched | stufio/modules/activity/crud/crud_activity.py:143-160 | the fingerprint list after a request; its meaning is `TouchedShape`'s |
| ActivityStore.TouchedKeepsDevicesDistinct | stufio/modules/activity/crud/crud_activity.py:143-160 | the update keeps one fingerprint per device |
| ActivityStore.TouchedTwice | stufio/modules/activity/crud/crud_activity.py:129-160 | a device seen twice holds one fingerprint with two requests |
| ActivityStore.TouchFingerprint | stufio/modules/activity/crud/crud_activity.py:143-160 | the loop computes that update |
| ActivityStore.IsKnownDevice | stufio/modules/activity/crud/crud_activity.py:193-197 | the loop finds the device iff a fingerprint has its address and user agent |
| ActivityStore.WithoutDevice | stufio/modules/activity/crud/crud_activity.py:473-487 | removal keeps exactly the fingerprints with another id |
| ActivityStore.RemoveUndoesAdd | stufio/modules/activity/crud/crud_activity.py:435-487 | removing a freshly added trusted device restores the list |
| ActivityStore.WrittenBack | stufio/modules/activity/crud/crud_activity.py:162-165 | a profile written back whole keeps every field, the last trusted device with its `id` included, and every fingerprint's device, seen times and count, but no declared fingerprint keeps an `id` |
| ActivityStore.UntaggedListsKeepEverything | stufio/modules/activity/crud/crud_activity.py:473-487 | removing by id from a list without ids removes nothing |
| ActivityStore.AfterRequest | stufio/modules/activity/crud/crud_activity.py:119-167 | only the user's profile changes; a new one holds exactly the device; an existing one keeps its counts, flag and last trusted device, gains at most one fingerprint, knows the device, and holds no fingerprint ids |
| ActivityStore.RequestForgetsTrustedIds | stufio/modules/activity/crud/crud_activity.py:119-167 | after the user's next request, removing a trusted device by id removes nothing |
| ActivityStore.MarkSuspicious | stufio/modules/activity/crud/crud_activity.py:224-231 | one more suspicious activity, stamped now, and only for that user; the restriction flag, the last trusted device and the fingerprint count are kept |
| ActivityStore.DiversityFires | stufio/modules/activity/crud/crud_activity.py:187-242 | the IP-diversity trigger: a profiled user, an unknown device, more than five addresses |
| ActivityStore.SensitiveFires | stufio/modules/activity/crud/crud_activity.py:244-258 | the sensitive-path trigger: the first pattern a signed-in user's path hits |
| ActivityStore.FailedFires | stufio/modules/activity/crud/crud_activity.py:260-274 | the failed-access trigger: the first pattern an error response's path hits |
| ActivityStore.Findings | stufio/modules/activity/crud/crud_activity.py:169-276 | at most three rows, all attributed to the request; none iff no trigger fires |
| ActivityStore.PathFindings | stufio/modules/activity/crud/crud_activity.py:245-276 | at most two rows; none iff neither path trigger fires |
| ActivityStore.AnonymousFindings | stufio/modules/activity/crud/crud_activity.py:260-276 | without a user only the failed-access trigger can fire, attributed to `"{ip}#{agent}"` |
| ActivityStore.KnownDeviceOffSensitivePathsIsQuiet | stufio/modules/activity/crud/crud_activity.py:187-258 | a known device off the sensitive paths logs nothing |
| ActivityStore.FailedLoginLogsTwice | stufio/modules/activity/crud/crud_activity.py:245-276 | a failed login by a user logs a high-severity sensitive row and a failed-access row |
| ActivityStore.CrudActivity.UpdateUserSecurityProfile | stufio/modules/activity/crud/crud_activity.py:119-167 | the profiles become `AfterRequest`'s: a first sighting creates a profile with exactly that device, a later one touches the device and writes the profile back; afterwards the device is known |
| ActivityStore.CrudActivity.CheckSuspiciousActivity | stufio/modules/activity/crud/crud_activity.py:169-276 | appends exactly the rows of `Findings` when ClickHouse takes them and none when it does not; marks the profile only on IP diversity; the result is true iff a trigger fired |
| ActivityStore.CrudActivity.ScanSensitivePaths | stufio/modules/activity/crud/crud_activity.py:245-276 | the two path triggers give the rows of `PathFindings` |
| ActivityStore.CrudActivity.FlagIpDiversity | stufio/modules/activity/crud/crud_activity.py:187-242 | fires iff an unknown device of a profiled user comes from more than five addresses within the last 24 hours (the count of distinct addresses is an input); its row is appended only when the insert goes through |
| ActivityStore.CrudActivity.CreateActivity | stufio/modules/activity/crud/crud_activity.py:31-117 | when the insert goes through, the row is attributed to the user or `"anon-{ip}"`, and the profiles become `AfterRequest`'s for a user and stay as they were otherwise; a failed insert changes nothing and answers false |
| ActivityStore.CrudActivity.GetSecurityProfile | stufio/modules/activity/crud/crud_activity.py:420-433 | returns the stored profile, or creates an empty one |
| ActivityStore.CrudActivity.AddTrustedDevice | stufio/modules/activity/crud/crud_activity.py:435-471 | appends a fresh fingerprint with the new id and records it as the last trusted device |
| ActivityStore.CrudActivity.RemoveTrustedDevice | stufio/modules/activity/crud/crud_activity.py:473-487 | true iff the profile held the id; exactly those fingerprints go |
| ActivityStore.CrudActivity.RestrictUser | stufio/modules/activity/crud/crud_activity.py:675-700 | no profile: false and nothing changes; otherwise the profile is flagged restricted and the call raises, with no row logged and no count raised |
| ActivityStore.CrudActivity.BlockIp | stufio/modules/activity/crud/crud_activity.py:622-649 | an upsert keyed by IP; afterwards the lookup reports it with the reason |
| ActivityStore.CrudActivity.UnblockIp | stufio/modules/activity/crud/crud_activity.py:651-662 | true iff the IP was listed; afterwards the lookup reports it clear |
| ActivityStore.CrudActivity.CheckIpBlacklisted | stufio/modules/activity/crud/crud_activity.py:664-673 | listed iff an entry exists, with its reason |
| ActivityStore.ActivityRow | stufio/modules/activity/crud/crud_activity.py:51-66 | the activity row is complete: `dict_for_insert` finds no field to fill |
| ActivityStore.RestrictionRow | stufio/modules/activity/crud/crud_activity.py:593-603 | the row `restrict_user` logs is never built |
| RateLimitService.KeyNamespaces | stufio/modules/activity/services/rate_limit.py:48-304 | only configuration keys live under the configuration prefix |
| RateLimitService.CheckKeysDistinct | stufio/modules/activity/services/rate_limit.py:48 | distinct window keys have distinct decision keys, and no decision key is a configuration or violation key |
| RateLimitService.SetExReadsBack | stufio/modules/activity/services/rate_limit.py:81-98 | a value written with a TTL reads back until it expires, and not after |
| RateLimitService.DenyValue | stufio/modules/activity/services/rate_limit.py:96 | a deny value starts with `"D:"` |
| RateLimitService.CachedDecision | stufio/modules/activity/services/rate_limit.py:52-64 | allow iff the value is `"A"`; deny only for a `"D:"` value |
| RateLimitService.DenyValueRoundTrip | stufio/modules/activity/services/rate_limit.py:52-64 | a cached `"D:<until>"` reads back as a deny before `until` and as no decision after |
| RateLimitService.AfterCheck | stufio/modules/activity/services/rate_limit.py:78-107 | `check_limit` writes only its own decision key |
| RateLimitService.DeniedByElsewhere | stufio/modules/activity/services/rate_limit.py:52-107 | writes to other keys leave `check_limit`'s verdict for a key as it was |
| RateLimitService.ResolvesElsewhere | stufio/modules/activity/services/rate_limit.py:248-284 | writes to other keys leave what `get_cached_config` finds as it was |
| RateLimitService.TaskViolation | stufio/modules/activity/services/rate_limit.py:166-200 | a violation is recorded only when the count reached the limit and the insert went through, at the tier the record type names |
| RateLimitService.RateLimitService.CheckByType | stufio/modules/activity/services/rate_limit.py:202-229 | an answer iff the record type names a tier; it is that tier's check on the record's fields; a missing field allows; an unreachable ClickHouse allows |
| RateLimitService.RateLimitService.CheckLimit | stufio/modules/activity/services/rate_limit.py:20-109 | denies iff a live cached deny exists, or there is no cached decision and the store check denies; states exactly the cache entries written and the background task |
| RateLimitService.RateLimitService.RecordAnalytics | stufio/modules/activity/services/rate_limit.py:166-200 | the background count update appends a violation exactly when the count reached the limit |
| RateLimitService.RateLimitService.GetCachedConfig | stufio/modules/activity/services/rate_limit.py:232-284 | a cached document wins; otherwise the store's best match is cached for two minutes |
| RateLimitService.RateLimitService.CachedBlacklist | stufio/modules/activity/services/rate_limit.py:297-307 | the blacklist key is read first, then the violation key |
| RateLimitService.RateLimitService.IsIpBlacklisted | stufio/modules/activity/services/rate_limit.py:287-324 | a cache hit answers at once; a database hit is cached for a day |
| RateLimitService.RateLimitService.BlacklistIp | stufio/modules/activity/services/rate_limit.py:327-353 | writes the reason under the violation key for the duration, or a day when none is given |
| RateLimiter.WindowPlan | stufio/modules/activity/middleware/rate_limiter.py:115-182 | the IP window always comes first, the user window only with a user, the endpoint window only with a configuration |
| RateLimiter.Gates | stufio/modules/activity/middleware/rate_limiter.py:93-113 | the persistent block comes only with a user, and the blacklist comes last among the gates |
| RateLimiter.Plan | stufio/modules/activity/middleware/rate_limiter.py:93-182 | the full check order |
| RateLimiter.LaterPlan | stufio/modules/activity/middleware/rate_limiter.py:137-182 | the windows after the IP window: the window plan without its leading IP window |
| RateLimiter.FollowsThrough | stufio/modules/activity/middleware/rate_limiter.py:93-182 | passing every gate and then running the windows follows the whole plan |
| RateLimiter.FollowsStops | stufio/modules/activity/middleware/rate_limiter.py:93-113 | a denial at a gate follows any plan that starts with the gates |
| RateLimiter.FollowsAll | stufio/modules/activity/middleware/rate_limiter.py:93-182 | running a whole plan follows it, whether admitted or denied at its last check |
| RateLimiter.WindowFor | stufio/modules/activity/middleware/rate_limiter.py:115-182 | each window's record type is its tier's name and its record is non-empty |
| RateLimiter.WindowKeysDistinct | stufio/modules/activity/middleware/rate_limiter.py:116-171 | the three windows of a request use three different decision keys, none a configuration or violation key |
| RateLimiter.TasksOf | stufio/modules/activity/middleware/rate_limiter.py:116-176 | at most one counter update per check run, and none when only gates ran |
| RateLimiter.ScheduledBlocks | stufio/modules/activity/middleware/rate_limiter.py:124-153 | a block is scheduled iff the IP or the user window denies: 15 minutes under `"ip:{client_ip}"`, or 10 minutes under the user with the path in its reason |
| RateLimiter.RequestUser | stufio/modules/activity/middleware/rate_limiter.py:79-91 | a user exists only for a bearer token the decoder accepts |
| RateLimiter.LoginClaimIsAnonymous | stufio/modules/activity/middleware/rate_limiter.py:84 | the login-claim path never has a user |
| RateLimiter.PersistentDetail | stufio/modules/activity/middleware/rate_limiter.py:96-100 | the stored reason when it is non-empty, otherwise a non-empty default |
| RateLimiter.BlacklistDetail | stufio/modules/activity/middleware/rate_limiter.py:103-113 | the cached reason when it is non-empty; `"Access denied"` when neither reason is |
| RateLimiter.SameExceptTrans | stufio/modules/activity/middleware/rate_limiter.py:93-182 | keyspaces that agree outside two key sets in turn agree outside their union |
| RateLimiter.HandleRateLimit | stufio/modules/activity/middleware/rate_limiter.py:191-211 | status 429 with the type; `Retry-After` reads back as 86400 for a blacklisted address, 600 for a persistent block, 60 otherwise |
| RateLimiter.ExcludedPaths | stufio/modules/activity/middleware/rate_limiter.py:39-50 | the given paths followed by the docs and OpenAPI paths |
| RateLimiter.RateLimitingMiddleware.PreProcess | stufio/modules/activity/middleware/rate_limiter.py:66-182 | the checks run follow the plan and stop at the denying one; a persistent denial happens iff a block is active, with its detail; a blacklist denial happens iff a cached or stored entry exists, with its detail; each window denies iff its `check_limit` over the starting cache denies, with the tier's key, limits (endpoint limits from the configuration, 100/60 by default) and message; the configuration is what `get_cached_config` finds; the tasks and block intents are exact; only the window, configuration and violation keys of Redis change |
| RateLimiter.RateLimitingMiddleware.RunGates | stufio/modules/activity/middleware/rate_limiter.py:93-113 | the persistent check runs only with a user and denies iff a block is active; the blacklist check denies iff a cached or stored entry exists; both with their details; only the violation key of Redis can change |
| RateLimiter.RateLimitingMiddleware.RunWindows | stufio/modules/activity/middleware/rate_limiter.py:115-182 | the windows run follow the window plan; each decides as its `check_limit` over the starting cache does; the configuration is what `get_cached_config` finds; only the window and configuration keys change |
| RateLimiter.RateLimitingMiddleware.GatesAndWindows | stufio/modules/activity/middleware/rate_limiter.py:93-182 | passing the gates then running the windows follows the plan, and the windows' verdicts and the configuration found hold over the cache as it was before the gates |
| RateLimiter.RateLimitingMiddleware.IpAndLater | stufio/modules/activity/middleware/rate_limiter.py:115-182 | an admitting IP window followed by the later windows follows the window plan, with every verdict over the starting cache |
| RateLimiter.RateLimitingMiddleware.RunLaterWindows | stufio/modules/activity/middleware/rate_limiter.py:137-182 | the user and endpoint windows follow their plan and decide as their checks do over the starting cache |
| RateLimiter.RateLimitingMiddleware.LaterAgree | stufio/modules/activity/middleware/rate_limiter.py:137-182 | an admitting user window followed by the endpoint window follows the later plan, with both verdicts over the starting cache |
| RateLimiter.RateLimitingMiddleware.AgreeElsewhere | stufio/modules/activity/middleware/rate_limiter.py:115-182 | writes to keys no window run reads leave the windows' verdicts as they were |
| RateLimiter.RateLimitingMiddleware.AgreeConcat | stufio/modules/activity/middleware/rate_limiter.py:115-182 | the verdicts of two runs over one cache make the verdicts of the joined run |
| RateLimiter.RateLimitingMiddleware.AgreeThroughGates | stufio/modules/activity/middleware/rate_limiter.py:93-113 | gates in front of the windows change no window's verdict |
| RateLimiter.RateLimitingMiddleware.RunUserWindow | stufio/modules/activity/middleware/rate_limiter.py:137-158 | checked only with a user, under `user:{id}:{path}` with 300 requests per 60 seconds; denies iff that check denies; only that key changes |
| RateLimiter.RateLimitingMiddleware.RunEndpointWindow | stufio/modules/activity/middleware/rate_limiter.py:160-182 | the configuration is what `get_cached_config` finds; checked only with one, under `endpoint:{path}:{ip}` with its limits or 100/60; denies iff that check denies, with `"Rate limit exceeded for {path}"` |
| RateLimiter.RateLimitingMiddleware.CheckPersistentBlock | stufio/modules/activity/middleware/rate_limiter.py:93-100 | denies iff MongoDB answers and the stored block is active, with its reason or `"Rate limited"`; a stale record is reset, which changes no verdict from now on |
| RateLimiter.RateLimitingMiddleware.CheckBlacklist | stufio/modules/activity/middleware/rate_limiter.py:102-113 | denies iff a cached entry or a MongoDB entry exists, with the cached reason, the stored one or `"Access denied"`; a store hit is cached for a day; a clear address changes nothing |
| RateLimiter.RateLimitingMiddleware.CheckWindow | stufio/modules/activity/middleware/rate_limiter.py:116-122 | denies iff `check_limit` for the window's key, limits and record denies; the cache becomes what that check leaves |
| RateLimiter.RateLimitingMiddleware.RunBlockIntent | stufio/modules/activity/middleware/rate_limiter.py:124-130 | the intent's id is blocked exactly until now plus its minutes unless MongoDB fails, and no other id's block changes; for the IP intent that id is `"ip:{client_ip}"`, which the persistent check never reads |
| ActivityTracking.ClientIp | stufio/modules/activity/middleware/activity_tracking.py:80-86 | a forwarded address is the first hop with the Python whitespace around it removed: no comma, no outer whitespace, and only whitespace dropped; without the header, the peer's host or `"unknown"` |
| ActivityTracking.ClientIpIsFirstHop | stufio/modules/activity/middleware/activity_tracking.py:85 | a first hop with any whitespace padding is returned without the padding |
| ActivityTracking.Identify | stufio/modules/activity/middleware/activity_tracking.py:47-62 | authenticated iff a bearer token exists and decodes; the user is the token's subject when non-empty |
| ActivityTracking.LoginClaimIsUnauthenticated | stufio/modules/activity/middleware/activity_tracking.py:54 | nothing on the login-claim path is authenticated |
| ActivityTracking.SameUserAsRateLimiter | stufio/modules/activity/middleware/activity_tracking.py:47-67 | both middlewares derive the same user |
| ActivityTracking.EventFor | stufio/modules/activity/middleware/activity_tracking.py:106-108 | the actor is the user, or the system as `"anonymous"`; the entity is the user, or `"anon-{ip}"` |
| ActivityTracking.Dispatch | stufio/modules/activity/middleware/activity_tracking.py:22-78 | skipped paths are untracked; an event is published iff the path is tracked and under the API prefix; states the event's contents |
| ActivityTracking.UntrackedPathsNeverPublish | stufio/modules/activity/middleware/activity_tracking.py:33-34 | the metrics, health and docs paths never publish |
| ActivityTracking.UnauthenticatedEventIsAnonymous | stufio/modules/activity/middleware/activity_tracking.py:106-108 | an unauthenticated event is `"anonymous"` on `"anon-{ip}"` |
| ActivityTracking.SubjectlessTokenIsAuthenticatedButAnonymous | stufio/modules/activity/middleware/activity_tracking.py:57-67 | an accepted token without a subject is authenticated, yet its event stays anonymous |

## Left out

Left out entirely:
- JSON encoding and decoding of cached configuration documents. A cached value is a document
  or a text. A text under a configuration key is treated as invalid JSON.
- Floating-point time. Times are whole seconds. The cached deny deadline is written and read as
  a whole number. `float()` is modelled only on digit strings.
- Unicode case folding. `lower()` is modelled on ASCII letters.
- Concurrency between requests and background work. Each background coroutine is
  returned as a value, not interleaved.
- Generating uuids and ObjectIds. They are parameters.
- Logging and `process_time`.
- The base middleware: `_normalize_path`, its own client-address lookup and its matching of
  excluded paths. The normalised path and the client address are inputs.
- Token decoding (`deps.get_token_payload`). It is a function parameter.
- The analytics queries and listings: `get_violations`, `get_rate_limit_analytics`,
  `get_user_activities`, `get_user_activity_summary`, `get_suspicious_activities`,
  `get_all_suspicious_activities`, `get_suspicious_activity_analytics` and `get_overrides`.
  They only read and shape data.
- Administrative operations: `delete_override`, `delete_rate_limit_config` and
  `get_all_rate_limit_configs`.
- `warm_config_cache` and `_init_rate_limit_cache`. Cache warm-up changes no decision.
- Counter rows of `rate_limits`. They appear only as the window aggregates the store returns.
- The mutation of the caller's `excluded_paths` list by `extend`. Aliasing is not modelled.
- MongoDB failures in `get_security_profile`, `add_trusted_device`, `remove_trusted_device`,
  `block_ip`, `unblock_ip` and `check_ip_blacklisted`. The code lets them raise to its
  caller; the model has no failure input for them.

Weaker or narrower than the code:
- RateLimitService.RateLimitService.BlacklistIp: the code hands a negative duration to Redis,
  which raises. The model returns false and writes nothing. A failed Redis write
  (`services/rate_limit.py:352`) is not modelled.
- RateLimitService.RateLimitService.CheckByType: the code reads the record's fields with
  `.get` (`services/rate_limit.py:208-224`), so a missing field reaches the tier's query as
  null; whether that query then finds no row or fails is ClickHouse's business. The model
  answers allow, which `check_limit` caches as `"A"`. The middleware always supplies every
  field (`rate_limiter.py:121`, `:144`, `:175`).
- RateLimitService.TaskViolation: a task whose record lacks a field its tier needs records
  nothing; the code runs the counter update with the field null. The middleware always
  supplies every field.
- RateLimitService.RateLimitService.CheckLimit: a failed Redis write
  (`services/rate_limit.py:106-107`) is not modelled; the model's cache write always goes
  through. The verdict is the same either way. A failed Redis read (`:53`) raises out of the
  middleware and is not modelled either.
- ActivityStore.CrudActivity.CheckSuspiciousActivity: the ClickHouse distinct-address count is
  an input, so the failure of that query, which raises to the caller, is not modelled. The
  profile read (`crud_activity.py:189`) and the IP-diversity write-back (`:226-230`) have no
  `try` either; their MongoDB failures raise to the caller and are not modelled. One flag
  (`logged`) stands for all the inserts of a call; a failure of only some of them is not
  modelled.
- ActivityStore.CrudActivity.FlagIpDiversity: the same unmodelled failures of the profile read,
  the distinct-address query and the write-back (`crud_activity.py:189-230`) raise to the
  caller.
- ActivityStore.CrudActivity.BlockIp: the update branch copies every key of the new entry's
  dump onto the existing document, its fresh `id` included (`crud_activity.py:635-638`).
  Blacklist entries carry no id in the model, and whether the ODM accepts the reassigned id is
  not modelled; the model takes the update as going through.
- RateLimitStore.CrudRateLimit.GetUserLimitStatus: the `window` input covers only the window query. A
  failed override lookup or stale-override delete (`crud_rate_limit.py:38-44`) is caught by
  the same handler (`:82-90`) and answers the caller's limits with the whole quota left; the
  model always finds the override.
- RateLimitStore.CrudRateLimit.CreateUserOverride: a MongoDB failure raises to the caller
  (`crud_rate_limit.py:159-181`); the model's upsert always goes through.
- RateLimitStore.CrudRateLimit.CreateRateLimitConfig: the code answers `"error"` on any
  failure (`crud_rate_limit.py:493-506`); the model answers it only on a duplicate endpoint.
- RateLimitStore.CrudRateLimit.UpdateRateLimitConfig: the code answers None on any failure
  (`crud_rate_limit.py:554-556`); the model answers it only on an invalid, unknown or
  duplicate id.
- RateLimitService.RateLimitService.GetCachedConfig: a failed Redis read
  (`services/rate_limit.py:252`) raises out of the middleware; the model's reads always answer.
- RateLimitService.RateLimitService.IsIpBlacklisted: failed Redis reads
  (`services/rate_limit.py:299`, `:305`) raise out of the middleware; not modelled.
- ActivityStore.CrudActivity.CreateActivity: a MongoDB failure inside the profile update is not
  modelled. The code swallows a failed write-back, but a failed profile creation makes the
  call answer false after the row was inserted.
- ActivityStore.CrudActivity.UpdateUserSecurityProfile: a MongoDB failure is not modelled. The
  loss of the fingerprints' trusted-device ids on write-back (`WrittenBack`) rests on the
  declared model ignoring keys it does not declare when a profile is read.
- ActivityStore.CrudActivity.RestrictUser: the raised validation error is an outcome value
  (`Raised`); a MongoDB failure of the flag write is not modelled.
