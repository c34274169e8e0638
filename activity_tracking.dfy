/** The activity-tracking middleware (`ActivityTrackingMiddleware`): which requests become
    user-activity events, who they are attributed to, and where the client address comes
    from. The event itself is published in the background; here it is the value returned. */
module ActivityTracking {
  import opened Wrappers
  import opened Text
  import opened Models
  import RateLimiter

  /** The client address used when neither a forwarding header nor a peer is known. */
  const UnknownClient: string := "unknown"

  /** Paths `dispatch` hands straight to the application, without tracking. */
  const UntrackedPaths: seq<string> := ["/metrics", "/health", ApiV1 + "/docs", ApiV1 + "/openapi.json"]

  /** `_get_client_ip`: the first address of a non-empty `x-forwarded-for`, stripped of
      blanks; otherwise the peer's host when there is a peer; otherwise `"unknown"`. The
      address is the one slice of the header's first hop that has only blanks around it and
      none at its ends. */
  function ClientIp(forwarded: Option<string>, host: Option<string>): (ip: string)
    ensures Truthy(forwarded) ==> ',' !in ip && |ip| <= |forwarded.value|
    ensures Truthy(forwarded) && ip != [] ==> !IsSpace(ip[0]) && !IsSpace(ip[|ip| - 1])
    ensures Truthy(forwarded) ==> BlankPadded(TakeUntil(forwarded.value, ','), ip)
    ensures !Truthy(forwarded) ==> ip == host.GetOr(UnknownClient)
  {
    if Truthy(forwarded) then
      var first := TakeUntil(forwarded.value, ',');
      StripShape(first);
      StripIsBlankPadded(first);
      assert forall i :: 0 <= i < |Strip(first)| ==> Strip(first)[i] == first[|first| - |TrimStart(first)| + i];
      Strip(first)
    else host.GetOr(UnknownClient)
  }

  /** A proxy chain `"a, b, c"` yields its first hop `a` with the blanks around it removed;
      a header holding a single address yields the address. */
  lemma ClientIpIsFirstHop(pad1: string, first: string, pad2: string, rest: string, host: Option<string>)
    requires forall i :: 0 <= i < |pad1| ==> IsSpace(pad1[i])
    requires forall i :: 0 <= i < |pad2| ==> IsSpace(pad2[i])
    requires first != [] && ',' !in first && !IsSpace(first[0]) && !IsSpace(first[|first| - 1])
    requires rest == [] || rest[0] == ','
    ensures ClientIp(Some(pad1 + first + pad2 + rest), host) == first
  {
    var hop := pad1 + first + pad2;
    assert ',' !in hop by {
      forall i | 0 <= i < |hop| ensures hop[i] != ',' {
        if i < |pad1| { assert IsSpace(pad1[i]); }
        else if i < |pad1| + |first| { assert hop[i] == first[i - |pad1|]; }
        else { assert IsSpace(pad2[i - |pad1| - |first|]); }
      }
    }
    TakeUntilHead(hop, rest, ',');
    StripPadded(pad1, first, pad2);
  }

  /** What `dispatch` learns from the `authorization` header: `is_authenticated` (the decoder
      accepted the bearer token) and the `user_id` it publishes (the token's subject, when
      non-empty). */
  datatype Identity = Identity(authenticated: bool, userId: Option<string>)

  function Identify(authHeader: Option<string>, path: string, decode: string -> Decoded): (id: Identity)
    ensures id.authenticated <==>
              BearerToken(authHeader, path).Some? && decode(BearerToken(authHeader, path).value).Accepted?
    ensures id.userId.Some? <==>
              id.authenticated && Truthy(decode(BearerToken(authHeader, path).value).sub)
    ensures id.userId.Some? ==> id.userId == decode(BearerToken(authHeader, path).value).sub
  {
    var token := BearerToken(authHeader, path);
    if token.None? then Identity(false, None)
    else match decode(token.value)
      case Rejected => Identity(false, None)
      case Accepted(sub) => Identity(true, if Truthy(sub) then sub else None)
  }

  /** On the login-claim path no request is authenticated, whatever its header. */
  lemma LoginClaimIsUnauthenticated(authHeader: Option<string>, decode: string -> Decoded)
    ensures Identify(authHeader, LoginClaimPath, decode) == Identity(false, None)
  {
  }

  /** The tracking middleware and the rate limiter agree on who a request acts for. */
  lemma SameUserAsRateLimiter(authHeader: Option<string>, path: string, decode: string -> Decoded)
    ensures var user := RateLimiter.RequestUser(authHeader, path, decode);
            Identify(authHeader, path, decode).userId == (if Truthy(user) then user else None)
  {
  }

  /** Who an event is attributed to. */
  datatype ActorType = UserActor | SystemActor

  /** A user-activity event as `_publish_activity_event` publishes it (the correlation id,
      the processing time and the metrics are not modelled). */
  datatype ActivityEvent = ActivityEvent(entityId: string, actorType: ActorType, actorId: string,
                                         path: string, httpMethod: string, clientIp: string,
                                         userAgent: string, statusCode: int, isAuthenticated: bool)

  /** `_publish_activity_event`: the entity is the user, or `"anon-{client_ip}"`; the actor is
      the user, or the system under the id `"anonymous"`. */
  function EventFor(userId: Option<string>, path: string, httpMethod: string, clientIp: string,
                    userAgent: string, statusCode: int, isAuthenticated: bool): (e: ActivityEvent)
    ensures e.path == path && e.httpMethod == httpMethod && e.clientIp == clientIp
    ensures e.userAgent == userAgent && e.statusCode == statusCode && e.isAuthenticated == isAuthenticated
    ensures e.actorType == UserActor <==> Truthy(userId)
    ensures Truthy(userId) ==> e.entityId == userId.value && e.actorId == userId.value
    ensures !Truthy(userId) ==> e.actorId == "anonymous" && StartsWith(e.entityId, "anon-")
                                && e.entityId[|"anon-"|..] == clientIp
  {
    if Truthy(userId) then
      ActivityEvent(userId.value, UserActor, userId.value, path, httpMethod, clientIp, userAgent,
                    statusCode, isAuthenticated)
    else
      ActivityEvent("anon-" + clientIp, SystemActor, "anonymous", path, httpMethod, clientIp, userAgent,
                    statusCode, isAuthenticated)
  }

  /** What `dispatch` does with a request: pass it through untracked, serve it without
      publishing, or serve it and publish an event. */
  datatype Tracking = Untracked | NotPublished | Published(event: ActivityEvent)

  /** `dispatch`, given the request's headers and the status the application answered
      with. */
  function Dispatch(path: string, httpMethod: string, forwarded: Option<string>, host: Option<string>,
                    userAgent: Option<string>, authHeader: Option<string>, statusCode: int,
                    decode: string -> Decoded): (t: Tracking)
    ensures t.Untracked? <==> path in UntrackedPaths
    ensures t.Published? <==> path !in UntrackedPaths && StartsWith(path, ApiV1)
    ensures t.Published? ==>
              var id := Identify(authHeader, path, decode);
              && t.event.path == path && t.event.httpMethod == httpMethod
              && t.event.clientIp == ClientIp(forwarded, host)
              && t.event.userAgent == userAgent.GetOr("")
              && t.event.statusCode == statusCode
              && t.event.isAuthenticated == id.authenticated
              && (t.event.actorType == UserActor <==> id.userId.Some?)
  {
    if path in UntrackedPaths then Untracked
    else if !StartsWith(path, ApiV1) then NotPublished
    else
      var id := Identify(authHeader, path, decode);
      Published(EventFor(id.userId, path, httpMethod, ClientIp(forwarded, host), userAgent.GetOr(""),
                         statusCode, id.authenticated))
  }

  /** The health, metrics and documentation endpoints never produce an event. */
  lemma UntrackedPathsNeverPublish(i: nat, httpMethod: string, forwarded: Option<string>, host: Option<string>,
                                   userAgent: Option<string>, authHeader: Option<string>, statusCode: int,
                                   decode: string -> Decoded)
    requires i < |UntrackedPaths|
    ensures !Dispatch(UntrackedPaths[i], httpMethod, forwarded, host, userAgent, authHeader, statusCode,
                      decode).Published?
  {
  }

  /** A published event without an authenticated user is the system acting as
      `"anonymous"` on the entity `"anon-{client_ip}"`. */
  lemma UnauthenticatedEventIsAnonymous(path: string, httpMethod: string, forwarded: Option<string>,
                                        host: Option<string>, userAgent: Option<string>,
                                        authHeader: Option<string>, statusCode: int, decode: string -> Decoded)
    requires Dispatch(path, httpMethod, forwarded, host, userAgent, authHeader, statusCode, decode).Published?
    requires !Identify(authHeader, path, decode).authenticated
    ensures var e := Dispatch(path, httpMethod, forwarded, host, userAgent, authHeader, statusCode, decode).event;
            e.actorType == SystemActor && e.actorId == "anonymous"
            && e.entityId == "anon-" + ClientIp(forwarded, host)
  {
  }

  /** A token the decoder accepts but whose payload has no subject still counts as
      authenticated, while the event stays anonymous. */
  lemma SubjectlessTokenIsAuthenticatedButAnonymous(t: string, httpMethod: string, forwarded: Option<string>,
                                                    host: Option<string>, userAgent: Option<string>,
                                                    statusCode: int, decode: string -> Decoded)
    requires !Contains(t, BearerPrefix) && decode(t) == Accepted(None)
    ensures var e := Dispatch(ApiV1 + "/items", httpMethod, forwarded, host, userAgent, Some(BearerPrefix + t),
                              statusCode, decode).event;
            e.isAuthenticated && e.actorType == SystemActor && e.actorId == "anonymous"
  {
    BearerTokenOfHeader(t, ApiV1 + "/items");
    assert StartsWith(ApiV1 + "/items", ApiV1);
    assert ApiV1 + "/items" !in UntrackedPaths;
  }
}
