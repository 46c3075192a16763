/**
 * src/utils/apiUtils/authApi.ts: the single-flight token refresh (one
 * shared `refreshPromise` that every concurrent caller joins) and the
 * client's "retry a 401 once" response interceptor.
 *
 * The pending promise is modelled by the number of callers joined to it;
 * the refresh call's reply arrives as a separate event, `Settle`.
 */
module ApiUtilsAuthApi {
  import opened Wrappers
  import opened ApiTypes
  import opened AuthStore
  import opened Http

  const RefreshTokenMissing: string := "REFRESH_TOKEN_MISSING"
  const RefreshError: string := "REFRESH_ERROR"
  const TokenRefreshFailed: string := "Token refresh failed"

  /** What `handleUnauthorized` gives a caller at once: a value, or the shared pending promise. */
  datatype Call = Settled(value: bool) | Joined

  class SingleFlightRefresher {
    const user: UserStore
    /** `refreshPromise !== null` */
    var inFlight: bool
    /** Callers awaiting the shared promise. */
    var joined: nat
    /** The refresh token of every `UserService.refreshToken` call, in order. */
    var refreshRequests: seq<string>
    /** Refresh calls whose reply has arrived. */
    var settled: nat
    /** The reason of every `handleLogout`, in order. */
    var logoutReasons: seq<string>

    /** At most one refresh call is outstanding, and it has a caller waiting for it exactly when it is. */
    predicate Valid()
      reads this
    {
      |refreshRequests| == settled + (if inFlight then 1 else 0)
      && (inFlight <==> joined >= 1)
    }

    constructor(user: UserStore)
      ensures Valid() && this.user == user
      ensures !inFlight && refreshRequests == [] && logoutReasons == []
    {
      this.user := user;
      inFlight := false;
      joined := 0;
      refreshRequests := [];
      settled := 0;
      logoutReasons := [];
    }

    /** `handleLogout(reason)`: the store signs out and the page goes to the login route. */
    method HandleLogout(reason: string)
      modifies this, user
      ensures logoutReasons == old(logoutReasons) + [reason]
      ensures inFlight == old(inFlight) && joined == old(joined)
      ensures refreshRequests == old(refreshRequests) && settled == old(settled)
      ensures !IsAuthenticated(user.State()) && user.storage == map[]
    {
      user.Logout();
      logoutReasons := logoutReasons + [reason];
    }

    /**
     * `handleUnauthorized`. Without a refresh token it signs out and gives
     * false, before looking at the pending promise; while a refresh is
     * pending the caller joins it; otherwise the caller starts the one
     * refresh call.
     */
    method HandleUnauthorized() returns (c: Call)
      requires Valid()
      modifies this, user
      ensures Valid()
      ensures !Truthy(old(user.refreshToken)) ==>
        c == Settled(false) && logoutReasons == old(logoutReasons) + [RefreshTokenMissing]
        && !IsAuthenticated(user.State()) && user.storage == map[]
        && refreshRequests == old(refreshRequests) && inFlight == old(inFlight) && joined == old(joined)
      ensures Truthy(old(user.refreshToken)) && old(inFlight) ==>
        c == Joined && joined == old(joined) + 1 && inFlight
        && refreshRequests == old(refreshRequests) && logoutReasons == old(logoutReasons)
        && user.State() == old(user.State()) && user.storage == old(user.storage)
      ensures Truthy(old(user.refreshToken)) && !old(inFlight) ==>
        c == Joined && joined == 1 && inFlight
        && refreshRequests == old(refreshRequests) + [old(user.refreshToken).value]
        && logoutReasons == old(logoutReasons)
        && user.State() == old(user.State()) && user.storage == old(user.storage)
      ensures settled == old(settled)
    {
      var refreshToken := user.refreshToken;
      if !Truthy(refreshToken) {
        HandleLogout(RefreshTokenMissing);
        return Settled(false);
      }
      if inFlight {
        joined := joined + 1;
        return Joined;
      }
      inFlight := true;
      joined := 1;
      refreshRequests := refreshRequests + [refreshToken.value];
      c := Joined;
    }

    /**
     * The reply of the pending refresh call arrives. A successful reply
     * whose tokens the store accepts gives true; anything else signs out
     * with `REFRESH_ERROR` and gives false. Every joined caller receives
     * that one value, and the promise is cleared whatever the outcome.
     */
    method Settle(reply: RefreshReply) returns (value: bool, released: nat)
      requires Valid() && inFlight
      modifies this, user
      ensures Valid()
      ensures !inFlight && joined == 0 && released == old(joined) && released >= 1
      ensures settled == old(settled) + 1 && refreshRequests == old(refreshRequests)
      ensures value ==>
        reply.RefreshReplied? && reply.isSuccess && logoutReasons == old(logoutReasons)
        && var d := DecodeJwt(reply.tokens.accessToken, user.atob, user.parseJson);
           d.Success? && TokensUpdated(old(user.State()), user.State(), old(user.storage), user.storage, reply.tokens, d.value)
      ensures !value ==>
        logoutReasons == old(logoutReasons) + [RefreshError] && !IsAuthenticated(user.State()) && user.storage == map[]
      ensures (reply.RefreshReplied? && reply.isSuccess
               && DecodeJwt(reply.tokens.accessToken, user.atob, user.parseJson).Success?) ==> value
    {
      if reply.RefreshReplied? && reply.isSuccess {
        var updated := user.UpdateTokens(reply.tokens);
        if updated.Success? {
          value := true;
        } else {
          HandleLogout(RefreshError);
          value := false;
        }
      } else {
        HandleLogout(RefreshError);
        value := false;
      }
      // finally
      released := joined;
      joined := 0;
      inFlight := false;
      settled := settled + 1;
    }
  }

  /**
   * The response interceptor. Only a first 401 (`_retry` unset) is handled:
   * `_retry` is set before the refresh is awaited, and the request is sent
   * again, with the access token read after the refresh, only when the
   * refresh gave true. Anything else is rejected unchanged.
   */
  method OnResponseError(config: RequestConfig, error: AxiosError, refresh: Settlement, accessTokenAfter: Option<string>)
    returns (v: Verdict)
    modifies config
    ensures !FirstUnauthorized(error, old(config.retry)) ==>
      v == Rejected(error.thrown) && config.retry == old(config.retry) && config.authorization == old(config.authorization)
    ensures FirstUnauthorized(error, old(config.retry)) ==> config.retry
    ensures FirstUnauthorized(error, old(config.retry)) && refresh == Resolved(true) ==>
      v == Reissued && config.authorization == Some(BearerHeader(accessTokenAfter))
    ensures FirstUnauthorized(error, old(config.retry)) && refresh == Resolved(false) ==>
      v == Rejected(ErrorObject(TokenRefreshFailed)) && config.authorization == old(config.authorization)
    ensures FirstUnauthorized(error, old(config.retry)) && refresh.Threw? ==>
      v == Rejected(refresh.thrown) && config.authorization == old(config.authorization)
  {
    if FirstUnauthorized(error, config.retry) {
      config.retry := true;
      match refresh
      case Resolved(ok) =>
        if ok {
          config.authorization := Some(BearerHeader(accessTokenAfter));
          return Reissued;
        }
        return Rejected(ErrorObject(TokenRefreshFailed));
      case Threw(thrown) =>
        return Rejected(thrown);
    }
    v := Rejected(error.thrown);
  }

  /**
   * Two callers hitting a 401 together make one refresh call between them,
   * and both receive the value of that one call.
   */
  method TwoCallersShareOneRefresh(refresher: SingleFlightRefresher, reply: RefreshReply)
    returns (first: Call, second: Call, value: bool, released: nat)
    requires refresher.Valid() && !refresher.inFlight && Truthy(refresher.user.refreshToken)
    modifies refresher, refresher.user
    ensures first == Joined && second == Joined && released == 2
    ensures refresher.refreshRequests == old(refresher.refreshRequests) + [old(refresher.user.refreshToken).value]
    ensures refresher.Valid() && !refresher.inFlight
  {
    first := refresher.HandleUnauthorized();
    second := refresher.HandleUnauthorized();
    value, released := refresher.Settle(reply);
  }
}
