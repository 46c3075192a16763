/**
 * src/services/api.ts: the client whose 401 handling is inlined in its
 * response interceptor: a cooldown, an `isRefreshing` flag and a queue of
 * requests waiting to be sent again with the new token.
 *
 * `Date.now()` is an argument. A queued subscriber is the request it will
 * send again; the refresh call's reply arrives as a separate event,
 * `CompleteRefresh`, handled by the request that started the refresh.
 */
module ServicesApi {
  import opened Wrappers
  import opened ApiTypes
  import opened AuthStore
  import opened Http

  const RefreshCooldown: int := 5000
  const PleaseWait: string := "请等待 5 秒后重试"
  const RefreshFailedMessage: string := "刷新失败"
  const NoTokenAfterRefresh: string := "刷新后未获得有效 token"
  const RefreshTokenMissing: string := "REFRESH_TOKEN_MISSING"
  const RefreshError: string := "REFRESH_ERROR"

  class QueueingClient {
    const user: UserStore
    var isRefreshing: bool
    /** A refresh call has been made and its reply has not arrived. */
    var awaitingReply: bool
    /** The requests the subscribers will send again, in order. */
    var subscribers: seq<RequestConfig>
    var lastRefreshTime: int
    /** The refresh token of every `UserService.refreshToken` call, in order. */
    var refreshRequests: seq<string>
    /** Refresh calls whose reply has arrived. */
    var completed: nat
    var logoutReasons: seq<string>

    /** At most one refresh call is outstanding, and only while `isRefreshing` is set. */
    predicate Valid()
      reads this
    {
      |refreshRequests| == completed + (if awaitingReply then 1 else 0)
      && (awaitingReply ==> isRefreshing)
    }

    constructor(user: UserStore)
      ensures Valid() && this.user == user
      ensures !isRefreshing && subscribers == [] && lastRefreshTime == 0
      ensures refreshRequests == [] && logoutReasons == []
    {
      this.user := user;
      isRefreshing := false;
      awaitingReply := false;
      subscribers := [];
      lastRefreshTime := 0;
      refreshRequests := [];
      completed := 0;
      logoutReasons := [];
    }

    /** `handleLogout(reason)`: the store signs out and the page goes to the login route. */
    method HandleLogout(reason: string)
      modifies this, user
      ensures logoutReasons == old(logoutReasons) + [reason]
      ensures isRefreshing == old(isRefreshing) && awaitingReply == old(awaitingReply)
      ensures subscribers == old(subscribers) && lastRefreshTime == old(lastRefreshTime)
      ensures refreshRequests == old(refreshRequests) && completed == old(completed)
      ensures !IsAuthenticated(user.State()) && user.storage == map[]
    {
      user.Logout();
      logoutReasons := logoutReasons + [reason];
    }

    /**
     * The response interceptor, up to the point where it waits. Only a
     * first 401 is handled. Without a refresh token it signs out and rejects
     * the original error; within the cooldown it rejects with a wait error
     * and leaves `_retry` unset; otherwise it stamps the time and sets
     * `_retry`. The first such request while no refresh is on becomes the
     * refresher; a later one is queued.
     */
    method OnResponseError(config: RequestConfig, error: AxiosError, now: int) returns (v: Verdict)
      requires Valid()
      modifies this, user, config
      ensures Valid() && completed == old(completed)
      ensures !FirstUnauthorized(error, old(config.retry)) ==>
        v == Rejected(error.thrown) && config.retry == old(config.retry)
        && lastRefreshTime == old(lastRefreshTime) && isRefreshing == old(isRefreshing) && awaitingReply == old(awaitingReply)
        && subscribers == old(subscribers) && refreshRequests == old(refreshRequests) && logoutReasons == old(logoutReasons)
        && user.State() == old(user.State()) && user.storage == old(user.storage)
      ensures FirstUnauthorized(error, old(config.retry)) && !Truthy(old(user.refreshToken)) ==>
        v == Rejected(error.thrown) && !config.retry && lastRefreshTime == old(lastRefreshTime)
        && logoutReasons == old(logoutReasons) + [RefreshTokenMissing]
        && !IsAuthenticated(user.State()) && user.storage == map[]
        && isRefreshing == old(isRefreshing) && awaitingReply == old(awaitingReply)
        && subscribers == old(subscribers) && refreshRequests == old(refreshRequests)
      ensures FirstUnauthorized(error, old(config.retry)) && Truthy(old(user.refreshToken))
              && now - old(lastRefreshTime) < RefreshCooldown ==>
        v == Rejected(ErrorObject(PleaseWait)) && !config.retry && lastRefreshTime == old(lastRefreshTime)
        && isRefreshing == old(isRefreshing) && awaitingReply == old(awaitingReply)
        && subscribers == old(subscribers) && refreshRequests == old(refreshRequests) && logoutReasons == old(logoutReasons)
        && user.State() == old(user.State()) && user.storage == old(user.storage)
      ensures FirstUnauthorized(error, old(config.retry)) && Truthy(old(user.refreshToken))
              && now - old(lastRefreshTime) >= RefreshCooldown ==>
        config.retry && lastRefreshTime == now && isRefreshing && logoutReasons == old(logoutReasons)
        && user.State() == old(user.State()) && user.storage == old(user.storage)
        && (if old(isRefreshing)
            then v == Queued && subscribers == old(subscribers) + [config] && refreshRequests == old(refreshRequests)
                 && awaitingReply == old(awaitingReply)
            else v == AwaitingRefresh && awaitingReply && subscribers == old(subscribers)
                 && refreshRequests == old(refreshRequests) + [old(user.refreshToken).value])
      ensures config.authorization == old(config.authorization)
      ensures v.Rejected? || v == Queued || v == AwaitingRefresh
    {
      if !FirstUnauthorized(error, config.retry) {
        return Rejected(error.thrown);
      }
      if !Truthy(user.refreshToken) {
        HandleLogout(RefreshTokenMissing);
        return Rejected(error.thrown);
      }
      if now - lastRefreshTime < RefreshCooldown {
        return Rejected(ErrorObject(PleaseWait));
      }
      lastRefreshTime := now;
      config.retry := true;
      if !isRefreshing {
        isRefreshing := true;
        awaitingReply := true;
        refreshRequests := refreshRequests + [user.refreshToken.value];
        return AwaitingRefresh;
      }
      subscribers := subscribers + [config];
      v := Queued;
    }

    /**
     * `onRefreshed(token)`: every queued request gets `Bearer <token>` and is
     * sent again (`released`, in queue order), and the queue is emptied.
     */
    method OnRefreshed(token: string) returns (released: seq<RequestConfig>)
      modifies this, set k | 0 <= k < |subscribers| :: subscribers[k]
      ensures released == old(subscribers) && subscribers == []
      ensures forall k :: 0 <= k < |released| ==> released[k].authorization == Some(BearerPrefix + token)
      ensures forall k :: 0 <= k < |released| ==> released[k].retry == old(released[k].retry)
      ensures isRefreshing == old(isRefreshing) && awaitingReply == old(awaitingReply)
      ensures lastRefreshTime == old(lastRefreshTime) && logoutReasons == old(logoutReasons)
      ensures refreshRequests == old(refreshRequests) && completed == old(completed)
    {
      released := subscribers;
      for i := 0 to |released|
        invariant released == old(subscribers) && unchanged(this)
        invariant forall k :: 0 <= k < i ==> released[k].authorization == Some(BearerPrefix + token)
        invariant forall k :: 0 <= k < |released| ==> released[k].retry == old(released[k].retry)
      {
        released[i].authorization := Some(BearerHeader(Some(token)));
      }
      subscribers := [];
    }

    /**
     * The reply of the refresh call arrives, for the request that started
     * it. When the store takes the new tokens and then holds a truthy access
     * token, `isRefreshing` is cleared, the queue is released and the
     * request is sent again. Otherwise the store signs out and the request
     * is rejected, with the refresh call's own exception when it threw, and
     * `isRefreshing` stays set.
     */
    method CompleteRefresh(reply: RefreshReply) returns (v: Verdict, released: seq<RequestConfig>)
      requires Valid() && awaitingReply
      modifies this, user, set k | 0 <= k < |subscribers| :: subscribers[k]
      ensures Valid() && !awaitingReply && completed == old(completed) + 1
      ensures refreshRequests == old(refreshRequests) && lastRefreshTime == old(lastRefreshTime)
      ensures v == Reissued || v.Rejected?
      ensures v == Reissued ==>
        !isRefreshing && released == old(subscribers) && subscribers == []
        && reply.RefreshReplied? && user.accessToken == Some(reply.tokens.accessToken)
        && (var d := DecodeJwt(reply.tokens.accessToken, user.atob, user.parseJson);
            d.Success? && TokensUpdated(old(user.State()), user.State(), old(user.storage), user.storage, reply.tokens, d.value))
        && (forall k :: 0 <= k < |released| ==> released[k].authorization == Some(BearerPrefix + reply.tokens.accessToken))
        && logoutReasons == old(logoutReasons)
      ensures v.Rejected? ==>
        v.reason == (if reply.RefreshFailed? then reply.thrown
                     else if !reply.isSuccess then ErrorObject(RefreshFailedMessage)
                     else ErrorObject(InvalidJwt))
        && isRefreshing && released == [] && subscribers == old(subscribers)
        && logoutReasons == old(logoutReasons) + [RefreshError]
        && !IsAuthenticated(user.State()) && user.storage == map[]
      ensures v == Reissued <==>
        reply.RefreshReplied? && reply.isSuccess && DecodeJwt(reply.tokens.accessToken, user.atob, user.parseJson).Success?
    {
      released := [];
      awaitingReply := false;
      completed := completed + 1;
      if reply.RefreshFailed? {
        HandleLogout(RefreshError);
        return Rejected(reply.thrown), [];
      }
      if !reply.isSuccess {
        HandleLogout(RefreshError);
        return Rejected(ErrorObject(RefreshFailedMessage)), [];
      }
      var updated := user.UpdateTokens(reply.tokens);
      if updated.Failure? {
        HandleLogout(RefreshError);
        return Rejected(ErrorObject(updated.error)), [];
      }
      if !Truthy(user.accessToken) {
        // The `REFRESH_FAILED` branch (sign out twice, then reject with
        // NoTokenAfterRefresh) cannot be taken: the store only accepts a
        // token that holds a '.', so the token it now holds is never empty.
        assert false;
      }
      isRefreshing := false;
      released := OnRefreshed(user.accessToken.value);
      v := Reissued;
    }
  }
}
