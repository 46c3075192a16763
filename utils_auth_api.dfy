/**
 * src/utils/authApi.ts: the token refresh with a 5000 ms cooldown, an
 * `isRefreshing` flag and a list of subscribers that wait for a refresh
 * another caller started.
 *
 * `Date.now()` is an argument. A subscriber stands for the caller whose
 * promise it resolves; the refresh call's reply arrives as a separate
 * event, `CompleteRefresh`.
 */
module UtilsAuthApi {
  import opened Wrappers
  import opened ApiTypes
  import opened AuthStore
  import opened Http

  const RefreshCooldown: int := 5000
  const PleaseWait: string := "please wait 5 seconds and try again"
  const RefreshTokenMissing: string := "REFRESH_TOKEN_MISSING"
  const RefreshError: string := "REFRESH_ERROR"

  /** What `handleUnauthorized` gives a caller at once. */
  datatype Call =
    | CooldownError(thrown: Thrown)
    | Settled(value: bool)
    | Subscribed             // waits for the pending refresh
    | Refreshing             // started the refresh call and awaits its reply

  class CooldownRefresher {
    const user: UserStore
    var isRefreshing: bool
    /** The callers each queued subscriber will resolve with true, in order. */
    var subscribers: seq<nat>
    var lastRefreshTime: int
    /** The refresh token of every `UserService.refreshToken` call, in order. */
    var refreshRequests: seq<string>
    /** Refresh calls whose reply has arrived. */
    var completed: nat
    var logoutReasons: seq<string>

    /** At most one refresh call is outstanding, and `isRefreshing` says whether one is. */
    predicate Valid()
      reads this
    {
      |refreshRequests| == completed + (if isRefreshing then 1 else 0)
    }

    constructor(user: UserStore)
      ensures Valid() && this.user == user
      ensures !isRefreshing && subscribers == [] && lastRefreshTime == 0
      ensures refreshRequests == [] && logoutReasons == []
    {
      this.user := user;
      isRefreshing := false;
      subscribers := [];
      lastRefreshTime := 0;
      refreshRequests := [];
      completed := 0;
      logoutReasons := [];
    }

    /** `handleLogout(reason)`: the store signs out and the page goes to the login route. */
    method HandleLogout(reason: string)
      modifies this, user
      ensures logoutReasons == old(logoutReasons) + [reason]
      ensures isRefreshing == old(isRefreshing) && subscribers == old(subscribers)
      ensures lastRefreshTime == old(lastRefreshTime)
      ensures refreshRequests == old(refreshRequests) && completed == old(completed)
      ensures !IsAuthenticated(user.State()) && user.storage == map[]
    {
      user.Logout();
      logoutReasons := logoutReasons + [reason];
    }

    /**
     * `handleUnauthorized` at time `now`. Within the cooldown it throws
     * before touching anything. Otherwise it stamps the time, even when it
     * then finds no refresh token and signs out; while a refresh is pending
     * the caller subscribes; otherwise the caller starts the refresh call.
     */
    method HandleUnauthorized(now: int, caller: nat) returns (c: Call)
      requires Valid()
      modifies this, user
      ensures Valid() && completed == old(completed)
      ensures now - old(lastRefreshTime) < RefreshCooldown ==>
        c == CooldownError(ErrorObject(PleaseWait)) && lastRefreshTime == old(lastRefreshTime)
        && isRefreshing == old(isRefreshing) && subscribers == old(subscribers)
        && refreshRequests == old(refreshRequests) && logoutReasons == old(logoutReasons)
        && user.State() == old(user.State()) && user.storage == old(user.storage)
      ensures now - old(lastRefreshTime) >= RefreshCooldown ==> lastRefreshTime == now
      ensures now - old(lastRefreshTime) >= RefreshCooldown && !Truthy(old(user.refreshToken)) ==>
        c == Settled(false) && logoutReasons == old(logoutReasons) + [RefreshTokenMissing]
        && !IsAuthenticated(user.State()) && user.storage == map[]
        && isRefreshing == old(isRefreshing) && subscribers == old(subscribers)
        && refreshRequests == old(refreshRequests)
      ensures now - old(lastRefreshTime) >= RefreshCooldown && Truthy(old(user.refreshToken)) && old(isRefreshing) ==>
        c == Subscribed && subscribers == old(subscribers) + [caller] && isRefreshing
        && refreshRequests == old(refreshRequests) && logoutReasons == old(logoutReasons)
        && user.State() == old(user.State()) && user.storage == old(user.storage)
      ensures now - old(lastRefreshTime) >= RefreshCooldown && Truthy(old(user.refreshToken)) && !old(isRefreshing) ==>
        c == Refreshing && isRefreshing && subscribers == old(subscribers)
        && refreshRequests == old(refreshRequests) + [old(user.refreshToken).value]
        && logoutReasons == old(logoutReasons)
        && user.State() == old(user.State()) && user.storage == old(user.storage)
    {
      if now - lastRefreshTime < RefreshCooldown {
        return CooldownError(ErrorObject(PleaseWait));
      }
      lastRefreshTime := now;
      if !Truthy(user.refreshToken) {
        HandleLogout(RefreshTokenMissing);
        return Settled(false);
      }
      if isRefreshing {
        subscribers := subscribers + [caller];
        return Subscribed;
      }
      isRefreshing := true;
      refreshRequests := refreshRequests + [user.refreshToken.value];
      c := Refreshing;
    }

    /**
     * The reply of the pending refresh call arrives. On success the store
     * takes the new tokens, every queued subscriber runs once (`released`,
     * in queue order) and the queue is emptied. On failure the store signs
     * out with `REFRESH_ERROR` and the subscribers are neither run nor
     * removed. `isRefreshing` is false afterwards either way.
     */
    method CompleteRefresh(reply: RefreshReply) returns (value: bool, released: seq<nat>)
      requires Valid() && isRefreshing
      modifies this, user
      ensures Valid() && !isRefreshing && completed == old(completed) + 1
      ensures refreshRequests == old(refreshRequests) && lastRefreshTime == old(lastRefreshTime)
      ensures value ==>
        reply.RefreshReplied? && released == old(subscribers) && subscribers == []
        && logoutReasons == old(logoutReasons)
        && var d := DecodeJwt(reply.tokens.accessToken, user.atob, user.parseJson);
           d.Success? && TokensUpdated(old(user.State()), user.State(), old(user.storage), user.storage, reply.tokens, d.value)
      ensures !value ==>
        released == [] && subscribers == old(subscribers)
        && logoutReasons == old(logoutReasons) + [RefreshError] && !IsAuthenticated(user.State()) && user.storage == map[]
      ensures value <==>
        reply.RefreshReplied? && reply.isSuccess && DecodeJwt(reply.tokens.accessToken, user.atob, user.parseJson).Success?
    {
      released := [];
      if reply.RefreshReplied? && reply.isSuccess {
        var updated := user.UpdateTokens(reply.tokens);
        if updated.Success? {
          released := subscribers;
          subscribers := [];
          value := true;
        } else {
          HandleLogout(RefreshError);
          value := false;
        }
      } else {
        HandleLogout(RefreshError);
        value := false;
      }
      // finally
      isRefreshing := false;
      completed := completed + 1;
    }
  }

  /**
   * While a refresh is pending, a second caller arriving within 5000 ms of
   * the one that started it gets the cooldown error instead of joining: the
   * subscriber path is reached only by a refresh that outlasts the cooldown.
   */
  method CooldownShadowsSubscribers(refresher: CooldownRefresher, start: int, later: int)
    returns (first: Call, second: Call)
    requires refresher.Valid() && !refresher.isRefreshing
    requires start - refresher.lastRefreshTime >= RefreshCooldown && Truthy(refresher.user.refreshToken)
    requires start <= later < start + RefreshCooldown
    modifies refresher, refresher.user
    ensures first == Refreshing && second == CooldownError(ErrorObject(PleaseWait))
    ensures refresher.isRefreshing && refresher.subscribers == old(refresher.subscribers)
    ensures |refresher.refreshRequests| == |old(refresher.refreshRequests)| + 1
  {
    first := refresher.HandleUnauthorized(start, 0);
    second := refresher.HandleUnauthorized(later, 1);
  }
}
