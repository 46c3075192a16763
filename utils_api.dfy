/**
 * src/utils/api.ts: the client whose response interceptor sends a first
 * 401 again only when the cooldown refresh of src/utils/authApi.ts gave
 * true.
 */
module UtilsApi {
  import opened Wrappers
  import opened ApiTypes
  import opened Http

  const TokenRefreshError: string := "token refresh error"

  /**
   * The response interceptor. Only a first 401 (`_retry` unset) is handled,
   * and `_retry` is set first. A refresh that gave true sends the request
   * again with the current access token; one that gave false rejects with
   * `token refresh error`; a thrown refresh (the cooldown error among them)
   * is passed on as the rejection. Anything else is rejected unchanged.
   */
  method OnResponseError(config: RequestConfig, error: AxiosError, refresh: Settlement, accessTokenAfter: Option<string>)
    returns (v: Verdict)
    modifies config
    ensures !FirstUnauthorized(error, old(config.retry)) ==>
      v == Rejected(error.thrown) && config.retry == old(config.retry) && config.authorization == old(config.authorization)
    ensures FirstUnauthorized(error, old(config.retry)) ==> config.retry
    ensures FirstUnauthorized(error, old(config.retry)) && refresh == Resolved(true) ==>
      v == Reissued && config.authorization == Some(BearerHeader(accessTokenAfter))
    ensures FirstUnauthorized(error, old(config.retry)) && refresh == Resolved(false) ==>
      v == Rejected(ErrorObject(TokenRefreshError)) && config.authorization == old(config.authorization)
    ensures FirstUnauthorized(error, old(config.retry)) && refresh.Threw? ==>
      v == Rejected(refresh.thrown) && config.authorization == old(config.authorization)
  {
    if FirstUnauthorized(error, config.retry) {
      config.retry := true;
      match refresh
      case Resolved(ok) =>
        if ok {
          config.authorization := Some(BearerHeader(accessTokenAfter));
          return Reissued;
        }
        return Rejected(ErrorObject(TokenRefreshError));
      case Threw(thrown) =>
        return Rejected(thrown);
    }
    v := Rejected(error.thrown);
  }
}
