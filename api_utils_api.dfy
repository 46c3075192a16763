/**
 * src/utils/apiUtils/api.ts: the client whose response interceptor sends a
 * first 401 again once the single-flight refresh has settled, whatever it
 * settled with.
 */
module ApiUtilsApi {
  import opened Wrappers
  import opened ApiTypes
  import opened Http

  const TokenRefreshFailed: string := "Token refresh failed"

  /**
   * The response interceptor. Only a first 401 (`_retry` unset) is handled,
   * and `_retry` is set before the refresh is awaited. The request is sent
   * again with the access token read after the refresh even when the
   * refresh gave false; only a thrown refresh rejects, with
   * `Token refresh failed`. Anything else is rejected unchanged.
   */
  method OnResponseError(config: RequestConfig, error: AxiosError, refresh: Settlement, accessTokenAfter: Option<string>)
    returns (v: Verdict)
    modifies config
    ensures !FirstUnauthorized(error, old(config.retry)) ==>
      v == Rejected(error.thrown) && config.retry == old(config.retry) && config.authorization == old(config.authorization)
    ensures FirstUnauthorized(error, old(config.retry)) ==> config.retry
    ensures FirstUnauthorized(error, old(config.retry)) && refresh.Resolved? ==>
      v == Reissued && config.authorization == Some(BearerHeader(accessTokenAfter))
    ensures FirstUnauthorized(error, old(config.retry)) && refresh.Threw? ==>
      v == Rejected(ErrorObject(TokenRefreshFailed)) && config.authorization == old(config.authorization)
  {
    if FirstUnauthorized(error, config.retry) {
      config.retry := true;
      if refresh.Resolved? {
        config.authorization := Some(BearerHeader(accessTokenAfter));
        return Reissued;
      }
      return Rejected(ErrorObject(TokenRefreshFailed));
    }
    v := Rejected(error.thrown);
  }
}
