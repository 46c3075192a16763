/**
 * What the three axios clients share: the request configuration their
 * interceptors update in place, the request interceptor that attaches an
 * RFC 6750 (section 2.1) Bearer `Authorization` header, and the shapes of
 * a failed request and of a settled token refresh.
 */
module Http {
  import opened Wrappers
  import opened ApiTypes
  import opened AuthStore

  /** An axios request configuration: the `_retry` mark and the `Authorization` header. */
  class RequestConfig {
    var retry: bool
    var authorization: Option<string>

    constructor(authorization: Option<string>)
      ensures !retry && this.authorization == authorization
    {
      retry := false;
      this.authorization := authorization;
    }
  }

  /** A rejected request as a response interceptor sees it: the status, when a response arrived. */
  datatype AxiosError = AxiosError(status: Option<int>, thrown: Thrown)

  /** What `handleUnauthorized` settled with: a boolean, or a thrown error. */
  datatype Settlement = Resolved(value: bool) | Threw(thrown: Thrown)

  /** How a response interceptor ends a failed request. */
  datatype Verdict =
    | Rejected(reason: Thrown)
    | Reissued        // `api(originalRequest)`: the request is sent again
    | AwaitingRefresh // this request started the refresh and waits for it
    | Queued          // this request waits for a refresh another request started

  /** `userService.refreshToken` as awaited: the reply, or a thrown error. */
  datatype RefreshReply = RefreshReplied(isSuccess: bool, message: Option<string>, tokens: TokenPair) | RefreshFailed(thrown: Thrown)

  const BearerPrefix: string := "Bearer "

  /**
   * The template literal `Bearer ${accessToken}`: a null token is written
   * out as the text `null`.
   */
  function BearerHeader(accessToken: Option<string>): (h: string)
    ensures |h| >= |BearerPrefix| && h[..|BearerPrefix|] == BearerPrefix
    ensures h[|BearerPrefix|..] == accessToken.GetOr("null")
  {
    BearerPrefix + accessToken.GetOr("null")
  }

  /** The status and `_retry` test every response interceptor starts with. */
  predicate FirstUnauthorized(error: AxiosError, retry: bool) {
    error.status == Some(401) && !retry
  }

  /**
   * The request interceptor of every client: with a truthy access token the
   * request carries `Bearer <token>`; otherwise its headers stay as they were.
   */
  method AttachBearer(config: RequestConfig, accessToken: Option<string>)
    modifies config
    ensures config.retry == old(config.retry)
    ensures Truthy(accessToken) ==> config.authorization == Some(BearerPrefix + accessToken.value)
    ensures !Truthy(accessToken) ==> config.authorization == old(config.authorization)
  {
    if Truthy(accessToken) {
      config.authorization := Some(BearerHeader(accessToken));
    }
  }
}
