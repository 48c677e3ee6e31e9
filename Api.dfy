/**
 * The main API instance: a request interceptor that attaches the stored access
 * token, a response interceptor that answers a 401 with one refresh and one
 * retry, and `register`, which stores the tokens a sign-up returns.
 */
module Api {
  import opened Wrappers
  import opened Js
  import opened Storage
  import opened Http

  const BaseUrl := "http://8.210.211.217:8080/api/v1"
  const RefreshUrl := BaseUrl + "/auth/refresh"
  const SignUpPath := "/auth/sign-up"
  const DefaultHeaders := map["Content-Type" := "application/json"]

  /** What the server does with one request: its reply to it, to the refresh POST, and to the retry. */
  datatype Server = Server(first: Reply, refresh: Reply, retry: Reply)

  /** `error.response && error.response.status === 401`. */
  predicate Unauthorized(r: Reply) {
    r.Answer? && r.status == 401
  }

  /** The effect of one request: the new local storage, the config's final headers, the wire, the settlement. */
  datatype Exchange = Exchange(local: Store, headers: map<string, string>, calls: seq<Call>, outcome: Outcome)

  /**
   * One request through the instance. The request goes out with the bearer of
   * the stored `access_token`. Anything but a 401 settles as axios settles it. A
   * 401 with a non-empty stored `refresh_token` makes one refresh POST; if that
   * succeeds the new access token is stored and the same config, carrying the new
   * bearer, is sent once more through bare axios, whose outcome is final; if it
   * fails, or there is no refresh token, the original error is rejected. Nothing
   * is ever deleted from storage.
   */
  function Exchanged(local: Store, url: string, headers: map<string, string>, server: Server): (x: Exchange)
    ensures 1 <= |x.calls| <= 3
    ensures x.calls[0] == Send(url, WithBearer(headers, GetItem(local, AccessTokenKey)))
    ensures 2 <= |x.calls| <==> Unauthorized(server.first) && Truthy(GetItem(local, RefreshTokenKey))
    ensures 2 <= |x.calls| ==> x.calls[1] == RefreshPost(RefreshUrl, local[RefreshTokenKey])
    ensures |x.calls| == 3 <==> 2 <= |x.calls| && Settle(server.refresh).Resolved?
    ensures |x.calls| < 3 ==> x.local == local && x.outcome == Settle(server.first)
    ensures |x.calls| < 3 ==> x.headers == WithBearer(headers, GetItem(local, AccessTokenKey))
    ensures |x.calls| == 3 ==> x.calls[2] == Send(url, x.headers) && x.outcome == Settle(server.retry)
    ensures |x.calls| == 3 ==> x.local == local[AccessTokenKey := Field(server.refresh.data, "access_token")]
    ensures |x.calls| == 3 ==> AuthorizationHeader in x.headers && AccessTokenKey in x.local &&
                               x.headers[AuthorizationHeader] == Bearer(x.local[AccessTokenKey])
    ensures |x.calls| == 3 ==>
              x.headers == WithBearer(headers, GetItem(local, AccessTokenKey))[AuthorizationHeader := Bearer(x.local[AccessTokenKey])]
    ensures local.Keys <= x.local.Keys
    ensures forall k :: k in local && k != AccessTokenKey ==> x.local[k] == local[k]
  {
    var sent := WithBearer(headers, GetItem(local, AccessTokenKey));
    var refreshToken := GetItem(local, RefreshTokenKey);
    if !Unauthorized(server.first) || !Truthy(refreshToken) then
      Exchange(local, sent, [Send(url, sent)], Settle(server.first))
    else
      var refreshCall := RefreshPost(RefreshUrl, refreshToken.value);
      var refreshed := Settle(server.refresh);
      if refreshed.Rejected? then
        Exchange(local, sent, [Send(url, sent), refreshCall], Settle(server.first))
      else
        var token := Field(refreshed.response.data, "access_token");
        var retried := sent[AuthorizationHeader := Bearer(token)];
        Exchange(local[AccessTokenKey := token], retried, [Send(url, sent), refreshCall, Send(url, retried)],
                 Settle(server.retry))
  }

  /** A non-401 reply, or no reply at all, settles unchanged: no refresh call, storage untouched. */
  lemma OtherErrorsPassThrough(local: Store, url: string, headers: map<string, string>, server: Server)
    requires !Unauthorized(server.first)
    ensures var x := Exchanged(local, url, headers, server);
      |x.calls| == 1 && x.local == local && x.outcome == Settle(server.first)
  {
  }

  /** On a failed refresh the original 401 is rejected and the stored tokens stay as they were. */
  lemma FailedRefreshKeepsTokens(local: Store, url: string, headers: map<string, string>, server: Server)
    requires Unauthorized(server.first) && Truthy(GetItem(local, RefreshTokenKey))
    requires Settle(server.refresh).Rejected?
    ensures var x := Exchanged(local, url, headers, server);
      |x.calls| == 2 && x.local == local &&
      x.outcome == Rejected(HttpError(Some(Response(401, server.first.data))))
  {
  }

  /** `localStorage`, plus the log of every request the instance puts on the wire. */
  class Client {
    const browser: Browser
    var wire: seq<Call>

    constructor (browser: Browser)
      ensures this.browser == browser && wire == []
    {
      this.browser := browser;
      wire := [];
    }

    /** The request interceptor: assigns the bearer into `config.headers` when `access_token` is truthy. */
    method InterceptRequest(config: RequestConfig) returns (c: RequestConfig)
      modifies config
      ensures c == config
      ensures config.headers == WithBearer(old(config.headers), GetItem(browser.local, AccessTokenKey))
    {
      var accessToken := GetItem(browser.local, AccessTokenKey);
      if Truthy(accessToken) {
        config.headers := config.headers[AuthorizationHeader := Bearer(accessToken.value)];
      }
      c := config;
    }

    /** One request through both interceptors; `config` is the object the error carries as `error.config`. */
    method Request(config: RequestConfig, server: Server) returns (o: Outcome)
      modifies this, browser, config
      ensures var x := Exchanged(old(browser.local), config.url, old(config.headers), server);
        browser.local == x.local && config.headers == x.headers && wire == old(wire) + x.calls && o == x.outcome
      ensures browser.session == old(browser.session)
    {
      var c := InterceptRequest(config);
      wire := wire + [Send(c.url, c.headers)];
      var first := Settle(server.first);
      if first.Rejected? && first.error.response.Some? && first.error.response.value.status == 401 {
        var refreshToken := GetItem(browser.local, RefreshTokenKey);
        if Truthy(refreshToken) {
          wire := wire + [RefreshPost(RefreshUrl, refreshToken.value)];
          var refreshed := Settle(server.refresh);
          if refreshed.Resolved? {
            var newAccessToken := Field(refreshed.response.data, "access_token");
            browser.SetLocal(AccessTokenKey, newAccessToken);
            config.headers := config.headers[AuthorizationHeader := Bearer(newAccessToken)];
            // `axios(error.config)`: the bare instance, so no interceptor sees the retry
            wire := wire + [Send(config.url, config.headers)];
            o := Settle(server.retry);
            return;
          }
          // the refresh error is only logged
        }
      }
      o := first;
    }

    /**
     * `register`: a sign-up request through the instance. A 201 stores the
     * returned `access_token` and `refresh_token`; any other success stores
     * nothing more; every rejection is rethrown as it is.
     */
    method Register(server: Server) returns (thrown: Option<HttpError>)
      modifies this, browser
      ensures var x := Exchanged(old(browser.local), SignUpPath, DefaultHeaders, server);
        wire == old(wire) + x.calls &&
        (thrown.Some? <==> x.outcome.Rejected?) &&
        (thrown.Some? ==> thrown.value == x.outcome.error) &&
        browser.local == if x.outcome.Resolved? && x.outcome.response.status == 201
                         then x.local[AccessTokenKey := Field(x.outcome.response.data, "access_token")]
                                     [RefreshTokenKey := Field(x.outcome.response.data, "refresh_token")]
                         else x.local
      ensures browser.session == old(browser.session)
    {
      var config := new RequestConfig(SignUpPath, DefaultHeaders);
      var o := Request(config, server);
      if o.Resolved? && o.response.status == 201 {
        browser.SetLocal(AccessTokenKey, Field(o.response.data, "access_token"));
        browser.SetLocal(RefreshTokenKey, Field(o.response.data, "refresh_token"));
      }
      thrown := if o.Rejected? then Some(o.error) else None;
    }
  }
}
