/** The second API instance, whose request interceptor reads the session store. */
module SessionApi {
  import opened Storage
  import opened Http

  /**
   * The request interceptor: assigns `Authorization: Bearer <t>` into the passed
   * config when session storage holds a truthy `accessToken` and returns the same
   * config; with no token the headers are left as they were.
   */
  method InterceptRequest(browser: Browser, config: RequestConfig) returns (c: RequestConfig)
    modifies config
    ensures c == config
    ensures config.headers == WithBearer(old(config.headers), GetItem(browser.session, SessionAccessTokenKey))
  {
    var token := GetItem(browser.session, SessionAccessTokenKey);
    if token.Some? && token.value != "" {
      config.headers := config.headers[AuthorizationHeader := Bearer(token.value)];
    }
    c := config;
  }
}
