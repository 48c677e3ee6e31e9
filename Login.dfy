/**
 * The login page: `Login` posts the credentials, stores the returned token,
 * routes by role and reports what happened; `checkAuth` sends a visitor without
 * a stored token to /login.
 */
module Login {
  import opened Wrappers
  import opened Js
  import opened Storage
  import opened Http
  import App

  /** The login call as the page sees it. */
  datatype LoginReply =
    | Received(status: int, data: Body, roles: Option<seq<string>>)  // a resolved response; `roles` None when absent
    | Refused(status: int, data: Body)                                // an axios error with a response
    | NoReply                                                         // no response, or a failure before one

  /** A toast the page shows. */
  datatype Notice = Success(text: string) | Failure(text: string)

  const SignedIn := "Muvaffaqiyatli kirish!"
  const UnknownRole := "Sizning rolingiz aniqlanmadi."
  const TryAgain := "Kirish muvaffaqiyatsiz. Iltimos, qaytadan urinib ko'ring."
  const GoRegister := "Tizimga kirish ro'yxatdan o'ting."
  const ErrorPrefix := "Kirishda xatolik yuz berdi: "
  const SomethingFailed := "Kirishda xatolik yuz berdi!"

  /** The role check: ROLE_ADMIN goes to /admin and wins over ROLE_USER, which goes to /. */
  function RoleRoute(roles: seq<string>): (r: Option<string>)
    ensures r == Some("/admin") <==> "ROLE_ADMIN" in roles
    ensures r == Some("/") <==> "ROLE_ADMIN" !in roles && "ROLE_USER" in roles
    ensures r.None? <==> "ROLE_ADMIN" !in roles && "ROLE_USER" !in roles
  {
    if "ROLE_ADMIN" in roles then Some("/admin") else if "ROLE_USER" in roles then Some("/") else None
  }

  /** `checkAuth`: navigate to /login exactly when `token` is missing or empty. */
  function CheckAuth(local: Store): (redirect: Option<string>)
    ensures redirect.Some? <==> !Truthy(GetItem(local, TokenKey))
    ensures redirect.Some? ==> redirect.value == "/login"
  {
    if !Truthy(GetItem(local, TokenKey)) then Some("/login") else None
  }

  predicate SignedInReply(reply: LoginReply) {
    reply.Received? && reply.status == 200
  }

  class LoginPage {
    var loading: bool
    var notices: seq<Notice>

    constructor ()
      ensures !loading && notices == []
    {
      loading := false;
      notices := [];
    }

    /**
     * `Login`. On status 200 the token and `isLoggedIn = "true"` are stored before
     * the roles are looked at, so they stay stored when no known role follows
     * (and when `roles` is missing, in which case the failing `includes` lands in
     * the generic error branch). Any other outcome stores nothing. `loading` is
     * true while the request is out and false on every path afterwards.
     */
    method Login(browser: Browser, reply: LoginReply) returns (route: Option<string>, loadingWhileWaiting: bool)
      modifies this, browser
      ensures loadingWhileWaiting && !loading
      ensures browser.session == old(browser.session)
      ensures App.PrivateRoute(browser.session) == App.PrivateRoute(old(browser.session))
      ensures SignedInReply(reply) ==>
                browser.local == old(browser.local)[TokenKey := Field(reply.data, "accessToken")][IsLoggedInKey := "true"]
      ensures !SignedInReply(reply) ==> browser.local == old(browser.local)
      ensures route == if SignedInReply(reply) && reply.roles.Some? then RoleRoute(reply.roles.value) else None
      ensures SignedInReply(reply) && reply.roles.Some? ==>
                notices == old(notices) + [Success(SignedIn)] +
                           (if RoleRoute(reply.roles.value).None? then [Failure(UnknownRole)] else [])
      ensures SignedInReply(reply) && reply.roles.None? ==>
                notices == old(notices) + [Success(SignedIn), Failure(SomethingFailed)]
      ensures reply.Received? && reply.status != 200 ==> notices == old(notices) + [Failure(TryAgain)]
      ensures reply.Refused? && reply.status == 401 ==> notices == old(notices) + [Failure(GoRegister)]
      ensures reply.Refused? && reply.status != 401 ==>
                notices == old(notices) + [Failure(ErrorPrefix + Field(reply.data, "message"))]
      ensures reply.NoReply? ==> notices == old(notices) + [Failure(SomethingFailed)]
    {
      loading := true;
      loadingWhileWaiting := loading;
      route := None;
      match reply {
        case Received(status, data, roles) =>
          if status == 200 {
            browser.SetLocal(TokenKey, Field(data, "accessToken"));
            browser.SetLocal(IsLoggedInKey, "true");
            notices := notices + [Success(SignedIn)];
            if roles.None? {
              // `roles.includes` throws; the catch block reports a generic failure
              notices := notices + [Failure(SomethingFailed)];
            } else {
              route := RoleRoute(roles.value);
              if route.None? {
                notices := notices + [Failure(UnknownRole)];
              }
            }
          } else {
            notices := notices + [Failure(TryAgain)];
          }
        case Refused(status, data) =>
          if status == 401 {
            notices := notices + [Failure(GoRegister)];
          } else {
            notices := notices + [Failure(ErrorPrefix + Field(data, "message"))];
          }
        case NoReply =>
          notices := notices + [Failure(SomethingFailed)];
      }
      loading := false;
    }
  }

  /** After a 200 with a non-empty token, `checkAuth` no longer redirects. */
  lemma SignedInPassesCheckAuth(local: Store, token: string)
    requires token != ""
    ensures CheckAuth(local[TokenKey := token][IsLoggedInKey := "true"]).None?
  {
  }
}
