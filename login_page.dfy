/** The login page: exchange the credentials for a token, store it, ask
    /me for the role and go to that role's home page. */
module LoginPage {
  import opened Common
  import opened Wire
  import opened Session

  /** Where a role lands after login: drivers on their dashboard, admins
      on the admin page, everybody else (also a reply without a Role) on
      the feed. */
  function RouteFor(role: Option<string>): (path: string)
    ensures role == Some(DRIVER) <==> path == "/driver"
    ensures role == Some(ADMIN) <==> path == "/admin"
    ensures role != Some(DRIVER) && role != Some(ADMIN) <==> path == "/feed"
  {
    if role == Some(DRIVER) then "/driver"
    else if role == Some(ADMIN) then "/admin"
    else "/feed"
  }

  class Login {
    const browser: Browser
    var error: Option<string>
    var loading: bool

    constructor (b: Browser)
      ensures browser == b && error == None && !loading
    {
      browser := b;
      error := None;
      loading := false;
    }

    /** `handleSubmit`. `token` is the reply to `POST /auth/token` (its
        body the access token); `me` is the reply to `GET /me` (its body
        the Role field, None when absent). */
    method HandleSubmit(email: string, password: string, token: Reply<string>, me: Reply<Option<string>>)
      modifies this`error, this`loading, browser`accessToken, browser`location, browser`sent
      ensures !loading
      ensures token.Failure? ==>
        error == Some(OrElse(token.detail, "Login failed."))
        && browser.sent == old(browser.sent) + [Post("/auth/token", Credentials(email, password))]
        && browser.accessToken == old(browser.accessToken) && browser.location == old(browser.location)
      ensures token.Success? ==>
        browser.accessToken == Some(token.body)
        && browser.sent == old(browser.sent) + [Post("/auth/token", Credentials(email, password)), Get("/me")]
      ensures token.Success? && me.Failure? ==>
        error == Some("Failed to fetch user info") && browser.location == old(browser.location)
      ensures token.Success? && me.Success? ==>
        error == None && browser.location == RouteFor(me.body)
    {
      loading := true;
      error := None;
      browser.sent := browser.sent + [Post("/auth/token", Credentials(email, password))];
      if token.Failure? {
        error := Some(OrElse(token.detail, "Login failed."));
      } else {
        browser.accessToken := Some(token.body);
        browser.sent := browser.sent + [Get("/me")];
        if me.Failure? {
          error := Some("Failed to fetch user info");
        } else {
          browser.location := RouteFor(me.body);
        }
      }
      loading := false;
    }
  }
}
