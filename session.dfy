/** The browser state the pages share: localStorage, the router, and the
    requests sent to the API. */
module Session {
  import opened Common
  import opened Wire

  class Browser {
    /** localStorage "cart"; None when the key is absent. */
    var storedCart: Option<seq<CartLine>>
    /** localStorage "access_token"; None when the key is absent. */
    var accessToken: Option<string>
    /** The path the router last navigated to. */
    var location: string
    /** Every request sent so far, oldest first. */
    var sent: seq<Request>

    constructor (cart: Option<seq<CartLine>>, token: Option<string>, path: string)
      ensures storedCart == cart && accessToken == token && location == path && sent == []
    {
      storedCart := cart;
      accessToken := token;
      location := path;
      sent := [];
    }
  }

  /** `JSON.parse(localStorage.getItem("cart") || "[]")`. */
  function LoadedCart(stored: Option<seq<CartLine>>): (c: seq<CartLine>)
    ensures stored.Some? ==> c == stored.value
    ensures stored.None? ==> c == []
  {
    if stored.Some? then stored.value else []
  }

  /** `localStorage.getItem("access_token")` is truthy: present and not empty. */
  predicate HasToken(token: Option<string>)
    ensures token.None? || token == Some("") ==> !HasToken(token)
    ensures token.Some? && token.value != "" ==> HasToken(token)
  {
    token.Some? && token.value != ""
  }

  /** The effect the cart, checkout and driver pages run on mount: without
      a token, navigate to /login. */
  method RedirectIfLoggedOut(b: Browser)
    modifies b`location
    ensures !HasToken(b.accessToken) ==> b.location == "/login"
    ensures HasToken(b.accessToken) ==> b.location == old(b.location)
  {
    if !HasToken(b.accessToken) {
      b.location := "/login";
    }
  }
}
