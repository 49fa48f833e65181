/** The create-kitchen page: only a logged-in owner stays on it, and a
    valid form becomes one `POST /homekitchens/` whose kitchen starts out
    pending approval. */
module CreateKitchenPage {
  import opened Common
  import opened Wire
  import opened Session
  import opened Db
  import opened KitchenRouter
  import opened AdminRouter

  const MISSING_NAME_OR_ADDRESS: string := "Name and address are required."

  /** The form check: both the name and the address are needed. */
  function Validate(name: string, address: string): (r: Option<string>)
    ensures r.None? <==> name != "" && address != ""
    ensures r.Some? ==> r.value == MISSING_NAME_OR_ADDRESS
  {
    if name == "" || address == "" then Some(MISSING_NAME_OR_ADDRESS) else None
  }

  /** The body the page posts: no rating and no verifier yet, approval
      "pending", and no logo when the logo field is empty. */
  function Payload(name: string, address: string, logo: string): (p: KitchenPayload)
    ensures p.name == name && p.address == address
    ensures p.averageRating.None? && p.verifiedBy.None? && p.approvalStatus == "pending"
    ensures p.logo.None? <==> logo == ""
    ensures p.logo.Some? ==> p.logo.value == logo
  {
    KitchenPayload(name, address, None, None, "pending", if logo == "" then None else Some(logo))
  }

  /** The request the backend decodes from that body. */
  function Decoded(p: KitchenPayload): HomeKitchenCreate
  {
    HomeKitchenCreate(p.name, p.address, p.averageRating, p.verifiedBy, Some(p.approvalStatus), p.logo)
  }

  /** A kitchen created through this page is listed among the pending
      kitchens until an admin approves it. */
  lemma {:induction false} CreatedKitchenIsPending(kitchens: map<int, KitchenRow>, id: int, ownerUid: int,
                                                   name: string, address: string, logo: string)
    ensures id in PendingKitchens(kitchens[id := KitchenRow(ownerUid, name, address,
      Decoded(Payload(name, address, logo)).averageRating, Decoded(Payload(name, address, logo)).verifiedBy,
      Decoded(Payload(name, address, logo)).approvalStatus, Decoded(Payload(name, address, logo)).logo)])
  {
    var req := Decoded(Payload(name, address, logo));
    assert req.approvalStatus == Some("pending");
  }

  class CreateKitchen {
    const browser: Browser
    var token: Option<string>
    var error: Option<string>
    var loading: bool

    constructor (b: Browser)
      ensures browser == b && token == None && error == None && !loading
    {
      browser := b;
      token := None;
      error := None;
      loading := false;
    }

    /** The mount effect: without a token go to /login; otherwise ask /me/
        and go to /login unless it answers 200 with Role "owner".
        `status` and `role` are the /me/ reply's status and Role field. */
    method Mount(status: int, role: Option<string>)
      modifies this`token, browser`location, browser`sent
      ensures !HasToken(browser.accessToken) ==>
        browser.location == "/login" && browser.sent == old(browser.sent) && token == old(token)
      ensures HasToken(browser.accessToken) ==>
        token == browser.accessToken && browser.sent == old(browser.sent) + [Get("/me/")]
      ensures HasToken(browser.accessToken) && (status != 200 || role != Some(OWNER)) ==>
        browser.location == "/login"
      ensures HasToken(browser.accessToken) && status == 200 && role == Some(OWNER) ==>
        browser.location == old(browser.location)
    {
      if !HasToken(browser.accessToken) {
        browser.location := "/login";
        return;
      }
      token := browser.accessToken;
      browser.sent := browser.sent + [Get("/me/")];
      if status != 200 || role != Some(OWNER) {
        browser.location := "/login";
      }
    }

    /** `handleSubmit`: validate, post the payload, and go to /feed on
        success or show the reply's detail (or a fixed message). */
    method HandleSubmit(name: string, address: string, logo: string, reply: Reply<()>)
      requires !loading
      modifies this`error, this`loading, browser`location, browser`sent
      ensures !loading
      ensures Validate(name, address).Some? ==>
        error == Validate(name, address) && browser.sent == old(browser.sent)
        && browser.location == old(browser.location)
      ensures Validate(name, address).None? ==>
        browser.sent == old(browser.sent) + [Post("/homekitchens/", Kitchen(Payload(name, address, logo)))]
      ensures Validate(name, address).None? && reply.Success? ==>
        error == None && browser.location == "/feed"
      ensures Validate(name, address).None? && reply.Failure? ==>
        error == Some(OrElse(reply.detail, "Failed to create kitchen")) && browser.location == old(browser.location)
    {
      error := None;
      var invalid := Validate(name, address);
      if invalid.Some? {
        error := invalid;
        return;
      }
      loading := true;
      browser.sent := browser.sent + [Post("/homekitchens/", Kitchen(Payload(name, address, logo)))];
      if reply.Failure? {
        error := Some(OrElse(reply.detail, "Failed to create kitchen"));
      } else {
        browser.location := "/feed";
      }
      loading := false;
    }
  }
}
