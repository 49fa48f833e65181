/** The signup page: the ordered validation chain, the payload of
    `POST /auth/`, and where a new account goes next. */
module SignupPage {
  import opened Common
  import opened Wire
  import opened Session

  /** The form's fields as typed; `role` is the selected role tab. */
  datatype SignupForm = SignupForm(
    role: string,
    firstName: string,
    lastName: string,
    email: string,
    phoneNo: string,
    password: string,
    confirmPassword: string,
    address: string)

  const MISSING_FIELDS: string := "Please fill in all required fields."
  const PASSWORD_MISMATCH: string := "Passwords do not match."
  const MISSING_ADDRESS: string := "Please enter your address."

  predicate RequiredFilled(f: SignupForm)
  {
    f.firstName != "" && f.lastName != "" && f.email != "" && f.phoneNo != "" && f.password != ""
  }

  /** The validation chain: the first failing check names the error, and
      None means the form may be sent. */
  function Validate(f: SignupForm): (r: Option<string>)
    ensures !RequiredFilled(f) <==> r == Some(MISSING_FIELDS)
    ensures r == Some(PASSWORD_MISMATCH) <==> RequiredFilled(f) && f.password != f.confirmPassword
    ensures r == Some(MISSING_ADDRESS) <==>
      RequiredFilled(f) && f.password == f.confirmPassword && f.role == CUSTOMER && f.address == ""
    ensures r.None? <==>
      RequiredFilled(f) && f.password == f.confirmPassword && (f.role != CUSTOMER || f.address != "")
  {
    if !RequiredFilled(f) then Some(MISSING_FIELDS)
    else if f.password != f.confirmPassword then Some(PASSWORD_MISMATCH)
    else if f.role == CUSTOMER && f.address == "" then Some(MISSING_ADDRESS)
    else None
  }

  /** Only a customer needs an address: for any other role, an empty
      address never blocks the form. */
  lemma AddressOnlyForCustomers(f: SignupForm)
    requires f.role != CUSTOMER && RequiredFilled(f) && f.password == f.confirmPassword
    ensures Validate(f).None?
    ensures Validate(f.(address := "")).None?
  {
  }

  /** The body of `POST /auth/`: the form's fields, its role, and the
      address only for a customer. */
  function Payload(f: SignupForm): (p: SignupPayload)
    ensures p.firstName == f.firstName && p.lastName == f.lastName && p.email == f.email
    ensures p.phoneNo == f.phoneNo && p.password == f.password && p.role == f.role
    ensures f.role == CUSTOMER ==> p.address == f.address
    ensures f.role != CUSTOMER ==> p.address == ""
  {
    SignupPayload(f.firstName, f.lastName, f.email, f.phoneNo, f.password, f.role,
                  if f.role == CUSTOMER then f.address else "")
  }

  /** A validated customer form always sends a non-empty address. */
  lemma CustomerPayloadHasAddress(f: SignupForm)
    requires f.role == CUSTOMER && Validate(f).None?
    ensures Payload(f).address != ""
  {
  }

  class Signup {
    const browser: Browser
    var error: Option<string>
    var loading: bool

    constructor (b: Browser)
      ensures browser == b && error == None && !loading
    {
      browser := b;
      error := None;
      loading := false;
    }

    /** `handleSubmit`. `signup` is the reply to `POST /auth/`; `login` is
        the reply to the owner's automatic `POST /auth/token`, whose body
        is the access token. */
    method HandleSubmit(f: SignupForm, signup: Reply<()>, login: Reply<string>)
      requires !loading
      modifies this`error, this`loading, browser`accessToken, browser`location, browser`sent
      ensures !loading
      ensures Validate(f).Some? ==>
        error == Validate(f) && browser.sent == old(browser.sent)
        && browser.location == old(browser.location) && browser.accessToken == old(browser.accessToken)
      ensures Validate(f).None? && signup.Failure? ==>
        error == Some(OrElse(signup.detail, "Signup failed."))
        && browser.sent == old(browser.sent) + [Post("/auth/", Signup(Payload(f)))]
        && browser.location == old(browser.location) && browser.accessToken == old(browser.accessToken)
      ensures Validate(f).None? && signup.Success? && f.role != OWNER ==>
        error == None && browser.location == "/login"
        && browser.sent == old(browser.sent) + [Post("/auth/", Signup(Payload(f)))]
        && browser.accessToken == old(browser.accessToken)
      ensures Validate(f).None? && signup.Success? && f.role == OWNER ==>
        browser.sent == old(browser.sent)
          + [Post("/auth/", Signup(Payload(f))), Post("/auth/token", Credentials(f.email, f.password))]
      ensures Validate(f).None? && signup.Success? && f.role == OWNER && login.Failure? ==>
        error == Some(OrElse(login.detail, "Auto-login failed."))
        && browser.location == old(browser.location) && browser.accessToken == old(browser.accessToken)
      ensures Validate(f).None? && signup.Success? && f.role == OWNER && login.Success? ==>
        error == None && browser.accessToken == Some(login.body) && browser.location == "/create-kitchen"
    {
      error := None;
      var invalid := Validate(f);
      if invalid.Some? {
        error := invalid;
        return;
      }
      loading := true;
      browser.sent := browser.sent + [Post("/auth/", Signup(Payload(f)))];
      if signup.Failure? {
        error := Some(OrElse(signup.detail, "Signup failed."));
      } else if f.role == OWNER {
        browser.sent := browser.sent + [Post("/auth/token", Credentials(f.email, f.password))];
        if login.Failure? {
          error := Some(OrElse(login.detail, "Auto-login failed."));
        } else {
          browser.accessToken := Some(login.body);
          browser.location := "/create-kitchen";
        }
      } else {
        browser.location := "/login";
      }
      loading := false;
    }
  }
}
