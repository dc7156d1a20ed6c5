/**
 * The sign-in and registration page: the screen it opens on, the buttons
 * that move between its screens, the password check of the first signup
 * step, the request it submits at the last step, and where a successful
 * login leads.
 *
 * Toasts, animations and page navigation are represented by the notice or
 * route the handlers produce; the remote calls by their answers.
 */
module SignupWizard {
  import opened JsValues
  import opened SubscriptionRequests
  import AdminDashboard

  /** The screens of the page. */
  datatype Mode = Welcome | SignupStep1 | BillingSummary | SignupStep2 | SignupSuccess | AdminLogin | ClientLogin

  /** The screen for the `mode` query parameter (`None` when absent). */
  function InitialMode(param: Option<string>): Mode {
    if param == Some("login") then ClientLogin
    else if param == Some("admin") then AdminLogin
    else Welcome
  }

  /** "login" opens the client login, "admin" the administrator login, anything else or nothing the welcome screen. */
  lemma InitialModeCases(param: Option<string>)
    ensures InitialMode(param) == ClientLogin <==> param == Some("login")
    ensures InitialMode(param) == AdminLogin <==> param == Some("admin")
    ensures InitialMode(param) == Welcome <==> param != Some("login") && param != Some("admin")
  {
  }

  /** The screens the buttons of a screen lead to (the success screen only leads off the page). */
  function Buttons(mode: Mode): set<Mode> {
    match mode
    case Welcome => {SignupStep1, AdminLogin}
    case ClientLogin => {Welcome}
    case AdminLogin => {Welcome}
    case SignupStep1 => {Welcome}
    case BillingSummary => {SignupStep1, SignupStep2}
    case SignupStep2 => {BillingSummary}
    case SignupSuccess => {}
  }

  /**
   * No button leads to the billing summary except the way back from the last
   * step, none to the success screen, and none to the client login, which only
   * the query parameter opens.
   */
  lemma ButtonsGuardTheSteps(mode: Mode)
    ensures BillingSummary in Buttons(mode) <==> mode == SignupStep2
    ensures SignupSuccess !in Buttons(mode) && ClientLogin !in Buttons(mode)
  {
  }

  /** The form fields; every text input holds a string, the proof is the chosen file's name. */
  datatype FormData = FormData(
    name: string,
    email: string,
    password: string,
    confirmPassword: string,
    transactionId: string,
    paymentProof: Option<string>,
    accountType: string,
    companyName: string,
    companyGst: string,
    address: string,
    city: string,
    state: string,
    zip: string,
    phone: string)

  const EmptyForm := FormData("", "", "", "", "", None, "individual", "", "", "", "", "", "", "")

  /** The text inputs of the form, each named after the field it edits. */
  datatype TextInput =
    | NameInput | EmailInput | PasswordInput | ConfirmPasswordInput | TransactionIdInput
    | CompanyNameInput | CompanyGstInput | AddressInput | CityInput | StateInput | ZipInput | PhoneInput

  /** The value the input `f` shows. */
  function InputValue(data: FormData, f: TextInput): string {
    match f
    case NameInput => data.name
    case EmailInput => data.email
    case PasswordInput => data.password
    case ConfirmPasswordInput => data.confirmPassword
    case TransactionIdInput => data.transactionId
    case CompanyNameInput => data.companyName
    case CompanyGstInput => data.companyGst
    case AddressInput => data.address
    case CityInput => data.city
    case StateInput => data.state
    case ZipInput => data.zip
    case PhoneInput => data.phone
  }

  /**
   * `{ ...data, [e.target.name]: e.target.value }`: the input typed into
   * shows the new value, every other input keeps its own, and the proof and
   * account type are untouched.
   */
  function WithInput(data: FormData, f: TextInput, value: string): (r: FormData)
    ensures InputValue(r, f) == value
    ensures forall g :: g != f ==> InputValue(r, g) == InputValue(data, g)
    ensures r.paymentProof == data.paymentProof && r.accountType == data.accountType
  {
    match f
    case NameInput => data.(name := value)
    case EmailInput => data.(email := value)
    case PasswordInput => data.(password := value)
    case ConfirmPasswordInput => data.(confirmPassword := value)
    case TransactionIdInput => data.(transactionId := value)
    case CompanyNameInput => data.(companyName := value)
    case CompanyGstInput => data.(companyGst := value)
    case AddressInput => data.(address := value)
    case CityInput => data.(city := value)
    case StateInput => data.(state := value)
    case ZipInput => data.(zip := value)
    case PhoneInput => data.(phone := value)
  }

  /** The toasts the handlers raise. */
  datatype Notice =
    | PasswordMismatch
    | WeakPassword
    | PaymentRequired
    | RegistrationFailed(error: string)
    | VerificationRequired
    | AccessDenied(error: string)

  const MinPasswordLength := 6

  /** The check of the first signup step: matching passwords first, then the length. */
  function PasswordCheck(password: string, confirm: string): Option<Notice> {
    if password != confirm then Some(PasswordMismatch)
    else if |password| < MinPasswordLength then Some(WeakPassword)
    else None
  }

  /**
   * A mismatch is reported whatever the length, a short password only when
   * both entries agree, and the step passes exactly for two equal entries of
   * at least six characters.
   */
  lemma PasswordCheckOrder(password: string, confirm: string)
    ensures password != confirm ==> PasswordCheck(password, confirm) == Some(PasswordMismatch)
    ensures password == confirm && |password| < MinPasswordLength ==> PasswordCheck(password, confirm) == Some(WeakPassword)
    ensures PasswordCheck(password, confirm).None? <==> password == confirm && |password| >= MinPasswordLength
  {
  }

  /** The request the last step submits: the trimmed e-mail, and company details only for a company account. */
  function Payload(data: FormData): SignupRequest {
    var company := data.accountType == "company";
    SignupRequest(
      Str(data.name), Trim(data.email), data.password, Str(data.transactionId), data.paymentProof,
      Undefined,
      Str(data.accountType),
      Str(if company then data.companyName else ""),
      Str(if company then data.companyGst else ""),
      Str(data.address), Str(data.city), Str(data.state), Str(data.zip), Str(data.phone),
      Undefined)
  }

  /**
   * The registration the page asks for: pending, under the trimmed e-mail,
   * which is also the company e-mail; an administrator exactly when the
   * trimmed e-mail is one of the administrator addresses; without company
   * name or GST number unless the account is a company's.
   */
  lemma PayloadMetadata(data: FormData, proofUrl: Option<string>)
    ensures var req := Payload(data); var m := Metadata(req, proofUrl);
      && req.email == Trim(data.email)
      && m.subscriptionStatus == "pending"
      && m.companyEmail == Str(Trim(data.email))
      && (m.role == "admin" <==> IsAdminEmail(Trim(data.email)))
      && (data.accountType != "company" ==> m.companyName == Str("") && m.companyGst == Str(""))
      && (data.accountType == "company" ==> m.companyName == Str(data.companyName) && m.companyGst == Str(data.companyGst))
  {
  }

  /** Surrounding white space typed around an e-mail does not reach the registration. */
  lemma PayloadEmailHasNoOuterSpace(data: FormData)
    ensures var e := Payload(data).email; e == [] || (!IsJsWhitespace(e[0]) && !IsJsWhitespace(e[|e| - 1]))
  {
    TrimHasNoOuterSpace(data.email);
  }

  // ---------------------------------------------------------------------------
  // Login routing
  // ---------------------------------------------------------------------------

  datatype Route = AdminRoute | HomeRoute

  /** After a successful login: the dashboard for the admin role or an e-mail mentioning "admin" or "edienviro", home otherwise. */
  function LoginDestination(role: JsValue, email: string): Route {
    if role == Str("admin") || Contains(email, "admin") || Contains(email, "edienviro") then AdminRoute else HomeRoute
  }

  /** The notice of a failed login: a verification reminder for an unconfirmed address, the error otherwise. */
  function LoginFailureNotice(error: string): Notice {
    if Contains(error, "email_not_confirmed") || Contains(error, "Email not confirmed") then VerificationRequired
    else AccessDenied(error)
  }

  /** The role a login result carries, undefined when it carries no user. */
  function RoleOf(user: Option<AuthUser>): JsValue {
    if user.Some? then user.value.role else Undefined
  }

  /** Everyone the dashboard admits is sent to it after logging in. */
  lemma DashboardUsersRoutedToIt(u: AuthUser)
    requires AdminDashboard.Guard(Some(u)) == AdminDashboard.Stay
    ensures LoginDestination(u.role, u.email) == AdminRoute
  {
    if u.role != Str("admin") {
      assert u.email == MasterAdminEmail;
      assert OccursAt(u.email, "edienviro", 3);
    }
  }

  /**
   * The converse fails: an e-mail that merely mentions "admin" is sent to the
   * dashboard, whose guard sends a client home again.
   */
  lemma RoutedButTurnedAway()
    ensures var u := AuthUser("u1", "admin@example.com", Str("client"), Undefined, Undefined);
      LoginDestination(u.role, u.email) == AdminRoute && AdminDashboard.Guard(Some(u)) == AdminDashboard.ToHome
  {
    var u := AuthUser("u1", "admin@example.com", Str("client"), Undefined, Undefined);
    assert OccursAt(u.email, "admin", 0);
  }

  // ---------------------------------------------------------------------------
  // Mount effect
  // ---------------------------------------------------------------------------

  /** The members the account provider's value supplies. */
  const ProviderMembers: set<string> :=
    {"user", "loading", "login", "logout", "submitSignupRequest", "getRequests", "handleRequest",
     "resendVerification", "resetPassword", "updatePassword"}

  /** The members the page takes from the provider. */
  const PageTakes: set<string> := {"login", "submitSignupRequest", "getQRCode", "resendVerification"}

  /** The provider with the QR-code member the page expects added. */
  const SuppliedMembers: set<string> := ProviderMembers + {"getQRCode"}

  /** What the QR-code effect does: the URL it stores, or the TypeError of calling a missing member. */
  datatype MountResult = Mounted(qrCodeUrl: string) | NotAFunction(member: string)

  /**
   * The effect `setQrCodeUrl(getQRCode())`, for a provider supplying the
   * members `provided`; `qrCode` is what its `getQRCode` returns when it has one.
   */
  function QrCodeEffect(provided: set<string>, qrCode: string): MountResult {
    if "getQRCode" in provided then Mounted(qrCode) else NotAFunction("getQRCode")
  }

  /**
   * As written, the page takes one member the provider does not supply,
   * `getQRCode`, and calling it in the mount effect throws whatever the page
   * would have shown.
   */
  lemma PageThrowsOnMount(qrCode: string)
    ensures PageTakes - ProviderMembers == {"getQRCode"}
    ensures QrCodeEffect(ProviderMembers, qrCode) == NotAFunction("getQRCode")
  {
    assert "getQRCode" in PageTakes - ProviderMembers;
  }

  /** With the member supplied, every member the page takes exists and the effect stores the QR code. */
  lemma SuppliedProviderMounts(qrCode: string)
    ensures PageTakes <= SuppliedMembers
    ensures QrCodeEffect(SuppliedMembers, qrCode) == Mounted(qrCode)
  {
  }

  // ---------------------------------------------------------------------------
  // Page state
  // ---------------------------------------------------------------------------

  /** `mode`, `data`, `isLoading` and `qrCodeUrl` of the page. */
  class Wizard {
    var mode: Mode
    var data: FormData
    var isLoading: bool
    var qrCodeUrl: string

    /**
     * The first render and its QR-code effect, for a provider that supplies
     * `getQRCode` (returning `qrCode`): the screen of the query parameter, an
     * empty form, and the QR code stored.
     */
    constructor(param: Option<string>, qrCode: string)
      ensures mode == InitialMode(param) && data == EmptyForm && !isLoading
      ensures qrCodeUrl == qrCode
    {
      mode := InitialMode(param);
      data := EmptyForm;
      isLoading := false;
      SuppliedProviderMounts(qrCode);
      qrCodeUrl := QrCodeEffect(SuppliedMembers, qrCode).qrCodeUrl;
    }

    /** A button of the current screen. */
    method Press(target: Mode)
      requires target in Buttons(mode)
      modifies this
      ensures mode == target && data == old(data) && isLoading == old(isLoading) && qrCodeUrl == old(qrCodeUrl)
    {
      mode := target;
    }

    /** `handleChange`: typing `value` into the input `f`. */
    method Change(f: TextInput, value: string)
      modifies this
      ensures data == WithInput(old(data), f, value)
      ensures mode == old(mode) && isLoading == old(isLoading) && qrCodeUrl == old(qrCodeUrl)
    {
      data := WithInput(data, f, value);
    }

    /**
     * `handleFileChange`, given the names of the files the picker returned:
     * the first becomes the payment proof, and an empty choice changes nothing.
     */
    method ChooseFile(files: seq<string>)
      modifies this
      ensures |files| > 0 ==> data == old(data).(paymentProof := Some(files[0]))
      ensures |files| == 0 ==> data == old(data)
      ensures mode == old(mode) && isLoading == old(isLoading) && qrCodeUrl == old(qrCodeUrl)
    {
      if |files| > 0 {
        data := data.(paymentProof := Some(files[0]));
      }
    }

    /** The two account-type buttons of the first signup step. */
    method ChooseAccountType(company: bool)
      modifies this
      ensures data == old(data).(accountType := if company then "company" else "individual")
      ensures mode == old(mode) && isLoading == old(isLoading) && qrCodeUrl == old(qrCodeUrl)
    {
      data := data.(accountType := if company then "company" else "individual");
    }

    /** `handleInitialSignup`: on to the billing summary when the password check passes, otherwise a notice and no move. */
    method InitialSignup() returns (notice: Option<Notice>)
      modifies this
      ensures notice == PasswordCheck(data.password, data.confirmPassword)
      ensures mode == if notice.None? then BillingSummary else old(mode)
      ensures data == old(data) && isLoading == old(isLoading) && qrCodeUrl == old(qrCodeUrl)
    {
      if data.password != data.confirmPassword {
        return Some(PasswordMismatch);
      }
      if |data.password| < MinPasswordLength {
        return Some(WeakPassword);
      }
      mode := BillingSummary;
      notice := None;
    }

    /**
     * `handleFinalSignup`: without a transaction ID nothing is submitted;
     * otherwise the payload is submitted and the page moves to the success
     * screen exactly when the request succeeded.
     */
    method FinalSignup(timestamp: nat, upload: Upload, register: SignUp)
      returns (notice: Option<Notice>, submitted: Option<Submission>)
      modifies this
      ensures submitted == if data.transactionId == "" then None
                           else Some(SubmitSignupRequest(Payload(data), timestamp, upload, register))
      ensures notice == if submitted.None? then Some(PaymentRequired)
                        else if submitted.value.outcome.Success? then None
                        else Some(RegistrationFailed(submitted.value.outcome.error))
      ensures mode == if submitted.Some? && submitted.value.outcome.Success? then SignupSuccess else old(mode)
      ensures data == old(data) && isLoading == (old(isLoading) && submitted.None?) && qrCodeUrl == old(qrCodeUrl)
    {
      if data.transactionId == "" {
        return Some(PaymentRequired), None;
      }
      isLoading := true;
      var submission := SubmitSignupRequest(Payload(data), timestamp, upload, register);
      submitted := Some(submission);
      if submission.outcome.Success? {
        mode := SignupSuccess;
        notice := None;
      } else {
        notice := Some(RegistrationFailed(submission.outcome.error));
      }
      isLoading := false;
    }

    /** `handleLoginSubmit`: a successful login is routed, a failed one explained; the screen stays. */
    method LoginSubmit(signIn: SignIn, register: SignUp) returns (route: Option<Route>, notice: Option<Notice>)
      modifies this
      ensures var r := Login(data.email, signIn, register);
        && (r.Success? ==> route == Some(LoginDestination(RoleOf(r.user), data.email)) && notice.None?)
        && (r.Failure? ==> route.None? && notice == Some(LoginFailureNotice(r.error)))
      ensures mode == old(mode) && data == old(data) && !isLoading && qrCodeUrl == old(qrCodeUrl)
    {
      isLoading := true;
      var result := Login(data.email, signIn, register);
      if result.Success? {
        route, notice := Some(LoginDestination(RoleOf(result.user), data.email)), None;
      } else {
        route, notice := None, Some(LoginFailureNotice(result.error));
      }
      isLoading := false;
    }
  }
}
