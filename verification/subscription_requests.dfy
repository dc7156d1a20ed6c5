/**
 * The account side of the application: the signed-in session the provider
 * keeps, the password login with its administrator auto-registration, the
 * signup request with its payment-proof upload and metadata record, and the
 * administrator's decision on a subscription request.
 *
 * The authentication service, the profile table, file storage and the e-mail
 * service are outside the model: each call is represented by the outcome it
 * returned, given as a parameter. So are the clock and the random token.
 */
module SubscriptionRequests {
  import opened JsValues

  /** The signed-in user as the authentication service reports it, with the metadata fields the application reads. */
  datatype AuthUser = AuthUser(id: string, email: string, role: JsValue, transactionId: JsValue, accessToken: JsValue)

  /** What an asynchronous operation of the provider resolves to: `{ success: true, user? }` or `{ success: false, error }`. */
  datatype Outcome = Success(user: Option<AuthUser>) | Failure(error: string)

  // ---------------------------------------------------------------------------
  // Session state held by the provider
  // ---------------------------------------------------------------------------

  /** The provider's `user` and `loading` state. */
  class AuthSession {
    var user: Option<AuthUser>
    var loading: bool

    /** Before the stored session has been read: no user, still loading. */
    constructor()
      ensures user == None && loading
    {
      user := None;
      loading := true;
    }

    /** The stored session has been read: its user, if any, is signed in and loading ends. */
    method Restore(session: Option<AuthUser>)
      modifies this
      ensures user == session && !loading
    {
      user := session;
      loading := false;
    }

    /** The authentication service reported a change: only the user follows it. */
    method OnAuthStateChange(session: Option<AuthUser>)
      modifies this
      ensures user == session && loading == old(loading)
    {
      user := session;
    }

    /** Signing out always clears the local user, whatever the service answered. */
    method Logout()
      modifies this
      ensures user == None && loading == old(loading)
    {
      user := None;
    }
  }

  // ---------------------------------------------------------------------------
  // Login with administrator auto-registration
  // ---------------------------------------------------------------------------

  const MasterAdminEmail := "md@edienviro.com"

  const DemoAdminEmail := "admin@demo.com"

  /** The two addresses that are registered as administrators. */
  predicate IsAdminEmail(email: string) {
    email == MasterAdminEmail || email == DemoAdminEmail
  }

  /** The answer of the password sign-in. */
  datatype SignIn = SignedIn(user: Option<AuthUser>) | SignInError(message: string)

  /** The answer of a registration: the new user, whether a session came with it, or an error. */
  datatype SignUp = SignedUp(user: Option<AuthUser>, hasSession: bool) | SignUpError(message: string)

  const InvalidCredentials := "Invalid login credentials"

  const ConfirmAdminMessage := "Admin Account Created! Please check your email to confirm registration."

  /** Whether a failed sign-in makes the provider try to register an administrator. */
  predicate TriesAdminRegistration(email: string, signIn: SignIn) {
    signIn.SignInError? && IsAdminEmail(email) && Contains(signIn.message, InvalidCredentials)
  }

  /**
   * `login`: a failed sign-in of one of the administrator addresses with
   * "Invalid login credentials" registers that administrator (`register` is
   * the answer to that attempt, consulted only then); a registration that
   * yields a user succeeds when it came with a session and asks for
   * confirmation otherwise. Every other failure reports the sign-in error.
   */
  function Login(email: string, signIn: SignIn, register: SignUp): (r: Outcome)
  {
    if TriesAdminRegistration(email, signIn) && register.SignedUp? && register.user.Some? then
      if register.hasSession then Success(register.user) else Failure(ConfirmAdminMessage)
    else if signIn.SignInError? then Failure(signIn.message)
    else Success(signIn.user)
  }

  /** A sign-in that succeeds is the outcome of the login, whoever signs in. */
  lemma LoginSucceedsWithSignIn(email: string, user: Option<AuthUser>, register: SignUp)
    ensures Login(email, SignedIn(user), register) == Success(user)
  {
  }

  /**
   * Only the two administrator addresses, with a wrong-credentials error and a
   * registration that returns a user, get anything but the sign-in error back.
   */
  lemma LoginFailureIsSignInError(email: string, message: string, register: SignUp)
    requires !(IsAdminEmail(email) && Contains(message, InvalidCredentials) && register.SignedUp? && register.user.Some?)
    ensures Login(email, SignInError(message), register) == Failure(message)
  {
  }

  /** An administrator registered without a session is asked to confirm the address, never signed in. */
  lemma AdminRegistrationWithoutSession(email: string, message: string, user: AuthUser)
    requires IsAdminEmail(email) && Contains(message, InvalidCredentials)
    ensures Login(email, SignInError(message), SignedUp(Some(user), false)) == Failure(ConfirmAdminMessage)
    ensures Login(email, SignInError(message), SignedUp(Some(user), true)) == Success(Some(user))
  {
  }

  // ---------------------------------------------------------------------------
  // Signup request
  // ---------------------------------------------------------------------------

  /**
   * The `requestData` record of a signup request. `paymentProof` is the name
   * of the attached file, when a file object is attached.
   */
  datatype SignupRequest = SignupRequest(
    name: JsValue,
    email: string,
    password: string,
    transactionId: JsValue,
    paymentProof: Option<string>,
    paymentProofId: JsValue,
    accountType: JsValue,
    companyName: JsValue,
    companyGst: JsValue,
    address: JsValue,
    city: JsValue,
    state: JsValue,
    zip: JsValue,
    phone: JsValue,
    companyEmail: JsValue)

  /** The user metadata sent with the registration. */
  datatype SignupMetadata = SignupMetadata(
    fullName: JsValue,
    transactionId: JsValue,
    role: string,
    paymentProofId: JsValue,
    paymentProofUrl: Option<string>,
    subscriptionStatus: string,
    accountType: JsValue,
    companyName: JsValue,
    companyGst: JsValue,
    billingAddress: JsValue,
    city: JsValue,
    state: JsValue,
    zip: JsValue,
    phone: JsValue,
    country: string,
    companyAddress: string,
    companyPhone: JsValue,
    companyEmail: JsValue)

  /** `requestData.accountType === 'company'`. */
  predicate IsCompany(req: SignupRequest) {
    req.accountType == Str("company")
  }

  /** `v || ''`. */
  function OrEmpty(v: JsValue): JsValue {
    Or(v, Str(""))
  }

  /** The legacy composite "address, city, state - zip", each missing part shown as nothing. */
  function CompanyAddress(req: SignupRequest): string {
    JsString(OrEmpty(req.address)) + ", " + JsString(OrEmpty(req.city)) + ", "
    + JsString(OrEmpty(req.state)) + " - " + JsString(OrEmpty(req.zip))
  }

  /** The metadata record of a registration whose payment proof, if any, is stored at `proofUrl`. */
  function Metadata(req: SignupRequest, proofUrl: Option<string>): SignupMetadata {
    SignupMetadata(
      req.name, req.transactionId,
      if IsAdminEmail(req.email) then "admin" else "client",
      Or(req.paymentProofId, Str("uploaded")),
      proofUrl,
      "pending",
      req.accountType,
      if IsCompany(req) then OrEmpty(req.companyName) else Str(""),
      if IsCompany(req) then OrEmpty(req.companyGst) else Str(""),
      OrEmpty(req.address), OrEmpty(req.city), OrEmpty(req.state), OrEmpty(req.zip), OrEmpty(req.phone),
      "India",
      CompanyAddress(req),
      OrEmpty(req.phone),
      Or(req.companyEmail, Str(req.email)))
  }

  /**
   * Every registration starts pending; the role is "admin" exactly for the two
   * administrator addresses; company name and GST number are empty unless the
   * account is a company's, and then default to empty.
   */
  lemma MetadataRules(req: SignupRequest, proofUrl: Option<string>)
    ensures var m := Metadata(req, proofUrl);
      && m.subscriptionStatus == "pending"
      && (m.role == "admin" <==> IsAdminEmail(req.email))
      && (m.role == "client" <==> !IsAdminEmail(req.email))
      && (!IsCompany(req) ==> m.companyName == Str("") && m.companyGst == Str(""))
      && (IsCompany(req) && !Truthy(req.companyName) ==> m.companyName == Str(""))
      && (IsCompany(req) && Truthy(req.companyName) ==> m.companyName == req.companyName)
  {
  }

  /** The company e-mail falls back to the signup e-mail; a missing address part is empty in the composite address. */
  lemma MetadataFallbacks(req: SignupRequest, proofUrl: Option<string>)
    ensures var m := Metadata(req, proofUrl);
      && (!Truthy(req.companyEmail) ==> m.companyEmail == Str(req.email))
      && (!Truthy(req.address) && !Truthy(req.city) && !Truthy(req.state) && !Truthy(req.zip) ==>
            m.companyAddress == ", ,  - ")
  {
  }

  /** The name of the folder proofs are uploaded to. */
  const ProofFolder := "proofs/"

  /**
   * The storage path of a payment proof uploaded at `timestamp` milliseconds:
   * the e-mail with every character other than an ASCII letter or digit
   * replaced by '_' and cut to ten characters, then the text after the last '.'
   * of the file name (all of it when there is none) as the extension.
   */
  function ProofFileName(timestamp: nat, email: string, fileName: string): string {
    ProofFolder + NatToString(timestamp) + "_" + Prefix(ReplaceNonAlnum(email), 10) + "." + AfterLast(fileName, ".")
  }

  /** The part of a proof's name taken from the e-mail: at most ten letters, digits or underscores. */
  lemma ProofNameEmailPart(email: string)
    ensures var p := Prefix(ReplaceNonAlnum(email), 10);
      |p| <= 10 && |p| <= |email| && forall k :: 0 <= k < |p| ==> IsAsciiAlnum(p[k]) || p[k] == '_'
  {
  }

  /** A text with no '.' followed by a '.' and an extension: the text after its last '.' is that extension. */
  lemma {:induction false} AfterLastOfDotted(stem: string, ext: string)
    requires !Contains(stem, ".") && !Contains(ext, ".")
    ensures AfterLast(stem + "." + ext, ".") == ext
  {
    var s := stem + "." + ext;
    assert OccursAt(s, ".", |stem|) by {
      assert s[|stem|..|stem| + 1] == ".";
    }
    forall j | 0 <= j < |stem| ensures !OccursAt(s, ".", j) {
      assert s[j..j + 1] == stem[j..j + 1];
      assert !OccursAt(stem, ".", j);
    }
    match IndexOf(s, ".")
    case None =>
      assert false;
    case Some(k) =>
      assert k == |stem|;
      assert s[k + 1..] == ext;
      NoOccurrenceAfterLast(ext, ".");
  }

  /** The text after the last separator of a text without one is the whole text. */
  lemma NoOccurrenceAfterLast(s: string, sep: string)
    requires |sep| > 0 && !Contains(s, sep)
    ensures AfterLast(s, sep) == s
  {
  }

  /** A text none of whose characters is a '.' contains no '.'. */
  lemma NoDotIn(s: string)
    requires forall k :: 0 <= k < |s| ==> s[k] != '.'
    ensures !Contains(s, ".")
  {
    forall j | 0 <= j < |s| ensures !OccursAt(s, ".", j) {
      assert s[j..j + 1][0] == s[j];
    }
  }

  /**
   * The extension of the stored proof is the extension of the uploaded file:
   * the text after the last '.' of the storage path is the text after the
   * last '.' of the file name, since neither the timestamp nor the e-mail part
   * can hold a '.'.
   */
  lemma ProofFileNameKeepsExtension(timestamp: nat, email: string, fileName: string)
    ensures AfterLast(ProofFileName(timestamp, email, fileName), ".") == AfterLast(fileName, ".")
  {
    var digits, part := NatToString(timestamp), Prefix(ReplaceNonAlnum(email), 10);
    var stem := ProofFolder + digits + "_" + part;
    ProofNameEmailPart(email);
    forall k | 0 <= k < |stem| ensures stem[k] != '.' {
      if k < |ProofFolder| {
        assert stem[k] == ProofFolder[k];
      } else if k < |ProofFolder| + |digits| {
        assert stem[k] == digits[k - |ProofFolder|];
      } else if k > |ProofFolder| + |digits| {
        assert stem[k] == part[k - |ProofFolder| - |digits| - 1];
      }
    }
    NoDotIn(stem);
    var ext := AfterLast(fileName, ".");
    AfterLastOfDotted(stem, ext);
  }

  /** The outcome of the proof upload. */
  datatype Upload = Uploaded(publicUrl: string) | UploadError

  const UploadFailedMessage := "Failed to upload payment proof. Please try again."

  /** What the signup request did: the path it uploaded to, the metadata it registered with, and its outcome. */
  datatype Submission = Submission(uploadedAs: Option<string>, registered: Option<SignupMetadata>, outcome: Outcome)

  /**
   * `submitSignupRequest`: with a proof file attached it is uploaded first,
   * and a failed upload ends the request before any registration; otherwise
   * the user is registered with the metadata record, carrying the proof's
   * public URL when one was uploaded.
   */
  function SubmitSignupRequest(req: SignupRequest, timestamp: nat, upload: Upload, register: SignUp): (r: Submission)
  {
    var path := if req.paymentProof.Some? then Some(ProofFileName(timestamp, req.email, req.paymentProof.value)) else None;
    if req.paymentProof.Some? && upload.UploadError? then
      Submission(path, None, Failure(UploadFailedMessage))
    else
      var url := if req.paymentProof.Some? then Some(upload.publicUrl) else None;
      Submission(path, Some(Metadata(req, url)),
                 if register.SignUpError? then Failure(register.message) else Success(register.user))
  }

  /** A failed upload registers nobody; otherwise the registration carries the proof's URL exactly when a proof was uploaded. */
  lemma SubmitSignupRequestOrder(req: SignupRequest, timestamp: nat, upload: Upload, register: SignUp)
    ensures var r := SubmitSignupRequest(req, timestamp, upload, register);
      && (r.uploadedAs.Some? <==> req.paymentProof.Some?)
      && (r.registered.None? <==> req.paymentProof.Some? && upload.UploadError?)
      && (r.registered.None? ==> r.outcome == Failure(UploadFailedMessage))
      && (r.registered.Some? ==> (r.registered.value.paymentProofUrl.Some? <==> req.paymentProof.Some?))
      && (r.registered.Some? ==> (r.outcome.Success? <==> register.SignedUp?))
  {
  }

  // ---------------------------------------------------------------------------
  // The administrator's decision on a request
  // ---------------------------------------------------------------------------

  /**
   * What the clock and the random generator supply to a decision: the current
   * instant and the expiry instant `durationMonths` later, both as ISO text,
   * and the six random characters of a new access token.
   */
  datatype Stamp = Stamp(now: string, expiry: string, randomPart: string)

  /** The fields written to the profile; a field not written is `None`. */
  datatype ProfileUpdate = ProfileUpdate(
    status: Option<string>,
    start: Option<string>,
    end: Option<string>,
    accessToken: Option<string>)

  const NoUpdate := ProfileUpdate(None, None, None, None)

  /** The e-mail a decision triggers: the access token with its expiry, or the rejection notice. */
  datatype EmailTrigger = VerifyEmail(token: string, expiry: string) | RejectEmail

  const TokenPrefix := "EDI-"

  /** The answer of the profile update. */
  datatype UpdateResult = Updated | UpdateError(message: string)

  predicate Activates(action: string) {
    action == "approve" || action == "enable"
  }

  /** The profile fields a decision writes. */
  function RequestUpdate(action: string, stamp: Stamp): ProfileUpdate {
    if Activates(action) then
      ProfileUpdate(Some("active"), Some(stamp.now), Some(stamp.expiry),
                    if action == "approve" then Some(TokenPrefix + stamp.randomPart) else None)
    else if action == "disable" then NoUpdate.(status := Some("disabled"))
    else NoUpdate.(status := Some("rejected"))
  }

  /** The e-mail a decision prepares. */
  function RequestEmail(action: string, stamp: Stamp): Option<EmailTrigger> {
    if action == "approve" then Some(VerifyEmail(TokenPrefix + stamp.randomPart, stamp.expiry))
    else if Activates(action) || action == "disable" then None
    else Some(RejectEmail)
  }

  /** The status a decision sets: active, disabled or, for every other action, rejected. */
  function NextStatus(action: string): (s: string)
  {
    if Activates(action) then "active" else if action == "disable" then "disabled" else "rejected"
  }

  /** Every decision writes a status, the one `NextStatus` names, and nothing else for a disable or a rejection. */
  lemma RequestUpdateStatus(action: string, stamp: Stamp)
    ensures var u := RequestUpdate(action, stamp);
      && u.status == Some(NextStatus(action))
      && (u.start.Some? <==> Activates(action)) && (u.end.Some? <==> Activates(action))
      && (!Activates(action) ==> u == NoUpdate.(status := Some(NextStatus(action))))
  {
  }

  /**
   * Approving and enabling both make the subscription active from now until
   * the expiry; only approving issues an access token, "EDI-" and the random
   * part, and the verification e-mail carries that same token and expiry.
   */
  lemma ApprovalIssuesToken(action: string, stamp: Stamp)
    ensures var u, e := RequestUpdate(action, stamp), RequestEmail(action, stamp);
      && (Activates(action) ==> u.status == Some("active") && u.start == Some(stamp.now) && u.end == Some(stamp.expiry))
      && (u.accessToken.Some? <==> action == "approve")
      && (e.Some? && e.value.VerifyEmail? <==> action == "approve")
      && (action == "approve" ==> u.accessToken.value == TokenPrefix + stamp.randomPart &&
                                  e.value.token == u.accessToken.value && e.value.expiry == u.end.value)
  {
  }

  /** Disabling and enabling send no e-mail; every action other than approve, enable and disable rejects and says so. */
  lemma SilentAndRejectingActions(action: string, stamp: Stamp)
    ensures var e := RequestEmail(action, stamp);
      && (action == "disable" || action == "enable" ==> e.None?)
      && (e == Some(RejectEmail) <==> !Activates(action) && action != "disable")
      && (e == Some(RejectEmail) <==> NextStatus(action) == "rejected")
  {
  }

  /**
   * `handleRequest`: builds the profile update and the e-mail trigger by
   * reassigning them as the action is examined, writes the update, and only
   * when the write succeeded attempts the e-mail. A failed write reports its
   * error; a failed e-mail (`emailDelivered` false) is logged and the
   * decision still succeeds.
   */
  method HandleRequest(action: string, stamp: Stamp, write: UpdateResult, emailDelivered: bool)
    returns (updates: ProfileUpdate, attempted: Option<EmailTrigger>, result: Outcome)
    ensures updates == RequestUpdate(action, stamp)
    ensures attempted == if write.Updated? then RequestEmail(action, stamp) else None
    ensures result == if write.Updated? then Success(None) else Failure(write.message)
  {
    updates := NoUpdate;
    var emailTrigger: Option<EmailTrigger> := None;
    if action == "approve" || action == "enable" {
      var newToken := TokenPrefix + stamp.randomPart;
      updates := ProfileUpdate(Some("active"), Some(stamp.now), Some(stamp.expiry), None);
      if action == "approve" {
        updates := updates.(accessToken := Some(newToken));
        emailTrigger := Some(VerifyEmail(newToken, stamp.expiry));
      }
    } else if action == "disable" {
      updates := NoUpdate.(status := Some("disabled"));
    } else {
      updates := NoUpdate.(status := Some("rejected"));
      emailTrigger := Some(RejectEmail);
    }
    attempted := None;
    if write.UpdateError? {
      return updates, attempted, Failure(write.message);
    }
    // Whether or not the e-mail is delivered, a failure is only logged.
    attempted := emailTrigger;
    result := Success(None);
  }
}
