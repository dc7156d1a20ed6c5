/**
 * The gate in front of the proposal generator: a signed-in user whose
 * subscription is active (or who is an administrator) unlocks it with the
 * transaction ID, the access token or the account password, and the unlock
 * is remembered for the browser session.
 *
 * The profile lookup and the password check are remote calls outside the
 * model; their answers are parameters, consulted only when the chain of
 * checks reaches them. The session storage entry is a field of the gate.
 */
module ProposalAccess {
  import opened JsValues
  import opened SubscriptionRequests

  /** The answer of the profile lookup: an error, or the live status and role. */
  datatype ProfileLookup = LookupError | LookedUp(status: JsValue, role: JsValue)

  datatype AccessResult = Granted | Denied(message: string)

  const LoginFirst := "Please log in to your account first."

  const ContactSupport := "Could not verify account status. Please contact support."

  const NotApproved := "Your account is not approved by the Admin yet."

  const WrongPassword := "Incorrect login password. (You can also use your Transaction ID)"

  /** The value the session storage entry holds while the gate is unlocked. */
  const Unlocked := "true"

  /** An administrator passes whatever the status; anyone else needs an active subscription. */
  predicate Approved(status: JsValue, role: JsValue) {
    role == Str("admin") || status == Str("active")
  }

  /** The password is the user's transaction ID or access token, whichever of them is set. */
  predicate MatchesCredential(password: string, user: AuthUser) {
    (Truthy(user.transactionId) && Str(password) == user.transactionId) ||
    (Truthy(user.accessToken) && Str(password) == user.accessToken)
  }

  /**
   * The chain of checks of `authenticate`: a user must be signed in, the
   * profile lookup must succeed, the account must be approved, and then the
   * password must be a stored credential or pass the remote check
   * (`signInError` is `None` when it passed).
   */
  function Decide(password: string, user: Option<AuthUser>, profile: ProfileLookup, signInError: Option<string>): AccessResult {
    if user.None? then Denied(LoginFirst)
    else if profile.LookupError? then Denied(ContactSupport)
    else if !Approved(profile.status, profile.role) then Denied(NotApproved)
    else if MatchesCredential(password, user.value) then Granted
    else if signInError.None? then Granted
    else if Contains(signInError.value, InvalidCredentials) then Denied(WrongPassword)
    else Denied(signInError.value)
  }

  /** Access is granted exactly to a signed-in, approved user who gives a stored credential or the account password. */
  lemma DecideGrantsExactly(password: string, user: Option<AuthUser>, profile: ProfileLookup, signInError: Option<string>)
    ensures Decide(password, user, profile, signInError) == Granted <==>
      user.Some? && profile.LookedUp? && Approved(profile.status, profile.role) &&
      (MatchesCredential(password, user.value) || signInError.None?)
  {
  }

  /** Each check that fails gives its own reason, and the earliest failing check decides. */
  lemma DenialReasons(password: string, user: Option<AuthUser>, profile: ProfileLookup, signInError: Option<string>)
    ensures user.None? ==> Decide(password, user, profile, signInError) == Denied(LoginFirst)
    ensures user.Some? && profile.LookupError? ==> Decide(password, user, profile, signInError) == Denied(ContactSupport)
    ensures user.Some? && profile.LookedUp? && !Approved(profile.status, profile.role) ==>
      Decide(password, user, profile, signInError) == Denied(NotApproved)
    ensures user.Some? && profile.LookedUp? && Approved(profile.status, profile.role) &&
            !MatchesCredential(password, user.value) && signInError.Some? ==>
      Decide(password, user, profile, signInError) ==
        Denied(if Contains(signInError.value, InvalidCredentials) then WrongPassword else signInError.value)
  {
  }

  /** An administrator's subscription status plays no part. */
  lemma AdminIgnoresStatus(password: string, user: Option<AuthUser>, s1: JsValue, s2: JsValue, signInError: Option<string>)
    ensures Decide(password, user, LookedUp(s1, Str("admin")), signInError) ==
            Decide(password, user, LookedUp(s2, Str("admin")), signInError)
  {
  }

  /** A stored credential unlocks without the remote password check mattering. */
  lemma CredentialNeedsNoPasswordCheck(password: string, user: AuthUser, profile: ProfileLookup, e1: Option<string>, e2: Option<string>)
    requires MatchesCredential(password, user)
    ensures Decide(password, Some(user), profile, e1) == Decide(password, Some(user), profile, e2)
  {
  }

  /** An empty transaction ID or token is never a credential: the empty password must pass the remote check. */
  lemma EmptyPasswordIsNoCredential(user: AuthUser)
    ensures !MatchesCredential("", user)
  {
  }

  /** `isAuthenticated`, `isLoading`, and the session storage entry of the gate. */
  class ProposalAccessGate {
    var isAuthenticated: bool
    var isLoading: bool
    var stored: Option<string>

    /** The first render: locked and loading, with whatever the session storage holds. */
    constructor(stored: Option<string>)
      ensures !isAuthenticated && isLoading && this.stored == stored
    {
      isAuthenticated := false;
      isLoading := true;
      this.stored := stored;
    }

    /** The mount effect: unlocked if the stored entry is exactly "true"; loading ends either way. */
    method Mount()
      modifies this
      ensures isAuthenticated == (old(isAuthenticated) || stored == Some(Unlocked))
      ensures !isLoading && stored == old(stored)
    {
      if stored == Some(Unlocked) {
        isAuthenticated := true;
      }
      isLoading := false;
    }

    /**
     * `authenticate`, check by check. It reports whether it looked up the
     * profile and whether it asked for the remote password check; a grant
     * unlocks the gate and remembers it, a denial changes nothing.
     */
    method Authenticate(password: string, user: Option<AuthUser>, profile: ProfileLookup, signInError: Option<string>)
      returns (result: AccessResult, lookedUp: bool, checkedPassword: bool)
      modifies this
      ensures result == Decide(password, user, profile, signInError)
      ensures lookedUp <==> user.Some?
      ensures checkedPassword <==> user.Some? && profile.LookedUp? && Approved(profile.status, profile.role) &&
                                   !MatchesCredential(password, user.value)
      ensures result.Granted? ==> isAuthenticated && stored == Some(Unlocked)
      ensures result.Denied? ==> isAuthenticated == old(isAuthenticated) && stored == old(stored)
      ensures isLoading == old(isLoading)
    {
      lookedUp, checkedPassword := false, false;
      if user.None? {
        return Denied(LoginFirst), lookedUp, checkedPassword;
      }
      lookedUp := true;
      if profile.LookupError? {
        return Denied(ContactSupport), lookedUp, checkedPassword;
      }
      if profile.role != Str("admin") && profile.status != Str("active") {
        return Denied(NotApproved), lookedUp, checkedPassword;
      }
      var u := user.value;
      if (Truthy(u.transactionId) && Str(password) == u.transactionId) ||
         (Truthy(u.accessToken) && Str(password) == u.accessToken) {
        isAuthenticated := true;
        stored := Some(Unlocked);
        return Granted, lookedUp, checkedPassword;
      }
      checkedPassword := true;
      if signInError.None? {
        isAuthenticated := true;
        stored := Some(Unlocked);
        result := Granted;
      } else if Contains(signInError.value, InvalidCredentials) {
        result := Denied(WrongPassword);
      } else {
        result := Denied(signInError.value);
      }
    }

    /** Locks the gate and forgets the stored entry. */
    method Logout()
      modifies this
      ensures !isAuthenticated && stored == None && isLoading == old(isLoading)
    {
      isAuthenticated := false;
      stored := None;
    }
  }
}
