/**
 * The authentication context: the signed-in user and the vendor flag derived
 * from a session or a refreshed user, the classification of sign-up and
 * sign-in errors into the notices the user sees, and the hook that refuses
 * to run outside the provider.
 */
module AuthContext {
  import opened Backend
  import opened Text

  /** A value of `user_metadata.is_vendor` as the service may store it. */
  datatype MetaValue = Missing | MetaBool(b: bool) | MetaText(s: string)

  /** The `user_metadata` object the service sends with every user. */
  datatype Metadata = Metadata(name: Option<string>, avatarUrl: Option<string>, isVendor: MetaValue)

  datatype User = User(id: Id, email: string, metadata: Metadata)

  datatype Session = Session(user: Option<User>)

  /** `currentUser ? currentUser.user_metadata?.is_vendor === true : false`: only the boolean
      `true` makes a vendor, not the text "true". */
  function VendorFlag(user: Option<User>): (r: bool)
    ensures r ==> user.Some?
    ensures user.Some? ==> (r <==> user.value.metadata.isVendor == MetaBool(true))
    ensures user.Some? && user.value.metadata.isVendor.MetaText? ==> !r
  {
    user.Some? && user.value.metadata.isVendor == MetaBool(true)
  }

  /** An error object of the auth service. */
  datatype AuthError = AuthError(message: Option<string>, code: Option<string>)

  datatype SignUpNotice = TooManyAttempts | ExistingUser | SignUpFailed(description: string)

  const RATE_LIMIT_CODE := "over_email_send_rate_limit"

  /** The notice signUp shows for an error. The rate-limit code is only looked at when the
      message is non-empty. */
  function SignUpNoticeFor(e: AuthError): (r: SignUpNotice)
    ensures r == TooManyAttempts <==>
              Truthy(e.message) && (Contains(e.message.value, "rate limit") || e.code == Some(RATE_LIMIT_CODE))
    ensures r == ExistingUser <==>
              Truthy(e.message) && !Contains(e.message.value, "rate limit") && e.code != Some(RATE_LIMIT_CODE)
              && Contains(e.message.value, "already registered")
    ensures r.SignUpFailed? ==> r.description == if Truthy(e.message) then e.message.value else "Une erreur est survenue."
  {
    if Truthy(e.message) && (Contains(e.message.value, "rate limit") || e.code == Some(RATE_LIMIT_CODE)) then TooManyAttempts
    else if Truthy(e.message) && Contains(e.message.value, "already registered") then ExistingUser
    else SignUpFailed(if Truthy(e.message) then e.message.value else "Une erreur est survenue.")
  }

  /** A rate-limit code that comes without a message is reported as a generic failure. */
  lemma RateLimitCodeAloneIsGeneric(code: Option<string>)
    ensures SignUpNoticeFor(AuthError(None, code)) == SignUpFailed("Une erreur est survenue.")
    ensures SignUpNoticeFor(AuthError(Some(""), code)) == SignUpFailed("Une erreur est survenue.")
  {
  }

  /** A message that mentions both cases is reported as a rate limit. */
  lemma {:induction false} RateLimitWins(message: string, code: Option<string>)
    requires Contains(message, "rate limit") && Contains(message, "already registered")
    ensures SignUpNoticeFor(AuthError(Some(message), code)) == TooManyAttempts
  {
    ContainsIffOccurs(message, "rate limit");
  }

  datatype SignInNotice = EmailNotConfirmed | BadCredentials

  /** The notice signIn shows for an error. */
  function SignInNoticeFor(e: AuthError): (r: SignInNotice)
    ensures r == EmailNotConfirmed <==> e.message == Some("Email not confirmed") || e.code == Some("email_not_confirmed")
  {
    if e.message == Some("Email not confirmed") || e.code == Some("email_not_confirmed") then EmailNotConfirmed
    else BadCredentials
  }

  /** What signUp / signIn / signOut hand back: the service's answer unchanged, with the
      notice shown beside it. */
  datatype AuthAnswer<T> = AuthAnswer(data: Option<T>, error: Option<AuthError>)

  /** `useContext(AuthContext)`, which throws outside the provider. */
  datatype Hook<T> = Provided(value: T) | Thrown(message: string)

  function UseAuth<T>(context: Option<T>): (r: Hook<T>)
    ensures r.Thrown? <==> context.None?
    ensures r.Provided? ==> r.value == context.value
    ensures r.Thrown? ==> r.message == "useAuth must be used within an AuthProvider"
  {
    if context.None? then Thrown("useAuth must be used within an AuthProvider") else Provided(context.value)
  }

  class AuthProvider {
    var user: Option<User>
    var session: Option<Session>
    var loading: bool
    var isVendor: bool

    /** The vendor flag always agrees with the user it was derived from. */
    ghost predicate Valid()
      reads this`user, this`isVendor
    {
      isVendor == VendorFlag(user)
    }

    constructor ()
      ensures user == None && session == None && loading && !isVendor && Valid()
    {
      user, session, loading, isVendor := None, None, true, false;
    }

    /** handleSession, run for the initial session and on every auth state change. */
    method HandleSession(s: Option<Session>)
      modifies this`session, this`user, this`isVendor, this`loading
      ensures session == s
      ensures user == if s.Some? then s.value.user else None
      ensures Valid() && !loading
    {
      session := s;
      user := if s.Some? then s.value.user else None;
      isVendor := VendorFlag(user);
      loading := false;
    }

    /** refreshUser with the user of the refreshed session; the stored session is kept. */
    method RefreshUser(refreshed: Option<User>)
      modifies this`user, this`isVendor
      ensures user == refreshed && Valid()
    {
      user := refreshed;
      isVendor := VendorFlag(user);
    }

    /** signUp: returns the service's answer and the notice it shows, if any. */
    method SignUp<T>(answer: AuthAnswer<T>) returns (r: AuthAnswer<T>, notice: Option<SignUpNotice>)
      ensures r == answer
      ensures notice.Some? <==> answer.error.Some?
      ensures notice.Some? ==> notice.value == SignUpNoticeFor(answer.error.value)
    {
      r := answer;
      notice := if answer.error.Some? then Some(SignUpNoticeFor(answer.error.value)) else None;
    }

    /** signIn: returns the service's answer and the notice it shows, if any. */
    method SignIn<T>(answer: AuthAnswer<T>) returns (r: AuthAnswer<T>, notice: Option<SignInNotice>)
      ensures r == answer
      ensures notice.Some? <==> answer.error.Some?
      ensures notice.Some? ==> notice.value == SignInNoticeFor(answer.error.value)
    {
      r := answer;
      notice := if answer.error.Some? then Some(SignInNoticeFor(answer.error.value)) else None;
    }

    /** signOut: returns the service's error unchanged, with the description it shows. */
    method SignOut(error: Option<AuthError>) returns (r: Option<AuthError>, notice: Option<string>)
      ensures r == error
      ensures notice.Some? <==> error.Some?
      ensures notice.Some? ==> notice.value == if Truthy(error.value.message) then error.value.message.value else "Something went wrong"
    {
      r := error;
      notice := None;
      if error.Some? {
        notice := Some(if Truthy(error.value.message) then error.value.message.value else "Something went wrong");
      }
    }
  }
}
