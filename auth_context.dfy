/**
 * The signed-in identity shared by every page: the current user and a loading
 * flag, kept up to date from the initial session check and from auth events,
 * plus the profile rows it creates on first sign-in and on sign-up.
 */
module AuthContext {
  import opened Wrappers
  import opened Toast

  datatype User = User(id: string, email: Option<string>, avatarUrl: Option<string>)

  datatype Session = Session(user: User)

  /** A `profiles` row as the context inserts it. */
  datatype ProfileRow = ProfileRow(id: string, username: string, avatarUrl: Option<string>, createdAt: string)

  const SignedInEvent := "SIGNED_IN"
  const FallbackUsername := "user"

  /** `s.split('@')[0]`: the text before the first `@`, or all of `s` when it has none. */
  function BeforeFirstAt(s: string): (r: string)
    ensures |r| <= |s| && r == s[..|r|]
    ensures '@' !in r
    ensures |r| < |s| ==> s[|r|] == '@'
  {
    if s == [] || s[0] == '@' then "" else [s[0]] + BeforeFirstAt(s[1..])
  }

  /** `email?.split('@')[0] || 'user'`. */
  function DefaultUsername(email: Option<string>): (name: string)
  {
    if email.Some? && BeforeFirstAt(email.value) != "" then BeforeFirstAt(email.value) else FallbackUsername
  }

  /** The default username is never empty and never holds `@`. */
  lemma DefaultUsernameWellFormed(email: Option<string>)
    ensures DefaultUsername(email) != ""
    ensures '@' !in DefaultUsername(email)
  {
  }

  /** It is the email's text before its first `@`, falling back to "user" when that is missing or empty. */
  lemma DefaultUsernameSpec(email: Option<string>, i: nat)
    requires email.Some? && i <= |email.value|
    requires '@' !in email.value[..i]
    requires i == |email.value| || email.value[i] == '@'
    ensures i > 0 ==> DefaultUsername(email) == email.value[..i]
    ensures i == 0 ==> DefaultUsername(email) == "user"
  {
  }

  /** Without an email the fallback is used; otherwise a name other than the fallback is a prefix of the email ending at an `@` or at the end. */
  lemma DefaultUsernameFromEmail(email: Option<string>)
    ensures email.None? ==> DefaultUsername(email) == "user"
    ensures DefaultUsername(email) != "user" ==>
      email.Some? && StartsWithName(email.value, DefaultUsername(email))
    ensures '@' !in DefaultUsername(email)
  {
  }

  /** `name` is a prefix of `email`, followed by `@` or nothing. */
  predicate StartsWithName(email: string, name: string)
  {
    |name| <= |email| && email[..|name|] == name && (|name| == |email| || email[|name|] == '@')
  }

  /** `session?.user ?? null`. */
  function UserOf(session: Option<Session>): Option<User>
  {
    if session.Some? then Some(session.value.user) else None
  }

  /** The initial session check: it yields a session or none, or its promise rejects. */
  datatype SessionCheck = CheckRejected | CheckDone(session: Option<Session>)

  /** The sign-up call: an auth error, or success with the new user if the service returns one. */
  datatype SignUpOutcome = SignUpError(isAuthError: bool, message: string) | SignUpDone(user: Option<User>)


  const GenericErrorMessage := "Something went wrong"
  const OutsideProviderMessage := "useAuth must be used within an AuthProvider"

  /** The description shown for an error thrown inside an auth action. */
  function ErrorDescription(isAuthError: bool, message: string): string
  {
    if isAuthError then message else GenericErrorMessage
  }

  /** `signUp`: the profile row is inserted only after a sign-up that returned no error and a user. */
  method SignUp(username: string, outcome: SignUpOutcome, profileInsertOk: bool, now: string)
    returns (insert: Option<ProfileRow>, notice: Notice)
    ensures insert.Some? <==> outcome.SignUpDone? && outcome.user.Some?
    ensures insert.Some? ==> insert.value == ProfileRow(outcome.user.value.id, username, None, now)
    ensures outcome.SignUpError? ==> notice == ErrorNotice(ErrorDescription(outcome.isAuthError, outcome.message))
    ensures outcome == SignUpDone(None) ==> notice == NoNotice
    ensures insert.Some? ==> notice == (if profileInsertOk then SuccessNotice else ErrorNotice(GenericErrorMessage))
  {
    insert, notice := None, NoNotice;
    if outcome.SignUpError? {
      notice := ErrorNotice(ErrorDescription(outcome.isAuthError, outcome.message));
      return;
    }
    if outcome.user.Some? {
      var user := outcome.user.value;
      insert := Some(ProfileRow(user.id, username, None, now));
      if !profileInsertOk {
        // the insert's error is a database error, not an auth error
        notice := ErrorNotice(GenericErrorMessage);
        return;
      }
      notice := SuccessNotice;
    }
  }

  /** The value the provider hands to pages. */
  datatype ContextValue = ContextValue(user: Option<User>, loading: bool)

  /** `useAuth`: outside a provider there is no context and it raises. */
  function UseAuth(context: Option<ContextValue>): (r: Result<ContextValue, string>)
    ensures r.Failure? <==> context.None?
    ensures r.Failure? ==> r.error == "useAuth must be used within an AuthProvider"
    ensures r.Success? ==> r.value == context.value
  {
    if context.None? then Failure(OutsideProviderMessage) else Success(context.value)
  }

  /** The provider's state. */
  class AuthProvider {
    var user: Option<User>
    var loading: bool

    constructor ()
      ensures user == None && loading
    {
      user := None;
      loading := true;
    }

    /** The context value handed to the pages inside the provider. */
    function Value(): ContextValue
      reads this
    {
      ContextValue(user, loading)
    }

    /** The initial session check; a rejected check has no handler, so loading stays on. */
    method OnInitialSession(check: SessionCheck)
      modifies this
      ensures check.CheckDone? ==> user == UserOf(check.session) && !loading
      ensures check.CheckDone? ==> Value() == ContextValue(UserOf(check.session), false)
      ensures check.CheckRejected? ==> user == old(user) && loading == old(loading)
    {
      if check.CheckDone? {
        user := UserOf(check.session);
        loading := false;
      }
    }

    /**
     * The auth-state listener. `existing` is what the profile lookup returned
     * (nothing when the profile is missing or the lookup failed); the result is
     * the profile row inserted, if any.
     */
    method OnAuthStateChange(event: string, session: Option<Session>, existing: Option<ProfileRow>, now: string)
      returns (insert: Option<ProfileRow>)
      modifies this
      ensures user == UserOf(session) && !loading
      ensures Value() == ContextValue(UserOf(session), false)
      ensures insert.Some? <==> event == "SIGNED_IN" && session.Some? && existing.None?
      ensures insert.Some? ==>
        insert.value == ProfileRow(session.value.user.id, DefaultUsername(session.value.user.email),
                                   session.value.user.avatarUrl, now)
    {
      user := UserOf(session);
      loading := false;
      insert := None;
      if event == SignedInEvent && session.Some? {
        var u := session.value.user;
        if existing.None? {
          insert := Some(ProfileRow(u.id, DefaultUsername(u.email), u.avatarUrl, now));
        }
      }
    }
  }
}
