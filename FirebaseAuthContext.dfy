/**
  The session context (contexts/FirebaseAuthContext.tsx): the signed-in user record, the last
  error message, the loading flag and the first-login flag, with the auth-state listener and
  the account operations that update them, and the rule that picks the screen after sign-in.

  The authentication service and the profile database are not modelled: what they return
  (the authenticated user, the profile document, success or an error) is an input of each
  operation, and navigation is the route an operation returns.
 */
module FirebaseAuthContext {
  import opened Wrappers
  import opened Text

  /** The screen shown after sign-in. */
  datatype Route = SetDisplayName | ServeyMain | Home

  function RoutePath(r: Route): (p: string)
    ensures p in {"/(auth)/setDisplayName", "/(auth)/serveyMain", "/(tabs)/home"}
  {
    match r
    case SetDisplayName => "/(auth)/setDisplayName"
    case ServeyMain => "/(auth)/serveyMain"
    case Home => "/(tabs)/home"
  }

  /** The authenticated account as the authentication service reports it. */
  datatype AuthUser = AuthUser(uid: string, email: Option<string>, displayName: Option<string>)

  /** The user's profile document; a field missing or null is None. */
  datatype ProfileDoc = ProfileDoc(
    displayName: Option<string>,
    surveyCompleted: Option<bool>,
    isFirstLogin: Option<bool>)

  /**
    The context's `user` object. Its fields are optional because the program spreads a
    previous value that may be null (`{...null, email}` is `{email}`).
   */
  datatype User = User(
    displayName: Option<string>,
    email: Option<string>,
    uid: Option<string>,
    surveyCompleted: Option<bool>)

  /** A thrown error: its `code` and `message`, either possibly missing. */
  datatype AuthError = AuthError(code: Option<string>, message: Option<string>)

  const DEFAULT_ERROR_MESSAGE := "알 수 없는 오류가 발생했습니다."
  const UNKNOWN_ERROR_CODE := "UNKNOWN"
  const NO_SIGNED_IN_USER := "현재 로그인된 사용자가 없습니다."

  /** `new Error(NO_SIGNED_IN_USER)`: a message and no code. */
  const NoUserError := AuthError(None, Some(NO_SIGNED_IN_USER))

  /** JavaScript truthiness of an optional string: present and non-empty. */
  predicate TruthyText(s: Option<string>) {
    s.Some? && s.value != ""
  }

  /** `a ?? b`. */
  function OrElse<T>(a: Option<T>, b: Option<T>): (r: Option<T>)
    ensures a.Some? ==> r == a
    ensures a.None? ==> r == b
  {
    if a.Some? then a else b
  }

  /** `doc?.displayName`. */
  function DocDisplayName(doc: Option<ProfileDoc>): Option<string> {
    if doc.Some? then doc.value.displayName else None
  }

  /** `doc?.surveyCompleted`. */
  function DocSurveyCompleted(doc: Option<ProfileDoc>): Option<bool> {
    if doc.Some? then doc.value.surveyCompleted else None
  }

  /**
    The user record built from the account and its profile (listener and `signIn`): the name
    from the profile, falling back to the account's; whether the survey is done from the
    profile, false by default; e-mail and uid always from the account.
   */
  function BuildUser(account: AuthUser, doc: Option<ProfileDoc>): (u: User)
    ensures u.email == account.email && u.uid == Some(account.uid)
    ensures DocDisplayName(doc).Some? ==> u.displayName == DocDisplayName(doc)
    ensures DocDisplayName(doc).None? ==> u.displayName == account.displayName
    ensures u.surveyCompleted == Some(DocSurveyCompleted(doc) == Some(true))
  {
    var surveyCompleted := OrElse(DocSurveyCompleted(doc), Some(false));
    assert surveyCompleted.value <==> DocSurveyCompleted(doc) == Some(true);
    User(OrElse(DocDisplayName(doc), account.displayName), account.email, Some(account.uid), surveyCompleted)
  }

  /**
    Where to go after sign-in, decided from the profile: without a (non-empty) name, to the
    name screen whatever the survey state; with a name but the survey not done, to the
    survey; otherwise home.
   */
  function PostLoginRoute(doc: Option<ProfileDoc>): (r: Route)
    ensures r == SetDisplayName <==> !TruthyText(DocDisplayName(doc))
    ensures r == ServeyMain <==> TruthyText(DocDisplayName(doc)) && DocSurveyCompleted(doc) != Some(true)
    ensures r == Home <==> TruthyText(DocDisplayName(doc)) && DocSurveyCompleted(doc) == Some(true)
  {
    if !TruthyText(DocDisplayName(doc)) then SetDisplayName
    else if DocSurveyCompleted(doc) != Some(true) then ServeyMain
    else Home
  }

  /** With a name in the profile, the route goes home exactly when the built user has done the survey. */
  lemma RouteAgreesWithUser(account: AuthUser, doc: Option<ProfileDoc>)
    requires TruthyText(DocDisplayName(doc))
    ensures TruthyText(BuildUser(account, doc).displayName)
    ensures PostLoginRoute(doc) == Home <==> BuildUser(account, doc).surveyCompleted == Some(true)
    ensures PostLoginRoute(doc) == ServeyMain <==> BuildUser(account, doc).surveyCompleted == Some(false)
  {
  }

  /**
    The route reads the profile, not the built user: a user whose account has a name but
    whose profile has none is still sent to the name screen, and so is one whose profile
    name is empty.
   */
  lemma RouteIgnoresAccountName(account: AuthUser, doc: ProfileDoc)
    requires TruthyText(account.displayName) && doc.displayName.None?
    ensures TruthyText(BuildUser(account, Some(doc)).displayName)
    ensures PostLoginRoute(Some(doc)) == SetDisplayName
  {
  }

  /** The profile `signUp` writes: no name, survey not done. */
  function NewProfile(): (doc: ProfileDoc)
    ensures PostLoginRoute(Some(doc)) == SetDisplayName
    ensures doc.surveyCompleted == Some(false)
  {
    ProfileDoc(None, Some(false), None)
  }

  /** The user record `signUp` sets: no name, survey not done, the account's e-mail and uid. */
  function SignedUpUser(account: AuthUser): (u: User)
    ensures u.displayName.None? && u.surveyCompleted == Some(false)
    ensures u.email == account.email && u.uid == Some(account.uid)
  {
    User(None, account.email, Some(account.uid), Some(false))
  }

  /** A freshly signed-up user who signs in with an unnamed account is sent to the name screen and gets the same record. */
  lemma SignUpThenSignIn(account: AuthUser)
    requires account.displayName.None?
    ensures PostLoginRoute(Some(NewProfile())) == SetDisplayName
    ensures BuildUser(account, Some(NewProfile())) == SignedUpUser(account)
  {
  }

  /** `e.message || DEFAULT_ERROR_MESSAGE`: the text stored in `error`, never empty. */
  function ErrorMessage(e: AuthError): (m: string)
    ensures m != ""
    ensures TruthyText(e.message) ==> m == e.message.value
    ensures !TruthyText(e.message) ==> m == DEFAULT_ERROR_MESSAGE
  {
    if TruthyText(e.message) then e.message.value else DEFAULT_ERROR_MESSAGE
  }

  /** `e.code || "UNKNOWN"`: used only in the log line. */
  function ErrorCode(e: AuthError): (c: string)
    ensures c != ""
    ensures TruthyText(e.code) ==> c == e.code.value
    ensures !TruthyText(e.code) ==> c == UNKNOWN_ERROR_CODE
  {
    if TruthyText(e.code) then e.code.value else UNKNOWN_ERROR_CODE
  }

  const LOG_PREFIX := "Firebase 에러 ["

  /** The line `handleError` logs: the code in brackets, then the message at the end. */
  function ErrorLogLine(e: AuthError): (s: string)
    ensures HasPrefix(s, LOG_PREFIX + ErrorCode(e) + "]: ")
    ensures |s| >= |ErrorMessage(e)| && s[|s| - |ErrorMessage(e)|..] == ErrorMessage(e)
  {
    var head := LOG_PREFIX + ErrorCode(e) + "]: ";
    var s := head + ErrorMessage(e);
    assert s[..|head|] == head && s[|head|..] == ErrorMessage(e);
    s
  }

  /** What the profile read in the listener yields. */
  datatype ProfileFetch = Fetched(doc: Option<ProfileDoc>) | FetchFailed

  /** `{...prev, displayName: name}` */
  function WithDisplayName(prev: Option<User>, name: string): (u: User)
    ensures u.displayName == Some(name)
    ensures prev.Some? ==> u.email == prev.value.email && u.uid == prev.value.uid &&
                           u.surveyCompleted == prev.value.surveyCompleted
  {
    match prev
    case Some(p) => p.(displayName := Some(name))
    case None => User(Some(name), None, None, None)
  }

  /** `{...prev, email: newEmail}`; spreading a null user leaves only the e-mail. */
  function WithEmail(prev: Option<User>, newEmail: string): (u: User)
    ensures u.email == Some(newEmail)
    ensures prev.Some? ==> u.displayName == prev.value.displayName && u.uid == prev.value.uid &&
                           u.surveyCompleted == prev.value.surveyCompleted
    ensures prev.None? ==> u.displayName.None? && u.uid.None? && u.surveyCompleted.None?
  {
    match prev
    case Some(p) => p.(email := Some(newEmail))
    case None => User(None, Some(newEmail), None, None)
  }

  /** The provider's state. */
  class AuthContext {
    var user: Option<User>
    var isLoading: bool
    var error: Option<string>
    var isFirstLogin: bool
    /** Every value passed to `setIsLoading`, oldest first. */
    ghost var loadingLog: seq<bool>

    constructor ()
      ensures user == None && isLoading && error == None && !isFirstLogin && loadingLog == []
    {
      user := None;
      isLoading := true;
      error := None;
      isFirstLogin := false;
      loadingLog := [];
    }

    method SetIsLoading(b: bool)
      modifies this
      ensures isLoading == b && loadingLog == old(loadingLog) + [b]
      ensures user == old(user) && error == old(error) && isFirstLogin == old(isFirstLogin)
    {
      isLoading := b;
      loadingLog := loadingLog + [b];
    }

    /**
      The auth-state listener, for the account it is called with and the result of reading
      that account's profile. Loading is switched on first and off last on every path; a
      failed read signs the user out of the context; a missing profile changes nothing.
     */
    method OnAuthStateChanged(account: Option<AuthUser>, fetch: ProfileFetch) returns (route: Option<Route>)
      modifies this
      ensures loadingLog == old(loadingLog) + [true, false] && !isLoading
      ensures error == old(error)
      ensures account.None? ==> user == None && route == None && isFirstLogin == old(isFirstLogin)
      ensures account.Some? && fetch.FetchFailed? ==>
                user == None && route == None && isFirstLogin == old(isFirstLogin)
      ensures account.Some? && fetch == Fetched(None) ==>
                user == old(user) && route == None && isFirstLogin == old(isFirstLogin)
      ensures account.Some? && fetch.Fetched? && fetch.doc.Some? ==>
                user == Some(BuildUser(account.value, fetch.doc)) &&
                route == Some(PostLoginRoute(fetch.doc)) &&
                isFirstLogin == (fetch.doc.value.isFirstLogin == Some(true))
    {
      SetIsLoading(true);
      route := None;
      if account.Some? {
        match fetch
        case FetchFailed =>
          user := None;
        case Fetched(userData) =>
          if userData.Some? {
            isFirstLogin := userData.value.isFirstLogin == Some(true);
            user := Some(BuildUser(account.value, userData));
            route := Some(PostLoginRoute(userData));
          }
      } else {
        user := None;
      }
      SetIsLoading(false);
    }

    /** Stores the message of `e` (or the default text) in `error`; returns the logged line. */
    method HandleError(e: AuthError) returns (logged: string)
      modifies this
      ensures error == Some(ErrorMessage(e)) && logged == ErrorLogLine(e)
      ensures user == old(user) && isLoading == old(isLoading) && isFirstLogin == old(isFirstLogin)
      ensures loadingLog == old(loadingLog)
    {
      var errorCode := ErrorCode(e);
      var errorMessage := ErrorMessage(e);
      logged := LOG_PREFIX + errorCode + "]: " + errorMessage;
      error := Some(errorMessage);
    }

    method ClearError()
      modifies this
      ensures error == None
      ensures user == old(user) && isLoading == old(isLoading) && isFirstLogin == old(isFirstLogin)
      ensures loadingLog == old(loadingLog)
    {
      error := None;
    }

    /**
      `signIn`, given what signing in and reading the profile returned (the profile may be
      missing). The error is cleared first; a failure records its message.
     */
    method SignIn(outcome: Result<(AuthUser, Option<ProfileDoc>), AuthError>) returns (route: Option<Route>)
      modifies this
      ensures isLoading == old(isLoading) && isFirstLogin == old(isFirstLogin)
      ensures loadingLog == old(loadingLog)
      ensures outcome.Success? ==>
                error == None && route == Some(PostLoginRoute(outcome.value.1)) &&
                user == Some(BuildUser(outcome.value.0, outcome.value.1))
      ensures outcome.Failure? ==>
                error == Some(ErrorMessage(outcome.error)) && route == None && user == old(user)
    {
      ClearError();
      route := None;
      match outcome
      case Success((account, userData)) =>
        user := Some(BuildUser(account, userData));
        route := Some(PostLoginRoute(userData));
      case Failure(e) =>
        var _ := HandleError(e);
    }

    /**
      `signUp`, given the created account or the error of creating it or of writing its
      profile. Returns the profile written.
     */
    method SignUp(outcome: Result<AuthUser, AuthError>) returns (written: Option<ProfileDoc>)
      modifies this
      ensures isLoading == old(isLoading) && isFirstLogin == old(isFirstLogin)
      ensures loadingLog == old(loadingLog)
      ensures outcome.Success? ==>
                error == None && written == Some(NewProfile()) && user == Some(SignedUpUser(outcome.value))
      ensures outcome.Failure? ==>
                error == Some(ErrorMessage(outcome.error)) && written == None && user == old(user)
    {
      ClearError();
      written := None;
      match outcome
      case Success(account) =>
        written := Some(NewProfile());
        user := Some(User(None, account.email, Some(account.uid), Some(false)));
      case Failure(e) =>
        var _ := HandleError(e);
    }

    method SignOut(outcome: Outcome<AuthError>)
      modifies this
      ensures isLoading == old(isLoading) && isFirstLogin == old(isFirstLogin)
      ensures loadingLog == old(loadingLog)
      ensures outcome.Pass? ==> user == None && error == old(error)
      ensures outcome.Fail? ==> user == old(user) && error == Some(ErrorMessage(outcome.error))
    {
      match outcome
      case Pass =>
        user := None;
      case Fail(e) =>
        var _ := HandleError(e);
    }

    /**
      `updateDisplayName(name)`. `current` is the service's signed-in account; `remote` is the
      result of updating the account and the profile. Without an account or without a user
      in the context, the "no signed-in user" error is recorded. On success only the name of
      the user changes. Errors are recorded, not rethrown.
     */
    method UpdateDisplayName(name: string, current: Option<AuthUser>, remote: Outcome<AuthError>)
      modifies this
      ensures isLoading == old(isLoading) && isFirstLogin == old(isFirstLogin)
      ensures loadingLog == old(loadingLog)
      ensures current.None? || old(user).None? ==>
                user == old(user) && error == Some(NO_SIGNED_IN_USER)
      ensures current.Some? && old(user).Some? && remote.Fail? ==>
                user == old(user) && error == Some(ErrorMessage(remote.error))
      ensures current.Some? && old(user).Some? && remote.Pass? ==>
                user == Some(WithDisplayName(old(user), name)) && error == old(error)
    {
      if current.None? || user.None? {
        var _ := HandleError(NoUserError);
      } else {
        match remote
        case Fail(e) =>
          var _ := HandleError(e);
        case Pass =>
          user := Some(WithDisplayName(user, name));
      }
    }

    /**
      `updateUserEmail(newEmail)`: like UpdateDisplayName for the e-mail, except that only the
      service account is checked and that every error is recorded and rethrown (returned).
     */
    method UpdateUserEmail(newEmail: string, current: Option<AuthUser>, remote: Outcome<AuthError>)
      returns (thrown: Option<AuthError>)
      modifies this
      ensures isLoading == old(isLoading) && isFirstLogin == old(isFirstLogin)
      ensures loadingLog == old(loadingLog)
      ensures current.None? ==>
                user == old(user) && error == Some(NO_SIGNED_IN_USER) && thrown == Some(NoUserError)
      ensures current.Some? && remote.Fail? ==>
                user == old(user) && error == Some(ErrorMessage(remote.error)) && thrown == Some(remote.error)
      ensures current.Some? && remote.Pass? ==>
                user == Some(WithEmail(old(user), newEmail)) && error == old(error) && thrown == None
    {
      thrown := None;
      if current.None? {
        var _ := HandleError(NoUserError);
        thrown := Some(NoUserError);
      } else {
        match remote
        case Fail(e) =>
          var _ := HandleError(e);
          thrown := Some(e);
        case Pass =>
          user := Some(WithEmail(user, newEmail));
      }
    }

    /** `sendPasswordReset`: a failure is recorded and rethrown; nothing else changes. */
    method SendPasswordReset(outcome: Outcome<AuthError>) returns (thrown: Option<AuthError>)
      modifies this
      ensures user == old(user) && isLoading == old(isLoading) && isFirstLogin == old(isFirstLogin)
      ensures loadingLog == old(loadingLog)
      ensures outcome.Pass? ==> error == old(error) && thrown == None
      ensures outcome.Fail? ==> error == Some(ErrorMessage(outcome.error)) && thrown == Some(outcome.error)
    {
      thrown := None;
      if outcome.Fail? {
        var _ := HandleError(outcome.error);
        thrown := Some(outcome.error);
      }
    }

    /**
      `deleteAccount`: without a signed-in account, the "no signed-in user" error; otherwise
      the result of deleting the account's data and the account. Success clears the user;
      every error is recorded and rethrown.
     */
    method DeleteAccount(current: Option<AuthUser>, outcome: Outcome<AuthError>) returns (thrown: Option<AuthError>)
      modifies this
      ensures isLoading == old(isLoading) && isFirstLogin == old(isFirstLogin)
      ensures loadingLog == old(loadingLog)
      ensures current.None? ==>
                user == old(user) && error == Some(NO_SIGNED_IN_USER) && thrown == Some(NoUserError)
      ensures current.Some? && outcome.Fail? ==>
                user == old(user) && error == Some(ErrorMessage(outcome.error)) && thrown == Some(outcome.error)
      ensures current.Some? && outcome.Pass? ==> user == None && error == old(error) && thrown == None
    {
      thrown := None;
      if current.None? {
        var _ := HandleError(NoUserError);
        thrown := Some(NoUserError);
      } else {
        match outcome
        case Fail(e) =>
          var _ := HandleError(e);
          thrown := Some(e);
        case Pass =>
          user := None;
      }
    }
  }
}
