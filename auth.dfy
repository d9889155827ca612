/** The sign-in page: email sign-in, email sign-up and Google sign-in. Each handler checks
    its inputs first, then sets `isLoading` for the duration of one call to the
    authentication service, and afterwards shows a toast and, on success only, navigates to
    the dashboard. The call's outcome is a parameter, so every handler is split into the part
    before the call and the part after it. */
module Auth {
  import opened Prims

  const MIN_PASSWORD_LENGTH: nat := 6
  const DASHBOARD: string := "/dashboard"
  const SIGN_IN_TAB: string := "signin"
  const SIGN_UP_TAB: string := "signup"

  /** The verdict of a handler's checks before any call is made. */
  datatype Precheck = Proceed | MissingCredentials | PasswordTooShort

  function PrecheckMessage(p: Precheck): string
    requires p != Proceed
  {
    match p
    case MissingCredentials => "Please enter email and password"
    case PasswordTooShort => "Password must be at least 6 characters"
  }

  /** handleEmailSignIn's check: `!email || !password` rejects. */
  function SignInPrecheck(email: string, password: string): (p: Precheck)
    ensures p == Proceed <==> email != "" && password != ""
    ensures p != PasswordTooShort
  {
    if email == "" || password == "" then MissingCredentials else Proceed
  }

  /** handleEmailSignUp's checks: missing credentials first, then a password shorter than
      six characters. */
  function SignUpPrecheck(email: string, password: string): (p: Precheck)
    ensures p == MissingCredentials <==> email == "" || password == ""
    ensures p == PasswordTooShort <==> email != "" && password != "" && |password| < MIN_PASSWORD_LENGTH
    ensures p == Proceed <==> email != "" && |password| >= MIN_PASSWORD_LENGTH
  {
    if email == "" || password == "" then MissingCredentials
    else if |password| < MIN_PASSWORD_LENGTH then PasswordTooShort
    else Proceed
  }

  /** Whatever sign-up lets through, sign-in lets through too, and the two reject missing
      credentials alike. */
  lemma SignUpStricterThanSignIn(email: string, password: string)
    ensures SignUpPrecheck(email, password) == Proceed ==> SignInPrecheck(email, password) == Proceed
    ensures SignUpPrecheck(email, password) == MissingCredentials <==>
            SignInPrecheck(email, password) == MissingCredentials
  {
  }

  /** The call a handler makes to the authentication service. */
  datatype AuthCall =
    | EmailSignIn(email: string, password: string)
    | EmailSignUp(email: string, password: string)
    | GoogleSignIn

  datatype AuthResult = Succeeded | Failed(message: string)

  datatype Toast = ErrorToast(text: string) | SuccessToast(text: string)

  function SuccessText(c: AuthCall): string {
    match c
    case EmailSignIn(_, _) => "Successfully signed in!"
    case EmailSignUp(_, _) => "Account created successfully!"
    case GoogleSignIn => "Successfully signed in with Google!"
  }

  /** What the page shows after a call ends: the success text or the error's message. */
  function ToastAfter(c: AuthCall, result: AuthResult): (t: Toast)
    ensures t.SuccessToast? <==> result.Succeeded?
    ensures result.Failed? ==> t.text == result.message
  {
    if result.Succeeded? then SuccessToast(SuccessText(c)) else ErrorToast(result.message)
  }

  class AuthPage {
    var email: string
    var password: string
    var name: string
    var isLoading: bool
    var activeTab: string
    /** The call in flight, if any. */
    var pending: Option<AuthCall>
    var toasts: seq<Toast>
    /** The routes pushed so far. */
    var navigations: seq<string>

    /** `isLoading` is set exactly while a call is in flight. */
    predicate Valid()
      reads this
    {
      && (isLoading <==> pending.Some?)
      && (activeTab == SIGN_IN_TAB || activeTab == SIGN_UP_TAB)
    }

    constructor()
      ensures Valid()
      ensures email == "" && password == "" && name == ""
      ensures !isLoading && activeTab == SIGN_IN_TAB
      ensures toasts == [] && navigations == []
    {
      email, password, name := "", "", "";
      isLoading := false;
      activeTab := SIGN_IN_TAB;
      pending := None;
      toasts, navigations := [], [];
    }

    /** Typing into the email and password inputs, which are disabled while a call is in
        flight. */
    method SetCredentials(email: string, password: string)
      requires Valid() && !isLoading
      modifies this
      ensures Valid()
      ensures this.email == email && this.password == password && name == old(name)
      ensures isLoading == old(isLoading) && pending == old(pending) && activeTab == old(activeTab)
      ensures toasts == old(toasts) && navigations == old(navigations)
    {
      this.email := email;
      this.password := password;
    }

    /** Typing into the sign-up form's name input, which stays enabled while a call is in
        flight; the call already made is not affected. */
    method SetName(name: string)
      requires Valid()
      modifies this
      ensures Valid()
      ensures this.name == name && email == old(email) && password == old(password)
      ensures isLoading == old(isLoading) && pending == old(pending) && activeTab == old(activeTab)
      ensures toasts == old(toasts) && navigations == old(navigations)
    {
      this.name := name;
    }

    method SetActiveTab(tab: string)
      requires Valid()
      requires tab == SIGN_IN_TAB || tab == SIGN_UP_TAB
      modifies this
      ensures Valid()
      ensures activeTab == tab
      ensures email == old(email) && password == old(password) && name == old(name)
      ensures isLoading == old(isLoading) && pending == old(pending)
      ensures toasts == old(toasts) && navigations == old(navigations)
    {
      activeTab := tab;
    }

    /** handleEmailSignIn up to the call: rejected inputs toast and leave `isLoading` alone;
        accepted ones start the call. The button is disabled while loading. */
    method HandleEmailSignIn()
      requires Valid() && !isLoading
      modifies this
      ensures Valid()
      ensures SignInPrecheck(email, password) != Proceed ==>
        && !isLoading && pending.None?
        && toasts == old(toasts) + [ErrorToast(PrecheckMessage(SignInPrecheck(email, password)))]
      ensures SignInPrecheck(email, password) == Proceed ==>
        isLoading && pending == Some(EmailSignIn(email, password)) && toasts == old(toasts)
      ensures email == old(email) && password == old(password) && name == old(name)
      ensures activeTab == old(activeTab) && navigations == old(navigations)
    {
      var check := SignInPrecheck(email, password);
      if check != Proceed {
        toasts := toasts + [ErrorToast(PrecheckMessage(check))];
        return;
      }
      isLoading := true;
      pending := Some(EmailSignIn(email, password));
    }

    /** handleEmailSignUp up to the call, with the extra password-length check. */
    method HandleEmailSignUp()
      requires Valid() && !isLoading
      modifies this
      ensures Valid()
      ensures SignUpPrecheck(email, password) != Proceed ==>
        && !isLoading && pending.None?
        && toasts == old(toasts) + [ErrorToast(PrecheckMessage(SignUpPrecheck(email, password)))]
      ensures SignUpPrecheck(email, password) == Proceed ==>
        isLoading && pending == Some(EmailSignUp(email, password)) && toasts == old(toasts)
      ensures email == old(email) && password == old(password) && name == old(name)
      ensures activeTab == old(activeTab) && navigations == old(navigations)
    {
      var check := SignUpPrecheck(email, password);
      if check != Proceed {
        toasts := toasts + [ErrorToast(PrecheckMessage(check))];
        return;
      }
      isLoading := true;
      pending := Some(EmailSignUp(email, password));
    }

    /** handleGoogleSignIn up to the popup: no checks. */
    method HandleGoogleSignIn()
      requires Valid() && !isLoading
      modifies this
      ensures Valid()
      ensures isLoading && pending == Some(GoogleSignIn)
      ensures email == old(email) && password == old(password) && name == old(name)
      ensures activeTab == old(activeTab) && toasts == old(toasts) && navigations == old(navigations)
    {
      isLoading := true;
      pending := Some(GoogleSignIn);
    }

    /** The shared tail of the three handlers: a toast, the dashboard on success only, and
        `isLoading` cleared whatever the result. */
    method FinishAuthCall(result: AuthResult)
      requires Valid() && isLoading
      modifies this
      ensures Valid()
      ensures !isLoading && pending.None?
      ensures toasts == old(toasts) + [ToastAfter(old(pending).value, result)]
      ensures navigations == old(navigations) + (if result.Succeeded? then [DASHBOARD] else [])
      ensures email == old(email) && password == old(password) && name == old(name)
      ensures activeTab == old(activeTab)
    {
      toasts := toasts + [ToastAfter(pending.value, result)];
      if result.Succeeded? {
        navigations := navigations + [DASHBOARD];
      }
      isLoading := false;
      pending := None;
    }
  }
}
