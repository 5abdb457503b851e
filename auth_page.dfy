/** The sign-in / sign-up screen (`AuthPage` in src/app/auth/page.tsx): what a
    submission does with the reply of the user API, and the screen's two flags
    `isSignUp` (which form is shown) and `isLoading` (a request is in flight).

    The API call itself is an input: the parsed reply, or what it threw. A
    toast and a `router.push` are returned to the caller as values. */
module AuthPage {
  import opened AuthTypes
  import opened Routes
  import opened AuthStore
  import opened CredentialRules

  datatype Toast = SuccessToast(text: string) | ErrorToast(text: string)

  const LoginSucceededText: string := "Giriş başarılı!"
  const LoginFailedText: string := "Giriş başarısız"
  const RegisterSucceededText: string := "Kayıt başarılı! Şimdi giriş yapabilirsiniz."
  const RegisterFailedText: string := "Kayıt başarısız"
  const UnknownErrorText: string := "Bir hata oluştu"

  /** JavaScript's `message || fallback` on a string: the empty string is falsy. */
  function OrElse(message: string, fallback: string): (r: string)
    ensures message != "" ==> r == message
    ensures message == "" ==> r == fallback
  {
    if message != "" then message else fallback
  }

  /** `error instanceof Error ? error.message : 'Bir hata oluştu'`: an `Error`
      shows its own message even when that message is empty. */
  function ThrownText(t: Thrown): (text: string)
    ensures t.Some? && t.value.ErrorInstance? ==> text == t.value.message
    ensures !(t.Some? && t.value.ErrorInstance?) ==> text == UnknownErrorText
    ensures text == "" ==> t == Some(ErrorInstance(""))
  {
    match t
    case Some(ErrorInstance(m)) => m
    case _ => UnknownErrorText
  }

  // ---------------------------------------------------------------------------
  // Sign in

  /** `response.success && response.data`: the credentials a login reply hands to the store. */
  function LoginGrant(reply: Reply<AuthResponse>): (g: Option<LoginData>)
    ensures g.Some? <==> reply.Replied? && reply.response.success && reply.response.data.Some?
    ensures g.Some? ==> g == reply.response.data
  {
    match reply
    case Replied(r) => if r.success && r.data.Some? then r.data else None
    case Threw(_) => None
  }

  /** The toast `onSignIn` shows. */
  function SignInToast(reply: Reply<AuthResponse>): (t: Toast)
    ensures t.SuccessToast? <==> LoginGrant(reply).Some?
  {
    match reply
    case Replied(r) =>
      if r.success && r.data.Some? then SuccessToast(LoginSucceededText)
      else ErrorToast(OrElse(r.message, LoginFailedText))
    case Threw(e) => ErrorToast(ThrownText(e))
  }

  /** Where `onSignIn` navigates, if anywhere. */
  function SignInNavigation(reply: Reply<AuthResponse>): (nav: Option<string>)
    ensures nav.Some? <==> LoginGrant(reply).Some?
    ensures nav.Some? ==> nav.value == DashboardPath
  {
    if LoginGrant(reply).Some? then Some(DashboardPath) else None
  }

  /** A reply that does not sign in shows the server's message, or
      'Giriş başarısız' when that message is empty. */
  lemma RejectedLoginText(r: AuthResponse)
    requires !(r.success && r.data.Some?)
    ensures SignInToast(Replied(r)) == ErrorToast(if r.message == "" then LoginFailedText else r.message)
    ensures SignInNavigation(Replied(r)) == None
  {
  }

  /** A thrown `Error` shows its message verbatim; anything else thrown shows
      'Bir hata oluştu'. Neither signs in. */
  lemma ThrownLoginText(t: Thrown)
    ensures SignInToast(Threw(t)) == ErrorToast(if t.Some? && t.value.ErrorInstance? then t.value.message else UnknownErrorText)
    ensures LoginGrant(Threw(t)) == None
  {
  }

  /** The error toast of a sign-in is blank only after an `Error` with an empty
      message was thrown. */
  lemma SignInErrorTextBlankOnlyForEmptyError(reply: Reply<AuthResponse>)
    requires SignInToast(reply) == ErrorToast("")
    ensures reply == Threw(Some(ErrorInstance("")))
  {
  }

  /** The store after a sign-in completes, from the store before it. */
  function StoreAfterSignIn(prior: AuthState, reply: Reply<AuthResponse>): (s: AuthState)
    ensures LoginGrant(reply).None? ==> s == prior
    ensures LoginGrant(reply).Some? ==>
      s == SetUserState(prior, LoginGrant(reply).value.user, LoginGrant(reply).value.accessToken)
  {
    match LoginGrant(reply)
    case Some(d) => SetUserState(prior, d.user, d.accessToken)
    case None => prior
  }

  /** A sign-in that navigates to the dashboard has stored the reply's user and
      token; one that does not navigate has left the store as it was. */
  lemma SignInStoresIffNavigates(prior: AuthState, reply: Reply<AuthResponse>)
    ensures SignInNavigation(reply) == Some(DashboardPath) ==>
      && reply.Replied?
      && StoreAfterSignIn(prior, reply)
         == AuthState(Some(WithToken(reply.response.data.value.user, reply.response.data.value.accessToken)), true)
    ensures SignInNavigation(reply) == None ==> StoreAfterSignIn(prior, reply) == prior
    ensures Consistent(prior) ==> Consistent(StoreAfterSignIn(prior, reply))
  {
  }

  // ---------------------------------------------------------------------------
  // Sign up

  /** `response.success`: registration does not look at `data`. */
  predicate RegisterAccepted(reply: Reply<RegisterResponse>)
    ensures RegisterAccepted(reply) ==> reply.Replied?
  {
    reply.Replied? && reply.response.success
  }

  /** Whether a registration is accepted, and the toast it shows, do not depend
      on the reply's `data`. */
  lemma RegistrationIgnoresData(r: RegisterResponse, d: Option<RegisteredUser>)
    ensures RegisterAccepted(Replied(r)) == RegisterAccepted(Replied(r.(data := d)))
    ensures SignUpToast(Replied(r)) == SignUpToast(Replied(r.(data := d)))
  {
  }

  /** The toast `onSignUp` shows. */
  function SignUpToast(reply: Reply<RegisterResponse>): (t: Toast)
    ensures t.SuccessToast? <==> RegisterAccepted(reply)
  {
    match reply
    case Replied(r) =>
      if r.success then SuccessToast(RegisterSucceededText)
      else ErrorToast(OrElse(r.message, RegisterFailedText))
    case Threw(e) => ErrorToast(ThrownText(e))
  }

  lemma RejectedRegisterText(r: RegisterResponse)
    requires !r.success
    ensures SignUpToast(Replied(r)) == ErrorToast(if r.message == "" then RegisterFailedText else r.message)
  {
  }

  // ---------------------------------------------------------------------------
  // The screen

  class AuthScreen {
    var isSignUp: bool
    var isLoading: bool
    /** The values of the sign-up form. */
    var signUpForm: SignUpForm
    /** The session store the screen writes to. */
    const store: Store

    constructor (store: Store)
      ensures !isSignUp && !isLoading && signUpForm == EmptySignUpForm && this.store == store
    {
      isSignUp := false;
      isLoading := false;
      signUpForm := EmptySignUpForm;
      this.store := store;
    }

    /** The "Sign up" / "Sign in" link: `setIsSignUp(!isSignUp)`. */
    method ToggleMode()
      modifies this`isSignUp
      ensures isSignUp == !old(isSignUp)
    {
      isSignUp := !isSignUp;
    }

    /** The user edits the sign-up form's fields. */
    method EditSignUpForm(f: SignUpForm)
      modifies this`signUpForm
      ensures signUpForm == f
    {
      signUpForm := f;
    }

    /** The part of `onSignIn` / `onSignUp` before the request is awaited. */
    method BeginRequest()
      modifies this`isLoading
      ensures isLoading
    {
      isLoading := true;
    }

    /** The part of `onSignIn` after the login reply arrives, `finally` included. */
    method CompleteSignIn(reply: Reply<AuthResponse>) returns (toast: Toast, navigation: Option<string>)
      modifies this`isLoading, store
      ensures !isLoading
      ensures old(store.Valid()) ==> store.Valid()
      ensures store.State() == StoreAfterSignIn(old(store.State()), reply)
      ensures toast == SignInToast(reply) && navigation == SignInNavigation(reply)
    {
      match reply {
        case Replied(r) =>
          if r.success && r.data.Some? {
            store.SetUser(r.data.value.user, r.data.value.accessToken);
            toast := SuccessToast(LoginSucceededText);
            navigation := Some(DashboardPath);
          } else {
            toast := ErrorToast(OrElse(r.message, LoginFailedText));
            navigation := None;
          }
        case Threw(e) =>
          toast := ErrorToast(ThrownText(e));
          navigation := None;
      }
      isLoading := false;
    }

    /** The part of `onSignUp` after the registration reply arrives. A
        registration never touches the store. */
    method CompleteSignUp(reply: Reply<RegisterResponse>) returns (toast: Toast)
      modifies this`isLoading, this`isSignUp, this`signUpForm
      ensures !isLoading
      ensures RegisterAccepted(reply) ==> !isSignUp && signUpForm == EmptySignUpForm
      ensures !RegisterAccepted(reply) ==> isSignUp == old(isSignUp) && signUpForm == old(signUpForm)
      ensures toast == SignUpToast(reply)
      ensures unchanged(store)
    {
      match reply {
        case Replied(r) =>
          if r.success {
            toast := SuccessToast(RegisterSucceededText);
            isSignUp := false;
            signUpForm := EmptySignUpForm;
          } else {
            toast := ErrorToast(OrElse(r.message, RegisterFailedText));
          }
        case Threw(e) =>
          toast := ErrorToast(ThrownText(e));
      }
      isLoading := false;
    }

    /** `onSignIn` run to the end without other events in between. */
    method OnSignIn(reply: Reply<AuthResponse>) returns (toast: Toast, navigation: Option<string>)
      modifies this`isLoading, store
      ensures !isLoading
      ensures old(store.Valid()) ==> store.Valid()
      ensures store.State() == StoreAfterSignIn(old(store.State()), reply)
      ensures toast == SignInToast(reply) && navigation == SignInNavigation(reply)
    {
      BeginRequest();
      toast, navigation := CompleteSignIn(reply);
    }

    /** `onSignUp` run to the end without other events in between. */
    method OnSignUp(reply: Reply<RegisterResponse>) returns (toast: Toast)
      modifies this`isLoading, this`isSignUp, this`signUpForm
      ensures !isLoading
      ensures RegisterAccepted(reply) ==> !isSignUp && signUpForm == EmptySignUpForm
      ensures !RegisterAccepted(reply) ==> isSignUp == old(isSignUp) && signUpForm == old(signUpForm)
      ensures toast == SignUpToast(reply)
      ensures unchanged(store)
    {
      BeginRequest();
      toast := CompleteSignUp(reply);
    }

    /** `signInForm.handleSubmit(onSignIn)`: the schema runs first; only a form
        without issues reaches `onSignIn`. */
    method SubmitSignIn(f: SignInForm, emailOk: bool, reply: Reply<AuthResponse>)
      returns (issues: seq<Issue>, toast: Option<Toast>, navigation: Option<string>)
      modifies this`isLoading, store
      ensures issues == SignInIssues(f, emailOk)
      ensures issues != [] ==> toast == None && navigation == None
      ensures issues != [] ==> isLoading == old(isLoading) && store.State() == old(store.State())
      ensures issues == [] ==> !isLoading && store.State() == StoreAfterSignIn(old(store.State()), reply)
      ensures issues == [] ==> toast == Some(SignInToast(reply)) && navigation == SignInNavigation(reply)
    {
      issues := SignInIssues(f, emailOk);
      if issues == [] {
        var t;
        t, navigation := OnSignIn(reply);
        toast := Some(t);
      } else {
        toast, navigation := None, None;
      }
    }

    /** `signUpForm.handleSubmit(onSignUp)` on the form's current values. */
    method SubmitSignUp(emailOk: bool, reply: Reply<RegisterResponse>)
      returns (issues: seq<Issue>, toast: Option<Toast>)
      modifies this`isLoading, this`isSignUp, this`signUpForm
      ensures issues == SignUpIssues(old(signUpForm), emailOk)
      ensures issues != [] ==> toast == None && isLoading == old(isLoading)
      ensures issues != [] || !RegisterAccepted(reply) ==> isSignUp == old(isSignUp) && signUpForm == old(signUpForm)
      ensures issues == [] ==> !isLoading && toast == Some(SignUpToast(reply))
      ensures issues == [] && RegisterAccepted(reply) ==> !isSignUp && signUpForm == EmptySignUpForm
      ensures unchanged(store)
    {
      issues := SignUpIssues(signUpForm, emailOk);
      if issues == [] {
        var t := OnSignUp(reply);
        toast := Some(t);
      } else {
        toast := None;
      }
    }
  }

  /** What a user of the screen sees: toggling twice restores the mode. */
  method ToggleTwice(screen: AuthScreen)
    modifies screen`isSignUp
    ensures screen.isSignUp == old(screen.isSignUp)
  {
    screen.ToggleMode();
    screen.ToggleMode();
  }
}
