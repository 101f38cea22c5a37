/**
 * The sign-in form of `src/components/auth/AuthForm.tsx`: the two inputs, the
 * sign-in handler that talks to the session store and reports through
 * toasts, and the register tab that only explains itself.
 */
module AuthForm {
  import opened Wrappers
  import Auth

  /** A toast: its title, its text, and whether it uses the destructive style. */
  datatype Toast = Toast(title: string, description: string, destructive: bool)

  const MissingInfo := Toast("Missing Information", "Please enter both email and password.", true)
  const Welcome := Toast("Welcome back!", "You have successfully signed in.", false)
  const RegisterInfo := Toast("Registration Information",
    "In this demo, please use the provided test accounts. Registration is not available.", false)
  const FallbackFailure := "Invalid email or password."

  /** The failure toast: the error the store returned, or the fallback text when it is missing or empty. */
  function FailureToast(error: Option<string>): (t: Toast)
    ensures t.title == "Authentication Failed" && t.destructive
    ensures error.Some? && error.value != "" ==> t.description == error.value
    ensures error.None? || error.value == "" ==> t.description == FallbackFailure
  {
    Toast("Authentication Failed", if error.Some? && error.value != "" then error.value else FallbackFailure, true)
  }

  /**
   * A failed sign-in always comes with a message from the store, so the toast
   * shows it and never the fallback; the two wrong-credentials texts differ
   * only by the final period.
   */
  lemma FailureShowsStoreMessage(email: string, password: string, interrupted: bool)
    requires !Auth.SignInResultFor(email, password, interrupted).success
    ensures FailureToast(Auth.SignInResultFor(email, password, interrupted).error).description ==
              if interrupted then Auth.SignInError else Auth.InvalidCredentials
    ensures FailureToast(Auth.SignInResultFor(email, password, interrupted).error).description != FallbackFailure
  {
  }

  /** The toast `handleSignIn` shows once the store has answered. */
  function OutcomeToast(r: Auth.SignInResult): (t: Toast)
    ensures t == Welcome <==> r.success
    ensures t.destructive <==> !r.success
  {
    if r.success then Welcome else FailureToast(r.error)
  }

  /** The two named inputs. */
  datatype InputName = EmailInput | PasswordInput

  /** The component's state, with the toasts shown and the routes navigated to so far. */
  class AuthFormView {
    var isLoading: bool
    var email: string
    var password: string
    var toasts: seq<Toast>
    var navigations: seq<string>

    constructor ()
      ensures !isLoading && email == "" && password == "" && toasts == [] && navigations == []
    {
      isLoading := false;
      email := "";
      password := "";
      toasts := [];
      navigations := [];
    }

    /** `handleChange`: store the value under the input's name, keep the other field. */
    method HandleChange(name: InputName, value: string)
      modifies this
      ensures name == EmailInput ==> email == value && password == old(password)
      ensures name == PasswordInput ==> password == value && email == old(email)
      ensures isLoading == old(isLoading) && toasts == old(toasts) && navigations == old(navigations)
    {
      if name == EmailInput {
        email := value;
      } else {
        password := value;
      }
    }

    /**
     * `handleSignIn`: refuse an empty field without touching the store;
     * otherwise sign in, greet and go to "/dashboard" on success, or show
     * the failure; the form is no longer loading at the end.
     */
    method HandleSignIn(store: Auth.SessionStore, interrupted: bool)
      requires store.Valid()
      modifies this, store
      ensures store.Valid()
      ensures email == old(email) && password == old(password)
      ensures email == "" || password == "" ==>
                toasts == old(toasts) + [MissingInfo] && navigations == old(navigations) &&
                isLoading == old(isLoading) &&
                store.state == old(store.state) && store.outbox == old(store.outbox)
      ensures store.listeners == old(store.listeners)
      ensures email != "" && password != "" ==>
                var r := Auth.SignInResultFor(email, password, interrupted);
                store.state == Auth.AfterSignIn(old(store.state), email, password, interrupted) &&
                store.outbox == old(store.outbox) + Auth.Broadcast(store.listeners, Auth.Loading(old(store.state))) +
                                Auth.Broadcast(store.listeners, store.state) &&
                toasts == old(toasts) + [OutcomeToast(r)] &&
                navigations == old(navigations) + (if r.success then ["/dashboard"] else []) &&
                !isLoading
    {
      if email == "" || password == "" {
        toasts := toasts + [MissingInfo];
        return;
      }
      isLoading := true;
      var r := store.SignIn(email, password, interrupted);
      if r.success {
        toasts := toasts + [Welcome];
        navigations := navigations + ["/dashboard"];
      } else {
        toasts := toasts + [FailureToast(r.error)];
      }
      isLoading := false;
    }

    /** `handleRegister`: only the information toast. */
    method HandleRegister()
      modifies this
      ensures toasts == old(toasts) + [RegisterInfo]
      ensures isLoading == old(isLoading) && email == old(email) && password == old(password)
      ensures navigations == old(navigations)
    {
      toasts := toasts + [RegisterInfo];
    }
  }

  /**
   * From the form: a visitor reaches "/dashboard" exactly when both fields
   * are filled, the email is one of the mock accounts and the password is
   * the mock one.
   */
  method SubmitSignIn(form: AuthFormView, store: Auth.SessionStore, interrupted: bool) returns (signedIn: bool)
    requires store.Valid()
    modifies form, store
    ensures store.Valid()
    ensures signedIn <==> |form.navigations| > |old(form.navigations)|
    ensures signedIn <==>
              old(form.email) != "" && !interrupted && old(form.password) == Auth.MockPassword &&
              exists i :: 0 <= i < |Auth.MockUsers| && Auth.MockUsers[i].email == old(form.email)
    ensures signedIn ==> store.state.isAuthenticated && store.state.user.Some? &&
                         store.state.user.value.email == old(form.email)
  {
    var before := |form.navigations|;
    form.HandleSignIn(store, interrupted);
    signedIn := |form.navigations| > before;
  }
}
