/** The sign-up form (auth/SignUpViewModel.kt): field edits, its two-step validation
    and the handling of the repository's answer. Events are modelled as in `Auth`. */
module SignUp {
  import opened Wrappers
  import opened Text
  import opened AuthRepository
  import Auth

  datatype SignUpState = SignUpState(
    email: string := "",
    password: string := "",
    isPasswordVisible: bool := false,
    isLoading: bool := false,
    emailError: Option<string> := None,
    passwordError: Option<string> := None,
    signUpError: Option<string> := None,
    navigateBackToLogin: bool := false)

  const EmailEmpty := "Email cannot be empty"
  const PasswordShort := "Password must be at least 6 characters"

  /** The guard chain of `onSignUpClicked`: a blank e-mail, then a password shorter than
      six UTF-16 code units; `None` when the sign-up may go ahead. */
  function SignUpValidation(email: string, password: string): (r: Option<Auth.FieldError>)
    ensures IsBlank(email) ==> r == Some(Auth.EmailError(EmailEmpty))
    ensures !IsBlank(email) && Utf16Length(password) < 6 ==> r == Some(Auth.PasswordError(PasswordShort))
    ensures r.None? <==> !IsBlank(email) && Utf16Length(password) >= 6
  {
    if IsBlank(email) then Some(Auth.EmailError(EmailEmpty))
    else if Utf16Length(password) < 6 then Some(Auth.PasswordError(PasswordShort))
    else None
  }

  /** Sign-up is more lenient than login: whatever login lets through, sign-up lets
      through, while sign-up also accepts a malformed e-mail and a password of six
      spaces, which login refuses. */
  lemma SignUpWeakerThanLogin(email: string, password: string, emailFormatOk: bool)
    ensures Auth.LoginValidation(email, password, emailFormatOk).None? ==> SignUpValidation(email, password).None?
    ensures !IsBlank(email) ==> SignUpValidation(email, "      ").None?
    ensures !IsBlank(email) ==> Auth.LoginValidation(email, "      ", emailFormatOk).Some?
  {
    assert IsWhitespace("      "[0]);
  }

  /** The state a validation failure leaves: its message in its field, nothing else. */
  function WithFieldError(s: SignUpState, e: Auth.FieldError): (r: SignUpState)
    ensures e.EmailError? ==> r == s.(emailError := Some(e.message))
    ensures e.PasswordError? ==> r == s.(passwordError := Some(e.message))
  {
    match e
    case EmailError(m) => s.(emailError := Some(m))
    case PasswordError(m) => s.(passwordError := Some(m))
  }

  /** The answer of the repository to a sign-up or Google sign-in: both outcomes lower
      the loading flag; an error raises the error event, a success the event that
      returns to the login screen. */
  function AfterAuthResult(s: SignUpState, result: AuthResult): (r: SignUpState)
    ensures result.AuthError? ==> r == s.(isLoading := false, signUpError := Some(result.message))
    ensures result.AuthSuccess? ==> r == s.(isLoading := false, navigateBackToLogin := true)
  {
    match result
    case AuthError(message) => s.(isLoading := false, signUpError := Some(message))
    case AuthSuccess(_) => s.(isLoading := false, navigateBackToLogin := true)
  }

  class SignUpViewModel {
    var state: SignUpState

    constructor ()
      ensures state == SignUpState()
      ensures state.email == "" && !state.isLoading && !state.navigateBackToLogin
    {
      state := SignUpState();
    }

    method OnEmailChanged(email: string)
      modifies this
      ensures state == old(state).(email := email, emailError := None)
    {
      state := state.(email := email, emailError := None);
    }

    method OnPasswordChanged(password: string)
      modifies this
      ensures state == old(state).(password := password, passwordError := None)
    {
      state := state.(password := password, passwordError := None);
    }

    method OnTogglePasswordVisibility()
      modifies this
      ensures state == old(state).(isPasswordVisible := !old(state).isPasswordVisible)
    {
      state := state.(isPasswordVisible := !state.isPasswordVisible);
    }

    /** `onSignUpClicked`. A failed check writes its message and stops. Otherwise the
        loading flag is raised (the field errors stay as they are), the e-mail and
        password are handed to `signup`, and its `result` is handled. */
    method OnSignUpClicked(result: AuthResult)
      returns (credentials: Option<(string, string)>, ghost whileWaiting: SignUpState)
      modifies this
      ensures var v := SignUpValidation(old(state).email, old(state).password);
        v.Some? ==> credentials.None? && state == WithFieldError(old(state), v.value)
      ensures var v := SignUpValidation(old(state).email, old(state).password);
        v.None? ==>
          credentials == Some((old(state).email, old(state).password))
          && whileWaiting == old(state).(isLoading := true)
          && state == AfterAuthResult(whileWaiting, result)
    {
      var current := state;
      whileWaiting := state;
      credentials := None;
      if IsBlank(current.email) {
        state := state.(emailError := Some(EmailEmpty));
        return;
      }
      if Utf16Length(current.password) < 6 {
        state := state.(passwordError := Some(PasswordShort));
        return;
      }
      state := state.(isLoading := true);
      whileWaiting := state;
      credentials := Some((current.email, current.password));
      match result
      case AuthError(message) =>
        state := state.(isLoading := false, signUpError := Some(message));
      case AuthSuccess(_) =>
        state := state.(isLoading := false, navigateBackToLogin := true);
    }

    /** `onGoogleIdTokenReceived`: unlike the login screen, a success here returns to
        the login screen. */
    method OnGoogleIdTokenReceived(result: AuthResult) returns (ghost whileWaiting: SignUpState)
      modifies this
      ensures whileWaiting == old(state).(isLoading := true)
      ensures state == AfterAuthResult(whileWaiting, result)
    {
      state := state.(isLoading := true);
      whileWaiting := state;
      match result
      case AuthError(message) =>
        state := state.(isLoading := false, signUpError := Some(message));
      case AuthSuccess(_) =>
        state := state.(isLoading := false, navigateBackToLogin := true);
    }

    method OnSignUpError(message: string)
      modifies this
      ensures state == old(state).(signUpError := Some(message))
    {
      state := state.(signUpError := Some(message));
    }

    method OnNavigateBackHandled()
      modifies this
      ensures state == old(state).(navigateBackToLogin := false)
    {
      state := state.(navigateBackToLogin := false);
    }
  }

  /** Toggling the password visibility twice restores the form. */
  method ToggleVisibilityTwice(vm: SignUpViewModel)
    modifies vm
    ensures vm.state == old(vm.state)
  {
    vm.OnTogglePasswordVisibility();
    vm.OnTogglePasswordVisibility();
  }
}
