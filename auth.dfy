/** The login form (auth/AuthViewModel.kt): field edits, the ordered validation
    chain, and the handling of the repository's answer to an e-mail or Google login.

    A one-time event is modelled by its payload: `Some(message)` or `true` while an
    event is pending, `None` or `false` when there is none. The e-mail pattern match
    is the `emailFormatOk` parameter. */
module Auth {
  import opened Wrappers
  import opened Text
  import opened AuthRepository

  datatype AuthState = AuthState(
    email: string := "",
    password: string := "",
    isPasswordVisible: bool := false,
    showPasswordField: bool := true,
    isLoading: bool := false,
    emailError: Option<string> := None,
    passwordError: Option<string> := None,
    loginError: Option<string> := None,
    navigateToSignUp: bool := false,
    navigateToHome: bool := false)

  const EmailEmpty := "Email cannot be empty"
  const EmailInvalid := "Please enter a valid email address"
  const PasswordEmpty := "Password cannot be empty"
  const PasswordShort := "Password must be at least 6 characters"

  /** The message a failed check writes, and the field it is written to. */
  datatype FieldError = EmailError(message: string) | PasswordError(message: string)

  /** The guard chain of `onEmailLoginClicked`: the first failing check, or `None`
      when the login may go ahead. */
  function LoginValidation(email: string, password: string, emailFormatOk: bool): (r: Option<FieldError>)
    ensures IsBlank(email) ==> r == Some(EmailError(EmailEmpty))
    ensures !IsBlank(email) && !emailFormatOk ==> r == Some(EmailError(EmailInvalid))
    ensures !IsBlank(email) && emailFormatOk && IsBlank(password) ==> r == Some(PasswordError(PasswordEmpty))
    ensures !IsBlank(email) && emailFormatOk && !IsBlank(password) && Utf16Length(password) < 6 ==> r == Some(PasswordError(PasswordShort))
    ensures r.None? <==> !IsBlank(email) && emailFormatOk && !IsBlank(password) && Utf16Length(password) >= 6
  {
    if IsBlank(email) then Some(EmailError(EmailEmpty))
    else if !emailFormatOk then Some(EmailError(EmailInvalid))
    else if IsBlank(password) then Some(PasswordError(PasswordEmpty))
    else if Utf16Length(password) < 6 then Some(PasswordError(PasswordShort))
    else None
  }

  /** An e-mail problem hides any password problem: with a blank or malformed e-mail
      the password is never looked at. */
  lemma EmailCheckedFirst(email: string, p1: string, p2: string, emailFormatOk: bool)
    requires IsBlank(email) || !emailFormatOk
    ensures LoginValidation(email, p1, emailFormatOk) == LoginValidation(email, p2, emailFormatOk)
    ensures LoginValidation(email, p1, emailFormatOk).value.EmailError?
  {
  }

  /** Six spaces are long enough but blank, so they are refused as an empty password. */
  lemma BlankLongPasswordRefused(email: string)
    requires !IsBlank(email)
    ensures LoginValidation(email, "      ", true) == Some(PasswordError(PasswordEmpty))
  {
    assert IsWhitespace("      "[0]);
  }

  /** The length check counts UTF-16 code units, as Kotlin's `length` does: four letters
      and an emoji (a surrogate pair) make six and pass, although they are five
      characters. */
  lemma SurrogatePairCountsTwice(email: string)
    requires !IsBlank(email)
    ensures |"abcd\U{1F600}"| == 5
    ensures LoginValidation(email, "abcd\U{1F600}", true).None?
  {
    assert !IsWhitespace("abcd\U{1F600}"[0]);
  }

  /** The state a validation failure leaves: its message in its field, nothing else. */
  function WithFieldError(s: AuthState, e: FieldError): (r: AuthState)
    ensures e.EmailError? ==> r == s.(emailError := Some(e.message))
    ensures e.PasswordError? ==> r == s.(passwordError := Some(e.message))
  {
    match e
    case EmailError(m) => s.(emailError := Some(m))
    case PasswordError(m) => s.(passwordError := Some(m))
  }

  class AuthViewModel {
    var state: AuthState

    constructor ()
      ensures state == AuthState()
      ensures state.email == "" && state.showPasswordField && !state.isLoading
    {
      state := AuthState();
    }

    method OnEmailChanged(email: string)
      modifies this
      ensures state == old(state).(email := email, emailError := None)
    {
      state := state.(email := email, emailError := None);
    }

    method OnPasswordChanged(password: string)
      modifies this
      ensures state == old(state).(password := password, passwordError := None)
    {
      state := state.(password := password, passwordError := None);
    }

    method OnTogglePasswordVisibility()
      modifies this
      ensures state == old(state).(isPasswordVisible := !old(state).isPasswordVisible)
    {
      state := state.(isPasswordVisible := !state.isPasswordVisible);
    }

    method OnLoginError(message: string)
      modifies this
      ensures state == old(state).(loginError := Some(message))
    {
      state := state.(loginError := Some(message));
    }

    /** `onEmailLoginClicked`. A failed check writes its message and stops. Otherwise the
        field errors are cleared and the loading flag raised (`whileWaiting`), the
        e-mail and password are handed to `login` (`credentials`), and its `result`
        either raises the login-error event or the navigate-home event. */
    method OnEmailLoginClicked(emailFormatOk: bool, result: AuthResult)
      returns (credentials: Option<(string, string)>, ghost whileWaiting: AuthState)
      modifies this
      ensures var v := LoginValidation(old(state).email, old(state).password, emailFormatOk);
        v.Some? ==> credentials.None? && state == WithFieldError(old(state), v.value)
      ensures var v := LoginValidation(old(state).email, old(state).password, emailFormatOk);
        v.None? ==>
          credentials == Some((old(state).email, old(state).password))
          && whileWaiting == old(state).(isLoading := true, emailError := None, passwordError := None)
      ensures credentials.Some? && result.AuthError? ==>
        state == whileWaiting.(isLoading := false, loginError := Some(result.message))
      ensures credentials.Some? && result.AuthSuccess? ==>
        state == whileWaiting.(isLoading := false, navigateToHome := true)
    {
      var email := state.email;
      var password := state.password;
      whileWaiting := state;
      credentials := None;
      if IsBlank(email) {
        state := state.(emailError := Some(EmailEmpty));
        return;
      }
      if !emailFormatOk {
        state := state.(emailError := Some(EmailInvalid));
        return;
      }
      if IsBlank(password) {
        state := state.(passwordError := Some(PasswordEmpty));
        return;
      }
      if Utf16Length(password) < 6 {
        state := state.(passwordError := Some(PasswordShort));
        return;
      }
      state := state.(isLoading := true, emailError := None, passwordError := None);
      whileWaiting := state;
      credentials := Some((email, password));
      match result
      case AuthError(message) =>
        state := state.(isLoading := false, loginError := Some(message));
      case AuthSuccess(_) =>
        state := state.(isLoading := false, navigateToHome := true);
    }

    /** `onGoogleIdTokenReceived`: an error raises the login-error event; a success only
        lowers the loading flag and raises no navigation event. */
    method OnGoogleIdTokenReceived(result: AuthResult) returns (ghost whileWaiting: AuthState)
      modifies this
      ensures whileWaiting == old(state).(isLoading := true)
      ensures result.AuthError? ==> state == whileWaiting.(isLoading := false, loginError := Some(result.message))
      ensures result.AuthSuccess? ==> state == whileWaiting.(isLoading := false)
    {
      state := state.(isLoading := true);
      whileWaiting := state;
      match result
      case AuthError(message) =>
        state := state.(isLoading := false, loginError := Some(message));
      case AuthSuccess(_) =>
        state := state.(isLoading := false);
    }

    method OnNavigateToSignUpHandled()
      modifies this
      ensures state == old(state).(navigateToSignUp := false)
    {
      state := state.(navigateToSignUp := false);
    }
  }

  /** Toggling the password visibility twice restores the form. */
  method ToggleVisibilityTwice(vm: AuthViewModel)
    modifies vm
    ensures vm.state == old(vm.state)
  {
    vm.OnTogglePasswordVisibility();
    vm.OnTogglePasswordVisibility();
  }

  /** A rejected login touches one error field only: the e-mail, the password, the
      loading flag and every event are as before, and `login` is not called. */
  method RejectedLoginChangesOneError(vm: AuthViewModel, emailFormatOk: bool, result: AuthResult)
    returns (credentials: Option<(string, string)>)
    modifies vm
    requires LoginValidation(vm.state.email, vm.state.password, emailFormatOk).Some?
    ensures credentials.None?
    ensures vm.state.email == old(vm.state.email) && vm.state.password == old(vm.state.password)
    ensures vm.state.isLoading == old(vm.state.isLoading) && vm.state.loginError == old(vm.state.loginError)
    ensures vm.state.navigateToHome == old(vm.state.navigateToHome)
    ensures vm.state.emailError == old(vm.state.emailError) || vm.state.passwordError == old(vm.state.passwordError)
  {
    ghost var whileWaiting;
    credentials, whileWaiting := vm.OnEmailLoginClicked(emailFormatOk, result);
  }
}
