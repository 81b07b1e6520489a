/**
 * The login form: its two fields, the error line, the password
 * visibility toggle, and what a submission does — validate, call login,
 * then navigate or show the error that matches the failure.
 */
module UseLogin {
  import opened Common
  import opened AuthErrors

  datatype LoginForm = LoginForm(email: string, password: string)

  /** The inputs the change handler can name. */
  datatype LoginField = Email | Password

  const WrongCredentials := "Correo o contraseña incorrectos."
  const LoginFallback := "Error al iniciar sesión."

  /** The error a failed login shows; 401 is "wrong credentials" (section 15.5.2 of RFC 9110). */
  function LoginError(f: Failure): string
  {
    SubmitError(f, 401, WrongCredentials, LoginFallback)
  }

  /**
   * 401 reads as wrong credentials, 429 as too many attempts, any other API
   * error as its own message or the fallback when that is empty, and a
   * failure that is not an API error as a connection problem; never empty.
   */
  lemma LoginErrorCases(f: Failure)
    ensures f.ApiFailure? && f.status == 401 ==> LoginError(f) == WrongCredentials
    ensures f.ApiFailure? && f.status == 429 ==> LoginError(f) == TooManyAttempts
    ensures f.ApiFailure? && f.status != 401 && f.status != 429 ==>
      LoginError(f) == (if f.message != "" then f.message else LoginFallback)
    ensures !f.ApiFailure? ==> LoginError(f) == ConnectionError
    ensures LoginError(f) != ""
  {
    SubmitErrorNonEmpty(f, 401, WrongCredentials, LoginFallback);
  }

  /** The client-side check: both fields must be non-empty. */
  function Validate(form: LoginForm): (r: Option<string>)
    ensures r.None? <==> form.email != "" && form.password != ""
    ensures r.Some? ==> r.value == AllRequired
  {
    if form.email == "" || form.password == "" then Some(AllRequired) else None
  }

  class LoginState {
    var form: LoginForm
    var error: string
    var showPassword: bool

    constructor()
      ensures form == LoginForm("", "") && error == "" && !showPassword
    {
      form := LoginForm("", "");
      error := "";
      showPassword := false;
    }

    /** Typing into a field sets that field only and clears the error. */
    method HandleChange(field: LoginField, value: string)
      modifies this
      ensures field == Email ==> form == old(form).(email := value)
      ensures field == Password ==> form == old(form).(password := value)
      ensures error == "" && showPassword == old(showPassword)
    {
      match field {
        case Email => form := form.(email := value);
        case Password => form := form.(password := value);
      }
      error := "";
    }

    /** Flips the password visibility, so two toggles restore it. */
    method TogglePassword()
      modifies this
      ensures showPassword == !old(showPassword)
      ensures form == old(form) && error == old(error)
    {
      showPassword := !showPassword;
    }

    /**
     * `handleSubmit`: an incomplete form shows the "all fields" error and
     * login is not called; otherwise login is called and its outcome either
     * navigates to the dashboard or shows the matching error.
     */
    method HandleSubmit(outcome: Remote<()>) returns (loginCalled: bool, nav: Navigation)
      modifies this
      ensures loginCalled <==> Validate(old(form)).None?
      ensures !loginCalled ==> error == AllRequired && nav == Stay
      ensures loginCalled && outcome.Ok? ==> nav == Push("/dashboard") && error == ""
      ensures loginCalled && outcome.Fail? ==> nav == Stay && error == LoginError(outcome.failure)
      ensures nav == Push("/dashboard") ==> loginCalled && outcome.Ok?
      ensures form == old(form) && showPassword == old(showPassword)
    {
      error := "";
      var invalid := Validate(form);
      if invalid.Some? {
        error := invalid.value;
        return false, Stay;
      }
      loginCalled := true;
      match outcome {
        case Ok(_) =>
          nav := Push("/dashboard");
        case Fail(f) =>
          error := LoginError(f);
          nav := Stay;
      }
    }
  }
}
