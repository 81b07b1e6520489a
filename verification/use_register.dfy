/**
 * The registration form: its four fields, the ordered client-side checks
 * (the first failure wins), and what a submission does — call register,
 * then navigate or show the error that matches the failure.
 */
module UseRegister {
  import opened Common
  import opened AuthErrors
  import JsText

  datatype RegisterForm = RegisterForm(name: string, email: string, password: string, confirmPassword: string)

  /** The inputs the change handler can name. */
  datatype RegisterField = Name | Email | Password | ConfirmPassword

  const PasswordTooShort := "La contraseña debe tener al menos 8 caracteres."
  const PasswordsDiffer := "Las contraseñas no coinciden."
  const AccountExists := "Ya existe una cuenta con ese correo."
  const RegisterFallback := "No se pudo crear la cuenta."

  /** The shortest accepted password, in UTF-16 code units. */
  const MinPasswordLength := 8

  /** The checks in order: any empty field, then a short password, then a mismatched confirmation. */
  function Validate(form: RegisterForm): Option<string>
  {
    if form.name == "" || form.email == "" || form.password == "" || form.confirmPassword == "" then
      Some(AllRequired)
    else if JsText.Utf16Length(form.password) < MinPasswordLength then Some(PasswordTooShort)
    else if form.password != form.confirmPassword then Some(PasswordsDiffer)
    else None
  }

  /**
   * The form passes exactly when every field is filled, the password has
   * at least 8 code units and the confirmation repeats it; an earlier
   * failing check hides the later ones.
   */
  lemma ValidateOrder(form: RegisterForm)
    ensures Validate(form).None? <==>
      form.name != "" && form.email != "" && form.password != "" && form.confirmPassword != ""
      && JsText.Utf16Length(form.password) >= MinPasswordLength && form.password == form.confirmPassword
    ensures (form.name == "" || form.email == "" || form.password == "" || form.confirmPassword == "") ==>
      Validate(form) == Some(AllRequired)
    ensures Validate(form) == Some(PasswordTooShort) ==>
      form.name != "" && form.email != "" && form.password != "" && form.confirmPassword != ""
    ensures Validate(form) == Some(PasswordsDiffer) ==>
      JsText.Utf16Length(form.password) >= MinPasswordLength
  {
  }

  /** A filled form whose password of 8 code units or more is repeated passes. */
  lemma EightAccepted(name: string, email: string, password: string)
    requires name != "" && email != "" && JsText.Utf16Length(password) >= MinPasswordLength
    ensures Validate(RegisterForm(name, email, password, password)).None?
  {
  }

  /** The error a failed registration shows; 409 means the e-mail is taken (section 15.5.10 of RFC 9110). */
  function RegisterError(f: Failure): string
  {
    SubmitError(f, 409, AccountExists, RegisterFallback)
  }

  /**
   * 409 reads as "account exists", 429 as too many attempts, any other API
   * error as its own message or the fallback when that is empty, and a
   * failure that is not an API error as a connection problem; never empty.
   */
  lemma RegisterErrorCases(f: Failure)
    ensures f.ApiFailure? && f.status == 409 ==> RegisterError(f) == AccountExists
    ensures f.ApiFailure? && f.status == 429 ==> RegisterError(f) == TooManyAttempts
    ensures f.ApiFailure? && f.status != 409 && f.status != 429 ==>
      RegisterError(f) == (if f.message != "" then f.message else RegisterFallback)
    ensures !f.ApiFailure? ==> RegisterError(f) == ConnectionError
    ensures RegisterError(f) != ""
  {
    SubmitErrorNonEmpty(f, 409, AccountExists, RegisterFallback);
  }

  class RegisterState {
    var form: RegisterForm
    var error: string
    var showPassword: bool

    constructor()
      ensures form == RegisterForm("", "", "", "") && error == "" && !showPassword
    {
      form := RegisterForm("", "", "", "");
      error := "";
      showPassword := false;
    }

    /** Typing into a field sets that field only and clears the error. */
    method HandleChange(field: RegisterField, value: string)
      modifies this
      ensures field == Name ==> form == old(form).(name := value)
      ensures field == Email ==> form == old(form).(email := value)
      ensures field == Password ==> form == old(form).(password := value)
      ensures field == ConfirmPassword ==> form == old(form).(confirmPassword := value)
      ensures error == "" && showPassword == old(showPassword)
    {
      match field {
        case Name => form := form.(name := value);
        case Email => form := form.(email := value);
        case Password => form := form.(password := value);
        case ConfirmPassword => form := form.(confirmPassword := value);
      }
      error := "";
    }

    /** Flips the password visibility. */
    method TogglePassword()
      modifies this
      ensures showPassword == !old(showPassword)
      ensures form == old(form) && error == old(error)
    {
      showPassword := !showPassword;
    }

    /**
     * `handleSubmit`: the first failing check is shown and register is not
     * called; otherwise register is called and its outcome either navigates
     * to the dashboard or shows the matching error.
     */
    method HandleSubmit(outcome: Remote<()>) returns (registerCalled: bool, nav: Navigation)
      modifies this
      ensures registerCalled <==> Validate(old(form)).None?
      ensures !registerCalled ==> error == Validate(old(form)).value && nav == Stay
      ensures registerCalled && outcome.Ok? ==> nav == Push("/dashboard") && error == ""
      ensures registerCalled && outcome.Fail? ==> nav == Stay && error == RegisterError(outcome.failure)
      ensures form == old(form) && showPassword == old(showPassword)
    {
      error := "";
      var invalid := Validate(form);
      if invalid.Some? {
        error := invalid.value;
        return false, Stay;
      }
      registerCalled := true;
      match outcome {
        case Ok(_) =>
          nav := Push("/dashboard");
        case Fail(f) =>
          error := RegisterError(f);
          nav := Stay;
      }
    }
  }
}
