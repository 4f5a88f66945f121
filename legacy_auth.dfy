/** The plain-script login page `js/auth.js`. Its strength heuristic and validators are the same
    text as in `src/auth.ts` and are modelled by the `Auth` definitions; its submit handlers
    only decide validity (they store nothing). */
module LegacyAuth {
  import opened Common
  import Auth

  /** `checkPasswordStrength` of this script: the same six one-point checks. */
  method CheckPasswordStrength(password: string) returns (strength: Auth.Strength)
    ensures strength == Auth.PasswordStrength(password)
  {
    if |password| == 0 {
      return Auth.NoStrength;
    }
    var strengthScore := 0;
    if |password| >= 8 { strengthScore := strengthScore + 1; }
    if |password| >= 12 { strengthScore := strengthScore + 1; }
    if Auth.HasUpper(password) { strengthScore := strengthScore + 1; }
    if Auth.HasLower(password) { strengthScore := strengthScore + 1; }
    if Auth.HasDigit(password) { strengthScore := strengthScore + 1; }
    if Auth.HasSpecial(password) { strengthScore := strengthScore + 1; }
    if strengthScore <= 2 {
      return Auth.Weak;
    } else if strengthScore <= 4 {
      return Auth.Medium;
    } else {
      return Auth.Strong;
    }
  }

  /** The login submit handler: valid exactly when the address is accepted and the password is
      non-blank with at least 8 characters. */
  method SubmitLogin(email: string, password: string) returns (isValid: bool, form: Auth.LoginForm)
    ensures form == Auth.LoginForm(Auth.EmailError(email), Auth.PasswordError(password))
    ensures isValid <==> Auth.ValidateEmail(email) && Trim(password) != [] && |password| >= 8
  {
    isValid := true;
    var emailError := Auth.EmailError(email);
    if emailError.Some? {
      isValid := false;
    }
    var passwordError := Auth.PasswordError(password);
    if passwordError.Some? {
      isValid := false;
    }
    Auth.EmailErrorMatchesValidator(email);
    Auth.FieldErrorsMatchValidators(password, "", "", "");
    form := Auth.LoginForm(emailError, passwordError);
  }

  /** The register submit handler: invalid as soon as any field check fails or the terms box
      is unticked. */
  method SubmitRegister(name: string, email: string, id: string, password: string, confirm: string, termsChecked: bool)
    returns (isValid: bool, form: Auth.RegisterForm)
    ensures form == Auth.RegisterForm(Auth.NameError(name), Auth.EmailError(email), Auth.IdError(id),
                                      Auth.PasswordError(password), Auth.ConfirmError(password, confirm), !termsChecked)
    ensures isValid <==>
              form.nameError.None? && form.emailError.None? && form.idError.None?
              && form.passwordError.None? && form.confirmError.None? && termsChecked
    ensures isValid ==> Auth.ValidateName(name) && Auth.ValidateEmail(email) && Auth.ValidateID(id)
                        && |password| >= 8 && confirm == password
  {
    isValid := true;
    var nameError := Auth.NameError(name);
    if nameError.Some? { isValid := false; }
    var emailError := Auth.EmailError(email);
    if emailError.Some? { isValid := false; }
    var idError := Auth.IdError(id);
    if idError.Some? { isValid := false; }
    var passwordError := Auth.PasswordError(password);
    if passwordError.Some? { isValid := false; }
    var confirmError := Auth.ConfirmError(password, confirm);
    if confirmError.Some? { isValid := false; }
    if !termsChecked { isValid := false; }
    Auth.EmailErrorMatchesValidator(email);
    Auth.FieldErrorsMatchValidators(password, name, id, confirm);
    form := Auth.RegisterForm(nameError, emailError, idError, passwordError, confirmError, !termsChecked);
  }
}
