/** The React sign-in page `src/pages/Login.tsx`: its own copy of the strength meter and two
    early-return submit handlers that check presence (and, for registration, length and
    confirmation) and then store the user record. */
module LoginPage {
  import opened Common
  import Store
  import Auth

  const MinPasswordLength := 8
  const FillAllFields := "Please fill in all fields"
  const PasswordTooShort := "Password must be at least 8 characters"
  const PasswordsDiffer := "Passwords do not match"

  /** `getPasswordStrength`: the same score and cut-offs as the login script's meter. */
  method GetPasswordStrength(password: string) returns (strength: Auth.Strength)
    ensures strength == Auth.PasswordStrength(password)
  {
    if password == "" {
      return Auth.NoStrength;
    }
    var score := 0;
    if |password| >= 8 { score := score + 1; }
    if |password| >= 12 { score := score + 1; }
    if Auth.HasUpper(password) { score := score + 1; }
    if Auth.HasLower(password) { score := score + 1; }
    if Auth.HasDigit(password) { score := score + 1; }
    if Auth.HasSpecial(password) { score := score + 1; }
    if score <= 2 { return Auth.Weak; }
    if score <= 4 { return Auth.Medium; }
    return Auth.Strong;
  }

  /** `handleLogin`: an empty field is the only rejection; the record is named after the part
      of the address before the first '@'. */
  function LoginAttempt(email: string, password: string, registeredAt: string): (r: Outcome<Store.UserData>)
    ensures r.Err? <==> email == [] || password == []
    ensures r.Err? ==> r.message == FillAllFields
    ensures r.Ok? ==> r.value.email == email && '@' !in r.value.name && r.value.name <= email
    ensures r.Ok? ==> r.value.name == BeforeFirst(email, '@')
    ensures r.Ok? ==> r.value.registeredAt == Some(registeredAt)
    ensures r.Ok? ==> r.value.id == None
    ensures r.Ok? && '@' in email ==> r.value.name + ['@'] <= email
    ensures r.Ok? && '@' !in email ==> r.value.name == email
  {
    if email == [] || password == [] then Err(FillAllFields)
    else
      var name := BeforeFirst(email, '@');
      assert name <= email by {
        if '@' in email {
          assert name + ['@'] <= email;
        }
      }
      Ok(Store.UserData(email, name, None, Some(registeredAt), None, None, None))
  }

  /** `handleRegister`: the first failure in the order empty field, short password, mismatch;
      on success the entered name, email and ID are stored as entered. */
  function RegisterAttempt(name: string, email: string, id: string, password: string, confirm: string,
                           registeredAt: string): (r: Outcome<Store.UserData>)
    ensures r.Ok? <==> name != [] && email != [] && id != [] && password != [] && confirm != []
                       && |password| >= MinPasswordLength && password == confirm
    ensures r.Ok? ==> r.value.name == name && r.value.email == email && r.value.id == Some(id)
    ensures r.Ok? ==> r.value.registeredAt == Some(registeredAt)
    ensures r.Err? && (name == [] || email == [] || id == [] || password == [] || confirm == []) ==> r.message == FillAllFields
    ensures (name != [] && email != [] && id != [] && password != [] && confirm != []
             && |password| < MinPasswordLength) ==> r == Err(PasswordTooShort)
    ensures (name != [] && email != [] && id != [] && password != [] && confirm != []
             && |password| >= MinPasswordLength && password != confirm) ==> r == Err(PasswordsDiffer)
  {
    if name == [] || email == [] || id == [] || password == [] || confirm == [] then Err(FillAllFields)
    else if |password| < MinPasswordLength then Err(PasswordTooShort)
    else if password != confirm then Err(PasswordsDiffer)
    else Ok(Store.UserData(email, name, Some(id), Some(registeredAt), None, None, None))
  }

  /** Submits the login form: on success the record is written (a failed write is swallowed by
      the store); the returned text is the error shown, empty when none. */
  method HandleLogin(storage: Store.LocalStorage, email: string, password: string, registeredAt: string, written: bool)
    returns (error: string)
    modifies storage
    ensures error == "" <==> LoginAttempt(email, password, registeredAt).Ok?
    ensures LoginAttempt(email, password, registeredAt).Err? ==> storage.items == old(storage.items)
    ensures LoginAttempt(email, password, registeredAt).Ok? ==>
              storage.items == if written
                               then old(storage.items)[Store.UserDataKey :=
                                      Store.Json(Store.UserDataDoc(Some(LoginAttempt(email, password, registeredAt).value)))]
                               else old(storage.items)
    ensures LoginAttempt(email, password, registeredAt).Ok? && written ==>
              Store.LoadUserData(storage.items) == Some(LoginAttempt(email, password, registeredAt).value)
  {
    error := "";
    if email == [] || password == [] {
      error := FillAllFields;
      return;
    }
    var userData := Store.UserData(email, BeforeFirst(email, '@'), None, Some(registeredAt), None, None, None);
    storage.SaveUserData(userData, written);
  }

  /** Submits the registration form, reporting only the first failure. */
  method HandleRegister(storage: Store.LocalStorage, name: string, email: string, id: string, password: string,
                        confirm: string, registeredAt: string, written: bool)
    returns (error: string)
    modifies storage
    ensures error == "" <==> RegisterAttempt(name, email, id, password, confirm, registeredAt).Ok?
    ensures error != "" ==> error == RegisterAttempt(name, email, id, password, confirm, registeredAt).message
    ensures error != "" ==> storage.items == old(storage.items)
    ensures error == "" ==>
              storage.items == if written
                               then old(storage.items)[Store.UserDataKey := Store.Json(Store.UserDataDoc(
                                      Some(RegisterAttempt(name, email, id, password, confirm, registeredAt).value)))]
                               else old(storage.items)
    ensures error == "" && written ==>
              Store.LoadUserData(storage.items) == Some(RegisterAttempt(name, email, id, password, confirm, registeredAt).value)
  {
    error := "";
    if name == [] || email == [] || id == [] || password == [] || confirm == [] {
      error := FillAllFields;
      return;
    }
    if |password| < MinPasswordLength {
      error := PasswordTooShort;
      return;
    }
    if password != confirm {
      error := PasswordsDiffer;
      return;
    }
    storage.SaveUserData(Store.UserData(email, name, Some(id), Some(registeredAt), None, None, None), written);
  }

  /** This page checks less than the login script: everything the script accepts it accepts,
      but it also takes "a@b", an address the browser's own `type="email"` check lets through
      and the script's pattern refuses, with a one-letter password; and where the script names
      a user "Dr. " + local part, this page stores the bare local part. */
  lemma PageAcceptsMoreThanScript(email: string, password: string, registeredAt: string)
    ensures Auth.ValidateEmail(email) && Trim(password) != [] && |password| >= 8 ==>
              LoginAttempt(email, password, registeredAt).Ok?
    ensures LoginAttempt("a@b", "y", registeredAt).Ok? && !Auth.ValidateEmail("a@b")
    ensures email != Auth.DemoEmail && LoginAttempt(email, password, registeredAt).Ok? ==>
              Auth.LoginName(email, password) == "Dr. " + LoginAttempt(email, password, registeredAt).value.name
  {
    if Auth.ValidateEmail(email) {
      Auth.ValidEmailShape(email);
    }
    Auth.InvalidEmailExamples();
  }

  /** Every registration the script accepts, this page accepts too; a one-letter name is one it
      accepts and the script does not. */
  lemma ScriptRegistrationIsPageRegistration(name: string, email: string, id: string, password: string, confirm: string, registeredAt: string)
    ensures Auth.ValidateName(name) && Auth.ValidateEmail(email) && Auth.ValidateID(id)
            && Trim(password) != [] && |password| >= 8 && confirm == password ==>
              RegisterAttempt(name, email, id, password, confirm, registeredAt).Ok?
    ensures RegisterAttempt("A", "a@b.co", "123", "password", "password", registeredAt).Ok? && !Auth.ValidateName("A")
  {
    if Auth.ValidateEmail(email) {
      Auth.ValidEmailShape(email);
    }
    assert |Trim("A")| <= 1 by {
      TrimIsInfix("A");
    }
  }
}
