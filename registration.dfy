/**
 * The sign-up form: the live checks run as each field is typed, the full
 * validation run on Register (every check runs, none short-circuits), and
 * the registration request it lets through with the chosen role.
 */
module Registration {
  import opened Wrappers
  import Validators

  const NAME_ERROR := "Name should only contain alphabets."
  const EMAIL_ERROR := "Invalid email format."
  const PASSWORD_ERROR := "Password must be at least 8 characters."
  const PHONE_ALERT := "Phone number must be exactly 11 digits."
  const FILL_ALERT := "Please fill all fields."

  /** The two roles the picker offers; the form starts on Hostellite. */
  datatype Role = Hostellite | Hosteller

  function RoleValue(r: Role): (v: string)
    ensures v == "Hostellite" || v == "Hosteller"
    ensures v == "Hostellite" <==> r == Hostellite
  {
    match r
    case Hostellite => "Hostellite"
    case Hosteller => "Hosteller"
  }

  /** What `registerUser` is dispatched with. */
  datatype RegistrationData = RegistrationData(name: string, email: string, phone: string, password: string, role: string)

  /** The four checks `validateInput` makes besides the fill-all check. The
      phone check only counts characters; it does not ask for digits. */
  predicate ChecksPass(name: string, email: string, password: string, phone: string) {
    Validators.IsName(name) && Validators.IsEmail(email) && |password| >= 8 && |phone| == 11
  }

  /** The fill-all check never decides anything: an empty field already
      fails its own check. */
  lemma FillAllRedundant(name: string, email: string, password: string, phone: string)
    requires ChecksPass(name, email, password, phone)
    ensures name != "" && email != "" && password != "" && phone != ""
  {
    Validators.EmptyIsNotEmail();
  }

  /** Eleven characters of any kind pass the phone check here (unlike the
      profile form, which wants digits). */
  lemma PhoneCountsOnly(name: string, email: string, password: string)
    requires Validators.IsName(name) && Validators.IsEmail(email) && |password| >= 8
    ensures ChecksPass(name, email, password, "abcdefghijk")
    ensures !Validators.IsElevenDigits("abcdefghijk")
  {
    assert !('0' <= "abcdefghijk"[0] <= '9');
  }

  class RegistrationForm {
    var role: Role
    var name: string
    var email: string
    var phone: string
    var password: string
    var nameError: string
    var emailError: string
    var passwordError: string

    constructor ()
      ensures role == Hostellite
      ensures name == "" && email == "" && phone == "" && password == ""
      ensures nameError == "" && emailError == "" && passwordError == ""
    {
      role := Hostellite;
      name, email, phone, password := "", "", "", "";
      nameError, emailError, passwordError := "", "", "";
    }

    /** The picker. */
    method SetRole(r: Role)
      modifies this`role
      ensures role == r
    {
      role := r;
    }

    /** Typing a name re-runs the name check: its error is empty exactly
        when the new name passes. */
    method ChangeName(text: string)
      modifies this`name, this`nameError
      ensures name == text
      ensures nameError == "" <==> Validators.IsName(text)
      ensures nameError != "" ==> nameError == NAME_ERROR
    {
      name := text;
      if !Validators.IsName(text) {
        nameError := NAME_ERROR;
      } else {
        nameError := "";
      }
    }

    /** Typing an e-mail re-runs the e-mail check. */
    method ChangeEmail(text: string)
      modifies this`email, this`emailError
      ensures email == text
      ensures emailError == "" <==> Validators.IsEmail(text)
      ensures emailError != "" ==> emailError == EMAIL_ERROR
    {
      email := text;
      if !Validators.IsEmail(text) {
        emailError := EMAIL_ERROR;
      } else {
        emailError := "";
      }
    }

    /** Typing a password re-runs the length check. */
    method ChangePassword(text: string)
      modifies this`password, this`passwordError
      ensures password == text
      ensures passwordError == "" <==> |text| >= 8
      ensures passwordError != "" ==> passwordError == PASSWORD_ERROR
    {
      password := text;
      if |text| < 8 {
        passwordError := PASSWORD_ERROR;
      } else {
        passwordError := "";
      }
    }

    /** The phone field has no live check. */
    method ChangePhone(text: string)
      modifies this`phone
      ensures phone == text
    {
      phone := text;
    }

    /** `validateInput`: all five checks run in turn, each failing one setting
        its error (or raising its alert) and clearing `valid`; a passing check
        clears nothing, so errors left by the live checks stay. The result is
        true iff the four field checks pass. `alerts` lists the alerts raised,
        in order. */
    method ValidateInput() returns (valid: bool, alerts: seq<string>)
      modifies this`nameError, this`emailError, this`passwordError
      ensures valid <==> ChecksPass(name, email, password, phone)
      ensures nameError == if Validators.IsName(name) then old(nameError) else NAME_ERROR
      ensures emailError == if Validators.IsEmail(email) then old(emailError) else EMAIL_ERROR
      ensures passwordError == if |password| >= 8 then old(passwordError) else PASSWORD_ERROR
      ensures alerts == (if |phone| != 11 then [PHONE_ALERT] else [])
        + (if name == "" || email == "" || password == "" || phone == "" then [FILL_ALERT] else [])
    {
      valid := true;
      alerts := [];
      if !Validators.IsName(name) {
        nameError := NAME_ERROR;
        valid := false;
      }
      if !Validators.IsEmail(email) {
        emailError := EMAIL_ERROR;
        valid := false;
      }
      if |password| < 8 {
        passwordError := PASSWORD_ERROR;
        valid := false;
      }
      if phone == "" || |phone| != 11 {
        alerts := alerts + [PHONE_ALERT];
        valid := false;
      }
      if name == "" || email == "" || password == "" || phone == "" {
        alerts := alerts + [FILL_ALERT];
        valid := false;
      }
    }

    /** `handleRegister`: the request is dispatched only when the input is
        valid, and carries the chosen role. */
    method HandleRegister() returns (request: Option<RegistrationData>)
      modifies this`nameError, this`emailError, this`passwordError
      ensures request.Some? <==> ChecksPass(name, email, password, phone)
      ensures request.Some? ==> request.value == RegistrationData(name, email, phone, password, RoleValue(role))
    {
      var valid, _ := ValidateInput();
      if !valid {
        return None;
      }
      return Some(RegistrationData(name, email, phone, password, RoleValue(role)));
    }
  }
}
