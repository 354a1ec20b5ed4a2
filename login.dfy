/**
 * The login form: `handleLogin`'s two checks, made in order after clearing
 * the local error, the request they let through, and the copy of the
 * store's error into the local one.
 */
module Login {
  import opened Wrappers
  import opened Entities
  import Validators

  const FILL_REQUIRED := "Please fill out all required fields."
  const INVALID_EMAIL := "Please enter a valid email address."

  /** What `loginUser` is dispatched with. */
  datatype Credentials = Credentials(email: string, password: string)

  /** The local error a login attempt ends with before any request: the
      fill check comes first, the e-mail format second ("" when both pass). */
  function LoginError(email: string, password: string): (e: string)
    ensures email == "" || password == "" ==> e == FILL_REQUIRED
    ensures email != "" && password != "" ==> (e == INVALID_EMAIL <==> !Validators.IsEmail(email))
    ensures e == "" <==> email != "" && password != "" && Validators.IsEmail(email)
  {
    if email == "" || password == "" then FILL_REQUIRED
    else if !Validators.IsEmail(email) then INVALID_EMAIL
    else ""
  }

  class LoginForm {
    var email: string
    var password: string
    var localError: string

    constructor ()
      ensures email == "" && password == "" && localError == ""
    {
      email, password, localError := "", "", "";
    }

    method ChangeEmail(text: string)
      modifies this`email
      ensures email == text
    {
      email := text;
    }

    method ChangePassword(text: string)
      modifies this`password
      ensures password == text
    {
      password := text;
    }

    /** `handleLogin`: the local error is cleared, then each failing check
        sets its message and returns; only when both pass is `loginUser`
        dispatched, with the typed e-mail and password. */
    method HandleLogin() returns (request: Option<Credentials>)
      modifies this`localError
      ensures localError == LoginError(email, password)
      ensures request.Some? <==> localError == ""
      ensures request.Some? ==> request.value == Credentials(email, password)
    {
      localError := "";
      if email == "" || password == "" {
        localError := FILL_REQUIRED;
        return None;
      }
      if !Validators.IsEmail(email) {
        localError := INVALID_EMAIL;
        return None;
      }
      return Some(Credentials(email, password));
    }

    /** The effect on the store's `error`: a non-empty one is copied into the
        local error; otherwise the local error stays. */
    method StoreErrorChanged(error: Option<string>)
      modifies this`localError
      ensures Truthy(error) ==> localError == error.value
      ensures !Truthy(error) ==> localError == old(localError)
    {
      if Truthy(error) {
        localError := error.value;
      }
    }
  }
}
