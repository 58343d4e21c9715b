/**
  The login screen: the e-mail field with its verdict flag, the ordered checks
  in front of the authentication request and the mapping of a failed
  request to the message shown.
 */
module Login {
  import opened Wrappers
  import Email

  const FillAllFields := "Lütfen tüm alanları doldurun."
  const EnterValidEmail := "Geçerli bir e-posta adresi girin."
  const BadCredentialsText := "E-posta adresi veya şifre hatalı."
  const LoginFailed := "Giriş yapılamadı."
  const LoginDone := "Giriş yapıldı!"

  /** The backend's answer: a token, or failure with the `message` it carried, if any. */
  datatype Reply = Authenticated(token: string) | Failed(message: Option<string>)

  datatype LoginOutcome =
    | Refused(toast: string)      // a check stopped the submit; nothing sent
    | LoggedIn(token: string, toast: string)  // the token to store before moving to the home screen
    | LoginError(toast: string)   // sent and refused by the backend

  /** The checks of `handleLogin`, in their order: an empty field, then a flag that is not "valid". */
  function LoginCheck(email: string, password: string, isEmailValid: Option<bool>): (refusal: Option<string>)
    ensures refusal == Some(FillAllFields) <==> email == "" || password == ""
    ensures refusal == Some(EnterValidEmail) <==> email != "" && password != "" && isEmailValid != Some(true)
    ensures refusal == None <==> email != "" && password != "" && isEmailValid == Some(true)
  {
    if email == "" || password == "" then Some(FillAllFields)
    else if isEmailValid != Some(true) then Some(EnterValidEmail)
    else None
  }

  /** The message for a failed request: only the backend's 'Bad credentials' gets its own text. */
  function LoginErrorMessage(message: Option<string>): (toast: string)
    ensures toast == BadCredentialsText <==> message == Some("Bad credentials")
    ensures toast == LoginFailed <==> message != Some("Bad credentials")
  {
    if message == Some("Bad credentials") then BadCredentialsText else LoginFailed
  }

  /**
    With the flag the e-mail handler keeps, a request is sent exactly when both
    fields are filled and the e-mail matches the pattern.
   */
  lemma SentEmailMatchesPattern(email: string, password: string)
    ensures LoginCheck(email, password, Email.EmailFlag(email)) == None
        <==> email != "" && password != "" && Email.MatchesEmailPattern(email)
  {
  }

  class LoginForm {
    var email: string
    var password: string
    var isEmailValid: Option<bool>

    /** The flag always holds the verdict on the text in the field. */
    ghost predicate Valid()
      reads this
    {
      isEmailValid == Email.EmailFlag(email)
    }

    /** The state the screen mounts with. */
    constructor ()
      ensures Valid()
      ensures email == "" && password == "" && isEmailValid == None
    {
      email, password, isEmailValid := "", "", None;
    }

    /** `handleEmailChange`: store the text and its verdict (none for an empty text). */
    method HandleEmailChange(text: string)
      modifies this`email, this`isEmailValid
      ensures Valid()
      ensures email == text && isEmailValid == Email.EmailFlag(text)
    {
      email := text;
      if |text| > 0 {
        isEmailValid := Some(Email.ValidateEmail(text));
      } else {
        isEmailValid := None;
      }
    }

    /** The password field's `onChangeText`. */
    method SetPassword(text: string)
      modifies this`password
      ensures password == text
    {
      password := text;
    }

    /**
      `handleLogin`, the backend's answer given as `reply`: the checks run
      first; an accepted request yields the token to store, a refused one its
      message. The form itself is not changed.
     */
    method HandleLogin(reply: Reply) returns (outcome: LoginOutcome)
      requires Valid()
      ensures LoginCheck(email, password, isEmailValid).Some? ==>
        outcome == Refused(LoginCheck(email, password, isEmailValid).value)
      ensures LoginCheck(email, password, isEmailValid).None? ==>
        && Email.MatchesEmailPattern(email)
        && outcome == match reply {
             case Authenticated(token) => LoggedIn(token, LoginDone)
             case Failed(message) => LoginError(LoginErrorMessage(message))
           }
    {
      SentEmailMatchesPattern(email, password);
      var refusal := LoginCheck(email, password, isEmailValid);
      if refusal.Some? {
        return Refused(refusal.value);
      }
      match reply {
        case Authenticated(token) =>
          outcome := LoggedIn(token, LoginDone);
        case Failed(message) =>
          outcome := LoginError(LoginErrorMessage(message));
      }
    }
  }
}
