/**
  The registration screen's form state: the e-mail field with its verdict
  flag, the formatted phone field, the reset after a successful registration,
  and the ordered checks in front of the registration request.
 */
module Register {
  import opened Wrappers
  import opened Text
  import Email
  import Phone

  const FillAllFields := "Lütfen tüm alanları doldurun."
  const EnterValidEmail := "Geçerli bir e-posta adresi girin."
  const RegistrationFailed := "Bir hata oluştu."
  const RegistrationDone := "Kayıt işleminiz tamamlandı!"

  /** The body of the registration request. */
  datatype RegisterRequest =
    RegisterRequest(fullName: string, email: string, phoneNumber: string, password: string, gender: string)

  /** The backend's answer: success, or failure with the `message` it carried, if any. */
  datatype Reply = Accepted | Failed(message: Option<string>)

  datatype RegisterOutcome =
    | Refused(toast: string)                                // a check stopped the submit; nothing sent
    | Registered(request: RegisterRequest, toast: string)   // sent and accepted; the form is reset
    | RequestFailed(request: RegisterRequest, toast: string) // sent and refused by the backend

  /** `error.response?.data?.message || 'Bir hata oluştu.'`: an empty message falls back too. */
  function FailureText(message: Option<string>): (toast: string)
    ensures toast != ""
    ensures message.Some? && message.value != "" ==> toast == message.value
    ensures message.None? || message.value == "" ==> toast == RegistrationFailed
  {
    if message.Some? && message.value != "" then message.value else RegistrationFailed
  }

  /**
    The checks of `handleRegister`, in their order: any empty field or the
    unticked terms box first, then a flag that is not "valid".
   */
  function RegisterCheck(name: string, email: string, phone: string, password: string,
                         gender: string, acceptTerms: bool, isEmailValid: Option<bool>): (refusal: Option<string>)
    ensures var missing := name == "" || email == "" || phone == "" || password == "" || gender == "" || !acceptTerms;
      && (refusal == Some(FillAllFields) <==> missing)
      && (refusal == Some(EnterValidEmail) <==> !missing && isEmailValid != Some(true))
      && (refusal == None <==> !missing && isEmailValid == Some(true))
  {
    if name == "" || email == "" || phone == "" || password == "" || gender == "" || !acceptTerms then
      Some(FillAllFields)
    else if isEmailValid != Some(true) then
      Some(EnterValidEmail)
    else
      None
  }

  /**
    With the flag the e-mail handler keeps, nothing reaches the backend unless
    its e-mail matches the pattern; an empty field is reported as missing, never
    as invalid.
   */
  lemma SentEmailMatchesPattern(name: string, email: string, phone: string, password: string,
                                gender: string, acceptTerms: bool)
    ensures RegisterCheck(name, email, phone, password, gender, acceptTerms, Email.EmailFlag(email)) == None
        <==> (name != "" && phone != "" && password != "" && gender != "" && acceptTerms &&
              email != "" && Email.MatchesEmailPattern(email))
  {
  }

  class RegisterForm {
    var name: string
    var email: string
    var isEmailValid: Option<bool>
    var phone: string
    var password: string
    var gender: string
    var acceptTerms: bool

    /**
      The phone field is empty, as on mount, or holds what the formatter
      produces (the empty text is itself one: `Phone.FormatEmpty`); and a
      non-empty e-mail carries the verdict the e-mail handler gave it.
     */
    ghost predicate Valid()
      reads this
    {
      && (phone == "" || Phone.FormatPhoneNumber(phone) == phone)
      && (email != "" ==> isEmailValid == Email.EmailFlag(email))
    }

    /** The state the screen mounts with. */
    constructor ()
      ensures Valid()
      ensures name == "" && email == "" && isEmailValid == None && phone == ""
      ensures password == "" && gender == "" && !acceptTerms
    {
      name, email, isEmailValid, phone := "", "", None, "";
      password, gender, acceptTerms := "", "", false;
    }

    /** `handleEmailChange`: store the text and its verdict (none for an empty text). */
    method HandleEmailChange(text: string)
      requires Valid()
      modifies this`email, this`isEmailValid
      ensures Valid()
      ensures email == text && isEmailValid == Email.EmailFlag(text)
    {
      email := text;
      if |text| > 0 {
        isEmailValid := Some(Email.ValidateEmail(text));
      } else {
        isEmailValid := None;
      }
    }

    /** `handlePhoneChange`: store the formatted text. */
    method HandlePhoneChange(text: string)
      requires Valid()
      modifies this`phone
      ensures Valid()
      ensures phone == Phone.FormatPhoneNumber(text)
    {
      phone := Phone.FormatPhoneNumber(text);
      Phone.FormatIdempotent(text);
    }

    /** `resetForm`: empty every field and untick the terms; the e-mail flag is left as it was. */
    method ResetForm()
      modifies this`name, this`email, this`phone, this`password, this`gender, this`acceptTerms
      ensures Valid()
      ensures name == "" && email == "" && phone == "" && password == "" && gender == "" && !acceptTerms
    {
      name, email, phone := "", "", "";
      password, gender, acceptTerms := "", "", false;
    }

    /**
      `handleRegister`, the backend's answer given as `reply`: the checks run
      first and a refusal changes nothing; otherwise the request carries the
      phone without dashes, and an accepted request resets the form.
     */
    method HandleRegister(reply: Reply) returns (outcome: RegisterOutcome)
      requires Valid()
      modifies this`name, this`email, this`phone, this`password, this`gender, this`acceptTerms
      ensures Valid()
      ensures var refusal := RegisterCheck(old(name), old(email), old(phone), old(password),
                                           old(gender), old(acceptTerms), isEmailValid);
        refusal.Some? ==> outcome == Refused(refusal.value)
      ensures !outcome.Refused? ==>
        && outcome.request == RegisterRequest(old(name), old(email), Phone.StripDashes(old(phone)),
                                              old(password), old(gender))
        && AllDigits(outcome.request.phoneNumber) && 0 < |outcome.request.phoneNumber| <= Phone.MaxDigits
        && Email.MatchesEmailPattern(outcome.request.email)
      ensures outcome.Refused? ==> RegisterCheck(old(name), old(email), old(phone), old(password),
                                                 old(gender), old(acceptTerms), isEmailValid).Some?
      ensures outcome.Registered? <==> !outcome.Refused? && reply == Accepted
      ensures outcome.Registered? ==> outcome.toast == RegistrationDone
      ensures outcome.RequestFailed? ==> outcome.toast == FailureText(reply.message)
      ensures outcome.Registered? ==>
        name == "" && email == "" && phone == "" && password == "" && gender == "" && !acceptTerms
      ensures !outcome.Registered? ==>
        && name == old(name) && email == old(email) && phone == old(phone)
        && password == old(password) && gender == old(gender) && acceptTerms == old(acceptTerms)
    {
      var refusal := RegisterCheck(name, email, phone, password, gender, acceptTerms, isEmailValid);
      if refusal.Some? {
        return Refused(refusal.value);
      }
      Phone.StripDashesOfFormat(phone);
      assert phone == Phone.Layout(Phone.KeptDigits(phone)) by { Phone.FormatIsLayout(phone); }
      var request := RegisterRequest(name, email, Phone.StripDashes(phone), password, gender);
      match reply {
        case Accepted =>
          ResetForm();
          outcome := Registered(request, RegistrationDone);
        case Failed(message) =>
          outcome := RequestFailed(request, FailureText(message));
      }
    }
  }
}
