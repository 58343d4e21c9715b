/**
  The settings screen: the loaded profile, the edited copy with the optional
  password change, edit mode, and the password error line; the checks in
  front of the profile update and how a saved copy is merged back.
 */
module Settings {
  import opened Wrappers

  const BothPasswords := "Lütfen hem eski hem de yeni parolayı girin"
  const PasswordTooShort := "Yeni parola en az 6 karakter olmalıdır"
  const WrongOldPassword := "Eski şifreniz hatalı"
  const BackendWrongOldPassword := "Eski şifre hatalı."
  const ProfileUpdated := "Profil bilgileriniz güncellendi"
  const ProfileAndPasswordUpdated := "Profil bilgileriniz ve parolanız güncellendi"
  const UpdateFailed := "Profil güncellenirken bir hata oluştu"

  /** The shortest new password the screen accepts. */
  const MinPasswordLength := 6

  /** A payment plan of the profile; this screen only carries the list along. */
  datatype PaymentPlan = PaymentPlan(id: int)

  datatype UserProfile = UserProfile(
    userId: int, email: string, fullName: string, phoneNumber: string,
    gender: string, paymentPlans: seq<PaymentPlan>)

  /** The edited copy; an empty password stands for one not typed. */
  datatype EditedProfile = EditedProfile(
    userId: int, email: string, fullName: string, phoneNumber: string,
    gender: string, paymentPlans: seq<PaymentPlan>,
    oldPassword: string, newPassword: string)

  /** The copy `handleEdit` starts from: the six profile fields, no password typed. */
  function Draft(p: UserProfile): (e: EditedProfile)
    ensures e.userId == p.userId && e.email == p.email && e.fullName == p.fullName
    ensures e.phoneNumber == p.phoneNumber && e.gender == p.gender && e.paymentPlans == p.paymentPlans
    ensures e.oldPassword == "" && e.newPassword == ""
  {
    EditedProfile(p.userId, p.email, p.fullName, p.phoneNumber, p.gender, p.paymentPlans, "", "")
  }

  /** The edited copy before any edit: every field empty. */
  function BlankEdit(): EditedProfile
  {
    EditedProfile(0, "", "", "", "", [], "", "")
  }

  /**
    The profile kept after a successful save: the edited name, phone and
    gender over the previous profile's id, e-mail and payment plans.
   */
  function Merge(previous: UserProfile, edited: EditedProfile): (p: UserProfile)
    ensures p.userId == previous.userId && p.email == previous.email
    ensures p.paymentPlans == previous.paymentPlans
    ensures p.fullName == edited.fullName && p.phoneNumber == edited.phoneNumber && p.gender == edited.gender
  {
    UserProfile(previous.userId, previous.email, edited.fullName, edited.phoneNumber, edited.gender,
                previous.paymentPlans)
  }

  /** Saving an untouched copy gives the profile back unchanged. */
  lemma MergeDraft(p: UserProfile)
    ensures Merge(p, Draft(p)) == p
  {
  }

  /**
    The password checks of `handleSave`, in their order: one password without
    the other, then a new password shorter than six characters.
   */
  function PasswordCheck(oldPassword: string, newPassword: string): (error: Option<string>)
    ensures error == Some(BothPasswords) <==> (oldPassword == "") != (newPassword == "")
    ensures error == Some(PasswordTooShort) <==>
      oldPassword != "" && newPassword != "" && |newPassword| < MinPasswordLength
    ensures error == None <==>
      (oldPassword == "" && newPassword == "") || (oldPassword != "" && |newPassword| >= MinPasswordLength)
  {
    if (oldPassword != "" && newPassword == "") || (oldPassword == "" && newPassword != "") then
      Some(BothPasswords)
    else if newPassword != "" && |newPassword| < MinPasswordLength then
      Some(PasswordTooShort)
    else
      None
  }

  /** `getGenderLabel`: 'ERKEK' reads 'Erkek', anything else 'Kadın'. */
  function GenderLabel(value: string): (shown: string)
    ensures shown == "Erkek" <==> value == "ERKEK"
    ensures shown == "Kadın" <==> value != "ERKEK"
  {
    if value == "ERKEK" then "Erkek" else "Kadın"
  }

  /** The backend's answer to the update: success, or failure with its `hata` field, if any. */
  datatype UpdateReply = Updated | Failed(hata: Option<string>)

  datatype SaveOutcome =
    | NoToken                  // no stored token: the screen moves to login
    | PasswordRejected         // a password check failed; nothing sent
    | Saved(toast: string)
    | SaveError(toast: string)

  /** The toast of a failed update. */
  function SaveErrorText(hata: Option<string>): (toast: string)
    ensures hata == Some(BackendWrongOldPassword) ==> toast == WrongOldPassword
    ensures hata != Some(BackendWrongOldPassword) && hata.Some? && hata.value != "" ==> toast == hata.value
    ensures (hata.None? || hata.value == "") ==> toast == UpdateFailed
  {
    if hata == Some(BackendWrongOldPassword) then WrongOldPassword
    else if hata.Some? && hata.value != "" then hata.value
    else UpdateFailed
  }

  class SettingsScreen {
    var profile: Option<UserProfile>
    var editedProfile: EditedProfile
    var isEditing: bool
    var passwordError: Option<string>

    /**
      Edit mode needs a loaded profile, and while editing the copy carries the
      profile's id, e-mail and payment plans: no handler of the screen edits them.
     */
    ghost predicate Valid()
      reads this
    {
      isEditing ==>
        && profile.Some?
        && editedProfile.userId == profile.value.userId
        && editedProfile.email == profile.value.email
        && editedProfile.paymentPlans == profile.value.paymentPlans
    }

    /** The state the screen mounts with, before the profile has loaded. */
    constructor ()
      ensures Valid()
      ensures profile == None && editedProfile == BlankEdit() && !isEditing && passwordError == None
    {
      profile, editedProfile, isEditing, passwordError := None, BlankEdit(), false, None;
    }

    /** The profile request of `fetchProfile`, made once on mount, has answered. */
    method ProfileLoaded(p: UserProfile)
      requires Valid() && profile == None
      modifies this`profile
      ensures Valid() && profile == Some(p)
    {
      profile := Some(p);
    }

    /** `handleEdit`: with a loaded profile, copy its six fields and enter edit mode. */
    method Edit()
      requires Valid()
      modifies this`editedProfile, this`isEditing
      ensures Valid()
      ensures old(profile).None? ==> editedProfile == old(editedProfile) && isEditing == old(isEditing)
      ensures old(profile).Some? ==> editedProfile == Draft(profile.value) && isEditing
    {
      if profile.Some? {
        editedProfile := Draft(profile.value);
        isEditing := true;
      }
    }

    /** `handleCancel` (shown only in edit mode): back to the profile, out of edit mode, no error. */
    method Cancel()
      requires Valid() && isEditing
      modifies this`editedProfile, this`isEditing, this`passwordError
      ensures Valid()
      ensures editedProfile == Draft(profile.value) && !isEditing && passwordError == None
    {
      editedProfile := Draft(profile.value);
      isEditing := false;
      passwordError := None;
    }

    /** Typing in the name field. */
    method ChangeFullName(text: string)
      requires Valid()
      modifies this`editedProfile
      ensures Valid() && editedProfile == old(editedProfile).(fullName := text)
    {
      editedProfile := editedProfile.(fullName := text);
    }

    /** Typing in the phone field. */
    method ChangePhoneNumber(text: string)
      requires Valid()
      modifies this`editedProfile
      ensures Valid() && editedProfile == old(editedProfile).(phoneNumber := text)
    {
      editedProfile := editedProfile.(phoneNumber := text);
    }

    /** Tapping one of the two gender buttons. */
    method SelectGender(value: string)
      requires Valid()
      requires value == "ERKEK" || value == "KADIN"
      modifies this`editedProfile
      ensures Valid() && editedProfile == old(editedProfile).(gender := value)
    {
      editedProfile := editedProfile.(gender := value);
    }

    /** Typing in the old password field clears the error line. */
    method ChangeOldPassword(text: string)
      requires Valid()
      modifies this`editedProfile, this`passwordError
      ensures Valid() && editedProfile == old(editedProfile).(oldPassword := text)
      ensures passwordError == None
    {
      editedProfile := editedProfile.(oldPassword := text);
      passwordError := None;
    }

    /** Typing in the new password field clears the error line. */
    method ChangeNewPassword(text: string)
      requires Valid()
      modifies this`editedProfile, this`passwordError
      ensures Valid() && editedProfile == old(editedProfile).(newPassword := text)
      ensures passwordError == None
    {
      editedProfile := editedProfile.(newPassword := text);
      passwordError := None;
    }

    /**
      `handleSave` (shown only in edit mode), with the stored token's presence
      and the backend's answer as parameters: the password checks run before
      anything is sent; a successful update merges the copy into the profile
      and leaves edit mode; a failed one only sets the error line when the old
      password was wrong.
     */
    method Save(hasToken: bool, reply: UpdateReply) returns (outcome: SaveOutcome)
      requires Valid() && isEditing
      modifies this`profile, this`isEditing, this`passwordError
      ensures Valid() && profile.Some?
      ensures !hasToken ==>
        outcome == NoToken && profile == old(profile) && isEditing && passwordError == old(passwordError)
      ensures hasToken && PasswordCheck(editedProfile.oldPassword, editedProfile.newPassword).Some? ==>
        && outcome == PasswordRejected
        && passwordError == PasswordCheck(editedProfile.oldPassword, editedProfile.newPassword)
        && profile == old(profile) && isEditing
      ensures hasToken && PasswordCheck(editedProfile.oldPassword, editedProfile.newPassword).None? && reply.Updated? ==>
        && profile == Some(Merge(old(profile).value, editedProfile))
        && !isEditing && passwordError == None
        && outcome == Saved(if editedProfile.newPassword != "" then ProfileAndPasswordUpdated else ProfileUpdated)
      ensures hasToken && PasswordCheck(editedProfile.oldPassword, editedProfile.newPassword).None? && reply.Failed? ==>
        && outcome == SaveError(SaveErrorText(reply.hata))
        && profile == old(profile) && isEditing
        && passwordError == (if reply.hata == Some(BackendWrongOldPassword) then Some(WrongOldPassword)
                             else old(passwordError))
    {
      if !hasToken {
        return NoToken;
      }
      var check := PasswordCheck(editedProfile.oldPassword, editedProfile.newPassword);
      if check.Some? {
        passwordError := check;
        return PasswordRejected;
      }
      match reply {
        case Updated =>
          profile := Some(Merge(profile.value, editedProfile));
          isEditing := false;
          passwordError := None;
          outcome := Saved(if editedProfile.newPassword != "" then ProfileAndPasswordUpdated else ProfileUpdated);
        case Failed(hata) =>
          if hata == Some(BackendWrongOldPassword) {
            passwordError := Some(WrongOldPassword);
          }
          outcome := SaveError(SaveErrorText(hata));
      }
    }
  }
}
