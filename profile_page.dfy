// components/pages/profile-page.tsx: the state updates of the profile and
// password forms around their requests. A submit handler returns the request
// it sends (or `None`), and the code after the `await` runs when the caller
// delivers the response.
module ProfilePage {
  import opened Wrappers
  import AuthStorage

  const MismatchError := "Parollar mos kelmadi"
  const LengthError := "Parol kamida 6 ta belgidan iborat bo‘lishi kerak"
  const PasswordSaved := "Parol muvaffaqiyatli yangilandi"
  const PasswordFailed := "Parolni yangilashda xatolik yuz berdi"
  const ProfileSaved := "Profil muvaffaqiyatli yangilandi"
  const ProfileFailed := "Profilni yangilashda xatolik yuz berdi"
  const InvalidProfile := "Noto‘g‘ri profil ma’lumotlari"

  /** The minimum password length. */
  const MinPasswordLength := 6

  datatype PasswordRequest = PasswordRequest(currentPassword: string, password: string, passwordConfirmation: string)

  datatype ProfileRequest = ProfileRequest(name: string, email: string)

  /** How a request ended: a response, or a thrown error with or without a message. */
  datatype Outcome<T> = Responded(value: T) | Threw(message: Option<string>)

  /** The validation message for a new password and its confirmation, checked in the page's order. */
  function PasswordError(newPassword: string, confirmPassword: string): (r: Option<string>)
    ensures r == None <==> newPassword == confirmPassword && |newPassword| >= MinPasswordLength
    ensures newPassword != confirmPassword ==> r == Some(MismatchError)
    ensures newPassword == confirmPassword && |newPassword| < MinPasswordLength ==> r == Some(LengthError)
  {
    if newPassword != confirmPassword then Some(MismatchError)
    else if |newPassword| < MinPasswordLength then Some(LengthError)
    else None
  }

  /** The message of a thrown error, or the fallback when it carries none. */
  function ErrorText(message: Option<string>, fallback: string): string {
    if message.Some? then message.value else fallback
  }

  class Profile {
    var saving: bool
    var passwordSaving: bool
    var user: Option<AuthStorage.AuthUser>
    var error: Option<string>
    var success: Option<string>
    var name: string
    var email: string
    var currentPassword: string
    var newPassword: string
    var confirmPassword: string

    /** The initial state of the page's hooks. */
    constructor ()
      ensures !saving && !passwordSaving && user == None && error == None && success == None
      ensures name == "" && email == ""
      ensures currentPassword == "" && newPassword == "" && confirmPassword == ""
    {
      saving := false;
      passwordSaving := false;
      user := None;
      error := None;
      success := None;
      name := "";
      email := "";
      currentPassword := "";
      newPassword := "";
      confirmPassword := "";
    }

    /**
     * `handleUpdatePassword` up to its request: ignored while a save is in
     * flight; a failed check sets its message and sends nothing; otherwise
     * both messages are cleared and the save starts.
     */
    method SubmitPassword() returns (sent: Option<PasswordRequest>)
      modifies this
      ensures old(passwordSaving) ==> sent == None && unchanged(this)
      ensures !old(passwordSaving) && PasswordError(newPassword, confirmPassword).Some? ==>
        && sent == None
        && error == PasswordError(newPassword, confirmPassword)
        && success == old(success) && !passwordSaving
      ensures !old(passwordSaving) && PasswordError(newPassword, confirmPassword).None? ==>
        && sent == Some(PasswordRequest(currentPassword, newPassword, confirmPassword))
        && error == None && success == None && passwordSaving
      ensures sent.Some? <==> !old(passwordSaving) && PasswordError(old(newPassword), old(confirmPassword)).None?
      ensures saving == old(saving) && user == old(user) && name == old(name) && email == old(email)
      ensures currentPassword == old(currentPassword) && newPassword == old(newPassword)
      ensures confirmPassword == old(confirmPassword)
    {
      if passwordSaving {
        return None;
      }
      if newPassword != confirmPassword {
        error := Some(MismatchError);
        return None;
      }
      if |newPassword| < MinPasswordLength {
        error := Some(LengthError);
        return None;
      }
      error := None;
      success := None;
      passwordSaving := true;
      sent := Some(PasswordRequest(currentPassword, newPassword, confirmPassword));
    }

    /** The rest of `handleUpdatePassword`: success clears the three fields, a failure keeps them; the save ends either way. */
    method CompletePassword(outcome: Outcome<()>)
      modifies this
      ensures !passwordSaving
      ensures outcome.Responded? ==>
        && success == Some(PasswordSaved) && error == old(error)
        && currentPassword == "" && newPassword == "" && confirmPassword == ""
      ensures outcome.Threw? ==>
        && error == Some(ErrorText(outcome.message, PasswordFailed)) && success == old(success)
        && currentPassword == old(currentPassword) && newPassword == old(newPassword)
        && confirmPassword == old(confirmPassword)
      ensures saving == old(saving) && user == old(user) && name == old(name) && email == old(email)
    {
      if outcome.Responded? {
        success := Some(PasswordSaved);
        currentPassword := "";
        newPassword := "";
        confirmPassword := "";
      } else {
        error := Some(ErrorText(outcome.message, PasswordFailed));
      }
      passwordSaving := false;
    }

    /** `handleUpdateProfile` up to its request: ignored while a save is in flight, else messages cleared and the save started. */
    method SubmitProfile() returns (sent: Option<ProfileRequest>)
      modifies this
      ensures old(saving) ==> sent == None && unchanged(this)
      ensures !old(saving) ==>
        && sent == Some(ProfileRequest(name, email))
        && saving && error == None && success == None
      ensures passwordSaving == old(passwordSaving) && user == old(user) && name == old(name) && email == old(email)
      ensures currentPassword == old(currentPassword) && newPassword == old(newPassword)
      ensures confirmPassword == old(confirmPassword)
    {
      if saving {
        return None;
      }
      error := None;
      success := None;
      saving := true;
      sent := Some(ProfileRequest(name, email));
    }

    /**
     * The rest of `handleUpdateProfile`. A response with an id becomes the
     * user and, when a token is stored, the stored session; a response
     * without one is an error. The save ends either way.
     */
    method CompleteProfile(outcome: Outcome<Option<AuthStorage.AuthUser>>, store: AuthStorage.Store,
                           stringify: AuthStorage.AuthUser -> string)
      modifies this, store
      ensures !saving
      ensures outcome.Responded? && outcome.value.Some? ==>
        && user == outcome.value && success == Some(ProfileSaved) && error == old(error)
      ensures outcome.Responded? && outcome.value.None? ==>
        && error == Some(InvalidProfile) && user == old(user) && success == old(success)
      ensures outcome.Threw? ==>
        && error == Some(ErrorText(outcome.message, ProfileFailed)) && user == old(user) && success == old(success)
      ensures var token := if AuthStorage.TokenKey in old(store.items) then old(store.items)[AuthStorage.TokenKey] else "";
        if outcome.Responded? && outcome.value.Some? && token != "" && store.hasWindow then
          && store.items == old(store.items)[AuthStorage.UserKey := stringify(outcome.value.value)]
          && store.events == old(store.events) + 1
        else
          store.items == old(store.items) && store.events == old(store.events)
      ensures passwordSaving == old(passwordSaving) && name == old(name) && email == old(email)
      ensures currentPassword == old(currentPassword) && newPassword == old(newPassword)
      ensures confirmPassword == old(confirmPassword)
    {
      if outcome.Threw? {
        error := Some(ErrorText(outcome.message, ProfileFailed));
      } else if outcome.value.None? {
        error := Some(InvalidProfile);
      } else {
        var updated := outcome.value.value;
        user := Some(updated);
        if AuthStorage.TokenKey in store.items && store.items[AuthStorage.TokenKey] != "" {
          var token := store.items[AuthStorage.TokenKey];
          store.SetAuthSession(updated, token, stringify);
          SameToken(old(store.items), token, stringify(updated));
        }
        success := Some(ProfileSaved);
      }
      saving := false;
    }
  }

  /** Rewriting the token with its own value leaves only the user key changed. */
  lemma SameToken(items: map<string, string>, token: string, userText: string)
    requires AuthStorage.TokenKey in items && items[AuthStorage.TokenKey] == token
    ensures items[AuthStorage.TokenKey := token][AuthStorage.UserKey := userText] == items[AuthStorage.UserKey := userText]
  {
    assert items[AuthStorage.TokenKey := token] == items;
  }

  /** The mismatch is reported before the length: a short, mismatched pair gets the mismatch message. */
  lemma MismatchFirst(newPassword: string, confirmPassword: string)
    requires newPassword != confirmPassword && |newPassword| < MinPasswordLength
    ensures PasswordError(newPassword, confirmPassword) == Some(MismatchError)
    ensures PasswordError(newPassword, confirmPassword) != Some(LengthError)
  {
    assert MismatchError[5] != LengthError[5];
  }
}
