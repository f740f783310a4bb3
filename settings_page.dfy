/** The password-change form of the settings page: local checks first, then a
    POST to "/auth/change-password" whose outcome sets the form's message. */
module SettingsPage {
  import opened Common
  import opened ApiClient

  const MinPasswordLength := 6
  const MismatchError := "Passwords do not match"
  const TooShortError := "Password must be at least 6 characters"
  const ChangePasswordFallback := "Failed to change password"
  const ChangePasswordPath := "/auth/change-password"

  /** The local checks, in order: the confirmation must match, then the new
      password must have at least six characters. */
  function ValidatePassword(newPassword: string, confirmPassword: string): (error: Option<string>)
    ensures newPassword != confirmPassword ==> error == Some(MismatchError)
    ensures newPassword == confirmPassword && |newPassword| < MinPasswordLength ==> error == Some(TooShortError)
    ensures error.None? <==> newPassword == confirmPassword && |newPassword| >= MinPasswordLength
  {
    if newPassword != confirmPassword then Some(MismatchError)
    else if |newPassword| < MinPasswordLength then Some(TooShortError)
    else None
  }

  /** The request: where it goes, its authorization header, and the body with
      exactly the current and the new password. */
  datatype PasswordRequest = PasswordRequest(
    url: string,
    authorization: string,
    currentPassword: string,
    newPassword: string)

  class PasswordForm {
    var currentPassword: string
    var newPassword: string
    var confirmPassword: string
    var isSubmitting: bool
    var error: string
    var success: bool

    constructor ()
      ensures currentPassword == "" && newPassword == "" && confirmPassword == ""
      ensures !isSubmitting && error == "" && !success
    {
      currentPassword := "";
      newPassword := "";
      confirmPassword := "";
      isSubmitting := false;
      error := "";
      success := false;
    }

    /** The three inputs' change handlers. */
    method Edit(current: string, next: string, confirm: string)
      modifies this`currentPassword, this`newPassword, this`confirmPassword
      ensures currentPassword == current && newPassword == next && confirmPassword == confirm
    {
      currentPassword := current;
      newPassword := next;
      confirmPassword := confirm;
    }

    /** `handleChangePassword`, with the fetch's outcome as a parameter. A
        rejected form sends nothing and shows the check's message; a sent
        request ends with `isSubmitting` false, and either the success flag
        with all three fields cleared or the server's message (or the
        fallback) with the fields kept. */
    method ChangePassword(apiEnv: Option<string>, local: map<string, string>, outcome: FetchOutcome)
      returns (request: Option<PasswordRequest>)
      modifies this
      ensures request.None? <==> ValidatePassword(old(newPassword), old(confirmPassword)).Some?
      ensures request.None? ==>
                && error == ValidatePassword(old(newPassword), old(confirmPassword)).value
                && !success && isSubmitting == old(isSubmitting)
                && currentPassword == old(currentPassword) && newPassword == old(newPassword)
                && confirmPassword == old(confirmPassword)
      ensures request.Some? ==>
                && request.value == PasswordRequest(BaseUrl(apiEnv) + ChangePasswordPath, StoredBearer(local),
                                                    old(currentPassword), old(newPassword))
                && !isSubmitting
      ensures request.Some? && outcome.Ok? ==>
                success && error == "" && currentPassword == "" && newPassword == "" && confirmPassword == ""
      ensures request.Some? && !outcome.Ok? ==>
                && !success && error == FetchErrorText(outcome, ChangePasswordFallback)
                && currentPassword == old(currentPassword) && newPassword == old(newPassword)
                && confirmPassword == old(confirmPassword)
    {
      error := "";
      success := false;
      if newPassword != confirmPassword {
        error := MismatchError;
        return None;
      }
      if |newPassword| < MinPasswordLength {
        error := TooShortError;
        return None;
      }
      isSubmitting := true;
      request := Some(PasswordRequest(BaseUrl(apiEnv) + ChangePasswordPath, StoredBearer(local),
                                      currentPassword, newPassword));
      if outcome.Ok? {
        success := true;
        currentPassword := "";
        newPassword := "";
        confirmPassword := "";
      } else {
        error := FetchErrorText(outcome, ChangePasswordFallback);
      }
      isSubmitting := false;
    }
  }

  /** A password of exactly six characters passes and one of five does not;
      a mismatch is reported even for a long enough password. */
  lemma LengthBoundary(p6: string, p5: string, other: string)
    requires |p6| == 6 && |p5| == 5 && other != p6
    ensures ValidatePassword(p6, p6).None?
    ensures ValidatePassword(p5, p5) == Some(TooShortError)
    ensures ValidatePassword(p6, other) == Some(MismatchError)
  {
  }
}
