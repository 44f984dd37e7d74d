/** The profile panel's password change and edit cancel.  The password
    guards run in their own order (all fields, then match, then length,
    then a login token), which differs from the admin settings form's;
    a failed request is described by what the client saw of it. */
module UserProfile {
  import opened Common
  import AdminSettings

  const AllRequired := "All password fields are required."
  const Mismatch := "New passwords do not match!"
  const TooShort := "New password must be at least 6 characters long!"
  const NotLoggedIn := "Please log in to change your password."
  const Changed := "Password changed successfully!"
  const BackendDown := "Backend server is not running. Password change requires backend connection."
  const AuthFailed := "Authentication failed. Please log in again."
  const ChangeFailed := "Failed to change password"

  const MinLength: nat := 6

  /** The guards of `handleChangePassword` before any request is made:
      `None` when the request is sent, else the message of the first
      failing guard.  `hasToken` is whether a login token is stored. */
  function CheckPasswords(current: string, proposed: string, confirm: string, hasToken: bool): (r: Option<string>)
    ensures current == "" || proposed == "" || confirm == "" ==> r == Some(AllRequired)
    ensures current != "" && proposed != "" && confirm != "" && proposed != confirm ==> r == Some(Mismatch)
    ensures current != "" && proposed != "" && proposed == confirm && Utf16Length(proposed) < MinLength ==> r == Some(TooShort)
    ensures current != "" && proposed == confirm && Utf16Length(proposed) >= MinLength && !hasToken ==> r == Some(NotLoggedIn)
    ensures r.None? <==> current != "" && proposed != "" && proposed == confirm && Utf16Length(proposed) >= MinLength && hasToken
  {
    if current == "" || proposed == "" || confirm == "" then Some(AllRequired)
    else if proposed != confirm then Some(Mismatch)
    else if Utf16Length(proposed) < MinLength then Some(TooShort)
    else if !hasToken then Some(NotLoggedIn)
    else None
  }

  /** A short new password that does not match its confirmation is
      reported as a mismatch here and as too short by the admin form. */
  lemma GuardOrderDiffers(current: string, proposed: string, confirm: string, hasToken: bool)
    requires current != "" && proposed != "" && confirm != ""
    requires Utf16Length(proposed) < MinLength && proposed != confirm
    ensures CheckPasswords(current, proposed, confirm, hasToken) == Some(Mismatch)
    ensures AdminSettings.ValidateForm(current, proposed, confirm) == Some(AdminSettings.TooShort)
  {
  }

  /** Unlike the admin form, the profile sends a new password equal to the
      current one. */
  lemma SamePasswordSent(p: string)
    requires Utf16Length(p) >= MinLength
    ensures CheckPasswords(p, p, p, true).None?
    ensures AdminSettings.ValidateForm(p, p, p) == Some(AdminSettings.Unchanged)
  {
  }

  /** How the change request ended.  A failure carries the error's `code`,
      its `message`, the response status (`None` with no response) and the
      response's `message` (`""` when absent). */
  datatype RequestResult =
    | Accepted
    | Failed(code: string, message: string, status: Option<int>, serverMessage: string)

  /** The `catch` block's choice of message. */
  function FailureMessage(f: RequestResult): (r: string)
    requires f.Failed?
    ensures f.code == "ECONNREFUSED" || Contains(f.message, "Network Error") ==> r == BackendDown
    ensures !(f.code == "ECONNREFUSED" || Contains(f.message, "Network Error")) && f.status == Some(401) ==> r == AuthFailed
    ensures !(f.code == "ECONNREFUSED" || Contains(f.message, "Network Error")) && f.status != Some(401) ==>
      r == (if f.serverMessage != "" then f.serverMessage else ChangeFailed)
  {
    if f.code == "ECONNREFUSED" || Contains(f.message, "Network Error") then BackendDown
    else if f.status == Some(401) then AuthFailed
    else if f.serverMessage != "" then f.serverMessage
    else ChangeFailed
  }

  /** A connection refusal is reported as the backend being down whatever
      status and message came with it. */
  lemma RefusedConnectionWins(status: Option<int>, message: string, serverMessage: string)
    ensures FailureMessage(Failed("ECONNREFUSED", message, status, serverMessage)) == BackendDown
  {
  }

  /** The profile fields the panel edits. */
  datatype Profile = Profile(name: string, email: string, joinDate: string)

  class ProfilePanel {
    var userProfile: Profile
    var editedProfile: Profile
    var isEditing: bool
    var currentPassword: string
    var newPassword: string
    var confirmPassword: string
    var error: Option<string>
    var success: Option<string>
    var loading: bool

    constructor(profile: Profile)
      ensures userProfile == profile && editedProfile == profile && !isEditing
      ensures currentPassword == "" && newPassword == "" && confirmPassword == ""
      ensures error.None? && success.None? && !loading
    {
      userProfile, editedProfile, isEditing := profile, profile, false;
      currentPassword, newPassword, confirmPassword := "", "", "";
      error, success, loading := None, None, false;
    }

    /** `handleCancelEdit`: the edits are dropped and edit mode is left. */
    method CancelEdit()
      modifies this
      ensures editedProfile == userProfile && !isEditing
      ensures userProfile == old(userProfile)
      ensures currentPassword == old(currentPassword) && newPassword == old(newPassword)
      ensures confirmPassword == old(confirmPassword)
      ensures error == old(error) && success == old(success) && loading == old(loading)
    {
      editedProfile := userProfile;
      isEditing := false;
    }

    /** `handleChangePassword`.  Both messages are cleared first; a failing
        guard sets `error` and sends nothing; a sent request sets `success`
        and clears the three fields when accepted, or sets `error` from the
        failure.  Loading is off again at the end. */
    method ChangePassword(hasToken: bool, result: RequestResult) returns (sent: bool)
      modifies this
      ensures var check := CheckPasswords(old(currentPassword), old(newPassword), old(confirmPassword), hasToken);
        (sent <==> check.None?) && (!sent ==> error == check && success.None?)
      ensures sent && result.Accepted? ==>
        success == Some(Changed) && error.None?
        && currentPassword == "" && newPassword == "" && confirmPassword == ""
      ensures sent && result.Failed? ==> error == Some(FailureMessage(result)) && success.None?
      ensures !(sent && result.Accepted?) ==>
        currentPassword == old(currentPassword) && newPassword == old(newPassword)
        && confirmPassword == old(confirmPassword)
      ensures !loading
      ensures userProfile == old(userProfile) && editedProfile == old(editedProfile) && isEditing == old(isEditing)
    {
      loading := true;
      error := None;
      success := None;
      sent := false;
      if currentPassword == "" || newPassword == "" || confirmPassword == "" {
        error := Some(AllRequired);
      } else if newPassword != confirmPassword {
        error := Some(Mismatch);
      } else if Utf16Length(newPassword) < MinLength {
        error := Some(TooShort);
      } else if !hasToken {
        error := Some(NotLoggedIn);
      } else {
        sent := true;
        match result
        case Accepted =>
          success := Some(Changed);
          currentPassword, newPassword, confirmPassword := "", "", "";
        case Failed(_, _, _, _) =>
          error := Some(FailureMessage(result));
      }
      loading := false;
    }
  }
}
