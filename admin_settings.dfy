/** The admin's change-password form: five ordered checks, the first that
    fails naming the problem, and a form cleared after the server accepts
    the change. */
module AdminSettings {
  import opened Common

  const CurrentRequired := "Current password is required"
  const NewRequired := "New password is required"
  const TooShort := "New password must be at least 6 characters long"
  const Mismatch := "New passwords do not match"
  const Unchanged := "New password must be different from current password"
  const ChangeFailed := "Failed to change password"
  const ChangedMessage := "Password changed successfully!"

  const MinLength: nat := 6

  /** `validateForm`: `None` when the form may be sent, else the message
      of the first failing check. */
  function ValidateForm(current: string, proposed: string, confirm: string): (r: Option<string>)
    ensures current == "" ==> r == Some(CurrentRequired)
    ensures current != "" && proposed == "" ==> r == Some(NewRequired)
    ensures current != "" && proposed != "" && Utf16Length(proposed) < MinLength ==> r == Some(TooShort)
    ensures current != "" && Utf16Length(proposed) >= MinLength && proposed != confirm ==> r == Some(Mismatch)
    ensures current != "" && Utf16Length(proposed) >= MinLength && proposed == confirm && current == proposed ==> r == Some(Unchanged)
    ensures r.None? <==> current != "" && proposed != "" && Utf16Length(proposed) >= MinLength && proposed == confirm && current != proposed
  {
    if current == "" then Some(CurrentRequired)
    else if proposed == "" then Some(NewRequired)
    else if Utf16Length(proposed) < MinLength then Some(TooShort)
    else if proposed != confirm then Some(Mismatch)
    else if current == proposed then Some(Unchanged)
    else None
  }

  /** Reusing the current password is refused even when everything else
      is in order. */
  lemma SamePasswordRefused(p: string)
    requires Utf16Length(p) >= MinLength
    ensures ValidateForm(p, p, p) == Some(Unchanged)
  {
  }

  /** `.length` counts UTF-16 code units: four letters and an emoji are
      five characters but six units, so they pass the length check. */
  lemma AstralCharacterCountsTwice()
    ensures |"abcd\U{1F600}"| == 5 && Utf16Length("abcd\U{1F600}") == 6
    ensures ValidateForm("old-password", "abcd\U{1F600}", "abcd\U{1F600}").None?
  {
  }

  /** The server's answer to the change request: success, or its
      `message` (`""` when absent). */
  datatype ChangeResult = Changed | Refused(message: string)

  class SettingsForm {
    var currentPassword: string
    var newPassword: string
    var confirmPassword: string
    var showCurrent: bool
    var showNew: bool
    var showConfirm: bool

    constructor()
      ensures currentPassword == "" && newPassword == "" && confirmPassword == ""
      ensures !showCurrent && !showNew && !showConfirm
    {
      currentPassword, newPassword, confirmPassword := "", "", "";
      showCurrent, showNew, showConfirm := false, false, false;
    }

    /** `handleInputChange`: the named field takes the value; an unknown
        name leaves the three passwords alone. */
    method SetField(name: string, value: string)
      modifies this
      ensures currentPassword == (if name == "currentPassword" then value else old(currentPassword))
      ensures newPassword == (if name == "newPassword" then value else old(newPassword))
      ensures confirmPassword == (if name == "confirmPassword" then value else old(confirmPassword))
      ensures showCurrent == old(showCurrent) && showNew == old(showNew) && showConfirm == old(showConfirm)
    {
      if name == "currentPassword" {
        currentPassword := value;
      } else if name == "newPassword" {
        newPassword := value;
      } else if name == "confirmPassword" {
        confirmPassword := value;
      }
    }

    /** `togglePasswordVisibility`: only the named switch flips. */
    method Toggle(field: string)
      modifies this
      ensures showCurrent == (if field == "current" then !old(showCurrent) else old(showCurrent))
      ensures showNew == (if field == "new" then !old(showNew) else old(showNew))
      ensures showConfirm == (if field == "confirm" then !old(showConfirm) else old(showConfirm))
      ensures currentPassword == old(currentPassword) && newPassword == old(newPassword)
      ensures confirmPassword == old(confirmPassword)
    {
      if field == "current" {
        showCurrent := !showCurrent;
      } else if field == "new" {
        showNew := !showNew;
      } else if field == "confirm" {
        showConfirm := !showConfirm;
      }
    }

    /** `handleSubmit`: an invalid form is not sent and its toast is the
        first failing check's message; a sent form shows the server's
        outcome, and the fields are cleared only after a change. */
    method Submit(result: ChangeResult) returns (toast: Toast, sent: bool)
      modifies this
      ensures sent <==> old(ValidateForm(currentPassword, newPassword, confirmPassword)).None?
      ensures !sent ==> toast == Warning(old(ValidateForm(currentPassword, newPassword, confirmPassword)).value)
      ensures sent && result == Changed ==>
        toast == Done(ChangedMessage) && currentPassword == "" && newPassword == "" && confirmPassword == ""
      ensures sent && result.Refused? ==>
        toast == Warning(if result.message != "" then result.message else ChangeFailed)
      ensures !(sent && result == Changed) ==>
        currentPassword == old(currentPassword) && newPassword == old(newPassword) && confirmPassword == old(confirmPassword)
      ensures showCurrent == old(showCurrent) && showNew == old(showNew) && showConfirm == old(showConfirm)
    {
      var check := ValidateForm(currentPassword, newPassword, confirmPassword);
      if check.Some? {
        return Warning(check.value), false;
      }
      sent := true;
      match result
      case Changed =>
        currentPassword, newPassword, confirmPassword := "", "", "";
        toast := Done(ChangedMessage);
      case Refused(m) =>
        toast := Warning(if m != "" then m else ChangeFailed);
    }
  }
}
