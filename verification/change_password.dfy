/** The change-password form (`ChangePassword`): the complexity checklist,
    the chain of checks `handleSubmit` runs before it sends anything, the
    confirm field's mismatch hint, and the form after the backend answers. */
module ChangePassword {
  import opened Util

  /** The five items of the checklist shown under the new password. */
  datatype Checks = Checks(hasUpperCase: bool, hasLowerCase: bool, hasNumber: bool,
                           hasSpecialChar: bool, hasMinLength: bool)

  predicate IsUpperAscii(c: char) { 'A' <= c <= 'Z' }
  predicate IsLowerAscii(c: char) { 'a' <= c <= 'z' }

  /** The character class `[!@#$%^&*(),.?":{}|<>]`. */
  predicate IsSpecial(c: char) {
    c in "!@#$%^&*(),.?\":{}|<>"
  }

  const MinLength := 8

  /** `validatePassword`'s checklist for `p`: one flag per character class,
      set when some character of `p` is in it, and the length test. */
  function PasswordChecks(p: string): (c: Checks)
    ensures c.hasUpperCase <==> exists i :: 0 <= i < |p| && IsUpperAscii(p[i])
    ensures c.hasLowerCase <==> exists i :: 0 <= i < |p| && IsLowerAscii(p[i])
    ensures c.hasNumber <==> exists i :: 0 <= i < |p| && IsDigit(p[i])
    ensures c.hasSpecialChar <==> exists i :: 0 <= i < |p| && IsSpecial(p[i])
    ensures c.hasMinLength <==> |p| >= MinLength
  {
    Checks(
      exists i :: 0 <= i < |p| && IsUpperAscii(p[i]),
      exists i :: 0 <= i < |p| && IsLowerAscii(p[i]),
      exists i :: 0 <= i < |p| && IsDigit(p[i]),
      exists i :: 0 <= i < |p| && IsSpecial(p[i]),
      |p| >= MinLength)
  }

  /** `validatePassword(p)`: every item of the checklist holds. */
  function ValidatePassword(p: string): (ok: bool)
    ensures ok <==> (
      |p| >= MinLength &&
      (exists i :: 0 <= i < |p| && IsUpperAscii(p[i])) && (exists i :: 0 <= i < |p| && IsLowerAscii(p[i])) &&
      (exists i :: 0 <= i < |p| && IsDigit(p[i])) && (exists i :: 0 <= i < |p| && IsSpecial(p[i])))
  {
    var c := PasswordChecks(p);
    c.hasUpperCase && c.hasLowerCase && c.hasNumber && c.hasSpecialChar && c.hasMinLength
  }

  /** Each flag depends on its own test only: typing one more character sets
      the flags of that character's classes, moves the length test, and
      leaves every other flag as it was. */
  lemma {:induction false} TypingOneCharacter(p: string, ch: char)
    ensures PasswordChecks(p + [ch]) == Checks(
      PasswordChecks(p).hasUpperCase || IsUpperAscii(ch),
      PasswordChecks(p).hasLowerCase || IsLowerAscii(ch),
      PasswordChecks(p).hasNumber || IsDigit(ch),
      PasswordChecks(p).hasSpecialChar || IsSpecial(ch),
      |p| + 1 >= MinLength)
  {
    var q := p + [ch];
    assert q[|p|] == ch;
    assert forall i :: 0 <= i < |p| ==> q[i] == p[i];
  }

  /** Typing more never clears a flag, so a valid password stays valid. */
  lemma {:induction false} ValidityPersists(p: string, more: string)
    requires ValidatePassword(p)
    ensures ValidatePassword(p + more)
  {
    var q := p + more;
    assert forall i :: 0 <= i < |p| ==> q[i] == p[i];
    var c := PasswordChecks(p);
    var u :| 0 <= u < |p| && IsUpperAscii(p[u]);
    var l :| 0 <= l < |p| && IsLowerAscii(p[l]);
    var d :| 0 <= d < |p| && IsDigit(p[d]);
    var s :| 0 <= s < |p| && IsSpecial(p[s]);
    assert IsUpperAscii(q[u]) && IsLowerAscii(q[l]) && IsDigit(q[d]) && IsSpecial(q[s]);
  }

  lemma ValidityExamples()
    ensures ValidatePassword("Passw0rd!")
    ensures !ValidatePassword("Pass0!")
    ensures !ValidatePassword("password1!")
  {
    var good := "Passw0rd!";
    assert IsUpperAscii(good[0]) && IsLowerAscii(good[1]) && IsDigit(good[5]) && IsSpecial(good[8]);
    var lower := "password1!";
    assert forall i :: 0 <= i < |lower| ==> !IsUpperAscii(lower[i]);
  }

  /** The body of the request `handleSubmit` sends. */
  datatype ChangeRequest = ChangeRequest(currentPassword: string, newPassword: string)

  const FillInAllFields := "Please fill in all fields"
  const DoNotMatch := "New passwords do not match"
  const DoesNotMeetRequirements := "New password does not meet requirements"

  /** `handleSubmit`'s checks, in their order: a missing field first, then a
      mismatch, then the checklist; the request only when all three pass. */
  function CheckSubmit(currentPassword: string, newPassword: string, confirmPassword: string): (r: Result<ChangeRequest, string>)
    ensures r.Ok? <==> currentPassword != "" && newPassword != "" && confirmPassword != ""
                       && newPassword == confirmPassword && ValidatePassword(newPassword)
    ensures r.Ok? ==> r.value == ChangeRequest(currentPassword, newPassword)
    ensures r == Err(FillInAllFields) <==> currentPassword == "" || newPassword == "" || confirmPassword == ""
    ensures r == Err(DoNotMatch) <==>
      currentPassword != "" && newPassword != "" && confirmPassword != "" && newPassword != confirmPassword
    ensures r == Err(DoesNotMeetRequirements) <==>
      currentPassword != "" && newPassword != "" && newPassword == confirmPassword && !ValidatePassword(newPassword)
  {
    if currentPassword == "" || newPassword == "" || confirmPassword == "" then Err(FillInAllFields)
    else if newPassword != confirmPassword then Err(DoNotMatch)
    else if !ValidatePassword(newPassword) then Err(DoesNotMeetRequirements)
    else Ok(ChangeRequest(currentPassword, newPassword))
  }

  /** The hint under the confirm field: shown while the confirmation is
      non-empty and differs from the new password. */
  predicate ConfirmFieldError(newPassword: string, confirmPassword: string) {
    newPassword != confirmPassword && confirmPassword != ""
  }

  /** Whatever the user typed, a request that goes out carries a password
      that passes the checklist (at least eight characters), and the form
      shows no mismatch hint; while the hint shows, submitting is refused. */
  lemma SentPasswordsAreStrong(currentPassword: string, newPassword: string, confirmPassword: string)
    ensures var r := CheckSubmit(currentPassword, newPassword, confirmPassword);
      r.Ok? ==> ValidatePassword(r.value.newPassword) && |r.value.newPassword| >= MinLength
                && !ConfirmFieldError(newPassword, confirmPassword)
    ensures ConfirmFieldError(newPassword, confirmPassword) ==>
      CheckSubmit(currentPassword, newPassword, confirmPassword).Err?
  {
  }

  /** The form's state. The checklist is not stored here: an effect rewrites
      it from `newPassword` on every change, so it is always
      `PasswordChecks(newPassword)`. */
  datatype Form = Form(currentPassword: string, newPassword: string, confirmPassword: string,
                       error: string, success: string)

  const ChangedMessage := "Password changed successfully!"
  const FailedMessage := "Failed to change password"

  /** The form once `handleSubmit` has run to the end: a refused submit only
      sets the error; a sent one clears both messages and then applies the
      backend's reply, resetting the three fields on success. */
  function Submit(f: Form, reply: Reply): (g: Form)
    ensures CheckSubmit(f.currentPassword, f.newPassword, f.confirmPassword).Err? ==>
      g == f.(error := CheckSubmit(f.currentPassword, f.newPassword, f.confirmPassword).error)
    ensures CheckSubmit(f.currentPassword, f.newPassword, f.confirmPassword).Ok? ==>
      (reply == Answered(true) <==> g == Form("", "", "", "", ChangedMessage))
    ensures CheckSubmit(f.currentPassword, f.newPassword, f.confirmPassword).Ok? && reply == Answered(false) ==>
      g == f.(error := "", success := "")
    ensures CheckSubmit(f.currentPassword, f.newPassword, f.confirmPassword).Ok? && reply.Failed? ==>
      g == f.(error := ErrorText(reply.serverError, FailedMessage), success := "")
  {
    match CheckSubmit(f.currentPassword, f.newPassword, f.confirmPassword)
    case Err(message) => f.(error := message)
    case Ok(_) =>
      var sent := f.(error := "", success := "");
      match reply
      case Answered(ok) =>
        if ok then sent.(success := ChangedMessage, currentPassword := "", newPassword := "", confirmPassword := "")
        else sent
      case Failed(serverError) => sent.(error := ErrorText(serverError, FailedMessage))
  }

  /** After a successful change the fields are empty, so submitting again is
      refused with the missing-field message before anything is sent. */
  lemma ResubmitAfterSuccessIsRefused(f: Form, again: Reply)
    requires CheckSubmit(f.currentPassword, f.newPassword, f.confirmPassword).Ok?
    ensures CheckSubmit(Submit(f, Answered(true)).currentPassword, Submit(f, Answered(true)).newPassword,
                        Submit(f, Answered(true)).confirmPassword) == Err(FillInAllFields)
    ensures Submit(Submit(f, Answered(true)), again).error == FillInAllFields
  {
  }
}
