/**
 * The password-change form schema (app/routes/profile.security.tsx), with
 * its refinement that the new password is typed the same twice.
 */
module SecurityForm {
  import opened Validation

  datatype Security = Security(currentPassword: string, newPassword: string, confirmPassword: string)

  const PASSWORD_MESSAGE := "密碼至少需要 8 個字元"
  const MISMATCH_MESSAGE := "新密碼不一致"

  /** `securitySchema`. */
  function SecurityIssues(form: Security): set<Issue>
  {
    MinLength("currentPassword", form.currentPassword, 8, PASSWORD_MESSAGE) +
    MinLength("newPassword", form.newPassword, 8, PASSWORD_MESSAGE) +
    MinLength("confirmPassword", form.confirmPassword, 8, PASSWORD_MESSAGE) +
    Refine(form.newPassword == form.confirmPassword, "confirmPassword", MISMATCH_MESSAGE)
  }

  /** Accepted exactly when all three passwords have eight characters and the new one is confirmed; the current one may equal the new one. */
  lemma SecurityAcceptsExactly(form: Security)
    ensures SecurityIssues(form) == {} <==>
      |form.currentPassword| >= 8 && |form.newPassword| >= 8 && form.confirmPassword == form.newPassword
  {
  }

  /** A mismatch is reported on `confirmPassword` exactly when the new and the confirmed password differ. */
  lemma MismatchOnConfirmPassword(form: Security)
    ensures Issue("confirmPassword", MISMATCH_MESSAGE) in SecurityIssues(form) <==> form.newPassword != form.confirmPassword
    ensures Paths(SecurityIssues(form)) <= {"currentPassword", "newPassword", "confirmPassword"}
  {
  }

  const DEFAULT_VALUES := Security("", "", "")

  /** The untouched form fails the length rule on all three fields and nothing else. */
  lemma DefaultsFail()
    ensures SecurityIssues(DEFAULT_VALUES) ==
      {Issue("currentPassword", PASSWORD_MESSAGE), Issue("newPassword", PASSWORD_MESSAGE), Issue("confirmPassword", PASSWORD_MESSAGE)}
  {
  }
}
