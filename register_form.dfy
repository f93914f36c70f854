/**
 * The registration form schema (app/routes/auth.register.tsx), with its
 * refinement that the two passwords agree.
 */
module RegisterForm {
  import opened Validation
  import PhonePattern

  datatype Register = Register(email: string, password: string, confirmPassword: string, name: string, phone: string)

  const EMAIL_MESSAGE := "請輸入有效的電子郵件"
  const PASSWORD_MESSAGE := "密碼至少需要 8 個字元"
  const NAME_MESSAGE := "姓名至少需要 2 個字元"
  const PHONE_MESSAGE := "請輸入有效的手機號碼"
  const MISMATCH_MESSAGE := "密碼不一致"

  /** `registerSchema`. */
  function RegisterIssues(form: Register, isEmail: string -> bool): set<Issue>
  {
    Email("email", form.email, isEmail, EMAIL_MESSAGE) +
    MinLength("password", form.password, 8, PASSWORD_MESSAGE) +
    MinLength("confirmPassword", form.confirmPassword, 8, PASSWORD_MESSAGE) +
    MinLength("name", form.name, 2, NAME_MESSAGE) +
    Regex("phone", form.phone, PhonePattern.MOBILE, PHONE_MESSAGE) +
    Refine(form.password == form.confirmPassword, "confirmPassword", MISMATCH_MESSAGE)
  }

  /** Accepted exactly when every field rule holds and the two passwords are equal. */
  lemma RegisterAcceptsExactly(form: Register, isEmail: string -> bool)
    ensures RegisterIssues(form, isEmail) == {} <==>
      isEmail(form.email) && |form.password| >= 8 && form.confirmPassword == form.password &&
      |form.name| >= 2 && PhonePattern.FullMatch(PhonePattern.MOBILE, form.phone)
  {
  }

  /**
   * The mismatch is reported on `confirmPassword`, never on `password`,
   * exactly when the passwords differ, even when a length rule fails too.
   */
  lemma MismatchOnConfirmPassword(form: Register, isEmail: string -> bool)
    ensures Issue("confirmPassword", MISMATCH_MESSAGE) in RegisterIssues(form, isEmail) <==> form.password != form.confirmPassword
    ensures Issue("password", MISMATCH_MESSAGE) !in RegisterIssues(form, isEmail)
  {
  }

  /** The length rules are reported on their own fields, exactly when each is shorter than allowed. */
  lemma LengthIssues(form: Register, isEmail: string -> bool)
    ensures Issue("password", PASSWORD_MESSAGE) in RegisterIssues(form, isEmail) <==> |form.password| < 8
    ensures Issue("confirmPassword", PASSWORD_MESSAGE) in RegisterIssues(form, isEmail) <==> |form.confirmPassword| < 8
    ensures Issue("name", NAME_MESSAGE) in RegisterIssues(form, isEmail) <==> |form.name| < 2
    ensures Issue("phone", PHONE_MESSAGE) in RegisterIssues(form, isEmail) <==> !PhonePattern.FullMatch(PhonePattern.MOBILE, form.phone)
  {
  }

  const DEFAULT_VALUES := Register("", "", "", "", "")

  /** The untouched form fails on both passwords, the name and the phone; the empty passwords agree, so there is no mismatch. */
  lemma DefaultsFail(isEmail: string -> bool)
    ensures var issues := RegisterIssues(DEFAULT_VALUES, isEmail);
      Issue("password", PASSWORD_MESSAGE) in issues &&
      Issue("confirmPassword", PASSWORD_MESSAGE) in issues &&
      Issue("name", NAME_MESSAGE) in issues &&
      Issue("phone", PHONE_MESSAGE) in issues &&
      Issue("confirmPassword", MISMATCH_MESSAGE) !in issues
  {
    PhonePattern.MobileMeaning("");
  }
}
