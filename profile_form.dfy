/** The basic profile form schema and its default values (app/routes/profile._index.tsx). */
module ProfileForm {
  import opened Wrappers
  import opened Validation
  import PhonePattern

  datatype Profile = Profile(name: string, email: string, phone: string, birthday: Option<string>)

  const NAME_MESSAGE := "姓名至少需要 2 個字元"
  const EMAIL_MESSAGE := "請輸入有效的電子郵件"
  const PHONE_MESSAGE := "請輸入有效的手機號碼"

  /** `profileSchema`: the birthday is an optional string with no rule. */
  function ProfileIssues(form: Profile, isEmail: string -> bool): set<Issue>
  {
    MinLength("name", form.name, 2, NAME_MESSAGE) +
    Email("email", form.email, isEmail, EMAIL_MESSAGE) +
    Regex("phone", form.phone, PhonePattern.MOBILE, PHONE_MESSAGE)
  }

  /** Accepted exactly when the name has two characters, the e-mail is an address and the phone is a mobile number. */
  lemma ProfileAcceptsExactly(form: Profile, isEmail: string -> bool)
    ensures ProfileIssues(form, isEmail) == {} <==>
      |form.name| >= 2 && isEmail(form.email) && PhonePattern.FullMatch(PhonePattern.MOBILE, form.phone)
  {
  }

  /** The birthday, present or absent, never changes the outcome. */
  lemma BirthdayIsOptional(form: Profile, birthday: Option<string>, isEmail: string -> bool)
    ensures ProfileIssues(form.(birthday := birthday), isEmail) == ProfileIssues(form, isEmail)
    ensures "birthday" !in Paths(ProfileIssues(form, isEmail))
  {
  }

  const DEFAULT_VALUES := Profile("", "", "", Some(""))

  /** The untouched form fails on the name and the phone. */
  lemma DefaultsFail(isEmail: string -> bool)
    ensures var issues := ProfileIssues(DEFAULT_VALUES, isEmail);
      Issue("name", NAME_MESSAGE) in issues && Issue("phone", PHONE_MESSAGE) in issues
  {
    PhonePattern.MobileMeaning("");
  }
}
