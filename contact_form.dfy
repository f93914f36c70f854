/** The contact form schema (app/routes/profile.contact.tsx): an address and a landline number. */
module ContactForm {
  import opened Text
  import opened Validation
  import PhonePattern

  datatype Contact = Contact(address: string, phone: string)

  const ADDRESS_MESSAGE := "請輸入地址"
  const PHONE_MESSAGE := "請輸入有效的市話號碼"

  /** `contactSchema`. */
  function ContactIssues(form: Contact): set<Issue>
  {
    MinLength("address", form.address, 1, ADDRESS_MESSAGE) +
    Regex("phone", form.phone, PhonePattern.LANDLINE, PHONE_MESSAGE)
  }

  /** Accepted exactly when the address is not empty and the phone is "0", a digit from 2 to 9, then seven or eight digits. */
  lemma ContactAcceptsExactly(form: Contact)
    ensures ContactIssues(form) == {} <==>
      form.address != "" &&
      (|form.phone| == 9 || |form.phone| == 10) && form.phone[0] == '0' && '2' <= form.phone[1] <= '9' &&
      AllDigits(form.phone[2..])
  {
    PhonePattern.LandlineMeaning(form.phone);
  }

  /** The landline rule lets any mobile number through. */
  lemma MobileNumberAccepted(address: string, phone: string)
    requires address != "" && PhonePattern.FullMatch(PhonePattern.MOBILE, phone)
    ensures ContactIssues(Contact(address, phone)) == {}
  {
    PhonePattern.MobileIsLandline(phone);
  }

  const DEFAULT_VALUES := Contact("", "")

  /** The untouched form fails on both fields. */
  lemma DefaultsFail()
    ensures ContactIssues(DEFAULT_VALUES) == {Issue("address", ADDRESS_MESSAGE), Issue("phone", PHONE_MESSAGE)}
  {
    PhonePattern.LandlineMeaning("");
  }
}
