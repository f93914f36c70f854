/**
 * The checkout page (app/routes/checkout.tsx): its form schema and defaults,
 * the redirect of an empty cart, and the steps of a submit.
 */
module Checkout {
  import opened Wrappers
  import opened Validation
  import PhonePattern
  import opened Text
  import CartContext

  datatype CheckoutForm = CheckoutForm(
    name: string,
    phone: string,
    email: string,
    address: string,
    payment: string,
    shipping: string)

  const NAME_MESSAGE := "請輸入姓名"
  const PHONE_MESSAGE := "請輸入有效的手機號碼"
  const EMAIL_MESSAGE := "請輸入有效的電子郵件"
  const ADDRESS_MESSAGE := "請輸入地址"

  /** `checkoutSchema`. */
  function CheckoutIssues(form: CheckoutForm, isEmail: string -> bool): set<Issue>
  {
    MinLength("name", form.name, 2, NAME_MESSAGE) +
    Regex("phone", form.phone, PhonePattern.MOBILE, PHONE_MESSAGE) +
    Email("email", form.email, isEmail, EMAIL_MESSAGE) +
    MinLength("address", form.address, 1, ADDRESS_MESSAGE) +
    Enum2("payment", form.payment, "credit-card", "atm") +
    Enum2("shipping", form.shipping, "home-delivery", "convenience-store")
  }

  /**
   * The form is accepted exactly when the name has at least two characters,
   * the phone is "09" and eight digits, the e-mail is an address, the address
   * is not empty, and payment and shipping are among their two options.
   */
  lemma CheckoutAcceptsExactly(form: CheckoutForm, isEmail: string -> bool)
    ensures CheckoutIssues(form, isEmail) == {} <==>
      |form.name| >= 2 &&
      |form.phone| == 10 && form.phone[0] == '0' && form.phone[1] == '9' && AllDigits(form.phone[2..]) &&
      isEmail(form.email) &&
      form.address != "" &&
      (form.payment == "credit-card" || form.payment == "atm") &&
      (form.shipping == "home-delivery" || form.shipping == "convenience-store")
  {
    PhonePattern.MobileMeaning(form.phone);
  }

  /** The name issue is reported exactly when the name is shorter than two characters, whatever the other fields hold. */
  lemma NameIssue(form: CheckoutForm, isEmail: string -> bool)
    ensures Issue("name", NAME_MESSAGE) in CheckoutIssues(form, isEmail) <==> |form.name| < 2
  {
  }

  /** The address issue is reported exactly when the address is empty. */
  lemma AddressIssue(form: CheckoutForm, isEmail: string -> bool)
    ensures Issue("address", ADDRESS_MESSAGE) in CheckoutIssues(form, isEmail) <==> form.address == ""
  {
  }

  /** The phone issue is reported exactly when the phone is not a mobile number. */
  lemma PhoneIssue(form: CheckoutForm, isEmail: string -> bool)
    ensures Issue("phone", PHONE_MESSAGE) in CheckoutIssues(form, isEmail) <==> !PhonePattern.FullMatch(PhonePattern.MOBILE, form.phone)
  {
  }

  /** The payment field carries an issue exactly when it is neither option. */
  lemma PaymentIssue(form: CheckoutForm, isEmail: string -> bool)
    ensures "payment" in Paths(CheckoutIssues(form, isEmail)) <==> form.payment != "credit-card" && form.payment != "atm"
  {
    var issues := CheckoutIssues(form, isEmail);
    if form.payment != "credit-card" && form.payment != "atm" {
      assert Issue("payment", EnumMessage("credit-card", "atm", form.payment)) in issues;
    }
  }

  const DEFAULT_VALUES := CheckoutForm("", "", "", "", "credit-card", "home-delivery")

  /** The untouched form fails on name, phone and address, and its payment and shipping choices pass. */
  lemma DefaultsFailOnTextFields(isEmail: string -> bool)
    ensures var issues := CheckoutIssues(DEFAULT_VALUES, isEmail);
      Issue("name", NAME_MESSAGE) in issues &&
      Issue("phone", PHONE_MESSAGE) in issues &&
      Issue("address", ADDRESS_MESSAGE) in issues &&
      "payment" !in Paths(issues) && "shipping" !in Paths(issues)
  {
    PhonePattern.MobileMeaning("");
  }

  /** Where the page sends the visitor when rendered: to the cart when it is empty. */
  function RedirectTarget(items: seq<CartContext.CartItem>): (r: Option<string>)
    ensures r.Some? <==> items == []
    ensures r.Some? ==> r.value == "/cart"
  {
    if items == [] then Some("/cart") else None
  }

  /** What the page does, in order. */
  datatype Step = SetSubmitting(on: bool) | ClearCart | Navigate(to: string)

  /** The steps of a submit that the schema accepted. */
  const SUBMIT_STEPS: seq<Step> := [SetSubmitting(true), ClearCart, Step.Navigate("/checkout/success"), SetSubmitting(false)]

  /** The page's own state: `isSubmitting`, the current location, and the steps taken so far. */
  class CheckoutPage {
    var isSubmitting: bool
    var location: string
    var steps: seq<Step>

    constructor (location: string)
      ensures !isSubmitting && this.location == location && steps == []
    {
      isSubmitting := false;
      this.location := location;
      steps := [];
    }

    /** `navigate(to)`. */
    method Navigate(to: string)
      modifies this
      ensures location == to && steps == old(steps) + [Step.Navigate(to)]
      ensures isSubmitting == old(isSubmitting)
    {
      location := to;
      steps := steps + [Step.Navigate(to)];
    }

    /** `setIsSubmitting(on)`. */
    method SetSubmittingTo(on: bool)
      modifies this
      ensures isSubmitting == on && steps == old(steps) + [SetSubmitting(on)]
      ensures location == old(location)
    {
      isSubmitting := on;
      steps := steps + [SetSubmitting(on)];
    }

    /** The render: an empty cart sends the visitor to /cart and nothing else happens. */
    method Render(cart: CartContext.Cart)
      modifies this
      ensures RedirectTarget(cart.items).Some? ==>
        location == "/cart" && steps == old(steps) + [Step.Navigate("/cart")] && isSubmitting == old(isSubmitting)
      ensures RedirectTarget(cart.items).None? ==>
        location == old(location) && steps == old(steps) && isSubmitting == old(isSubmitting)
    {
      if |cart.items| == 0 {
        Navigate("/cart");
      }
    }

    /**
     * `onSubmit`: submitting on, the cart cleared, then /checkout/success,
     * and submitting off at the end. The simulated delay is not modelled.
     */
    method OnSubmit(cart: CartContext.Cart)
      modifies this, cart
      ensures cart.items == []
      ensures location == "/checkout/success" && !isSubmitting
      ensures steps == old(steps) + SUBMIT_STEPS
    {
      SetSubmittingTo(true);
      cart.ClearCart();
      steps := steps + [ClearCart];
      Navigate("/checkout/success");
      SetSubmittingTo(false);
    }

    /** `form.handleSubmit(onSubmit)`: `onSubmit` runs only for a form the schema accepts. */
    method HandleSubmit(cart: CartContext.Cart, form: CheckoutForm, isEmail: string -> bool)
      modifies this, cart
      ensures CheckoutIssues(form, isEmail) != {} ==>
        cart.items == old(cart.items) && steps == old(steps) && location == old(location) && isSubmitting == old(isSubmitting)
      ensures CheckoutIssues(form, isEmail) == {} ==>
        cart.items == [] && location == "/checkout/success" && !isSubmitting &&
        steps == old(steps) + SUBMIT_STEPS
    {
      if CheckoutIssues(form, isEmail) == {} {
        OnSubmit(cart);
      }
    }
  }

  /**
   * During a submit the cart is cleared, and then the page navigates, while
   * `isSubmitting` is on, and the submit ends with it off.
   */
  lemma SubmitStepsOrder()
    ensures forall i :: 0 <= i < |SUBMIT_STEPS| && !SUBMIT_STEPS[i].SetSubmitting? ==> SubmittingBefore(SUBMIT_STEPS, i)
    ensures SubmittingBefore(SUBMIT_STEPS, 2) && SUBMIT_STEPS[1] == ClearCart && SUBMIT_STEPS[2].Navigate?
    ensures !SubmittingBefore(SUBMIT_STEPS, |SUBMIT_STEPS|)
  {
  }

  /** The last `SetSubmitting` step before position `i` turned submitting on. */
  predicate SubmittingBefore(s: seq<Step>, i: nat)
    requires i <= |s|
    decreases i
  {
    i > 0 && (if s[i - 1].SetSubmitting? then s[i - 1].on else SubmittingBefore(s, i - 1))
  }
}
