/** The donation page (app/donate/page.tsx): the donation form, the amount that is
    finally donated and the thank-you screen. */
module Donate {

  datatype DonationType = OneTime | Monthly

  datatype DonationForm = DonationForm(
    name: string,
    email: string,
    amount: string,
    customAmount: string,
    paymentMethod: string,
    donationType: DonationType)

  /** The `name` attributes of the inputs wired to `handleInputChange`. */
  datatype Field = CustomAmount | Name | Email

  /** The value of the preset button that opens the custom-amount input. */
  const Custom := "custom"

  const InitialForm := DonationForm("", "", "", "", "card", OneTime)

  /** `handleAmountSelect(a)`'s new form: the amount is `a`; the custom amount
      survives only when `a` is the custom choice. */
  function SelectAmount(f: DonationForm, a: string): (r: DonationForm)
    ensures r.amount == a
    ensures a == Custom ==> r.customAmount == f.customAmount
    ensures a != Custom ==> r.customAmount == ""
    ensures r.name == f.name && r.email == f.email
    ensures r.paymentMethod == f.paymentMethod && r.donationType == f.donationType
  {
    f.(amount := a, customAmount := if a == Custom then f.customAmount else "")
  }

  /** `{ ...prev, [name]: value }` for one of the three inputs. */
  function WithField(f: DonationForm, field: Field, value: string): (r: DonationForm)
    ensures r.customAmount == (if field == CustomAmount then value else f.customAmount)
    ensures r.name == (if field == Name then value else f.name)
    ensures r.email == (if field == Email then value else f.email)
    ensures r.amount == f.amount && r.paymentMethod == f.paymentMethod
    ensures r.donationType == f.donationType
  {
    match field
    case CustomAmount => f.(customAmount := value)
    case Name => f.(name := value)
    case Email => f.(email := value)
  }

  /** `getFinalAmount()`: the amount the thank-you screen reports. */
  function FinalAmount(f: DonationForm): string {
    if f.amount == Custom then f.customAmount else f.amount
  }

  /** Choosing a preset donates exactly that preset; choosing the custom amount
      donates what was typed before. */
  lemma FinalAmountAfterSelect(f: DonationForm, a: string)
    ensures FinalAmount(SelectAmount(f, a)) == if a == Custom then f.customAmount else a
  {
  }

  /** With the custom choice made, the donated amount is the last value typed. */
  lemma FinalAmountFollowsTyping(f: DonationForm, value: string)
    requires f.amount == Custom
    ensures FinalAmount(WithField(f, CustomAmount, value)) == value
    ensures forall field :: field != CustomAmount ==> FinalAmount(WithField(f, field, value)) == FinalAmount(f)
  {
  }

  /** The submit button is disabled while submitting and while any of the amount,
      the name and the e-mail address is empty. */
  function SubmitDisabled(f: DonationForm, isSubmitting: bool): (disabled: bool)
    ensures !disabled <==> !isSubmitting && f.amount != "" && f.name != "" && f.email != ""
  {
    isSubmitting || f.amount == "" || f.name == "" || f.email == ""
  }

  /** The rule does not look at the custom amount: with the custom choice made and
      nothing typed, the button is enabled and the final amount is empty (only the
      input's `required` attribute stops that submission). */
  lemma EnabledWithEmptyCustomAmount()
    ensures var f := InitialForm.(name := "A", email := "a@b", amount := Custom);
            !SubmitDisabled(f, false) && FinalAmount(f) == ""
  {
  }

  class DonatePage {
    var formData: DonationForm
    var isSubmitting: bool
    var showThankYou: bool

    /** Whether the submit button is disabled in this state. */
    predicate SubmitButtonDisabled()
      reads this
    {
      SubmitDisabled(formData, isSubmitting)
    }

    /** The initial state; with no amount chosen yet, the button starts disabled. */
    constructor ()
      ensures formData == InitialForm && !isSubmitting && !showThankYou
      ensures SubmitButtonDisabled()
    {
      formData := InitialForm;
      isSubmitting := false;
      showThankYou := false;
    }

    method HandleInputChange(field: Field, value: string)
      modifies this
      ensures formData == WithField(old(formData), field, value)
      ensures isSubmitting == old(isSubmitting) && showThankYou == old(showThankYou)
    {
      formData := WithField(formData, field, value);
    }

    method HandleAmountSelect(a: string)
      modifies this
      ensures formData == SelectAmount(old(formData), a)
      ensures isSubmitting == old(isSubmitting) && showThankYou == old(showThankYou)
    {
      formData := SelectAmount(formData, a);
    }

    /** The one-time and monthly buttons. */
    method SetDonationType(t: DonationType)
      modifies this
      ensures formData == old(formData).(donationType := t)
      ensures isSubmitting == old(isSubmitting) && showThankYou == old(showThankYou)
    {
      formData := formData.(donationType := t);
    }

    /** The card, UPI and net-banking buttons. */
    method SetPaymentMethod(m: string)
      modifies this
      ensures formData == old(formData).(paymentMethod := m)
      ensures isSubmitting == old(isSubmitting) && showThankYou == old(showThankYou)
    {
      formData := formData.(paymentMethod := m);
    }

    /** The state once the simulated payment has finished: the thank-you screen,
        over the form data as it was. */
    method HandleSubmit()
      modifies this
      ensures !isSubmitting && showThankYou
      ensures formData == old(formData)
    {
      // Only the state after the simulated payment is modelled, so `isSubmitting`
      // is false again here.
      isSubmitting := false;
      showThankYou := true;
    }

    /** "Make Another Donation" leaves the thank-you screen and keeps the form data. */
    method MakeAnotherDonation()
      modifies this
      ensures !showThankYou
      ensures formData == old(formData) && isSubmitting == old(isSubmitting)
    {
      showThankYou := false;
    }
  }
}
