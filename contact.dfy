/** The contact page (app/contact/page.tsx): the contact form and the FAQ accordion. */
module Contact {
  import opened Wrappers

  datatype ContactForm = ContactForm(name: string, email: string, subject: string, message: string)

  /** The `name` attributes of the inputs wired to `handleInputChange`. */
  datatype Field = Name | Email | Subject | Message

  const EmptyForm := ContactForm("", "", "", "")

  /** `{ ...prev, [name]: value }` for one of the four inputs. */
  function WithField(f: ContactForm, field: Field, value: string): (r: ContactForm)
    ensures r.name == (if field == Name then value else f.name)
    ensures r.email == (if field == Email then value else f.email)
    ensures r.subject == (if field == Subject then value else f.subject)
    ensures r.message == (if field == Message then value else f.message)
  {
    match field
    case Name => f.(name := value)
    case Email => f.(email := value)
    case Subject => f.(subject := value)
    case Message => f.(message := value)
  }

  /** The answer of question `i` is shown exactly when `openFaq === i`. */
  predicate Shown(openFaq: Option<nat>, i: nat) {
    openFaq == Some(i)
  }

  /** `toggleFaq(i)`'s new `openFaq`: closing the open question, or opening `i`
      in place of whichever was open. */
  function Toggled(openFaq: Option<nat>, i: nat): (r: Option<nat>)
    ensures Shown(openFaq, i) ==> r == None
    ensures !Shown(openFaq, i) ==> Shown(r, i) && forall j :: j != i ==> !Shown(r, j)
  {
    if openFaq == Some(i) then None else Some(i)
  }

  /** At most one answer is shown at any time. */
  lemma AtMostOneShown(openFaq: Option<nat>, i: nat, j: nat)
    requires Shown(openFaq, i) && Shown(openFaq, j)
    ensures i == j
  {
  }

  /** Toggling the same question twice closes it, unless it was open to begin with,
      in which case it is open again. */
  lemma ToggleTwice(openFaq: Option<nat>, i: nat)
    ensures Toggled(Toggled(openFaq, i), i) == if Shown(openFaq, i) then openFaq else None
  {
  }

  class ContactPage {
    var formData: ContactForm
    var isSubmitting: bool
    var openFaq: Option<nat>

    constructor ()
      ensures formData == EmptyForm && !isSubmitting && openFaq == None
    {
      formData := EmptyForm;
      isSubmitting := false;
      openFaq := None;
    }

    /** The submit button is disabled while a submission is in flight. */
    predicate SubmitDisabled()
      reads this
    {
      isSubmitting
    }

    method HandleInputChange(field: Field, value: string)
      modifies this
      ensures formData == WithField(old(formData), field, value)
      ensures isSubmitting == old(isSubmitting) && openFaq == old(openFaq)
    {
      formData := WithField(formData, field, value);
    }

    /** The state once the simulated submission has finished: every field is empty
        and the button is enabled again. */
    method HandleSubmit()
      modifies this
      ensures formData == EmptyForm && !isSubmitting && !SubmitDisabled()
      ensures openFaq == old(openFaq)
    {
      // Only the state after the simulated sending is modelled, so `isSubmitting`
      // is false again here.
      formData := EmptyForm;
      isSubmitting := false;
    }

    method ToggleFaq(index: nat)
      modifies this
      ensures openFaq == Toggled(old(openFaq), index)
      ensures formData == old(formData) && isSubmitting == old(isSubmitting)
    {
      openFaq := if openFaq == Some(index) then None else Some(index);
    }
  }
}
