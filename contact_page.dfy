/**
 * The contact page's form (ai-chatbot-services/src/pages/ContactPage.tsx):
 * seven text fields, a submitting flag and a status banner. Submitting is
 * split at the `await`: `StartSubmit` builds the template parameters and
 * raises the flag, `FinishSubmit` takes the e-mail service's outcome. The
 * reset that `setTimeout` schedules after a success is the event
 * `ResetTimerFires`; `pendingResets` counts the timers scheduled and not yet
 * fired.
 */
module ContactPage {
  import opened Wrappers
  import opened Text
  import opened EmailTemplate

  datatype Field = Name | Email | Phone | Company | Service | Budget | MessageField

  datatype FormData = FormData(
    name: string, email: string, phone: string, company: string,
    service: string, budget: string, message: string)

  datatype Status = Idle | Success | Error

  const EmptyForm := FormData("", "", "", "", "", "", "")

  function Get(f: FormData, field: Field): string {
    match field
    case Name => f.name
    case Email => f.email
    case Phone => f.phone
    case Company => f.company
    case Service => f.service
    case Budget => f.budget
    case MessageField => f.message
  }

  /** `{...formData, [name]: value}`: the named field takes the value, every other field keeps its own. */
  function Set(f: FormData, field: Field, value: string): (r: FormData)
    ensures Get(r, field) == value
    ensures forall other :: other != field ==> Get(r, other) == Get(f, other)
  {
    match field
    case Name => f.(name := value)
    case Email => f.(email := value)
    case Phone => f.(phone := value)
    case Company => f.(company := value)
    case Service => f.(service := value)
    case Budget => f.(budget := value)
    case MessageField => f.(message := value)
  }

  /** Writing back a field's own value changes nothing. */
  lemma SetOwnValue(f: FormData, field: Field)
    ensures Set(f, field, Get(f, field)) == f
  {
  }

  /** The second of two writes to one field wins. */
  lemma SetTwice(f: FormData, field: Field, a: string, b: string)
    ensures Set(Set(f, field, a), field, b) == Set(f, field, b)
  {
  }

  /** `templateParams`: name, e-mail and message as typed, the four optional fields defaulted. */
  function Params(f: FormData): (p: TemplateParams)
    ensures DefaultsFilled(p)
    ensures p.fromName == f.name && p.fromEmail == f.email && p.message == f.message
    ensures f.phone != "" ==> p.phone == f.phone
    ensures f.phone == "" ==> p.phone == NotProvided
    ensures f.company != "" ==> p.company == f.company
    ensures f.company == "" ==> p.company == NotProvided
    ensures f.service != "" ==> p.service == f.service
    ensures f.service == "" ==> p.service == NotSpecified
    ensures f.budget != "" ==> p.budget == f.budget
    ensures f.budget == "" ==> p.budget == NotSpecified
  {
    TemplateParams(
      f.name, f.email,
      OrElse(f.phone, NotProvided), OrElse(f.company, NotProvided),
      OrElse(f.service, NotSpecified), OrElse(f.budget, NotSpecified),
      f.message, ToEmail)
  }

  /** The browser submits the form only when the `required` fields (name, e-mail, message) are filled. */
  predicate RequiredFilled(f: FormData) {
    f.name != "" && f.email != "" && f.message != ""
  }

  class ContactForm {
    var formData: FormData
    var isSubmitting: bool
    var submitStatus: Status
    var pendingResets: nat

    /** `location.state?.service || ''` seeds the service; every other field starts empty. */
    constructor (preSelectedService: Option<string>)
      ensures formData == EmptyForm.(service := preSelectedService.GetOr(""))
      ensures !isSubmitting && submitStatus == Idle && pendingResets == 0
    {
      formData := EmptyForm.(service := OrElse(preSelectedService.GetOr(""), ""));
      isSubmitting := false;
      submitStatus := Idle;
      pendingResets := 0;
    }

    /** The submit button is disabled while a send is in flight. */
    function SubmitEnabled(): bool
      reads this
    {
      !isSubmitting
    }

    /** `handleChange`. */
    method HandleChange(field: Field, value: string)
      modifies this
      ensures formData == Set(old(formData), field, value)
      ensures isSubmitting == old(isSubmitting) && submitStatus == old(submitStatus)
      ensures pendingResets == old(pendingResets)
    {
      formData := Set(formData, field, value);
    }

    /** `handleSubmit` up to the `await`: raises the flag and returns what is sent. */
    method StartSubmit() returns (params: TemplateParams)
      requires SubmitEnabled() && RequiredFilled(formData)
      modifies this
      ensures params == Params(old(formData))
      ensures isSubmitting
      ensures formData == old(formData) && submitStatus == old(submitStatus) && pendingResets == old(pendingResets)
    {
      isSubmitting := true;
      params := Params(formData);
    }

    /**
     * `handleSubmit` after the `await`: success shows the success banner and
     * schedules the reset; failure shows the error banner and keeps the form.
     * The flag drops either way.
     */
    method FinishSubmit(delivered: bool)
      requires isSubmitting
      modifies this
      ensures !isSubmitting
      ensures formData == old(formData)
      ensures submitStatus == (if delivered then Success else Error)
      ensures pendingResets == old(pendingResets) + (if delivered then 1 else 0)
    {
      if delivered {
        submitStatus := Success;
        pendingResets := pendingResets + 1;
      } else {
        submitStatus := Error;
      }
      isSubmitting := false;
    }

    /** The delayed reset: every field, the service included, is cleared and the banner goes back to idle. */
    method ResetTimerFires()
      requires pendingResets > 0
      modifies this
      ensures formData == EmptyForm && submitStatus == Idle
      ensures forall field :: Get(formData, field) == ""
      ensures isSubmitting == old(isSubmitting) && pendingResets == old(pendingResets) - 1
    {
      formData := EmptyForm;
      submitStatus := Idle;
      pendingResets := pendingResets - 1;
    }
  }
}
