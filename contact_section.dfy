/**
 * The home page's contact section (ai-chatbot-services/src/components/Contact.tsx):
 * six text fields and a submitting flag. Unlike the contact page it has no
 * phone field (the phone parameter is always the default), sends the project
 * type as the service, and clears the form as soon as the send succeeds.
 * The `alert` boxes are left out.
 */
module ContactSection {
  import opened Text
  import opened EmailTemplate
  import ContactPage

  datatype Field = Name | Email | Company | ProjectType | Budget | MessageField

  datatype FormData = FormData(
    name: string, email: string, company: string,
    projectType: string, budget: string, message: string)

  const EmptyForm := FormData("", "", "", "", "", "")

  function Get(f: FormData, field: Field): string {
    match field
    case Name => f.name
    case Email => f.email
    case Company => f.company
    case ProjectType => f.projectType
    case Budget => f.budget
    case MessageField => f.message
  }

  /** `{ ...formData, [name]: value }`: the named field takes the value, every other field keeps its own. */
  function Set(f: FormData, field: Field, value: string): (r: FormData)
    ensures Get(r, field) == value
    ensures forall other :: other != field ==> Get(r, other) == Get(f, other)
  {
    match field
    case Name => f.(name := value)
    case Email => f.(email := value)
    case Company => f.(company := value)
    case ProjectType => f.(projectType := value)
    case Budget => f.(budget := value)
    case MessageField => f.(message := value)
  }

  /** `templateParams`: phone is always the default, the project type is sent as the service. */
  function Params(f: FormData): (p: TemplateParams)
    ensures DefaultsFilled(p)
    ensures p.phone == NotProvided
    ensures p.fromName == f.name && p.fromEmail == f.email && p.message == f.message
    ensures f.projectType != "" ==> p.service == f.projectType
    ensures f.projectType == "" ==> p.service == NotSpecified
    ensures f.company != "" ==> p.company == f.company
    ensures f.company == "" ==> p.company == NotProvided
    ensures f.budget != "" ==> p.budget == f.budget
    ensures f.budget == "" ==> p.budget == NotSpecified
  {
    TemplateParams(
      f.name, f.email, NotProvided,
      OrElse(f.company, NotProvided), OrElse(f.projectType, NotSpecified), OrElse(f.budget, NotSpecified),
      f.message, ToEmail)
  }

  /** The contact page's form this one corresponds to: no phone, project type as the service. */
  function AsPageForm(f: FormData): ContactPage.FormData {
    ContactPage.FormData(f.name, f.email, "", f.company, f.projectType, f.budget, f.message)
  }

  /** Both forms send the same parameters for the same answers, this one with the phone left empty. */
  lemma ParamsAgreeWithPage(f: FormData)
    ensures Params(f) == ContactPage.Params(AsPageForm(f))
  {
  }

  predicate RequiredFilled(f: FormData) {
    f.name != "" && f.email != "" && f.message != ""
  }

  class ContactForm {
    var formData: FormData
    var isSubmitting: bool

    constructor ()
      ensures formData == EmptyForm && !isSubmitting
    {
      formData := EmptyForm;
      isSubmitting := false;
    }

    /** The submit button is disabled while a send is in flight. */
    function SubmitEnabled(): bool
      reads this
    {
      !isSubmitting
    }

    /** `handleChange`. */
    method HandleChange(field: Field, value: string)
      modifies this
      ensures formData == Set(old(formData), field, value)
      ensures isSubmitting == old(isSubmitting)
    {
      formData := Set(formData, field, value);
    }

    /** `handleSubmit` up to the `await`. */
    method StartSubmit() returns (params: TemplateParams)
      requires SubmitEnabled() && RequiredFilled(formData)
      modifies this
      ensures params == Params(old(formData))
      ensures isSubmitting && formData == old(formData)
    {
      isSubmitting := true;
      params := Params(formData);
    }

    /** `handleSubmit` after the `await`: success clears every field at once, failure keeps them. */
    method FinishSubmit(delivered: bool)
      requires isSubmitting
      modifies this
      ensures !isSubmitting
      ensures delivered ==> formData == EmptyForm && forall field :: Get(formData, field) == ""
      ensures !delivered ==> formData == old(formData)
    {
      if delivered {
        formData := EmptyForm;
      }
      isSubmitting := false;
    }
  }
}
