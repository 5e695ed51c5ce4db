/**
 * The parameters both contact forms hand to the e-mail service, with the
 * `||` defaults, and the fixed destination address
 * (ai-chatbot-services/src/config/emailjs.ts:20).
 */
module EmailTemplate {

  const ToEmail := "chatterifyservice@gmail.com"
  const NotProvided := "Not provided"
  const NotSpecified := "Not specified"

  datatype TemplateParams = TemplateParams(
    fromName: string,
    fromEmail: string,
    phone: string,
    company: string,
    service: string,
    budget: string,
    message: string,
    toEmail: string)

  /** The optional parameters are never sent empty. */
  predicate DefaultsFilled(p: TemplateParams) {
    p.phone != "" && p.company != "" && p.service != "" && p.budget != "" && p.toEmail == ToEmail
  }
}
