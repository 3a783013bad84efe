/**
 * What the contact form sends and what the repository's validators say about
 * it: the request body, the closed list of services (written out identically in
 * routes/contactRoutes.js, contact/submit.js and models/contact.js) and the
 * messages both request validators use.
 */
module ContactForm {

  /**
   * A parsed JSON request body, restricted to its string-valued fields. A key
   * that is absent is `undefined` in JavaScript.
   */
  type Body = map<string, string>

  /**
   * The field's value, or `''` when it is absent. This is express-validator's
   * conversion of `undefined` before sanitizing or validating, the default of a
   * destructuring `{ company = '' }`, and, for strings, `value || ''`.
   */
  function Get(body: Body, field: string): string {
    if field in body then body[field] else ""
  }

  /** Writing one field leaves every other field as it was. */
  lemma GetOther(body: Body, written: string, v: string, field: string)
    requires written != field
    ensures Get(body[written := v], field) == Get(body, field)
    ensures field in body[written := v] <==> field in body
  {
  }

  /** `!!body[field]` for a string field: present and not empty. */
  predicate Truthy(body: Body, field: string) {
    field in body && body[field] != ""
  }

  /** The nine named services plus `''` for "unspecified", case-sensitive. */
  const Services: seq<string> := [
    "E-Commerce Development",
    "Mobile App Development",
    "Business Websites",
    "Digital Marketing",
    "ERP Solutions",
    "Project Management Software",
    "Email Marketing",
    "Salesforce Integration",
    "Other",
    ""
  ]

  const NameMessage := "Name must be between 2 and 100 characters"
  const EmailMessage := "Please enter a valid email address"
  const CompanyMessage := "Company name cannot exceed 100 characters"
  const WhatsappMessage := "WhatsApp number must be between 10 and 15 characters"
  const ServiceMessage := "Invalid service selection"
  const MessageMessage := "Message must be between 10 and 2000 characters"

  /** The list has ten entries, includes `''`, and matching is exact: no case folding. */
  lemma ServicesShape()
    ensures |Services| == 10 && "" in Services && "Other" in Services
    ensures "other" !in Services && "e-commerce development" !in Services
  {
  }
}
