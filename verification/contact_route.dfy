/** The contact endpoint: it checks that the required fields are present and otherwise does nothing. */
module ContactRoute {
  import opened Common
  import opened Http

  /** The fields read from the body; anything absent, `null` or not a string is `None`. */
  datatype ContactBody = ContactBody(name: Option<string>, email: Option<string>, company: Option<string>,
                                     serviceInterest: Option<string>, message: Option<string>)

  const InvalidPayload: Response := Failure(400, "Invalid payload")

  /** The fields the endpoint insists on: `name`, `email` and `message`, each non-empty. */
  predicate HasRequiredFields(b: ContactBody) {
    Truthy(b.name) && Truthy(b.email) && Truthy(b.message)
  }

  /** `POST /api/contact`; `parseFails` is `request.json()` throwing. */
  function Contact(body: ContactBody, parseFails: bool): (r: Response)
    ensures parseFails ==> r == ServerError
    ensures !parseFails ==> (r == Success <==> HasRequiredFields(body))
    ensures !parseFails && !HasRequiredFields(body) ==> r == InvalidPayload
  {
    if parseFails then ServerError
    else if !HasRequiredFields(body) then InvalidPayload
    else Success
  }

  /** The answer does not depend on `company` or `service_interest`, which the endpoint never reads. */
  lemma CompanyAndServiceUnchecked(body: ContactBody, company: Option<string>, service: Option<string>, parseFails: bool)
    ensures Contact(body.(company := company, serviceInterest := service), parseFails) == Contact(body, parseFails)
  {
  }
}
