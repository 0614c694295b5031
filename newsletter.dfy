/** The `/api/newsletter` handler (samruddhi-gold-backend/server.js:221-254):
    the address is required and must pass the same pattern as on the contact
    form; nothing is sent. */
module Newsletter {
  import opened Wrappers
  import opened JsValues
  import opened Http
  import EmailPattern
  import Contact

  const EmailRequiredError: string := "Email is required"
  const SubscribedMessage: string := "Thank you for subscribing to our newsletter!"

  function HandleNewsletter(allowed: bool, email: Option<string>): (r: Response)
    ensures r.status in {200, 400, 429}
    ensures !allowed ==> r == RateLimited
    ensures r.status == 429 ==> !allowed
  {
    if !allowed then RateLimited
    else if !Truthy(email) then Response(400, Err(EmailRequiredError))
    else if !EmailPattern.IsValidEmail(email.value) then Response(400, Err(Contact.InvalidEmailError))
    else Response(200, Ok(SubscribedMessage))
  }

  /** An admitted request is accepted exactly when the address is given and
      matches the pattern; a missing address is reported before a malformed one. */
  lemma NewsletterAcceptsExactlyMatchingAddresses(email: Option<string>)
    ensures HandleNewsletter(true, email).status == 200 <==>
      Truthy(email) && EmailPattern.MatchesPattern(email.value)
    ensures !Truthy(email) ==> HandleNewsletter(true, email) == Response(400, Err(EmailRequiredError))
    ensures Truthy(email) && !EmailPattern.MatchesPattern(email.value) ==>
      HandleNewsletter(true, email) == Response(400, Err(Contact.InvalidEmailError))
  {
    if email.Some? {
      EmailPattern.EmailPatternIff(email.value);
    }
  }

  /** Both endpoints judge an address alike: a newsletter signup succeeds
      exactly when a contact form carrying that address (with a name and a
      message, and no phone) passes validation. */
  lemma SameAddressRuleAsContact(email: string, name: string, message: string)
    requires |name| > 0 && |message| > 0
    ensures HandleNewsletter(true, Some(email)).status == 200 <==>
      Contact.Validate(Contact.ContactForm(Some(name), Some(email), None, None, Some(message))).Success?
  {
  }
}
