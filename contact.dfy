/** The `/api/contact` handler (samruddhi-gold-backend/server.js:68-218):
    validate the form, build a notification for the business and an
    acknowledgement for the submitter, dispatch both, and answer 200 only when
    both were delivered. */
module Contact {
  import opened Wrappers
  import opened JsValues
  import opened Http
  import EmailPattern

  /** The JSON body as received; each field may be absent. */
  datatype ContactForm = ContactForm(
    name: Option<string>,
    email: Option<string>,
    phone: Option<string>,
    service: Option<string>,
    message: Option<string>)

  /** A submission that passed every check. */
  datatype Inquiry = Inquiry(
    name: string,
    email: string,
    phone: Option<string>,
    service: Option<string>,
    message: string)

  const MissingFieldsError: string := "Please provide name, email, and message"
  const InvalidEmailError: string := "Please provide a valid email address"
  const InvalidPhoneError: string := "Please provide a valid phone number"
  const MinPhoneLength: nat := 10

  /** The early-return checks of the handler, in source order. */
  function Validate(form: ContactForm): (r: Result<Inquiry, string>)
    ensures r.Success? ==>
      && Truthy(form.name) && Truthy(form.email) && Truthy(form.message)
      && r.value == Inquiry(form.name.value, form.email.value, form.phone, form.service, form.message.value)
      && EmailPattern.MatchesPattern(r.value.email)
      && (Truthy(r.value.phone) ==> |r.value.phone.value| >= MinPhoneLength)
    ensures r.Failure? ==> r.error in {MissingFieldsError, InvalidEmailError, InvalidPhoneError}
  {
    if !Truthy(form.name) || !Truthy(form.email) || !Truthy(form.message) then
      Failure(MissingFieldsError)
    else if !EmailPattern.IsValidEmail(form.email.value) then
      Failure(InvalidEmailError)
    else if Truthy(form.phone) && |form.phone.value| < MinPhoneLength then
      Failure(InvalidPhoneError)
    else
      EmailPattern.EmailPatternIff(form.email.value);
      Success(Inquiry(form.name.value, form.email.value, form.phone, form.service, form.message.value))
  }

  /** The validation rules as a list, independent of how the handler tests them. */
  datatype Rule = NamePresent | EmailPresent | MessagePresent | EmailWellFormed | PhoneLongEnough

  const RuleOrder: seq<Rule> := [NamePresent, EmailPresent, MessagePresent, EmailWellFormed, PhoneLongEnough]

  ghost predicate Holds(rule: Rule, form: ContactForm) {
    match rule
    case NamePresent => Truthy(form.name)
    case EmailPresent => Truthy(form.email)
    case MessagePresent => Truthy(form.message)
    case EmailWellFormed => form.email.Some? && EmailPattern.MatchesPattern(form.email.value)
    case PhoneLongEnough => !Truthy(form.phone) || |form.phone.value| >= MinPhoneLength
  }

  /** The error text a client sees for each rule. */
  function ErrorOf(rule: Rule): string {
    match rule
    case NamePresent | EmailPresent | MessagePresent => MissingFieldsError
    case EmailWellFormed => InvalidEmailError
    case PhoneLongEnough => InvalidPhoneError
  }

  /** The first rule of `rules` that `form` violates. */
  ghost function FirstViolated(rules: seq<Rule>, form: ContactForm): Option<Rule> {
    if rules == [] then None
    else if !Holds(rules[0], form) then Some(rules[0])
    else FirstViolated(rules[1..], form)
  }

  /** The first violated rule decides the answer; a form that violates none passes. */
  lemma ValidateReportsFirstViolation(form: ContactForm)
    ensures FirstViolated(RuleOrder, form).None? <==> Validate(form).Success?
    ensures FirstViolated(RuleOrder, form).Some? ==>
      Validate(form) == Failure(ErrorOf(FirstViolated(RuleOrder, form).value))
  {
    if form.email.Some? {
      EmailPattern.EmailPatternIff(form.email.value);
    }
    var tail1, tail2, tail3, tail4 := RuleOrder[1..], RuleOrder[2..], RuleOrder[3..], RuleOrder[4..];
    assert tail1[1..] == tail2 && tail2[1..] == tail3 && tail3[1..] == tail4 && tail4[1..] == [];
    assert FirstViolated(tail4, form) == (if !Holds(PhoneLongEnough, form) then Some(PhoneLongEnough) else None);
    assert FirstViolated(tail3, form) ==
      (if !Holds(EmailWellFormed, form) then Some(EmailWellFormed) else FirstViolated(tail4, form));
    assert FirstViolated(tail2, form) ==
      (if !Holds(MessagePresent, form) then Some(MessagePresent) else FirstViolated(tail3, form));
    assert FirstViolated(tail1, form) ==
      (if !Holds(EmailPresent, form) then Some(EmailPresent) else FirstViolated(tail2, form));
  }

  /** Only the phone rule looks at the phone: an absent or empty phone never
      causes a rejection, and a filled one is rejected exactly when shorter
      than ten characters and every earlier rule holds. */
  lemma PhoneRule(form: ContactForm)
    ensures !Truthy(form.phone) ==> Validate(form) != Failure(InvalidPhoneError)
    ensures Validate(form) == Failure(InvalidPhoneError) <==>
      && Truthy(form.name) && Truthy(form.email) && Truthy(form.message)
      && EmailPattern.MatchesPattern(form.email.value)
      && Truthy(form.phone) && |form.phone.value| < MinPhoneLength
  {
    if form.email.Some? {
      EmailPattern.EmailPatternIff(form.email.value);
    }
  }

  // ---------------------------------------------------------------------
  // Message construction (samruddhi-gold-backend/server.js:97-194)

  /** One labelled line of a mail body (a table row in the HTML). */
  datatype Row = Row(caption: string, value: string)

  /** A mail body: a heading, labelled rows, and fixed lines of text. */
  datatype MailBody = MailBody(heading: string, rows: seq<Row>, notes: seq<string>)

  datatype Mail = Mail(sender: Option<string>, recipient: string, subject: string, body: MailBody)

  /** The environment variables the handler reads (`EMAIL_FROM`, `EMAIL_USER`,
      `BUSINESS_EMAIL`). */
  datatype MailConfig = MailConfig(emailFrom: Option<string>, emailUser: Option<string>, businessEmail: Option<string>)

  const DefaultBusinessEmail: string := "info@samruddhigold.com"
  const DefaultService: string := "General Inquiry"
  const BusinessSubjectPrefix: string := "New Contact Form Submission - "
  const CustomerSubject: string := "Thank you for contacting Samruddhi Gold Company"
  const BusinessPhone: string := "+91 77605 47888"
  const CompanyName: string := "Samruddhi Gold Company"

  const NameLabel: string := "Name:"
  const EmailLabel: string := "Email:"
  const PhoneLabel: string := "Phone:"
  const ServiceLabel: string := "Service:"
  const MessageLabel: string := "Message:"

  function Sender(cfg: MailConfig): Option<string> {
    Or(cfg.emailFrom, cfg.emailUser)
  }

  function BusinessAddress(cfg: MailConfig): string {
    OrElse(cfg.businessEmail, DefaultBusinessEmail)
  }

  /** `service || 'General Inquiry'`. */
  function ServiceName(inq: Inquiry): string {
    OrElse(inq.service, DefaultService)
  }

  function BusinessRows(inq: Inquiry): seq<Row> {
    [Row(NameLabel, inq.name), Row(EmailLabel, inq.email)]
    + (if Truthy(inq.phone) then [Row(PhoneLabel, inq.phone.value)] else [])
    + (if Truthy(inq.service) then [Row(ServiceLabel, inq.service.value)] else [])
    + [Row(MessageLabel, inq.message)]
  }

  /** The notification to the business mailbox; `receivedOn` is the
      submission time as rendered for the Asia/Kolkata zone. */
  function BusinessMail(cfg: MailConfig, inq: Inquiry, receivedOn: string): Mail {
    Mail(
      Sender(cfg),
      BusinessAddress(cfg),
      BusinessSubjectPrefix + ServiceName(inq),
      MailBody(
        "New Contact Form Submission",
        BusinessRows(inq),
        [CompanyName,
         "Received on: " + receivedOn,
         "Please respond within 24 hours for best customer experience."]))
  }

  /** The fixed text of the acknowledgement: thanks, the promise of an answer
      within 24 hours, and the business's address, phone and opening hours. */
  const CustomerNotes: seq<string> := [
    CompanyName,
    "We have received your inquiry and appreciate your interest in our services.",
    "Our team will review your inquiry and get back to you within 24 hours. For urgent matters, please feel free to call us directly.",
    "Building, 29/2, 2nd Floor, Corner House, Nagappa St, 4th Block, Nehru Nagar, Seshadripuram, Bengaluru, Karnataka 560001",
    BusinessPhone,
    "Mon-Sat: 10:00 AM - 7:00 PM, Sun: 11:00 AM - 5:00 PM",
    "Pro Tip: Bring your gold items for a free, no-obligation evaluation and get the best rates in Bengaluru!",
    "Thank you for choosing Samruddhi Gold Company",
    "Bengaluru's Most Trusted Gold Buying Experts"]

  /** The acknowledgement to the submitter. */
  function CustomerMail(cfg: MailConfig, inq: Inquiry): Mail {
    Mail(
      Sender(cfg),
      inq.email,
      CustomerSubject,
      MailBody(
        "Thank You, " + inq.name + "!",
        [Row(ServiceLabel, ServiceName(inq)), Row(MessageLabel, inq.message)],
        CustomerNotes))
  }

  /** The two mails of one submission, in the order they are handed to the
      transport: two different mails, to the business mailbox and to the
      submitter. */
  function BuildMails(cfg: MailConfig, inq: Inquiry, receivedOn: string): (mails: seq<Mail>)
    ensures |mails| == 2
    ensures mails[0].recipient == BusinessAddress(cfg) && mails[1].recipient == inq.email
    ensures mails[0] != mails[1]
  {
    assert ("Thank You, " + inq.name + "!")[0] == 'T';
    [BusinessMail(cfg, inq, receivedOn), CustomerMail(cfg, inq)]
  }

  /** `part` occurs in `s` starting at index `i`. */
  predicate OccursAt(s: string, part: string, i: int) {
    0 <= i <= |s| - |part| && s[i..i + |part|] == part
  }

  /** `s` contains `part` as a contiguous piece. */
  ghost predicate Contains(s: string, part: string) {
    exists i :: OccursAt(s, part, i)
  }

  function CaptionsOf(rows: seq<Row>): set<string> {
    set r | r in rows :: r.caption
  }

  /** The business body always carries name, email and message, carries a
      phone row exactly when the phone is filled and a service row exactly
      when the service is filled, each with the submitted value, and never
      repeats a label. */
  lemma BusinessRowsReflectSubmission(inq: Inquiry)
    ensures Row(NameLabel, inq.name) in BusinessRows(inq)
    ensures Row(EmailLabel, inq.email) in BusinessRows(inq)
    ensures Row(MessageLabel, inq.message) in BusinessRows(inq)
    ensures PhoneLabel in CaptionsOf(BusinessRows(inq)) <==> Truthy(inq.phone)
    ensures Truthy(inq.phone) ==> Row(PhoneLabel, inq.phone.value) in BusinessRows(inq)
    ensures ServiceLabel in CaptionsOf(BusinessRows(inq)) <==> Truthy(inq.service)
    ensures Truthy(inq.service) ==> Row(ServiceLabel, inq.service.value) in BusinessRows(inq)
    ensures forall i, j :: 0 <= i < j < |BusinessRows(inq)| ==>
      BusinessRows(inq)[i].caption != BusinessRows(inq)[j].caption
  {
  }

  /** Both mails come from `EMAIL_FROM`, else `EMAIL_USER`; the notification
      goes to `BUSINESS_EMAIL`, else the default mailbox, its subject names
      the requested service, falling back to the general label, and its body
      gives the time of submission. */
  lemma BusinessMailAddressing(cfg: MailConfig, inq: Inquiry, receivedOn: string)
    ensures var mail := BusinessMail(cfg, inq, receivedOn);
      && mail.sender == CustomerMail(cfg, inq).sender
      && mail.sender == (if Truthy(cfg.emailFrom) then cfg.emailFrom else cfg.emailUser)
      && mail.recipient == (if Truthy(cfg.businessEmail) then cfg.businessEmail.value else DefaultBusinessEmail)
      && mail.subject[..|BusinessSubjectPrefix|] == BusinessSubjectPrefix
      && mail.subject[|BusinessSubjectPrefix|..] == (if Truthy(inq.service) then inq.service.value else DefaultService)
      && "Received on: " + receivedOn in mail.body.notes
  {
  }

  /** The acknowledgement goes to the submitter, greets them by name, echoes
      the service (or the general label) and the message, and gives the
      business phone number. */
  lemma CustomerMailEchoesSubmission(cfg: MailConfig, inq: Inquiry)
    ensures CustomerMail(cfg, inq).recipient == inq.email
    ensures CustomerMail(cfg, inq).subject == CustomerSubject
    ensures Contains(CustomerMail(cfg, inq).body.heading, inq.name)
    ensures Row(ServiceLabel, if Truthy(inq.service) then inq.service.value else DefaultService)
      in CustomerMail(cfg, inq).body.rows
    ensures Row(MessageLabel, inq.message) in CustomerMail(cfg, inq).body.rows
    ensures BusinessPhone in CustomerMail(cfg, inq).body.notes
  {
    var heading := CustomerMail(cfg, inq).body.heading;
    assert OccursAt(heading, inq.name, |"Thank You, "|);
  }

  // ---------------------------------------------------------------------
  // Dispatch and answer (samruddhi-gold-backend/server.js:196-217)

  /** What the mail transport reports for one mail. */
  datatype SendResult = Delivered | TransportError(detail: string)

  /** The answer to the client and the mails handed to the transport. */
  datatype ContactOutcome = ContactOutcome(response: Response, dispatched: seq<Mail>)

  const SuccessMessage: string :=
    "Thank you! Your message has been sent successfully. We will get back to you within 24 hours."
  const DispatchFailureMessage: string :=
    "There was an error sending your message. Please try again or call us directly at +91 77605 47888."

  /** The whole handler. `allowed` is the rate limiter's verdict for the
      client; `businessSend` and `customerSend` are what the transport reports
      for the two mails once they are dispatched. */
  function HandleContact(
    allowed: bool, cfg: MailConfig, form: ContactForm, receivedOn: string,
    businessSend: SendResult, customerSend: SendResult): (o: ContactOutcome)
    ensures o.response.status in {200, 400, 429, 500}
    ensures o.dispatched == [] || |o.dispatched| == 2
    ensures o.response.status == 200 ==> businessSend.Delivered? && customerSend.Delivered?
    ensures !allowed ==> o == ContactOutcome(RateLimited, [])
    ensures o.response.status == 429 ==> !allowed
    ensures allowed && Validate(form).Failure? ==>
      o == ContactOutcome(Response(400, Err(Validate(form).error)), [])
    ensures allowed && Validate(form).Success? ==>
      o.dispatched == BuildMails(cfg, Validate(form).value, receivedOn)
    ensures allowed && Validate(form).Success? && businessSend.Delivered? && customerSend.Delivered? ==>
      o.response == Response(200, Ok(SuccessMessage))
  {
    if !allowed then
      ContactOutcome(RateLimited, [])
    else match Validate(form)
      case Failure(e) => ContactOutcome(Response(400, Err(e)), [])
      case Success(inq) =>
        var mails := BuildMails(cfg, inq, receivedOn);
        if businessSend.Delivered? && customerSend.Delivered? then
          ContactOutcome(Response(200, Ok(SuccessMessage)), mails)
        else
          ContactOutcome(Response(500, Err(DispatchFailureMessage)), mails)
  }

  /** A form missing its name, email or message (absent or empty) is answered
      400 and nothing is dispatched. */
  lemma IncompleteFormSendsNothing(
    cfg: MailConfig, form: ContactForm, receivedOn: string, businessSend: SendResult, customerSend: SendResult)
    requires !Truthy(form.name) || !Truthy(form.email) || !Truthy(form.message)
    ensures HandleContact(true, cfg, form, receivedOn, businessSend, customerSend)
      == ContactOutcome(Response(400, Err(MissingFieldsError)), [])
  {
  }

  /** Mails are dispatched exactly when the limiter admits the request and the
      form is valid; then there are two distinct ones, to the business mailbox
      and to the submitter. */
  lemma DispatchOnlyWhenValid(
    allowed: bool, cfg: MailConfig, form: ContactForm, receivedOn: string,
    businessSend: SendResult, customerSend: SendResult)
    ensures var o := HandleContact(allowed, cfg, form, receivedOn, businessSend, customerSend);
      && (o.dispatched != [] <==> allowed && Validate(form).Success?)
      && (o.dispatched != [] ==>
            && o.dispatched[0].recipient == BusinessAddress(cfg)
            && o.dispatched[1].recipient == form.email.value
            && o.dispatched[0] != o.dispatched[1])
  {
  }

  /** All or nothing: success is reported exactly when both mails were
      delivered; any failed send gives the fixed 500 answer with the phone
      number to call. */
  lemma SuccessOnlyIfBothDelivered(
    allowed: bool, cfg: MailConfig, form: ContactForm, receivedOn: string,
    businessSend: SendResult, customerSend: SendResult)
    ensures var o := HandleContact(allowed, cfg, form, receivedOn, businessSend, customerSend);
      && (o.response.status == 200 <==>
            allowed && Validate(form).Success? && businessSend.Delivered? && customerSend.Delivered?)
      && (allowed && Validate(form).Success? && !(businessSend.Delivered? && customerSend.Delivered?) ==>
            o.response == Response(500, Err(DispatchFailureMessage)))
    ensures Contains(DispatchFailureMessage, BusinessPhone)
  {
    assert OccursAt(DispatchFailureMessage, BusinessPhone, |DispatchFailureMessage| - 16);
  }

  /** The answer does not depend on what the transport said went wrong: two
      runs whose sends succeed and fail alike give the same outcome. */
  lemma TransportDetailNotExposed(
    allowed: bool, cfg: MailConfig, form: ContactForm, receivedOn: string,
    b1: SendResult, c1: SendResult, b2: SendResult, c2: SendResult)
    requires b1.Delivered? == b2.Delivered? && c1.Delivered? == c2.Delivered?
    ensures HandleContact(allowed, cfg, form, receivedOn, b1, c1)
      == HandleContact(allowed, cfg, form, receivedOn, b2, c2)
  {
  }

  // ---------------------------------------------------------------------
  // The transporter as the source builds it (samruddhi-gold-backend/server.js:34-55, 95)

  /** The handler with the outcome of building the transporter as a
      parameter. The source builds it with `nodemailer.createTransporter`, a
      name the published nodemailer interface does not have (it offers
      `createTransport`); the call then throws, and the `catch` answers with
      the 500 text before anything is dispatched. Refused and invalid
      requests are answered before the transporter is built, so they get the
      same answer either way; with a transporter built the whole handler is
      `HandleContact`. */
  function HandleContactAsWritten(
    allowed: bool, transporterBuilt: bool, cfg: MailConfig, form: ContactForm, receivedOn: string,
    businessSend: SendResult, customerSend: SendResult): (o: ContactOutcome)
    ensures transporterBuilt || !(allowed && Validate(form).Success?) ==>
      o == HandleContact(allowed, cfg, form, receivedOn, businessSend, customerSend)
    ensures !transporterBuilt ==> o.dispatched == []
    ensures !transporterBuilt && allowed && Validate(form).Success? ==>
      o.response == Response(500, Err(DispatchFailureMessage))
  {
    if !transporterBuilt && allowed && Validate(form).Success? then
      ContactOutcome(Response(500, Err(DispatchFailureMessage)), [])
    else
      HandleContact(allowed, cfg, form, receivedOn, businessSend, customerSend)
  }

  /** A complete, well-formed form that the corrected handler answers with
      200 when both sends succeed is answered 500, with nothing sent, when
      the transporter cannot be built. */
  lemma UnbuiltTransporterRejectsValidForm()
    ensures var form := ContactForm(Some("Asha"), Some("a@b.co"), None, None, Some("Hi"));
      && HandleContact(true, MailConfig(None, None, None), form, "", Delivered, Delivered).response.status == 200
      && HandleContactAsWritten(true, false, MailConfig(None, None, None), form, "", Delivered, Delivered)
           == ContactOutcome(Response(500, Err(DispatchFailureMessage)), [])
  {
    var email := "a@b.co";
    assert EmailPattern.SplitsAt(email, 1, 3);
    EmailPattern.EmailPatternIff(email);
    var form := ContactForm(Some("Asha"), Some(email), None, None, Some("Hi"));
    assert Validate(form).Success?;
  }
}
