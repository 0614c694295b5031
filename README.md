# Samruddhi Gold backend: request handlers

A Dafny model of the three POST endpoints of the Samruddhi Gold Company
marketing-site backend (`samruddhi-gold-backend/server.js`), with the I/O
stripped away. Each handler is a function from the rate limiter's verdict
and the request body to the HTTP response. The contact handler also takes
the mail configuration (`EMAIL_FROM`, `EMAIL_USER`, `BUSINESS_EMAIL`), the
submission time as rendered text and the transport's report for each of the
two sends, and it returns the mails it dispatched together with the
response.

- `/api/contact` (module `Contact`): checks, in order, that name, email and
  message are given, that the email matches `^[^\s@]+@[^\s@]+\.[^\s@]+$`, and
  that a given phone has at least 10 characters. It then builds a notification
  to the business mailbox and an acknowledgement to the submitter, hands both
  to the transport, and answers 200 only when both were delivered. Otherwise
  it answers 500 with a fixed text that gives the phone number +91 77605 47888.
- `/api/newsletter` (module `Newsletter`): the address is required and must
  match the same pattern.
- `/api/quote` (module `Quote`): gold type, a non-zero weight and a contact
  phone are required. The estimate is `weight × 5500 × purity / 100`.

Supporting modules:
- `Wrappers`: option and result types.
- `JsValues`: JavaScript truthiness of optional strings, the `||` fallback and
  the `\s` character class.
- `EmailPattern`: the address pattern, stated once as the language of the
  regular expression and once as an explicit scan, with a proof that the two
  are equal.
- `Http`: status and JSON body of a response.

JSON bodies are modelled as records with optional string fields. A field is
truthy when it is present and not empty, as in JavaScript.

Points of the code that the model keeps as written:
- The quote handler never checks `purity` (server.js:261). Without a purity
  the estimate is `NaN`, and with `null` it is 0.
- 10 g at 75 % gives 10 × 5500 × 0.75 = 41250 ("41250.00"), as
  `Quote.TenGramsAtSeventyFivePercent` proves.
- Name, email and message share one error message (server.js:73-77).
  `Contact.Rule` keeps three rules that map to that one message.
- Once the contact form is valid, the handler builds its transporter with
  `nodemailer.createTransporter` (server.js:36, 45, 95). See "## Findings".

## Model

| member | source | states |
|---|---|---|
| `EmailPattern.EmailPatternIff` | samruddhi-gold-backend/server.js:80-81 | A string matches `^[^\s@]+@[^\s@]+\.[^\s@]+$` exactly when it has no whitespace, exactly one `@`, something before the `@`, and after it a `.` with text on both sides (both directions) |
| `Contact.Validate` | samruddhi-gold-backend/server.js:70-92 | An accepted form has name, email and message, an email matching the pattern, and a phone that is absent, empty or at least 10 long; the inquiry carries the submitted values unchanged; a rejection uses one of the three fixed messages |
| `Contact.ValidateReportsFirstViolation` | samruddhi-gold-backend/server.js:73-92 | Against the rule list (name, email, message present; email well formed; phone long enough): the form passes exactly when no rule is violated; otherwise the answer is the message of the first violated rule, so a malformed email outranks a short phone |
| `Contact.PhoneRule` | samruddhi-gold-backend/server.js:88-92 | An absent or empty phone never causes a rejection; the phone error is reported exactly when every earlier check passes and a filled phone is shorter than 10 characters |
| `Contact.BusinessRowsReflectSubmission` | samruddhi-gold-backend/server.js:111-134 | The business body always has Name, Email and Message rows with the submitted values; it has a Phone row exactly when the phone is filled and a Service row exactly when the service is filled, each with its value; no label appears twice |
| `Contact.BusinessMailAddressing` | samruddhi-gold-backend/server.js:98-139 | Both mails come from `EMAIL_FROM`, else `EMAIL_USER`; the notification goes to `BUSINESS_EMAIL`, else info@samruddhigold.com; its subject is "New Contact Form Submission - " followed by the service, or "General Inquiry"; its body carries "Received on: " and the submission time |
| `Contact.CustomerMailEchoesSubmission` | samruddhi-gold-backend/server.js:147-177 | The acknowledgement goes to the submitter's address with the fixed subject, greets them by name, echoes the service (defaulting to "General Inquiry") and the message, and gives the business phone number |
| `Contact.HandleContact` | samruddhi-gold-backend/server.js:68-218 | Every answer is 200, 400, 429 or 500; 429 with nothing dispatched exactly when the limiter refuses; an admitted invalid form gets 400 with the validator's message and nothing dispatched; an admitted valid form dispatches exactly the two mails `BuildMails` gives for the validated inquiry and gets 200 when both are delivered; 200 only when both sends were delivered |
| `Contact.IncompleteFormSendsNothing` | samruddhi-gold-backend/server.js:73-77 | A form missing name, email or message (absent or empty) gets 400 "Please provide name, email, and message" and no mail is dispatched |
| `Contact.DispatchOnlyWhenValid` | samruddhi-gold-backend/server.js:94-200 | Mails are dispatched exactly when the limiter admits the request and the form is valid; then there are two different mails, the first to the business mailbox and the second to the submitter |
| `Contact.SuccessOnlyIfBothDelivered` | samruddhi-gold-backend/server.js:196-216 | The answer is 200 exactly when the request is admitted, valid and both sends succeed; a valid request with any failed send gets the fixed 500 text, which contains +91 77605 47888 |
| `Contact.TransportDetailNotExposed` | samruddhi-gold-backend/server.js:210-216 | The outcome depends only on whether each send succeeded, never on the transport's error detail |
| `Newsletter.HandleNewsletter` | samruddhi-gold-backend/server.js:221-254 | Every answer is 200, 400 or 429; 429 (the limiter's answer) exactly when the limiter refuses |
| `Newsletter.NewsletterAcceptsExactlyMatchingAddresses` | samruddhi-gold-backend/server.js:225-236 | An admitted signup succeeds exactly when the address is given and matches the pattern; a missing address gets "Email is required" and a malformed one "Please provide a valid email address" |
| `Newsletter.SameAddressRuleAsContact` | samruddhi-gold-backend/server.js:231-236 | A newsletter signup succeeds exactly when a contact form with that address, a name, a message and no phone passes validation |
| `Quote.HandleQuote` | samruddhi-gold-backend/server.js:257-291 | Every answer is 200, 400 or 429; 429 exactly when the limiter refuses; an admitted request with gold type, non-zero weight and contact phone gets 200 with `EstimatedValue(weight, purity)`, the fixed message and the disclaimer |
| `Quote.QuoteRejectedExactlyWhenFieldMissing` | samruddhi-gold-backend/server.js:261-265 | An admitted request gets 400 with the fixed message exactly when the gold type, a non-zero weight or `contactInfo.phone` is missing |
| `Quote.PurityNeverChecked` | samruddhi-gold-backend/server.js:259-274 | A request passing the three checks gets 200 whatever its purity; without a purity the estimate is `NaN` |
| `JsValues.IsWhitespace` | samruddhi-gold-backend/server.js:80 | The `\s` class of the pattern: the ECMAScript white-space and line-terminator characters (tab, line feed, vertical tab, form feed, carriage return, space, U+00A0, U+1680, U+2000-U+200A, U+2028, U+2029, U+202F, U+205F, U+3000, U+FEFF); its use is stated through `EmailPattern.EmailPatternIff` |
| `EmailPattern.IsValidEmail` | samruddhi-gold-backend/server.js:80-81 | The scan: no whitespace, exactly one `@`, something before it, a `.` with text on both sides after it; proved equal to the pattern's language by `EmailPattern.EmailPatternIff` |
| `Contact.BusinessMail` | samruddhi-gold-backend/server.js:98-144 | The notification mail: sender, recipient, subject, rows and notes; what it carries is stated by `Contact.BusinessMailAddressing` and `Contact.BusinessRowsReflectSubmission` |
| `Contact.CustomerMail` | samruddhi-gold-backend/server.js:147-194 | The acknowledgement mail; what it carries is stated by `Contact.CustomerMailEchoesSubmission` |
| `Contact.BuildMails` | samruddhi-gold-backend/server.js:197-200 | Exactly two mails, different from each other, the first to the business mailbox and the second to the submitter |
| `Contact.HandleContactAsWritten` | samruddhi-gold-backend/server.js:73-95 | A refused or invalid request gets `Contact.HandleContact`'s 429 or 400 answer whether or not the transporter can be built, since it is built only after validation; with the transporter built every answer is `Contact.HandleContact`'s; when building it fails, nothing is dispatched and an admitted valid form gets the 500 text |
| `Contact.UnbuiltTransporterRejectsValidForm` | samruddhi-gold-backend/server.js:36-45 | The form {name "Asha", email "a@b.co", message "Hi"} gets 200 from the handler with a transporter and both sends delivered, and 500 with nothing sent when the transporter cannot be built |
| `Quote.EstimatedValue` | samruddhi-gold-backend/server.js:273-274 | The estimate is `NaN` exactly when purity is missing, 0 when purity is `null`, and 55 × weight × purity otherwise |
| `Quote.TenGramsAtSeventyFivePercent` | samruddhi-gold-backend/server.js:273-274 | 10 g at 75 % purity is estimated at exactly 41250 |
| `Quote.EstimateBounds` | samruddhi-gold-backend/server.js:273-274 | For a weight of at least 0 and a purity from 0 to 100 %, the estimate is between 0 and the value of the same weight of pure gold, and it never decreases as weight or purity grows |

## Left out

- Middleware: `helmet`, CORS, the body parsers and the rate limiter's window
  and count policy (server.js:14-31). The limiter's verdict is a boolean
  parameter. When it refuses, the model answers 429 with the limiter's message.
  The same limiter guards all three endpoints.
- Transporter construction and environment handling (server.js:34-55). The
  mail transport is abstract: the result of each send is a parameter. Whether
  the transporter can be built is a parameter of
  `Contact.HandleContactAsWritten`; nodemailer itself is not part of this
  model.
- The two sends run concurrently under `Promise.all` (server.js:197-200). Only
  the joined result is modelled, and both mails count as dispatched once
  validation passes.
- The HTML layout, CSS and decorative emoji of the mail bodies. A body is a
  heading, labelled rows and fixed lines of text. The `toLocaleString`
  timestamp (server.js:139) is a string parameter.
- `toFixed(2)` and binary floating point in the quote (server.js:274). The
  estimate is an exact rational, so rounding and overflow to `Infinity` are not
  modelled.
- Non-string JSON values and JavaScript's coercions: a numeric phone whose
  `length` is undefined, a weight sent as a string, a `contactInfo` that is not
  an object. String fields are optional strings and weight and purity are
  numbers.
- String length counts Unicode scalar values. JavaScript counts UTF-16 code
  units, so the two differ for phone numbers containing characters outside the
  Basic Multilingual Plane.
- The 500 answers of the newsletter and quote endpoints (server.js:248-253,
  285-290). They arise only from exceptions that cannot occur with well-typed
  bodies.
- The health endpoint and its clock read (server.js:63-65), static file
  serving and the catch-all route (server.js:58-60, 294-298), the error and
  404 middleware (server.js:301-313), console logging and `app.listen`. These
  are process plumbing.
- The React front end (`src/App.js`, `src/components/Footer.js`). It has no
  server-side logic.

## Findings

| source | as written | input that shows it | evidently intended | confidence | as-written member | corrected member |
|---|---|---|---|---|---|---|
| samruddhi-gold-backend/server.js:36-45 | The transporter is built with `nodemailer.createTransporter`. Published nodemailer offers `createTransport`, so the call throws at server.js:95 and the `catch` at server.js:210-216 answers 500 before any mail is sent | Any admitted valid form, e.g. name "Asha", email "a@b.co", message "Hi" | Build the transporter with `createTransport` and send both mails | medium; not executed; depends on nodemailer's published interface, which is not part of this model | `Contact.UnbuiltTransporterRejectsValidForm` | `Contact.HandleContact` |
