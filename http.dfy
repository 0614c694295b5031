/** Responses of the three POST endpoints, as status code and JSON body, and
    the reply of the rate limiter that guards all three
    (samruddhi-gold-backend/server.js:25-31). */
module Http {

  /** The estimate of the quote endpoint: an exact amount, or JavaScript's
      `NaN` when the purity field is missing from the body. */
  datatype Estimate = Amount(value: real) | NotANumber

  /** `{success: true, message}`, `{success: true, estimatedValue, message,
      disclaimer}` or `{error}`. */
  datatype Body =
    | Ok(message: string)
    | QuoteOk(estimatedValue: Estimate, message: string, disclaimer: string)
    | Err(error: string)

  datatype Response = Response(status: nat, body: Body)

  const TooManyRequestsMessage: string :=
    "Too many contact form submissions, please try again later."

  /** What the limiter answers when a client has used up its window. */
  const RateLimited: Response := Response(429, Err(TooManyRequestsMessage))
}
