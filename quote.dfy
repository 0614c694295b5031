/** The `/api/quote` handler (samruddhi-gold-backend/server.js:257-291): three
    presence checks, then an estimate from a fixed price per gram. */
module Quote {
  import opened Wrappers
  import opened JsValues
  import opened Http

  datatype ContactInfo = ContactInfo(phone: Option<string>)

  /** The purity field distinguishes an absent key (`undefined / 100` is
      `NaN`) from an explicit `null` (`null / 100` is `0`). */
  datatype Purity = Missing | Null | Percent(value: real)

  /** The JSON body; `weight` is `None` when absent or `null`. */
  datatype QuoteRequest = QuoteRequest(
    goldType: Option<string>,
    weight: Option<real>,
    purity: Purity,
    contactInfo: Option<ContactInfo>)

  const PricePerGram: real := 5500.0
  const MissingQuoteFieldsError: string := "Please provide gold type, weight, and contact information"
  const QuoteMessage: string := "Quote calculated! Our team will contact you shortly for accurate evaluation."
  const Disclaimer: string :=
    "This is an estimated value. Final price depends on accurate testing and current market rates."

  /** `weight` is truthy: present and not zero. */
  predicate WeightGiven(weight: Option<real>) {
    weight.Some? && weight.value != 0.0
  }

  /** `contactInfo?.phone` is truthy. */
  predicate PhoneGiven(contactInfo: Option<ContactInfo>) {
    contactInfo.Some? && Truthy(contactInfo.value.phone)
  }

  /** `weight * currentGoldPrice * (purity / 100)`, exactly. */
  function EstimatedValue(weight: real, purity: Purity): (e: Estimate)
    ensures e.NotANumber? <==> purity.Missing?
    ensures purity.Null? ==> e == Amount(0.0)
    ensures purity.Percent? ==> e.value == 55.0 * weight * purity.value
  {
    match purity
    case Missing => NotANumber
    case Null => Amount(weight * PricePerGram * 0.0)
    case Percent(p) => Amount(weight * PricePerGram * (p / 100.0))
  }

  function HandleQuote(allowed: bool, req: QuoteRequest): (r: Response)
    ensures r.status in {200, 400, 429}
    ensures !allowed ==> r == RateLimited
    ensures r.status == 429 ==> !allowed
    ensures allowed && Truthy(req.goldType) && WeightGiven(req.weight) && PhoneGiven(req.contactInfo) ==>
      r == Response(200, QuoteOk(EstimatedValue(req.weight.value, req.purity), QuoteMessage, Disclaimer))
  {
    if !allowed then RateLimited
    else if !Truthy(req.goldType) || !WeightGiven(req.weight) || !PhoneGiven(req.contactInfo) then
      Response(400, Err(MissingQuoteFieldsError))
    else
      Response(200, QuoteOk(EstimatedValue(req.weight.value, req.purity), QuoteMessage, Disclaimer))
  }

  /** An admitted request is rejected exactly when the gold type, a non-zero
      weight or the contact phone is missing; the purity plays no part. */
  lemma QuoteRejectedExactlyWhenFieldMissing(req: QuoteRequest)
    ensures HandleQuote(true, req).status == 400 <==>
      !Truthy(req.goldType) || !WeightGiven(req.weight) || !PhoneGiven(req.contactInfo)
    ensures HandleQuote(true, req).status == 400 ==>
      HandleQuote(true, req).body == Err(MissingQuoteFieldsError)
  {
  }

  /** Purity is never validated: a request that passes the three checks is
      answered 200 whatever its purity, and without one the estimate is `NaN`. */
  lemma PurityNeverChecked(req: QuoteRequest, other: Purity)
    requires Truthy(req.goldType) && WeightGiven(req.weight) && PhoneGiven(req.contactInfo)
    ensures HandleQuote(true, req).status == 200
    ensures HandleQuote(true, req.(purity := other)).status == 200
    ensures HandleQuote(true, req.(purity := Missing)).body.estimatedValue == NotANumber
  {
  }

  /** Ten grams at 75 percent purity are estimated at 41250 (rendered
      "41250.00" by the two-decimal formatting). */
  lemma TenGramsAtSeventyFivePercent()
    ensures EstimatedValue(10.0, Percent(75.0)) == Amount(41250.0)
  {
  }

  /** For a non-negative weight and a purity between 0 and 100 percent the
      estimate lies between nothing and the value of the same weight of pure
      gold, and grows with the weight and with the purity. */
  lemma EstimateBounds(weight: real, p: real, weight': real, p': real)
    requires 0.0 <= weight <= weight' && 0.0 <= p <= p' <= 100.0
    ensures 0.0 <= EstimatedValue(weight, Percent(p)).value <= weight * PricePerGram
    ensures EstimatedValue(weight, Percent(p)).value <= EstimatedValue(weight', Percent(p')).value
  {
    var full, q, q' := weight * PricePerGram, p / 100.0, p' / 100.0;
    assert 0.0 <= q <= q' <= 1.0;
    assert 0.0 <= full <= weight' * PricePerGram;
    assert EstimatedValue(weight, Percent(p)).value == full * q;
    assert EstimatedValue(weight', Percent(p')).value == weight' * PricePerGram * q';
    assert full * (1.0 - q) >= 0.0;
    assert full * q <= full;
    assert full * q >= 0.0;
    assert full * q <= weight' * PricePerGram * q by {
      assert (weight' * PricePerGram - full) * q >= 0.0;
    }
    assert weight' * PricePerGram * (q' - q) >= 0.0;
  }
}
