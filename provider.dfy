/** The decoded body of the provider's flight-offer search answer, as far as
    the normaliser reads it. Every field it reads through optional chaining or
    a `||` fallback may be absent; arrays that it indexes directly are
    sequences. */
module ProviderData {
  import opened JsValues

  /** One flown leg. A missing `departure` object and a missing
      `departure.at` read the same, so both collapse into one absent field. */
  datatype Segment = Segment(
    carrierCode: Option<string>,
    number: Option<string>,
    departureAt: Option<string>,
    departureIata: Option<string>,
    arrivalAt: Option<string>,
    arrivalIata: Option<string>)

  /** One direction of travel: an ISO 8601 duration and its legs. */
  datatype Itinerary = Itinerary(duration: Option<string>, segments: seq<Segment>)

  datatype FareDetail = FareDetail(cabin: Option<string>)

  /** An absent `fareDetailsBySegment` list reads like an empty one. */
  datatype TravelerPricing = TravelerPricing(fareDetailsBySegment: seq<FareDetail>)

  /** One priced offer. `priceTotal` is `price.total`; an absent `price`
      object reads like an absent total, and an absent `travelerPricings`
      list like an empty one. */
  datatype Offer = Offer(
    id: Option<string>,
    itineraries: seq<Itinerary>,
    priceTotal: Option<string>,
    travelerPricings: seq<TravelerPricing>)

  /** The whole answer. `data` is None when the field is absent, falsy or not
      an array; `carriers` is `dictionaries.carriers`, empty when absent. */
  datatype Payload = Payload(data: Option<seq<Offer>>, carriers: map<string, string>)
}
