/** `transformFlightOffers`: maps the provider's offers, one by one and in
    order, to flat travel-option records, substituting a fixed default for
    every field that is absent or falsy. */
module Normalizer {
  import opened JsValues
  import opened Decimal
  import opened ProviderData
  import opened Travel
  import opened Duration

  /** The record built for one offer: the travel-option fields plus the stop
      count and the flight number. `priceText` is the text handed to
      `parseFloat`. */
  datatype FlightOption = FlightOption(
    id: string,
    mode: TransportMode,
    kind: TravelKind,
    provider: string,
    departureTime: string,
    arrivalTime: string,
    duration: string,
    priceText: string,
    origin: string,
    destination: string,
    amenities: seq<string>,
    cabinClass: string,
    stops: int,
    flightNumber: string)

  const UnknownCarrier := "Unknown"
  const DefaultCabin := "Economy"
  const PlaceholderAmenities := ["WiFi Available"]

  /** `offer.itineraries[0]?.segments[0]`: the optional chain stops at a
      missing first itinerary. */
  function FirstSegment(offer: Offer): Option<Segment>
  {
    if |offer.itineraries| > 0 && |offer.itineraries[0].segments| > 0 then Some(offer.itineraries[0].segments[0])
    else None
  }

  /** The last segment of the first itinerary, if there is one. */
  function LastSegment(offer: Offer): Option<Segment>
  {
    if |offer.itineraries| > 0 && |offer.itineraries[0].segments| > 0 then
      var segments := offer.itineraries[0].segments;
      Some(segments[|segments| - 1])
    else None
  }

  /** The first segment's carrier code, or "Unknown". */
  function CarrierCode(offer: Offer): string
  {
    OrElse(if FirstSegment(offer).Some? then FirstSegment(offer).value.carrierCode else None, UnknownCarrier)
  }

  /** `at?.slice(11, 16) || ''`: the HH:MM part of an ISO 8601 local date-time. */
  function ClockTime(at: Option<string>): string
  {
    if at.Some? then Slice(at.value, 11, 16) else ""
  }

  /** The first traveller pricing's first fare detail's cabin, or "Economy". */
  function Cabin(offer: Offer): string
  {
    var cabin :=
      if |offer.travelerPricings| > 0 && |offer.travelerPricings[0].fareDetailsBySegment| > 0
      then offer.travelerPricings[0].fareDetailsBySegment[0].cabin
      else None;
    OrElse(cabin, DefaultCabin)
  }

  /** `offer.itineraries[0]?.segments?.length - 1 || 0`: without an itinerary
      the subtraction gives NaN, which `|| 0` turns into 0. */
  function Stops(offer: Offer): int
  {
    if |offer.itineraries| == 0 then 0 else |offer.itineraries[0].segments| - 1
  }

  /** The record for the offer at position `index`, with carrier names from
      `carriers`: always an air flight with the placeholder amenity list, and
      the id `flight-<offer id, or position when the offer has none>`. */
  function TransformOffer(offer: Offer, index: nat, carriers: map<string, string>): (r: FlightOption)
    ensures r.mode == Air && r.kind == Flight && r.amenities == ["WiFi Available"]
    ensures r.id == "flight-" + (if Truthy(offer.id) then offer.id.value else NatToString(index))
  {
    var first := FirstSegment(offer);
    var last := LastSegment(offer);
    var carrier := CarrierCode(offer);
    FlightOption(
      id := "flight-" + (if Truthy(offer.id) then offer.id.value else NatToString(index)),
      mode := Air,
      kind := Flight,
      provider := OrElse(Lookup(carriers, carrier), carrier),
      departureTime := ClockTime(if first.Some? then first.value.departureAt else None),
      arrivalTime := ClockTime(if last.Some? then last.value.arrivalAt else None),
      duration := FormatDuration(OrElse(if |offer.itineraries| > 0 then offer.itineraries[0].duration else None, "")),
      priceText := OrElse(offer.priceTotal, "0"),
      origin := OrElse(if first.Some? then first.value.departureIata else None, ""),
      destination := OrElse(if last.Some? then last.value.arrivalIata else None, ""),
      amenities := PlaceholderAmenities,
      cabinClass := Cabin(offer),
      stops := Stops(offer),
      flightNumber := carrier + OrElse(if first.Some? then first.value.number else None, ""))
  }

  /** The records for `offers`, the first of which sits at position `from` of the whole list. */
  function TransformFrom(offers: seq<Offer>, from: nat, carriers: map<string, string>): (r: seq<FlightOption>)
    ensures |r| == |offers|
    ensures forall i :: 0 <= i < |offers| ==> r[i] == TransformOffer(offers[i], from + i, carriers)
  {
    if offers == [] then []
    else [TransformOffer(offers[0], from, carriers)] + TransformFrom(offers[1..], from + 1, carriers)
  }

  /** transformFlightOffers(data): no records when the offer list is absent or
      not an array; otherwise one record per offer, in the provider's order,
      each built from its offer and its position. */
  function TransformFlightOffers(payload: Payload): (r: seq<FlightOption>)
    ensures payload.data.None? ==> r == []
    ensures payload.data.Some? ==> |r| == |payload.data.value|
    ensures payload.data.Some? ==>
      forall i :: 0 <= i < |r| ==> r[i] == TransformOffer(payload.data.value[i], i, payload.carriers)
  {
    if payload.data.None? then [] else TransformFrom(payload.data.value, 0, payload.carriers)
  }

  /** The flight number is the carrier code followed by the first segment's
      number, or the carrier code alone when that segment has no number. */
  lemma FlightNumberField(offer: Offer, index: nat, carriers: map<string, string>)
    ensures var r := TransformOffer(offer, index, carriers);
      var first := FirstSegment(offer);
      && CarrierCode(offer) != ""
      && (first.Some? && Truthy(first.value.number) ==> r.flightNumber == CarrierCode(offer) + first.value.number.value)
      && (first.None? || !Truthy(first.value.number) ==> r.flightNumber == CarrierCode(offer))
  {
    assert CarrierCode(offer) + "" == CarrierCode(offer);
  }

  /** The cabin class is the cabin of the first fare detail of the first
      traveller pricing when it is non-empty, and "Economy" otherwise. */
  lemma CabinField(offer: Offer, index: nat, carriers: map<string, string>)
    ensures var r := TransformOffer(offer, index, carriers);
      var present := |offer.travelerPricings| > 0 && |offer.travelerPricings[0].fareDetailsBySegment| > 0
                     && Truthy(offer.travelerPricings[0].fareDetailsBySegment[0].cabin);
      && (present ==> r.cabinClass == offer.travelerPricings[0].fareDetailsBySegment[0].cabin.value)
      && (!present ==> r.cabinClass == "Economy")
  {
  }

  /** The departure time comes from the first segment and the arrival time
      from the last: characters 11 to 16 of a full-length timestamp, at most
      five characters in any case, and empty when the segment or its
      timestamp is absent. */
  lemma ClockTimes(offer: Offer, index: nat, carriers: map<string, string>)
    ensures var r := TransformOffer(offer, index, carriers);
      var first := FirstSegment(offer);
      && |r.departureTime| <= 5
      && (first.None? || first.value.departureAt.None? ==> r.departureTime == "")
      && (first.Some? && first.value.departureAt.Some? && |first.value.departureAt.value| >= 16
          ==> r.departureTime == first.value.departureAt.value[11..16])
    ensures var r := TransformOffer(offer, index, carriers);
      var last := LastSegment(offer);
      && |r.arrivalTime| <= 5
      && (last.None? || last.value.arrivalAt.None? ==> r.arrivalTime == "")
      && (last.Some? && last.value.arrivalAt.Some? && |last.value.arrivalAt.value| >= 16
          ==> r.arrivalTime == last.value.arrivalAt.value[11..16])
  {
  }

  /** The origin is the first segment's departure airport and the
      destination the last segment's arrival airport, each empty when absent. */
  lemma Airports(offer: Offer, index: nat, carriers: map<string, string>)
    ensures var r := TransformOffer(offer, index, carriers);
      var first := FirstSegment(offer);
      && (first.Some? && Truthy(first.value.departureIata) ==> r.origin == first.value.departureIata.value)
      && (first.None? || !Truthy(first.value.departureIata) ==> r.origin == "")
    ensures var r := TransformOffer(offer, index, carriers);
      var last := LastSegment(offer);
      && (last.Some? && Truthy(last.value.arrivalIata) ==> r.destination == last.value.arrivalIata.value)
      && (last.None? || !Truthy(last.value.arrivalIata) ==> r.destination == "")
  {
  }

  /** The price text is the offer's total when it has a non-empty one, and "0" otherwise. */
  lemma PriceDefault(offer: Offer, index: nat, carriers: map<string, string>)
    ensures var r := TransformOffer(offer, index, carriers);
      && (Truthy(offer.priceTotal) ==> r.priceText == offer.priceTotal.value)
      && (!Truthy(offer.priceTotal) ==> r.priceText == "0")
  {
  }

  /** The duration is the first itinerary's duration rewritten by
      `FormatDuration`, and empty when there is no itinerary or no duration. */
  lemma DurationField(offer: Offer, index: nat, carriers: map<string, string>)
    ensures var r := TransformOffer(offer, index, carriers);
      var present := |offer.itineraries| > 0 && Truthy(offer.itineraries[0].duration);
      && (present ==> r.duration == FormatDuration(offer.itineraries[0].duration.value))
      && (!present ==> r.duration == "")
  {
    assert !HasPT("");
  }

  /** The provider is the dictionary's carrier name when it has a non-empty
      one, and the carrier code itself otherwise; a segment with no carrier
      code is credited to "Unknown". */
  lemma ProviderName(offer: Offer, index: nat, carriers: map<string, string>)
    ensures var r := TransformOffer(offer, index, carriers);
      var code := CarrierCode(offer);
      && (code in carriers && carriers[code] != "" ==> r.provider == carriers[code])
      && (code !in carriers || carriers[code] == "" ==> r.provider == code)
      && (FirstSegment(offer).None? || !Truthy(FirstSegment(offer).value.carrierCode) ==> code == "Unknown")
  {
  }

  /** The stop count is the number of segments of the first itinerary less one:
      never negative when that itinerary has segments, -1 when its segment list
      is empty, and 0 when there is no itinerary. */
  lemma StopCount(offer: Offer, index: nat, carriers: map<string, string>)
    ensures var r := TransformOffer(offer, index, carriers);
      && (|offer.itineraries| > 0 ==> r.stops == |offer.itineraries[0].segments| - 1)
      && (|offer.itineraries| > 0 && |offer.itineraries[0].segments| > 0 ==> r.stops >= 0)
      && (|offer.itineraries| > 0 && |offer.itineraries[0].segments| == 0 ==> r.stops == -1)
      && (|offer.itineraries| == 0 ==> r.stops == 0)
  {
  }

  /** Two records of one answer get different ids when no offer has an id of
      its own (the ids are then built from the distinct positions), and also
      when every offer has a distinct non-empty id. */
  lemma {:induction false} FlightIdsDistinct(payload: Payload)
    requires payload.data.Some?
    requires var offers := payload.data.value;
      (forall i :: 0 <= i < |offers| ==> !Truthy(offers[i].id))
      || ((forall i :: 0 <= i < |offers| ==> Truthy(offers[i].id))
          && forall i, j :: 0 <= i < j < |offers| ==> offers[i].id != offers[j].id)
    ensures var r := TransformFlightOffers(payload);
      forall i, j :: 0 <= i < j < |r| ==> r[i].id != r[j].id
  {
    var offers := payload.data.value;
    var r := TransformFlightOffers(payload);
    forall i, j | 0 <= i < j < |r| ensures r[i].id != r[j].id {
      var a := if Truthy(offers[i].id) then offers[i].id.value else NatToString(i);
      var b := if Truthy(offers[j].id) then offers[j].id.value else NatToString(j);
      assert r[i].id == "flight-" + a && r[j].id == "flight-" + b;
      if r[i].id == r[j].id {
        assert a == ("flight-" + a)[7..] == ("flight-" + b)[7..] == b;
        if !Truthy(offers[i].id) {
          NatToStringInjective(i, j);
        }
      }
    }
  }

  /** An answer where one offer has id "1" and the offer after it has none
      yields two records with the same id: ids are not unique in general. */
  lemma IdsCollideWhenMixed(itinerary: Itinerary)
    ensures var payload := Payload(Some([Offer(Some("1"), [itinerary], None, []), Offer(None, [itinerary], None, [])]), map[]);
      var r := TransformFlightOffers(payload);
      |r| == 2 && r[0].id == r[1].id == "flight-1"
  {
    assert NatToString(1) == "1";
  }

  /** The offer of the example below: two segments JFK-ORD-LAX by carrier
      AA, priced "250.50", cabin BUSINESS. */
  function ExampleOffer(): Offer
  {
    var first := Segment(Some("AA"), Some("100"), Some("2025-03-01T08:15:00"), Some("JFK"), Some("2025-03-01T10:00:00"), Some("ORD"));
    var second := Segment(Some("AA"), Some("200"), Some("2025-03-01T11:30:00"), Some("ORD"), Some("2025-03-01T14:45:00"), Some("LAX"));
    Offer(Some("1"), [Itinerary(Some("PT6H30M"), [first, second])], Some("250.50"), [TravelerPricing([FareDetail(Some("BUSINESS"))])])
  }

  lemma ExampleDuration()
    ensures FormatDuration("PT6H30M") == "6h 30m"
  {
    ExampleDurationTexts();
    FormatIso(Some(6), Some(30));
  }

  lemma ExampleDurationTexts()
    ensures IsoDuration(Some(6), Some(30)) == "PT6H30M" && Readable(Some(6), Some(30)) == "6h 30m"
  {
    assert NatToString(30) == "30";
  }

  lemma ExampleOfferDuration()
    ensures TransformOffer(ExampleOffer(), 0, map["AA" := "American Airlines"]).duration == "6h 30m"
  {
    var offer := ExampleOffer();
    assert offer.itineraries[0].duration == Some("PT6H30M");
    assert TransformOffer(offer, 0, map["AA" := "American Airlines"]).duration == FormatDuration("PT6H30M");
    ExampleDuration();
  }

  lemma ExampleOfferTimes()
    ensures var r := TransformOffer(ExampleOffer(), 0, map["AA" := "American Airlines"]);
      r.departureTime == "08:15" && r.arrivalTime == "14:45"
  {
    assert Slice("2025-03-01T08:15:00", 11, 16) == "08:15";
    assert Slice("2025-03-01T14:45:00", 11, 16) == "14:45";
  }

  lemma ExampleOfferNames()
    ensures var r := TransformOffer(ExampleOffer(), 0, map["AA" := "American Airlines"]);
      r.id == "flight-1" && r.provider == "American Airlines" && r.flightNumber == "AA100"
      && r.cabinClass == "BUSINESS" && r.stops == 1 && r.priceText == "250.50"
      && r.origin == "JFK" && r.destination == "LAX"
  {
    assert CarrierCode(ExampleOffer()) == "AA";
    assert "AA" + "100" == "AA100";
    assert "flight-" + "1" == "flight-1";
  }

  /** A two-segment offer by carrier AA, named "American Airlines" in the
      dictionary, priced "250.50" and booked in cabin BUSINESS, gives one
      record with that provider, one stop and that cabin. */
  lemma AmericanAirlinesExample()
    ensures var r := TransformFlightOffers(Payload(Some([ExampleOffer()]), map["AA" := "American Airlines"]));
      && |r| == 1
      && r[0] == FlightOption("flight-1", Air, Flight, "American Airlines", "08:15", "14:45", "6h 30m", "250.50",
                              "JFK", "LAX", ["WiFi Available"], "BUSINESS", 1, "AA100")
  {
    ExampleOfferDuration();
    ExampleOfferTimes();
    ExampleOfferNames();
  }

  /** A carrier missing from the dictionary is shown by its code, and an
      answer with no offer list gives no records. */
  lemma MissingFieldResilience(itinerary: Itinerary, segment: Segment)
    requires segment.carrierCode == Some("ZZ")
    ensures var offer := Offer(None, [Itinerary(itinerary.duration, [segment])], None, []);
      var r := TransformFlightOffers(Payload(Some([offer]), map[]));
      |r| == 1 && r[0].provider == "ZZ" && r[0].priceText == "0" && r[0].cabinClass == "Economy"
      && r[0].flightNumber[..2] == "ZZ" && r[0].stops == 0
    ensures TransformFlightOffers(Payload(None, map[])) == []
  {
  }
}
