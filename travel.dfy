/** The application's travel-option shape shared by the result sections. */
module Travel {
  import opened JsValues

  datatype TransportMode = Air | Land | Water

  /** The `type` field: flight for air, bus or train for land, ferry or cruise for water. */
  datatype TravelKind = Flight | Bus | Train | Ferry | Cruise

  /** One option as the UI receives it. The price is a decimal number; the
      amenity list and the cabin class may be absent. */
  datatype TravelOption = TravelOption(
    id: string,
    mode: TransportMode,
    kind: TravelKind,
    provider: string,
    departureTime: string,
    arrivalTime: string,
    duration: string,
    price: real,
    origin: string,
    destination: string,
    amenities: Option<seq<string>>,
    cabinClass: Option<string>)
}
