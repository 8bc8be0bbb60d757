/** The parts of a Google Directions API response that the live search reads:
    routes made of legs made of steps, with optional transit details and
    optional fares. Fetching the response is not modelled; it arrives as a
    value. */
module GoogleMaps {
  import opened Types

  /** A `{ value, text }` pair: metres or seconds, and their display text. */
  datatype Measure = Measure(value: int, text: string)

  /** A departure or arrival time: display text and epoch seconds. */
  datatype TimeText = TimeText(text: string, value: int)

  datatype Stop = Stop(name: string)

  /** A transit line; either name may be absent from the JSON. */
  datatype TransitLine = TransitLine(shortName: Option<string>, name: Option<string>)

  datatype TransitDetails = TransitDetails(
    departureStop: Stop,
    arrivalStop: Stop,
    departureTime: TimeText,
    arrivalTime: TimeText,
    line: TransitLine)

  datatype DirectionsStep = DirectionsStep(
    travelMode: string,
    htmlInstructions: string,
    duration: Measure,
    distance: Measure,
    transitDetails: Option<TransitDetails>)

  datatype Fare = Fare(value: int, currency: string)

  datatype DirectionsLeg = DirectionsLeg(
    duration: Measure,
    distance: Measure,
    startAddress: string,
    endAddress: string,
    steps: seq<DirectionsStep>,
    fare: Option<Fare>)

  datatype DirectionsRoute = DirectionsRoute(
    summary: string,
    legs: seq<DirectionsLeg>,
    fare: Option<Fare>)

  datatype DirectionsResponse = DirectionsResponse(
    status: string,
    routes: seq<DirectionsRoute>)
}
