/** The shapes shared by the fare estimator, the demo synthesizer and the live
    option builder: one priced route option and the search result around it. */
module Types {

  /** An optional value: `None` stands for a field that is absent (`undefined`). */
  datatype Option<+T> = None | Some(value: T) {
    /** The value, or `default` when absent (a defaulted parameter or `??`). */
    function GetOr(default: T): T {
      match this
      case Some(v) => v
      case None => default
    }
  }

  /** The three route kinds: `"train_only" | "train_and_taxi" | "taxi_only"`. */
  datatype RouteKind = TrainOnly | TrainAndTaxi | TaxiOnly

  datatype TrainSegment = TrainSegment(
    line: string,
    from: string,
    to: string,
    departureTime: string,
    arrivalTime: string,
    fare: int)

  datatype TaxiSegment = TaxiSegment(
    from: string,
    to: string,
    distanceKm: real,
    fare: int,
    durationMin: int)

  datatype RouteOption = RouteOption(
    kind: RouteKind,
    summary: string,
    train: Option<TrainSegment>,
    taxi: Option<TaxiSegment>,
    totalCost: int,
    savings: int)

  datatype SearchResult = SearchResult(
    currentLocation: string,
    destination: string,
    fullTaxiFare: int,
    fullTaxiDistanceKm: real,
    options: seq<RouteOption>,
    searchedAt: string,
    isDemo: bool)

  /** The sum of the fares of the segments an option actually has. */
  function SegmentFares(o: RouteOption): int {
    (if o.train.Some? then o.train.value.fare else 0)
    + (if o.taxi.Some? then o.taxi.value.fare else 0)
  }

  /** The cost bookkeeping every option is meant to keep: its total is the sum
      of its segment fares and its savings are measured against the full-taxi
      baseline fare. */
  predicate CostConsistent(o: RouteOption, fullTaxiFare: int) {
    o.totalCost == SegmentFares(o) && o.savings == fullTaxiFare - o.totalCost
  }

  /** A train-only option has only a train segment, a taxi-only option only a
      taxi segment, a train-and-taxi option both. */
  predicate ShapeMatchesKind(o: RouteOption) {
    match o.kind
    case TrainOnly => o.train.Some? && o.taxi.None?
    case TaxiOnly => o.train.None? && o.taxi.Some?
    case TrainAndTaxi => o.train.Some? && o.taxi.Some?
  }

  /** Options listed by savings, largest first. */
  predicate SortedBySavings(s: seq<RouteOption>) {
    forall i, j :: 0 <= i < j < |s| ==> s[i].savings >= s[j].savings
  }
}
