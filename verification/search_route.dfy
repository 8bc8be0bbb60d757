/** The search endpoint: the lat/lng check, the demo fallback, and in live
    mode the option list built from a Directions response and a driving
    distance. */
module SearchRoute {
  import opened Types
  import opened Seqs
  import opened Taxi
  import opened Stations
  import opened MockData
  import opened GoogleMaps
  import opened OptionSort

  /** The fare assumed for a route whose response carries no fare. */
  const DEFAULT_TRAIN_FARE: int := 250
  /** Routes looked at, at most: `transitData.routes.slice(0, 3)`. */
  const MAX_ROUTES: int := 3
  const LINE_SEPARATOR: string := " → "

  // ---------------------------------------------------------------------
  // One route

  predicate IsTransitStep(s: DirectionsStep) {
    s.travelMode == "TRANSIT"
  }

  /** A string that JavaScript treats as true: present and non-empty. */
  predicate Truthy(s: Option<string>) {
    s.Some? && s.value != ""
  }

  /** `s.transit_details?.line.short_name || s.transit_details?.line.name` as
      `Array.prototype.join` renders it: an absent value becomes "". */
  function LineLabel(s: DirectionsStep): (text: string)
    ensures s.transitDetails.None? ==> text == ""
    ensures s.transitDetails.Some? && Truthy(s.transitDetails.value.line.shortName) ==>
      text == s.transitDetails.value.line.shortName.value
    ensures s.transitDetails.Some? && !Truthy(s.transitDetails.value.line.shortName) ==>
      text == s.transitDetails.value.line.name.GetOr("")
  {
    match s.transitDetails
    case None => ""
    case Some(d) => if Truthy(d.line.shortName) then d.line.shortName.value else d.line.name.GetOr("")
  }

  /** `parts.join(sep)`. */
  function Join(parts: seq<string>, sep: string): (r: string)
    ensures parts == [] ==> r == ""
    ensures |parts| == 1 ==> r == parts[0]
  {
    if |parts| == 0 then ""
    else if |parts| == 1 then parts[0]
    else Join(parts[..|parts| - 1], sep) + sep + parts[|parts| - 1]
  }

  /** The total length of some strings. */
  function TotalLength(parts: seq<string>): nat {
    if parts == [] then 0 else TotalLength(parts[..|parts| - 1]) + |parts[|parts| - 1]|
  }

  /** A join starts with the first part, ends with the last, and adds one
      separator between each two neighbours and nothing else. */
  lemma {:induction false} JoinShape(parts: seq<string>, sep: string)
    requires |parts| > 0
    ensures var r := Join(parts, sep);
      && |r| == TotalLength(parts) + (|parts| - 1) * |sep|
      && parts[0] <= r
      && |parts[|parts| - 1]| <= |r|
      && r[|r| - |parts[|parts| - 1]|..] == parts[|parts| - 1]
  {
    var n := |parts|;
    if n > 1 {
      var init := parts[..n - 1];
      JoinShape(init, sep);
      assert init[0] == parts[0];
      var j := Join(init, sep);
      var r := j + sep + parts[n - 1];
      assert Join(parts, sep) == r;
      assert r[..|j|] == j;
      assert r[..|parts[0]|] == j[..|parts[0]|];
    } else {
      assert TotalLength(parts) == TotalLength([]) + |parts[0]| by {
        assert parts[..0] == [];
      }
    }
  }

  /** Joining two non-empty runs of parts is joining each run and putting one
      separator between them: every part appears in order, with exactly the
      separator text between each two neighbours. */
  lemma {:induction false} JoinConcat(a: seq<string>, b: seq<string>, sep: string)
    requires a != [] && b != []
    ensures Join(a + b, sep) == Join(a, sep) + sep + Join(b, sep)
  {
    var n := |a + b|;
    if |b| == 1 {
      assert (a + b)[..n - 1] == a;
    } else {
      var init := b[..|b| - 1];
      assert (a + b)[..n - 1] == a + init;
      JoinConcat(a, init, sep);
      assert Join(b, sep) == Join(init, sep) + sep + b[|b| - 1];
    }
  }

  /** The labels of the transit steps, in step order. */
  function Labels(transitSteps: seq<DirectionsStep>): (labels: seq<string>)
    ensures |labels| == |transitSteps|
  {
    seq(|transitSteps|, i requires 0 <= i < |transitSteps| => LineLabel(transitSteps[i]))
  }

  /** The line names of the transit steps, in step order, joined by " → ". */
  function LineName(transitSteps: seq<DirectionsStep>): string {
    Join(Labels(transitSteps), LINE_SEPARATOR)
  }

  /** The line name is empty without transit steps, is the one label of a
      single step, and otherwise starts with the first step's label and ends
      with the last step's. */
  lemma LineNameShape(transitSteps: seq<DirectionsStep>)
    ensures transitSteps == [] ==> LineName(transitSteps) == ""
    ensures |transitSteps| == 1 ==> LineName(transitSteps) == LineLabel(transitSteps[0])
    ensures |transitSteps| > 0 ==>
      var name, last := LineName(transitSteps), LineLabel(transitSteps[|transitSteps| - 1]);
      && LineLabel(transitSteps[0]) <= name
      && |last| <= |name| && name[|name| - |last|..] == last
  {
    if transitSteps != [] {
      JoinShape(Labels(transitSteps), LINE_SEPARATOR);
    }
  }

  /** The line name of two runs of transit steps is the first run's name, the
      separator " → ", then the second run's name; in particular a step's
      label is followed by " → " and the next step's label. */
  lemma LineNameConcat(t1: seq<DirectionsStep>, t2: seq<DirectionsStep>)
    requires t1 != [] && t2 != []
    ensures LineName(t1 + t2) == LineName(t1) + " → " + LineName(t2)
    ensures |t2| == 1 ==> LineName(t1 + t2) == LineName(t1) + " → " + LineLabel(t2[0])
  {
    assert Labels(t1 + t2) == Labels(t1) + Labels(t2);
    JoinConcat(Labels(t1), Labels(t2), LINE_SEPARATOR);
  }

  /** A fare JavaScript treats as present: the field exists and is not 0. */
  predicate FarePresent(f: Option<Fare>) {
    f.Some? && f.value.value != 0
  }

  /** `route.fare?.value || leg.fare?.value || 250`. */
  function ResolveFare(routeFare: Option<Fare>, legFare: Option<Fare>): (fare: int)
    ensures fare != 0
  {
    if FarePresent(routeFare) then routeFare.value.value
    else if FarePresent(legFare) then legFare.value.value
    else DEFAULT_TRAIN_FARE
  }

  /** The resolved fare is never 0; it is the route's fare when that is
      present, otherwise the leg's, otherwise 250, and a fare of 0 counts as
      absent. */
  lemma ResolveFareSpec(routeFare: Option<Fare>, legFare: Option<Fare>, currency: string)
    ensures var fare := ResolveFare(routeFare, legFare);
      && fare != 0
      && (fare == DEFAULT_TRAIN_FARE
          || (routeFare.Some? && fare == routeFare.value.value)
          || (legFare.Some? && fare == legFare.value.value))
      && (FarePresent(routeFare) ==> fare == routeFare.value.value)
      && (!FarePresent(routeFare) && FarePresent(legFare) ==> fare == legFare.value.value)
      && (!FarePresent(routeFare) && !FarePresent(legFare) ==> fare == DEFAULT_TRAIN_FARE)
    ensures ResolveFare(Some(Fare(0, currency)), legFare) == ResolveFare(None, legFare)
    ensures ResolveFare(routeFare, Some(Fare(0, currency))) == ResolveFare(routeFare, None)
  {
  }

  /** Step `i` is the first transit step. */
  predicate FirstTransitAt(steps: seq<DirectionsStep>, i: int) {
    && 0 <= i < |steps| && IsTransitStep(steps[i])
    && forall j :: 0 <= j < i ==> !IsTransitStep(steps[j])
  }

  /** Step `i` is the last transit step. */
  predicate LastTransitAt(steps: seq<DirectionsStep>, i: int) {
    && 0 <= i < |steps| && IsTransitStep(steps[i])
    && forall j :: i < j < |steps| ==> !IsTransitStep(steps[j])
  }

  /** The filtered transit steps are empty exactly when no step is a transit
      step; otherwise their first and last are the first and last transit
      steps of the leg. */
  lemma TransitEnds(steps: seq<DirectionsStep>)
    ensures var ts := Filter(steps, IsTransitStep);
      && (ts == [] <==> forall i :: 0 <= i < |steps| ==> !IsTransitStep(steps[i]))
      && (ts != [] ==> exists i :: FirstTransitAt(steps, i) && ts[0] == steps[i])
      && (ts != [] ==> exists i :: LastTransitAt(steps, i) && ts[|ts| - 1] == steps[i])
  {
    FilterEmpty(steps, IsTransitStep);
    if Filter(steps, IsTransitStep) != [] {
      FirstTransit(steps);
      LastTransit(steps);
    }
  }

  /** The first transit step kept is the first transit step of the leg. */
  lemma FirstTransit(steps: seq<DirectionsStep>)
    requires Filter(steps, IsTransitStep) != []
    ensures exists i :: FirstTransitAt(steps, i) && Filter(steps, IsTransitStep)[0] == steps[i]
  {
    FilterHead(steps, IsTransitStep);
    var i :| 0 <= i < |steps| && IsTransitStep(steps[i]) && Filter(steps, IsTransitStep)[0] == steps[i]
      && forall j :: 0 <= j < i ==> !IsTransitStep(steps[j]);
    assert FirstTransitAt(steps, i);
  }

  /** The last transit step kept is the last transit step of the leg. */
  lemma LastTransit(steps: seq<DirectionsStep>)
    requires Filter(steps, IsTransitStep) != []
    ensures var ts := Filter(steps, IsTransitStep);
      exists i :: LastTransitAt(steps, i) && ts[|ts| - 1] == steps[i]
  {
    var ts := Filter(steps, IsTransitStep);
    FilterLast(steps, IsTransitStep);
    var i :| 0 <= i < |steps| && IsTransitStep(steps[i]) && ts[|ts| - 1] == steps[i]
      && forall j :: i < j < |steps| ==> !IsTransitStep(steps[j]);
    assert LastTransitAt(steps, i);
  }

  /** What one examined route contributes: a crash (`route.legs[0]` is
      undefined and reading its steps throws), nothing (`continue`), or a
      train option. */
  datatype RouteOutcome = Crash | Skipped | Train(option: RouteOption)

  /** The body of the loop over examined routes, for one route. */
  function TrainOptionFor(route: DirectionsRoute, destName: string, fullTaxiFare: int): (r: RouteOutcome)
    ensures r.Crash? <==> route.legs == []
    ensures r.Train? ==>
      && r.option.kind == TrainOnly && ShapeMatchesKind(r.option)
      && CostConsistent(r.option, fullTaxiFare)
      && r.option.totalCost == ResolveFare(route.fare, route.legs[0].fare)
  {
    if route.legs == [] then Crash
    else
      var leg := route.legs[0];
      var transitSteps := Filter(leg.steps, IsTransitStep);
      if |transitSteps| == 0 then Skipped
      else
        var firstTransit := transitSteps[0].transitDetails;
        var lastTransit := transitSteps[|transitSteps| - 1].transitDetails;
        if firstTransit.None? || lastTransit.None? then Skipped
        else
          var lineName := LineName(transitSteps);
          var fare := ResolveFare(route.fare, leg.fare);
          Train(RouteOption(
            TrainOnly,
            lineName + " で " + destName + "方面へ",
            Some(TrainSegment(lineName,
              firstTransit.value.departureStop.name,
              lastTransit.value.arrivalStop.name,
              firstTransit.value.departureTime.text,
              lastTransit.value.arrivalTime.text,
              fare)),
            None,
            fare,
            fullTaxiFare - fare))
  }

  /** A route with legs is skipped exactly when its first leg has no transit
      step, or its first or last transit step has no transit details. */
  lemma RouteSkipped(route: DirectionsRoute, destName: string, fullTaxiFare: int)
    requires route.legs != []
    ensures var steps := route.legs[0].steps;
      TrainOptionFor(route, destName, fullTaxiFare).Skipped? <==>
        || (forall i :: 0 <= i < |steps| ==> !IsTransitStep(steps[i]))
        || (exists i :: FirstTransitAt(steps, i) && steps[i].transitDetails.None?)
        || (exists i :: LastTransitAt(steps, i) && steps[i].transitDetails.None?)
  {
    var steps := route.legs[0].steps;
    TransitEnds(steps);
    forall i, i' | FirstTransitAt(steps, i) && FirstTransitAt(steps, i') ensures i == i' { }
    forall i, i' | LastTransitAt(steps, i) && LastTransitAt(steps, i') ensures i == i' { }
  }

  /** A train option runs from the departure stop and time of the first
      transit step to the arrival stop and time of the last one, under the
      joined line names, at the resolved fare. */
  lemma TrainOptionEndpoints(route: DirectionsRoute, destName: string, fullTaxiFare: int)
    requires TrainOptionFor(route, destName, fullTaxiFare).Train?
    ensures var steps := route.legs[0].steps;
      var t := TrainOptionFor(route, destName, fullTaxiFare).option.train.value;
      && (exists i :: FirstTransitAt(steps, i) && steps[i].transitDetails.Some?
            && t.from == steps[i].transitDetails.value.departureStop.name
            && t.departureTime == steps[i].transitDetails.value.departureTime.text)
      && (exists i :: LastTransitAt(steps, i) && steps[i].transitDetails.Some?
            && t.to == steps[i].transitDetails.value.arrivalStop.name
            && t.arrivalTime == steps[i].transitDetails.value.arrivalTime.text)
      && t.line == LineName(Filter(steps, IsTransitStep))
      && t.fare == ResolveFare(route.fare, route.legs[0].fare)
  {
    TransitEnds(route.legs[0].steps);
  }

  // ---------------------------------------------------------------------
  // The option list

  /** The routes the loop examines: the first three, and none unless the
      status is "OK". */
  function ExaminedRoutes(transit: DirectionsResponse): (rs: seq<DirectionsRoute>)
    ensures |rs| <= MAX_ROUTES && rs <= transit.routes
    ensures transit.status == "OK" && |transit.routes| < MAX_ROUTES ==> rs == transit.routes
    ensures transit.status == "OK" && |transit.routes| >= MAX_ROUTES ==> |rs| == MAX_ROUTES
    ensures transit.status != "OK" ==> rs == []
  {
    if transit.status == "OK" && |transit.routes| > 0 then
      transit.routes[..if |transit.routes| < MAX_ROUTES then |transit.routes| else MAX_ROUTES]
    else []
  }

  /** The train options the loop pushes for `routes`, in route order, or
      `None` when one of them crashes. */
  function TrainOptions(routes: seq<DirectionsRoute>, destName: string, fullTaxiFare: int): (r: Option<seq<RouteOption>>)
    ensures r.Some? ==> |r.value| <= |routes|
    ensures r.Some? ==> forall o :: o in r.value ==>
      o.kind == TrainOnly && ShapeMatchesKind(o) && CostConsistent(o, fullTaxiFare)
  {
    if routes == [] then Some([])
    else
      match TrainOptions(routes[..|routes| - 1], destName, fullTaxiFare)
      case None => None
      case Some(opts) =>
        match TrainOptionFor(routes[|routes| - 1], destName, fullTaxiFare)
        case Crash => None
        case Skipped => Some(opts)
        case Train(o) => Some(opts + [o])
  }

  /** Route `i` yields the train option `o`. */
  predicate Yields(routes: seq<DirectionsRoute>, i: int, o: RouteOption, destName: string, fullTaxiFare: int) {
    0 <= i < |routes| && TrainOptionFor(routes[i], destName, fullTaxiFare) == Train(o)
  }

  /** The train options crash exactly when some route has no legs. */
  lemma {:induction false} TrainOptionsCrash(routes: seq<DirectionsRoute>, destName: string, fullTaxiFare: int)
    ensures TrainOptions(routes, destName, fullTaxiFare).None? <==>
      exists i :: 0 <= i < |routes| && routes[i].legs == []
  {
    if routes != [] {
      var n := |routes| - 1;
      var init := routes[..n];
      TrainOptionsCrash(init, destName, fullTaxiFare);
      if exists i :: 0 <= i < n && routes[i].legs == [] {
        var i :| 0 <= i < n && routes[i].legs == [];
        assert init[i] == routes[i];
      }
      if exists i :: 0 <= i < n && init[i].legs == [] {
        var i :| 0 <= i < n && init[i].legs == [];
        assert init[i] == routes[i];
      }
    }
  }

  /** Each train option comes from an examined route, and there are no more
      of them than routes. */
  lemma {:induction false} TrainOptionsSound(routes: seq<DirectionsRoute>, destName: string, fullTaxiFare: int)
    requires TrainOptions(routes, destName, fullTaxiFare).Some?
    ensures var opts := TrainOptions(routes, destName, fullTaxiFare).value;
      && |opts| <= |routes|
      && forall o :: o in opts ==> exists i :: Yields(routes, i, o, destName, fullTaxiFare)
  {
    if routes != [] {
      var n := |routes| - 1;
      var init := routes[..n];
      TrainOptionsSound(init, destName, fullTaxiFare);
      var prev := TrainOptions(init, destName, fullTaxiFare).value;
      var opts := TrainOptions(routes, destName, fullTaxiFare).value;
      assert opts == prev || opts == prev + [TrainOptionFor(routes[n], destName, fullTaxiFare).option];
      forall o | o in opts ensures exists i :: Yields(routes, i, o, destName, fullTaxiFare) {
        if o in prev {
          var i :| Yields(init, i, o, destName, fullTaxiFare);
          assert Yields(routes, i, o, destName, fullTaxiFare);
        } else {
          assert Yields(routes, n, o, destName, fullTaxiFare);
        }
      }
    }
  }

  /** The option of every examined route that yields one is among the train
      options. */
  lemma {:induction false} TrainOptionsComplete(routes: seq<DirectionsRoute>, destName: string, fullTaxiFare: int)
    requires TrainOptions(routes, destName, fullTaxiFare).Some?
    ensures forall i, o :: Yields(routes, i, o, destName, fullTaxiFare) ==>
      o in TrainOptions(routes, destName, fullTaxiFare).value
  {
    if routes != [] {
      var n := |routes| - 1;
      var init := routes[..n];
      TrainOptionsComplete(init, destName, fullTaxiFare);
      var prev := TrainOptions(init, destName, fullTaxiFare).value;
      var opts := TrainOptions(routes, destName, fullTaxiFare).value;
      assert forall o :: o in prev ==> o in opts;
      forall i, o | Yields(routes, i, o, destName, fullTaxiFare) ensures o in opts {
        if i < n {
          assert Yields(init, i, o, destName, fullTaxiFare);
        }
      }
    }
  }

  /** The taxi-only option: the whole driving distance at the night tariff. */
  function TaxiBaseline(locationName: string, destName: string, distanceKm: real, fullTaxiFare: int): (o: RouteOption)
    ensures o.kind == TaxiOnly && ShapeMatchesKind(o) && CostConsistent(o, fullTaxiFare)
    ensures o.totalCost == fullTaxiFare && o.savings == 0 && o.taxi.value.fare == fullTaxiFare
  {
    RouteOption(
      TaxiOnly,
      "タクシーで直接" + destName + "へ",
      None,
      Some(TaxiSegment(locationName, destName, distanceKm, fullTaxiFare, EstimateTaxiDuration(distanceKm))),
      fullTaxiFare,
      0)
  }

  /** The live-mode result, or `None` when building it throws. */
  function LiveResult(transit: DirectionsResponse, distanceKm: real, locationName: string,
                      destName: string, now: string): (r: Option<SearchResult>)
    ensures r.Some? ==>
      && r.value.currentLocation == locationName && r.value.destination == destName
      && r.value.fullTaxiFare == CalculateTaxiFare(distanceKm, Some(true))
      && r.value.fullTaxiDistanceKm == distanceKm
      && r.value.searchedAt == now && !r.value.isDemo
  {
    var fullTaxiFare := CalculateTaxiFare(distanceKm, Some(true));
    match TrainOptions(ExaminedRoutes(transit), destName, fullTaxiFare)
    case None => None
    case Some(trains) =>
      Some(SearchResult(locationName, destName, fullTaxiFare, distanceKm,
        SortBySavings(trains + [TaxiBaseline(locationName, destName, distanceKm, fullTaxiFare)]),
        now, false))
  }

  /** The option list as the handler builds it: push a train option per
      usable examined route, push the taxi-only option, sort by savings. */
  method BuildLiveResult(transit: DirectionsResponse, distanceKm: real, locationName: string,
                         destName: string, now: string) returns (r: Option<SearchResult>)
    ensures r == LiveResult(transit, distanceKm, locationName, destName, now)
  {
    var fullTaxiFare := CalculateTaxiFare(distanceKm, Some(true));
    var options: seq<RouteOption> := [];
    var examined := ExaminedRoutes(transit);
    if transit.status == "OK" && |transit.routes| > 0 {
      for i := 0 to |examined|
        invariant TrainOptions(examined[..i], destName, fullTaxiFare) == Some(options)
      {
        TrainOptionsStep(examined, i, destName, fullTaxiFare);
        match TrainOptionFor(examined[i], destName, fullTaxiFare)
        case Crash =>
          TrainOptionsPrefixCrash(examined, i + 1, destName, fullTaxiFare);
          assert examined[..|examined|] == examined;
          return None;
        case Skipped =>
        case Train(option) =>
          options := options + [option];
      }
      assert examined[..|examined|] == examined;
    }
    options := options + [TaxiBaseline(locationName, destName, distanceKm, fullTaxiFare)];
    options := SortBySavings(options);
    r := Some(SearchResult(locationName, destName, fullTaxiFare, distanceKm, options, now, false));
  }

  /** One more route: the loop body's effect on the options pushed so far. */
  lemma TrainOptionsStep(routes: seq<DirectionsRoute>, i: int, destName: string, fullTaxiFare: int)
    requires 0 <= i < |routes| && TrainOptions(routes[..i], destName, fullTaxiFare).Some?
    ensures var prev := TrainOptions(routes[..i], destName, fullTaxiFare).value;
      var next := TrainOptions(routes[..i + 1], destName, fullTaxiFare);
      match TrainOptionFor(routes[i], destName, fullTaxiFare)
      case Crash => next.None?
      case Skipped => next == Some(prev)
      case Train(o) => next == Some(prev + [o])
  {
    assert routes[..i + 1][..i] == routes[..i];
  }

  /** A crash in a prefix of the routes is a crash of all of them. */
  lemma {:induction false} TrainOptionsPrefixCrash(routes: seq<DirectionsRoute>, k: int, destName: string, fullTaxiFare: int)
    requires 0 <= k <= |routes|
    requires TrainOptions(routes[..k], destName, fullTaxiFare).None?
    ensures TrainOptions(routes, destName, fullTaxiFare).None?
  {
    if k < |routes| {
      var n := |routes| - 1;
      assert routes[..n][..k] == routes[..k];
      TrainOptionsPrefixCrash(routes[..n], k, destName, fullTaxiFare);
    } else {
      assert routes[..k] == routes;
    }
  }

  // ---------------------------------------------------------------------
  // Properties of the live result

  /** Building the live result throws exactly when the status is "OK" and one
      of the first three routes has no legs. */
  lemma LiveResultFails(transit: DirectionsResponse, distanceKm: real, locationName: string,
                        destName: string, now: string)
    ensures LiveResult(transit, distanceKm, locationName, destName, now).None? <==>
      transit.status == "OK" && exists i :: 0 <= i < |transit.routes| && i < MAX_ROUTES && transit.routes[i].legs == []
  {
    var examined := ExaminedRoutes(transit);
    TrainOptionsCrash(examined, destName, CalculateTaxiFare(distanceKm, Some(true)));
    if transit.status == "OK" {
      if exists i :: 0 <= i < |transit.routes| && i < MAX_ROUTES && transit.routes[i].legs == [] {
        var i :| 0 <= i < |transit.routes| && i < MAX_ROUTES && transit.routes[i].legs == [];
        assert examined[i] == transit.routes[i];
      }
      if exists i :: 0 <= i < |examined| && examined[i].legs == [] {
        var i :| 0 <= i < |examined| && examined[i].legs == [];
        assert examined[i] == transit.routes[i];
      }
    }
  }

  /** A live result prices the full trip at the night tariff over the
      driving distance and lists between one and four options, sorted by
      savings: a stable permutation of the train options followed by the
      taxi-only baseline. */
  lemma LiveResultOrder(transit: DirectionsResponse, distanceKm: real, locationName: string,
                        destName: string, now: string)
    requires LiveResult(transit, distanceKm, locationName, destName, now).Some?
    ensures var r := LiveResult(transit, distanceKm, locationName, destName, now).value;
      var baseline := TaxiBaseline(locationName, destName, distanceKm, r.fullTaxiFare);
      var built := TrainOptions(ExaminedRoutes(transit), destName, r.fullTaxiFare).value + [baseline];
      && r.fullTaxiFare == CalculateTaxiFare(distanceKm, Some(true))
      && r.fullTaxiDistanceKm == distanceKm && !r.isDemo
      && 1 <= |r.options| <= 4
      && SortedBySavings(r.options)
      && multiset(r.options) == multiset(built)
      && (forall v :: Filter(r.options, SavingsIs(v)) == Filter(built, SavingsIs(v)))
  {
    var full := CalculateTaxiFare(distanceKm, Some(true));
    var examined := ExaminedRoutes(transit);
    var trains := TrainOptions(examined, destName, full).value;
    TrainOptionsSound(examined, destName, full);
    SortSpec(trains + [TaxiBaseline(locationName, destName, distanceKm, full)]);
  }

  /** A live result holds the taxi-only baseline exactly once and only
      train-only options besides, each with its total the sum of its fares
      and its savings measured against the taxi fare. */
  lemma LiveResultKinds(transit: DirectionsResponse, distanceKm: real, locationName: string,
                        destName: string, now: string)
    requires LiveResult(transit, distanceKm, locationName, destName, now).Some?
    ensures var r := LiveResult(transit, distanceKm, locationName, destName, now).value;
      var baseline := TaxiBaseline(locationName, destName, distanceKm, r.fullTaxiFare);
      && multiset(r.options)[baseline] == 1
      && (forall o :: o in r.options ==> o == baseline || o.kind == TrainOnly)
      && (forall o :: o in r.options ==> CostConsistent(o, r.fullTaxiFare) && ShapeMatchesKind(o))
  {
    var full := CalculateTaxiFare(distanceKm, Some(true));
    var examined := ExaminedRoutes(transit);
    var trains := TrainOptions(examined, destName, full).value;
    var baseline := TaxiBaseline(locationName, destName, distanceKm, full);
    var built := trains + [baseline];
    TrainOptionsSound(examined, destName, full);
    SortPermutes(built);
    var r := SortBySavings(built);
    forall o | o in trains ensures o.kind == TrainOnly && CostConsistent(o, full) && ShapeMatchesKind(o) {
      var i :| Yields(examined, i, o, destName, full);
    }
    assert baseline !in trains;
    assert multiset(built)[baseline] == multiset(trains)[baseline] + 1;
    forall o | o in r ensures o in built {
      assert o in multiset(r);
    }
  }

  /** Without an "OK" status with routes, the only option is the baseline. */
  lemma NoTransitOnlyBaseline(transit: DirectionsResponse, distanceKm: real, locationName: string,
                              destName: string, now: string)
    requires transit.status != "OK" || transit.routes == []
    ensures var r := LiveResult(transit, distanceKm, locationName, destName, now);
      var full := CalculateTaxiFare(distanceKm, Some(true));
      && r.Some?
      && r.value.options == [TaxiBaseline(locationName, destName, distanceKm, full)]
  {
    var full := CalculateTaxiFare(distanceKm, Some(true));
    var b := TaxiBaseline(locationName, destName, distanceKm, full);
    assert [] + [b] == [b];
    assert SortBySavings([b]) == Insert(b, SortBySavings([]));
  }

  /** A train option that saves nothing, because its fare equals the taxi
      fare, still comes before the taxi-only option, which was pushed after
      it. */
  lemma TieKeepsTrainFirst(transit: DirectionsResponse, distanceKm: real, locationName: string,
                           destName: string, now: string, t: RouteOption)
    requires LiveResult(transit, distanceKm, locationName, destName, now).Some?
    requires var full := CalculateTaxiFare(distanceKm, Some(true));
      t in TrainOptions(ExaminedRoutes(transit), destName, full).value && t.savings == 0
    ensures var r := LiveResult(transit, distanceKm, locationName, destName, now).value;
      var baseline := TaxiBaseline(locationName, destName, distanceKm, r.fullTaxiFare);
      exists i, j :: 0 <= i < j < |r.options| && r.options[i] == t && r.options[j] == baseline
  {
    var full := CalculateTaxiFare(distanceKm, Some(true));
    var trains := TrainOptions(ExaminedRoutes(transit), destName, full).value;
    var baseline := TaxiBaseline(locationName, destName, distanceKm, full);
    var built := trains + [baseline];
    var i :| 0 <= i < |trains| && trains[i] == t;
    assert built[i] == t && built[|trains|] == baseline;
    SortKeepsTieOrder(built, i, |trains|);
  }

  // ---------------------------------------------------------------------
  // A worked example

  /** A walk, a Chuo Line ride from Shinjuku to Ogikubo, a walk. */
  const WALK: DirectionsStep := DirectionsStep("WALKING", "徒歩", Measure(300, "5分"), Measure(400, "400 m"), None)
  const CHUO_RIDE: DirectionsStep := DirectionsStep("TRANSIT", "高尾行", Measure(600, "10分"), Measure(9000, "9.0 km"),
    Some(TransitDetails(Stop("新宿"), Stop("荻窪"), TimeText("0:05", 0), TimeText("0:15", 600),
      TransitLine(Some(""), Some("中央線快速")))))
  const MARUNOUCHI_RIDE: DirectionsStep := DirectionsStep("TRANSIT", "荻窪行", Measure(900, "15分"), Measure(8000, "8.0 km"),
    Some(TransitDetails(Stop("新宿"), Stop("荻窪"), TimeText("0:05", 0), TimeText("0:20", 900),
      TransitLine(Some("M"), Some("丸ノ内線")))))

  /** A line without a short name is labelled by its name, and labels are
      joined in step order. */
  lemma LineNameExample()
    ensures LineName([CHUO_RIDE]) == "中央線快速"
    ensures LineName([CHUO_RIDE, MARUNOUCHI_RIDE]) == "中央線快速 → M"
  {
    var two := [CHUO_RIDE, MARUNOUCHI_RIDE];
    var labels := Labels(two);
    assert labels == ["中央線快速", "M"];
    assert labels[..1] == ["中央線快速"];
    assert Join(labels, LINE_SEPARATOR) == "中央線快速" + LINE_SEPARATOR + "M";
    assert LINE_SEPARATOR == " → ";
  }

  /** One fareless route walking to and from a Chuo Line ride. */
  const EXAMPLE_ROUTE: DirectionsRoute := DirectionsRoute("中央線快速",
    [DirectionsLeg(Measure(1200, "20分"), Measure(9800, "9.8 km"), "新宿", "荻窪", [WALK, CHUO_RIDE, WALK], None)],
    None)

  /** That route yields a Chuo Line option from Shinjuku to Ogikubo at the
      default fare of 250 yen. */
  lemma ExampleRouteOption(fullTaxiFare: int)
    ensures TrainOptionFor(EXAMPLE_ROUTE, "荻窪駅", fullTaxiFare) == Train(RouteOption(
      TrainOnly, "中央線快速 で 荻窪駅方面へ",
      Some(TrainSegment("中央線快速", "新宿", "荻窪", "0:05", "0:15", 250)), None,
      250, fullTaxiFare - 250))
  {
    var steps := [WALK, CHUO_RIDE, WALK];
    assert !IsTransitStep(WALK) && IsTransitStep(CHUO_RIDE) by {
      assert WALK.travelMode[0] != "TRANSIT"[0];
    }
    assert steps[..2] == [WALK, CHUO_RIDE] && steps[..2][..1] == [WALK] && [WALK][..0] == [];
    assert Filter([WALK], IsTransitStep) == [];
    assert Filter([WALK, CHUO_RIDE], IsTransitStep) == [CHUO_RIDE];
    assert Filter(steps, IsTransitStep) == [CHUO_RIDE];
    LineNameExample();
  }

  /** With 9.5 km by road, that ride saves 4310 of the 4560 yen night taxi
      fare, so it is listed before the taxi-only option. */
  lemma LiveExample(now: string)
    ensures var r := LiveResult(DirectionsResponse("OK", [EXAMPLE_ROUTE]), 9.5, "新宿駅", "荻窪駅", now);
      && r.Some?
      && r.value.fullTaxiFare == 4560
      && |r.value.options| == 2
      && r.value.options[0].kind == TrainOnly
      && r.value.options[0].train == Some(TrainSegment("中央線快速", "新宿", "荻窪", "0:05", "0:15", 250))
      && r.value.options[0].savings == 4310
      && r.value.options[1].kind == TaxiOnly
      && r.value.options[1].savings == 0
  {
    var transit := DirectionsResponse("OK", [EXAMPLE_ROUTE]);
    NightFareFor9_5Km();
    ExampleRouteOption(4560);
    var o := TrainOptionFor(EXAMPLE_ROUTE, "荻窪駅", 4560).option;
    assert ExaminedRoutes(transit) == [EXAMPLE_ROUTE];
    assert [EXAMPLE_ROUTE][..0] == [] && [] + [o] == [o];
    assert TrainOptions([], "荻窪駅", 4560) == Some([]);
    assert TrainOptions([EXAMPLE_ROUTE], "荻窪駅", 4560) == Some([o]);
    var b := TaxiBaseline("新宿駅", "荻窪駅", 9.5, 4560);
    assert [o] + [b] == [o, b];
    assert SortBySavings([o, b]) == Insert(o, Insert(b, []));
  }

  // ---------------------------------------------------------------------
  // The handler

  /** A JSON value as `typeof` tells it apart: only numbers pass the check. */
  datatype JsonValue = Number(n: real) | Text(s: string) | Flag(b: bool) | Null | Absent

  /** The request body: `lat` and `lng` as sent; a `destName` that is absent
      or null is `None`. `destLat` and `destLng` only reach the map
      providers, whose answers are inputs here. */
  datatype SearchBody = SearchBody(lat: JsonValue, lng: JsonValue, destName: Option<string>)

  /** What the three provider calls returned, `None` for a call that threw. */
  datatype Providers = Providers(
    transit: Option<DirectionsResponse>,
    drivingKm: Option<real>,
    locationName: Option<string>)

  datatype ResponseBody = Failure(error: string) | Success(result: SearchResult)

  datatype Response = Response(status: int, body: ResponseBody)

  const BAD_REQUEST: Response := Response(400, Failure("lat, lng が必要です"))
  const SERVER_ERROR: Response := Response(500, Failure("検索中にエラーが発生しました"))

  /** `!process.env.GOOGLE_MAPS_API_KEY`: unset or empty means demo mode. */
  predicate DemoMode(apiKey: Option<string>) {
    !Truthy(apiKey)
  }

  /** `POST /api/search`. `request` is `None` when the body is not JSON;
      `homeStation` is the configured home station name. */
  method Post(request: Option<SearchBody>, apiKey: Option<string>, homeStation: string,
              providers: Providers, hav: Metric, now: string) returns (resp: Response)
    ensures request.None? ==> resp == SERVER_ERROR
    ensures request.Some? && (!request.value.lat.Number? || !request.value.lng.Number?) ==> resp == BAD_REQUEST
    ensures request.Some? && request.value.lat.Number? && request.value.lng.Number? && DemoMode(apiKey) ==>
      var lat, lng := request.value.lat.n, request.value.lng.n;
      var destName := request.value.destName.GetOr(homeStation);
      && resp.status == 200 && resp.body.Success?
      && resp.body.result.isDemo && resp.body.result.searchedAt == now
      && (IsHomeDestination(destName) ==>
            exists k :: FirstClosestScenario(k, lat, lng) && resp.body.result == SCENARIOS[k].result.(searchedAt := now))
      && (!IsHomeDestination(destName) ==> resp.body.result == Synthesize(STATIONS, lat, lng, destName, hav, now))
    ensures request.Some? && request.value.lat.Number? && request.value.lng.Number? && !DemoMode(apiKey) ==>
      var destName := request.value.destName.GetOr(homeStation);
      resp == if providers.transit.None? || providers.drivingKm.None? || providers.locationName.None? then SERVER_ERROR
        else match LiveResult(providers.transit.value, providers.drivingKm.value, providers.locationName.value, destName, now)
          case None => SERVER_ERROR
          case Some(result) => Response(200, Success(result))
  {
    if request.None? {
      return SERVER_ERROR;
    }
    var body := request.value;
    if !body.lat.Number? || !body.lng.Number? {
      return BAD_REQUEST;
    }
    var lat, lng := body.lat.n, body.lng.n;
    var destName := body.destName.GetOr(homeStation);
    if DemoMode(apiKey) {
      var mockResult := GetMockResult(lat, lng, Some(destName), hav, now);
      return Response(200, Success(mockResult));
    }
    if providers.transit.None? || providers.drivingKm.None? || providers.locationName.None? {
      return SERVER_ERROR;
    }
    var result := BuildLiveResult(providers.transit.value, providers.drivingKm.value,
                                  providers.locationName.value, destName, now);
    if result.None? {
      return SERVER_ERROR;
    }
    resp := Response(200, Success(result.value));
  }
}
