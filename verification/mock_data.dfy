/** The demo-mode result source: four pre-authored scenarios for trips to the
    home station, and a result synthesized from the station directory for any
    other destination. */
module MockData {
  import opened Types
  import opened Seqs
  import opened Taxi
  import opened Stations

  /** A straight-line distance in km between two (lat, lng) points; the
      haversine great-circle formula in the source, a parameter here. */
  type Metric = (real, real, real, real) -> real

  datatype MockScenario = MockScenario(name: string, lat: real, lng: real, result: SearchResult)

  /** The destination assumed when the caller names none. */
  const HOME_STATION: string := "荻窪駅"

  /** The anchor used when the destination matches no station (Tokyo station). */
  const FALLBACK_LAT: real := 35.6812
  const FALLBACK_LNG: real := 139.7671

  /** The two spellings of the home station that select a pre-authored scenario. */
  predicate IsHomeDestination(destName: string) {
    destName == "荻窪駅" || destName == "荻窪"
  }

  // ---------------------------------------------------------------------
  // The pre-authored scenarios, in library order

  const SCENARIOS: seq<MockScenario> := [SHINJUKU, SHIBUYA, ROPPONGI, IKEBUKURO]

  const SHINJUKU: MockScenario := MockScenario("新宿", 35.6896, 139.7006,
    SearchResult("新宿駅周辺", "荻窪駅", 4200, 9.5, [
      RouteOption(TrainOnly, "JR中央線（快速）でそのまま荻窪へ",
        Some(TrainSegment("JR中央線（快速）", "新宿", "荻窪", "0:20", "0:33", 220)),
        None, 220, 3980),
      RouteOption(TrainAndTaxi, "JR中央線で高円寺まで → タクシーで荻窪へ",
        Some(TrainSegment("JR中央線（各駅停車）", "新宿", "高円寺", "0:30", "0:37", 170)),
        Some(TaxiSegment("高円寺駅", "荻窪駅", 2.5, 1100, 8)), 1270, 2930),
      RouteOption(TaxiOnly, "タクシーで直接荻窪へ",
        None,
        Some(TaxiSegment("新宿駅", "荻窪駅", 9.5, 4200, 25)), 4200, 0)
    ], "", true))

  const SHIBUYA: MockScenario := MockScenario("渋谷", 35.6581, 139.7017,
    SearchResult("渋谷駅周辺", "荻窪駅", 5800, 13.2, [
      RouteOption(TrainAndTaxi, "JR山手線で新宿 → 中央線で中野まで → タクシーで荻窪へ",
        Some(TrainSegment("JR山手線 → JR中央線", "渋谷", "中野", "0:10", "0:28", 230)),
        Some(TaxiSegment("中野駅", "荻窪駅", 4.0, 1700, 12)), 1930, 3870),
      RouteOption(TrainAndTaxi, "京王井の頭線で明大前 → タクシーで荻窪へ",
        Some(TrainSegment("京王井の頭線", "渋谷", "明大前", "0:22", "0:31", 160)),
        Some(TaxiSegment("明大前駅", "荻窪駅", 5.5, 2400, 15)), 2560, 3240),
      RouteOption(TaxiOnly, "タクシーで直接荻窪へ",
        None,
        Some(TaxiSegment("渋谷駅", "荻窪駅", 13.2, 5800, 30)), 5800, 0)
    ], "", true))

  const ROPPONGI: MockScenario := MockScenario("六本木", 35.6627, 139.7311,
    SearchResult("六本木駅周辺", "荻窪駅", 6400, 14.5, [
      RouteOption(TrainAndTaxi, "大江戸線で新宿西口 → タクシーで荻窪へ",
        Some(TrainSegment("都営大江戸線", "六本木", "新宿西口", "0:08", "0:18", 220)),
        Some(TaxiSegment("新宿駅", "荻窪駅", 9.5, 4200, 25)), 4420, 1980),
      RouteOption(TrainAndTaxi, "日比谷線で中目黒 → 銀座線で赤坂見附 → 丸ノ内線で新高円寺 → タクシー",
        Some(TrainSegment("丸ノ内線（乗換あり）", "六本木", "新高円寺", "0:01", "0:35", 330)),
        Some(TaxiSegment("新高円寺駅", "荻窪駅", 1.8, 900, 6)), 1230, 5170),
      RouteOption(TaxiOnly, "タクシーで直接荻窪へ",
        None,
        Some(TaxiSegment("六本木駅", "荻窪駅", 14.5, 6400, 35)), 6400, 0)
    ], "", true))

  const IKEBUKURO: MockScenario := MockScenario("池袋", 35.7295, 139.7109,
    SearchResult("池袋駅周辺", "荻窪駅", 5400, 12.0, [
      RouteOption(TrainAndTaxi, "丸ノ内線で荻窪へ直通",
        Some(TrainSegment("丸ノ内線", "池袋", "荻窪", "0:02", "0:35", 250)),
        None, 250, 5150),
      RouteOption(TrainAndTaxi, "JR埼京線で新宿 → タクシーで荻窪へ",
        Some(TrainSegment("JR埼京線", "池袋", "新宿", "0:25", "0:31", 170)),
        Some(TaxiSegment("新宿駅", "荻窪駅", 9.5, 4200, 25)), 4370, 1030),
      RouteOption(TaxiOnly, "タクシーで直接荻窪へ",
        None,
        Some(TaxiSegment("池袋駅", "荻窪駅", 12.0, 5400, 30)), 5400, 0)
    ], "", true))

  // ---------------------------------------------------------------------
  // Choosing a scenario

  /** The squared Euclidean distance on raw degrees from the origin to a
      scenario's anchor. The source compares the square roots; the square
      root is increasing, so both orders agree. */
  function SqDistance(lat: real, lng: real, sc: MockScenario): (d: real)
    ensures d >= 0.0
  {
    (lat - sc.lat) * (lat - sc.lat) + (lng - sc.lng) * (lng - sc.lng)
  }

  /** Scenario `k` is the closest to the origin, and the first in library
      order among equally close ones. */
  predicate FirstClosestScenario(k: int, lat: real, lng: real) {
    && 0 <= k < |SCENARIOS|
    && (forall j :: 0 <= j < k ==> SqDistance(lat, lng, SCENARIOS[j]) > SqDistance(lat, lng, SCENARIOS[k]))
    && (forall j :: 0 <= j < |SCENARIOS| ==> SqDistance(lat, lng, SCENARIOS[j]) >= SqDistance(lat, lng, SCENARIOS[k]))
  }

  /** At most one scenario is the first closest, so the choice is determined
      by the origin. */
  lemma FirstClosestUnique(k1: int, k2: int, lat: real, lng: real)
    requires FirstClosestScenario(k1, lat, lng) && FirstClosestScenario(k2, lat, lng)
    ensures k1 == k2
  {
    assert SqDistance(lat, lng, SCENARIOS[k1]) == SqDistance(lat, lng, SCENARIOS[k2]);
    assert !(k1 < k2);
    assert !(k2 < k1);
  }

  // ---------------------------------------------------------------------
  // Array helpers with JavaScript semantics

  /** `Math.round`: the nearest integer, halves rounded up. */
  function JsRound(x: real): (n: int)
    ensures n as real - 0.5 <= x < n as real + 0.5
  {
    (x + 0.5).Floor
  }

  /** `Math.round(x * 10) / 10`: `x` to one decimal place. */
  function RoundTenth(x: real): (r: real)
    ensures r - 0.05 <= x < r + 0.05
    ensures (r * 10.0).Floor as real == r * 10.0
  {
    JsRound(x * 10.0) as real / 10.0
  }

  /** The distance from a point to a station under `dist`. */
  function DistanceTo(lat: real, lng: real, s: Station, dist: Metric): real {
    dist(lat, lng, s.lat, s.lng)
  }

  /** `rest.reduce((closest, s) => d(s) < d(closest) ? s : closest, seed)`:
      a later station replaces the current one only when strictly closer. */
  function NearestFrom(seed: Station, rest: seq<Station>, lat: real, lng: real, dist: Metric): (r: Station)
    ensures r == seed || r in rest
    decreases |rest|
  {
    if rest == [] then seed
    else
      var s := rest[0];
      var closest := if DistanceTo(lat, lng, s, dist) < DistanceTo(lat, lng, seed, dist) then s else seed;
      NearestFrom(closest, rest[1..], lat, lng, dist)
  }

  /** Entry `k` of `all` is nearest to the point, and the first among equally
      near entries. */
  predicate FirstNearestAt(all: seq<Station>, k: int, lat: real, lng: real, dist: Metric) {
    && 0 <= k < |all|
    && (forall j :: 0 <= j < k ==> DistanceTo(lat, lng, all[j], dist) > DistanceTo(lat, lng, all[k], dist))
    && (forall j :: 0 <= j < |all| ==> DistanceTo(lat, lng, all[j], dist) >= DistanceTo(lat, lng, all[k], dist))
  }

  /** Reducing `rest` from `seed` ends at the seed (`k == -1`) or at
      `rest[k]`: no entry is nearer, and the seed and every entry before
      `rest[k]` are strictly farther. */
  predicate FirstNearestFrom(seed: Station, rest: seq<Station>, k: int, lat: real, lng: real, dist: Metric) {
    && -1 <= k < |rest|
    && var dr := DistanceTo(lat, lng, if k < 0 then seed else rest[k], dist);
    && DistanceTo(lat, lng, seed, dist) >= dr
    && (forall j :: 0 <= j < |rest| ==> DistanceTo(lat, lng, rest[j], dist) >= dr)
    && (k >= 0 ==> DistanceTo(lat, lng, seed, dist) > dr)
    && (forall j :: 0 <= j < k ==> DistanceTo(lat, lng, rest[j], dist) > dr)
  }

  /** The reduction returns the first nearest of the seed and the entries. */
  lemma {:induction false} NearestFromIsFirstNearest(seed: Station, rest: seq<Station>, lat: real, lng: real, dist: Metric)
    ensures exists k :: (FirstNearestFrom(seed, rest, k, lat, lng, dist)
      && NearestFrom(seed, rest, lat, lng, dist) == if k < 0 then seed else rest[k])
    decreases |rest|
  {
    if rest == [] {
      assert FirstNearestFrom(seed, rest, -1, lat, lng, dist);
    } else {
      var s := rest[0];
      var tail := rest[1..];
      var closer := DistanceTo(lat, lng, s, dist) < DistanceTo(lat, lng, seed, dist);
      var seed' := if closer then s else seed;
      NearestFromIsFirstNearest(seed', tail, lat, lng, dist);
      var k' :| FirstNearestFrom(seed', tail, k', lat, lng, dist)
        && NearestFrom(seed', tail, lat, lng, dist) == if k' < 0 then seed' else tail[k'];
      var r := if k' < 0 then seed' else tail[k'];
      var dr := DistanceTo(lat, lng, r, dist);
      var k := if k' >= 0 then k' + 1 else if closer then 0 else -1;
      assert r == if k < 0 then seed else rest[k];
      assert DistanceTo(lat, lng, seed', dist) >= dr;
      forall j | 0 <= j < |rest| ensures DistanceTo(lat, lng, rest[j], dist) >= dr {
        if j > 0 { assert rest[j] == tail[j - 1]; }
      }
      if k' >= 0 {
        assert DistanceTo(lat, lng, seed', dist) > dr;
        forall j | 0 <= j < k ensures DistanceTo(lat, lng, rest[j], dist) > dr {
          if j > 0 { assert rest[j] == tail[j - 1]; }
        }
      }
      assert FirstNearestFrom(seed, rest, k, lat, lng, dist);
    }
  }

  /** Reducing a table seeded with its own first entry gives the first
      nearest entry of the table. */
  lemma NearestInTable(table: seq<Station>, lat: real, lng: real, dist: Metric)
    requires |table| > 0
    ensures exists k :: (FirstNearestAt(table, k, lat, lng, dist)
      && table[k] == NearestFrom(table[0], table, lat, lng, dist))
  {
    NearestFromIsFirstNearest(table[0], table, lat, lng, dist);
    var k :| FirstNearestFrom(table[0], table, k, lat, lng, dist)
      && NearestFrom(table[0], table, lat, lng, dist) == if k < 0 then table[0] else table[k];
    var t := if k < 0 then 0 else k;
    assert FirstNearestAt(table, t, lat, lng, dist);
  }

  /** `s.replace(c, "")` for a one-character pattern: the first occurrence of
      `c` removed, if there is one. */
  function RemoveFirst(s: string, c: char): (r: string)
    ensures c !in s ==> r == s
    ensures c in s ==> exists i :: RemovedAt(s, c, r, i)
  {
    if s == [] then []
    else if s[0] == c then
      assert RemovedAt(s, c, s[1..], 0);
      s[1..]
    else
      var t := RemoveFirst(s[1..], c);
      assert c in s ==> exists i :: RemovedAt(s, c, [s[0]] + t, i) by {
        if c in s {
          assert c in s[1..];
          var i :| RemovedAt(s[1..], c, t, i);
          RemovedAtCons(s, c, t, i);
        }
      }
      [s[0]] + t
  }

  /** Removing past a first character that is not `c`. */
  lemma RemovedAtCons(s: string, c: char, t: string, i: int)
    requires |s| > 0 && s[0] != c && RemovedAt(s[1..], c, t, i)
    ensures RemovedAt(s, c, [s[0]] + t, i + 1)
  {
    assert s[1..][..i] == s[1..i + 1];
    assert s[..i + 1] == [s[0]] + s[1..i + 1];
  }

  /** `r` is `s` with the character at `i`, the first `c` in `s`, removed. */
  predicate RemovedAt(s: string, c: char, r: string, i: int) {
    0 <= i < |s| && s[i] == c && c !in s[..i] && r == s[..i] + s[i + 1..]
  }

  /** `destName.includes(s.name) || s.name.includes(destName.replace("駅", ""))`. */
  predicate DestMatches(s: Station, destName: string)
    ensures destName == s.name ==> DestMatches(s, destName)
    ensures destName == s.name + "駅" ==> DestMatches(s, destName)
  {
    Includes(destName, s.name) || Includes(s.name, RemoveFirst(destName, '駅'))
  }

  /** `STATIONS.find(...)`: the first station matching the destination name. */
  function FindDestination(table: seq<Station>, destName: string): (r: Option<Station>)
    ensures r.None? <==> forall i :: 0 <= i < |table| ==> !DestMatches(table[i], destName)
    ensures r.Some? ==> exists i :: (0 <= i < |table| && table[i] == r.value
      && DestMatches(r.value, destName) && forall j :: 0 <= j < i ==> !DestMatches(table[j], destName))
  {
    if table == [] then None
    else if DestMatches(table[0], destName) then Some(table[0])
    else
      var r := FindDestination(table[1..], destName);
      assert forall i :: 1 <= i < |table| ==> table[i] == table[1..][i - 1];
      assert r.Some? ==> exists i :: (0 <= i < |table| && table[i] == r.value
        && DestMatches(r.value, destName) && forall j :: 0 <= j < i ==> !DestMatches(table[j], destName)) by {
        if r.Some? {
          var i :| 0 <= i < |table[1..]| && table[1..][i] == r.value
            && DestMatches(r.value, destName) && forall j :: 0 <= j < i ==> !DestMatches(table[1..][j], destName);
          assert table[i + 1] == r.value;
        }
      }
      r
  }

  // ---------------------------------------------------------------------
  // Synthesizing a result for an arbitrary destination

  /** The station nearest to the origin, first in table order on ties. */
  function OriginStation(table: seq<Station>, lat: real, lng: real, hav: Metric): (s: Station)
    requires |table| > 0
    ensures s in table
  {
    NearestFrom(table[0], table, lat, lng, hav)
  }

  /** Where the trip ends: the matched station, or Tokyo station's
      coordinates when nothing matches. */
  function DestinationLat(dest: Option<Station>): (lat: real)
    ensures dest.Some? ==> lat == dest.value.lat
    ensures dest.None? ==> lat == FALLBACK_LAT
  {
    if dest.Some? then dest.value.lat else FALLBACK_LAT
  }

  function DestinationLng(dest: Option<Station>): (lng: real)
    ensures dest.Some? ==> lng == dest.value.lng
    ensures dest.None? ==> lng == FALLBACK_LNG
  {
    if dest.Some? then dest.value.lng else FALLBACK_LNG
  }

  /** The `filter` callback: neither the origin nor the matched destination
      station, compared by name. */
  function NotEndpoint(originName: string, dest: Option<Station>): Station -> bool {
    (s: Station) => s.name != originName && (dest.None? || s.name != dest.value.name)
  }

  /** The callback keeps exactly the stations named neither like the origin
      nor like the matched destination; with no match, only the origin's name
      is excluded. */
  lemma NotEndpointSpec(originName: string, dest: Option<Station>, s: Station)
    ensures NotEndpoint(originName, dest)(s) ==> s.name != originName
    ensures NotEndpoint(originName, dest)(s) && dest.Some? ==> s.name != dest.value.name
    ensures dest.None? ==> (NotEndpoint(originName, dest)(s) <==> s.name != originName)
    ensures dest.Some? && s.name != originName && s.name != dest.value.name ==> NotEndpoint(originName, dest)(s)
  {
  }

  /** The intermediate station: the candidates other than the origin and the
      destination, reduced towards the midpoint with the table's first entry
      (unfiltered) as the seed. */
  function MidStation(table: seq<Station>, originName: string, dest: Option<Station>,
                      midLat: real, midLng: real, hav: Metric): (m: Station)
    requires |table| > 0
    ensures m == table[0] || (m in table && NotEndpoint(originName, dest)(m))
  {
    NearestFrom(table[0], Filter(table, NotEndpoint(originName, dest)), midLat, midLng, hav)
  }

  /** `m` is what the reduce towards the midpoint picks: either a station other
      than the origin and the destination that is strictly nearer the midpoint
      than the table's first entry and nearest among such stations, or, when
      none is strictly nearer, the table's first entry itself. */
  predicate NearestCandidateOrSeed(table: seq<Station>, originName: string, dest: Option<Station>,
                                   midLat: real, midLng: real, hav: Metric, m: Station)
    requires |table| > 0
  {
    var cands := Filter(table, NotEndpoint(originName, dest));
    || (m == table[0]
        && forall c :: c in cands ==> DistanceTo(midLat, midLng, c, hav) >= DistanceTo(midLat, midLng, m, hav))
    || (&& m in table && m.name != originName && (dest.None? || m.name != dest.value.name)
        && DistanceTo(midLat, midLng, m, hav) < DistanceTo(midLat, midLng, table[0], hav)
        && forall c :: c in cands ==> DistanceTo(midLat, midLng, c, hav) >= DistanceTo(midLat, midLng, m, hav))
  }

  /** The intermediate station is either a candidate (not the origin, not the
      destination) strictly nearer the midpoint than the table's first entry
      and nearest among the candidates, or, when no candidate is strictly
      nearer, the first entry itself, whatever its name. */
  lemma MidStationSpec(table: seq<Station>, originName: string, dest: Option<Station>,
                       midLat: real, midLng: real, hav: Metric)
    requires |table| > 0
    ensures NearestCandidateOrSeed(table, originName, dest, midLat, midLng, hav,
      MidStation(table, originName, dest, midLat, midLng, hav))
  {
    var cands := Filter(table, NotEndpoint(originName, dest));
    NearestFromIsFirstNearest(table[0], cands, midLat, midLng, hav);
    var m := MidStation(table, originName, dest, midLat, midLng, hav);
    var k :| FirstNearestFrom(table[0], cands, k, midLat, midLng, hav)
      && m == if k < 0 then table[0] else cands[k];
    if k >= 0 {
      assert m in cands;
      assert NotEndpoint(originName, dest)(m);
    }
  }

  /** `originStation.lines[0]`. For a station with no lines the template
      literal would print the value `undefined`, written here as the text
      "undefined"; no directory entry is such a station
      (`DirectoryServesLines`), so on the directory this case is never
      reached. */
  function PrimaryLine(s: Station): (line: string)
    ensures |s.lines| > 0 ==> line == s.lines[0] && line in s.lines
  {
    if |s.lines| > 0 then s.lines[0] else "undefined"
  }

  /** Every directory entry serves at least one line. */
  lemma DirectoryServesLines()
    ensures forall i :: 0 <= i < |STATIONS| ==> |STATIONS[i].lines| > 0
    ensures forall s :: s in STATIONS ==> PrimaryLine(s) == s.lines[0]
  {
  }

  /** The synthesized train-and-taxi option: the origin's primary line to
      the intermediate station, then a night-tariff taxi to the destination. */
  function TrainAndTaxiOption(origin: Station, mid: Station, destName: string, trainFare: int,
                              midToDestKm: real, fullTaxiFare: int): (o: RouteOption)
    ensures o.kind == TrainAndTaxi && ShapeMatchesKind(o) && CostConsistent(o, fullTaxiFare)
    ensures o.train.value.from == origin.name && o.train.value.to == mid.name
    ensures o.train.value.fare == trainFare
    ensures o.taxi.value.fare == CalculateTaxiFare(midToDestKm, Some(true))
  {
    var line := PrimaryLine(origin);
    var midTaxiFare := CalculateTaxiFare(midToDestKm, Some(true));
    RouteOption(TrainAndTaxi,
      line + "で" + mid.name + "まで → タクシーで" + destName + "へ",
      Some(TrainSegment(line, origin.name, mid.name, "0:15", "0:30", trainFare)),
      Some(TaxiSegment(mid.name + "駅", destName, midToDestKm, midTaxiFare, EstimateTaxiDuration(midToDestKm))),
      trainFare + midTaxiFare,
      fullTaxiFare - (trainFare + midTaxiFare))
  }

  /** The synthesized taxi-only option: the whole road distance by taxi. */
  function DirectTaxiOption(origin: Station, destName: string, roadKm: real, fullTaxiFare: int): (o: RouteOption)
    ensures o.kind == TaxiOnly && ShapeMatchesKind(o) && CostConsistent(o, fullTaxiFare)
    ensures o.totalCost == fullTaxiFare && o.savings == 0
    ensures o.taxi.value.from == origin.name + "駅" && o.taxi.value.distanceKm == roadKm
  {
    RouteOption(TaxiOnly,
      "タクシーで直接" + destName + "へ",
      None,
      Some(TaxiSegment(origin.name + "駅", destName, roadKm, fullTaxiFare, EstimateTaxiDuration(roadKm))),
      fullTaxiFare,
      0)
  }

  /** The straight-line distance from the origin to the destination. */
  function StraightKm(table: seq<Station>, lat: real, lng: real, destName: string, hav: Metric): (km: real)
    ensures FindDestination(table, destName).Some? ==>
      km == hav(lat, lng, FindDestination(table, destName).value.lat, FindDestination(table, destName).value.lng)
    ensures FindDestination(table, destName).None? ==> km == hav(lat, lng, FALLBACK_LAT, FALLBACK_LNG)
  {
    var dest := FindDestination(table, destName);
    hav(lat, lng, DestinationLat(dest), DestinationLng(dest))
  }

  /** The intermediate station for a trip: the reduction towards the
      arithmetic mean of the origin and destination coordinates. */
  function IntermediateStation(table: seq<Station>, lat: real, lng: real, destName: string, hav: Metric): (m: Station)
    requires |table| > 0
    ensures m in table
  {
    var dest := FindDestination(table, destName);
    var destLat, destLng := DestinationLat(dest), DestinationLng(dest);
    MidStation(table, OriginStation(table, lat, lng, hav).name, dest, (lat + destLat) / 2.0, (lng + destLng) / 2.0, hav)
  }

  /** The intermediate station for a trip is that pick for the trip's origin
      station, its destination and the midpoint of the two. */
  lemma IntermediateStationSpec(table: seq<Station>, lat: real, lng: real, destName: string, hav: Metric)
    requires |table| > 0
    ensures NearestCandidateOrSeed(table, OriginStation(table, lat, lng, hav).name, FindDestination(table, destName),
      (lat + DestinationLat(FindDestination(table, destName))) / 2.0,
      (lng + DestinationLng(FindDestination(table, destName))) / 2.0,
      hav, IntermediateStation(table, lat, lng, destName, hav))
  {
    var dest := FindDestination(table, destName);
    var originName := OriginStation(table, lat, lng, hav).name;
    var midLat, midLng := (lat + DestinationLat(dest)) / 2.0, (lng + DestinationLng(dest)) / 2.0;
    assert IntermediateStation(table, lat, lng, destName, hav) == MidStation(table, originName, dest, midLat, midLng, hav);
    MidStationSpec(table, originName, dest, midLat, midLng, hav);
  }

  /** The road distance of the taxi leg from the intermediate station. */
  function MidToDestKm(table: seq<Station>, lat: real, lng: real, destName: string, hav: Metric): (km: real)
    requires |table| > 0
    ensures var mid, dest := IntermediateStation(table, lat, lng, destName, hav), FindDestination(table, destName);
      var exact := hav(mid.lat, mid.lng, DestinationLat(dest), DestinationLng(dest)) * 1.3;
      km - 0.05 <= exact < km + 0.05
  {
    var dest := FindDestination(table, destName);
    var mid := IntermediateStation(table, lat, lng, destName, hav);
    RoundTenth(hav(mid.lat, mid.lng, DestinationLat(dest), DestinationLng(dest)) * 1.3)
  }

  /** The two options and the baseline fare of a synthesized result. */
  function Synthesize(table: seq<Station>, lat: real, lng: real, destName: string,
                      hav: Metric, now: string): (r: SearchResult)
    requires |table| > 0
    ensures |r.options| == 2 && r.options[0].kind == TrainAndTaxi && r.options[1].kind == TaxiOnly
    ensures forall o :: o in r.options ==> CostConsistent(o, r.fullTaxiFare) && ShapeMatchesKind(o)
    ensures r.fullTaxiFare == CalculateTaxiFare(r.fullTaxiDistanceKm, Some(true))
    ensures r.options[1].totalCost == r.fullTaxiFare && r.options[1].savings == 0
    ensures r.options[1].taxi.Some? && r.options[1].taxi.value.distanceKm == r.fullTaxiDistanceKm
    ensures r.destination == destName && r.isDemo && r.searchedAt == now
  {
    var origin := OriginStation(table, lat, lng, hav);
    var straightKm := StraightKm(table, lat, lng, destName, hav);
    var roadKm := RoundTenth(straightKm * 1.3);
    var fullTaxiFare := CalculateTaxiFare(roadKm, Some(true));
    var mid := IntermediateStation(table, lat, lng, destName, hav);
    var trainFare := JsRound(straightKm * 20.0 + 150.0);
    SearchResult(
      origin.name + "駅周辺",
      destName,
      fullTaxiFare,
      roadKm,
      [ TrainAndTaxiOption(origin, mid, destName, trainFare, MidToDestKm(table, lat, lng, destName, hav), fullTaxiFare),
        DirectTaxiOption(origin, destName, roadKm, fullTaxiFare) ],
      now,
      true)
  }

  // ---------------------------------------------------------------------
  // The entry point

  /** `getMockResult(lat, lng, destName = "荻窪駅")`: the closest
      pre-authored scenario, freshly stamped, for the home station; a
      synthesized result for any other destination. `now` is the timestamp. */
  method GetMockResult(lat: real, lng: real, destName: Option<string>, hav: Metric, now: string)
    returns (r: SearchResult)
    ensures IsHomeDestination(destName.GetOr(HOME_STATION)) ==>
      exists k :: FirstClosestScenario(k, lat, lng) && r == SCENARIOS[k].result.(searchedAt := now)
    ensures !IsHomeDestination(destName.GetOr(HOME_STATION)) ==>
      r == Synthesize(STATIONS, lat, lng, destName.GetOr(HOME_STATION), hav, now)
    ensures r.isDemo && r.searchedAt == now
    ensures forall o :: o in r.options ==> CostConsistent(o, r.fullTaxiFare)
  {
    var dest := destName.GetOr(HOME_STATION);
    if IsHomeDestination(dest) {
      var closest := SCENARIOS[0];
      var minDistance: Option<real> := None;  // None is Infinity
      ghost var best := 0;
      for i := 0 to |SCENARIOS|
        invariant minDistance.None? <==> i == 0
        invariant 0 <= best < |SCENARIOS| && (i > 0 ==> best < i && closest == SCENARIOS[best])
        invariant i > 0 ==> minDistance.value == SqDistance(lat, lng, SCENARIOS[best])
        invariant forall j :: 0 <= j < best ==> SqDistance(lat, lng, SCENARIOS[j]) > SqDistance(lat, lng, SCENARIOS[best])
        invariant forall j :: 0 <= j < i ==> SqDistance(lat, lng, SCENARIOS[j]) >= SqDistance(lat, lng, SCENARIOS[best])
      {
        var d := SqDistance(lat, lng, SCENARIOS[i]);
        if minDistance.None? || d < minDistance.value {
          minDistance := Some(d);
          closest := SCENARIOS[i];
          best := i;
        }
      }
      assert FirstClosestScenario(best, lat, lng);
      ScenariosCostConsistent();
      r := closest.result.(searchedAt := now);
    } else {
      r := Synthesize(STATIONS, lat, lng, dest, hav, now);
    }
  }

  // ---------------------------------------------------------------------
  // Properties of the scenarios

  /** Every pre-authored option's total is the sum of its fares and its
      savings are measured against its scenario's full taxi fare, whose
      taxi-only option costs exactly that fare. */
  lemma ScenariosCostConsistent()
    ensures forall k :: 0 <= k < |SCENARIOS| ==>
      var res := SCENARIOS[k].result;
      && (forall o :: o in res.options ==> CostConsistent(o, res.fullTaxiFare))
      && |res.options| == 3 && res.options[2].kind == TaxiOnly
      && res.options[2].totalCost == res.fullTaxiFare
      && res.options[2].taxi.value.distanceKm == res.fullTaxiDistanceKm
      && res.isDemo && res.destination == HOME_STATION
  {
  }

  /** The Roppongi scenario lists its options out of savings order (1980
      before 5170), although the first option is the one shown as
      recommended. */
  lemma RoppongiScenarioUnsorted()
    ensures SCENARIOS[2].name == "六本木"
    ensures !SortedBySavings(SCENARIOS[2].result.options)
    ensures SCENARIOS[2].result.options[0].savings < SCENARIOS[2].result.options[1].savings
  {
    var o := SCENARIOS[2].result.options;
    assert o[0].savings == 1980 && o[1].savings == 5170;
  }

  /** The other three scenarios are in savings order. */
  lemma OtherScenariosSorted()
    ensures forall k :: 0 <= k < |SCENARIOS| && k != 2 ==> SortedBySavings(SCENARIOS[k].result.options)
  {
    forall k | 0 <= k < |SCENARIOS| && k != 2 ensures SortedBySavings(SCENARIOS[k].result.options) {
      var o := SCENARIOS[k].result.options;
      assert o[0].savings >= o[1].savings >= o[2].savings;
    }
  }

  /** The Ikebukuro scenario's direct Marunouchi line option is labelled
      train-and-taxi but has no taxi segment; every other option's shape
      matches its kind. */
  lemma IkebukuroDirectOptionShape()
    ensures SCENARIOS[3].name == "池袋"
    ensures SCENARIOS[3].result.options[0].kind == TrainAndTaxi
    ensures !ShapeMatchesKind(SCENARIOS[3].result.options[0])
    ensures forall k, i :: 0 <= k < |SCENARIOS| && 0 <= i < |SCENARIOS[k].result.options| && (k, i) != (3, 0) ==>
      ShapeMatchesKind(SCENARIOS[k].result.options[i])
  {
  }

  /** The pre-authored fares are not derived from the tariff: the 9.5 km
      Shinjuku ride is quoted at 4200 yen, while the night tariff gives 4560. */
  lemma ScenarioFaresNotFromTariff()
    ensures SCENARIOS[0].result.fullTaxiDistanceKm == 9.5
    ensures SCENARIOS[0].result.fullTaxiFare == 4200
    ensures CalculateTaxiFare(SCENARIOS[0].result.fullTaxiDistanceKm, Some(true)) == 4560
  {
    NightFareFor9_5Km();
  }

  /** An origin at the Shinjuku anchor selects the Shinjuku scenario: a 4200
      yen baseline and three options, the first saving 3980 yen. */
  lemma ShinjukuOriginSelectsShinjukuScenario()
    ensures FirstClosestScenario(0, 35.6896, 139.7006)
    ensures forall k :: FirstClosestScenario(k, 35.6896, 139.7006) ==> k == 0
    ensures var res := SCENARIOS[0].result;
      res.fullTaxiFare == 4200 && |res.options| == 3 && res.options[0].savings == 3980
  {
    var lat, lng := 35.6896, 139.7006;
    assert SqDistance(lat, lng, SCENARIOS[0]) == 0.0;
    forall k | FirstClosestScenario(k, lat, lng) ensures k == 0 {
      FirstClosestUnique(k, 0, lat, lng);
    }
  }

  // ---------------------------------------------------------------------
  // Properties of the synthesized result

  /** The synthesized train leg starts at the station nearest to the user
      (first in table order on ties); the baseline is the night tariff for
      the rounded road distance. */
  lemma SynthesizedOrigin(table: seq<Station>, lat: real, lng: real, destName: string, hav: Metric, now: string)
    requires |table| > 0
    ensures var r := Synthesize(table, lat, lng, destName, hav, now);
      exists k :: FirstNearestAt(table, k, lat, lng, hav)
        && r.options[0].train.value.from == table[k].name
        && r.options[1].taxi.value.from == table[k].name + "駅"
        && r.currentLocation == table[k].name + "駅周辺"
  {
    NearestInTable(table, lat, lng, hav);
  }

  /** The synthesized road distance is the straight-line distance to the
      destination times 1.3, to one decimal place, and the train fare is 20
      yen per straight-line km plus 150, rounded. */
  lemma SynthesizedDistance(table: seq<Station>, lat: real, lng: real, destName: string, hav: Metric, now: string)
    requires |table| > 0
    ensures var r := Synthesize(table, lat, lng, destName, hav, now);
      var straightKm := StraightKm(table, lat, lng, destName, hav);
      && r.fullTaxiDistanceKm - 0.05 <= straightKm * 1.3 < r.fullTaxiDistanceKm + 0.05
      && r.options[0].train.value.fare as real - 0.5 <= straightKm * 20.0 + 150.0 < r.options[0].train.value.fare as real + 0.5
  {
    SynthesizedLegs(table, lat, lng, destName, hav, now);
  }

  /** A destination that matches no station is taken to be Tokyo station. */
  lemma UnmatchedDestinationIsTokyo(table: seq<Station>, destName: string)
    requires forall i :: 0 <= i < |table| ==> !DestMatches(table[i], destName)
    ensures FindDestination(table, destName).None?
    ensures DestinationLat(FindDestination(table, destName)) == 35.6812
    ensures DestinationLng(FindDestination(table, destName)) == 139.7671
  {
  }

  /** The fallback coordinates are those of the directory's Tokyo station. */
  lemma FallbackIsTokyoStation()
    ensures STATIONS[0].name == "東京"
    ensures STATIONS[0].lat == FALLBACK_LAT && STATIONS[0].lng == FALLBACK_LNG
  {
  }

  /** The legs of a synthesized result in terms of the stations it picks. */
  lemma SynthesizedLegs(table: seq<Station>, lat: real, lng: real, destName: string, hav: Metric, now: string)
    requires |table| > 0
    ensures var r := Synthesize(table, lat, lng, destName, hav, now);
      var straightKm := StraightKm(table, lat, lng, destName, hav);
      && r.options[0].train.value.to == IntermediateStation(table, lat, lng, destName, hav).name
      && r.fullTaxiFare == CalculateTaxiFare(RoundTenth(straightKm * 1.3), Some(true))
      && r.options[0].train.value.fare == JsRound(straightKm * 20.0 + 150.0)
      && r.options[0].taxi.value.fare == CalculateTaxiFare(MidToDestKm(table, lat, lng, destName, hav), Some(true))
  {
  }

  /** Standing exactly at the table's first station and asking for a
      destination it matches, under a metric that is zero from a point to
      itself and never negative, the intermediate station is that first
      station (the unfiltered seed of the reduction), although the filter
      excludes the destination. */
  lemma IntermediateAtFirstStation(table: seq<Station>, destName: string, hav: Metric)
    requires |table| > 0 && DestMatches(table[0], destName)
    requires forall a, b :: hav(a, b, a, b) == 0.0
    requires forall a, b, c, d :: hav(a, b, c, d) >= 0.0
    ensures FindDestination(table, destName) == Some(table[0])
    ensures IntermediateStation(table, table[0].lat, table[0].lng, destName, hav) == table[0]
  {
    var t0 := table[0];
    var lat, lng := t0.lat, t0.lng;
    assert FindDestination(table, destName) == Some(t0);
    var origin := OriginStation(table, lat, lng, hav).name;
    var m := MidStation(table, origin, Some(t0), lat, lng, hav);
    assert m == t0 by {
      MidStationSpec(table, origin, Some(t0), lat, lng, hav);
      assert DistanceTo(lat, lng, t0, hav) == 0.0;
    }
    assert (lat + lat) / 2.0 == lat && (lng + lng) / 2.0 == lng;
  }

  /** In that position the trip has no length: both the straight-line
      distance and the taxi leg from the intermediate station are zero. */
  lemma StationsAtFirstStation(table: seq<Station>, destName: string, hav: Metric)
    requires |table| > 0 && DestMatches(table[0], destName)
    requires forall a, b :: hav(a, b, a, b) == 0.0
    requires forall a, b, c, d :: hav(a, b, c, d) >= 0.0
    ensures var lat, lng := table[0].lat, table[0].lng;
      && IntermediateStation(table, lat, lng, destName, hav) == table[0]
      && StraightKm(table, lat, lng, destName, hav) == 0.0
      && MidToDestKm(table, lat, lng, destName, hav) == 0.0
  {
    IntermediateAtFirstStation(table, destName, hav);
    var t0 := table[0];
    assert hav(t0.lat, t0.lng, t0.lat, t0.lng) == 0.0;
    assert RoundTenth(0.0 * 1.3) == 0.0;
  }

  /** In that position the baseline fare is zero and the first option costs
      150 yen more than it: the train fare of a zero-length ride. */
  lemma SynthesizedAtFirstStation(table: seq<Station>, destName: string, hav: Metric, now: string)
    requires |table| > 0 && DestMatches(table[0], destName)
    requires forall a, b :: hav(a, b, a, b) == 0.0
    requires forall a, b, c, d :: hav(a, b, c, d) >= 0.0
    ensures var r := Synthesize(table, table[0].lat, table[0].lng, destName, hav, now);
      && r.options[0].train.value.to == table[0].name
      && r.fullTaxiFare == 0
      && r.options[0].totalCost == 150
      && r.options[0].savings == -150
  {
    var lat, lng := table[0].lat, table[0].lng;
    StationsAtFirstStation(table, destName, hav);
    SynthesizedLegs(table, lat, lng, destName, hav, now);
    assert RoundTenth(0.0 * 1.3) == 0.0;
    assert JsRound(0.0 * 20.0 + 150.0) == 150;
    var r := Synthesize(table, lat, lng, destName, hav, now);
    assert CostConsistent(r.options[0], r.fullTaxiFare);
  }

  /** The same at Tokyo station, the directory's first entry, asking for
      "東京": the suggested train runs from Tokyo to Tokyo. */
  lemma SynthesizedTokyoToTokyo(hav: Metric, now: string)
    requires forall a, b :: hav(a, b, a, b) == 0.0
    requires forall a, b, c, d :: hav(a, b, c, d) >= 0.0
    ensures var r := Synthesize(STATIONS, 35.6812, 139.7671, "東京", hav, now);
      && r.options[0].train.value.to == "東京"
      && r.options[0].savings == -150
  {
    var t0 := STATIONS[0];
    assert t0.name == "東京" && t0.lat == 35.6812 && t0.lng == 139.7671;
    assert StartsWith("東京", "東京");
    assert DestMatches(t0, "東京");
    SynthesizedAtFirstStation(STATIONS, "東京", hav, now);
  }
}
