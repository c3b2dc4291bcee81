/**
 * Server locations of the management server: latitude-based latency tiers, the
 * capped load percentages of a location and of a server, the location-ID path
 * parameter, and the sample list served when no location is stored.
 *
 * Coordinates and percentages are reals (IEEE rounding is not modelled); query
 * results are parameters, None standing for a failed query.
 */
module Locations {
  import opened Wrappers
  import opened GoStrings

  // ---------------------------------------------------------------------------
  // Latency and load

  const BaseLatency: int := 50

  /** estimateLatency: 150 beyond 50 degrees, 100 beyond 30 degrees, else 50; longitude is unused. */
  function EstimateLatency(latitude: real, longitude: real): (r: int)
    ensures r == 50 || r == 100 || r == 150
    ensures r == 150 <==> latitude > 50.0 || latitude < -50.0
    ensures r == 100 <==> (30.0 < latitude <= 50.0) || (-50.0 <= latitude < -30.0)
    ensures r == 50 <==> -30.0 <= latitude <= 30.0
  {
    if latitude > 50.0 || latitude < -50.0 then BaseLatency + 100
    else if latitude > 30.0 || latitude < -30.0 then BaseLatency + 50
    else BaseLatency
  }

  /** The tiers are symmetric about the equator and grow away from it. */
  lemma LatencyMonotoneInDistance(lat1: real, lat2: real, lon1: real, lon2: real)
    requires (if lat1 < 0.0 then -lat1 else lat1) <= (if lat2 < 0.0 then -lat2 else lat2)
    ensures EstimateLatency(lat1, lon1) <= EstimateLatency(lat2, lon2)
    ensures EstimateLatency(lat1, lon1) == EstimateLatency(-lat1, lon2)
  {
  }

  /** A location's load: users over a capacity of 100, as a percentage, capped at 100. */
  function LocationLoad(userCount: int): (r: real)
    ensures r <= 100.0
    ensures userCount >= 0 ==> 0.0 <= r
    ensures userCount <= 100 ==> r == userCount as real
    ensures userCount >= 100 ==> r == 100.0
  {
    var load := userCount as real / 100.0 * 100.0;
    if load > 100.0 then 100.0 else load
  }

  /** A server's load: users over a capacity of 50, as a percentage, capped at 100. */
  function ServerLoad(userCount: int): (r: real)
    ensures r <= 100.0
    ensures userCount >= 0 ==> 0.0 <= r
    ensures userCount <= 50 ==> r == 2.0 * userCount as real
    ensures userCount >= 50 ==> r == 100.0
  {
    var load := userCount as real / 50.0 * 100.0;
    if load > 100.0 then 100.0 else load
  }

  // ---------------------------------------------------------------------------
  // Locations with metadata

  datatype Location = Location(
    id: int, country: string, city: string, countryCode: string,
    latitude: real, longitude: real, enabled: bool,
    serverCount: int, loadPercentage: real, estimatedLatency: int)

  /** A stored row; a null coordinate is None. */
  datatype LocationRow = LocationRow(
    id: int, country: string, city: string, countryCode: string,
    latitude: Option<real>, longitude: Option<real>, enabled: bool)

  /** The per-location query answers; None is a failed query. */
  datatype LocationCounts = LocationCounts(serverCount: Option<int>, userCount: Option<int>)

  function OrZero(x: Option<real>): real {
    if x.Some? then x.value else 0.0
  }

  /**
   * A scanned row after enrichLocationMetadata. A failed server count ends the
   * enrichment early, leaving load and latency at zero; a failed user count
   * leaves only the load at zero.
   */
  function EnrichLocation(row: LocationRow, counts: LocationCounts): (loc: Location)
    ensures loc.id == row.id && loc.latitude == OrZero(row.latitude) && loc.longitude == OrZero(row.longitude)
    ensures counts.serverCount.None? ==> loc.serverCount == 0 && loc.loadPercentage == 0.0 && loc.estimatedLatency == 0
    ensures counts.serverCount.Some? ==> (
      && loc.serverCount == counts.serverCount.value
      && loc.estimatedLatency == EstimateLatency(loc.latitude, loc.longitude)
      && loc.loadPercentage == (if counts.userCount.Some? then LocationLoad(counts.userCount.value) else 0.0))
  {
    var base := Location(row.id, row.country, row.city, row.countryCode,
                         OrZero(row.latitude), OrZero(row.longitude), row.enabled, 0, 0.0, 0);
    if counts.serverCount.None? then base
    else
      var withCount := base.(serverCount := counts.serverCount.value);
      var withLoad := if counts.userCount.Some? then withCount.(loadPercentage := LocationLoad(counts.userCount.value))
                      else withCount;
      withLoad.(estimatedLatency := EstimateLatency(withLoad.latitude, withLoad.longitude))
  }

  /** generateSampleLocations */
  function SampleLocations(): (r: seq<Location>)
    ensures |r| == 4
    ensures forall k | 0 <= k < 4 :: r[k].id == k + 1 && r[k].enabled
  {
    [
      Location(1, "United States", "New York", "US", 40.7128, -74.0060, true, 3, 45.5, 25),
      Location(2, "United Kingdom", "London", "GB", 51.5074, -0.1278, true, 2, 62.3, 85),
      Location(3, "Singapore", "Singapore", "SG", 1.3521, 103.8198, true, 2, 38.7, 180),
      Location(4, "Germany", "Frankfurt", "DE", 50.1109, 8.6821, true, 4, 55.2, 95)
    ]
  }

  /** The fixed latencies of the samples are not the estimator's tiers for their coordinates. */
  lemma SampleLatenciesAreNotEstimates(k: nat)
    requires k < 4
    ensures SampleLocations()[k].estimatedLatency
            != EstimateLatency(SampleLocations()[k].latitude, SampleLocations()[k].longitude)
  {
  }

  /**
   * getServerLocationsWithMetadata: each enabled row, enriched, in query order;
   * the sample list when there is none.
   */
  function ListLocations(rows: seq<LocationRow>, counts: seq<LocationCounts>): (r: seq<Location>)
    requires |counts| == |rows|
    ensures rows == [] ==> r == SampleLocations()
    ensures rows != [] ==> |r| == |rows| && forall k | 0 <= k < |rows| :: r[k] == EnrichLocation(rows[k], counts[k])
    ensures |r| >= 1
  {
    if rows == [] then SampleLocations()
    else seq(|rows|, k requires 0 <= k < |rows| => EnrichLocation(rows[k], counts[k]))
  }

  // ---------------------------------------------------------------------------
  // Location ID parameter

  const LocationsPrefix: string := "/vpn/locations/"

  datatype LocationIdError = LocationIdRequired | InvalidLocationId

  /**
   * handleLocationServers: the first '/'-separated piece after the prefix must be
   * non-empty and an integer (strconv.Atoi).
   */
  function ParseLocationId(path: string): (r: Result<int, LocationIdError>)
    ensures var first := Split(TrimPrefix(path, LocationsPrefix), '/')[0];
      && (r == Err(LocationIdRequired) <==> first == "")
      && (r.Ok? <==> Atoi(first).Some?)
      && (r.Ok? ==> Atoi(first) == Some(r.value))
  {
    var pathParts := Split(TrimPrefix(path, LocationsPrefix), '/');
    if |pathParts| < 1 || pathParts[0] == "" then Err(LocationIdRequired)
    else
      var id := Atoi(pathParts[0]);
      if id.None? then Err(InvalidLocationId) else Ok(id.value)
  }

  /** The servers path built from any 64-bit ID reads that ID back. */
  lemma LocationIdRoundTrip(id: int)
    requires MinInt64 <= id <= MaxInt64
    ensures ParseLocationId(LocationsPrefix + FormatInt(id) + "/servers") == Ok(id)
  {
    var digits := FormatInt(id);
    var path := LocationsPrefix + digits + "/servers";
    assert HasPrefix(path, LocationsPrefix);
    assert TrimPrefix(path, LocationsPrefix) == digits + ['/'] + "servers";
    assert '/' !in digits by {
      var m: nat := if id < 0 then -id else id;
      assert AllDigits(Digits(m));
      assert digits == Digits(m) || digits == "-" + Digits(m);
    }
    SplitAt(digits, '/', "servers");
    AtoiFormatInt(id);
  }
}
