/** The parts of a directions response that the front end reads: routes made
    of legs, each leg with `distance.value` in metres and `duration.value` in
    seconds, and the two unit conversions it applies to the totals. */
module Routes {

  datatype LatLng = LatLng(lat: real, lng: real)

  /** One leg of a route. The service gives whole metres and seconds. */
  datatype Leg = Leg(distance: nat, duration: nat, start: LatLng, end: LatLng)

  datatype Route = Route(legs: seq<Leg>)

  /** The status handed to a directions callback; only `OK` is told apart. */
  datatype DirectionsStatus = OK | Failed(name: string)

  /** The request fields the front end sets itself. Travel mode (driving)
      and unit system (metric) are the same in every request and are left out. */
  datatype DirectionsRequest = DirectionsRequest(
    origin: string,
    destination: string,
    waypoints: seq<Waypoint>,
    provideRouteAlternatives: bool,
    optimizeWaypoints: bool)

  datatype Waypoint = Waypoint(location: string, stopover: bool)

  /** Sum of the legs' distances, in metres. */
  function TotalDistance(legs: seq<Leg>): nat
  {
    if |legs| == 0 then 0 else TotalDistance(legs[..|legs| - 1]) + legs[|legs| - 1].distance
  }

  /** Sum of the legs' durations, in seconds. */
  function TotalDuration(legs: seq<Leg>): nat
  {
    if |legs| == 0 then 0 else TotalDuration(legs[..|legs| - 1]) + legs[|legs| - 1].duration
  }

  /** The totals split over a concatenation of legs. */
  lemma {:induction false} TotalsOfConcat(a: seq<Leg>, b: seq<Leg>)
    ensures TotalDistance(a + b) == TotalDistance(a) + TotalDistance(b)
    ensures TotalDuration(a + b) == TotalDuration(a) + TotalDuration(b)
    decreases |b|
  {
    if |b| > 0 {
      var b' := b[..|b| - 1];
      assert (a + b)[..|a + b| - 1] == a + b';
      TotalsOfConcat(a, b');
    } else {
      assert a + b == a;
    }
  }

  /** Every leg counts, the first one and all the others. */
  lemma TotalsOfFirstAndRest(legs: seq<Leg>)
    requires |legs| > 0
    ensures TotalDistance(legs) == legs[0].distance + TotalDistance(legs[1..])
    ensures TotalDuration(legs) == legs[0].duration + TotalDuration(legs[1..])
  {
    assert legs == [legs[0]] + legs[1..];
    TotalsOfConcat([legs[0]], legs[1..]);
  }

  /** No single leg is longer, or takes longer, than the whole route. */
  lemma {:induction false} LegWithinTotals(legs: seq<Leg>, k: nat)
    requires k < |legs|
    ensures legs[k].distance <= TotalDistance(legs)
    ensures legs[k].duration <= TotalDuration(legs)
    decreases |legs|
  {
    if k < |legs| - 1 {
      LegWithinTotals(legs[..|legs| - 1], k);
    }
  }

  /** The accumulation loop over a route's legs: `distance = leg + distance`
      for each leg in turn, and the same for duration. `parseInt` on the
      service's integer values is the identity and is not modelled. */
  method SumLegs(legs: seq<Leg>) returns (distance: nat, duration: nat)
    ensures distance == TotalDistance(legs) && duration == TotalDuration(legs)
  {
    distance, duration := 0, 0;
    var j := 0;
    while j < |legs|
      invariant 0 <= j <= |legs|
      invariant distance == TotalDistance(legs[..j]) && duration == TotalDuration(legs[..j])
    {
      assert legs[..j + 1][..j] == legs[..j];
      distance := legs[j].distance + distance;
      duration := legs[j].duration + duration;
      j := j + 1;
    }
    assert legs[..j] == legs;
  }

  /** `Math.round(seconds / 60)`: the nearest whole minute, a half rounding up. */
  function RoundedMinutes(seconds: nat): (m: nat)
    ensures 60 * m <= seconds + 30 < 60 * m + 60
  {
    (seconds + 30) / 60
  }

  /** `Math.round(metres / 1000)`: the nearest whole kilometre, a half rounding up. */
  function RoundedKm(metres: nat): (km: nat)
    ensures 1000 * km <= metres + 500 < 1000 * km + 1000
  {
    (metres + 500) / 1000
  }
}
