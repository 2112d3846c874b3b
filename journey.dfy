/** `calculateFullRoute`: the checks made on the form before a multi-stop
    request is sent, and the totals shown when the route comes back. */
module Journey {
  import opened Wrappers
  import opened JsString
  import opened Routes
  import opened TravelTime

  /** What pressing the button leads to. */
  datatype Plan =
    | MissingOrigin           // alert 'Please enter an origin address'
    | MissingDestination      // alert 'Please enter a final destination address'
    | MissingStop(stop: nat)  // alert 'Please enter an address for Stop <stop>'
    | SingleRoute             // no stops: the single-route calculation takes over
    | Send(request: DirectionsRequest)

  function Min(a: nat, b: nat): nat
  {
    if a < b then a else b
  }

  /** The stop inputs the loop finds: input `waypoint-i` is `inputs[i - 1]`
      when `i <= |inputs|` and is missing otherwise; the loop asks for ids
      1 to `waypointCount`. */
  function PresentStops(inputs: seq<string>, waypointCount: nat): seq<string>
  {
    inputs[..Min(waypointCount, |inputs|)]
  }

  /** Each stop as `{location: value, stopover: true}`, in input order. */
  function Stopovers(stops: seq<string>): (ws: seq<Waypoint>)
    ensures |ws| == |stops|
  {
    if stops == [] then [] else Stopovers(stops[..|stops| - 1]) + [Waypoint(stops[|stops| - 1], true)]
  }

  lemma {:induction false} StopoversAt(stops: seq<string>, k: nat)
    requires k < |stops|
    ensures Stopovers(stops)[k] == Waypoint(stops[k], true)
    decreases |stops|
  {
    if k < |stops| - 1 {
      StopoversAt(stops[..|stops| - 1], k);
    }
  }

  /** No stop value trims to nothing. */
  predicate AllFilled(stops: seq<string>)
  {
    stops == [] || (AllFilled(stops[..|stops| - 1]) && !Blank(stops[|stops| - 1]))
  }

  lemma {:induction false} AllFilledAt(stops: seq<string>, k: nat)
    requires AllFilled(stops) && k < |stops|
    ensures !Blank(stops[k])
    decreases |stops|
  {
    if k < |stops| - 1 {
      AllFilledAt(stops[..|stops| - 1], k);
    }
  }

  /** The checks, in the order the source makes them: an empty origin, then an
      empty destination (both tested with `!value`, so text made only of spaces
      passes), then the first stop whose value trims to nothing; then either the
      single-route path or a request with every stop, in order, as a stopover. */
  method PlanJourney(origin: string, destination: string, inputs: seq<string>, waypointCount: nat)
    returns (plan: Plan)
    ensures plan == MissingOrigin <==> origin == ""
    ensures plan == MissingDestination <==> origin != "" && destination == ""
    ensures plan.MissingStop? <==>
      origin != "" && destination != "" && !AllFilled(PresentStops(inputs, waypointCount))
    ensures plan.MissingStop? ==>
      var stops := PresentStops(inputs, waypointCount);
      && 1 <= plan.stop <= |stops|
      && Blank(stops[plan.stop - 1])
      && AllFilled(stops[..plan.stop - 1])
    ensures plan.SingleRoute? <==>
      origin != "" && destination != "" && PresentStops(inputs, waypointCount) == []
    ensures plan.Send? ==>
      var stops := PresentStops(inputs, waypointCount);
      && stops != [] && AllFilled(stops)
      && plan.request == DirectionsRequest(origin, destination, Stopovers(stops), false, false)
  {
    if origin == "" {
      return MissingOrigin;
    }
    if destination == "" {
      return MissingDestination;
    }
    ghost var stops := PresentStops(inputs, waypointCount);
    ghost var found := 0;  // how many of the ids tried so far have an input
    var waypoints: seq<Waypoint> := [];
    var i := 1;
    while i <= waypointCount
      invariant 1 <= i <= waypointCount + 1
      invariant found == Min(i - 1, |inputs|) && found <= |stops|
      invariant AllFilled(stops[..found])
      invariant waypoints == Stopovers(stops[..found])
    {
      if i <= |inputs| {
        var value := inputs[i - 1];
        assert value == stops[found];
        if Blank(value) {
          FirstBlankStops(stops, found);
          return MissingStop(i);
        }
        assert stops[..found + 1][..found] == stops[..found];
        waypoints := waypoints + [Waypoint(value, true)];
        found := found + 1;
      }
      i := i + 1;
    }
    assert stops[..found] == stops;
    if |waypoints| == 0 {
      return SingleRoute;
    }
    plan := Send(DirectionsRequest(origin, destination, waypoints, false, false));
  }

  /** A blank stop after filled ones leaves the whole list not filled. */
  lemma FirstBlankStops(stops: seq<string>, k: nat)
    requires k < |stops| && AllFilled(stops[..k]) && Blank(stops[k])
    ensures !AllFilled(stops)
  {
    if AllFilled(stops) {
      AllFilledAt(stops, k);
    }
  }

  /** What the multi-stop callback shows. */
  datatype JourneyOutcome =
    | Shown(totalDistance: nat, totalMinutes: nat, hours: nat, minutes: nat, timeText: string)
    | NothingShown     // status OK without a route: the callback stops there
    | Aborted          // the first route has no legs: reading `legs[0].start_location` throws
    | BreakdownThrows  // fewer legs than stops sent: the breakdown reads `legs[i].end_address`
                       // past the last leg and throws once the markers are placed, before
                       // any total is written
    | RouteAlert       // alert 'Could not display route. Please try again with valid addresses.'

  /** The multi-stop callback for a request that carried `stopCount` stops: on
      `OK` with a route, the first route's legs are totalled, the seconds rounded
      to minutes and the minutes split into hours and minutes for the time text.
      The journey breakdown then reads `legs[i]` for every stop `i`, which throws
      when the route has fewer legs than stops. The distance stays in metres. */
  method SummarizeJourney(status: DirectionsStatus, routes: seq<Route>, stopCount: nat)
    returns (out: JourneyOutcome)
    ensures status.Failed? ==> out == RouteAlert
    ensures status.OK? && routes == [] ==> out == NothingShown
    ensures status.OK? && routes != [] && routes[0].legs == [] ==> out == Aborted
    ensures status.OK? && routes != [] && routes[0].legs != [] && |routes[0].legs| < stopCount ==>
      out == BreakdownThrows
    ensures status.OK? && routes != [] && routes[0].legs != [] && |routes[0].legs| >= stopCount ==>
      && out.Shown?
      && out.totalDistance == TotalDistance(routes[0].legs)
      && out.totalMinutes == RoundedMinutes(TotalDuration(routes[0].legs))
      && out.hours * 60 + out.minutes == out.totalMinutes && out.minutes < 60
      && out.timeText == TimeText(out.totalMinutes)
      && ParseTime(out.timeText) == Some(out.totalMinutes)
  {
    if status.Failed? {
      return RouteAlert;
    }
    if |routes| == 0 {
      return NothingShown;
    }
    var legs := routes[0].legs;
    if |legs| == 0 {
      return Aborted;
    }
    var totalDistance, totalDuration := SumLegs(legs);
    var totalDurationMin := RoundedMinutes(totalDuration);
    var (hours, minutes) := SplitHours(totalDurationMin);
    TimeTextRoundTrip(totalDurationMin);
    if |legs| < stopCount {
      return BreakdownThrows;
    }
    out := Shown(totalDistance, totalDurationMin, hours, minutes, TimeText(totalDurationMin));
  }
}
