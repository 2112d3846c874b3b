/** The multi-stop button and its directions callback, acting on the form
    and on the marker list. */
module Page {
  import opened Wrappers
  import opened JsString
  import opened Routes
  import opened TravelTime
  import opened Journey
  import opened Markers
  import opened Waypoints

  class MultiStopPage {
    const form: WaypointForm
    const layer: MarkerLayer

    constructor ()
      ensures fresh(form) && fresh(layer)
      ensures form.Valid() && form.waypointCount == 0 && layer.markers == []
    {
      form := new WaypointForm();
      layer := new MarkerLayer();
    }

    /** `calculateFullRoute` up to the request: once origin and destination
        are present the markers are cleared, before the stops are checked.
        Because stop ids have no gaps, every stop 1..waypointCount is found,
        checked and sent. */
    method CalculateFullRoute() returns (plan: Plan)
      requires form.Valid()
      modifies layer
      ensures plan.MissingOrigin? || plan.MissingDestination? ==> layer.markers == old(layer.markers)
      ensures !(plan.MissingOrigin? || plan.MissingDestination?) ==> layer.markers == []
      ensures plan.MissingOrigin? <==> form.origin == ""
      ensures plan.MissingDestination? <==> form.origin != "" && form.destination == ""
      ensures plan.MissingStop? ==>
        && 1 <= plan.stop <= form.waypointCount
        && Blank(form.stops[plan.stop - 1])
        && AllFilled(form.stops[..plan.stop - 1])
      ensures plan.SingleRoute? <==> form.origin != "" && form.destination != "" && form.waypointCount == 0
      ensures plan.Send? ==>
        && AllFilled(form.stops)
        && plan.request == DirectionsRequest(form.origin, form.destination, Stopovers(form.stops), false, false)
        && |plan.request.waypoints| == form.waypointCount
    {
      assert PresentStops(form.stops, form.waypointCount) == form.stops;
      plan := PlanJourney(form.origin, form.destination, form.stops, form.waypointCount);
      if !(plan.MissingOrigin? || plan.MissingDestination?) {
        layer.ClearMarkers();
      }
    }

    /** The callback of the multi-stop request that carried `stopCount` stops:
        markers go on the map before the totals are worked out, for any first
        route with legs, so they stay even when the breakdown then throws. */
    method OnFullRouteResponse(status: DirectionsStatus, routes: seq<Route>, stopCount: nat)
      returns (out: JourneyOutcome)
      modifies layer
      ensures out.Shown? <==>
        status.OK? && routes != [] && routes[0].legs != [] && |routes[0].legs| >= stopCount
      ensures out.Shown? || out.BreakdownThrows? <==> status.OK? && routes != [] && routes[0].legs != []
      ensures out.Shown? || out.BreakdownThrows? ==>
        layer.markers == old(layer.markers) + JourneyMarkers(routes[0].legs)
      ensures !(out.Shown? || out.BreakdownThrows?) ==> layer.markers == old(layer.markers)
      ensures status.Failed? ==> out == RouteAlert
      ensures status.OK? && routes == [] ==> out == NothingShown
      ensures status.OK? && routes != [] && routes[0].legs == [] ==> out == Aborted
      ensures out.Shown? ==>
        && out.totalDistance == TotalDistance(routes[0].legs)
        && out.totalMinutes == RoundedMinutes(TotalDuration(routes[0].legs))
        && out.hours * 60 + out.minutes == out.totalMinutes && out.minutes < 60
        && out.timeText == TimeText(out.totalMinutes)
        && ParseTime(out.timeText) == Some(out.totalMinutes)
    {
      out := SummarizeJourney(status, routes, stopCount);
      if out.Shown? || out.BreakdownThrows? {
        layer.AddJourneyMarkers(routes[0].legs);
      }
    }
  }
}
