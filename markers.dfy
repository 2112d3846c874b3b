/** The list of markers the page keeps so that it can take them off the map
    again (`markers`), and the markers a multi-stop route puts on it. */
module Markers {
  import opened Decimal
  import opened Routes

  datatype MarkerIcon = GreenDot | RedDot | YellowDot

  datatype Marker = Marker(position: LatLng, title: string, icon: MarkerIcon)

  /** The origin marker at the first leg's start, the destination marker at the
      last leg's end, then "Stop i" at the end of leg i for every leg but the last. */
  function JourneyMarkers(legs: seq<Leg>): (ms: seq<Marker>)
    requires |legs| > 0
  {
    [Marker(legs[0].start, "Origin", GreenDot), Marker(legs[|legs| - 1].end, "Destination", RedDot)]
    + StopMarkers(legs, |legs| - 1)
  }

  /** "Stop 1" .. "Stop n" at the ends of the first n legs. */
  function StopMarkers(legs: seq<Leg>, n: nat): (ms: seq<Marker>)
    requires n <= |legs|
    ensures |ms| == n
  {
    if n == 0 then [] else StopMarkers(legs, n - 1) + [Marker(legs[n - 1].end, "Stop " + NatToString(n), YellowDot)]
  }

  /** A route with n legs gets n + 1 markers: one per stop it passes through,
      the origin and the destination, each stop once and in order. */
  lemma JourneyMarkersCount(legs: seq<Leg>)
    requires |legs| > 0
    ensures |JourneyMarkers(legs)| == |legs| + 1
    ensures forall k :: 0 <= k < |legs| - 1 ==>
      JourneyMarkers(legs)[k + 2] == Marker(legs[k].end, "Stop " + NatToString(k + 1), YellowDot)
  {
    forall k | 0 <= k < |legs| - 1
      ensures JourneyMarkers(legs)[k + 2] == Marker(legs[k].end, "Stop " + NatToString(k + 1), YellowDot)
    {
      StopMarkersAt(legs, |legs| - 1, k);
    }
  }

  lemma {:induction false} StopMarkersAt(legs: seq<Leg>, n: nat, k: nat)
    requires k < n <= |legs|
    ensures StopMarkers(legs, n)[k] == Marker(legs[k].end, "Stop " + NatToString(k + 1), YellowDot)
    decreases n
  {
    if k < n - 1 {
      StopMarkersAt(legs, n - 1, k);
    }
  }

  class MarkerLayer {
    var markers: seq<Marker>

    constructor ()
      ensures markers == []
    {
      markers := [];
    }

    /** `clearMarkers`: every marker is taken off the map and the list emptied. */
    method ClearMarkers()
      modifies this
      ensures markers == []
    {
      markers := [];
    }

    /** `addMarker`: one new marker at the end of the list. */
    method AddMarker(position: LatLng, title: string, icon: MarkerIcon) returns (marker: Marker)
      modifies this
      ensures marker == Marker(position, title, icon)
      ensures markers == old(markers) + [marker]
    {
      marker := Marker(position, title, icon);
      markers := markers + [marker];
    }

    /** The markers of a multi-stop route, added one by one. */
    method AddJourneyMarkers(legs: seq<Leg>)
      requires |legs| > 0
      modifies this
      ensures markers == old(markers) + JourneyMarkers(legs)
      ensures |markers| == |old(markers)| + |legs| + 1
    {
      var _ := AddMarker(legs[0].start, "Origin", GreenDot);
      var _ := AddMarker(legs[|legs| - 1].end, "Destination", RedDot);
      ghost var before := old(markers) + [Marker(legs[0].start, "Origin", GreenDot),
                                          Marker(legs[|legs| - 1].end, "Destination", RedDot)];
      var i := 0;
      while i < |legs| - 1
        invariant 0 <= i <= |legs| - 1
        invariant markers == before + StopMarkers(legs, i)
      {
        var _ := AddMarker(legs[i].end, "Stop " + NatToString(i + 1), YellowDot);
        i := i + 1;
      }
    }
  }
}
