/** `CalculateDistanceforAllAlternativeRoutes`: the request for alternative
    routes and the callback that totals every alternative, ranks them by
    distance and reports the longest. */
module Alternatives {
  import opened Wrappers
  import opened Decimal
  import opened Words
  import opened Routes
  import opened Ranking

  /** What the callback writes into the `output` element. */
  datatype LongestOutput =
    | Longest(km: nat, best: RouteSummary)  // "<km> KM", and `best.route` is highlighted
    | NoRoutesFound
    | CouldNotCalculate

  /** The request is only made when both fields hold some text. */
  function AlternativesRequest(origin: string, destination: string): (r: Option<DirectionsRequest>)
    ensures r.Some? <==> origin != "" && destination != ""
    ensures r.Some? ==> r.value.origin == origin && r.value.destination == destination
    ensures r.Some? ==> r.value.waypoints == [] && r.value.provideRouteAlternatives
  {
    if origin == "" || destination == "" then None
    else Some(DirectionsRequest(origin, destination, [], true, true))
  }

  /** The summary built for `routes[i]`. */
  function SummaryOf(i: nat, route: Route): RouteSummary
  {
    RouteSummary(i, TotalDistance(route.legs), RoundedMinutes(TotalDuration(route.legs)), route)
  }

  function Summaries(routes: seq<Route>): (s: seq<RouteSummary>)
    ensures |s| == |routes| && IndexOrdered(s)
  {
    seq(|routes|, i requires 0 <= i < |routes| => SummaryOf(i, routes[i]))
  }

  /** The head of the ranking is the longest alternative, and among equally
      long ones the one the service listed first. */
  lemma LongestIsEarliestMaximum(routes: seq<Route>)
    requires |routes| > 0
    ensures var best := SortByDistance(Summaries(routes))[0];
      && best.index < |routes|
      && best == SummaryOf(best.index, routes[best.index])
      && (forall i :: 0 <= i < |routes| ==> TotalDistance(routes[i].legs) <= best.distance)
      && (forall i :: 0 <= i < best.index ==> TotalDistance(routes[i].legs) < best.distance)
  {
    var s := Summaries(routes);
    var r := SortByDistance(s);
    SortRanked(s);
    HeadIsAmong(s, r);
    forall i | 0 <= i < |routes|
      ensures TotalDistance(routes[i].legs) <= r[0].distance
      ensures i < r[0].index ==> TotalDistance(routes[i].legs) < r[0].distance
    {
      assert s[i] == SummaryOf(i, routes[i]);
      HeadPrecedes(s, r, i);
    }
  }

  lemma HeadIsAmong(s: seq<RouteSummary>, r: seq<RouteSummary>)
    requires |s| > 0 && multiset(r) == multiset(s)
    ensures exists b :: 0 <= b < |s| && s[b] == r[0]
  {
    assert |r| == |s|;
    assert r[0] in multiset(s);
  }

  lemma HeadPrecedes(s: seq<RouteSummary>, r: seq<RouteSummary>, i: nat)
    requires i < |s| && multiset(r) == multiset(s) && Ranked(r)
    ensures |r| > 0 && (s[i] == r[0] || Precedes(r[0], s[i]))
  {
    assert s[i] in multiset(r);
    var p :| 0 <= p < |r| && r[p] == s[i];
    if p > 0 {
      assert Precedes(r[0], r[p]);
    }
  }

  /** The text written into the `output` element. */
  function OutputText(out: LongestOutput): string
  {
    match out
    case Longest(km, _) => NatToString(km) + " KM"
    case NoRoutesFound => "No routes found"
    case CouldNotCalculate => "Error: " + "Could not calculate route. Please try again."
  }

  /** The number at the front of a displayed text, if it starts with one. */
  function LeadingNumber(text: string): Option<nat>
  {
    ReadCount(Split(text)[0])
  }

  /** The displayed text starts with a number exactly when a longest route
      was found, and that number is its rounded kilometres. */
  lemma OutputTextGivesKm(out: LongestOutput)
    ensures LeadingNumber(OutputText(out)) == if out.Longest? then Some(out.km) else None
  {
    var t := OutputText(out);
    if out.Longest? {
      var ds := NatToString(out.km);
      NatToStringDigits(out.km);
      assert t == ds + " " + "KM";
      FirstSpaceOfWord(ds, "KM");
      assert t[..|ds|] == ds;
      ReadCountOfNatToString(out.km);
    } else {
      if out.NoRoutesFound? {
        assert t == "No routes found";
        assert t[0] == 'N';
      } else {
        assert t[0] == 'E';
      }
      var i := FirstSpace(t);
      assert i > 0;
      assert Split(t)[0][0] == t[0];
    }
  }

  /** The directions callback: on `OK`, total every alternative's legs, build
      the summaries, rank them and report the first; otherwise report the error. */
  method LongestAlternative(status: DirectionsStatus, routes: seq<Route>) returns (out: LongestOutput)
    ensures status.Failed? ==> out == CouldNotCalculate
    ensures status.OK? && |routes| == 0 ==> out == NoRoutesFound
    ensures status.OK? && |routes| > 0 ==>
      && out.Longest?
      && out.best == SortByDistance(Summaries(routes))[0]
      && out.km == RoundedKm(out.best.distance)
      && out.best.index < |routes|
      && out.best == SummaryOf(out.best.index, routes[out.best.index])
      && (forall i :: 0 <= i < |routes| ==> TotalDistance(routes[i].legs) <= out.best.distance)
      && (forall i :: 0 <= i < out.best.index ==> TotalDistance(routes[i].legs) < out.best.distance)
  {
    if status.Failed? {
      return CouldNotCalculate;
    }
    var routeDetails: seq<RouteSummary> := [];
    var i := 0;
    while i < |routes|
      invariant 0 <= i <= |routes|
      invariant |routeDetails| == i
      invariant forall k :: 0 <= k < i ==> routeDetails[k] == SummaryOf(k, routes[k])
    {
      var distance, duration := SumLegs(routes[i].legs);
      routeDetails := routeDetails + [RouteSummary(i, distance, RoundedMinutes(duration), routes[i])];
      i := i + 1;
    }
    assert routeDetails == Summaries(routes);
    routeDetails := SortByDistance(routeDetails);
    if |routes| > 0 {
      LongestIsEarliestMaximum(routes);
      out := Longest(RoundedKm(routeDetails[0].distance), routeDetails[0]);
    } else {
      out := NoRoutesFound;
    }
  }

  /** Two alternatives of 10 km / 10 min and 25 km / 25 min: the second is
      reported, as 25 KM; two equally long alternatives: the first is reported. */
  lemma LongestExamples(a: LatLng, b: LatLng)
    ensures var routes := [Route([Leg(10000, 600, a, b)]), Route([Leg(25000, 1500, a, b)])];
      var best := SortByDistance(Summaries(routes))[0];
      best.index == 1 && best.duration == 25 && RoundedKm(best.distance) == 25
    ensures var routes := [Route([Leg(7000, 60, a, b)]), Route([Leg(3000, 60, a, b), Leg(4000, 60, a, b)])];
      SortByDistance(Summaries(routes))[0].index == 0
  {
    var routes := [Route([Leg(10000, 600, a, b)]), Route([Leg(25000, 1500, a, b)])];
    var s := Summaries(routes);
    assert TotalDuration(routes[1].legs) == 1500;
    assert s[0].distance == 10000 && s[1].distance == 25000 && s[1].duration == 25;
    assert s[1..][1..] == [];
    var ties := [Route([Leg(7000, 60, a, b)]), Route([Leg(3000, 60, a, b), Leg(4000, 60, a, b)])];
    var t := Summaries(ties);
    TotalsOfFirstAndRest(ties[1].legs);
    assert t[0].distance == 7000 && t[1].distance == 7000;
    assert t[1..][1..] == [];
  }
}
