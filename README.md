# Route distance page: a verified model of its own logic

`googleMapDistanceApi.js` is the script of a single web page. The page drives
Google Maps and is mostly calls into the Maps SDK and the DOM. This project
models the three pieces of logic the script has of its own, plus its marker
list:

- **Longest alternative** (`CalculateDistanceforAllAlternativeRoutes`). The
  page asks the directions service for alternative routes. It totals every
  route's legs, converts metres to kilometres and seconds to rounded
  minutes, and builds one summary `{index, distance, duration, route}` per
  route. It sorts the summaries by distance, longest first, and writes the
  longest distance rounded to whole kilometres, as `"<km> KM"`. If there is no route it writes "No routes found";
  on a failed status it writes an error text.
- **Multi-stop journey** (`calculateFullRoute`):
  - the checks on the form, in order: origin, destination, then every stop
    `waypoint-1 .. waypoint-N`;
  - the request, with every stop as a stopover in input order;
  - on response, the totals over all legs of the first route, the split of
    the total minutes into hours and minutes, and the text
    "N hour(s) M min(s)";
  - the markers placed for the origin, the destination and each stop.
- **Waypoint form** (`addWaypoint`, `createWaypoint`, `removeWaypoint`). A
  stack of stop fields. Adding the first stop moves the destination into it;
  removing the only stop can move its text back. The form keeps a counter,
  a list of autocomplete entries and a remove button in step with the stops.
- **Marker list** (`clearMarkers`, `addMarker`): the global `markers` array.

Modules, one per file:

- `wrappers.dfy`: `Option`.
- `decimal.dfy`: how JavaScript writes a whole number as decimal digits, and
  how to read it back.
- `words.dfy`: splitting a text at single spaces and joining words with them.
- `routes.dfy`: legs and routes, their totals, and the two `Math.round`
  conversions.
- `ranking.dfy`: the summaries and `Array.prototype.sort` with the
  `b.distance - a.distance` comparator, as a stable insertion sort.
- `alternatives.dfy`: the longest-alternative request and callback.
- `js_string.dfy`: `String.prototype.trim` and the test `value.trim() === ''`.
- `travel_time.dfy`: the journey time text, and a reader for it.
- `journey.dfy`: the checks made before a multi-stop request, and the
  totals computed from its response.
- `markers.dfy`: the marker list as a class.
- `waypoints.dfy`: the waypoint form as a class.
- `page.dfy`: the multi-stop button and callback, acting on the form and the
  marker list.

The response handling reads only immutable response data. It is modelled as
methods with loops that mirror the script's loops, each proved against a
pure specification function (`TotalDistance`, `Summaries`,
`SortByDistance`, `TimeText`). The facts the page promises are lemmas about
those functions. The global state that the script changes in place
(`waypointCount`, `waypointAutocompletes`, the input values, the remove
button, `markers`) is held by classes. Their methods state the whole new
state.

Units: distances are whole metres and durations whole seconds, as the
directions service reports them. The script divides a distance by 1000
before it sorts; the model keeps metres. Division by a positive constant
does not change the order, so the result is the same. `Math.round(x / k)`
on whole numbers is `(x + k / 2) / k` in integer division.

Where the code and the page's intended behaviour differ, the model follows
the code:

- `calculateFullRoute` rejects the origin and the destination only when
  they are empty (`!value`). A field holding only spaces passes; only the
  stops are trimmed before they are checked.
- When the first route of a multi-stop response has no legs, reading
  `legs[0].start_location` throws. The callback then stops before showing
  anything (`Aborted`).
- The journey breakdown reads `legs[i].end_address` for every stop sent
  (lines 951-954). When the first route has fewer legs than stops, that read
  throws after the markers are placed and before any total is written
  (`BreakdownThrows`).

## Model

| member | source | states |
|---|---|---|
| Routes.SumLegs | googleMapDistanceApi.js:501-508 | The loop that adds every leg's distance and duration ends with the totals over all of the legs, not only the first. The same loop is at lines 912-915. |
| Routes.TotalsOfConcat | googleMapDistanceApi.js:504-507 | The totals of two runs of legs placed end to end are the sums of their totals. |
| Routes.TotalsOfFirstAndRest | googleMapDistanceApi.js:504-507 | A route's total is its first leg plus the total of the remaining legs, so every leg counts. |
| Routes.LegWithinTotals | googleMapDistanceApi.js:504-507 | No single leg is longer, or takes longer, than the route it belongs to. |
| Routes.RoundedMinutes | googleMapDistanceApi.js:512 | `Math.round(seconds / 60)`: the result m satisfies 60m <= seconds + 30 < 60m + 60, the nearest minute with a half rounding up. |
| Routes.RoundedKm | googleMapDistanceApi.js:535 | `Math.round(metres / 1000)`: the result km satisfies 1000km <= metres + 500 < 1000km + 1000. |
| Ranking.Insert | googleMapDistanceApi.js:524-526 | One insertion step of the sort: the result holds the same summaries plus the inserted one (multiset equality). |
| Ranking.SortByDistance | googleMapDistanceApi.js:524-526 | The sorted list is a permutation of the summaries (multiset equality). |
| Ranking.InsertRanked | googleMapDistanceApi.js:524-526 | Inserting a summary whose index is below every index in a ranked list keeps the list ranked: longer first, and on a tie the lower index first. |
| Ranking.SortRanked | googleMapDistanceApi.js:524-526 | Sorting summaries listed in index order with the `b.distance - a.distance` comparator gives a ranked list. This is the stable sort: ties keep the service's order. |
| Alternatives.AlternativesRequest | googleMapDistanceApi.js:476-490 | A request is made exactly when origin and destination are both non-empty. It carries those two texts, no stops, and asks for alternatives. |
| Alternatives.Summaries | googleMapDistanceApi.js:510-519 | There is one summary per route, and the summaries are listed in index order. |
| Alternatives.LongestIsEarliestMaximum | googleMapDistanceApi.js:524-529 | The head of the sorted summaries describes `routes[index]` for its own index. Its distance is at least every route's total. Every route listed before it is strictly shorter, so the earliest longest route wins. |
| Alternatives.OutputTextGivesKm | googleMapDistanceApi.js:533-546 | The output text starts with a number exactly when a longest route was found, and that number is its rounded kilometres. "No routes found" and the error text start with no number. |
| Alternatives.LongestAlternative | googleMapDistanceApi.js:492-548 | The callback. A failed status gives the error text. OK with no routes gives "No routes found". Otherwise the result is the head of the sorted summaries, shown as its rounded kilometres. It is a longest route, the earliest one on a tie, and it describes the route it indexes. |
| Alternatives.LongestExamples | googleMapDistanceApi.js:510-535 | Worked cases. Routes of 10 km / 600 s and 25 km / 1500 s give the second route, at 25 minutes and 25 KM. Two routes of 7 km (one leg; two legs) give the first. |
| JsString.TrimStartDrops | googleMapDistanceApi.js:692 | The start of `trim` drops only white space and keeps a suffix that does not start with white space. |
| JsString.TrimEndDrops | googleMapDistanceApi.js:692 | The end of `trim` drops only white space and keeps a prefix that does not end with white space. |
| JsString.BlankIffAllWhitespace | googleMapDistanceApi.js:692 | `value.trim() === ''` holds exactly when every character of the value is ECMAScript white space or a line terminator. The same test is used at lines 788 and 835. |
| Decimal.NatToStringDigits | googleMapDistanceApi.js:536 | A whole number converted to text gives decimal digits only, with no leading zero. |
| Decimal.ReadCountOfNatToString | googleMapDistanceApi.js:536 | Reading the digits of a converted whole number gives back that number. |
| Decimal.NatToStringInjective | googleMapDistanceApi.js:536 | Different whole numbers are written as different texts. |
| TravelTime.UnitWord | googleMapDistanceApi.js:933 | The unit word is the bare "hour"/"min" for a value of 1 and takes an "s" above 1. |
| TravelTime.SplitHours | googleMapDistanceApi.js:928-929 | `Math.floor(t / 60)` and `t % 60`: hours * 60 + minutes == t and minutes < 60. |
| TravelTime.TimeTextIsJoin | googleMapDistanceApi.js:930-939 | The time text is its words joined with single spaces. The hours part comes only when hours > 0, the minutes part only when minutes > 0, and the space between them only when both are present. |
| TravelTime.TimeWordsNoSpace | googleMapDistanceApi.js:930-939 | No word of the time text contains a space. |
| TravelTime.TimeWordsRoundTrip | googleMapDistanceApi.js:930-939 | The words of a non-zero time read back as its minutes. The unit word is "hour"/"min" exactly when the value is 1 and "hours"/"mins" above 1. |
| TravelTime.TimeTextRoundTrip | googleMapDistanceApi.js:930-939 | Reading the displayed time text back gives exactly the total minutes it was made from. The empty text stands for 0. |
| TravelTime.TimeTextInjective | googleMapDistanceApi.js:930-939 | Two different minute totals are never shown with the same time text. |
| TravelTime.TimeTextHoursAndMinutes | googleMapDistanceApi.js:930-939 | 125 minutes are shown as "2 hours 5 mins". |
| TravelTime.TimeTextSingleParts | googleMapDistanceApi.js:930-939 | 60 minutes are shown as "1 hour", 1 minute as "1 min", and 0 minutes as the empty text. |
| Journey.StopoversAt | googleMapDistanceApi.js:843-846 | The k-th waypoint sent is `{location: stop k, stopover: true}`, in input order. |
| Journey.AllFilledAt | googleMapDistanceApi.js:835-840 | When the stops pass the check, no single stop trims to nothing. |
| Journey.FirstBlankStops | googleMapDistanceApi.js:832-841 | A blank stop after stops that passed the check makes the whole list fail it. |
| Journey.PlanJourney | googleMapDistanceApi.js:811-870 | The checks, in order. An empty origin is reported first, then an empty destination. Next comes the first stop that trims to nothing, with its 1-based number; every stop before it passed. With no stops the single-route path takes over. Otherwise the request carries every stop in order as a stopover, with `optimizeWaypoints: false`. Each outcome comes with both directions of its condition. |
| Journey.SummarizeJourney | googleMapDistanceApi.js:873-954 | The multi-stop callback, given the number of stops the request carried. A failed status alerts. OK without routes shows nothing, and a first route without legs aborts. A first route with fewer legs than stops throws in the breakdown and shows no totals. Otherwise the total distance and the rounded total minutes are over all legs of the first route, hours * 60 + minutes is the total with minutes < 60, and the time text reads back as the total minutes. |
| Markers.JourneyMarkersCount | googleMapDistanceApi.js:889-909 | A route with n legs gets n + 1 markers. Marker k + 2 is "Stop k+1", placed at the end of leg k, for every leg but the last. |
| Markers.StopMarkersAt | googleMapDistanceApi.js:902-908 | The k-th stop marker is titled "Stop k+1" with the yellow icon, placed at the end of leg k. |
| Markers.MarkerLayer.ClearMarkers | googleMapDistanceApi.js:286-291 | The marker list becomes empty. |
| Markers.MarkerLayer.AddMarker | googleMapDistanceApi.js:294-303 | Exactly one marker, the one returned, is appended to the list. |
| Markers.MarkerLayer.AddJourneyMarkers | googleMapDistanceApi.js:889-909 | The markers appended are the origin at the first leg's start, the destination at the last leg's end, then the stops in order. That is |legs| + 1 new entries. |
| Waypoints.WaypointForm.constructor | googleMapDistanceApi.js:11-13 | The page starts with no stops, an empty autocomplete list and a count of 0. |
| Waypoints.WaypointForm.CreateWaypoint | googleMapDistanceApi.js:710-772 | The count goes up by one. A new last stop holds the initial value. The autocomplete entry pushed has `id == waypointCount`. The remove button is shown. |
| Waypoints.WaypointForm.AddWaypoint | googleMapDistanceApi.js:686-707 | With no stops and a destination that trims to nothing, it alerts and changes nothing. With no stops otherwise, stop 1 takes the untrimmed destination and the destination is cleared. With stops, it appends an empty stop. Every successful add keeps the ids 1..count without gaps. |
| Waypoints.WaypointForm.RemoveWaypoint | googleMapDistanceApi.js:775-808 | A no-op with no stops. Otherwise it drops only the last stop and its autocomplete entry and lowers the count. When the only stop goes, the destination trims to nothing and the stop does not, the destination takes the stop's text. The remove button is hidden exactly at count 0. |
| Waypoints.WaypointForm.EditOrigin | googleMapDistanceApi.js:812 | Typing into the origin field changes only the origin. |
| Waypoints.WaypointForm.EditDestination | googleMapDistanceApi.js:689 | Typing into the destination field changes only the destination. |
| Waypoints.WaypointForm.EditStop | googleMapDistanceApi.js:729-734 | Typing into input `waypoint-id` changes only that stop's value. |
| Waypoints.AddThenRemoveRestores | googleMapDistanceApi.js:686-808 | Adding a stop to a form without stops and removing it again, with no typing in between, restores the destination and leaves no stop, no autocomplete entry and the remove button hidden. |
| Page.MultiStopPage.CalculateFullRoute | googleMapDistanceApi.js:811-870 | Applied to the form. The markers are cleared exactly when origin and destination are present, before the stops are checked. Because stop ids have no gaps, a request carries all `waypointCount` stops. |
| Page.MultiStopPage.OnFullRouteResponse | googleMapDistanceApi.js:873-984 | The outcome is that of the multi-stop callback: a failed status alerts, OK without routes shows nothing, and a first route without legs aborts. Totals are shown exactly when the first route has legs and at least one leg per stop sent; they are the total distance and rounded minutes over all its legs, split into hours and minutes, with a time text that reads back as those minutes. The journey markers of the first route are added exactly when it has legs, also when the breakdown then throws; otherwise the marker list is unchanged. |

## Left out

- Map construction, styling, controls, info windows, resize and scroll handling, `setTimeout` effects and `resetMap`. These are calls into the Maps SDK and the DOM.
- The Places autocomplete objects and their `place_changed` listeners, including the "Stop N" marker they add (line 764). An autocomplete entry is modelled by its `id` only.
- Geolocation, reverse geocoding and the startup location request. These are asynchronous device APIs.
- `CalculatedRecommededDistance` (the Distance Matrix request and its text). It only passes the service's formatted text through. The model represents it by the `SingleRoute` outcome.
- The order in which concurrent directions callbacks complete. Each callback is modelled as one step applied to the response it receives.
- The directions service itself. Its status and routes are parameters of the callbacks; `travelMode` and `unitSystem` are constants and are not modelled.
- `highlightLongestRoute` (lines 552-607) draws the chosen route and shows the first leg's figures in an info window. It also pushes a marker for the route's midpoint straight onto the global `markers` array (line 606), without `addMarker`; Alternatives.LongestAlternative does not change the marker list and records only which route is highlighted (`Longest.best.route`).
- The `distances` array. It is declared at line 495, filled at line 514 and never read.
- Routes.SumLegs: `parseInt` on the service's integer values is taken as the identity. JavaScript number precision above 2^53 is not modelled; the model's integers are unbounded.
- Journey.SummarizeJourney: the total distance stays in metres. `(totalDistance / 1000).toFixed(1)` is decimal formatting of a floating-point number and is not modelled.
- Journey.SummarizeJourney: the journey breakdown HTML and the summary line built from the legs' service-formatted texts (lines 940-977) are not modelled. Neither are the loading indicator, the renderer call and the clearing of the `output` element.
- Page.MultiStopPage.CalculateFullRoute: the alerts are represented by the `Plan` outcome, not by their texts. Placeholders are not modelled.
- Waypoints.WaypointForm.constructor: the remove button is taken to be hidden, and the origin and destination fields empty, when the page loads. The button's initial style and the fields' initial values come from the page's HTML, which is not part of this model; the startup location request that may fill the origin is left out with geolocation.
