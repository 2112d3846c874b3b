/** The origin, destination and stop fields of the page, with the stop
    counter and the autocomplete list that `addWaypoint`, `createWaypoint`
    and `removeWaypoint` keep in step with the stop inputs. */
module Waypoints {
  import opened JsString

  class WaypointForm {
    var origin: string
    var destination: string
    /** The values of inputs `waypoint-1` .. `waypoint-N`. */
    var stops: seq<string>
    var waypointCount: nat
    /** The `id` of each entry of `waypointAutocompletes`, in push order. */
    var autocompletes: seq<nat>
    /** Whether the remove-stop button is shown. */
    var removeVisible: bool

    /** Stop ids run 1..waypointCount without gaps, each with its autocomplete
        entry, and the remove button shows exactly when there is a stop. */
    ghost predicate Valid()
      reads this
    {
      && |stops| == waypointCount
      && |autocompletes| == waypointCount
      && (forall k :: 0 <= k < |autocompletes| ==> autocompletes[k] == k + 1)
      && (removeVisible <==> waypointCount > 0)
    }

    /** The page as loaded: empty fields, no stops, the remove button hidden. */
    constructor ()
      ensures Valid()
      ensures origin == "" && destination == "" && stops == [] && waypointCount == 0
    {
      origin, destination := "", "";
      stops, waypointCount, autocompletes := [], 0, [];
      removeVisible := false;
    }

    /** `createWaypoint`: a new last stop holding `initialValue`, with its autocomplete entry. */
    method CreateWaypoint(initialValue: string)
      requires Valid()
      modifies this
      ensures Valid()
      ensures waypointCount == old(waypointCount) + 1
      ensures stops == old(stops) + [initialValue]
      ensures autocompletes == old(autocompletes) + [waypointCount]
      ensures removeVisible
      ensures origin == old(origin) && destination == old(destination)
    {
      waypointCount := waypointCount + 1;
      stops := stops + [initialValue];
      autocompletes := autocompletes + [waypointCount];
      removeVisible := true;
    }

    /** `addWaypoint`: the first stop takes over the destination's text and
        empties the destination; a later one starts empty. With no stop yet
        and a destination that trims to nothing, it alerts and changes nothing. */
    method AddWaypoint() returns (alerted: bool)
      requires Valid()
      modifies this
      ensures Valid()
      ensures alerted <==> old(waypointCount) == 0 && Blank(old(destination))
      ensures alerted ==> unchanged(this)
      ensures !alerted ==>
        && waypointCount == old(waypointCount) + 1
        && autocompletes == old(autocompletes) + [waypointCount]
        && removeVisible
        && origin == old(origin)
      ensures !alerted && old(waypointCount) == 0 ==> stops == [old(destination)] && destination == ""
      ensures !alerted && old(waypointCount) > 0 ==>
        stops == old(stops) + [""] && destination == old(destination)
    {
      if waypointCount == 0 {
        var destValue := destination;
        if Blank(destValue) {
          return true;
        }
        CreateWaypoint(destValue);
        destination := "";
      } else {
        CreateWaypoint("");
      }
      alerted := false;
    }

    /** `removeWaypoint`: drops the last stop and its autocomplete entry. When
        the only stop goes while the destination trims to nothing and the stop
        does not, the stop's text moves back into the destination. */
    method RemoveWaypoint()
      requires Valid()
      modifies this
      ensures Valid()
      ensures old(waypointCount) == 0 ==> unchanged(this)
      ensures old(waypointCount) > 0 ==>
        && waypointCount == old(waypointCount) - 1
        && stops == old(stops)[..waypointCount]
        && autocompletes == old(autocompletes)[..waypointCount]
        && (removeVisible <==> waypointCount > 0)
        && origin == old(origin)
      ensures old(waypointCount) > 0 ==>
        destination ==
          if old(waypointCount) == 1 && Blank(old(destination)) && !Blank(old(stops)[0])
          then old(stops)[0] else old(destination)
    {
      if waypointCount > 0 {
        if waypointCount == 1 {
          var destValue := destination;
          var waypointValue := stops[0];
          if Blank(destValue) && !Blank(waypointValue) {
            destination := waypointValue;
          }
        }
        stops := stops[..waypointCount - 1];
        autocompletes := autocompletes[..|autocompletes| - 1];
        waypointCount := waypointCount - 1;
        if waypointCount == 0 {
          removeVisible := false;
        }
      }
    }

    /** The user types into the origin field. */
    method EditOrigin(value: string)
      requires Valid()
      modifies this
      ensures Valid() && origin == value
      ensures destination == old(destination) && stops == old(stops)
      ensures waypointCount == old(waypointCount) && autocompletes == old(autocompletes)
      ensures removeVisible == old(removeVisible)
    {
      origin := value;
    }

    /** The user types into the destination field. */
    method EditDestination(value: string)
      requires Valid()
      modifies this
      ensures Valid() && destination == value
      ensures origin == old(origin) && stops == old(stops)
      ensures waypointCount == old(waypointCount) && autocompletes == old(autocompletes)
      ensures removeVisible == old(removeVisible)
    {
      destination := value;
    }

    /** The user types into input `waypoint-id`, which exists for ids 1..waypointCount. */
    method EditStop(id: nat, value: string)
      requires Valid() && 1 <= id <= waypointCount
      modifies this
      ensures Valid() && stops == old(stops)[id - 1 := value]
      ensures origin == old(origin) && destination == old(destination)
      ensures waypointCount == old(waypointCount) && autocompletes == old(autocompletes)
      ensures removeVisible == old(removeVisible)
    {
      stops := stops[id - 1 := value];
    }
  }

  /** Adding a stop to a form without stops and removing it again, with no
      typing in between, gives the form back as it was. */
  method AddThenRemoveRestores(form: WaypointForm)
    requires form.Valid() && form.waypointCount == 0
    modifies form
    ensures form.Valid()
    ensures form.destination == old(form.destination) && form.origin == old(form.origin)
    ensures form.stops == [] && form.waypointCount == 0 && form.autocompletes == []
    ensures !form.removeVisible
  {
    var alerted := form.AddWaypoint();
    if !alerted {
      BlankIffAllWhitespace("");
    }
    form.RemoveWaypoint();
  }
}
