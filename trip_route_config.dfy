/**
 * The route part of the trip-template form: the list of intermediate waypoints the
 * user builds from known places, and the return-trip settings whose two timing
 * options exclude each other. Each handler builds a new value and hands it on.
 */
module TripRouteConfig {
  import opened Common

  /** A known place, reduced to what the trip forms read. */
  datatype Place = Place(id: string, name: string, tripPurposes: Option<seq<string>>, defaultPurposeIndex: Option<int>)

  datatype Waypoint = Waypoint(id: string, placeId: string, placeName: string, order: int, isFixed: bool)

  /** The component's state around a waypoint edit: the waypoints and the place chosen in the picker ("" for none). */
  datatype Route = Route(waypoints: seq<Waypoint>, selectedPlaceId: string)

  function PlaceIs(id: string): Place -> bool {
    (p: Place) => p.id == id
  }

  /**
   * `addWaypoint`: with a place chosen and known, appends one fixed waypoint for it at the
   * end, whose `order` is the old length, and clears the choice; otherwise changes nothing.
   * The waypoint's id comes from the clock (`waypoint-${Date.now()}`), here the parameter `now`.
   */
  function AddWaypoint(route: Route, places: seq<Place>, now: nat): (r: Route)
    ensures route.selectedPlaceId == "" ==> r == route
    ensures (forall j :: 0 <= j < |places| ==> places[j].id != route.selectedPlaceId) ==> r == route
    ensures route.selectedPlaceId != "" && Find(places, PlaceIs(route.selectedPlaceId)).Some? ==>
      var place := Find(places, PlaceIs(route.selectedPlaceId)).value;
      r.selectedPlaceId == "" &&
      r.waypoints == route.waypoints + [Waypoint("waypoint-" + NatToString(now), route.selectedPlaceId, place.name, |route.waypoints|, true)]
  {
    if route.selectedPlaceId == "" then route
    else
      var place := Find(places, PlaceIs(route.selectedPlaceId));
      if place.None? then route
      else
        var w := Waypoint("waypoint-" + NatToString(now), route.selectedPlaceId, place.value.name, |route.waypoints|, true);
        Route(route.waypoints + [w], "")
  }

  /** An added waypoint names a place that exists under the chosen id. */
  lemma AddedWaypointNamesPlace(route: Route, places: seq<Place>, now: nat)
    requires AddWaypoint(route, places, now) != route
    ensures var r := AddWaypoint(route, places, now);
      |r.waypoints| == |route.waypoints| + 1 &&
      exists p :: p in places && p.id == route.selectedPlaceId && p.name == r.waypoints[|route.waypoints|].placeName
  {
    var place := Find(places, PlaceIs(route.selectedPlaceId));
    var i :| 0 <= i < |places| && places[i] == place.value && PlaceIs(route.selectedPlaceId)(places[i]);
    assert places[i] in places;
  }

  function WaypointIsNot(id: string): Waypoint -> bool {
    (w: Waypoint) => w.id != id
  }

  /** `removeWaypoint`: the waypoints without those carrying the id, the others in their order. */
  function RemoveWaypoint(waypoints: seq<Waypoint>, id: string): (r: seq<Waypoint>)
    ensures forall w :: w in r <==> w in waypoints && w.id != id
    ensures multiset(r) <= multiset(waypoints)
  {
    FilterMembers(waypoints, WaypointIsNot(id));
    FilterSub(waypoints, WaypointIsNot(id));
    Filter(waypoints, WaypointIsNot(id))
  }

  /** Removal keeps the order: removing from a joined list is joining the removals. */
  lemma RemoveKeepsOrder(a: seq<Waypoint>, b: seq<Waypoint>, id: string)
    ensures RemoveWaypoint(a + b, id) == RemoveWaypoint(a, id) + RemoveWaypoint(b, id)
  {
    FilterConcat(a, b, WaypointIsNot(id));
  }

  /** Removing an id that no waypoint carries changes nothing. */
  lemma RemoveAbsent(waypoints: seq<Waypoint>, id: string)
    requires forall w :: w in waypoints ==> w.id != id
    ensures RemoveWaypoint(waypoints, id) == waypoints
  {
    FilterAll(waypoints, WaypointIsNot(id));
  }

  function Toggled(w: Waypoint, id: string): Waypoint {
    if w.id == id then w.(isFixed := !w.isFixed) else w
  }

  /** `toggleWaypointFixed`: flips `isFixed` on the waypoints carrying the id; nothing else moves or changes. */
  function ToggleWaypointFixed(waypoints: seq<Waypoint>, id: string): (r: seq<Waypoint>)
    ensures |r| == |waypoints|
    ensures forall i :: 0 <= i < |r| ==> r[i] == Toggled(waypoints[i], id)
  {
    seq(|waypoints|, i requires 0 <= i < |waypoints| => Toggled(waypoints[i], id))
  }

  /** Toggling the same waypoint twice restores the list, and a toggle changes only `isFixed`. */
  lemma ToggleTwice(waypoints: seq<Waypoint>, id: string)
    ensures ToggleWaypointFixed(ToggleWaypointFixed(waypoints, id), id) == waypoints
    ensures forall i :: 0 <= i < |waypoints| ==>
      var w := ToggleWaypointFixed(waypoints, id)[i];
      w.(isFixed := waypoints[i].isFixed) == waypoints[i] &&
      (w.isFixed != waypoints[i].isFixed <==> waypoints[i].id == id)
  {
    var once := ToggleWaypointFixed(waypoints, id);
    var twice := ToggleWaypointFixed(once, id);
    assert forall i :: 0 <= i < |waypoints| ==> twice[i] == waypoints[i];
  }

  // ---------------------------------------------------------------- return trip

  /** `TemplateReturnTrip`: return at an exact time, or after a break of some minutes. */
  datatype ReturnTrip = ReturnTrip(enabled: bool, exactTime: Option<string>, afterBreakMinutes: Option<int>, timeTolerance: Option<int>)

  /** The default when the template has none. */
  const NO_RETURN := ReturnTrip(false, None, None, None)

  /** At most one of the two timing options is set. */
  predicate OneTiming(rt: ReturnTrip) {
    !(rt.exactTime.Some? && rt.afterBreakMinutes.Some?)
  }

  /** Editing the exact return time: sets it and clears the break. */
  function EditExactTime(rt: ReturnTrip, value: string): (r: ReturnTrip)
    ensures r.exactTime == Some(value) && r.afterBreakMinutes.None? && OneTiming(r)
    ensures r.enabled == rt.enabled && r.timeTolerance == rt.timeTolerance
  {
    rt.(exactTime := Some(value), afterBreakMinutes := None)
  }

  /**
   * Editing the break: a non-empty entry is parsed as a whole number (`parseInt`, a
   * parameter), an empty one unsets it; either way the exact time is cleared.
   */
  function EditBreak(rt: ReturnTrip, value: string, parseInt: string -> int): (r: ReturnTrip)
    ensures r.exactTime.None? && OneTiming(r)
    ensures r.afterBreakMinutes == (if value != "" then Some(parseInt(value)) else None)
    ensures r.enabled == rt.enabled && r.timeTolerance == rt.timeTolerance
  {
    rt.(afterBreakMinutes := if value != "" then Some(parseInt(value)) else None, exactTime := None)
  }
}
