/**
 * The trip calls the pages use, on top of the mock store: listing with forwarded
 * filters, locking and unlocking through the store's update, duplication, and the
 * bulk operations, which await one store call per id in the given order and stop at
 * the first call that throws.
 */
module TripsApi {
  import opened Common
  import opened MockApi

  const LOCK := EMPTY_PATCH.(locked := Some(true))
  const UNLOCK := EMPTY_PATCH.(locked := Some(false))

  /** The patch `bulkAddToVatReport` sends for each trip. */
  function VatPatch(vatReportId: string): TripPatch {
    EMPTY_PATCH.(locked := Some(true), vatReportId := Some(vatReportId))
  }

  /** `getTrips`: the query's seven fields, each forwarded as it is; no query forwards none. */
  function Forwarded(params: Option<TripFilters>): (f: TripFilters)
    ensures params.None? ==> f == NO_FILTERS
    ensures params.Some? ==> f.vehicleId == params.value.vehicleId && f.driverId == params.value.driverId &&
                             f.dateFrom == params.value.dateFrom && f.dateTo == params.value.dateTo &&
                             f.tripType == params.value.tripType && f.source == params.value.source &&
                             f.locked == params.value.locked
  {
    match params
    case None => NO_FILTERS
    case Some(p) => TripFilters(p.vehicleId, p.driverId, p.dateFrom, p.dateTo, p.tripType, p.source, p.locked)
  }

  /** `getTrips`: without a query every trip; with one, exactly the trips it matches. */
  method GetTrips(store: MockStore, params: Option<TripFilters>, parse: string -> int) returns (r: seq<Trip>)
    ensures r == ListedTrips(store.trips, Forwarded(params), parse)
    ensures params.None? ==> r == store.trips
    ensures forall t :: t in r <==> t in store.trips && (params.Some? ==> TripMatches(params.value, parse, t))
  {
    r := store.ListTrips(Forwarded(params), parse);
    ListedTripsMembers(store.trips, Forwarded(params), parse);
    if params.None? {
      NoFiltersListAll(store.trips, parse);
    }
  }

  /** The error a store update threw, if any. */
  function ErrorOf(r: Outcome<seq<Trip>>): Option<StoreError> {
    if r.Fail? then Some(r.error) else None
  }

  /** `lockTrip`: the store update with `{ locked: true }`. */
  method LockTrip(store: MockStore, id: string) returns (err: Option<StoreError>)
    modifies store`trips
    ensures err == ErrorOf(TripUpdate(old(store.trips), id, LOCK))
    ensures TripUpdate(old(store.trips), id, LOCK).Ok? ==> store.trips == TripUpdate(old(store.trips), id, LOCK).value
    ensures TripUpdate(old(store.trips), id, LOCK).Fail? ==> store.trips == old(store.trips)
  {
    var r := store.UpdateTrip(id, LOCK);
    err := if r.Fail? then Some(r.error) else None;
  }

  /** `unlockTrip`: the store update with `{ locked: false }`. */
  method UnlockTrip(store: MockStore, id: string) returns (err: Option<StoreError>)
    modifies store`trips
    ensures err == ErrorOf(TripUpdate(old(store.trips), id, UNLOCK))
    ensures TripUpdate(old(store.trips), id, UNLOCK).Ok? ==> store.trips == TripUpdate(old(store.trips), id, UNLOCK).value
    ensures TripUpdate(old(store.trips), id, UNLOCK).Fail? ==> store.trips == old(store.trips)
  {
    var r := store.UpdateTrip(id, UNLOCK);
    err := if r.Fail? then Some(r.error) else None;
  }

  /** An update whose patch keeps ids leaves the first trip with each id where it was. */
  lemma UpdateKeepsIndex(s: seq<Trip>, id: string, data: TripPatch, other: string)
    requires TripUpdate(s, id, data).Ok? && data.id.None?
    ensures TripIndex(TripUpdate(s, id, data).value, other) == TripIndex(s, other)
  {
    UpdateKeepsOthers(s, id, data);
    var r := TripUpdate(s, id, data).value;
    assert forall j :: 0 <= j < |s| ==> r[j].id == s[j].id;
    var a := TripIndex(r, other);
    if a == -1 {
      assert forall j :: 0 <= j < |s| ==> s[j].id != other;
    } else {
      assert s[a].id == other;
      var b := TripIndex(s, other);
      assert 0 <= b <= a && r[b].id == other;
    }
  }

  /** Locking succeeds on an unlocked trip and locks it. */
  lemma LockLocks(s: seq<Trip>, id: string)
    requires TripIndex(s, id) != -1 && !s[TripIndex(s, id)].locked
    ensures TripUpdate(s, id, LOCK).Ok?
    ensures TripUpdate(s, id, LOCK).value[TripIndex(s, id)].locked
  {
    UpdateKeepsOthers(s, id, LOCK);
  }

  /** Locking an already locked trip throws: the update refuses any edit of a locked trip but an unlock. */
  lemma LockTwiceFails(s: seq<Trip>, id: string)
    requires TripUpdate(s, id, LOCK).Ok?
    ensures TripUpdate(TripUpdate(s, id, LOCK).value, id, LOCK) == Fail(LockedTrip)
  {
    var r := TripUpdate(s, id, LOCK).value;
    UpdateKeepsOthers(s, id, LOCK);
    UpdateKeepsIndex(s, id, LOCK, id);
    assert FirstWithId(r, id, TripIndex(s, id));
  }

  /** Unlocking any existing trip succeeds and leaves it unlocked; locked or not makes no difference. */
  lemma UnlockSucceeds(s: seq<Trip>, id: string)
    requires exists j :: 0 <= j < |s| && s[j].id == id
    ensures TripUpdate(s, id, UNLOCK).Ok?
    ensures !TripUpdate(s, id, UNLOCK).value[TripIndex(s, id)].locked
  {
    UpdateKeepsOthers(s, id, UNLOCK);
  }

  /** Unlocking after a lock gives the original list with that trip unlocked. */
  lemma LockThenUnlock(s: seq<Trip>, id: string)
    requires TripUpdate(s, id, LOCK).Ok?
    ensures var i := TripIndex(s, id);
      TripUpdate(TripUpdate(s, id, LOCK).value, id, UNLOCK) == Ok(s[i := s[i].(locked := false)])
  {
    var i := TripIndex(s, id);
    var r := TripUpdate(s, id, LOCK).value;
    UpdateKeepsOthers(s, id, LOCK);
    UpdateKeepsIndex(s, id, LOCK, id);
    UpdateKeepsOthers(r, id, UNLOCK);
    var r2 := TripUpdate(r, id, UNLOCK).value;
    assert r2 == s[i := s[i].(locked := false)];
  }

  // ---------------------------------------------------------------- duplication

  /**
   * The object `duplicateTrip` hands to `create`: every property of the original but
   * its id, with source "manual", unlocked, and new timestamps.
   */
  function DuplicateData(t: Trip, now: string): TripPatch {
    TripPatch(None, Some(t.vehicleId), t.driverId, Some("manual"), Some(t.tripType), Some(t.startTime),
              Some(t.endTime), t.startLocation, t.endLocation, Some(t.distanceKm), t.description,
              Some(false), t.vatReportId, Some(now), Some(now))
  }

  /**
   * A duplicate is a new manual, unlocked trip under the next id; it takes the
   * original's vehicle, type, times, distance, driver, places and description
   * (the last four as texts, with an empty one for a missing one); it is not linked
   * to the original's VAT report.
   */
  lemma DuplicateCopies(count: nat, t: Trip, now: string)
    ensures var d := NewTrip(count, DuplicateData(t, now), now);
      d.id == NatToString(count + 1) && d.source == "manual" && !d.locked && d.vatReportId.None? &&
      d.vehicleId == t.vehicleId && d.distanceKm == t.distanceKm &&
      (t.tripType != "" ==> d.tripType == t.tripType) &&
      (t.startTime != "" ==> d.startTime == t.startTime) &&
      (t.endTime != "" ==> d.endTime == t.endTime) &&
      d.driverId == Some(OrElse(t.driverId, "")) &&
      d.startLocation == Some(OrElse(t.startLocation, "")) &&
      d.endLocation == Some(OrElse(t.endLocation, "")) &&
      d.description == Some(OrElse(t.description, ""))
  {
  }

  /** `duplicateTrip`: looks the trip up (throwing "not found"), then creates the copy. */
  method DuplicateTrip(store: MockStore, tripId: string, now: string) returns (r: Outcome<Trip>)
    modifies store`trips
    ensures TripIndex(old(store.trips), tripId) == -1 ==> r == Fail(NotFound) && store.trips == old(store.trips)
    ensures TripIndex(old(store.trips), tripId) != -1 ==>
      var original := old(store.trips)[TripIndex(old(store.trips), tripId)];
      r == Ok(NewTrip(|old(store.trips)|, DuplicateData(original, now), now)) &&
      store.trips == old(store.trips) + [r.value]
  {
    var found := store.GetTrip(tripId);
    if found.Fail? {
      return Fail(found.error);
    }
    assert found.value == store.trips[TripIndex(store.trips, tripId)] by {
      var i :| FirstWithId(store.trips, tripId, i) && found.value == store.trips[i];
      assert TripIndex(store.trips, tripId) == i;
    }
    var t := store.CreateTrip(DuplicateData(found.value, now), now);
    r := Ok(t);
  }

  // ---------------------------------------------------------------- bulk operations

  /** A bulk run either got through every id or stopped at the first id whose update threw. */
  datatype BulkRun = Done(trips: seq<Trip>) | Stopped(trips: seq<Trip>, failedId: string, error: StoreError)

  /** The store updates of a bulk run, one per id in order; what was done before a failure stays. */
  function Bulk(s: seq<Trip>, ids: seq<string>, patch: TripPatch): BulkRun
    decreases |ids|
  {
    if ids == [] then Done(s)
    else match TripUpdate(s, ids[0], patch)
      case Fail(e) => Stopped(s, ids[0], e)
      case Ok(t) => Bulk(t, ids[1..], patch)
  }

  /** Running two lists of ids is running the first, then, unless it stopped, the second. */
  lemma {:induction false} BulkConcat(s: seq<Trip>, a: seq<string>, b: seq<string>, patch: TripPatch)
    ensures Bulk(s, a + b, patch) == if Bulk(s, a, patch).Stopped? then Bulk(s, a, patch) else Bulk(Bulk(s, a, patch).trips, b, patch)
    decreases |a|
  {
    if a == [] {
      assert a + b == b;
    } else {
      assert (a + b)[0] == a[0] && (a + b)[1..] == a[1..] + b;
      match TripUpdate(s, a[0], patch)
      case Fail(e) =>
      case Ok(t) => BulkConcat(t, a[1..], b, patch);
    }
  }

  /**
   * The loop of `bulkLockTrips`, `bulkUnlockTrips` and `bulkAddToVatReport`: one awaited
   * store update per id, in order; the first one that throws ends the run.
   */
  method UpdateEach(store: MockStore, ids: seq<string>, patch: TripPatch) returns (err: Option<StoreError>)
    modifies store`trips
    ensures store.trips == Bulk(old(store.trips), ids, patch).trips
    ensures Bulk(old(store.trips), ids, patch).Done? <==> err.None?
    ensures Bulk(old(store.trips), ids, patch).Stopped? ==> err == Some(Bulk(old(store.trips), ids, patch).error)
  {
    var i := 0;
    while i < |ids|
      invariant 0 <= i <= |ids|
      invariant Bulk(old(store.trips), ids, patch) == Bulk(store.trips, ids[i..], patch)
    {
      assert ids[i..][0] == ids[i] && ids[i..][1..] == ids[i + 1..];
      var r := store.UpdateTrip(ids[i], patch);
      if r.Fail? {
        return Some(r.error);
      }
      i := i + 1;
    }
    err := None;
  }

  method BulkLockTrips(store: MockStore, ids: seq<string>) returns (err: Option<StoreError>)
    modifies store`trips
    ensures store.trips == Bulk(old(store.trips), ids, LOCK).trips
    ensures Bulk(old(store.trips), ids, LOCK).Done? <==> err.None?
  {
    err := UpdateEach(store, ids, LOCK);
  }

  method BulkUnlockTrips(store: MockStore, ids: seq<string>) returns (err: Option<StoreError>)
    modifies store`trips
    ensures store.trips == Bulk(old(store.trips), ids, UNLOCK).trips
    ensures Bulk(old(store.trips), ids, UNLOCK).Done? <==> err.None?
  {
    err := UpdateEach(store, ids, UNLOCK);
  }

  method BulkAddToVatReport(store: MockStore, ids: seq<string>, vatReportId: string) returns (err: Option<StoreError>)
    modifies store`trips
    ensures store.trips == Bulk(old(store.trips), ids, VatPatch(vatReportId)).trips
    ensures Bulk(old(store.trips), ids, VatPatch(vatReportId)).Done? <==> err.None?
  {
    err := UpdateEach(store, ids, VatPatch(vatReportId));
  }

  /** The first trip with `id` exists and carries the patch's lock bit and VAT report. */
  predicate Marked(s: seq<Trip>, id: string, patch: TripPatch) {
    TripIndex(s, id) != -1 &&
    (patch.locked.Some? ==> s[TripIndex(s, id)].locked == patch.locked.value) &&
    (patch.vatReportId.Some? ==> s[TripIndex(s, id)].vatReportId == patch.vatReportId)
  }

  predicate AllMarked(s: seq<Trip>, ids: seq<string>, patch: TripPatch) {
    forall k :: 0 <= k < |ids| ==> Marked(s, ids[k], patch)
  }

  /** An update marks the trip it found. */
  lemma UpdateMarks(s: seq<Trip>, id: string, patch: TripPatch)
    requires TripUpdate(s, id, patch).Ok? && patch.id.None?
    ensures Marked(TripUpdate(s, id, patch).value, id, patch)
  {
    UpdateKeepsOthers(s, id, patch);
    UpdateKeepsIndex(s, id, patch, id);
  }

  /** An update whose patch keeps ids keeps every mark of that patch. */
  lemma UpdateKeepsMark(s: seq<Trip>, id: string, patch: TripPatch, x: string)
    requires TripUpdate(s, id, patch).Ok? && patch.id.None? && Marked(s, x, patch)
    ensures Marked(TripUpdate(s, id, patch).value, x, patch)
  {
    var r := TripUpdate(s, id, patch).value;
    UpdateKeepsOthers(s, id, patch);
    UpdateKeepsIndex(s, id, patch, x);
    if TripIndex(s, x) != TripIndex(s, id) {
      assert r[TripIndex(s, x)] == s[TripIndex(s, x)];
    }
  }

  lemma {:induction false} BulkKeepsMark(s: seq<Trip>, ids: seq<string>, patch: TripPatch, x: string)
    requires patch.id.None? && Marked(s, x, patch) && Bulk(s, ids, patch).Done?
    ensures Marked(Bulk(s, ids, patch).trips, x, patch)
    decreases |ids|
  {
    if ids != [] {
      UpdateKeepsMark(s, ids[0], patch, x);
      BulkKeepsMark(TripUpdate(s, ids[0], patch).value, ids[1..], patch, x);
    }
  }

  /** A bulk run that got through leaves every listed trip marked by its patch. */
  lemma {:induction false} BulkMarks(s: seq<Trip>, ids: seq<string>, patch: TripPatch)
    requires patch.id.None? && Bulk(s, ids, patch).Done?
    ensures AllMarked(Bulk(s, ids, patch).trips, ids, patch)
    decreases |ids|
  {
    if ids != [] {
      var t := TripUpdate(s, ids[0], patch).value;
      var r := Bulk(s, ids, patch).trips;
      assert r == Bulk(t, ids[1..], patch).trips;
      UpdateMarks(s, ids[0], patch);
      BulkKeepsMark(t, ids[1..], patch, ids[0]);
      BulkMarks(t, ids[1..], patch);
      forall k | 0 <= k < |ids|
        ensures Marked(r, ids[k], patch)
      {
        if k > 0 {
          assert ids[k] == ids[1..][k - 1];
        }
      }
    }
  }

  /** A bulk lock that got through leaves every listed trip locked. */
  lemma BulkLockLocksAll(s: seq<Trip>, ids: seq<string>)
    requires Bulk(s, ids, LOCK).Done?
    ensures forall k :: 0 <= k < |ids| ==>
      var r := Bulk(s, ids, LOCK).trips; TripIndex(r, ids[k]) != -1 && r[TripIndex(r, ids[k])].locked
  {
    BulkMarks(s, ids, LOCK);
  }

  /** A bulk unlock that got through leaves every listed trip unlocked. */
  lemma BulkUnlockUnlocksAll(s: seq<Trip>, ids: seq<string>)
    requires Bulk(s, ids, UNLOCK).Done?
    ensures forall k :: 0 <= k < |ids| ==>
      var r := Bulk(s, ids, UNLOCK).trips; TripIndex(r, ids[k]) != -1 && !r[TripIndex(r, ids[k])].locked
  {
    BulkMarks(s, ids, UNLOCK);
  }

  /** Adding to a VAT report that got through leaves every listed trip locked and linked to the report. */
  lemma VatReportMarksAll(s: seq<Trip>, ids: seq<string>, vatReportId: string)
    requires Bulk(s, ids, VatPatch(vatReportId)).Done?
    ensures forall k :: 0 <= k < |ids| ==>
      var r := Bulk(s, ids, VatPatch(vatReportId)).trips;
      TripIndex(r, ids[k]) != -1 && r[TripIndex(r, ids[k])].locked &&
      r[TripIndex(r, ids[k])].vatReportId == Some(vatReportId)
  {
    BulkMarks(s, ids, VatPatch(vatReportId));
  }

  /** A bulk unlock can only stop at an id no trip carries. */
  lemma {:induction false} BulkUnlockStopsOnlyWhenMissing(s: seq<Trip>, ids: seq<string>)
    requires Bulk(s, ids, UNLOCK).Stopped?
    ensures Bulk(s, ids, UNLOCK).error == NotFound
    decreases |ids|
  {
    if TripUpdate(s, ids[0], UNLOCK).Ok? {
      BulkUnlockStopsOnlyWhenMissing(TripUpdate(s, ids[0], UNLOCK).value, ids[1..]);
    }
  }

  /** Listing the same id twice makes a bulk lock stop at its second occurrence. */
  lemma LockSameTwiceStops(s: seq<Trip>, id: string)
    requires TripUpdate(s, id, LOCK).Ok?
    ensures Bulk(s, [id, id], LOCK) == Stopped(TripUpdate(s, id, LOCK).value, id, LockedTrip)
  {
    var t := TripUpdate(s, id, LOCK).value;
    LockTwiceFails(s, id);
    assert [id, id][1..] == [id];
  }

  /** The deletions of `bulkDeleteTrips`, one per id in order; a delete never throws. */
  function DeleteAll(s: seq<Trip>, ids: seq<string>): seq<Trip>
    decreases |ids|
  {
    if ids == [] then s else DeleteAll(RemoveFirst(s, TripIs(ids[0])), ids[1..])
  }

  /** Bulk deletion removes no trip whose id is not listed and removes at most one trip per id. */
  lemma {:induction false} DeleteAllKeepsOthers(s: seq<Trip>, ids: seq<string>)
    ensures multiset(DeleteAll(s, ids)) <= multiset(s)
    ensures |DeleteAll(s, ids)| >= |s| - |ids|
    ensures forall t: Trip :: t.id !in ids ==> multiset(DeleteAll(s, ids))[t] == multiset(s)[t]
    decreases |ids|
  {
    if ids != [] {
      var s1 := RemoveFirst(s, TripIs(ids[0]));
      DeleteAllKeepsOthers(s1, ids[1..]);
      forall t: Trip | t.id !in ids
        ensures multiset(DeleteAll(s, ids))[t] == multiset(s)[t]
      {
        RemoveFirstKeeps(s, TripIs(ids[0]), t);
        assert t.id !in ids[1..];
      }
    }
  }

  /** `bulkDeleteTrips`: one awaited store delete per id, in order. */
  method BulkDeleteTrips(store: MockStore, ids: seq<string>)
    modifies store`trips
    ensures store.trips == DeleteAll(old(store.trips), ids)
  {
    var i := 0;
    while i < |ids|
      invariant 0 <= i <= |ids|
      invariant DeleteAll(old(store.trips), ids) == DeleteAll(store.trips, ids[i..])
    {
      assert ids[i..][0] == ids[i] && ids[i..][1..] == ids[i + 1..];
      store.DeleteTrip(ids[i]);
      i := i + 1;
    }
  }
}
