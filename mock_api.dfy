/**
 * The frontend's in-memory mock back end: module-level arrays of trips, vehicles,
 * drivers, users, holidays and odometer readings that the CRUD objects change in
 * place by push, splice and index assignment, and the per-user onboarding states.
 *
 * Values the store takes from the environment are parameters: the current time
 * (`new Date().toISOString()`) is `now`, and date parsing (`new Date(s)`) is `parse`.
 */
module MockApi {
  import opened Common

  datatype StoreError = NotFound | LockedTrip

  /** A store call either returns a value or throws one of the store's errors. */
  datatype Outcome<T> = Ok(value: T) | Fail(error: StoreError)

  // ---------------------------------------------------------------- records

  datatype Trip = Trip(
    id: string,
    vehicleId: string,
    driverId: Option<string>,
    source: string,
    tripType: string,
    startTime: string,
    endTime: string,
    startLocation: Option<string>,
    endLocation: Option<string>,
    distanceKm: int,
    description: Option<string>,
    locked: bool,
    vatReportId: Option<string>,
    createdAt: string,
    updatedAt: string)

  /** `Partial<Trip>`: `None` for a property the object does not carry. */
  datatype TripPatch = TripPatch(
    id: Option<string>,
    vehicleId: Option<string>,
    driverId: Option<string>,
    source: Option<string>,
    tripType: Option<string>,
    startTime: Option<string>,
    endTime: Option<string>,
    startLocation: Option<string>,
    endLocation: Option<string>,
    distanceKm: Option<int>,
    description: Option<string>,
    locked: Option<bool>,
    vatReportId: Option<string>,
    createdAt: Option<string>,
    updatedAt: Option<string>)

  const EMPTY_PATCH := TripPatch(None, None, None, None, None, None, None, None, None, None, None, None, None, None, None)

  datatype Vehicle = Vehicle(id: string, registrationNo: string, active: Option<bool>)

  datatype Driver = Driver(
    id: string,
    name: string,
    userId: Option<string>,
    role: Option<string>,
    defaultVehicleId: Option<string>,
    drivingPermission: Option<string>)

  /** A user as the store hands it out, without the password. */
  datatype UserRecord = UserRecord(id: string, email: string, role: string, company: string, driverId: Option<string>)

  /** `Omit<User, "id">`: what a caller supplies to create a user. */
  datatype UserData = UserData(email: string, role: string, company: string, driverId: Option<string>)

  datatype Account = Account(user: UserRecord, password: string)

  datatype Holiday = Holiday(id: string, date: string, name: string, holidayType: string, country: string)

  datatype OdometerReading = OdometerReading(id: string, vehicleId: string, date: string, odometerKm: int)

  // ---------------------------------------------------------------- lookups by id

  function TripIs(id: string): Trip -> bool {
    (t: Trip) => t.id == id
  }

  function VehicleWithId(id: string): Vehicle -> bool {
    (v: Vehicle) => v.id == id
  }

  function DriverWithId(id: string): Driver -> bool {
    (d: Driver) => d.id == id
  }

  function AccountWithId(id: string): Account -> bool {
    (a: Account) => a.user.id == id
  }

  function HolidayWithId(id: string): Holiday -> bool {
    (h: Holiday) => h.id == id
  }

  function ReadingWithId(id: string): OdometerReading -> bool {
    (o: OdometerReading) => o.id == id
  }

  /** `i` is the position `findIndex` reports for `id`: the first trip carrying it. */
  predicate FirstWithId(s: seq<Trip>, id: string, i: int) {
    0 <= i < |s| && s[i].id == id && forall j :: 0 <= j < i ==> s[j].id != id
  }

  // ---------------------------------------------------------------- trips

  /**
   * The trip `create` builds: the next id `String(length + 1)`, and each supplied
   * truthy property, else its default (an empty text, distance 0, type "business",
   * source "manual", the current time for both ends). A new trip is never locked.
   * Properties outside this list, such as `vatReportId`, are not copied.
   */
  function NewTrip(count: nat, data: TripPatch, now: string): (t: Trip)
    ensures t.id == NatToString(count + 1) && !t.locked && t.vatReportId.None?
    ensures t.source == (if Given(data.source) then data.source.value else "manual")
    ensures t.tripType == (if Given(data.tripType) then data.tripType.value else "business")
    ensures t.startTime == (if Given(data.startTime) then data.startTime.value else now)
    ensures t.endTime == (if Given(data.endTime) then data.endTime.value else now)
    ensures t.createdAt == now && t.updatedAt == now
  {
    Trip(NatToString(count + 1),
         OrElse(data.vehicleId, ""),
         Some(OrElse(data.driverId, "")),
         OrElse(data.source, "manual"),
         OrElse(data.tripType, "business"),
         OrElse(data.startTime, now),
         OrElse(data.endTime, now),
         Some(OrElse(data.startLocation, "")),
         Some(OrElse(data.endLocation, "")),
         data.distanceKm.GetOr(0),
         Some(OrElse(data.description, "")),
         false,
         None,
         now,
         now)
  }

  /** `{ ...trip, ...data }`: each property the patch carries replaces the trip's. */
  function Merge(t: Trip, p: TripPatch): (r: Trip)
    ensures p.locked.Some? ==> r.locked == p.locked.value
    ensures p.locked.None? ==> r.locked == t.locked
    ensures p.vatReportId.Some? ==> r.vatReportId == p.vatReportId
    ensures p.vatReportId.None? ==> r.vatReportId == t.vatReportId
    ensures p.id.None? ==> r.id == t.id
    ensures p == EMPTY_PATCH ==> r == t
  {
    Trip(p.id.GetOr(t.id),
         p.vehicleId.GetOr(t.vehicleId),
         if p.driverId.Some? then p.driverId else t.driverId,
         p.source.GetOr(t.source),
         p.tripType.GetOr(t.tripType),
         p.startTime.GetOr(t.startTime),
         p.endTime.GetOr(t.endTime),
         if p.startLocation.Some? then p.startLocation else t.startLocation,
         if p.endLocation.Some? then p.endLocation else t.endLocation,
         p.distanceKm.GetOr(t.distanceKm),
         if p.description.Some? then p.description else t.description,
         p.locked.GetOr(t.locked),
         if p.vatReportId.Some? then p.vatReportId else t.vatReportId,
         p.createdAt.GetOr(t.createdAt),
         p.updatedAt.GetOr(t.updatedAt))
  }

  /**
   * `mockTripsApi.update` on the trip list: an absent id throws "not found"; a locked
   * trip throws unless the patch unlocks it (`locked: false`); otherwise the first
   * trip with the id takes the patch and every other trip stays.
   */
  function TripUpdate(s: seq<Trip>, id: string, data: TripPatch): (r: Outcome<seq<Trip>>)
    ensures r == Fail(NotFound) <==> forall j :: 0 <= j < |s| ==> s[j].id != id
    ensures r.Fail? ==> r.error == NotFound || r.error == LockedTrip
    ensures r == Fail(LockedTrip) <==> exists i :: FirstWithId(s, id, i) && s[i].locked && data.locked != Some(false)
    ensures r.Ok? ==> exists i :: FirstWithId(s, id, i) && (!s[i].locked || data.locked == Some(false)) &&
                                  r.value == s[i := Merge(s[i], data)]
  {
    var i := FindIndex(s, TripIs(id));
    if i == -1 then Fail(NotFound)
    else if s[i].locked && data.locked != Some(false) then
      assert FirstWithId(s, id, i);
      Fail(LockedTrip)
    else
      assert FirstWithId(s, id, i);
      Ok(s[i := Merge(s[i], data)])
  }

  /** The position of the first trip with `id`, as `findIndex` reports it. */
  function TripIndex(s: seq<Trip>, id: string): (i: int)
    ensures i == -1 <==> forall j :: 0 <= j < |s| ==> s[j].id != id
    ensures i != -1 ==> FirstWithId(s, id, i)
  {
    FindIndex(s, TripIs(id))
  }

  /** An update changes only the trip it found, and only as its patch says. */
  lemma UpdateKeepsOthers(s: seq<Trip>, id: string, data: TripPatch)
    requires TripUpdate(s, id, data).Ok?
    ensures var i := TripIndex(s, id);
      var r := TripUpdate(s, id, data).value;
      i != -1 && |r| == |s| && r[i] == Merge(s[i], data) &&
      (forall j :: 0 <= j < |s| && j != i ==> r[j] == s[j])
  {
    var i :| FirstWithId(s, id, i) && TripUpdate(s, id, data).value == s[i := Merge(s[i], data)];
    assert TripIndex(s, id) == i;
  }

  // ---------------------------------------------------------------- trip filters

  /** The optional filters of `mockTripsApi.getAll`. */
  datatype TripFilters = TripFilters(
    vehicleId: Option<string>,
    driverId: Option<string>,
    dateFrom: Option<string>,
    dateTo: Option<string>,
    tripType: Option<string>,
    source: Option<string>,
    locked: Option<bool>)

  const NO_FILTERS := TripFilters(None, None, None, None, None, None, None)

  function VehicleIs(v: string): Trip -> bool {
    (t: Trip) => t.vehicleId == v
  }

  function DriverIs(d: string): Trip -> bool {
    (t: Trip) => t.driverId == Some(d)
  }

  function StartsFrom(from: int, parse: string -> int): Trip -> bool {
    (t: Trip) => parse(t.startTime) >= from
  }

  function StartsBy(to: int, parse: string -> int): Trip -> bool {
    (t: Trip) => parse(t.startTime) <= to
  }

  function TypeIs(ty: string): Trip -> bool {
    (t: Trip) => t.tripType == ty
  }

  function SourceIs(src: string): Trip -> bool {
    (t: Trip) => t.source == src
  }

  function LockedIs(b: bool): Trip -> bool {
    (t: Trip) => t.locked == b
  }

  /** Step `k` of `getAll`: the `k`-th filter narrows the list when it is set (a truthy text, or for `locked` anything but `undefined`). */
  function NarrowedBy(r: seq<Trip>, f: TripFilters, parse: string -> int, k: nat): seq<Trip> {
    match k
    case 0 => if Given(f.vehicleId) then Filter(r, VehicleIs(f.vehicleId.value)) else r
    case 1 => if Given(f.driverId) then Filter(r, DriverIs(f.driverId.value)) else r
    case 2 => if Given(f.dateFrom) then Filter(r, StartsFrom(parse(f.dateFrom.value), parse)) else r
    case 3 => if Given(f.dateTo) then Filter(r, StartsBy(parse(f.dateTo.value), parse)) else r
    case 4 => if Given(f.tripType) then Filter(r, TypeIs(f.tripType.value)) else r
    case 5 => if Given(f.source) then Filter(r, SourceIs(f.source.value)) else r
    case 6 => if f.locked.Some? then Filter(r, LockedIs(f.locked.value)) else r
    case _ => r
  }

  /** The list after the first `k` filter steps. */
  function ListedUpTo(s: seq<Trip>, f: TripFilters, parse: string -> int, k: nat): seq<Trip> {
    if k == 0 then s else NarrowedBy(ListedUpTo(s, f, parse, k - 1), f, parse, k - 1)
  }

  /** The trips `getAll` returns. */
  function ListedTrips(s: seq<Trip>, f: TripFilters, parse: string -> int): seq<Trip> {
    ListedUpTo(s, f, parse, 7)
  }

  /** The condition filter `k` imposes on a trip; none when it is not set. */
  predicate CriterionHolds(f: TripFilters, parse: string -> int, k: nat, t: Trip) {
    match k
    case 0 => Given(f.vehicleId) ==> t.vehicleId == f.vehicleId.value
    case 1 => Given(f.driverId) ==> t.driverId == Some(f.driverId.value)
    case 2 => Given(f.dateFrom) ==> parse(t.startTime) >= parse(f.dateFrom.value)
    case 3 => Given(f.dateTo) ==> parse(t.startTime) <= parse(f.dateTo.value)
    case 4 => Given(f.tripType) ==> t.tripType == f.tripType.value
    case 5 => Given(f.source) ==> t.source == f.source.value
    case 6 => f.locked.Some? ==> t.locked == f.locked.value
    case _ => true
  }

  /** What a listed trip satisfies: every filter that is set. */
  predicate TripMatches(f: TripFilters, parse: string -> int, t: Trip) {
    (Given(f.vehicleId) ==> t.vehicleId == f.vehicleId.value) &&
    (Given(f.driverId) ==> t.driverId == Some(f.driverId.value)) &&
    (Given(f.dateFrom) ==> parse(t.startTime) >= parse(f.dateFrom.value)) &&
    (Given(f.dateTo) ==> parse(t.startTime) <= parse(f.dateTo.value)) &&
    (Given(f.tripType) ==> t.tripType == f.tripType.value) &&
    (Given(f.source) ==> t.source == f.source.value) &&
    (f.locked.Some? ==> t.locked == f.locked.value)
  }

  /** One step keeps exactly the trips meeting its condition, in order. */
  lemma NarrowedMembers(r: seq<Trip>, f: TripFilters, parse: string -> int, k: nat)
    ensures forall t :: t in NarrowedBy(r, f, parse, k) <==> t in r && CriterionHolds(f, parse, k, t)
  {
    match k
    case 0 => FilterMembers(r, VehicleIs(f.vehicleId.GetOr("")));
    case 1 => FilterMembers(r, DriverIs(f.driverId.GetOr("")));
    case 2 => FilterMembers(r, StartsFrom(parse(f.dateFrom.GetOr("")), parse));
    case 3 => FilterMembers(r, StartsBy(parse(f.dateTo.GetOr("")), parse));
    case 4 => FilterMembers(r, TypeIs(f.tripType.GetOr("")));
    case 5 => FilterMembers(r, SourceIs(f.source.GetOr("")));
    case 6 => FilterMembers(r, LockedIs(f.locked.GetOr(false)));
    case _ =>
  }

  lemma {:induction false} ListedUpToMembers(s: seq<Trip>, f: TripFilters, parse: string -> int, k: nat, t: Trip)
    ensures t in ListedUpTo(s, f, parse, k) <==> t in s && forall i :: 0 <= i < k ==> CriterionHolds(f, parse, i, t)
  {
    if k > 0 {
      ListedUpToMembers(s, f, parse, k - 1, t);
      NarrowedMembers(ListedUpTo(s, f, parse, k - 1), f, parse, k - 1);
    }
  }

  /** The listed trips are exactly the stored trips matching every set filter. */
  lemma ListedTripsMembers(s: seq<Trip>, f: TripFilters, parse: string -> int)
    ensures forall t :: t in ListedTrips(s, f, parse) <==> t in s && TripMatches(f, parse, t)
  {
    forall t
      ensures t in ListedTrips(s, f, parse) <==> t in s && TripMatches(f, parse, t)
    {
      ListedUpToMembers(s, f, parse, 7, t);
      assert (forall i :: 0 <= i < 7 ==> CriterionHolds(f, parse, i, t)) <==> TripMatches(f, parse, t) by {
        if TripMatches(f, parse, t) {
          forall i | 0 <= i < 7 ensures CriterionHolds(f, parse, i, t) {
          }
        } else {
          assert !(CriterionHolds(f, parse, 0, t) && CriterionHolds(f, parse, 1, t) && CriterionHolds(f, parse, 2, t) &&
                   CriterionHolds(f, parse, 3, t) && CriterionHolds(f, parse, 4, t) && CriterionHolds(f, parse, 5, t) &&
                   CriterionHolds(f, parse, 6, t));
        }
      }
    }
  }

  /** Filtering distributes over concatenation, so the listed trips keep their stored order. */
  lemma {:induction false} ListedUpToConcat(a: seq<Trip>, b: seq<Trip>, f: TripFilters, parse: string -> int, k: nat)
    ensures ListedUpTo(a + b, f, parse, k) == ListedUpTo(a, f, parse, k) + ListedUpTo(b, f, parse, k)
  {
    if k > 0 {
      ListedUpToConcat(a, b, f, parse, k - 1);
      var ra, rb := ListedUpTo(a, f, parse, k - 1), ListedUpTo(b, f, parse, k - 1);
      match k - 1
      case 0 => FilterConcat(ra, rb, VehicleIs(f.vehicleId.GetOr("")));
      case 1 => FilterConcat(ra, rb, DriverIs(f.driverId.GetOr("")));
      case 2 => FilterConcat(ra, rb, StartsFrom(parse(f.dateFrom.GetOr("")), parse));
      case 3 => FilterConcat(ra, rb, StartsBy(parse(f.dateTo.GetOr("")), parse));
      case 4 => FilterConcat(ra, rb, TypeIs(f.tripType.GetOr("")));
      case 5 => FilterConcat(ra, rb, SourceIs(f.source.GetOr("")));
      case 6 => FilterConcat(ra, rb, LockedIs(f.locked.GetOr(false)));
      case _ =>
    }
  }

  /** Listing keeps stored order: listing a concatenation concatenates the listings. */
  lemma ListedTripsConcat(a: seq<Trip>, b: seq<Trip>, f: TripFilters, parse: string -> int)
    ensures ListedTrips(a + b, f, parse) == ListedTrips(a, f, parse) + ListedTrips(b, f, parse)
  {
    ListedUpToConcat(a, b, f, parse, 7);
  }

  /** Without filters every trip is listed, `locked` included. */
  lemma NoFiltersListAll(s: seq<Trip>, parse: string -> int)
    ensures ListedTrips(s, NO_FILTERS, parse) == s
  {
    NoFiltersUpTo(s, parse, 7);
  }

  lemma {:induction false} NoFiltersUpTo(s: seq<Trip>, parse: string -> int, k: nat)
    ensures ListedUpTo(s, NO_FILTERS, parse, k) == s
  {
    if k > 0 {
      NoFiltersUpTo(s, parse, k - 1);
    }
  }

  // ---------------------------------------------------------------- users and drivers

  /** The first driver with `driverId`, if any, takes the given link; all else stays. */
  function Relinked(ds: seq<Driver>, driverId: string, userId: Option<string>, role: Option<string>): (r: seq<Driver>)
    ensures |r| == |ds|
    ensures var k := FindIndex(ds, DriverWithId(driverId));
      (k == -1 ==> r == ds) &&
      (k != -1 ==> r == ds[k := ds[k].(userId := userId, role := role)])
  {
    var k := FindIndex(ds, DriverWithId(driverId));
    if k == -1 then ds else ds[k := ds[k].(userId := userId, role := role)]
  }

  /** Drivers after `create`: a new "driver" user with a truthy `driverId` is linked to that driver. */
  function LinkedOnCreate(ds: seq<Driver>, data: UserData, newId: string): seq<Driver> {
    if data.role == "driver" && Given(data.driverId) then Relinked(ds, data.driverId.value, Some(newId), Some("driver"))
    else ds
  }

  /** Drivers after `delete`: the driver named by the user's truthy `driverId` loses its link. */
  function UnlinkedOnDelete(ds: seq<Driver>, u: UserRecord): seq<Driver> {
    if Given(u.driverId) then Relinked(ds, u.driverId.value, None, None) else ds
  }

  /** Relinking the same driver twice leaves the second link. */
  lemma RelinkLastWins(ds: seq<Driver>, driverId: string, u1: Option<string>, r1: Option<string>, u2: Option<string>, r2: Option<string>)
    ensures Relinked(Relinked(ds, driverId, u1, r1), driverId, u2, r2) == Relinked(ds, driverId, u2, r2)
  {
    var k := FindIndex(ds, DriverWithId(driverId));
    var mid := Relinked(ds, driverId, u1, r1);
    if k != -1 {
      assert forall j :: 0 <= j < |mid| ==> mid[j].id == ds[j].id;
      assert FindIndex(mid, DriverWithId(driverId)) == k;
    }
  }

  /** Creating a linked driver user and deleting it again leaves that driver unlinked. */
  lemma CreateThenDeleteUnlinks(ds: seq<Driver>, data: UserData, newId: string)
    requires data.role == "driver" && Given(data.driverId)
    ensures UnlinkedOnDelete(LinkedOnCreate(ds, data, newId), UserRecord(newId, data.email, data.role, data.company, data.driverId)) ==
            Relinked(ds, data.driverId.value, None, None)
  {
    RelinkLastWins(ds, data.driverId.value, Some(newId), Some("driver"), None, None);
  }

  /** Drivers that had no link before a create get it back exactly by the matching delete. */
  lemma CreateThenDeleteRestores(ds: seq<Driver>, data: UserData, newId: string)
    requires data.role == "driver" && Given(data.driverId)
    requires forall j :: 0 <= j < |ds| && ds[j].id == data.driverId.value ==> ds[j].userId.None? && ds[j].role.None?
    ensures UnlinkedOnDelete(LinkedOnCreate(ds, data, newId), UserRecord(newId, data.email, data.role, data.company, data.driverId)) == ds
  {
    CreateThenDeleteUnlinks(ds, data, newId);
    var k := FindIndex(ds, DriverWithId(data.driverId.value));
    if k != -1 {
      assert ds[k].(userId := None, role := None) == ds[k];
    }
  }

  // ---------------------------------------------------------------- holidays

  /** `a.localeCompare(b) <= 0`, taken as lexicographic order of the characters. */
  predicate DateLe(a: string, b: string)
    decreases |a|
  {
    a == [] || (b != [] && (a[0] < b[0] || (a[0] == b[0] && DateLe(a[1..], b[1..]))))
  }

  lemma {:induction false} DateLeTotal(a: string, b: string)
    ensures DateLe(a, b) || DateLe(b, a)
    decreases |a|
  {
    if a != [] && b != [] && a[0] == b[0] {
      DateLeTotal(a[1..], b[1..]);
    }
  }

  /** Each holiday's date is at most the date of the next one. */
  predicate SortedByDate(s: seq<Holiday>) {
    forall i :: 0 < i < |s| ==> DateLe(s[i - 1].date, s[i].date)
  }

  /** Inserts before the first holiday whose date is not smaller, so equal dates keep their order. */
  function InsertByDate(h: Holiday, s: seq<Holiday>): (r: seq<Holiday>)
    requires SortedByDate(s)
    ensures SortedByDate(r) && multiset(r) == multiset(s) + multiset{h} && |r| == |s| + 1
    ensures r[0] == h || (s != [] && r[0] == s[0])
  {
    if s == [] then [h]
    else if DateLe(h.date, s[0].date) then [h] + s
    else
      DateLeTotal(h.date, s[0].date);
      var rest := InsertByDate(h, s[1..]);
      assert s == [s[0]] + s[1..];
      [s[0]] + rest
  }

  /** `sort` by date: a stable insertion sort. */
  function SortByDate(s: seq<Holiday>): (r: seq<Holiday>)
    ensures SortedByDate(r) && multiset(r) == multiset(s) && |r| == |s|
  {
    if s == [] then []
    else
      assert s == [s[0]] + s[1..];
      InsertByDate(s[0], SortByDate(s[1..]))
  }

  function YearIs(year: int): Holiday -> bool {
    (h: Holiday) => IsPrefix(IntToString(year), h.date)
  }

  function HolidayTypeIs(ty: string): Holiday -> bool {
    (h: Holiday) => h.holidayType == ty
  }

  function CountryIs(c: string): Holiday -> bool {
    (h: Holiday) => h.country == c
  }

  /** Step `k` of `mockHolidaysApi.getAll`: year (a non-zero number), then type, then country. */
  function HolidaysNarrowedBy(r: seq<Holiday>, year: Option<int>, ty: Option<string>, country: Option<string>, k: nat): seq<Holiday> {
    match k
    case 0 => if year.Some? && year.value != 0 then Filter(r, YearIs(year.value)) else r
    case 1 => if Given(ty) then Filter(r, HolidayTypeIs(ty.value)) else r
    case 2 => if Given(country) then Filter(r, CountryIs(country.value)) else r
    case _ => r
  }

  function HolidaysUpTo(s: seq<Holiday>, year: Option<int>, ty: Option<string>, country: Option<string>, k: nat): seq<Holiday> {
    if k == 0 then s else HolidaysNarrowedBy(HolidaysUpTo(s, year, ty, country, k - 1), year, ty, country, k - 1)
  }

  /** What a listed holiday satisfies: every parameter that is set. */
  predicate HolidayMatches(year: Option<int>, ty: Option<string>, country: Option<string>, h: Holiday) {
    (year.Some? && year.value != 0 ==> IsPrefix(IntToString(year.value), h.date)) &&
    (Given(ty) ==> h.holidayType == ty.value) &&
    (Given(country) ==> h.country == country.value)
  }

  /** The holidays `getAll` returns: the matching ones, sorted by date. */
  function ListedHolidays(s: seq<Holiday>, year: Option<int>, ty: Option<string>, country: Option<string>): seq<Holiday> {
    SortByDate(HolidaysUpTo(s, year, ty, country, 3))
  }

  predicate HolidayCriterion(year: Option<int>, ty: Option<string>, country: Option<string>, k: nat, h: Holiday) {
    match k
    case 0 => year.Some? && year.value != 0 ==> IsPrefix(IntToString(year.value), h.date)
    case 1 => Given(ty) ==> h.holidayType == ty.value
    case 2 => Given(country) ==> h.country == country.value
    case _ => true
  }

  /** One step keeps exactly the holidays meeting its condition. */
  lemma HolidaysNarrowedMembers(r: seq<Holiday>, year: Option<int>, ty: Option<string>, country: Option<string>, k: nat)
    ensures forall h :: h in HolidaysNarrowedBy(r, year, ty, country, k) <==> h in r && HolidayCriterion(year, ty, country, k, h)
  {
    match k
    case 0 =>
      FilterMembers(r, YearIs(year.GetOr(0)));
    case 1 =>
      FilterMembers(r, HolidayTypeIs(ty.GetOr("")));
    case 2 =>
      FilterMembers(r, CountryIs(country.GetOr("")));
    case _ =>
  }

  /**
   * The listed holidays are sorted by date and are exactly the stored holidays that
   * match.
   */
  lemma ListedHolidaysMeaning(s: seq<Holiday>, year: Option<int>, ty: Option<string>, country: Option<string>)
    ensures SortedByDate(ListedHolidays(s, year, ty, country))
    ensures forall h :: h in ListedHolidays(s, year, ty, country) <==> h in s && HolidayMatches(year, ty, country, h)
  {
    var r1 := HolidaysUpTo(s, year, ty, country, 1);
    var r2 := HolidaysUpTo(s, year, ty, country, 2);
    var r3 := HolidaysUpTo(s, year, ty, country, 3);
    assert HolidaysUpTo(s, year, ty, country, 0) == s;
    assert r1 == HolidaysNarrowedBy(s, year, ty, country, 0);
    assert r2 == HolidaysNarrowedBy(r1, year, ty, country, 1);
    assert r3 == HolidaysNarrowedBy(r2, year, ty, country, 2);
    HolidaysNarrowedMembers(s, year, ty, country, 0);
    HolidaysNarrowedMembers(r1, year, ty, country, 1);
    HolidaysNarrowedMembers(r2, year, ty, country, 2);
    assert multiset(ListedHolidays(s, year, ty, country)) == multiset(r3);
    forall h
      ensures h in ListedHolidays(s, year, ty, country) <==> h in s && HolidayMatches(year, ty, country, h)
    {
      assert h in ListedHolidays(s, year, ty, country) <==> h in multiset(r3);
      assert HolidayMatches(year, ty, country, h) <==>
        HolidayCriterion(year, ty, country, 0, h) && HolidayCriterion(year, ty, country, 1, h) &&
        HolidayCriterion(year, ty, country, 2, h);
    }
  }

  // ---------------------------------------------------------------- odometer

  function ReadingOf(vehicleId: string): OdometerReading -> bool {
    (o: OdometerReading) => o.vehicleId == vehicleId
  }

  /**
   * Head of the list sorted newest first by a stable sort: the first reading whose
   * date is the greatest, or none for an empty list.
   */
  function Latest(rs: seq<OdometerReading>, parse: string -> int): (r: Option<OdometerReading>)
    ensures r.None? <==> rs == []
    ensures r.Some? ==> exists i :: 0 <= i < |rs| && rs[i] == r.value &&
                                    (forall j :: 0 <= j < i ==> parse(rs[j].date) < parse(r.value.date))
    ensures r.Some? ==> forall j :: 0 <= j < |rs| ==> parse(rs[j].date) <= parse(r.value.date)
  {
    if rs == [] then None
    else
      var rest := Latest(rs[1..], parse);
      if rest.None? || parse(rs[0].date) >= parse(rest.value.date) then Some(rs[0])
      else
        var i :| 0 <= i < |rs[1..]| && rs[1..][i] == rest.value &&
                 (forall j :: 0 <= j < i ==> parse(rs[1..][j].date) < parse(rest.value.date));
        assert rs[i + 1] == rest.value;
        rest
  }

  // ---------------------------------------------------------------- onboarding

  datatype Step = Welcome | UserType | VehicleSetup | DriverSetup | PlacesSetup | FirstTrip | AdvancedFeatures | Completed

  /** `not_started`, `in_progress`, `completed`, `skipped`. */
  datatype OnboardingStatus = StatusNotStarted | StatusInProgress | StatusCompleted | StatusSkipped

  datatype OnboardingState = OnboardingState(
    status: OnboardingStatus,
    currentStep: Step,
    completedSteps: seq<Step>,
    completedMissions: seq<string>,
    showTips: bool)

  datatype MissionStatus = MissionLocked | MissionAvailable | MissionInProgress | MissionCompleted

  /** A mission, reduced to what the state machines read: its id, status, the ids of its guided steps, and the step index. */
  datatype Mission = Mission(id: string, status: MissionStatus, steps: seq<string>, currentStepIndex: Option<int>)

  /** The state a user without a stored one gets. */
  const DEFAULT_STATE := OnboardingState(StatusNotStarted, Welcome, [], [], true)

  /** The order `updateStep` walks; `Completed` is not in it. */
  const STEP_ORDER: seq<Step> := [Welcome, UserType, VehicleSetup, DriverSetup, PlacesSetup, FirstTrip, AdvancedFeatures]

  /** `steps.indexOf(step)`: the position in the order, or -1 for `Completed`. */
  function StepIndex(step: Step): (i: int)
    ensures -1 <= i < |STEP_ORDER|
    ensures i == -1 <==> step == Completed
    ensures i != -1 ==> STEP_ORDER[i] == step
  {
    match step
    case Welcome => 0
    case UserType => 1
    case VehicleSetup => 2
    case DriverSetup => 3
    case PlacesSetup => 4
    case FirstTrip => 5
    case AdvancedFeatures => 6
    case Completed => -1
  }

  /** `steps[currentIndex + 1] || "completed"`. */
  function NextStep(step: Step): (n: Step)
    ensures step != Completed && step != AdvancedFeatures ==> n == STEP_ORDER[StepIndex(step) + 1]
    ensures step == AdvancedFeatures ==> n == Completed
    ensures step == Completed ==> n == Welcome
  {
    var i := StepIndex(step);
    if i + 1 < |STEP_ORDER| then STEP_ORDER[i + 1] else Completed
  }

  /** Following the order from `Welcome` reaches `Completed` after exactly seven steps. */
  lemma WalkCompletes()
    ensures NextStep(Welcome) == UserType && NextStep(UserType) == VehicleSetup
    ensures NextStep(VehicleSetup) == DriverSetup && NextStep(DriverSetup) == PlacesSetup
    ensures NextStep(PlacesSetup) == FirstTrip && NextStep(FirstTrip) == AdvancedFeatures
    ensures NextStep(AdvancedFeatures) == Completed
  {
  }

  /** The stored state, or the default for a user without one. */
  function StateOf(m: map<string, OnboardingState>, userId: string): OnboardingState {
    if userId in m then m[userId] else DEFAULT_STATE
  }

  /** The state `updateStep` leaves: the step recorded once, the next step current, status in progress. */
  function AfterStep(st: OnboardingState, step: Step): (r: OnboardingState)
    ensures step in r.completedSteps && r.status == StatusInProgress && r.currentStep == NextStep(step)
    ensures r.completedMissions == st.completedMissions && r.showTips == st.showTips
  {
    st.(completedSteps := if step in st.completedSteps then st.completedSteps else st.completedSteps + [step],
        currentStep := NextStep(step),
        status := StatusInProgress)
  }

  /** A step is recorded at most once, and the earlier record is kept as it was. */
  lemma StepRecordedOnce(st: OnboardingState, step: Step)
    ensures var r := AfterStep(st, step).completedSteps;
      (step in st.completedSteps ==> r == st.completedSteps) &&
      (step !in st.completedSteps ==> r == st.completedSteps + [step]) &&
      multiset(r)[step] == if step in st.completedSteps then multiset(st.completedSteps)[step] else 1
  {
    if step !in st.completedSteps {
      assert multiset(st.completedSteps)[step] == 0;
    }
  }

  /** Repeating a step changes nothing more. */
  lemma StepIdempotent(st: OnboardingState, step: Step)
    ensures AfterStep(AfterStep(st, step), step) == AfterStep(st, step)
  {
  }

  /** A mission's status: completed when recorded, else completed by a finished step, else the fallback. */
  function StatusFrom(st: OnboardingState, id: string, step: Option<Step>, fallback: MissionStatus): MissionStatus {
    if id in st.completedMissions then MissionCompleted
    else if step.Some? && step.value in st.completedSteps then MissionCompleted
    else fallback
  }

  /** `getMissions`: the six missions with their status derived from the state. */
  function MissionsFor(st: OnboardingState): (ms: seq<Mission>)
    ensures |ms| == 6
    ensures forall i :: 0 <= i < 6 ==> ms[i].id == MISSION_IDS[i]
  {
    [Mission("first_vehicle", StatusFrom(st, "first_vehicle", Some(VehicleSetup), MissionAvailable),
             ["navigate_vehicles", "click_add_vehicle", "submit_vehicle"], None),
     Mission("first_trip", StatusFrom(st, "first_trip", Some(FirstTrip), MissionAvailable), [], None),
     Mission("three_partners", StatusFrom(st, "three_partners", None, MissionAvailable), [], None),
     Mission("try_autogenerate",
             if "try_autogenerate" in st.completedMissions then MissionCompleted
             else if AdvancedFeatures in st.completedSteps then MissionAvailable
             else MissionLocked, [], None),
     Mission("first_vat_report", StatusFrom(st, "first_vat_report", None, MissionAvailable), [], None),
     Mission("setup_defaults", StatusFrom(st, "setup_defaults", Some(DriverSetup), MissionAvailable), [], None)]
  }

  const MISSION_IDS: seq<string> := ["first_vehicle", "first_trip", "three_partners", "try_autogenerate", "first_vat_report", "setup_defaults"]

  /**
   * The derived missions: the fixed six ids in order; a recorded mission is completed;
   * the vehicle, trip and defaults missions are also completed by the vehicle-setup,
   * first-trip and driver-setup steps and are available otherwise; the partners and
   * VAT report missions are completed only when recorded and are available otherwise;
   * auto-generation is completed when recorded, else available after the advanced
   * features step and locked before it; no mission is in progress; only the first
   * has steps.
   */
  lemma MissionsLaws(st: OnboardingState)
    ensures var ms := MissionsFor(st);
      (forall i :: 0 <= i < 6 ==> ms[i].id == MISSION_IDS[i]) &&
      (forall i :: 0 <= i < 6 && ms[i].id in st.completedMissions ==> ms[i].status == MissionCompleted) &&
      (forall i :: 0 <= i < 6 ==> ms[i].status != MissionInProgress) &&
      |ms[0].steps| == 3 && (forall i :: 1 <= i < 6 ==> ms[i].steps == [])
    ensures var ms := MissionsFor(st); var cm := st.completedMissions; var cs := st.completedSteps;
      (ms[0].status == MissionCompleted <==> "first_vehicle" in cm || VehicleSetup in cs) &&
      (ms[1].status == MissionCompleted <==> "first_trip" in cm || FirstTrip in cs) &&
      (ms[5].status == MissionCompleted <==> "setup_defaults" in cm || DriverSetup in cs) &&
      (ms[2].status == MissionCompleted <==> "three_partners" in cm) &&
      (ms[4].status == MissionCompleted <==> "first_vat_report" in cm) &&
      (forall i :: 0 <= i < 6 && i != 3 && ms[i].status != MissionCompleted ==> ms[i].status == MissionAvailable)
    ensures var ms := MissionsFor(st); var cm := st.completedMissions; var cs := st.completedSteps;
      (ms[3].status == MissionCompleted <==> "try_autogenerate" in cm) &&
      (ms[3].status == MissionAvailable <==> "try_autogenerate" !in cm && AdvancedFeatures in cs) &&
      (ms[3].status == MissionLocked <==> "try_autogenerate" !in cm && AdvancedFeatures !in cs)
  {
  }

  /** The missions of a fresh state: `try_autogenerate` is locked and the other five are available. */
  lemma FreshMissions()
    ensures var ms := MissionsFor(DEFAULT_STATE);
      ms[3].status == MissionLocked && forall i :: 0 <= i < 6 && i != 3 ==> ms[i].status == MissionAvailable
  {
    MissionsLaws(DEFAULT_STATE);
  }

  function MissionIs(id: string): Mission -> bool {
    (m: Mission) => m.id == id
  }

  /** `completeMission` on the state: the id recorded once. */
  function WithMission(st: OnboardingState, missionId: string): (r: OnboardingState)
    ensures missionId in r.completedMissions
    ensures missionId in st.completedMissions ==> r == st
    ensures missionId !in st.completedMissions ==> r == st.(completedMissions := st.completedMissions + [missionId])
  {
    if missionId in st.completedMissions then st else st.(completedMissions := st.completedMissions + [missionId])
  }

  /** The mission `completeMission` returns: the named one, marked completed, or none for an unknown id. */
  function CompletedMission(st: OnboardingState, missionId: string): Option<Mission> {
    var m := Find(MissionsFor(WithMission(st, missionId)), MissionIs(missionId));
    if m.Some? then Some(m.value.(status := MissionCompleted)) else None
  }

  /** Completing a known mission returns it completed; an unknown id returns nothing. */
  lemma CompletedMissionLaws(st: OnboardingState, missionId: string)
    ensures CompletedMission(st, missionId).Some? <==> missionId in MISSION_IDS
    ensures CompletedMission(st, missionId).Some? ==>
      CompletedMission(st, missionId).value.id == missionId &&
      CompletedMission(st, missionId).value.status == MissionCompleted
  {
    var ms := MissionsFor(WithMission(st, missionId));
    MissionsLaws(WithMission(st, missionId));
    if missionId in MISSION_IDS {
      var i :| 0 <= i < 6 && MISSION_IDS[i] == missionId;
      assert MissionIs(missionId)(ms[i]);
    } else {
      assert forall j :: 0 <= j < |ms| ==> !MissionIs(missionId)(ms[j]);
    }
  }

  // ---------------------------------------------------------------- the store

  class MockStore {
    var trips: seq<Trip>
    var vehicles: seq<Vehicle>
    var drivers: seq<Driver>
    var users: seq<Account>
    var holidays: seq<Holiday>
    var readings: seq<OdometerReading>
    /** `globalThis.MOCK_ONBOARDING_STATES`, by user id. */
    var onboarding: map<string, OnboardingState>

    constructor (trips0: seq<Trip>, vehicles0: seq<Vehicle>, drivers0: seq<Driver>, users0: seq<Account>,
                 holidays0: seq<Holiday>, readings0: seq<OdometerReading>)
      ensures trips == trips0 && vehicles == vehicles0 && drivers == drivers0 && users == users0
      ensures holidays == holidays0 && readings == readings0 && onboarding == map[]
    {
      trips := trips0;
      vehicles := vehicles0;
      drivers := drivers0;
      users := users0;
      holidays := holidays0;
      readings := readings0;
      onboarding := map[];
    }

    /**
     * `mockTripsApi.getAll`: starting from a copy of the trips, each set filter narrows
     * the list in turn. The result, in stored order, is exactly the trips matching
     * every set filter.
     */
    method ListTrips(f: TripFilters, parse: string -> int) returns (r: seq<Trip>)
      ensures r == ListedTrips(trips, f, parse)
    {
      r := trips;
      if Given(f.vehicleId) {
        r := Filter(r, VehicleIs(f.vehicleId.value));
      }
      assert r == ListedUpTo(trips, f, parse, 1);
      if Given(f.driverId) {
        r := Filter(r, DriverIs(f.driverId.value));
      }
      assert r == ListedUpTo(trips, f, parse, 2);
      if Given(f.dateFrom) {
        var from := parse(f.dateFrom.value);
        r := Filter(r, StartsFrom(from, parse));
      }
      assert r == ListedUpTo(trips, f, parse, 3);
      if Given(f.dateTo) {
        var to := parse(f.dateTo.value);
        r := Filter(r, StartsBy(to, parse));
      }
      assert r == ListedUpTo(trips, f, parse, 4);
      if Given(f.tripType) {
        r := Filter(r, TypeIs(f.tripType.value));
      }
      assert r == ListedUpTo(trips, f, parse, 5);
      if Given(f.source) {
        r := Filter(r, SourceIs(f.source.value));
      }
      assert r == ListedUpTo(trips, f, parse, 6);
      if f.locked.Some? {
        r := Filter(r, LockedIs(f.locked.value));
      }
    }

    /** `mockTripsApi.getById`: the first trip with the id, or "not found". */
    method GetTrip(id: string) returns (r: Outcome<Trip>)
      ensures r == Fail(NotFound) <==> forall j :: 0 <= j < |trips| ==> trips[j].id != id
      ensures r.Ok? ==> exists i :: FirstWithId(trips, id, i) && r.value == trips[i]
      ensures r.Fail? ==> r.error == NotFound
    {
      var i := FindIndex(trips, TripIs(id));
      if i == -1 {
        r := Fail(NotFound);
      } else {
        assert FirstWithId(trips, id, i);
        r := Ok(trips[i]);
      }
    }

    /** `mockTripsApi.create`: appends exactly the new trip and returns it. */
    method CreateTrip(data: TripPatch, now: string) returns (t: Trip)
      modifies this`trips
      ensures t == NewTrip(|old(trips)|, data, now)
      ensures trips == old(trips) + [t]
    {
      t := NewTrip(|trips|, data, now);
      trips := trips + [t];
    }

    /** `mockTripsApi.update`: replaces the found trip by the merge, or throws and changes nothing. */
    method UpdateTrip(id: string, data: TripPatch) returns (r: Outcome<Trip>)
      modifies this`trips
      ensures TripUpdate(old(trips), id, data).Fail? ==>
        r == Fail(TripUpdate(old(trips), id, data).error) && trips == old(trips)
      ensures TripUpdate(old(trips), id, data).Ok? ==>
        trips == TripUpdate(old(trips), id, data).value &&
        r == Ok(Merge(old(trips)[TripIndex(old(trips), id)], data))
    {
      var index := FindIndex(trips, TripIs(id));
      if index == -1 {
        return Fail(NotFound);
      }
      if trips[index].locked && data.locked != Some(false) {
        return Fail(LockedTrip);
      }
      trips := trips[index := Merge(trips[index], data)];
      r := Ok(trips[index]);
    }

    /** `mockTripsApi.delete`: splices out the first trip with the id; an absent id changes nothing. */
    method DeleteTrip(id: string)
      modifies this`trips
      ensures trips == RemoveFirst(old(trips), TripIs(id))
    {
      var index := FindIndex(trips, TripIs(id));
      if index != -1 {
        trips := RemoveAt(trips, index);
      }
    }

    /** `mockVehiclesApi.delete`, the same pattern on the vehicles. */
    method DeleteVehicle(id: string)
      modifies this`vehicles
      ensures vehicles == RemoveFirst(old(vehicles), VehicleWithId(id))
    {
      var index := FindIndex(vehicles, VehicleWithId(id));
      if index != -1 {
        vehicles := RemoveAt(vehicles, index);
      }
    }

    /** `mockDriversApi.delete`, the same pattern on the drivers. */
    method DeleteDriver(id: string)
      modifies this`drivers
      ensures drivers == RemoveFirst(old(drivers), DriverWithId(id))
    {
      var index := FindIndex(drivers, DriverWithId(id));
      if index != -1 {
        drivers := RemoveAt(drivers, index);
      }
    }

    /** `mockHolidaysApi.delete`, the same pattern on the holidays. */
    method DeleteHoliday(id: string)
      modifies this`holidays
      ensures holidays == RemoveFirst(old(holidays), HolidayWithId(id))
    {
      var index := FindIndex(holidays, HolidayWithId(id));
      if index != -1 {
        holidays := RemoveAt(holidays, index);
      }
    }

    /** `mockOdometerApi.delete`, the same pattern on the readings. */
    method DeleteReading(id: string)
      modifies this`readings
      ensures readings == RemoveFirst(old(readings), ReadingWithId(id))
    {
      var index := FindIndex(readings, ReadingWithId(id));
      if index != -1 {
        readings := RemoveAt(readings, index);
      }
    }

    /**
     * `mockUsersApi.create`: appends the user with id `String(length + 1)` and the
     * default password, links the named driver for a "driver" user, and returns the
     * user without its password.
     */
    method CreateUser(data: UserData) returns (u: UserRecord)
      modifies this`users, this`drivers
      ensures u == UserRecord(NatToString(|old(users)| + 1), data.email, data.role, data.company, data.driverId)
      ensures users == old(users) + [Account(u, "changeme123")]
      ensures drivers == LinkedOnCreate(old(drivers), data, u.id)
    {
      u := UserRecord(NatToString(|users| + 1), data.email, data.role, data.company, data.driverId);
      users := users + [Account(u, "changeme123")];
      if data.role == "driver" && Given(data.driverId) {
        var k := FindIndex(drivers, DriverWithId(data.driverId.value));
        if k != -1 {
          drivers := drivers[k := drivers[k].(userId := Some(u.id), role := Some("driver"))];
        }
      }
    }

    /**
     * `mockUsersApi.delete`: an absent id throws "not found" and changes nothing;
     * otherwise the user's driver link is cleared and the user is spliced out.
     */
    method DeleteUser(id: string) returns (err: Option<StoreError>)
      modifies this`users, this`drivers
      ensures FindIndex(old(users), AccountWithId(id)) == -1 ==>
        err == Some(NotFound) && users == old(users) && drivers == old(drivers)
      ensures var i := FindIndex(old(users), AccountWithId(id));
        i != -1 ==> err.None? && users == RemoveAt(old(users), i) &&
                    drivers == UnlinkedOnDelete(old(drivers), old(users)[i].user)
    {
      var index := FindIndex(users, AccountWithId(id));
      if index == -1 {
        return Some(NotFound);
      }
      var user := users[index].user;
      if Given(user.driverId) {
        var k := FindIndex(drivers, DriverWithId(user.driverId.value));
        if k != -1 {
          drivers := drivers[k := drivers[k].(userId := None, role := None)];
        }
      }
      users := RemoveAt(users, index);
      err := None;
    }

    /**
     * `mockHolidaysApi.getAll`: narrows a copy of the holidays by year prefix, type and
     * country in turn, then sorts it by date. The stored list is not reordered.
     */
    method ListHolidays(year: Option<int>, ty: Option<string>, country: Option<string>) returns (r: seq<Holiday>)
      ensures r == ListedHolidays(holidays, year, ty, country)
    {
      var filtered := holidays;
      if year.Some? && year.value != 0 {
        filtered := Filter(filtered, YearIs(year.value));
      }
      assert filtered == HolidaysUpTo(holidays, year, ty, country, 1);
      if Given(ty) {
        filtered := Filter(filtered, HolidayTypeIs(ty.value));
      }
      assert filtered == HolidaysUpTo(holidays, year, ty, country, 2);
      if Given(country) {
        filtered := Filter(filtered, CountryIs(country.value));
      }
      r := SortByDate(filtered);
    }

    /** `mockOdometerApi.getAll`: the vehicle's readings for a truthy id, otherwise all of them. */
    method AllReadings(vehicleId: Option<string>) returns (r: seq<OdometerReading>)
      ensures Given(vehicleId) ==> r == Filter(readings, ReadingOf(vehicleId.value))
      ensures !Given(vehicleId) ==> r == readings
    {
      if Given(vehicleId) {
        r := Filter(readings, ReadingOf(vehicleId.value));
      } else {
        r := readings;
      }
    }

    /** `mockOdometerApi.getLatestForVehicle`: the vehicle's newest reading, or none. */
    method LatestReading(vehicleId: string, parse: string -> int) returns (r: Option<OdometerReading>)
      ensures r == Latest(Filter(readings, ReadingOf(vehicleId)), parse)
    {
      r := Latest(Filter(readings, ReadingOf(vehicleId)), parse);
    }

    /** `mockOnboardingApi.getState`: the stored state, else the default, which is stored. */
    method GetState(userId: string) returns (st: OnboardingState)
      modifies this`onboarding
      ensures st == StateOf(old(onboarding), userId)
      ensures onboarding == old(onboarding)[userId := st]
    {
      if userId in onboarding {
        st := onboarding[userId];
        assert onboarding == onboarding[userId := st];
      } else {
        st := DEFAULT_STATE;
        onboarding := onboarding[userId := st];
      }
    }

    /** `mockOnboardingApi.updateStep`: records the step and moves to the next one. */
    method UpdateStep(userId: string, step: Step) returns (st: OnboardingState)
      modifies this`onboarding
      ensures st == AfterStep(StateOf(old(onboarding), userId), step)
      ensures onboarding == old(onboarding)[userId := st]
    {
      var state := GetState(userId);
      if step !in state.completedSteps {
        state := state.(completedSteps := state.completedSteps + [step]);
      }
      var currentIndex := StepIndex(step);
      var nextStep := if currentIndex + 1 < |STEP_ORDER| then STEP_ORDER[currentIndex + 1] else Completed;
      state := state.(currentStep := nextStep, status := StatusInProgress);
      onboarding := onboarding[userId := state];
      st := state;
    }

    /** `mockOnboardingApi.reset`: the user's state becomes the default one. */
    method ResetState(userId: string) returns (st: OnboardingState)
      modifies this`onboarding
      ensures st == DEFAULT_STATE
      ensures onboarding == old(onboarding)[userId := st]
    {
      st := OnboardingState(StatusNotStarted, Welcome, [], [], true);
      onboarding := onboarding[userId := st];
    }

    /** `mockOnboardingApi.toggleTips`: only the tips switch of the (possibly new) state changes. */
    method ToggleTips(userId: string, enabled: bool) returns (st: OnboardingState)
      modifies this`onboarding
      ensures st == StateOf(old(onboarding), userId).(showTips := enabled)
      ensures onboarding == old(onboarding)[userId := st]
    {
      var state := GetState(userId);
      state := state.(showTips := enabled);
      onboarding := onboarding[userId := state];
      st := state;
    }

    /** `mockOnboardingApi.getMissions`: the missions derived from the (possibly new) state. */
    method GetMissions(userId: string) returns (ms: seq<Mission>)
      modifies this`onboarding
      ensures ms == MissionsFor(StateOf(old(onboarding), userId))
      ensures onboarding == old(onboarding)[userId := StateOf(old(onboarding), userId)]
    {
      var state := GetState(userId);
      ms := MissionsFor(state);
    }

    /**
     * `mockOnboardingApi.completeMission`: records the mission once, then returns the
     * named mission marked completed, or nothing for an unknown id.
     */
    method CompleteMission(userId: string, missionId: string) returns (m: Option<Mission>)
      modifies this`onboarding
      ensures onboarding == old(onboarding)[userId := WithMission(StateOf(old(onboarding), userId), missionId)]
      ensures m == CompletedMission(StateOf(old(onboarding), userId), missionId)
    {
      ghost var before := StateOf(onboarding, userId);
      ghost var stored := onboarding;
      var state := GetState(userId);
      if missionId !in state.completedMissions {
        state := state.(completedMissions := state.completedMissions + [missionId]);
        onboarding := onboarding[userId := state];
      }
      assert onboarding == stored[userId := WithMission(before, missionId)];
      ghost var saved := onboarding;
      var missions := GetMissions(userId);
      assert onboarding == saved;
      var mission := Find(missions, MissionIs(missionId));
      assert mission == Find(MissionsFor(WithMission(before, missionId)), MissionIs(missionId));
      if mission.Some? {
        m := Some(mission.value.(status := MissionCompleted));
      } else {
        m := None;
      }
    }
  }
}
