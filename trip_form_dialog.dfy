/**
 * The "add trip" dialog: which vehicles it offers (active ones, narrowed to the
 * driver's own vehicle for a driver allowed only that one), how choosing a driver or
 * a place fills other fields, and the payload it submits before resetting itself.
 * The company setting `autofillDefaultTripPurpose` and the known places are given
 * to the constructor.
 */
module TripFormDialog {
  import opened Common
  import opened MockApi
  import opened TripRouteConfig

  /** The dialog's form fields, all held as typed text. */
  datatype FormData = FormData(
    vehicleId: string,
    driverId: string,
    startTime: string,
    endTime: string,
    startLocation: string,
    endLocation: string,
    distanceKm: string,
    tripType: string,
    description: string)

  /** The values the form starts with and returns to after a submit. */
  const INITIAL_FORM := FormData("", "", "", "", "", "", "", "business", "")

  /** What a submit hands to the caller: the fields, a manual source and an unlocked flag. */
  datatype TripPayload = TripPayload(form: FormData, source: string, locked: bool)

  datatype LocationField = StartLocation | EndLocation

  /** `v.active !== false`: a vehicle without the flag counts as active. */
  function IsActive(v: Vehicle): bool {
    v.active != Some(false)
  }

  /** `activeVehicles`: the vehicles not switched off. */
  function ActiveVehicles(vehicles: seq<Vehicle>): (r: seq<Vehicle>)
    ensures forall v :: v in r <==> v in vehicles && v.active != Some(false)
  {
    FilterMembers(vehicles, IsActive);
    Filter(vehicles, IsActive)
  }

  /** The driver allows only their default vehicle, and has one. */
  predicate OnlyDefault(d: Option<Driver>) {
    d.Some? && d.value.drivingPermission == Some("only_default") && Given(d.value.defaultVehicleId)
  }

  /** `availableVehicles`: the active vehicles, or only the driver's default one when restricted to it. */
  function AvailableVehicles(vehicles: seq<Vehicle>, drivers: seq<Driver>, selectedDriverId: string): (r: seq<Vehicle>)
    ensures forall v :: v in r ==> v in vehicles && v.active != Some(false)
    ensures var d := Find(drivers, DriverWithId(selectedDriverId));
      OnlyDefault(d) ==> forall v :: v in r <==> v in ActiveVehicles(vehicles) && v.id == d.value.defaultVehicleId.value
    ensures !OnlyDefault(Find(drivers, DriverWithId(selectedDriverId))) ==> r == ActiveVehicles(vehicles)
  {
    var active := ActiveVehicles(vehicles);
    var driver := Find(drivers, DriverWithId(selectedDriverId));
    if OnlyDefault(driver) then
      FilterMembers(active, VehicleWithId(driver.value.defaultVehicleId.value));
      Filter(active, VehicleWithId(driver.value.defaultVehicleId.value))
    else active
  }

  /** Every offered vehicle, whoever the chosen driver is, is an active one from the list. */
  lemma OfferedAreActive(vehicles: seq<Vehicle>, drivers: seq<Driver>, selectedDriverId: string)
    ensures forall w :: w in AvailableVehicles(vehicles, drivers, selectedDriverId) ==> w in vehicles && w.active != Some(false)
  {
  }

  /**
   * Unless the chosen driver is bound to a default vehicle they actually have, the offered
   * vehicles are exactly the active ones.
   */
  lemma ActiveOffered(vehicles: seq<Vehicle>, drivers: seq<Driver>, selectedDriverId: string, v: Vehicle)
    requires !OnlyDefault(Find(drivers, DriverWithId(selectedDriverId)))
    ensures v in AvailableVehicles(vehicles, drivers, selectedDriverId) <==> v in vehicles && v.active != Some(false)
  {
  }

  /**
   * `handleDriverChange` on the form: the driver is always set; the vehicle is filled
   * with the driver's default only while no vehicle has been chosen.
   */
  function AfterDriverChange(form: FormData, drivers: seq<Driver>, driverId: string): (r: FormData)
    ensures r.driverId == driverId
    ensures var d := Find(drivers, DriverWithId(driverId));
      r.vehicleId == if d.Some? && Given(d.value.defaultVehicleId) && form.vehicleId == "" then d.value.defaultVehicleId.value else form.vehicleId
    ensures r.(driverId := form.driverId, vehicleId := form.vehicleId) == form
  {
    var driver := Find(drivers, DriverWithId(driverId));
    if driver.Some? && Given(driver.value.defaultVehicleId) && form.vehicleId == "" then
      form.(driverId := driverId, vehicleId := driver.value.defaultVehicleId.value)
    else
      form.(driverId := driverId)
  }

  function PlaceNamed(name: string): Place -> bool {
    (p: Place) => p.name == name
  }

  /**
   * The place has a purpose list (an empty list counts, as JavaScript arrays are truthy)
   * and a default index that points to a non-empty purpose in it.
   */
  predicate PointsToPurpose(place: Place) {
    place.tripPurposes.Some? && place.defaultPurposeIndex.Some? &&
    0 <= place.defaultPurposeIndex.value < |place.tripPurposes.value| &&
    place.tripPurposes.value[place.defaultPurposeIndex.value] != ""
  }

  /** The place's default purpose, when it has one. */
  function DefaultPurpose(place: Option<Place>): (r: Option<string>)
    ensures r.Some? <==> place.Some? && PointsToPurpose(place.value)
    ensures r.Some? ==> (r.value != "" && r.value in place.value.tripPurposes.value)
  {
    if place.Some? && PointsToPurpose(place.value) then
      Some(place.value.tripPurposes.value[place.value.defaultPurposeIndex.value])
    else None
  }

  /**
   * `handleLocationChange` on the form: the field takes the location; the description is
   * filled with the named place's default purpose only when the setting is on, the place
   * has one, and the description is still empty.
   */
  function AfterLocationChange(form: FormData, places: seq<Place>, autofill: bool, location: string, field: LocationField): (r: FormData)
    ensures field == StartLocation ==> r.startLocation == location && r.endLocation == form.endLocation
    ensures field == EndLocation ==> r.endLocation == location && r.startLocation == form.startLocation
    ensures var purpose := DefaultPurpose(Find(places, PlaceNamed(location)));
      r.description == if autofill && purpose.Some? && form.description == "" then purpose.value else form.description
    ensures r.(startLocation := form.startLocation, endLocation := form.endLocation, description := form.description) == form
  {
    var place := Find(places, PlaceNamed(location));
    var newData := if field == StartLocation then form.(startLocation := location) else form.(endLocation := location);
    var purpose := DefaultPurpose(place);
    if autofill && purpose.Some? && form.description == "" then newData.(description := purpose.value) else newData
  }

  class TripForm {
    const vehicles: seq<Vehicle>
    const drivers: seq<Driver>
    const places: seq<Place>
    /** `MOCK_COMPANY_SETTINGS.autofillDefaultTripPurpose`. */
    const autofill: bool
    var open: bool
    var selectedDriverId: string
    var selectedVehicleId: string
    var formData: FormData

    constructor (vehicles0: seq<Vehicle>, drivers0: seq<Driver>, places0: seq<Place>, autofill0: bool)
      ensures vehicles == vehicles0 && drivers == drivers0 && places == places0 && autofill == autofill0
      ensures !open && selectedDriverId == "" && selectedVehicleId == "" && formData == INITIAL_FORM
    {
      vehicles := vehicles0;
      drivers := drivers0;
      places := places0;
      autofill := autofill0;
      open := false;
      selectedDriverId := "";
      selectedVehicleId := "";
      formData := INITIAL_FORM;
    }

    /** The vehicles the vehicle picker lists for the chosen driver. */
    function Offered(): (r: seq<Vehicle>)
      reads this
      ensures forall v :: v in r ==> v in ActiveVehicles(vehicles)
    {
      AvailableVehicles(vehicles, drivers, selectedDriverId)
    }

    /** `handleDriverChange`: remembers the driver and applies the form update; a filled-in vehicle is remembered too. */
    method HandleDriverChange(driverId: string)
      modifies this
      ensures formData == AfterDriverChange(old(formData), drivers, driverId)
      ensures selectedDriverId == driverId
      ensures selectedVehicleId == if formData.vehicleId != old(formData.vehicleId) then formData.vehicleId else old(selectedVehicleId)
      ensures open == old(open)
    {
      selectedDriverId := driverId;
      var driver := Find(drivers, DriverWithId(driverId));
      if driver.Some? && Given(driver.value.defaultVehicleId) && formData.vehicleId == "" {
        formData := formData.(driverId := driverId, vehicleId := driver.value.defaultVehicleId.value);
        selectedVehicleId := driver.value.defaultVehicleId.value;
      } else {
        formData := formData.(driverId := driverId);
      }
    }

    /** `handleLocationChange`. */
    method HandleLocationChange(location: string, field: LocationField)
      modifies this`formData
      ensures formData == AfterLocationChange(old(formData), places, autofill, location, field)
    {
      var place := Find(places, PlaceNamed(location));
      var newData := if field == StartLocation then formData.(startLocation := location) else formData.(endLocation := location);
      var purpose := DefaultPurpose(place);
      if autofill && purpose.Some? && formData.description == "" {
        newData := newData.(description := purpose.value);
      }
      formData := newData;
    }

    /** `handleSubmit`: hands on the fields as a manual, unlocked trip, closes the dialog and resets it. */
    method HandleSubmit() returns (payload: TripPayload)
      modifies this
      ensures payload == TripPayload(old(formData), "manual", false)
      ensures formData == INITIAL_FORM && selectedDriverId == "" && selectedVehicleId == "" && !open
    {
      payload := TripPayload(formData, "manual", false);
      open := false;
      formData := INITIAL_FORM;
      selectedDriverId := "";
      selectedVehicleId := "";
    }
  }
}
