/**
 * The odometer calls the pages use, on top of the mock store. Dates are compared
 * after parsing, through the `parse` parameter that stands for `new Date(...)`.
 */
module OdometerApi {
  import opened Common
  import opened MockApi

  /** `getOdometerReadings`: the vehicle's readings in store order, or every reading without a vehicle. */
  method GetOdometerReadings(store: MockStore, vehicleId: Option<string>) returns (r: seq<OdometerReading>)
    ensures !Given(vehicleId) ==> r == store.readings
    ensures forall o :: o in r <==> o in store.readings && (Given(vehicleId) ==> o.vehicleId == vehicleId.value)
  {
    r := store.AllReadings(vehicleId);
    if Given(vehicleId) {
      FilterMembers(store.readings, ReadingOf(vehicleId.value));
    }
  }

  /** `getLatestOdometerReading`: a reading of the vehicle with the greatest date, or none when it has none. */
  method GetLatestOdometerReading(store: MockStore, vehicleId: string, parse: string -> int) returns (r: Option<OdometerReading>)
    ensures r.None? <==> forall o :: o in store.readings ==> o.vehicleId != vehicleId
    ensures r.Some? ==> r.value in store.readings && r.value.vehicleId == vehicleId
    ensures r.Some? ==> forall o :: o in store.readings && o.vehicleId == vehicleId ==> parse(o.date) <= parse(r.value.date)
  {
    r := store.LatestReading(vehicleId, parse);
    var mine := Filter(store.readings, ReadingOf(vehicleId));
    FilterMembers(store.readings, ReadingOf(vehicleId));
    if r.None? {
      assert mine == [];
    } else {
      assert r.value in mine;
      forall o | o in store.readings && o.vehicleId == vehicleId
        ensures parse(o.date) <= parse(r.value.date)
      {
        assert o in mine;
      }
    }
  }

  /** A reading dated within [from, to], both ends included. */
  function DatedWithin(from: int, to: int, parse: string -> int): OdometerReading -> bool {
    (o: OdometerReading) => from <= parse(o.date) && parse(o.date) <= to
  }

  /** What the range query keeps, in one predicate: the vehicle (any for an empty id) and the dates. */
  function InRangeFor(vehicleId: string, from: int, to: int, parse: string -> int): OdometerReading -> bool {
    (o: OdometerReading) => (vehicleId == "" || o.vehicleId == vehicleId) && from <= parse(o.date) && parse(o.date) <= to
  }

  /** `getOdometerReadingsInRange`: the store's readings for the vehicle, filtered by the parsed bounds. */
  function ReadingsInRange(rs: seq<OdometerReading>, vehicleId: string, dateFrom: string, dateTo: string,
                           parse: string -> int): seq<OdometerReading> {
    var all := if vehicleId != "" then Filter(rs, ReadingOf(vehicleId)) else rs;
    Filter(all, DatedWithin(parse(dateFrom), parse(dateTo), parse))
  }

  method GetOdometerReadingsInRange(store: MockStore, vehicleId: string, dateFrom: string, dateTo: string,
                                    parse: string -> int) returns (r: seq<OdometerReading>)
    ensures r == ReadingsInRange(store.readings, vehicleId, dateFrom, dateTo, parse)
  {
    var all := store.AllReadings(Some(vehicleId));
    var startDate := parse(dateFrom);
    var endDate := parse(dateTo);
    r := Filter(all, DatedWithin(startDate, endDate, parse));
  }

  /**
   * The range result is the store's list with one filter applied: the readings of the
   * vehicle (of every vehicle for an empty id) dated from `dateFrom` to `dateTo`
   * inclusive, in the store's order.
   */
  lemma RangeIsOneFilter(rs: seq<OdometerReading>, vehicleId: string, dateFrom: string, dateTo: string, parse: string -> int)
    ensures ReadingsInRange(rs, vehicleId, dateFrom, dateTo, parse) == Filter(rs, InRangeFor(vehicleId, parse(dateFrom), parse(dateTo), parse))
  {
    var within := DatedWithin(parse(dateFrom), parse(dateTo), parse);
    var both := InRangeFor(vehicleId, parse(dateFrom), parse(dateTo), parse);
    if vehicleId != "" {
      FilterTwice(rs, ReadingOf(vehicleId), within, both);
    } else {
      assert forall o :: within(o) == both(o);
      FilterTwice(rs, (o: OdometerReading) => true, within, both);
      FilterAll(rs, (o: OdometerReading) => true);
    }
  }

  /** Exactly the readings of the vehicle whose date lies between both bounds, ends included. */
  lemma RangeMembers(rs: seq<OdometerReading>, vehicleId: string, dateFrom: string, dateTo: string, parse: string -> int)
    ensures forall o :: o in ReadingsInRange(rs, vehicleId, dateFrom, dateTo, parse) <==>
      o in rs && (vehicleId != "" ==> o.vehicleId == vehicleId) &&
      parse(dateFrom) <= parse(o.date) <= parse(dateTo)
  {
    RangeIsOneFilter(rs, vehicleId, dateFrom, dateTo, parse);
    FilterMembers(rs, InRangeFor(vehicleId, parse(dateFrom), parse(dateTo), parse));
  }

  /** The range result never holds a reading more often than the store does. */
  lemma RangeWithinStore(rs: seq<OdometerReading>, vehicleId: string, dateFrom: string, dateTo: string, parse: string -> int)
    ensures multiset(ReadingsInRange(rs, vehicleId, dateFrom, dateTo, parse)) <= multiset(rs)
  {
    RangeIsOneFilter(rs, vehicleId, dateFrom, dateTo, parse);
    FilterSub(rs, InRangeFor(vehicleId, parse(dateFrom), parse(dateTo), parse));
  }

  /**
   * The range query works reading by reading: over a store made of two parts it returns
   * the first part's matches followed by the second's, so the store's order is kept.
   */
  lemma RangeConcat(a: seq<OdometerReading>, b: seq<OdometerReading>, vehicleId: string, dateFrom: string, dateTo: string,
                    parse: string -> int)
    ensures ReadingsInRange(a + b, vehicleId, dateFrom, dateTo, parse) ==
      ReadingsInRange(a, vehicleId, dateFrom, dateTo, parse) + ReadingsInRange(b, vehicleId, dateFrom, dateTo, parse)
  {
    var keep := InRangeFor(vehicleId, parse(dateFrom), parse(dateTo), parse);
    RangeIsOneFilter(a + b, vehicleId, dateFrom, dateTo, parse);
    RangeIsOneFilter(a, vehicleId, dateFrom, dateTo, parse);
    RangeIsOneFilter(b, vehicleId, dateFrom, dateTo, parse);
    FilterConcat(a, b, keep);
  }
}
