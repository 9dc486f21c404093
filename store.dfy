/**
 * The persistent store as the handlers see it: one table per model, each a
 * map from id to record, and the integrity rules every committed state keeps
 * (enum columns inside their value sets, unique keys, foreign keys that
 * resolve). Ids come from a per-table counter.
 */
module Store {
  import opened Common
  import opened Calendar
  import opened Models

  /** The committed contents of the store. */
  datatype Tables = Tables(
    vehicles: map<int, Vehicle>, drivers: map<int, Driver>, trips: map<int, Trip>,
    maintenance: map<int, Maintenance>, users: map<int, User>,
    nextVehicleId: int, nextDriverId: int, nextTripId: int, nextMaintenanceId: int, nextUserId: int)

  /** Some row of the vehicle table has this registration number. */
  predicate RegNoTaken(vs: map<int, Vehicle>, regNo: string)
  {
    exists id :: id in vs && vs[id].reg_no == regNo
  }

  predicate LicenseTaken(ds: map<int, Driver>, licenseNo: string)
  {
    exists id :: id in ds && ds[id].license_no == licenseNo
  }

  predicate UsernameTaken(us: map<int, User>, username: string)
  {
    exists id :: id in us && us[id].username == username
  }

  predicate EmailTaken(us: map<int, User>, email: string)
  {
    exists id :: id in us && us[id].email == email
  }

  /** Some trip references this vehicle (`vehicle.trips` is non-empty). */
  predicate VehicleHasTrips(ts: map<int, Trip>, vehicleId: int)
  {
    exists id :: id in ts && ts[id].vehicle_id == vehicleId
  }

  predicate DriverHasTrips(ts: map<int, Trip>, driverId: int)
  {
    exists id :: id in ts && ts[id].driver_id == driverId
  }

  predicate VehicleHasMaintenance(ms: map<int, Maintenance>, vehicleId: int)
  {
    exists id :: id in ms && ms[id].vehicle_id == vehicleId
  }

  predicate VehiclesOk(vs: map<int, Vehicle>, next: int)
  {
    next >= 1 &&
    (forall id :: id in vs ==>
       0 < id < next && vs[id].id == id &&
       vs[id].fuel_type in FuelTypes && vs[id].status in VehicleStatuses) &&
    (forall a, b :: a in vs && b in vs && vs[a].reg_no == vs[b].reg_no ==> a == b)
  }

  predicate DriversOk(ds: map<int, Driver>, next: int)
  {
    next >= 1 &&
    (forall id :: id in ds ==> 0 < id < next && ds[id].id == id && ds[id].status in DriverStatuses) &&
    (forall a, b :: a in ds && b in ds && ds[a].license_no == ds[b].license_no ==> a == b)
  }

  predicate TripsOk(ts: map<int, Trip>, next: int, vs: map<int, Vehicle>, ds: map<int, Driver>)
  {
    next >= 1 &&
    forall id :: id in ts ==>
      0 < id < next && ts[id].id == id && ts[id].status in TripStatuses &&
      ts[id].vehicle_id in vs && ts[id].driver_id in ds && Valid(ts[id].trip_date)
  }

  predicate MaintenanceOk(ms: map<int, Maintenance>, next: int, vs: map<int, Vehicle>)
  {
    next >= 1 &&
    forall id :: id in ms ==>
      0 < id < next && ms[id].id == id && ms[id].vehicle_id in vs && Valid(ms[id].date) &&
      ms[id].maintenance_type in MaintenanceTypes && ms[id].status in MaintenanceStatuses
  }

  predicate UsersOk(us: map<int, User>, next: int)
  {
    next >= 1 &&
    (forall id :: id in us ==> 0 < id < next && us[id].id == id && us[id].role in Roles) &&
    (forall a, b :: a in us && b in us && us[a].username == us[b].username ==> a == b) &&
    (forall a, b :: a in us && b in us && us[a].email == us[b].email ==> a == b)
  }

  /** The integrity rules of a committed store. */
  predicate Consistent(t: Tables)
  {
    VehiclesOk(t.vehicles, t.nextVehicleId) &&
    DriversOk(t.drivers, t.nextDriverId) &&
    TripsOk(t.trips, t.nextTripId, t.vehicles, t.drivers) &&
    MaintenanceOk(t.maintenance, t.nextMaintenanceId, t.vehicles) &&
    UsersOk(t.users, t.nextUserId)
  }

  /** The database session; handlers change it in place and commit. */
  class Db {
    var vehicles: map<int, Vehicle>
    var drivers: map<int, Driver>
    var trips: map<int, Trip>
    var maintenance: map<int, Maintenance>
    var users: map<int, User>
    var nextVehicleId: int
    var nextDriverId: int
    var nextTripId: int
    var nextMaintenanceId: int
    var nextUserId: int

    function Snapshot(): Tables
      reads this
    {
      Tables(vehicles, drivers, trips, maintenance, users,
             nextVehicleId, nextDriverId, nextTripId, nextMaintenanceId, nextUserId)
    }

    ghost predicate Valid()
      reads this
    {
      Consistent(Snapshot())
    }

    /** An empty database. */
    constructor ()
      ensures Valid()
      ensures vehicles == map[] && drivers == map[] && trips == map[] && maintenance == map[] && users == map[]
    {
      vehicles, drivers, trips, maintenance, users := map[], map[], map[], map[], map[];
      nextVehicleId, nextDriverId, nextTripId, nextMaintenanceId, nextUserId := 1, 1, 1, 1, 1;
    }
  }

  // ----- reading a table as `Model.query.all()` does -----

  /** Ids listed once each, in some order. */
  predicate Enumerates<T>(ids: seq<int>, table: map<int, T>)
  {
    (forall i :: 0 <= i < |ids| ==> ids[i] in table) &&
    (forall id :: id in table ==> id in ids) &&
    (forall i, j :: 0 <= i < j < |ids| ==> ids[i] != ids[j])
  }

  /** A non-empty set of ids has a member (the witness for picking one). */
  lemma SomeId(s: set<int>)
    requires s != {}
    ensures exists id :: id in s
  {
    if forall id :: id !in s {
      assert false;
    }
  }

  /** The ids of a table in the order the query yields them (the store decides the order). */
  method AllIds<T>(table: map<int, T>) returns (ids: seq<int>)
    ensures Enumerates(ids, table)
  {
    ids := [];
    var rest := table.Keys;
    while rest != {}
      invariant rest <= table.Keys
      invariant forall i :: 0 <= i < |ids| ==> ids[i] in table && ids[i] !in rest
      invariant forall id :: id in table ==> id in ids || id in rest
      invariant forall i, j :: 0 <= i < j < |ids| ==> ids[i] != ids[j]
      decreases |rest|
    {
      SomeId(rest);
      var id :| id in rest;
      ids := ids + [id];
      rest := rest - {id};
    }
  }

  /** The records of a table listed by `ids`. */
  function Rows<T>(ids: seq<int>, table: map<int, T>): (rows: seq<T>)
    requires forall i :: 0 <= i < |ids| ==> ids[i] in table
    ensures |rows| == |ids| && forall i :: 0 <= i < |ids| ==> rows[i] == table[ids[i]]
  {
    seq(|ids|, i requires 0 <= i < |ids| => table[ids[i]])
  }

  /** The rows of a table a query filter keeps (`query.filter(...)`), under their own ids. */
  function Where<T>(table: map<int, T>, keep: T -> bool): (r: map<int, T>)
    ensures forall id :: id in r <==> id in table && keep(table[id])
    ensures forall id :: id in r ==> r[id] == table[id]
  {
    map id | id in table && keep(table[id]) :: table[id]
  }

  /** `query.filter(keep).all()`: the kept rows, each once, with their ids alongside. */
  method Select<T>(table: map<int, T>, keep: T -> bool) returns (ids: seq<int>, rows: seq<T>)
    ensures Enumerates(ids, Where(table, keep))
    ensures |rows| == |ids| == |Where(table, keep)|
    ensures forall i :: 0 <= i < |ids| ==> ids[i] in table && rows[i] == table[ids[i]] && keep(rows[i])
  {
    ids := AllIds(Where(table, keep));
    EnumeratesSize(ids, Where(table, keep));
    rows := Rows(ids, table);
  }

  /** A list naming every id of a table exactly once is as long as the table (`len(query.all())`). */
  lemma EnumeratesSize<T>(ids: seq<int>, table: map<int, T>)
    requires Enumerates(ids, table)
    ensures |ids| == |table|
  {
    DistinctCard(ids);
    var listed := set i | i in ids;
    forall k | k in table.Keys
      ensures k in listed
    {
      assert k in ids;
    }
    assert listed == table.Keys;
  }

  lemma {:induction false} DistinctCard(ids: seq<int>)
    requires forall i, j :: 0 <= i < j < |ids| ==> ids[i] != ids[j]
    ensures |set i | i in ids| == |ids|
  {
    if ids != [] {
      var init := ids[..|ids| - 1];
      DistinctCard(init);
      assert (set i | i in ids) == (set i | i in init) + {ids[|ids| - 1]};
      assert ids[|ids| - 1] !in (set i | i in init);
    }
  }

  /** Some row of the table holds this record. */
  ghost predicate Stored<T>(table: map<int, T>, r: T)
  {
    exists id :: id in table && table[id] == r
  }

  /** What `Select` returns is exactly the set of kept rows. */
  lemma SelectedAreAll<T>(table: map<int, T>, keep: T -> bool, ids: seq<int>, rows: seq<T>)
    requires Enumerates(ids, Where(table, keep))
    requires |rows| == |ids| && forall i :: 0 <= i < |ids| ==> ids[i] in table && rows[i] == table[ids[i]]
    ensures forall r :: r in rows <==> Stored(table, r) && keep(r)
  {
    forall r | Stored(table, r) && keep(r)
      ensures r in rows
    {
      var id :| id in table && table[id] == r;
      assert id in Where(table, keep);
      var k :| 0 <= k < |ids| && ids[k] == id;
      assert rows[k] == r;
    }
    forall r | r in rows
      ensures Stored(table, r) && keep(r)
    {
      var k :| 0 <= k < |rows| && rows[k] == r;
      assert ids[k] in Where(table, keep);
    }
  }
}
