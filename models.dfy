/**
 * The persisted records (the ORM models) as values, the closed value sets
 * of their string-typed enum columns, and the derived quantities the
 * models compute: trip duration and fuel efficiency, and the per-vehicle
 * and per-driver trip totals.
 */
module Models {
  import opened Common
  import opened Calendar

  /** A `datetime` column, in whole seconds. */
  type Timestamp = int

  datatype Vehicle = Vehicle(
    id: int, reg_no: string, model: string, fuel_type: string, status: string,
    created_at: Timestamp, updated_at: Timestamp)

  datatype Driver = Driver(
    id: int, name: string, license_no: string, phone: Option<string>, email: Option<string>,
    status: string, user_id: Option<int>, created_at: Timestamp, updated_at: Timestamp)

  datatype Trip = Trip(
    id: int, vehicle_id: int, driver_id: int, source: string, destination: string,
    distance: Option<real>, fuel_used: Option<real>, trip_date: Date,
    start_time: Option<Timestamp>, end_time: Option<Timestamp>, status: string,
    notes: Option<string>, created_at: Timestamp, updated_at: Timestamp)

  datatype Maintenance = Maintenance(
    id: int, vehicle_id: int, date: Date, cost: real, description: string,
    maintenance_type: string, service_provider: Option<string>, mileage: Option<int>,
    next_service_date: Option<Date>, status: string, created_at: Timestamp, updated_at: Timestamp)

  /** A user account; `password_hash` is whatever the password hasher stored. */
  datatype User = User(
    id: int, username: string, email: string, password_hash: string, role: string, is_active: bool)

  const FuelTypes: set<string> := {"petrol", "diesel", "electric"}
  const VehicleStatuses: set<string> := {"active", "maintenance", "inactive"}
  const DriverStatuses: set<string> := {"active", "inactive"}
  const TripStatuses: set<string> := {"planned", "in_progress", "completed", "cancelled"}
  const MaintenanceTypes: set<string> := {"routine", "repair", "emergency"}
  const MaintenanceStatuses: set<string> := {"scheduled", "in_progress", "completed"}
  const Roles: set<string> := {"admin", "manager", "driver"}

  // ----- Trip.get_duration_hours / Trip.get_fuel_efficiency -----

  /** Hours between start and end; `None` unless both timestamps are set. */
  function DurationHours(t: Trip): (h: Option<real>)
    ensures h.Some? <==> t.start_time.Some? && t.end_time.Some?
    ensures h.Some? ==> h.value * 3600.0 == (t.end_time.value - t.start_time.value) as real
  {
    if t.start_time.Some? && t.end_time.Some? then
      Some((t.end_time.value - t.start_time.value) as real / 3600.0)
    else None
  }

  /** Python truthiness of a nullable float column: set and not zero. */
  predicate Truthy(x: Option<real>)
  {
    x.Some? && x.value != 0.0
  }

  /** Kilometres per litre; `None` unless distance is truthy and fuel used is positive. */
  function FuelEfficiency(t: Trip): (e: Option<real>)
    ensures e.Some? <==> Truthy(t.distance) && t.fuel_used.Some? && t.fuel_used.value > 0.0
    ensures e.Some? ==> e.value * t.fuel_used.value == t.distance.value
    ensures e.Some? && t.distance.value > 0.0 ==> e.value > 0.0
  {
    if Truthy(t.distance) && Truthy(t.fuel_used) && t.fuel_used.value > 0.0 then
      Some(t.distance.value / t.fuel_used.value)
    else None
  }

  // ----- sums over nullable columns -----

  /** `sum(x for x in xs if x)`: the Python generator sum, skipping nulls and zeros. */
  function TruthySum(xs: seq<Option<real>>): real
  {
    if xs == [] then 0.0
    else TruthySum(xs[..|xs| - 1]) + (if Truthy(xs[|xs| - 1]) then xs[|xs| - 1].value else 0.0)
  }

  /** SQL `SUM(x) ... WHERE x IS NOT NULL`, with `or 0` for the empty case. */
  function NonNullSum(xs: seq<Option<real>>): real
  {
    if xs == [] then 0.0
    else NonNullSum(xs[..|xs| - 1]) + (if xs[|xs| - 1].Some? then xs[|xs| - 1].value else 0.0)
  }

  /** Skipping zeros does not change a sum: both ways of totalling agree. */
  lemma {:induction false} TruthySumIsNonNullSum(xs: seq<Option<real>>)
    ensures TruthySum(xs) == NonNullSum(xs)
  {
    if xs != [] {
      TruthySumIsNonNullSum(xs[..|xs| - 1]);
    }
  }

  lemma {:induction false} NonNullSumAppend(xs: seq<Option<real>>, ys: seq<Option<real>>)
    ensures NonNullSum(xs + ys) == NonNullSum(xs) + NonNullSum(ys)
    decreases |ys|
  {
    if ys == [] {
      assert xs + ys == xs;
    } else {
      assert (xs + ys)[..|xs + ys| - 1] == xs + ys[..|ys| - 1];
      NonNullSumAppend(xs, ys[..|ys| - 1]);
    }
  }

  /** A sum of non-negative values is non-negative. */
  lemma {:induction false} NonNullSumNonNegative(xs: seq<Option<real>>)
    requires forall i :: 0 <= i < |xs| && xs[i].Some? ==> xs[i].value >= 0.0
    ensures NonNullSum(xs) >= 0.0
  {
    if xs != [] {
      NonNullSumNonNegative(xs[..|xs| - 1]);
    }
  }

  function Distances(ts: seq<Trip>): (r: seq<Option<real>>)
    ensures |r| == |ts| && forall i :: 0 <= i < |ts| ==> r[i] == ts[i].distance
  {
    seq(|ts|, i requires 0 <= i < |ts| => ts[i].distance)
  }

  function FuelValues(ts: seq<Trip>): (r: seq<Option<real>>)
    ensures |r| == |ts| && forall i :: 0 <= i < |ts| ==> r[i] == ts[i].fuel_used
  {
    seq(|ts|, i requires 0 <= i < |ts| => ts[i].fuel_used)
  }

  // ----- Vehicle / Driver get_total_trips, get_total_distance, get_total_fuel_used -----

  /** The trips of one vehicle (`vehicle.trips`), in table order. */
  function VehicleTrips(ts: seq<Trip>, vehicleId: int): (r: seq<Trip>)
    ensures |r| <= |ts|
    ensures forall t :: t in r <==> t in ts && t.vehicle_id == vehicleId
  {
    if ts == [] then []
    else VehicleTrips(ts[..|ts| - 1], vehicleId) + (if ts[|ts| - 1].vehicle_id == vehicleId then [ts[|ts| - 1]] else [])
  }

  /** The trips of one driver (`driver.trips`), in table order. */
  function DriverTrips(ts: seq<Trip>, driverId: int): (r: seq<Trip>)
    ensures |r| <= |ts|
    ensures forall t :: t in r <==> t in ts && t.driver_id == driverId
  {
    if ts == [] then []
    else DriverTrips(ts[..|ts| - 1], driverId) + (if ts[|ts| - 1].driver_id == driverId then [ts[|ts| - 1]] else [])
  }

  /** `get_total_distance` over a trip list: the sum of its set, non-zero distances. */
  function TotalDistance(ts: seq<Trip>): real
  {
    TruthySum(Distances(ts))
  }

  /** `get_total_fuel_used` over a trip list: the sum of its set, non-zero fuel values. */
  function TotalFuelUsed(ts: seq<Trip>): real
  {
    TruthySum(FuelValues(ts))
  }

  /** Splitting the trip table by vehicle splits its distance total: a vehicle's share plus the rest. */
  lemma {:induction false} VehicleDistanceShare(ts: seq<Trip>, vehicleId: int)
    ensures TotalDistance(ts) == TotalDistance(VehicleTrips(ts, vehicleId)) + TotalDistance(OtherVehicleTrips(ts, vehicleId))
  {
    if ts != [] {
      var init := ts[..|ts| - 1];
      var last := ts[|ts| - 1];
      assert ts == init + [last];
      VehicleDistanceShare(init, vehicleId);
      TotalDistanceSnoc(init, last);
      if last.vehicle_id == vehicleId {
        assert VehicleTrips(ts, vehicleId) == VehicleTrips(init, vehicleId) + [last];
        assert OtherVehicleTrips(ts, vehicleId) == OtherVehicleTrips(init, vehicleId);
        TotalDistanceSnoc(VehicleTrips(init, vehicleId), last);
      } else {
        assert VehicleTrips(ts, vehicleId) == VehicleTrips(init, vehicleId);
        assert OtherVehicleTrips(ts, vehicleId) == OtherVehicleTrips(init, vehicleId) + [last];
        TotalDistanceSnoc(OtherVehicleTrips(init, vehicleId), last);
      }
    }
  }

  lemma TotalDistanceSnoc(ts: seq<Trip>, t: Trip)
    ensures TotalDistance(ts + [t]) == TotalDistance(ts) + (if Truthy(t.distance) then t.distance.value else 0.0)
  {
    assert Distances(ts + [t]) == Distances(ts) + [t.distance];
    assert (Distances(ts) + [t.distance])[..|ts|] == Distances(ts);
  }

  /** The trips of every other vehicle. */
  function OtherVehicleTrips(ts: seq<Trip>, vehicleId: int): (r: seq<Trip>)
    ensures forall t :: t in r <==> t in ts && t.vehicle_id != vehicleId
  {
    if ts == [] then []
    else OtherVehicleTrips(ts[..|ts| - 1], vehicleId) + (if ts[|ts| - 1].vehicle_id != vehicleId then [ts[|ts| - 1]] else [])
  }

  /** With non-negative distances, one vehicle's total never exceeds the fleet's. */
  lemma VehicleDistanceBounded(ts: seq<Trip>, vehicleId: int)
    requires forall i :: 0 <= i < |ts| && ts[i].distance.Some? ==> ts[i].distance.value >= 0.0
    ensures 0.0 <= TotalDistance(VehicleTrips(ts, vehicleId)) <= TotalDistance(ts)
  {
    VehicleDistanceShare(ts, vehicleId);
    SubsetDistanceNonNegative(ts, VehicleTrips(ts, vehicleId));
    SubsetDistanceNonNegative(ts, OtherVehicleTrips(ts, vehicleId));
  }

  /** Trips drawn from a table without negative distances add up to a non-negative total. */
  lemma SubsetDistanceNonNegative(ts: seq<Trip>, sub: seq<Trip>)
    requires forall i :: 0 <= i < |ts| && ts[i].distance.Some? ==> ts[i].distance.value >= 0.0
    requires forall t :: t in sub ==> t in ts
    ensures TotalDistance(sub) >= 0.0
  {
    var xs := Distances(sub);
    forall i | 0 <= i < |xs| && xs[i].Some? ensures xs[i].value >= 0.0 {
      assert xs[i] == sub[i].distance && sub[i] in sub;
      assert sub[i] in ts;
      var j :| 0 <= j < |ts| && ts[j] == sub[i];
    }
    TruthySumIsNonNullSum(xs);
    NonNullSumNonNegative(xs);
  }

  // ----- maintenance cost totals -----

  function CostOf(m: Maintenance): real
  {
    m.cost
  }

  /** The `strftime('%Y-%m')` key of a record's date. */
  function MonthKey(m: Maintenance): Month
  {
    MonthOf(m.date)
  }

  /** `sum(m.cost for m in records)`. */
  function TotalCost(ms: seq<Maintenance>): real
  {
    if ms == [] then 0.0 else TotalCost(ms[..|ms| - 1]) + ms[|ms| - 1].cost
  }

  lemma {:induction false} TotalCostAppend(xs: seq<Maintenance>, ys: seq<Maintenance>)
    ensures TotalCost(xs + ys) == TotalCost(xs) + TotalCost(ys)
    decreases |ys|
  {
    if ys == [] {
      assert xs + ys == xs;
    } else {
      assert (xs + ys)[..|xs + ys| - 1] == xs + ys[..|ys| - 1];
      TotalCostAppend(xs, ys[..|ys| - 1]);
    }
  }
}
