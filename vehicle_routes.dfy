/**
 * The vehicle endpoints: list with filters, create, partial update, delete
 * guarded by dependent trips, and per-vehicle statistics. Listing and stats
 * need a signed-in user; create and update need an admin or a manager;
 * delete needs an admin.
 */
module VehicleRoutes {
  import opened Common
  import opened Models
  import opened Store
  import opened Auth

  /** The JSON body of `POST /vehicles` and `PUT /vehicles/<id>`. */
  datatype VehicleBody = VehicleBody(
    reg_no: Field<string>, model: Field<string>, fuel_type: Field<string>, status: Field<string>)

  // ----- GET /vehicles -----

  /** The `status` and `fuel_type` query filters; an absent or empty one filters nothing. */
  predicate VehicleMatches(v: Vehicle, status: Field<string>, fuelType: Field<string>)
  {
    (Supplied(status) ==> v.status == status.value) &&
    (Supplied(fuelType) ==> v.fuel_type == fuelType.value)
  }

  /** `get_vehicles`: exactly the vehicles passing both filters, each once. */
  method GetVehicles(db: Db, current: Option<User>, status: Field<string>, fuelType: Field<string>)
    returns (o: Outcome, data: seq<Vehicle>)
    ensures current.None? <==> o == Unauthorized
    ensures current.None? ==> data == []
    ensures current.Some? ==> o == Ok
    ensures current.Some? ==>
      |data| == |Where(db.vehicles, v => VehicleMatches(v, status, fuelType))| &&
      (forall v :: v in data <==> Stored(db.vehicles, v) && VehicleMatches(v, status, fuelType))
  {
    var gate := RequireToken(current);
    if gate.Reject? {
      return gate.outcome, [];
    }
    var ids;
    ids, data := Select(db.vehicles, v => VehicleMatches(v, status, fuelType));
    o := Ok;
    SelectedAreAll(db.vehicles, v => VehicleMatches(v, status, fuelType), ids, data);
  }

  // ----- GET /vehicles/<id> -----

  /** `get_vehicle`: any signed-in user; the vehicle, or 404 for a missing id. */
  function GetVehicle(vs: map<int, Vehicle>, current: Option<User>, id: int): (r: (Outcome, Option<Vehicle>))
    ensures current.None? ==> r == (Unauthorized, None)
    ensures current.Some? && id !in vs ==> r == (NotFound, None)
    ensures r.0 == Ok <==> current.Some? && id in vs
    ensures r.0 == Ok ==> r.1 == Some(vs[id])
  {
    match RequireToken(current)
    case Reject(o) => (o, None)
    case Admit(_) =>
      match GetOr404(vs, id)
      case Raised(e) => (HandlerException(e), None)
      case Found(v) => (Ok, Some(v))
  }

  // ----- POST /vehicles -----

  /**
   * The first check `create_vehicle` fails: a missing or empty required field
   * (in the order reg_no, model, fuel_type), an unknown fuel type, an unknown
   * status, a taken registration number. `None` when the vehicle may be created.
   */
  function CreateCheck(vs: map<int, Vehicle>, b: VehicleBody): (r: Option<Reason>)
    ensures r.None? <==>
      Supplied(b.reg_no) && Supplied(b.model) && Supplied(b.fuel_type) &&
      b.fuel_type.value in FuelTypes &&
      (b.status.Given? ==> b.status.value in VehicleStatuses) &&
      !RegNoTaken(vs, b.reg_no.value)
    ensures !Supplied(b.reg_no) ==> r == Some(MissingField("reg_no"))
    ensures Supplied(b.reg_no) && !Supplied(b.model) ==> r == Some(MissingField("model"))
    ensures r.Some? && r.value.AlreadyExists? ==> RegNoTaken(vs, b.reg_no.value)
  {
    if !Supplied(b.reg_no) then Some(MissingField("reg_no"))
    else if !Supplied(b.model) then Some(MissingField("model"))
    else if !Supplied(b.fuel_type) then Some(MissingField("fuel_type"))
    else if b.fuel_type.value !in FuelTypes then Some(InvalidValue("fuel_type"))
    else if b.status.Given? && b.status.value !in VehicleStatuses then Some(InvalidValue("status"))
    else if RegNoTaken(vs, b.reg_no.value) then Some(AlreadyExists("reg_no"))
    else None
  }

  /** `create_vehicle`: checks everything before adding; a new vehicle is `active` unless told otherwise. */
  method CreateVehicle(db: Db, current: Option<User>, b: VehicleBody, now: Timestamp) returns (o: Outcome)
    requires db.Valid()
    modifies db
    ensures db.Valid()
    ensures RequireRole(current, AdminOrManager).Reject? ==>
      o == RequireRole(current, AdminOrManager).outcome && db.Snapshot() == old(db.Snapshot())
    ensures RequireRole(current, AdminOrManager).Admit? && CreateCheck(old(db.vehicles), b).Some? ==>
      o == BadRequest(CreateCheck(old(db.vehicles), b).value) && db.Snapshot() == old(db.Snapshot())
    ensures o.Created? <==> RequireRole(current, AdminOrManager).Admit? && CreateCheck(old(db.vehicles), b).None?
    ensures o.Created? ==>
      o.id !in old(db.vehicles) &&
      db.Snapshot() == old(db.Snapshot()).(
        vehicles := old(db.vehicles)[o.id := Vehicle(o.id, b.reg_no.value, b.model.value, b.fuel_type.value,
                                                      Or(b.status, "active"), now, now)],
        nextVehicleId := o.id + 1)
  {
    var gate := RequireRole(current, AdminOrManager);
    if gate.Reject? {
      return gate.outcome;
    }
    var check := CreateCheck(db.vehicles, b);
    if check.Some? {
      return BadRequest(check.value);
    }
    var id := db.nextVehicleId;
    var status := if b.status.Given? then b.status.value else "active";
    db.vehicles := db.vehicles[id := Vehicle(id, b.reg_no.value, b.model.value, b.fuel_type.value, status, now, now)];
    db.nextVehicleId := id + 1;
    o := Created(id);
  }

  /** After a vehicle is created, a second one with the same registration number is refused. */
  lemma RegNoTakenAfterCreate(vs: map<int, Vehicle>, id: int, v: Vehicle, b: VehicleBody)
    requires Supplied(b.reg_no) && Supplied(b.model) && Supplied(b.fuel_type) && v.reg_no == b.reg_no.value
    requires b.fuel_type.value in FuelTypes && (b.status.Given? ==> b.status.value in VehicleStatuses)
    ensures CreateCheck(vs[id := v], b) == Some(AlreadyExists("reg_no"))
  {
    assert vs[id := v][id].reg_no == b.reg_no.value;
  }

  // ----- PUT /vehicles/<id> -----

  /** The first check `update_vehicle` fails; the registration number is checked only when it changes. */
  function UpdateCheck(vs: map<int, Vehicle>, id: int, b: VehicleBody): (r: Option<Reason>)
    requires id in vs
    ensures r.None? <==>
      (b.fuel_type.Given? ==> b.fuel_type.value in FuelTypes) &&
      (b.status.Given? ==> b.status.value in VehicleStatuses) &&
      (b.reg_no.Given? && b.reg_no.value != vs[id].reg_no ==> !RegNoTaken(vs, b.reg_no.value))
    ensures b.reg_no.Given? && b.reg_no.value == vs[id].reg_no ==> r != Some(AlreadyExists("reg_no"))
  {
    if b.fuel_type.Given? && b.fuel_type.value !in FuelTypes then Some(InvalidValue("fuel_type"))
    else if b.status.Given? && b.status.value !in VehicleStatuses then Some(InvalidValue("status"))
    else if b.reg_no.Given? && b.reg_no.value != vs[id].reg_no && RegNoTaken(vs, b.reg_no.value) then
      Some(AlreadyExists("reg_no"))
    else None
  }

  /** The vehicle a successful update leaves: each supplied field replaced, the rest kept. */
  function Updated(v: Vehicle, b: VehicleBody, now: Timestamp): Vehicle
  {
    v.(reg_no := Or(b.reg_no, v.reg_no), model := Or(b.model, v.model),
       fuel_type := Or(b.fuel_type, v.fuel_type), status := Or(b.status, v.status), updated_at := now)
  }

  /** Only the supplied columns change; id and creation time never do; a repeated update is a no-op. */
  lemma UpdatedChangesOnlySupplied(v: Vehicle, b: VehicleBody, now: Timestamp)
    ensures Updated(v, b, now).id == v.id && Updated(v, b, now).created_at == v.created_at
    ensures b.reg_no.Absent? ==> Updated(v, b, now).reg_no == v.reg_no
    ensures b.model.Absent? ==> Updated(v, b, now).model == v.model
    ensures b.fuel_type.Absent? ==> Updated(v, b, now).fuel_type == v.fuel_type
    ensures b.status.Absent? ==> Updated(v, b, now).status == v.status
    ensures b == VehicleBody(Absent, Absent, Absent, Absent) ==> Updated(v, b, now) == v.(updated_at := now)
    ensures Updated(Updated(v, b, now), b, now) == Updated(v, b, now)
  {
  }

  /** `update_vehicle`: a missing id is 404, a failed check is 400, and either leaves the store as it was. */
  method UpdateVehicle(db: Db, current: Option<User>, id: int, b: VehicleBody, now: Timestamp) returns (o: Outcome)
    requires db.Valid()
    modifies db
    ensures db.Valid()
    ensures RequireRole(current, AdminOrManager).Reject? ==>
      o == RequireRole(current, AdminOrManager).outcome && db.Snapshot() == old(db.Snapshot())
    ensures RequireRole(current, AdminOrManager).Admit? && id !in old(db.vehicles) ==>
      o == NotFound && db.Snapshot() == old(db.Snapshot())
    ensures RequireRole(current, AdminOrManager).Admit? && id in old(db.vehicles) &&
            UpdateCheck(old(db.vehicles), id, b).Some? ==>
      o == BadRequest(UpdateCheck(old(db.vehicles), id, b).value) && db.Snapshot() == old(db.Snapshot())
    ensures o == Ok <==>
      RequireRole(current, AdminOrManager).Admit? && id in old(db.vehicles) && UpdateCheck(old(db.vehicles), id, b).None?
    ensures o == Ok ==>
      db.Snapshot() == old(db.Snapshot()).(vehicles := old(db.vehicles)[id := Updated(old(db.vehicles)[id], b, now)])
  {
    var gate := RequireRole(current, AdminOrManager);
    if gate.Reject? {
      return gate.outcome;
    }
    var found := GetOr404(db.vehicles, id);
    if found.Raised? {
      return HandlerException(found.error);
    }
    var check := UpdateCheck(db.vehicles, id, b);
    if check.Some? {
      return BadRequest(check.value);
    }
    var v := ApplyUpdate(found.value, b, now);
    db.vehicles := db.vehicles[id := v];
    o := Ok;
  }

  /** The assignments of `update_vehicle`, one sent key after another, then the update stamp. */
  method ApplyUpdate(v0: Vehicle, b: VehicleBody, now: Timestamp) returns (v: Vehicle)
    ensures v == Updated(v0, b, now)
  {
    v := v0;
    if b.reg_no.Given? {
      v := v.(reg_no := b.reg_no.value);
    }
    if b.model.Given? {
      v := v.(model := b.model.value);
    }
    if b.fuel_type.Given? {
      v := v.(fuel_type := b.fuel_type.value);
    }
    if b.status.Given? {
      v := v.(status := b.status.value);
    }
    v := v.(updated_at := now);
  }

  // ----- DELETE /vehicles/<id> -----

  /**
   * `delete_vehicle`: refused while trips reference the vehicle. The handler
   * does not look at maintenance records; deleting a vehicle that has some
   * makes the ORM null their NOT NULL `vehicle_id`, the commit fails, and the
   * handler rolls back and answers 500.
   */
  method DeleteVehicle(db: Db, current: Option<User>, id: int) returns (o: Outcome)
    requires db.Valid()
    modifies db
    ensures db.Valid()
    ensures RequireRole(current, AdminOnly).Reject? ==>
      o == RequireRole(current, AdminOnly).outcome && db.Snapshot() == old(db.Snapshot())
    ensures RequireRole(current, AdminOnly).Admit? && id !in old(db.vehicles) ==> o == NotFound
    ensures RequireRole(current, AdminOnly).Admit? && id in old(db.vehicles) && VehicleHasTrips(old(db.trips), id) ==>
      o == BadRequest(HasTrips)
    ensures RequireRole(current, AdminOnly).Admit? && id in old(db.vehicles) && !VehicleHasTrips(old(db.trips), id) &&
            VehicleHasMaintenance(old(db.maintenance), id) ==>
      o == ServerError
    ensures o == Ok <==>
      RequireRole(current, AdminOnly).Admit? && id in old(db.vehicles) &&
      !VehicleHasTrips(old(db.trips), id) && !VehicleHasMaintenance(old(db.maintenance), id)
    ensures o == Ok ==> db.Snapshot() == old(db.Snapshot()).(vehicles := old(db.vehicles) - {id})
    ensures o != Ok ==> db.Snapshot() == old(db.Snapshot())
  {
    var gate := RequireRole(current, AdminOnly);
    if gate.Reject? {
      return gate.outcome;
    }
    var found := GetOr404(db.vehicles, id);
    if found.Raised? {
      return HandlerException(found.error);
    }
    if VehicleHasTrips(db.trips, id) {
      return BadRequest(HasTrips);
    }
    if VehicleHasMaintenance(db.maintenance, id) {
      return HandlerException(IntegrityError);
    }
    db.vehicles := db.vehicles - {id};
    o := Ok;
  }

  // ----- GET /vehicles/<id>/stats -----

  datatype VehicleStats = VehicleStats(
    total_trips: int, total_distance: real, total_fuel_used: real,
    maintenance_count: int, total_maintenance_cost: real)

  /** `get_vehicle_stats`: the vehicle's trip totals and its maintenance count and cost. */
  method GetVehicleStats(db: Db, current: Option<User>, id: int) returns (o: Outcome, stats: Option<VehicleStats>)
    ensures stats.Some? <==> o == Ok
    ensures current.None? ==> o == Unauthorized
    ensures current.Some? && id !in db.vehicles ==> o == NotFound
    ensures current.Some? && id in db.vehicles ==> o == Ok
    ensures stats.Some? ==>
      stats.value.total_trips == |Where(db.trips, (t: Trip) => t.vehicle_id == id)| &&
      stats.value.maintenance_count == |Where(db.maintenance, (m: Maintenance) => m.vehicle_id == id)|
    ensures stats.Some? ==> exists ts: seq<Trip> ::
      |ts| == stats.value.total_trips &&
      (forall t :: t in ts <==> Stored(db.trips, t) && t.vehicle_id == id) &&
      stats.value.total_distance == TotalDistance(ts) && stats.value.total_fuel_used == TotalFuelUsed(ts)
    ensures stats.Some? ==> exists ms: seq<Maintenance> ::
      |ms| == stats.value.maintenance_count &&
      (forall m :: m in ms <==> Stored(db.maintenance, m) && m.vehicle_id == id) &&
      stats.value.total_maintenance_cost == TotalCost(ms)
  {
    var gate := RequireToken(current);
    if gate.Reject? {
      return gate.outcome, None;
    }
    var found := GetOr404(db.vehicles, id);
    if found.Raised? {
      return HandlerException(found.error), None;
    }
    var tripIds, ts := Select(db.trips, (t: Trip) => t.vehicle_id == id);
    var recordIds, ms := Select(db.maintenance, (m: Maintenance) => m.vehicle_id == id);
    stats := Some(VehicleStats(|ts|, TotalDistance(ts), TotalFuelUsed(ts), |ms|, TotalCost(ms)));
    o := Ok;
    SelectedAreAll(db.trips, (t: Trip) => t.vehicle_id == id, tripIds, ts);
    SelectedAreAll(db.maintenance, (m: Maintenance) => m.vehicle_id == id, recordIds, ms);
  }
}
