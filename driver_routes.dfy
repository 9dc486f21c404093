/**
 * The driver endpoints: list with a status filter, create, partial update,
 * delete guarded by dependent trips, and per-driver statistics. None of
 * these routes asks for a signed-in user.
 */
module DriverRoutes {
  import opened Common
  import opened Models
  import opened Store

  /** The JSON body of `POST /drivers` and `PUT /drivers/<id>`; phone, email and user_id may be JSON null. */
  datatype DriverBody = DriverBody(
    name: Field<string>, license_no: Field<string>, phone: Field<Option<string>>,
    email: Field<Option<string>>, status: Field<string>, user_id: Field<Option<int>>)

  // ----- GET /drivers -----

  /** `get_drivers`: exactly the drivers with the requested status (all of them without one), each once. */
  method GetDrivers(db: Db, status: Field<string>) returns (o: Outcome, data: seq<Driver>)
    ensures o == Ok
    ensures |data| == |Where(db.drivers, (d: Driver) => Supplied(status) ==> d.status == status.value)|
    ensures forall d :: d in data <==> Stored(db.drivers, d) && (Supplied(status) ==> d.status == status.value)
  {
    var ids;
    ids, data := Select(db.drivers, (d: Driver) => Supplied(status) ==> d.status == status.value);
    SelectedAreAll(db.drivers, (d: Driver) => Supplied(status) ==> d.status == status.value, ids, data);
    o := Ok;
  }

  // ----- GET /drivers/<id> -----

  /** `get_driver`: no guard; the driver, or 404 for a missing id. */
  function GetDriver(ds: map<int, Driver>, id: int): (r: (Outcome, Option<Driver>))
    ensures r.0 == Ok <==> id in ds
    ensures id !in ds ==> r == (NotFound, None)
    ensures r.0 == Ok ==> r.1 == Some(ds[id])
  {
    match GetOr404(ds, id)
    case Raised(e) => (HandlerException(e), None)
    case Found(d) => (Ok, Some(d))
  }

  // ----- POST /drivers -----

  /**
   * The first check `create_driver` fails: a missing or empty name or licence
   * number, an unknown status, a licence number already on file.
   */
  function CreateCheck(ds: map<int, Driver>, b: DriverBody): (r: Option<Reason>)
    ensures r.None? <==>
      Supplied(b.name) && Supplied(b.license_no) &&
      (b.status.Given? ==> b.status.value in DriverStatuses) &&
      !LicenseTaken(ds, b.license_no.value)
    ensures !Supplied(b.name) ==> r == Some(MissingField("name"))
    ensures Supplied(b.name) && !Supplied(b.license_no) ==> r == Some(MissingField("license_no"))
    ensures r.Some? && r.value.AlreadyExists? ==> LicenseTaken(ds, b.license_no.value)
  {
    if !Supplied(b.name) then Some(MissingField("name"))
    else if !Supplied(b.license_no) then Some(MissingField("license_no"))
    else if b.status.Given? && b.status.value !in DriverStatuses then Some(InvalidValue("status"))
    else if LicenseTaken(ds, b.license_no.value) then Some(AlreadyExists("license_no"))
    else None
  }

  /** The driver `create_driver` stores: `active` by default, optional columns null when not sent. */
  function NewDriver(id: int, b: DriverBody, now: Timestamp): Driver
    requires b.name.Given? && b.license_no.Given?
  {
    Driver(id, b.name.value, b.license_no.value, Or(b.phone, None), Or(b.email, None),
           Or(b.status, "active"), Or(b.user_id, None), now, now)
  }

  /** `create_driver`: checks everything before adding. */
  method CreateDriver(db: Db, b: DriverBody, now: Timestamp) returns (o: Outcome)
    requires db.Valid()
    modifies db
    ensures db.Valid()
    ensures CreateCheck(old(db.drivers), b).Some? ==>
      o == BadRequest(CreateCheck(old(db.drivers), b).value) && db.Snapshot() == old(db.Snapshot())
    ensures o.Created? <==> CreateCheck(old(db.drivers), b).None?
    ensures o.Created? ==>
      o.id !in old(db.drivers) &&
      db.Snapshot() == old(db.Snapshot()).(
        drivers := old(db.drivers)[o.id := NewDriver(o.id, b, now)], nextDriverId := o.id + 1)
  {
    var check := CreateCheck(db.drivers, b);
    if check.Some? {
      return BadRequest(check.value);
    }
    var id := db.nextDriverId;
    var phone := if b.phone.Given? then b.phone.value else None;
    var email := if b.email.Given? then b.email.value else None;
    var status := if b.status.Given? then b.status.value else "active";
    var userId := if b.user_id.Given? then b.user_id.value else None;
    db.drivers := db.drivers[id := Driver(id, b.name.value, b.license_no.value, phone, email, status, userId, now, now)];
    db.nextDriverId := id + 1;
    o := Created(id);
  }

  /** A driver created with only the required fields is active, with no phone, email or user. */
  lemma NewDriverDefaults(id: int, name: string, licenseNo: string, now: Timestamp)
    ensures var d := NewDriver(id, DriverBody(Given(name), Given(licenseNo), Absent, Absent, Absent, Absent), now);
      d.status == "active" && d.phone.None? && d.email.None? && d.user_id.None? &&
      d.name == name && d.license_no == licenseNo
  {
  }

  // ----- PUT /drivers/<id> -----

  /** The first check `update_driver` fails; the licence number is checked only when it changes. */
  function UpdateCheck(ds: map<int, Driver>, id: int, b: DriverBody): (r: Option<Reason>)
    requires id in ds
    ensures r.None? <==>
      (b.status.Given? ==> b.status.value in DriverStatuses) &&
      (b.license_no.Given? && b.license_no.value != ds[id].license_no ==> !LicenseTaken(ds, b.license_no.value))
    ensures b.license_no.Given? && b.license_no.value == ds[id].license_no ==> r != Some(AlreadyExists("license_no"))
  {
    if b.status.Given? && b.status.value !in DriverStatuses then Some(InvalidValue("status"))
    else if b.license_no.Given? && b.license_no.value != ds[id].license_no && LicenseTaken(ds, b.license_no.value) then
      Some(AlreadyExists("license_no"))
    else None
  }

  /** The driver a successful update leaves: each supplied field replaced, the rest kept. */
  function Updated(d: Driver, b: DriverBody, now: Timestamp): Driver
  {
    d.(name := Or(b.name, d.name), license_no := Or(b.license_no, d.license_no), phone := Or(b.phone, d.phone),
       email := Or(b.email, d.email), status := Or(b.status, d.status), user_id := Or(b.user_id, d.user_id),
       updated_at := now)
  }

  /** Only the supplied columns change; sending null for phone, email or user_id clears it. */
  lemma UpdatedChangesOnlySupplied(d: Driver, b: DriverBody, now: Timestamp)
    ensures Updated(d, b, now).id == d.id && Updated(d, b, now).created_at == d.created_at
    ensures b.name.Absent? ==> Updated(d, b, now).name == d.name
    ensures b.license_no.Absent? ==> Updated(d, b, now).license_no == d.license_no
    ensures b.phone.Absent? ==> Updated(d, b, now).phone == d.phone
    ensures b.email.Absent? ==> Updated(d, b, now).email == d.email
    ensures b.status.Absent? ==> Updated(d, b, now).status == d.status
    ensures b.user_id.Absent? ==> Updated(d, b, now).user_id == d.user_id
    ensures b.phone == Given(None) ==> Updated(d, b, now).phone.None?
    ensures Updated(Updated(d, b, now), b, now) == Updated(d, b, now)
  {
  }

  /** `update_driver`: a missing id is 404, a failed check is 400, and either leaves the store as it was. */
  method UpdateDriver(db: Db, id: int, b: DriverBody, now: Timestamp) returns (o: Outcome)
    requires db.Valid()
    modifies db
    ensures db.Valid()
    ensures id !in old(db.drivers) ==> o == NotFound && db.Snapshot() == old(db.Snapshot())
    ensures id in old(db.drivers) && UpdateCheck(old(db.drivers), id, b).Some? ==>
      o == BadRequest(UpdateCheck(old(db.drivers), id, b).value) && db.Snapshot() == old(db.Snapshot())
    ensures o == Ok <==> id in old(db.drivers) && UpdateCheck(old(db.drivers), id, b).None?
    ensures o == Ok ==>
      db.Snapshot() == old(db.Snapshot()).(drivers := old(db.drivers)[id := Updated(old(db.drivers)[id], b, now)])
  {
    var found := GetOr404(db.drivers, id);
    if found.Raised? {
      return HandlerException(found.error);
    }
    var check := UpdateCheck(db.drivers, id, b);
    if check.Some? {
      return BadRequest(check.value);
    }
    var d := ApplyUpdate(found.value, b, now);
    db.drivers := db.drivers[id := d];
    o := Ok;
  }

  /** The assignments of `update_driver`, one sent key after another, then the update stamp. */
  method ApplyUpdate(d0: Driver, b: DriverBody, now: Timestamp) returns (d: Driver)
    ensures d == Updated(d0, b, now)
  {
    d := d0;
    if b.name.Given? {
      d := d.(name := b.name.value);
    }
    if b.license_no.Given? {
      d := d.(license_no := b.license_no.value);
    }
    if b.phone.Given? {
      d := d.(phone := b.phone.value);
    }
    if b.email.Given? {
      d := d.(email := b.email.value);
    }
    if b.status.Given? {
      d := d.(status := b.status.value);
    }
    if b.user_id.Given? {
      d := d.(user_id := b.user_id.value);
    }
    d := d.(updated_at := now);
  }

  // ----- DELETE /drivers/<id> -----

  /** `delete_driver`: refused while trips reference the driver. */
  method DeleteDriver(db: Db, id: int) returns (o: Outcome)
    requires db.Valid()
    modifies db
    ensures db.Valid()
    ensures id !in old(db.drivers) ==> o == NotFound
    ensures id in old(db.drivers) && DriverHasTrips(old(db.trips), id) ==> o == BadRequest(HasTrips)
    ensures o == Ok <==> id in old(db.drivers) && !DriverHasTrips(old(db.trips), id)
    ensures o == Ok ==> db.Snapshot() == old(db.Snapshot()).(drivers := old(db.drivers) - {id})
    ensures o != Ok ==> db.Snapshot() == old(db.Snapshot())
  {
    var found := GetOr404(db.drivers, id);
    if found.Raised? {
      return HandlerException(found.error);
    }
    if DriverHasTrips(db.trips, id) {
      return BadRequest(HasTrips);
    }
    db.drivers := db.drivers - {id};
    o := Ok;
  }

  // ----- GET /drivers/<id>/stats -----

  datatype DriverStats = DriverStats(total_trips: int, total_distance: real, total_fuel_used: real)

  /** `get_driver_stats`: the driver's trip count and distance and fuel totals. */
  method GetDriverStats(db: Db, id: int) returns (o: Outcome, stats: Option<DriverStats>)
    ensures stats.Some? <==> o == Ok
    ensures o == Ok <==> id in db.drivers
    ensures id !in db.drivers ==> o == NotFound
    ensures stats.Some? ==> stats.value.total_trips == |Where(db.trips, (t: Trip) => t.driver_id == id)|
    ensures stats.Some? ==> exists ts: seq<Trip> ::
      |ts| == stats.value.total_trips &&
      (forall t :: t in ts <==> Stored(db.trips, t) && t.driver_id == id) &&
      stats.value.total_distance == TotalDistance(ts) && stats.value.total_fuel_used == TotalFuelUsed(ts)
  {
    var found := GetOr404(db.drivers, id);
    if found.Raised? {
      return HandlerException(found.error), None;
    }
    var tripIds, ts := Select(db.trips, (t: Trip) => t.driver_id == id);
    SelectedAreAll(db.trips, (t: Trip) => t.driver_id == id, tripIds, ts);
    stats := Some(DriverStats(|ts|, TotalDistance(ts), TotalFuelUsed(ts)));
    o := Ok;
  }
}
