/**
 * The trip endpoints: the filtered, date-ordered list, create, partial
 * update, delete, and the two lifecycle actions `start` (planned to
 * in_progress) and `complete` (planned or in_progress to completed). None of
 * these routes asks for a signed-in user.
 */
module TripRoutes {
  import opened Common
  import opened Calendar
  import opened Models
  import opened Store
  import opened Sorting

  /** `datetime.fromisoformat`, given from outside: a timestamp, or `None` where it raises `ValueError`. */
  type TimeParser = string -> Option<Timestamp>

  /** The JSON body of `POST /trips` and `PUT /trips/<id>`. */
  datatype TripBody = TripBody(
    vehicle_id: Field<int>, driver_id: Field<int>, source: Field<string>, destination: Field<string>,
    distance: Field<Option<real>>, fuel_used: Field<Option<real>>, trip_date: Field<Option<string>>,
    start_time: Field<Option<string>>, end_time: Field<Option<string>>, status: Field<string>,
    notes: Field<Option<string>>)

  // ----- GET /trips -----

  /** The query string of `GET /trips`; an id that is not an integer arrives as absent. */
  datatype TripQuery = TripQuery(
    vehicle_id: Field<int>, driver_id: Field<int>, status: Field<string>,
    start_date: Field<string>, end_date: Field<string>)

  /** Every filter that was sent holds; the date bounds are inclusive. */
  predicate TripMatches(t: Trip, q: TripQuery)
    requires RangeCheck(q.start_date, q.end_date).None?
  {
    (SuppliedId(q.vehicle_id) ==> t.vehicle_id == q.vehicle_id.value) &&
    (SuppliedId(q.driver_id) ==> t.driver_id == q.driver_id.value) &&
    (Supplied(q.status) ==> t.status == q.status.value) &&
    InRange(t.trip_date, q.start_date, q.end_date)
  }

  /** The sort key of `order_by(Trip.trip_date.desc())`. */
  function DateKey(t: Trip): real
  {
    Ord(t.trip_date) as real
  }

  /** `get_trips`: exactly the matching trips, each once, latest trip date first. */
  method GetTrips(db: Db, q: TripQuery) returns (o: Outcome, data: seq<Trip>)
    ensures RangeCheck(q.start_date, q.end_date).Some? ==> o == BadRequest(RangeCheck(q.start_date, q.end_date).value) && data == []
    ensures RangeCheck(q.start_date, q.end_date).None? ==>
      o == Ok &&
      |data| == |Where(db.trips, (t: Trip) => TripMatches(t, q))| &&
      (forall t :: t in data <==> Stored(db.trips, t) && TripMatches(t, q)) &&
      Descending(data, DateKey)
  {
    var bad := RangeCheck(q.start_date, q.end_date);
    if bad.Some? {
      return BadRequest(bad.value), [];
    }
    var ids, rows := Select(db.trips, (t: Trip) => TripMatches(t, q));
    SelectedAreAll(db.trips, (t: Trip) => TripMatches(t, q), ids, rows);
    data := SortDesc(rows, DateKey);
    SortDescSameElements(rows, DateKey);
    o := Ok;
  }

  // ----- GET /trips/<id> -----

  /** `get_trip`: no guard; the trip, or 404 for a missing id. */
  function GetTrip(ts: map<int, Trip>, id: int): (r: (Outcome, Option<Trip>))
    ensures r.0 == Ok <==> id in ts
    ensures id !in ts ==> r == (NotFound, None)
    ensures r.0 == Ok ==> r.1 == Some(ts[id])
  {
    match GetOr404(ts, id)
    case Raised(e) => (HandlerException(e), None)
    case Found(t) => (Ok, Some(t))
  }

  // ----- POST /trips -----

  /**
   * A start or end time as sent: no time for null or an empty string, the
   * parsed time otherwise; `None` when it does not parse.
   */
  function RequestedTime(f: Field<Option<string>>, parse: TimeParser): (r: Option<Option<Timestamp>>)
    ensures !SuppliedText(f) ==> r == Some(None)
    ensures SuppliedText(f) ==> (r.None? <==> parse(f.value.value).None?)
    ensures SuppliedText(f) && r.Some? ==> r.value == parse(f.value.value)
  {
    if !SuppliedText(f) then Some(None)
    else match parse(f.value.value)
      case None => None
      case Some(t) => Some(Some(t))
  }

  /**
   * The first check `create_trip` fails: a missing or falsy required field, a
   * vehicle or driver that does not exist (404), an unknown status, a trip
   * date, start time or end time that does not parse.
   */
  function CreateCheck(vs: map<int, Vehicle>, ds: map<int, Driver>, b: TripBody, today: Date, parse: TimeParser)
    : (r: Option<Outcome>)
    ensures r.None? <==>
      SuppliedId(b.vehicle_id) && SuppliedId(b.driver_id) && Supplied(b.source) && Supplied(b.destination) &&
      b.vehicle_id.value in vs && b.driver_id.value in ds &&
      (b.status.Given? ==> b.status.value in TripStatuses) &&
      RequestedDate(b.trip_date, today).Some? &&
      RequestedTime(b.start_time, parse).Some? && RequestedTime(b.end_time, parse).Some?
    ensures r.Some? ==> r.value == NotFound || r.value.BadRequest?
    ensures r == Some(NotFound) <==>
      SuppliedId(b.vehicle_id) && SuppliedId(b.driver_id) && Supplied(b.source) && Supplied(b.destination) &&
      (b.vehicle_id.value !in vs || b.driver_id.value !in ds)
  {
    if !SuppliedId(b.vehicle_id) then Some(BadRequest(MissingField("vehicle_id")))
    else if !SuppliedId(b.driver_id) then Some(BadRequest(MissingField("driver_id")))
    else if !Supplied(b.source) then Some(BadRequest(MissingField("source")))
    else if !Supplied(b.destination) then Some(BadRequest(MissingField("destination")))
    else if b.vehicle_id.value !in vs then Some(NotFound)
    else if b.driver_id.value !in ds then Some(NotFound)
    else if b.status.Given? && b.status.value !in TripStatuses then Some(BadRequest(InvalidValue("status")))
    else if RequestedDate(b.trip_date, today).None? then Some(BadRequest(BadFormat("trip_date")))
    else if RequestedTime(b.start_time, parse).None? then Some(BadRequest(BadFormat("start_time")))
    else if RequestedTime(b.end_time, parse).None? then Some(BadRequest(BadFormat("end_time")))
    else None
  }

  /** The trip `create_trip` stores: status `planned` unless sent, nullable columns null unless sent. */
  function NewTrip(id: int, vs: map<int, Vehicle>, ds: map<int, Driver>, b: TripBody, today: Date,
                   parse: TimeParser, now: Timestamp): Trip
    requires CreateCheck(vs, ds, b, today, parse).None?
  {
    Trip(id, b.vehicle_id.value, b.driver_id.value, b.source.value, b.destination.value,
         Or(b.distance, None), Or(b.fuel_used, None), RequestedDate(b.trip_date, today).value,
         RequestedTime(b.start_time, parse).value, RequestedTime(b.end_time, parse).value,
         Or(b.status, "planned"), Or(b.notes, None), now, now)
  }

  /** A trip created with only the required fields is planned, dated today, with nothing else set. */
  lemma NewTripDefaults(id: int, vs: map<int, Vehicle>, ds: map<int, Driver>, vehicleId: int, driverId: int,
                        source: string, destination: string, today: Date, parse: TimeParser, now: Timestamp)
    requires vehicleId in vs && driverId in ds && vehicleId != 0 && driverId != 0
    requires source != "" && destination != ""
    ensures var b := TripBody(Given(vehicleId), Given(driverId), Given(source), Given(destination),
                              Absent, Absent, Absent, Absent, Absent, Absent, Absent);
      CreateCheck(vs, ds, b, today, parse).None? &&
      var t := NewTrip(id, vs, ds, b, today, parse, now);
      t.status == "planned" && t.trip_date == today && t.distance.None? && t.fuel_used.None? &&
      t.start_time.None? && t.end_time.None? && t.notes.None?
  {
  }

  /** `create_trip`: checks everything before adding. */
  method CreateTrip(db: Db, b: TripBody, today: Date, parse: TimeParser, now: Timestamp) returns (o: Outcome)
    requires db.Valid() && Valid(today)
    modifies db
    ensures db.Valid()
    ensures CreateCheck(old(db.vehicles), old(db.drivers), b, today, parse).Some? ==>
      o == CreateCheck(old(db.vehicles), old(db.drivers), b, today, parse).value &&
      db.Snapshot() == old(db.Snapshot())
    ensures o.Created? <==> CreateCheck(old(db.vehicles), old(db.drivers), b, today, parse).None?
    ensures o.Created? ==>
      o.id !in old(db.trips) &&
      db.Snapshot() == old(db.Snapshot()).(
        trips := old(db.trips)[o.id := NewTrip(o.id, old(db.vehicles), old(db.drivers), b, today, parse, now)],
        nextTripId := o.id + 1)
  {
    var check := CreateCheck(db.vehicles, db.drivers, b, today, parse);
    if check.Some? {
      return check.value;
    }
    var tripDate := RequestedDate(b.trip_date, today).value;
    var startTime := RequestedTime(b.start_time, parse).value;
    var endTime := RequestedTime(b.end_time, parse).value;
    var id := db.nextTripId;
    var t := Trip(id, b.vehicle_id.value, b.driver_id.value, b.source.value, b.destination.value,
                  if b.distance.Given? then b.distance.value else None,
                  if b.fuel_used.Given? then b.fuel_used.value else None,
                  tripDate, startTime, endTime,
                  if b.status.Given? then b.status.value else "planned",
                  if b.notes.Given? then b.notes.value else None, now, now);
    db.trips := db.trips[id := t];
    db.nextTripId := id + 1;
    o := Created(id);
  }

  // ----- PUT /trips/<id> -----

  /**
   * The first check `update_trip` fails: a sent vehicle or driver that does
   * not exist (404), an unknown status, then the date and times in the order
   * they are assigned. A JSON null trip date makes `strptime` raise
   * `TypeError`, which the handler turns into a 500; an empty one is a 400.
   */
  function UpdateCheck(vs: map<int, Vehicle>, ds: map<int, Driver>, b: TripBody, parse: TimeParser)
    : (r: Option<Outcome>)
    ensures r.None? <==>
      (b.vehicle_id.Given? ==> b.vehicle_id.value in vs) &&
      (b.driver_id.Given? ==> b.driver_id.value in ds) &&
      (b.status.Given? ==> b.status.value in TripStatuses) &&
      (b.trip_date.Given? ==> b.trip_date.value.Some? && StrptimeDate(b.trip_date.value.value).Some?) &&
      (b.start_time.Given? ==> RequestedTime(b.start_time, parse).Some?) &&
      (b.end_time.Given? ==> RequestedTime(b.end_time, parse).Some?)
    ensures r.Some? ==> r.value == NotFound || r.value.BadRequest? || r.value == ServerError
    ensures r == Some(ServerError) <==>
      (b.vehicle_id.Given? ==> b.vehicle_id.value in vs) &&
      (b.driver_id.Given? ==> b.driver_id.value in ds) &&
      (b.status.Given? ==> b.status.value in TripStatuses) &&
      b.trip_date == Given(None)
  {
    if b.vehicle_id.Given? && b.vehicle_id.value !in vs then Some(NotFound)
    else if b.driver_id.Given? && b.driver_id.value !in ds then Some(NotFound)
    else if b.status.Given? && b.status.value !in TripStatuses then Some(BadRequest(InvalidValue("status")))
    else if b.trip_date == Given(None) then Some(HandlerException(TypeError))
    else if b.trip_date.Given? && StrptimeDate(b.trip_date.value.value).None? then
      Some(BadRequest(BadFormat("trip_date")))
    else if b.start_time.Given? && RequestedTime(b.start_time, parse).None? then
      Some(BadRequest(BadFormat("start_time")))
    else if b.end_time.Given? && RequestedTime(b.end_time, parse).None? then
      Some(BadRequest(BadFormat("end_time")))
    else None
  }

  /** The sent date and times all parse (what a passed `UpdateCheck` guarantees about them). */
  predicate UpdateParses(b: TripBody, parse: TimeParser)
  {
    (b.trip_date.Given? ==> b.trip_date.value.Some? && StrptimeDate(b.trip_date.value.value).Some?) &&
    (b.start_time.Given? ==> RequestedTime(b.start_time, parse).Some?) &&
    (b.end_time.Given? ==> RequestedTime(b.end_time, parse).Some?)
  }

  /** An update request with its date and times parsed: what `update_trip` assigns. */
  datatype TripChanges = TripChanges(
    vehicle_id: Field<int>, driver_id: Field<int>, source: Field<string>, destination: Field<string>,
    distance: Field<Option<real>>, fuel_used: Field<Option<real>>, trip_date: Field<Date>,
    start_time: Field<Option<Timestamp>>, end_time: Field<Option<Timestamp>>, status: Field<string>,
    notes: Field<Option<string>>)

  /** The changes a request asks for; an empty or null start or end time asks to clear it. */
  function Changes(b: TripBody, parse: TimeParser): (c: TripChanges)
    requires UpdateParses(b, parse)
    ensures c.trip_date.Given? <==> b.trip_date.Given?
    ensures c.trip_date.Given? ==> Some(c.trip_date.value) == StrptimeDate(b.trip_date.value.value)
    ensures c.start_time.Given? <==> b.start_time.Given?
    ensures b.start_time.Given? && !SuppliedText(b.start_time) ==> c.start_time == Given(None)
    ensures SuppliedText(b.start_time) ==> c.start_time == Given(parse(b.start_time.value.value))
    ensures c.end_time.Given? <==> b.end_time.Given?
    ensures b.end_time.Given? && !SuppliedText(b.end_time) ==> c.end_time == Given(None)
    ensures SuppliedText(b.end_time) ==> c.end_time == Given(parse(b.end_time.value.value))
  {
    TripChanges(b.vehicle_id, b.driver_id, b.source, b.destination, b.distance, b.fuel_used,
                if b.trip_date.Given? then Given(StrptimeDate(b.trip_date.value.value).value) else Absent,
                if b.start_time.Given? then Given(RequestedTime(b.start_time, parse).value) else Absent,
                if b.end_time.Given? then Given(RequestedTime(b.end_time, parse).value) else Absent,
                b.status, b.notes)
  }

  /** The trip a successful update leaves: each sent key applied, the rest kept. */
  function Updated(t: Trip, c: TripChanges, now: Timestamp): Trip
  {
    t.(vehicle_id := Or(c.vehicle_id, t.vehicle_id), driver_id := Or(c.driver_id, t.driver_id),
       source := Or(c.source, t.source), destination := Or(c.destination, t.destination),
       distance := Or(c.distance, t.distance), fuel_used := Or(c.fuel_used, t.fuel_used),
       trip_date := Or(c.trip_date, t.trip_date), start_time := Or(c.start_time, t.start_time),
       end_time := Or(c.end_time, t.end_time), status := Or(c.status, t.status), notes := Or(c.notes, t.notes),
       updated_at := now)
  }

  /**
   * Each sent key takes its sent value and every other column keeps its own;
   * the id and creation time never change and the update stamp is the clock
   * reading. An update repeated with the same changes changes nothing more.
   */
  lemma UpdatedChangesOnlySupplied(t: Trip, c: TripChanges, now: Timestamp)
    ensures var u := Updated(t, c, now);
      u.id == t.id && u.created_at == t.created_at && u.updated_at == now &&
      (c.vehicle_id.Absent? ==> u.vehicle_id == t.vehicle_id) && (c.vehicle_id.Given? ==> u.vehicle_id == c.vehicle_id.value) &&
      (c.driver_id.Absent? ==> u.driver_id == t.driver_id) && (c.driver_id.Given? ==> u.driver_id == c.driver_id.value) &&
      (c.source.Absent? ==> u.source == t.source) && (c.source.Given? ==> u.source == c.source.value) &&
      (c.destination.Absent? ==> u.destination == t.destination) && (c.destination.Given? ==> u.destination == c.destination.value) &&
      (c.distance.Absent? ==> u.distance == t.distance) && (c.distance.Given? ==> u.distance == c.distance.value) &&
      (c.fuel_used.Absent? ==> u.fuel_used == t.fuel_used) && (c.fuel_used.Given? ==> u.fuel_used == c.fuel_used.value) &&
      (c.trip_date.Absent? ==> u.trip_date == t.trip_date) && (c.trip_date.Given? ==> u.trip_date == c.trip_date.value) &&
      (c.start_time.Absent? ==> u.start_time == t.start_time) && (c.start_time.Given? ==> u.start_time == c.start_time.value) &&
      (c.end_time.Absent? ==> u.end_time == t.end_time) && (c.end_time.Given? ==> u.end_time == c.end_time.value) &&
      (c.status.Absent? ==> u.status == t.status) && (c.status.Given? ==> u.status == c.status.value) &&
      (c.notes.Absent? ==> u.notes == t.notes) && (c.notes.Given? ==> u.notes == c.notes.value) &&
      Updated(u, c, now) == u
  {
    var u := Updated(t, c, now);
    var v := Updated(u, c, now);
    assert v.vehicle_id == u.vehicle_id && v.driver_id == u.driver_id && v.source == u.source && v.destination == u.destination;
    assert v.distance == u.distance && v.fuel_used == u.fuel_used && v.trip_date == u.trip_date && v.start_time == u.start_time;
    assert v.end_time == u.end_time && v.status == u.status && v.notes == u.notes;
  }

  /** `update_trip`: every failure leaves the store as it was. */
  method UpdateTrip(db: Db, id: int, b: TripBody, parse: TimeParser, now: Timestamp) returns (o: Outcome)
    requires db.Valid()
    modifies db
    ensures db.Valid()
    ensures id !in old(db.trips) ==> o == NotFound && db.Snapshot() == old(db.Snapshot())
    ensures id in old(db.trips) && UpdateCheck(old(db.vehicles), old(db.drivers), b, parse).Some? ==>
      o == UpdateCheck(old(db.vehicles), old(db.drivers), b, parse).value && db.Snapshot() == old(db.Snapshot())
    ensures o == Ok <==> id in old(db.trips) && UpdateCheck(old(db.vehicles), old(db.drivers), b, parse).None?
    ensures o == Ok ==>
      db.Snapshot() == old(db.Snapshot()).(
        trips := old(db.trips)[id := Updated(old(db.trips)[id], Changes(b, parse), now)])
  {
    var found := GetOr404(db.trips, id);
    if found.Raised? {
      return HandlerException(found.error);
    }
    var check := UpdateCheck(db.vehicles, db.drivers, b, parse);
    if check.Some? {
      return check.value;
    }
    var t := ApplyUpdate(found.value, Changes(b, parse), now);
    db.trips := db.trips[id := t];
    o := Ok;
  }

  /** The assignments of `update_trip`, one sent key after another, then the update stamp. */
  method ApplyUpdate(t0: Trip, c: TripChanges, now: Timestamp) returns (t: Trip)
    ensures t == Updated(t0, c, now)
  {
    t := AssignRoute(t0, c);
    t := AssignSchedule(t, c);
    t := t.(updated_at := now);
  }

  /** The first six assignments: vehicle, driver, endpoints, distance and fuel. */
  method AssignRoute(t0: Trip, c: TripChanges) returns (t: Trip)
    ensures t == t0.(vehicle_id := Or(c.vehicle_id, t0.vehicle_id), driver_id := Or(c.driver_id, t0.driver_id),
                     source := Or(c.source, t0.source), destination := Or(c.destination, t0.destination),
                     distance := Or(c.distance, t0.distance), fuel_used := Or(c.fuel_used, t0.fuel_used))
  {
    t := t0;
    if c.vehicle_id.Given? {
      t := t.(vehicle_id := c.vehicle_id.value);
    }
    if c.driver_id.Given? {
      t := t.(driver_id := c.driver_id.value);
    }
    if c.source.Given? {
      t := t.(source := c.source.value);
    }
    if c.destination.Given? {
      t := t.(destination := c.destination.value);
    }
    if c.distance.Given? {
      t := t.(distance := c.distance.value);
    }
    if c.fuel_used.Given? {
      t := t.(fuel_used := c.fuel_used.value);
    }
  }

  /** The remaining assignments: date, start and end times, status and notes. */
  method AssignSchedule(t0: Trip, c: TripChanges) returns (t: Trip)
    ensures t == t0.(trip_date := Or(c.trip_date, t0.trip_date), start_time := Or(c.start_time, t0.start_time),
                     end_time := Or(c.end_time, t0.end_time), status := Or(c.status, t0.status),
                     notes := Or(c.notes, t0.notes))
  {
    t := t0;
    if c.trip_date.Given? {
      t := t.(trip_date := c.trip_date.value);
    }
    if c.start_time.Given? {
      t := t.(start_time := c.start_time.value);
    }
    if c.end_time.Given? {
      t := t.(end_time := c.end_time.value);
    }
    if c.status.Given? {
      t := t.(status := c.status.value);
    }
    if c.notes.Given? {
      t := t.(notes := c.notes.value);
    }
  }

  // ----- DELETE /trips/<id> -----

  /** `delete_trip`: any existing trip may be removed. */
  method DeleteTrip(db: Db, id: int) returns (o: Outcome)
    requires db.Valid()
    modifies db
    ensures db.Valid()
    ensures o == Ok <==> id in old(db.trips)
    ensures id !in old(db.trips) ==> o == NotFound && db.Snapshot() == old(db.Snapshot())
    ensures o == Ok ==> db.Snapshot() == old(db.Snapshot()).(trips := old(db.trips) - {id})
  {
    var found := GetOr404(db.trips, id);
    if found.Raised? {
      return HandlerException(found.error);
    }
    db.trips := db.trips - {id};
    o := Ok;
  }

  // ----- the lifecycle: POST /trips/<id>/start and /complete -----

  /** `start_trip` accepts only a planned trip. */
  predicate CanStart(t: Trip)
  {
    t.status == "planned"
  }

  /** `complete_trip` accepts a planned or running trip. */
  predicate CanComplete(t: Trip)
  {
    t.status == "planned" || t.status == "in_progress"
  }

  /** A started trip: running, with its start time stamped. */
  function Started(t: Trip, now: Timestamp): Trip
  {
    t.(status := "in_progress", start_time := Some(now), updated_at := now)
  }

  /** The optional JSON body of `complete_trip`. */
  datatype CompleteBody = CompleteBody(
    distance: Field<Option<real>>, fuel_used: Field<Option<real>>, notes: Field<Option<string>>)

  /** A completed trip: completed, end time stamped, distance, fuel and notes replaced only when sent. */
  function Completed(t: Trip, b: CompleteBody, now: Timestamp): Trip
  {
    t.(status := "completed", end_time := Some(now), updated_at := now,
       distance := Or(b.distance, t.distance), fuel_used := Or(b.fuel_used, t.fuel_used),
       notes := Or(b.notes, t.notes))
  }

  /**
   * The lifecycle as the two actions drive it: a started trip can be completed
   * but not started again, a completed trip admits neither action, and a
   * trip started and then completed has the duration between the two stamps.
   */
  lemma Lifecycle(t: Trip, b: CompleteBody, start: Timestamp, end: Timestamp)
    ensures CanStart(t) ==> CanComplete(Started(t, start)) && !CanStart(Started(t, start))
    ensures !CanStart(Completed(t, b, end)) && !CanComplete(Completed(t, b, end))
    ensures DurationHours(Completed(Started(t, start), b, end)) == Some((end - start) as real / 3600.0)
    ensures t.status == "cancelled" ==> !CanStart(t) && !CanComplete(t)
  {
  }

  /** `start_trip`: a trip that is not planned is a 400 and stays as it was. */
  method StartTrip(db: Db, id: int, now: Timestamp) returns (o: Outcome)
    requires db.Valid()
    modifies db
    ensures db.Valid()
    ensures id !in old(db.trips) ==> o == NotFound
    ensures id in old(db.trips) && !CanStart(old(db.trips)[id]) ==> o == BadRequest(NotPlanned)
    ensures o == Ok <==> id in old(db.trips) && CanStart(old(db.trips)[id])
    ensures o == Ok ==> db.Snapshot() == old(db.Snapshot()).(trips := old(db.trips)[id := Started(old(db.trips)[id], now)])
    ensures o != Ok ==> db.Snapshot() == old(db.Snapshot())
  {
    var found := GetOr404(db.trips, id);
    if found.Raised? {
      return HandlerException(found.error);
    }
    var t := found.value;
    if t.status != "planned" {
      return BadRequest(NotPlanned);
    }
    t := t.(status := "in_progress");
    t := t.(start_time := Some(now));
    t := t.(updated_at := now);
    db.trips := db.trips[id := t];
    o := Ok;
  }

  /** `complete_trip`: a completed or cancelled trip is a 400 and stays as it was. */
  method CompleteTrip(db: Db, id: int, b: CompleteBody, now: Timestamp) returns (o: Outcome)
    requires db.Valid()
    modifies db
    ensures db.Valid()
    ensures id !in old(db.trips) ==> o == NotFound
    ensures id in old(db.trips) && !CanComplete(old(db.trips)[id]) ==> o == BadRequest(NotOpen)
    ensures o == Ok <==> id in old(db.trips) && CanComplete(old(db.trips)[id])
    ensures o == Ok ==>
      db.Snapshot() == old(db.Snapshot()).(trips := old(db.trips)[id := Completed(old(db.trips)[id], b, now)])
    ensures o != Ok ==> db.Snapshot() == old(db.Snapshot())
  {
    var found := GetOr404(db.trips, id);
    if found.Raised? {
      return HandlerException(found.error);
    }
    var t := found.value;
    if t.status != "planned" && t.status != "in_progress" {
      return BadRequest(NotOpen);
    }
    t := ApplyCompletion(t, b, now);
    db.trips := db.trips[id := t];
    o := Ok;
  }

  /** The assignments of `complete_trip`: the new status and end time, then each sent key. */
  method ApplyCompletion(t0: Trip, b: CompleteBody, now: Timestamp) returns (t: Trip)
    ensures t == Completed(t0, b, now)
  {
    t := t0.(status := "completed", end_time := Some(now), updated_at := now);
    if b.distance.Given? {
      t := t.(distance := b.distance.value);
    }
    if b.fuel_used.Given? {
      t := t.(fuel_used := b.fuel_used.value);
    }
    if b.notes.Given? {
      t := t.(notes := b.notes.value);
    }
  }
}
