/**
 * The maintenance endpoints: the filtered, date-ordered list, create,
 * partial update, delete, and the statistics that total the costs and group
 * them by maintenance type and by month. None of these routes asks for a
 * signed-in user.
 */
module MaintenanceRoutes {
  import opened Common
  import opened Calendar
  import opened Models
  import opened Store
  import opened Sorting
  import opened Grouping

  /** The JSON body of `POST /maintenance` and `PUT /maintenance/<id>`. */
  datatype MaintenanceBody = MaintenanceBody(
    vehicle_id: Field<int>, date: Field<Option<string>>, cost: Field<real>, description: Field<string>,
    maintenance_type: Field<string>, service_provider: Field<Option<string>>, mileage: Field<Option<int>>,
    next_service_date: Field<Option<string>>, status: Field<string>)

  // ----- GET /maintenance -----

  /** The query string of `GET /maintenance`; a vehicle id that is not an integer arrives as absent. */
  datatype MaintenanceQuery = MaintenanceQuery(
    vehicle_id: Field<int>, maintenance_type: Field<string>, status: Field<string>,
    start_date: Field<string>, end_date: Field<string>)

  /** Every filter that was sent holds; the date bounds are inclusive. */
  predicate RecordMatches(m: Maintenance, q: MaintenanceQuery)
    requires RangeCheck(q.start_date, q.end_date).None?
  {
    (SuppliedId(q.vehicle_id) ==> m.vehicle_id == q.vehicle_id.value) &&
    (Supplied(q.maintenance_type) ==> m.maintenance_type == q.maintenance_type.value) &&
    (Supplied(q.status) ==> m.status == q.status.value) &&
    InRange(m.date, q.start_date, q.end_date)
  }

  /** The sort key of `order_by(Maintenance.date.desc())`. */
  function DateKey(m: Maintenance): real
  {
    Ord(m.date) as real
  }

  /** `get_maintenance_records`: exactly the matching records, each once, latest date first. */
  method GetMaintenanceRecords(db: Db, q: MaintenanceQuery) returns (o: Outcome, data: seq<Maintenance>)
    ensures RangeCheck(q.start_date, q.end_date).Some? ==>
      o == BadRequest(RangeCheck(q.start_date, q.end_date).value) && data == []
    ensures RangeCheck(q.start_date, q.end_date).None? ==>
      o == Ok &&
      |data| == |Where(db.maintenance, (m: Maintenance) => RecordMatches(m, q))| &&
      (forall m :: m in data <==> Stored(db.maintenance, m) && RecordMatches(m, q)) &&
      Descending(data, DateKey)
  {
    var bad := RangeCheck(q.start_date, q.end_date);
    if bad.Some? {
      return BadRequest(bad.value), [];
    }
    var ids, rows := Select(db.maintenance, (m: Maintenance) => RecordMatches(m, q));
    SelectedAreAll(db.maintenance, (m: Maintenance) => RecordMatches(m, q), ids, rows);
    data := SortDesc(rows, DateKey);
    SortDescSameElements(rows, DateKey);
    o := Ok;
  }

  // ----- GET /maintenance/<id> -----

  /** `get_maintenance_record`: no guard; the record, or 404 for a missing id. */
  function GetMaintenanceRecord(ms: map<int, Maintenance>, id: int): (r: (Outcome, Option<Maintenance>))
    ensures r.0 == Ok <==> id in ms
    ensures id !in ms ==> r == (NotFound, None)
    ensures r.0 == Ok ==> r.1 == Some(ms[id])
  {
    match GetOr404(ms, id)
    case Raised(e) => (HandlerException(e), None)
    case Found(m) => (Ok, Some(m))
  }

  // ----- POST /maintenance -----

  /**
   * The next service date as sent: none for a missing, null or empty value,
   * the parsed date otherwise; `None` when it does not parse.
   */
  function RequestedNextService(f: Field<Option<string>>): (r: Option<Option<Date>>)
    ensures !SuppliedText(f) ==> r == Some(None)
    ensures SuppliedText(f) ==> (r.None? <==> StrptimeDate(f.value.value).None?)
    ensures SuppliedText(f) && r.Some? ==> r.value == StrptimeDate(f.value.value)
  {
    if !SuppliedText(f) then Some(None)
    else match StrptimeDate(f.value.value)
      case None => None
      case Some(d) => Some(Some(d))
  }

  /**
   * The first check `create_maintenance_record` fails: a missing or falsy
   * vehicle id, description or type, a vehicle that does not exist (404), an
   * unknown type or status, a date or next service date that does not parse.
   */
  function CreateCheck(vs: map<int, Vehicle>, b: MaintenanceBody, today: Date): (r: Option<Outcome>)
    ensures r.None? <==>
      SuppliedId(b.vehicle_id) && Supplied(b.description) && Supplied(b.maintenance_type) &&
      b.vehicle_id.value in vs && b.maintenance_type.value in MaintenanceTypes &&
      (b.status.Given? ==> b.status.value in MaintenanceStatuses) &&
      RequestedDate(b.date, today).Some? && RequestedNextService(b.next_service_date).Some?
    ensures r.Some? ==> r.value == NotFound || r.value.BadRequest?
    ensures r == Some(NotFound) <==>
      SuppliedId(b.vehicle_id) && Supplied(b.description) && Supplied(b.maintenance_type) &&
      b.vehicle_id.value !in vs
    ensures !SuppliedId(b.vehicle_id) ==> r == Some(BadRequest(MissingField("vehicle_id")))
  {
    if !SuppliedId(b.vehicle_id) then Some(BadRequest(MissingField("vehicle_id")))
    else if !Supplied(b.description) then Some(BadRequest(MissingField("description")))
    else if !Supplied(b.maintenance_type) then Some(BadRequest(MissingField("maintenance_type")))
    else if b.vehicle_id.value !in vs then Some(NotFound)
    else if b.maintenance_type.value !in MaintenanceTypes then Some(BadRequest(InvalidValue("maintenance_type")))
    else if b.status.Given? && b.status.value !in MaintenanceStatuses then Some(BadRequest(InvalidValue("status")))
    else if RequestedDate(b.date, today).None? then Some(BadRequest(BadFormat("date")))
    else if RequestedNextService(b.next_service_date).None? then Some(BadRequest(BadFormat("next_service_date")))
    else None
  }

  /** The record `create_maintenance_record` stores: cost 0.0 and status `completed` unless sent. */
  function NewRecord(id: int, vs: map<int, Vehicle>, b: MaintenanceBody, today: Date, now: Timestamp): Maintenance
    requires CreateCheck(vs, b, today).None?
  {
    Maintenance(id, b.vehicle_id.value, RequestedDate(b.date, today).value, Or(b.cost, 0.0), b.description.value,
                b.maintenance_type.value, Or(b.service_provider, None), Or(b.mileage, None),
                RequestedNextService(b.next_service_date).value, Or(b.status, "completed"), now, now)
  }

  /** A record created with only the required fields is a completed, free, undated-next-service record of today. */
  lemma NewRecordDefaults(id: int, vs: map<int, Vehicle>, vehicleId: int, description: string, kind: string,
                          today: Date, now: Timestamp)
    requires vehicleId in vs && vehicleId != 0 && description != "" && kind in MaintenanceTypes
    ensures var b := MaintenanceBody(Given(vehicleId), Absent, Absent, Given(description), Given(kind),
                                     Absent, Absent, Absent, Absent);
      CreateCheck(vs, b, today).None? &&
      var m := NewRecord(id, vs, b, today, now);
      m.status == "completed" && m.cost == 0.0 && m.date == today && m.next_service_date.None? &&
      m.service_provider.None? && m.mileage.None?
  {
  }

  /** `create_maintenance_record`: checks everything before adding. */
  method CreateMaintenanceRecord(db: Db, b: MaintenanceBody, today: Date, now: Timestamp) returns (o: Outcome)
    requires db.Valid() && Valid(today)
    modifies db
    ensures db.Valid()
    ensures CreateCheck(old(db.vehicles), b, today).Some? ==>
      o == CreateCheck(old(db.vehicles), b, today).value && db.Snapshot() == old(db.Snapshot())
    ensures o.Created? <==> CreateCheck(old(db.vehicles), b, today).None?
    ensures o.Created? ==>
      o.id !in old(db.maintenance) &&
      db.Snapshot() == old(db.Snapshot()).(
        maintenance := old(db.maintenance)[o.id := NewRecord(o.id, old(db.vehicles), b, today, now)],
        nextMaintenanceId := o.id + 1)
  {
    var check := CreateCheck(db.vehicles, b, today);
    if check.Some? {
      return check.value;
    }
    var date := RequestedDate(b.date, today).value;
    var nextService := RequestedNextService(b.next_service_date).value;
    var id := db.nextMaintenanceId;
    var m := Maintenance(id, b.vehicle_id.value, date, if b.cost.Given? then b.cost.value else 0.0,
                         b.description.value, b.maintenance_type.value,
                         if b.service_provider.Given? then b.service_provider.value else None,
                         if b.mileage.Given? then b.mileage.value else None,
                         nextService, if b.status.Given? then b.status.value else "completed", now, now);
    db.maintenance := db.maintenance[id := m];
    db.nextMaintenanceId := id + 1;
    o := Created(id);
  }

  // ----- PUT /maintenance/<id> -----

  /**
   * The first check `update_maintenance_record` fails: a sent vehicle that
   * does not exist (404), an unknown type or status, then the date and the
   * next service date in the order they are assigned. A JSON null date makes
   * `strptime` raise `TypeError`, which the handler turns into a 500; a null
   * or empty next service date clears it.
   */
  function UpdateCheck(vs: map<int, Vehicle>, b: MaintenanceBody): (r: Option<Outcome>)
    ensures r.None? <==>
      (b.vehicle_id.Given? ==> b.vehicle_id.value in vs) &&
      (b.maintenance_type.Given? ==> b.maintenance_type.value in MaintenanceTypes) &&
      (b.status.Given? ==> b.status.value in MaintenanceStatuses) &&
      (b.date.Given? ==> b.date.value.Some? && StrptimeDate(b.date.value.value).Some?) &&
      RequestedNextService(b.next_service_date).Some?
    ensures r.Some? ==> r.value == NotFound || r.value.BadRequest? || r.value == ServerError
    ensures r == Some(ServerError) <==>
      (b.vehicle_id.Given? ==> b.vehicle_id.value in vs) &&
      (b.maintenance_type.Given? ==> b.maintenance_type.value in MaintenanceTypes) &&
      (b.status.Given? ==> b.status.value in MaintenanceStatuses) &&
      b.date == Given(None)
  {
    if b.vehicle_id.Given? && b.vehicle_id.value !in vs then Some(NotFound)
    else if b.maintenance_type.Given? && b.maintenance_type.value !in MaintenanceTypes then
      Some(BadRequest(InvalidValue("maintenance_type")))
    else if b.status.Given? && b.status.value !in MaintenanceStatuses then Some(BadRequest(InvalidValue("status")))
    else if b.date == Given(None) then Some(HandlerException(TypeError))
    else if b.date.Given? && StrptimeDate(b.date.value.value).None? then Some(BadRequest(BadFormat("date")))
    else if RequestedNextService(b.next_service_date).None? then Some(BadRequest(BadFormat("next_service_date")))
    else None
  }

  /** The sent dates parse (what a passed `UpdateCheck` guarantees about them). */
  predicate UpdateParses(b: MaintenanceBody)
  {
    (b.date.Given? ==> b.date.value.Some? && StrptimeDate(b.date.value.value).Some?) &&
    RequestedNextService(b.next_service_date).Some?
  }

  /** An update request with its dates parsed: what `update_maintenance_record` assigns. */
  datatype MaintenanceChanges = MaintenanceChanges(
    vehicle_id: Field<int>, date: Field<Date>, cost: Field<real>, description: Field<string>,
    maintenance_type: Field<string>, service_provider: Field<Option<string>>, mileage: Field<Option<int>>,
    next_service_date: Field<Option<Date>>, status: Field<string>)

  /** The changes a checked request asks for; a null or empty next service date asks to clear it. */
  function Changes(b: MaintenanceBody): (c: MaintenanceChanges)
    requires UpdateParses(b)
    ensures c.date.Given? <==> b.date.Given?
    ensures c.date.Given? ==> Some(c.date.value) == StrptimeDate(b.date.value.value)
    ensures c.next_service_date.Given? <==> b.next_service_date.Given?
    ensures b.next_service_date.Given? && !SuppliedText(b.next_service_date) ==> c.next_service_date == Given(None)
    ensures SuppliedText(b.next_service_date) ==>
      c.next_service_date == Given(StrptimeDate(b.next_service_date.value.value))
  {
    MaintenanceChanges(
      b.vehicle_id, if b.date.Given? then Given(StrptimeDate(b.date.value.value).value) else Absent,
      b.cost, b.description, b.maintenance_type, b.service_provider, b.mileage,
      if b.next_service_date.Given? then Given(RequestedNextService(b.next_service_date).value) else Absent,
      b.status)
  }

  /** The record a successful update leaves: each sent key applied, the rest kept. */
  function Updated(m: Maintenance, c: MaintenanceChanges, now: Timestamp): Maintenance
  {
    m.(vehicle_id := Or(c.vehicle_id, m.vehicle_id), date := Or(c.date, m.date), cost := Or(c.cost, m.cost),
       description := Or(c.description, m.description), maintenance_type := Or(c.maintenance_type, m.maintenance_type),
       service_provider := Or(c.service_provider, m.service_provider), mileage := Or(c.mileage, m.mileage),
       next_service_date := Or(c.next_service_date, m.next_service_date), status := Or(c.status, m.status),
       updated_at := now)
  }

  /**
   * Each sent key takes its sent value and every other column keeps its own;
   * the id and creation time never change and the update stamp is the clock
   * reading. An update repeated with the same changes changes nothing more.
   */
  lemma UpdatedChangesOnlySupplied(m: Maintenance, c: MaintenanceChanges, now: Timestamp)
    ensures var u := Updated(m, c, now);
      u.id == m.id && u.created_at == m.created_at && u.updated_at == now &&
      (c.vehicle_id.Absent? ==> u.vehicle_id == m.vehicle_id) && (c.vehicle_id.Given? ==> u.vehicle_id == c.vehicle_id.value) &&
      (c.date.Absent? ==> u.date == m.date) && (c.date.Given? ==> u.date == c.date.value) &&
      (c.cost.Absent? ==> u.cost == m.cost) && (c.cost.Given? ==> u.cost == c.cost.value) &&
      (c.description.Absent? ==> u.description == m.description) && (c.description.Given? ==> u.description == c.description.value) &&
      (c.maintenance_type.Absent? ==> u.maintenance_type == m.maintenance_type) && (c.maintenance_type.Given? ==> u.maintenance_type == c.maintenance_type.value) &&
      (c.service_provider.Absent? ==> u.service_provider == m.service_provider) && (c.service_provider.Given? ==> u.service_provider == c.service_provider.value) &&
      (c.mileage.Absent? ==> u.mileage == m.mileage) && (c.mileage.Given? ==> u.mileage == c.mileage.value) &&
      (c.next_service_date.Absent? ==> u.next_service_date == m.next_service_date) && (c.next_service_date.Given? ==> u.next_service_date == c.next_service_date.value) &&
      (c.status.Absent? ==> u.status == m.status) && (c.status.Given? ==> u.status == c.status.value) &&
      Updated(u, c, now) == u
  {
    var u := Updated(m, c, now);
    var v := Updated(u, c, now);
    assert v.vehicle_id == u.vehicle_id && v.date == u.date && v.cost == u.cost && v.description == u.description;
    assert v.maintenance_type == u.maintenance_type && v.service_provider == u.service_provider && v.mileage == u.mileage && v.next_service_date == u.next_service_date;
    assert v.status == u.status;
  }

  /** `update_maintenance_record`: every failure leaves the store as it was. */
  method UpdateMaintenanceRecord(db: Db, id: int, b: MaintenanceBody, now: Timestamp) returns (o: Outcome)
    requires db.Valid()
    modifies db
    ensures db.Valid()
    ensures id !in old(db.maintenance) ==> o == NotFound && db.Snapshot() == old(db.Snapshot())
    ensures id in old(db.maintenance) && UpdateCheck(old(db.vehicles), b).Some? ==>
      o == UpdateCheck(old(db.vehicles), b).value && db.Snapshot() == old(db.Snapshot())
    ensures o == Ok <==> id in old(db.maintenance) && UpdateCheck(old(db.vehicles), b).None?
    ensures o == Ok ==>
      db.Snapshot() == old(db.Snapshot()).(
        maintenance := old(db.maintenance)[id := Updated(old(db.maintenance)[id], Changes(b), now)])
  {
    var found := GetOr404(db.maintenance, id);
    if found.Raised? {
      return HandlerException(found.error);
    }
    var check := UpdateCheck(db.vehicles, b);
    if check.Some? {
      return check.value;
    }
    var m := ApplyUpdate(found.value, Changes(b), now);
    db.maintenance := db.maintenance[id := m];
    o := Ok;
  }

  /** The assignments of `update_maintenance_record`, one sent key after another, then the update stamp. */
  method ApplyUpdate(m0: Maintenance, c: MaintenanceChanges, now: Timestamp) returns (m: Maintenance)
    ensures m == Updated(m0, c, now)
  {
    m := AssignService(m0, c);
    m := AssignOutcome(m, c);
    m := m.(updated_at := now);
  }

  /** The first assignments: vehicle, date, cost, description and type. */
  method AssignService(m0: Maintenance, c: MaintenanceChanges) returns (m: Maintenance)
    ensures m == m0.(vehicle_id := Or(c.vehicle_id, m0.vehicle_id), date := Or(c.date, m0.date),
                     cost := Or(c.cost, m0.cost), description := Or(c.description, m0.description),
                     maintenance_type := Or(c.maintenance_type, m0.maintenance_type))
  {
    m := m0;
    if c.vehicle_id.Given? {
      m := m.(vehicle_id := c.vehicle_id.value);
    }
    if c.date.Given? {
      m := m.(date := c.date.value);
    }
    if c.cost.Given? {
      m := m.(cost := c.cost.value);
    }
    if c.description.Given? {
      m := m.(description := c.description.value);
    }
    if c.maintenance_type.Given? {
      m := m.(maintenance_type := c.maintenance_type.value);
    }
  }

  /** The remaining assignments: provider, mileage, next service date and status. */
  method AssignOutcome(m0: Maintenance, c: MaintenanceChanges) returns (m: Maintenance)
    ensures m == m0.(service_provider := Or(c.service_provider, m0.service_provider),
                     mileage := Or(c.mileage, m0.mileage),
                     next_service_date := Or(c.next_service_date, m0.next_service_date),
                     status := Or(c.status, m0.status))
  {
    m := m0;
    if c.service_provider.Given? {
      m := m.(service_provider := c.service_provider.value);
    }
    if c.mileage.Given? {
      m := m.(mileage := c.mileage.value);
    }
    if c.next_service_date.Given? {
      m := m.(next_service_date := c.next_service_date.value);
    }
    if c.status.Given? {
      m := m.(status := c.status.value);
    }
  }

  // ----- DELETE /maintenance/<id> -----

  /** `delete_maintenance_record`: any existing record may be removed. */
  method DeleteMaintenanceRecord(db: Db, id: int) returns (o: Outcome)
    requires db.Valid()
    modifies db
    ensures db.Valid()
    ensures o == Ok <==> id in old(db.maintenance)
    ensures id !in old(db.maintenance) ==> o == NotFound && db.Snapshot() == old(db.Snapshot())
    ensures o == Ok ==> db.Snapshot() == old(db.Snapshot()).(maintenance := old(db.maintenance) - {id})
  {
    var found := GetOr404(db.maintenance, id);
    if found.Raised? {
      return HandlerException(found.error);
    }
    db.maintenance := db.maintenance - {id};
    o := Ok;
  }

  // ----- GET /maintenance/stats -----

  function TypeOf(m: Maintenance): string
  {
    m.maintenance_type
  }

  /** The grouping loops add the same costs `sum(record.cost ...)` does. */
  lemma {:induction false} TotalCostIsSum(ms: seq<Maintenance>)
    ensures TotalCost(ms) == Sum(ms, CostOf)
  {
    if ms != [] {
      TotalCostIsSum(ms[..|ms| - 1]);
    }
  }

  datatype MaintenanceStats = MaintenanceStats(
    total_cost: real, total_records: int, average_cost: real,
    by_type: map<string, Bucket>, by_month: map<Month, Bucket>)

  /** `total_cost / total_records if total_records > 0 else 0`. */
  function Average(total: real, n: int): (a: real)
    ensures n > 0 ==> a * (n as real) == total
    ensures n <= 0 ==> a == 0.0
  {
    if n > 0 then total / (n as real) else 0.0
  }

  /**
   * `get_maintenance_stats`: over the records of the requested vehicle (all
   * of them without one), the cost total, the record count, the average, and
   * per type and per month a count and a cost total.
   */
  method GetMaintenanceStats(db: Db, vehicleId: Field<int>) returns (o: Outcome, stats: MaintenanceStats)
    ensures o == Ok
    ensures stats.total_records == |Where(db.maintenance, (m: Maintenance) => SuppliedId(vehicleId) ==> m.vehicle_id == vehicleId.value)|
    ensures exists ms: seq<Maintenance> ::
      |ms| == stats.total_records &&
      (forall m :: m in ms <==> Stored(db.maintenance, m) && (SuppliedId(vehicleId) ==> m.vehicle_id == vehicleId.value)) &&
      stats.total_cost == TotalCost(ms) &&
      stats.average_cost == Average(TotalCost(ms), |ms|) &&
      IsGrouping(stats.by_type, ms, TypeOf, CostOf) &&
      IsGrouping(stats.by_month, ms, MonthKey, CostOf)
  {
    var ids, ms := Select(db.maintenance, (m: Maintenance) => SuppliedId(vehicleId) ==> m.vehicle_id == vehicleId.value);
    SelectedAreAll(db.maintenance, (m: Maintenance) => SuppliedId(vehicleId) ==> m.vehicle_id == vehicleId.value, ids, ms);
    var total := TotalCost(ms);
    var byType, _ := GroupBy(ms, TypeOf, CostOf);
    var byMonth, _ := GroupBy(ms, MonthKey, CostOf);
    stats := MaintenanceStats(total, |ms|, Average(total, |ms|), byType, byMonth);
    o := Ok;
  }

  /**
   * The two breakdowns account for every record once: over any listing of
   * their keys, the counts add up to `total_records` and the costs to
   * `total_cost`.
   */
  lemma StatsPartition(ms: seq<Maintenance>, byType: map<string, Bucket>, types: seq<string>,
                       byMonth: map<Month, Bucket>, months: seq<Month>)
    requires IsGrouping(byType, ms, TypeOf, CostOf) && Distinct(types) && forall k :: k in types <==> k in byType
    requires IsGrouping(byMonth, ms, MonthKey, CostOf) && Distinct(months) && forall k :: k in months <==> k in byMonth
    ensures CountSum(ms, TypeOf, types) == |ms| && TotalSum(ms, TypeOf, CostOf, types) == TotalCost(ms)
    ensures CountSum(ms, MonthKey, months) == |ms| && TotalSum(ms, MonthKey, CostOf, months) == TotalCost(ms)
  {
    GroupedPartition(byType, ms, TypeOf, CostOf, types);
    GroupedPartition(byMonth, ms, MonthKey, CostOf, months);
    TotalCostIsSum(ms);
  }
}
