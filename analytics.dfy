/**
 * The analytics endpoints, all behind `token_required`: dashboard counts and
 * totals, the daily fuel trend and the monthly maintenance-cost trend (both
 * zero-filled up to today), trips per vehicle and per driver, vehicle
 * utilization, and the fuel-efficiency ranking.
 */
module Analytics {
  import opened Common
  import opened Calendar
  import opened Models
  import opened Store
  import opened Auth
  import opened Sorting
  import opened Grouping

  function TripDate(t: Trip): Date
  {
    t.trip_date
  }

  /** A trip's fuel, 0 where it is null (only trips with fuel are ever summed). */
  function Fuel(t: Trip): real
  {
    if t.fuel_used.Some? then t.fuel_used.value else 0.0
  }

  /** A trip's distance, 0 where it is null (only trips with a distance are ever summed). */
  function Distance(t: Trip): real
  {
    if t.distance.Some? then t.distance.value else 0.0
  }

  function DateOrder(d: Date): real
  {
    Ord(d) as real
  }

  // ----- GET /analytics/fuel-consumption -----

  /** A trip the fuel trend sums: dated on or after the start, with fuel used above zero. */
  predicate FuelQualifies(t: Trip, start: Date)
  {
    Ord(t.trip_date) >= Ord(start) && t.fuel_used.Some? && t.fuel_used.value > 0.0
  }

  /** A date the trend fills in: from the start through today. */
  predicate InWindow(d: Date, start: Date, today: Date)
  {
    Valid(d) && Ord(start) <= Ord(d) <= Ord(today)
  }

  /**
   * The zero-filling `while` loop: every date from `start` through `today`
   * gets an entry, 0 where no trip gave it one, and the entries already
   * there keep their values; the new keys go at the end of the key order.
   */
  method FillDays(daily: map<Date, real>, order: seq<Date>, start: Date, today: Date)
    returns (filled: map<Date, real>, order': seq<Date>)
    requires Valid(start) && Valid(today)
    requires Distinct(order) && forall d :: d in order <==> d in daily
    ensures forall d :: d in filled <==> d in daily || InWindow(d, start, today)
    ensures forall d :: d in filled ==> filled[d] == if d in daily then daily[d] else 0.0
    ensures Distinct(order') && forall d :: d in order' <==> d in filled
  {
    filled, order' := daily, order;
    var current := start;
    while Ord(current) <= Ord(today)
      invariant Valid(current) && Ord(start) <= Ord(current)
      invariant forall d :: Valid(d) && Ord(start) <= Ord(d) < Ord(current) ==> Ord(d) <= Ord(today)
      invariant forall d :: d in filled <==> d in daily || (Valid(d) && Ord(start) <= Ord(d) < Ord(current))
      invariant forall d :: d in filled ==> filled[d] == if d in daily then daily[d] else 0.0
      invariant Distinct(order') && forall d :: d in order' <==> d in filled
      decreases Ord(today) - Ord(current)
    {
      if current !in filled {
        filled := filled[current := 0.0];
        order' := order' + [current];
      }
      var next := NextDay(current);
      forall d | Valid(d) && Ord(start) <= Ord(d) < Ord(next)
        ensures Ord(d) <= Ord(current) && (Ord(d) == Ord(current) ==> d == current)
      {
        if Ord(current) < Ord(d) {
          NextDayIsSuccessor(current, d);
        }
        if Ord(d) == Ord(current) {
          OrdInjective(d, current);
        }
      }
      current := next;
    }
  }

  /**
   * Sorting the keys of a dict keyed by valid dates lists each key once, in
   * strictly increasing order.
   */
  lemma SortedDates<V>(keys: seq<Date>, labels: seq<Date>, dict: map<Date, V>)
    requires Distinct(keys) && (forall d :: d in keys <==> d in dict) && multiset(labels) == multiset(keys)
    requires Ascending(labels, DateOrder) && forall d :: d in dict ==> Valid(d)
    ensures forall d :: d in labels <==> d in dict
    ensures forall i, j :: 0 <= i < j < |labels| ==> Ord(labels[i]) < Ord(labels[j])
  {
    forall d
      ensures d in labels <==> d in dict
    {
      assert d in labels <==> d in multiset(labels);
    }
    ReorderedDistinct(keys, labels);
    forall i, j | 0 <= i < j < |labels|
      ensures Ord(labels[i]) < Ord(labels[j])
    {
      if Ord(labels[i]) == Ord(labels[j]) {
        OrdInjective(labels[i], labels[j]);
      }
    }
  }

  /** A date some trip falls on is a valid date when every trip's is. */
  lemma MatchedDateValid(ts: seq<Trip>, d: Date)
    requires forall i :: 0 <= i < |ts| ==> Valid(ts[i].trip_date)
    requires Matching(ts, TripDate, d) != []
    ensures Valid(d)
  {
    MatchingSound(ts, TripDate, d);
    assert Matching(ts, TripDate, d)[0] in ts;
  }

  /**
   * What the fuel trend reports for the trips `ts`: a label for exactly the
   * dates a trip falls on and the dates of the window, each with the fuel of
   * its trips (0 for a date without any).
   */
  ghost predicate FuelTrend(ts: seq<Trip>, start: Date, today: Date, labels: seq<Date>, values: seq<real>)
  {
    |labels| == |values| &&
    (forall d :: d in labels <==> Matching(ts, TripDate, d) != [] || InWindow(d, start, today)) &&
    (forall i :: 0 <= i < |labels| ==> values[i] == Sum(Matching(ts, TripDate, labels[i]), Fuel))
  }

  /** The grouping, the zero-fill and the sort of the fuel trend, over the qualifying trips. */
  method DailyFuel(ts: seq<Trip>, start: Date, today: Date) returns (labels: seq<Date>, values: seq<real>)
    requires Valid(start) && Valid(today) && forall i :: 0 <= i < |ts| ==> Valid(ts[i].trip_date)
    ensures FuelTrend(ts, start, today, labels, values)
    ensures forall i, j :: 0 <= i < j < |labels| ==> Ord(labels[i]) < Ord(labels[j])
  {
    var groups, order := GroupBy(ts, TripDate, Fuel);
    var daily := map d | d in groups :: groups[d].total;
    var filled, keys := FillDays(daily, order, start, today);
    DailyTotals(ts, groups, daily, filled, start, today);
    labels := SortAsc(keys, DateOrder);
    SortedDates(keys, labels, filled);
    values := seq(|labels|, i requires 0 <= i < |labels| => filled[labels[i]]);
  }

  /** The grouped fuel, zero-filled over the window, is each date's fuel sum. */
  lemma DailyTotals(ts: seq<Trip>, groups: map<Date, Bucket>, daily: map<Date, real>, filled: map<Date, real>,
                    start: Date, today: Date)
    requires forall i :: 0 <= i < |ts| ==> Valid(ts[i].trip_date)
    requires IsGrouping(groups, ts, TripDate, Fuel)
    requires forall d :: d in daily <==> d in groups
    requires forall d :: d in daily ==> daily[d] == groups[d].total
    requires forall d :: d in filled <==> d in daily || InWindow(d, start, today)
    requires forall d :: d in filled ==> filled[d] == if d in daily then daily[d] else 0.0
    ensures forall d :: d in filled <==> Matching(ts, TripDate, d) != [] || InWindow(d, start, today)
    ensures forall d :: d in filled ==> Valid(d) && filled[d] == Sum(Matching(ts, TripDate, d), Fuel)
  {
    forall d | d in filled
      ensures Valid(d) && filled[d] == Sum(Matching(ts, TripDate, d), Fuel)
    {
      if d in daily {
        MatchedDateValid(ts, d);
      }
    }
  }

  /** `ts` are the stored trips with fuel on or after `start`, each once. */
  ghost predicate QualifyingTrips(ts: seq<Trip>, table: map<int, Trip>, start: Date)
  {
    |ts| == |Where(table, (t: Trip) => FuelQualifies(t, start))| &&
    forall t :: t in ts <==> Stored(table, t) && FuelQualifies(t, start)
  }

  /**
   * `get_fuel_consumption_trends`: one label per date, in increasing order,
   * covering every date from `today - days` through today and every date a
   * qualifying trip falls on; each value is the fuel of that date's
   * qualifying trips, 0 for a date without any.
   */
  method GetFuelConsumptionTrends(db: Db, current: Option<User>, today: Date, days: int)
    returns (o: Outcome, labels: seq<Date>, values: seq<real>)
    requires db.Valid() && Valid(today)
    ensures RequireToken(current).Reject? ==> o == Unauthorized && labels == [] && values == []
    ensures RequireToken(current).Admit? ==> o == Ok
    ensures |labels| == |values|
    ensures forall i, j :: 0 <= i < j < |labels| ==> Ord(labels[i]) < Ord(labels[j])
    ensures RequireToken(current).Admit? ==>
      forall d :: InWindow(d, SubDays(today, days), today) ==> d in labels
    ensures RequireToken(current).Admit? ==>
      exists ts: seq<Trip> ::
        QualifyingTrips(ts, db.trips, SubDays(today, days)) && FuelTrend(ts, SubDays(today, days), today, labels, values)
  {
    var gate := RequireToken(current);
    if gate.Reject? {
      return gate.outcome, [], [];
    }
    var start := SubDays(today, days);
    var ids, ts := Select(db.trips, (t: Trip) => FuelQualifies(t, start));
    SelectedAreAll(db.trips, (t: Trip) => FuelQualifies(t, start), ids, ts);
    assert QualifyingTrips(ts, db.trips, start);
    labels, values := DailyFuel(ts, start, today);
    o := Ok;
  }

  // ----- GET /analytics/maintenance-costs -----

  /** `d.replace(day=1)` for the first day of month `k`. */
  function FirstOf(k: Month): Date
  {
    Date(k.year, k.month, 1)
  }

  /** The loop test `current_date <= date.today()` on a first of month compares months. */
  lemma FirstOfNotAfter(k: Month, today: Date)
    requires ValidMonth(k) && Valid(today)
    ensures Ord(FirstOf(k)) <= Ord(today) <==> MonthOrd(k) <= MonthOrd(MonthOf(today))
  {
    // Within a year the month decides both comparisons; across years the year does.
    if k.year < today.year {
      assert Ord(FirstOf(k)) < Ord(today) && MonthOrd(k) < MonthOrd(MonthOf(today));
    } else if k.year > today.year {
      assert Ord(FirstOf(k)) > Ord(today) && MonthOrd(k) > MonthOrd(MonthOf(today));
    }
  }

  /** A month the trend fills in: from the start date's month through the current month. */
  predicate MonthInWindow(k: Month, start: Date, today: Date)
  {
    ValidMonth(k) && MonthOrd(MonthOf(start)) <= MonthOrd(k) <= MonthOrd(MonthOf(today))
  }

  function MonthOrder(k: Month): real
  {
    MonthOrd(k) as real
  }

  /**
   * The month-stepping `while` loop: every month from the start date's
   * through the current one gets an entry, 0 where no record gave it one;
   * December steps to January of the next year.
   */
  method FillMonths(monthly: map<Month, real>, order: seq<Month>, start: Date, today: Date)
    returns (filled: map<Month, real>, order': seq<Month>)
    requires Valid(start) && Valid(today)
    requires Distinct(order) && forall k :: k in order <==> k in monthly
    ensures forall k :: k in filled <==> k in monthly || MonthInWindow(k, start, today)
    ensures forall k :: k in filled ==> filled[k] == if k in monthly then monthly[k] else 0.0
    ensures Distinct(order') && forall k :: k in order' <==> k in filled
  {
    filled, order' := monthly, order;
    var current := MonthOf(start);
    FirstOfNotAfter(current, today);
    while Ord(FirstOf(current)) <= Ord(today)
      invariant ValidMonth(current) && MonthOrd(MonthOf(start)) <= MonthOrd(current)
      invariant current == MonthOf(start) || MonthOrd(current) <= MonthOrd(MonthOf(today)) + 1
      invariant Ord(FirstOf(current)) <= Ord(today) <==> MonthOrd(current) <= MonthOrd(MonthOf(today))
      invariant forall k :: k in filled <==>
        k in monthly || (ValidMonth(k) && MonthOrd(MonthOf(start)) <= MonthOrd(k) < MonthOrd(current))
      invariant forall k :: k in filled ==> filled[k] == if k in monthly then monthly[k] else 0.0
      invariant Distinct(order') && forall k :: k in order' <==> k in filled
      decreases MonthOrd(MonthOf(today)) - MonthOrd(current)
    {
      if current !in filled {
        filled := filled[current := 0.0];
        order' := order' + [current];
      }
      forall k | ValidMonth(k) && MonthOrd(k) == MonthOrd(current)
        ensures k == current
      {
        MonthOrdInjective(k, current);
      }
      current := NextMonth(current);
      FirstOfNotAfter(current, today);
    }
  }

  /** Sorting the keys of a dict keyed by valid months lists each key once, in strictly increasing order. */
  lemma SortedMonths<V>(keys: seq<Month>, labels: seq<Month>, dict: map<Month, V>)
    requires Distinct(keys) && (forall k :: k in keys <==> k in dict) && multiset(labels) == multiset(keys)
    requires Ascending(labels, MonthOrder) && forall k :: k in dict ==> ValidMonth(k)
    ensures forall k :: k in labels <==> k in dict
    ensures forall i, j :: 0 <= i < j < |labels| ==> MonthOrd(labels[i]) < MonthOrd(labels[j])
  {
    forall k
      ensures k in labels <==> k in dict
    {
      assert k in labels <==> k in multiset(labels);
    }
    ReorderedDistinct(keys, labels);
    forall i, j | 0 <= i < j < |labels|
      ensures MonthOrd(labels[i]) < MonthOrd(labels[j])
    {
      if MonthOrd(labels[i]) == MonthOrd(labels[j]) {
        MonthOrdInjective(labels[i], labels[j]);
      }
    }
  }

  /**
   * What the cost trend reports for the records `ms`: a label for exactly the
   * months a record falls in and the months of the window, each with the
   * cost of its records (0 for a month without any).
   */
  ghost predicate CostTrend(ms: seq<Maintenance>, start: Date, today: Date, labels: seq<Month>, values: seq<real>)
  {
    |labels| == |values| &&
    (forall k :: k in labels <==> Matching(ms, MonthKey, k) != [] || MonthInWindow(k, start, today)) &&
    (forall i :: 0 <= i < |labels| ==> values[i] == Sum(Matching(ms, MonthKey, labels[i]), CostOf))
  }

  /** The grouping, the zero-fill and the sort of the cost trend, over the selected records. */
  method MonthlyCost(ms: seq<Maintenance>, start: Date, today: Date) returns (labels: seq<Month>, values: seq<real>)
    requires Valid(start) && Valid(today) && forall i :: 0 <= i < |ms| ==> Valid(ms[i].date)
    ensures CostTrend(ms, start, today, labels, values)
    ensures forall i, j :: 0 <= i < j < |labels| ==> MonthOrd(labels[i]) < MonthOrd(labels[j])
  {
    var groups, order := GroupBy(ms, MonthKey, CostOf);
    var monthly := map k | k in groups :: groups[k].total;
    var filled, keys := FillMonths(monthly, order, start, today);
    MonthlyTotals(ms, groups, monthly, filled, start, today);
    labels := SortAsc(keys, MonthOrder);
    SortedMonths(keys, labels, filled);
    values := seq(|labels|, i requires 0 <= i < |labels| => filled[labels[i]]);
  }

  /** The grouped cost, zero-filled over the window's months, is each month's cost sum. */
  lemma MonthlyTotals(ms: seq<Maintenance>, groups: map<Month, Bucket>, monthly: map<Month, real>,
                      filled: map<Month, real>, start: Date, today: Date)
    requires forall i :: 0 <= i < |ms| ==> Valid(ms[i].date)
    requires IsGrouping(groups, ms, MonthKey, CostOf)
    requires forall k :: k in monthly <==> k in groups
    requires forall k :: k in monthly ==> monthly[k] == groups[k].total
    requires forall k :: k in filled <==> k in monthly || MonthInWindow(k, start, today)
    requires forall k :: k in filled ==> filled[k] == if k in monthly then monthly[k] else 0.0
    ensures forall k :: k in filled <==> Matching(ms, MonthKey, k) != [] || MonthInWindow(k, start, today)
    ensures forall k :: k in filled ==> ValidMonth(k) && filled[k] == Sum(Matching(ms, MonthKey, k), CostOf)
  {
    forall k | k in filled
      ensures ValidMonth(k) && filled[k] == Sum(Matching(ms, MonthKey, k), CostOf)
    {
      if k in monthly {
        MatchingSound(ms, MonthKey, k);
        assert Matching(ms, MonthKey, k)[0] in ms;
      }
    }
  }

  /**
   * `get_maintenance_cost_trends`: over the records dated on or after
   * `today - 30 * months` days, one label per month in increasing order,
   * covering every month from the start date's through the current one and
   * every month a record falls in, each with that month's cost.
   */
  method GetMaintenanceCostTrends(db: Db, current: Option<User>, today: Date, months: int)
    returns (o: Outcome, labels: seq<Month>, values: seq<real>)
    requires db.Valid() && Valid(today)
    ensures RequireToken(current).Reject? ==> o == Unauthorized && labels == [] && values == []
    ensures RequireToken(current).Admit? ==> o == Ok
    ensures |labels| == |values|
    ensures forall i, j :: 0 <= i < j < |labels| ==> MonthOrd(labels[i]) < MonthOrd(labels[j])
    ensures RequireToken(current).Admit? ==>
      forall k :: MonthInWindow(k, SubDays(today, months * 30), today) ==> k in labels
    ensures RequireToken(current).Admit? ==>
      exists ms: seq<Maintenance> ::
        RecentRecords(ms, db.maintenance, SubDays(today, months * 30)) &&
        CostTrend(ms, SubDays(today, months * 30), today, labels, values)
  {
    var gate := RequireToken(current);
    if gate.Reject? {
      return gate.outcome, [], [];
    }
    var start := SubDays(today, months * 30);
    var ids, ms := Select(db.maintenance, (m: Maintenance) => MaintenanceSince(m, start));
    SelectedAreAll(db.maintenance, (m: Maintenance) => MaintenanceSince(m, start), ids, ms);
    assert RecentRecords(ms, db.maintenance, start);
    labels, values := MonthlyCost(ms, start, today);
    o := Ok;
  }

  // ----- GET /analytics/trips-per-vehicle and /analytics/trips-per-driver -----

  function VehicleOf(t: Trip): int
  {
    t.vehicle_id
  }

  function DriverOf(t: Trip): int
  {
    t.driver_id
  }

  /** The chart label `f"{reg_no} ({model})"`. */
  function VehicleLabel(v: Vehicle): string
  {
    v.reg_no + " (" + v.model + ")"
  }

  function IntSum(xs: seq<int>): int
  {
    if xs == [] then 0 else IntSum(xs[..|xs| - 1]) + xs[|xs| - 1]
  }

  /** `ts` lists every stored trip once. */
  ghost predicate AllTrips(ts: seq<Trip>, trips: map<int, Trip>)
  {
    |ts| == |trips| && forall t :: t in ts <==> Stored(trips, t)
  }

  /** Each listed id paired with the number of trips under it, as `count(Trip.id)` over the outer join gives it. */
  ghost predicate Tallied(ids: seq<int>, ts: seq<Trip>, key: Trip -> int, counts: seq<int>)
  {
    |counts| == |ids| && forall i :: 0 <= i < |ids| ==> counts[i] == |Matching(ts, key, ids[i])|
  }

  /** The loop over the joined rows, collecting one count per id. */
  method Tally(ts: seq<Trip>, key: Trip -> int, ids: seq<int>) returns (counts: seq<int>)
    ensures Tallied(ids, ts, key, counts)
    ensures IntSum(counts) == CountSum(ts, key, ids)
  {
    counts := [];
    for i := 0 to |ids|
      invariant Tallied(ids[..i], ts, key, counts)
      invariant IntSum(counts) == CountSum(ts, key, ids[..i])
    {
      var c := |Matching(ts, key, ids[i])|;
      assert (counts + [c])[..i] == counts;
      assert ids[..i + 1][..i] == ids[..i];
      counts := counts + [c];
    }
    assert ids[..|ids|] == ids;
  }

  /** Every stored trip, each once. */
  method ReadAllTrips(db: Db) returns (ts: seq<Trip>)
    requires db.Valid()
    ensures AllTrips(ts, db.trips)
    ensures forall i :: 0 <= i < |ts| ==> ts[i].vehicle_id in db.vehicles && ts[i].driver_id in db.drivers
  {
    var ids := AllIds(db.trips);
    EnumeratesSize(ids, db.trips);
    ts := Rows(ids, db.trips);
    SelectedAreAll(db.trips, (t: Trip) => true, ids, ts);
  }

  /**
   * `get_trips_per_vehicle`: every vehicle once, with its label and its
   * number of trips (0 for a vehicle without any); the counts add up to the
   * number of trips.
   */
  method GetTripsPerVehicle(db: Db, current: Option<User>) returns (o: Outcome, labels: seq<string>, values: seq<int>)
    requires db.Valid()
    ensures RequireToken(current).Reject? ==> o == Unauthorized && labels == [] && values == []
    ensures RequireToken(current).Admit? ==>
      o == Ok &&
      exists ids: seq<int>, ts: seq<Trip> ::
        Enumerates(ids, db.vehicles) && AllTrips(ts, db.trips) && Tallied(ids, ts, VehicleOf, values) &&
        |labels| == |ids| && forall i :: 0 <= i < |ids| ==> labels[i] == VehicleLabel(db.vehicles[ids[i]])
    ensures RequireToken(current).Admit? ==> IntSum(values) == |db.trips|
  {
    var gate := RequireToken(current);
    if gate.Reject? {
      return gate.outcome, [], [];
    }
    var ids := AllIds(db.vehicles);
    var ts := ReadAllTrips(db);
    values := Tally(ts, VehicleOf, ids);
    var vs := db.vehicles;
    labels := seq(|ids|, i requires 0 <= i < |ids| => VehicleLabel(vs[ids[i]]));
    Partition(ts, VehicleOf, Fuel, ids);
    o := Ok;
  }

  /**
   * `get_trips_per_driver`: every driver once, with their name and their
   * number of trips (0 for a driver without any); the counts add up to the
   * number of trips.
   */
  method GetTripsPerDriver(db: Db, current: Option<User>) returns (o: Outcome, labels: seq<string>, values: seq<int>)
    requires db.Valid()
    ensures RequireToken(current).Reject? ==> o == Unauthorized && labels == [] && values == []
    ensures RequireToken(current).Admit? ==>
      o == Ok &&
      exists ids: seq<int>, ts: seq<Trip> ::
        Enumerates(ids, db.drivers) && AllTrips(ts, db.trips) && Tallied(ids, ts, DriverOf, values) &&
        |labels| == |ids| && forall i :: 0 <= i < |ids| ==> labels[i] == db.drivers[ids[i]].name
    ensures RequireToken(current).Admit? ==> IntSum(values) == |db.trips|
  {
    var gate := RequireToken(current);
    if gate.Reject? {
      return gate.outcome, [], [];
    }
    var ids := AllIds(db.drivers);
    var ts := ReadAllTrips(db);
    values := Tally(ts, DriverOf, ids);
    var ds := db.drivers;
    labels := seq(|ids|, i requires 0 <= i < |ids| => ds[ids[i]].name);
    Partition(ts, DriverOf, Fuel, ids);
    o := Ok;
  }

  // ----- GET /analytics/vehicle-utilization -----

  /**
   * The distinct trip dates of a vehicle as the query counts them: every date
   * on or after `start`, today and later ones included.
   */
  function TripDatesSince(ts: map<int, Trip>, vehicleId: int, start: Date): set<Date>
  {
    set id | id in ts && ts[id].vehicle_id == vehicleId && Ord(ts[id].trip_date) >= Ord(start) :: ts[id].trip_date
  }

  /** The distinct trip dates of a vehicle in the window of `days` days that ends today: after `start`, up to today. */
  function TripDatesInWindow(ts: map<int, Trip>, vehicleId: int, start: Date, today: Date): set<Date>
  {
    set id | id in ts && ts[id].vehicle_id == vehicleId && Ord(start) < Ord(ts[id].trip_date) <= Ord(today) ::
      ts[id].trip_date
  }

  /** `(days_used / days) * 100 if days > 0 else 0`. */
  function Rate(used: int, days: int): real
  {
    if days > 0 then (used as real / days as real) * 100.0 else 0.0
  }

  /** As written, a window of one day with trips yesterday and today is used 200% of the time. */
  lemma UtilizationAsWrittenExceeds100()
    ensures var today := Date(2024, 3, 10);
      var yesterday := Date(2024, 3, 9);
      var trip := Trip(1, 7, 1, "A", "B", None, None, yesterday, None, None, "completed", None, 0, 0);
      var ts := map[1 := trip, 2 := trip.(id := 2, trip_date := today)];
      var used := |TripDatesSince(ts, 7, SubDays(today, 1))|;
      used == 2 && Rate(used, 1) == 200.0
  {
    var today := Date(2024, 3, 10);
    var yesterday := Date(2024, 3, 9);
    var trip := Trip(1, 7, 1, "A", "B", None, None, yesterday, None, None, "completed", None, 0, 0);
    var ts := map[1 := trip, 2 := trip.(id := 2, trip_date := today)];
    assert SubDays(today, 1) == yesterday;
    var dates := TripDatesSince(ts, 7, yesterday);
    assert ts[1].trip_date == yesterday && ts[2].trip_date == today;
    assert yesterday in dates && today in dates;
    forall d | d in dates
      ensures d == yesterday || d == today
    {
      var id :| id in ts && ts[id].trip_date == d;
    }
    assert dates == {yesterday, today};
  }

  /** Counting only the window's dates, no vehicle is used more than every day of it. */
  lemma UtilizationAtMost100(ts: map<int, Trip>, vehicleId: int, today: Date, days: int)
    requires Valid(today) && forall id :: id in ts ==> Valid(ts[id].trip_date)
    ensures var used := |TripDatesInWindow(ts, vehicleId, SubDays(today, days), today)|;
      (days > 0 ==> used <= days) && 0.0 <= Rate(used, days) <= 100.0
  {
    var start := SubDays(today, days);
    var dates := TripDatesInWindow(ts, vehicleId, start, today);
    if days > 0 {
      forall e | e in dates
        ensures Valid(e) && Ord(SubDays(today, days)) < Ord(e) <= Ord(today)
      {
        var id :| id in ts && ts[id].vehicle_id == vehicleId && Ord(start) < Ord(ts[id].trip_date) <= Ord(today) &&
          ts[id].trip_date == e;
      }
      WindowSize(today, days, dates);
      RateBounded(|dates|, days);
    }
  }

  /** A rate of at most `days` used days out of `days` lies within 0 to 100. */
  lemma RateBounded(used: int, days: int)
    requires 0 <= used <= days && days > 0
    ensures 0.0 <= Rate(used, days) <= 100.0
  {
    var r := used as real / days as real;
    assert r * (days as real) == used as real;
    assert r <= 1.0;
  }

  datatype UtilizationEntry = UtilizationEntry(vehicle: string, utilization_rate: real, days_used: int, total_days: int)

  /** A vehicle's entry, counting the distinct dates of its trips in the last `days` days. */
  function UtilizationOf(v: Vehicle, ts: map<int, Trip>, today: Date, days: int): (e: UtilizationEntry)
    requires Valid(today) && forall id :: id in ts ==> Valid(ts[id].trip_date)
    ensures e.vehicle == VehicleLabel(v) && e.total_days == days
    ensures e.days_used == |TripDatesInWindow(ts, v.id, SubDays(today, days), today)|
    ensures 0.0 <= e.utilization_rate <= 100.0 && (days > 0 ==> e.days_used <= days)
  {
    UtilizationAtMost100(ts, v.id, today, days);
    var used := |TripDatesInWindow(ts, v.id, SubDays(today, days), today)|;
    UtilizationEntry(VehicleLabel(v), Rate(used, days), used, days)
  }

  /** The loop over the vehicles, appending one entry each. */
  method UtilizationEntries(vs: map<int, Vehicle>, ids: seq<int>, ts: map<int, Trip>, today: Date, days: int)
    returns (entries: seq<UtilizationEntry>)
    requires Valid(today) && forall id :: id in ts ==> Valid(ts[id].trip_date)
    requires forall i :: 0 <= i < |ids| ==> ids[i] in vs
    ensures |entries| == |ids|
    ensures forall j :: 0 <= j < |ids| ==> entries[j] == UtilizationOf(vs[ids[j]], ts, today, days)
  {
    entries := [];
    for i := 0 to |ids|
      invariant |entries| == i
      invariant forall j :: 0 <= j < i ==> entries[j] == UtilizationOf(vs[ids[j]], ts, today, days)
    {
      entries := entries + [UtilizationOf(vs[ids[i]], ts, today, days)];
    }
  }

  function RateOf(e: UtilizationEntry): real
  {
    e.utilization_rate
  }

  /**
   * `get_vehicle_utilization`: one entry per vehicle, highest rate first, each
   * rate between 0 and 100.
   */
  method GetVehicleUtilization(db: Db, current: Option<User>, today: Date, days: int)
    returns (o: Outcome, data: seq<UtilizationEntry>)
    requires db.Valid() && Valid(today)
    ensures RequireToken(current).Reject? ==> o == Unauthorized && data == []
    ensures RequireToken(current).Admit? ==> o == Ok && |data| == |db.vehicles|
    ensures RequireToken(current).Admit? ==>
      forall id :: id in db.vehicles ==> UtilizationOf(db.vehicles[id], db.trips, today, days) in data
    ensures forall e :: e in data ==>
      exists id :: id in db.vehicles && e == UtilizationOf(db.vehicles[id], db.trips, today, days)
    ensures Descending(data, RateOf)
    ensures forall e :: e in data ==> 0.0 <= e.utilization_rate <= 100.0
  {
    var gate := RequireToken(current);
    if gate.Reject? {
      return gate.outcome, [];
    }
    var ids := AllIds(db.vehicles);
    var entries := UtilizationEntries(db.vehicles, ids, db.trips, today, days);
    data := SortDesc(entries, RateOf);
    SortDescSameElements(entries, RateOf);
    EnumeratesSize(ids, db.vehicles);
    EntriesCoverVehicles(db.vehicles, ids, db.trips, today, days, entries, data);
    o := Ok;
  }

  /** The entries, in any order, are exactly the vehicles' entries. */
  lemma EntriesCoverVehicles(vs: map<int, Vehicle>, ids: seq<int>, ts: map<int, Trip>, today: Date, days: int,
                             entries: seq<UtilizationEntry>, data: seq<UtilizationEntry>)
    requires Valid(today) && forall id :: id in ts ==> Valid(ts[id].trip_date)
    requires Enumerates(ids, vs)
    requires |entries| == |ids| && forall j :: 0 <= j < |ids| ==> entries[j] == UtilizationOf(vs[ids[j]], ts, today, days)
    requires forall e :: e in data <==> e in entries
    ensures forall id :: id in vs ==> UtilizationOf(vs[id], ts, today, days) in data
    ensures forall e :: e in data ==> exists id :: id in vs && e == UtilizationOf(vs[id], ts, today, days)
  {
    forall id | id in vs
      ensures UtilizationOf(vs[id], ts, today, days) in data
    {
      var j :| 0 <= j < |ids| && ids[j] == id;
      assert entries[j] == UtilizationOf(vs[id], ts, today, days);
    }
    forall e | e in data
      ensures exists id :: id in vs && e == UtilizationOf(vs[id], ts, today, days)
    {
      var j :| 0 <= j < |entries| && entries[j] == e;
      assert ids[j] in vs;
    }
  }

  // ----- GET /analytics/fuel-efficiency -----

  /** A trip the ranking sums: distance and fuel both recorded and above zero. */
  predicate EfficiencyQualifies(t: Trip)
  {
    t.distance.Some? && t.fuel_used.Some? && t.distance.value > 0.0 && t.fuel_used.value > 0.0
  }

  datatype EfficiencyEntry = EfficiencyEntry(
    vehicle: string, fuel_type: string, efficiency: real, total_distance: real, total_fuel: real)

  /** A vehicle's entry from its qualifying trips: kilometres per litre over their totals. */
  function EntryOf(v: Vehicle, mine: seq<Trip>): (e: EfficiencyEntry)
    requires Sum(mine, Fuel) > 0.0
    ensures e.total_distance == Sum(mine, Distance) && e.total_fuel == Sum(mine, Fuel)
    ensures e.efficiency * e.total_fuel == e.total_distance
    ensures e.vehicle == VehicleLabel(v) && e.fuel_type == v.fuel_type
  {
    var d, f := Sum(mine, Distance), Sum(mine, Fuel);
    EfficiencyEntry(VehicleLabel(v), v.fuel_type, d / f, d, f)
  }

  function EfficiencyOf(e: EfficiencyEntry): real
  {
    e.efficiency
  }

  /** The `if total_fuel > 0` test never drops a vehicle: a vehicle with a qualifying trip has positive fuel. */
  lemma FuelCheckNeverFilters(ts: seq<Trip>, vehicleId: int)
    requires forall i :: 0 <= i < |ts| ==> EfficiencyQualifies(ts[i])
    ensures Matching(ts, VehicleOf, vehicleId) != [] <==> Sum(Matching(ts, VehicleOf, vehicleId), Fuel) > 0.0
  {
    var mine := Matching(ts, VehicleOf, vehicleId);
    if mine != [] {
      MatchingSound(ts, VehicleOf, vehicleId);
      forall i | 0 <= i < |mine|
        ensures Fuel(mine[i]) > 0.0
      {
        assert mine[i] in ts;
      }
      SumPositive(mine, Fuel);
    }
  }

  /** `e` is the entry of vehicle `id`, which has qualifying fuel above zero. */
  ghost predicate Keeps(ts: seq<Trip>, vs: map<int, Vehicle>, id: int, e: EfficiencyEntry)
  {
    id in vs && Sum(Matching(ts, VehicleOf, id), Fuel) > 0.0 && e == EntryOf(vs[id], Matching(ts, VehicleOf, id))
  }

  /**
   * What the ranking lists for the qualifying trips `ts`: an entry for
   * exactly the vehicles whose qualifying fuel adds up to more than zero,
   * built from those trips.
   */
  ghost predicate Ranked(ts: seq<Trip>, vs: map<int, Vehicle>, entries: seq<EfficiencyEntry>)
  {
    forall e :: e in entries <==> exists id :: Keeps(ts, vs, id, e)
  }

  /** A vehicle id that groups any trip is a stored vehicle, given the trips' foreign keys. */
  lemma GroupKeyStored(ts: seq<Trip>, vs: map<int, Vehicle>, id: int)
    requires forall i :: 0 <= i < |ts| ==> ts[i].vehicle_id in vs
    requires Matching(ts, VehicleOf, id) != []
    ensures id in vs
  {
    MatchingSound(ts, VehicleOf, id);
    assert Matching(ts, VehicleOf, id)[0] in ts;
  }

  /** Entries kept for every grouped id are exactly the ranked ones. */
  lemma ListedIsRanked(ts: seq<Trip>, vs: map<int, Vehicle>, order: seq<int>, entries: seq<EfficiencyEntry>)
    requires forall i :: 0 <= i < |ts| ==> ts[i].vehicle_id in vs
    requires forall k :: k in order <==> Matching(ts, VehicleOf, k) != []
    requires forall e :: e in entries <==> exists j :: 0 <= j < |order| && Keeps(ts, vs, order[j], e)
    ensures Ranked(ts, vs, entries)
  {
    forall e
      ensures e in entries <==> exists id :: Keeps(ts, vs, id, e)
    {
      if exists id :: Keeps(ts, vs, id, e) {
        var id :| Keeps(ts, vs, id, e);
        assert Matching(ts, VehicleOf, id) != [];
        var j :| 0 <= j < |order| && order[j] == id;
        assert Keeps(ts, vs, order[j], e);
      }
    }
  }

  /** Every ranked entry has fuel above zero, and its efficiency times its fuel is its distance. */
  lemma RankedEntriesSound(ts: seq<Trip>, vs: map<int, Vehicle>, entries: seq<EfficiencyEntry>)
    requires Ranked(ts, vs, entries)
    ensures forall e :: e in entries ==> e.total_fuel > 0.0 && e.efficiency * e.total_fuel == e.total_distance
  {
    forall e | e in entries
      ensures e.total_fuel > 0.0 && e.efficiency * e.total_fuel == e.total_distance
    {
      var id :| Keeps(ts, vs, id, e);
    }
  }

  /** Vehicle `id` is stored and its qualifying fuel adds up to more than zero. */
  ghost predicate Qualified(ts: seq<Trip>, vs: map<int, Vehicle>, id: int)
  {
    id in vs && Sum(Matching(ts, VehicleOf, id), Fuel) > 0.0
  }

  /** The entries of the vehicles `ids`, in that order. */
  ghost function EntriesFor(ts: seq<Trip>, vs: map<int, Vehicle>, ids: seq<int>): (r: seq<EfficiencyEntry>)
    requires forall id :: id in ids ==> Qualified(ts, vs, id)
    ensures |r| == |ids|
  {
    if ids == [] then []
    else
      var init, last := ids[..|ids| - 1], ids[|ids| - 1];
      assert ids == init + [last] && Qualified(ts, vs, last);
      EntriesFor(ts, vs, init) + [EntryOf(vs[last], Matching(ts, VehicleOf, last))]
  }

  /** `ids` lists each vehicle whose qualifying fuel adds up to more than zero, once. */
  ghost predicate RankedIds(ts: seq<Trip>, vs: map<int, Vehicle>, ids: seq<int>)
  {
    Distinct(ids) && forall id :: id in ids <==> Qualified(ts, vs, id)
  }

  /** One entry for each ranked vehicle and no more, in any order (the rows of `group_by(Vehicle.id)`). */
  ghost predicate OnePerVehicle(ts: seq<Trip>, vs: map<int, Vehicle>, entries: seq<EfficiencyEntry>)
  {
    exists ids :: RankedIds(ts, vs, ids) && multiset(entries) == multiset(EntriesFor(ts, vs, ids))
  }

  /** The vehicles with qualifying fuel above zero. */
  ghost function QualifiedIds(ts: seq<Trip>, vs: map<int, Vehicle>): set<int>
  {
    set id | id in vs && Qualified(ts, vs, id)
  }

  /** Ranked ids, listed once each, are as many as the vehicles with fuel above zero. */
  lemma RankedIdsCount(ts: seq<Trip>, vs: map<int, Vehicle>, ids: seq<int>)
    requires RankedIds(ts, vs, ids)
    ensures |ids| == |QualifiedIds(ts, vs)|
  {
    DistinctCard(ids);
    assert (set i | i in ids) == QualifiedIds(ts, vs);
  }

  /** A result with one entry per vehicle is exactly as long as the number of vehicles with fuel above zero. */
  lemma OnePerVehicleLength(ts: seq<Trip>, vs: map<int, Vehicle>, entries: seq<EfficiencyEntry>)
    requires OnePerVehicle(ts, vs, entries)
    ensures |entries| == |QualifiedIds(ts, vs)|
  {
    var ids :| RankedIds(ts, vs, ids) && multiset(entries) == multiset(EntriesFor(ts, vs, ids));
    RankedIdsCount(ts, vs, ids);
    assert |entries| == |multiset(entries)| == |multiset(EntriesFor(ts, vs, ids))|;
  }

  /** So a ranking that lists some vehicle's row a second time is not one entry per vehicle. */
  lemma ExtraRowBreaksOnePerVehicle(ts: seq<Trip>, vs: map<int, Vehicle>, entries: seq<EfficiencyEntry>, e: EfficiencyEntry)
    requires OnePerVehicle(ts, vs, entries)
    ensures !OnePerVehicle(ts, vs, [e] + entries)
  {
    OnePerVehicleLength(ts, vs, entries);
    if OnePerVehicle(ts, vs, [e] + entries) {
      OnePerVehicleLength(ts, vs, [e] + entries);
    }
  }

  /** After the first `i` grouped ids, `kept` lists once each of them whose fuel is above zero. */
  ghost predicate KeptSoFar(ts: seq<Trip>, vs: map<int, Vehicle>, order: seq<int>, i: int, kept: seq<int>)
    requires 0 <= i <= |order|
  {
    Distinct(kept) &&
    (forall id :: id in kept ==> id in order[..i] && Qualified(ts, vs, id)) &&
    (forall j :: 0 <= j < i && Qualified(ts, vs, order[j]) ==> order[j] in kept)
  }

  /** The next grouped id joins `kept` exactly when it is a vehicle with fuel above zero. */
  lemma KeptIdsStep(ts: seq<Trip>, vs: map<int, Vehicle>, order: seq<int>, i: int, kept: seq<int>)
    requires Distinct(order) && 0 <= i < |order| && KeptSoFar(ts, vs, order, i, kept)
    ensures Qualified(ts, vs, order[i]) ==>
      KeptSoFar(ts, vs, order, i + 1, kept + [order[i]]) &&
      EntriesFor(ts, vs, kept + [order[i]]) ==
        EntriesFor(ts, vs, kept) + [EntryOf(vs[order[i]], Matching(ts, VehicleOf, order[i]))]
    ensures !Qualified(ts, vs, order[i]) ==> KeptSoFar(ts, vs, order, i + 1, kept)
  {
    var id := order[i];
    assert order[..i + 1] == order[..i] + [id];
    if Qualified(ts, vs, id) {
      assert id !in order[..i];
      DistinctSnoc(kept, id);
      assert (kept + [id])[..|kept|] == kept;
    }
  }

  /** A key listed once each stays so when a key not yet listed is appended. */
  lemma DistinctSnoc(ids: seq<int>, id: int)
    requires Distinct(ids) && id !in ids
    ensures Distinct(ids + [id])
  {
    forall i, j | 0 <= i < j < |ids + [id]|
      ensures (ids + [id])[i] != (ids + [id])[j]
    {
      assert (ids + [id])[i] == ids[i];
      if j < |ids| {
        assert (ids + [id])[j] == ids[j];
      }
    }
  }

  /** The loop over the per-vehicle sums, keeping the vehicles with fuel above zero. */
  method EfficiencyEntries(ts: seq<Trip>, vs: map<int, Vehicle>) returns (entries: seq<EfficiencyEntry>)
    requires forall i :: 0 <= i < |ts| ==> ts[i].vehicle_id in vs
    ensures Ranked(ts, vs, entries)
    ensures exists ids :: RankedIds(ts, vs, ids) && entries == EntriesFor(ts, vs, ids)
  {
    var distances, order := GroupBy(ts, VehicleOf, Distance);
    var fuels, _ := GroupBy(ts, VehicleOf, Fuel);
    entries := [];
    ghost var kept: seq<int> := [];
    for i := 0 to |order|
      invariant forall e :: e in entries <==> exists j :: 0 <= j < i && Keeps(ts, vs, order[j], e)
      invariant KeptSoFar(ts, vs, order, i, kept) && entries == EntriesFor(ts, vs, kept)
    {
      var id := order[i];
      GroupKeyStored(ts, vs, id);
      var d, f := distances[id].total, fuels[id].total;
      ghost var mine := Matching(ts, VehicleOf, id);
      assert d == Sum(mine, Distance) && f == Sum(mine, Fuel);
      KeptIdsStep(ts, vs, order, i, kept);
      var entries' := entries;
      if f > 0.0 {
        assert EfficiencyEntry(VehicleLabel(vs[id]), vs[id].fuel_type, d / f, d, f) == EntryOf(vs[id], mine);
        entries' := entries + [EfficiencyEntry(VehicleLabel(vs[id]), vs[id].fuel_type, d / f, d, f)];
        kept := kept + [id];
      }
      KeptStep(ts, vs, order, i, entries, entries');
      entries := entries';
    }
    ListedIsRanked(ts, vs, order, entries);
    KeptAllRanked(ts, vs, order, kept);
  }

  /** Once every grouped id is seen, `kept` lists each vehicle with fuel above zero once. */
  lemma KeptAllRanked(ts: seq<Trip>, vs: map<int, Vehicle>, order: seq<int>, kept: seq<int>)
    requires forall k :: k in order <==> Matching(ts, VehicleOf, k) != []
    requires KeptSoFar(ts, vs, order, |order|, kept)
    ensures RankedIds(ts, vs, kept)
  {
    assert order[..|order|] == order;
    forall id | Qualified(ts, vs, id)
      ensures id in kept
    {
      assert Matching(ts, VehicleOf, id) != [];
      var j :| 0 <= j < |order| && order[j] == id;
    }
  }

  /** One more grouped id adds its entry when its fuel is above zero, and nothing otherwise. */
  lemma KeptStep(ts: seq<Trip>, vs: map<int, Vehicle>, order: seq<int>, i: int,
                 entries: seq<EfficiencyEntry>, entries': seq<EfficiencyEntry>)
    requires 0 <= i < |order| && order[i] in vs
    requires forall e :: e in entries <==> exists j :: 0 <= j < i && Keeps(ts, vs, order[j], e)
    requires Sum(Matching(ts, VehicleOf, order[i]), Fuel) > 0.0 ==>
      entries' == entries + [EntryOf(vs[order[i]], Matching(ts, VehicleOf, order[i]))]
    requires Sum(Matching(ts, VehicleOf, order[i]), Fuel) <= 0.0 ==> entries' == entries
    ensures forall e :: e in entries' <==> exists j :: 0 <= j < i + 1 && Keeps(ts, vs, order[j], e)
  {
    forall e
      ensures e in entries' <==> exists j :: 0 <= j < i + 1 && Keeps(ts, vs, order[j], e)
    {
      if e in entries' && e !in entries {
        assert Keeps(ts, vs, order[i], e);
      }
      if exists j :: 0 <= j < i + 1 && Keeps(ts, vs, order[j], e) {
        var j :| 0 <= j < i + 1 && Keeps(ts, vs, order[j], e);
        if j < i {
          assert e in entries;
        }
      }
    }
  }

  /** `ts` are the stored trips with distance and fuel above zero, each once. */
  ghost predicate EfficiencyTrips(ts: seq<Trip>, table: map<int, Trip>)
  {
    |ts| == |Where(table, EfficiencyQualifies)| && forall t :: t in ts <==> Stored(table, t) && EfficiencyQualifies(t)
  }

  /**
   * `get_fuel_efficiency`: over the trips with positive distance and fuel,
   * one entry per vehicle that has any, best efficiency first, each
   * efficiency the vehicle's distance over its fuel.
   */
  method GetFuelEfficiency(db: Db, current: Option<User>) returns (o: Outcome, data: seq<EfficiencyEntry>)
    requires db.Valid()
    ensures RequireToken(current).Reject? ==> o == Unauthorized && data == []
    ensures RequireToken(current).Admit? ==>
      o == Ok &&
      exists ts: seq<Trip> ::
        EfficiencyTrips(ts, db.trips) && Ranked(ts, db.vehicles, data) && OnePerVehicle(ts, db.vehicles, data)
    ensures Descending(data, EfficiencyOf)
    ensures forall e :: e in data ==> e.total_fuel > 0.0 && e.efficiency * e.total_fuel == e.total_distance
  {
    var gate := RequireToken(current);
    if gate.Reject? {
      return gate.outcome, [];
    }
    var ids, ts := Select(db.trips, EfficiencyQualifies);
    SelectedAreAll(db.trips, EfficiencyQualifies, ids, ts);
    assert EfficiencyTrips(ts, db.trips);
    forall i | 0 <= i < |ts|
      ensures ts[i].vehicle_id in db.vehicles
    {
      assert Stored(db.trips, ts[i]);
    }
    var entries := EfficiencyEntries(ts, db.vehicles);
    data := SortDesc(entries, EfficiencyOf);
    SortDescSameElements(entries, EfficiencyOf);
    assert Ranked(ts, db.vehicles, data);
    ghost var ranked :| RankedIds(ts, db.vehicles, ranked) && entries == EntriesFor(ts, db.vehicles, ranked);
    assert OnePerVehicle(ts, db.vehicles, data);
    RankedEntriesSound(ts, db.vehicles, data);
    o := Ok;
  }

  // ----- GET /analytics/dashboard -----

  /** `query.filter_by(status=s).count()` for a table whose rows carry a status. */
  function CountBy<T>(table: map<int, T>, status: T -> string, s: string): (n: nat)
    ensures n <= |table|
  {
    CountAmongAtMost(table, status, {s});
    CountAmong(table, status, {s})
  }

  /** The ids of the rows whose status is one of `ss`. */
  function Among<T>(table: map<int, T>, status: T -> string, ss: set<string>): set<int>
  {
    set id | id in table && status(table[id]) in ss
  }

  /** How many rows have a status among `ss`. */
  function CountAmong<T>(table: map<int, T>, status: T -> string, ss: set<string>): nat
  {
    |Among(table, status, ss)|
  }

  lemma CountAmongAtMost<T>(table: map<int, T>, status: T -> string, ss: set<string>)
    ensures CountAmong(table, status, ss) <= |table|
  {
    var among := Among(table, status, ss);
    DisjointUnionCard(among, table.Keys - among);
    assert among + (table.Keys - among) == table.Keys;
  }

  /** The size of a union of disjoint sets is the sum of their sizes. */
  lemma DisjointUnionCard(a: set<int>, b: set<int>)
    requires a * b == {}
    ensures |a + b| == |a| + |b|
  {
    if a != {} {
      SomeId(a);
      var x :| x in a;
      DisjointUnionCard(a - {x}, b);
      assert (a - {x}) + b == (a + b) - {x};
    }
  }

  /** Adding one more status to count adds that status's rows, and no others. */
  lemma CountAmongAdd<T>(table: map<int, T>, status: T -> string, ss: set<string>, s: string)
    requires s !in ss
    ensures CountAmong(table, status, ss + {s}) == CountAmong(table, status, ss) + CountBy(table, status, s)
  {
    var a, b := Among(table, status, ss), Among(table, status, {s});
    assert Among(table, status, ss + {s}) == a + b;
    DisjointUnionCard(a, b);
  }

  /** When every row's status is one of `ss`, counting those statuses counts every row. */
  lemma CountAmongAll<T>(table: map<int, T>, status: T -> string, ss: set<string>)
    requires forall id :: id in table ==> status(table[id]) in ss
    ensures CountAmong(table, status, ss) == |table|
  {
    var among := Among(table, status, ss);
    forall id | id in table
      ensures id in among
    {
    }
    assert among == table.Keys;
    assert |table.Keys| == |table|;
  }

  function VehicleStatus(v: Vehicle): string
  {
    v.status
  }

  function DriverStatus(d: Driver): string
  {
    d.status
  }

  function TripStatus(t: Trip): string
  {
    t.status
  }

  datatype VehicleCounts = VehicleCounts(total: int, active: int, maintenance: int, inactive: int)
  datatype DriverCounts = DriverCounts(total: int, active: int, inactive: int)
  datatype TripCounts = TripCounts(total: int, completed: int, in_progress: int, planned: int, recent_30_days: int)
  datatype Totals = Totals(distance: real, fuel_used: real, recent_maintenance_cost: real)
  datatype DashboardStats = DashboardStats(vehicles: VehicleCounts, drivers: DriverCounts, trips: TripCounts, totals: Totals)

  /** Every vehicle has exactly one of the three statuses, so the three counts add up to the total. */
  lemma VehicleCountsPartition(vs: map<int, Vehicle>)
    requires forall id :: id in vs ==> vs[id].status in VehicleStatuses
    ensures CountBy(vs, VehicleStatus, "active") + CountBy(vs, VehicleStatus, "maintenance") +
            CountBy(vs, VehicleStatus, "inactive") == |vs|
  {
    CountAmongAdd(vs, VehicleStatus, {}, "active");
    assert {} + {"active"} == {"active"};
    CountAmongAdd(vs, VehicleStatus, {"active"}, "maintenance");
    CountAmongAdd(vs, VehicleStatus, {"active", "maintenance"}, "inactive");
    assert {"active"} + {"maintenance"} == {"active", "maintenance"};
    assert {"active", "maintenance"} + {"inactive"} == VehicleStatuses;
    CountAmongAll(vs, VehicleStatus, VehicleStatuses);
    assert Among(vs, VehicleStatus, {}) == {};
  }

  /** Every driver is active or inactive, so the two counts add up to the total. */
  lemma DriverCountsPartition(ds: map<int, Driver>)
    requires forall id :: id in ds ==> ds[id].status in DriverStatuses
    ensures CountBy(ds, DriverStatus, "active") + CountBy(ds, DriverStatus, "inactive") == |ds|
  {
    CountAmongAdd(ds, DriverStatus, {"active"}, "inactive");
    assert {"active"} + {"inactive"} == DriverStatuses;
    CountAmongAll(ds, DriverStatus, DriverStatuses);
  }

  /**
   * The dashboard lists three of the four trip statuses: with the cancelled
   * trips, which it does not show, they add up to the total.
   */
  lemma TripCountsPartition(ts: map<int, Trip>)
    requires forall id :: id in ts ==> ts[id].status in TripStatuses
    ensures CountBy(ts, TripStatus, "completed") + CountBy(ts, TripStatus, "in_progress") +
            CountBy(ts, TripStatus, "planned") + CountBy(ts, TripStatus, "cancelled") == |ts|
  {
    CountAmongAdd(ts, TripStatus, {"completed"}, "in_progress");
    CountAmongAdd(ts, TripStatus, {"completed", "in_progress"}, "planned");
    CountAmongAdd(ts, TripStatus, {"completed", "in_progress", "planned"}, "cancelled");
    assert {"completed"} + {"in_progress"} == {"completed", "in_progress"};
    assert {"completed", "in_progress"} + {"planned"} == {"completed", "in_progress", "planned"};
    assert {"completed", "in_progress", "planned"} + {"cancelled"} == TripStatuses;
    CountAmongAll(ts, TripStatus, TripStatuses);
  }

  /** A record dated on or after `start` (`Model.date >= thirty_days_ago`). */
  predicate TripSince(t: Trip, start: Date)
  {
    Ord(t.trip_date) >= Ord(start)
  }

  predicate MaintenanceSince(m: Maintenance, start: Date)
  {
    Ord(m.date) >= Ord(start)
  }

  /** `ms` are the maintenance records dated on or after `start`, each once. */
  ghost predicate RecentRecords(ms: seq<Maintenance>, table: map<int, Maintenance>, start: Date)
  {
    |ms| == |Where(table, (m: Maintenance) => MaintenanceSince(m, start))| &&
    forall m :: m in ms <==> Stored(table, m) && MaintenanceSince(m, start)
  }

  /** The sums of the dashboard: every trip's distance and fuel, and the maintenance cost since `start`. */
  ghost predicate DashboardTotals(totals: Totals, db: Tables, start: Date)
  {
    exists ts: seq<Trip>, ms: seq<Maintenance> ::
      AllTrips(ts, db.trips) && RecentRecords(ms, db.maintenance, start) &&
      totals == Totals(NonNullSum(Distances(ts)), NonNullSum(FuelValues(ts)), TotalCost(ms))
  }

  /** A filter keeps at most the rows it is given. */
  lemma WhereAtMost<T>(table: map<int, T>, keep: T -> bool)
    ensures |Where(table, keep)| <= |table|
  {
    var kept := Where(table, keep).Keys;
    DisjointUnionCard(kept, table.Keys - kept);
    assert kept + (table.Keys - kept) == table.Keys;
    assert |kept| == |Where(table, keep)| && |table.Keys| == |table|;
  }

  /** The vehicle counts: the table's size and its rows by status, which partition it. */
  function VehicleCountsOf(vs: map<int, Vehicle>): (c: VehicleCounts)
    requires forall id :: id in vs ==> vs[id].status in VehicleStatuses
    ensures c.total == |vs| && c.active == CountBy(vs, VehicleStatus, "active")
    ensures c.maintenance == CountBy(vs, VehicleStatus, "maintenance") && c.inactive == CountBy(vs, VehicleStatus, "inactive")
    ensures c.active + c.maintenance + c.inactive == c.total
  {
    VehicleCountsPartition(vs);
    VehicleCounts(|vs|, CountBy(vs, VehicleStatus, "active"),
      CountBy(vs, VehicleStatus, "maintenance"), CountBy(vs, VehicleStatus, "inactive"))
  }

  /** The driver counts: the table's size, its active and its inactive drivers, which partition it. */
  function DriverCountsOf(ds: map<int, Driver>): (c: DriverCounts)
    requires forall id :: id in ds ==> ds[id].status in DriverStatuses
    ensures c.total == |ds| && c.active == CountBy(ds, DriverStatus, "active") && c.inactive == CountBy(ds, DriverStatus, "inactive")
    ensures c.active + c.inactive == c.total
  {
    DriverCountsPartition(ds);
    DriverCounts(|ds|, CountBy(ds, DriverStatus, "active"), CountBy(ds, DriverStatus, "inactive"))
  }

  /**
   * The trip counts: the table's size, three of its statuses (which leave out
   * only the cancelled trips) and the trips dated on or after `start`.
   */
  function TripCountsOf(ts: map<int, Trip>, start: Date): (c: TripCounts)
    requires forall id :: id in ts ==> ts[id].status in TripStatuses
    ensures c.total == |ts| && c.completed == CountBy(ts, TripStatus, "completed")
    ensures c.in_progress == CountBy(ts, TripStatus, "in_progress") && c.planned == CountBy(ts, TripStatus, "planned")
    ensures c.completed + c.in_progress + c.planned == c.total - CountBy(ts, TripStatus, "cancelled")
    ensures c.recent_30_days == |Where(ts, (t: Trip) => TripSince(t, start))| <= c.total
  {
    TripCountsPartition(ts);
    var recent := Where(ts, (t: Trip) => TripSince(t, start));
    WhereAtMost(ts, (t: Trip) => TripSince(t, start));
    TripCounts(|ts|, CountBy(ts, TripStatus, "completed"), CountBy(ts, TripStatus, "in_progress"),
      CountBy(ts, TripStatus, "planned"), |recent|)
  }

  /**
   * `get_dashboard_stats`: the table counts by status, the trips of the last
   * 30 days, and the distance, fuel and recent maintenance totals. The
   * status counts partition the tables they count.
   */
  method GetDashboardStats(db: Db, current: Option<User>, today: Date) returns (o: Outcome, stats: Option<DashboardStats>)
    requires db.Valid() && Valid(today)
    ensures RequireToken(current).Reject? ==> o == Unauthorized && stats == None
    ensures RequireToken(current).Admit? ==>
      o == Ok && stats.Some? &&
      stats.value.vehicles == VehicleCountsOf(db.vehicles) &&
      stats.value.drivers == DriverCountsOf(db.drivers) &&
      stats.value.trips == TripCountsOf(db.trips, SubDays(today, 30)) &&
      DashboardTotals(stats.value.totals, db.Snapshot(), SubDays(today, 30))
  {
    var gate := RequireToken(current);
    if gate.Reject? {
      return gate.outcome, None;
    }
    var start := SubDays(today, 30);
    var totals := DashboardSums(db, start);
    stats := Some(DashboardStats(VehicleCountsOf(db.vehicles), DriverCountsOf(db.drivers), TripCountsOf(db.trips, start), totals));
    o := Ok;
  }

  /** The three `func.sum` queries, with `or 0` for an empty table. */
  method DashboardSums(db: Db, start: Date) returns (totals: Totals)
    requires db.Valid()
    ensures DashboardTotals(totals, db.Snapshot(), start)
  {
    var ts := ReadAllTrips(db);
    var ids, ms := Select(db.maintenance, (m: Maintenance) => MaintenanceSince(m, start));
    SelectedAreAll(db.maintenance, (m: Maintenance) => MaintenanceSince(m, start), ids, ms);
    totals := Totals(NonNullSum(Distances(ts)), NonNullSum(FuelValues(ts)), TotalCost(ms));
    assert RecentRecords(ms, db.maintenance, start);
  }
}
