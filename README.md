# Fleet management backend — a verified model

This project models the domain core of a small fleet-management web
application: a Flask/SQLAlchemy API over five tables (vehicles, drivers,
trips, maintenance records, user accounts), its JWT access control, the
analytics endpoints behind the dashboard, and three helpers of the browser
client (the sign-in state, the page links of a paginated list, and the CSV
export).

- **Store.** The database is `Store.Db`, a class whose fields are one map per table (id to record) and one id counter per table. Its `Valid()` invariant holds what the schema and the handlers keep true:
  - each enum column holds one of its values;
  - registration numbers, licence numbers, usernames and e-mail addresses are unique;
  - trips reference a stored vehicle and driver, and maintenance records a stored vehicle;
  - every record is stored under its own id.
- **Routes.** Each route handler is a method that takes the decoded request and the current user (or `None`), changes the store through `modifies db`, and returns an `Outcome`, whose status code is fixed by `Common.StatusCode`. A handler that fails leaves `db.Snapshot()` as it was, which is how the model shows a request that never reaches `commit`. A read-only handler is a function, or a method that changes nothing.
- **Request bodies.** A body is a datatype of `Field<T>` values: a key is `Absent` or `Given(v)`. `Common.Supplied` is Python's truthiness test on a string (`not data[field]`).
- **Clock, parsing and hashing.** Clock readings (`date.today()`, `datetime.utcnow()`) are parameters. `fromisoformat` is the parameter `parse`. Password hashing and checking are the parameters `hasher` and `check`, and JWT decoding is `decode`.
- **Dates.** Dates are civil dates (`Calendar.Date`), and `strptime(s, '%Y-%m-%d')` is modelled by `Calendar.StrptimeDate` with CPython's lenient digit rules.
- **Analytics.** The analytics work on the tables' records in the order the store yields them. Quantities are exact `real`s.
- **Browser client.** `ClientAuth.AuthManager` is a class with the in-memory and local-storage copies of the token and the user. The page links and the CSV export are pure functions over their inputs, with `Pagination.RenderPagination` a loop that builds the list.

Modules: `Common` (outcomes, request fields, the exception handler), `Calendar`, `Models` (records and the model helpers), `Store`, `Grouping`, `Sorting`, `Auth`, `VehicleRoutes`, `DriverRoutes`, `TripRoutes`, `MaintenanceRoutes`, `UserRoutes`, `Analytics`, `ClientAuth`, `Pagination`, `Csv`.

The routes of `src/routes/driver.py`, `trip.py` and `maintenance.py` carry no authentication decorator in the source, and their models take no current user.

## Model

| member | source | states |
|---|---|---|
| Common.StatusCode | src/routes/vehicle.py:64-67 | 400, 401, 403 and 404 are exactly the bad-request, unauthorized, forbidden and not-found outcomes; exactly Ok and Created are 2xx |
| Common.GetOr404 | src/routes/vehicle.py:41 | the lookup finds exactly the stored ids, returning their record, and raises NotFound for any other id |
| Common.HandlerExceptionAsWritten | src/routes/vehicle.py:47-51 | the `except Exception` clause answers 500 whatever was raised, NotFound included |
| Common.HandlerException | src/routes/vehicle.py:47-51 | corrected clause: NotFound is answered 404 and every other exception 500 |
| Common.MissingIdAnswered500 | src/routes/vehicle.py:40-51 | as written, a request for an id that is not stored is answered 500 |
| Common.MissingIdAnswered404 | src/routes/vehicle.py:40-51 | with the corrected clause, a missing id, and only a missing id, is answered 404 |
| Calendar.DaysInMonth | src/routes/trip.py:116 | every month has 28 to 31 days, and 29 exactly for February of a leap year |
| Calendar.OrdInjective | src/routes/trip.py:28 | two valid dates with the same order key are the same date, so comparing keys compares dates |
| Calendar.NextDay | src/routes/analytics.py:101 | `d + timedelta(days=1)` is a valid date after `d` |
| Calendar.PrevDay | src/routes/analytics.py:23 | one day back is a valid date before `d` |
| Calendar.NextDayIsSuccessor | src/routes/analytics.py:96-101 | no valid date lies strictly between a date and the next day, so the fill loop skips none |
| Calendar.PrevNextInverse | src/routes/analytics.py:101 | stepping forward then back, or back then forward, returns the same date |
| Calendar.SubDays | src/routes/analytics.py:23 | `today - timedelta(days=n)` is valid; it is not later than today for n ≥ 0, and not earlier for n ≤ 0 |
| Calendar.AddDays | src/routes/analytics.py:96-101 | stepping forward n days gives a valid date not before the start |
| Calendar.DaysAfter | src/routes/analytics.py:246-249 | the n days after a date are at most n valid dates, all inside the window |
| Calendar.DaysAfterComplete | src/routes/analytics.py:246-249 | every valid date in that window is one of those n days |
| Calendar.SubThenAdd | src/routes/analytics.py:239 | going back n days and forward n days again gives today back |
| Calendar.AddDaysStep | src/routes/analytics.py:96-101 | adding a day at the front equals adding it at the back |
| Calendar.WindowSize | src/routes/analytics.py:246-251 | at most n valid dates lie after `today - n days` and up to today |
| Calendar.NextMonth | src/routes/analytics.py:211-214 | the month step gives a valid month one later in order; December goes to January of the next year |
| Calendar.MonthOrdInjective | src/routes/analytics.py:199 | two valid months with the same order key are the same `YYYY-MM` key |
| Calendar.MonthOfMonotone | src/routes/analytics.py:205-206 | an earlier date never falls in a later month |
| Calendar.Pad2 | src/routes/analytics.py:90 | two digits whose value is the number |
| Calendar.Pad4 | src/routes/analytics.py:90 | four digits whose value is the number |
| Calendar.IsoFormat | src/routes/analytics.py:90 | `isoformat()` is ten characters with dashes at positions 4 and 7 |
| Calendar.StrptimeDate | src/routes/trip.py:27 | a string that parses gives a valid date in Python's year range |
| Calendar.ParseFormatRoundTrip | src/routes/trip.py:27 | every valid date, formatted by `isoformat()`, parses back to itself |
| Calendar.FormatParseRoundTrip | src/routes/trip.py:27 | a zero-padded `YYYY-MM-DD` string that parses is exactly the `isoformat()` of its date |
| Calendar.StrptimeLenient | src/routes/trip.py:27 | unpadded months and days and a space before a one-digit day parse; 29 February of a common year and year 0 do not |
| Calendar.RangeCheck | src/routes/trip.py:25-42 | passes exactly when every sent, non-empty bound parses; a bad start is reported before a bad end |
| Calendar.RequestedDate | src/routes/trip.py:113-121 | today unless a non-empty string is sent, else the parse of that string (`None` when it fails) |
| Models.DurationHours | src/models/trip.py:43-47 | defined exactly when both times are set, and then it times 3600 is end minus start in seconds |
| Models.FuelEfficiency | src/models/trip.py:49-52 | defined exactly when distance is truthy and fuel is positive; then it times the fuel is the distance, and positive for a positive distance |
| Models.TruthySumIsNonNullSum | src/models/vehicle.py:34-35 | summing only truthy values equals SQL's sum of non-null values |
| Models.NonNullSumAppend | src/routes/analytics.py:27-28 | the sum over two lists is the sum of their sums |
| Models.NonNullSumNonNegative | src/routes/analytics.py:27-28 | a sum of non-negative values is non-negative |
| Models.Distances | src/models/vehicle.py:35 | the distance column of a trip list, position by position |
| Models.FuelValues | src/models/vehicle.py:38 | the fuel column of a trip list, position by position |
| Models.VehicleTrips | src/models/vehicle.py:14 | `vehicle.trips` holds exactly the trips with that vehicle id, and no more than the table has |
| Models.DriverTrips | src/models/driver.py:18 | `driver.trips` holds exactly the trips with that driver id |
| Models.OtherVehicleTrips | src/models/vehicle.py:14 | exactly the trips of every other vehicle |
| Models.VehicleDistanceShare | src/models/vehicle.py:34-35 | the fleet's distance total splits into one vehicle's total plus the others' |
| Models.TotalDistanceSnoc | src/models/vehicle.py:34-35 | one more trip adds its distance when truthy and nothing otherwise |
| Models.VehicleDistanceBounded | src/models/vehicle.py:34-35 | with non-negative distances, a vehicle's total lies between 0 and the fleet's total |
| Models.SubsetDistanceNonNegative | src/models/vehicle.py:34-35 | trips drawn from a table without negative distances add up to a non-negative total |
| Models.TotalCostAppend | src/routes/maintenance.py:281 | the cost total of two lists is the sum of their totals |
| Store.AllIds | src/routes/vehicle.py:23 | `query.all()` lists every id of the table exactly once |
| Store.Rows | src/routes/vehicle.py:26 | the records under the listed ids, in order |
| Store.Where | src/routes/vehicle.py:16-21 | a filtered query keeps exactly the rows passing the filter, under their own ids |
| Store.Select | src/routes/vehicle.py:16-23 | the result lists each kept row once, as many as the filter keeps |
| Store.EnumeratesSize | src/routes/vehicle.py:27 | a list naming every id once is as long as the table (`len(query.all())`) |
| Store.SelectedAreAll | src/routes/vehicle.py:16-23 | a row is in the result if and only if it is stored and passes the filter |
| Grouping.GroupBy | src/routes/maintenance.py:285-290 | the dict loop builds a bucket for exactly the keys that occur, each with its records' count and value total; the key list names each bucket once |
| Grouping.AddRecord | src/routes/maintenance.py:287-290 | one pass of the dict loop: the record's bucket, created empty if new, counts it once more and adds its value; a new key joins the key list |
| Grouping.GroupingStep | src/routes/maintenance.py:286-290 | counting one more record keeps the dict a grouping of the records seen so far |
| Grouping.DistinctOnce | src/routes/maintenance.py:287 | a key listed once each occurs at most once |
| Grouping.ReorderedDistinct | src/routes/analytics.py:104 | sorting distinct keys keeps them distinct |
| Grouping.MatchingSnoc | src/routes/maintenance.py:286-290 | one more record extends its own key's bucket by one and its value, and no other bucket |
| Grouping.MatchingOwnKey | src/routes/maintenance.py:287-288 | a record's own key has a non-empty bucket |
| Grouping.MatchingSound | src/routes/maintenance.py:286-290 | a bucket holds only records of the list with that key |
| Grouping.SumPositive | src/routes/analytics.py:295 | a non-empty list of positive values has a positive sum |
| Grouping.SumsSnoc | src/routes/maintenance.py:289-290 | one more record adds one to the counts and its value to the totals when its key is listed |
| Grouping.Partition | src/routes/maintenance.py:285-290 | when every record's key is listed, the counts add up to the number of records and the totals to the overall sum |
| Grouping.EmptySums | src/routes/maintenance.py:285 | no records give zero counts and totals |
| Grouping.GroupedPartition | src/routes/maintenance.py:285-299 | the buckets of a grouped dict add up to the record count and the cost total |
| Sorting.Insert | src/routes/analytics.py:261 | inserting into a descending list keeps it descending, with one more copy of the element |
| Sorting.SortDesc | src/routes/analytics.py:261 | `sort(key, reverse=True)`: the same elements (a permutation), keys non-increasing |
| Sorting.SortDescSameElements | src/routes/analytics.py:306 | sorting neither adds nor drops an element |
| Sorting.SortAsc | src/routes/analytics.py:104 | `sorted(...)`: the same elements, keys non-decreasing |
| Auth.GenerateClaims | src/auth.py:9-20 | the claims carry the user's id, username and role; `exp` is the first clock read plus 24 hours and `iat` the second read, for any two reads; so `exp` is at most 24 hours after `iat` when the clock does not step back between the reads, and exactly 24 hours when both reads agree |
| Auth.VerifyToken | src/auth.py:23-31 | a payload is returned exactly when the token decodes and has not expired; an invalid or expired token both give `None` |
| Auth.IssuedTokenLifetime | src/auth.py:9-31 | a freshly issued token verifies, with the user's id and role, exactly until 24 hours after its `exp` clock read, whatever the second read was |
| Auth.Split | src/auth.py:42 | `split(" ")` gives at least one part and no part holds the separator |
| Auth.JoinSplit | src/auth.py:42 | joining the parts rebuilds the header |
| Auth.SplitJoin | src/auth.py:42 | splitting a join of separator-free parts gives the parts back |
| Auth.SplitNoSep | src/auth.py:42 | a header without a space splits into itself alone |
| Auth.SplitSingleIffNoSep | src/auth.py:42-44 | there is exactly one part if and only if the header has no space |
| Auth.HeaderToken | src/auth.py:40-44 | the token is missing (`IndexError`) exactly when the header has no space |
| Auth.SchemeNotChecked | src/auth.py:42 | any first word is accepted as the scheme: `scheme + " " + token` yields the token |
| Auth.CurrentUser | src/auth.py:34-54 | a user is found exactly when a header is sent, holds a non-empty second word, the token verifies and its `user_id` is stored; the user is that stored record |
| Auth.RequireToken | src/auth.py:56-70 | rejects with 401 exactly when no user resolves; otherwise admits exactly that user |
| Auth.RequireRole | src/auth.py:72-94 | 401 without a user, decided before the role; admits exactly a user whose role is allowed; 403 for any other role |
| Auth.AdminRequiredAdmitsOnlyAdmin | src/auth.py:96-98 | `admin_required` runs the handler with the admin and nobody else; a manager gets 403 |
| Auth.AdminOrManagerAdmits | src/auth.py:100-102 | `admin_or_manager_required` admits exactly the admin and manager roles |
| VehicleRoutes.GetVehicles | src/routes/vehicle.py:8-34 | 401 without a user; otherwise exactly the vehicles passing the status and fuel type filters (an empty filter filters nothing), each once |
| VehicleRoutes.GetVehicle | src/routes/vehicle.py:36-51 | 401 without a user, 404 for a missing id, else the stored vehicle |
| VehicleRoutes.CreateCheck | src/routes/vehicle.py:61-91 | passes if and only if reg_no, model and fuel_type are non-empty, the fuel type and any sent status are valid and the registration number is not taken; the required fields are checked in order |
| VehicleRoutes.CreateVehicle | src/routes/vehicle.py:53-115 | the role guard and the checks run before any change; a failure leaves the store unchanged; success adds one vehicle under a fresh id with the sent fields and status `active` by default |
| VehicleRoutes.RegNoTakenAfterCreate | src/routes/vehicle.py:86-91 | once a vehicle is stored, creating another with its registration number is refused |
| VehicleRoutes.UpdateCheck | src/routes/vehicle.py:125-150 | passes if and only if a sent fuel type and status are valid and a changed registration number is free; resubmitting the current one is never a clash |
| VehicleRoutes.UpdatedChangesOnlySupplied | src/routes/vehicle.py:152-162 | only the sent columns change, id and creation time never do, and applying the same update twice changes nothing more |
| VehicleRoutes.UpdateVehicle | src/routes/vehicle.py:117-176 | guard, 404 and failed checks leave the store unchanged; success replaces only that vehicle by its updated record |
| VehicleRoutes.ApplyUpdate | src/routes/vehicle.py:152-162 | the field-by-field assignments produce exactly the updated vehicle, with the update stamp |
| VehicleRoutes.DeleteVehicle | src/routes/vehicle.py:178-205 | 400 while trips reference the vehicle; 500 when maintenance records still reference it; otherwise it is removed; only success changes the store |
| VehicleRoutes.GetVehicleStats | src/routes/vehicle.py:207-231 | the vehicle's trip count, distance and fuel totals (truthy values only), and its maintenance count and cost total |
| DriverRoutes.GetDrivers | src/routes/driver.py:8-30 | exactly the drivers with the requested status (all without one), each once |
| DriverRoutes.GetDriver | src/routes/driver.py:32-46 | 404 for a missing id, else the stored driver |
| DriverRoutes.CreateCheck | src/routes/driver.py:55-77 | passes if and only if name and licence number are non-empty, any sent status is valid and the licence number is not taken |
| DriverRoutes.CreateDriver | src/routes/driver.py:48-103 | a failed check leaves the store unchanged; success adds one driver under a fresh id |
| DriverRoutes.NewDriverDefaults | src/routes/driver.py:80-87 | a driver created from the required fields alone is active with no phone, e-mail or user account |
| DriverRoutes.UpdateCheck | src/routes/driver.py:113-128 | passes if and only if a sent status is valid and a changed licence number is free |
| DriverRoutes.UpdatedChangesOnlySupplied | src/routes/driver.py:131-144 | only the sent columns change, id and creation time never do; a sent null clears the phone; repeating the update changes nothing more |
| DriverRoutes.UpdateDriver | src/routes/driver.py:105-158 | 404 and failed checks leave the store unchanged; success replaces only that driver by its updated record |
| DriverRoutes.ApplyUpdate | src/routes/driver.py:130-144 | the field-by-field assignments produce exactly the updated driver, with the update stamp |
| DriverRoutes.DeleteDriver | src/routes/driver.py:160-186 | 400 while trips reference the driver; otherwise it is removed; only success changes the store |
| DriverRoutes.GetDriverStats | src/routes/driver.py:188-209 | the driver's trip count and truthy distance and fuel totals; 404 for a missing id |
| TripRoutes.GetTrips | src/routes/trip.py:7-55 | 400 for a date bound that does not parse; otherwise exactly the trips passing every sent filter, bounds inclusive, each once, latest trip date first |
| TripRoutes.GetTrip | src/routes/trip.py:57-71 | 404 for a missing id, else the stored trip |
| TripRoutes.RequestedTime | src/routes/trip.py:124-142 | no time unless a non-empty string is sent, else its parse; a failed parse is reported |
| TripRoutes.CreateCheck | src/routes/trip.py:80-142 | passes if and only if the four required fields are truthy, the vehicle and driver exist, any status is valid and the date and times parse; a missing vehicle or driver is exactly the 404 case |
| TripRoutes.NewTripDefaults | src/routes/trip.py:113-156 | a trip created from the required fields alone is planned, dated today, with no distance, fuel, times or notes |
| TripRoutes.CreateTrip | src/routes/trip.py:73-173 | a failed check leaves the store unchanged; success adds one trip under a fresh id |
| TripRoutes.UpdateCheck | src/routes/trip.py:183-249 | passes if and only if a sent vehicle and driver exist, a sent status is valid and sent dates and times parse; a null trip date is the 500 case |
| TripRoutes.Changes | src/routes/trip.py:222-251 | a sent date becomes its parse; an empty or null start or end time clears it, a non-empty one becomes its parse |
| TripRoutes.UpdatedChangesOnlySupplied | src/routes/trip.py:210-257 | each of the eleven assignable columns takes its sent value when sent and keeps its own otherwise; id and creation time never change, the update stamp is the clock reading, and repeating the update changes nothing more |
| TripRoutes.UpdateTrip | src/routes/trip.py:175-271 | 404 and failed checks leave the store unchanged; success replaces only that trip by its updated record |
| TripRoutes.ApplyUpdate | src/routes/trip.py:210-257 | the field-by-field assignments produce exactly the updated record |
| TripRoutes.AssignRoute | src/routes/trip.py:210-221 | vehicle, driver, endpoints, distance and fuel take their sent values and keep the rest |
| TripRoutes.AssignSchedule | src/routes/trip.py:222-255 | date, times, status and notes take their sent values and keep the rest |
| TripRoutes.DeleteTrip | src/routes/trip.py:273-292 | any stored trip is removed; a missing id changes nothing |
| TripRoutes.Lifecycle | src/routes/trip.py:294-348 | a started trip can be completed but not restarted; a completed trip can be neither; a cancelled trip can be neither; start then complete has the duration between the two stamps |
| TripRoutes.StartTrip | src/routes/trip.py:294-323 | succeeds exactly on a planned trip, setting `in_progress` and the start time; anything else leaves the store unchanged |
| TripRoutes.CompleteTrip | src/routes/trip.py:325-363 | succeeds exactly on a planned or running trip, setting `completed` and the end time and replacing distance, fuel and notes only when sent; anything else leaves the store unchanged |
| TripRoutes.ApplyCompletion | src/routes/trip.py:338-348 | the completion assignments produce exactly the completed trip: status, end time and stamp, then each sent key |
| MaintenanceRoutes.GetMaintenanceRecords | src/routes/maintenance.py:7-55 | 400 for a bad date bound; otherwise exactly the records passing every sent filter, each once, latest date first |
| MaintenanceRoutes.GetMaintenanceRecord | src/routes/maintenance.py:57-71 | 404 for a missing id, else the stored record |
| MaintenanceRoutes.RequestedNextService | src/routes/maintenance.py:124-132 | no date unless a non-empty string is sent, else its parse; a failed parse is reported |
| MaintenanceRoutes.CreateCheck | src/routes/maintenance.py:80-132 | passes if and only if the required fields are truthy, the vehicle exists, type and any status are valid and the dates parse; a missing vehicle is exactly the 404 case |
| MaintenanceRoutes.NewRecordDefaults | src/routes/maintenance.py:113-144 | a record created from the required fields alone is dated today, costs 0.0 and is `completed` |
| MaintenanceRoutes.CreateMaintenanceRecord | src/routes/maintenance.py:73-161 | a failed check leaves the store unchanged; success adds one record under a fresh id |
| MaintenanceRoutes.UpdateCheck | src/routes/maintenance.py:171-226 | passes if and only if a sent vehicle exists, type and status are valid and sent dates parse; a null date is the 500 case |
| MaintenanceRoutes.Changes | src/routes/maintenance.py:200-228 | a sent date becomes its parse; an empty or null next service date clears it |
| MaintenanceRoutes.UpdatedChangesOnlySupplied | src/routes/maintenance.py:198-232 | each of the nine assignable columns takes its sent value when sent and keeps its own otherwise; id and creation time never change, the update stamp is the clock reading, and repeating the update changes nothing more |
| MaintenanceRoutes.UpdateMaintenanceRecord | src/routes/maintenance.py:163-246 | 404 and failed checks leave the store unchanged; success replaces only that record by its updated record |
| MaintenanceRoutes.ApplyUpdate | src/routes/maintenance.py:198-232 | the field-by-field assignments produce exactly the updated record |
| MaintenanceRoutes.AssignService | src/routes/maintenance.py:198-213 | vehicle, date, cost, description and type take their sent values and keep the rest |
| MaintenanceRoutes.AssignOutcome | src/routes/maintenance.py:214-230 | provider, mileage, next service date and status take their sent values and keep the rest |
| MaintenanceRoutes.DeleteMaintenanceRecord | src/routes/maintenance.py:248-267 | any stored record is removed; a missing id changes nothing |
| MaintenanceRoutes.TotalCostIsSum | src/routes/maintenance.py:281-290 | the cost total and the grouping loops sum the same costs |
| MaintenanceRoutes.Average | src/routes/maintenance.py:301-304 | the average times the count is the total; 0 with no records |
| MaintenanceRoutes.GetMaintenanceStats | src/routes/maintenance.py:269-318 | the selected records, each once: their count, cost total, average, and per type and per month a bucket of count and cost |
| MaintenanceRoutes.StatsPartition | src/routes/maintenance.py:285-299 | the per-type and the per-month buckets each add up to the record count and the cost total |
| UserRoutes.RegisterCheck | src/routes/user.py:15-44 | passes if and only if username, e-mail and password are non-empty, the role (default `driver`) is valid and username and e-mail are free; the checks run in that order |
| UserRoutes.NewUser | src/routes/user.py:47-56 | the stored account has the sent names, the hash of the password, role `driver` by default, and is active |
| UserRoutes.Register | src/routes/user.py:8-74 | a failed check adds no account and issues no token; success stores the account under a fresh id and issues its claims, for any two clock reads |
| UserRoutes.FindByUsername | src/routes/user.py:90 | finds an account exactly when the username is taken, and it is the stored account with that name |
| UserRoutes.Authenticate | src/routes/user.py:83-102 | 400 without username or password; otherwise admits exactly a stored, active account whose password checks, and answers 401 for everything else |
| UserRoutes.Login | src/routes/user.py:76-120 | success answers with the admitted account and fresh claims, for any two clock reads; a rejection issues nothing |
| UserRoutes.RegisterThenLogin | src/routes/user.py:8-105 | an account just registered logs in with its own username and password |
| UserRoutes.Me | src/routes/user.py:122-129 | 401 without a user, else that user |
| UserRoutes.PasswordCheck | src/routes/user.py:138-148 | passes exactly when both passwords are sent and the current one checks; a wrong current password is exactly the wrong-password case |
| UserRoutes.ChangePassword | src/routes/user.py:131-163 | a failed check leaves the store unchanged; success replaces only the caller's password hash |
| UserRoutes.ChangedPasswordLogsIn | src/routes/user.py:131-163 | after a password change the new password logs in |
| UserRoutes.GetUsers | src/routes/user.py:165-181 | admin only; every account once, with their number |
| UserRoutes.GetUser | src/routes/user.py:183-198 | admin only; 404 for a missing id, else the account |
| UserRoutes.UpdateCheck | src/routes/user.py:208-233 | passes if and only if a sent role is valid and a changed username or e-mail is free; resubmitting the current one is never a clash |
| UserRoutes.UpdatedChangesOnlySupplied | src/routes/user.py:236-243 | only username, e-mail, role and active flag change, when sent; id and password hash never do |
| UserRoutes.UpdateUser | src/routes/user.py:200-258 | admin only; 404 and failed checks leave the store unchanged; success replaces only that account |
| UserRoutes.ApplyUpdate | src/routes/user.py:235-243 | the field-by-field assignments produce exactly the updated account |
| UserRoutes.DeleteUser | src/routes/user.py:260-287 | admin only; 404 for a missing id, 400 for the caller's own account, else the account is removed |
| Analytics.FillDays | src/routes/analytics.py:95-101 | every date from the start through today gets a key, zero when it had none; existing sums are kept and keys are listed once |
| Analytics.SortedDates | src/routes/analytics.py:104 | the sorted labels are the dict's keys, strictly increasing |
| Analytics.MatchedDateValid | src/routes/analytics.py:90 | a date some trip falls on is valid |
| Analytics.DailyFuel | src/routes/analytics.py:87-110 | labels strictly increasing and aligned with values; each label's value is its qualifying fuel sum |
| Analytics.GetFuelConsumptionTrends | src/routes/analytics.py:72-118 | 401 without a user; otherwise the trend over exactly the trips on or after the start with fuel above zero, each summed once, every date from the start through today present, labels sorted and unique |
| Analytics.FirstOfNotAfter | src/routes/analytics.py:205-206 | the loop test on the first of a month compares months |
| Analytics.FillMonths | src/routes/analytics.py:204-214 | every month from the start month through the current month gets a key, zero when it had none |
| Analytics.SortedMonths | src/routes/analytics.py:217 | the sorted labels are the dict's keys, strictly increasing |
| Analytics.MonthlyCost | src/routes/analytics.py:196-223 | labels strictly increasing and aligned with values; each month's value is its records' cost sum |
| Analytics.GetMaintenanceCostTrends | src/routes/analytics.py:185-231 | 401 without a user; otherwise the trend over exactly the records on or after `today - months×30 days`, each summed once, every month through the current one present |
| Analytics.Tally | src/routes/analytics.py:126-137 | one count per listed id, the number of trips under it (0 for none) |
| Analytics.ReadAllTrips | src/routes/analytics.py:130 | every stored trip once, each referencing a stored vehicle and driver |
| Analytics.GetTripsPerVehicle | src/routes/analytics.py:120-151 | every vehicle once, labelled `reg_no (model)`, with its trip count; the counts add up to the number of trips |
| Analytics.GetTripsPerDriver | src/routes/analytics.py:153-183 | every driver once, labelled by name, with its trip count; the counts add up to the number of trips |
| Analytics.UtilizationAsWrittenExceeds100 | src/routes/analytics.py:246-251 | as written, a one-day window with trips yesterday and today gives 200% |
| Analytics.UtilizationAtMost100 | src/routes/analytics.py:246-251 | counting the window's own dates, days used never exceed the days and the rate stays within 0–100 |
| Analytics.UtilizationOf | src/routes/analytics.py:246-258 | a vehicle's entry, with the corrected count (see Findings): its label, its distinct trip dates after today−days and up to today, a rate within 0–100 |
| Analytics.UtilizationEntries | src/routes/analytics.py:244-258 | one entry per listed vehicle, in order |
| Analytics.GetVehicleUtilization | src/routes/analytics.py:233-272 | with the corrected count (see Findings): one entry for each vehicle and no other, rates non-increasing and within 0–100 |
| Analytics.EntryOf | src/routes/analytics.py:294-303 | the entry's totals are its trips' sums and efficiency times fuel is distance |
| Analytics.FuelCheckNeverFilters | src/routes/analytics.py:295 | a vehicle has qualifying trips exactly when its fuel total is positive, so `total_fuel > 0` drops nobody |
| Analytics.GroupKeyStored | src/routes/analytics.py:286 | a vehicle id grouping some trip is a stored vehicle (the inner join) |
| Analytics.ListedIsRanked | src/routes/analytics.py:291-303 | the entries kept for the grouped ids are exactly the ranked ones |
| Analytics.RankedEntriesSound | src/routes/analytics.py:295-296 | every ranked entry has positive fuel and efficiency times fuel equal to distance |
| Analytics.EfficiencyEntries | src/routes/analytics.py:280-303 | one entry for each vehicle with qualifying trips and no other, in the grouped order: the result is the entries of a list of those vehicles in which each appears once |
| Analytics.OnePerVehicleLength | src/routes/analytics.py:280-291 | a result with one row per grouped vehicle is exactly as long as the number of vehicles with fuel above zero |
| Analytics.ExtraRowBreaksOnePerVehicle | src/routes/analytics.py:280-291 | a ranking that lists some row a second time is not one row per vehicle |
| Analytics.GetFuelEfficiency | src/routes/analytics.py:274-317 | 401 without a user; otherwise one entry for each vehicle with trips having distance and fuel above zero, each such trip summed once and each vehicle listed once (as a multiset, the entries of a duplicate-free list of those vehicles), non-increasing in efficiency |
| Analytics.CountBy | src/routes/analytics.py:16 | a status count is at most the table's size |
| Analytics.CountAmongAdd | src/routes/analytics.py:37-52 | counting one more status adds exactly that status's rows |
| Analytics.CountAmongAll | src/routes/analytics.py:37-52 | when every status is counted, every row is |
| Analytics.VehicleCountsPartition | src/routes/analytics.py:36-41 | active, maintenance and inactive vehicles add up to the total |
| Analytics.DriverCountsPartition | src/routes/analytics.py:42-46 | active and inactive drivers add up to the total |
| Analytics.TripCountsPartition | src/routes/analytics.py:47-53 | completed, running, planned and cancelled trips add up to the total |
| Analytics.WhereAtMost | src/routes/analytics.py:24 | a filtered count is at most the table's size |
| Analytics.VehicleCountsOf | src/routes/analytics.py:15-16 | the vehicle counts by status, which partition the total |
| Analytics.DriverCountsOf | src/routes/analytics.py:17-18 | the driver counts by status, which partition the total |
| Analytics.TripCountsOf | src/routes/analytics.py:19-24 | the trip counts by status and the trips of the last 30 days, at most the total |
| Analytics.GetDashboardStats | src/routes/analytics.py:9-70 | 401 without a user; otherwise the three count blocks and the sums, all from a window starting 30 days back |
| Analytics.DashboardSums | src/routes/analytics.py:27-33 | the sums of all non-null distances and fuel values, and of the costs of the records since the start, 0 when empty |
| ClientAuth.AuthManager.constructor | src/static/js/auth.js:3-6 | the token and user are read back from local storage, so memory and storage agree |
| ClientAuth.AuthManager.Login | src/static/js/auth.js:8-35 | success stores exactly the returned token and user in memory and local storage; a refusal or network error changes nothing and reports the message |
| ClientAuth.AuthManager.Logout | src/static/js/auth.js:37-45 | token and user are cleared in both places; no longer authenticated and every role test is false |
| ClientAuth.AuthManager.CheckTokenValidity | src/static/js/auth.js:90-115 | false at once and no change without a token; true exactly when the server confirms, replacing the user; otherwise logs out |
| ClientAuth.AuthManager.RoleTests | src/static/js/auth.js:59-81 | `canManage` is admin or manager, the three role tests exclude each other, and all are false with no user |
| Pagination.WindowStart | src/static/js/app.js:242 | `max(1, current - 2)` |
| Pagination.WindowEnd | src/static/js/app.js:243 | `min(total, current + 2)` |
| Pagination.Window | src/static/js/app.js:252-258 | one link per page of the window, in order, exactly the current page active |
| Pagination.GuardAsWritten | src/static/js/app.js:227-230 | as written, a missing container crashes; a present one is cleared exactly for one page or none |
| Pagination.MissingContainerCrashes | src/static/js/app.js:227-230 | a page without the container crashes the call where the intended guard leaves it untouched; with the container, the source's guard and the intended one agree |
| Pagination.Guard | src/static/js/app.js:227-230 | corrected guard: a missing container is left alone, never a crash; one page or none clears it |
| Pagination.RenderPagination | src/static/js/app.js:225-276 | with the corrected guard (see Findings), a missing container is left alone; for a container and more than one page, the list built link by link is exactly Previous, the leading page and ellipsis, the window, the trailing ellipsis and page, and Next |
| Pagination.AppendLeading | src/static/js/app.js:245-250 | appends the link to page 1 and an ellipsis exactly when the window starts after page 1 and after page 2 |
| Pagination.AppendTrailing | src/static/js/app.js:260-265 | appends an ellipsis and the link to the last page exactly when the window ends before the second-to-last and the last page |
| Pagination.LayoutEnds | src/static/js/app.js:235-271 | Previous is disabled exactly on page 1 and Next exactly on the last page |
| Pagination.InnerPages | src/static/js/app.js:245-265 | links run from page 1 to the last page, only pages 1..total appear, every page within two of the current one is listed, and exactly the current one is active |
| Pagination.InnerConsecutive | src/static/js/app.js:245-265 | two neighbouring links are consecutive pages |
| Pagination.InnerEllipses | src/static/js/app.js:247-262 | an ellipsis stands only between links whose pages differ by more than one |
| Csv.DoubleQuotes | src/static/js/app.js:292 | doubling quotes never shortens the text |
| Csv.EscapeAsWritten | src/static/js/app.js:291-294 | as written, a string with a comma or quote is quoted and any other is left as is |
| Csv.Escape | src/static/js/app.js:291-294 | corrected escaping: text that cannot stand bare (separator, quote or line break) is quoted, other text left as is |
| Csv.Cells | src/static/js/app.js:288-295 | one cell per header, each the value of that key under the corrected escaping (see Findings) |
| Csv.Lines | src/static/js/app.js:285-296 | the header line of the first row's keys, then one line of corrected cells per row |
| Csv.Export | src/static/js/app.js:279-296 | the corrected export: no export for absent or empty data, else the lines of corrected cells joined by newlines |
| Csv.UnquotedRoundTrip | src/static/js/app.js:291-294 | a cell left bare, followed by a separator or the end, reads back as itself |
| Csv.QuotedRoundTrip | src/static/js/app.js:292 | a cell quoted with its quotes doubled reads back as the original text |
| Csv.FieldRoundTrip | src/static/js/app.js:290-294 | any cell the export can write for a value reads back as that value |
| Csv.EscapeRoundTrip | src/static/js/app.js:291-294 | any string, escaped, reads back as itself |
| Csv.RecordRoundTrip | src/static/js/app.js:288-295 | one line of encoded cells reads back as its values |
| Csv.DocumentRoundTrip | src/static/js/app.js:286-296 | lines of encoded cells joined by newlines read back as their records |
| Csv.Contents | src/static/js/app.js:289 | the values of a row, one per header |
| Csv.ExportRoundTrip | src/static/js/app.js:279-296 | the export reads back as the header row then, for each row, its values under the headers |
| Csv.ExportAsWritten | src/static/js/app.js:279-296 | as written, no export exactly for absent or empty data |
| Csv.NewlineSplitsRow | src/static/js/app.js:291-294 | as written, a one-row export with a line break in a cell reads back as two rows; escaped, it reads back as one |

## Left out

- The password hashing functions and the user model file (`src/models/user.py`) are not part of this model. Hashing and checking are the parameters `hasher` and `check`, and a new account is active.
- JWT signing and decoding (PyJWT, HS256) are left out: `decode` is a parameter, and expiry is the one check modelled. `iat` is kept in the claims and is not checked, as in the source.
- `Auth.GenerateClaims`: the source reads the clock twice. The first read sets `exp` and the second sets `iat`, so the model takes two readings. Any two readings are accepted, including a wall clock that steps back between them. The bound of at most 24 hours between `iat` and `exp` is promised only when the second read is not earlier than the first, and exactly 24 hours only when the two agree.
- Request bodies are typed. A JSON `null` or a value of the wrong type for a non-nullable column, and a body that is not a JSON object, are outside the model. Such requests fail inside SQLAlchemy or Python with a 500.
- Ids come from a counter per table: the database's autoincrement is not modelled beyond "fresh".
- Clock readings are parameters.
- `TripRoutes.StartTrip`: the source reads the clock twice, once for the start time and once for the update stamp. The model uses one reading for both, so it does not capture the two differing. Timestamps are whole seconds, and microseconds are not modelled.
- `TripRoutes.CompleteTrip`: as for `TripRoutes.StartTrip`, one reading sets both the end time and the update stamp, where the source reads the clock twice.
- `TripRoutes.ApplyCompletion`: it takes the single reading of `TripRoutes.CompleteTrip` for both the end time and the stamp.
- `fromisoformat` is the parameter `parse`.
- `strptime` accepts only ASCII digits here; CPython also accepts other Unicode digits.
- `timedelta` overflow beyond Python's year range is not modelled.
- `round(x, 2)` and `round(x, 1)` are left out, and floating point is exact `real` arithmetic.
- `Analytics.GetVehicleUtilization`: the rate is stated before rounding.
- `Analytics.UtilizationOf`: it models the corrected day count (see Findings), the distinct trip dates after `today - days` and up to today. The source counts every date on or after `today - days`, future dates included, and that count can exceed `days`. The as-written count is `Analytics.TripDatesSince`, and `Analytics.UtilizationAsWrittenExceeds100` shows a rate of 200%. The 0–100 bound holds only for the corrected count.
- `Analytics.GetVehicleUtilization`: its entries use the corrected day count of `Analytics.UtilizationOf`, not the source's `>= start_date` count, so its 0–100 bound is not a promise of the source.
- Sort stability is not modelled. Sorting is stated as a permutation with non-increasing (or non-decreasing) keys. The order among equal keys and the database's order are left to the store.
- The date and month dict keys are `Calendar.Date` and `Calendar.Month` rather than their `isoformat()`/`strftime('%Y-%m')` strings. Their order is the order of those strings. `Calendar.ParseFormatRoundTrip` and `Calendar.FormatParseRoundTrip` relate dates to their text form.
- SQL `GROUP BY` row order is the store's enumeration order.
- The joined rows of trips per vehicle and per driver are modelled by counting trips per listed id.
- Rollback and the discarded session of a failed request are modelled as "the store is unchanged".
- `TripRoutes.UpdateTrip` and `MaintenanceRoutes.UpdateMaintenanceRecord`: a bad date found after some fields were assigned returns without `commit`. The model leaves the store unchanged, as the discarded session does.
- `VehicleRoutes.DeleteVehicle`: deleting a vehicle that still has maintenance records fails the NOT NULL constraint on `vehicle_id`. This is modelled as the 500 answer with the store unchanged.
- The uniqueness pre-check and the insert are not atomic in the source. Concurrent requests are not modelled.
- Serialisation (`to_dict`, `jsonify`) and the response messages are left out. Outcomes carry a reason code instead of the text.
- The handlers for missing ids are modelled with the corrected 404 answer (see Findings).
- The browser's DOM, HTML text, Bootstrap and Chart.js rendering, `showToast`, the file download, `fetch` and the redirect in `logout` are left out.
- `fetch` answers and local-storage contents are parameters and fields.
- `Pagination.RenderPagination` models the corrected guard (see Findings): without the container it leaves the page untouched, where the source throws a `TypeError`. `Pagination.GuardAsWritten` and `Pagination.MissingContainerCrashes` model the source's guard.
- `Pagination.RenderPagination`: page numbers are integers and JavaScript numbers are not modelled. The HTML is abstracted to the list of items it shows.
- `Csv.Export`: it models the corrected escaping (see Findings), which also quotes a string containing a line break. The source writes such a string bare, as `Csv.ExportAsWritten` with `Csv.EscapeAsWritten` does.
- `Csv.Cells`: each cell uses the corrected `Csv.Escape`, not the source's escaping, which leaves line breaks bare.
- `Csv.Lines`: its row lines are made of the corrected cells of `Csv.Cells`.
- `Csv.ExportRoundTrip`: it is stated for header names that need no quoting, because the source does not escape headers. It is also stated for non-string values whose text needs no quoting, as numbers and booleans print. It also requires the first row to have at least one key. With no keys the header line is empty, and the round trip is not stated for that case.
- The context scripts are left out: `src/init_db.py` and the page scripts `dashboard.js`, `vehicles.js`, `maintenance.js`, `trips.js`, `drivers.js`, `users.js` and `api.js`.

## Findings

| source | as written | input that shows it | evidently intended | confidence | as-written member | corrected member |
|---|---|---|---|---|---|---|
| src/routes/vehicle.py:40-51 | `get_or_404` runs inside `try ... except Exception`, and werkzeug's `NotFound` is an `Exception`, so the handler turns it into a 500. The same holds for every handler that looks up an id. | `GET /api/vehicles/999` with no vehicle 999 | 404 Not Found | not executed | Common.MissingIdAnswered500 | Common.MissingIdAnswered404 |
| src/routes/analytics.py:246-251 | Days used counts the distinct trip dates `>= today - days`. That window holds `days + 1` dates and any future dates, so the rate can exceed 100%. | `days=1`, one trip yesterday and one today: days used 2, rate 200% | Count the `days` dates ending today, so the rate is at most 100% | not executed | Analytics.UtilizationAsWrittenExceeds100 | Analytics.UtilizationAtMost100 |
| src/static/js/app.js:291-294 | Only commas and quotes trigger quoting. A line break in a string cell is written bare and splits the row. | `[{note: "a\nb"}]` exports `note\na\nb`, which reads back as two data rows | Quote line breaks too, so every row reads back whole | not executed | Csv.NewlineSplitsRow | Csv.ExportRoundTrip |
| src/static/js/app.js:227-228 | When the container is missing, the guard still writes `container.innerHTML`, which throws a `TypeError`. | A page without an element of the given id | Return without rendering | not executed | Pagination.MissingContainerCrashes | Pagination.RenderPagination |
