/**
 * Proleptic Gregorian calendar dates as Python's `datetime.date` holds them,
 * the day arithmetic the analytics use (`d + timedelta(days=1)`,
 * `today - timedelta(days=n)`), the `YYYY-MM` month of a date with the
 * December-to-January step, and the `YYYY-MM-DD` text form.
 */
module Calendar {
  import opened Common

  datatype Date = Date(year: int, month: int, day: int)

  /** A calendar month, the value behind a `strftime('%Y-%m')` key. */
  datatype Month = Month(year: int, month: int)

  predicate IsLeap(y: int)
  {
    y % 4 == 0 && (y % 100 != 0 || y % 400 == 0)
  }

  function DaysInMonth(y: int, m: int): (n: int)
    requires 1 <= m <= 12
    ensures 28 <= n <= 31
    ensures n == 29 <==> m == 2 && IsLeap(y)
  {
    if m == 2 then (if IsLeap(y) then 29 else 28)
    else if m == 4 || m == 6 || m == 9 || m == 11 then 30
    else 31
  }

  predicate Valid(d: Date)
  {
    1 <= d.month <= 12 && 1 <= d.day <= DaysInMonth(d.year, d.month)
  }

  /** A key that orders dates chronologically (lexicographically on year, month, day). */
  function Ord(d: Date): int
  {
    d.year * 416 + d.month * 32 + d.day
  }

  lemma OrdInjective(a: Date, b: Date)
    requires Valid(a) && Valid(b) && Ord(a) == Ord(b)
    ensures a == b
  {
  }

  /** `d + timedelta(days=1)`. */
  function NextDay(d: Date): (e: Date)
    requires Valid(d)
    ensures Valid(e) && Ord(d) < Ord(e)
  {
    if d.day < DaysInMonth(d.year, d.month) then d.(day := d.day + 1)
    else if d.month < 12 then Date(d.year, d.month + 1, 1)
    else Date(d.year + 1, 1, 1)
  }

  /** `d - timedelta(days=1)`. */
  function PrevDay(d: Date): (e: Date)
    requires Valid(d)
    ensures Valid(e) && Ord(e) < Ord(d)
  {
    if d.day > 1 then d.(day := d.day - 1)
    else if d.month > 1 then Date(d.year, d.month - 1, DaysInMonth(d.year, d.month - 1))
    else Date(d.year - 1, 12, 31)
  }

  /** No valid date lies strictly between a date and the next one. */
  lemma NextDayIsSuccessor(d: Date, e: Date)
    requires Valid(d) && Valid(e) && Ord(d) < Ord(e)
    ensures Ord(NextDay(d)) <= Ord(e)
  {
    if d.day == DaysInMonth(d.year, d.month) {
      if e.year == d.year && e.month == d.month {
        assert false;
      } else if e.year == d.year && e.month < d.month {
        assert false;
      } else if e.year < d.year {
        assert false;
      }
    }
  }

  lemma PrevNextInverse(d: Date)
    requires Valid(d)
    ensures PrevDay(NextDay(d)) == d && NextDay(PrevDay(d)) == d
  {
  }

  /** `d - timedelta(days=n)`; a negative `n` moves forward. */
  function SubDays(d: Date, n: int): (e: Date)
    requires Valid(d)
    ensures Valid(e)
    ensures n >= 0 ==> Ord(e) <= Ord(d)
    ensures n <= 0 ==> Ord(d) <= Ord(e)
    decreases if n >= 0 then n else -n
  {
    if n == 0 then d
    else if n > 0 then SubDays(PrevDay(d), n - 1)
    else SubDays(NextDay(d), n + 1)
  }

  /** Stepping forward `n` days from `today - n days` returns to `today`. */
  function AddDays(d: Date, n: nat): (e: Date)
    requires Valid(d)
    ensures Valid(e) && Ord(d) <= Ord(e)
  {
    if n == 0 then d else NextDay(AddDays(d, n - 1))
  }

  /** The `n` dates after `d`, up to and including `AddDays(d, n)`. */
  function DaysAfter(d: Date, n: nat): (r: set<Date>)
    requires Valid(d)
    ensures |r| <= n
    ensures forall e :: e in r ==> Valid(e) && Ord(d) < Ord(e) <= Ord(AddDays(d, n))
  {
    if n == 0 then {} else DaysAfter(d, n - 1) + {AddDays(d, n)}
  }

  /** Every valid date after `d` and no later than `AddDays(d, n)` is one of those `n` dates. */
  lemma {:induction false} DaysAfterComplete(d: Date, n: nat, e: Date)
    requires Valid(d) && Valid(e) && Ord(d) < Ord(e) <= Ord(AddDays(d, n))
    ensures e in DaysAfter(d, n)
  {
    if n == 0 {
    } else if Ord(e) == Ord(AddDays(d, n)) {
      OrdInjective(e, AddDays(d, n));
    } else {
      var p := AddDays(d, n - 1);
      if Ord(p) < Ord(e) {
        NextDayIsSuccessor(p, e);
        assert false;
      }
      DaysAfterComplete(d, n - 1, e);
    }
  }

  /** Going back `n` days and forward `n` days again is the identity. */
  lemma {:induction false} SubThenAdd(d: Date, n: nat)
    requires Valid(d)
    ensures AddDays(SubDays(d, n), n) == d
    decreases n
  {
    if n > 0 {
      var p := PrevDay(d);
      SubThenAdd(p, n - 1);
      AddDaysStep(SubDays(p, n - 1), n - 1);
      PrevNextInverse(d);
    }
  }

  /** Adding one more day at the front is the same as adding it at the back. */
  lemma {:induction false} AddDaysStep(d: Date, n: nat)
    requires Valid(d)
    ensures AddDays(PrevDay(d), n + 1) == AddDays(d, n)
    decreases n
  {
    PrevNextInverse(d);
    if n > 0 {
      AddDaysStep(d, n - 1);
    }
  }

  /** At most `n` valid dates lie in the window `(today - n days, today]`. */
  lemma WindowSize(today: Date, n: nat, dates: set<Date>)
    requires Valid(today)
    requires forall e :: e in dates ==> Valid(e) && Ord(SubDays(today, n)) < Ord(e) <= Ord(today)
    ensures |dates| <= n
  {
    var start := SubDays(today, n);
    SubThenAdd(today, n);
    forall e | e in dates
      ensures e in DaysAfter(start, n)
    {
      DaysAfterComplete(start, n, e);
    }
    var all := DaysAfter(start, n);
    assert all == dates + (all - dates);
  }

  function MonthOf(d: Date): Month
  {
    Month(d.year, d.month)
  }

  /** A key that orders months chronologically; consecutive months differ by one. */
  function MonthOrd(k: Month): int
  {
    k.year * 12 + k.month - 1
  }

  predicate ValidMonth(k: Month)
  {
    1 <= k.month <= 12
  }

  /** The month step of the maintenance trend: December advances to January of the next year. */
  function NextMonth(k: Month): (r: Month)
    requires ValidMonth(k)
    ensures ValidMonth(r) && MonthOrd(r) == MonthOrd(k) + 1
    ensures k.month == 12 ==> r.year == k.year + 1 && r.month == 1
  {
    if k.month == 12 then Month(k.year + 1, 1) else Month(k.year, k.month + 1)
  }

  /** Months are determined by their order key. */
  lemma MonthOrdInjective(a: Month, b: Month)
    requires ValidMonth(a) && ValidMonth(b) && MonthOrd(a) == MonthOrd(b)
    ensures a == b
  {
  }

  /** Chronological order of dates carries over to their months. */
  lemma MonthOfMonotone(a: Date, b: Date)
    requires Valid(a) && Valid(b) && Ord(a) <= Ord(b)
    ensures MonthOrd(MonthOf(a)) <= MonthOrd(MonthOf(b))
  {
  }

  // ----- the YYYY-MM-DD text form (`isoformat()` and `strptime(s, '%Y-%m-%d')`) -----

  predicate IsDigit(c: char)
  {
    '0' <= c <= '9'
  }

  function DigitChar(n: int): (c: char)
    requires 0 <= n <= 9
    ensures IsDigit(c)
  {
    ('0' as int + n) as char
  }

  function DigitValue(c: char): (n: int)
    requires IsDigit(c)
    ensures 0 <= n <= 9 && DigitChar(n) == c
  {
    c as int - '0' as int
  }

  function Pad2(n: int): (s: string)
    requires 0 <= n <= 99
    ensures |s| == 2 && IsDigit(s[0]) && IsDigit(s[1])
    ensures 10 * DigitValue(s[0]) + DigitValue(s[1]) == n
  {
    [DigitChar(n / 10), DigitChar(n % 10)]
  }

  function Pad4(n: int): (s: string)
    requires 0 <= n <= 9999
    ensures |s| == 4 && forall i :: 0 <= i < 4 ==> IsDigit(s[i])
    ensures 1000 * DigitValue(s[0]) + 100 * DigitValue(s[1]) + 10 * DigitValue(s[2]) + DigitValue(s[3]) == n
  {
    var hi, lo := Pad2(n / 100), Pad2(n % 100);
    assert 100 * (n / 100) + n % 100 == n;
    hi + lo
  }

  /** Python's `date` range, MINYEAR to MAXYEAR. */
  predicate InPythonRange(d: Date)
  {
    1 <= d.year <= 9999
  }

  /** `d.isoformat()`. */
  function IsoFormat(d: Date): (s: string)
    requires Valid(d) && InPythonRange(d)
    ensures |s| == 10 && s[4] == '-' && s[7] == '-'
  {
    Pad4(d.year) + "-" + Pad2(d.month) + "-" + Pad2(d.day)
  }

  /** The shape `DDDD-DD-DD` that `isoformat()` produces. */
  predicate IsoShaped(s: string)
  {
    |s| == 10 && s[4] == '-' && s[7] == '-' &&
    forall i :: 0 <= i < 10 && i != 4 && i != 7 ==> IsDigit(s[i])
  }

  /** What `%m` matches: `1[0-2]|0[1-9]|[1-9]`. */
  predicate MonthToken(t: string)
  {
    (|t| == 1 && '1' <= t[0] <= '9') ||
    (|t| == 2 && ((t[0] == '0' && '1' <= t[1] <= '9') || (t[0] == '1' && '0' <= t[1] <= '2')))
  }

  /** What `%d` matches: `3[01]|[12]\d|0[1-9]|[1-9]| [1-9]` (a space may stand before a single digit). */
  predicate DayToken(t: string)
  {
    (|t| == 1 && '1' <= t[0] <= '9') ||
    (|t| == 2 && ((t[0] == '3' && '0' <= t[1] <= '1') || (('1' <= t[0] <= '2' || t[0] == '0' || t[0] == ' ') && IsDigit(t[1]))) &&
     (t[0] == '0' || t[0] == ' ' ==> t[1] != '0'))
  }

  /** The number a one- or two-character month or day token stands for. */
  function TokenValue(t: string): (n: int)
    requires |t| == 1 || |t| == 2
    requires forall i :: 0 <= i < |t| ==> IsDigit(t[i]) || (i == 0 && t[i] == ' ')
    requires |t| == 1 ==> IsDigit(t[0])
    ensures 0 <= n <= 99
  {
    if |t| == 1 then DigitValue(t[0])
    else (if t[0] == ' ' then 0 else 10 * DigitValue(t[0])) + DigitValue(t[1])
  }

  /**
   * `datetime.strptime(s, '%Y-%m-%d').date()`, `None` where Python raises
   * `ValueError`: four year digits, a dash, a month token, a dash, a day token
   * and nothing after it; then the year must be at least 1 and the day must
   * exist in that month.
   */
  function StrptimeDate(s: string): (r: Option<Date>)
    ensures r.Some? ==> Valid(r.value) && InPythonRange(r.value)
  {
    if |s| < 8 || s[4] != '-' || !(IsDigit(s[0]) && IsDigit(s[1]) && IsDigit(s[2]) && IsDigit(s[3])) then None
    else
      var rest := s[5..];
      var k := if rest[1] == '-' then 1 else if rest[2] == '-' then 2 else 0;
      if k == 0 then None
      else
        var month := rest[..k];
        var day := rest[k + 1..];
        if !MonthToken(month) || !DayToken(day) then None
        else
          var y := 1000 * DigitValue(s[0]) + 100 * DigitValue(s[1]) + 10 * DigitValue(s[2]) + DigitValue(s[3]);
          var m := TokenValue(month);
          var d := TokenValue(day);
          if 1 <= y && 1 <= m <= 12 && 1 <= d <= DaysInMonth(y, m) then Some(Date(y, m, d)) else None
  }

  /** The number two digits stand for. */
  function TwoDigits(a: char, b: char): (n: int)
    requires IsDigit(a) && IsDigit(b)
    ensures 0 <= n <= 99
  {
    10 * DigitValue(a) + DigitValue(b)
  }

  /** On a zero-padded `DDDD-DD-DD` string, the month and day tokens are the two-digit groups. */
  lemma StrptimeOfIsoShaped(s: string)
    requires IsoShaped(s)
    ensures var y := 1000 * DigitValue(s[0]) + 100 * DigitValue(s[1]) + 10 * DigitValue(s[2]) + DigitValue(s[3]);
      var m, d := TwoDigits(s[5], s[6]), TwoDigits(s[8], s[9]);
      StrptimeDate(s) ==
        if MonthToken([s[5], s[6]]) && DayToken([s[8], s[9]]) && 1 <= y && 1 <= m <= 12 && 1 <= d <= DaysInMonth(y, m)
        then Some(Date(y, m, d)) else None
  {
    var rest := s[5..];
    assert rest[1] == s[6] && rest[2] == '-';
    assert rest[..2] == [s[5], s[6]] && rest[3..] == [s[8], s[9]];
  }

  /** A month's two digits are a `%m` token. */
  lemma MonthTokenOfPad(m: int)
    requires 1 <= m <= 12
    ensures MonthToken(Pad2(m))
  {
    var t := Pad2(m);
    assert DigitValue(t[0]) <= 1;
  }

  /** A day's two digits are a `%d` token. */
  lemma DayTokenOfPad(d: int)
    requires 1 <= d <= 31
    ensures DayToken(Pad2(d))
  {
    var t := Pad2(d);
    assert DigitValue(t[0]) <= 3;
  }

  /** Formatting then parsing gives the date back. */
  lemma ParseFormatRoundTrip(d: Date)
    requires Valid(d) && InPythonRange(d)
    ensures StrptimeDate(IsoFormat(d)) == Some(d)
  {
    var s := IsoFormat(d);
    var y4, m2, d2 := Pad4(d.year), Pad2(d.month), Pad2(d.day);
    assert s == y4 + "-" + m2 + "-" + d2;
    assert s[0] == y4[0] && s[1] == y4[1] && s[2] == y4[2] && s[3] == y4[3];
    assert s[5] == m2[0] && s[6] == m2[1] && s[8] == d2[0] && s[9] == d2[1];
    assert [s[5], s[6]] == m2 && [s[8], s[9]] == d2;
    MonthTokenOfPad(d.month);
    DayTokenOfPad(d.day);
    assert IsoShaped(s);
    StrptimeOfIsoShaped(s);
  }

  lemma Pad2OfDigits(a: char, b: char)
    requires IsDigit(a) && IsDigit(b)
    ensures Pad2(TwoDigits(a, b)) == [a, b]
  {
    var n := TwoDigits(a, b);
    assert n / 10 == DigitValue(a) && n % 10 == DigitValue(b);
  }

  lemma Pad4OfDigits(a: char, b: char, c: char, d: char)
    requires IsDigit(a) && IsDigit(b) && IsDigit(c) && IsDigit(d)
    ensures Pad4(1000 * DigitValue(a) + 100 * DigitValue(b) + 10 * DigitValue(c) + DigitValue(d)) == [a, b, c, d]
  {
    Pad2OfDigits(a, b);
    Pad2OfDigits(c, d);
    Pad4OfPairs(1000 * DigitValue(a) + 100 * DigitValue(b) + 10 * DigitValue(c) + DigitValue(d),
                TwoDigits(a, b), TwoDigits(c, d), a, b, c, d);
  }

  lemma Pad4OfPairs(n: int, hi: int, lo: int, a: char, b: char, c: char, d: char)
    requires 0 <= hi <= 99 && 0 <= lo <= 99 && n == 100 * hi + lo
    requires Pad2(hi) == [a, b] && Pad2(lo) == [c, d]
    ensures Pad4(n) == [a, b, c, d]
  {
    Pad4Split(n, hi, lo);
    assert [a, b] + [c, d] == [a, b, c, d];
  }

  /** Four digits are the two digits of the hundreds followed by the two of the rest. */
  lemma Pad4Split(n: int, hi: int, lo: int)
    requires 0 <= hi <= 99 && 0 <= lo <= 99 && n == 100 * hi + lo
    ensures Pad4(n) == Pad2(hi) + Pad2(lo)
  {
    assert n / 100 == hi && n % 100 == lo;
  }

  /** A zero-padded string that parses is exactly the formatted form of its date. */
  lemma FormatParseRoundTrip(s: string)
    requires IsoShaped(s) && StrptimeDate(s).Some?
    ensures IsoFormat(StrptimeDate(s).value) == s
  {
    StrptimeOfIsoShaped(s);
    FormatDigits(s);
  }

  /** Formatting the date a zero-padded string's digit groups stand for gives the string. */
  lemma FormatDigits(s: string)
    requires IsoShaped(s)
    ensures var date := Date(1000 * DigitValue(s[0]) + 100 * DigitValue(s[1]) + 10 * DigitValue(s[2]) + DigitValue(s[3]),
                             TwoDigits(s[5], s[6]), TwoDigits(s[8], s[9]));
      Valid(date) && InPythonRange(date) ==> IsoFormat(date) == s
  {
    var date := Date(1000 * DigitValue(s[0]) + 100 * DigitValue(s[1]) + 10 * DigitValue(s[2]) + DigitValue(s[3]),
                     TwoDigits(s[5], s[6]), TwoDigits(s[8], s[9]));
    if Valid(date) && InPythonRange(date) {
      DigitGroups(s);
      IsoFormatFrom(date, [s[0], s[1], s[2], s[3]], [s[5], s[6]], [s[8], s[9]]);
    }
  }

  /** Padding the numbers a zero-padded string's digit groups stand for gives those groups back. */
  lemma DigitGroups(s: string)
    requires IsoShaped(s)
    ensures Pad4(1000 * DigitValue(s[0]) + 100 * DigitValue(s[1]) + 10 * DigitValue(s[2]) + DigitValue(s[3])) ==
      [s[0], s[1], s[2], s[3]]
    ensures Pad2(TwoDigits(s[5], s[6])) == [s[5], s[6]] && Pad2(TwoDigits(s[8], s[9])) == [s[8], s[9]]
    ensures s == [s[0], s[1], s[2], s[3]] + "-" + [s[5], s[6]] + "-" + [s[8], s[9]]
  {
    var y0, y1, y2, y3, m0, m1, d0, d1 := s[0], s[1], s[2], s[3], s[5], s[6], s[8], s[9];
    assert IsDigit(y0) && IsDigit(y1) && IsDigit(y2) && IsDigit(y3);
    assert IsDigit(m0) && IsDigit(m1) && IsDigit(d0) && IsDigit(d1);
    Pad4OfDigits(y0, y1, y2, y3);
    Pad2OfDigits(m0, m1);
    Pad2OfDigits(d0, d1);
    IsoShapedParts(s);
  }

  lemma IsoFormatFrom(date: Date, y4: string, m2: string, d2: string)
    requires Valid(date) && InPythonRange(date)
    requires Pad4(date.year) == y4 && Pad2(date.month) == m2 && Pad2(date.day) == d2
    ensures IsoFormat(date) == y4 + "-" + m2 + "-" + d2
  {
  }

  lemma IsoShapedParts(s: string)
    requires IsoShaped(s)
    ensures s == [s[0], s[1], s[2], s[3]] + "-" + [s[5], s[6]] + "-" + [s[8], s[9]]
  {
  }

  /** Unpadded months and days, and a space before a one-digit day, are accepted too; impossible days are not. */
  lemma StrptimeLenient()
    ensures StrptimeDate("2024-1-5") == Some(Date(2024, 1, 5))
    ensures StrptimeDate("2024-01- 5") == Some(Date(2024, 1, 5))
    ensures StrptimeDate("2023-02-29") == None
    ensures StrptimeDate("0000-01-01") == None
  {
    assert "2024-1-5"[5..] == "1-5";
    assert "1-5"[..1] == "1" && "1-5"[2..] == "5";
    assert "2024-01- 5"[5..] == "01- 5";
    assert "01- 5"[..2] == "01" && "01- 5"[3..] == " 5";
    assert "2023-02-29"[5..] == "02-29";
    assert "02-29"[..2] == "02" && "02-29"[3..] == "29";
  }

  // ----- dates in requests -----

  /**
   * The `start_date`/`end_date` query parameters of the list routes: a sent
   * bound that does not parse is a 400, the start bound checked first.
   */
  function RangeCheck(start: Field<string>, end: Field<string>): (r: Option<Reason>)
    ensures r.None? <==>
      (Supplied(start) ==> StrptimeDate(start.value).Some?) &&
      (Supplied(end) ==> StrptimeDate(end.value).Some?)
    ensures r.Some? ==> r.value == BadFormat("start_date") || r.value == BadFormat("end_date")
    ensures Supplied(start) && StrptimeDate(start.value).None? ==> r == Some(BadFormat("start_date"))
  {
    if Supplied(start) && StrptimeDate(start.value).None? then Some(BadFormat("start_date"))
    else if Supplied(end) && StrptimeDate(end.value).None? then Some(BadFormat("end_date"))
    else None
  }

  /** A date within the sent bounds, both inclusive; a bound not sent does not constrain. */
  predicate InRange(d: Date, start: Field<string>, end: Field<string>)
    requires RangeCheck(start, end).None?
  {
    (Supplied(start) ==> Ord(d) >= Ord(StrptimeDate(start.value).value)) &&
    (Supplied(end) ==> Ord(d) <= Ord(StrptimeDate(end.value).value))
  }

  /** The date of a new record: today unless a non-empty string is sent; `None` when it does not parse. */
  function RequestedDate(f: Field<Option<string>>, today: Date): (r: Option<Date>)
    ensures !SuppliedText(f) ==> r == Some(today)
    ensures SuppliedText(f) ==> r == StrptimeDate(f.value.value)
  {
    if SuppliedText(f) then StrptimeDate(f.value.value) else Some(today)
  }
}
