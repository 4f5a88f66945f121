/** The calendar page `src/pages/Calendar.tsx`: the month grid, the per-day index of
    appointments, the today and selected-day lists, month navigation, and creating and deleting
    appointments. Timestamps are turned into local calendar days by `dateOf`, a parameter
    standing for the browser's `new Date(t).getFullYear()/getMonth()/getDate()`. */
module Calendar {
  import opened Common
  import Store

  // ---------------------------------------------------------------------------
  // Gregorian calendar
  // ---------------------------------------------------------------------------

  /** A local calendar day; `month` counts from 0 as in JavaScript. */
  datatype Day = Day(year: int, month: int, day: int)

  predicate IsLeapYear(year: int) {
    (year % 4 == 0 && year % 100 != 0) || year % 400 == 0
  }

  /** The length of a month (`new Date(year, month + 1, 0).getDate()`). */
  function DaysInMonth(year: int, month: int): (n: int)
    requires 0 <= month < 12
    ensures 28 <= n <= 31
    ensures n == 31 <==> month in {0, 2, 4, 6, 7, 9, 11}
    ensures n == 30 <==> month in {3, 5, 8, 10}
    ensures month == 1 ==> (n == 29 <==> IsLeapYear(year))
  {
    if month == 1 then (if IsLeapYear(year) then 29 else 28)
    else if month == 3 || month == 5 || month == 8 || month == 10 then 30
    else 31
  }

  /** Days from 1 January of year 1 (proleptic Gregorian) to 1 January of `year`. */
  function DaysBeforeYear(year: int): int {
    var y := year - 1;
    365 * y + y / 4 - y / 100 + y / 400
  }

  /** Days from 1 January of `year` to the first of `month`. */
  function DaysBeforeMonth(year: int, month: int): int
    requires 0 <= month < 12
  {
    if month == 0 then 0 else DaysBeforeMonth(year, month - 1) + DaysInMonth(year, month - 1)
  }

  /** The day's number counted from 1 January of year 1, which was a Monday. */
  function DayNumber(d: Day): int
    requires 0 <= d.month < 12
  {
    DaysBeforeYear(d.year) + DaysBeforeMonth(d.year, d.month) + d.day - 1
  }

  /** `getDay()`: 0 for Sunday through 6 for Saturday. */
  function Weekday(d: Day): (w: int)
    requires 0 <= d.month < 12
    ensures 0 <= w < 7
  {
    (DayNumber(d) + 1) % 7
  }

  /** The weekday numbering agrees with JavaScript's: 1 January 1970 was a Thursday. */
  lemma EpochIsThursday()
    ensures Weekday(Day(1970, 0, 1)) == 4
  {
  }

  /** Division by a positive number is determined by quotient and remainder. */
  lemma DivUnique(x: int, k: int, q: int, r: int)
    requires k > 0 && x == k * q + r && 0 <= r < k
    ensures x / k == q
  {
    var q0 := x / k;
    var r0 := x % k;
    assert k * q0 + r0 == x;
    assert k * (q - q0) == r0 - r;
    if q > q0 {
      MulAtLeast(k, q - q0);
      assert false;
    } else if q < q0 {
      MulAtLeast(k, q0 - q);
      assert false;
    }
  }

  lemma MulAtLeast(k: int, d: int)
    requires k > 0 && d >= 1
    ensures k * d >= k
  {
    assert k * d == k * (d - 1) + k;
  }

  lemma FloorStep(y: int, k: int)
    requires k > 0
    ensures y / k - (y - 1) / k == if y % k == 0 then 1 else 0
  {
    var q := y / k;
    var r := y % k;
    assert y == k * q + r && 0 <= r < k;
    if r == 0 {
      assert y - 1 == k * (q - 1) + (k - 1);
      DivUnique(y - 1, k, q - 1, k - 1);
    } else {
      DivUnique(y - 1, k, q, r - 1);
    }
  }

  /** A year has 366 days exactly when it is a leap year. */
  lemma YearLength(year: int)
    ensures DaysBeforeYear(year + 1) - DaysBeforeYear(year) == if IsLeapYear(year) then 366 else 365
  {
    var fours := year / 4 - (year - 1) / 4;
    var centuries := year / 100 - (year - 1) / 100;
    var quads := year / 400 - (year - 1) / 400;
    FloorStep(year, 4);
    FloorStep(year, 100);
    FloorStep(year, 400);
    CenturyDivisibility(year);
    assert DaysBeforeYear(year + 1) - DaysBeforeYear(year) == 365 + fours - centuries + quads;
  }

  /** A multiple of 400 is a multiple of 100, and a multiple of 100 is one of 4. */
  lemma CenturyDivisibility(year: int)
    ensures year % 400 == 0 ==> year % 100 == 0
    ensures year % 100 == 0 ==> year % 4 == 0
  {
    if year % 400 == 0 {
      var q := year / 400;
      assert year == 100 * (4 * q) + 0;
      DivUnique(year, 100, 4 * q, 0);
    }
    if year % 100 == 0 {
      var q := year / 100;
      assert year == 4 * (25 * q) + 0;
      DivUnique(year, 4, 25 * q, 0);
    }
  }

  /** The months of a year add up to the year's length. */
  lemma MonthsFillYear(year: int)
    ensures DaysBeforeMonth(year, 11) + DaysInMonth(year, 11) == if IsLeapYear(year) then 366 else 365
  {
    var feb := DaysInMonth(year, 1);
    assert DaysBeforeMonth(year, 1) == 31;
    assert DaysBeforeMonth(year, 2) == 31 + feb;
    assert DaysBeforeMonth(year, 3) == 62 + feb;
    assert DaysBeforeMonth(year, 4) == 92 + feb;
    assert DaysBeforeMonth(year, 5) == 123 + feb;
    assert DaysBeforeMonth(year, 6) == 153 + feb;
    assert DaysBeforeMonth(year, 7) == 184 + feb;
    assert DaysBeforeMonth(year, 8) == 215 + feb;
    assert DaysBeforeMonth(year, 9) == 245 + feb;
    assert DaysBeforeMonth(year, 10) == 276 + feb;
    assert DaysBeforeMonth(year, 11) == 306 + feb;
  }

  /** The first of the next month, with the year carried (`new Date(y, m + 1, 1)`). */
  function MonthAfter(year: int, month: int): (d: Day)
    requires 0 <= month < 12
    ensures 0 <= d.month < 12 && d.day == 1
    ensures 12 * d.year + d.month == 12 * year + month + 1
  {
    if month == 11 then Day(year + 1, 0, 1) else Day(year, month + 1, 1)
  }

  /** The first of the previous month, with the year carried (`new Date(y, m - 1, 1)`). */
  function MonthBefore(year: int, month: int): (d: Day)
    requires 0 <= month < 12
    ensures 0 <= d.month < 12 && d.day == 1
    ensures 12 * d.year + d.month == 12 * year + month - 1
  {
    if month == 0 then Day(year - 1, 11, 1) else Day(year, month - 1, 1)
  }

  /** Going forward and back one month returns to the same month. */
  lemma PrevNextInverse(year: int, month: int)
    requires 0 <= month < 12
    ensures var n := MonthAfter(year, month); MonthBefore(n.year, n.month) == Day(year, month, 1)
    ensures var p := MonthBefore(year, month); MonthAfter(p.year, p.month) == Day(year, month, 1)
  {
  }

  /** The first of the next month comes as many days after this month's first as the month
      is long. */
  lemma NextMonthDayNumber(year: int, month: int)
    requires 0 <= month < 12
    ensures DayNumber(MonthAfter(year, month)) == DayNumber(Day(year, month, 1)) + DaysInMonth(year, month)
  {
    if month == 11 {
      YearLength(year);
      MonthsFillYear(year);
    }
  }

  lemma ModShift(a: int, b: int)
    ensures (a + b) % 7 == (a % 7 + b) % 7
  {
    var q := a / 7;
    assert a == 7 * q + a % 7;
    assert a + b == 7 * q + (a % 7 + b);
    assert (7 * q + (a % 7 + b)) % 7 == (a % 7 + b) % 7;
  }

  /** The next month starts on the weekday after this month's last day. */
  lemma NextMonthWeekday(year: int, month: int)
    requires 0 <= month < 12
    ensures Weekday(MonthAfter(year, month)) == (Weekday(Day(year, month, 1)) + DaysInMonth(year, month)) % 7
  {
    NextMonthDayNumber(year, month);
    ModShift(DayNumber(Day(year, month, 1)) + 1, DaysInMonth(year, month));
  }

  // ---------------------------------------------------------------------------
  // The month grid
  // ---------------------------------------------------------------------------

  /** The first multiple of 7 at or after `f`. */
  function FullWeeks(f: nat): (r: nat)
    ensures f <= r < f + 7 && r % 7 == 0
  {
    ModShift(f, (7 - f % 7) % 7);
    f + (7 - f % 7) % 7
  }

  /** `calendarDays`: `startPad` empty cells for the weekdays before the first, then one cell
      per day, then empty cells until the length is a multiple of 7. */
  method CalendarDays(year: int, month: int) returns (days: seq<Option<Day>>)
    requires 0 <= month < 12
    ensures var startPad := Weekday(Day(year, month, 1));
            var n := DaysInMonth(year, month);
            && |days| % 7 == 0
            && startPad + n <= |days| < startPad + n + 7
            && (forall i :: 0 <= i < startPad ==> days[i] == None)
            && (forall k :: 1 <= k <= n ==> days[startPad + k - 1] == Some(Day(year, month, k)))
            && (forall i :: startPad + n <= i < |days| ==> days[i] == None)
  {
    var startPad := Weekday(Day(year, month, 1));
    var n := DaysInMonth(year, month);
    days := [];
    var i := 0;
    while i < startPad
      invariant 0 <= i <= startPad && |days| == i
      invariant forall j :: 0 <= j < i ==> days[j] == None
    {
      days := days + [None];
      i := i + 1;
    }
    var d := 1;
    while d <= n
      invariant 1 <= d <= n + 1 && |days| == startPad + d - 1
      invariant forall j :: 0 <= j < startPad ==> days[j] == None
      invariant forall k :: 1 <= k < d ==> days[startPad + k - 1] == Some(Day(year, month, k))
    {
      days := days + [Some(Day(year, month, d))];
      d := d + 1;
    }
    ghost var filled := startPad + n;
    ghost var full := FullWeeks(filled);
    while |days| % 7 != 0
      invariant filled <= |days| <= full
      invariant forall j :: 0 <= j < startPad ==> days[j] == None
      invariant forall k :: 1 <= k <= n ==> days[startPad + k - 1] == Some(Day(year, month, k))
      invariant forall j :: filled <= j < |days| ==> days[j] == None
      decreases filled + 7 - |days|
    {
      days := days + [None];
    }
  }

  // ---------------------------------------------------------------------------
  // Appointments by day
  // ---------------------------------------------------------------------------

  function StartTime(a: Store.Appointment): int { a.dateTime }

  /** The appointments falling on `day`, in list order. */
  function OnDay(appointments: seq<Store.Appointment>, dateOf: int -> Day, day: Day): (r: seq<Store.Appointment>)
    ensures forall a :: a in r <==> a in appointments && dateOf(a.dateTime) == day
  {
    var onDay := (a: Store.Appointment) => dateOf(a.dateTime) == day;
    FilterMembers(appointments, onDay);
    Filter(appointments, onDay)
  }

  lemma OnDayAppend(appointments: seq<Store.Appointment>, a: Store.Appointment, dateOf: int -> Day, day: Day)
    ensures OnDay(appointments + [a], dateOf, day)
            == OnDay(appointments, dateOf, day) + (if dateOf(a.dateTime) == day then [a] else [])
  {
    FilterConcat(appointments, [a], (x: Store.Appointment) => dateOf(x.dateTime) == day);
  }

  /** One entry of the index: a day and its appointments. */
  datatype Bucket = Bucket(key: Day, appts: seq<Store.Appointment>)

  predicate DistinctKeys(index: seq<Bucket>) {
    forall i, j :: 0 <= i < j < |index| ==> index[i].key != index[j].key
  }

  function TotalSize(index: seq<Bucket>): nat {
    if index == [] then 0 else TotalSize(index[..|index| - 1]) + |index[|index| - 1].appts|
  }

  lemma {:induction false} TotalSizeUpdate(index: seq<Bucket>, j: nat, b: Bucket)
    requires j < |index|
    ensures TotalSize(index[j := b]) == TotalSize(index) - |index[j].appts| + |b.appts|
  {
    if j < |index| - 1 {
      assert index[j := b][..|index| - 1] == index[..|index| - 1][j := b];
      TotalSizeUpdate(index[..|index| - 1], j, b);
    } else {
      assert index[j := b][..|index| - 1] == index[..|index| - 1];
    }
  }

  /** The position of the bucket for `key`, if there is one. */
  function FindBucket(index: seq<Bucket>, key: Day): (r: Option<nat>)
    ensures r.None? <==> forall i :: 0 <= i < |index| ==> index[i].key != key
    ensures r.Some? ==> r.value < |index| && index[r.value].key == key
  {
    if index == [] then None
    else if index[|index| - 1].key == key then Some(|index| - 1)
    else FindBucket(index[..|index| - 1], key)
  }

  /** A day's appointments in the index: its bucket's list, or none (`map.get(key) || []`). */
  function Lookup(index: seq<Bucket>, key: Day): seq<Store.Appointment> {
    match FindBucket(index, key)
    case None => []
    case Some(j) => index[j].appts
  }

  predicate NonEmptyBuckets(index: seq<Bucket>) {
    forall j :: 0 <= j < |index| ==> index[j].appts != []
  }

  /** `index` groups `prefix` by day: distinct days, no empty bucket, and each day's bucket
      holds that day's appointments in list order. */
  ghost predicate Indexes(index: seq<Bucket>, prefix: seq<Store.Appointment>, dateOf: int -> Day) {
    && DistinctKeys(index)
    && NonEmptyBuckets(index)
    && TotalSize(index) == |prefix|
    && forall day :: Lookup(index, day) == OnDay(prefix, dateOf, day)
  }

  /** `if (!map.has(key)) map.set(key, []); map.get(key).push(a)`. */
  function AddToIndex(index: seq<Bucket>, key: Day, a: Store.Appointment): (r: seq<Bucket>)
    ensures FindBucket(index, key).None? ==> r == index + [Bucket(key, [a])]
    ensures FindBucket(index, key).Some? ==>
              var j := FindBucket(index, key).value; r == index[j := Bucket(key, index[j].appts + [a])]
  {
    match FindBucket(index, key)
    case None => index + [Bucket(key, [a])]
    case Some(j) => index[j := Bucket(key, index[j].appts + [a])]
  }

  /** After adding, the day's list has the appointment at its end and other days are as before. */
  lemma AddToIndexLookup(index: seq<Bucket>, key: Day, a: Store.Appointment, day: Day)
    ensures Lookup(AddToIndex(index, key, a), day) == Lookup(index, day) + (if day == key then [a] else [])
  {
    var next := AddToIndex(index, key, a);
    match FindBucket(index, key)
    case None =>
      assert next[..|index|] == index;
      if day != key {
        assert FindBucket(next, day) == FindBucket(index, day);
      }
    case Some(j) =>
      SameKeysSameFind(next, index, day);
  }

  lemma AddToIndexShape(index: seq<Bucket>, key: Day, a: Store.Appointment)
    requires DistinctKeys(index) && NonEmptyBuckets(index)
    ensures DistinctKeys(AddToIndex(index, key, a)) && NonEmptyBuckets(AddToIndex(index, key, a))
    ensures TotalSize(AddToIndex(index, key, a)) == TotalSize(index) + 1
  {
    match FindBucket(index, key)
    case None => AddNewBucket(index, key, a);
    case Some(j) => AddToBucket(index, j, key, a);
  }

  lemma AddNewBucket(index: seq<Bucket>, key: Day, a: Store.Appointment)
    requires DistinctKeys(index) && NonEmptyBuckets(index)
    requires forall i :: 0 <= i < |index| ==> index[i].key != key
    ensures var next := index + [Bucket(key, [a])];
            DistinctKeys(next) && NonEmptyBuckets(next) && TotalSize(next) == TotalSize(index) + 1
  {
    var next := index + [Bucket(key, [a])];
    assert next[..|index|] == index;
    forall i, k | 0 <= i < k < |next| ensures next[i].key != next[k].key {
      assert next[i] == index[i];
      if k < |index| {
        assert next[k] == index[k];
      }
    }
  }

  lemma AddToBucket(index: seq<Bucket>, j: nat, key: Day, a: Store.Appointment)
    requires DistinctKeys(index) && NonEmptyBuckets(index)
    requires j < |index| && index[j].key == key
    ensures var next := index[j := Bucket(key, index[j].appts + [a])];
            DistinctKeys(next) && NonEmptyBuckets(next) && TotalSize(next) == TotalSize(index) + 1
  {
    var next := index[j := Bucket(key, index[j].appts + [a])];
    assert forall m :: 0 <= m < |next| ==> next[m].key == index[m].key;
    TotalSizeUpdate(index, j, Bucket(key, index[j].appts + [a]));
  }

  /** Adding the next appointment keeps the index of the longer prefix. */
  lemma AddToIndexKeeps(index: seq<Bucket>, prefix: seq<Store.Appointment>, a: Store.Appointment, dateOf: int -> Day)
    requires Indexes(index, prefix, dateOf)
    ensures Indexes(AddToIndex(index, dateOf(a.dateTime), a), prefix + [a], dateOf)
  {
    var key := dateOf(a.dateTime);
    AddToIndexShape(index, key, a);
    forall day ensures Lookup(AddToIndex(index, key, a), day) == OnDay(prefix + [a], dateOf, day) {
      AddToIndexLookup(index, key, a, day);
      OnDayAppend(prefix, a, dateOf, day);
    }
  }

  /** Sorting every bucket of an index of all appointments gives, for every day, that day's
      appointments sorted by start time. */
  lemma SortedIndexLookup(index: seq<Bucket>, unsorted: seq<Bucket>, appointments: seq<Store.Appointment>, dateOf: int -> Day)
    requires Indexes(unsorted, appointments, dateOf)
    requires |index| == |unsorted|
    requires forall m :: 0 <= m < |index| ==> index[m] == Bucket(unsorted[m].key, SortBy(unsorted[m].appts, StartTime))
    ensures DistinctKeys(index)
    ensures forall day :: Lookup(index, day) == SortBy(OnDay(appointments, dateOf, day), StartTime)
  {
    forall day ensures Lookup(index, day) == SortBy(OnDay(appointments, dateOf, day), StartTime) {
      SameKeysSameFind(index, unsorted, day);
      assert Lookup(unsorted, day) == OnDay(appointments, dateOf, day);
    }
  }

  lemma {:induction false} SameKeysSameFind(index: seq<Bucket>, other: seq<Bucket>, key: Day)
    requires |index| == |other| && forall m :: 0 <= m < |index| ==> index[m].key == other[m].key
    ensures FindBucket(index, key) == FindBucket(other, key)
  {
    if index != [] && index[|index| - 1].key != key {
      SameKeysSameFind(index[..|index| - 1], other[..|other| - 1], key);
    }
  }

  /** The first pass of `appointmentsByDate`: each appointment is pushed onto its day's
      bucket, a bucket being created the first time its day is seen. */
  method GroupByDay(appointments: seq<Store.Appointment>, dateOf: int -> Day) returns (index: seq<Bucket>)
    ensures Indexes(index, appointments, dateOf)
  {
    index := [];
    var i := 0;
    while i < |appointments|
      invariant 0 <= i <= |appointments|
      invariant Indexes(index, appointments[..i], dateOf)
    {
      var a := appointments[i];
      assert appointments[..i + 1] == appointments[..i] + [a];
      AddToIndexKeeps(index, appointments[..i], a, dateOf);
      index := AddToIndex(index, dateOf(a.dateTime), a);
      i := i + 1;
    }
    assert appointments[..i] == appointments;
  }

  /** The second pass: every bucket sorted by start time. */
  method SortBuckets(index: seq<Bucket>) returns (sorted: seq<Bucket>)
    ensures |sorted| == |index| && TotalSize(sorted) == TotalSize(index)
    ensures forall m :: 0 <= m < |index| ==> sorted[m] == Bucket(index[m].key, SortBy(index[m].appts, StartTime))
  {
    sorted := index;
    var j := 0;
    while j < |sorted|
      invariant 0 <= j <= |sorted| == |index|
      invariant forall m :: 0 <= m < j ==> sorted[m] == Bucket(index[m].key, SortBy(index[m].appts, StartTime))
      invariant forall m :: j <= m < |sorted| ==> sorted[m] == index[m]
      invariant TotalSize(sorted) == TotalSize(index)
    {
      var appts := SortBy(sorted[j].appts, StartTime);
      SortBySpec(sorted[j].appts, StartTime);
      TotalSizeUpdate(sorted, j, Bucket(sorted[j].key, appts));
      sorted := sorted[j := Bucket(sorted[j].key, appts)];
      j := j + 1;
    }
  }

  /** `appointmentsByDate`: one bucket per day that has appointments, in order of first
      appearance, each bucket sorted by start time (a stable sort, so equal times keep list
      order). Looking up any day gives that day's appointments sorted by start time. */
  method AppointmentsByDate(appointments: seq<Store.Appointment>, dateOf: int -> Day) returns (index: seq<Bucket>)
    ensures DistinctKeys(index)
    ensures TotalSize(index) == |appointments|
    ensures forall a :: a in appointments ==> FindBucket(index, dateOf(a.dateTime)).Some?
    ensures forall b :: b in index ==> b.appts != [] && SortedBy(b.appts, StartTime)
    ensures forall day :: Lookup(index, day) == SortBy(OnDay(appointments, dateOf, day), StartTime)
  {
    var grouped := GroupByDay(appointments, dateOf);
    index := SortBuckets(grouped);
    SortedIndexLookup(index, grouped, appointments, dateOf);
    forall b | b in index ensures b.appts != [] && SortedBy(b.appts, StartTime) {
      var m :| 0 <= m < |index| && index[m] == b;
      SortBySpec(grouped[m].appts, StartTime);
    }
    forall a | a in appointments ensures FindBucket(index, dateOf(a.dateTime)).Some? {
      var onDay := OnDay(appointments, dateOf, dateOf(a.dateTime));
      SortBySpec(onDay, StartTime);
      assert a in multiset(onDay);
      assert a in SortBy(onDay, StartTime);
    }
  }

  /** `todayAppts`: the appointments on the same local day as `now`, by start time. */
  function TodayAppts(appointments: seq<Store.Appointment>, dateOf: int -> Day, now: int): (r: seq<Store.Appointment>)
    ensures SortedBy(r, StartTime)
    ensures multiset(r) == multiset(OnDay(appointments, dateOf, dateOf(now)))
    ensures forall a :: a in r <==> a in appointments && IsSameDay(dateOf, a.dateTime, now)
  {
    var onDay := OnDay(appointments, dateOf, dateOf(now));
    var sorted := SortBy(onDay, StartTime);
    SortBySpec(onDay, StartTime);
    assert forall a :: a in sorted <==> a in onDay by {
      forall a ensures a in sorted <==> a in onDay {
        assert a in sorted <==> a in multiset(sorted);
        assert a in onDay <==> a in multiset(onDay);
      }
    }
    sorted
  }

  /** `isSameDay`: the two instants fall on the same local (year, month, day). */
  predicate IsSameDay(dateOf: int -> Day, t1: int, t2: int) {
    var d1 := dateOf(t1);
    var d2 := dateOf(t2);
    d1.year == d2.year && d1.month == d2.month && d1.day == d2.day
  }

  /** `selectedDayAppts`: nothing without a selection; otherwise the selected day's bucket,
      or nothing when the day has no bucket. */
  function SelectedDayAppts(index: seq<Bucket>, selected: Option<Day>): (r: seq<Store.Appointment>)
    ensures selected.None? ==> r == []
    ensures selected.Some? && FindBucket(index, selected.value).None? ==> r == []
  {
    match selected
    case None => []
    case Some(day) => Lookup(index, day)
  }

  // ---------------------------------------------------------------------------
  // Creating and deleting appointments
  // ---------------------------------------------------------------------------

  const NameRequired := "Client name is required"
  const DateRequired := "Appointment date is required"
  const TimeRequired := "Appointment time is required"

  /** `parseInt(formDuration, 10) || 60`: a value that does not parse, or parses to 0, gives
      60 minutes. */
  function DurationOf(formDuration: string): (d: int)
    ensures d != 0
    ensures ParseInt(formDuration).Some? && ParseInt(formDuration).value != 0 ==> d == ParseInt(formDuration).value
    ensures ParseInt(formDuration).None? || ParseInt(formDuration) == Some(0) ==> d == 60
  {
    match ParseInt(formDuration)
    case Some(v) => if v != 0 then v else 60
    case None => 60
  }

  /** `handleCreateSession` on the list: the name, date and time are checked in that order;
      on success one appointment is appended. `id` stands for the `appt-<now>-<random>` text
      and `dateTime` for the start the browser computes from the date and time fields. */
  function CreateSession(appointments: seq<Store.Appointment>, formName: string, formAge: string, formDate: string,
                         formTime: string, formDuration: string, id: string, dateTime: int)
    : (r: Outcome<seq<Store.Appointment>>)
    ensures Trim(formName) == [] ==> r == Err(NameRequired)
    ensures Trim(formName) != [] && formDate == [] ==> r == Err(DateRequired)
    ensures Trim(formName) != [] && formDate != [] && formTime == [] ==> r == Err(TimeRequired)
    ensures r.Ok? <==> Trim(formName) != [] && formDate != [] && formTime != []
    ensures r.Ok? ==>
              && |r.value| == |appointments| + 1
              && r.value[..|appointments|] == appointments
              && r.value[|appointments|].id == id
              && r.value[|appointments|].clientName == Trim(formName)
              && r.value[|appointments|].dateTime == dateTime
              && r.value[|appointments|].duration == Some(DurationOf(formDuration))
              && (formAge == [] ==> r.value[|appointments|].clientAge == None)
              && (formAge != [] ==> r.value[|appointments|].clientAge == ParseInt(formAge))
  {
    if Trim(formName) == [] then Err(NameRequired)
    else if formDate == [] then Err(DateRequired)
    else if formTime == [] then Err(TimeRequired)
    else
      var appt := Store.Appointment(id, Trim(formName), if formAge != [] then ParseInt(formAge) else None,
                                    dateTime, Some(DurationOf(formDuration)), None);
      Ok(appointments + [appt])
  }

  /** The calendar page's state: the loaded appointments and clients (whose names the form
      suggests), the shown month and the selected day. */
  class CalendarPage {
    var appointments: seq<Store.Appointment>
    var clients: seq<Store.Client>
    var year: int
    var month: int
    var selectedDay: Option<Day>
    const storage: Store.LocalStorage

    predicate Valid()
      reads this
    {
      0 <= month < 12
    }

    /** Mounting loads the stored appointments and then the clients; each read clears its key
        when the text there is corrupt. */
    constructor (storage: Store.LocalStorage, year: int, month: int)
      requires 0 <= month < 12
      modifies storage
      ensures Valid() && this.storage == storage
      ensures appointments == Store.LoadAppointments(old(storage.items))
      ensures clients == Store.LoadClients(old(storage.items))
      ensures storage.items == Store.AfterRead(Store.AfterRead(old(storage.items), Store.AppointmentsKey), Store.ClientsKey)
      ensures this.year == year && this.month == month && selectedDay == None
    {
      this.storage := storage;
      this.year := year;
      this.month := month;
      selectedDay := None;
      new;
      Store.ReadElsewhere(storage.items, Store.AppointmentsKey, Store.ClientsKey);
      appointments := storage.GetAppointments();
      clients := storage.GetClients();
    }

    /** `prevMonth`: one month back, year carried. */
    method PrevMonth()
      requires Valid()
      modifies this
      ensures Valid() && 12 * year + month == 12 * old(year) + old(month) - 1
      ensures appointments == old(appointments) && selectedDay == old(selectedDay)
    {
      var d := MonthBefore(year, month);
      year, month := d.year, d.month;
    }

    /** `nextMonth`: one month forward, year carried. */
    method NextMonth()
      requires Valid()
      modifies this
      ensures Valid() && 12 * year + month == 12 * old(year) + old(month) + 1
      ensures appointments == old(appointments) && selectedDay == old(selectedDay)
    {
      var d := MonthAfter(year, month);
      year, month := d.year, d.month;
    }

    /** `goToToday`: the grid jumps to today's month; the list and the selection stay. */
    method GoToToday(today: Day)
      requires 0 <= today.month < 12
      modifies this`year, this`month
      ensures Valid() && year == today.year && month == today.month
    {
      year, month := today.year, today.month;
    }

    /** `openNewSession`: the form opens for today, with no day selected. */
    method OpenNewSession()
      modifies this`selectedDay
      ensures selectedDay == None
      ensures forall index :: SelectedDayAppts(index, selectedDay) == []
    {
      selectedDay := None;
    }

    /** `openNewSessionOnDay`: the clicked day becomes the selection, so the side list shows
        that day's bucket. */
    method OpenNewSessionOnDay(day: Day)
      modifies this`selectedDay
      ensures selectedDay == Some(day)
      ensures forall index :: SelectedDayAppts(index, selectedDay) == Lookup(index, day)
    {
      selectedDay := Some(day);
    }

    /** Submits the new-session form: on success the list gains the appointment and is saved;
      on failure the message is returned and nothing changes. */
    method HandleCreateSession(formName: string, formAge: string, formDate: string, formTime: string,
                               formDuration: string, id: string, dateTime: int, written: bool)
      returns (formError: string)
      modifies this, storage
      ensures CreateSession(old(appointments), formName, formAge, formDate, formTime, formDuration, id, dateTime)
              == if formError == "" then Ok(appointments) else Err(formError)
      ensures formError != "" ==> appointments == old(appointments) && storage.items == old(storage.items)
      ensures formError == "" ==>
                storage.items == if written then old(storage.items)[Store.AppointmentsKey := Store.Json(Store.AppointmentsDoc(appointments))]
                                 else old(storage.items)
      ensures year == old(year) && month == old(month) && selectedDay == old(selectedDay)
    {
      match CreateSession(appointments, formName, formAge, formDate, formTime, formDuration, id, dateTime)
      case Err(message) =>
        formError := message;
      case Ok(updated) =>
        formError := "";
        storage.SaveAppointments(updated, written);
        appointments := updated;
    }

    /** `deleteAppointment`: drops the entries with that id and saves the list. */
    method DeleteAppointment(id: string, written: bool)
      modifies this, storage
      ensures appointments == Store.WithoutAppointment(old(appointments), id)
      ensures storage.items == if written then old(storage.items)[Store.AppointmentsKey := Store.Json(Store.AppointmentsDoc(appointments))]
                               else old(storage.items)
      ensures year == old(year) && month == old(month) && selectedDay == old(selectedDay)
    {
      var updated := Store.WithoutAppointment(appointments, id);
      storage.SaveAppointments(updated, written);
      appointments := updated;
    }
  }
}
