/** Day numbers to calendar dates (cli/src/commands/aws.rs:583-595), against the proleptic Gregorian
    calendar defined by its leap years and month lengths. */
module Calendar {
  import Arith

  datatype Date = Date(year: int, month: int, day: int)

  // ---------------------------------------------------------------- the calendar

  predicate Leap(y: int) { y % 4 == 0 && (y % 100 != 0 || y % 400 == 0) }

  function MonthDays(y: int, m: int): int {
    if m == 2 then (if Leap(y) then 29 else 28)
    else if m == 4 || m == 6 || m == 9 || m == 11 then 30
    else 31
  }

  predicate ValidDate(d: Date) { 1 <= d.month <= 12 && 1 <= d.day <= MonthDays(d.year, d.month) }

  function NextDay(d: Date): Date {
    if d.day < MonthDays(d.year, d.month) then Date(d.year, d.month, d.day + 1)
    else if d.month < 12 then Date(d.year, d.month + 1, 1)
    else Date(d.year + 1, 1, 1)
  }

  // ---------------------------------------------------------------- the source's arithmetic

  /** Division as in Rust: towards zero. */
  function Quot(a: int, b: int): int
    requires 0 < b
  {
    if a >= 0 then a / b else -(-a / b)
  }

  const ERA := 146_097

  function YearOfEra(doe: int): int { Quot(doe - Quot(doe, 1_460) + Quot(doe, 36_524) - Quot(doe, 146_096), 365) }

  function CivilFromDays(days: int): Date {
    var z := days + 719_468;
    var era := Quot(if z >= 0 then z else z - 146_096, ERA);
    var doe := z - era * ERA;
    var yoe := YearOfEra(doe);
    var y := yoe + era * 400;
    var doy := doe - (365 * yoe + Quot(yoe, 4) - Quot(yoe, 100));
    var mp := Quot(5 * doy + 2, 153);
    var day := doy - Quot(153 * mp + 2, 5) + 1;
    var month := mp + if mp < 10 then 3 else -9;
    var year := y + if month <= 2 then 1 else 0;
    Date(year, month, day)
  }

  // ---------------------------------------------------------------- years and months that start in March

  /** Days of an era before its year `y`. */
  function YearStart(y: int): int { 365 * y + y / 4 - y / 100 + y / 400 }

  /** Days of a year that starts in March before its month `mp`. */
  function MonthStart(mp: int): int { (153 * mp + 2) / 5 }

  /** The truncating division with its correction rounds down. */
  lemma EraFloor(z: int)
    ensures Quot(if z >= 0 then z else z - 146_096, ERA) == z / ERA
  {
  }

  /** Centuries, four-year cycles, years and days of an era: the last of each may be a day longer. */
  predicate Parts(h: int, q: int, r: int, d: int) {
    && 0 <= h < 4 && 0 <= q < 25 && 0 <= r < 4 && 0 <= d <= 365
    && (d == 365 ==> r == 3 && (q < 24 || h == 3))
  }

  function DayOfEra(h: int, q: int, r: int, d: int): int { 36_524 * h + 1_461 * q + 365 * r + d }

  lemma Split(doe: int) returns (h: int, q: int, r: int, d: int)
    requires 0 <= doe < ERA
    ensures Parts(h, q, r, d) && doe == DayOfEra(h, q, r, d)
  {
    h := if doe < 4 * 36_524 then doe / 36_524 else 3;
    var inCentury := doe - 36_524 * h;
    q := if inCentury < 25 * 1_461 then inCentury / 1_461 else 24;
    var inCycle := inCentury - 1_461 * q;
    r := if inCycle < 4 * 365 then inCycle / 365 else 3;
    d := inCycle - 365 * r;
  }

  /** The correction terms of the formula cancel the leap days of the parts. */
  lemma YearFormula(h: int, q: int, r: int, d: int)
    requires Parts(h, q, r, d)
    ensures YearOfEra(DayOfEra(h, q, r, d)) == 100 * h + 4 * q + r
  {
    var doe := DayOfEra(h, q, r, d);
    var last := if h == 3 && q == 24 && r == 3 && d == 365 then 1 else 0;
    var e := if 24 * h + q + 365 * r + d >= 1_460 then 1 else 0;
    assert doe / 1_460 == 25 * h + q + e;
    assert doe / 36_524 == h + last;
    assert doe / 146_096 == last;
    var t := doe - doe / 1_460 + doe / 36_524 - doe / 146_096;
    assert t == 365 * (100 * h + 4 * q + r) + (d - e) && 0 <= d - e < 365;
  }

  lemma YearOfParts(h: int, q: int, r: int)
    requires 0 <= h < 4 && 0 <= q < 25 && 0 <= r < 4
    ensures var y := 100 * h + 4 * q + r; 0 <= y < 400 && y / 4 == 25 * h + q && y / 100 == h && y % 4 == r
  {
  }

  /** The formula for the year of the era finds the year that the day lies in. */
  lemma YearFound(doe: int)
    requires 0 <= doe < ERA
    ensures var y := YearOfEra(doe);
      0 <= y < 400 && 0 <= doe - YearStart(y) <= 365 && (doe - YearStart(y) == 365 ==> Leap(y + 1))
  {
    hide YearOfEra, Leap;
    var h, q, r, d := Split(doe);
    YearFormula(h, q, r, d);
    YearOfParts(h, q, r);
    assert doe - YearStart(100 * h + 4 * q + r) == d;
    if d == 365 { LeapOfParts(h, q); }
  }

  lemma LeapOfParts(h: int, q: int)
    requires 0 <= h < 4 && 0 <= q < 25 && (q < 24 || h == 3)
    ensures Leap(100 * h + 4 * q + 4)
  {
    assert (100 * h + 4 * q + 4) % 4 == 0;
    if q == 24 { assert (100 * h + 4 * q + 4) % 400 == 0; } else { assert (100 * h + 4 * q + 4) % 100 == 4 * q + 4; }
  }

  lemma MonthFound(doy: int)
    requires 0 <= doy <= 365
    ensures var mp := (5 * doy + 2) / 153; 0 <= mp < 12 && MonthStart(mp) <= doy < MonthStart(mp + 1)
  {
  }

  // ---------------------------------------------------------------- dates as places in an era

  /** Day `d` of month `mp` (March is 0) of year `y` of an era. */
  datatype Place = Place(era: int, y: int, mp: int, d: int)

  function DayOfYear(p: Place): int { MonthStart(p.mp) + p.d - 1 }

  predicate Legal(p: Place) {
    && 0 <= p.y < 400 && 0 <= p.mp < 12 && 1 <= p.d && DayOfYear(p) < MonthStart(p.mp + 1)
    && DayOfYear(p) <= 365 && (DayOfYear(p) == 365 ==> Leap(p.y + 1))
  }

  function Position(p: Place): int { p.era * ERA + YearStart(p.y) + DayOfYear(p) }

  function DateOf(p: Place): Date {
    var month := p.mp + if p.mp < 10 then 3 else -9;
    Date(p.y + p.era * 400 + (if month <= 2 then 1 else 0), month, p.d)
  }

  lemma YearLength(y: int)
    requires 0 <= y < 400
    ensures YearStart(y + 1) == YearStart(y) + if Leap(y + 1) then 366 else 365
  {
    Arith.CountStep(y, 4);
    Arith.CountStep(y, 100);
    Arith.CountStep(y, 400);
  }

  lemma YearsGrow(y: int, y': int)
    requires 0 <= y < y' <= 400
    ensures YearStart(y + 1) <= YearStart(y') <= ERA && 0 <= YearStart(y)
  {
  }

  lemma InYear(p: Place)
    requires Legal(p)
    ensures 0 <= YearStart(p.y) + DayOfYear(p) < YearStart(p.y + 1) <= ERA
  {
    YearLength(p.y);
    YearsGrow(p.y, 400);
    hide YearStart, Leap;
  }

  lemma EraOf(era: int, doe: int)
    requires 0 <= doe < ERA
    ensures (era * ERA + doe) / ERA == era
  {
  }

  /** No two places are the same day. */
  lemma OnePlace(p: Place, q: Place)
    requires Legal(p) && Legal(q) && Position(p) == Position(q)
    ensures p == q
  {
    InYear(p);
    InYear(q);
    EraOf(p.era, YearStart(p.y) + DayOfYear(p));
    EraOf(q.era, YearStart(q.y) + DayOfYear(q));
    if p.y < q.y { YearsGrow(p.y, q.y); }
    if q.y < p.y { YearsGrow(q.y, p.y); }
    hide YearStart, Leap;
    if p.mp < q.mp { MonthsGrow(p.mp, q.mp); }
    if q.mp < p.mp { MonthsGrow(q.mp, p.mp); }
  }

  lemma MonthsGrow(a: int, b: int)
    requires 0 <= a < b
    ensures MonthStart(a + 1) <= MonthStart(b)
  {
  }

  lemma YearStartIs(y: int)
    requires 0 <= y < 400
    ensures 365 * y + Quot(y, 4) - Quot(y, 100) == YearStart(y)
  {
  }

  lemma DayInEra(z: int)
    ensures 0 <= z - z / ERA * ERA < ERA
  {
  }

  /** Every day number has a place, and the source's arithmetic finds its date. */
  lemma PlaceOf(days: int) returns (p: Place)
    ensures Legal(p) && Position(p) == days + 719_468 && CivilFromDays(days) == DateOf(p)
  {
    hide YearOfEra, YearStart, Leap;
    var z := days + 719_468;
    EraFloor(z);
    DayInEra(z);
    var era := z / ERA;
    var doe := z - era * ERA;
    YearFound(doe);
    var y := YearOfEra(doe);
    YearStartIs(y);
    var doy := doe - YearStart(y);
    MonthFound(doy);
    var mp := (5 * doy + 2) / 153;
    p := Place(era, y, mp, doy - MonthStart(mp) + 1);
  }

  lemma LeapEra(y: int, era: int)
    ensures Leap(y + era * 400) == Leap(y)
  {
    Arith.ModAdd(era * 100, y, 4);
    Arith.ModAdd(era * 4, y, 100);
    Arith.ModAdd(era, y, 400);
  }

  /** A legal place is a date of the calendar. */
  lemma PlaceValid(p: Place)
    requires Legal(p)
    ensures ValidDate(DateOf(p))
  {
    LeapEra(p.y + 1, p.era);
    hide Leap, YearStart;
  }

  function NextPlace(p: Place): Place {
    if Legal(p.(d := p.d + 1)) then p.(d := p.d + 1)
    else if p.mp < 11 then Place(p.era, p.y, p.mp + 1, 1)
    else if p.y < 399 then Place(p.era, p.y + 1, 0, 1)
    else Place(p.era + 1, 0, 0, 1)
  }

  lemma NextPlaceIs(p: Place)
    requires Legal(p)
    ensures Legal(NextPlace(p)) && Position(NextPlace(p)) == Position(p) + 1
  {
    YearLength(p.y);
    assert YearStart(400) == ERA && YearStart(0) == 0;
    hide Leap, YearStart;
  }

  lemma NextPlaceDate(p: Place)
    requires Legal(p)
    ensures DateOf(NextPlace(p)) == NextDay(DateOf(p))
  {
    LeapEra(p.y + 1, p.era);
    hide Leap, YearStart;
  }

  /** The day after: for every day number, the date of the next number is the next day's date. */
  lemma CivilSuccessor(days: int)
    ensures ValidDate(CivilFromDays(days)) && CivilFromDays(days + 1) == NextDay(CivilFromDays(days))
  {
    var p := PlaceOf(days);
    var q := PlaceOf(days + 1);
    PlaceValid(p);
    NextPlaceIs(p);
    NextPlaceDate(p);
    OnePlace(NextPlace(p), q);
  }

  /** Day 0 is the first of January 1970. */
  lemma Epoch()
    ensures CivilFromDays(0) == Date(1970, 1, 1)
  {
  }

  // ---------------------------------------------------------------- counting days

  /** Days from the first of January of year 1 to the first of January of `y`. */
  function DaysBeforeYear(y: int): int { 365 * (y - 1) + (y - 1) / 4 - (y - 1) / 100 + (y - 1) / 400 }

  function DaysBeforeMonth(y: int, m: int): int
    decreases m
  {
    if m <= 1 then 0 else DaysBeforeMonth(y, m - 1) + MonthDays(y, m - 1)
  }

  /** Days since the first of January 1970. */
  function DayCount(d: Date): int {
    DaysBeforeYear(d.year) + DaysBeforeMonth(d.year, d.month) + d.day - 1 - DaysBeforeYear(1970)
  }

  lemma YearDays(y: int)
    ensures DaysBeforeYear(y + 1) == DaysBeforeYear(y) + if Leap(y) then 366 else 365
  {
    Arith.CountStep(y - 1, 4);
    Arith.CountStep(y - 1, 100);
    Arith.CountStep(y - 1, 400);
  }

  lemma MonthsOfYear(y: int)
    ensures DaysBeforeMonth(y, 12) + MonthDays(y, 12) == if Leap(y) then 366 else 365
  {
    assert DaysBeforeMonth(y, 2) == 31;
    assert DaysBeforeMonth(y, 5) == DaysBeforeMonth(y, 3) + 61;
    assert DaysBeforeMonth(y, 8) == DaysBeforeMonth(y, 5) + 92;
    assert DaysBeforeMonth(y, 10) == DaysBeforeMonth(y, 8) + 61;
    assert DaysBeforeMonth(y, 12) == DaysBeforeMonth(y, 10) + 61;
  }

  /** The next day counts one more. */
  lemma CountNext(d: Date)
    requires ValidDate(d)
    ensures DayCount(NextDay(d)) == DayCount(d) + 1
  {
    YearDays(d.year);
    MonthsOfYear(d.year);
    hide Leap, DaysBeforeYear;
  }

  /** Day number to date and back, for every day number. */
  lemma {:induction false} CivilCount(days: int)
    ensures ValidDate(CivilFromDays(days)) && DayCount(CivilFromDays(days)) == days
    decreases if days < 0 then -days else days
  {
    hide CivilFromDays, DayCount, NextDay;
    CivilSuccessor(days);
    if days == 0 {
      Epoch();
      EpochCount();
    } else if days > 0 {
      CivilCount(days - 1);
      CivilSuccessor(days - 1);
      CountNext(CivilFromDays(days - 1));
    } else {
      CivilCount(days + 1);
      CountNext(CivilFromDays(days));
    }
  }

  lemma EpochCount()
    ensures DayCount(Date(1970, 1, 1)) == 0
  {
  }

  /** The place of a date. */
  function PlaceAt(d: Date): Place {
    var early := d.month <= 2;
    var y := if early then d.year - 1 else d.year;
    Place(y / 400, y % 400, if early then d.month + 9 else d.month - 3, d.day)
  }

  lemma DatePlace(d: Date)
    requires ValidDate(d)
    ensures Legal(PlaceAt(d)) && DateOf(PlaceAt(d)) == d
  {
    var p := PlaceAt(d);
    LeapEra(p.y + 1, p.era);
    hide Leap, YearStart;
  }

  /** Date to day number and back, for every date of the calendar. */
  lemma CountCivil(d: Date)
    requires ValidDate(d)
    ensures CivilFromDays(DayCount(d)) == d
  {
    DatePlace(d);
    var p := PlaceAt(d);
    var n := Position(p) - 719_468;
    var q := PlaceOf(n);
    OnePlace(p, q);
    CivilCount(n);
  }
}
