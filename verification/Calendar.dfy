/** Civil dates from day numbers, and the timestamp that names a quarantined copy. */
module Calendar {

  datatype Date = Date(y: int, m: int, d: int)

  // ---------- the Gregorian calendar ----------

  predicate Leap(y: int) {
    y % 4 == 0 && (y % 100 != 0 || y % 400 == 0)
  }

  function MonthLength(y: int, m: int): int {
    if m == 2 then (if Leap(y) then 29 else 28)
    else if m == 4 || m == 6 || m == 9 || m == 11 then 30 else 31
  }

  predicate IsDate(t: Date) {
    1 <= t.m <= 12 && 1 <= t.d <= MonthLength(t.y, t.m)
  }

  function NextDay(t: Date): Date {
    if t.d < MonthLength(t.y, t.m) then Date(t.y, t.m, t.d + 1)
    else if t.m < 12 then Date(t.y, t.m + 1, 1)
    else Date(t.y + 1, 1, 1)
  }

  const EPOCH := Date(1970, 1, 1)

  // ---------- the algorithm ----------

  /** Integer division that truncates toward zero. */
  function TruncDiv(a: int, b: int): int
    requires b > 0
  {
    if a >= 0 then a / b else -((-a) / b)
  }

  function CivilFromDays(days: int): Date {
    var z := days + 719468;
    var era := TruncDiv(if z >= 0 then z else z - 146096, 146097);
    var doe := z - era * 146097;
    var yoe := YearOfEra(doe);
    var y := yoe + era * 400;
    var doy := doe - (365 * yoe + yoe / 4 - yoe / 100);
    var mp := (5 * doy + 2) / 153;
    var d := doy - (153 * mp + 2) / 5 + 1;
    var m := if mp < 10 then mp + 3 else mp - 9;
    Date(if m <= 2 then y + 1 else y, m, d)
  }

  function YearOfEra(doe: int): int {
    (doe - doe / 1460 + doe / 36524 - doe / 146096) / 365
  }

  // ---------- day numbers ----------

  /** Leap years up to and including year y, counted from year 1. */
  function Leaps(y: int): int { y / 4 - y / 100 + y / 400 }

  function DaysBeforeMonth(y: int, m: int): int
    requires 1 <= m <= 13
    decreases m
  {
    if m == 1 then 0 else DaysBeforeMonth(y, m - 1) + MonthLength(y, m - 1)
  }

  /** Days from the epoch, by whole years, whole months and days. */
  function DayNumber(t: Date): int
    requires 1 <= t.m <= 12
  {
    365 * (t.y - 1) + Leaps(t.y - 1) + DaysBeforeMonth(t.y, t.m) + t.d - 1 - 719162
  }

  lemma LeapCounts(y: int)
    ensures Leaps(y) - Leaps(y - 1) == if Leap(y) then 1 else 0
  {
    Steps(y, 4);
    Steps(y, 100);
    Steps(y, 400);
    Multiples(y);
  }

  lemma Multiples(y: int)
    ensures y % 100 == 0 ==> y % 4 == 0
    ensures y % 400 == 0 ==> y % 100 == 0
  {
    if y % 100 == 0 { assert y == 4 * (25 * (y / 100)); }
    if y % 400 == 0 { assert y == 100 * (4 * (y / 400)); }
  }

  lemma Steps(y: int, k: int)
    requires k == 4 || k == 100 || k == 400
    ensures y / k - (y - 1) / k == if y % k == 0 then 1 else 0
  {}

  lemma MonthTable(y: int)
    ensures DaysBeforeMonth(y, 1) == 0 && DaysBeforeMonth(y, 2) == 31
    ensures var f := if Leap(y) then 60 else 59;
            && DaysBeforeMonth(y, 3) == f && DaysBeforeMonth(y, 4) == f + 31
            && DaysBeforeMonth(y, 5) == f + 61 && DaysBeforeMonth(y, 6) == f + 92
            && DaysBeforeMonth(y, 7) == f + 122 && DaysBeforeMonth(y, 8) == f + 153
            && DaysBeforeMonth(y, 9) == f + 184 && DaysBeforeMonth(y, 10) == f + 214
            && DaysBeforeMonth(y, 11) == f + 245 && DaysBeforeMonth(y, 12) == f + 275
            && DaysBeforeMonth(y, 13) == f + 306
  {
    var f := if Leap(y) then 60 else 59;
    assert DaysBeforeMonth(y, 3) == f;
    assert DaysBeforeMonth(y, 5) == f + 61;
    assert DaysBeforeMonth(y, 7) == f + 122;
    assert DaysBeforeMonth(y, 9) == f + 184;
    assert DaysBeforeMonth(y, 11) == f + 245;
  }

  /** The day number advances by one from each date to the next. */
  lemma DayNumberAdvances(t: Date)
    requires IsDate(t)
    ensures IsDate(NextDay(t)) && DayNumber(NextDay(t)) == DayNumber(t) + 1
  {
    if t.d == MonthLength(t.y, t.m) && t.m == 12 {
      MonthTable(t.y);
      LeapCounts(t.y);
    }
  }

  // ---------- the algorithm inverts the day number ----------

  /** Year n = 100c + 4q + k of an era, and day r of that year, counted from March. */
  lemma YearFound(c: int, q: int, k: int, r: int)
    requires 0 <= c <= 3 && 0 <= q <= 24 && 0 <= k <= 3 && 0 <= r <= 365
    requires r == 365 ==> k == 3 && (q != 24 || c == 3)
    ensures YearOfEra(36524 * c + 1461 * q + 365 * k + r) == 100 * c + 4 * q + k
  {
    var doe := 36524 * c + 1461 * q + 365 * k + r;
    var e := if 24 * c + q + 365 * k + r >= 1460 then 1 else 0;
    assert doe == 1460 * (25 * c + q) + (24 * c + q + 365 * k + r);
    assert doe / 1460 == 25 * c + q + e;
    var last := if q == 24 && k == 3 && r == 365 then 1 else 0;
    assert doe / 36524 == c + last;
    assert doe / 146096 == last;
    var num := doe - doe / 1460 + doe / 36524 - doe / 146096;
    assert num == 365 * (100 * c + 4 * q + k) + (r - e);
    assert 0 <= r - e < 365;
  }

  lemma YearFoundByNumber(n: int, r: int)
    requires 0 <= n < 400 && 0 <= r <= 365
    requires r == 365 ==> Leap(n + 1)
    ensures YearOfEra(365 * n + n / 4 - n / 100 + r) == n
  {
    var c := n / 100;
    var q := n % 100 / 4;
    var k := n % 4;
    assert n == 100 * c + 4 * q + k;
    assert n / 4 == 25 * c + q;
    YearFound(c, q, k, r);
  }

  /** Month mp counted from March, day t of it. */
  lemma MonthFound(mp: int, t: int)
    requires 0 <= mp <= 11 && 0 <= t < 31
    requires (mp == 1 || mp == 3 || mp == 6 || mp == 8) ==> t < 30
    requires mp == 11 ==> t < 29
    ensures var doy := (153 * mp + 2) / 5 + t; (5 * doy + 2) / 153 == mp
  {
    var doy := (153 * mp + 2) / 5 + t;
    assert 153 * mp <= 5 * doy + 2 < 153 * (mp + 1);
  }

  /** The last steps of the algorithm, once the era and the year of the era are known. */
  lemma CivilOfEra(days: int, era: int, n: int, mp: int, t: int)
    requires 0 <= mp <= 11
    requires var z := days + 719468;
             && TruncDiv(if z >= 0 then z else z - 146096, 146097) == era
             && YearOfEra(z - era * 146097) == n
             && z - era * 146097 - (365 * n + n / 4 - n / 100) == (153 * mp + 2) / 5 + t
    requires (5 * ((153 * mp + 2) / 5 + t) + 2) / 153 == mp
    ensures var m := if mp < 10 then mp + 3 else mp - 9;
            CivilFromDays(days) == Date(400 * era + n + (if m <= 2 then 1 else 0), m, t + 1)
  {
  }

  lemma PartsBounded(n: int, mp: int, t: int)
    requires 0 <= n < 400 && 0 <= mp <= 11 && 0 <= t < 31
    requires (mp == 1 || mp == 3 || mp == 6 || mp == 8) ==> t < 30
    requires mp == 11 ==> t < (if Leap(n + 1) then 29 else 28)
    ensures var r := (153 * mp + 2) / 5 + t; 0 <= r <= 365 && (r == 365 ==> Leap(n + 1))
  {
    assert mp < 11 ==> (153 * mp + 2) / 5 <= 306;
  }

  /** A day number written as era, March-based year of the era, March-based month and day. */
  lemma CivilFromParts(era: int, n: int, mp: int, t: int)
    requires 0 <= n < 400 && 0 <= mp <= 11 && 0 <= t < 31
    requires (mp == 1 || mp == 3 || mp == 6 || mp == 8) ==> t < 30
    requires mp == 11 ==> t < (if Leap(n + 1) then 29 else 28)
    ensures var m := if mp < 10 then mp + 3 else mp - 9;
            CivilFromDays(146097 * era + 365 * n + n / 4 - n / 100 + (153 * mp + 2) / 5 + t - 719468)
              == Date(400 * era + n + (if m <= 2 then 1 else 0), m, t + 1)
  {
    var r := (153 * mp + 2) / 5 + t;
    PartsBounded(n, mp, t);
    var doe := 365 * n + n / 4 - n / 100 + r;
    YearInEra(n, r);
    EraFound(era, doe);
    YearFoundByNumber(n, r);
    MonthFound(mp, t);
    CivilOfEra(146097 * era + doe - 719468, era, n, mp, t);
  }

  lemma YearInEra(n: int, r: int)
    requires 0 <= n < 400 && 0 <= r <= 365 && (r == 365 ==> Leap(n + 1))
    ensures 0 <= 365 * n + n / 4 - n / 100 + r < 146097
  {
    assert n / 4 <= 99 && 0 <= n / 4 - n / 100;
    if n == 399 { assert n / 4 == 99 && n / 100 == 3; } else { assert n <= 398; }
  }

  lemma EraFound(era: int, doe: int)
    requires 0 <= doe < 146097
    ensures var z := 146097 * era + doe;
            TruncDiv(if z >= 0 then z else z - 146096, 146097) == era
  {
    var z := 146097 * era + doe;
    if z >= 0 {
      assert z / 146097 == era;
    } else {
      var w := -(z - 146096);
      assert w == 146097 * (-era) + (146096 - doe);
      assert w / 146097 == -era;
    }
  }

  lemma LeapsOfEra(era: int, n: int)
    requires 0 <= n < 400
    ensures Leaps(400 * era + n) == 97 * era + n / 4 - n / 100
  {
    var y := 400 * era + n;
    assert y / 4 == 100 * era + n / 4;
    assert y / 100 == 4 * era + n / 100;
    assert y / 400 == era;
  }

  /** The day number in March-based parts. */
  lemma DayNumberParts(t: Date, era: int, n: int, mp: int)
    requires IsDate(t) && 0 <= n < 400
    requires 400 * era + n == if t.m <= 2 then t.y - 1 else t.y
    requires mp == if t.m <= 2 then t.m + 9 else t.m - 3
    ensures DayNumber(t) == 146097 * era + 365 * n + n / 4 - n / 100 + (153 * mp + 2) / 5 + t.d - 1 - 719468
  {
    LeapsOfEra(era, n);
    MonthTable(t.y);
    if t.m > 2 { LeapCounts(t.y); }
  }

  lemma MarchMonths(t: Date, era: int, n: int, mp: int)
    requires IsDate(t) && 400 * era + n == if t.m <= 2 then t.y - 1 else t.y
    requires mp == if t.m <= 2 then t.m + 9 else t.m - 3
    ensures 0 <= mp <= 11 && t.d <= 31 && ((mp == 1 || mp == 3 || mp == 6 || mp == 8) ==> t.d <= 30)
    ensures mp == 11 ==> t.d <= (if Leap(n + 1) then 29 else 28)
  {
    LeapShift(era, n);
  }

  lemma CivilInvertsParts(t: Date, era: int, n: int, mp: int)
    requires IsDate(t) && 0 <= n < 400
    requires 400 * era + n == if t.m <= 2 then t.y - 1 else t.y
    requires mp == if t.m <= 2 then t.m + 9 else t.m - 3
    ensures CivilFromDays(DayNumber(t)) == t
  {
    var days := DayNumber(t);
    DayNumberParts(t, era, n, mp);
    MarchMonths(t, era, n, mp);
    CivilFromParts(era, n, mp, t.d - 1);
    assert days == 146097 * era + 365 * n + n / 4 - n / 100 + (153 * mp + 2) / 5 + (t.d - 1) - 719468;
  }

  lemma CivilInverts(t: Date)
    requires IsDate(t)
    ensures CivilFromDays(DayNumber(t)) == t
  {
    var y := if t.m <= 2 then t.y - 1 else t.y;
    CivilInvertsParts(t, y / 400, y % 400, if t.m <= 2 then t.m + 9 else t.m - 3);
  }

  lemma LeapShift(era: int, n: int)
    ensures Leap(400 * era + n + 1) <==> Leap(n + 1)
  {
    SameRemainder(100 * era, n + 1, 4);
    SameRemainder(4 * era, n + 1, 100);
    SameRemainder(era, n + 1, 400);
  }

  lemma SameRemainder(q: int, x: int, k: int)
    requires k == 4 || k == 100 || k == 400
    ensures (k * q + x) % k == x % k
  {}

  // ---------- the theorem, for every day number ----------

  function PrevDay(t: Date): Date {
    if t.d > 1 then Date(t.y, t.m, t.d - 1)
    else if t.m > 1 then Date(t.y, t.m - 1, MonthLength(t.y, t.m - 1))
    else Date(t.y - 1, 12, 31)
  }

  lemma {:induction false} SomeDateHas(days: int) returns (t: Date)
    ensures IsDate(t) && DayNumber(t) == days
    decreases if days < 0 then -days else days
  {
    if days == 0 {
      t := EPOCH;
      assert Leaps(1969) == 477;
    } else if days > 0 {
      var s := SomeDateHas(days - 1);
      t := NextDay(s);
      DayNumberAdvances(s);
    } else {
      var s := SomeDateHas(days + 1);
      t := PrevDay(s);
      assert NextDay(t) == s;
      DayNumberAdvances(t);
    }
  }

  /** Every day number yields a valid date, the only one with that number. */
  lemma CivilIsTheDate(days: int)
    ensures IsDate(CivilFromDays(days)) && DayNumber(CivilFromDays(days)) == days
    ensures forall t | IsDate(t) && DayNumber(t) == days :: t == CivilFromDays(days)
  {
    var s := SomeDateHas(days);
    CivilInverts(s);
    forall t | IsDate(t) && DayNumber(t) == days ensures t == CivilFromDays(days) {
      CivilInverts(t);
    }
  }

  lemma EpochIsZero()
    ensures DayNumber(EPOCH) == 0 && CivilFromDays(0) == EPOCH
  {
    assert Leaps(1969) == 477;
    CivilInverts(EPOCH);
  }

  /** The dates follow one another day by day, in both directions from the epoch. */
  lemma CivilFollowsCalendar(days: int)
    ensures CivilFromDays(days + 1) == NextDay(CivilFromDays(days))
  {
    var t := SomeDateHas(days);
    CivilInverts(t);
    NextDate(t, days + 1);
  }

  lemma NextDate(t: Date, next: int)
    requires IsDate(t) && DayNumber(t) + 1 == next
    ensures CivilFromDays(next) == NextDay(t)
  {
    DayNumberAdvances(t);
    CivilInverts(NextDay(t));
  }
}
