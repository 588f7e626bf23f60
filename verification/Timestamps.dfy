/** The UTC timestamp that begins the name of a quarantined copy. */
module Timestamps {
  import opened Calendar

  function Pow10(w: nat): nat {
    if w == 0 then 1 else 10 * Pow10(w - 1)
  }

  function Digit(n: nat): char
    requires n < 10
  {
    '0' + n as char
  }

  /** The last w decimal digits of n. */
  function Dec(n: nat, w: nat): (s: string)
    ensures |s| == w && forall k | 0 <= k < w :: '0' <= s[k] <= '9'
  {
    if w == 0 then "" else Dec(n / 10, w - 1) + [Digit(n % 10)]
  }

  function Width(n: nat): (w: nat)
    ensures w >= 1 && n < Pow10(w) && (w > 1 ==> Pow10(w - 1) <= n)
  {
    if n < 10 then
      assert Pow10(1) == 10;
      1
    else
      var w := Width(n / 10);
      assert n / 10 < Pow10(w) && n < 10 * Pow10(w);
      w + 1
  }

  /** Zero-padded to at least w digits. */
  function Padded(n: nat, w: nat): string {
    Dec(n, if Width(n) > w then Width(n) else w)
  }

  function UtcTimestamp(ms: nat): string {
    StampIsDate(ms);
    Stamp(CivilFromDays(ms / 1000 / 86400), ms / 1000 % 86400, ms % 1000)
  }

  /** The fields of a date, the second of its day and the millisecond, run together. */
  function Stamp(t: Date, rem: nat, ms: nat): string
    requires IsDate(t) && t.y >= 0
  {
    DatePart(t) + ("T" + (ClockPart(rem, ms) + "Z"))
  }

  function DatePart(t: Date): string
    requires IsDate(t) && t.y >= 0
  {
    Padded(t.y, 4) + Padded(t.m, 2) + Padded(t.d, 2)
  }

  function ClockPart(rem: nat, ms: nat): string {
    Padded(rem / 3600, 2) + Padded(rem % 3600 / 60, 2) + Padded(rem % 60, 2) + Padded(ms, 3)
  }

  // ---------- dates in order ----------

  function DateCode(t: Date): int { t.y * 10000 + t.m * 100 + t.d }

  lemma SameDayNumber(s: Date, t: Date)
    requires IsDate(s) && IsDate(t) && DayNumber(s) == DayNumber(t)
    ensures s == t
  {
    CivilInverts(s);
    CivilInverts(t);
  }

  lemma {:induction false} DatesAscend(s: Date, t: Date)
    requires IsDate(s) && IsDate(t) && DayNumber(s) < DayNumber(t)
    ensures DateCode(s) < DateCode(t) && s.y <= t.y
    decreases DayNumber(t) - DayNumber(s)
  {
    var n := NextDay(s);
    DayNumberAdvances(s);
    assert DateCode(s) < DateCode(n) && s.y <= n.y;
    if DayNumber(n) == DayNumber(t) { SameDayNumber(n, t); } else { DatesAscend(n, t); }
  }

  lemma StampIsDate(ms: nat)
    ensures var t := CivilFromDays(ms / 1000 / 86400);
            IsDate(t) && t.y >= 1970 && DayNumber(t) == ms / 1000 / 86400
  {
    var days := ms / 1000 / 86400;
    CivilIsTheDate(days);
    NotBeforeEpoch(CivilFromDays(days));
  }

  /** The stamp of an instant, by its date. */
  lemma StampOf(ms: nat) returns (t: Date)
    ensures IsDate(t) && t.y >= 1970 && DayNumber(t) == ms / 1000 / 86400
    ensures UtcTimestamp(ms) == Stamp(t, ms / 1000 % 86400, ms % 1000)
  {
    StampIsDate(ms);
    t := CivilFromDays(ms / 1000 / 86400);
  }

  lemma NotBeforeEpoch(t: Date)
    requires IsDate(t) && DayNumber(t) >= 0
    ensures t.y >= 1970
  {
    EpochIsZero();
    if DayNumber(t) > 0 { DatesAscend(EPOCH, t); } else { SameDayNumber(EPOCH, t); }
  }

  /** The first millisecond of the year 10000. */
  const LIMIT: nat := 253_402_300_800_000

  lemma YearTenThousand(t: Date)
    requires IsDate(t)
    ensures t.y < 10000 <==> DayNumber(t) < 2932897
  {
    var first, last := Date(10000, 1, 1), Date(9999, 12, 31);
    assert Leaps(9999) == 2424;
    assert DayNumber(first) == 2932897;
    assert NextDay(last) == first;
    DayNumberAdvances(last);
    if DayNumber(t) > DayNumber(first) { DatesAscend(first, t); }
    else if DayNumber(t) == DayNumber(first) { SameDayNumber(first, t); }
    else if DayNumber(t) == DayNumber(last) { SameDayNumber(last, t); }
    else { DatesAscend(t, last); }
  }

  // ---------- fixed width ----------

  lemma WidthBound(n: nat, w: nat)
    requires w >= 1
    ensures Width(n) <= w <==> n < Pow10(w)
  {
    if Width(n) <= w { PowMono(Width(n), w); } else { PowMono(w, Width(n) - 1); }
  }

  lemma {:induction false} PowMono(a: nat, b: nat)
    requires a <= b
    ensures Pow10(a) <= Pow10(b)
    decreases b
  {
    if a < b { PowMono(a, b - 1); }
  }

  lemma Powers()
    ensures Pow10(2) == 100 && Pow10(3) == 1000 && Pow10(4) == 10000
    ensures Pow10(5) == 100_000 && Pow10(7) == 10_000_000 && Pow10(8) == 100_000_000
    ensures Pow10(9) == 1_000_000_000
  {
    assert Pow10(2) == 100;
    assert Pow10(4) == 10000;
    assert Pow10(6) == 1_000_000;
  }

  lemma PaddedShort(n: nat, w: nat)
    requires w >= 1 && n < Pow10(w)
    ensures Padded(n, w) == Dec(n, w)
  {
    WidthBound(n, w);
  }

  /** The stamp is nineteen characters long exactly before the year 10000. */
  lemma FixedWidth(ms: nat)
    ensures |UtcTimestamp(ms)| == 19 <==> ms < LIMIT
    ensures |UtcTimestamp(ms)| >= 19
  {
    var t := StampOf(ms);
    YearTenThousand(t);
    LimitDays(ms);
    StampWidth(t, ms / 1000 % 86400, ms % 1000);
  }

  lemma StampWidth(t: Date, rem: nat, ms: nat)
    requires IsDate(t) && t.y >= 0 && rem < 86400 && ms < 1000
    ensures |Stamp(t, rem, ms)| == 15 + |Padded(t.y, 4)|
    ensures |Padded(t.y, 4)| >= 4 && (|Padded(t.y, 4)| == 4 <==> t.y < 10000)
  {
    Powers();
    WidthBound(t.y, 4);
    PaddedShort(t.m, 2);
    PaddedShort(t.d, 2);
    PaddedShort(rem / 3600, 2);
    PaddedShort(rem % 3600 / 60, 2);
    PaddedShort(rem % 60, 2);
    PaddedShort(ms, 3);
  }

  lemma LimitDays(ms: nat)
    ensures ms / 1000 / 86400 < 2932897 <==> ms < LIMIT
  {
    assert ms / 1000 / 86400 < 2932897 <==> ms / 1000 < 2932897 * 86400;
  }

  // ---------- lexicographic order ----------

  predicate LexLess(u: string, v: string) {
    v != "" && (u == "" || u[0] < v[0] || (u[0] == v[0] && LexLess(u[1..], v[1..])))
  }

  lemma {:induction false} LexHead(u: string, v: string, x: string, y: string)
    requires |u| == |v|
    ensures LexLess(u, v) ==> LexLess(u + x, v + y)
    ensures u == v && LexLess(x, y) ==> LexLess(u + x, v + y)
  {
    if u == "" {
      assert u + x == x && v + y == y;
    } else {
      assert (u + x)[1..] == u[1..] + x && (v + y)[1..] == v[1..] + y;
      LexHead(u[1..], v[1..], x, y);
    }
  }

  /** Numerals of one width are ordered as their numbers are. */
  lemma {:induction false} DecOrder(a: nat, b: nat, w: nat)
    requires a < b < Pow10(w)
    ensures LexLess(Dec(a, w), Dec(b, w))
  {
    if w > 0 {
      if a / 10 < b / 10 { DecOrder(a / 10, b / 10, w - 1); }
      LexHead(Dec(a / 10, w - 1), Dec(b / 10, w - 1), [Digit(a % 10)], [Digit(b % 10)]);
    }
  }

  lemma {:induction false} DecJoin(a: nat, b: nat, v: nat, w: nat)
    requires b < Pow10(w)
    ensures Dec(a, v) + Dec(b, w) == Dec(a * Pow10(w) + b, v + w)
  {
    if w == 0 {
      assert Dec(a, v) + "" == Dec(a, v);
    } else {
      var n := a * Pow10(w) + b;
      assert n == 10 * (a * Pow10(w - 1)) + b;
      assert n / 10 == a * Pow10(w - 1) + b / 10 && n % 10 == b % 10;
      DecJoin(a, b / 10, v, w - 1);
      assert Dec(a, v) + Dec(b, w) == (Dec(a, v) + Dec(b / 10, w - 1)) + [Digit(b % 10)];
    }
  }

  function TimeCode(rem: nat, ms: nat): nat {
    (rem / 3600 * 10000 + rem % 3600 / 60 * 100 + rem % 60) * 1000 + ms
  }

  /** A stamp is the numeral of its date and the numeral of its time of day. */
  lemma StampCodes(t: Date, rem: nat, ms: nat)
    requires IsDate(t) && 0 <= t.y < 10000 && rem < 86400 && ms < 1000
    ensures 0 <= DateCode(t) < Pow10(8) && TimeCode(rem, ms) < Pow10(9)
    ensures Stamp(t, rem, ms) == Dec(DateCode(t), 8) + ("T" + (Dec(TimeCode(rem, ms), 9) + "Z"))
  {
    DateDigits(t);
    ClockCode(rem, ms);
  }

  lemma ClockCode(rem: nat, ms: nat)
    requires rem < 86400 && ms < 1000
    ensures TimeCode(rem, ms) < Pow10(9) && ClockPart(rem, ms) == Dec(TimeCode(rem, ms), 9)
  {
    Powers();
    var h, m, s := rem / 3600, rem % 3600 / 60, rem % 60;
    assert h < 24 && m < 60 && s < 60;
    TimeDigits(h, m, s, ms);
  }

  /** A field set after a numeral; the widths are parameters to keep them symbolic. */
  lemma PaddedJoin(s: string, a: nat, v: nat, b: nat, w: nat, c: nat)
    requires s == Dec(a, v) && w >= 1 && b < Pow10(w) && c == a * Pow10(w) + b
    ensures s + Padded(b, w) == Dec(c, v + w)
  {
    PaddedShort(b, w);
    DecJoin(a, b, v, w);
  }

  lemma DateDigits(t: Date)
    requires IsDate(t) && 0 <= t.y < 10000
    ensures 0 <= DateCode(t) < Pow10(8)
    ensures Padded(t.y, 4) + Padded(t.m, 2) + Padded(t.d, 2) == Dec(DateCode(t), 8)
  {
    Powers();
    FourTwoTwo(t.y, t.m, t.d, 4, 2);
  }

  lemma FourTwoTwo(y: nat, m: nat, d: nat, v: nat, w: nat)
    requires v >= 1 && w >= 1 && y < Pow10(v) && Pow10(w) == 100 && m < 100 && d < 100
    ensures Padded(y, v) + Padded(m, w) + Padded(d, w) == Dec(y * 10000 + m * 100 + d, v + w + w)
  {
    PaddedShort(y, v);
    PaddedJoin(Padded(y, v), y, v, m, w, y * 100 + m);
    PaddedJoin(Padded(y, v) + Padded(m, w), y * 100 + m, v + w, d, w, y * 10000 + m * 100 + d);
  }

  lemma TimeDigits(h: nat, m: nat, s: nat, ms: nat)
    requires h < 24 && m < 60 && s < 60 && ms < 1000
    ensures Padded(h, 2) + Padded(m, 2) + Padded(s, 2) + Padded(ms, 3)
         == Dec((h * 10000 + m * 100 + s) * 1000 + ms, 9)
  {
    Powers();
    TwoTwoTwoThree(h, m, s, ms, 2, 3);
  }

  lemma TwoTwoTwoThree(h: nat, m: nat, s: nat, ms: nat, v: nat, w: nat)
    requires v >= 1 && w >= 1 && Pow10(v) == 100 && Pow10(w) == 1000 && h < 100 && m < 100 && s < 100 && ms < 1000
    ensures Padded(h, v) + Padded(m, v) + Padded(s, v) + Padded(ms, w)
         == Dec((h * 10000 + m * 100 + s) * 1000 + ms, v + v + v + w)
  {
    var c := h * 10000 + m * 100 + s;
    FourTwoTwo(h, m, s, v, v);
    PaddedJoin(Padded(h, v) + Padded(m, v) + Padded(s, v), c, v + v + v, ms, w, c * 1000 + ms);
  }

  lemma TimesAscend(x: nat, u: nat, y: nat, v: nat)
    requires u < 1000 && v < 1000 && (x < y || (x == y && u < v))
    ensures TimeCode(x, u) < TimeCode(y, v)
  {
    if x < y { ClockAscends(x, y); }
  }

  lemma ClockAscends(x: nat, y: nat)
    requires x < y
    ensures x / 3600 * 10000 + x % 3600 / 60 * 100 + x % 60 < y / 3600 * 10000 + y % 3600 / 60 * 100 + y % 60
  {
    var h, m, s := x / 3600, x % 3600 / 60, x % 60;
    var h', m', s' := y / 3600, y % 3600 / 60, y % 60;
    SixtyParts(x);
    SixtyParts(y);
    assert h <= h';
  }

  lemma SixtyParts(x: nat)
    ensures x == 3600 * (x / 3600) + 60 * (x % 3600 / 60) + x % 60
    ensures x % 3600 / 60 < 60
  {
    var r := x % 3600;
    assert x == 3600 * (x / 3600) + r && r == 60 * (r / 60) + r % 60;
    assert x == 60 * (60 * (x / 3600) + r / 60) + r % 60;
  }

  lemma StampOrder(s: Date, x: nat, u: nat, t: Date, y: nat, v: nat)
    requires IsDate(s) && 0 <= s.y < 10000 && x < 86400 && u < 1000
    requires IsDate(t) && 0 <= t.y < 10000 && y < 86400 && v < 1000
    requires DayNumber(s) < DayNumber(t) || (s == t && (x < y || (x == y && u < v)))
    ensures LexLess(Stamp(s, x, u), Stamp(t, y, v))
  {
    StampCodes(s, x, u);
    StampCodes(t, y, v);
    var p, q := Dec(TimeCode(x, u), 9), Dec(TimeCode(y, v), 9);
    if s != t {
      DatesAscend(s, t);
      DecOrder(DateCode(s), DateCode(t), 8);
    } else {
      TimesAscend(x, u, y, v);
      DecOrder(TimeCode(x, u), TimeCode(y, v), 9);
      LexHead(p, q, "Z", "Z");
      LexHead("T", "T", p + "Z", q + "Z");
    }
    LexHead(Dec(DateCode(s), 8), Dec(DateCode(t), 8), "T" + (p + "Z"), "T" + (q + "Z"));
  }

  /** Before the year 10000, stamps are ordered as the instants are; so distinct instants
      have distinct stamps. */
  lemma StampsAscend(a: nat, b: nat)
    requires a < b < LIMIT
    ensures LexLess(UtcTimestamp(a), UtcTimestamp(b)) && UtcTimestamp(a) != UtcTimestamp(b)
  {
    var s := StampOf(a);
    var t := StampOf(b);
    if DayNumber(s) == DayNumber(t) { SameDayNumber(s, t); }
    LimitDays(a);
    LimitDays(b);
    YearTenThousand(s);
    YearTenThousand(t);
    StampOrder(s, a / 1000 % 86400, a % 1000, t, b / 1000 % 86400, b % 1000);
    LexIrreflexive(UtcTimestamp(a));
  }

  lemma {:induction false} LexIrreflexive(u: string)
    ensures !LexLess(u, u)
  {
    if u != "" { LexIrreflexive(u[1..]); }
  }

  // ---------- reading a stamp ----------

  /** The number a decimal numeral stands for. */
  function Value(s: string): int {
    if s == "" then 0 else 10 * Value(s[..|s| - 1]) + (s[|s| - 1] as int - '0' as int)
  }

  lemma {:induction false} DecValue(n: nat, w: nat)
    requires n < Pow10(w)
    ensures Value(Dec(n, w)) == n
  {
    if w > 0 {
      DecValue(n / 10, w - 1);
      assert Dec(n, w)[..w - 1] == Dec(n / 10, w - 1);
    }
  }

  /** Before the year 10000 a stamp reads as the date and the time of its instant: eight digits for year,
      month and day, nine for hour, minute, second and millisecond. */
  lemma StampReads(ms: nat) returns (t: Date, h: nat, m: nat, sec: nat, frac: nat)
    requires ms < LIMIT
    ensures IsDate(t) && h < 24 && m < 60 && sec < 60 && frac < 1000
    ensures ms == (((DayNumber(t) * 24 + h) * 60 + m) * 60 + sec) * 1000 + frac
    ensures var u := UtcTimestamp(ms);
            && |u| == 19 && u[8] == 'T' && u[18] == 'Z'
            && Value(u[..8]) == t.y * 10000 + t.m * 100 + t.d
            && Value(u[9..18]) == (h * 10000 + m * 100 + sec) * 1000 + frac
  {
    t := StampOf(ms);
    var rem := ms / 1000 % 86400;
    h, m, sec, frac := rem / 3600, rem % 3600 / 60, rem % 60, ms % 1000;
    YearTenThousand(t);
    LimitDays(ms);
    FixedWidth(ms);
    SixtyParts(rem);
    StampCodes(t, rem, frac);
    DecValue(DateCode(t), 8);
    DecValue(TimeCode(rem, frac), 9);
    StampParts(Dec(DateCode(t), 8), Dec(TimeCode(rem, frac), 9));
    InstantParts(ms, DayNumber(t), h, m, sec, frac);
  }

  lemma StampParts(a: string, b: string)
    requires |a| == 8 && |b| == 9
    ensures var u := a + ("T" + (b + "Z")); |u| == 19 && u[..8] == a && u[8] == 'T' && u[9..18] == b && u[18] == 'Z'
  {
  }

  lemma InstantParts(ms: nat, days: nat, h: nat, m: nat, sec: nat, frac: nat)
    requires days == ms / 1000 / 86400 && frac == ms % 1000
    requires ms / 1000 % 86400 == 3600 * h + 60 * m + sec
    ensures ms == (((days * 24 + h) * 60 + m) * 60 + sec) * 1000 + frac
  {
    assert ms / 1000 == days * 86400 + (3600 * h + 60 * m + sec);
  }

  /** At the turn of the year 10000 the order is lost. */
  lemma OrderEndsAtLimit(a: nat, b: nat)
    requires a == LIMIT - 1 && b == LIMIT
    ensures LexLess(UtcTimestamp(b), UtcTimestamp(a))
  {
    FirstDigit(a);
    FirstDigit(b);
  }

  lemma FirstDigit(ms: nat)
    requires LIMIT - 1 <= ms <= LIMIT
    ensures UtcTimestamp(ms) != "" && UtcTimestamp(ms)[0] == if ms < LIMIT then '9' else '1'
  {
    var t := StampOf(ms);
    YearAtLimit(ms, t);
    LeadingDigits(t.y);
    StampBegins(t, ms / 1000 % 86400, ms % 1000);
  }

  lemma YearAtLimit(ms: nat, t: Date)
    requires LIMIT - 1 <= ms <= LIMIT && IsDate(t) && DayNumber(t) == ms / 1000 / 86400
    ensures t.y == if ms < LIMIT then 9999 else 10000
  {
    var first, last := Date(10000, 1, 1), Date(9999, 12, 31);
    assert Leaps(9999) == 2424 && NextDay(last) == first;
    assert DayNumber(first) == 2932897;
    DayNumberAdvances(last);
    if ms < LIMIT { SameDayNumber(last, t); } else { SameDayNumber(first, t); }
  }

  lemma StampBegins(t: Date, rem: nat, ms: nat)
    requires IsDate(t) && t.y >= 0
    ensures Stamp(t, rem, ms) != "" && |Padded(t.y, 4)| > 0 && Stamp(t, rem, ms)[0] == Padded(t.y, 4)[0]
  {}

  lemma LeadingDigits(y: nat)
    requires y == 9999 || y == 10000
    ensures |Padded(y, 4)| > 0 && Padded(y, 4)[0] == if y == 9999 then '9' else '1'
  {
    Powers();
    WidthBound(y, 4);
    WidthBound(y, 5);
    if y == 9999 { HeadDigit(9, 9, 9, 9); } else { HeadDigit(1, 0, 0, 0); FifthDigit(1000, 0); }
  }

  lemma FifthDigit(x: nat, d: nat)
    requires x == 1000 && d < 10
    ensures Dec(10 * x + d, 5)[0] == Dec(x, 4)[0]
  {
    assert (10 * x + d) / 10 == x;
  }

  lemma HeadDigit(a: nat, b: nat, c: nat, d: nat)
    requires a < 10 && b < 10 && c < 10 && d < 10
    ensures Dec(1000 * a + 100 * b + 10 * c + d, 4)[0] == Digit(a)
  {
    var n := 1000 * a + 100 * b + 10 * c + d;
    assert n / 10 == 100 * a + 10 * b + c;
    assert n / 10 / 10 == 10 * a + b;
    assert n / 10 / 10 / 10 == a;
    assert Dec(n, 4)[0] == Dec(n / 10, 3)[0];
    assert Dec(n / 10, 3)[0] == Dec(n / 10 / 10, 2)[0];
  }
}
