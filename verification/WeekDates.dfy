/**
 ISO weeks (mission-control/scripts/scorecard.ts): the week of an instant and the window of a week, two
 calendar computations that are inverse to each other (ISO 8601:2004, section 3.2.2).
 */
module WeekDates {
  import opened Options
  import opened Decimals

  const DAY: int := 86400000

  predicate IsLeap(y: int) { y % 4 == 0 && (y % 100 != 0 || y % 400 == 0) }

  /** Leap years up to and including `y`, but for a constant. */
  function Leaps(y: int): int { y / 4 - y / 100 + y / 400 }

  /** The day number of 1 January, counted from 1 January 1970. */
  function JanFirst(y: int): int { 365 * (y - 1970) + Leaps(y - 1) - Leaps(1969) }

  lemma {:induction false} YearLength(y: int)
    ensures JanFirst(y + 1) == JanFirst(y) + if IsLeap(y) then 366 else 365
  {
    LeapStep(y);
  }

  lemma {:induction false} LeapStep(y: int)
    ensures Leaps(y) == Leaps(y - 1) + if IsLeap(y) then 1 else 0
  {
    DivStep(y, 4);
    DivStep(y, 100);
    DivStep(y, 400);
  }

  lemma {:induction false} DivStep(y: int, m: int)
    requires m == 4 || m == 100 || m == 400
    ensures y / m == (y - 1) / m + if y % m == 0 then 1 else 0
  {
  }

  lemma {:induction false} YearsGrow(a: int, b: int)
    requires a <= b
    ensures JanFirst(b) >= JanFirst(a) + 365 * (b - a)
    decreases b - a
  {
    if a < b {
      YearsGrow(a, b - 1);
      YearLength(b - 1);
    }
  }

  /** getUTCFullYear of a day. */
  function YearOf(day: int): int { if day >= JanFirst(1970) then YearUp(day, 1970) else YearDown(day, 1969) }

  function YearUp(day: int, y: int): int
    requires day >= JanFirst(y)
    decreases day - JanFirst(y)
  {
    YearLength(y);
    if day < JanFirst(y + 1) then y else YearUp(day, y + 1)
  }

  function YearDown(day: int, y: int): int
    requires day < JanFirst(y + 1)
    decreases JanFirst(y + 1) - day
  {
    YearLength(y);
    if day >= JanFirst(y) then y else YearDown(day, y - 1)
  }

  predicate InYear(day: int, y: int) { JanFirst(y) <= day < JanFirst(y + 1) }

  lemma {:induction false} YearUpFits(day: int, y: int)
    requires day >= JanFirst(y)
    ensures InYear(day, YearUp(day, y))
    decreases day - JanFirst(y)
  {
    YearLength(y);
    if day >= JanFirst(y + 1) { YearUpFits(day, y + 1); }
  }

  lemma {:induction false} YearDownFits(day: int, y: int)
    requires day < JanFirst(y + 1)
    ensures InYear(day, YearDown(day, y))
    decreases JanFirst(y + 1) - day
  {
    YearLength(y);
    if day < JanFirst(y) { YearDownFits(day, y - 1); }
  }

  lemma {:induction false} OneYear(day: int, y: int, z: int)
    requires InYear(day, y) && InYear(day, z)
    ensures y == z
  {
    if y < z { YearsGrow(y + 1, z); }
    if z < y { YearsGrow(z + 1, y); }
  }

  /** A day lies in exactly one year. */
  lemma {:induction false} YearFits(day: int, y: int)
    ensures InYear(day, YearOf(day)) && (InYear(day, y) <==> YearOf(day) == y)
  {
    if day >= JanFirst(1970) { YearUpFits(day, 1970); } else { YearDownFits(day, 1969); }
    if InYear(day, y) { OneYear(day, y, YearOf(day)); }
  }

  /** Date.UTC(year, 0, 1) as a day: the years 0 to 99 are taken for 1900 to 1999. */
  function UtcJanFirst(y: int): int { JanFirst(if 0 <= y <= 99 then 1900 + y else y) }

  /** getUTCDay: 0 is Sunday. 1 January 1970 was a Thursday. */
  function WeekDay(day: int): int { (day + 4) % 7 }

  datatype Window = Window(start: int, end: int)

  /** `${n}` */
  function IntText(n: int): string { if n >= 0 then Numeral(n) else "-" + Numeral(-n) }

  /** String(wk).padStart(2, '0') */
  function Padded(wk: int): string { if 0 <= wk < 10 then "0" + Numeral(wk) else IntText(wk) }

  function WeekName(y: int, wk: int): string { IntText(y) + ("-W" + Padded(wk)) }

  /**
   Date.UTC of a day's own year, month and date: for the years 0 to 99 it lands in 1900 to 1999, where
   29 February of the year 0 does not exist and becomes 1 March.
   */
  function Midnight(day: int): int {
    var y := YearOf(day);
    var n := day - JanFirst(y);
    if 0 <= y <= 99 then JanFirst(1900 + y) + n - (if y == 0 && n > 59 then 1 else 0) else day
  }

  /** The Thursday of the week a day lies in. */
  function ThursdayOf(day: int): int { Midnight(day) + 3 - (WeekDay(day) + 6) % 7 }

  /** The ISO year and week of a Thursday. */
  function YearWeek(thursday: int): (int, int) {
    var y := YearOf(thursday);
    (y, (thursday - UtcJanFirst(y)) / 7 + 1)
  }

  /** isoWeekOf. */
  function IsoWeekOf(ms: int): string {
    var (y, w) := YearWeek(ThursdayOf(ms / DAY));
    WeekName(y, w)
  }

  /** The Monday of a year's first week, the week 4 January lies in. */
  function FirstMonday(y: int): int {
    var jan4 := UtcJanFirst(y) + 3;
    jan4 - (WeekDay(jan4) + 6) % 7
  }

  datatype Parsed = Parsed(year: nat, week: nat)

  /** /^(\d{4})-W(\d{2})$/ */
  function ParseWeek(s: string): Option<Parsed> {
    if |s| == 8 && AllDigits(s[..4]) && s[4..6] == "-W" && AllDigits(s[6..])
    then Some(Parsed(Value(s[..4]), Value(s[6..]))) else None
  }

  /** The Monday of a parsed week. */
  function Start(p: Parsed): int { FirstMonday(p.year) * DAY + (p.week - 1) * DAY * 7 }

  /** The window of a parsed week, if the week's name comes back from its Thursday. */
  function WindowOf(week: string, p: Parsed): Option<Window> {
    WindowFrom(week, p.week, Start(p))
  }

  function WindowFrom(week: string, w: nat, start: int): Option<Window> {
    if w < 1 || IsoWeekOf(start + 3 * DAY) != week then None else Some(Window(start, start + 7 * DAY))
  }

  /** isoWeekWindow: None where the code throws. */
  function IsoWeekWindow(week: string): Option<Window> {
    match ParseWeek(week)
    case None => None
    case Some(p) => WindowOf(week, p)
  }

  // ------------------------------------------------------------------ arithmetic of sevens

  lemma {:induction false} Sevens(day: int)
    ensures day + 3 - (WeekDay(day) + 6) % 7 == 7 * ((day + 3) / 7)
  {
  }

  lemma {:induction false} FirstSeven(j: int)
    ensures (j + 6) / 7 == (j + 3 + 3) / 7
    ensures j + 3 - (WeekDay(j + 3) + 6) % 7 == 7 * ((j + 6) / 7) - 3
  {
    Sevens(j + 3);
  }

  lemma {:induction false} SevensFrom(q: int, j: int)
    ensures (7 * q - j) / 7 == q - (j + 6) / 7
  {
  }

  lemma {:induction false} SevensIn(j: int, n: int)
    requires n == 365 || n == 366
    ensures (j + n + 6) / 7 == (j + 6) / 7 + if WeekDay(j) == 4 || (n == 366 && WeekDay(j) == 3) then 53 else 52
  {
    var a, b := (j + 6) / 7, (j + 6) % 7;
    assert j + 4 == 7 * a + b - 2;
    assert j + n + 6 == 7 * (a + 52) + b + (n - 364);
  }

  /** A multiple of seven lies between two days when its quotient does. */
  lemma {:induction false} SevenBetween(q: int, j: int)
    ensures 7 * q >= j <==> q >= (j + 6) / 7
  {
  }

  // ------------------------------------------------------------------ weeks by number

  /** The first Thursday of a year; Thursdays are counted from 1 January 1970. */
  function FirstThursday(y: int): int { (JanFirst(y) + 6) / 7 }

  predicate LongYear(y: int) { WeekDay(JanFirst(y)) == 4 || (IsLeap(y) && WeekDay(JanFirst(y)) == 3) }

  function WeeksIn(y: int): nat { if LongYear(y) then 53 else 52 }

  /** A year has 53 Thursdays exactly when it starts on one, or on a Wednesday in a leap year. */
  lemma {:induction false} YearHasWeeks(y: int)
    ensures FirstThursday(y + 1) == FirstThursday(y) + WeeksIn(y)
  {
    YearLength(y);
    SevensIn(JanFirst(y), if IsLeap(y) then 366 else 365);
  }

  /** The weeks of a year are the Thursdays in it. */
  lemma {:induction false} YearOfThursday(q: int, y: int)
    ensures YearOf(7 * q) == y <==> 1 <= q - FirstThursday(y) + 1 <= WeeksIn(y)
  {
    YearFits(7 * q, y);
    SevenBetween(q, JanFirst(y));
    SevenBetween(q, JanFirst(y + 1));
    YearHasWeeks(y);
  }

  /** A day of a year outside 0 to 99 is its own midnight. */
  lemma {:induction false} PlainThursday(day: int)
    requires day >= JanFirst(100)
    ensures ThursdayOf(day) == 7 * ((day + 3) / 7)
  {
    YearFits(day, YearOf(day));
    if YearOf(day) < 100 { YearsGrow(YearOf(day) + 1, 100); }
    Sevens(day);
  }

  /** The week of a Thursday in the year `y`. */
  function WeekAt(y: int, q: int): int { q - FirstThursday(y) + 1 }

  lemma {:induction false} WeekOfThursday(q: int, y: int)
    requires YearOf(7 * q) == y && y >= 100
    ensures YearWeek(7 * q) == (y, WeekAt(y, q))
  {
    SevensFrom(q, JanFirst(y));
  }

  /** The number of the Thursday in an instant's week. */
  function Week(ms: int): int { (ms / DAY + 3) / 7 }

  /** The instants of a week, from its Monday. */
  function Span(q: int): Window { Window((7 * q - 3) * DAY, (7 * q + 4) * DAY) }

  predicate Within(ms: int, w: Window) { w.start <= ms < w.end }

  /** Every instant lies in exactly one span, and each span starts where the one before ends. */
  lemma {:induction false} SpansPartition(ms: int, q: int)
    ensures Within(ms, Span(q)) <==> Week(ms) == q
    ensures Span(q).end == Span(q + 1).start && Span(q).end - Span(q).start == 7 * DAY
  {
    var d, r := ms / DAY, ms % DAY;
    assert ms == d * DAY + r;
    assert (7 * q - 3) * DAY <= ms <==> 7 * q - 3 <= d;
    assert ms < (7 * q + 4) * DAY <==> d < 7 * q + 4;
  }

  /** The name of a week from the Thursdays of its year. */
  lemma {:induction false} NameOfWeek(ms: int)
    requires ms / DAY >= JanFirst(100) + 3
    ensures var q := Week(ms); IsoWeekOf(ms) == WeekName(YearOf(7 * q), WeekAt(YearOf(7 * q), q))
  {
    var q := Week(ms);
    PlainThursday(ms / DAY);
    YearFits(7 * q, YearOf(7 * q));
    if YearOf(7 * q) < 100 { YearsGrow(YearOf(7 * q) + 1, 100); }
    WeekOfThursday(q, YearOf(7 * q));
  }

  // ------------------------------------------------------------------ names

  lemma {:induction false} NumeralLength(n: nat)
    ensures |Numeral(n)| >= 1
    ensures |Numeral(n)| == 1 <==> n < 10
    ensures |Numeral(n)| <= 2 <==> n < 100
    ensures |Numeral(n)| <= 3 <==> n < 1000
    ensures |Numeral(n)| <= 4 <==> n < 10000
  {
    if n >= 10 { NumeralLength(n / 10); }
  }

  lemma {:induction false} PaddedReads(w: int)
    ensures |Padded(w)| == 2 && AllDigits(Padded(w)) <==> 0 <= w <= 99
    ensures 0 <= w <= 99 ==> Value(Padded(w)) == w
  {
    if w < 0 {
      assert Padded(w)[0] == '-';
    } else {
      NumeralReads(w);
      NumeralLength(w);
      if w < 10 {
        assert Padded(w) == "0" + Numeral(w);
        assert Padded(w)[..1][..0] == "";
        ValueJoins("0", Numeral(w));
      }
    }
  }

  lemma {:induction false} TextParses(t: string, u: string)
    requires t != "" && (AllDigits(t) || t[0] == '-')
    ensures var s := t + ("-W" + u);
      ParseWeek(s) == if |t| == 4 && AllDigits(t) && |u| == 2 && AllDigits(u) then Some(Parsed(Value(t), Value(u))) else None
  {
    var s := t + ("-W" + u);
    assert s[|t|] == '-' && s[0] == t[0];
    if |s| == 8 {
      if |t| == 4 {
        assert s[..4] == t && s[4..6] == "-W" && s[6..] == u;
      } else if |t| < 4 {
        assert s[..4][|t|] == '-';
      } else {
        assert s[4..6][0] == t[4];
        assert s[..4][0] == t[0];
      }
    }
  }

  /** A printed week parses exactly when its year has four digits and its week two; it reads back. */
  lemma {:induction false} NameParses(y: int, w: int)
    ensures ParseWeek(WeekName(y, w)) == if 1000 <= y <= 9999 && 0 <= w <= 99 then Some(Parsed(y, w)) else None
  {
    PaddedReads(w);
    if y < 0 {
      assert IntText(y)[0] == '-';
    } else {
      NumeralReads(y);
      NumeralLength(y);
    }
    TextParses(IntText(y), Padded(w));
  }

  predicate Exists(y: int, w: int) { 1000 <= y <= 9999 && 1 <= w <= WeeksIn(y) }

  /** The Thursday of week `w` of the year `y`. */
  function ThursdayAt(y: int, w: int): int { FirstThursday(y) + w - 1 }

  /** The Thursdays of the years 1000 to 9999 are far from the first century. */
  lemma {:induction false} FarFromZero(y: int, w: int)
    requires y >= 1000 && w >= 0
    ensures 7 * ThursdayAt(y, w) - 3 >= JanFirst(100) + 3
  {
    YearsGrow(100, y);
  }

  lemma {:induction false} StartIs(y: int, w: int)
    requires y >= 100 && w >= 0
    ensures Start(Parsed(y, w)) + 3 * DAY == 7 * ThursdayAt(y, w) * DAY
  {
    FirstSeven(JanFirst(y));
  }

  lemma {:induction false} SameName(y: int, w: int, y': int, w': int)
    requires 1000 <= y <= 9999 && 0 <= w <= 99
    ensures WeekName(y, w) == WeekName(y', w') <==> y == y' && w == w'
  {
    NameParses(y, w);
    NameParses(y', w');
  }

  /** The week that starts three days before a week's Thursday comes back exactly when it exists. */
  lemma {:induction false} ComesBack(y: int, w: int)
    requires 1000 <= y <= 9999 && 1 <= w <= 99
    ensures IsoWeekOf(7 * ThursdayAt(y, w) * DAY) == WeekName(y, w) <==> Exists(y, w)
  {
    var q := ThursdayAt(y, w);
    var m := 7 * q * DAY;
    assert m / DAY == 7 * q && Week(m) == q;
    FarFromZero(y, w);
    NameOfWeek(m);
    SameName(y, w, YearOf(7 * q), WeekAt(YearOf(7 * q), q));
    YearOfThursday(q, y);
  }

  /** A week that parses has a window exactly when it exists, and then it is its Thursday's span. */
  lemma {:induction false} WindowIs(y: int, w: int)
    requires 1000 <= y <= 9999 && 0 <= w <= 99
    ensures IsoWeekWindow(WeekName(y, w)) == if Exists(y, w) then Some(Span(ThursdayAt(y, w))) else None
  {
    NameParses(y, w);
    StartIs(y, w);
    if w >= 1 { ComesBack(y, w); }
    WindowFromIs(WeekName(y, w), w, Start(Parsed(y, w)), ThursdayAt(y, w));
  }

  lemma {:induction false} WindowFromIs(week: string, w: nat, start: int, q: int)
    requires start + 3 * DAY == 7 * q * DAY
    ensures WindowFrom(week, w, start) == if w >= 1 && IsoWeekOf(7 * q * DAY) == week then Some(Span(q)) else None
  {
  }

  /** isoWeekWindow accepts exactly the names of the weeks that exist, week 53 in long years only. */
  lemma {:induction false} AcceptedExactly(week: string)
    ensures IsoWeekWindow(week).Some? <==> exists y, w :: Exists(y, w) && week == WeekName(y, w)
  {
    if IsoWeekWindow(week).Some? {
      var (y, w) := Accepted(week);
      WindowIs(y, w);
      assert Exists(y, w) && week == WeekName(y, w);
    }
    if y, w :| Exists(y, w) && week == WeekName(y, w) { WindowIs(y, w); }
  }

  /** The year and week of a name that is accepted. */
  ghost function Accepted(week: string): (r: (int, int))
    requires IsoWeekWindow(week).Some?
    ensures 1000 <= r.0 <= 9999 && 0 <= r.1 <= 99 && week == WeekName(r.0, r.1)
  {
    var m := Start(ParseWeek(week).value) + 3 * DAY;
    var r := YearWeek(ThursdayOf(m / DAY));
    NameParses(r.0, r.1);
    r
  }

  /**
   The window of an instant's week holds the instant exactly when its ISO year has four digits; the
   instants of the years 0 to 99 are misnamed, since Date.UTC takes those years for 1900 to 1999.
   */
  lemma {:induction false} RoundTrip(ms: int)
    ensures var r := IsoWeekWindow(IsoWeekOf(ms));
      r.Some? && Within(ms, r.value) <==> 1000 <= YearOf(7 * Week(ms)) <= 9999
  {
    var r := IsoWeekWindow(IsoWeekOf(ms));
    if r.Some? && Within(ms, r.value) {
      var (y, w) := Accepted(IsoWeekOf(ms));
      WindowIs(y, w);
      SpansPartition(ms, ThursdayAt(y, w));
      YearOfThursday(Week(ms), y);
    }
    var q := Week(ms);
    if 1000 <= YearOf(7 * q) <= 9999 {
      NamedByWeek(ms);
      WindowIs(YearOf(7 * q), WeekAt(YearOf(7 * q), q));
      SpansPartition(ms, q);
    }
  }

  /** An instant with a four-digit ISO year is named by that year and a week that exists. */
  lemma {:induction false} NamedByWeek(ms: int)
    requires 1000 <= YearOf(7 * Week(ms)) <= 9999
    ensures var (q, y) := (Week(ms), YearOf(7 * Week(ms)));
      IsoWeekOf(ms) == WeekName(y, WeekAt(y, q)) && Exists(y, WeekAt(y, q)) && ThursdayAt(y, WeekAt(y, q)) == q
  {
    var q := Week(ms);
    var y := YearOf(7 * q);
    YearOfThursday(q, y);
    FarFromZero(y, WeekAt(y, q));
    assert ms / DAY >= 7 * q - 3;
    NameOfWeek(ms);
  }

  /** The windows are the fibres of isoWeekOf: an instant lies in the window of its own week and of no other. */
  lemma {:induction false} WindowHoldsExactly(ms: int, y: int, w: int)
    requires Exists(y, w)
    requires 1000 <= YearOf(7 * Week(ms)) <= 9999
    ensures var r := IsoWeekWindow(WeekName(y, w));
      r.Some? && (Within(ms, r.value) <==> IsoWeekOf(ms) == WeekName(y, w))
  {
    var q := Week(ms);
    WindowIs(y, w);
    SpansPartition(ms, ThursdayAt(y, w));
    NamedByWeek(ms);
    SameName(y, w, YearOf(7 * q), WeekAt(YearOf(7 * q), q));
    YearOfThursday(q, y);
  }

  /** The week after, in the same year or the next. */
  function NextWeek(y: int, w: int): (int, int) { if w < WeeksIn(y) then (y, w + 1) else (y + 1, 1) }

  predicate Meet(a: Option<Window>, b: Option<Window>) {
    a.Some? && b.Some? && a.value.end == b.value.start && a.value.end - a.value.start == 7 * DAY
  }

  lemma {:induction false} NextThursday(y: int, w: int)
    requires Exists(y, w)
    ensures var n := NextWeek(y, w); ThursdayAt(n.0, n.1) == ThursdayAt(y, w) + 1 && 1 <= n.1 <= WeeksIn(n.0)
  {
    YearHasWeeks(y);
  }

  lemma {:induction false} SpansMeet(q: int)
    ensures Meet(Some(Span(q)), Some(Span(q + 1)))
  {
    SpansPartition(0, q);
  }

  /** Consecutive windows meet, seven days each. */
  lemma {:induction false} WindowsMeet(y: int, w: int)
    requires Exists(y, w) && NextWeek(y, w).0 <= 9999
    ensures var n := NextWeek(y, w); Meet(IsoWeekWindow(WeekName(y, w)), IsoWeekWindow(WeekName(n.0, n.1)))
  {
    var n := NextWeek(y, w);
    WindowIs(y, w);
    WindowIs(n.0, n.1);
    NextThursday(y, w);
    SpansMeet(ThursdayAt(y, w));
  }
}
