/** ISO-8601 UTC timestamps with microsecond precision, in the proleptic Gregorian calendar. */
module Timestamps {
  import opened Prelude
  import Strings

  // ----- calendar -----

  const MAX_YEAR: nat := 9999

  predicate IsLeap(y: nat) {
    y % 4 == 0 && (y % 100 != 0 || y % 400 == 0)
  }

  function DaysInMonth(y: nat, m: nat): nat {
    if m == 2 then (if IsLeap(y) then 29 else 28)
    else if m == 4 || m == 6 || m == 9 || m == 11 then 30
    else 31
  }

  /** Days from the start of the year to the start of month `m`; month 13 ends the year. */
  function DaysBeforeMonth(y: nat, m: nat): nat {
    if m <= 1 then 0 else DaysBeforeMonth(y, m - 1) + DaysInMonth(y, m - 1)
  }

  function DaysInYear(y: nat): nat {
    DaysBeforeMonth(y, 13)
  }

  /** Days from 0001-01-01 to the start of year `y`. */
  function DaysBeforeYear(y: nat): nat {
    if y <= 1 then 0 else DaysBeforeYear(y - 1) + DaysInYear(y - 1)
  }

  datatype Date = Date(year: nat, month: nat, day: nat)

  predicate ValidDate(d: Date) {
    1 <= d.year && 1 <= d.month <= 12 && 1 <= d.day <= DaysInMonth(d.year, d.month)
  }

  function DayNumber(d: Date): int {
    DaysBeforeYear(d.year) + DaysBeforeMonth(d.year, d.month) + d.day - 1
  }

  lemma {:induction false} YearHasDays(y: nat)
    ensures DaysInYear(y) == if IsLeap(y) then 366 else 365
  {
    assert DaysBeforeMonth(y, 2) == 31;
    assert DaysBeforeMonth(y, 3) == 31 + DaysInMonth(y, 2);
    assert DaysBeforeMonth(y, 4) == DaysBeforeMonth(y, 3) + 31;
    assert DaysBeforeMonth(y, 5) == DaysBeforeMonth(y, 3) + 61;
    assert DaysBeforeMonth(y, 6) == DaysBeforeMonth(y, 3) + 92;
    assert DaysBeforeMonth(y, 7) == DaysBeforeMonth(y, 3) + 122;
    assert DaysBeforeMonth(y, 8) == DaysBeforeMonth(y, 3) + 153;
    assert DaysBeforeMonth(y, 9) == DaysBeforeMonth(y, 3) + 184;
    assert DaysBeforeMonth(y, 10) == DaysBeforeMonth(y, 3) + 214;
    assert DaysBeforeMonth(y, 11) == DaysBeforeMonth(y, 3) + 245;
    assert DaysBeforeMonth(y, 12) == DaysBeforeMonth(y, 3) + 275;
  }

  function YearOf(day: nat, from: nat): (y: nat)
    requires from >= 1 && DaysBeforeYear(from) <= day
    ensures y >= from && DaysBeforeYear(y) <= day < DaysBeforeYear(y + 1)
    decreases day - DaysBeforeYear(from)
  {
    YearHasDays(from);
    if day < DaysBeforeYear(from + 1) then from else YearOf(day, from + 1)
  }

  function MonthOf(y: nat, day: nat, from: nat): (m: nat)
    requires 1 <= from <= 12 && DaysBeforeMonth(y, from) <= day < DaysInYear(y)
    ensures from <= m <= 12 && DaysBeforeMonth(y, m) <= day < DaysBeforeMonth(y, m + 1)
    decreases 13 - from
  {
    if day < DaysBeforeMonth(y, from + 1) then from else MonthOf(y, day, from + 1)
  }

  /** The calendar date of a day: the inverse of `DayNumber`. */
  function DateOf(day: nat): (d: Date)
    ensures ValidDate(d) && DayNumber(d) == day
  {
    var y := YearOf(day, 1);
    var rest := day - DaysBeforeYear(y);
    var m := MonthOf(y, rest, 1);
    Date(y, m, rest - DaysBeforeMonth(y, m) + 1)
  }

  lemma {:induction false} YearsMonotone(a: nat, b: nat)
    requires 1 <= a <= b
    ensures DaysBeforeYear(a) <= DaysBeforeYear(b)
    decreases b - a
  {
    if a < b { YearsMonotone(a, b - 1); }
  }

  lemma {:induction false} MonthsMonotone(y: nat, a: nat, b: nat)
    requires 1 <= a <= b
    ensures DaysBeforeMonth(y, a) <= DaysBeforeMonth(y, b)
    decreases b - a
  {
    if a < b { MonthsMonotone(y, a, b - 1); }
  }

  lemma {:induction false} DayLiesInMonth(d: Date)
    requires ValidDate(d)
    ensures DaysBeforeYear(d.year) + DaysBeforeMonth(d.year, d.month) <= DayNumber(d)
            < DaysBeforeYear(d.year) + DaysBeforeMonth(d.year, d.month + 1) <= DaysBeforeYear(d.year + 1)
  {
    MonthsMonotone(d.year, d.month + 1, 13);
  }

  /** Earlier days have smaller year, month and day, compared in that order. */
  lemma {:induction false} DaysOrderDates(a: Date, b: Date)
    requires ValidDate(a) && ValidDate(b) && DayNumber(a) < DayNumber(b)
    ensures a.year <= b.year
    ensures a.year == b.year ==> a.month <= b.month
    ensures a.year == b.year && a.month == b.month ==> a.day < b.day
  {
    DayLiesInMonth(a);
    DayLiesInMonth(b);
    if b.year < a.year { YearsMonotone(b.year + 1, a.year); }
    if a.year == b.year && b.month < a.month { MonthsMonotone(a.year, b.month + 1, a.month); }
  }

  // ----- rendering -----

  function Digit(n: nat): char
    requires n < 10
  {
    "0123456789"[n]
  }

  /** `n` in decimal, padded with zeros to `width`. */
  function Pad(n: nat, width: nat): (s: string)
    ensures |s| == width
  {
    if width == 0 then "" else Pad(n / 10, width - 1) + [Digit(n % 10)]
  }

  function Capacity(width: nat): nat {
    if width == 0 then 1 else 10 * Capacity(width - 1)
  }

  lemma {:induction false} PadOrder(a: nat, b: nat, width: nat)
    requires a < Capacity(width) && b < Capacity(width)
    ensures Strings.Less(Pad(a, width), Pad(b, width)) <==> a < b
    ensures Pad(a, width) == Pad(b, width) <==> a == b
  {
    if width > 0 {
      PadOrder(a / 10, b / 10, width - 1);
      var p, q := Pad(a / 10, width - 1), Pad(b / 10, width - 1);
      Strings.LessConcat(p, q, [Digit(a % 10)], [Digit(b % 10)]);
      if Pad(a, width) == Pad(b, width) {
        assert p == Pad(a, width)[..width - 1] && q == Pad(b, width)[..width - 1];
        assert Pad(a, width)[width - 1] == Pad(b, width)[width - 1];
      }
    }
  }

  /** One fixed-width field and the text that follows it. */
  datatype Field = Field(width: nat, suffix: string)

  const LAYOUT: seq<Field> :=
    [Field(4, "-"), Field(2, "-"), Field(2, "T"), Field(2, ":"), Field(2, ":"), Field(2, "."), Field(6, "Z")]

  function Render(layout: seq<Field>, values: seq<nat>): string
    requires |layout| == |values|
  {
    if layout == [] then ""
    else Pad(values[0], layout[0].width) + layout[0].suffix + Render(layout[1..], values[1..])
  }

  predicate Before(a: seq<nat>, b: seq<nat>)
    requires |a| == |b|
  {
    a != [] && (a[0] < b[0] || (a[0] == b[0] && Before(a[1..], b[1..])))
  }

  predicate FitsLayout(layout: seq<Field>, values: seq<nat>) {
    |layout| == |values| && forall i :: 0 <= i < |values| ==> values[i] < Capacity(layout[i].width)
  }

  /** Strings rendered with one layout compare as their values do. */
  lemma {:induction false} RenderOrder(layout: seq<Field>, a: seq<nat>, b: seq<nat>)
    requires FitsLayout(layout, a) && FitsLayout(layout, b)
    ensures Strings.Less(Render(layout, a), Render(layout, b)) <==> Before(a, b)
  {
    if layout != [] {
      var w, suffix := layout[0].width, layout[0].suffix;
      PadOrder(a[0], b[0], w);
      RenderOrder(layout[1..], a[1..], b[1..]);
      var x, y := Render(layout[1..], a[1..]), Render(layout[1..], b[1..]);
      Strings.LessConcat(Pad(a[0], w) + suffix, Pad(b[0], w) + suffix, x, y);
      Strings.LessConcat(Pad(a[0], w), Pad(b[0], w), suffix, suffix);
      Strings.Total(suffix, suffix);
      if Pad(a[0], w) + suffix == Pad(b[0], w) + suffix {
        assert Pad(a[0], w) == (Pad(a[0], w) + suffix)[..w];
        assert Pad(b[0], w) == (Pad(b[0], w) + suffix)[..w];
      }
    }
  }

  // ----- instants -----

  const DAY: nat := 86_400_000_000

  /** A `datetime`: local microseconds since 0001-01-01T00:00:00 and, when aware, its offset. */
  datatype DateTime = DateTime(local: int, offset: Option<int>)

  /** `_normalize_timestamp`: the UTC instant; a naive value is taken to be UTC. */
  function Instant(d: DateTime): int {
    if d.offset.Some? then d.local - d.offset.value else d.local
  }

  /** The instants `datetime` can represent. */
  predicate InRange(t: int) {
    0 <= t && DateOf(t / DAY).year <= MAX_YEAR
  }

  function DateValues(d: Date): seq<nat> {
    [d.year, d.month, d.day]
  }

  /** Hour, minute, second and microsecond of a time of day. */
  function ClockValues(us: nat): seq<nat> {
    [us / 3_600_000_000, us / 60_000_000 % 60, us / 1_000_000 % 60, us % 1_000_000]
  }

  function Values(t: int): seq<nat>
    requires t >= 0
  {
    DateValues(DateOf(t / DAY)) + ClockValues(t % DAY)
  }

  /** `_format_utc_timestamp` */
  function Format(t: int): string
    requires InRange(t)
  {
    Render(LAYOUT, Values(t))
  }

  lemma {:induction false} ValuesFit(t: int)
    requires InRange(t)
    ensures FitsLayout(LAYOUT, Values(t))
  {
    var d := DateOf(t / DAY);
    var us := t % DAY;
    assert Capacity(2) == 100 && Capacity(4) == 10_000;
    assert Capacity(6) == 100 * Capacity(4);
    assert d.day <= 31;
    assert us / 3_600_000_000 < 24;
    var values := Values(t);
    assert values == [d.year, d.month, d.day,
                      us / 3_600_000_000, us / 60_000_000 % 60, us / 1_000_000 % 60, us % 1_000_000];
    assert |LAYOUT| == |values| == 7;
  }

  lemma {:induction false} BeforeConcat(a: seq<nat>, b: seq<nat>, x: seq<nat>, y: seq<nat>)
    requires |a| == |b| && |x| == |y|
    ensures Before(a + x, b + y) <==> Before(a, b) || (a == b && Before(x, y))
  {
    if a == [] {
      assert a + x == x && b + y == y;
    } else {
      assert (a + x)[1..] == a[1..] + x && (b + y)[1..] == b[1..] + y;
      BeforeConcat(a[1..], b[1..], x, y);
      assert a == [a[0]] + a[1..] && b == [b[0]] + b[1..];
    }
  }

  lemma {:induction false} DateOrder(a: Date, b: Date)
    requires ValidDate(a) && ValidDate(b) && DayNumber(a) < DayNumber(b)
    ensures Before(DateValues(a), DateValues(b))
  {
    DaysOrderDates(a, b);
    BeforeConcat([a.year], [b.year], [a.month, a.day], [b.month, b.day]);
    BeforeConcat([a.month], [b.month], [a.day], [b.day]);
    assert DateValues(a) == [a.year] + [a.month, a.day] && DateValues(b) == [b.year] + [b.month, b.day];
    assert [a.month, a.day] == [a.month] + [a.day] && [b.month, b.day] == [b.month] + [b.day];
  }

  lemma {:induction false} SplitClock(us: nat) returns (h: nat, m: nat, s: nat, f: nat)
    ensures ClockValues(us) == [h, m] + [s, f] && [h, m] == [h] + [m] && [s, f] == [s] + [f]
    ensures us == ((h * 60 + m) * 60 + s) * 1_000_000 + f
    ensures m < 60 && s < 60 && f < 1_000_000
  {
    var seconds := us / 1_000_000;
    var minutes := seconds / 60;
    assert minutes == us / 60_000_000;
    assert minutes / 60 == us / 3_600_000_000;
    h, m, s, f := minutes / 60, minutes % 60, seconds % 60, us % 1_000_000;
  }

  lemma {:induction false} ClockOrder(a: nat, b: nat)
    requires a < b
    ensures Before(ClockValues(a), ClockValues(b))
  {
    var h, m, s, f := SplitClock(a);
    var h', m', s', f' := SplitClock(b);
    BeforeConcat([h, m], [h', m'], [s, f], [s', f']);
    BeforeConcat([h], [h'], [m], [m']);
    BeforeConcat([s], [s'], [f], [f']);
  }

  lemma {:induction false} ValuesOrder(a: int, b: int)
    requires 0 <= a < b
    ensures Before(Values(a), Values(b))
  {
    var da, db := DateOf(a / DAY), DateOf(b / DAY);
    BeforeConcat(DateValues(da), DateValues(db), ClockValues(a % DAY), ClockValues(b % DAY));
    if a / DAY < b / DAY {
      DateOrder(da, db);
    } else {
      ClockOrder(a % DAY, b % DAY);
    }
  }

  /** Lexicographic order on formatted timestamps is chronological order. */
  lemma {:induction false} FormatOrder(a: int, b: int)
    requires InRange(a) && InRange(b)
    ensures Strings.Less(Format(a), Format(b)) <==> a < b
    ensures Format(a) == Format(b) <==> a == b
  {
    ValuesFit(a);
    ValuesFit(b);
    RenderOrder(LAYOUT, Values(a), Values(b));
    RenderOrder(LAYOUT, Values(b), Values(a));
    if a < b { ValuesOrder(a, b); }
    if b < a { ValuesOrder(b, a); }
    Strings.Total(Format(a), Format(b));
    Strings.Total(Format(a), Format(a));
  }

  // ----- reading timestamps back -----

  function Number(s: string): nat {
    if s == "" then 0
    else
      var c := s[|s| - 1];
      Number(s[..|s| - 1]) * 10 + if '0' <= c <= '9' then c as int - '0' as int else 0
  }

  lemma {:induction false} NumberOfPad(n: nat, width: nat)
    requires n < Capacity(width)
    ensures Number(Pad(n, width)) == n
  {
    if width > 0 {
      NumberOfPad(n / 10, width - 1);
      assert Pad(n, width)[..width - 1] == Pad(n / 10, width - 1);
    }
  }

  /** Reads fixed-width fields, each followed by its text. */
  function Parse(layout: seq<Field>, s: string): Option<seq<nat>> {
    if layout == [] then (if s == "" then Some([]) else None)
    else
      var w := layout[0].width;
      var rest := w + |layout[0].suffix|;
      if |s| < rest || s[w..rest] != layout[0].suffix then None
      else
        var tail := Parse(layout[1..], s[rest..]);
        if tail.None? then None else Some([Number(s[..w])] + tail.value)
  }

  lemma {:induction false} ParseOfRender(layout: seq<Field>, values: seq<nat>)
    requires FitsLayout(layout, values)
    ensures Parse(layout, Render(layout, values)) == Some(values)
  {
    if layout != [] {
      ParseOfRender(layout[1..], values[1..]);
      var w, suffix := layout[0].width, layout[0].suffix;
      var field, tail := Pad(values[0], w), Render(layout[1..], values[1..]);
      NumberOfPad(values[0], w);
      var s := field + suffix + tail;
      assert s[..w] == field && s[w..w + |suffix|] == suffix && s[w + |suffix|..] == tail;
      assert [values[0]] + values[1..] == values;
    }
  }

  /** The instant that year, month, day, hour, minute, second and microsecond denote. */
  function FromValues(v: seq<nat>): int
    requires |v| == 7
  {
    DayNumber(Date(v[0], v[1], v[2])) * DAY + ((v[3] * 60 + v[4]) * 60 + v[5]) * 1_000_000 + v[6]
  }

  /** A timestamp reads back as the instant it was made from. */
  lemma {:induction false} FormatReadsBack(t: int)
    requires InRange(t)
    ensures var v := Parse(LAYOUT, Format(t));
            v.Some? && |v.value| == 7 && FromValues(v.value) == t
  {
    ValuesFit(t);
    ParseOfRender(LAYOUT, Values(t));
    var h, m, s, f := SplitClock(t % DAY);
    var d := DateOf(t / DAY);
    assert Values(t) == [d.year, d.month, d.day] + [h, m] + [s, f];
    hide Parse, Render, ClockValues, DayNumber;
  }

  lemma {:induction false} RenderOne(layout: seq<Field>, values: seq<nat>)
    requires |layout| == |values| > 0 && |layout[0].suffix| == 1
    ensures var s, rest, w := Render(layout, values), Render(layout[1..], values[1..]), layout[0].width;
            |s| == w + 1 + |rest| && s[w] == layout[0].suffix[0] && s[w + 1..] == rest
  {
  }

  /** The punctuation of a timestamp: YYYY-MM-DDThh:mm:ss.ffffffZ. */
  lemma {:induction false} FormatIsIso(t: int)
    requires InRange(t)
    ensures var s := Format(t);
            && |s| == 27 && s[4] == '-' && s[7] == '-' && s[10] == 'T'
            && s[13] == ':' && s[16] == ':' && s[19] == '.' && s[26] == 'Z'
  {
    ValuesFit(t);
    var v := Values(t);
    ClockIsIso(v[3..]);
    RenderOne(LAYOUT, v);
    RenderOne(LAYOUT[1..], v[1..]);
    RenderOne(LAYOUT[2..], v[2..]);
    hide Render, Values, FitsLayout;
    assert LAYOUT[1..][1..] == LAYOUT[2..] && LAYOUT[2..][1..] == LAYOUT[3..];
    assert v[1..][1..] == v[2..] && v[2..][1..] == v[3..];
    var date := Render(LAYOUT, v);
    assert date[11..] == Render(LAYOUT[3..], v[3..]) by { Tails(date); }
  }

  lemma {:induction false} Tails(s: string)
    requires |s| >= 11
    ensures s[5..][3..][3..] == s[11..]
  {
  }

  lemma {:induction false} ClockIsIso(v: seq<nat>)
    requires |v| == 4
    ensures var s := Render(LAYOUT[3..], v);
            |s| == 16 && s[2] == ':' && s[5] == ':' && s[8] == '.' && s[15] == 'Z'
  {
    var layout := LAYOUT[3..];
    RenderOne(layout, v);
    RenderOne(layout[1..], v[1..]);
    RenderOne(layout[2..], v[2..]);
    RenderOne(layout[3..], v[3..]);
    RenderNothing(layout[4..], v[4..]);
    hide Render;
    assert layout[1..][1..] == layout[2..] && layout[2..][1..] == layout[3..] && layout[3..][1..] == layout[4..];
    assert v[1..][1..] == v[2..] && v[2..][1..] == v[3..] && v[3..][1..] == v[4..];
  }

  lemma {:induction false} RenderNothing(layout: seq<Field>, values: seq<nat>)
    requires layout == [] && values == []
    ensures Render(layout, values) == ""
  {
  }

  /** The leap years from 1 to `n`: one in four, but not the centuries, except one in four of those. */
  function LeapYears(n: nat): int {
    n / 4 - n / 100 + n / 400
  }

  lemma {:induction false} QuotientSteps(n: nat)
    requires n >= 1
    ensures n / 4 - (n - 1) / 4 == if n % 4 == 0 then 1 else 0
    ensures n / 100 - (n - 1) / 100 == if n % 100 == 0 then 1 else 0
    ensures n / 400 - (n - 1) / 400 == if n % 400 == 0 then 1 else 0
  {
  }

  lemma {:induction false} CenturiesAreMultiples(n: nat)
    ensures n % 400 == 0 ==> n % 100 == 0
    ensures n % 100 == 0 ==> n % 4 == 0
  {
    assert n % 400 == 0 ==> n == 100 * (4 * (n / 400));
    assert n % 100 == 0 ==> n == 4 * (25 * (n / 100));
  }

  lemma {:induction false} LeapYearsStep(n: nat)
    requires n >= 1
    ensures LeapYears(n) == LeapYears(n - 1) + if IsLeap(n) then 1 else 0
  {
    QuotientSteps(n);
    CenturiesAreMultiples(n);
  }

  /** The days before a year, counted by its leap years. */
  lemma {:induction false} DaysBeforeYearInClosedForm(y: nat)
    requires y >= 1
    ensures DaysBeforeYear(y) == 365 * (y - 1) + LeapYears(y - 1)
  {
    if y > 1 {
      DaysBeforeYearInClosedForm(y - 1);
      YearHasDays(y - 1);
      LeapYearsStep(y - 1);
      hide LeapYears, IsLeap, DaysInYear;
    }
  }

  /** A wall clock that is `ahead` of UTC shows a later time for the same instant; a naive reading is
      taken to be UTC. */
  lemma {:induction false} OffsetsAreSubtracted(utc: int, ahead: int, other: DateTime)
    ensures Instant(DateTime(utc + ahead, Some(ahead))) == Instant(DateTime(utc, None)) == utc
    ensures var offset := if other.offset.Some? then other.offset.value else 0;
            Instant(other) == utc <==> other.local == utc + offset
  {
  }
}
