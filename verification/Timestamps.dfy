/** UTC instants as the services print them, and why comparing the printed texts compares the instants. */
module Timestamps {
  import opened TextOrder

  /** `datetime` in UTC: proleptic Gregorian date, time of day, microseconds. */
  datatype DateTime = DateTime(year: int, month: int, day: int, hour: int, minute: int, second: int, micro: int) {
    predicate Valid() {
      && 1 <= year <= 9999 && 1 <= month <= 12 && 1 <= day <= DaysInMonth(year, month)
      && 0 <= hour < 24 && 0 <= minute < 60 && 0 <= second < 60 && 0 <= micro < 1000000
    }

    /** Days since the day before 0001-01-01. */
    function Ordinal(): int { DaysBeforeYear(year) + DaysBeforeMonth(year, month) + day }

    function Seconds(): int { Ordinal() * 86400 + hour * 3600 + minute * 60 + second }

    /** The instant itself, in microseconds. */
    function Instant(): int { Seconds() * 1000000 + micro }

    function DateText(): (r: string)
      requires Valid()
    {
      Digits(year, 4) + "-" + Digits(month, 2) + "-" + Digits(day, 2)
    }

    function TimeText(): (r: string)
      requires Valid()
    {
      Digits(hour, 2) + ":" + Digits(minute, 2) + ":" + Digits(second, 2)
    }

    /** No fraction at all when there are no microseconds, six digits otherwise. */
    function TailText(): (r: string)
      requires Valid()
    {
      (if micro == 0 then "" else "." + Digits(micro, 6)) + "+00:00"
    }

    /** `isoformat`. */
    function Text(): (r: string)
      requires Valid()
    {
      (DateText() + "T") + (TimeText() + TailText())
    }
  }

  predicate Leap(year: int) { year % 4 == 0 && (year % 100 != 0 || year % 400 == 0) }

  function DaysInMonth(year: int, month: int): (d: int)
    ensures 28 <= d <= 31
  {
    if month == 2 then (if Leap(year) then 29 else 28)
    else if month in {4, 6, 9, 11} then 30 else 31
  }

  function DaysBeforeYear(year: int): int {
    var y := year - 1;
    y * 365 + y / 4 - y / 100 + y / 400
  }

  function DaysBeforeMonth(year: int, month: int): (d: int) {
    if month <= 1 then 0 else DaysBeforeMonth(year, month - 1) + DaysInMonth(year, month - 1)
  }

  // ---- the calendar is monotone -----------------------------------------------------------

  lemma {:induction false} MonthsMonotone(year: int, m: int, n: int)
    requires 1 <= m < n
    ensures DaysBeforeMonth(year, m) + DaysInMonth(year, m) <= DaysBeforeMonth(year, n)
  {
    if m < n - 1 { MonthsMonotone(year, m, n - 1); }
  }

  lemma {:induction false} MonthsAddUp(year: int)
    ensures DaysBeforeMonth(year, 13) == if Leap(year) then 366 else 365
  {
    hide Leap;
    var d := if Leap(year) then 1 else 0;
    assert DaysBeforeMonth(year, 1) == 0;
    assert DaysBeforeMonth(year, 2) == 31;
    assert DaysBeforeMonth(year, 3) == 59 + d;
    assert DaysBeforeMonth(year, 4) == 90 + d;
    assert DaysBeforeMonth(year, 5) == 120 + d;
    assert DaysBeforeMonth(year, 6) == 151 + d;
    assert DaysBeforeMonth(year, 7) == 181 + d;
    assert DaysBeforeMonth(year, 8) == 212 + d;
    assert DaysBeforeMonth(year, 9) == 243 + d;
    assert DaysBeforeMonth(year, 10) == 273 + d;
    assert DaysBeforeMonth(year, 11) == 304 + d;
    assert DaysBeforeMonth(year, 12) == 334 + d;
  }

  lemma {:induction false} YearLength(year: int)
    ensures DaysBeforeYear(year + 1) == DaysBeforeYear(year) + DaysBeforeMonth(year, 13)
  {
    MonthsAddUp(year);
    hide DaysBeforeMonth;
    Quotient4(year);
    Quotient100(year);
    Quotient400(year);
  }

  lemma {:induction false} Quotient4(y: int)
    ensures y / 4 - (y - 1) / 4 == if y % 4 == 0 then 1 else 0
  {
  }

  lemma {:induction false} Quotient100(y: int)
    ensures y / 100 - (y - 1) / 100 == if y % 100 == 0 then 1 else 0
    ensures y % 100 == 0 ==> y % 4 == 0
  {
    if y % 100 == 0 { assert y == 4 * (25 * (y / 100)); }
  }

  lemma {:induction false} Quotient400(y: int)
    ensures y / 400 - (y - 1) / 400 == if y % 400 == 0 then 1 else 0
    ensures y % 400 == 0 ==> y % 100 == 0
  {
    if y % 400 == 0 { assert y == 100 * (4 * (y / 400)); }
  }

  lemma {:induction false} YearsMonotone(a: int, b: int)
    requires 1 <= a < b
    ensures DaysBeforeYear(a) + DaysBeforeMonth(a, 13) <= DaysBeforeYear(b)
    decreases b
  {
    YearLength(a);
    if a < b - 1 {
      YearsMonotone(a, b - 1);
      YearLength(b - 1);
    }
  }

  /** A later date has the larger ordinal. */
  lemma {:induction false} DatesMonotone(a: DateTime, b: DateTime)
    requires a.Valid() && b.Valid()
    requires a.year < b.year || (a.year == b.year && (a.month < b.month || (a.month == b.month && a.day < b.day)))
    ensures a.Ordinal() < b.Ordinal()
  {
    if a.year < b.year {
      YearsMonotone(a.year, b.year);
      MonthsMonotone(a.year, a.month, 13);
      if b.month > 1 { MonthsMonotone(b.year, 1, b.month); }
    } else if a.month < b.month {
      MonthsMonotone(a.year, a.month, b.month);
    }
  }

  /** Field by field, most significant first. */
  predicate Earlier(a: DateTime, b: DateTime) {
    a.year < b.year || (a.year == b.year && (
    a.month < b.month || (a.month == b.month && (
    a.day < b.day || (a.day == b.day && (
    a.hour < b.hour || (a.hour == b.hour && (
    a.minute < b.minute || (a.minute == b.minute && (
    a.second < b.second || (a.second == b.second && a.micro < b.micro)))))))))))
  }

  lemma {:induction false} EarlierIsBefore(a: DateTime, b: DateTime)
    requires a.Valid() && b.Valid() && Earlier(a, b)
    ensures a.Instant() < b.Instant()
  {
    if (a.year, a.month, a.day) != (b.year, b.month, b.day) { DatesMonotone(a, b); }
    hide DaysBeforeYear, DaysBeforeMonth, DaysInMonth;
    assert a.Ordinal() <= b.Ordinal();
    assert a.Seconds() <= b.Seconds();
  }

  lemma {:induction false} InstantOrder(a: DateTime, b: DateTime)
    requires a.Valid() && b.Valid()
    ensures Earlier(a, b) <==> a.Instant() < b.Instant()
    ensures a.Instant() == b.Instant() <==> a == b
  {
    if Earlier(a, b) {
      EarlierIsBefore(a, b);
    } else if Earlier(b, a) {
      EarlierIsBefore(b, a);
    } else {
      assert a == b;
    }
  }

  // ---- fixed-width numerals ---------------------------------------------------------------

  function Power10(w: nat): (p: nat)
    ensures p >= 1
  {
    if w == 0 then 1 else 10 * Power10(w - 1)
  }

  function Digit(d: int): char
    requires 0 <= d < 10
  {
    ('0' as int + d) as char
  }

  /** `n` zero-padded to `w` digits. */
  function Digits(n: int, w: nat): (r: string)
    requires 0 <= n
    ensures |r| == w
  {
    if w == 0 then "" else Digits(n / 10, w - 1) + [Digit(n % 10)]
  }

  /** Texts of one length compare before whatever follows them. */
  lemma {:induction false} LessConcat(p: string, q: string, x: string, y: string)
    requires |p| == |q|
    ensures Less(p + x, q + y) <==> Less(p, q) || (p == q && Less(x, y))
    ensures p + x == q + y <==> p == q && x == y
  {
    if p == "" {
      assert p + x == x && q + y == y;
    } else {
      assert (p + x)[1..] == p[1..] + x && (q + y)[1..] == q[1..] + y;
      LessConcat(p[1..], q[1..], x, y);
      assert p == [p[0]] + p[1..] && q == [q[0]] + q[1..];
      if p[0] == q[0] { assert p == q <==> p[1..] == q[1..]; }
    }
  }

  /** Numerals of one width compare as their numbers. */
  lemma {:induction false} DigitsOrder(m: int, n: int, w: nat)
    requires 0 <= m < Power10(w) && 0 <= n < Power10(w)
    ensures Less(Digits(m, w), Digits(n, w)) <==> m < n
    ensures Digits(m, w) == Digits(n, w) <==> m == n
  {
    if w > 0 {
      var c, d := [Digit(m % 10)], [Digit(n % 10)];
      DigitsOrder(m / 10, n / 10, w - 1);
      LessConcat(Digits(m / 10, w - 1), Digits(n / 10, w - 1), c, d);
      assert Less(c, d) <==> m % 10 < n % 10;
      assert c == d <==> m % 10 == n % 10;
    }
  }

  lemma {:induction false} Widths()
    ensures Power10(2) == 100 && Power10(4) == 10000 && Power10(6) == 1000000
  {
    assert Power10(1) == 10 && Power10(3) == 1000 && Power10(5) == 100000;
  }

  // ---- texts ------------------------------------------------------------------------------

  /** Two numerals of one width, each followed by the same separator. */
  lemma {:induction false} FieldOrder(m: int, n: int, w: nat, sep: string, x: string, y: string)
    requires 0 <= m < Power10(w) && 0 <= n < Power10(w)
    ensures Less(Digits(m, w) + sep + x, Digits(n, w) + sep + y) <==> m < n || (m == n && Less(x, y))
    ensures Digits(m, w) + sep + x == Digits(n, w) + sep + y <==> m == n && x == y
  {
    DigitsOrder(m, n, w);
    LessConcat(Digits(m, w), Digits(n, w), sep, sep);
    LessConcat(Digits(m, w) + sep, Digits(n, w) + sep, x, y);
    LessAsymmetric(sep, sep);
  }

  /** Three fields joined by a separator. */
  lemma {:induction false} TripleOrder(a: (int, int, int), b: (int, int, int), w: nat, sep: string)
    requires 0 <= a.0 < Power10(w) && 0 <= b.0 < Power10(w)
    requires 0 <= a.1 < 100 && 0 <= b.1 < 100 && 0 <= a.2 < 100 && 0 <= b.2 < 100
    ensures var s, t := Digits(a.0, w) + sep + Digits(a.1, 2) + sep + Digits(a.2, 2),
                        Digits(b.0, w) + sep + Digits(b.1, 2) + sep + Digits(b.2, 2);
      && (Less(s, t) <==> a.0 < b.0 || (a.0 == b.0 && (a.1 < b.1 || (a.1 == b.1 && a.2 < b.2))))
      && (s == t <==> a == b)
  {
    Widths();
    DigitsOrder(a.2, b.2, 2);
    FieldOrder(a.1, b.1, 2, sep, Digits(a.2, 2), Digits(b.2, 2));
    FieldOrder(a.0, b.0, w, sep, Digits(a.1, 2) + sep + Digits(a.2, 2), Digits(b.1, 2) + sep + Digits(b.2, 2));
    hide Less, Digits, Power10;
    assert Digits(a.0, w) + sep + Digits(a.1, 2) + sep + Digits(a.2, 2)
        == Digits(a.0, w) + sep + (Digits(a.1, 2) + sep + Digits(a.2, 2));
    assert Digits(b.0, w) + sep + Digits(b.1, 2) + sep + Digits(b.2, 2)
        == Digits(b.0, w) + sep + (Digits(b.1, 2) + sep + Digits(b.2, 2));
  }

  /** The one place where the widths differ: '+' sorts before '.', as no microseconds before some. */
  lemma {:induction false} TailOrder(a: DateTime, b: DateTime)
    requires a.Valid() && b.Valid()
    ensures Less(a.TailText(), b.TailText()) <==> a.micro < b.micro
    ensures a.TailText() == b.TailText() <==> a.micro == b.micro
  {
    Widths();
    LessAsymmetric("+00:00", "+00:00");
    if a.micro > 0 && b.micro > 0 {
      DigitsOrder(a.micro, b.micro, 6);
      LessConcat(".", ".", Digits(a.micro, 6), Digits(b.micro, 6));
      LessConcat("." + Digits(a.micro, 6), "." + Digits(b.micro, 6), "+00:00", "+00:00");
      LessAsymmetric(".", ".");
    } else {
      assert a.micro == 0 ==> a.TailText() == "+00:00";
      assert b.micro == 0 ==> b.TailText() == "+00:00";
      assert a.micro > 0 ==> a.TailText()[0] == '.';
      assert b.micro > 0 ==> b.TailText()[0] == '.';
    }
  }

  /** Comparing printed timestamps compares the instants, although their lengths differ. */
  lemma {:induction false} TextOrderIsTimeOrder(a: DateTime, b: DateTime)
    requires a.Valid() && b.Valid()
    ensures Less(a.Text(), b.Text()) <==> a.Instant() < b.Instant()
    ensures a.Text() == b.Text() <==> a.Instant() == b.Instant()
  {
    Widths();
    InstantOrder(a, b);
    TripleOrder((a.year, a.month, a.day), (b.year, b.month, b.day), 4, "-");
    TripleOrder((a.hour, a.minute, a.second), (b.hour, b.minute, b.second), 2, ":");
    TailOrder(a, b);
    LessAsymmetric("T", "T");
    var d, e, s, t := a.DateText(), b.DateText(), a.TimeText(), b.TimeText();
    assert |d| == |e| == 10 && |s| == |t| == 8;
    LessConcat(s, t, a.TailText(), b.TailText());
    LessConcat(d, e, "T", "T");
    LessConcat(d + "T", e + "T", s + a.TailText(), t + b.TailText());
    hide Less, Digits, Power10, DateTime.Instant, DateTime.TailText, Leap, DaysInMonth;
  }

  /** Section 5.1 of RFC 3339 promises this order for equal numbers of fraction digits only; these two differ. */
  lemma {:induction false} LengthsDiffer()
    ensures var a, b := DateTime(2024, 5, 1, 12, 0, 0, 0), DateTime(2024, 5, 1, 12, 0, 0, 1);
      a.Valid() && b.Valid() && |a.Text()| == 25 && |b.Text()| == 32 && Less(a.Text(), b.Text())
  {
    var a, b := DateTime(2024, 5, 1, 12, 0, 0, 0), DateTime(2024, 5, 1, 12, 0, 0, 1);
    TextOrderIsTimeOrder(a, b);
  }

  // ---- reading a printed instant back -----------------------------------------------------

  function Number(s: string): int {
    if s == "" then 0 else Number(s[..|s| - 1]) * 10 + (s[|s| - 1] as int - '0' as int)
  }

  lemma {:induction false} NumberOfDigits(n: int, w: nat)
    requires 0 <= n < Power10(w)
    ensures Number(Digits(n, w)) == n
  {
    if w > 0 {
      NumberOfDigits(n / 10, w - 1);
      assert Digits(n, w)[..w - 1] == Digits(n / 10, w - 1);
    }
  }

  /** `fromisoformat`, on the two shapes that `isoformat` prints. */
  function Parse(text: string): DateTime
    requires |text| == 25 || |text| == 32
  {
    DateTime(Number(text[..4]), Number(text[5..7]), Number(text[8..10]),
             Number(text[11..13]), Number(text[14..16]), Number(text[17..19]),
             if |text| == 25 then 0 else Number(text[20..26]))
  }

  /** Printing and reading back is the identity, so no instant is ever moved by being stored. */
  lemma {:induction false} ParsePrinted(d: DateTime)
    requires d.Valid()
    ensures |d.Text()| == 25 || |d.Text()| == 32
    ensures Parse(d.Text()) == d
  {
    Widths();
    NumberOfDigits(d.year, 4);
    NumberOfDigits(d.month, 2);
    NumberOfDigits(d.day, 2);
    NumberOfDigits(d.hour, 2);
    NumberOfDigits(d.minute, 2);
    NumberOfDigits(d.second, 2);
    NumberOfDigits(d.micro, 6);
    hide Number, Power10, DateTime.Text, Digits;
    PrintedFields(d);
  }

  lemma {:induction false} Slice(t: string, i: nat, j: nat, k: nat, l: nat)
    requires i <= j <= |t| && k <= l <= j - i
    ensures t[i..j][k..l] == t[i + k..i + l]
  {
    var s, u := t[i..j][k..l], t[i + k..i + l];
    assert forall n | 0 <= n < l - k :: s[n] == t[i..j][k + n] == t[i + k + n] == u[n];
  }

  lemma {:induction false} PrintedFields(d: DateTime)
    requires d.Valid()
    ensures var t := d.Text();
      && |t| == (if d.micro == 0 then 25 else 32)
      && t[..4] == Digits(d.year, 4) && t[5..7] == Digits(d.month, 2) && t[8..10] == Digits(d.day, 2)
      && t[11..13] == Digits(d.hour, 2) && t[14..16] == Digits(d.minute, 2) && t[17..19] == Digits(d.second, 2)
      && (d.micro > 0 ==> t[20..26] == Digits(d.micro, 6))
  {
    var t := d.Text();
    PrintedParts(d);
    DateParts(d);
    TimeParts(d);
    hide DateTime.Text, Digits, DateTime.DateText, DateTime.TimeText, DateTime.TailText;
    Slice(t, 0, 10, 0, 4);
    Slice(t, 0, 10, 5, 7);
    Slice(t, 0, 10, 8, 10);
    Slice(t, 11, 19, 0, 2);
    Slice(t, 11, 19, 3, 5);
    Slice(t, 11, 19, 6, 8);
    if d.micro > 0 { Slice(t, 19, 32, 1, 7); }
  }

  lemma {:induction false} PrintedParts(d: DateTime)
    requires d.Valid()
    ensures var t, f := d.Text(), d.TailText();
      && |f| == (if d.micro == 0 then 6 else 13) && |t| == 19 + |f|
      && t[..10] == d.DateText() && t[11..19] == d.TimeText() && t[19..] == f
      && (d.micro > 0 ==> f[1..7] == Digits(d.micro, 6))
  {
    assert |d.DateText()| == 10 && |d.TimeText()| == 8;
    hide DateTime.DateText, DateTime.TimeText;
  }

  lemma {:induction false} DateParts(d: DateTime)
    requires d.Valid()
    ensures var t := d.DateText();
      |t| == 10 && t[..4] == Digits(d.year, 4) && t[5..7] == Digits(d.month, 2) && t[8..10] == Digits(d.day, 2)
  {
  }

  lemma {:induction false} TimeParts(d: DateTime)
    requires d.Valid()
    ensures var t := d.TimeText();
      |t| == 8 && t[..2] == Digits(d.hour, 2) && t[3..5] == Digits(d.minute, 2) && t[6..8] == Digits(d.second, 2)
  {
  }

  // ---- every instant in between -----------------------------------------------------------

  const FIRST := DateTime(1, 1, 1, 0, 0, 0, 0)
  const LAST := DateTime(9999, 12, 31, 23, 59, 59, 999999)

  /** Some `datetime` stands for this instant. */
  ghost predicate Printable(t: int) {
    exists d: DateTime :: d.Valid() && d.Instant() == t
  }

  /** The day after. */
  lemma {:induction false} NextDay(d: DateTime) returns (e: DateTime)
    requires d.Valid() && (d.year, d.month, d.day) != (9999, 12, 31)
    ensures e.Valid() && e.Ordinal() == d.Ordinal() + 1
    ensures e.hour == 0 && e.minute == 0 && e.second == 0 && e.micro == 0
  {
    if d.day < DaysInMonth(d.year, d.month) {
      e := DateTime(d.year, d.month, d.day + 1, 0, 0, 0, 0);
    } else if d.month < 12 {
      e := DateTime(d.year, d.month + 1, 1, 0, 0, 0, 0);
    } else {
      e := DateTime(d.year + 1, 1, 1, 0, 0, 0, 0);
      YearLength(d.year);
      hide DaysBeforeYear;
      assert DaysBeforeMonth(d.year, 13) == DaysBeforeMonth(d.year, 12) + DaysInMonth(d.year, 12);
    }
  }

  /** The microsecond after. */
  lemma {:induction false} NextMicro(d: DateTime) returns (e: DateTime)
    requires d.Valid() && d != LAST
    ensures e.Valid() && e.Instant() == d.Instant() + 1
  {
    hide DaysBeforeYear, DaysBeforeMonth, DaysInMonth;
    if d.micro < 999999 {
      e := d.(micro := d.micro + 1);
    } else if d.second < 59 {
      e := d.(second := d.second + 1, micro := 0);
    } else if d.minute < 59 {
      e := d.(minute := d.minute + 1, second := 0, micro := 0);
    } else if d.hour < 23 {
      e := d.(hour := d.hour + 1, minute := 0, second := 0, micro := 0);
    } else {
      e := NextDay(d);
    }
  }

  /** The instants that can be printed are those from the first to the last microsecond of years 1 to 9999. */
  lemma {:induction false} PrintableIff(t: int)
    ensures Printable(t) <==> FIRST.Instant() <= t <= LAST.Instant()
    decreases if t <= FIRST.Instant() then 0 else t - FIRST.Instant()
  {
    hide DateTime.Ordinal, DateTime.Instant;
    assert FIRST.Valid() && LAST.Valid();
    if d: DateTime :| d.Valid() && d.Instant() == t {
      InstantOrder(d, FIRST);
      InstantOrder(LAST, d);
    } else if FIRST.Instant() < t <= LAST.Instant() {
      PrintableIff(t - 1);
      var d: DateTime :| d.Valid() && d.Instant() == t - 1;
      var e := NextMicro(d);
    }
  }

  /** `isoformat` of an instant. */
  ghost function TextAt(t: int): string {
    if Printable(t) then
      var d: DateTime :| d.Valid() && d.Instant() == t;
      d.Text()
    else ""
  }

  /** The instant that a text stands for. */
  function ReadAt(text: string): int {
    if |text| == 25 || |text| == 32 then Parse(text).Instant() else 0
  }

  /** As instants: every one that can be printed is read back, and the texts are in the order of the instants. */
  lemma {:induction false} InstantsSurvive(s: int, t: int)
    requires Printable(s) && Printable(t)
    ensures TextAt(s) != "" && ReadAt(TextAt(s)) == s
    ensures Less(TextAt(s), TextAt(t)) <==> s < t
  {
    hide DateTime.Instant, DateTime.Text, DateTime.Valid, Less, Parse;
    var c: DateTime :| c.Valid() && c.Instant() == s && TextAt(s) == c.Text();
    var d: DateTime :| d.Valid() && d.Instant() == t && TextAt(t) == d.Text();
    ParsePrinted(c);
    TextOrderIsTimeOrder(c, d);
  }
}
