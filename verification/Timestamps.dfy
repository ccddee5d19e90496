/**
 Timestamps as the archive's coverage evidence writes them: UTC, ISO 8601, fixed width to the
 microsecond. Their order as strings is their order in time.

 A timestamp is a sequence of numbers of fixed width with fixed text between them, so that
 writing, reading and comparing go number by number.
 */
module Timestamps {
  import opened Common
  import opened Lexicographic
  import opened Calendar

  /** One number of a timestamp: its width, and the character after it. */
  datatype Part = Part(width: nat, after: char)

  const STAMP: seq<Part> :=
    [Part(4, '-'), Part(2, '-'), Part(2, 'T'), Part(2, ':'), Part(2, ':'), Part(2, '.'), Part(6, 'Z')]

  function Power10(n: nat): (p: int)
    ensures p > 0
  {
    if n == 0 then 1 else 10 * Power10(n - 1)
  }

  function Digits(n: int, width: nat): (s: string)
    requires n >= 0
    ensures |s| == width
  {
    if width == 0 then "" else Digits(n / 10, width - 1) + ['0' + (n % 10) as char]
  }

  /** The number a string of digits stands for. */
  function Number(s: string): int {
    if s == "" then 0 else 10 * Number(s[..|s| - 1]) + (s[|s| - 1] as int - '0' as int)
  }

  predicate Fit(parts: seq<Part>, values: seq<int>) {
    |parts| == |values| && forall i | 0 <= i < |parts| :: 0 <= values[i] < Power10(parts[i].width)
  }

  function Render(parts: seq<Part>, values: seq<int>): string
    requires Fit(parts, values)
  {
    if parts == [] then ""
    else
      assert Fit(parts[1..], values[1..]);
      Digits(values[0], parts[0].width) + [parts[0].after] + Render(parts[1..], values[1..])
  }

  function Min(a: nat, b: nat): nat { if a < b then a else b }

  function Read(parts: seq<Part>, s: string): (values: seq<int>)
    ensures |values| == |parts|
  {
    if parts == [] then []
    else [Number(s[..Min(parts[0].width, |s|)])] + Read(parts[1..], s[Min(parts[0].width + 1, |s|)..])
  }

  function Values(t: Time): seq<int> {
    [t.date.year, t.date.month, t.date.day, t.hour, t.minute, t.second, t.micro]
  }

  function FromValues(v: seq<int>): Time
    requires |v| == 7
  {
    Time(Date(v[0], v[1], v[2]), v[3], v[4], v[5], v[6])
  }

  /** The times a datetime can hold. */
  predicate IsStamp(t: Time) { ValidTime(t) && 1 <= t.date.year <= 9999 }

  lemma StampFits(t: Time)
    requires IsStamp(t)
    ensures Fit(STAMP, Values(t))
  {
    assert Power10(2) == 100;
    assert Power10(4) == 100 * Power10(2);
    assert Power10(6) == 100 * Power10(4);
  }

  /** isoformat to the microsecond, with Z for UTC. */
  function Format(t: Time): string
    requires IsStamp(t)
  {
    StampFits(t);
    Render(STAMP, Values(t))
  }

  /** Reads a timestamp and, as canonical_coverage does, accepts it only if it is what Format writes. */
  function Parse(s: string): Option<Time> {
    var t := FromValues(Read(STAMP, s));
    if IsStamp(t) && Format(t) == s then Some(t) else None
  }

  // ---------------------------------------------------------------- reading back

  lemma {:induction false} NumberOfDigits(n: int, width: nat)
    requires 0 <= n < Power10(width)
    ensures Number(Digits(n, width)) == n
  {
    if width > 0 {
      NumberOfDigits(n / 10, width - 1);
      var s := Digits(n, width);
      assert s[..|s| - 1] == Digits(n / 10, width - 1);
    }
  }

  lemma RenderFirst(p: Part, parts: seq<Part>, v: int, values: seq<int>)
    requires Fit([p] + parts, [v] + values)
    ensures v >= 0 && Fit(parts, values)
    ensures Render([p] + parts, [v] + values) == Digits(v, p.width) + [p.after] + Render(parts, values)
  {
    assert ([p] + parts)[1..] == parts && ([v] + values)[1..] == values;
    assert ([p] + parts)[0] == p && ([v] + values)[0] == v;
    forall i | 0 <= i < |parts|
      ensures 0 <= values[i] < Power10(parts[i].width)
    {
      assert ([p] + parts)[i + 1] == parts[i] && ([v] + values)[i + 1] == values[i];
    }
  }

  lemma DateShape(t: Time)
    requires IsStamp(t)
    ensures Fit(STAMP[3..], Values(t)[3..]) && t.date.month >= 0 && t.date.day >= 0
    ensures Format(t) == Digits(t.date.year, 4) + ['-'] + (Digits(t.date.month, 2) + ['-']
                         + (Digits(t.date.day, 2) + ['T'] + Render(STAMP[3..], Values(t)[3..])))
  {
    StampFits(t);
    var v := Values(t);
    assert STAMP == [Part(4, '-')] + STAMP[1..] && v == [v[0]] + v[1..];
    RenderFirst(Part(4, '-'), STAMP[1..], v[0], v[1..]);
    assert STAMP[1..] == [Part(2, '-')] + STAMP[2..] && v[1..] == [v[1]] + v[2..];
    RenderFirst(Part(2, '-'), STAMP[2..], v[1], v[2..]);
    assert STAMP[2..] == [Part(2, 'T')] + STAMP[3..] && v[2..] == [v[2]] + v[3..];
    RenderFirst(Part(2, 'T'), STAMP[3..], v[2], v[3..]);
  }

  lemma SecondsShape(second: int, micro: int)
    requires Fit([Part(2, '.'), Part(6, 'Z')], [second, micro])
    ensures second >= 0 && micro >= 0
    ensures Render([Part(2, '.'), Part(6, 'Z')], [second, micro])
            == Digits(second, 2) + ['.'] + (Digits(micro, 6) + ['Z'] + "")
  {
    assert [Part(2, '.'), Part(6, 'Z')] == [Part(2, '.')] + [Part(6, 'Z')] && [second, micro] == [second] + [micro];
    RenderFirst(Part(2, '.'), [Part(6, 'Z')], second, [micro]);
    assert [Part(6, 'Z')] == [Part(6, 'Z')] + [] && [micro] == [micro] + [];
    RenderFirst(Part(6, 'Z'), [], micro, []);
  }

  lemma ClockShape(t: Time)
    requires IsStamp(t) && Fit(STAMP[3..], Values(t)[3..])
    ensures Render(STAMP[3..], Values(t)[3..])
            == Digits(t.hour, 2) + [':'] + (Digits(t.minute, 2) + [':']
               + (Digits(t.second, 2) + ['.'] + (Digits(t.micro, 6) + ['Z'] + "")))
  {
    var v, tail := Values(t), [Part(2, '.'), Part(6, 'Z')];
    assert STAMP[3..] == [Part(2, ':')] + STAMP[4..] && v[3..] == [v[3]] + v[4..];
    RenderFirst(Part(2, ':'), STAMP[4..], v[3], v[4..]);
    assert STAMP[4..] == [Part(2, ':')] + tail && v[4..] == [v[4]] + [v[5], v[6]];
    RenderFirst(Part(2, ':'), tail, v[4], [v[5], v[6]]);
    SecondsShape(v[5], v[6]);
  }

  lemma Places(y: string, mo: string, d: string, h: string, mi: string, sec: string, micro: string)
    requires |y| == 4 && |mo| == |d| == |h| == |mi| == |sec| == 2 && |micro| == 6
    ensures var s := y + ['-'] + (mo + ['-'] + (d + ['T'] + (h + [':'] + (mi + [':']
                     + (sec + ['.'] + (micro + ['Z'] + ""))))));
            && |s| == 27 && s[..4] == y && s[5..7] == mo && s[8..10] == d && s[11..13] == h && s[14..16] == mi
            && s[17..19] == sec && s[20..26] == micro
            && s[4] == '-' && s[7] == '-' && s[10] == 'T' && s[13] == ':' && s[16] == ':' && s[19] == '.'
            && s[26] == 'Z'
  {
  }

  /** A timestamp, place by place: YYYY-MM-DDTHH:MM:SS.ffffffZ. */
  lemma FormatIs(t: Time)
    requires IsStamp(t)
    ensures var s := Format(t);
            && |s| == 27 && s[4] == '-' && s[7] == '-' && s[10] == 'T' && s[13] == ':' && s[16] == ':' && s[19] == '.'
            && s[26] == 'Z'
            && Number(s[..4]) == t.date.year && Number(s[5..7]) == t.date.month && Number(s[8..10]) == t.date.day
            && Number(s[11..13]) == t.hour && Number(s[14..16]) == t.minute && Number(s[17..19]) == t.second
            && Number(s[20..26]) == t.micro
  {
    DateShape(t);
    ClockShape(t);
    Places(Digits(t.date.year, 4), Digits(t.date.month, 2), Digits(t.date.day, 2), Digits(t.hour, 2),
           Digits(t.minute, 2), Digits(t.second, 2), Digits(t.micro, 6));
    FieldsRead(t);
  }

  lemma FieldsRead(t: Time)
    requires IsStamp(t)
    ensures t.date.month >= 0 && t.date.day >= 0
    ensures Number(Digits(t.date.year, 4)) == t.date.year && Number(Digits(t.date.month, 2)) == t.date.month
    ensures Number(Digits(t.date.day, 2)) == t.date.day && Number(Digits(t.hour, 2)) == t.hour
    ensures Number(Digits(t.minute, 2)) == t.minute && Number(Digits(t.second, 2)) == t.second
    ensures Number(Digits(t.micro, 6)) == t.micro
  {
    StampFits(t);
    assert Power10(2) == 100 && Power10(4) == 100 * Power10(2) && Power10(6) == 100 * Power10(4);
    NumberOfDigits(t.date.year, 4);
    NumberOfDigits(t.date.month, 2);
    NumberOfDigits(t.date.day, 2);
    NumberOfDigits(t.hour, 2);
    NumberOfDigits(t.minute, 2);
    NumberOfDigits(t.second, 2);
    NumberOfDigits(t.micro, 6);
  }

  lemma {:induction false} ReadRender(parts: seq<Part>, values: seq<int>)
    requires Fit(parts, values)
    ensures Read(parts, Render(parts, values)) == values
  {
    if parts != [] {
      var digits, rest := Digits(values[0], parts[0].width), Render(parts[1..], values[1..]);
      var s := digits + [parts[0].after] + rest;
      NumberOfDigits(values[0], parts[0].width);
      assert s[..parts[0].width] == digits;
      assert s[parts[0].width + 1..] == rest;
      ReadRender(parts[1..], values[1..]);
    }
  }

  /** Exactly the timestamps that Format writes are read, as the time they were written from. */
  lemma ParseInverts(s: string, t: Time)
    ensures Parse(s) == Some(t) <==> IsStamp(t) && Format(t) == s
  {
    if IsStamp(t) && Format(t) == s {
      StampFits(t);
      ReadRender(STAMP, Values(t));
    }
  }

  // ---------------------------------------------------------------- order

  lemma {:induction false} LessSplit(a: string, b: string, x: string, y: string)
    requires |a| == |b|
    ensures Less(a + x, b + y) <==> Less(a, b) || (a == b && Less(x, y))
  {
    if a == "" {
      assert a + x == x && b + y == y;
    } else {
      assert (a + x)[1..] == a[1..] + x && (b + y)[1..] == b[1..] + y;
      LessSplit(a[1..], b[1..], x, y);
      assert a == [a[0]] + a[1..] && b == [b[0]] + b[1..];
    }
  }

  lemma OneDigit(m: int, n: int)
    requires 0 <= m < 10 && 0 <= n < 10
    ensures Less(['0' + m as char], ['0' + n as char]) <==> m < n
    ensures ['0' + m as char] == ['0' + n as char] <==> m == n
  {
  }

  lemma {:induction false} DigitsOrder(m: int, n: int, width: nat)
    requires 0 <= m < Power10(width) && 0 <= n < Power10(width)
    ensures Less(Digits(m, width), Digits(n, width)) <==> m < n
    ensures Digits(m, width) == Digits(n, width) <==> m == n
  {
    NumberOfDigits(m, width);
    NumberOfDigits(n, width);
    if width > 0 {
      DigitsOrder(m / 10, n / 10, width - 1);
      OneDigit(m % 10, n % 10);
      LessSplit(Digits(m / 10, width - 1), Digits(n / 10, width - 1),
                ['0' + (m % 10) as char], ['0' + (n % 10) as char]);
    }
  }

  /** Compared value by value, the first that differs deciding. */
  predicate Before(v: seq<int>, w: seq<int>)
    requires |v| == |w|
  {
    v != [] && (v[0] < w[0] || (v[0] == w[0] && Before(v[1..], w[1..])))
  }

  lemma {:induction false} RenderOrder(parts: seq<Part>, v: seq<int>, w: seq<int>)
    requires Fit(parts, v) && Fit(parts, w)
    ensures Less(Render(parts, v), Render(parts, w)) <==> Before(v, w)
    ensures |Render(parts, v)| == |Render(parts, w)|
  {
    if parts != [] {
      var p := parts[0];
      RenderOrder(parts[1..], v[1..], w[1..]);
      DigitsOrder(v[0], w[0], p.width);
      var x, y := Render(parts[1..], v[1..]), Render(parts[1..], w[1..]);
      LessSplit([p.after], [p.after], x, y);
      LessSplit(Digits(v[0], p.width), Digits(w[0], p.width), [p.after] + x, [p.after] + y);
      assert Digits(v[0], p.width) + [p.after] + x == Digits(v[0], p.width) + ([p.after] + x);
      assert Digits(w[0], p.width) + [p.after] + y == Digits(w[0], p.width) + ([p.after] + y);
    }
  }

  lemma EarlierDate(a: Date, b: Date)
    requires ValidDate(a) && ValidDate(b)
    requires MonthBefore(a.year, a.month, b.year, b.month) || (a.year == b.year && a.month == b.month && a.day < b.day)
    ensures Ordinal(a) < Ordinal(b)
  {
    if MonthBefore(a.year, a.month, b.year, b.month) { MonthsTile(a.year, a.month, b.year, b.month); }
  }

  lemma {:induction false} BeforeTotal(v: seq<int>, w: seq<int>)
    requires |v| == |w|
    ensures Before(v, w) || v == w || Before(w, v)
  {
    if v != [] {
      BeforeTotal(v[1..], w[1..]);
      assert v == [v[0]] + v[1..] && w == [w[0]] + w[1..];
    }
  }

  lemma BeforeCons(x: int, v: seq<int>, y: int, w: seq<int>)
    requires |v| == |w|
    ensures Before([x] + v, [y] + w) <==> x < y || (x == y && Before(v, w))
  {
    assert ([x] + v)[1..] == v && ([y] + w)[1..] == w;
  }

  function TimeValues(t: Time): seq<int> { [t.hour] + [t.minute, t.second, t.micro] }

  lemma BeforeByDate(a: Time, b: Time)
    requires Before(Values(a), Values(b))
    ensures var x, y := a.date, b.date;
            || MonthBefore(x.year, x.month, y.year, y.month)
            || (x.year == y.year && x.month == y.month && x.day < y.day)
            || (x == y && Before(TimeValues(a), TimeValues(b)))
  {
    var v, w := TimeValues(a), TimeValues(b);
    assert Values(a) == [a.date.year] + ([a.date.month] + ([a.date.day] + v));
    assert Values(b) == [b.date.year] + ([b.date.month] + ([b.date.day] + w));
    BeforeCons(a.date.day, v, b.date.day, w);
    BeforeCons(a.date.month, [a.date.day] + v, b.date.month, [b.date.day] + w);
    BeforeCons(a.date.year, [a.date.month] + ([a.date.day] + v), b.date.year, [b.date.month] + ([b.date.day] + w));
  }

  lemma BeforeInDay(a: Time, b: Time)
    requires ValidTime(a) && ValidTime(b) && Before(TimeValues(a), TimeValues(b))
    ensures TimeOfDay(a) < TimeOfDay(b)
  {
    BeforeCons(a.micro, [], b.micro, []);
    BeforeCons(a.second, [a.micro], b.second, [b.micro]);
    BeforeCons(a.minute, [a.second, a.micro], b.minute, [b.second, b.micro]);
    BeforeCons(a.hour, [a.minute, a.second, a.micro], b.hour, [b.minute, b.second, b.micro]);
    assert [a.minute] + [a.second, a.micro] == [a.minute, a.second, a.micro];
    assert [b.minute] + [b.second, b.micro] == [b.minute, b.second, b.micro];
    assert [a.second] + [a.micro] == [a.second, a.micro] && [b.second] + [b.micro] == [b.second, b.micro];
    assert [a.micro] + [] == [a.micro] && [b.micro] + [] == [b.micro];
  }

  lemma EarlierDay(a: Time, b: Time)
    requires ValidTime(a) && ValidTime(b) && Ordinal(a.date) < Ordinal(b.date)
    ensures Instant(a) < Instant(b)
  {
    TimeOfDayRange(a);
    TimeOfDayRange(b);
  }

  lemma BeforeIsEarlier(a: Time, b: Time)
    requires ValidTime(a) && ValidTime(b) && Before(Values(a), Values(b))
    ensures Instant(a) < Instant(b)
  {
    BeforeByDate(a, b);
    if a.date == b.date && Before(TimeValues(a), TimeValues(b)) {
      BeforeInDay(a, b);
    } else {
      EarlierDate(a.date, b.date);
      EarlierDay(a, b);
    }
  }

  lemma ValuesInjective(a: Time, b: Time)
    ensures Values(a) == Values(b) <==> a == b
  {
    assert FromValues(Values(a)) == a && FromValues(Values(b)) == b;
  }

  lemma BeforeIffEarlier(a: Time, b: Time)
    requires ValidTime(a) && ValidTime(b)
    ensures Before(Values(a), Values(b)) <==> Instant(a) < Instant(b)
  {
    BeforeTotal(Values(a), Values(b));
    ValuesInjective(a, b);
    if Before(Values(a), Values(b)) { BeforeIsEarlier(a, b); }
    if Before(Values(b), Values(a)) { BeforeIsEarlier(b, a); }
  }

  /** The order of timestamps as strings is their order in time. */
  lemma StringOrderIsTimeOrder(a: Time, b: Time)
    requires IsStamp(a) && IsStamp(b)
    ensures Less(Format(a), Format(b)) <==> Instant(a) < Instant(b)
    ensures Format(a) == Format(b) <==> Instant(a) == Instant(b)
  {
    StampFits(a);
    StampFits(b);
    RenderOrder(STAMP, Values(a), Values(b));
    BeforeIffEarlier(a, b);
    ParseInverts(Format(a), a);
    ParseInverts(Format(b), b);
    if Instant(a) == Instant(b) { InstantInjective(a, b); }
  }
}
