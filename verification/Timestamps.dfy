/**
 The two texts one instant is stored as, and the comparisons SQL makes between them.
 A time is the UTC calendar fields of an aware datetime; its instant counts microseconds.
 */
module Timestamps {
  import opened Wrappers
  import opened Texts

  // ---------- The calendar ----------

  predicate Leap(y: nat) { y % 4 == 0 && (y % 100 != 0 || y % 400 == 0) }

  function DaysIn(y: nat, m: nat): nat {
    if m == 2 then (if Leap(y) then 29 else 28)
    else if m == 4 || m == 6 || m == 9 || m == 11 then 30
    else 31
  }

  function DaysBeforeYear(y: nat): int
    requires y >= 1
  {
    var p := y - 1;
    p * 365 + p / 4 - p / 100 + p / 400
  }

  function DaysBeforeMonth(y: nat, m: nat): nat
    requires m >= 1
  {
    if m == 1 then 0 else DaysBeforeMonth(y, m - 1) + DaysIn(y, m - 1)
  }

  datatype Utc = Utc(year: nat, month: nat, day: nat, hour: nat, minute: nat, second: nat, micro: nat) {
    predicate Valid() {
      && 1 <= year <= 9999 && 1 <= month <= 12 && 1 <= day <= DaysIn(year, month)
      && hour < 24 && minute < 60 && second < 60 && micro < 1000000
    }

    /** `date.toordinal()`. */
    function Ordinal(): int
      requires Valid()
    {
      DaysBeforeYear(year) + DaysBeforeMonth(year, month) + day
    }

    function Seconds(): int
      requires Valid()
    {
      ((Ordinal() * 24 + hour) * 60 + minute) * 60 + second
    }

    function Instant(): int
      requires Valid()
    {
      Seconds() * 1000000 + micro
    }

    function Values(): seq<nat> {
      [year, month, day, hour, minute, second]
    }
  }

  predicate LexLess(a: seq<nat>, b: seq<nat>)
    requires |a| == |b|
  {
    a != [] && (a[0] < b[0] || (a[0] == b[0] && LexLess(a[1..], b[1..])))
  }

  lemma {:induction false} MonthOrder(y: nat, m: nat, n: nat)
    requires 1 <= m < n <= 13
    ensures DaysBeforeMonth(y, m) + DaysIn(y, m) <= DaysBeforeMonth(y, n)
  {
    if m + 1 < n {
      MonthOrder(y, m, n - 1);
    }
  }

  lemma YearLength(y: nat)
    ensures DaysBeforeMonth(y, 13) == if Leap(y) then 366 else 365
  {
    assert DaysBeforeMonth(y, 4) == 62 + DaysIn(y, 2) by {
      assert DaysBeforeMonth(y, 2) == 31;
    }
    assert DaysBeforeMonth(y, 7) == DaysBeforeMonth(y, 4) + 91 by {
      assert DaysBeforeMonth(y, 5) == DaysBeforeMonth(y, 4) + 30;
    }
    assert DaysBeforeMonth(y, 10) == DaysBeforeMonth(y, 7) + 92 by {
      assert DaysBeforeMonth(y, 8) == DaysBeforeMonth(y, 7) + 31;
    }
    assert DaysBeforeMonth(y, 13) == DaysBeforeMonth(y, 10) + 92 by {
      assert DaysBeforeMonth(y, 11) == DaysBeforeMonth(y, 10) + 31;
    }
  }

  lemma WholeYear(y: nat)
    requires y >= 1
    ensures DaysBeforeYear(y + 1) == DaysBeforeYear(y) + DaysBeforeMonth(y, 13)
  {
    hide DaysBeforeMonth;
    YearLength(y);
    FourthYears(y);
    CenturyYears(y);
    GregorianCycles(y);
    LeapCounts(y);
    hide Leap;
  }

  lemma LeapCounts(y: nat)
    ensures (if Leap(y) then 1 else 0)
         == (if y % 4 == 0 then 1 else 0) - (if y % 100 == 0 then 1 else 0) + if y % 400 == 0 then 1 else 0
  {
    HundredsAreFourths(y / 100);
    CyclesAreHundreds(y / 400);
  }

  lemma HundredsAreFourths(n: nat)
    ensures (100 * n) % 4 == 0
  {
  }

  lemma CyclesAreHundreds(n: nat)
    ensures (400 * n) % 100 == 0
  {
  }

  lemma FourthYears(y: nat)
    requires y >= 1
    ensures y / 4 == (y - 1) / 4 + if y % 4 == 0 then 1 else 0
  {
  }

  lemma CenturyYears(y: nat)
    requires y >= 1
    ensures y / 100 == (y - 1) / 100 + if y % 100 == 0 then 1 else 0
  {
  }

  lemma GregorianCycles(y: nat)
    requires y >= 1
    ensures y / 400 == (y - 1) / 400 + if y % 400 == 0 then 1 else 0
  {
  }

  lemma {:induction false} YearOrder(y: nat, z: nat)
    requires 1 <= y < z
    ensures DaysBeforeYear(y) + DaysBeforeMonth(y, 13) <= DaysBeforeYear(z)
  {
    if y + 1 < z {
      YearOrder(y, z - 1);
      WholeYear(z - 1);
    } else {
      WholeYear(y);
    }
  }

  lemma DateOrder(a: Utc, b: Utc)
    requires a.Valid() && b.Valid()
    requires a.year < b.year || (a.year == b.year && a.month < b.month)
    ensures a.Ordinal() < b.Ordinal()
  {
    if a.year < b.year {
      YearOrder(a.year, b.year);
      MonthOrder(a.year, a.month, 13);
    } else {
      MonthOrder(a.year, a.month, b.month);
    }
  }

  lemma LexStep(x: nat, y: nat, a: seq<nat>, b: seq<nat>)
    requires |a| == |b|
    ensures LexLess([x] + a, [y] + b) <==> x < y || (x == y && LexLess(a, b))
  {
    assert ([x] + a)[1..] == a && ([y] + b)[1..] == b;
  }

  /** Calendar fields in lexicographic order are in time order. */
  lemma FieldsOrder(a: Utc, b: Utc)
    requires a.Valid() && b.Valid()
    requires LexLess(a.Values(), b.Values())
    ensures a.Seconds() < b.Seconds()
  {
    LexStep(a.second, b.second, [], []);
    LexStep(a.minute, b.minute, [a.second], [b.second]);
    LexStep(a.hour, b.hour, [a.minute, a.second], [b.minute, b.second]);
    LexStep(a.day, b.day, [a.hour, a.minute, a.second], [b.hour, b.minute, b.second]);
    LexStep(a.month, b.month, [a.day, a.hour, a.minute, a.second], [b.day, b.hour, b.minute, b.second]);
    LexStep(a.year, b.year, a.Values()[1..], b.Values()[1..]);
    assert a.Values() == [a.year] + a.Values()[1..] && b.Values() == [b.year] + b.Values()[1..];
    if a.year < b.year || (a.year == b.year && a.month < b.month) {
      DateOrder(a, b);
    }
  }

  lemma {:induction false} LexTotal(a: seq<nat>, b: seq<nat>)
    requires |a| == |b|
    ensures a == b || LexLess(a, b) || LexLess(b, a)
    ensures LexLess(a, b) ==> a != b && !LexLess(b, a)
  {
    if a != [] {
      LexTotal(a[1..], b[1..]);
      assert a == [a[0]] + a[1..] && b == [b[0]] + b[1..];
    }
  }

  lemma SecondsOrder(a: Utc, b: Utc)
    requires a.Valid() && b.Valid()
    ensures LexLess(a.Values(), b.Values()) <==> a.Seconds() < b.Seconds()
    ensures a.Values() == b.Values() <==> a.Seconds() == b.Seconds()
  {
    LexTotal(a.Values(), b.Values());
    if LexLess(a.Values(), b.Values()) {
      FieldsOrder(a, b);
    } else if LexLess(b.Values(), a.Values()) {
      FieldsOrder(b, a);
    } else {
      assert forall i | 0 <= i < 6 :: a.Values()[i] == b.Values()[i];
      assert a.year == a.Values()[0] && a.month == a.Values()[1] && a.day == a.Values()[2]
          && a.hour == a.Values()[3] && a.minute == a.Values()[4] && a.second == a.Values()[5];
    }
  }

  // ---------- The texts ----------

  datatype Field = Field(width: nat, mark: string)

  const LAYOUT: seq<Field> :=
    [Field(4, "-"), Field(2, "-"), Field(2, "T"), Field(2, ":"), Field(2, ":"), Field(2, "")]

  predicate Fits(values: seq<nat>, layout: seq<Field>) {
    |values| == |layout| && forall i | 0 <= i < |values| :: values[i] < Pow10(layout[i].width)
  }

  function Written(values: seq<nat>, layout: seq<Field>): string
    requires |values| == |layout|
  {
    if values == [] then []
    else Digits(values[0], layout[0].width) + (layout[0].mark + Written(values[1..], layout[1..]))
  }

  function ToSeconds(t: Utc): string {
    Written(t.Values(), LAYOUT)
  }

  /** `isoformat()` of an aware UTC datetime: no fraction when it is zero. */
  function Isoformat(t: Utc): string {
    ToSeconds(t) + ((if t.micro == 0 then "" else "." + Digits(t.micro, 6)) + "+00:00")
  }

  /** `timestamp()`: always six digits, and `Z`. */
  function Timestamp(t: Utc): string {
    ToSeconds(t) + ("." + (Digits(t.micro, 6) + "Z"))
  }

  lemma FieldOrder(m: nat, n: nat, f: Field, x: string, y: string)
    requires m < Pow10(f.width) && n < Pow10(f.width)
    ensures TextLess(Digits(m, f.width) + (f.mark + x), Digits(n, f.width) + (f.mark + y))
       <==> m < n || (m == n && TextLess(x, y))
  {
    hide TextLess, Digits;
    DigitsOrder(m, n, f.width);
    SplitOrder(Digits(m, f.width), Digits(n, f.width), f.mark + x, f.mark + y);
    SplitOrder(f.mark, f.mark, x, y);
    TextLessIrreflexive(f.mark);
  }

  lemma {:induction false} WrittenOrder(a: seq<nat>, b: seq<nat>, layout: seq<Field>, x: string, y: string)
    requires Fits(a, layout) && Fits(b, layout)
    ensures TextLess(Written(a, layout) + x, Written(b, layout) + y)
       <==> LexLess(a, b) || (a == b && TextLess(x, y))
  {
    hide TextLess, Digits;
    if a == [] {
      assert Written(a, layout) + x == x && Written(b, layout) + y == y;
    } else {
      var p, q := Written(a[1..], layout[1..]) + x, Written(b[1..], layout[1..]) + y;
      WrittenOrder(a[1..], b[1..], layout[1..], x, y);
      FieldOrder(a[0], b[0], layout[0], p, q);
      WrittenHead(a, layout, x);
      WrittenHead(b, layout, y);
      assert a == [a[0]] + a[1..] && b == [b[0]] + b[1..];
    }
  }

  lemma WrittenHead(a: seq<nat>, layout: seq<Field>, x: string)
    requires |a| == |layout| > 0
    ensures Written(a, layout) + x
         == Digits(a[0], layout[0].width) + (layout[0].mark + (Written(a[1..], layout[1..]) + x))
  {
    var d, m, r := Digits(a[0], layout[0].width), layout[0].mark, Written(a[1..], layout[1..]);
    hide Digits, Written;
    assert (d + (m + r)) + x == d + (m + (r + x));
  }

  lemma {:induction false} TextLessIrreflexive(s: string)
    ensures !TextLess(s, s)
  {
    if s != [] { TextLessIrreflexive(s[1..]); }
  }

  lemma TimeFits(t: Utc)
    requires t.Valid()
    ensures Fits(t.Values(), LAYOUT) && t.micro < Pow10(6)
  {
    assert Pow10(2) == 100 && Pow10(4) == 100 * Pow10(2) && Pow10(6) == 100 * Pow10(4);
  }

  /** Two texts of times, whatever follows the seconds. */
  lemma TailDecides(a: Utc, b: Utc, x: string, y: string)
    requires a.Valid() && b.Valid()
    ensures TextLess(ToSeconds(a) + x, ToSeconds(b) + y)
       <==> a.Seconds() < b.Seconds() || (a.Seconds() == b.Seconds() && TextLess(x, y))
  {
    TimeFits(a);
    TimeFits(b);
    WrittenOrder(a.Values(), b.Values(), LAYOUT, x, y);
    SecondsOrder(a, b);
  }

  lemma FractionsOrder(m: nat, n: nat, x: string, y: string)
    requires m < 1000000 && n < 1000000
    ensures TextLess("." + (Digits(m, 6) + x), "." + (Digits(n, 6) + y)) <==> m < n || (m == n && TextLess(x, y))
  {
    assert Pow10(2) == 100 && Pow10(4) == 100 * Pow10(2) && Pow10(6) == 100 * Pow10(4);
    DigitsOrder(m, n, 6);
    SplitOrder(Digits(m, 6), Digits(n, 6), x, y);
    SplitOrder(".", ".", Digits(m, 6) + x, Digits(n, 6) + y);
    TextLessIrreflexive(".");
  }

  function IsoTail(m: nat): string {
    (if m == 0 then "" else "." + Digits(m, 6)) + "+00:00"
  }

  lemma IsoTailShape(m: nat)
    ensures m == 0 ==> IsoTail(m) == "+00:00"
    ensures m != 0 ==> IsoTail(m) == "." + (Digits(m, 6) + "+00:00")
  {
  }

  lemma StampBeforeIsoTail(now: nat, e: nat)
    requires now < 1000000 && e < 1000000
    ensures TextLess("." + (Digits(now, 6) + "Z"), IsoTail(e)) <==> now < e
  {
    IsoTailShape(e);
    if e != 0 { FractionsOrder(now, e, "Z", "+00:00"); }
  }

  lemma IsoBeforeIsoTail(now: nat, e: nat)
    requires now < 1000000 && e < 1000000
    ensures TextLess(IsoTail(now), IsoTail(e)) <==> now < e
  {
    IsoTailShape(e);
    IsoTailShape(now);
    if now != 0 && e != 0 { FractionsOrder(now, e, "+00:00", "+00:00"); }
    TextLessIrreflexive("+00:00");
  }

  // ---------- The comparisons ----------

  /** `expires_at > ?` with an `isoformat` column against `timestamp()`: exactly time order. */
  lemma ExpiryAgainstTimestamp(expires: Utc, now: Utc)
    requires expires.Valid() && now.Valid()
    ensures TextLess(Timestamp(now), Isoformat(expires)) <==> now.Instant() < expires.Instant()
  {
    TailDecides(now, expires, "." + (Digits(now.micro, 6) + "Z"), IsoTail(expires.micro));
    StampBeforeIsoTail(now.micro, expires.micro);
  }

  /** `enrollment_expires_at <= ?` with both sides `isoformat`: exactly time order. */
  lemma ExpiryAgainstIsoformat(expires: Utc, now: Utc)
    requires expires.Valid() && now.Valid()
    ensures !TextLess(Isoformat(now), Isoformat(expires)) <==> expires.Instant() <= now.Instant()
  {
    TailDecides(now, expires, IsoTail(now.micro), IsoTail(expires.micro));
    IsoBeforeIsoTail(now.micro, expires.micro);
  }

  // ---------- Reading back ----------

  function ParseFields(text: string, layout: seq<Field>): Option<(seq<nat>, string)> {
    if layout == [] then Some(([], text))
    else
      var w, m := layout[0].width, layout[0].mark;
      if |text| < w + |m| || !AllDigits(text[..w]) || text[w..w + |m|] != m then None
      else
        match ParseFields(text[w + |m|..], layout[1..])
        case None => None
        case Some((values, rest)) => Some(([Number(text[..w])] + values, rest))
  }

  /** `fromisoformat` after the suffix is rewritten, for the two forms the server writes. */
  function ParseTimestamp(text: string): Option<Utc> {
    var offset := if text != [] && text[|text| - 1] == 'Z' then text[..|text| - 1] + "+00:00" else text;
    match ParseFields(offset, LAYOUT)
    case None => None
    case Some((v, rest)) =>
      if |v| != 6 then None
      else if rest == "+00:00" then Checked(v, 0)
      else if |rest| == 13 && rest[0] == '.' && AllDigits(rest[1..7]) && rest[7..] == "+00:00"
      then Checked(v, Number(rest[1..7]))
      else None
  }

  function Checked(v: seq<nat>, micro: nat): Option<Utc>
    requires |v| == 6
  {
    var t := Utc(v[0], v[1], v[2], v[3], v[4], v[5], micro);
    if t.Valid() then Some(t) else None
  }

  lemma Slices(a: string, b: string, c: string)
    ensures var t := a + (b + c); t[..|a|] == a && t[|a|..|a| + |b|] == b && t[|a| + |b|..] == c
  {
  }

  lemma {:induction false} FieldsReadBack(values: seq<nat>, layout: seq<Field>, rest: string)
    requires Fits(values, layout)
    ensures ParseFields(Written(values, layout) + rest, layout) == Some((values, rest))
  {
    if values == [] {
      assert Written(values, layout) + rest == rest;
    } else {
      hide Digits, Written, Number, ParseFields, AllDigits;
      var w, m := layout[0].width, layout[0].mark;
      var after := Written(values[1..], layout[1..]) + rest;
      FieldsReadBack(values[1..], layout[1..], rest);
      NumberOfDigits(values[0], w);
      WrittenHead(values, layout, rest);
      FieldReadBack(Digits(values[0], w), after, layout, values[1..], rest);
      assert values == [values[0]] + values[1..];
    }
  }

  /** One field in front of a text that parses. */
  lemma FieldReadBack(digits: string, after: string, layout: seq<Field>, values: seq<nat>, rest: string)
    requires layout != [] && |digits| == layout[0].width && AllDigits(digits)
    requires ParseFields(after, layout[1..]) == Some((values, rest))
    ensures ParseFields(digits + (layout[0].mark + after), layout) == Some(([Number(digits)] + values, rest))
  {
    hide Number, AllDigits;
    Slices(digits, layout[0].mark, after);
  }

  lemma SecondsReadBack(t: Utc, rest: string)
    requires t.Valid()
    ensures ParseFields(ToSeconds(t) + rest, LAYOUT) == Some((t.Values(), rest))
  {
    TimeFits(t);
    FieldsReadBack(t.Values(), LAYOUT, rest);
  }

  lemma FractionReadBack(t: Utc, text: string)
    requires t.Valid()
    requires text == ToSeconds(t) + ("." + (Digits(t.micro, 6) + "+00:00"))
    ensures ParseTimestamp(text) == Some(t)
  {
    var rest := "." + (Digits(t.micro, 6) + "+00:00");
    SecondsReadBack(t, rest);
    TimeFits(t);
    NumberOfDigits(t.micro, 6);
    assert rest[1..7] == Digits(t.micro, 6) && rest[7..] == "+00:00";
    assert text[|text| - 1] == rest[|rest| - 1] == '0';
  }

  /** A stored `timestamp` reads back as the instant it was written from. */
  lemma TimestampReadsBack(t: Utc)
    requires t.Valid()
    ensures ParseTimestamp(Timestamp(t)) == Some(t)
  {
    var text := Timestamp(t);
    assert text[|text| - 1] == 'Z';
    var offset := text[..|text| - 1] + "+00:00";
    assert offset == ToSeconds(t) + ("." + (Digits(t.micro, 6) + "+00:00"));
    FractionReadBack(t, offset);
    assert offset[|offset| - 1] == '0';
  }

  lemma IsoformatReadsBack(t: Utc)
    requires t.Valid()
    ensures ParseTimestamp(Isoformat(t)) == Some(t)
  {
    IsoTailShape(t.micro);
    if t.micro == 0 {
      SecondsReadBack(t, "+00:00");
      var text := Isoformat(t);
      assert text[|text| - 1] == "+00:00"[5];
    } else {
      FractionReadBack(t, Isoformat(t));
    }
  }
}
