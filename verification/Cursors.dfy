/** Base64 with the URL-safe alphabet and no padding (RFC 4648, sections 3.2 and 5), over ASCII text. */
module Base64Text {
  import opened Wrappers

  predicate Ascii(text: string) {
    forall i | 0 <= i < |text| :: text[i] as int < 128
  }

  function Letter(v: nat): (c: char)
    requires v < 64
  {
    if v < 26 then ('A' as int + v) as char
    else if v < 52 then ('a' as int + v - 26) as char
    else if v < 62 then ('0' as int + v - 52) as char
    else if v == 62 then '-'
    else '_'
  }

  /** Decoding also takes the two letters of the standard alphabet. */
  function Sextet(c: char): (v: Option<nat>)
    ensures v.Some? ==> v.value < 64
  {
    if 'A' <= c <= 'Z' then Some(c as int - 'A' as int)
    else if 'a' <= c <= 'z' then Some(c as int - 'a' as int + 26)
    else if '0' <= c <= '9' then Some(c as int - '0' as int + 52)
    else if c == '-' || c == '+' then Some(62)
    else if c == '_' || c == '/' then Some(63)
    else None
  }

  /** The six-bit groups of the text's bytes; the last group of a partial triple is filled with zeros. */
  function Groups(text: string): (s: seq<nat>)
    requires Ascii(text)
    ensures forall i | 0 <= i < |s| :: s[i] < 64
    ensures |s| % 4 != 1
  {
    if text == [] then []
    else
      var a := text[0] as int;
      if |text| == 1 then [a / 4, a % 4 * 16]
      else
        var b := text[1] as int;
        if |text| == 2 then [a / 4, a % 4 * 16 + b / 16, b % 16 * 4]
        else
          var c := text[2] as int;
          [a / 4, a % 4 * 16 + b / 16, b % 16 * 4 + c / 64, c % 64] + Groups(text[3..])
  }

  function Bytes(s: seq<nat>): Option<seq<nat>> {
    if s == [] then Some([])
    else if |s| == 1 then None
    else if |s| == 2 then Some([s[0] * 4 + s[1] / 16])
    else if |s| == 3 then Some([s[0] * 4 + s[1] / 16, s[1] % 16 * 16 + s[2] / 4])
    else
      match Bytes(s[4..])
      case None => None
      case Some(rest) =>
        Some([s[0] * 4 + s[1] / 16, s[1] % 16 * 16 + s[2] / 4, s[2] % 4 * 64 + s[3]] + rest)
  }

  function Encoded(text: string): string
    requires Ascii(text)
  {
    var s := Groups(text);
    seq(|s|, i requires 0 <= i < |s| => Letter(s[i]))
  }

  function Pads(n: nat): string {
    if n == 0 then "" else Pads(n - 1) + "="
  }

  function Unpadded(text: string): string {
    if text != [] && text[|text| - 1] == '=' then Unpadded(text[..|text| - 1]) else text
  }

  function Sextets(text: string): Option<seq<nat>> {
    if forall i | 0 <= i < |text| :: Sextet(text[i]).Some?
    then Some(seq(|text|, i requires 0 <= i < |text| => Sextet(text[i]).value))
    else None
  }

  function AsText(bytes: seq<nat>): Option<string> {
    if forall i | 0 <= i < |bytes| :: bytes[i] < 128
    then Some(seq(|bytes|, i requires 0 <= i < |bytes| => bytes[i] as char))
    else None
  }

  function Padded(cursor: string): string {
    cursor + Pads((4 - |cursor| % 4) % 4)
  }

  /** A strict decoder wants exactly the padding the data calls for. */
  function Data(padded: string): Option<string> {
    var data := Unpadded(padded);
    if |padded| - |data| != (4 - |data| % 4) % 4 || |data| % 4 == 1 then None else Some(data)
  }

  /** Padding completed to a multiple of four, then a strict decode. */
  function Decoded(cursor: string): Option<string> {
    match Data(Padded(cursor))
    case None => None
    case Some(data) =>
      match Sextets(data)
      case None => None
      case Some(groups) =>
        match Bytes(groups)
        case None => None
        case Some(bytes) => AsText(bytes)
  }

  lemma TripleBack(a: nat, b: nat, c: nat)
    requires a < 256 && b < 256 && c < 256
    ensures a / 4 * 4 + (a % 4 * 16 + b / 16) / 16 == a
    ensures (a % 4 * 16 + b / 16) % 16 * 16 + (b % 16 * 4 + c / 64) / 4 == b
    ensures (b % 16 * 4 + c / 64) % 4 * 64 + c % 64 == c
  {
  }

  lemma BytesOfTriple(text: string)
    requires Ascii(text) && |text| > 2 && Bytes(Groups(text[3..])).Some?
    ensures Bytes(Groups(text))
         == Some([text[0] as int, text[1] as int, text[2] as int] + Bytes(Groups(text[3..])).value)
  {
    hide Bytes, Groups;
    var w, x, y, z := GroupsOfTriple(text);
    BytesOfFour(w, x, y, z, Groups(text[3..]));
  }

  lemma GroupsOfTriple(text: string) returns (w: nat, x: nat, y: nat, z: nat)
    requires Ascii(text) && |text| > 2
    ensures Groups(text) == [w, x, y, z] + Groups(text[3..])
    ensures w * 4 + x / 16 == text[0] as int
    ensures x % 16 * 16 + y / 4 == text[1] as int
    ensures y % 4 * 64 + z == text[2] as int
  {
    var a, b, c := text[0] as int, text[1] as int, text[2] as int;
    w, x, y, z := a / 4, a % 4 * 16 + b / 16, b % 16 * 4 + c / 64, c % 64;
    TripleBack(a, b, c);
  }

  lemma BytesOfFour(w: nat, x: nat, y: nat, z: nat, rest: seq<nat>)
    requires Bytes(rest).Some?
    ensures Bytes([w, x, y, z] + rest)
         == Some([w * 4 + x / 16, x % 16 * 16 + y / 4, y % 4 * 64 + z] + Bytes(rest).value)
  {
    var s := [w, x, y, z] + rest;
    assert s[0] == w && s[1] == x && s[2] == y && s[3] == z && s[4..] == rest;
  }

  lemma {:induction false} BytesOfGroups(text: string)
    requires Ascii(text)
    ensures Bytes(Groups(text)).Some? && |Bytes(Groups(text)).value| == |text|
    ensures forall i | 0 <= i < |text| :: Bytes(Groups(text)).value[i] == text[i] as int
  {
    if |text| > 2 {
      BytesOfGroups(text[3..]);
      BytesOfTriple(text);
    } else if |text| == 2 {
      TripleBack(text[0] as int, text[1] as int, 0);
    } else if |text| == 1 {
      TripleBack(text[0] as int, 0, 0);
    }
  }

  lemma {:induction false} UnpaddedOf(text: string, n: nat)
    requires text == [] || text[|text| - 1] != '='
    ensures Unpadded(text + Pads(n)) == text && |Pads(n)| == n
  {
    if n == 0 {
      assert text + Pads(0) == text;
    } else {
      UnpaddedOf(text, n - 1);
      var padded := text + Pads(n);
      assert padded[..|padded| - 1] == text + Pads(n - 1);
    }
  }

  lemma SextetOfLetter(v: nat)
    requires v < 64
    ensures Sextet(Letter(v)) == Some(v) && Letter(v) != '='
  {
  }

  lemma SextetsOfEncoded(text: string)
    requires Ascii(text)
    ensures Sextets(Encoded(text)) == Some(Groups(text))
    ensures forall i | 0 <= i < |Encoded(text)| :: Encoded(text)[i] != '='
  {
    hide Letter, Sextet;
    var s := Groups(text);
    forall i | 0 <= i < |s| ensures Sextet(Encoded(text)[i]) == Some(s[i]) && Encoded(text)[i] != '=' {
      SextetOfLetter(s[i]);
    }
    assert Sextets(Encoded(text)).value == s;
  }

  lemma AsTextOf(text: string, bytes: seq<nat>)
    requires Ascii(text) && |bytes| == |text| && forall i | 0 <= i < |text| :: bytes[i] == text[i] as int
    ensures AsText(bytes) == Some(text)
  {
    assert AsText(bytes).value == text;
  }

  lemma PaddingComesOff(data: string)
    requires |data| % 4 != 1 && (data == [] || data[|data| - 1] != '=')
    ensures Data(Padded(data)) == Some(data)
  {
    hide Pads, Unpadded;
    UnpaddedOf(data, (4 - |data| % 4) % 4);
  }

  /** The text comes back, and the encoding needs no padding to say so. */
  lemma DecodesWhatWasEncoded(text: string)
    requires Ascii(text)
    ensures Decoded(Encoded(text)) == Some(text)
  {
    assert |Encoded(text)| % 4 != 1;
    hide Groups, Bytes, Encoded, Sextets, AsText, Data, Padded;
    SextetsOfEncoded(text);
    PaddingComesOff(Encoded(text));
    BytesOfGroups(text);
    AsTextOf(text, Bytes(Groups(text)).value);
  }
}

/** The pagination cursors: what each listing encodes, and what it accepts back. */
module Cursors {
  import opened Wrappers
  import opened JsonValues
  import opened Texts
  import opened Timestamps
  import opened Base64Text

  datatype CursorError = InvalidCursor

  // ---------- Integers as text ----------

  function DropUnderscores(s: string): string {
    if s == [] then [] else (if s[0] == '_' then [] else [s[0]]) + DropUnderscores(s[1..])
  }

  function Stripped(s: string): string {
    if s == [] then []
    else if IsSpace(s[0]) then Stripped(s[1..])
    else if IsSpace(s[|s| - 1]) then Stripped(s[..|s| - 1])
    else s
  }

  /** Digits, with single underscores between them. */
  predicate DigitRun(s: string) {
    && s != [] && IsDigit(s[0]) && IsDigit(s[|s| - 1])
    && (forall i | 0 <= i < |s| :: IsDigit(s[i]) || s[i] == '_')
    && (forall i | 0 < i < |s| :: s[i] == '_' ==> s[i - 1] != '_')
  }

  /** `int(text)` for ASCII text. */
  function ParseInt(text: string): Option<int> {
    var s := Stripped(text);
    var signed := s != [] && (s[0] == '-' || s[0] == '+');
    var body := if signed then s[1..] else s;
    if !DigitRun(body) then None
    else
      DroppedAreDigits(body);
      var n: int := Number(DropUnderscores(body));
      Some(if signed && s[0] == '-' then -n else n)
  }

  lemma {:induction false} DroppedAreDigits(s: string)
    requires forall i | 0 <= i < |s| :: IsDigit(s[i]) || s[i] == '_'
    ensures AllDigits(DropUnderscores(s))
  {
    if s != [] { DroppedAreDigits(s[1..]); }
  }

  lemma {:induction false} DigitsKept(s: string)
    requires AllDigits(s)
    ensures DropUnderscores(s) == s && Stripped(s) == s
  {
    if s != [] {
      DigitsKept(s[1..]);
      assert IsDigit(s[0]) && IsDigit(s[|s| - 1]);
    }
  }

  lemma ParsesDecimal(n: nat)
    ensures ParseInt(Decimal(n)) == Some(n)
  {
    DigitsKept(Decimal(n));
    NumberOfDecimal(n);
  }

  // ---------- Colon-separated fields ----------

  function Split(text: string): (parts: seq<string>)
    ensures parts != []
  {
    if text == [] then [""]
    else
      var rest := Split(text[1..]);
      if text[0] == ':' then [""] + rest else [[text[0]] + rest[0]] + rest[1..]
  }

  function Join(parts: seq<string>): string
    requires parts != []
  {
    if |parts| == 1 then parts[0] else parts[0] + (":" + Join(parts[1..]))
  }

  predicate Plain(part: string) { Ascii(part) && ':' !in part }

  lemma {:induction false} SplitFirst(part: string, rest: string)
    requires Plain(part)
    ensures Split(part) == [part]
    ensures Split(part + (":" + rest)) == [part] + Split(rest)
  {
    var text := part + (":" + rest);
    if part == [] {
      assert text[1..] == rest;
    } else {
      SplitFirst(part[1..], rest);
      assert text[1..] == part[1..] + (":" + rest);
      assert part == [part[0]] + part[1..];
    }
  }

  lemma {:induction false} SplitOfJoin(parts: seq<string>)
    requires parts != [] && forall i | 0 <= i < |parts| :: Plain(parts[i])
    ensures Split(Join(parts)) == parts && Ascii(Join(parts))
  {
    if |parts| == 1 {
      SplitFirst(parts[0], "");
    } else {
      SplitOfJoin(parts[1..]);
      SplitFirst(parts[0], Join(parts[1..]));
      assert parts == [parts[0]] + parts[1..];
    }
  }

  function Sealed(parts: seq<string>): string
    requires parts != [] && forall i | 0 <= i < |parts| :: Plain(parts[i])
  {
    SplitOfJoin(parts);
    Encoded(Join(parts))
  }

  function Unsealed(cursor: string): Option<seq<string>> {
    match Decoded(cursor)
    case None => None
    case Some(text) => Some(Split(text))
  }

  lemma UnsealsWhatWasSealed(parts: seq<string>)
    requires parts != [] && forall i | 0 <= i < |parts| :: Plain(parts[i])
    ensures Unsealed(Sealed(parts)) == Some(parts)
  {
    SplitOfJoin(parts);
    DecodesWhatWasEncoded(Join(parts));
  }

  lemma KindsPlain()
    ensures Plain("v1") && Plain("entries") && Plain("lines")
  {
  }

  lemma DecimalPlain(n: nat)
    ensures Plain(Decimal(n))
  {
    assert forall i | 0 <= i < |Decimal(n)| :: IsDigit(Decimal(n)[i]);
  }

  // ---------- Identifier and offset cursors ----------

  function EncodeNumber(n: nat): string {
    DecimalPlain(n);
    Sealed(["v1", Decimal(n)])
  }

  /** Exactly one colon can reach the integer; a second one makes `int` fail. */
  function DecodeNumber(cursor: string): Result<int, CursorError> {
    match Unsealed(cursor)
    case None => Err(InvalidCursor)
    case Some(parts) =>
      if |parts| != 2 || ParseInt(parts[1]).None? then Err(InvalidCursor)
      else if parts[0] != "v1" || ParseInt(parts[1]).value <= 0 then Err(InvalidCursor)
      else Ok(ParseInt(parts[1]).value)
  }

  lemma NumberCursorRoundTrip(n: nat)
    ensures DecodeNumber(EncodeNumber(n)) == if n > 0 then Ok(n) else Err(InvalidCursor)
  {
    DecimalPlain(n);
    ParsesDecimal(n);
    UnsealsWhatWasSealed(["v1", Decimal(n)]);
    hide Unsealed, Sealed, ParseInt, Decimal;
  }

  /** Only the version mark and one positive number are accepted. */
  lemma NumberAccepted(cursor: string, n: int)
    ensures DecodeNumber(cursor) == Ok(n) <==>
      n > 0 && exists text :: Unsealed(cursor) == Some(["v1", text]) && ParseInt(text) == Some(n)
  {
    hide Unsealed, ParseInt;
    var parts := Unsealed(cursor);
    if parts.Some? && |parts.value| == 2 { assert parts.value == [parts.value[0], parts.value[1]]; }
    if text :| Unsealed(cursor) == Some(["v1", text]) && ParseInt(text) == Some(n) {
      assert parts.value[1] == text;
    }
  }

  // ---------- Journal cursors ----------

  datatype Position = Entries(offset: int) | Lines(entry: int, offset: int)

  function EncodePosition(p: Position): string
    requires p.offset >= 0 && (p.Lines? ==> p.entry >= 0)
  {
    DecimalPlain(p.offset);
    match p
    case Entries(n) => Sealed(["v1", "entries", Decimal(n)])
    case Lines(m, n) => DecimalPlain(m); Sealed(["v1", "lines", Decimal(m), Decimal(n)])
  }

  function ParseInts(parts: seq<string>): Option<seq<int>> {
    if forall i | 0 <= i < |parts| :: ParseInt(parts[i]).Some?
    then Some(seq(|parts|, i requires 0 <= i < |parts| => ParseInt(parts[i]).value))
    else None
  }

  function DecodePosition(cursor: Option<string>): Result<Position, CursorError> {
    if cursor.None? then Ok(Entries(0))
    else
      match Unsealed(cursor.value)
      case None => Err(InvalidCursor)
      case Some(parts) => PositionOf(parts)
  }

  function PositionOf(parts: seq<string>): Result<Position, CursorError> {
    if |parts| < 3 || ParseInts(parts[2..]).None? then Err(InvalidCursor)
    else
      var v := ParseInts(parts[2..]).value;
      if parts[0] != "v1" || exists i | 0 <= i < |v| :: v[i] < 0 then Err(InvalidCursor)
      else if parts[1] == "entries" && |v| == 1 then Ok(Entries(v[0]))
      else if parts[1] == "lines" && |v| == 2 && v[0] > 0 && v[1] > 0 then Ok(Lines(v[0], v[1]))
      else Err(InvalidCursor)
  }

  lemma EntriesPosition(n: nat)
    ensures PositionOf(["v1", "entries", Decimal(n)]) == Ok(Entries(n))
  {
    var parts := ["v1", "entries", Decimal(n)];
    ParsesDecimal(n);
    hide ParseInt, Decimal;
    assert parts[2..] == [Decimal(n)];
    assert ParseInts(parts[2..]).value == [n];
  }

  lemma LinesPosition(m: nat, n: nat)
    ensures PositionOf(["v1", "lines", Decimal(m), Decimal(n)])
         == if m == 0 || n == 0 then Err(InvalidCursor) else Ok(Lines(m, n))
  {
    var parts := ["v1", "lines", Decimal(m), Decimal(n)];
    ParsesDecimal(m);
    ParsesDecimal(n);
    hide ParseInt, Decimal;
    assert parts[2..] == [Decimal(m), Decimal(n)];
    assert ParseInts(parts[2..]).value == [m, n];
    assert parts[1][0] != "entries"[0];
  }

  lemma PositionRoundTrip(p: Position)
    requires p.offset >= 0 && (p.Lines? ==> p.entry >= 0)
    ensures DecodePosition(Some(EncodePosition(p)))
         == if p.Lines? && (p.entry == 0 || p.offset == 0) then Err(InvalidCursor) else Ok(p)
  {
    hide Unsealed, PositionOf, Decimal, Plain;
    KindsPlain();
    DecimalPlain(p.offset);
    if p.Entries? {
      EntriesPosition(p.offset);
      UnsealsWhatWasSealed(["v1", "entries", Decimal(p.offset)]);
    } else {
      DecimalPlain(p.entry);
      LinesPosition(p.entry, p.offset);
      UnsealsWhatWasSealed(["v1", "lines", Decimal(p.entry), Decimal(p.offset)]);
    }
  }

  lemma PositionOfParts(parts: seq<string>, p: Position)
    ensures PositionOf(parts) == Ok(p) <==>
      if p.Entries?
      then |parts| == 3 && parts[0] == "v1" && parts[1] == "entries" && ParseInt(parts[2]) == Some(p.offset)
           && p.offset >= 0
      else |parts| == 4 && parts[0] == "v1" && parts[1] == "lines" && ParseInt(parts[2]) == Some(p.entry)
           && ParseInt(parts[3]) == Some(p.offset) && p.entry > 0 && p.offset > 0
  {
    hide ParseInt;
    assert "entries"[0] != "lines"[0];
    if |parts| >= 3 {
      var rest := parts[2..];
      assert forall i | 0 <= i < |rest| :: rest[i] == parts[i + 2];
      assert ParseInts(rest).Some? ==> |ParseInts(rest).value| == |rest|;
    }
  }

  /** Only the two kinds of position are accepted, with a page offset from zero on or a line behind an entry's first. */
  lemma PositionAccepted(cursor: string, p: Position)
    ensures DecodePosition(Some(cursor)) == Ok(p) <==>
      && Unsealed(cursor).Some?
      && var parts := Unsealed(cursor).value;
         if p.Entries?
         then |parts| == 3 && parts[0] == "v1" && parts[1] == "entries" && ParseInt(parts[2]) == Some(p.offset)
              && p.offset >= 0
         else |parts| == 4 && parts[0] == "v1" && parts[1] == "lines" && ParseInt(parts[2]) == Some(p.entry)
              && ParseInt(parts[3]) == Some(p.offset) && p.entry > 0 && p.offset > 0
  {
    hide Unsealed, ParseInt, PositionOf;
    if Unsealed(cursor).Some? { PositionOfParts(Unsealed(cursor).value, p); }
  }

  // ---------- Request-bound cursors ----------

  datatype Date = Date(year: nat, month: nat, day: nat) {
    predicate Valid() { year < 10000 && month < 100 && day < 100 }
  }

  const DATE_LAYOUT: seq<Field> := [Field(4, "-"), Field(2, "-"), Field(2, "")]

  function DateText(d: Date): string { Written([d.year, d.month, d.day], DATE_LAYOUT) }

  datatype RatesRequest = RatesRequest(company: nat, currency: nat, start: Date, end: Date) {
    predicate Valid() { start.Valid() && end.Valid() }
  }

  lemma {:induction false} WrittenPlain(values: seq<nat>, layout: seq<Field>)
    requires |values| == |layout| && forall i | 0 <= i < |layout| :: Plain(layout[i].mark)
    ensures Plain(Written(values, layout))
  {
    if values != [] {
      WrittenPlain(values[1..], layout[1..]);
      var d := Digits(values[0], layout[0].width);
      assert forall i | 0 <= i < |d| :: IsDigit(d[i]);
    }
  }

  lemma DateTextsDiffer(a: Date, b: Date)
    requires a.Valid() && b.Valid() && DateText(a) == DateText(b)
    ensures a == b
  {
    assert Pow10(2) == 100 && Pow10(4) == 100 * Pow10(2);
    var v, w := [a.year, a.month, a.day], [b.year, b.month, b.day];
    FieldsReadBack(v, DATE_LAYOUT, "");
    FieldsReadBack(w, DATE_LAYOUT, "");
    hide ParseFields, Written;
    assert a.year == v[0] == w[0] && a.month == v[1] == w[1] && a.day == v[2] == w[2];
  }

  function Binding(r: RatesRequest, offset: nat): (parts: seq<string>)
    ensures |parts| == 6 && forall i | 0 <= i < |parts| :: Plain(parts[i])
  {
    DecimalPlain(r.company);
    DecimalPlain(r.currency);
    DecimalPlain(offset);
    WrittenPlain([r.start.year, r.start.month, r.start.day], DATE_LAYOUT);
    WrittenPlain([r.end.year, r.end.month, r.end.day], DATE_LAYOUT);
    ["v1", Decimal(r.company), Decimal(r.currency), DateText(r.start), DateText(r.end), Decimal(offset)]
  }

  function EncodeRates(r: RatesRequest, offset: nat): string {
    Sealed(Binding(r, offset))
  }

  function DecodeRates(r: RatesRequest, cursor: Option<string>): Result<int, CursorError> {
    if cursor.None? then Ok(0)
    else
      match Unsealed(cursor.value)
      case None => Err(InvalidCursor)
      case Some(parts) =>
        if |parts| != 6 || ParseInt(parts[5]).None? then Err(InvalidCursor)
        else if parts[0] != "v1" || parts[1] != Decimal(r.company) || parts[2] != Decimal(r.currency)
             || parts[3] != DateText(r.start) || parts[4] != DateText(r.end) || ParseInt(parts[5]).value <= 0
        then Err(InvalidCursor)
        else Ok(ParseInt(parts[5]).value)
  }

  /** Only the request's own binding and one positive offset are accepted. */
  lemma RatesAccepted(r: RatesRequest, cursor: string, n: int)
    ensures DecodeRates(r, Some(cursor)) == Ok(n) <==>
      n > 0 && exists text ::
        && Unsealed(cursor)
           == Some(["v1", Decimal(r.company), Decimal(r.currency), DateText(r.start), DateText(r.end), text])
        && ParseInt(text) == Some(n)
  {
    hide Unsealed, ParseInt, Decimal, DateText;
    var parts := Unsealed(cursor);
    if parts.Some? && |parts.value| == 6 {
      var p := parts.value;
      assert p == [p[0], p[1], p[2], p[3], p[4], p[5]];
    }
    if text :| Unsealed(cursor)
               == Some(["v1", Decimal(r.company), Decimal(r.currency), DateText(r.start), DateText(r.end), text])
               && ParseInt(text) == Some(n) {
      assert parts.value[5] == text;
    }
  }

  /** A rate cursor answers its own request with its offset, and no other request at all. */
  lemma RatesCursorBound(issued: RatesRequest, used: RatesRequest, offset: nat)
    requires issued.Valid() && used.Valid()
    ensures DecodeRates(used, Some(EncodeRates(issued, offset)))
         == if used == issued && offset > 0 then Ok(offset) else Err(InvalidCursor)
  {
    var parts := Binding(issued, offset);
    UnsealsWhatWasSealed(parts);
    ParsesDecimal(offset);
    NumberOfDecimal(issued.company);
    NumberOfDecimal(used.company);
    NumberOfDecimal(issued.currency);
    NumberOfDecimal(used.currency);
    hide Unsealed, Sealed, ParseInt, Decimal, DateText, Number;
    if DateText(issued.start) == DateText(used.start) { DateTextsDiffer(issued.start, used.start); }
    if DateText(issued.end) == DateText(used.end) { DateTextsDiffer(issued.end, used.end); }
  }
}
