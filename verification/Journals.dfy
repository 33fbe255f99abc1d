/** Exact half-up rounding to an increment. Amounts are exact decimals; here reals. */
module Rounding {

  /** `quantize(Decimal("1"), ROUND_HALF_UP)`: ties go away from zero. */
  function HalfUp(x: real): int {
    if x >= 0.0 then (x + 0.5).Floor else -((-x + 0.5).Floor)
  }

  function Times(x: real, increment: real): real { x * increment }

  function Multiple(n: int, increment: real): real { Times(n as real, increment) }

  function Rounded(value: real, increment: real): real
    requires increment > 0.0
  {
    Multiple(HalfUp(value / increment), increment)
  }

  function Abs(x: real): real { if x < 0.0 then -x else x }

  lemma HalfUpNear(x: real)
    ensures Abs(HalfUp(x) as real - x) <= 0.5
    ensures HalfUp(-x) == -HalfUp(x)
  {
  }

  /** Numbers that round to one integer lie less than one apart: a tie goes to one side only. */
  lemma HalfUpAlike(x: real, y: real)
    requires HalfUp(x) == HalfUp(y)
    ensures Abs(x - y) < 1.0
  {
  }

  lemma HalfUpWhole(n: int)
    ensures HalfUp(n as real) == n
  {
  }

  lemma Quotient(value: real, increment: real)
    requires increment > 0.0
    ensures Times(value / increment, increment) == value
    ensures (-value) / increment == -(value / increment)
  {
    assert (-(value / increment)) * increment == -value;
  }

  lemma Scale(a: real, b: real, increment: real)
    requires increment > 0.0
    ensures Abs(Times(a, increment) - Times(b, increment)) == Times(Abs(a - b), increment)
    ensures a < b <==> Times(a, increment) < Times(b, increment)
  {
    assert a * increment - b * increment == (a - b) * increment;
    if a - b >= 0.0 {
      assert (a - b) * increment >= 0.0;
    } else {
      assert (b - a) * increment > 0.0;
      assert (b - a) * increment == -((a - b) * increment);
    }
  }

  lemma TimesKnown(x: real, increment: real)
    ensures Times(0.5, increment) == increment / 2.0 && Times(1.0, increment) == increment
    ensures Times(-x, increment) == -Times(x, increment)
  {
  }

  lemma WholeQuotient(n: int, increment: real)
    requires increment > 0.0
    ensures Multiple(n, increment) / increment == n as real
  {
    hide Times;
    var v := Multiple(n, increment);
    Quotient(v, increment);
    Scale(n as real, v / increment, increment);
    Scale(v / increment, n as real, increment);
  }

  /** Odd, and never further than half an increment away. */
  lemma RoundedNear(value: real, increment: real)
    requires increment > 0.0
    ensures Abs(Rounded(value, increment) - value) <= increment / 2.0
    ensures Rounded(-value, increment) == -Rounded(value, increment)
  {
    hide HalfUp, Times;
    var q := value / increment;
    var n := HalfUp(q) as real;
    HalfUpNear(q);
    Quotient(value, increment);
    Scale(n, q, increment);
    Scale(0.5, Abs(n - q), increment);
    TimesKnown(n, increment);
    assert HalfUp(-q) as real == -n;
  }

  /** Multiples of the increment are left alone, so rounding twice is rounding once. */
  lemma RoundedFixesMultiples(n: int, increment: real)
    requires increment > 0.0
    ensures Rounded(Multiple(n, increment), increment) == Multiple(n, increment)
  {
    WholeQuotient(n, increment);
    HalfUpWhole(n);
  }

  lemma RoundedIdempotent(value: real, increment: real)
    requires increment > 0.0
    ensures Rounded(Rounded(value, increment), increment) == Rounded(value, increment)
  {
    hide HalfUp, Multiple;
    RoundedFixesMultiples(HalfUp(value / increment), increment);
  }

  /** Amounts that round alike are less than one increment apart. */
  lemma RoundedAlike(a: real, b: real, increment: real)
    requires increment > 0.0 && Rounded(a, increment) == Rounded(b, increment)
    ensures Abs(a - b) < increment
  {
    var p, q := a / increment, b / increment;
    TimesKnown(1.0, increment);
    hide HalfUp, Multiple, Times;
    Quotient(a, increment);
    Quotient(b, increment);
    WholeQuotient(HalfUp(p), increment);
    WholeQuotient(HalfUp(q), increment);
    assert HalfUp(p) as real == HalfUp(q) as real;
    HalfUpAlike(p, q);
    Scale(p, q, increment);
    Scale(Abs(p - q), 1.0, increment);
  }

  /** Amounts in whole increments round alike exactly when they are equal. */
  lemma RoundedMultiplesAlike(m: int, n: int, increment: real)
    requires increment > 0.0
    ensures Rounded(Multiple(m, increment), increment) == Rounded(Multiple(n, increment), increment)
       <==> Multiple(m, increment) == Multiple(n, increment)
  {
    RoundedFixesMultiples(m, increment);
    RoundedFixesMultiples(n, increment);
  }

  // ---------- Grids finer than the increment ----------

  lemma HalfUpBounds(x: real)
    requires x >= 0.0
    ensures 0 <= HalfUp(x) && x - 0.5 < HalfUp(x) as real <= x + 0.5
    ensures forall y: real :: x <= y ==> HalfUp(x) <= HalfUp(y)
  {
  }

  lemma TimesNext(k: int, q: real)
    ensures Times((k + 1) as real, q) == Times(k as real, q) + q && Times(1.0, q) == q
  {
    assert (k + 1) as real == k as real + 1.0;
  }

  /** If `n` steps of less than one do not climb `n` integers, two neighbours round alike. */
  lemma {:induction false} NeighboursAlike(q: real, n: nat) returns (k: nat)
    requires 0.0 < q < 1.0 && n >= 1
    requires HalfUp(Times((n + 1) as real, q)) < HalfUp(q) + n
    ensures k >= 1 && HalfUp(Times(k as real, q)) == HalfUp(Times((k + 1) as real, q))
    decreases n
  {
    TimesNext(n, q);
    TimesPositive(n, q);
    HalfUpBounds(Times(n as real, q));
    if HalfUp(Times(n as real, q)) == HalfUp(Times((n + 1) as real, q)) {
      k := n;
    } else {
      TimesNext(0, q);
      k := NeighboursAlike(q, n - 1);
    }
  }

  lemma TimesPositive(n: nat, q: real)
    requires q > 0.0
    ensures Times(n as real, q) >= 0.0 && (n > 0 ==> Times(n as real, q) > 0.0)
  {
  }

  /** Steps of less than one always have such neighbours. */
  lemma SomeNeighboursAlike(q: real) returns (k: nat)
    requires 0.0 < q < 1.0
    ensures k >= 1 && HalfUp(Times(k as real, q)) == HalfUp(Times((k + 1) as real, q))
  {
    var n: nat := (2.0 / (1.0 - q)).Floor + 1;
    Lag(q, n);
    TimesNext(n, q);
    TimesPositive(n + 1, q);
    HalfUpBounds(Times((n + 1) as real, q));
    HalfUpBounds(q);
    k := NeighboursAlike(q, n);
  }

  lemma Lag(q: real, n: nat)
    requires 0.0 < q < 1.0 && n as real > 2.0 / (1.0 - q)
    ensures Times(n as real, q) < n as real - 2.0 && n >= 1
  {
    var rest := 1.0 - q;
    assert 2.0 / rest * rest == 2.0;
    Scale(2.0 / rest, n as real, rest);
    assert n as real * rest == n as real - n as real * q;
  }

  /** A multiple of the grid is the same multiple of the grid's share of an increment. */
  lemma GridQuotient(k: int, grid: real, increment: real)
    requires increment > 0.0
    ensures Multiple(k, grid) / increment == Times(k as real, grid / increment)
  {
    var a, b := Multiple(k, grid) / increment, Times(k as real, grid / increment);
    assert a * increment == k as real * grid;
    assert b * increment == k as real * (grid / increment * increment) == k as real * grid;
    Scale(a, b, increment);
    Scale(b, a, increment);
  }
}

/** Manual journal entries: what a draft must satisfy, and what posting finds. */
module JournalDrafts {
  import opened Wrappers
  import opened Rounding

  datatype LineInput = LineInput(account: int, partner: Option<int>, debit: real, credit: real, analytic: Option<int>)

  datatype EntryLine = EntryLine(account: int, debit: real, credit: real)

  datatype Entry = Entry(kind: string, state: string, lines: seq<EntryLine>)

  /** What the server offers the company. */
  datatype World = World(journals: set<int>, accounts: set<int>, partners: set<int>, analytics: set<int>)

  datatype DraftError =
    | InvalidInput | JournalNotFound | AccountNotFound | PartnerUnavailable | AnalyticUnavailable
    | Unbalanced | NotDraft

  datatype Finding = TooFewLines | LineAmountInvalid | EntryUnbalanced

  function Debits(lines: seq<EntryLine>): real {
    if lines == [] then 0.0 else lines[0].debit + Debits(lines[1..])
  }

  function Credits(lines: seq<EntryLine>): real {
    if lines == [] then 0.0 else lines[0].credit + Credits(lines[1..])
  }

  predicate AmountsOk(debit: real, credit: real) {
    debit >= 0.0 && credit >= 0.0 && (debit > 0.0) != (credit > 0.0)
  }

  /** The request schema. */
  predicate WellFormed(lines: seq<LineInput>) {
    && 2 <= |lines| <= 500
    && forall i | 0 <= i < |lines| ::
         && lines[i].account > 0 && AmountsOk(lines[i].debit, lines[i].credit)
         && (lines[i].partner.Some? ==> lines[i].partner.value > 0)
         && (lines[i].analytic.Some? ==> lines[i].analytic.value > 0)
  }

  function Drafted(lines: seq<LineInput>): seq<EntryLine> {
    seq(|lines|, i requires 0 <= i < |lines| => EntryLine(lines[i].account, lines[i].debit, lines[i].credit))
  }

  function PrepareDraft(w: World, journal: int, lines: seq<LineInput>, increment: real)
    : Result<seq<EntryLine>, DraftError>
    requires increment > 0.0
  {
    if !WellFormed(lines) then Err(InvalidInput)
    else if journal !in w.journals then Err(JournalNotFound)
    else if exists i | 0 <= i < |lines| :: lines[i].account !in w.accounts then Err(AccountNotFound)
    else if exists i | 0 <= i < |lines| :: lines[i].partner.Some? && lines[i].partner.value !in w.partners
    then Err(PartnerUnavailable)
    else if exists i | 0 <= i < |lines| :: lines[i].analytic.Some? && lines[i].analytic.value !in w.analytics
    then Err(AnalyticUnavailable)
    else
      var draft := Drafted(lines);
      if Rounded(Debits(draft), increment) != Rounded(Credits(draft), increment) then Err(Unbalanced)
      else Ok(draft)
  }

  function PreparePost(entry: Entry, increment: real): Result<seq<Finding>, DraftError>
    requires increment > 0.0
  {
    if entry.kind != "entry" || entry.state != "draft" then Err(NotDraft)
    else
      Ok((if |entry.lines| < 2 then [TooFewLines] else [])
         + (if exists i | 0 <= i < |entry.lines| :: !AmountsOk(entry.lines[i].debit, entry.lines[i].credit)
            then [LineAmountInvalid] else [])
         + (if Rounded(Debits(entry.lines), increment) != Rounded(Credits(entry.lines), increment)
            then [EntryUnbalanced] else []))
  }

  /** One side of the line is charged and the other is not. */
  predicate OneSided(debit: real, credit: real) {
    (debit > 0.0 && credit == 0.0) || (debit == 0.0 && credit > 0.0)
  }

  lemma OneSidedIsOk(debit: real, credit: real)
    ensures AmountsOk(debit, credit) <==> OneSided(debit, credit)
  {
  }

  /** Two to five hundred one-sided lines under positive ids. */
  predicate Proper(lines: seq<LineInput>) {
    && 2 <= |lines| <= 500
    && forall l | l in lines ::
         && l.account > 0 && OneSided(l.debit, l.credit)
         && (l.partner.Some? ==> l.partner.value > 0) && (l.analytic.Some? ==> l.analytic.value > 0)
  }

  /** Every id of the draft is one the server offers the company. */
  predicate Offered(w: World, journal: int, lines: seq<LineInput>) {
    && journal in w.journals
    && forall l | l in lines ::
         && l.account in w.accounts && (l.partner.Some? ==> l.partner.value in w.partners)
         && (l.analytic.Some? ==> l.analytic.value in w.analytics)
  }

  lemma ProperIsWellFormed(lines: seq<LineInput>)
    ensures WellFormed(lines) <==> Proper(lines)
  {
    assert forall i | 0 <= i < |lines| :: lines[i] in lines;
  }

  /** A draft is accepted exactly when it is proper, all it names is offered, and its totals round alike. */
  lemma DraftAnswers(w: World, journal: int, lines: seq<LineInput>, increment: real)
    requires increment > 0.0
    ensures var r, draft := PrepareDraft(w, journal, lines, increment), Drafted(lines);
      var balanced := Rounded(Debits(draft), increment) == Rounded(Credits(draft), increment);
      && (r.Ok? <==> Proper(lines) && Offered(w, journal, lines) && balanced)
      && (r == Err(InvalidInput) <==> !Proper(lines))
      && (r == Err(JournalNotFound) <==> Proper(lines) && journal !in w.journals)
      && (r == Err(AccountNotFound) <==>
            Proper(lines) && journal in w.journals && exists l :: l in lines && l.account !in w.accounts)
      && (r == Err(Unbalanced) <==> Proper(lines) && Offered(w, journal, lines) && !balanced)
      && (r.Ok? ==> |r.value| == |lines| && forall i | 0 <= i < |lines| ::
            r.value[i] == EntryLine(lines[i].account, lines[i].debit, lines[i].credit))
  {
    ProperIsWellFormed(lines);
    hide WellFormed, Proper, Rounded, Debits, Credits;
    assert forall i | 0 <= i < |lines| :: lines[i] in lines;
  }

  /** An accepted draft is balanced to within one increment. */
  lemma AcceptedNearlyBalanced(w: World, journal: int, lines: seq<LineInput>, increment: real)
    requires increment > 0.0 && PrepareDraft(w, journal, lines, increment).Ok?
    ensures var draft := PrepareDraft(w, journal, lines, increment).value;
      Abs(Debits(draft) - Credits(draft)) < increment
  {
    var draft := Drafted(lines);
    RoundedAlike(Debits(draft), Credits(draft), increment);
  }

  /** The bound is not zero: a draft may be accepted, and post clean, with unequal totals. */
  lemma AcceptedYetUnequal()
    ensures var w, lines := World({1}, {1}, {}, {}),
                            [LineInput(1, None, 12.0, 0.0, None), LineInput(1, None, 0.0, 10.0, None)];
      && PrepareDraft(w, 1, lines, 10.0).Ok?
      && Debits(PrepareDraft(w, 1, lines, 10.0).value) != Credits(PrepareDraft(w, 1, lines, 10.0).value)
  {
    var lines := [LineInput(1, None, 12.0, 0.0, None), LineInput(1, None, 0.0, 10.0, None)];
    var draft := Drafted(lines);
    assert draft == [EntryLine(1, 12.0, 0.0), EntryLine(1, 0.0, 10.0)];
    TwoTotals(draft[0], draft[1]);
    assert 12.0 / 10.0 == 1.2 && 10.0 / 10.0 == 1.0;
    assert HalfUp(1.2) == 1 && HalfUp(1.0) == 1;
  }

  ghost predicate Whole(x: real, increment: real) {
    exists n: int :: x == Multiple(n, increment)
  }

  ghost predicate InMultiples(lines: seq<EntryLine>, increment: real) {
    forall i | 0 <= i < |lines| :: Whole(lines[i].debit, increment) && Whole(lines[i].credit, increment)
  }

  lemma MultiplesAdd(a: int, b: int, increment: real)
    ensures Multiple(a, increment) + Multiple(b, increment) == Multiple(a + b, increment)
  {
    assert (a + b) as real == a as real + b as real;
  }

  lemma {:induction false} TotalsAreMultiples(lines: seq<EntryLine>, increment: real) returns (m: int, n: int)
    requires InMultiples(lines, increment)
    ensures Debits(lines) == Multiple(m, increment) && Credits(lines) == Multiple(n, increment)
  {
    if lines == [] {
      m, n := 0, 0;
    } else {
      var a, b := TotalsAreMultiples(lines[1..], increment);
      assert Whole(lines[0].debit, increment) && Whole(lines[0].credit, increment);
      var c :| lines[0].debit == Multiple(c, increment);
      var d :| lines[0].credit == Multiple(d, increment);
      MultiplesAdd(c, a, increment);
      MultiplesAdd(d, b, increment);
      m, n := c + a, d + b;
    }
  }

  /** With amounts in whole increments balance is decided exactly: no other refusal, then accepted means equal. */
  lemma WholeIncrementsBalanceExactly(w: World, journal: int, lines: seq<LineInput>, increment: real)
    requires increment > 0.0 && InMultiples(Drafted(lines), increment)
    ensures var r, draft := PrepareDraft(w, journal, lines, increment), Drafted(lines);
      && (r.Ok? ==> Debits(draft) == Credits(draft))
      && (r == Err(Unbalanced) ==> Debits(draft) != Credits(draft))
  {
    var m, n := TotalsAreMultiples(Drafted(lines), increment);
    RoundedMultiplesAlike(m, n, increment);
  }

  /** Every accepted draft with its amounts on the grid has equal totals. */
  ghost predicate GridBalances(grid: real, increment: real)
    requires increment > 0.0
  {
    forall w, journal, lines | PrepareDraft(w, journal, lines, increment).Ok? && InMultiples(Drafted(lines), grid) ::
      Debits(Drafted(lines)) == Credits(Drafted(lines))
  }

  /** Exactly when acceptance means balance: when amounts come in steps no finer than the currency's rounding. */
  lemma GridBalancesExactly(grid: real, increment: real)
    requires grid > 0.0 && increment > 0.0
    ensures GridBalances(grid, increment) <==> grid >= increment
  {
    if grid >= increment {
      forall w, journal, lines | PrepareDraft(w, journal, lines, increment).Ok? && InMultiples(Drafted(lines), grid)
        ensures Debits(Drafted(lines)) == Credits(Drafted(lines))
      {
        CoarseGridBalances(w, journal, lines, grid, increment);
      }
    } else {
      var w, lines := FineGridUnbalances(grid, increment);
    }
  }

  lemma CoarseGridBalances(w: World, journal: int, lines: seq<LineInput>, grid: real, increment: real)
    requires 0.0 < increment <= grid && PrepareDraft(w, journal, lines, increment).Ok?
    requires InMultiples(Drafted(lines), grid)
    ensures Debits(Drafted(lines)) == Credits(Drafted(lines))
  {
    var m, n := TotalsAreMultiples(Drafted(lines), grid);
    AcceptedNearlyBalanced(w, journal, lines, increment);
    hide Multiple, Times;
    assert Multiple(m, grid) == Times(m as real, grid) && Multiple(n, grid) == Times(n as real, grid) by {
      MultipleIs(m, grid);
      MultipleIs(n, grid);
    }
    Scale(m as real, n as real, grid);
    TimesKnown(1.0, grid);
    Scale(Abs(m as real - n as real), 1.0, grid);
    assert Abs(m as real - n as real) < 1.0;
    assert m == n;
  }

  lemma MultipleIs(n: int, grid: real)
    ensures Multiple(n, grid) == Times(n as real, grid)
  {
  }

  /** A debit and a credit one step apart. */
  function StepApart(k: nat, grid: real): seq<LineInput> {
    [LineInput(1, None, Multiple(k + 1, grid), 0.0, None), LineInput(1, None, 0.0, Multiple(k, grid), None)]
  }

  lemma TwoTotals(a: EntryLine, b: EntryLine)
    ensures Debits([a, b]) == a.debit + b.debit && Credits([a, b]) == a.credit + b.credit
  {
    var one, both := [b], [a, b];
    assert both[1..] == one && one[1..] == [];
    assert Debits(one) == b.debit && Credits(one) == b.credit;
  }

  lemma StepApartTotals(k: nat, grid: real)
    requires k >= 1 && grid > 0.0
    ensures var lines := StepApart(k, grid); var draft := Drafted(lines);
      && WellFormed(lines) && InMultiples(draft, grid)
      && Debits(draft) == Multiple(k + 1, grid) && Credits(draft) == Multiple(k, grid)
      && Debits(draft) != Credits(draft)
  {
    TimesPositive(k, grid);
    TimesNext(k, grid);
    var draft := Drafted(StepApart(k, grid));
    assert Times(0.0, grid) == 0.0;
    assert 0.0 == Multiple(0, grid);
    assert draft == [EntryLine(1, Multiple(k + 1, grid), 0.0), EntryLine(1, 0.0, Multiple(k, grid))];
    TwoTotals(draft[0], draft[1]);
    assert Whole(Multiple(k + 1, grid), grid) && Whole(0.0, grid) && Whole(Multiple(k, grid), grid);
  }

  lemma FineGridUnbalances(grid: real, increment: real) returns (w: World, lines: seq<LineInput>)
    requires 0.0 < grid < increment
    ensures PrepareDraft(w, 1, lines, increment).Ok? && InMultiples(Drafted(lines), grid)
    ensures Debits(Drafted(lines)) != Credits(Drafted(lines))
  {
    var q := grid / increment;
    Share(grid, increment);
    var k := SomeNeighboursAlike(q);
    GridQuotient(k, grid, increment);
    GridQuotient(k + 1, grid, increment);
    StepApartTotals(k, grid);
    w, lines := World({1}, {1}, {}, {}), StepApart(k, grid);
    hide HalfUp, Times, Multiple, Debits, Credits, WellFormed, InMultiples;
  }

  lemma Share(grid: real, increment: real)
    requires 0.0 < grid < increment
    ensures 0.0 < grid / increment < 1.0
  {
    Quotient(grid, increment);
    TimesKnown(0.0, increment);
    Scale(grid / increment, 1.0, increment);
    Scale(0.0, grid / increment, increment);
    assert Times(0.0, increment) == 0.0;
  }

  /** An accepted draft, read back unchanged, posts with no findings. */
  lemma AcceptedPostsClean(w: World, journal: int, lines: seq<LineInput>, increment: real)
    requires increment > 0.0 && PrepareDraft(w, journal, lines, increment).Ok?
    ensures PreparePost(Entry("entry", "draft", PrepareDraft(w, journal, lines, increment).value), increment) == Ok([])
  {
    hide Rounded, Debits, Credits;
    var draft := Drafted(lines);
    assert forall i | 0 <= i < |draft| ::
      AmountsOk(lines[i].debit, lines[i].credit) && draft[i].debit == lines[i].debit;
    CleanExactly(Entry("entry", "draft", draft), increment);
  }

  /** Posting is for manual drafts, and each finding is made for its own reason. */
  lemma PostAnswers(entry: Entry, increment: real)
    requires increment > 0.0
    ensures var r := PreparePost(entry, increment);
      && (r.Ok? <==> entry.kind == "entry" && entry.state == "draft") && (r.Err? ==> r.error == NotDraft)
      && (r.Ok? ==>
            && (TooFewLines in r.value <==> |entry.lines| < 2)
            && (LineAmountInvalid in r.value <==> exists l :: l in entry.lines && !OneSided(l.debit, l.credit))
            && (EntryUnbalanced in r.value <==>
                  Rounded(Debits(entry.lines), increment) != Rounded(Credits(entry.lines), increment)))
  {
    hide Rounded, Debits, Credits;
    assert forall i | 0 <= i < |entry.lines| :: entry.lines[i] in entry.lines;
  }

  /** No findings: exactly a balanced entry of at least two one-sided lines. */
  lemma CleanExactly(entry: Entry, increment: real)
    requires increment > 0.0 && entry.kind == "entry" && entry.state == "draft"
    ensures PreparePost(entry, increment) == Ok([]) <==>
      && |entry.lines| >= 2
      && (forall i | 0 <= i < |entry.lines| :: OneSided(entry.lines[i].debit, entry.lines[i].credit))
      && Rounded(Debits(entry.lines), increment) == Rounded(Credits(entry.lines), increment)
  {
    hide Rounded, Debits, Credits;
  }
}

/** The journal listing: pages of entries, and pages of one entry's lines. */
module JournalListing {
  import opened Wrappers
  import opened Cursors
  import opened Sums

  const LINE_PAGE_SIZE: nat := 100

  datatype Line = Line(id: int, debit: real, credit: real)

  /** Dates count days. */
  datatype Entry = Entry(id: int, date: int, lines: seq<Line>)

  datatype Item = Item(
    id: int, date: int, debit: real, credit: real, lines: seq<Line>, truncated: bool, cursor: Option<string>)

  datatype Listing = Listing(items: seq<Item>, next: Option<string>)

  function Debit(): Line -> real { (l: Line) => l.debit }
  function Credit(): Line -> real { (l: Line) => l.credit }

  /** The totals are those of the whole entry, whatever part of its lines the item shows. */
  function EntryItem(e: Entry, offset: nat): Item
    requires e.id >= 0
  {
    var from := if offset < |e.lines| then offset else |e.lines|;
    var to := if offset + LINE_PAGE_SIZE < |e.lines| then offset + LINE_PAGE_SIZE else |e.lines|;
    var lines := if from <= to then e.lines[from..to] else [];
    var next := offset + |lines|;
    Item(e.id, e.date, Sum(e.lines, Debit()), Sum(e.lines, Credit()), lines, next < |e.lines|,
         if next < |e.lines| then Some(EncodePosition(Lines(e.id, next))) else None)
  }

  /** Ids of stored records: positive, and each entry once. */
  predicate Entered(entries: seq<Entry>) {
    && (forall i | 0 <= i < |entries| :: entries[i].id > 0)
    && (forall i, j | 0 <= i < j < |entries| :: entries[i].id != entries[j].id)
  }

  /** Position of an entry in the listing, or its length. */
  function Find(entries: seq<Entry>, id: int): (k: nat)
    ensures k <= |entries| && (k < |entries| ==> entries[k].id == id)
    ensures forall i | 0 <= i < k :: entries[i].id != id
  {
    if entries == [] then 0
    else if entries[0].id == id then 0
    else Find(entries[1..], id) + 1
  }

  /** The items of the entries from one position to another, each from its first line on. */
  function Items(entries: seq<Entry>, from: nat, to: nat): seq<Item>
    requires Entered(entries) && from <= to <= |entries|
  {
    seq(to - from, i requires 0 <= i < to - from => EntryItem(entries[from + i], 0))
  }

  function ListEntries(entries: seq<Entry>, limit: nat, cursor: Option<string>): Result<Listing, CursorError>
    requires Entered(entries)
  {
    match DecodePosition(cursor)
    case Err(e) => Err(e)
    case Ok(Lines(id, offset)) =>
      var k := Find(entries, id);
      if k == |entries| || offset < 0 || offset >= |entries[k].lines| then Err(InvalidCursor)
      else Ok(Listing([EntryItem(entries[k], offset)], None))
    case Ok(Entries(offset)) =>
      if offset < 0 || offset > |entries| then Err(InvalidCursor)
      else
        var to := if offset + limit < |entries| then offset + limit else |entries|;
        Ok(Listing(Items(entries, offset, to),
                   if to < |entries| then Some(EncodePosition(Entries(to))) else None))
  }

  /** An item is its entry's, shows up to a hundred lines, and says whether there are more. */
  lemma ItemShows(e: Entry, offset: nat)
    requires e.id >= 0 && offset <= |e.lines|
    ensures var item := EntryItem(e, offset);
      && item.id == e.id && item.date == e.date && |item.lines| <= 100
      && item.lines == e.lines[offset..offset + |item.lines|]
      && (item.truncated <==> offset + |item.lines| < |e.lines|) && (item.cursor.Some? <==> item.truncated)
      && (item.truncated ==> |item.lines| == 100)
  {
    hide EncodePosition, Sum;
  }

  /** A cursor is refused exactly when it does not decode or points outside the listing or the entry. */
  lemma ListingAnswers(entries: seq<Entry>, limit: nat, cursor: Option<string>)
    requires Entered(entries)
    ensures ListEntries(entries, limit, cursor).Err? <==>
      match DecodePosition(cursor)
      case Err(_) => true
      case Ok(Entries(offset)) => offset < 0 || offset > |entries|
      case Ok(Lines(id, offset)) => !exists e :: e in entries && e.id == id && 0 <= offset < |e.lines|
  {
    hide DecodePosition, EncodePosition, EntryItem, Items;
    match DecodePosition(cursor)
    case Ok(Lines(id, offset)) =>
      var k := Find(entries, id);
      if k < |entries| { assert entries[k] in entries; }
      forall e | e in entries && e.id == id ensures k < |entries| && e == entries[k] {
        var i :| 0 <= i < |entries| && entries[i] == e;
        assert k <= i;
      }
    case _ =>
  }

  // ---------- Following the entry cursors ----------

  predicate Positioned(cursor: Option<string>, p: Position) { DecodePosition(cursor) == Ok(p) }

  /** An entry cursor is answered with the next entries, and a cursor behind them while there are more. */
  lemma NextEntries(entries: seq<Entry>, limit: nat, n: nat, cursor: Option<string>)
    requires Entered(entries) && limit > 0 && n <= |entries| && Positioned(cursor, Entries(n))
    ensures ListEntries(entries, limit, cursor).Ok?
    ensures var page := ListEntries(entries, limit, cursor).value;
      && page.items == Items(entries, n, if n + limit < |entries| then n + limit else |entries|)
      && (page.next.Some? <==> n + limit < |entries|)
      && (page.next.Some? ==> Positioned(page.next, Entries(n + limit)))
  {
    hide EncodePosition, DecodePosition, Items;
    if n + limit < |entries| { PositionRoundTrip(Entries(n + limit)); }
  }

  ghost function FollowedEntries(entries: seq<Entry>, limit: nat, n: nat, cursor: Option<string>): seq<Item>
    requires Entered(entries) && limit > 0 && n <= |entries| && Positioned(cursor, Entries(n))
    decreases |entries| - n
  {
    NextEntries(entries, limit, n, cursor);
    var page := ListEntries(entries, limit, cursor).value;
    if page.next.None? then page.items
    else page.items + FollowedEntries(entries, limit, n + limit, page.next)
  }

  function Firsts(entries: seq<Entry>, n: nat): seq<Item>
    requires Entered(entries) && n <= |entries|
  {
    Items(entries, n, |entries|)
  }

  lemma {:induction false} EntriesFollowed(entries: seq<Entry>, limit: nat, n: nat, cursor: Option<string>)
    requires Entered(entries) && limit > 0 && n <= |entries| && Positioned(cursor, Entries(n))
    ensures FollowedEntries(entries, limit, n, cursor) == Firsts(entries, n)
    decreases |entries| - n
  {
    hide EncodePosition, DecodePosition, EntryItem, ListEntries;
    NextEntries(entries, limit, n, cursor);
    if n + limit < |entries| {
      EntriesFollowed(entries, limit, n + limit, ListEntries(entries, limit, cursor).value.next);
    }
  }

  // ---------- The order of the listing ----------

  predicate Precedes(a: Entry, b: Entry) { a.date < b.date || (a.date == b.date && a.id < b.id) }

  predicate Chronological(entries: seq<Entry>) {
    forall i, j | 0 <= i < j < |entries| :: Precedes(entries[i], entries[j])
  }

  function Inserted(e: Entry, entries: seq<Entry>): seq<Entry> {
    if entries == [] || Precedes(e, entries[0]) then [e] + entries else [entries[0]] + Inserted(e, entries[1..])
  }

  /** What was read, by date and then id. */
  function Sorted(read: seq<Entry>): seq<Entry> {
    if read == [] then [] else Inserted(read[|read| - 1], Sorted(read[..|read| - 1]))
  }

  lemma {:induction false} InsertedOrders(e: Entry, entries: seq<Entry>)
    requires Chronological(entries) && forall x | x in entries :: x.id != e.id
    ensures Chronological(Inserted(e, entries))
    ensures multiset(Inserted(e, entries)) == multiset(entries) + multiset{e}
  {
    if entries != [] && !Precedes(e, entries[0]) {
      var first, rest := entries[0], entries[1..];
      InsertedOrders(e, rest);
      assert entries == [first] + rest;
      forall x | x in Inserted(e, rest) ensures Precedes(first, x) {
        assert x in multiset(Inserted(e, rest));
      }
    }
  }

  lemma {:induction false} SortedOrders(read: seq<Entry>)
    requires Entered(read)
    ensures Chronological(Sorted(read)) && multiset(Sorted(read)) == multiset(read)
  {
    if read != [] {
      var init, last := read[..|read| - 1], read[|read| - 1];
      SortedOrders(init);
      forall x | x in Sorted(init) ensures x.id != last.id {
        assert x in multiset(init);
      }
      InsertedOrders(last, Sorted(init));
      assert read == init + [last];
    }
  }

  lemma SameFirst(a: seq<Entry>, b: seq<Entry>)
    requires Chronological(a) && Chronological(b) && multiset(a) == multiset(b) && a != [] && b != []
    ensures a[0] == b[0]
  {
    assert a[0] in multiset(b) && b[0] in multiset(a);
    var i :| 0 <= i < |b| && b[i] == a[0];
    var j :| 0 <= j < |a| && a[j] == b[0];
  }

  lemma TailOf(a: seq<Entry>)
    requires a != []
    ensures multiset(a[1..]) == multiset(a) - multiset{a[0]}
    ensures Chronological(a) ==> Chronological(a[1..])
  {
    assert a == [a[0]] + a[1..];
    hide Precedes;
  }

  /** There is one chronological order. */
  lemma {:induction false} OneOrder(a: seq<Entry>, b: seq<Entry>)
    requires Chronological(a) && Chronological(b) && multiset(a) == multiset(b)
    ensures a == b
  {
    hide Chronological;
    assert |a| == |multiset(a)| == |multiset(b)| == |b|;
    if a != [] {
      SameFirst(a, b);
      TailOf(a);
      TailOf(b);
      OneOrder(a[1..], b[1..]);
      assert a == [a[0]] + a[1..] && b == [b[0]] + b[1..];
    }
  }

  lemma SameEntered(a: seq<Entry>, b: seq<Entry>)
    requires Entered(a) && multiset(a) == multiset(b)
    ensures Entered(b)
  {
    forall i | 0 <= i < |b| ensures b[i].id > 0 {
      assert b[i] in multiset(a);
    }
    forall i, j | 0 <= i < j < |b| ensures b[i].id != b[j].id {
      if b[i].id == b[j].id {
        assert b[i] in multiset(a) && b[j] in multiset(a);
        assert b[i] == b[j];
        OnceEach(a, b[i]);
        TwiceIn(b, i, j);
        assert false;
      }
    }
  }

  lemma {:induction false} OnceEach(a: seq<Entry>, e: Entry)
    requires Entered(a)
    ensures multiset(a)[e] <= 1
  {
    if a != [] {
      var init, last := a[..|a| - 1], a[|a| - 1];
      OnceEach(init, e);
      assert a == init + [last];
      if e == last { assert e !in init; }
    }
  }

  lemma TwiceIn(b: seq<Entry>, i: nat, j: nat)
    requires i < j < |b| && b[i] == b[j]
    ensures multiset(b)[b[i]] >= 2
  {
    assert b == b[..i] + ([b[i]] + b[i + 1..j] + [b[j]] + b[j + 1..]);
    assert multiset(b) >= multiset{b[i], b[j]};
  }

  /**
   Whatever order the server sent the entries in, following the cursors lists each of them once, by date and
   then id.
   */
  lemma EntryPagesConcatenate(read: seq<Entry>, other: seq<Entry>, limit: nat)
    requires Entered(read) && multiset(other) == multiset(read) && limit > 0
    ensures var sorted := Sorted(read);
      && Entered(sorted) && Chronological(sorted) && multiset(sorted) == multiset(read)
      && FollowedEntries(sorted, limit, 0, None) == Firsts(sorted, 0)
      && Sorted(other) == sorted
  {
    SameEntered(read, other);
    SortedOrders(read);
    SortedOrders(other);
    OneOrder(Sorted(read), Sorted(other));
    SameEntered(read, Sorted(read));
    hide *;
    EntriesFollowed(Sorted(read), limit, 0, None);
  }

  // ---------- Following the line cursors of one entry ----------

  /** The lines from the item's own on, each cursor followed to the end. */
  ghost function FollowedLines(entries: seq<Entry>, limit: nat, k: nat, offset: nat): seq<Line>
    requires Entered(entries) && k < |entries| && offset <= |entries[k].lines|
    decreases |entries[k].lines| - offset
  {
    var item := EntryItem(entries[k], offset);
    if item.cursor.None? then item.lines
    else
      NextLines(entries, limit, k, offset);
      item.lines + FollowedLines(entries, limit, k, offset + LINE_PAGE_SIZE)
  }

  /** An item's line cursor is answered with the item that shows the lines behind its own. */
  lemma NextLines(entries: seq<Entry>, limit: nat, k: nat, offset: nat)
    requires Entered(entries) && k < |entries| && EntryItem(entries[k], offset).cursor.Some?
    ensures var next := offset + LINE_PAGE_SIZE;
      && next < |entries[k].lines|
      && ListEntries(entries, limit, EntryItem(entries[k], offset).cursor)
         == Ok(Listing([EntryItem(entries[k], next)], None))
  {
    hide ListEntries, EncodePosition, Sum;
    LineCursorServed(entries, limit, k, offset + LINE_PAGE_SIZE);
  }

  /** A line cursor is answered with the rest of its own entry's lines. */
  lemma LineCursorServed(entries: seq<Entry>, limit: nat, k: nat, offset: nat)
    requires Entered(entries) && k < |entries| && 0 < offset < |entries[k].lines|
    ensures ListEntries(entries, limit, Some(EncodePosition(Lines(entries[k].id, offset))))
         == Ok(Listing([EntryItem(entries[k], offset)], None))
  {
    PositionRoundTrip(Lines(entries[k].id, offset));
    hide EncodePosition, DecodePosition, EntryItem;
    assert Find(entries, entries[k].id) == k;
  }

  lemma {:induction false} LinePagesConcatenate(entries: seq<Entry>, limit: nat, k: nat, offset: nat)
    requires Entered(entries) && k < |entries| && offset <= |entries[k].lines|
    ensures FollowedLines(entries, limit, k, offset) == entries[k].lines[offset..]
    decreases |entries[k].lines| - offset
  {
    hide EncodePosition, ListEntries;
    var lines, next := entries[k].lines, offset + LINE_PAGE_SIZE;
    if next < |lines| {
      LinePagesConcatenate(entries, limit, k, next);
      assert lines[offset..next] + lines[next..] == lines[offset..];
    } else {
      assert lines[offset..|lines|] == lines[offset..];
    }
  }

  /** Every page of an entry states the totals of the lines that all its pages show together. */
  lemma PagesAddUp(entries: seq<Entry>, limit: nat, k: nat, offset: nat)
    requires Entered(entries) && k < |entries|
    ensures var item, all := EntryItem(entries[k], offset), FollowedLines(entries, limit, k, 0);
      item.debit == Sum(all, Debit()) && item.credit == Sum(all, Credit())
  {
    LinePagesConcatenate(entries, limit, k, 0);
    assert entries[k].lines[0..] == entries[k].lines;
  }
}
