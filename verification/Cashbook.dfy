/** The cashbook: opening, movements and closing of a period, over posted cash lines. */
module Cashbook {
  import opened Wrappers
  import opened Sums
  import opened Paging

  /** Dates count days. */
  datatype CashLine = CashLine(
    company: int, date: int, journal: int, partner: Option<int>, debit: real, credit: real, balance: real)

  type Entry = Record<CashLine>

  datatype Selection = Selection(journals: set<int>, partners: set<int>)

  datatype Summary = Summary(count: nat, opening: real, debit: real, credit: real, closing: real)

  /** What the source must hold of a line before it is counted. */
  predicate Consistent(company: int, e: Entry) {
    && e.data.company == company && e.data.debit >= 0.0 && e.data.credit >= 0.0
    && e.data.balance == e.data.debit - e.data.credit
  }

  function Balance(): Entry -> real { (e: Entry) => e.data.balance }
  function Debit(): Entry -> real { (e: Entry) => e.data.debit }
  function Credit(): Entry -> real { (e: Entry) => e.data.credit }

  function InScope(s: Selection, end: int): Entry -> bool {
    (e: Entry) =>
      e.data.journal in s.journals && e.data.date <= end
      && (s.partners == {} || (e.data.partner.Some? && e.data.partner.value in s.partners))
  }

  function Before(start: int): Entry -> bool { (e: Entry) => e.data.date < start }

  /** `lines` are all the company's lines; the server's and the report's filters are the same. */
  function Report(lines: seq<Entry>, s: Selection, start: int, end: int): Summary {
    var selected := Filter(lines, InScope(s, end));
    var opening := Sum(Filter(selected, Before(start)), Balance());
    var period := Filter(selected, Not(Before(start)));
    var debit, credit := Sum(period, Debit()), Sum(period, Credit());
    Summary(|period|, opening, debit, credit, opening + debit - credit)
  }

  lemma {:induction false} BalanceIsDifference(company: int, lines: seq<Entry>)
    requires forall e | e in lines :: Consistent(company, e)
    ensures Sum(lines, Balance()) == Sum(lines, Debit()) - Sum(lines, Credit())
  {
    if lines != [] {
      BalanceIsDifference(company, lines[..|lines| - 1]);
      assert Consistent(company, lines[|lines| - 1]);
    }
  }

  lemma {:induction false} FilterKeeps<T>(s: seq<T>, p: T -> bool)
    ensures forall x :: x in Filter(s, p) <==> x in s && p(x)
  {
    if s != [] {
      FilterKeeps(s[..|s| - 1], p);
      assert s == s[..|s| - 1] + [s[|s| - 1]];
    }
  }

  lemma {:induction false} FilterTwice<T>(s: seq<T>, p: T -> bool, q: T -> bool, both: T -> bool)
    requires forall x :: both(x) <==> p(x) && q(x)
    ensures Filter(Filter(s, p), q) == Filter(s, both)
  {
    if s != [] {
      FilterTwice(s[..|s| - 1], p, q, both);
      var init, last := Filter(s[..|s| - 1], p), s[|s| - 1];
      assert (init + [last])[..|init|] == init;
    }
  }

  /** The line is of a chosen journal and, where partners are chosen, of one of these. */
  predicate Chosen(s: Selection, e: Entry) {
    e.data.journal in s.journals && (s.partners != {} ==> exists p :: p in s.partners && e.data.partner == Some(p))
  }

  /** Of the chosen lines dated from `start` to `end`, the amount; of all others nothing. */
  function Dated(s: Selection, start: int, end: int, amount: Entry -> real): Entry -> real {
    (e: Entry) => if Chosen(s, e) && start <= e.data.date <= end then amount(e) else 0.0
  }

  /** Of the chosen lines dated by `end` and in front of `start`, the balance. */
  function Earlier(s: Selection, start: int, end: int): Entry -> real {
    (e: Entry) => if Chosen(s, e) && e.data.date <= end && e.data.date < start then e.data.balance else 0.0
  }

  lemma ScopeIsChosen(s: Selection, end: int, e: Entry)
    ensures InScope(s, end)(e) <==> Chosen(s, e) && e.data.date <= end
  {
    if e.data.partner.Some? && e.data.partner.value in s.partners {
      var p := e.data.partner.value;
      assert p in s.partners && e.data.partner == Some(p);
    }
  }

  /** What each figure of the report counts, over all the company's lines. */
  lemma ReportCounts(lines: seq<Entry>, s: Selection, start: int, end: int)
    ensures var r := Report(lines, s, start, end);
      && r.opening == Sum(lines, Earlier(s, start, end))
      && r.debit == Sum(lines, Dated(s, start, end, (e: Entry) => e.data.debit))
      && r.credit == Sum(lines, Dated(s, start, end, (e: Entry) => e.data.credit))
      && r.count as real == Sum(lines, Dated(s, start, end, (e: Entry) => 1.0))
  {
    var selected := Filter(lines, InScope(s, end));
    var before := (e: Entry) => InScope(s, end)(e) && Before(start)(e);
    var within := (e: Entry) => InScope(s, end)(e) && Not(Before(start))(e);
    FilterTwice(lines, InScope(s, end), Before(start), before);
    FilterTwice(lines, InScope(s, end), Not(Before(start)), within);
    forall e: Entry { ScopeIsChosen(s, end, e); }
    SumOfFilter(lines, before, Balance(), Earlier(s, start, end));
    InPeriod(lines, s, start, end, within, Debit(), (e: Entry) => e.data.debit);
    InPeriod(lines, s, start, end, within, Credit(), (e: Entry) => e.data.credit);
    InPeriod(lines, s, start, end, within, (e: Entry) => 1.0, (e: Entry) => 1.0);
    CountIsSum(Filter(lines, within), (e: Entry) => 1.0);
  }

  lemma InPeriod(lines: seq<Entry>, s: Selection, start: int, end: int, within: Entry -> bool, f: Entry -> real,
                 g: Entry -> real)
    requires forall e :: within(e) <==> InScope(s, end)(e) && !Before(start)(e)
    requires forall e :: f(e) == g(e)
    ensures Sum(Filter(lines, within), f) == Sum(lines, Dated(s, start, end, g))
  {
    forall e: Entry { ScopeIsChosen(s, end, e); }
    SumOfFilter(lines, within, f, Dated(s, start, end, g));
  }

  /** Opening plus movements is the balance of every selected line up to the end of the period. */
  lemma ClosingIsTheBalance(company: int, lines: seq<Entry>, s: Selection, start: int, end: int)
    requires forall e | e in lines :: Consistent(company, e)
    ensures Report(lines, s, start, end).closing == Sum(Filter(lines, InScope(s, end)), Balance())
  {
    var selected := Filter(lines, InScope(s, end));
    var period := Filter(selected, Not(Before(start)));
    FilterKeeps(lines, InScope(s, end));
    FilterKeeps(selected, Not(Before(start)));
    BalanceIsDifference(company, period);
    SumFiltered(selected, Before(start), Balance());
  }

  /** A period opens with what the one before it closed with. */
  lemma CarriesForward(company: int, lines: seq<Entry>, s: Selection, start: int, end: int, next: int)
    requires forall e | e in lines :: Consistent(company, e)
    requires end < next
    ensures Report(lines, s, end + 1, next).opening == Report(lines, s, start, end).closing
  {
    ClosingIsTheBalance(company, lines, s, start, end);
    FilterTwice(lines, InScope(s, next), Before(end + 1), InScope(s, end));
  }

  /** Two adjacent periods together report what one period over both does. */
  lemma PeriodsAdd(company: int, lines: seq<Entry>, s: Selection, start: int, middle: int, end: int)
    requires forall e | e in lines :: Consistent(company, e)
    requires start <= middle + 1 <= end + 1
    ensures var a, b, whole := Report(lines, s, start, middle), Report(lines, s, middle + 1, end),
                               Report(lines, s, start, end);
      && whole.opening == a.opening && whole.closing == b.closing
      && whole.debit == a.debit + b.debit && whole.credit == a.credit + b.credit
  {
    var early := (e: Entry) => InScope(s, middle)(e) && Not(Before(start))(e);
    var late := (e: Entry) => InScope(s, end)(e) && Not(Before(middle + 1))(e);
    var both := (e: Entry) => InScope(s, end)(e) && Not(Before(start))(e);
    var before := (e: Entry) => InScope(s, end)(e) && Before(start)(e);
    FilterTwice(lines, InScope(s, middle), Not(Before(start)), early);
    FilterTwice(lines, InScope(s, end), Not(Before(middle + 1)), late);
    FilterTwice(lines, InScope(s, end), Not(Before(start)), both);
    FilterTwice(lines, InScope(s, end), Before(start), before);
    FilterTwice(lines, InScope(s, middle), Before(start), before);
    var period := Filter(lines, both);
    SumFiltered(period, Before(middle + 1), Debit());
    SumFiltered(period, Before(middle + 1), Credit());
    FilterTwice(lines, both, Before(middle + 1), early);
    FilterTwice(lines, both, Not(Before(middle + 1)), late);
    ClosingIsTheBalance(company, lines, s, start, end);
    ClosingIsTheBalance(company, lines, s, middle + 1, end);
  }

  // ---------- Collecting the lines ----------

  predicate AllConsistent(company: int, items: seq<Entry>) {
    forall i | 0 <= i < |items| :: Consistent(company, items[i])
  }

  /** Each line of a page passes the loop's check: it adds up, and its id is not that of an earlier line. */
  predicate Accepted(company: int, items: seq<Entry>, page: seq<Entry>) {
    && AllConsistent(company, page)
    && forall j | 0 <= j < |page| :: page[j].id !in Ids(items + page[..j])
  }

  /** The report's own loop over a company's lines, from its n-th request on. */
  function Lines(q: Query<CashLine>, company: int, n: nat, cursor: Option<string>, seen: set<string>,
                 items: seq<Entry>): Result<seq<Entry>, ReadError>
    requires q.limit > 0 && |items| <= q.bound
    decreases q.bound - |items|
  {
    match ReadPage(q, n, cursor)
    case Err(e) => Err(e)
    case Ok(page) =>
      var all := items + page.items;
      if !Accepted(company, items, page.items) then Err(InvalidResponse)
      else if |all| > q.bound then Err(TooMany)
      else if page.next.None? then Ok(all)
      else if page.next.value in seen then Err(InvalidResponse)
      else Lines(q, company, n + 1, page.next, seen + {page.next.value}, all)
  }

  lemma AcceptedNext(company: int, items: seq<Entry>, page: seq<Entry>, j: nat)
    requires j < |page|
    ensures Accepted(company, items, page[..j + 1])
      <==> Accepted(company, items, page[..j]) && Consistent(company, page[j]) && page[j].id !in Ids(items + page[..j])
    ensures Accepted(company, items, page) ==> Accepted(company, items, page[..j + 1])
  {
    hide Consistent, Ids;
    assert forall k | 0 <= k <= j :: page[..j + 1][..k] == page[..k];
    assert forall k | 0 <= k < j :: page[..j][..k] == page[..k] && page[..j][k] == page[..j + 1][k];
    assert page[..j + 1][j] == page[j];
  }

  /** The check of one page, line by line. */
  method AcceptPage(company: int, items: seq<Entry>, seen: set<int>, page: seq<Entry>)
    returns (accepted: bool, all: seq<Entry>, ids: set<int>)
    requires seen == Ids(items)
    ensures accepted <==> Accepted(company, items, page)
    ensures accepted ==> all == items + page && ids == Ids(all)
  {
    hide Accepted, Ids;
    all, ids := items, seen;
    AcceptedNone(company, items);
    assert page[..0] == [];
    for j := 0 to |page|
      invariant all == items + page[..j] && ids == Ids(all)
      invariant Accepted(company, items, page[..j])
    {
      var item := page[j];
      AcceptedNext(company, items, page, j);
      if item.data.company != company || item.id in ids || item.data.debit < 0.0 || item.data.credit < 0.0
         || item.data.balance != item.data.debit - item.data.credit {
        return false, all, ids;
      }
      IdsPush(all, item);
      ids := ids + {item.id};
      all := all + [item];
    }
    assert page[..|page|] == page;
    accepted := true;
  }

  lemma AcceptedNone(company: int, items: seq<Entry>)
    ensures Accepted(company, items, [])
  {
  }

  lemma IdsPush(items: seq<Entry>, e: Entry)
    ensures Ids(items + [e]) == Ids(items) + {e.id}
  {
    IdsJoin(items, [e]);
    assert [e][0].id in Ids([e]);
  }

  method CollectLines(q: Query<CashLine>, company: int) returns (r: Result<seq<Entry>, ReadError>)
    requires q.limit > 0
    ensures r == Lines(q, company, 0, None, {}, [])
  {
    var items, cursor := [], None;
    var seenIds, seenCursors := {}, {};
    var n := 0;
    while true
      invariant |items| <= q.bound && seenIds == Ids(items)
      invariant Lines(q, company, n, cursor, seenCursors, items) == Lines(q, company, 0, None, {}, [])
      decreases q.bound - |items|
    {
      hide ReadPage, Accepted, Ids;
      var answer := ReadPage(q, n, cursor);
      if answer.Err? {
        return Err(answer.error);
      }
      var page := answer.value;
      var accepted;
      accepted, items, seenIds := AcceptPage(company, items, seenIds, page.items);
      if !accepted {
        return Err(InvalidResponse);
      }
      if |items| > q.bound {
        return Err(TooMany);
      }
      if page.next.None? {
        return Ok(items);
      }
      if page.next.value in seenCursors {
        return Err(InvalidResponse);
      }
      seenCursors := seenCursors + {page.next.value};
      cursor := page.next;
      n := n + 1;
    }
  }

  /** Of rising records none has the id of an earlier one. */
  lemma NewBehind(all: seq<Entry>, n: nat)
    requires Increasing(all) && n < |all|
    ensures all[n].id !in Ids(all[..n])
  {
  }

  lemma SplitBehind(items: seq<Entry>, page: seq<Entry>, j: nat)
    requires j < |page|
    ensures (items + page)[..|items| + j] == items + page[..j] && (items + page)[|items| + j] == page[j]
  {
  }

  lemma AllNew(items: seq<Entry>, page: seq<Entry>)
    requires Increasing(items + page)
    ensures forall j | 0 <= j < |page| :: page[j].id !in Ids(items + page[..j])
  {
    hide Increasing, Ids;
    forall j | 0 <= j < |page| ensures page[j].id !in Ids(items + page[..j]) {
      SplitBehind(items, page, j);
      NewBehind(items + page, |items| + j);
    }
  }

  /** Behind a page read, no id and no cursor comes twice, so the check comes down to each line adding up. */
  lemma AcceptedExactly(q: Query<CashLine>, company: int, n: nat, cursor: Option<string>, items: seq<Entry>)
    requires q.limit > 0 && Increasing(items) && Follows(cursor, items) && ReadPage(q, n, cursor).Ok?
    ensures var page := ReadPage(q, n, cursor).value.items;
      Accepted(company, items, page) <==> AllConsistent(company, page)
  {
    var page := ReadPage(q, n, cursor).value.items;
    PageContinues(q, n, cursor, items);
    hide ReadPage, Follows, Consistent, Ids, Increasing;
    AllNew(items, page);
  }

  lemma ConsistentParts(company: int, items: seq<Entry>, page: seq<Entry>)
    requires AllConsistent(company, items)
    ensures forall all | items + page <= all && AllConsistent(company, all) :: AllConsistent(company, page)
    ensures AllConsistent(company, page) ==> AllConsistent(company, items + page)
  {
    hide Consistent;
    forall all, i | items + page <= all && AllConsistent(company, all) && 0 <= i < |page|
      ensures Consistent(company, page[i])
    {
      assert all[|items| + i] == (items + page)[|items| + i] == page[i];
    }
  }

  /** The line is the company's, neither side is negative, and its balance is their difference. */
  predicate AddsUp(company: int, e: Entry) {
    && e.data.company == company && !(e.data.debit < 0.0) && !(e.data.credit < 0.0)
    && e.data.debit == e.data.balance + e.data.credit
  }

  lemma ConsistentAddsUp(company: int, items: seq<Entry>)
    ensures AllConsistent(company, items) <==> forall e | e in items :: AddsUp(company, e)
  {
    assert forall i | 0 <= i < |items| :: items[i] in items;
  }

  /**
   The loop returns lines exactly when the plain collection does and each line of it adds up, and then the
   same ones.
   */
  lemma {:induction false} LinesExactly(q: Query<CashLine>, company: int, n: nat, cursor: Option<string>,
                                        seen: set<string>, items: seq<Entry>)
    requires q.limit > 0 && |items| <= q.bound && Increasing(items) && Follows(cursor, items) && HeldOnly(seen, items)
    requires AllConsistent(company, items)
    ensures var r, c := Lines(q, company, n, cursor, seen, items), Collected(q, n, cursor, items);
      && (r.Ok? <==> c.Ok? && AllConsistent(company, c.value))
      && (r.Ok? ==> r.value == c.value)
    decreases q.bound - |items|
  {
    hide ReadPage, Follows, HeldOnly, Consistent, Accepted;
    var answer := ReadPage(q, n, cursor);
    if answer.Ok? {
      PageContinues(q, n, cursor, items);
      AcceptedExactly(q, company, n, cursor, items);
      var page := answer.value;
      var all := items + page.items;
      if |all| <= q.bound && page.next.Some? {
        FreshCursor(q, n, cursor, seen, items);
        CollectedIncreases(q, n + 1, page.next, all);
        if AllConsistent(company, page.items) {
          LinesExactly(q, company, n + 1, page.next, seen + {page.next.value}, all);
        }
      }
      ConsistentParts(company, items, page.items);
    }
  }

  /** Over whatever lines the loop returned, the report's closing is the balance of those up to its end. */
  lemma CollectedClosing(q: Query<CashLine>, company: int, s: Selection, start: int, end: int)
    requires q.limit > 0
    ensures var r := Lines(q, company, 0, None, {}, []);
      && (r.Ok? <==>
            && Collected(q, 0, None, []).Ok?
            && forall e | e in Collected(q, 0, None, []).value :: AddsUp(company, e))
      && (r.Ok? ==> r == Collected(q, 0, None, []))
      && (r.Ok? ==> Report(r.value, s, start, end).closing == Sum(Filter(r.value, InScope(s, end)), Balance()))
  {
    var r := Lines(q, company, 0, None, {}, []);
    LinesExactly(q, company, 0, None, {}, []);
    if Collected(q, 0, None, []).Ok? { ConsistentAddsUp(company, Collected(q, 0, None, []).value); }
    if r.Ok? {
      ClosingIsTheBalance(company, r.value, s, start, end);
    }
  }
}
