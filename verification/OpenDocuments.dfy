/** Sums over sequences, their order, and their grouping by key. */
module Sums {

  function Sum<T>(s: seq<T>, f: T -> real): real {
    if s == [] then 0.0 else Sum(s[..|s| - 1], f) + f(s[|s| - 1])
  }

  lemma {:induction false} SumJoin<T>(a: seq<T>, b: seq<T>, f: T -> real)
    ensures Sum(a + b, f) == Sum(a, f) + Sum(b, f)
  {
    if b == [] {
      assert a + b == a;
    } else {
      SumJoin(a, b[..|b| - 1], f);
      assert (a + b)[..|a + b| - 1] == a + b[..|b| - 1];
    }
  }

  lemma SplitAt<T>(s: seq<T>, i: nat)
    requires i < |s|
    ensures s == s[..i] + ([s[i]] + s[i + 1..])
  {
  }

  lemma SumOne<T>(x: T, f: T -> real)
    ensures Sum([x], f) == f(x)
  {
    assert [x][..0] == [];
  }

  lemma SumWithout<T>(s: seq<T>, i: nat, f: T -> real)
    requires i < |s|
    ensures Sum(s, f) == f(s[i]) + Sum(s[..i] + s[i + 1..], f)
  {
    SplitAt(s, i);
    hide Sum;
    var init, tail := s[..i], s[i + 1..];
    SumJoin(init, [s[i]] + tail, f);
    SumJoin([s[i]], tail, f);
    SumJoin(init, tail, f);
    SumOne(s[i], f);
  }

  lemma MultisetWithout<T>(s: seq<T>, i: nat)
    requires i < |s|
    ensures multiset(s[..i] + s[i + 1..]) == multiset(s) - multiset{s[i]}
  {
    SplitAt(s, i);
    var init, tail := s[..i], s[i + 1..];
    assert multiset(init + ([s[i]] + tail)) == multiset(init) + (multiset{s[i]} + multiset(tail));
    assert multiset(init + tail) == multiset(init) + multiset(tail);
  }

  lemma SameWithoutOne<T>(a: seq<T>, b: seq<T>, i: nat)
    requires a != [] && i < |b| && b[i] == a[|a| - 1] && multiset(a) == multiset(b)
    ensures multiset(a[..|a| - 1]) == multiset(b[..i] + b[i + 1..])
  {
    MultisetWithout(a, |a| - 1);
    MultisetWithout(b, i);
    assert a[..|a| - 1] + a[|a|..] == a[..|a| - 1];
  }

  /** The order of the terms does not matter. */
  lemma {:induction false} SumPermuted<T>(a: seq<T>, b: seq<T>, f: T -> real)
    requires multiset(a) == multiset(b)
    ensures Sum(a, f) == Sum(b, f)
    decreases |a|
  {
    if a == [] {
      assert |multiset(b)| == 0;
    } else {
      var n := |a| - 1;
      var last := a[n];
      assert last in multiset(a);
      assert last in multiset(b);
      var i :| 0 <= i < |b| && b[i] == last;
      var rest := b[..i] + b[i + 1..];
      SameWithoutOne(a, b, i);
      SumPermuted(a[..n], rest, f);
      SumWithout(b, i, f);
    }
  }

  function Filter<T>(s: seq<T>, p: T -> bool): seq<T> {
    if s == [] then []
    else
      var rest := Filter(s[..|s| - 1], p);
      if p(s[|s| - 1]) then rest + [s[|s| - 1]] else rest
  }

  function Not<T>(p: T -> bool): T -> bool { x => !p(x) }

  /** Every term is on exactly one side. */
  lemma {:induction false} SumFiltered<T>(s: seq<T>, p: T -> bool, f: T -> real)
    ensures Sum(s, f) == Sum(Filter(s, p), f) + Sum(Filter(s, Not(p)), f)
  {
    if s != [] {
      SumFiltered(s[..|s| - 1], p, f);
      var last := s[|s| - 1];
      var q := Not(p);
      var yes, no := Filter(s[..|s| - 1], p), Filter(s[..|s| - 1], q);
      assert (yes + [last])[..|yes|] == yes && (no + [last])[..|no|] == no;
      assert Filter(s, q) == if q(last) then no + [last] else no;
    }
  }

  /** Leaving terms out is counting them as nothing. */
  lemma {:induction false} SumOfFilter<T>(s: seq<T>, p: T -> bool, f: T -> real, g: T -> real)
    requires forall x :: g(x) == if p(x) then f(x) else 0.0
    ensures Sum(Filter(s, p), f) == Sum(s, g)
  {
    if s != [] {
      SumOfFilter(s[..|s| - 1], p, f, g);
      var init, last := Filter(s[..|s| - 1], p), s[|s| - 1];
      assert (init + [last])[..|init|] == init;
    }
  }

  lemma {:induction false} CountIsSum<T>(s: seq<T>, f: T -> real)
    requires forall x :: f(x) == 1.0
    ensures Sum(s, f) == |s| as real
  {
    if s != [] { CountIsSum(s[..|s| - 1], f); }
  }

  lemma {:induction false} SumAlike<T>(s: seq<T>, f: T -> real, g: T -> real)
    requires forall x | x in s :: f(x) == g(x)
    ensures Sum(s, f) == Sum(s, g)
  {
    if s != [] { SumAlike(s[..|s| - 1], f, g); }
  }

  // ---------- Grouping ----------

  /** A dictionary read with a default of zero. */
  function At<K>(m: map<K, real>, k: K): real {
    if k in m then m[k] else 0.0
  }

  function Grouped<T, K>(s: seq<T>, key: T -> K, val: T -> real): map<K, real> {
    if s == [] then map[]
    else
      var rest, last := Grouped(s[..|s| - 1], key, val), s[|s| - 1];
      rest[key(last) := At(rest, key(last)) + val(last)]
  }

  /** A term where its key is `k`, and nothing elsewhere. */
  function Within<T, K(==)>(key: T -> K, val: T -> real, k: K): T -> real {
    x => if key(x) == k then val(x) else 0.0
  }

  /** A group's total is the sum of its own members. */
  lemma {:induction false} GroupTotal<T, K>(s: seq<T>, key: T -> K, val: T -> real, k: K)
    ensures At(Grouped(s, key, val), k) == Sum(s, Within(key, val, k))
    ensures k in Grouped(s, key, val) <==> exists x :: x in s && key(x) == k
  {
    if s != [] {
      var init, last := s[..|s| - 1], s[|s| - 1];
      GroupTotal(init, key, val, k);
      assert s == init + [last];
      if k in Grouped(s, key, val) && key(last) != k {
        var x :| x in init && key(x) == k;
        assert x in s;
      }
    }
  }

  predicate Distinct<K(==)>(ks: seq<K>) {
    forall i, j | 0 <= i < j < |ks| :: ks[i] != ks[j]
  }

  lemma {:induction false} SumBumped<K>(ks: seq<K>, m: map<K, real>, k: K, d: real)
    requires Distinct(ks)
    ensures Sum(ks, x => At(m[k := At(m, k) + d], x)) == Sum(ks, x => At(m, x)) + if k in ks then d else 0.0
  {
    if ks != [] {
      var n := |ks| - 1;
      SumBumped(ks[..n], m, k, d);
      assert ks == ks[..n] + [ks[n]];
    }
  }

  /** Nothing is lost in grouping: the totals of the groups add up to the sum of all. */
  lemma {:induction false} GroupsConserve<T, K>(s: seq<T>, key: T -> K, val: T -> real, ks: seq<K>)
    requires Distinct(ks) && forall x | x in s :: key(x) in ks
    ensures Sum(ks, k => At(Grouped(s, key, val), k)) == Sum(s, val)
  {
    if s == [] {
      SumAlike(ks, k => At(Grouped(s, key, val), k), k => 0.0);
      SumZero(ks);
    } else {
      var init, last := s[..|s| - 1], s[|s| - 1];
      GroupsConserve(init, key, val, ks);
      SumBumped(ks, Grouped(init, key, val), key(last), val(last));
      assert last in s;
      SumAlike(ks, k => At(Grouped(s, key, val), k),
               k => At(Grouped(init, key, val)[key(last) := At(Grouped(init, key, val), key(last)) + val(last)], k));
    }
  }

  lemma {:induction false} SumZero<K>(ks: seq<K>)
    ensures Sum(ks, k => 0.0) == 0.0
  {
    if ks != [] { SumZero(ks[..|ks| - 1]); }
  }
}

/** Open invoices and bills as of a date: stored residuals rolled back over later reconciliations. */
module OpenDocuments {
  import opened Wrappers
  import opened Sums

  datatype Line = Line(id: int, move: int, residual: real, residualCurrency: real)

  /** A reconciliation of a debit line with a credit line; `date` is its max_date. */
  datatype Partial = Partial(
    debit: int, credit: int, amount: real, debitCurrency: real, creditCurrency: real, date: int)

  datatype SourceError = LineOutsideDocuments

  type Amounts = map<int, real>

  function Residuals(lines: seq<Line>, currency: bool): Amounts {
    if lines == [] then map[]
    else
      var last := lines[|lines| - 1];
      Residuals(lines[..|lines| - 1], currency)[last.id := if currency then last.residualCurrency else last.residual]
  }

  /** What undoing one partial adds to a line's residual. */
  function Share(id: int, currency: bool): Partial -> real {
    (p: Partial) =>
      (if p.debit == id then (if currency then p.debitCurrency else p.amount) else 0.0)
      - (if p.credit == id then (if currency then p.creditCurrency else p.amount) else 0.0)
  }

  /** Residuals with every partial undone. */
  function RolledBack(residuals: Amounts, partials: seq<Partial>, currency: bool): Amounts {
    map id | id in residuals :: residuals[id] + Sum(partials, Share(id, currency))
  }

  /** The dictionary after one partial. */
  function Undone(m: Amounts, p: Partial, currency: bool): Amounts {
    var d := if p.debit in m
             then m[p.debit := m[p.debit] + if currency then p.debitCurrency else p.amount] else m;
    if p.credit in d then d[p.credit := d[p.credit] - if currency then p.creditCurrency else p.amount] else d
  }

  lemma UndoneExtends(m: Amounts, partials: seq<Partial>, i: nat, currency: bool)
    requires i < |partials|
    ensures Undone(RolledBack(m, partials[..i], currency), partials[i], currency)
         == RolledBack(m, partials[..i + 1], currency)
  {
    assert partials[..i + 1][..i] == partials[..i];
  }

  lemma NothingUndone(m: Amounts, currency: bool)
    ensures RolledBack(m, [], currency) == m
  {
  }

  /** One turn of the loop: a partial may touch a line on either side, or both. */
  method Undo(company: Amounts, currency: Amounts, p: Partial) returns (c: Amounts, f: Amounts)
    requires company.Keys == currency.Keys
    ensures c == Undone(company, p, false) && f == Undone(currency, p, true)
    ensures c.Keys == f.Keys == company.Keys
  {
    c, f := company, currency;
    if p.debit in company {
      c := c[p.debit := c[p.debit] + p.amount];
      f := f[p.debit := f[p.debit] + p.debitCurrency];
    }
    if p.credit in company {
      c := c[p.credit := c[p.credit] - p.amount];
      f := f[p.credit := f[p.credit] - p.creditCurrency];
    }
  }

  /** The two dictionaries of the report, updated partial by partial. */
  method RollBack(lines: seq<Line>, partials: seq<Partial>) returns (company: Amounts, currency: Amounts)
    ensures company == RolledBack(Residuals(lines, false), partials, false)
    ensures currency == RolledBack(Residuals(lines, true), partials, true)
  {
    company, currency := InitialResiduals(lines);
    ghost var c, f := company, currency;
    NothingUndone(c, false);
    NothingUndone(f, true);
    hide RolledBack, Residuals, Undone;
    assert partials[..0] == [];
    for i := 0 to |partials|
      invariant company == RolledBack(c, partials[..i], false)
      invariant currency == RolledBack(f, partials[..i], true)
      invariant company.Keys == currency.Keys
    {
      UndoneExtends(c, partials, i, false);
      UndoneExtends(f, partials, i, true);
      company, currency := Undo(company, currency, partials[i]);
    }
    assert partials[..|partials|] == partials;
  }

  method InitialResiduals(lines: seq<Line>) returns (company: Amounts, currency: Amounts)
    ensures company == Residuals(lines, false) && currency == Residuals(lines, true)
    ensures company.Keys == currency.Keys
  {
    company, currency := map[], map[];
    for i := 0 to |lines|
      invariant company == Residuals(lines[..i], false) && currency == Residuals(lines[..i], true)
      invariant company.Keys == currency.Keys
    {
      assert lines[..i + 1][..i] == lines[..i];
      company := company[lines[i].id := lines[i].residual];
      currency := currency[lines[i].id := lines[i].residualCurrency];
    }
    assert lines[..|lines|] == lines;
  }

  // ---------- Per-document totals ----------

  function MoveOf(): Line -> int { (l: Line) => l.move }

  function RemainingOf(residuals: Amounts): Line -> real { (l: Line) => At(residuals, l.id) }

  function TotalsOf(lines: seq<Line>, residuals: Amounts): Amounts {
    Grouped(lines, MoveOf(), RemainingOf(residuals))
  }

  method DocumentTotals(lines: seq<Line>, moves: set<int>, company: Amounts, currency: Amounts)
    returns (r: Result<(Amounts, Amounts), SourceError>)
    requires forall l | l in lines :: l.id in company && l.id in currency
    ensures r == if exists l | l in lines :: l.move !in moves then Err(LineOutsideDocuments)
                 else Ok((TotalsOf(lines, company), TotalsOf(lines, currency)))
  {
    var byCompany, byCurrency: Amounts := map[], map[];
    for i := 0 to |lines|
      invariant byCompany == TotalsOf(lines[..i], company) && byCurrency == TotalsOf(lines[..i], currency)
      invariant forall j | 0 <= j < i :: lines[j].move in moves
    {
      var l := lines[i];
      if l.move !in moves {
        return Err(LineOutsideDocuments);
      }
      assert lines[..i + 1][..i] == lines[..i];
      assert l in lines;
      byCompany := byCompany[l.move := At(byCompany, l.move) + company[l.id]];
      byCurrency := byCurrency[l.move := At(byCurrency, l.move) + currency[l.id]];
    }
    assert lines[..|lines|] == lines;
    r := Ok((byCompany, byCurrency));
  }

  // ---------- What the report means ----------

  ghost predicate DistinctIds(lines: seq<Line>) {
    forall i, j | 0 <= i < j < |lines| :: lines[i].id != lines[j].id
  }

  lemma {:induction false} ResidualOf(lines: seq<Line>, i: nat, currency: bool)
    requires DistinctIds(lines) && i < |lines|
    ensures lines[i].id in Residuals(lines, currency)
    ensures Residuals(lines, currency)[lines[i].id]
         == Stored(lines[i], currency)
  {
    if i < |lines| - 1 {
      ResidualOf(lines[..|lines| - 1], i, currency);
    }
  }

  function Stored(l: Line, currency: bool): real {
    if currency then l.residualCurrency else l.residual
  }

  function Dated(asOf: int): Partial -> bool { (p: Partial) => p.date <= asOf }

  lemma RolledBackAsOf(lines: seq<Line>, i: nat, original: real, all: seq<Partial>, asOf: int, fetched: seq<Partial>,
                       currency: bool)
    requires DistinctIds(lines) && i < |lines|
    requires Stored(lines[i], currency) == original - Sum(all, Share(lines[i].id, currency))
    requires multiset(fetched) == multiset(Filter(all, Not(Dated(asOf))))
    ensures var id := lines[i].id;
      var rolled := RolledBack(Residuals(lines, currency), fetched, currency);
      id in rolled && rolled[id] == original - Sum(Filter(all, Dated(asOf)), Share(id, currency))
  {
    var share := Share(lines[i].id, currency);
    ResidualOf(lines, i, currency);
    SumFiltered(all, Dated(asOf), share);
    SumPermuted(fetched, Filter(all, Not(Dated(asOf))), share);
    hide Share, Sum, Filter, Residuals, Not, Dated;
  }

  /** What a partial settles of a line, in company currency: as its debit side, less as its credit side. */
  function Settles(id: int): Partial -> real {
    (p: Partial) => (if p.debit == id then p.amount else 0.0) - (if p.credit == id then p.amount else 0.0)
  }

  /** The same in the line's own currency. */
  function SettlesCurrency(id: int): Partial -> real {
    (p: Partial) =>
      (if p.debit == id then p.debitCurrency else 0.0) - (if p.credit == id then p.creditCurrency else 0.0)
  }

  lemma SharesAre(partials: seq<Partial>, id: int)
    ensures Sum(partials, Share(id, false)) == Sum(partials, Settles(id))
    ensures Sum(partials, Share(id, true)) == Sum(partials, SettlesCurrency(id))
  {
    SumAlike(partials, Share(id, false), Settles(id));
    SumAlike(partials, Share(id, true), SettlesCurrency(id));
  }

  /** The stored residuals are the original amounts less what all partials settled. */
  predicate Booked(l: Line, amount: real, amountCurrency: real, all: seq<Partial>) {
    && l.residual == amount - Sum(all, Settles(l.id))
    && l.residualCurrency == amountCurrency - Sum(all, SettlesCurrency(l.id))
  }

  /**
   Rolled back over the later partials, in whatever order they come, a line's residuals are its original
   amounts settled by exactly the partials dated on or before the date.
   */
  lemma ResidualAsOf(lines: seq<Line>, i: nat, amount: real, amountCurrency: real, all: seq<Partial>, asOf: int,
                     fetched: seq<Partial>)
    requires DistinctIds(lines) && i < |lines| && Booked(lines[i], amount, amountCurrency, all)
    requires multiset(fetched) == multiset(Filter(all, Not(Dated(asOf))))
    ensures var id, settled := lines[i].id, Filter(all, Dated(asOf));
      var company := RolledBack(Residuals(lines, false), fetched, false);
      var currency := RolledBack(Residuals(lines, true), fetched, true);
      && id in company && company[id] == amount - Sum(settled, Settles(id))
      && id in currency && currency[id] == amountCurrency - Sum(settled, SettlesCurrency(id))
  {
    var id := lines[i].id;
    SharesAre(all, id);
    SharesAre(Filter(all, Dated(asOf)), id);
    assert Stored(lines[i], false) == lines[i].residual && Stored(lines[i], true) == lines[i].residualCurrency;
    hide Share, Settles, SettlesCurrency, Sum, Filter, Residuals, RolledBack, Not, Dated, Stored;
    RolledBackAsOf(lines, i, amount, all, asOf, fetched, false);
    RolledBackAsOf(lines, i, amountCurrency, all, asOf, fetched, true);
  }

  /** The documents' totals add up to the lines' residuals, and each is the sum of its own lines'. */
  lemma TotalsConserve(lines: seq<Line>, moves: seq<int>, residuals: Amounts)
    requires Distinct(moves) && forall l | l in lines :: l.move in moves
    ensures Sum(moves, m => At(TotalsOf(lines, residuals), m)) == Sum(lines, RemainingOf(residuals))
    ensures forall m :: At(TotalsOf(lines, residuals), m) == Sum(lines, Within(MoveOf(), RemainingOf(residuals), m))
  {
    var key, val := MoveOf(), RemainingOf(residuals);
    GroupsConserve(lines, key, val, moves);
    SumAlike(moves, m => At(TotalsOf(lines, residuals), m), m => At(Grouped(lines, key, val), m));
    forall m ensures At(TotalsOf(lines, residuals), m) == Sum(lines, Within(key, val, m)) {
      GroupTotal(lines, key, val, m);
    }
  }

  /** A line's amount settled by the given partials. */
  function Worth(amounts: Amounts, settled: seq<Partial>): Line -> real {
    (l: Line) => At(amounts, l.id) - Sum(settled, Settles(l.id))
  }

  function WorthCurrency(amounts: Amounts, settled: seq<Partial>): Line -> real {
    (l: Line) => At(amounts, l.id) - Sum(settled, SettlesCurrency(l.id))
  }

  /** What the lines of one document are worth, and nothing for the others. */
  function Of(move: int, worth: Line -> real): Line -> real {
    (l: Line) => if l.move == move then worth(l) else 0.0
  }

  /** The residuals reported for a document are those of its own lines, each settled as of the date. */
  lemma DocumentAsOf(lines: seq<Line>, amounts: Amounts, currencies: Amounts, all: seq<Partial>, asOf: int,
                     fetched: seq<Partial>, move: int)
    requires DistinctIds(lines)
    requires forall l | l in lines :: Booked(l, At(amounts, l.id), At(currencies, l.id), all)
    requires multiset(fetched) == multiset(Filter(all, Not(Dated(asOf))))
    ensures var settled := Filter(all, Dated(asOf));
      && At(TotalsOf(lines, RolledBack(Residuals(lines, false), fetched, false)), move)
         == Sum(lines, Of(move, Worth(amounts, settled)))
      && At(TotalsOf(lines, RolledBack(Residuals(lines, true), fetched, true)), move)
         == Sum(lines, Of(move, WorthCurrency(currencies, settled)))
  {
    var settled := Filter(all, Dated(asOf));
    var company := RolledBack(Residuals(lines, false), fetched, false);
    var currency := RolledBack(Residuals(lines, true), fetched, true);
    forall l | l in lines
      ensures At(company, l.id) == Worth(amounts, settled)(l)
      ensures At(currency, l.id) == WorthCurrency(currencies, settled)(l)
    {
      var i :| 0 <= i < |lines| && lines[i] == l;
      ResidualAsOf(lines, i, At(amounts, l.id), At(currencies, l.id), all, asOf, fetched);
    }
    hide *;
    DocumentTotal(lines, company, move, Worth(amounts, settled));
    DocumentTotal(lines, currency, move, WorthCurrency(currencies, settled));
  }

  lemma DocumentTotal(lines: seq<Line>, residuals: Amounts, move: int, worth: Line -> real)
    requires forall l | l in lines :: At(residuals, l.id) == worth(l)
    ensures At(TotalsOf(lines, residuals), move) == Sum(lines, Of(move, worth))
  {
    GroupTotal(lines, MoveOf(), RemainingOf(residuals), move);
    SumAlike(lines, Within(MoveOf(), RemainingOf(residuals), move), Of(move, worth));
  }
}
