/** Currency-rate history: which of several rates holds on a date. */
module CurrencyRates {
  import opened Wrappers

  /** `company` is None for a rate shared by all companies. Dates count days. */
  datatype Rate = Rate(id: int, company: Option<int>, date: int, value: real)

  /** `rank > rank` on the pair of own-company flag and id. */
  predicate Outranks(a: Rate, b: Rate, root: int) {
    var x, y := a.company == Some(root), b.company == Some(root);
    (x && !y) || (x == y && a.id > b.id)
  }

  /** The rate of its date: the root company's own where there is one, and of those alike the highest id. */
  ghost predicate Best(rates: seq<Rate>, p: Rate, root: int) {
    && p in rates
    && (forall r | r in rates && r.date == p.date && r.company == Some(root) :: p.company == Some(root) && r.id <= p.id)
    && (forall r | r in rates && r.date == p.date && p.company != Some(root) :: r.id <= p.id)
  }

  /** For each date with a rate, the best of that date's rates. */
  ghost predicate Prevailing(rates: seq<Rate>, root: int, byDate: map<int, Rate>) {
    && (forall r | r in rates :: r.date in byDate)
    && (forall d | d in byDate :: byDate[d].date == d && Best(rates, byDate[d], root))
  }

  method ByDate(rates: seq<Rate>, root: int) returns (byDate: map<int, Rate>)
    ensures Prevailing(rates, root, byDate)
  {
    byDate := map[];
    for i := 0 to |rates|
      invariant Prevailing(rates[..i], root, byDate)
    {
      var rate := rates[i];
      assert rates[..i + 1] == rates[..i] + [rate];
      if rate.date !in byDate || Outranks(rate, byDate[rate.date], root) {
        byDate := byDate[rate.date := rate];
      }
    }
    assert rates[..|rates|] == rates;
  }

  ghost predicate DistinctIds(rates: seq<Rate>) {
    forall a, b | a in rates && b in rates :: a.id == b.id ==> a == b
  }

  /** The order in which the rates were read does not matter. */
  lemma OrderDoesNotMatter(a: seq<Rate>, b: seq<Rate>, root: int, m: map<int, Rate>, n: map<int, Rate>)
    requires DistinctIds(a) && forall r :: r in a <==> r in b
    requires Prevailing(a, root, m) && Prevailing(b, root, n)
    ensures m == n
  {
    forall d | d in m ensures d in n && m[d] == n[d] {
      assert m[d] in a && m[d] in b && n[d] in b && n[d] in a;
    }
    forall d | d in n ensures d in m {
      assert n[d] in b && n[d] in a;
    }
  }

  /** The rates by date, latest first. */
  ghost predicate LatestFirst(ordered: seq<Rate>, byDate: map<int, Rate>) {
    && (forall r | r in ordered :: r.date in byDate && byDate[r.date] == r)
    && (forall d | d in byDate :: byDate[d] in ordered)
    && (forall i, j | 0 <= i < j < |ordered| :: ordered[i].date > ordered[j].date)
  }

  /** The first of them not after the date. */
  function Prior(ordered: seq<Rate>, start: int): Option<Rate> {
    if ordered == [] then None
    else if ordered[0].date <= start then Some(ordered[0])
    else Prior(ordered[1..], start)
  }

  lemma {:induction false} PriorIsFirst(ordered: seq<Rate>, start: int)
    requires forall i, j | 0 <= i < j < |ordered| :: ordered[i].date > ordered[j].date
    ensures match Prior(ordered, start)
      case None => forall r | r in ordered :: r.date > start
      case Some(p) => p in ordered && p.date <= start && forall r | r in ordered && r.date <= start :: r.date <= p.date
  {
    if ordered != [] && ordered[0].date > start {
      PriorIsFirst(ordered[1..], start);
      assert ordered == [ordered[0]] + ordered[1..];
    }
  }

  /** The rate reported at the start of the period: of all rates dated by then, the best of the latest date. */
  lemma EffectiveAtStart(rates: seq<Rate>, root: int, byDate: map<int, Rate>, ordered: seq<Rate>, start: int)
    requires Prevailing(rates, root, byDate) && LatestFirst(ordered, byDate)
    ensures match Prior(ordered, start)
      case None => forall r | r in rates :: r.date > start
      case Some(p) =>
        && p.date <= start && Best(rates, p, root)
        && forall r | r in rates && r.date <= start :: r.date <= p.date
  {
    PriorIsFirst(ordered, start);
    var prior := Prior(ordered, start);
    forall r | r in rates && r.date <= start
      ensures prior.Some? && r.date <= prior.value.date
    {
      assert byDate[r.date] in ordered;
      assert byDate[r.date].date == r.date;
    }
  }

  function Within(ordered: seq<Rate>, start: int, end: int): seq<Rate> {
    if ordered == [] then []
    else
      var rest := Within(ordered[..|ordered| - 1], start, end);
      var last := ordered[|ordered| - 1];
      if start <= last.date <= end then rest + [last] else rest
  }

  lemma {:induction false} WithinHolds(ordered: seq<Rate>, start: int, end: int)
    requires forall i, j | 0 <= i < j < |ordered| :: ordered[i].date > ordered[j].date
    ensures var items := Within(ordered, start, end);
      && (forall r :: r in items <==> r in ordered && start <= r.date <= end)
      && (forall i, j | 0 <= i < j < |items| :: items[i].date > items[j].date)
  {
    if ordered != [] {
      WithinHolds(ordered[..|ordered| - 1], start, end);
      assert ordered == ordered[..|ordered| - 1] + [ordered[|ordered| - 1]];
    }
  }

  /** The history lists one rate for each date of the period that has any: the one that prevails on it. */
  lemma HistoryListsEachDateOnce(rates: seq<Rate>, root: int, byDate: map<int, Rate>, ordered: seq<Rate>,
                                 start: int, end: int)
    requires Prevailing(rates, root, byDate) && LatestFirst(ordered, byDate)
    ensures var items := Within(ordered, start, end);
      && (forall i, j | 0 <= i < j < |items| :: items[i].date > items[j].date)
      && (forall r | r in rates && start <= r.date <= end :: byDate[r.date] in items)
      && (forall p | p in items :: start <= p.date <= end && Best(rates, p, root))
  {
    WithinHolds(ordered, start, end);
  }
}
