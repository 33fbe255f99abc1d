/** Keyset pages: what a page read accepts from the server, and the loops that follow its cursors. */
module Paging {
  import opened Wrappers
  import opened Cursors

  /** A server row; an `id` that is not an integer is None. */
  datatype Raw<T> = Raw(id: Option<int>, data: T)

  datatype Record<T> = Record(id: int, data: T)

  datatype Page<T> = Page(items: seq<Record<T>>, next: Option<string>)

  datatype ReadError = InvalidInput | InvalidResponse | TooMany

  /** `answers(n, after)` is what the server sends to the n-th request; `valid` is normalisation and scope. */
  datatype Query<!T> = Query(
    limit: nat, bound: nat, answers: (nat, Option<int>) -> seq<Raw<T>>, valid: Record<T> -> bool)

  function DecodeAfter(cursor: Option<string>): Result<Option<int>, CursorError> {
    match cursor
    case None => Ok(None)
    case Some(text) =>
      match DecodeNumber(text)
      case Err(e) => Err(e)
      case Ok(n) => Ok(Some(n))
  }

  predicate AllPositive<T>(rows: seq<Raw<T>>) {
    forall i | 0 <= i < |rows| :: rows[i].id.Some? && rows[i].id.value > 0
  }

  function Records<T>(rows: seq<Raw<T>>): (r: seq<Record<T>>)
    requires AllPositive(rows)
    ensures |r| == |rows|
    ensures forall i | 0 <= i < |r| :: r[i] == Record(rows[i].id.value, rows[i].data)
  {
    if rows == [] then [] else [Record(rows[0].id.value, rows[0].data)] + Records(rows[1..])
  }

  predicate Increasing<T>(rows: seq<Record<T>>) {
    forall i, j | 0 <= i < j < |rows| :: rows[i].id < rows[j].id
  }

  predicate Beyond<T>(rows: seq<Record<T>>, after: Option<int>) {
    after.Some? && rows != [] ==> after.value < rows[0].id
  }

  predicate AllValid<T>(q: Query<T>, items: seq<Record<T>>) {
    forall i | 0 <= i < |items| :: q.valid(items[i])
  }

  /** The page a server answer makes, if it is one. */
  function PageOf<T>(q: Query<T>, rows: seq<Raw<T>>, after: Option<int>): (r: Result<Page<T>, ReadError>)
    requires q.limit > 0
    ensures r.Ok? ==> |r.value.items| <= q.limit && (r.value.next.Some? ==> |r.value.items| == q.limit)
  {
    if |rows| > q.limit + 1 || !AllPositive(rows) then Err(InvalidResponse)
    else
      var records := Records(rows);
      if !Increasing(records) || !Beyond(records, after) then Err(InvalidResponse)
      else
        var more := |records| > q.limit;
        var items := if more then records[..q.limit] else records;
        if !AllValid(q, items) then Err(InvalidResponse)
        else Ok(Page(items, if more then Some(EncodeNumber(items[q.limit - 1].id)) else None))
  }

  function ReadPage<T>(q: Query<T>, n: nat, cursor: Option<string>): (r: Result<Page<T>, ReadError>)
    requires q.limit > 0
    ensures r.Ok? ==> |r.value.items| <= q.limit && (r.value.next.Some? ==> |r.value.items| == q.limit)
  {
    match DecodeAfter(cursor)
    case Err(_) => Err(InvalidInput)
    case Ok(after) => PageOf(q, q.answers(n, after), after)
  }

  /** The rows are a page behind `after`: positive ids, rising, and valid as far as the page goes. */
  predicate Acceptable<T>(q: Query<T>, rows: seq<Raw<T>>, after: Option<int>) {
    && |rows| <= q.limit + 1
    && (forall i | 0 <= i < |rows| :: rows[i].id.Some? && rows[i].id.value > 0)
    && (forall i, j | 0 <= i < j < |rows| ::
          rows[i].id.Some? && rows[j].id.Some? && rows[i].id.value < rows[j].id.value)
    && (rows != [] && after.Some? ==> rows[0].id.Some? && after.value < rows[0].id.value)
    && (forall i | 0 <= i < |rows| && i < q.limit ::
          rows[i].id.Some? && q.valid(Record(rows[i].id.value, rows[i].data)))
  }

  /** An acceptable answer is a page of its first rows, with a cursor exactly when it has one row more. */
  lemma PageAnswers<T>(q: Query<T>, rows: seq<Raw<T>>, after: Option<int>)
    requires q.limit > 0
    ensures var r := PageOf(q, rows, after);
      && (r.Ok? <==> Acceptable(q, rows, after)) && (r.Err? ==> r == Err(InvalidResponse))
      && (r.Ok? ==>
            && |r.value.items| == (if |rows| > q.limit then q.limit else |rows|)
            && (forall i | 0 <= i < |r.value.items| ::
                  rows[i].id.Some? && r.value.items[i] == Record(rows[i].id.value, rows[i].data))
            && (r.value.next.Some? <==> |rows| == q.limit + 1))
  {
    hide EncodeNumber;
    if AllPositive(rows) {
      var records := Records(rows);
      assert forall i | 0 <= i < |rows| :: records[i] == Record(rows[i].id.value, rows[i].data);
    }
  }

  /** The caller's loop, from its n-th request on. */
  function Collected<T>(q: Query<T>, n: nat, cursor: Option<string>, items: seq<Record<T>>)
    : Result<seq<Record<T>>, ReadError>
    requires q.limit > 0 && |items| <= q.bound
    decreases q.bound - |items|
  {
    match ReadPage(q, n, cursor)
    case Err(e) => Err(e)
    case Ok(page) =>
      var all := items + page.items;
      if |all| > q.bound then Err(TooMany)
      else if page.next.None? then Ok(all)
      else Collected(q, n + 1, page.next, all)
  }

  /** It ends after at most one request more than full pages fit in the bound. */
  method Collect<T>(q: Query<T>) returns (r: Result<seq<Record<T>>, ReadError>, requests: nat)
    requires q.limit > 0
    ensures r == Collected(q, 0, None, [])
    ensures requests <= q.bound / q.limit + 1
  {
    var items, cursor := [], None;
    requests := 0;
    while true
      invariant |items| <= q.bound && requests * q.limit == |items|
      invariant Collected(q, requests, cursor, items) == Collected(q, 0, None, [])
      decreases q.bound - |items|
    {
      hide ReadPage;
      var answer := ReadPage(q, requests, cursor);
      FullPages(requests, q.limit, q.bound);
      requests := requests + 1;
      if answer.Err? {
        return Err(answer.error), requests;
      }
      var page := answer.value;
      items := items + page.items;
      if |items| > q.bound {
        return Err(TooMany), requests;
      }
      if page.next.None? {
        return Ok(items), requests;
      }
      cursor := page.next;
    }
  }

  lemma Scaled(a: nat, b: nat, k: nat)
    requires a <= b
    ensures a * k <= b * k
  {
  }

  lemma FullPages(n: nat, limit: nat, bound: nat)
    requires limit > 0 && n * limit <= bound
    ensures n <= bound / limit
    ensures (n + 1) * limit == n * limit + limit
  {
    if n > bound / limit {
      Scaled(bound / limit + 1, n, limit);
      assert false;
    }
  }

  // ---------- Any accepted answers ----------

  /** The cursor a loop holds after `items`: none before the first page, then that of the last record. */
  predicate Follows<T>(cursor: Option<string>, items: seq<Record<T>>) {
    if items == [] then cursor.None?
    else items[|items| - 1].id > 0 && cursor == Some(EncodeNumber(items[|items| - 1].id))
  }

  lemma FollowsDecodes<T>(cursor: Option<string>, items: seq<Record<T>>)
    requires Follows(cursor, items)
    ensures DecodeAfter(cursor) == Ok(if items == [] then None else Some(items[|items| - 1].id))
  {
    if items != [] { NumberCursorRoundTrip(items[|items| - 1].id); }
  }

  lemma PageOrdered<T>(q: Query<T>, rows: seq<Raw<T>>, after: Option<int>)
    requires q.limit > 0 && PageOf(q, rows, after).Ok?
    ensures var page := PageOf(q, rows, after).value;
      && Increasing(page.items) && Beyond(page.items, after)
      && (page.next.Some? ==>
            page.items[q.limit - 1].id > 0 && page.next == Some(EncodeNumber(page.items[q.limit - 1].id)))
  {
    hide EncodeNumber;
  }

  lemma IncreasingJoin<T>(a: seq<Record<T>>, b: seq<Record<T>>)
    requires Increasing(a) && Increasing(b) && (a != [] && b != [] ==> a[|a| - 1].id < b[0].id)
    ensures Increasing(a + b)
  {
    forall i, j | 0 <= i < j < |a + b| ensures (a + b)[i].id < (a + b)[j].id {
      if i < |a| <= j {
        assert a[i].id <= a[|a| - 1].id && b[0].id <= b[j - |a|].id;
      }
    }
  }

  /** One more accepted page keeps the ids increasing, and hands on the cursor of its last record. */
  lemma PageContinues<T>(q: Query<T>, n: nat, cursor: Option<string>, items: seq<Record<T>>)
    requires q.limit > 0 && Increasing(items) && Follows(cursor, items) && ReadPage(q, n, cursor).Ok?
    ensures var page := ReadPage(q, n, cursor).value;
      && Increasing(items + page.items)
      && (page.next.Some? ==> Follows(page.next, items + page.items))
  {
    FollowsDecodes(cursor, items);
    hide EncodeNumber, DecodeAfter, PageOf, Increasing;
    var after := if items == [] then None else Some(items[|items| - 1].id);
    PageOrdered(q, q.answers(n, after), after);
    IncreasingJoin(items, ReadPage(q, n, cursor).value.items);
  }

  /** Whatever the server answers, what the loop returns is strictly increasing: nothing comes twice. */
  lemma {:induction false} CollectedIncreases<T>(q: Query<T>, n: nat, cursor: Option<string>, items: seq<Record<T>>)
    requires q.limit > 0 && |items| <= q.bound && Increasing(items) && Follows(cursor, items)
    ensures var r := Collected(q, n, cursor, items);
      r.Ok? ==> Increasing(r.value) && |r.value| <= q.bound && items <= r.value
    decreases q.bound - |items|
  {
    hide ReadPage, Follows;
    var answer := ReadPage(q, n, cursor);
    if answer.Ok? && |items + answer.value.items| <= q.bound {
      PageContinues(q, n, cursor, items);
      if answer.value.next.Some? {
        CollectedIncreases(q, n + 1, answer.value.next, items + answer.value.items);
      }
    }
  }

  /** Everything collected passed normalisation and scope. */
  lemma {:induction false} CollectedValid<T>(q: Query<T>, n: nat, cursor: Option<string>, items: seq<Record<T>>)
    requires q.limit > 0 && |items| <= q.bound && AllValid(q, items)
    ensures var r := Collected(q, n, cursor, items); r.Ok? ==> AllValid(q, r.value)
    decreases q.bound - |items|
  {
    PageValid(q, n, cursor);
    hide ReadPage;
    var answer := ReadPage(q, n, cursor);
    if answer.Ok? {
      var all := items + answer.value.items;
      if |all| <= q.bound && answer.value.next.Some? {
        CollectedValid(q, n + 1, answer.value.next, all);
      }
    }
  }

  lemma PageValid<T>(q: Query<T>, n: nat, cursor: Option<string>)
    requires q.limit > 0
    ensures var r := ReadPage(q, n, cursor); r.Ok? ==> AllValid(q, r.value.items)
  {
    hide EncodeNumber, DecodeAfter;
  }

  // ---------- Loops that also look for repeated cursors and ids ----------

  datatype Guarded<T> = Done(r: Result<seq<Record<T>>, ReadError>) | Repeated

  /** The same loop refusing a cursor it has held, or one equal to the last, or a page with a known id. */
  function Watched<T>(q: Query<T>, n: nat, cursor: Option<string>, seen: set<string>, items: seq<Record<T>>): Guarded<T>
    requires q.limit > 0 && |items| <= q.bound
    decreases q.bound - |items|
  {
    match ReadPage(q, n, cursor)
    case Err(e) => Done(Err(e))
    case Ok(page) =>
      if exists i, j | 0 <= i < |items| && 0 <= j < |page.items| :: items[i].id == page.items[j].id then Repeated
      else
        var all := items + page.items;
        if |all| > q.bound then Done(Err(TooMany))
        else if page.next.None? then Done(Ok(all))
        else if page.next == cursor || page.next.value in seen then Repeated
        else Watched(q, n + 1, page.next, seen + {page.next.value}, all)
  }

  function Ids<T>(items: seq<Record<T>>): set<int> {
    set i | 0 <= i < |items| :: items[i].id
  }

  /** The imperative loop, with the sets it fills. */
  method CollectWatched<T>(q: Query<T>) returns (r: Guarded<T>)
    requires q.limit > 0
    ensures r == Watched(q, 0, None, {}, [])
  {
    var items, cursor := [], None;
    var seenIds, seenCursors := {}, {};
    var n := 0;
    while true
      invariant |items| <= q.bound && seenIds == Ids(items)
      invariant Watched(q, n, cursor, seenCursors, items) == Watched(q, 0, None, {}, [])
      decreases q.bound - |items|
    {
      hide ReadPage;
      var answer := ReadPage(q, n, cursor);
      if answer.Err? {
        return Done(Err(answer.error));
      }
      var page := answer.value;
      if exists j | 0 <= j < |page.items| :: page.items[j].id in seenIds {
        return Repeated;
      }
      seenIds := seenIds + Ids(page.items);
      IdsJoin(items, page.items);
      items := items + page.items;
      if |items| > q.bound {
        return Done(Err(TooMany));
      }
      if page.next.None? {
        return Done(Ok(items));
      }
      if page.next == cursor || page.next.value in seenCursors {
        return Repeated;
      }
      seenCursors := seenCursors + {page.next.value};
      cursor := page.next;
      n := n + 1;
    }
  }

  lemma IdsJoin<T>(a: seq<Record<T>>, b: seq<Record<T>>)
    ensures Ids(a + b) == Ids(a) + Ids(b)
  {
    forall x | x in Ids(a) + Ids(b) ensures x in Ids(a + b) {
      if x in Ids(a) {
        var i :| 0 <= i < |a| && a[i].id == x;
        assert (a + b)[i].id == x;
      } else {
        var i :| 0 <= i < |b| && b[i].id == x;
        assert (a + b)[|a| + i].id == x;
      }
    }
  }

  /** Every cursor held so far is that of some earlier record. */
  predicate HeldOnly<T>(seen: set<string>, items: seq<Record<T>>) {
    forall c | c in seen :: exists i | 0 <= i < |items| :: items[i].id > 0 && c == EncodeNumber(items[i].id)
  }

  lemma EncodeNumberInjective(m: int, n: int)
    requires m > 0 && n > 0 && EncodeNumber(m) == EncodeNumber(n)
    ensures m == n
  {
    NumberCursorRoundTrip(m);
    NumberCursorRoundTrip(n);
  }

  lemma FreshCursor<T>(q: Query<T>, n: nat, cursor: Option<string>, seen: set<string>, items: seq<Record<T>>)
    requires q.limit > 0 && Increasing(items) && Follows(cursor, items) && HeldOnly(seen, items)
    requires ReadPage(q, n, cursor).Ok? && ReadPage(q, n, cursor).value.next.Some?
    ensures var page := ReadPage(q, n, cursor).value;
      page.next != cursor && page.next.value !in seen && HeldOnly(seen + {page.next.value}, items + page.items)
  {
    var page := ReadPage(q, n, cursor).value;
    PageContinues(q, n, cursor, items);
    hide ReadPage, EncodeNumber;
    var all, m := items + page.items, |items + page.items| - 1;
    if page.next == cursor && items != [] {
      assert all[|items| - 1] == items[|items| - 1];
      EncodeNumberInjective(all[m].id, items[|items| - 1].id);
    }
    forall c | c in seen + {page.next.value}
      ensures exists i | 0 <= i < |all| :: all[i].id > 0 && c == EncodeNumber(all[i].id)
    {
      if c in seen {
        var i :| 0 <= i < |items| && items[i].id > 0 && c == EncodeNumber(items[i].id);
        assert all[i] == items[i];
      } else {
        assert c == EncodeNumber(all[m].id);
      }
    }
    if page.next.value in seen {
      var i :| 0 <= i < |items| && items[i].id > 0 && page.next.value == EncodeNumber(items[i].id);
      assert all[i] == items[i];
      EncodeNumberInjective(all[m].id, items[i].id);
    }
  }

  /** Behind a page read the repetition checks never fire, so the loops without them end the same way. */
  lemma {:induction false} RepetitionNeverSeen<T>(q: Query<T>, n: nat, cursor: Option<string>, seen: set<string>,
                                                  items: seq<Record<T>>)
    requires q.limit > 0 && |items| <= q.bound && Increasing(items) && Follows(cursor, items) && HeldOnly(seen, items)
    ensures Watched(q, n, cursor, seen, items) == Done(Collected(q, n, cursor, items))
    decreases q.bound - |items|
  {
    hide ReadPage, Follows, HeldOnly;
    var answer := ReadPage(q, n, cursor);
    if answer.Ok? {
      PageContinues(q, n, cursor, items);
      var page := answer.value;
      var all := items + page.items;
      forall i, j | 0 <= i < |items| && 0 <= j < |page.items| ensures items[i].id != page.items[j].id {
        assert all[i].id < all[|items| + j].id;
      }
      if |all| <= q.bound && page.next.Some? {
        FreshCursor(q, n, cursor, seen, items);
        RepetitionNeverSeen(q, n + 1, page.next, seen + {page.next.value}, all);
      }
    }
  }

  // ---------- A fixed table ----------

  /** The in-scope rows behind an id, in id order. */
  function After<T>(table: seq<Record<T>>, id: int): seq<Record<T>> {
    if table == [] || table[0].id > id then table else After(table[1..], id)
  }

  function Served<T>(table: seq<Record<T>>, after: Option<int>, count: nat): seq<Raw<T>> {
    var rest := if after.None? then table else After(table, after.value);
    var sent := if |rest| > count then rest[..count] else rest;
    seq(|sent|, i requires 0 <= i < |sent| => Raw(Some(sent[i].id), sent[i].data))
  }

  ghost predicate ServedFrom<T(!new)>(q: Query<T>, table: seq<Record<T>>) {
    && Increasing(table)
    && (forall i | 0 <= i < |table| :: table[i].id > 0 && q.valid(table[i]))
    && (forall n, after :: q.answers(n, after) == Served(table, after, q.limit + 1))
  }

  lemma {:induction false} AfterPrefix<T>(table: seq<Record<T>>, k: nat)
    requires Increasing(table) && 0 < k <= |table|
    ensures After(table, table[k - 1].id) == table[k..]
  {
    if k == 1 {
      assert table[1..] == [] || table[1..][0].id > table[0].id;
      assert After(table, table[0].id) == After(table[1..], table[0].id) == table[1..];
    } else {
      AfterPrefix(table[1..], k - 1);
      assert table[0].id < table[k - 1].id && table[1..][k - 2] == table[k - 1];
      assert table[1..][k - 1..] == table[k..];
    }
  }

  lemma SuffixPage<T>(q: Query<T>, rest: seq<Record<T>>, rows: seq<Raw<T>>, after: Option<int>)
    requires q.limit > 0 && Increasing(rest) && Beyond(rest, after)
    requires forall i | 0 <= i < |rest| :: q.valid(rest[i])
    requires AllPositive(rows)
    requires Records(rows) == if |rest| > q.limit + 1 then rest[..q.limit + 1] else rest
    ensures PageOf(q, rows, after)
         == Ok(if |rest| > q.limit then Page(rest[..q.limit], Some(EncodeNumber(rest[q.limit - 1].id)))
               else Page(rest, None))
  {
    hide EncodeNumber;
    var sent := Records(rows);
    assert Increasing(sent) && Beyond(sent, after);
    if |rest| > q.limit { assert sent[..q.limit] == rest[..q.limit]; }
  }

  lemma Tail<T(!new)>(q: Query<T>, table: seq<Record<T>>, k: nat)
    requires ServedFrom(q, table) && k <= |table|
    ensures Increasing(table[k..])
    ensures forall i | 0 <= i < |table[k..]| :: table[k..][i].id > 0 && q.valid(table[k..][i])
    ensures k > 0 ==> Beyond(table[k..], Some(table[k - 1].id)) && After(table, table[k - 1].id) == table[k..]
  {
    if k > 0 { AfterPrefix(table, k); }
  }

  lemma TablePage<T(!new)>(q: Query<T>, table: seq<Record<T>>, n: nat, cursor: Option<string>, k: nat)
    requires q.limit > 0 && ServedFrom(q, table) && k <= |table| && Follows(cursor, table[..k])
    ensures var rest := table[k..];
      ReadPage(q, n, cursor)
      == Ok(if |rest| > q.limit then Page(rest[..q.limit], Some(EncodeNumber(rest[q.limit - 1].id)))
            else Page(rest, None))
  {
    FollowsDecodes(cursor, table[..k]);
    Tail(q, table, k);
    var after := if k == 0 then None else Some(table[k - 1].id);
    var rows := q.answers(n, after);
    assert rows == Served(table, after, q.limit + 1);
    assert DecodeAfter(cursor) == Ok(after);
    assert table[0..] == table;
    hide EncodeNumber, DecodeAfter, PageOf, Records, Increasing, After, Follows, ServedFrom;
    var rest := table[k..];
    assert rest == if after.None? then table else After(table, after.value);
    ServedAll(table, after, q.limit + 1, rest);
    SuffixPage(q, rest, rows, after);
  }

  lemma ServedAll<T>(table: seq<Record<T>>, after: Option<int>, count: nat, rest: seq<Record<T>>)
    requires rest == if after.None? then table else After(table, after.value)
    requires forall i | 0 <= i < |rest| :: rest[i].id > 0
    ensures AllPositive(Served(table, after, count))
    ensures Records(Served(table, after, count)) == if |rest| > count then rest[..count] else rest
  {
    hide After;
    var rows, sent := Served(table, after, count), if |rest| > count then rest[..count] else rest;
    assert forall i | 0 <= i < |rows| :: rows[i] == Raw(Some(sent[i].id), sent[i].data);
    assert Records(rows) == sent;
  }

  /** Over a fixed table the loop returns every record once in id order, exactly when the bound allows. */
  lemma {:induction false} TableCollected<T(!new)>(q: Query<T>, table: seq<Record<T>>, n: nat, cursor: Option<string>,
                                                   k: nat)
    requires q.limit > 0 && ServedFrom(q, table) && k <= |table| && k <= q.bound && Follows(cursor, table[..k])
    ensures Collected(q, n, cursor, table[..k]) == if |table| <= q.bound then Ok(table) else Err(TooMany)
    decreases q.bound - k
  {
    hide *;
    TablePage(q, table, n, cursor, k);
    var rest, l := table[k..], k + q.limit;
    if |table| > l {
      SlicesJoin(table, k, l);
      IdsPositive(q, table, l - 1);
      var next := Some(EncodeNumber(table[l - 1].id));
      CollectedStep(q, n, cursor, table[..k], Page(rest[..q.limit], next));
      if l <= q.bound {
        NextFollows(q, table, l);
        TableCollected(q, table, n + 1, next, l);
      }
    } else {
      CollectedStep(q, n, cursor, table[..k], Page(rest, None));
      assert table[..k] + rest == table;
    }
  }

  lemma IdsPositive<T(!new)>(q: Query<T>, table: seq<Record<T>>, i: nat)
    requires ServedFrom(q, table) && i < |table|
    ensures table[i].id > 0
  {
  }

  lemma SlicesJoin<X>(s: seq<X>, k: nat, l: nat)
    requires k < l <= |s|
    ensures s[..k] + s[k..][..l - k] == s[..l] && s[k..][l - k - 1] == s[l - 1]
  {
  }

  lemma CollectedStep<T>(q: Query<T>, n: nat, cursor: Option<string>, items: seq<Record<T>>, page: Page<T>)
    requires q.limit > 0 && |items| <= q.bound && ReadPage(q, n, cursor) == Ok(page)
    ensures Collected(q, n, cursor, items) ==
      var all := items + page.items;
      if |all| > q.bound then Err(TooMany)
      else if page.next.None? then Ok(all)
      else Collected(q, n + 1, page.next, all)
  {
  }

  lemma NextFollows<T(!new)>(q: Query<T>, table: seq<Record<T>>, k: nat)
    requires ServedFrom(q, table) && 0 < k <= |table|
    ensures Follows(Some(EncodeNumber(table[k - 1].id)), table[..k])
  {
    hide EncodeNumber;
  }

  /** The whole of a fixed table, from the first page. */
  lemma CollectReturnsTheTable<T(!new)>(q: Query<T>, table: seq<Record<T>>)
    requires q.limit > 0 && ServedFrom(q, table)
    ensures Collected(q, 0, None, []) == if |table| <= q.bound then Ok(table) else Err(TooMany)
  {
    assert table[..0] == [];
    TableCollected(q, table, 0, None, 0);
  }
}

/** Whole listings cut into pages by an offset the cursor carries. */
module OffsetListings {
  import opened Wrappers
  import opened Cursors

  datatype Slice<T> = Slice(items: seq<T>, next: Option<string>)

  datatype Codec = Codec(encode: nat -> string, decode: Option<string> -> Result<int, CursorError>)

  /** A cursor reads back as the positive offset it was made of; no cursor reads as zero. */
  ghost predicate Faithful(c: Codec) {
    c.decode(None) == Ok(0) && forall n: nat :: n > 0 ==> c.decode(Some(c.encode(n))) == Ok(n)
  }

  /** The slice a request is answered with. */
  function Listed<T>(c: Codec, all: seq<T>, limit: nat, cursor: Option<string>): Result<Slice<T>, CursorError> {
    match c.decode(cursor)
    case Err(e) => Err(e)
    case Ok(offset) =>
      if offset < 0 || offset > |all| then Err(InvalidCursor)
      else
        var next := if offset + limit < |all| then offset + limit else |all|;
        Ok(Slice(all[offset..next], if next < |all| then Some(c.encode(next)) else None))
  }

  /** Every cursor followed to the end, from offset `n` on. */
  ghost function Followed<T>(c: Codec, all: seq<T>, limit: nat, n: nat, cursor: Option<string>): seq<T>
    requires Faithful(c) && limit > 0 && n <= |all| && c.decode(cursor) == Ok(n)
    decreases |all| - n
  {
    var slice := Listed(c, all, limit, cursor).value;
    if slice.next.None? then slice.items else slice.items + Followed(c, all, limit, n + limit, slice.next)
  }

  lemma {:induction false} FollowedIsTheRest<T>(c: Codec, all: seq<T>, limit: nat, n: nat, cursor: Option<string>)
    requires Faithful(c) && limit > 0 && n <= |all| && c.decode(cursor) == Ok(n)
    ensures Followed(c, all, limit, n, cursor) == all[n..]
    decreases |all| - n
  {
    if n + limit < |all| {
      FollowedIsTheRest(c, all, limit, n + limit, Some(c.encode(n + limit)));
      assert all[n..n + limit] + all[n + limit..] == all[n..];
    } else {
      assert all[n..|all|] == all[n..];
    }
  }

  /** Followed to the end, the pages of any listing put together are the listing. */
  lemma PagesConcatenate<T>(c: Codec, all: seq<T>, limit: nat)
    requires Faithful(c) && limit > 0
    ensures Followed(c, all, limit, 0, None) == all
  {
    FollowedIsTheRest(c, all, limit, 0, None);
    assert all[0..] == all;
  }

  /** Documents and cashbook lines. */
  function OffsetCodec(): Codec {
    Codec((n: nat) => EncodeNumber(n), (cursor: Option<string>) =>
      if cursor.None? then Ok(0) else DecodeNumber(cursor.value))
  }

  function RatesCodec(r: RatesRequest): Codec {
    Codec((n: nat) => EncodeRates(r, n), (cursor: Option<string>) => DecodeRates(r, cursor))
  }

  lemma OffsetCodecFaithful()
    ensures Faithful(OffsetCodec())
  {
    var c := OffsetCodec();
    forall n: nat | n > 0 ensures c.decode(Some(c.encode(n))) == Ok(n) {
      NumberCursorRoundTrip(n);
    }
  }

  lemma RatesCodecFaithful(r: RatesRequest)
    requires r.Valid()
    ensures Faithful(RatesCodec(r))
  {
    var c := RatesCodec(r);
    forall n: nat | n > 0 ensures c.decode(Some(c.encode(n))) == Ok(n) {
      RatesCursorBound(r, r, n);
    }
  }
}
