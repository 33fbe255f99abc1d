/** The sliding-window limiter in front of the authority endpoints. */
module RateLimiter {
  import opened Wrappers

  /** At most `requests` accepted in any window of `window` time units. */
  datatype Limits = Limits(requests: nat, window: int)

  // ---------- One client ----------

  function Trimmed(events: seq<int>, cutoff: int): seq<int> {
    if events != [] && events[0] <= cutoff then Trimmed(events[1..], cutoff) else events
  }

  /** The queue after a request, and whether the request passed. */
  function Admit(l: Limits, events: seq<int>, now: int): (seq<int>, bool) {
    var recent := Trimmed(events, now - l.window);
    if |recent| >= l.requests then (recent, false) else (recent + [now], true)
  }

  /** The queue and the accepted times after requests at `times`. */
  datatype History = History(events: seq<int>, accepted: seq<int>)

  function After(l: Limits, times: seq<int>): History {
    if times == [] then History([], [])
    else
      var n := |times| - 1;
      var before := After(l, times[..n]);
      var (events, passed) := Admit(l, before.events, times[n]);
      History(events, if passed then before.accepted + [times[n]] else before.accepted)
  }

  /** A monotonic clock. */
  predicate Monotonic(times: seq<int>) {
    forall i, j | 0 <= i < j < |times| :: times[i] <= times[j]
  }

  function Recent(times: seq<int>, cutoff: int): seq<int> {
    if times == [] then []
    else
      var rest := Recent(times[..|times| - 1], cutoff);
      if times[|times| - 1] > cutoff then rest + [times[|times| - 1]] else rest
  }

  lemma {:induction false} TrimmedIsSuffix(s: seq<int>, cutoff: int) returns (k: nat)
    requires Monotonic(s)
    ensures k <= |s| && Trimmed(s, cutoff) == s[k..]
    ensures forall i | 0 <= i < k :: s[i] <= cutoff
    ensures forall i | k <= i < |s| :: s[i] > cutoff
  {
    if s != [] && s[0] <= cutoff {
      var j := TrimmedIsSuffix(s[1..], cutoff);
      k := j + 1;
      assert forall i | 1 <= i < |s| :: s[i] == s[1..][i - 1];
    } else {
      k := 0;
    }
  }

  lemma {:induction false} RecentIsSuffix(s: seq<int>, k: nat, cutoff: int)
    requires k <= |s|
    requires forall i | 0 <= i < k :: s[i] <= cutoff
    requires forall i | k <= i < |s| :: s[i] > cutoff
    ensures Recent(s, cutoff) == s[k..]
  {
    if s != [] {
      var n := |s| - 1;
      RecentIsSuffix(s[..n], if n < k then n else k, cutoff);
      assert n >= k ==> s[k..] == s[..n][k..] + [s[n]];
    }
  }

  /** On a monotonic queue, popping from the front keeps exactly the recent times. */
  lemma TrimmedIsRecent(s: seq<int>, cutoff: int)
    requires Monotonic(s)
    ensures Trimmed(s, cutoff) == Recent(s, cutoff)
  {
    var k := TrimmedIsSuffix(s, cutoff);
    RecentIsSuffix(s, k, cutoff);
  }

  lemma {:induction false} RecentLater(s: seq<int>, a: int, b: int)
    requires a <= b
    ensures Recent(Recent(s, a), b) == Recent(s, b)
  {
    if s != [] {
      RecentLater(s[..|s| - 1], a, b);
      var rest, last := Recent(s[..|s| - 1], a), s[|s| - 1];
      assert (rest + [last])[..|rest|] == rest;
    }
  }

  lemma RecentPush(s: seq<int>, t: int, cutoff: int)
    ensures Recent(s + [t], cutoff) == if t > cutoff then Recent(s, cutoff) + [t] else Recent(s, cutoff)
  {
    assert (s + [t])[..|s|] == s;
  }

  lemma MonotonicInit(s: seq<int>)
    requires Monotonic(s) && s != []
    ensures Monotonic(s[..|s| - 1])
    ensures NoneLater(s[..|s| - 1], s[|s| - 1])
  {
  }

  lemma MonotonicPush(s: seq<int>, t: int)
    requires Monotonic(s) && NoneLater(s, t)
    ensures Monotonic(s + [t])
  {
    assert forall i | 0 <= i < |s| :: s[i] in s;
  }

  predicate NoneLater(s: seq<int>, t: int) {
    forall x | x in s :: x <= t
  }

  /** The accepted times are some of the request times, in order. */
  lemma {:induction false} AcceptedInOrder(l: Limits, times: seq<int>)
    requires Monotonic(times)
    ensures Monotonic(After(l, times).accepted)
    ensures forall t | t in After(l, times).accepted :: t in times
  {
    if times != [] {
      var n := |times| - 1;
      MonotonicInit(times);
      hide Monotonic, Admit;
      AcceptedInOrder(l, times[..n]);
      MonotonicPush(After(l, times[..n]).accepted, times[n]);
    }
  }

  lemma {:induction false} RecentMonotonic(s: seq<int>, cutoff: int)
    requires Monotonic(s)
    ensures Monotonic(Recent(s, cutoff))
    ensures forall t | t in Recent(s, cutoff) :: t in s
  {
    if s != [] {
      MonotonicInit(s);
      hide Monotonic;
      RecentMonotonic(s[..|s| - 1], cutoff);
      MonotonicPush(Recent(s[..|s| - 1], cutoff), s[|s| - 1]);
    }
  }

  /** On the recent part of a history, `Admit` sees the part recent now. */
  lemma AdmitSeesRecent(l: Limits, accepted: seq<int>, cutoff: int, now: int)
    requires Monotonic(accepted) && cutoff <= now - l.window
    ensures var recent := Recent(accepted, now - l.window);
      Admit(l, Recent(accepted, cutoff), now)
      == if |recent| >= l.requests then (recent, false) else (recent + [now], true)
  {
    RecentMonotonic(accepted, cutoff);
    TrimmedIsRecent(Recent(accepted, cutoff), now - l.window);
    RecentLater(accepted, cutoff, now - l.window);
  }

  lemma AfterNext(l: Limits, times: seq<int>)
    requires times != []
    ensures var n := |times| - 1;
      var before := After(l, times[..n]);
      var (events, passed) := Admit(l, before.events, times[n]);
      After(l, times) == History(events, if passed then before.accepted + [times[n]] else before.accepted)
  {
    hide Admit;
  }

  /** The queue is always the accepted history since the last cutoff. */
  lemma {:induction false} QueueIsRecentHistory(l: Limits, times: seq<int>)
    requires Monotonic(times) && times != [] && l.window > 0
    ensures After(l, times).events == Recent(After(l, times).accepted, times[|times| - 1] - l.window)
    decreases |times|, 0
  {
    var n := |times| - 1;
    var now, before := times[n], After(l, times[..n]);
    MonotonicInit(times);
    AfterNext(l, times);
    hide After, Admit, Recent, Monotonic, NoneLater;
    RefusedExactlyWhenFull(l, times[..n], now);
    RecentPush(before.accepted, now, now - l.window);
  }

  /** Refused exactly when the last window already holds the full number accepted. */
  lemma {:induction false} RefusedExactlyWhenFull(l: Limits, times: seq<int>, now: int)
    requires l.window > 0 && Monotonic(times) && NoneLater(times, now)
    ensures var recent := Recent(After(l, times).accepted, now - l.window);
      Admit(l, After(l, times).events, now)
      == if |recent| >= l.requests then (recent, false) else (recent + [now], true)
    decreases |times|, 1
  {
    AcceptedInOrder(l, times);
    hide Admit, Monotonic;
    if times == [] {
      AdmitSeesRecent(l, [], now - l.window, now);
    } else {
      QueueIsRecentHistory(l, times);
      assert times[|times| - 1] in times;
      AdmitSeesRecent(l, After(l, times).accepted, times[|times| - 1] - l.window, now);
    }
  }

  /** Any requests + 1 consecutive accepted requests span at least a whole window. */
  lemma {:induction false} AcceptedSpread(l: Limits, times: seq<int>, i: nat)
    requires Monotonic(times) && l.window > 0 && i + l.requests < |After(l, times).accepted|
    ensures After(l, times).accepted[i + l.requests] >= After(l, times).accepted[i] + l.window
  {
    var n := |times| - 1;
    var before, now := After(l, times[..n]), times[n];
    MonotonicInit(times);
    hide Admit, Monotonic;
    if i + l.requests < |before.accepted| {
      AcceptedSpread(l, times[..n], i);
    } else {
      RefusedExactlyWhenFull(l, times[..n], now);
      AcceptedInOrder(l, times[..n]);
      RecentFrom(before.accepted, i, now - l.window);
    }
  }

  /** Fewer recent than the rest of the history: the history's next element is not recent. */
  lemma RecentFrom(s: seq<int>, i: nat, cutoff: int)
    requires Monotonic(s)
    ensures i < |s| && |Recent(s, cutoff)| < |s| - i ==> s[i] <= cutoff
  {
    var k := TrimmedIsSuffix(s, cutoff);
    RecentIsSuffix(s, k, cutoff);
  }

  /** No window, wherever it ends, holds more than the allowed number of accepted requests. */
  lemma NoWindowOverfull(l: Limits, times: seq<int>, end: int)
    requires Monotonic(times) && l.window > 0
    ensures |InWindow(After(l, times).accepted, end - l.window, end)| <= l.requests
  {
    var accepted := After(l, times).accepted;
    AcceptedInOrder(l, times);
    var from, to := WindowIsSlice(accepted, end - l.window, end);
    if to - from > l.requests {
      AcceptedSpread(l, times, from);
      assert false;
    }
  }

  function InWindow(times: seq<int>, after: int, upTo: int): seq<int> {
    if times == [] then []
    else
      var rest, last := InWindow(times[..|times| - 1], after, upTo), times[|times| - 1];
      if after < last <= upTo then rest + [last] else rest
  }

  lemma {:induction false} WindowIsSlice(s: seq<int>, after: int, upTo: int) returns (from: nat, to: nat)
    requires Monotonic(s)
    ensures from <= to <= |s| && |InWindow(s, after, upTo)| == to - from
    ensures forall i | from <= i < to :: after < s[i] <= upTo
    ensures forall i | to <= i < |s| :: to > from ==> s[i] > upTo
  {
    if s == [] {
      from, to := 0, 0;
    } else {
      var n := |s| - 1;
      from, to := WindowIsSlice(s[..n], after, upTo);
      if after < s[n] <= upTo {
        if from == to { from := n; }
        to := n + 1;
      }
    }
  }

  // ---------- Interleaved clients ----------

  datatype Request = Request(path: string, client: Option<string>, now: int)

  type Queues = map<string, seq<int>>

  predicate Limited(paths: seq<string>, path: string) {
    exists i | 0 <= i < |paths| :: paths[i] <= path
  }

  function KeyOf(client: Option<string>): string {
    if client.Some? then client.value else "unknown"
  }

  function Queue(queues: Queues, key: string): seq<int> {
    if key in queues then queues[key] else []
  }

  /** The queues after a request, and whether it passed. */
  function Respond(l: Limits, paths: seq<string>, queues: Queues, r: Request): (Queues, bool) {
    if !Limited(paths, r.path) then (queues, true)
    else
      var (queue, passed) := Admit(l, Queue(queues, KeyOf(r.client)), r.now);
      (queues[KeyOf(r.client) := queue], passed)
  }

  datatype Served = Served(queues: Queues, passed: seq<bool>)

  /** One limiter answering requests in the order they reach it. */
  function Serve(l: Limits, paths: seq<string>, requests: seq<Request>): (s: Served)
    ensures |s.passed| == |requests|
  {
    if requests == [] then Served(map[], [])
    else
      var n := |requests| - 1;
      var before := Serve(l, paths, requests[..n]);
      var (queues, passed) := Respond(l, paths, before.queues, requests[n]);
      Served(queues, before.passed + [passed])
  }

  /** The limiter knows a client by its host, and those without one together with the host "unknown". */
  predicate SameClient(a: Option<string>, b: Option<string>) {
    a == b || (a in {None, Some("unknown")} && b in {None, Some("unknown")})
  }

  lemma KeysAreClients(a: Option<string>, b: Option<string>)
    ensures KeyOf(a) == KeyOf(b) <==> SameClient(a, b)
  {
  }

  /** One client's requests to limited paths: of those marked, the times. */
  function TimesOf(paths: seq<string>, requests: seq<Request>, marked: seq<bool>, client: Option<string>): seq<int>
    requires |marked| == |requests|
  {
    if requests == [] then []
    else
      var n := |requests| - 1;
      var rest, r := TimesOf(paths, requests[..n], marked[..n], client), requests[n];
      if marked[n] && Limited(paths, r.path) && SameClient(r.client, client) then rest + [r.now] else rest
  }

  function All(n: nat): seq<bool> { seq(n, _ => true) }

  function Asked(paths: seq<string>, requests: seq<Request>, client: Option<string>): seq<int> {
    TimesOf(paths, requests, All(|requests|), client)
  }

  function Granted(l: Limits, paths: seq<string>, requests: seq<Request>, client: Option<string>): seq<int> {
    TimesOf(paths, requests, Serve(l, paths, requests).passed, client)
  }

  /** However requests interleave, each client sees a limiter of its own. */
  lemma {:induction false} ClientsApart(l: Limits, paths: seq<string>, requests: seq<Request>, client: Option<string>)
    ensures var own := After(l, Asked(paths, requests, client));
      && Queue(Serve(l, paths, requests).queues, KeyOf(client)) == own.events
      && Granted(l, paths, requests, client) == own.accepted
  {
    hide Admit, Limited, KeyOf, SameClient;
    if requests != [] {
      var n := |requests| - 1;
      ClientsApart(l, paths, requests[..n], client);
      KeysAreClients(requests[n].client, client);
      assert All(n + 1)[..n] == All(n);
      var r, asked := requests[n], Asked(paths, requests[..n], client);
      assert Serve(l, paths, requests).passed[..n] == Serve(l, paths, requests[..n]).passed;
      assert (asked + [r.now])[..|asked|] == asked;
    }
  }

  /** The clock does not run backwards between requests. */
  predicate InOrder(requests: seq<Request>) {
    forall i, j | 0 <= i < j < |requests| :: requests[i].now <= requests[j].now
  }

  lemma {:induction false} AskedInOrder(paths: seq<string>, requests: seq<Request>, client: Option<string>)
    requires InOrder(requests)
    ensures Monotonic(Asked(paths, requests, client))
    ensures forall t | t in Asked(paths, requests, client) :: exists r | r in requests :: r.now == t
  {
    hide Limited, SameClient;
    if requests != [] {
      var n := |requests| - 1;
      AskedInOrder(paths, requests[..n], client);
      assert All(n + 1)[..n] == All(n);
      var asked := Asked(paths, requests[..n], client);
      forall t | t in asked ensures t <= requests[n].now && exists r | r in requests :: r.now == t {
        var r :| r in requests[..n] && r.now == t;
        assert r in requests;
      }
      assert requests[n] in requests;
      MonotonicPush(asked, requests[n].now);
    }
  }

  /** Over any interleaving of clients, no window holds more than the allowed number of one client's passes. */
  lemma NoClientOverfull(l: Limits, paths: seq<string>, requests: seq<Request>, client: Option<string>, end: int)
    requires InOrder(requests) && l.window > 0
    ensures |InWindow(Granted(l, paths, requests, client), end - l.window, end)| <= l.requests
  {
    hide *;
    ClientsApart(l, paths, requests, client);
    AskedInOrder(paths, requests, client);
    NoWindowOverfull(l, Asked(paths, requests, client), end);
  }

  lemma AskedBefore(paths: seq<string>, requests: seq<Request>, client: Option<string>, now: int)
    requires InOrder(requests) && forall q | q in requests :: q.now <= now
    ensures Monotonic(Asked(paths, requests, client)) && NoneLater(Asked(paths, requests, client), now)
  {
    AskedInOrder(paths, requests, client);
    hide Asked, Monotonic, InOrder;
  }

  lemma RespondAdmits(l: Limits, paths: seq<string>, queues: Queues, r: Request)
    ensures Respond(l, paths, queues, r).1
         == (!Limited(paths, r.path) || Admit(l, Queue(queues, KeyOf(r.client)), r.now).1)
  {
    hide Admit, Limited;
  }

  lemma OrderedSoFar(requests: seq<Request>, r: Request)
    requires InOrder(requests + [r])
    ensures InOrder(requests) && forall q | q in requests :: q.now <= r.now
  {
    var all := requests + [r];
    assert forall i | 0 <= i < |requests| :: requests[i] == all[i] && all[i].now <= all[|requests|].now;
  }

  /**
   The next request passes exactly when its path is not limited or its own client has room in the last window:
   what other clients did is of no account.
   */
  lemma PassesExactly(l: Limits, paths: seq<string>, requests: seq<Request>, r: Request)
    requires InOrder(requests + [r]) && l.window > 0
    ensures Respond(l, paths, Serve(l, paths, requests).queues, r).1
      <==> (forall p | p in paths :: !(p <= r.path))
           || |Recent(Granted(l, paths, requests, r.client), r.now - l.window)| < l.requests
  {
    LimitedByPrefix(paths, r.path);
    hide *;
    OrderedSoFar(requests, r);
    RespondAdmits(l, paths, Serve(l, paths, requests).queues, r);
    ClientsApart(l, paths, requests, r.client);
    AskedBefore(paths, requests, r.client, r.now);
    RefusedExactlyWhenFull(l, Asked(paths, requests, r.client), r.now);
  }

  lemma LimitedByPrefix(paths: seq<string>, path: string)
    ensures Limited(paths, path) <==> exists p :: p in paths && p <= path
  {
    if Limited(paths, path) {
      var i :| 0 <= i < |paths| && paths[i] <= path;
      assert paths[i] in paths;
    }
    if p :| p in paths && p <= path {
      var i :| 0 <= i < |paths| && paths[i] == p;
      assert paths[i] <= path;
    }
  }

  // ---------- The middleware ----------

  class SharedRateLimitMiddleware {
    const limits: Limits
    const paths: seq<string>
    var events: Queues

    constructor (limits: Limits, paths: seq<string>)
      ensures this.limits == limits && this.paths == paths && events == map[]
    {
      this.limits, this.paths, events := limits, paths, map[];
    }

    /** Requests outside the limited paths pass and leave no trace. */
    method Call(r: Request) returns (passed: bool)
      modifies this
      ensures (events, passed) == Respond(limits, paths, old(events), r)
    {
      if !Limited(paths, r.path) {
        return true;
      }
      var key := if r.client.Some? then r.client.value else "unknown";
      if key !in events {
        events := events[key := []];
      }
      ghost var queue := events[key];
      while events[key] != [] && events[key][0] <= r.now - limits.window
        invariant key in events && events == old(events)[key := events[key]]
        invariant Trimmed(events[key], r.now - limits.window) == Trimmed(queue, r.now - limits.window)
        decreases |events[key]|
      {
        events := events[key := events[key][1..]];
      }
      if |events[key]| >= limits.requests {
        return false;
      }
      events := events[key := events[key] + [r.now]];
      assert events == old(events)[key := events[key]];
      passed := true;
    }
  }
}
