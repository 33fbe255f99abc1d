/** What a loaded authorization code is good for, and for how long. */
module AuthorityCodes {
  import opened Wrappers
  import opened AuthorityTables
  import opened Authority
  import opened AuthoritySteps
  import opened AuthorityRuns

  /** The session a load answers from: the code's, still authorized and not yet expired. */
  predicate Loadable(db: Db, client: string, code: string, h: string, now: int) {
    && h in db.sessions
    && var s := db.sessions[h];
       s.code == Some(code) && s.client == client && s.status.Authorized? && s.expires > now
  }

  /** The scopes that come with the code object, when the load hands one out. */
  ghost function LoadCode(db: Db, client: string, code: string, now: int): Option<set<string>> {
    if h :| Loadable(db, client, code, h, now) then Some(db.sessions[h].scopes) else None
  }

  /** What is left of a load whatever follows: the session with its code, scopes and expiry. */
  predicate Carries(db: Db, client: string, code: string, scopes: set<string>, h: string, expires: int) {
    && h in db.sessions
    && var s := db.sessions[h];
       s.code == Some(code) && s.client == client && s.scopes == scopes && s.expires == expires && !s.status.Waiting?
  }

  lemma LoadedCarries(db: Db, client: string, code: string, scopes: set<string>, now: int) returns (h: string)
    requires LoadCode(db, client, code, now) == Some(scopes)
    ensures Loadable(db, client, code, h, now) && Carries(db, client, code, scopes, h, db.sessions[h].expires)
  {
    h :| Loadable(db, client, code, h, now) && LoadCode(db, client, code, now) == Some(db.sessions[h].scopes);
  }

  lemma CarriesStays(db: Db, op: Op, client: string, code: string, scopes: set<string>, h: string, expires: int)
    requires Inv(db) && Carries(db, client, code, scopes, h, expires)
    ensures Carries(Apply(db, op).0, client, code, scopes, h, expires)
  {
    hide GrantsOk, ConnectorsOk, TokensOk, SessionsOk;
  }

  lemma {:induction false} CarriesLasts(db: Db, ops: seq<Op>, client: string, code: string, scopes: set<string>,
                                        h: string, expires: int)
    requires Inv(db) && Carries(db, client, code, scopes, h, expires)
    ensures Carries(Exec(db, ops), client, code, scopes, h, expires)
    decreases ops
  {
    hide Inv, Apply, Carries;
    if ops != [] {
      ApplyKeeps(db, ops[0]);
      CarriesStays(db, ops[0], client, code, scopes, h, expires);
      CarriesLasts(Apply(db, ops[0]).0, ops[1..], client, code, scopes, h, expires);
    }
  }

  // ---------- What an exchange of a loaded code answers ----------

  /** The code is unspent and its client still holds an active grant of the session's connector. */
  ghost predicate Exchangeable(db: Db, client: string, h: string) {
    && h in db.sessions && db.sessions[h].status.Authorized?
    && exists g :: g in db.grants && db.grants[g].active && db.grants[g].client == client
                   && db.sessions[h].connector == Some(db.grants[g].connector)
  }

  /** Any match of a carried code is its own session, whose scopes the grant allows. */
  lemma CarriedIsMatched(db: Db, client: string, code: string, scopes: set<string>, h: string, expires: int)
    requires Inv(db) && Carries(db, client, code, scopes, h, expires)
    ensures forall k, g | CodeMatch(db, client, code, k, g) :: k == h && ScopesAllowed(db, g, scopes)
    ensures (exists k, g :: CodeMatch(db, client, code, k, g)) <==> Exchangeable(db, client, h)
  {
    CodesDiffer(db, h);
    assert SessionOk(db, h);
    forall k, g | CodeMatch(db, client, code, k, g) ensures k == h && ScopesAllowed(db, g, scopes) {
      assert k == h;
      MatchedGrantBare(db, client, code, h, g);
    }
    hide Inv;
    if Exchangeable(db, client, h) {
      var g :| g in db.grants && db.grants[g].active && db.grants[g].client == client
               && db.sessions[h].connector == Some(db.grants[g].connector);
      assert CodeMatch(db, client, code, h, g);
    }
  }

  lemma CarriedAnswer(db: Db, client: string, code: string, scopes: set<string>, h: string, expires: int,
                      access: string, refresh: string, now: int)
    requires Inv(db) && Carries(db, client, code, scopes, h, expires)
    ensures var r := ExchangeCodeTx(db, client, code, scopes, access, refresh, now).1;
      if !Exchangeable(db, client, h) then r == Err(Invalid)
      else if !FreshPair(db, access, refresh) then r == Err(KeyViolation)
      else r.Ok?
  {
    CarriedIsMatched(db, client, code, scopes, h, expires);
    hide Inv, Exchangeable, ScopesAllowed;
  }

  /**
   A code object loaded at any earlier time is exchanged exactly while the session is unspent and its grant
   active, with a fresh pair of token values: no trigger aborts, and the time of the exchange plays no part.
   */
  lemma LoadedCodeExchange(ops: seq<Op>, more: seq<Op>, client: string, code: string, scopes: set<string>, loaded: int,
                           access: string, refresh: string, now: int) returns (h: string)
    requires LoadCode(Exec(EMPTY, ops), client, code, loaded) == Some(scopes)
    ensures Loadable(Exec(EMPTY, ops), client, code, h, loaded)
    ensures var db := Exec(Exec(EMPTY, ops), more);
      && Carries(db, client, code, scopes, h, Exec(EMPTY, ops).sessions[h].expires)
      && var r := ExchangeCodeTx(db, client, code, scopes, access, refresh, now).1;
         if !Exchangeable(db, client, h) then r == Err(Invalid)
         else if !FreshPair(db, access, refresh) then r == Err(KeyViolation)
         else r.Ok?
  {
    hide Inv, Exec, ExchangeCodeTx, Exchangeable, FreshPair, LoadCode;
    var db := Exec(EMPTY, ops);
    Reachable(ops);
    ExecKeeps(db, more);
    h := LoadedCarries(db, client, code, scopes, loaded);
    CarriesLasts(db, more, client, code, scopes, h, db.sessions[h].expires);
    CarriedAnswer(Exec(db, more), client, code, scopes, h, db.sessions[h].expires, access, refresh, now);
  }

  /** Tokens are issued only within the session's lifetime. */
  ghost predicate LifetimeKept(db: Db, client: string, code: string, scopes: set<string>, h: string, access: string,
                               refresh: string, now: int)
    requires h in db.sessions
  {
    ExchangeCodeTx(db, client, code, scopes, access, refresh, now).1.Ok? ==> now < db.sessions[h].expires
  }

  /** The lifetime is kept exactly by callers that exchange before it ends, or have nothing to exchange. */
  lemma LifetimeKeptExactly(ops: seq<Op>, more: seq<Op>, client: string, code: string, scopes: set<string>, loaded: int,
                            access: string, refresh: string, now: int) returns (h: string)
    requires LoadCode(Exec(EMPTY, ops), client, code, loaded) == Some(scopes)
    ensures var db := Exec(Exec(EMPTY, ops), more);
      && Loadable(Exec(EMPTY, ops), client, code, h, loaded) && h in db.sessions
      && (LifetimeKept(db, client, code, scopes, h, access, refresh, now) <==>
            now < db.sessions[h].expires || !Exchangeable(db, client, h) || !FreshPair(db, access, refresh))
  {
    h := LoadedCodeExchange(ops, more, client, code, scopes, loaded, access, refresh, now);
    hide Exec, ExchangeCodeTx, Exchangeable, FreshPair, LoadCode;
  }

  // ---------- A run that exchanges after the session's lifetime ----------

  /** One enrollment under `handle`, activated at time zero. */
  function Enrollment(handle: string): seq<Op> {
    [Register("client"),
     Authorize("s", "client", {"read"}, {"read"}, {"read"}, 43, true, 0),
     Prepare("c", handle, "profile", [1], 0),
     Bind("s", "c", 0),
     Commit("c", handle, [1], 1, 0),
     Activate("s", true, "code", "g", 0)]
  }

  function PendingRow(id: string, handle: string): Connector {
    Connector("connector:" + id, "profile", [1], None, None, Pending, Some(handle), None, SESSION_TTL)
  }

  function SelectedRow(id: string, handle: string): Connector {
    PendingRow(id, handle).(allowed := Some([1]), default := Some(1), handle := None, consumed := Some(handle))
  }

  function Waits(connector: Option<string>): Session {
    Session("client", connector, None, {"read"}, None, Waiting, AUTHORIZATION_TTL)
  }

  /** The state the run ends in. */
  function Activated(handle: string): Db {
    Db({"client"}, map["s" := Waits(Some("c")).(code := Some("code"), status := Authorized)],
       map["g" := Grant("c", PendingRow("c", handle).tenant, "client", {"read"}, true)], map[],
       map["c" := SelectedRow("c", handle).(status := Active)])
  }

  lemma PrepareStep(handle: string)
    requires |handle| >= 22
    ensures var db := Db({"client"}, map["s" := Waits(None)], map[], map[], map[]);
      Apply(db, Enrollment(handle)[2]).0 == db.(connectors := map["c" := PendingRow("c", handle)])
  {
    var db := Db({"client"}, map["s" := Waits(None)], map[], map[], map[]);
    assert !exists e :: HandleTaken(db, handle, e);
  }

  lemma OneSelected()
    ensures Distinct([1]) == [1] && Selection([1], 1)
  {
    assert [1][..0] == [];
  }

  lemma CommitStep(handle: string)
    ensures var db := Db({"client"}, map["s" := Waits(Some("c"))], map[], map[], map["c" := PendingRow("c", handle)]);
      Apply(db, Enrollment(handle)[4]).0 == db.(connectors := map["c" := SelectedRow("c", handle)])
  {
    OneSelected();
    hide Distinct, Selection;
    var rows := map["c" := PendingRow("c", handle)];
    assert rows["c" := SelectedRow("c", handle)] == map["c" := SelectedRow("c", handle)];
    assert forall e | e in rows :: rows[e].consumed.None?;
  }

  lemma ActivateStep(handle: string)
    ensures var db := Db({"client"}, map["s" := Waits(Some("c"))], map[], map[], map["c" := SelectedRow("c", handle)]);
      Apply(db, Enrollment(handle)[5]).0 == Activated(handle)
  {
    hide Revoke;
  }

  lemma EnrollmentEnds(handle: string)
    requires |handle| >= 22
    ensures Exec(EMPTY, Enrollment(handle)) == Activated(handle)
  {
    var ops := Enrollment(handle);
    var d2 := Db({"client"}, map["s" := Waits(None)], map[], map[], map[]);
    assert Apply(Apply(EMPTY, ops[0]).0, ops[1]).0 == d2;
    PrepareStep(handle);
    var d3 := d2.(connectors := map["c" := PendingRow("c", handle)]);
    var d4 := d3.(sessions := map["s" := Waits(Some("c"))]);
    assert Apply(d3, ops[3]).0 == d4;
    CommitStep(handle);
    ActivateStep(handle);
    hide Apply, Activated, PendingRow, SelectedRow, Waits;
    ExecSix(EMPTY, ops);
  }

  lemma ExecSix(db: Db, ops: seq<Op>)
    requires |ops| == 6
    ensures Exec(db, ops)
         == Apply(Apply(Apply(Apply(Apply(Apply(db, ops[0]).0, ops[1]).0, ops[2]).0, ops[3]).0, ops[4]).0, ops[5]).0
  {
    var d := db;
    d := ExecOne(d, ops, 0);
    d := ExecOne(d, ops, 1);
    d := ExecOne(d, ops, 2);
    d := ExecOne(d, ops, 3);
    d := ExecOne(d, ops, 4);
    d := ExecOne(d, ops, 5);
    hide Apply;
    assert ops[0..] == ops && Exec(d, ops[6..]) == d;
  }

  /** A code loaded in time still issues tokens once its session has expired. */
  lemma ExpiredSessionIssues(handle: string)
    requires |handle| >= 22
    ensures var db := Exec(EMPTY, Enrollment(handle));
      && "s" in db.sessions && var late := db.sessions["s"].expires;
         && LoadCode(db, "client", "code", late - 1) == Some({"read"})
         && ExchangeCodeTx(db, "client", "code", {"read"}, "access", "refresh", late).1.Ok?
  {
    EnrollmentEnds(handle);
    var db := Activated(handle);
    assert Loadable(db, "client", "code", "s", AUTHORIZATION_TTL - 1);
    assert CodeMatch(db, "client", "code", "s", "g");
    hide Exec;
    assert "access"[0] != "refresh"[0];
  }
}
