/** Every authority transaction keeps the invariant. */
module AuthoritySteps {
  import opened Wrappers
  import opened AuthorityTables
  import opened Authority

  /** One session row replaced or added. */
  function WithSession(db: Db, h: string, row: Session): Db {
    db.(sessions := db.sessions[h := row])
  }

  lemma SessionReplaced(db: Db, h: string, row: Session)
    requires Inv(db)
    requires forall k | k in db.sessions || k == h :: SessionOk(WithSession(db, h, row), k)
    requires !row.status.Waiting? ==>
      forall k | k in db.sessions && k != h && !db.sessions[k].status.Waiting? ::
        db.sessions[k].connector != row.connector
    requires row.code.Some? ==> forall k | k in db.sessions && k != h :: db.sessions[k].code != row.code
    ensures Inv(WithSession(db, h, row))
  {
    OnlySessionsChange(db, WithSession(db, h, row));
    assert SessionsOk(db);
    hide Inv, GrantsOk, ConnectorsOk, TokensOk, SessionOk;
    assert SessionsOk(WithSession(db, h, row));
    Assemble(WithSession(db, h, row));
  }

  lemma OtherRowOk(db: Db, session: string, row: Session, h: string)
    requires Inv(db) && h in db.sessions && h != session
    ensures SessionOk(WithSession(db, session, row), h)
  {
    assert SessionOk(db, h);
    hide GrantsOk, TokensOk, ConnectorsOk, SessionsOk;
    var after := WithSession(db, session, row);
    forall g ensures GrantFor(after, after.sessions[h], g) <==> GrantFor(db, db.sessions[h], g) {}
  }

  // ---------- Revocation ----------

  lemma RevokeKeepsGrants(db: Db, c: string)
    requires Inv(db)
    ensures GrantsOk(Revoke(db, c))
  {
    hide TokensOk, SessionsOk, ConnectorsOk, GrantOk;
    var after := Revoke(db, c);
    forall g | g in after.grants ensures GrantOk(after, g) {
      RevokeKeepsGrant(db, c, g);
    }
  }

  lemma RevokeKeepsGrant(db: Db, c: string, g: string)
    requires g in db.grants && GrantOk(db, g)
    ensures GrantOk(Revoke(db, c), g)
  {
  }

  lemma RevokeKeepsConnectors(db: Db, c: string)
    requires Inv(db)
    ensures ConnectorsOk(Revoke(db, c))
  {
    hide TokensOk, SessionsOk;
    var after := Revoke(db, c);
    forall id | id in after.connectors && after.connectors[id].status.Active? ensures Granting(after, id) {
      assert Granting(db, id);
      var g :| g in db.grants && db.grants[g].connector == id && db.grants[g].active;
      assert after.grants[g] == db.grants[g];
    }
  }

  lemma RevokeKeepsTokens(db: Db, c: string)
    requires Inv(db)
    ensures TokensOk(Revoke(db, c))
  {
    hide SessionsOk, ConnectorsOk, GrantsOk;
    var after := Revoke(db, c);
    forall t | t in after.tokens ensures TokenOk(after, t) {
      assert TokenOk(db, t);
    }
  }

  lemma RevokeKeepsSessions(db: Db, c: string)
    requires Inv(db)
    ensures SessionsOk(Revoke(db, c))
  {
    hide TokensOk, ConnectorsOk, GrantsOk;
    var after := Revoke(db, c);
    forall h | h in after.sessions ensures SessionOk(after, h) {
      assert SessionOk(db, h);
      var s := db.sessions[h];
      forall g ensures GrantFor(after, s, g) <==> GrantFor(db, s, g) {}
    }
  }

  lemma RevokeKeeps(db: Db, c: string)
    requires Inv(db)
    ensures Inv(Revoke(db, c))
  {
    hide Inv, Revoke;
    RevokeKeepsGrants(db, c);
    RevokeKeepsConnectors(db, c);
    RevokeKeepsTokens(db, c);
    RevokeKeepsSessions(db, c);
    Assemble(Revoke(db, c));
  }

  lemma Assemble(db: Db)
    requires GrantsOk(db) && ConnectorsOk(db) && TokensOk(db) && SessionsOk(db)
    ensures Inv(db)
  {}

  // ---------- Activation ----------

  /** A pending connector has no grant, no session past waiting, and nobody supersedes it. */
  lemma PendingIsFree(db: Db, id: string)
    requires Inv(db) && id in db.connectors && db.connectors[id].status.Pending?
    ensures forall g | g in db.grants :: db.grants[g].connector != id
    ensures forall h | h in db.sessions :: db.sessions[h].superseded != Some(id)
    ensures forall h | h in db.sessions && !db.sessions[h].status.Waiting? :: db.sessions[h].connector != Some(id)
  {
    forall g | g in db.grants ensures db.grants[g].connector != id { assert GrantOk(db, g); }
    forall h | h in db.sessions
      ensures db.sessions[h].superseded != Some(id)
      ensures !db.sessions[h].status.Waiting? ==> db.sessions[h].connector != Some(id)
    {
      assert SessionOk(db, h);
    }
  }

  lemma GrantedKeepsGrants(db: Db, session: string, grant: string, now: int)
    requires Inv(db) && Activable(db, session, now) && grant !in db.grants
    requires db.sessions[session].client in db.clients
    ensures GrantsOk(Granted(db, session, grant))
  {
    var after := Granted(db, session, grant);
    PendingIsFree(db, db.sessions[session].connector.value);
    assert SessionOk(db, session);
    hide TokensOk, SessionsOk, ConnectorsOk;
    forall g | g in after.grants ensures GrantOk(after, g) {
      if g != grant { assert GrantOk(db, g); }
    }
  }

  lemma GrantedKeepsConnectors(db: Db, session: string, grant: string, now: int)
    requires Inv(db) && Activable(db, session, now) && grant !in db.grants
    ensures ConnectorsOk(Granted(db, session, grant))
  {
    var after := Granted(db, session, grant);
    var c := db.sessions[session].connector.value;
    hide TokensOk, SessionsOk, GrantsOk;
    assert ConnectorOk(db.connectors[c]);
    forall id | id in after.connectors && after.connectors[id].status.Active? ensures Granting(after, id) {
      if id == c {
        assert after.grants[grant].connector == c;
      } else {
        assert Granting(db, id);
        var g :| g in db.grants && db.grants[g].connector == id && db.grants[g].active;
        assert after.grants[g] == db.grants[g];
      }
    }
  }

  lemma GrantedKeepsTokens(db: Db, session: string, grant: string, now: int)
    requires Inv(db) && Activable(db, session, now) && grant !in db.grants
    ensures TokensOk(Granted(db, session, grant))
  {
    hide ConnectorsOk, GrantsOk, SessionsOk;
    var after := Granted(db, session, grant);
    forall t | t in after.tokens ensures TokenOk(after, t) { assert TokenOk(db, t); }
  }

  lemma GrantedKeepsSessions(db: Db, session: string, grant: string, now: int)
    requires Inv(db) && Activable(db, session, now) && grant !in db.grants
    ensures SessionsOk(Granted(db, session, grant))
  {
    var after := Granted(db, session, grant);
    PendingIsFree(db, db.sessions[session].connector.value);
    hide ConnectorsOk, GrantsOk, TokensOk;
    forall h | h in after.sessions ensures SessionOk(after, h) {
      assert SessionOk(db, h);
      var s := db.sessions[h];
      if !s.status.Waiting? {
        forall g ensures GrantFor(after, s, g) <==> GrantFor(db, s, g) {}
      }
    }
  }

  /** The state in which a freshly activated session may be marked authorized. */
  predicate ReadyToAuthorize(db: Db, session: string, grant: string, code: string) {
    && session in db.sessions && GrantFor(db, db.sessions[session], grant)
    && (forall h | h in db.sessions && !db.sessions[h].status.Waiting? ::
          db.sessions[h].connector != db.sessions[session].connector)
    && (forall t | t in db.tokens :: db.tokens[t].grant != grant)
    && (forall h | h in db.sessions :: db.sessions[h].code != Some(code))
  }

  function Authorize(db: Db, session: string, code: string): Db
    requires session in db.sessions
  {
    WithSession(db, session, db.sessions[session].(code := Some(code), status := Authorized))
  }

  lemma AuthorizedRowOk(db: Db, session: string, grant: string, code: string)
    requires Inv(db) && ReadyToAuthorize(db, session, grant, code)
    ensures SessionOk(Authorize(db, session, code), session)
  {
    assert SessionOk(db, session);
    var after := Authorize(db, session, code);
    var s := after.sessions[session];
    assert GrantFor(after, s, grant);
    forall g | GrantFor(after, s, g) ensures g == grant {
      assert db.grants[g].connector == db.grants[grant].connector;
    }
  }

  lemma AuthorizedKeeps(db: Db, session: string, grant: string, code: string)
    requires Inv(db) && ReadyToAuthorize(db, session, grant, code)
    ensures Inv(Authorize(db, session, code))
  {
    hide Inv, SessionOk;
    AuthorizedRowOk(db, session, grant, code);
    var row := db.sessions[session].(code := Some(code), status := Authorized);
    forall k | k in db.sessions && k != session ensures SessionOk(WithSession(db, session, row), k) {
      OtherRowOk(db, session, row, k);
    }
    SessionReplaced(db, session, row);
  }

  lemma OnlySessionsChange(db: Db, after: Db)
    requires Inv(db) && after == db.(sessions := after.sessions)
    ensures GrantsOk(after) && ConnectorsOk(after) && TokensOk(after)
  {
    hide SessionsOk;
    forall g | g in after.grants ensures GrantOk(after, g) { assert GrantOk(db, g); }
    forall id | id in after.connectors && after.connectors[id].status.Active? ensures Granting(after, id) {
      assert Granting(db, id);
    }
    forall t | t in after.tokens ensures TokenOk(after, t) { assert TokenOk(db, t); }
  }

  lemma GrantedReady(db: Db, session: string, code: string, grant: string, now: int)
    requires Inv(db) && Activable(db, session, now) && grant !in db.grants
    requires !exists h | h in db.sessions :: db.sessions[h].code == Some(code)
    ensures ReadyToAuthorize(Granted(db, session, grant), session, grant, code)
  {
    PendingIsFree(db, db.sessions[session].connector.value);
    forall t | t in db.tokens ensures db.tokens[t].grant != grant { assert TokenOk(db, t); }
    hide Inv;
  }

  lemma RevokedReady(db: Db, session: string, code: string, grant: string, c: string)
    requires ReadyToAuthorize(db, session, grant, code)
    ensures ReadyToAuthorize(Revoke(db, c), session, grant, code)
  {}

  lemma ActivateKeeps(db: Db, session: string, consent: bool, code: string, grant: string, now: int)
    requires Inv(db)
    ensures Inv(ActivateTx(db, session, consent, code, grant, now).0)
  {
    hide Inv, Granted, Revoke, ReadyToAuthorize;
    if ActivateTx(db, session, consent, code, grant, now).1.Ok? {
      var granted := Granted(db, session, grant);
      GrantedKeepsGrants(db, session, grant, now);
      GrantedKeepsConnectors(db, session, grant, now);
      GrantedKeepsTokens(db, session, grant, now);
      GrantedKeepsSessions(db, session, grant, now);
      Assemble(granted);
      GrantedReady(db, session, code, grant, now);
      var s := db.sessions[session];
      GrantedKeepsSession(db, session, grant);
      if s.superseded.Some? {
        RevokeKeeps(granted, s.superseded.value);
        RevokeSessionsSame(granted, s.superseded.value);
        RevokedReady(granted, session, code, grant, s.superseded.value);
        AuthorizedKeeps(Revoke(granted, s.superseded.value), session, grant, code);
      } else {
        AuthorizedKeeps(granted, session, grant, code);
      }
    }
  }

  lemma GrantedKeepsSession(db: Db, session: string, grant: string)
    requires session in db.sessions && db.sessions[session].connector.Some?
    requires db.sessions[session].connector.value in db.connectors
    ensures Granted(db, session, grant).sessions == db.sessions
  {}

  lemma RevokeSessionsSame(db: Db, c: string)
    ensures Revoke(db, c).sessions == db.sessions
  {}

  // ---------- Tokens ----------

  /** A code is answered from one session and one grant. */
  lemma CodeMatchUnique(db: Db, client: string, code: string, h: string, g: string, h': string, g': string)
    requires Inv(db) && CodeMatch(db, client, code, h, g) && CodeMatch(db, client, code, h', g')
    ensures h == h' && g == g'
  {
    hide TokensOk, ConnectorsOk;
  }

  /** The grant of an authorized session, without a single token yet. */
  lemma MatchedGrantBare(db: Db, client: string, code: string, h: string, g: string)
    requires Inv(db) && CodeMatch(db, client, code, h, g)
    ensures GrantFor(db, db.sessions[h], g)
    ensures forall t | t in db.tokens :: db.tokens[t].grant != g
  {
    assert SessionOk(db, h);
    var k :| GrantFor(db, db.sessions[h], k);
    assert k == g;
  }

  function Consume(db: Db, h: string): Db
    requires h in db.sessions
  {
    WithSession(db, h, db.sessions[h].(status := Consumed))
  }

  lemma ConsumeKeepsRow(db: Db, h: string)
    requires Inv(db) && h in db.sessions && db.sessions[h].status.Authorized?
    ensures SessionOk(Consume(db, h), h)
  {
    assert SessionOk(db, h);
    hide GrantsOk, ConnectorsOk, TokensOk, SessionsOk;
    forall g ensures GrantFor(Consume(db, h), Consume(db, h).sessions[h], g) <==> GrantFor(db, db.sessions[h], g) {}
  }

  lemma ConsumeKeeps(db: Db, h: string)
    requires Inv(db) && h in db.sessions && db.sessions[h].status.Authorized?
    ensures Inv(Consume(db, h))
  {
    var row := db.sessions[h].(status := Consumed);
    forall k | k in db.sessions && k != h && !db.sessions[k].status.Waiting?
      ensures db.sessions[k].connector != row.connector
    {
      OneSessionPerConnector(db, h, k);
    }
    CodesDiffer(db, h);
    hide Inv, SessionOk;
    ConsumeKeepsRow(db, h);
    forall k | k in db.sessions && k != h ensures SessionOk(WithSession(db, h, row), k) { OtherRowOk(db, h, row, k); }
    SessionReplaced(db, h, row);
  }

  lemma CodesDiffer(db: Db, h: string)
    requires Inv(db) && h in db.sessions
    ensures db.sessions[h].code.Some? ==>
      forall k | k in db.sessions && k != h :: db.sessions[k].code != db.sessions[h].code
  {
    hide GrantsOk, TokensOk, ConnectorsOk, SessionOk;
  }

  lemma OnlyTokensChange(db: Db, after: Db)
    requires Inv(db) && after == db.(tokens := after.tokens)
    ensures GrantsOk(after) && ConnectorsOk(after)
  {
    hide SessionsOk, TokensOk;
    forall g | g in after.grants ensures GrantOk(after, g) { assert GrantOk(db, g); }
    forall id | id in after.connectors && after.connectors[id].status.Active? ensures Granting(after, id) {
      assert Granting(db, id);
    }
  }

  lemma PairKeepsTokens(db: Db, grant: string, scopes: set<string>, access: string, refresh: string, now: int)
    requires TokensOk(db) && ScopesAllowed(db, grant, scopes) && db.grants[grant].active
    requires FreshPair(db, access, refresh)
    requires forall t | t in db.tokens && db.tokens[t].grant == grant :: !db.tokens[t].Live()
    ensures TokensOk(WithPair(db, grant, scopes, access, refresh, now))
  {
    var after := WithPair(db, grant, scopes, access, refresh, now);
    forall t | t in after.tokens ensures TokenOk(after, t) {
      if t in db.tokens { assert TokenOk(db, t); }
    }
  }

  lemma PairKeepsSessions(db: Db, grant: string, scopes: set<string>, access: string, refresh: string, now: int)
    requires SessionsOk(db) && ScopesAllowed(db, grant, scopes)
    requires forall h | h in db.sessions && db.sessions[h].status.Authorized? :: !GrantFor(db, db.sessions[h], grant)
    ensures SessionsOk(WithPair(db, grant, scopes, access, refresh, now))
  {
    var after := WithPair(db, grant, scopes, access, refresh, now);
    forall h | h in after.sessions ensures SessionOk(after, h) {
      assert SessionOk(db, h);
      forall g ensures GrantFor(after, after.sessions[h], g) <==> GrantFor(db, db.sessions[h], g) {}
    }
  }

  /** A pair of tokens for an active grant that has no live token and no authorized session. */
  lemma PairKeeps(db: Db, grant: string, scopes: set<string>, access: string, refresh: string, now: int)
    requires Inv(db) && ScopesAllowed(db, grant, scopes) && db.grants[grant].active
    requires FreshPair(db, access, refresh)
    requires forall t | t in db.tokens && db.tokens[t].grant == grant :: !db.tokens[t].Live()
    requires forall h | h in db.sessions && db.sessions[h].status.Authorized? :: !GrantFor(db, db.sessions[h], grant)
    ensures Inv(WithPair(db, grant, scopes, access, refresh, now))
  {
    var after := WithPair(db, grant, scopes, access, refresh, now);
    OnlyTokensChange(db, after);
    hide TokensOk, SessionsOk, GrantsOk, ConnectorsOk;
    PairKeepsTokens(db, grant, scopes, access, refresh, now);
    PairKeepsSessions(db, grant, scopes, access, refresh, now);
  }

  lemma CodeSpent(db: Db, client: string, code: string, h: string, g: string)
    requires Inv(db) && CodeMatch(db, client, code, h, g)
    ensures var spent := Consume(db, h);
      && Inv(spent) && spent.tokens == db.tokens && spent.grants == db.grants
      && (forall t | t in db.tokens :: db.tokens[t].grant != g)
      && (forall k | k in spent.sessions && spent.sessions[k].status.Authorized? ::
            !GrantFor(spent, spent.sessions[k], g))
  {
    MatchedGrantBare(db, client, code, h, g);
    ConsumeKeeps(db, h);
    forall k | k in db.sessions && k != h && db.sessions[k].status.Authorized?
      ensures db.sessions[k].connector != db.sessions[h].connector
    {
      OneSessionPerConnector(db, h, k);
    }
    hide Inv;
  }

  lemma ExchangeCodeKeeps(db: Db, client: string, code: string, scopes: set<string>, access: string,
                          refresh: string, now: int)
    requires Inv(db)
    ensures Inv(ExchangeCodeTx(db, client, code, scopes, access, refresh, now).0)
  {
    hide Inv;
    if ExchangeCodeTx(db, client, code, scopes, access, refresh, now).1.Ok? {
      var h, g :| CodeMatch(db, client, code, h, g)
        && ExchangeCodeTx(db, client, code, scopes, access, refresh, now).0
           == WithPair(Consume(db, h), g, scopes, access, refresh, now)
        && ScopesAllowed(db, g, scopes);
      CodeSpent(db, client, code, h, g);
      assert Consume(db, h).grants == db.grants;
      assert ScopesAllowed(db, g, scopes);
      assert forall x | x in scopes :: x in db.grants[g].scopes;
      assert ScopesAllowed(Consume(db, h), g, scopes);
      PairKeeps(Consume(db, h), g, scopes, access, refresh, now);
    }
  }

  lemma OneSessionPerConnector(db: Db, h: string, k: string)
    requires Inv(db) && h in db.sessions && k in db.sessions
    requires !db.sessions[h].status.Waiting? && !db.sessions[k].status.Waiting?
    ensures db.sessions[h].connector == db.sessions[k].connector ==> h == k
  {
    hide GrantsOk, TokensOk, ConnectorsOk;
  }

  lemma SpentKeepsTokens(db: Db, token: string)
    requires TokensOk(db) && token in db.tokens && db.tokens[token].kind.Refresh? && db.tokens[token].Live()
    ensures TokensOk(Spent(db, token))
    ensures forall t | t in db.tokens && db.tokens[t].grant == db.tokens[token].grant ::
      !Spent(db, token).tokens[t].Live()
  {
    var after := Spent(db, token);
    forall t | t in after.tokens ensures TokenOk(after, t) { assert TokenOk(db, t); }
  }

  lemma SpentKeepsSessions(db: Db, token: string)
    requires SessionsOk(db) && token in db.tokens
    ensures SessionsOk(Spent(db, token))
  {
    var after := Spent(db, token);
    forall h | h in after.sessions ensures SessionOk(after, h) {
      assert SessionOk(db, h);
      forall g ensures GrantFor(after, after.sessions[h], g) <==> GrantFor(db, db.sessions[h], g) {}
    }
  }

  /** Once a refresh token is spent its grant has no live token, and no session waits for its first one. */
  lemma RefreshSpent(db: Db, token: string)
    requires Inv(db) && token in db.tokens && db.tokens[token].kind.Refresh? && db.tokens[token].Live()
    ensures var spent := Spent(db, token); var grant := db.tokens[token].grant;
      && Inv(spent) && ScopesAllowed(spent, grant, db.tokens[token].scopes)
      && (forall t | t in spent.tokens && spent.tokens[t].grant == grant :: !spent.tokens[t].Live())
      && (forall h | h in spent.sessions && spent.sessions[h].status.Authorized? ::
            !GrantFor(spent, spent.sessions[h], grant))
  {
    assert TokenOk(db, token);
    OnlyTokensChange(db, Spent(db, token));
    forall h | h in db.sessions && db.sessions[h].status.Authorized?
      ensures !GrantFor(db, db.sessions[h], db.tokens[token].grant)
    {
      assert SessionOk(db, h);
    }
    hide TokensOk, SessionsOk, GrantsOk, ConnectorsOk;
    SpentKeepsTokens(db, token);
    SpentKeepsSessions(db, token);
  }

  lemma RefreshKeeps(db: Db, client: string, token: string, held: set<string>, requested: set<string>,
                     access: string, refresh: string, now: int)
    requires Inv(db)
    ensures Inv(RefreshTx(db, client, token, held, requested, access, refresh, now).0)
  {
    hide Inv, ScopesAllowed;
    if RefreshTx(db, client, token, held, requested, access, refresh, now).1.Ok? {
      RefreshSpent(db, token);
      PairKeeps(Spent(db, token), db.tokens[token].grant, db.tokens[token].scopes, access, refresh, now);
    }
  }

  // ---------- Sessions and enrollment ----------

  /** A session row that only waits, for a known client. */
  lemma WaitingKeeps(db: Db, session: string, row: Session)
    requires Inv(db) && row.status.Waiting? && row.client in db.clients && row.scopes != {} && row.code.None?
    requires row.superseded.Some? ==>
      row.superseded.value in db.connectors
      && (db.connectors[row.superseded.value].status.Active? || db.connectors[row.superseded.value].status.Revoked?)
    ensures Inv(WithSession(db, session, row))
  {
    hide Inv, SessionOk;
    WaitingRowOk(WithSession(db, session, row), session);
    forall k | k in db.sessions && k != session ensures SessionOk(WithSession(db, session, row), k) {
      OtherRowOk(db, session, row, k);
    }
    SessionReplaced(db, session, row);
  }

  lemma WaitingRowOk(db: Db, h: string)
    requires h in db.sessions
    requires var row := db.sessions[h];
      && row.status.Waiting? && row.client in db.clients && row.scopes != {} && row.code.None?
      && (row.superseded.Some? ==>
            row.superseded.value in db.connectors
            && (db.connectors[row.superseded.value].status.Active?
                || db.connectors[row.superseded.value].status.Revoked?))
    ensures SessionOk(db, h)
  {}

  lemma SessionRowOk(db: Db, session: string)
    requires Inv(db) && session in db.sessions
    ensures SessionOk(db, session)
  {}

  lemma AuthorizeKeeps(db: Db, session: string, client: string, requested: set<string>, clientScopes: set<string>,
                       valid: set<string>, challenge: nat, resourceOk: bool, now: int)
    requires Inv(db)
    ensures Inv(AuthorizeTx(db, session, client, requested, clientScopes, valid, challenge, resourceOk, now).0)
  {
    hide Inv;
    if AuthorizeTx(db, session, client, requested, clientScopes, valid, challenge, resourceOk, now).1.Ok? {
      WaitingKeeps(db, session, Session(client, None, None, clientScopes, None, Waiting, now + AUTHORIZATION_TTL));
    }
  }

  lemma BindKeeps(db: Db, session: string, connector: string, now: int)
    requires Inv(db)
    ensures Inv(BindTx(db, session, connector, now).0)
  {
    if session in db.sessions {
      SessionRowOk(db, session);
      hide Inv;
      var s := db.sessions[session];
      if s.status.Waiting? { WaitingKeeps(db, session, s.(connector := Some(connector))); }
    }
  }

  lemma ReplaceKeeps(db: Db, session: string, connector: string, tenant: string, client: string, now: int)
    requires Inv(db)
    ensures Inv(ReplaceTx(db, session, connector, tenant, client, now).0)
  {
    if ReplaceTx(db, session, connector, tenant, client, now).1.Ok? {
      SessionRowOk(db, session);
      hide Inv;
      WaitingKeeps(db, session, db.sessions[session].(superseded := Some(connector)));
    }
  }

  lemma RegisterKeeps(db: Db, client: string)
    requires Inv(db)
    ensures Inv(RegisterTx(db, client).0)
  {
    var after := RegisterTx(db, client).0;
    RegisterKeepsSessions(db, client);
    RegisterKeepsTokens(db, client);
    hide SessionsOk, TokensOk;
    forall g | g in after.grants ensures GrantOk(after, g) { assert GrantOk(db, g); }
    forall id | id in after.connectors && after.connectors[id].status.Active? ensures Granting(after, id) {
      assert Granting(db, id);
    }
  }

  lemma RegisterKeepsTokens(db: Db, client: string)
    requires TokensOk(db)
    ensures TokensOk(RegisterTx(db, client).0)
  {
    var after := RegisterTx(db, client).0;
    forall t | t in after.tokens ensures TokenOk(after, t) { assert TokenOk(db, t); }
  }

  lemma RegisterKeepsSessions(db: Db, client: string)
    requires SessionsOk(db)
    ensures SessionsOk(RegisterTx(db, client).0)
  {
    var after := RegisterTx(db, client).0;
    forall h | h in after.sessions ensures SessionOk(after, h) {
      assert SessionOk(db, h);
      forall g ensures GrantFor(after, after.sessions[h], g) <==> GrantFor(db, db.sessions[h], g) {}
    }
  }

  /** Rows that no grant or replacement points to may change while they stay out of use. */
  predicate OnlyIdleRowsChange(db: Db, after: Db) {
    && after == db.(connectors := after.connectors)
    && (forall id | id in db.connectors && (db.connectors[id].status.Active? || db.connectors[id].status.Revoked?) ::
          id in after.connectors && after.connectors[id] == db.connectors[id])
    && (forall id | id in after.connectors && after.connectors[id].status.Active? ::
          id in db.connectors && db.connectors[id].status.Active?)
  }

  lemma IdleRowsKeep(db: Db, after: Db)
    requires Inv(db) && OnlyIdleRowsChange(db, after)
    requires forall id | id in after.connectors :: ConnectorOk(after.connectors[id])
    requires forall a, b | a in after.connectors && b in after.connectors && a != b ::
      after.connectors[a].handle.Some? ==> after.connectors[a].handle != after.connectors[b].handle
    ensures Inv(after)
  {
    hide ConnectorOk;
    forall g | g in after.grants ensures GrantOk(after, g) { assert GrantOk(db, g); }
    forall id | id in after.connectors && after.connectors[id].status.Active? ensures Granting(after, id) {
      assert Granting(db, id);
    }
    forall t | t in after.tokens ensures TokenOk(after, t) { assert TokenOk(db, t); }
    IdleRowsKeepSessions(db, after);
  }

  lemma IdleRowsKeepSessions(db: Db, after: Db)
    requires Inv(db) && OnlyIdleRowsChange(db, after)
    ensures SessionsOk(after)
  {
    hide ConnectorsOk, GrantsOk, TokensOk;
    forall h | h in after.sessions ensures SessionOk(after, h) {
      assert SessionOk(db, h);
      forall g ensures GrantFor(after, after.sessions[h], g) <==> GrantFor(db, db.sessions[h], g) {}
    }
  }

  lemma PrepareKeeps(db: Db, id: string, handle: string, profile: string, discovered: seq<int>, now: int)
    requires Inv(db)
    ensures Inv(PrepareTx(db, id, handle, profile, discovered, now).0)
  {
    var after := PrepareTx(db, id, handle, profile, discovered, now).0;
    if after != db {
      assert forall e | e in db.connectors :: !HandleTaken(db, handle, e);
      hide GrantsOk, TokensOk, SessionsOk, Committed;
      IdleRowsKeep(db, after);
    }
  }

  lemma CommitKeeps(db: Db, pick: string, handle: string, chosen: seq<int>, default: int, now: int)
    requires Inv(db)
    ensures Inv(CommitTx(db, pick, handle, chosen, default, now).0)
  {
    var after := CommitTx(db, pick, handle, chosen, default, now).0;
    if after != db {
      CommitKeepsRow(db, pick, handle, chosen, default, now);
      hide GrantsOk, TokensOk, SessionsOk, ConnectorOk, Selection, Distinct;
      IdleRowsKeep(db, after);
    }
  }

  lemma CommitKeepsRow(db: Db, pick: string, handle: string, chosen: seq<int>, default: int, now: int)
    requires ConnectorsOk(db)
    ensures var after := CommitTx(db, pick, handle, chosen, default, now).0;
      forall id | id in after.connectors :: ConnectorOk(after.connectors[id])
  {
    hide Distinct;
    var after := CommitTx(db, pick, handle, chosen, default, now).0;
    forall id | id in after.connectors ensures ConnectorOk(after.connectors[id]) {
      assert ConnectorOk(db.connectors[id]);
    }
  }

  lemma ExpireKeeps(db: Db, now: int)
    requires Inv(db)
    ensures Inv(ExpireTx(db, now).0)
  {
    hide GrantsOk, TokensOk, SessionsOk, Committed;
    IdleRowsKeep(db, ExpireTx(db, now).0);
  }

  lemma DiscardKeeps(db: Db, tenant: string, id: string)
    requires Inv(db)
    ensures Inv(DiscardTx(db, tenant, id).0)
  {
    hide GrantsOk, TokensOk, SessionsOk, Committed;
    if DiscardTx(db, tenant, id).0 != db {
      IdleRowsKeep(db, DiscardTx(db, tenant, id).0);
    }
  }
}
