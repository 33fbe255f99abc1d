/**
 The authority methods statement by statement, in the source's order. Each statement is checked
 against its triggers in the intermediate state where it runs: `assert ... .Some?` is the proof that
 it does not abort. A transaction works on a copy of the tables and stores it when it commits.
 */
module AuthorityStore {
  import opened Wrappers
  import opened AuthorityTables
  import opened Authority
  import opened AuthoritySteps

  const BOTH: set<TokenKind> := {Access, TokenKind.Refresh}

  lemma RevokeTokensTwice(db: Db, a: set<string>, b: set<string>)
    ensures RevokeTokens(RevokeTokens(db, a, BOTH), b, BOTH) == RevokeTokens(db, a + b, BOTH)
  {
    var once, both := RevokeTokens(RevokeTokens(db, a, BOTH), b, BOTH), RevokeTokens(db, a + b, BOTH);
    assert once.tokens == both.tokens;
  }

  lemma RevokeTokensOfNone(db: Db)
    ensures RevokeTokens(db, {}, BOTH) == db
  {
    assert RevokeTokens(db, {}, BOTH).tokens == db.tokens;
  }

  /** One UPDATE per revoked grant. */
  method RevokeTokensOfEach(db: Db, grantIds: set<string>) returns (after: Db)
    ensures after == RevokeTokens(db, grantIds, BOTH)
  {
    hide RevokeTokens;
    after := db;
    var rest, ended := grantIds, {};
    RevokeTokensOfNone(db);
    while rest != {}
      invariant ended + rest == grantIds && after == RevokeTokens(db, ended, BOTH)
      decreases |rest|
    {
      var g :| g in rest;
      RevokeTokensTwice(db, ended, {g});
      after := RevokeTokens(after, {g}, BOTH);
      rest, ended := rest - {g}, ended + {g};
    }
  }

  /** A live connector may always be revoked, whatever the grants. */
  lemma ConnectorRevocable(db: Db, id: string)
    requires Inv(db) && id in db.connectors
    requires db.connectors[id].status.Pending? || db.connectors[id].status.Active?
    ensures ConnectorUpdateAllowed(db, id, db.connectors[id], db.connectors[id].(status := Revoked))
  {
    hide GrantsOk, TokensOk, SessionsOk;
    assert ConnectorOk(db.connectors[id]);
  }

  /** Once the connector is revoked its grants may be: none of them has an active connector left. */
  lemma GrantsRevocable(db: Db, id: string, after: Db)
    requires Inv(db) && after.grants == db.grants && after.connectors == Revoke(db, id).connectors
    ensures forall g | g in LiveGrantsOf(db, id) ::
      db.grants[g].active && !ActiveConnectorAt(after, db.grants[g].connector, db.grants[g].tenant)
  {
    hide TokensOk, SessionsOk;
    forall g | g in LiveGrantsOf(db, id)
      ensures !ActiveConnectorAt(after, db.grants[g].connector, db.grants[g].tenant)
    {
      assert GrantOk(db, g);
    }
  }

  /** Key rotation updates a row without touching these columns; its triggers pass on every stored row. */
  lemma RotationUpdateAllowed(db: Db, id: string)
    requires Inv(db) && id in db.connectors
    ensures UpdateConnectors(db, map[id := db.connectors[id]]) == Some(db)
  {
    hide GrantsOk, TokensOk, SessionsOk;
    assert ConnectorOk(db.connectors[id]);
    assert db.connectors + map[id := db.connectors[id]] == db.connectors;
  }

  lemma RevokedWhole(db: Db, id: string, after: Db)
    requires after.sessions == db.sessions && after.clients == db.clients
    requires after.connectors == Revoke(db, id).connectors && after.grants == Revoke(db, id).grants
    requires after.tokens == RevokeTokens(db, LiveGrantsOf(db, id), BOTH).tokens
    ensures after == Revoke(db, id)
  {
    forall t | t in db.tokens ensures db.tokens[t].kind in BOTH {
      assert db.tokens[t].kind.Access? || db.tokens[t].kind.Refresh?;
    }
    assert after.tokens == Revoke(db, id).tokens;
  }

  /** The statements of a revocation: connector first, then its grants, then each grant's tokens. */
  method RevokeInTransaction(db: Db, connector: string) returns (after: Db)
    requires Inv(db)
    ensures after == Revoke(db, connector)
  {
    hide Inv, ConnectorUpdateAllowed, ActiveConnectorAt;
    var grantIds := LiveGrantsOf(db, connector);
    after := db;
    if connector in db.connectors
       && (db.connectors[connector].status.Pending? || db.connectors[connector].status.Active?) {
      ConnectorRevocable(db, connector);
      var updated := UpdateConnectors(after, map[connector := db.connectors[connector].(status := Revoked)]);
      assert updated.Some?;
      after := updated.value;
    }
    assert after.connectors == Revoke(db, connector).connectors;
    GrantsRevocable(db, connector, after);
    var revoked := RevokeGrants(after, grantIds);
    assert revoked.Some?;
    after := RevokeTokensOfEach(revoked.value, grantIds);
    RevokedWhole(db, connector, after);
  }

  /** The grant row first, so that the activation trigger finds it. */
  method GrantInTransaction(db: Db, session: string, grant: string, now: int) returns (after: Db)
    requires Inv(db) && Activable(db, session, now) && grant !in db.grants
    requires db.sessions[session].client in db.clients
    ensures after == Granted(db, session, grant)
  {
    var s := db.sessions[session];
    var id := s.connector.value;
    var c := db.connectors[id];
    ActivationAllowed(db, session, grant, now);
    hide Inv, UpdateConnectors, Granted;
    var inserted := InsertGrant(db, grant, Grant(id, c.tenant, s.client, s.scopes, true));
    assert inserted.Some?;
    var activated := UpdateConnectors(inserted.value, map[id := c.(status := Active, handle := None)]);
    assert activated.Some?;
    after := activated.value;
  }

  /** One INSERT for each token of a pair. */
  method InsertPair(db: Db, grant: string, scopes: set<string>, access: string, refresh: string, now: int)
    returns (after: Db)
    requires ScopesAllowed(db, grant, scopes) && FreshPair(db, access, refresh)
    ensures after == WithPair(db, grant, scopes, access, refresh, now)
  {
    var first := InsertToken(db, access, Token(grant, Access, scopes, now + ACCESS_TOKEN_TTL, false, false));
    assert first.Some?;
    var second := InsertToken(first.value, refresh,
                              Token(grant, TokenKind.Refresh, scopes, now + REFRESH_TOKEN_TTL, false, false));
    assert second.Some?;
    after := second.value;
  }

  lemma RefreshScopes(db: Db, token: string)
    requires Inv(db) && token in db.tokens
    ensures ScopesAllowed(db, db.tokens[token].grant, db.tokens[token].scopes)
  {
    hide GrantsOk, ConnectorsOk, SessionsOk;
    assert TokenOk(db, token);
  }

  /** The two updates of a rotation add up to its specification. */
  lemma SpentInTwo(db: Db, token: string, ended: Db)
    requires token in db.tokens && db.tokens[token].kind.Refresh?
    requires ended == RevokeTokens(db.(tokens := db.tokens[token := db.tokens[token].(rotated := true)]),
                                   {db.tokens[token].grant}, {Access})
    ensures ended == Spent(db, token) == db.(tokens := ended.tokens) && ended.tokens.Keys == db.tokens.Keys
  {
    assert ended.tokens == Spent(db, token).tokens;
  }

  lemma SelectionStorable(db: Db, id: string, row: Connector)
    requires id in db.connectors && row.status == db.connectors[id].status && row.status.Pending?
    requires row.default.Some? && row.default.value > 0
    ensures UpdateConnectors(db, map[id := row]) == Some(db.(connectors := db.connectors[id := row]))
  {
    assert ConnectorUpdateAllowed(db, id, db.connectors[id], row);
    assert db.connectors + map[id := row] == db.connectors[id := row];
  }

  lemma HandlesUnique(db: Db, handle: string)
    requires Inv(db)
    ensures forall d, e :: HandleTaken(db, handle, d) && HandleTaken(db, handle, e) ==> d == e
  {
    hide GrantsOk, TokensOk, SessionsOk;
  }

  /** The rows an expiry pass updates, as it leaves them. */
  function Due(connectors: map<string, Connector>, now: int): map<string, Connector> {
    map id | id in connectors && connectors[id].status.Pending? && connectors[id].expires <= now ::
      connectors[id].(status := Expired, handle := None)
  }

  lemma DueExpired(db: Db, now: int)
    requires Inv(db)
    ensures UpdateConnectors(db, Due(db.connectors, now)) == Some(ExpireTx(db, now).0)
  {
    hide GrantsOk, TokensOk, SessionsOk;
    var due := Due(db.connectors, now);
    forall id | id in due ensures ConnectorUpdateAllowed(db, id, db.connectors[id], due[id]) {
      assert ConnectorOk(db.connectors[id]);
    }
    assert db.connectors + due == ExpireTx(db, now).0.connectors;
  }

  class AuthorityStore {
    var clients: set<string>
    var sessions: map<string, Session>
    var grants: map<string, Grant>
    var tokens: map<string, Token>
    var connectors: map<string, Connector>

    function Tables(): Db
      reads this
    {
      Db(clients, sessions, grants, tokens, connectors)
    }

    constructor ()
      ensures Tables() == EMPTY && Inv(Tables())
    {
      clients, sessions, grants, tokens, connectors := {}, map[], map[], map[], map[];
    }

    method Commit(db: Db)
      modifies this
      ensures Tables() == db
    {
      clients, sessions, grants, tokens, connectors := db.clients, db.sessions, db.grants, db.tokens, db.connectors;
    }

    method RegisterClient(client: string) returns (r: Result<Answer, Refusal>)
      requires Inv(Tables())
      modifies this
      ensures (Tables(), r) == RegisterTx(old(Tables()), client) && Inv(Tables())
    {
      RegisterKeeps(Tables(), client);
      hide Inv;
      if client in clients {
        return Err(KeyViolation);
      }
      clients := clients + {client};
      r := Ok(Unit);
    }

    method Authorize(session: string, client: string, requested: set<string>, clientScopes: set<string>,
                     valid: set<string>, challenge: nat, resourceOk: bool, now: int)
      returns (r: Result<Answer, Refusal>)
      requires Inv(Tables())
      modifies this
      ensures (Tables(), r)
           == AuthorizeTx(old(Tables()), session, client, requested, clientScopes, valid, challenge, resourceOk, now)
      ensures Inv(Tables())
    {
      AuthorizeKeeps(Tables(), session, client, requested, clientScopes, valid, challenge, resourceOk, now);
      hide Inv;
      if !resourceOk || requested == {} || !(requested <= clientScopes) || !(clientScopes <= valid)
         || challenge < 43 {
        return Err(Invalid);
      }
      if session in sessions || client !in clients {
        return Err(KeyViolation);
      }
      sessions := sessions[session :=
        Session(client, None, None, clientScopes, None, Waiting, now + AUTHORIZATION_TTL)];
      r := Ok(Unit);
    }

    method PrepareEnrollment(id: string, handle: string, profile: string, discovered: seq<int>, now: int)
      returns (r: Result<Answer, Refusal>)
      requires Inv(Tables())
      modifies this
      ensures (Tables(), r) == PrepareTx(old(Tables()), id, handle, profile, discovered, now) && Inv(Tables())
    {
      PrepareKeeps(Tables(), id, handle, profile, discovered, now);
      HandlesUnique(Tables(), handle);
      hide Inv, Discovery;
      if |handle| < 22 || !Discovery(discovered) {
        return Err(Invalid);
      }
      if e :| e in connectors && connectors[e].handle == Some(handle) {
        assert HandleTaken(Tables(), handle, e);
        var row := connectors[e];
        if row.status.Pending? && row.expires > now && row.profile == profile && row.discovered == discovered {
          return Ok(Prepared(e));
        }
        return Err(Invalid);
      }
      var row := Connector("connector:" + id, profile, discovered, None, None, Pending, Some(handle), None,
                           now + SESSION_TTL);
      if id in connectors {
        return Err(KeyViolation);
      }
      var inserted := InsertConnector(Tables(), id, row);
      assert inserted.Some?;
      Commit(inserted.value);
      r := Ok(Prepared(id));
    }

    method BindConnector(session: string, connector: string, now: int) returns (r: Result<Answer, Refusal>)
      requires Inv(Tables())
      modifies this
      ensures (Tables(), r) == BindTx(old(Tables()), session, connector, now) && Inv(Tables())
    {
      BindKeeps(Tables(), session, connector, now);
      hide Inv;
      if session in sessions && sessions[session].status.Waiting? && sessions[session].connector.None?
         && sessions[session].expires > now {
        var updated := UpdateSession(Tables(), session, sessions[session].(connector := Some(connector)));
        assert updated.Some?;
        Commit(updated.value);
        return Ok(Unit);
      }
      if session !in sessions || sessions[session].connector != Some(connector) {
        return Err(Invalid);
      }
      r := Ok(Unit);
    }

    method AuthorizeReplacement(session: string, connector: string, tenant: string, client: string, now: int)
      returns (r: Result<Answer, Refusal>)
      requires Inv(Tables())
      modifies this
      ensures (Tables(), r) == ReplaceTx(old(Tables()), session, connector, tenant, client, now) && Inv(Tables())
    {
      ReplaceKeeps(Tables(), session, connector, tenant, client, now);
      hide Inv, ActiveAuthority;
      if !ActiveAuthority(Tables(), connector, tenant, client) {
        return Err(Invalid);
      }
      if session !in sessions || sessions[session].client != client || !sessions[session].status.Waiting?
         || sessions[session].expires <= now {
        return Err(Invalid);
      }
      var updated := UpdateSession(Tables(), session, sessions[session].(superseded := Some(connector)));
      assert updated.Some?;
      Commit(updated.value);
      r := Ok(Unit);
    }

    /** Grant, then connector, then whatever is superseded, then the session with its code. */
    method ActivateConnector(session: string, consent: bool, code: string, grant: string, now: int)
      returns (r: Result<Answer, Refusal>)
      requires Inv(Tables())
      modifies this
      ensures (Tables(), r) == ActivateTx(old(Tables()), session, consent, code, grant, now) && Inv(Tables())
    {
      hide Inv, Granted, Revoke;
      ActivateKeeps(Tables(), session, consent, code, grant, now);
      var db := Tables();
      if !consent || !Activable(db, session, now) {
        return Err(Invalid);
      }
      var s := db.sessions[session];
      if grant in db.grants || s.client !in db.clients {
        return Err(KeyViolation);
      }
      var granted := GrantInTransaction(db, session, grant, now);
      var after := granted;
      GrantedKeepsSession(db, session, grant);
      hide Activable;
      if s.superseded.Some? {
        GrantedInv(db, session, grant, now);
        after := RevokeInTransaction(granted, s.superseded.value);
        RevokeSessionsSame(granted, s.superseded.value);
      }
      if h :| h in db.sessions && db.sessions[h].code == Some(code) {
        return Err(KeyViolation);
      }
      var updated := UpdateSession(after, session, s.(code := Some(code), status := Authorized));
      assert updated.Some?;
      Commit(updated.value);
      r := Ok(Code(code));
    }

    method RevokeConnector(connector: string, tenant: string, client: string) returns (r: Result<Answer, Refusal>)
      requires Inv(Tables())
      modifies this
      ensures (Tables(), r) == RevokeTx(old(Tables()), connector, tenant, client) && Inv(Tables())
    {
      RevokeKeeps(Tables(), connector);
      hide Inv, Revoke;
      if g :| g in grants && grants[g].connector == connector && grants[g].tenant == tenant
              && grants[g].client == client {
        var after := RevokeInTransaction(Tables(), connector);
        Commit(after);
        return Ok(Unit);
      }
      r := Err(Invalid);
    }

    method RevokeToken(token: string) returns (r: Result<Answer, Refusal>)
      requires Inv(Tables())
      modifies this
      ensures (Tables(), r) == RevokeTokenTx(old(Tables()), token) && Inv(Tables())
    {
      if token !in tokens || tokens[token].grant !in grants {
        return Ok(Unit);
      }
      var connector := grants[tokens[token].grant].connector;
      RevokeKeeps(Tables(), connector);
      hide Inv, Revoke;
      var after := RevokeInTransaction(Tables(), connector);
      Commit(after);
      r := Ok(Unit);
    }

    method ExchangeAuthorizationCode(client: string, code: string, scopes: set<string>, access: string,
                                     refresh: string, now: int) returns (r: Result<Answer, Refusal>)
      requires Inv(Tables())
      modifies this
      ensures (Tables(), r) == ExchangeCodeTx(old(Tables()), client, code, scopes, access, refresh, now)
      ensures Inv(Tables())
    {
      ExchangeCodeKeeps(Tables(), client, code, scopes, access, refresh, now);
      var db := Tables();
      if h, g :| h in db.sessions && g in db.grants && CodeMatch(db, client, code, h, g) {
        forall h', g' | CodeMatch(db, client, code, h', g') ensures h' == h && g' == g {
          CodeMatchUnique(db, client, code, h, g, h', g');
        }
        hide Inv;
        var consumed := UpdateSession(db, h, db.sessions[h].(status := Consumed));
        assert consumed.Some?;
        if !ScopesAllowed(consumed.value, g, scopes) {
          assert !ScopesAllowed(db, g, scopes);
          return Err(TriggerAbort);
        }
        assert ScopesAllowed(db, g, scopes);
        if access in db.tokens || refresh in db.tokens || access == refresh {
          return Err(KeyViolation);
        }
        var after := InsertPair(consumed.value, g, scopes, access, refresh, now);
        Commit(after);
        return Ok(Issued(g));
      }
      r := Err(Invalid);
    }

    method ExchangeRefreshToken(client: string, token: string, held: set<string>, requested: set<string>,
                                access: string, refresh: string, now: int) returns (r: Result<Answer, Refusal>)
      requires Inv(Tables())
      modifies this
      ensures (Tables(), r) == RefreshTx(old(Tables()), client, token, held, requested, access, refresh, now)
      ensures Inv(Tables())
    {
      RefreshKeeps(Tables(), client, token, held, requested, access, refresh, now);
      var wanted := if requested == {} then held else requested;
      if !(wanted <= held) {
        return Err(Invalid);
      }
      var db := Tables();
      if !TokenUsable(db, token, TokenKind.Refresh, Some(client), now) {
        return Err(Invalid);
      }
      var row := db.tokens[token];
      if !(wanted <= row.scopes) {
        return Err(Invalid);
      }
      RefreshScopes(db, token);
      hide Inv, TokenUsable;
      var rotated := db.(tokens := db.tokens[token := row.(rotated := true)]);
      var ended := RevokeTokens(rotated, {row.grant}, {Access});
      SpentInTwo(db, token, ended);
      hide RevokeTokens, Spent, WithPair;
      if access in ended.tokens || refresh in ended.tokens || access == refresh {
        return Err(KeyViolation);
      }
      var after := InsertPair(ended, row.grant, row.scopes, access, refresh, now);
      Commit(after);
      r := Ok(Issued(row.grant));
    }

    method CommitEnrollment(pick: string, handle: string, chosen: seq<int>, default: int, now: int)
      returns (r: Result<Answer, Refusal>)
      requires Inv(Tables())
      modifies this
      ensures (Tables(), r) == CommitTx(old(Tables()), pick, handle, chosen, default, now) && Inv(Tables())
    {
      CommitKeeps(Tables(), pick, handle, chosen, default, now);
      hide Inv, Distinct, UpdateConnectors, ConnectorUpdateAllowed;
      var selected := Distinct(chosen);
      if !Selection(selected, default) {
        return Err(Invalid);
      }
      if pick !in connectors || !Enrolled(connectors[pick], handle) || !connectors[pick].status.Pending?
         || connectors[pick].expires <= now {
        return Err(Invalid);
      }
      var c := connectors[pick];
      if !(forall x | x in selected :: x in c.discovered) {
        return Err(Invalid);
      }
      if c.consumed.Some? {
        if c.allowed != Some(selected) || c.default != Some(default) {
          return Err(Invalid);
        }
        return Ok(Unit);
      }
      if e :| e in connectors && connectors[e].consumed == Some(handle) {
        return Err(KeyViolation);
      }
      var row := c.(allowed := Some(selected), default := Some(default), handle := None, consumed := Some(handle));
      SelectionStorable(Tables(), pick, row);
      var updated := UpdateConnectors(Tables(), map[pick := row]);
      assert updated.Some?;
      Commit(updated.value);
      r := Ok(Unit);
    }

    method ExpirePending(now: int) returns (count: nat)
      requires Inv(Tables())
      modifies this
      ensures Tables() == ExpireTx(old(Tables()), now).0 && Inv(Tables())
      ensures count == |Due(old(connectors), now)|
    {
      ExpireKeeps(Tables(), now);
      var due := Due(connectors, now);
      DueExpired(Tables(), now);
      hide Inv, ExpireTx, UpdateConnectors;
      var updated := UpdateConnectors(Tables(), due);
      assert updated.Some?;
      count := |due|;
      Commit(updated.value);
    }

    method DiscardPending(tenant: string, id: string)
      requires Inv(Tables())
      modifies this
      ensures Tables() == DiscardTx(old(Tables()), tenant, id).0 && Inv(Tables())
    {
      DiscardKeeps(Tables(), tenant, id);
      if id in connectors && connectors[id].tenant == tenant && connectors[id].status.Pending?
         && !exists g | g in grants :: grants[g].tenant == tenant && grants[g].connector == id {
        PendingIsFree(Tables(), id);
        hide Inv;
        var deleted := DeleteConnector(Tables(), id);
        assert deleted.Some?;
        Commit(deleted.value);
      }
    }
  }

  lemma ActivationAllowed(db: Db, session: string, grant: string, now: int)
    requires Inv(db) && Activable(db, session, now) && grant !in db.grants
    ensures var s := db.sessions[session]; var id := s.connector.value; var c := db.connectors[id];
      UpdateConnectors(db.(grants := db.grants[grant := Grant(id, c.tenant, s.client, s.scopes, true)]),
                       map[id := c.(status := Active, handle := None)]) == Some(Granted(db, session, grant))
  {
    hide GrantsOk, TokensOk, SessionsOk;
    var s := db.sessions[session];
    var c := db.connectors[s.connector.value];
    assert ConnectorOk(c);
    var after := db.(grants := db.grants[grant := Grant(s.connector.value, c.tenant, s.client, s.scopes, true)]);
    assert after.grants[grant].active;
    assert db.connectors + map[s.connector.value := c.(status := Active, handle := None)]
        == Granted(db, session, grant).connectors;
  }

  lemma GrantedInv(db: Db, session: string, grant: string, now: int)
    requires Inv(db) && Activable(db, session, now) && grant !in db.grants
    requires db.sessions[session].client in db.clients
    ensures Inv(Granted(db, session, grant))
  {
    GrantedKeepsGrants(db, session, grant, now);
    GrantedKeepsConnectors(db, session, grant, now);
    GrantedKeepsTokens(db, session, grant, now);
    GrantedKeepsSessions(db, session, grant, now);
  }
}
