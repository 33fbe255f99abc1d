/** Authority over every sequence of transactions: what holds in each state, and what never happens twice. */
module AuthorityRuns {
  import opened Wrappers
  import opened AuthorityTables
  import opened Authority
  import opened AuthoritySteps

  datatype Op =
    | Register(client: string)
    | Authorize(session: string, client: string, requested: set<string>, clientScopes: set<string>,
                valid: set<string>, challenge: nat, resourceOk: bool, now: int)
    | Bind(session: string, connector: string, now: int)
    | Replace(session: string, connector: string, tenant: string, client: string, now: int)
    | Activate(session: string, consent: bool, code: string, grant: string, now: int)
    | RevokeConnector(connector: string, tenant: string, client: string)
    | RevokeToken(token: string)
    | ExchangeCode(client: string, code: string, scopes: set<string>, access: string, refresh: string, now: int)
    | ExchangeRefresh(client: string, token: string, held: set<string>, requested: set<string>,
                      access: string, refresh: string, now: int)
    | Prepare(id: string, handle: string, profile: string, discovered: seq<int>, now: int)
    | Commit(pick: string, handle: string, chosen: seq<int>, default: int, now: int)
    | Expire(now: int)
    | Discard(tenant: string, id: string)

  /** One write transaction; writers are serial, so a run is a sequence of these. */
  ghost function Apply(db: Db, op: Op): Outcome {
    match op
    case Register(client) => RegisterTx(db, client)
    case Authorize(h, client, requested, scopes, valid, n, ok, now) =>
      AuthorizeTx(db, h, client, requested, scopes, valid, n, ok, now)
    case Bind(h, c, now) => BindTx(db, h, c, now)
    case Replace(h, c, tenant, client, now) => ReplaceTx(db, h, c, tenant, client, now)
    case Activate(h, consent, code, g, now) => ActivateTx(db, h, consent, code, g, now)
    case RevokeConnector(c, tenant, client) => RevokeTx(db, c, tenant, client)
    case RevokeToken(t) => RevokeTokenTx(db, t)
    case ExchangeCode(client, code, scopes, a, r, now) => ExchangeCodeTx(db, client, code, scopes, a, r, now)
    case ExchangeRefresh(client, t, held, requested, a, r, now) =>
      RefreshTx(db, client, t, held, requested, a, r, now)
    case Prepare(id, handle, profile, found, now) => PrepareTx(db, id, handle, profile, found, now)
    case Commit(pick, handle, chosen, default, now) => CommitTx(db, pick, handle, chosen, default, now)
    case Expire(now) => ExpireTx(db, now)
    case Discard(tenant, id) => DiscardTx(db, tenant, id)
  }

  ghost function Exec(db: Db, ops: seq<Op>): Db
    decreases ops
  {
    if ops == [] then db else Exec(Apply(db, ops[0]).0, ops[1..])
  }

  lemma ExecOne(db: Db, ops: seq<Op>, i: nat) returns (next: Db)
    requires i < |ops|
    ensures next == Apply(db, ops[i]).0 && Exec(db, ops[i..]) == Exec(next, ops[i + 1..])
  {
    hide Apply;
    next := Apply(db, ops[i]).0;
    assert ops[i..][1..] == ops[i + 1..];
  }

  lemma ApplyKeeps(db: Db, op: Op)
    requires Inv(db)
    ensures Inv(Apply(db, op).0)
  {
    hide Inv, RegisterTx, AuthorizeTx, BindTx, ReplaceTx, ActivateTx, ExchangeCodeTx, RefreshTx, PrepareTx,
         CommitTx, ExpireTx, DiscardTx, Revoke;
    match op
    case Register(client) => RegisterKeeps(db, client);
    case Authorize(h, client, requested, scopes, valid, n, ok, now) =>
      AuthorizeKeeps(db, h, client, requested, scopes, valid, n, ok, now);
    case Bind(h, c, now) => BindKeeps(db, h, c, now);
    case Replace(h, c, tenant, client, now) => ReplaceKeeps(db, h, c, tenant, client, now);
    case Activate(h, consent, code, g, now) => ActivateKeeps(db, h, consent, code, g, now);
    case RevokeConnector(c, tenant, client) => RevokeKeeps(db, c);
    case RevokeToken(t) =>
      if t in db.tokens && db.tokens[t].grant in db.grants { RevokeKeeps(db, db.grants[db.tokens[t].grant].connector); }
    case ExchangeCode(client, code, scopes, a, r, now) => ExchangeCodeKeeps(db, client, code, scopes, a, r, now);
    case ExchangeRefresh(client, t, held, requested, a, r, now) =>
      RefreshKeeps(db, client, t, held, requested, a, r, now);
    case Prepare(id, handle, profile, found, now) => PrepareKeeps(db, id, handle, profile, found, now);
    case Commit(pick, handle, chosen, default, now) => CommitKeeps(db, pick, handle, chosen, default, now);
    case Expire(now) => ExpireKeeps(db, now);
    case Discard(tenant, id) => DiscardKeeps(db, tenant, id);
  }

  lemma {:induction false} ExecKeeps(db: Db, ops: seq<Op>)
    requires Inv(db)
    ensures Inv(Exec(db, ops))
    decreases ops
  {
    hide Inv, Apply;
    if ops != [] {
      ApplyKeeps(db, ops[0]);
      ExecKeeps(Apply(db, ops[0]).0, ops[1..]);
    }
  }

  lemma Reachable(ops: seq<Op>)
    ensures Inv(Exec(EMPTY, ops))
  {
    ExecKeeps(EMPTY, ops);
  }

  // ---------- In every state ----------

  /** The active grants of a connector, as the integrity check counts them. */
  function ActiveGrants(db: Db, id: string): set<string>
    requires id in db.connectors
  {
    set g | g in db.grants && db.grants[g].tenant == db.connectors[id].tenant
            && db.grants[g].connector == id && db.grants[g].active
  }

  /** A connector has at most one grant ever, and is active exactly while that grant is. */
  lemma ConnectorAndGrantAgree(ops: seq<Op>, id: string)
    requires id in Exec(EMPTY, ops).connectors
    ensures var db := Exec(EMPTY, ops); var row := db.connectors[id];
      && (forall g, h | g in db.grants && h in db.grants ::
            db.grants[g].connector == id && db.grants[h].connector == id ==> g == h)
      && |ActiveGrants(db, id)| == (if row.status.Active? then 1 else 0)
      && (row.status.Pending? ==> forall g | g in db.grants :: db.grants[g].connector != id)
  {
    Reachable(ops);
    var db := Exec(EMPTY, ops);
    hide TokensOk, SessionsOk;
    forall g | g in db.grants ensures GrantOk(db, g) {}
    if db.connectors[id].status.Active? {
      assert Granting(db, id);
      var g :| g in db.grants && db.grants[g].connector == id && db.grants[g].active;
      assert ActiveGrants(db, id) == {g};
    } else {
      assert ActiveGrants(db, id) == {};
    }
  }

  /** What the storage integrity check asks of a connector row. */
  predicate IntegrityCheck(db: Db, id: string)
    requires id in db.connectors
  {
    var c := db.connectors[id];
    && c.discovered != [] && (forall x | x in c.discovered :: x > 0)
    && (c.status.Active? ==>
          && c.allowed.Some? && c.allowed.value != [] && (forall x | x in c.allowed.value :: x in c.discovered)
          && c.default.Some? && c.default.value in c.allowed.value
          && |ActiveGrants(db, id)| >= 1 && c.consumed.Some?)
  }

  lemma IntegrityCheckPasses(ops: seq<Op>, id: string)
    requires id in Exec(EMPTY, ops).connectors
    ensures IntegrityCheck(Exec(EMPTY, ops), id)
  {
    Reachable(ops);
    ConnectorAndGrantAgree(ops, id);
    var db := Exec(EMPTY, ops);
    hide ActiveGrants, GrantsOk, TokensOk, SessionsOk;
    assert ConnectorOk(db.connectors[id]);
  }

  /** A revoked grant has only revoked tokens, and a token never exceeds its grant's scopes. */
  lemma RevokedGrantsHaveNoLiveTokens(ops: seq<Op>, t: string)
    requires t in Exec(EMPTY, ops).tokens
    ensures var db := Exec(EMPTY, ops); var row := db.tokens[t];
      && row.grant in db.grants && row.scopes != {} && row.scopes <= db.grants[row.grant].scopes
      && (!db.grants[row.grant].active ==> row.revoked)
  {
    Reachable(ops);
    assert TokenOk(Exec(EMPTY, ops), t);
  }

  /** Each grant has at most one live access token and at most one live refresh token. */
  lemma OneLiveTokenPerKind(ops: seq<Op>, t: string, u: string)
    requires var db := Exec(EMPTY, ops);
      && t in db.tokens && u in db.tokens && db.tokens[t].grant == db.tokens[u].grant
      && db.tokens[t].kind == db.tokens[u].kind && db.tokens[t].Live() && db.tokens[u].Live()
    ensures t == u
  {
    Reachable(ops);
    assert TokensOk(Exec(EMPTY, ops));
  }

  /** Only one session of a connector ever leaves the waiting state. */
  lemma OneSessionEverAuthorized(ops: seq<Op>, h: string, k: string)
    requires var db := Exec(EMPTY, ops);
      && h in db.sessions && k in db.sessions && !db.sessions[h].status.Waiting? && !db.sessions[k].status.Waiting?
      && db.sessions[h].connector == db.sessions[k].connector
    ensures h == k
  {
    Reachable(ops);
    OneSessionPerConnector(Exec(EMPTY, ops), h, k);
  }

  /** A resolved connection is complete: one grant, its own client's, and a selection within the discovery. */
  lemma ResolvedAuthorityComplete(ops: seq<Op>, id: string, tenant: string, client: string)
    requires ActiveAuthority(Exec(EMPTY, ops), id, tenant, client)
    ensures var db := Exec(EMPTY, ops); var c := db.connectors[id];
      && Committed(c)
      && forall g | g in db.grants && db.grants[g].connector == id ::
           db.grants[g].active && db.grants[g].client == client && db.grants[g].tenant == tenant
  {
    Reachable(ops);
    var db := Exec(EMPTY, ops);
    hide TokensOk, SessionsOk;
    assert ConnectorOk(db.connectors[id]);
    assert forall g | g in db.grants :: GrantOk(db, g);
  }

  /** Both tokens of the pair are live, of one grant of the client's, with one set of scopes. */
  predicate IssuedPair(db: Db, g: string, client: string, access: string, refresh: string, now: int) {
    && g in db.grants && db.grants[g].active && db.grants[g].client == client
    && access in db.tokens && refresh in db.tokens
    && var scopes := db.tokens[access].scopes;
    && db.tokens[access] == Token(g, Access, scopes, now + ACCESS_TOKEN_TTL, false, false)
    && db.tokens[refresh] == Token(g, TokenKind.Refresh, scopes, now + REFRESH_TOKEN_TTL, false, false)
  }

  lemma PairIssued(db: Db, g: string, scopes: set<string>, client: string, access: string, refresh: string, now: int)
    requires FreshPair(db, access, refresh) && g in db.grants && db.grants[g].active && db.grants[g].client == client
    ensures IssuedPair(WithPair(db, g, scopes, access, refresh, now), g, client, access, refresh, now)
  {
  }

  lemma CodePairIssued(db: Db, client: string, code: string, scopes: set<string>, access: string, refresh: string,
                       now: int)
    requires ExchangeCodeTx(db, client, code, scopes, access, refresh, now).1.Ok?
    ensures var (after, r) := ExchangeCodeTx(db, client, code, scopes, access, refresh, now);
      r.value.Issued? && IssuedPair(after, r.value.grant, client, access, refresh, now)
  {
    var h, g :| CodeMatch(db, client, code, h, g)
      && ExchangeCodeTx(db, client, code, scopes, access, refresh, now)
         == (WithPair(Consume(db, h), g, scopes, access, refresh, now), Ok(Issued(g)));
    hide ExchangeCodeTx, WithPair, IssuedPair;
    PairIssued(Consume(db, h), g, scopes, client, access, refresh, now);
  }

  lemma RefreshPairIssued(db: Db, client: string, token: string, held: set<string>, requested: set<string>,
                          access: string, refresh: string, now: int)
    requires RefreshTx(db, client, token, held, requested, access, refresh, now).1.Ok?
    ensures var (after, r) := RefreshTx(db, client, token, held, requested, access, refresh, now);
      r.value.Issued? && IssuedPair(after, r.value.grant, client, access, refresh, now)
  {
    var row := db.tokens[token];
    hide WithPair, IssuedPair;
    PairIssued(Spent(db, token), row.grant, row.scopes, client, access, refresh, now);
  }

  ghost predicate PairLives(db: Db, client: string, access: string, refresh: string, now: int, t: int) {
    && (TokenUsable(db, access, Access, Some(client), t) <==> t < now + ACCESS_TOKEN_TTL)
    && (TokenUsable(db, refresh, TokenKind.Refresh, Some(client), t) <==> t < now + REFRESH_TOKEN_TTL)
  }

  lemma IssuedLives(db: Db, g: string, client: string, access: string, refresh: string, now: int, t: int)
    requires Inv(db) && IssuedPair(db, g, client, access, refresh, now)
    ensures PairLives(db, client, access, refresh, now, t)
  {
    hide TokensOk, SessionsOk, ConnectorsOk;
    assert GrantOk(db, g);
  }

  /** What an exchange issued is usable by its client at once, and exactly until its own lifetime ends. */
  lemma IssuedPairLives(ops: seq<Op>, op: Op, t: int)
    requires op.ExchangeCode? || op.ExchangeRefresh?
    requires Apply(Exec(EMPTY, ops), op).1.Ok?
    ensures PairLives(Apply(Exec(EMPTY, ops), op).0, op.client, op.access, op.refresh, op.now, t)
  {
    var db := Exec(EMPTY, ops);
    var (after, r) := Apply(db, op);
    hide Inv, Exec, ExchangeCodeTx, RefreshTx, IssuedPair, PairLives;
    Reachable(ops);
    ApplyKeeps(db, op);
    if op.ExchangeCode? {
      CodePairIssued(db, op.client, op.code, op.scopes, op.access, op.refresh, op.now);
    } else {
      RefreshPairIssued(db, op.client, op.token, op.held, op.requested, op.access, op.refresh, op.now);
    }
    hide Apply;
    IssuedLives(after, r.value.grant, op.client, op.access, op.refresh, op.now, t);
  }

  // ---------- Never twice ----------

  /** A consumed session keeps its code and stays consumed. */
  ghost predicate CodeSpentFor(db: Db, h: string, code: string) {
    h in db.sessions && db.sessions[h].status.Consumed? && db.sessions[h].code == Some(code)
  }

  lemma SpentCodeStays(db: Db, op: Op, h: string, code: string)
    requires Inv(db) && CodeSpentFor(db, h, code)
    ensures CodeSpentFor(Apply(db, op).0, h, code)
  {
    hide GrantsOk, ConnectorsOk, TokensOk, SessionOk;
  }

  /** A spent code answers nothing: no other session can carry it. */
  lemma SpentCodeRefused(db: Db, op: Op, h: string)
    requires Inv(db) && op.ExchangeCode? && CodeSpentFor(db, h, op.code)
    ensures Apply(db, op) == (db, Err(Invalid))
  {
    hide GrantsOk, ConnectorsOk, TokensOk, SessionOk;
  }

  lemma ExchangeSpends(db: Db, op: Op)
    requires Inv(db) && op.ExchangeCode? && Apply(db, op).1.Ok?
    ensures exists h :: CodeSpentFor(Apply(db, op).0, h, op.code)
  {
    var h, g :| CodeMatch(db, op.client, op.code, h, g)
      && Apply(db, op).0 == WithPair(Consume(db, h), g, op.scopes, op.access, op.refresh, op.now);
    hide Inv;
    assert CodeSpentFor(Apply(db, op).0, h, op.code);
  }

  lemma {:induction false} SpentCodeNeverIssues(db: Db, ops: seq<Op>, h: string, code: string, j: nat)
    requires Inv(db) && CodeSpentFor(db, h, code) && j < |ops|
    requires ops[j].ExchangeCode? && ops[j].code == code
    ensures Apply(Exec(db, ops[..j]), ops[j]).1 == Err(Invalid)
    decreases ops
  {
    hide Inv, Apply, CodeSpentFor;
    if j == 0 {
      SpentCodeRefused(db, ops[0], h);
    } else {
      ApplyKeeps(db, ops[0]);
      SpentCodeStays(db, ops[0], h, code);
      assert ops[..j][0] == ops[0] && ops[..j][1..] == ops[1..][..j - 1];
      SpentCodeNeverIssues(Apply(db, ops[0]).0, ops[1..], h, code, j - 1);
    }
  }

  /** An authorization code issues tokens at most once over any run (section 4.1.2 of RFC 6749). */
  lemma CodeIssuesAtMostOnce(ops: seq<Op>, i: nat, j: nat)
    requires i < j < |ops| && ops[i].ExchangeCode? && ops[j].ExchangeCode? && ops[i].code == ops[j].code
    requires Apply(Exec(EMPTY, ops[..i]), ops[i]).1.Ok?
    ensures Apply(Exec(EMPTY, ops[..j]), ops[j]).1 == Err(Invalid)
  {
    hide Inv, Apply, CodeSpentFor;
    var db := Exec(EMPTY, ops[..i]);
    Reachable(ops[..i]);
    ApplyKeeps(db, ops[i]);
    ExchangeSpends(db, ops[i]);
    var h :| CodeSpentFor(Apply(db, ops[i]).0, h, ops[i].code);
    SpentCodeNeverIssues(Apply(db, ops[i]).0, ops[i + 1..], h, ops[i].code, j - i - 1);
    ExecSplit(EMPTY, ops[..j], i);
    assert ops[..j][..i] == ops[..i] && ops[..j][i] == ops[i];
    SliceOfPrefix(ops, i + 1, j);
  }

  lemma SliceOfPrefix<T>(s: seq<T>, i: nat, j: nat)
    requires i <= j <= |s|
    ensures s[..j][i..] == s[i..j] == s[i..][..j - i]
  {
  }

  lemma {:induction false} ExecSplit(db: Db, ops: seq<Op>, i: nat)
    requires i < |ops|
    ensures Exec(db, ops) == Exec(Apply(Exec(db, ops[..i]), ops[i]).0, ops[i + 1..])
    decreases ops
  {
    hide Apply;
    if i == 0 {
      assert ops[..0] == [];
    } else {
      ExecSplit(Apply(db, ops[0]).0, ops[1..], i - 1);
      assert ops[..i][0] == ops[0] && ops[..i][1..] == ops[1..][..i - 1];
      assert ops[1..][i - 1] == ops[i] && ops[1..][i..] == ops[i + 1..];
    }
  }

  /** A token that was rotated or revoked stays so. */
  ghost predicate Ended(db: Db, t: string) {
    t in db.tokens && !db.tokens[t].Live()
  }

  lemma EndedStays(db: Db, op: Op, t: string)
    requires Inv(db) && Ended(db, t)
    ensures Ended(Apply(db, op).0, t)
  {
    hide GrantsOk, ConnectorsOk, TokensOk, SessionsOk;
  }

  lemma {:induction false} EndedForever(db: Db, ops: seq<Op>, t: string)
    requires Inv(db) && Ended(db, t)
    ensures Ended(Exec(db, ops), t)
    decreases ops
  {
    hide Inv, Apply, Ended;
    if ops != [] {
      ApplyKeeps(db, ops[0]);
      EndedStays(db, ops[0], t);
      EndedForever(Apply(db, ops[0]).0, ops[1..], t);
    }
  }

  lemma ExchangeEnds(db: Db, op: Op)
    requires op.ExchangeRefresh? && Apply(db, op).1.Ok?
    ensures Ended(Apply(db, op).0, op.token)
  {
  }

  /** A refresh token is good for one exchange: the second use issues nothing, whatever happens between. */
  lemma RefreshTokenIssuesAtMostOnce(ops: seq<Op>, i: nat, j: nat)
    requires i < j < |ops| && ops[i].ExchangeRefresh? && ops[j].ExchangeRefresh? && ops[i].token == ops[j].token
    requires Apply(Exec(EMPTY, ops[..i]), ops[i]).1.Ok?
    ensures Apply(Exec(EMPTY, ops[..j]), ops[j]).1 == Err(Invalid)
  {
    hide Inv, Ended, Apply;
    var db := Exec(EMPTY, ops[..i]);
    var token := ops[i].token;
    ExchangeEnds(db, ops[i]);
    Reachable(ops[..i]);
    ApplyKeeps(db, ops[i]);
    EndedForever(Apply(db, ops[i]).0, ops[i + 1..j], token);
    ExecSplit(EMPTY, ops[..j], i);
    assert ops[..j][..i] == ops[..i] && ops[..j][i] == ops[i] && ops[..j][i + 1..] == ops[i + 1..j];
    EndedRefused(Exec(EMPTY, ops[..j]), ops[j]);
  }

  lemma EndedRefused(db: Db, op: Op)
    requires op.ExchangeRefresh? && Ended(db, op.token)
    ensures Apply(db, op).1 == Err(Invalid)
  {}

  /** Revocation ends every token of the connector at once and for ever: none is ever usable again. */
  lemma RevokedConnectorNeverAuthorizes(ops: seq<Op>, more: seq<Op>, t: string, kind: TokenKind,
                                        client: Option<string>, now: int)
    requires var db := Exec(EMPTY, ops);
      && t in db.tokens && db.tokens[t].grant in db.grants
      && db.grants[db.tokens[t].grant].connector in db.connectors
      && db.connectors[db.grants[db.tokens[t].grant].connector].status.Revoked?
    ensures !TokenUsable(Exec(Exec(EMPTY, ops), more), t, kind, client, now)
  {
    var db := Exec(EMPTY, ops);
    Reachable(ops);
    assert TokenOk(db, t);
    assert GrantOk(db, db.tokens[t].grant);
    assert Ended(db, t);
    hide Inv, Apply;
    EndedForever(db, more, t);
  }
}
