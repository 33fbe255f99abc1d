/**
 When each authority transaction is accepted and what it leaves behind, read off the tables of any reachable
 state: every row it changes, and that it changes no other.
 */
module AuthorityAnswers {
  import opened Wrappers
  import opened AuthorityTables
  import opened Authority
  import opened AuthoritySteps
  import opened AuthorityRuns

  const MINUTE: int := 60 * 1000000
  const HOUR: int := 60 * MINUTE
  const DAY: int := 24 * HOUR

  // ---------- Sessions ----------

  /** A session asks for all its client's scopes, whichever of them were requested, and lives ten minutes. */
  lemma AuthorizeAnswers(db: Db, op: Op)
    requires op.Authorize?
    ensures var (after, r) := Apply(db, op);
      var proper := op.resourceOk && (exists x :: x in op.requested) && op.challenge >= 43
                    && (forall x | x in op.requested :: x in op.clientScopes)
                    && (forall x | x in op.clientScopes :: x in op.valid);
      && (r.Ok? <==> proper && op.session !in db.sessions && op.client in db.clients)
      && (r == Err(Invalid) <==> !proper)
      && after == (if r.Err? then db
                   else db.(sessions := db.sessions[op.session :=
                     Session(op.client, None, None, op.clientScopes, None, Waiting, op.now + 10 * MINUTE)]))
  {
  }

  /** A waiting session is bound once; binding it again is accepted for the same connector only. */
  lemma BindAnswers(db: Db, op: Op)
    requires op.Bind?
    ensures var (after, r) := Apply(db, op); var h := op.session;
      var unbound := h in db.sessions && db.sessions[h].status == Waiting && db.sessions[h].connector == None
                     && op.now < db.sessions[h].expires;
      && (r.Ok? <==> unbound || (h in db.sessions && db.sessions[h].connector == Some(op.connector)))
      && after == (if unbound then db.(sessions := db.sessions[h := db.sessions[h].(connector := Some(op.connector))])
                   else db)
  {
  }

  /** Only the client of an active grant on the connector may mark a session of its own as replacing it. */
  lemma ReplaceAnswers(ops: seq<Op>, op: Op)
    requires op.Replace?
    ensures var db := Exec(EMPTY, ops); var (after, r) := Apply(db, op); var h := op.session;
      && (r.Ok? <==>
            && (exists g :: g in db.grants && db.grants[g].connector == op.connector && db.grants[g].active
                            && db.grants[g].tenant == op.tenant && db.grants[g].client == op.client)
            && h in db.sessions && db.sessions[h].client == op.client && db.sessions[h].status == Waiting
            && op.now < db.sessions[h].expires)
      && after == (if r.Ok? then db.(sessions := db.sessions[h := db.sessions[h].(superseded := Some(op.connector))])
                   else db)
  {
    var db := Exec(EMPTY, ops);
    Reachable(ops);
    hide TokensOk, SessionsOk, ConnectorsOk, Exec;
    forall g | g in db.grants ensures GrantOk(db, g) {}
  }

  // ---------- Revocation ----------

  /** Connector, grants and tokens of `a` have ended, and nothing else has changed. */
  ghost predicate Ends(db: Db, after: Db, a: string) {
    && after.clients == db.clients && after.sessions == db.sessions && EndsRows(db, after, a)
  }

  ghost predicate EndsRows(db: Db, after: Db, a: string) {
    && after.connectors.Keys == db.connectors.Keys && after.grants.Keys == db.grants.Keys
    && after.tokens.Keys == db.tokens.Keys
    && (forall c | c in db.connectors ::
          after.connectors[c] == if c == a then db.connectors[c].(status := Revoked) else db.connectors[c])
    && (forall g | g in db.grants ::
          after.grants[g] == if db.grants[g].connector == a then db.grants[g].(active := false) else db.grants[g])
    && (forall t | t in db.tokens ::
          db.tokens[t].grant in db.grants
          && after.tokens[t] == if db.grants[db.tokens[t].grant].connector == a then db.tokens[t].(revoked := true)
                                else db.tokens[t])
  }

  /** A connector with a grant is active or revoked, and so is one that a session is marked as replacing. */
  lemma GrantedConnectors(db: Db)
    requires Inv(db)
    ensures forall g | g in db.grants ::
      && db.grants[g].connector in db.connectors
      && var c := db.connectors[db.grants[g].connector];
         c.tenant == db.grants[g].tenant && c.status == if db.grants[g].active then Active else Revoked
    ensures forall h | h in db.sessions && db.sessions[h].superseded.Some? ::
      && db.sessions[h].superseded.value in db.connectors
      && db.connectors[db.sessions[h].superseded.value].status in {Active, Revoked}
    ensures forall h | h in db.sessions :: db.sessions[h].client in db.clients
    ensures forall t | t in db.tokens ::
      && db.tokens[t].grant in db.grants
      && (!db.grants[db.tokens[t].grant].active ==> db.tokens[t].revoked)
  {
    hide ConnectorsOk;
    forall g | g in db.grants ensures GrantOk(db, g) {}
    forall h | h in db.sessions ensures SessionOk(db, h) {}
    forall t | t in db.tokens ensures TokenOk(db, t) {}
  }

  lemma RevokedTokens(db: Db, a: string)
    requires forall t | t in db.tokens :: db.tokens[t].grant in db.grants
    ensures var after := Revoke(db, a);
      && after.tokens.Keys == db.tokens.Keys
      && forall t | t in db.tokens ::
           after.tokens[t] == if db.grants[db.tokens[t].grant].connector == a && db.grants[db.tokens[t].grant].active
                              then db.tokens[t].(revoked := true) else db.tokens[t]
  {
  }

  lemma RevokedConnectors(db: Db, a: string)
    requires a in db.connectors && (db.connectors[a].status.Active? || db.connectors[a].status.Revoked?)
    ensures var after := Revoke(db, a);
      && after.clients == db.clients && after.sessions == db.sessions
      && after.connectors == db.connectors[a := db.connectors[a].(status := Revoked)]
  {
  }

  lemma RevokedGrants(db: Db, a: string)
    ensures var after := Revoke(db, a);
      && after.grants.Keys == db.grants.Keys
      && forall g | g in db.grants ::
           after.grants[g] == if db.grants[g].connector == a then db.grants[g].(active := false) else db.grants[g]
  {
  }

  lemma RevokeEnds(db: Db, a: string)
    requires Inv(db) && a in db.connectors && (db.connectors[a].status.Active? || db.connectors[a].status.Revoked?)
    ensures Ends(db, Revoke(db, a), a)
  {
    hide Inv, Revoke;
    GrantedConnectors(db);
    RevokedTokens(db, a);
    RevokedGrants(db, a);
    RevokedConnectors(db, a);
  }

  /** A caller with a grant of the connector, active or not, ends it. */
  lemma RevokeConnectorAnswers(ops: seq<Op>, op: Op)
    requires op.RevokeConnector?
    ensures var db := Exec(EMPTY, ops); var (after, r) := Apply(db, op);
      && (r.Ok? <==> exists g :: g in db.grants && db.grants[g].connector == op.connector
                                 && db.grants[g].tenant == op.tenant && db.grants[g].client == op.client)
      && (if r.Ok? then Ends(db, after, op.connector) else after == db)
  {
    var db := Exec(EMPTY, ops);
    Reachable(ops);
    GrantedConnectors(db);
    hide Exec, Inv, Ends, Revoke;
    if g :| g in db.grants && db.grants[g].connector == op.connector {
      RevokeEnds(db, op.connector);
    }
  }

  /** Revoking either token of a pair ends the connector it was issued for; an unknown token ends nothing. */
  lemma RevokeTokenAnswers(ops: seq<Op>, op: Op)
    requires op.RevokeToken?
    ensures var db := Exec(EMPTY, ops); var (after, r) := Apply(db, op);
      && r.Ok?
      && (op.token in db.tokens ==>
            && db.tokens[op.token].grant in db.grants
            && Ends(db, after, db.grants[db.tokens[op.token].grant].connector))
      && (op.token !in db.tokens ==> after == db)
  {
    var db := Exec(EMPTY, ops);
    Reachable(ops);
    GrantedConnectors(db);
    hide Exec, Inv, Ends, Revoke;
    if op.token in db.tokens {
      RevokeEnds(db, db.grants[db.tokens[op.token].grant].connector);
    }
  }

  // ---------- Activation ----------

  /** What an accepted activation leaves: the new authority, and the end of what it replaces. */
  ghost predicate Activated(db: Db, after: Db, op: Op)
    requires op.Activate? && op.session in db.sessions
  {
    var s := db.sessions[op.session];
    && s.connector.Some? && s.connector.value in db.connectors && after.clients == db.clients
    && var id := s.connector.value;
    && after.sessions == db.sessions[op.session := s.(code := Some(op.code), status := Authorized)]
    && after.grants.Keys == db.grants.Keys + {op.grant} && after.connectors.Keys == db.connectors.Keys
    && after.tokens.Keys == db.tokens.Keys
    && after.grants[op.grant] == Grant(id, db.connectors[id].tenant, s.client, s.scopes, true)
    && after.connectors[id] == db.connectors[id].(status := Active, handle := None)
    && (forall c | c in db.connectors && c != id ::
          after.connectors[c]
          == if s.superseded == Some(c) then db.connectors[c].(status := Revoked) else db.connectors[c])
    && (forall g | g in db.grants ::
          after.grants[g]
          == if s.superseded == Some(db.grants[g].connector) then db.grants[g].(active := false) else db.grants[g])
    && (forall t | t in db.tokens ::
          db.tokens[t].grant in db.grants
          && after.tokens[t] == if s.superseded == Some(db.grants[db.tokens[t].grant].connector)
                                then db.tokens[t].(revoked := true) else db.tokens[t])
  }

  /** The session waits, is bound and in time, and its connector holds a selection and is in time. */
  predicate Ready(db: Db, h: string, now: int) {
    && h in db.sessions
    && var s := db.sessions[h];
    && s.status == Waiting && now < s.expires && s.connector.Some? && s.connector.value in db.connectors
    && var c := db.connectors[s.connector.value];
    && c.status == Pending && c.allowed != None && c.default != None && now < c.expires
  }

  /**
   Activation is accepted with consent for a ready session, under a fresh grant id and code; a connector the
   session was marked as replacing ends with it, and nothing else does.
   */
  lemma ActivateAnswers(ops: seq<Op>, op: Op)
    requires op.Activate?
    ensures var db := Exec(EMPTY, ops); var (after, r) := Apply(db, op);
      var unused := op.grant !in db.grants && forall h | h in db.sessions :: db.sessions[h].code != Some(op.code);
      && (r.Ok? <==> op.consent && Ready(db, op.session, op.now) && unused)
      && (r == Err(Invalid) <==> !op.consent || !Ready(db, op.session, op.now))
      && (r.Ok? ==> r.value == Code(op.code))
      && (if r.Ok? then Activated(db, after, op) else after == db)
  {
    var db := Exec(EMPTY, ops);
    Reachable(ops);
    ActivateAccepts(db, op);
    hide Exec, Inv, Activated, Apply, Ready;
    if Apply(db, op).1.Ok? {
      ActivationEnds(db, op);
    }
  }

  lemma ActivateAccepts(db: Db, op: Op)
    requires op.Activate? && Inv(db)
    ensures var (after, r) := Apply(db, op);
      && (r == Err(Invalid) <==> !op.consent || !Ready(db, op.session, op.now))
      && (r.Ok? <==> op.consent && Ready(db, op.session, op.now) && op.grant !in db.grants
                     && forall h | h in db.sessions :: db.sessions[h].code != Some(op.code))
      && (r.Ok? ==> r.value == Code(op.code)) && (r.Err? ==> after == db)
  {
    GrantedConnectors(db);
    hide Inv, Revoke, Granted;
  }

  /** The state with the new authority in place and the replaced one ended, before the session is marked. */
  function Replaced(db: Db, op: Op): Db
    requires op.Activate? && Ready(db, op.session, op.now)
  {
    var s, granted := db.sessions[op.session], Granted(db, op.session, op.grant);
    if s.superseded.Some? then Revoke(granted, s.superseded.value) else granted
  }

  /** What is replaced is not what is activated. */
  lemma OtherReplaced(db: Db, op: Op)
    requires op.Activate? && Inv(db) && Apply(db, op).1.Ok?
    ensures Ready(db, op.session, op.now) && op.grant !in db.grants
    ensures var s := db.sessions[op.session];
      && (s.superseded.Some? ==>
            && s.superseded.value in db.connectors && s.superseded != s.connector
            && db.connectors[s.superseded.value].status in {Active, Revoked})
      && Apply(db, op).0
         == Replaced(db, op).(sessions := db.sessions[op.session := s.(code := Some(op.code), status := Authorized)])
  {
    GrantedConnectors(db);
    hide Inv;
  }

  lemma ActivatedGrants(db: Db, op: Op)
    requires op.Activate? && Inv(db) && Apply(db, op).1.Ok?
    ensures Ready(db, op.session, op.now)
    ensures var s, after := db.sessions[op.session], Apply(db, op).0; var id := s.connector.value;
      && after.grants.Keys == db.grants.Keys + {op.grant}
      && after.grants[op.grant] == Grant(id, db.connectors[id].tenant, s.client, s.scopes, true)
      && (forall g | g in db.grants ::
            after.grants[g]
            == if s.superseded == Some(db.grants[g].connector) then db.grants[g].(active := false) else db.grants[g])
  {
    OtherReplaced(db, op);
    hide Apply, Inv, Revoke;
    var s := db.sessions[op.session];
    if s.superseded.Some? { RevokedGrants(Granted(db, op.session, op.grant), s.superseded.value); }
  }

  lemma ActivatedConnectors(db: Db, op: Op)
    requires op.Activate? && Inv(db) && Apply(db, op).1.Ok?
    ensures Ready(db, op.session, op.now)
    ensures var s, after := db.sessions[op.session], Apply(db, op).0; var id := s.connector.value;
      && after.connectors.Keys == db.connectors.Keys
      && after.connectors[id] == db.connectors[id].(status := Active, handle := None)
      && (forall c | c in db.connectors && c != id ::
            after.connectors[c]
            == if s.superseded == Some(c) then db.connectors[c].(status := Revoked) else db.connectors[c])
  {
    OtherReplaced(db, op);
    hide Apply, Inv;
  }

  lemma ActivatedTokens(db: Db, op: Op)
    requires op.Activate? && Inv(db) && Apply(db, op).1.Ok?
    ensures Ready(db, op.session, op.now)
    ensures var s, after := db.sessions[op.session], Apply(db, op).0;
      && after.tokens.Keys == db.tokens.Keys
      && (forall t | t in db.tokens ::
            db.tokens[t].grant in db.grants
            && after.tokens[t] == if s.superseded == Some(db.grants[db.tokens[t].grant].connector)
                                  then db.tokens[t].(revoked := true) else db.tokens[t])
  {
    GrantedConnectors(db);
    OtherReplaced(db, op);
    hide Apply, Inv, Revoke;
    var s, granted := db.sessions[op.session], Granted(db, op.session, op.grant);
    assert forall t | t in db.tokens :: granted.grants[db.tokens[t].grant] == db.grants[db.tokens[t].grant];
    if s.superseded.Some? { RevokedTokens(granted, s.superseded.value); }
    hide Granted;
  }

  lemma ActivationEnds(db: Db, op: Op)
    requires op.Activate? && Inv(db) && Apply(db, op).1.Ok?
    ensures Activated(db, Apply(db, op).0, op)
  {
    hide Apply, Inv;
    OtherReplaced(db, op);
    ActivatedGrants(db, op);
    ActivatedConnectors(db, op);
    ActivatedTokens(db, op);
    hide Revoke, Granted;
  }

  /** A revoked connector stays revoked. */
  lemma RevokedStays(db: Db, op: Op, a: string)
    requires Inv(db) && a in db.connectors && db.connectors[a].status.Revoked?
    ensures var after := Apply(db, op).0; a in after.connectors && after.connectors[a].status.Revoked?
  {
    hide GrantsOk, ConnectorsOk, TokensOk, SessionsOk;
  }

  lemma {:induction false} RevokedForever(db: Db, ops: seq<Op>, a: string)
    requires Inv(db) && a in db.connectors && db.connectors[a].status.Revoked?
    ensures Inv(Exec(db, ops)) && a in Exec(db, ops).connectors && Exec(db, ops).connectors[a].status.Revoked?
    decreases ops
  {
    hide Inv, Apply;
    if ops != [] {
      ApplyKeeps(db, ops[0]);
      RevokedStays(db, ops[0], a);
      RevokedForever(Apply(db, ops[0]).0, ops[1..], a);
    }
  }

  /**
   What a replacement replaced is over: at once its connector is revoked with every grant and token under it,
   and whatever follows, no token under it, old or new, is usable again.
   */
  lemma ReplacementEndsTheReplaced(ops: seq<Op>, op: Op, a: string, more: seq<Op>, t: string, kind: TokenKind,
                                   client: Option<string>, now: int)
    requires op.Activate? && Apply(Exec(EMPTY, ops), op).1.Ok?
    requires op.session in Exec(EMPTY, ops).sessions && Exec(EMPTY, ops).sessions[op.session].superseded == Some(a)
    ensures var after := Apply(Exec(EMPTY, ops), op).0;
      && a in after.connectors && after.connectors[a].status == Revoked
      && (forall g | g in after.grants && after.grants[g].connector == a :: !after.grants[g].active)
      && (forall k | k in after.tokens ::
            after.tokens[k].grant in after.grants
            && (after.grants[after.tokens[k].grant].connector == a ==> after.tokens[k].revoked))
      && var later := Exec(after, more);
         (t in later.tokens && later.tokens[t].grant in later.grants
          && later.grants[later.tokens[t].grant].connector == a) ==> !TokenUsable(later, t, kind, client, now)
  {
    hide Exec, Apply;
    var db := Exec(EMPTY, ops);
    Reachable(ops);
    GrantedConnectors(db);
    ActivationEnds(db, op);
    OtherReplaced(db, op);
    ApplyKeeps(db, op);
    hide Inv;
    RevokedForever(Apply(db, op).0, more, a);
  }

  // ---------- Tokens ----------

  /** The pair of tokens is in place, live for an hour and thirty days, and every other token is as `kept`. */
  ghost predicate Paired(kept: map<string, Token>, after: Db, grant: string, scopes: set<string>, access: string,
                         refresh: string, now: int)
  {
    && after.tokens.Keys == kept.Keys + {access, refresh} && access != refresh
    && after.tokens[access] == Token(grant, Access, scopes, now + HOUR, false, false)
    && after.tokens[refresh] == Token(grant, Refresh, scopes, now + 30 * DAY, false, false)
    && (forall t | t in kept && t != access && t != refresh :: after.tokens[t] == kept[t])
  }

  lemma PairsUp(db: Db, grant: string, scopes: set<string>, access: string, refresh: string, now: int)
    requires access != refresh
    ensures var after := WithPair(db, grant, scopes, access, refresh, now);
      && Paired(db.tokens, after, grant, scopes, access, refresh, now)
      && after == db.(tokens := after.tokens)
  {
  }

  /** An exchanged code consumes its session and issues the pair of its grant; nothing else changes. */
  lemma CodeExchangeIssues(ops: seq<Op>, op: Op)
    requires op.ExchangeCode? && Apply(Exec(EMPTY, ops), op).1.Ok?
    ensures var db := Exec(EMPTY, ops); var (after, r) := Apply(db, op);
      exists h, g ::
        && h in db.sessions && db.sessions[h].code == Some(op.code) && db.sessions[h].client == op.client
        && db.sessions[h].status == Authorized
        && g in db.grants && db.grants[g].active && db.grants[g].client == op.client
        && db.sessions[h].connector == Some(db.grants[g].connector)
        && r == Ok(Issued(g))
        && after == db.(sessions := db.sessions[h := db.sessions[h].(status := Consumed)], tokens := after.tokens)
        && op.access !in db.tokens && op.refresh !in db.tokens
        && Paired(db.tokens, after, g, op.scopes, op.access, op.refresh, op.now)
  {
    var db := Exec(EMPTY, ops);
    hide Exec, Paired;
    var h, g :| CodeMatch(db, op.client, op.code, h, g) && FreshPair(db, op.access, op.refresh)
      && Apply(db, op) == (WithPair(Consume(db, h), g, op.scopes, op.access, op.refresh, op.now), Ok(Issued(g)));
    hide Apply;
    PairsUp(Consume(db, h), g, op.scopes, op.access, op.refresh, op.now);
    hide WithPair;
  }

  /** A token of the kind, and of the client if one is named, neither rotated nor revoked and in time. */
  predicate Bears(db: Db, token: string, kind: TokenKind, client: Option<string>, now: int) {
    && token in db.tokens
    && var t := db.tokens[token];
    && t.kind == kind && !t.rotated && !t.revoked && now < t.expires
    && t.grant in db.grants && (client.Some? ==> db.grants[t.grant].client == client.value)
  }

  predicate Refreshable(db: Db, token: string, client: string, now: int) {
    Bears(db, token, Refresh, Some(client), now)
  }

  /** In a reachable state such a token is usable as it is: its grant is active, on an active connector. */
  lemma BearerUsable(ops: seq<Op>, token: string, kind: TokenKind, client: Option<string>, now: int)
    ensures var db := Exec(EMPTY, ops);
      && (TokenUsable(db, token, kind, client, now) <==> Bears(db, token, kind, client, now))
      && (Bears(db, token, kind, client, now) ==>
            var g := db.grants[db.tokens[token].grant];
            g.active && g.connector in db.connectors && db.connectors[g.connector].status == Active
            && db.connectors[g.connector].tenant == g.tenant)
  {
    var db := Exec(EMPTY, ops);
    Reachable(ops);
    GrantedConnectors(db);
    hide Exec, Inv;
  }

  /** The scopes asked for, or all that are held when none are. */
  function Wanted(op: Op): set<string>
    requires op.ExchangeRefresh?
  {
    if op.requested == {} then op.held else op.requested
  }

  /** What a refresh leaves: the token rotated, the grant's access tokens revoked, and a pair of the old scopes. */
  ghost predicate Refreshed(db: Db, after: Db, op: Op)
    requires op.ExchangeRefresh? && op.token in db.tokens
  {
    var spent := db.tokens[op.token];
    && after == db.(tokens := after.tokens)
    && op.access !in db.tokens && op.refresh !in db.tokens && op.access != op.refresh
    && after.tokens.Keys == db.tokens.Keys + {op.access, op.refresh}
    && after.tokens[op.access] == Token(spent.grant, Access, spent.scopes, op.now + HOUR, false, false)
    && after.tokens[op.refresh] == Token(spent.grant, Refresh, spent.scopes, op.now + 30 * DAY, false, false)
    && after.tokens[op.token] == spent.(rotated := true)
    && (forall t | t in db.tokens && t != op.token ::
          after.tokens[t]
          == if db.tokens[t].grant == spent.grant && db.tokens[t].kind == Access then db.tokens[t].(revoked := true)
             else db.tokens[t])
  }

  /**
   In every reachable state a refresh is accepted exactly for a live token of the caller's own, when every
   wanted scope is held and persisted, and a fresh pair; without a fresh pair alone it is a key violation.
   */
  lemma RefreshAnswers(ops: seq<Op>, op: Op)
    requires op.ExchangeRefresh?
    ensures var db := Exec(EMPTY, ops); var (after, r) := Apply(db, op);
      var proper := Refreshable(db, op.token, op.client, op.now)
                    && (forall x | x in Wanted(op) :: x in op.held && x in db.tokens[op.token].scopes);
      var unused := op.access !in db.tokens && op.refresh !in db.tokens && op.access != op.refresh;
      && (r.Ok? <==> proper && unused)
      && (r == Err(KeyViolation) <==> proper && !unused)
      && (r == Err(Invalid) <==> !proper)
      && (if r.Ok? then r == Ok(Issued(db.tokens[op.token].grant)) && Refreshed(db, after, op) else after == db)
  {
    var db := Exec(EMPTY, ops);
    BearerUsable(ops, op.token, Refresh, Some(op.client), op.now);
    hide Exec, Bears, TokenUsable, Rotated, Refreshed;
    if Apply(db, op).1.Ok? {
      RotatesAsSaid(db, op);
    }
    InToken(db, op);
  }

  lemma InToken(db: Db, op: Op)
    requires op.ExchangeRefresh?
    ensures Refreshable(db, op.token, op.client, op.now) ==> op.token in db.tokens
  {
  }

  lemma RotatesAsSaid(db: Db, op: Op)
    requires op.ExchangeRefresh? && op.token in db.tokens && FreshPair(db, op.access, op.refresh)
    requires db.tokens[op.token].kind == Refresh
    ensures Refreshed(db, Rotated(db, op.token, op.access, op.refresh, op.now), op)
  {
  }

  /**
   A pair just issued can be refreshed at once and until its refresh lifetime ends, for all its scopes or any
   of them, and gives a pair with all of them again.
   */
  lemma IssuedPairRefreshes(ops: seq<Op>, op: Op, again: Op)
    requires op.ExchangeCode? || op.ExchangeRefresh?
    requires again.ExchangeRefresh? && again.client == op.client && again.token == op.refresh
    requires Apply(Exec(EMPTY, ops), op).1.Ok?
    requires var after := Apply(Exec(EMPTY, ops), op).0;
      && op.refresh in after.tokens && again.held == after.tokens[op.refresh].scopes
      && again.requested <= again.held
      && again.access !in after.tokens && again.refresh !in after.tokens && again.access != again.refresh
    ensures var after := Apply(Exec(EMPTY, ops), op).0; var (last, r) := Apply(after, again);
      && (r.Ok? <==> again.now < op.now + 30 * DAY)
      && (r.Ok? ==>
            && again.access in last.tokens && last.tokens[again.access].scopes == again.held
            && again.refresh in last.tokens && last.tokens[again.refresh].scopes == again.held)
  {
    IssuedPairLives(ops, op, again.now);
    hide Exec;
    var after := Apply(Exec(EMPTY, ops), op).0;
    hide Apply, TokenUsable;
    RefreshOfUsable(after, again);
  }

  lemma RefreshOfUsable(db: Db, op: Op)
    requires op.ExchangeRefresh? && op.token in db.tokens && FreshPair(db, op.access, op.refresh)
    requires Wanted(op) <= op.held && Wanted(op) <= db.tokens[op.token].scopes
    ensures var (after, r) := Apply(db, op);
      && (r.Ok? <==> TokenUsable(db, op.token, Refresh, Some(op.client), op.now))
      && (r.Ok? ==> op.access in after.tokens && after.tokens[op.access].scopes == db.tokens[op.token].scopes
                    && op.refresh in after.tokens && after.tokens[op.refresh].scopes == db.tokens[op.token].scopes)
  {
    hide TokenUsable;
  }

  // ---------- Enrollment ----------

  lemma HandlesDiffer(db: Db)
    requires Inv(db)
    ensures forall a, b | a in db.connectors && b in db.connectors && a != b ::
      db.connectors[a].handle.Some? ==> db.connectors[a].handle != db.connectors[b].handle
    ensures forall c | c in db.connectors && db.connectors[c].status == Pending ::
      forall g | g in db.grants :: db.grants[g].connector != c
  {
    GrantedConnectors(db);
    hide GrantsOk, TokensOk, SessionsOk, ConnectorOk;
  }

  /** The row already prepared under the handle, for this very request and in time. */
  predicate PreparedBefore(db: Db, op: Op, e: string)
    requires op.Prepare?
  {
    && e in db.connectors
    && var c := db.connectors[e];
       c.handle == Some(op.handle) && c.status == Pending && op.now < c.expires
       && c.profile == op.profile && c.discovered == op.discovered
  }

  /** A long enough handle and a discovery prepare one new row, or answer the one they prepared before. */
  lemma PrepareAnswers(ops: seq<Op>, op: Op)
    requires op.Prepare?
    ensures var db := Exec(EMPTY, ops); var (after, r) := Apply(db, op);
      var proper := |op.handle| >= 22 && op.discovered != [] && forall x | x in op.discovered :: x > 0;
      var unheld := forall e | e in db.connectors :: db.connectors[e].handle != Some(op.handle);
      && (r.Ok? <==> proper && (if unheld then op.id !in db.connectors else exists e :: PreparedBefore(db, op, e)))
      && (r == Err(KeyViolation) <==> proper && unheld && op.id in db.connectors)
      && (forall e | PreparedBefore(db, op, e) && r.Ok? :: r == Ok(Prepared(e)))
      && (r.Ok? && unheld ==> r == Ok(Prepared(op.id)))
      && after == (if r.Ok? && unheld
                   then db.(connectors := db.connectors[op.id :=
                     Connector("connector:" + op.id, op.profile, op.discovered, None, None, Pending, Some(op.handle),
                               None, op.now + 10 * MINUTE)])
                   else db)
  {
    var db := Exec(EMPTY, ops);
    Reachable(ops);
    HandlesDiffer(db);
    PositiveDiscovery(op.discovered);
    hide Exec, Inv, Discovery;
    if e :| e in db.connectors && db.connectors[e].handle == Some(op.handle) {
      assert HandleTaken(db, op.handle, e);
      PreparesAgain(db, op, e);
      hide Apply;
    } else {
      assert !exists e :: HandleTaken(db, op.handle, e);
    }
  }

  lemma PositiveDiscovery(ids: seq<int>)
    ensures Discovery(ids) <==> ids != [] && forall x | x in ids :: x > 0
  {
    assert forall i | 0 <= i < |ids| :: ids[i] in ids;
  }

  /** Behind a row that holds the handle. */
  lemma PreparesAgain(db: Db, op: Op, e: string)
    requires op.Prepare? && HandleTaken(db, op.handle, e)
    requires forall a, b | a in db.connectors && b in db.connectors && a != b ::
      db.connectors[a].handle.Some? ==> db.connectors[a].handle != db.connectors[b].handle
    ensures var (after, r) := Apply(db, op);
      && after == db && (r == Ok(Prepared(e)) || r == Err(Invalid))
      && (r.Ok? <==> |op.handle| >= 22 && Discovery(op.discovered) && PreparedBefore(db, op, e))
      && (forall c | PreparedBefore(db, op, c) :: c == e)
  {
    hide Discovery;
  }

  /** Without repetition, and each id where the choice first has it. */
  lemma {:induction false} DistinctInOrder(ids: seq<int>, i: nat, j: nat)
    requires i < j < |Distinct(ids)|
    ensures exists p | 0 <= p < |ids| :: ids[p] == Distinct(ids)[i] && Distinct(ids)[j] !in ids[..p + 1]
  {
    var n := |ids| - 1;
    var init, last := ids[..n], ids[n];
    if last in Distinct(init) || j < |Distinct(init)| {
      DistinctInOrder(init, i, j);
      var p :| 0 <= p < n && init[p] == Distinct(init)[i] && Distinct(init)[j] !in init[..p + 1];
      assert ids[p] == init[p] && ids[..p + 1] == init[..p + 1];
    } else {
      assert Distinct(ids)[i] in init;
      var p :| 0 <= p < n && init[p] == Distinct(ids)[i];
      assert ids[p] == init[p];
      assert forall x | x in ids[..p + 1] :: x in init;
    }
  }

  /** The picked row is live under the handle, and the choice is a proper one within its discovery. */
  predicate Choosable(db: Db, op: Op)
    requires op.Commit?
  {
    && op.chosen != [] && (forall x | x in op.chosen :: x > 0) && op.default in op.chosen
    && op.pick in db.connectors
    && var c := db.connectors[op.pick];
    && (c.handle == Some(op.handle) || c.consumed == Some(op.handle))
    && c.status == Pending && op.now < c.expires && (forall x | x in op.chosen :: x in c.discovered)
  }

  /** A choice is stored once; after that only the same choice is accepted, and changes nothing. */
  lemma CommitAnswers(db: Db, op: Op)
    requires op.Commit?
    ensures var (after, r) := Apply(db, op); var chosen := Distinct(op.chosen);
      && (r == Err(KeyViolation) <==>
            && Choosable(db, op) && db.connectors[op.pick].consumed == None
            && exists e :: e in db.connectors && db.connectors[e].consumed == Some(op.handle))
      && (r.Ok? <==>
            && Choosable(db, op)
            && if db.connectors[op.pick].consumed == None
               then forall e | e in db.connectors :: db.connectors[e].consumed != Some(op.handle)
               else db.connectors[op.pick].allowed == Some(chosen)
                    && db.connectors[op.pick].default == Some(op.default))
      && after == (if r.Ok? && db.connectors[op.pick].consumed == None
                   then db.(connectors := db.connectors[op.pick := db.connectors[op.pick].(
                     allowed := Some(chosen), default := Some(op.default), handle := None,
                     consumed := Some(op.handle))])
                   else db)
  {
    hide Distinct;
  }

  /** Exactly the pending rows that are due expire and give up their handles. */
  lemma ExpireAnswers(db: Db, op: Op)
    requires op.Expire?
    ensures var (after, r) := Apply(db, op);
      && r.Ok? && after == db.(connectors := after.connectors) && after.connectors.Keys == db.connectors.Keys
      && forall c | c in db.connectors ::
           after.connectors[c]
           == if db.connectors[c].status == Pending && db.connectors[c].expires <= op.now
              then db.connectors[c].(status := Expired, handle := None) else db.connectors[c]
  {
  }

  /** A pending row is discarded under its own tenant; nothing else ever is. */
  lemma DiscardAnswers(ops: seq<Op>, op: Op)
    requires op.Discard?
    ensures var db := Exec(EMPTY, ops); var (after, r) := Apply(db, op);
      && r.Ok?
      && after == if op.id in db.connectors && db.connectors[op.id].tenant == op.tenant
                     && db.connectors[op.id].status == Pending
                  then db.(connectors := db.connectors - {op.id}) else db
  {
    Reachable(ops);
    HandlesDiffer(Exec(EMPTY, ops));
    hide Exec, Inv;
  }

  lemma RegisterAnswers(db: Db, op: Op)
    requires op.Register?
    ensures var (after, r) := Apply(db, op);
      && (r.Ok? <==> op.client !in db.clients)
      && after == db.(clients := db.clients + {op.client}) && (r.Err? ==> r == Err(KeyViolation))
  {
  }
}
