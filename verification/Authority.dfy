/** The authority transactions by their whole effect, and the invariant every one of them keeps. */
module Authority {
  import opened Wrappers
  import opened AuthorityTables

  const SECOND: int := 1000000
  const AUTHORIZATION_TTL: int := 600 * SECOND
  const SESSION_TTL: int := 600 * SECOND
  const ACCESS_TOKEN_TTL: int := 3600 * SECOND
  const REFRESH_TOKEN_TTL: int := 30 * 24 * 3600 * SECOND

  /** A request the code refuses, a unique or foreign key that fails, or a trigger that aborts. */
  datatype Refusal = Invalid | KeyViolation | TriggerAbort

  datatype Answer = Unit | Prepared(connector: string) | Code(code: string) | Issued(grant: string)

  type Outcome = (Db, Result<Answer, Refusal>)

  // ---------- Sessions ----------

  function RegisterTx(db: Db, client: string): Outcome {
    if client in db.clients then (db, Err(KeyViolation))
    else (db.(clients := db.clients + {client}), Ok(Unit))
  }

  function AuthorizeTx(db: Db, session: string, client: string, requested: set<string>,
                       clientScopes: set<string>, valid: set<string>, challenge: nat, resourceOk: bool,
                       now: int): Outcome
  {
    if !resourceOk || requested == {} || !(requested <= clientScopes) || !(clientScopes <= valid)
       || challenge < 43 then (db, Err(Invalid))
    else if session in db.sessions || client !in db.clients then (db, Err(KeyViolation))
    else (db.(sessions := db.sessions[session :=
              Session(client, None, None, clientScopes, None, Waiting, now + AUTHORIZATION_TTL)]), Ok(Unit))
  }

  function BindTx(db: Db, session: string, connector: string, now: int): Outcome {
    if session !in db.sessions then (db, Err(Invalid))
    else
      var s := db.sessions[session];
      if s.status.Waiting? && s.connector.None? && s.expires > now then
        (db.(sessions := db.sessions[session := s.(connector := Some(connector))]), Ok(Unit))
      else if s.connector == Some(connector) then (db, Ok(Unit))
      else (db, Err(Invalid))
  }

  predicate ActiveAuthority(db: Db, connector: string, tenant: string, client: string) {
    && ActiveConnectorAt(db, connector, tenant)
    && exists g | g in db.grants ::
         db.grants[g].connector == connector && db.grants[g].tenant == tenant
         && db.grants[g].active && db.grants[g].client == client
  }

  function ReplaceTx(db: Db, session: string, connector: string, tenant: string, client: string, now: int)
    : Outcome
  {
    if !ActiveAuthority(db, connector, tenant, client) then (db, Err(Invalid))
    else if session !in db.sessions then (db, Err(Invalid))
    else
      var s := db.sessions[session];
      if s.client == client && s.status.Waiting? && s.expires > now then
        (db.(sessions := db.sessions[session := s.(superseded := Some(connector))]), Ok(Unit))
      else (db, Err(Invalid))
  }

  // ---------- Revocation ----------

  function LiveGrantsOf(db: Db, connector: string): set<string> {
    set g | g in db.grants && db.grants[g].connector == connector && db.grants[g].active
  }

  /** Connector, grants and tokens end together. */
  function Revoke(db: Db, connector: string): Db {
    var ended := LiveGrantsOf(db, connector);
    db.(connectors := if connector in db.connectors
                         && (db.connectors[connector].status.Pending? || db.connectors[connector].status.Active?)
                      then db.connectors[connector := db.connectors[connector].(status := Revoked)]
                      else db.connectors,
        grants := map g | g in db.grants ::
                    if g in ended then db.grants[g].(active := false) else db.grants[g],
        tokens := map t | t in db.tokens ::
                    if db.tokens[t].grant in ended then db.tokens[t].(revoked := true) else db.tokens[t])
  }

  function RevokeTx(db: Db, connector: string, tenant: string, client: string): Outcome {
    if exists g | g in db.grants ::
         db.grants[g].connector == connector && db.grants[g].tenant == tenant && db.grants[g].client == client
    then (Revoke(db, connector), Ok(Unit))
    else (db, Err(Invalid))
  }

  function RevokeTokenTx(db: Db, token: string): Outcome {
    if token in db.tokens && db.tokens[token].grant in db.grants
    then (Revoke(db, db.grants[db.tokens[token].grant].connector), Ok(Unit))
    else (db, Ok(Unit))
  }

  // ---------- Activation ----------

  predicate Activable(db: Db, session: string, now: int) {
    && session in db.sessions
    && var s := db.sessions[session];
    && s.status.Waiting? && s.expires > now && s.connector.Some? && s.connector.value in db.connectors
    && var c := db.connectors[s.connector.value];
       c.status.Pending? && c.allowed.Some? && c.default.Some? && c.expires > now
  }

  /** The new grant and its connector, before anything is revoked. */
  function Granted(db: Db, session: string, grant: string): Db
    requires session in db.sessions && db.sessions[session].connector.Some?
    requires db.sessions[session].connector.value in db.connectors
  {
    var s := db.sessions[session];
    var id := s.connector.value;
    var c := db.connectors[id];
    db.(grants := db.grants[grant := Grant(id, c.tenant, s.client, s.scopes, true)],
        connectors := db.connectors[id := c.(status := Active, handle := None)])
  }

  function ActivateTx(db: Db, session: string, consent: bool, code: string, grant: string, now: int): Outcome {
    if !consent || !Activable(db, session, now) then (db, Err(Invalid))
    else if grant in db.grants || db.sessions[session].client !in db.clients
         || exists h | h in db.sessions :: db.sessions[h].code == Some(code) then (db, Err(KeyViolation))
    else
      var s := db.sessions[session];
      var granted := Granted(db, session, grant);
      var rest := if s.superseded.Some? then Revoke(granted, s.superseded.value) else granted;
      (rest.(sessions := rest.sessions[session := s.(code := Some(code), status := Authorized)]),
       Ok(Code(code)))
  }

  // ---------- Tokens ----------

  predicate CodeMatch(db: Db, client: string, code: string, session: string, grant: string) {
    && session in db.sessions && grant in db.grants
    && var s := db.sessions[session];
       var g := db.grants[grant];
       s.code == Some(code) && s.client == client && s.status.Authorized?
       && s.connector == Some(g.connector) && g.client == client && g.active
  }

  predicate FreshPair(db: Db, access: string, refresh: string) {
    access !in db.tokens && refresh !in db.tokens && access != refresh
  }

  function WithPair(db: Db, grant: string, scopes: set<string>, access: string, refresh: string, now: int): Db {
    db.(tokens := db.tokens[access := Token(grant, Access, scopes, now + ACCESS_TOKEN_TTL, false, false)]
                           [refresh := Token(grant, Refresh, scopes, now + REFRESH_TOKEN_TTL, false, false)])
  }

  ghost function ExchangeCodeTx(db: Db, client: string, code: string, scopes: set<string>, access: string,
                                refresh: string, now: int): Outcome
  {
    if !exists h, g :: CodeMatch(db, client, code, h, g) then (db, Err(Invalid))
    else
      var h, g :| CodeMatch(db, client, code, h, g);
      if !ScopesAllowed(db, g, scopes) then (db, Err(TriggerAbort))
      else if !FreshPair(db, access, refresh) then (db, Err(KeyViolation))
      else
        (WithPair(db.(sessions := db.sessions[h := db.sessions[h].(status := Consumed)]),
                  g, scopes, access, refresh, now), Ok(Issued(g)))
  }

  /** The row a bearer of the token acts under. */
  predicate TokenUsable(db: Db, token: string, kind: TokenKind, client: Option<string>, now: int) {
    && token in db.tokens && db.tokens[token].grant in db.grants
    && var t := db.tokens[token];
    && var g := db.grants[t.grant];
       t.kind == kind && t.Live() && t.expires > now && g.active
       && ActiveConnectorAt(db, g.connector, g.tenant) && (client.Some? ==> client.value == g.client)
  }

  /** The tokens left once a refresh token is spent and the grant's access tokens are revoked. */
  function Spent(db: Db, token: string): Db
    requires token in db.tokens
  {
    var grant := db.tokens[token].grant;
    db.(tokens := map t | t in db.tokens ::
      if t == token then db.tokens[t].(rotated := true)
      else if db.tokens[t].grant == grant && db.tokens[t].kind.Access? then db.tokens[t].(revoked := true)
      else db.tokens[t])
  }

  function Rotated(db: Db, token: string, access: string, refresh: string, now: int): Db
    requires token in db.tokens
  {
    WithPair(Spent(db, token), db.tokens[token].grant, db.tokens[token].scopes, access, refresh, now)
  }

  function RefreshTx(db: Db, client: string, token: string, held: set<string>, requested: set<string>,
                     access: string, refresh: string, now: int): Outcome
  {
    var wanted := if requested == {} then held else requested;
    if !(wanted <= held) || !TokenUsable(db, token, Refresh, Some(client), now) then (db, Err(Invalid))
    else if !(wanted <= db.tokens[token].scopes) then (db, Err(Invalid))
    else if !FreshPair(db, access, refresh) then (db, Err(KeyViolation))
    else (Rotated(db, token, access, refresh, now), Ok(Issued(db.tokens[token].grant)))
  }

  // ---------- Enrollment ----------

  predicate Discovery(ids: seq<int>) {
    ids != [] && forall i | 0 <= i < |ids| :: ids[i] > 0
  }

  ghost predicate HandleTaken(db: Db, handle: string, id: string) {
    id in db.connectors && db.connectors[id].handle == Some(handle)
  }

  ghost function PrepareTx(db: Db, id: string, handle: string, profile: string, discovered: seq<int>, now: int)
    : Outcome
  {
    if |handle| < 22 || !Discovery(discovered) then (db, Err(Invalid))
    else if exists e :: HandleTaken(db, handle, e) then
      var e :| HandleTaken(db, handle, e);
      var row := db.connectors[e];
      if row.status.Pending? && row.expires > now && row.profile == profile && row.discovered == discovered
      then (db, Ok(Prepared(e)))
      else (db, Err(Invalid))
    else if id in db.connectors then (db, Err(KeyViolation))
    else
      (db.(connectors := db.connectors[id :=
         Connector("connector:" + id, profile, discovered, None, None, Pending, Some(handle), None,
                   now + SESSION_TTL)]), Ok(Prepared(id)))
  }

  /** First occurrences, in order. */
  function Distinct(ids: seq<int>): (r: seq<int>)
    ensures forall x :: x in r <==> x in ids
    ensures forall i, j | 0 <= i < j < |r| :: r[i] != r[j]
    ensures ids != [] ==> r != [] && r[0] == ids[0]
  {
    if ids == [] then []
    else
      var init := Distinct(ids[..|ids| - 1]);
      var last := ids[|ids| - 1];
      assert ids == ids[..|ids| - 1] + [last];
      if last in init then init else init + [last]
  }

  predicate Selection(selected: seq<int>, default: int) {
    selected != [] && (forall x | x in selected :: x > 0) && default in selected
  }

  predicate Enrolled(c: Connector, handle: string) {
    c.handle == Some(handle) || c.consumed == Some(handle)
  }

  /** `pick` is the row the database returns; two may match after a handle was committed and prepared again. */
  function CommitTx(db: Db, pick: string, handle: string, chosen: seq<int>, default: int, now: int): Outcome {
    var selected := Distinct(chosen);
    if !Selection(selected, default) then (db, Err(Invalid))
    else if pick !in db.connectors || !Enrolled(db.connectors[pick], handle) then (db, Err(Invalid))
    else
      var c := db.connectors[pick];
      if !c.status.Pending? || c.expires <= now then (db, Err(Invalid))
      else if !(forall x | x in selected :: x in c.discovered) then (db, Err(Invalid))
      else if c.consumed.Some? then
        if c.allowed == Some(selected) && c.default == Some(default) then (db, Ok(Unit)) else (db, Err(Invalid))
      else if exists e | e in db.connectors :: db.connectors[e].consumed == Some(handle) then (db, Err(KeyViolation))
      else
        (db.(connectors := db.connectors[pick :=
           c.(allowed := Some(selected), default := Some(default), handle := None, consumed := Some(handle))]),
         Ok(Unit))
  }

  function ExpireTx(db: Db, now: int): Outcome {
    (db.(connectors := map id | id in db.connectors ::
           var c := db.connectors[id];
           if c.status.Pending? && c.expires <= now then c.(status := Expired, handle := None) else c),
     Ok(Unit))
  }

  function DiscardTx(db: Db, tenant: string, id: string): Outcome {
    if id in db.connectors && db.connectors[id].tenant == tenant && db.connectors[id].status.Pending?
       && !exists g | g in db.grants :: db.grants[g].tenant == tenant && db.grants[g].connector == id
    then (db.(connectors := db.connectors - {id}), Ok(Unit))
    else (db, Ok(Unit))
  }

  // ---------- The invariant ----------

  predicate GrantOk(db: Db, g: string)
    requires g in db.grants
  {
    var row := db.grants[g];
    && row.client in db.clients && row.connector in db.connectors && row.scopes != {}
    && db.connectors[row.connector].tenant == row.tenant
    && db.connectors[row.connector].status == if row.active then Active else Revoked
  }

  ghost predicate GrantsOk(db: Db) {
    && (forall g | g in db.grants :: GrantOk(db, g))
    && (forall g, h | g in db.grants && h in db.grants ::
          db.grants[g].connector == db.grants[h].connector ==> g == h)
  }

  predicate Committed(c: Connector) {
    && c.allowed.Some? && c.default.Some? && c.consumed.Some?
    && c.allowed.value != [] && c.default.value in c.allowed.value
    && (forall x | x in c.allowed.value :: x in c.discovered && x > 0)
  }

  predicate ConnectorOk(c: Connector) {
    && Discovery(c.discovered) && (c.default.Some? ==> c.default.value > 0)
    && (c.status.Active? ==> Committed(c) && c.handle.None?)
    && (c.status.Pending? ==> if c.consumed.Some? then Committed(c) else c.allowed.None? && c.default.None?)
  }

  ghost predicate Granting(db: Db, id: string) {
    exists g :: g in db.grants && db.grants[g].connector == id && db.grants[g].active
  }

  ghost predicate ConnectorsOk(db: Db) {
    && (forall id | id in db.connectors :: ConnectorOk(db.connectors[id]))
    && (forall id | id in db.connectors && db.connectors[id].status.Active? :: Granting(db, id))
    && (forall a, b | a in db.connectors && b in db.connectors && a != b ::
          db.connectors[a].handle.Some? ==> db.connectors[a].handle != db.connectors[b].handle)
  }

  predicate TokenOk(db: Db, t: string)
    requires t in db.tokens
  {
    var row := db.tokens[t];
    && row.grant in db.grants && row.scopes != {} && row.scopes <= db.grants[row.grant].scopes
    && (!db.grants[row.grant].active ==> row.revoked)
  }

  ghost predicate TokensOk(db: Db) {
    && (forall t | t in db.tokens :: TokenOk(db, t))
    && (forall t, u | t in db.tokens && u in db.tokens ::
          (db.tokens[t].grant == db.tokens[u].grant && db.tokens[t].kind == db.tokens[u].kind
           && db.tokens[t].Live() && db.tokens[u].Live()) ==> t == u)
  }

  /** The grant a session was activated into. */
  predicate GrantFor(db: Db, s: Session, g: string) {
    && g in db.grants && s.connector == Some(db.grants[g].connector)
    && db.grants[g].client == s.client && db.grants[g].scopes == s.scopes
  }

  /** No token was issued under the session's grant. */
  ghost predicate Unspent(db: Db, s: Session) {
    forall t | t in db.tokens :: !GrantFor(db, s, db.tokens[t].grant)
  }

  ghost predicate SessionOk(db: Db, h: string)
    requires h in db.sessions
  {
    var s := db.sessions[h];
    && s.client in db.clients && s.scopes != {}
    && (s.superseded.Some? ==>
          && s.superseded.value in db.connectors
          && (db.connectors[s.superseded.value].status.Active? || db.connectors[s.superseded.value].status.Revoked?))
    && (s.status.Waiting? ==> s.code.None?)
    && (!s.status.Waiting? ==> s.code.Some? && s.connector.Some? && exists g :: GrantFor(db, s, g))
    && (s.status.Authorized? ==> Unspent(db, s))
  }

  ghost predicate SessionsOk(db: Db) {
    && (forall h | h in db.sessions :: SessionOk(db, h))
    && (forall h, k | h in db.sessions && k in db.sessions && h != k ::
          && !db.sessions[h].status.Waiting? && !db.sessions[k].status.Waiting?
          ==> db.sessions[h].connector != db.sessions[k].connector)
    && (forall h, k | h in db.sessions && k in db.sessions && h != k ::
          db.sessions[h].code.Some? ==> db.sessions[h].code != db.sessions[k].code)
  }

  ghost predicate Inv(db: Db) {
    GrantsOk(db) && ConnectorsOk(db) && TokensOk(db) && SessionsOk(db)
  }

  const EMPTY: Db := Db({}, map[], map[], map[], map[])
}
