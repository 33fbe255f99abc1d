/**
 The five linked authority tables, and the statements that change them. A statement answers None when
 a trigger, a check or a foreign key aborts it. A stored hash stands for the value it is taken of.
 */
module AuthorityTables {
  import opened Wrappers

  datatype ConnectorStatus = Pending | Active | Revoked | Expired

  datatype Connector = Connector(
    tenant: string,
    profile: string,
    discovered: seq<int>,
    allowed: Option<seq<int>>,
    default: Option<int>,
    status: ConnectorStatus,
    handle: Option<string>,
    consumed: Option<string>,
    expires: int)

  datatype SessionStatus = Waiting | Authorized | Consumed

  datatype Session = Session(
    client: string,
    connector: Option<string>,
    superseded: Option<string>,
    scopes: set<string>,
    code: Option<string>,
    status: SessionStatus,
    expires: int)

  datatype Grant = Grant(connector: string, tenant: string, client: string, scopes: set<string>, active: bool)

  datatype TokenKind = Access | Refresh

  datatype Token = Token(
    grant: string, kind: TokenKind, scopes: set<string>, expires: int, rotated: bool, revoked: bool)
  {
    /** Neither rotated nor revoked, whatever its expiry. */
    predicate Live() { !rotated && !revoked }
  }

  datatype Db = Db(
    clients: set<string>,
    sessions: map<string, Session>,
    grants: map<string, Grant>,
    tokens: map<string, Token>,
    connectors: map<string, Connector>)

  // ---------- Triggers and checks ----------

  predicate LegalConnector(from: ConnectorStatus, to: ConnectorStatus) {
    || from == to
    || (from.Pending? && (to.Active? || to.Expired? || to.Revoked?))
    || (from.Active? && to.Revoked?)
  }

  predicate LegalSession(from: SessionStatus, to: SessionStatus) {
    from == to || (from.Waiting? && to.Authorized?) || (from.Authorized? && to.Consumed?)
  }

  /** What an active row must hold of its own. */
  predicate AuthorityComplete(c: Connector) {
    c.allowed.Some? && c.default.Some? && c.handle.None? && c.consumed.Some?
  }

  predicate HasActiveGrant(db: Db, id: string, tenant: string) {
    exists g | g in db.grants ::
      db.grants[g].connector == id && db.grants[g].tenant == tenant && db.grants[g].active
  }

  /** The four update triggers and the CHECK on one connector row. */
  predicate ConnectorUpdateAllowed(db: Db, id: string, was: Connector, now: Connector) {
    && LegalConnector(was.status, now.status)
    && (now.status.Active? && !was.status.Active? ==>
          AuthorityComplete(now) && HasActiveGrant(db, id, now.tenant))
    && (now.status.Active? && was.status.Active? ==> AuthorityComplete(now))
    && (now.default.Some? ==> now.default.value > 0)
  }

  predicate ActiveConnectorAt(db: Db, id: string, tenant: string) {
    id in db.connectors && db.connectors[id].tenant == tenant && db.connectors[id].status.Active?
  }

  /**
   What the triggers on connector rows admit: an ended row never changes its status and an active one only
   ends, and a row is or becomes active only with a selection, its handle given up, and an active grant.
   */
  lemma ConnectorTriggers(db: Db, id: string, was: Connector, now: Connector)
    requires ConnectorUpdateAllowed(db, id, was, now)
    ensures was.status in {Revoked, Expired} ==> now.status == was.status
    ensures was.status == Active ==> now.status in {Active, Revoked}
    ensures now.status == Active ==>
      now.allowed.Some? && now.default.Some? && now.handle.None? && now.consumed.Some?
    ensures now.status == Active && was.status != Active ==>
      exists g :: g in db.grants && db.grants[g].connector == id && db.grants[g].tenant == now.tenant
                  && db.grants[g].active
    ensures now.default.Some? ==> now.default.value > 0
  {
  }

  /** Token and grant rows stay within what they are issued under. */
  lemma RowTriggers(db: Db, hash: string, token: Token, id: string, grant: Grant)
    ensures InsertToken(db, hash, token).Some? <==>
      && hash !in db.tokens && token.grant in db.grants && token.scopes != {}
      && forall s | s in token.scopes :: s in db.grants[token.grant].scopes
    ensures InsertGrant(db, id, grant).Some? <==>
      && id !in db.grants && grant.client in db.clients && grant.connector in db.connectors
      && db.connectors[grant.connector].tenant == grant.tenant
  {
  }

  // ---------- Statements ----------

  function InsertConnector(db: Db, id: string, row: Connector): Option<Db> {
    if row.status.Active? || (row.default.Some? && row.default.value <= 0) || id in db.connectors then None
    else Some(db.(connectors := db.connectors[id := row]))
  }

  /** UPDATE of the connector rows `now`, all present before. */
  function UpdateConnectors(db: Db, now: map<string, Connector>): Option<Db> {
    if now.Keys <= db.connectors.Keys
       && forall id | id in now :: ConnectorUpdateAllowed(db, id, db.connectors[id], now[id])
    then Some(db.(connectors := db.connectors + now))
    else None
  }

  function DeleteConnector(db: Db, id: string): Option<Db> {
    if exists g | g in db.grants :: db.grants[g].connector == id then None
    else Some(db.(connectors := db.connectors - {id}))
  }

  function InsertGrant(db: Db, id: string, row: Grant): Option<Db> {
    if id in db.grants || row.client !in db.clients || row.connector !in db.connectors
       || db.connectors[row.connector].tenant != row.tenant then None
    else Some(db.(grants := db.grants[id := row]))
  }

  /** UPDATE of grant status to revoked; an active connector keeps its grant. */
  function RevokeGrants(db: Db, ids: set<string>): Option<Db> {
    if ids <= db.grants.Keys
       && forall g | g in ids ::
            db.grants[g].active && !ActiveConnectorAt(db, db.grants[g].connector, db.grants[g].tenant)
    then Some(db.(grants := map g | g in db.grants ::
                              if g in ids then db.grants[g].(active := false) else db.grants[g]))
    else None
  }

  predicate ScopesAllowed(db: Db, grant: string, scopes: set<string>) {
    grant in db.grants && scopes != {} && scopes <= db.grants[grant].scopes
  }

  function InsertToken(db: Db, hash: string, row: Token): Option<Db> {
    if hash in db.tokens || !ScopesAllowed(db, row.grant, row.scopes) then None
    else Some(db.(tokens := db.tokens[hash := row]))
  }

  function UpdateSession(db: Db, id: string, row: Session): Option<Db> {
    if id in db.sessions && LegalSession(db.sessions[id].status, row.status)
    then Some(db.(sessions := db.sessions[id := row]))
    else None
  }

  /** UPDATE of revoked_at over all live-or-rotated tokens of a set of grants; scopes are not touched. */
  function RevokeTokens(db: Db, grants: set<string>, kinds: set<TokenKind>): Db {
    db.(tokens := map t | t in db.tokens ::
          if db.tokens[t].grant in grants && db.tokens[t].kind in kinds then db.tokens[t].(revoked := true)
          else db.tokens[t])
  }
}
