/** The audit event, as every part of the server hands it to the audit log. */
module AuditEvents {
  import opened Wrappers
  import opened JsonValues

  datatype FinalStatus =
    | Attempted | Succeeded | Failed | NeedsInput | Unknown
    | Rejected | Conflicted | Previewed | Replayed

  datatype AuditEvent = AuditEvent(
    requestId: string,
    tenant: string,
    company: Option<int>,
    tool: string,
    toolVersion: string,
    moduleName: string,
    subject: string,
    client: string,
    database: Option<string>,
    user: Option<string>,
    version: Option<string>,
    transport: Option<string>,
    input: Mapping,
    dryRun: bool,
    action: Option<Mapping>,
    result: Option<Mapping>,
    refs: seq<string>,
    errorCode: Option<string>,
    errorMessage: Option<string>,
    status: FinalStatus)

  /** The checks an append makes before it writes; a failing check raises. */
  predicate Appendable(e: AuditEvent) {
    && !IsBlank(e.requestId) && !IsBlank(e.tenant) && !IsBlank(e.tool) && !IsBlank(e.toolVersion)
    && !IsBlank(e.moduleName) && !IsBlank(e.subject) && !IsBlank(e.client)
    && (e.company.Some? ==> e.company.value > 0)
  }
}

/** Idempotency rows and audit events, changed together in one transaction. */
module ExecutionJournals {
  import opened Wrappers
  import opened JsonValues
  import opened AuditEvents

  /** 24 hours in microseconds, the resolution of stored timestamps. */
  const TTL: int := 24 * 3600 * 1000000

  datatype RowState = InProgress | Succeeded | Failed | Unknown

  datatype RowKey = RowKey(tenant: string, tool: string, key: string)

  /** What the request hash is taken of. The hash is taken as collision free, so this stands for it. */
  datatype BoundRequest = BoundRequest(company: int, payload: Mapping)

  datatype Row = Row(
    company: int,
    request: BoundRequest,
    state: RowState,
    owner: string,
    response: Option<Mapping>,
    expires: int)

  type Rows = map<RowKey, Row>

  datatype Store = Store(rows: Rows, log: seq<AuditEvent>)

  datatype Disposition = Reserved | Busy | Replay

  datatype Decision = Decision(
    disposition: Disposition, state: RowState, owner: string, response: Option<Mapping>, expires: int)

  datatype StorageError = InvalidField | PayloadMismatch | InvalidTransition | AppendRefused | CommitFailed

  /** How a transaction's commit ends: done, lost with a rollback, or done but reported as lost. */
  datatype Fault = NoFault | LostBefore | LostAfter

  predicate Replayable(row: Row) {
    (row.state == InProgress) == row.response.None?
  }

  predicate Reusable(row: Row, now: int) {
    row.expires <= now && (row.state.Succeeded? || row.state.Failed?)
  }

  predicate FieldsPresent(k: RowKey, company: int, owner: string) {
    !IsBlank(k.tenant) && company > 0 && !IsBlank(k.tool) && !IsBlank(k.key) && !IsBlank(owner)
  }

  function FreshRow(request: BoundRequest, owner: string, now: int): Row {
    Row(request.company, request, InProgress, owner, None, now + TTL)
  }

  function ReserveIn(rows: Rows, k: RowKey, request: BoundRequest, owner: string, now: int)
    : Result<(Rows, Decision), StorageError>
  {
    if !FieldsPresent(k, request.company, owner) then Err(InvalidField)
    else if k in rows && !Replayable(rows[k]) then Err(InvalidTransition)
    else if k !in rows || Reusable(rows[k], now) then
      Ok((rows[k := FreshRow(request, owner, now)],
          Decision(Reserved, InProgress, owner, None, now + TTL)))
    else if rows[k].request != request then Err(PayloadMismatch)
    else
      var row := rows[k];
      Ok((rows, Decision(if row.state == InProgress then Busy else Replay,
                         row.state, row.owner, row.response, row.expires)))
  }

  /**
   What a reservation answers, and what it leaves: the key is taken when it is free or its row ended more than
   its lifetime ago; otherwise a different company or payload is a mismatch, and an equal one is told how its
   row stands. Refused are blank fields, and rows that hold a response while in progress or none after.
   */
  lemma ReserveAnswers(rows: Rows, k: RowKey, company: int, payload: Mapping, owner: string, now: int)
    ensures var r := ReserveIn(rows, k, BoundRequest(company, payload), owner, now);
      var present := company > 0 && !IsBlank(k.tenant) && !IsBlank(k.tool) && !IsBlank(k.key) && !IsBlank(owner);
      var sound := k in rows ==> (rows[k].state == InProgress <==> rows[k].response == None);
      var free := k !in rows
        || ((rows[k].state == RowState.Succeeded || rows[k].state == RowState.Failed) && rows[k].expires <= now);
      var same := k in rows && rows[k].request.company == company && rows[k].request.payload == payload;
      && (r == Err(InvalidField) <==> !present)
      && (r == Err(InvalidTransition) <==> present && !sound)
      && (r == Err(PayloadMismatch) <==> present && sound && !free && !same)
      && (r.Ok? <==> present && sound && (free || same))
      && (r.Ok? && free ==>
            && r.value.0 == rows[k := Row(company, BoundRequest(company, payload), InProgress, owner, None,
                                          now + 24 * 3600 * 1000000)]
            && r.value.1 == Decision(Reserved, InProgress, owner, None, now + 24 * 3600 * 1000000))
      && (r.Ok? && !free ==>
            && r.value.0 == rows
            && (r.value.1.disposition == Busy <==> rows[k].state == InProgress)
            && (r.value.1.disposition == Replay <==> rows[k].state != InProgress)
            && r.value.1.state == rows[k].state && r.value.1.owner == rows[k].owner
            && r.value.1.response == rows[k].response && r.value.1.expires == rows[k].expires)
  {
    hide IsBlank;
  }

  /** The rows the outcome UPDATE matches. */
  predicate Owned(rows: Rows, k: RowKey, company: int, owner: string) {
    k in rows && rows[k].company == company && rows[k].owner == owner && rows[k].state == InProgress
  }

  function FinishIn(rows: Rows, k: RowKey, company: int, owner: string, state: RowState,
                    response: Option<Mapping>): Result<Rows, StorageError>
  {
    if !FieldsPresent(k, company, owner) then Err(InvalidField)
    else if state == InProgress || response.None? then Err(InvalidTransition)
    else if !Owned(rows, k, company, owner) then Err(InvalidTransition)
    else Ok(rows[k := rows[k].(state := state, response := response)])
  }

  /** An outcome is stored by the owner of the key's in-progress row only, once, with a response. */
  lemma FinishAnswers(rows: Rows, k: RowKey, company: int, owner: string, state: RowState, response: Option<Mapping>)
    ensures var r := FinishIn(rows, k, company, owner, state, response);
      var present := company > 0 && !IsBlank(k.tenant) && !IsBlank(k.tool) && !IsBlank(k.key) && !IsBlank(owner);
      var owned := k in rows && rows[k].state == InProgress && rows[k].owner == owner && rows[k].company == company;
      && (r == Err(InvalidField) <==> !present)
      && (r.Ok? <==> present && state != InProgress && response != None && owned)
      && (r.Err? && present ==> r == Err(InvalidTransition))
      && (r.Ok? ==> r.value == rows[k := Row(company, rows[k].request, state, owner, response, rows[k].expires)])
  {
    hide IsBlank;
  }

  function AppendTx(s: Store, e: AuditEvent): Result<(Store, ()), StorageError> {
    if !Appendable(e) then Err(AppendRefused) else Ok((s.(log := s.log + [e]), ()))
  }

  function BeginTx(s: Store, e: AuditEvent, key: string, payload: Mapping, now: int)
    : Result<(Store, Decision), StorageError>
  {
    if e.company.None? then Err(InvalidField)
    else
      match ReserveIn(s.rows, RowKey(e.tenant, e.tool, key), BoundRequest(e.company.value, payload),
                      e.requestId, now)
      case Err(error) => Err(error)
      case Ok((rows, d)) =>
        if d.disposition != Reserved then Ok((s, d))
        else if !Appendable(e) then Err(AppendRefused)
        else Ok((Store(rows, s.log + [e]), d))
  }

  function FinishTx(s: Store, e: AuditEvent, key: string, state: RowState, response: Option<Mapping>)
    : Result<(Store, ()), StorageError>
  {
    if e.company.None? then Err(InvalidField)
    else
      match FinishIn(s.rows, RowKey(e.tenant, e.tool, key), e.company.value, e.requestId, state, response)
      case Err(error) => Err(error)
      case Ok(rows) =>
        if !Appendable(e) then Err(AppendRefused) else Ok((Store(rows, s.log + [e]), ()))
  }

  /** A transaction body that fails is rolled back; one that succeeds is committed unless that is lost. */
  function Committed<T>(s: Store, tx: Result<(Store, T), StorageError>, fault: Fault)
    : (Store, Result<T, StorageError>)
  {
    match tx
    case Err(error) => (s, Err(error))
    case Ok((after, value)) =>
      match fault
      case NoFault => (after, Ok(value))
      case LostBefore => (s, Err(CommitFailed))
      case LostAfter => (after, Err(CommitFailed))
  }

  /** The journal object: each method is one write transaction over the two tables. */
  class ExecutionJournal {
    var rows: Rows
    var log: seq<AuditEvent>

    function Snapshot(): Store
      reads this
    {
      Store(rows, log)
    }

    constructor ()
      ensures Snapshot() == Store(map[], [])
    {
      rows, log := map[], [];
    }

    method Append(e: AuditEvent, fault: Fault) returns (r: Result<(), StorageError>)
      modifies this
      ensures (Snapshot(), r) == Committed(old(Snapshot()), AppendTx(old(Snapshot()), e), fault)
    {
      if !Appendable(e) {
        return Err(AppendRefused);
      }
      if fault == LostBefore {
        return Err(CommitFailed);
      }
      log := log + [e];
      r := if fault == NoFault then Ok(()) else Err(CommitFailed);
    }

    /** Reservation: look the row up, drop it when it is final and expired, then insert or decide. */
    method Reserve(k: RowKey, request: BoundRequest, owner: string, now: int)
      returns (r: Result<Decision, StorageError>)
      modifies this`rows
      ensures match ReserveIn(old(rows), k, request, owner, now)
              case Err(e) => r == Err(e) && rows == old(rows)
              case Ok((after, d)) => r == Ok(d) && rows == after
    {
      if !FieldsPresent(k, request.company, owner) {
        return Err(InvalidField);
      }
      var found := if k in rows then Some(rows[k]) else None;
      if found.Some? && !Replayable(found.value) {
        return Err(InvalidTransition);
      }
      if found.Some? && Reusable(found.value, now) {
        rows := rows - {k};
        found := None;
      }
      if found.None? {
        rows := rows[k := FreshRow(request, owner, now)];
        return Ok(Decision(Reserved, InProgress, owner, None, now + TTL));
      }
      if found.value.request != request {
        return Err(PayloadMismatch);
      }
      var disposition := if found.value.state == InProgress then Busy else Replay;
      r := Ok(Decision(disposition, found.value.state, found.value.owner, found.value.response,
                       found.value.expires));
    }

    method Begin(e: AuditEvent, key: string, payload: Mapping, now: int, fault: Fault)
      returns (r: Result<Decision, StorageError>)
      modifies this
      ensures (Snapshot(), r)
           == Committed(old(Snapshot()), BeginTx(old(Snapshot()), e, key, payload, now), fault)
    {
      if e.company.None? {
        return Err(InvalidField);
      }
      var savedRows, savedLog := rows, log;
      r := Reserve(RowKey(e.tenant, e.tool, key), BoundRequest(e.company.value, payload), e.requestId, now);
      if r.Err? {
        return;
      }
      if r.value.disposition == Reserved {
        if !Appendable(e) {
          rows := savedRows;
          return Err(AppendRefused);
        }
        log := log + [e];
      }
      if fault == LostBefore {
        rows, log := savedRows, savedLog;
      }
      if fault != NoFault {
        r := Err(CommitFailed);
      }
    }

    method Finish(e: AuditEvent, key: string, state: RowState, response: Option<Mapping>, fault: Fault)
      returns (r: Result<(), StorageError>)
      modifies this
      ensures (Snapshot(), r)
           == Committed(old(Snapshot()), FinishTx(old(Snapshot()), e, key, state, response), fault)
    {
      if e.company.None? {
        return Err(InvalidField);
      }
      var k := RowKey(e.tenant, e.tool, key);
      if !FieldsPresent(k, e.company.value, e.requestId) {
        return Err(InvalidField);
      }
      if state == InProgress || response.None? {
        return Err(InvalidTransition);
      }
      if !Owned(rows, k, e.company.value, e.requestId) {
        return Err(InvalidTransition);
      }
      var savedRows, savedLog := rows, log;
      rows := rows[k := rows[k].(state := state, response := response)];
      if !Appendable(e) {
        rows := savedRows;
        return Err(AppendRefused);
      }
      log := log + [e];
      if fault == LostBefore {
        rows, log := savedRows, savedLog;
      }
      r := if fault == NoFault then Ok(()) else Err(CommitFailed);
    }
  }
}
