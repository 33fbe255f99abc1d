/**
 One guarded write as a small-step machine: the program counter names the await or the storage
 transaction the run stands at, and an input says how that await or transaction ends.
 */
module WriteRuns {
  import opened Wrappers
  import opened JsonValues
  import opened AuditEvents
  import opened ExecutionJournals
  import opened Replies

  datatype Binding = Binding(
    tenant: string, subject: string, client: string, permissions: set<string>,
    companies: set<int>, database: string, user: string)

  datatype Risk = Read | DraftWrite | ConfirmWrite

  /** The registry entry of a tool; a hint may be missing. */
  datatype Definition = Definition(
    name: string, version: string, risk: Risk, permission: string, capability: Option<string>,
    readOnly: Option<bool>, destructive: Option<bool>, idempotent: Option<bool>, openWorld: Option<bool>)
  {
    predicate WriteCapable() {
      && !risk.Read?
      && (if risk.DraftWrite? then destructive.Some? else destructive == Some(true))
      && readOnly == Some(false) && idempotent == Some(true) && openWorld == Some(true)
    }
  }

  datatype Capabilities = Capabilities(version: string, transport: string, modules: map<string, bool>)

  /** An error whose code is one of the public codes, as the source's error class has it. */
  type SafeError = e: ErrorInfo | PublicCode(e.code) witness ErrorInfo("UNKNOWN_ERROR", "", "")

  /** The arguments of one call of the coordinator, with the request id it selected. */
  datatype Call = Call(
    binding: Binding, definition: Definition, moduleName: string, snapshot: Capabilities,
    command: Command, requestId: string, preflight: Option<SafeError>)
  {
    function Key(): RowKey {
      RowKey(binding.tenant, definition.name, if command.key.Some? then command.key.value else "")
    }
  }

  datatype CallbackEnd<+T> =
    | Returned(value: T) | Cancelled | RaisedKnownFailure(known: SafeError)
    | RaisedDenial(denial: SafeError) | RaisedOther

  // ---------- Errors ----------

  const RESERVED_FIELDS: set<string> := {"company_id", "dry_run", "idempotency_key"}

  /** Message and hint are abbreviated; nothing reads them. */
  function Coded(code: string, message: string, hint: string): SafeError
    requires PublicCode(code)
  {
    ErrorInfo(code, message, hint)
  }

  function UnexpectedError(): SafeError {
    Coded("UNKNOWN_ERROR", "failed before change", "correct and retry")
  }

  function CancelledError(): SafeError {
    Coded("UNKNOWN_ERROR", "cancelled before change", "use a new key")
  }

  function UnknownOutcomeError(): SafeError {
    Coded("UNKNOWN_ERROR", "outcome unknown", "do not retry")
  }

  function NotExplicitError(): SafeError {
    Coded("EXECUTION_NOT_EXPLICIT", "key required", "submit a stable key")
  }

  function MismatchError(): SafeError {
    Coded("IDEMPOTENCY_KEY_PAYLOAD_MISMATCH", "key already used", "use a new key")
  }

  function BusyError(): SafeError {
    Coded("CONCURRENT_OPERATION_IN_PROGRESS", "already in progress", "wait or replay")
  }

  /** The policy gates, in order. */
  function GateError(c: Call): Option<SafeError> {
    if RESERVED_FIELDS * c.command.payload.Keys != {} then
      Some(Coded("INVALID_INPUT", "reserved field", "remove it"))
    else if c.command.company <= 0 then
      Some(Coded("INVALID_INPUT", "invalid company", "use a positive id"))
    else if c.definition.permission !in c.binding.permissions then
      Some(Coded("ODOO_AUTH_FAILED", "not authorized", "reconnect"))
    else if c.command.company !in c.binding.companies then
      Some(Coded("COMPANY_NOT_FOUND", "company not authorized", "use another"))
    else if c.definition.capability.Some?
         && !(c.definition.capability.value in c.snapshot.modules
              && c.snapshot.modules[c.definition.capability.value]) then
      Some(Coded("CAPABILITY_NOT_AVAILABLE", "unavailable", "enable the module"))
    else None
  }

  // ---------- Audit events of a run ----------

  /** The idempotency state an event claims when the tool logs a projection of its input. */
  function ClaimedState(c: Call, status: FinalStatus, reply: Option<Reply>): string {
    if status == Attempted then "in_progress"
    else if status in {Rejected, Conflicted, Previewed} || reply.None? then "not_reserved"
    else if reply.value.outcome == WriteOutcome.Unknown then "unknown"
    else if reply.value.status == WriteStatus.Succeeded then "succeeded"
    else if !c.command.dryRun && c.command.key.Some? && c.command.key.value != "" then "failed"
    else "not_reserved"
  }

  function EventInput(c: Call, status: FinalStatus, reply: Option<Reply>): Mapping {
    if c.command.audit.None? then
      c.command.payload + map["company_id" := Num(c.command.company),
                              "dry_run" := Bool(c.command.dryRun),
                              "idempotency_key" := OptText(c.command.key)]
    else
      c.command.audit.value + map["company_id" := Num(c.command.company),
                                  "dry_run" := Bool(c.command.dryRun),
                                  "idempotency_state" := Str(ClaimedState(c, status, reply))]
  }

  function EventOf(c: Call, status: FinalStatus, reply: Option<Reply>, action: Option<Mapping>,
                   refs: seq<string>): AuditEvent
  {
    var failed := reply.Some? && reply.value.status == WriteStatus.Failed;
    AuditEvent(
      c.requestId, c.binding.tenant, if c.command.company > 0 then Some(c.command.company) else None,
      c.definition.name, c.definition.version, c.moduleName, c.binding.subject, c.binding.client,
      Some(c.binding.database), Some(c.binding.user), Some(c.snapshot.version),
      Some(c.snapshot.transport), EventInput(c, status, reply), c.command.dryRun,
      if action.None? then None else Some(Filtered(action.value, c.command.actionKeys)),
      if reply.None? then None else Some(Persist(c.command, reply.value)),
      refs, if failed then reply.value.error else None, if failed then reply.value.message else None,
      status)
  }

  function AttemptAction(c: Call): Option<Mapping> {
    Some(map["tool" := Str(c.definition.name),
             "risk_level" := Str(if c.definition.risk.DraftWrite? then "draft_write" else "confirm_write")])
  }

  function AttemptEvent(c: Call): AuditEvent {
    EventOf(c, Attempted, None, AttemptAction(c), [])
  }

  // ---------- The machine ----------

  datatype End = Replied(reply: Reply) | Raised

  /** The outcome transaction a run is about to make, and what it answers if that is lost. */
  datatype Outcome = Outcome(
    state: RowState, status: FinalStatus, reply: Reply, action: Option<Mapping>, refs: seq<string>,
    onLoss: Reply, raises: bool)

  datatype Pc =
    | DryPreparing
    | Auditing(status: FinalStatus, reply: Reply, raises: bool)
    | Beginning
    | Preparing
    | Validating(prepared: PreparedWrite)
    | Executing(prepared: PreparedWrite)
    | Finishing(outcome: Outcome)
    | Done(end: End)
    | Crashed

  /** How `execute` ended, once entered. */
  datatype Attempt = AppliedOk(applied: AppliedWrite) | ProvedRejected | Indeterminate

  /** A run, with history variables: its reservation clock, its execution, and what it stored. */
  datatype Run = Run(
    call: Call,
    pc: Pc,
    slot: Option<int>,
    entered: bool,
    attempt: Option<Attempt>,
    stored: Option<(RowState, Reply)>,
    replayed: bool)

  datatype Input =
    | PrepareEnds(prepare: CallbackEnd<PreparedWrite>)
    | BeginAt(now: int, beginFault: Fault)
    | ValidateEnds(validate: CallbackEnd<()>)
    | ExecuteEnds(execute: CallbackEnd<AppliedWrite>)
    | CommitEnds(fault: Fault)
    | Crash

  function Refusal(c: Call, e: SafeError, outcome: WriteOutcome, prepared: Option<PreparedWrite>): (r: Reply)
    ensures r.status.Failed? && r.outcome == outcome && r.requestId == c.requestId && r.Valid()
  {
    FailureReply(e, c.requestId, c.command.company, outcome, prepared)
  }

  function NotAttemptedReply(c: Call, e: SafeError): (r: Reply)
    ensures r.status.Failed? && r.outcome.NotAttempted? && r.requestId == c.requestId && r.Valid()
  {
    Refusal(c, e, NotAttempted, None)
  }

  predicate HasKey(c: Command) {
    c.key.Some? && !IsBlank(c.key.value)
  }

  /** Everything before the first await: metadata check, gates, and the explicit-key check. */
  function Entry(c: Call): Pc {
    if !c.definition.WriteCapable() then Done(Raised)
    else if c.preflight.Some? then Auditing(Rejected, NotAttemptedReply(c, c.preflight.value), false)
    else if GateError(c).Some? then Auditing(Rejected, NotAttemptedReply(c, GateError(c).value), false)
    else if c.command.dryRun then DryPreparing
    else if !HasKey(c.command) then Auditing(Rejected, NotAttemptedReply(c, NotExplicitError()), false)
    else Beginning
  }

  /** A run with no history yet. */
  function At(c: Call, pc: Pc): Run {
    Run(c, pc, None, false, None, None, false)
  }

  function Start(c: Call): Run {
    At(c, Entry(c))
  }

  /** The error a callback that did not return stands for before the write. */
  function PreWriteError<T>(end: CallbackEnd<T>): SafeError {
    match end
    case Cancelled => CancelledError()
    case RaisedDenial(e) => e
    case _ => UnexpectedError()
  }

  function PreWriteFailure<T>(c: Call, end: CallbackEnd<T>, prepared: Option<PreparedWrite>): Outcome {
    var reply := Refusal(c, PreWriteError(end), NotAttempted, prepared);
    Outcome(RowState.Failed, FinalStatus.Failed, reply,
            if prepared.None? then None else Some(prepared.value.action), [], reply, end.Cancelled?)
  }

  function UnknownOutcome(c: Call, p: PreparedWrite, raises: bool): Outcome {
    var reply := Refusal(c, UnknownOutcomeError(), WriteOutcome.Unknown, Some(p));
    Outcome(RowState.Unknown, FinalStatus.Unknown, reply, Some(p.action), [], reply, raises)
  }

  function ExecuteOutcome(c: Call, p: PreparedWrite, end: CallbackEnd<AppliedWrite>): Outcome {
    match end
    case Returned(a) =>
      Outcome(RowState.Succeeded, FinalStatus.Succeeded, AppliedReply(p, a, c.requestId, c.command.company),
              Some(p.action), a.refs, Refusal(c, UnknownOutcomeError(), WriteOutcome.Unknown, Some(p)), false)
    case RaisedKnownFailure(e) =>
      var reply := Refusal(c, e, Known, Some(p));
      Outcome(RowState.Failed, FinalStatus.Failed, reply, Some(p.action), [], reply, false)
    case Cancelled => UnknownOutcome(c, p, true)
    case _ => UnknownOutcome(c, p, false)
  }

  function AttemptOf(end: CallbackEnd<AppliedWrite>): Attempt {
    match end
    case Returned(a) => AppliedOk(a)
    case RaisedKnownFailure(_) => ProvedRejected
    case _ => Indeterminate
  }

  function DryPrepared(c: Call, end: CallbackEnd<PreparedWrite>): Pc {
    match end
    case Returned(p) =>
      Auditing(if p.needsInput then FinalStatus.NeedsInput else Previewed,
               PreparedReply(p, c.requestId, c.command.company), false)
    case _ => Auditing(FinalStatus.Failed, NotAttemptedReply(c, PreWriteError(end)), end.Cancelled?)
  }

  function Prepared(c: Call, end: CallbackEnd<PreparedWrite>): Pc {
    match end
    case Returned(p) =>
      if p.needsInput then
        var reply := PreparedReply(p, c.requestId, c.command.company);
        Finishing(Outcome(RowState.Failed, FinalStatus.NeedsInput, reply, Some(p.action), [], reply, false))
      else Validating(p)
    case _ => Finishing(PreWriteFailure(c, end, None))
  }

  /** Where a run goes once its reservation transaction has answered. */
  function Begun(c: Call, r: Result<Decision, StorageError>): (Pc, bool) {
    match r
    case Err(PayloadMismatch) => (Auditing(Conflicted, NotAttemptedReply(c, MismatchError()), false), false)
    case Err(_) => (Done(Replied(NotAttemptedReply(c, UnexpectedError()))), false)
    case Ok(d) =>
      match d.disposition
      case Reserved => (Preparing, false)
      case Busy => (Auditing(Conflicted, NotAttemptedReply(c, BusyError()), false), false)
      case Replay =>
        match Restore(c.command, d.response)
        case None => (Done(Replied(NotAttemptedReply(c, UnexpectedError()))), false)
        case Some(reply) => (Auditing(Replayed, reply, false), true)
  }

  function BeginOf(s: Store, c: Call, now: int): Result<(Store, Decision), StorageError> {
    BeginTx(s, AttemptEvent(c), c.Key().key, c.command.payload, now)
  }

  function OutcomeEvent(c: Call, o: Outcome): AuditEvent {
    EventOf(c, o.status, Some(o.reply), o.action, o.refs)
  }

  function FinishOf(s: Store, c: Call, o: Outcome): Result<(Store, ()), StorageError> {
    FinishTx(s, OutcomeEvent(c, o), c.Key().key, o.state, Some(Persist(c.command, o.reply)))
  }

  function AppendOf(s: Store, c: Call, status: FinalStatus, reply: Reply): Result<(Store, ()), StorageError> {
    AppendTx(s, EventOf(c, status, Some(reply), None, []))
  }

  function AuditEnd(c: Call, reply: Reply, raises: bool, r: Result<(), StorageError>): End {
    if raises then Raised
    else if r.Ok? then Replied(reply)
    else Replied(FailureReply(UnexpectedError(), reply.requestId, reply.company, NotAttempted, None))
  }

  function FinishEnd(o: Outcome, r: Result<(), StorageError>): End {
    if o.raises then Raised else if r.Ok? then Replied(o.reply) else Replied(o.onLoss)
  }

  /** Whether a transaction took effect, whatever its caller was told. */
  predicate TookEffect<T>(tx: Result<(Store, T), StorageError>, fault: Fault) {
    tx.Ok? && fault != LostBefore
  }

  function AfterAudit(s: Store, r: Run, status: FinalStatus, reply: Reply, raises: bool, fault: Fault)
    : (n: (Store, Run))
    ensures n.1.call == r.call && n.1.slot == r.slot && n.1.stored == r.stored
    ensures n.0.rows == s.rows
  {
    var (after, result) := Committed(s, AppendOf(s, r.call, status, reply), fault);
    (after, r.(pc := Done(AuditEnd(r.call, reply, raises, result))))
  }

  function AfterBegin(s: Store, r: Run, now: int, fault: Fault): (n: (Store, Run))
    ensures n.1.call == r.call && n.1.stored == r.stored
  {
    var tx := BeginOf(s, r.call, now);
    var (after, result) := Committed(s, tx, fault);
    var (next, replayed) := Begun(r.call, result);
    (after, r.(pc := next, replayed := replayed,
               slot := if TookEffect(tx, fault) && tx.value.1.disposition == Reserved then Some(now) else None))
  }

  function AfterFinish(s: Store, r: Run, o: Outcome, fault: Fault): (n: (Store, Run))
    ensures n.1.call == r.call && n.1.slot == r.slot
  {
    var tx := FinishOf(s, r.call, o);
    var (after, result) := Committed(s, tx, fault);
    (after, r.(pc := Done(FinishEnd(o, result)),
               stored := if TookEffect(tx, fault) then Some((o.state, o.reply))
                         else r.stored))
  }

  /** One step of a run; None when the input is not one the run waits for. */
  function Advance(s: Store, r: Run, input: Input): Option<(Store, Run)> {
    match (r.pc, input)
    case (Done(_), _) => None
    case (Crashed, _) => None
    case (_, Crash) => Some((s, r.(pc := Crashed)))
    case (DryPreparing, PrepareEnds(end)) => Some((s, r.(pc := DryPrepared(r.call, end))))
    case (Auditing(status, reply, raises), CommitEnds(fault)) =>
      Some(AfterAudit(s, r, status, reply, raises, fault))
    case (Beginning, BeginAt(now, fault)) => Some(AfterBegin(s, r, now, fault))
    case (Preparing, PrepareEnds(end)) => Some((s, r.(pc := Prepared(r.call, end))))
    case (Validating(p), ValidateEnds(end)) =>
      if end.Returned? then Some((s, r.(pc := Executing(p), entered := true)))
      else Some((s, r.(pc := Finishing(PreWriteFailure(r.call, end, Some(p))))))
    case (Executing(p), ExecuteEnds(end)) =>
      Some((s, r.(pc := Finishing(ExecuteOutcome(r.call, p, end)), attempt := Some(AttemptOf(end)))))
    case (Finishing(o), CommitEnds(fault)) => Some(AfterFinish(s, r, o, fault))
    case _ => None
  }
}
