/**
 Any number of guarded writes over one idempotency table and audit log, interleaved in every way,
 with crashes and with transactions that are lost or reported lost. Safety over all such runs.
 */
module WriteSafety {
  import opened Wrappers
  import opened JsonValues
  import opened AuditEvents
  import opened ExecutionJournals
  import opened Replies
  import opened WriteRuns

  /** `holder` and `reservations` are history: who reserved each key last, and every reservation made. */
  datatype System = System(
    store: Store, runs: seq<Run>, holder: map<RowKey, nat>, reservations: seq<nat>)

  datatype Label = Admit(call: Call) | Act(run: nat, input: Input)

  const INITIAL: System := System(Store(map[], []), [], map[], [])

  function Next(s: System, l: Label): System {
    match l
    case Admit(c) => s.(runs := s.runs + [Start(c)])
    case Act(i, input) =>
      if i >= |s.runs| then s
      else
        match Advance(s.store, s.runs[i], input)
        case None => s
        case Some((store, r)) =>
          var reserved := s.runs[i].slot.None? && r.slot.Some?;
          System(store, s.runs[i := r],
                 if reserved then s.holder[r.call.Key() := i] else s.holder,
                 if reserved then s.reservations + [i] else s.reservations)
  }

  function ExecFrom(s: System, labels: seq<Label>): System
    decreases labels
  {
    if labels == [] then s else ExecFrom(Next(s, labels[0]), labels[1..])
  }

  /** The system after any sequence of admissions, steps, crashes and lost commits. */
  function Exec(labels: seq<Label>): System {
    ExecFrom(INITIAL, labels)
  }

  // ---------- What one run keeps ----------

  predicate Admissible(c: Call) {
    && c.definition.WriteCapable() && c.preflight.None? && GateError(c).None?
    && !c.command.dryRun && HasKey(c.command)
  }

  /** What a stored state says about the write is what happened. */
  predicate Truthful(r: Run, state: RowState) {
    match state
    case InProgress => false
    case Succeeded => r.entered && r.attempt.Some? && r.attempt.value.AppliedOk?
    case Failed => !r.entered || r.attempt == Some(ProvedRejected)
    case Unknown => r.entered && r.attempt == Some(Indeterminate)
  }

  /** What an answer says about the write is what happened. */
  predicate ReplyTruthful(r: Run, reply: Reply) {
    && (reply.outcome.NotAttempted? ==> !r.entered && !reply.status.Succeeded?)
    && (reply.outcome.Known? ==>
          && r.entered && r.attempt.Some?
          && if reply.status.Succeeded? then r.attempt.value.AppliedOk? else r.attempt.value.ProvedRejected?)
    && (reply.outcome.Unknown? ==>
          && r.entered && r.attempt.Some? && !r.attempt.value.ProvedRejected?
          && !reply.status.Succeeded?)
  }

  const OUTCOMES: set<FinalStatus> := {
    FinalStatus.Succeeded, FinalStatus.Failed, FinalStatus.NeedsInput, FinalStatus.Unknown
  }

  /** The audit statuses that report a stored state. */
  function StatusOf(state: RowState): set<FinalStatus> {
    match state
    case InProgress => {}
    case Succeeded => {FinalStatus.Succeeded}
    case Failed => {FinalStatus.Failed, FinalStatus.NeedsInput}
    case Unknown => {FinalStatus.Unknown}
  }

  /** The stored state tells the truth, and the stored reply tells the same. */
  predicate StoredOk(r: Run, state: RowState, reply: Reply) {
    && reply.Valid() && Truthful(r, state) && ReplyTruthful(r, reply)
    && (state.Succeeded? <==> reply.status.Succeeded?)
    && (state.Unknown? <==> reply.outcome.Unknown?)
  }

  predicate OutcomeOk(r: Run, o: Outcome) {
    && o.status in StatusOf(o.state) && StoredOk(r, o.state, o.reply) && ReplyTruthful(r, o.onLoss)
    && !o.onLoss.status.Succeeded?
  }

  predicate Unreserved(r: Run) {
    r.slot.None? && !r.entered && r.attempt.None? && r.stored.None?
  }

  predicate AnswerOk(r: Run, end: End) {
    end.Replied? && !r.replayed ==>
      && ReplyTruthful(r, end.reply)
      && (end.reply.status.Succeeded? ==>
            r.stored == Some((RowState.Succeeded, end.reply)))
  }

  predicate PcOk(r: Run) {
    match r.pc
    case DryPreparing => Unreserved(r) && !r.replayed && r.call.command.dryRun
    case Beginning => Unreserved(r) && !r.replayed && Admissible(r.call)
    case Auditing(status, reply, _) =>
      Unreserved(r) && r.replayed == (status == Replayed) && status != Attempted
      && (status in OUTCOMES ==> r.call.command.dryRun)
      && (!r.replayed ==> reply.outcome.NotAttempted? && !reply.status.Succeeded?)
    case Preparing => r.slot.Some? && !r.entered && r.attempt.None? && r.stored.None?
    case Validating(p) => r.slot.Some? && !r.entered && r.attempt.None? && r.stored.None? && !p.needsInput
    case Executing(p) => r.slot.Some? && r.entered && r.attempt.None? && r.stored.None? && !p.needsInput
    case Finishing(o) => r.slot.Some? && r.stored.None? && OutcomeOk(r, o)
    case Done(end) => AnswerOk(r, end)
    case Crashed => true
  }

  /** The fields an append requires, which all events of one run share. */
  predicate Loggable(c: Call) {
    && !IsBlank(c.requestId) && !IsBlank(c.binding.tenant) && !IsBlank(c.definition.name)
    && !IsBlank(c.definition.version) && !IsBlank(c.moduleName) && !IsBlank(c.binding.subject)
    && !IsBlank(c.binding.client)
  }

  lemma EventIdentity(c: Call, status: FinalStatus, reply: Option<Reply>, action: Option<Mapping>,
                      refs: seq<string>)
    ensures var e := EventOf(c, status, reply, action, refs);
      && e.requestId == c.requestId && e.tenant == c.binding.tenant && e.tool == c.definition.name
      && e.company == (if c.command.company > 0 then Some(c.command.company) else None)
      && e.dryRun == c.command.dryRun
      && e.status == status && Appendable(e) == Loggable(c)
      && e.result == if reply.None? then None else Some(Persist(c.command, reply.value))
  {}

  predicate RunOk(r: Run) {
    && PcOk(r)
    && (r.slot.None? ==> Unreserved(r))
    && (r.slot.Some? ==>
          && Admissible(r.call) && !r.replayed && Loggable(r.call)
          && FieldsPresent(r.call.Key(), r.call.command.company, r.call.requestId))
    && (r.attempt.Some? ==> r.entered)
    && (r.stored.Some? ==> r.pc.Done? && StoredOk(r, r.stored.value.0, r.stored.value.1))
  }

  lemma StartOk(c: Call)
    ensures RunOk(Start(c))
  {
    hide GateError, NotExplicitError, Loggable, FieldsPresent;
  }

  lemma ExecuteOutcomeOk(r: Run, p: PreparedWrite, end: CallbackEnd<AppliedWrite>)
    requires r.entered && r.attempt == Some(AttemptOf(end))
    ensures OutcomeOk(r, ExecuteOutcome(r.call, p, end))
  {}

  lemma PreWriteFailureOk<T>(r: Run, end: CallbackEnd<T>, prepared: Option<PreparedWrite>)
    requires !r.entered
    ensures OutcomeOk(r, PreWriteFailure(r.call, end, prepared))
  {}

  lemma PreparedOk(r: Run, end: CallbackEnd<PreparedWrite>)
    requires !r.entered
    ensures Prepared(r.call, end).Finishing? ==> OutcomeOk(r, Prepared(r.call, end).outcome)
    ensures Prepared(r.call, end).Finishing?
         || (Prepared(r.call, end).Validating? && !Prepared(r.call, end).prepared.needsInput)
  {
    if !end.Returned? {
      PreWriteFailureOk(r, end, None);
    }
  }

  /** A transaction that answers normally took effect. */
  lemma AnswerMeansEffect<T>(s: Store, tx: Result<(Store, T), StorageError>, fault: Fault)
    ensures Committed(s, tx, fault).1.Ok? ==> TookEffect(tx, fault) && tx.value.1 == Committed(s, tx, fault).1.value
    ensures Committed(s, tx, fault).0 == if TookEffect(tx, fault) then tx.value.0 else s
    ensures TookEffect(tx, fault) && Committed(s, tx, fault).1.Err? ==> Committed(s, tx, fault).1.error == CommitFailed
  {}

  lemma ReservedFields(s: Store, c: Call, now: int)
    requires BeginOf(s, c, now).Ok? && BeginOf(s, c, now).value.1.disposition == Reserved
    requires c.command.key.Some?
    ensures Loggable(c) && FieldsPresent(c.Key(), c.command.company, c.requestId)
  {
    EventIdentity(c, Attempted, None, AttemptAction(c), []);
  }

  predicate StepOk(s: Store, r: Run, input: Input) {
    Advance(s, r, input).Some? ==>
      && RunOk(Advance(s, r, input).value.1)
      && Advance(s, r, input).value.1.call == r.call
  }

  lemma BegunOk(r: Run, result: Result<Decision, StorageError>, slot: Option<int>)
    requires Unreserved(r) && !r.replayed && Admissible(r.call)
    requires slot.Some? ==>
      Loggable(r.call) && FieldsPresent(r.call.Key(), r.call.command.company, r.call.requestId)
    requires result.Ok? && result.value.disposition == Reserved ==> slot.Some?
    requires slot.Some? ==>
      if result.Ok? then result.value.disposition == Reserved else result.error == CommitFailed
    ensures RunOk(r.(pc := Begun(r.call, result).0, replayed := Begun(r.call, result).1, slot := slot))
  {
    hide Restore, NotAttemptedReply, UnexpectedError, MismatchError, BusyError, Loggable, Admissible, FieldsPresent;
    BegunPcOk(r, result, slot);
    hide PcOk;
  }

  lemma NotAttemptedAnswers(r: Run, c: Call, error: SafeError)
    requires !r.entered && r.attempt.None?
    ensures AnswerOk(r, Replied(NotAttemptedReply(c, error)))
  {
  }

  /** The part about where the run stands. */
  lemma BegunPcOk(r: Run, result: Result<Decision, StorageError>, slot: Option<int>)
    requires Unreserved(r) && !r.replayed && Admissible(r.call)
    requires result.Ok? && result.value.disposition == Reserved ==> slot.Some?
    requires slot.Some? ==>
      if result.Ok? then result.value.disposition == Reserved else result.error == CommitFailed
    ensures PcOk(r.(pc := Begun(r.call, result).0, replayed := Begun(r.call, result).1, slot := slot))
  {
    hide Restore, NotAttemptedReply, UnexpectedError, MismatchError, BusyError, Loggable, Admissible, FieldsPresent;
    NotAttemptedAnswers(r.(pc := Begun(r.call, result).0, replayed := Begun(r.call, result).1, slot := slot), r.call,
                        UnexpectedError());
    hide AnswerOk, ReplyTruthful;
  }

  lemma BeginKeepsRun(s: Store, r: Run, now: int, fault: Fault)
    requires RunOk(r) && r.pc.Beginning?
    ensures RunOk(AfterBegin(s, r, now, fault).1)
  {
    assert r.call.command.key.Some?;
    hide BeginOf, Begun, Committed, Admissible, Loggable, FieldsPresent;
    var tx := BeginOf(s, r.call, now);
    AnswerMeansEffect(s, tx, fault);
    var result := Committed(s, tx, fault).1;
    var slot := if TookEffect(tx, fault) && tx.value.1.disposition == Reserved then Some(now) else None;
    if slot.Some? {
      ReservedFields(s, r.call, now);
    }
    BegunOk(r, result, slot);
  }

  lemma AuditKeepsRun(s: Store, r: Run, fault: Fault)
    requires RunOk(r) && r.pc.Auditing?
    ensures RunOk(AfterAudit(s, r, r.pc.status, r.pc.reply, r.pc.raises, fault).1)
  {
    hide AppendOf, Committed, Admissible, Loggable, FieldsPresent;
  }

  lemma FinishedOk(r: Run, o: Outcome, result: Result<(), StorageError>, effect: bool)
    requires RunOk(r) && r.pc == Finishing(o) && (result.Ok? ==> effect)
    ensures RunOk(r.(pc := Done(FinishEnd(o, result)),
                     stored := if effect then Some((o.state, o.reply)) else r.stored))
  {
    hide Persist, Admissible, Loggable, FieldsPresent;
  }

  lemma FinishKeepsRun(s: Store, r: Run, fault: Fault)
    requires RunOk(r) && r.pc.Finishing?
    ensures RunOk(AfterFinish(s, r, r.pc.outcome, fault).1)
  {
    hide FinishOf, RunOk, Persist, Committed, FinishEnd;
    var tx := FinishOf(s, r.call, r.pc.outcome);
    AnswerMeansEffect(s, tx, fault);
    FinishedOk(r, r.pc.outcome, Committed(s, tx, fault).1, TookEffect(tx, fault));
  }

  lemma CallbackKeepsRun(s: Store, r: Run, input: Input)
    requires RunOk(r) && (r.pc.Preparing? || r.pc.Validating? || r.pc.Executing? || r.pc.DryPreparing?)
    requires Advance(s, r, input).Some?
    ensures RunOk(Advance(s, r, input).value.1)
  {
    hide Prepared, PreWriteFailure, ExecuteOutcome, DryPrepared, RunOk, AfterBegin, AfterAudit, AfterFinish, AttemptOf;
    match (r.pc, input)
    case (Preparing, PrepareEnds(end)) => PreparingKeeps(r, end);
    case (Validating(p), ValidateEnds(end)) => ValidatingKeeps(r, p, end);
    case (Executing(p), ExecuteEnds(end)) => ExecutingKeeps(r, p, end);
    case (DryPreparing, PrepareEnds(end)) => DryPreparingKeeps(r, end);
    case _ => CrashKeepsRun(r);
  }

  lemma PreparingKeeps(r: Run, end: CallbackEnd<PreparedWrite>)
    requires RunOk(r) && r.pc.Preparing?
    ensures RunOk(r.(pc := Prepared(r.call, end)))
  {
    hide Prepared, OutcomeOk, Admissible, Loggable, FieldsPresent;
    PreparedOk(r, end);
    if Prepared(r.call, end).Finishing? {
      SameOutcome(r, r.(pc := Prepared(r.call, end)), Prepared(r.call, end).outcome);
    }
  }

  lemma ValidatingKeeps(r: Run, p: PreparedWrite, end: CallbackEnd<()>)
    requires RunOk(r) && r.pc == Validating(p)
    ensures end.Returned? ==> RunOk(r.(pc := Executing(p), entered := true))
    ensures !end.Returned? ==> RunOk(r.(pc := Finishing(PreWriteFailure(r.call, end, Some(p)))))
  {
    hide PreWriteFailure, OutcomeOk, Admissible, Loggable, FieldsPresent;
    if !end.Returned? {
      var o := PreWriteFailure(r.call, end, Some(p));
      PreWriteFailureOk(r, end, Some(p));
      SameOutcome(r, r.(pc := Finishing(o)), o);
    }
  }

  lemma ExecutingKeeps(r: Run, p: PreparedWrite, end: CallbackEnd<AppliedWrite>)
    requires RunOk(r) && r.pc.Executing?
    ensures RunOk(r.(pc := Finishing(ExecuteOutcome(r.call, p, end)), attempt := Some(AttemptOf(end))))
  {
    hide ExecuteOutcome, OutcomeOk, Admissible, Loggable, FieldsPresent, AttemptOf;
    var o, n := ExecuteOutcome(r.call, p, end), r.(attempt := Some(AttemptOf(end)));
    ExecuteOutcomeOk(n, p, end);
    SameOutcome(n, n.(pc := Finishing(o)), o);
  }

  lemma DryPreparingKeeps(r: Run, end: CallbackEnd<PreparedWrite>)
    requires RunOk(r) && r.pc.DryPreparing?
    ensures RunOk(r.(pc := DryPrepared(r.call, end)))
  {
    hide Admissible, Loggable, FieldsPresent;
  }

  /** Whether an outcome is truthful depends on what the run did, not on where it stands. */
  lemma SameOutcome(r: Run, n: Run, o: Outcome)
    requires OutcomeOk(r, o) && n.entered == r.entered && n.attempt == r.attempt
    ensures OutcomeOk(n, o)
  {}

  lemma AdvanceKeepsRun(s: Store, r: Run, input: Input)
    requires RunOk(r) && Advance(s, r, input).Some?
    ensures RunOk(Advance(s, r, input).value.1)
    ensures Advance(s, r, input).value.1.call == r.call
  {
    hide AfterBegin, AfterAudit, AfterFinish, Prepared, PreWriteFailure, ExecuteOutcome, DryPrepared, RunOk;
    match (r.pc, input)
    case (Beginning, BeginAt(now, fault)) => BeginKeepsRun(s, r, now, fault);
    case (Auditing(_, _, _), CommitEnds(fault)) => AuditKeepsRun(s, r, fault);
    case (Finishing(_), CommitEnds(fault)) => FinishKeepsRun(s, r, fault);
    case (Preparing, PrepareEnds(_)) => CallbackKeepsRun(s, r, input);
    case (Validating(_), ValidateEnds(_)) => CallbackKeepsRun(s, r, input);
    case (Executing(_), ExecuteEnds(_)) => CallbackKeepsRun(s, r, input);
    case (DryPreparing, PrepareEnds(_)) => CallbackKeepsRun(s, r, input);
    case (_, Crash) => CrashKeepsRun(r);
    case _ =>
  }

  lemma CrashKeepsRun(r: Run)
    requires RunOk(r) && !r.pc.Done?
    ensures RunOk(r.(pc := Crashed))
  {}

  // ---------- What the table and the runs keep together ----------

  function Bound(c: Call): BoundRequest {
    BoundRequest(c.command.company, c.command.payload)
  }

  /** The row of a key is the reservation of its holder, final once the holder's own finish stored it. */
  predicate RowMatches(row: Row, r: Run) {
    && r.slot.Some?
    && row.company == r.call.command.company && row.request == Bound(r.call)
    && row.owner == r.call.requestId && row.expires == r.slot.value + TTL
    && if r.stored.None? then row.state == InProgress && row.response.None?
       else
         row.state == r.stored.value.0 && row.response == Some(Persist(r.call.command, r.stored.value.1))
         && row.state != InProgress
  }

  /** The lifetime of a stored outcome: 24 hours. */
  const DAY: int := 24 * 3600 * 1000000

  /** One tenant's calls of one tool under one key. */
  predicate OneKey(c: Call, d: Call) {
    c.binding.tenant == d.binding.tenant && c.definition.name == d.definition.name && c.command.key == d.command.key
  }

  /** Calls have one row exactly when tenant, tool and key agree. */
  lemma KeysAgree(c: Call, d: Call)
    requires c.command.key.Some? && d.command.key.Some?
    ensures c.Key() == d.Key() <==> OneKey(c, d)
  {
  }

  /** `earlier` stored succeeded or failed itself, and `later` reserved at least 24 hours after it. */
  predicate Settled(earlier: Run, later: Run) {
    && earlier.slot.Some? && later.slot.Some? && earlier.stored.Some?
    && (earlier.stored.value.0.Succeeded? || earlier.stored.value.0.Failed?)
    && earlier.slot.value + DAY <= later.slot.value
  }

  predicate HolderOk(s: System, k: RowKey) {
    && k in s.holder && k in s.store.rows && s.holder[k] < |s.runs|
    && s.runs[s.holder[k]].call.Key() == k && RowMatches(s.store.rows[k], s.runs[s.holder[k]])
  }

  predicate TableOk(s: System) {
    && s.store.rows.Keys == s.holder.Keys
    && forall k | k in s.holder :: HolderOk(s, k)
  }

  predicate ReservationOk(s: System, i: nat) {
    i < |s.runs| && s.runs[i].slot.Some? ==>
      var k := s.runs[i].call.Key();
      && i in s.reservations && k in s.holder && s.holder[k] < |s.runs|
      && (s.holder[k] == i || Settled(s.runs[i], s.runs[s.holder[k]]))
  }

  predicate OrderOk(s: System, p: nat, q: nat)
    requires p < q < |s.reservations|
  {
    var i, j := s.reservations[p], s.reservations[q];
    && i < |s.runs| && j < |s.runs| && i != j && s.runs[i].slot.Some? && s.runs[j].slot.Some?
    && (s.runs[i].call.Key() == s.runs[j].call.Key() ==> Settled(s.runs[i], s.runs[j]))
  }

  predicate HistoryOk(s: System) {
    && (forall p | 0 <= p < |s.reservations| ::
          s.reservations[p] < |s.runs| && s.runs[s.reservations[p]].slot.Some?)
    && (forall i: nat | i < |s.runs| :: ReservationOk(s, i))
    && (forall p: nat, q: nat | p < q < |s.reservations| :: OrderOk(s, p, q))
  }

  predicate Inv(s: System) {
    && (forall i | 0 <= i < |s.runs| :: RunOk(s.runs[i]))
    && TableOk(s) && HistoryOk(s)
  }

  /** A step that leaves the rows, the run's reservation and its stored outcome alone. */
  lemma QuietStepKeeps(s: System, s': System, i: nat, r: Run)
    requires TableOk(s) && HistoryOk(s) && i < |s.runs|
    requires s'.store.rows == s.store.rows && s'.holder == s.holder && s'.reservations == s.reservations
    requires s'.runs == s.runs[i := r]
    requires r.call == s.runs[i].call && r.slot == s.runs[i].slot && r.stored == s.runs[i].stored
    ensures TableOk(s') && HistoryOk(s')
  {
    QuietStepKeepsTable(s, s', i, r);
    hide RowMatches, HolderOk, TableOk;
    forall j: nat | j < |s'.runs| ensures ReservationOk(s', j) { assert ReservationOk(s, j); }
    forall p: nat, q: nat | p < q < |s'.reservations| ensures OrderOk(s', p, q) { assert OrderOk(s, p, q); }
  }

  lemma QuietStepKeepsTable(s: System, s': System, i: nat, r: Run)
    requires TableOk(s) && i < |s.runs|
    requires s'.store.rows == s.store.rows && s'.holder == s.holder && s'.runs == s.runs[i := r]
    requires r.call == s.runs[i].call && r.slot == s.runs[i].slot && r.stored == s.runs[i].stored
    ensures TableOk(s')
  {
    hide Persist;
    forall k | k in s'.holder ensures HolderOk(s', k) { assert HolderOk(s, k); }
  }

  lemma AdmitKeeps(s: System, c: Call)
    requires TableOk(s) && HistoryOk(s)
    ensures TableOk(Next(s, Admit(c))) && HistoryOk(Next(s, Admit(c)))
  {
    hide Entry, RowMatches, Settled;
    var s' := Next(s, Admit(c));
    forall k | k in s'.holder ensures HolderOk(s', k) { assert HolderOk(s, k); }
    forall j: nat | j < |s'.runs| ensures ReservationOk(s', j) {
      if j < |s.runs| { assert ReservationOk(s, j); }
    }
    forall p: nat, q: nat | p < q < |s'.reservations| ensures OrderOk(s', p, q) { assert OrderOk(s, p, q); }
  }

  /** A reservation takes the key from a settled holder, or takes a free key. */
  predicate ReserveStep(s: System, s': System, i: nat, r: Run, now: int) {
    && i < |s.runs| && s.runs[i].slot.None? && s'.runs == s.runs[i := r]
    && r.call == s.runs[i].call && r.slot == Some(now) && r.stored.None?
    && s'.holder == s.holder[r.call.Key() := i] && s'.reservations == s.reservations + [i]
    && (r.call.Key() in s.store.rows ==> Reusable(s.store.rows[r.call.Key()], now))
    && s'.store.rows == s.store.rows[r.call.Key() := FreshRow(Bound(r.call), r.call.requestId, now)]
  }

  lemma ReserveKeepsTable(s: System, s': System, i: nat, r: Run, now: int)
    requires TableOk(s) && ReserveStep(s, s', i, r, now)
    ensures TableOk(s')
  {
    var key := r.call.Key();
    forall k | k in s'.holder ensures HolderOk(s', k) {
      if k != key { assert HolderOk(s, k); }
    }
  }

  /** Everyone who reserved the key before is settled against the new holder. */
  lemma PredecessorsSettled(s: System, j: nat, r: Run, now: int)
    requires TableOk(s) && ReservationOk(s, j) && j < |s.runs| && s.runs[j].slot.Some?
    requires s.runs[j].call.Key() == r.call.Key() && r.slot == Some(now)
    requires r.call.Key() in s.store.rows && Reusable(s.store.rows[r.call.Key()], now)
    ensures Settled(s.runs[j], r)
  {
    assert HolderOk(s, r.call.Key());
  }

  lemma ReserveKeepsReservation(s: System, s': System, i: nat, r: Run, now: int, j: nat)
    requires TableOk(s) && ReserveStep(s, s', i, r, now) && j < |s'.runs| && ReservationOk(s, j)
    ensures ReservationOk(s', j)
  {
    hide Settled, Reusable, FreshRow, RowMatches, Bound;
    if j != i && s.runs[j].slot.Some? {
      assert HolderOk(s, s.runs[j].call.Key());
      if s.runs[j].call.Key() == r.call.Key() {
        PredecessorsSettled(s, j, r, now);
      }
    }
  }

  lemma ReserveKeepsHistory(s: System, s': System, i: nat, r: Run, now: int)
    requires TableOk(s) && HistoryOk(s) && ReserveStep(s, s', i, r, now)
    ensures HistoryOk(s')
  {
    hide Settled, Reusable, FreshRow, RowMatches, Bound, HolderOk;
    forall j: nat | j < |s'.runs| ensures ReservationOk(s', j) {
      ReserveKeepsReservation(s, s', i, r, now, j);
    }
    forall p: nat, q: nat | p < q < |s'.reservations| ensures OrderOk(s', p, q) {
      if q < |s.reservations| {
        assert OrderOk(s, p, q);
      } else {
        var j := s.reservations[p];
        assert ReservationOk(s, j);
        if s.runs[j].call.Key() == r.call.Key() {
          PredecessorsSettled(s, j, r, now);
        }
      }
    }
  }

  /** A stored outcome turns the run's own in-progress row final. */
  predicate FinishStep(s: System, s': System, i: nat, r: Run) {
    && i < |s.runs| && s.runs[i].slot.Some? && s.runs[i].stored.None? && s'.runs == s.runs[i := r]
    && r.call == s.runs[i].call && r.slot == s.runs[i].slot
    && r.stored.Some? && r.stored.value.0 != InProgress
    && s'.holder == s.holder && s'.reservations == s.reservations && r.call.Key() in s.store.rows
    && s'.store.rows == s.store.rows[r.call.Key() :=
         s.store.rows[r.call.Key()].(
             state := r.stored.value.0, response := Some(Persist(r.call.command, r.stored.value.1)))]
  }

  /** A run that has reserved and not stored holds its key. */
  lemma UnsettledHolds(s: System, i: nat)
    requires Inv(s) && i < |s.runs| && s.runs[i].slot.Some? && s.runs[i].stored.None?
    ensures var k := s.runs[i].call.Key(); k in s.holder && s.holder[k] == i && HolderOk(s, k)
  {
    assert ReservationOk(s, i);
    assert HolderOk(s, s.runs[i].call.Key());
  }

  lemma FinishKeepsHolder(s: System, s': System, i: nat, r: Run, k: RowKey)
    requires FinishStep(s, s', i, r) && HolderOk(s, k)
    requires HolderOk(s, r.call.Key()) && s.holder[r.call.Key()] == i
    ensures HolderOk(s', k)
  {
    hide Persist, Bound;
  }

  lemma FinishKeepsTable(s: System, s': System, i: nat, r: Run)
    requires TableOk(s) && FinishStep(s, s', i, r)
    requires r.call.Key() in s.holder && s.holder[r.call.Key()] == i
    ensures TableOk(s')
  {
    hide HolderOk, Persist;
    assert s'.store.rows.Keys == s'.holder.Keys;
    forall k | k in s'.holder ensures HolderOk(s', k) {
      assert HolderOk(s, k) && HolderOk(s, r.call.Key());
      hide FinishStep;
      FinishKeepsHolder(s, s', i, r, k);
    }
  }

  lemma FinishKeepsHistory(s: System, s': System, i: nat, r: Run)
    requires Inv(s) && FinishStep(s, s', i, r)
    ensures HistoryOk(s')
  {
    hide RunOk, RowMatches;
    UnsettledHolds(s, i);
    forall j: nat | j < |s'.runs| ensures ReservationOk(s', j) { assert ReservationOk(s, j); }
    forall p: nat, q: nat | p < q < |s'.reservations| ensures OrderOk(s', p, q) { assert OrderOk(s, p, q); }
  }

  // ---------- The transactions on a consistent table ----------

  /** What a reservation transaction does when it succeeds. */
  lemma BeginEffect(s: Store, c: Call, now: int)
    requires c.command.key.Some? && BeginOf(s, c, now).Ok?
    ensures var (after, d) := BeginOf(s, c, now).value; var k := c.Key();
      if d.disposition == Reserved then
        && after == Store(s.rows[k := FreshRow(Bound(c), c.requestId, now)], s.log + [AttemptEvent(c)])
        && (k in s.rows ==> Reusable(s.rows[k], now))
      else
        && after == s && k in s.rows && s.rows[k].request == Bound(c) && Replayable(s.rows[k])
        && d.response == s.rows[k].response && d.state == s.rows[k].state
        && (d.disposition == Busy <==> s.rows[k].state == InProgress)
  {}

  lemma OwnedFinishAccepted(s: Store, c: Call, o: Outcome)
    requires Loggable(c) && FieldsPresent(c.Key(), c.command.company, c.requestId) && c.command.key.Some?
    requires o.state != InProgress && Owned(s.rows, c.Key(), c.command.company, c.requestId)
    ensures FinishOf(s, c, o) ==
      Ok((Store(s.rows[c.Key() := s.rows[c.Key()].(
                  state := o.state, response := Some(Persist(c.command, o.reply)))],
                s.log + [OutcomeEvent(c, o)]), ()))
  {
    hide EventOf, Persist, Appendable, Loggable;
    EventIdentity(c, o.status, Some(o.reply), o.action, o.refs);
  }

  /** A live run's finish is never refused: it owns its row, and its fields were checked at reservation. */
  lemma FinishNeverRefused(s: System, i: nat)
    requires Inv(s) && i < |s.runs| && s.runs[i].pc.Finishing?
    ensures var r := s.runs[i]; var o := r.pc.outcome; var k := r.call.Key();
      && k in s.store.rows
      && FinishOf(s.store, r.call, o) ==
           Ok((Store(s.store.rows[k := s.store.rows[k].(
                 state := o.state, response := Some(Persist(r.call.command, o.reply)))],
                 s.store.log + [OutcomeEvent(r.call, o)]), ()))
  {
    hide FinishOf, Persist, EventOf, OutcomeEvent, Loggable, FieldsPresent, GateError;
    var r := s.runs[i];
    assert RunOk(r);
    UnsettledHolds(s, i);
    OwnedFinishAccepted(s.store, r.call, r.pc.outcome);
  }

  // ---------- Every step keeps the invariant ----------

  /** What a reservation step does to the store: a new row and its attempt, or nothing. */
  lemma AfterBeginEffect(s: Store, r: Run, now: int, fault: Fault)
    requires RunOk(r) && r.pc.Beginning?
    ensures var (after, n) := AfterBegin(s, r, now, fault); var k := r.call.Key();
      if n.slot.Some? then
        && n.slot == Some(now) && (k in s.rows ==> Reusable(s.rows[k], now))
        && after == Store(s.rows[k := FreshRow(Bound(r.call), r.call.requestId, now)],
                          s.log + [AttemptEvent(r.call)])
      else after == s
  {
    assert r.call.command.key.Some?;
    hide BeginOf, Begun, Committed, Admissible, FreshRow, AttemptEvent;
    var tx := BeginOf(s, r.call, now);
    AnswerMeansEffect(s, tx, fault);
    if tx.Ok? {
      BeginEffect(s, r.call, now);
    }
  }

  /** What an outcome step does to the store, on a consistent system: its row and event, or nothing. */
  lemma AfterFinishEffect(s: System, i: nat, fault: Fault)
    requires Inv(s) && i < |s.runs| && s.runs[i].pc.Finishing?
    ensures var r := s.runs[i]; var o := r.pc.outcome; var (after, n) := AfterFinish(s.store, r, o, fault);
      var k := r.call.Key();
      if fault == LostBefore then after == s.store && n.stored == r.stored
      else
        && n.stored == Some((o.state, o.reply)) && k in s.store.rows
        && after == Store(s.store.rows[k := s.store.rows[k].(
                            state := o.state, response := Some(Persist(r.call.command, o.reply)))],
                          s.store.log + [OutcomeEvent(r.call, o)])
  {
    hide FinishOf, Inv, Persist, OutcomeEvent, Committed;
    FinishNeverRefused(s, i);
    AnswerMeansEffect(s.store, FinishOf(s.store, s.runs[i].call, s.runs[i].pc.outcome), fault);
  }

  lemma ActKeeps(s: System, i: nat, input: Input)
    requires Inv(s)
    ensures Inv(Next(s, Act(i, input)))
  {
    hide Advance, RunOk, TableOk, HistoryOk;
    if i < |s.runs| && Advance(s.store, s.runs[i], input).Some? {
      assert RunOk(s.runs[i]);
      AdvanceKeepsRun(s.store, s.runs[i], input);
      ActKeepsTables(s, i, input);
    }
  }

  lemma InvParts(s: System, i: nat)
    requires Inv(s) && i < |s.runs|
    ensures RunOk(s.runs[i]) && TableOk(s) && HistoryOk(s)
  {}

  lemma Reserves(s: System, s': System, i: nat, r: Run, now: int)
    requires i < |s.runs| && s.runs[i].slot.None? && s'.runs == s.runs[i := r]
    requires r.call == s.runs[i].call && r.slot == Some(now) && r.stored.None?
    requires s'.holder == s.holder[r.call.Key() := i] && s'.reservations == s.reservations + [i]
    requires r.call.Key() in s.store.rows ==> Reusable(s.store.rows[r.call.Key()], now)
    requires s'.store.rows == s.store.rows[r.call.Key() := FreshRow(Bound(r.call), r.call.requestId, now)]
    ensures ReserveStep(s, s', i, r, now)
  {}

  lemma BeginKeepsTables(s: System, i: nat, now: int, fault: Fault)
    requires Inv(s) && i < |s.runs| && s.runs[i].pc.Beginning?
    ensures var s' := Next(s, Act(i, BeginAt(now, fault))); TableOk(s') && HistoryOk(s')
  {
    hide *;
    var r := s.runs[i];
    InvParts(s, i);
    BeginningUnreserved(r);
    var n := AfterBegin(s.store, r, now, fault).1;
    var s' := Next(s, Act(i, BeginAt(now, fault)));
    NextBegin(s, i, now, fault);
    AfterBeginEffect(s.store, r, now, fault);
    if n.slot.Some? {
      Reserves(s, s', i, n, now);
      ReserveKeepsTable(s, s', i, n, now);
      ReserveKeepsHistory(s, s', i, n, now);
    } else {
      QuietStepKeeps(s, s', i, n);
    }
  }

  lemma BeginningUnreserved(r: Run)
    requires RunOk(r) && r.pc.Beginning?
    ensures r.slot.None? && r.stored.None?
  {}

  lemma FinishingUnstored(s: System, i: nat)
    requires Inv(s) && i < |s.runs| && s.runs[i].pc.Finishing?
    ensures var r := s.runs[i]; r.slot.Some? && r.stored.None? && r.pc.outcome.state != InProgress
  {
    assert RunOk(s.runs[i]);
  }

  lemma NextFinish(s: System, i: nat, fault: Fault)
    requires i < |s.runs| && s.runs[i].pc.Finishing?
    ensures var (after, n) := AfterFinish(s.store, s.runs[i], s.runs[i].pc.outcome, fault);
      Next(s, Act(i, CommitEnds(fault))) == System(after, s.runs[i := n], s.holder, s.reservations)
  {
    hide AfterBegin, AfterAudit, AfterFinish, Prepared, PreWriteFailure, ExecuteOutcome, DryPrepared;
  }

  lemma FinishIsStep(s: System, i: nat, fault: Fault)
    requires Inv(s) && i < |s.runs| && s.runs[i].pc.Finishing? && fault != LostBefore
    ensures FinishStep(s, Next(s, Act(i, CommitEnds(fault))), i,
                       AfterFinish(s.store, s.runs[i], s.runs[i].pc.outcome, fault).1)
  {
    FinishingUnstored(s, i);
    hide Next, AfterFinish, OutcomeEvent, Persist, Inv;
    NextFinish(s, i, fault);
    AfterFinishEffect(s, i, fault);
  }

  lemma LostFinishKeeps(s: System, i: nat)
    requires Inv(s) && i < |s.runs| && s.runs[i].pc.Finishing?
    ensures var s' := Next(s, Act(i, CommitEnds(LostBefore))); TableOk(s') && HistoryOk(s')
  {
    assert TableOk(s) && HistoryOk(s);
    hide Next, AfterFinish, Inv, TableOk, HistoryOk;
    NextFinish(s, i, LostBefore);
    AfterFinishEffect(s, i, LostBefore);
    QuietStepKeeps(s, Next(s, Act(i, CommitEnds(LostBefore))), i,
                   AfterFinish(s.store, s.runs[i], s.runs[i].pc.outcome, LostBefore).1);
  }

  lemma FinishKeepsTables(s: System, i: nat, fault: Fault)
    requires Inv(s) && i < |s.runs| && s.runs[i].pc.Finishing?
    ensures var s' := Next(s, Act(i, CommitEnds(fault))); TableOk(s') && HistoryOk(s')
  {
    FinishingUnstored(s, i);
    UnsettledHolds(s, i);
    assert TableOk(s);
    hide Next, AfterFinish, FinishStep, Inv, TableOk, HistoryOk, HolderOk;
    if fault == LostBefore {
      LostFinishKeeps(s, i);
    } else {
      var n := AfterFinish(s.store, s.runs[i], s.runs[i].pc.outcome, fault).1;
      FinishIsStep(s, i, fault);
      FinishKeepsTable(s, Next(s, Act(i, CommitEnds(fault))), i, n);
      FinishKeepsHistory(s, Next(s, Act(i, CommitEnds(fault))), i, n);
    }
  }

  /** Steps other than the two row transactions touch no row and no reservation. */
  lemma OtherStepsQuiet(s: Store, r: Run, input: Input)
    requires Advance(s, r, input).Some?
    requires r.pc.Beginning? || r.pc.Finishing? ==> input.Crash?
    ensures var (after, n) := Advance(s, r, input).value;
      after.rows == s.rows && n.call == r.call && n.slot == r.slot && n.stored == r.stored
  {
    hide AfterBegin, AfterAudit, AfterFinish, Prepared, PreWriteFailure, ExecuteOutcome, DryPrepared;
  }

  lemma OnlyCrashElsewhere(s: Store, r: Run, input: Input)
    requires Advance(s, r, input).Some?
    ensures (r.pc.Beginning? && !input.BeginAt?) || (r.pc.Finishing? && !input.CommitEnds?) ==> input.Crash?
  {
    hide AfterBegin, AfterAudit, AfterFinish, Prepared, PreWriteFailure, ExecuteOutcome, DryPrepared;
  }

  lemma OtherKeepsTables(s: System, i: nat, input: Input)
    requires TableOk(s) && HistoryOk(s) && i < |s.runs| && Advance(s.store, s.runs[i], input).Some?
    requires s.runs[i].pc.Beginning? || s.runs[i].pc.Finishing? ==> input.Crash?
    ensures TableOk(Next(s, Act(i, input))) && HistoryOk(Next(s, Act(i, input)))
  {
    hide Advance, TableOk, HistoryOk;
    OtherStepsQuiet(s.store, s.runs[i], input);
    QuietStepKeeps(s, Next(s, Act(i, input)), i, Advance(s.store, s.runs[i], input).value.1);
  }

  lemma ActKeepsTables(s: System, i: nat, input: Input)
    requires Inv(s) && i < |s.runs| && Advance(s.store, s.runs[i], input).Some?
    ensures TableOk(Next(s, Act(i, input))) && HistoryOk(Next(s, Act(i, input)))
  {
    var r := s.runs[i];
    assert TableOk(s) && HistoryOk(s);
    OnlyCrashElsewhere(s.store, r, input);
    hide *;
    if r.pc.Beginning? && input.BeginAt? {
      BeginKeepsTables(s, i, input.now, input.beginFault);
    } else if r.pc.Finishing? && input.CommitEnds? {
      FinishKeepsTables(s, i, input.fault);
    } else {
      OtherKeepsTables(s, i, input);
    }
  }

  lemma NextKeeps(s: System, l: Label)
    requires Inv(s)
    ensures Inv(Next(s, l))
  {
    hide RunOk, TableOk, HistoryOk, Start, Advance;
    match l
    case Admit(c) => AdmitKeeps(s, c); StartOk(c);
    case Act(i, input) => ActKeeps(s, i, input);
  }

  lemma {:induction false} ExecFromKeeps(s: System, labels: seq<Label>)
    requires Inv(s)
    ensures Inv(ExecFrom(s, labels))
    decreases labels
  {
    if labels != [] {
      NextKeeps(s, labels[0]);
      ExecFromKeeps(Next(s, labels[0]), labels[1..]);
    }
  }

  lemma Reachable(labels: seq<Label>)
    ensures Inv(Exec(labels))
  {
    ExecFromKeeps(INITIAL, labels);
  }

  // ---------- Safety over all runs ----------

  /**
   At most once: of any two reservations of one key, the earlier run stored succeeded or failed
   itself, and the later one read a clock at least 24 hours after the earlier.
   */
  lemma ReservationsSettle(labels: seq<Label>, p: nat, q: nat)
    requires p < q < |Exec(labels).reservations|
    ensures var s := Exec(labels); var i, j := s.reservations[p], s.reservations[q];
      && i < |s.runs| && j < |s.runs| && i != j
      && (OneKey(s.runs[i].call, s.runs[j].call) ==> Settled(s.runs[i], s.runs[j]))
  {
    Reachable(labels);
    hide Exec, RunOk, TableOk, Settled, ReservationOk;
    assert OrderOk(Exec(labels), p, q);
  }

  lemma EnteredHasReserved(s: System, i: nat)
    requires Inv(s) && i < |s.runs| && s.runs[i].entered
    ensures exists p: nat :: p < |s.reservations| && s.reservations[p] == i
  {
    assert RunOk(s.runs[i]);
    assert ReservationOk(s, i);
  }

  /** Two runs that entered `execute` under one key: the first to reserve settled before the other. */
  lemma ExecuteAtMostOnce(labels: seq<Label>, i: nat, j: nat)
    requires var s := Exec(labels);
      && i < |s.runs| && j < |s.runs| && i != j && s.runs[i].entered && s.runs[j].entered
      && OneKey(s.runs[i].call, s.runs[j].call)
    ensures var s := Exec(labels);
      exists p: nat, q: nat | p < |s.reservations| && q < |s.reservations| ::
        && s.reservations[p] == i && s.reservations[q] == j
        && if p < q then Settled(s.runs[i], s.runs[j]) else Settled(s.runs[j], s.runs[i])
  {
    hide Inv, Settled, Exec;
    var s := Exec(labels);
    Reachable(labels);
    EnteredHasReserved(s, i);
    EnteredHasReserved(s, j);
    var p: nat :| p < |s.reservations| && s.reservations[p] == i;
    var q: nat :| q < |s.reservations| && s.reservations[q] == j;
    if p < q { ReservationsSettle(labels, p, q); } else { ReservationsSettle(labels, q, p); }
  }

  /** No dry run, refused call or blank-keyed call ever reserves a key or enters `execute`. */
  lemma OnlyAdmissibleRunsReserve(labels: seq<Label>, i: nat)
    requires i < |Exec(labels).runs|
    ensures var r := Exec(labels).runs[i];
      (r.slot.Some? || r.entered || r.stored.Some?) ==> Admissible(r.call) && r.slot.Some?
  {
    Reachable(labels);
    assert RunOk(Exec(labels).runs[i]);
  }

  /** A row tells the truth about the run that holds its key. */
  predicate RowTruthful(s: System, k: RowKey) {
    && k in s.store.rows && k in s.holder && s.holder[k] < |s.runs|
    && var row, h := s.store.rows[k], s.runs[s.holder[k]];
    && row.owner == h.call.requestId
    && h.call.binding.tenant == k.tenant && h.call.definition.name == k.tool && h.call.command.key == Some(k.key)
    && (row.state == InProgress <==> h.stored.None?) && (row.state == InProgress <==> row.response.None?)
    && (row.state != InProgress ==>
          && Truthful(h, row.state) && h.stored.value.0 == row.state
          && row.response == Some(Persist(h.call.command, h.stored.value.1)))
  }

  lemma RowsTruthful(labels: seq<Label>)
    ensures forall k | k in Exec(labels).store.rows :: RowTruthful(Exec(labels), k)
  {
    var s := Exec(labels);
    Reachable(labels);
    hide Persist, Exec;
    forall k | k in s.store.rows ensures RowTruthful(s, k) {
      assert HolderOk(s, k);
      assert RunOk(s.runs[s.holder[k]]);
    }
  }

  /** An answer a run gives for itself tells the truth; success is answered only once stored. */
  lemma AnswersTruthful(labels: seq<Label>, i: nat)
    requires i < |Exec(labels).runs| && Exec(labels).runs[i].pc.Done?
    ensures AnswerOk(Exec(labels).runs[i], Exec(labels).runs[i].pc.end)
  {
    Reachable(labels);
    hide Exec, TableOk, HistoryOk, AnswerOk, Loggable, Admissible, FieldsPresent;
    assert RunOk(Exec(labels).runs[i]);
  }

  lemma ReservedKeyed(s: System, i: nat)
    requires Inv(s) && i < |s.runs| && (s.runs[i].slot.Some? || s.runs[i].entered || s.runs[i].stored.Some?)
    ensures s.runs[i].call.command.key.Some?
  {
    assert RunOk(s.runs[i]);
    hide Loggable, FieldsPresent, GateError;
  }

  /** The row still holds an answered success, in its stored form, until the key is reserved again. */
  lemma SuccessIsOnRecord(labels: seq<Label>, i: nat)
    requires var s := Exec(labels);
      && i < |s.runs| && s.runs[i].pc.Done? && s.runs[i].pc.end.Replied? && !s.runs[i].replayed
      && s.runs[i].pc.end.reply.status.Succeeded?
    ensures var s := Exec(labels); var r := s.runs[i];
      && r.call.command.key.Some?
      && var k := RowKey(r.call.binding.tenant, r.call.definition.name, r.call.command.key.value);
      && k in s.holder && k in s.store.rows
      && (s.holder[k] == i ==>
            && s.store.rows[k].state.Succeeded?
            && s.store.rows[k].response == Some(Persist(r.call.command, r.pc.end.reply)))
      && (s.holder[k] != i ==> s.holder[k] < |s.runs| && Settled(r, s.runs[s.holder[k]]))
  {
    Reachable(labels);
    hide Exec, Persist, Loggable, Admissible, FieldsPresent;
    var s := Exec(labels);
    assert RunOk(s.runs[i]);
    ReservedKeyed(s, i);
    assert ReservationOk(s, i);
    assert HolderOk(s, s.runs[i].call.Key());
  }

  // ---------- Keys that never execute again ----------

  /** The key's outcome is unknown, or its holder ended without storing one. */
  predicate Stuck(s: System, k: RowKey) {
    && HolderOk(s, k)
    && var h := s.runs[s.holder[k]];
       (h.pc.Done? || h.pc.Crashed?)
       && (h.stored.None? || h.stored.value.0 == RowState.Unknown)
  }

  /** A step changes the row and holder of its own run's key only, and only as owner or reserver. */
  predicate Contained(s: System, s': System, i: nat, k: RowKey)
    requires i < |s.runs|
  {
    k in s.store.rows && k in s.holder ==>
      || (k in s'.store.rows && k in s'.holder
          && s'.store.rows[k] == s.store.rows[k] && s'.holder[k] == s.holder[k])
      || (k == s.runs[i].call.Key()
          && (s.holder[k] == i || s.store.rows[k].state.Succeeded? || s.store.rows[k].state.Failed?))
  }

  lemma NextBegin(s: System, i: nat, now: int, fault: Fault)
    requires i < |s.runs| && s.runs[i].pc.Beginning?
    ensures var (after, n) := AfterBegin(s.store, s.runs[i], now, fault);
      var s' := Next(s, Act(i, BeginAt(now, fault)));
      && s'.store == after && s'.runs == s.runs[i := n]
      && (s'.holder == s.holder || (n.slot.Some? && s'.holder == s.holder[n.call.Key() := i]))
      && (s.runs[i].slot.None? ==>
            && s'.holder == (if n.slot.Some? then s.holder[n.call.Key() := i] else s.holder)
            && s'.reservations == if n.slot.Some? then s.reservations + [i] else s.reservations)
  {
    hide AfterBegin, AfterAudit, AfterFinish, Prepared, PreWriteFailure, ExecuteOutcome, DryPrepared;
  }

  /** One row of the stepping run's own key may change, where the run owns it or may take it over. */
  lemma OwnKeyContained(s: System, s': System, i: nat, k: RowKey, own: RowKey, row: Row)
    requires i < |s.runs| && own == s.runs[i].call.Key()
    requires s'.store.rows == s.store.rows || s'.store.rows == s.store.rows[own := row]
    requires s'.holder == s.holder || s'.holder == s.holder[own := i]
    requires own in s.store.rows && own in s.holder ==>
      || (s'.store.rows == s.store.rows && s'.holder == s.holder)
      || s.holder[own] == i || s.store.rows[own].state.Succeeded? || s.store.rows[own].state.Failed?
    ensures Contained(s, s', i, k)
  {}

  lemma BeginContained(s: System, i: nat, now: int, fault: Fault, k: RowKey)
    requires Inv(s) && i < |s.runs| && s.runs[i].pc.Beginning?
    ensures Contained(s, Next(s, Act(i, BeginAt(now, fault))), i, k)
  {
    var r := s.runs[i];
    assert RunOk(r);
    BeginningUnreserved(r);
    hide Next, AfterBegin, RunOk, FreshRow, Inv, Bound, AttemptEvent, Contained;
    NextBegin(s, i, now, fault);
    AfterBeginEffect(s.store, r, now, fault);
    OwnKeyContained(s, Next(s, Act(i, BeginAt(now, fault))), i, k, r.call.Key(),
                    FreshRow(Bound(r.call), r.call.requestId, now));
  }

  lemma FinishContained(s: System, i: nat, fault: Fault, k: RowKey)
    requires Inv(s) && i < |s.runs| && s.runs[i].pc.Finishing?
    ensures Contained(s, Next(s, Act(i, CommitEnds(fault))), i, k)
  {
    hide *;
    var r := s.runs[i];
    var o, own := r.pc.outcome, r.call.Key();
    FinishingUnstored(s, i);
    UnsettledHolds(s, i);
    NextFinish(s, i, fault);
    AfterFinishEffect(s, i, fault);
    HolderStored(s, own);
    var row := s.store.rows[own].(state := o.state, response := Some(Persist(r.call.command, o.reply)));
    OwnKeyContained(s, Next(s, Act(i, CommitEnds(fault))), i, k, own, row);
  }

  lemma HolderStored(s: System, k: RowKey)
    requires HolderOk(s, k)
    ensures k in s.store.rows
  {}

  lemma StepContained(s: System, i: nat, input: Input, k: RowKey)
    requires Inv(s) && i < |s.runs| && Advance(s.store, s.runs[i], input).Some?
    ensures Contained(s, Next(s, Act(i, input)), i, k)
  {
    var r := s.runs[i];
    OnlyCrashElsewhere(s.store, r, input);
    hide *;
    if r.pc.Beginning? && input.BeginAt? {
      BeginContained(s, i, input.now, input.beginFault, k);
    } else if r.pc.Finishing? && input.CommitEnds? {
      FinishContained(s, i, input.fault, k);
    } else {
      QuietContained(s, i, input, k);
    }
  }

  lemma QuietContained(s: System, i: nat, input: Input, k: RowKey)
    requires i < |s.runs| && Advance(s.store, s.runs[i], input).Some?
    requires s.runs[i].pc.Beginning? || s.runs[i].pc.Finishing? ==> input.Crash?
    ensures Contained(s, Next(s, Act(i, input)), i, k)
  {
    hide Advance;
    OtherStepsQuiet(s.store, s.runs[i], input);
  }

  /** Only a run that has reserved and not yet stored can enter `execute`, and an ended run is over. */
  lemma EnteringRun(s: Store, r: Run, input: Input)
    requires RunOk(r) && Advance(s, r, input).Some?
    ensures !r.pc.Done? && !r.pc.Crashed?
    ensures Advance(s, r, input).value.1.entered && !r.entered ==> r.slot.Some? && r.stored.None?
  {
    EntryKept(s, r, input);
    hide Advance, Admissible, Loggable, FieldsPresent;
  }

  /** Only the step past validation enters `execute`. */
  lemma EntryKept(s: Store, r: Run, input: Input)
    requires Advance(s, r, input).Some?
    ensures !r.pc.Done? && !r.pc.Crashed?
    ensures r.pc.Validating? || Advance(s, r, input).value.1.entered == r.entered
  {
    hide Prepared, PreWriteFailure, ExecuteOutcome, DryPrepared, Begun, Committed, BeginOf, FinishOf, AppendOf,
         AuditEnd, FinishEnd;
  }

  lemma NextRuns(s: System, i: nat, input: Input)
    requires i < |s.runs| && Advance(s.store, s.runs[i], input).Some?
    ensures Next(s, Act(i, input)).runs == s.runs[i := Advance(s.store, s.runs[i], input).value.1]
  {
    hide Advance;
  }

  lemma StuckContained(s: System, s': System, i: nat, n: Run, k: RowKey)
    requires Stuck(s, k) && i < |s.runs| && i != s.holder[k] && s'.runs == s.runs[i := n]
    requires Contained(s, s', i, k)
    ensures Stuck(s', k) && s'.store.rows[k] == s.store.rows[k] && s'.holder[k] == s.holder[k]
  {
    hide Persist, Bound;
  }

  lemma ActUnsticksNothing(s: System, i: nat, input: Input, k: RowKey)
    requires Inv(s) && Stuck(s, k) && i < |s.runs| && Advance(s.store, s.runs[i], input).Some?
    ensures var s' := Next(s, Act(i, input)); var n := Advance(s.store, s.runs[i], input).value.1;
      && Stuck(s', k) && s'.store.rows[k] == s.store.rows[k] && s'.holder[k] == s.holder[k]
      && s'.runs == s.runs[i := n] && n.call == s.runs[i].call
      && (n.call.Key() == k && n.entered ==> s.runs[i].entered)
  {
    var r := s.runs[i];
    assert RunOk(r);
    hide Next, Advance, RunOk, Inv, HolderOk, Contained;
    var n := Advance(s.store, r, input).value.1;
    NextRuns(s, i, input);
    StepContained(s, i, input, k);
    EnteringRun(s.store, r, input);
    AdvanceKeepsRun(s.store, r, input);
    StuckContained(s, Next(s, Act(i, input)), i, n, k);
    if r.slot.Some? && r.stored.None? {
      UnsettledHolds(s, i);
    }
  }

  /** No run that was not already past that point enters `execute` under the key. */
  predicate NoNewEntry(s: System, s': System, k: RowKey) {
    forall i: nat | i < |s'.runs| && s'.runs[i].call.Key() == k && s'.runs[i].entered ::
      i < |s.runs| && s.runs[i].entered && s.runs[i].call.Key() == k
  }

  lemma AdmitUnsticksNothing(s: System, c: Call, k: RowKey)
    requires Stuck(s, k)
    ensures var s' := Next(s, Admit(c));
      && Stuck(s', k) && NoNewEntry(s, s', k) && s'.store == s.store && s'.holder == s.holder
  {
    hide Entry, RowMatches;
    var s' := Next(s, Admit(c));
    assert s'.runs[s.holder[k]] == s.runs[s.holder[k]];
    assert HolderOk(s', k);
    hide HolderOk;
  }

  lemma NextUnsticksNothing(s: System, l: Label, k: RowKey)
    requires Inv(s) && Stuck(s, k)
    ensures Stuck(Next(s, l), k) && NoNewEntry(s, Next(s, l), k)
    ensures Next(s, l).store.rows[k] == s.store.rows[k] && Next(s, l).holder[k] == s.holder[k]
  {
    hide Inv;
    match l
    case Admit(c) => AdmitUnsticksNothing(s, c, k);
    case Act(i, input) =>
      hide Advance;
      if i < |s.runs| && Advance(s.store, s.runs[i], input).Some? {
        hide Next, Stuck;
        NextRuns(s, i, input);
        ActUnsticksNothing(s, i, input, k);
      }
  }

  /**
   A key left in progress by a run that ended, or left unknown, never executes again, whatever
   happens afterwards and however much later: its row never changes.
   */
  lemma {:induction false} StuckForever(s: System, labels: seq<Label>, k: RowKey)
    requires Inv(s) && Stuck(s, k)
    ensures var s' := ExecFrom(s, labels);
      && Stuck(s', k) && NoNewEntry(s, s', k)
      && s'.store.rows[k] == s.store.rows[k] && s'.holder[k] == s.holder[k]
    decreases labels
  {
    hide Inv, Stuck, Next;
    if labels != [] {
      NextKeeps(s, labels[0]);
      NextUnsticksNothing(s, labels[0], k);
      StuckForever(Next(s, labels[0]), labels[1..], k);
    }
  }

  lemma EndedHolds(s: System, i: nat)
    requires Inv(s) && i < |s.runs| && s.runs[i].slot.Some? && (s.runs[i].pc.Done? || s.runs[i].pc.Crashed?)
    requires s.runs[i].stored.None? || s.runs[i].stored.value.0 == RowState.Unknown
    ensures s.runs[i].call.command.key.Some? && Stuck(s, s.runs[i].call.Key())
  {
    hide Persist, Bound, Loggable, FieldsPresent, GateError;
    assert RunOk(s.runs[i]);
    assert ReservationOk(s, i);
    assert HolderOk(s, s.runs[i].call.Key());
  }

  /**
   Once a run has reserved and ended without proving its outcome, no run of the same tenant, tool and key
   that was not already past that point ever enters `execute`.
   */
  lemma UnprovenKeyNeverRuns(labels: seq<Label>, more: seq<Label>, i: nat, j: nat)
    requires var s := Exec(labels);
      && i < |s.runs| && s.runs[i].slot.Some? && (s.runs[i].pc.Done? || s.runs[i].pc.Crashed?)
      && (s.runs[i].stored.None? || s.runs[i].stored.value.0 == RowState.Unknown)
    requires var s' := ExecFrom(Exec(labels), more);
      j < |s'.runs| && s'.runs[j].entered && OneKey(s'.runs[j].call, Exec(labels).runs[i].call)
    ensures j < |Exec(labels).runs| && Exec(labels).runs[j].entered
  {
    hide Inv, Exec, ExecFrom, Stuck;
    var s := Exec(labels);
    Reachable(labels);
    EndedHolds(s, i);
    StuckForever(s, more, s.runs[i].call.Key());
    ExecFromKeeps(s, more);
    ReservedKeyed(ExecFrom(s, more), j);
    KeysAgree(ExecFrom(s, more).runs[j].call, s.runs[i].call);
  }
}
