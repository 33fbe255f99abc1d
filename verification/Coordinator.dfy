/** The coordinator's own code, undisturbed, takes exactly the steps of the machine. */
module Coordinator {
  import opened Wrappers
  import JsonValues
  import opened AuditEvents
  import opened ExecutionJournals
  import opened Replies
  import opened WriteRuns

  /** How every await and every transaction of one run ends. */
  datatype Script = Script(
    prepare: CallbackEnd<PreparedWrite>, validate: CallbackEnd<()>, execute: CallbackEnd<AppliedWrite>,
    now: int, beginFault: Fault, commitFault: Fault)
  {
    function InputFor(pc: Pc): Input {
      match pc
      case DryPreparing => PrepareEnds(prepare)
      case Preparing => PrepareEnds(prepare)
      case Beginning => BeginAt(now, beginFault)
      case Validating(_) => ValidateEnds(validate)
      case Executing(_) => ExecuteEnds(execute)
      case Auditing(_, _, _) => CommitEnds(commitFault)
      case Finishing(_) => CommitEnds(commitFault)
      case Done(_) => Crash
      case Crashed => Crash
    }
  }

  /** Steps a run still has to take: no run waits for ever on its own account. */
  function Rank(pc: Pc): nat {
    match pc
    case Beginning => 5
    case Preparing => 4
    case Validating(_) => 3
    case Executing(_) => 2
    case DryPreparing => 2
    case Auditing(_, _, _) => 1
    case Finishing(_) => 1
    case Done(_) => 0
    case Crashed => 0
  }

  lemma BegunRank(c: Call, r: Result<Decision, StorageError>)
    ensures Rank(Begun(c, r).0) < 5 && !Begun(c, r).0.Crashed?
  {
    hide Restore, NotAttemptedReply, UnexpectedError, MismatchError, BusyError;
  }

  lemma PreparedRank(c: Call, end: CallbackEnd<PreparedWrite>)
    ensures Rank(Prepared(c, end)) < 4 && !Prepared(c, end).Crashed?
    ensures Rank(DryPrepared(c, end)) < 2 && !DryPrepared(c, end).Crashed?
  {
    hide NotAttemptedReply, PreWriteFailure, PreWriteError, PreparedReply;
  }

  lemma AfterBeginRank(s: Store, r: Run, now: int, fault: Fault)
    ensures var n := AfterBegin(s, r, now, fault).1; Rank(n.pc) < 5 && !n.pc.Crashed?
  {
    hide BeginOf, Committed, Begun, Rank;
    BegunRank(r.call, Committed(s, BeginOf(s, r.call, now), fault).1);
  }

  lemma EndedRank(s: Store, r: Run, fault: Fault)
    ensures forall status, reply, raises :: AfterAudit(s, r, status, reply, raises, fault).1.pc.Done?
    ensures forall o :: AfterFinish(s, r, o, fault).1.pc.Done?
  {
    hide AppendOf, FinishOf, Committed, AuditEnd, FinishEnd;
  }

  /** Every step of a live run brings it nearer its end, whatever the input. */
  lemma StepsRunOut(s: Store, r: Run, input: Input)
    requires Advance(s, r, input).Some?
    ensures Rank(Advance(s, r, input).value.1.pc) < Rank(r.pc)
    ensures Advance(s, r, input).value.1.pc.Crashed? ==> input.Crash?
  {
    hide AfterBegin, AfterAudit, AfterFinish, Prepared, DryPrepared, PreWriteFailure, ExecuteOutcome;
    match (r.pc, input)
    case (Beginning, BeginAt(now, fault)) => AfterBeginRank(s, r, now, fault);
    case (Preparing, PrepareEnds(end)) => PreparedRank(r.call, end);
    case (DryPreparing, PrepareEnds(end)) => PreparedRank(r.call, end);
    case (_, CommitEnds(fault)) => EndedRank(s, r, fault);
    case _ =>
  }

  lemma ScriptedStep(s: Store, r: Run, script: Script)
    requires !r.pc.Done? && !r.pc.Crashed?
    ensures Advance(s, r, script.InputFor(r.pc)).Some?
    ensures !Advance(s, r, script.InputFor(r.pc)).value.1.pc.Crashed?
    ensures Rank(Advance(s, r, script.InputFor(r.pc)).value.1.pc) < Rank(r.pc)
  {
    assert Advance(s, r, script.InputFor(r.pc)).Some? by {
      hide AfterBegin, AfterAudit, AfterFinish, Prepared, DryPrepared, PreWriteFailure, ExecuteOutcome;
    }
    StepsRunOut(s, r, script.InputFor(r.pc));
    hide Advance;
  }

  /** The machine run alone, from any point, under a script. */
  function Solo(s: Store, r: Run, script: Script): (Store, End)
    requires !r.pc.Crashed?
    decreases Rank(r.pc)
  {
    if r.pc.Done? then (s, r.pc.end)
    else
      ScriptedStep(s, r, script);
      var (after, n) := Advance(s, r, script.InputFor(r.pc)).value;
      Solo(after, n, script)
  }

  lemma SoloStep(s: Store, r: Run, script: Script)
    requires !r.pc.Done? && !r.pc.Crashed?
    ensures Advance(s, r, script.InputFor(r.pc)).Some?
    ensures var (after, n) := Advance(s, r, script.InputFor(r.pc)).value;
      !n.pc.Crashed? && Solo(s, r, script) == Solo(after, n, script)
  {
    hide Advance;
    ScriptedStep(s, r, script);
  }

  lemma SoloAudit(s: Store, r: Run, script: Script)
    requires r.pc.Auditing?
    ensures var (after, result) := Committed(s, AppendOf(s, r.call, r.pc.status, r.pc.reply), script.commitFault);
      Solo(s, r, script) == (after, AuditEnd(r.call, r.pc.reply, r.pc.raises, result))
  {
    hide AppendOf, Committed, AuditEnd, AfterBegin, AfterFinish, Prepared, DryPrepared, PreWriteFailure, ExecuteOutcome;
    SoloStep(s, r, script);
  }

  lemma SoloFinish(s: Store, r: Run, script: Script)
    requires r.pc.Finishing?
    ensures var (after, result) := Committed(s, FinishOf(s, r.call, r.pc.outcome), script.commitFault);
      Solo(s, r, script) == (after, FinishEnd(r.pc.outcome, result))
  {
    hide FinishOf, Committed, FinishEnd, AfterBegin, AfterAudit, Prepared, DryPrepared, PreWriteFailure, ExecuteOutcome;
    SoloStep(s, r, script);
  }

  /** Where the reservation transaction leaves a run. */
  lemma ReservedStep(s: Store, c: Call, script: Script) returns (n: Run)
    ensures var (after, result) := Committed(s, BeginOf(s, c, script.now), script.beginFault);
      && n.call == c && n.pc == Begun(c, result).0 && !n.pc.Crashed?
      && Solo(s, At(c, Beginning), script) == Solo(after, n, script)
  {
    n := AfterBegin(s, At(c, Beginning), script.now, script.beginFault).1;
    hide Committed, BeginOf, Begun, AfterAudit, AfterFinish, Prepared, DryPrepared, PreWriteFailure, ExecuteOutcome;
    SoloStep(s, At(c, Beginning), script);
  }

  lemma SoloDone(s: Store, r: Run, script: Script)
    requires r.pc.Done?
    ensures Solo(s, r, script) == (s, r.pc.end)
  {
  }

  lemma PreparedStep(s: Store, r: Run, script: Script)
    requires r.pc.Preparing?
    ensures Prepared(r.call, script.prepare).Finishing? || Prepared(r.call, script.prepare).Validating?
    ensures Solo(s, r, script) == Solo(s, r.(pc := Prepared(r.call, script.prepare)), script)
  {
    hide PreWriteFailure, AfterBegin, AfterAudit, AfterFinish, DryPrepared, ExecuteOutcome;
    SoloStep(s, r, script);
  }

  /** A callback that fails before the write ends the run with what it recorded. */
  lemma PreWriteEnds<T>(s: Store, r: Run, end: CallbackEnd<T>, prepared: Option<PreparedWrite>, script: Script)
    ensures var reply := Refusal(r.call, PreWriteError(end), NotAttempted, prepared);
      Solo(s, r.(pc := Finishing(PreWriteFailure(r.call, end, prepared))), script)
      == (Committed(s, FinishOf(s, r.call, Unsuccessful(RowState.Failed, FinalStatus.Failed, reply, prepared, false)),
                    script.commitFault).0,
          if end.Cancelled? then Raised else Replied(reply))
  {
    hide *;
    PreWriteFailureIs(r.call, end, prepared);
    var reply := Refusal(r.call, PreWriteError(end), NotAttempted, prepared);
    var n := r.(pc := Finishing(PreWriteFailure(r.call, end, prepared)));
    SoloUnsuccessful(s, n, RowState.Failed, FinalStatus.Failed, reply, prepared, end.Cancelled?, script);
  }

  lemma ValidatedStep(s: Store, r: Run, p: PreparedWrite, script: Script)
    requires r.pc == Validating(p)
    ensures var n := if script.validate.Returned? then r.(pc := Executing(p), entered := true)
                     else r.(pc := Finishing(PreWriteFailure(r.call, script.validate, Some(p))));
      Solo(s, r, script) == Solo(s, n, script)
  {
    hide PreWriteFailure, AfterBegin, AfterAudit, AfterFinish, Prepared, DryPrepared, ExecuteOutcome;
    SoloStep(s, r, script);
  }

  lemma ExecutedStep(s: Store, r: Run, p: PreparedWrite, script: Script)
    requires r.pc == Executing(p)
    ensures var n := r.(pc := Finishing(ExecuteOutcome(r.call, p, script.execute)),
                        attempt := Some(AttemptOf(script.execute)));
      Solo(s, r, script) == Solo(s, n, script)
  {
    hide PreWriteFailure, AfterBegin, AfterAudit, AfterFinish, Prepared, DryPrepared, ExecuteOutcome, AttemptOf;
    SoloStep(s, r, script);
  }

  /** What a finish writes does not depend on what is answered afterwards. */
  lemma SameFinish(s: Store, c: Call, a: Outcome, b: Outcome)
    requires a.state == b.state && a.status == b.status && a.reply == b.reply
    requires a.action == b.action && a.refs == b.refs
    ensures FinishOf(s, c, a) == FinishOf(s, c, b)
  {
  }

  function ActionOf(prepared: Option<PreparedWrite>): Option<JsonValues.Mapping> {
    if prepared.None? then None else Some(prepared.value.action)
  }

  /** A write that did not go through, recorded and answered with one reply. */
  function Unsuccessful(state: RowState, status: FinalStatus, reply: Reply, prepared: Option<PreparedWrite>,
                        raises: bool): Outcome
  {
    Outcome(state, status, reply, ActionOf(prepared), [], reply, raises)
  }

  /** The machine's last step, where the answer is the same whether or not it is recorded. */
  lemma SoloUnsuccessful(s: Store, r: Run, state: RowState, status: FinalStatus, reply: Reply,
                         prepared: Option<PreparedWrite>, raises: bool, script: Script)
    requires r.pc == Finishing(Unsuccessful(state, status, reply, prepared, raises))
    ensures Solo(s, r, script)
         == (Committed(s, FinishOf(s, r.call, Unsuccessful(state, status, reply, prepared, false)),
                       script.commitFault).0,
             if raises then Raised else Replied(reply))
  {
    hide FinishOf, Committed, Solo, Advance;
    SoloFinish(s, r, script);
    SameFinish(s, r.call, r.pc.outcome, Unsuccessful(state, status, reply, prepared, false));
  }

  /** The machine's outcome for a callback that failed before the write. */
  lemma PreWriteFailureIs<T>(c: Call, end: CallbackEnd<T>, prepared: Option<PreparedWrite>)
    ensures PreWriteFailure(c, end, prepared)
         == Unsuccessful(RowState.Failed, FinalStatus.Failed, Refusal(c, PreWriteError(end), NotAttempted, prepared),
                         prepared, end.Cancelled?)
  {
    hide PreWriteError, Refusal;
  }

  class WriteSafetyCoordinator {
    const journal: ExecutionJournal

    constructor (journal: ExecutionJournal)
      ensures this.journal == journal
    {
      this.journal := journal;
    }

    method AppendOrFail(e: AuditEvent, reply: Reply, fault: Fault) returns (answer: Reply)
      modifies journal
      ensures var (after, result) := Committed(old(journal.Snapshot()), AppendTx(old(journal.Snapshot()), e), fault);
        && journal.Snapshot() == after
        && answer == if result.Ok? then reply
                     else FailureReply(UnexpectedError(), reply.requestId, reply.company, NotAttempted, None)
    {
      var appended := journal.Append(e, fault);
      if appended.Err? {
        return FailureReply(UnexpectedError(), reply.requestId, reply.company, NotAttempted, None);
      }
      answer := reply;
    }

    method RecordPreWriteFailure(c: Call, error: SafeError, fault: Fault) returns (answer: Reply)
      modifies journal
      ensures var reply := NotAttemptedReply(c, error);
        var (after, result) := Committed(old(journal.Snapshot()),
                                         AppendOf(old(journal.Snapshot()), c, FinalStatus.Failed, reply), fault);
        && journal.Snapshot() == after
        && answer == if result.Ok? then reply
                     else FailureReply(UnexpectedError(), reply.requestId, reply.company, NotAttempted, None)
    {
      hide Committed, AppendTx, EventOf, FailureReply, UnexpectedError, NotAttemptedReply;
      var reply := NotAttemptedReply(c, error);
      answer := AppendOrFail(EventOf(c, FinalStatus.Failed, Some(reply), None, []), reply, fault);
    }

    method FinishAfterAttempt(c: Call, state: RowState, status: FinalStatus, reply: Reply,
                              prepared: Option<PreparedWrite>, fault: Fault) returns (r: Result<(), StorageError>)
      modifies journal
      ensures (journal.Snapshot(), r)
           == Committed(old(journal.Snapshot()),
                        FinishOf(old(journal.Snapshot()), c, Unsuccessful(state, status, reply, prepared, false)),
                        fault)
    {
      hide Committed, FinishTx, EventOf, Persist;
      r := journal.Finish(EventOf(c, status, Some(reply), ActionOf(prepared), []), c.Key().key, state,
                          Some(Persist(c.command, reply)), fault);
    }

    /** Nothing was attempted: recorded as failed, and answered so even when the record is lost. */
    method FinishPreWriteFailure(c: Call, error: SafeError, prepared: Option<PreparedWrite>, fault: Fault)
      returns (reply: Reply)
      modifies journal
      ensures reply == Refusal(c, error, NotAttempted, prepared)
      ensures journal.Snapshot()
           == Committed(old(journal.Snapshot()),
                        FinishOf(old(journal.Snapshot()), c,
                                 Unsuccessful(RowState.Failed, FinalStatus.Failed, reply, prepared, false)), fault).0
    {
      hide *;
      reply := Refusal(c, error, NotAttempted, prepared);
      var finished := FinishAfterAttempt(c, RowState.Failed, FinalStatus.Failed, reply, prepared, fault);
    }

    method FinishKnownWriteFailure(c: Call, error: SafeError, p: PreparedWrite, fault: Fault) returns (reply: Reply)
      modifies journal
      ensures reply == Refusal(c, error, Known, Some(p))
      ensures journal.Snapshot()
           == Committed(old(journal.Snapshot()),
                        FinishOf(old(journal.Snapshot()), c,
                                 Unsuccessful(RowState.Failed, FinalStatus.Failed, reply, Some(p), false)), fault).0
    {
      hide *;
      reply := Refusal(c, error, Known, Some(p));
      var finished := FinishAfterAttempt(c, RowState.Failed, FinalStatus.Failed, reply, Some(p), fault);
    }

    method FinalizeUnknown(c: Call, p: PreparedWrite, fault: Fault) returns (reply: Reply)
      modifies journal
      ensures reply == Refusal(c, UnknownOutcomeError(), WriteOutcome.Unknown, Some(p))
      ensures journal.Snapshot()
           == Committed(old(journal.Snapshot()),
                        FinishOf(old(journal.Snapshot()), c,
                                 Unsuccessful(RowState.Unknown, FinalStatus.Unknown, reply, Some(p), false)), fault).0
    {
      hide *;
      reply := Refusal(c, UnknownOutcomeError(), WriteOutcome.Unknown, Some(p));
      var finished := FinishAfterAttempt(c, RowState.Unknown, FinalStatus.Unknown, reply, Some(p), fault);
    }

    method Run(c: Call, script: Script) returns (end: End)
      modifies journal
      ensures (journal.Snapshot(), end) == Solo(old(journal.Snapshot()), Start(c), script)
    {
      hide Committed, BeginOf, FinishOf, AppendTx, EventOf, Persist, Restore, GateError, PreWriteError,
           UnexpectedError, CancelledError, UnknownOutcomeError, NotExplicitError, MismatchError, BusyError,
           FailureReply, PreparedReply, AppliedReply, Filtered, AttemptEvent;
      if !c.definition.WriteCapable() {
        return Raised;
      }
      var refusal := if c.preflight.Some? then c.preflight else GateError(c);
      if refusal.Some? {
        var reply := NotAttemptedReply(c, refusal.value);
        var answer := AppendOrFail(EventOf(c, Rejected, Some(reply), None, []), reply, script.commitFault);
        return Replied(answer);
      }
      if c.command.dryRun {
        end := RunDry(c, script);
        return;
      }
      if !HasKey(c.command) {
        var reply := NotAttemptedReply(c, NotExplicitError());
        var answer := AppendOrFail(EventOf(c, Rejected, Some(reply), None, []), reply, script.commitFault);
        return Replied(answer);
      }
      end := RunReserved(c, script);
    }

    method RunDry(c: Call, script: Script) returns (end: End)
      modifies journal
      ensures (journal.Snapshot(), end)
           == Solo(old(journal.Snapshot()), At(c, DryPreparing), script)
    {
      hide Committed, AppendTx, EventOf, UnexpectedError, CancelledError, FailureReply, PreparedReply,
           AfterBegin, AfterFinish, Prepared, PreWriteFailure, ExecuteOutcome;
      ghost var dry := At(c, DryPreparing);
      SoloStep(journal.Snapshot(), dry, script);
      SoloAudit(journal.Snapshot(), dry.(pc := DryPrepared(c, script.prepare)), script);
      match script.prepare {
        case Returned(p) =>
          var reply := PreparedReply(p, c.requestId, c.command.company);
          var status := if p.needsInput then FinalStatus.NeedsInput else Previewed;
          end := Audited(c, dry.(pc := DryPrepared(c, script.prepare)), status, reply, script);
        case Cancelled =>
          var answer := RecordPreWriteFailure(c, CancelledError(), script.commitFault);
          end := Raised;
        case RaisedDenial(error) =>
          var answer := RecordPreWriteFailure(c, error, script.commitFault);
          end := Replied(answer);
        case _ =>
          var answer := RecordPreWriteFailure(c, UnexpectedError(), script.commitFault);
          end := Replied(answer);
      }
    }

    /** The last step of a run that only has its answer to record. */
    method Audited(c: Call, ghost r: Run, status: FinalStatus, reply: Reply, script: Script) returns (end: End)
      requires r.call == c && r.pc == Auditing(status, reply, false)
      modifies journal
      ensures (journal.Snapshot(), end) == Solo(old(journal.Snapshot()), r, script)
    {
      hide Committed, AppendTx, EventOf, UnexpectedError, FailureReply;
      SoloAudit(journal.Snapshot(), r, script);
      var answer := AppendOrFail(EventOf(c, status, Some(reply), None, []), reply, script.commitFault);
      end := Replied(answer);
    }

    method RunReserved(c: Call, script: Script) returns (end: End)
      requires c.command.key.Some?
      modifies journal
      ensures (journal.Snapshot(), end)
           == Solo(old(journal.Snapshot()), At(c, Beginning), script)
    {
      ghost var before := journal.Snapshot();
      var begun := journal.Begin(AttemptEvent(c), c.command.key.value, c.command.payload, script.now,
                                 script.beginFault);
      ghost var after := journal.Snapshot();
      ghost var n := ReservedStep(before, c, script);
      hide Committed, BeginTx, BeginOf, AppendTx, EventOf, Restore, AfterBegin, Advance, Solo, Start, Persist,
           UnexpectedError, MismatchError, BusyError, FailureReply, AttemptEvent;
      if n.pc.Done? { SoloDone(after, n, script); }
      match begun {
        case Err(PayloadMismatch) =>
          end := Audited(c, n, Conflicted, NotAttemptedReply(c, MismatchError()), script);
        case Err(_) =>
          end := Replied(NotAttemptedReply(c, UnexpectedError()));
        case Ok(decision) =>
          if decision.disposition == Busy {
            end := Audited(c, n, Conflicted, NotAttemptedReply(c, BusyError()), script);
          } else if decision.disposition == Replay {
            var restored := Restore(c.command, decision.response);
            if restored.None? {
              end := Replied(NotAttemptedReply(c, UnexpectedError()));
            } else {
              end := Audited(c, n, Replayed, restored.value, script);
            }
          } else {
            end := RunPrepared(c, n, script);
          }
      }
    }

    /** From a fresh reservation on. */
    method RunPrepared(c: Call, ghost r: Run, script: Script) returns (end: End)
      requires r.call == c && r.pc.Preparing?
      modifies journal
      ensures (journal.Snapshot(), end) == Solo(old(journal.Snapshot()), r, script)
    {
      ghost var s := journal.Snapshot();
      PreparedStep(s, r, script);
      if !script.prepare.Returned? { PreWriteEnds(s, r, script.prepare, None, script); }
      hide Solo, Advance, Committed, FinishOf, Refusal, PreparedReply, PreWriteFailure, UnexpectedError, CancelledError;
      match script.prepare {
        case Returned(p) =>
          var reply := PreparedReply(p, c.requestId, c.command.company);
          if p.needsInput {
            ghost var o := Unsuccessful(RowState.Failed, FinalStatus.NeedsInput, reply, Some(p), false);
            SoloUnsuccessful(s, r.(pc := Finishing(o)), RowState.Failed, FinalStatus.NeedsInput, reply, Some(p), false,
                             script);
            var finished := FinishAfterAttempt(c, RowState.Failed, FinalStatus.NeedsInput, reply, Some(p),
                                               script.commitFault);
            return Replied(reply);
          }
          end := RunValidated(c, r.(pc := Validating(p)), p, script);
        case Cancelled =>
          var reply := FinishPreWriteFailure(c, CancelledError(), None, script.commitFault);
          end := Raised;
        case RaisedDenial(error) =>
          var reply := FinishPreWriteFailure(c, error, None, script.commitFault);
          end := Replied(reply);
        case _ =>
          var reply := FinishPreWriteFailure(c, UnexpectedError(), None, script.commitFault);
          end := Replied(reply);
      }
    }

    method RunValidated(c: Call, ghost r: Run, p: PreparedWrite, script: Script) returns (end: End)
      requires r.call == c && r.pc == Validating(p)
      modifies journal
      ensures (journal.Snapshot(), end) == Solo(old(journal.Snapshot()), r, script)
    {
      ghost var s := journal.Snapshot();
      ValidatedStep(s, r, p, script);
      if !script.validate.Returned? { PreWriteEnds(s, r, script.validate, Some(p), script); }
      hide Solo, Advance, Committed, FinishOf, Refusal, PreWriteFailure, UnexpectedError, CancelledError;
      match script.validate {
        case Returned(_) =>
          end := RunExecuting(c, r.(pc := Executing(p), entered := true), p, script);
        case Cancelled =>
          var reply := FinishPreWriteFailure(c, CancelledError(), Some(p), script.commitFault);
          end := Raised;
        case RaisedDenial(error) =>
          var reply := FinishPreWriteFailure(c, error, Some(p), script.commitFault);
          end := Replied(reply);
        case _ =>
          var reply := FinishPreWriteFailure(c, UnexpectedError(), Some(p), script.commitFault);
          end := Replied(reply);
      }
    }

    method RunExecuting(c: Call, ghost r: Run, p: PreparedWrite, script: Script) returns (end: End)
      requires r.call == c && r.pc == Executing(p)
      modifies journal
      ensures (journal.Snapshot(), end) == Solo(old(journal.Snapshot()), r, script)
    {
      ghost var s := journal.Snapshot();
      ghost var n := r.(pc := Finishing(ExecuteOutcome(c, p, script.execute)),
                        attempt := Some(AttemptOf(script.execute)));
      ExecutedStep(s, r, p, script);
      match script.execute {
        case Returned(applied) =>
          var reply := AppliedReply(p, applied, c.requestId, c.command.company);
          SoloFinish(s, n, script);
          hide Committed, FinishTx, EventOf, Persist, Solo, Advance, Refusal, AppliedReply, UnknownOutcomeError,
               AttemptOf;
          var finished := journal.Finish(
            EventOf(c, FinalStatus.Succeeded, Some(reply), Some(p.action), applied.refs), c.Key().key,
            RowState.Succeeded, Some(Persist(c.command, reply)), script.commitFault);
          if finished.Err? {
            return Replied(Refusal(c, UnknownOutcomeError(), WriteOutcome.Unknown, Some(p)));
          }
          end := Replied(reply);
        case Cancelled =>
          SoloUnsuccessful(s, n, RowState.Unknown, FinalStatus.Unknown,
                           Refusal(c, UnknownOutcomeError(), WriteOutcome.Unknown, Some(p)), Some(p), true, script);
          var reply := FinalizeUnknown(c, p, script.commitFault);
          end := Raised;
        case RaisedKnownFailure(error) =>
          SoloUnsuccessful(s, n, RowState.Failed, FinalStatus.Failed, Refusal(c, error, Known, Some(p)), Some(p), false,
                           script);
          var reply := FinishKnownWriteFailure(c, error, p, script.commitFault);
          end := Replied(reply);
        case _ =>
          SoloUnsuccessful(s, n, RowState.Unknown, FinalStatus.Unknown,
                           Refusal(c, UnknownOutcomeError(), WriteOutcome.Unknown, Some(p)), Some(p), false, script);
          var reply := FinalizeUnknown(c, p, script.commitFault);
          end := Replied(reply);
      }
    }
  }
}
