/** What a guarded write answers: which gate refuses it, and what each end of its callbacks leads to. */
module WriteAnswers {
  import opened Wrappers
  import opened JsonValues
  import opened AuditEvents
  import opened ExecutionJournals
  import opened Replies
  import opened WriteRuns
  import opened WriteSafety
  import Retries

  // ---------- Admission ----------

  /** Registry metadata that does not misrepresent a write. */
  predicate Honest(d: Definition) {
    && d.risk != Read && d.readOnly == Some(false) && d.idempotent == Some(true) && d.openWorld == Some(true)
    && (d.risk == DraftWrite ==> d.destructive.Some?)
    && (d.risk == ConfirmWrite ==> d.destructive == Some(true))
  }

  /** A gate, whether the call passes it, and the code it answers otherwise. */
  datatype Gate = Gate(passed: bool, code: string)

  /** The gates in the order they are tried. */
  function Gates(c: Call): seq<Gate> {
    [Gate(c.preflight == None, if c.preflight.Some? then c.preflight.value.code else ""),
     Gate(forall f | f in {"company_id", "dry_run", "idempotency_key"} :: f !in c.command.payload, "INVALID_INPUT"),
     Gate(c.command.company > 0, "INVALID_INPUT"),
     Gate(c.definition.permission in c.binding.permissions, "ODOO_AUTH_FAILED"),
     Gate(c.command.company in c.binding.companies, "COMPANY_NOT_FOUND"),
     Gate(c.definition.capability.Some? ==>
            c.definition.capability.value in c.snapshot.modules
            && c.snapshot.modules[c.definition.capability.value],
          "CAPABILITY_NOT_AVAILABLE")]
  }

  predicate AllPassed(c: Call) {
    forall i | 0 <= i < |Gates(c)| :: Gates(c)[i].passed
  }

  /** A key with some character that is not a space. */
  predicate Keyed(c: Call) {
    c.command.key.Some? && exists i | 0 <= i < |c.command.key.value| :: !IsSpace(c.command.key.value[i])
  }

  /** A refusal in front of everything: nothing was attempted, for the reason of `code`. */
  predicate Refuses(r: Run, code: string) {
    && r.pc.Auditing? && r.pc.status == Rejected && !r.pc.raises && r.slot.None? && !r.entered && r.stored.None?
    && r.pc.reply.status.Failed? && r.pc.reply.outcome.NotAttempted? && r.pc.reply.error == Some(code)
    && r.pc.reply.requestId == r.call.requestId && r.pc.reply.company == r.call.command.company
  }

  lemma HonestIsCapable(d: Definition)
    ensures d.WriteCapable() <==> Honest(d)
  {
  }

  lemma KeyedHasKey(c: Call)
    ensures HasKey(c.command) <==> Keyed(c)
  {
  }

  lemma NoneReserved(m: Mapping)
    ensures RESERVED_FIELDS * m.Keys == {} <==> "company_id" !in m && "dry_run" !in m && "idempotency_key" !in m
    ensures RESERVED_FIELDS * m.Keys == {} <==> forall f | f in {"company_id", "dry_run", "idempotency_key"} :: f !in m
  {
    assert forall f :: f in RESERVED_FIELDS * m.Keys <==> f in RESERVED_FIELDS && f in m;
  }

  lemma AllPassedIs(c: Call)
    ensures |Gates(c)| == 6
    ensures AllPassed(c) <==>
      && Gates(c)[0].passed && Gates(c)[1].passed && Gates(c)[2].passed
      && Gates(c)[3].passed && Gates(c)[4].passed && Gates(c)[5].passed
  {
    assert |Gates(c)| == 6;
    hide Gates;
  }

  lemma GatesDecide(c: Call)
    ensures AllPassed(c) <==> c.preflight.None? && GateError(c).None?
  {
    NoneReserved(c.command.payload);
    AllPassedIs(c);
    hide PublicCode, AllPassed, RESERVED_FIELDS;
  }

  /** The first gate a call does not pass gives the code. */
  lemma FirstGateDecides(c: Call, n: nat)
    requires n < |Gates(c)| && !Gates(c)[n].passed && forall m | 0 <= m < n :: Gates(c)[m].passed
    ensures if c.preflight.Some? then Gates(c)[n].code == c.preflight.value.code
            else GateError(c).Some? && Gates(c)[n].code == GateError(c).value.code
  {
    NoneReserved(c.command.payload);
    assert n > 0 ==> Gates(c)[0].passed;
    assert n > 1 ==> Gates(c)[1].passed;
    assert n > 2 ==> Gates(c)[2].passed;
    assert n > 3 ==> Gates(c)[3].passed;
    assert n > 4 ==> Gates(c)[4].passed;
    hide PublicCode, RESERVED_FIELDS;
  }

  /** A call enters with dishonest metadata by raising, and otherwise by the first gate it does not pass. */
  lemma FirstGateAnswers(c: Call, n: nat)
    ensures !Honest(c.definition) <==> Start(c).pc == Done(Raised)
    ensures Honest(c.definition) && n < |Gates(c)| && !Gates(c)[n].passed
            && (forall m | 0 <= m < n :: Gates(c)[m].passed)
            ==> Refuses(Start(c), Gates(c)[n].code)
    ensures Honest(c.definition) && AllPassed(c) ==>
      if c.command.dryRun then Start(c).pc == DryPreparing
      else if Keyed(c) then Start(c).pc == Beginning
      else Refuses(Start(c), "EXECUTION_NOT_EXPLICIT")
  {
    HonestIsCapable(c.definition);
    KeyedHasKey(c);
    GatesDecide(c);
    if n < |Gates(c)| && !Gates(c)[n].passed && forall m | 0 <= m < n :: Gates(c)[m].passed {
      FirstGateDecides(c, n);
    }
    hide GateError, HasKey, Keyed, Honest, PublicCode, Gates, AllPassed;
  }

  /** What a caller must hold for its write to be reserved, entered or stored. */
  predicate Entitled(c: Call) {
    && Honest(c.definition) && c.preflight == None && !c.command.dryRun && Keyed(c)
    && "company_id" !in c.command.payload && "dry_run" !in c.command.payload
    && "idempotency_key" !in c.command.payload
    && c.command.company > 0 && c.command.company in c.binding.companies
    && c.definition.permission in c.binding.permissions
    && (c.definition.capability.Some? ==>
          && c.definition.capability.value in c.snapshot.modules
          && c.snapshot.modules[c.definition.capability.value])
  }

  lemma EntitledIsAdmissible(c: Call)
    ensures Entitled(c) <==> Admissible(c)
    ensures Entitled(c) <==> Honest(c.definition) && AllPassed(c) && !c.command.dryRun && Keyed(c)
  {
    HonestIsCapable(c.definition);
    KeyedHasKey(c);
    GatesDecide(c);
    AllPassedIs(c);
    NoneReserved(c.command.payload);
    hide HasKey, Keyed, Honest, PublicCode, GateError, AllPassed, RESERVED_FIELDS;
  }

  /** Over every history, only an entitled call's run ever reserves a key, enters `execute` or stores an outcome. */
  lemma OnlyEntitledRunsWrite(labels: seq<Label>, i: nat)
    requires i < |Exec(labels).runs|
    ensures var r := Exec(labels).runs[i];
      r.slot.Some? || r.entered || r.stored.Some? ==> Entitled(r.call) && r.slot.Some?
  {
    OnlyAdmissibleRunsReserve(labels, i);
    EntitledIsAdmissible(Exec(labels).runs[i].call);
    hide Exec, Admissible, Entitled;
  }

  /** And an entitled call is admitted: its run stands before the reservation, whatever happened before. */
  lemma EntitledCallsBegin(labels: seq<Label>, c: Call)
    ensures var s, s' := Exec(labels), Next(Exec(labels), Admit(c));
      && s'.runs == s.runs + [Start(c)] && s'.store == s.store && Start(c).call == c
      && (Entitled(c) <==> Start(c).pc.Beginning?)
  {
    hide Exec;
    FirstGateAnswers(c, 0);
    EntitledIsAdmissible(c);
    hide Entitled, Honest, Keyed, AllPassed, Entry;
    EntryBegins(c);
  }

  lemma EntryBegins(c: Call)
    ensures Entry(c).Beginning? <==> Admissible(c)
  {
    hide GateError, HasKey, PublicCode;
  }

  /** A refused call's answer, with its event committed: the code of the first gate it did not pass. */
  lemma RefusedCallAnswers(s: Store, c: Call, n: nat)
    requires Honest(c.definition) && Loggable(c) && n < |Gates(c)| && !Gates(c)[n].passed
    requires forall m | 0 <= m < n :: Gates(c)[m].passed
    ensures Advance(s, Start(c), CommitEnds(NoFault)).Some?
    ensures var (after, r) := Advance(s, Start(c), CommitEnds(NoFault)).value;
      && r.pc.Done? && r.pc.end.Replied? && r.pc.end.reply.error == Some(Gates(c)[n].code)
      && r.pc.end.reply.outcome.NotAttempted?
      && after.rows == s.rows && |after.log| == |s.log| + 1 && after.log[|s.log|].status == Rejected
  {
    FirstGateAnswers(c, n);
    Retries.AuditedAnswer(s, Start(c), NoFault);
    hide Advance, Gates, Loggable, Honest, Entry;
  }

  // ---------- The callbacks ----------

  /** A failure that shows what was prepared, for the reason of an error. */
  predicate Fails(c: Call, reply: Reply, p: Option<PreparedWrite>, outcome: WriteOutcome, e: ErrorInfo) {
    && reply.status.Failed? && reply.outcome == outcome && reply.requestId == c.requestId
    && reply.company == c.command.company && reply.refs == []
    && reply.error == Some(e.code) && reply.message == Some(e.message) && reply.hint == Some(e.hint)
    && (p.None? ==> reply.action == None && reply.effects == map[] && reply.artifact == None)
    && (p.Some? ==>
          && reply.action == Some(p.value.action)
          && reply.effects == p.value.effects
          && reply.artifact == p.value.artifact)
  }

  /** What is left to finish after a callback before the write did not return. */
  predicate PreWrite<T>(c: Call, end: CallbackEnd<T>, p: Option<PreparedWrite>, o: Outcome) {
    && o.state == RowState.Failed && o.status == FinalStatus.Failed && o.reply == o.onLoss
    && (o.raises <==> end.Cancelled?)
    && o.action == (if p.None? then None else Some(p.value.action)) && o.refs == []
    && (if end.RaisedDenial? then Fails(c, o.reply, p, NotAttempted, end.denial)
        else o.reply.error == Some("UNKNOWN_ERROR") && o.reply.outcome.NotAttempted? && o.reply.status.Failed?)
  }

  lemma PreWriteAnswers<T>(c: Call, end: CallbackEnd<T>, p: Option<PreparedWrite>)
    requires !end.Returned?
    ensures PreWrite(c, end, p, PreWriteFailure(c, end, p))
  {
    hide PublicCode;
  }

  /** A prepared write that needs input is answered with its preview and never validated or executed. */
  lemma PrepareAnswers(s: Store, r: Run, end: CallbackEnd<PreparedWrite>)
    requires r.pc.Preparing?
    ensures Advance(s, r, PrepareEnds(end)).Some?
    ensures var (after, n) := Advance(s, r, PrepareEnds(end)).value; var c := r.call;
      && after == s
      && (end.Returned? && !end.value.needsInput ==> n.pc == Validating(end.value))
      && (end.Returned? && end.value.needsInput ==>
            && n.pc.Finishing? && var o := n.pc.outcome;
            && o.state == RowState.Failed && o.status == FinalStatus.NeedsInput && !o.raises && o.reply == o.onLoss
            && o.reply == Reply(WriteStatus.NeedsInput, NotAttempted, c.requestId, c.command.company,
                                Some(end.value.action), end.value.effects, [], end.value.artifact, None, None, None))
      && (!end.Returned? ==> n.pc.Finishing? && PreWrite(c, end, None, n.pc.outcome))
  {
    hide PublicCode, PreWriteFailure, PreWrite;
    if !end.Returned? { PreWriteAnswers(r.call, end, None); }
  }

  lemma ValidateAnswers(s: Store, r: Run, end: CallbackEnd<()>)
    requires r.pc.Validating?
    ensures Advance(s, r, ValidateEnds(end)).Some?
    ensures var (after, n) := Advance(s, r, ValidateEnds(end)).value;
      && after == s
      && (end.Returned? ==> n.pc == Executing(r.pc.prepared) && n.entered)
      && (!end.Returned? ==>
            n.pc.Finishing? && PreWrite(r.call, end, Some(r.pc.prepared), n.pc.outcome) && n.entered == r.entered)
  {
    hide PublicCode, PreWriteFailure, PreWrite;
    if !end.Returned? { PreWriteAnswers(r.call, end, Some(r.pc.prepared)); }
  }

  /** Only a proved rejection is answered as known to have failed; anything else that fails is unknown. */
  lemma ExecuteAnswers(s: Store, r: Run, end: CallbackEnd<AppliedWrite>)
    requires r.pc.Executing?
    ensures Advance(s, r, ExecuteEnds(end)).Some?
    ensures var (after, n) := Advance(s, r, ExecuteEnds(end)).value; var c, p := r.call, r.pc.prepared;
      && after == s && n.pc.Finishing?
      && var o := n.pc.outcome;
      && (o.raises <==> end.Cancelled?) && o.action == Some(p.action)
      && (end.Returned? ==>
            && o.state == RowState.Succeeded && o.status == FinalStatus.Succeeded && o.refs == end.value.refs
            && o.reply.status.Succeeded? && o.reply.outcome.Known? && o.reply.requestId == c.requestId
            && o.reply.company == c.command.company && o.reply.action == Some(p.action)
            && o.reply.effects == end.value.effects && o.reply.refs == end.value.refs && o.reply.error == None
            && o.reply.artifact == (if end.value.artifact in {None, Some("")} then p.artifact else end.value.artifact)
            && o.onLoss.outcome.Unknown? && o.onLoss.error == Some("UNKNOWN_ERROR"))
      && (end.RaisedKnownFailure? ==>
            && o.state == RowState.Failed && o.status == FinalStatus.Failed && o.refs == [] && o.reply == o.onLoss
            && Fails(c, o.reply, Some(p), Known, end.known))
      && (!end.Returned? && !end.RaisedKnownFailure? ==>
            && o.state == RowState.Unknown && o.status == FinalStatus.Unknown && o.refs == [] && o.reply == o.onLoss
            && o.reply.outcome.Unknown? && o.reply.error == Some("UNKNOWN_ERROR"))
  {
    hide PublicCode;
  }

  /** A dry run is never reserved: it ends with a preview, a question or a failure in the audit log. */
  lemma DryRunAnswers(s: Store, r: Run, end: CallbackEnd<PreparedWrite>)
    requires r.pc.DryPreparing?
    ensures Advance(s, r, PrepareEnds(end)).Some?
    ensures var (after, n) := Advance(s, r, PrepareEnds(end)).value; var c := r.call;
      && after == s && n.slot == r.slot && n.pc.Auditing? && (n.pc.raises <==> end.Cancelled?)
      && (end.Returned? ==>
            && n.pc.status == (if end.value.needsInput then FinalStatus.NeedsInput else Previewed)
            && n.pc.reply == Reply(if end.value.needsInput then WriteStatus.NeedsInput else Preview, NotAttempted,
                                   c.requestId, c.command.company, Some(end.value.action), end.value.effects, [],
                                   end.value.artifact, None, None, None))
      && (!end.Returned? ==>
            && n.pc.status == FinalStatus.Failed && n.pc.reply.outcome.NotAttempted? && n.pc.reply.status.Failed?
            && (if end.RaisedDenial? then Fails(c, n.pc.reply, None, NotAttempted, end.denial)
                else n.pc.reply.error == Some("UNKNOWN_ERROR")))
  {
    hide PublicCode;
  }

  /** How a finish ends: the reply when it was recorded, its fallback when it was not, or the cancellation again. */
  lemma FinishAnswers(labels: seq<Label>, i: nat, fault: Fault)
    requires i < |Exec(labels).runs| && Exec(labels).runs[i].pc.Finishing?
    ensures var s := Exec(labels).store; var r := Exec(labels).runs[i]; var o := r.pc.outcome;
      && Advance(s, r, CommitEnds(fault)).Some?
      && Advance(s, r, CommitEnds(fault)).value.1.pc
         == Done(if o.raises then Raised else Replied(if fault == NoFault then o.reply else o.onLoss))
  {
    hide *;
    Reachable(labels);
    FinishAccepted(Exec(labels), i);
    AcceptedFinishEnds(Exec(labels).store, Exec(labels).runs[i], fault);
  }

  lemma AcceptedFinishEnds(s: Store, r: Run, fault: Fault)
    requires r.pc.Finishing? && FinishOf(s, r.call, r.pc.outcome).Ok?
    ensures Advance(s, r, CommitEnds(fault)).Some?
    ensures var o := r.pc.outcome;
      Advance(s, r, CommitEnds(fault)).value.1.pc
      == Done(if o.raises then Raised else Replied(if fault == NoFault then o.reply else o.onLoss))
  {
    hide FinishOf, AfterBegin, AfterAudit, Prepared, PreWriteFailure, ExecuteOutcome, DryPrepared;
  }

  lemma FinishAccepted(s: System, i: nat)
    requires Inv(s) && i < |s.runs| && s.runs[i].pc.Finishing?
    ensures FinishOf(s.store, s.runs[i].call, s.runs[i].pc.outcome).Ok?
  {
    hide Inv, FinishOf;
    FinishNeverRefused(s, i);
  }

  // ---------- The audit events ----------

  const CONTROLS: set<string> := {"company_id", "dry_run"}

  /** What an event's input shows: the request or its projection, and the controls; the key only with the request. */
  predicate ShowsInput(c: Call, input: Mapping) {
    var shown := if c.command.audit.Some? then c.command.audit.value else c.command.payload;
    var last := if c.command.audit.Some? then "idempotency_state" else "idempotency_key";
    && input.Keys == shown.Keys + CONTROLS + {last}
    && input["company_id"] == Num(c.command.company) && input["dry_run"] == Bool(c.command.dryRun)
    && (forall k | k in shown && k !in CONTROLS + {last} :: input[k] == shown[k])
    && (c.command.audit.None? ==> input[last] == (if c.command.key.Some? then Str(c.command.key.value) else Null))
  }

  lemma ControlsDiffer()
    ensures "company_id" != "dry_run" && "idempotency_key" !in CONTROLS && "idempotency_state" !in CONTROLS
  {
    assert "company_id"[0] != "dry_run"[0];
    assert |"idempotency_key"| != |"company_id"| && |"idempotency_key"| != |"dry_run"|;
    assert |"idempotency_state"| != |"company_id"| && |"idempotency_state"| != |"dry_run"|;
  }

  lemma InputShows(c: Call, status: FinalStatus, reply: Option<Reply>)
    ensures ShowsInput(c, EventInput(c, status, reply))
  {
    ControlsDiffer();
    hide ClaimedState;
  }

  /** Who made which call of which tool on whose behalf, how it ended, and what is kept of it. */
  lemma EventTells(c: Call, status: FinalStatus, reply: Option<Reply>, action: Option<Mapping>, refs: seq<string>)
    ensures var e := EventOf(c, status, reply, action, refs);
      && e.requestId == c.requestId && e.tenant == c.binding.tenant && e.subject == c.binding.subject
      && e.client == c.binding.client && e.database == Some(c.binding.database) && e.user == Some(c.binding.user)
      && e.tool == c.definition.name && e.toolVersion == c.definition.version && e.moduleName == c.moduleName
      && e.version == Some(c.snapshot.version) && e.transport == Some(c.snapshot.transport)
      && e.company == (if c.command.company > 0 then Some(c.command.company) else None)
      && e.dryRun == c.command.dryRun && e.status == status && e.refs == refs
      && ShowsInput(c, e.input)
      && e.action.Some? == action.Some?
      && (action.Some? ==> Retains(e.action.value, action.value, c.command.actionKeys))
      && e.result == (if reply.None? then None else Some(Persist(c.command, reply.value)))
      && (if reply.Some? && reply.value.status.Failed?
          then e.errorCode == reply.value.error && e.errorMessage == reply.value.message
          else e.errorCode == None && e.errorMessage == None)
  {
    InputShows(c, status, reply);
    hide EventInput, ShowsInput, Persist;
  }

  /** What an event of a projected input claims of the key before an outcome is stored. */
  lemma ClaimsBeforeOutcome(c: Call, status: FinalStatus, reply: Reply)
    ensures ClaimedState(c, Attempted, None) == "in_progress"
    ensures status in {Rejected, Conflicted, Previewed} ==> ClaimedState(c, status, Some(reply)) == "not_reserved"
    ensures c.command.dryRun && reply.outcome.NotAttempted? && !reply.status.Succeeded? && status != Attempted ==>
      ClaimedState(c, status, Some(reply)) == "not_reserved"
  {
  }
}
