/** The audit log and the idempotency table stay in step over whole runs, and replays repeat the record. */
module WriteAudit {
  import opened Wrappers
  import opened JsonValues
  import opened AuditEvents
  import opened ExecutionJournals
  import opened Replies
  import opened WriteRuns
  import opened WriteSafety

  // ---------- Counting events and runs ----------

  function Tally(log: seq<AuditEvent>, wanted: AuditEvent -> bool): nat {
    if log == [] then 0
    else Tally(log[..|log| - 1], wanted) + if wanted(log[|log| - 1]) then 1 else 0
  }

  function Count(runs: seq<Run>, wanted: Run -> bool): nat {
    if runs == [] then 0
    else Count(runs[..|runs| - 1], wanted) + if wanted(runs[|runs| - 1]) then 1 else 0
  }

  function Attempts(): AuditEvent -> bool { (e: AuditEvent) => e.status.Attempted? }

  function AttemptsOf(id: string): AuditEvent -> bool {
    (e: AuditEvent) => e.requestId == id && e.status.Attempted?
  }

  /** Outcomes of real writes; a dry run reports its own preparation. */
  function OutcomesOf(id: string): AuditEvent -> bool {
    (e: AuditEvent) => e.requestId == id && e.status in OUTCOMES && !e.dryRun
  }

  function Reservers(id: string): Run -> bool {
    (r: Run) => r.call.requestId == id && r.slot.Some?
  }

  function Storers(id: string): Run -> bool {
    (r: Run) => r.call.requestId == id && r.stored.Some?
  }

  lemma TallyAppend(log: seq<AuditEvent>, e: AuditEvent, wanted: AuditEvent -> bool)
    ensures Tally(log + [e], wanted) == Tally(log, wanted) + if wanted(e) then 1 else 0
  {
    assert (log + [e])[..|log|] == log;
  }

  lemma {:induction false} CountReplace(runs: seq<Run>, i: nat, n: Run, wanted: Run -> bool)
    requires i < |runs|
    ensures Count(runs[i := n], wanted) + (if wanted(runs[i]) then 1 else 0)
         == Count(runs, wanted) + if wanted(n) then 1 else 0
  {
    var m := |runs| - 1;
    if i < m {
      CountReplace(runs[..m], i, n, wanted);
      assert runs[i := n][..m] == runs[..m][i := n];
    } else {
      assert runs[i := n][..m] == runs[..m];
    }
  }

  lemma CountAppend(runs: seq<Run>, n: Run, wanted: Run -> bool)
    ensures Count(runs + [n], wanted) == Count(runs, wanted) + if wanted(n) then 1 else 0
  {
    assert (runs + [n])[..|runs|] == runs;
  }

  lemma {:induction false} CountNone(runs: seq<Run>, wanted: Run -> bool)
    requires forall j | 0 <= j < |runs| :: !wanted(runs[j])
    ensures Count(runs, wanted) == 0
  {
    if runs != [] { CountNone(runs[..|runs| - 1], wanted); }
  }

  /** Where only one run can be wanted the count says whether it is. */
  lemma {:induction false} CountOnly(runs: seq<Run>, i: nat, wanted: Run -> bool)
    requires i < |runs| && forall j | 0 <= j < |runs| && j != i :: !wanted(runs[j])
    ensures Count(runs, wanted) == if wanted(runs[i]) then 1 else 0
  {
    var n := |runs| - 1;
    if i < n { CountOnly(runs[..n], i, wanted); } else { CountNone(runs[..n], wanted); }
  }

  // ---------- The invariant ----------

  predicate DistinctIds(s: System) {
    forall i: nat, j: nat | i < j < |s.runs| :: s.runs[i].call.requestId != s.runs[j].call.requestId
  }

  /** An event that reports exactly what the run stored. */
  predicate ReportsStored(e: AuditEvent, r: Run) {
    && r.stored.Some? && e.requestId == r.call.requestId && e.tenant == r.call.binding.tenant
    && e.tool == r.call.definition.name && e.status in StatusOf(r.stored.value.0)
    && e.result == Some(Persist(r.call.command, r.stored.value.1))
  }

  predicate Reported(log: seq<AuditEvent>, r: Run) {
    exists t :: 0 <= t < |log| && ReportsStored(log[t], r)
  }

  /** For each request id: one attempted event per reservation and one outcome per outcome stored. */
  ghost predicate Balanced(log: seq<AuditEvent>, runs: seq<Run>) {
    forall id ::
      Tally(log, AttemptsOf(id)) == Count(runs, Reservers(id)) && Tally(log, OutcomesOf(id)) == Count(runs, Storers(id))
  }

  ghost predicate InStep(s: System) {
    && Tally(s.store.log, Attempts()) == |s.reservations|
    && Balanced(s.store.log, s.runs)
    && forall i | 0 <= i < |s.runs| :: s.runs[i].stored.Some? ==> Reported(s.store.log, s.runs[i])
  }

  // ---------- Steps ----------

  lemma ReportedLater(log: seq<AuditEvent>, e: AuditEvent, r: Run)
    requires Reported(log, r)
    ensures Reported(log + [e], r)
  {
    hide ReportsStored;
    var t :| 0 <= t < |log| && ReportsStored(log[t], r);
    assert ReportsStored((log + [e])[t], r);
  }

  /** What the event of a step says is what the step did. */
  predicate Says(e: AuditEvent, r: Run, n: Run) {
    && n.call == r.call && e.requestId == r.call.requestId
    && (r.slot.Some? ==> n.slot.Some?) && (r.stored.Some? ==> n.stored == r.stored)
    && (e.status.Attempted? <==> r.slot.None? && n.slot.Some?)
    && (e.status in OUTCOMES && !e.dryRun <==> r.stored.None? && n.stored.Some?)
    && (r.stored.None? && n.stored.Some? ==> ReportsStored(e, n))
  }

  lemma BalancedAppend(log: seq<AuditEvent>, runs: seq<Run>, i: nat, n: Run, e: AuditEvent)
    requires Balanced(log, runs) && i < |runs| && Says(e, runs[i], n)
    ensures Balanced(log + [e], runs[i := n])
  {
    hide ReportsStored, OUTCOMES;
    forall id
      ensures Tally(log + [e], AttemptsOf(id)) == Count(runs[i := n], Reservers(id))
      ensures Tally(log + [e], OutcomesOf(id)) == Count(runs[i := n], Storers(id))
    {
      TallyAppend(log, e, AttemptsOf(id));
      TallyAppend(log, e, OutcomesOf(id));
      CountReplace(runs, i, n, Reservers(id));
      CountReplace(runs, i, n, Storers(id));
    }
  }

  lemma AppendKeeps(s: System, s': System, i: nat, n: Run, e: AuditEvent)
    requires InStep(s) && i < |s.runs| && s'.runs == s.runs[i := n] && s'.store.log == s.store.log + [e]
    requires Says(e, s.runs[i], n)
    requires |s'.reservations| == |s.reservations| + if e.status.Attempted? then 1 else 0
    ensures InStep(s')
  {
    TallyAppend(s.store.log, e, Attempts());
    BalancedAppend(s.store.log, s.runs, i, n, e);
    hide Balanced, Tally, ReportsStored;
    forall j | 0 <= j < |s'.runs| && s'.runs[j].stored.Some? ensures Reported(s'.store.log, s'.runs[j]) {
      if j != i {
        ReportedLater(s.store.log, e, s.runs[j]);
      } else if s.runs[i].stored.Some? {
        ReportedLater(s.store.log, e, s.runs[i]);
        SameReported(s'.store.log, s.runs[i], n);
      } else {
        assert s'.store.log[|s.store.log|] == e;
      }
    }
  }

  lemma SameReported(log: seq<AuditEvent>, r: Run, n: Run)
    requires Reported(log, r) && n.call == r.call && n.stored == r.stored
    ensures Reported(log, n)
  {
    var t :| 0 <= t < |log| && ReportsStored(log[t], r);
    assert ReportsStored(log[t], n);
  }

  /** A step that appends nothing, reserves nothing and stores nothing. */
  lemma SilentKeeps(s: System, s': System, i: nat, n: Run)
    requires InStep(s) && i < |s.runs| && s'.runs == s.runs[i := n]
    requires n.call == s.runs[i].call && n.slot == s.runs[i].slot && n.stored == s.runs[i].stored
    requires s'.store.log == s.store.log && |s'.reservations| == |s.reservations|
    ensures InStep(s')
  {
    forall id
      ensures Count(s'.runs, Reservers(id)) == Count(s.runs, Reservers(id))
      ensures Count(s'.runs, Storers(id)) == Count(s.runs, Storers(id))
    {
      CountReplace(s.runs, i, n, Reservers(id));
      CountReplace(s.runs, i, n, Storers(id));
    }
    hide Tally, Count, Reported;
    forall j | 0 <= j < |s'.runs| && s'.runs[j].stored.Some? ensures Reported(s'.store.log, s'.runs[j]) {
      if j == i { SameReported(s.store.log, s.runs[i], n); }
    }
  }

  lemma BeginKeepsStep(s: System, i: nat, now: int, fault: Fault)
    requires Inv(s) && InStep(s) && i < |s.runs| && s.runs[i].pc.Beginning?
    ensures InStep(Next(s, Act(i, BeginAt(now, fault))))
  {
    hide *;
    var r := s.runs[i];
    var s', n := Next(s, Act(i, BeginAt(now, fault))), AfterBegin(s.store, r, now, fault).1;
    InvParts(s, i);
    BeginningUnreserved(r);
    NextBegin(s, i, now, fault);
    AfterBeginEffect(s.store, r, now, fault);
    if n.slot.Some? {
      AttemptSays(r, n);
      AppendKeeps(s, s', i, n, AttemptEvent(r.call));
    } else {
      SilentKeeps(s, s', i, n);
    }
  }

  lemma AttemptSays(r: Run, n: Run)
    requires n.call == r.call && r.slot.None? && n.slot.Some? && r.stored.None? && n.stored.None?
    ensures Says(AttemptEvent(r.call), r, n) && AttemptEvent(r.call).status.Attempted?
  {
    hide AttemptAction, ReportsStored;
    EventIdentity(r.call, Attempted, None, AttemptAction(r.call), []);
    hide EventOf;
  }

  lemma OutcomeSays(r: Run, o: Outcome, n: Run)
    requires n.call == r.call && n.slot == r.slot && r.stored.None? && n.stored == Some((o.state, o.reply))
    requires o.status in StatusOf(o.state) && o.status in OUTCOMES && !r.call.command.dryRun
    ensures Says(OutcomeEvent(r.call, o), r, n) && !OutcomeEvent(r.call, o).status.Attempted?
  {
    hide Persist;
    EventIdentity(r.call, o.status, Some(o.reply), o.action, o.refs);
    hide EventOf;
  }

  lemma FinishKeepsStep(s: System, i: nat, fault: Fault)
    requires Inv(s) && InStep(s) && i < |s.runs| && s.runs[i].pc.Finishing?
    ensures InStep(Next(s, Act(i, CommitEnds(fault))))
  {
    hide *;
    var r := s.runs[i];
    var o := r.pc.outcome;
    var s', n := Next(s, Act(i, CommitEnds(fault))), AfterFinish(s.store, r, o, fault).1;
    FinishingFacts(s, i);
    FinishingUnstored(s, i);
    NextFinish(s, i, fault);
    AfterFinishEffect(s, i, fault);
    if fault == LostBefore {
      SilentKeeps(s, s', i, n);
    } else {
      OutcomeSays(r, o, n);
      AppendKeeps(s, s', i, n, OutcomeEvent(r.call, o));
    }
  }

  lemma FinishingFacts(s: System, i: nat)
    requires Inv(s) && i < |s.runs| && s.runs[i].pc.Finishing?
    ensures var c := s.runs[i].call.command; !c.dryRun && c.key.Some? && c.key.value != ""
    ensures var o := s.runs[i].pc.outcome;
      && o.status in OUTCOMES && o.status in StatusOf(o.state) && o.state != InProgress
      && (o.state.Succeeded? <==> o.reply.status.Succeeded?) && (o.state.Unknown? <==> o.reply.outcome.Unknown?)
  {
    assert RunOk(s.runs[i]);
    AdmissibleKey(s.runs[i].call);
    hide Admissible, Loggable, FieldsPresent;
  }

  lemma NextAudit(s: System, i: nat, fault: Fault)
    requires i < |s.runs| && s.runs[i].pc.Auditing?
    ensures var p := s.runs[i].pc; var (after, n) := AfterAudit(s.store, s.runs[i], p.status, p.reply, p.raises, fault);
      Next(s, Act(i, CommitEnds(fault))) == System(after, s.runs[i := n], s.holder, s.reservations)
  {
    hide AfterBegin, AfterAudit, AfterFinish, Prepared, PreWriteFailure, ExecuteOutcome, DryPrepared;
  }

  lemma AfterAuditEffect(s: Store, r: Run, fault: Fault)
    requires r.pc.Auditing?
    ensures var (after, n) := AfterAudit(s, r, r.pc.status, r.pc.reply, r.pc.raises, fault);
      after.log == s.log || after.log == s.log + [EventOf(r.call, r.pc.status, Some(r.pc.reply), None, [])]
  {
    hide EventOf, AuditEnd, Appendable;
  }

  lemma AuditSays(s: System, i: nat, n: Run)
    requires Inv(s) && i < |s.runs| && s.runs[i].pc.Auditing?
    requires var r := s.runs[i]; n.call == r.call && n.slot == r.slot && n.stored == r.stored
    ensures var r := s.runs[i]; var e := EventOf(r.call, r.pc.status, Some(r.pc.reply), None, []);
      Says(e, r, n) && !e.status.Attempted?
  {
    var r := s.runs[i];
    assert RunOk(r);
    hide ReportsStored, Persist;
    EventIdentity(r.call, r.pc.status, Some(r.pc.reply), None, []);
    hide EventOf;
  }

  lemma AuditKeepsStep(s: System, i: nat, fault: Fault)
    requires Inv(s) && InStep(s) && i < |s.runs| && s.runs[i].pc.Auditing?
    ensures InStep(Next(s, Act(i, CommitEnds(fault))))
  {
    hide *;
    var r := s.runs[i];
    var s' := Next(s, Act(i, CommitEnds(fault)));
    var n := AfterAudit(s.store, r, r.pc.status, r.pc.reply, r.pc.raises, fault).1;
    NextAudit(s, i, fault);
    AfterAuditEffect(s.store, r, fault);
    AuditSays(s, i, n);
    if s'.store.log == s.store.log {
      SilentKeeps(s, s', i, n);
    } else {
      AppendKeeps(s, s', i, n, EventOf(r.call, r.pc.status, Some(r.pc.reply), None, []));
    }
  }

  lemma OtherQuiet(s: Store, r: Run, input: Input)
    requires Advance(s, r, input).Some?
    requires r.pc.Beginning? || r.pc.Finishing? || r.pc.Auditing? ==> input.Crash?
    ensures var (after, n) := Advance(s, r, input).value;
      after == s && n.call == r.call && n.slot == r.slot && n.stored == r.stored
  {
    hide AfterBegin, AfterAudit, AfterFinish, Prepared, PreWriteFailure, ExecuteOutcome, DryPrepared;
  }

  lemma NextQuiet(s: System, i: nat, input: Input)
    requires i < |s.runs| && Advance(s.store, s.runs[i], input).Some?
    requires var n := Advance(s.store, s.runs[i], input).value.1; n.slot == s.runs[i].slot
    ensures var s' := Next(s, Act(i, input)); var (after, n) := Advance(s.store, s.runs[i], input).value;
      s'.runs == s.runs[i := n] && s'.store == after && s'.reservations == s.reservations
  {
    hide Advance;
  }

  lemma OtherKeepsStep(s: System, i: nat, input: Input)
    requires InStep(s) && i < |s.runs| && Advance(s.store, s.runs[i], input).Some?
    requires s.runs[i].pc.Beginning? || s.runs[i].pc.Finishing? || s.runs[i].pc.Auditing? ==> input.Crash?
    ensures InStep(Next(s, Act(i, input)))
  {
    hide *;
    OtherQuiet(s.store, s.runs[i], input);
    NextQuiet(s, i, input);
    SilentKeeps(s, Next(s, Act(i, input)), i, Advance(s.store, s.runs[i], input).value.1);
  }

  lemma AdmitKeepsStep(s: System, c: Call)
    requires InStep(s)
    ensures InStep(Next(s, Admit(c)))
  {
    hide Entry, Reported, Tally;
    var s' := Next(s, Admit(c));
    forall id
      ensures Count(s'.runs, Reservers(id)) == Count(s.runs, Reservers(id))
      ensures Count(s'.runs, Storers(id)) == Count(s.runs, Storers(id))
    {
      CountAppend(s.runs, Start(c), Reservers(id));
      CountAppend(s.runs, Start(c), Storers(id));
    }
  }

  lemma NextKeepsStep(s: System, l: Label)
    requires Inv(s) && InStep(s)
    ensures InStep(Next(s, l))
  {
    match l
    case Admit(c) => AdmitKeepsStep(s, c);
    case Act(i, input) =>
      hide Inv, InStep, Advance;
      if i < |s.runs| && Advance(s.store, s.runs[i], input).Some? {
        hide Next;
        ActKeepsStep(s, i, input);
      }
  }

  lemma OnlyCrashAfterAudit(s: Store, r: Run, input: Input)
    requires Advance(s, r, input).Some?
    ensures r.pc.Auditing? && !input.CommitEnds? ==> input.Crash?
  {
    hide AfterBegin, AfterAudit, AfterFinish, Prepared, PreWriteFailure, ExecuteOutcome, DryPrepared;
  }

  lemma ActKeepsStep(s: System, i: nat, input: Input)
    requires Inv(s) && InStep(s) && i < |s.runs| && Advance(s.store, s.runs[i], input).Some?
    ensures InStep(Next(s, Act(i, input)))
  {
    hide *;
    var r := s.runs[i];
    OnlyCrashElsewhere(s.store, r, input);
    OnlyCrashAfterAudit(s.store, r, input);
    if r.pc.Beginning? && input.BeginAt? {
      BeginKeepsStep(s, i, input.now, input.beginFault);
    } else if r.pc.Finishing? && input.CommitEnds? {
      FinishKeepsStep(s, i, input.fault);
    } else if r.pc.Auditing? && input.CommitEnds? {
      AuditKeepsStep(s, i, input.fault);
    } else {
      OtherKeepsStep(s, i, input);
    }
  }

  lemma {:induction false} ExecFromInStep(s: System, labels: seq<Label>)
    requires Inv(s) && InStep(s)
    ensures InStep(ExecFrom(s, labels))
    decreases labels
  {
    hide Inv, InStep, Next;
    if labels != [] {
      NextKeeps(s, labels[0]);
      NextKeepsStep(s, labels[0]);
      ExecFromInStep(Next(s, labels[0]), labels[1..]);
    }
  }

  lemma ReachableInStep(labels: seq<Label>)
    ensures InStep(Exec(labels))
  {
    ExecFromInStep(INITIAL, labels);
  }

  // ---------- Results over all runs ----------

  /** There are as many attempted events as reservations were ever made. */
  lemma AttemptsEqualReservations(labels: seq<Label>)
    ensures Tally(Exec(labels).store.log, Attempts()) == |Exec(labels).reservations|
  {
    ReachableInStep(labels);
  }

  /** The events of a row's owner: exact counts, and for a final row one that reports it. */
  ghost predicate RowInStep(s: System, k: RowKey)
    requires k in s.store.rows
  {
    var log, row := s.store.log, s.store.rows[k];
    && Tally(log, AttemptsOf(row.owner)) == Count(s.runs, Reservers(row.owner))
    && Tally(log, OutcomesOf(row.owner)) == Count(s.runs, Storers(row.owner))
    && (!row.state.InProgress? ==>
          exists t :: 0 <= t < |log|
            && var e := log[t];
               && e.requestId == row.owner && e.tenant == k.tenant && e.tool == k.tool
               && e.status in StatusOf(row.state) && e.result == row.response)
    && (DistinctIds(s) ==>
          && Tally(log, AttemptsOf(row.owner)) == 1
          && Tally(log, OutcomesOf(row.owner)) == if row.state.InProgress? then 0 else 1)
  }

  /**
   For every row: under its owner's request id there is one attempted event per reservation made and one
   outcome event per outcome stored, and a final row's own outcome is among them with its key, state and
   response. With distinct request ids that is one attempted event, and one outcome or none.
   */
  lemma RowsInStep(labels: seq<Label>)
    ensures forall k | k in Exec(labels).store.rows :: RowInStep(Exec(labels), k)
  {
    var s := Exec(labels);
    Reachable(labels);
    ReachableInStep(labels);
    hide *;
    forall k | k in s.store.rows ensures RowInStep(s, k) {
      HolderInStep(s, k);
    }
  }

  lemma HolderInStep(s: System, k: RowKey)
    requires Inv(s) && InStep(s) && k in s.store.rows
    ensures RowInStep(s, k)
  {
    hide Inv, Persist, Tally, Count, HolderOk, DistinctIds;
    HolderOfRow(s, k);
    var row, h := s.store.rows[k], s.runs[s.holder[k]];
    if DistinctIds(s) { OwnerAlone(s, s.holder[k]); }
    if h.stored.Some? {
      assert Reported(s.store.log, h);
      var t :| 0 <= t < |s.store.log| && ReportsStored(s.store.log[t], h);
      assert s.store.log[t].requestId == row.owner;
    }
  }

  lemma OwnerAlone(s: System, i: nat)
    requires DistinctIds(s) && i < |s.runs|
    ensures var r := s.runs[i]; var id := r.call.requestId;
      && Count(s.runs, Reservers(id)) == (if r.slot.Some? then 1 else 0)
      && Count(s.runs, Storers(id)) == if r.stored.Some? then 1 else 0
  {
    var id := s.runs[i].call.requestId;
    CountOnly(s.runs, i, Reservers(id));
    CountOnly(s.runs, i, Storers(id));
  }

  lemma HolderOfRow(s: System, k: RowKey)
    requires Inv(s) && k in s.store.rows
    ensures k in s.holder && s.holder[k] < |s.runs|
    ensures var row, h := s.store.rows[k], s.runs[s.holder[k]];
      && h.call.Key() == k && row.owner == h.call.requestId && h.slot.Some?
      && (h.stored.None? <==> row.state.InProgress?)
      && (h.stored.Some? ==>
            row.state == h.stored.value.0 && row.response == Some(Persist(h.call.command, h.stored.value.1)))
  {
    assert TableOk(s);
    assert HolderOk(s, k);
    hide Inv, Persist, Bound;
  }

  function StateText(state: RowState): string {
    match state
    case InProgress => "in_progress"
    case Succeeded => "succeeded"
    case Failed => "failed"
    case Unknown => "unknown"
  }

  lemma AdmissibleKey(c: Call)
    requires Admissible(c)
    ensures !c.command.dryRun && c.command.key.Some? && c.command.key.value != ""
  {
    hide GateError;
    assert IsBlank("");
  }

  lemma ClaimFollowsState(c: Call, status: FinalStatus, reply: Reply, state: RowState)
    requires !c.command.dryRun && c.command.key.Some? && c.command.key.value != ""
    requires status in OUTCOMES || status == Replayed
    requires state != InProgress
    requires state.Succeeded? <==> reply.status.Succeeded?
    requires state.Unknown? <==> reply.outcome.Unknown?
    ensures ClaimedState(c, status, Some(reply)) == StateText(state)
  {}

  /** Every outcome event claims the idempotency state that the same transaction stores. */
  lemma OutcomeClaimsStoredState(labels: seq<Label>, i: nat)
    requires i < |Exec(labels).runs| && Exec(labels).runs[i].pc.Finishing?
    ensures var r := Exec(labels).runs[i]; var o := r.pc.outcome;
      ClaimedState(r.call, o.status, Some(o.reply)) == StateText(o.state)
  {
    Reachable(labels);
    FinishingFacts(Exec(labels), i);
    hide *;
    var r := Exec(labels).runs[i];
    ClaimFollowsState(r.call, r.pc.outcome.status, r.pc.outcome.reply, r.pc.outcome.state);
  }

  /** The reply a replay rebuilds from a record of the same persistence form. */
  function Rebuilt(cmd: Command, stored: Reply): Reply {
    if cmd.compact then CompactRestored(cmd, stored) else ForPersistence(cmd, stored)
  }

  lemma RestoreRebuilds(cmd: Command, other: Command, stored: Reply)
    requires stored.Valid() && cmd.compact == other.compact
    ensures Restore(other, Some(Persist(cmd, stored))) == Some(Rebuilt(cmd, stored))
  {
    if cmd.compact { CompactRestore(cmd, stored); } else { FullReplayStable(cmd, stored); }
  }

  lemma ReplayBegun(s: Store, r: Run, now: int, fault: Fault)
    requires r.pc.Beginning? && AfterBegin(s, r, now, fault).1.replayed
    ensures var tx, n := BeginOf(s, r.call, now), AfterBegin(s, r, now, fault).1;
      && tx.Ok? && tx.value.1.disposition == Replay && n.pc.Auditing?
      && Restore(r.call.command, tx.value.1.response) == Some(n.pc.reply)
  {
    hide BeginOf, Restore, NotAttemptedReply, UnexpectedError, MismatchError, BusyError;
  }

  /** The row a replaying run was answered from, and the run that stored it. */
  lemma ReplaySource(s: System, i: nat, now: int, fault: Fault)
    requires Inv(s) && i < |s.runs| && s.runs[i].pc.Beginning?
    requires AfterBegin(s.store, s.runs[i], now, fault).1.replayed
    ensures var k := s.runs[i].call.Key(); var n := AfterBegin(s.store, s.runs[i], now, fault).1;
      && k in s.store.rows && HolderOk(s, k) && s.runs[s.holder[k]].stored.Some?
      && RunOk(s.runs[s.holder[k]])
      && n.pc.Auditing?
      && Restore(s.runs[i].call.command, s.store.rows[k].response) == Some(n.pc.reply)
  {
    var r := s.runs[i];
    assert RunOk(r);
    assert r.call.command.key.Some?;
    assert TableOk(s);
    hide RunOk, BeginOf, Restore, AfterBegin, Persist, HistoryOk, Bound, FreshRow, AttemptEvent;
    ReplayBegun(s.store, r, now, fault);
    BeginEffect(s.store, r.call, now);
    ReplayStates(s.store, r.call, now);
    assert HolderOk(s, r.call.Key());
  }

  lemma ReplayStates(s: Store, c: Call, now: int)
    requires c.command.key.Some? && BeginOf(s, c, now).Ok? && BeginOf(s, c, now).value.1.disposition == Replay
    ensures c.Key() in s.rows && s.rows[c.Key()].state != InProgress
  {
    BeginEffect(s, c, now);
    hide BeginOf, FreshRow, AttemptEvent;
  }

  /**
   A replay answers what was stored: status, outcome, request id, company and error of the run that
   holds the key, whose stored reply tells the truth about its write.
   */
  lemma ReplayTellsStoredOutcome(labels: seq<Label>, i: nat, now: int, fault: Fault)
    requires var s := Exec(labels); i < |s.runs| && s.runs[i].pc.Beginning?
    requires AfterBegin(Exec(labels).store, Exec(labels).runs[i], now, fault).1.replayed
    ensures var s := Exec(labels); var k := s.runs[i].call.Key();
      && k in s.holder && s.holder[k] < |s.runs|
      && ReplayFaithful(s.runs[i].call, AfterBegin(s.store, s.runs[i], now, fault).1, s.runs[s.holder[k]])
  {
    var s := Exec(labels);
    Reachable(labels);
    var r := s.runs[i];
    assert RunOk(r);
    AdmissibleKey(r.call);
    ReplaySource(s, i, now, fault);
    hide Inv, AfterBegin, Restore, Persist, Exec, Admissible, ClaimedState, Rebuilt, ReplyTruthful, Truthful;
    var n := AfterBegin(s.store, r, now, fault).1;
    var h := s.runs[s.holder[r.call.Key()]];
    HolderResponse(s, r.call.Key());
    RestoreKeepsVerdict(h.call.command, r.call.command, h.stored.value.1);
    ClaimFollowsState(r.call, Replayed, n.pc.reply, h.stored.value.0);
    if r.call.command.compact == h.call.command.compact {
      RestoreRebuilds(h.call.command, r.call.command, h.stored.value.1);
    }
  }

  lemma HolderResponse(s: System, k: RowKey)
    requires HolderOk(s, k) && s.runs[s.holder[k]].stored.Some? && RunOk(s.runs[s.holder[k]])
    ensures var h := s.runs[s.holder[k]];
      && s.store.rows[k].response == Some(Persist(h.call.command, h.stored.value.1))
      && StoredOk(h, h.stored.value.0, h.stored.value.1) && h.stored.value.0 != InProgress
  {
    hide Persist, Truthful, ReplyTruthful, Admissible, Loggable, FieldsPresent;
  }

  /** What the answer of a replaying run, now `n`, says about the holder `h` of the key. */
  predicate ReplayFaithful(c: Call, n: Run, h: Run) {
    && h.stored.Some? && StoredOk(h, h.stored.value.0, h.stored.value.1) && n.pc.Auditing?
    && SameVerdict(n.pc.reply, h.stored.value.1)
    && ClaimedState(c, Replayed, Some(n.pc.reply)) == StateText(h.stored.value.0)
    && (c.command.compact == h.call.command.compact ==> n.pc.reply == Rebuilt(h.call.command, h.stored.value.1))
  }
}
