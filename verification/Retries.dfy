/** What a call answers when its key was used before, over every history of the table. */
module Retries {
  import opened Wrappers
  import opened JsonValues
  import opened AuditEvents
  import opened ExecutionJournals
  import opened Replies
  import opened WriteRuns
  import opened WriteSafety
  import opened WriteAudit

  /** The run reserves: a new row of its own, and its attempted event behind the log. */
  predicate TakesKey(s: Store, r: Run, now: int, after: Store, n: Run) {
    && n.pc.Preparing? && n.slot == Some(now)
    && r.call.command.key.Some?
    && after.rows == s.rows[RowKey(r.call.binding.tenant, r.call.definition.name, r.call.command.key.value) :=
         Row(r.call.command.company, BoundRequest(r.call.command.company, r.call.command.payload), InProgress,
             r.call.requestId, None, now + DAY)]
    && |after.log| == |s.log| + 1 && s.log <= after.log && after.log[|s.log|].status == Attempted
  }

  /** The run is about to answer that nothing was attempted, for the reason of `code`. */
  predicate Conflicts(n: Run, code: string) {
    && n.pc.Auditing? && n.pc.status == Conflicted && !n.pc.raises && !n.replayed
    && n.pc.reply.status.Failed? && n.pc.reply.outcome.NotAttempted? && n.pc.reply.error == Some(code)
  }

  /** The run is about to answer what `h` stored. */
  predicate Replays(n: Run, h: Run) {
    && h.stored.Some? && n.pc.Auditing? && n.pc.status == Replayed && !n.pc.raises && n.replayed
    && SameVerdict(n.pc.reply, h.stored.value.1)
  }

  /** The run ends with an error, in front of the write and without an event. */
  predicate GivesUp(n: Run) {
    && n.pc.Done? && n.pc.end.Replied? && n.pc.end.reply.status.Failed? && n.pc.end.reply.outcome.NotAttempted?
    && n.pc.end.reply.error == Some("UNKNOWN_ERROR")
  }

  /** The run stored a final outcome, and reserved at least a lifetime ago. */
  predicate Expired(h: Run, now: int) {
    && h.stored.Some? && (h.stored.value.0 == RowState.Succeeded || h.stored.value.0 == RowState.Failed)
    && h.slot.Some? && h.slot.value + DAY <= now
  }

  /** What the reservation step of a named call answers over a holder's row, in the order the cases apply. */
  predicate Answered(s: Store, r: Run, h: Option<Run>, now: int, after: Store, n: Run) {
    if h.None? || Expired(h.value, now) then TakesKey(s, r, now, after, n)
    else
      && after == s && n.slot.None?
      && if r.call.command.company != h.value.call.command.company
            || r.call.command.payload != h.value.call.command.payload
         then Conflicts(n, "IDEMPOTENCY_KEY_PAYLOAD_MISMATCH")
         else if h.value.stored.None? then Conflicts(n, "CONCURRENT_OPERATION_IN_PROGRESS")
         else Replays(n, h.value) || (r.call.command.compact != h.value.call.command.compact && GivesUp(n))
  }

  lemma LoggableAppends(c: Call)
    requires Loggable(c)
    ensures Appendable(AttemptEvent(c))
    ensures var e := AttemptEvent(c);
      && e.requestId == c.requestId && e.tenant == c.binding.tenant && e.tool == c.definition.name
      && e.status == Attempted && (c.command.company > 0 ==> e.company == Some(c.command.company))
  {
    hide IsBlank, AttemptAction;
    EventIdentity(c, Attempted, None, AttemptAction(c), []);
  }

  lemma RestoresOwnForm(cmd: Command, other: Command, r: Reply)
    requires r.Valid() && cmd.compact == other.compact
    ensures Restore(other, Some(Persist(cmd, r))).Some?
  {
    hide Persist, Restore, Rebuilt;
    RestoreRebuilds(cmd, other, r);
  }

  /** A named call's reservation transaction is the reservation with its event. */
  lemma BeginDecides(s: Store, c: Call, now: int)
    requires Loggable(c) && c.command.key.Some? && c.command.company > 0
    ensures var k := RowKey(c.binding.tenant, c.definition.name, c.command.key.value);
      BeginOf(s, c, now) ==
        match ReserveIn(s.rows, k, BoundRequest(c.command.company, c.command.payload), c.requestId, now)
        case Err(e) => Err(e)
        case Ok((rows, d)) =>
          if d.disposition == Reserved then Ok((Store(rows, s.log + [AttemptEvent(c)]), d)) else Ok((s, d))
  {
    LoggableAppends(c);
    hide Loggable, IsBlank, AttemptEvent, ReserveIn, Appendable;
  }

  lemma BeginningCall(r: Run)
    requires RunOk(r) && r.pc.Beginning?
    ensures r.call.command.company > 0 && r.call.command.key.Some? && !IsBlank(r.call.command.key.value)
    ensures r.slot.None? && !r.replayed
  {
    hide IsBlank, Loggable, FieldsPresent;
  }

  lemma FreeAnswered(s: Store, r: Run, now: int)
    requires RunOk(r) && r.pc.Beginning? && Loggable(r.call)
    requires r.call.Key() in s.rows ==> Replayable(s.rows[r.call.Key()]) && Reusable(s.rows[r.call.Key()], now)
    ensures var (after, n) := AfterBegin(s, r, now, NoFault); TakesKey(s, r, now, after, n)
  {
    var k, c := r.call.Key(), r.call;
    BeginningCall(r);
    BeginDecides(s, c, now);
    ReserveAnswers(s.rows, k, c.command.company, c.command.payload, c.requestId, now);
    LoggableAppends(c);
    hide ReserveIn, BeginOf, RunOk, Loggable, IsBlank, AttemptEvent, Restore, PublicCode, Appendable;
  }

  /** Behind a row that stands, the decision alone answers. */
  lemma HeldDecides(s: Store, r: Run, now: int)
    requires RunOk(r) && r.pc.Beginning? && Loggable(r.call)
    requires r.call.Key() in s.rows && Replayable(s.rows[r.call.Key()]) && !Reusable(s.rows[r.call.Key()], now)
    ensures var (after, n) := AfterBegin(s, r, now, NoFault); var row := s.rows[r.call.Key()];
      && after == s && n.slot.None?
      && if row.request != BoundRequest(r.call.command.company, r.call.command.payload)
         then Conflicts(n, "IDEMPOTENCY_KEY_PAYLOAD_MISMATCH")
         else if row.state == InProgress then Conflicts(n, "CONCURRENT_OPERATION_IN_PROGRESS")
         else match Restore(r.call.command, row.response)
              case None => GivesUp(n)
              case Some(reply) => n.pc == Auditing(Replayed, reply, false) && n.replayed
  {
    var k, c := r.call.Key(), r.call;
    BeginningCall(r);
    BeginDecides(s, c, now);
    ReserveAnswers(s.rows, k, c.command.company, c.command.payload, c.requestId, now);
    hide ReserveIn, BeginOf, RunOk, Loggable, IsBlank, AttemptEvent, Restore, PublicCode, Appendable;
  }

  lemma HeldAnswered(s: Store, r: Run, h: Run, now: int)
    requires RunOk(r) && r.pc.Beginning? && Loggable(r.call)
    requires r.call.Key() in s.rows && RowMatches(s.rows[r.call.Key()], h) && RunOk(h) && !Expired(h, now)
    ensures var (after, n) := AfterBegin(s, r, now, NoFault); Answered(s, r, Some(h), now, after, n)
  {
    hide RunOk, AfterBegin, Restore, Persist, Conflicts, GivesUp, SameVerdict, TakesKey, Loggable;
    HeldDecides(s, r, now);
    if h.stored.Some? {
      StoredValid(h);
      if r.call.command.compact == h.call.command.compact {
        RestoresOwnForm(h.call.command, r.call.command, h.stored.value.1);
      }
      if Restore(r.call.command, s.rows[r.call.Key()].response).Some? {
        RestoreKeepsVerdict(h.call.command, r.call.command, h.stored.value.1);
      }
    }
  }

  lemma StoredValid(h: Run)
    requires RunOk(h) && h.stored.Some?
    ensures h.stored.value.1.Valid() && h.stored.value.0 != InProgress
  {
    hide ReplyTruthful, Admissible, Loggable, FieldsPresent, PcOk;
  }

  lemma EarlierSettled(s: System, q: nat, p: nat)
    requires Inv(s) && q < p < |s.reservations|
    requires s.reservations[q] < |s.runs| && s.reservations[p] < |s.runs|
    requires s.runs[s.reservations[q]].call.Key() == s.runs[s.reservations[p]].call.Key()
    ensures Settled(s.runs[s.reservations[q]], s.runs[s.reservations[p]])
  {
    hide RunOk, TableOk, Settled;
    assert OrderOk(s, q, p);
  }

  /** The holder of a key is the last run that reserved it. */
  lemma HolderIsLast(s: System, p: nat)
    requires Inv(s) && p < |s.reservations| && s.reservations[p] < |s.runs|
    requires forall q | p < q < |s.reservations| ::
      s.reservations[q] < |s.runs| && s.runs[s.reservations[q]].call.Key() != s.runs[s.reservations[p]].call.Key()
    ensures var k := s.runs[s.reservations[p]].call.Key(); k in s.holder && s.holder[k] == s.reservations[p]
  {
    var i := s.reservations[p];
    var k := s.runs[i].call.Key();
    assert ReservationOk(s, i) && s.runs[i].slot.Some? && k in s.holder;
    var j := s.holder[k];
    HolderReserved(s, k);
    assert ReservationOk(s, j) && j in s.reservations;
    var q :| 0 <= q < |s.reservations| && s.reservations[q] == j;
    if j != i {
      assert Settled(s.runs[i], s.runs[j]);
      EarlierSettled(s, q, p);
      assert false;
    }
  }

  lemma HolderReserved(s: System, k: RowKey)
    requires Inv(s) && k in s.holder
    ensures s.holder[k] < |s.runs| && s.runs[s.holder[k]].call.Key() == k && s.runs[s.holder[k]].slot.Some?
    ensures k in s.store.rows && RowMatches(s.store.rows[k], s.runs[s.holder[k]]) && RunOk(s.runs[s.holder[k]])
  {
    assert HolderOk(s, k);
    hide RunOk, Persist, Bound;
  }

  /** The p-th reservation is one of the call's own tenant, tool and key. */
  predicate ReservedFor(s: System, p: nat, c: Call) {
    p < |s.reservations| && s.reservations[p] < |s.runs| && OneKey(s.runs[s.reservations[p]].call, c)
  }

  lemma ReservedForKey(s: System, p: nat, c: Call)
    requires Inv(s) && c.command.key.Some? && p < |s.reservations|
    ensures s.reservations[p] < |s.runs|
    ensures ReservedFor(s, p, c) <==> s.runs[s.reservations[p]].call.Key() == c.Key()
  {
    var r := s.runs[s.reservations[p]];
    assert RunOk(r) && r.slot.Some?;
    hide Inv, PcOk, Loggable, FieldsPresent, GateError;
    KeysAgree(r.call, c);
  }

  lemma NoRowUnreserved(s: System, c: Call)
    requires Inv(s) && c.command.key.Some? && forall p: nat :: !ReservedFor(s, p, c)
    ensures c.Key() !in s.store.rows
  {
    if c.Key() in s.store.rows {
      assert TableOk(s);
      HolderReserved(s, c.Key());
      assert ReservationOk(s, s.holder[c.Key()]);
      var p: nat :| p < |s.reservations| && s.reservations[p] == s.holder[c.Key()];
      hide Inv;
      ReservedForKey(s, p, c);
      assert false;
    }
  }

  lemma LastRow(s: System, p: nat, c: Call)
    requires Inv(s) && c.command.key.Some? && ReservedFor(s, p, c)
    requires forall q | p < q < |s.reservations| :: !ReservedFor(s, q, c)
    ensures c.Key() in s.store.rows && RowMatches(s.store.rows[c.Key()], s.runs[s.reservations[p]])
    ensures RunOk(s.runs[s.reservations[p]])
  {
    hide Inv, RowMatches, RunOk;
    ReservedForKey(s, p, c);
    forall q | p < q < |s.reservations|
      ensures s.reservations[q] < |s.runs| && s.runs[s.reservations[q]].call.Key() != c.Key()
    {
      ReservedForKey(s, q, c);
    }
    HolderIsLast(s, p);
    HolderReserved(s, c.Key());
  }

  lemma MatchedRow(row: Row, h: Run, now: int)
    requires RowMatches(row, h)
    ensures Replayable(row) && (Reusable(row, now) <==> Expired(h, now))
  {
    hide Persist;
  }

  /**
   Over every history, a call answers by the last reservation of its tenant, tool and key, and by nothing
   else: without one, or behind one that stored a final outcome and is a lifetime old, it reserves; under
   another company or payload it is told of the mismatch; while that run stored nothing it is told to wait;
   and otherwise it replays what that run stored, always so in the form that run stored it.
   */
  lemma RetryAnswered(labels: seq<Label>, i: nat, now: int)
    requires var s := Exec(labels); i < |s.runs| && s.runs[i].pc.Beginning? && Loggable(s.runs[i].call)
    ensures var s := Exec(labels); var r := s.runs[i];
      && Advance(s.store, r, BeginAt(now, NoFault)).Some?
      && var (after, n) := Advance(s.store, r, BeginAt(now, NoFault)).value;
      && ((forall p: nat :: !ReservedFor(s, p, r.call)) ==> Answered(s.store, r, None, now, after, n))
      && (forall p: nat |
            ReservedFor(s, p, r.call) && forall q | p < q < |s.reservations| :: !ReservedFor(s, q, r.call) ::
            Answered(s.store, r, Some(s.runs[s.reservations[p]]), now, after, n))
  {
    var s := Exec(labels);
    Reachable(labels);
    var r := s.runs[i];
    InvParts(s, i);
    BeginningCall(r);
    hide Inv, RunOk, AfterBegin, Answered, Loggable, RowMatches, Exec, ReservedFor;
    if forall p: nat :: !ReservedFor(s, p, r.call) {
      NoRowUnreserved(s, r.call);
      StepAnswered(s.store, r, None, now);
    }
    forall p: nat | ReservedFor(s, p, r.call) && forall q | p < q < |s.reservations| :: !ReservedFor(s, q, r.call)
      ensures Answered(s.store, r, Some(s.runs[s.reservations[p]]), now, AfterBegin(s.store, r, now, NoFault).0,
                       AfterBegin(s.store, r, now, NoFault).1)
    {
      ReservedIn(s, p, r.call);
      LastAnswers(s, r, p, now);
    }
  }

  lemma LastAnswers(s: System, r: Run, p: nat, now: int)
    requires Inv(s) && RunOk(r) && r.pc.Beginning? && r.call.command.key.Some? && Loggable(r.call)
    requires ReservedFor(s, p, r.call) && p < |s.reservations| && s.reservations[p] < |s.runs|
    requires forall q | p < q < |s.reservations| :: !ReservedFor(s, q, r.call)
    ensures var (after, n) := AfterBegin(s.store, r, now, NoFault);
      Answered(s.store, r, Some(s.runs[s.reservations[p]]), now, after, n)
  {
    hide Inv, RunOk, AfterBegin, Answered, Loggable, RowMatches, ReservedFor;
    LastRow(s, p, r.call);
    StepAnswered(s.store, r, Some(s.runs[s.reservations[p]]), now);
  }

  lemma ReservedIn(s: System, p: nat, c: Call)
    requires ReservedFor(s, p, c)
    ensures p < |s.reservations| && s.reservations[p] < |s.runs|
  {
  }

  lemma StepAnswered(s: Store, r: Run, h: Option<Run>, now: int)
    requires RunOk(r) && r.pc.Beginning? && Loggable(r.call)
    requires h.None? ==> r.call.Key() !in s.rows
    requires h.Some? ==>
      r.call.Key() in s.rows && RowMatches(s.rows[r.call.Key()], h.value) && RunOk(h.value)
    ensures var (after, n) := AfterBegin(s, r, now, NoFault); Answered(s, r, h, now, after, n)
  {
    hide RunOk, AfterBegin, TakesKey, Loggable, RowMatches, Expired;
    if h.None? {
      FreeAnswered(s, r, now);
    } else {
      MatchedRow(s.rows[r.call.Key()], h.value, now);
      if Expired(h.value, now) {
        FreeAnswered(s, r, now);
      } else {
        HeldAnswered(s, r, h.value, now);
      }
    }
  }

  /** A lost transaction never answers as if it had been made. */
  lemma LostBeginGivesUp(s: Store, r: Run, now: int, fault: Fault)
    requires r.pc.Beginning? && fault != NoFault && BeginOf(s, r.call, now).Ok?
    ensures GivesUp(AfterBegin(s, r, now, fault).1)
  {
    hide BeginOf, PublicCode;
  }

  /**
   With its event accepted and committed, a run gives exactly the answer it was about to give; when the event
   cannot be recorded it says so instead, except that a cancellation is raised either way.
   */
  lemma AuditedAnswer(s: Store, n: Run, fault: Fault)
    requires n.pc.Auditing?
    ensures Advance(s, n, CommitEnds(fault)).Some?
    ensures var (after, e) := Advance(s, n, CommitEnds(fault)).value;
      && after.rows == s.rows
      && (if Loggable(n.call) && fault != LostBefore
          then |after.log| == |s.log| + 1 && s.log <= after.log && after.log[|s.log|].status == n.pc.status
          else after == s)
      && (n.pc.raises ==> e.pc == Done(Raised))
      && (!n.pc.raises && Loggable(n.call) && fault == NoFault ==> e.pc == Done(Replied(n.pc.reply)))
      && (!n.pc.raises && !(Loggable(n.call) && fault == NoFault) ==>
            GivesUp(e) && e.pc.end.reply.requestId == n.pc.reply.requestId)
  {
    hide EventOf, IsBlank, Appendable, Loggable, PublicCode;
    EventIdentity(n.call, n.pc.status, Some(n.pc.reply), None, []);
  }
}
