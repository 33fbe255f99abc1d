/**
 Payroll writes as they are made: each takes its payslip's lock, or is handed to the coordinator already
 refused, and gives the lock back once the coordinator has returned. Any number of them interleave with each
 other and with the writes of other tools, in one process that may be restarted.
 */
module PayrollWrites {
  import opened Wrappers
  import opened WriteRuns
  import W = WriteSafety
  import PayslipLocks
  import opened ExecutionJournals

  type LockKey = PayslipLocks.LockKey

  /** How a run came to the coordinator; `entry` is its entry into the lock registry. */
  datatype Use = OtherTool | DryRun(key: LockKey) | Guarded(key: LockKey, entry: nat) {
    function Payslip(): Option<LockKey> {
      if OtherTool? then None else Some(key)
    }
  }

  datatype System = System(locks: PayslipLocks.Locks, writes: W.System, uses: seq<Use>)

  datatype Event =
    | Tool(call: Call) | Payroll(call: Call, payslip: int) | Step(run: nat, input: Input) | Return(run: nat) | Restart

  const INITIAL: System := System(PayslipLocks.Locks({}, []), W.INITIAL, [])

  function LockedError(): SafeError {
    Coded("CONCURRENT_OPERATION_IN_PROGRESS", "payslip write active", "wait or retry")
  }

  predicate Live(r: Run) { !r.pc.Done? && !r.pc.Crashed? }

  /** A restarted process: every run is gone, and every entry with it. */
  function CrashAll(s: W.System, n: nat): W.System {
    if n == 0 then s else W.Next(CrashAll(s, n - 1), W.Act(n - 1, Crash))
  }

  function Released(entries: seq<PayslipLocks.Holding>): seq<PayslipLocks.Holding> {
    seq(|entries|, i requires 0 <= i < |entries| => entries[i].(left := true))
  }

  function Next(s: System, e: Event): System {
    match e
    case Tool(c) => s.(writes := W.Next(s.writes, W.Admit(c)), uses := s.uses + [OtherTool])
    case Payroll(c, payslip) =>
      var key := PayslipLocks.LockKey(c.binding.tenant, c.command.company, payslip);
      if c.command.dryRun then
        s.(writes := W.Next(s.writes, W.Admit(c.(preflight := None))), uses := s.uses + [DryRun(key)])
      else
        var refusal := if key in s.locks.active then Some(LockedError()) else None;
        System(PayslipLocks.Entered(s.locks, key), W.Next(s.writes, W.Admit(c.(preflight := refusal))),
               s.uses + [Guarded(key, |s.locks.entries|)])
    case Step(i, input) => s.(writes := W.Next(s.writes, W.Act(i, input)))
    case Return(i) =>
      if i < |s.uses| && i < |s.writes.runs| && s.uses[i].Guarded? && !Live(s.writes.runs[i])
      then s.(locks := PayslipLocks.Next(s.locks, PayslipLocks.Leave(s.uses[i].entry)))
      else s
    case Restart =>
      s.(writes := CrashAll(s.writes, |s.writes.runs|), locks := PayslipLocks.Locks({}, Released(s.locks.entries)))
  }

  function Exec(events: seq<Event>): System {
    if events == [] then INITIAL else Next(Exec(events[..|events| - 1]), events[|events| - 1])
  }

  // ---------- The lock is held as long as the run lives ----------

  predicate HoldOk(s: System, i: nat)
    requires i < |s.uses| && i < |s.writes.runs|
  {
    var u, r := s.uses[i], s.writes.runs[i];
    && (u.DryRun? ==> r.call.command.dryRun)
    && (u.Guarded? ==>
          && u.entry < |s.locks.entries| && s.locks.entries[u.entry].key == u.key
          && (r.call.preflight.None? ==> s.locks.entries[u.entry].acquired)
          && (r.call.preflight.Some? ==> !s.locks.entries[u.entry].acquired)
          && (Live(r) ==> !s.locks.entries[u.entry].left))
  }

  ghost predicate Holds(s: System) {
    && |s.uses| == |s.writes.runs|
    && (forall i: nat | i < |s.uses| :: HoldOk(s, i))
    && (forall i: nat, j: nat | i < |s.uses| && j < |s.uses| && s.uses[i].Guarded? && s.uses[j].Guarded? ::
          s.uses[i].entry == s.uses[j].entry ==> i == j)
  }

  ghost predicate Inv(s: System) {
    W.Inv(s.writes) && PayslipLocks.Exclusive(s.locks) && Holds(s)
  }

  /** A step of the writes keeps every call, and no ended run comes back to life. */
  ghost predicate SameRuns(a: W.System, b: W.System) {
    && |a.runs| == |b.runs|
    && forall i: nat | i < |a.runs| :: b.runs[i].call == a.runs[i].call && (Live(b.runs[i]) ==> Live(a.runs[i]))
  }

  lemma ActSameRuns(s: W.System, i: nat, input: Input)
    requires W.Inv(s)
    ensures SameRuns(s, W.Next(s, W.Act(i, input))) && W.Inv(W.Next(s, W.Act(i, input)))
  {
    hide W.Inv, W.RunOk, Advance;
    W.NextKeeps(s, W.Act(i, input));
    if i < |s.runs| && Advance(s.store, s.runs[i], input).Some? {
      hide W.Next;
      W.InvParts(s, i);
      W.NextRuns(s, i, input);
      W.AdvanceKeepsRun(s.store, s.runs[i], input);
      W.EntryKept(s.store, s.runs[i], input);
    }
  }

  lemma {:induction false} CrashAllSameRuns(s: W.System, n: nat)
    requires W.Inv(s) && n <= |s.runs|
    ensures W.Inv(CrashAll(s, n)) && SameRuns(s, CrashAll(s, n))
    ensures forall i: nat | i < n :: !Live(CrashAll(s, n).runs[i])
  {
    hide W.Inv, W.Next;
    if n > 0 {
      CrashAllSameRuns(s, n - 1);
      var mid := CrashAll(s, n - 1);
      ActSameRuns(mid, n - 1, Crash);
      CrashedIsOver(mid, n - 1);
    }
  }

  lemma CrashedIsOver(s: W.System, i: nat)
    requires i < |s.runs|
    ensures i < |W.Next(s, W.Act(i, Crash)).runs| && !Live(W.Next(s, W.Act(i, Crash)).runs[i])
  {
    hide AfterBegin, AfterAudit, AfterFinish, Prepared, PreWriteFailure, ExecuteOutcome, DryPrepared;
  }

  lemma AdmitRuns(s: W.System, c: Call)
    requires W.Inv(s)
    ensures W.Inv(W.Next(s, W.Admit(c)))
    ensures var t := W.Next(s, W.Admit(c)); t.runs == s.runs + [Start(c)] && Start(c).call == c
  {
    W.NextKeeps(s, W.Admit(c));
    hide W.Inv, Entry;
  }

  lemma SameRunsHold(s: System, writes: W.System)
    requires Holds(s) && SameRuns(s.writes, writes)
    ensures Holds(s.(writes := writes))
  {
    var t := s.(writes := writes);
    forall i: nat | i < |t.uses| ensures HoldOk(t, i) { assert HoldOk(s, i); }
  }

  lemma PayrollHolds(s: System, c: Call, key: LockKey)
    requires Holds(s) && key == PayslipLocks.LockKey(c.binding.tenant, c.command.company, key.payslip)
    requires !c.command.dryRun
    ensures Holds(Next(s, Payroll(c, key.payslip)))
  {
    hide Entry, LockedError;
    var t := Next(s, Payroll(c, key.payslip));
    var n := |s.uses|;
    forall i: nat | i < |t.uses| ensures HoldOk(t, i) {
      if i < n { assert HoldOk(s, i) && t.uses[i] == s.uses[i] && t.writes.runs[i] == s.writes.runs[i]; }
    }
    forall i: nat, j: nat | i < |t.uses| && j < |t.uses| && t.uses[i].Guarded? && t.uses[j].Guarded?
                            && t.uses[i].entry == t.uses[j].entry
      ensures i == j
    {
      assert i < n ==> HoldOk(s, i);
      assert j < n ==> HoldOk(s, j);
    }
  }

  lemma UnguardedHolds(s: System, c: Call, u: Use)
    requires Holds(s) && (u.OtherTool? || (u.DryRun? && c.command.dryRun))
    ensures Holds(s.(writes := W.Next(s.writes, W.Admit(c)), uses := s.uses + [u]))
  {
    hide Entry;
    var t := s.(writes := W.Next(s.writes, W.Admit(c)), uses := s.uses + [u]);
    forall i: nat | i < |t.uses| ensures HoldOk(t, i) {
      if i < |s.uses| { assert HoldOk(s, i) && t.uses[i] == s.uses[i] && t.writes.runs[i] == s.writes.runs[i]; }
    }
  }

  lemma ReturnHolds(s: System, i: nat)
    requires Holds(s)
    ensures Holds(Next(s, Return(i)))
  {
    var t := Next(s, Return(i));
    forall j: nat | j < |t.uses| ensures HoldOk(t, j) {
      assert HoldOk(s, j);
      if t != s && j != i && s.uses[j].Guarded? { assert s.uses[j].entry != s.uses[i].entry; }
    }
  }

  lemma ReleasedExclusive(entries: seq<PayslipLocks.Holding>)
    ensures PayslipLocks.Exclusive(PayslipLocks.Locks({}, Released(entries)))
  {
    var s := PayslipLocks.Locks({}, Released(entries));
    forall i: nat ensures !PayslipLocks.Inside(s, i) {}
  }

  lemma RestartHolds(s: System)
    requires Holds(s) && W.Inv(s.writes)
    ensures Holds(Next(s, Restart))
  {
    var t := Next(s, Restart);
    CrashAllSameRuns(s.writes, |s.writes.runs|);
    hide W.Inv;
    forall i: nat | i < |t.uses| ensures HoldOk(t, i) { assert HoldOk(s, i); }
  }

  lemma NextKeeps(s: System, e: Event)
    requires Inv(s)
    ensures Inv(Next(s, e))
  {
    hide W.Inv, W.Next, Holds, PayslipLocks.Exclusive, Live;
    match e
    case Tool(c) =>
      AdmitRuns(s.writes, c);
      UnguardedHolds(s, c, OtherTool);
    case Payroll(c, payslip) =>
      var key := PayslipLocks.LockKey(c.binding.tenant, c.command.company, payslip);
      if c.command.dryRun {
        AdmitRuns(s.writes, c.(preflight := None));
        UnguardedHolds(s, c.(preflight := None), DryRun(key));
      } else {
        AdmitRuns(s.writes, c.(preflight := if key in s.locks.active then Some(LockedError()) else None));
        PayslipLocks.EnterExclusive(s.locks, key);
        PayrollHolds(s, c, key);
      }
    case Step(i, input) =>
      ActSameRuns(s.writes, i, input);
      SameRunsHold(s, W.Next(s.writes, W.Act(i, input)));
    case Return(i) =>
      ReturnHolds(s, i);
      if i < |s.uses| && s.uses[i].Guarded? {
        PayslipLocks.NextExclusive(s.locks, PayslipLocks.Leave(s.uses[i].entry));
      }
    case Restart =>
      CrashAllSameRuns(s.writes, |s.writes.runs|);
      ReleasedExclusive(s.locks.entries);
      RestartHolds(s);
  }

  lemma {:induction false} Reachable(events: seq<Event>)
    ensures Inv(Exec(events))
  {
    hide Inv, Next;
    if events == [] {
      InitialInv();
    } else {
      Reachable(events[..|events| - 1]);
      NextKeeps(Exec(events[..|events| - 1]), events[|events| - 1]);
    }
  }

  lemma InitialInv()
    ensures Inv(INITIAL)
  {
    W.Reachable([]);
    ReleasedExclusive([]);
    assert Released([]) == [];
    assert W.Exec([]) == W.INITIAL;
  }

  // ---------- What each run was admitted for ----------

  /** The events that admitted the runs, in order. */
  function Admissions(events: seq<Event>): seq<Event> {
    if events == [] then []
    else
      var rest, e := Admissions(events[..|events| - 1]), events[|events| - 1];
      if e.Tool? || e.Payroll? then rest + [e] else rest
  }

  /** The run has the event's call, and a payroll run the lock entry of its tenant, company and payslip. */
  predicate AdmittedBy(e: Event, u: Use, r: Run) {
    match e
    case Tool(c) => u.OtherTool? && r.call == c
    case Payroll(c, payslip) =>
      && r.call == c.(preflight := r.call.preflight)
      && u == (if c.command.dryRun
               then DryRun(PayslipLocks.LockKey(c.binding.tenant, c.command.company, payslip))
               else Guarded(PayslipLocks.LockKey(c.binding.tenant, c.command.company, payslip),
                            if u.Guarded? then u.entry else 0))
    case _ => false
  }

  ghost predicate Traced(asked: seq<Event>, s: System) {
    && |asked| == |s.uses| == |s.writes.runs|
    && forall i: nat | i < |asked| :: AdmittedBy(asked[i], s.uses[i], s.writes.runs[i])
  }

  lemma SameRunsTraced(asked: seq<Event>, s: System, writes: W.System, locks: PayslipLocks.Locks)
    requires Traced(asked, s) && SameRuns(s.writes, writes)
    ensures Traced(asked, s.(writes := writes, locks := locks))
  {
    var t := s.(writes := writes, locks := locks);
    forall i: nat | i < |asked| ensures AdmittedBy(asked[i], t.uses[i], t.writes.runs[i]) {
      assert AdmittedBy(asked[i], s.uses[i], s.writes.runs[i]);
    }
  }

  lemma OneMoreTraced(asked: seq<Event>, s: System, e: Event, u: Use, t: System)
    requires Traced(asked, s) && t.uses == s.uses + [u] && |t.writes.runs| == |s.writes.runs| + 1
    requires forall i: nat | i < |s.writes.runs| :: t.writes.runs[i] == s.writes.runs[i]
    requires AdmittedBy(e, u, t.writes.runs[|s.writes.runs|])
    ensures Traced(asked + [e], t)
  {
    hide AdmittedBy;
    forall i: nat | i < |asked + [e]| ensures AdmittedBy((asked + [e])[i], t.uses[i], t.writes.runs[i]) {
      if i < |asked| { assert AdmittedBy(asked[i], s.uses[i], s.writes.runs[i]); }
    }
  }

  lemma NextTraced(asked: seq<Event>, s: System, e: Event)
    requires Traced(asked, s) && W.Inv(s.writes)
    ensures Traced(if e.Tool? || e.Payroll? then asked + [e] else asked, Next(s, e))
  {
    hide W.Inv, W.Next, Traced, Live;
    match e
    case Tool(c) =>
      AdmitRuns(s.writes, c);
      hide Start;
      OneMoreTraced(asked, s, e, OtherTool, Next(s, e));
    case Payroll(c, payslip) =>
      var t := Next(s, e);
      var key := PayslipLocks.LockKey(c.binding.tenant, c.command.company, payslip);
      if c.command.dryRun {
        AdmitRuns(s.writes, c.(preflight := None));
      } else {
        AdmitRuns(s.writes, c.(preflight := if key in s.locks.active then Some(LockedError()) else None));
      }
      hide Start;
      OneMoreTraced(asked, s, e, t.uses[|s.uses|], t);
    case Step(i, input) =>
      ActSameRuns(s.writes, i, input);
      SameRunsTraced(asked, s, W.Next(s.writes, W.Act(i, input)), s.locks);
    case Return(i) =>
      SameRunsAlways(s.writes);
      SameRunsTraced(asked, s, s.writes, Next(s, e).locks);
    case Restart =>
      CrashAllSameRuns(s.writes, |s.writes.runs|);
      SameRunsTraced(asked, s, CrashAll(s.writes, |s.writes.runs|), Next(s, e).locks);
  }

  /** Every entry into the registry is some run's. */
  ghost predicate EntriesUsed(s: System) {
    forall e: nat | e < |s.locks.entries| :: UsedBySome(s.uses, e)
  }

  ghost predicate UsedBySome(uses: seq<Use>, e: nat) {
    exists i: nat :: i < |uses| && uses[i].Guarded? && uses[i].entry == e
  }

  lemma UsedLater(uses: seq<Use>, u: Use, e: nat)
    requires UsedBySome(uses, e) || (u.Guarded? && u.entry == e)
    ensures UsedBySome(uses + [u], e)
  {
    if UsedBySome(uses, e) {
      var i: nat :| i < |uses| && uses[i].Guarded? && uses[i].entry == e;
      assert (uses + [u])[i] == uses[i];
    } else {
      assert (uses + [u])[|uses|] == u;
    }
  }

  lemma NextUsed(s: System, e: Event)
    requires EntriesUsed(s)
    ensures EntriesUsed(Next(s, e))
  {
    hide UsedBySome, W.Next, Live;
    var t := Next(s, e);
    forall n: nat | n < |t.locks.entries| ensures UsedBySome(t.uses, n) {
      assert n < |s.locks.entries| ==> UsedBySome(s.uses, n);
      if e.Tool? || e.Payroll? { UsedLater(s.uses, t.uses[|s.uses|], n); }
    }
  }

  lemma SameRunsAlways(s: W.System)
    ensures SameRuns(s, s)
  {
  }

  lemma {:induction false} ExecTraced(events: seq<Event>)
    ensures Traced(Admissions(events), Exec(events)) && EntriesUsed(Exec(events))
  {
    hide Traced, Next, W.Inv, EntriesUsed;
    if events == [] {
      NothingTraced();
    } else {
      var init := events[..|events| - 1];
      ExecTraced(init);
      Reachable(init);
      InvWrites(Exec(init));
      NextTraced(Admissions(init), Exec(init), events[|events| - 1]);
      NextUsed(Exec(init), events[|events| - 1]);
    }
  }

  lemma NothingTraced()
    ensures Traced([], INITIAL) && EntriesUsed(INITIAL)
  {
  }

  lemma InvWrites(s: System)
    requires Inv(s)
    ensures W.Inv(s.writes)
  {
  }

  // ---------- One write per payslip ----------

  /** Past the gate and not ended: reserving, preparing, validating, executing or finishing. */
  predicate Working(r: Run) {
    r.pc.Beginning? || r.pc.Preparing? || r.pc.Validating? || r.pc.Executing? || r.pc.Finishing?
  }

  lemma WorkingAdmitted(s: W.System, i: nat)
    requires W.Inv(s) && i < |s.runs| && Working(s.runs[i])
    ensures s.runs[i].call.preflight.None? && !s.runs[i].call.command.dryRun && Live(s.runs[i])
  {
    W.InvParts(s, i);
    hide W.Inv, W.Loggable, FieldsPresent, GateError;
  }

  /** A working payroll run is inside the lock of its payslip. */
  lemma WorkingInside(s: System, i: nat)
    requires Inv(s) && i < |s.writes.runs| && Working(s.writes.runs[i]) && i < |s.uses| && s.uses[i].Payslip().Some?
    ensures s.uses[i].Guarded? && PayslipLocks.Inside(s.locks, s.uses[i].entry)
    ensures s.locks.entries[s.uses[i].entry].key == s.uses[i].key
  {
    WorkingAdmitted(s.writes, i);
    hide W.Inv, PayslipLocks.Exclusive;
    assert HoldOk(s, i);
  }

  /** Both events ask for a write of one payslip of one company of one tenant. */
  predicate SamePayslip(e: Event, f: Event) {
    && e.Payroll? && f.Payroll? && e.payslip == f.payslip
    && e.call.binding.tenant == f.call.binding.tenant && e.call.command.company == f.call.command.company
  }

  /**
   Over every interleaving of payroll and other writes, crashes and restarts, of the runs admitted for one
   tenant, company and payslip at most one is past the gate and not ended, whatever keys the writes carry.
   */
  lemma OneWritePerPayslip(events: seq<Event>, i: nat, j: nat)
    requires i < |Admissions(events)| && j < |Admissions(events)|
    requires SamePayslip(Admissions(events)[i], Admissions(events)[j])
    requires i < |Exec(events).writes.runs| && Working(Exec(events).writes.runs[i])
    requires j < |Exec(events).writes.runs| && Working(Exec(events).writes.runs[j])
    ensures i == j
  {
    var s := Exec(events);
    Reachable(events);
    ExecTraced(events);
    assert AdmittedBy(Admissions(events)[i], s.uses[i], s.writes.runs[i]);
    assert AdmittedBy(Admissions(events)[j], s.uses[j], s.writes.runs[j]);
    WorkingInside(s, i);
    WorkingInside(s, j);
    hide W.Inv, Exec, Working;
  }

  /** The run's entry holds the lock: it acquired it and has not given it back. */
  predicate InLock(s: System, i: nat) {
    i < |s.uses| && s.uses[i].Guarded? && PayslipLocks.Inside(s.locks, s.uses[i].entry)
  }

  /**
   A payroll write is handed on as refused exactly when an earlier one of the same tenant, company and payslip
   still holds the lock; a dry run never is.
   */
  lemma RefusedExactlyWhenHeld(events: seq<Event>, c: Call, payslip: int)
    ensures var s, asked, e := Exec(events), Admissions(events), Payroll(c, payslip);
      var runs := Next(s, e).writes.runs;
      && |runs| == |s.writes.runs| + 1
      && runs[|s.writes.runs|].call == c.(preflight := runs[|s.writes.runs|].call.preflight)
      && (runs[|s.writes.runs|].call.preflight.Some? <==>
            !c.command.dryRun && exists i: nat :: i < |asked| && SamePayslip(asked[i], e) && InLock(s, i))
      && (runs[|s.writes.runs|].call.preflight.Some? ==>
            runs[|s.writes.runs|].call.preflight.value.code == "CONCURRENT_OPERATION_IN_PROGRESS")
  {
    var s, asked, e := Exec(events), Admissions(events), Payroll(c, payslip);
    var key := PayslipLocks.LockKey(c.binding.tenant, c.command.company, payslip);
    Reachable(events);
    ExecTraced(events);
    InvWrites(s);
    KeyHeld(asked, s, key);
    AdmitRuns(s.writes, c.(preflight := None));
    AdmitRuns(s.writes, c.(preflight := Some(LockedError())));
    hide Exec, Inv, W.Inv, W.Next, Start, Traced, InLock;
    forall i: nat | i < |asked| ensures SamePayslip(asked[i], e) <==> AsksFor(asked[i], key) {}
  }

  predicate AsksFor(e: Event, key: LockKey) {
    e.Payroll? && PayslipLocks.LockKey(e.call.binding.tenant, e.call.command.company, e.payslip) == key
  }

  /** The active set holds a payslip's key exactly when a run admitted for it is inside. */
  lemma KeyHeld(asked: seq<Event>, s: System, key: LockKey)
    requires Traced(asked, s) && EntriesUsed(s) && Inv(s)
    ensures key in s.locks.active <==> exists i: nat :: i < |asked| && AsksFor(asked[i], key) && InLock(s, i)
  {
    hide W.Inv;
    if key in s.locks.active {
      var e: nat :| PayslipLocks.Inside(s.locks, e) && s.locks.entries[e].key == key;
      assert UsedBySome(s.uses, e);
      var i: nat :| i < |s.uses| && s.uses[i].Guarded? && s.uses[i].entry == e;
      assert AdmittedBy(asked[i], s.uses[i], s.writes.runs[i]) && HoldOk(s, i);
      assert AsksFor(asked[i], key) && InLock(s, i);
    }
    if i: nat :| i < |asked| && AsksFor(asked[i], key) && InLock(s, i) {
      assert AdmittedBy(asked[i], s.uses[i], s.writes.runs[i]) && HoldOk(s, i);
      assert PayslipLocks.Held(s.locks, key);
    }
  }

  /** An ended run's return gives back its own hold and no other; a restart gives back all. */
  lemma ReturnGivesBack(events: seq<Event>, i: nat, j: nat)
    requires i < |Exec(events).writes.runs| && !Live(Exec(events).writes.runs[i])
    ensures InLock(Next(Exec(events), Return(i)), j) <==> InLock(Exec(events), j) && j != i
    ensures !InLock(Next(Exec(events), Restart), j)
  {
    var s := Exec(events);
    Reachable(events);
    hide Exec, W.Inv, Live, PayslipLocks.Exclusive;
    assert i < |s.uses| && HoldOk(s, i);
    if j < |s.uses| { assert HoldOk(s, j); }
  }

  /** Every run has its use, and a payroll write whose entry found the lock taken never writes. */
  lemma RefusedEntryNeverWrites(events: seq<Event>, i: nat)
    ensures |Exec(events).uses| == |Exec(events).writes.runs|
    ensures var s := Exec(events);
      i < |s.uses| && s.uses[i].Guarded? ==>
        && s.uses[i].entry < |s.locks.entries|
        && (!s.locks.entries[s.uses[i].entry].acquired ==>
              var r := s.writes.runs[i]; r.slot.None? && !r.entered && r.stored.None?)
  {
    var s := Exec(events);
    Reachable(events);
    hide Exec;
    if i < |s.uses| && s.uses[i].Guarded? {
      assert HoldOk(s, i);
      W.InvParts(s.writes, i);
      hide W.Inv, W.Loggable, FieldsPresent, GateError;
    }
  }
}
