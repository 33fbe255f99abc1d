/** Schema migrations: recorded, verified, and each applied in one transaction with its record. */
module Migrations {
  import opened Wrappers
  import opened Texts

  datatype Migration = Migration(id: string, checksum: string, statements: seq<string>)

  datatype Applied = Applied(id: string, checksum: string)

  /** `history` is None before its table exists; it is kept in id order. `schema` is every statement executed. */
  datatype Db = Db(history: Option<seq<Applied>>, schema: seq<string>)

  datatype Error = BadList | UnknownHistory | ChecksumMismatch | MigrationFailed

  // ---------- The checks ----------

  /** Unique and in text order. */
  predicate Ordered(list: seq<Migration>) {
    forall i, j | 0 <= i < j < |list| :: TextLess(list[i].id, list[j].id)
  }

  function Records(list: seq<Migration>): (r: seq<Applied>)
    ensures |r| == |list| && forall i | 0 <= i < |r| :: r[i] == Applied(list[i].id, list[i].checksum)
  {
    if list == [] then []
    else Records(list[..|list| - 1]) + [Applied(list[|list| - 1].id, list[|list| - 1].checksum)]
  }

  function Statements(list: seq<Migration>): seq<string> {
    if list == [] then [] else Statements(list[..|list| - 1]) + list[|list| - 1].statements
  }

  function CheckHistory(list: seq<Migration>, history: seq<Applied>): Result<nat, Error> {
    if |history| > |list| || exists i | 0 <= i < |history| :: history[i].id != list[i].id then Err(UnknownHistory)
    else if exists i | 0 <= i < |history| :: history[i].checksum != list[i].checksum then Err(ChecksumMismatch)
    else Ok(|history|)
  }

  /** Some recorded migration is not the one the list has in its place. */
  predicate Differs(list: seq<Migration>, history: seq<Applied>) {
    |history| > |list|
    || exists i | 0 <= i < |history| :: history[i].id != list[i].id || history[i].checksum != list[i].checksum
  }

  /** An unknown identifier is told before a changed checksum. */
  lemma CheckAnswers(list: seq<Migration>, history: seq<Applied>)
    ensures CheckHistory(list, history).Err? <==> Differs(list, history)
    ensures !Differs(list, history) ==> CheckHistory(list, history) == Ok(|history|)
    ensures CheckHistory(list, history) == Err(ChecksumMismatch) <==>
      && |history| <= |list| && (forall i | 0 <= i < |history| :: history[i].id == list[i].id)
      && exists i :: 0 <= i < |history| && history[i].checksum != list[i].checksum
  {
  }

  // ---------- Transactions ----------

  function CreateHistory(db: Db): Db {
    if db.history.None? then db.(history := Some([])) else db
  }

  function HistoryOf(db: Db): seq<Applied> {
    if db.history.None? then [] else db.history.value
  }

  /** Where the primary key puts a new record. */
  function Insert(history: seq<Applied>, a: Applied): seq<Applied> {
    if history == [] || TextLess(a.id, history[0].id) then [a] + history
    else [history[0]] + Insert(history[1..], a)
  }

  predicate Recorded(history: seq<Applied>, id: string) {
    exists i | 0 <= i < |history| :: history[i].id == id
  }

  /** One migration: `ok` is whether every statement succeeds. Anything else rolls back. */
  function ApplyTx(db: Db, m: Migration, ok: bool): (Db, bool) {
    if !ok || db.history.None? || Recorded(HistoryOf(db), m.id) then (db, false)
    else (Db(Some(Insert(HistoryOf(db), Applied(m.id, m.checksum))), db.schema + m.statements), true)
  }

  // ---------- Runs, interleaved ----------

  datatype Pc = Begin | Reading | Applying(next: nat) | Finished | Failed(error: Error) | Crashed

  datatype Run = Run(list: seq<Migration>, pc: Pc)

  function Step(db: Db, r: Run, ok: bool): (Db, Run) {
    match r.pc
    case Begin =>
      if !Ordered(r.list) then (db, r.(pc := Failed(BadList))) else (CreateHistory(db), r.(pc := Reading))
    case Reading =>
      (match CheckHistory(r.list, HistoryOf(db))
       case Err(e) => (db, r.(pc := Failed(e)))
       case Ok(k) => (db, r.(pc := if k == |r.list| then Finished else Applying(k))))
    case Applying(i) =>
      if i >= |r.list| then (db, r.(pc := Finished))
      else
        var (after, done) := ApplyTx(db, r.list[i], ok);
        (after, r.(pc := if !done then Failed(MigrationFailed)
                         else if i + 1 == |r.list| then Finished else Applying(i + 1)))
    case _ => (db, r)
  }

  datatype Act = Start(list: seq<Migration>) | Move(run: nat, ok: bool) | Crash(run: nat)

  datatype System = System(db: Db, runs: seq<Run>)

  function Next(s: System, a: Act): System {
    match a
    case Start(list) => s.(runs := s.runs + [Run(list, Begin)])
    case Move(i, ok) =>
      if i >= |s.runs| then s
      else
        var (db, run) := Step(s.db, s.runs[i], ok);
        System(db, s.runs[i := run])
    case Crash(i) => if i >= |s.runs| then s else s.(runs := s.runs[i := s.runs[i].(pc := Crashed)])
  }

  function Exec(s: System, acts: seq<Act>): System {
    if acts == [] then s else Next(Exec(s, acts[..|acts| - 1]), acts[|acts| - 1])
  }

  // ---------- The schema is always a prefix of the migrations ----------

  /** Exactly the first `k` of the released migrations, recorded and executed once each in order. */
  ghost predicate At(db: Db, released: seq<Migration>, k: nat) {
    && k <= |released|
    && HistoryOf(db) == Records(released[..k]) && (db.history.None? ==> k == 0)
    && db.schema == Statements(released[..k])
  }

  /** Every run belongs to some release: it knows the first of the released migrations. */
  ghost predicate KnownRuns(runs: seq<Run>, released: seq<Migration>) {
    forall i | 0 <= i < |runs| :: runs[i].list <= released
  }

  ghost predicate KnownStarts(acts: seq<Act>, released: seq<Migration>) {
    forall i | 0 <= i < |acts| :: acts[i].Start? ==> acts[i].list <= released
  }

  /** A run past its first step has seen the history table. */
  ghost predicate TableSeen(db: Db, runs: seq<Run>) {
    forall i | 0 <= i < |runs| :: runs[i].pc.Reading? || runs[i].pc.Applying? ==> db.history.Some?
  }

  /** Nothing runs ahead of the history it has seen. */
  ghost predicate NotAhead(runs: seq<Run>, k: nat) {
    forall i | 0 <= i < |runs| :: runs[i].pc.Applying? ==> runs[i].pc.next <= k
  }

  lemma {:induction false} InsertLast(history: seq<Applied>, a: Applied)
    requires forall i | 0 <= i < |history| :: !TextLess(a.id, history[i].id)
    ensures Insert(history, a) == history + [a]
  {
    if history != [] { InsertLast(history[1..], a); }
  }

  lemma {:induction false} TextOrder(a: string, b: string)
    ensures TextLess(a, b) ==> a != b && !TextLess(b, a)
  {
    if a != [] && b != [] { TextOrder(a[1..], b[1..]); }
  }

  /** A migration goes in exactly when it is the next one. */
  lemma ApplyAt(db: Db, released: seq<Migration>, k: nat, i: nat, ok: bool)
    requires Ordered(released) && At(db, released, k) && i <= k && i < |released| && db.history.Some?
    ensures var (after, done) := ApplyTx(db, released[i], ok);
      && done == (ok && i == k)
      && (if done then At(after, released, k + 1) && after.history.Some? else after == db)
  {
    hide TextLess;
    var history, m := HistoryOf(db), released[i];
    if i < k {
      assert history[i].id == m.id;
    } else {
      forall j | 0 <= j < |history| ensures history[j].id != m.id && !TextLess(m.id, history[j].id) {
        assert TextLess(released[j].id, m.id);
        TextOrder(history[j].id, m.id);
      }
      InsertLast(history, Applied(m.id, m.checksum));
      assert released[..k + 1][..k] == released[..k];
    }
  }

  lemma {:induction false} HistoryAccepted(released: seq<Migration>, list: seq<Migration>, k: nat)
    requires list <= released && k <= |released|
    ensures CheckHistory(list, Records(released[..k])) == if k <= |list| then Ok(k) else Err(UnknownHistory)
  {
  }

  lemma StepAt(s: System, released: seq<Migration>, k: nat, a: Act) returns (next: nat)
    requires Ordered(released) && At(s.db, released, k)
    requires KnownRuns(s.runs, released) && TableSeen(s.db, s.runs) && NotAhead(s.runs, k)
    requires a.Start? ==> a.list <= released
    ensures var t := Next(s, a);
      && k <= next && At(t.db, released, next)
      && KnownRuns(t.runs, released) && TableSeen(t.db, t.runs) && NotAhead(t.runs, next)
  {
    hide At;
    next := k;
    if a.Move? && a.run < |s.runs| {
      var r := s.runs[a.run];
      match r.pc
      case Begin => CreateAt(s.db, released, k);
      case Reading =>
        HistoryAt(s.db, released, k);
        HistoryAccepted(released, r.list, k);
      case Applying(i) =>
        hide CheckHistory;
        if i < |r.list| {
          assert r.list[i] == released[i];
          ApplyAt(s.db, released, k, i, a.ok);
          hide ApplyTx;
          if a.ok && i == k { next := k + 1; }
        }
      case _ =>
    }
  }

  lemma CreateAt(db: Db, released: seq<Migration>, k: nat)
    requires At(db, released, k)
    ensures At(CreateHistory(db), released, k) && CreateHistory(db).history.Some?
  {
  }

  lemma HistoryAt(db: Db, released: seq<Migration>, k: nat)
    requires At(db, released, k)
    ensures k <= |released| && HistoryOf(db) == Records(released[..k])
  {
  }

  /**
   Any number of runs of any releases, crashed, failed or concurrent: the schema stays the first migrations
   applied once each in order, as many as are recorded, and never goes back.
   */
  lemma {:induction false} AlwaysAPrefix(s: System, released: seq<Migration>, k: nat, acts: seq<Act>)
    returns (after: nat)
    requires Ordered(released) && At(s.db, released, k) && s.runs == [] && KnownStarts(acts, released)
    ensures var t := Exec(s, acts);
      && k <= after && At(t.db, released, after)
      && KnownRuns(t.runs, released) && TableSeen(t.db, t.runs) && NotAhead(t.runs, after)
  {
    if acts == [] {
      after := k;
    } else {
      var n := |acts| - 1;
      var mid := AlwaysAPrefix(s, released, k, acts[..n]);
      assert acts[n].Start? ==> acts[n].list <= released;
      after := StepAt(Exec(s, acts[..n]), released, mid, acts[n]);
    }
  }

  // ---------- A history that does not belong ----------

  ghost predicate AllUnknown(s: System, list: seq<Migration>) {
    && s.db.history.Some? && Differs(list, s.db.history.value)
    && forall i | 0 <= i < |s.runs| :: s.runs[i].list == list && !s.runs[i].pc.Applying? && !s.runs[i].pc.Finished?
  }

  /** Under a list that does not match the history, nothing is ever changed and no run finishes. */
  lemma {:induction false} UnknownHistoryUntouched(s: System, list: seq<Migration>, acts: seq<Act>)
    requires AllUnknown(s, list) && forall i | 0 <= i < |acts| :: acts[i].Start? ==> acts[i].list == list
    ensures Exec(s, acts).db == s.db && AllUnknown(Exec(s, acts), list)
  {
    CheckAnswers(list, s.db.history.value);
    hide CheckHistory, ApplyTx, Ordered, Differs;
    if acts != [] {
      UnknownHistoryUntouched(s, list, acts[..|acts| - 1]);
      assert acts[|acts| - 1] in acts;
    }
  }

  // ---------- One run, to its end ----------

  /** The steps of one run alone; `ok(i)` is whether the i-th migration's statements succeed. */
  function Solo(db: Db, r: Run, ok: nat -> bool): (Db, Run)
    decreases match r.pc case Begin => |r.list| + 2 case Reading => |r.list| + 1
                         case Applying(i) => |r.list| - i case _ => 0
  {
    match r.pc
    case Begin => var (d, q) := Step(db, r, true); if q.pc.Reading? then Solo(d, q, ok) else (d, q)
    case Reading => var (d, q) := Step(db, r, true); if q.pc.Applying? then Solo(d, q, ok) else (d, q)
    case Applying(i) =>
      if i >= |r.list| then Step(db, r, true)
      else
        var (d, q) := Step(db, r, ok(i));
        if q.pc.Applying? then Solo(d, q, ok) else (d, q)
    case _ => (db, r)
  }

  /** `fails(i, j)`: whether the j-th statement of the i-th migration fails. */
  function FailuresIn(fails: (nat, nat) -> bool, i: nat): nat -> bool {
    (j: nat) => fails(i, j)
  }

  predicate AllSucceed(m: Migration, fails: nat -> bool) {
    forall j: nat | j < |m.statements| :: !fails(j)
  }

  function Succeeds(list: seq<Migration>, fails: (nat, nat) -> bool): nat -> bool {
    (i: nat) => i < |list| && AllSucceed(list[i], FailuresIn(fails, i))
  }

  lemma SoloNext(db: Db, list: seq<Migration>, i: nat, ok: nat -> bool)
    requires i < |list|
    ensures Solo(db, Run(list, Applying(i)), ok) ==
      var (after, done) := ApplyTx(db, list[i], ok(i));
      if !done then (after, Run(list, Failed(MigrationFailed)))
      else if i + 1 == |list| then (after, Run(list, Finished))
      else Solo(after, Run(list, Applying(i + 1)), ok)
  {
    hide ApplyTx;
  }

  class SQLiteDatabase {
    var db: Db

    constructor (db: Db)
      ensures this.db == db
    {
      this.db := db;
    }

    /** BEGIN IMMEDIATE; the statements in order; the history row; COMMIT, or ROLLBACK on the first error. */
    method ApplyOne(m: Migration, fails: nat -> bool) returns (done: bool)
      modifies this
      ensures (db, done) == ApplyTx(old(db), m, AllSucceed(m, fails))
    {
      var work := db;
      for j := 0 to |m.statements|
        invariant work == db.(schema := db.schema + m.statements[..j]) && db == old(db)
        invariant forall i | 0 <= i < j :: !fails(i)
      {
        if fails(j) {
          return false;
        }
        assert m.statements[..j + 1] == m.statements[..j] + [m.statements[j]];
        work := work.(schema := work.schema + [m.statements[j]]);
      }
      assert m.statements[..|m.statements|] == m.statements;
      if work.history.None? || Recorded(work.history.value, m.id) {
        return false;
      }
      work := work.(history := Some(Insert(work.history.value, Applied(m.id, m.checksum))));
      db := work;
      done := true;
    }

    method ApplyMigrations(list: seq<Migration>, fails: (nat, nat) -> bool) returns (r: Result<(), Error>)
      modifies this
      ensures var (after, run) := Solo(old(db), Run(list, Begin), Succeeds(list, fails));
        && db == after
        && (r == Ok(()) <==> run.pc == Finished) && (r.Err? ==> run.pc == Failed(r.error))
    {
      ghost var ok := Succeeds(list, fails);
      if !Ordered(list) {
        return Err(BadList);
      }
      db := CreateHistory(db);
      var checked := CheckHistory(list, HistoryOf(db));
      if checked.Err? {
        return Err(checked.error);
      }
      hide ApplyTx, CheckHistory, Ordered;
      var i: nat := checked.value;
      while i < |list|
        invariant i <= |list|
        invariant Solo(old(db), Run(list, Begin), ok)
               == if i == |list| then (db, Run(list, Finished)) else Solo(db, Run(list, Applying(i)), ok)
      {
        SoloNext(db, list, i, ok);
        var done := ApplyOne(list[i], FailuresIn(fails, i));
        if !done {
          return Err(MigrationFailed);
        }
        i := i + 1;
      }
      r := Ok(());
    }
  }

  /** A run left alone, with statements that succeed, completes the schema from wherever others stopped. */
  lemma {:induction false} SoloApplying(db: Db, released: seq<Migration>, k: nat, ok: nat -> bool)
    requires Ordered(released) && At(db, released, k) && k < |released| && db.history.Some?
    requires forall i | k <= i < |released| :: ok(i)
    ensures var (after, run) := Solo(db, Run(released, Applying(k)), ok);
      At(after, released, |released|) && run.pc == Finished
    decreases |released| - k
  {
    ApplyAt(db, released, k, k, true);
    hide ApplyTx, At, Ordered;
    if k + 1 < |released| {
      SoloApplying(ApplyTx(db, released[k], true).0, released, k + 1, ok);
    }
  }

  lemma RerunCompletes(db: Db, released: seq<Migration>, k: nat, ok: nat -> bool)
    requires Ordered(released) && At(db, released, k) && forall i | k <= i < |released| :: ok(i)
    ensures var (after, run) := Solo(db, Run(released, Begin), ok);
      At(after, released, |released|) && run.pc == Finished
  {
    var created := CreateHistory(db);
    CreateAt(db, released, k);
    HistoryAt(created, released, k);
    HistoryAccepted(released, released, k);
    hide At, Ordered, CheckHistory;
    if k < |released| { SoloApplying(created, released, k, ok); }
  }
}
