/** Which connector row an enrollment handle names, before and after it is committed. */
module AuthorityHandles {
  import opened Wrappers
  import opened AuthorityTables
  import opened Authority
  import opened AuthoritySteps
  import opened AuthorityRuns
  import opened AuthorityCodes

  ghost predicate Consumed(db: Db, handle: string, id: string) {
    id in db.connectors && db.connectors[id].consumed == Some(handle)
  }

  /** The rows a commit under the handle may read. */
  ghost predicate Names(db: Db, handle: string, id: string) {
    id in db.connectors && Enrolled(db.connectors[id], handle)
  }

  ghost predicate NamesOne(db: Db, handle: string) {
    forall a, b | Names(db, handle, a) && Names(db, handle, b) :: a == b
  }

  /** The handle was consumed by one row and prepared again into another. */
  ghost predicate Reused(db: Db, handle: string) {
    exists a, b :: Consumed(db, handle, a) && HandleTaken(db, handle, b)
  }

  /** A row gives its handle up when it consumes it, and no two rows consume one handle. */
  ghost predicate HandlesOk(db: Db) {
    && (forall id | id in db.connectors :: db.connectors[id].handle.Some? ==> db.connectors[id].consumed.None?)
    && (forall a, b | a in db.connectors && b in db.connectors && a != b ::
          db.connectors[a].consumed.Some? ==> db.connectors[a].consumed != db.connectors[b].consumed)
  }

  lemma CommitKeepsHandles(db: Db, pick: string, handle: string, chosen: seq<int>, default: int, now: int)
    requires HandlesOk(db)
    ensures HandlesOk(CommitTx(db, pick, handle, chosen, default, now).0)
  {
    hide Distinct, Selection;
  }

  lemma PrepareKeepsHandles(db: Db, id: string, handle: string, profile: string, discovered: seq<int>, now: int)
    requires HandlesOk(db)
    ensures HandlesOk(PrepareTx(db, id, handle, profile, discovered, now).0)
  {
    hide Discovery;
  }

  /** Rows only give handles up. */
  ghost predicate GivesUp(db: Db, after: Db) {
    forall id | id in after.connectors ::
      && id in db.connectors && after.connectors[id].consumed == db.connectors[id].consumed
      && (after.connectors[id].handle.Some? ==> after.connectors[id].handle == db.connectors[id].handle)
  }

  lemma GivingUpKeeps(db: Db, after: Db)
    requires HandlesOk(db) && GivesUp(db, after)
    ensures HandlesOk(after)
  {
  }

  lemma GrantedGivesUp(db: Db, session: string, grant: string, superseded: Option<string>)
    requires session in db.sessions && db.sessions[session].connector.Some?
    requires db.sessions[session].connector.value in db.connectors
    ensures var granted := Granted(db, session, grant);
      GivesUp(db, if superseded.Some? then Revoke(granted, superseded.value) else granted)
  {
  }

  lemma ActivateKeepsHandles(db: Db, session: string, consent: bool, code: string, grant: string, now: int)
    requires HandlesOk(db)
    ensures HandlesOk(ActivateTx(db, session, consent, code, grant, now).0)
  {
    hide HandlesOk, Granted, Revoke;
    var after := ActivateTx(db, session, consent, code, grant, now).0;
    if after != db {
      GrantedGivesUp(db, session, grant, db.sessions[session].superseded);
      assert GivesUp(db, after);
      GivingUpKeeps(db, after);
    }
  }

  lemma ApplyKeepsHandles(db: Db, op: Op)
    requires HandlesOk(db)
    ensures HandlesOk(Apply(db, op).0)
  {
    hide CommitTx, PrepareTx, ActivateTx;
    match op
    case Prepare(id, handle, profile, found, now) => PrepareKeepsHandles(db, id, handle, profile, found, now);
    case Commit(pick, handle, chosen, default, now) => CommitKeepsHandles(db, pick, handle, chosen, default, now);
    case Activate(h, consent, code, g, now) => ActivateKeepsHandles(db, h, consent, code, g, now);
    case _ =>
  }

  lemma {:induction false} ExecKeepsHandles(db: Db, ops: seq<Op>)
    requires HandlesOk(db)
    ensures HandlesOk(Exec(db, ops))
    decreases ops
  {
    hide HandlesOk, Apply;
    if ops != [] {
      ApplyKeepsHandles(db, ops[0]);
      ExecKeepsHandles(Apply(db, ops[0]).0, ops[1..]);
    }
  }

  lemma ReachableHandles(ops: seq<Op>)
    ensures HandlesOk(Exec(EMPTY, ops)) && ConnectorsOk(Exec(EMPTY, ops))
  {
    ExecKeepsHandles(EMPTY, ops);
    Reachable(ops);
  }

  lemma NamesOneWhen(db: Db, handle: string)
    requires HandlesOk(db) && ConnectorsOk(db)
    ensures NamesOne(db, handle) <==> !Reused(db, handle)
  {
    hide ConnectorOk;
    forall id ensures Names(db, handle, id) <==> HandleTaken(db, handle, id) || Consumed(db, handle, id) {}
    if a, b :| Consumed(db, handle, a) && HandleTaken(db, handle, b) {
      assert Names(db, handle, a) && Names(db, handle, b) && a != b;
    }
  }

  /** In every reachable state a handle names at most one row exactly when it was not reused. */
  lemma NamesOneExactly(ops: seq<Op>, handle: string)
    ensures NamesOne(Exec(EMPTY, ops), handle) <==> !Reused(Exec(EMPTY, ops), handle)
  {
    ReachableHandles(ops);
    NamesOneWhen(Exec(EMPTY, ops), handle);
  }

  lemma PreparedHolds(db: Db, id: string, handle: string, profile: string, discovered: seq<int>, now: int)
    requires PrepareTx(db, id, handle, profile, discovered, now).1.Ok?
    ensures var after := PrepareTx(db, id, handle, profile, discovered, now).0;
      && (exists e :: HandleTaken(after, handle, e))
      && (forall c :: Consumed(after, handle, c) <==> Consumed(db, handle, c))
  {
    hide Discovery;
    var after := PrepareTx(db, id, handle, profile, discovered, now).0;
    if e :| HandleTaken(db, handle, e) {
      assert HandleTaken(after, handle, e);
    } else {
      assert HandleTaken(after, handle, id);
    }
  }

  /** A prepared handle names its row alone exactly when no row had consumed it before. */
  lemma PrepareNamesOneExactly(ops: seq<Op>, id: string, handle: string, profile: string, discovered: seq<int>,
                               now: int)
    requires PrepareTx(Exec(EMPTY, ops), id, handle, profile, discovered, now).1.Ok?
    ensures var db := Exec(EMPTY, ops);
      NamesOne(PrepareTx(db, id, handle, profile, discovered, now).0, handle) <==> !exists c :: Consumed(db, handle, c)
  {
    var db, op := Exec(EMPTY, ops), Prepare(id, handle, profile, discovered, now);
    var after := PrepareTx(db, id, handle, profile, discovered, now).0;
    assert after == Apply(db, op).0;
    PreparedHolds(db, id, handle, profile, discovered, now);
    hide Exec, Apply, PrepareTx, HandlesOk, Inv, NamesOne, HandleTaken, Consumed;
    ReachableHandles(ops);
    Reachable(ops);
    ApplyKeepsHandles(db, op);
    ApplyKeeps(db, op);
    InvConnectors(after);
    NamesOneWhen(after, handle);
  }

  lemma InvConnectors(db: Db)
    requires Inv(db)
    ensures ConnectorsOk(db)
  {
  }

  /**
   While a handle is reused no commit under it changes anything, whichever row the database picks: the row
   that consumed it only repeats its own selection, and the row that holds it is refused.
   */
  lemma ReusedHandleCommits(ops: seq<Op>, pick: string, handle: string, chosen: seq<int>, default: int, now: int)
    requires Reused(Exec(EMPTY, ops), handle)
    ensures var db := Exec(EMPTY, ops); var (after, r) := CommitTx(db, pick, handle, chosen, default, now);
      && after == db
      && (r.Ok? <==>
            && Consumed(db, handle, pick) && db.connectors[pick].status.Pending? && db.connectors[pick].expires > now
            && db.connectors[pick].allowed == Some(Distinct(chosen)) && db.connectors[pick].default == Some(default))
  {
    ReachableHandles(ops);
    hide Exec, Distinct;
    var db := Exec(EMPTY, ops);
    var a, b :| Consumed(db, handle, a) && HandleTaken(db, handle, b);
    if pick in db.connectors { assert ConnectorOk(db.connectors[pick]); }
  }

  // ---------- A run that reuses a handle ----------

  function Reuse(handle: string): seq<Op> {
    [Prepare("c", handle, "profile", [1], 0), Commit("c", handle, [1], 1, 0), Prepare("d", handle, "profile", [1], 0)]
  }

  lemma HandleCanBeReused(handle: string)
    requires |handle| >= 22
    ensures Reused(Exec(EMPTY, Reuse(handle)), handle)
  {
    var ops := Reuse(handle);
    var d1 := ExecOne(EMPTY, ops, 0);
    var d2 := ExecOne(d1, ops, 1);
    var d3 := ExecOne(d2, ops, 2);
    assert ops[0..] == ops && Exec(d3, ops[3..]) == d3;
    hide Exec;
    FirstPrepared(handle);
    FirstCommitted(handle);
    SecondPrepared(handle);
    assert Consumed(d3, handle, "c") && HandleTaken(d3, handle, "d");
  }

  lemma FirstPrepared(handle: string)
    requires |handle| >= 22
    ensures Apply(EMPTY, Reuse(handle)[0]).0 == EMPTY.(connectors := map["c" := PendingRow("c", handle)])
  {
    assert !exists e :: HandleTaken(EMPTY, handle, e);
  }

  lemma FirstCommitted(handle: string)
    ensures var db := EMPTY.(connectors := map["c" := PendingRow("c", handle)]);
      Apply(db, Reuse(handle)[1]).0 == db.(connectors := map["c" := SelectedRow("c", handle)])
  {
    assert Distinct([1]) == [1] && Selection([1], 1) by { assert [1][..0] == []; }
    hide Distinct, Selection;
    var rows := map["c" := PendingRow("c", handle)];
    assert rows["c" := SelectedRow("c", handle)] == map["c" := SelectedRow("c", handle)];
    assert forall e | e in rows :: rows[e].consumed.None?;
  }

  lemma SecondPrepared(handle: string)
    requires |handle| >= 22
    ensures var db := EMPTY.(connectors := map["c" := SelectedRow("c", handle)]);
      Apply(db, Reuse(handle)[2]).0 == db.(connectors := db.connectors["d" := PendingRow("d", handle)])
  {
    var db := EMPTY.(connectors := map["c" := SelectedRow("c", handle)]);
    assert !exists e :: HandleTaken(db, handle, e);
  }
}
