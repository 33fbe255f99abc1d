/** Stored credentials under versioned keys, and their rotation to the active version. */
module KeyRotation {
  import opened Wrappers
  import opened JsonValues

  /**
   Authenticated encryption taken abstractly: a ciphertext is what it was made of, and opens only under the
   same key and the same tenant, record and version.
   */
  datatype Cipher = Cipher(key: string, nonce: nat, tenant: string, id: string, version: int, plaintext: string)

  datatype Keyring = Keyring(active: int, keys: map<int, string>) {
    predicate Valid() {
      active > 0 && active in keys && forall v | v in keys :: v > 0
    }

    function Encrypt(tenant: string, id: string, plaintext: string, nonce: nat): (Cipher, int)
      requires Valid()
    {
      (Cipher(keys[active], nonce, tenant, id, active, plaintext), active)
    }

    function Decrypt(tenant: string, id: string, c: Cipher, version: int): Option<string> {
      if version in keys && c.key == keys[version] && c.tenant == tenant && c.id == id && c.version == version
      then Some(c.plaintext)
      else None
    }
  }

  /** `settings` stands for every column rotation does not write. */
  datatype Row = Row(cipher: Cipher, version: int, settings: string)

  datatype Key = Key(tenant: string, id: string)

  /** The audit entry of a rotation. */
  datatype Rotated = Rotated(key: Key, version: int, request: string, subject: string, client: string)

  datatype Db = Db(rows: map<Key, Row>, log: seq<Rotated>)

  datatype RotationError = InvalidIdentity | NotFound | Undecryptable

  /** Who rotates. */
  datatype Operator = Operator(subject: string, client: string)

  function Plaintext(kr: Keyring, db: Db, k: Key): Option<string>
    requires k in db.rows
  {
    kr.Decrypt(k.tenant, k.id, db.rows[k].cipher, db.rows[k].version)
  }

  function RotateTx(kr: Keyring, db: Db, k: Key, request: string, op: Operator, nonce: nat)
    : (Db, Result<bool, RotationError>)
    requires kr.Valid()
  {
    if IsBlank(k.tenant) || IsBlank(k.id) || IsBlank(request) || IsBlank(op.subject) || IsBlank(op.client)
    then (db, Err(InvalidIdentity))
    else if k !in db.rows then (db, Err(NotFound))
    else if db.rows[k].version == kr.active then (db, Ok(false))
    else if Plaintext(kr, db, k).None? then (db, Err(Undecryptable))
    else
      var (cipher, version) := kr.Encrypt(k.tenant, k.id, Plaintext(kr, db, k).value, nonce);
      (Db(db.rows[k := db.rows[k].(cipher := cipher, version := version)],
          db.log + [Rotated(k, version, request, op.subject, op.client)]), Ok(true))
  }

  /** What no rotation changes: which records there are, what they decrypt to, their other columns. */
  ghost predicate SameSecrets(kr: Keyring, a: Db, b: Db) {
    && a.rows.Keys == b.rows.Keys
    && forall k | k in a.rows ::
         && a.rows[k].settings == b.rows[k].settings
         && Plaintext(kr, a, k) == Plaintext(kr, b, k)
  }

  lemma RotateKeepsSecrets(kr: Keyring, db: Db, k: Key, request: string, op: Operator, nonce: nat)
    requires kr.Valid()
    ensures SameSecrets(kr, db, RotateTx(kr, db, k, request, op, nonce).0)
  {
    hide IsBlank;
  }

  /** A ciphertext opens under the key its version names, for the very record it was made for. */
  predicate Opens(kr: Keyring, k: Key, row: Row) {
    && row.version in kr.keys && row.cipher.key == kr.keys[row.version] && row.cipher.version == row.version
    && row.cipher.tenant == k.tenant && row.cipher.id == k.id
  }

  /**
   A rotation rewrites exactly a stale record that opens, under the active key with the same plaintext, and
   logs it; a current one it leaves, and everything else it refuses.
   */
  lemma RotateAnswers(kr: Keyring, db: Db, k: Key, request: string, op: Operator, nonce: nat)
    requires kr.Valid()
    ensures var (after, r) := RotateTx(kr, db, k, request, op, nonce);
      var named := !IsBlank(k.tenant) && !IsBlank(k.id) && !IsBlank(request) && !IsBlank(op.subject)
                   && !IsBlank(op.client);
      && (r == Err(InvalidIdentity) <==> !named)
      && (r == Err(NotFound) <==> named && k !in db.rows)
      && (r == Ok(false) <==> named && k in db.rows && db.rows[k].version == kr.active)
      && (r == Ok(true) <==> named && k in db.rows && db.rows[k].version != kr.active && Opens(kr, k, db.rows[k]))
      && (r == Err(Undecryptable) <==>
            named && k in db.rows && db.rows[k].version != kr.active && !Opens(kr, k, db.rows[k]))
      && after == (if r != Ok(true) then db
                   else Db(db.rows[k := Row(Cipher(kr.keys[kr.active], nonce, k.tenant, k.id, kr.active,
                                                   db.rows[k].cipher.plaintext),
                                            kr.active, db.rows[k].settings)],
                           db.log + [Rotated(k, kr.active, request, op.subject, op.client)]))
  {
    hide IsBlank;
  }

  // ---------- Any interleaving of rotations ----------

  datatype Act = Act(key: Key, request: string, op: Operator, nonce: nat)

  function Exec(kr: Keyring, db: Db, acts: seq<Act>): Db
    requires kr.Valid()
  {
    if acts == [] then db
    else
      var a := acts[|acts| - 1];
      RotateTx(kr, Exec(kr, db, acts[..|acts| - 1]), a.key, a.request, a.op, a.nonce).0
  }

  function Stale(kr: Keyring, db: Db, tenant: string): set<Key> {
    set k | k in db.rows && k.tenant == tenant && db.rows[k].version != kr.active
  }

  /** Whoever rotates what in whatever order: nothing is lost, and the log grows by each record made current. */
  lemma {:induction false} RotationsKeepSecrets(kr: Keyring, db: Db, acts: seq<Act>, tenant: string)
    requires kr.Valid()
    ensures var after := Exec(kr, db, acts);
      && SameSecrets(kr, db, after)
      && db.log <= after.log
      && Stale(kr, after, tenant) <= Stale(kr, db, tenant)
      && |Stale(kr, db, tenant)| - |Stale(kr, after, tenant)| == Entries(after.log[|db.log|..], tenant)
  {
    hide RotateTx, SameSecrets, Stale;
    if acts == [] {
      SameSecretsTrans(kr, db, db, db);
      assert db.log[|db.log|..] == [];
    } else {
      var n := |acts| - 1;
      var mid, a := Exec(kr, db, acts[..n]), acts[n];
      var after := Exec(kr, db, acts);
      RotationsKeepSecrets(kr, db, acts[..n], tenant);
      RotateKeepsSecrets(kr, mid, a.key, a.request, a.op, a.nonce);
      SameSecretsTrans(kr, db, mid, after);
      RotateCounts(kr, mid, a.key, a.request, a.op, a.nonce, tenant);
      if after != mid {
        var e := after.log[|mid.log|];
        assert after.log[|db.log|..] == mid.log[|db.log|..] + [e];
        EntriesPush(mid.log[|db.log|..], e, tenant);
      }
    }
  }

  lemma SameSecretsTrans(kr: Keyring, a: Db, b: Db, c: Db)
    ensures SameSecrets(kr, a, a)
    ensures SameSecrets(kr, a, b) && SameSecrets(kr, b, c) ==> SameSecrets(kr, a, c)
  {
  }

  /** How many entries concern the tenant. */
  function Entries(log: seq<Rotated>, tenant: string): nat {
    if log == [] then 0
    else Entries(log[..|log| - 1], tenant) + if log[|log| - 1].key.tenant == tenant then 1 else 0
  }

  lemma EntriesPush(log: seq<Rotated>, e: Rotated, tenant: string)
    ensures Entries(log + [e], tenant) == Entries(log, tenant) + if e.key.tenant == tenant then 1 else 0
  {
    assert (log + [e])[..|log|] == log;
  }

  /** A rotation either changes nothing or makes one stale record current and logs it. */
  lemma RotateCounts(kr: Keyring, db: Db, k: Key, request: string, op: Operator, nonce: nat, tenant: string)
    requires kr.Valid()
    ensures var after := RotateTx(kr, db, k, request, op, nonce).0;
      || after == db
      || (&& k in db.rows && db.rows[k].version != kr.active
          && after.log == db.log + [Rotated(k, kr.active, request, op.subject, op.client)]
          && Stale(kr, after, tenant) == Stale(kr, db, tenant) - {k}
          && (k in Stale(kr, db, tenant) <==> k.tenant == tenant))
  {
    hide IsBlank;
  }

  // ---------- A whole tenant ----------

  /** The loop over the stale records' ids; `request` and `nonce` are fresh values per record. */
  function RotateAll(kr: Keyring, db: Db, tenant: string, ids: seq<string>, op: Operator, request: string -> string,
                     nonce: string -> nat): (Db, Result<nat, RotationError>)
    requires kr.Valid()
  {
    if ids == [] then (db, Ok(0))
    else
      var (mid, before) := RotateAll(kr, db, tenant, ids[..|ids| - 1], op, request, nonce);
      if before.Err? then (mid, before)
      else
        var id := ids[|ids| - 1];
        var (after, r) := RotateTx(kr, mid, Key(tenant, id), request(id), op, nonce(id));
        match r
        case Err(e) => (after, Err(e))
        case Ok(done) => (after, Ok(before.value + if done then 1 else 0))
  }

  /** The ids a tenant's rotation works through: its stale records, each once. */
  ghost predicate Listed(kr: Keyring, db: Db, tenant: string, ids: seq<string>) {
    && (forall i, j | 0 <= i < j < |ids| :: ids[i] != ids[j])
    && (forall id :: id in ids <==> Key(tenant, id) in Stale(kr, db, tenant))
  }

  class EncryptedConnectionRepository {
    const keyring: Keyring
    var db: Db

    constructor (keyring: Keyring, db: Db)
      requires keyring.Valid()
      ensures this.keyring == keyring && this.db == db
    {
      this.keyring, this.db := keyring, db;
    }

    method Rotate(k: Key, request: string, op: Operator, nonce: nat) returns (r: Result<bool, RotationError>)
      requires keyring.Valid()
      modifies this
      ensures (db, r) == RotateTx(keyring, old(db), k, request, op, nonce)
      ensures SameSecrets(keyring, old(db), db)
    {
      RotateKeepsSecrets(keyring, db, k, request, op, nonce);
      hide IsBlank;
      if IsBlank(k.tenant) || IsBlank(k.id) || IsBlank(request) || IsBlank(op.subject) || IsBlank(op.client) {
        return Err(InvalidIdentity);
      }
      if k !in db.rows {
        return Err(NotFound);
      }
      var row := db.rows[k];
      if row.version == keyring.active {
        return Ok(false);
      }
      var plaintext := keyring.Decrypt(k.tenant, k.id, row.cipher, row.version);
      if plaintext.None? {
        return Err(Undecryptable);
      }
      var (cipher, version) := keyring.Encrypt(k.tenant, k.id, plaintext.value, nonce);
      db := Db(db.rows[k := row.(cipher := cipher, version := version)],
               db.log + [Rotated(k, version, request, op.subject, op.client)]);
      r := Ok(true);
    }

    /** The SELECT of stale records; its order is left open. */
    method ListStale(tenant: string) returns (ids: seq<string>)
      ensures Listed(keyring, db, tenant, ids)
    {
      ids := [];
      var rest := Stale(keyring, db, tenant);
      ghost var all := rest;
      while rest != {}
        invariant rest <= all && forall k | k in all :: k.tenant == tenant
        invariant forall i, j | 0 <= i < j < |ids| :: ids[i] != ids[j]
        invariant forall id :: id in ids <==> Key(tenant, id) in all - rest
        decreases |rest|
      {
        var k :| k in rest;
        assert k == Key(tenant, k.id);
        rest := rest - {k};
        ids := ids + [k.id];
      }
    }

    method RotateTenant(tenant: string, op: Operator, request: string -> string, nonce: string -> nat)
      returns (r: Result<nat, RotationError>, ghost ids: seq<string>)
      requires keyring.Valid()
      modifies this
      ensures Listed(keyring, old(db), tenant, ids)
      ensures if IsBlank(tenant) || IsBlank(op.subject) || IsBlank(op.client)
              then r == Err(InvalidIdentity) && db == old(db)
              else (db, r) == RotateAll(keyring, old(db), tenant, ids, op, request, nonce)
    {
      hide *;
      var stale := ListStale(tenant);
      ids := stale;
      if IsBlank(tenant) || IsBlank(op.subject) || IsBlank(op.client) {
        return Err(InvalidIdentity), ids;
      }
      RotateNone(keyring, db, tenant, op, request, nonce);
      assert stale[..0] == [];
      ghost var start := db;
      var rotated := 0;
      for i := 0 to |stale|
        invariant RotateAll(keyring, start, tenant, stale[..i], op, request, nonce) == (db, Ok(rotated))
      {
        var id := stale[i];
        RotateNext(keyring, start, tenant, stale, i, op, request, nonce);
        var done := Rotate(Key(tenant, id), request(id), op, nonce(id));
        if done.Err? {
          FailsOnward(keyring, start, tenant, stale, i + 1, op, request, nonce);
          return Err(done.error), ids;
        }
        if done.value {
          rotated := rotated + 1;
        }
      }
      assert stale[..|stale|] == stale;
      r := Ok(rotated);
    }
  }

  lemma RotateNone(kr: Keyring, db: Db, tenant: string, op: Operator, request: string -> string, nonce: string -> nat)
    requires kr.Valid()
    ensures RotateAll(kr, db, tenant, [], op, request, nonce) == (db, Ok(0))
  {
  }

  lemma RotateNext(kr: Keyring, db: Db, tenant: string, ids: seq<string>, i: nat, op: Operator,
                   request: string -> string, nonce: string -> nat)
    requires kr.Valid() && i < |ids|
    ensures RotateAll(kr, db, tenant, ids[..i + 1], op, request, nonce) ==
      var (mid, before) := RotateAll(kr, db, tenant, ids[..i], op, request, nonce);
      if before.Err? then (mid, before)
      else
        var (after, r) := RotateTx(kr, mid, Key(tenant, ids[i]), request(ids[i]), op, nonce(ids[i]));
        match r
        case Err(e) => (after, Err(e))
        case Ok(done) => (after, Ok(before.value + if done then 1 else 0))
  {
    hide RotateTx;
    assert ids[..i + 1][..i] == ids[..i];
  }

  lemma {:induction false} FailsOnward(kr: Keyring, db: Db, tenant: string, ids: seq<string>, i: nat, op: Operator,
                                       request: string -> string, nonce: string -> nat)
    requires kr.Valid() && i <= |ids| && RotateAll(kr, db, tenant, ids[..i], op, request, nonce).1.Err?
    ensures RotateAll(kr, db, tenant, ids, op, request, nonce)
         == RotateAll(kr, db, tenant, ids[..i], op, request, nonce)
  {
    if i == |ids| {
      assert ids[..i] == ids;
    } else {
      assert ids[..|ids| - 1][..i] == ids[..i];
      FailsOnward(kr, db, tenant, ids[..|ids| - 1], i, op, request, nonce);
    }
  }

  ghost predicate Named(tenant: string, ids: seq<string>, op: Operator, request: string -> string) {
    && !IsBlank(tenant) && !IsBlank(op.subject) && !IsBlank(op.client)
    && forall id | id in ids :: !IsBlank(id) && !IsBlank(request(id))
  }

  /** The records in `done` are current, the others as they were, and no secret is lost. */
  ghost predicate Progress(kr: Keyring, db: Db, after: Db, tenant: string, done: seq<string>) {
    && SameSecrets(kr, db, after)
    && forall k | k in db.rows ::
         after.rows[k].version == if k.tenant == tenant && k.id in done then kr.active else db.rows[k].version
  }

  /** After the first `n` of the listed records. */
  lemma {:induction false} PartWay(kr: Keyring, db: Db, tenant: string, ids: seq<string>, n: nat, op: Operator,
                                   request: string -> string, nonce: string -> nat)
    requires kr.Valid() && Listed(kr, db, tenant, ids) && Named(tenant, ids, op, request) && n <= |ids|
    requires forall i | 0 <= i < n :: Key(tenant, ids[i]) in db.rows && Plaintext(kr, db, Key(tenant, ids[i])).Some?
    ensures var (after, r) := RotateAll(kr, db, tenant, ids[..n], op, request, nonce);
      && r == Ok(n) && Progress(kr, db, after, tenant, ids[..n])
      && |after.log| == |db.log| + n && db.log <= after.log
      && (forall i | 0 <= i < n :: after.log[|db.log| + i].key == Key(tenant, ids[i]))
  {
    hide RotateTx, Stale, Named, IsBlank, Plaintext, Progress;
    if n == 0 {
      NoProgress(kr, db, tenant);
    } else {
      PartWay(kr, db, tenant, ids, n - 1, op, request, nonce);
      RotateNext(kr, db, tenant, ids, n - 1, op, request, nonce);
      var mid := RotateAll(kr, db, tenant, ids[..n - 1], op, request, nonce).0;
      var id := ids[n - 1];
      assert id in ids && id !in ids[..n - 1];
      StaleRotates(kr, db, mid, tenant, ids, ids[..n - 1], id, op, request, nonce(id));
      assert ids[..n] == ids[..n - 1] + [id];
    }
  }

  /** The entries name the keys, each exactly once. */
  ghost predicate EachOnce(entries: seq<Rotated>, keys: set<Key>) {
    && (forall i, j | 0 <= i < j < |entries| :: entries[i].key != entries[j].key)
    && (forall k :: k in keys <==> exists i | 0 <= i < |entries| :: entries[i].key == k)
  }

  lemma EachOnceListed(kr: Keyring, db: Db, tenant: string, ids: seq<string>, n: nat, entries: seq<Rotated>)
    requires Listed(kr, db, tenant, ids) && |entries| == n <= |ids|
    requires forall i | 0 <= i < n :: entries[i].key == Key(tenant, ids[i])
    ensures EachOnce(entries, Keys(tenant, ids[..n]))
  {
    hide Stale, Keys;
    forall i | 0 <= i < n ensures entries[i].key in Keys(tenant, ids[..n]) {
      assert ids[i] in ids[..n];
    }
    forall k | k in Keys(tenant, ids[..n]) ensures exists i | 0 <= i < n :: entries[i].key == k {
      var i :| 0 <= i < n && ids[..n][i] == k.id;
      assert entries[i].key == k;
    }
  }

  lemma EachOnceJoin(a: seq<Rotated>, b: seq<Rotated>, keys: set<Key>, rest: set<Key>)
    requires EachOnce(a, keys) && EachOnce(b, rest) && keys !! rest
    ensures EachOnce(a + b, keys + rest)
  {
    var all := a + b;
    forall i | 0 <= i < |all| ensures all[i].key in if i < |a| then keys else rest {
      assert all[i] == if i < |a| then a[i] else b[i - |a|];
    }
    forall k | k in keys + rest ensures exists i | 0 <= i < |all| :: all[i].key == k {
      if k in keys {
        var i :| 0 <= i < |a| && a[i].key == k;
        assert all[i].key == k;
      } else {
        var i :| 0 <= i < |b| && b[i].key == k;
        assert all[|a| + i].key == k;
      }
    }
  }

  lemma NoProgress(kr: Keyring, db: Db, tenant: string)
    ensures Progress(kr, db, db, tenant, [])
  {
  }

  /** A listed record not yet reached is rotated when its turn comes. */
  lemma StaleRotates(kr: Keyring, db: Db, mid: Db, tenant: string, ids: seq<string>, done: seq<string>, id: string,
                     op: Operator, request: string -> string, nonce: nat)
    requires kr.Valid() && Named(tenant, ids, op, request) && id in ids && Key(tenant, id) in Stale(kr, db, tenant)
    requires Progress(kr, db, mid, tenant, done) && id !in done && Plaintext(kr, db, Key(tenant, id)).Some?
    ensures var k := Key(tenant, id); var (after, r) := RotateTx(kr, mid, k, request(id), op, nonce);
      && r == Ok(true) && Progress(kr, db, after, tenant, done + [id])
      && after.log == mid.log + [Rotated(k, kr.active, request(id), op.subject, op.client)]
  {
    RotateKeepsSecrets(kr, mid, Key(tenant, id), request(id), op, nonce);
    SameSecretsTrans(kr, db, mid, RotateTx(kr, mid, Key(tenant, id), request(id), op, nonce).0);
    hide IsBlank;
  }

  lemma ListedReadable(kr: Keyring, db: Db, tenant: string, ids: seq<string>)
    requires Listed(kr, db, tenant, ids)
    requires forall k | k in Stale(kr, db, tenant) :: Plaintext(kr, db, k).Some?
    ensures forall i | 0 <= i < |ids| ::
      Key(tenant, ids[i]) in db.rows && Plaintext(kr, db, Key(tenant, ids[i])).Some?
  {
    hide Plaintext;
    forall i | 0 <= i < |ids| ensures Key(tenant, ids[i]) in Stale(kr, db, tenant) {
      assert ids[i] in ids;
    }
  }

  /**
   With every stale record readable, a rotation finishes: all the tenant's records are current with their
   plaintexts kept, the answer is the number stale at the start, and the log grew by each of those exactly once.
   */
  lemma RotationFinishes(kr: Keyring, db: Db, tenant: string, ids: seq<string>, op: Operator,
                         request: string -> string, nonce: string -> nat)
    requires kr.Valid() && Listed(kr, db, tenant, ids) && Named(tenant, ids, op, request)
    requires forall k | k in Stale(kr, db, tenant) :: Plaintext(kr, db, k).Some?
    ensures var (after, r) := RotateAll(kr, db, tenant, ids, op, request, nonce);
      && r == Ok(|Stale(kr, db, tenant)|)
      && Stale(kr, after, tenant) == {} && SameSecrets(kr, db, after)
      && (forall k | k in after.rows && k.tenant == tenant :: after.rows[k].version == kr.active)
      && db.log <= after.log && EachOnce(after.log[|db.log|..], Stale(kr, db, tenant))
  {
    hide RotateAll, Named, Plaintext, EachOnce, SameSecrets, Stale, Keys, Listed, Progress;
    ListedReadable(kr, db, tenant, ids);
    PartWay(kr, db, tenant, ids, |ids|, op, request, nonce);
    assert ids[..|ids|] == ids;
    ListedCount(kr, db, tenant, ids);
    var after := RotateAll(kr, db, tenant, ids, op, request, nonce).0;
    StaleShrinks(kr, db, after, tenant, ids, |ids|);
    EachOnceListed(kr, db, tenant, ids, |ids|, after.log[|db.log|..]);
    NoneStale(kr, after, tenant);
  }

  lemma NoneStale(kr: Keyring, db: Db, tenant: string)
    requires Stale(kr, db, tenant) == {}
    ensures forall k | k in db.rows && k.tenant == tenant :: db.rows[k].version == kr.active
  {
    forall k | k in db.rows && k.tenant == tenant ensures db.rows[k].version == kr.active {
      assert k !in Stale(kr, db, tenant);
    }
  }

  /** At the first record that does not decrypt it stops, with those before it rotated and the rest untouched. */
  lemma UnreadableStops(kr: Keyring, db: Db, tenant: string, ids: seq<string>, n: nat, op: Operator,
                        request: string -> string, nonce: string -> nat)
    requires kr.Valid() && Listed(kr, db, tenant, ids) && Named(tenant, ids, op, request) && n < |ids|
    requires forall i | 0 <= i < n :: Key(tenant, ids[i]) in db.rows && Plaintext(kr, db, Key(tenant, ids[i])).Some?
    requires Key(tenant, ids[n]) in db.rows && Plaintext(kr, db, Key(tenant, ids[n])).None?
    ensures var (after, r) := RotateAll(kr, db, tenant, ids, op, request, nonce);
      && r == Err(Undecryptable) && Progress(kr, db, after, tenant, ids[..n])
      && db.log <= after.log && EachOnce(after.log[|db.log|..], Keys(tenant, ids[..n]))
  {
    PartWay(kr, db, tenant, ids, n, op, request, nonce);
    EachOnceListed(kr, db, tenant, ids, n, RotateAll(kr, db, tenant, ids[..n], op, request, nonce).0.log[|db.log|..]);
    RotateNext(kr, db, tenant, ids, n, op, request, nonce);
    var mid, k := RotateAll(kr, db, tenant, ids[..n], op, request, nonce).0, Key(tenant, ids[n]);
    assert ids[n] in ids && ids[n] !in ids[..n];
    assert k in Stale(kr, db, tenant);
    assert RotateTx(kr, mid, k, request(ids[n]), op, nonce(ids[n])) == (mid, Err(Undecryptable)) by { hide IsBlank; }
    hide RotateTx, Progress;
    FailsOnward(kr, db, tenant, ids, n + 1, op, request, nonce);
  }

  lemma ListedCount(kr: Keyring, db: Db, tenant: string, ids: seq<string>)
    requires Listed(kr, db, tenant, ids)
    ensures Stale(kr, db, tenant) == Keys(tenant, ids) && |Stale(kr, db, tenant)| == |ids|
  {
    hide Stale;
    var keys := Keys(tenant, ids);
    forall k ensures k in Stale(kr, db, tenant) <==> k in keys { StaleTenant(kr, db, tenant, k); }
    assert Stale(kr, db, tenant) == keys;
  }

  lemma StaleTenant(kr: Keyring, db: Db, tenant: string, k: Key)
    ensures k in Stale(kr, db, tenant) ==> k == Key(tenant, k.id)
  {
  }

  function Keys(tenant: string, ids: seq<string>): (s: set<Key>)
    ensures forall k :: k in s <==> k.tenant == tenant && k.id in ids
    ensures (forall i, j | 0 <= i < j < |ids| :: ids[i] != ids[j]) ==> |s| == |ids|
  {
    if ids == [] then {} else Keys(tenant, ids[..|ids| - 1]) + {Key(tenant, ids[|ids| - 1])}
  }

  lemma StaleShrinks(kr: Keyring, db: Db, stopped: Db, tenant: string, ids: seq<string>, n: nat)
    requires Listed(kr, db, tenant, ids) && n <= |ids| && Progress(kr, db, stopped, tenant, ids[..n])
    ensures SameSecrets(kr, db, stopped) && Keys(tenant, ids[..n]) <= Stale(kr, db, tenant)
    ensures Stale(kr, stopped, tenant) == Stale(kr, db, tenant) - Keys(tenant, ids[..n])
    ensures |Stale(kr, stopped, tenant)| == |Stale(kr, db, tenant)| - n
  {
    hide Plaintext;
    var done := Keys(tenant, ids[..n]);
    forall k | k in done ensures k in Stale(kr, db, tenant) {
      assert k.id in ids && k == Key(tenant, k.id);
    }
    assert Stale(kr, stopped, tenant) == Stale(kr, db, tenant) - done;
    assert done <= Stale(kr, db, tenant);
  }

  lemma LogsJoin(start: seq<Rotated>, middle: seq<Rotated>, end: seq<Rotated>, all: set<Key>, keys: set<Key>)
    requires start <= middle <= end && keys <= all
    requires EachOnce(middle[|start|..], keys) && EachOnce(end[|middle|..], all - keys)
    ensures EachOnce(end[|start|..], all)
  {
    EachOnceJoin(middle[|start|..], end[|middle|..], keys, all - keys);
    hide EachOnce;
    assert end[|start|..] == middle[|start|..] + end[|middle|..];
    assert all == keys + (all - keys);
  }

  lemma ReadableStill(kr: Keyring, a: Db, b: Db, tenant: string)
    requires SameSecrets(kr, a, b) && Stale(kr, b, tenant) <= Stale(kr, a, tenant)
    requires forall k | k in Stale(kr, a, tenant) :: Plaintext(kr, a, k).Some?
    ensures forall k | k in Stale(kr, b, tenant) :: Plaintext(kr, b, k).Some?
  {
    hide Plaintext;
    forall k | k in Stale(kr, b, tenant) ensures Plaintext(kr, b, k).Some? {
      assert k in Stale(kr, a, tenant);
    }
  }

  /** After `n` records of a readable tenant the others are left, as readable as before. */
  lemma StoppedPartWay(kr: Keyring, db: Db, tenant: string, ids: seq<string>, n: nat, op: Operator,
                       request: string -> string, nonce: string -> nat)
    requires kr.Valid() && Listed(kr, db, tenant, ids) && n <= |ids| && Named(tenant, ids, op, request)
    requires forall k | k in Stale(kr, db, tenant) :: Plaintext(kr, db, k).Some?
    ensures var (stopped, first) := RotateAll(kr, db, tenant, ids[..n], op, request, nonce);
      && first == Ok(n) && SameSecrets(kr, db, stopped)
      && Keys(tenant, ids[..n]) <= Stale(kr, db, tenant)
      && Stale(kr, stopped, tenant) == Stale(kr, db, tenant) - Keys(tenant, ids[..n])
      && |Stale(kr, stopped, tenant)| == |Stale(kr, db, tenant)| - n
      && (forall k | k in Stale(kr, stopped, tenant) :: Plaintext(kr, stopped, k).Some?)
      && db.log <= stopped.log && EachOnce(stopped.log[|db.log|..], Keys(tenant, ids[..n]))
  {
    ListedReadable(kr, db, tenant, ids);
    hide RotateAll, Named, Plaintext, EachOnce, SameSecrets, Stale, Keys, Listed, Progress;
    PartWay(kr, db, tenant, ids, n, op, request, nonce);
    var stopped := RotateAll(kr, db, tenant, ids[..n], op, request, nonce).0;
    StaleShrinks(kr, db, stopped, tenant, ids, n);
    ReadableStill(kr, db, stopped, tenant);
    EachOnceListed(kr, db, tenant, ids, n, stopped.log[|db.log|..]);
  }

  lemma NamedRest(kr: Keyring, db: Db, stopped: Db, tenant: string, ids: seq<string>, rest: seq<string>, op: Operator,
                  request: string -> string)
    requires Listed(kr, db, tenant, ids) && Listed(kr, stopped, tenant, rest) && Named(tenant, ids, op, request)
    requires Stale(kr, stopped, tenant) <= Stale(kr, db, tenant)
    ensures Named(tenant, rest, op, request)
  {
    hide Stale, IsBlank;
    forall id | id in rest ensures id in ids {
      assert Key(tenant, id) in Stale(kr, stopped, tenant);
    }
  }

  /** Stopped after any record and run again, it does the rest: the counts add up and no record is logged twice. */
  lemma RerunDoesTheRest(kr: Keyring, db: Db, tenant: string, ids: seq<string>, n: nat, rest: seq<string>, op: Operator,
                         request: string -> string, nonce: string -> nat)
    requires kr.Valid() && Listed(kr, db, tenant, ids) && n <= |ids| && Named(tenant, ids, op, request)
    requires forall k | k in Stale(kr, db, tenant) :: Plaintext(kr, db, k).Some?
    requires Listed(kr, RotateAll(kr, db, tenant, ids[..n], op, request, nonce).0, tenant, rest)
    ensures var (stopped, first) := RotateAll(kr, db, tenant, ids[..n], op, request, nonce);
      var (after, second) := RotateAll(kr, stopped, tenant, rest, op, request, nonce);
      && first == Ok(n) && second == Ok(|Stale(kr, db, tenant)| - n)
      && Stale(kr, after, tenant) == {} && SameSecrets(kr, db, after)
      && db.log <= after.log && EachOnce(after.log[|db.log|..], Stale(kr, db, tenant))
  {
    StoppedPartWay(kr, db, tenant, ids, n, op, request, nonce);
    var stopped := RotateAll(kr, db, tenant, ids[..n], op, request, nonce).0;
    NamedRest(kr, db, stopped, tenant, ids, rest, op, request);
    hide RotateAll, Stale, SameSecrets, EachOnce, Listed, Named, Plaintext, Keys;
    RotationFinishes(kr, stopped, tenant, rest, op, request, nonce);
    var after := RotateAll(kr, stopped, tenant, rest, op, request, nonce).0;
    SameSecretsTrans(kr, db, stopped, after);
    LogsJoin(db.log, stopped.log, after.log, Stale(kr, db, tenant), Keys(tenant, ids[..n]));
  }
}
