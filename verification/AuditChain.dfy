/** What is kept out of persisted payloads, and what a payload reads back as. */
module Redaction {
  import opened Wrappers
  import opened JsonValues

  const SENSITIVE_PARTS: seq<string> :=
    ["api_key", "apikey", "authorization", "credential", "password", "private_key", "secret", "token"]

  const REDACTED := "[REDACTED]"

  /** `casefold` on ASCII text. */
  function Folded(s: string): string {
    if s == [] then []
    else [if 'A' <= s[0] <= 'Z' then (s[0] as int + 32) as char else s[0]] + Folded(s[1..])
  }

  predicate Contains(text: string, part: string) {
    exists i | 0 <= i <= |text| - |part| :: part <= text[i..]
  }

  predicate Sensitive(key: string) {
    exists i | 0 <= i < |SENSITIVE_PARTS| :: Contains(Folded(key), SENSITIVE_PARTS[i])
  }

  function Lower(c: char): char {
    if 'A' <= c <= 'Z' then c - 'A' + 'a' else c
  }

  /** The key contains the part, in whatever case. */
  predicate Has(key: string, part: string) {
    exists i | 0 <= i <= |key| - |part| :: HasAt(key, part, i)
  }

  predicate HasAt(key: string, part: string, i: nat)
    requires i + |part| <= |key|
  {
    forall j | 0 <= j < |part| :: Lower(key[i + j]) == part[j]
  }

  lemma {:induction false} FoldedLowers(s: string)
    ensures |Folded(s)| == |s| && forall i | 0 <= i < |s| :: Folded(s)[i] == Lower(s[i])
  {
    if s != [] { FoldedLowers(s[1..]); }
  }

  lemma ContainsFolded(key: string, part: string)
    ensures Contains(Folded(key), part) <==> Has(key, part)
  {
    FoldedLowers(key);
    hide Folded, Lower;
    var text := Folded(key);
    forall i | 0 <= i <= |key| - |part| ensures part <= text[i..] <==> HasAt(key, part, i) {
      if HasAt(key, part, i) { assert text[i..][..|part|] == part; }
      if part <= text[i..] { assert forall j | 0 <= j < |part| :: part[j] == text[i..][j] == text[i + j]; }
    }
  }

  /** A key is sensitive exactly when it contains one of these, in whatever case. */
  lemma SensitiveExactly(key: string)
    ensures Sensitive(key) <==>
      || Has(key, "api_key") || Has(key, "apikey") || Has(key, "authorization") || Has(key, "credential")
      || Has(key, "password") || Has(key, "private_key") || Has(key, "secret") || Has(key, "token")
  {
    var p := SENSITIVE_PARTS;
    assert |p| == 8 && p[0] == "api_key" && p[1] == "apikey" && p[2] == "authorization" && p[3] == "credential"
           && p[4] == "password" && p[5] == "private_key" && p[6] == "secret" && p[7] == "token";
    forall i | 0 <= i < |p| { ContainsFolded(key, p[i]); }
    hide Contains, Has, Folded;
    assert Sensitive(key) <==>
      || Contains(Folded(key), p[0]) || Contains(Folded(key), p[1]) || Contains(Folded(key), p[2])
      || Contains(Folded(key), p[3]) || Contains(Folded(key), p[4]) || Contains(Folded(key), p[5])
      || Contains(Folded(key), p[6]) || Contains(Folded(key), p[7]);
  }

  function Redact(v: Json): Json {
    match v
    case Obj(m) => Obj(map k | k in m :: if Sensitive(k) then Str(REDACTED) else Redact(m[k]))
    case Arr(s) => Arr(seq(|s|, i requires 0 <= i < |s| => Redact(s[i])))
    case Tup(s) => Arr(seq(|s|, i requires 0 <= i < |s| => Redact(s[i])))
    case _ => v
  }

  function RedactMap(m: Mapping): Mapping { Redact(Obj(m)).fields }

  /** What `loads` makes of `dumps`: tuples come back as lists. */
  function Reread(v: Json): Json {
    match v
    case Obj(m) => Obj(map k | k in m :: Reread(m[k]))
    case Arr(s) => Arr(seq(|s|, i requires 0 <= i < |s| => Reread(s[i])))
    case Tup(s) => Arr(seq(|s|, i requires 0 <= i < |s| => Reread(s[i])))
    case _ => v
  }

  function RereadMap(m: Mapping): Mapping { Reread(Obj(m)).fields }

  /** A step into a payload: a key of a mapping, or a position of a list. */
  datatype Step = Key(name: string) | Index(position: nat)

  function At(v: Json, path: seq<Step>): Option<Json>
    decreases |path|
  {
    if path == [] then Some(v)
    else
      match (v, path[0])
      case (Obj(m), Key(k)) => if k in m then At(m[k], path[1..]) else None
      case (Arr(s), Index(i)) => if i < |s| then At(s[i], path[1..]) else None
      case (Tup(s), Index(i)) => if i < |s| then At(s[i], path[1..]) else None
      case _ => None
  }

  predicate Scalar(v: Json) { v.Null? || v.Bool? || v.Num? || v.Str? }

  predicate Insensitive(path: seq<Step>) {
    forall i | 0 <= i < |path| :: path[i].Key? ==> !Sensitive(path[i].name)
  }

  /** Redaction keeps every value that no sensitive key leads to, where it was, and adds none. */
  lemma {:induction false} RedactKeepsTheRest(v: Json, path: seq<Step>)
    requires Insensitive(path)
    ensures At(Redact(v), path).Some? <==> At(v, path).Some?
    ensures At(v, path).Some? && Scalar(At(v, path).value) ==> At(Redact(v), path) == At(v, path)
    decreases |path|
  {
    hide Sensitive;
    if path != [] {
      assert Insensitive(path[1..]);
      match (v, path[0])
      case (Obj(m), Key(k)) => if k in m { RedactKeepsTheRest(m[k], path[1..]); }
      case (Arr(s), Index(i)) => if i < |s| { RedactKeepsTheRest(s[i], path[1..]); }
      case (Tup(s), Index(i)) => if i < |s| { RedactKeepsTheRest(s[i], path[1..]); }
      case _ =>
    }
  }

  /** Under every sensitive key, at any depth, only the placeholder. */
  predicate Clean(v: Json) {
    match v
    case Obj(m) => forall k | k in m :: if Sensitive(k) then m[k] == Str(REDACTED) else Clean(m[k])
    case Arr(s) => forall i | 0 <= i < |s| :: Clean(s[i])
    case Tup(s) => forall i | 0 <= i < |s| :: Clean(s[i])
    case _ => true
  }

  lemma {:induction false} RedactCleans(v: Json)
    ensures Clean(Redact(v))
  {
    hide Sensitive;
    match v
    case Obj(m) =>
      forall k | k in m && !Sensitive(k) ensures Clean(Redact(m[k])) { RedactCleans(m[k]); }
    case Arr(s) =>
      forall i | 0 <= i < |s| ensures Clean(Redact(s[i])) { RedactCleans(s[i]); }
    case Tup(s) =>
      forall i | 0 <= i < |s| ensures Clean(Redact(s[i])) { RedactCleans(s[i]); }
    case _ =>
  }

  /** A clean payload is only reread; anything else is changed. */
  lemma {:induction false} RedactFixesExactlyClean(v: Json)
    ensures Clean(v) <==> Redact(v) == Reread(v)
  {
    hide Sensitive;
    match v
    case Obj(m) =>
      var a, b := Redact(v).fields, Reread(v).fields;
      forall k | k in m && !Sensitive(k) ensures Clean(m[k]) <==> Redact(m[k]) == Reread(m[k]) {
        RedactFixesExactlyClean(m[k]);
      }
      forall k | k in m ensures Str(REDACTED) == Reread(m[k]) <==> m[k] == Str(REDACTED) {}
      assert (forall k | k in m :: a[k] == b[k]) <==> a == b;
    case Arr(s) => RedactFixesItems(s, v);
    case Tup(s) => RedactFixesItems(s, v);
    case _ =>
  }

  lemma {:induction false} RedactFixesItems(s: seq<Json>, v: Json)
    requires v == Arr(s) || v == Tup(s)
    ensures (forall i | 0 <= i < |s| :: Clean(s[i])) <==> Redact(v) == Reread(v)
    decreases v, 0
  {
    var a, b := Redact(v).items, Reread(v).items;
    forall i | 0 <= i < |s| ensures Clean(s[i]) <==> a[i] == b[i] {
      RedactFixesExactlyClean(s[i]);
    }
    assert (forall i | 0 <= i < |s| :: a[i] == b[i]) <==> a == b;
  }

  /** A redacted payload holds no tuple, so it rereads unchanged. */
  lemma {:induction false} RedactedRereads(v: Json)
    ensures Reread(Redact(v)) == Redact(v)
  {
    hide Sensitive;
    match v
    case Obj(m) =>
      forall k | k in m && !Sensitive(k) ensures Reread(Redact(m[k])) == Redact(m[k]) { RedactedRereads(m[k]); }
      assert Reread(Redact(v)).fields == Redact(v).fields;
    case Arr(s) =>
      forall i | 0 <= i < |s| ensures Reread(Redact(s[i])) == Redact(s[i]) { RedactedRereads(s[i]); }
      assert Reread(Redact(v)).items == Redact(v).items;
    case Tup(s) =>
      forall i | 0 <= i < |s| ensures Reread(Redact(s[i])) == Redact(s[i]) { RedactedRereads(s[i]); }
      assert Reread(Redact(v)).items == Redact(v).items;
    case _ =>
  }

  /** Redacting what was stored and read back gives the redacted payload again. */
  lemma RedactionIsStable(m: Mapping)
    ensures RedactMap(RereadMap(RedactMap(m))) == RedactMap(m) == RereadMap(RedactMap(m))
  {
    assert Redact(Obj(m)) == Obj(RedactMap(m));
    assert Reread(Obj(RedactMap(m))) == Obj(RereadMap(RedactMap(m)));
    hide Redact, Reread, Clean;
    RedactedRereads(Obj(m));
    RedactCleans(Obj(m));
    RedactFixesExactlyClean(Obj(RedactMap(m)));
  }
}

/** Per-tenant hash chains in one append-only log. */
module AuditChain {
  import opened Wrappers
  import opened JsonValues
  import opened AuditEvents
  import opened Redaction
  import opened Replies
  import opened Texts
  import opened Timestamps

  function Genesis(): string { Digits(0, 64) }

  /** A stored row: `event` holds what its columns read back as. */
  datatype Row = Row(event: AuditEvent, created: string, previous: string, entry: string)

  /** Everything a row's hash is taken of. */
  datatype Hashed = Hashed(event: AuditEvent, previous: string, created: string)

  /** SHA-256 of the canonical JSON text. */
  type Hash = Hashed -> string

  datatype Refused = InvalidEvent | DuplicateHash | BlankTenant | BadTimestamp | ChainBroken

  datatype Verification = Verification(count: nat, last: string)

  function SafeCode(code: Option<string>): string {
    if code.Some? && PublicCode(code.value) then code.value else "UNKNOWN_ERROR"
  }

  function FailedWith(code: string): string {
    "Operation failed with " + code + "."
  }

  function RedactOption(m: Option<Mapping>): Option<Mapping> {
    if m.None? then None else Some(RedactMap(m.value))
  }

  function RereadOption(m: Option<Mapping>): Option<Mapping> {
    if m.None? then None else Some(RereadMap(m.value))
  }

  function Redacted(e: AuditEvent): AuditEvent {
    e.(input := RedactMap(e.input), action := RedactOption(e.action), result := RedactOption(e.result))
  }

  function SafeErrors(e: AuditEvent): AuditEvent {
    if e.errorCode.None? && e.errorMessage.None? then e
    else e.(errorCode := Some(SafeCode(e.errorCode)), errorMessage := Some(FailedWith(SafeCode(e.errorCode))))
  }

  /** The columns after `dumps` and `loads`. */
  function Stored(e: AuditEvent): AuditEvent {
    e.(input := RereadMap(e.input), action := RereadOption(e.action), result := RereadOption(e.result))
  }

  // ---------- Append ----------

  function ChainOf(log: seq<Row>, tenant: string): seq<Row> {
    if log == [] then []
    else
      var init, last := ChainOf(log[..|log| - 1], tenant), log[|log| - 1];
      if last.event.tenant == tenant then init + [last] else init
  }

  function LastHash(chain: seq<Row>): string {
    if chain == [] then Genesis() else chain[|chain| - 1].entry
  }

  /** The row an append writes behind `chain`. */
  function NewRow(hash: Hash, chain: seq<Row>, e: AuditEvent, created: Utc): Row {
    var values := Redacted(SafeErrors(e));
    var text := Timestamp(created);
    Row(Stored(values), text, LastHash(chain), hash(Hashed(values, LastHash(chain), text)))
  }

  function AppendSpec(hash: Hash, log: seq<Row>, e: AuditEvent, created: Utc): (seq<Row>, Result<Row, Refused>) {
    if !Appendable(e) then (log, Err(InvalidEvent))
    else
      var chain := ChainOf(log, e.tenant);
      var row := NewRow(hash, chain, e, created);
      if exists i | 0 <= i < |chain| :: chain[i].entry == row.entry then (log, Err(DuplicateHash))
      else (log + [row], Ok(row))
  }

  // ---------- Verify ----------

  /** What verification hashes: the read record, redacted again, its time formatted again. */
  function Rehashed(row: Row): Result<Hashed, Refused> {
    match ParseTimestamp(row.created)
    case None => Err(BadTimestamp)
    case Some(t) => Ok(Hashed(Redacted(row.event), row.previous, Timestamp(t)))
  }

  predicate LinkOk(hash: Hash, row: Row, previous: string) {
    Rehashed(row).Ok? && row.previous == previous && hash(Rehashed(row).value) == row.entry
  }

  predicate Linked(hash: Hash, chain: seq<Row>) {
    forall i | 0 <= i < |chain| :: LinkOk(hash, chain[i], LastHash(chain[..i]))
  }

  class AuditRepository {
    const hash: Hash
    var log: seq<Row>

    constructor (hash: Hash)
      ensures this.hash == hash && log == []
    {
      this.hash := hash;
      log := [];
    }

    method ListForTenant(tenant: string) returns (rows: seq<Row>)
      ensures rows == ChainOf(log, tenant)
    {
      rows := [];
      for i := 0 to |log|
        invariant rows == ChainOf(log[..i], tenant)
      {
        assert log[..i + 1][..i] == log[..i];
        if log[i].event.tenant == tenant {
          rows := rows + [log[i]];
        }
      }
      assert log[..|log|] == log;
    }

    /** `created` is the event's own time, or the clock's. */
    method Append(e: AuditEvent, created: Utc) returns (r: Result<Row, Refused>)
      modifies this
      ensures (log, r) == AppendSpec(hash, old(log), e, created)
    {
      if !Appendable(e) {
        return Err(InvalidEvent);
      }
      var chain := ListForTenant(e.tenant);
      var previous := if chain == [] then Genesis() else chain[|chain| - 1].entry;
      var text := Timestamp(created);
      var values := Redacted(SafeErrors(e));
      var row := Row(Stored(values), text, previous, hash(Hashed(values, previous, text)));
      assert row == NewRow(hash, chain, e, created);
      if i :| 0 <= i < |chain| && chain[i].entry == row.entry {
        return Err(DuplicateHash);
      }
      log := log + [row];
      r := Ok(row);
    }

    /** Accepts exactly the linked chains; the count and last hash are those of the tenant's rows. */
    method VerifyChain(tenant: string) returns (r: Result<Verification, Refused>)
      ensures r.Ok? <==> !IsBlank(tenant) && Linked(hash, ChainOf(log, tenant))
      ensures r.Ok? ==> r.value == Verification(|ChainOf(log, tenant)|, LastHash(ChainOf(log, tenant)))
    {
      if IsBlank(tenant) {
        return Err(BlankTenant);
      }
      hide Linked, Rehashed, IsBlank;
      var records := ListForTenant(tenant);
      var expected := Genesis();
      LinkedEmpty(hash);
      assert records[..0] == [];
      for i := 0 to |records|
        invariant expected == LastHash(records[..i]) && Linked(hash, records[..i])
      {
        if !LinkOk(hash, records[i], LastHash(records[..i])) {
          BrokenLink(hash, records, i);
        }
        var values := Rehashed(records[i]);
        if values.Err? {
          return Err(values.error);
        }
        if records[i].previous != expected || hash(values.value) != records[i].entry {
          return Err(ChainBroken);
        }
        LinkedExtends(hash, records[..i], records[i]);
        expected := records[i].entry;
        assert records[..i] + [records[i]] == records[..i + 1];
      }
      assert records[..|records|] == records;
      r := Ok(Verification(|records|, expected));
    }
  }

  lemma LinkedEmpty(hash: Hash)
    ensures Linked(hash, [])
  {
  }

  lemma BrokenLink(hash: Hash, chain: seq<Row>, i: nat)
    requires i < |chain| && !LinkOk(hash, chain[i], LastHash(chain[..i]))
    ensures !Linked(hash, chain)
  {
  }

  // ---------- Whole histories of appends ----------

  datatype Appended = Appended(event: AuditEvent, created: Utc)

  function LogOf(hash: Hash, history: seq<Appended>): seq<Row> {
    if history == [] then []
    else
      var n := |history| - 1;
      AppendSpec(hash, LogOf(hash, history[..n]), history[n].event, history[n].created).0
  }

  ghost predicate Dated(history: seq<Appended>) {
    forall i | 0 <= i < |history| :: history[i].created.Valid()
  }

  lemma ReadBackIsWhatWasHashed(e: AuditEvent)
    ensures Redacted(Stored(Redacted(e))) == Redacted(e) == Stored(Redacted(e))
  {
    hide RedactMap, RereadMap;
    RedactionIsStable(e.input);
    if e.action.Some? { RedactionIsStable(e.action.value); }
    if e.result.Some? { RedactionIsStable(e.result.value); }
  }

  lemma NewRowLinks(hash: Hash, chain: seq<Row>, e: AuditEvent, created: Utc)
    requires created.Valid()
    ensures LinkOk(hash, NewRow(hash, chain, e, created), LastHash(chain))
  {
    hide Redacted, Stored, ParseTimestamp, Timestamp, SafeErrors;
    ReadBackIsWhatWasHashed(SafeErrors(e));
    TimestampReadsBack(created);
  }

  lemma LinkedExtends(hash: Hash, chain: seq<Row>, row: Row)
    requires Linked(hash, chain) && LinkOk(hash, row, LastHash(chain))
    ensures Linked(hash, chain + [row])
  {
    hide LinkOk, LastHash;
    forall i | 0 <= i < |chain| + 1 ensures LinkOk(hash, (chain + [row])[i], LastHash((chain + [row])[..i])) {
      assert (chain + [row])[..i] == if i == |chain| then chain else chain[..i];
    }
  }

  /** An append leaves the other tenants' chains alone, and its own one row longer or as it was. */
  lemma AppendExtends(hash: Hash, log: seq<Row>, a: Appended, tenant: string)
    ensures var after := AppendSpec(hash, log, a.event, a.created).0; var chain := ChainOf(log, a.event.tenant);
      || ChainOf(after, tenant) == ChainOf(log, tenant)
      || (tenant == a.event.tenant && ChainOf(after, tenant) == chain + [NewRow(hash, chain, a.event, a.created)])
  {
    hide Redacted, Stored, SafeErrors, Timestamp, Appendable;
    var row := NewRow(hash, ChainOf(log, a.event.tenant), a.event, a.created);
    assert (log + [row])[..|log|] == log;
    SameTenant(a.event);
  }

  lemma SameTenant(e: AuditEvent)
    ensures Stored(Redacted(SafeErrors(e))).tenant == e.tenant
  {
  }

  /** Whatever tenants append and in whatever order, every tenant's chain verifies. */
  lemma {:induction false} AppendsAlwaysVerify(hash: Hash, history: seq<Appended>, tenant: string)
    requires Dated(history)
    ensures Linked(hash, ChainOf(LogOf(hash, history), tenant))
  {
    hide LinkOk, Linked, NewRow, AppendSpec;
    if history == [] {
      LinkedEmpty(hash);
    } else {
      var n := |history| - 1;
      var log, a := LogOf(hash, history[..n]), history[n];
      AppendsAlwaysVerify(hash, history[..n], tenant);
      AppendExtends(hash, log, a, tenant);
      var chain := ChainOf(log, a.event.tenant);
      if tenant == a.event.tenant {
        NewRowLinks(hash, chain, a.event, a.created);
        LinkedExtends(hash, chain, NewRow(hash, chain, a.event, a.created));
      }
    }
  }

  // ---------- Tampering ----------

  ghost predicate CollisionFree(hash: Hash) {
    && (forall a, b :: hash(a) == hash(b) ==> a == b)
    && (forall a :: hash(a) != Genesis())
  }

  /** The event without its payloads. */
  function Columns(e: AuditEvent): AuditEvent {
    e.(input := map[], action := None, result := None)
  }

  /** Payloads that differ at most under sensitive keys. */
  predicate SamePayload(a: Option<Mapping>, b: Option<Mapping>) {
    a.Some? == b.Some? && (a.Some? ==> Redact(Obj(a.value)) == Redact(Obj(b.value)))
  }

  /** The rows agree in every column, but for what payloads hold under sensitive keys and how a time is written. */
  predicate SameFields(a: Row, b: Row) {
    && a.entry == b.entry && a.previous == b.previous && Columns(a.event) == Columns(b.event)
    && SamePayload(Some(a.event.input), Some(b.event.input))
    && SamePayload(a.event.action, b.event.action) && SamePayload(a.event.result, b.event.result)
    && ParseTimestamp(a.created).Some? && ParseTimestamp(b.created).Some?
    && ParseTimestamp(a.created).value.Instant() == ParseTimestamp(b.created).value.Instant()
  }

  lemma SameEntrySameFields(hash: Hash, a: Row, b: Row, p: string, q: string)
    requires CollisionFree(hash) && LinkOk(hash, a, p) && LinkOk(hash, b, q) && a.entry == b.entry
    ensures SameFields(a, b) && p == q
  {
    hide Timestamp, ParseTimestamp;
    assert Rehashed(a) == Rehashed(b);
    SameRedacted(a.event, b.event);
    ParsedValid(a.created);
    ParsedValid(b.created);
    TimestampReadsBack(ParseTimestamp(a.created).value);
    TimestampReadsBack(ParseTimestamp(b.created).value);
    hide Redacted, Redact, CollisionFree;
  }

  lemma SameRedacted(a: AuditEvent, b: AuditEvent)
    requires Redacted(a) == Redacted(b)
    ensures Columns(a) == Columns(b)
    ensures SamePayload(Some(a.input), Some(b.input))
    ensures SamePayload(a.action, b.action) && SamePayload(a.result, b.result)
  {
    assert forall m: Mapping :: Redact(Obj(m)) == Obj(RedactMap(m));
    hide Redact;
  }

  lemma ParsedValid(text: string)
    ensures ParseTimestamp(text).Some? ==> ParseTimestamp(text).value.Valid()
  {
    hide ParseFields, Number, AllDigits;
  }

  lemma LastLink(hash: Hash, chain: seq<Row>)
    requires CollisionFree(hash) && Linked(hash, chain)
    ensures chain == [] <==> LastHash(chain) == Genesis()
    ensures chain != [] ==>
      && Linked(hash, chain[..|chain| - 1]) && LastHash(chain) == chain[|chain| - 1].entry
      && LinkOk(hash, chain[|chain| - 1], LastHash(chain[..|chain| - 1]))
  {
    hide Rehashed, Genesis, CollisionFree, LinkOk;
    if chain != [] {
      PrefixVerifies(hash, chain, |chain| - 1);
      LastNotGenesis(hash, chain);
    }
  }

  lemma LastNotGenesis(hash: Hash, chain: seq<Row>)
    requires CollisionFree(hash) && Linked(hash, chain) && chain != []
    ensures LastHash(chain) != Genesis()
  {
    hide Rehashed, Genesis;
    assert LinkOk(hash, chain[|chain| - 1], LastHash(chain[..|chain| - 1]));
  }

  /** Two verifying chains that end in one hash hold the same hashed fields, row by row. */
  lemma {:induction false} LastHashFixesTheChain(hash: Hash, a: seq<Row>, b: seq<Row>)
    requires CollisionFree(hash) && Linked(hash, a) && Linked(hash, b) && LastHash(a) == LastHash(b)
    ensures |a| == |b| && forall i | 0 <= i < |a| :: SameFields(a[i], b[i])
    decreases |a|
  {
    hide Digits, Linked, LinkOk, CollisionFree, Rehashed, SameFields;
    LastLink(hash, a);
    LastLink(hash, b);
    assert a != [] <==> b != [];
    hide *;
    if a != [] && b != [] {
      var m, n := |a| - 1, |b| - 1;
      SameEntrySameFields(hash, a[m], b[n], LastHash(a[..m]), LastHash(b[..n]));
      LastHashFixesTheChain(hash, a[..m], b[..n]);
      forall i | 0 <= i < |a| ensures SameFields(a[i], b[i]) {
        if i < m { assert SameFields(a[..m][i], b[..n][i]); }
      }
    }
  }

  /** Dropping rows from the end leaves a chain that verifies: only its last hash tells. */
  lemma PrefixVerifies(hash: Hash, chain: seq<Row>, n: nat)
    requires Linked(hash, chain) && n <= |chain|
    ensures Linked(hash, chain[..n])
  {
    hide LinkOk;
    forall i | 0 <= i < n ensures LinkOk(hash, chain[..n][i], LastHash(chain[..n][..i])) {
      assert chain[..n][..i] == chain[..i];
    }
  }

  /** No hash occurs twice in a chain, nor is one the genesis hash. */
  lemma HashesDistinct(hash: Hash, chain: seq<Row>, i: nat, j: nat)
    requires CollisionFree(hash) && Linked(hash, chain) && i < j < |chain|
    ensures chain[i].entry != chain[j].entry
  {
    hide CollisionFree, Linked, Rehashed, Genesis, SameFields;
    if chain[i].entry == chain[j].entry {
      PrefixVerifies(hash, chain, i + 1);
      PrefixVerifies(hash, chain, j + 1);
      LastHashFixesTheChain(hash, chain[..i + 1], chain[..j + 1]);
      assert false;
    }
  }

  /** The unique index on a tenant's hashes never refuses an append. */
  lemma AppendNeverCollides(hash: Hash, history: seq<Appended>, e: AuditEvent, created: Utc)
    requires CollisionFree(hash) && Dated(history) && created.Valid() && Appendable(e)
    ensures AppendSpec(hash, LogOf(hash, history), e, created).1.Ok?
  {
    var chain := ChainOf(LogOf(hash, history), e.tenant);
    var row := NewRow(hash, chain, e, created);
    AppendsAlwaysVerify(hash, history, e.tenant);
    NewRowLinks(hash, chain, e, created);
    hide LinkOk, Linked, NewRow;
    LinkedExtends(hash, chain, row);
    forall i | 0 <= i < |chain| ensures chain[i].entry != row.entry {
      HashesDistinct(hash, chain + [row], i, |chain|);
    }
  }

  /** Behind any history an append is accepted exactly when its event is complete. */
  lemma AppendAnswers(hash: Hash, history: seq<Appended>, e: AuditEvent, created: Utc)
    requires CollisionFree(hash) && Dated(history) && created.Valid()
    ensures var log := LogOf(hash, history); var (after, r) := AppendSpec(hash, log, e, created);
      && (r.Ok? <==> Complete(e))
      && (if r.Ok? then after == log + [r.value] && Records(r.value, Appended(e, created)) else after == log)
  {
    CompleteAppendable(e);
    if Complete(e) {
      AppendNeverCollides(hash, history, e, created);
      NewRowRecords(hash, ChainOf(LogOf(hash, history), e.tenant), Appended(e, created));
    }
    hide Complete, Appendable, Records, NewRow, CollisionFree, LogOf;
  }

  /** The hash in front of the first row. */
  lemma {:induction false} GenesisIsZeros()
    ensures |Genesis()| == 64 && forall i | 0 <= i < 64 :: Genesis()[i] == '0'
  {
    hide Digits;
    ZeroDigits(64);
  }

  lemma {:induction false} ZeroDigits(w: nat)
    ensures |Digits(0, w)| == w && forall i | 0 <= i < w :: Digits(0, w)[i] == '0'
  {
    if w > 0 { ZeroDigits(w - 1); }
  }

  // ---------- What the log holds ----------

  /** An event whose identity fields are all there, for no company or a positive one. */
  predicate Complete(e: AuditEvent) {
    && !IsBlank(e.requestId) && !IsBlank(e.tenant) && !IsBlank(e.tool) && !IsBlank(e.toolVersion)
    && !IsBlank(e.moduleName) && !IsBlank(e.subject) && !IsBlank(e.client)
    && (e.company.Some? ==> e.company.value > 0)
  }

  /** The tenant's complete events in order. */
  function Kept(history: seq<Appended>, tenant: string): seq<Appended> {
    if history == [] then []
    else
      var n := |history| - 1;
      var init := Kept(history[..n], tenant);
      if Complete(history[n].event) && history[n].event.tenant == tenant then init + [history[n]] else init
  }

  /** The row records the event: payloads redacted, an error reduced to its public code, the rest as it was. */
  predicate Records(row: Row, a: Appended) {
    var e, kept := a.event, row.event;
    && Columns(kept).(errorCode := None, errorMessage := None) == Columns(e).(errorCode := None, errorMessage := None)
    && Obj(kept.input) == Redact(Obj(e.input))
    && kept.action.Some? == e.action.Some? && (e.action.Some? ==> Obj(kept.action.value) == Redact(Obj(e.action.value)))
    && kept.result.Some? == e.result.Some? && (e.result.Some? ==> Obj(kept.result.value) == Redact(Obj(e.result.value)))
    && (e.errorCode == None && e.errorMessage == None ==> kept.errorCode == None && kept.errorMessage == None)
    && (e.errorCode.Some? || e.errorMessage.Some? ==>
          var code := if e.errorCode.Some? && PublicCode(e.errorCode.value) then e.errorCode.value else "UNKNOWN_ERROR";
          kept.errorCode == Some(code) && kept.errorMessage == Some("Operation failed with " + code + "."))
    && row.created == Timestamp(a.created)
  }

  lemma CompleteAppendable(e: AuditEvent)
    ensures Complete(e) <==> Appendable(e)
  {
    hide IsBlank;
  }

  lemma NewRowRecords(hash: Hash, chain: seq<Row>, a: Appended)
    ensures Records(NewRow(hash, chain, a.event, a.created), a)
  {
    hide PublicCode, Timestamp;
    ReadBackIsWhatWasHashed(SafeErrors(a.event));
    assert forall m: Mapping :: Redact(Obj(m)) == Obj(RedactMap(m));
    hide Redact, Reread;
  }

  /** Nothing is lost, added or moved within a tenant, whatever the other tenants append. */
  lemma {:induction false} ChainsHoldTheEvents(hash: Hash, history: seq<Appended>, tenant: string)
    requires CollisionFree(hash) && Dated(history)
    ensures var rows, kept := ChainOf(LogOf(hash, history), tenant), Kept(history, tenant);
      |rows| == |kept| && forall i | 0 <= i < |rows| :: Records(rows[i], kept[i])
  {
    hide CollisionFree, Redacted, Stored, SafeErrors, Digits, Timestamp, Records, Complete, Appendable;
    if history != [] {
      var n := |history| - 1;
      var log, a := LogOf(hash, history[..n]), history[n];
      ChainsHoldTheEvents(hash, history[..n], tenant);
      CompleteAppendable(a.event);
      if Appendable(a.event) {
        AppendNeverCollides(hash, history[..n], a.event, a.created);
        var row := NewRow(hash, ChainOf(log, a.event.tenant), a.event, a.created);
        SameTenant(a.event);
        NewRowRecords(hash, ChainOf(log, a.event.tenant), a);
        assert LogOf(hash, history) == log + [row];
        assert (log + [row])[..|log|] == log;
      }
    }
  }

  /** No secret at any depth of a payload, and no error text but a public code's. */
  predicate Safe(e: AuditEvent) {
    && Clean(Obj(e.input)) && (e.action.Some? ==> Clean(Obj(e.action.value)))
    && (e.result.Some? ==> Clean(Obj(e.result.value)))
    && e.errorCode.Some? == e.errorMessage.Some?
    && (e.errorCode.Some? ==>
          PublicCode(e.errorCode.value) && e.errorMessage.value == FailedWith(e.errorCode.value))
  }

  lemma SafeCodePublic(code: Option<string>)
    ensures PublicCode(SafeCode(code))
  {
    assert PublicCode("UNKNOWN_ERROR");
  }

  lemma AppendStoresSafely(e: AuditEvent)
    ensures Safe(Redacted(SafeErrors(e)))
  {
    hide PublicCode, SafeCode, FailedWith, Clean, RedactMap;
    SafeCodePublic(e.errorCode);
    RedactMapCleans(e.input);
    if e.action.Some? { RedactMapCleans(e.action.value); }
    if e.result.Some? { RedactMapCleans(e.result.value); }
  }

  lemma RedactMapCleans(m: Mapping)
    ensures Clean(Obj(RedactMap(m)))
  {
    RedactCleans(Obj(m));
    assert Redact(Obj(m)) == Obj(RedactMap(m));
  }

  lemma {:induction false} StoredRowsAreSafe(hash: Hash, history: seq<Appended>)
    ensures forall i | 0 <= i < |LogOf(hash, history)| :: Safe(LogOf(hash, history)[i].event)
  {
    if history != [] {
      var n := |history| - 1;
      StoredRowsAreSafe(hash, history[..n]);
      AppendStoresSafely(history[n].event);
      ReadBackIsWhatWasHashed(SafeErrors(history[n].event));
      hide Safe, Redacted, Stored, SafeErrors, Digits, Timestamp, ChainOf;
    }
  }
}
