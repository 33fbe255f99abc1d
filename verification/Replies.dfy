/** The write reply, the form of it that is stored for replay, and its restoration. */
module Replies {
  import opened Wrappers
  import opened JsonValues

  datatype WriteStatus = Preview | Succeeded | NeedsInput | Failed

  datatype WriteOutcome = NotAttempted | Known | Unknown

  datatype ErrorInfo = ErrorInfo(code: string, message: string, hint: string)

  /** The public error codes. */
  predicate PublicCode(code: string) {
    code in {
      "ODOO_AUTH_FAILED", "ODOO_API_ERROR", "ODOO_VERSION_UNSUPPORTED",
      "ODOO_TRANSPORT_NEGOTIATION_FAILED", "ODOO_PERMISSION_DENIED", "COMPANY_NOT_FOUND",
      "CAPABILITY_NOT_AVAILABLE", "EXECUTION_NOT_EXPLICIT", "ODOO_STATE_CONFLICT",
      "CONCURRENT_OPERATION_IN_PROGRESS", "IDEMPOTENCY_KEY_PAYLOAD_MISMATCH", "JOURNAL_NOT_FOUND",
      "STATEMENT_LINE_NOT_FOUND", "ACCOUNT_NOT_FOUND", "JOURNAL_ENTRY_NOT_DRAFT",
      "JOURNAL_ENTRY_UNBALANCED", "PAYROLL_PERIOD_NOT_FOUND", "INSUFFICIENT_COMPARISON_DATA",
      "PAYROLL_BATCH_NOT_FOUND", "PAYSLIP_NOT_FOUND", "PAYROLL_STRUCTURE_NOT_FOUND",
      "CONTRACT_DATA_MISSING", "EMPLOYEE_NOT_FOUND", "PAYROLL_SOURCE_INCONSISTENT",
      "PAYROLL_RESULT_TOO_LARGE", "PAYROLL_INPUT_NOT_FOUND", "PAYROLL_INPUT_TYPE_NOT_ALLOWED",
      "PAYROLL_STATE_NOT_EDITABLE", "PAYROLL_RECALCULATION_FAILED", "INVALID_INPUT",
      "MODEL_NOT_ALLOWED", "FIELD_DENIED", "UNKNOWN_ERROR"
    }
  }

  datatype Command = Command(
    company: int,
    payload: Mapping,
    dryRun: bool,
    key: Option<string>,
    audit: Option<Mapping>,
    actionKeys: Option<set<string>>,
    effectKeys: Option<set<string>>,
    compact: bool)

  datatype PreparedWrite = PreparedWrite(
    action: Mapping, effects: Mapping, artifact: Option<string>, needsInput: bool)

  datatype AppliedWrite = AppliedWrite(
    effects: Mapping, refs: seq<string>, artifact: Option<string>)

  datatype Reply = Reply(
    status: WriteStatus,
    outcome: WriteOutcome,
    requestId: string,
    company: int,
    action: Option<Mapping>,
    effects: Mapping,
    refs: seq<string>,
    artifact: Option<string>,
    error: Option<string>,
    message: Option<string>,
    hint: Option<string>)
  {
    /** The shape every constructed reply is validated against. */
    predicate Valid() {
      && (status == Failed ==> error.Some? && message.Some? && hint.Some?)
      && (status != Failed ==> error.None? && message.None? && hint.None?)
      && (outcome == Unknown ==> status == Failed)
      && (error.Some? ==> PublicCode(error.value))
    }
  }

  function FailureReply(e: ErrorInfo, requestId: string, company: int, outcome: WriteOutcome,
                        prepared: Option<PreparedWrite>): (r: Reply)
    ensures r.status.Failed? && r.outcome == outcome && r.requestId == requestId
    ensures r.Valid() <==> PublicCode(e.code)
  {
    Reply(Failed, outcome, requestId, company,
          if prepared.None? then None else Some(prepared.value.action),
          if prepared.None? then map[] else prepared.value.effects,
          [],
          if prepared.None? then None else prepared.value.artifact,
          Some(e.code), Some(e.message), Some(e.hint))
  }

  function PreparedReply(p: PreparedWrite, requestId: string, company: int): Reply {
    Reply(if p.needsInput then NeedsInput else Preview, NotAttempted, requestId, company,
          Some(p.action), p.effects, [], p.artifact, None, None, None)
  }

  function AppliedReply(p: PreparedWrite, a: AppliedWrite, requestId: string, company: int): Reply {
    Reply(Succeeded, Known, requestId, company, Some(p.action), a.effects, a.refs,
          if a.artifact.Some? && a.artifact.value != "" then a.artifact else p.artifact,
          None, None, None)
  }

  // ---------- Persistence ----------

  function Filtered(m: Mapping, retained: Option<set<string>>): Mapping {
    if retained.None? then m else map k | k in m && k in retained.value :: m[k]
  }

  function ForPersistence(cmd: Command, r: Reply): Reply {
    if cmd.actionKeys.None? && cmd.effectKeys.None? then r
    else r.(
         action := if r.action.None? then None else Some(Filtered(r.action.value, cmd.actionKeys)),
         effects := Filtered(r.effects, cmd.effectKeys),
         artifact := None)
  }

  function StatusText(s: WriteStatus): string {
    match s
    case Preview => "preview"
    case Succeeded => "succeeded"
    case NeedsInput => "needs_input"
    case Failed => "failed"
  }

  function OutcomeText(o: WriteOutcome): string {
    match o
    case NotAttempted => "not_attempted"
    case Known => "known"
    case Unknown => "unknown"
  }

  function OptText(t: Option<string>): Json {
    if t.None? then Null else Str(t.value)
  }

  /** The whole reply as a JSON mapping. */
  function Dump(r: Reply): Mapping {
    map[
      "status" := Str(StatusText(r.status)),
      "outcome" := Str(OutcomeText(r.outcome)),
      "request_id" := Str(r.requestId),
      "company_id" := Num(r.company),
      "proposed_action" := if r.action.None? then Null else Obj(r.action.value),
      "material_effects" := Obj(r.effects),
      "record_refs" := Arr(seq(|r.refs|, i requires 0 <= i < |r.refs| => Str(r.refs[i]))),
      "artifact_markdown" := OptText(r.artifact),
      "error_code" := OptText(r.error),
      "error_message" := OptText(r.message),
      "remediation_hint" := OptText(r.hint)
    ]
  }

  /** The identifiers that a compact record keeps. */
  const COMPACT_KEYS: set<string> := {
    "operation", "payslip_id", "input_id", "result_input_id",
    "before_source_state", "after_source_state"
  }

  const COMPACT_ACTION_KEYS: set<string> := {
    "operation", "payslip_id", "input_id", "before_source_state"
  }

  /** First of effects, action and audit payload that HAS the key, even when its value is null. */
  function Selected(effects: Mapping, action: Mapping, audit: Mapping, key: string): Json {
    if key in effects then effects[key]
    else if key in action then action[key]
    else Get(audit, key)
  }

  function OrEmpty(m: Option<Mapping>): Mapping {
    if m.None? then map[] else m.value
  }

  function SelectedFor(cmd: Command, r: Reply, key: string): Json {
    var kept := ForPersistence(cmd, r);
    Selected(kept.effects, OrEmpty(kept.action), OrEmpty(cmd.audit), key)
  }

  function DropNulls(m: Mapping): Mapping {
    map k | k in m && m[k] != Null :: m[k]
  }

  function CompactHeader(r: Reply): Mapping {
    map[
      "status" := Str(StatusText(r.status)),
      "outcome" := Str(OutcomeText(r.outcome)),
      "request_id" := Str(r.requestId),
      "company_id" := Num(r.company)
    ]
  }

  function CompactErrors(r: Reply): Mapping {
    if r.error.None? then map[]
    else map["error_code" := OptText(r.error),
             "error_message" := OptText(r.message),
             "remediation_hint" := OptText(r.hint)]
  }

  function CompactBody(cmd: Command, r: Reply): Mapping {
    map k | k in COMPACT_KEYS :: SelectedFor(cmd, r, k)
  }

  /** The mapping stored with a final idempotency row and written as the audit result. */
  function Persist(cmd: Command, r: Reply): Mapping {
    if !cmd.compact then Dump(ForPersistence(cmd, r))
    else DropNulls(CompactHeader(r) + CompactBody(cmd, r) + CompactErrors(r))
  }

  // ---------- Restoration ----------

  function ParseStatus(j: Json): Option<WriteStatus> {
    if j == Str("preview") then Some(Preview)
    else if j == Str("succeeded") then Some(Succeeded)
    else if j == Str("needs_input") then Some(NeedsInput)
    else if j == Str("failed") then Some(Failed)
    else None
  }

  function ParseOutcome(j: Json): Option<WriteOutcome> {
    if j == Str("not_attempted") then Some(NotAttempted)
    else if j == Str("known") then Some(Known)
    else if j == Str("unknown") then Some(Unknown)
    else None
  }

  predicate IsOptText(j: Json) { j.Null? || j.Str? }

  function ParseOptText(j: Json): Option<string> {
    if j.Str? then Some(j.s) else None
  }

  function ParseRefs(j: Json): Option<seq<string>> {
    if j.Arr? && forall i | 0 <= i < |j.items| :: j.items[i].Str?
    then Some(seq(|j.items|, i requires 0 <= i < |j.items| && j.items[i].Str? => j.items[i].s))
    else None
  }

  const REPLY_FIELDS: set<string> := {
    "status", "outcome", "request_id", "company_id", "proposed_action", "material_effects",
    "record_refs", "artifact_markdown", "error_code", "error_message", "remediation_hint"
  }

  /** Strict validation of a stored mapping: unknown fields, wrong types and bad shapes are refused. */
  function Validate(p: Mapping): Option<Reply> {
    var status := ParseStatus(Get(p, "status"));
    var outcome := ParseOutcome(Get(p, "outcome"));
    var requestId := Get(p, "request_id");
    var company := Get(p, "company_id");
    var action := Get(p, "proposed_action");
    var effects := if "material_effects" in p then p["material_effects"] else Obj(map[]);
    var refs := if "record_refs" in p then ParseRefs(p["record_refs"]) else Some([]);
    var artifact := Get(p, "artifact_markdown");
    var error := Get(p, "error_code");
    var message := Get(p, "error_message");
    var hint := Get(p, "remediation_hint");
    if !(p.Keys <= REPLY_FIELDS) || status.None? || outcome.None? || !requestId.Str? || !company.Num?
       || !(action.Null? || action.Obj?) || !effects.Obj? || refs.None? || !IsOptText(artifact)
       || !IsOptText(error) || !IsOptText(message) || !IsOptText(hint) then None
    else
      var r := Reply(status.value, outcome.value, requestId.s, company.n,
                     if action.Null? then None else Some(action.fields), effects.fields, refs.value,
                     ParseOptText(artifact), ParseOptText(error), ParseOptText(message),
                     ParseOptText(hint));
      if r.Valid() then Some(r) else None
  }

  function NonNull(p: Mapping, keys: set<string>): Mapping {
    map k | k in keys && Get(p, k) != Null :: Get(p, k)
  }

  /** The reply fields a compact record is expanded to before validation. */
  function Expanded(p: Mapping): Mapping {
    var action := NonNull(p, COMPACT_ACTION_KEYS);
    map[
      "status" := Get(p, "status"),
      "outcome" := Get(p, "outcome"),
      "request_id" := Get(p, "request_id"),
      "company_id" := Get(p, "company_id"),
      "proposed_action" := if action == map[] then Null else Obj(action),
      "material_effects" := Obj(NonNull(p, COMPACT_KEYS)),
      "error_code" := Get(p, "error_code"),
      "error_message" := Get(p, "error_message"),
      "remediation_hint" := Get(p, "remediation_hint")
    ]
  }

  /** A reply rebuilt from the stored mapping; None is the source's ValueError. */
  function Restore(cmd: Command, payload: Option<Mapping>): Option<Reply> {
    if payload.None? then None
    else if !cmd.compact then Validate(payload.value)
    else Validate(Expanded(payload.value))
  }

  /** What is left of a mapping: the retained keys with their values, or all of it when no set is given. */
  ghost predicate Retains(kept: Mapping, m: Mapping, retained: Option<set<string>>) {
    && (forall k :: k in kept <==> k in m && (retained == None || k in retained.value))
    && (forall k | k in kept && k in m :: kept[k] == m[k])
  }

  /** The retained reply has the verdict and references of the whole one, and of the rest what is retained. */
  lemma RetainedReply(cmd: Command, r: Reply)
    ensures var kept := ForPersistence(cmd, r);
      && SameVerdict(kept, r) && kept.refs == r.refs && kept.action.Some? == r.action.Some?
      && Retains(kept.effects, r.effects, cmd.effectKeys)
      && (r.action.Some? ==> Retains(kept.action.value, r.action.value, cmd.actionKeys))
      && kept.artifact == if cmd.actionKeys == None && cmd.effectKeys == None then r.artifact else None
  {
  }

  /** A compact record names an identifier as the retained effects do, else the retained action, else the audit. */
  lemma CompactNames(cmd: Command, r: Reply, key: string)
    requires key in COMPACT_KEYS
    ensures var effected := key in r.effects && (cmd.effectKeys == None || key in cmd.effectKeys.value);
      var acted := r.action.Some? && key in r.action.value && (cmd.actionKeys == None || key in cmd.actionKeys.value);
      SelectedFor(cmd, r, key)
      == if effected then r.effects[key]
         else if acted then r.action.value[key]
         else if cmd.audit.Some? && key in cmd.audit.value then cmd.audit.value[key]
         else Null
  {
    RetainedReply(cmd, r);
    hide ForPersistence;
  }

  // ---------- Replay laws ----------

  lemma DumpHeader(r: Reply)
    ensures var p := Dump(r);
      && Get(p, "status") == Str(StatusText(r.status)) && Get(p, "outcome") == Str(OutcomeText(r.outcome))
      && Get(p, "request_id") == Str(r.requestId) && Get(p, "company_id") == Num(r.company)
  {
    hide StatusText, OutcomeText, OptText;
  }

  lemma DumpBody(r: Reply)
    ensures var p := Dump(r);
      && Get(p, "proposed_action") == (if r.action.None? then Null else Obj(r.action.value))
      && "material_effects" in p && p["material_effects"] == Obj(r.effects)
      && "record_refs" in p && ParseRefs(p["record_refs"]) == Some(r.refs)
      && Get(p, "artifact_markdown") == OptText(r.artifact)
  {
    hide StatusText, OutcomeText, OptText;
    var refs := Arr(seq(|r.refs|, i requires 0 <= i < |r.refs| => Str(r.refs[i])));
    assert ParseRefs(refs).value == r.refs;
  }

  lemma DumpErrors(r: Reply)
    ensures var p := Dump(r);
      && Get(p, "error_code") == OptText(r.error) && Get(p, "error_message") == OptText(r.message)
      && Get(p, "remediation_hint") == OptText(r.hint) && p.Keys == REPLY_FIELDS
  {
    hide StatusText, OutcomeText, OptText;
  }

  /** Every field is read back from its own text. */
  lemma TextsParse(r: Reply)
    ensures ParseStatus(Str(StatusText(r.status))) == Some(r.status)
    ensures ParseOutcome(Str(OutcomeText(r.outcome))) == Some(r.outcome)
    ensures forall t: Option<string> :: IsOptText(OptText(t)) && ParseOptText(OptText(t)) == t
  {
  }

  /** Validation reads back exactly what was dumped. */
  lemma ValidateDump(r: Reply)
    requires r.Valid()
    ensures Validate(Dump(r)) == Some(r)
  {
    hide Dump, Get, ParseStatus, ParseOutcome, StatusText, OutcomeText, OptText, IsOptText, ParseOptText, ParseRefs,
         PublicCode;
    DumpHeader(r);
    DumpBody(r);
    DumpErrors(r);
    TextsParse(r);
  }

  /** And it accepts nothing else: every field it was given is the accepted reply's own. */
  lemma ValidateAccepts(p: Mapping, k: string)
    requires Validate(p).Some? && k in p
    ensures var r := Validate(p).value; r.Valid() && k in Dump(r) && p[k] == Dump(r)[k]
  {
    hide PublicCode, StatusText, OutcomeText;
    ParsedTexts(Get(p, "status"), Get(p, "outcome"));
    hide ParseStatus, ParseOutcome;
  }

  lemma ParsedTexts(status: Json, outcome: Json)
    ensures ParseStatus(status).Some? ==> status == Str(StatusText(ParseStatus(status).value))
    ensures ParseOutcome(outcome).Some? ==> outcome == Str(OutcomeText(ParseOutcome(outcome).value))
  {
  }

  /** Keeping the retained keys twice keeps no less than keeping them once. */
  lemma ForPersistenceIdempotent(cmd: Command, r: Reply)
    ensures ForPersistence(cmd, ForPersistence(cmd, r)) == ForPersistence(cmd, r)
  {
    var kept := ForPersistence(cmd, r);
    assert Filtered(kept.effects, cmd.effectKeys) == kept.effects;
    if kept.action.Some? {
      assert Filtered(kept.action.value, cmd.actionKeys) == kept.action.value;
    }
  }

  /** A full record replays as the retained reply, and its replay is stored as the same record. */
  lemma FullReplayStable(cmd: Command, r: Reply)
    requires !cmd.compact && r.Valid()
    ensures Restore(cmd, Some(Persist(cmd, r))) == Some(ForPersistence(cmd, r))
    ensures Persist(cmd, ForPersistence(cmd, r)) == Persist(cmd, r)
  {
    ValidateDump(ForPersistence(cmd, r));
    ForPersistenceIdempotent(cmd, r);
  }

  /** The retained-key sets of the compact (payroll) commands contain every compact identifier. */
  predicate RetainsCompactKeys(cmd: Command) {
    && (cmd.actionKeys.Some? ==> COMPACT_ACTION_KEYS <= cmd.actionKeys.value)
    && (cmd.effectKeys.Some? ==> COMPACT_KEYS <= cmd.effectKeys.value)
  }

  const HEADER_KEYS: set<string> := {"status", "outcome", "request_id", "company_id"}

  const ERROR_KEYS: set<string> := {"error_code", "error_message", "remediation_hint"}

  lemma KeyGroupsDisjoint()
    ensures COMPACT_KEYS !! HEADER_KEYS && COMPACT_KEYS !! ERROR_KEYS && HEADER_KEYS !! ERROR_KEYS
  {}

  lemma CompactGroups(cmd: Command, r: Reply)
    ensures CompactHeader(r).Keys == HEADER_KEYS && CompactBody(cmd, r).Keys == COMPACT_KEYS
    ensures CompactErrors(r).Keys <= ERROR_KEYS
  {}

  lemma CompactLookup(cmd: Command, r: Reply, key: string)
    requires cmd.compact
    ensures key in COMPACT_KEYS ==> Get(Persist(cmd, r), key) == SelectedFor(cmd, r, key)
    ensures key in HEADER_KEYS ==> Get(Persist(cmd, r), key) == CompactHeader(r)[key]
    ensures key in ERROR_KEYS ==> Get(Persist(cmd, r), key) == Get(CompactErrors(r), key)
    ensures key !in COMPACT_KEYS + HEADER_KEYS + ERROR_KEYS ==> key !in Persist(cmd, r)
  {
    KeyGroupsDisjoint();
    CompactGroups(cmd, r);
    var all := CompactHeader(r) + CompactBody(cmd, r) + CompactErrors(r);
    assert Get(DropNulls(all), key) == Get(all, key);
  }

  lemma CompactHeaderRecord(cmd: Command, r: Reply)
    requires cmd.compact
    ensures var p := Persist(cmd, r);
      && Get(p, "status") == Str(StatusText(r.status))
      && Get(p, "outcome") == Str(OutcomeText(r.outcome))
      && Get(p, "request_id") == Str(r.requestId)
      && Get(p, "company_id") == Num(r.company)
  {
    CompactLookup(cmd, r, "status");
    CompactLookup(cmd, r, "outcome");
    CompactLookup(cmd, r, "request_id");
    CompactLookup(cmd, r, "company_id");
  }

  lemma CompactErrorRecord(cmd: Command, r: Reply)
    requires cmd.compact && r.Valid()
    ensures var p := Persist(cmd, r);
      && Get(p, "error_code") == OptText(r.error)
      && Get(p, "error_message") == OptText(r.message)
      && Get(p, "remediation_hint") == OptText(r.hint)
  {
    CompactLookup(cmd, r, "error_code");
    CompactLookup(cmd, r, "error_message");
    CompactLookup(cmd, r, "remediation_hint");
  }

  /** What a compact record gives back: same status, outcome, ids and error; identifiers as stored. */
  function CompactRestored(cmd: Command, r: Reply): Reply {
    var p := Persist(cmd, r);
    var action := NonNull(p, COMPACT_ACTION_KEYS);
    Reply(r.status, r.outcome, r.requestId, r.company,
          if action == map[] then None else Some(action), NonNull(p, COMPACT_KEYS), [], None,
          r.error, r.message, r.hint)
  }

  /** Validation depends only on the fields it reads; references and artifact may be left out. */
  lemma ValidateReads(p: Mapping, r: Reply)
    requires r.Valid() && r.refs == [] && r.artifact.None?
    requires p.Keys == REPLY_FIELDS - {"record_refs", "artifact_markdown"}
    requires p["status"] == Str(StatusText(r.status)) && p["outcome"] == Str(OutcomeText(r.outcome))
    requires p["request_id"] == Str(r.requestId) && p["company_id"] == Num(r.company)
    requires p["proposed_action"] == (if r.action.None? then Null else Obj(r.action.value))
    requires p["material_effects"] == Obj(r.effects)
    requires p["error_code"] == OptText(r.error) && p["error_message"] == OptText(r.message)
    requires p["remediation_hint"] == OptText(r.hint)
    ensures Validate(p) == Some(r)
  {
    hide ParseStatus, ParseOutcome, StatusText, OutcomeText, ParseRefs, PublicCode;
    TextsParse(r);
  }

  lemma ExpandedHeader(p: Mapping)
    ensures var e := Expanded(p);
      && e.Keys == REPLY_FIELDS - {"record_refs", "artifact_markdown"}
      && e["status"] == Get(p, "status") && e["outcome"] == Get(p, "outcome")
      && e["request_id"] == Get(p, "request_id") && e["company_id"] == Get(p, "company_id")
  {
    hide Get, NonNull;
  }

  lemma ExpandedErrors(p: Mapping)
    ensures var e := Expanded(p);
      && "error_code" in e && "error_message" in e && "remediation_hint" in e
      && e["error_code"] == Get(p, "error_code") && e["error_message"] == Get(p, "error_message")
      && e["remediation_hint"] == Get(p, "remediation_hint")
  {
    hide Get, NonNull;
  }

  lemma ExpandedBody(p: Mapping)
    ensures var e, action := Expanded(p), NonNull(p, COMPACT_ACTION_KEYS);
      && "material_effects" in e && "proposed_action" in e
      && e["material_effects"] == Obj(NonNull(p, COMPACT_KEYS))
      && e["proposed_action"] == if action == map[] then Null else Obj(action)
  {
    hide Get, NonNull;
  }

  lemma CompactRestore(cmd: Command, r: Reply)
    requires cmd.compact && r.Valid()
    ensures Restore(cmd, Some(Persist(cmd, r))) == Some(CompactRestored(cmd, r))
  {
    hide Persist, Expanded, Get, NonNull, Validate;
    CompactHeaderRecord(cmd, r);
    CompactErrorRecord(cmd, r);
    var p := Persist(cmd, r);
    ExpandedHeader(p);
    ExpandedErrors(p);
    ExpandedBody(p);
    ValidateReads(Expanded(p), CompactRestored(cmd, r));
  }

  /** The same status, outcome, ids and error fields. */
  predicate SameVerdict(a: Reply, b: Reply) {
    && a.status == b.status && a.outcome == b.outcome && a.requestId == b.requestId
    && a.company == b.company && a.error == b.error && a.message == b.message && a.hint == b.hint
  }

  /** The fields of a mapping that carry a reply's verdict. */
  predicate CarriesVerdict(p: Mapping, r: Reply) {
    && Get(p, "status") == Str(StatusText(r.status)) && Get(p, "outcome") == Str(OutcomeText(r.outcome))
    && Get(p, "request_id") == Str(r.requestId) && Get(p, "company_id") == Num(r.company)
    && Get(p, "error_code") == OptText(r.error) && Get(p, "error_message") == OptText(r.message)
    && Get(p, "remediation_hint") == OptText(r.hint)
  }

  lemma RecordCarriesVerdict(cmd: Command, r: Reply)
    requires r.Valid()
    ensures CarriesVerdict(Persist(cmd, r), r)
  {
    hide Dump, Get, StatusText, OutcomeText, OptText, PublicCode;
    if cmd.compact {
      hide Persist;
      CompactHeaderRecord(cmd, r);
      CompactErrorRecord(cmd, r);
    } else {
      var kept := ForPersistence(cmd, r);
      DumpHeader(kept);
      DumpErrors(kept);
    }
  }

  lemma ExpandedCarriesVerdict(p: Mapping, r: Reply)
    requires CarriesVerdict(p, r)
    ensures CarriesVerdict(Expanded(p), r)
  {
    hide Expanded, StatusText, OutcomeText, OptText;
    ExpandedHeader(p);
    ExpandedErrors(p);
  }

  lemma ValidateKeepsVerdict(p: Mapping, r: Reply)
    requires CarriesVerdict(p, r) && Validate(p).Some?
    ensures SameVerdict(Validate(p).value, r)
  {
    hide ParseStatus, ParseOutcome, StatusText, OutcomeText, OptText, ParseOptText, Get, PublicCode, ParseRefs;
    TextsParse(r);
  }

  /** In whichever form a record was stored and is read, what is restored from it has its verdict. */
  lemma RestoreKeepsVerdict(cmd: Command, other: Command, r: Reply)
    requires r.Valid() && Restore(other, Some(Persist(cmd, r))).Some?
    ensures SameVerdict(Restore(other, Some(Persist(cmd, r))).value, r)
  {
    hide Persist, Validate, Expanded, CarriesVerdict, SameVerdict;
    var p := Persist(cmd, r);
    RecordCarriesVerdict(cmd, r);
    if other.compact {
      ExpandedCarriesVerdict(p, r);
      ValidateKeepsVerdict(Expanded(p), r);
    } else {
      ValidateKeepsVerdict(p, r);
    }
  }

  lemma SelectedAfterRestore(cmd: Command, r: Reply, key: string)
    requires cmd.compact && r.Valid() && RetainsCompactKeys(cmd) && key in COMPACT_KEYS
    ensures SelectedFor(cmd, CompactRestored(cmd, r), key)
         == var first := SelectedFor(cmd, r, key);
            if first != Null then first else Get(OrEmpty(cmd.audit), key)
  {
    CompactLookup(cmd, r, key);
    var again := ForPersistence(cmd, CompactRestored(cmd, r));
    assert again.effects == CompactRestored(cmd, r).effects;
  }

  /** No null in the retained effects or action stands in front of a value of the audit payload. */
  predicate NoHiddenAuditValue(cmd: Command, r: Reply) {
    var kept := ForPersistence(cmd, r);
    forall k | k in COMPACT_KEYS && Get(OrEmpty(cmd.audit), k) != Null ::
      if k in kept.effects then kept.effects[k] != Null
      else k in OrEmpty(kept.action) ==> OrEmpty(kept.action)[k] != Null
  }

  lemma SameCompactRecord(cmd: Command, r: Reply, other: Reply)
    requires cmd.compact
    requires CompactHeader(r) == CompactHeader(other) && CompactErrors(r) == CompactErrors(other)
    requires forall k | k in COMPACT_KEYS :: SelectedFor(cmd, r, k) == SelectedFor(cmd, other, k)
    ensures Persist(cmd, r) == Persist(cmd, other)
  {
    assert CompactBody(cmd, r) == CompactBody(cmd, other);
  }

  lemma SameFrame(cmd: Command, r: Reply)
    ensures CompactHeader(CompactRestored(cmd, r)) == CompactHeader(r)
    ensures CompactErrors(CompactRestored(cmd, r)) == CompactErrors(r)
  {
    hide Persist, NonNull, StatusText, OutcomeText, OptText;
  }

  lemma NullsHide(cmd: Command, r: Reply)
    ensures NoHiddenAuditValue(cmd, r) <==>
      forall k | k in COMPACT_KEYS :: SelectedFor(cmd, r, k) != Null || Get(OrEmpty(cmd.audit), k) == Null
  {
    hide ForPersistence;
  }

  /** Exactly when replaying a compact record stores the same record again. */
  lemma CompactReplayStable(cmd: Command, r: Reply)
    requires cmd.compact && r.Valid() && RetainsCompactKeys(cmd)
    ensures Persist(cmd, CompactRestored(cmd, r)) == Persist(cmd, r) <==> NoHiddenAuditValue(cmd, r)
  {
    hide *;
    var again := CompactRestored(cmd, r);
    forall k | k in COMPACT_KEYS
      ensures SelectedFor(cmd, again, k)
           == if SelectedFor(cmd, r, k) != Null then SelectedFor(cmd, r, k) else Get(OrEmpty(cmd.audit), k)
    {
      SelectedAfterRestore(cmd, r, k);
    }
    SameFrame(cmd, r);
    NullsHide(cmd, r);
    if NoHiddenAuditValue(cmd, r) {
      SameCompactRecord(cmd, again, r);
    } else {
      var k :| k in COMPACT_KEYS && Get(OrEmpty(cmd.audit), k) != Null && SelectedFor(cmd, r, k) == Null;
      CompactLookup(cmd, r, k);
      CompactLookup(cmd, again, k);
    }
  }

  /** What a payroll command keeps of its action and effects. */
  const RETAINED_ACTION_KEYS: set<string> := {"operation", "payslip_id", "input_id", "before_source_state"}

  const RETAINED_EFFECT_KEYS: set<string> := {
    "operation", "status", "completion", "payslip_id", "input_id", "result_input_id",
    "before_source_state", "after_source_state"
  }

  /** The only caller that asks for compact records. */
  predicate PayrollCommand(cmd: Command) {
    cmd.compact && cmd.actionKeys == Some(RETAINED_ACTION_KEYS) && cmd.effectKeys == Some(RETAINED_EFFECT_KEYS)
  }

  lemma PayrollRetainsCompactKeys(cmd: Command)
    requires PayrollCommand(cmd)
    ensures RetainsCompactKeys(cmd)
  {
  }

  /** A null effect that hides an audit value: a payroll replay stores a record the first run did not. */
  lemma HiddenAuditValueCounterexample()
    ensures var cmd := Command(7, map[], false, Some("k"), Some(map["input_id" := Num(5)]),
                               Some(RETAINED_ACTION_KEYS), Some(RETAINED_EFFECT_KEYS), true);
      var r := Reply(Succeeded, Known, "req", 7, None, map["input_id" := Null], [], None, None, None, None);
      && PayrollCommand(cmd) && r.Valid() && Persist(cmd, CompactRestored(cmd, r)) != Persist(cmd, r)
  {
    var cmd := Command(7, map[], false, Some("k"), Some(map["input_id" := Num(5)]),
                       Some(RETAINED_ACTION_KEYS), Some(RETAINED_EFFECT_KEYS), true);
    var r := Reply(Succeeded, Known, "req", 7, None, map["input_id" := Null], [], None, None, None, None);
    PayrollRetainsCompactKeys(cmd);
    hide Persist, CompactRestored, RetainsCompactKeys, PublicCode;
    CompactReplayStable(cmd, r);
    assert "input_id" in COMPACT_KEYS && Get(OrEmpty(cmd.audit), "input_id") == Num(5);
    assert "input_id" in RETAINED_EFFECT_KEYS && "input_id" in ForPersistence(cmd, r).effects;
  }
}
