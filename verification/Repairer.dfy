/** The deterministic repairer: five passes over each candidate event, each change logged. */
module Repairer {
  import opened Wrappers

  // A JSON value; lists, numbers and booleans are never looked into.
  datatype Value = Null | Str(text: string) | Obj(fields: Fields) | List(json: string) | Raw(json: string)

  type Fields = map<string, Value>

  // The worker-level fields and the list of candidate events.
  datatype Output = Output(fields: Fields, events: seq<Value>)

  datatype RepairType =
    | DefaultInjection | NullNormalization | ContextInjection | EntityTypeDerivation | StatusDerivation

  // `path` is the field path, split at its dots; worker-level entries have index -1.
  datatype LogEntry = LogEntry(index: int, kind: RepairType, path: seq<string>, original: Value, repaired: Value)

  datatype RepairContext = RepairContext(sliceId: Option<string>, taskId: Option<string>, snapshotRef: Option<string>)

  // The last one is the error that looking up an unhashable event type raises.
  datatype FailureCode = MissingEventType | NotPending | InvalidActor | UnhashableEventType

  datatype RepairError = RepairError(code: FailureCode, index: nat)

  datatype RepairLog = RepairLog(total: nat, byType: map<RepairType, nat>, entries: seq<LogEntry>)

  datatype Repaired = Repaired(output: Output, log: RepairLog)

  /******* Fields *******/

  // `dict.get`: a missing field reads as null.
  function Get(f: Fields, key: string): Value {
    if key in f then f[key] else Null
  }

  predicate Missing(v: Value) {
    v.Null? || v == Str("null")
  }

  function SetAt(f: Fields, path: seq<string>, v: Value): Fields {
    if |path| == 1 then f[path[0] := v]
    else if |path| == 2 && Get(f, path[0]).Obj? then f[path[0] := Obj(f[path[0]].fields[path[1] := v])]
    else f
  }

  /******* One event being repaired *******/

  datatype Draft = Draft(event: Fields, log: seq<LogEntry>)

  function Put(d: Draft, index: int, kind: RepairType, path: seq<string>, original: Value, repaired: Value): Draft {
    Draft(SetAt(d.event, path, repaired), d.log + [LogEntry(index, kind, path, original, repaired)])
  }

  const PENDING: Value := Obj(map["status" := Str("pending"), "decided_at" := Null, "decided_by" := Null,
      "reason" := Null])

  // The status entry records as original what the field holds after the change.
  function InjectDefaults(d: Draft, index: int): Draft {
    var acceptance := Get(d.event, "acceptance");
    if Missing(acceptance) then Put(d, index, DefaultInjection, ["acceptance"], acceptance, PENDING)
    else if acceptance.Obj? && Get(acceptance.fields, "status").Null? then
      Put(d, index, DefaultInjection, ["acceptance", "status"], Str("pending"), Str("pending"))
    else d
  }

  const NULLABLE: seq<string> := [
    "entity_id", "entity_type", "title", "claim", "summary", "severity", "source_path", "snapshot_ref"]

  const DECISION_FIELDS: seq<string> := ["decided_at", "decided_by", "reason"]

  function NormalizeField(d: Draft, index: int, field: string): Draft {
    if Get(d.event, field) == Str("null") then Put(d, index, NullNormalization, [field], Str("null"), Null) else d
  }

  predicate Blankable(v: Value) {
    v == Str("null") || v == Str("")
  }

  function NormalizeDecision(d: Draft, index: int, field: string): Draft {
    var acceptance := Get(d.event, "acceptance");
    if acceptance.Obj? && Blankable(Get(acceptance.fields, field))
    then Put(d, index, NullNormalization, ["acceptance", field], Get(acceptance.fields, field), Null) else d
  }

  function NormalizeFields(d: Draft, index: int, fields: seq<string>): Draft {
    if fields == [] then d
    else NormalizeField(NormalizeFields(d, index, fields[..|fields| - 1]), index, fields[|fields| - 1])
  }

  function NormalizeDecisions(d: Draft, index: int, fields: seq<string>): Draft {
    if fields == [] then d
    else NormalizeDecision(NormalizeDecisions(d, index, fields[..|fields| - 1]), index, fields[|fields| - 1])
  }

  // This entry too records the injected value as the original one.
  function InjectContext(d: Draft, index: int, ctx: RepairContext): Draft {
    if Missing(Get(d.event, "snapshot_ref")) && ctx.snapshotRef.Some?
    then Put(d, index, ContextInjection, ["snapshot_ref"], Str(ctx.snapshotRef.value), Str(ctx.snapshotRef.value))
    else d
  }

  const ENTITY_TYPES: map<string, string> := map[
    "observation.proposed" := "observation", "observation.verified" := "observation",
    "observation.rejected" := "observation",
    "hypothesis.proposed" := "hypothesis", "hypothesis.closed" := "hypothesis", "hypothesis.rejected" := "hypothesis",
    "issue.proposed" := "issue", "issue.accepted" := "issue", "issue.rejected" := "issue", "issue.closed" := "issue",
    "question.opened" := "question", "question.answered" := "question", "question.closed" := "question",
    "contradiction.registered" := "contradiction", "contradiction.resolved" := "contradiction",
    "candidate.proposed" := "candidate", "candidate.routed_to_verify" := "candidate",
    "candidate.rejected" := "candidate", "candidate.promoted_to_observation" := "candidate"]

  const STATUSES: map<string, string> := map[
    "observation.proposed" := "proposed", "observation.verified" := "verified", "observation.rejected" := "rejected",
    "hypothesis.proposed" := "proposed", "hypothesis.sent_to_verification" := "in_verification",
    "hypothesis.supported" := "supported", "hypothesis.rejected" := "rejected",
    "hypothesis.unresolved_conflict" := "unresolved_conflict",
    "issue.proposed" := "proposed", "issue.accepted" := "accepted", "issue.rejected" := "rejected",
    "issue.closed" := "closed",
    "question.opened" := "open", "question.answered" := "answered", "question.closed" := "closed",
    "contradiction.registered" := "registered", "contradiction.resolved" := "resolved",
    "decision.recorded" := "recorded",
    "candidate.proposed" := "proposed", "candidate.routed_to_verify" := "routed_to_verify",
    "candidate.rejected" := "rejected", "candidate.promoted_to_observation" := "promoted_to_observation"]

  function Lookup(table: map<string, string>, eventType: Value): Option<string> {
    if eventType.Str? && eventType.text in table then Some(table[eventType.text]) else None
  }

  function DeriveEntityType(d: Draft, index: int): Draft {
    var derived := Lookup(ENTITY_TYPES, Get(d.event, "event_type"));
    if Missing(Get(d.event, "entity_type")) && derived.Some?
    then Put(d, index, EntityTypeDerivation, ["entity_type"], Get(d.event, "entity_type"), Str(derived.value)) else d
  }

  function EnsurePayload(d: Draft, index: int): Draft {
    if Get(d.event, "payload").Obj? then d else Put(d, index, DefaultInjection, ["payload"], Null, Obj(map[]))
  }

  function FillStatus(d: Draft, index: int, status: string): Draft {
    var payload := Get(d.event, "payload");
    if payload.Obj? && Missing(Get(payload.fields, "status"))
    then Put(d, index, StatusDerivation, ["payload", "status"], Get(payload.fields, "status"), Str(status)) else d
  }

  function DeriveStatus(d: Draft, index: int): Draft {
    match Lookup(STATUSES, Get(d.event, "event_type"))
    case None => d
    case Some(status) => FillStatus(EnsurePayload(d, index), index, status)
  }

  function Passes(d: Draft, index: int, ctx: RepairContext): Draft {
    var defaults := InjectDefaults(d, index);
    var nulls := NormalizeDecisions(NormalizeFields(defaults, index, NULLABLE), index, DECISION_FIELDS);
    DeriveStatus(DeriveEntityType(InjectContext(nulls, index, ctx), index), index)
  }

  /******* What cannot be repaired *******/

  function Unacceptable(acceptance: Value): Option<FailureCode> {
    if !acceptance.Obj? then None
    else
      var status := Get(acceptance.fields, "status");
      if !status.Null? && status != Str("pending") then Some(NotPending)
      else if !Get(acceptance.fields, "decided_by").Null? && status == Str("pending") then Some(InvalidActor)
      else None
  }

  // The checks in the order in which they end the repair; the tables are looked up after the others.
  function Unrepairable(event: Fields, index: nat): Option<RepairError> {
    var eventType := Get(event, "event_type");
    var unacceptable := Unacceptable(Get(event, "acceptance"));
    if eventType.Null? then Some(RepairError(MissingEventType, index))
    else if unacceptable.Some? then Some(RepairError(unacceptable.value, index))
    else if eventType.Obj? || eventType.List? then Some(RepairError(UnhashableEventType, index))
    else None
  }

  /******* The worker level *******/

  function InjectWorkerField(d: Draft, field: string, value: Option<string>): Draft {
    if Missing(Get(d.event, field)) && value.Some?
    then Put(d, -1, ContextInjection, [field], Null, Str(value.value)) else d
  }

  function WorkerPasses(d: Draft, ctx: RepairContext): Draft {
    var version := Get(d.event, "schema_version");
    var start := if Missing(version)
        then Put(d, -1, DefaultInjection, ["schema_version"], version, Str("1.0.0")) else d;
    InjectWorkerField(InjectWorkerField(InjectWorkerField(start, "slice_id", ctx.sliceId), "task_id", ctx.taskId),
                      "snapshot_ref", ctx.snapshotRef)
  }

  /******* The whole output *******/

  datatype Progress = Progress(events: seq<Value>, log: seq<LogEntry>)

  function RepairOne(p: Progress, event: Value, ctx: RepairContext): Result<Progress, RepairError> {
    if !event.Obj? then Success(Progress(p.events + [event], p.log))
    else
      match Unrepairable(event.fields, |p.events|)
      case Some(error) => Failure(error)
      case None =>
        var d := Passes(Draft(event.fields, []), |p.events|, ctx);
        Success(Progress(p.events + [Obj(d.event)], p.log + d.log))
  }

  function RepairEvents(p: Progress, events: seq<Value>, ctx: RepairContext): Result<Progress, RepairError>
    decreases |events|
  {
    if events == [] then Success(p)
    else
      match RepairOne(p, events[0], ctx)
      case Failure(error) => Failure(error)
      case Success(next) => RepairEvents(next, events[1..], ctx)
  }

  function CountOf(log: seq<LogEntry>, kind: RepairType): nat {
    if log == [] then 0 else CountOf(log[..|log| - 1], kind) + if log[|log| - 1].kind == kind then 1 else 0
  }

  const KINDS: set<RepairType> := {DefaultInjection, NullNormalization, ContextInjection, EntityTypeDerivation,
      StatusDerivation}

  function Counts(log: seq<LogEntry>): map<RepairType, nat> {
    map kind | kind in KINDS :: CountOf(log, kind)
  }

  function RepairAll(input: Output, ctx: RepairContext): Result<Repaired, RepairError> {
    var worker := WorkerPasses(Draft(input.fields, []), ctx);
    match RepairEvents(Progress([], worker.log), input.events, ctx)
    case Failure(error) => Failure(error)
    case Success(p) => Success(Repaired(Output(worker.event, p.events), RepairLog(|p.log|, Counts(p.log), p.log)))
  }

  /******* In place *******/

  method NormalizeNulls(start: Draft, index: int) returns (d: Draft)
    ensures d == NormalizeDecisions(NormalizeFields(start, index, NULLABLE), index, DECISION_FIELDS)
  {
    hide SetAt;
    var event, log := start.event, start.log;
    var i := 0;
    while i < |NULLABLE|
      invariant 0 <= i <= |NULLABLE|
      invariant Draft(event, log) == NormalizeFields(start, index, NULLABLE[..i])
    {
      var field := NULLABLE[i];
      assert NULLABLE[..i + 1][..i] == NULLABLE[..i];
      if Get(event, field) == Str("null") {
        event := SetAt(event, [field], Null);
        log := log + [LogEntry(index, NullNormalization, [field], Str("null"), Null)];
      }
      i := i + 1;
    }
    assert NULLABLE[..i] == NULLABLE;
    d := NormalizeAcceptance(Draft(event, log), index);
  }

  method NormalizeAcceptance(start: Draft, index: int) returns (d: Draft)
    ensures d == NormalizeDecisions(start, index, DECISION_FIELDS)
  {
    hide SetAt;
    d := start;
    var i := 0;
    while i < |DECISION_FIELDS|
      invariant 0 <= i <= |DECISION_FIELDS|
      invariant d == NormalizeDecisions(start, index, DECISION_FIELDS[..i])
    {
      assert DECISION_FIELDS[..i + 1][..i] == DECISION_FIELDS[..i];
      d := NormalizeDecision(d, index, DECISION_FIELDS[i]);
      i := i + 1;
    }
    assert DECISION_FIELDS[..i] == DECISION_FIELDS;
  }

  method RepairEvent(event: Fields, index: int, ctx: RepairContext) returns (d: Draft)
    ensures d == Passes(Draft(event, []), index, ctx)
  {
    hide InjectDefaults, NormalizeFields, NormalizeDecisions, InjectContext, DeriveEntityType, DeriveStatus;
    d := InjectDefaults(Draft(event, []), index);
    d := NormalizeNulls(d, index);
    d := InjectContext(d, index, ctx);
    d := DeriveEntityType(d, index);
    d := DeriveStatus(d, index);
  }

  // Adds the entries of one repaired part to the per-type counters.
  method CountEntries(start: map<RepairType, nat>, before: seq<LogEntry>,
      entries: seq<LogEntry>) returns (byType: map<RepairType, nat>)
    requires start == Counts(before)
    ensures byType == Counts(before + entries)
  {
    byType := start;
    var i := 0;
    assert before + entries[..0] == before;
    while i < |entries|
      invariant 0 <= i <= |entries|
      invariant byType == Counts(before + entries[..i])
    {
      OneMoreCounted(before + entries[..i], entries[i]);
      assert before + entries[..i + 1] == before + entries[..i] + [entries[i]];
      byType := byType[entries[i].kind := byType[entries[i].kind] + 1];
      i := i + 1;
    }
    assert entries[..i] == entries;
  }

  lemma OneMoreCounted(log: seq<LogEntry>, e: LogEntry)
    ensures e.kind in Counts(log)
    ensures Counts(log + [e]) == Counts(log)[e.kind := Counts(log)[e.kind] + 1]
  {
    assert (log + [e])[..|log|] == log;
    EveryKind(e.kind);
  }

  lemma EveryKind(kind: RepairType)
    ensures kind in KINDS
  {
    match kind
    case DefaultInjection =>
    case NullNormalization =>
    case ContextInjection =>
    case EntityTypeDerivation =>
    case StatusDerivation =>
  }

  method Repair(input: Output, ctx: RepairContext) returns (r: Result<Repaired, RepairError>)
    ensures r == RepairAll(input, ctx)
  {
    hide Passes, WorkerPasses, Counts, Unrepairable;
    var worker := WorkerPasses(Draft(input.fields, []), ctx);
    var byType: map<RepairType, nat> := map kind | kind in KINDS :: 0;
    NothingCounted();
    byType := CountEntries(byType, [], worker.log);
    var p := Progress([], worker.log);
    assert [] + worker.log == worker.log;
    var i := 0;
    while i < |input.events|
      invariant 0 <= i == |p.events| <= |input.events|
      invariant byType == Counts(p.log)
      invariant RepairEvents(Progress([], worker.log), input.events, ctx) == RepairEvents(p, input.events[i..], ctx)
    {
      var event := input.events[i];
      assert input.events[i..][0] == event && input.events[i..][1..] == input.events[i + 1..];
      if event.Obj? {
        var error := Unrepairable(event.fields, i);
        if error.Some? {
          return Failure(error.value);
        }
        var d := RepairEvent(event.fields, i, ctx);
        byType := CountEntries(byType, p.log, d.log);
        p := Progress(p.events + [Obj(d.event)], p.log + d.log);
      } else {
        p := Progress(p.events + [event], p.log);
      }
      i := i + 1;
    }
    return Success(Repaired(Output(worker.event, p.events), RepairLog(|p.log|, byType, p.log)));
  }

  lemma NothingCounted()
    ensures Counts([]) == map kind | kind in KINDS :: 0
  {
  }
}
