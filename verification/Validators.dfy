/** The validator suite: schema, duplicates, and then source binding, transitions and contradictions
    judged against the projection of the current ledger. Verdicts are lists of issue codes. */
module Validators {
  import opened Wrappers
  import opened Events
  import opened Canonicalization
  import opened Rules
  import opened Projector

  datatype Code =
    | CandidateNotObject | MissingAcceptance | NotPending
    | SchemaFailed | PayloadEntityIdMismatch | PayloadAuditIdMismatch
    | DuplicateSubmission | EventIdConflict | IdempotencyConflict
    | StateProjectionFailed | MissingWorkerRole | WorkerEventForbidden | InvalidTransition
    | ReferencedEntityMissing | ReferencedEntityWrongState | ReferencedEntityFieldForbidden
    | FieldDependencyFailed | ForbiddenEntityPromotion
    | PromotionMissingObservationId | PromotionCandidateNotFound | PromotionObservationNotFound | PromotionLinkMismatch
    | ContradictionReferenceMissing
    | SourceBindingIssue(code: string)
    | AppendFailed | AppendNotPersisted

  // The workspace's rule file, the two JSON schemas, the source-binding checks and the libraries.
  datatype Config = Config(
    env: Env,
    rules: RuleSet,
    eventSchema: Event -> bool,
    stateSchema: State -> bool,
    sourceBinding: Event -> seq<Code>)

  // A missing key in the rule file surfaces as an exception, not as an issue.
  datatype Verdict = Issues(codes: seq<Code>) | Raised

  /******* Schema and duplicates *******/

  function SchemaIssues(cfg: Config, e: Event): seq<Code> {
    if !cfg.eventSchema(e) then [SchemaFailed]
    else
      (if e.payload.id != e.entityId then [PayloadEntityIdMismatch] else [])
      + (if e.EntityType().Audit?
         then if e.payload.id != e.auditId then [PayloadAuditIdMismatch] else []
         else if e.payload.auditId != Some(e.auditId) then [PayloadAuditIdMismatch] else [])
  }

  // One pass over the ledger; the first event that matches in any of three ways decides.
  function DuplicateIssues(env: Env, ledger: seq<Event>, e: Event): seq<Code> {
    if ledger == [] then []
    else
      var existing := ledger[0];
      if existing.id == e.id then
        if existing == e || SemanticEquivalent(env, existing, e) then [DuplicateSubmission] else [EventIdConflict]
      else if existing.auditId == e.auditId && existing.eventType == e.eventType
          && SemanticEquivalent(env, existing, e) then
        [DuplicateSubmission]
      else if existing.auditId == e.auditId && existing.idempotencyKey == e.idempotencyKey then
        if existing == e || SemanticEquivalent(env, existing, e) then [DuplicateSubmission] else [IdempotencyConflict]
      else DuplicateIssues(env, ledger[1..], e)
  }

  /******* Transitions *******/

  function PermissionIssues(rules: RuleSet, e: Event): seq<Code> {
    if !e.actor.Worker? then []
    else if e.actor.role.None? then [MissingWorkerRole]
    else if e.actor.role.value !in rules.permissions || e.eventType !in rules.permissions[e.actor.role.value]
    then [WorkerEventForbidden]
    else []
  }

  // A forbidden rule only adds its name to the message; what is not allowed is rejected either way.
  function MatrixIssues(rules: RuleSet, s: State, e: Event): seq<Code> {
    if Permits(rules, e, CurrentStatus(s, e.EntityType(), e.entityId)) then [] else [InvalidTransition]
  }

  function FindEvent(ledger: seq<Event>, id: string): Option<Event> {
    if ledger == [] then None else if ledger[0].id == id then Some(ledger[0]) else FindEvent(ledger[1..], id)
  }

  function ReferenceIssue(g: Guard, s: State, id: string): seq<Code>
    requires g.ReferencedExist? || g.ReferencedInState? || g.ReferencedFieldInSet?
  {
    match GetEntity(s, g.refType, id)
    case None => [ReferencedEntityMissing]
    case Some(p) =>
      match g
      case ReferencedExist(_, _, _) => []
      case ReferencedInState(_, _, _, required) =>
        if ReadField(p, Status) == Some(required) then [] else [ReferencedEntityWrongState]
      case ReferencedFieldInSet(_, _, _, field, allowed) =>
        var value := ReadField(p, field);
        if value.Some? && value.value in allowed then [] else [ReferencedEntityFieldForbidden]
  }

  function ReferenceIssues(g: Guard, s: State, ids: seq<string>): seq<Code>
    requires g.ReferencedExist? || g.ReferencedInState? || g.ReferencedFieldInSet?
  {
    if ids == [] then [] else ReferenceIssue(g, s, ids[0]) + ReferenceIssues(g, s, ids[1..])
  }

  function PromotionIssues(s: State, e: Event, c: CandidateData): seq<Code> {
    if c.promoted.None? then [PromotionMissingObservationId]
    else if GetEntity(s, Candidate, e.entityId).None? then [PromotionCandidateNotFound]
    else
      match GetEntity(s, Observation, c.promoted.value)
      case None => [PromotionObservationNotFound]
      case Some(o) => if ReadField(o, CandidateRef) == Some(e.entityId) then [] else [PromotionLinkMismatch]
  }

  function GuardIssues(ledger: seq<Event>, s: State, e: Event, g: Guard): seq<Code> {
    match g
    case ReferencedExist(scope, ids, _) => if Matches(scope, e) then ReferenceIssues(g, s, ReadIds(e, ids)) else []
    case ReferencedInState(scope, ids, _, _) => if Matches(scope, e) then ReferenceIssues(g, s, ReadIds(e, ids)) else []
    case ReferencedFieldInSet(scope, ids, _, _, _) =>
      if Matches(scope, e) then ReferenceIssues(g, s, ReadIds(e, ids)) else []
    case FieldDependency(scope, when, needs) =>
      if Matches(scope, e) && ReadField(e.payload, when).Some? && ReadField(e.payload, needs).None?
      then [FieldDependencyFailed] else []
    case ForbiddenPromotion(source, target) =>
      if e.EntityType() != target || e.causedBy.None? then []
      else
        var cause := FindEvent(ledger, e.causedBy.value);
        if cause.Some? && cause.value.EntityType() == source then [ForbiddenEntityPromotion] else []
    case PromotionPath =>
      if e.eventType.CandidatePromoted? && e.payload.body.CandidateBody?
      then PromotionIssues(s, e, e.payload.body.candidate) else []
    case Unimplemented(_) => []
  }

  function AllGuardIssues(ledger: seq<Event>, s: State, e: Event, guards: seq<Guard>): seq<Code> {
    if guards == [] then [] else GuardIssues(ledger, s, e, guards[0]) + AllGuardIssues(ledger, s, e, guards[1..])
  }

  // The guard loop: each guard in turn adds its issues.
  method ValidateCrossEntityGuards(ledger: seq<Event>, s: State, e: Event, guards: seq<Guard>)
    returns (issues: seq<Code>)
    ensures issues == AllGuardIssues(ledger, s, e, guards)
  {
    hide GuardIssues;
    issues := [];
    var i := 0;
    while i < |guards|
      invariant 0 <= i <= |guards|
      invariant AllGuardIssues(ledger, s, e, guards) == issues + AllGuardIssues(ledger, s, e, guards[i..])
    {
      NextGuard(ledger, s, e, guards, i);
      issues := issues + GuardIssues(ledger, s, e, guards[i]);
      i := i + 1;
    }
    assert guards[i..] == [];
  }

  lemma NextGuard(ledger: seq<Event>, s: State, e: Event, guards: seq<Guard>, i: nat)
    requires i < |guards|
    ensures AllGuardIssues(ledger, s, e, guards[i..])
         == GuardIssues(ledger, s, e, guards[i]) + AllGuardIssues(ledger, s, e, guards[i + 1..])
  {
    assert guards[i..][1..] == guards[i + 1..];
  }

  // Looking up a coverage entity, or the rules of a type the rule file does not list.
  predicate TransitionRaises(rules: RuleSet, e: Event) {
    || e.EntityType() !in rules.entities
    || e.EntityType().Coverage?
    || exists g :: g in rules.guards && GuardRaises(g, e)
  }

  predicate GuardRaises(g: Guard, e: Event) {
    && (g.ReferencedExist? || g.ReferencedInState? || g.ReferencedFieldInSet?)
    && Matches(g.scope, e) && g.refType.Coverage? && ReadIds(e, g.ids) != []
  }

  // Candidates are judged by their own layer, which is put over the projected state.
  function ValidationState(cfg: Config, ledger: seq<Event>, auditId: string): Option<State> {
    match Project(cfg.stateSchema, ledger, auditId)
    case None => None
    case Some(s) => Some(WithCandidates(s, CandidateLayer(AuditEvents(ledger, auditId))))
  }

  function TransitionVerdict(cfg: Config, ledger: seq<Event>, e: Event): Verdict {
    match ValidationState(cfg, ledger, e.auditId)
    case None => Issues([StateProjectionFailed])
    case Some(s) =>
      if TransitionRaises(cfg.rules, e) then Raised
      else Issues(PermissionIssues(cfg.rules, e) + MatrixIssues(cfg.rules, s, e)
                  + AllGuardIssues(ledger, s, e, cfg.rules.guards))
  }

  /******* Contradictions *******/

  // The collection that a type name in a payload stands for.
  function NamedType(name: string): Option<EntityType> {
    if name == "audit" then Some(Audit)
    else if name == "task" then Some(Task)
    else if name == "observation" then Some(Observation)
    else if name == "hypothesis" then Some(Hypothesis)
    else if name == "issue" then Some(Issue)
    else if name == "question" then Some(Question)
    else if name == "contradiction" then Some(Contradiction)
    else if name == "decision" then Some(Decision)
    else if name == "candidate" then Some(Candidate)
    else None
  }

  predicate Resolves(s: State, r: EntityRef) {
    r.EntityRef? && NamedType(r.entityType).Some? && GetEntity(s, NamedType(r.entityType).value, r.entityId).Some?
  }

  function MissingRefs(s: State, refs: seq<EntityRef>): seq<Code> {
    if refs == [] then []
    else (if Resolves(s, refs[0]) then [] else [ContradictionReferenceMissing]) + MissingRefs(s, refs[1..])
  }

  function ContradictionIssues(cfg: Config, ledger: seq<Event>, e: Event): seq<Code> {
    if !e.eventType.ContradictionRegistered? || !e.payload.body.ContradictionBody? then []
    else
      match Project(cfg.stateSchema, ledger, e.auditId)
      case None => [StateProjectionFailed]
      case Some(s) => MissingRefs(s, e.payload.body.contradiction.conflicting)
  }

  /******* The suite *******/

  function Validate(cfg: Config, ledger: seq<Event>, e: Event): Verdict {
    if SchemaIssues(cfg, e) != [] then Issues(SchemaIssues(cfg, e))
    else if DuplicateIssues(cfg.env, ledger, e) != [] then Issues(DuplicateIssues(cfg.env, ledger, e))
    else
      match TransitionVerdict(cfg, ledger, e)
      case Raised => Raised
      case Issues(codes) => Issues(cfg.sourceBinding(e) + codes + ContradictionIssues(cfg, ledger, e))
  }
}
