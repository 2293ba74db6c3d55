/** Transition rules and guards as loaded from the workspace's rule file: any value is allowed. */
module Rules {
  import opened Wrappers
  import opened Events

  datatype Transition = Transition(from: string, to: string, via: seq<EventType>)

  datatype Forbidden = Forbidden(from: string, to: string)

  datatype EntityRules = EntityRules(allowed: seq<Transition>, forbidden: seq<Forbidden>)

  // The id lists and the plain fields a guard can point at. An unknown path reads as nothing.
  datatype IdField =
    | IssueObservations | IssueQuestions | IssueContradictions
    | HypothesisSupports | HypothesisContradicts | BasisObservations
    | CandidateTriggers | CandidateRelated
    | UnknownIds(path: string)

  datatype Field =
    | Status | EvidenceClass | Severity | SeverityRule | Context | CandidateRef | PromotedObservation
    | Named(name: string)

  // `eventType` None is the wildcard.
  datatype Scope = Scope(entityType: EntityType, eventType: Option<EventType>)

  datatype Guard =
    | ReferencedExist(scope: Scope, ids: IdField, refType: EntityType)
    | ReferencedInState(scope: Scope, ids: IdField, refType: EntityType, required: string)
    | ReferencedFieldInSet(scope: Scope, ids: IdField, refType: EntityType, field: Field, allowed: seq<string>)
    | FieldDependency(scope: Scope, when: Field, needs: Field)
    | ForbiddenPromotion(source: EntityType, target: EntityType)
    | PromotionPath
    | Unimplemented(kind: string)

  datatype RuleSet = RuleSet(
    entities: map<EntityType, EntityRules>,
    permissions: map<string, seq<EventType>>,
    guards: seq<Guard>)

  const ABSENT := "__absent__"

  function RequestedStatus(e: Event): string {
    if e.EntityType().Decision? then "recorded" else e.payload.status
  }

  function FindAllowed(rules: seq<Transition>, current: string, requested: string,
      t: EventType): (r: Option<Transition>)
    ensures r.Some? ==> r.value in rules && r.value.from == current && r.value.to == requested && t in r.value.via
    ensures r.None? ==> !exists rule :: rule in rules && rule.from == current && rule.to == requested && t in rule.via
  {
    if rules == [] then None
    else if rules[0].from == current && rules[0].to == requested && t in rules[0].via then Some(rules[0])
    else FindAllowed(rules[1..], current, requested, t)
  }

  // The rule set permits this event on an entity that is now in `current`.
  predicate Permits(rules: RuleSet, e: Event, current: string) {
    && e.EntityType() in rules.entities
    && FindAllowed(rules.entities[e.EntityType()].allowed, current, RequestedStatus(e), e.eventType).Some?
  }

  // Some allowed transition of this kind of entity leads from one status to the other.
  predicate Edge(rules: RuleSet, kind: EntityType, from: string, to: string) {
    kind in rules.entities &&
    exists tr :: tr in rules.entities[kind].allowed && tr.from == from && tr.to == to
  }

  predicate Matches(scope: Scope, e: Event) {
    scope.entityType == e.EntityType() && (scope.eventType.None? || scope.eventType.value == e.eventType)
  }

  function ReadIds(e: Event, f: IdField): seq<string> {
    match (f, e.payload.body)
    case (IssueObservations, IssueBody(i)) => i.evidence.observationIds
    case (IssueQuestions, IssueBody(i)) => i.evidence.questionIds.GetOr([])
    case (IssueContradictions, IssueBody(i)) => i.evidence.contradictionIds.GetOr([])
    case (HypothesisSupports, HypothesisBody(h)) => h.supportingIds
    case (HypothesisContradicts, HypothesisBody(h)) => h.contradictingIds
    case (BasisObservations, HypothesisBody(h)) => if h.basis.Some? then h.basis.value.observations else []
    case (CandidateTriggers, CandidateBody(c)) => c.triggerIds.GetOr([])
    case (CandidateRelated, CandidateBody(c)) => c.relatedIds.GetOr([])
    case _ => []
  }

  function RestField(b: Body, name: string): Option<string> {
    var rest :=
      match b
      case ObservationBody(o) => o.rest
      case HypothesisBody(h) => h.rest
      case QuestionBody(q) => q.rest
      case IssueBody(i) => i.rest
      case ContradictionBody(c) => c.rest
      case DecisionBody(d) => d.rest
      case CandidateBody(c) => c.rest
      case AuditBody(a) => a
      case TaskBody(t) => t
      case CoverageBody(c) => c;
    if name in rest then Some(rest[name]) else None
  }

  // A decision has no status field.
  function ReadField(p: Payload, f: Field): Option<string> {
    match f
    case Status => if p.body.DecisionBody? then None else Some(p.status)
    case EvidenceClass => if p.body.ObservationBody? then Some(p.body.observation.evidenceClass) else None
    case Severity => if p.body.IssueBody? then p.body.issue.severity else None
    case SeverityRule => if p.body.IssueBody? then p.body.issue.severityRule else None
    case Context => if p.body.QuestionBody? then p.body.question.context else None
    case CandidateRef => if p.body.ObservationBody? then p.body.observation.candidateRef else None
    case PromotedObservation => if p.body.CandidateBody? then p.body.candidate.promoted else None
    case Named(name) => RestField(p.body, name)
  }
}
