/** The events that the runtime accepts. The entity type of an event is the one its payload has the
    shape of; everything the modelled code never looks into travels along in `rest`. */
module Events {
  import opened Wrappers

  datatype EntityType =
    | Audit | Task | Observation | Hypothesis | Issue | Question | Contradiction | Decision | Candidate
    | Coverage

  datatype EventType =
    | ObservationProposed | ObservationVerified | ObservationRejected
    | HypothesisProposed | HypothesisSentToVerification | HypothesisSupported | HypothesisRejected
    | QuestionOpened | IssueProposed | CandidateProposed
    | CandidatePromoted | ContradictionRegistered
    | OtherEvent(name: string)

  datatype LineRange = LineRange(start: int, end: int)

  // A reference without a usable line range has no `lines`.
  datatype SourceRef = SourceRef(
    filePath: string, lines: Option<LineRange>, snapshotRef: string,
    fileHash: Option<string>, excerpt: Option<string>)

  datatype EntityRef = EntityRef(entityType: string, entityId: string) | MalformedRef

  datatype EvidenceRef = EvidenceRef(
    filePath: Option<string>, lines: Option<LineRange>, snapshotRef: Option<string>, observationId: Option<string>)

  datatype Basis = Basis(
    observations: seq<string>, hypotheses: seq<string>, missing: seq<string>, contradictions: seq<Conflict>)

  datatype Conflict = Conflict(hypothesisId: string, description: string)

  datatype Evidence = Evidence(
    observationIds: seq<string>, questionIds: Option<seq<string>>, contradictionIds: Option<seq<string>>)

  datatype Target = Target(targetType: string, targetId: string, questions: Option<seq<string>>)

  datatype CandidateKind =
    | Risk(category: Option<string>)
    | Policy(ruleRef: Option<string>)
    | CrossFile(relationship: Option<string>)
    | VerificationTarget
    | OtherKind(name: string)

  datatype ObservationData = ObservationData(
    statement: string, evidenceClass: string, sourceRefs: seq<SourceRef>, candidateRef: Option<string>,
    rest: map<string, string>)

  datatype HypothesisData = HypothesisData(
    statement: string, rationale: string, sourceRefs: seq<SourceRef>,
    supportingIds: seq<string>, contradictingIds: seq<string>, basis: Option<Basis>, rest: map<string, string>)

  datatype QuestionData = QuestionData(
    prompt: string, context: Option<string>, related: seq<EntityRef>, rest: map<string, string>)

  datatype IssueData = IssueData(
    title: string, summary: string, evidence: Evidence,
    severity: Option<string>, severityRule: Option<string>, rest: map<string, string>)

  datatype ContradictionData = ContradictionData(
    conflicting: seq<EntityRef>, sourceRefs: seq<SourceRef>, rest: map<string, string>)

  datatype DecisionData = DecisionData(sourceRefs: seq<SourceRef>, rest: map<string, string>)

  datatype CandidateData = CandidateData(
    kind: CandidateKind, claim: string, reasoning: string, evidenceRefs: seq<EvidenceRef>,
    triggerIds: Option<seq<string>>, relatedIds: Option<seq<string>>, filePaths: Option<seq<string>>,
    target: Option<Target>, promoted: Option<string>, rest: map<string, string>)

  datatype Body =
    | ObservationBody(observation: ObservationData)
    | HypothesisBody(hypothesis: HypothesisData)
    | QuestionBody(question: QuestionData)
    | IssueBody(issue: IssueData)
    | ContradictionBody(contradiction: ContradictionData)
    | DecisionBody(decision: DecisionData)
    | CandidateBody(candidate: CandidateData)
    | AuditBody(audit: map<string, string>)
    | TaskBody(task: map<string, string>)
    | CoverageBody(coverage: map<string, string>)

  datatype Payload = Payload(id: string, auditId: Option<string>, status: string, body: Body)

  datatype Actor = Worker(actorId: string, role: Option<string>) | User(actorId: string) | System(actorId: string)

  datatype Acceptance =
    | NoAcceptance
    | Acceptance(status: string, decidedAt: Option<string>, decidedBy: Option<Actor>, reason: Option<string>)

  datatype Event = Event(
    id: string, auditId: string, entityId: string, eventType: EventType, occurredAt: string, actor: Actor,
    snapshotRef: Option<string>, idempotencyKey: string, causedBy: Option<string>,
    payload: Payload, acceptance: Acceptance)
  {
    function EntityType(): EntityType {
      KindOf(payload.body)
    }
  }

  function KindOf(b: Body): EntityType {
    match b
    case ObservationBody(_) => Observation
    case HypothesisBody(_) => Hypothesis
    case QuestionBody(_) => Question
    case IssueBody(_) => Issue
    case ContradictionBody(_) => Contradiction
    case DecisionBody(_) => Decision
    case CandidateBody(_) => Candidate
    case AuditBody(_) => Audit
    case TaskBody(_) => Task
    case CoverageBody(_) => Coverage
  }
}
