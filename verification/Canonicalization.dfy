/** Semantic identities of events. Display text loses whitespace differences, lists lose order and
    repetition, and the digests of what is left become entity ids, event ids and idempotency keys. */
module Canonicalization {
  import opened Wrappers
  import opened Json
  import opened Ordering
  import opened Text
  import opened Events

  datatype FieldKind = ObservationText | HypothesisText | QuestionText | IssueTitle | CandidateClaim

  type Tokens = seq<string>

  // The meaning of an event, field by field; identities of references carry no excerpt.
  datatype Semantic =
    | ObservationClaim(claim: Tokens, evidenceClass: string, sourceRefs: seq<SourceRef>)
    | ObservationVerdict(
        observationId: string, status: string, claim: Tokens, evidenceClass: string, sourceRefs: seq<SourceRef>)
    | HypothesisClaim(claim: Tokens, sourceRefs: seq<SourceRef>, supporting: seq<string>, contradicting: seq<string>)
    | QuestionAsked(question: Tokens, related: seq<EntityRef>, context: Option<Tokens>)
    | IssueClaim(
        title: Tokens, observationIds: seq<string>, questionIds: seq<string>, contradictionIds: seq<string>,
        severity: Option<string>, severityRule: Option<string>)
    | RiskClaim(claim: Tokens, category: Option<string>, evidenceRefs: seq<EvidenceRef>, triggers: seq<string>)
    | PolicyClaim(claim: Tokens, ruleRef: Option<string>, evidenceRefs: seq<EvidenceRef>, triggers: seq<string>)
    | CrossFileClaim(claim: Tokens, relationship: Option<string>, paths: seq<string>, observations: seq<string>)
    | TargetClaim(target: Option<Target>, evidenceRefs: seq<EvidenceRef>, triggers: seq<string>)
    | UnknownCandidate(payload: Payload)
    | Other(entityId: string, payload: Payload)

  // What gets digested: an event, or an entity. A candidate entity leaves its snapshot out.
  datatype Fingerprint =
    | OfEvent(auditId: string, entityType: EntityType, eventType: EventType, snapshotRef: Option<string>,
        semantic: Semantic)
    | OfEntity(auditId: string, snapshotRef: Option<string>, semantic: Semantic)
    | OfCandidate(auditId: string, semantic: Semantic)

  // The library functions: Unicode normalisation, tokenisation of a display text, and the digest.
  datatype Env = Env(
    nfkc: string -> string,
    tokens: (FieldKind, string) -> Tokens,
    digest: Fingerprint -> string)

  /******* Text and lists *******/

  function Display(env: Env, s: string): string {
    Collapse(env.nfkc(s))
  }

  function TextIdentity(env: Env, kind: FieldKind, s: string): Tokens {
    env.tokens(kind, Display(env, s))
  }

  function NonBlank(env: Env): string -> Option<string> {
    id => if Display(env, id) == "" then None else Some(Display(env, id))
  }

  function DisplayAll(env: Env, ids: seq<string>): seq<string> {
    Collect(ids, NonBlank(env))
  }

  function IdList(env: Env, ids: seq<string>): seq<string> {
    SortedSet(DisplayAll(env, ids))
  }

  function OptionalIds(env: Env, ids: Option<seq<string>>): Option<seq<string>> {
    if ids.None? then None else Some(IdList(env, ids.value))
  }

  /******* Source references *******/

  function Identity(r: SourceRef): SourceRef {
    SourceRef(NormalizePath(r.filePath), r.lines, r.snapshotRef,
              if r.fileHash.Some? && r.fileHash.value != "" then Some(Lower(r.fileHash.value)) else None,
              None)
  }

  function IdentityIfUsable(r: SourceRef): Option<SourceRef> {
    if r.lines.Some? then Some(Identity(r)) else None
  }

  function Identities(refs: seq<SourceRef>): seq<SourceRef> {
    Collect(refs, IdentityIfUsable)
  }

  function RefKey(r: SourceRef): Key {
    var lines := r.lines.GetOr(LineRange(0, 0));
    Field(r.filePath) + ([lines.start, lines.end] + (Field(r.snapshotRef) + Codes(r.fileHash.GetOr(""))))
  }

  function RefIdentities(refs: seq<SourceRef>): seq<SourceRef> {
    SortBy(Identities(refs), RefKey)
  }

  // The excerpt search compares everything but the hash.
  predicate SamePlace(r: SourceRef, identity: SourceRef) {
    && r.lines.Some?
    && NormalizePath(r.filePath) == identity.filePath
    && r.lines == identity.lines
    && r.snapshotRef == identity.snapshotRef
  }

  function FirstAt(refs: seq<SourceRef>, identity: SourceRef): Option<SourceRef> {
    if refs == [] then None
    else if SamePlace(refs[0], identity) then Some(refs[0])
    else FirstAt(refs[1..], identity)
  }

  function StoredExcerpt(env: Env, found: Option<SourceRef>): Option<string> {
    if found.Some? && found.value.excerpt.Some? && found.value.excerpt.value != ""
    then Some(Display(env, found.value.excerpt.value))
    else None
  }

  function WithExcerpts(env: Env, identities: seq<SourceRef>, refs: seq<SourceRef>): seq<SourceRef> {
    if identities == [] then []
    else [identities[0].(excerpt := StoredExcerpt(env, FirstAt(refs, identities[0])))]
         + WithExcerpts(env, identities[1..], refs)
  }

  function StorageRefs(env: Env, refs: seq<SourceRef>): seq<SourceRef> {
    WithExcerpts(env, RefIdentities(refs), refs)
  }

  lemma NextStored(env: Env, identities: seq<SourceRef>, i: nat, refs: seq<SourceRef>)
    requires i < |identities|
    ensures WithExcerpts(env, identities[i..], refs)
         == [identities[i].(excerpt := StoredExcerpt(env, FirstAt(refs, identities[i])))]
            + WithExcerpts(env, identities[i + 1..], refs)
  {
    assert identities[i..][1..] == identities[i + 1..];
  }

  lemma NextSearched(refs: seq<SourceRef>, j: nat, identity: SourceRef)
    requires j < |refs| && !SamePlace(refs[j], identity)
    ensures FirstAt(refs[j..], identity) == FirstAt(refs[j + 1..], identity)
  {
    assert refs[j..][1..] == refs[j + 1..];
  }

  lemma SearchEnds(refs: seq<SourceRef>, j: nat, identity: SourceRef)
    requires j <= |refs| && (j < |refs| ==> SamePlace(refs[j], identity))
    ensures FirstAt(refs[j..], identity) == if j < |refs| then Some(refs[j]) else None
  {
  }

  // The storage loop: for every sorted identity, search the given list for its excerpt.
  method NormalizeSourceRefsForStorage(env: Env, refs: seq<SourceRef>) returns (stored: seq<SourceRef>)
    ensures stored == StorageRefs(env, refs)
  {
    hide RefKey, Identity, SamePlace, RefIdentities, StoredExcerpt;
    var identities := RefIdentities(refs);
    stored := [];
    var i := 0;
    while i < |identities|
      invariant 0 <= i <= |identities|
      invariant StorageRefs(env, refs) == stored + WithExcerpts(env, identities[i..], refs)
    {
      var storageRef := identities[i];
      var j := 0;
      while j < |refs| && !SamePlace(refs[j], storageRef)
        invariant 0 <= j <= |refs|
        invariant FirstAt(refs, storageRef) == FirstAt(refs[j..], storageRef)
      {
        NextSearched(refs, j, storageRef);
        j := j + 1;
      }
      SearchEnds(refs, j, storageRef);
      var found := if j < |refs| then Some(refs[j]) else None;
      NextStored(env, identities, i, refs);
      stored := stored + [storageRef.(excerpt := StoredExcerpt(env, found))];
      i := i + 1;
    }
    assert identities[i..] == [];
  }

  /******* Other references *******/

  function IfWellFormed(r: EntityRef): Option<EntityRef> {
    if r.EntityRef? then Some(r) else None
  }

  function EntityRefKey(r: EntityRef): Key {
    match r
    case EntityRef(entityType, entityId) => Field(entityType) + Codes(entityId)
    case MalformedRef => []
  }

  function RelatedRefs(refs: seq<EntityRef>): seq<EntityRef> {
    SortBy(Collect(refs, IfWellFormed), EntityRefKey)
  }

  function EvidenceIdentity(r: EvidenceRef): Option<EvidenceRef> {
    if r.filePath.Some? && r.lines.Some? then
      Some(EvidenceRef(Some(NormalizePath(r.filePath.value)), r.lines, r.snapshotRef, None))
    else if r.observationId.Some? then Some(EvidenceRef(None, None, None, r.observationId))
    else None
  }

  function OptionalMember(key: string, text: Option<string>): seq<Member> {
    if text.None? then [] else [Member(key, Value.Text(text.value))]
  }

  // The compact JSON text by which evidence references are sorted.
  function EvidenceJson(r: EvidenceRef): Value {
    Object(
      OptionalMember("file_path", r.filePath)
      + (if r.lines.None? then [] else
           [Member("line_range", Object([Member("end", Number(r.lines.value.end)),
                                         Member("start", Number(r.lines.value.start))]))])
      + OptionalMember("observation_id", r.observationId)
      + OptionalMember("snapshot_ref", r.snapshotRef))
  }

  function EvidenceKey(r: EvidenceRef): Key {
    Codes(Print(EvidenceJson(r)))
  }

  function EvidenceRefs(refs: seq<EvidenceRef>): seq<EvidenceRef> {
    SortBy(Collect(refs, EvidenceIdentity), EvidenceKey)
  }

  function NonBlankPath(path: string): Option<string> {
    if Strip(path) == "" then None else Some(NormalizePath(path))
  }

  function FilePaths(paths: seq<string>): seq<string> {
    SortedSet(Collect(paths, NonBlankPath))
  }

  function TargetIdentity(env: Env, t: Option<Target>): Option<Target> {
    if t.None? then None else Some(t.value.(questions := OptionalIds(env, t.value.questions)))
  }

  function Described(env: Env): Conflict -> Option<Conflict> {
    (c: Conflict) => Some(c.(description := Display(env, c.description)))
  }

  function ConflictKey(c: Conflict): Key {
    Codes(c.hypothesisId)
  }

  function NormalizeBasis(env: Env, b: Basis): Basis {
    Basis(IdList(env, b.observations), IdList(env, b.hypotheses), IdList(env, b.missing),
          SortBy(Collect(b.contradictions, Described(env)), ConflictKey))
  }

  /******* Normalised events *******/

  // Display fields depend on the event type.
  function DisplayFields(env: Env, t: EventType, b: Body): Body {
    match b
    case ObservationBody(o) =>
      if t.ObservationProposed? || t.ObservationVerified? || t.ObservationRejected?
      then ObservationBody(o.(statement := Display(env, o.statement))) else b
    case HypothesisBody(h) =>
      if t.HypothesisProposed?
      then HypothesisBody(h.(statement := Display(env, h.statement), rationale := Display(env, h.rationale))) else b
    case QuestionBody(q) =>
      if t.QuestionOpened?
      then QuestionBody(q.(prompt := Display(env, q.prompt),
                           context := if q.context.None? then None else Some(Display(env, q.context.value)))) else b
    case IssueBody(i) =>
      if t.IssueProposed?
      then IssueBody(i.(title := Display(env, i.title), summary := Display(env, i.summary))) else b
    case CandidateBody(c) =>
      if t.CandidateProposed?
      then CandidateBody(c.(claim := Display(env, c.claim), reasoning := Display(env, c.reasoning))) else b
    case _ => b
  }

  // Arrays depend on the entity type.
  function Arrays(env: Env, b: Body): Body {
    match b
    case ObservationBody(o) => ObservationBody(o.(sourceRefs := StorageRefs(env, o.sourceRefs)))
    case HypothesisBody(h) =>
      HypothesisBody(h.(
        sourceRefs := StorageRefs(env, h.sourceRefs),
        supportingIds := IdList(env, h.supportingIds),
        contradictingIds := IdList(env, h.contradictingIds),
        basis := if h.basis.None? then None else Some(NormalizeBasis(env, h.basis.value))))
    case QuestionBody(q) => QuestionBody(q.(related := RelatedRefs(q.related)))
    case IssueBody(i) =>
      IssueBody(i.(evidence := Evidence(IdList(env, i.evidence.observationIds),
                                        OptionalIds(env, i.evidence.questionIds),
                                        OptionalIds(env, i.evidence.contradictionIds))))
    case ContradictionBody(c) =>
      ContradictionBody(c.(conflicting := RelatedRefs(c.conflicting), sourceRefs := StorageRefs(env, c.sourceRefs)))
    case DecisionBody(d) => DecisionBody(d.(sourceRefs := StorageRefs(env, d.sourceRefs)))
    case CandidateBody(c) =>
      CandidateBody(c.(
        evidenceRefs := EvidenceRefs(c.evidenceRefs),
        triggerIds := OptionalIds(env, c.triggerIds),
        relatedIds := OptionalIds(env, c.relatedIds),
        filePaths := if c.filePaths.None? then None else Some(FilePaths(c.filePaths.value))))
    case _ => b
  }

  function NormalizeBody(env: Env, t: EventType, b: Body): Body {
    Arrays(env, DisplayFields(env, t, b))
  }

  function Normalize(env: Env, e: Event): Event {
    e.(payload := e.payload.(body := NormalizeBody(env, e.eventType, e.payload.body)))
  }

  /******* Fingerprints *******/

  predicate IsCanonical(t: EventType) {
    !t.CandidatePromoted? && !t.ContradictionRegistered? && !t.OtherEvent?
  }

  function ContextIdentity(env: Env, context: Option<string>): Option<Tokens> {
    if context.Some? && Strip(context.value) != "" then Some(TextIdentity(env, QuestionText, context.value)) else None
  }

  function CandidateSemantic(env: Env, p: Payload, c: CandidateData): Semantic {
    var claim := TextIdentity(env, CandidateClaim, c.claim);
    var triggers := IdList(env, c.triggerIds.GetOr([]));
    match c.kind
    case Risk(category) => RiskClaim(claim, category, EvidenceRefs(c.evidenceRefs), triggers)
    case Policy(ruleRef) => PolicyClaim(claim, ruleRef, EvidenceRefs(c.evidenceRefs), triggers)
    case CrossFile(relationship) =>
      CrossFileClaim(claim, relationship, FilePaths(c.filePaths.GetOr([])), IdList(env, c.relatedIds.GetOr([])))
    case VerificationTarget => TargetClaim(TargetIdentity(env, c.target), EvidenceRefs(c.evidenceRefs), triggers)
    case OtherKind(_) => UnknownCandidate(p)
  }

  function VerdictSemantic(env: Env, e: Event, o: ObservationData): Semantic {
    ObservationVerdict(e.entityId, e.payload.status, TextIdentity(env, ObservationText, o.statement),
                       o.evidenceClass, RefIdentities(o.sourceRefs))
  }

  // The semantic payload of an event whose display fields and arrays are already normalised.
  function SemanticOf(env: Env, e: Event): Semantic {
    match (e.eventType, e.payload.body)
    case (ObservationProposed, ObservationBody(o)) =>
      ObservationClaim(TextIdentity(env, ObservationText, o.statement), o.evidenceClass, RefIdentities(o.sourceRefs))
    case (ObservationVerified, ObservationBody(o)) => VerdictSemantic(env, e, o)
    case (ObservationRejected, ObservationBody(o)) => VerdictSemantic(env, e, o)
    case (HypothesisProposed, HypothesisBody(h)) =>
      HypothesisClaim(TextIdentity(env, HypothesisText, h.statement), RefIdentities(h.sourceRefs),
                      IdList(env, h.supportingIds), IdList(env, h.contradictingIds))
    case (QuestionOpened, QuestionBody(q)) =>
      QuestionAsked(TextIdentity(env, QuestionText, q.prompt), RelatedRefs(q.related), ContextIdentity(env, q.context))
    case (IssueProposed, IssueBody(i)) =>
      IssueClaim(TextIdentity(env, IssueTitle, i.title), IdList(env, i.evidence.observationIds),
                 IdList(env, i.evidence.questionIds.GetOr([])), IdList(env, i.evidence.contradictionIds.GetOr([])),
                 i.severity, i.severityRule)
    case (CandidateProposed, CandidateBody(c)) => CandidateSemantic(env, e.payload, c)
    case _ => Other(e.entityId, e.payload)
  }

  function EventFingerprint(env: Env, e: Event): Fingerprint {
    OfEvent(e.auditId, e.EntityType(), e.eventType, e.snapshotRef, SemanticOf(env, Normalize(env, e)))
  }

  function SemanticEquivalent(env: Env, a: Event, b: Event): bool {
    EventFingerprint(env, a) == EventFingerprint(env, b)
  }

  /******* Canonical ids *******/

  function EntityPrefix(s: Semantic): Option<string> {
    match s
    case ObservationClaim(_, _, _) => Some("obs_")
    case HypothesisClaim(_, _, _, _) => Some("hyp_")
    case QuestionAsked(_, _, _) => Some("question_")
    case IssueClaim(_, _, _, _, _, _) => Some("issue_")
    case RiskClaim(_, _, _, _) => Some("candidate_")
    case PolicyClaim(_, _, _, _) => Some("candidate_")
    case CrossFileClaim(_, _, _, _) => Some("candidate_")
    case TargetClaim(_, _, _) => Some("candidate_")
    case _ => None
  }

  function EntityFingerprint(e: Event, s: Semantic): Fingerprint {
    if EntityPrefix(s) == Some("candidate_") then OfCandidate(e.auditId, s) else OfEntity(e.auditId, e.snapshotRef, s)
  }

  // The entity id of a proposal, from an event that is already normalised.
  function EntityId(env: Env, e: Event): Option<string> {
    var semantic := SemanticOf(env, e);
    match EntityPrefix(semantic)
    case None => None
    case Some(prefix) => Some(prefix + env.digest(EntityFingerprint(e, semantic)))
  }

  function TypeToken(t: EventType): string {
    match t
    case ObservationProposed => "observation_proposed"
    case ObservationVerified => "observation_verified"
    case ObservationRejected => "observation_rejected"
    case HypothesisProposed => "hypothesis_proposed"
    case HypothesisSentToVerification => "hypothesis_sent_to_verification"
    case HypothesisSupported => "hypothesis_supported"
    case HypothesisRejected => "hypothesis_rejected"
    case QuestionOpened => "question_opened"
    case IssueProposed => "issue_proposed"
    case CandidateProposed => "candidate_proposed"
    case CandidatePromoted => "candidate_promoted_to_observation"
    case ContradictionRegistered => "contradiction_registered"
    case OtherEvent(name) => name
  }

  // A supported hypothesis must name at least one supporting observation.
  predicate LacksEvidence(e: Event) {
    && e.eventType.HypothesisSupported?
    && !(&& e.payload.body.HypothesisBody?
         && e.payload.body.hypothesis.basis.Some?
         && e.payload.body.hypothesis.basis.value.observations != [])
  }

  function WithEntityId(env: Env, e: Event): Event {
    match EntityId(env, e)
    case None => e
    case Some(id) => e.(entityId := id, payload := e.payload.(id := id))
  }

  function WithEventIds(env: Env, e: Event): Event {
    var digest := env.digest(EventFingerprint(env, e));
    e.(id := "event_" + TypeToken(e.eventType) + "_" + digest,
       idempotencyKey := "semantic:" + TypeToken(e.eventType) + ":" + digest)
  }

  // None is the error for a supported hypothesis without evidence.
  function Canonicalize(env: Env, e: Event): Option<Event> {
    var n := Normalize(env, e);
    if !IsCanonical(e.eventType) then Some(n)
    else if LacksEvidence(n) then None
    else Some(WithEventIds(env, WithEntityId(env, n)))
  }
}
