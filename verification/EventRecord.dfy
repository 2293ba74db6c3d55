/** One way to write every event as a ledger record that reads back as the same event: the codecs that
    the theorems about the ledger file ask for exist. */
module EventRecord {
  import opened Wrappers
  import opened Ordering
  import opened Events
  import opened Json
  import EventStore
  import DurableAcceptance

  ghost predicate Injective<T(!new)>(f: T -> Value) {
    forall x: T, y: T :: f(x) == f(y) ==> x == y
  }

  /******* Lists, options and maps *******/

  function ListOf<T>(xs: seq<T>, f: T -> Value): Value {
    Array(seq(|xs|, i requires 0 <= i < |xs| => f(xs[i])))
  }

  lemma SameList<T(!new)>(xs: seq<T>, ys: seq<T>, f: T -> Value)
    requires Injective(f) && ListOf(xs, f) == ListOf(ys, f)
    ensures xs == ys
  {
    assert |xs| == |ListOf(xs, f).items| == |ys|;
    forall i | 0 <= i < |xs| ensures xs[i] == ys[i] {
      assert ListOf(xs, f).items[i] == f(xs[i]) && ListOf(ys, f).items[i] == f(ys[i]);
    }
  }

  function OptionOf<T>(x: Option<T>, f: T -> Value): Value {
    match x
    case None => Null
    case Some(v) => Array([f(v)])
  }

  lemma SameOption<T(!new)>(x: Option<T>, y: Option<T>, f: T -> Value)
    requires Injective(f) && OptionOf(x, f) == OptionOf(y, f)
    ensures x == y
  {
    if x.Some? && y.Some? {
      assert OptionOf(x, f).items[0] == OptionOf(y, f).items[0];
    }
  }

  function OfText(s: string): Value {
    Text(s)
  }

  function Texts(ss: seq<string>): Value {
    ListOf(ss, OfText)
  }

  function OfPair(p: (string, string)): Value {
    Array([Text(p.0), Text(p.1)])
  }

  ghost function Entries(m: map<string, string>): seq<(string, string)> {
    var ids := Order(m.Keys);
    seq(|ids|, i requires 0 <= i < |ids| => (ids[i], if ids[i] in m then m[ids[i]] else ""))
  }

  ghost function OfMap(m: map<string, string>): Value {
    ListOf(Entries(m), OfPair)
  }

  lemma PairsDiffer()
    ensures Injective(OfPair)
  {
    forall x: (string, string), y: (string, string) | OfPair(x) == OfPair(y) ensures x == y {
      assert OfPair(x).items[0] == OfPair(y).items[0] && OfPair(x).items[1] == OfPair(y).items[1];
    }
  }

  lemma SameMap(m: map<string, string>, n: map<string, string>)
    requires OfMap(m) == OfMap(n)
    ensures m == n
  {
    hide Order;
    PairsDiffer();
    SameList(Entries(m), Entries(n), OfPair);
    HasEntries(m, n);
    HasEntries(n, m);
    assert m.Keys == n.Keys;
  }

  lemma HasEntries(m: map<string, string>, n: map<string, string>)
    requires Entries(m) == Entries(n)
    ensures forall k :: k in m ==> k in n && m[k] == n[k]
  {
    var ids, others := Order(m.Keys), Order(n.Keys);
    assert |ids| == |Entries(m)| == |others|;
    forall k | k in m ensures k in n && m[k] == n[k] {
      assert k in ids;
      var i :| 0 <= i < |ids| && ids[i] == k;
      assert Entries(m)[i] == (k, m[k]);
      assert Entries(n)[i].0 == others[i] && others[i] in others;
    }
  }

  lemma SameTexts(a: seq<string>, b: seq<string>)
    requires Texts(a) == Texts(b)
    ensures a == b
  {
    SameList(a, b, OfText);
  }

  lemma SameText(a: Option<string>, b: Option<string>)
    requires OptionOf(a, OfText) == OptionOf(b, OfText)
    ensures a == b
  {
    SameOption(a, b, OfText);
  }

  lemma TextsDiffer()
    ensures Injective(Texts) && Injective(OfText)
  {
    forall a: seq<string>, b: seq<string> | Texts(a) == Texts(b) ensures a == b {
      SameTexts(a, b);
    }
  }

  // The parts of a list of values, read off one by one.
  lemma SameItems(a: seq<Value>, b: seq<Value>)
    requires Array(a) == Array(b)
    ensures |a| == |b| && forall i :: 0 <= i < |a| ==> a[i] == b[i]
  {
  }

  /******* The parts of payloads *******/

  function OfLines(l: LineRange): Value {
    Array([Number(l.start), Number(l.end)])
  }

  lemma LinesDiffer()
    ensures Injective(OfLines)
  {
    forall a: LineRange, b: LineRange | OfLines(a) == OfLines(b) ensures a == b {
      SameItems(OfLines(a).items, OfLines(b).items);
    }
  }

  function OfSource(r: SourceRef): Value {
    Array([Text(r.filePath), OptionOf(r.lines, OfLines), Text(r.snapshotRef), OptionOf(r.fileHash, OfText),
           OptionOf(r.excerpt, OfText)])
  }

  lemma SourcesDiffer()
    ensures Injective(OfSource)
  {
    hide OptionOf;
    LinesDiffer();
    forall a: SourceRef, b: SourceRef | OfSource(a) == OfSource(b) ensures a == b {
      SameItems(OfSource(a).items, OfSource(b).items);
      SameOption(a.lines, b.lines, OfLines);
      SameText(a.fileHash, b.fileHash);
      SameText(a.excerpt, b.excerpt);
    }
  }

  function OfEntity(r: EntityRef): Value {
    match r
    case EntityRef(entityType, entityId) => Array([Text(entityType), Text(entityId)])
    case MalformedRef => Null
  }

  lemma EntitiesDiffer()
    ensures Injective(OfEntity)
  {
    forall a: EntityRef, b: EntityRef | OfEntity(a) == OfEntity(b) ensures a == b {
      if a.EntityRef? && b.EntityRef? {
        SameItems(OfEntity(a).items, OfEntity(b).items);
      }
    }
  }

  function OfEvidence(r: EvidenceRef): Value {
    Array([OptionOf(r.filePath, OfText), OptionOf(r.lines, OfLines), OptionOf(r.snapshotRef, OfText),
           OptionOf(r.observationId, OfText)])
  }

  lemma EvidenceDiffers()
    ensures Injective(OfEvidence)
  {
    hide OptionOf;
    LinesDiffer();
    forall a: EvidenceRef, b: EvidenceRef | OfEvidence(a) == OfEvidence(b) ensures a == b {
      SameItems(OfEvidence(a).items, OfEvidence(b).items);
      SameOption(a.lines, b.lines, OfLines);
      SameText(a.filePath, b.filePath);
      SameText(a.snapshotRef, b.snapshotRef);
      SameText(a.observationId, b.observationId);
    }
  }

  function OfConflict(c: Conflict): Value {
    Array([Text(c.hypothesisId), Text(c.description)])
  }

  lemma ConflictsDiffer()
    ensures Injective(OfConflict)
  {
    forall a: Conflict, b: Conflict | OfConflict(a) == OfConflict(b) ensures a == b {
      SameItems(OfConflict(a).items, OfConflict(b).items);
    }
  }

  function OfBasis(b: Basis): Value {
    Array([Texts(b.observations), Texts(b.hypotheses), Texts(b.missing), ListOf(b.contradictions, OfConflict)])
  }

  lemma BasesDiffer()
    ensures Injective(OfBasis)
  {
    hide ListOf, Texts;
    ConflictsDiffer();
    forall a: Basis, b: Basis | OfBasis(a) == OfBasis(b) ensures a == b {
      SameItems(OfBasis(a).items, OfBasis(b).items);
      SameTexts(a.observations, b.observations);
      SameTexts(a.hypotheses, b.hypotheses);
      SameTexts(a.missing, b.missing);
      SameList(a.contradictions, b.contradictions, OfConflict);
    }
  }

  function OfTarget(t: Events.Target): Value {
    Array([Text(t.targetType), Text(t.targetId), OptionOf(t.questions, Texts)])
  }

  lemma TargetsDiffer()
    ensures Injective(OfTarget)
  {
    hide OptionOf;
    TextsDiffer();
    forall a: Events.Target, b: Events.Target | OfTarget(a) == OfTarget(b) ensures a == b {
      SameItems(OfTarget(a).items, OfTarget(b).items);
      SameOption(a.questions, b.questions, Texts);
    }
  }

  function OfKind(k: CandidateKind): Value {
    match k
    case Risk(category) => Array([Text("risk"), Number(0), OptionOf(category, OfText)])
    case Policy(ruleRef) => Array([Text("policy"), Number(1), OptionOf(ruleRef, OfText)])
    case CrossFile(relationship) => Array([Text("cross_file"), Number(2), OptionOf(relationship, OfText)])
    case VerificationTarget => Array([Text("verification_target"), Number(3), Null])
    case OtherKind(name) => Array([Text(name), Number(4), Null])
  }

  lemma SameKind(a: CandidateKind, b: CandidateKind)
    requires OfKind(a) == OfKind(b)
    ensures a == b
  {
    hide OptionOf;
    SameItems(OfKind(a).items, OfKind(b).items);
    match (a, b)
    case (Risk(x), Risk(y)) => SameText(x, y);
    case (Policy(x), Policy(y)) => SameText(x, y);
    case (CrossFile(x), CrossFile(y)) => SameText(x, y);
    case _ =>
  }

  /******* Payloads *******/

  ghost function OfBody(b: Body): seq<Value> {
    match b
    case ObservationBody(o) =>
      [Number(0), Text(o.statement), Text(o.evidenceClass), ListOf(o.sourceRefs, OfSource),
       OptionOf(o.candidateRef, OfText), OfMap(o.rest)]
    case HypothesisBody(h) =>
      [Number(1), Text(h.statement), Text(h.rationale), ListOf(h.sourceRefs, OfSource), Texts(h.supportingIds),
       Texts(h.contradictingIds), OptionOf(h.basis, OfBasis), OfMap(h.rest)]
    case QuestionBody(q) =>
      [Number(2), Text(q.prompt), OptionOf(q.context, OfText), ListOf(q.related, OfEntity), OfMap(q.rest)]
    case IssueBody(i) =>
      [Number(3), Text(i.title), Text(i.summary), Texts(i.evidence.observationIds),
       OptionOf(i.evidence.questionIds, Texts), OptionOf(i.evidence.contradictionIds, Texts),
       OptionOf(i.severity, OfText), OptionOf(i.severityRule, OfText), OfMap(i.rest)]
    case ContradictionBody(c) =>
      [Number(4), ListOf(c.conflicting, OfEntity), ListOf(c.sourceRefs, OfSource), OfMap(c.rest)]
    case DecisionBody(d) => [Number(5), ListOf(d.sourceRefs, OfSource), OfMap(d.rest)]
    case CandidateBody(c) =>
      [Number(6), OfKind(c.kind), Text(c.claim), Text(c.reasoning), ListOf(c.evidenceRefs, OfEvidence),
       OptionOf(c.triggerIds, Texts), OptionOf(c.relatedIds, Texts), OptionOf(c.filePaths, Texts),
       OptionOf(c.target, OfTarget), OptionOf(c.promoted, OfText), OfMap(c.rest)]
    case AuditBody(m) => [Number(7), OfMap(m)]
    case TaskBody(m) => [Number(8), OfMap(m)]
    case CoverageBody(m) => [Number(9), OfMap(m)]
  }

  lemma SameBodyKind(a: Body, b: Body)
    requires OfBody(a) == OfBody(b)
    ensures KindOf(a) == KindOf(b) && |OfBody(a)| == |OfBody(b)|
  {
    hide ListOf, OptionOf, Texts, OfMap, OfKind;
    assert OfBody(a)[0] == OfBody(b)[0];
  }

  lemma SameObservation(a: ObservationData, b: ObservationData)
    requires OfBody(ObservationBody(a)) == OfBody(ObservationBody(b))
    ensures a == b
  {
    hide ListOf, OptionOf, OfMap;
    SourcesDiffer();
    SameItems(OfBody(ObservationBody(a)), OfBody(ObservationBody(b)));
    SameList(a.sourceRefs, b.sourceRefs, OfSource);
    SameText(a.candidateRef, b.candidateRef);
    SameMap(a.rest, b.rest);
  }

  lemma SameHypothesis(a: HypothesisData, b: HypothesisData)
    requires OfBody(HypothesisBody(a)) == OfBody(HypothesisBody(b))
    ensures a == b
  {
    hide ListOf, OptionOf, OfMap, Texts;
    SourcesDiffer();
    BasesDiffer();
    SameItems(OfBody(HypothesisBody(a)), OfBody(HypothesisBody(b)));
    SameList(a.sourceRefs, b.sourceRefs, OfSource);
    SameTexts(a.supportingIds, b.supportingIds);
    SameTexts(a.contradictingIds, b.contradictingIds);
    SameOption(a.basis, b.basis, OfBasis);
    SameMap(a.rest, b.rest);
  }

  lemma SameQuestion(a: QuestionData, b: QuestionData)
    requires OfBody(QuestionBody(a)) == OfBody(QuestionBody(b))
    ensures a == b
  {
    hide ListOf, OptionOf, OfMap;
    EntitiesDiffer();
    SameItems(OfBody(QuestionBody(a)), OfBody(QuestionBody(b)));
    SameText(a.context, b.context);
    SameList(a.related, b.related, OfEntity);
    SameMap(a.rest, b.rest);
  }

  lemma SameIssue(a: IssueData, b: IssueData)
    requires OfBody(IssueBody(a)) == OfBody(IssueBody(b))
    ensures a == b
  {
    hide ListOf, OptionOf, OfMap, Texts;
    TextsDiffer();
    SameItems(OfBody(IssueBody(a)), OfBody(IssueBody(b)));
    SameTexts(a.evidence.observationIds, b.evidence.observationIds);
    SameOption(a.evidence.questionIds, b.evidence.questionIds, Texts);
    SameOption(a.evidence.contradictionIds, b.evidence.contradictionIds, Texts);
    SameText(a.severity, b.severity);
    SameText(a.severityRule, b.severityRule);
    SameMap(a.rest, b.rest);
  }

  lemma SameCandidate(a: CandidateData, b: CandidateData)
    requires OfBody(CandidateBody(a)) == OfBody(CandidateBody(b))
    ensures a == b
  {
    hide ListOf, OptionOf, OfMap, Texts, OfKind;
    TextsDiffer();
    EvidenceDiffers();
    TargetsDiffer();
    SameItems(OfBody(CandidateBody(a)), OfBody(CandidateBody(b)));
    SameKind(a.kind, b.kind);
    SameList(a.evidenceRefs, b.evidenceRefs, OfEvidence);
    SameOption(a.triggerIds, b.triggerIds, Texts);
    SameOption(a.relatedIds, b.relatedIds, Texts);
    SameOption(a.filePaths, b.filePaths, Texts);
    SameOption(a.target, b.target, OfTarget);
    SameText(a.promoted, b.promoted);
    SameMap(a.rest, b.rest);
  }

  lemma SameContradiction(a: ContradictionData, b: ContradictionData)
    requires OfBody(ContradictionBody(a)) == OfBody(ContradictionBody(b))
    ensures a == b
  {
    hide ListOf, OfMap;
    EntitiesDiffer();
    SourcesDiffer();
    SameItems(OfBody(ContradictionBody(a)), OfBody(ContradictionBody(b)));
    SameList(a.conflicting, b.conflicting, OfEntity);
    SameList(a.sourceRefs, b.sourceRefs, OfSource);
    SameMap(a.rest, b.rest);
  }

  lemma SameDecision(a: DecisionData, b: DecisionData)
    requires OfBody(DecisionBody(a)) == OfBody(DecisionBody(b))
    ensures a == b
  {
    hide ListOf, OfMap;
    SourcesDiffer();
    SameItems(OfBody(DecisionBody(a)), OfBody(DecisionBody(b)));
    SameList(a.sourceRefs, b.sourceRefs, OfSource);
    SameMap(a.rest, b.rest);
  }

  lemma SameMapBody(a: Body, b: Body, m: map<string, string>, n: map<string, string>)
    requires OfBody(a) == OfBody(b) && |OfBody(a)| == 2
    requires OfBody(a)[1] == OfMap(m) && OfBody(b)[1] == OfMap(n)
    ensures m == n
  {
    hide OfMap, OfBody;
    SameMap(m, n);
  }

  lemma SameBody(a: Body, b: Body)
    requires OfBody(a) == OfBody(b)
    ensures a == b
  {
    hide ListOf, OptionOf, OfMap, Texts, OfKind;
    SameBodyKind(a, b);
    match (a, b)
    case (ObservationBody(x), ObservationBody(y)) => SameObservation(x, y);
    case (HypothesisBody(x), HypothesisBody(y)) => SameHypothesis(x, y);
    case (QuestionBody(x), QuestionBody(y)) => SameQuestion(x, y);
    case (IssueBody(x), IssueBody(y)) => SameIssue(x, y);
    case (ContradictionBody(x), ContradictionBody(y)) => SameContradiction(x, y);
    case (DecisionBody(x), DecisionBody(y)) => SameDecision(x, y);
    case (CandidateBody(x), CandidateBody(y)) => SameCandidate(x, y);
    case (AuditBody(x), AuditBody(y)) => SameMapBody(a, b, x, y);
    case (TaskBody(x), TaskBody(y)) => SameMapBody(a, b, x, y);
    case (CoverageBody(x), CoverageBody(y)) => SameMapBody(a, b, x, y);
    case _ =>
  }

  /******* Events *******/

  function OfActor(a: Actor): Value {
    match a
    case Worker(id, role) => Array([Number(0), Text(id), OptionOf(role, OfText)])
    case User(id) => Array([Number(1), Text(id), Null])
    case System(id) => Array([Number(2), Text(id), Null])
  }

  lemma ActorsDiffer()
    ensures Injective(OfActor)
  {
    hide OptionOf;
    forall a: Actor, b: Actor | OfActor(a) == OfActor(b) ensures a == b {
      SameItems(OfActor(a).items, OfActor(b).items);
      if a.Worker? && b.Worker? {
        SameText(a.role, b.role);
      }
    }
  }

  function OfAcceptance(a: Acceptance): Value {
    match a
    case NoAcceptance => Null
    case Acceptance(status, at, decidedBy, reason) =>
      Array([Text(status), OptionOf(at, OfText), OptionOf(decidedBy, OfActor), OptionOf(reason, OfText)])
  }

  lemma SameAcceptance(a: Acceptance, b: Acceptance)
    requires OfAcceptance(a) == OfAcceptance(b)
    ensures a == b
  {
    hide OptionOf;
    ActorsDiffer();
    if a.Acceptance? && b.Acceptance? {
      SameItems(OfAcceptance(a).items, OfAcceptance(b).items);
      SameText(a.decidedAt, b.decidedAt);
      SameOption(a.decidedBy, b.decidedBy, OfActor);
      SameText(a.reason, b.reason);
    }
  }

  function OfType(t: EventType): Value {
    match t
    case ObservationProposed => Number(0)
    case ObservationVerified => Number(1)
    case ObservationRejected => Number(2)
    case HypothesisProposed => Number(3)
    case HypothesisSentToVerification => Number(4)
    case HypothesisSupported => Number(5)
    case HypothesisRejected => Number(6)
    case QuestionOpened => Number(7)
    case IssueProposed => Number(8)
    case CandidateProposed => Number(9)
    case CandidatePromoted => Number(10)
    case ContradictionRegistered => Number(11)
    case OtherEvent(name) => Text(name)
  }

  lemma SameType(a: EventType, b: EventType)
    requires OfType(a) == OfType(b)
    ensures a == b
  {
  }

  ghost function OfPayload(p: Payload): Value {
    Array([Text(p.id), OptionOf(p.auditId, OfText), Text(p.status), Array(OfBody(p.body))])
  }

  lemma SamePayload(a: Payload, b: Payload)
    requires OfPayload(a) == OfPayload(b)
    ensures a == b
  {
    hide OptionOf, OfBody;
    SameItems(OfPayload(a).items, OfPayload(b).items);
    SameText(a.auditId, b.auditId);
    SameBody(a.body, b.body);
  }

  // The members of a record, in the order of their names.
  ghost function Members(e: Event): seq<Member> {
    [Member("acceptance", OfAcceptance(e.acceptance)), Member("actor", OfActor(e.actor)),
     Member("audit_id", Text(e.auditId)), Member("caused_by_event_id", OptionOf(e.causedBy, OfText)),
     Member("entity_id", Text(e.entityId)), Member("event_type", OfType(e.eventType)), Member("id", Text(e.id)),
     Member("idempotency_key", Text(e.idempotencyKey)), Member("occurred_at", Text(e.occurredAt)),
     Member("payload", OfPayload(e.payload)), Member("snapshot_ref", OptionOf(e.snapshotRef, OfText))]
  }

  lemma SameEvent(a: Event, b: Event)
    requires Members(a) == Members(b)
    ensures a == b
  {
    hide OptionOf, OfPayload, OfType, OfAcceptance, OfActor;
    ActorsDiffer();
    assert forall i :: 0 <= i < 11 ==> Members(a)[i].value == Members(b)[i].value;
    assert Members(a)[0].value == OfAcceptance(a.acceptance) && Members(a)[9].value == OfPayload(a.payload);
    SameAcceptance(a.acceptance, b.acceptance);
    SameType(a.eventType, b.eventType);
    SamePayload(a.payload, b.payload);
    SameText(a.causedBy, b.causedBy);
    SameText(a.snapshotRef, b.snapshotRef);
  }

  /******* The codec *******/

  lemma {:induction false} LookupAt(members: seq<Member>, i: nat)
    requires i < |members| && forall j :: i < j < |members| ==> members[j].key != members[i].key
    ensures EventStore.Lookup(members, members[i].key) == Some(members[i].value)
    decreases |members|
  {
    var n := |members| - 1;
    if i < n {
      LookupAt(members[..n], i);
    }
  }

  lemma ShowsKeys(e: Event)
    ensures EventStore.Field(Object(Members(e)), "id") == Some(Text(e.id))
    ensures EventStore.Field(Object(Members(e)), "audit_id") == Some(Text(e.auditId))
    ensures EventStore.Field(Object(Members(e)), "idempotency_key") == Some(Text(e.idempotencyKey))
  {
    hide EventStore.Lookup, OptionOf, OfPayload, OfType, OfAcceptance, OfActor;
    var m := Members(e);
    assert |m[3].key| == 18 && |m[4].key| == 9 && |m[5].key| == 10 && |m[7].key| == 15;
    assert |m[8].key| == 11 && m[9].key[0] == 'p' && m[10].key[0] == 's' && |m[2].key| == 8;
    LookupAt(m, 2);
    LookupAt(m, 6);
    LookupAt(m, 7);
  }

  ghost function ReadRecord(v: Value): Option<Event> {
    if e: Event :| Object(Members(e)) == v then Some(e) else None
  }

  lemma ReadsBack(e: Event)
    ensures ReadRecord(Object(Members(e))) == Some(e)
  {
    hide Members;
    var v := Object(Members(e));
    assert ReadRecord(v).Some? && Object(Members(ReadRecord(v).value)) == v;
    SameEvent(ReadRecord(v).value, e);
  }

  // Writing and reading records this way is faithful.
  lemma FaithfulCodecExists() returns (codec: DurableAcceptance.Codec)
    ensures DurableAcceptance.Faithful(codec)
  {
    hide Members, ReadRecord, EventStore.Field;
    codec := DurableAcceptance.Codec((e: Event) => Members(e), (v: Value) => ReadRecord(v));
    forall e: Event
      ensures codec.decode(Object(codec.encode(e))) == Some(e)
      ensures EventStore.Field(Object(codec.encode(e)), "id") == Some(Text(e.id))
      ensures EventStore.Field(Object(codec.encode(e)), "audit_id") == Some(Text(e.auditId))
      ensures EventStore.Field(Object(codec.encode(e)), "idempotency_key") == Some(Text(e.idempotencyKey))
    {
      assert codec.encode(e) == Members(e);
      ReadsBack(e);
      ShowsKeys(e);
    }
  }
}
