/** A run of the acceptance loop, under an excerpt of the shipped rules with all their guards, that ends
    with a closed issue that cites an observation nobody ever proposed. */
module UnsupportedClosing {
  import opened Wrappers
  import opened Events
  import opened Ordering
  import opened Canonicalization
  import opened Rules
  import opened Projector
  import opened Validators
  import opened Processing
  import opened Resubmission
  import opened EvidenceSafety
  import opened ConcreteRuns
  import Text
  import ReportSafety
  import ReportOfLedger

  /******* The submissions *******/

  const NO_DETAILS: map<string, string> := map[]
  const CLAIM := ObservationBody(ObservationData("s", "direct_code_fact", [], None, NO_DETAILS))

  function Complaint(ids: seq<string>): Body {
    IssueBody(IssueData("t", "s", Evidence(ids, None, None), None, None, NO_DETAILS))
  }

  const PROPOSED_DRAFT := Draft("e2", ObservationProposed, "o", "proposed", CLAIM)

  // The events as they are stored, each naming the ids that the earlier ones were given.
  function AsStored(env: Env, e: Event): Event {
    match Prepare(env, Submitted(e))
    case Ready(r) => r
    case _ => e
  }

  function ObsId(env: Env): string {
    AsStored(env, PROPOSED_DRAFT).entityId
  }

  function VerifiedDraft(env: Env): Event {
    Draft("e3", ObservationVerified, ObsId(env), "verified", CLAIM)
  }

  function RaisedDraft(env: Env): Event {
    Draft("e4", IssueProposed, "i", "proposed", Complaint([ObsId(env)]))
  }

  function IssueId(env: Env): string {
    AsStored(env, RaisedDraft(env)).entityId
  }

  function AgreedDraft(env: Env): Event {
    Draft("e5", ISSUE_ACCEPTED, IssueId(env), "accepted", Complaint([ObsId(env)]))
  }

  function ClosingDraft(env: Env, cited: string): Event {
    Draft("e6", ISSUE_CLOSED, IssueId(env), "closed", Complaint([cited]))
  }

  /******* What preparing leaves alone *******/

  predicate Pending(e: Event) {
    e.acceptance.Acceptance? && e.acceptance.status == "pending" && !e.eventType.HypothesisSupported?
  }

  // A prepared event but for its ids.
  predicate SameEvent(env: Env, e: Event, r: Event) {
    && r.auditId == e.auditId && r.eventType == e.eventType && r.actor == e.actor && r.causedBy == e.causedBy
    && r.acceptance == Decided(e).acceptance && r.payload.auditId == e.payload.auditId
    && r.payload.status == e.payload.status && r.payload.body == NormalizeBody(env, e.eventType, e.payload.body)
    && (e.payload.id == e.entityId ==> r.payload.id == r.entityId)
  }

  predicate CanonicalIds(r: Event, d: string) {
    && r.id == "event_" + TypeToken(r.eventType) + "_" + d
    && r.idempotencyKey == "semantic:" + TypeToken(r.eventType) + ":" + d
  }

  lemma Prepared(env: Env, e: Event)
    requires Pending(e)
    ensures Prepare(env, Submitted(e)) == Ready(AsStored(env, e)) && SameEvent(env, e, AsStored(env, e))
    ensures IsCanonical(e.eventType) ==> exists d :: CanonicalIds(AsStored(env, e), d)
    ensures !IsCanonical(e.eventType) ==> AsStored(env, e) == Normalize(env, Decided(e))
  {
    hide NormalizeBody, EntityId, EventFingerprint, TypeToken, CanonicalIds;
    if IsCanonical(e.eventType) {
      var n := WithEntityId(env, Normalize(env, Decided(e)));
      var r := WithEventIds(env, n);
      assert Prepare(env, Submitted(e)) == Ready(r);
      IdsAreCanonical(env, n);
    }
  }

  lemma IdsAreCanonical(env: Env, n: Event)
    ensures CanonicalIds(WithEventIds(env, n), env.digest(EventFingerprint(env, n)))
  {
    hide TypeToken, EventFingerprint;
  }

  // A verdict keeps the entity id that it names.
  lemma VerdictKeepsId(env: Env)
    ensures AsStored(env, VerifiedDraft(env)).entityId == ObsId(env)
  {
    hide StorageRefs, Display, ObsId, EventFingerprint;
    var n := Normalize(env, Decided(VerifiedDraft(env)));
    assert EntityId(env, n).None?;
  }

  lemma OtherKeepsId(env: Env, e: Event)
    requires Pending(e) && !IsCanonical(e.eventType)
    ensures AsStored(env, e).entityId == e.entityId && AsStored(env, e).id == e.id
    ensures AsStored(env, e).idempotencyKey == e.idempotencyKey
  {
    hide NormalizeBody;
    Prepared(env, e);
  }

  lemma Bodies(env: Env, t: EventType, ids: seq<string>)
    ensures var b := NormalizeBody(env, t, CLAIM);
            b.ObservationBody? && b.observation.evidenceClass == "direct_code_fact"
    ensures var b := NormalizeBody(env, t, Complaint(ids));
            b.IssueBody? && b.issue.evidence.observationIds == IdList(env, ids) && b.issue.severity.None?
  {
    hide StorageRefs, Display, IdList;
  }

  lemma ListedIds(env: Env, id: string)
    ensures forall x :: x in IdList(env, [id]) <==> x == Display(env, id) && x != ""
  {
    hide Display;
    SortedSetFacts(DisplayAll(env, [id]));
    forall x ensures x in IdList(env, [id]) <==> x == Display(env, id) && x != "" {
      CollectMembers([id], NonBlank(env), x);
      assert id in [id];
    }
  }

  /******* Steps of the run *******/

  ghost predicate Reached(env: Env, ledger: seq<Event>, s: State) {
    Reachable(Workplace(env), ledger) && At(ledger, s) && s.audit.Some?
  }

  ghost predicate NewTo(ledger: seq<Event>, e: Event) {
    forall x :: x in ledger ==> x.id != e.id && x.idempotencyKey != e.idempotencyKey && x.eventType != e.eventType
  }

  lemma NewNeverClashes(env: Env, ledger: seq<Event>, e: Event)
    requires NewTo(ledger, e)
    ensures forall i :: 0 <= i < |ledger| ==> !Clash(env, ledger[i], e)
  {
    hide Clash;
    forall i | 0 <= i < |ledger| ensures !Clash(env, ledger[i], e) {
      NoClash(env, ledger[i], e);
    }
  }

  lemma Take(env: Env, ledger: seq<Event>, s: State, c: Submission, e: Event)
    requires Reached(env, ledger, s) && Prepare(env, c) == Ready(e) && Plain(e) && PassesGuards(s, e)
    requires NewTo(ledger, e) && Permits(RULES, e, CurrentStatus(s, e.EntityType(), e.entityId))
    ensures ApplyEvent(s, e).Some? && Reached(env, ledger + [e], ApplyEvent(s, e).value)
  {
    hide Reachable, Workplace, At, Prepare, Plain, PassesGuards, NewTo, Permits, CurrentStatus, Decide;
    NewNeverClashes(env, ledger, e);
    MatrixDecides(env, ledger, s, c, e);
    AcceptedExtendsRun(Workplace(env), ledger, c);
    NextAt(ledger, s, e);
    AuditStays(s, e);
  }

  lemma AuditStays(s: State, e: Event)
    requires s.audit.Some? && ApplyEvent(s, e).Some?
    ensures ApplyEvent(s, e).value.audit.Some?
  {
  }

  lemma Created(env: Env) returns (s: State)
    ensures s.audit.Some? && s.entities == map[] && Reached(env, [Decided(CREATED)], s)
  {
    hide Workplace, Decide, At, Prepare;
    var cfg, e := Workplace(env), Decided(CREATED);
    StartComesLate(env);
    NothingReached(cfg);
    AcceptedExtendsRun(cfg, [], Submitted(CREATED));
    assert [] + [e] == [e];
    NothingAt();
    AuditIsReady(env, CREATED);
    NextAt([], EMPTY_STATE, e);
    s := ApplyEvent(EMPTY_STATE, e).value;
  }

  lemma NothingReached(cfg: Config)
    ensures Reachable(cfg, [])
  {
    assert Run(cfg, [], []) == [];
  }

  lemma StoredIsPlain(env: Env, e: Event)
    requires Pending(e) && e.auditId == "a" && e.actor.System? && e.causedBy.None? && e.payload.id == e.entityId
    requires e.payload.auditId == Some("a")
    requires e.payload.body == CLAIM || exists ids :: e.payload.body == Complaint(ids)
    requires !e.eventType.ContradictionRegistered? && !e.eventType.CandidatePromoted?
    ensures Plain(AsStored(env, e)) && AsStored(env, e).EntityType() == e.EntityType()
  {
    hide NormalizeBody, AsStored, Complaint;
    Prepared(env, e);
    if e.payload.body == CLAIM {
      Bodies(env, e.eventType, []);
    } else {
      var ids :| e.payload.body == Complaint(ids);
      Bodies(env, e.eventType, ids);
      KindOfComplaint(ids);
    }
  }

  lemma KindOfComplaint(ids: seq<string>)
    ensures Complaint(ids).IssueBody?
  {
  }

  /******* Transitions *******/

  lemma ObservationTransitions(e: Event)
    requires e.EntityType().Observation?
    ensures e.eventType.ObservationProposed? && e.payload.status == "proposed" ==> Permits(RULES, e, ABSENT)
    ensures e.eventType.ObservationVerified? && e.payload.status == "verified" ==> Permits(RULES, e, "proposed")
  {
    var rules := RULES.entities[Observation].allowed;
    assert rules[1..][0] == rules[1];
    assert FindAllowed(rules[1..], "proposed", "verified", ObservationVerified).Some?;
  }

  lemma IssueTransitions(e: Event)
    requires e.EntityType().Issue?
    ensures e.eventType.IssueProposed? && e.payload.status == "proposed" ==> Permits(RULES, e, ABSENT)
    ensures e.eventType == ISSUE_ACCEPTED && e.payload.status == "accepted" ==> Permits(RULES, e, "proposed")
    ensures e.eventType == ISSUE_CLOSED && e.payload.status == "closed" ==> Permits(RULES, e, "accepted")
  {
    var rules := RULES.entities[Issue].allowed;
    assert rules[1..][0] == rules[1] && rules[1..][1..][0] == rules[2];
    assert FindAllowed(rules[1..][1..], "accepted", "closed", ISSUE_CLOSED).Some?;
    assert FindAllowed(rules[1..], "proposed", "accepted", ISSUE_ACCEPTED).Some?;
    assert FindAllowed(rules[1..], "accepted", "closed", ISSUE_CLOSED).Some?;
  }

  /******* All ids differ *******/

  ghost predicate Apart(a: Event, b: Event) {
    a.id != b.id && a.idempotencyKey != b.idempotencyKey && a.eventType != b.eventType
  }

  // Two drafts that keep their own two-letter ids.
  predicate ShortIds(e: Event) {
    |e.id| == 2 && e.idempotencyKey == e.id && e.eventType.OtherEvent?
  }

  ghost predicate LongIds(e: Event) {
    (e.eventType.ObservationProposed? || e.eventType.ObservationVerified? || e.eventType.IssueProposed?)
    && exists d :: CanonicalIds(e, d)
  }

  lemma ShortApart(a: Event, b: Event)
    requires ShortIds(a) && ShortIds(b) && a.id[1] != b.id[1] && a.eventType != b.eventType
    ensures Apart(a, b)
  {
  }

  lemma ShortFromLong(a: Event, b: Event)
    requires ShortIds(a) && LongIds(b)
    ensures Apart(a, b) && Apart(b, a)
  {
    var d :| CanonicalIds(b, d);
    assert |b.id| > 2 && |b.idempotencyKey| > 2;
  }

  lemma LongApart(a: Event, b: Event)
    requires LongIds(a) && LongIds(b) && a.eventType != b.eventType
    ensures Apart(a, b)
  {
    var c :| CanonicalIds(a, c);
    var d :| CanonicalIds(b, d);
    hide LongIds;
    IdAt(a, c);
    IdAt(b, d);
  }

  // Where the ids of the three kinds differ.
  lemma IdAt(e: Event, d: string)
    requires CanonicalIds(e, d)
    ensures e.eventType.IssueProposed? ==>
            |e.id| > 18 && e.id[6] == 'i' && |e.idempotencyKey| > 21 && e.idempotencyKey[9] == 'i'
    ensures e.eventType.ObservationProposed? ==>
              && |e.id| > 18 && e.id[6] == 'o' && e.id[18] == 'p'
              && |e.idempotencyKey| > 21 && e.idempotencyKey[9] == 'o' && e.idempotencyKey[21] == 'p'
    ensures e.eventType.ObservationVerified? ==>
              && |e.id| > 18 && e.id[6] == 'o' && e.id[18] == 'v'
              && |e.idempotencyKey| > 21 && e.idempotencyKey[9] == 'o' && e.idempotencyKey[21] == 'v'
  {
  }

  lemma ApartMeansNew(ledger: seq<Event>, e: Event)
    requires forall x :: x in ledger ==> Apart(x, e)
    ensures NewTo(ledger, e)
  {
  }

  /******* The events of the run *******/

  // An issue event of the run that cites this one id.
  predicate Cites(env: Env, e: Event, id: string) {
    && Plain(e) && e.payload.body.IssueBody? && e.payload.body.issue.severity.None?
    && e.payload.body.issue.evidence.observationIds == IdList(env, [id])
  }

  lemma ProposedFacts(env: Env)
    ensures var e := AsStored(env, PROPOSED_DRAFT);
            Plain(e) && e.EntityType().Observation? && e.entityId == ObsId(env) && e.payload.status == "proposed"
            && e.eventType.ObservationProposed? && LongIds(e) && Prepare(env, Submitted(PROPOSED_DRAFT)) == Ready(e)
  {
    hide AsStored, NormalizeBody, Plain, CanonicalIds, Prepare;
    StoredIsPlain(env, PROPOSED_DRAFT);
    Prepared(env, PROPOSED_DRAFT);
  }

  lemma VerifiedFacts(env: Env)
    ensures var e := AsStored(env, VerifiedDraft(env));
            Plain(e) && e.payload.body.ObservationBody? && e.entityId == ObsId(env) && e.payload.status == "verified"
            && e.eventType.ObservationVerified? && e.payload.body.observation.evidenceClass == "direct_code_fact"
            && LongIds(e) && Prepare(env, Submitted(VerifiedDraft(env))) == Ready(e)
  {
    hide AsStored, NormalizeBody, Plain, CanonicalIds, Prepare, ObsId;
    var e := VerifiedDraft(env);
    VerdictKeepsId(env);
    StoredIsPlain(env, e);
    Prepared(env, e);
    Bodies(env, ObservationVerified, []);
  }

  lemma CitingFacts(env: Env, e: Event, id: string)
    requires Pending(e) && e.auditId == "a" && e.actor.System? && e.causedBy.None? && e.payload.id == e.entityId
    requires e.payload.body == Complaint([id]) && e.payload.auditId == Some("a")
    requires !e.eventType.ContradictionRegistered? && !e.eventType.CandidatePromoted?
    ensures Cites(env, AsStored(env, e), id) && AsStored(env, e).payload.status == e.payload.status
  {
    hide AsStored, NormalizeBody, Plain, Complaint, IdList;
    StoredIsPlain(env, e);
    Prepared(env, e);
    Bodies(env, e.eventType, [id]);
  }

  lemma RaisedFacts(env: Env)
    ensures var e := AsStored(env, RaisedDraft(env));
            Cites(env, e, ObsId(env)) && e.payload.status == "proposed" && e.eventType.IssueProposed?
            && e.entityId == IssueId(env) && LongIds(e) && Prepare(env, Submitted(RaisedDraft(env))) == Ready(e)
  {
    hide AsStored, NormalizeBody, Cites, Complaint, CanonicalIds, Prepare, ObsId;
    KindOfComplaint([ObsId(env)]);
    CitingFacts(env, RaisedDraft(env), ObsId(env));
    Prepared(env, RaisedDraft(env));
  }

  lemma AgreedFacts(env: Env)
    ensures var e := AsStored(env, AgreedDraft(env));
            Cites(env, e, ObsId(env)) && e.payload.status == "accepted" && e.eventType == ISSUE_ACCEPTED
            && e.entityId == IssueId(env) && ShortIds(e) && e.id == "e5"
            && Prepare(env, Submitted(AgreedDraft(env))) == Ready(e)
  {
    hide AsStored, NormalizeBody, Cites, Complaint, Prepare, ObsId, IssueId;
    KindOfComplaint([ObsId(env)]);
    CitingFacts(env, AgreedDraft(env), ObsId(env));
    Prepared(env, AgreedDraft(env));
    OtherKeepsId(env, AgreedDraft(env));
  }

  lemma ClosingFacts(env: Env, cited: string)
    ensures var e := AsStored(env, ClosingDraft(env, cited));
            Cites(env, e, cited) && e.payload.status == "closed" && e.eventType == ISSUE_CLOSED
            && e.entityId == IssueId(env) && ShortIds(e) && e.id == "e6"
            && Prepare(env, Submitted(ClosingDraft(env, cited))) == Ready(e)
  {
    hide AsStored, NormalizeBody, Cites, Complaint, Prepare, IssueId;
    KindOfComplaint([cited]);
    CitingFacts(env, ClosingDraft(env, cited), cited);
    Prepared(env, ClosingDraft(env, cited));
    OtherKeepsId(env, ClosingDraft(env, cited));
  }

  /******* The run *******/

  // An observation that is the only entity.
  lemma ObservationRun(env: Env) returns (ledger: seq<Event>, s: State)
    ensures ledger == [Decided(CREATED), AsStored(env, PROPOSED_DRAFT), AsStored(env, VerifiedDraft(env))]
    ensures Reached(env, ledger, s)
    ensures s.entities == map[EntityKey(Observation, ObsId(env)) := AsStored(env, VerifiedDraft(env)).payload]
  {
    hide AsStored, VerifiedDraft, ObsId, Reached, Plain, PassesGuards, LongIds, NewTo, Permits, CurrentStatus, Prepare;
    var e1, e2, e3 := Decided(CREATED), AsStored(env, PROPOSED_DRAFT), AsStored(env, VerifiedDraft(env));
    var s1 := Created(env);
    ProposedFacts(env);
    VerifiedFacts(env);
    ObservationsAreNew(env);
    ObservationTransitions(e2);
    ObservationTransitions(e3);
    Absent(s1, Observation, ObsId(env));
    NoIssueNoGuards(s1, e2);
    Take(env, [e1], s1, Submitted(PROPOSED_DRAFT), e2);
    var s2 := ApplyEvent(s1, e2).value;
    Applied(s1, e2);
    NoIssueNoGuards(s2, e3);
    Take(env, [e1] + [e2], s2, Submitted(VerifiedDraft(env)), e3);
    s := ApplyEvent(s2, e3).value;
    Applied(s2, e3);
    ledger := [e1] + [e2] + [e3];
  }

  lemma ObservationsAreNew(env: Env)
    ensures var e1, e2, e3 := Decided(CREATED), AsStored(env, PROPOSED_DRAFT), AsStored(env, VerifiedDraft(env));
            NewTo([e1], e2) && NewTo([e1] + [e2], e3)
  {
    hide AsStored, VerifiedDraft, ObsId, Plain, LongIds, ShortIds, NewTo, Apart, Prepare;
    var e1, e2, e3 := Decided(CREATED), AsStored(env, PROPOSED_DRAFT), AsStored(env, VerifiedDraft(env));
    CreatedIsShort();
    ProposedFacts(env);
    VerifiedFacts(env);
    ShortFromLong(e1, e2);
    ShortFromLong(e1, e3);
    LongApart(e2, e3);
    ApartMeansNew([e1], e2);
    ApartMeansNew([e1] + [e2], e3);
  }

  lemma CreatedIsShort()
    ensures ShortIds(Decided(CREATED)) && Decided(CREATED).id == "e1" && Decided(CREATED).eventType == AUDIT_CREATED
  {
  }

  lemma NoIssueNoGuards(s: State, e: Event)
    requires e.EntityType().Observation?
    ensures PassesGuards(s, e)
  {
  }

  // The entity of an event after it, as the rules look it up.
  lemma Applied(s: State, e: Event)
    requires ApplyEvent(s, e).Some? && Plain(e) && !e.EntityType().Audit?
    ensures var after := ApplyEvent(s, e).value; var k := EntityKey(e.EntityType(), e.entityId);
            after.entities == s.entities[k := e.payload] && CurrentStatus(after, k.kind, k.id) == e.payload.status
  {
  }

  lemma Absent(s: State, kind: EntityType, id: string)
    requires !kind.Audit? && EntityKey(kind, id) !in s.entities
    ensures CurrentStatus(s, kind, id) == ABSENT
  {
  }

  // Normalising display text leaves the observation's id alone.
  predicate PlainId(env: Env) {
    Display(env, ObsId(env)) == ObsId(env)
  }

  // The observation of the run is verified and nothing else is.
  ghost predicate OneClaim(env: Env, s: State) {
    && EntityKey(Observation, ObsId(env)) in s.entities
    && s.entities[EntityKey(Observation, ObsId(env))] == AsStored(env, VerifiedDraft(env)).payload
    && forall k :: k in s.entities && k.kind.Observation? ==> k.id == ObsId(env)
  }

  lemma ClaimSupports(env: Env, s: State, id: string)
    requires OneClaim(env, s)
    ensures Cited(s, ObsId(env)) && (Supports(s, id) ==> id == ObsId(env))
  {
    hide AsStored, ObsId, VerifiedDraft;
    VerifiedFacts(env);
  }

  lemma CitingPasses(env: Env, s: State, e: Event)
    requires PlainId(env) && OneClaim(env, s) && Cites(env, e, ObsId(env))
    ensures PassesGuards(s, e) && WellSupported(s, e.payload)
  {
    hide AsStored, ObsId, VerifiedDraft, OneClaim, IdList, Plain, Cited, Supports;
    ListedIds(env, ObsId(env));
    ClaimSupports(env, s, ObsId(env));
    CitedSupports(s, ObsId(env));
  }

  lemma CitedSupports(s: State, id: string)
    ensures Cited(s, id) ==> Supports(s, id)
  {
  }

  // The issue is proposed and accepted with the one observation as its evidence.
  lemma IssueRun(env: Env) returns (ledger: seq<Event>, s: State)
    requires PlainId(env)
    ensures ledger == [Decided(CREATED), AsStored(env, PROPOSED_DRAFT), AsStored(env, VerifiedDraft(env)),
                       AsStored(env, RaisedDraft(env)), AsStored(env, AgreedDraft(env))]
    ensures Reached(env, ledger, s) && OneClaim(env, s) && EvidenceHolds(s)
    ensures CurrentStatus(s, Issue, IssueId(env)) == "accepted"
  {
    hide AsStored, RaisedDraft, AgreedDraft, VerifiedDraft, ObsId, IssueId, Reached, Plain, PassesGuards, LongIds,
        ShortIds, NewTo, Apart, Permits, OneClaim, WellSupported, EvidenceHolds, CurrentStatus;
    var three, s3 := ObservationRun(env);
    var e4, e5 := AsStored(env, RaisedDraft(env)), AsStored(env, AgreedDraft(env));
    RaisedFacts(env);
    AgreedFacts(env);
    IssuesAreNew(env, three);
    StartsWithClaim(env, s3);
    Absent(s3, Issue, IssueId(env));
    var s4 := OneIssueStep(env, three, s3, RaisedDraft(env), e4, ABSENT);
    s := OneIssueStep(env, three + [e4], s4, AgreedDraft(env), e5, "proposed");
    ledger := three + [e4] + [e5];
  }

  lemma OneIssueStep(env: Env, ledger: seq<Event>, s: State, draft: Event, e: Event,
      current: string) returns (after: State)
    requires PlainId(env) && Reached(env, ledger, s) && OneClaim(env, s) && EvidenceHolds(s) && NewTo(ledger, e)
    requires Prepare(env, Submitted(draft)) == Ready(e) && Cites(env, e, ObsId(env)) && e.entityId == IssueId(env)
    requires CurrentStatus(s, Issue, IssueId(env)) == current
    requires if current == ABSENT then e.eventType.IssueProposed? && e.payload.status == "proposed"
             else current == "proposed" && e.eventType == ISSUE_ACCEPTED && e.payload.status == "accepted"
    ensures Reached(env, ledger + [e], after) && OneClaim(env, after) && EvidenceHolds(after)
    ensures CurrentStatus(after, Issue, IssueId(env)) == e.payload.status
  {
    hide AsStored, ObsId, IssueId, Reached, Plain, PassesGuards, NewTo, Permits, OneClaim, WellSupported,
        EvidenceHolds, CurrentStatus, IdList, Prepare, PlainId;
    CitingPasses(env, s, e);
    IssueTransitions(e);
    Take(env, ledger, s, Submitted(draft), e);
    after := ApplyEvent(s, e).value;
    Applied(s, e);
    EvidenceKeptIff(s, e);
    IssueKeepsClaim(env, s, e);
  }

  lemma IssueKeepsClaim(env: Env, s: State, e: Event)
    requires OneClaim(env, s) && e.payload.body.IssueBody? && ApplyEvent(s, e).Some?
    ensures OneClaim(env, ApplyEvent(s, e).value)
  {
    hide AsStored, ObsId, VerifiedDraft;
  }

  lemma StartsWithClaim(env: Env, s: State)
    requires s.entities == map[EntityKey(Observation, ObsId(env)) := AsStored(env, VerifiedDraft(env)).payload]
    ensures OneClaim(env, s) && EvidenceHolds(s) && EntityKey(Issue, IssueId(env)) !in s.entities
  {
    hide AsStored, ObsId, VerifiedDraft, IssueId;
  }

  lemma IssuesAreNew(env: Env, three: seq<Event>)
    requires three == [Decided(CREATED), AsStored(env, PROPOSED_DRAFT), AsStored(env, VerifiedDraft(env))]
    ensures var e4, e5 := AsStored(env, RaisedDraft(env)), AsStored(env, AgreedDraft(env));
            NewTo(three, e4) && NewTo(three + [e4], e5)
  {
    hide AsStored, RaisedDraft, AgreedDraft, VerifiedDraft, ObsId, IssueId, LongIds, ShortIds, NewTo, Apart, Cites,
        Plain, Prepare;
    var e1, e2, e3 := three[0], three[1], three[2];
    var e4, e5 := AsStored(env, RaisedDraft(env)), AsStored(env, AgreedDraft(env));
    CreatedIsShort();
    ProposedFacts(env);
    VerifiedFacts(env);
    RaisedFacts(env);
    AgreedFacts(env);
    ShortFromLong(e1, e4);
    LongApart(e2, e4);
    LongApart(e3, e4);
    ApartMeansNew(three, e4);
    ShortsApart();
    ShortApart(e1, e5);
    ShortFromLong(e5, e2);
    ShortFromLong(e5, e3);
    ShortFromLong(e5, e4);
    ApartMeansNew(three + [e4], e5);
  }

  lemma ShortsApart()
    ensures "e1"[1] != "e5"[1] && "e1"[1] != "e6"[1] && "e5"[1] != "e6"[1]
    ensures AUDIT_CREATED != ISSUE_ACCEPTED && AUDIT_CREATED != ISSUE_CLOSED && ISSUE_ACCEPTED != ISSUE_CLOSED
  {
    assert "audit.created"[0] != "issue.accepted"[0] && "audit.created"[0] != "issue.closed"[0];
    assert "issue.accepted"[6] != "issue.closed"[6];
  }

  lemma ClosingIsNew(env: Env, cited: string, five: seq<Event>)
    requires five == [Decided(CREATED), AsStored(env, PROPOSED_DRAFT), AsStored(env, VerifiedDraft(env)),
                      AsStored(env, RaisedDraft(env)), AsStored(env, AgreedDraft(env))]
    ensures NewTo(five, AsStored(env, ClosingDraft(env, cited)))
  {
    hide AsStored, RaisedDraft, AgreedDraft, VerifiedDraft, ClosingDraft, ObsId, IssueId, LongIds, ShortIds, NewTo,
        Apart, Cites, Plain, Prepare;
    var e := AsStored(env, ClosingDraft(env, cited));
    CreatedIsShort();
    ProposedFacts(env);
    VerifiedFacts(env);
    RaisedFacts(env);
    AgreedFacts(env);
    ClosingFacts(env, cited);
    ShortsApart();
    ShortApart(five[0], e);
    ShortFromLong(e, five[1]);
    ShortFromLong(e, five[2]);
    ShortFromLong(e, five[3]);
    ShortApart(five[4], e);
    ApartMeansNew(five, e);
  }

  /******* The closing event *******/

  lemma ClosesHere(env: Env, ledger: seq<Event>, s: State, cited: string)
    requires Reached(env, ledger, s) && NewTo(ledger, AsStored(env, ClosingDraft(env, cited)))
    requires CurrentStatus(s, Issue, IssueId(env)) == "accepted"
    ensures ClosesCleanly(Workplace(env), ledger, AsStored(env, ClosingDraft(env, cited)))
  {
    hide AsStored, ClosingDraft, IssueId, Fold, AuditEvents, NewTo, Permits, CurrentStatus, DuplicateIssues, Clash,
        Reachable, IdList, Prepare;
    var e := AsStored(env, ClosingDraft(env, cited));
    ClosingFacts(env, cited);
    IssueTransitions(e);
    NewNeverClashes(env, ledger, e);
    NoIssueNoClash(env, ledger, e);
    Projects(env, ledger, s);
  }

  // For every environment that leaves the observation's id alone, and every text that is neither blank
  // nor that id: a run of six accepted events in which the invariant holds until the last one, which
  // closes an issue that cites this text, and after which no report can be built.
  lemma IssueClosesOnNothing(env: Env, cited: string) returns (ledger: seq<Event>, e: Event)
    requires PlainId(env) && Display(env, cited) != "" && Display(env, cited) != ObsId(env)
    ensures var cfg, c := Workplace(env), Submitted(ClosingDraft(env, cited));
            && cfg.rules.guards == SHIPPED_GUARDS && Reachable(cfg, ledger) && |ledger| == 5
            && Prepare(env, c) == Ready(e) && ClosesCleanly(cfg, ledger, e)
            && Project(cfg.stateSchema, ledger, "a").Some? && EvidenceHolds(Project(cfg.stateSchema, ledger, "a").value)
            && Decide(cfg, ledger, c) == Accepted(e) && Reachable(cfg, ledger + [e])
            && Fold(AuditEvents(ledger + [e], "a")).Some?
            && !EvidenceHolds(Fold(AuditEvents(ledger + [e], "a")).value)
            && ReportSafety.Compile(Fold(AuditEvents(ledger + [e], "a")).value).Failure?
  {
    hide AsStored, RaisedDraft, AgreedDraft, VerifiedDraft, ClosingDraft, ObsId, IssueId, OneClaim, EvidenceHolds,
        WellSupported, CurrentStatus, NewTo, Fold, AuditEvents, ClosesCleanly, Reachable, Decide, Prepare,
        ReportSafety.Compile, PlainId, Display, ApplyEvent, Cites;
    var cfg, c := Workplace(env), Submitted(ClosingDraft(env, cited));
    var s;
    ledger, s := IssueRun(env);
    e := AsStored(env, ClosingDraft(env, cited));
    ClosingFacts(env, cited);
    ClosingIsNew(env, cited, ledger);
    ClosesHere(env, ledger, s, cited);
    Projects(env, ledger, s);
    NothingSupports(env, s, e, cited);
    ClosedIsNotRejected(e);
    ShippedRulesLetClosedIssuesCiteAnything(cfg, ledger, c, e);
    ReportOfLedger.UnsupportedClosingStopsReports(cfg, ledger, c, e);
  }

  lemma ClosedIsNotRejected(e: Event)
    requires e.payload.status == "closed"
    ensures e.payload.status != "rejected"
  {
    assert |"closed"| != |"rejected"|;
  }

  lemma NothingSupports(env: Env, s: State, e: Event, cited: string)
    requires OneClaim(env, s) && Cites(env, e, cited) && Display(env, cited) != "" && Display(env, cited) != ObsId(env)
    ensures !WellSupported(s, e.payload) && e.auditId == "a"
  {
    hide AsStored, ObsId, Display, IdList, OneClaim, Supports;
    ListedIds(env, cited);
    ClaimSupports(env, s, Display(env, cited));
    assert Display(env, cited) in e.payload.body.issue.evidence.observationIds;
  }

  // Such environments exist: texts that are normal already, and digests without whitespace.
  lemma PlainIdsExist(env: Env)
    requires (forall s :: env.nfkc(s) == s) && forall f :: Text.NoSpace(env.digest(f))
    ensures PlainId(env)
  {
    hide Text.Words, Text.NoSpace, EventFingerprint, EntityFingerprint, NormalizeBody;
    ProposedFacts(env);
    var id := ObsId(env);
    IdShape(env);
    Text.WordsOfJoin([id]);
  }

  lemma IdShape(env: Env)
    requires forall f :: Text.NoSpace(env.digest(f))
    ensures ObsId(env) != "" && Text.NoSpace(ObsId(env))
  {
    hide Text.NoSpace, EventFingerprint, EntityFingerprint, StorageRefs, Display;
    var n := Normalize(env, Decided(PROPOSED_DRAFT));
    var d := env.digest(EntityFingerprint(n, SemanticOf(env, n)));
    assert EntityId(env, n) == Some("obs_" + d);
    assert Text.NoSpace("obs_" + d) by {
      PrefixNoSpace(d);
    }
  }

  lemma PrefixNoSpace(d: string)
    requires Text.NoSpace(d)
    ensures Text.NoSpace("obs_" + d)
  {
  }
}
