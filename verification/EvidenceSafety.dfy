/** Issues cite only verified observations of an allowed evidence class, in every reachable state, as
    long as the guards cover every way an issue can reach a status that matters. */
module EvidenceSafety {
  import opened Wrappers
  import opened Events
  import opened Rules
  import opened Projector
  import opened Validators
  import opened Processing
  import opened AcceptanceSafety
  import opened Resubmission

  // The evidence classes a finding may rest on.
  const FINDING_CLASSES: seq<string> := ["direct_code_fact", "derived_structural_fact", "pattern_match"]

  /******* Hypotheses on the rule file *******/

  predicate Covers(scope: Scope, t: EventType) {
    scope.entityType.Issue? && (scope.eventType.None? || scope.eventType.value == t)
  }

  predicate RequiresVerified(g: Guard, t: EventType) {
    && g.ReferencedInState? && Covers(g.scope, t)
    && g.ids.IssueObservations? && g.refType.Observation? && g.required == "verified"
  }

  predicate RequiresClass(g: Guard, t: EventType) {
    && g.ReferencedFieldInSet? && Covers(g.scope, t)
    && g.ids.IssueObservations? && g.refType.Observation? && g.field.EvidenceClass?
    && forall c :: c in g.allowed ==> c in FINDING_CLASSES
  }

  predicate Guarded(rules: RuleSet, t: EventType) {
    && (exists g :: g in rules.guards && RequiresVerified(g, t))
    && (exists g :: g in rules.guards && RequiresClass(g, t))
  }

  // Whether an issue in this status is looked at: reports leave rejected issues out.
  predicate Looked(all: bool, status: string) {
    all || status != "rejected"
  }

  // Every event type that can bring an issue into a status that is looked at is guarded.
  predicate GuardsCover(rules: RuleSet, all: bool) {
    Issue in rules.entities ==>
      forall tr, t :: tr in rules.entities[Issue].allowed && t in tr.via && Looked(all, tr.to) ==> Guarded(rules, t)
  }

  predicate GuardsCoverIssues(rules: RuleSet) {
    GuardsCover(rules, false)
  }

  // Guards on every issue event, whatever its type, cover all statuses.
  lemma WildcardGuardsCoverAll(rules: RuleSet, g: Guard, h: Guard)
    requires g in rules.guards && h in rules.guards && g.ReferencedInState? && h.ReferencedFieldInSet?
    requires g.scope == Scope(Issue, None) && h.scope == Scope(Issue, None)
    requires g.ids.IssueObservations? && g.refType.Observation? && g.required == "verified"
    requires h.ids.IssueObservations? && h.refType.Observation? && h.field.EvidenceClass?
    requires forall c :: c in h.allowed ==> c in FINDING_CLASSES
    ensures GuardsCover(rules, true) && GuardsCoverIssues(rules)
  {
    forall t: EventType ensures Guarded(rules, t) {
      assert RequiresVerified(g, t) && RequiresClass(h, t);
    }
  }

  predicate VerifiedIsFinal(rules: RuleSet) {
    Observation in rules.entities ==>
      forall tr :: tr in rules.entities[Observation].allowed ==> tr.from != "verified"
  }

  /******* The invariant *******/

  predicate Supports(s: State, id: string) {
    && EntityKey(Observation, id) in s.entities
    && (var o := s.entities[EntityKey(Observation, id)];
        && o.status == "verified"
        && o.body.ObservationBody?
        && o.body.observation.evidenceClass in FINDING_CLASSES)
  }

  predicate WellSupported(s: State, p: Payload) {
    p.body.IssueBody? && forall id :: id in p.body.issue.evidence.observationIds ==> Supports(s, id)
  }

  // Every issue that is looked at is well supported.
  ghost predicate EvidenceOf(s: State, all: bool) {
    forall k :: k in s.entities && k.kind.Issue? && Looked(all, s.entities[k].status) ==>
        WellSupported(s, s.entities[k])
  }

  ghost predicate EvidenceHolds(s: State) {
    EvidenceOf(s, false)
  }

  /******* Silent guards *******/

  lemma {:induction false} SilentGuard(ledger: seq<Event>, s: State, e: Event, guards: seq<Guard>, g: Guard)
    requires AllGuardIssues(ledger, s, e, guards) == [] && g in guards
    ensures GuardIssues(ledger, s, e, g) == []
    decreases |guards|
  {
    hide GuardIssues;
    if g != guards[0] {
      SilentGuard(ledger, s, e, guards[1..], g);
    }
  }

  lemma {:induction false} SilentReference(g: Guard, s: State, ids: seq<string>, id: string)
    requires g.ReferencedExist? || g.ReferencedInState? || g.ReferencedFieldInSet?
    requires ReferenceIssues(g, s, ids) == [] && id in ids
    ensures ReferenceIssue(g, s, id) == []
    decreases |ids|
  {
    hide ReferenceIssue;
    if id != ids[0] {
      SilentReference(g, s, ids[1..], id);
    }
  }

  // An issue event without issues cites only supported observations.
  lemma GuardedIssueIsSupported(cfg: Config, ledger: seq<Event>, s: State, e: Event)
    requires e.payload.body.IssueBody? && Guarded(cfg.rules, e.eventType) && TypedState(s)
    requires AllGuardIssues(ledger, s, e, cfg.rules.guards) == []
    ensures WellSupported(s, e.payload)
  {
    hide AllGuardIssues, ReferenceIssues, ReferenceIssue;
    var g :| g in cfg.rules.guards && RequiresVerified(g, e.eventType);
    var h :| h in cfg.rules.guards && RequiresClass(h, e.eventType);
    SilentGuard(ledger, s, e, cfg.rules.guards, g);
    SilentGuard(ledger, s, e, cfg.rules.guards, h);
    forall id | id in e.payload.body.issue.evidence.observationIds ensures Supports(s, id) {
      SilentReference(g, s, e.payload.body.issue.evidence.observationIds, id);
      SilentReference(h, s, e.payload.body.issue.evidence.observationIds, id);
      BothReferences(g, h, s, id, e.eventType);
    }
  }

  lemma BothReferences(g: Guard, h: Guard, s: State, id: string, t: EventType)
    requires TypedState(s) && RequiresVerified(g, t) && RequiresClass(h, t)
    requires ReferenceIssue(g, s, id) == [] && ReferenceIssue(h, s, id) == []
    ensures Supports(s, id)
  {
  }

  // What is stored under a key is of the key's kind and carries the key's id.
  ghost predicate TypedState(s: State) {
    forall k :: k in s.entities ==> s.entities[k].id == k.id && KindOf(s.entities[k].body) == k.kind
  }

  lemma {:induction false} FoldIsTyped(events: seq<Event>, s: State)
    requires Fold(events) == Some(s)
    ensures TypedState(s)
    decreases |events|
  {
    if events != [] {
      FoldIsTyped(events[..|events| - 1], Fold(events[..|events| - 1]).value);
    }
  }

  /******* Preservation *******/

  lemma SupportKept(s: State, s': State, p: Payload)
    requires WellSupported(s, p)
    requires forall id :: Supports(s, id) ==> Supports(s', id)
    ensures WellSupported(s', p)
  {
  }

  lemma AdmittedKeepsEvidence(cfg: Config, ledger: seq<Event>, e: Event, s: State, all: bool)
    requires GuardsCover(cfg.rules, all) && VerifiedIsFinal(cfg.rules)
    requires Admitted(cfg, ledger, e) && Project(cfg.stateSchema, ledger, e.auditId) == Some(s)
    requires EvidenceOf(s, all) && TypedState(s) && ApplyEvent(s, e).Some?
    ensures EvidenceOf(ApplyEvent(s, e).value, all)
  {
    hide SchemaIssues, DuplicateIssues, StoreCheck, ContradictionIssues, TransitionRaises, PermissionIssues, Project;
    hide AllGuardIssues, Guarded, WellSupported, Supports;
    var s' := ApplyEvent(s, e).value;
    SupportsSurvive(cfg, s, e);
    if e.EntityType().Issue? && Looked(all, e.payload.status) {
      GuardedIssueIsSupported(cfg, ledger, s, e);
    }
    forall k | k in s'.entities && k.kind.Issue? && Looked(all, s'.entities[k].status)
      ensures WellSupported(s', s'.entities[k])
    {
      SupportKept(s, s', s'.entities[k]);
    }
  }

  // A verified observation stays as it is: no admitted event may touch it.
  lemma SupportsSurvive(cfg: Config, s: State, e: Event)
    requires VerifiedIsFinal(cfg.rules) && ApplyEvent(s, e).Some?
    requires Permits(cfg.rules, e, CurrentStatus(s, e.EntityType(), e.entityId))
    ensures forall id :: Supports(s, id) ==> Supports(ApplyEvent(s, e).value, id)
  {
    forall id | Supports(s, id) ensures Supports(ApplyEvent(s, e).value, id) {
      if e.EntityType().Observation? && e.entityId == id {
        assert CurrentStatus(s, Observation, id) == "verified";
      }
    }
  }

  lemma {:induction false} LawfulEvidence(cfg: Config, ledger: seq<Event>, auditId: string, s: State, all: bool)
    requires GuardsCover(cfg.rules, all) && VerifiedIsFinal(cfg.rules)
    requires Lawful(cfg, ledger) && Fold(AuditEvents(ledger, auditId)) == Some(s)
    ensures EvidenceOf(s, all)
    decreases |ledger|
  {
    hide GuardsCover, VerifiedIsFinal, Lawful, Fold, AuditEvents, ApplyEvent, TypedState;
    if ledger == [] {
      EmptyFold(auditId);
    } else {
      var n := |ledger| - 1;
      FoldStepOf(ledger, auditId, s);
      LastAdmitted(cfg, ledger);
      LawfulPrefix(cfg, ledger, n);
      var before := Fold(AuditEvents(ledger[..n], auditId)).value;
      LawfulEvidence(cfg, ledger[..n], auditId, before, all);
      if ledger[n].auditId == auditId && IsAccepted(ledger[n]) {
        FoldIsTyped(AuditEvents(ledger[..n], auditId), before);
        AdmittedKeepsEvidence(cfg, ledger[..n], ledger[n], before, all);
      }
    }
  }

  // In every reachable state, every issue that is not rejected cites only existing, verified
  // observations of an allowed evidence class.
  lemma CitedEvidenceStaysVerified(cfg: Config, ledger: seq<Event>, auditId: string)
    requires GuardsCoverIssues(cfg.rules) && VerifiedIsFinal(cfg.rules) && Reachable(cfg, ledger)
    requires Project(cfg.stateSchema, ledger, auditId).Some?
    ensures EvidenceHolds(Project(cfg.stateSchema, ledger, auditId).value)
  {
    hide GuardsCover, VerifiedIsFinal, Fold, AuditEvents, EvidenceOf, Reachable;
    ReachableIsLawful(cfg, ledger);
    LawfulEvidence(cfg, ledger, auditId, Project(cfg.stateSchema, ledger, auditId).value, false);
  }

  // And so does every issue at all, rejected ones included, when the guards cover those too.
  lemma EveryIssueStaysSupported(cfg: Config, ledger: seq<Event>, auditId: string)
    requires GuardsCover(cfg.rules, true) && VerifiedIsFinal(cfg.rules) && Reachable(cfg, ledger)
    requires Project(cfg.stateSchema, ledger, auditId).Some?
    ensures EvidenceOf(Project(cfg.stateSchema, ledger, auditId).value, true)
  {
    hide GuardsCover, VerifiedIsFinal, Fold, AuditEvents, EvidenceOf, Reachable;
    ReachableIsLawful(cfg, ledger);
    LawfulEvidence(cfg, ledger, auditId, Project(cfg.stateSchema, ledger, auditId).value, true);
  }

  /******* The shipped guards do not cover closing *******/

  const ISSUE_ACCEPTED := OtherEvent("issue.accepted")
  const ISSUE_CLOSED := OtherEvent("issue.closed")
  const SHIPPED_CLASSES: seq<string> := ["direct_code_fact", "derived_structural_fact"]

  // The implemented cross-entity guards of the repository's own rule file.
  const SHIPPED_GUARDS: seq<Guard> := [
    ReferencedExist(Scope(Issue, Some(IssueProposed)), IssueObservations, Observation),
    ReferencedInState(Scope(Issue, Some(IssueProposed)), IssueObservations, Observation, "verified"),
    ReferencedFieldInSet(Scope(Issue, Some(IssueProposed)), IssueObservations, Observation, EvidenceClass,
        SHIPPED_CLASSES),
    ReferencedInState(Scope(Issue, Some(ISSUE_ACCEPTED)), IssueObservations, Observation, "verified"),
    ReferencedFieldInSet(Scope(Issue, Some(ISSUE_ACCEPTED)), IssueObservations, Observation, EvidenceClass,
        SHIPPED_CLASSES),
    FieldDependency(Scope(Issue, None), Severity, SeverityRule),
    ForbiddenPromotion(Hypothesis, Observation),
    ForbiddenPromotion(Hypothesis, Issue),
    ForbiddenPromotion(Candidate, Issue),
    ForbiddenPromotion(Candidate, Observation),
    PromotionPath,
    Unimplemented("referenced_entity_exists_and_valid"),
    Unimplemented("cross_reference_consistency"),
    Unimplemented("conditional_reference_exists"),
    Unimplemented("conditional_reference_in_state")]

  function Citing(e: Event, ids: seq<string>): Event
    requires e.payload.body.IssueBody?
  {
    var i := e.payload.body.issue;
    e.(payload := e.payload.(body := IssueBody(i.(evidence := i.evidence.(observationIds := ids)))))
  }

  predicate ReadsReferences(g: Guard) {
    g.ReferencedExist? || g.ReferencedInState? || g.ReferencedFieldInSet?
  }

  // No guard of this list reads the observations cited by an event of type `t`.
  predicate CitationsUnread(guards: seq<Guard>, t: EventType) {
    forall g :: g in guards && ReadsReferences(g) && Covers(g.scope, t) ==> !g.ids.IssueObservations?
  }

  lemma {:induction false} UnreadCitationsDoNotMatter(
      ledger: seq<Event>, s: State, e: Event, guards: seq<Guard>, ids: seq<string>)
    requires e.payload.body.IssueBody? && CitationsUnread(guards, e.eventType)
    ensures AllGuardIssues(ledger, s, Citing(e, ids), guards) == AllGuardIssues(ledger, s, e, guards)
    decreases |guards|
  {
    hide ReferenceIssues, FindEvent;
    if guards != [] {
      assert forall g :: g in guards[1..] ==> g in guards;
      assert guards[0] in guards;
      UnreadCitationsDoNotMatter(ledger, s, e, guards[1..], ids);
      UnreadGuard(ledger, s, e, guards[0], ids);
    }
  }

  lemma UnreadGuard(ledger: seq<Event>, s: State, e: Event, g: Guard, ids: seq<string>)
    requires e.payload.body.IssueBody? && CitationsUnread([g], e.eventType)
    ensures GuardIssues(ledger, s, Citing(e, ids), g) == GuardIssues(ledger, s, e, g)
  {
    hide ReferenceIssues, FindEvent;
    assert g in [g];
  }

  // With unread citations the transition verdict is the same for every list of observation ids.
  lemma VerdictIgnoresCitations(cfg: Config, ledger: seq<Event>, e: Event, ids: seq<string>)
    requires e.payload.body.IssueBody? && CitationsUnread(cfg.rules.guards, e.eventType)
    ensures TransitionVerdict(cfg, ledger, Citing(e, ids)) == TransitionVerdict(cfg, ledger, e)
  {
    hide AllGuardIssues, ValidationState, CurrentStatus, CitationsUnread, FindAllowed;
    var s := ValidationState(cfg, ledger, e.auditId);
    if s.Some? {
      UnreadCitationsDoNotMatter(ledger, s.value, e, cfg.rules.guards, ids);
      SameRaises(cfg.rules, e, ids);
    }
  }

  lemma SameRaises(rules: RuleSet, e: Event, ids: seq<string>)
    requires e.payload.body.IssueBody? && CitationsUnread(rules.guards, e.eventType)
    ensures TransitionRaises(rules, Citing(e, ids)) == TransitionRaises(rules, e)
  {
    forall g | g in rules.guards ensures GuardRaises(g, Citing(e, ids)) == GuardRaises(g, e) {
    }
  }

  // An issue.closed event with which nothing but its citations could be wrong.
  predicate ClosesCleanly(cfg: Config, ledger: seq<Event>, e: Event) {
    && e.eventType == ISSUE_CLOSED && e.payload.body.IssueBody? && e.causedBy.None?
    && (e.payload.body.issue.severity.Some? ==> e.payload.body.issue.severityRule.Some?)
    && SchemaIssues(cfg, e) == [] && DuplicateIssues(cfg.env, ledger, e) == []
    && cfg.sourceBinding(e) == [] && PermissionIssues(cfg.rules, e) == []
    && (var s := Project(cfg.stateSchema, ledger, e.auditId);
        s.Some? && Permits(cfg.rules, e, CurrentStatus(s.value, Issue, e.entityId)))
  }

  // The shapes of guards that have nothing to say about a closed issue without a cause.
  predicate SilentOnClosing(g: Guard) {
    match g
    case FieldDependency(_, when, needs) => when.Severity? && needs.SeverityRule?
    case PromotionPath => true
    case ForbiddenPromotion(_, _) => true
    case Unimplemented(_) => true
    case _ => g.scope.eventType.Some? && g.scope.eventType.value != ISSUE_CLOSED
  }

  lemma ShippedGuardIsSilent(g: Guard)
    requires g in SHIPPED_GUARDS
    ensures SilentOnClosing(g)
  {
    assert |"issue.accepted"| != |"issue.closed"|;
  }

  lemma NothingToSay(ledger: seq<Event>, s: State, e: Event, g: Guard)
    requires SilentOnClosing(g) && e.eventType == ISSUE_CLOSED && e.payload.body.IssueBody? && e.causedBy.None?
    requires e.payload.body.issue.severity.Some? ==> e.payload.body.issue.severityRule.Some?
    ensures GuardIssues(ledger, s, e, g) == [] && !GuardRaises(g, e)
  {
    hide ReferenceIssues, FindEvent, ReadIds, PromotionIssues;
  }

  lemma {:induction false} SilentGuards(ledger: seq<Event>, s: State, e: Event, guards: seq<Guard>)
    requires forall g :: g in guards ==> GuardIssues(ledger, s, e, g) == []
    ensures AllGuardIssues(ledger, s, e, guards) == []
    decreases |guards|
  {
    hide GuardIssues;
    if guards != [] {
      SilentGuards(ledger, s, e, guards[1..]);
    }
  }

  lemma ShippedGuardsAreSilent(ledger: seq<Event>, s: State, e: Event)
    requires e.eventType == ISSUE_CLOSED && e.payload.body.IssueBody? && e.causedBy.None?
    requires e.payload.body.issue.severity.Some? ==> e.payload.body.issue.severityRule.Some?
    ensures AllGuardIssues(ledger, s, e, SHIPPED_GUARDS) == []
    ensures !exists g :: g in SHIPPED_GUARDS && GuardRaises(g, e)
  {
    hide GuardIssues, AllGuardIssues, GuardRaises;
    forall g | g in SHIPPED_GUARDS ensures GuardIssues(ledger, s, e, g) == [] && !GuardRaises(g, e) {
      ShippedGuardIsSilent(g);
      NothingToSay(ledger, s, e, g);
    }
    SilentGuards(ledger, s, e, SHIPPED_GUARDS);
  }

  lemma CleanClosingVerdict(cfg: Config, ledger: seq<Event>, e: Event)
    requires cfg.rules.guards == SHIPPED_GUARDS && ClosesCleanly(cfg, ledger, e)
    ensures Validate(cfg, ledger, e) == Issues([])
  {
    hide AllGuardIssues, GuardRaises, Project, ValidationState, SchemaIssues, DuplicateIssues, PermissionIssues;
    hide Permits, CurrentStatus;
    var s := Project(cfg.stateSchema, ledger, e.auditId).value;
    ValidationStateIsProjection(cfg, ledger, e.auditId);
    ShippedGuardsAreSilent(ledger, s, e);
    assert Issue in cfg.rules.entities by {
      PermittedTypeIsListed(cfg.rules, e, CurrentStatus(s, Issue, e.entityId));
    }
  }

  lemma PermittedTypeIsListed(rules: RuleSet, e: Event, current: string)
    requires Permits(rules, e, current)
    ensures e.EntityType() in rules.entities
  {
  }

  lemma AcceptedExtendsRun(cfg: Config, ledger: seq<Event>, c: Submission)
    requires Reachable(cfg, ledger) && Decide(cfg, ledger, c).Accepted?
    ensures Reachable(cfg, ledger + [Decide(cfg, ledger, c).event])
  {
    hide Decide;
    var cs :| ledger == Run(cfg, [], cs);
    assert (cs + [c])[..|cs|] == cs;
    assert Run(cfg, [], cs + [c]) == ledger + [Decide(cfg, ledger, c).event];
  }

  // An accepted issue event leaves the invariant standing exactly when it is itself well supported.
  lemma EvidenceKeptIff(s: State, e: Event)
    requires EvidenceHolds(s) && ApplyEvent(s, e).Some?
    requires e.payload.body.IssueBody? && e.payload.status != "rejected"
    ensures EvidenceHolds(ApplyEvent(s, e).value) <==> WellSupported(s, e.payload)
  {
    hide Supports;
    var s' := ApplyEvent(s, e).value;
    var k := EntityKey(Issue, e.entityId);
    assert k in s'.entities && s'.entities[k] == e.payload;
    forall id ensures Supports(s', id) <==> Supports(s, id) {
      ObservationsUntouched(s, e, id);
    }
    forall j | j in s'.entities && j != k ensures j in s.entities && s'.entities[j] == s.entities[j] {
    }
  }

  lemma ObservationsUntouched(s: State, e: Event, id: string)
    requires e.payload.body.IssueBody? && ApplyEvent(s, e).Some?
    ensures Supports(ApplyEvent(s, e).value, id) <==> Supports(s, id)
  {
  }

  // The shipped guards name only proposing and accepting. So an issue.closed submission is accepted
  // whatever it cites, its ledger is reachable, and from a state in which the invariant holds it
  // still holds after closing if and only if the closed issue happens to be well supported.
  lemma ShippedRulesLetClosedIssuesCiteAnything(cfg: Config, ledger: seq<Event>, c: Submission, e: Event)
    requires cfg.rules.guards == SHIPPED_GUARDS && Reachable(cfg, ledger)
    requires Prepare(cfg.env, c) == Ready(e) && ClosesCleanly(cfg, ledger, e)
    ensures Decide(cfg, ledger, c) == Accepted(e) && Reachable(cfg, ledger + [e])
    ensures var before := Project(cfg.stateSchema, ledger, e.auditId).value;
            var after := Fold(AuditEvents(ledger + [e], e.auditId));
            && after == ApplyEvent(before, e) && after.Some?
            && (EvidenceHolds(before) && e.payload.status != "rejected" ==>
                  (EvidenceHolds(after.value) <==> WellSupported(before, e.payload)))
  {
    hide Prepare, Validate, StoreCheck, Reachable, Fold, AuditEvents, EvidenceHolds, WellSupported, DuplicateIssues;
    hide PermissionIssues, Permits, CurrentStatus;
    CleanClosingVerdict(cfg, ledger, e);
    PassingNeverConflicts(cfg.env, ledger, e);
    AcceptedExtendsRun(cfg, ledger, c);
    PreparedIsAccepted(cfg.env, c);
    ProjectAppend(cfg.stateSchema, ledger, e);
    var before := Project(cfg.stateSchema, ledger, e.auditId).value;
    if EvidenceHolds(before) && e.payload.status != "rejected" {
      EvidenceKeptIff(before, e);
    }
  }

  lemma ShippedGuardsLeaveClosingOpen(rules: RuleSet, tr: Transition)
    requires rules.guards == SHIPPED_GUARDS && Issue in rules.entities
    requires tr in rules.entities[Issue].allowed && ISSUE_CLOSED in tr.via && tr.to == "closed"
    ensures !GuardsCoverIssues(rules)
  {
    assert !Guarded(rules, ISSUE_CLOSED);
  }
}
