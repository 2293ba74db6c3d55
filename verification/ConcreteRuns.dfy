/** Two concrete runs of the acceptance loop under an excerpt of the shipped rules: one in which
    processing a batch again after a crash does more than going on, and one that closes an issue with
    citations of nothing. */
module ConcreteRuns {
  import opened Wrappers
  import opened Events
  import opened Canonicalization
  import opened Rules
  import opened Projector
  import opened Validators
  import opened Processing
  import opened AcceptanceSafety
  import opened Resubmission
  import opened EvidenceSafety

  const AUDIT_CREATED := OtherEvent("audit.created")
  const AUDIT_UPDATED := OtherEvent("audit.updated")

  // The life of an audit, an observation and an issue as the rule file lists it, with all its guards.
  const RULES: RuleSet := RuleSet(
    map[
      Audit := EntityRules([
        Transition(ABSENT, "initialized", [AUDIT_CREATED]),
        Transition("initialized", "in_progress", [AUDIT_UPDATED])], []),
      Observation := EntityRules([
        Transition(ABSENT, "proposed", [ObservationProposed]),
        Transition("proposed", "verified", [ObservationVerified])], []),
      Issue := EntityRules([
        Transition(ABSENT, "proposed", [IssueProposed]),
        Transition("proposed", "accepted", [ISSUE_ACCEPTED]),
        Transition("accepted", "closed", [ISSUE_CLOSED])], [])],
    map[], SHIPPED_GUARDS)

  function Workplace(env: Env): Config {
    Config(env, RULES, _ => true, _ => true, _ => [])
  }

  function Draft(id: string, t: EventType, entityId: string, status: string, body: Body): Event {
    Event(id, "a", entityId, t, "now", System("cli"), None, id, None,
          Payload(entityId, if body.AuditBody? then None else Some("a"), status, body),
          Acceptance("pending", None, None, None))
  }

  function Decided(e: Event): Event {
    e.(acceptance := Acceptance("accepted", Some(e.occurredAt), Some(SYSTEM_ACCEPTOR), Some(ACCEPTANCE_REASON)))
  }

  /******* One step *******/

  // What all events of these runs have in common.
  predicate Plain(e: Event) {
    && e.auditId == "a" && e.actor.System? && e.causedBy.None? && IsAccepted(e)
    && e.payload.id == e.entityId && (e.EntityType().Audit? || e.EntityType().Observation? || e.EntityType().Issue?)
    && (if e.EntityType().Audit? then e.entityId == "a" else e.payload.auditId == Some("a"))
    && !e.eventType.ContradictionRegistered? && !e.eventType.CandidatePromoted?
  }

  ghost predicate At(ledger: seq<Event>, s: State) {
    Fold(AuditEvents(ledger, "a")) == Some(s) && (ledger == [] || s.audit.Some?)
  }

  // The guards see an issue only when it is proposed or accepted.
  predicate PassesGuards(s: State, e: Event) {
    e.payload.body.IssueBody? ==>
      && e.payload.body.issue.severity.None?
      && (e.eventType == ISSUE_CLOSED ||
          forall id :: id in e.payload.body.issue.evidence.observationIds ==> Cited(s, id))
  }

  predicate Cited(s: State, id: string) {
    Supports(s, id) && s.entities[EntityKey(Observation, id)].body.observation.evidenceClass in SHIPPED_CLASSES
  }

  lemma {:induction false} CitedIsSilent(g: Guard, s: State, ids: seq<string>)
    requires g in SHIPPED_GUARDS && ReadsReferences(g)
    requires forall id :: id in ids ==> Cited(s, id)
    ensures ReferenceIssues(g, s, ids) == []
    decreases |ids|
  {
    hide Cited;
    if ids != [] {
      CitedIsSilent(g, s, ids[1..]);
      OneCited(g, s, ids[0]);
    }
  }

  // What a shipped guard that reads references can be.
  predicate Shipped(g: Guard) {
    && ReadsReferences(g) && g.scope.entityType.Issue? && g.ids.IssueObservations? && g.refType.Observation?
    && g.scope.eventType.Some? && g.scope.eventType.value != ISSUE_CLOSED
    && (g.ReferencedInState? ==> g.required == "verified")
    && (g.ReferencedFieldInSet? ==> g.field.EvidenceClass? && g.allowed == SHIPPED_CLASSES)
  }

  lemma ShippedShape(g: Guard)
    requires g in SHIPPED_GUARDS && ReadsReferences(g)
    ensures Shipped(g)
  {
    var i :| 0 <= i < |SHIPPED_GUARDS| && SHIPPED_GUARDS[i] == g;
    if i < 5 {
      FirstShapes(i);
    } else {
      LastShapes(i);
    }
  }

  lemma FirstShapes(i: nat)
    requires i < 5
    ensures Shipped(SHIPPED_GUARDS[i])
  {
    assert |"issue.accepted"| != |"issue.closed"|;
  }

  lemma LastShapes(i: nat)
    requires 5 <= i < |SHIPPED_GUARDS|
    ensures !ReadsReferences(SHIPPED_GUARDS[i])
  {
  }

  lemma OneCited(g: Guard, s: State, id: string)
    requires g in SHIPPED_GUARDS && ReadsReferences(g) && Cited(s, id)
    ensures ReferenceIssue(g, s, id) == []
  {
    ShippedShape(g);
  }

  lemma OtherShape(g: Guard)
    requires g in SHIPPED_GUARDS && g.FieldDependency?
    ensures g.scope.entityType.Issue? && g.when.Severity?
  {
  }

  lemma GuardPasses(ledger: seq<Event>, s: State, e: Event, g: Guard)
    requires g in SHIPPED_GUARDS && Plain(e) && PassesGuards(s, e)
    ensures GuardIssues(ledger, s, e, g) == [] && !GuardRaises(g, e)
  {
    hide ReferenceIssues, FindEvent, Cited, IsAccepted;
    if ReadsReferences(g) {
      ShippedShape(g);
      if Matches(g.scope, e) {
        CitedIsSilent(g, s, ReadIds(e, g.ids));
      }
    } else if g.FieldDependency? {
      OtherShape(g);
    }
  }

  lemma GuardsPass(ledger: seq<Event>, s: State, e: Event)
    requires Plain(e) && PassesGuards(s, e)
    ensures AllGuardIssues(ledger, s, e, SHIPPED_GUARDS) == [] && !TransitionRaises(RULES, e)
  {
    hide GuardIssues, AllGuardIssues, GuardRaises, PassesGuards;
    forall g | g in SHIPPED_GUARDS ensures GuardIssues(ledger, s, e, g) == [] && !GuardRaises(g, e) {
      GuardPasses(ledger, s, e, g);
    }
    SilentGuards(ledger, s, e, SHIPPED_GUARDS);
  }

  // A step that nothing but the transition matrix could refuse is decided by the matrix.
  lemma MatrixDecides(env: Env, ledger: seq<Event>, s: State, c: Submission, e: Event)
    requires At(ledger, s) && Prepare(env, c) == Ready(e) && Plain(e) && PassesGuards(s, e)
    requires forall i :: 0 <= i < |ledger| ==> !Clash(env, ledger[i], e)
    ensures Decide(Workplace(env), ledger, c)
         == if Permits(RULES, e, CurrentStatus(s, e.EntityType(), e.entityId))
             then Accepted(e) else Rejected([InvalidTransition])
  {
    hide Prepare, Clash, DuplicateIssues, StoreCheck, At, Plain, PassesGuards, Permits, CurrentStatus, Validate;
    NoIssueNoClash(env, ledger, e);
    PassingNeverConflicts(env, ledger, e);
    MatrixVerdict(env, ledger, s, e);
  }

  lemma MatrixVerdict(env: Env, ledger: seq<Event>, s: State, e: Event)
    requires At(ledger, s) && Plain(e) && PassesGuards(s, e) && DuplicateIssues(env, ledger, e) == []
    ensures Validate(Workplace(env), ledger, e)
         == Issues(if Permits(RULES, e, CurrentStatus(s, e.EntityType(), e.entityId)) then [] else [InvalidTransition])
  {
    hide DuplicateIssues, At, PassesGuards, Permits, CurrentStatus, TransitionVerdict, IsAccepted, Project;
    MatrixTransition(env, ledger, s, e);
  }

  lemma MatrixTransition(env: Env, ledger: seq<Event>, s: State, e: Event)
    requires At(ledger, s) && Plain(e) && PassesGuards(s, e)
    ensures TransitionVerdict(Workplace(env), ledger, e)
         == Issues(if Permits(RULES, e, CurrentStatus(s, e.EntityType(), e.entityId)) then [] else [InvalidTransition])
  {
    hide At, PassesGuards, Permits, CurrentStatus, AllGuardIssues, TransitionRaises, Project, ValidationState;
    Projects(env, ledger, s);
    ValidationStateIsProjection(Workplace(env), ledger, "a");
    GuardsPass(ledger, s, e);
  }

  lemma Projects(env: Env, ledger: seq<Event>, s: State)
    requires At(ledger, s)
    ensures Project(Workplace(env).stateSchema, ledger, "a") == Some(s)
  {
    hide Fold;
  }

  lemma NextAt(ledger: seq<Event>, s: State, e: Event)
    requires At(ledger, s) && Plain(e) && (s.audit.Some? || e.EntityType().Audit?)
    ensures ApplyEvent(s, e).Some? && At(ledger + [e], ApplyEvent(s, e).value)
  {
    hide Fold, AuditEvents, IsAccepted;
    ProjectAppend(_ => true, ledger, e);
  }

  lemma NothingAt()
    ensures At([], EMPTY_STATE)
  {
  }

  lemma OtherIsReady(env: Env, e: Event)
    requires e.acceptance.Acceptance? && e.acceptance.status == "pending" && !IsCanonical(e.eventType)
    ensures Prepare(env, Submitted(e)) == Ready(Normalize(env, Decided(e)))
  {
    hide Normalize;
  }

  lemma NoClash(env: Env, a: Event, b: Event)
    requires a.id != b.id && a.idempotencyKey != b.idempotencyKey && a.eventType != b.eventType
    ensures !Clash(env, a, b)
  {
    hide SemanticEquivalent;
  }

  /******* A batch that is processed again *******/

  const STARTED := Draft("e2", AUDIT_UPDATED, "a", "in_progress", AuditBody(map[]))
  const CREATED := Draft("e1", AUDIT_CREATED, "a", "initialized", AuditBody(map[]))

  lemma CreatedIsNotUpdated()
    ensures AUDIT_CREATED != AUDIT_UPDATED && "e1" != "e2"
  {
    assert "audit.created"[6] != "audit.updated"[6];
    assert "e1"[1] != "e2"[1];
  }

  lemma AuditIsReady(env: Env, e: Event)
    requires e == STARTED || e == CREATED
    ensures Prepare(env, Submitted(e)) == Ready(Decided(e)) && Plain(Decided(e))
  {
    hide Prepare;
    OtherIsReady(env, e);
  }

  // What the rules say about the two events.
  lemma AuditTransitions()
    ensures Permits(RULES, Decided(CREATED), ABSENT)
    ensures !Permits(RULES, Decided(STARTED), ABSENT) && Permits(RULES, Decided(STARTED), "initialized")
  {
    assert |"in_progress"| != |"initialized"| + 1;
    assert "in_progress"[2] != "initialized"[2];
    assert ABSENT[0] != "initialized"[0];
    CreatedIsNotUpdated();
    var rules := RULES.entities[Audit].allowed;
    assert rules[1..][0] == rules[1];
    assert FindAllowed(rules[1..], "initialized", "in_progress", AUDIT_UPDATED).Some?;
  }

  // Starting an audit is refused before the audit exists and accepted right after its creation.
  lemma StartComesLate(env: Env)
    ensures var cfg, started, created := Workplace(env), Decided(STARTED), Decided(CREATED);
            && !Decide(cfg, [], Submitted(STARTED)).Accepted?
            && Decide(cfg, [], Submitted(CREATED)) == Accepted(created)
            && Decide(cfg, [created], Submitted(STARTED)) == Accepted(started)
  {
    hide Decide, Prepare, Plain, PassesGuards, Clash, Permits, Workplace, Fold, AuditEvents;
    var started, created := Decided(STARTED), Decided(CREATED);
    AuditIsReady(env, STARTED);
    AuditIsReady(env, CREATED);
    AuditTransitions();
    NothingAt();
    AuditsPass(EMPTY_STATE);
    MatrixDecides(env, [], EMPTY_STATE, Submitted(STARTED), started);
    MatrixDecides(env, [], EMPTY_STATE, Submitted(CREATED), created);
    NextAt([], EMPTY_STATE, created);
    var s := ApplyEvent(EMPTY_STATE, created).value;
    assert [] + [created] == [created];
    CreatedIsNotUpdated();
    NoClash(env, created, started);
    AuditsPass(s);
    MatrixDecides(env, [created], s, Submitted(STARTED), started);
  }

  lemma AuditsPass(s: State)
    ensures PassesGuards(s, Decided(STARTED)) && PassesGuards(s, Decided(CREATED))
  {
  }

  // What was accepted is refused on every longer ledger of the run.
  lemma AcceptedStaysRefused(env: Env)
    ensures var cfg, started, created := Workplace(env), Decided(STARTED), Decided(CREATED);
            && !Decide(cfg, [created], Submitted(CREATED)).Accepted?
            && !Decide(cfg, [created, started], Submitted(CREATED)).Accepted?
            && !Decide(cfg, [created, started], Submitted(STARTED)).Accepted?
  {
    hide Decide, Workplace, Lawful;
    var cfg, started, created := Workplace(env), Decided(STARTED), Decided(CREATED);
    StartComesLate(env);
    EmptyIsLawful(cfg);
    assert [] + [created] == [created] && [created] + [started] == [created, started];
    AcceptedIsLawful(cfg, [], Submitted(CREATED));
    AcceptedIsLawful(cfg, [created], Submitted(STARTED));
    AcceptedOnce(cfg, [], Submitted(CREATED), [created]);
    AcceptedOnce(cfg, [], Submitted(CREATED), [created, started]);
    AcceptedOnce(cfg, [created], Submitted(STARTED), [created, started]);
  }

  lemma EmptyIsLawful(cfg: Config)
    ensures Lawful(cfg, [])
  {
  }

  lemma AcceptedIsLawful(cfg: Config, ledger: seq<Event>, c: Submission)
    requires Lawful(cfg, ledger) && Decide(cfg, ledger, c).Accepted?
    ensures Lawful(cfg, ledger + [Decide(cfg, ledger, c).event])
  {
    hide Decide, Lawful, Admitted;
    AcceptedIsAdmitted(cfg, ledger, c);
    LawfulAppend(cfg, ledger, Decide(cfg, ledger, c).event);
  }

  lemma RunOfTwo(cfg: Config, ledger: seq<Event>, c: Submission, d: Submission)
    ensures var first := After(ledger, Decide(cfg, ledger, c));
            Run(cfg, ledger, [c, d]) == After(first, Decide(cfg, first, d))
  {
    hide Decide;
    assert [c, d][..1] == [c] && [c][..0] == [];
    assert Run(cfg, ledger, [c]) == After(Run(cfg, ledger, []), Decide(cfg, ledger, c));
  }

  // A batch whose first event was refused and would be accepted now: processed again after a crash
  // at its end it adds an event that one uninterrupted call does not add.
  lemma RerunAcceptsMore(env: Env)
    ensures var cfg, cs := Workplace(env), [Submitted(STARTED), Submitted(CREATED)];
            && !StaysTurnedAway(cfg, [], cs, 2)
            && Run(cfg, [], cs) == [Decided(CREATED)]
            && Run(cfg, Run(cfg, [], cs[..2]), cs) == [Decided(CREATED), Decided(STARTED)]
  {
    hide Decide, Workplace, Run;
    var cfg, cs := Workplace(env), [Submitted(STARTED), Submitted(CREATED)];
    var created := Decided(CREATED);
    StartComesLate(env);
    AcceptedStaysRefused(env);
    assert [] + [created] == [created] && [created] + [Decided(STARTED)] == [created, Decided(STARTED)];
    RunOfTwo(cfg, [], cs[0], cs[1]);
    RunOfTwo(cfg, [created], cs[0], cs[1]);
    assert cs[..2] == cs;
    NothingRun(cfg);
    assert cs[..0] == [];
  }

  lemma NothingRun(cfg: Config)
    ensures Run(cfg, [], []) == []
  {
  }

  // Where the batch goes on after the crash the condition is not needed: the rest can make up for it.
  lemma RerunCanCatchUp(env: Env)
    ensures var cfg, cs := Workplace(env), [Submitted(STARTED), Submitted(CREATED), Submitted(STARTED)];
            && !StaysTurnedAway(cfg, [], cs, 2)
            && Run(cfg, Run(cfg, [], cs[..2]), cs) == Run(cfg, [], cs)
  {
    hide Decide, Workplace, StaysTurnedAway, Run;
    var cfg, cs := Workplace(env), [Submitted(STARTED), Submitted(CREATED), Submitted(STARTED)];
    var two := [Submitted(STARTED), Submitted(CREATED)];
    RerunAcceptsMore(env);
    assert two[..2] == two;
    assert cs[..2] == two;
    StartComesLate(env);
    AcceptedStaysRefused(env);
    var created, started := Decided(CREATED), Decided(STARTED);
    assert [created] + [started] == [created, started];
    LastStep(cfg, [], cs);
    LastStep(cfg, [created], cs);
    SamePrefix(cfg, [], cs, two, 2);
  }

  lemma LastStep(cfg: Config, ledger: seq<Event>, cs: seq<Submission>)
    requires |cs| == 3
    ensures var before := Run(cfg, ledger, cs[..2]);
            Run(cfg, ledger, cs) == After(before, Decide(cfg, before, cs[2]))
  {
    hide Decide;
  }

  lemma SamePrefix(cfg: Config, ledger: seq<Event>, cs: seq<Submission>, ds: seq<Submission>, k: nat)
    requires k <= |cs| && k <= |ds| && cs[..k] == ds[..k]
    ensures StaysTurnedAway(cfg, ledger, cs, k) == StaysTurnedAway(cfg, ledger, ds, k)
  {
    hide Decide, Run;
    forall i | 0 <= i < k ensures cs[i] == ds[i] && cs[..i] == ds[..i] {
      assert cs[..k][i] == cs[i] && ds[..k][i] == ds[i];
      assert cs[..k][..i] == cs[..i] && ds[..k][..i] == ds[..i];
    }
  }
}
