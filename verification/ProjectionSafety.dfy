/** When the projection of an audit exists, what it keeps, and what it depends on. */
module ProjectionSafety {
  import opened Wrappers
  import opened Events
  import opened Rules
  import opened Projector
  import opened Validators
  import opened Processing
  import opened AcceptanceSafety
  import opened EvidenceSafety

  ghost predicate AnyState(cfg: Config) {
    forall s :: cfg.stateSchema(s)
  }

  // The first accepted event of an audit is an audit event.
  predicate StartsWithAudit(events: seq<Event>) {
    events == [] || events[0].EntityType().Audit?
  }

  lemma AdmittedApplies(cfg: Config, ledger: seq<Event>, e: Event, s: State)
    requires Admitted(cfg, ledger, e)
    ensures ApplyEvent(s, e).Some?
  {
    hide DuplicateIssues, StoreCheck, ContradictionIssues, Project, PermissionIssues, AllGuardIssues, Permits,
        CurrentStatus;
  }

  lemma {:induction false} LawfulFolds(cfg: Config, ledger: seq<Event>, auditId: string)
    requires Lawful(cfg, ledger)
    ensures Fold(AuditEvents(ledger, auditId)).Some?
    decreases |ledger|
  {
    hide Lawful, Admitted, ApplyEvent;
    if ledger != [] {
      var n := |ledger| - 1;
      LawfulPrefix(cfg, ledger, n);
      LastAdmitted(cfg, ledger);
      LawfulFolds(cfg, ledger[..n], auditId);
      assert ledger == ledger[..n] + [ledger[n]];
      if ledger[n].auditId == auditId && IsAccepted(ledger[n]) {
        ProjectAppend(cfg.stateSchema, ledger[..n], ledger[n]);
        AdmittedApplies(cfg, ledger[..n], ledger[n], Fold(AuditEvents(ledger[..n], auditId)).value);
      } else {
        SkippedEvent(ledger, auditId);
      }
    }
  }

  // Folded events have an audit root exactly when they start with an audit event, and without one
  // they can only be a single event.
  ghost predicate Rooted(events: seq<Event>, s: State) {
    && (s.audit.Some? <==> events != [] && events[0].EntityType().Audit?)
    && (s.audit.None? ==> |events| <= 1)
  }

  lemma RootStep(events: seq<Event>, before: State, e: Event)
    requires Rooted(events, before) && ApplyEvent(before, e).Some?
    requires events != [] ==> before.audit.Some?
    ensures Rooted(events + [e], ApplyEvent(before, e).value)
  {
  }

  lemma {:induction false} RootAppears(cfg: Config, ledger: seq<Event>, auditId: string, s: State)
    requires Lawful(cfg, ledger) && Fold(AuditEvents(ledger, auditId)) == Some(s)
    ensures Rooted(AuditEvents(ledger, auditId), s)
    decreases |ledger|
  {
    hide Lawful, Fold, AuditEvents, Rooted, ApplyEvent;
    if ledger == [] {
      EmptyFold(auditId);
      EmptyIsRooted();
    } else {
      var n := |ledger| - 1;
      var last := ledger[n];
      LawfulPrefix(cfg, ledger, n);
      LastAdmitted(cfg, ledger);
      FoldStepOf(ledger, auditId, s);
      var before := Fold(AuditEvents(ledger[..n], auditId)).value;
      RootAppears(cfg, ledger[..n], auditId, before);
      RootAfter(cfg, ledger, auditId, before, s);
    }
  }

  lemma RootAfter(cfg: Config, ledger: seq<Event>, auditId: string, before: State, s: State)
    requires ledger != [] && Admitted(cfg, ledger[..|ledger| - 1], ledger[|ledger| - 1])
    requires Fold(AuditEvents(ledger[..|ledger| - 1], auditId)) == Some(before)
    requires Fold(AuditEvents(ledger, auditId)) == Some(s)
    requires Rooted(AuditEvents(ledger[..|ledger| - 1], auditId), before)
    ensures Rooted(AuditEvents(ledger, auditId), s)
  {
    hide Admitted, Fold, AuditEvents, Rooted, ApplyEvent;
    var first, last := ledger[..|ledger| - 1], ledger[|ledger| - 1];
    if last.auditId == auditId && IsAccepted(last) {
      assert ledger == first + [last];
      ProjectAppend(cfg.stateSchema, first, last);
      AdmittedNeedsRoot(cfg, first, last);
      RootStep(AuditEvents(first, auditId), before, last);
    } else {
      FoldStepOf(ledger, auditId, s);
      SkippedEvent(ledger, auditId);
    }
  }

  lemma EmptyIsRooted()
    ensures Rooted([], EMPTY_STATE)
  {
  }

  lemma AdmittedNeedsRoot(cfg: Config, ledger: seq<Event>, e: Event)
    requires Admitted(cfg, ledger, e)
    ensures var events := AuditEvents(ledger, e.auditId);
            events != [] ==> Fold(events).Some? && Fold(events).value.audit.Some?
    ensures AuditEvents(ledger, e.auditId) == [] ==> Fold(AuditEvents(ledger, e.auditId)) == Some(EMPTY_STATE)
  {
    hide SchemaIssues, DuplicateIssues, StoreCheck, ContradictionIssues, PermissionIssues, AllGuardIssues, Permits;
  }

  // The state-schema check aside, a reachable ledger projects for an audit if and only if that
  // audit's first event is an audit event; otherwise that one event is all the audit will ever hold.
  lemma ProjectionExistsIff(cfg: Config, ledger: seq<Event>, auditId: string)
    requires Reachable(cfg, ledger) && AnyState(cfg)
    ensures Project(cfg.stateSchema, ledger, auditId).Some? <==> StartsWithAudit(AuditEvents(ledger, auditId))
    ensures Project(cfg.stateSchema, ledger, auditId).None? ==> |AuditEvents(ledger, auditId)| == 1
  {
    hide Reachable, Fold, AuditEvents;
    ReachableIsLawful(cfg, ledger);
    LawfulFolds(cfg, ledger, auditId);
    RootAppears(cfg, ledger, auditId, Fold(AuditEvents(ledger, auditId)).value);
  }

  /******* Dependence *******/

  lemma {:induction false} FilterTwice(ledger: seq<Event>, auditId: string)
    ensures AuditEvents(AuditEvents(ledger, auditId), auditId) == AuditEvents(ledger, auditId)
    decreases |ledger|
  {
    if ledger != [] {
      hide AuditEvents;
      var n := |ledger| - 1;
      var last := ledger[n];
      FilterTwice(ledger[..n], auditId);
      assert ledger == ledger[..n] + [last];
      if last.auditId == auditId && IsAccepted(last) {
        ProjectAppend(_ => true, ledger[..n], last);
        ProjectAppend(_ => true, AuditEvents(ledger[..n], auditId), last);
      } else {
        SkippedEvent(ledger, auditId);
      }
    }
  }

  // An audit's projection depends on that audit's events alone.
  lemma ProjectionDependsOnItsAudit(cfg: Config, ledger: seq<Event>, auditId: string)
    ensures Project(cfg.stateSchema, AuditEvents(ledger, auditId), auditId) == Project(cfg.stateSchema, ledger, auditId)
  {
    FilterTwice(ledger, auditId);
  }

  /******* What is kept *******/

  // Whatever was found in the earlier state is found in the later one.
  ghost predicate Keeps(s: State, s': State) {
    && s.entities.Keys <= s'.entities.Keys
    && (s.audit.Some? ==> s'.audit.Some? && s'.audit.value.id == s.audit.value.id)
  }

  lemma {:induction false} FoldKeeps(ledger: seq<Event>, n: nat, auditId: string, s: State, s': State)
    requires n <= |ledger|
    requires Fold(AuditEvents(ledger[..n], auditId)) == Some(s) && Fold(AuditEvents(ledger, auditId)) == Some(s')
    ensures Keeps(s, s')
    decreases |ledger|
  {
    hide Fold, AuditEvents;
    if n == |ledger| {
      assert ledger[..n] == ledger;
    } else {
      var m := |ledger| - 1;
      FoldStepOf(ledger, auditId, s');
      var before := Fold(AuditEvents(ledger[..m], auditId)).value;
      assert ledger[..m][..n] == ledger[..n];
      FoldKeeps(ledger[..m], n, auditId, s, before);
      FoldAuditId(ledger[..m], auditId, before);
    }
  }

  lemma KeptReferenceResolves(s: State, s': State, r: EntityRef)
    requires Keeps(s, s') && Resolves(s, r)
    ensures Resolves(s', r)
  {
    hide NamedType;
  }

  lemma {:induction false} NoMissingRefs(s: State, refs: seq<EntityRef>, r: EntityRef)
    requires MissingRefs(s, refs) == [] && r in refs
    ensures Resolves(s, r)
    decreases |refs|
  {
    hide Resolves;
    if r != refs[0] {
      NoMissingRefs(s, refs[1..], r);
    }
  }

  // A reachable state keys every entity by its own id and kind and carries its audit's id.
  lemma ReachableStateIsKeyed(cfg: Config, ledger: seq<Event>, auditId: string, s: State)
    requires Project(cfg.stateSchema, ledger, auditId) == Some(s)
    ensures TypedState(s)
    ensures s.audit.Some? ==> s.audit.value.id == auditId
  {
    hide Fold, AuditEvents, TypedState;
    FoldIsTyped(AuditEvents(ledger, auditId), s);
    FoldAuditId(ledger, auditId, s);
  }

  // Every reference that was checked when a contradiction was registered still resolves in the
  // projection of every later ledger.
  lemma ContradictionReferencesPersist(cfg: Config, ledger: seq<Event>, i: nat, r: EntityRef, s: State)
    requires Reachable(cfg, ledger) && i < |ledger|
    requires ledger[i].eventType.ContradictionRegistered? && ledger[i].payload.body.ContradictionBody?
    requires r in ledger[i].payload.body.contradiction.conflicting
    requires Project(cfg.stateSchema, ledger, ledger[i].auditId) == Some(s)
    ensures Resolves(s, r)
  {
    hide Reachable, Fold, AuditEvents, Resolves, Keeps;
    ReachableIsLawful(cfg, ledger);
    var e := ledger[i];
    ContradictionWasChecked(cfg, ledger[..i], e);
    var at := Project(cfg.stateSchema, ledger[..i], e.auditId).value;
    NoMissingRefs(at, e.payload.body.contradiction.conflicting, r);
    FoldKeeps(ledger, i, e.auditId, at, s);
    KeptReferenceResolves(at, s, r);
  }

  lemma ContradictionWasChecked(cfg: Config, ledger: seq<Event>, e: Event)
    requires Admitted(cfg, ledger, e)
    requires e.eventType.ContradictionRegistered? && e.payload.body.ContradictionBody?
    ensures Project(cfg.stateSchema, ledger, e.auditId).Some?
    ensures MissingRefs(Project(cfg.stateSchema, ledger, e.auditId).value, e.payload.body.contradiction.conflicting)
            == []
  {
    hide SchemaIssues, DuplicateIssues, StoreCheck, PermissionIssues, AllGuardIssues, Permits, MissingRefs, Project;
  }
}
