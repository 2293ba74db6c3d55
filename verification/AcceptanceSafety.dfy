/** Safety over every run of the acceptance loop. */
module AcceptanceSafety {
  import opened Wrappers
  import opened Events
  import opened Canonicalization
  import opened Rules
  import opened Projector
  import opened Validators
  import opened Processing

  /******* What an acceptance guarantees *******/

  // The conditions under which one event was appended to one ledger.
  ghost predicate Admitted(cfg: Config, ledger: seq<Event>, e: Event) {
    && IsAccepted(e)
    && SchemaIssues(cfg, e) == []
    && DuplicateIssues(cfg.env, ledger, e) == []
    && StoreCheck(ledger, e) == Fresh
    && !TransitionRaises(cfg.rules, e)
    && ContradictionIssues(cfg, ledger, e) == []
    && (var s := Project(cfg.stateSchema, ledger, e.auditId);
        && s.Some?
        && PermissionIssues(cfg.rules, e) == []
        && Permits(cfg.rules, e, CurrentStatus(s.value, e.EntityType(), e.entityId))
        && AllGuardIssues(ledger, s.value, e, cfg.rules.guards) == [])
  }

  lemma ValidationStateIsProjection(cfg: Config, ledger: seq<Event>, auditId: string)
    ensures ValidationState(cfg, ledger, auditId) == Project(cfg.stateSchema, ledger, auditId)
  {
    if Project(cfg.stateSchema, ledger, auditId).Some? {
      CandidateLayerAgrees(AuditEvents(ledger, auditId), Project(cfg.stateSchema, ledger, auditId).value);
    }
  }

  lemma PreparedIsAccepted(env: Env, c: Submission)
    requires Prepare(env, c).Ready?
    ensures IsAccepted(Prepare(env, c).event)
  {
    hide NormalizeBody, EntityId, EventFingerprint, LacksEvidence;
  }

  lemma AcceptedIsAdmitted(cfg: Config, ledger: seq<Event>, c: Submission)
    requires Decide(cfg, ledger, c).Accepted?
    ensures Admitted(cfg, ledger, Decide(cfg, ledger, c).event)
    ensures Prepare(cfg.env, c) == Ready(Decide(cfg, ledger, c).event)
  {
    hide Prepare, SchemaIssues, DuplicateIssues, StoreCheck, TransitionRaises, ContradictionIssues;
    hide PermissionIssues, AllGuardIssues, Permits, CurrentStatus, Project, ValidationState, IsAccepted;
    var e := Prepare(cfg.env, c).event;
    PreparedIsAccepted(cfg.env, c);
    ValidationStateIsProjection(cfg, ledger, e.auditId);
  }

  // A ledger every event of which was admitted to the ledger before it.
  ghost predicate Lawful(cfg: Config, ledger: seq<Event>) {
    forall i :: 0 <= i < |ledger| ==> Admitted(cfg, ledger[..i], ledger[i])
  }

  lemma LawfulAppend(cfg: Config, ledger: seq<Event>, e: Event)
    requires Lawful(cfg, ledger) && Admitted(cfg, ledger, e)
    ensures Lawful(cfg, ledger + [e])
  {
    hide Admitted;
    var after := ledger + [e];
    forall i | 0 <= i < |after| ensures Admitted(cfg, after[..i], after[i]) {
      assert i < |ledger| ==> after[..i] == ledger[..i];
      assert i == |ledger| ==> after[..i] == ledger;
    }
  }

  lemma LawfulPrefix(cfg: Config, ledger: seq<Event>, n: nat)
    requires Lawful(cfg, ledger) && n <= |ledger|
    ensures Lawful(cfg, ledger[..n])
  {
    hide Admitted;
    forall i | 0 <= i < n ensures Admitted(cfg, ledger[..n][..i], ledger[..n][i]) {
      assert ledger[..n][..i] == ledger[..i];
    }
  }

  lemma {:induction false} RunIsLawful(cfg: Config, ledger: seq<Event>, cs: seq<Submission>)
    requires Lawful(cfg, ledger)
    ensures Lawful(cfg, Run(cfg, ledger, cs))
    decreases |cs|
  {
    hide Admitted, Decide;
    if cs != [] {
      var before := Run(cfg, ledger, cs[..|cs| - 1]);
      RunIsLawful(cfg, ledger, cs[..|cs| - 1]);
      if Decide(cfg, before, cs[|cs| - 1]).Accepted? {
        AcceptedIsAdmitted(cfg, before, cs[|cs| - 1]);
        LawfulAppend(cfg, before, Decide(cfg, before, cs[|cs| - 1]).event);
      }
    }
  }

  // Every event in every reachable ledger was admitted, under the rules, by the projection of the
  // events before it.
  lemma ReachableIsLawful(cfg: Config, ledger: seq<Event>)
    requires Reachable(cfg, ledger)
    ensures Lawful(cfg, ledger)
  {
    var cs :| ledger == Run(cfg, [], cs);
    RunIsLawful(cfg, [], cs);
  }

  /******* Projections one event at a time *******/

  lemma ProjectAppend(schema: State -> bool, ledger: seq<Event>, e: Event)
    requires IsAccepted(e)
    ensures AuditEvents(ledger + [e], e.auditId) == AuditEvents(ledger, e.auditId) + [e]
    ensures Fold(AuditEvents(ledger + [e], e.auditId))
         == match Fold(AuditEvents(ledger, e.auditId)) case None => None case Some(s) => ApplyEvent(s, e)
    ensures forall a :: a != e.auditId ==> AuditEvents(ledger + [e], a) == AuditEvents(ledger, a)
  {
    assert (ledger + [e])[..|ledger|] == ledger;
    var events := AuditEvents(ledger, e.auditId);
    assert (events + [e])[..|events|] == events;
  }

  /******* Status histories *******/

  predicate Concerns(e: Event, auditId: string, kind: EntityType, id: string) {
    e.auditId == auditId && IsAccepted(e) && e.EntityType() == kind && e.entityId == id
  }

  // The statuses that the accepted events of one entity gave it, in order.
  function History(ledger: seq<Event>, auditId: string, kind: EntityType, id: string): seq<string> {
    if ledger == [] then []
    else
      var last := ledger[|ledger| - 1];
      History(ledger[..|ledger| - 1], auditId, kind, id)
      + if Concerns(last, auditId, kind, id) then [RequestedStatus(last)] else []
  }

  function LastStatus(history: seq<string>): string {
    if history == [] then ABSENT else history[|history| - 1]
  }

  // Starting from the absent status, every step is an allowed transition of the rule set.
  ghost predicate IsPath(rules: RuleSet, kind: EntityType, history: seq<string>) {
    forall k :: 0 <= k < |history| ==> Edge(rules, kind, LastStatus(history[..k]), history[k])
  }

  lemma HistoryAppend(ledger: seq<Event>, e: Event, auditId: string, kind: EntityType, id: string)
    ensures History(ledger + [e], auditId, kind, id)
         == History(ledger, auditId, kind, id) + if Concerns(e, auditId, kind, id) then [RequestedStatus(e)] else []
  {
    assert (ledger + [e])[..|ledger|] == ledger;
  }

  // One step of an audit's fold, whether or not the last event belongs to it.
  lemma FoldStepOf(ledger: seq<Event>, auditId: string, s: State)
    requires ledger != [] && Fold(AuditEvents(ledger, auditId)) == Some(s)
    ensures var n := |ledger| - 1;
            var before := Fold(AuditEvents(ledger[..n], auditId));
            && before.Some?
            && (if ledger[n].auditId == auditId && IsAccepted(ledger[n])
                then ApplyEvent(before.value, ledger[n]) == Some(s) else before.value == s)
  {
    hide ApplyEvent, Fold;
    var n := |ledger| - 1;
    if ledger[n].auditId == auditId && IsAccepted(ledger[n]) {
      hide AuditEvents;
      assert ledger == ledger[..n] + [ledger[n]];
      ProjectAppend(_ => true, ledger[..n], ledger[n]);
    } else {
      SkippedEvent(ledger, auditId);
    }
  }

  lemma SkippedEvent(ledger: seq<Event>, auditId: string)
    requires ledger != []
    requires ledger[|ledger| - 1].auditId != auditId || !IsAccepted(ledger[|ledger| - 1])
    ensures AuditEvents(ledger, auditId) == AuditEvents(ledger[..|ledger| - 1], auditId)
  {
  }

  // The audit root of a projection carries the audit's own id.
  lemma {:induction false} FoldAuditId(ledger: seq<Event>, auditId: string, s: State)
    requires Fold(AuditEvents(ledger, auditId)) == Some(s)
    ensures s.audit.Some? ==> s.audit.value.id == auditId
    decreases |ledger|
  {
    hide Fold, AuditEvents;
    if ledger != [] {
      var n := |ledger| - 1;
      FoldStepOf(ledger, auditId, s);
      FoldAuditId(ledger[..n], auditId, Fold(AuditEvents(ledger[..n], auditId)).value);
    } else {
      EmptyFold(auditId);
    }
  }

  lemma EmptyFold(auditId: string)
    ensures AuditEvents([], auditId) == [] && Fold(AuditEvents([], auditId)) == Some(EMPTY_STATE)
  {
  }

  // Folding an audit's events keeps, for every entity, the status of its last event.
  lemma {:induction false} FoldShowsHistory(ledger: seq<Event>, auditId: string, s: State, kind: EntityType, id: string)
    requires Fold(AuditEvents(ledger, auditId)) == Some(s)
    ensures CurrentStatus(s, kind, id) == LastStatus(History(ledger, auditId, kind, id))
    decreases |ledger|
  {
    hide Fold, AuditEvents, ApplyEvent, CurrentStatus, History;
    if ledger != [] {
      var n := |ledger| - 1;
      var last := ledger[n];
      assert ledger == ledger[..n] + [last];
      HistoryAppend(ledger[..n], last, auditId, kind, id);
      FoldStepOf(ledger, auditId, s);
      var before := Fold(AuditEvents(ledger[..n], auditId)).value;
      FoldShowsHistory(ledger[..n], auditId, before, kind, id);
      if last.auditId == auditId && IsAccepted(last) {
        FoldAuditId(ledger[..n], auditId, before);
        ApplyStatus(before, last, kind, id);
      }
    } else {
      EmptyFold(auditId);
      EmptyHistory(auditId, s, kind, id);
    }
  }

  lemma EmptyHistory(auditId: string, s: State, kind: EntityType, id: string)
    ensures History([], auditId, kind, id) == [] && CurrentStatus(EMPTY_STATE, kind, id) == ABSENT
  {
  }

  // Applying an event changes the status of its own entity and of no other.
  lemma ApplyStatus(s: State, e: Event, kind: EntityType, id: string)
    requires ApplyEvent(s, e).Some?
    requires s.audit.Some? && e.EntityType().Audit? ==> s.audit.value.id == e.auditId
    ensures CurrentStatus(ApplyEvent(s, e).value, kind, id)
         == if e.EntityType() == kind && e.entityId == id then RequestedStatus(e) else CurrentStatus(s, kind, id)
  {
  }

  // Every status history of every entity in every reachable ledger follows the rules.
  lemma {:induction false} HistoriesFollowRules(cfg: Config, ledger: seq<Event>, auditId: string, kind: EntityType,
      id: string)
    requires Lawful(cfg, ledger)
    ensures IsPath(cfg.rules, kind, History(ledger, auditId, kind, id))
    decreases |ledger|
  {
    hide History, Admitted, Edge, IsPath, Lawful;
    if ledger == [] {
      EmptyHistory(auditId, EMPTY_STATE, kind, id);
      EmptyPath(cfg.rules, kind);
    } else {
      var n := |ledger| - 1;
      var last := ledger[n];
      assert ledger == ledger[..n] + [last];
      LastAdmitted(cfg, ledger);
      LawfulPrefix(cfg, ledger, n);
      HistoriesFollowRules(cfg, ledger[..n], auditId, kind, id);
      HistoryAppend(ledger[..n], last, auditId, kind, id);
      var before := History(ledger[..n], auditId, kind, id);
      if Concerns(last, auditId, kind, id) {
        AdmittedEdge(cfg, ledger[..n], last);
        PathExtends(cfg.rules, kind, before, RequestedStatus(last));
      } else {
        assert before + [] == before;
      }
    }
  }

  lemma EmptyPath(rules: RuleSet, kind: EntityType)
    ensures IsPath(rules, kind, [])
  {
  }

  lemma LastAdmitted(cfg: Config, ledger: seq<Event>)
    requires Lawful(cfg, ledger) && ledger != []
    ensures Admitted(cfg, ledger[..|ledger| - 1], ledger[|ledger| - 1])
  {
    hide Admitted;
  }

  lemma PathExtends(rules: RuleSet, kind: EntityType, h: seq<string>, next: string)
    requires IsPath(rules, kind, h) && Edge(rules, kind, LastStatus(h), next)
    ensures IsPath(rules, kind, h + [next])
  {
    hide Edge;
    var h' := h + [next];
    forall k | 0 <= k < |h'| ensures Edge(rules, kind, LastStatus(h'[..k]), h'[k]) {
      assert k < |h| ==> h'[..k] == h[..k] && h'[k] == h[k];
      assert k == |h| ==> h'[..k] == h;
    }
  }

  // An admitted event takes its entity along an allowed transition from its last status.
  lemma AdmittedEdge(cfg: Config, ledger: seq<Event>, e: Event)
    requires Admitted(cfg, ledger, e)
    ensures Permits(cfg.rules, e, LastStatus(History(ledger, e.auditId, e.EntityType(), e.entityId)))
    ensures Edge(cfg.rules, e.EntityType(), LastStatus(History(ledger, e.auditId, e.EntityType(), e.entityId)),
            RequestedStatus(e))
  {
    hide History, CurrentStatus, SchemaIssues, DuplicateIssues, StoreCheck, ContradictionIssues, AllGuardIssues;
    hide TransitionRaises, PermissionIssues, Fold, AuditEvents;
    var s := Project(cfg.stateSchema, ledger, e.auditId).value;
    FoldShowsHistory(ledger, e.auditId, s, e.EntityType(), e.entityId);
  }

  // For any rule set and any submissions: each accepted event was permitted from the status its
  // entity had in the projection of everything before it, and every history is a path.
  lemma AcceptedEventsFollowTheRules(cfg: Config, ledger: seq<Event>)
    requires Reachable(cfg, ledger)
    ensures forall i :: 0 <= i < |ledger| ==>
              var s := Project(cfg.stateSchema, ledger[..i], ledger[i].auditId);
              s.Some? && Permits(cfg.rules, ledger[i],
                  CurrentStatus(s.value, ledger[i].EntityType(), ledger[i].entityId))
    ensures forall auditId, kind, id :: IsPath(cfg.rules, kind, History(ledger, auditId, kind, id))
  {
    hide History, IsPath, Permits, CurrentStatus, Project;
    ReachableIsLawful(cfg, ledger);
    forall auditId, kind, id ensures IsPath(cfg.rules, kind, History(ledger, auditId, kind, id)) {
      HistoriesFollowRules(cfg, ledger, auditId, kind, id);
    }
  }
}
