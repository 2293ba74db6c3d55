/** From the acceptance pipeline to the report: what reachable ledgers guarantee the compiler. */
module ReportOfLedger {
  import opened Wrappers
  import opened Ordering
  import opened Events
  import opened Projector
  import opened AcceptanceSafety
  import opened EvidenceSafety
  import opened Report
  import opened ReportSafety
  import Validators
  import Processing

  // Everything in the projection of an audit belongs to that audit.
  ghost predicate BelongsTo(s: State, auditId: string) {
    forall k :: k in s.entities ==> s.entities[k].auditId == Some(auditId)
  }

  lemma {:induction false} FoldBelongs(events: seq<Event>, auditId: string, s: State)
    requires Fold(events) == Some(s) && forall e :: e in events ==> e.auditId == auditId
    ensures BelongsTo(s, auditId)
    decreases |events|
  {
    if events != [] {
      FoldBelongs(events[..|events| - 1], auditId, Fold(events[..|events| - 1]).value);
    }
  }

  lemma {:induction false} SupportFound(ctx: Context, issueId: string, ids: seq<string>)
    requires forall id :: id in ids ==> id in ctx.verified && ctx.verified[id].evidenceClass in FINDING_CLASSES
    ensures Support(ctx, issueId, ids).Success?
    decreases |ids|
  {
    if ids != [] {
      SupportFound(ctx, issueId, ids[1..]);
    }
  }

  predicate EvidenceError(e: ReportError) {
    e.ObservationNotVerified? || e.ClassNotAllowed?
  }

  ghost predicate ReadyContext(ctx: Context, s: State) {
    forall id :: Supports(s, id) ==> id in ctx.verified && ctx.verified[id].evidenceClass in FINDING_CLASSES
  }

  lemma SupportedIssue(ctx: Context, s: State, key: string, p: Payload)
    requires ReadyContext(ctx, s) && WellSupported(s, p)
    ensures FindingOf(ctx, key, p).Failure? ==> !EvidenceError(FindingOf(ctx, key, p).error)
  {
    hide Support, OpenQuestions, Contradictions, SortBy, Supports;
    var evidence := IssueOf(p).evidence;
    forall id | id in SortStrings(evidence.observationIds)
      ensures id in ctx.verified && ctx.verified[id].evidenceClass in FINDING_CLASSES
    {
      SortMembers(evidence.observationIds, StringKey(), id);
      assert Supports(s, id);
    }
    SupportFound(ctx, key, SortStrings(evidence.observationIds));
    QuestionErrors(ctx, key, SortStrings(evidence.questionIds.GetOr([])));
    ContradictionErrors(ctx, key, SortStrings(evidence.contradictionIds.GetOr([])));
  }

  lemma {:induction false} SupportedIssues(ctx: Context, s: State, issues: map<string, Payload>, ids: seq<string>)
    requires ReadyContext(ctx, s) && forall id :: id in ids ==> id in issues
    requires forall id :: id in ids && issues[id].status != "rejected" ==> WellSupported(s, issues[id])
    ensures FindingsFrom(ctx, issues, ids).Failure? ==> !EvidenceError(FindingsFrom(ctx, issues, ids).error)
    decreases |ids|
  {
    hide FindingOf, WellSupported, EvidenceError, ReadyContext;
    if ids != [] {
      var n := |ids| - 1;
      SupportedIssues(ctx, s, issues, ids[..n]);
      if IsReported(issues[ids[n]], ctx.auditId) {
        SupportedIssue(ctx, s, ids[n], issues[ids[n]]);
      }
    }
  }

  lemma VerifiedContext(s: State, auditId: string, verified: map<string, Entry>)
    requires BelongsTo(s, auditId) && VerifiedOf(Collection(s, Observation), auditId) == Success(verified)
    ensures ReadyContext(ContextOf(s, auditId, verified), s)
  {
    hide FirstUnclassed, Order, BelongsTo;
    forall id | Supports(s, id) ensures id in verified && verified[id].evidenceClass in FINDING_CLASSES {
      var k := EntityKey(Observation, id);
      assert id in Collection(s, Observation) && Collection(s, Observation)[id] == s.entities[k];
      assert s.entities[k].auditId == Some(auditId) by {
        AllBelong(s, auditId, k);
      }
    }
  }

  lemma AllBelong(s: State, auditId: string, k: EntityKey)
    requires BelongsTo(s, auditId) && k in s.entities
    ensures s.entities[k].auditId == Some(auditId)
  {
  }

  // A state whose issues are well supported never makes the compiler raise an evidence error.
  lemma SupportedStateReports(s: State)
    requires s.audit.Some? && BelongsTo(s, s.audit.value.id) && EvidenceHolds(s)
    ensures Compile(s).Failure? ==> !EvidenceError(Compile(s).error)
  {
    hide VerifiedOf, FindingsFrom, Order, ContextOf, Checked, Draft, EvidenceHolds, ReadyContext, WellSupported,
        BelongsTo;
    var auditId := s.audit.value.id;
    VerifiedErrors(Collection(s, Observation), auditId);
    var v := VerifiedOf(Collection(s, Observation), auditId);
    if v.Success? {
      VerifiedContext(s, auditId, v.value);
      var issues := Collection(s, Issue);
      IssuesSupported(s);
      SupportedIssues(ContextOf(s, auditId, v.value), s, issues, Order(issues.Keys));
      if IssueFindings(s, auditId, v.value).Success? {
        CheckedErrors(s.audit.value, Draft(s, auditId, v.value, IssueFindings(s, auditId, v.value).value));
      }
    }
  }

  lemma CheckedErrors(audit: Payload, report: CompiledReport)
    ensures Checked(audit, report).Failure? ==> !EvidenceError(Checked(audit, report).error)
  {
  }

  lemma IssuesSupported(s: State)
    requires EvidenceHolds(s)
    ensures var issues := Collection(s, Issue);
            forall id :: id in issues && issues[id].status != "rejected" ==> WellSupported(s, issues[id])
  {
    hide WellSupported;
  }

  // The main link: under rule files whose guards cover issues and keep verified observations
  // verified, no reachable ledger projects to a state on which the compiler raises an evidence error.
  lemma ReachableLedgersReport(cfg: Validators.Config, ledger: seq<Event>, auditId: string, s: State)
    requires GuardsCoverIssues(cfg.rules) && VerifiedIsFinal(cfg.rules) && Processing.Reachable(cfg, ledger)
    requires Project(cfg.stateSchema, ledger, auditId) == Some(s) && AuditEvents(ledger, auditId) != []
    ensures Compile(s).Failure? ==> !EvidenceError(Compile(s).error)
  {
    hide GuardsCoverIssues, VerifiedIsFinal, Fold, AuditEvents, EvidenceHolds, Processing.Reachable, Compile,
        BelongsTo, EvidenceError;
    CitedEvidenceStaysVerified(cfg, ledger, auditId);
    FoldAuditId(ledger, auditId, s);
    FoldBelongs(AuditEvents(ledger, auditId), auditId, s);
    SupportedStateReports(s);
  }

  /******* A report is a certificate *******/

  lemma CitedEntrySupports(s: State, auditId: string, e: Entry)
    requires TypedState(s) && CitesVerified(s, auditId, e)
    ensures Supports(s, e.observationId)
  {
  }

  // A report is built only from a state in which every issue it reports is well supported.
  lemma ReportedIssuesAreSupported(s: State, r: CompiledReport, id: string)
    requires TypedState(s) && Compile(s) == Success(r)
    requires EntityKey(Issue, id) in s.entities && IsReported(s.entities[EntityKey(Issue, id)], s.audit.value.id)
    ensures WellSupported(s, s.entities[EntityKey(Issue, id)])
  {
    hide Compile, TypedState, Supports, CitesVerified, IsReported;
    var p := s.entities[EntityKey(Issue, id)];
    CompiledHasAudit(s);
    EveryIssueIsReported(s, r, id);
    var f :| f in r.findings && multiset(f.SupportingIds()) == multiset(IssueOf(p).evidence.observationIds);
    IssueKeysHoldIssues(s, id);
    forall o | o in p.body.issue.evidence.observationIds ensures Supports(s, o) {
      assert o in multiset(IssueOf(p).evidence.observationIds);
      assert o in f.SupportingIds();
      var i :| 0 <= i < |f.supporting| && f.supporting[i].observationId == o;
      FindingsCiteVerifiedEvidence(s, r, f, f.supporting[i]);
      CitedEntrySupports(s, s.audit.value.id, f.supporting[i]);
    }
  }

  lemma IssueKeysHoldIssues(s: State, id: string)
    requires TypedState(s) && EntityKey(Issue, id) in s.entities
    ensures s.entities[EntityKey(Issue, id)].body.IssueBody?
  {
  }

  // So under the shipped guards a closing event that cites anything unsupported is accepted and leaves
  // its audit in a state from which no report can be built.
  lemma UnsupportedClosingStopsReports(cfg: Validators.Config, ledger: seq<Event>, c: Processing.Submission, e: Event)
    requires cfg.rules.guards == SHIPPED_GUARDS && Processing.Reachable(cfg, ledger)
    requires Processing.Prepare(cfg.env, c) == Processing.Ready(e) && ClosesCleanly(cfg, ledger, e)
    requires e.payload.status != "rejected"
    requires !WellSupported(Project(cfg.stateSchema, ledger, e.auditId).value, e.payload)
    ensures Processing.Decide(cfg, ledger, c) == Processing.Accepted(e)
    ensures Fold(AuditEvents(ledger + [e], e.auditId)).Some?
    ensures Compile(Fold(AuditEvents(ledger + [e], e.auditId)).value).Failure?
  {
    hide ClosesCleanly, Processing.Prepare, Processing.Decide, Processing.Reachable, Fold, AuditEvents, Compile;
    ClosingBelongs(cfg, ledger, e);
    ShippedRulesLetClosedIssuesCiteAnything(cfg, ledger, c, e);
    var before := Project(cfg.stateSchema, ledger, e.auditId).value;
    var after := Fold(AuditEvents(ledger + [e], e.auditId)).value;
    FoldIsTyped(AuditEvents(ledger + [e], e.auditId), after);
    UnsupportedStays(before, e);
    if Compile(after).Success? {
      CompiledHasAudit(after);
      FoldAuditId(ledger + [e], e.auditId, after);
      ReportedIssuesAreSupported(after, Compile(after).value, e.entityId);
    }
  }

  lemma ClosingBelongs(cfg: Validators.Config, ledger: seq<Event>, e: Event)
    requires ClosesCleanly(cfg, ledger, e)
    ensures e.payload.auditId == Some(e.auditId) && e.payload.body.IssueBody?
    ensures Project(cfg.stateSchema, ledger, e.auditId).Some?
  {
  }

  lemma CompiledHasAudit(s: State)
    requires Compile(s).Success?
    ensures s.audit.Some?
  {
  }

  lemma UnsupportedStays(s: State, e: Event)
    requires e.payload.body.IssueBody? && ApplyEvent(s, e).Some? && !WellSupported(s, e.payload)
    ensures var after := ApplyEvent(s, e).value; var k := EntityKey(Issue, e.entityId);
            k in after.entities && after.entities[k] == e.payload && !WellSupported(after, e.payload)
  {
    hide Supports;
    forall id ensures Supports(ApplyEvent(s, e).value, id) <==> Supports(s, id) {
      ObservationsUntouched(s, e, id);
    }
  }
}
