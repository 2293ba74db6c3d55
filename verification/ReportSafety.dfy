/** Building the whole report, and what every report that is built guarantees. */
module ReportSafety {
  import opened Wrappers
  import opened Ordering
  import opened Events
  import opened Projector
  import opened EvidenceSafety
  import opened Report

  const AUDIT_STATUSES := {
    "initialized", "in_progress", "reported", "completed", "cancelled", "failed", "accepted", "scanning", "analyzed"}

  predicate OfAudit(p: Payload, auditId: string) {
    p.auditId == Some(auditId)
  }

  function Own(items: map<string, Payload>, auditId: string): map<string, Payload> {
    map id | id in items && OfAudit(items[id], auditId) :: items[id]
  }

  function ContextOf(s: State, auditId: string, verified: map<string, Entry>): Context {
    var questions := Own(Collection(s, Question), auditId);
    Context(auditId, verified, map id | id in questions :: questions[id].status == "open",
            Own(Collection(s, Contradiction), auditId).Keys)
  }

  function Listed(ids: seq<string>, entries: map<string, Entry>): seq<Entry>
    requires forall id :: id in ids ==> id in entries
  {
    seq(|ids|, i requires 0 <= i < |ids| => entries[ids[i]])
  }

  function StatusError(status: string, populated: bool): Option<ReportError> {
    if status !in AUDIT_STATUSES then Some(StatusNotSupported(status))
    else if populated && status == "initialized" then Some(PopulatedWhileInitialized)
    else None
  }

  function OpenIds(questions: map<string, bool>): set<string> {
    set id | id in questions && questions[id]
  }

  function Assemble(auditId: string, findings: seq<Finding>, suppressions: seq<Suppression>, verified: seq<Entry>,
                    open: seq<string>, contradictions: seq<string>, decisions: seq<string>): CompiledReport {
    CompiledReport(auditId, Summary(|findings|, |verified|, |open|, |contradictions|, |decisions|),
                   findings, suppressions, verified, open, contradictions, decisions)
  }

  predicate IsPopulated(r: CompiledReport) {
    r.findings != [] || r.verified != [] || r.openQuestions != [] || r.contradictions != [] || r.decisions != []
  }

  /******* The consistency check *******/

  predicate CountsMatch(r: CompiledReport) {
    r.summary == Summary(|r.findings|, |r.verified|, |r.openQuestions|, |r.contradictions|, |r.decisions|)
  }

  function Eligible(verified: seq<Entry>): set<string> {
    set e | e in verified && e.observationId != "" && e.evidenceClass in FINDING_CLASSES :: e.observationId
  }

  // Without findings, every eligible observation must have a suppression record.
  predicate IsCovered(r: CompiledReport) {
    Eligible(r.verified) != {} && r.findings == [] ==>
      forall id :: id in Eligible(r.verified) ==> id in SuppressedIds(r.suppressions)
  }

  /******* The report *******/

  ghost function Draft(s: State, auditId: string, verified: map<string, Entry>,
      findings: seq<Finding>): CompiledReport {
    var p := Placed(findings, verified);
    var ctx := ContextOf(s, auditId, verified);
    Assemble(auditId, findings + SynthesizedFindings(verified, p.synthesized), p.suppressions,
             Listed(Order(verified.Keys), verified), Order(OpenIds(ctx.questions)), Order(ctx.contradictions),
             Order(Own(Collection(s, Decision), auditId).Keys))
  }

  ghost function IssueFindings(s: State, auditId: string, verified: map<string, Entry>): Result<seq<Finding>,
      ReportError> {
    var issues := Collection(s, Issue);
    FindingsFrom(ContextOf(s, auditId, verified), issues, Order(issues.Keys))
  }

  function Checked(audit: Payload, report: CompiledReport): Result<CompiledReport, ReportError> {
    match StatusError(audit.status, IsPopulated(report))
    case Some(error) => Failure(error)
    case None => if CountsMatch(report) && IsCovered(report) then Success(report) else Failure(Inconsistent)
  }

  ghost function Compile(s: State): Result<CompiledReport, ReportError> {
    if s.audit.None? || s.audit.value.id == "" then Failure(NoAudit)
    else
      var auditId := s.audit.value.id;
      match VerifiedOf(Collection(s, Observation), auditId)
      case Failure(error) => Failure(error)
      case Success(verified) =>
        match IssueFindings(s, auditId, verified)
        case Failure(error) => Failure(error)
        case Success(findings) => Checked(s.audit.value, Draft(s, auditId, verified, findings))
  }

  method BuildReport(s: State) returns (r: Result<CompiledReport, ReportError>)
    ensures r == Compile(s)
  {
    hide VerifiedOf, FindingsFrom, Placed, Order, Checked, ContextOf, SynthesizedFindings, Own, Collection,
        OpenIds, Listed;
    if s.audit.None? || s.audit.value.id == "" {
      return Failure(NoAudit);
    }
    var auditId := s.audit.value.id;
    var verified := CollectVerified(Collection(s, Observation), auditId);
    if verified.Failure? {
      return Failure(verified.error);
    }
    var ctx := ContextOf(s, auditId, verified.value);
    var fromIssues := CollectFindings(ctx, Collection(s, Issue));
    if fromIssues.Failure? {
      return Failure(fromIssues.error);
    }
    var findings, suppressions := MergeWithObservations(fromIssues.value, verified.value);
    var ids := SortedIds(verified.value.Keys);
    var open := SortedIds(OpenIds(ctx.questions));
    var contradictions := SortedIds(ctx.contradictions);
    var decisions := SortedIds(Own(Collection(s, Decision), auditId).Keys);
    var report := Assemble(auditId, findings, suppressions, Listed(ids, verified.value), open, contradictions,
        decisions);
    r := Checked(s.audit.value, report);
  }

  /******* The consistency check never rejects *******/

  lemma NothingEligible(findings: seq<Finding>, verified: map<string, Entry>, e: Entry)
    requires findings + SynthesizedFindings(verified, Placed(findings, verified).synthesized) == []
    requires e in Listed(Order(verified.Keys), verified)
    ensures e.evidenceClass !in FINDING_CLASSES
  {
    hide SynthesizedId;
    var ids := Order(verified.Keys);
    ObservationsArePartitioned(findings, verified, ids);
    PlacementsAreJustified(findings, verified, ids);
    var p := PlaceAll(findings, verified, ids);
    var i :| 0 <= i < |ids| && verified[ids[i]] == e;
    assert |SynthesizedFindings(verified, p.synthesized)| == 0;
    assert p.synthesized == [] && findings == [];
    assert multiset(SuppressedIds(p.suppressions))[ids[i]] == 1;
    var j :| 0 <= j < |p.suppressions| && SuppressedIds(p.suppressions)[j] == ids[i];
    assert Justified(findings, verified, p.suppressions[j]);
  }

  // The counts agree by construction and a report without findings has no eligible observation, so
  // the final check can never raise, whatever the state.
  lemma ConsistencyCheckNeverRejects(s: State)
    ensures Compile(s) != Failure(Inconsistent)
  {
    hide VerifiedOf, Placed, Order, ContextOf, SynthesizedFindings, Own, Collection, OpenIds, Listed, FindingsFrom;
    if s.audit.Some? {
      var auditId := s.audit.value.id;
      var v := VerifiedOf(Collection(s, Observation), auditId);
      VerifiedErrors(Collection(s, Observation), auditId);
      if v.Success? {
        var issues := Collection(s, Issue);
        FindingErrors(ContextOf(s, auditId, v.value), issues, Order(issues.Keys));
        var f := IssueFindings(s, auditId, v.value);
        if f.Success? {
          DraftIsConsistent(s, auditId, v.value, f.value);
        }
      }
    }
  }

  lemma VerifiedErrors(observations: map<string, Payload>, auditId: string)
    ensures VerifiedOf(observations, auditId).Failure? ==> VerifiedOf(observations, auditId).error.NoEvidenceClass?
  {
  }

  lemma DraftIsConsistent(s: State, auditId: string, verified: map<string, Entry>, findings: seq<Finding>)
    ensures CountsMatch(Draft(s, auditId, verified, findings)) && IsCovered(Draft(s, auditId, verified, findings))
  {
    hide Placed, Order, ContextOf, SynthesizedFindings, Own, Collection, OpenIds, Listed;
    var r := Draft(s, auditId, verified, findings);
    if r.findings == [] {
      forall e | e in r.verified ensures e.evidenceClass !in FINDING_CLASSES {
        NothingEligible(findings, verified, e);
      }
      assert Eligible(r.verified) == {};
    }
  }

  /******* Issue findings *******/

  ghost predicate GoodSupport(verified: map<string, Entry>, entries: seq<Entry>) {
    forall e :: e in entries ==> e.evidenceClass in FINDING_CLASSES && e in verified.Values
  }

  lemma {:induction false} SupportIsVerified(ctx: Context, issueId: string, ids: seq<string>)
    ensures var r := Support(ctx, issueId, ids);
            if r.Success? then |r.value| == |ids| && GoodSupport(ctx.verified, r.value)
            else r.error.ObservationNotVerified? || r.error.ClassNotAllowed?
    decreases |ids|
  {
    if ids != [] {
      SupportIsVerified(ctx, issueId, ids[1..]);
    }
  }

  lemma {:induction false} QuestionErrors(ctx: Context, issueId: string, ids: seq<string>)
    ensures OpenQuestions(ctx, issueId, ids).Failure? ==> OpenQuestions(ctx, issueId, ids).error.QuestionMissing?
    decreases |ids|
  {
    if ids != [] {
      QuestionErrors(ctx, issueId, ids[1..]);
    }
  }

  lemma {:induction false} ContradictionErrors(ctx: Context, issueId: string, ids: seq<string>)
    ensures Contradictions(ctx, issueId, ids).Failure? ==> Contradictions(ctx, issueId, ids).error.ContradictionMissing?
    decreases |ids|
  {
    if ids != [] {
      ContradictionErrors(ctx, issueId, ids[1..]);
    }
  }

  predicate IssueError(e: ReportError) {
    || e.NoSupportingObservation? || e.ObservationNotVerified? || e.ClassNotAllowed?
    || e.QuestionMissing? || e.ContradictionMissing?
  }

  lemma FindingShape(ctx: Context, key: string, p: Payload)
    ensures var r := FindingOf(ctx, key, p);
            if r.Success? then r.value.supporting != [] && GoodSupport(ctx.verified, r.value.supporting)
            else IssueError(r.error)
  {
    hide Support, OpenQuestions, Contradictions, SortBy, GoodSupport;
    var evidence := IssueOf(p).evidence;
    SupportIsVerified(ctx, key, SortStrings(evidence.observationIds));
    QuestionErrors(ctx, key, SortStrings(evidence.questionIds.GetOr([])));
    ContradictionErrors(ctx, key, SortStrings(evidence.contradictionIds.GetOr([])));
    SortFacts(evidence.observationIds, StringKey());
    assert multiset(evidence.observationIds)[evidence.observationIds[0]] > 0 || evidence.observationIds == [];
    assert evidence.observationIds != [] ==> SortStrings(evidence.observationIds) != [];
  }

  lemma {:induction false} FindingErrors(ctx: Context, issues: map<string, Payload>, ids: seq<string>)
    requires forall id :: id in ids ==> id in issues
    ensures var r := FindingsFrom(ctx, issues, ids);
            if r.Success? then forall f :: f in r.value ==>
                f.supporting != [] && GoodSupport(ctx.verified, f.supporting)
            else IssueError(r.error)
    decreases |ids|
  {
    hide FindingOf, GoodSupport, IssueError;
    if ids != [] {
      var n := |ids| - 1;
      FindingErrors(ctx, issues, ids[..n]);
      FindingShape(ctx, ids[n], issues[ids[n]]);
    }
  }

  /******* What a built report guarantees *******/

  predicate HasVerified(s: State, auditId: string, id: string) {
    EntityKey(Observation, id) in s.entities && IsVerified(s.entities[EntityKey(Observation, id)], auditId)
  }

  ghost predicate CitesVerified(s: State, auditId: string, e: Entry) {
    && e.evidenceClass in FINDING_CLASSES
    && exists id :: HasVerified(s, auditId, id) && e == EntryOf(s.entities[EntityKey(Observation, id)])
  }

  lemma VerifiedEntry(s: State, auditId: string, e: Entry)
    requires VerifiedOf(Collection(s, Observation), auditId).Success?
    requires e in VerifiedOf(Collection(s, Observation), auditId).value.Values && e.evidenceClass in FINDING_CLASSES
    ensures CitesVerified(s, auditId, e)
  {
    hide FirstUnclassed, Order, IsVerified, EntryOf;
    var verified := VerifiedOf(Collection(s, Observation), auditId).value;
    var id :| id in verified && verified[id] == e;
    assert id in Collection(s, Observation);
    assert HasVerified(s, auditId, id);
    assert Collection(s, Observation)[id] == s.entities[EntityKey(Observation, id)];
  }

  // The parts from which a report was built.
  lemma Parts(s: State, r: CompiledReport) returns (verified: map<string, Entry>, findings: seq<Finding>)
    requires Compile(s) == Success(r)
    ensures s.audit.Some? && VerifiedOf(Collection(s, Observation), s.audit.value.id) == Success(verified)
    ensures IssueFindings(s, s.audit.value.id, verified) == Success(findings)
    ensures r == Draft(s, s.audit.value.id, verified, findings)
    ensures r.findings == findings + SynthesizedFindings(verified, Placed(findings, verified).synthesized)
    ensures r.suppressions == Placed(findings, verified).suppressions
  {
    hide VerifiedOf, IssueFindings, Placed, Order, ContextOf, SynthesizedFindings, Own, Collection, OpenIds, Listed;
    verified := VerifiedOf(Collection(s, Observation), s.audit.value.id).value;
    findings := IssueFindings(s, s.audit.value.id, verified).value;
  }

  // Every finding, from an issue or from an observation, rests on at least one observation and only
  // on verified observations of the audit with an allowed evidence class.
  lemma FindingsCiteVerifiedEvidence(s: State, r: CompiledReport, f: Finding, e: Entry)
    requires Compile(s) == Success(r) && f in r.findings
    ensures f.supporting != []
    ensures e in f.supporting ==> CitesVerified(s, s.audit.value.id, e)
  {
    hide VerifiedOf, Placed, Order, ContextOf, Own, Collection, OpenIds, Listed, FindingsFrom, Compile,
        CitesVerified, Draft;
    var verified, findings := Parts(s, r);
    var issues := Collection(s, Issue);
    FindingErrors(ContextOf(s, s.audit.value.id, verified), issues, Order(issues.Keys));
    assert ContextOf(s, s.audit.value.id, verified).verified == verified by {
      ContextKeepsVerified(s, s.audit.value.id, verified);
    }
    if f !in findings {
      SynthesizedSupport(findings, verified, f);
    }
    if e in f.supporting {
      VerifiedEntry(s, s.audit.value.id, e);
    }
  }

  lemma ContextKeepsVerified(s: State, auditId: string, verified: map<string, Entry>)
    ensures ContextOf(s, auditId, verified).verified == verified
  {
  }

  lemma SynthesizedSupport(findings: seq<Finding>, verified: map<string, Entry>, f: Finding)
    requires f in SynthesizedFindings(verified, Placed(findings, verified).synthesized)
    ensures |f.supporting| == 1 && GoodSupport(verified, f.supporting)
  {
    hide CitedIn, HasFindingId, SynthesizedId, PlaceAll, Justified;
    PlacementsAreJustified(findings, verified, Order(verified.Keys));
  }

  function Subject(f: Finding): string {
    if f.supporting == [] then "" else f.supporting[0].observationId
  }

  function Subjects(findings: seq<Finding>): seq<string> {
    seq(|findings|, i requires 0 <= i < |findings| => Subject(findings[i]))
  }

  lemma SubjectsOfSynthesized(verified: map<string, Entry>, ids: seq<string>)
    requires forall id :: id in ids ==> id in verified && verified[id].observationId == id
    ensures Subjects(SynthesizedFindings(verified, ids)) == ids
  {
    hide SynthesizedId;
  }

  // How often a report places an observation: as evidence of one of the first `n` findings (those of
  // issues), as the subject of a later one, or in a suppression record.
  function Places(r: CompiledReport, n: nat, id: string): nat
    requires n <= |r.findings|
  {
    (if CitedIn(r.findings[..n], id) then 1 else 0) + multiset(Subjects(r.findings[n..]))[id]
    + multiset(SuppressedIds(r.suppressions))[id]
  }

  // Nothing verified is lost and nothing is placed twice; what is not verified is not placed outside
  // the issue findings at all.
  lemma EveryObservationIsPlacedOnce(s: State, r: CompiledReport) returns (n: nat)
    requires TypedState(s) && Compile(s) == Success(r)
    ensures n <= |r.findings| && VerifiedOf(Collection(s, Observation), s.audit.value.id).Success?
    ensures var verified := VerifiedOf(Collection(s, Observation), s.audit.value.id).value;
            && IssueFindings(s, s.audit.value.id, verified) == Success(r.findings[..n])
            && r.findings[n..] == SynthesizedFindings(verified, Placed(r.findings[..n], verified).synthesized)
    ensures forall id :: HasVerified(s, s.audit.value.id, id) ==> Places(r, n, id) == 1
    ensures forall id :: !HasVerified(s, s.audit.value.id, id) ==>
              id !in Subjects(r.findings[n..]) && id !in SuppressedIds(r.suppressions)
  {
    hide Placed, Order, ContextOf, Own, OpenIds, Listed, IssueFindings, FirstUnclassed, Compile, Draft,
      SynthesizedFindings, PlaceAll, Subjects, SuppressedIds, CitedIn, IsVerified, EntryOf, HasVerified;
    var verified, findings := Parts(s, r);
    n := |findings|;
    assert r.findings[..n] == findings;
    var p := Placed(findings, verified);
    assert r.findings[n..] == SynthesizedFindings(verified, p.synthesized);
    KeyedEntries(s, s.audit.value.id, verified);
    SubjectsOfSynthesized(verified, p.synthesized);
    PlacedCounts(findings, verified);
  }

  lemma KeyedEntries(s: State, auditId: string, verified: map<string, Entry>)
    requires TypedState(s) && VerifiedOf(Collection(s, Observation), auditId) == Success(verified)
    ensures forall id :: id in verified ==> verified[id].observationId == id
    ensures forall id :: HasVerified(s, auditId, id) <==> id in verified
  {
    hide FirstUnclassed, Order, IsVerified, ClassOf;
    forall id | HasVerified(s, auditId, id) ensures id in verified {
      assert id in Collection(s, Observation);
    }
  }

  lemma PlacedCounts(findings: seq<Finding>, verified: map<string, Entry>)
    ensures PlacedOnce(findings, Order(verified.Keys), Placed(findings, verified))
    ensures forall id :: id in Order(verified.Keys) <==> id in verified
  {
    hide CitedIn, PlaceAll, PlacedOnce;
    ObservationsArePartitioned(findings, verified, Order(verified.Keys));
  }

  /******* Every issue is reported *******/

  lemma {:induction false} SupportInOrder(ctx: Context, issueId: string, ids: seq<string>)
    requires forall id :: id in ctx.verified ==> ctx.verified[id].observationId == id
    ensures var r := Support(ctx, issueId, ids);
            r.Success? ==> |r.value| == |ids| && forall i :: 0 <= i < |ids| ==> r.value[i].observationId == ids[i]
    decreases |ids|
  {
    if ids != [] {
      SupportInOrder(ctx, issueId, ids[1..]);
    }
  }

  lemma {:induction false} FindingForEach(ctx: Context, issues: map<string, Payload>, ids: seq<string>, id: string)
    requires forall x :: x in ids ==> x in issues
    requires FindingsFrom(ctx, issues, ids).Success? && id in ids && IsReported(issues[id], ctx.auditId)
    ensures FindingOf(ctx, id, issues[id]).Success?
    ensures FindingOf(ctx, id, issues[id]).value in FindingsFrom(ctx, issues, ids).value
    decreases |ids|
  {
    hide FindingOf, IsReported;
    var n := |ids| - 1;
    if id != ids[n] {
      FindingForEach(ctx, issues, ids[..n], id);
    }
  }

  lemma CitesWhatTheIssueCites(ctx: Context, key: string, p: Payload)
    requires FindingOf(ctx, key, p).Success? && forall id :: id in ctx.verified ==> ctx.verified[id].observationId == id
    ensures var f := FindingOf(ctx, key, p).value;
            f.issueId == p.id && multiset(f.SupportingIds()) == multiset(IssueOf(p).evidence.observationIds)
  {
    hide Support, OpenQuestions, Contradictions, SortBy;
    var ids := IssueOf(p).evidence.observationIds;
    SupportInOrder(ctx, key, SortStrings(ids));
    SortFacts(ids, StringKey());
    assert FindingOf(ctx, key, p).value.SupportingIds() == SortStrings(ids);
  }

  // Every issue of the audit that is not rejected has a finding that cites exactly its observations.
  lemma EveryIssueIsReported(s: State, r: CompiledReport, id: string)
    requires TypedState(s) && Compile(s) == Success(r)
    requires EntityKey(Issue, id) in s.entities && IsReported(s.entities[EntityKey(Issue, id)], s.audit.value.id)
    ensures exists f :: f in r.findings && f.issueId == id
              && multiset(f.SupportingIds())
                  == multiset(IssueOf(s.entities[EntityKey(Issue, id)]).evidence.observationIds)
  {
    hide VerifiedOf, Placed, Order, ContextOf, Own, OpenIds, Listed, FindingsFrom, Compile, FindingOf, IsReported,
        IssueOf;
    var verified, findings := Parts(s, r);
    var auditId := s.audit.value.id;
    var ctx := ContextOf(s, auditId, verified);
    ContextKeeps(s, auditId, verified);
    KeyedEntries(s, auditId, verified);
    var issues := Collection(s, Issue);
    assert id in issues && issues[id] == s.entities[EntityKey(Issue, id)];
    FindingForEach(ctx, issues, Order(issues.Keys), id);
    CitesWhatTheIssueCites(ctx, id, issues[id]);
    assert FindingOf(ctx, id, issues[id]).value in r.findings;
  }

  lemma ContextKeeps(s: State, auditId: string, verified: map<string, Entry>)
    ensures ContextOf(s, auditId, verified).verified == verified && ContextOf(s, auditId, verified).auditId == auditId
  {
  }
}
