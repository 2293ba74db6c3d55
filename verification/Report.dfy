/** The report compiler: issues become findings, verified observations that no issue cites become
    findings of their own or suppression records, and a last check refuses an inconsistent report. */
module Report {
  import opened Wrappers
  import opened Ordering
  import opened Events
  import opened Projector
  import opened EvidenceSafety
  import Text

  datatype ReportError =
    | NoAudit
    | NoEvidenceClass(observationId: string)
    | NoSupportingObservation(issueId: string)
    | ObservationNotVerified(issueId: string, observationId: string)
    | ClassNotAllowed(issueId: string, observationId: string)
    | QuestionMissing(issueId: string, questionId: string)
    | ContradictionMissing(issueId: string, contradictionId: string)
    | StatusNotSupported(status: string)
    | PopulatedWhileInitialized
    | Inconsistent

  // A verified observation as it appears in the report.
  datatype Entry = Entry(observationId: string, evidenceClass: string, statement: string)

  datatype Finding = Finding(
    findingId: string, issueId: string, status: string, title: string, summary: string,
    supporting: seq<Entry>, openQuestions: seq<string>, contradictions: seq<string>)
  {
    function SupportingIds(): seq<string> {
      seq(|supporting|, i requires 0 <= i < |supporting| => supporting[i].observationId)
    }
  }

  datatype Reason = ClassDisallowed(evidenceClass: string) | IdCollision(findingId: string)

  datatype Suppression = Suppression(observationId: string, reason: Reason)

  datatype Summary = Summary(findings: nat, verified: nat, openQuestions: nat, contradictions: nat, decisions: nat)

  datatype CompiledReport = CompiledReport(
    auditId: string, summary: Summary, findings: seq<Finding>, suppressions: seq<Suppression>,
    verified: seq<Entry>, openQuestions: seq<string>, contradictions: seq<string>, decisions: seq<string>)

  /******* Sorted collections *******/

  function Collection(s: State, kind: EntityType): map<string, Payload> {
    map k | k in s.entities && k.kind == kind :: k.id := s.entities[k]
  }

  function StringKey(): string -> Key {
    s => Codes(s)
  }

  function SortStrings(s: seq<string>): seq<string> {
    SortBy(s, StringKey())
  }

  /******* Verified observations *******/

  predicate IsVerified(p: Payload, auditId: string) {
    p.auditId == Some(auditId) && p.status == "verified"
  }

  function ClassOf(p: Payload): string {
    if p.body.ObservationBody? then p.body.observation.evidenceClass else ""
  }

  function EntryOf(p: Payload): Entry {
    Entry(p.id, ClassOf(p), if p.body.ObservationBody? then p.body.observation.statement else "")
  }

  function FirstUnclassed(observations: map<string, Payload>, auditId: string, ids: seq<string>): Option<string>
    requires forall id :: id in ids ==> id in observations
  {
    if ids == [] then None
    else if IsVerified(observations[ids[0]], auditId) && ClassOf(observations[ids[0]]) == ""
    then Some(observations[ids[0]].id)
    else FirstUnclassed(observations, auditId, ids[1..])
  }

  // Exactly the verified observations of the audit, or an error naming the first without a class.
  ghost function VerifiedOf(observations: map<string, Payload>, auditId: string): Result<map<string, Entry>,
      ReportError> {
    match FirstUnclassed(observations, auditId, Order(observations.Keys))
    case Some(id) => Failure(NoEvidenceClass(id))
    case None =>
      Success(map id | id in observations && IsVerified(observations[id], auditId) :: EntryOf(observations[id]))
  }

  method CollectVerified(observations: map<string, Payload>, auditId: string) returns (r: Result<map<string,
      Entry>, ReportError>)
    ensures r == VerifiedOf(observations, auditId)
  {
    hide StrictlySorted, EntryOf, ClassOf, IsVerified;
    var ids := SortedIds(observations.Keys);
    var verified: map<string, Entry> := map[];
    var i := 0;
    while i < |ids|
      invariant 0 <= i <= |ids|
      invariant FirstUnclassed(observations, auditId, ids) == FirstUnclassed(observations, auditId, ids[i..])
      invariant forall id :: id in verified <==> id in ids[..i] && IsVerified(observations[id], auditId)
      invariant forall id :: id in verified ==> verified[id] == EntryOf(observations[id])
    {
      var id := ids[i];
      assert ids[..i + 1] == ids[..i] + [id] && ids[i..][1..] == ids[i + 1..];
      if IsVerified(observations[id], auditId) {
        if ClassOf(observations[id]) == "" {
          return Failure(NoEvidenceClass(observations[id].id));
        }
        verified := verified[id := EntryOf(observations[id])];
      }
      i := i + 1;
    }
    assert ids[..i] == ids;
    assert verified
        == map id | id in observations && IsVerified(observations[id], auditId) :: EntryOf(observations[id]);
    return Success(verified);
  }

  /******* Findings from issues *******/

  // What an issue is resolved against.
  datatype Context = Context(
    auditId: string, verified: map<string, Entry>, questions: map<string, bool>, contradictions: set<string>)

  function Support(ctx: Context, issueId: string, ids: seq<string>): Result<seq<Entry>, ReportError> {
    if ids == [] then Success([])
    else if ids[0] !in ctx.verified then Failure(ObservationNotVerified(issueId, ids[0]))
    else if ctx.verified[ids[0]].evidenceClass !in FINDING_CLASSES then Failure(ClassNotAllowed(issueId, ids[0]))
    else
      match Support(ctx, issueId, ids[1..])
      case Failure(error) => Failure(error)
      case Success(entries) => Success([ctx.verified[ids[0]]] + entries)
  }

  function OpenQuestions(ctx: Context, issueId: string, ids: seq<string>): Result<seq<string>, ReportError> {
    if ids == [] then Success([])
    else if ids[0] !in ctx.questions then Failure(QuestionMissing(issueId, ids[0]))
    else
      match OpenQuestions(ctx, issueId, ids[1..])
      case Failure(error) => Failure(error)
      case Success(open) => Success((if ctx.questions[ids[0]] then [ids[0]] else []) + open)
  }

  function Contradictions(ctx: Context, issueId: string, ids: seq<string>): Result<seq<string>, ReportError> {
    if ids == [] then Success([])
    else if ids[0] !in ctx.contradictions then Failure(ContradictionMissing(issueId, ids[0]))
    else
      match Contradictions(ctx, issueId, ids[1..])
      case Failure(error) => Failure(error)
      case Success(related) => Success([ids[0]] + related)
  }

  predicate IsReported(p: Payload, auditId: string) {
    p.auditId == Some(auditId) && p.status != "rejected"
  }

  function IssueOf(p: Payload): IssueData {
    if p.body.IssueBody? then p.body.issue
    else IssueData("", "", Evidence([], None, None), None, None, map[])
  }

  function FindingOf(ctx: Context, key: string, p: Payload): Result<Finding, ReportError> {
    var issue := IssueOf(p);
    if issue.evidence.observationIds == [] then Failure(NoSupportingObservation(key))
    else
      match Support(ctx, key, SortStrings(issue.evidence.observationIds))
      case Failure(error) => Failure(error)
      case Success(entries) =>
        match OpenQuestions(ctx, key, SortStrings(issue.evidence.questionIds.GetOr([])))
        case Failure(error) => Failure(error)
        case Success(open) =>
          match Contradictions(ctx, key, SortStrings(issue.evidence.contradictionIds.GetOr([])))
          case Failure(error) => Failure(error)
          case Success(related) =>
            Success(Finding(if "finding_id" in issue.rest then issue.rest["finding_id"] else p.id, p.id, p.status,
                            issue.title, issue.summary, entries, open, related))
  }

  function FindingsFrom(ctx: Context, issues: map<string, Payload>, ids: seq<string>): Result<seq<Finding>, ReportError>
    requires forall id :: id in ids ==> id in issues
  {
    if ids == [] then Success([])
    else
      var n := |ids| - 1;
      match FindingsFrom(ctx, issues, ids[..n])
      case Failure(error) => Failure(error)
      case Success(findings) =>
        if !IsReported(issues[ids[n]], ctx.auditId) then Success(findings)
        else
          match FindingOf(ctx, ids[n], issues[ids[n]])
          case Failure(error) => Failure(error)
          case Success(f) => Success(findings + [f])
  }

  method CollectFindings(ctx: Context, issues: map<string, Payload>) returns (r: Result<seq<Finding>, ReportError>)
    ensures r == FindingsFrom(ctx, issues, Order(issues.Keys))
  {
    hide FindingOf, StrictlySorted, IsReported;
    var sorted := SortedIds(issues.Keys);
    var findings: seq<Finding> := [];
    var i := 0;
    while i < |sorted|
      invariant 0 <= i <= |sorted|
      invariant forall x :: x in sorted <==> x in issues
      invariant FindingsFrom(ctx, issues, sorted[..i]) == Success(findings)
    {
      var id := sorted[i];
      assert sorted[..i + 1][..i] == sorted[..i];
      if IsReported(issues[id], ctx.auditId) {
        var f := FindingOf(ctx, id, issues[id]);
        if f.Failure? {
          FirstErrorStays(ctx, issues, sorted, i + 1);
          return Failure(f.error);
        }
        findings := findings + [f.value];
      }
      i := i + 1;
    }
    assert sorted[..i] == sorted;
    r := Success(findings);
  }

  lemma {:induction false} FirstErrorStays(ctx: Context, issues: map<string, Payload>, ids: seq<string>, n: nat)
    requires forall id :: id in ids ==> id in issues
    requires n <= |ids| && FindingsFrom(ctx, issues, ids[..n]).Failure?
    ensures FindingsFrom(ctx, issues, ids) == FindingsFrom(ctx, issues, ids[..n])
    decreases |ids| - n
  {
    hide FindingOf;
    if n == |ids| {
      assert ids[..n] == ids;
    } else {
      assert ids[..n + 1][..n] == ids[..n];
      FirstErrorStays(ctx, issues, ids, n + 1);
    }
  }

  /******* Findings from observations *******/

  function SynthesizedId(observationId: string): string {
    "finding_obs_" + observationId
  }

  function Synthesize(e: Entry): Finding {
    Finding(SynthesizedId(e.observationId), "derived:" + e.observationId, "open", TitleOf(e.statement), e.statement,
            [e], [], [])
  }

  function TitleOf(statement: string): (title: string)
    ensures 0 < |title| <= 120
  {
    var stripped := Text.Strip(statement);
    if stripped == "" then "Verified observation requires review"
    else if |stripped| <= 120 then stripped
    else stripped[..117] + "..."
  }

  predicate CitedIn(findings: seq<Finding>, id: string) {
    exists f :: f in findings && id in f.SupportingIds()
  }

  predicate HasFindingId(findings: seq<Finding>, x: string) {
    exists f :: f in findings && f.findingId == x
  }

  predicate Synthesized(ids: seq<string>, x: string) {
    exists y :: y in ids && SynthesizedId(y) == x
  }

  // Where the uncited verified observations go: a finding of their own, or a suppression record.
  datatype Placement = Placement(synthesized: seq<string>, suppressions: seq<Suppression>)

  function Place(findings: seq<Finding>, verified: map<string, Entry>, p: Placement, id: string): Placement
    requires id in verified
  {
    if CitedIn(findings, id) || id in p.synthesized then p
    else if verified[id].evidenceClass !in FINDING_CLASSES then
      p.(suppressions := p.suppressions + [Suppression(id, ClassDisallowed(verified[id].evidenceClass))])
    else if HasFindingId(findings, SynthesizedId(id)) || Synthesized(p.synthesized, SynthesizedId(id)) then
      p.(suppressions := p.suppressions + [Suppression(id, IdCollision(SynthesizedId(id)))])
    else p.(synthesized := p.synthesized + [id])
  }

  function PlaceAll(findings: seq<Finding>, verified: map<string, Entry>, ids: seq<string>): Placement
    requires forall id :: id in ids ==> id in verified
  {
    if ids == [] then Placement([], [])
    else Place(findings, verified, PlaceAll(findings, verified, ids[..|ids| - 1]), ids[|ids| - 1])
  }

  function SynthesizedFindings(verified: map<string, Entry>, ids: seq<string>): seq<Finding>
    requires forall id :: id in ids ==> id in verified
  {
    seq(|ids|, i requires 0 <= i < |ids| => Synthesize(verified[ids[i]]))
  }

  // The observations and finding ids that the issue findings already account for.
  method Covered(findings: seq<Finding>) returns (covered: set<string>, taken: set<string>)
    ensures forall id :: id in covered <==> CitedIn(findings, id)
    ensures forall x :: x in taken <==> HasFindingId(findings, x)
  {
    covered, taken := {}, {};
    var i := 0;
    while i < |findings|
      invariant 0 <= i <= |findings|
      invariant forall id :: id in covered <==> CitedIn(findings[..i], id)
      invariant forall x :: x in taken <==> HasFindingId(findings[..i], x)
    {
      var f := findings[i];
      var supporting := set id | id in f.SupportingIds();
      OneMoreFinding(findings, i);
      covered := covered + supporting;
      taken := taken + {f.findingId};
      i := i + 1;
    }
    assert findings[..i] == findings;
  }

  lemma OneMoreFinding(findings: seq<Finding>, i: nat)
    requires i < |findings|
    ensures forall id ::
              CitedIn(findings[..i + 1], id) <==> CitedIn(findings[..i], id) || id in findings[i].SupportingIds()
    ensures forall x ::
              HasFindingId(findings[..i + 1], x) <==> HasFindingId(findings[..i], x) || x == findings[i].findingId
  {
    var more := findings[..i] + [findings[i]];
    assert findings[..i + 1] == more;
    assert findings[i] in more;
    assert forall f :: f in findings[..i] ==> f in more;
  }

  ghost function Placed(findings: seq<Finding>, verified: map<string, Entry>): (p: Placement)
    ensures forall id :: id in p.synthesized ==> id in verified
  {
    hide CitedIn, HasFindingId, Synthesized;
    PlacedAreVerified(findings, verified, Order(verified.Keys));
    PlaceAll(findings, verified, Order(verified.Keys))
  }

  lemma {:induction false} PlacedAreVerified(findings: seq<Finding>, verified: map<string, Entry>, ids: seq<string>)
    requires forall id :: id in ids ==> id in verified
    ensures forall id :: id in PlaceAll(findings, verified, ids).synthesized ==> id in verified
    decreases |ids|
  {
    hide CitedIn, HasFindingId, Synthesized;
    if ids != [] {
      PlacedAreVerified(findings, verified, ids[..|ids| - 1]);
    }
  }

  // The merge loop: visits the verified observations in order and keeps both sets up to date.
  method MergeWithObservations(findings: seq<Finding>, verified: map<string, Entry>)
    returns (merged: seq<Finding>, suppressions: seq<Suppression>)
    ensures var p := Placed(findings, verified);
            suppressions == p.suppressions && merged == findings + SynthesizedFindings(verified, p.synthesized)
  {
    hide StrictlySorted, Tracked, Place, PlaceAll, Synthesize, SynthesizedFindings, SynthesizedId;
    var covered, taken := Covered(findings);
    var order := SortedIds(verified.Keys);
    var p := Placement([], []);
    merged := findings;
    NothingTracked(findings, verified, covered, taken);
    var i := 0;
    while i < |order|
      invariant 0 <= i <= |order|
      invariant forall id :: id in order ==> id in verified
      invariant p == PlaceAll(findings, verified, order[..i])
      invariant forall id :: id in p.synthesized ==> id in verified
      invariant merged == findings + SynthesizedFindings(verified, p.synthesized)
      invariant Tracked(findings, p.synthesized, covered, taken)
    {
      var id := order[i];
      PlacedNext(findings, verified, order, i);
      TrackedDecides(findings, verified, p, id, covered, taken);
      if id !in covered {
        var entry := verified[id];
        if entry.evidenceClass !in FINDING_CLASSES {
          p := p.(suppressions := p.suppressions + [Suppression(id, ClassDisallowed(entry.evidenceClass))]);
        } else if SynthesizedId(id) in taken {
          p := p.(suppressions := p.suppressions + [Suppression(id, IdCollision(SynthesizedId(id)))]);
        } else {
          OneMoreTracked(findings, verified, p.synthesized, id, covered, taken);
          p := p.(synthesized := p.synthesized + [id]);
          merged := merged + [Synthesize(entry)];
          taken := taken + {SynthesizedId(id)};
          covered := covered + {id};
        }
      }
      i := i + 1;
    }
    assert order[..i] == order;
    suppressions := p.suppressions;
  }

  // Both sets are up to date once these observations have their own findings.
  ghost predicate Tracked(findings: seq<Finding>, ids: seq<string>, covered: set<string>, taken: set<string>) {
    && (forall id :: id in covered <==> CitedIn(findings, id) || id in ids)
    && (forall x :: x in taken <==> HasFindingId(findings, x) || Synthesized(ids, x))
  }

  lemma NothingTracked(findings: seq<Finding>, verified: map<string, Entry>, covered: set<string>, taken: set<string>)
    requires forall id :: id in covered <==> CitedIn(findings, id)
    requires forall x :: x in taken <==> HasFindingId(findings, x)
    ensures Tracked(findings, [], covered, taken) && PlaceAll(findings, verified, []) == Placement([], [])
    ensures SynthesizedFindings(verified, []) == []
  {
    hide CitedIn, HasFindingId;
  }

  lemma TrackedDecides(findings: seq<Finding>, verified: map<string, Entry>, p: Placement, id: string,
      covered: set<string>, taken: set<string>)
    requires Tracked(findings, p.synthesized, covered, taken) && id in verified
    ensures var evidenceClass := verified[id].evidenceClass;
            Place(findings, verified, p, id)
            == if id in covered then p
               else if evidenceClass !in FINDING_CLASSES then
                 p.(suppressions := p.suppressions + [Suppression(id, ClassDisallowed(evidenceClass))])
               else if SynthesizedId(id) in taken then
                 p.(suppressions := p.suppressions + [Suppression(id, IdCollision(SynthesizedId(id)))])
               else p.(synthesized := p.synthesized + [id])
  {
    hide CitedIn, HasFindingId, Synthesized, SynthesizedId;
  }

  lemma OneMoreTracked(findings: seq<Finding>, verified: map<string, Entry>, ids: seq<string>, id: string,
      covered: set<string>, taken: set<string>)
    requires Tracked(findings, ids, covered, taken) && id in verified && forall x :: x in ids ==> x in verified
    ensures Tracked(findings, ids + [id], covered + {id}, taken + {SynthesizedId(id)})
    ensures SynthesizedFindings(verified, ids + [id]) == SynthesizedFindings(verified, ids) + [Synthesize(verified[id])]
  {
    hide CitedIn, HasFindingId, Synthesized, SynthesizedId, Synthesize;
    OneMoreSynthesized(verified, ids, id);
  }

  lemma PlacedNext(findings: seq<Finding>, verified: map<string, Entry>, order: seq<string>, i: nat)
    requires i < |order| && forall id :: id in order ==> id in verified
    ensures PlaceAll(findings, verified, order[..i + 1])
         == Place(findings, verified, PlaceAll(findings, verified, order[..i]), order[i])
  {
    hide Place;
    assert order[..i + 1][..i] == order[..i];
  }

  lemma OneMoreSynthesized(verified: map<string, Entry>, ids: seq<string>, id: string)
    requires id in verified && forall x :: x in ids ==> x in verified
    ensures SynthesizedFindings(verified, ids + [id]) == SynthesizedFindings(verified, ids) + [Synthesize(verified[id])]
    ensures forall x :: Synthesized(ids + [id], x) <==> Synthesized(ids, x) || SynthesizedId(id) == x
  {
    hide SynthesizedId, Synthesize;
    assert id in ids + [id];
  }

  /******* Every verified observation is accounted for *******/

  ghost predicate PlacedOnce(findings: seq<Finding>, ids: seq<string>, p: Placement) {
    forall id :: multiset(p.synthesized)[id] + multiset(SuppressedIds(p.suppressions))[id]
                 == if id in ids && !CitedIn(findings, id) then 1 else 0
  }

  // Each verified observation is in exactly one place: cited by an issue finding, the subject of one
  // synthesised finding, or the subject of one suppression record that states the true reason.
  lemma {:induction false} ObservationsArePartitioned(findings: seq<Finding>, verified: map<string, Entry>,
      ids: seq<string>)
    requires StrictlySorted(ids) && forall id :: id in ids ==> id in verified
    ensures PlacedOnce(findings, ids, PlaceAll(findings, verified, ids))
    decreases |ids|
  {
    if ids == [] {
      NothingPlaced(findings);
    } else {
      hide CitedIn, HasFindingId, SynthesizedId, Synthesized, Place, PlacedOnce;
      var n := |ids| - 1;
      var before := PlaceAll(findings, verified, ids[..n]);
      ObservationsArePartitioned(findings, verified, ids[..n]);
      NotYetVisited(ids, n);
      PlacingCounts(findings, verified, before, ids, n);
      assert ids[..n] + [ids[n]] == ids;
    }
  }

  lemma NothingPlaced(findings: seq<Finding>)
    ensures PlacedOnce(findings, [], Placement([], []))
  {
    assert SuppressedIds([]) == [];
  }

  lemma PlacingCounts(findings: seq<Finding>, verified: map<string, Entry>, p: Placement, ids: seq<string>, n: nat)
    requires n < |ids| && ids[n] in verified && ids[n] !in ids[..n]
    requires PlacedOnce(findings, ids[..n], p)
    ensures PlacedOnce(findings, ids[..n] + [ids[n]], Place(findings, verified, p, ids[n]))
  {
    hide CitedIn, HasFindingId, SynthesizedId, Synthesized;
    var id := ids[n];
    assert multiset(p.synthesized)[id] == 0;
    assert id !in p.synthesized;
    var reason := if verified[id].evidenceClass !in FINDING_CLASSES
                  then ClassDisallowed(verified[id].evidenceClass) else IdCollision(SynthesizedId(id));
    SuppressedAppend(p.suppressions, Suppression(id, reason));
  }

  // The reasons are true: a suppressed observation has a disallowed class, or an issue finding
  // already carries the id its own finding would have; synthesised findings rest on allowed classes.
  ghost predicate PlacedTruly(findings: seq<Finding>, verified: map<string, Entry>, p: Placement) {
    && (forall s :: s in p.suppressions ==> Justified(findings, verified, s))
    && (forall id :: id in p.synthesized ==> id in verified && verified[id].evidenceClass in FINDING_CLASSES
                                             && !HasFindingId(findings, SynthesizedId(id)))
  }

  lemma {:induction false} PlacementsAreJustified(findings: seq<Finding>, verified: map<string, Entry>,
      ids: seq<string>)
    requires StrictlySorted(ids) && forall id :: id in ids ==> id in verified
    ensures PlacedTruly(findings, verified, PlaceAll(findings, verified, ids))
    decreases |ids|
  {
    if ids != [] {
      hide CitedIn, HasFindingId, SynthesizedId, Synthesized, Place, PlacedTruly, PlacedOnce;
      var n := |ids| - 1;
      PlacementsAreJustified(findings, verified, ids[..n]);
      ObservationsArePartitioned(findings, verified, ids[..n]);
      NotYetVisited(ids, n);
      NextIsJustified(findings, verified, PlaceAll(findings, verified, ids[..n]), ids[..n], ids[n]);
    }
  }

  lemma NextIsJustified(findings: seq<Finding>, verified: map<string, Entry>, p: Placement, ids: seq<string>,
      id: string)
    requires PlacedTruly(findings, verified, p) && PlacedOnce(findings, ids, p) && id in verified && id !in ids
    ensures PlacedTruly(findings, verified, Place(findings, verified, p, id))
  {
    hide CitedIn, HasFindingId, SynthesizedId, Synthesized;
    assert multiset(p.synthesized)[id] == 0;
    NotMine(p.synthesized, id);
  }

  function SuppressedIds(records: seq<Suppression>): seq<string> {
    seq(|records|, i requires 0 <= i < |records| => records[i].observationId)
  }

  predicate Justified(findings: seq<Finding>, verified: map<string, Entry>, s: Suppression) {
    && s.observationId in verified && !CitedIn(findings, s.observationId)
    && match s.reason
       case ClassDisallowed(c) => c == verified[s.observationId].evidenceClass && c !in FINDING_CLASSES
       case IdCollision(f) => f == SynthesizedId(s.observationId) && HasFindingId(findings, f)
  }

  lemma SuppressedAppend(records: seq<Suppression>, r: Suppression)
    ensures SuppressedIds(records + [r]) == SuppressedIds(records) + [r.observationId]
  {
  }

  lemma NotYetVisited(ids: seq<string>, i: nat)
    requires StrictlySorted(ids) && i < |ids|
    ensures ids[i] !in ids[..i]
  {
  }

  // Different observations get different finding ids.
  lemma NotMine(synthesized: seq<string>, id: string)
    requires id !in synthesized
    ensures !Synthesized(synthesized, SynthesizedId(id))
  {
    forall x | x in synthesized ensures SynthesizedId(x) != SynthesizedId(id) {
      assert SynthesizedId(x)[12..] == x && SynthesizedId(id)[12..] == id;
    }
  }
}
