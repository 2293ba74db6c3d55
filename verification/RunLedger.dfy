/** The forensic run ledger: its numbering, the trace of an entity, and the two ways of telling what
    became of a candidate. */
module RunLedger {
  import opened Wrappers
  import opened Ordering
  import Text
  import opened Json

  datatype EventRef = EventRef(eventId: string, eventType: string, entityType: string, entityId: string)

  datatype Entry =
    | RunStarted(sequence: nat, runId: string, auditId: string, snapshotRef: string)
    | WorkerExecution(sequence: nat, runId: string, auditId: string, taskId: string, status: string,
        failureStage: Option<string>, counts: Counts, accepted: seq<EventRef>, rejected: seq<EventRef>)

  datatype Counts = Counts(total: int, accepted: int, rejected: int)

  // What the caller says about one event, and about a whole execution.
  datatype Reported = Reported(outcome: string, event: EventRef, line: Option<int>)

  datatype Execution = Execution(
    runId: string, auditId: string, taskId: string, inputDigest: Option<string>, outputDigest: Option<string>,
    status: string, failureStage: Option<string>, counts: Counts, outcomes: seq<Reported>)

  datatype Trace = Trace(sequence: nat, runId: string, auditId: string, taskId: string, event: EventRef)

  datatype LedgerError =
    | BlankField | RunMismatch(runId: string)
    | NegativeCount | BadStatus | UnexpectedStage | MissingDigest | MissingStage | BadOutcome | BadLine

  /******* Numbering *******/

  function HighestSequence(entries: seq<Entry>): nat {
    if entries == [] then 0
    else
      var before := HighestSequence(entries[..|entries| - 1]);
      var last := entries[|entries| - 1].sequence;
      if last > before then last else before
  }

  function NextSequence(entries: seq<Entry>): nat {
    HighestSequence(entries) + 1
  }

  function Value(digits: string): nat
    requires forall i :: 0 <= i < |digits| ==> IsDigit(digits[i])
  {
    if digits == "" then 0
    else
      assert IsDigit(digits[|digits| - 1]);
      10 * Value(digits[..|digits| - 1]) + (digits[|digits| - 1] as int - '0' as int)
  }

  // Decimal digits, at least `width` of them.
  function Padded(n: nat, width: nat): (s: string)
    ensures |s| >= width
    ensures forall i :: 0 <= i < |s| ==> IsDigit(s[i])
    decreases n + width
  {
    if n == 0 && width == 0 then ""
    else Padded(n / 10, if width == 0 then 0 else width - 1) + [('0' as int + n % 10) as char]
  }

  lemma {:induction false} PaddedValue(n: nat, width: nat)
    ensures Value(Padded(n, width)) == n
    decreases n + width
  {
    if n != 0 || width != 0 {
      var w := if width == 0 then 0 else width - 1;
      PaddedValue(n / 10, w);
      var s := Padded(n, width);
      assert s[..|s| - 1] == Padded(n / 10, w);
      assert s[|s| - 1] as int - '0' as int == n % 10;
    }
  }

  const PREFIX := "run_"

  function RunId(n: nat): string {
    PREFIX + Padded(n, 4)
  }

  function RunNumber(runId: string): Option<nat> {
    if PREFIX <= runId && runId != PREFIX && forall i :: |PREFIX| <= i < |runId| ==> IsDigit(runId[i])
    then Some(Value(runId[|PREFIX|..])) else None
  }

  function HighestRun(entries: seq<Entry>): nat {
    if entries == [] then 0
    else
      var before := HighestRun(entries[..|entries| - 1]);
      var last := entries[|entries| - 1];
      if last.RunStarted? && RunNumber(last.runId).GetOr(0) > before then RunNumber(last.runId).value else before
  }

  function NextRunId(entries: seq<Entry>): string {
    RunId(HighestRun(entries) + 1)
  }

  predicate HasRun(entries: seq<Entry>, runId: string) {
    exists e :: e in entries && e.RunStarted? && e.runId == runId
  }

  // A generated run id is not in use, and reads back as its number.
  lemma NextRunIdIsFresh(entries: seq<Entry>)
    ensures !HasRun(entries, NextRunId(entries))
    ensures RunNumber(NextRunId(entries)) == Some(HighestRun(entries) + 1)
  {
    var n := HighestRun(entries) + 1;
    PaddedValue(n, 4);
    assert RunId(n)[|PREFIX|..] == Padded(n, 4);
    forall e | e in entries && e.RunStarted? ensures e.runId != RunId(n) {
      HighestRunBounds(entries, e);
    }
  }

  lemma {:induction false} HighestRunBounds(entries: seq<Entry>, e: Entry)
    requires e in entries && e.RunStarted?
    ensures RunNumber(e.runId).GetOr(0) <= HighestRun(entries)
    decreases |entries|
  {
    var n := |entries| - 1;
    if e != entries[n] {
      HighestRunBounds(entries[..n], e);
    }
  }

  function FindRun(entries: seq<Entry>, runId: string): (r: Option<Entry>)
    ensures r.Some? ==> r.value in entries && r.value.RunStarted? && r.value.runId == runId
    ensures r.None? ==> !HasRun(entries, runId)
  {
    if entries == [] then None
    else if entries[0].RunStarted? && entries[0].runId == runId then Some(entries[0])
    else FindRun(entries[1..], runId)
  }

  predicate IsBlank(s: string) {
    Text.Strip(s) == ""
  }

  function ChosenRun(entries: seq<Entry>, runId: Option<string>): string {
    if runId.GetOr("") != "" then runId.value else NextRunId(entries)
  }

  function StartResult(entries: seq<Entry>, auditId: string, snapshotRef: string,
      runId: Option<string>): Result<Entry, LedgerError> {
    if IsBlank(auditId) || IsBlank(snapshotRef) then Failure(BlankField)
    else
      var id := ChosenRun(entries, runId);
      match FindRun(entries, id)
      case None => Success(RunStarted(NextSequence(entries), id, auditId, snapshotRef))
      case Some(e) => if e.auditId != auditId || e.snapshotRef != snapshotRef
          then Failure(RunMismatch(id)) else Success(e)
  }

  function AfterStart(entries: seq<Entry>, auditId: string, snapshotRef: string, runId: Option<string>): seq<Entry> {
    var r := StartResult(entries, auditId, snapshotRef, runId);
    if r.Success? && FindRun(entries, ChosenRun(entries, runId)).None? then entries + [r.value] else entries
  }

  /******* Recorded executions *******/

  // What is wrong with an execution before its outcomes are looked at, in the order of the checks.
  function Complaint(x: Execution): Option<LedgerError> {
    if x.counts.total < 0 || x.counts.accepted < 0 || x.counts.rejected < 0 then Some(NegativeCount)
    else if x.status != "succeeded" && x.status != "failed" then Some(BadStatus)
    else if x.status == "succeeded" then
      if x.failureStage.Some? then Some(UnexpectedStage)
      else if x.inputDigest.None? || x.outputDigest.None? then Some(MissingDigest)
      else None
    else if IsBlank(x.failureStage.GetOr("")) then Some(MissingStage)
    else None
  }

  function OutcomeComplaint(r: Reported): Option<LedgerError> {
    if Text.Strip(r.outcome) != "accepted" && Text.Strip(r.outcome) != "rejected" then Some(BadOutcome)
    else if r.line.Some? && r.line.value < 1 then Some(BadLine)
    else None
  }

  function FirstComplaint(outcomes: seq<Reported>): Option<LedgerError> {
    if outcomes == [] then None
    else
      var before := FirstComplaint(outcomes[..|outcomes| - 1]);
      if before.Some? then before else OutcomeComplaint(outcomes[|outcomes| - 1])
  }

  function NormalRef(r: EventRef): EventRef {
    EventRef(Text.Strip(r.eventId), Text.Strip(r.eventType), Text.Strip(r.entityType), Text.Strip(r.entityId))
  }

  function RefsWith(outcomes: seq<Reported>, outcome: string): seq<EventRef> {
    if outcomes == [] then []
    else
      var last := outcomes[|outcomes| - 1];
      RefsWith(outcomes[..|outcomes| - 1], outcome)
      + if Text.Strip(last.outcome) == outcome then [NormalRef(last.event)] else []
  }

  function RecordResult(entries: seq<Entry>, x: Execution): Result<Entry, LedgerError> {
    if Complaint(x).Some? then Failure(Complaint(x).value)
    else if FirstComplaint(x.outcomes).Some? then Failure(FirstComplaint(x.outcomes).value)
    else
      Success(WorkerExecution(
                NextSequence(entries), x.runId, x.auditId, x.taskId, x.status,
                if IsBlank(x.failureStage.GetOr("")) then None else Some(Text.Strip(x.failureStage.GetOr(""))),
                x.counts, RefsWith(x.outcomes, "accepted"), RefsWith(x.outcomes, "rejected")))
  }

  function AfterRecord(entries: seq<Entry>, x: Execution): seq<Entry> {
    var r := RecordResult(entries, x);
    if r.Success? then entries + [r.value] else entries
  }

  lemma {:induction false} FirstComplaintStays(outcomes: seq<Reported>, n: nat)
    requires n <= |outcomes| && FirstComplaint(outcomes[..n]).Some?
    ensures FirstComplaint(outcomes) == FirstComplaint(outcomes[..n])
    decreases |outcomes|
  {
    hide OutcomeComplaint;
    if n == |outcomes| {
      assert outcomes[..n] == outcomes;
    } else {
      assert outcomes[..|outcomes| - 1][..n] == outcomes[..n];
      FirstComplaintStays(outcomes[..|outcomes| - 1], n);
    }
  }

  function AllRefs(outcomes: seq<Reported>): seq<EventRef> {
    seq(|outcomes|, i requires 0 <= i < |outcomes| => NormalRef(outcomes[i].event))
  }

  // Every outcome of a recorded execution ends up in exactly one of the two lists of its entry.
  lemma {:induction false} OutcomesAreSplit(outcomes: seq<Reported>)
    requires FirstComplaint(outcomes).None?
    ensures multiset(RefsWith(outcomes, "accepted")) + multiset(RefsWith(outcomes, "rejected"))
            == multiset(AllRefs(outcomes))
    decreases |outcomes|
  {
    hide NormalRef, Text.Strip;
    if outcomes != [] {
      var n := |outcomes| - 1;
      OutcomesAreSplit(outcomes[..n]);
      assert AllRefs(outcomes) == AllRefs(outcomes[..n]) + [NormalRef(outcomes[n].event)];
    }
  }

  /******* Entity traces *******/

  predicate Concerns(r: EventRef, entityType: string, entityId: string) {
    r.entityType == entityType && r.entityId == entityId
  }

  function TraceOf(e: Entry, r: EventRef): Trace
    requires e.WorkerExecution?
  {
    Trace(e.sequence, e.runId, e.auditId, e.taskId, r)
  }

  function MatchesIn(e: Entry, refs: seq<EventRef>, entityType: string, entityId: string): seq<Trace>
    requires e.WorkerExecution?
  {
    if refs == [] then []
    else
      MatchesIn(e, refs[..|refs| - 1], entityType, entityId)
      + if Concerns(refs[|refs| - 1], entityType, entityId) then [TraceOf(e, refs[|refs| - 1])] else []
  }

  function Matches(entries: seq<Entry>, entityType: string, entityId: string): seq<Trace> {
    if entries == [] then []
    else
      var last := entries[|entries| - 1];
      Matches(entries[..|entries| - 1], entityType, entityId)
      + if last.WorkerExecution? then MatchesIn(last, last.accepted, entityType, entityId) else []
  }

  function IndexOf(preferred: seq<string>, eventType: string): (n: nat)
    ensures n <= |preferred| && (n < |preferred| ==> preferred[n] == eventType)
    ensures n == |preferred| <==> eventType !in preferred
  {
    if preferred == [] then 0 else if preferred[0] == eventType then 0 else 1 + IndexOf(preferred[1..], eventType)
  }

  function Rank(preferred: seq<string>, t: Trace): nat {
    IndexOf(preferred, t.event.eventType)
  }

  function TraceOrder(preferred: seq<string>): Trace -> Key {
    (t: Trace) => [Rank(preferred, t), t.sequence]
  }

  function OfRank(preferred: seq<string>, rank: nat): Trace -> Option<Trace> {
    (t: Trace) => if Rank(preferred, t) == rank then Some(t) else None
  }

  function Best(matches: seq<Trace>, preferred: seq<string>): Option<Trace> {
    if matches == [] then None
    else
      var sorted := SortBy(matches, TraceOrder(preferred));
      if sorted == [] then None
      else
        var ranked := Collect(sorted, OfRank(preferred, Rank(preferred, sorted[0])));
        if ranked == [] then None else Some(ranked[|ranked| - 1])
  }

  /******* Candidate outcomes *******/

  const CANDIDATE_PROPOSED := "candidate.proposed"
  const CANDIDATE_ROUTED := "candidate.routed_to_verify"
  const CANDIDATE_REJECTED := "candidate.rejected"
  const CANDIDATE_PROMOTED := "candidate.promoted_to_observation"

  datatype Outcome = Unknown | Proposed | Routed | Rejected | Promoted

  // What each candidate event turns its candidate into.
  function Becomes(eventType: string): Option<Outcome> {
    if eventType == CANDIDATE_ROUTED then Some(Routed)
    else if eventType == CANDIDATE_REJECTED then Some(Rejected)
    else if eventType == CANDIDATE_PROMOTED then Some(Promoted)
    else None
  }

  datatype Summary = Summary(outcome: Outcome, proposedEventId: string)

  function AuditRefs(entries: seq<Entry>, auditId: string): seq<EventRef> {
    if entries == [] then []
    else
      var last := entries[|entries| - 1];
      AuditRefs(entries[..|entries| - 1], auditId)
      + if last.WorkerExecution? && last.auditId == auditId then last.accepted else []
  }

  function FirstPass(m: map<string, Summary>, refs: seq<EventRef>): map<string, Summary> {
    if refs == [] then m
    else
      var before := FirstPass(m, refs[..|refs| - 1]);
      var r := refs[|refs| - 1];
      if r.eventType != CANDIDATE_PROPOSED || r.entityId == "" || r.entityId in before then before
      else before[r.entityId := Summary(Proposed, r.eventId)]
  }

  function SecondPass(m: map<string, Summary>, refs: seq<EventRef>): map<string, Summary> {
    if refs == [] then m
    else
      var before := SecondPass(m, refs[..|refs| - 1]);
      var r := refs[|refs| - 1];
      if r.entityId == "" || r.entityId !in before || Becomes(r.eventType).None? then before
      else before[r.entityId := before[r.entityId].(outcome := Becomes(r.eventType).value)]
  }

  function Listed(entries: seq<Entry>, auditId: string): map<string, Summary> {
    var refs := AuditRefs(entries, auditId);
    SecondPass(FirstPass(map[], refs), refs)
  }

  function TracedAs(entries: seq<Entry>, candidateId: string, eventType: string): bool {
    var t := Best(Matches(entries, "candidate", candidateId), [eventType]);
    t.Some? && t.value.event.eventType == eventType
  }

  function TracedOutcome(entries: seq<Entry>, candidateId: string): Outcome {
    if TracedAs(entries, candidateId, CANDIDATE_PROMOTED) then Promoted
    else if TracedAs(entries, candidateId, CANDIDATE_REJECTED) then Rejected
    else if TracedAs(entries, candidateId, CANDIDATE_ROUTED) then Routed
    else if TracedAs(entries, candidateId, CANDIDATE_PROPOSED) then Proposed
    else Unknown
  }

  /******* The ledger *******/

  method CollectMatches(entries: seq<Entry>, entityType: string, entityId: string) returns (matches: seq<Trace>)
    ensures matches == Matches(entries, entityType, entityId)
  {
    matches := [];
    var i := 0;
    while i < |entries|
      invariant 0 <= i <= |entries|
      invariant matches == Matches(entries[..i], entityType, entityId)
    {
      assert entries[..i + 1][..i] == entries[..i];
      if entries[i].WorkerExecution? {
        var found := MatchEntry(entries[i], entityType, entityId);
        matches := matches + found;
      }
      i := i + 1;
    }
    assert entries[..i] == entries;
  }

  method MatchEntry(e: Entry, entityType: string, entityId: string) returns (found: seq<Trace>)
    requires e.WorkerExecution?
    ensures found == MatchesIn(e, e.accepted, entityType, entityId)
  {
    found := [];
    var i := 0;
    while i < |e.accepted|
      invariant 0 <= i <= |e.accepted|
      invariant found == MatchesIn(e, e.accepted[..i], entityType, entityId)
    {
      assert e.accepted[..i + 1][..i] == e.accepted[..i];
      if Concerns(e.accepted[i], entityType, entityId) {
        found := found + [TraceOf(e, e.accepted[i])];
      }
      i := i + 1;
    }
    assert e.accepted[..i] == e.accepted;
  }

  method CollectProposed(refs: seq<EventRef>) returns (m: map<string, Summary>)
    ensures m == FirstPass(map[], refs)
  {
    m := map[];
    var i := 0;
    while i < |refs|
      invariant 0 <= i <= |refs|
      invariant m == FirstPass(map[], refs[..i])
    {
      assert refs[..i + 1][..i] == refs[..i];
      var r := refs[i];
      if r.eventType == CANDIDATE_PROPOSED && r.entityId != "" && r.entityId !in m {
        m := m[r.entityId := Summary(Proposed, r.eventId)];
      }
      i := i + 1;
    }
    assert refs[..i] == refs;
  }

  method UpdateOutcomes(start: map<string, Summary>, refs: seq<EventRef>) returns (m: map<string, Summary>)
    ensures m == SecondPass(start, refs)
  {
    m := start;
    var i := 0;
    while i < |refs|
      invariant 0 <= i <= |refs|
      invariant m == SecondPass(start, refs[..i])
    {
      assert refs[..i + 1][..i] == refs[..i];
      var r := refs[i];
      if r.entityId != "" && r.entityId in m {
        if r.eventType == CANDIDATE_ROUTED {
          m := m[r.entityId := m[r.entityId].(outcome := Routed)];
        } else if r.eventType == CANDIDATE_REJECTED {
          m := m[r.entityId := m[r.entityId].(outcome := Rejected)];
        } else if r.eventType == CANDIDATE_PROMOTED {
          m := m[r.entityId := m[r.entityId].(outcome := Promoted)];
        }
      }
      i := i + 1;
    }
    assert refs[..i] == refs;
  }

  class Ledger {
    var entries: seq<Entry>

    constructor ()
      ensures entries == []
    {
      entries := [];
    }

    // Starting a run again under the same id and metadata returns the entry it already has.
    method StartRun(auditId: string, snapshotRef: string, runId: Option<string>) returns (r: Result<Entry, LedgerError>)
      modifies this
      ensures entries == AfterStart(old(entries), auditId, snapshotRef, runId)
      ensures r == StartResult(old(entries), auditId, snapshotRef, runId)
    {
      hide IsBlank, ChosenRun, FindRun, NextSequence;
      if IsBlank(auditId) || IsBlank(snapshotRef) {
        return Failure(BlankField);
      }
      var id := ChosenRun(entries, runId);
      var existing := FindRun(entries, id);
      if existing.Some? {
        if existing.value.auditId != auditId || existing.value.snapshotRef != snapshotRef {
          return Failure(RunMismatch(id));
        }
        return Success(existing.value);
      }
      var e := RunStarted(NextSequence(entries), id, auditId, snapshotRef);
      entries := entries + [e];
      return Success(e);
    }

    method RecordWorkerExecution(x: Execution) returns (r: Result<Entry, LedgerError>)
      modifies this
      ensures r == RecordResult(old(entries), x)
      ensures entries == AfterRecord(old(entries), x)
    {
      hide Complaint, OutcomeComplaint, NormalRef, Text.Strip, IsBlank, NextSequence;
      var complaint := Complaint(x);
      if complaint.Some? {
        return Failure(complaint.value);
      }
      var accepted: seq<EventRef>, rejected: seq<EventRef> := [], [];
      var i := 0;
      while i < |x.outcomes|
        invariant 0 <= i <= |x.outcomes|
        invariant FirstComplaint(x.outcomes[..i]).None?
        invariant accepted == RefsWith(x.outcomes[..i], "accepted") && rejected == RefsWith(x.outcomes[..i], "rejected")
      {
        var outcome := x.outcomes[i];
        assert x.outcomes[..i + 1][..i] == x.outcomes[..i];
        complaint := OutcomeComplaint(outcome);
        if complaint.Some? {
          FirstComplaintStays(x.outcomes, i + 1);
          return Failure(complaint.value);
        }
        if Text.Strip(outcome.outcome) == "accepted" {
          accepted := accepted + [NormalRef(outcome.event)];
        }
        if Text.Strip(outcome.outcome) == "rejected" {
          rejected := rejected + [NormalRef(outcome.event)];
        }
        i := i + 1;
      }
      assert x.outcomes[..i] == x.outcomes;
      var stage := x.failureStage.GetOr("");
      var e := WorkerExecution(
        NextSequence(entries), x.runId, x.auditId, x.taskId, x.status,
        if IsBlank(stage) then None else Some(Text.Strip(stage)), x.counts, accepted, rejected);
      entries := entries + [e];
      return Success(e);
    }

    method ResolveEntityTrace(entityType: string, entityId: string, preferred: seq<string>) returns (r: Option<Trace>)
      ensures r == Best(Matches(entries, entityType, entityId), preferred)
    {
      var matches := CollectMatches(entries, entityType, entityId);
      return Best(matches, preferred);
    }

    method ListCandidatesByOutcome(auditId: string) returns (m: map<string, Summary>)
      ensures m == Listed(entries, auditId)
    {
      var refs := AuditRefs(entries, auditId);
      m := CollectProposed(refs);
      m := UpdateOutcomes(m, refs);
    }
  }
}
