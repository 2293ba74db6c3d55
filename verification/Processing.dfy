/** The acceptance loop: prepare, validate against the current ledger, append, and finally rebuild
    the canonical state. */
module Processing {
  import opened Wrappers
  import opened Events
  import opened Canonicalization
  import opened Rules
  import opened Projector
  import opened Validators

  datatype Submission = NotAnObject | Submitted(event: Event)

  datatype Prepared = Ready(event: Event) | NotReady(codes: seq<Code>) | PrepareRaised

  const SYSTEM_ACCEPTOR := System("runtime.process_candidate_events")
  const ACCEPTANCE_REASON := "accepted_by_validator_suite"

  function Prepare(env: Env, c: Submission): Prepared {
    match c
    case NotAnObject => NotReady([CandidateNotObject])
    case Submitted(e) =>
      if e.acceptance.NoAcceptance? then NotReady([MissingAcceptance])
      else if e.acceptance.status != "pending" then NotReady([NotPending])
      else
        var accepted := Acceptance("accepted", Some(e.occurredAt), Some(SYSTEM_ACCEPTOR), Some(ACCEPTANCE_REASON));
        match Canonicalize(env, e.(acceptance := accepted))
        case None => PrepareRaised
        case Some(canonical) => Ready(canonical)
  }

  /******* The store's own duplicate check *******/

  datatype AppendOutcome = Fresh | Duplicate | IdConflict | KeyConflict

  function StoreCheck(ledger: seq<Event>, e: Event): AppendOutcome {
    if ledger == [] then Fresh
    else
      var existing := ledger[0];
      if existing.id == e.id then if existing == e then Duplicate else IdConflict
      else if existing.auditId == e.auditId && existing.idempotencyKey == e.idempotencyKey then
        if existing == e then Duplicate else KeyConflict
      else StoreCheck(ledger[1..], e)
  }

  /******* One candidate *******/

  datatype Outcome = Accepted(event: Event) | Rejected(codes: seq<Code>) | Aborted

  function Decide(cfg: Config, ledger: seq<Event>, c: Submission): Outcome {
    match Prepare(cfg.env, c)
    case PrepareRaised => Aborted
    case NotReady(codes) => Rejected(codes)
    case Ready(e) =>
      match Validate(cfg, ledger, e)
      case Raised => Aborted
      case Issues(codes) =>
        if codes != [] then Rejected(codes)
        else
          match StoreCheck(ledger, e)
          case Fresh => Accepted(e)
          case Duplicate => Rejected([AppendNotPersisted])
          case _ => Rejected([AppendFailed])
  }

  function After(ledger: seq<Event>, o: Outcome): seq<Event> {
    if o.Accepted? then ledger + [o.event] else ledger
  }

  // The ledger after a list of submissions, however they were grouped into batches.
  function Run(cfg: Config, ledger: seq<Event>, cs: seq<Submission>): seq<Event> {
    if cs == [] then ledger
    else
      var before := Run(cfg, ledger, cs[..|cs| - 1]);
      After(before, Decide(cfg, before, cs[|cs| - 1]))
  }

  // The outcome of every submission of a list.
  function Outcomes(cfg: Config, ledger: seq<Event>, cs: seq<Submission>): seq<Outcome> {
    if cs == [] then []
    else
      var n := |cs| - 1;
      Outcomes(cfg, ledger, cs[..n]) + [Decide(cfg, Run(cfg, ledger, cs[..n]), cs[n])]
  }

  ghost predicate Reachable(cfg: Config, ledger: seq<Event>) {
    exists cs :: ledger == Run(cfg, [], cs)
  }

  /******* A whole call *******/

  // Every candidate that names an audit names the requested one, or they all name the same one.
  predicate Aligned(cs: seq<Submission>, auditId: Option<string>) {
    forall i, j :: 0 <= i < |cs| && 0 <= j < |cs| && cs[i].Submitted? && cs[j].Submitted? ==>
      cs[i].event.auditId == (if auditId.Some? then auditId.value else cs[j].event.auditId)
  }

  // The audit of the last accepted submission.
  function Appended(outcomes: seq<Outcome>): Option<string> {
    if outcomes == [] then None
    else
      var last := outcomes[|outcomes| - 1];
      if last.Accepted? then Some(last.event.auditId) else Appended(outcomes[..|outcomes| - 1])
  }

  // The audit whose state is rebuilt after these outcomes, if any.
  function Rebuilt(auditId: Option<string>, outcomes: seq<Outcome>): Option<string> {
    if Appended(outcomes).Some? && auditId.Some? then auditId else Appended(outcomes)
  }

  datatype Result = BatchError | BatchAborted(outcomes: seq<Outcome>) | ProjectionError(outcomes: seq<Outcome>)
                  | Processed(outcomes: seq<Outcome>)

  class Workspace {
    var ledger: seq<Event>
    var canonicalState: Option<State>

    constructor ()
      ensures ledger == [] && canonicalState == None
    {
      ledger, canonicalState := [], None;
    }

    // Rebuilds the state file from the ledger; on failure the old file stays.
    method RecoverRuntimeState(cfg: Config, auditId: Option<string>) returns (ok: bool)
      modifies this`canonicalState
      ensures var state := ProjectRequested(cfg.stateSchema, ledger, auditId);
              ok == state.Some? && canonicalState == if ok then state else old(canonicalState)
    {
      hide Project;
      var ids := AcceptedAudits(ledger);
      if auditId.None? && |ids| > 1 {
        return false;
      }
      var state := BuildState(cfg.stateSchema, ledger, if auditId.Some? then auditId.value else FirstAudit(ledger));
      ok := state.Some?;
      if ok {
        canonicalState := state;
      }
    }

    method ProcessCandidateEvents(cfg: Config, cs: seq<Submission>, auditId: Option<string>) returns (r: Result)
      modifies this
      ensures r.BatchError? <==> !Aligned(cs, auditId)
      ensures r.BatchError? ==> ledger == old(ledger) && canonicalState == old(canonicalState)
      ensures !r.BatchError? ==>
                && |r.outcomes| <= |cs|
                && r.outcomes == Outcomes(cfg, old(ledger), cs[..|r.outcomes|])
                && ledger == Run(cfg, old(ledger), cs[..|r.outcomes|])
                && (forall i :: 0 <= i < |r.outcomes| - 1 ==> !r.outcomes[i].Aborted?)
      ensures r.BatchAborted? <==> Aligned(cs, auditId) && r.outcomes != [] && r.outcomes[|r.outcomes| - 1].Aborted?
      ensures r.Processed? || r.ProjectionError? ==> |r.outcomes| == |cs|
      ensures r.Processed? ==>
                canonicalState == match Rebuilt(auditId, r.outcomes)
                                  case None => old(canonicalState)
                                  case Some(id) => Project(cfg.stateSchema, ledger, id)
      ensures r.Processed? && Rebuilt(auditId, r.outcomes).Some? ==> canonicalState.Some?
      ensures r.ProjectionError? ==>
                && Rebuilt(auditId, r.outcomes).Some?
                && Project(cfg.stateSchema, ledger, Rebuilt(auditId, r.outcomes).value).None?
      ensures r.ProjectionError? || r.BatchAborted? ==> canonicalState == old(canonicalState)
    {
      hide Decide, Aligned, Project;
      if !Aligned(cs, auditId) {
        return BatchError;
      }
      var outcomes: seq<Outcome> := [];
      var appended: Option<string> := None;
      var index := 0;
      while index < |cs|
        invariant 0 <= index <= |cs|
        invariant outcomes == Outcomes(cfg, old(ledger), cs[..index]) && |outcomes| == index
        invariant ledger == Run(cfg, old(ledger), cs[..index])
        invariant canonicalState == old(canonicalState)
        invariant forall i :: 0 <= i < |outcomes| ==> !outcomes[i].Aborted?
        invariant appended == Appended(outcomes)
      {
        var outcome := Decide(cfg, ledger, cs[index]);
        OneMoreOutcome(cfg, old(ledger), cs, index);
        assert (outcomes + [outcome])[..index] == outcomes;
        outcomes := outcomes + [outcome];
        if outcome.Aborted? {
          return BatchAborted(outcomes);
        }
        if outcome.Accepted? {
          ledger := ledger + [outcome.event];
          appended := Some(outcome.event.auditId);
        }
        index := index + 1;
      }
      assert cs[..index] == cs;
      if appended.Some? {
        var ok := RecoverRuntimeState(cfg, Rebuilt(auditId, outcomes));
        if !ok {
          return ProjectionError(outcomes);
        }
      }
      return Processed(outcomes);
    }
  }

  lemma OneMoreOutcome(cfg: Config, ledger: seq<Event>, cs: seq<Submission>, n: nat)
    requires n < |cs|
    ensures var outcome := Decide(cfg, Run(cfg, ledger, cs[..n]), cs[n]);
            && Outcomes(cfg, ledger, cs[..n + 1]) == Outcomes(cfg, ledger, cs[..n]) + [outcome]
            && Run(cfg, ledger, cs[..n + 1]) == After(Run(cfg, ledger, cs[..n]), outcome)
  {
    hide Decide;
    assert cs[..n + 1][..n] == cs[..n];
  }

  lemma KeepsAudit(cfg: Config, ledger: seq<Event>, c: Submission)
    requires Decide(cfg, ledger, c).Accepted?
    ensures c.Submitted? && Decide(cfg, ledger, c).event.auditId == c.event.auditId
  {
    hide Validate, NormalizeBody, EntityId, EventFingerprint, LacksEvidence;
  }

  // All accepted events of an aligned batch belong to one audit, the one whose state is rebuilt.
  lemma {:induction false} OneAuditIsRebuilt(cfg: Config, ledger: seq<Event>, cs: seq<Submission>,
      auditId: Option<string>)
    requires Aligned(cs, auditId)
    ensures forall o :: o in Outcomes(cfg, ledger, cs) && o.Accepted? ==>
              Rebuilt(auditId, Outcomes(cfg, ledger, cs)) == Some(o.event.auditId)
  {
    hide Decide;
    var outcomes := Outcomes(cfg, ledger, cs);
    forall o | o in outcomes && o.Accepted? ensures Rebuilt(auditId, outcomes) == Some(o.event.auditId) {
      var i := OutcomeOf(cfg, ledger, cs, o);
      var j, last := LastAppended(cfg, ledger, cs, o);
      assert cs[i].event.auditId == cs[j].event.auditId;
    }
  }

  lemma {:induction false} OutcomeOf(cfg: Config, ledger: seq<Event>, cs: seq<Submission>, o: Outcome) returns (i: nat)
    requires o in Outcomes(cfg, ledger, cs) && o.Accepted?
    ensures i < |cs| && cs[i].Submitted? && cs[i].event.auditId == o.event.auditId
    decreases |cs|
  {
    hide Decide;
    var n := |cs| - 1;
    var before := Run(cfg, ledger, cs[..n]);
    if o == Decide(cfg, before, cs[n]) {
      KeepsAudit(cfg, before, cs[n]);
      i := n;
    } else {
      i := OutcomeOf(cfg, ledger, cs[..n], o);
    }
  }

  lemma {:induction false} LastAppended(cfg: Config, ledger: seq<Event>, cs: seq<Submission>,
      o: Outcome) returns (j: nat, last: Outcome)
    requires o in Outcomes(cfg, ledger, cs) && o.Accepted?
    ensures last.Accepted? && Appended(Outcomes(cfg, ledger, cs)) == Some(last.event.auditId)
    ensures j < |cs| && cs[j].Submitted? && cs[j].event.auditId == last.event.auditId
    decreases |cs|
  {
    hide Decide;
    var n := |cs| - 1;
    var before := Run(cfg, ledger, cs[..n]);
    var outcome := Decide(cfg, before, cs[n]);
    assert Outcomes(cfg, ledger, cs)[..|Outcomes(cfg, ledger, cs)| - 1] == Outcomes(cfg, ledger, cs[..n]);
    if outcome.Accepted? {
      KeepsAudit(cfg, before, cs[n]);
      j, last := n, outcome;
    } else {
      j, last := LastAppended(cfg, ledger, cs[..n], o);
    }
  }
}
