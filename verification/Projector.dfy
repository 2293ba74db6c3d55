/** Canonical state as a fold over the accepted events of one audit. */
module Projector {
  import opened Wrappers
  import opened Events
  import opened Rules

  datatype EntityKey = EntityKey(kind: EntityType, id: string)

  // One map holds every collection; the key says which one an entity is in.
  datatype State = State(audit: Option<Payload>, entities: map<EntityKey, Payload>)

  const EMPTY_STATE := State(None, map[])

  function ApplyEvent(s: State, e: Event): Option<State> {
    if e.payload.id != e.entityId then None
    else if e.EntityType().Audit? then
      if e.payload.id != e.auditId then None else Some(s.(audit := Some(e.payload)))
    else if e.payload.auditId != Some(e.auditId) then None
    else if e.EntityType().Coverage? then None
    else Some(s.(entities := s.entities[EntityKey(e.EntityType(), e.entityId) := e.payload]))
  }

  function Fold(events: seq<Event>): Option<State> {
    if events == [] then Some(EMPTY_STATE)
    else
      match Fold(events[..|events| - 1])
      case None => None
      case Some(s) => ApplyEvent(s, events[|events| - 1])
  }

  predicate IsAccepted(e: Event) {
    e.acceptance.Acceptance? && e.acceptance.status == "accepted"
  }

  function AuditEvents(ledger: seq<Event>, auditId: string): (events: seq<Event>)
    ensures forall e :: e in events ==> e in ledger && e.auditId == auditId && IsAccepted(e)
  {
    if ledger == [] then []
    else
      var last := ledger[|ledger| - 1];
      AuditEvents(ledger[..|ledger| - 1], auditId) + if last.auditId == auditId && IsAccepted(last) then [last] else []
  }

  function Project(schema: State -> bool, ledger: seq<Event>, auditId: string): Option<State> {
    var events := AuditEvents(ledger, auditId);
    match Fold(events)
    case None => None
    case Some(s) => if (events != [] && s.audit.None?) || !schema(s) then None else Some(s)
  }

  /******* The projection when no audit is named *******/

  function AcceptedAudits(ledger: seq<Event>): set<string> {
    set e | e in ledger && IsAccepted(e) :: e.auditId
  }

  // The audit of the first accepted event.
  function FirstAudit(ledger: seq<Event>): string {
    if ledger == [] then "" else if IsAccepted(ledger[0]) then ledger[0].auditId else FirstAudit(ledger[1..])
  }

  // Without an audit id the ledger may hold accepted events of one audit only.
  function ProjectRequested(schema: State -> bool, ledger: seq<Event>, auditId: Option<string>): Option<State> {
    if auditId.Some? then Project(schema, ledger, auditId.value)
    else if |AcceptedAudits(ledger)| > 1 then None
    else Project(schema, ledger, FirstAudit(ledger))
  }

  lemma {:induction false} FirstAuditIsAccepted(ledger: seq<Event>)
    ensures AcceptedAudits(ledger) != {} ==> FirstAudit(ledger) in AcceptedAudits(ledger)
    decreases |ledger|
  {
    if ledger != [] {
      FirstAuditIsAccepted(ledger[1..]);
      assert ledger == [ledger[0]] + ledger[1..];
      assert IsAccepted(ledger[0]) ==> ledger[0].auditId in AcceptedAudits(ledger);
    }
  }

  lemma AtMostOne<T>(ids: set<T>, x: T, y: T)
    requires x in ids && y in ids
    ensures |ids| > 1 || x == y
  {
    if x != y {
      assert |ids| >= |{x, y}| by {
        CardinalityOfPart({x, y}, ids);
      }
    }
  }

  lemma CardinalityOfPart<T>(a: set<T>, b: set<T>)
    requires a <= b
    ensures |a| <= |b|
  {
    assert b == a + (b - a);
  }

  // Naming no audit projects the audit of any accepted event, provided it is the only one.
  lemma ProjectionWithoutAudit(schema: State -> bool, ledger: seq<Event>, e: Event)
    requires e in ledger && IsAccepted(e)
    ensures ProjectRequested(schema, ledger, None)
         == if exists d :: d in ledger && IsAccepted(d) && d.auditId != e.auditId then None
            else Project(schema, ledger, e.auditId)
  {
    hide Project, FirstAudit;
    var ids := AcceptedAudits(ledger);
    FirstAuditIsAccepted(ledger);
    assert e.auditId in ids;
    if d :| d in ledger && IsAccepted(d) && d.auditId != e.auditId {
      assert d.auditId in ids;
      AtMostOne(ids, d.auditId, e.auditId);
    } else {
      assert ids == {e.auditId};
    }
  }

  // The maps being filled while events are applied.
  class Projection {
    var audit: Option<Payload>
    var entities: map<EntityKey, Payload>

    constructor ()
      ensures Value() == EMPTY_STATE
    {
      audit, entities := None, map[];
    }

    function Value(): State
      reads this
    {
      State(audit, entities)
    }

    method Apply(e: Event) returns (ok: bool)
      modifies this
      ensures ok == ApplyEvent(old(Value()), e).Some?
      ensures Value() == ApplyEvent(old(Value()), e).GetOr(old(Value()))
    {
      if e.payload.id != e.entityId {
        return false;
      }
      if e.EntityType().Audit? {
        if e.payload.id != e.auditId {
          return false;
        }
        audit := Some(e.payload);
        return true;
      }
      if e.payload.auditId != Some(e.auditId) || e.EntityType().Coverage? {
        return false;
      }
      entities := entities[EntityKey(e.EntityType(), e.entityId) := e.payload];
      return true;
    }
  }

  method BuildState(schema: State -> bool, ledger: seq<Event>, auditId: string) returns (r: Option<State>)
    ensures r == Project(schema, ledger, auditId)
  {
    var accepted := AuditEvents(ledger, auditId);
    var state := new Projection();
    var applied := 0;
    while applied < |accepted|
      invariant 0 <= applied <= |accepted|
      invariant Fold(accepted[..applied]) == Some(state.Value())
      invariant fresh(state)
    {
      FoldStep(accepted, applied);
      var ok := state.Apply(accepted[applied]);
      if !ok {
        FoldStuck(accepted, applied + 1);
        return None;
      }
      applied := applied + 1;
    }
    assert accepted[..applied] == accepted;
    var result := state.Value();
    if (applied > 0 && result.audit.None?) || !schema(result) {
      return None;
    }
    return Some(result);
  }

  lemma FoldStep(events: seq<Event>, n: nat)
    requires n < |events|
    ensures Fold(events[..n + 1])
         == match Fold(events[..n]) case None => None case Some(s) => ApplyEvent(s, events[n])
  {
    assert events[..n + 1][..n] == events[..n];
  }

  // A failed prefix never recovers.
  lemma {:induction false} FoldStuck(events: seq<Event>, n: nat)
    requires n <= |events| && Fold(events[..n]).None?
    ensures Fold(events).None?
    decreases |events| - n
  {
    if n == |events| {
      assert events[..n] == events;
    } else {
      FoldStep(events, n);
      FoldStuck(events, n + 1);
    }
  }

  /******* Looking things up *******/

  function GetEntity(s: State, kind: EntityType, id: string): Option<Payload> {
    if kind.Audit? then
      if s.audit.Some? && s.audit.value.id == id then s.audit else None
    else if EntityKey(kind, id) in s.entities then Some(s.entities[EntityKey(kind, id)])
    else None
  }

  function CurrentStatus(s: State, kind: EntityType, id: string): string {
    match GetEntity(s, kind, id)
    case None => ABSENT
    case Some(p) => if kind.Decision? then "recorded" else p.status
  }

  // The validator's own view of candidates, rebuilt from the accepted candidate events.
  function CandidateLayer(events: seq<Event>): map<string, Payload> {
    if events == [] then map[]
    else
      var last := events[|events| - 1];
      var before := CandidateLayer(events[..|events| - 1]);
      if last.EntityType().Candidate? then before[last.entityId := last.payload] else before
  }

  function WithCandidates(s: State, candidates: map<string, Payload>): State {
    s.(entities :=
      (map k | k in s.entities && !k.kind.Candidate? :: s.entities[k])
      + (map id | id in candidates :: EntityKey(Candidate, id) := candidates[id]))
  }

  // The separate candidate layer is exactly the candidates of the canonical state.
  lemma CandidateLayerAgrees(events: seq<Event>, s: State)
    requires Fold(events) == Some(s)
    ensures WithCandidates(s, CandidateLayer(events)) == s
  {
    hide Fold, CandidateLayer;
    CandidateKeys(events, s);
    var layer := CandidateLayer(events);
    var w := WithCandidates(s, layer).entities;
    forall k ensures k in w <==> k in s.entities
             ensures k in w ==> w[k] == s.entities[k]
    {
      assert k.kind.Candidate? ==> k == EntityKey(Candidate, k.id);
    }
  }

  lemma {:induction false} CandidateKeys(events: seq<Event>, s: State)
    requires Fold(events) == Some(s)
    ensures forall id :: id in CandidateLayer(events) <==> EntityKey(Candidate, id) in s.entities
    ensures forall id :: id in CandidateLayer(events) ==>
            CandidateLayer(events)[id] == s.entities[EntityKey(Candidate, id)]
  {
    if events != [] {
      CandidateKeys(events[..|events| - 1], Fold(events[..|events| - 1]).value);
    }
  }
}
