/** The two-pass candidate listing and the per-candidate trace: when they tell the same story. */
module RunLedgerOutcomes {
  import opened Wrappers
  import opened RunLedger
  import opened RunLedgerFacts

  /******* One candidate's event types *******/

  function TypesOf(refs: seq<EventRef>, id: string): seq<string> {
    if refs == [] then []
    else
      var r := refs[|refs| - 1];
      TypesOf(refs[..|refs| - 1], id) + if r.entityId == id then [r.eventType] else []
  }

  // The outcome that the last lifecycle event leaves behind.
  function LastOutcome(types: seq<string>): Outcome {
    if types == [] then Proposed
    else Becomes(types[|types| - 1]).GetOr(LastOutcome(types[..|types| - 1]))
  }

  // The strongest outcome that any of the events stands for.
  function StrongestOutcome(types: seq<string>): Outcome {
    if CANDIDATE_PROMOTED in types then Promoted
    else if CANDIDATE_REJECTED in types then Rejected
    else if CANDIDATE_ROUTED in types then Routed
    else Proposed
  }

  function Strength(o: Outcome): nat {
    match o
    case Unknown => 0
    case Proposed => 1
    case Routed => 2
    case Rejected => 3
    case Promoted => 4
  }

  // An earlier event stands for a stronger outcome than the last one left.
  ghost predicate Outranked(types: seq<string>) {
    exists t :: t in types && Becomes(t).Some? && Strength(Becomes(t).value) > Strength(LastOutcome(types))
  }

  lemma {:induction false} LastIsThere(types: seq<string>)
    ensures LastOutcome(types).Proposed? ==> forall t :: t in types ==> Becomes(t).None?
    ensures !LastOutcome(types).Proposed? ==> exists t :: t in types && Becomes(t) == Some(LastOutcome(types))
    decreases |types|
  {
    hide Becomes;
    if types != [] {
      var n := |types| - 1;
      LastIsThere(types[..n]);
      assert types == types[..n] + [types[n]];
      NeverBackToProposed(types[n]);
      if Becomes(types[n]).Some? {
        assert types[n] in types;
      }
    }
  }

  lemma NeverBackToProposed(t: string)
    ensures Becomes(t).Some? ==> !Becomes(t).value.Proposed? && !Becomes(t).value.Unknown?
  {
  }

  lemma StrongestIsReached(types: seq<string>)
    ensures var s := StrongestOutcome(types);
            && (forall t :: t in types && Becomes(t).Some? ==> Strength(Becomes(t).value) <= Strength(s))
            && (s.Proposed? || exists t :: t in types && Becomes(t) == Some(s))
  {
  }

  lemma LastIsStrongestIff(types: seq<string>)
    ensures LastOutcome(types) == StrongestOutcome(types) <==> !Outranked(types)
  {
    hide StrongestOutcome, LastOutcome, Becomes;
    LastIsThere(types);
    StrongestIsReached(types);
    var last, strongest := LastOutcome(types), StrongestOutcome(types);
    StrengthSeparates(last, strongest);
    if !last.Proposed? {
      var t :| t in types && Becomes(t) == Some(last);
      NeverBackToProposed(t);
    }
    if !strongest.Proposed? {
      var t :| t in types && Becomes(t) == Some(strongest);
      NeverBackToProposed(t);
    }
  }

  lemma StrengthSeparates(a: Outcome, b: Outcome)
    ensures Strength(a) == Strength(b) <==> a == b
  {
  }

  /******* The listing *******/

  lemma {:induction false} FirstPassFinds(refs: seq<EventRef>, id: string)
    ensures var m := FirstPass(map[], refs);
            && (id in m <==> id != "" && CANDIDATE_PROPOSED in TypesOf(refs, id))
            && (id in m ==> m[id].outcome == Proposed)
    decreases |refs|
  {
    if refs != [] {
      FirstPassFinds(refs[..|refs| - 1], id);
    }
  }

  lemma {:induction false} SecondPassFinds(m: map<string, Summary>, refs: seq<EventRef>, id: string)
    requires id in m ==> id != "" && m[id].outcome == Proposed
    ensures var after := SecondPass(m, refs);
            && (id in after <==> id in m)
            && (id in m ==>
                  && after[id].outcome == LastOutcome(TypesOf(refs, id))
                  && after[id].proposedEventId == m[id].proposedEventId)
    decreases |refs|
  {
    hide Becomes;
    if refs != [] {
      var n := |refs| - 1;
      SecondPassFinds(m, refs[..n], id);
      var before := TypesOf(refs[..n], id);
      assert before + [] == before && (before + [refs[n].eventType])[..|before|] == before;
    }
  }

  lemma ListedOutcome(entries: seq<Entry>, auditId: string, id: string)
    ensures var types := TypesOf(AuditRefs(entries, auditId), id);
            && (id in Listed(entries, auditId) <==> id != "" && CANDIDATE_PROPOSED in types)
            && (id in Listed(entries, auditId) ==> Listed(entries, auditId)[id].outcome == LastOutcome(types))
  {
    hide FirstPass, SecondPass, TypesOf, LastOutcome;
    var refs := AuditRefs(entries, auditId);
    FirstPassFinds(refs, id);
    SecondPassFinds(FirstPass(map[], refs), refs, id);
  }

  /******* The trace *******/

  ghost predicate MatchOfType(matches: seq<Trace>, eventType: string) {
    exists m :: m in matches && m.event.eventType == eventType
  }

  lemma TracedAsIff(entries: seq<Entry>, id: string, eventType: string)
    ensures TracedAs(entries, id, eventType) <==> MatchOfType(Matches(entries, "candidate", id), eventType)
  {
    hide Best, Matches;
    BestIsBestAndLatest(Matches(entries, "candidate", id), [eventType]);
  }

  // All accepted events on this id are about a candidate of this audit.
  ghost predicate AtHome(entries: seq<Entry>, auditId: string, id: string) {
    forall e, r :: e in entries && e.WorkerExecution? && r in e.accepted && r.entityId == id ==>
      r.entityType == "candidate" && e.auditId == auditId
  }

  lemma {:induction false} TypesOfConcat(s: seq<EventRef>, t: seq<EventRef>, id: string)
    ensures TypesOf(s + t, id) == TypesOf(s, id) + TypesOf(t, id)
    decreases |t|
  {
    if t == [] {
      assert s + t == s;
    } else {
      assert (s + t)[..|s + t| - 1] == s + t[..|t| - 1];
      TypesOfConcat(s, t[..|t| - 1], id);
    }
  }

  lemma {:induction false} EntryMatchesByType(e: Entry, refs: seq<EventRef>, id: string, eventType: string)
    requires e.WorkerExecution? && forall r :: r in refs && r.entityId == id ==> r.entityType == "candidate"
    ensures MatchOfType(MatchesIn(e, refs, "candidate", id), eventType) <==> eventType in TypesOf(refs, id)
    decreases |refs|
  {
    if refs != [] {
      var n := |refs| - 1;
      EntryMatchesByType(e, refs[..n], id, eventType);
      var before := MatchesIn(e, refs[..n], "candidate", id);
      if Concerns(refs[n], "candidate", id) {
        MatchAppend(before, [TraceOf(e, refs[n])], eventType);
        assert TraceOf(e, refs[n]) in [TraceOf(e, refs[n])];
      }
    }
  }

  lemma MatchAppend(s: seq<Trace>, t: seq<Trace>, eventType: string)
    ensures MatchOfType(s + t, eventType) <==> MatchOfType(s, eventType) || MatchOfType(t, eventType)
  {
    if MatchOfType(s, eventType) {
      var m :| m in s && m.event.eventType == eventType;
      assert m in s + t;
    }
    if MatchOfType(t, eventType) {
      var m :| m in t && m.event.eventType == eventType;
      assert m in s + t;
    }
  }

  lemma {:induction false} MatchesByType(entries: seq<Entry>, auditId: string, id: string, eventType: string)
    requires AtHome(entries, auditId, id)
    ensures MatchOfType(Matches(entries, "candidate", id), eventType)
            <==> eventType in TypesOf(AuditRefs(entries, auditId), id)
    decreases |entries|
  {
    if entries != [] {
      hide TypesOf, MatchOfType, MatchesIn;
      var n := |entries| - 1;
      var last := entries[n];
      assert entries == entries[..n] + [last];
      MatchesByType(entries[..n], auditId, id, eventType);
      var refs, matches := AuditRefs(entries[..n], auditId), Matches(entries[..n], "candidate", id);
      assert refs + [] == refs && matches + [] == matches;
      if last.WorkerExecution? {
        EntryMatchesByType(last, last.accepted, id, eventType);
        MatchAppend(matches, MatchesIn(last, last.accepted, "candidate", id), eventType);
        TypesOfConcat(refs, last.accepted, id);
        if last.auditId != auditId {
          NobodyHere(last.accepted, id);
        }
      }
    }
  }

  lemma {:induction false} NobodyHere(refs: seq<EventRef>, id: string)
    requires forall r :: r in refs ==> r.entityId != id
    ensures TypesOf(refs, id) == []
    decreases |refs|
  {
    if refs != [] {
      NobodyHere(refs[..|refs| - 1], id);
    }
  }

  lemma TracedIsStrongest(entries: seq<Entry>, auditId: string, id: string)
    requires AtHome(entries, auditId, id) && CANDIDATE_PROPOSED in TypesOf(AuditRefs(entries, auditId), id)
    ensures TracedOutcome(entries, id) == StrongestOutcome(TypesOf(AuditRefs(entries, auditId), id))
  {
    hide TypesOf, AtHome, AuditRefs, Matches, MatchOfType, TracedAs;
    TracedAsIff(entries, id, CANDIDATE_PROPOSED);
    TracedAsIff(entries, id, CANDIDATE_ROUTED);
    TracedAsIff(entries, id, CANDIDATE_REJECTED);
    TracedAsIff(entries, id, CANDIDATE_PROMOTED);
    MatchesByType(entries, auditId, id, CANDIDATE_PROPOSED);
    MatchesByType(entries, auditId, id, CANDIDATE_ROUTED);
    MatchesByType(entries, auditId, id, CANDIDATE_REJECTED);
    MatchesByType(entries, auditId, id, CANDIDATE_PROMOTED);
  }

  /******* Agreement *******/

  // For a candidate id that belongs to one audit, listing and trace agree exactly when no earlier
  // event outranks the last lifecycle event.
  lemma OutcomesAgreeIff(entries: seq<Entry>, auditId: string, id: string)
    requires AtHome(entries, auditId, id) && id in Listed(entries, auditId)
    ensures Listed(entries, auditId)[id].outcome == TracedOutcome(entries, id)
            <==> !Outranked(TypesOf(AuditRefs(entries, auditId), id))
  {
    hide Listed, TypesOf, AtHome, AuditRefs, TracedOutcome, Outranked, LastOutcome, StrongestOutcome;
    ListedOutcome(entries, auditId, id);
    TracedIsStrongest(entries, auditId, id);
    LastIsStrongestIff(TypesOf(AuditRefs(entries, auditId), id));
  }

  // The candidate lifecycle of the shipped rule file, `Unknown` standing for an absent candidate.
  function Advance(now: Outcome, eventType: string): Option<Outcome> {
    if eventType == CANDIDATE_PROPOSED then (if now.Unknown? then Some(Proposed) else None)
    else if eventType == CANDIDATE_ROUTED then (if now.Proposed? then Some(Routed) else None)
    else if eventType == CANDIDATE_REJECTED then (if now.Proposed? || now.Routed? then Some(Rejected) else None)
    else if eventType == CANDIDATE_PROMOTED then (if now.Routed? then Some(Promoted) else None)
    else None
  }

  function Lifecycle(types: seq<string>): Option<Outcome> {
    if types == [] then Some(Unknown)
    else
      match Lifecycle(types[..|types| - 1])
      case None => None
      case Some(now) => Advance(now, types[|types| - 1])
  }

  lemma {:induction false} LifecycleLeaves(types: seq<string>)
    requires Lifecycle(types).Some?
    ensures var o := Lifecycle(types).value;
            && (o.Unknown? <==> types == [])
            && (types != [] ==> LastOutcome(types) == o && CANDIDATE_PROPOSED in types)
            && forall t :: t in types && Becomes(t).Some? ==> Strength(Becomes(t).value) <= Strength(o)
    decreases |types|
  {
    if types != [] {
      LifecycleLeaves(types[..|types| - 1]);
      assert types == types[..|types| - 1] + [types[|types| - 1]];
    }
  }

  // Along the lifecycle both tell the status that the rules leave the candidate in.
  lemma LifecycleOutcomesAgree(entries: seq<Entry>, auditId: string, id: string)
    requires AtHome(entries, auditId, id) && id != ""
    requires var types := TypesOf(AuditRefs(entries, auditId), id); types != [] && Lifecycle(types).Some?
    ensures var o := Lifecycle(TypesOf(AuditRefs(entries, auditId), id)).value;
            && id in Listed(entries, auditId) && Listed(entries, auditId)[id].outcome == o
            && TracedOutcome(entries, id) == o
  {
    hide Listed, TypesOf, AtHome, AuditRefs, TracedOutcome, LastOutcome, Lifecycle, StrongestOutcome, Becomes;
    var types := TypesOf(AuditRefs(entries, auditId), id);
    LifecycleLeaves(types);
    ListedOutcome(entries, auditId, id);
    TracedIsStrongest(entries, auditId, id);
    LastIsStrongestIff(types);
  }

  lemma {:induction false} FoundAmong(e: Entry, refs: seq<EventRef>, r: EventRef, id: string)
    requires e.WorkerExecution? && r in refs && Concerns(r, "candidate", id)
    ensures TraceOf(e, r) in MatchesIn(e, refs, "candidate", id)
    decreases |refs|
  {
    hide Concerns;
    var n := |refs| - 1;
    if r != refs[n] {
      FoundAmong(e, refs[..n], r, id);
    }
  }

  // A candidate id shared by two audits tells two stories, because the trace looks across audits: a
  // promotion recorded in another audit changes the trace and leaves the listing as it was.
  lemma OtherAuditsChangeTheTrace(entries: seq<Entry>, auditId: string, e: Entry, r: EventRef, id: string)
    requires e.WorkerExecution? && e.auditId != auditId
    requires r in e.accepted && Concerns(r, "candidate", id) && r.eventType == CANDIDATE_PROMOTED
    ensures Listed(entries + [e], auditId) == Listed(entries, auditId)
    ensures TracedOutcome(entries + [e], id) == Promoted
  {
    hide Best, FirstPass, SecondPass, Concerns, MatchesIn, TracedAs;
    var more := entries + [e];
    assert more[..|more| - 1] == entries;
    var refs := AuditRefs(entries, auditId);
    assert refs + [] == refs;
    assert AuditRefs(more, auditId) == refs;
    FoundAmong(e, e.accepted, r, id);
    assert TraceOf(e, r) in Matches(more, "candidate", id);
    TracedAsIff(more, id, CANDIDATE_PROMOTED);
  }
}
