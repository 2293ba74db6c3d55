/** The identities of whole events: canonicalisation happens once, fingerprints survive it, they
    ignore order and whitespace, and entity ids tell events apart exactly as fingerprints do. */
module SemanticIdentity {
  import opened Wrappers
  import opened Text
  import opened Events
  import opened Canonicalization
  import opened CanonicalizationFacts

  /******* Normalising twice *******/

  function BodyRefs(b: Body): seq<SourceRef> {
    match b
    case ObservationBody(o) => o.sourceRefs
    case HypothesisBody(h) => h.sourceRefs
    case ContradictionBody(c) => c.sourceRefs
    case DecisionBody(d) => d.sourceRefs
    case _ => []
  }

  // The event stores an excerpt of nothing but whitespace.
  ghost predicate Blank(env: Env, e: Event) {
    BlankExcerpt(env, BodyRefs(e.payload.body))
  }

  lemma DisplayFieldsSettle(env: Env, t: EventType, b: Body)
    requires NfkcStable(env)
    ensures DisplayFields(env, t, Arrays(env, b)) == Arrays(env, DisplayFields(env, t, b))
    ensures DisplayFields(env, t, DisplayFields(env, t, b)) == DisplayFields(env, t, b)
    ensures BodyRefs(DisplayFields(env, t, b)) == BodyRefs(b)
  {
    hide Display, StorageRefs, IdList, OptionalIds, RelatedRefs, EvidenceRefs, FilePaths, NormalizeBasis, NfkcStable;
    match b
    case ObservationBody(o) => DisplayIdempotent(env, o.statement);
    case HypothesisBody(h) =>
      DisplayIdempotent(env, h.statement);
      DisplayIdempotent(env, h.rationale);
    case QuestionBody(q) =>
      DisplayIdempotent(env, q.prompt);
      DisplayIdempotent(env, q.context.GetOr(""));
    case IssueBody(i) =>
      DisplayIdempotent(env, i.title);
      DisplayIdempotent(env, i.summary);
    case CandidateBody(c) =>
      DisplayIdempotent(env, c.claim);
      DisplayIdempotent(env, c.reasoning);
    case _ =>
  }

  lemma ArraysSettle(env: Env, b: Body)
    requires NfkcStable(env)
    ensures Arrays(env, Arrays(env, b)) == Arrays(env, b) <==> !BlankExcerpt(env, BodyRefs(b))
  {
    hide StorageRefs, IdList, OptionalIds, RelatedRefs, EvidenceRefs, FilePaths, NormalizeBasis, NfkcStable,
        BlankExcerpt;
    StorageIdempotence(env, BodyRefs(b));
    NoRefsNoBlank(env);
    match b
    case HypothesisBody(h) =>
      IdListIdempotent(env, h.supportingIds);
      IdListIdempotent(env, h.contradictingIds);
      if h.basis.Some? { BasisIdempotent(env, h.basis.value); }
    case QuestionBody(q) => RelatedRefsIdempotent(q.related);
    case IssueBody(i) =>
      IdListIdempotent(env, i.evidence.observationIds);
      OptionalIdsIdempotent(env, i.evidence.questionIds);
      OptionalIdsIdempotent(env, i.evidence.contradictionIds);
    case ContradictionBody(c) => RelatedRefsIdempotent(c.conflicting);
    case CandidateBody(c) =>
      EvidenceRefsIdempotent(c.evidenceRefs);
      OptionalIdsIdempotent(env, c.triggerIds);
      OptionalIdsIdempotent(env, c.relatedIds);
      FilePathsIdempotent(c.filePaths.GetOr([]));
    case _ =>
  }

  lemma NoRefsNoBlank(env: Env)
    ensures !BlankExcerpt(env, [])
  {
  }

  lemma NormalizeTwice(env: Env, t: EventType, b: Body)
    requires NfkcStable(env)
    ensures NormalizeBody(env, t, NormalizeBody(env, t, b)) == NormalizeBody(env, t, b)
            <==> !BlankExcerpt(env, BodyRefs(b))
  {
    hide DisplayFields, Arrays, NfkcStable, BlankExcerpt;
    var d := DisplayFields(env, t, b);
    DisplayFieldsSettle(env, t, b);
    DisplayFieldsSettle(env, t, d);
    ArraysSettle(env, d);
  }

  /******* The semantic payload after a second pass *******/

  lemma CandidateSettles(env: Env, p: Payload, q: Payload, c: CandidateData)
    requires NfkcStable(env) && !c.kind.OtherKind?
    ensures CandidateSemantic(env, p, Arrays(env, DisplayFields(env, CandidateProposed, CandidateBody(c))).candidate)
         == CandidateSemantic(env, q, c)
  {
    hide TextIdentity, EvidenceRefs, FilePaths, OptionalIds, IdList, TargetIdentity, Display, NfkcStable;
    TextIdentityStable(env, CandidateClaim, c.claim);
    EvidenceRefsIdempotent(c.evidenceRefs);
    OptionalIdsIdempotent(env, c.triggerIds);
    OptionalIdsIdempotent(env, c.relatedIds);
    FilePathsIdempotent(c.filePaths.GetOr([]));
  }

  lemma ContextSettles(env: Env, context: string)
    requires NfkcStable(env) && (Strip(context) == "" <==> Display(env, context) == "")
    ensures ContextIdentity(env, Some(Display(env, context))) == ContextIdentity(env, Some(context))
  {
    hide TextIdentity, Display, Strip;
    TextIdentityStable(env, QuestionText, context);
    DisplayTrimmed(env, context);
  }

  lemma DisplayTrimmed(env: Env, s: string)
    ensures Strip(Display(env, s)) == Display(env, s)
  {
    hide Words, Strip;
    WordsAreWords(env.nfkc(s));
    JoinTrimmed(Words(env.nfkc(s)));
    StripTrims(Display(env, s));
  }

  lemma {:induction false} JoinTrimmed(words: seq<string>)
    requires AreWords(words)
    ensures Trimmed(Join(words))
    ensures words != [] ==> Join(words) != ""
    decreases |words|
  {
    if words != [] {
      assert words[0] in words;
      if |words| > 1 {
        assert forall w :: w in words[1..] ==> w in words;
        JoinTrimmed(words[1..]);
      }
    }
  }

  // For every event whose meaning is read field by field, a second normalisation changes nothing.
  lemma SemanticSettles(env: Env, e: Event, n: Event)
    requires NfkcStable(env)
    requires n.eventType == e.eventType && n.payload.status == e.payload.status
    requires n.payload.body == NormalizeBody(env, e.eventType, e.payload.body)
    requires e.payload.body.QuestionBody? && e.payload.body.question.context.Some? ==>
      var context := e.payload.body.question.context.value; Strip(context) == "" <==> Display(env, context) == ""
    requires !SemanticOf(env, e).Other? && !SemanticOf(env, e).UnknownCandidate?
    requires SemanticOf(env, e).ObservationVerdict? ==> n.entityId == e.entityId
    ensures SemanticOf(env, n) == SemanticOf(env, e)
  {
    hide TextIdentity, Display, StorageRefs, RefIdentities, IdList, OptionalIds, RelatedRefs, CandidateSemantic;
    hide NfkcStable, EvidenceRefs, FilePaths, NormalizeBasis, ContextIdentity, Strip;
    match e.payload.body
    case ObservationBody(o) =>
      TextIdentityStable(env, ObservationText, o.statement);
      StorageKeepsIdentities(env, o.sourceRefs);
    case HypothesisBody(h) =>
      TextIdentityStable(env, HypothesisText, h.statement);
      StorageKeepsIdentities(env, h.sourceRefs);
      IdListIdempotent(env, h.supportingIds);
      IdListIdempotent(env, h.contradictingIds);
    case QuestionBody(q) =>
      TextIdentityStable(env, QuestionText, q.prompt);
      RelatedRefsIdempotent(q.related);
      if q.context.Some? { ContextSettles(env, q.context.value); }
    case IssueBody(i) =>
      TextIdentityStable(env, IssueTitle, i.title);
      IdListIdempotent(env, i.evidence.observationIds);
      OptionalIdsIdempotent(env, i.evidence.questionIds);
      OptionalIdsIdempotent(env, i.evidence.contradictionIds);
    case CandidateBody(c) =>
      CandidateKindSettles(env, e, c);
      CandidateSettles(env, n.payload, e.payload, c);
    case _ =>
  }

  lemma CandidateKindSettles(env: Env, e: Event, c: CandidateData)
    requires e.payload.body == CandidateBody(c)
    ensures SemanticOf(env, e).UnknownCandidate? <==> e.eventType.CandidateProposed? && c.kind.OtherKind?
  {
  }

  /******* Main results *******/

  ghost predicate ReadFieldByField(env: Env, e: Event) {
    var s := SemanticOf(env, Normalize(env, e));
    !s.Other? && !s.UnknownCandidate?
  }

  // What the ids of an event contribute to its semantic payload.
  lemma IdsInSemantic(env: Env, a: Event, b: Event)
    requires a.eventType == b.eventType && a.payload.status == b.payload.status
    requires a.payload.body == b.payload.body
    ensures EntityId(env, a).Some? ==> SemanticOf(env, b) == SemanticOf(env, a)
    ensures a.entityId == b.entityId && a.payload.id == b.payload.id && a.payload.auditId == b.payload.auditId
            ==> SemanticOf(env, b) == SemanticOf(env, a)
    ensures !SemanticOf(env, a).Other? && !SemanticOf(env, a).UnknownCandidate?
            && (SemanticOf(env, a).ObservationVerdict? ==> a.entityId == b.entityId)
            ==> SemanticOf(env, b) == SemanticOf(env, a)
  {
    hide TextIdentity, RefIdentities, IdList, RelatedRefs, EvidenceRefs, FilePaths, TargetIdentity, ContextIdentity;
  }

  // Canonicalisation only rewrites ids on top of normalisation.
  lemma CanonicalShape(env: Env, e: Event)
    requires Canonicalize(env, e).Some?
    ensures var n, c := Normalize(env, e), Canonicalize(env, e).value;
            && c.eventType == e.eventType && c.auditId == e.auditId && c.snapshotRef == e.snapshotRef
            && c.payload.body == n.payload.body && c.payload.status == e.payload.status
            && c.payload.auditId == e.payload.auditId && c.EntityType() == e.EntityType()
            && (!IsCanonical(e.eventType) || EntityId(env, n).None?
                ==> c.entityId == e.entityId && c.payload.id == e.payload.id)
  {
    hide SemanticOf, EventFingerprint, DisplayFields, Arrays, EntityId;
    BodyKind(env, e.eventType, e.payload.body);
  }

  lemma BodyKind(env: Env, t: EventType, b: Body)
    ensures var c := NormalizeBody(env, t, b);
            && (c.ObservationBody? <==> b.ObservationBody?) && (c.HypothesisBody? <==> b.HypothesisBody?)
            && (c.QuestionBody? <==> b.QuestionBody?) && (c.IssueBody? <==> b.IssueBody?)
            && (c.ContradictionBody? <==> b.ContradictionBody?) && (c.DecisionBody? <==> b.DecisionBody?)
            && (c.CandidateBody? <==> b.CandidateBody?) && (c.AuditBody? <==> b.AuditBody?)
            && (c.TaskBody? <==> b.TaskBody?) && (c.CoverageBody? <==> b.CoverageBody?)
  {
  }

  lemma NormalizedContext(env: Env, e: Event)
    requires NfkcStable(env)
    requires ReadFieldByField(env, e) && e.payload.body.QuestionBody? && e.payload.body.question.context.Some?
    ensures var n := Normalize(env, e).payload.body.question.context;
            n.Some? && (Strip(n.value) == "" <==> Display(env, n.value) == "")
  {
    hide Display, Strip, TextIdentity, NfkcStable;
    var x := e.payload.body.question.context.value;
    DisplayIdempotent(env, x);
    DisplayTrimmed(env, x);
  }

  // The fingerprint of an event is the same before and after canonicalisation, unless it is the
  // fallback fingerprint of an event that stores a blank excerpt.
  lemma FingerprintSurvives(env: Env, e: Event)
    requires NfkcStable(env) && Canonicalize(env, e).Some?
    ensures EventFingerprint(env, Canonicalize(env, e).value) == EventFingerprint(env, e)
            <==> ReadFieldByField(env, e) || !Blank(env, e)
  {
    hide SemanticOf, NormalizeBody, BlankExcerpt, NfkcStable, Canonicalize, ReadFieldByField, EntityId;
    var n, c := Normalize(env, e), Canonicalize(env, e).value;
    CanonicalShape(env, e);
    NormalizeTwice(env, e.eventType, e.payload.body);
    if ReadFieldByField(env, e) {
      FieldsSurvive(env, e, n, Normalize(env, c));
    } else {
      FallbackHasNoEntityId(env, e);
      FallbackSurvives(env, e, n, Normalize(env, c));
    }
  }

  lemma FieldsSurvive(env: Env, e: Event, n: Event, m: Event)
    requires NfkcStable(env) && ReadFieldByField(env, e) && n == Normalize(env, e)
    requires m.eventType == n.eventType && m.payload.status == n.payload.status
    requires m.payload.body == NormalizeBody(env, e.eventType, n.payload.body)
    requires EntityId(env, n).None? ==> m.entityId == n.entityId
    ensures SemanticOf(env, m) == SemanticOf(env, n)
  {
    hide SemanticOf, NormalizeBody, NfkcStable, Display, Strip;
    BodyKind(env, e.eventType, e.payload.body);
    if n.payload.body.QuestionBody? && n.payload.body.question.context.Some? {
      ContextKept(env, e);
      NormalizedContext(env, e);
    }
    SemanticSettles(env, n, m);
  }

  lemma ContextKept(env: Env, e: Event)
    requires e.payload.body.QuestionBody?
    ensures Normalize(env, e).payload.body.QuestionBody?
    ensures Normalize(env, e).payload.body.question.context.Some? <==> e.payload.body.question.context.Some?
  {
  }

  lemma FallbackHasNoEntityId(env: Env, e: Event)
    requires !ReadFieldByField(env, e)
    ensures EntityId(env, Normalize(env, e)).None?
  {
    hide SemanticOf;
  }

  lemma FallbackSurvives(env: Env, e: Event, n: Event, m: Event)
    requires n == Normalize(env, e) && !ReadFieldByField(env, e)
    requires m.eventType == n.eventType && m.entityId == n.entityId
    requires m.payload == n.payload.(body := m.payload.body)
    requires m.payload.body == NormalizeBody(env, e.eventType, n.payload.body)
    ensures SemanticOf(env, m) == SemanticOf(env, n) <==> m.payload.body == n.payload.body
  {
    hide NormalizeBody;
    BodyKind(env, e.eventType, n.payload.body);
    if m.payload.body == n.payload.body {
      assert m.payload == n.payload;
      IdsInSemantic(env, n, m);
    } else {
      FallbackShowsBody(env, n, m);
    }
  }

  // A fallback payload shows the whole body.
  lemma FallbackShowsBody(env: Env, n: Event, m: Event)
    requires SemanticOf(env, n).Other? || SemanticOf(env, n).UnknownCandidate?
    requires m.payload.body != n.payload.body
    ensures SemanticOf(env, m) != SemanticOf(env, n)
  {
    hide TextIdentity, RefIdentities, IdList, RelatedRefs, EvidenceRefs, FilePaths, TargetIdentity, ContextIdentity;
  }

  // Canonicalising a second time changes nothing exactly when the event stores no blank excerpt.
  lemma CanonicalizeIdempotent(env: Env, e: Event)
    requires NfkcStable(env) && Canonicalize(env, e).Some?
    ensures Canonicalize(env, Canonicalize(env, e).value) == Canonicalize(env, e) <==> !Blank(env, e)
  {
    hide SemanticOf, NormalizeBody, BlankExcerpt, NfkcStable, EventFingerprint, WithEntityId, WithEventIds;
    var c := Canonicalize(env, e).value;
    CanonicalShape(env, e);
    NormalizeTwice(env, e.eventType, e.payload.body);
    if Blank(env, e) {
      if Canonicalize(env, c).Some? { CanonicalShape(env, c); }
    } else {
      assert Normalize(env, c) == c;
      if IsCanonical(e.eventType) {
        IdsSettle(env, e);
      }
    }
  }

  lemma IdsSettle(env: Env, e: Event)
    requires NfkcStable(env) && Canonicalize(env, e).Some? && IsCanonical(e.eventType) && !Blank(env, e)
    requires Normalize(env, Canonicalize(env, e).value) == Canonicalize(env, e).value
    ensures var c := Canonicalize(env, e).value; WithEventIds(env, WithEntityId(env, c)) == c
  {
    hide SemanticOf, NormalizeBody, Blank, NfkcStable, EventFingerprint;
    var n, c := Normalize(env, e), Canonicalize(env, e).value;
    var w := WithEntityId(env, n);
    assert c == WithEventIds(env, w);
    IdsInSemantic(env, n, c);
    IdsInSemantic(env, c, n);
    assert EntityId(env, c) == EntityId(env, n);
    assert WithEntityId(env, c) == c;
    FingerprintIgnoresIds(env, w, c);
  }

  lemma FingerprintIgnoresIds(env: Env, a: Event, b: Event)
    requires b == a.(id := b.id, idempotencyKey := b.idempotencyKey)
    ensures EventFingerprint(env, b) == EventFingerprint(env, a)
  {
    hide NormalizeBody, SemanticOf;
    IdsInSemantic(env, Normalize(env, a), Normalize(env, b));
  }

  /******* What identities ignore *******/

  // Payloads that differ only in display whitespace, in the order of references, in the order and
  // repetition of ids and paths, and in fields that carry no meaning.
  ghost predicate SameMeaning(env: Env, a: Body, b: Body) {
    match (a, b)
    case (ObservationBody(x), ObservationBody(y)) =>
      && Display(env, x.statement) == Display(env, y.statement)
      && x.evidenceClass == y.evidenceClass && SameRefs(x.sourceRefs, y.sourceRefs)
    case (HypothesisBody(x), HypothesisBody(y)) =>
      && Display(env, x.statement) == Display(env, y.statement)
      && SameRefs(x.sourceRefs, y.sourceRefs)
      && SameIds(env, x.supportingIds, y.supportingIds) && SameIds(env, x.contradictingIds, y.contradictingIds)
    case (QuestionBody(x), QuestionBody(y)) =>
      && Display(env, x.prompt) == Display(env, y.prompt)
      && (x.context.Some? <==> y.context.Some?)
      && Display(env, x.context.GetOr("")) == Display(env, y.context.GetOr(""))
      && multiset(x.related) == multiset(y.related)
    case (IssueBody(x), IssueBody(y)) =>
      && Display(env, x.title) == Display(env, y.title)
      && SameIds(env, x.evidence.observationIds, y.evidence.observationIds)
      && SameIds(env, x.evidence.questionIds.GetOr([]), y.evidence.questionIds.GetOr([]))
      && SameIds(env, x.evidence.contradictionIds.GetOr([]), y.evidence.contradictionIds.GetOr([]))
      && x.severity == y.severity && x.severityRule == y.severityRule
    case (CandidateBody(x), CandidateBody(y)) =>
      && !x.kind.OtherKind? && x.kind == y.kind && x.target == y.target
      && Display(env, x.claim) == Display(env, y.claim)
      && multiset(x.evidenceRefs) == multiset(y.evidenceRefs)
      && SameIds(env, x.triggerIds.GetOr([]), y.triggerIds.GetOr([]))
      && SameIds(env, x.relatedIds.GetOr([]), y.relatedIds.GetOr([]))
      && (forall p :: p in x.filePaths.GetOr([]) <==> p in y.filePaths.GetOr([]))
    case _ => false
  }

  lemma SameIdLists(env: Env, a: seq<string>, b: seq<string>)
    requires NfkcStable(env) && SameIds(env, a, b)
    ensures IdList(env, a) == IdList(env, b)
    ensures IdList(env, IdList(env, a)) == IdList(env, IdList(env, b))
  {
    IdListIgnoresOrder(env, a, b);
  }

  lemma SameOptionalIds(env: Env, a: Option<seq<string>>, b: Option<seq<string>>)
    requires NfkcStable(env) && SameIds(env, a.GetOr([]), b.GetOr([]))
    ensures IdList(env, OptionalIds(env, a).GetOr([])) == IdList(env, OptionalIds(env, b).GetOr([]))
  {
    OptionalIdsIdempotent(env, a);
    OptionalIdsIdempotent(env, b);
    IdListIgnoresOrder(env, a.GetOr([]), b.GetOr([]));
  }

  lemma SameStoredRefs(env: Env, a: seq<SourceRef>, b: seq<SourceRef>)
    requires SameRefs(a, b)
    ensures RefIdentities(StorageRefs(env, a)) == RefIdentities(StorageRefs(env, b))
  {
    hide RefIdentities, StorageRefs;
    StorageKeepsIdentities(env, a);
    StorageKeepsIdentities(env, b);
    RefIdentitiesIgnoreOrder(a, b);
  }

  lemma SameCandidatePaths(env: Env, a: Option<seq<string>>, b: Option<seq<string>>)
    requires forall p :: p in a.GetOr([]) <==> p in b.GetOr([])
    ensures FilePaths((if a.None? then None else Some(FilePaths(a.value))).GetOr([]))
         == FilePaths((if b.None? then None else Some(FilePaths(b.value))).GetOr([]))
  {
    hide FilePaths;
    FilePathsIdempotent(a.GetOr([]));
    FilePathsIdempotent(b.GetOr([]));
    FilePathsIgnoreOrder(a.GetOr([]), b.GetOr([]));
  }

  // The only canonical events whose own entity id and status are part of their meaning.
  predicate IsVerdict(t: EventType) {
    t.ObservationVerified? || t.ObservationRejected?
  }

  predicate SameSubject(a: Event, b: Event) {
    IsVerdict(a.eventType) ==> a.entityId == b.entityId && a.payload.status == b.payload.status
  }

  ghost predicate Comparable(env: Env, a: Event, b: Event) {
    a.eventType == b.eventType && SameSubject(a, b) && SameMeaning(env, a.payload.body, b.payload.body)
  }

  lemma SameObservationSemantic(env: Env, a: Event, b: Event)
    requires Comparable(env, a, b) && ReadFieldByField(env, a) && a.payload.body.ObservationBody?
    ensures SemanticOf(env, Normalize(env, a)) == SemanticOf(env, Normalize(env, b))
  {
    hide Display, StorageRefs, RefIdentities, SameRefs, TextIdentity;
    SameStoredRefs(env, a.payload.body.observation.sourceRefs, b.payload.body.observation.sourceRefs);
  }

  lemma SameHypothesisSemantic(env: Env, a: Event, b: Event)
    requires Comparable(env, a, b) && ReadFieldByField(env, a) && a.payload.body.HypothesisBody?
    requires NfkcStable(env)
    ensures SemanticOf(env, Normalize(env, a)) == SemanticOf(env, Normalize(env, b))
  {
    hide Display, StorageRefs, RefIdentities, IdList, NormalizeBasis, SameRefs, SameIds, NfkcStable, TextIdentity;
    var x, y := a.payload.body.hypothesis, b.payload.body.hypothesis;
    SameStoredRefs(env, x.sourceRefs, y.sourceRefs);
    SameIdLists(env, x.supportingIds, y.supportingIds);
    SameIdLists(env, x.contradictingIds, y.contradictingIds);
  }

  lemma SameQuestionSemantic(env: Env, a: Event, b: Event)
    requires Comparable(env, a, b) && ReadFieldByField(env, a) && a.payload.body.QuestionBody?
    ensures SemanticOf(env, Normalize(env, a)) == SemanticOf(env, Normalize(env, b))
  {
    hide Display, RelatedRefs, Strip, TextIdentity;
    RelatedRefsIgnoreOrder(a.payload.body.question.related, b.payload.body.question.related);
  }

  lemma SameIssueSemantic(env: Env, a: Event, b: Event)
    requires Comparable(env, a, b) && ReadFieldByField(env, a) && a.payload.body.IssueBody?
    requires NfkcStable(env)
    ensures SemanticOf(env, Normalize(env, a)) == SemanticOf(env, Normalize(env, b))
  {
    hide Display, IdList, OptionalIds, SameIds, NfkcStable, TextIdentity;
    var x, y := a.payload.body.issue.evidence, b.payload.body.issue.evidence;
    SameIdLists(env, x.observationIds, y.observationIds);
    SameOptionalIds(env, x.questionIds, y.questionIds);
    SameOptionalIds(env, x.contradictionIds, y.contradictionIds);
  }

  lemma SameCandidateSemantic(env: Env, a: Event, b: Event)
    requires Comparable(env, a, b) && ReadFieldByField(env, a) && a.payload.body.CandidateBody?
    requires NfkcStable(env)
    ensures SemanticOf(env, Normalize(env, a)) == SemanticOf(env, Normalize(env, b))
  {
    hide Display, IdList, OptionalIds, EvidenceRefs, FilePaths, SameIds, NfkcStable, TargetIdentity, TextIdentity;
    var x, y := a.payload.body.candidate, b.payload.body.candidate;
    EvidenceRefsIgnoreOrder(x.evidenceRefs, y.evidenceRefs);
    SameOptionalIds(env, x.triggerIds, y.triggerIds);
    SameOptionalIds(env, x.relatedIds, y.relatedIds);
    SameCandidatePaths(env, x.filePaths, y.filePaths);
  }

  lemma SameMeaningSameSemantic(env: Env, a: Event, b: Event)
    requires NfkcStable(env) && Comparable(env, a, b) && ReadFieldByField(env, a)
    ensures SemanticOf(env, Normalize(env, a)) == SemanticOf(env, Normalize(env, b))
  {
    hide Comparable, ReadFieldByField, SemanticOf, NfkcStable, Normalize;
    ComparableBodies(env, a, b);
    if a.payload.body.ObservationBody? {
      SameObservationSemantic(env, a, b);
    } else if a.payload.body.HypothesisBody? {
      SameHypothesisSemantic(env, a, b);
    } else if a.payload.body.QuestionBody? {
      SameQuestionSemantic(env, a, b);
    } else if a.payload.body.IssueBody? {
      SameIssueSemantic(env, a, b);
    } else {
      SameCandidateSemantic(env, a, b);
    }
  }

  lemma ComparableBodies(env: Env, a: Event, b: Event)
    requires Comparable(env, a, b)
    ensures var x := a.payload.body;
            x.ObservationBody? || x.HypothesisBody? || x.QuestionBody? || x.IssueBody? || x.CandidateBody?
  {
    hide Display, SameRefs, SameIds;
  }

  // Two submissions with the same meaning get the same fingerprint, event id, idempotency key and
  // entity id, whatever the order and whitespace they were written with and whatever provisional
  // entity ids their proposals came with.
  lemma SameMeaningSameIds(env: Env, a: Event, b: Event)
    requires NfkcStable(env)
    requires a.auditId == b.auditId && a.snapshotRef == b.snapshotRef && Comparable(env, a, b)
    requires ReadFieldByField(env, a) && IsCanonical(a.eventType)
    ensures EventFingerprint(env, a) == EventFingerprint(env, b)
    ensures Canonicalize(env, a).Some? && Canonicalize(env, b).Some?
    ensures var x, y := Canonicalize(env, a).value, Canonicalize(env, b).value;
            x.id == y.id && x.idempotencyKey == y.idempotencyKey && x.entityId == y.entityId
  {
    hide SemanticOf, NormalizeBody, NfkcStable, SameMeaning;
    ProposalOrVerdict(env, a);
    SameMeaningSameSemantic(env, a, b);
    SameKind(env, a, b);
    NeverLacksEvidence(env, a);
    NeverLacksEvidence(env, b);
    var n, m := Normalize(env, a), Normalize(env, b);
    SameMeaningKeepsEntityId(env, a, n);
    SameMeaningKeepsEntityId(env, b, m);
  }

  // What is read field by field gets its entity id from its meaning, or is a verdict.
  lemma ProposalOrVerdict(env: Env, e: Event)
    requires ReadFieldByField(env, e)
    ensures EntityId(env, Normalize(env, e)).Some? || IsVerdict(e.eventType)
  {
    hide NormalizeBody, TextIdentity, RefIdentities, IdList, RelatedRefs, EvidenceRefs, FilePaths, TargetIdentity;
    hide ContextIdentity;
  }

  lemma SameKind(env: Env, a: Event, b: Event)
    requires SameMeaning(env, a.payload.body, b.payload.body)
    ensures a.EntityType() == b.EntityType()
  {
    hide Display, SameRefs, SameIds;
  }

  lemma NeverLacksEvidence(env: Env, e: Event)
    requires ReadFieldByField(env, e)
    ensures !LacksEvidence(Normalize(env, e))
  {
    hide NormalizeBody;
  }

  // Giving an event its entity id does not change what it is fingerprinted as.
  lemma SameMeaningKeepsEntityId(env: Env, e: Event, n: Event)
    requires NfkcStable(env) && n == Normalize(env, e) && ReadFieldByField(env, e)
    ensures EventFingerprint(env, WithEntityId(env, n)) == EventFingerprint(env, e)
  {
    hide SemanticOf, NormalizeBody, NfkcStable;
    var w := WithEntityId(env, n);
    BodyKind(env, e.eventType, e.payload.body);
    FieldsSurvive(env, e, n, Normalize(env, w));
  }

  /******* Entity ids and fingerprints *******/

  predicate IsSnapshotProposal(t: EventType) {
    t.ObservationProposed? || t.HypothesisProposed? || t.QuestionOpened? || t.IssueProposed?
  }

  predicate Shaped(e: Event) {
    match e.eventType
    case ObservationProposed => e.payload.body.ObservationBody?
    case HypothesisProposed => e.payload.body.HypothesisBody?
    case QuestionOpened => e.payload.body.QuestionBody?
    case IssueProposed => e.payload.body.IssueBody?
    case CandidateProposed => e.payload.body.CandidateBody? && !e.payload.body.candidate.kind.OtherKind?
    case _ => false
  }

  lemma ShapedIsTyped(env: Env, e: Event)
    requires Shaped(e)
    ensures ReadFieldByField(env, e) && EntityId(env, Normalize(env, e)).Some?
    ensures !LacksEvidence(Normalize(env, e)) && Canonicalize(env, e).Some?
    ensures Canonicalize(env, e).value.entityId == EntityId(env, Normalize(env, e)).value
  {
    hide TextIdentity, RefIdentities, IdList, RelatedRefs, EvidenceRefs, FilePaths, TargetIdentity, ContextIdentity;
    hide Display, StorageRefs, OptionalIds, NormalizeBasis, EventFingerprint;
  }

  lemma PrefixCancels(prefix: string, x: string, y: string)
    ensures prefix + x == prefix + y <==> x == y
  {
    assert (prefix + x)[|prefix|..] == x && (prefix + y)[|prefix|..] == y;
  }

  lemma PrefixesDiffer(s: Semantic, t: Semantic, x: string, y: string)
    requires EntityPrefix(s).Some? && EntityPrefix(t).Some?
    ensures EntityPrefix(s).value + x == EntityPrefix(t).value + y <==> EntityPrefix(s) == EntityPrefix(t) && x == y
  {
    var p, q := EntityPrefix(s).value, EntityPrefix(t).value;
    PrefixCancels(p, x, y);
    assert (p + x)[0] == p[0] && (q + y)[0] == q[0];
  }

  lemma EntityIdsTellSemanticsApart(env: Env, n: Event, m: Event)
    requires InjectiveDigest(env) && EntityId(env, n).Some? && EntityId(env, m).Some?
    ensures EntityId(env, n) == EntityId(env, m) <==>
            EntityFingerprint(n, SemanticOf(env, n)) == EntityFingerprint(m, SemanticOf(env, m))
  {
    hide SemanticOf;
    var s, t := SemanticOf(env, n), SemanticOf(env, m);
    PrefixesDiffer(s, t, env.digest(EntityFingerprint(n, s)), env.digest(EntityFingerprint(m, t)));
  }

  // Observations, hypotheses, questions and issues: the same entity id if and only if the same event.
  lemma EntityIdIffFingerprint(env: Env, a: Event, b: Event)
    requires NfkcStable(env) && InjectiveDigest(env)
    requires Shaped(a) && Shaped(b) && IsSnapshotProposal(a.eventType) && IsSnapshotProposal(b.eventType)
    ensures Canonicalize(env, a).Some? && Canonicalize(env, b).Some?
    ensures var x, y := Canonicalize(env, a).value, Canonicalize(env, b).value;
            x.entityId == y.entityId <==> EventFingerprint(env, x) == EventFingerprint(env, y)
  {
    hide SemanticOf, NormalizeBody, NfkcStable, InjectiveDigest, Canonicalize, EntityId, ReadFieldByField;
    ShapedIsTyped(env, a);
    ShapedIsTyped(env, b);
    FingerprintSurvives(env, a);
    FingerprintSurvives(env, b);
    EntityIdsTellSemanticsApart(env, Normalize(env, a), Normalize(env, b));
    SnapshotIsDigested(env, Normalize(env, a));
    SnapshotIsDigested(env, Normalize(env, b));
    if SemanticOf(env, Normalize(env, a)) == SemanticOf(env, Normalize(env, b)) {
      SemanticShowsType(env, Normalize(env, a), Normalize(env, b));
    }
    BodyKind(env, a.eventType, a.payload.body);
    BodyKind(env, b.eventType, b.payload.body);
  }

  lemma SnapshotIsDigested(env: Env, n: Event)
    requires IsSnapshotProposal(n.eventType) && EntityId(env, n).Some?
    ensures EntityFingerprint(n, SemanticOf(env, n)) == OfEntity(n.auditId, n.snapshotRef, SemanticOf(env, n))
  {
    hide TextIdentity, RefIdentities, IdList, RelatedRefs, ContextIdentity;
  }

  lemma SemanticShowsType(env: Env, n: Event, m: Event)
    requires IsSnapshotProposal(n.eventType) && IsSnapshotProposal(m.eventType)
    requires EntityId(env, n).Some? && EntityId(env, m).Some? && SemanticOf(env, n) == SemanticOf(env, m)
    ensures n.eventType == m.eventType && n.EntityType() == m.EntityType()
  {
    hide TextIdentity, RefIdentities, IdList, RelatedRefs, ContextIdentity;
  }

  // Candidates: the entity id leaves the snapshot out, so it is the event's identity only together
  // with the snapshot; candidates of different kinds never share an id or a fingerprint.
  lemma CandidateIdentity(env: Env, a: Event, b: Event)
    requires NfkcStable(env) && InjectiveDigest(env)
    requires Shaped(a) && Shaped(b) && a.eventType.CandidateProposed? && b.eventType.CandidateProposed?
    ensures Canonicalize(env, a).Some? && Canonicalize(env, b).Some?
    ensures var x, y := Canonicalize(env, a).value, Canonicalize(env, b).value;
            && (x.entityId == y.entityId && x.snapshotRef == y.snapshotRef
                <==> EventFingerprint(env, x) == EventFingerprint(env, y))
            && (SemanticOf(env, Normalize(env, a)) == SemanticOf(env, Normalize(env, b)) && a.auditId == b.auditId
                <==> x.entityId == y.entityId)
  {
    hide NormalizeBody, SemanticOf, NfkcStable, InjectiveDigest, Canonicalize, EntityId;
    ShapedIsTyped(env, a);
    ShapedIsTyped(env, b);
    FingerprintSurvives(env, a);
    FingerprintSurvives(env, b);
    CandidateIds(env, Normalize(env, a), Normalize(env, b));
    CanonicalShape(env, a);
    CanonicalShape(env, b);
  }

  lemma CandidateIds(env: Env, n: Event, m: Event)
    requires InjectiveDigest(env) && n.eventType.CandidateProposed? && m.eventType.CandidateProposed?
    requires EntityId(env, n).Some? && EntityId(env, m).Some?
    ensures EntityId(env, n) == EntityId(env, m) <==> n.auditId == m.auditId && SemanticOf(env, n) == SemanticOf(env, m)
  {
    hide TextIdentity, IdList, EvidenceRefs, FilePaths, TargetIdentity;
    EntityIdsTellSemanticsApart(env, n, m);
  }

  lemma CandidateKindsNeverMerge(env: Env, a: Event, b: Event)
    requires NfkcStable(env) && InjectiveDigest(env)
    requires Shaped(a) && Shaped(b) && a.eventType.CandidateProposed? && b.eventType.CandidateProposed?
    requires var k, l := a.payload.body.candidate.kind, b.payload.body.candidate.kind;
      (k.Risk? && !l.Risk?) || (k.Policy? && !l.Policy?) || (k.CrossFile? && !l.CrossFile?) ||
      (k.VerificationTarget? && !l.VerificationTarget?)
    ensures Canonicalize(env, a).Some? && Canonicalize(env, b).Some?
    ensures var x, y := Canonicalize(env, a).value, Canonicalize(env, b).value;
            x.entityId != y.entityId && EventFingerprint(env, x) != EventFingerprint(env, y)
  {
    hide NfkcStable, InjectiveDigest, Canonicalize, EventFingerprint;
    hide Display, TextIdentity, IdList, EvidenceRefs, FilePaths, TargetIdentity, OptionalIds;
    CandidateIdentity(env, a, b);
  }

  // The same candidate seen in another snapshot is the same entity but a different event.
  lemma CandidateIdIgnoresSnapshot(env: Env, a: Event, snapshotRef: Option<string>)
    requires NfkcStable(env) && InjectiveDigest(env)
    requires Shaped(a) && a.eventType.CandidateProposed? && snapshotRef != a.snapshotRef
    ensures Canonicalize(env, a).Some? && Canonicalize(env, a.(snapshotRef := snapshotRef)).Some?
    ensures var x, y := Canonicalize(env, a).value, Canonicalize(env, a.(snapshotRef := snapshotRef)).value;
            x.entityId == y.entityId && EventFingerprint(env, x) != EventFingerprint(env, y)
  {
    hide NormalizeBody, NfkcStable, InjectiveDigest, Canonicalize, EventFingerprint;
    hide TextIdentity, IdList, EvidenceRefs, FilePaths, TargetIdentity;
    var b := a.(snapshotRef := snapshotRef);
    CandidateIdentity(env, a, b);
    CanonicalShape(env, a);
    CanonicalShape(env, b);
  }
}
