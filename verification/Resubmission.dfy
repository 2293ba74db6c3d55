/** Nothing is accepted twice: ids, idempotency keys and meanings are unique in every reachable
    ledger, and submitting accepted work again is refused as a duplicate and changes nothing. */
module Resubmission {
  import opened Wrappers
  import opened Events
  import opened Canonicalization
  import opened SemanticIdentity
  import opened Validators
  import opened Processing
  import opened AcceptanceSafety

  // The three ways in which two events can be the same submission.
  ghost predicate Clash(env: Env, a: Event, b: Event) {
    || a.id == b.id
    || (a.auditId == b.auditId && a.idempotencyKey == b.idempotencyKey)
    || (a.auditId == b.auditId && a.eventType == b.eventType && SemanticEquivalent(env, a, b))
  }

  ghost predicate AllDistinct(env: Env, ledger: seq<Event>) {
    forall i, j :: 0 <= i < j < |ledger| ==> !Clash(env, ledger[i], ledger[j])
  }

  // The duplicate validator is silent exactly when nothing in the ledger clashes.
  lemma {:induction false} NoIssueNoClash(env: Env, ledger: seq<Event>, e: Event)
    ensures DuplicateIssues(env, ledger, e) == [] <==> forall i :: 0 <= i < |ledger| ==> !Clash(env, ledger[i], e)
    decreases |ledger|
  {
    hide SemanticEquivalent;
    if ledger != [] {
      NoIssueNoClash(env, ledger[1..], e);
      assert forall i :: 0 <= i < |ledger| - 1 ==> ledger[1..][i] == ledger[i + 1];
      assert Clash(env, ledger[0], e) || forall i :: 0 < i < |ledger| ==> ledger[i] == ledger[1..][i - 1];
    }
  }

  // An event that passes the duplicate validator never conflicts in the store.
  lemma {:induction false} PassingNeverConflicts(env: Env, ledger: seq<Event>, e: Event)
    requires DuplicateIssues(env, ledger, e) == []
    ensures StoreCheck(ledger, e) == Fresh
    decreases |ledger|
  {
    hide SemanticEquivalent;
    if ledger != [] {
      PassingNeverConflicts(env, ledger[1..], e);
    }
  }

  // So the two store outcomes that the loop turns into rejections never happen.
  lemma StoreNeverRefuses(cfg: Config, ledger: seq<Event>, c: Submission)
    requires Prepare(cfg.env, c).Ready? && Validate(cfg, ledger, Prepare(cfg.env, c).event) == Issues([])
    ensures Decide(cfg, ledger, c) == Accepted(Prepare(cfg.env, c).event)
  {
    hide Prepare, SchemaIssues, DuplicateIssues, TransitionVerdict, ContradictionIssues;
    PassingNeverConflicts(cfg.env, ledger, Prepare(cfg.env, c).event);
  }

  lemma {:induction false} LawfulIsDistinct(cfg: Config, ledger: seq<Event>)
    requires Lawful(cfg, ledger)
    ensures AllDistinct(cfg.env, ledger)
    decreases |ledger|
  {
    hide Clash, Admitted;
    if ledger != [] {
      var n := |ledger| - 1;
      LawfulPrefix(cfg, ledger, n);
      LawfulIsDistinct(cfg, ledger[..n]);
      LastAdmitted(cfg, ledger);
      AdmittedIsNew(cfg, ledger[..n], ledger[n]);
      forall i, j | 0 <= i < j < |ledger| ensures !Clash(cfg.env, ledger[i], ledger[j]) {
        assert j < n ==> ledger[i] == ledger[..n][i] && ledger[j] == ledger[..n][j];
        assert j == n ==> ledger[i] == ledger[..n][i];
      }
    }
  }

  lemma AdmittedIsNew(cfg: Config, ledger: seq<Event>, e: Event)
    requires Admitted(cfg, ledger, e)
    ensures forall i :: 0 <= i < |ledger| ==> !Clash(cfg.env, ledger[i], e)
  {
    hide Clash, SchemaIssues, DuplicateIssues, StoreCheck, ContradictionIssues;
    NoIssueNoClash(cfg.env, ledger, e);
  }

  // In every reachable ledger, event ids are unique, and so are idempotency keys and meanings
  // within an audit.
  lemma ReachableLedgersAreDistinct(cfg: Config, ledger: seq<Event>)
    requires Reachable(cfg, ledger)
    ensures AllDistinct(cfg.env, ledger)
  {
    hide AllDistinct, Lawful, Reachable;
    ReachableIsLawful(cfg, ledger);
    LawfulIsDistinct(cfg, ledger);
  }

  /******* Submitting again *******/

  // `e` is the same submission as `original`.
  ghost predicate SameSubmission(env: Env, original: Event, e: Event) {
    && e.id == original.id && e.auditId == original.auditId && e.idempotencyKey == original.idempotencyKey
    && e.eventType == original.eventType && EventFingerprint(env, original) == EventFingerprint(env, e)
  }

  lemma ClashTransfers(env: Env, a: Event, original: Event, e: Event)
    requires SameSubmission(env, original, e) && !Clash(env, a, original)
    ensures !Clash(env, a, e)
  {
    hide EventFingerprint;
  }

  // The first clash the scan meets is the original, and it is a duplicate, never a conflict.
  lemma {:induction false} ScanFindsOriginal(env: Env, ledger: seq<Event>, k: nat, e: Event)
    requires AllDistinct(env, ledger) && k < |ledger| && SameSubmission(env, ledger[k], e)
    ensures DuplicateIssues(env, ledger, e) == [DuplicateSubmission]
    decreases |ledger|
  {
    hide EventFingerprint;
    if k > 0 {
      assert !Clash(env, ledger[0], ledger[k]);
      ClashTransfers(env, ledger[0], ledger[k], e);
      assert ledger[1..][k - 1] == ledger[k];
      assert forall i, j :: 0 <= i < j < |ledger| - 1 ==>
             ledger[1..][i] == ledger[i + 1] && ledger[1..][j] == ledger[j + 1];
      ScanFindsOriginal(env, ledger[1..], k - 1, e);
    }
  }

  lemma DuplicateIsRejected(cfg: Config, ledger: seq<Event>, c: Submission, k: nat)
    requires AllDistinct(cfg.env, ledger) && k < |ledger|
    requires Prepare(cfg.env, c).Ready? && SchemaIssues(cfg, Prepare(cfg.env, c).event) == []
    requires SameSubmission(cfg.env, ledger[k], Prepare(cfg.env, c).event)
    ensures Decide(cfg, ledger, c) == Rejected([DuplicateSubmission])
  {
    hide Prepare, SchemaIssues, DuplicateIssues, TransitionVerdict, ContradictionIssues, AllDistinct, SameSubmission;
    ScanFindsOriginal(cfg.env, ledger, k, Prepare(cfg.env, c).event);
  }

  // A submission that was accepted once is rejected with exactly the duplicate code ever after.
  lemma AcceptedOnce(cfg: Config, before: seq<Event>, c: Submission, ledger: seq<Event>)
    requires Decide(cfg, before, c).Accepted? && Decide(cfg, before, c).event in ledger
    requires Lawful(cfg, ledger)
    ensures Decide(cfg, ledger, c) == Rejected([DuplicateSubmission])
  {
    hide Lawful, Decide, AllDistinct, EventFingerprint;
    AcceptedIsAdmitted(cfg, before, c);
    LawfulIsDistinct(cfg, ledger);
    var k :| 0 <= k < |ledger| && ledger[k] == Decide(cfg, before, c).event;
    DuplicateIsRejected(cfg, ledger, c, k);
  }

  // The id of a canonical event is a function of its own type and fingerprint.
  lemma IdFromFingerprint(env: Env, e: Event)
    requires IsCanonical(e.eventType) && Canonicalize(env, e).Some?
    ensures var c := Canonicalize(env, e).value; var d := env.digest(EventFingerprint(env, c));
            && c.eventType == e.eventType
            && c.id == "event_" + TypeToken(c.eventType) + "_" + d
            && c.idempotencyKey == "semantic:" + TypeToken(c.eventType) + ":" + d
  {
    hide NormalizeBody, EntityId, EventFingerprint, TypeToken;
    var w := WithEntityId(env, Normalize(env, e));
    FingerprintIgnoresIds(env, w, WithEventIds(env, w));
  }

  lemma PreparedIds(env: Env, c: Submission)
    requires Prepare(env, c).Ready? && IsCanonical(Prepare(env, c).event.eventType)
    ensures var e := Prepare(env, c).event; var d := env.digest(EventFingerprint(env, e));
            && e.id == "event_" + TypeToken(e.eventType) + "_" + d
            && e.idempotencyKey == "semantic:" + TypeToken(e.eventType) + ":" + d
  {
    hide Canonicalize, EventFingerprint, TypeToken;
    var accepted := Acceptance("accepted", Some(c.event.occurredAt), Some(SYSTEM_ACCEPTOR), Some(ACCEPTANCE_REASON));
    var e := c.event.(acceptance := accepted);
    CanonicalShape(env, e);
    IdFromFingerprint(env, e);
  }

  // Rephrasing does not help: any canonical submission with the meaning of an accepted one is refused
  // as a duplicate, whoever sends it, whenever it happened and whatever ids it came with.
  lemma SameMeaningIsDuplicate(cfg: Config, before: seq<Event>, c: Submission, ledger: seq<Event>, again: Submission)
    requires Decide(cfg, before, c).Accepted? && Decide(cfg, before, c).event in ledger && Lawful(cfg, ledger)
    requires Prepare(cfg.env, again).Ready? && SchemaIssues(cfg, Prepare(cfg.env, again).event) == []
    requires IsCanonical(Prepare(cfg.env, again).event.eventType)
    requires EventFingerprint(cfg.env, Prepare(cfg.env, again).event)
          == EventFingerprint(cfg.env, Decide(cfg, before, c).event)
    ensures Decide(cfg, ledger, again) == Rejected([DuplicateSubmission])
  {
    hide Lawful, Decide, AllDistinct, Prepare, SchemaIssues, TypeToken;
    var e, original := Prepare(cfg.env, again).event, Decide(cfg, before, c).event;
    FingerprintShowsOrigin(cfg.env, e, original);
    AcceptedIsAdmitted(cfg, before, c);
    PreparedIds(cfg.env, c);
    PreparedIds(cfg.env, again);
    LawfulIsDistinct(cfg, ledger);
    var k :| 0 <= k < |ledger| && ledger[k] == original;
    DuplicateIsRejected(cfg, ledger, again, k);
  }

  lemma FingerprintShowsOrigin(env: Env, a: Event, b: Event)
    requires EventFingerprint(env, a) == EventFingerprint(env, b)
    ensures a.auditId == b.auditId && a.eventType == b.eventType
  {
    hide SemanticOf, Normalize;
  }

  /******* A whole batch again *******/

  lemma {:induction false} RunKeeps(cfg: Config, ledger: seq<Event>, cs: seq<Submission>)
    ensures ledger <= Run(cfg, ledger, cs)
    decreases |cs|
  {
    hide Decide;
    if cs != [] {
      RunKeeps(cfg, ledger, cs[..|cs| - 1]);
    }
  }

  // Every submission of a batch was accepted when the batch was processed on `ledger`.
  ghost predicate AllAccepted(cfg: Config, ledger: seq<Event>, cs: seq<Submission>) {
    forall i :: 0 <= i < |cs| ==> Decide(cfg, Run(cfg, ledger, cs[..i]), cs[i]).Accepted?
  }

  lemma {:induction false} AcceptedAreInRun(cfg: Config, ledger: seq<Event>, cs: seq<Submission>, i: nat)
    requires i < |cs| && Decide(cfg, Run(cfg, ledger, cs[..i]), cs[i]).Accepted?
    ensures Decide(cfg, Run(cfg, ledger, cs[..i]), cs[i]).event in Run(cfg, ledger, cs)
    decreases |cs|
  {
    hide Decide;
    var n := |cs| - 1;
    var e := Decide(cfg, Run(cfg, ledger, cs[..i]), cs[i]).event;
    if i == n {
      var before := Run(cfg, ledger, cs[..n]);
      assert (before + [e])[|before|] == e;
    } else {
      assert cs[..n][..i] == cs[..i] && cs[..n][i] == cs[i];
      AcceptedAreInRun(cfg, ledger, cs[..n], i);
      var before := Run(cfg, ledger, cs[..n]);
      assert before <= Run(cfg, ledger, cs);
    }
  }

  // Processing a fully accepted batch again, at any later time, rejects every event as a duplicate
  // and leaves the ledger unchanged.
  lemma {:induction false} BatchAgain(
      cfg: Config, ledger: seq<Event>, all: seq<Submission>, later: seq<Event>, cs: seq<Submission>)
    requires AllAccepted(cfg, ledger, all) && Run(cfg, ledger, all) <= later && Lawful(cfg, later)
    requires cs <= all
    ensures Run(cfg, later, cs) == later
    ensures Outcomes(cfg, later, cs) == seq(|cs|, _ => Rejected([DuplicateSubmission]))
    decreases |cs|
  {
    hide Decide, Lawful;
    if cs != [] {
      var n := |cs| - 1;
      assert cs[..n] == all[..n] && cs[n] == all[n];
      BatchAgain(cfg, ledger, all, later, cs[..n]);
      AcceptedAreInRun(cfg, ledger, all, n);
      AcceptedOnce(cfg, Run(cfg, ledger, all[..n]), cs[n], later);
    }
  }

  // No submission that was turned away in the first `k` is accepted by the ledger they left behind.
  ghost predicate StaysTurnedAway(cfg: Config, ledger: seq<Event>, cs: seq<Submission>, k: nat)
    requires k <= |cs|
  {
    var later := Run(cfg, ledger, cs[..k]);
    forall i :: 0 <= i < k ==>
        Decide(cfg, Run(cfg, ledger, cs[..i]), cs[i]).Accepted? || !Decide(cfg, later, cs[i]).Accepted?
  }

  // Processing submissions leaves a ledger alone exactly when it accepts none of them.
  lemma {:induction false} QuietIff(cfg: Config, ledger: seq<Event>, cs: seq<Submission>)
    ensures Run(cfg, ledger, cs) == ledger <==> forall i :: 0 <= i < |cs| ==> !Decide(cfg, ledger, cs[i]).Accepted?
    decreases |cs|
  {
    hide Decide;
    if cs != [] {
      var n := |cs| - 1;
      QuietIff(cfg, ledger, cs[..n]);
      RunKeeps(cfg, ledger, cs[..n]);
      assert forall i :: 0 <= i < n ==> cs[..n][i] == cs[i];
    }
  }

  // A crash after the first `k` of a batch: the ledger it left takes none of them a second time if and
  // only if no submission that was turned away before is accepted now.
  lemma PrefixIsQuietIff(cfg: Config, ledger: seq<Event>, cs: seq<Submission>, k: nat)
    requires k <= |cs| && Lawful(cfg, ledger)
    ensures var later := Run(cfg, ledger, cs[..k]);
            Run(cfg, later, cs[..k]) == later <==> StaysTurnedAway(cfg, ledger, cs, k)
  {
    hide Decide, Lawful, Run;
    var later := Run(cfg, ledger, cs[..k]);
    RunIsLawful(cfg, ledger, cs[..k]);
    QuietIff(cfg, later, cs[..k]);
    forall i | 0 <= i < k && Decide(cfg, Run(cfg, ledger, cs[..i]), cs[i]).Accepted?
      ensures !Decide(cfg, later, cs[i]).Accepted?
    {
      assert cs[..k][..i] == cs[..i] && cs[..k][i] == cs[i];
      AcceptedAreInRun(cfg, ledger, cs[..k], i);
      AcceptedOnce(cfg, Run(cfg, ledger, cs[..i]), cs[i], later);
    }
    assert forall i :: 0 <= i < k ==> cs[..k][i] == cs[i];
  }

  // Then processing the whole batch again goes on exactly where the crash cut it off.
  lemma {:induction false} CrashInsideBatch(cfg: Config, ledger: seq<Event>, cs: seq<Submission>, k: nat, n: nat)
    requires k <= n <= |cs| && Lawful(cfg, ledger) && StaysTurnedAway(cfg, ledger, cs, k)
    ensures Run(cfg, Run(cfg, ledger, cs[..k]), cs[..n]) == Run(cfg, ledger, cs[..n])
    decreases n
  {
    hide Decide, Lawful, StaysTurnedAway;
    if n == k {
      PrefixIsQuietIff(cfg, ledger, cs, k);
    } else {
      CrashInsideBatch(cfg, ledger, cs, k, n - 1);
      assert cs[..n][..n - 1] == cs[..n - 1];
    }
  }

  lemma ExactlyOnce(cfg: Config, ledger: seq<Event>, cs: seq<Submission>, k: nat)
    requires k <= |cs| && Lawful(cfg, ledger) && StaysTurnedAway(cfg, ledger, cs, k)
    ensures Run(cfg, Run(cfg, ledger, cs[..k]), cs) == Run(cfg, ledger, cs)
  {
    hide Decide, Lawful, StaysTurnedAway, Run;
    CrashInsideBatch(cfg, ledger, cs, k, |cs|);
    assert cs[..|cs|] == cs;
  }

  // In particular when everything before the crash was accepted.
  lemma AcceptedPrefixStays(cfg: Config, ledger: seq<Event>, cs: seq<Submission>, k: nat)
    requires k <= |cs| && AllAccepted(cfg, ledger, cs[..k])
    ensures StaysTurnedAway(cfg, ledger, cs, k)
  {
    hide Decide, Run;
    forall i | 0 <= i < k ensures Decide(cfg, Run(cfg, ledger, cs[..i]), cs[i]).Accepted? {
      assert cs[..k][..i] == cs[..i] && cs[..k][i] == cs[i];
    }
  }

  /******* Resuming a task *******/

  function AcceptedCount(outcomes: seq<Outcome>): nat {
    if outcomes == [] then 0 else AcceptedCount(outcomes[1..]) + if outcomes[0].Accepted? then 1 else 0
  }

  // Only duplicates: nothing accepted, something rejected, and every code says "already there".
  predicate IsDuplicateOnly(outcomes: seq<Outcome>) {
    && AcceptedCount(outcomes) == 0 && outcomes != []
    && forall i :: 0 <= i < |outcomes| ==>
         && outcomes[i].Rejected? && outcomes[i].codes != []
         && forall c :: c in outcomes[i].codes ==> c == DuplicateSubmission || c == AppendNotPersisted
  }

  // Whether run-task moves its task to done (true) or to failed after processing a batch.
  predicate Completes(resumed: bool, outcomes: seq<Outcome>) {
    AcceptedCount(outcomes) > 0 || (resumed && IsDuplicateOnly(outcomes))
  }

  lemma {:induction false} NothingAccepted(outcomes: seq<Outcome>)
    requires forall o :: o in outcomes ==> o.Rejected?
    ensures AcceptedCount(outcomes) == 0
    decreases |outcomes|
  {
    if outcomes != [] {
      assert outcomes[0] in outcomes && forall o :: o in outcomes[1..] ==> o in outcomes;
      NothingAccepted(outcomes[1..]);
    }
  }

  // A task whose whole batch was accepted before the crash completes when it is resumed, and only
  // because it is resumed.
  lemma ResumedTaskCompletes(cfg: Config, ledger: seq<Event>, cs: seq<Submission>, later: seq<Event>, resumed: bool)
    requires cs != [] && AllAccepted(cfg, ledger, cs) && Run(cfg, ledger, cs) <= later && Lawful(cfg, later)
    ensures Run(cfg, later, cs) == later
    ensures Completes(resumed, Outcomes(cfg, later, cs)) <==> resumed
  {
    hide Decide, Lawful, AllAccepted;
    BatchAgain(cfg, ledger, cs, later, cs);
    NothingAccepted(Outcomes(cfg, later, cs));
  }
}
