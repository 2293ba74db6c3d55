/** What a routing run guarantees: limits per candidate and per run, distinct files, and which
    outcomes cannot happen. */
module RouterSafety {
  import opened Wrappers
  import opened Ordering
  import opened TargetPaths
  import opened TaskQueue
  import opened QueueSafety
  import opened Planner
  import opened PlannerSafety
  import opened Events
  import opened Router
  import Text

  /******* The limits on one candidate *******/

  lemma {:induction false} CountVerifyAppend(s: seq<AuditTask>, t: seq<AuditTask>)
    ensures CountVerify(s + t) == CountVerify(s) + CountVerify(t)
    decreases |s|
  {
    if s == [] {
      assert s + t == t;
    } else {
      assert (s + t)[1..] == s[1..] + t;
      CountVerifyAppend(s[1..], t);
    }
  }

  ghost predicate AllIn(part: seq<AuditTask>, tasks: seq<AuditTask>) {
    forall t :: t in part ==> t in tasks
  }

  // Admission adds some of the candidate's tasks and stays within both limits.
  lemma {:induction false} AdmitWithinLimits(policy: RoutingPolicy, a: Admission,
      tasks: seq<AuditTask>) returns (kept: seq<AuditTask>)
    ensures var r := Admit(policy, a, tasks);
            && r.routed == a.routed + kept && AllIn(kept, tasks)
            && r.count == a.count + |kept| && r.count <= Max(a.count, policy.maxPerCandidate)
            && r.verify == a.verify + CountVerify(kept) && r.verify <= Max(a.verify, policy.maxVerify)
    decreases |tasks|
  {
    kept := [];
    if tasks == [] || a.count >= policy.maxPerCandidate {
    } else if tasks[0].taskType.VerifyClaim? && a.verify >= policy.maxVerify {
      kept := AdmitWithinLimits(policy, a.(results := a.results + [RouteResult(RunLimit, tasks[0])]), tasks[1..]);
    } else {
      var v := if tasks[0].taskType.VerifyClaim? then 1 else 0;
      var rest := AdmitWithinLimits(policy,
          Admission(a.results, a.routed + [tasks[0]], a.count + 1, a.verify + v), tasks[1..]);
      kept := [tasks[0]] + rest;
      assert a.routed + [tasks[0]] + rest == a.routed + kept;
    }
  }

  predicate Routable(t: AuditTask, auditId: string) {
    IsNew(t) && t.auditId == auditId
  }

  lemma {:induction false} ScannedTasks(run: Run, names: seq<string>, snapshot: string, m: Made)
    requires forall t :: t in m.tasks ==> Routable(t, run.auditId) && !t.taskType.VerifyClaim?
    ensures var r := ScanFiles(run, names, snapshot, m);
            r.Some? ==> forall t :: t in r.value.tasks ==> Routable(t, run.auditId) && !t.taskType.VerifyClaim?
    decreases |names|
  {
    hide MakeTarget, Skipped, Normal;
    if names != [] {
      if Skipped(run, names[0], m.files) {
        ScannedTasks(run, names[1..], snapshot, m);
      } else {
        var t := PathTask(run, ModuleScan, Normal(PathTarget, names[0]), snapshot);
        if t.Some? {
          ScannedTasks(run, names[1..], snapshot, Made(m.tasks + [t.value], m.files + {Normal(PathTarget, names[0])}));
        }
      }
    }
  }

  lemma {:induction false} NoVerifyCounted(tasks: seq<AuditTask>)
    requires forall t :: t in tasks ==> !t.taskType.VerifyClaim?
    ensures CountVerify(tasks) == 0
    decreases |tasks|
  {
    if tasks != [] {
      NoVerifyCounted(tasks[1..]);
    }
  }

  // A candidate asks for at most one verification.
  lemma MadeTasks(run: Run, d: CandidateData, snapshot: string, files: set<string>)
    ensures var m := MakeTasks(run, d, snapshot, files);
            m.Some? ==> (forall t :: t in m.value.tasks ==> Routable(t, run.auditId)) && CountVerify(m.value.tasks) <= 1
  {
    hide MakeTarget, ScanFiles, PrimaryFile, FirstFiles;
    if d.kind.CrossFile? {
      var names := FirstFiles(d.filePaths.GetOr([]), run.policy.maxScans);
      ScannedTasks(run, names, snapshot, Made([], files));
      var m := ScanFiles(run, names, snapshot, Made([], files));
      if m.Some? {
        NoVerifyCounted(m.value.tasks);
      }
    } else {
      var m := MakeTasks(run, d, snapshot, files);
      if m.Some? && m.value.tasks != [] {
        assert m.value.tasks[1..] == [];
      }
    }
  }

  /******* The invariant of a run *******/

  // This task is one of those made for this candidate.
  ghost predicate ComesFrom(run: Run, c: Payload, t: AuditTask) {
    && c.auditId == Some(run.auditId) && c.status == "proposed" && c.body.CandidateBody?
    && var d := c.body.candidate;
       CandidateSnapshot(run, d).Some? && exists files :: MadeWith(run, d, files, t)
  }

  predicate MadeWith(run: Run, d: CandidateData, files: set<string>, t: AuditTask)
    requires CandidateSnapshot(run, d).Some?
  {
    var m := MakeTasks(run, d, CandidateSnapshot(run, d).value, files);
    m.Some? && t in m.value.tasks
  }

  // Whose each routed task is.
  ghost predicate Owned(run: Run, candidates: map<string, Payload>, routed: seq<AuditTask>, owners: seq<string>) {
    && |owners| == |routed|
    && forall i :: 0 <= i < |owners| ==> owners[i] in candidates && ComesFrom(run, candidates[owners[i]], routed[i])
  }

  ghost predicate CountsOwners(counts: map<string, nat>, owners: seq<string>) {
    forall id :: multiset(owners)[id] == Of(counts, id)
  }

  ghost predicate Limited(run: Run, start: nat, p: Progress) {
    && (forall id :: id in p.counts ==> p.counts[id] <= Max(0, run.policy.maxPerCandidate))
    && p.verify == start + CountVerify(p.routed) && p.verify <= Max(start, run.policy.maxVerify)
    && (forall t :: t in p.routed ==> Routable(t, run.auditId))
  }

  function Repeat(id: string, n: nat): (s: seq<string>)
    ensures |s| == n
  {
    if n == 0 then [] else Repeat(id, n - 1) + [id]
  }

  lemma RouteOneLimited(run: Run, start: nat, p: Progress, candidates: map<string, Payload>, id: string,
      owners: seq<string>)
    returns (after: seq<string>)
    requires id in candidates && id !in p.counts
    requires Limited(run, start, p) && Owned(run, candidates, p.routed, owners) && CountsOwners(p.counts, owners)
    ensures var r := RouteOne(run, p, id, candidates[id]);
            r.Some? ==> Limited(run, start, r.value) && Owned(run, candidates, r.value.routed, after)
                        && CountsOwners(r.value.counts, after) && r.value.counts.Keys <= p.counts.Keys + {id}
  {
    hide Turned, Placeholder, MakeTasks, Admit, CandidateSnapshot, Routable, Repeat, CountVerify, AllIn, Owned,
        CountsOwners;
    after := owners;
    var c := candidates[id];
    if c.auditId == Some(run.auditId) && c.body.CandidateBody? && Turned(run, p, c, c.body.candidate).None? {
      var d := c.body.candidate;
      TurnedWithoutSnapshot(run, p, c, d);
      var snapshot := CandidateSnapshot(run, d).value;
      MadeTasks(run, d, snapshot, p.files);
      var m := MakeTasks(run, d, snapshot, p.files);
      if m.Some? {
        var kept := AdmitWithinLimits(run.policy, Admission(p.results, p.routed, 0, p.verify), m.value.tasks);
        CountVerifyAppend(p.routed, kept);
        after := owners + Repeat(id, |kept|);
        OwnersGrow(p.counts, owners, id, |kept|);
        KeptAreRoutable(run.auditId, p.routed, kept, m.value.tasks);
        KeptComeFrom(run, c, p, kept, m.value.tasks);
        KeptAreOwned(run, candidates, p.routed, owners, id, kept);
      }
    }
  }

  lemma KeptComeFrom(run: Run, c: Payload, p: Progress, kept: seq<AuditTask>, tasks: seq<AuditTask>)
    requires AllIn(kept, tasks) && c.auditId == Some(run.auditId) && c.body.CandidateBody?
    requires Turned(run, p, c, c.body.candidate).None? && CandidateSnapshot(run, c.body.candidate).Some?
    requires var m := MakeTasks(run, c.body.candidate, CandidateSnapshot(run, c.body.candidate).value, p.files);
             m.Some? && m.value.tasks == tasks
    ensures forall t :: t in kept ==> ComesFrom(run, c, t)
  {
    hide MakeTasks, CandidateSnapshot, PrimaryFile, TypeEnabled, Confidence;
    forall t | t in kept ensures ComesFrom(run, c, t) {
      assert MadeWith(run, c.body.candidate, p.files, t);
    }
  }

  lemma KeptAreOwned(run: Run, candidates: map<string, Payload>, routed: seq<AuditTask>, owners: seq<string>,
      id: string, kept: seq<AuditTask>)
    requires Owned(run, candidates, routed, owners) && id in candidates
    requires forall t :: t in kept ==> ComesFrom(run, candidates[id], t)
    ensures Owned(run, candidates, routed + kept, owners + Repeat(id, |kept|))
  {
    hide ComesFrom, Repeat;
    RepeatIs(id, |kept|);
  }

  lemma {:induction false} RepeatIs(id: string, n: nat)
    ensures forall i :: 0 <= i < n ==> Repeat(id, n)[i] == id
    decreases n
  {
    if n > 0 {
      RepeatIs(id, n - 1);
    }
  }

  lemma KeptAreRoutable(auditId: string, routed: seq<AuditTask>, kept: seq<AuditTask>, tasks: seq<AuditTask>)
    requires AllIn(kept, tasks) && forall t :: t in tasks ==> Routable(t, auditId)
    requires forall t :: t in routed ==> Routable(t, auditId)
    ensures forall t :: t in routed + kept ==> Routable(t, auditId)
  {
    hide Routable;
  }

  lemma OwnersGrow(counts: map<string, nat>, owners: seq<string>, id: string, n: nat)
    requires CountsOwners(counts, owners) && id !in counts
    ensures CountsOwners(counts[id := n], owners + Repeat(id, n))
  {
    SameOwner(id, n);
    assert multiset(owners + Repeat(id, n)) == multiset(owners) + multiset(Repeat(id, n));
  }

  lemma {:induction false} SameOwner(id: string, n: nat)
    ensures forall x :: multiset(Repeat(id, n))[x] == if x == id then n else 0
    decreases n
  {
    if n > 0 {
      SameOwner(id, n - 1);
    }
  }

  lemma {:induction false} RouteAllLimited(
      run: Run, start: nat, p: Progress, candidates: map<string, Payload>, ids: seq<string>, owners: seq<string>)
    returns (after: seq<string>)
    requires forall id :: id in ids ==> id in candidates && id !in p.counts
    requires StrictlySorted(ids)
    requires Limited(run, start, p) && Owned(run, candidates, p.routed, owners) && CountsOwners(p.counts, owners)
    ensures var r := RouteAll(run, p, candidates, ids);
            r.Some? ==> Limited(run, start, r.value) && Owned(run, candidates, r.value.routed, after)
                        && CountsOwners(r.value.counts, after)
    decreases |ids|
  {
    hide RouteOne, Limited, Owned, CountsOwners;
    after := owners;
    if ids != [] {
      var next := RouteOne(run, p, ids[0], candidates[ids[0]]);
      after := RouteOneLimited(run, start, p, candidates, ids[0], owners);
      if next.Some? {
        assert forall i :: 0 < i < |ids| ==> ids[i] != ids[0];
        after := RouteAllLimited(run, start, next.value, candidates, ids[1..], after);
      }
    }
  }

  // Every routed task was made for its owner, no candidate owns more than its limit, and the verify
  // tasks, with those already pending, stay below the larger of where they started and the limit of
  // the run.
  lemma RoutingStaysWithinLimits(run: Run, q: Queue, candidates: map<string, Payload>) returns (owners: seq<string>)
    requires Route(run, q, candidates).Some?
    ensures var p := Route(run, q, candidates).value;
            && Owned(run, candidates, p.routed, owners)
            && (forall id :: multiset(owners)[id] <= Max(0, run.policy.maxPerCandidate))
            && StartVerify(q, run.auditId) + CountVerify(p.routed)
                <= Max(StartVerify(q, run.auditId), run.policy.maxVerify)
            && (forall t :: t in p.routed ==> Routable(t, run.auditId))
  {
    hide RouteAll, StartVerify, Routable, ComesFrom;
    var n := StartVerify(q, run.auditId);
    owners := RouteAllLimited(run, n, Progress([], [], map[], {}, n, 0), candidates, Order(candidates.Keys), []);
  }

  /******* In the queue *******/

  ghost function PendingVerify(file: Queue, auditId: string): set<string> {
    set id | id in file && file[id].auditId == auditId && file[id].taskType.VerifyClaim? && file[id].status.Pending?
  }

  lemma {:induction false} OfferAllAddsAtMost(b: Batch, tasks: seq<AuditTask>, auditId: string)
    requires OfferAll(b, tasks).Success?
    ensures |PendingVerify(OfferAll(b, tasks).value.stored, auditId)|
            <= |PendingVerify(b.stored, auditId)| + CountVerify(tasks)
    decreases |tasks|
  {
    hide KeyOf;
    if tasks != [] {
      var next := Offer(b, tasks[0]).value;
      OfferAllAddsAtMost(next, tasks[1..], auditId);
      if tasks[0].id !in b.stored {
        StoringAddsAtMost(b.stored, tasks[0], auditId);
      }
    }
  }

  lemma StoringAddsAtMost(file: Queue, t: AuditTask, auditId: string)
    requires t.id !in file
    ensures |PendingVerify(file[t.id := t], auditId)|
            <= |PendingVerify(file, auditId)| + (if t.taskType.VerifyClaim? then 1 else 0)
  {
    var before, after := PendingVerify(file, auditId), PendingVerify(file[t.id := t], auditId);
    assert t.id !in before;
    assert after == before || after == before + {t.id};
    assert t.id in after ==> t.taskType.VerifyClaim?;
  }

  lemma {:induction false} InsertCounts(t: AuditTask, s: seq<AuditTask>)
    ensures CountVerify(Insert(t, s, ByKey())) == CountVerify([t]) + CountVerify(s)
    decreases |s|
  {
    hide TaskKey;
    assert ([t] + s)[1..] == s;
    if s != [] && !Leq(TaskKey(t), TaskKey(s[0])) {
      InsertCounts(t, s[1..]);
      assert ([s[0]] + Insert(t, s[1..], ByKey()))[1..] == Insert(t, s[1..], ByKey());
    }
  }

  lemma {:induction false} SortCounts(s: seq<AuditTask>)
    ensures CountVerify(SortBy(s, ByKey())) == CountVerify(s)
    decreases |s|
  {
    if s != [] {
      SortCounts(s[1..]);
      InsertCounts(s[0], SortBy(s[1..], ByKey()));
    }
  }

  lemma {:induction false} CollectCounts(q: Queue, auditId: string, ids: seq<string>)
    requires StrictlySorted(ids)
    ensures CountVerify(Collect(ids, Selected(q, Filter(Some(auditId), None, Some(Pending)))))
            == |set id | id in ids && id in PendingVerify(q, auditId)|
    decreases |ids|
  {
    var f := Selected(q, Filter(Some(auditId), None, Some(Pending)));
    if ids != [] {
      CollectCounts(q, auditId, ids[1..]);
      CountVerifyAppend(Kept(f(ids[0])), Collect(ids[1..], f));
      assert forall i :: 0 < i < |ids| ==> ids[i] != ids[0];
      OneMoreId(ids[0], ids[1..], PendingVerify(q, auditId));
      assert ids == [ids[0]] + ids[1..];
    }
  }

  lemma OneMoreId(x: string, rest: seq<string>, s: set<string>)
    requires x !in rest
    ensures |set id | id in [x] + rest && id in s| == |set id | id in rest && id in s| + (if x in s then 1 else 0)
  {
    var before := set id | id in rest && id in s;
    assert (set id | id in [x] + rest && id in s) == if x in s then before + {x} else before;
  }

  lemma StartVerifyIsTrue(q: Queue, auditId: string)
    ensures StartVerify(q, auditId) == |PendingVerify(q, auditId)|
  {
    hide SortBy, Collect, CountVerify;
    var ids := Order(q.Keys);
    var f := Filter(Some(auditId), None, Some(Pending));
    SortCounts(Collect(ids, Selected(q, f)));
    CollectCounts(q, auditId, ids);
    assert (set id | id in ids && id in PendingVerify(q, auditId)) == PendingVerify(q, auditId);
  }

  lemma LoadKeepsPending(file: Queue, auditId: string)
    requires Load(file).Some?
    ensures PendingVerify(Load(file).value, auditId) == PendingVerify(file, auditId)
  {
    hide Load, Stable;
    LoadedKeys(file);
    forall id | id in file ensures id in PendingVerify(Load(file).value, auditId)
        <==> id in PendingVerify(file, auditId) {
      Reloaded(file, id);
    }
  }

  // The pending verify tasks that are really in the queue after a run, for every queue file.
  lemma PendingVerifyStaysBounded(run: Run, file: Queue, candidates: map<string, Payload>)
    ensures |PendingVerify(AfterRouting(run, file, candidates), run.auditId)|
            <= Max(|PendingVerify(file, run.auditId)|, run.policy.maxVerify)
  {
    hide Load, Route, OfferAll, SortBy, PendingVerify, StartVerify, ByKey;
    if Load(file).Some? {
      var q := Load(file).value;
      LoadKeepsPending(file, run.auditId);
      var p := Route(run, q, candidates);
      if p.Some? && EnqueueBatch(file, p.value.routed).Success? {
        var owners := RoutingStaysWithinLimits(run, q, candidates);
        StartVerifyIsTrue(q, run.auditId);
        SortCounts(p.value.routed);
        OfferAllAddsAtMost(Batch(q, []), SortBy(p.value.routed, ByKey()), run.auditId);
      }
    }
  }

  /******* Outcomes that cannot happen *******/

  // A candidate that a guardrail turns away is reported with a placeholder that itself needs the
  // audit's snapshot, so without one the run ends with an error instead, whatever the guardrail was.
  lemma TurnedAwayRaisesIff(run: Run, p: Progress, id: string, c: Payload)
    requires c.auditId == Some(run.auditId) && c.body.CandidateBody?
    requires Turned(run, p, c, c.body.candidate).Some?
    ensures RouteOne(run, p, id, c).None? <==> Text.Strip(run.snapshot.GetOr("")) == "" || Text.Strip(id) == ""
  {
    hide Turned, Normal, Text.Strip;
    Text.StripTrims(id);
    Text.StripTrims(Text.Strip(id));
    assert Normal(CandidateTarget, id) == Text.Strip(id) by {
      CandidateIdsAreStripped(id);
    }
  }

  lemma CandidateIdsAreStripped(id: string)
    ensures Normal(CandidateTarget, id) == Text.Strip(id)
  {
    hide Text.Strip, Clean, Undotted, Untailed;
  }

  // So no run ever reports that a candidate had no snapshot.
  lemma MissingSnapshotRaises(run: Run, p: Progress, id: string, c: Payload)
    requires c.auditId == Some(run.auditId) && c.body.CandidateBody?
    requires Turned(run, p, c, c.body.candidate) == Some(NoSnapshotRef)
    ensures RouteOne(run, p, id, c).None?
  {
    hide PrimaryFile, TypeEnabled, EvidenceSnapshot, Normal, RouteOne;
    assert run.snapshot.GetOr("") == "";
    assert Text.Strip("") == "";
    TurnedAwayRaisesIff(run, p, id, c);
  }

  lemma {:induction false} AdmitResults(policy: RoutingPolicy, a: Admission, tasks: seq<AuditTask>)
    requires CountVerify(tasks) <= 1 && (CountVerify(tasks) == 1 ==> a.verify < policy.maxVerify)
    ensures forall r :: r in Admit(policy, a, tasks).results && r !in a.results ==> r.outcome.BudgetSpent?
    decreases |tasks|
  {
    if tasks == [] || a.count >= policy.maxPerCandidate {
    } else {
      AdmitResults(policy, Admission(a.results, a.routed + [tasks[0]], a.count + 1,
                                     a.verify + if tasks[0].taskType.VerifyClaim? then 1 else 0), tasks[1..]);
    }
  }

  // Once tasks were made for a candidate, the inner check of the run limit never fires.
  lemma RunLimitIsCheckedOnce(run: Run, p: Progress, id: string, c: Payload)
    requires c.auditId == Some(run.auditId) && c.body.CandidateBody? && Turned(run, p, c, c.body.candidate).None?
    ensures var r := RouteOne(run, p, id, c);
            r.Some? ==> forall x :: x in r.value.results && x !in p.results ==> x.outcome.BudgetSpent?
  {
    hide MakeTasks, Admit, CandidateSnapshot, PrimaryFile, TypeEnabled, Confidence;
    var d := c.body.candidate;
    TurnedWithoutSnapshot(run, p, c, d);
    var snapshot := CandidateSnapshot(run, d).value;
    MadeTasks(run, d, snapshot, p.files);
    var m := MakeTasks(run, d, snapshot, p.files);
    if m.Some? {
      AdmitResults(run.policy, Admission(p.results, p.routed, 0, p.verify), m.value.tasks);
    }
  }

  /******* Nothing is dropped without a reason *******/

  function Min(x: int, y: int): int {
    if x < y then x else y
  }

  // Of the tasks made for one candidate exactly the first ones are routed, up to the limit.
  lemma {:induction false} AdmitTakesTheFirst(policy: RoutingPolicy, a: Admission, tasks: seq<AuditTask>)
    requires CountVerify(tasks) <= 1 && (CountVerify(tasks) == 1 ==> a.verify < policy.maxVerify)
    ensures Admit(policy, a, tasks).routed == a.routed + tasks[..Min(|tasks|, Max(0, policy.maxPerCandidate - a.count))]
    decreases |tasks|
  {
    if tasks == [] || a.count >= policy.maxPerCandidate {
      assert tasks[..0] == [] && a.routed + [] == a.routed;
    } else {
      var v := if tasks[0].taskType.VerifyClaim? then 1 else 0;
      AdmitTakesTheFirst(policy, Admission(a.results, a.routed + [tasks[0]], a.count + 1, a.verify + v), tasks[1..]);
      var n := Min(|tasks|, Max(0, policy.maxPerCandidate - a.count));
      assert [tasks[0]] + tasks[1..][..n - 1] == tasks[..n];
      assert a.routed + [tasks[0]] + tasks[1..][..n - 1] == a.routed + ([tasks[0]] + tasks[1..][..n - 1]);
    }
  }

  // A candidate that passes the guardrails has its tasks routed, all of them up to the limit.
  lemma RoutedUpToTheLimit(run: Run, p: Progress, id: string, c: Payload)
    requires c.auditId == Some(run.auditId) && c.body.CandidateBody? && Turned(run, p, c, c.body.candidate).None?
    requires RouteOne(run, p, id, c).Some?
    ensures CandidateSnapshot(run, c.body.candidate).Some?
    ensures var m := MakeTasks(run, c.body.candidate, CandidateSnapshot(run, c.body.candidate).value, p.files);
            m.Some? && RouteOne(run, p, id, c).value.routed
                       == p.routed + m.value.tasks[..Min(|m.value.tasks|, Max(0, run.policy.maxPerCandidate))]
  {
    hide MakeTasks, Admit, CandidateSnapshot, PrimaryFile, TypeEnabled, Confidence;
    var d := c.body.candidate;
    TurnedWithoutSnapshot(run, p, c, d);
    var snapshot := CandidateSnapshot(run, d).value;
    MadeTasks(run, d, snapshot, p.files);
    AdmitTakesTheFirst(run.policy, Admission(p.results, p.routed, 0, p.verify),
        MakeTasks(run, d, snapshot, p.files).value.tasks);
  }
}
