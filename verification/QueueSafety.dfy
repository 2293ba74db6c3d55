/** What every run of the task queue keeps: identities, terminal tasks, attempt counts, errors, one
    running task per audit, and the choice of the least pending task. */
module QueueSafety {
  import opened Wrappers
  import opened Ordering
  import opened TaskQueue
  import Text

  /******* Runs *******/

  datatype Step =
    | Enqueue(tasks: seq<AuditTask>)
    | Move(id: string, to: TaskStatus, error: Option<string>, now: string)
    | Claim(audit: Option<string>, taskType: Option<TaskType>, now: string)
    | Select(auditId: string, now: string)

  ghost function Next(file: Queue, step: Step): Queue {
    match step
    case Enqueue(tasks) => AfterEnqueue(file, tasks)
    case Move(id, to, error, now) => AfterTransition(file, id, to, error, now)
    case Claim(audit, taskType, now) => AfterClaim(file, audit, taskType, now)
    case Select(auditId, now) => AfterSelect(file, auditId, now)
  }

  ghost function After(start: Queue, steps: seq<Step>): Queue {
    if steps == [] then start else Next(After(start, steps[..|steps| - 1]), steps[|steps| - 1])
  }

  // Tasks come into the queue as their constructor makes them.
  predicate IsNew(t: AuditTask) {
    t.status.Pending? && t.attempts == 0 && t.lastError.None?
  }

  predicate Proper(step: Step) {
    step.Enqueue? ==> forall t :: t in step.tasks ==> IsNew(t)
  }

  ghost predicate AllProper(steps: seq<Step>) {
    forall step :: step in steps ==> Proper(step)
  }

  /******* One step *******/

  ghost predicate SameIdentity(t: AuditTask, u: AuditTask) {
    && u.id == t.id && u.auditId == t.auditId && u.taskType == t.taskType && u.createdAt == t.createdAt
    && (Stable(t.target) ==> u.target == t.target)
  }

  ghost predicate SameProgress(t: AuditTask, u: AuditTask) {
    u.status == t.status && u.attempts == t.attempts && u.lastError == t.lastError
  }

  ghost predicate MovedOn(t: AuditTask, u: AuditTask) {
    && u.status in Allowed(t.status)
    && u.attempts == t.attempts + (if u.status.Running? then 1 else 0)
    && (u.status.Failed? ==> u.lastError.Some? && u.lastError.value != "" && Text.Trimmed(u.lastError.value))
    && (u.status.Running? || u.status.Done? ==> u.lastError.None?)
    && (u.status.Pending? ==> u.lastError == t.lastError)
  }

  ghost predicate Evolves(t: AuditTask, u: AuditTask) {
    SameIdentity(t, u) && (SameProgress(t, u) || MovedOn(t, u))
  }

  ghost predicate Keyed(file: Queue) {
    forall id :: id in file ==> file[id].id == id
  }

  // What a step may do to one entry.
  ghost predicate StepAt(file: Queue, after: Queue, id: string) {
    && (id in file ==> id in after && Evolves(file[id], after[id]))
    && (id !in file && id in after ==> IsNew(after[id]) && after[id].id == id)
  }

  lemma Reloaded(file: Queue, id: string)
    requires Load(file).Some? && id in file
    ensures id in Load(file).value && SameIdentity(file[id], Load(file).value[id])
    ensures SameProgress(file[id], Load(file).value[id])
  {
    hide Load, MakeTarget;
    LoadFacts(file);
  }

  lemma MovedEvolves(q: Queue, id: string, to: TaskStatus, error: Option<string>, now: string)
    requires MovedIn(q, id, to, error, now).Success?
    ensures var u := MovedIn(q, id, to, error, now).value;
            id in q && u.status == to && MovedOn(q[id], u) && SameIdentity(q[id], u)
  {
    hide Text.Strip, Stable;
    Text.StripTrims(error.GetOr(""));
  }

  lemma IdentityJoins(t: AuditTask, u: AuditTask, v: AuditTask)
    requires SameIdentity(t, u) && SameIdentity(u, v)
    ensures SameIdentity(t, v)
    ensures SameProgress(t, u) && MovedOn(u, v) ==> MovedOn(t, v)
  {
    hide Stable;
  }

  lemma SelfEvolves(file: Queue, x: string)
    ensures x in file ==> SameIdentity(file[x], file[x]) && SameProgress(file[x], file[x])
  {
  }

  ghost predicate Untouched(file: Queue, after: Queue, x: string) {
    (x in file <==> x in after) && (x in file ==> SameIdentity(file[x], after[x]) && SameProgress(file[x], after[x]))
  }

  lemma UntouchedByLoad(file: Queue, x: string)
    ensures Untouched(file, file, x)
    ensures Load(file).Some? ==> Untouched(file, Load(file).value, x)
  {
    hide Load, Stable, SameIdentity, SameProgress;
    SelfEvolves(file, x);
    LoadedKeys(file);
    if Load(file).Some? && x in file {
      Reloaded(file, x);
    }
  }

  ghost predicate MovedTo(file: Queue, after: Queue, x: string, to: TaskStatus) {
    && x in file && x in after && SameIdentity(file[x], after[x]) && after[x].status == to && MovedOn(file[x], after[x])
  }

  lemma MoveJoins(file: Queue, q: Queue, x: string, u: AuditTask)
    requires x in file && Untouched(file, q, x) && SameIdentity(q[x], u) && MovedOn(q[x], u)
    ensures MovedTo(file, q[x := u], x, u.status)
  {
    hide SameIdentity, SameProgress, MovedOn;
    IdentityJoins(file[x], q[x], u);
  }

  lemma LoadedKeys(file: Queue)
    ensures Load(file).Some? ==> Load(file).value.Keys == file.Keys
  {
    hide Load;
    LoadFacts(file);
  }

  lemma OthersUntouched(file: Queue, q: Queue, id: string, u: AuditTask, x: string)
    requires Untouched(file, q, x) && x != id
    ensures Untouched(file, q[id := u], x)
  {
    hide SameIdentity, SameProgress;
  }

  // A transition touches the named task alone.
  lemma TransitionAt(file: Queue, id: string, to: TaskStatus, error: Option<string>, now: string, x: string)
    ensures var g := AfterTransition(file, id, to, error, now);
            Untouched(file, g, x) || (x == id && MovedTo(file, g, x, to))
  {
    hide Load, MovedIn, SameIdentity, SameProgress, MovedOn, MovedTo, Untouched, Allowed, Moved;
    UntouchedByLoad(file, x);
    if Load(file).Some? && MovedIn(Load(file).value, id, to, error, now).Success? {
      var q := Load(file).value;
      var u := MovedIn(q, id, to, error, now).value;
      LoadedKeys(file);
      MovedEvolves(q, id, to, error, now);
      if x == id {
        MoveJoins(file, q, x, u);
      } else {
        OthersUntouched(file, q, id, u, x);
      }
    }
  }

  lemma ClaimAt(file: Queue, audit: Option<string>, taskType: Option<TaskType>, now: string, x: string)
    ensures var g := AfterClaim(file, audit, taskType, now);
            (x in g <==> x in file) && (x in file ==> Evolves(file[x], g[x]))
  {
    hide Load, Listing, AfterTransition, SameIdentity, MovedOn, SameProgress;
    SelfEvolves(file, x);
    if Load(file).Some? {
      var pending := Listing(Load(file).value, Filter(audit, taskType, Some(Pending)));
      if pending != [] {
        TransitionAt(file, pending[0].id, Running, None, now, x);
      }
    }
  }

  lemma SelectAt(file: Queue, auditId: string, now: string, x: string)
    ensures var g := AfterSelect(file, auditId, now);
            (x in g <==> x in file) && (x in file ==> Evolves(file[x], g[x]))
  {
    hide Load, Listing, AfterClaim, SameIdentity, SameProgress, MovedOn;
    SelfEvolves(file, x);
    ClaimAt(file, Some(auditId), None, now, x);
  }

  lemma {:induction false} OfferAllAt(b: Batch, tasks: seq<AuditTask>, x: string)
    requires OfferAll(b, tasks).Success? && forall t :: t in tasks ==> IsNew(t)
    ensures var g := OfferAll(b, tasks).value.stored;
            && (x in b.stored ==> x in g && g[x] == b.stored[x])
            && (x !in b.stored && x in g ==> IsNew(g[x]) && g[x].id == x)
    decreases |tasks|
  {
    hide KeyOf;
    if tasks != [] {
      OfferAllAt(Offer(b, tasks[0]).value, tasks[1..], x);
    }
  }

  lemma EnqueueAt(file: Queue, tasks: seq<AuditTask>, x: string)
    requires forall t :: t in tasks ==> IsNew(t)
    ensures var g := AfterEnqueue(file, tasks);
            Untouched(file, g, x) || (x !in file && x in g && IsNew(g[x]) && g[x].id == x)
  {
    hide Load, OfferAll, SortBy, SameIdentity, SameProgress, MovedOn, IsNew;
    SelfEvolves(file, x);
    LoadFacts(file);
    if EnqueueBatch(file, tasks).Success? {
      forall t | t in SortBy(tasks, ByKey()) ensures IsNew(t) {
        SortMembers(tasks, ByKey(), t);
      }
      OfferAllAt(Batch(Load(file).value, []), SortBy(tasks, ByKey()), x);
      if x in file {
        Reloaded(file, x);
      }
    }
  }

  lemma NextAt(file: Queue, step: Step, x: string)
    requires Proper(step)
    ensures StepAt(file, Next(file, step), x)
  {
    hide AfterEnqueue, AfterTransition, AfterClaim, AfterSelect, SameIdentity, SameProgress, MovedOn, IsNew;
    match step
    case Enqueue(tasks) => EnqueueAt(file, tasks, x);
    case Move(id, to, error, now) => TransitionAt(file, id, to, error, now, x);
    case Claim(audit, taskType, now) => ClaimAt(file, audit, taskType, now, x);
    case Select(auditId, now) => SelectAt(file, auditId, now, x);
  }

  /******* Identities and terminal tasks *******/

  // No run loses a task or changes what it is, and nothing touches a task that is done.
  lemma {:induction false} TasksKeepIdentity(start: Queue, steps: seq<Step>, id: string)
    requires AllProper(steps) && id in start
    ensures id in After(start, steps) && SameIdentity(start[id], After(start, steps)[id])
    ensures start[id].status.Done? ==> SameProgress(start[id], After(start, steps)[id])
    decreases |steps|
  {
    hide Next, SameIdentity, Proper;
    if steps == [] {
      SelfEvolves(start, id);
    } else {
      var n := |steps| - 1;
      var before := After(start, steps[..n]);
      TasksKeepIdentity(start, steps[..n], id);
      NextAt(before, steps[n], id);
      IdentityJoins(start[id], before[id], Next(before, steps[n])[id]);
    }
  }

  /******* Attempts and errors *******/

  ghost predicate Enters(f: Queue, g: Queue, id: string) {
    id in f && id in g && !f[id].status.Running? && g[id].status.Running?
  }

  ghost predicate Retried(f: Queue, g: Queue, id: string) {
    id in f && id in g && f[id].status.Failed? && g[id].status.Pending?
  }

  // How often a task started to run.
  ghost function Entries(start: Queue, steps: seq<Step>, id: string): nat {
    if steps == [] then 0
    else
      var n := |steps| - 1;
      Entries(start, steps[..n], id) + if Enters(After(start, steps[..n]), After(start, steps), id) then 1 else 0
  }

  ghost function Retries(start: Queue, steps: seq<Step>, id: string): nat {
    if steps == [] then 0
    else
      var n := |steps| - 1;
      Retries(start, steps[..n], id) + if Retried(After(start, steps[..n]), After(start, steps), id) then 1 else 0
  }

  ghost predicate ErrorMatches(t: AuditTask) {
    && (t.status.Failed? ==> t.lastError.Some? && t.lastError.value != "" && Text.Trimmed(t.lastError.value))
    && (t.status.Running? || t.status.Done? ==> t.lastError.None?)
  }

  ghost predicate Counted(t: AuditTask, entries: nat, retries: nat) {
    && t.attempts == entries
    && t.attempts <= retries + (if t.status.Pending? then 0 else 1)
    && (t.status.Running? || t.status.Done? ==> t.attempts >= 1)
    && ErrorMatches(t)
  }

  lemma CountStep(t: AuditTask, u: AuditTask, entries: nat, retries: nat)
    requires Evolves(t, u) && Counted(t, entries, retries)
    ensures Counted(u, entries + (if !t.status.Running? && u.status.Running? then 1 else 0),
                    retries + (if t.status.Failed? && u.status.Pending? then 1 else 0))
  {
    hide SameIdentity;
  }

  ghost predicate Tracked(q: Queue, id: string, entries: nat, retries: nat) {
    if id in q then q[id].id == id && Counted(q[id], entries, retries) else entries == 0 && retries == 0
  }

  lemma TrackStep(before: Queue, step: Step, id: string, entries: nat, retries: nat)
    requires Proper(step) && Tracked(before, id, entries, retries)
    ensures var after := Next(before, step);
            Tracked(after, id, entries + (if Enters(before, after, id) then 1 else 0),
                    retries + (if Retried(before, after, id) then 1 else 0))
  {
    hide Next, SameProgress, MovedOn, Counted, Proper, IsNew, Stable;
    NextAt(before, step, id);
    if id in before {
      CountStep(before[id], Next(before, step)[id], entries, retries);
    } else if id in Next(before, step) {
      NewIsCounted(Next(before, step)[id]);
    }
  }

  lemma NewIsCounted(t: AuditTask)
    requires IsNew(t)
    ensures Counted(t, 0, 0)
  {
  }

  // Attempts are the entries into `running`, at most one more than the retries; a failed task has a
  // non-blank error, a running or done task has none.
  lemma {:induction false} AttemptsAreEntries(steps: seq<Step>, id: string)
    requires AllProper(steps)
    ensures Tracked(After(map[], steps), id, Entries(map[], steps, id), Retries(map[], steps, id))
    decreases |steps|
  {
    hide Next, Tracked, Proper, Enters, Retried;
    if steps == [] {
      NothingTracked(id);
    } else {
      var n := |steps| - 1;
      AttemptsAreEntries(steps[..n], id);
      TrackStep(After(map[], steps[..n]), steps[n], id, Entries(map[], steps[..n], id), Retries(map[], steps[..n], id));
    }
  }

  lemma NothingTracked(id: string)
    ensures Tracked(map[], id, 0, 0)
  {
  }

  /******* One running task per audit *******/

  predicate SelectOnly(step: Step) {
    !step.Claim? && !(step.Move? && step.to.Running?)
  }

  ghost predicate RunningIn(file: Queue, auditId: string, id: string) {
    id in file && file[id].status.Running? && file[id].auditId == auditId
  }

  ghost predicate OneRunning(file: Queue, auditId: string) {
    forall x, y :: RunningIn(file, auditId, x) && RunningIn(file, auditId, y) ==> x == y
  }

  // Nothing starts to run in the audit, or one task does and nothing ran before.
  ghost predicate StartsAtMostOne(file: Queue, after: Queue, auditId: string) {
    || (forall x :: RunningIn(after, auditId, x) ==> RunningIn(file, auditId, x))
    || ((forall x :: !RunningIn(file, auditId, x)) && OneRunning(after, auditId))
  }

  lemma MoveStartsNothing(file: Queue, id: string, to: TaskStatus, error: Option<string>, now: string, auditId: string)
    requires !to.Running?
    ensures StartsAtMostOne(file, AfterTransition(file, id, to, error, now), auditId)
  {
    hide AfterTransition, MovedOn, Stable;
    var g := AfterTransition(file, id, to, error, now);
    forall x | RunningIn(g, auditId, x) ensures RunningIn(file, auditId, x) {
      TransitionAt(file, id, to, error, now, x);
    }
  }

  lemma EnqueueStartsNothing(file: Queue, tasks: seq<AuditTask>, auditId: string)
    requires forall t :: t in tasks ==> IsNew(t)
    ensures StartsAtMostOne(file, AfterEnqueue(file, tasks), auditId)
  {
    hide AfterEnqueue, OneRunning, MovedOn, Stable;
    var g := AfterEnqueue(file, tasks);
    forall x | RunningIn(g, auditId, x) ensures RunningIn(file, auditId, x) {
      EnqueueAt(file, tasks, x);
    }
  }

  lemma FoundInListing(q: Queue, f: Filter, id: string)
    requires id in q && f.Passes(q[id])
    ensures q[id] in Listing(q, f)
  {
    hide Listing, Filter.Passes;
    ListingFacts(q, f);
  }

  lemma NobodyRuns(file: Queue, auditId: string)
    requires Load(file).Some? && Listing(Load(file).value, Filter(Some(auditId), None, Some(Running))) == []
    ensures forall x :: !RunningIn(file, auditId, x)
  {
    hide Load, Listing, Stable;
    forall x | RunningIn(file, auditId, x) ensures false {
      Reloaded(file, x);
      FoundInListing(Load(file).value, Filter(Some(auditId), None, Some(Running)), x);
    }
  }

  lemma FirstListed(q: Queue, f: Filter)
    requires Keyed(q) && Listing(q, f) != []
    ensures var t := Listing(q, f)[0];
            t.id in q && q[t.id] == t && f.Passes(t)
    ensures forall id :: id in q && f.Passes(q[id]) ==> Leq(TaskKey(Listing(q, f)[0]), TaskKey(q[id]))
  {
    hide Listing, Filter.Passes, TaskKey;
    ListingFacts(q, f);
    var t := Listing(q, f)[0];
    assert t in Listing(q, f);
    forall id | id in q && f.Passes(q[id]) ensures Leq(TaskKey(t), TaskKey(q[id])) {
      FoundInListing(q, f, id);
    }
  }

  lemma LoadKeepsKeys(file: Queue)
    requires Load(file).Some?
    ensures Keyed(Load(file).value)
  {
    hide Load, Stable;
    LoadFacts(file);
    forall id | id in Load(file).value ensures Load(file).value[id].id == id {
      Reloaded(file, id);
    }
  }

  lemma SelectStartsAtMostOne(file: Queue, chosen: string, now: string, auditId: string)
    ensures StartsAtMostOne(file, AfterSelect(file, chosen, now), auditId)
  {
    hide Load, Listing, AfterTransition, Stable, MovedOn, OneRunning, Keyed;
    if Load(file).Some? {
      var q := Load(file).value;
      var f := Filter(Some(chosen), None, Some(Pending));
      if Listing(q, Filter(Some(chosen), None, Some(Running))) == [] && Listing(q, f) != [] {
        NobodyRuns(file, chosen);
        LoadKeepsKeys(file);
        LoadFacts(file);
        FirstListed(q, f);
        var id := Listing(q, f)[0].id;
        Reloaded(file, id);
        OneStarts(file, chosen, id, now, auditId);
      }
    }
  }

  lemma OneStarts(file: Queue, chosen: string, id: string, now: string, auditId: string)
    requires forall x :: !RunningIn(file, chosen, x)
    requires id in file ==> file[id].auditId == chosen
    ensures StartsAtMostOne(file, AfterTransition(file, id, Running, None, now), auditId)
  {
    hide AfterTransition, Stable, MovedOn;
    var g := AfterTransition(file, id, Running, None, now);
    forall x | RunningIn(g, auditId, x) ensures RunningIn(file, auditId, x) || (x == id && auditId == chosen) {
      TransitionAt(file, id, Running, None, now, x);
    }
  }

  lemma NextStartsAtMostOne(file: Queue, step: Step, auditId: string)
    requires Proper(step) && SelectOnly(step)
    ensures StartsAtMostOne(file, Next(file, step), auditId)
  {
    hide AfterEnqueue, AfterTransition, AfterClaim, AfterSelect, StartsAtMostOne, IsNew;
    match step
    case Enqueue(tasks) => EnqueueStartsNothing(file, tasks, auditId);
    case Move(id, to, error, now) => MoveStartsNothing(file, id, to, error, now, auditId);
    case Select(chosen, now) => SelectStartsAtMostOne(file, chosen, now, auditId);
  }

  // As long as tasks are started only by selecting one for execution, an audit never has two tasks
  // running.
  lemma {:induction false} OneTaskRuns(start: Queue, steps: seq<Step>, auditId: string)
    requires AllProper(steps) && forall step :: step in steps ==> SelectOnly(step)
    requires OneRunning(start, auditId)
    ensures OneRunning(After(start, steps), auditId)
    decreases |steps|
  {
    hide Next, Proper, SelectOnly, RunningIn;
    if steps != [] {
      var n := |steps| - 1;
      OneTaskRuns(start, steps[..n], auditId);
      NextStartsAtMostOne(After(start, steps[..n]), steps[n], auditId);
    }
  }

  /******* Claims take the least *******/

  // A claim takes the pending task that is least by priority, creation time, target and id; without
  // a pending task it takes none; and it cannot fail once the queue is readable.
  lemma ClaimTakesTheLeast(file: Queue, audit: Option<string>, taskType: Option<TaskType>, now: string)
    requires Load(file).Some?
    ensures var q, f, r := Load(file).value, Filter(audit, taskType, Some(Pending)),
            ClaimResult(file, audit, taskType, now);
            && r.Success?
            && (r.value.None? <==> forall id :: id in q ==> !f.Passes(q[id]))
            && (r.value.None? ==> AfterClaim(file, audit, taskType, now) == file)
            && (r.value.Some? ==>
                  var t := r.value.value;
                  && t.id in q && f.Passes(q[t.id]) && t == Moved(q[t.id], Running, None, now)
                  && AfterClaim(file, audit, taskType, now) == q[t.id := t]
                  && forall id :: id in q && f.Passes(q[id]) ==> Leq(TaskKey(q[t.id]), TaskKey(q[id])))
  {
    hide Load, Listing, TaskKey, Keyed;
    var q, f := Load(file).value, Filter(audit, taskType, Some(Pending));
    LoadKeepsKeys(file);
    if Listing(q, f) == [] {
      forall id | id in q && f.Passes(q[id]) ensures false {
        FoundInListing(q, f, id);
      }
    } else {
      FirstListed(q, f);
    }
  }

  /******* Enqueuing answers every task *******/

  ghost predicate AnswersFor(before: Queue, after: Batch, tasks: seq<AuditTask>, done: nat) {
    && |after.results| == done + |tasks|
    && (forall i :: 0 <= i < |tasks| ==> after.results[done + i].task.id == tasks[i].id)
    && (forall id :: id in after.stored <==> id in before || exists t :: t in tasks && t.id == id)
  }

  lemma {:induction false} OfferAllAnswers(b: Batch, tasks: seq<AuditTask>)
    requires Keyed(b.stored) && OfferAll(b, tasks).Success?
    ensures AnswersFor(b.stored, OfferAll(b, tasks).value, tasks, |b.results|)
    ensures OfferAll(b, tasks).value.results[..|b.results|] == b.results
    decreases |tasks|
  {
    hide KeyOf;
    if tasks == [] {
      assert b.results[..|b.results|] == b.results;
    } else {
      var next := Offer(b, tasks[0]).value;
      OfferAllAnswers(next, tasks[1..]);
      JoinAnswers(b, next, OfferAll(b, tasks).value, tasks);
    }
  }

  lemma JoinAnswers(b: Batch, next: Batch, r: Batch, tasks: seq<AuditTask>)
    requires Keyed(b.stored) && tasks != [] && Offer(b, tasks[0]) == Success(next)
    requires AnswersFor(next.stored, r, tasks[1..], |next.results|) && r.results[..|next.results|] == next.results
    ensures AnswersFor(b.stored, r, tasks, |b.results|) && r.results[..|b.results|] == b.results
  {
    hide KeyOf, Offer;
    var n := |b.results|;
    OneAnswer(b, next, tasks[0]);
    assert r.results[n] == r.results[..n + 1][n];
    assert r.results[..n] == r.results[..n + 1][..n];
    forall i | 0 <= i < |tasks| ensures r.results[n + i].task.id == tasks[i].id {
      if i > 0 {
        assert r.results[(n + 1) + (i - 1)].task.id == tasks[1..][i - 1].id;
      }
    }
    assert tasks == [tasks[0]] + tasks[1..];
  }

  lemma OneAnswer(b: Batch, next: Batch, t: AuditTask)
    requires Keyed(b.stored) && Offer(b, t) == Success(next)
    ensures |next.results| == |b.results| + 1 && next.results[..|b.results|] == b.results
    ensures next.results[|b.results|].task.id == t.id && next.stored.Keys == b.stored.Keys + {t.id}
  {
    hide KeyOf;
  }
}
