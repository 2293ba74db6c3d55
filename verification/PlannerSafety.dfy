/** What a planning round guarantees: true counters, budgets, keys that stay distinct, and one result
    for every task. */
module PlannerSafety {
  import opened Wrappers
  import opened Ordering
  import opened TaskQueue
  import opened QueueSafety
  import opened Planner
  import opened Events
  import opened TargetPaths

  /******* True counts *******/

  // Everything that a budget limits.
  datatype Bucket = Verifies | VerifiesOf(observationId: string) | Composes | ComposesFrom(source: string)

  predicate In(obs: Observations, b: Bucket, t: AuditTask) {
    && Active(t)
    && match b
       case Verifies => t.taskType.VerifyClaim?
       case VerifiesOf(o) => t.taskType.VerifyClaim? && t.target.kind.ObservationTarget? && t.target.value == o
       case Composes => t.taskType.ComposeIssue?
       case ComposesFrom(s) => t.taskType.ComposeIssue? && SourceKey(obs, t) == s
  }

  // The active tasks of the audit that are really in the queue.
  ghost function Members(obs: Observations, file: Queue, auditId: string, b: Bucket): set<AuditTask> {
    set id | id in file && file[id].auditId == auditId && In(obs, b, file[id]) :: file[id]
  }

  function Level(c: Counters, b: Bucket): nat {
    match b
    case Verifies => c.verify
    case VerifiesOf(o) => Of(c.verifyBy, o)
    case Composes => c.compose
    case ComposesFrom(s) => Of(c.composeBy, s)
  }

  function Limit(l: Limits, b: Bucket): int {
    match b
    case Verifies => l.verifyPerAudit
    case VerifiesOf(_) => l.verifyPerObservation
    case Composes => l.composePerAudit
    case ComposesFrom(_) => l.composePerSource
  }

  lemma ChargeRaises(obs: Observations, c: Counters, t: AuditTask, b: Bucket)
    requires Active(t)
    ensures Level(Charge(obs, c, t), b) == Level(c, b) + (if In(obs, b, t) then 1 else 0)
  {
    hide SourceKey;
  }

  ghost predicate Distinct(tasks: seq<AuditTask>) {
    forall i, j :: 0 <= i < j < |tasks| ==> tasks[i] != tasks[j]
  }

  lemma OnceIsDistinct(tasks: seq<AuditTask>)
    requires forall t :: multiset(tasks)[t] <= 1
    ensures Distinct(tasks)
  {
    forall i, j | 0 <= i < j < |tasks| ensures tasks[i] != tasks[j] {
      assert tasks == tasks[..j] + tasks[j..];
      assert multiset(tasks)[tasks[i]] == multiset(tasks[..j])[tasks[i]] + multiset(tasks[j..])[tasks[i]];
      assert tasks[..j][i] in multiset(tasks[..j]) && tasks[j..][0] in multiset(tasks[j..]);
    }
  }

  ghost function Inside(obs: Observations, tasks: seq<AuditTask>, b: Bucket): set<AuditTask> {
    set t | t in tasks && In(obs, b, t)
  }

  lemma OneMoreInside(obs: Observations, rest: seq<AuditTask>, t: AuditTask, b: Bucket)
    requires t !in rest
    ensures |Inside(obs, rest + [t], b)| == |Inside(obs, rest, b)| + (if In(obs, b, t) then 1 else 0)
  {
    hide In;
    var before := Inside(obs, rest, b);
    assert t !in before;
    assert Inside(obs, rest + [t], b) == if In(obs, b, t) then before + {t} else before;
  }

  lemma {:induction false} ChargeAllCounts(obs: Observations, tasks: seq<AuditTask>, b: Bucket)
    requires Distinct(tasks)
    ensures Level(ChargeAll(obs, tasks), b) == |Inside(obs, tasks, b)|
    decreases |tasks|
  {
    hide Charge, In, Inside, Level;
    if tasks == [] {
      NothingCharged(obs, b);
    } else {
      var n := |tasks| - 1;
      var t, rest := tasks[n], tasks[..n];
      assert tasks == rest + [t] && t !in rest;
      ChargeAllCounts(obs, rest, b);
      OneMoreInside(obs, rest, t, b);
      InactiveIsOut(obs, t, b);
      if Active(t) {
        ChargeRaises(obs, ChargeAll(obs, rest), t, b);
      }
    }
  }

  lemma NothingCharged(obs: Observations, b: Bucket)
    ensures Level(ChargeAll(obs, []), b) == |Inside(obs, [], b)| == 0
  {
  }

  lemma InactiveIsOut(obs: Observations, t: AuditTask, b: Bucket)
    ensures In(obs, b, t) ==> Active(t)
  {
  }

  lemma ListingOnce(q: Queue, f: Filter)
    requires Keyed(q)
    ensures Distinct(Listing(q, f))
  {
    hide SortBy, Filter.Passes, Stable;
    var ids := Order(q.Keys);
    CollectOnce(q, f, ids);
    SortFacts(Collect(ids, Selected(q, f)), ByKey());
    OnceIsDistinct(Listing(q, f));
  }

  lemma {:induction false} CollectOnce(q: Queue, f: Filter, ids: seq<string>)
    requires Keyed(q) && StrictlySorted(ids)
    ensures forall t :: multiset(Collect(ids, Selected(q, f)))[t] <= 1
    ensures forall t :: t in Collect(ids, Selected(q, f)) ==> t.id in ids
    decreases |ids|
  {
    hide Filter.Passes, Stable;
    if ids != [] {
      var rest := Collect(ids[1..], Selected(q, f));
      assert forall j :: 0 < j < |ids| ==> ids[j] != ids[0];
      assert ids[0] !in ids[1..];
      CollectOnce(q, f, ids[1..]);
      assert forall t :: t in rest ==> t.id != ids[0];
      assert ids == [ids[0]] + ids[1..];
    }
  }

  ghost predicate TrueCounters(obs: Observations, file: Queue, auditId: string, c: Counters) {
    forall b :: Level(c, b) == |Members(obs, file, auditId, b)|
  }

  // True of every queue that could be read.
  lemma StartCountsAreTrue(obs: Observations, q: Queue, auditId: string)
    requires Keyed(q)
    ensures TrueCounters(obs, q, auditId, ChargeAll(obs, Listing(q, Filter(Some(auditId), None, None))))
  {
    hide Listing, ChargeAll, Level, In, Stable;
    var f := Filter(Some(auditId), None, None);
    var existing := Listing(q, f);
    ListingOnce(q, f);
    ListingFacts(q, f);
    forall b ensures Level(ChargeAll(obs, existing), b) == |Members(obs, q, auditId, b)| {
      ChargeAllCounts(obs, existing, b);
      assert Inside(obs, existing, b) == Members(obs, q, auditId, b);
    }
  }

  lemma MemberIff(obs: Observations, file: Queue, auditId: string, b: Bucket, u: AuditTask)
    requires Keyed(file)
    ensures u in Members(obs, file, auditId, b)
            <==> u.id in file && file[u.id] == u && u.auditId == auditId && In(obs, b, u)
  {
    hide In;
  }

  lemma OneMoreMember(obs: Observations, file: Queue, auditId: string, t: AuditTask, b: Bucket)
    requires t.id !in file && t.auditId == auditId && Keyed(file)
    ensures |Members(obs, file[t.id := t], auditId, b)|
            == |Members(obs, file, auditId, b)| + (if In(obs, b, t) then 1 else 0)
  {
    hide In, Members;
    var g := file[t.id := t];
    var before := Members(obs, file, auditId, b);
    var after := if In(obs, b, t) then before + {t} else before;
    MemberIff(obs, file, auditId, b, t);
    forall u ensures u in Members(obs, g, auditId, b) <==> u in after {
      MemberIff(obs, file, auditId, b, u);
      MemberIff(obs, g, auditId, b, u);
    }
    assert Members(obs, g, auditId, b) == after;
  }

  /******* The invariant of the loop *******/

  function Max(x: int, y: int): int {
    if x < y then y else x
  }

  // Tasks as the planner makes them.
  predicate Plannable(t: AuditTask, auditId: string) {
    IsNew(t) && t.auditId == auditId && Stable(t.target)
  }

  ghost predicate NewEntry(c: Context, auditId: string, p: Plan, id: string) {
    id in p.file &&
    var t := p.file[id];
    var key := FollowUpKey(c.obs, t);
    Plannable(t, auditId) && t.id == id && key !in c.existing && key in p.planned && p.planned[key].id == id
  }

  ghost predicate Grows(c: Context, auditId: string, start: Queue, p: Plan) {
    && (forall id :: id in start ==> id in p.file && p.file[id] == start[id])
    && (forall id :: id in p.file && id !in start ==> NewEntry(c, auditId, p, id))
  }

  ghost predicate WithinBudget(c: Context, auditId: string, start: Queue, p: Plan) {
    && (forall b :: Level(p.counters, b) <= Max(|Members(c.obs, start, auditId, b)|, Limit(c.limits, b)))
    && p.counters.verify == |Members(c.obs, start, auditId, Verifies)| + p.newVerify
    && p.newVerify <= Max(0, c.limits.verifyPerRound)
  }

  // The queue with its old entries as they were read at the beginning of the round: a path can read
  // differently after each load.
  ghost function AsRead(q: Queue, file: Queue): Queue {
    map id | id in file :: if id in q then q[id] else file[id]
  }

  ghost function Viewed(q: Queue, p: Plan): Plan {
    p.(file := AsRead(q, p.file))
  }

  // `q` is what the file read as at the beginning of the round.
  ghost predicate Inv(c: Context, auditId: string, q: Queue, p: Plan) {
    && Keyed(AsRead(q, p.file))
    && TrueCounters(c.obs, AsRead(q, p.file), auditId, p.counters)
    && Grows(c, auditId, q, Viewed(q, p))
    && WithinBudget(c, auditId, q, p)
  }

  // Nothing of a task is lost but the old form of its target.
  ghost predicate SameButTarget(t: AuditTask, u: AuditTask) {
    u.(target := t.target) == t && (Stable(t.target) ==> u.target == t.target)
  }

  ghost predicate Keeps(start: Queue, file: Queue) {
    forall id :: id in start ==> id in file && SameButTarget(start[id], file[id])
  }

  // The tasks made from the observations of a state are always plannable.
  lemma {:induction false} FollowUpsArePlannable(
      idOf: IdMaker, auditId: string, backed: set<string>, snapshot: Option<string>, now: string,
      observations: seq<Payload>)
    ensures var r := FollowUpTasks(idOf, auditId, backed, snapshot, now, observations);
            r.Success? ==> forall t :: t in r.value ==> Plannable(t, auditId)
    decreases |observations|
  {
    hide MakeTarget, Stable;
    if observations != [] {
      FollowUpsArePlannable(idOf, auditId, backed, snapshot, now, observations[1..]);
      var p := observations[0];
      if p.body.ObservationBody? {
        var ref := FirstSnapshot(p.body.observation.sourceRefs, snapshot);
        if ref.Some? && MakeTarget(ObservationTarget, p.id, ref.value, None).Some? {
          MadeTargetIsStableIff(ObservationTarget, p.id, ref.value, None);
        }
      }
    }
  }

  /******* One task *******/

  // A task is added to what the file reads as, or the file stays as it was.
  lemma EnqueueOne(file: Queue, t: AuditTask)
    ensures EnqueueResults(file, [t]).Success? ==>
              var rs := EnqueueResults(file, [t]).value;
              && Load(file).Some? && |rs| == 1 && rs[0].task.id == t.id && (rs[0].outcome.Enqueued? <==> t.id !in file)
              && (if rs[0].outcome.Enqueued?
                  then rs[0].task == t && AfterEnqueue(file, [t]) == Load(file).value[t.id := t]
                  else AfterEnqueue(file, [t]) == file)
    ensures EnqueueResults(file, [t]).Failure? ==>
              && AfterEnqueue(file, [t]) == file
              && EnqueueResults(file, [t]).error == (if Load(file).None? then Unreadable else IdCollision(t.id))
              && (Load(file).Some? ==> t.id in file)
  {
    hide Load, OfferAll, SortBy, KeyOf;
    if Load(file).Some? {
      var q := Load(file).value;
      LoadedKeys(file);
      LoadKeepsKeys(file);
      OneOffer(Batch(q, []), t);
      var none: seq<EnqueueResult> := [];
      var r := if t.id in q then EnqueueResult(Duplicate, q[t.id]) else EnqueueResult(Enqueued, t);
      assert none + [r] == [r] && [r][0] == r;
    }
  }

  // What is added during a round reads the same ever after.
  lemma AddedToView(c: Context, auditId: string, q: Queue, p: Plan, t: AuditTask)
    requires Grows(c, auditId, q, Viewed(q, p)) && Load(p.file).Some? && t.id !in p.file
    ensures AsRead(q, Load(p.file).value[t.id := t]) == AsRead(q, p.file)[t.id := t]
  {
    hide Load, Stable, FollowUpKey, IsNew, Grows, AsRead;
    NewEntriesReload(c, auditId, q, p);
    StartIsKept(c, auditId, q, p);
    LoadedKeys(p.file);
    ViewGrows(q, p.file, Load(p.file).value, t);
  }

  lemma NewEntriesReload(c: Context, auditId: string, q: Queue, p: Plan)
    requires Grows(c, auditId, q, Viewed(q, p)) && Load(p.file).Some?
    ensures forall id :: id in p.file && id !in q ==> id in Load(p.file).value && Load(p.file).value[id] == p.file[id]
  {
    hide Load, Stable, FollowUpKey, IsNew, ReloadTarget, Reload;
    LoadFacts(p.file);
    forall id | id in p.file && id !in q ensures Load(p.file).value[id] == p.file[id] {
      assert NewEntry(c, auditId, Viewed(q, p), id);
      StableReloads(p.file[id]);
    }
  }

  lemma ViewGrows(q: Queue, file: Queue, loaded: Queue, t: AuditTask)
    requires loaded.Keys == file.Keys && t.id !in q
    requires forall id :: id in file && id !in q ==> loaded[id] == file[id]
    ensures AsRead(q, loaded[t.id := t]) == AsRead(q, file)[t.id := t]
  {
  }

  lemma StableReloads(t: AuditTask)
    requires Stable(t.target)
    ensures ReloadTarget(t.target).Some? && Reload(t) == t
  {
    hide MakeTarget;
  }

  lemma LoadKeepsEntries(start: Queue, file: Queue)
    requires Keeps(start, file) && Load(file).Some?
    ensures Keeps(start, Load(file).value)
  {
    hide Load, Stable, ReloadTarget;
    LoadFacts(file);
    forall id | id in start ensures SameButTarget(start[id], Load(file).value[id]) {
      ReloadIsSame(file[id]);
    }
  }

  lemma ReloadIsSame(t: AuditTask)
    requires ReloadTarget(t.target).Some?
    ensures SameButTarget(t, Reload(t))
  {
    hide MakeTarget;
  }

  lemma RoomLeft(c: Context, p: Plan, t: AuditTask, b: Bucket)
    requires Refused(c, p, t).None? && In(c.obs, b, t)
    ensures Level(p.counters, b) < Limit(c.limits, b)
  {
    hide SourceKey;
  }

  lemma NewTaskKeepsBudget(c: Context, auditId: string, start: Queue, p: Plan, t: AuditTask, file: Queue)
    requires WithinBudget(c, auditId, start, p) && Refused(c, p, t).None? && Active(t)
    ensures WithinBudget(c, auditId, start, Recorded(c, p, file, t, EnqueueResult(Enqueued, t)))
  {
    hide Members, SourceKey, Charge, FollowUpKey, In;
    var next := Charge(c.obs, p.counters, t);
    forall b ensures Level(next, b) <= Max(|Members(c.obs, start, auditId, b)|, Limit(c.limits, b)) {
      ChargeRaises(c.obs, p.counters, t, b);
      if In(c.obs, b, t) {
        RoomLeft(c, p, t, b);
      }
    }
    ChargeRaises(c.obs, p.counters, t, Verifies);
    VerifiesMeansVerify(c.obs, t);
  }

  lemma VerifiesMeansVerify(obs: Observations, t: AuditTask)
    requires Active(t)
    ensures In(obs, Verifies, t) <==> t.taskType.VerifyClaim?
  {
  }

  lemma NewTaskKeepsCounts(c: Context, auditId: string, file: Queue, counters: Counters, t: AuditTask)
    requires Keyed(file) && TrueCounters(c.obs, file, auditId, counters)
    requires Plannable(t, auditId) && t.id !in file
    ensures Keyed(file[t.id := t]) && TrueCounters(c.obs, file[t.id := t], auditId, Charge(c.obs, counters, t))
  {
    hide Members, Charge, Level, In, Stable;
    forall b ensures Level(Charge(c.obs, counters, t), b) == |Members(c.obs, file[t.id := t], auditId, b)| {
      ChargeRaises(c.obs, counters, t, b);
      OneMoreMember(c.obs, file, auditId, t, b);
    }
  }

  lemma NewTaskGrows(c: Context, auditId: string, start: Queue, p: Plan, t: AuditTask)
    requires Grows(c, auditId, start, p) && Plannable(t, auditId) && t.id !in p.file
    requires var key := FollowUpKey(c.obs, t); key !in c.existing && key !in p.planned
    ensures Grows(c, auditId, start, Recorded(c, p, p.file[t.id := t], t, EnqueueResult(Enqueued, t)))
  {
    hide FollowUpKey, Charge, Plannable;
    var next := Recorded(c, p, p.file[t.id := t], t, EnqueueResult(Enqueued, t));
    forall id | id in next.file && id !in start ensures NewEntry(c, auditId, next, id) {
      if id != t.id {
        assert NewEntry(c, auditId, p, id);
      }
    }
  }

  // A task with a planned or existing key of its own id is already in the queue.
  ghost predicate KeysKnown(c: Context, start: Queue, p: Plan) {
    && (forall key :: key in c.existing ==> c.existing[key].id in start)
    && (forall key :: key in p.planned ==> p.planned[key].id in p.file)
  }

  lemma RepeatKeepsPlan(c: Context, auditId: string, start: Queue, p: Plan, t: AuditTask, stored: AuditTask)
    requires Grows(c, auditId, start, p) && stored.id == t.id
    requires !Taken(p.planned, FollowUpKey(c.obs, t), t.id)
    ensures Grows(c, auditId, start, Recorded(c, p, p.file, t, EnqueueResult(Duplicate, stored)))
  {
    hide FollowUpKey, Plannable;
    var next := Recorded(c, p, p.file, t, EnqueueResult(Duplicate, stored));
    forall id | id in next.file && id !in start ensures NewEntry(c, auditId, next, id) {
      assert NewEntry(c, auditId, p, id);
    }
  }

  lemma PlanOneKeeps(c: Context, auditId: string, q: Queue, p: Plan, t: AuditTask)
    requires Inv(c, auditId, q, p) && KeysKnown(c, q, p) && Plannable(t, auditId)
    ensures var r := PlanOne(c, p, t);
            && Inv(c, auditId, q, r.plan) && KeysKnown(c, q, r.plan)
            && (r.error.None? ==> exists answer :: r.plan.results == p.results + [answer] && answer.task.id == t.id)
            && (r.error.Some? ==>
                r.plan == p && r.error == Some(if Load(p.file).None? then Unreadable else IdCollision(t.id)))
  {
    hide FollowUpKey, Charge, Refused, Inv, KeysKnown, EnqueueResults, AfterEnqueue, Plannable, Load;
    var key := FollowUpKey(c.obs, t);
    var r := PlanOne(c, p, t);
    if Taken(c.existing, key, t.id) || Taken(p.planned, key, t.id) {
      NoteKeeps(c, auditId, q, p, NearDuplicate, t);
    } else if Refused(c, p, t).Some? {
      NoteKeeps(c, auditId, q, p, Refused(c, p, t).value, t);
    } else {
      EnqueueOne(p.file, t);
      if EnqueueResults(p.file, [t]).Success? {
        var answer := EnqueueResults(p.file, [t]).value[0];
        if answer.outcome.Enqueued? {
          AddingKeeps(c, auditId, q, p, t);
        } else {
          RepeatKeeps(c, auditId, q, p, t, answer.task);
        }
      }
    }
  }

  lemma AddingKeeps(c: Context, auditId: string, q: Queue, p: Plan, t: AuditTask)
    requires Inv(c, auditId, q, p) && KeysKnown(c, q, p) && Plannable(t, auditId)
    requires Refused(c, p, t).None? && Load(p.file).Some? && t.id !in p.file
    requires var key := FollowUpKey(c.obs, t); !Taken(c.existing, key, t.id) && !Taken(p.planned, key, t.id)
    ensures var next := Recorded(c, p, Load(p.file).value[t.id := t], t, EnqueueResult(Enqueued, t));
            Inv(c, auditId, q, next) && KeysKnown(c, q, next)
  {
    hide FollowUpKey, Charge, Refused, Plannable, TrueCounters, Grows, WithinBudget, Load, KeysKnown;
    var view := Viewed(q, p);
    StartIsKept(c, auditId, q, p);
    FreshKey(c, q, p, t);
    ActiveWhenPlannable(t, auditId);
    AddedToView(c, auditId, q, p, t);
    NewTaskKeepsCounts(c, auditId, view.file, p.counters, t);
    NewTaskGrows(c, auditId, q, view, t);
    LoadedKeys(p.file);
    NewTaskKeepsBudget(c, auditId, q, p, t, Load(p.file).value[t.id := t]);
    OneMoreKnown(c, q, p, t, Load(p.file).value[t.id := t]);
  }

  lemma OneMoreKnown(c: Context, q: Queue, p: Plan, t: AuditTask, file: Queue)
    requires KeysKnown(c, q, p) && file.Keys == p.file.Keys + {t.id}
    ensures KeysKnown(c, q, Recorded(c, p, file, t, EnqueueResult(Enqueued, t)))
  {
    hide FollowUpKey, Charge;
  }

  lemma RepeatKeeps(c: Context, auditId: string, q: Queue, p: Plan, t: AuditTask, stored: AuditTask)
    requires Inv(c, auditId, q, p) && KeysKnown(c, q, p) && t.id in p.file && stored.id == t.id
    requires !Taken(p.planned, FollowUpKey(c.obs, t), t.id)
    ensures var next := Recorded(c, p, p.file, t, EnqueueResult(Duplicate, stored));
            Inv(c, auditId, q, next) && KeysKnown(c, q, next)
  {
    hide FollowUpKey, Charge, TrueCounters, Grows, WithinBudget, KeysKnown;
    RepeatKeepsPlan(c, auditId, q, Viewed(q, p), t, stored);
    RepeatKeepsRest(c, auditId, q, p, t, stored);
  }

  lemma StartIsKept(c: Context, auditId: string, q: Queue, p: Plan)
    requires Grows(c, auditId, q, Viewed(q, p))
    ensures q.Keys <= p.file.Keys
  {
    forall id | id in q ensures id in p.file {
      assert id in AsRead(q, p.file);
    }
  }

  lemma FreshKey(c: Context, start: Queue, p: Plan, t: AuditTask)
    requires KeysKnown(c, start, p) && start.Keys <= p.file.Keys && t.id !in p.file
    requires !Taken(c.existing, FollowUpKey(c.obs, t), t.id) && !Taken(p.planned, FollowUpKey(c.obs, t), t.id)
    ensures FollowUpKey(c.obs, t) !in c.existing && FollowUpKey(c.obs, t) !in p.planned
  {
    hide FollowUpKey;
  }

  lemma ActiveWhenPlannable(t: AuditTask, auditId: string)
    requires Plannable(t, auditId)
    ensures Active(t)
  {
  }

  lemma NoteKeeps(c: Context, auditId: string, q: Queue, p: Plan, outcome: PlanOutcome, t: AuditTask)
    requires Inv(c, auditId, q, p) && KeysKnown(c, q, p)
    ensures var next := Note(p, outcome, t);
            && Inv(c, auditId, q, next) && KeysKnown(c, q, next)
            && next.results == p.results + [PlanResult(outcome, t)]
  {
    hide FollowUpKey, Plannable, Members, TrueCounters, Keyed;
    var next, view := Viewed(q, Note(p, outcome, t)), Viewed(q, p);
    forall id | id in next.file && id !in q ensures NewEntry(c, auditId, next, id) {
      assert NewEntry(c, auditId, view, id);
    }
  }

  lemma RepeatKeepsRest(c: Context, auditId: string, start: Queue, p: Plan, t: AuditTask, stored: AuditTask)
    requires WithinBudget(c, auditId, start, p) && KeysKnown(c, start, p) && stored.id in p.file
    ensures var next := Recorded(c, p, p.file, t, EnqueueResult(Duplicate, stored));
            WithinBudget(c, auditId, start, next) && KeysKnown(c, start, next)
  {
    hide FollowUpKey, Members, Level;
  }

  /******* The whole round *******/

  // The results so far name the tasks so far, in order.
  ghost predicate Answers(results: seq<PlanResult>, tasks: seq<AuditTask>) {
    |results| == |tasks| && forall i :: 0 <= i < |tasks| ==> results[i].task.id == tasks[i].id
  }

  lemma {:induction false} PlanAllKeeps(c: Context, auditId: string, start: Queue, q: Queue, p: Plan,
      done: seq<AuditTask>, tasks: seq<AuditTask>)
    requires Inv(c, auditId, q, p) && KeysKnown(c, q, p) && Answers(p.results, done) && Keeps(start, p.file)
    requires forall t :: t in tasks ==> Plannable(t, auditId)
    ensures var r := PlanAll(c, p, tasks);
            && Inv(c, auditId, q, r.plan) && Keeps(start, r.plan.file)
            && (r.error.None? ==> Answers(r.plan.results, done + tasks))
            && (r.error.Some? ==>
                if Load(r.plan.file).None? then r.error.value.Unreadable? else r.error.value.IdCollision?)
    decreases |tasks|
  {
    hide PlanOne, Inv, KeysKnown, Plannable, Keeps, Load;
    if tasks == [] {
      assert done + tasks == done;
    } else {
      PlanOneKeeps(c, auditId, q, p, tasks[0]);
      PlanOneKeepsEntries(c, start, p, tasks[0]);
      var r := PlanOne(c, p, tasks[0]);
      if r.error.None? {
        assert done + tasks == done + [tasks[0]] + tasks[1..];
        PlanAllKeeps(c, auditId, start, q, r.plan, done + [tasks[0]], tasks[1..]);
      }
    }
  }

  lemma PlanOneKeepsEntries(c: Context, start: Queue, p: Plan, t: AuditTask)
    requires Keeps(start, p.file)
    ensures Keeps(start, PlanOne(c, p, t).plan.file)
  {
    hide FollowUpKey, Charge, Refused, EnqueueResults, AfterEnqueue, Load, SameButTarget;
    EnqueueOne(p.file, t);
    if Load(p.file).Some? {
      LoadKeepsEntries(start, p.file);
    }
  }

  lemma {:induction false} FirstByKeyFacts(obs: Observations, tasks: seq<AuditTask>)
    ensures forall key :: key in FirstByKey(obs, tasks) ==> FirstByKey(obs, tasks)[key] in tasks
    ensures forall t :: t in tasks ==> FollowUpKey(obs, t) in FirstByKey(obs, tasks)
    decreases |tasks|
  {
    hide FollowUpKey;
    if tasks != [] {
      var n := |tasks| - 1;
      FirstByKeyFacts(obs, tasks[..n]);
      assert tasks == tasks[..n] + [tasks[n]];
    }
  }

  // The existing tasks of the audit, all of whose keys the round knows.
  lemma StartHolds(obs: Observations, limits: Limits, file: Queue, auditId: string)
    requires Load(file).Some?
    ensures var q := Load(file).value;
            var (c, p) := Start(obs, limits, file, q, auditId);
            && c.obs == obs && c.limits == limits
            && Inv(c, auditId, q, p) && KeysKnown(c, q, p) && p.results == []
            && forall id :: id in q && q[id].auditId == auditId ==> FollowUpKey(obs, q[id]) in c.existing
  {
    hide Listing, FollowUpKey, ChargeAll, FirstByKey, TrueCounters, WithinBudget, Keyed, Load, AsRead, Grows,
        KeysKnown;
    var q := Load(file).value;
    LoadKeepsKeys(file);
    LoadedKeys(file);
    ViewAtStart(file, q);
    StartCountsAreTrue(obs, q, auditId);
    StartWithinBudget(obs, limits, file, q, auditId);
    KeysAtStart(obs, limits, file, q, auditId);
    assert Grows(Start(obs, limits, file, q, auditId).0, auditId, q,
           Viewed(q, Start(obs, limits, file, q, auditId).1)) by {
      NothingNew(Start(obs, limits, file, q, auditId).0, auditId, q, Viewed(q, Start(obs, limits, file, q, auditId).1));
    }
  }

  lemma ViewAtStart(file: Queue, q: Queue)
    requires q.Keys == file.Keys
    ensures AsRead(q, file) == q
  {
  }

  lemma NothingNew(c: Context, auditId: string, q: Queue, p: Plan)
    requires p.file == q
    ensures Grows(c, auditId, q, p)
  {
    hide Plannable, FollowUpKey;
  }

  lemma KeysAtStart(obs: Observations, limits: Limits, file: Queue, q: Queue, auditId: string)
    requires Keyed(q)
    ensures var (c, p) := Start(obs, limits, file, q, auditId);
            && KeysKnown(c, q, p)
            && forall id :: id in q && q[id].auditId == auditId ==> FollowUpKey(obs, q[id]) in c.existing
  {
    hide Listing, FollowUpKey, ChargeAll, FirstByKey, Keyed;
    FirstByKeyFacts(obs, Listing(q, Filter(Some(auditId), None, None)));
    ListedOfAudit(q, auditId);
  }

  lemma ListedOfAudit(q: Queue, auditId: string)
    requires Keyed(q)
    ensures forall id :: id in q && q[id].auditId == auditId ==> q[id] in Listing(q, Filter(Some(auditId), None, None))
    ensures forall t :: t in Listing(q, Filter(Some(auditId), None, None)) ==> t.id in q
  {
    hide Listing;
    var f := Filter(Some(auditId), None, None);
    forall id | id in q && q[id].auditId == auditId ensures q[id] in Listing(q, f) {
      FoundInListing(q, f, id);
    }
    ListingFacts(q, f);
  }

  lemma StartWithinBudget(obs: Observations, limits: Limits, file: Queue, q: Queue, auditId: string)
    requires Keyed(q)
    ensures var (c, p) := Start(obs, limits, file, q, auditId); WithinBudget(c, auditId, q, p)
  {
    hide Listing, FollowUpKey, ChargeAll, FirstByKey, Level, Members, Keyed;
    var (c, p) := Start(obs, limits, file, q, auditId);
    StartCountsAreTrue(obs, q, auditId);
    LevelOfVerifies(p.counters);
    assert TrueCounters(obs, q, auditId, p.counters);
    forall b ensures Level(p.counters, b) <= Max(|Members(obs, q, auditId, b)|, Limit(limits, b)) {
    }
  }

  lemma LevelOfVerifies(c: Counters)
    ensures Level(c, Verifies) == c.verify
  {
  }

  ghost predicate NewIn(before: Queue, after: Queue, id: string) {
    id in after && id !in before
  }

  ghost predicate BudgetsHold(obs: Observations, limits: Limits, auditId: string, before: Queue, after: Queue) {
    && (forall b :: |Members(obs, after, auditId, b)| <= Max(|Members(obs, before, auditId, b)|, Limit(limits, b)))
    && |Members(obs, after, auditId, Verifies)|
        <= |Members(obs, before, auditId, Verifies)| + Max(0, limits.verifyPerRound)
  }

  ghost predicate KeysDistinct(obs: Observations, auditId: string, before: Queue, after: Queue) {
    && (forall x, id :: NewIn(before, after, x) && id in before && before[id].auditId == auditId ==>
         FollowUpKey(obs, after[x]) != FollowUpKey(obs, before[id]))
    && (forall x, y :: NewIn(before, after, x) && NewIn(before, after, y) && x != y ==>
         FollowUpKey(obs, after[x]) != FollowUpKey(obs, after[y]))
  }

  // A round over any readable queue keeps every queued task but for the form of its target, ends with
  // counters that are the true numbers of active tasks, exceeds no budget that was not exceeded
  // before, enqueues only tasks whose meaning is new, answers every task once, and can fail only on an
  // id collision or on a file that no longer reads.
  lemma PlanningRoundIsSafe(obs: Observations, limits: Limits, file: Queue, auditId: string, tasks: seq<AuditTask>)
    requires Load(file).Some? && forall t :: t in tasks ==> Plannable(t, auditId)
    ensures var round := PlanRound(obs, limits, file, auditId, tasks);
            var q, after := Load(file).value, AsRead(Load(file).value, round.plan.file);
            && Keeps(file, round.plan.file)
            && TrueCounters(obs, after, auditId, round.plan.counters)
            && BudgetsHold(obs, limits, auditId, q, after)
            && KeysDistinct(obs, auditId, q, after)
            && (round.error.None? ==> Answers(round.plan.results, SortBy(tasks, ByKey())))
            && (round.error.Some? ==>
                  if Load(round.plan.file).None? then round.error.value.Unreadable? else round.error.value.IdCollision?)
  {
    hide Start, PlanAll, Inv, KeysKnown, Plannable, TrueCounters, SortBy, Load, FollowUpKey, BudgetsHold,
        KeysDistinct, AsRead, Keeps;
    StartHolds(obs, limits, file, auditId);
    var q := Load(file).value;
    var (c, p) := Start(obs, limits, file, q, auditId);
    var sorted := SortBy(tasks, ByKey());
    forall t | t in sorted ensures Plannable(t, auditId) {
      SortMembers(tasks, ByKey(), t);
    }
    KeepsItself(file);
    StartFile(obs, limits, file, q, auditId);
    PlanAllKeeps(c, auditId, file, q, p, [], sorted);
    assert [] + sorted == sorted;
    InvMeans(c, auditId, q, PlanAll(c, p, sorted).plan);
  }

  lemma KeepsItself(file: Queue)
    ensures Keeps(file, file)
  {
  }

  lemma StartFile(obs: Observations, limits: Limits, file: Queue, q: Queue, auditId: string)
    ensures Start(obs, limits, file, q, auditId).1.file == file
  {
  }

  lemma InvMeans(c: Context, auditId: string, q: Queue, p: Plan)
    requires Inv(c, auditId, q, p)
    requires forall id :: id in q && q[id].auditId == auditId ==> FollowUpKey(c.obs, q[id]) in c.existing
    ensures var after := AsRead(q, p.file);
            && TrueCounters(c.obs, after, auditId, p.counters)
            && BudgetsHold(c.obs, c.limits, auditId, q, after)
            && KeysDistinct(c.obs, auditId, q, after)
  {
    hide Members, FollowUpKey, Plannable, AsRead, Keyed;
    LevelOfVerifies(p.counters);
    forall x | NewIn(q, AsRead(q, p.file), x) ensures NewEntry(c, auditId, Viewed(q, p), x) {
    }
  }

  // A queue that survives a reload is kept to the letter.
  lemma SettledQueuesAreKept(obs: Observations, limits: Limits, file: Queue, auditId: string, tasks: seq<AuditTask>)
    requires Settled(file) && forall t :: t in tasks ==> Plannable(t, auditId)
    ensures var round := PlanRound(obs, limits, file, auditId, tasks);
            && Load(file) == Some(file) && AsRead(file, round.plan.file) == round.plan.file
            && forall id :: id in file ==> id in round.plan.file && round.plan.file[id] == file[id]
  {
    hide PlanRound, Plannable, TrueCounters, SortBy, Load, FollowUpKey, BudgetsHold, KeysDistinct, Stable;
    WriteThenLoadIff(file);
    PlanningRoundIsSafe(obs, limits, file, auditId, tasks);
    var after := PlanRound(obs, limits, file, auditId, tasks).plan.file;
    forall id | id in file ensures after[id] == file[id] {
      assert SameButTarget(file[id], after[id]);
    }
  }

  /******* Nothing is kept out without a reason *******/

  lemma RefusedIff(c: Context, p: Plan, t: AuditTask)
    requires Active(t)
    ensures Refused(c, p, t).None? <==>
              (t.taskType.VerifyClaim? ==> p.newVerify < c.limits.verifyPerRound)
              && forall b :: In(c.obs, b, t) ==> Level(p.counters, b) < Limit(c.limits, b)
  {
    hide SourceKey;
    if Refused(c, p, t).Some? {
      assert t.taskType.VerifyClaim? ==> In(c.obs, Verifies, t);
      assert t.taskType.VerifyClaim? && t.target.kind.ObservationTarget? ==> In(c.obs, VerifiesOf(t.target.value), t);
      assert t.taskType.ComposeIssue? ==> In(c.obs, Composes, t) && In(c.obs, ComposesFrom(SourceKey(c.obs, t)), t);
    }
  }

  // A task is added to the queue exactly when its id is new, no other task has its key, the round has
  // room for it, and every budget it would be charged to has room.
  lemma EnqueuedExactlyWhenThereIsRoom(c: Context, p: Plan, t: AuditTask)
    requires Load(p.file).Some? && Active(t)
    ensures var key := FollowUpKey(c.obs, t);
            PlanOne(c, p, t).plan.file != p.file <==>
              && t.id !in p.file && !Taken(c.existing, key, t.id) && !Taken(p.planned, key, t.id)
              && (t.taskType.VerifyClaim? ==> p.newVerify < c.limits.verifyPerRound)
              && forall b :: In(c.obs, b, t) ==> Level(p.counters, b) < Limit(c.limits, b)
  {
    hide FollowUpKey, Charge, Refused, EnqueueResults, AfterEnqueue, KeyOf, In, Level, Limit, Active, Load;
    EnqueueOne(p.file, t);
    RefusedIff(c, p, t);
    if t.id !in p.file {
      assert t.id in Load(p.file).value[t.id := t];
    }
  }
}
