/** A planning round: follow-up tasks are deduplicated by meaning, held to budgets and enqueued one by
    one while running counters stand for the active tasks of the queue. */
module Planner {
  import opened Wrappers
  import opened Ordering
  import opened TargetPaths
  import opened TaskQueue
  import opened Events
  import Text

  /******* Keys *******/

  datatype RefKey = RefKey(path: string, lines: (int, int), snapshotRef: string, fileHash: string)

  datatype FollowKey =
    | Plain(key: SemanticKey)
    | ByMeaning(auditId: string, taskType: TaskType, statement: string, evidenceClass: string, refs: seq<RefKey>)

  function RefKeyOf(r: SourceRef): RefKey {
    RefKey(Normal(PathTarget, r.filePath), LineKey(r.lines), Text.Strip(r.snapshotRef),
        Text.Strip(r.fileHash.GetOr("")))
  }

  function RefOrder(): RefKey -> Key {
    (r: RefKey) => Field(r.path) + ([r.lines.0, r.lines.1] + (Field(r.snapshotRef) + Field(r.fileHash)))
  }

  function RefKeys(refs: seq<SourceRef>): seq<RefKey> {
    SortBy(seq(|refs|, i requires 0 <= i < |refs| => RefKeyOf(refs[i])), RefOrder())
  }

  type Observations = map<string, ObservationData>

  // Tasks on observations that say the same about the same places share a key.
  function FollowUpKey(obs: Observations, t: AuditTask): FollowKey {
    if !t.target.kind.ObservationTarget? || t.target.value !in obs then Plain(KeyOf(t))
    else
      var o := obs[t.target.value];
      if Text.Strip(o.statement) == "" || o.sourceRefs == [] then Plain(KeyOf(t))
      else ByMeaning(t.auditId, t.taskType, Text.Strip(o.statement), o.evidenceClass, RefKeys(o.sourceRefs))
  }

  function FirstPath(refs: seq<SourceRef>): Option<string> {
    if refs == [] then None
    else if Text.Strip(refs[0].filePath) != "" then Some(Normal(PathTarget, refs[0].filePath))
    else FirstPath(refs[1..])
  }

  // The source that a compose task is charged to.
  function SourceKey(obs: Observations, t: AuditTask): string {
    var path := if t.target.kind.ObservationTarget? && t.target.value in obs
        then FirstPath(obs[t.target.value].sourceRefs) else None;
    path.GetOr(Normal(t.target.kind, t.target.value))
  }

  /******* The candidate tasks of a round *******/

  function FirstSnapshot(refs: seq<SourceRef>, fallback: Option<string>): Option<string> {
    if refs == [] then fallback
    else if refs[0].snapshotRef != "" then Some(refs[0].snapshotRef)
    else FirstSnapshot(refs[1..], fallback)
  }

  // What one observation still needs: verification while it is proposed, an issue once it is verified.
  function TaskFor(idOf: IdMaker, auditId: string, backed: set<string>, snapshot: Option<string>, now: string,
      p: Payload)
    : Result<Option<AuditTask>, QueueError>
  {
    if p.auditId != Some(auditId) || !p.body.ObservationBody? then Success(None)
    else
      match FirstSnapshot(p.body.observation.sourceRefs, snapshot)
      case None => Failure(NoSnapshot(p.id))
      case Some(ref) =>
        match MakeTarget(ObservationTarget, p.id, ref, None)
        case None => Failure(BadTarget(p.id))
        case Some(target) =>
          if p.status == "proposed" then Success(Some(CreateTask(idOf, auditId, VerifyClaim, target, now)))
          else if p.status == "verified" && p.id !in backed
          then Success(Some(CreateTask(idOf, auditId, ComposeIssue, target, now)))
          else Success(None)
  }

  function FollowUpTasks(idOf: IdMaker, auditId: string, backed: set<string>, snapshot: Option<string>, now: string,
                         observations: seq<Payload>): Result<seq<AuditTask>, QueueError>
  {
    if observations == [] then Success([])
    else
      match TaskFor(idOf, auditId, backed, snapshot, now, observations[0])
      case Failure(error) => Failure(error)
      case Success(task) =>
        match FollowUpTasks(idOf, auditId, backed, snapshot, now, observations[1..])
        case Failure(error) => Failure(error)
        case Success(rest) => Success(Kept(task) + rest)
  }

  /******* Counters *******/

  predicate Active(t: AuditTask) {
    t.status.Pending? || t.status.Running?
  }

  type Tally = map<string, nat>

  function Of(tally: Tally, key: string): nat {
    if key in tally then tally[key] else 0
  }

  function Bump(tally: Tally, key: string): Tally {
    tally[key := Of(tally, key) + 1]
  }

  datatype Counters = Counters(verify: nat, verifyBy: Tally, compose: nat, composeBy: Tally)

  function Charge(obs: Observations, c: Counters, t: AuditTask): Counters {
    match t.taskType
    case VerifyClaim =>
      c.(verify := c.verify + 1,
         verifyBy := if t.target.kind.ObservationTarget? then Bump(c.verifyBy, t.target.value) else c.verifyBy)
    case ComposeIssue =>
      c.(compose := c.compose + 1, composeBy := Bump(c.composeBy, SourceKey(obs, t)))
    case _ => c
  }

  function ChargeAll(obs: Observations, tasks: seq<AuditTask>): Counters {
    if tasks == [] then Counters(0, map[], 0, map[])
    else
      var t := tasks[|tasks| - 1];
      var c := ChargeAll(obs, tasks[..|tasks| - 1]);
      if Active(t) then Charge(obs, c, t) else c
  }

  method CountVerifyClaims(obs: Observations, tasks: seq<AuditTask>) returns (total: nat, tally: Tally)
    ensures total == ChargeAll(obs, tasks).verify && tally == ChargeAll(obs, tasks).verifyBy
  {
    hide SourceKey;
    total, tally := 0, map[];
    var i := 0;
    while i < |tasks|
      invariant 0 <= i <= |tasks|
      invariant total == ChargeAll(obs, tasks[..i]).verify && tally == ChargeAll(obs, tasks[..i]).verifyBy
    {
      var t := tasks[i];
      assert tasks[..i + 1][..i] == tasks[..i];
      if t.taskType.VerifyClaim? && Active(t) {
        total := total + 1;
        if t.target.kind.ObservationTarget? {
          tally := tally[t.target.value := Of(tally, t.target.value) + 1];
        }
      }
      i := i + 1;
    }
    assert tasks[..i] == tasks;
  }

  method CountComposeIssues(obs: Observations, tasks: seq<AuditTask>) returns (total: nat, tally: Tally)
    ensures total == ChargeAll(obs, tasks).compose && tally == ChargeAll(obs, tasks).composeBy
  {
    hide SourceKey;
    total, tally := 0, map[];
    var i := 0;
    while i < |tasks|
      invariant 0 <= i <= |tasks|
      invariant total == ChargeAll(obs, tasks[..i]).compose && tally == ChargeAll(obs, tasks[..i]).composeBy
    {
      var t := tasks[i];
      assert tasks[..i + 1][..i] == tasks[..i];
      if t.taskType.ComposeIssue? && Active(t) {
        var source := SourceKey(obs, t);
        total := total + 1;
        tally := tally[source := Of(tally, source) + 1];
      }
      i := i + 1;
    }
    assert tasks[..i] == tasks;
  }

  // The first task with each key.
  function FirstByKey(obs: Observations, tasks: seq<AuditTask>): map<FollowKey, AuditTask> {
    if tasks == [] then map[]
    else
      var t := tasks[|tasks| - 1];
      var m := FirstByKey(obs, tasks[..|tasks| - 1]);
      if FollowUpKey(obs, t) in m then m else m[FollowUpKey(obs, t) := t]
  }

  method IndexByKey(obs: Observations, tasks: seq<AuditTask>) returns (m: map<FollowKey, AuditTask>)
    ensures m == FirstByKey(obs, tasks)
  {
    hide FollowUpKey;
    m := map[];
    var i := 0;
    while i < |tasks|
      invariant 0 <= i <= |tasks|
      invariant m == FirstByKey(obs, tasks[..i])
    {
      assert tasks[..i + 1][..i] == tasks[..i];
      var key := FollowUpKey(obs, tasks[i]);
      if key !in m {
        m := m[key := tasks[i]];
      }
      i := i + 1;
    }
    assert tasks[..i] == tasks;
  }

  /******* One task *******/

  datatype Limits = Limits(
    verifyPerAudit: int, verifyPerObservation: int, verifyPerRound: int, composePerAudit: int, composePerSource: int)

  datatype PlanOutcome = PlanEnqueued | PlanDuplicate | NearDuplicate | Deferred

  datatype PlanResult = PlanResult(outcome: PlanOutcome, task: AuditTask)

  datatype Context = Context(obs: Observations, limits: Limits, existing: map<FollowKey, AuditTask>)

  datatype Plan = Plan(
    file: Queue, counters: Counters, planned: map<FollowKey, AuditTask>, newVerify: nat, results: seq<PlanResult>)

  datatype Round = Round(plan: Plan, error: Option<QueueError>)

  predicate Taken(m: map<FollowKey, AuditTask>, key: FollowKey, id: string) {
    key in m && m[key].id != id
  }

  // Why the budgets keep a task out, if they do.
  function Refused(c: Context, p: Plan, t: AuditTask): Option<PlanOutcome> {
    match t.taskType
    case VerifyClaim =>
      if p.newVerify >= c.limits.verifyPerRound || p.counters.verify >= c.limits.verifyPerAudit then Some(Deferred)
      else if t.target.kind.ObservationTarget?
          && Of(p.counters.verifyBy, t.target.value) >= c.limits.verifyPerObservation
      then Some(NearDuplicate)
      else None
    case ComposeIssue =>
      if p.counters.compose >= c.limits.composePerAudit
         || Of(p.counters.composeBy, SourceKey(c.obs, t)) >= c.limits.composePerSource
      then Some(Deferred)
      else None
    case _ => None
  }

  function Note(p: Plan, outcome: PlanOutcome, t: AuditTask): Plan {
    p.(results := p.results + [PlanResult(outcome, t)])
  }

  // What the queue's answer changes.
  function Recorded(c: Context, p: Plan, file: Queue, t: AuditTask, answer: EnqueueResult): Plan {
    var key := FollowUpKey(c.obs, t);
    if answer.outcome.Duplicate?
    then Note(p.(file := file, planned := p.planned[key := answer.task]), PlanDuplicate, answer.task)
    else
      Note(p.(file := file, planned := p.planned[key := answer.task], counters := Charge(c.obs, p.counters, t),
              newVerify := p.newVerify + (if t.taskType.VerifyClaim? then 1 else 0)), PlanEnqueued, answer.task)
  }

  function PlanOne(c: Context, p: Plan, t: AuditTask): Round {
    var key := FollowUpKey(c.obs, t);
    if Taken(c.existing, key, t.id) || Taken(p.planned, key, t.id) then Round(Note(p, NearDuplicate, t), None)
    else
      match Refused(c, p, t)
      case Some(outcome) => Round(Note(p, outcome, t), None)
      case None =>
        match EnqueueResults(p.file, [t])
        case Failure(error) => Round(p, Some(error))
        case Success(rs) =>
          if rs == [] then Round(p, None) else Round(Recorded(c, p, AfterEnqueue(p.file, [t]), t, rs[0]), None)
  }

  function PlanAll(c: Context, p: Plan, tasks: seq<AuditTask>): Round
    decreases |tasks|
  {
    if tasks == [] then Round(p, None)
    else
      var r := PlanOne(c, p, tasks[0]);
      if r.error.Some? then r else PlanAll(c, r.plan, tasks[1..])
  }

  /******* The round *******/

  ghost function Start(obs: Observations, limits: Limits, file: Queue, q: Queue, auditId: string): (Context, Plan) {
    var existing := Listing(q, Filter(Some(auditId), None, None));
    (Context(obs, limits, FirstByKey(obs, existing)), Plan(file, ChargeAll(obs, existing), map[], 0, []))
  }

  ghost function PlanRound(obs: Observations, limits: Limits, file: Queue, auditId: string,
      tasks: seq<AuditTask>): Round {
    match Load(file)
    case None => Round(Plan(file, Counters(0, map[], 0, map[]), map[], 0, []), Some(Unreadable))
    case Some(q) =>
      var (c, p) := Start(obs, limits, file, q, auditId);
      PlanAll(c, p, SortBy(tasks, ByKey()))
  }

  // One pass of the loop body, with the queue store doing the enqueuing.
  method ConsiderTask(store: TaskQueueStore, c: Context, p: Plan, t: AuditTask) returns (r: Round)
    requires p.file == store.file
    modifies store
    ensures r == PlanOne(c, p, t) && store.file == r.plan.file
  {
    hide FollowUpKey, Charge, AfterEnqueue, EnqueueResults, Refused;
    var key := FollowUpKey(c.obs, t);
    if Taken(c.existing, key, t.id) || Taken(p.planned, key, t.id) {
      return Round(Note(p, NearDuplicate, t), None);
    }
    var refused := Refused(c, p, t);
    if refused.Some? {
      return Round(Note(p, refused.value, t), None);
    }
    var answers := store.EnqueueMany([t]);
    FailedEnqueueWritesNothing(p.file, [t]);
    OneAnswer(p.file, t);
    if answers.Failure? {
      return Round(p, Some(answers.error));
    }
    return Round(Recorded(c, p, store.file, t, answers.value[0]), None);
  }

  lemma FailedEnqueueWritesNothing(file: Queue, tasks: seq<AuditTask>)
    ensures EnqueueResults(file, tasks).Failure? ==> AfterEnqueue(file, tasks) == file
  {
  }

  lemma OneAnswer(file: Queue, t: AuditTask)
    ensures EnqueueResults(file, [t]).Success? ==> |EnqueueResults(file, [t]).value| == 1
  {
    hide Load, OfferAll, SortBy;
    if Load(file).Some? {
      OneOffer(Batch(Load(file).value, []), t);
    }
  }

  lemma OneOffer(b: Batch, t: AuditTask)
    ensures OfferAll(b, SortBy([t], ByKey())) == Offer(b, t)
    ensures Offer(b, t).Success? ==> |Offer(b, t).value.results| == |b.results| + 1
  {
    hide KeyOf, TaskKey, SortBy;
    SortFacts([t], ByKey());
    var s := SortBy([t], ByKey());
    assert s[0] in multiset(s);
    assert s == [t] && s[1..] == [];
  }

  method EnqueueFollowUpCandidates(
      store: TaskQueueStore, obs: Observations, limits: Limits, auditId: string, tasks: seq<AuditTask>)
    returns (r: Result<seq<PlanResult>, QueueError>)
    modifies store
    ensures var round := PlanRound(obs, limits, old(store.file), auditId, tasks);
            && store.file == round.plan.file
            && r == if round.error.Some? then Failure(round.error.value) else Success(round.plan.results)
  {
    hide PlanOne, FirstByKey, ChargeAll, Listing, SortBy, ByKey, Load;
    var q := Load(store.file);
    if q.None? {
      return Failure(Unreadable);
    }
    var existing := ListTasks(q.value, Filter(Some(auditId), None, None));
    var index := IndexByKey(obs, existing);
    var verify, verifyBy := CountVerifyClaims(obs, existing);
    var compose, composeBy := CountComposeIssues(obs, existing);
    var counters := Counters(verify, verifyBy, compose, composeBy);
    var c := Context(obs, limits, index);
    var p := Plan(store.file, counters, map[], 0, []);
    var sorted := SortBy(tasks, ByKey());
    ghost var start := p;
    var i := 0;
    while i < |sorted|
      invariant 0 <= i <= |sorted| && p.file == store.file
      invariant PlanAll(c, start, sorted) == PlanAll(c, p, sorted[i..])
    {
      assert sorted[i..][0] == sorted[i] && sorted[i..][1..] == sorted[i + 1..];
      var next := ConsiderTask(store, c, p, sorted[i]);
      if next.error.Some? {
        return Failure(next.error.value);
      }
      p := next.plan;
      i := i + 1;
    }
    return Success(p.results);
  }
}
