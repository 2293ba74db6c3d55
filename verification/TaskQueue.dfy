/** The persistent task queue: what is loaded, how tasks are enqueued, claimed and moved on, and the
    choice of what to execute next. */
module TaskQueue {
  import opened Wrappers
  import opened Ordering
  import opened TargetPaths
  import Events
  import Text

  datatype TaskType = ModuleScan | VerifyClaim | ComposeIssue | GenerateCandidates

  datatype TaskStatus = Pending | Running | Done | Failed

  datatype Target = Target(kind: TargetKind, value: string, snapshotRef: string, lines: Option<Events.LineRange>)

  datatype AuditTask = AuditTask(
    id: string, auditId: string, taskType: TaskType, target: Target, createdAt: string,
    status: TaskStatus, attempts: nat, lastError: Option<string>, updatedAt: string)

  type Queue = map<string, AuditTask>

  datatype QueueError =
    | Unreadable
    | MissingTask(id: string)
    | NotAllowed(id: string, from: TaskStatus, to: TaskStatus)
    | BlankError
    | IdCollision(id: string)
    | NoSnapshot(id: string)
    | BadTarget(id: string)

  datatype EnqueueOutcome = Enqueued | Duplicate

  datatype EnqueueResult = EnqueueResult(outcome: EnqueueOutcome, task: AuditTask)

  /******* Targets *******/

  predicate ValidLines(lines: Option<Events.LineRange>) {
    lines.Some? ==> 1 <= lines.value.start <= lines.value.end
  }

  function MakeTarget(kind: TargetKind, value: string, snapshotRef: string,
      lines: Option<Events.LineRange>): Option<Target> {
    if Text.Strip(Normal(kind, value)) == "" || Text.Strip(snapshotRef) == "" || !ValidLines(lines) then None
    else Some(Target(kind, Normal(kind, value), Text.Strip(snapshotRef), lines))
  }

  // A target goes through its constructor again whenever the queue is loaded.
  function ReloadTarget(t: Target): Option<Target> {
    MakeTarget(t.kind, t.value, t.snapshotRef, t.lines)
  }

  predicate Stable(t: Target) {
    ReloadTarget(t) == Some(t)
  }

  // A freshly made target survives a reload exactly when normalising it exposed no whitespace.
  lemma MadeTargetIsStableIff(kind: TargetKind, value: string, snapshotRef: string, lines: Option<Events.LineRange>)
    requires MakeTarget(kind, value, snapshotRef, lines).Some?
    ensures Stable(MakeTarget(kind, value, snapshotRef, lines).value)
            <==> !IsPathLike(kind) || !ExposesSpace(Clean(value))
  {
    hide Normal, ExposesSpace, Clean, Text.Strip;
    NormalIdempotentIff(kind, value);
    Text.StripTrims(snapshotRef);
    Text.StripTrims(Text.Strip(snapshotRef));
  }

  // The id of a task is a digest of what it is.
  type IdMaker = (string, TaskType, Target) -> string

  function CreateTask(idOf: IdMaker, auditId: string, taskType: TaskType, target: Target, now: string): AuditTask {
    AuditTask(idOf(auditId, taskType, target), auditId, taskType, target, now, Pending, 0, None, now)
  }

  /******* Loading *******/

  ghost predicate Loadable(file: Queue) {
    forall id :: id in file ==> file[id].id == id && ReloadTarget(file[id].target).Some?
  }

  function Reload(t: AuditTask): AuditTask
    requires ReloadTarget(t.target).Some?
  {
    t.(target := ReloadTarget(t.target).value)
  }

  // Nothing when an entry cannot be read.
  function Load(file: Queue): Option<Queue> {
    hide ReloadTarget;
    if forall id :: id in file ==> file[id].id == id && ReloadTarget(file[id].target).Some?
    then Some(map id | id in file :: Reload(file[id])) else None
  }

  lemma LoadFacts(file: Queue)
    ensures Load(file).Some? <==> Loadable(file)
    ensures Load(file).Some? ==> Load(file).value.Keys == file.Keys
    ensures Load(file).Some? ==> forall id :: id in file ==> Load(file).value[id] == Reload(file[id])
  {
    hide ReloadTarget, Reload;
  }

  ghost predicate Settled(file: Queue) {
    forall id :: id in file ==> file[id].id == id && Stable(file[id].target)
  }

  // Writing the queue and loading it returns the same tasks exactly when every target is stable
  // (and the entries are keyed by their ids, as the store keys them).
  lemma WriteThenLoadIff(file: Queue)
    ensures Load(file) == Some(file) <==> Settled(file)
  {
    hide ReloadTarget, Load;
    LoadFacts(file);
    if Load(file) == Some(file) {
      forall id | id in file ensures file[id].id == id && Stable(file[id].target) {
        assert Load(file).value[id] == file[id];
      }
    }
    if Settled(file) {
      forall id | id in file ensures Reload(file[id]) == file[id] {
        assert Stable(file[id].target);
      }
      var q := Load(file).value;
      assert forall id :: id in q ==> q[id] == file[id];
      assert q == file;
    }
  }

  /******* Listing *******/

  function Priority(t: TaskType): nat {
    match t
    case VerifyClaim => 0
    case ComposeIssue => 1
    case GenerateCandidates => 2
    case ModuleScan => 3
  }

  function KindName(k: TargetKind): string {
    match k
    case PathTarget => "path"
    case ModuleTarget => "module"
    case ObservationTarget => "observation"
    case HypothesisTarget => "hypothesis"
    case IssueTarget => "issue"
    case QuestionTarget => "question"
    case ContradictionTarget => "contradiction"
    case AuditTarget => "audit"
    case CandidateTarget => "candidate"
  }

  function LineKey(lines: Option<Events.LineRange>): (int, int) {
    if lines.None? then (0, 0) else (lines.value.start, lines.value.end)
  }

  function TaskKey(t: AuditTask): Key {
    [Priority(t.taskType)] + (Field(t.createdAt) + (Field(KindName(t.target.kind))
      + (Field(Normal(t.target.kind, t.target.value)) + (Field(t.target.snapshotRef)
      + ([LineKey(t.target.lines).0, LineKey(t.target.lines).1] + Field(t.id))))))
  }

  function ByKey(): AuditTask -> Key {
    t => TaskKey(t)
  }

  datatype SemanticKey = SemanticKey(
    auditId: string, taskType: TaskType, kind: TargetKind, value: string, snapshotRef: string, lines: (int, int))

  function KeyOf(t: AuditTask): SemanticKey {
    SemanticKey(t.auditId, t.taskType, t.target.kind, Normal(t.target.kind, t.target.value), t.target.snapshotRef,
                LineKey(t.target.lines))
  }

  datatype Filter = Filter(auditId: Option<string>, taskType: Option<TaskType>, status: Option<TaskStatus>) {
    predicate Passes(t: AuditTask) {
      && (auditId.Some? ==> t.auditId == auditId.value)
      && (taskType.Some? ==> t.taskType == taskType.value)
      && (status.Some? ==> t.status == status.value)
    }
  }

  function Selected(q: Queue, f: Filter): string -> Option<AuditTask> {
    id => if id in q && f.Passes(q[id]) then Some(q[id]) else None
  }

  ghost function Listing(q: Queue, f: Filter): seq<AuditTask> {
    SortBy(Collect(Order(q.Keys), Selected(q, f)), ByKey())
  }

  method ListTasks(q: Queue, f: Filter) returns (tasks: seq<AuditTask>)
    ensures tasks == Listing(q, f)
  {
    var ids := SortedIds(q.Keys);
    tasks := SortBy(Collect(ids, Selected(q, f)), ByKey());
  }

  // A listing holds exactly the tasks that pass, the first of them least in the priority order.
  lemma ListingFacts(q: Queue, f: Filter)
    ensures forall t :: t in Listing(q, f) <==> exists id :: id in q && q[id] == t && f.Passes(t)
    ensures forall t :: t in Listing(q, f) ==> Leq(TaskKey(Listing(q, f)[0]), TaskKey(t))
  {
    hide SortBy, Collect, TaskKey, Order, Filter.Passes;
    var found := Collect(Order(q.Keys), Selected(q, f));
    forall t ensures t in Listing(q, f) <==> exists id :: id in q && q[id] == t && f.Passes(t) {
      SortMembers(found, ByKey(), t);
      CollectMembers(Order(q.Keys), Selected(q, f), t);
      if exists id :: id in q && q[id] == t && f.Passes(t) {
        var id :| id in q && q[id] == t && f.Passes(t);
        assert id in Order(q.Keys) && Selected(q, f)(id) == Some(t);
      }
    }
    SortFacts(found, ByKey());
    forall t | t in Listing(q, f) ensures Leq(TaskKey(Listing(q, f)[0]), TaskKey(t)) {
      HeadLeast(Listing(q, f), ByKey(), t);
    }
  }

  /******* Moving a task on *******/

  function Allowed(from: TaskStatus): set<TaskStatus> {
    match from
    case Pending => {Running, Failed}
    case Running => {Done, Failed}
    case Failed => {Pending}
    case Done => {}
  }

  // A task after a permitted change of status.
  function Moved(t: AuditTask, to: TaskStatus, error: Option<string>, now: string): AuditTask {
    t.(status := to,
       attempts := if to.Running? then t.attempts + 1 else t.attempts,
       lastError := if to.Failed?
           then Some(Text.Strip(error.GetOr(""))) else if to.Running? || to.Done? then None else t.lastError,
       updatedAt := now)
  }

  function MovedIn(q: Queue, id: string, to: TaskStatus, error: Option<string>, now: string): Result<AuditTask,
      QueueError> {
    if id !in q then Failure(MissingTask(id))
    else if to !in Allowed(q[id].status) then Failure(NotAllowed(id, q[id].status, to))
    else if to.Failed? && Text.Strip(error.GetOr("")) == "" then Failure(BlankError)
    else Success(Moved(q[id], to, error, now))
  }

  function TransitionResult(file: Queue, id: string, to: TaskStatus, error: Option<string>,
      now: string): Result<AuditTask, QueueError> {
    match Load(file)
    case None => Failure(Unreadable)
    case Some(q) => MovedIn(q, id, to, error, now)
  }

  // A refused change leaves the file as it was.
  function AfterTransition(file: Queue, id: string, to: TaskStatus, error: Option<string>, now: string): Queue {
    match Load(file)
    case None => file
    case Some(q) =>
      match MovedIn(q, id, to, error, now)
      case Failure(_) => file
      case Success(t) => q[id := t]
  }

  /******* Claiming *******/

  ghost function ClaimResult(file: Queue, auditId: Option<string>, taskType: Option<TaskType>,
      now: string): Result<Option<AuditTask>, QueueError> {
    match Load(file)
    case None => Failure(Unreadable)
    case Some(q) =>
      var pending := Listing(q, Filter(auditId, taskType, Some(Pending)));
      if pending == [] then Success(None)
      else
        match TransitionResult(file, pending[0].id, Running, None, now)
        case Failure(error) => Failure(error)
        case Success(t) => Success(Some(t))
  }

  ghost function AfterClaim(file: Queue, auditId: Option<string>, taskType: Option<TaskType>, now: string): Queue {
    match Load(file)
    case None => file
    case Some(q) =>
      var pending := Listing(q, Filter(auditId, taskType, Some(Pending)));
      if pending == [] then file else AfterTransition(file, pending[0].id, Running, None, now)
  }

  ghost function SelectResult(file: Queue, auditId: string, now: string): Result<Option<AuditTask>, QueueError> {
    match Load(file)
    case None => Failure(Unreadable)
    case Some(q) =>
      var running := Listing(q, Filter(Some(auditId), None, Some(Running)));
      if running != [] then Success(Some(running[0])) else ClaimResult(file, Some(auditId), None, now)
  }

  ghost function AfterSelect(file: Queue, auditId: string, now: string): Queue {
    match Load(file)
    case None => file
    case Some(q) =>
      var running := Listing(q, Filter(Some(auditId), None, Some(Running)));
      if running != [] then file else AfterClaim(file, Some(auditId), None, now)
  }

  /******* Enqueuing *******/

  datatype Batch = Batch(stored: Queue, results: seq<EnqueueResult>)

  function Offer(b: Batch, t: AuditTask): Result<Batch, QueueError> {
    if t.id !in b.stored then Success(Batch(b.stored[t.id := t], b.results + [EnqueueResult(Enqueued, t)]))
    else if KeyOf(b.stored[t.id]) != KeyOf(t) then Failure(IdCollision(t.id))
    else Success(b.(results := b.results + [EnqueueResult(Duplicate, b.stored[t.id])]))
  }

  function OfferAll(b: Batch, tasks: seq<AuditTask>): Result<Batch, QueueError>
    decreases |tasks|
  {
    if tasks == [] then Success(b)
    else
      match Offer(b, tasks[0])
      case Failure(error) => Failure(error)
      case Success(next) => OfferAll(next, tasks[1..])
  }

  function EnqueueBatch(file: Queue, tasks: seq<AuditTask>): Result<Batch, QueueError> {
    match Load(file)
    case None => Failure(Unreadable)
    case Some(q) => OfferAll(Batch(q, []), SortBy(tasks, ByKey()))
  }

  function EnqueueResults(file: Queue, tasks: seq<AuditTask>): Result<seq<EnqueueResult>, QueueError> {
    match EnqueueBatch(file, tasks)
    case Failure(error) => Failure(error)
    case Success(b) => Success(b.results)
  }

  // The file is written only when a task was added.
  function AfterEnqueue(file: Queue, tasks: seq<AuditTask>): Queue {
    match EnqueueBatch(file, tasks)
    case Failure(_) => file
    case Success(b) => if exists r :: r in b.results && r.outcome.Enqueued? then b.stored else file
  }

  method OfferSorted(q: Queue, pending: seq<AuditTask>) returns (r: Result<Batch, QueueError>, changed: bool)
    ensures r == OfferAll(Batch(q, []), pending)
    ensures r.Success? ==> (changed <==> exists e :: e in r.value.results && e.outcome.Enqueued?)
  {
    hide KeyOf;
    changed := false;
    var b := Batch(q, []);
    var i := 0;
    while i < |pending|
      invariant 0 <= i <= |pending|
      invariant OfferAll(Batch(q, []), pending) == OfferAll(b, pending[i..])
      invariant changed <==> exists e :: e in b.results && e.outcome.Enqueued?
    {
      var task := pending[i];
      assert pending[i..][0] == task && pending[i..][1..] == pending[i + 1..];
      ghost var before := b.results;
      if task.id !in b.stored {
        b := Batch(b.stored[task.id := task], b.results + [EnqueueResult(Enqueued, task)]);
        changed := true;
        assert b.results[|before|].outcome.Enqueued?;
      } else if KeyOf(b.stored[task.id]) != KeyOf(task) {
        return Failure(IdCollision(task.id)), changed;
      } else {
        b := b.(results := b.results + [EnqueueResult(Duplicate, b.stored[task.id])]);
        assert forall e :: e in b.results && e.outcome.Enqueued? ==> e in before;
      }
      i := i + 1;
    }
    r := Success(b);
  }

  /******* The store *******/

  method MoveTask(q: Queue, id: string, to: TaskStatus, error: Option<string>,
      now: string) returns (r: Result<AuditTask, QueueError>)
    ensures r == MovedIn(q, id, to, error, now)
  {
    hide Moved, Text.Strip;
    if id !in q {
      return Failure(MissingTask(id));
    }
    var current := q[id];
    if to !in Allowed(current.status) {
      return Failure(NotAllowed(id, current.status, to));
    }
    if to.Failed? && Text.Strip(error.GetOr("")) == "" {
      return Failure(BlankError);
    }
    return Success(Moved(current, to, error, now));
  }

  class TaskQueueStore {
    var file: Queue

    method EnqueueMany(tasks: seq<AuditTask>) returns (r: Result<seq<EnqueueResult>, QueueError>)
      modifies this
      ensures file == AfterEnqueue(old(file), tasks)
      ensures r == EnqueueResults(old(file), tasks)
    {
      hide OfferAll, SortBy, Load, ByKey;
      var q := Load(file);
      if q.None? {
        return Failure(Unreadable);
      }
      var b, changed := OfferSorted(q.value, SortBy(tasks, ByKey()));
      if b.Failure? {
        return Failure(b.error);
      }
      if changed {
        file := b.value.stored;
      }
      return Success(b.value.results);
    }

    method TransitionTask(id: string, to: TaskStatus, error: Option<string>,
        now: string) returns (r: Result<AuditTask, QueueError>)
      modifies this
      ensures file == AfterTransition(old(file), id, to, error, now)
      ensures r == TransitionResult(old(file), id, to, error, now)
    {
      hide Load, MovedIn;
      var q := Load(file);
      if q.None? {
        return Failure(Unreadable);
      }
      r := MoveTask(q.value, id, to, error, now);
      if r.Success? {
        file := q.value[id := r.value];
      }
    }

    method ClaimNextTask(auditId: Option<string>, taskType: Option<TaskType>, now: string)
      returns (r: Result<Option<AuditTask>, QueueError>)
      modifies this
      ensures file == AfterClaim(old(file), auditId, taskType, now)
      ensures r == ClaimResult(old(file), auditId, taskType, now)
    {
      hide Load, Listing, AfterTransition, TransitionResult;
      var q := Load(file);
      if q.None? {
        return Failure(Unreadable);
      }
      var pending := ListTasks(q.value, Filter(auditId, taskType, Some(Pending)));
      if pending == [] {
        return Success(None);
      }
      var moved := TransitionTask(pending[0].id, Running, None, now);
      return if moved.Failure? then Failure(moved.error) else Success(Some(moved.value));
    }

    // Resume what is running, else claim the next pending task.
    method SelectTaskForExecution(auditId: string, now: string) returns (r: Result<Option<AuditTask>, QueueError>)
      modifies this
      ensures file == AfterSelect(old(file), auditId, now)
      ensures r == SelectResult(old(file), auditId, now)
    {
      hide Load, Listing, AfterClaim, ClaimResult;
      var q := Load(file);
      if q.None? {
        return Failure(Unreadable);
      }
      var running := ListTasks(q.value, Filter(Some(auditId), None, Some(Running)));
      if running != [] {
        return Success(Some(running[0]));
      }
      r := ClaimNextTask(Some(auditId), None, now);
    }
  }
}
