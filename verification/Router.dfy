/** Routing accepted candidates into verification tasks, guardrail by guardrail. */
module Router {
  import opened Wrappers
  import opened Ordering
  import opened TargetPaths
  import opened TaskQueue
  import opened Events
  import Text

  datatype RoutingPolicy = RoutingPolicy(
    maxCandidates: int, maxVerify: int, maxScans: int, maxPerCandidate: int,
    deferLowConfidence: bool, suppressDuplicates: bool,
    routeRisk: bool, routePolicy: bool, routeCrossFile: bool, routeTargets: bool)

  datatype RouteOutcome =
    | Queued | AlreadyQueued
    | LowConfidence | BudgetSpent | AuditLimit | RunLimit | TypeDisabled
    | AlreadyProcessed | InvalidType | NoEvidenceRefs | NoSnapshotRef

  datatype RouteResult = RouteResult(outcome: RouteOutcome, task: AuditTask)

  // What one run is given.
  datatype Run = Run(idOf: IdMaker, policy: RoutingPolicy, auditId: string, snapshot: Option<string>, now: string)

  // What it has done so far.
  datatype Progress = Progress(
    results: seq<RouteResult>, routed: seq<AuditTask>, counts: map<string, nat>, files: set<string>, verify: nat,
        seen: nat)

  /******* Reading a candidate *******/

  function PrimaryFile(refs: seq<EvidenceRef>): string {
    if refs == [] then ""
    else if Text.Strip(refs[0].filePath.GetOr("")) != "" then Normal(PathTarget, refs[0].filePath.GetOr(""))
    else PrimaryFile(refs[1..])
  }

  function EvidenceSnapshot(refs: seq<EvidenceRef>): Option<string> {
    if refs == [] then None
    else if Text.Strip(refs[0].snapshotRef.GetOr("")) != "" then refs[0].snapshotRef
    else EvidenceSnapshot(refs[1..])
  }

  function CandidateSnapshot(run: Run, d: CandidateData): Option<string> {
    var own := EvidenceSnapshot(d.evidenceRefs);
    if own.Some? then own else if run.snapshot.GetOr("") != "" then run.snapshot else None
  }

  function Confidence(d: CandidateData): string {
    if "confidence" in d.rest then d.rest["confidence"] else ""
  }

  predicate TypeEnabled(policy: RoutingPolicy, kind: CandidateKind) {
    match kind
    case Risk(_) => policy.routeRisk
    case Policy(_) => policy.routePolicy
    case CrossFile(_) => policy.routeCrossFile
    case VerificationTarget => policy.routeTargets
    case OtherKind(_) => false
  }

  // Python's `files[:n]`.
  function FirstFiles(files: seq<string>, n: int): seq<string> {
    var end := if n < 0 then |files| + n else n;
    if end < 0 then [] else if end > |files| then files else files[..end]
  }

  /******* Tasks for one candidate *******/

  datatype Made = Made(tasks: seq<AuditTask>, files: set<string>)

  function PathTask(run: Run, taskType: TaskType, file: string, snapshot: string): Option<AuditTask> {
    match MakeTarget(PathTarget, file, snapshot, None)
    case None => None
    case Some(target) => Some(CreateTask(run.idOf, run.auditId, taskType, target, run.now))
  }

  function VerifyFile(run: Run, file: string, snapshot: string, files: set<string>): Option<Made> {
    if file == "" || (run.policy.suppressDuplicates && file in files) then Some(Made([], files))
    else
      match PathTask(run, VerifyClaim, file, snapshot)
      case None => None
      case Some(t) => Some(Made([t], files + {file}))
  }

  predicate Skipped(run: Run, file: string, files: set<string>) {
    Text.Strip(file) == "" || (run.policy.suppressDuplicates && Normal(PathTarget, file) in files)
  }

  function ScanFiles(run: Run, names: seq<string>, snapshot: string, m: Made): Option<Made>
    decreases |names|
  {
    if names == [] then Some(m)
    else if Skipped(run, names[0], m.files) then ScanFiles(run, names[1..], snapshot, m)
    else
      match PathTask(run, ModuleScan, Normal(PathTarget, names[0]), snapshot)
      case None => None
      case Some(t) => ScanFiles(run, names[1..], snapshot,
          Made(m.tasks + [t], m.files + {Normal(PathTarget, names[0])}))
  }

  method ScanInvolvedFiles(run: Run, names: seq<string>, snapshot: string, files: set<string>) returns (r: Option<Made>)
    ensures r == ScanFiles(run, names, snapshot, Made([], files))
  {
    hide PathTask, Normal, Text.Strip;
    var tasks: seq<AuditTask>, seen := [], files;
    var i := 0;
    while i < |names|
      invariant 0 <= i <= |names|
      invariant ScanFiles(run, names, snapshot, Made([], files))
                == ScanFiles(run, names[i..], snapshot, Made(tasks, seen))
    {
      assert names[i..][0] == names[i] && names[i..][1..] == names[i + 1..];
      if Text.Strip(names[i]) != "" {
        var file := Normal(PathTarget, names[i]);
        if !(run.policy.suppressDuplicates && file in seen) {
          var task := PathTask(run, ModuleScan, file, snapshot);
          if task.None? {
            return None;
          }
          seen := seen + {file};
          tasks := tasks + [task.value];
        }
      }
      i := i + 1;
    }
    return Some(Made(tasks, seen));
  }

  function VerifyTarget(run: Run, d: CandidateData, snapshot: string, files: set<string>): Option<Made> {
    if d.target.None? || d.target.value.targetType != "observation" || d.target.value.targetId == ""
    then Some(Made([], files))
    else
      match MakeTarget(ObservationTarget, d.target.value.targetId, snapshot, None)
      case None => None
      case Some(target) => Some(Made([CreateTask(run.idOf, run.auditId, VerifyClaim, target, run.now)], files))
  }

  // None when a target cannot be constructed, which raises.
  function MakeTasks(run: Run, d: CandidateData, snapshot: string, files: set<string>): Option<Made> {
    match d.kind
    case Risk(_) => VerifyFile(run, PrimaryFile(d.evidenceRefs), snapshot, files)
    case Policy(_) => VerifyFile(run, PrimaryFile(d.evidenceRefs), snapshot, files)
    case CrossFile(_) => ScanFiles(run, FirstFiles(d.filePaths.GetOr([]), run.policy.maxScans), snapshot,
        Made([], files))
    case VerificationTarget => VerifyTarget(run, d, snapshot, files)
    case OtherKind(_) => Some(Made([], files))
  }

  method RouteByCandidateType(run: Run, d: CandidateData, snapshot: string,
      files: set<string>) returns (r: Option<Made>)
    ensures r == MakeTasks(run, d, snapshot, files)
  {
    hide VerifyFile, ScanFiles, VerifyTarget, PrimaryFile, FirstFiles;
    match d.kind
    case Risk(_) => r := VerifyFile(run, PrimaryFile(d.evidenceRefs), snapshot, files);
    case Policy(_) => r := VerifyFile(run, PrimaryFile(d.evidenceRefs), snapshot, files);
    case CrossFile(_) => r := ScanInvolvedFiles(run, FirstFiles(d.filePaths.GetOr([]), run.policy.maxScans),
        snapshot, files);
    case VerificationTarget => r := VerifyTarget(run, d, snapshot, files);
    case OtherKind(_) => r := Some(Made([], files));
  }

  /******* The limits *******/

  // The tasks of one candidate as they pass the per-candidate and the per-run limit.
  datatype Admission = Admission(results: seq<RouteResult>, routed: seq<AuditTask>, count: nat, verify: nat)

  function Admit(policy: RoutingPolicy, a: Admission, tasks: seq<AuditTask>): Admission
    decreases |tasks|
  {
    if tasks == [] then a
    else if a.count >= policy.maxPerCandidate then a.(results := a.results + [RouteResult(BudgetSpent, tasks[0])])
    else if tasks[0].taskType.VerifyClaim? && a.verify >= policy.maxVerify then
      Admit(policy, a.(results := a.results + [RouteResult(RunLimit, tasks[0])]), tasks[1..])
    else
      Admit(policy, Admission(a.results, a.routed + [tasks[0]], a.count + 1,
                              a.verify + if tasks[0].taskType.VerifyClaim? then 1 else 0), tasks[1..])
  }

  method AdmitTasks(policy: RoutingPolicy, start: Admission, tasks: seq<AuditTask>) returns (a: Admission)
    ensures a == Admit(policy, start, tasks)
  {
    a := start;
    var i := 0;
    while i < |tasks|
      invariant 0 <= i <= |tasks|
      invariant Admit(policy, start, tasks) == Admit(policy, a, tasks[i..])
    {
      assert tasks[i..][0] == tasks[i] && tasks[i..][1..] == tasks[i + 1..];
      if a.count >= policy.maxPerCandidate {
        a := a.(results := a.results + [RouteResult(BudgetSpent, tasks[i])]);
        return;
      }
      if tasks[i].taskType.VerifyClaim? {
        if a.verify >= policy.maxVerify {
          a := a.(results := a.results + [RouteResult(RunLimit, tasks[i])]);
          i := i + 1;
          continue;
        }
        a := a.(verify := a.verify + 1);
      }
      a := a.(routed := a.routed + [tasks[i]], count := a.count + 1);
      i := i + 1;
    }
  }

  /******* One candidate *******/

  function Placeholder(run: Run, id: string): Option<AuditTask> {
    match MakeTarget(CandidateTarget, id, run.snapshot.GetOr(""), None)
    case None => None
    case Some(target) =>
      Some(AuditTask("task_placeholder_" + id, run.auditId, VerifyClaim, target, run.now, Pending, 0, None, run.now))
  }

  // The guardrails before any task is made, in order.
  function Turned(run: Run, p: Progress, c: Payload, d: CandidateData): Option<RouteOutcome> {
    if p.seen + 1 > run.policy.maxCandidates then Some(AuditLimit)
    else if c.status != "proposed" then Some(AlreadyProcessed)
    else if d.kind.OtherKind? then Some(InvalidType)
    else if Confidence(d) !in {"high", "medium", "low"} then Some(InvalidType)
    else if Confidence(d) == "low" && run.policy.deferLowConfidence then Some(LowConfidence)
    else if !TypeEnabled(run.policy, d.kind) then Some(TypeDisabled)
    else if PrimaryFile(d.evidenceRefs) == "" && (d.kind.Risk? || d.kind.Policy?) then Some(NoEvidenceRefs)
    else if p.verify >= run.policy.maxVerify then Some(RunLimit)
    else if CandidateSnapshot(run, d).None? then Some(NoSnapshotRef)
    else None
  }

  // Nothing when a task cannot be constructed, which ends the run with an error.
  function RouteOne(run: Run, p: Progress, id: string, c: Payload): Option<Progress> {
    if c.auditId != Some(run.auditId) || !c.body.CandidateBody? then Some(p)
    else
      var d := c.body.candidate;
      match Turned(run, p, c, d)
      case Some(outcome) =>
        (match Placeholder(run, id)
         case None => None
         case Some(t) => Some(p.(results := p.results + [RouteResult(outcome, t)], seen := p.seen + 1)))
      case None =>
        match MakeTasks(run, d, CandidateSnapshot(run, d).value, p.files)
        case None => None
        case Some(m) =>
          var a := Admit(run.policy, Admission(p.results, p.routed, 0, p.verify), m.tasks);
          Some(Progress(a.results, a.routed, p.counts[id := a.count], m.files, a.verify, p.seen + 1))
  }

  method RouteCandidate(run: Run, p: Progress, id: string, c: Payload) returns (r: Option<Progress>)
    ensures r == RouteOne(run, p, id, c)
  {
    hide Turned, Placeholder, MakeTasks, Admit, CandidateSnapshot;
    if c.auditId != Some(run.auditId) || !c.body.CandidateBody? {
      return Some(p);
    }
    var d := c.body.candidate;
    var turned := Turned(run, p, c, d);
    if turned.Some? {
      var t := Placeholder(run, id);
      return if t.None? then None
             else Some(p.(results := p.results + [RouteResult(turned.value, t.value)], seen := p.seen + 1));
    }
    assert CandidateSnapshot(run, d).Some? by {
      TurnedWithoutSnapshot(run, p, c, d);
    }
    var made := RouteByCandidateType(run, d, CandidateSnapshot(run, d).value, p.files);
    if made.None? {
      return None;
    }
    var a := AdmitTasks(run.policy, Admission(p.results, p.routed, 0, p.verify), made.value.tasks);
    return Some(Progress(a.results, a.routed, p.counts[id := a.count], made.value.files, a.verify, p.seen + 1));
  }

  lemma TurnedWithoutSnapshot(run: Run, p: Progress, c: Payload, d: CandidateData)
    ensures Turned(run, p, c, d).None? ==> CandidateSnapshot(run, d).Some?
  {
  }

  /******* The run *******/

  function RouteAll(run: Run, p: Progress, candidates: map<string, Payload>, ids: seq<string>): Option<Progress>
    requires forall id :: id in ids ==> id in candidates
    decreases |ids|
  {
    if ids == [] then Some(p)
    else
      match RouteOne(run, p, ids[0], candidates[ids[0]])
      case None => None
      case Some(next) => RouteAll(run, next, candidates, ids[1..])
  }

  ghost function StartVerify(q: Queue, auditId: string): nat {
    CountVerify(Listing(q, Filter(Some(auditId), None, Some(Pending))))
  }

  function CountVerify(tasks: seq<AuditTask>): nat {
    if tasks == [] then 0 else (if tasks[0].taskType.VerifyClaim? then 1 else 0) + CountVerify(tasks[1..])
  }

  ghost function Route(run: Run, q: Queue, candidates: map<string, Payload>): Option<Progress> {
    RouteAll(run, Progress([], [], map[], {}, StartVerify(q, run.auditId), 0), candidates, Order(candidates.Keys))
  }

  function Outcome(e: EnqueueOutcome): RouteOutcome {
    if e.Enqueued? then Queued else AlreadyQueued
  }

  function AsRoutes(rs: seq<EnqueueResult>): seq<RouteResult> {
    seq(|rs|, i requires 0 <= i < |rs| => RouteResult(Outcome(rs[i].outcome), rs[i].task))
  }

  // The queue after a run: untouched when the run fails or routes nothing.
  ghost function AfterRouting(run: Run, file: Queue, candidates: map<string, Payload>): Queue {
    match Load(file)
    case None => file
    case Some(q) =>
      match Route(run, q, candidates)
      case None => file
      case Some(p) => if p.routed == [] then file else AfterEnqueue(file, p.routed)
  }

  ghost function RoutingResult(run: Run, file: Queue, candidates: map<string, Payload>): Result<seq<RouteResult>,
      QueueError> {
    match Load(file)
    case None => Failure(Unreadable)
    case Some(q) =>
      match Route(run, q, candidates)
      case None => Failure(BadTarget(run.auditId))
      case Some(p) =>
        if p.routed == [] then Success(p.results)
        else
          match EnqueueResults(file, p.routed)
          case Failure(error) => Failure(error)
          case Success(rs) => Success(p.results + AsRoutes(rs))
  }

  method RouteInOrder(run: Run, q: Queue, candidates: map<string, Payload>) returns (r: Option<Progress>)
    ensures r == Route(run, q, candidates)
  {
    hide RouteOne, RouteAll, Listing, Order;
    var pending := ListTasks(q, Filter(Some(run.auditId), None, Some(Pending)));
    var ids := SortedIds(candidates.Keys);
    var p := Progress([], [], map[], {}, CountVerify(pending), 0);
    ghost var start := p;
    var i := 0;
    while i < |ids|
      invariant 0 <= i <= |ids|
      invariant RouteAll(run, start, candidates, ids) == RouteAll(run, p, candidates, ids[i..])
    {
      NextRouted(run, p, candidates, ids, i);
      var next := RouteCandidate(run, p, ids[i], candidates[ids[i]]);
      if next.None? {
        return None;
      }
      p := next.value;
      i := i + 1;
    }
    AllRouted(run, p, candidates, ids[i..]);
    return Some(p);
  }

  lemma NextRouted(run: Run, p: Progress, candidates: map<string, Payload>, ids: seq<string>, i: nat)
    requires i < |ids| && forall id :: id in ids ==> id in candidates
    ensures RouteAll(run, p, candidates, ids[i..])
         == match RouteOne(run, p, ids[i], candidates[ids[i]])
            case None => None
            case Some(next) => RouteAll(run, next, candidates, ids[i + 1..])
  {
    hide RouteOne;
    assert ids[i..][0] == ids[i] && ids[i..][1..] == ids[i + 1..];
  }

  lemma AllRouted(run: Run, p: Progress, candidates: map<string, Payload>, ids: seq<string>)
    requires ids == []
    ensures RouteAll(run, p, candidates, ids) == Some(p)
  {
  }

  method RouteCandidatesToVerification(store: TaskQueueStore, run: Run, candidates: map<string, Payload>)
    returns (r: Result<seq<RouteResult>, QueueError>)
    modifies store
    ensures store.file == AfterRouting(run, old(store.file), candidates)
    ensures r == RoutingResult(run, old(store.file), candidates)
  {
    hide Load, Route, AfterEnqueue, EnqueueResults;
    var q := Load(store.file);
    if q.None? {
      return Failure(Unreadable);
    }
    var p := RouteInOrder(run, q.value, candidates);
    if p.None? {
      return Failure(BadTarget(run.auditId));
    }
    if p.value.routed == [] {
      return Success(p.value.results);
    }
    var answers := store.EnqueueMany(p.value.routed);
    return if answers.Failure? then Failure(answers.error) else Success(p.value.results + AsRoutes(answers.value));
  }
}
