/** When the path tasks of a routing run target pairwise distinct files. Suppression compares names
    that are normalised once; a target is normalised once more. */
module RouterFiles {
  import opened Wrappers
  import opened Ordering
  import opened TargetPaths
  import opened TaskQueue
  import opened Planner
  import opened PlannerSafety
  import opened Events
  import opened Router
  import opened RouterSafety
  import Text

  /******* Files and targets *******/

  ghost predicate PathsDistinct(tasks: seq<AuditTask>) {
    forall i, j :: 0 <= i < j < |tasks| && tasks[i].target.kind.PathTarget? && tasks[j].target.kind.PathTarget? ==>
      tasks[i].target.value != tasks[j].target.value
  }

  // What a file's name becomes as a target.
  function Again(file: string): string {
    Normal(PathTarget, file)
  }

  // No two of these files become the same target.
  ghost predicate Apart(files: set<string>) {
    forall f, g :: f in files && g in files && Again(f) == Again(g) ==> f == g
  }

  // The files that a candidate asks to look at, by their normalised names.
  function FilesOf(run: Run, d: CandidateData): set<string> {
    match d.kind
    case Risk(_) => if PrimaryFile(d.evidenceRefs) == "" then {} else {PrimaryFile(d.evidenceRefs)}
    case Policy(_) => if PrimaryFile(d.evidenceRefs) == "" then {} else {PrimaryFile(d.evidenceRefs)}
    case CrossFile(_) => NamedFiles(FirstFiles(d.filePaths.GetOr([]), run.policy.maxScans))
    case _ => {}
  }

  function NamedFiles(names: seq<string>): set<string> {
    set name | name in names && Text.Strip(name) != "" :: Normal(PathTarget, name)
  }

  predicate Own(run: Run, c: Payload) {
    c.auditId == Some(run.auditId) && c.body.CandidateBody?
  }

  ghost function AllFiles(run: Run, candidates: map<string, Payload>): set<string> {
    set id, f | id in candidates && Own(run, candidates[id]) && f in FilesOf(run, candidates[id].body.candidate) :: f
  }

  // A file name that normalises once and for all.
  predicate StableFile(name: string) {
    Again(Normal(PathTarget, name)) == Normal(PathTarget, name)
  }

  lemma StableFileIff(name: string)
    ensures StableFile(name) <==> !ExposesSpace(Clean(name))
  {
    hide Normal, ExposesSpace;
    NormalIdempotentIff(PathTarget, name);
  }

  /******* The files behind the path tasks *******/

  // The values of the path tasks, in order.
  function PathValues(tasks: seq<AuditTask>): seq<string> {
    if tasks == [] then []
    else
      var t := tasks[|tasks| - 1];
      PathValues(tasks[..|tasks| - 1]) + if t.target.kind.PathTarget? then [t.target.value] else []
  }

  function AgainAll(files: seq<string>): seq<string> {
    seq(|files|, i requires 0 <= i < |files| => Again(files[i]))
  }

  ghost predicate NoRepeats(s: seq<string>) {
    forall i, j :: 0 <= i < j < |s| ==> s[i] != s[j]
  }

  function Elements(s: seq<string>): set<string> {
    set x | x in s
  }

  lemma {:induction false} PathValuesConcat(s: seq<AuditTask>, t: seq<AuditTask>)
    ensures PathValues(s + t) == PathValues(s) + PathValues(t)
    decreases |t|
  {
    if t == [] {
      assert s + t == s;
    } else {
      assert (s + t)[..|s + t| - 1] == s + t[..|t| - 1];
      PathValuesConcat(s, t[..|t| - 1]);
    }
  }

  lemma {:induction false} ValueListed(tasks: seq<AuditTask>, v: string)
    ensures v in PathValues(tasks) <==> exists t :: t in tasks && t.target.kind.PathTarget? && t.target.value == v
    decreases |tasks|
  {
    if tasks != [] {
      var n := |tasks| - 1;
      ValueListed(tasks[..n], v);
      assert tasks == tasks[..n] + [tasks[n]];
    }
  }

  lemma {:induction false} DistinctIff(tasks: seq<AuditTask>)
    ensures PathsDistinct(tasks) <==> NoRepeats(PathValues(tasks))
    decreases |tasks|
  {
    if tasks != [] {
      var n := |tasks| - 1;
      var t := tasks[n];
      DistinctIff(tasks[..n]);
      ValueListed(tasks[..n], t.target.value);
      RepeatAppend(PathValues(tasks[..n]), t.target.value);
      LastDistinct(tasks[..n], t);
      assert tasks == tasks[..n] + [t];
      assert PathValues(tasks[..n]) + [] == PathValues(tasks[..n]);
    }
  }

  lemma RepeatAppend(s: seq<string>, v: string)
    ensures NoRepeats(s + [v]) <==> NoRepeats(s) && v !in s
  {
    if NoRepeats(s + [v]) {
      forall i, j | 0 <= i < j < |s| ensures s[i] != s[j] {
        assert (s + [v])[i] == s[i] && (s + [v])[j] == s[j];
      }
      forall i | 0 <= i < |s| ensures s[i] != v {
        assert (s + [v])[i] == s[i] && (s + [v])[|s|] == v;
      }
    }
  }

  lemma LastDistinct(s: seq<AuditTask>, t: AuditTask)
    ensures PathsDistinct(s + [t]) <==>
              PathsDistinct(s) && (t.target.kind.PathTarget? ==>
                !exists u :: u in s && u.target.kind.PathTarget? && u.target.value == t.target.value)
  {
    var all := s + [t];
    if PathsDistinct(all) {
      forall i, j | 0 <= i < j < |s| && s[i].target.kind.PathTarget? && s[j].target.kind.PathTarget?
        ensures s[i].target.value != s[j].target.value
      {
        assert all[i] == s[i] && all[j] == s[j];
      }
      forall i | 0 <= i < |s| && t.target.kind.PathTarget? && s[i].target.kind.PathTarget?
        ensures s[i].target.value != t.target.value
      {
        assert all[i] == s[i] && all[|s|] == t;
      }
    }
  }

  // Distinct files make distinct targets exactly when they are apart.
  lemma ApartIff(files: seq<string>)
    requires NoRepeats(files)
    ensures NoRepeats(AgainAll(files)) <==> Apart(Elements(files))
  {
    hide Again;
    if NoRepeats(AgainAll(files)) {
      forall f, g | f in files && g in files && Again(f) == Again(g) ensures f == g {
        var i :| 0 <= i < |files| && files[i] == f;
        var j :| 0 <= j < |files| && files[j] == g;
        assert AgainAll(files)[i] == AgainAll(files)[j];
      }
    }
    if Apart(Elements(files)) {
      forall i, j | 0 <= i < j < |files| ensures AgainAll(files)[i] != AgainAll(files)[j] {
        assert files[i] in Elements(files) && files[j] in Elements(files);
      }
    }
  }

  /******* One candidate *******/

  // Each task of a candidate is for one file of its own that was not seen before, or the candidate
  // has no files and no path task.
  ghost predicate MadeFor(m: Made, files: set<string>, own: seq<string>) {
    && NoRepeats(own) && Elements(own) !! files && m.files == files + Elements(own)
    && (forall t :: t in m.tasks && t.target.kind.PathTarget? ==> |own| == |m.tasks|)
    && (own != [] ==> |own| == |m.tasks|)
    && (|own| == |m.tasks| ==> forall i :: 0 <= i < |own| ==>
          m.tasks[i].target.kind.PathTarget? && m.tasks[i].target.value == Again(own[i]))
  }

  lemma {:induction false} ScannedFor(run: Run, names: seq<string>, snapshot: string, m: Made, files: set<string>,
      own: seq<string>) returns (after: seq<string>)
    requires run.policy.suppressDuplicates && MadeFor(m, files, own) && |own| == |m.tasks|
    requires ScanFiles(run, names, snapshot, m).Some?
    ensures var r := ScanFiles(run, names, snapshot, m).value;
            MadeFor(r, files, after) && |after| == |r.tasks| && r.files == m.files + NamedFiles(names)
            && |r.tasks| <= |m.tasks| + |names|
    decreases |names|
  {
    hide Normal, Text.Strip, MadeFor, PathTask;
    after := own;
    if names == [] {
      assert m.files == m.files + NamedFiles(names);
    } else {
      NamedHead(names);
      var file := Normal(PathTarget, names[0]);
      if Skipped(run, names[0], m.files) {
        after := ScannedFor(run, names[1..], snapshot, m, files, own);
        assert m.files + NamedFiles(names) == m.files + NamedFiles(names[1..]);
      } else {
        var t := PathTask(run, ModuleScan, file, snapshot).value;
        TaskFor(run, ModuleScan, file, snapshot);
        OneMoreFor(m, files, own, file, t);
        var next := Made(m.tasks + [t], m.files + {file});
        after := ScannedFor(run, names[1..], snapshot, next, files, own + [file]);
        assert m.files + NamedFiles(names) == next.files + NamedFiles(names[1..]);
      }
    }
  }

  lemma TaskFor(run: Run, taskType: TaskType, file: string, snapshot: string)
    ensures var t := PathTask(run, taskType, file, snapshot);
            t.Some? ==> t.value.target.kind.PathTarget? && t.value.target.value == Again(file)
  {
    hide Normal, Text.Strip;
  }

  lemma NamedHead(names: seq<string>)
    requires names != []
    ensures NamedFiles(names)
         == NamedFiles(names[1..]) + if Text.Strip(names[0]) == "" then {} else {Normal(PathTarget, names[0])}
  {
    hide Normal, Text.Strip;
    assert names == [names[0]] + names[1..];
  }

  lemma OneMoreFor(m: Made, files: set<string>, own: seq<string>, file: string, t: AuditTask)
    requires MadeFor(m, files, own) && |own| == |m.tasks| && file !in m.files
    requires t.target.kind.PathTarget? && t.target.value == Again(file)
    ensures MadeFor(Made(m.tasks + [t], m.files + {file}), files, own + [file])
  {
    hide Again;
    RepeatAppend(own, file);
    assert Elements(own + [file]) == Elements(own) + {file};
  }

  lemma NothingMade(files: set<string>)
    ensures MadeFor(Made([], files), files, [])
  {
    assert Elements([]) == {};
  }

  function MostTasks(run: Run, d: CandidateData): nat {
    if d.kind.CrossFile? then |FirstFiles(d.filePaths.GetOr([]), run.policy.maxScans)| else 1
  }

  lemma MakesTasksFor(run: Run, d: CandidateData, snapshot: string, files: set<string>) returns (own: seq<string>)
    requires run.policy.suppressDuplicates && MakeTasks(run, d, snapshot, files).Some?
    ensures var m := MakeTasks(run, d, snapshot, files).value;
            MadeFor(m, files, own) && m.files == files + FilesOf(run, d) && |m.tasks| <= MostTasks(run, d)
  {
    hide ScanFiles, PrimaryFile, Normal, Text.Strip, FirstFiles, MadeFor, NamedFiles, CreateTask;
    NothingMade(files);
    own := [];
    if d.kind.CrossFile? {
      var names := FirstFiles(d.filePaths.GetOr([]), run.policy.maxScans);
      own := ScannedFor(run, names, snapshot, Made([], files), files, []);
    } else if d.kind.Risk? || d.kind.Policy? {
      own := VerifiedFor(run, PrimaryFile(d.evidenceRefs), snapshot, files);
    } else if d.kind.VerificationTarget? {
      TargetMade(run, d, snapshot, files);
    }
  }

  lemma VerifiedFor(run: Run, file: string, snapshot: string, files: set<string>) returns (own: seq<string>)
    requires run.policy.suppressDuplicates && VerifyFile(run, file, snapshot, files).Some?
    ensures var m := VerifyFile(run, file, snapshot, files).value;
            MadeFor(m, files, own) && m.files == files + (if file == "" then {} else {file}) && |m.tasks| <= 1
  {
    hide Normal, Text.Strip;
    own := if file == "" || file in files then [] else [file];
    assert Elements([]) == {} && Elements([file]) == {file};
  }

  lemma TargetMade(run: Run, d: CandidateData, snapshot: string, files: set<string>)
    requires VerifyTarget(run, d, snapshot, files).Some?
    ensures var m := VerifyTarget(run, d, snapshot, files).value;
            MadeFor(m, files, []) && m.files == files && |m.tasks| <= 1
  {
    hide Normal, Text.Strip;
    assert Elements([]) == {};
  }

  /******* One step of a run *******/

  // The routed path tasks are for the files `own`, each once, all of them seen.
  ghost predicate Tied(p: Progress, own: seq<string>) {
    NoRepeats(own) && Elements(own) <= p.files && PathValues(p.routed) == AgainAll(own)
  }

  lemma {:induction false} PathsOfPrefix(m: Made, files: set<string>, own: seq<string>, k: nat)
    requires MadeFor(m, files, own) && k <= |m.tasks|
    ensures PathValues(m.tasks[..k]) == AgainAll(if |own| == |m.tasks| then own[..k] else [])
    decreases k
  {
    hide Again;
    if k > 0 {
      assert m.tasks[..k][..k - 1] == m.tasks[..k - 1];
      PathsOfPrefix(m, files, own, k - 1);
      assert m.tasks[k - 1] in m.tasks;
      if |own| == |m.tasks| {
        assert own[..k] == own[..k - 1] + [own[k - 1]];
        assert AgainAll(own[..k]) == AgainAll(own[..k - 1]) + [Again(own[k - 1])];
      }
    }
  }

  lemma TieMore(p: Progress, own: seq<string>, m: Made, more: seq<string>, k: nat)
    requires Tied(p, own) && MadeFor(m, p.files, more) && k <= |m.tasks|
    ensures var kept := if |more| == |m.tasks| then more[..k] else [];
            && NoRepeats(own + kept) && Elements(own + kept) <= m.files
            && PathValues(p.routed + m.tasks[..k]) == AgainAll(own + kept)
            && (k == |m.tasks| && Elements(own) == p.files ==> Elements(own + kept) == m.files)
  {
    hide Again, PathValues;
    var kept := if |more| == |m.tasks| then more[..k] else [];
    PathsOfPrefix(m, p.files, more, k);
    PathValuesConcat(p.routed, m.tasks[..k]);
    assert AgainAll(own + kept) == AgainAll(own) + AgainAll(kept);
    forall x | x in kept ensures x in Elements(more) {
    }
    forall i, j | 0 <= i < j < |own + kept| ensures (own + kept)[i] != (own + kept)[j] {
      if i < |own| <= j {
        assert own[i] in Elements(own) && kept[j - |own|] in Elements(more);
      }
    }
    if k == |m.tasks| {
      assert kept == more;
      assert Elements(own + more) == Elements(own) + Elements(more);
    }
  }

  // What a step does to the files.
  ghost predicate FilesGrow(run: Run, p: Progress, c: Payload, r: Progress) {
    if Own(run, c) && Turned(run, p, c, c.body.candidate).None?
    then r.files == p.files + FilesOf(run, c.body.candidate) else r.files == p.files
  }

  // The limit on one candidate cuts no task of this one.
  predicate Uncut(run: Run, c: Payload) {
    Own(run, c) ==> MostTasks(run, c.body.candidate) <= run.policy.maxPerCandidate
  }

  lemma RouteOneTied(run: Run, p: Progress, id: string, c: Payload, own: seq<string>) returns (after: seq<string>)
    requires run.policy.suppressDuplicates && Tied(p, own) && RouteOne(run, p, id, c).Some?
    ensures var r := RouteOne(run, p, id, c).value;
            && Tied(r, after) && FilesGrow(run, p, c, r)
            && (Elements(own) == p.files && Uncut(run, c) ==> Elements(after) == r.files)
  {
    hide Turned, Placeholder, MakeTasks, Admit, CandidateSnapshot, MadeFor, FilesOf, MostTasks, PathValues, AgainAll,
        NoRepeats;
    after := own;
    if Own(run, c) && Turned(run, p, c, c.body.candidate).None? {
      var d := c.body.candidate;
      TurnedWithoutSnapshot(run, p, c, d);
      var snapshot := CandidateSnapshot(run, d).value;
      var m := MakeTasks(run, d, snapshot, p.files).value;
      var more := MakesTasksFor(run, d, snapshot, p.files);
      RoutedUpToTheLimit(run, p, id, c);
      var k := Min(|m.tasks|, Max(0, run.policy.maxPerCandidate));
      TieMore(p, own, m, more, k);
      after := own + if |more| == |m.tasks| then more[..k] else [];
    }
  }

  /******* A whole run *******/

  // The limit on one candidate cuts no task of this run.
  ghost predicate NothingCut(run: Run, candidates: map<string, Payload>) {
    forall id :: id in candidates ==> Uncut(run, candidates[id])
  }

  lemma {:induction false} RouteAllTied(run: Run, p: Progress, candidates: map<string, Payload>, ids: seq<string>,
      own: seq<string>) returns (after: seq<string>)
    requires run.policy.suppressDuplicates && forall id :: id in ids ==> id in candidates
    requires Tied(p, own) && RouteAll(run, p, candidates, ids).Some?
    requires p.files <= AllFiles(run, candidates)
    ensures var r := RouteAll(run, p, candidates, ids).value;
            && Tied(r, after) && r.files <= AllFiles(run, candidates)
            && (Elements(own) == p.files && NothingCut(run, candidates) ==> Elements(after) == r.files)
    decreases |ids|
  {
    hide RouteOne, Tied, FilesGrow, FilesOf, MostTasks;
    after := own;
    if ids != [] {
      var next := RouteOne(run, p, ids[0], candidates[ids[0]]).value;
      var mid := RouteOneTied(run, p, ids[0], candidates[ids[0]], own);
      FilesStayListed(run, p, candidates, ids[0], next);
      after := RouteAllTied(run, next, candidates, ids[1..], mid);
    }
  }

  lemma FilesStayListed(run: Run, p: Progress, candidates: map<string, Payload>, id: string, r: Progress)
    requires id in candidates && FilesGrow(run, p, candidates[id], r) && p.files <= AllFiles(run, candidates)
    ensures r.files <= AllFiles(run, candidates)
  {
    hide FilesOf, Turned;
  }

  function Begin(n: nat): Progress {
    Progress([], [], map[], {}, n, 0)
  }

  lemma NothingTied(n: nat)
    ensures Tied(Begin(n), []) && Elements([]) == Begin(n).files
  {
    assert Elements([]) == {};
  }

  // Over every run the routed path tasks stand for distinct files, one each, and target distinct
  // values exactly when those files are apart.
  lemma RoutedFilesTied(run: Run, q: Queue, candidates: map<string, Payload>) returns (own: seq<string>)
    requires run.policy.suppressDuplicates && Route(run, q, candidates).Some?
    ensures var p := Route(run, q, candidates).value;
            && Tied(p, own) && p.files <= AllFiles(run, candidates)
            && (PathsDistinct(p.routed) <==> Apart(Elements(own)))
            && (NothingCut(run, candidates) ==> Elements(own) == p.files)
  {
    hide RouteAll, StartVerify, Tied, FilesOf, MostTasks;
    NothingTied(StartVerify(q, run.auditId));
    own := RouteAllTied(run, Begin(StartVerify(q, run.auditId)), candidates, Order(candidates.Keys), []);
    TiedDistinctIff(Route(run, q, candidates).value, own);
  }

  lemma TiedDistinctIff(p: Progress, own: seq<string>)
    requires Tied(p, own)
    ensures PathsDistinct(p.routed) <==> Apart(Elements(own))
  {
    hide PathsDistinct, PathValues, Apart, NoRepeats, AgainAll;
    DistinctIff(p.routed);
    ApartIff(own);
  }

  // With suppression on, no two routed path tasks target the same file as long as no two different
  // files of the audit's candidates become the same target.
  lemma RoutedFilesAreDistinct(run: Run, q: Queue, candidates: map<string, Payload>)
    requires run.policy.suppressDuplicates && Route(run, q, candidates).Some? && Apart(AllFiles(run, candidates))
    ensures PathsDistinct(Route(run, q, candidates).value.routed)
  {
    hide Route, Tied, FilesOf, PathsDistinct;
    var own := RoutedFilesTied(run, q, candidates);
    var p := Route(run, q, candidates).value;
    assert Elements(own) <= p.files by {
      TiedFiles(p, own);
    }
  }

  // In particular when the files' names normalise once and for all.
  lemma StableFilesAreDistinct(run: Run, q: Queue, candidates: map<string, Payload>)
    requires run.policy.suppressDuplicates && Route(run, q, candidates).Some?
    requires forall f :: f in AllFiles(run, candidates) ==> Again(f) == f
    ensures PathsDistinct(Route(run, q, candidates).value.routed)
  {
    hide Route, AllFiles, Again, PathsDistinct;
    RoutedFilesAreDistinct(run, q, candidates);
  }

  lemma TiedFiles(p: Progress, own: seq<string>)
    requires Tied(p, own)
    ensures Elements(own) <= p.files
  {
  }

  /******* Exactly when they are distinct *******/

  // The candidates that pass the guardrails when no limit has been reached.
  predicate Asks(run: Run, c: Payload) {
    Own(run, c) && Turned(run, Begin(0), c, c.body.candidate).None?
  }

  ghost function WantedFiles(run: Run, candidates: map<string, Payload>, ids: set<string>): set<string> {
    set id, f | id in ids && id in candidates && Asks(run, candidates[id])
        && f in FilesOf(run, candidates[id].body.candidate) :: f
  }

  // No limit of the policy can be reached in this run.
  ghost predicate RoomForAll(run: Run, q: Queue, candidates: map<string, Payload>) {
    && |candidates| <= run.policy.maxCandidates
    && StartVerify(q, run.auditId) + |candidates| <= run.policy.maxVerify
    && NothingCut(run, candidates)
  }

  lemma AsksIff(run: Run, p: Progress, c: Payload)
    requires Own(run, c) && p.seen < run.policy.maxCandidates && p.verify < run.policy.maxVerify
    ensures Turned(run, p, c, c.body.candidate).None? <==> Asks(run, c)
  {
    hide PrimaryFile, Confidence, TypeEnabled, CandidateSnapshot;
  }

  lemma {:induction false} AdmitCharges(policy: RoutingPolicy, a: Admission, tasks: seq<AuditTask>)
    ensures Admit(policy, a, tasks).verify <= a.verify + CountVerify(tasks)
    decreases |tasks|
  {
    if tasks != [] && a.count < policy.maxPerCandidate {
      if tasks[0].taskType.VerifyClaim? && a.verify >= policy.maxVerify {
        AdmitCharges(policy, a.(results := a.results + [RouteResult(RunLimit, tasks[0])]), tasks[1..]);
      } else {
        AdmitCharges(policy, Admission(a.results, a.routed + [tasks[0]], a.count + 1,
                                       a.verify + if tasks[0].taskType.VerifyClaim? then 1 else 0), tasks[1..]);
      }
    }
  }

  lemma RouteOneCharges(run: Run, p: Progress, id: string, c: Payload)
    requires RouteOne(run, p, id, c).Some?
    ensures var r := RouteOne(run, p, id, c).value; r.seen <= p.seen + 1 && r.verify <= p.verify + 1
  {
    hide Turned, Placeholder, MakeTasks, Admit, CandidateSnapshot, CountVerify;
    if Own(run, c) && Turned(run, p, c, c.body.candidate).None? {
      TurnedWithoutSnapshot(run, p, c, c.body.candidate);
      var snapshot := CandidateSnapshot(run, c.body.candidate).value;
      MadeTasks(run, c.body.candidate, snapshot, p.files);
      var m := MakeTasks(run, c.body.candidate, snapshot, p.files).value;
      AdmitCharges(run.policy, Admission(p.results, p.routed, 0, p.verify), m.tasks);
    }
  }

  lemma WantedMore(run: Run, p: Progress, candidates: map<string, Payload>, done: set<string>, id: string, r: Progress)
    requires id in candidates
    requires p.seen < run.policy.maxCandidates && p.verify < run.policy.maxVerify
    requires p.files == WantedFiles(run, candidates, done) && FilesGrow(run, p, candidates[id], r)
    ensures r.files == WantedFiles(run, candidates, done + {id})
  {
    hide Turned, FilesOf, Asks, Own;
    var c := candidates[id];
    if Own(run, c) {
      AsksIff(run, p, c);
    } else {
      assert !Asks(run, c) by {
        AskersAreOwn(run, c);
      }
    }
  }

  lemma AskersAreOwn(run: Run, c: Payload)
    ensures Asks(run, c) ==>
            Own(run, c) && run.policy.maxCandidates >= 1 && CandidateSnapshot(run, c.body.candidate).Some?
  {
    hide PrimaryFile, Confidence, TypeEnabled, CandidateSnapshot;
  }

  // As long as no limit is reached, the files gone over are those of the candidates that ask.
  lemma {:induction false} RouteAllWanted(run: Run, p: Progress, candidates: map<string, Payload>, done: set<string>,
      ids: seq<string>, room: nat)
    requires (forall id :: id in ids ==> id in candidates) && RouteAll(run, p, candidates, ids).Some?
    requires |ids| <= room && p.seen + room <= run.policy.maxCandidates && p.verify + room <= run.policy.maxVerify
    requires run.policy.suppressDuplicates && p.files == WantedFiles(run, candidates, done)
    ensures RouteAll(run, p, candidates, ids).value.files == WantedFiles(run, candidates, done + Elements(ids))
    decreases |ids|
  {
    hide RouteOne, FilesGrow, WantedFiles;
    if ids == [] {
      assert done + Elements(ids) == done;
    } else {
      var next := RouteOne(run, p, ids[0], candidates[ids[0]]).value;
      RouteOneCharges(run, p, ids[0], candidates[ids[0]]);
      RouteOneFiles(run, p, ids[0], candidates[ids[0]]);
      WantedMore(run, p, candidates, done, ids[0], next);
      assert done + {ids[0]} + Elements(ids[1..]) == done + Elements(ids);
      RouteAllWanted(run, next, candidates, done + {ids[0]}, ids[1..], room - 1);
    }
  }

  lemma RouteOneFiles(run: Run, p: Progress, id: string, c: Payload)
    requires run.policy.suppressDuplicates && RouteOne(run, p, id, c).Some?
    ensures FilesGrow(run, p, c, RouteOne(run, p, id, c).value)
  {
    hide Turned, Placeholder, MakeTasks, Admit, CandidateSnapshot, FilesOf;
    if Own(run, c) && Turned(run, p, c, c.body.candidate).None? {
      TurnedWithoutSnapshot(run, p, c, c.body.candidate);
      var own := MakesTasksFor(run, c.body.candidate, CandidateSnapshot(run, c.body.candidate).value, p.files);
    }
  }

  // In a run that no limit cuts, the routed path tasks target distinct files exactly when no two
  // different files of the candidates that ask become the same target.
  lemma RoutedFilesAreDistinctIff(run: Run, q: Queue, candidates: map<string, Payload>)
    requires run.policy.suppressDuplicates && Route(run, q, candidates).Some? && RoomForAll(run, q, candidates)
    ensures PathsDistinct(Route(run, q, candidates).value.routed)
            <==> Apart(WantedFiles(run, candidates, candidates.Keys))
  {
    hide RouteAll, StartVerify, Tied, FilesOf, MostTasks, Apart, PathsDistinct, Asks, StrictlySorted;
    var ids := Order(candidates.Keys);
    var start := StartVerify(q, run.auditId);
    ListedOnce(ids, candidates.Keys);
    assert WantedFiles(run, candidates, {}) == {};
    assert {} + Elements(ids) == candidates.Keys;
    var own := RoutedFilesTied(run, q, candidates);
    RouteAllWanted(run, Begin(start), candidates, {}, ids, |ids|);
  }

  lemma {:induction false} ListedOnce(ids: seq<string>, keys: set<string>)
    requires Lists(ids, keys)
    ensures |ids| == |keys|
    decreases |ids|
  {
    if ids == [] {
      assert keys == {};
    } else {
      hide Codes;
      assert forall i :: 0 < i < |ids| ==> ids[i] != ids[0];
      assert ids == [ids[0]] + ids[1..];
      ListedOnce(ids[1..], keys - {ids[0]});
    }
  }

  /******* A run that routes one file twice *******/

  lemma NormalOfExample()
    ensures Normal(PathTarget, "./ a") == " a" && Normal(PathTarget, " a") == "a" && Normal(PathTarget, "a") == "a"
  {
    hide Squeeze, DotFree, Contains, Text.Strip;
    CleanOfExample();
    CleanFacts("./ a");
    CleanEnds("./ a");
    Text.StripTrims("a");
    assert !Contains("a", "//") && !Contains("a", "/./") by {
      ShortIsClean();
    }
    NormalPathStays(PathTarget, "a");
    assert Text.Strip(" a") == Text.Strip("a") by {
      StripOfExample();
    }
  }

  lemma ShortIsClean()
    ensures !Contains("a", "//") && !Contains("a", "/./")
  {
    assert "a"[1..] == "";
  }

  lemma StripOfExample()
    ensures Text.Strip(" a") == Text.Strip("a")
  {
    hide Text.StripRight;
    assert Text.IsSpace(' ') && " a"[1..] == "a";
    assert Text.StripLeft(" a") == Text.StripLeft("a");
  }

  predicate Collides(run: Run, c: Payload) {
    && Asks(run, c) && c.body.candidate.kind.CrossFile? && c.body.candidate.filePaths == Some(["./ a", "a"])
    && Text.Strip(CandidateSnapshot(run, c.body.candidate).GetOr("")) != ""
  }

  // Both names of the candidate are seen as different files and both are scanned.
  lemma BothScanned(run: Run, d: CandidateData, snapshot: string)
    requires d.kind.CrossFile? && d.filePaths == Some(["./ a", "a"]) && run.policy.maxScans >= 2
    requires Text.Strip(snapshot) != ""
    ensures var m := MakeTasks(run, d, snapshot, {}); m.Some? && |m.value.tasks| == 2
    ensures FilesOf(run, d) == {" a", "a"} && MostTasks(run, d) == 2
  {
    hide Normal, Text.Strip;
    NormalOfExample();
    StripsOfExample();
    var names := ["./ a", "a"];
    assert FirstFiles(names, run.policy.maxScans) == names;
    assert names[1..] == ["a"] && ["a"][1..] == [];
    NamedHead(names);
    NamedHead(["a"]);
    assert NamedFiles([]) == {};
  }

  lemma StripsOfExample()
    ensures Text.Strip("./ a") != "" && Text.Strip(" a") != "" && Text.Strip("a") != ""
  {
    hide Text.Strip;
    Text.StripTrims("./ a");
    Text.StripTrims("a");
    StripOfExample();
  }

  // Whatever else the policy says, a cross-file candidate over these two names sends the same file
  // to be scanned twice in one run.
  lemma OneFileIsRoutedTwice(run: Run, q: Queue, id: string, c: Payload)
    requires run.policy.suppressDuplicates && run.policy.maxScans >= 2 && run.policy.maxPerCandidate >= 2
    requires Collides(run, c) && StartVerify(q, run.auditId) < run.policy.maxVerify
    ensures var p := Route(run, q, map[id := c]);
            p.Some? && |p.value.routed| == 2 && !PathsDistinct(p.value.routed)
  {
    hide Route, StartVerify, CandidateSnapshot, Turned, FilesOf, Apart, Normal, Text.Strip, MostTasks, RouteOne, Asks;
    var candidates := map[id := c];
    assert candidates.Keys == {id} && |candidates| == 1;
    AskersAreOwn(run, c);
    OnlyOne(run, q, id, c);
    CollidingStep(run, StartVerify(q, run.auditId), id, c);
    BothScanned(run, c.body.candidate, CandidateSnapshot(run, c.body.candidate).value);
    RoutedFilesAreDistinctIff(run, q, candidates);
    OneTargetTwoFiles(WantedFiles(run, candidates, candidates.Keys));
  }

  lemma OnlyOne(run: Run, q: Queue, id: string, c: Payload)
    ensures Route(run, q, map[id := c]) == RouteOne(run, Begin(StartVerify(q, run.auditId)), id, c)
  {
    hide StartVerify, RouteOne;
    var candidates := map[id := c];
    var ids := Order(candidates.Keys);
    assert candidates.Keys == {id};
    ListedOnce(ids, {id});
    assert ids[0] in ids && ids == [id] && ids[1..] == [];
    var p := Begin(StartVerify(q, run.auditId));
    assert RouteOne(run, p, id, c).Some? ==>
           RouteAll(run, RouteOne(run, p, id, c).value, candidates, []) == RouteOne(run, p, id, c);
  }

  lemma CollidingStep(run: Run, start: nat, id: string, c: Payload)
    requires run.policy.maxScans >= 2 && run.policy.maxPerCandidate >= 2
    requires Collides(run, c) && start < run.policy.maxVerify
    ensures var r := RouteOne(run, Begin(start), id, c); r.Some? && |r.value.routed| == 2
  {
    hide CandidateSnapshot, Turned, MakeTasks, Admit, Placeholder, Text.Strip;
    AskersAreOwn(run, c);
    AsksIff(run, Begin(start), c);
    var d := c.body.candidate;
    TurnedWithoutSnapshot(run, Begin(start), c, d);
    BothScanned(run, d, CandidateSnapshot(run, d).value);
    RoutedUpToTheLimit(run, Begin(start), id, c);
  }

  lemma OneTargetTwoFiles(files: set<string>)
    requires {" a", "a"} <= files
    ensures !Apart(files)
  {
    hide Normal;
    NormalOfExample();
    assert " a" in files && "a" in files && |" a"| == 2 && |"a"| == 1;
    assert Again(" a") == Again("a");
  }
}
