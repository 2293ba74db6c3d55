/** When a queue that was just written can be read again: a path may normalise away at the next load. */
module QueueReadability {
  import opened Wrappers
  import opened TargetPaths
  import opened TaskQueue
  import opened QueueSafety
  import opened Planner
  import opened PlannerSafety
  import Text

  // A constructed target that its own constructor refuses when it is read back.
  predicate Fades(t: Target) {
    IsPathLike(t.kind) && Vanishes(Text.Strip(t.value))
  }

  lemma ConstructedReadsIff(t: Target, value: string, snapshotRef: string)
    requires MakeTarget(t.kind, value, snapshotRef, t.lines) == Some(t)
    ensures ReloadTarget(t).Some? <==> !Fades(t)
  {
    hide Normal, Vanishes, Text.Strip;
    Text.StripTrims(snapshotRef);
    Text.StripTrims(Text.Strip(snapshotRef));
    if IsPathLike(t.kind) {
      NormalVanishesIff(t.kind, value);
    } else {
      NormalIdempotentIff(t.kind, value);
    }
  }

  lemma LoadedReadsIff(file: Queue, id: string)
    requires Load(file).Some? && id in file
    ensures id in Load(file).value
    ensures ReloadTarget(Load(file).value[id].target).Some? <==> !Fades(Load(file).value[id].target)
  {
    hide Load, Fades;
    LoadFacts(file);
    var t := file[id].target;
    ReloadKeepsRest(t);
    ConstructedReadsIff(ReloadTarget(t).value, t.value, t.snapshotRef);
  }

  lemma ReloadKeepsRest(t: Target)
    requires ReloadTarget(t).Some?
    ensures ReloadTarget(t).value.kind == t.kind && ReloadTarget(t).value.lines == t.lines
  {
    hide Normal, Text.Strip;
  }

  // A new task leaves a readable queue readable exactly when neither its own target nor any target
  // that was already queued fades.
  lemma ReadableAfterEnqueueIff(file: Queue, t: AuditTask, value: string, snapshotRef: string)
    requires Load(file).Some? && t.id !in file
    requires MakeTarget(t.target.kind, value, snapshotRef, t.target.lines) == Some(t.target)
    ensures EnqueueResults(file, [t]).Success?
    ensures Load(AfterEnqueue(file, [t])).Some?
            <==> !Fades(t.target) && forall id :: id in file ==> !Fades(Load(file).value[id].target)
  {
    hide Load, EnqueueResults, AfterEnqueue, ReloadTarget, MakeTarget, Fades;
    AddedToLoaded(file, t);
    var q := Load(file).value;
    LoadKeepsKeys(file);
    LoadedKeys(file);
    LoadFacts(q[t.id := t]);
    ConstructedReadsIff(t.target, value, snapshotRef);
    forall id | id in file ensures ReloadTarget(q[id].target).Some? <==> !Fades(q[id].target) {
      LoadedReadsIff(file, id);
    }
    if Load(q[t.id := t]).Some? {
      assert ReloadTarget(q[t.id := t][t.id].target).Some?;
      forall id | id in file ensures !Fades(q[id].target) {
        assert q[t.id := t][id] == q[id];
      }
    }
  }

  lemma AddedToLoaded(file: Queue, t: AuditTask)
    requires Load(file).Some? && t.id !in file
    ensures EnqueueResults(file, [t]).Success? && AfterEnqueue(file, [t]) == Load(file).value[t.id := t]
  {
    hide Load, OfferAll, KeyOf;
    LoadedKeys(file);
    OneOffer(Batch(Load(file).value, []), t);
    EnqueueOne(file, t);
  }

  // Opening the store: a file that cannot be read is replaced by an empty queue.
  function Opened(file: Queue): Queue {
    if Load(file).Some? then file else map[]
  }

  method RecoverQueue(store: TaskQueueStore) returns (repaired: bool)
    modifies store
    ensures store.file == Opened(old(store.file)) && repaired == Load(old(store.file)).None?
  {
    hide Load;
    var q := Load(store.file);
    repaired := q.None?;
    if repaired {
      store.file := map[];
    }
  }

  // So after a new task was stored, opening the store keeps the whole queue, or empties it, exactly
  // when some target fades.
  lemma OpeningKeepsTheQueueIff(file: Queue, t: AuditTask, value: string, snapshotRef: string)
    requires Load(file).Some? && t.id !in file
    requires MakeTarget(t.target.kind, value, snapshotRef, t.target.lines) == Some(t.target)
    ensures var after := Opened(AfterEnqueue(file, [t]));
            if Fades(t.target) || exists id :: id in file && Fades(Load(file).value[id].target) then after == map[]
            else after == Load(file).value[t.id := t]
  {
    hide Load, EnqueueResults, AfterEnqueue, MakeTarget, Fades;
    ReadableAfterEnqueueIff(file, t, value, snapshotRef);
    AddedToLoaded(file, t);
  }

  // The path "./ ./ /" is accepted into every readable queue, and everything queued is lost when the
  // store is opened again.
  lemma OnePathEmptiesTheQueue(file: Queue, idOf: IdMaker, auditId: string, taskType: TaskType,
      snapshotRef: string, now: string)
    requires Load(file).Some? && Text.Strip(snapshotRef) != ""
    ensures var target := MakeTarget(PathTarget, "./ ./ /", snapshotRef, None);
            && target.Some?
            && var t := CreateTask(idOf, auditId, taskType, target.value, now);
               t.id !in file ==> EnqueueResults(file, [t]).Success? && Opened(AfterEnqueue(file, [t])) == map[]
  {
    hide Normal, Vanishes, Text.Strip, Load, EnqueueResults, AfterEnqueue, Opened;
    DotsVanish();
    StripDots();
    var target := MakeTarget(PathTarget, "./ ./ /", snapshotRef, None).value;
    var t := CreateTask(idOf, auditId, taskType, target, now);
    if t.id !in file {
      ReadableAfterEnqueueIff(file, t, "./ ./ /", snapshotRef);
      OpeningKeepsTheQueueIff(file, t, "./ ./ /", snapshotRef);
    }
  }
}
