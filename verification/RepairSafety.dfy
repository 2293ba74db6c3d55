/** The repair log explains the repair completely, and when repairing again finds nothing to do. */
module RepairSafety {
  import opened Wrappers
  import opened Repairer

  /******* Replaying the log *******/

  function ReplayEvent(event: Fields, log: seq<LogEntry>): Fields {
    if log == [] then event
    else SetAt(ReplayEvent(event, log[..|log| - 1]), log[|log| - 1].path, log[|log| - 1].repaired)
  }

  function ReplayOne(o: Output, e: LogEntry): Output {
    if e.index == -1 then o.(fields := SetAt(o.fields, e.path, e.repaired))
    else if 0 <= e.index < |o.events| && o.events[e.index].Obj? then
      o.(events := o.events[e.index := Obj(SetAt(o.events[e.index].fields, e.path, e.repaired))])
    else o
  }

  function Replay(o: Output, log: seq<LogEntry>): Output {
    if log == [] then o else ReplayOne(Replay(o, log[..|log| - 1]), log[|log| - 1])
  }

  // The draft is its own log replayed over where it started, and the log is about one event.
  ghost predicate Explained(start: Fields, index: int, d: Draft) {
    d.event == ReplayEvent(start, d.log) && forall e :: e in d.log ==> e.index == index
  }

  lemma PutExplained(start: Fields, index: int, d: Draft, kind: RepairType, path: seq<string>, original: Value,
      repaired: Value)
    requires Explained(start, index, d)
    ensures Explained(start, index, Put(d, index, kind, path, original, repaired))
  {
    hide SetAt;
    var log := Put(d, index, kind, path, original, repaired).log;
    assert log[..|log| - 1] == d.log;
  }

  lemma {:induction false} FieldsExplained(start: Fields, index: int, d: Draft, fields: seq<string>)
    requires Explained(start, index, d)
    ensures Explained(start, index, NormalizeFields(d, index, fields))
    decreases |fields|
  {
    hide Explained, Put;
    if fields != [] {
      var n := |fields| - 1;
      FieldsExplained(start, index, d, fields[..n]);
      PutExplained(start, index, NormalizeFields(d, index, fields[..n]), NullNormalization, [fields[n]],
          Str("null"), Null);
    }
  }

  lemma {:induction false} DecisionsExplained(start: Fields, index: int, d: Draft, fields: seq<string>)
    requires Explained(start, index, d)
    ensures Explained(start, index, NormalizeDecisions(d, index, fields))
    decreases |fields|
  {
    hide Explained, Put;
    if fields != [] {
      var n := |fields| - 1;
      DecisionsExplained(start, index, d, fields[..n]);
      var before := NormalizeDecisions(d, index, fields[..n]);
      var acceptance := Get(before.event, "acceptance");
      if acceptance.Obj? {
        PutExplained(start, index, before, NullNormalization, ["acceptance", fields[n]],
            Get(acceptance.fields, fields[n]), Null);
      }
    }
  }

  lemma PassesExplained(event: Fields, index: int, ctx: RepairContext)
    ensures Explained(event, index, Passes(Draft(event, []), index, ctx))
  {
    hide Explained, Put, NormalizeFields, NormalizeDecisions, Lookup, SetAt;
    var d0 := Draft(event, []);
    StartExplained(event, index);
    var d1 := InjectDefaults(d0, index);
    var acceptance := Get(event, "acceptance");
    PutExplained(event, index, d0, DefaultInjection, ["acceptance"], acceptance, PENDING);
    PutExplained(event, index, d0, DefaultInjection, ["acceptance", "status"], Str("pending"), Str("pending"));
    FieldsExplained(event, index, d1, NULLABLE);
    DecisionsExplained(event, index, NormalizeFields(d1, index, NULLABLE), DECISION_FIELDS);
    var d2 := NormalizeDecisions(NormalizeFields(d1, index, NULLABLE), index, DECISION_FIELDS);
    if ctx.snapshotRef.Some? {
      var v := Str(ctx.snapshotRef.value);
      PutExplained(event, index, d2, ContextInjection, ["snapshot_ref"], v, v);
    }
    DerivationsExplained(event, index, InjectContext(d2, index, ctx));
  }

  lemma StartExplained(event: Fields, index: int)
    ensures Explained(event, index, Draft(event, []))
  {
  }

  lemma DerivationsExplained(start: Fields, index: int, d: Draft)
    requires Explained(start, index, d)
    ensures Explained(start, index, DeriveStatus(DeriveEntityType(d, index), index))
  {
    hide Explained, Put, SetAt, Lookup;
    var kind := Lookup(ENTITY_TYPES, Get(d.event, "event_type"));
    if kind.Some? {
      PutExplained(start, index, d, EntityTypeDerivation, ["entity_type"], Get(d.event, "entity_type"),
          Str(kind.value));
    }
    var typed := DeriveEntityType(d, index);
    var status := Lookup(STATUSES, Get(typed.event, "event_type"));
    if status.Some? {
      PutExplained(start, index, typed, DefaultInjection, ["payload"], Null, Obj(map[]));
      var ready := EnsurePayload(typed, index);
      var payload := Get(ready.event, "payload");
      if payload.Obj? {
        PutExplained(start, index, ready, StatusDerivation, ["payload", "status"], Get(payload.fields, "status"),
            Str(status.value));
      }
    }
  }

  lemma WorkerExplained(fields: Fields, ctx: RepairContext)
    ensures Explained(fields, -1, WorkerPasses(Draft(fields, []), ctx))
  {
    hide Explained, Put, SetAt;
    var d := Draft(fields, []);
    StartExplained(fields, -1);
    var version := Get(fields, "schema_version");
    PutExplained(fields, -1, d, DefaultInjection, ["schema_version"], version, Str("1.0.0"));
    var start := if Missing(version)
        then Put(d, -1, DefaultInjection, ["schema_version"], version, Str("1.0.0")) else d;
    WorkerFieldExplained(fields, start, "slice_id", ctx.sliceId);
    var second := InjectWorkerField(start, "slice_id", ctx.sliceId);
    WorkerFieldExplained(fields, second, "task_id", ctx.taskId);
    WorkerFieldExplained(fields, InjectWorkerField(second, "task_id", ctx.taskId), "snapshot_ref", ctx.snapshotRef);
  }

  lemma WorkerFieldExplained(start: Fields, d: Draft, field: string, value: Option<string>)
    requires Explained(start, -1, d)
    ensures Explained(start, -1, InjectWorkerField(d, field, value))
  {
    hide Explained, Put, SetAt;
    if value.Some? {
      PutExplained(start, -1, d, ContextInjection, [field], Null, Str(value.value));
    }
  }

  /******* From one event to the output *******/

  lemma {:induction false} ReplayJoins(o: Output, a: seq<LogEntry>, b: seq<LogEntry>)
    ensures Replay(o, a + b) == Replay(Replay(o, a), b)
    decreases |b|
  {
    hide ReplayOne;
    if b == [] {
      assert a + b == a;
    } else {
      assert (a + b)[..|a + b| - 1] == a + b[..|b| - 1];
      ReplayJoins(o, a, b[..|b| - 1]);
    }
  }

  lemma {:induction false} ReplayAt(o: Output, index: nat, log: seq<LogEntry>)
    requires index < |o.events| && o.events[index].Obj? && forall e :: e in log ==> e.index == index
    ensures Replay(o, log) == o.(events := o.events[index := Obj(ReplayEvent(o.events[index].fields, log))])
    decreases |log|
  {
    hide SetAt;
    if log == [] {
      assert o.events[index := o.events[index]] == o.events;
    } else {
      ReplayAt(o, index, log[..|log| - 1]);
    }
  }

  lemma {:induction false} ReplayWorker(o: Output, log: seq<LogEntry>)
    requires forall e :: e in log ==> e.index == -1
    ensures Replay(o, log) == o.(fields := ReplayEvent(o.fields, log))
    decreases |log|
  {
    hide SetAt;
    if log != [] {
      ReplayWorker(o, log[..|log| - 1]);
    }
  }

  // The log so far turns the input into the repaired events followed by the untouched rest.
  ghost predicate Replays(input: Output, fields: Fields, p: Progress, rest: seq<Value>) {
    Replay(input, p.log) == Output(fields, p.events + rest)
  }

  lemma RepairOneReplays(input: Output, fields: Fields, p: Progress, event: Value, rest: seq<Value>, ctx: RepairContext)
    requires Replays(input, fields, p, [event] + rest) && RepairOne(p, event, ctx).Success?
    ensures Replays(input, fields, RepairOne(p, event, ctx).value, rest)
  {
    hide Passes, Unrepairable, Replay;
    var n := |p.events|;
    assert p.events + ([event] + rest) == p.events + [event] + rest;
    if event.Obj? {
      var d := Passes(Draft(event.fields, []), n, ctx);
      PassesExplained(event.fields, n, ctx);
      var now := Output(fields, p.events + ([event] + rest));
      ReplayJoins(input, p.log, d.log);
      ReplayAt(now, n, d.log);
      assert now.events[n := Obj(d.event)] == p.events + [Obj(d.event)] + rest;
    }
  }

  lemma {:induction false} RepairEventsReplay(input: Output, fields: Fields, p: Progress, events: seq<Value>,
      ctx: RepairContext)
    requires Replays(input, fields, p, events)
    ensures var r := RepairEvents(p, events, ctx);
            r.Success? ==> Replays(input, fields, r.value, [])
    decreases |events|
  {
    hide RepairOne, Replays;
    if events != [] {
      var next := RepairOne(p, events[0], ctx);
      if next.Success? {
        assert [events[0]] + events[1..] == events;
        RepairOneReplays(input, fields, p, events[0], events[1..], ctx);
        RepairEventsReplay(input, fields, next.value, events[1..], ctx);
      }
    }
  }

  // Replaying the logged changes in order over the original input gives exactly the repaired output,
  // and the totals are those of the log.
  lemma LogExplainsRepair(input: Output, ctx: RepairContext)
    requires RepairAll(input, ctx).Success?
    ensures var r := RepairAll(input, ctx).value;
            && Replay(input, r.log.entries) == r.output
            && r.log.total == |r.log.entries|
            && r.log.byType.Keys == KINDS
            && SumOf(r.log.byType) == r.log.total
  {
    hide RepairEvents, WorkerPasses, Replay;
    var worker := WorkerPasses(Draft(input.fields, []), ctx);
    WorkerExplained(input.fields, ctx);
    ReplayWorker(input, worker.log);
    assert [] + input.events == input.events;
    RepairEventsReplay(input, worker.event, Progress([], worker.log), input.events, ctx);
    var p := RepairEvents(Progress([], worker.log), input.events, ctx).value;
    assert p.events + [] == p.events;
    CountsAddUp(p.log);
  }

  function At(byType: map<RepairType, nat>, kind: RepairType): nat {
    if kind in byType then byType[kind] else 0
  }

  function SumOf(byType: map<RepairType, nat>): nat {
    At(byType, DefaultInjection) + At(byType, NullNormalization) + At(byType, ContextInjection)
    + At(byType, EntityTypeDerivation) + At(byType, StatusDerivation)
  }

  lemma {:induction false} CountsAddUp(log: seq<LogEntry>)
    ensures SumOf(Counts(log)) == |log|
    decreases |log|
  {
    if log != [] {
      CountsAddUp(log[..|log| - 1]);
    }
  }
}
