/** What a repair leaves alone, and exactly when repairing the result again changes nothing. */
module RepairAgain {
  import opened Wrappers
  import opened Repairer
  import Events
  import Rules

  /******* Frames *******/

  ghost predicate Same(e: Fields, f: Fields, key: string) {
    (key in e <==> key in f) && Get(e, key) == Get(f, key)
  }

  lemma SetOne(e: Fields, field: string, v: Value, key: string)
    ensures var f := SetAt(e, [field], v);
            if key == field then Get(f, key) == v else Same(e, f, key)
  {
  }

  lemma SetInner(e: Fields, field: string, sub: string, v: Value, key: string)
    requires Get(e, field).Obj?
    ensures var f := SetAt(e, [field, sub], v);
            if key == field then Get(f, key) == Obj(Get(e, field).fields[sub := v]) else Same(e, f, key)
  {
  }

  /******* Each pass, seen from the fields *******/

  function WithDefaults(acceptance: Value): Value {
    if Missing(acceptance) then PENDING
    else if acceptance.Obj? && Get(acceptance.fields, "status").Null?
    then Obj(acceptance.fields["status" := Str("pending")])
    else acceptance
  }

  lemma AfterDefaults(d: Draft, index: int, key: string)
    ensures var f := InjectDefaults(d, index).event;
            if key == "acceptance" then Get(f, key) == WithDefaults(Get(d.event, key)) else Same(d.event, f, key)
  {
    hide SetAt;
    SetOne(d.event, "acceptance", PENDING, key);
    if Get(d.event, "acceptance").Obj? {
      SetInner(d.event, "acceptance", "status", Str("pending"), key);
    }
  }

  function Nulled(v: Value): Value {
    if v == Str("null") then Null else v
  }

  lemma {:induction false} AfterFields(d: Draft, index: int, fields: seq<string>, key: string)
    ensures var f := NormalizeFields(d, index, fields).event;
            if key in fields then Get(f, key) == Nulled(Get(d.event, key)) else Same(d.event, f, key)
    decreases |fields|
  {
    hide SetAt;
    if fields != [] {
      var n := |fields| - 1;
      AfterFields(d, index, fields[..n], key);
      SetOne(NormalizeFields(d, index, fields[..n]).event, fields[n], Null, key);
      assert fields == fields[..n] + [fields[n]];
    }
  }

  function Cleared(v: Value): Value {
    if Blankable(v) then Null else v
  }

  // The acceptance record keeps its shape; only the named decision fields can be cleared.
  ghost predicate DecisionsCleared(a: Value, b: Value, fields: seq<string>) {
    && (a.Obj? <==> b.Obj?) && (!a.Obj? ==> b == a)
    && (a.Obj? ==> forall sub ::
          Get(b.fields, sub) == if sub in fields then Cleared(Get(a.fields, sub)) else Get(a.fields, sub))
  }

  lemma {:induction false} AfterDecisions(d: Draft, index: int, fields: seq<string>, key: string)
    ensures var f := NormalizeDecisions(d, index, fields).event;
            && DecisionsCleared(Get(d.event, "acceptance"), Get(f, "acceptance"), fields)
            && (key != "acceptance" ==> Same(d.event, f, key))
    decreases |fields|
  {
    hide SetAt;
    if fields != [] {
      var n := |fields| - 1;
      AfterDecisions(d, index, fields[..n], key);
      var before := NormalizeDecisions(d, index, fields[..n]);
      var acceptance := Get(before.event, "acceptance");
      if acceptance.Obj? {
        SetInner(before.event, "acceptance", fields[n], Null, key);
        SetInner(before.event, "acceptance", fields[n], Null, "acceptance");
      }
      assert fields == fields[..n] + [fields[n]];
    }
  }

  lemma AfterContext(d: Draft, index: int, ctx: RepairContext, key: string)
    ensures var f := InjectContext(d, index, ctx).event;
            if key == "snapshot_ref" && Missing(Get(d.event, key)) && ctx.snapshotRef.Some?
            then Get(f, key) == Str(ctx.snapshotRef.value) else Same(d.event, f, key)
  {
    hide SetAt;
    if ctx.snapshotRef.Some? {
      SetOne(d.event, "snapshot_ref", Str(ctx.snapshotRef.value), key);
    }
  }

  lemma AfterEntityType(d: Draft, index: int, key: string)
    ensures var f := DeriveEntityType(d, index).event;
            var derived := Lookup(ENTITY_TYPES, Get(d.event, "event_type"));
            if key == "entity_type" && Missing(Get(d.event, key)) && derived.Some?
            then Get(f, key) == Str(derived.value) else Same(d.event, f, key)
  {
    hide SetAt, Lookup;
    var derived := Lookup(ENTITY_TYPES, Get(d.event, "event_type"));
    if derived.Some? {
      SetOne(d.event, "entity_type", Str(derived.value), key);
    }
  }

  predicate HasStatus(payload: Value) {
    payload.Obj? && !Missing(Get(payload.fields, "status"))
  }

  lemma AfterStatus(d: Draft, index: int, key: string)
    ensures var f := DeriveStatus(d, index).event;
            && (key != "payload" ==> Same(d.event, f, key))
            && (Lookup(STATUSES, Get(d.event, "event_type")).Some? ==> HasStatus(Get(f, "payload")))
            && (Lookup(STATUSES, Get(d.event, "event_type")).None? ==> f == d.event)
  {
    hide SetAt;
    var status := Lookup(STATUSES, Get(d.event, "event_type"));
    if status.Some? {
      SetOne(d.event, "payload", Obj(map[]), key);
      SetOne(d.event, "payload", Obj(map[]), "payload");
      var ready := EnsurePayload(d, index);
      SetInner(ready.event, "payload", "status", Str(status.value), key);
      SetInner(ready.event, "payload", "status", Str(status.value), "payload");
      NoStatusIsNull(Get(d.event, "event_type").text);
    }
  }

  // No derived value is the text "null".
  lemma NoStatusIsNull(eventType: string)
    ensures eventType in STATUSES ==> STATUSES[eventType] != "null"
  {
    assert forall k :: k in STATUSES ==> |STATUSES[k]| != 4 || STATUSES[k] == "open";
  }

  lemma NoEntityTypeIsNull(eventType: string)
    ensures eventType in ENTITY_TYPES ==> ENTITY_TYPES[eventType] != "null"
  {
    assert forall k :: k in ENTITY_TYPES ==> |ENTITY_TYPES[k]| != 4;
  }

  const REPAIRABLE: seq<string> := NULLABLE + ["acceptance", "payload"]

  // A repair adds, removes and changes no other field; in particular never the event type.
  lemma OtherFieldsStay(event: Fields, index: int, ctx: RepairContext, key: string)
    requires key !in REPAIRABLE
    ensures Same(event, Passes(Draft(event, []), index, ctx).event, key)
    ensures "event_type" !in REPAIRABLE
  {
    hide InjectDefaults, NormalizeFields, NormalizeDecisions, InjectContext, DeriveEntityType, DeriveStatus, Get;
    var d0 := Draft(event, []);
    var d1 := InjectDefaults(d0, index);
    var d2 := NormalizeFields(d1, index, NULLABLE);
    var d3 := NormalizeDecisions(d2, index, DECISION_FIELDS);
    var d4 := InjectContext(d3, index, ctx);
    var d5 := DeriveEntityType(d4, index);
    assert NULLABLE[7] == "snapshot_ref" && NULLABLE[1] == "entity_type";
    assert REPAIRABLE[8] == "acceptance" && REPAIRABLE[9] == "payload";
    AfterDefaults(d0, index, key);
    AfterFields(d1, index, NULLABLE, key);
    AfterDecisions(d2, index, DECISION_FIELDS, key);
    AfterContext(d3, index, ctx, key);
    AfterEntityType(d4, index, key);
    AfterStatus(d5, index, key);
  }

  /******* All five passes *******/

  lemma Chain(event: Fields, index: int, ctx: RepairContext, key: string)
    returns (d1: Draft, d2: Draft, d3: Draft, d4: Draft, d5: Draft)
    ensures d1 == InjectDefaults(Draft(event, []), index) && d2 == NormalizeFields(d1, index, NULLABLE)
    ensures d3 == NormalizeDecisions(d2, index, DECISION_FIELDS) && d4 == InjectContext(d3, index, ctx)
    ensures d5 == DeriveEntityType(d4, index)
    ensures Passes(Draft(event, []), index, ctx) == DeriveStatus(d5, index)
  {
    hide InjectDefaults, NormalizeFields, NormalizeDecisions, InjectContext, DeriveEntityType, DeriveStatus;
    d1 := InjectDefaults(Draft(event, []), index);
    d2 := NormalizeFields(d1, index, NULLABLE);
    d3 := NormalizeDecisions(d2, index, DECISION_FIELDS);
    d4 := InjectContext(d3, index, ctx);
    d5 := DeriveEntityType(d4, index);
  }

  lemma FinalAcceptance(event: Fields, index: int, ctx: RepairContext)
    ensures DecisionsCleared(WithDefaults(Get(event, "acceptance")),
                             Get(Passes(Draft(event, []), index, ctx).event, "acceptance"), DECISION_FIELDS)
  {
    hide InjectDefaults, NormalizeFields, NormalizeDecisions, InjectContext, DeriveEntityType, DeriveStatus, Get,
        Passes,
      DecisionsCleared, WithDefaults;
    var d1, d2, d3, d4, d5 := Chain(event, index, ctx, "acceptance");
    AfterDefaults(Draft(event, []), index, "acceptance");
    AfterFields(d1, index, NULLABLE, "acceptance");
    AfterDecisions(d2, index, DECISION_FIELDS, "acceptance");
    AfterContext(d3, index, ctx, "acceptance");
    AfterEntityType(d4, index, "acceptance");
    AfterStatus(d5, index, "acceptance");
  }

  function FinalValue(event: Fields, ctx: RepairContext, key: string): Value {
    var v := Nulled(Get(event, key));
    var derived := Lookup(ENTITY_TYPES, Get(event, "event_type"));
    if key == "snapshot_ref" && Missing(v) && ctx.snapshotRef.Some? then Str(ctx.snapshotRef.value)
    else if key == "entity_type" && Missing(v) && derived.Some? then Str(derived.value)
    else v
  }

  lemma FinalField(event: Fields, index: int, ctx: RepairContext, key: string)
    requires key in NULLABLE
    ensures Get(Passes(Draft(event, []), index, ctx).event, key) == FinalValue(event, ctx, key)
  {
    hide InjectDefaults, NormalizeFields, NormalizeDecisions, InjectContext, DeriveEntityType, DeriveStatus, Get,
        Passes, Lookup,
      DecisionsCleared;
    assert key != "acceptance" && key != "payload";
    var d1, d2, d3, d4, d5 := Chain(event, index, ctx, key);
    AfterDefaults(Draft(event, []), index, key);
    AfterFields(d1, index, NULLABLE, key);
    AfterDecisions(d2, index, DECISION_FIELDS, key);
    AfterContext(d3, index, ctx, key);
    AfterEntityType(d4, index, key);
    AfterStatus(d5, index, key);
    EventTypeStays(event, index, ctx);
  }

  lemma EventTypeStays(event: Fields, index: int, ctx: RepairContext)
    ensures var d1 := InjectDefaults(Draft(event, []), index);
            var d4 := InjectContext(NormalizeDecisions(NormalizeFields(d1, index, NULLABLE), index,
                DECISION_FIELDS), index, ctx);
            && Get(d4.event, "event_type") == Get(event, "event_type")
            && Get(DeriveEntityType(d4, index).event, "event_type") == Get(event, "event_type")
  {
    hide InjectDefaults, NormalizeFields, NormalizeDecisions, InjectContext, DeriveEntityType, DeriveStatus, Get,
        Passes, Lookup,
      DecisionsCleared;
    var d1, d2, d3, d4, d5 := Chain(event, index, ctx, "event_type");
    assert "event_type" !in NULLABLE;
    AfterDefaults(Draft(event, []), index, "event_type");
    AfterFields(d1, index, NULLABLE, "event_type");
    AfterDecisions(d2, index, DECISION_FIELDS, "event_type");
    AfterContext(d3, index, ctx, "event_type");
    AfterEntityType(d4, index, "event_type");
  }

  lemma FinalPayload(event: Fields, index: int, ctx: RepairContext)
    ensures Get(Passes(Draft(event, []), index, ctx).event, "event_type") == Get(event, "event_type")
    ensures Lookup(STATUSES, Get(event, "event_type")).Some? ==>
            HasStatus(Get(Passes(Draft(event, []), index, ctx).event, "payload"))
  {
    hide InjectDefaults, NormalizeFields, NormalizeDecisions, InjectContext, DeriveEntityType, DeriveStatus, Get,
        Passes, Lookup, HasStatus;
    var d1, d2, d3, d4, d5 := Chain(event, index, ctx, "payload");
    EventTypeStays(event, index, ctx);
    AfterStatus(d5, index, "event_type");
  }

  /******* Repairs that find nothing to do *******/

  predicate NeedsNoDefaults(acceptance: Value) {
    !Missing(acceptance) && (acceptance.Obj? ==> !Get(acceptance.fields, "status").Null?)
  }

  predicate NeedsNoClearing(acceptance: Value, fields: seq<string>) {
    acceptance.Obj? ==> forall sub :: sub in fields ==> !Blankable(Get(acceptance.fields, sub))
  }

  predicate NeedsNoNulls(event: Fields, fields: seq<string>) {
    forall f :: f in fields ==> Get(event, f) != Str("null")
  }

  predicate Quiet(event: Fields, ctx: RepairContext) {
    && NeedsNoDefaults(Get(event, "acceptance"))
    && NeedsNoNulls(event, NULLABLE)
    && NeedsNoClearing(Get(event, "acceptance"), DECISION_FIELDS)
    && (Missing(Get(event, "snapshot_ref")) ==> ctx.snapshotRef.None?)
    && (Missing(Get(event, "entity_type")) ==> Lookup(ENTITY_TYPES, Get(event, "event_type")).None?)
    && (Lookup(STATUSES, Get(event, "event_type")).Some? ==> HasStatus(Get(event, "payload")))
  }

  // A pass either leaves the draft alone or logs something.
  ghost predicate Logged(d: Draft, n: Draft) {
    n == d || |n.log| > |d.log|
  }

  lemma {:induction false} FieldsQuietIff(d: Draft, index: int, fields: seq<string>)
    ensures var n := NormalizeFields(d, index, fields);
            Logged(d, n) && (n == d <==> NeedsNoNulls(d.event, fields))
    decreases |fields|
  {
    hide SetAt, Get;
    if fields != [] {
      FieldsQuietIff(d, index, fields[..|fields| - 1]);
      assert fields == fields[..|fields| - 1] + [fields[|fields| - 1]];
    }
  }

  lemma {:induction false} DecisionsQuietIff(d: Draft, index: int, fields: seq<string>)
    ensures var n := NormalizeDecisions(d, index, fields);
            Logged(d, n) && (n == d <==> NeedsNoClearing(Get(d.event, "acceptance"), fields))
    decreases |fields|
  {
    hide SetAt, Get;
    if fields != [] {
      DecisionsQuietIff(d, index, fields[..|fields| - 1]);
      assert fields == fields[..|fields| - 1] + [fields[|fields| - 1]];
    }
  }

  lemma StatusQuietIff(d: Draft, index: int)
    ensures var n := DeriveStatus(d, index);
            && Logged(d, n)
            && (n == d <==> (Lookup(STATUSES, Get(d.event, "event_type")).Some? ==> HasStatus(Get(d.event, "payload"))))
  {
    hide SetAt, Lookup, Get;
  }

  lemma OthersQuietIff(d: Draft, index: int, ctx: RepairContext)
    ensures Logged(d, InjectDefaults(d, index))
    ensures (InjectDefaults(d, index) == d <==> NeedsNoDefaults(Get(d.event, "acceptance")))
    ensures Logged(d, InjectContext(d, index, ctx))
    ensures InjectContext(d, index, ctx) == d <==> (Missing(Get(d.event, "snapshot_ref")) ==> ctx.snapshotRef.None?)
    ensures Logged(d, DeriveEntityType(d, index))
    ensures DeriveEntityType(d, index) == d
            <==> (Missing(Get(d.event, "entity_type")) ==> Lookup(ENTITY_TYPES, Get(d.event, "event_type")).None?)
  {
    hide SetAt, Lookup, Get;
  }

  lemma QuietIff(event: Fields, index: int, ctx: RepairContext)
    ensures var n := Passes(Draft(event, []), index, ctx);
            (n.log == [] <==> Quiet(event, ctx)) && (n.log == [] ==> n.event == event)
  {
    hide InjectDefaults, NormalizeFields, NormalizeDecisions, InjectContext, DeriveEntityType, DeriveStatus, Get,
        Passes, Lookup,
      NeedsNoDefaults, NeedsNoNulls, NeedsNoClearing, HasStatus;
    var d0 := Draft(event, []);
    var d1, d2, d3, d4, d5 := Chain(event, index, ctx, "");
    OthersQuietIff(d0, index, ctx);
    FieldsQuietIff(d1, index, NULLABLE);
    DecisionsQuietIff(d2, index, DECISION_FIELDS);
    OthersQuietIff(d3, index, ctx);
    OthersQuietIff(d4, index, ctx);
    StatusQuietIff(d5, index);
  }

  /******* The second repair of one event *******/

  predicate ReinjectsNull(event: Fields, ctx: RepairContext) {
    ctx.snapshotRef == Some("null") && Missing(Get(event, "snapshot_ref"))
  }

  lemma NothingDerivesNull(eventType: Value)
    ensures Lookup(ENTITY_TYPES, eventType).Some? ==> Lookup(ENTITY_TYPES, eventType).value != "null"
  {
    if eventType.Str? {
      NoEntityTypeIsNull(eventType.text);
    }
  }

  // A repaired field holds the text "null" only where the context put it.
  lemma FinalNullIff(event: Fields, ctx: RepairContext, f: string)
    ensures FinalValue(event, ctx, f) == Str("null") <==> f == "snapshot_ref" && ReinjectsNull(event, ctx)
  {
    hide Get, Lookup;
    NothingDerivesNull(Get(event, "event_type"));
  }

  lemma FinalNullsIff(event: Fields, index: int, ctx: RepairContext)
    ensures NeedsNoNulls(Passes(Draft(event, []), index, ctx).event, NULLABLE) <==> !ReinjectsNull(event, ctx)
  {
    hide Passes, Get, FinalValue, ReinjectsNull;
    var e := Passes(Draft(event, []), index, ctx).event;
    forall f | f in NULLABLE ensures Get(e, f) == Str("null") <==> f == "snapshot_ref" && ReinjectsNull(event, ctx) {
      FinalField(event, index, ctx, f);
      FinalNullIff(event, ctx, f);
    }
    var f := NULLABLE[7];
    assert f == "snapshot_ref" && f in NULLABLE;
    if ReinjectsNull(event, ctx) {
      assert Get(e, f) == Str("null");
    }
  }

  lemma FinalFieldsQuiet(event: Fields, index: int, ctx: RepairContext)
    ensures var e := Passes(Draft(event, []), index, ctx).event;
            && (NeedsNoNulls(e, NULLABLE) <==> !ReinjectsNull(event, ctx))
            && (!ReinjectsNull(event, ctx) ==> (Missing(Get(e, "snapshot_ref")) ==> ctx.snapshotRef.None?))
            && (Missing(Get(e, "entity_type")) ==> Lookup(ENTITY_TYPES, Get(e, "event_type")).None?)
  {
    hide Passes, Get, Lookup, NeedsNoNulls;
    FinalNullsIff(event, index, ctx);
    assert NULLABLE[7] == "snapshot_ref" && NULLABLE[1] == "entity_type";
    FinalField(event, index, ctx, "snapshot_ref");
    FinalField(event, index, ctx, "entity_type");
    FinalPayload(event, index, ctx);
    NothingDerivesNull(Get(event, "event_type"));
  }

  lemma FinalAcceptanceQuiet(event: Fields, index: int, ctx: RepairContext)
    requires Unrepairable(event, 0).None?
    ensures var a := Get(Passes(Draft(event, []), index, ctx).event, "acceptance");
            NeedsNoDefaults(a) && NeedsNoClearing(a, DECISION_FIELDS)
  {
    hide Passes;
    FinalAcceptance(event, index, ctx);
    assert "status" !in DECISION_FIELDS;
    assert Str("null") != Str("pending");
  }

  // After a repair the passes find nothing to do, unless the context itself injects the text "null".
  lemma SecondPassesQuietIff(event: Fields, index: int, ctx: RepairContext)
    requires Unrepairable(event, 0).None?
    ensures Quiet(Passes(Draft(event, []), index, ctx).event, ctx) <==> !ReinjectsNull(event, ctx)
  {
    hide Passes, NeedsNoDefaults, NeedsNoNulls, NeedsNoClearing, Get, Lookup, HasStatus, Missing, ReinjectsNull;
    FinalFieldsQuiet(event, index, ctx);
    FinalAcceptanceQuiet(event, index, ctx);
    FinalPayload(event, index, ctx);
  }

  // Whoever decided is tolerated while the status is absent; the injected status makes it an error.
  predicate DeciderTolerated(event: Fields) {
    var acceptance := Get(event, "acceptance");
    acceptance.Obj? && Get(acceptance.fields, "status").Null? ==>
      Get(acceptance.fields, "decided_by").Null? || Blankable(Get(acceptance.fields, "decided_by"))
  }

  lemma StillRepairableIff(event: Fields, index: int, ctx: RepairContext, again: nat)
    requires Unrepairable(event, 0).None?
    ensures Unrepairable(Passes(Draft(event, []), index, ctx).event, again).None? <==> DeciderTolerated(event)
  {
    hide Passes, Lookup;
    FinalAcceptance(event, index, ctx);
    FinalPayload(event, index, ctx);
    assert DECISION_FIELDS[1] == "decided_by" && "status" !in DECISION_FIELDS;
  }

  /******* The second repair of a whole output *******/

  predicate Settled(event: Value, ctx: RepairContext) {
    event.Obj? ==> Unrepairable(event.fields, 0).None? && Quiet(event.fields, ctx)
  }

  lemma QuietOneIff(p: Progress, event: Value, ctx: RepairContext)
    ensures var r := RepairOne(p, event, ctx);
            && (r.Success? ==> |r.value.log| >= |p.log|)
            && (r.Success? && |r.value.log| == |p.log| <==> Settled(event, ctx))
            && (Settled(event, ctx) ==> r == Success(Progress(p.events + [event], p.log)))
  {
    hide Passes, Quiet;
    if event.Obj? {
      var d := Passes(Draft(event.fields, []), |p.events|, ctx);
      QuietIff(event.fields, |p.events|, ctx);
      assert d.log == [] ==> p.log + d.log == p.log;
    }
  }

  lemma {:induction false} QuietEventsIff(p: Progress, events: seq<Value>, ctx: RepairContext)
    ensures var r := RepairEvents(p, events, ctx);
            && (r.Success? ==> |r.value.log| >= |p.log|)
            && (r.Success? && |r.value.log| == |p.log| <==> forall e :: e in events ==> Settled(e, ctx))
            && ((forall e :: e in events ==> Settled(e, ctx)) ==> r == Success(Progress(p.events + events, p.log)))
    decreases |events|
  {
    hide RepairOne, Settled;
    if events == [] {
      assert p.events + events == p.events;
    } else {
      QuietOneIff(p, events[0], ctx);
      var next := RepairOne(p, events[0], ctx);
      assert events == [events[0]] + events[1..];
      if next.Success? {
        QuietEventsIff(next.value, events[1..], ctx);
        assert p.events + [events[0]] + events[1..] == p.events + events;
      }
    }
  }

  function RepairedEvent(event: Value, index: nat, ctx: RepairContext): Value {
    if event.Obj? then Obj(Passes(Draft(event.fields, []), index, ctx).event) else event
  }

  lemma {:induction false} EventsRepaired(p: Progress, events: seq<Value>, ctx: RepairContext)
    requires RepairEvents(p, events, ctx).Success?
    ensures var r := RepairEvents(p, events, ctx).value;
            && |r.events| == |p.events| + |events| && r.events[..|p.events|] == p.events
            && (forall i :: 0 <= i < |events| ==>
                r.events[|p.events| + i] == RepairedEvent(events[i], |p.events| + i, ctx))
            && (forall i :: 0 <= i < |events| && events[i].Obj? ==> Unrepairable(events[i].fields, 0).None?)
    decreases |events|
  {
    hide Passes;
    if events != [] {
      var next := RepairOne(p, events[0], ctx).value;
      EventsRepaired(next, events[1..], ctx);
      var r := RepairEvents(p, events, ctx).value;
      assert r.events[..|next.events|][|p.events|] == r.events[|p.events|];
      assert r.events[..|p.events|] == next.events[..|p.events|];
      forall i | 0 <= i < |events|
        ensures r.events[|p.events| + i] == RepairedEvent(events[i], |p.events| + i, ctx)
        ensures events[i].Obj? ==> Unrepairable(events[i].fields, 0).None?
      {
        if i > 0 {
          assert events[1..][i - 1] == events[i];
          assert r.events[|next.events| + (i - 1)] == RepairedEvent(events[i], |next.events| + (i - 1), ctx);
        }
      }
    }
  }

  predicate WorkerReinjects(fields: Fields, ctx: RepairContext) {
    || (ctx.sliceId == Some("null") && Missing(Get(fields, "slice_id")))
    || (ctx.taskId == Some("null") && Missing(Get(fields, "task_id")))
    || (ctx.snapshotRef == Some("null") && Missing(Get(fields, "snapshot_ref")))
  }

  predicate WorkerQuiet(fields: Fields, ctx: RepairContext) {
    && !Missing(Get(fields, "schema_version"))
    && (Missing(Get(fields, "slice_id")) ==> ctx.sliceId.None?)
    && (Missing(Get(fields, "task_id")) ==> ctx.taskId.None?)
    && (Missing(Get(fields, "snapshot_ref")) ==> ctx.snapshotRef.None?)
  }

  lemma WorkerFieldAfter(d: Draft, field: string, value: Option<string>, key: string)
    ensures var n := InjectWorkerField(d, field, value);
            && (if key == field && Missing(Get(d.event, key)) && value.Some?
                then Get(n.event, key) == Str(value.value)
                else Same(d.event, n.event, key))
            && Logged(d, n) && (n == d <==> (Missing(Get(d.event, field)) ==> value.None?))
  {
    hide SetAt;
    if value.Some? {
      SetOne(d.event, field, Str(value.value), key);
    }
  }

  function Versioned(fields: Fields): Draft {
    var d := Draft(fields, []);
    var version := Get(fields, "schema_version");
    if Missing(version) then Put(d, -1, DefaultInjection, ["schema_version"], version, Str("1.0.0")) else d
  }

  lemma WorkerChain(fields: Fields, ctx: RepairContext) returns (d1: Draft, d2: Draft, d3: Draft)
    ensures d1 == Versioned(fields) && d2 == InjectWorkerField(d1, "slice_id", ctx.sliceId)
    ensures d3 == InjectWorkerField(d2, "task_id", ctx.taskId)
    ensures WorkerPasses(Draft(fields, []), ctx) == InjectWorkerField(d3, "snapshot_ref", ctx.snapshotRef)
  {
    hide InjectWorkerField;
    d1 := Versioned(fields);
    d2 := InjectWorkerField(d1, "slice_id", ctx.sliceId);
    d3 := InjectWorkerField(d2, "task_id", ctx.taskId);
  }

  lemma VersionedAfter(fields: Fields, key: string)
    ensures var n := Versioned(fields);
            && Logged(Draft(fields, []), n) && (n == Draft(fields, []) <==> !Missing(Get(fields, "schema_version")))
            && (key != "schema_version" ==> Get(n.event, key) == Get(fields, key))
            && !Missing(Get(n.event, "schema_version"))
  {
    hide SetAt;
    SetOne(fields, "schema_version", Str("1.0.0"), key);
    SetOne(fields, "schema_version", Str("1.0.0"), "schema_version");
    assert Str("1.0.0") != Str("null");
  }

  lemma WorkerQuietIff(fields: Fields, ctx: RepairContext)
    ensures var n := WorkerPasses(Draft(fields, []), ctx);
            (n.log == [] <==> WorkerQuiet(fields, ctx)) && (n.log == [] ==> n.event == fields)
  {
    hide InjectWorkerField, Versioned, Missing, Get;
    var d1, d2, d3 := WorkerChain(fields, ctx);
    VersionedAfter(fields, "");
    WorkerFieldAfter(d1, "slice_id", ctx.sliceId, "");
    WorkerFieldAfter(d2, "task_id", ctx.taskId, "");
    WorkerFieldAfter(d3, "snapshot_ref", ctx.snapshotRef, "");
  }

  function Injected(v: Value, value: Option<string>): Value {
    if Missing(v) && value.Some? then Str(value.value) else v
  }

  lemma WorkerFinal(fields: Fields, ctx: RepairContext)
    ensures var e := WorkerPasses(Draft(fields, []), ctx).event;
            && !Missing(Get(e, "schema_version"))
            && Get(e, "slice_id") == Injected(Get(fields, "slice_id"), ctx.sliceId)
            && Get(e, "task_id") == Injected(Get(fields, "task_id"), ctx.taskId)
            && Get(e, "snapshot_ref") == Injected(Get(fields, "snapshot_ref"), ctx.snapshotRef)
  {
    hide InjectWorkerField, Versioned, Get, WorkerPasses;
    WorkerFinalAt(fields, ctx, "schema_version");
    WorkerFinalAt(fields, ctx, "slice_id");
    WorkerFinalAt(fields, ctx, "task_id");
    WorkerFinalAt(fields, ctx, "snapshot_ref");
  }

  lemma WorkerFinalAt(fields: Fields, ctx: RepairContext, key: string)
    ensures var e := WorkerPasses(Draft(fields, []), ctx).event;
            && (key == "schema_version" ==> !Missing(Get(e, key)))
            && (key == "slice_id" ==> Get(e, key) == Injected(Get(fields, key), ctx.sliceId))
            && (key == "task_id" ==> Get(e, key) == Injected(Get(fields, key), ctx.taskId))
            && (key == "snapshot_ref" ==> Get(e, key) == Injected(Get(fields, key), ctx.snapshotRef))
  {
    hide InjectWorkerField, Versioned, Get, WorkerPasses;
    var d1, d2, d3 := WorkerChain(fields, ctx);
    VersionedAfter(fields, key);
    WorkerFieldAfter(d1, "slice_id", ctx.sliceId, key);
    WorkerFieldAfter(d2, "task_id", ctx.taskId, key);
    WorkerFieldAfter(d3, "snapshot_ref", ctx.snapshotRef, key);
  }

  lemma SecondWorkerQuietIff(fields: Fields, ctx: RepairContext)
    ensures WorkerQuiet(WorkerPasses(Draft(fields, []), ctx).event, ctx) <==> !WorkerReinjects(fields, ctx)
  {
    hide WorkerPasses, Get;
    WorkerFinal(fields, ctx);
  }

  predicate QuietAgain(input: Output, ctx: RepairContext) {
    && !WorkerReinjects(input.fields, ctx)
    && forall i :: 0 <= i < |input.events| && input.events[i].Obj? ==>
         !ReinjectsNull(input.events[i].fields, ctx) && DeciderTolerated(input.events[i].fields)
  }

  lemma SettledIff(event: Value, index: nat, ctx: RepairContext)
    requires event.Obj? && Unrepairable(event.fields, 0).None?
    ensures Settled(RepairedEvent(event, index, ctx), ctx)
            <==> !ReinjectsNull(event.fields, ctx) && DeciderTolerated(event.fields)
  {
    hide Passes, Quiet, Unrepairable, ReinjectsNull, DeciderTolerated;
    SecondPassesQuietIff(event.fields, index, ctx);
    StillRepairableIff(event.fields, index, ctx, 0);
  }

  // Repairing the repaired output succeeds without logging anything, and so changes nothing, exactly
  // when no missing field is given the text "null" by the context and nobody is named as decider
  // where the acceptance status was absent.
  lemma SecondRepairIsQuietIff(input: Output, ctx: RepairContext)
    requires RepairAll(input, ctx).Success?
    ensures var once := RepairAll(input, ctx).value.output;
            var twice := RepairAll(once, ctx);
            && (twice.Success? && twice.value.log.entries == [] <==> QuietAgain(input, ctx))
            && (QuietAgain(input, ctx) ==> twice.value.output == once)
  {
    hide WorkerPasses, RepairEvents, Settled, RepairedEvent, WorkerQuiet, WorkerReinjects, Unrepairable, Counts,
        ReinjectsNull, DeciderTolerated;
    var worker := WorkerPasses(Draft(input.fields, []), ctx);
    var once := RepairAll(input, ctx).value.output;
    EventsRepaired(Progress([], worker.log), input.events, ctx);
    SecondWorkerQuietIff(input.fields, ctx);
    WorkerQuietIff(once.fields, ctx);
    var again := WorkerPasses(Draft(once.fields, []), ctx);
    QuietEventsIff(Progress([], again.log), once.events, ctx);
    assert [] + once.events == once.events;
    forall i | 0 <= i < |input.events|
      ensures Settled(once.events[i], ctx)
              <==> (input.events[i].Obj? ==>
                  !ReinjectsNull(input.events[i].fields, ctx) && DeciderTolerated(input.events[i].fields))
    {
      SettledOneIff(input.events[i], i, ctx);
    }
  }

  lemma SettledOneIff(event: Value, index: nat, ctx: RepairContext)
    requires event.Obj? ==> Unrepairable(event.fields, 0).None?
    ensures Settled(RepairedEvent(event, index, ctx), ctx)
            <==> (event.Obj? ==> !ReinjectsNull(event.fields, ctx) && DeciderTolerated(event.fields))
  {
    hide Passes, Quiet, Unrepairable, ReinjectsNull, DeciderTolerated;
    if event.Obj? {
      SettledIff(event, index, ctx);
    }
  }

  /******* A derived status that the rules never accept *******/

  // The candidate transitions of the shipped rule file.
  const CANDIDATE_TRANSITIONS: seq<Rules.Transition> := [
    Rules.Transition(Rules.ABSENT, "proposed", [Events.CandidateProposed]),
    Rules.Transition("proposed", "routed_to_verify", [Events.OtherEvent("candidate.routed_to_verify")]),
    Rules.Transition("proposed", "rejected", [Events.OtherEvent("candidate.rejected")]),
    Rules.Transition("routed_to_verify", "rejected", [Events.OtherEvent("candidate.rejected")]),
    Rules.Transition("routed_to_verify", "resolved_promoted", [Events.CandidatePromoted])]

  // The status derived for a promotion is "promoted_to_observation", which no candidate transition
  // leads to, so a promotion repaired in this way is permitted from no status at all.
  lemma DerivedPromotionIsNeverPermitted(current: string)
    ensures Lookup(STATUSES, Str("candidate.promoted_to_observation")).Some?
    ensures Rules.FindAllowed(CANDIDATE_TRANSITIONS, current,
              Lookup(STATUSES, Str("candidate.promoted_to_observation")).value, Events.CandidatePromoted).None?
  {
    assert |"promoted_to_observation"| == 23 && |"resolved_promoted"| == 17;
  }
}
