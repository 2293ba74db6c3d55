/** Runs of appends and state rewrites with a crash possible inside every step. The ledger file, the
    canonical state file and the snapshot files are followed byte for byte; the projection is any
    partial function of the events read back. */
module CrashRecovery {
  import opened Wrappers
  import opened Json
  import opened JsonFacts
  import opened EventStore
  import opened LedgerRecovery

  datatype Disk<S> = Disk(ledger: string, state: Option<S>, snapshots: set<S>)

  // How far a state rewrite got: both files are replaced atomically, the state file first.
  datatype Reach = BeforeState | BeforeSnapshot | Complete

  // An append reaches the file up to `cut` characters; a cut at the full length is no crash.
  datatype Op = Append(members: seq<Member>, cut: nat) | Recover(reach: Reach)

  predicate ValidOp(op: Op) {
    op.Append? ==> op.cut <= |RecordText(op.members)|
  }

  predicate AllValid(ops: seq<Op>) {
    forall i :: 0 <= i < |ops| ==> ValidOp(ops[i])
  }

  function Apply<S>(project: seq<Value> -> Option<S>, d: Disk<S>, op: Op): Disk<S>
    requires ValidOp(op)
  {
    match Repaired(d.ledger)
    case None => d
    case Some(ledger) =>
      match op
      case Append(members, cut) => d.(ledger := ledger + RecordText(members)[..cut])
      case Recover(reach) =>
        var repaired := d.(ledger := ledger);
        match project(Events(ledger))
        case None => repaired
        case Some(state) =>
          if reach.BeforeState? then repaired
          else if reach.BeforeSnapshot? then repaired.(state := Some(state))
          else repaired.(state := Some(state), snapshots := d.snapshots + {state})
  }

  // From a workspace that has a ledger and no state file yet.
  function Run<S>(project: seq<Value> -> Option<S>, ledger: string, ops: seq<Op>): Disk<S>
    requires AllValid(ops)
  {
    if ops == [] then Disk(ledger, None, {})
    else Apply(project, Run(project, ledger, ops[..|ops| - 1]), ops[|ops| - 1])
  }

  /******* What survives *******/

  // The one dangerous crash: the record reached the file and its newline did not.
  predicate LosesOnlyNewline(op: Op) {
    op.Append? && op.cut == |Print(Object(op.members))|
  }

  predicate Writes(op: Op) {
    op.Append? && op.cut > 0
  }

  // The last line of the ledger is a record without its newline.
  predicate OpenAfter(ops: seq<Op>) {
    ops != [] &&
    var before, op := OpenAfter(ops[..|ops| - 1]), ops[|ops| - 1];
    if Writes(op) then !before && LosesOnlyNewline(op) else before
  }

  // No append reaches the file while its last line is open.
  predicate NeverJoins(ops: seq<Op>) {
    ops == [] || (NeverJoins(ops[..|ops| - 1]) && !(OpenAfter(ops[..|ops| - 1]) && Writes(ops[|ops| - 1])))
  }

  // The events whose whole record reached the file, in order.
  function Written(ops: seq<Op>): seq<Value> {
    if ops == [] then [] else Written(ops[..|ops| - 1]) + WrittenBy(ops[|ops| - 1])
  }

  function WrittenBy(op: Op): seq<Value> {
    if op.Append? && op.cut >= |Print(Object(op.members))| then [Object(op.members)] else []
  }

  // The events that are left: writing behind an open line destroys that line and what is written.
  function Survivors(first: seq<Value>, ops: seq<Op>): seq<Value> {
    if ops == [] then first
    else
      var before, op := Survivors(first, ops[..|ops| - 1]), ops[|ops| - 1];
      if OpenAfter(ops[..|ops| - 1]) && Writes(op) then (if before == [] then [] else before[..|before| - 1])
      else before + WrittenBy(op)
  }

  /******* The ledger along a run *******/

  // A line that the next repair removes, or nothing.
  predicate BadTail(tail: string) {
    tail == "" || (SplitLines(tail) == [tail] && ReadLine(tail).Bad?)
  }

  ghost predicate ClosedAt(ledger: string, events: seq<Value>, base: string, tail: string) {
    Clean(base) && Events(base) == events && BadTail(tail) && ledger == base + tail
  }

  ghost predicate OpenAt(ledger: string, events: seq<Value>, base: string, members: seq<Member>) {
    Clean(base) && events == Events(base) + [Object(members)] && ledger == base + Print(Object(members))
  }

  // The file holds `events`, and its last line is open or not.
  ghost predicate Holds(ledger: string, events: seq<Value>, open: bool) {
    if open then exists base, members :: OpenAt(ledger, events, base, members)
    else exists base, tail :: ClosedAt(ledger, events, base, tail)
  }

  lemma CleanHolds(ledger: string)
    requires Clean(ledger)
    ensures Holds(ledger, Events(ledger), false)
  {
    hide Clean, Events;
    assert ledger + "" == ledger;
    assert ClosedAt(ledger, Events(ledger), ledger, "");
  }

  lemma ClosedRepairs(ledger: string, events: seq<Value>, base: string, tail: string)
    requires ClosedAt(ledger, events, base, tail)
    ensures Repaired(ledger) == Some(base)
  {
    hide Repaired, Clean, Events, ReadLine, SplitLines;
    if tail == "" {
      assert base + tail == base;
      CleanIsStable(base);
    } else {
      TailRepair(base, tail);
    }
  }

  lemma OpenRepairs(ledger: string, events: seq<Value>, base: string, members: seq<Member>)
    requires OpenAt(ledger, events, base, members)
    ensures Repaired(ledger) == Some(ledger) && Events(ledger) == events
  {
    hide Repaired, Clean, Events, Print;
    KeptRecord(base, members, "");
    assert Print(Object(members)) + "" == Print(Object(members));
  }

  // Recovery succeeds, reads back the events, and a repaired ledger is as open as it was.
  lemma HoldsRepairs(ledger: string, events: seq<Value>, open: bool)
    requires Holds(ledger, events, open)
    ensures Repaired(ledger).Some? && Events(Repaired(ledger).value) == events
    ensures Holds(Repaired(ledger).value, events, open)
    ensures open ==> Repaired(ledger).value == ledger
    ensures !open ==> Clean(Repaired(ledger).value)
  {
    hide Repaired, Clean, Events, Print, ReadLine, SplitLines;
    if open {
      var base, members :| OpenAt(ledger, events, base, members);
      OpenRepairs(ledger, events, base, members);
    } else {
      var base, tail :| ClosedAt(ledger, events, base, tail);
      ClosedRepairs(ledger, events, base, tail);
      CleanHolds(base);
    }
  }

  lemma AppendToClosed(base: string, members: seq<Member>, cut: nat)
    requires Clean(base) && cut <= |RecordText(members)|
    ensures var op := Append(members, cut);
            Holds(base + RecordText(members)[..cut], Events(base) + WrittenBy(op), Writes(op) && LosesOnlyNewline(op))
  {
    hide Clean, Events, Print, Repaired, ReadLine, SplitLines;
    var op := Append(members, cut);
    var record, tail := Print(Object(members)), RecordText(members)[..cut];
    RecordShape(members);
    if cut < |record| {
      assert Events(base) + [] == Events(base);
      assert tail == record[..cut];
      if cut > 0 {
        TornRecordLine(members, cut);
      }
      assert ClosedAt(base + tail, Events(base), base, tail);
    } else if cut == |record| {
      assert tail == record;
      assert OpenAt(base + tail, Events(base) + [Object(members)], base, members);
    } else {
      CutAppendRepairs(base, members, cut);
      CleanHolds(base + tail);
    }
  }

  lemma AppendToOpen(ledger: string, events: seq<Value>, members: seq<Member>, cut: nat)
    requires Holds(ledger, events, true) && 0 < cut <= |RecordText(members)|
    ensures events != [] && Holds(ledger + RecordText(members)[..cut], events[..|events| - 1], false)
  {
    hide Clean, Events, Print, ReadLine, SplitLines;
    var base, last :| OpenAt(ledger, events, base, last);
    var tail := Print(Object(last)) + RecordText(members)[..cut];
    JoinedLine(last, members, cut);
    assert (Events(base) + [Object(last)])[..|Events(base)|] == Events(base);
    assert ledger + RecordText(members)[..cut] == base + tail;
    assert ClosedAt(base + tail, Events(base), base, tail);
  }

  function LedgerAfter(ledger: string, op: Op): string
    requires ValidOp(op)
  {
    if op.Append? then ledger + RecordText(op.members)[..op.cut] else ledger
  }

  lemma StepHolds(ledger: string, first: seq<Value>, ops: seq<Op>, op: Op)
    requires Holds(ledger, Survivors(first, ops), OpenAfter(ops)) && ValidOp(op)
    ensures Repaired(ledger).Some? && Events(Repaired(ledger).value) == Survivors(first, ops)
    ensures Holds(LedgerAfter(Repaired(ledger).value, op), Survivors(first, ops + [op]), OpenAfter(ops + [op]))
  {
    hide Holds, Repaired, Clean, Events, Print, RecordText;
    var events, open := Survivors(first, ops), OpenAfter(ops);
    assert (ops + [op])[..|ops|] == ops;
    HoldsRepairs(ledger, events, open);
    var repaired := Repaired(ledger).value;
    assert events + [] == events;
    if op.Append? {
      if op.cut == 0 {
        NothingWritten(op);
        assert repaired + RecordText(op.members)[..0] == repaired;
      } else if open {
        AppendToOpen(repaired, events, op.members, op.cut);
      } else {
        AppendToClosed(repaired, op.members, op.cut);
      }
    }
  }

  lemma NothingWritten(op: Op)
    requires op.Append? && op.cut == 0
    ensures WrittenBy(op) == []
  {
    RecordShape(op.members);
  }

  /******* Main results *******/

  // Along every run, whatever was cut: the ledger can always be repaired and holds exactly the
  // survivors.
  lemma {:induction false} RunKeeps<S>(project: seq<Value> -> Option<S>, ledger: string, ops: seq<Op>)
    requires Clean(ledger) && AllValid(ops)
    ensures Holds(Run(project, ledger, ops).ledger, Survivors(Events(ledger), ops), OpenAfter(ops))
    decreases |ops|
  {
    hide Holds, Clean, Events, Repaired, Survivors, OpenAfter, RecordText;
    if ops == [] {
      CleanHolds(ledger);
      NothingHappened(Events(ledger));
    } else {
      var n := |ops| - 1;
      assert AllValid(ops[..n]) && ValidOp(ops[n]);
      RunKeeps(project, ledger, ops[..n]);
      var before := Run(project, ledger, ops[..n]).ledger;
      StepHolds(before, Events(ledger), ops[..n], ops[n]);
      assert ops == ops[..n] + [ops[n]];
      assert Run(project, ledger, ops).ledger == LedgerAfter(Repaired(before).value, ops[n]);
    }
  }

  lemma NothingHappened(first: seq<Value>)
    ensures Survivors(first, []) == first && !OpenAfter([]) && Written([]) == []
  {
  }

  // Nothing is lost as long as no append reaches an open line; one that does costs an event for ever.
  lemma {:induction false} SurvivorsIff(first: seq<Value>, ops: seq<Op>)
    ensures Survivors(first, ops) == first + Written(ops) <==> NeverJoins(ops)
    ensures !NeverJoins(ops) ==> |Survivors(first, ops)| < |first + Written(ops)|
    ensures OpenAfter(ops) ==> Survivors(first, ops) != []
    decreases |ops|
  {
    if ops == [] {
      assert first + [] == first;
    } else {
      var n := |ops| - 1;
      SurvivorsIff(first, ops[..n]);
      assert first + (Written(ops[..n]) + WrittenBy(ops[n])) == first + Written(ops[..n]) + WrittenBy(ops[n]);
    }
  }

  // The exact condition over all runs: recovery reads back every event whose record reached the
  // file, in order and nothing else, if and only if no append reached an open line.
  lemma RecoverableIff<S>(project: seq<Value> -> Option<S>, ledger: string, ops: seq<Op>)
    requires Clean(ledger) && AllValid(ops)
    ensures var repaired := Repaired(Run(project, ledger, ops).ledger);
            && repaired.Some?
            && Events(repaired.value) == Survivors(Events(ledger), ops)
            && (Events(repaired.value) == Events(ledger) + Written(ops) <==> NeverJoins(ops))
  {
    hide Holds, Clean, Events, Repaired, Survivors, OpenAfter, NeverJoins, Written, Run;
    RunKeeps(project, ledger, ops);
    HoldsRepairs(Run(project, ledger, ops).ledger, Survivors(Events(ledger), ops), OpenAfter(ops));
    SurvivorsIff(Events(ledger), ops);
  }

  /******* The state files *******/

  // What the ledger held at some moment of the run projects to this state.
  ghost predicate Moment<S>(project: seq<Value> -> Option<S>, first: seq<Value>, ops: seq<Op>, state: S) {
    exists n :: 0 <= n <= |ops| && project(Survivors(first, ops[..n])) == Some(state)
  }

  ghost predicate FilesAreMoments<S(!new)>(project: seq<Value> -> Option<S>, first: seq<Value>, ops: seq<Op>,
      d: Disk<S>) {
    && (d.state.Some? ==> Moment(project, first, ops, d.state.value))
    && (forall s :: s in d.snapshots ==> Moment(project, first, ops, s))
  }

  lemma MomentStays<S>(project: seq<Value> -> Option<S>, first: seq<Value>, ops: seq<Op>, op: Op, state: S)
    requires Moment(project, first, ops, state)
    ensures Moment(project, first, ops + [op], state)
  {
    hide Survivors;
    var n :| 0 <= n <= |ops| && project(Survivors(first, ops[..n])) == Some(state);
    assert (ops + [op])[..n] == ops[..n];
  }

  lemma ThisMoment<S>(project: seq<Value> -> Option<S>, first: seq<Value>, ops: seq<Op>, op: Op)
    ensures project(Survivors(first, ops)).Some? ==>
              Moment(project, first, ops + [op], project(Survivors(first, ops)).value)
  {
    hide Survivors;
    assert (ops + [op])[..|ops|] == ops;
  }

  lemma StepFiles<S(!new)>(project: seq<Value> -> Option<S>, first: seq<Value>, ops: seq<Op>, d: Disk<S>, op: Op)
    requires FilesAreMoments(project, first, ops, d) && ValidOp(op)
    requires Repaired(d.ledger).Some? ==> Events(Repaired(d.ledger).value) == Survivors(first, ops)
    ensures FilesAreMoments(project, first, ops + [op], Apply(project, d, op))
  {
    hide Moment, Survivors, Repaired, Events, RecordText;
    ThisMoment(project, first, ops, op);
    var after := Apply(project, d, op);
    if d.state.Some? { MomentStays(project, first, ops, op, d.state.value); }
    forall s | s in after.snapshots ensures Moment(project, first, ops + [op], s) {
      if s in d.snapshots { MomentStays(project, first, ops, op, s); }
    }
  }

  // Over every run the state file and all snapshots are projections of what the ledger held at some
  // moment, and a completed recovery makes the state file the projection of what survives.
  lemma {:induction false} StateFilesAreMoments<S(!new)>(project: seq<Value> -> Option<S>, ledger: string, ops: seq<Op>)
    requires Clean(ledger) && AllValid(ops)
    ensures FilesAreMoments(project, Events(ledger), ops, Run(project, ledger, ops))
    decreases |ops|
  {
    hide Moment, Survivors, Repaired, Events, Clean, Apply, NeverJoins, Written;
    if ops != [] {
      var n := |ops| - 1;
      assert AllValid(ops[..n]) && ValidOp(ops[n]);
      StateFilesAreMoments(project, ledger, ops[..n]);
      RecoverableIff(project, ledger, ops[..n]);
      StepFiles(project, Events(ledger), ops[..n], Run(project, ledger, ops[..n]), ops[n]);
      assert ops == ops[..n] + [ops[n]];
    }
  }

  lemma RecoveryCatchesUp<S(!new)>(project: seq<Value> -> Option<S>, ledger: string, ops: seq<Op>)
    requires Clean(ledger) && AllValid(ops)
    requires project(Survivors(Events(ledger), ops)).Some?
    ensures var d := Apply(project, Run(project, ledger, ops), Recover(Complete));
            && d.state == project(Survivors(Events(ledger), ops))
            && d.state.value in d.snapshots
            && (NeverJoins(ops) ==> d.state == project(Events(ledger) + Written(ops)))
  {
    hide Survivors, Repaired, Events, Clean, NeverJoins, Written, Run;
    RecoverableIff(project, ledger, ops);
  }

  // Some beginning of the events projects to this state.
  ghost predicate ProjectsPrefix<S>(project: seq<Value> -> Option<S>, events: seq<Value>, state: S) {
    exists n :: 0 <= n <= |events| && project(events[..n]) == Some(state)
  }

  lemma {:induction false} WrittenGrows(ops: seq<Op>, n: nat)
    requires n <= |ops| && NeverJoins(ops)
    ensures NeverJoins(ops[..n]) && Written(ops[..n]) <= Written(ops)
    decreases |ops|
  {
    hide OpenAfter, WrittenBy;
    if n == |ops| {
      assert ops[..n] == ops;
    } else {
      assert ops[..|ops| - 1][..n] == ops[..n];
      WrittenGrows(ops[..|ops| - 1], n);
    }
  }

  // Where nothing joins, every state file is the projection of a beginning of the ledger.
  lemma StatesProjectPrefixes<S(!new)>(project: seq<Value> -> Option<S>, ledger: string, ops: seq<Op>)
    requires Clean(ledger) && AllValid(ops) && NeverJoins(ops)
    ensures var d, events := Run(project, ledger, ops), Events(ledger) + Written(ops);
            && (d.state.Some? ==> ProjectsPrefix(project, events, d.state.value))
            && (forall s :: s in d.snapshots ==> ProjectsPrefix(project, events, s))
  {
    hide Survivors, Moment, ProjectsPrefix, Events, Clean, NeverJoins, Written, Run;
    StateFilesAreMoments(project, ledger, ops);
    var d, events := Run(project, ledger, ops), Events(ledger) + Written(ops);
    if d.state.Some? { MomentIsPrefix(project, Events(ledger), ops, d.state.value); }
    forall s | s in d.snapshots ensures ProjectsPrefix(project, events, s) {
      MomentIsPrefix(project, Events(ledger), ops, s);
    }
  }

  lemma MomentIsPrefix<S>(project: seq<Value> -> Option<S>, first: seq<Value>, ops: seq<Op>, state: S)
    requires NeverJoins(ops) && Moment(project, first, ops, state)
    ensures ProjectsPrefix(project, first + Written(ops), state)
  {
    hide Survivors, NeverJoins, Written;
    var n :| 0 <= n <= |ops| && project(Survivors(first, ops[..n])) == Some(state);
    WrittenGrows(ops, n);
    SurvivorsIff(first, ops[..n]);
    var part := first + Written(ops[..n]);
    assert (first + Written(ops))[..|part|] == part;
  }

  // A join can leave the state file ahead of the ledger: whatever the ledger held, a crash that loses
  // only the newline, a recovery and any append that reaches the file end with a state file that
  // describes an event the ledger has lost, and with the appended event lost too.
  lemma LostNewlineBreaksTheRun<S>(project: seq<Value> -> Option<S>, d: Disk<S>, first: seq<Member>,
      second: seq<Member>, cut: nat)
    requires Clean(d.ledger) && project(Events(d.ledger) + [Object(first)]).Some?
    requires 0 < cut <= |RecordText(second)|
    ensures ValidOp(Append(first, |Print(Object(first))|)) && ValidOp(Append(second, cut))
    ensures var d1 := Apply(project, d, Append(first, |Print(Object(first))|));
            var d2 := Apply(project, d1, Recover(Complete));
            var d3 := Apply(project, d2, Append(second, cut));
            && d3.state == project(Events(d.ledger) + [Object(first)])
            && Repaired(d3.ledger).Some?
            && Events(Repaired(d3.ledger).value) == Events(d.ledger)
  {
    hide Repaired, Events, Clean, Print;
    assert RecordText(first)[..|Print(Object(first))|] == Print(Object(first));
    CleanIsStable(d.ledger);
    LostNewlineLosesTwoEvents(d.ledger, first, second, cut);
  }
}
