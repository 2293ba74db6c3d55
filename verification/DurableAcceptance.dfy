/** The acceptance loop over the ledger file itself: every step reads the file back, judges, and appends
    a line that a crash may cut. It refines the loop over event lists, so that a batch retried after
    any number of crashes is taken exactly once. */
module DurableAcceptance {
  import opened Wrappers
  import opened Events
  import opened Json
  import opened Validators
  import opened Processing
  import opened AcceptanceSafety
  import opened Resubmission
  import EventStore
  import AppendSafety
  import LedgerRecovery
  import CrashRecovery
  import JsonFacts

  // How an event is written as a record and read back.
  datatype Codec = Codec(encode: Event -> seq<Member>, decode: Value -> Option<Event>)

  // Reading gives back what was written, and the record shows the three keys the store looks at.
  ghost predicate Faithful(codec: Codec) {
    forall e: Event ::
      && codec.decode(Object(codec.encode(e))) == Some(e)
      && EventStore.Field(Object(codec.encode(e)), "id") == Some(Value.Text(e.id))
      && EventStore.Field(Object(codec.encode(e)), "audit_id") == Some(Value.Text(e.auditId))
      && EventStore.Field(Object(codec.encode(e)), "idempotency_key") == Some(Value.Text(e.idempotencyKey))
  }

  function Record(codec: Codec, e: Event): Value {
    Object(codec.encode(e))
  }

  function Encoded(codec: Codec, ledger: seq<Event>): seq<Value> {
    seq(|ledger|, i requires 0 <= i < |ledger| => Record(codec, ledger[i]))
  }

  function Decoded(codec: Codec, values: seq<Value>): seq<Event> {
    if values == [] then []
    else
      (match codec.decode(values[0])
       case Some(e) => [e]
       case None => [])
      + Decoded(codec, values[1..])
  }

  lemma {:induction false} DecodedEncoded(codec: Codec, ledger: seq<Event>)
    requires Faithful(codec)
    ensures Decoded(codec, Encoded(codec, ledger)) == ledger
    decreases |ledger|
  {
    if ledger != [] {
      assert Encoded(codec, ledger)[0] == Record(codec, ledger[0]);
      assert Encoded(codec, ledger)[1..] == Encoded(codec, ledger[1..]);
      DecodedEncoded(codec, ledger[1..]);
    }
  }

  /******* One step over the file *******/

  // The schema check of the store, on records.
  function SchemaOf(codec: Codec, cfg: Config): Value -> bool {
    v => codec.decode(v).Some? && cfg.eventSchema(codec.decode(v).value)
  }

  // The event that this submission becomes when validation and store let it pass.
  function Passing(codec: Codec, cfg: Config, sound: string, c: Submission): Option<Event> {
    match Prepare(cfg.env, c)
    case Ready(e) =>
      if Validate(cfg, Decoded(codec, EventStore.Events(sound)), e) == Issues([])
         && EventStore.ResultOfAppend(SchemaOf(codec, cfg), sound, codec.encode(e)).Appended?
      then Some(e) else None
    case _ => None
  }

  // One submission; only the first `cut` characters of its line reach the file, all without a cut.
  function FileStep(codec: Codec, cfg: Config, text: string, c: Submission, cut: Option<nat>): string {
    match EventStore.Repaired(text)
    case None => text
    case Some(sound) =>
      match Passing(codec, cfg, sound, c)
      case None => sound
      case Some(e) =>
        var line := EventStore.RecordText(codec.encode(e));
        if cut.Some? && cut.value <= |line| then sound + line[..cut.value] else sound + line
  }

  function FileRun(codec: Codec, cfg: Config, text: string, cs: seq<Submission>): string {
    if cs == [] then text else FileStep(codec, cfg, FileRun(codec, cfg, text, cs[..|cs| - 1]), cs[|cs| - 1], None)
  }

  // The file holds the records of these events, and its last line has its newline or not.
  ghost predicate Stores(codec: Codec, text: string, ledger: seq<Event>, open: bool) {
    CrashRecovery.Holds(text, Encoded(codec, ledger), open)
  }

  /******* The store's check is the loop's check *******/

  lemma {:induction false} StoredAreEvents(lines: seq<string>, number: nat)
    ensures |EventStore.StoredIn(lines, number)| == |EventStore.EventsIn(lines)|
    ensures forall i :: 0 <= i < |EventStore.EventsIn(lines)| ==>
              EventStore.StoredIn(lines, number)[i].event == EventStore.EventsIn(lines)[i]
    decreases |lines|
  {
    hide EventStore.ReadLine;
    if lines != [] {
      StoredAreEvents(lines[1..], number + 1);
    }
  }

  lemma {:induction false} FreshIff(ledger: seq<Event>, e: Event)
    ensures StoreCheck(ledger, e) == Fresh <==>
              forall i :: 0 <= i < |ledger| ==>
                ledger[i].id != e.id
                    && !(ledger[i].auditId == e.auditId && ledger[i].idempotencyKey == e.idempotencyKey)
    decreases |ledger|
  {
    if ledger != [] {
      FreshIff(ledger[1..], e);
      assert forall i :: 0 < i < |ledger| ==> ledger[i] == ledger[1..][i - 1];
    }
  }

  lemma KeysOfRecords(codec: Codec, a: Event, e: Event)
    requires Faithful(codec)
    ensures EventStore.HasKeys(Record(codec, e))
    ensures EventStore.SameId(Record(codec, a), Record(codec, e)) <==> a.id == e.id
    ensures EventStore.SameKey(Record(codec, a), Record(codec, e)) <==>
              a.auditId == e.auditId && a.idempotencyKey == e.idempotencyKey
  {
    hide EventStore.Field;
  }

  // The store appends to a file of these events exactly when the loop's own check is silent.
  lemma AppendedIffFresh(codec: Codec, cfg: Config, sound: string, ledger: seq<Event>, e: Event)
    requires Faithful(codec) && EventStore.Repaired(sound) == Some(sound)
    requires EventStore.Events(sound) == Encoded(codec, ledger) && cfg.eventSchema(e)
    ensures EventStore.ResultOfAppend(SchemaOf(codec, cfg), sound, codec.encode(e)).Appended?
            <==> StoreCheck(ledger, e) == Fresh
  {
    hide EventStore.Repaired, EventStore.HasKeys, EventStore.SameId, EventStore.SameKey, EventStore.SplitLines,
      EventStore.StoredIn, EventStore.EventsIn, EventStore.FindDuplicate, StoreCheck;
    var stored := EventStore.StoredIn(EventStore.SplitLines(sound), 1);
    var v := Record(codec, e);
    StoredAreEvents(EventStore.SplitLines(sound), 1);
    AppendSafety.AppendedIff(stored, v, 0);
    FreshIff(ledger, e);
    forall i | 0 <= i < |ledger|
      ensures EventStore.HasKeys(stored[i].event) && EventStore.HasKeys(v)
      ensures EventStore.SameId(stored[i].event, v) <==> ledger[i].id == e.id
      ensures EventStore.SameKey(stored[i].event, v)
              <==> ledger[i].auditId == e.auditId && ledger[i].idempotencyKey == e.idempotencyKey
    {
      assert stored[i].event == Record(codec, ledger[i]);
      KeysOfRecords(codec, ledger[i], e);
      KeysOfRecords(codec, e, ledger[i]);
    }
  }

  lemma PassingIsAccepted(codec: Codec, cfg: Config, sound: string, ledger: seq<Event>, c: Submission)
    requires Faithful(codec) && EventStore.Repaired(sound) == Some(sound)
    requires EventStore.Events(sound) == Encoded(codec, ledger)
    ensures var o := Decide(cfg, ledger, c);
            Passing(codec, cfg, sound, c) == if o.Accepted? then Some(o.event) else None
  {
    hide Prepare, EventStore.Repaired, EventStore.ResultOfAppend, StoreCheck, EventStore.Events, Faithful;
    DecodedEncoded(codec, ledger);
    if Prepare(cfg.env, c).Ready? && Validate(cfg, ledger, Prepare(cfg.env, c).event) == Issues([]) {
      var e := Prepare(cfg.env, c).event;
      ValidMeansSchema(cfg, ledger, e);
      AppendedIffFresh(codec, cfg, sound, ledger, e);
    }
  }

  lemma ValidMeansSchema(cfg: Config, ledger: seq<Event>, e: Event)
    requires Validate(cfg, ledger, e) == Issues([])
    ensures cfg.eventSchema(e)
  {
    hide DuplicateIssues, TransitionVerdict, ContradictionIssues;
  }

  /******* The file follows the loop *******/

  lemma OneMore(codec: Codec, ledger: seq<Event>, e: Event)
    ensures Encoded(codec, ledger + [e]) == Encoded(codec, ledger) + [Record(codec, e)]
  {
  }

  // What is read back from a file that holds these events.
  lemma ReadsBack(codec: Codec, text: string, ledger: seq<Event>, open: bool)
    requires Stores(codec, text, ledger, open)
    ensures EventStore.Repaired(text).Some?
    ensures var sound := EventStore.Repaired(text).value;
            && EventStore.Repaired(sound) == Some(sound) && EventStore.Events(sound) == Encoded(codec, ledger)
            && Stores(codec, sound, ledger, open) && (!open ==> EventStore.Clean(sound))
  {
    hide EventStore.Repaired, EventStore.Events, EventStore.Clean, CrashRecovery.Holds, Encoded;
    var values := Encoded(codec, ledger);
    CrashRecovery.HoldsRepairs(text, values, open);
    if !open {
      LedgerRecovery.CleanIsStable(EventStore.Repaired(text).value);
    }
  }

  // What a step leaves in the file: the ledger of the loop, or the old one when the cut tore the
  // record; the last line is open exactly when the cut took the newline alone.
  lemma StepFollows(codec: Codec, cfg: Config, text: string, ledger: seq<Event>, c: Submission, cut: Option<nat>)
    requires Faithful(codec) && Stores(codec, text, ledger, false)
    ensures var o := Decide(cfg, ledger, c);
            var whole := o.Accepted? && cut.Some? ==> cut.value >= |Print(Record(codec, o.event))|;
            var lost := o.Accepted? && cut == Some(|Print(Record(codec, o.event))|);
            Stores(codec, FileStep(codec, cfg, text, c, cut), if whole then After(ledger, o) else ledger, lost)
  {
    hide EventStore.Repaired, EventStore.Events, EventStore.Clean, CrashRecovery.Holds, Decide, Passing, Faithful,
        Encoded, Print;
    ReadsBack(codec, text, ledger, false);
    var sound := EventStore.Repaired(text).value;
    PassingIsAccepted(codec, cfg, sound, ledger, c);
    var o := Decide(cfg, ledger, c);
    if o.Accepted? {
      OneMore(codec, ledger, o.event);
      var members := codec.encode(o.event);
      var line := EventStore.RecordText(members);
      var n := if cut.Some? && cut.value <= |line| then cut.value else |line|;
      var op := CrashRecovery.Append(members, n);
      assert line[..|line|] == line;
      CrashRecovery.AppendToClosed(sound, members, n);
      JsonFacts.RecordShape(members);
      assert CrashRecovery.WrittenBy(op) == if n >= |Print(Object(members))| then [Record(codec, o.event)] else [];
      assert Encoded(codec, ledger) + [] == Encoded(codec, ledger);
      assert FileStep(codec, cfg, text, c, cut) == sound + line[..n];
    }
  }

  lemma {:induction false} RunFollows(codec: Codec, cfg: Config, text: string, ledger: seq<Event>, cs: seq<Submission>)
    requires Faithful(codec) && Stores(codec, text, ledger, false)
    ensures Stores(codec, FileRun(codec, cfg, text, cs), Run(cfg, ledger, cs), false)
    decreases |cs|
  {
    hide Faithful, Stores, Decide, FileStep;
    if cs != [] {
      var n := |cs| - 1;
      RunFollows(codec, cfg, text, ledger, cs[..n]);
      StepFollows(codec, cfg, FileRun(codec, cfg, text, cs[..n]), Run(cfg, ledger, cs[..n]), cs[n], None);
    }
  }

  /******* Retrying a batch *******/

  // A call that dies while the line of submission `at` is being written.
  datatype Crash = Crash(at: nat, cut: nat)

  function Attempt(codec: Codec, cfg: Config, text: string, cs: seq<Submission>, crash: Crash): string
    requires crash.at < |cs|
  {
    FileStep(codec, cfg, FileRun(codec, cfg, text, cs[..crash.at]), cs[crash.at], Some(crash.cut))
  }

  function Attempts(codec: Codec, cfg: Config, text: string, cs: seq<Submission>, crashes: seq<Crash>): string
    requires forall i :: 0 <= i < |crashes| ==> crashes[i].at < |cs|
  {
    if crashes == [] then text
    else
      var n := |crashes| - 1;
      Attempt(codec, cfg, Attempts(codec, cfg, text, cs, crashes[..n]), cs, crashes[n])
  }

  // This crash takes the newline of an accepted event and nothing else.
  predicate LosesNewline(codec: Codec, cfg: Config, text: string, cs: seq<Submission>, crash: Crash)
    requires crash.at < |cs|
  {
    match EventStore.Repaired(FileRun(codec, cfg, text, cs[..crash.at]))
    case None => false
    case Some(sound) =>
      match Passing(codec, cfg, sound, cs[crash.at])
      case None => false
      case Some(e) => crash.cut == |Print(Record(codec, e))|
  }

  predicate KeepsNewlines(codec: Codec, cfg: Config, text: string, cs: seq<Submission>, crashes: seq<Crash>)
    requires forall i :: 0 <= i < |crashes| ==> crashes[i].at < |cs|
  {
    crashes == [] ||
    var n := |crashes| - 1;
    && KeepsNewlines(codec, cfg, text, cs, crashes[..n])
    && !LosesNewline(codec, cfg, Attempts(codec, cfg, text, cs, crashes[..n]), cs, crashes[n])
  }

  // Wherever the batch stops, nothing that was turned away has become acceptable.
  ghost predicate AlwaysTurnedAway(cfg: Config, ledger: seq<Event>, cs: seq<Submission>) {
    forall k :: 0 <= k <= |cs| ==> StaysTurnedAway(cfg, ledger, cs, k)
  }

  function Max(m: nat, n: nat): nat {
    if m < n then n else m
  }

  // Running a beginning of the batch again goes no further than the longer of the two beginnings.
  lemma RunAgain(cfg: Config, ledger: seq<Event>, cs: seq<Submission>, m: nat, n: nat)
    requires m <= |cs| && n <= |cs| && Lawful(cfg, ledger) && StaysTurnedAway(cfg, ledger, cs, m)
    ensures Run(cfg, Run(cfg, ledger, cs[..m]), cs[..n]) == Run(cfg, ledger, cs[..Max(m, n)])
    ensures forall i :: 0 <= i < m ==> !Decide(cfg, Run(cfg, ledger, cs[..m]), cs[i]).Accepted?
  {
    hide Decide, Lawful, StaysTurnedAway, Run;
    var later := Run(cfg, ledger, cs[..m]);
    PrefixIsQuietIff(cfg, ledger, cs, m);
    QuietIff(cfg, later, cs[..m]);
    forall i | 0 <= i < m ensures !Decide(cfg, later, cs[i]).Accepted? {
      assert cs[..m][i] == cs[i];
    }
    if m <= n {
      CrashInsideBatch(cfg, ledger, cs, m, n);
    } else {
      assert forall i :: 0 <= i < n ==> cs[..n][i] == cs[i];
      QuietIff(cfg, later, cs[..n]);
    }
  }

  // An attempt that dies leaves the ledger of some beginning of the batch.
  lemma AttemptStops(codec: Codec, cfg: Config, text: string, ledger: seq<Event>, cs: seq<Submission>, m: nat,
      crash: Crash) returns (k: nat)
    requires Faithful(codec) && Lawful(cfg, ledger) && AlwaysTurnedAway(cfg, ledger, cs) && m <= |cs| && crash.at < |cs|
    requires Stores(codec, text, Run(cfg, ledger, cs[..m]), false) && !LosesNewline(codec, cfg, text, cs, crash)
    ensures k <= |cs| && Stores(codec, Attempt(codec, cfg, text, cs, crash), Run(cfg, ledger, cs[..k]), false)
  {
    hide Faithful, Stores, Decide, FileStep, Lawful, StaysTurnedAway, Run, FileRun, Passing, EventStore.Repaired,
        Print;
    var at := crash.at;
    RunFollows(codec, cfg, text, Run(cfg, ledger, cs[..m]), cs[..at]);
    RunAgain(cfg, ledger, cs, m, at);
    var before, here := FileRun(codec, cfg, text, cs[..at]), Run(cfg, ledger, cs[..Max(m, at)]);
    var o := Decide(cfg, here, cs[at]);
    StepFollows(codec, cfg, before, here, cs[at], Some(crash.cut));
    NotLost(codec, cfg, text, here, cs, crash);
    k := Max(m, at);
    if o.Accepted? && crash.cut >= |Print(Record(codec, o.event))| {
      assert m <= at;
      NextRun(cfg, ledger, cs, at);
      k := at + 1;
    }
  }

  lemma NextRun(cfg: Config, ledger: seq<Event>, cs: seq<Submission>, n: nat)
    requires n < |cs|
    ensures Run(cfg, ledger, cs[..n + 1])
            == After(Run(cfg, ledger, cs[..n]), Decide(cfg, Run(cfg, ledger, cs[..n]), cs[n]))
  {
    hide Decide;
    assert cs[..n + 1][..n] == cs[..n];
  }

  lemma NotLost(codec: Codec, cfg: Config, text: string, here: seq<Event>, cs: seq<Submission>, crash: Crash)
    requires Faithful(codec) && crash.at < |cs| && Stores(codec, FileRun(codec, cfg, text, cs[..crash.at]), here, false)
    ensures var o := Decide(cfg, here, cs[crash.at]);
            LosesNewline(codec, cfg, text, cs, crash) <==> o.Accepted? && crash.cut == |Print(Record(codec, o.event))|
  {
    hide Faithful, Decide, FileStep, Run, FileRun, Passing, EventStore.Repaired, Print, EventStore.Events,
        EventStore.Clean, Encoded, CrashRecovery.Holds;
    var before := FileRun(codec, cfg, text, cs[..crash.at]);
    ReadsBack(codec, before, here, false);
    PassingIsAccepted(codec, cfg, EventStore.Repaired(before).value, here, cs[crash.at]);
  }

  lemma {:induction false} AttemptsStop(codec: Codec, cfg: Config, text: string, ledger: seq<Event>,
      cs: seq<Submission>,
      crashes: seq<Crash>) returns (k: nat)
    requires Faithful(codec) && Lawful(cfg, ledger) && AlwaysTurnedAway(cfg, ledger, cs)
    requires Stores(codec, text, ledger, false)
    requires (forall i :: 0 <= i < |crashes| ==> crashes[i].at < |cs|) && KeepsNewlines(codec, cfg, text, cs, crashes)
    ensures k <= |cs| && Stores(codec, Attempts(codec, cfg, text, cs, crashes), Run(cfg, ledger, cs[..k]), false)
    decreases |crashes|
  {
    hide Faithful, Stores, Lawful, AlwaysTurnedAway, Run, Attempt, LosesNewline;
    if crashes == [] {
      k := 0;
      RunOfNone(cfg, ledger, cs);
    } else {
      var n := |crashes| - 1;
      var m := AttemptsStop(codec, cfg, text, ledger, cs, crashes[..n]);
      k := AttemptStops(codec, cfg, Attempts(codec, cfg, text, cs, crashes[..n]), ledger, cs, m, crashes[n]);
    }
  }

  lemma RunOfNone(cfg: Config, ledger: seq<Event>, cs: seq<Submission>)
    ensures Run(cfg, ledger, cs[..0]) == ledger
  {
  }

  // Exactly once, over the file: however often a batch was cut off inside a write, one call that
  // completes leaves the file with the events of one uninterrupted call.
  lemma RetriedBatchIsTakenOnce(codec: Codec, cfg: Config, text: string, ledger: seq<Event>, cs: seq<Submission>,
      crashes: seq<Crash>)
    requires Faithful(codec) && Lawful(cfg, ledger) && AlwaysTurnedAway(cfg, ledger, cs)
    requires Stores(codec, text, ledger, false)
    requires (forall i :: 0 <= i < |crashes| ==> crashes[i].at < |cs|) && KeepsNewlines(codec, cfg, text, cs, crashes)
    ensures Stores(codec, FileRun(codec, cfg, Attempts(codec, cfg, text, cs, crashes), cs), Run(cfg, ledger, cs), false)
  {
    hide Faithful, Stores, Lawful, StaysTurnedAway, Run, Attempts, KeepsNewlines, FileRun;
    var k := AttemptsStop(codec, cfg, text, ledger, cs, crashes);
    RunFollows(codec, cfg, Attempts(codec, cfg, text, cs, crashes), Run(cfg, ledger, cs[..k]), cs);
    ExactlyOnce(cfg, ledger, cs, k);
  }

  /******* The crash that is not covered *******/

  lemma OpenStep(codec: Codec, cfg: Config, text: string, ledger: seq<Event>, c: Submission)
    requires Faithful(codec) && Stores(codec, text, ledger, true)
    ensures var after := FileStep(codec, cfg, text, c, None);
            if Decide(cfg, ledger, c).Accepted? then ledger != [] && Stores(codec, after, ledger[..|ledger| - 1], false)
            else Stores(codec, after, ledger, true)
  {
    hide EventStore.Repaired, EventStore.Events, EventStore.Clean, CrashRecovery.Holds, Decide, Passing, Faithful,
        Encoded, Print;
    ReadsBack(codec, text, ledger, true);
    var sound := EventStore.Repaired(text).value;
    PassingIsAccepted(codec, cfg, sound, ledger, c);
    var o := Decide(cfg, ledger, c);
    if o.Accepted? {
      var members := codec.encode(o.event);
      var line := EventStore.RecordText(members);
      assert line[..|line|] == line && |line| > 0;
      CrashRecovery.AppendToOpen(sound, Encoded(codec, ledger), members, |line|);
      AllButLast(codec, ledger);
    }
  }

  lemma AllButLast(codec: Codec, ledger: seq<Event>)
    ensures |Encoded(codec, ledger)| == |ledger|
    ensures ledger != [] ==>
              Encoded(codec, ledger)[..|ledger| - 1] == Encoded(codec, ledger[..|ledger| - 1])
  {
  }

  lemma {:induction false} OpenQuiet(codec: Codec, cfg: Config, text: string, ledger: seq<Event>, cs: seq<Submission>)
    requires Faithful(codec) && Stores(codec, text, ledger, true)
    requires forall i :: 0 <= i < |cs| ==> !Decide(cfg, ledger, cs[i]).Accepted?
    ensures Stores(codec, FileRun(codec, cfg, text, cs), ledger, true)
    decreases |cs|
  {
    hide Faithful, Stores, Decide, FileStep;
    if cs != [] {
      var n := |cs| - 1;
      forall i | 0 <= i < n ensures cs[..n][i] == cs[i] {
      }
      OpenQuiet(codec, cfg, text, ledger, cs[..n]);
      OpenStep(codec, cfg, FileRun(codec, cfg, text, cs[..n]), ledger, cs[n]);
    }
  }

  // After a crash that took only the newline of an accepted event: processing submissions that the
  // ledger takes none of keeps everything, and the first one it takes costs that event and itself.
  lemma LostNewlineCostsAnEvent(codec: Codec, cfg: Config, text: string, ledger: seq<Event>, c: Submission,
      quiet: seq<Submission>, d: Submission)
    requires Faithful(codec) && Stores(codec, text, ledger, false) && Decide(cfg, ledger, c).Accepted?
    requires forall i :: 0 <= i < |quiet| ==> !Decide(cfg, After(ledger, Decide(cfg, ledger, c)), quiet[i]).Accepted?
    ensures var e := Decide(cfg, ledger, c).event;
            var crashed := FileStep(codec, cfg, text, c, Some(|Print(Record(codec, e))|));
            && Stores(codec, FileRun(codec, cfg, crashed, quiet), ledger + [e], true)
            && (if Decide(cfg, ledger + [e], d).Accepted?
                then Stores(codec, FileRun(codec, cfg, crashed, quiet + [d]), ledger, false)
                else Stores(codec, FileRun(codec, cfg, crashed, quiet + [d]), ledger + [e], true))
  {
    hide Faithful, Stores, Decide, FileStep, Print;
    var e := Decide(cfg, ledger, c).event;
    var crashed := FileStep(codec, cfg, text, c, Some(|Print(Record(codec, e))|));
    StepFollows(codec, cfg, text, ledger, c, Some(|Print(Record(codec, e))|));
    OpenQuiet(codec, cfg, crashed, ledger + [e], quiet);
    OpenStep(codec, cfg, FileRun(codec, cfg, crashed, quiet), ledger + [e], d);
    assert (quiet + [d])[..|quiet|] == quiet;
    assert (ledger + [e])[..|ledger|] == ledger;
  }
}
