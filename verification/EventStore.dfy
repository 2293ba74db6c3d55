/** The append-only ledger file: one JSON record per line, read line by line, and repaired
    after a torn write by scanning every line and truncating at a bad last one. */
module EventStore {
  import opened Wrappers
  import opened Json

  /******* Lines *******/

  // Length of the first line including its terminator: "\n", "\r" or "\r\n".
  function LineEnd(s: string): (n: nat)
    requires s != ""
    ensures 0 < n <= |s|
  {
    if s[0] == '\n' || |s| == 1 then 1
    else if s[0] == '\r' then if s[1] == '\n' then 2 else 1
    else 1 + LineEnd(s[1..])
  }

  function SplitLines(s: string): seq<string> {
    if s == "" then [] else [s[..LineEnd(s)]] + SplitLines(s[LineEnd(s)..])
  }

  // The lines are stripped as bytes, so only the ASCII whitespace of `bytes.strip` counts here.
  predicate IsSpace(c: char) {
    c == ' ' || 9 <= c as int <= 13
  }

  function StripLeft(s: string): (r: string)
    ensures |r| <= |s|
    ensures r != "" ==> !IsSpace(r[0])
  {
    if s != "" && IsSpace(s[0]) then StripLeft(s[1..]) else s
  }

  function StripRight(s: string): (r: string)
    ensures r <= s
    ensures r != "" ==> !IsSpace(r[|r| - 1])
  {
    if s != "" && IsSpace(s[|s| - 1]) then StripRight(s[..|s| - 1]) else s
  }

  function Strip(s: string): string {
    StripRight(StripLeft(s))
  }

  datatype Line = Blank | Record(event: Value) | Bad

  function ReadLine(line: string): Line {
    var stripped := Strip(line);
    if stripped == "" then Blank
    else
      match Loads(stripped)
      case Fail => Bad
      case Ok(v, _) => if v.Object? then Record(v) else Bad
  }

  /******* Repair and reading, as functions of the file contents *******/

  // The size the file is cut to, or None when a line before the last one is bad.
  function SafeSize(lines: seq<string>, offset: nat): Option<nat> {
    if lines == [] then Some(offset)
    else if !ReadLine(lines[0]).Bad? then SafeSize(lines[1..], offset + |lines[0]|)
    else if |lines| == 1 then Some(offset)
    else None
  }

  function Repaired(s: string): Option<string> {
    match SafeSize(SplitLines(s), 0)
    case None => None
    case Some(n) => if n <= |s| then Some(s[..n]) else None
  }

  datatype Stored = Stored(lineNumber: nat, event: Value)

  function StoredIn(lines: seq<string>, number: nat): seq<Stored> {
    if lines == [] then [] else FromLine(lines[0], number) + StoredIn(lines[1..], number + 1)
  }

  function Events(s: string): seq<Value> {
    EventsIn(SplitLines(s))
  }

  function EventsIn(lines: seq<string>): seq<Value> {
    if lines == [] then []
    else
      (match ReadLine(lines[0])
       case Record(e) => [e]
       case _ => [])
      + EventsIn(lines[1..])
  }

  predicate NoBadLine(lines: seq<string>) {
    forall i :: 0 <= i < |lines| ==> !ReadLine(lines[i]).Bad?
  }

  // Every line is blank or a record, and the last one is terminated.
  predicate Clean(s: string) {
    (s == "" || s[|s| - 1] == '\n') && NoBadLine(SplitLines(s))
  }

  function RecordText(members: seq<Member>): string {
    Print(Object(members)) + "\n"
  }

  /******* Duplicates and conflicts, as functions of the stored events *******/

  datatype AppendResult =
    | Appended(line: nat) | Duplicate(line: nat) | IdConflict | KeyConflict
    | Invalid | Unreadable | FieldMissing

  // Of repeated keys the last one wins.
  function Lookup(members: seq<Member>, key: string): Option<Value> {
    if members == [] then None
    else if members[|members| - 1].key == key then Some(members[|members| - 1].value)
    else Lookup(members[..|members| - 1], key)
  }

  function Field(v: Value, key: string): Option<Value> {
    if v.Object? then Lookup(v.members, key) else None
  }

  const KEYS: seq<string> := ["id", "audit_id", "idempotency_key"]

  predicate HasKeys(v: Value) {
    forall key :: key in KEYS ==> Field(v, key).Some?
  }

  predicate HasId(v: Value) {
    Field(v, "id").Some?
  }

  predicate SameId(a: Value, b: Value) {
    Field(a, "id") == Field(b, "id")
  }

  predicate SameKey(a: Value, b: Value) {
    Field(a, "audit_id") == Field(b, "audit_id") && Field(a, "idempotency_key") == Field(b, "idempotency_key")
  }

  // The first stored event that matches decides; `last` is the line of the last event seen. The other
  // two keys are read only where the ids differ.
  function FindDuplicate(stored: seq<Stored>, e: Value, last: nat): (r: AppendResult)
    ensures !r.Invalid? && !r.Unreadable?
    decreases |stored|
  {
    if stored == [] then Appended(last + 1)
    else if !HasId(stored[0].event) || !HasId(e) then FieldMissing
    else if SameId(stored[0].event, e) then
      if Print(stored[0].event) == Print(e) then Duplicate(stored[0].lineNumber) else IdConflict
    else if !HasKeys(stored[0].event) || !HasKeys(e) then FieldMissing
    else if SameKey(stored[0].event, e) then
      if Print(stored[0].event) == Print(e) then Duplicate(stored[0].lineNumber) else KeyConflict
    else FindDuplicate(stored[1..], e, stored[0].lineNumber)
  }

  method FindDuplicateOrConflict(stored: seq<Stored>, members: seq<Member>) returns (r: AppendResult)
    ensures r == FindDuplicate(stored, Object(members), 0)
  {
    hide Print, HasKeys, HasId, SameId, SameKey;
    var e := Object(members);
    var last, index := 0, 0;
    while index < |stored|
      invariant 0 <= index <= |stored|
      invariant FindDuplicate(stored, e, 0) == FindDuplicate(stored[index..], e, last)
    {
      var existing := stored[index];
      assert stored[index..][0] == existing && stored[index..][1..] == stored[index + 1..];
      if !HasId(existing.event) || !HasId(e) {
        return FieldMissing;
      }
      if SameId(existing.event, e) {
        return if Print(existing.event) == Print(e) then Duplicate(existing.lineNumber) else IdConflict;
      }
      if !HasKeys(existing.event) || !HasKeys(e) {
        return FieldMissing;
      }
      if SameKey(existing.event, e) {
        return if Print(existing.event) == Print(e) then Duplicate(existing.lineNumber) else KeyConflict;
      }
      last := existing.lineNumber;
      index := index + 1;
    }
    return Appended(last + 1);
  }

  function ResultOfAppend(schema: Value -> bool, ledger: string, members: seq<Member>): AppendResult {
    if !schema(Object(members)) then Invalid
    else
      match Repaired(ledger)
      case None => Unreadable
      case Some(sound) => FindDuplicate(StoredIn(SplitLines(sound), 1), Object(members), 0)
  }

  /******* The file *******/

  // The repair scan: walks the lines and reports the size to keep, or None for a bad line before
  // the tail.
  method ScanForTail(raw: string) returns (size: Option<nat>)
    ensures size == SafeSize(SplitLines(raw), 0)
  {
    hide ReadLine, SplitLines;
    var lines := SplitLines(raw);
    SplitLinesLength(raw);
    var offset: nat, safeSize: nat := 0, |raw|;
    var index := 0;
    while index < |lines|
      invariant 0 <= index <= |lines|
      invariant offset + TotalLength(lines[index..]) == |raw|
      invariant index > 0 ==> safeSize == offset && !ReadLine(lines[index - 1]).Bad?
      invariant SafeSize(lines, 0) == SafeSize(lines[index..], offset)
    {
      var lineStart := offset;
      offset := offset + |lines[index]|;
      ScanStep(lines, index, lineStart);
      if ReadLine(lines[index]).Bad? {
        return if index == |lines| - 1 then Some(lineStart) else None;
      }
      safeSize := offset;
      index := index + 1;
    }
    assert lines[index..] == [];
    if raw != "" && raw[|raw| - 1] != '\n' {
      // The second look at an unterminated last line finds nothing the scan has not already judged.
      if ReadLine(lines[|lines| - 1]).Bad? {
        assert false;
      }
    }
    return Some(|raw|);
  }

  method ReadLines(lines: seq<string>) returns (stored: seq<Stored>)
    ensures stored == StoredIn(lines, 1)
  {
    hide FromLine;
    stored := [];
    var index := 0;
    while index < |lines|
      invariant 0 <= index <= |lines|
      invariant StoredIn(lines, 1) == stored + StoredIn(lines[index..], index + 1)
    {
      var line := FromLine(lines[index], index + 1);
      ReadStep(lines, index);
      Associative(stored, line, StoredIn(lines[index + 1..], index + 2));
      stored := stored + line;
      index := index + 1;
    }
    assert lines[index..] == [];
  }

  lemma Associative<T>(a: seq<T>, b: seq<T>, c: seq<T>)
    ensures a + (b + c) == (a + b) + c
  {
  }

  class Store {
    var ledger: string

    constructor ()
      ensures ledger == ""
    {
      ledger := "";
    }

    method RepairTrailingPartialWrite() returns (ok: bool)
      modifies this
      ensures ok == Repaired(old(ledger)).Some?
      ensures ledger == Repaired(old(ledger)).GetOr(old(ledger))
    {
      var size := ScanForTail(ledger);
      ok := size.Some? && size.value <= |ledger|;
      if ok {
        ledger := ledger[..size.value];
      }
    }

    method IterStoredEvents() returns (ok: bool, stored: seq<Stored>)
      modifies this
      ensures ok == Repaired(old(ledger)).Some?
      ensures ledger == Repaired(old(ledger)).GetOr(old(ledger))
      ensures stored == if ok then StoredIn(SplitLines(ledger), 1) else []
    {
      stored := [];
      ok := RepairTrailingPartialWrite();
      if ok {
        stored := ReadLines(SplitLines(ledger));
      }
    }

    // A write that may be cut by a crash: only the first `cut` characters reach the file.
    method AppendSerializedLine(members: seq<Member>, cut: nat)
      requires cut <= |RecordText(members)|
      modifies this
      ensures ledger == old(ledger) + RecordText(members)[..cut]
    {
      var payload := RecordText(members);
      var written := 0;
      while written < cut
        invariant written <= cut
        invariant ledger == old(ledger) + payload[..written]
      {
        ledger := ledger + [payload[written]];
        written := written + 1;
      }
    }

    // Refuses invalid events, repairs the tail, looks for a duplicate or a conflict, and only then
    // writes the new line, of which a crash may cut off the end.
    method AppendEvent(schema: Value -> bool, members: seq<Member>, cut: nat) returns (r: AppendResult)
      requires cut <= |RecordText(members)|
      modifies this
      ensures r == ResultOfAppend(schema, old(ledger), members)
      ensures r.Appended? ==>
                Repaired(old(ledger)).Some? && ledger == Repaired(old(ledger)).value + RecordText(members)[..cut]
      ensures r.Invalid? ==> ledger == old(ledger)
      ensures !r.Appended? && !r.Invalid? ==> ledger == Repaired(old(ledger)).GetOr(old(ledger))
    {
      hide Repaired, RecordText, StoredIn, SplitLines, FindDuplicate;
      if !schema(Object(members)) {
        return Invalid;
      }
      var ok, stored := IterStoredEvents();
      if !ok {
        return Unreadable;
      }
      r := FindDuplicateOrConflict(stored, members);
      if r.Appended? {
        AppendSerializedLine(members, cut);
      }
    }
  }

  function TotalLength(lines: seq<string>): nat {
    if lines == [] then 0 else |lines[0]| + TotalLength(lines[1..])
  }

  // One turn of the repair scan.
  lemma ScanStep(lines: seq<string>, index: nat, offset: nat)
    requires index < |lines|
    ensures TotalLength(lines[index..]) == |lines[index]| + TotalLength(lines[index + 1..])
    ensures SafeSize(lines[index..], offset)
         == if !ReadLine(lines[index]).Bad? then SafeSize(lines[index + 1..], offset + |lines[index]|)
            else if index == |lines| - 1 then Some(offset) else None
  {
    assert lines[index..][1..] == lines[index + 1..];
  }

  function FromLine(line: string, number: nat): seq<Stored> {
    match ReadLine(line)
    case Record(e) => [Stored(number, e)]
    case _ => []
  }

  // One turn of the reading loop.
  lemma ReadStep(lines: seq<string>, index: nat)
    requires index < |lines|
    ensures StoredIn(lines[index..], index + 1)
         == FromLine(lines[index], index + 1) + StoredIn(lines[index + 1..], index + 2)
  {
    assert lines[index..][1..] == lines[index + 1..];
  }

  lemma {:induction false} SplitLinesLength(s: string)
    ensures TotalLength(SplitLines(s)) == |s|
    ensures s != "" ==> SplitLines(s) != []
  {
    if s != "" {
      SplitLinesLength(s[LineEnd(s)..]);
    }
  }
}
