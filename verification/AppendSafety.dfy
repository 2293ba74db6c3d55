/** What appending an event guarantees: it never duplicates or contradicts a stored event, doing it
    again changes nothing, and when the line number it reports is the line it wrote. */
module AppendSafety {
  import opened Wrappers
  import opened Json
  import opened JsonFacts
  import opened EventStore
  import opened LedgerRecovery

  function LastLine(stored: seq<Stored>, last: nat): nat {
    if stored == [] then last else stored[|stored| - 1].lineNumber
  }

  // An event is appended exactly when it has the three keys, unless it is the first one, and no
  // stored event shares its id or its audit and idempotency key.
  lemma {:induction false} AppendedIff(stored: seq<Stored>, e: Value, last: nat)
    ensures FindDuplicate(stored, e, last).Appended? <==>
              forall i :: 0 <= i < |stored| ==>
                HasKeys(stored[i].event) && HasKeys(e) && !SameId(stored[i].event, e) && !SameKey(stored[i].event, e)
    ensures FindDuplicate(stored, e, last).Appended? ==>
              FindDuplicate(stored, e, last).line == LastLine(stored, last) + 1
    decreases |stored|
  {
    hide HasKeys, HasId, SameId, SameKey, Print;
    if stored != [] {
      KeysHoldTheId(stored[0].event);
      KeysHoldTheId(e);
      AppendedIff(stored[1..], e, stored[0].lineNumber);
      assert forall i :: 0 < i < |stored| ==> stored[i] == stored[1..][i - 1];
    }
  }

  lemma KeysHoldTheId(v: Value)
    ensures HasKeys(v) ==> HasId(v)
  {
    assert KEYS[0] == "id";
  }

  // A duplicate is an equal event on the reported line.
  lemma {:induction false} DuplicateIsStored(stored: seq<Stored>, e: Value, last: nat)
    requires FindDuplicate(stored, e, last).Duplicate?
    ensures Stored(FindDuplicate(stored, e, last).line, e) in stored
    decreases |stored|
  {
    hide HasKeys, HasId, SameId, SameKey, Print;
    if SameId(stored[0].event, e) || SameKey(stored[0].event, e) {
      PrintInjective(stored[0].event, e);
    } else {
      DuplicateIsStored(stored[1..], e, stored[0].lineNumber);
    }
  }

  lemma {:induction false} FindBehind(stored: seq<Stored>, one: Stored, e: Value, last: nat)
    requires FindDuplicate(stored, e, last).Appended?
    ensures FindDuplicate(stored + [one], e, last) == FindDuplicate([one], e, LastLine(stored, last))
    decreases |stored|
  {
    hide HasKeys, HasId, SameId, SameKey, Print;
    if stored == [] {
      assert stored + [one] == [one];
    } else {
      assert (stored + [one])[1..] == stored[1..] + [one];
      FindBehind(stored[1..], one, e, stored[0].lineNumber);
    }
  }

  lemma {:induction false} StoredConcat(a: seq<string>, line: string, number: nat)
    ensures StoredIn(a + [line], number) == StoredIn(a, number) + FromLine(line, number + |a|)
    decreases |a|
  {
    hide FromLine;
    if a == [] {
      assert a + [line] == [line] && [line][1..] == [];
    } else {
      assert (a + [line])[1..] == a[1..] + [line];
      StoredConcat(a[1..], line, number + 1);
      Associative(FromLine(a[0], number), StoredIn(a[1..], number + 1), FromLine(line, number + |a|));
    }
  }

  // What a completed append to a sound ledger leaves stored.
  lemma StoredAfterAppend(ledger: string, members: seq<Member>)
    requires Clean(ledger)
    ensures var after := ledger + RecordText(members);
            && Clean(after)
            && StoredIn(SplitLines(after), 1)
               == StoredIn(SplitLines(ledger), 1) + [Stored(|SplitLines(ledger)| + 1, Object(members))]
  {
    hide ReadLine, Print, SplitLines, StoredIn;
    KeptRecord(ledger, members, "\n");
    WholeRecordLine(members, "\n");
    SplitConcat(ledger, RecordText(members));
    StoredConcat(SplitLines(ledger), RecordText(members), 1);
  }

  // Appending the same event again is answered as a duplicate of the line that was written, and
  // leaves the ledger as it is.
  lemma AppendAgain(schema: Value -> bool, ledger: string, members: seq<Member>)
    requires Clean(ledger) && HasKeys(Object(members)) && ResultOfAppend(schema, ledger, members).Appended?
    ensures var after := ledger + RecordText(members);
            && Repaired(after) == Some(after)
            && ResultOfAppend(schema, after, members) == Duplicate(|SplitLines(ledger)| + 1)
  {
    hide Repaired, HasKeys, HasId, Clean, Print, SplitLines, StoredIn, SameId;
    KeysHoldTheId(Object(members));
    CleanIsStable(ledger);
    var after := ledger + RecordText(members);
    StoredAfterAppend(ledger, members);
    CleanIsStable(after);
    var one := Stored(|SplitLines(ledger)| + 1, Object(members));
    FindBehind(StoredIn(SplitLines(ledger), 1), one, Object(members), 0);
    assert SameId(one.event, Object(members)) by { IdIsIts(Object(members)); }
  }

  lemma IdIsIts(v: Value)
    ensures SameId(v, v)
  {
  }

  // The reported line number is that of the last stored event plus one, so it is the line written
  // exactly when the ledger does not end in blank lines.
  lemma ReportedLineIff(schema: Value -> bool, ledger: string, members: seq<Member>)
    requires Clean(ledger) && ResultOfAppend(schema, ledger, members).Appended?
    ensures var lines := SplitLines(ledger);
            ResultOfAppend(schema, ledger, members).line == |lines| + 1
            <==> lines == [] || !ReadLine(lines[|lines| - 1]).Blank?
  {
    hide Repaired, HasKeys, Print, ReadLine, StoredIn, FindDuplicate, SplitLines;
    CleanIsStable(ledger);
    var lines := SplitLines(ledger);
    var stored := StoredIn(lines, 1);
    AppendedIff(stored, Object(members), 0);
    if lines == [] {
      NothingStored();
    } else {
      var n := |lines| - 1;
      assert lines == lines[..n] + [lines[n]];
      StoredConcat(lines[..n], lines[n], 1);
      StoredNumbers(lines[..n], 1);
    }
  }

  lemma NothingStored()
    ensures StoredIn([], 1) == []
  {
  }

  lemma {:induction false} StoredNumbers(lines: seq<string>, number: nat)
    ensures forall x :: x in StoredIn(lines, number) ==> number <= x.lineNumber < number + |lines|
    decreases |lines|
  {
    hide ReadLine;
    if lines != [] {
      StoredNumbers(lines[1..], number + 1);
    }
  }
}
