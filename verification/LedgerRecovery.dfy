/** What repair does to a ledger after an append was cut at an arbitrary byte. */
module LedgerRecovery {
  import opened Wrappers
  import opened Json
  import opened JsonFacts
  import opened JsonScan
  import opened EventStore

  /******* Lines of a concatenation *******/

  predicate EndsLine(s: string) {
    s == "" || s[|s| - 1] == '\n'
  }

  lemma {:induction false} LineEndConcat(s: string, t: string)
    requires s != "" && EndsLine(s)
    ensures LineEnd(s + t) == LineEnd(s)
    ensures EndsLine(s[LineEnd(s)..])
  {
    if s[0] != '\n' && s[0] != '\r' && |s| > 1 {
      assert (s + t)[1..] == s[1..] + t;
      LineEndConcat(s[1..], t);
      assert s[1..][LineEnd(s[1..])..] == s[LineEnd(s)..];
    }
  }

  lemma {:induction false} SplitConcat(s: string, t: string)
    requires EndsLine(s)
    ensures SplitLines(s + t) == SplitLines(s) + SplitLines(t)
    decreases |s|
  {
    hide LineEnd;
    if s == "" {
      assert s + t == t;
    } else {
      var n := LineEnd(s);
      LineEndConcat(s, t);
      assert (s + t)[..n] == s[..n] && (s + t)[n..] == s[n..] + t;
      SplitConcat(s[n..], t);
    }
  }

  lemma {:induction false} PrintableLineEnd(s: string, t: string)
    requires Printable(s) && s != ""
    requires t == "" || t == "\n"
    ensures LineEnd(s + t) == |s + t|
  {
    if |s| > 1 {
      assert (s + t)[1..] == s[1..] + t;
      PrintableLineEnd(s[1..], t);
    } else if t == "\n" {
      assert (s + t)[1..] == "\n";
    }
  }

  // Text without control characters is one line, terminated or not.
  lemma OneLine(s: string, t: string)
    requires Printable(s) && s != "" && (t == "" || t == "\n")
    ensures SplitLines(s + t) == [s + t]
  {
    PrintableLineEnd(s, t);
    assert (s + t)[..|s + t|] == s + t;
    assert SplitLines((s + t)[|s + t|..]) == [];
  }

  /******* Repair of a clean ledger and a tail *******/

  lemma {:induction false} SafeSizeConcat(a: seq<string>, b: seq<string>, offset: nat)
    requires NoBadLine(a)
    ensures SafeSize(a + b, offset) == SafeSize(b, offset + TotalLength(a))
  {
    hide ReadLine;
    if a == [] {
      assert a + b == b;
    } else {
      assert (a + b)[1..] == a[1..] + b;
      SafeSizeConcat(a[1..], b, offset + |a[0]|);
    }
  }

  lemma {:induction false} EventsConcat(a: seq<string>, b: seq<string>)
    ensures EventsIn(a + b) == EventsIn(a) + EventsIn(b)
  {
    if a == [] {
      assert a + b == b;
    } else {
      assert (a + b)[1..] == a[1..] + b;
      EventsConcat(a[1..], b);
    }
  }

  // A clean ledger followed by one more line: repair keeps the line or removes exactly it.
  lemma TailRepair(s: string, tail: string)
    requires Clean(s) && SplitLines(tail) == [tail]
    ensures Repaired(s + tail) == Some(if ReadLine(tail).Bad? then s else s + tail)
  {
    hide ReadLine, Clean, SplitLines;
    TailSize(s, tail);
    assert (s + tail)[..|s|] == s;
    assert (s + tail)[..|s + tail|] == s + tail;
  }

  lemma TailSize(s: string, tail: string)
    requires Clean(s) && SplitLines(tail) == [tail]
    ensures SafeSize(SplitLines(s + tail), 0) == Some(if ReadLine(tail).Bad? then |s| else |s + tail|)
  {
    hide ReadLine, SplitLines;
    SplitConcat(s, tail);
    SplitLinesLength(s);
    SafeSizeConcat(SplitLines(s), [tail], 0);
    assert [tail][1..] == [];
  }

  lemma TailEvents(s: string, tail: string)
    requires EndsLine(s) && SplitLines(tail) == [tail]
    ensures Events(s + tail) == Events(s) + (match ReadLine(tail) case Record(e) => [e] case _ => [])
  {
    hide ReadLine;
    SplitConcat(s, tail);
    EventsConcat(SplitLines(s), [tail]);
    assert [tail][1..] == [];
  }

  // Repair leaves a clean ledger alone and reads back what it holds.
  lemma CleanIsStable(s: string)
    requires Clean(s)
    ensures Repaired(s) == Some(s)
  {
    hide ReadLine, LineEnd;
    SplitLinesLength(s);
    SafeSizeConcat(SplitLines(s), [], 0);
    assert SplitLines(s) + [] == SplitLines(s);
    assert s[..|s|] == s;
  }

  /******* One record as a line *******/

  lemma {:induction false} StripRightKeeps(s: string)
    requires s != "" && !IsSpace(s[0])
    ensures StripRight(s) != "" && StripRight(s)[0] == s[0]
  {
    if IsSpace(s[|s| - 1]) {
      StripRightKeeps(s[..|s| - 1]);
    }
  }

  // A text whose ends are not whitespace is what stripping its line gives.
  lemma StripLine(s: string, t: string)
    requires s != "" && !IsSpace(s[0]) && !IsSpace(s[|s| - 1])
    requires t == "" || t == "\n"
    ensures Strip(s + t) == s
  {
    var line := s + t;
    assert StripLeft(line) == line;
    assert StripRight(s) == s;
    if t == "\n" {
      assert line[..|line| - 1] == s;
    } else {
      assert line == s;
    }
  }

  lemma RecordLine(members: seq<Member>, t: string)
    requires t == "" || t == "\n"
    ensures ReadLine(Print(Object(members)) + t) == Record(Object(members))
  {
    RecordShape(members);
    LoadsPrint(Object(members));
    StripLine(Print(Object(members)), t);
  }

  lemma WholeRecordLine(members: seq<Member>, t: string)
    requires t == "" || t == "\n"
    ensures ReadLine(Print(Object(members)) + t) == Record(Object(members))
    ensures SplitLines(Print(Object(members)) + t) == [Print(Object(members)) + t]
  {
    hide ReadLine, Print;
    RecordShape(members);
    RecordLine(members, t);
    OneLine(Print(Object(members)), t);
  }

  lemma TornRecordIsBad(members: seq<Member>, k: nat)
    requires 0 < k < |Print(Object(members))|
    ensures ReadLine(Print(Object(members))[..k]) == Bad
  {
    var s := Print(Object(members));
    RecordShape(members);
    var torn := s[..k];
    assert StripLeft(torn) == torn;
    StripRightKeeps(torn);
    var j := |Strip(torn)|;
    assert Strip(torn) == s[..j];
    TornRecordNeverLoads(members, j);
  }

  lemma TornRecordLine(members: seq<Member>, k: nat)
    requires 0 < k < |Print(Object(members))|
    ensures ReadLine(Print(Object(members))[..k]) == Bad
    ensures SplitLines(Print(Object(members))[..k]) == [Print(Object(members))[..k]]
  {
    hide ReadLine, Print;
    RecordShape(members);
    TornRecordIsBad(members, k);
    var torn := Print(Object(members))[..k];
    OneLine(torn, "");
    assert torn + "" == torn;
  }

  /******* Main results *******/

  // Cut one append anywhere: repair gives back the old ledger, or the old ledger and the whole
  // record; only a cut that loses exactly the newline leaves an unterminated last line.
  lemma CutAppendRepairs(s: string, members: seq<Member>, cut: nat)
    requires Clean(s) && cut <= |RecordText(members)|
    ensures var whole := |Print(Object(members))|;
            var after := s + RecordText(members)[..cut];
            && Repaired(after) == Some(if cut < whole then s else after)
            && Events(Repaired(after).value) == Events(s) + (if cut < whole then [] else [Object(members)])
            && s <= Repaired(after).value
            && (Clean(Repaired(after).value) <==> cut != whole)
  {
    hide ReadLine, Print, Repaired, Events, Clean, SplitLines;
    var record := Print(Object(members));
    var tail := RecordText(members)[..cut];
    if cut == 0 {
      assert s + tail == s;
      CleanIsStable(s);
      RecordShape(members);
    } else if cut < |record| {
      assert tail == record[..cut];
      TornRecordLine(members, cut);
      TailRepair(s, tail);
    } else {
      var t := if cut == |record| then "" else "\n";
      assert tail == record + t;
      KeptRecord(s, members, t);
    }
  }

  // The cut spared the whole record.
  lemma KeptRecord(s: string, members: seq<Member>, t: string)
    requires Clean(s) && (t == "" || t == "\n")
    ensures var after := s + (Print(Object(members)) + t);
            && Repaired(after) == Some(after)
            && Events(after) == Events(s) + [Object(members)]
            && (Clean(after) <==> t == "\n")
  {
    hide ReadLine, Print;
    var line := Print(Object(members)) + t;
    WholeRecordLine(members, t);
    RecordShape(members);
    TailRepair(s, line);
    TailEvents(s, line);
    SplitConcat(s, line);
    assert (s + line)[|s + line| - 1] == line[|line| - 1];
  }

  // A record and any beginning of another one on the same line are not a JSON text.
  lemma JoinedRecordsNeverLoad(first: seq<Member>, second: seq<Member>, k: nat)
    requires 0 < k <= |Print(Object(second))|
    ensures Loads(Print(Object(first)) + Print(Object(second))[..k]).Fail?
  {
    var a, b := Print(Object(first)), Print(Object(second))[..k];
    RecordShape(first);
    RecordShape(second);
    RoundTrip(Object(first), b);
    assert SkipWhitespace(a + b) == a + b && SkipWhitespace(b) == b;
  }

  // Stripping such a line never reaches the brace that the second record begins with.
  lemma StripJoined(a: string, b: string)
    requires a != "" && !IsSpace(a[0]) && b != "" && !IsSpace(b[0])
    ensures exists k :: 0 < k <= |b| && Strip(a + b) == a + b[..k]
  {
    var line := a + b;
    assert StripLeft(line) == line;
    StripRightReaches(line, |a|);
    var k := |Strip(line)| - |a|;
    assert Strip(line) == line[..|a| + k] == a + b[..k];
  }

  lemma {:induction false} StripRightReaches(s: string, n: nat)
    requires n < |s| && !IsSpace(s[n])
    ensures |StripRight(s)| > n
    decreases |s|
  {
    if IsSpace(s[|s| - 1]) {
      StripRightReaches(s[..|s| - 1], n);
    }
  }

  lemma JoinedIsBad(first: seq<Member>, second: seq<Member>, k: nat)
    requires 0 < k <= |Print(Object(second))|
    ensures ReadLine(Print(Object(first)) + Print(Object(second))[..k]) == Bad
  {
    hide Print, Loads;
    var a, b := Print(Object(first)), Print(Object(second))[..k];
    RecordShape(first);
    RecordShape(second);
    StripJoined(a, b);
    var j :| 0 < j <= |b| && Strip(a + b) == a + b[..j];
    assert b[..j] == Print(Object(second))[..j];
    JoinedRecordsNeverLoad(first, second, j);
  }

  lemma JoinedIsOneLine(first: seq<Member>, second: seq<Member>, k: nat, t: string)
    requires k <= |Print(Object(second))| && (t == "" || t == "\n")
    ensures var line := Print(Object(first)) + Print(Object(second))[..k] + t; SplitLines(line) == [line]
  {
    hide Print;
    RecordShape(first);
    RecordShape(second);
    OneLine(Print(Object(first)) + Print(Object(second))[..k], t);
  }

  lemma JoinedLine(first: seq<Member>, second: seq<Member>, cut: nat)
    requires 0 < cut <= |RecordText(second)|
    ensures var line := Print(Object(first)) + RecordText(second)[..cut];
            ReadLine(line) == Bad && SplitLines(line) == [line]
  {
    hide Print, ReadLine, SplitLines;
    var a, b := Print(Object(first)), Print(Object(second));
    if cut <= |b| {
      JoinedIsBad(first, second, cut);
      JoinedIsOneLine(first, second, cut, "");
      assert a + RecordText(second)[..cut] == a + b[..cut] + "";
      assert a + b[..cut] + "" == a + b[..cut];
    } else {
      JoinedIsOneLine(first, second, |b|, "\n");
      assert a + RecordText(second)[..cut] == a + b[..|b|] + "\n";
      JoinedWithNewline(first, second);
    }
  }

  lemma JoinedWithNewline(first: seq<Member>, second: seq<Member>)
    ensures ReadLine(Print(Object(first)) + Print(Object(second))[..|Print(Object(second))|] + "\n") == Bad
  {
    hide Print, Loads;
    var a, b := Print(Object(first)), Print(Object(second));
    RecordShape(first);
    RecordShape(second);
    assert b[..|b|] == b;
    StripLine(a + b, "\n");
    JoinedRecordsNeverLoad(first, second, |b|);
  }

  // After a cut that lost only the newline, whatever the next append writes is joined to the
  // unterminated record, and the next repair removes both: an event that recovery had already read
  // back is lost.
  lemma LostNewlineLosesTwoEvents(s: string, first: seq<Member>, second: seq<Member>, cut: nat)
    requires Clean(s) && 0 < cut <= |RecordText(second)|
    ensures var recovered := s + Print(Object(first));
            && Repaired(recovered) == Some(recovered)
            && Events(recovered) == Events(s) + [Object(first)]
            && Repaired(recovered + RecordText(second)[..cut]) == Some(s)
  {
    hide ReadLine, Print, Repaired, Events, Clean, SplitLines;
    var record, more := Print(Object(first)), RecordText(second)[..cut];
    KeptRecord(s, first, "");
    assert record + "" == record;
    JoinedLine(first, second, cut);
    TailRepair(s, record + more);
    assert (s + record) + more == s + (record + more);
  }
}
