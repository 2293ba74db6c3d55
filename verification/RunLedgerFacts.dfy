/** What the run ledger's numbering, traces and candidate listings guarantee. */
module RunLedgerFacts {
  import opened Wrappers
  import opened Ordering
  import opened RunLedger

  /******* Numbering over runs *******/

  datatype Step =
    | Start(auditId: string, snapshotRef: string, runId: Option<string>)
    | Record(execution: Execution)

  ghost function Next(entries: seq<Entry>, step: Step): seq<Entry> {
    match step
    case Start(auditId, snapshotRef, runId) => AfterStart(entries, auditId, snapshotRef, runId)
    case Record(x) => AfterRecord(entries, x)
  }

  ghost function After(steps: seq<Step>): seq<Entry> {
    if steps == [] then [] else Next(After(steps[..|steps| - 1]), steps[|steps| - 1])
  }

  ghost predicate Numbered(entries: seq<Entry>) {
    forall i :: 0 <= i < |entries| ==> entries[i].sequence == i + 1
  }

  ghost predicate RunsUnique(entries: seq<Entry>) {
    forall i, j :: 0 <= i < j < |entries| && entries[i].RunStarted? && entries[j].RunStarted? ==>
        entries[i].runId != entries[j].runId
  }

  lemma {:induction false} HighestOfNumbered(entries: seq<Entry>)
    requires Numbered(entries)
    ensures HighestSequence(entries) == |entries|
    decreases |entries|
  {
    if entries != [] {
      HighestOfNumbered(entries[..|entries| - 1]);
    }
  }

  lemma NextKeepsNumbers(entries: seq<Entry>, step: Step)
    requires Numbered(entries) && RunsUnique(entries)
    ensures Numbered(Next(entries, step)) && RunsUnique(Next(entries, step))
  {
    hide FindRun, IsBlank, ChosenRun, HighestSequence, Complaint, FirstComplaint, RefsWith;
    HighestOfNumbered(entries);
    if step.Start? {
      var id := ChosenRun(entries, step.runId);
      if FindRun(entries, id).None? {
        assert !HasRun(entries, id);
        assert forall i :: 0 <= i < |entries| ==> entries[i] in entries;
      }
    }
  }

  // In every ledger the entries are numbered 1, 2, 3, … and no two runs share an id.
  lemma {:induction false} LedgersAreNumbered(steps: seq<Step>)
    ensures Numbered(After(steps)) && RunsUnique(After(steps))
    decreases |steps|
  {
    hide Next, Numbered, RunsUnique;
    if steps == [] {
      EmptyIsNumbered();
    } else {
      LedgersAreNumbered(steps[..|steps| - 1]);
      NextKeepsNumbers(After(steps[..|steps| - 1]), steps[|steps| - 1]);
    }
  }

  lemma EmptyIsNumbered()
    ensures Numbered([]) && RunsUnique([])
  {
  }

  /******* Stable sorting and selection commute *******/

  ghost predicate Keeps(keep: Trace -> Option<Trace>) {
    forall x :: keep(x).Some? ==> keep(x).value == x
  }

  lemma {:induction false} KeepInsert(x: Trace, s: seq<Trace>, key: Trace -> Key, keep: Trace -> Option<Trace>)
    requires Keeps(keep) && Sorted(s, key)
    ensures Collect(Insert(x, s, key), keep)
         == if keep(x).Some? then Insert(x, Collect(s, keep), key) else Collect(s, keep)
    decreases |s|
  {
    hide Collect;
    if s == [] || Leq(key(x), key(s[0])) {
      CollectOne(x, s, keep);
      if s == [] {
        NothingKept(keep);
      } else {
        KeptHead(x, s, key, keep);
      }
      assert [] + Collect(s, keep) == Collect(s, keep);
    } else {
      KeepInsert(x, s[1..], key, keep);
      CollectOne(s[0], Insert(x, s[1..], key), keep);
      CollectOne(s[0], s[1..], keep);
      assert s == [s[0]] + s[1..];
      var kept := Collect(s[1..], keep);
      if keep(s[0]).Some? {
        assert ([s[0]] + kept)[1..] == kept;
      } else {
        assert [] + kept == kept && [] + Insert(x, kept, key) == Insert(x, kept, key);
      }
    }
  }

  lemma NothingKept(keep: Trace -> Option<Trace>)
    ensures Collect([], keep) == []
  {
  }

  // Whatever is kept of a sorted list starts no lower than the list.
  lemma KeptHead(x: Trace, s: seq<Trace>, key: Trace -> Key, keep: Trace -> Option<Trace>)
    requires Keeps(keep) && Sorted(s, key) && s != [] && Leq(key(x), key(s[0]))
    ensures Insert(x, Collect(s, keep), key) == [x] + Collect(s, keep)
  {
    var kept := Collect(s, keep);
    if kept != [] {
      CollectMembers(s, keep, kept[0]);
      HeadLeast(s, key, kept[0]);
      LeqTransitive(key(x), key(s[0]), key(kept[0]));
    }
  }

  lemma {:induction false} KeepSort(s: seq<Trace>, key: Trace -> Key, keep: Trace -> Option<Trace>)
    requires Keeps(keep)
    ensures Collect(SortBy(s, key), keep) == SortBy(Collect(s, keep), key)
    decreases |s|
  {
    hide Keeps, Insert;
    if s != [] {
      KeepSort(s[1..], key, keep);
      SortFacts(s[1..], key);
      KeepInsert(s[0], SortBy(s[1..], key), key, keep);
      KeptOne(s[0], s[1..], key, keep);
      assert s == [s[0]] + s[1..];
    }
  }

  lemma KeptOne(x: Trace, rest: seq<Trace>, key: Trace -> Key, keep: Trace -> Option<Trace>)
    requires Keeps(keep)
    ensures SortBy(Collect([x] + rest, keep), key)
            == if keep(x).Some?
                then Insert(x, SortBy(Collect(rest, keep), key), key) else SortBy(Collect(rest, keep), key)
  {
    var kept := Collect(rest, keep);
    CollectOne(x, rest, keep);
    if keep(x).Some? {
      assert ([x] + kept)[1..] == kept;
    } else {
      assert [] + kept == kept;
    }
  }

  /******* Traces *******/

  ghost predicate InSequence(matches: seq<Trace>) {
    forall i, j :: 0 <= i < j < |matches| ==> matches[i].sequence <= matches[j].sequence
  }

  // Position `i` holds the last match of the best rank there is.
  ghost predicate LastOfBest(matches: seq<Trace>, preferred: seq<string>, i: int) {
    && 0 <= i < |matches|
    && (forall j :: 0 <= j < |matches| ==> Rank(preferred, matches[i]) <= Rank(preferred, matches[j]))
    && (forall j :: i < j < |matches| ==> Rank(preferred, matches[i]) < Rank(preferred, matches[j]))
  }

  lemma LeqPairs(a: int, b: int, c: int, d: int)
    ensures Leq([a, b], [c, d]) <==> a < c || (a == c && b <= d)
  {
    assert [a, b][1..] == [b] && [c, d][1..] == [d] && [b][1..] == [] && [d][1..] == [];
    assert Leq([], []);
    assert Leq([b], [d]) <==> b <= d;
  }

  // The trace that is returned belongs to a match of best rank, and among those it has the highest
  // sequence number.
  lemma BestIsBestAndLatest(matches: seq<Trace>, preferred: seq<string>)
    ensures Best(matches, preferred).None? <==> matches == []
    ensures Best(matches, preferred).Some? ==>
              var t := Best(matches, preferred).value;
              t in matches && forall m :: m in matches ==>
                Rank(preferred, t) <= Rank(preferred, m)
                    && (Rank(preferred, m) == Rank(preferred, t) ==> m.sequence <= t.sequence)
  {
    hide SortBy, Collect, Rank, Leq;
    if matches != [] {
      var key := TraceOrder(preferred);
      var sorted := SortBy(matches, key);
      SortFacts(matches, key);
      var rank := Rank(preferred, sorted[0]);
      var keep := OfRank(preferred, rank);
      var ranked := Collect(sorted, keep);
      CollectMembers(sorted, keep, sorted[0]);
      assert keep(sorted[0]) == Some(sorted[0]);
      assert sorted[0] in ranked;
      var t := ranked[|ranked| - 1];
      CollectMembers(sorted, keep, t);
      SortMembers(matches, key, t);
      KeepSort(matches, key, keep);
      SortFacts(Collect(matches, keep), key);
      forall m | m in matches
        ensures rank <= Rank(preferred, m) && (Rank(preferred, m) == rank ==> m.sequence <= t.sequence)
      {
        SortMembers(matches, key, m);
        HeadLeast(sorted, key, m);
        LeqPairs(rank, sorted[0].sequence, Rank(preferred, m), m.sequence);
        if Rank(preferred, m) == rank {
          CollectMembers(sorted, keep, m);
          LastIsGreatest(ranked, key, m);
          LeqPairs(rank, m.sequence, rank, t.sequence);
        }
      }
    }
  }

  lemma LastIsGreatest(s: seq<Trace>, key: Trace -> Key, m: Trace)
    requires Sorted(s, key) && m in s
    ensures Leq(key(m), key(s[|s| - 1]))
  {
    LeqTotal(key(m), key(m));
  }

  // On a ledger in sequence order that is the last match of the best rank.
  lemma BestIsLast(matches: seq<Trace>, preferred: seq<string>)
    requires matches != [] && InSequence(matches)
    ensures exists i :: LastOfBest(matches, preferred, i) && Best(matches, preferred) == Some(matches[i])
  {
    hide SortBy, Rank, Leq, Best;
    BestIsBestAndLatest(matches, preferred);
    var t := Best(matches, preferred).value;
    var rank := Rank(preferred, t);
    var keep := OfRank(preferred, rank);
    BestIsLastKept(matches, preferred, rank);
    var i := LastKeptAt(matches, keep);
    assert LastOfBest(matches, preferred, i);
  }

  lemma BestIsLastKept(matches: seq<Trace>, preferred: seq<string>, rank: nat)
    requires matches != [] && InSequence(matches) && Rank(preferred, Best(matches, preferred).GetOr(matches[0])) == rank
    ensures var kept := Collect(matches, OfRank(preferred, rank));
            kept != [] && Best(matches, preferred) == Some(kept[|kept| - 1])
  {
    hide SortBy, Collect, Rank, Leq;
    var key := TraceOrder(preferred);
    BestIsBestAndLatest(matches, preferred);
    SortFacts(matches, key);
    var sorted := SortBy(matches, key);
    var first := Rank(preferred, sorted[0]);
    var ranked := Collect(sorted, OfRank(preferred, first));
    CollectMembers(sorted, OfRank(preferred, first), ranked[|ranked| - 1]);
    assert first == rank;
    KeepSort(matches, key, OfRank(preferred, rank));
    KeptAreSorted(matches, preferred, rank);
    SortSorted(Collect(matches, OfRank(preferred, rank)), key);
  }

  lemma {:induction false} KeptAreSorted(matches: seq<Trace>, preferred: seq<string>, rank: nat)
    requires InSequence(matches)
    ensures Sorted(Collect(matches, OfRank(preferred, rank)), TraceOrder(preferred))
    decreases |matches|
  {
    hide Rank, Leq;
    var keep := OfRank(preferred, rank);
    if matches != [] {
      KeptAreSorted(matches[1..], preferred, rank);
      var rest := Collect(matches[1..], keep);
      forall m | m in rest ensures Leq([rank, matches[0].sequence], TraceOrder(preferred)(m)) {
        CollectMembers(matches[1..], keep, m);
        LeqPairs(rank, matches[0].sequence, rank, m.sequence);
      }
    }
  }

  lemma {:induction false} LastKeptAt(matches: seq<Trace>, keep: Trace -> Option<Trace>) returns (i: nat)
    requires Keeps(keep) && Collect(matches, keep) != []
    ensures i < |matches| && keep(matches[i]).Some?
    ensures matches[i] == Collect(matches, keep)[|Collect(matches, keep)| - 1]
    ensures forall j :: i < j < |matches| ==> keep(matches[j]).None?
    decreases |matches|
  {
    var rest := Collect(matches[1..], keep);
    if rest == [] {
      i := 0;
      forall j | 0 < j < |matches| ensures keep(matches[j]).None? {
        assert matches[1..][j - 1] == matches[j];
        if keep(matches[j]).Some? {
          CollectMembers(matches[1..], keep, matches[j]);
        }
      }
    } else {
      var k := LastKeptAt(matches[1..], keep);
      i := k + 1;
    }
  }

  lemma {:induction false} MatchesInOrder(entries: seq<Entry>, entityType: string, entityId: string)
    requires Numbered(entries)
    ensures InSequence(Matches(entries, entityType, entityId))
    ensures forall t :: t in Matches(entries, entityType, entityId) ==> t.sequence <= |entries|
    decreases |entries|
  {
    if entries != [] {
      hide Concerns;
      var n := |entries| - 1;
      MatchesInOrder(entries[..n], entityType, entityId);
      if entries[n].WorkerExecution? {
        MatchesOfEntry(entries[n], entries[n].accepted, entityType, entityId);
      }
    }
  }

  lemma {:induction false} MatchesOfEntry(e: Entry, refs: seq<EventRef>, entityType: string, entityId: string)
    requires e.WorkerExecution?
    ensures forall t :: t in MatchesIn(e, refs, entityType, entityId) ==> t.sequence == e.sequence
    decreases |refs|
  {
    hide Concerns;
    if refs != [] {
      MatchesOfEntry(e, refs[..|refs| - 1], entityType, entityId);
    }
  }

  // In every ledger the trace of an entity is the last match of the best preference rank.
  lemma EntityTraceIsLastOfBest(steps: seq<Step>, entityType: string, entityId: string, preferred: seq<string>)
    ensures var matches := Matches(After(steps), entityType, entityId);
            matches != [] ==>
              exists i :: LastOfBest(matches, preferred, i) && Best(matches, preferred) == Some(matches[i])
  {
    hide Best, LastOfBest, Matches, After;
    LedgersAreNumbered(steps);
    MatchesInOrder(After(steps), entityType, entityId);
    if Matches(After(steps), entityType, entityId) != [] {
      BestIsLast(Matches(After(steps), entityType, entityId), preferred);
    }
  }
}
