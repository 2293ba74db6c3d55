/** Canonicalisation is stable, and identities ignore exactly what they promise to ignore. */
module CanonicalizationFacts {
  import opened Wrappers
  import opened Json
  import opened JsonFacts
  import opened Ordering
  import opened Text
  import opened Events
  import opened Canonicalization

  // Unicode normalisation leaves alone a text that is already normalised and whose whitespace was
  // collapsed (Unicode Standard Annex #15, stability of normalisation forms).
  ghost predicate NfkcStable(env: Env) {
    forall s :: env.nfkc(Collapse(env.nfkc(s))) == Collapse(env.nfkc(s))
  }

  ghost predicate InjectiveDigest(env: Env) {
    forall x, y :: env.digest(x) == env.digest(y) ==> x == y
  }

  /******* Text and id lists *******/

  lemma DisplayIdempotent(env: Env, s: string)
    requires NfkcStable(env)
    ensures Display(env, Display(env, s)) == Display(env, s)
  {
    CollapseIdempotent(env.nfkc(s));
  }

  lemma TextIdentityStable(env: Env, kind: FieldKind, s: string)
    requires NfkcStable(env)
    ensures TextIdentity(env, kind, Display(env, s)) == TextIdentity(env, kind, s)
  {
    DisplayIdempotent(env, s);
  }

  lemma IdListFixed(env: Env, ids: seq<string>)
    requires NfkcStable(env)
    ensures DisplayAll(env, IdList(env, ids)) == IdList(env, ids)
  {
    var all := DisplayAll(env, ids);
    SortedSetFacts(all);
    forall y | y in SortedSet(all) ensures NonBlank(env)(y) == Some(y) {
      CollectMembers(ids, NonBlank(env), y);
      var x :| x in ids && NonBlank(env)(x) == Some(y);
      DisplayIdempotent(env, x);
    }
    CollectFixed(SortedSet(all), NonBlank(env));
  }

  lemma IdListIdempotent(env: Env, ids: seq<string>)
    requires NfkcStable(env)
    ensures IdList(env, IdList(env, ids)) == IdList(env, ids)
  {
    IdListFixed(env, ids);
    SortedSetIdempotent(DisplayAll(env, ids));
  }

  lemma OptionalIdsIdempotent(env: Env, ids: Option<seq<string>>)
    requires NfkcStable(env)
    ensures OptionalIds(env, OptionalIds(env, ids)) == OptionalIds(env, ids)
    ensures IdList(env, OptionalIds(env, ids).GetOr([])) == IdList(env, ids.GetOr([]))
  {
    IdListIdempotent(env, ids.GetOr([]));
  }

  // The list depends on the set of displayed ids: order, repetition and whitespace do not matter.
  ghost predicate SameIds(env: Env, a: seq<string>, b: seq<string>) {
    forall y :: y in DisplayAll(env, a) <==> y in DisplayAll(env, b)
  }

  lemma IdListIgnoresOrder(env: Env, a: seq<string>, b: seq<string>)
    requires SameIds(env, a, b)
    ensures IdList(env, a) == IdList(env, b)
  {
    SortedSetUnique(DisplayAll(env, a), DisplayAll(env, b));
  }

  // Permuting and repeating ids, and changing their whitespace, keeps the set of displayed ids.
  lemma RepeatedIds(env: Env, a: seq<string>, b: seq<string>)
    requires forall x :: x in a ==> exists y :: y in b && Display(env, y) == Display(env, x)
    requires forall y :: y in b ==> exists x :: x in a && Display(env, x) == Display(env, y)
    ensures SameIds(env, a, b)
  {
    hide Display;
    forall z ensures z in DisplayAll(env, a) <==> z in DisplayAll(env, b) {
      CollectMembers(a, NonBlank(env), z);
      CollectMembers(b, NonBlank(env), z);
    }
  }

  /******* Source references *******/

  lemma IdentityIdempotent(r: SourceRef)
    ensures Identity(Identity(r)) == Identity(r)
  {
    hide NormalizePath;
    NormalizePathIdempotent(r.filePath);
    if r.fileHash.Some? {
      LowerIdempotent(r.fileHash.value);
    }
  }

  // What the identity of a reference looks like: nothing left to normalise, no excerpt, lines present.
  ghost predicate IsIdentity(r: SourceRef) {
    r.lines.Some? && r.excerpt.None? && Identity(r) == r
  }

  lemma IdentitiesAreIdentities(refs: seq<SourceRef>)
    ensures forall r :: r in RefIdentities(refs) ==> IsIdentity(r)
    ensures forall r :: r in RefIdentities(refs) <==> exists x :: x in refs && IdentityIfUsable(x) == Some(r)
    ensures Sorted(RefIdentities(refs), RefKey)
  {
    hide Identity, RefKey;
    SortFacts(Identities(refs), RefKey);
    forall r ensures r in RefIdentities(refs) <==> exists x :: x in refs && IdentityIfUsable(x) == Some(r) {
      SortMembers(Identities(refs), RefKey, r);
      CollectMembers(refs, IdentityIfUsable, r);
    }
    forall r | r in RefIdentities(refs) ensures IsIdentity(r) {
      var x :| x in refs && IdentityIfUsable(x) == Some(r);
      IdentityIdempotent(x);
      IdentityShape(x);
    }
  }

  lemma IdentityShape(r: SourceRef)
    ensures Identity(r).lines == r.lines && Identity(r).excerpt.None?
    ensures forall x :: Identity(r.(excerpt := x)) == Identity(r)
  {
  }

  lemma {:induction false} WithExcerptsIdentities(env: Env, ids: seq<SourceRef>, refs: seq<SourceRef>)
    requires forall r :: r in ids ==> IsIdentity(r)
    ensures Identities(WithExcerpts(env, ids, refs)) == ids
    decreases |ids|
  {
    hide Identity, StoredExcerpt;
    if ids != [] {
      var rest := WithExcerpts(env, ids[1..], refs);
      var stored := ids[0].(excerpt := StoredExcerpt(env, FirstAt(refs, ids[0])));
      WithExcerptsIdentities(env, ids[1..], refs);
      IdentityShape(ids[0]);
      assert ids == [ids[0]] + ids[1..] && ids[0] in ids;
      assert WithExcerpts(env, ids, refs) == [stored] + rest;
      assert ([stored] + rest)[1..] == rest;
      assert IdentityIfUsable(stored) == Some(ids[0]);
    }
  }

  // Storing references does not change what they identify.
  lemma StorageKeepsIdentities(env: Env, refs: seq<SourceRef>)
    ensures RefIdentities(StorageRefs(env, refs)) == RefIdentities(refs)
  {
    hide RefKey;
    IdentitiesAreIdentities(refs);
    WithExcerptsIdentities(env, RefIdentities(refs), refs);
    SortSorted(RefIdentities(refs), RefKey);
  }

  // The excerpt kept for the place of `identity`.
  function ExcerptAt(env: Env, refs: seq<SourceRef>, identity: SourceRef): Option<string> {
    StoredExcerpt(env, FirstAt(refs, identity))
  }

  lemma {:induction false} FirstAtPlace(refs: seq<SourceRef>, a: SourceRef, b: SourceRef)
    requires a.filePath == b.filePath && a.lines == b.lines && a.snapshotRef == b.snapshotRef
    ensures FirstAt(refs, a) == FirstAt(refs, b)
    decreases |refs|
  {
    hide NormalizePath;
    if refs != [] {
      FirstAtPlace(refs[1..], a, b);
    }
  }

  // Searching the stored list finds the excerpt that was stored for that place.
  lemma {:induction false} FirstStored(env: Env, ids: seq<SourceRef>, refs: seq<SourceRef>, identity: SourceRef)
    requires forall r :: r in ids ==> IsIdentity(r)
    requires identity in ids
    ensures var found := FirstAt(WithExcerpts(env, ids, refs), identity);
            found.Some? && found.value.excerpt == ExcerptAt(env, refs, identity)
    decreases |ids|
  {
    hide StoredExcerpt, NormalizePath;
    var first := ids[0];
    var stored := first.(excerpt := ExcerptAt(env, refs, first));
    assert ids == [first] + ids[1..];
    assert WithExcerpts(env, ids, refs) == [stored] + WithExcerpts(env, ids[1..], refs);
    assert first in ids;
    if SamePlace(stored, identity) {
      FirstAtPlace(refs, first, identity);
    } else {
      assert first != identity;
      FirstStored(env, ids[1..], refs, identity);
    }
  }

  // The first reference at some place carries an excerpt of nothing but whitespace.
  ghost predicate BlankExcerpt(env: Env, refs: seq<SourceRef>) {
    exists r :: r in refs && r.lines.Some? && ExcerptAt(env, refs, Identity(r)) == Some("")
  }

  lemma {:induction false} SecondPass(env: Env, ids: seq<SourceRef>, all: seq<SourceRef>, refs: seq<SourceRef>)
    requires NfkcStable(env)
    requires forall r :: r in all ==> IsIdentity(r)
    requires forall r :: r in ids ==> r in all
    ensures WithExcerpts(env, ids, WithExcerpts(env, all, refs)) == WithExcerpts(env, ids, refs)
            <==> forall r :: r in ids ==> ExcerptAt(env, refs, r) != Some("")
    decreases |ids|
  {
    hide ExcerptAt, IsIdentity, NfkcStable;
    if ids != [] {
      var first := ids[0];
      assert first in ids && ids == [first] + ids[1..];
      SecondPass(env, ids[1..], all, refs);
      ExcerptSecondPass(env, all, refs, first);
      SameExcerpts(env, ids, refs, WithExcerpts(env, all, refs));
      forall r ensures r in ids <==> r == first || r in ids[1..] {
      }
    }
  }

  // Two lists give the same stored references exactly when they agree on every excerpt.
  lemma SameExcerpts(env: Env, ids: seq<SourceRef>, a: seq<SourceRef>, b: seq<SourceRef>)
    requires ids != []
    ensures WithExcerpts(env, ids, b) == WithExcerpts(env, ids, a) <==>
            && ExcerptAt(env, b, ids[0]) == ExcerptAt(env, a, ids[0])
            && WithExcerpts(env, ids[1..], b) == WithExcerpts(env, ids[1..], a)
  {
    hide StoredExcerpt, FirstAt;
    var x, y := WithExcerpts(env, ids, a), WithExcerpts(env, ids, b);
    assert x[0].excerpt == ExcerptAt(env, a, ids[0]) && y[0].excerpt == ExcerptAt(env, b, ids[0]);
    assert x[1..] == WithExcerpts(env, ids[1..], a) && y[1..] == WithExcerpts(env, ids[1..], b);
    assert x == [x[0]] + x[1..] && y == [y[0]] + y[1..];
  }

  lemma ExcerptSecondPass(env: Env, all: seq<SourceRef>, refs: seq<SourceRef>, identity: SourceRef)
    requires NfkcStable(env)
    requires forall r :: r in all ==> IsIdentity(r)
    requires identity in all
    ensures ExcerptAt(env, WithExcerpts(env, all, refs), identity) == ExcerptAt(env, refs, identity)
            <==> ExcerptAt(env, refs, identity) != Some("")
  {
    hide IsIdentity, WithExcerpts, FirstAt, NfkcStable;
    FirstStored(env, all, refs, identity);
    StoredTwice(env, FirstAt(refs, identity), FirstAt(WithExcerpts(env, all, refs), identity));
  }

  lemma StoredTwice(env: Env, found: Option<SourceRef>, again: Option<SourceRef>)
    requires NfkcStable(env)
    requires again.Some? && again.value.excerpt == StoredExcerpt(env, found)
    ensures StoredExcerpt(env, again) == StoredExcerpt(env, found) <==> StoredExcerpt(env, found) != Some("")
  {
    hide Display, NfkcStable;
    if found.Some? && found.value.excerpt.Some? {
      DisplayIdempotent(env, found.value.excerpt.value);
    }
  }

  // Storing twice is storing once exactly when no chosen excerpt is blank.
  lemma StorageIdempotence(env: Env, refs: seq<SourceRef>)
    requires NfkcStable(env)
    ensures StorageRefs(env, StorageRefs(env, refs)) == StorageRefs(env, refs) <==> !BlankExcerpt(env, refs)
  {
    hide RefKey, Identity, ExcerptAt, RefIdentities;
    var ids := RefIdentities(refs);
    IdentitiesAreIdentities(refs);
    StorageKeepsIdentities(env, refs);
    SecondPass(env, ids, ids, refs);
    if BlankExcerpt(env, refs) {
      var r :| r in refs && r.lines.Some? && ExcerptAt(env, refs, Identity(r)) == Some("");
      assert IdentityIfUsable(r) == Some(Identity(r));
      assert Identity(r) in ids;
    } else {
      forall r | r in ids ensures ExcerptAt(env, refs, r) != Some("") {
        var x :| x in refs && IdentityIfUsable(x) == Some(r);
      }
    }
  }

  lemma RefKeyInjective(a: SourceRef, b: SourceRef)
    requires IsIdentity(a) && IsIdentity(b) && RefKey(a) == RefKey(b)
    ensures a == b
  {
    hide Identity, Field, Codes;
    var la, lb := a.lines.value, b.lines.value;
    var ha, hb := Codes(a.fileHash.GetOr("")), Codes(b.fileHash.GetOr(""));
    var ta, tb := Field(a.snapshotRef) + ha, Field(b.snapshotRef) + hb;
    FieldInjective(a.filePath, b.filePath, [la.start, la.end] + ta, [lb.start, lb.end] + tb);
    assert ([la.start, la.end] + ta)[0] == la.start && ([la.start, la.end] + ta)[1] == la.end;
    assert ([lb.start, lb.end] + tb)[0] == lb.start && ([lb.start, lb.end] + tb)[1] == lb.end;
    assert ([la.start, la.end] + ta)[2..] == ta && ([lb.start, lb.end] + tb)[2..] == tb;
    FieldInjective(a.snapshotRef, b.snapshotRef, ha, hb);
    CodesInjective(a.fileHash.GetOr(""), b.fileHash.GetOr(""));
    HashShape(a);
    HashShape(b);
  }

  lemma HashShape(r: SourceRef)
    requires Identity(r) == r
    ensures r.fileHash.None? || r.fileHash.value != ""
  {
  }

  // The identities depend on the references as a collection, not on their order or excerpts.
  ghost predicate SameRefs(a: seq<SourceRef>, b: seq<SourceRef>) {
    multiset(Identities(a)) == multiset(Identities(b))
  }

  lemma RefIdentitiesIgnoreOrder(a: seq<SourceRef>, b: seq<SourceRef>)
    requires SameRefs(a, b)
    ensures RefIdentities(a) == RefIdentities(b)
  {
    hide RefKey, Identity;
    IdentitiesAreIdentities(a);
    forall x, y | x in Identities(a) && y in Identities(a) && RefKey(x) == RefKey(y) ensures x == y {
      SortMembers(Identities(a), RefKey, x);
      SortMembers(Identities(a), RefKey, y);
      RefKeyInjective(x, y);
    }
    SortUnique(Identities(a), Identities(b), RefKey);
  }

  lemma PermutedRefs(a: seq<SourceRef>, b: seq<SourceRef>)
    requires multiset(a) == multiset(b)
    ensures SameRefs(a, b)
  {
    CollectPermutes(a, b, IdentityIfUsable);
  }

  /******* Entity references *******/

  lemma EntityRefKeySeparates(a: EntityRef, b: EntityRef)
    requires a.EntityRef? && b.EntityRef? && EntityRefKey(a) == EntityRefKey(b)
    ensures a == b
  {
    hide Field, Codes;
    FieldInjective(a.entityType, b.entityType, Codes(a.entityId), Codes(b.entityId));
    CodesInjective(a.entityId, b.entityId);
  }

  lemma RelatedRefsIdempotent(refs: seq<EntityRef>)
    ensures RelatedRefs(RelatedRefs(refs)) == RelatedRefs(refs)
  {
    hide EntityRefKey;
    var kept := Collect(refs, IfWellFormed);
    SortFacts(kept, EntityRefKey);
    forall r | r in RelatedRefs(refs) ensures IfWellFormed(r) == Some(r) {
      SortMembers(kept, EntityRefKey, r);
      CollectMembers(refs, IfWellFormed, r);
    }
    CollectFixed(RelatedRefs(refs), IfWellFormed);
    SortSorted(RelatedRefs(refs), EntityRefKey);
  }

  lemma RelatedRefsIgnoreOrder(a: seq<EntityRef>, b: seq<EntityRef>)
    requires multiset(a) == multiset(b)
    ensures RelatedRefs(a) == RelatedRefs(b)
  {
    hide EntityRefKey;
    var kept := Collect(a, IfWellFormed);
    CollectPermutes(a, b, IfWellFormed);
    forall x, y | x in kept && y in kept && EntityRefKey(x) == EntityRefKey(y) ensures x == y {
      CollectMembers(a, IfWellFormed, x);
      CollectMembers(a, IfWellFormed, y);
      EntityRefKeySeparates(x, y);
    }
    SortUnique(kept, Collect(b, IfWellFormed), EntityRefKey);
  }

  /******* Candidate evidence and paths *******/

  // An evidence identity is a file place or an observation id.
  ghost predicate IsEvidence(r: EvidenceRef) {
    EvidenceIdentity(r) == Some(r)
  }

  lemma EvidenceIdempotent(r: EvidenceRef)
    requires EvidenceIdentity(r).Some?
    ensures IsEvidence(EvidenceIdentity(r).value)
  {
    hide NormalizePath;
    if r.filePath.Some? {
      NormalizePathIdempotent(r.filePath.value);
    }
  }

  lemma EvidenceKeySeparates(a: EvidenceRef, b: EvidenceRef)
    requires IsEvidence(a) && IsEvidence(b) && EvidenceKey(a) == EvidenceKey(b)
    ensures a == b
  {
    hide Print, Codes, NormalizePath;
    CodesInjective(Print(EvidenceJson(a)), Print(EvidenceJson(b)));
    PrintInjective(EvidenceJson(a), EvidenceJson(b));
    var ma, mb := EvidenceJson(a).members, EvidenceJson(b).members;
    assert ma[0] == mb[0];
    if a.filePath.Some? {
      assert ma[1] == mb[1];
      var la, lb := ma[1].value.members, mb[1].value.members;
      assert la[0] == lb[0] && la[1] == lb[1];
      assert |ma| == |mb|;
      if |ma| == 3 { assert ma[2] == mb[2]; }
    }
  }

  lemma EvidenceRefsIdempotent(refs: seq<EvidenceRef>)
    ensures EvidenceRefs(EvidenceRefs(refs)) == EvidenceRefs(refs)
  {
    hide EvidenceKey, EvidenceIdentity;
    var kept := Collect(refs, EvidenceIdentity);
    SortFacts(kept, EvidenceKey);
    forall r | r in EvidenceRefs(refs) ensures EvidenceIdentity(r) == Some(r) {
      SortMembers(kept, EvidenceKey, r);
      CollectMembers(refs, EvidenceIdentity, r);
      var x :| x in refs && EvidenceIdentity(x) == Some(r);
      EvidenceIdempotent(x);
    }
    CollectFixed(EvidenceRefs(refs), EvidenceIdentity);
    SortSorted(EvidenceRefs(refs), EvidenceKey);
  }

  lemma EvidenceRefsIgnoreOrder(a: seq<EvidenceRef>, b: seq<EvidenceRef>)
    requires multiset(a) == multiset(b)
    ensures EvidenceRefs(a) == EvidenceRefs(b)
  {
    hide EvidenceKey, EvidenceIdentity;
    var kept := Collect(a, EvidenceIdentity);
    CollectPermutes(a, b, EvidenceIdentity);
    forall x, y | x in kept && y in kept && EvidenceKey(x) == EvidenceKey(y) ensures x == y {
      CollectMembers(a, EvidenceIdentity, x);
      CollectMembers(a, EvidenceIdentity, y);
      var x' :| x' in a && EvidenceIdentity(x') == Some(x);
      var y' :| y' in a && EvidenceIdentity(y') == Some(y);
      EvidenceIdempotent(x');
      EvidenceIdempotent(y');
      EvidenceKeySeparates(x, y);
    }
    SortUnique(kept, Collect(b, EvidenceIdentity), EvidenceKey);
  }

  lemma {:induction false} SlashesKeepNonBlank(path: string)
    requires Strip(path) != ""
    ensures NormalizePath(path) != ""
  {
    hide Strip;
    NonBlankHasText(path);
    var i :| 0 <= i < |path| && !IsSpace(path[i]);
    assert Slashes(path)[i] == if path[i] == '\\' then '/' else path[i];
    TextIsNonBlank(Slashes(path), i);
  }

  lemma NonBlankHasText(s: string)
    requires Strip(s) != ""
    ensures exists i :: 0 <= i < |s| && !IsSpace(s[i])
  {
    var l := StripLeft(s);
    assert l[0] == s[|s| - |l|];
  }

  lemma TextIsNonBlank(s: string, i: nat)
    requires i < |s| && !IsSpace(s[i])
    ensures Strip(s) != ""
  {
    LeftKeeps(s, i);
    StripRightNonBlank(StripLeft(s));
  }

  lemma {:induction false} LeftKeeps(s: string, i: nat)
    requires i < |s| && !IsSpace(s[i])
    ensures StripLeft(s) != ""
  {
    if IsSpace(s[0]) {
      LeftKeeps(s[1..], i - 1);
    }
  }

  lemma {:induction false} StripRightNonBlank(s: string)
    requires s != "" && !IsSpace(s[0])
    ensures StripRight(s) != ""
  {
    if IsSpace(s[|s| - 1]) {
      StripRightNonBlank(s[..|s| - 1]);
    }
  }

  lemma FilePathsIdempotent(paths: seq<string>)
    ensures FilePaths(FilePaths(paths)) == FilePaths(paths)
  {
    hide NormalizePath, Strip;
    var kept := Collect(paths, NonBlankPath);
    SortedSetFacts(kept);
    forall y | y in FilePaths(paths) ensures NonBlankPath(y) == Some(y) {
      CollectMembers(paths, NonBlankPath, y);
      var x :| x in paths && NonBlankPath(x) == Some(y);
      NormalizePathIdempotent(x);
      SlashesKeepNonBlank(x);
      NormalizedIsTrimmed(x);
    }
    CollectFixed(FilePaths(paths), NonBlankPath);
    SortedSetIdempotent(kept);
  }

  lemma NormalizedIsTrimmed(x: string)
    ensures Strip(NormalizePath(x)) == NormalizePath(x)
  {
    StripTrims(Slashes(x));
    StripTrims(NormalizePath(x));
  }

  lemma FilePathsIgnoreOrder(a: seq<string>, b: seq<string>)
    requires forall x :: x in a <==> x in b
    ensures FilePaths(a) == FilePaths(b)
  {
    hide NonBlankPath;
    forall y ensures y in Collect(a, NonBlankPath) <==> y in Collect(b, NonBlankPath) {
      CollectMembers(a, NonBlankPath, y);
      CollectMembers(b, NonBlankPath, y);
    }
    SortedSetUnique(Collect(a, NonBlankPath), Collect(b, NonBlankPath));
  }

  lemma BasisIdempotent(env: Env, b: Basis)
    requires NfkcStable(env)
    ensures NormalizeBasis(env, NormalizeBasis(env, b)) == NormalizeBasis(env, b)
  {
    hide IdList, Display, ConflictKey;
    IdListIdempotent(env, b.observations);
    IdListIdempotent(env, b.hypotheses);
    IdListIdempotent(env, b.missing);
    var kept := Collect(b.contradictions, Described(env));
    var sorted := SortBy(kept, ConflictKey);
    SortFacts(kept, ConflictKey);
    forall c | c in sorted ensures Described(env)(c) == Some(c) {
      SortMembers(kept, ConflictKey, c);
      CollectMembers(b.contradictions, Described(env), c);
      var x :| x in b.contradictions && Described(env)(x) == Some(c);
      DisplayIdempotent(env, x.description);
    }
    CollectFixed(sorted, Described(env));
    SortSorted(sorted, ConflictKey);
  }
}
