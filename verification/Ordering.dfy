/** Lexicographic keys and stable sorting. A tuple of strings and integers becomes one integer
    sequence: every string is closed by -1, which is below any character, so comparing the
    sequences compares the tuples. */
module Ordering {
  import opened Wrappers

  type Key = seq<int>

  predicate Leq(a: Key, b: Key)
    decreases |a|
  {
    a == [] || (b != [] && (a[0] < b[0] || (a[0] == b[0] && Leq(a[1..], b[1..]))))
  }

  lemma {:induction false} LeqTotal(a: Key, b: Key)
    ensures Leq(a, b) || Leq(b, a)
    ensures Leq(a, b) && Leq(b, a) ==> a == b
    ensures Leq(a, a)
    decreases |a|
  {
    if a != [] {
      LeqTotal(a[1..], a[1..]);
      if b != [] && a[0] == b[0] {
        LeqTotal(a[1..], b[1..]);
        assert a == [a[0]] + a[1..] && b == [b[0]] + b[1..];
      }
    }
  }

  lemma {:induction false} LeqTransitive(a: Key, b: Key, c: Key)
    requires Leq(a, b) && Leq(b, c)
    ensures Leq(a, c)
    decreases |a|
  {
    if a != [] && a[0] == b[0] && b[0] == c[0] {
      LeqTransitive(a[1..], b[1..], c[1..]);
    }
  }

  function Codes(s: string): Key {
    seq(|s|, i requires 0 <= i < |s| => s[i] as int)
  }

  // A string inside a tuple.
  function Field(s: string): Key {
    Codes(s) + [-1]
  }

  lemma CodesInjective(s: string, t: string)
    requires Codes(s) == Codes(t)
    ensures s == t
  {
    assert |s| == |Codes(s)| && |t| == |Codes(t)|;
    forall i | 0 <= i < |s| ensures s[i] == t[i] {
      assert Codes(s)[i] == s[i] as int && Codes(t)[i] == t[i] as int;
    }
  }

  lemma {:induction false} FieldInjective(s: string, t: string, x: Key, y: Key)
    requires Field(s) + x == Field(t) + y
    ensures s == t && x == y
    decreases |s|
  {
    FieldHead(s, x);
    FieldHead(t, y);
    if s != "" && t != "" {
      FieldInjective(s[1..], t[1..], x, y);
      assert s == [s[0]] + s[1..] && t == [t[0]] + t[1..];
    }
  }

  lemma FieldHead(s: string, x: Key)
    ensures (Field(s) + x)[0] == if s == "" then -1 else s[0] as int
    ensures (Field(s) + x)[1..] == if s == "" then x else Field(s[1..]) + x
  {
    if s != "" {
      assert Codes(s)[1..] == Codes(s[1..]);
    }
  }

  /******* Keeping and transforming elements *******/

  function Collect<T, U>(s: seq<T>, f: T -> Option<U>): seq<U>
    decreases |s|
  {
    if s == [] then [] else Kept(f(s[0])) + Collect(s[1..], f)
  }

  function Kept<U>(x: Option<U>): seq<U> {
    if x.None? then [] else [x.value]
  }

  lemma {:induction false} CollectMembers<T, U>(s: seq<T>, f: T -> Option<U>, y: U)
    ensures y in Collect(s, f) <==> exists x :: x in s && f(x) == Some(y)
    decreases |s|
  {
    if s != [] {
      CollectMembers(s[1..], f, y);
      assert s == [s[0]] + s[1..];
      assert Collect(s, f) == Kept(f(s[0])) + Collect(s[1..], f);
    }
  }

  lemma {:induction false} CollectFixed<T>(s: seq<T>, f: T -> Option<T>)
    requires forall x :: x in s ==> f(x) == Some(x)
    ensures Collect(s, f) == s
    decreases |s|
  {
    if s != [] {
      CollectFixed(s[1..], f);
      assert s == [s[0]] + s[1..];
    }
  }

  lemma {:induction false} CollectConcat<T, U>(s: seq<T>, t: seq<T>, f: T -> Option<U>)
    ensures Collect(s + t, f) == Collect(s, f) + Collect(t, f)
    decreases |s|
  {
    if s == [] {
      assert s + t == t;
    } else {
      assert (s + t)[1..] == s[1..] + t;
      CollectConcat(s[1..], t, f);
    }
  }

  // Reordering the input only reorders the output.
  lemma {:induction false} CollectPermutes<T, U>(s: seq<T>, t: seq<T>, f: T -> Option<U>)
    requires multiset(s) == multiset(t)
    ensures multiset(Collect(s, f)) == multiset(Collect(t, f))
    decreases |s|
  {
    assert |multiset(s)| == |multiset(t)|;
    if s != [] {
      assert s[0] in multiset(t);
      var i :| 0 <= i < |t| && t[i] == s[0];
      TailMultiset(s);
      CollectRemove(t, i, f);
      CollectPermutes(s[1..], t[..i] + t[i + 1..], f);
    }
  }

  lemma CollectRemove<T, U>(t: seq<T>, i: nat, f: T -> Option<U>)
    requires i < |t|
    ensures multiset(t[..i] + t[i + 1..]) == multiset(t) - multiset{t[i]}
    ensures multiset(Collect(t, f)) == multiset(Kept(f(t[i]))) + multiset(Collect(t[..i] + t[i + 1..], f))
  {
    hide Kept, Collect;
    var a, b := t[..i], t[i + 1..];
    assert t == a + ([t[i]] + b);
    assert multiset(a + ([t[i]] + b)) == multiset(a) + multiset{t[i]} + multiset(b);
    CollectConcat(a, [t[i]] + b, f);
    CollectConcat(a, b, f);
    CollectOne(t[i], b, f);
  }

  lemma CollectOne<T, U>(x: T, s: seq<T>, f: T -> Option<U>)
    ensures Collect([x] + s, f) == Kept(f(x)) + Collect(s, f)
  {
    assert ([x] + s)[1..] == s;
  }

  /******* Stable sorting *******/

  ghost predicate Sorted<T>(s: seq<T>, key: T -> Key) {
    forall i, j :: 0 <= i < j < |s| ==> Leq(key(s[i]), key(s[j]))
  }

  function Insert<T>(x: T, s: seq<T>, key: T -> Key): seq<T>
    decreases |s|
  {
    if s == [] || Leq(key(x), key(s[0])) then [x] + s else [s[0]] + Insert(x, s[1..], key)
  }

  function SortBy<T>(s: seq<T>, key: T -> Key): seq<T>
    decreases |s|
  {
    if s == [] then [] else Insert(s[0], SortBy(s[1..], key), key)
  }

  lemma {:induction false} InsertFacts<T>(x: T, s: seq<T>, key: T -> Key)
    requires Sorted(s, key)
    ensures Sorted(Insert(x, s, key), key)
    ensures multiset(Insert(x, s, key)) == multiset{x} + multiset(s)
    decreases |s|
  {
    var r := Insert(x, s, key);
    if s == [] {
    } else if Leq(key(x), key(s[0])) {
      forall i, j | 0 <= i < j < |r| ensures Leq(key(r[i]), key(r[j])) {
        if i == 0 && j > 1 {
          LeqTransitive(key(x), key(s[0]), key(s[j - 1]));
        }
      }
    } else {
      var t := Insert(x, s[1..], key);
      InsertFacts(x, s[1..], key);
      LeqTotal(key(x), key(s[0]));
      assert s == [s[0]] + s[1..];
      assert multiset(s) == multiset{s[0]} + multiset(s[1..]);
      forall j | 0 <= j < |t| ensures Leq(key(s[0]), key(t[j])) {
        assert t[j] in multiset(t);
        assert t[j] == x || t[j] in s[1..];
      }
    }
  }

  lemma {:induction false} SortFacts<T>(s: seq<T>, key: T -> Key)
    ensures Sorted(SortBy(s, key), key)
    ensures multiset(SortBy(s, key)) == multiset(s)
    ensures |SortBy(s, key)| == |s|
    decreases |s|
  {
    if s != [] {
      SortFacts(s[1..], key);
      InsertFacts(s[0], SortBy(s[1..], key), key);
      assert s == [s[0]] + s[1..];
    }
    assert |multiset(SortBy(s, key))| == |multiset(s)|;
  }

  lemma SortMembers<T>(s: seq<T>, key: T -> Key, x: T)
    ensures x in SortBy(s, key) <==> x in s
  {
    SortFacts(s, key);
    assert x in SortBy(s, key) <==> x in multiset(SortBy(s, key));
    assert x in s <==> x in multiset(s);
  }

  lemma {:induction false} SortSorted<T>(s: seq<T>, key: T -> Key)
    requires Sorted(s, key)
    ensures SortBy(s, key) == s
    decreases |s|
  {
    if s != [] {
      SortSorted(s[1..], key);
      assert s == [s[0]] + s[1..];
    }
  }

  // A key that tells the elements apart makes the sorted order of a collection unique.
  ghost predicate KeySeparates<T>(s: seq<T>, key: T -> Key) {
    forall x, y :: x in s && y in s && key(x) == key(y) ==> x == y
  }

  lemma {:induction false} SortedUnique<T>(s: seq<T>, t: seq<T>, key: T -> Key)
    requires Sorted(s, key) && Sorted(t, key) && multiset(s) == multiset(t) && KeySeparates(s, key)
    ensures s == t
    decreases |s|
  {
    assert |multiset(s)| == |multiset(t)|;
    if s != [] {
      SameHead(s, t, key);
      TailMultiset(s);
      TailMultiset(t);
      SortedUnique(s[1..], t[1..], key);
    }
  }

  lemma SameHead<T>(s: seq<T>, t: seq<T>, key: T -> Key)
    requires Sorted(s, key) && Sorted(t, key) && multiset(s) == multiset(t) && KeySeparates(s, key)
    requires s != [] && t != []
    ensures s[0] == t[0]
  {
    assert s[0] in multiset(t) && t[0] in multiset(s);
    HeadLeast(s, key, t[0]);
    HeadLeast(t, key, s[0]);
    LeqTotal(key(s[0]), key(t[0]));
  }

  lemma TailMultiset<T>(s: seq<T>)
    requires s != []
    ensures s == [s[0]] + s[1..]
    ensures multiset(s[1..]) == multiset(s) - multiset{s[0]}
  {
    assert s == [s[0]] + s[1..];
  }

  lemma HeadLeast<T>(s: seq<T>, key: T -> Key, x: T)
    requires Sorted(s, key) && x in s
    ensures Leq(key(s[0]), key(x))
  {
    LeqTotal(key(x), key(x));
  }

  lemma SortUnique<T>(s: seq<T>, t: seq<T>, key: T -> Key)
    requires multiset(s) == multiset(t) && KeySeparates(s, key)
    ensures SortBy(s, key) == SortBy(t, key)
  {
    SortFacts(s, key);
    SortFacts(t, key);
    forall x, y | x in SortBy(s, key) && y in SortBy(s, key) && key(x) == key(y) ensures x == y {
      SortMembers(s, key, x);
      SortMembers(s, key, y);
    }
    SortedUnique(SortBy(s, key), SortBy(t, key), key);
  }

  /******* The sorted list of a set of strings *******/

  function InsertUnique(x: string, s: seq<string>): seq<string>
    decreases |s|
  {
    if s == [] then [x]
    else if x == s[0] then s
    else if Leq(Codes(x), Codes(s[0])) then [x] + s
    else [s[0]] + InsertUnique(x, s[1..])
  }

  function SortedSet(s: seq<string>): seq<string>
    decreases |s|
  {
    if s == [] then [] else InsertUnique(s[0], SortedSet(s[1..]))
  }

  ghost predicate StrictlySorted(s: seq<string>) {
    forall i, j :: 0 <= i < j < |s| ==> Leq(Codes(s[i]), Codes(s[j])) && s[i] != s[j]
  }

  lemma {:induction false} InsertUniqueFacts(x: string, s: seq<string>)
    requires StrictlySorted(s)
    ensures StrictlySorted(InsertUnique(x, s))
    ensures forall y :: y in InsertUnique(x, s) <==> y == x || y in s
    decreases |s|
  {
    hide Codes;
    var r := InsertUnique(x, s);
    if s == [] || x == s[0] {
    } else if Leq(Codes(x), Codes(s[0])) {
      forall j | 0 <= j < |s| ensures Leq(Codes(x), Codes(s[j])) && x != s[j] {
        if j > 0 {
          LeqTransitive(Codes(x), Codes(s[0]), Codes(s[j]));
          if x == s[j] {
            LeqTotal(Codes(x), Codes(s[0]));
            CodesInjective(x, s[0]);
          }
        }
      }
    } else {
      var t := InsertUnique(x, s[1..]);
      InsertUniqueFacts(x, s[1..]);
      LeqTotal(Codes(x), Codes(s[0]));
      assert s == [s[0]] + s[1..];
      forall j | 0 <= j < |t| ensures Leq(Codes(s[0]), Codes(t[j])) && s[0] != t[j] {
        assert t[j] == x || t[j] in s[1..];
      }
    }
  }

  lemma {:induction false} SortedSetFacts(s: seq<string>)
    ensures StrictlySorted(SortedSet(s))
    ensures forall y :: y in SortedSet(s) <==> y in s
    decreases |s|
  {
    if s != [] {
      SortedSetFacts(s[1..]);
      InsertUniqueFacts(s[0], SortedSet(s[1..]));
      assert s == [s[0]] + s[1..];
    }
  }

  lemma {:induction false} StrictlySortedUnique(s: seq<string>, t: seq<string>)
    requires StrictlySorted(s) && StrictlySorted(t)
    requires forall y :: y in s <==> y in t
    ensures s == t
    decreases |s|
  {
    hide Codes;
    assert t != [] ==> t[0] in s;
    if s != [] {
      assert s[0] in t;
      FirstLeast(s, t[0]);
      FirstLeast(t, s[0]);
      LeqTotal(Codes(s[0]), Codes(t[0]));
      CodesInjective(s[0], t[0]);
      assert s == [s[0]] + s[1..] && t == [t[0]] + t[1..];
      forall y ensures y in s[1..] <==> y in t[1..] {
        assert y in s[1..] <==> y in s && y != s[0];
        assert y in t[1..] <==> y in t && y != t[0];
      }
      StrictlySortedUnique(s[1..], t[1..]);
    }
  }

  lemma FirstLeast(s: seq<string>, x: string)
    requires StrictlySorted(s) && x in s
    ensures Leq(Codes(s[0]), Codes(x))
  {
    LeqTotal(Codes(x), Codes(x));
  }

  // The sorted list depends on the set of strings alone.
  lemma SortedSetUnique(s: seq<string>, t: seq<string>)
    requires forall y :: y in s <==> y in t
    ensures SortedSet(s) == SortedSet(t)
  {
    SortedSetFacts(s);
    SortedSetFacts(t);
    StrictlySortedUnique(SortedSet(s), SortedSet(t));
  }

  lemma SortedSetIdempotent(s: seq<string>)
    ensures SortedSet(SortedSet(s)) == SortedSet(s)
  {
    SortedSetFacts(s);
    SortedSetUnique(SortedSet(s), s);
  }

  /******* The keys of a collection, in order *******/

  ghost predicate Lists(order: seq<string>, ids: set<string>) {
    StrictlySorted(order) && forall x :: x in order <==> x in ids
  }

  lemma {:induction false} CanBeListed(ids: set<string>) returns (order: seq<string>)
    ensures Lists(order, ids)
    decreases ids
  {
    if ids == {} {
      order := [];
    } else {
      hide StrictlySorted;
      var x :| x in ids;
      var rest := CanBeListed(ids - {x});
      InsertUniqueFacts(x, rest);
      order := InsertUnique(x, rest);
    }
  }

  // The keys of a collection in the order in which the compiler visits them.
  ghost function Order(ids: set<string>): (order: seq<string>)
    ensures Lists(order, ids)
  {
    assert exists order :: Lists(order, ids) by {
      var listed := CanBeListed(ids);
    }
    var order :| Lists(order, ids);
    order
  }

  method SortedIds(ids: set<string>) returns (sorted: seq<string>)
    ensures sorted == Order(ids)
  {
    sorted := [];
    var left := ids;
    while left != {}
      invariant left <= ids && StrictlySorted(sorted)
      invariant forall x :: x in sorted <==> x in ids && x !in left
      decreases left
    {
      hide Codes, StrictlySorted;
      var x :| x in left;
      InsertUniqueFacts(x, sorted);
      sorted := InsertUnique(x, sorted);
      left := left - {x};
    }
    StrictlySortedUnique(sorted, Order(ids));
  }
}
