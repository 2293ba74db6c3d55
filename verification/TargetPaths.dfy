/** The target values of tasks: how path-like values are normalised, loop by loop, and when doing it
    again changes nothing. */
module TargetPaths {
  import opened Text

  datatype TargetKind =
    | PathTarget | ModuleTarget | ObservationTarget | HypothesisTarget | IssueTarget | QuestionTarget
    | ContradictionTarget | AuditTarget | CandidateTarget

  predicate IsPathLike(kind: TargetKind) {
    kind.PathTarget? || kind.ModuleTarget?
  }

  /******* Substring replacement *******/

  predicate Contains(s: string, pat: string)
    decreases |s|
  {
    |pat| <= |s| && (s[..|pat|] == pat || (s != "" && Contains(s[1..], pat)))
  }

  // One pass from the left over non-overlapping occurrences.
  function ReplaceAll(s: string, pat: string, sub: string): (r: string)
    requires 0 < |sub| < |pat|
    ensures |r| <= |s| && (Contains(s, pat) ==> |r| < |s|) && (!Contains(s, pat) ==> r == s)
    ensures s != "" ==> r != ""
    decreases |s|
  {
    if |s| < |pat| then s
    else if s[..|pat|] == pat then sub + ReplaceAll(s[|pat|..], pat, sub)
    else
      assert s == [s[0]] + s[1..];
      [s[0]] + ReplaceAll(s[1..], pat, sub)
  }

  predicate StartsWith(s: string, pat: string) {
    pat <= s
  }

  function TrimSlashes(s: string): (r: string)
    ensures r <= s && (r == "" || r[|r| - 1] != '/')
  {
    if s != "" && s[|s| - 1] == '/' then TrimSlashes(s[..|s| - 1]) else s
  }

  /******* What each loop computes *******/

  // Runs of slashes become one slash.
  function Squeeze(s: string): (r: string)
    ensures |r| <= |s| && (s != "" ==> r != "" && r[0] == s[0] && r[|r| - 1] == s[|s| - 1])
    ensures NoBackslash(s) ==> NoBackslash(r)
  {
    if |s| < 2 then s
    else if s[0] == '/' && s[1] == '/' then Squeeze(s[1..])
    else [s[0]] + Squeeze(s[1..])
  }

  // Inner "." segments disappear.
  function DotFree(s: string): (r: string)
    ensures |r| <= |s| && (s != "" ==> r != "" && r[0] == s[0] && r[|r| - 1] == s[|s| - 1])
    ensures NoBackslash(s) ==> NoBackslash(r)
    decreases |s|
  {
    if |s| < 3 then s
    else if s[..3] == "/./" then DotFree(s[2..])
    else [s[0]] + DotFree(s[1..])
  }

  function Undotted(s: string): (r: string)
    ensures |r| <= |s| && r == s[|s| - |r|..]
    decreases |s|
  {
    if StartsWith(s, "./") then Undotted(s[2..]) else s
  }

  function Untailed(s: string): (r: string)
    ensures r <= s
  {
    if s != "" && s[|s| - 1] == '/' && s != "/" then TrimSlashes(s) else s
  }

  function Clean(s: string): string {
    DotFree(Squeeze(Slashes(Strip(s))))
  }

  function Normal(kind: TargetKind, value: string): string {
    if IsPathLike(kind) then Untailed(Undotted(Clean(value))) else Strip(value)
  }

  /******* The passes reach the same text *******/

  lemma {:induction false} SqueezePass(c: char, t: string)
    ensures Squeeze([c] + ReplaceAll(t, "//", "/")) == Squeeze([c] + t)
    decreases |t|
  {
    if |t| < 2 {
    } else if t[..2] == "//" {
      var u := t[2..];
      SqueezePass('/', u);
      assert t == "//" + u && ReplaceAll(t, "//", "/") == "/" + ReplaceAll(u, "//", "/");
      SqueezeHead(c, "/" + ReplaceAll(u, "//", "/"));
      SqueezeHead(c, "//" + u);
      SqueezeHead('/', "/" + u);
      assert ['/'] + ("/" + u) == "//" + u;
    } else {
      SqueezePass(t[0], t[1..]);
      assert t == [t[0]] + t[1..];
      SqueezeHead(c, t);
      SqueezeHead(c, [t[0]] + ReplaceAll(t[1..], "//", "/"));
    }
  }

  lemma SqueezeHead(c: char, t: string)
    requires t != ""
    ensures Squeeze([c] + t) == if c == '/' && t[0] == '/' then Squeeze(t) else [c] + Squeeze(t)
  {
    assert ([c] + t)[1..] == t;
  }

  lemma SqueezeOnePass(s: string)
    ensures Squeeze(ReplaceAll(s, "//", "/")) == Squeeze(s)
  {
    hide Squeeze, ReplaceAll;
    if s == "" {
      assert !Contains(s, "//");
    } else {
      var r := ReplaceAll(s, "//", "/");
      SqueezePass('a', s);
      SqueezeHead('a', s);
      SqueezeHead('a', r);
      assert (['a'] + Squeeze(r))[1..] == Squeeze(r) && (['a'] + Squeeze(s))[1..] == Squeeze(s);
    }
  }

  lemma DotHead(c: char, t: string)
    ensures DotFree([c] + t)
         == if c == '/' && |t| >= 2 && t[0] == '.' && t[1] == '/' then DotFree(t[1..]) else [c] + DotFree(t)
  {
    hide DotFree;
    var s := [c] + t;
    DotUnfolds(s);
    assert s[1..] == t;
    if |t| >= 2 {
      assert s[..3] == [c, t[0], t[1]] && s[2..] == t[1..];
    } else {
      DotShort(t);
    }
  }

  lemma DotShort(t: string)
    requires |t| < 2
    ensures DotFree(t) == t
  {
  }

  lemma DotUnfolds(s: string)
    ensures DotFree(s) == if |s| < 3 then s else if s[..3] == "/./" then DotFree(s[2..]) else [s[0]] + DotFree(s[1..])
  {
  }

  // Texts that agree on their first two characters and on what they reduce to are interchangeable.
  ghost predicate Alike(m: string, n: string) {
    && |m| >= 1 && |n| >= 1 && m[0] == n[0] && DotFree(m) == DotFree(n)
    && (m[0] == '.' ==> |m| >= 2 && |n| >= 2 && m[1] == n[1] && DotFree(m[1..]) == DotFree(n[1..]))
  }

  lemma AlikeCons(c: char, m: string, n: string)
    requires Alike(m, n)
    ensures Alike([c] + m, [c] + n)
  {
    hide DotFree;
    DotHead(c, m);
    DotHead(c, n);
    assert ([c] + m)[1..] == m && ([c] + n)[1..] == n;
  }

  lemma {:induction false} DotSwap(a: string, x: string, y: string)
    requires Alike(x, y)
    ensures Alike(a + x, a + y)
    decreases |a|
  {
    hide Alike;
    if a == "" {
      assert a + x == x && a + y == y;
    } else {
      var q := a[1..];
      DotSwap(q, x, y);
      AlikeCons(a[0], q + x, q + y);
      assert a + x == [a[0]] + (q + x) && a + y == [a[0]] + (q + y);
    }
  }

  // One replacement, anywhere.
  lemma DotStep(a: string, b: string)
    ensures DotFree(a + "/./" + b) == DotFree(a + "/" + b)
  {
    hide DotFree;
    var x, y := "/./" + b, "/" + b;
    assert a + "/./" + b == a + x && a + "/" + b == a + y;
    assert x == ['/'] + ("./" + b) && ("./" + b)[1..] == y;
    DotHead('/', "./" + b);
    DotSwap(a, x, y);
  }

  lemma {:induction false} DotPass(p: string, t: string)
    ensures DotFree(p + ReplaceAll(t, "/./", "/")) == DotFree(p + t)
    decreases |t|
  {
    hide DotFree, ReplaceAll;
    PassStep(t);
    var r := ReplaceAll(t, "/./", "/");
    if |t| < 3 {
    } else if t[..3] == "/./" {
      var u := t[3..];
      var v := ReplaceAll(u, "/./", "/");
      DotPass(p + "/", u);
      assert p + r == p + "/" + v;
      assert p + t == p + "/./" + u;
      DotStep(p, u);
      assert p + "/" + u == (p + "/") + u;
    } else {
      var u := t[1..];
      DotPass(p + [t[0]], u);
      assert p + r == p + [t[0]] + ReplaceAll(u, "/./", "/");
      assert p + t == p + [t[0]] + u;
    }
  }

  // One step of a pass, from the left.
  lemma PassStep(t: string)
    ensures var r := ReplaceAll(t, "/./", "/");
            if |t| < 3 then r == t
            else if t[..3] == "/./" then t == "/./" + t[3..] && r == "/" + ReplaceAll(t[3..], "/./", "/")
            else t == [t[0]] + t[1..] && r == [t[0]] + ReplaceAll(t[1..], "/./", "/")
  {
    if |t| >= 3 {
      assert t == t[..3] + t[3..];
      PassUnfolds(t, "/./", "/");
    }
  }

  lemma PassUnfolds(s: string, pat: string, sub: string)
    requires 0 < |sub| < |pat| <= |s|
    ensures ReplaceAll(s, pat, sub) == if s[..|pat|] == pat then sub + ReplaceAll(s[|pat|..], pat, sub)
                                       else [s[0]] + ReplaceAll(s[1..], pat, sub)
    ensures s == [s[0]] + s[1..]
  {
  }

  lemma DotOnePass(s: string)
    ensures DotFree(ReplaceAll(s, "/./", "/")) == DotFree(s)
  {
    DotPass("", s);
    assert "" + s == s && "" + ReplaceAll(s, "/./", "/") == ReplaceAll(s, "/./", "/");
  }

  /******* When a loop stops, its text is done *******/

  lemma {:induction false} SqueezeDone(s: string)
    ensures !Contains(Squeeze(s), "//")
    decreases |s|
  {
    if |s| >= 2 {
      SqueezeDone(s[1..]);
      if !(s[0] == '/' && s[1] == '/') {
        ConsFree(s[0], Squeeze(s[1..]));
      }
    }
  }

  lemma ConsFree(c: char, r: string)
    requires !Contains(r, "//") && !(c == '/' && StartsWith(r, "/"))
    ensures !Contains([c] + r, "//")
  {
    var s := [c] + r;
    assert s[1..] == r;
    if r != "" {
      assert s[..2] == [c, r[0]];
      assert StartsWith(r, "/") <==> r[0] == '/';
    }
  }

  lemma {:induction false} SqueezeSingle(s: string)
    requires !Contains(s, "//")
    ensures Squeeze(s) == s
    decreases |s|
  {
    if |s| >= 2 {
      SqueezeSingle(s[1..]);
      assert s == [s[0]] + s[1..];
      assert s[..2] == [s[0], s[1]];
    }
  }

  lemma {:induction false} DotDone(s: string)
    ensures !Contains(DotFree(s), "/./")
    decreases |s|
  {
    if |s| < 3 {
    } else if s[..3] == "/./" {
      DotDone(s[2..]);
    } else {
      DotDone(s[1..]);
      var r := DotFree(s[1..]);
      if StartsWith(r, "./") {
        DotKept(s[1..]);
        assert s[..3] == [s[0], '.', '/'];
      }
      ConsInner(s[0], r);
    }
  }

  lemma ConsInner(c: char, r: string)
    requires !Contains(r, "/./") && !(c == '/' && StartsWith(r, "./"))
    ensures !Contains([c] + r, "/./")
  {
    var s := [c] + r;
    assert s[1..] == r;
    if |r| >= 2 {
      assert s[..3] == [c, r[0], r[1]];
      assert StartsWith(r, "./") <==> r[0] == '.' && r[1] == '/';
    }
  }

  lemma {:induction false} DotSingle(s: string)
    requires !Contains(s, "/./")
    ensures DotFree(s) == s
    decreases |s|
  {
    if |s| >= 3 {
      DotSingle(s[1..]);
      assert s == [s[0]] + s[1..];
    }
  }

  // A leading "./" of the result was there before.
  lemma DotKept(s: string)
    requires StartsWith(DotFree(s), "./")
    ensures StartsWith(s, "./")
  {
    if |s| >= 3 {
      assert DotFree(s)[1] == DotFree(s[1..])[0];
    }
  }

  lemma {:induction false} DotFreeKeepsSingle(s: string)
    requires !Contains(s, "//")
    ensures !Contains(DotFree(s), "//")
    decreases |s|
  {
    if |s| < 3 {
    } else if s[..3] == "/./" {
      assert s[1..][1..] == s[2..];
      DotFreeKeepsSingle(s[2..]);
    } else {
      DotFreeKeepsSingle(s[1..]);
      var r := DotFree(s[1..]);
      assert ([s[0]] + r)[1..] == r;
    }
  }

  lemma {:induction false} SuffixFree(s: string, n: nat, pat: string)
    requires n <= |s| && !Contains(s, pat)
    ensures !Contains(s[n..], pat)
    decreases n
  {
    if n == 0 {
      assert s[0..] == s;
    } else {
      assert s[1..][n - 1..] == s[n..];
      SuffixFree(s[1..], n - 1, pat);
    }
  }

  lemma {:induction false} PrefixFree(s: string, n: nat, pat: string)
    requires n <= |s| && !Contains(s, pat)
    ensures !Contains(s[..n], pat)
    decreases |s|
  {
    if |pat| <= n {
      assert s[..n][..|pat|] == s[..|pat|];
      if n > 0 {
        assert s[..n][1..] == s[1..][..n - 1];
        PrefixFree(s[1..], n - 1, pat);
      }
    }
  }

  /******* The normaliser *******/

  method CollapseSlashes(text: string) returns (r: string)
    ensures r == Squeeze(text)
  {
    hide Squeeze, Contains, ReplaceAll;
    r := text;
    while Contains(r, "//")
      invariant Squeeze(r) == Squeeze(text)
      decreases |r|
    {
      SqueezeOnePass(r);
      r := ReplaceAll(r, "//", "/");
    }
    SqueezeSingle(r);
  }

  method DropInnerDots(text: string) returns (r: string)
    ensures r == DotFree(text)
  {
    hide DotFree, Contains, ReplaceAll;
    r := text;
    while Contains(r, "/./")
      invariant DotFree(r) == DotFree(text)
      decreases |r|
    {
      DotOnePass(r);
      r := ReplaceAll(r, "/./", "/");
    }
    DotSingle(r);
  }

  method DropLeadingDots(text: string) returns (r: string)
    ensures r == Undotted(text)
  {
    r := text;
    while StartsWith(r, "./")
      invariant Undotted(r) == Undotted(text)
      decreases |r|
    {
      r := r[2..];
    }
  }

  method NormalizeTargetValue(kind: TargetKind, value: string) returns (r: string)
    ensures r == Normal(kind, value)
  {
    hide Squeeze, DotFree, Strip, Slashes, Undotted, TrimSlashes;
    r := Strip(value);
    if IsPathLike(kind) {
      r := CollapseSlashes(Slashes(r));
      r := DropInnerDots(r);
      r := DropLeadingDots(r);
      if r != "" && r[|r| - 1] == '/' && r != "/" {
        r := TrimSlashes(r);
      }
    }
  }

  /******* The result *******/

  lemma CleanFacts(value: string)
    ensures var c := Clean(value);
            && !Contains(c, "//") && !Contains(c, "/./") && NoBackslash(c)
            && |c| <= |Strip(value)| && (c != "" ==> !IsSpace(c[0]) && !IsSpace(c[|c| - 1]))
  {
    hide Squeeze, DotFree, Contains, Strip;
    var s := Slashes(Strip(value));
    SqueezeDone(s);
    DotDone(Squeeze(s));
    DotFreeKeepsSingle(Squeeze(s));
    StripTrims(value);
  }

  // A clean text loses at most one leading "./" and at most one trailing slash.
  lemma CleanEnds(c: string)
    requires !Contains(c, "//") && !Contains(c, "/./")
    ensures Undotted(c) == if StartsWith(c, "./") then c[2..] else c
    ensures var u := Undotted(c);
            && !Contains(u, "//") && !Contains(u, "/./")
            && Untailed(u) == if u != "" && u[|u| - 1] == '/' && u != "/" then u[..|u| - 1] else u
  {
    hide Contains, Untailed, Undotted, StartsWith;
    OneDotAtMost(c);
    if StartsWith(c, "./") {
      StartsLong(c);
      SuffixFree(c, 2, "//");
      SuffixFree(c, 2, "/./");
    }
    OneTail(Undotted(c));
  }

  lemma StartsLong(c: string)
    ensures StartsWith(c, "./") ==> |c| >= 2
  {
  }

  lemma OneDotAtMost(c: string)
    requires !Contains(c, "/./")
    ensures Undotted(c) == if StartsWith(c, "./") then c[2..] else c
  {
    hide Contains;
    if StartsWith(c, "./") {
      NoDotAfter(c);
      OneDot(c);
    }
  }

  lemma OneDot(c: string)
    requires StartsWith(c, "./") && !StartsWith(c[2..], "./")
    ensures Undotted(c) == c[2..]
  {
    var d := c[2..];
    assert Undotted(d) == d;
  }

  lemma NoDotAfter(c: string)
    requires StartsWith(c, "./") && !Contains(c, "/./")
    ensures !StartsWith(c[2..], "./")
  {
    if |c| >= 4 {
      assert c[1..][..3] == [c[1], c[2], c[3]];
      assert c[2..][..2] == [c[2], c[3]];
    }
  }

  lemma OneTail(u: string)
    requires !Contains(u, "//")
    ensures Untailed(u) == if u != "" && u[|u| - 1] == '/' && u != "/" then u[..|u| - 1] else u
    ensures |u| >= 2 && u[|u| - 1] == '/' ==> u[|u| - 2] != '/'
  {
    hide Contains, TrimSlashes;
    if |u| >= 2 && u[|u| - 1] == '/' {
      NoPairAtEnd(u);
      TrimOnce(u);
    }
  }

  lemma NoPairAtEnd(u: string)
    requires !Contains(u, "//") && |u| >= 2 && u[|u| - 1] == '/'
    ensures u[|u| - 2] != '/'
  {
    SuffixFree(u, |u| - 2, "//");
    assert u[|u| - 2..] == [u[|u| - 2], '/'];
    assert u[|u| - 2..][..2] == u[|u| - 2..];
  }

  lemma TrimOnce(u: string)
    requires |u| >= 2 && u[|u| - 1] == '/' && u[|u| - 2] != '/'
    ensures TrimSlashes(u) == u[..|u| - 1]
  {
    var v := u[..|u| - 1];
    assert v[|v| - 1] == u[|u| - 2];
    assert TrimSlashes(v) == v;
  }

  ghost predicate IsNormalPath(r: string) {
    && NoBackslash(r) && !Contains(r, "//") && !Contains(r, "/./") && !StartsWith(r, "./")
    && (r != "" && r[|r| - 1] == '/' ==> r == "/")
  }

  // Path-like targets come out without backslashes, double slashes, inner "." segments, a leading
  // "./" or a trailing slash.
  lemma NormalPathShape(kind: TargetKind, value: string)
    requires IsPathLike(kind)
    ensures IsNormalPath(Normal(kind, value))
  {
    hide Contains, Clean, Undotted, Untailed, IsNormalPath;
    var c := Clean(value);
    CleanFacts(value);
    CleanEnds(c);
    if StartsWith(c, "./") {
      NoDotAfter(c);
    }
    UntailedShape(Undotted(c));
  }

  lemma UntailedShape(u: string)
    requires !Contains(u, "//") && !Contains(u, "/./") && NoBackslash(u) && !StartsWith(u, "./")
    ensures IsNormalPath(Untailed(u))
  {
    hide Contains, Untailed;
    OneTail(u);
    var r := Untailed(u);
    PrefixFree(u, |r|, "//");
    PrefixFree(u, |r|, "/./");
  }

  lemma NormalPathStays(kind: TargetKind, r: string)
    requires IsPathLike(kind) && IsNormalPath(r)
    ensures Normal(kind, r) == r <==> Trimmed(r)
  {
    hide Contains, Squeeze, DotFree, IsSpace;
    StripTrims(r);
    if Trimmed(r) {
      SlashesIdentity(r);
      SqueezeSingle(r);
      DotSingle(r);
    } else {
      NormalShrinks(kind, r);
      StripTrims(r);
    }
  }

  lemma NormalShrinks(kind: TargetKind, value: string)
    ensures |Normal(kind, value)| <= |Strip(value)|
  {
    hide Squeeze, DotFree;
  }

  /******* Normalising twice *******/

  // Cutting a leading "./" or a trailing slash would leave whitespace at that end.
  predicate ExposesSpace(c: string) {
    || (StartsWith(c, "./") && |c| > 2 && IsSpace(c[2]))
    || (|c| >= 2 && c[|c| - 1] == '/' && IsSpace(c[|c| - 2]))
  }

  // Normalising is idempotent exactly when neither cut exposes whitespace.
  lemma NormalIdempotentIff(kind: TargetKind, value: string)
    ensures Normal(kind, Normal(kind, value)) == Normal(kind, value)
            <==> !IsPathLike(kind) || !ExposesSpace(Clean(value))
  {
    hide Clean, Undotted, Untailed, IsNormalPath, ExposesSpace, Strip, Trimmed;
    if IsPathLike(kind) {
      NormalPathShape(kind, value);
      NormalPathStays(kind, Normal(kind, value));
      CleanFacts(value);
      ExposedEnds(Clean(value));
    } else {
      StripTrims(value);
      StripTrims(Strip(value));
    }
  }

  lemma SlashIsNotSpace()
    ensures !IsSpace('/') && !IsSpace('.')
  {
  }

  lemma TailExposes(u: string)
    requires !Contains(u, "//") && (u != "" ==> !IsSpace(u[|u| - 1]))
    ensures Trimmed(Untailed(u)) <==>
            !(u != "" && IsSpace(u[0])) && !(|u| >= 2 && u[|u| - 1] == '/' && IsSpace(u[|u| - 2]))
  {
    hide Contains, Untailed, IsSpace;
    OneTail(u);
    SlashIsNotSpace();
  }

  lemma ExposedWithoutDot(c: string)
    requires !StartsWith(c, "./") && (c != "" ==> !IsSpace(c[0]))
    ensures ExposesSpace(c) <==> |c| >= 2 && c[|c| - 1] == '/' && IsSpace(c[|c| - 2])
  {
    hide IsSpace;
  }

  lemma ExposedAfterDot(c: string)
    requires StartsWith(c, "./") && !Contains(c[2..], "//") && !IsSpace(c[|c| - 1])
    ensures Trimmed(Untailed(c[2..])) <==> !ExposesSpace(c)
  {
    hide Contains, Untailed, IsSpace, Trimmed;
    var u := c[2..];
    SlashIsNotSpace();
    assert c[1] == '/';
    TailExposes(u);
  }

  lemma ExposedEnds(c: string)
    requires !Contains(c, "//") && !Contains(c, "/./")
    requires c != "" ==> !IsSpace(c[0]) && !IsSpace(c[|c| - 1])
    ensures Trimmed(Untailed(Undotted(c))) <==> !ExposesSpace(c)
  {
    hide Contains, Undotted, Untailed, IsSpace, Trimmed, ExposesSpace;
    CleanEnds(c);
    if StartsWith(c, "./") {
      ExposedAfterDot(c);
    } else {
      TailExposes(c);
      ExposedWithoutDot(c);
    }
  }

  // Writing a path without whitespace to the queue file and loading it changes nothing.
  lemma SpaceFreeIsStable(kind: TargetKind, value: string)
    requires NoSpace(Clean(value))
    ensures Normal(kind, Normal(kind, value)) == Normal(kind, value)
  {
    hide Clean;
    NormalIdempotentIff(kind, value);
  }

  // The path "./ a" becomes " a", and that becomes "a".
  lemma DotSpaceIsNotStable()
    ensures Normal(PathTarget, Normal(PathTarget, "./ a")) != Normal(PathTarget, "./ a")
  {
    hide Normal, Clean;
    assert Clean("./ a") == "./ a" by {
      CleanOfExample();
    }
    assert IsSpace(' ');
    NormalIdempotentIff(PathTarget, "./ a");
  }

  lemma CleanOfExample()
    ensures Clean("./ a") == "./ a"
  {
    hide Squeeze, DotFree, Contains, Strip;
    StripTrims("./ a");
    SlashesIdentity("./ a");
    NoPairs();
    SqueezeSingle("./ a");
    DotSingle("./ a");
  }

  lemma NoPairs()
    ensures !Contains("./ a", "//") && !Contains("./ a", "/./")
  {
    assert "./ a"[1..] == "/ a" && "/ a"[1..] == " a" && " a"[1..] == "a" && "a"[1..] == "";
    assert "./ a"[..2] == "./" && "/ a"[..2] == "/ " && " a"[..2] == " a";
    assert "./ a"[..3] == "./ " && "/ a"[..3] == "/ a";
    assert !Contains("", "//") && !Contains("a", "//") && !Contains(" a", "//") && !Contains("/ a", "//");
    assert !Contains(" a", "/./") && !Contains("/ a", "/./");
  }

  /******* Values that normalise away *******/

  // Behind a leading "./" there is nothing but whitespace and a slash.
  predicate Vanishes(s: string) {
    StartsWith(s, "./") && Strip(Untailed(s[2..])) == ""
  }

  lemma {:induction false} StripRightKeepsHead(s: string)
    requires s != "" && !IsSpace(s[0])
    ensures StripRight(s) != ""
    decreases |s|
  {
    if IsSpace(s[|s| - 1]) {
      StripRightKeepsHead(s[..|s| - 1]);
    }
  }

  lemma HeadSurvives(s: string)
    requires s != "" && !IsSpace(s[0])
    ensures Strip(s) != ""
  {
    assert StripLeft(s) == s;
    StripRightKeepsHead(s);
  }

  lemma StripIsPart(s: string, pat: string)
    requires !Contains(s, pat)
    ensures !Contains(Strip(s), pat)
  {
    hide Contains, StripLeft, StripRight;
    var l := StripLeft(s);
    var r := StripRight(l);
    assert l == s[|s| - |l|..] && r == l[..|r|];
    SuffixFree(s, |s| - |l|, pat);
    PrefixFree(l, |r|, pat);
  }

  // What is left of a normal path that is normalised again.
  lemma NormalAgain(kind: TargetKind, r: string)
    requires IsPathLike(kind) && IsNormalPath(r)
    ensures Normal(kind, r) == if StartsWith(Strip(r), "./") then Untailed(Strip(r)[2..]) else Untailed(Strip(r))
    ensures !Contains(Strip(r), "//")
  {
    hide Contains, Squeeze, DotFree, Strip, Untailed, Undotted, NoBackslash, StartsWith;
    var s := Strip(r);
    StripIsPart(r, "//");
    StripIsPart(r, "/./");
    StripKeepsNoBackslash(r);
    SlashesIdentity(s);
    SqueezeSingle(s);
    DotSingle(s);
    OneDotAtMost(s);
  }

  // A value that was normalised disappears when it is normalised again exactly when only whitespace
  // and a slash follow its "./".
  lemma NormalVanishesIff(kind: TargetKind, value: string)
    requires IsPathLike(kind) && Strip(Normal(kind, value)) != ""
    ensures Strip(Normal(kind, Normal(kind, value))) == "" <==> Vanishes(Strip(Normal(kind, value)))
  {
    hide Contains, Strip, Untailed, Undotted, IsNormalPath, Clean, Normal, StartsWith;
    var r := Normal(kind, value);
    NormalPathShape(kind, value);
    NormalAgain(kind, r);
    if !StartsWith(Strip(r), "./") {
      UntailedSurvives(Strip(r), r);
    }
  }

  lemma UntailedSurvives(s: string, r: string)
    requires s == Strip(r) && s != "" && !Contains(s, "//")
    ensures Strip(Untailed(s)) != ""
  {
    hide Contains, Untailed, Strip;
    StripTrims(r);
    OneTail(s);
    HeadSurvives(Untailed(s));
  }

  // The path "./ ./ /" becomes " ./ ", and that becomes nothing.
  lemma DotsVanish()
    ensures Normal(PathTarget, "./ ./ /") == " ./ " && Vanishes(Strip(" ./ "))
  {
    hide Contains, Strip, Untailed, Undotted, Clean;
    CleanDots();
    CleanEnds("./ ./ /");
    assert "./ ./ /"[2..] == " ./ /" && " ./ /"[..4] == " ./ ";
    StripDots();
  }

  lemma StripDots()
    ensures Strip(" ./ ") == "./" && Strip("") == ""
  {
    hide StripRight, StripLeft, Strip;
    OuterSpace("./");
    StripTrims("./");
    StripTrims("");
    assert " ./ " == [' '] + "./" + [' '];
  }

  lemma OuterSpace(s: string)
    requires s != "" && !IsSpace(s[0])
    ensures Strip([' '] + s + [' ']) == Strip(s)
  {
    hide StripRight;
    var t := s + [' '];
    assert [' '] + s + [' '] == [' '] + t && ([' '] + t)[1..] == t;
    assert StripLeft([' '] + t) == StripLeft(t) == t && StripLeft(s) == s;
    LastSpace(s);
  }

  lemma LastSpace(s: string)
    ensures StripRight(s + [' ']) == StripRight(s)
  {
    assert (s + [' '])[..|s|] == s;
  }

  lemma CleanDots()
    ensures Clean("./ ./ /") == "./ ./ /" && !Contains("./ ./ /", "//") && !Contains("./ ./ /", "/./")
  {
    hide Squeeze, DotFree, Contains, Strip;
    var s := "./ ./ /";
    StripTrims(s);
    SlashesIdentity(s);
    NoPairsInDots("//");
    NoPairsInDots("/./");
    SqueezeSingle(s);
    DotSingle(s);
  }

  lemma NoPairsInDots(pat: string)
    requires pat == "//" || pat == "/./"
    ensures !Contains("./ ./ /", pat)
  {
    hide Contains;
    assert !Contains("", pat) by {
      TooShort("", pat);
    }
    NotAtFront("/", "", pat);
    NotAtFront(" /", "/", pat);
    NotAtFront("/ /", " /", pat);
    NotAtFront("./ /", "/ /", pat);
    NotAtFront(" ./ /", "./ /", pat);
    NotAtFront("/ ./ /", " ./ /", pat);
    NotAtFront("./ ./ /", "/ ./ /", pat);
  }

  lemma TooShort(s: string, pat: string)
    requires |s| < |pat|
    ensures !Contains(s, pat)
  {
  }

  lemma NotAtFront(s: string, rest: string, pat: string)
    requires s != "" && s[1..] == rest && !Contains(rest, pat)
    requires |pat| >= 2 && (s[0] != pat[0] || rest == "" || rest[0] != pat[1])
    ensures !Contains(s, pat)
  {
    if |pat| <= |s| {
      assert s[..|pat|][0] == s[0] && s[..|pat|][1] == rest[0];
    }
  }
}
